/** The include edges that close a cycle (analyzers/cycle_detect.go). */
module CycleCheck {
  import opened ViewStore
  import opened Views
  import ViewRuns
  import opened Wrappers

  /** The graph of the current contents: what each readable file includes. */
  function Graph(world: World, fs: map<Uri, string>): Store {
    Store(map[], map f | f in fs :: IncludesOf(world, f, ParseOf(world, fs[f])), map[], 0)
  }

  lemma GraphEdge(world: World, fs: map<Uri, string>, a: Uri, b: Uri)
    ensures Edge(Graph(world, fs), a, b) <==> a in fs && Includes(world, a, ParseOf(world, fs[a]), b)
  {
    hide ParseOf;
  }

  /** The cache holds parses of the current contents, and no edge that the contents do not have. */
  ghost predicate Tracks(world: World, fs: map<Uri, string>, st: Store) {
    && Wired(st)
    && (forall u :: Cached(st, u) ==> u in fs && st.entries[u] == Some(ParseOf(world, fs[u])))
    && forall a, b :: Edge(st, a, b) ==> Edge(Graph(world, fs), a, b)
  }

  /** The graph without the edges that evictions have dropped from files that stay cached. */
  function Remaining(world: World, fs: map<Uri, string>, st: Store): Store {
    Store(map[],
          map f | f in fs :: if Cached(st, f) then At(st.includes, f) else IncludesOf(world, f, ParseOf(world, fs[f])),
          map[], 0)
  }

  /** Moreover, no edge of a cached parse has been dropped by an eviction. */
  ghost predicate Settled(world: World, fs: map<Uri, string>, st: Store) {
    Tracks(world, fs, st) && forall a, b :: Cached(st, a) && Edge(Graph(world, fs), a, b) ==> Edge(st, a, b)
  }

  lemma ParsingTracks(world: World, fs: map<Uri, string>, st: Store, u: Uri, guard: Option<nat>)
    requires Tracks(world, fs, st) && (guard.None? || guard.value == st.gen)
    ensures var r := Parsing(world, fs, st, u, guard);
            && Tracks(world, fs, r) && r.gen == st.gen && (u in fs ==> Cached(r, u))
            && (forall v :: Cached(st, v) ==> Cached(r, v))
            && Remaining(world, fs, r) == Remaining(world, fs, st)
  {
    hide Wired, Parsing, IncludesOf, ParseOf;
    ParsingKeeps(world, fs, st, u, guard);
    var r := Parsing(world, fs, st, u, guard);
    if r != st {
      forall a, b ensures a != u ==> (Edge(r, a, b) <==> Edge(st, a, b)) {
      }
      forall b ensures Edge(r, u, b) <==> Edge(Graph(world, fs), u, b) {
        GraphEdge(world, fs, u, b);
      }
    }
  }

  /** f is one of the roots or included from one, directly or transitively. */
  ghost predicate FromRoots(g: Store, roots: seq<Uri>, f: Uri) {
    exists r :: r in roots && (r == f || Reaches(g, r, f))
  }

  // ----- the closure -----

  /** f has been collected, or has nothing to collect. */
  ghost predicate Known(g: Store, found: map<Uri, seq<Uri>>, f: Uri) {
    f in found || At(g.includes, f) == []
  }

  ghost predicate Complete(g: Store, found: map<Uri, seq<Uri>>, f: Uri)
    requires f in found
  {
    forall x :: Edge(g, f, x) ==> x in found[f] && Known(g, found, x)
  }

  /** What is found is there; only files in progress may lack includes. */
  ghost predicate Collecting(g: Store, found: map<Uri, seq<Uri>>, open: set<Uri>) {
    && (forall f, x :: f in found && x in found[f] ==> Edge(g, f, x))
    && (forall f :: f in found ==> found[f] != [])
    && forall f :: f in found && f !in open ==> Complete(g, found, f)
  }

  /** One more include of file. */
  lemma CollectOne(g: Store, found: map<Uri, seq<Uri>>, open: set<Uri>, file: Uri, inc: Uri)
    requires Collecting(g, found, open) && file in open && Edge(g, file, inc)
    ensures Collecting(g, found[file := At(found, file) + [inc]], open)
  {
    var more := found[file := At(found, file) + [inc]];
    forall f | f in more && f !in open ensures Complete(g, more, f) {
      assert Complete(g, found, f);
    }
  }

  lemma KnownStays(g: Store, a: map<Uri, seq<Uri>>, b: map<Uri, seq<Uri>>)
    requires a.Keys <= b.Keys
    ensures forall f :: Known(g, a, f) ==> Known(g, b, f)
  {
    forall f | Known(g, a, f) ensures Known(g, b, f) {
      assert f in a.Keys ==> f in b.Keys;
    }
  }

  /** The first k include statements of file are in. */
  ghost predicate Taken(world: World, g: Store, found: map<Uri, seq<Uri>>, file: Uri, statements: seq<Option<string>>,
                        k: nat) {
    k <= |statements|
    && forall i, x :: 0 <= i < k && Targets(world, file, statements[i], x) ==>
         x in At(found, file) && Known(g, found, x)
  }

  lemma AllTaken(world: World, fs: map<Uri, string>, found: map<Uri, seq<Uri>>, open: set<Uri>, file: Uri)
    requires file in fs && file !in open
    requires Collecting(Graph(world, fs), found, open + {file})
    requires var statements := ParseOf(world, fs[file]).statements;
             Taken(world, Graph(world, fs), found, file, statements, |statements|)
    ensures Collecting(Graph(world, fs), found, open) && Known(Graph(world, fs), found, file)
  {
    hide IncludesOf, ParseOf;
    var g := Graph(world, fs);
    forall x | Edge(g, file, x) ensures x in At(found, file) && Known(g, found, x) {
      GraphEdge(world, fs, file, x);
    }
    SomeElement(At(g.includes, file));
    if At(g.includes, file) != [] {
      var x :| x in At(g.includes, file);
      assert Edge(g, file, x);
      assert x in At(found, file);
    }
  }

  lemma NoneTaken(world: World, g: Store, found: map<Uri, seq<Uri>>, file: Uri, statements: seq<Option<string>>,
                  open: set<Uri>)
    requires Collecting(g, found, open)
    ensures Taken(world, g, found, file, statements, 0) && Collecting(g, found, open + {file})
  {
  }

  lemma Statement(world: World, fs: map<Uri, string>, file: Uri, i: nat, inc: Uri)
    requires file in fs && i < |ParseOf(world, fs[file]).statements|
    requires Targets(world, file, ParseOf(world, fs[file]).statements[i], inc)
    ensures Edge(Graph(world, fs), file, inc)
  {
    GraphEdge(world, fs, file, inc);
  }

  lemma Onward(g: Store, a: Uri, b: Uri)
    requires Edge(g, a, b)
    ensures Reaches(g, a, b) && forall c :: Reaches(g, b, c) ==> Reaches(g, a, c)
  {
    hide Reaches;
    EdgeReaches(g, a, b);
    forall c | Reaches(g, b, c) ensures Reaches(g, a, c) {
      EdgeThenReaches(g, a, b, c);
    }
  }

  /** Statement i has been taken, and nothing has been lost. */
  lemma TakeOne(world: World, g: Store, before: map<Uri, seq<Uri>>, found: map<Uri, seq<Uri>>, file: Uri,
                statements: seq<Option<string>>, i: nat)
    requires i < |statements| && Taken(world, g, before, file, statements, i)
    requires before.Keys <= found.Keys && forall x :: x in At(before, file) ==> x in At(found, file)
    requires forall x :: Targets(world, file, statements[i], x) ==> x in At(found, file) && Known(g, found, x)
    ensures Taken(world, g, found, file, statements, i + 1)
  {
    hide Known;
    KnownStays(g, before, found);
  }

  /** What a parse of file gives: its cached parse, or nothing when it cannot be read. */
  lemma Parses(world: World, fs: map<Uri, string>, st: Store, file: Uri, found: map<Uri, seq<Uri>>)
    requires Tracks(world, fs, st)
    ensures var r := ParseResult(world, fs, st, file);
            if file in fs then r == Some(ParseOf(world, fs[file]))
            else r == None && Known(Graph(world, fs), found, file)
  {
    hide Wired, IncludesOf, ParseOf;
  }

  /** How collecting file, with the files of open in progress, changes the view and the closure. */
  ghost predicate Collected(world: World, fs: map<Uri, string>, st0: Store, st: Store, found0: map<Uri, seq<Uri>>,
                            found: map<Uri, seq<Uri>>, open: set<Uri>, file: Uri) {
    && Tracks(world, fs, st) && st.gen == st0.gen && Remaining(world, fs, st) == Remaining(world, fs, st0)
    && found0.Keys <= found.Keys && open <= found0.Keys
    && (forall f :: f in open ==> f in found0 && found[f] == found0[f])
    && (forall f :: f in found ==> Cached(st, f) && f in fs)
    && (forall f :: Cached(st0, f) ==> Cached(st, f))
    && forall f :: f in found ==> f in found0 || f == file || Reaches(Graph(world, fs), file, f)
  }

  lemma ParseCollects(world: World, fs: map<Uri, string>, st: Store, found: map<Uri, seq<Uri>>, open: set<Uri>,
                      file: Uri, guard: Option<nat>)
    requires Tracks(world, fs, st) && (guard.None? || guard.value == st.gen) && open <= found.Keys
    requires forall f :: f in found ==> Cached(st, f)
    ensures var r := Parsing(world, fs, st, file, guard);
            Collected(world, fs, st, r, found, found, open, file) && (file in fs ==> Cached(r, file))
  {
    hide Wired, Parsing, Remaining, Reaches, Graph, Edge;
    ParsingTracks(world, fs, st, file, guard);
  }

  lemma AddCollects(world: World, fs: map<Uri, string>, st0: Store, st: Store, found0: map<Uri, seq<Uri>>,
                    found: map<Uri, seq<Uri>>, open: set<Uri>, file: Uri, list: seq<Uri>)
    requires Collected(world, fs, st0, st, found0, found, open, file) && Cached(st, file) && file in fs && file !in open
    ensures Collected(world, fs, st0, st, found0, found[file := list], open, file)
  {
    hide Tracks, Remaining, Reaches, Graph, Cached;
  }

  lemma CollectsOn(world: World, fs: map<Uri, string>, st0: Store, st1: Store, st2: Store, found0: map<Uri, seq<Uri>>,
                   found1: map<Uri, seq<Uri>>, found2: map<Uri, seq<Uri>>, open: set<Uri>, file: Uri, inc: Uri)
    requires Collected(world, fs, st0, st1, found0, found1, open, file)
    requires Collected(world, fs, st1, st2, found1, found2, open + {file}, inc)
    requires Edge(Graph(world, fs), file, inc)
    ensures Collected(world, fs, st0, st2, found0, found2, open, file) && At(found2, file) == At(found1, file)
  {
    hide Tracks, Remaining, Reaches, Graph, Cached, Edge;
    Onward(Graph(world, fs), file, inc);
  }

  lemma Started(world: World, fs: map<Uri, string>, st: Store, found: map<Uri, seq<Uri>>, open: set<Uri>, file: Uri,
                inc: Uri, st0: Store, found0: map<Uri, seq<Uri>>)
    requires Collected(world, fs, st0, st, found0, found, open, file) && file in found && inc !in found
    ensures Tracks(world, fs, st) && st.gen == st0.gen && open + {file} <= found.Keys && inc !in open + {file}
    ensures forall f :: f in found ==> Cached(st, f)
    ensures file in fs.Keys && file in found.Keys && found0.Keys <= found.Keys
  {
    hide Tracks, Remaining, Reaches, Graph, Cached;
    Within(open, file, found.Keys);
  }

  /** The next of a set, in no particular order. */
  method AnyOf<T(==)>(a: set<T>) returns (x: T)
    requires a != {}
    ensures x in a
  {
    x :| x in a;
  }

  lemma Within<T>(a: set<T>, x: T, b: set<T>)
    requires a <= b && x in b
    ensures a + {x} <= b
  {
  }

  lemma LeftShrinks(all: set<Uri>, before: set<Uri>, after: set<Uri>, file: Uri)
    requires before <= after && file in all && file in after
    ensures |all - after| <= |all - before|
    ensures file !in before ==> |all - after| < |all - before|
  {
    SubsetSize(all - after, all - before);
    if file !in before {
      SubsetSize(all - after, (all - before) - {file});
    }
  }

  lemma SubsetSize<T>(a: set<T>, b: set<T>)
    requires a <= b
    ensures |a| <= |b|
  {
    if x :| x in a {
      SubsetSize(a - {x}, b - {x});
    }
  }

  lemma StaysCached(world: World, fs: map<Uri, string>, st0: Store, st: Store, found0: map<Uri, seq<Uri>>,
                    found: map<Uri, seq<Uri>>, open: set<Uri>, file: Uri, f: Uri)
    requires Collected(world, fs, st0, st, found0, found, open, file)
    ensures found0.Keys <= found.Keys && (Cached(st0, f) ==> Cached(st, f))
  {
    hide Tracks, Remaining, Reaches, Graph, Cached;
  }

  lemma InIsKnown(g: Store, found: map<Uri, seq<Uri>>, f: Uri)
    requires f in found
    ensures Known(g, found, f)
  {
  }

  lemma SkipOne(world: World, g: Store, found: map<Uri, seq<Uri>>, file: Uri, statements: seq<Option<string>>, i: nat)
    requires i < |statements| && Taken(world, g, found, file, statements, i) && statements[i].None?
    ensures Taken(world, g, found, file, statements, i + 1)
  {
    hide Known;
  }

  // ----- the check -----

  /** The files found are those with includes that come from the roots. */
  ghost predicate Covers(g: Store, roots: seq<Uri>, found: map<Uri, seq<Uri>>) {
    && Collecting(g, found, {})
    && (forall f :: f in found ==> FromRoots(g, roots, f))
    && forall i :: 0 <= i < |roots| ==> Known(g, found, roots[i])
  }

  lemma {:induction false} ClosedCovers(g: Store, found: map<Uri, seq<Uri>>, p: seq<Uri>)
    requires Collecting(g, found, {}) && Path(g, p) && Known(g, found, p[0])
    ensures Known(g, found, p[|p| - 1])
    decreases |p|
  {
    assert Edge(g, p[0], p[1]);
    assert Complete(g, found, p[0]);
    if |p| > 2 {
      TailPath(g, p);
      ClosedCovers(g, found, p[1..]);
    }
  }

  lemma TailPath(g: Store, p: seq<Uri>)
    requires Path(g, p) && |p| > 2
    ensures Path(g, p[1..])
  {
    forall i | 0 <= i < |p[1..]| - 1 ensures Edge(g, p[1..][i], p[1..][i + 1]) {
      assert Edge(g, p[i + 1], p[i + 1 + 1]);
    }
  }

  /** Every edge from the roots is collected. */
  lemma EdgesCollected(g: Store, roots: seq<Uri>, found: map<Uri, seq<Uri>>, f: Uri, x: Uri)
    requires Covers(g, roots, found)
    ensures FromRoots(g, roots, f) && Edge(g, f, x) <==> f in found && x in found[f]
  {
    hide Path;
    if FromRoots(g, roots, f) && Edge(g, f, x) {
      var r :| r in roots && (r == f || Reaches(g, r, f));
      if r != f {
        var p :| Path(g, p) && p[0] == r && p[|p| - 1] == f;
        ClosedCovers(g, found, p);
      }
      assert f in found;
      assert Complete(g, found, f);
    }
  }

  /** The view has the remaining edges of the files it caches. */
  lemma RemainingEdge(world: World, fs: map<Uri, string>, st: Store, a: Uri, b: Uri)
    requires Tracks(world, fs, st)
    ensures Edge(Remaining(world, fs, st), a, b) ==> Edge(Graph(world, fs), a, b)
    ensures Edge(st, a, b) ==> Edge(Graph(world, fs), a, b)
    ensures Cached(st, a) ==> (Edge(st, a, b) <==> Edge(Remaining(world, fs, st), a, b))
    ensures Edge(Remaining(world, fs, st), a, b) <==> Edge(Graph(world, fs), a, b) && (Cached(st, a) ==> Edge(st, a, b))
  {
    hide Wired, ParseOf, IncludesOf;
  }

  /** A path of one graph is one of another that has its edges. */
  lemma SamePath(g: Store, h: Store, p: seq<Uri>)
    requires Path(g, p) && forall i :: 0 <= i < |p| - 1 ==> Edge(h, p[i], p[i + 1])
    ensures Path(h, p)
  {
  }

  lemma FromRootsNext(g: Store, roots: seq<Uri>, f: Uri, x: Uri)
    requires FromRoots(g, roots, f) && Edge(g, f, x)
    ensures FromRoots(g, roots, x)
  {
    hide Edge;
    var r :| r in roots && (r == f || Reaches(g, r, f));
    if r == f {
      EdgeReaches(g, f, x);
    } else {
      var p :| Path(g, p) && p[0] == r && p[|p| - 1] == f;
      assert Path(g, p + [x]);
      assert Reaches(g, r, x);
    }
  }

  lemma {:induction false} PathFromRoots(g: Store, roots: seq<Uri>, p: seq<Uri>, i: nat)
    requires Path(g, p) && FromRoots(g, roots, p[0]) && i < |p|
    ensures FromRoots(g, roots, p[i])
    decreases i
  {
    hide Edge, FromRoots;
    if i > 0 {
      PathFromRoots(g, roots, p, i - 1);
      assert Edge(g, p[i - 1], p[i - 1 + 1]);
      FromRootsNext(g, roots, p[i - 1], p[i]);
    }
  }

  /** A path of edges of the graph from x, which an edge from the roots leads to, keeps to files that
      have been collected. */
  lemma PathCollected(g: Store, roots: seq<Uri>, found: map<Uri, seq<Uri>>, f: Uri, p: seq<Uri>, i: nat)
    requires Covers(g, roots, found) && f in found && Path(g, p) && p[0] in found[f] && i < |p| - 1
    ensures p[i] in found
  {
    hide Covers, FromRoots, Edge, Path;
    EdgesCollected(g, roots, found, f, p[0]);
    FromRootsNext(g, roots, f, p[0]);
    PathFromRoots(g, roots, p, i);
    PathEdge(g, p, i);
    EdgesCollected(g, roots, found, p[i], p[i + 1]);
  }

  /** In a view that covers the roots, the way back from an include is the one that remains. */
  lemma CyclesSeen(world: World, fs: map<Uri, string>, st: Store, roots: seq<Uri>, found: map<Uri, seq<Uri>>, f: Uri,
                   x: Uri)
    requires Tracks(world, fs, st) && Covers(Graph(world, fs), roots, found) && f in found && x in found[f]
    requires forall a :: a in found ==> Cached(st, a)
    ensures Reaches(st, x, f) <==> Reaches(Remaining(world, fs, st), x, f)
    ensures Reaches(st, x, f) ==> Reaches(Graph(world, fs), x, f)
  {
    hide Tracks, Remaining, Covers, Graph, Cached, FromRoots, Edge, Path;
    var g, h := Graph(world, fs), Remaining(world, fs, st);
    if Reaches(st, x, f) {
      var p :| Path(st, p) && p[0] == x && p[|p| - 1] == f;
      PathOver(world, fs, st, roots, found, f, p, st, h);
    }
    if Reaches(h, x, f) {
      var p :| Path(h, p) && p[0] == x && p[|p| - 1] == f;
      PathOver(world, fs, st, roots, found, f, p, h, st);
    }
  }

  lemma PathOver(world: World, fs: map<Uri, string>, st: Store, roots: seq<Uri>, found: map<Uri, seq<Uri>>, f: Uri,
                 p: seq<Uri>, one: Store, other: Store)
    requires Tracks(world, fs, st) && Covers(Graph(world, fs), roots, found) && f in found
    requires forall a :: a in found ==> Cached(st, a)
    requires (one == st && other == Remaining(world, fs, st)) || (one == Remaining(world, fs, st) && other == st)
    requires Path(one, p) && p[0] in found[f]
    ensures Path(other, p) && Path(Graph(world, fs), p)
  {
    hide Tracks, Remaining, Covers, Graph, Cached, FromRoots, Edge, Path;
    var g := Graph(world, fs);
    forall i | 0 <= i < |p| - 1 ensures Edge(g, p[i], p[i + 1]) {
      PathEdge(one, p, i);
      RemainingEdge(world, fs, st, p[i], p[i + 1]);
    }
    SamePath(one, g, p);
    forall i | 0 <= i < |p| - 1 ensures Edge(other, p[i], p[i + 1]) {
      PathCollected(g, roots, found, f, p, i);
      PathEdge(one, p, i);
      RemainingEdge(world, fs, st, p[i], p[i + 1]);
    }
    SamePath(one, other, p);
  }

  /** In a settled view nothing is missing from what remains. */
  lemma SettledRemains(world: World, fs: map<Uri, string>, st: Store, x: Uri, f: Uri)
    requires Settled(world, fs, st)
    ensures Reaches(Remaining(world, fs, st), x, f) <==> Reaches(Graph(world, fs), x, f)
  {
    hide Tracks, Remaining, Graph, Cached, Edge, Path;
    var g, h := Graph(world, fs), Remaining(world, fs, st);
    forall a, b ensures Edge(h, a, b) <==> Edge(g, a, b) {
      RemainingEdge(world, fs, st, a, b);
    }
    if Reaches(h, x, f) {
      var p :| Path(h, p) && p[0] == x && p[|p| - 1] == f;
      forall i | 0 <= i < |p| - 1 ensures Edge(g, p[i], p[i + 1]) {
        PathEdge(h, p, i);
      }
      SamePath(h, g, p);
    }
    if Reaches(g, x, f) {
      var p :| Path(g, p) && p[0] == x && p[|p| - 1] == f;
      forall i | 0 <= i < |p| - 1 ensures Edge(h, p[i], p[i + 1]) {
        PathEdge(g, p, i);
      }
      SamePath(g, h, p);
    }
  }

  lemma PathEdge(g: Store, p: seq<Uri>, i: nat)
    requires Path(g, p) && i < |p| - 1
    ensures Edge(g, p[i], p[i + 1])
  {
  }

  datatype Finding = Finding(file: Uri, target: Uri)

  class Closure {
    var found: map<Uri, seq<Uri>>

    constructor ()
      ensures found == map[]
    {
      found := map[];
    }

    /** Collects the includes of file and of what it includes. */
    method Collect(view: View, fs: map<Uri, string>, file: Uri, guard: Option<nat>, ghost open: set<Uri>)
      requires Tracks(view.world, fs, view.Snapshot()) && (guard.None? || guard.value == view.gen)
      requires Collecting(Graph(view.world, fs), found, open) && open <= found.Keys && file !in open
      requires forall f :: f in found ==> Cached(view.Snapshot(), f)
      modifies this, view
      decreases |fs.Keys - found.Keys|, if file in found then 1 else 0
      ensures Collected(view.world, fs, old(view.Snapshot()), view.Snapshot(), old(found), found, open, file)
      ensures Collecting(Graph(view.world, fs), found, open) && Known(Graph(view.world, fs), found, file)
    {
      hide Tracks, Remaining, Collecting, Collected, Known, Reaches, Wired, Parsing, ParseResult, Cached, Graph, Taken,
           Edge;
      ghost var world, g, st0 := view.world, Graph(view.world, fs), view.Snapshot();
      ParseCollects(world, fs, st0, found, open, file, guard);
      Parses(world, fs, st0, file, found);
      var r := view.Parse(fs, file, guard);
      if r.None? {
        return;
      }
      var pf := r.value;
      NoneTaken(world, g, found, file, pf.statements, open);
      for i := 0 to |pf.statements|
        invariant Collected(world, fs, st0, view.Snapshot(), old(found), found, open, file)
        invariant Collecting(g, found, open + {file}) && Cached(view.Snapshot(), file)
        invariant Taken(world, g, found, file, pf.statements, i)
      {
        if pf.statements[i].None? {
          SkipOne(world, g, found, file, pf.statements, i);
        } else {
          ghost var before := found;
          var inc := view.world.resolve(file, PathText(pf.statements[i].value));
          Statement(world, fs, file, i, inc);
          CollectOne(g, found, open + {file}, file, inc);
          AddCollects(world, fs, st0, view.Snapshot(), old(found), found, open, file, At(found, file) + [inc]);
          found := found[file := At(found, file) + [inc]];
          ghost var st1, added := view.Snapshot(), found;
          if inc in found {
            InIsKnown(g, found, inc);
          } else {
            Started(world, fs, st1, found, open, file, inc, st0, old(found));
            LeftShrinks(fs.Keys, old(found).Keys, found.Keys, file);
            Collect(view, fs, inc, guard, open + {file});
            CollectsOn(world, fs, st0, st1, view.Snapshot(), old(found), added, found, open, file, inc);
            StaysCached(world, fs, st1, view.Snapshot(), added, found, open + {file}, inc, file);
          }
          TakeOne(world, g, before, found, file, pf.statements, i);
        }
      }
      AllTaken(world, fs, found, open, file);
    }
  }

  /** Reports the include edges, among those the roots lead to, that close a cycle of what remains of the
      graph after evictions: an edge on a cycle is missed exactly when every way back takes an edge
      that an eviction has dropped. */
  method Analyze(view: View, fs: map<Uri, string>, roots: seq<Uri>, guard: Option<nat>) returns (findings: seq<Finding>)
    requires Tracks(view.world, fs, view.Snapshot()) && (guard.None? || guard.value == view.gen)
    modifies view
    ensures Tracks(view.world, fs, view.Snapshot())
    ensures var g := Graph(view.world, fs);
            var h := Remaining(view.world, fs, old(view.Snapshot()));
            forall f, x :: Finding(f, x) in findings <==> FromRoots(g, roots, f) && Edge(g, f, x) && Reaches(h, x, f)
    ensures var g := Graph(view.world, fs);
            forall f, x :: Finding(f, x) in findings ==> Reaches(g, x, f)
    ensures var g := Graph(view.world, fs);
            Settled(view.world, fs, old(view.Snapshot())) ==>
              forall f, x :: Finding(f, x) in findings <==> FromRoots(g, roots, f) && Edge(g, f, x) && Reaches(g, x, f)
  {
    hide Tracks, Remaining, Covers, Collected, Collecting, Known, Graph, Cached, FromRoots, Edge, Path, Reaches, Wired;
    ghost var world, g, st0 := view.world, Graph(view.world, fs), view.Snapshot();
    var closure := new Closure();
    StartCovers(g, roots);
    for i := 0 to |roots|
      invariant fresh(closure) && Covers(g, roots[..i], closure.found) && view.gen == st0.gen
      invariant Tracks(world, fs, view.Snapshot()) && Remaining(world, fs, view.Snapshot()) == Remaining(world, fs, st0)
      invariant forall f :: f in closure.found ==> Cached(view.Snapshot(), f)
    {
      ghost var st, found := view.Snapshot(), closure.found;
      CoversCollecting(g, roots[..i], found);
      closure.Collect(view, fs, roots[i], guard, {});
      CollectedMore(world, fs, st, view.Snapshot(), found, closure.found, roots, i);
    }
    assert roots[..|roots|] == roots;
    findings := [];
    var found, rest := closure.found, closure.found.Keys;
    ghost var st := view.Snapshot();
    TracksWired(world, fs, st);
    while rest != {}
      invariant rest <= found.Keys && view.Snapshot() == st
      invariant forall f, x :: Finding(f, x) in findings <==>
                  f in found.Keys - rest && x in found[f] && Reaches(st, x, f)
      decreases |rest|
    {
      var file := AnyOf(rest);
      rest := rest - {file};
      var deps := view.Dependents(file);
      ghost var before := findings;
      for k := 0 to |found[file]|
        invariant forall f, x :: Finding(f, x) in findings <==>
                                   Finding(f, x) in before
                                   || (f == file && x in found[file][..k] && Reaches(st, x, file))
      {
        var inc := found[file][k];
        assert found[file][..k + 1] == found[file][..k] + [inc];
        if inc in deps {
          findings := findings + [Finding(file, inc)];
        }
      }
      assert found[file][..|found[file]|] == found[file];
    }
    ghost var h := Remaining(world, fs, st0);
    forall f, x
      ensures Finding(f, x) in findings <==> FromRoots(g, roots, f) && Edge(g, f, x) && Reaches(h, x, f)
      ensures Finding(f, x) in findings ==> Reaches(g, x, f)
      ensures Settled(world, fs, st0) ==> (Reaches(h, x, f) <==> Reaches(g, x, f))
    {
      EdgesCollected(g, roots, found, f, x);
      if f in found && x in found[f] {
        CyclesSeen(world, fs, st, roots, found, f, x);
      }
      if Settled(world, fs, st0) {
        SettledRemains(world, fs, st0, x, f);
      }
    }
  }

  lemma TracksWired(world: World, fs: map<Uri, string>, st: Store)
    requires Tracks(world, fs, st)
    ensures Wired(st)
  {
  }

  lemma StartCovers(g: Store, roots: seq<Uri>)
    ensures Covers(g, roots[..0], map[])
  {
  }

  lemma CoversCollecting(g: Store, roots: seq<Uri>, found: map<Uri, seq<Uri>>)
    requires Covers(g, roots, found)
    ensures Collecting(g, found, {})
  {
  }

  lemma CollectedMore(world: World, fs: map<Uri, string>, st0: Store, st: Store, found0: map<Uri, seq<Uri>>,
                      found: map<Uri, seq<Uri>>, roots: seq<Uri>, i: nat)
    requires i < |roots| && Covers(Graph(world, fs), roots[..i], found0)
    requires Collected(world, fs, st0, st, found0, found, {}, roots[i])
    requires Collecting(Graph(world, fs), found, {}) && Known(Graph(world, fs), found, roots[i])
    ensures Covers(Graph(world, fs), roots[..i + 1], found) && Tracks(world, fs, st) && st.gen == st0.gen
    ensures Remaining(world, fs, st) == Remaining(world, fs, st0)
    ensures forall f :: f in found ==> Cached(st, f)
  {
    hide Tracks, Remaining, Graph, Cached, Reaches, Collecting, Known;
    var g := Graph(world, fs);
    KnownStays(g, found0, found);
    forall f | f in found ensures FromRoots(g, roots[..i + 1], f) {
      if f in found0 {
        var r :| r in roots[..i] && (r == f || Reaches(g, r, f));
        assert r in roots[..i + 1];
      } else {
        assert roots[i] in roots[..i + 1];
      }
    }
  }

  // ----- eviction hides cycles -----

  /** After an eviction of the only file that a includes, nothing remains of a's edges. */
  lemma EdgesEvicted(world: World, fs: map<Uri, string>, st: Store, a: Uri, b: Uri)
    requires Tracks(world, fs, st) && Cached(st, a) && a != b
    requires forall x :: Includes(world, a, ParseOf(world, fs[a]), x) <==> x == b
    ensures var r := Evicted(st, SortCompact([b]));
            Tracks(world, fs, r) && !Reaches(Remaining(world, fs, r), a, b)
  {
    hide Wired, Evicted, SortCompact, Graph, ParseOf, Remaining, WithoutAll, IncludesOf;
    var us := SortCompact([b]);
    EvictKeeps(st, us);
    assert us[..|us|] == us;
    var r := Evicted(st, us);
    var h := Remaining(world, fs, r);
    assert Tracks(world, fs, r);
    forall x ensures !Edge(h, a, x) {
      RemainingEdge(world, fs, r, a, x);
      GraphEdge(world, fs, a, x);
    }
    forall p | Path(h, p) ensures p[0] != a {
      assert Edge(h, p[0], p[1]);
    }
  }

  /** Two files include each other, and the first is parsed. When the second is evicted and then
      checked, its include, which is on a cycle, is not reported. */
  method EvictionHidesCycle(view: View, fs: map<Uri, string>, a: Uri, b: Uri) returns (findings: seq<Finding>)
    requires Tracks(view.world, fs, view.Snapshot()) && Cached(view.Snapshot(), a) && a != b && b in fs
    requires forall x :: Includes(view.world, a, ParseOf(view.world, fs[a]), x) <==> x == b
    requires forall x :: Includes(view.world, b, ParseOf(view.world, fs[b]), x) <==> x == a
    modifies view
    ensures var g := Graph(view.world, fs);
            Edge(g, b, a) && Reaches(g, a, b) && Finding(b, a) !in findings
  {
    hide Wired, Evicted, SortCompact, Graph, ParseOf, Remaining, Reaches, IncludesOf;
    ghost var g := Graph(view.world, fs);
    GraphEdge(view.world, fs, a, b);
    GraphEdge(view.world, fs, b, a);
    EdgeReaches(g, a, b);
    EdgesEvicted(view.world, fs, view.Snapshot(), a, b);
    view.Evict([b]);
    findings := Analyze(view, fs, [b], None);
  }

  // ----- every run of a view -----

  /** In every run of a view, whenever no update is pending, the store holds the parses of the current
      contents and edges of their graph only; and it has all the edges of its cached files if and only
      if none of their includes was evicted since they were parsed. */
  lemma RunTracks(world: World, fs: map<Uri, string>, events: seq<ViewRuns.Event>)
    ensures var st := ViewRuns.Run(world, fs, events);
            st.pending == {} ==>
              && Tracks(world, st.fs, st.store)
              && (Settled(world, st.fs, st.store) <==>
                  forall a, b :: Cached(st.store, a) && Includes(world, a, st.store.entries[a].value, b) ==>
                    b !in ViewRuns.EvictedSince(st, a))
  {
    hide Wired, ParseOf, IncludesOf, Graph, Edge, Includes, ViewRuns.Run, ViewRuns.EvictedSince;
    ViewRuns.CachedIsCurrent(world, fs, events);
    var st := ViewRuns.Run(world, fs, events);
    if st.pending == {} {
      forall a ensures Cached(st.store, a) ==> a in st.fs && st.store.entries[a] == Some(ParseOf(world, st.fs[a])) {
        assert ViewRuns.FreshAt(world, st, a);
      }
      forall a, b
        ensures Edge(st.store, a, b) <==> Cached(st.store, a) && Edge(Graph(world, st.fs), a, b)
                                          && b !in ViewRuns.EvictedSince(st, a)
        ensures Cached(st.store, a) ==> (Edge(Graph(world, st.fs), a, b) <==>
                                         Includes(world, a, st.store.entries[a].value, b))
      {
        assert ViewRuns.EdgesAt(world, st, a);
        GraphEdge(world, st.fs, a, b);
        NoEdges(st.store, a, b);
      }
    }
  }

  lemma NoEdges(st: Store, a: Uri, b: Uri)
    ensures At(st.includes, a) == [] ==> !Edge(st, a, b)
  {
  }
}
