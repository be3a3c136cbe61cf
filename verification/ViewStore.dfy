/** The state of a view: its parse cache and its two-way include graph (store/view.go). */
module ViewStore {
  import opened Wrappers

  /** A file's URI; only equality and order matter here. */
  type Uri = int

  /** A parse: the content it was made from and the path literals of its include statements. */
  datatype Parsed = Parsed(content: string, statements: seq<Option<string>>)

  /** The parser, as the include statements of a content, and the include resolver. */
  datatype World = World(statements: string -> seq<Option<string>>, resolve: (Uri, string) -> Uri)

  function ParseOf(world: World, content: string): Parsed {
    Parsed(content, world.statements(content))
  }

  // ----- sorted lists -----

  ghost predicate Ascending(s: seq<Uri>) {
    forall i, j :: 0 <= i < j < |s| ==> s[i] <= s[j]
  }

  ghost predicate StrictlyAscending(s: seq<Uri>) {
    forall i, j :: 0 <= i < j < |s| ==> s[i] < s[j]
  }

  ghost predicate NoDuplicates(s: seq<Uri>) {
    forall i, j :: 0 <= i < j < |s| ==> s[i] != s[j]
  }

  ghost predicate SameElements(a: seq<Uri>, b: seq<Uri>) {
    forall x :: x in a <==> x in b
  }

  lemma Prepended(x: Uri, s: seq<Uri>)
    ensures Ascending(s) && (forall y :: y in s ==> x <= y) ==> Ascending([x] + s)
    ensures StrictlyAscending(s) && (forall y :: y in s ==> x < y) ==> StrictlyAscending([x] + s)
    ensures forall y :: y in [x] + s <==> y == x || y in s
  {
    var r := [x] + s;
    forall i, j | 0 <= i < j < |r|
      ensures Ascending(s) && (forall y :: y in s ==> x <= y) ==> r[i] <= r[j]
      ensures StrictlyAscending(s) && (forall y :: y in s ==> x < y) ==> r[i] < r[j]
    {
      assert r[j] == s[j - 1] && s[j - 1] in s;
    }
  }

  lemma Rest(s: seq<Uri>)
    requires s != []
    ensures s == [s[0]] + s[1..] && forall y :: y in s <==> y == s[0] || y in s[1..]
    ensures Ascending(s) ==> Ascending(s[1..]) && forall y :: y in s ==> s[0] <= y
    ensures StrictlyAscending(s) ==> StrictlyAscending(s[1..]) && forall y :: y in s[1..] ==> s[0] < y
    ensures NoDuplicates(s) ==> NoDuplicates(s[1..]) && s[0] !in s[1..]
  {
  }

  function Insert(x: Uri, s: seq<Uri>): (r: seq<Uri>)
    requires Ascending(s)
    ensures Ascending(r) && |r| == |s| + 1 && forall y :: y in r <==> y == x || y in s
  {
    hide Ascending, StrictlyAscending, NoDuplicates;
    if s == [] then
      NothingAscends();
      Prepended(x, s);
      [x] + s
    else
      Rest(s);
      Prepended(x, s);
      if x <= s[0] then [x] + s
      else
        var r := Insert(x, s[1..]);
        Prepended(s[0], r);
        [s[0]] + r
  }

  function Sort(s: seq<Uri>): (r: seq<Uri>)
    ensures Ascending(r) && |r| == |s| && SameElements(r, s)
  {
    if s == [] then []
    else
      Rest(s);
      Insert(s[0], Sort(s[1..]))
  }

  /** Drops an element equal to the one before it. */
  function Compact(s: seq<Uri>): (r: seq<Uri>)
    requires Ascending(s)
    ensures StrictlyAscending(r) && SameElements(r, s)
    ensures s != [] ==> r != [] && r[0] == s[0]
  {
    if |s| <= 1 then s
    else
      Rest(s);
      var r := Compact(s[1..]);
      Prepended(s[0], r);
      assert forall y :: y in r ==> y in s[1..];
      if s[0] == s[1] then r else [s[0]] + r
  }

  function SortCompact(s: seq<Uri>): (r: seq<Uri>)
    ensures StrictlyAscending(r) && SameElements(r, s)
  {
    Compact(Sort(s))
  }

  lemma InsertedOnce(x: Uri, s: seq<Uri>)
    requires StrictlyAscending(s) && x !in s
    ensures Ascending(s) && StrictlyAscending(Insert(x, s))
  {
    hide Ascending, NoDuplicates;
    StrictlyAscends(s);
    if s == [] {
      Prepended(x, s);
      assert [x] + s == [x];
    } else {
      Rest(s);
      Prepended(x, s);
      if x > s[0] {
        InsertedOnce(x, s[1..]);
        Prepended(s[0], Insert(x, s[1..]));
      }
    }
  }

  lemma StrictlyAscends(s: seq<Uri>)
    requires StrictlyAscending(s)
    ensures Ascending(s)
  {
  }

  /** Without duplicates sorting is strict. */
  lemma {:induction false} SortedOnce(s: seq<Uri>)
    requires NoDuplicates(s)
    ensures StrictlyAscending(Sort(s))
    decreases |s|
  {
    if s != [] {
      Rest(s);
      SortedOnce(s[1..]);
      InsertedOnce(s[0], Sort(s[1..]));
    }
  }

  lemma SharedElement(a: seq<Uri>, b: seq<Uri>)
    requires SameElements(a, b)
    ensures a != [] ==> b != []
  {
    if a != [] {
      var x := a[0];
      assert x in a;
      assert x in b;
    }
  }

  /** A strictly ascending list is determined by its elements. */
  lemma {:induction false} SameAscending(a: seq<Uri>, b: seq<Uri>)
    requires StrictlyAscending(a) && StrictlyAscending(b) && SameElements(a, b)
    ensures a == b
    decreases |a|
  {
    if a == [] || b == [] {
      SharedElement(a, b);
      SharedElement(b, a);
    } else {
      Rest(a);
      Rest(b);
      assert a[0] in b && b[0] in a;
      assert a[0] == b[0];
      SameAscending(a[1..], b[1..]);
    }
  }

  // ----- include targets -----

  function TrimLeft(s: string): string {
    if s != "" && (s[0] == '"' || s[0] == '\'') then TrimLeft(s[1..]) else s
  }

  function TrimRight(s: string): string {
    if s != "" && (s[|s| - 1] == '"' || s[|s| - 1] == '\'') then TrimRight(s[..|s| - 1]) else s
  }

  /** The path literal without its quotes. */
  function PathText(literal: string): string {
    TrimRight(TrimLeft(literal))
  }

  predicate Quote(c: char) {
    c == '"' || c == '\''
  }

  ghost predicate AllQuotes(s: string) {
    forall i :: 0 <= i < |s| ==> Quote(s[i])
  }

  lemma {:induction false} LeftTrimmed(s: string) returns (front: string)
    ensures s == front + TrimLeft(s) && AllQuotes(front) && (TrimLeft(s) != "" ==> !Quote(TrimLeft(s)[0]))
    decreases |s|
  {
    if s != "" && Quote(s[0]) {
      front := LeftTrimmed(s[1..]);
      assert s == [s[0]] + s[1..];
      front := [s[0]] + front;
    } else {
      front := "";
    }
  }

  lemma {:induction false} RightTrimmed(s: string) returns (back: string)
    ensures s == TrimRight(s) + back && AllQuotes(back)
    ensures TrimRight(s) != "" ==> TrimRight(s)[0] == s[0] && !Quote(TrimRight(s)[|TrimRight(s)| - 1])
    decreases |s|
  {
    if s != "" && Quote(s[|s| - 1]) {
      back := RightTrimmed(s[..|s| - 1]);
      assert s == s[..|s| - 1] + [s[|s| - 1]];
      back := back + [s[|s| - 1]];
    } else {
      back := "";
      assert s + "" == s;
    }
  }

  /** The path is the literal without the quotes around it: with quotes it is the literal, and no quote is left at
      either end. */
  lemma PathHasNoQuotes(literal: string) returns (front: string, back: string)
    ensures var path := PathText(literal);
            && literal == front + path + back && AllQuotes(front) && AllQuotes(back)
            && (path != "" ==> !Quote(path[0]) && !Quote(path[|path| - 1]))
  {
    hide TrimLeft, TrimRight;
    front := LeftTrimmed(literal);
    back := RightTrimmed(TrimLeft(literal));
    assert front + (PathText(literal) + back) == front + PathText(literal) + back;
  }

  /** x is the target of an include statement of file. */
  ghost predicate Includes(world: World, file: Uri, pf: Parsed, x: Uri) {
    exists i :: 0 <= i < |pf.statements| && Targets(world, file, pf.statements[i], x)
  }

  predicate Targets(world: World, file: Uri, statement: Option<string>, x: Uri) {
    statement.Some? && world.resolve(file, PathText(statement.value)) == x
  }

  function AllTargets(world: World, file: Uri, statements: seq<Option<string>>): (r: seq<Uri>)
    ensures forall x :: x in r <==> exists i :: 0 <= i < |statements| && Targets(world, file, statements[i], x)
  {
    if statements == [] then []
    else
      var first, rest := statements[0], AllTargets(world, file, statements[1..]);
      assert statements == [first] + statements[1..];
      if first.None? then rest else [world.resolve(file, PathText(first.value))] + rest
  }

  /** The include edges of a parse: each target once, ascending. */
  function IncludesOf(world: World, file: Uri, pf: Parsed): (r: seq<Uri>)
    ensures StrictlyAscending(r) && forall x :: x in r <==> Includes(world, file, pf, x)
  {
    SortCompact(AllTargets(world, file, pf.statements))
  }

  // ----- the state -----

  /** An entry without a parse is a file that is tracked but not parsed. */
  datatype Store = Store(
    entries: map<Uri, Option<Parsed>>,
    includes: map<Uri, seq<Uri>>,
    includers: map<Uri, seq<Uri>>,
    gen: nat)

  function Empty(): Store {
    Store(map[], map[], map[], 0)
  }

  function At(m: map<Uri, seq<Uri>>, u: Uri): seq<Uri> {
    if u in m then m[u] else []
  }

  predicate Cached(st: Store, u: Uri) {
    u in st.entries && st.entries[u].Some?
  }

  /** File a includes file b. */
  predicate Edge(st: Store, a: Uri, b: Uri) {
    b in At(st.includes, a)
  }

  ghost predicate NoEmptyList(m: map<Uri, seq<Uri>>) {
    forall u :: u in m ==> m[u] != []
  }

  ghost predicate Inverse(includes: map<Uri, seq<Uri>>, includers: map<Uri, seq<Uri>>) {
    forall a, b :: b in At(includes, a) <==> a in At(includers, b)
  }

  /** The two edge maps are duplicate-free inverses of each other, and the includes are sorted. */
  ghost predicate Wired(st: Store) {
    && NoEmptyList(st.includes) && NoEmptyList(st.includers)
    && (forall u :: StrictlyAscending(At(st.includes, u)))
    && (forall u :: NoDuplicates(At(st.includers, u)))
    && Inverse(st.includes, st.includers)
  }

  // ----- removing edges -----

  function IndexOf(s: seq<Uri>, x: Uri): (r: nat)
    requires x in s
    ensures r < |s| && s[r] == x && forall k :: 0 <= k < r ==> s[k] != x
  {
    if s[0] == x then 0 else 1 + IndexOf(s[1..], x)
  }

  /** The first x is overwritten by the last element, which goes. */
  function SwapRemove(s: seq<Uri>, x: Uri): seq<Uri> {
    if x in s then s[IndexOf(s, x) := s[|s| - 1]][..|s| - 1] else s
  }

  lemma SwapRemoved(s: seq<Uri>, x: Uri)
    requires NoDuplicates(s)
    ensures NoDuplicates(SwapRemove(s, x)) && forall y :: y in SwapRemove(s, x) <==> y in s && y != x
  {
    if x in s {
      var i, n, r := IndexOf(s, x), |s| - 1, SwapRemove(s, x);
      forall y ensures y in r <==> y in s && y != x {
        if y in s && y != x {
          var k :| 0 <= k < |s| && s[k] == y;
          assert r[if k == n then i else k] == y;
        }
      }
    }
  }

  /** Sets a list, or drops it when it is empty. */
  function Put(m: map<Uri, seq<Uri>>, u: Uri, s: seq<Uri>): map<Uri, seq<Uri>> {
    if s == [] then m - {u} else m[u := s]
  }

  lemma PutAt(m: map<Uri, seq<Uri>>, u: Uri, s: seq<Uri>)
    ensures forall f :: At(Put(m, u, s), f) == if f == u then s else At(m, f)
    ensures NoEmptyList(m) ==> NoEmptyList(Put(m, u, s))
  {
  }

  /** u no longer includes its first k includes. */
  function DropReverses(includers: map<Uri, seq<Uri>>, includes: seq<Uri>, k: nat, u: Uri): map<Uri, seq<Uri>>
    requires k <= |includes|
  {
    if k == 0 then includers
    else
      var m := DropReverses(includers, includes, k - 1, u);
      Put(m, includes[k - 1], SwapRemove(At(m, includes[k - 1]), u))
  }

  function RemoveEdges(st: Store, u: Uri): Store {
    var out := At(st.includes, u);
    st.(includers := DropReverses(st.includers, out, |out|, u), includes := st.includes - {u})
  }

  lemma {:induction false} ReversesDropped(includers: map<Uri, seq<Uri>>, includes: seq<Uri>, k: nat, u: Uri)
    requires k <= |includes| && NoEmptyList(includers) && forall f :: NoDuplicates(At(includers, f))
    ensures var m := DropReverses(includers, includes, k, u);
            && NoEmptyList(m) && (forall f :: NoDuplicates(At(m, f)))
            && forall f, x :: x in At(m, f) <==> x in At(includers, f) && !(x == u && f in includes[..k])
    decreases k
  {
    hide At, Put, SwapRemove, NoDuplicates, NoEmptyList;
    if k > 0 {
      var m := DropReverses(includers, includes, k - 1, u);
      var f := includes[k - 1];
      ReversesDropped(includers, includes, k - 1, u);
      SwapRemoved(At(m, f), u);
      PutAt(m, f, SwapRemove(At(m, f), u));
      assert includes[..k] == includes[..k - 1] + [f];
    }
  }

  lemma RemovedAt(m: map<Uri, seq<Uri>>, u: Uri)
    ensures forall f :: At(m - {u}, f) == if f == u then [] else At(m, f)
    ensures NoEmptyList(m) ==> NoEmptyList(m - {u})
  {
  }

  lemma EdgesRemoved(st: Store, u: Uri)
    requires Wired(st)
    ensures var r := RemoveEdges(st, u);
            && Wired(r) && r.entries == st.entries && r.gen == st.gen && At(r.includes, u) == []
            && (forall a :: a != u ==> At(r.includes, a) == At(st.includes, a))
            && forall f :: u !in At(r.includers, f)
  {
    hide At, NoDuplicates, NoEmptyList, StrictlyAscending, DropReverses;
    var out := At(st.includes, u);
    ReversesDropped(st.includers, out, |out|, u);
    assert out[..|out|] == out;
    RemovedAt(st.includes, u);
    NothingAscends();
  }

  lemma NothingAscends()
    ensures StrictlyAscending([]) && NoDuplicates([])
  {
  }

  // ----- adding edges -----

  function AddEdges(st: Store, u: Uri, includes: seq<Uri>, k: nat): Store
    requires k <= |includes|
  {
    if k == 0 then st
    else
      var r := AddEdges(st, u, includes, k - 1);
      var f := includes[k - 1];
      r.(includes := Append(r.includes, u, f), includers := Append(r.includers, f, u))
  }

  lemma {:induction false} EdgesAdded(st: Store, u: Uri, includes: seq<Uri>, k: nat)
    requires k <= |includes| && Wired(st) && StrictlyAscending(includes) && At(st.includes, u) == []
    ensures var r := AddEdges(st, u, includes, k);
            && Wired(r) && r.entries == st.entries && r.gen == st.gen && At(r.includes, u) == includes[..k]
            && forall a :: a != u ==> At(r.includes, a) == At(st.includes, a)
    decreases k
  {
    hide Wired, StrictlyAscending, At;
    if k > 0 {
      EdgesAdded(st, u, includes, k - 1);
      var r, f := AddEdges(st, u, includes, k - 1), includes[k - 1];
      assert includes[..k] == includes[..k - 1] + [f];
      NextAscends(includes, k);
      AppendAt(r.includes, u, f);
      EdgeAdded(r, u, f);
    }
  }

  lemma NextAscends(includes: seq<Uri>, k: nat)
    requires 0 < k <= |includes| && StrictlyAscending(includes)
    ensures StrictlyAscending(includes[..k - 1] + [includes[k - 1]]) && includes[k - 1] !in includes[..k - 1]
  {
  }

  function Append(m: map<Uri, seq<Uri>>, u: Uri, x: Uri): map<Uri, seq<Uri>> {
    m[u := At(m, u) + [x]]
  }

  lemma AppendAt(m: map<Uri, seq<Uri>>, u: Uri, x: Uri)
    ensures forall f :: At(Append(m, u, x), f) == if f == u then At(m, u) + [x] else At(m, f)
    ensures NoEmptyList(m) ==> NoEmptyList(Append(m, u, x))
  {
  }

  lemma EdgeAdded(r: Store, u: Uri, f: Uri)
    requires Wired(r) && StrictlyAscending(At(r.includes, u) + [f]) && f !in At(r.includes, u)
    ensures Wired(r.(includes := Append(r.includes, u, f), includers := Append(r.includers, f, u)))
  {
    hide At, NoEmptyList, StrictlyAscending, NoDuplicates, Append;
    AppendAt(r.includes, u, f);
    AppendAt(r.includers, f, u);
    AppendNew(At(r.includers, f), u);
  }

  lemma AppendNew(s: seq<Uri>, x: Uri)
    requires NoDuplicates(s) && x !in s
    ensures NoDuplicates(s + [x])
  {
  }

  // ----- the locked sections -----

  /** The parse of u becomes its entry, with its edges. */
  function Commit(st: Store, u: Uri, pf: Parsed, includes: seq<Uri>): Store {
    var r := RemoveEdges(st, u);
    AddEdges(r.(entries := r.entries[u := Some(pf)]), u, includes, |includes|)
  }

  /** The commit of a parse that started at generation g, as work for generation guard if any. */
  function CommitIfCurrent(st: Store, u: Uri, guard: Option<nat>, g: nat, pf: Parsed, includes: seq<Uri>): Store {
    if (guard.None? || guard.value == g) && st.gen == g then Commit(st, u, pf, includes) else st
  }

  lemma Committed(st: Store, u: Uri, pf: Parsed, includes: seq<Uri>)
    requires Wired(st) && StrictlyAscending(includes)
    ensures var r := Commit(st, u, pf, includes);
            && Wired(r) && r.entries == st.entries[u := Some(pf)] && r.gen == st.gen && At(r.includes, u) == includes
            && forall a :: a != u ==> At(r.includes, a) == At(st.includes, a)
  {
    hide RemoveEdges, AddEdges, StrictlyAscending, NoDuplicates;
    EdgesRemoved(st, u);
    var r := RemoveEdges(st, u);
    EdgesAdded(r.(entries := r.entries[u := Some(pf)]), u, includes, |includes|);
    assert includes[..|includes|] == includes;
  }

  /** The first k files lose their parse and their edges. */
  function Invalidate(st: Store, files: seq<Uri>, k: nat): Store
    requires k <= |files|
  {
    if k == 0 then st
    else
      var r := RemoveEdges(Invalidate(st, files, k - 1), files[k - 1]);
      r.(entries := r.entries[files[k - 1] := None])
  }

  /** The locked section of Update. */
  function Updated(st: Store, files: seq<Uri>): Store {
    var r := Invalidate(st, files, |files|);
    r.(gen := st.gen + 1)
  }

  lemma {:induction false} Invalidated(st: Store, files: seq<Uri>, k: nat)
    requires k <= |files| && Wired(st)
    ensures var r := Invalidate(st, files, k);
            && Wired(r) && r.gen == st.gen
            && r.entries.Keys == st.entries.Keys + (set f | f in files[..k])
            && (forall f :: f in r.entries ==> r.entries[f] == if f in files[..k] then None else st.entries[f])
            && forall f :: At(r.includes, f) == if f in files[..k] then [] else At(st.includes, f)
    decreases k
  {
    hide RemoveEdges, Wired, At;
    if k > 0 {
      Invalidated(st, files, k - 1);
      EdgesRemoved(Invalidate(st, files, k - 1), files[k - 1]);
      assert files[..k] == files[..k - 1] + [files[k - 1]];
      EntriesAside(RemoveEdges(Invalidate(st, files, k - 1), files[k - 1]), Invalidate(st, files, k));
    }
  }

  lemma EntriesAside(a: Store, b: Store)
    requires Wired(a) && a.includes == b.includes && a.includers == b.includers
    ensures Wired(b)
  {
  }

  /** An update forgets the parses and the edges of its files and nothing else. */
  lemma UpdateKeeps(st: Store, files: seq<Uri>)
    requires Wired(st)
    ensures var r := Updated(st, files);
            && Wired(r) && r.gen == st.gen + 1
            && r.entries.Keys == st.entries.Keys + (set f | f in files)
            && (forall f :: f in r.entries ==> r.entries[f] == if f in files then None else st.entries[f])
            && forall f :: At(r.includes, f) == if f in files then [] else At(st.includes, f)
  {
    hide Wired;
    Invalidated(st, files, |files|);
    assert files[..|files|] == files;
    EntriesAside(Invalidate(st, files, |files|), Updated(st, files));
  }

  // ----- eviction -----

  function Without(s: seq<Uri>, x: Uri): (r: seq<Uri>)
    ensures forall y :: y in r <==> y in s && y != x
  {
    if s == [] then []
    else if s[0] == x then Without(s[1..], x)
    else [s[0]] + Without(s[1..], x)
  }

  lemma {:induction false} WithoutAscending(s: seq<Uri>, x: Uri)
    requires StrictlyAscending(s)
    ensures StrictlyAscending(Without(s, x))
    decreases |s|
  {
    if s != [] {
      Rest(s);
      WithoutAscending(s[1..], x);
      Prepended(s[0], Without(s[1..], x));
    }
  }

  lemma {:induction false} WithoutAbsent(s: seq<Uri>, x: Uri)
    requires x !in s
    ensures Without(s, x) == s
    decreases |s|
  {
    if s != [] {
      WithoutAbsent(s[1..], x);
      assert s == [s[0]] + s[1..];
    }
  }

  /** The first k files of who no longer include file. */
  function DropTarget(includes: map<Uri, seq<Uri>>, who: seq<Uri>, k: nat, file: Uri): map<Uri, seq<Uri>>
    requires k <= |who|
  {
    if k == 0 then includes
    else
      var m := DropTarget(includes, who, k - 1, file);
      Put(m, who[k - 1], Without(At(m, who[k - 1]), file))
  }

  function EvictOne(st: Store, file: Uri): Store {
    var r := RemoveEdges(st, file);
    var who := At(r.includers, file);
    Store(r.entries - {file}, DropTarget(r.includes, who, |who|, file), r.includers - {file}, r.gen)
  }

  function EvictEach(st: Store, files: seq<Uri>, k: nat): Store
    requires k <= |files|
  {
    if k == 0 then st else EvictOne(EvictEach(st, files, k - 1), files[k - 1])
  }

  /** The locked section of Evict. */
  function Evicted(st: Store, files: seq<Uri>): Store {
    var r := EvictEach(st, files, |files|);
    r.(gen := st.gen + 1)
  }

  lemma {:induction false} TargetDropped(includes: map<Uri, seq<Uri>>, who: seq<Uri>, k: nat, file: Uri)
    requires k <= |who| && NoDuplicates(who) && NoEmptyList(includes)
    ensures var m := DropTarget(includes, who, k, file);
            && NoEmptyList(m)
            && forall f :: At(m, f) == if f in who[..k] then Without(At(includes, f), file) else At(includes, f)
    decreases k
  {
    if k > 0 {
      TargetDropped(includes, who, k - 1, file);
      assert who[..k] == who[..k - 1] + [who[k - 1]];
    }
  }

  lemma EvictedLists(st: Store, file: Uri)
    requires Wired(st)
    ensures var r := EvictOne(st, file);
            && NoEmptyList(r.includes) && NoEmptyList(r.includers)
            && (forall f :: At(r.includes, f) == if f == file then [] else Without(At(st.includes, f), file))
            && (forall f :: At(r.includers, f) == if f == file then [] else At(RemoveEdges(st, file).includers, f))
            && r.entries == st.entries - {file} && r.gen == st.gen
  {
    hide RemoveEdges, StrictlyAscending, NoDuplicates, DropTarget, At, NoEmptyList;
    var m := RemoveEdges(st, file);
    var who := At(m.includers, file);
    EdgesRemoved(st, file);
    TargetDropped(m.includes, who, |who|, file);
    assert who[..|who|] == who;
    RemovedAt(m.includers, file);
    forall f ensures At(EvictOne(st, file).includes, f) == if f == file then [] else Without(At(st.includes, f), file) {
      if f !in who {
        IncludersDrop(m, file, f);
      }
    }
  }

  lemma OneEvicted(st: Store, file: Uri)
    requires Wired(st)
    ensures var r := EvictOne(st, file);
            && Wired(r) && r.entries == st.entries - {file} && r.gen == st.gen
            && forall f :: At(r.includes, f) == if f == file then [] else Without(At(st.includes, f), file)
  {
    hide RemoveEdges, StrictlyAscending, NoDuplicates, EvictOne, At, NoEmptyList, Inverse, Without;
    EdgesRemoved(st, file);
    EvictedLists(st, file);
    NothingAscends();
    forall f ensures StrictlyAscending(At(EvictOne(st, file).includes, f)) {
      WithoutAscending(At(st.includes, f), file);
    }
    EvictedInverse(st, file);
  }

  lemma EvictedInverse(st: Store, file: Uri)
    requires Wired(st)
    ensures Inverse(EvictOne(st, file).includes, EvictOne(st, file).includers)
  {
    hide RemoveEdges, StrictlyAscending, NoDuplicates, EvictOne, At, NoEmptyList, Without;
    EdgesRemoved(st, file);
    EvictedLists(st, file);
    var m, r := RemoveEdges(st, file), EvictOne(st, file);
    forall a, b ensures b in At(r.includes, a) <==> a in At(r.includers, b) {
      assert b in At(m.includes, a) <==> a in At(m.includers, b);
    }
  }

  /** Only the includers of file lose it. */
  lemma IncludersDrop(m: Store, file: Uri, f: Uri)
    requires Wired(m) && f !in At(m.includers, file)
    ensures Without(At(m.includes, f), file) == At(m.includes, f)
  {
    WithoutAbsent(At(m.includes, f), file);
  }

  function WithoutAll(s: seq<Uri>, files: seq<Uri>, k: nat): (r: seq<Uri>)
    requires k <= |files|
    ensures forall y :: y in r <==> y in s && y !in files[..k]
  {
    if k == 0 then s
    else
      assert files[..k] == files[..k - 1] + [files[k - 1]];
      Without(WithoutAll(s, files, k - 1), files[k - 1])
  }

  lemma {:induction false} EachEvicted(st: Store, files: seq<Uri>, k: nat)
    requires k <= |files| && Wired(st)
    ensures var r := EvictEach(st, files, k);
            && Wired(r) && r.entries == st.entries - (set f | f in files[..k]) && r.gen == st.gen
            && forall f :: At(r.includes, f) == if f in files[..k] then [] else WithoutAll(At(st.includes, f), files, k)
    decreases k
  {
    hide Wired, EvictOne;
    if k > 0 {
      EachEvicted(st, files, k - 1);
      OneEvicted(EvictEach(st, files, k - 1), files[k - 1]);
      assert files[..k] == files[..k - 1] + [files[k - 1]];
    }
  }

  /** An eviction forgets its files, their edges and the edges to them, and nothing else. */
  lemma EvictKeeps(st: Store, files: seq<Uri>)
    requires Wired(st)
    ensures var r := Evicted(st, files);
            && Wired(r) && r.gen == st.gen + 1 && r.entries == st.entries - (set f | f in files)
            && forall f :: At(r.includes, f) ==
                 if f in files then [] else WithoutAll(At(st.includes, f), files, |files|)
  {
    hide Wired;
    EachEvicted(st, files, |files|);
    assert files[..|files|] == files;
    EntriesAside(EvictEach(st, files, |files|), Evicted(st, files));
  }

  lemma EmptyIsWired()
    ensures Wired(Empty())
  {
  }
}
