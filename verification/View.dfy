/** A view's operations, each from lock to unlock (store/view.go). */
module Views {
  import opened ViewStore
  import opened Wrappers

  /** A Parse call with no other call in between: a cached parse is returned as it is, a file that
      cannot be read fails, and the rest is parsed and committed. */
  function Parsing(world: World, fs: map<Uri, string>, st: Store, u: Uri, guard: Option<nat>): Store {
    if Cached(st, u) || u !in fs then st
    else
      var pf := ParseOf(world, fs[u]);
      CommitIfCurrent(st, u, guard, st.gen, pf, IncludesOf(world, u, pf))
  }

  function ParseResult(world: World, fs: map<Uri, string>, st: Store, u: Uri): Option<Parsed> {
    if Cached(st, u) then st.entries[u] else if u in fs then Some(ParseOf(world, fs[u])) else None
  }

  /** The first k files parsed in order. */
  function ParsingEach(world: World, fs: map<Uri, string>, st: Store, files: seq<Uri>, k: nat,
                       guard: Option<nat>): Store
    requires k <= |files|
  {
    if k == 0 then st
    else Parsing(world, fs, ParsingEach(world, fs, st, files, k - 1, guard), files[k - 1], guard)
  }

  function Updating(world: World, fs: map<Uri, string>, st: Store, files: seq<Uri>, guard: Option<nat>): Store {
    var us := SortCompact(files);
    ParsingEach(world, fs, Updated(st, us), us, |us|, guard)
  }

  // ----- reachability -----

  /** A chain of files, each including the next. */
  ghost function Path(st: Store, p: seq<Uri>): (r: bool)
    ensures r ==> |p| >= 2
  {
    |p| >= 2 && forall i :: 0 <= i < |p| - 1 ==> Edge(st, p[i], p[i + 1])
  }

  /** a includes b, directly or over other files. */
  ghost predicate Reaches(st: Store, a: Uri, b: Uri) {
    exists p :: Path(st, p) && p[0] == a && p[|p| - 1] == b
  }

  lemma EdgeReaches(st: Store, a: Uri, b: Uri)
    requires Edge(st, a, b)
    ensures Reaches(st, a, b)
  {
    assert Path(st, [a, b]);
  }

  lemma EdgeThenReaches(st: Store, a: Uri, b: Uri, c: Uri)
    requires Edge(st, a, b) && Reaches(st, b, c)
    ensures Reaches(st, a, c)
  {
    var p :| Path(st, p) && p[0] == b && p[|p| - 1] == c;
    assert Path(st, [a] + p);
  }

  /** A set that holds the includers of file and of its own files holds all that reach file. */
  lemma {:induction false} ClosedHoldsReaching(st: Store, file: Uri, held: set<Uri>, p: seq<Uri>)
    requires forall a, b :: Edge(st, a, b) && (b == file || b in held) ==> a in held
    requires Path(st, p) && p[|p| - 1] == file
    ensures p[0] in held
    decreases |p|
  {
    assert Edge(st, p[0], p[1]);
    if |p| > 2 {
      assert Path(st, p[1..]) by {
        forall i | 0 <= i < |p[1..]| - 1 ensures Edge(st, p[1..][i], p[1..][i + 1]) {
          assert Edge(st, p[i + 1], p[i + 1 + 1]);
        }
      }
      ClosedHoldsReaching(st, file, held, p[1..]);
    }
  }

  lemma HeldSize(s: seq<Uri>, all: set<Uri>)
    requires NoDuplicates(s) && forall x :: x in s ==> x in all
    ensures |s| <= |all|
  {
    if s != [] {
      Rest(s);
      HeldSize(s[1..], all - {s[0]});
    }
  }

  /** What Update returns: the generation and the changed files and their dependents. */
  datatype ChangeResult = ChangeResult(gen: nat, affected: seq<Uri>)

  /** Removes file from list, from the back. */
  method Dropped(list: seq<Uri>, file: Uri) returns (kept: seq<Uri>)
    ensures kept == Without(list, file)
  {
    kept := list;
    var i := |list|;
    while i > 0
      invariant 0 <= i <= |list| && i <= |kept| && kept == list[..i] + Without(list[i..], file)
    {
      i := i - 1;
      WithoutStep(list, i, file);
      if list[i] == file {
        kept := kept[..i] + kept[i + 1..];
      }
    }
  }

  class View {
    const world: World
    var entries: map<Uri, Option<Parsed>>
    var includes: map<Uri, seq<Uri>>
    var includers: map<Uri, seq<Uri>>
    var gen: nat

    ghost function Snapshot(): Store
      reads this
    {
      Store(entries, includes, includers, gen)
    }

    ghost predicate Valid()
      reads this
    {
      Wired(Snapshot())
    }

    constructor (world: World)
      ensures Valid() && this.world == world && Snapshot() == Empty()
    {
      this.world := world;
      entries, includes, includers, gen := map[], map[], map[], 0;
      new;
      EmptyIsWired();
    }

    /** The targets of the include statements, each path text resolved once, each target once. */
    method ResolveIncludes(file: Uri, statements: seq<Option<string>>) returns (r: seq<Uri>)
      ensures StrictlyAscending(r)
      ensures r == IncludesOf(world, file, Parsed("", statements))
      ensures forall x :: x in r <==> exists i :: 0 <= i < |statements| && Targets(world, file, statements[i], x)
    {
      var seen: set<string> := {};
      var uris: seq<Uri> := [];
      for k := 0 to |statements|
        invariant forall i :: 0 <= i < k && statements[i].Some? ==> PathText(statements[i].value) in seen
        invariant forall x :: x in uris <==> exists i :: 0 <= i < k && Targets(world, file, statements[i], x)
        invariant forall text :: text in seen ==> world.resolve(file, text) in uris
      {
        if statements[k].Some? {
          var text := PathText(statements[k].value);
          assert Targets(world, file, statements[k], world.resolve(file, text));
          if text !in seen {
            seen := seen + {text};
            uris := uris + [world.resolve(file, text)];
          }
        }
      }
      r := SortCompact(uris);
      SameAscending(r, IncludesOf(world, file, Parsed("", statements)));
    }

    /** Drops u's out-edges and their reverse entries. */
    method RemoveEdgesLocked(u: Uri)
      modifies this
      ensures Snapshot() == RemoveEdges(old(Snapshot()), u)
    {
      var out := At(includes, u);
      for k := 0 to |out|
        invariant includes == old(includes) && entries == old(entries) && gen == old(gen)
        invariant includers == DropReverses(old(includers), out, k, u)
      {
        var inc := out[k];
        var list := At(includers, inc);
        var i := 0;
        while i < |list|
          invariant 0 <= i <= |list| && u !in list[..i] && list == At(includers, inc)
          invariant includers == DropReverses(old(includers), out, k, u)
          invariant includes == old(includes) && entries == old(entries) && gen == old(gen)
        {
          if list[i] == u {
            break;
          }
          i := i + 1;
        }
        FirstAt(list, u, i);
        if i < |list| {
          var last := |list| - 1;
          includers := includers[inc := list[i := list[last]][..last]];
        }
        if At(includers, inc) == [] {
          includers := includers - {inc};
        }
      }
      includes := includes - {u};
    }

    /** The locked section of Parse. */
    method CommitLocked(u: Uri, guard: Option<nat>, generation: nat, pf: Parsed, incs: seq<Uri>)
      modifies this
      ensures Snapshot() == CommitIfCurrent(old(Snapshot()), u, guard, generation, pf, incs)
    {
      if (guard.None? || guard.value == generation) && gen == generation {
        RemoveEdgesLocked(u);
        entries := entries[u := Some(pf)];
        ghost var before := Snapshot();
        for k := 0 to |incs|
          invariant Snapshot() == AddEdges(before, u, incs, k)
        {
          includes := includes[u := At(includes, u) + [incs[k]]];
          includers := includers[incs[k] := At(includers, incs[k]) + [u]];
        }
      }
    }

    /** The cached parse of u, parsing it on first use. */
    method Parse(fs: map<Uri, string>, u: Uri, guard: Option<nat>) returns (r: Option<Parsed>)
      modifies this
      ensures r == ParseResult(world, fs, old(Snapshot()), u)
      ensures Snapshot() == Parsing(world, fs, old(Snapshot()), u, guard)
    {
      if u in entries && entries[u].Some? {
        return entries[u];
      }
      var generation := gen;
      if u !in fs {
        return None;
      }
      var pf := ParseOf(world, fs[u]);
      var incs := ResolveIncludes(u, pf.statements);
      SameStatements(world, u, pf);
      CommitLocked(u, guard, generation, pf, incs);
      return Some(pf);
    }

    /** Removes files and advances the generation. */
    method Evict(files: seq<Uri>)
      modifies this
      ensures Snapshot() == Evicted(old(Snapshot()), SortCompact(files))
    {
      var uris := SortCompact(files);
      ghost var before := Snapshot();
      for k := 0 to |uris|
        invariant Snapshot() == EvictEach(before, uris, k)
      {
        EvictOneLocked(uris[k]);
      }
      EvictKeepsGen(before, uris, |uris|);
      gen := gen + 1;
    }

    method EvictOneLocked(file: Uri)
      modifies this
      ensures Snapshot() == EvictOne(old(Snapshot()), file)
    {
      RemoveEdgesLocked(file);
      ghost var removed := Snapshot();
      var who := At(includers, file);
      for k := 0 to |who|
        invariant entries == removed.entries && includers == removed.includers && gen == removed.gen
        invariant includes == DropTarget(removed.includes, who, k, file)
      {
        var kept := Dropped(At(includes, who[k]), file);
        if kept == [] {
          includes := includes - {who[k]};
        } else {
          includes := includes[who[k] := kept];
        }
      }
      includers := includers - {file};
      entries := entries - {file};
    }

    /** The locked section of Update. */
    method InvalidateLocked(uris: seq<Uri>) returns (generation: nat)
      requires Valid()
      modifies this
      ensures Valid() && Snapshot() == Updated(old(Snapshot()), uris) && generation == old(gen) + 1
    {
      hide Wired, RemoveEdges;
      ghost var before := Snapshot();
      UpdateKeeps(before, uris);
      for k := 0 to |uris|
        invariant Snapshot() == Invalidate(before, uris, k)
      {
        RemoveEdgesLocked(uris[k]);
        entries := entries[uris[k] := None];
      }
      Invalidated(before, uris, |uris|);
      gen := gen + 1;
      generation := gen;
    }

    /** Invalidates the changed files and parses them again. */
    method Update(fs: map<Uri, string>, changes: seq<Uri>, guard: Option<nat>) returns (r: ChangeResult)
      requires Valid()
      modifies this
      ensures Valid() && Snapshot() == Updating(world, fs, old(Snapshot()), changes, guard)
      ensures r.gen == old(gen) + 1 && Affects(Snapshot(), SortCompact(changes), r.affected)
    {
      hide Wired, Updated, SortCompact, Parsing, ParseResult, Affects;
      var uris := SortCompact(changes);
      var generation := InvalidateLocked(uris);
      ghost var invalidated := Snapshot();
      for k := 0 to |uris|
        invariant Snapshot() == ParsingEach(world, fs, invalidated, uris, k, guard) && Valid()
      {
        ParsingKeeps(world, fs, Snapshot(), uris[k], guard);
        var _ := Parse(fs, uris[k], guard);
      }
      var affected := Affected(uris);
      return ChangeResult(generation, affected);
    }

    /** Every file that includes file, directly or transitively, in ascending order. */
    method Dependents(file: Uri) returns (r: seq<Uri>)
      requires Valid()
      ensures StrictlyAscending(r)
      ensures forall g :: g in r <==> Reaches(Snapshot(), g, file)
    {
      var deps: seq<Uri> := [];
      var seen: set<Uri> := {};
      var queue := [file];
      var head := 0;
      ghost var st := Snapshot();
      while head < |queue|
        invariant queue == [file] + deps && 0 <= head <= |queue|
        invariant Searching(st, file, deps, seen, head)
        decreases |includes.Keys| + 1 - head
      {
        var u := queue[head];
        Bounded(st, file, deps, seen, head);
        var list := At(includers, u);
        StartInner(st, file, deps, seen, head);
        for k := 0 to |list|
          invariant queue == [file] + deps && head < |queue| && u == queue[head] && list == At(st.includers, u)
          invariant Scanning(st, file, deps, seen, head, k)
        {
          var d := list[k];
          if d in seen {
            Old(st, file, deps, seen, head, k);
          } else {
            New(st, file, deps, seen, head, k);
            seen := seen + {d};
            deps := deps + [d];
            queue := queue + [d];
          }
        }
        EndInner(st, file, deps, seen, head);
        head := head + 1;
      }
      Finished(st, file, deps, seen);
      SortedOnce(deps);
      r := Sort(deps);
    }

    /** files and, after them, the dependents of each that are not already there. */
    method Affected(files: seq<Uri>) returns (r: seq<Uri>)
      requires Valid()
      ensures Affects(Snapshot(), files, r)
    {
      hide AreBlocks, IsBlock, Flat, Wired, Reaches, StrictlyAscending, Missing;
      var affected := files;
      var seen := set u | u in files;
      ghost var blocks: seq<seq<Uri>>, block: seq<Uri> := [], [];
      NoBlocks(Snapshot(), files);
      for k := 0 to |files|
        invariant |blocks| == k && AreBlocks(Snapshot(), files, blocks) && affected == files + Flat(blocks)
        invariant forall u :: u in seen <==> u in affected
      {
        var deps := Dependents(files[k]);
        ghost var held := affected;
        block := [];
        NoneMissing(held);
        for i := 0 to |deps|
          invariant affected == held + block && Missing(held, deps[..i], block)
          invariant forall u :: u in seen <==> u in affected
        {
          TakeNext(held, deps, i, block);
          var d := deps[i];
          assert d in seen <==> d in affected;
          if d !in seen {
            seen := seen + {d};
            affected := affected + [d];
            block := block + [d];
          }
        }
        assert deps[..|deps|] == deps;
        NextBlock(Snapshot(), files, blocks, deps, block);
        blocks := blocks + [block];
      }
      return affected;
    }

    method Includes(file: Uri) returns (r: seq<Uri>)
      requires Valid()
      ensures StrictlyAscending(r) && forall x :: x in r <==> Edge(Snapshot(), file, x)
    {
      return At(includes, file);
    }

    method Includers(file: Uri) returns (r: seq<Uri>)
      requires Valid()
      ensures StrictlyAscending(r) && forall x :: x in r <==> Edge(Snapshot(), x, file)
    {
      SortedOnce(At(includers, file));
      r := Sort(At(includers, file));
    }
  }

  // ----- affected files -----

  /** files[k] adds g: g is none of files, and files[k] is the first of them that it reaches. */
  ghost predicate Adds(st: Store, files: seq<Uri>, k: nat, g: Uri)
    requires k < |files|
  {
    g !in files && Reaches(st, g, files[k]) && forall i :: 0 <= i < k ==> !Reaches(st, g, files[i])
  }

  /** The files that files[k] adds, ascending. */
  ghost predicate IsBlock(st: Store, files: seq<Uri>, k: nat, block: seq<Uri>)
    requires k < |files|
  {
    StrictlyAscending(block) && forall g :: g in block <==> Adds(st, files, k, g)
  }

  ghost predicate AreBlocks(st: Store, files: seq<Uri>, blocks: seq<seq<Uri>>) {
    |blocks| <= |files| && forall k :: 0 <= k < |blocks| ==> IsBlock(st, files, k, blocks[k])
  }

  function Flat(blocks: seq<seq<Uri>>): seq<Uri> {
    if blocks == [] then [] else Flat(blocks[..|blocks| - 1]) + blocks[|blocks| - 1]
  }

  /** r is files, and then for each of them, in order, the files it adds, ascending. */
  ghost predicate Affects(st: Store, files: seq<Uri>, r: seq<Uri>) {
    exists blocks :: |blocks| == |files| && AreBlocks(st, files, blocks) && r == files + Flat(blocks)
  }

  /** block is the files of deps that are not held, ascending. */
  ghost predicate Missing(held: seq<Uri>, deps: seq<Uri>, block: seq<Uri>) {
    StrictlyAscending(block) && forall g :: g in block <==> g in deps && g !in held
  }

  lemma NoBlocks(st: Store, files: seq<Uri>)
    ensures AreBlocks(st, files, []) && files == files + Flat([])
  {
  }

  lemma NoneMissing(held: seq<Uri>)
    ensures Missing(held, [], []) && held == held + []
  {
  }

  lemma TakeNext(held: seq<Uri>, deps: seq<Uri>, i: nat, block: seq<Uri>)
    requires i < |deps| && StrictlyAscending(deps) && Missing(held, deps[..i], block)
    ensures if deps[i] in held + block then Missing(held, deps[..i + 1], block)
            else Missing(held, deps[..i + 1], block + [deps[i]])
    ensures held + block + [deps[i]] == held + (block + [deps[i]])
  {
    var d := deps[i];
    assert deps[..i + 1] == deps[..i] + [d];
    forall j | 0 <= j < |block| ensures block[j] < d {
      assert block[j] in block;
      assert block[j] in deps[..i];
    }
  }

  lemma {:induction false} FlatHolds(blocks: seq<seq<Uri>>, g: Uri)
    ensures g in Flat(blocks) <==> exists k :: 0 <= k < |blocks| && g in blocks[k]
    decreases |blocks|
  {
    if blocks != [] {
      FlatHolds(blocks[..|blocks| - 1], g);
    }
  }

  /** A file that reaches one of the first n files is one of files or added by one of the first n. */
  lemma {:induction false} SomeAdds(st: Store, files: seq<Uri>, n: nat, g: Uri)
    requires n <= |files| && g !in files
    ensures (exists k :: 0 <= k < n && Reaches(st, g, files[k])) <==> exists k :: 0 <= k < n && Adds(st, files, k, g)
    decreases n
  {
    hide Reaches;
    if n > 0 {
      SomeAdds(st, files, n - 1, g);
      if Reaches(st, g, files[n - 1]) && forall i :: 0 <= i < n - 1 ==> !Reaches(st, g, files[i]) {
        assert Adds(st, files, n - 1, g);
      }
    }
  }

  /** The files outside the blocks so far that reach the next file are its block. */
  lemma NextBlock(st: Store, files: seq<Uri>, blocks: seq<seq<Uri>>, deps: seq<Uri>, block: seq<Uri>)
    requires |blocks| < |files| && AreBlocks(st, files, blocks)
    requires forall g :: g in deps <==> Reaches(st, g, files[|blocks|])
    requires Missing(files + Flat(blocks), deps, block)
    ensures AreBlocks(st, files, blocks + [block])
    ensures files + Flat(blocks) + block == files + Flat(blocks + [block])
  {
    hide Reaches, Adds, AreBlocks, StrictlyAscending;
    var k := |blocks|;
    assert (blocks + [block])[..k] == blocks;
    forall g ensures g in block <==> Adds(st, files, k, g) {
      Added(st, files, blocks, deps, block, g);
    }
    MoreBlocks(st, files, blocks, block);
  }

  lemma MoreBlocks(st: Store, files: seq<Uri>, blocks: seq<seq<Uri>>, block: seq<Uri>)
    requires |blocks| < |files| && AreBlocks(st, files, blocks) && IsBlock(st, files, |blocks|, block)
    ensures AreBlocks(st, files, blocks + [block])
  {
    hide IsBlock;
  }

  lemma Added(st: Store, files: seq<Uri>, blocks: seq<seq<Uri>>, deps: seq<Uri>, block: seq<Uri>, g: Uri)
    requires |blocks| < |files| && AreBlocks(st, files, blocks)
    requires forall g :: g in deps <==> Reaches(st, g, files[|blocks|])
    requires Missing(files + Flat(blocks), deps, block)
    ensures g in block <==> Adds(st, files, |blocks|, g)
  {
    hide Reaches, StrictlyAscending, AreBlocks;
    HeldAdds(st, files, blocks, g);
    if g !in files {
      SomeAdds(st, files, |blocks|, g);
    }
  }

  lemma HeldAdds(st: Store, files: seq<Uri>, blocks: seq<seq<Uri>>, g: Uri)
    requires AreBlocks(st, files, blocks)
    ensures |blocks| <= |files|
    ensures g in Flat(blocks) <==> exists k :: 0 <= k < |blocks| && Adds(st, files, k, g)
  {
    hide Adds, Flat;
    FlatHolds(blocks, g);
    if k :| 0 <= k < |blocks| && Adds(st, files, k, g) {
      assert IsBlock(st, files, k, blocks[k]);
    }
    if k :| 0 <= k < |blocks| && g in blocks[k] {
      assert IsBlock(st, files, k, blocks[k]);
    }
  }

  // ----- the breadth-first search -----

  /** deps are files that reach file, and hold the includers of the first head files of the queue. */
  ghost predicate Searching(st: Store, file: Uri, deps: seq<Uri>, seen: set<Uri>, head: nat) {
    && Wired(st) && head <= 1 + |deps| && Found(st, file, deps, seen)
    && forall i, a :: 0 <= i < head && Edge(st, a, ([file] + deps)[i]) ==> a in deps
  }

  ghost predicate Found(st: Store, file: Uri, deps: seq<Uri>, seen: set<Uri>) {
    && NoDuplicates(deps) && (forall g :: g in seen <==> g in deps) && forall g :: g in deps ==> Reaches(st, g, file)
  }

  /** The same while the first k includers of the file at head have been taken too. */
  ghost predicate Scanning(st: Store, file: Uri, deps: seq<Uri>, seen: set<Uri>, head: nat, k: nat) {
    && Wired(st) && head < 1 + |deps| && Found(st, file, deps, seen)
    && (forall i, a :: 0 <= i < head && Edge(st, a, ([file] + deps)[i]) ==> a in deps)
    && var list := At(st.includers, ([file] + deps)[head]);
       k <= |list| && forall i :: 0 <= i < k ==> list[i] in deps
  }

  lemma StartInner(st: Store, file: Uri, deps: seq<Uri>, seen: set<Uri>, head: nat)
    requires Searching(st, file, deps, seen, head) && head < 1 + |deps|
    ensures Scanning(st, file, deps, seen, head, 0)
  {
    hide Wired, Found;
  }

  lemma Old(st: Store, file: Uri, deps: seq<Uri>, seen: set<Uri>, head: nat, k: nat)
    requires Scanning(st, file, deps, seen, head, k) && k < |At(st.includers, ([file] + deps)[head])|
    requires At(st.includers, ([file] + deps)[head])[k] in seen
    ensures Scanning(st, file, deps, seen, head, k + 1)
  {
    hide Wired;
    var d := At(st.includers, ([file] + deps)[head])[k];
    assert d in deps;
  }

  lemma New(st: Store, file: Uri, deps: seq<Uri>, seen: set<Uri>, head: nat, k: nat)
    requires Scanning(st, file, deps, seen, head, k) && k < |At(st.includers, ([file] + deps)[head])|
    requires At(st.includers, ([file] + deps)[head])[k] !in seen
    ensures var d := At(st.includers, ([file] + deps)[head])[k];
            Scanning(st, file, deps + [d], seen + {d}, head, k + 1)
  {
    hide Wired, Reaches;
    var u := ([file] + deps)[head];
    var d := At(st.includers, u)[k];
    Includer(st, d, u);
    if head == 0 {
      EdgeReaches(st, d, file);
    } else {
      assert u == deps[head - 1] && u in deps;
      EdgeThenReaches(st, d, u, file);
    }
    AppendNew(deps, d);
    assert forall i :: 0 <= i < 1 + |deps| ==> ([file] + (deps + [d]))[i] == ([file] + deps)[i];
  }

  lemma Includer(st: Store, a: Uri, b: Uri)
    requires Wired(st)
    ensures a in At(st.includers, b) <==> Edge(st, a, b)
  {
  }

  lemma EndInner(st: Store, file: Uri, deps: seq<Uri>, seen: set<Uri>, head: nat)
    requires head < 1 + |deps| && Scanning(st, file, deps, seen, head, |At(st.includers, ([file] + deps)[head])|)
    ensures Searching(st, file, deps, seen, head + 1)
  {
    hide Wired, Found, Edge;
    var queue := [file] + deps;
    forall i, a | 0 <= i < head + 1 && Edge(st, a, queue[i]) ensures a in deps {
      if i == head {
        Includer(st, a, queue[head]);
      }
    }
  }

  /** Every file in deps includes something, so deps cannot outgrow the include map. */
  lemma Bounded(st: Store, file: Uri, deps: seq<Uri>, seen: set<Uri>, head: nat)
    requires Searching(st, file, deps, seen, head)
    ensures |deps| <= |st.includes.Keys|
  {
    hide Wired;
    forall g | g in deps ensures g in st.includes.Keys {
      var p :| Path(st, p) && p[0] == g && p[|p| - 1] == file;
      assert Edge(st, p[0], p[1]);
    }
    HeldSize(deps, st.includes.Keys);
  }

  lemma Finished(st: Store, file: Uri, deps: seq<Uri>, seen: set<Uri>)
    requires Searching(st, file, deps, seen, 1 + |deps|)
    ensures NoDuplicates(deps) && forall g :: g in deps <==> Reaches(st, g, file)
  {
    hide Wired, Edge;
    var queue := [file] + deps;
    forall a, b | Edge(st, a, b) && (b == file || b in seen) ensures a in seen {
      if b == file {
        assert queue[0] == b;
      } else {
        var i :| 0 <= i < |deps| && deps[i] == b;
        assert queue[i + 1] == b;
      }
    }
    forall g | Reaches(st, g, file) ensures g in deps {
      var p :| Path(st, p) && p[0] == g && p[|p| - 1] == file;
      ClosedHoldsReaching(st, file, seen, p);
    }
  }

  // ----- one file -----

  lemma FirstAt(list: seq<Uri>, u: Uri, i: nat)
    requires i <= |list| && u !in list[..i] && (i < |list| ==> list[i] == u)
    ensures (u in list) == (i < |list|) && (i < |list| ==> IndexOf(list, u) == i)
  {
    if i > 0 {
      assert list[..i][0] == list[0] && list[..i][1..] == list[1..][..i - 1];
      assert list == [list[0]] + list[1..];
      FirstAt(list[1..], u, i - 1);
    } else if list != [] {
      assert list[0] in list;
    }
  }

  lemma {:induction false} EvictKeepsGen(st: Store, files: seq<Uri>, k: nat)
    requires k <= |files|
    ensures EvictEach(st, files, k).gen == st.gen
    decreases k
  {
    if k > 0 {
      EvictKeepsGen(st, files, k - 1);
    }
  }

  lemma WithoutStep(list: seq<Uri>, i: nat, x: Uri)
    requires i < |list|
    ensures Without(list[i..], x) == (if list[i] == x then [] else [list[i]]) + Without(list[i + 1..], x)
  {
    assert list[i..][1..] == list[i + 1..];
  }

  lemma SameStatements(world: World, u: Uri, pf: Parsed)
    ensures IncludesOf(world, u, Parsed("", pf.statements)) == IncludesOf(world, u, pf)
  {
  }

  lemma ParsingKeeps(world: World, fs: map<Uri, string>, st: Store, u: Uri, guard: Option<nat>)
    requires Wired(st)
    ensures var r := Parsing(world, fs, st, u, guard);
            && Wired(r) && r.gen == st.gen
            && (forall f :: f != u ==> At(r.includes, f) == At(st.includes, f))
            && (forall f :: f != u ==>
                  (f in r.entries <==> f in st.entries) && (f in st.entries ==> r.entries[f] == st.entries[f]))
            && (if Cached(st, u) || u !in fs || (guard.Some? && guard.value != st.gen) then r == st
                else r.entries == st.entries[u := Some(ParseOf(world, fs[u]))]
                     && At(r.includes, u) == IncludesOf(world, u, ParseOf(world, fs[u])))
  {
    hide Wired, Commit, IncludesOf, ParseOf;
    if u in fs {
      Committed(st, u, ParseOf(world, fs[u]), IncludesOf(world, u, ParseOf(world, fs[u])));
    }
  }

  /** r holds about f what st does. */
  ghost predicate SameAt(st: Store, r: Store, f: Uri) {
    && At(r.includes, f) == At(st.includes, f) && (f in r.entries <==> f in st.entries)
    && (f in st.entries ==> r.entries[f] == st.entries[f])
  }

  /** f has the parse and the edges of its content. */
  ghost predicate ParsedAt(world: World, st: Store, f: Uri, content: string) {
    && f in st.entries && st.entries[f] == Some(ParseOf(world, content))
    && At(st.includes, f) == IncludesOf(world, f, ParseOf(world, content))
  }

  lemma {:induction false} ParsingEachKeeps(world: World, fs: map<Uri, string>, st: Store, files: seq<Uri>, k: nat)
    requires k <= |files| && Wired(st) && StrictlyAscending(files) && forall f :: f in files ==> !Cached(st, f)
    ensures var r := ParsingEach(world, fs, st, files, k, None);
            && Wired(r) && r.gen == st.gen
            && forall f :: if f in files[..k] && f in fs then ParsedAt(world, r, f, fs[f]) else SameAt(st, r, f)
    decreases k
  {
    hide Wired, Parsing, IncludesOf, ParseOf, StrictlyAscending;
    if k > 0 {
      ParsingEachKeeps(world, fs, st, files, k - 1);
      NextAscends(files, k);
      var m, u := ParsingEach(world, fs, st, files, k - 1, None), files[k - 1];
      assert files[..k] == files[..k - 1] + [u];
      assert SameAt(st, m, u) && !Cached(st, u);
      ParsingKeeps(world, fs, m, u, None);
      var r := Parsing(world, fs, m, u, None);
      forall f ensures if f in files[..k] && f in fs then ParsedAt(world, r, f, fs[f]) else SameAt(st, r, f) {
        assert if f in files[..k - 1] && f in fs then ParsedAt(world, m, f, fs[f]) else SameAt(st, m, f);
      }
    }
  }

  /** After an Update without interference, the named files have the parses and the edges of their
      current contents, or neither when they cannot be read; other files are as before. */
  lemma UpdateRefreshes(world: World, fs: map<Uri, string>, st: Store, files: seq<Uri>)
    requires Wired(st)
    ensures var r := Updating(world, fs, st, files, None);
            && Wired(r) && r.gen == st.gen + 1
            && forall f ::
                 if f !in files then SameAt(st, r, f)
                 else if f in fs then ParsedAt(world, r, f, fs[f])
                 else f in r.entries && r.entries[f] == None && At(r.includes, f) == []
  {
    hide Wired, IncludesOf, ParseOf, Updated, SortCompact, ParsingEach;
    var us := SortCompact(files);
    UpdateKeeps(st, us);
    var m := Updated(st, us);
    assert us[..|us|] == us;
    forall f ensures f in m.entries <==> f in st.entries || f in us {
      assert f in m.entries.Keys <==> f in st.entries.Keys || f in us;
    }
    ParsingEachKeeps(world, fs, m, us, |us|);
  }
}
