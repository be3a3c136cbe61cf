/** In which order an update lists the files it affects (store/view.go). */
module AffectedOrder {
  import opened ViewStore
  import opened Views
  import opened Wrappers

  /** The changed files and exactly the other files that reach one of them, each of these once. */
  lemma AffectedExactly(st: Store, files: seq<Uri>, r: seq<Uri>)
    requires Affects(st, files, r)
    ensures |files| <= |r| && r[..|files|] == files
    ensures forall g :: g in r <==> g in files || exists k :: 0 <= k < |files| && Reaches(st, g, files[k])
    ensures forall i, j :: |files| <= i < |r| && 0 <= j < i ==> r[i] != r[j]
  {
    hide Reaches, AreBlocks, Flat;
    var blocks :| |blocks| == |files| && AreBlocks(st, files, blocks) && r == files + Flat(blocks);
    forall g ensures g in r <==> g in files || exists k :: 0 <= k < |files| && Reaches(st, g, files[k]) {
      if g !in files {
        SomeAdds(st, files, |files|, g);
        HeldAdds(st, files, blocks, g);
      }
    }
    FlatOnce(st, files, blocks);
    forall i, j | |files| <= i < |r| && 0 <= j < i ensures r[i] != r[j] {
      assert r[i] == Flat(blocks)[i - |files|] && r[i] in Flat(blocks);
      HeldAdds(st, files, blocks, r[i]);
      var k :| 0 <= k < |blocks| && Adds(st, files, k, r[i]);
      AddsOutside(st, files, k, r[i]);
      if j >= |files| {
        assert r[j] == Flat(blocks)[j - |files|];
      } else {
        assert r[j] == files[j];
      }
    }
  }

  lemma AddsOutside(st: Store, files: seq<Uri>, k: nat, g: Uri)
    requires k < |files| && Adds(st, files, k, g)
    ensures g !in files && Reaches(st, g, files[k])
    ensures forall i :: 0 <= i < |files| && Adds(st, files, i, g) ==> i == k
  {
    hide Reaches;
  }

  lemma Shorter(st: Store, files: seq<Uri>, blocks: seq<seq<Uri>>)
    requires AreBlocks(st, files, blocks) && blocks != []
    ensures AreBlocks(st, files, blocks[..|blocks| - 1])
    ensures |blocks| <= |files| && IsBlock(st, files, |blocks| - 1, blocks[|blocks| - 1])
  {
    hide IsBlock;
  }

  lemma {:induction false} FlatOnce(st: Store, files: seq<Uri>, blocks: seq<seq<Uri>>)
    requires AreBlocks(st, files, blocks)
    ensures NoDuplicates(Flat(blocks))
    decreases |blocks|
  {
    hide AreBlocks, Adds;
    if blocks != [] {
      var n := |blocks| - 1;
      Shorter(st, files, blocks);
      FlatOnce(st, files, blocks[..n]);
      forall x | x in Flat(blocks[..n]) ensures x !in blocks[n] {
        HeldAdds(st, files, blocks[..n], x);
        var k :| 0 <= k < n && Adds(st, files, k, x);
        AddsOutside(st, files, k, x);
      }
      JoinOnce(Flat(blocks[..n]), blocks[n]);
    }
  }

  lemma JoinOnce(a: seq<Uri>, b: seq<Uri>)
    requires NoDuplicates(a) && NoDuplicates(b) && forall x :: x in a ==> x !in b
    ensures NoDuplicates(a + b)
  {
    forall i, j | 0 <= i < j < |a + b| ensures (a + b)[i] != (a + b)[j] {
      if i < |a| <= j {
        assert (a + b)[i] in a && (a + b)[j] in b;
      }
    }
  }

  // ----- the list is determined -----

  lemma {:induction false} SameBlocks(st: Store, files: seq<Uri>, a: seq<seq<Uri>>, b: seq<seq<Uri>>)
    requires AreBlocks(st, files, a) && AreBlocks(st, files, b) && |a| == |b|
    ensures a == b
  {
    hide Adds, StrictlyAscending;
    forall k | 0 <= k < |a| ensures a[k] == b[k] {
      assert IsBlock(st, files, k, a[k]) && IsBlock(st, files, k, b[k]);
      SameAscending(a[k], b[k]);
    }
  }

  /** The include graph and the changed files determine the list, its order too. */
  lemma AffectedOnce(st: Store, files: seq<Uri>, a: seq<Uri>, b: seq<Uri>)
    requires Affects(st, files, a) && Affects(st, files, b)
    ensures a == b
  {
    hide AreBlocks, Flat;
    var x :| |x| == |files| && AreBlocks(st, files, x) && a == files + Flat(x);
    var y :| |y| == |files| && AreBlocks(st, files, y) && b == files + Flat(y);
    SameBlocks(st, files, x, y);
  }

  // ----- when the dependents are sorted -----

  /** What an earlier file adds is below what a later one adds. */
  ghost predicate InStep(st: Store, files: seq<Uri>, n: nat)
    requires n <= |files|
  {
    forall i, k, g, h :: 0 <= i < k < n && Adds(st, files, i, g) && Adds(st, files, k, h) ==> g < h
  }

  ghost predicate Below(a: seq<Uri>, b: seq<Uri>) {
    forall x, y :: x in a && y in b ==> x < y
  }

  lemma AscendingJoins(a: seq<Uri>, b: seq<Uri>)
    requires Ascending(b) && NoDuplicates(a + b)
    ensures Ascending(a + b) <==> Ascending(a) && Below(a, b)
  {
    var s := a + b;
    if Ascending(s) {
      forall i, j | 0 <= i < j < |a| ensures a[i] <= a[j] {
        assert s[i] == a[i] && s[j] == a[j];
      }
      forall x, y | x in a && y in b ensures x < y {
        var i :| 0 <= i < |a| && a[i] == x;
        var j :| 0 <= j < |b| && b[j] == y;
        assert s[i] == x && s[|a| + j] == y;
      }
    }
    if Ascending(a) && Below(a, b) {
      forall i, j | 0 <= i < j < |s| ensures s[i] <= s[j] {
        if i < |a| <= j {
          assert s[i] in a && s[j] in b;
        }
      }
    }
  }

  lemma {:induction false} BlocksAscend(st: Store, files: seq<Uri>, blocks: seq<seq<Uri>>)
    requires AreBlocks(st, files, blocks)
    ensures Ascending(Flat(blocks)) <==> InStep(st, files, |blocks|)
    decreases |blocks|
  {
    hide AreBlocks, Adds, Ascending, NoDuplicates, Below;
    if blocks == [] {
      NothingAscends();
      StrictlyAscends([]);
    } else {
      var n := |blocks| - 1;
      Shorter(st, files, blocks);
      BlocksAscend(st, files, blocks[..n]);
      FlatOnce(st, files, blocks);
      StrictlyAscends(blocks[n]);
      AscendingJoins(Flat(blocks[..n]), blocks[n]);
      StepsJoin(st, files, blocks[..n], blocks[n]);
    }
  }

  lemma StepsJoin(st: Store, files: seq<Uri>, blocks: seq<seq<Uri>>, block: seq<Uri>)
    requires |blocks| < |files| && AreBlocks(st, files, blocks) && IsBlock(st, files, |blocks|, block)
    ensures InStep(st, files, |blocks| + 1) <==>
            InStep(st, files, |blocks|) && Below(Flat(blocks), block)
  {
    hide AreBlocks, Adds, StrictlyAscending, Flat;
    var n := |blocks|;
    if InStep(st, files, n + 1) {
      forall x, y | x in Flat(blocks) && y in block ensures x < y {
        HeldAdds(st, files, blocks, x);
        assert Adds(st, files, n, y);
      }
    }
    if InStep(st, files, n) && Below(Flat(blocks), block) {
      forall i, k, g, h | 0 <= i < k < n + 1 && Adds(st, files, i, g) && Adds(st, files, k, h) ensures g < h {
        if k == n {
          HeldAdds(st, files, blocks, g);
        }
      }
    }
  }

  /** The dependents are sorted if and only if what an earlier file adds is always below what a later
      one adds. */
  lemma SortedExactly(st: Store, files: seq<Uri>, r: seq<Uri>)
    requires Affects(st, files, r)
    ensures Ascending(r[|files|..]) <==>
            forall i, k, g, h :: 0 <= i < k < |files| && Adds(st, files, i, g) && Adds(st, files, k, h) ==> g < h
  {
    hide AreBlocks, Flat, Adds, Ascending;
    var blocks :| |blocks| == |files| && AreBlocks(st, files, blocks) && r == files + Flat(blocks);
    assert r[|files|..] == Flat(blocks);
    BlocksAscend(st, files, blocks);
    assert Ascending(r[|files|..]) <==> InStep(st, files, |files|);
  }

  /** After the change of one file the dependents are sorted. */
  lemma OneFileSorts(st: Store, file: Uri, r: seq<Uri>)
    requires Affects(st, [file], r)
    ensures r[..1] == [file] && Ascending(r[1..])
  {
    hide Adds, Affects;
    AffectedExactly(st, [file], r);
    SortedExactly(st, [file], r);
  }

  // ----- a call whose dependents are not sorted -----

  /** A content is a path to include, if it is not empty, and a path leads to the file of its length. */
  const LENGTHS := World(content => if content == "" then [] else [Some(content)], (file, path) => |path|)

  const NINE_AND_FIVE: map<Uri, string> := map[1 := "", 2 := "", 5 := "ii", 9 := "i"]

  lemma TargetsOf(file: Uri)
    ensures IncludesOf(LENGTHS, file, ParseOf(LENGTHS, "")) == []
    ensures IncludesOf(LENGTHS, file, ParseOf(LENGTHS, "i")) == [1]
    ensures IncludesOf(LENGTHS, file, ParseOf(LENGTHS, "ii")) == [2]
  {
    hide IncludesOf;
    OneTarget(file, "i");
    OneTarget(file, "ii");
    assert PathText("i") == "i" && PathText("ii") == "ii";
    SharedElement(IncludesOf(LENGTHS, file, ParseOf(LENGTHS, "")), []);
  }

  lemma OneTarget(file: Uri, content: string)
    requires content != ""
    ensures IncludesOf(LENGTHS, file, ParseOf(LENGTHS, content)) == [|PathText(content)|]
  {
    hide IncludesOf, PathText;
    var pf := ParseOf(LENGTHS, content);
    assert pf.statements == [Some(content)];
    assert Targets(LENGTHS, file, pf.statements[0], |PathText(content)|);
    SameAscending(IncludesOf(LENGTHS, file, pf), [|PathText(content)|]);
  }

  /** Only a reaches b, over one edge. */
  lemma OnlyReaches(st: Store, a: Uri, b: Uri, g: Uri)
    requires Edge(st, a, b) && forall x, y :: Edge(st, x, y) && (y == a || y == b) ==> x == a
    ensures Reaches(st, g, b) <==> g == a
  {
    EdgeReaches(st, a, b);
    if Reaches(st, g, b) {
      var p :| Path(st, p) && p[0] == g && p[|p| - 1] == b;
      ClosedHoldsReaching(st, b, {a}, p);
    }
  }

  /** 9 includes 1 and 5 includes 2. */
  lemma NineBeforeFive(st: Store, r: seq<Uri>)
    requires forall a, b :: Edge(st, a, b) <==> (a == 9 && b == 1) || (a == 5 && b == 2)
    requires Affects(st, [1, 2], r)
    ensures r == [1, 2, 9, 5] && !Ascending(r[2..])
  {
    hide Reaches, Edge;
    forall g ensures Reaches(st, g, 1) <==> g == 9 {
      OnlyReaches(st, 9, 1, g);
    }
    forall g ensures Reaches(st, g, 2) <==> g == 5 {
      OnlyReaches(st, 5, 2, g);
    }
    var blocks := [[9], [5]];
    assert IsBlock(st, [1, 2], 0, blocks[0]) && IsBlock(st, [1, 2], 1, blocks[1]);
    assert blocks[..1] == [[9]];
    assert Flat(blocks[..1]) == [9] && Flat(blocks) == [9, 5];
    assert [1, 2] + [9, 5] == [1, 2, 9, 5];
    AffectedOnce(st, [1, 2], r, [1, 2, 9, 5]);
    assert r[2..][0] == 9 && r[2..][1] == 5;
  }

  /** An update of two files lists the dependents of the first before those of the second. */
  method UnsortedDependents() returns (r: ChangeResult)
    ensures r.affected == [1, 2, 9, 5]
  {
    hide Wired, Parsing, Updating, Affects, SortCompact, Edge;
    TwoEdges();
    SameAscending(SortCompact([1, 2]), [1, 2]);
    var view := new View(LENGTHS);
    var _ := view.Parse(NINE_AND_FIVE, 9, None);
    var _ := view.Parse(NINE_AND_FIVE, 5, None);
    r := view.Update(NINE_AND_FIVE, [1, 2], None);
    NineBeforeFive(view.Snapshot(), r.affected);
  }

  lemma TwoEdges()
    ensures var st := Parsing(LENGTHS, NINE_AND_FIVE, Empty(), 9, None);
            var both := Parsing(LENGTHS, NINE_AND_FIVE, st, 5, None);
            var r := Updating(LENGTHS, NINE_AND_FIVE, both, [1, 2], None);
            && Wired(both)
            && forall a, b :: Edge(r, a, b) <==> (a == 9 && b == 1) || (a == 5 && b == 2)
  {
    hide Wired, Parsing, Updating, IncludesOf, ParseOf;
    EmptyIsWired();
    var st := Parsing(LENGTHS, NINE_AND_FIVE, Empty(), 9, None);
    ParsedEdges(NINE_AND_FIVE, Empty(), 9);
    var both := Parsing(LENGTHS, NINE_AND_FIVE, st, 5, None);
    ParsedEdges(NINE_AND_FIVE, st, 5);
    var r := Updating(LENGTHS, NINE_AND_FIVE, both, [1, 2], None);
    UpdateRefreshes(LENGTHS, NINE_AND_FIVE, both, [1, 2]);
    TargetsOf(1);
    TargetsOf(2);
    TargetsOf(5);
    TargetsOf(9);
    forall a ensures At(r.includes, a) == if a == 9 then [1] else if a == 5 then [2] else [] {
      assert if a !in [1, 2] then SameAt(both, r, a) else ParsedAt(LENGTHS, r, a, NINE_AND_FIVE[a]);
    }
  }

  /** A file that is parsed gets the edges of its content, and other files keep theirs. */
  lemma ParsedEdges(fs: map<Uri, string>, st: Store, u: Uri)
    requires Wired(st) && !Cached(st, u) && u in fs
    ensures var r := Parsing(LENGTHS, fs, st, u, None);
            && Wired(r) && (forall v :: v != u ==> (Cached(r, v) <==> Cached(st, v)))
            && At(r.includes, u) == IncludesOf(LENGTHS, u, ParseOf(LENGTHS, fs[u]))
            && forall a :: a != u ==> At(r.includes, a) == At(st.includes, a)
  {
    hide Wired, Commit, IncludesOf, ParseOf;
    Committed(st, u, ParseOf(LENGTHS, fs[u]), IncludesOf(LENGTHS, u, ParseOf(LENGTHS, fs[u])));
  }
}
