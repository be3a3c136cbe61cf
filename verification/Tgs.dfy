/** Szymanski's longest common subsequence of unique lines (formatter/diff.go). */
module Tgs {

  type Line = string

  datatype Pair = Pair(x: int, y: int)

  /** The line at p.x is the line at p.y, and it appears once in each file. */
  ghost predicate Anchor(x: seq<Line>, y: seq<Line>, p: Pair) {
    0 <= p.x < |x| && 0 <= p.y < |y| && x[p.x] == y[p.y]
    && multiset(x)[x[p.x]] == 1 && multiset(y)[y[p.y]] == 1
  }

  ghost predicate Increasing(c: seq<Pair>) {
    forall i, j :: 0 <= i < j < |c| ==> c[i].x < c[j].x && c[i].y < c[j].y
  }

  /** A common subsequence of unique lines. */
  ghost predicate AnchorChain(x: seq<Line>, y: seq<Line>, c: seq<Pair>) {
    Increasing(c) && forall i :: 0 <= i < |c| ==> Anchor(x, y, c[i])
  }

  ghost predicate Ascending(s: seq<nat>) {
    forall i, j :: 0 <= i < j < |s| ==> s[i] < s[j]
  }

  ghost predicate Distinct<T>(s: seq<T>) {
    forall i, j :: 0 <= i < j < |s| ==> s[i] != s[j]
  }

  // ----- counting lines -----

  lemma CountedOnce(s: seq<Line>, i: int, j: int)
    requires 0 <= i < |s| && 0 <= j < |s| && s[i] == s[j]
    ensures multiset(s)[s[i]] == 1 ==> i == j
  {
    if i != j {
      var lo, hi := if i < j then i else j, if i < j then j else i;
      assert s == s[..lo + 1] + s[lo + 1..];
      assert s[..lo + 1] == s[..lo] + [s[lo]];
      assert s[lo + 1..][hi - lo - 1] == s[i];
      assert s[i] in multiset(s[lo + 1..]);
      assert multiset(s) == multiset(s[..lo]) + multiset{s[lo]} + multiset(s[lo + 1..]);
    }
  }

  lemma DistinctCardinality<T>(s: seq<T>)
    requires Distinct(s)
    ensures |set e | e in s| == |s|
  {
    if s != [] {
      var init, last := s[..|s| - 1], s[|s| - 1];
      DistinctCardinality(init);
      assert s == init + [last];
      assert (set e | e in s) == (set e | e in init) + {last};
    }
  }

  function Tally(m: map<Line, int>, s: Line): int {
    if s in m then m[s] else 0
  }

  function AtMostTwo(n: nat): int {
    if n < 2 then n else 2
  }

  /** Counts each line as 0, -1, -2 on the x side plus 0, -4, -8 on the y side. */
  method CountLines(x: seq<Line>, y: seq<Line>) returns (m: map<Line, int>)
    ensures forall s :: Tally(m, s) == -AtMostTwo(multiset(x)[s]) - 4 * AtMostTwo(multiset(y)[s])
  {
    m := map[];
    for i := 0 to |x|
      invariant forall s :: Tally(m, s) == -AtMostTwo(multiset(x[..i])[s])
    {
      assert x[..i + 1] == x[..i] + [x[i]];
      var c := Tally(m, x[i]);
      if c > -2 {
        m := m[x[i] := c - 1];
      }
    }
    assert x[..|x|] == x;
    for i := 0 to |y|
      invariant forall s :: Tally(m, s) == -AtMostTwo(multiset(x)[s]) - 4 * AtMostTwo(multiset(y[..i])[s])
    {
      assert y[..i + 1] == y[..i] + [y[i]];
      var c := Tally(m, y[i]);
      if c > -8 {
        m := m[y[i] := c - 4];
      }
    }
    assert y[..|y|] == y;
  }

  ghost predicate OnceInBoth(x: seq<Line>, y: seq<Line>, s: Line) {
    multiset(x)[s] == 1 && multiset(y)[s] == 1
  }

  /** xi, yi and inv as the comments of tgs describe them: the positions of the lines
      unique in both files, and the permutation that matches them up. */
  ghost predicate AnchorIndex(x: seq<Line>, y: seq<Line>, xi: seq<nat>, yi: seq<nat>, inv: seq<nat>) {
    && Ascending(xi) && Ascending(yi) && Distinct(inv)
    && |xi| == |yi| == |inv|
    && (forall i :: 0 <= i < |inv| ==> inv[i] < |yi| && Anchor(x, y, Pair(xi[i], yi[inv[i]])))
    && (forall a :: 0 <= a < |x| && OnceInBoth(x, y, x[a]) ==> a in xi)
  }

  /** A tally of -1 + -4 singles out the lines unique in both files. */
  lemma TallyMeaning(x: seq<Line>, y: seq<Line>, m: map<Line, int>)
    requires forall s :: Tally(m, s) == -AtMostTwo(multiset(x)[s]) - 4 * AtMostTwo(multiset(y)[s])
    ensures forall s :: Tally(m, s) == -5 <==> OnceInBoth(x, y, s)
    ensures forall s :: s in x ==> Tally(m, s) < 0
  {
    forall s | s in x ensures Tally(m, s) < 0 {
      assert s in multiset(x);
    }
  }

  lemma NotSeenBefore(x: seq<Line>, y: seq<Line>, i: nat)
    requires i < |y|
    ensures OnceInBoth(x, y, y[i]) ==> y[i] !in y[..i]
  {
    if y[i] in y[..i] {
      var k :| 0 <= k < i && y[k] == y[i];
      CountedOnce(y, k, i);
    }
  }

  lemma OnceInBothIsInBoth(x: seq<Line>, y: seq<Line>)
    ensures forall s :: OnceInBoth(x, y, s) ==> s in x && s in y
  {
    forall s | OnceInBoth(x, y, s) ensures s in x && s in y {
      assert s in multiset(x) && s in multiset(y);
    }
  }

  method CollectY(x: seq<Line>, y: seq<Line>, counts: map<Line, int>)
    returns (m: map<Line, int>, yi: seq<nat>)
    requires forall s :: Tally(counts, s) == -5 <==> OnceInBoth(x, y, s)
    requires forall s :: s in x ==> Tally(counts, s) < 0
    ensures Ascending(yi)
    ensures forall j :: 0 <= j < |yi| ==> yi[j] < |y| && OnceInBoth(x, y, y[yi[j]])
    ensures forall s :: !OnceInBoth(x, y, s) ==> Tally(m, s) < 0 || s !in x
    ensures forall s :: OnceInBoth(x, y, s) ==> s in m && 0 <= m[s] < |yi| && y[yi[m[s]]] == s
  {
    hide OnceInBoth;
    m, yi := counts, [];
    for i := 0 to |y|
      invariant Ascending(yi)
      invariant forall j :: 0 <= j < |yi| ==> yi[j] < i && OnceInBoth(x, y, y[yi[j]])
      invariant forall s :: !OnceInBoth(x, y, s) ==> Tally(m, s) == Tally(counts, s)
      invariant forall s :: OnceInBoth(x, y, s) && s !in y[..i] ==> Tally(m, s) == -5
      invariant forall s :: OnceInBoth(x, y, s) && s in y[..i] ==> s in m && 0 <= m[s] < |yi| && y[yi[m[s]]] == s
    {
      NotSeenBefore(x, y, i);
      assert y[..i + 1] == y[..i] + [y[i]];
      if Tally(m, y[i]) == -1 + -4 {
        m := m[y[i] := |yi|];
        yi := yi + [i];
      }
    }
    assert y[..|y|] == y;
    OnceInBothIsInBoth(x, y);
  }

  method CollectX(x: seq<Line>, y: seq<Line>, m: map<Line, int>, yi: seq<nat>)
    returns (xi: seq<nat>, inv: seq<nat>)
    requires Ascending(yi)
    requires forall j :: 0 <= j < |yi| ==> yi[j] < |y| && OnceInBoth(x, y, y[yi[j]])
    requires forall s :: !OnceInBoth(x, y, s) ==> Tally(m, s) < 0 || s !in x
    requires forall s :: OnceInBoth(x, y, s) ==> s in m && 0 <= m[s] < |yi| && y[yi[m[s]]] == s
    ensures AnchorIndex(x, y, xi, yi, inv)
  {
    hide OnceInBoth, AnchorIndex;
    xi, inv := [], [];
    for i := 0 to |x|
      invariant Ascending(xi) && |xi| == |inv|
      invariant forall k :: 0 <= k < |xi| ==> xi[k] < i && inv[k] < |yi| && x[xi[k]] == y[yi[inv[k]]]
      invariant forall k :: 0 <= k < |xi| ==> OnceInBoth(x, y, x[xi[k]])
      invariant forall a :: 0 <= a < i && OnceInBoth(x, y, x[a]) ==> a in xi
    {
      if x[i] in m && m[x[i]] >= 0 {
        xi := xi + [i];
        inv := inv + [m[x[i]]];
      }
    }
    Indexed(x, y, xi, yi, inv);
  }

  lemma Indexed(x: seq<Line>, y: seq<Line>, xi: seq<nat>, yi: seq<nat>, inv: seq<nat>)
    requires Ascending(yi) && Ascending(xi) && |xi| == |inv|
    requires forall j :: 0 <= j < |yi| ==> yi[j] < |y| && OnceInBoth(x, y, y[yi[j]])
    requires forall k :: 0 <= k < |xi| ==> xi[k] < |x| && inv[k] < |yi| && x[xi[k]] == y[yi[inv[k]]]
    requires forall k :: 0 <= k < |xi| ==> OnceInBoth(x, y, x[xi[k]])
    requires forall a :: 0 <= a < |x| && OnceInBoth(x, y, x[a]) ==> a in xi
    ensures AnchorIndex(x, y, xi, yi, inv)
  {
    forall p, q | 0 <= p < q < |inv| ensures inv[p] != inv[q] {
      if inv[p] == inv[q] {
        CountedOnce(x, xi[p], xi[q]);
      }
    }
    SameSize(x, y, xi, yi, inv);
  }

  /** The lines at the positions p. */
  ghost function LinesAt(s: seq<Line>, p: seq<nat>): (r: seq<Line>)
    requires forall k :: 0 <= k < |p| ==> p[k] < |s|
    ensures |r| == |p| && forall k :: 0 <= k < |p| ==> r[k] == s[p[k]]
  {
    seq(|p|, k requires 0 <= k < |p| => s[p[k]])
  }

  lemma UniqueLinesAt(s: seq<Line>, p: seq<nat>)
    requires Ascending(p)
    requires forall k :: 0 <= k < |p| ==> p[k] < |s| && multiset(s)[s[p[k]]] == 1
    ensures Distinct(LinesAt(s, p))
  {
    var l := LinesAt(s, p);
    forall a, b | 0 <= a < b < |l| ensures l[a] != l[b] {
      if l[a] == l[b] {
        CountedOnce(s, p[a], p[b]);
      }
    }
  }

  /** Both index lists enumerate, without repetition, the lines unique in both files. */
  lemma SameSize(x: seq<Line>, y: seq<Line>, xi: seq<nat>, yi: seq<nat>, inv: seq<nat>)
    requires Ascending(xi) && Ascending(yi) && |inv| == |xi|
    requires forall j :: 0 <= j < |yi| ==> yi[j] < |y| && OnceInBoth(x, y, y[yi[j]])
    requires forall k :: 0 <= k < |xi| ==> xi[k] < |x| && OnceInBoth(x, y, x[xi[k]])
    requires forall a :: 0 <= a < |x| && OnceInBoth(x, y, x[a]) ==> a in xi
    requires forall k :: 0 <= k < |xi| ==> inv[k] < |yi| && x[xi[k]] == y[yi[inv[k]]]
    ensures |xi| == |yi|
  {
    UniqueLinesAt(x, xi);
    UniqueLinesAt(y, yi);
    hide OnceInBoth, Distinct, Ascending;
    var lx, ly := LinesAt(x, xi), LinesAt(y, yi);
    forall s | s in ly ensures s in lx {
      OnceInBothIsInBoth(x, y);
      var a :| 0 <= a < |x| && x[a] == s;
      var k :| 0 <= k < |xi| && xi[k] == a;
      assert lx[k] == s;
    }
    forall s | s in lx ensures s in ly {
      var k :| 0 <= k < |lx| && lx[k] == s;
      assert ly[inv[k]] == s;
    }
    assert (set s | s in lx) == (set s | s in ly);
    DistinctCardinality(lx);
    DistinctCardinality(ly);
  }

  // ----- patience sorting -----

  /** sort.Search over T[k] >= v. */
  method SearchFirst(T: seq<int>, v: int) returns (k: nat)
    requires forall a, b :: 0 <= a < b < |T| ==> T[a] <= T[b]
    ensures k <= |T|
    ensures forall a :: 0 <= a < k ==> T[a] < v
    ensures forall a :: k <= a < |T| ==> T[a] >= v
  {
    var i, j := 0, |T|;
    while i < j
      invariant 0 <= i <= j <= |T|
      invariant forall a :: 0 <= a < i ==> T[a] < v
      invariant forall a :: j <= a < |T| ==> T[a] >= v
    {
      var h := (i + j) / 2;
      if T[h] < v {
        i := h + 1;
      } else {
        j := h;
      }
    }
    k := i;
  }

  ghost predicate HasPredecessor(J: seq<nat>, L: seq<nat>, i: int)
    requires 0 <= i < |L| <= |J|
  {
    exists p :: 0 <= p < i && L[p] + 1 == L[i] && J[p] < J[i]
  }

  /** L ranks the elements of J: a rank above 1 has a smaller predecessor one rank below,
      smaller elements on the left have smaller ranks, and so equal ranks mean
      decreasing elements. */
  ghost predicate Ranked(J: seq<nat>, L: seq<nat>) {
    && |L| <= |J|
    && (forall i :: 0 <= i < |L| ==> 1 <= L[i] <= i + 1)
    && (forall i {:trigger HasPredecessor(J, L, i)} :: 0 <= i < |L| && L[i] > 1 ==> HasPredecessor(J, L, i))
    && (forall p, q :: 0 <= p < q < |L| && J[p] < J[q] ==> L[p] < L[q])
  }

  ghost predicate IsTail(J: seq<nat>, L: seq<nat>, k: nat, v: int)
    requires |L| <= |J|
  {
    exists p :: 0 <= p < |L| && L[p] == k + 1 && v == J[p]
  }

  /** The tails T[0..f): T[k] is the last, hence smallest, element of rank k + 1. */
  ghost predicate Tails(J: seq<nat>, L: seq<nat>, T: seq<int>, f: nat)
    requires |L| <= |J|
  {
    && f <= |L| && |T| == |J|
    && (forall a, b :: 0 <= a < b < |T| ==> T[a] <= T[b])
    && (forall k :: f <= k < |T| ==> T[k] == |J| + 1)
    && (forall k {:trigger IsTail(J, L, k, T[k])} :: 0 <= k < f ==> IsTail(J, L, k, T[k]))
    && (forall p :: 0 <= p < |L| ==> 1 <= L[p] <= f && T[L[p] - 1] <= J[p])
  }

  lemma SearchableTails(J: seq<nat>, L: seq<nat>, T: seq<int>, f: nat)
    requires |L| < |J| && Tails(J, L, T, f)
    ensures |T| == |J| && f < |J| && T[f] == |J| + 1
    ensures forall a, b :: 0 <= a < b < |T| ==> T[a] <= T[b]
  {
  }

  method Patience(J: seq<nat>) returns (L: array<nat>)
    requires Distinct(J)
    requires forall i :: 0 <= i < |J| ==> J[i] < |J|
    ensures L.Length == |J| && Ranked(J, L[..])
  {
    var n := |J|;
    var T := new int[n](_ => n + 1);
    L := new nat[n](_ => 0);
    ghost var f := 0;
    assert Ranked(J, L[..0]) && Tails(J, L[..0], T[..], f);
    hide Ranked, Tails, Distinct;
    for i := 0 to n
      invariant Ranked(J, L[..i])
      invariant Tails(J, L[..i], T[..], f)
    {
      ghost var T0, L0 := T[..], L[..i];
      SearchableTails(J, L0, T0, f);
      var k := SearchFirst(T[..], J[i]);
      RankedStep(J, L0, T0, f, k);
      TailsStep(J, L0, T0, f, k);
      T[k] := J[i];
      L[i] := k + 1;
      f := if k == f then f + 1 else f;
      assert T[..] == T0[k := J[i]];
      assert L[..i + 1] == L0 + [k + 1];
    }
    assert L[..n] == L[..];
  }

  lemma RankedStep(J: seq<nat>, L: seq<nat>, T: seq<int>, f: nat, k: nat)
    requires |L| < |J| && Ranked(J, L) && Tails(J, L, T, f)
    requires k <= f && k < |T|
    requires forall a :: 0 <= a < k ==> T[a] < J[|L|]
    requires forall a :: k <= a < |T| ==> T[a] >= J[|L|]
    ensures Ranked(J, L + [k + 1])
  {
    var i := |L|;
    var L' := L + [k + 1];
    assert forall p :: 0 <= p < i ==> L'[p] == L[p];
    forall q | 0 <= q < |L'| && L'[q] > 1 ensures HasPredecessor(J, L', q) {
      if q < i {
        assert HasPredecessor(J, L, q);
        var p :| 0 <= p < q && L[p] + 1 == L[q] && J[p] < J[q];
        assert L'[p] + 1 == L'[q];
      } else {
        assert IsTail(J, L, k - 1, T[k - 1]);
        var p :| 0 <= p < |L| && L[p] == k - 1 + 1 && T[k - 1] == J[p];
        assert L'[p] + 1 == L'[q];
      }
    }
    forall p | 0 <= p < i && J[p] < J[i] ensures L'[p] < L'[i] {
      assert T[L[p] - 1] <= J[p];
    }
  }

  lemma TailsStep(J: seq<nat>, L: seq<nat>, T: seq<int>, f: nat, k: nat)
    requires |L| < |J| && J[|L|] < |J|
    requires Tails(J, L, T, f)
    requires k <= f && k < |T|
    requires forall a :: 0 <= a < k ==> T[a] < J[|L|]
    requires forall a :: k <= a < |T| ==> T[a] >= J[|L|]
    ensures Tails(J, L + [k + 1], T[k := J[|L|]], if k == f then f + 1 else f)
  {
    var i := |L|;
    var L', T', f' := L + [k + 1], T[k := J[i]], if k == f then f + 1 else f;
    forall a | 0 <= a < f' ensures IsTail(J, L', a, T'[a]) {
      if a == k {
        assert L'[i] == a + 1;
      } else {
        assert IsTail(J, L, a, T[a]);
        var p :| 0 <= p < |L| && L[p] == a + 1 && T[a] == J[p];
        assert L'[p] == a + 1;
      }
    }
  }

  lemma RanksArePositive(J: seq<nat>, L: seq<nat>)
    requires Ranked(J, L)
    ensures forall i :: 0 <= i < |L| ==> L[i] > 0
  {
  }

  lemma Predecessor(J: seq<nat>, L: seq<nat>, i: int) returns (p: int)
    requires Ranked(J, L) && 0 <= i < |L| && L[i] > 1
    ensures 0 <= p < i && L[p] + 1 == L[i] && J[p] < J[i]
  {
    assert HasPredecessor(J, L, i);
    p :| 0 <= p < i && L[p] + 1 == L[i] && J[p] < J[i];
  }

  lemma EqualRankDecreases(J: seq<nat>, L: seq<nat>, p: int, q: int)
    requires Distinct(J) && Ranked(J, L) && 0 <= p < q < |L| && L[p] == L[q]
    ensures J[p] > J[q]
  {
  }

  // ----- optimality -----

  ghost function Rank(xi: seq<nat>, a: int): (i: int)
    requires a in xi
    ensures 0 <= i < |xi| && xi[i] == a
  {
    var i :| 0 <= i < |xi| && xi[i] == a; i
  }

  /** Along any chain the ranks grow, so a chain of length t + 1 ends in rank above t. */
  lemma {:induction false} ChainRank(x: seq<Line>, y: seq<Line>, xi: seq<nat>, yi: seq<nat>, J: seq<nat>,
                                     L: seq<nat>, c: seq<Pair>, t: nat)
    requires AnchorIndex(x, y, xi, yi, J) && Ranked(J, L) && |L| == |J|
    requires AnchorChain(x, y, c) && t < |c|
    ensures c[t].x in xi && L[Rank(xi, c[t].x)] >= t + 1
  {
    AnchorIndexed(x, y, xi, yi, J, c[t]);
    if t > 0 {
      ChainRank(x, y, xi, yi, J, L, c, t - 1);
      AnchorIndexed(x, y, xi, yi, J, c[t - 1]);
    }
  }

  lemma AnchorIndexed(x: seq<Line>, y: seq<Line>, xi: seq<nat>, yi: seq<nat>, J: seq<nat>, p: Pair)
    requires AnchorIndex(x, y, xi, yi, J) && Anchor(x, y, p)
    ensures p.x in xi && p.y == yi[J[Rank(xi, p.x)]]
  {
    assert OnceInBoth(x, y, x[p.x]);
    var i := Rank(xi, p.x);
    CountedOnce(y, p.y, yi[J[i]]);
  }

  lemma NoLongerChain(x: seq<Line>, y: seq<Line>, xi: seq<nat>, yi: seq<nat>, J: seq<nat>, L: seq<nat>, k: nat)
    requires AnchorIndex(x, y, xi, yi, J) && Ranked(J, L) && |L| == |J|
    requires forall i :: 0 <= i < |L| ==> L[i] <= k
    ensures forall c :: AnchorChain(x, y, c) ==> |c| <= k
  {
    forall c | AnchorChain(x, y, c) ensures |c| <= k {
      if c != [] {
        ChainRank(x, y, xi, yi, J, L, c, |c| - 1);
      }
    }
  }

  // ----- tgs -----

  /** The sentinels (0, 0) and (|x|, |y|) around a longest common subsequence of unique lines. */
  ghost predicate LongestAnchors(x: seq<Line>, y: seq<Line>, r: seq<Pair>) {
    && |r| >= 2 && r[0] == Pair(0, 0) && r[|r| - 1] == Pair(|x|, |y|)
    && AnchorChain(x, y, r[1..|r| - 1])
    && forall c :: AnchorChain(x, y, c) ==> |c| <= |r| - 2
  }

  method Tgs(x: seq<Line>, y: seq<Line>) returns (r: seq<Pair>)
    ensures LongestAnchors(x, y, r)
  {
    hide OnceInBoth, AtMostTwo, AnchorIndex, Ranked, AnchorChain;
    var counts := CountLines(x, y);
    TallyMeaning(x, y, counts);
    var m, yi := CollectY(x, y, counts);
    var xi, J := CollectX(x, y, m, yi);
    var n := |xi|;
    AnchorSizes(x, y, xi, yi, J);
    var L := Patience(J);

    var k := 0;
    ghost var best := 0;
    for i := 0 to n
      invariant 0 <= k
      invariant forall p :: 0 <= p < i ==> L[p] <= k
      invariant k > 0 ==> 0 <= best < n && L[best] == k
    {
      if k < L[i] {
        k, best := L[i], i;
      }
    }
    NoLongerChain(x, y, xi, yi, J, L[..], k);
    r := BackWalk(x, y, xi, yi, J, L[..], k, best);
  }

  lemma AnchorSizes(x: seq<Line>, y: seq<Line>, xi: seq<nat>, yi: seq<nat>, J: seq<nat>)
    requires AnchorIndex(x, y, xi, yi, J)
    ensures |xi| == |yi| == |J| && Distinct(J) && forall i :: 0 <= i < |J| ==> J[i] < |J|
  {
  }

  /** p is the pair of lines that index i stands for. */
  ghost predicate PairAt(xi: seq<nat>, yi: seq<nat>, J: seq<nat>, i: int, p: Pair) {
    |xi| == |yi| == |J| && 0 <= i < |J| && J[i] < |J| && p == Pair(xi[i], yi[J[i]])
  }

  /** Putting index i in front of a chain that starts at index pick. */
  lemma Prepend(x: seq<Line>, y: seq<Line>, xi: seq<nat>, yi: seq<nat>, J: seq<nat>,
                c: seq<Pair>, i: int, p: Pair, pick: int)
    requires AnchorIndex(x, y, xi, yi, J) && AnchorChain(x, y, c) && PairAt(xi, yi, J, i, p)
    requires c != [] ==> i < pick && PairAt(xi, yi, J, pick, c[0]) && J[i] < J[pick]
    ensures AnchorChain(x, y, [p] + c)
  {
    assert Anchor(x, y, ([p] + c)[0]);
  }

  /** The state of the walk back to index i and rank k: chain holds the pairs placed so far,
      starting at index pick; ahead is an index of rank k that can precede pick. */
  ghost predicate Walk(x: seq<Line>, y: seq<Line>, xi: seq<nat>, yi: seq<nat>, J: seq<nat>, L: seq<nat>,
                       out: seq<Pair>, i: int, k: int, chain: seq<Pair>, pick: int, ahead: int)
  {
    && |J| == |L| && -1 <= i < |J|
    && k >= 0 && |chain| + k + 2 == |out| && out[|out| - 1] == Pair(|x|, |y|)
    && AnchorChain(x, y, chain)
    && (forall a :: 0 <= a < |chain| ==> out[k + 1 + a] == chain[a])
    && (chain != [] ==> i < pick && PairAt(xi, yi, J, pick, chain[0]))
    && (k > 0 ==> 0 <= ahead <= i && L[ahead] == k && (chain != [] ==> J[ahead] < J[pick]))
  }

  lemma WalkStart(x: seq<Line>, y: seq<Line>, xi: seq<nat>, yi: seq<nat>, J: seq<nat>, L: seq<nat>,
                  out: seq<Pair>, top: int, best: int)
    requires |J| == |L| && top >= 0 && |out| == top + 2 && out[top + 1] == Pair(|x|, |y|)
    requires top > 0 ==> 0 <= best < |J| && L[best] == top
    ensures Walk(x, y, xi, yi, J, L, out, |J| - 1, top, [], |J|, best)
  {
  }

  /** The element at ahead is at least the one at i, so i too can precede pick. */
  lemma CanPrecede(J: seq<nat>, L: seq<nat>, ahead: int, i: int)
    requires Distinct(J) && Ranked(J, L) && 0 <= ahead <= i < |L| && L[ahead] == L[i]
    ensures J[i] <= J[ahead]
  {
    if ahead < i {
      EqualRankDecreases(J, L, ahead, i);
    }
  }

  lemma WalkChain(x: seq<Line>, y: seq<Line>, xi: seq<nat>, yi: seq<nat>, J: seq<nat>, L: seq<nat>,
                  out: seq<Pair>, i: int, k: int, chain: seq<Pair>, pick: int, ahead: int, p: Pair)
    requires AnchorIndex(x, y, xi, yi, J) && Distinct(J) && Ranked(J, L)
    requires Walk(x, y, xi, yi, J, L, out, i, k, chain, pick, ahead)
    requires PairAt(xi, yi, J, i, p) && L[i] == k > 0
    ensures AnchorChain(x, y, [p] + chain)
  {
    CanPrecede(J, L, ahead, i);
    Prepend(x, y, xi, yi, J, chain, i, p, pick);
  }

  lemma WalkStep(x: seq<Line>, y: seq<Line>, xi: seq<nat>, yi: seq<nat>, J: seq<nat>, L: seq<nat>,
                 out: seq<Pair>, i: int, k: int, chain: seq<Pair>, pick: int, ahead: int, p: Pair)
    returns (ahead': int)
    requires AnchorIndex(x, y, xi, yi, J) && Distinct(J) && Ranked(J, L)
    requires Walk(x, y, xi, yi, J, L, out, i, k, chain, pick, ahead)
    requires PairAt(xi, yi, J, i, p) && L[i] == k > 0
    ensures Walk(x, y, xi, yi, J, L, out[k := p], i - 1, k - 1, [p] + chain, i, ahead')
  {
    hide Ranked, AnchorIndex, Distinct, AnchorChain;
    WalkChain(x, y, xi, yi, J, L, out, i, k, chain, pick, ahead, p);
    ahead' := 0;
    if k > 1 {
      ahead' := Predecessor(J, L, i);
    }
  }

  lemma WalkSkip(x: seq<Line>, y: seq<Line>, xi: seq<nat>, yi: seq<nat>, J: seq<nat>, L: seq<nat>,
                 out: seq<Pair>, i: int, k: int, chain: seq<Pair>, pick: int, ahead: int)
    requires Walk(x, y, xi, yi, J, L, out, i, k, chain, pick, ahead) && i >= 0 && L[i] != k
    ensures Walk(x, y, xi, yi, J, L, out, i - 1, k, chain, pick, ahead)
  {
  }

  lemma WalkEnd(x: seq<Line>, y: seq<Line>, xi: seq<nat>, yi: seq<nat>, J: seq<nat>, L: seq<nat>,
                out: seq<Pair>, k: int, chain: seq<Pair>, pick: int, ahead: int)
    requires Walk(x, y, xi, yi, J, L, out, -1, k, chain, pick, ahead)
    ensures k == 0 && out[|out| - 1] == Pair(|x|, |y|) && AnchorChain(x, y, out[1..|out| - 1])
  {
    assert out[1..|out| - 1] == chain;
  }

  /** Walks back from the last index of rank top, taking the next index of each lower rank.
      Nothing updates lastj; equal ranks have decreasing elements, so nothing needs to. */
  method BackWalk(x: seq<Line>, y: seq<Line>, xi: seq<nat>, yi: seq<nat>, J: seq<nat>, L: seq<nat>,
                  top: int, ghost best: int)
    returns (r: seq<Pair>)
    requires AnchorIndex(x, y, xi, yi, J) && |L| == |J| && Distinct(J) && Ranked(J, L)
    requires top >= 0 && (top > 0 ==> 0 <= best < |J| && L[best] == top)
    ensures |r| == top + 2 && r[0] == Pair(0, 0) && r[|r| - 1] == Pair(|x|, |y|)
    ensures AnchorChain(x, y, r[1..|r| - 1])
  {
    hide AnchorIndex, Distinct, Ranked, AnchorChain, Walk;
    AnchorSizes(x, y, xi, yi, J);
    RanksArePositive(J, L);
    var n, k := |J|, top;
    var out := seq(2 + k, _ => Pair(0, 0));
    out := out[1 + k := Pair(|x|, |y|)];
    var lastj := n;
    var i := n - 1;
    ghost var chain: seq<Pair>, pick, ahead := [], n, best;
    WalkStart(x, y, xi, yi, J, L, out, k, best);
    while i >= 0
      invariant -1 <= i < n && 0 <= k && |out| == top + 2 && k <= top
      invariant Walk(x, y, xi, yi, J, L, out, i, k, chain, pick, ahead)
    {
      if L[i] == k && J[i] < lastj {
        var p := Pair(xi[i], yi[J[i]]);
        ahead := WalkStep(x, y, xi, yi, J, L, out, i, k, chain, pick, ahead, p);
        chain, pick := [p] + chain, i;
        out := out[k := p];
        k := k - 1;
      } else {
        WalkSkip(x, y, xi, yi, J, L, out, i, k, chain, pick, ahead);
      }
      i := i - 1;
    }
    WalkEnd(x, y, xi, yi, J, L, out, k, chain, pick, ahead);
    r := out[0 := Pair(0, 0)];
    assert r[1..|r| - 1] == out[1..|out| - 1];
  }
}
