/** How a diff lines up two files: stretches of common lines around anchors, and the changes between them
    (formatter/diff.go). */
module Alignment {
  import opened Hunks
  import opened Tgs

  /** Number of context lines. */
  const CONTEXT := 3

  // ----- slices -----

  ghost predicate Within(s: seq<Line>, lo: int, hi: int) {
    0 <= lo <= hi <= |s|
  }

  /** x[a.x..b.x] is y[a.y..b.y]. */
  ghost predicate Common(x: seq<Line>, y: seq<Line>, a: Pair, b: Pair) {
    Within(x, a.x, b.x) && Within(y, a.y, b.y) && x[a.x..b.x] == y[a.y..b.y]
  }

  lemma SubSlice(s: seq<Line>, a: int, b: int, k: int, m: int)
    requires Within(s, a, b) && 0 <= k <= m <= b - a
    ensures s[a..b][k..m] == s[a + k..a + m]
  {
    var l, r := s[a..b][k..m], s[a + k..a + m];
    assert |l| == |r|;
    assert forall d :: 0 <= d < |l| ==> l[d] == s[a..b][k + d] == r[d];
    assert l == r;
  }

  lemma Glue(s: seq<Line>, a: int, b: int, c: int)
    requires Within(s, a, b) && Within(s, b, c)
    ensures s[a..b] + s[b..c] == s[a..c]
  {
  }

  lemma CommonShrinks(x: seq<Line>, y: seq<Line>, a: Pair, b: Pair, k: int, m: int)
    requires Common(x, y, a, b) && 0 <= k <= m <= b.x - a.x
    ensures Common(x, y, Pair(a.x + k, a.y + k), Pair(a.x + m, a.y + m))
  {
    SubSlice(x, a.x, b.x, k, m);
    SubSlice(y, a.y, b.y, k, m);
  }

  /** The lines at done differ, or one side has none left. */
  ghost predicate Parted(x: seq<Line>, y: seq<Line>, done: Pair) {
    && 0 <= done.x <= |x| && 0 <= done.y <= |y|
    && done != Pair(|x|, |y|)
    && (done.x < |x| && done.y < |y| ==> x[done.x] != y[done.y])
  }

  lemma CommonBounds(x: seq<Line>, y: seq<Line>, a: Pair, b: Pair)
    requires Common(x, y, a, b)
    ensures Within(x, a.x, b.x) && Within(y, a.y, b.y) && b.x - a.x == b.y - a.y
  {
    assert |x[a.x..b.x]| == |y[a.y..b.y]|;
  }

  lemma CommonFirst(x: seq<Line>, y: seq<Line>, a: Pair, b: Pair)
    requires Common(x, y, a, b)
    ensures a == b || (a.x < |x| && a.y < |y| && x[a.x] == y[a.y])
  {
    assert |x[a.x..b.x]| == |y[a.y..b.y]|;
    if a.x < b.x {
      assert x[a.x..b.x][0] == y[a.y..b.y][0];
    }
  }

  lemma CommonGlue(x: seq<Line>, y: seq<Line>, a: Pair, b: Pair, c: Pair)
    requires Common(x, y, a, b) && Common(x, y, b, c)
    ensures Common(x, y, a, c)
  {
    assert |x[a.x..b.x]| == |y[a.y..b.y]| && |x[b.x..c.x]| == |y[b.y..c.y]|;
    Glue(x, a.x, b.x, c.x);
    Glue(y, a.y, b.y, c.y);
  }

  lemma {:induction false} OldSideConcat(a: seq<Edit>, b: seq<Edit>)
    ensures OldSide(a + b) == OldSide(a) + OldSide(b)
  {
    if a == [] {
      assert a + b == b;
    } else {
      OldSideConcat(a[1..], b);
      assert (a + b)[0] == a[0] && (a + b)[1..] == a[1..] + b;
      assert [a[0].text] + OldSide(a[1..]) + OldSide(b) == [a[0].text] + (OldSide(a[1..]) + OldSide(b));
    }
  }

  lemma {:induction false} NewSideConcat(a: seq<Edit>, b: seq<Edit>)
    ensures NewSide(a + b) == NewSide(a) + NewSide(b)
  {
    if a == [] {
      assert a + b == b;
    } else {
      NewSideConcat(a[1..], b);
      assert (a + b)[0] == a[0] && (a + b)[1..] == a[1..] + b;
      assert [a[0].text] + NewSide(a[1..]) + NewSide(b) == [a[0].text] + (NewSide(a[1..]) + NewSide(b));
    }
  }

  function Dels(l: seq<Line>): (r: seq<Edit>)
    ensures |r| == |l| && forall i :: 0 <= i < |r| ==> r[i] == Del(l[i])
  {
    seq(|l|, i requires 0 <= i < |l| => Del(l[i]))
  }

  function Adds(l: seq<Line>): (r: seq<Edit>)
    ensures |r| == |l| && forall i :: 0 <= i < |r| ==> r[i] == Add(l[i])
  {
    seq(|l|, i requires 0 <= i < |l| => Add(l[i]))
  }

  function Keeps(l: seq<Line>): (r: seq<Edit>)
    ensures |r| == |l| && forall i :: 0 <= i < |r| ==> r[i] == Keep(l[i])
  {
    seq(|l|, i requires 0 <= i < |l| => Keep(l[i]))
  }

  lemma {:induction false} SidesOfRuns(l: seq<Line>)
    ensures OldSide(Dels(l)) == l && NewSide(Dels(l)) == []
    ensures OldSide(Adds(l)) == [] && NewSide(Adds(l)) == l
    ensures OldSide(Keeps(l)) == l && NewSide(Keeps(l)) == l
  {
    if l != [] {
      SidesOfRuns(l[1..]);
      assert Dels(l)[1..] == Dels(l[1..]);
      assert Adds(l)[1..] == Adds(l[1..]);
      assert Keeps(l)[1..] == Keeps(l[1..]);
      assert l == [l[0]] + l[1..];
    }
  }

  // ----- stretches of common lines -----

  /** Common lines from start to end. */
  datatype Stretch = Stretch(start: Pair, end: Pair)

  /** m lies on the stretch: as far behind its start in the one file as in the other. */
  predicate Holds(s: Stretch, m: Pair) {
    s.start.x <= m.x <= s.end.x && m.x - s.start.x == m.y - s.start.y
  }

  /** Between a stretch that ends at a and one that starts at b there are changes, and no line of them could have
      joined either: the lines at a differ, and so do those before b unless one side has no line there. */
  ghost predicate Tight(x: seq<Line>, y: seq<Line>, a: Pair, b: Pair) {
    && a != b && Within(x, a.x, b.x) && Within(y, a.y, b.y)
    && Parted(x, y, a) && (b.x == a.x || b.y == a.y || x[b.x - 1] != y[b.y - 1])
  }

  ghost predicate HoldsSome(ms: seq<Pair>, s: Stretch) {
    exists u :: 0 <= u < |ms| && Holds(s, ms[u])
  }

  ghost predicate Held(ss: seq<Stretch>, m: Pair) {
    exists i :: 0 <= i < |ss| && Holds(ss[i], m)
  }

  /** The stretches from the start of the files on: each of common lines around a match, the first t matches on
      them, and tight changes between them. */
  ghost predicate Path(x: seq<Line>, y: seq<Line>, ms: seq<Pair>, t: int, ss: seq<Stretch>) {
    && t <= |ms|
    && (forall i :: 0 <= i < |ss| ==> Common(x, y, ss[i].start, ss[i].end) && HoldsSome(ms, ss[i]))
    && (ss != [] ==> ss[0].start == Pair(0, 0))
    && (forall i :: 0 < i < |ss| ==> Tight(x, y, ss[i - 1].end, ss[i].start))
    && (forall i :: 0 < i < |ss| && ss[i].end != Pair(|x|, |y|) ==> ss[i].start != ss[i].end)
    && forall u :: 0 <= u < t ==> Held(ss, ms[u])
  }

  /** Where the stretches end. */
  function Done(ss: seq<Stretch>): Pair {
    if ss == [] then Pair(0, 0) else ss[|ss| - 1].end
  }

  /** The lines of both files up to the end of the stretches: common lines kept, and between the stretches the old
      lines deleted and then the new ones added. */
  function ScriptOf(x: seq<Line>, y: seq<Line>, ss: seq<Stretch>): seq<Edit> {
    if ss == [] then []
    else
      var less, s := ss[..|ss| - 1], ss[|ss| - 1];
      ScriptOf(x, y, less) + Dels(Slice(x, Done(less).x, s.start.x)) + Adds(Slice(y, Done(less).y, s.start.y))
      + Keeps(Slice(x, s.start.x, s.end.x))
  }

  function Slice(s: seq<Line>, a: int, b: int): seq<Line> {
    if 0 <= a <= b <= |s| then s[a..b] else []
  }

  /** The hunks with the common lines between and around them: what becomes of every line. */
  function Whole(x: seq<Line>, hs: seq<Hunk>): seq<Edit> {
    UpTo(x, hs) + Keeps(Slice(x, EndOf(hs).x, |x|))
  }

  function UpTo(x: seq<Line>, hs: seq<Hunk>): seq<Edit> {
    if hs == [] then []
    else
      var less, h := hs[..|hs| - 1], hs[|hs| - 1];
      UpTo(x, less) + Keeps(Slice(x, EndOf(less).x, Start(h.oldAt, h.oldCount))) + h.body
  }

  /** The pair of positions just after a hunk. */
  function End(h: Hunk): Pair {
    Pair(Start(h.oldAt, h.oldCount) + h.oldCount, Start(h.newAt, h.newCount) + h.newCount)
  }

  function EndOf(hs: seq<Hunk>): Pair {
    if hs == [] then Pair(0, 0) else End(hs[|hs| - 1])
  }

  // ----- what a script aligns -----

  /** The old line i is kept as the new line j. */
  ghost predicate Aligned(b: seq<Edit>, i: int, j: int) {
    exists k :: AlignedBy(b, k, i, j)
  }

  ghost predicate AlignedBy(b: seq<Edit>, k: int, i: int, j: int) {
    0 <= k < |b| && b[k].Keep? && |OldSide(b[..k])| == i && |NewSide(b[..k])| == j
  }

  /** b[from..to] is a block of changes with kept lines, or the ends of the files, around it. */
  ghost predicate Block(b: seq<Edit>, from: int, to: int) {
    && 0 <= from < to <= |b| && (from == 0 || b[from - 1].Keep?) && (to == |b| || b[to].Keep?)
    && forall k :: from <= k < to ==> !b[k].Keep?
  }

  /** Where a script has got in the two files after its first k lines. */
  function Reached(b: seq<Edit>, k: int): Pair
    requires 0 <= k <= |b|
  {
    Pair(|OldSide(b[..k])|, |NewSide(b[..k])|)
  }

  /** In every block of changes the deletions come first, no line of it could have been kept with the line at its
      start, and none with the line at its end. */
  ghost predicate BlocksDiffer(x: seq<Line>, y: seq<Line>, b: seq<Edit>) {
    forall from, to :: Block(b, from, to) ==>
      Tight(x, y, Reached(b, from), Reached(b, to)) && DeletedFirst(b[from..to])
  }

  ghost predicate DeletedFirst(b: seq<Edit>) {
    forall k, l :: 0 <= k < l < |b| ==> !(b[k].Add? && b[l].Del?)
  }

  /** The script keeps a longest common subsequence of the lines that are unique in both files, and every stretch of
      kept lines goes as far as it can around one of them or around an end of the files. */
  ghost predicate Anchored(x: seq<Line>, y: seq<Line>, b: seq<Edit>) {
    exists ms, ss ::
      && LongestAnchors(x, y, ms) && Path(x, y, ms, |ms|, ss) && Done(ss) == Pair(|x|, |y|)
      && b == ScriptOf(x, y, ss)
  }

  ghost predicate KeepsAnchors(x: seq<Line>, y: seq<Line>, b: seq<Edit>) {
    exists ms :: LongestAnchors(x, y, ms) && InnerAligned(b, ms)
  }

  ghost predicate InnerAligned(b: seq<Edit>, ms: seq<Pair>) {
    forall t :: 0 < t < |ms| - 1 ==> Aligned(b, ms[t].x, ms[t].y)
  }

  // ----- what a hunk shows -----

  ghost predicate AllKept(b: seq<Edit>) {
    forall k :: 0 <= k < |b| ==> b[k].Keep?
  }

  ghost predicate FirstChange(b: seq<Edit>, i: int) {
    0 <= i < |b| && !b[i].Keep? && forall k :: 0 <= k < i ==> b[k].Keep?
  }

  ghost predicate LastChange(b: seq<Edit>, j: int) {
    0 <= j < |b| && !b[j].Keep? && forall k :: j < k < |b| ==> b[k].Keep?
  }

  ghost predicate ChangeNear(b: seq<Edit>, k: int) {
    exists j :: 0 <= k <= j < k + 2 * CONTEXT && j < |b| && !b[j].Keep?
  }

  /** Nowhere are there 2 * CONTEXT common lines in a row. */
  ghost predicate Near(b: seq<Edit>) {
    forall k :: 0 <= k <= |b| - 2 * CONTEXT ==> ChangeNear(b, k)
  }

  /** A hunk shows CONTEXT common lines before its first change and after its last, fewer only at the start and at the
      end of the files, and fewer than 2 * CONTEXT in a row between its changes. */
  ghost predicate InContext(x: seq<Line>, y: seq<Line>, h: Hunk) {
    && Near(h.body)
    && (exists i :: FirstChange(h.body, i)
                    && (i == CONTEXT || (i < CONTEXT && Start(h.oldAt, h.oldCount) == Start(h.newAt, h.newCount) == 0)))
    && (exists j :: LastChange(h.body, j)
                    && (|h.body| - 1 - j == CONTEXT || (|h.body| - 1 - j < CONTEXT && End(h) == Pair(|x|, |y|))))
  }

  ghost predicate AllInContext(x: seq<Line>, y: seq<Line>, hs: seq<Hunk>) {
    forall k :: 0 <= k < |hs| ==> InContext(x, y, hs[k])
  }

  // ----- scripts of paths -----

  /** What follows the stretches but the last. */
  function Change(x: seq<Line>, y: seq<Line>, a: Pair, b: Pair): seq<Edit> {
    Dels(Slice(x, a.x, b.x)) + Adds(Slice(y, a.y, b.y))
  }

  lemma PathFirst(x: seq<Line>, y: seq<Line>, ms: seq<Pair>, t: int, ss: seq<Stretch>)
    requires Path(x, y, ms, t, ss) && ss != []
    ensures Path(x, y, ms, 0, ss[..|ss| - 1])
    ensures var a, s := Done(ss[..|ss| - 1]), ss[|ss| - 1];
            && Common(x, y, s.start, s.end) && Within(x, a.x, s.start.x) && Within(y, a.y, s.start.y)
            && (if |ss| == 1 then s.start == a else Tight(x, y, a, s.start))
  {
    hide Common, Tight, HoldsSome, Held;
    var less := ss[..|ss| - 1];
    if |ss| > 1 {
      assert less[|less| - 1] == ss[|ss| - 2];
      assert Tight(x, y, ss[|ss| - 1 - 1].end, ss[|ss| - 1].start);
      TightBounds(x, y, Done(less), ss[|ss| - 1].start);
    } else {
      CommonBounds(x, y, ss[0].start, ss[0].end);
    }
  }

  lemma TightBounds(x: seq<Line>, y: seq<Line>, a: Pair, b: Pair)
    requires Tight(x, y, a, b)
    ensures Within(x, a.x, b.x) && Within(y, a.y, b.y) && a != b
  {
  }

  lemma ScriptLast(x: seq<Line>, y: seq<Line>, ss: seq<Stretch>)
    requires ss != []
    ensures var less, s := ss[..|ss| - 1], ss[|ss| - 1];
            ScriptOf(x, y, ss)
            == ScriptOf(x, y, less) + Change(x, y, Done(less), s.start) + Keeps(Slice(x, s.start.x, s.end.x))
  {
    hide Slice;
    var less, s := ss[..|ss| - 1], ss[|ss| - 1];
    var a, d, e := ScriptOf(x, y, less), Dels(Slice(x, Done(less).x, s.start.x)),
        Adds(Slice(y, Done(less).y, s.start.y));
    assert a + d + e == a + (d + e);
  }

  lemma ChangeSides(x: seq<Line>, y: seq<Line>, a: Pair, b: Pair)
    requires Within(x, a.x, b.x) && Within(y, a.y, b.y)
    ensures OldSide(Change(x, y, a, b)) == x[a.x..b.x] && NewSide(Change(x, y, a, b)) == y[a.y..b.y]
    ensures |Change(x, y, a, b)| == b.x - a.x + (b.y - a.y)
    ensures DeletedFirst(Change(x, y, a, b))
            && forall k :: 0 <= k < |Change(x, y, a, b)| ==> !Change(x, y, a, b)[k].Keep?
  {
    hide OldSide, NewSide;
    SidesOfRuns(x[a.x..b.x]);
    SidesOfRuns(y[a.y..b.y]);
    OldSideConcat(Dels(x[a.x..b.x]), Adds(y[a.y..b.y]));
    NewSideConcat(Dels(x[a.x..b.x]), Adds(y[a.y..b.y]));
  }

  lemma KeepSides(x: seq<Line>, y: seq<Line>, a: Pair, b: Pair)
    requires Common(x, y, a, b)
    ensures var k := Keeps(Slice(x, a.x, b.x));
            && OldSide(k) == x[a.x..b.x] && NewSide(k) == y[a.y..b.y] && |k| == b.x - a.x == b.y - a.y
            && forall i :: 0 <= i < |k| ==> k[i].Keep?
  {
    CommonBounds(x, y, a, b);
    SidesOfRuns(x[a.x..b.x]);
  }

  /** A script takes both files up to where the stretches end. */
  lemma {:induction false} ScriptSides(x: seq<Line>, y: seq<Line>, ms: seq<Pair>, t: int, ss: seq<Stretch>)
    requires Path(x, y, ms, t, ss)
    ensures Within(x, 0, Done(ss).x) && Within(y, 0, Done(ss).y)
    ensures OldSide(ScriptOf(x, y, ss)) == x[..Done(ss).x] && NewSide(ScriptOf(x, y, ss)) == y[..Done(ss).y]
    decreases |ss|
  {
    hide Path, Common, Tight, OldSide, NewSide, Change, Slice, ScriptOf;
    if ss == [] {
      NoScript(x, y);
    } else {
      var less, s := ss[..|ss| - 1], ss[|ss| - 1];
      var a, script := Done(less), ScriptOf(x, y, less);
      PathFirst(x, y, ms, t, ss);
      ScriptSides(x, y, ms, 0, less);
      ScriptLast(x, y, ss);
      CommonBounds(x, y, s.start, s.end);
      ChangeSides(x, y, a, s.start);
      KeepSides(x, y, s.start, s.end);
      SidesGlue(x, y, script, a, Change(x, y, a, s.start), s.start);
      SidesGlue(x, y, script + Change(x, y, a, s.start), s.start, Keeps(Slice(x, s.start.x, s.end.x)), s.end);
    }
  }

  lemma NoScript(x: seq<Line>, y: seq<Line>)
    ensures OldSide(ScriptOf(x, y, [])) == x[..0] && NewSide(ScriptOf(x, y, [])) == y[..0]
  {
  }

  lemma SidesGlue(x: seq<Line>, y: seq<Line>, b: seq<Edit>, p: Pair, more: seq<Edit>, q: Pair)
    requires Within(x, p.x, q.x) && Within(y, p.y, q.y)
    requires OldSide(b) == x[..p.x] && NewSide(b) == y[..p.y]
    requires OldSide(more) == x[p.x..q.x] && NewSide(more) == y[p.y..q.y]
    ensures OldSide(b + more) == x[..q.x] && NewSide(b + more) == y[..q.y]
  {
    hide OldSide, NewSide;
    OldSideConcat(b, more);
    NewSideConcat(b, more);
    assert x[..q.x] == x[..p.x] + x[p.x..q.x] && y[..q.y] == y[..p.y] + y[p.y..q.y];
  }

  // ----- anchors are aligned -----

  lemma AlignedFront(b: seq<Edit>, more: seq<Edit>, i: int, j: int)
    requires Aligned(b, i, j)
    ensures Aligned(b + more, i, j)
  {
    hide OldSide, NewSide;
    var k :| AlignedBy(b, k, i, j);
    assert (b + more)[..k] == b[..k];
    assert AlignedBy(b + more, k, i, j);
  }

  /** A line of a stretch is kept. */
  lemma StretchAligned(x: seq<Line>, y: seq<Line>, b: seq<Edit>, s: Stretch, m: Pair)
    requires Common(x, y, s.start, s.end) && Holds(s, m) && m.x < s.end.x
    requires OldSide(b) == x[..s.start.x] && NewSide(b) == y[..s.start.y]
    ensures Aligned(b + Keeps(Slice(x, s.start.x, s.end.x)), m.x, m.y)
  {
    hide OldSide, NewSide;
    CommonBounds(x, y, s.start, s.end);
    var k, d := Keeps(Slice(x, s.start.x, s.end.x)), m.x - s.start.x;
    CommonShrinks(x, y, s.start, s.end, 0, d);
    KeepSides(x, y, s.start, m);
    assert k[..d] == Keeps(Slice(x, s.start.x, m.x));
    assert (b + k)[..|b| + d] == b + k[..d];
    OldSideConcat(b, k[..d]);
    NewSideConcat(b, k[..d]);
    assert AlignedBy(b + k, |b| + d, m.x, m.y);
  }

  /** Every line that a stretch holds before its end is kept. */
  lemma {:induction false} HeldAligned(x: seq<Line>, y: seq<Line>, ms: seq<Pair>, t: int, ss: seq<Stretch>, i: nat,
                                       m: Pair)
    requires Path(x, y, ms, t, ss) && i < |ss| && Holds(ss[i], m) && m.x < ss[i].end.x
    ensures Aligned(ScriptOf(x, y, ss), m.x, m.y)
    decreases |ss|
  {
    hide Path, Common, Tight, OldSide, NewSide, Change, Slice, ScriptOf, Aligned;
    var less, s := ss[..|ss| - 1], ss[|ss| - 1];
    var a, script := Done(less), ScriptOf(x, y, less);
    PathFirst(x, y, ms, t, ss);
    ScriptLast(x, y, ss);
    var change, kept := Change(x, y, a, s.start), Keeps(Slice(x, s.start.x, s.end.x));
    if i < |ss| - 1 {
      HeldAligned(x, y, ms, 0, less, i, m);
      AlignedFront(script, change, m.x, m.y);
      AlignedFront(script + change, kept, m.x, m.y);
    } else {
      ScriptSides(x, y, ms, 0, less);
      ChangeSides(x, y, a, s.start);
      SidesGlue(x, y, script, a, change, s.start);
      StretchAligned(x, y, script + change, s, m);
    }
  }

  /** An anchor that a stretch holds is not just behind its end. */
  lemma AnchorInside(x: seq<Line>, y: seq<Line>, ms: seq<Pair>, t: int, ss: seq<Stretch>, i: nat, m: Pair)
    requires Path(x, y, ms, t, ss) && Done(ss) == Pair(|x|, |y|) && i < |ss| && Holds(ss[i], m) && Anchor(x, y, m)
    ensures m.x < ss[i].end.x
  {
    hide HoldsSome, Held;
    CommonBounds(x, y, ss[i].start, ss[i].end);
    if i < |ss| - 1 {
      assert Tight(x, y, ss[i + 1 - 1].end, ss[i + 1].start);
    }
  }

  /** The stretches keep every anchor of the longest chain. */
  lemma PathKeepsAnchors(x: seq<Line>, y: seq<Line>, ms: seq<Pair>, ss: seq<Stretch>)
    requires LongestAnchors(x, y, ms) && Path(x, y, ms, |ms|, ss) && Done(ss) == Pair(|x|, |y|)
    ensures InnerAligned(ScriptOf(x, y, ss), ms)
  {
    hide Aligned, ScriptOf, Path, Anchor, LongestAnchors;
    forall t | 0 < t < |ms| - 1 ensures Aligned(ScriptOf(x, y, ss), ms[t].x, ms[t].y) {
      var i := Holder(x, y, ms, ss, t);
      InnerAnchor(x, y, ms, t);
      AnchorInside(x, y, ms, |ms|, ss, i, ms[t]);
      HeldAligned(x, y, ms, |ms|, ss, i, ms[t]);
    }
  }

  lemma InnerAnchor(x: seq<Line>, y: seq<Line>, ms: seq<Pair>, t: int)
    requires LongestAnchors(x, y, ms) && 0 < t < |ms| - 1
    ensures Anchor(x, y, ms[t])
  {
    hide Anchor, Increasing;
    assert ms[1..|ms| - 1][t - 1] == ms[t];
  }

  lemma Holder(x: seq<Line>, y: seq<Line>, ms: seq<Pair>, ss: seq<Stretch>, t: nat) returns (i: nat)
    requires Path(x, y, ms, |ms|, ss) && t < |ms|
    ensures i < |ss| && Holds(ss[i], ms[t])
  {
    hide Common, Tight, HoldsSome;
    assert Held(ss, ms[t]);
    i :| 0 <= i < |ss| && Holds(ss[i], ms[t]);
  }

  // ----- blocks of changes are tight -----

  /** A block of what comes before a change is a block. */
  lemma BlockInFront(b: seq<Edit>, more: seq<Edit>, from: int, to: int)
    requires Block(b + more, from, to) && to < |b|
    ensures Block(b, from, to) && Reached(b + more, from) == Reached(b, from) && Reached(b + more, to) == Reached(b, to)
    ensures (b + more)[from..to] == b[from..to]
  {
    hide OldSide, NewSide;
    assert (b + more)[..from] == b[..from] && (b + more)[..to] == b[..to];
    assert (b + more)[to] == b[to];
    forall k | from <= k < to ensures !b[k].Keep? {
      assert (b + more)[k] == b[k];
    }
    if from > 0 {
      assert (b + more)[from - 1] == b[from - 1];
    }
  }

  /** Where the last change starts and ends. */
  lemma LastBlock(b: seq<Edit>, change: seq<Edit>, kept: seq<Edit>, from: int, to: int)
    requires Block(b + change + kept, from, to) && to > |b|
    requires (b == [] || b[|b| - 1].Keep?) && forall k :: 0 <= k < |kept| ==> kept[k].Keep?
    requires forall k :: 0 <= k < |change| ==> !change[k].Keep?
    ensures from == |b| && to == |b| + |change| && (b + change + kept)[from..to] == change
    ensures Reached(b + change + kept, from) == Reached(b + change, |b|)
    ensures Reached(b + change + kept, to) == Reached(b + change, |b| + |change|)
  {
    hide OldSide, NewSide;
    BlockPlace(b, change, kept, from, to);
    var all := b + change + kept;
    assert all[..from] == (b + change)[..from] && all[..to] == (b + change)[..to];
  }

  lemma BlockPlace(b: seq<Edit>, change: seq<Edit>, kept: seq<Edit>, from: int, to: int)
    requires Block(b + change + kept, from, to) && to > |b|
    requires (b == [] || b[|b| - 1].Keep?) && forall k :: 0 <= k < |kept| ==> kept[k].Keep?
    requires forall k :: 0 <= k < |change| ==> !change[k].Keep?
    ensures from == |b| && to == |b| + |change|
  {
    var all := b + change + kept;
    assert forall k :: 0 <= k < |all| ==>
        all[k] == if k < |b| then b[k] else if k < |b| + |change| then change[k - |b|] else kept[k - |b| - |change|];
    assert b != [] ==> all[|b| - 1].Keep?;
    assert to - 1 < |b| + |change| by {
      assert !all[to - 1].Keep?;
    }
    assert to < |all| ==> all[to].Keep?;
    assert from > 0 ==> all[from - 1].Keep?;
  }

  /** The kept lines at the end of a script, if any. */
  lemma ScriptEnd(x: seq<Line>, y: seq<Line>, ms: seq<Pair>, t: int, ss: seq<Stretch>)
    requires Path(x, y, ms, t, ss) && (ss != [] && Done(ss) == Pair(|x|, |y|) ==> |ss| == 1)
    ensures var b := ScriptOf(x, y, ss); b == [] || b[|b| - 1].Keep?
  {
    hide HoldsSome, Held, Tight;
    if ss != [] {
      var s := ss[|ss| - 1];
      ScriptLast(x, y, ss);
      KeepSides(x, y, s.start, s.end);
      if |ss| == 1 {
        assert ss[..0] == [] && ScriptOf(x, y, []) == [];
        assert Change(x, y, Pair(0, 0), Pair(0, 0)) == [];
      }
    }
  }

  lemma {:induction false} ScriptTight(x: seq<Line>, y: seq<Line>, ms: seq<Pair>, t: int, ss: seq<Stretch>)
    requires Path(x, y, ms, t, ss)
    ensures BlocksDiffer(x, y, ScriptOf(x, y, ss))
    decreases |ss|
  {
    hide Path, Common, Tight, OldSide, NewSide, Change, Slice, ScriptOf, Block, Reached, DeletedFirst, BlocksDiffer;
    if ss == [] {
      NoBlocks(x, y);
    } else {
      var less, s := ss[..|ss| - 1], ss[|ss| - 1];
      PathFirst(x, y, ms, t, ss);
      ScriptTight(x, y, ms, 0, less);
      LessIsShort(x, y, ms, t, ss);
      ScriptEnd(x, y, ms, 0, less);
      ScriptLast(x, y, ss);
      ScriptSides(x, y, ms, 0, less);
      ChangeSides(x, y, Done(less), s.start);
      KeepSides(x, y, s.start, s.end);
      NextTight(x, y, ScriptOf(x, y, less), Done(less), s.start, Keeps(Slice(x, s.start.x, s.end.x)), |ss| == 1);
    }
  }

  lemma NoBlocks(x: seq<Line>, y: seq<Line>)
    ensures BlocksDiffer(x, y, ScriptOf(x, y, []))
  {
    hide Tight, OldSide, NewSide;
  }

  /** Stretches before the last do not reach the ends of the files. */
  lemma LessIsShort(x: seq<Line>, y: seq<Line>, ms: seq<Pair>, t: int, ss: seq<Stretch>)
    requires Path(x, y, ms, t, ss) && ss != []
    ensures var less := ss[..|ss| - 1]; less != [] ==> Done(less) != Pair(|x|, |y|)
  {
    hide Common, HoldsSome, Held;
    if |ss| > 1 {
      assert Tight(x, y, ss[|ss| - 1 - 1].end, ss[|ss| - 1].start);
    }
  }

  lemma NextTight(x: seq<Line>, y: seq<Line>, b: seq<Edit>, p: Pair, q: Pair, kept: seq<Edit>, first: bool)
    requires BlocksDiffer(x, y, b) && (b == [] || b[|b| - 1].Keep?)
    requires Within(x, p.x, q.x) && Within(y, p.y, q.y) && (if first then p == q else Tight(x, y, p, q))
    requires OldSide(b) == x[..p.x] && NewSide(b) == y[..p.y]
    requires forall k :: 0 <= k < |kept| ==> kept[k].Keep?
    ensures BlocksDiffer(x, y, b + Change(x, y, p, q) + kept)
  {
    hide Tight, OldSide, NewSide, Change, DeletedFirst, Reached;
    var all := b + Change(x, y, p, q) + kept;
    forall from, to | Block(all, from, to)
      ensures Tight(x, y, Reached(all, from), Reached(all, to)) && DeletedFirst(all[from..to])
    {
      OneTight(x, y, b, p, q, kept, first, from, to);
    }
  }

  lemma OneTight(x: seq<Line>, y: seq<Line>, b: seq<Edit>, p: Pair, q: Pair, kept: seq<Edit>, first: bool, from: int,
                 to: int)
    requires BlocksDiffer(x, y, b) && (b == [] || b[|b| - 1].Keep?)
    requires Within(x, p.x, q.x) && Within(y, p.y, q.y) && (if first then p == q else Tight(x, y, p, q))
    requires OldSide(b) == x[..p.x] && NewSide(b) == y[..p.y]
    requires forall k :: 0 <= k < |kept| ==> kept[k].Keep?
    requires Block(b + Change(x, y, p, q) + kept, from, to)
    ensures var all := b + Change(x, y, p, q) + kept;
            && 0 <= from < to <= |all|
            && Tight(x, y, Reached(all, from), Reached(all, to)) && DeletedFirst(all[from..to])
  {
    hide *;
    BlockBounds(b + Change(x, y, p, q) + kept, from, to);
    if to < |b| {
      Regroup(b, Change(x, y, p, q), kept);
      EarlierTight(x, y, b, Change(x, y, p, q) + kept, from, to);
    } else {
      ChangeTight(x, y, b, p, q, kept, first, from, to);
    }
  }

  lemma Regroup(a: seq<Edit>, b: seq<Edit>, c: seq<Edit>)
    ensures a + b + c == a + (b + c)
  {
  }

  lemma EarlierTight(x: seq<Line>, y: seq<Line>, b: seq<Edit>, more: seq<Edit>, from: int, to: int)
    requires BlocksDiffer(x, y, b) && Block(b + more, from, to) && to < |b|
    ensures 0 <= from < to <= |b + more|
    ensures Tight(x, y, Reached(b + more, from), Reached(b + more, to)) && DeletedFirst((b + more)[from..to])
  {
    hide *;
    BlockBounds(b + more, from, to);
    BlockInFront(b, more, from, to);
    BlockTight(x, y, b, from, to);
  }

  lemma ChangeTight(x: seq<Line>, y: seq<Line>, b: seq<Edit>, p: Pair, q: Pair, kept: seq<Edit>, first: bool,
                    from: int, to: int)
    requires Within(x, p.x, q.x) && Within(y, p.y, q.y) && (if first then p == q else Tight(x, y, p, q))
    requires (b == [] || b[|b| - 1].Keep?) && OldSide(b) == x[..p.x] && NewSide(b) == y[..p.y]
    requires forall k :: 0 <= k < |kept| ==> kept[k].Keep?
    requires Block(b + Change(x, y, p, q) + kept, from, to) && to >= |b|
    ensures var all := b + Change(x, y, p, q) + kept;
            && 0 <= from < to <= |all|
            && Tight(x, y, Reached(all, from), Reached(all, to)) && DeletedFirst(all[from..to])
  {
    hide *;
    var change := Change(x, y, p, q);
    BlockBounds(b + change + kept, from, to);
    ChangeSides(x, y, p, q);
    Regroup(b, change, kept);
    EndsInside(b, change + kept, from, to);
    LastBlock(b, change, kept, from, to);
    ChangeReached(x, y, b, p, q);
    SomeChange(x, y, p, q, first, |change|);
  }

  lemma SomeChange(x: seq<Line>, y: seq<Line>, p: Pair, q: Pair, first: bool, n: nat)
    requires Within(x, p.x, q.x) && Within(y, p.y, q.y) && (if first then p == q else Tight(x, y, p, q))
    requires n == q.x - p.x + (q.y - p.y)
    ensures n > 0 ==> Tight(x, y, p, q)
  {
  }

  lemma BlockBounds(b: seq<Edit>, from: int, to: int)
    requires Block(b, from, to)
    ensures 0 <= from < to <= |b|
  {
  }

  lemma BlockTight(x: seq<Line>, y: seq<Line>, b: seq<Edit>, from: int, to: int)
    requires BlocksDiffer(x, y, b) && Block(b, from, to)
    ensures Tight(x, y, Reached(b, from), Reached(b, to)) && DeletedFirst(b[from..to])
  {
    hide Tight, Reached, DeletedFirst;
  }

  lemma ChangeReached(x: seq<Line>, y: seq<Line>, b: seq<Edit>, p: Pair, q: Pair)
    requires Within(x, p.x, q.x) && Within(y, p.y, q.y) && OldSide(b) == x[..p.x] && NewSide(b) == y[..p.y]
    ensures var all := b + Change(x, y, p, q); Reached(all, |b|) == p && Reached(all, |all|) == q
  {
    hide OldSide, NewSide, Change;
    var all := b + Change(x, y, p, q);
    ChangeSides(x, y, p, q);
    SidesGlue(x, y, b, p, Change(x, y, p, q), q);
    assert all[..|b|] == b && all[..|all|] == all;
  }

  /** No block ends where kept lines end. */
  lemma EndsInside(b: seq<Edit>, more: seq<Edit>, from: int, to: int)
    requires Block(b + more, from, to) && to >= |b| && (b == [] || b[|b| - 1].Keep?)
    ensures to > |b|
  {
    hide OldSide, NewSide;
    assert b != [] ==> (b + more)[|b| - 1] == b[|b| - 1];
  }

  /** What an anchored script is, line by line. */
  lemma AnchoredIs(x: seq<Line>, y: seq<Line>, b: seq<Edit>)
    requires Anchored(x, y, b)
    ensures OldSide(b) == x && NewSide(b) == y && KeepsAnchors(x, y, b) && BlocksDiffer(x, y, b)
  {
    hide LongestAnchors, Path, ScriptOf, OldSide, NewSide, BlocksDiffer, InnerAligned, Done;
    var ms, ss :| LongestAnchors(x, y, ms) && Path(x, y, ms, |ms|, ss) && Done(ss) == Pair(|x|, |y|)
        && b == ScriptOf(x, y, ss);
    ScriptSides(x, y, ms, |ms|, ss);
    ScriptTight(x, y, ms, |ms|, ss);
    PathKeepsAnchors(x, y, ms, ss);
    assert x[..|x|] == x && y[..|y|] == y;
  }
}
