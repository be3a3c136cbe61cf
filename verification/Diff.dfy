/** Anchored diff in unified form (formatter/diff.go). */
module Diff {
  import opened Alignment
  import opened Hunks
  import opened Tgs
  import opened Wrappers

  // ----- chunks under construction -----

  /** ctext turns x[chunk.x..done.x] into y[chunk.y..done.y], and count counts its sides. */
  ghost predicate Chunk(x: seq<Line>, y: seq<Line>, chunk: Pair, done: Pair, count: Pair, ctext: seq<Edit>) {
    && Within(x, chunk.x, done.x) && Within(y, chunk.y, done.y)
    && OldSide(ctext) == x[chunk.x..done.x] && NewSide(ctext) == y[chunk.y..done.y]
    && count == Pair(done.x - chunk.x, done.y - chunk.y)
  }

  /** Appending to a chunk lines that take both sides from done to next. */
  lemma ChunkGrows(x: seq<Line>, y: seq<Line>, chunk: Pair, done: Pair, count: Pair, ctext: seq<Edit>,
                   more: seq<Edit>, next: Pair)
    requires Chunk(x, y, chunk, done, count, ctext)
    requires Within(x, done.x, next.x) && Within(y, done.y, next.y)
    requires OldSide(more) == x[done.x..next.x] && NewSide(more) == y[done.y..next.y]
    ensures Chunk(x, y, chunk, next, Pair(count.x + (next.x - done.x), count.y + (next.y - done.y)), ctext + more)
  {
    hide OldSide, NewSide;
    OldSideConcat(ctext, more);
    NewSideConcat(ctext, more);
    Glue(x, chunk.x, done.x, next.x);
    Glue(y, chunk.y, done.y, next.y);
  }

  lemma MismatchGrows(x: seq<Line>, y: seq<Line>, chunk: Pair, done: Pair, count: Pair, ctext: seq<Edit>, start: Pair)
    requires Chunk(x, y, chunk, done, count, ctext)
    requires Within(x, done.x, start.x) && Within(y, done.y, start.y)
    ensures Chunk(x, y, chunk, start, Pair(count.x + (start.x - done.x), count.y + (start.y - done.y)),
                  ctext + Dels(x[done.x..start.x]) + Adds(y[done.y..start.y]))
  {
    hide Chunk, OldSide, NewSide;
    var dels, adds := Dels(x[done.x..start.x]), Adds(y[done.y..start.y]);
    SidesOfRuns(x[done.x..start.x]);
    SidesOfRuns(y[done.y..start.y]);
    OldSideConcat(dels, adds);
    NewSideConcat(dels, adds);
    ChunkGrows(x, y, chunk, done, count, ctext, dels + adds, start);
    assert ctext + dels + adds == ctext + (dels + adds);
  }

  lemma CommonGrows(x: seq<Line>, y: seq<Line>, chunk: Pair, done: Pair, count: Pair, ctext: seq<Edit>, end: Pair)
    requires Chunk(x, y, chunk, done, count, ctext)
    requires Common(x, y, done, end)
    ensures Chunk(x, y, chunk, end, Pair(count.x + (end.x - done.x), count.y + (end.x - done.x)),
                  ctext + Keeps(x[done.x..end.x]))
  {
    hide Chunk, OldSide, NewSide;
    SidesOfRuns(x[done.x..end.x]);
    assert |x[done.x..end.x]| == |y[done.y..end.y]|;
    ChunkGrows(x, y, chunk, done, count, ctext, Keeps(x[done.x..end.x]), end);
  }

  // ----- hunks emitted so far -----

  /** The lines between e and the hunk are common, and the hunk's body is what its header says. */
  ghost predicate FitsAfter(x: seq<Line>, y: seq<Line>, e: Pair, h: Hunk) {
    var s := Pair(Start(h.oldAt, h.oldCount), Start(h.newAt, h.newCount));
    Common(x, y, e, s) && Chunk(x, y, s, End(h), Pair(h.oldCount, h.newCount), h.body)
  }

  ghost predicate HunksFit(x: seq<Line>, y: seq<Line>, hs: seq<Hunk>) {
    hs == [] || (HunksFit(x, y, hs[..|hs| - 1]) && FitsAfter(x, y, EndOf(hs[..|hs| - 1]), hs[|hs| - 1]))
  }

  lemma {:induction false} FitsAt(x: seq<Line>, y: seq<Line>, hs: seq<Hunk>, k: nat)
    requires HunksFit(x, y, hs) && k < |hs|
    ensures FitsAfter(x, y, EndOf(hs[..k]), hs[k])
  {
    if k < |hs| - 1 {
      FitsAt(x, y, hs[..|hs| - 1], k);
      assert hs[..|hs| - 1][..k] == hs[..k];
    }
  }

  lemma PatchEnd(x: seq<Line>, y: seq<Line>, e: Pair)
    requires Common(x, y, e, Pair(|x|, |y|))
    ensures y[..e.y] + x[e.x..] == y
  {
    assert x[e.x..] == x[e.x..|x|] && y[e.y..] == y[e.y..|y|];
    assert y == y[..e.y] + y[e.y..];
  }

  lemma {:induction false} PatchFrom(x: seq<Line>, y: seq<Line>, hs: seq<Hunk>, k: nat)
    requires HunksFit(x, y, hs) && k <= |hs| && Common(x, y, EndOf(hs), Pair(|x|, |y|))
    requires Within(x, EndOf(hs[..k]).x, |x|) && Within(y, EndOf(hs[..k]).y, |y|)
    ensures ApplyFrom(x, EndOf(hs[..k]).x, y[..EndOf(hs[..k]).y], hs[k..]) == Some(y)
    decreases |hs| - k
  {
    hide HunksFit, FitsAfter, OldSide, NewSide, Common, End;
    var e := EndOf(hs[..k]);
    if k == |hs| {
      assert hs[..k] == hs;
      PatchEnd(x, y, e);
    } else {
      var h := hs[k];
      FitsAt(x, y, hs, k);
      PatchStep(x, y, e, h);
      assert hs[..k + 1][k] == h;
      PatchFrom(x, y, hs, k + 1);
      assert hs[k..][0] == h && hs[k..][1..] == hs[k + 1..];
    }
  }

  lemma PatchStep(x: seq<Line>, y: seq<Line>, e: Pair, h: Hunk)
    requires FitsAfter(x, y, e, h)
    ensures var s := Start(h.oldAt, h.oldCount);
            && e.x <= s && s + |OldSide(h.body)| == End(h).x <= |x| && 0 <= End(h).y <= |y|
            && x[s..s + |OldSide(h.body)|] == OldSide(h.body)
            && h.oldCount == |OldSide(h.body)| && h.newCount == |NewSide(h.body)|
            && Start(h.newAt, h.newCount) == |y[..e.y]| + (s - e.x)
            && y[..e.y] + x[e.x..s] + NewSide(h.body) == y[..End(h).y]
  {
    var s := Pair(Start(h.oldAt, h.oldCount), Start(h.newAt, h.newCount));
    assert |x[e.x..s.x]| == |y[e.y..s.y]|;
    assert y[..e.y] == y[0..e.y] && y[..End(h).y] == y[0..End(h).y];
    Glue(y, 0, e.y, s.y);
    Glue(y, 0, s.y, End(h).y);
  }

  // ----- the other direction -----

  lemma {:induction false} FlipSides(b: seq<Edit>)
    ensures OldSide(FlipBody(b)) == NewSide(b) && NewSide(FlipBody(b)) == OldSide(b)
  {
    if b != [] {
      FlipSides(b[1..]);
      assert FlipBody(b)[1..] == FlipBody(b[1..]);
    }
  }

  function Swap(p: Pair): Pair {
    Pair(p.y, p.x)
  }

  lemma FlipFits(x: seq<Line>, y: seq<Line>, e: Pair, h: Hunk)
    requires FitsAfter(x, y, e, h)
    ensures FitsAfter(y, x, Swap(e), Flip(h)) && End(Flip(h)) == Swap(End(h))
  {
    FlipSides(h.body);
  }

  lemma {:induction false} ReversedFits(x: seq<Line>, y: seq<Line>, hs: seq<Hunk>)
    requires HunksFit(x, y, hs)
    ensures HunksFit(y, x, Reversed(hs)) && EndOf(Reversed(hs)) == Swap(EndOf(hs))
  {
    hide FitsAfter, End, Flip;
    if hs != [] {
      var init, h := hs[..|hs| - 1], hs[|hs| - 1];
      ReversedFits(x, y, init);
      FlipFits(x, y, EndOf(init), h);
      assert Reversed(hs)[..|hs| - 1] == Reversed(init);
    }
  }

  // ----- the main loop -----

  /** No match still to come lies above done but left of it. */
  ghost predicate NoneCrosses(ms: seq<Pair>, t: int, done: Pair) {
    forall u :: 0 <= t <= u < |ms| && ms[u].x >= done.x ==> ms[u].y >= done.y
  }

  lemma MatchBounds(x: seq<Line>, y: seq<Line>, ms: seq<Pair>, t: int)
    requires LongestAnchors(x, y, ms) && 0 <= t < |ms|
    ensures 0 <= ms[t].x <= |x| && 0 <= ms[t].y <= |y|
    ensures 0 < t < |ms| - 1 ==> Anchor(x, y, ms[t])
  {
    if 0 < t < |ms| - 1 {
      assert ms[1..|ms| - 1][t - 1] == ms[t];
    }
  }

  /** A stretch of common lines from a match is not crossed by a later match, because the
      later match's line is unique in x. */
  lemma StretchNotCrossed(x: seq<Line>, y: seq<Line>, ms: seq<Pair>, t: int, end: Pair)
    requires LongestAnchors(x, y, ms) && 0 <= t < |ms| && Common(x, y, ms[t], end)
    ensures NoneCrosses(ms, t + 1, end)
  {
    forall u | t + 1 <= u < |ms| && ms[u].x >= end.x ensures ms[u].y >= end.y {
      var c, m, a := ms[1..|ms| - 1], ms[t], ms[u];
      if u < |ms| - 1 && a.y < end.y {
        MatchBounds(x, y, ms, u);
        assert a == c[u - 1] && (t > 0 ==> m == c[t - 1]);
        var d := a.y - m.y;
        assert x[m.x..end.x][d] == y[m.y..end.y][d];
        CountedOnce(x, a.x, m.x + d);
      }
    }
  }

  /** A chunk begins with CONTEXT common lines, or fewer at the start of the files. */
  ghost predicate Leads(chunk: Pair, n: int) {
    n == CONTEXT || (0 <= n < CONTEXT && chunk == Pair(0, 0))
  }

  /** ctext holds nothing yet but the common lines a chunk begins with, or starts its changes after them. */
  ghost predicate Lead(chunk: Pair, ctext: seq<Edit>) {
    Near(ctext) && ((AllKept(ctext) && Leads(chunk, |ctext|)) || Begun(chunk, ctext))
  }

  ghost predicate Begun(chunk: Pair, ctext: seq<Edit>) {
    exists i :: FirstChange(ctext, i) && Leads(chunk, i)
  }

  /** The variables of the loop, with the hunks written so far. */
  datatype Scan = Scan(done: Pair, chunk: Pair, count: Pair, ctext: seq<Edit>, hs: seq<Hunk>)

  ghost predicate State(x: seq<Line>, y: seq<Line>, ms: seq<Pair>, t: int, s: Scan) {
    && Chunk(x, y, s.chunk, s.done, s.count, s.ctext) && Lead(s.chunk, s.ctext)
    && Written(x, y, s.hs, s.chunk)
    && NoneCrosses(ms, t, s.done)
    && (s.ctext == [] ==> s.done == Pair(0, 0) && s.hs == [])
    && (if t == 0 then s.ctext == [] else Parted(x, y, s.done))
  }

  /** The hunks written turn x[..e.x] into y[..e.y], counting the common lines up to e. */
  ghost predicate Written(x: seq<Line>, y: seq<Line>, hs: seq<Hunk>, e: Pair) {
    HunksFit(x, y, hs) && AllInContext(x, y, hs) && Common(x, y, EndOf(hs), e)
  }

  method ExpandBack(x: seq<Line>, y: seq<Line>, m: Pair, done: Pair) returns (start: Pair)
    requires 0 <= done.x <= m.x <= |x| && 0 <= done.y <= m.y <= |y|
    ensures done.x <= start.x && done.y <= start.y && Common(x, y, start, m)
    ensures start.x == done.x || start.y == done.y || x[start.x - 1] != y[start.y - 1]
  {
    start := m;
    while start.x > done.x && start.y > done.y && x[start.x - 1] == y[start.y - 1]
      invariant done.x <= start.x && done.y <= start.y && Common(x, y, start, m)
      decreases start.x
    {
      start := Pair(start.x - 1, start.y - 1);
      assert x[start.x..m.x] == [x[start.x]] + x[start.x + 1..m.x];
      assert y[start.y..m.y] == [y[start.y]] + y[start.y + 1..m.y];
    }
  }

  method ExpandForward(x: seq<Line>, y: seq<Line>, m: Pair) returns (end: Pair)
    requires 0 <= m.x <= |x| && 0 <= m.y <= |y|
    ensures Common(x, y, m, end)
    ensures end == Pair(|x|, |y|) || Parted(x, y, end)
  {
    end := m;
    while end.x < |x| && end.y < |y| && x[end.x] == y[end.y]
      invariant Common(x, y, m, end)
      decreases |x| - end.x
    {
      end := Pair(end.x + 1, end.y + 1);
      assert x[m.x..end.x] == x[m.x..end.x - 1] + [x[end.x - 1]];
      assert y[m.y..end.y] == y[m.y..end.y - 1] + [y[end.y - 1]];
    }
  }

  lemma Start0(x: seq<Line>, y: seq<Line>, ms: seq<Pair>)
    requires LongestAnchors(x, y, ms)
    ensures |ms| > 0 && State(x, y, ms, 0, Scan(Pair(0, 0), Pair(0, 0), Pair(0, 0), [], []))
  {
    forall u | 0 <= u < |ms| ensures ms[u].y >= 0 {
      MatchBounds(x, y, ms, u);
    }
  }

  lemma Ready(x: seq<Line>, y: seq<Line>, ms: seq<Pair>, t: int, s: Scan)
    requires LongestAnchors(x, y, ms) && 0 <= t < |ms| && State(x, y, ms, t, s)
    ensures 0 <= s.done.x <= |x| && 0 <= s.done.y <= |y| && 0 <= ms[t].x <= |x| && 0 <= ms[t].y <= |y|
    ensures ms[t].x >= s.done.x ==> ms[t].y >= s.done.y
    ensures t == |ms| - 1 ==> ms[t] == Pair(|x|, |y|)
    ensures ms[t].x < s.done.x ==> t + 1 < |ms| && State(x, y, ms, t + 1, s)
  {
    MatchBounds(x, y, ms, t);
  }

  /** From the second match on, the lines between done and the stretch around the match are
      not common, so there are changes to write. */
  lemma Changes(x: seq<Line>, y: seq<Line>, ms: seq<Pair>, t: int, done: Pair, start: Pair)
    requires LongestAnchors(x, y, ms) && 0 < t < |ms| && Parted(x, y, done)
    requires done.x <= start.x && done.y <= start.y && Common(x, y, start, ms[t])
    ensures start != done
  {
    MatchBounds(x, y, ms, t);
    CommonFirst(x, y, start, ms[t]);
  }

  /** ctext after the mismatched lines: with a change after its first lines and a change at its end. */
  ghost predicate Mismatched(chunk: Pair, ctext: seq<Edit>) {
    ctext != [] && !ctext[|ctext| - 1].Keep? && Near(ctext) && Begun(chunk, ctext)
  }

  lemma MismatchShape(x: seq<Line>, y: seq<Line>, chunk: Pair, ctext: seq<Edit>, done: Pair, start: Pair)
    requires Within(x, done.x, start.x) && Within(y, done.y, start.y) && Lead(chunk, ctext) && done != start
    ensures Mismatched(chunk, ctext + Dels(x[done.x..start.x]) + Adds(y[done.y..start.y]))
  {
    hide Near, AllKept, Leads;
    var more := Dels(x[done.x..start.x]) + Adds(y[done.y..start.y]);
    assert ctext + Dels(x[done.x..start.x]) + Adds(y[done.y..start.y]) == ctext + more;
    NearChanges(ctext, more);
    if Begun(chunk, ctext) {
      var i :| FirstChange(ctext, i) && Leads(chunk, i);
      FirstStays(ctext, more, i);
    } else {
      FirstIs(ctext, more);
    }
  }

  lemma FirstStays(ctext: seq<Edit>, more: seq<Edit>, i: int)
    requires FirstChange(ctext, i)
    ensures FirstChange(ctext + more, i)
  {
  }

  lemma FirstIs(ctext: seq<Edit>, more: seq<Edit>)
    requires AllKept(ctext) && more != [] && !more[0].Keep?
    ensures FirstChange(ctext + more, |ctext|)
  {
  }

  lemma NearChanges(ctext: seq<Edit>, more: seq<Edit>)
    requires Near(ctext) && forall k :: 0 <= k < |more| ==> !more[k].Keep?
    ensures Near(ctext + more)
  {
    var b := ctext + more;
    forall k | 0 <= k <= |b| - 2 * CONTEXT ensures ChangeNear(b, k) {
      if k + 2 * CONTEXT > |ctext| {
        assert !b[k + 2 * CONTEXT - 1].Keep?;
      } else {
        assert ChangeNear(ctext, k);
        var j :| k <= j < k + 2 * CONTEXT && j < |ctext| && !ctext[j].Keep?;
        assert !b[j].Keep?;
      }
    }
  }

  /** Fewer than 2 * CONTEXT common lines after a change. */
  lemma NearKeeps(ctext: seq<Edit>, l: seq<Line>)
    requires Near(ctext) && |l| < 2 * CONTEXT && (ctext == [] || !ctext[|ctext| - 1].Keep?)
    ensures Near(ctext + Keeps(l))
  {
    var b := ctext + Keeps(l);
    forall k | 0 <= k <= |b| - 2 * CONTEXT ensures ChangeNear(b, k) {
      if k + 2 * CONTEXT > |ctext| {
        assert !b[|ctext| - 1].Keep?;
      } else {
        assert ChangeNear(ctext, k);
        var j :| k <= j < k + 2 * CONTEXT && j < |ctext| && !ctext[j].Keep?;
        assert !b[j].Keep?;
      }
    }
  }

  /** A hunk ends with CONTEXT common lines, or fewer at the ends of the files. */
  lemma ContextEnd(x: seq<Line>, y: seq<Line>, chunk: Pair, count: Pair, ctext: seq<Edit>, l: seq<Line>)
    requires Mismatched(chunk, ctext)
    requires |l| == CONTEXT || (|l| < CONTEXT && Pair(chunk.x + count.x, chunk.y + count.y) == Pair(|x|, |y|))
    ensures InContext(x, y, HunkOf(chunk, count, ctext + Keeps(l)))
  {
    var b := ctext + Keeps(l);
    NearKeeps(ctext, l);
    var i :| FirstChange(ctext, i) && Leads(chunk, i);
    assert FirstChange(b, i) && LastChange(b, |ctext| - 1);
  }

  /** The loop after writing the mismatched lines of match t, between common lines
      from start to end. */
  ghost predicate Pending(x: seq<Line>, y: seq<Line>, ms: seq<Pair>, t: int, start: Pair, end: Pair, s: Scan) {
    && 0 <= t < |ms| && s.done == start
    && Chunk(x, y, s.chunk, start, s.count, s.ctext)
    && Written(x, y, s.hs, s.chunk) && Common(x, y, start, end)
    && NoneCrosses(ms, t + 1, end)
    && (if s.ctext == [] then start == Pair(0, 0) && s.hs == [] && t == 0 else Mismatched(s.chunk, s.ctext))
    && (end == Pair(|x|, |y|) || Parted(x, y, end))
    && (t == |ms| - 1 ==> end == Pair(|x|, |y|))
  }

  lemma ToPending(x: seq<Line>, y: seq<Line>, ms: seq<Pair>, t: int, s: Scan, start: Pair, end: Pair)
    requires LongestAnchors(x, y, ms) && 0 <= t < |ms| && State(x, y, ms, t, s)
    requires Common(x, y, start, ms[t]) && Common(x, y, ms[t], end)
    requires s.done.x <= start.x && s.done.y <= start.y
    requires end == Pair(|x|, |y|) || Parted(x, y, end)
    ensures Within(x, s.done.x, start.x) && Within(y, s.done.y, start.y)
    ensures Within(x, start.x, end.x) && end.y <= |y|
    ensures Pending(x, y, ms, t, start, end,
                    Scan(start, s.chunk, Pair(s.count.x + (start.x - s.done.x), s.count.y + (start.y - s.done.y)),
                         s.ctext + Dels(x[s.done.x..start.x]) + Adds(y[s.done.y..start.y]), s.hs))
  {
    hide Common, Chunk, Written, NoneCrosses, Lead, Mismatched, Parted, LongestAnchors;
    CommonBounds(x, y, start, ms[t]);
    ChunkBounds(x, y, s);
    MismatchGrows(x, y, s.chunk, s.done, s.count, s.ctext, start);
    CommonGlue(x, y, start, ms[t], end);
    CommonBounds(x, y, start, end);
    StretchNotCrossed(x, y, ms, t, end);
    Last(x, y, ms, t, end);
    if t > 0 {
      Changes(x, y, ms, t, s.done, start);
      MismatchShape(x, y, s.chunk, s.ctext, s.done, start);
      NotEmpty(s.chunk, s.ctext + Dels(x[s.done.x..start.x]) + Adds(y[s.done.y..start.y]));
    } else {
      First(x, y, ms, start);
      assert s.ctext + Dels(x[s.done.x..start.x]) + Adds(y[s.done.y..start.y]) == [];
    }
  }

  lemma NotEmpty(chunk: Pair, ctext: seq<Edit>)
    requires Mismatched(chunk, ctext)
    ensures ctext != []
  {
  }

  lemma ChunkBounds(x: seq<Line>, y: seq<Line>, s: Scan)
    requires Chunk(x, y, s.chunk, s.done, s.count, s.ctext)
    ensures Within(x, s.chunk.x, s.done.x) && Within(y, s.chunk.y, s.done.y)
    ensures s.count == Pair(s.done.x - s.chunk.x, s.done.y - s.chunk.y)
  {
  }

  lemma Last(x: seq<Line>, y: seq<Line>, ms: seq<Pair>, t: int, end: Pair)
    requires LongestAnchors(x, y, ms) && 0 <= t < |ms| && Common(x, y, ms[t], end)
    ensures t == |ms| - 1 ==> end == Pair(|x|, |y|)
  {
  }

  lemma First(x: seq<Line>, y: seq<Line>, ms: seq<Pair>, start: Pair)
    requires LongestAnchors(x, y, ms) && Common(x, y, start, ms[0])
    ensures start == Pair(0, 0)
  {
  }

  /** A short common stretch joins the chunk. */
  lemma JoinCommon(x: seq<Line>, y: seq<Line>, ms: seq<Pair>, t: int, s: Scan, start: Pair, end: Pair)
    requires Pending(x, y, ms, t, start, end, s) && end != Pair(|x|, |y|)
    requires end.x - start.x < CONTEXT || (s.ctext != [] && end.x - start.x < 2 * CONTEXT)
    ensures Within(x, start.x, end.x) && t + 1 < |ms|
    ensures State(x, y, ms, t + 1,
                  Scan(end, s.chunk, Pair(s.count.x + (end.x - start.x), s.count.y + (end.x - start.x)),
                       s.ctext + Keeps(x[start.x..end.x]), s.hs))
  {
    hide Chunk, Written, NoneCrosses, Common, Parted, Mismatched, Lead;
    CommonBounds(x, y, start, end);
    CommonGrows(x, y, s.chunk, start, s.count, s.ctext, end);
    ChunkBounds(x, y, s);
    LeadKept(s.chunk, s.ctext, x[start.x..end.x]);
    if s.ctext + Keeps(x[start.x..end.x]) == [] {
      assert s.ctext == [] && |Keeps(x[start.x..end.x])| == 0;
    }
  }

  lemma LeadKept(chunk: Pair, ctext: seq<Edit>, l: seq<Line>)
    requires if ctext == [] then |l| < CONTEXT && chunk == Pair(0, 0) else Mismatched(chunk, ctext) && |l| < 2 * CONTEXT
    ensures Lead(chunk, ctext + Keeps(l))
  {
    hide Near, Leads;
    NearKeeps(ctext, l) by {
      assert ctext == [] ==> Near(ctext) by { NothingNear(); }
    }
    if ctext != [] {
      var i :| FirstChange(ctext, i) && Leads(chunk, i);
      FirstStays(ctext, Keeps(l), i);
    } else {
      assert ctext + Keeps(l) == Keeps(l);
      ShortLead(chunk, |l|);
    }
  }

  lemma NothingNear()
    ensures Near([])
  {
  }

  lemma ShortLead(chunk: Pair, n: int)
    requires 0 <= n < CONTEXT && chunk == Pair(0, 0)
    ensures Leads(chunk, n)
  {
  }

  /** The hunk the code formats from a chunk and its counts. */
  function HunkOf(chunk: Pair, count: Pair, ctext: seq<Edit>): Hunk {
    Hunk(if count.x > 0 then chunk.x + 1 else chunk.x, count.x,
         if count.y > 0 then chunk.y + 1 else chunk.y, count.y, ctext)
  }

  lemma Emit(x: seq<Line>, y: seq<Line>, ms: seq<Pair>, t: int, s: Scan, start: Pair, end: Pair, n: int)
    requires Pending(x, y, ms, t, start, end, s) && s.ctext != []
    requires n == CONTEXT <= end.x - start.x || (0 <= n == end.x - start.x < CONTEXT && end == Pair(|x|, |y|))
    ensures Within(x, start.x, start.x + n)
    ensures var h := HunkOf(s.chunk, Pair(s.count.x + n, s.count.y + n), s.ctext + Keeps(x[start.x..start.x + n]));
            Written(x, y, s.hs + [h], end) && EndOf(s.hs + [h]) == Pair(start.x + n, start.y + n)
  {
    hide HunksFit, Mismatched, InContext, OldSide, NewSide;
    CommonBounds(x, y, start, end);
    var next := Pair(start.x + n, start.y + n);
    CommonShrinks(x, y, start, end, 0, n);
    CommonShrinks(x, y, start, end, n, end.x - start.x);
    CommonGrows(x, y, s.chunk, start, s.count, s.ctext, next);
    ContextEnd(x, y, s.chunk, Pair(s.count.x + n, s.count.y + n), s.ctext, x[start.x..next.x]);
    var ctext := s.ctext + Keeps(x[start.x..next.x]);
    Append(x, y, s.hs, s.chunk, next, Pair(s.count.x + n, s.count.y + n), ctext);
  }

  lemma Append(x: seq<Line>, y: seq<Line>, hs: seq<Hunk>, chunk: Pair, done: Pair, count: Pair, ctext: seq<Edit>)
    requires HunksFit(x, y, hs) && Common(x, y, EndOf(hs), chunk)
    requires Chunk(x, y, chunk, done, count, ctext)
    ensures HunksFit(x, y, hs + [HunkOf(chunk, count, ctext)])
    ensures EndOf(hs + [HunkOf(chunk, count, ctext)]) == done
  {
    hide OldSide, NewSide, Common;
    var h := HunkOf(chunk, count, ctext);
    assert (hs + [h])[..|hs|] == hs;
  }

  /** After the last hunk, a fresh chunk opens with the last CONTEXT common lines. */
  lemma OpenChunk(x: seq<Line>, y: seq<Line>, ms: seq<Pair>, t: int, hs: seq<Hunk>, end: Pair)
    requires Written(x, y, hs, end) && end.x - EndOf(hs).x >= CONTEXT && Parted(x, y, end)
    requires NoneCrosses(ms, t, end) && t > 0
    ensures Within(x, end.x - CONTEXT, end.x) && 0 <= EndOf(hs).x
    ensures State(x, y, ms, t,
                  Scan(end, Pair(end.x - CONTEXT, end.y - CONTEXT), Pair(CONTEXT, CONTEXT),
                       Keeps(x[end.x - CONTEXT..end.x]), hs))
  {
    hide HunksFit, NoneCrosses, Begun, AllInContext, Parted;
    var e, chunk := EndOf(hs), Pair(end.x - CONTEXT, end.y - CONTEXT);
    CommonBounds(x, y, e, end);
    CommonShrinks(x, y, e, end, 0, end.x - e.x - CONTEXT);
    CommonShrinks(x, y, e, end, end.x - e.x - CONTEXT, end.x - e.x);
    SidesOfRuns(x[chunk.x..end.x]);
  }

  /** What the loop holds when there was nothing to write: it is at the first match. */
  lemma NothingWritten(x: seq<Line>, y: seq<Line>, ms: seq<Pair>, t: int, s: Scan, start: Pair, end: Pair)
    requires Pending(x, y, ms, t, start, end, s) && s.ctext == []
    ensures Written(x, y, s.hs, end) && EndOf(s.hs) == start && s.count == Pair(0, 0)
    ensures s.hs == [] && s.chunk == start == Pair(0, 0)
  {
    hide NoneCrosses, Parted, HunksFit, AllInContext;
    CommonBounds(x, y, EndOf(s.hs), s.chunk);
  }

  lemma PendingEnd(x: seq<Line>, y: seq<Line>, ms: seq<Pair>, t: int, s: Scan, start: Pair, end: Pair)
    requires Pending(x, y, ms, t, start, end, s)
    ensures end != Pair(|x|, |y|) ==> Parted(x, y, end) && t + 1 < |ms| && NoneCrosses(ms, t + 1, end)
  {
    hide Chunk, Written, Common, NoneCrosses, Parted, Mismatched;
  }

  lemma NextText(hs: seq<Hunk>, h: Hunk)
    ensures HunksText(hs + [h]) == HunksText(hs) + (Header(h) + BodyText(h.body))
  {
    assert (hs + [h])[..|hs|] == hs;
  }

  lemma NoText()
    ensures HunksText([]) == ""
  {
  }

  /** Writes out the body of a chunk. */
  method WriteBody(ctext: seq<Edit>) returns (out: string)
    ensures out == BodyText(ctext)
  {
    out := "";
    for i := 0 to |ctext|
      invariant out + BodyText(ctext[i..]) == BodyText(ctext)
    {
      assert ctext[i..][1..] == ctext[i + 1..];
      assert out + ([Mark(ctext[i])] + ctext[i].text + BodyText(ctext[i + 1..]))
          == out + [Mark(ctext[i])] + ctext[i].text + BodyText(ctext[i + 1..]);
      out := out + [Mark(ctext[i])] + ctext[i].text;
    }
  }

  // ----- what the loop has aligned -----

  /** No match still to come lies before the last stretch. */
  ghost predicate StretchesBehind(ms: seq<Pair>, t: int, ss: seq<Stretch>) {
    ss != [] ==> forall u :: 0 <= t <= u < |ms| ==> ms[u].x >= ss[|ss| - 1].start.x
  }

  /** The loop has come along the stretches: the hunks written, the common lines up to the chunk and the chunk are
      their script. */
  ghost predicate Along(x: seq<Line>, y: seq<Line>, ms: seq<Pair>, t: int, s: Scan, ss: seq<Stretch>) {
    && Path(x, y, ms, t, ss) && Done(ss) == s.done && StretchesBehind(ms, t, ss) && (ss == [] <==> t == 0)
    && UpTo(x, s.hs) + Keeps(Slice(x, EndOf(s.hs).x, s.chunk.x)) + s.ctext == ScriptOf(x, y, ss)
  }

  lemma Along0(x: seq<Line>, y: seq<Line>, ms: seq<Pair>)
    ensures Along(x, y, ms, 0, Scan(Pair(0, 0), Pair(0, 0), Pair(0, 0), [], []), [])
  {
    hide Common, Tight, HoldsSome, Held;
    assert Slice(x, 0, 0) == [];
  }

  /** A match that an earlier stretch reaches lies on it, because its line is unique in y. */
  lemma OnStretch(x: seq<Line>, y: seq<Line>, ms: seq<Pair>, u: int, s: Stretch)
    requires LongestAnchors(x, y, ms) && 0 < u < |ms| - 1 && Common(x, y, s.start, s.end)
    requires s.start.x <= ms[u].x < s.end.x
    ensures Holds(s, ms[u])
  {
    MatchBounds(x, y, ms, u);
    CommonBounds(x, y, s.start, s.end);
    var m, d := ms[u], ms[u].x - s.start.x;
    assert x[s.start.x..s.end.x][d] == y[s.start.y..s.end.y][d];
    CountedOnce(y, m.y, s.start.y + d);
  }

  lemma HeldOnMore(x: seq<Line>, y: seq<Line>, ms: seq<Pair>, t: int, ss: seq<Stretch>)
    requires Path(x, y, ms, t, ss) && 0 <= t < |ms| && Held(ss, ms[t])
    ensures Path(x, y, ms, t + 1, ss)
  {
    hide Common, Tight, HoldsSome, Held;
  }

  lemma HeldByLast(ss: seq<Stretch>, m: Pair)
    requires ss != [] && Holds(ss[|ss| - 1], m)
    ensures Held(ss, m)
  {
  }

  lemma LastCommon(x: seq<Line>, y: seq<Line>, ms: seq<Pair>, t: int, ss: seq<Stretch>)
    requires Path(x, y, ms, t, ss) && ss != []
    ensures Common(x, y, ss[|ss| - 1].start, ss[|ss| - 1].end)
  {
    hide Common, Tight, HoldsSome, Held;
  }

  /** A match that is skipped is on the last stretch. */
  lemma SkippedIsHeld(x: seq<Line>, y: seq<Line>, ms: seq<Pair>, t: int, s: Scan, ss: seq<Stretch>)
    requires LongestAnchors(x, y, ms) && 0 <= t < |ms| - 1 && Along(x, y, ms, t, s, ss) && ms[t].x < s.done.x
    requires t == 0 ==> 0 <= ms[t].x
    ensures Along(x, y, ms, t + 1, s, ss)
  {
    hide Path, Common, Held, LongestAnchors, ScriptOf, UpTo;
    LastCommon(x, y, ms, t, ss);
    OnStretch(x, y, ms, t, ss[|ss| - 1]);
    HeldByLast(ss, ms[t]);
    HeldOnMore(x, y, ms, t, ss);
  }

  /** The next stretch goes on from the ones before. */
  lemma NextStretch(x: seq<Line>, y: seq<Line>, ms: seq<Pair>, t: int, s: Scan, ss: seq<Stretch>, start: Pair,
                    end: Pair)
    requires LongestAnchors(x, y, ms) && 0 <= t < |ms| && State(x, y, ms, t, s) && Along(x, y, ms, t, s, ss)
    requires Common(x, y, start, ms[t]) && Common(x, y, ms[t], end)
    requires s.done.x <= start.x && s.done.y <= start.y
    requires start.x == s.done.x || start.y == s.done.y || x[start.x - 1] != y[start.y - 1]
    requires end == Pair(|x|, |y|) || Parted(x, y, end)
    ensures Path(x, y, ms, t + 1, ss + [Stretch(start, end)]) && StretchesBehind(ms, t + 1, ss + [Stretch(start, end)])
  {
    hide State, LongestAnchors, Path, Along, Common, Parted, Held;
    var next := Stretch(start, end);
    CommonGlue(x, y, start, ms[t], end);
    CommonBounds(x, y, start, ms[t]);
    CommonBounds(x, y, ms[t], end);
    MatchHeld(x, y, ms, t, ss, next);
    StillBehind(x, y, ms, t, ss, next);
    if t == 0 {
      First(x, y, ms, start);
      FirstStretch(x, y, ms, s, ss, next);
    } else {
      StateParted(x, y, ms, t, s);
      Ready(x, y, ms, t, s);
      Changes(x, y, ms, t, s.done, start);
      assert Tight(x, y, s.done, start);
      StretchEnds(x, y, ms, t, start, end);
      OneMore(x, y, ms, t, s, ss, next);
    }
  }

  lemma StateParted(x: seq<Line>, y: seq<Line>, ms: seq<Pair>, t: int, s: Scan)
    requires State(x, y, ms, t, s) && t != 0
    ensures Parted(x, y, s.done)
  {
    hide Chunk, Written, NoneCrosses, Lead, Parted;
  }

  lemma MatchHeld(x: seq<Line>, y: seq<Line>, ms: seq<Pair>, t: int, ss: seq<Stretch>, next: Stretch)
    requires 0 <= t < |ms| && Common(x, y, next.start, ms[t]) && Common(x, y, ms[t], next.end)
    ensures HoldsSome(ms, next) && Held(ss + [next], ms[t])
  {
    CommonBounds(x, y, next.start, ms[t]);
    CommonBounds(x, y, ms[t], next.end);
    assert Holds((ss + [next])[|ss|], ms[t]);
  }

  lemma StillBehind(x: seq<Line>, y: seq<Line>, ms: seq<Pair>, t: int, ss: seq<Stretch>, next: Stretch)
    requires LongestAnchors(x, y, ms) && 0 <= t < |ms| && next.start.x <= ms[t].x
    ensures StretchesBehind(ms, t + 1, ss + [next])
  {
    forall u | t + 1 <= u < |ms| ensures ms[u].x >= next.start.x {
      MatchOrder(x, y, ms, t, u);
    }
  }

  lemma MatchOrder(x: seq<Line>, y: seq<Line>, ms: seq<Pair>, t: int, u: int)
    requires LongestAnchors(x, y, ms) && 0 <= t < u < |ms|
    ensures ms[t].x <= ms[u].x
  {
    MatchBounds(x, y, ms, t);
    MatchBounds(x, y, ms, u);
    if 0 < t && u < |ms| - 1 {
      var c := ms[1..|ms| - 1];
      assert c[t - 1] == ms[t] && c[u - 1] == ms[u];
    }
  }

  /** A stretch after the first is empty at the ends of the files only. */
  lemma StretchEnds(x: seq<Line>, y: seq<Line>, ms: seq<Pair>, t: int, start: Pair, end: Pair)
    requires LongestAnchors(x, y, ms) && 0 < t < |ms| && Common(x, y, start, ms[t]) && Common(x, y, ms[t], end)
    requires end == Pair(|x|, |y|) || Parted(x, y, end)
    ensures end != Pair(|x|, |y|) ==> start != end
  {
    MatchBounds(x, y, ms, t);
    CommonBounds(x, y, start, ms[t]);
    CommonBounds(x, y, ms[t], end);
  }

  lemma FirstStretch(x: seq<Line>, y: seq<Line>, ms: seq<Pair>, s: Scan, ss: seq<Stretch>, next: Stretch)
    requires Along(x, y, ms, 0, s, ss) && |ms| > 0
    requires Common(x, y, next.start, next.end) && next.start == Pair(0, 0) && HoldsSome(ms, next)
    requires Held(ss + [next], ms[0])
    ensures Path(x, y, ms, 1, ss + [next])
  {
    hide Common, Tight, HoldsSome, Held;
  }

  lemma OneMore(x: seq<Line>, y: seq<Line>, ms: seq<Pair>, t: int, s: Scan, ss: seq<Stretch>, next: Stretch)
    requires 0 < t < |ms| && Along(x, y, ms, t, s, ss) && HoldsSome(ms, next) && Held(ss + [next], ms[t])
    requires Common(x, y, next.start, next.end) && Tight(x, y, s.done, next.start)
    requires next.end != Pair(|x|, |y|) ==> next.start != next.end
    ensures Path(x, y, ms, t + 1, ss + [next])
  {
    hide Common, Tight, HoldsSome, Held, ScriptOf, UpTo, Slice;
    var more := ss + [next];
    forall u | 0 <= u < t + 1 ensures Held(more, ms[u]) {
      if u < t {
        HeldFront(ss, next, ms[u]);
      }
    }
    forall i | 0 < i < |more| ensures Tight(x, y, more[i - 1].end, more[i].start) {
      if i < |ss| {
        assert Tight(x, y, ss[i - 1].end, ss[i].start);
      }
    }
  }

  lemma HeldFront(ss: seq<Stretch>, next: Stretch, m: Pair)
    requires Held(ss, m)
    ensures Held(ss + [next], m)
  {
    var i :| 0 <= i < |ss| && Holds(ss[i], m);
    assert Holds((ss + [next])[i], m);
  }

  /** The script with a stretch more. */
  lemma ScriptGrows(x: seq<Line>, y: seq<Line>, ms: seq<Pair>, t: int, s: Scan, ss: seq<Stretch>, start: Pair,
                    end: Pair)
    requires Along(x, y, ms, t, s, ss) && Within(x, s.done.x, start.x) && Within(y, s.done.y, start.y)
    requires Within(x, start.x, end.x)
    ensures var ctext := s.ctext + Dels(x[s.done.x..start.x]) + Adds(y[s.done.y..start.y]);
            UpTo(x, s.hs) + Keeps(Slice(x, EndOf(s.hs).x, s.chunk.x)) + ctext + Keeps(x[start.x..end.x])
            == ScriptOf(x, y, ss + [Stretch(start, end)])
  {
    hide Path, UpTo, ScriptOf, EndOf;
    var more := ss + [Stretch(start, end)];
    ScriptLast(x, y, more);
    assert more[..|more| - 1] == ss;
    var a, b, c := UpTo(x, s.hs), Keeps(Slice(x, EndOf(s.hs).x, s.chunk.x)), s.ctext;
    var d, e := Dels(x[s.done.x..start.x]), Adds(y[s.done.y..start.y]);
    assert c + d + e == c + (d + e);
    Regroup(a + b, c, d + e);
  }

  /** A short stretch is written with the chunk. */
  lemma JoinAlong(x: seq<Line>, y: seq<Line>, hs: seq<Hunk>, chunk: Pair, ctext: seq<Edit>, start: Pair, end: Pair,
                  script: seq<Edit>)
    requires Within(x, start.x, end.x)
    requires UpTo(x, hs) + Keeps(Slice(x, EndOf(hs).x, chunk.x)) + ctext + Keeps(x[start.x..end.x]) == script
    ensures UpTo(x, hs) + Keeps(Slice(x, EndOf(hs).x, chunk.x)) + (ctext + Keeps(x[start.x..end.x])) == script
  {
    hide UpTo, EndOf, Slice;
  }

  lemma KeepsGlue(x: seq<Line>, a: int, b: int, c: int)
    requires Within(x, a, b) && Within(x, b, c)
    ensures Keeps(x[a..b]) + Keeps(x[b..c]) == Keeps(x[a..c])
  {
    Glue(x, a, b, c);
  }

  /** A hunk is emitted with the first n lines of a stretch, and the rest of the stretch follows it. */
  lemma EmitAlong(x: seq<Line>, y: seq<Line>, hs: seq<Hunk>, chunk: Pair, count: Pair, ctext: seq<Edit>, start: Pair,
                  end: Pair, n: int, script: seq<Edit>)
    requires Within(x, start.x, start.x + n) && Within(x, start.x + n, end.x)
    requires UpTo(x, hs) + Keeps(Slice(x, EndOf(hs).x, chunk.x)) + ctext + Keeps(x[start.x..end.x]) == script
    requires EndOf(hs + [HunkOf(chunk, count, ctext + Keeps(x[start.x..start.x + n]))]) ==
             Pair(start.x + n, start.y + n)
    ensures var more := hs + [HunkOf(chunk, count, ctext + Keeps(x[start.x..start.x + n]))];
            UpTo(x, more) + Keeps(Slice(x, EndOf(more).x, end.x)) == script
  {
    hide EndOf, UpTo, Slice;
    var h := HunkOf(chunk, count, ctext + Keeps(x[start.x..start.x + n]));
    var more := hs + [h];
    UpToLast(x, hs, h);
    KeepsGlue(x, start.x, start.x + n, end.x);
    Sliced(x, start.x + n, end.x);
    var a, b := UpTo(x, hs), Keeps(Slice(x, EndOf(hs).x, chunk.x));
    var k, l := Keeps(x[start.x..start.x + n]), Keeps(x[start.x + n..end.x]);
    Regrouped(a + b, ctext, k, l);
  }

  lemma Regrouped(a: seq<Edit>, b: seq<Edit>, c: seq<Edit>, d: seq<Edit>)
    ensures a + (b + c) + d == a + b + (c + d)
  {
  }

  lemma Sliced(x: seq<Line>, a: int, b: int)
    requires Within(x, a, b)
    ensures Slice(x, a, b) == x[a..b]
  {
  }

  lemma UpToLast(x: seq<Line>, hs: seq<Hunk>, h: Hunk)
    ensures UpTo(x, hs + [h]) == UpTo(x, hs) + Keeps(Slice(x, EndOf(hs).x, Start(h.oldAt, h.oldCount))) + h.body
  {
    hide EndOf, Slice;
    assert (hs + [h])[..|hs|] == hs;
  }

  lemma ToAlong(x: seq<Line>, y: seq<Line>, ms: seq<Pair>, t: int, s: Scan, ss: seq<Stretch>)
    requires Path(x, y, ms, t, ss) && ss != [] && ss[|ss| - 1].end == s.done && StretchesBehind(ms, t, ss) && t != 0
    requires UpTo(x, s.hs) + Keeps(Slice(x, EndOf(s.hs).x, s.chunk.x)) + s.ctext == ScriptOf(x, y, ss)
    ensures Along(x, y, ms, t, s, ss)
  {
    hide Path, StretchesBehind, UpTo, Slice, EndOf, ScriptOf;
  }

  /** With no hunk yet, the first stretch is all there is. */
  lemma NothingAlong(x: seq<Line>, y: seq<Line>, hs: seq<Hunk>, chunk: Pair, ctext: seq<Edit>, start: Pair, end: Pair,
                     script: seq<Edit>)
    requires Within(x, start.x, end.x) && hs == [] && ctext == [] && start == Pair(0, 0) && Within(x, 0, chunk.x)
    requires UpTo(x, hs) + Keeps(Slice(x, EndOf(hs).x, chunk.x)) + ctext + Keeps(x[start.x..end.x]) == script
    requires chunk == start
    ensures UpTo(x, hs) + Keeps(Slice(x, EndOf(hs).x, end.x)) == script
  {
  }

  /** A fresh chunk opens on the last lines of a stretch. */
  lemma OpenAlong(x: seq<Line>, y: seq<Line>, hs: seq<Hunk>, end: Pair, script: seq<Edit>)
    requires 0 <= EndOf(hs).x <= end.x - CONTEXT && Within(x, 0, end.x)
    requires UpTo(x, hs) + Keeps(Slice(x, EndOf(hs).x, end.x)) == script
    ensures UpTo(x, hs) + Keeps(Slice(x, EndOf(hs).x, end.x - CONTEXT)) + Keeps(x[end.x - CONTEXT..end.x]) == script
  {
    hide UpTo, EndOf;
    var a, b := EndOf(hs).x, end.x - CONTEXT;
    KeepsGlue(x, a, b, end.x);
    assert UpTo(x, hs) + Keeps(x[a..b]) + Keeps(x[b..end.x]) == UpTo(x, hs) + (Keeps(x[a..b]) + Keeps(x[b..end.x]));
  }

  /** At the ends of the files every match is on a stretch. */
  lemma AllHeld(x: seq<Line>, y: seq<Line>, ms: seq<Pair>, t: int, ss: seq<Stretch>)
    requires LongestAnchors(x, y, ms) && 0 <= t <= |ms| && Path(x, y, ms, t, ss) && StretchesBehind(ms, t, ss)
    requires ss != [] && Done(ss) == Pair(|x|, |y|) && t > 0
    ensures Path(x, y, ms, |ms|, ss)
    decreases |ms| - t
  {
    hide Path, Common, Held, LongestAnchors;
    if t < |ms| {
      var s := ss[|ss| - 1];
      LastCommon(x, y, ms, t, ss);
      CommonBounds(x, y, s.start, s.end);
      if t == |ms| - 1 {
        LastMatch(x, y, ms);
      } else {
        MatchBounds(x, y, ms, t);
        AnchorBounds(x, y, ms[t]);
        OnStretch(x, y, ms, t, s);
      }
      HeldByLast(ss, ms[t]);
      HeldOnMore(x, y, ms, t, ss);
      AllHeld(x, y, ms, t + 1, ss);
    }
  }

  lemma AnchorBounds(x: seq<Line>, y: seq<Line>, m: Pair)
    requires Anchor(x, y, m)
    ensures 0 <= m.x < |x|
  {
  }

  lemma LastMatch(x: seq<Line>, y: seq<Line>, ms: seq<Pair>)
    requires LongestAnchors(x, y, ms)
    ensures |ms| > 0 && ms[|ms| - 1] == Pair(|x|, |y|)
  {
  }

  lemma ToAnchored(x: seq<Line>, y: seq<Line>, ms: seq<Pair>, t: int, ss: seq<Stretch>, hs: seq<Hunk>)
    requires LongestAnchors(x, y, ms) && 0 < t <= |ms| && Path(x, y, ms, t, ss) && StretchesBehind(ms, t, ss)
    requires ss != [] && Done(ss) == Pair(|x|, |y|)
    requires UpTo(x, hs) + Keeps(Slice(x, EndOf(hs).x, |x|)) == ScriptOf(x, y, ss)
    ensures Anchored(x, y, Whole(x, hs))
  {
    hide Path, LongestAnchors, ScriptOf, UpTo, Slice, EndOf, Done;
    AllHeld(x, y, ms, t, ss);
  }

  // ----- one iteration -----

  /** The loop before match t. */
  ghost predicate Live(x: seq<Line>, y: seq<Line>, ms: seq<Pair>, t: int, s: Scan, ss: seq<Stretch>) {
    0 <= t < |ms| && State(x, y, ms, t, s) && Along(x, y, ms, t, s, ss)
  }

  /** The loop after writing the mismatched lines of match t, with its stretch from start to end. */
  ghost predicate Ahead(x: seq<Line>, y: seq<Line>, ms: seq<Pair>, t: int, start: Pair, end: Pair, s: Scan,
                        ss: seq<Stretch>) {
    && Pending(x, y, ms, t, start, end, s) && Within(x, start.x, end.x)
    && Path(x, y, ms, t + 1, ss) && ss != [] && ss[|ss| - 1].end == end && StretchesBehind(ms, t + 1, ss)
    && UpTo(x, s.hs) + Keeps(Slice(x, EndOf(s.hs).x, s.chunk.x)) + s.ctext + Keeps(x[start.x..end.x])
       == ScriptOf(x, y, ss)
  }

  /** The loop when no chunk is open: the hunks are the script up to end. */
  ghost predicate Between(x: seq<Line>, y: seq<Line>, ms: seq<Pair>, t: int, end: Pair, hs: seq<Hunk>,
                          ss: seq<Stretch>) {
    && 0 < t <= |ms| && Written(x, y, hs, end)
    && Path(x, y, ms, t, ss) && ss != [] && ss[|ss| - 1].end == end && StretchesBehind(ms, t, ss)
    && UpTo(x, hs) + Keeps(Slice(x, EndOf(hs).x, end.x)) == ScriptOf(x, y, ss)
    && (end != Pair(|x|, |y|) ==> Parted(x, y, end) && t < |ms| && NoneCrosses(ms, t, end))
  }

  lemma Live0(x: seq<Line>, y: seq<Line>, ms: seq<Pair>)
    requires LongestAnchors(x, y, ms)
    ensures Live(x, y, ms, 0, Scan(Pair(0, 0), Pair(0, 0), Pair(0, 0), [], []), [])
  {
    hide State, Along, LongestAnchors;
    Start0(x, y, ms);
    Along0(x, y, ms);
  }

  lemma LiveReady(x: seq<Line>, y: seq<Line>, ms: seq<Pair>, t: int, s: Scan, ss: seq<Stretch>)
    requires LongestAnchors(x, y, ms) && Live(x, y, ms, t, s, ss)
    ensures 0 <= s.done.x <= |x| && 0 <= s.done.y <= |y| && 0 <= ms[t].x <= |x| && 0 <= ms[t].y <= |y|
    ensures ms[t].x >= s.done.x ==> ms[t].y >= s.done.y
    ensures ms[t].x < s.done.x ==> Live(x, y, ms, t + 1, s, ss)
  {
    hide State, Along, LongestAnchors;
    Ready(x, y, ms, t, s);
    if ms[t].x < s.done.x {
      SkippedIsHeld(x, y, ms, t, s, ss);
    }
  }

  /** The mismatched lines before the stretch are written. */
  lemma ToAhead(x: seq<Line>, y: seq<Line>, ms: seq<Pair>, t: int, s: Scan, ss: seq<Stretch>, start: Pair, end: Pair)
    requires LongestAnchors(x, y, ms) && Live(x, y, ms, t, s, ss)
    requires Common(x, y, start, ms[t]) && Common(x, y, ms[t], end)
    requires s.done.x <= start.x && s.done.y <= start.y
    requires start.x == s.done.x || start.y == s.done.y || x[start.x - 1] != y[start.y - 1]
    requires end == Pair(|x|, |y|) || Parted(x, y, end)
    ensures Within(x, s.done.x, start.x) && Within(y, s.done.y, start.y) && Within(x, start.x, end.x) && end.y <= |y|
    ensures Ahead(x, y, ms, t, start, end,
                  Scan(start, s.chunk, Pair(s.count.x + (start.x - s.done.x), s.count.y + (start.y - s.done.y)),
                       s.ctext + Dels(x[s.done.x..start.x]) + Adds(y[s.done.y..start.y]), s.hs),
                  ss + [Stretch(start, end)])
  {
    hide State, Along, LongestAnchors, Pending, Common, Parted, Path, StretchesBehind, UpTo, Slice, EndOf, ScriptOf;
    ToPending(x, y, ms, t, s, start, end);
    NextStretch(x, y, ms, t, s, ss, start, end);
    ScriptGrows(x, y, ms, t, s, ss, start, end);
  }

  /** A short stretch joins the chunk. */
  lemma Joined(x: seq<Line>, y: seq<Line>, ms: seq<Pair>, t: int, s: Scan, ss: seq<Stretch>, start: Pair, end: Pair)
    requires Ahead(x, y, ms, t, start, end, s, ss) && end != Pair(|x|, |y|)
    requires end.x - start.x < CONTEXT || (s.ctext != [] && end.x - start.x < 2 * CONTEXT)
    ensures Live(x, y, ms, t + 1,
                 Scan(end, s.chunk, Pair(s.count.x + (end.x - start.x), s.count.y + (end.x - start.x)),
                      s.ctext + Keeps(x[start.x..end.x]), s.hs), ss)
  {
    hide State, Along, Pending, Path, StretchesBehind, UpTo, Slice, EndOf, ScriptOf;
    JoinCommon(x, y, ms, t, s, start, end);
    JoinAlong(x, y, s.hs, s.chunk, s.ctext, start, end, ScriptOf(x, y, ss));
    PendingFirst(x, y, ms, t, s, start, end);
    ToAlong(x, y, ms, t + 1,
            Scan(end, s.chunk, Pair(s.count.x + (end.x - start.x), s.count.y + (end.x - start.x)),
                 s.ctext + Keeps(x[start.x..end.x]), s.hs), ss);
  }

  lemma PendingFirst(x: seq<Line>, y: seq<Line>, ms: seq<Pair>, t: int, s: Scan, start: Pair, end: Pair)
    requires Pending(x, y, ms, t, start, end, s)
    ensures 0 <= t < |ms|
  {
    hide Chunk, Written, Common, NoneCrosses, Parted, Mismatched;
  }

  /** The chunk is emitted with the first n lines of the stretch. */
  lemma Emitted(x: seq<Line>, y: seq<Line>, ms: seq<Pair>, t: int, s: Scan, ss: seq<Stretch>, start: Pair, end: Pair,
                n: int)
    requires Ahead(x, y, ms, t, start, end, s, ss) && s.ctext != []
    requires n == CONTEXT <= end.x - start.x || (0 <= n == end.x - start.x < CONTEXT && end == Pair(|x|, |y|))
    requires end != Pair(|x|, |y|) ==> end.x - start.x >= 2 * CONTEXT
    ensures Within(x, start.x, start.x + n)
    ensures var h := HunkOf(s.chunk, Pair(s.count.x + n, s.count.y + n), s.ctext + Keeps(x[start.x..start.x + n]));
            Between(x, y, ms, t + 1, end, s.hs + [h], ss) && EndOf(s.hs + [h]).x == start.x + n
  {
    hide Pending, Path, StretchesBehind, UpTo, Slice, EndOf, ScriptOf, Written, Parted, NoneCrosses, HunkOf;
    PendingFirst(x, y, ms, t, s, start, end);
    Emit(x, y, ms, t, s, start, end, n);
    EmitAlong(x, y, s.hs, s.chunk, Pair(s.count.x + n, s.count.y + n), s.ctext, start, end, n, ScriptOf(x, y, ss));
    PendingEnd(x, y, ms, t, s, start, end);
  }

  /** With nothing written yet there is no hunk, and the stretch is the first. */
  lemma NoneEmitted(x: seq<Line>, y: seq<Line>, ms: seq<Pair>, t: int, s: Scan, ss: seq<Stretch>, start: Pair,
                    end: Pair)
    requires Ahead(x, y, ms, t, start, end, s, ss) && s.ctext == []
    ensures Between(x, y, ms, t + 1, end, s.hs, ss) && EndOf(s.hs).x == start.x && s.count == Pair(0, 0)
  {
    hide Pending, Path, StretchesBehind, UpTo, Slice, EndOf, ScriptOf, Written, Parted, NoneCrosses;
    PendingFirst(x, y, ms, t, s, start, end);
    NothingWritten(x, y, ms, t, s, start, end);
    NothingAlong(x, y, s.hs, s.chunk, s.ctext, start, end, ScriptOf(x, y, ss));
    PendingEnd(x, y, ms, t, s, start, end);
  }

  /** A fresh chunk is opened. */
  lemma Opened(x: seq<Line>, y: seq<Line>, ms: seq<Pair>, t: int, end: Pair, hs: seq<Hunk>, ss: seq<Stretch>)
    requires Between(x, y, ms, t, end, hs, ss) && end != Pair(|x|, |y|) && end.x - EndOf(hs).x >= CONTEXT
    ensures Within(x, end.x - CONTEXT, end.x)
    ensures Live(x, y, ms, t,
                 Scan(end, Pair(end.x - CONTEXT, end.y - CONTEXT), Pair(CONTEXT, CONTEXT),
                      Keeps(x[end.x - CONTEXT..end.x]), hs), ss)
  {
    hide State, Along, Path, StretchesBehind, UpTo, Slice, EndOf, ScriptOf, Written, Parted, NoneCrosses;
    OpenChunk(x, y, ms, t, hs, end);
    OpenAlong(x, y, hs, end, ScriptOf(x, y, ss));
    ToAlong(x, y, ms, t,
            Scan(end, Pair(end.x - CONTEXT, end.y - CONTEXT), Pair(CONTEXT, CONTEXT),
                 Keeps(x[end.x - CONTEXT..end.x]), hs), ss);
  }

  /** At the ends of the files the hunks are the whole script. */
  lemma Ended(x: seq<Line>, y: seq<Line>, ms: seq<Pair>, t: int, end: Pair, hs: seq<Hunk>, ss: seq<Stretch>)
    requires LongestAnchors(x, y, ms) && Between(x, y, ms, t, end, hs, ss) && end.x >= |x| && end.y >= |y|
    ensures Written(x, y, hs, Pair(|x|, |y|)) && Anchored(x, y, Whole(x, hs))
  {
    hide LongestAnchors, Path, StretchesBehind, UpTo, Slice, EndOf, ScriptOf, Written, NoneCrosses;
    WrittenEnd(x, y, hs, end);
    ToAnchored(x, y, ms, t, ss, hs);
  }

  lemma WrittenEnd(x: seq<Line>, y: seq<Line>, hs: seq<Hunk>, end: Pair)
    requires Written(x, y, hs, end)
    ensures end.x <= |x| && end.y <= |y|
  {
    hide HunksFit, AllInContext;
  }

  /** The hunks and their text. */
  method DiffLines(x: seq<Line>, y: seq<Line>) returns (hs: seq<Hunk>, out: string)
    ensures Written(x, y, hs, Pair(|x|, |y|)) && out == HunksText(hs)
    ensures Anchored(x, y, Whole(x, hs))
  {
    hide HunksText, Header, BodyText, LongestAnchors, Live, Ahead, Between, Written, Parted, Common, Anchored, Whole,
         EndOf, HunkOf;
    var ms := Tgs.Tgs(x, y);
    var done, chunk, count := Pair(0, 0), Pair(0, 0), Pair(0, 0);
    var ctext: seq<Edit> := [];
    hs, out := [], "";
    ghost var ss: seq<Stretch> := [];
    Live0(x, y, ms);
    LiveBounds(x, y, ms, 0, Scan(done, chunk, count, ctext, hs), ss);
    NoText();
    var t := 0;
    while true
      invariant out == HunksText(hs)
      invariant 0 <= t < |ms| && Live(x, y, ms, t, Scan(done, chunk, count, ctext, hs), ss)
      decreases |ms| - t
    {
      var m := ms[t];
      LiveReady(x, y, ms, t, Scan(done, chunk, count, ctext, hs), ss);
      if m.x < done.x {
        LiveBounds(x, y, ms, t + 1, Scan(done, chunk, count, ctext, hs), ss);
        t := t + 1;
        continue;
      }
      var start := ExpandBack(x, y, m, done);
      var end := ExpandForward(x, y, m);
      ToAhead(x, y, ms, t, Scan(done, chunk, count, ctext, hs), ss, start, end);
      ss := ss + [Stretch(start, end)];
      ctext := ctext + Dels(x[done.x..start.x]) + Adds(y[done.y..start.y]);
      count := Pair(count.x + (start.x - done.x), count.y + (start.y - done.y));

      if (end.x < |x| || end.y < |y|)
         && (end.x - start.x < CONTEXT || (|ctext| > 0 && end.x - start.x < 2 * CONTEXT)) {
        Joined(x, y, ms, t, Scan(start, chunk, count, ctext, hs), ss, start, end);
        ctext := ctext + Keeps(x[start.x..end.x]);
        count := Pair(count.x + (end.x - start.x), count.y + (end.x - start.x));
        done := end;
        LiveBounds(x, y, ms, t + 1, Scan(done, chunk, count, ctext, hs), ss);
        t := t + 1;
        continue;
      }

      if |ctext| > 0 {
        var n := if end.x - start.x < CONTEXT then end.x - start.x else CONTEXT;
        Emitted(x, y, ms, t, Scan(start, chunk, count, ctext, hs), ss, start, end, n);
        ctext := ctext + Keeps(x[start.x..start.x + n]);
        count := Pair(count.x + n, count.y + n);
        done := Pair(start.x + n, start.y + n);
        var h := HunkOf(chunk, count, ctext);
        HunkBody(chunk, count, ctext);
        NextText(hs, h);
        var body := WriteBody(ctext);
        out := out + (Header(h) + body);
        hs := hs + [h];
        count := Pair(0, 0);
        ctext := [];
      } else {
        NoneEmitted(x, y, ms, t, Scan(start, chunk, count, ctext, hs), ss, start, end);
      }
      if end.x >= |x| && end.y >= |y| {
        Ended(x, y, ms, t + 1, end, hs, ss);
        break;
      }
      chunk := Pair(end.x - CONTEXT, end.y - CONTEXT);
      Opened(x, y, ms, t + 1, end, hs, ss);
      assert ctext + Keeps(x[chunk.x..end.x]) == Keeps(x[chunk.x..end.x]);
      ctext := ctext + Keeps(x[chunk.x..end.x]);
      count := Pair(count.x + CONTEXT, count.y + CONTEXT);
      done := end;
      LiveBounds(x, y, ms, t + 1, Scan(done, chunk, count, ctext, hs), ss);
      t := t + 1;
    }
  }

  lemma LiveBounds(x: seq<Line>, y: seq<Line>, ms: seq<Pair>, t: int, s: Scan, ss: seq<Stretch>)
    requires Live(x, y, ms, t, s, ss)
    ensures 0 <= t < |ms|
  {
    hide State, Along;
  }

  lemma HunkBody(chunk: Pair, count: Pair, ctext: seq<Edit>)
    ensures HunkOf(chunk, count, ctext).body == ctext
  {
  }

  // ----- text and lines -----

  /** The pieces of s, each but the last ending after its newline. */
  function SplitAfter(s: string): (r: seq<Line>)
    ensures r != []
  {
    if '\n' !in s then [s] else
      var i := FirstNewline(s);
      [s[..i + 1]] + SplitAfter(s[i + 1..])
  }

  /** A last line without a newline carries a notice in its place. */
  function Lines(s: string): seq<Line> {
    MarkLast(SplitAfter(s))
  }

  function MarkLast(l: seq<Line>): seq<Line>
    requires l != []
  {
    var last := l[|l| - 1];
    if last == "" then l[..|l| - 1] else l[|l| - 1 := last + NOTICE]
  }

  /** The text that lines stand for. */
  function TextOf(l: seq<Line>): string {
    if l == [] then ""
    else if |l| == 1 && |l[0]| >= |NOTICE| && l[0][|l[0]| - |NOTICE|..] == NOTICE
    then l[0][..|l[0]| - |NOTICE|]
    else l[0] + TextOf(l[1..])
  }

  lemma LinesStep(s: string)
    requires '\n' in s
    ensures Lines(s) == [s[..FirstNewline(s) + 1]] + Lines(s[FirstNewline(s) + 1..])
  {
    hide MarkLast, FirstNewline, SplitAfter;
    SplitStep(s);
    MarkLastOfMore(s[..FirstNewline(s) + 1], SplitAfter(s[FirstNewline(s) + 1..]));
  }

  lemma SplitStep(s: string)
    requires '\n' in s
    ensures SplitAfter(s) == [s[..FirstNewline(s) + 1]] + SplitAfter(s[FirstNewline(s) + 1..])
  {
    hide FirstNewline;
  }

  lemma MarkLastOfMore(a: Line, l: seq<Line>)
    requires l != []
    ensures MarkLast([a] + l) == [a] + MarkLast(l)
  {
    assert ([a] + l)[|l|] == l[|l| - 1];
  }

  lemma LastLine(s: string)
    requires '\n' !in s
    ensures Lines(s) == if s == "" then [] else [s + NOTICE]
    ensures TextOf([s + NOTICE]) == s
  {
    assert (s + NOTICE)[|s|..] == NOTICE && (s + NOTICE)[..|s|] == s;
  }

  lemma {:induction false} LinesRoundTrip(s: string)
    ensures TextOf(Lines(s)) == s
  {
    hide Lines, SplitAfter, FirstNewline;
    if '\n' !in s {
      LastLine(s);
    } else {
      var i := FirstNewline(s);
      LinesRoundTrip(s[i + 1..]);
      LinesStep(s);
      assert forall k :: 0 <= k < i ==> s[..i][k] == s[k];
      OwnNewlineOnly(s[..i + 1], i);
      assert ([s[..i + 1]] + Lines(s[i + 1..]))[1..] == Lines(s[i + 1..]);
      assert s == s[..i + 1] + s[i + 1..];
    }
  }

  lemma OwnNewlineOnly(line: string, i: nat)
    requires |line| == i + 1 && forall k :: 0 <= k < i ==> line[k] != '\n'
    ensures !(|line| >= |NOTICE| && line[|line| - |NOTICE|..] == NOTICE)
  {
    if |line| >= |NOTICE| {
      assert line[|line| - |NOTICE|] != NOTICE[0];
    }
  }

  // ----- what is printed can be read -----

  ghost predicate AllLines(l: seq<Line>) {
    forall i :: 0 <= i < |l| ==> IsLine(l[i])
  }

  lemma {:induction false} LinesAreLines(s: string)
    ensures AllLines(Lines(s))
    decreases |s|
  {
    hide Lines, IsLine, FirstNewline;
    if '\n' !in s {
      LastLine(s);
      LastIsLine(s);
    } else {
      var i := FirstNewline(s);
      LinesStep(s);
      LinesAreLines(s[i + 1..]);
      FirstIsLine(s);
    }
  }

  lemma LastIsLine(s: string)
    requires '\n' !in s
    ensures IsLine(s + NOTICE)
  {
    var l := s + NOTICE;
    assert l[|s|..] == NOTICE && l[..|s|] == s && l[|l| - 1] == NOTICE[|NOTICE| - 1];
  }

  lemma FirstIsLine(s: string)
    requires '\n' in s
    ensures IsLine(s[..FirstNewline(s) + 1])
  {
    var i := FirstNewline(s);
    var l := s[..i + 1];
    assert l[i] == s[i] && l[..i] == s[..i];
    assert forall k :: 0 <= k < i ==> l[..i][k] == s[k];
  }

  lemma {:induction false} InASide(b: seq<Edit>, i: nat)
    requires i < |b|
    ensures b[i].text in OldSide(b) || b[i].text in NewSide(b)
    decreases |b|
  {
    if i > 0 {
      InASide(b[1..], i - 1);
    }
  }

  /** The lines of the hunks are lines of the two files. */
  lemma WrittenIsPrintable(x: seq<Line>, y: seq<Line>, hs: seq<Hunk>, k: nat)
    requires HunksFit(x, y, hs) && AllLines(x) && AllLines(y) && k < |hs|
    ensures Printable(hs[k])
  {
    hide HunksFit, IsLine, OldSide, NewSide;
    var h := hs[k];
    FitsAt(x, y, hs, k);
    SideLines(x, Start(h.oldAt, h.oldCount), End(h).x);
    SideLines(y, Start(h.newAt, h.newCount), End(h).y);
    forall i | 0 <= i < |h.body| ensures IsLine(h.body[i].text) {
      InASide(h.body, i);
    }
  }

  lemma SideLines(x: seq<Line>, a: int, b: int)
    requires AllLines(x) && Within(x, a, b)
    ensures forall l :: l in x[a..b] ==> IsLine(l)
  {
  }

  // ----- diff -----

  /** The hunks are a patch from x to y, and reversed a patch from y to x. */
  lemma WrittenIsPatch(x: seq<Line>, y: seq<Line>, hs: seq<Hunk>)
    requires Written(x, y, hs, Pair(|x|, |y|))
    ensures Patch(x, hs) == Some(y) && Patch(y, Reversed(hs)) == Some(x)
  {
    assert hs[0..] == hs && Reversed(hs)[0..] == Reversed(hs);
    assert y[..0] == [] && x[..0] == [];
    PatchFrom(x, y, hs, 0);
    ReversedFits(x, y, hs);
    PatchFrom(y, x, Reversed(hs), 0);
  }

  /** The lines above the hunks. */
  function FileHeader(oldName: string, newName: string): string {
    "diff " + oldName + " " + newName + "\n" + "--- " + oldName + "\n" + "+++ " + newName + "\n"
  }

  /** The unified diff, or None when the texts are equal. What is printed below the file names, read as
      hunks, patches the one text into the other, and reversed the other into the one. The hunks and the lines
      between them are anchored: a longest common subsequence of the lines unique in both texts is kept, and in no
      block of changes could the line at its start, or at its end, have been kept. */
  method Diff(oldName: string, before: string, newName: string, after: string) returns (r: Option<string>)
    ensures r.None? <==> before == after
    ensures r.Some? ==> FileHeader(oldName, newName) <= r.value
    ensures r.Some? ==>
              var hs := ReadHunks(r.value[|FileHeader(oldName, newName)|..]);
              && hs.Some? && hs.value != [] && AllInContext(Lines(before), Lines(after), hs.value)
              && Patch(Lines(before), hs.value) == Some(Lines(after))
              && Patch(Lines(after), Reversed(hs.value)) == Some(Lines(before))
    ensures r.Some? ==>
              var x, y, hs := Lines(before), Lines(after), ReadHunks(r.value[|FileHeader(oldName, newName)|..]);
              hs.Some? && var b := Whole(x, hs.value);
              Anchored(x, y, b) && KeepsAnchors(x, y, b) && BlocksDiffer(x, y, b)
  {
    hide AllInContext, HunksFit, Lines, AllLines, Printable, ReadHunks, Anchored, KeepsAnchors, BlocksDiffer, Whole;
    if before == after {
      return None;
    }
    var head := FileHeader(oldName, newName);
    var hs, out := DiffLines(Lines(before), Lines(after));
    AnchoredIs(Lines(before), Lines(after), Whole(Lines(before), hs));
    WrittenIsPatch(Lines(before), Lines(after), hs);
    LinesRoundTrip(before);
    LinesRoundTrip(after);
    assert hs == [] ==> Patch(Lines(before), hs) == Some(Lines(before));
    LinesAreLines(before);
    LinesAreLines(after);
    forall k | 0 <= k < |hs| ensures Printable(hs[k]) {
      WrittenIsPrintable(Lines(before), Lines(after), hs, k);
    }
    HunksRead(hs);
    assert (head + out)[|head|..] == out;
    r := Some(head + out);
  }
}
