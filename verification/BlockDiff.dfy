/** Edits between two versions of a document, any of which may be left out (lsp/source/format.go). */
module BlockDiff {
  import opened Edits

  // ----- lines -----

  /** The offset of the newline at or after i, or the end. */
  function LineEnd(content: string, i: nat): (r: nat)
    requires i <= |content|
    ensures i <= r <= |content| && (r < |content| ==> content[r] == '\n')
            && forall k :: i <= k < r ==> content[k] != '\n'
    decreases |content| - i
  {
    if i == |content| || content[i] == '\n' then i else LineEnd(content, i + 1)
  }

  function NextLineStart(content: string, i: nat): (r: nat)
    requires i <= |content|
    ensures i <= r <= |content| && (i < |content| ==> i < r)
  {
    var e := LineEnd(content, i);
    if e < |content| then e + 1 else e
  }

  predicate IsLineStart(content: string, i: nat) {
    i <= |content| && (i == 0 || i == |content| || content[i - 1] == '\n')
  }

  function Line(content: string, i: nat): string
    requires i <= |content|
  {
    content[i..LineEnd(content, i)]
  }

  lemma NextIsLineStart(content: string, i: nat)
    requires i < |content| && IsLineStart(content, i)
    ensures IsLineStart(content, NextLineStart(content, i))
    ensures forall p :: i < p < NextLineStart(content, i) ==> !IsLineStart(content, p)
  {
  }

  // ----- blocks -----

  datatype Block = Block(start: nat, end: nat)

  predicate Inside(p: nat, b: Block) {
    b.start <= p < b.end
  }

  /** The lines from 0 to i lie in the blocks exactly when they are not blank; blocks are separated,
      and start and end where lines do. */
  ghost predicate Cut(content: string, blank: string -> bool, bs: seq<Block>, i: nat) {
    IsLineStart(content, i) && Shaped(content, bs, i) && Sorts(content, blank, bs, i)
  }

  ghost predicate Shaped(content: string, bs: seq<Block>, i: nat) {
    && (forall k :: 0 <= k < |bs| ==> bs[k].start < bs[k].end <= i
                                      && IsLineStart(content, bs[k].start) && IsLineStart(content, bs[k].end))
    && forall k :: 0 < k < |bs| ==> bs[k - 1].end < bs[k].start
  }

  ghost predicate Sorts(content: string, blank: string -> bool, bs: seq<Block>, i: nat) {
    forall p :: 0 <= p < i && IsLineStart(content, p) ==> (blank(Line(content, p)) <==> Outside(p, bs))
  }

  ghost predicate Outside(p: nat, bs: seq<Block>) {
    forall k :: 0 <= k < |bs| ==> !Inside(p, bs[k])
  }

  /** Moving past a blank line. */
  lemma PassBlank(content: string, blank: string -> bool, bs: seq<Block>, i: nat)
    requires Cut(content, blank, bs, i) && i < |content| && blank(Line(content, i))
    ensures Cut(content, blank, bs, NextLineStart(content, i))
  {
    hide Line;
    NextIsLineStart(content, i);
  }

  /** Lines from start to i, none of them blank. */
  ghost predicate Run(content: string, blank: string -> bool, start: nat, i: nat) {
    && start <= i && IsLineStart(content, start) && IsLineStart(content, i)
    && forall p :: start <= p < i && IsLineStart(content, p) ==> !blank(Line(content, p))
  }

  lemma PassLine(content: string, blank: string -> bool, start: nat, i: nat)
    requires Run(content, blank, start, i) && i < |content| && !blank(Line(content, i))
    ensures Run(content, blank, start, NextLineStart(content, i))
  {
    NextIsLineStart(content, i);
  }

  lemma AddBlock(content: string, blank: string -> bool, bs: seq<Block>, start: nat, i: nat)
    requires Cut(content, blank, bs, start) && Run(content, blank, start, i) && start < i
    requires i <= |content| && (bs != [] ==> bs[|bs| - 1].end < start)
    ensures Cut(content, blank, bs + [Block(start, i)], i)
  {
    hide IsLineStart, Inside, Line, Outside;
    var more := bs + [Block(start, i)];
    forall p | 0 <= p < i && IsLineStart(content, p) ensures blank(Line(content, p)) <==> Outside(p, more) {
      OutsideMore(p, bs, Block(start, i));
      BlockHolds(p, bs, start, i);
      if start <= p {
        AfterAll(content, p, bs, start);
      }
    }
  }

  lemma AfterAll(content: string, p: nat, bs: seq<Block>, start: nat)
    requires Shaped(content, bs, start) && start <= p
    ensures Outside(p, bs)
  {
    hide IsLineStart;
  }

  lemma OutsideMore(p: nat, bs: seq<Block>, b: Block)
    ensures Outside(p, bs + [b]) <==> !Inside(p, b) && Outside(p, bs)
  {
    hide Inside;
    var more := bs + [b];
    assert more[|bs|] == b && forall k :: 0 <= k < |bs| ==> more[k] == bs[k];
  }

  lemma BlockHolds(p: nat, bs: seq<Block>, start: nat, i: nat)
    requires p < i
    ensures Inside(p, Block(start, i)) <==> start <= p
  {
  }

  /** The runs of non-blank lines. */
  method Blocks(content: string, blank: string -> bool) returns (bs: seq<Block>)
    ensures Cut(content, blank, bs, |content|)
  {
    hide Cut, Run, Line, NextLineStart, LineEnd, IsLineStart;
    bs := [];
    var i: nat := 0;
    StartCut(content, blank);
    while i < |content|
      invariant i <= |content| && Cut(content, blank, bs, i) && Separate(bs, i, |content|)
      invariant i < |content| && bs != [] ==> blank(Line(content, i))
    {
      while i < |content| && blank(Line(content, i))
        invariant i <= |content| && Cut(content, blank, bs, i)
        invariant bs != [] ==>
                  bs[|bs| - 1].end <= i && (i < |content| && bs[|bs| - 1].end == i ==> blank(Line(content, i)))
        decreases |content| - i
      {
        PassBlank(content, blank, bs, i);
        i := NextLineStart(content, i);
      }
      if i >= |content| {
        break;
      }
      var start := i;
      StartRun(content, blank, bs, i);
      while i < |content| && !blank(Line(content, i))
        invariant start <= i <= |content| && Run(content, blank, start, i)
        invariant i == start ==> !blank(Line(content, i))
        decreases |content| - i
      {
        PassLine(content, blank, start, i);
        i := NextLineStart(content, i);
      }
      AddBlock(content, blank, bs, start, i);
      bs := bs + [Block(start, i)];
    }
  }

  /** The last block ends at or before i. */
  ghost predicate Separate(bs: seq<Block>, i: nat, n: nat) {
    bs != [] ==> bs[|bs| - 1].end <= i
  }

  lemma StartCut(content: string, blank: string -> bool)
    ensures Cut(content, blank, [], 0)
  {
  }

  lemma StartRun(content: string, blank: string -> bool, bs: seq<Block>, i: nat)
    requires Cut(content, blank, bs, i)
    ensures Run(content, blank, i, i)
  {
  }

  // ----- segments -----

  /** A stretch of the old document and what stands for it in the new one. */
  datatype Segment = Segment(start: nat, end: nat, text: string)

  /** The segments cover the old document up to offset end, without gaps. */
  ghost predicate Tiles(old': string, segs: seq<Segment>, end: nat) {
    if segs == [] then end == 0
    else
      var s := segs[|segs| - 1];
      s.start <= s.end == end <= |old'| && Tiles(old', segs[..|segs| - 1], s.start)
  }

  /** The new document. */
  function Texts(segs: seq<Segment>): string {
    if segs == [] then "" else Texts(segs[..|segs| - 1]) + segs[|segs| - 1].text
  }

  predicate Changed(old': string, s: Segment) {
    s.start <= s.end <= |old'| && old'[s.start..s.end] != s.text
  }

  function EditOf(s: Segment): Edit {
    Edit(s.start, s.end, s.text)
  }

  /** One edit for each segment that changes. */
  function EditsFor(old': string, segs: seq<Segment>): seq<Edit> {
    if segs == [] then []
    else
      var s := segs[|segs| - 1];
      var es := EditsFor(old', segs[..|segs| - 1]);
      if Changed(old', s) then es + [EditOf(s)] else es
  }

  function Kept(es: seq<Edit>, keep: set<Edit>): seq<Edit> {
    if es == [] then []
    else
      var less := Kept(es[..|es| - 1], keep);
      if es[|es| - 1] in keep then less + [es[|es| - 1]] else less
  }

  /** Each segment as in the new document if its edit is kept, and as in the old one if not. */
  function Choice(old': string, segs: seq<Segment>, keep: set<Edit>): string {
    if segs == [] then ""
    else
      var s := segs[|segs| - 1];
      Choice(old', segs[..|segs| - 1], keep) +
      if Changed(old', s) && EditOf(s) in keep then s.text
      else if s.start <= s.end <= |old'| then old'[s.start..s.end] else ""
  }

  // ----- any subset of the edits -----

  /** The edits are in order, do not overlap, and lie between from and to. */
  ghost predicate Between(es: seq<Edit>, from: int, to: int) {
    if es == [] then from <= to
    else from <= es[0].start <= es[0].end && Between(es[1..], es[0].end, to)
  }

  lemma {:induction false} BetweenNext(es: seq<Edit>, from: int, to: int, e: Edit)
    requires Between(es, from, to) && to <= e.start <= e.end
    ensures Between(es + [e], from, e.end) && Between(es, from, e.end)
    decreases |es|
  {
    if es != [] {
      assert (es + [e])[1..] == es[1..] + [e];
      BetweenNext(es[1..], es[0].end, to, e);
    } else {
      assert (es + [e])[1..] == [];
    }
  }

  /** What follows the last edit stays. */
  lemma {:induction false} SubstituteThen(content: string, from: int, es: seq<Edit>, to: int)
    requires 0 <= from && Between(es, from, to) && to <= |content|
    ensures from <= to && Substitute(content, from, es) == Substitute(content[..to], from, es) + content[to..]
    decreases |es|
  {
    if es == [] {
      assert content[from..] == content[..to][from..] + content[to..];
    } else {
      SubstituteThen(content, es[0].end, es[1..], to);
      assert content[from..es[0].start] == content[..to][from..es[0].start];
    }
  }

  /** A further edit replaces what follows the others. */
  lemma {:induction false} SubstituteNext(content: string, from: int, es: seq<Edit>, e: Edit)
    requires 0 <= from && Between(es, from, e.start) && e.start <= e.end == |content|
    ensures from <= e.start && Substitute(content, from, es + [e]) == Substitute(content[..e.start], from, es) + e.text
    decreases |es|
  {
    hide Substitute;
    if es == [] {
      assert es + [e] == [e];
      SubstituteOne(content, from, e);
    } else {
      var all := es + [e];
      assert all[0] == es[0] && all[1..] == es[1..] + [e];
      SubstituteNext(content, es[0].end, es[1..], e);
      SubstituteStep(content, from, all);
      SubstituteStep(content[..e.start], from, es);
      SliceOfPrefix(content, e.start, from, es[0].start);
    }
  }

  lemma SliceOfPrefix(content: string, m: int, from: int, to: int)
    requires 0 <= from <= to <= m <= |content|
    ensures content[from..to] == content[..m][from..to]
  {
  }

  lemma SubstituteStep(content: string, from: int, es: seq<Edit>)
    requires es != [] && 0 <= from <= es[0].start <= es[0].end <= |content|
    ensures Substitute(content, from, es) ==
            content[from..es[0].start] + es[0].text + Substitute(content, es[0].end, es[1..])
  {
  }

  lemma SubstituteOne(content: string, from: int, e: Edit)
    requires 0 <= from <= e.start <= e.end == |content|
    ensures Substitute(content, from, [e]) == Substitute(content[..e.start], from, []) + e.text
  {
    assert [e][1..] == [];
    assert content[from..e.start] == content[..e.start][from..];
    assert content[|content|..] == "";
  }

  lemma KeptConcat(es: seq<Edit>, e: Edit, keep: set<Edit>)
    ensures Kept(es + [e], keep) == if e in keep then Kept(es, keep) + [e] else Kept(es, keep)
  {
    assert (es + [e])[..|es|] == es;
  }

  /** The kept edits of a prefix of the segments are in order, and substitute that prefix. */
  lemma {:induction false} SubsetOfPrefix(old': string, segs: seq<Segment>, end: nat, keep: set<Edit>)
    requires Tiles(old', segs, end) && end <= |old'|
    ensures var es := Kept(EditsFor(old', segs), keep);
            Between(es, 0, end) && Substitute(old'[..end], 0, es) == Choice(old', segs, keep)
    decreases |segs|
  {
    hide Substitute, Between, Changed;
    if segs == [] {
      NothingKept(old');
    } else {
      var less, s := segs[..|segs| - 1], segs[|segs| - 1];
      SubsetOfPrefix(old', less, s.start, keep);
      var es := Kept(EditsFor(old', less), keep);
      var e := EditOf(s);
      KeptConcat(EditsFor(old', less), e, keep);
      BetweenNext(es, 0, s.start, e);
      assert old'[..end][..s.start] == old'[..s.start] && old'[..end][s.start..] == old'[s.start..s.end];
      if Changed(old', s) && e in keep {
        SubstituteNext(old'[..end], 0, es, e);
      } else {
        SubstituteThen(old'[..end], 0, es, s.start);
      }
    }
  }

  lemma NothingKept(old': string)
    ensures Between([], 0, 0) && Substitute(old'[..0], 0, []) == ""
  {
  }

  lemma {:induction false} AllKept(old': string, segs: seq<Segment>, end: nat, keep: set<Edit>)
    requires Tiles(old', segs, end) && forall e :: e in EditsFor(old', segs) ==> e in keep
    ensures Kept(EditsFor(old', segs), keep) == EditsFor(old', segs) && Choice(old', segs, keep) == Texts(segs)
    decreases |segs|
  {
    if segs != [] {
      var less, s := segs[..|segs| - 1], segs[|segs| - 1];
      AllKept(old', less, s.start, keep);
      KeptConcat(EditsFor(old', less), EditOf(s), keep);
      assert Changed(old', s) ==> EditOf(s) in EditsFor(old', segs);
    }
  }

  /** For edits of segments that cover the old document: all of them turn it into the new one; any
      subset is in order and gives, segment by segment, the new text where the edit is kept and the
      old text elsewhere. */
  lemma SubsetIsChoice(old': string, segs: seq<Segment>, keep: set<Edit>)
    requires Tiles(old', segs, |old'|)
    ensures var es := Kept(EditsFor(old', segs), keep);
            Between(es, 0, |old'|) && Substitute(old', 0, es) == Choice(old', segs, keep)
    ensures Substitute(old', 0, EditsFor(old', segs)) == Texts(segs)
  {
    hide Tiles, Substitute, Choice, EditsFor, Kept;
    assert old'[..|old'|] == old';
    SubsetOfPrefix(old', segs, |old'|, keep);
    var all := set e | e in EditsFor(old', segs);
    AllKept(old', segs, |old'|, all);
    SubsetOfPrefix(old', segs, |old'|, all);
  }

  // ----- the diff -----

  predicate ContainsCRLF(s: string) {
    exists i :: 0 < i < |s| && s[i] == '\n' && s[i - 1] == '\r'
  }

  /** The segments of the first k aligned blocks, each after the blank lines before it. */
  function BlockSegments(new': string, ob: seq<Block>, nb: seq<Block>, k: nat): seq<Segment>
    requires k <= |ob| == |nb|
    requires forall i :: 0 <= i < |nb| ==> nb[i].start <= nb[i].end <= |new'|
    requires forall i :: 0 < i < |nb| ==> nb[i - 1].end <= nb[i].start
  {
    if k == 0 then []
    else
      var prevOld, prevNew := if k == 1 then 0 else ob[k - 2].end, if k == 1 then 0 else nb[k - 2].end;
      BlockSegments(new', ob, nb, k - 1) +
      [Segment(prevOld, ob[k - 1].start, new'[prevNew..nb[k - 1].start])] +
      [Segment(ob[k - 1].start, ob[k - 1].end, new'[nb[k - 1].start..nb[k - 1].end])]
  }

  /** How the documents are cut: as a whole when the old one has "\r\n" or the blocks do not align,
      and else at the blocks. */
  ghost predicate CutAt(old': string, new': string, blank: string -> bool, ob: seq<Block>, nb: seq<Block>,
                        segs: seq<Segment>) {
    && Cut(old', blank, ob, |old'|) && Cut(new', blank, nb, |new'|)
    && segs == if ContainsCRLF(old') || |ob| == 0 || |ob| != |nb| then [Segment(0, |old'|, new')]
               else BlockSegments(new', ob, nb, |ob|) + [Segment(ob[|ob| - 1].end, |old'|, new'[nb[|nb| - 1].end..])]
  }

  lemma WholeSegment(old': string, new': string)
    ensures var segs := [Segment(0, |old'|, new')];
            Tiles(old', segs, |old'|) && Texts(segs) == new' && EditsFor(old', segs) ==
            if old' == new' then [] else [Edit(0, |old'|, new')]
  {
    var segs := [Segment(0, |old'|, new')];
    assert segs[..0] == [] && old'[0..|old'|] == old';
    assert Tiles(old', segs[..0], 0);
  }

  /** One more segment. */
  lemma NextSegment(old': string, segs: seq<Segment>, s: Segment)
    requires Tiles(old', segs, s.start) && s.start <= s.end <= |old'|
    ensures Tiles(old', segs + [s], s.end) && Texts(segs + [s]) == Texts(segs) + s.text
    ensures EditsFor(old', segs + [s])
         == if old'[s.start..s.end] != s.text then EditsFor(old', segs) + [Edit(s.start, s.end, s.text)]
            else EditsFor(old', segs)
  {
    assert (segs + [s])[..|segs|] == segs;
  }

  /** The aligned part of the work: the first i blocks with the blank lines before them. */
  ghost predicate Aligned(old': string, new': string, ob: seq<Block>, nb: seq<Block>, i: nat, edits: seq<Edit>,
                          segs: seq<Segment>)
    requires i <= |ob| == |nb|
    requires forall k :: 0 <= k < |nb| ==> nb[k].start < nb[k].end <= |new'|
    requires forall k :: 0 < k < |nb| ==> nb[k - 1].end < nb[k].start
  {
    && segs == BlockSegments(new', ob, nb, i) && edits == EditsFor(old', segs)
    && Tiles(old', segs, if i == 0 then 0 else ob[i - 1].end)
    && Texts(segs) == new'[..if i == 0 then 0 else nb[i - 1].end]
  }

  lemma NextAligned(old': string, new': string, ob: seq<Block>, nb: seq<Block>, i: nat, edits: seq<Edit>,
                    segs: seq<Segment>)
    requires i < |ob| == |nb|
    requires forall k :: 0 <= k < |nb| ==> nb[k].start < nb[k].end <= |new'|
    requires forall k :: 0 < k < |nb| ==> nb[k - 1].end < nb[k].start
    requires forall k :: 0 <= k < |ob| ==> ob[k].start < ob[k].end <= |old'|
    requires forall k :: 0 < k < |ob| ==> ob[k - 1].end < ob[k].start
    requires Aligned(old', new', ob, nb, i, edits, segs)
    ensures var prevOld, prevNew := if i == 0 then 0 else ob[i - 1].end, if i == 0 then 0 else nb[i - 1].end;
            var b, c := ob[i], nb[i];
            var gap, block := Segment(prevOld, b.start, new'[prevNew..c.start]),
                Segment(b.start, b.end, new'[c.start..c.end]);
            var more := if old'[prevOld..b.start] != gap.text then edits + [EditOf(gap)] else edits;
            Aligned(old', new', ob, nb, i + 1,
                    if old'[b.start..b.end] != block.text then more + [EditOf(block)] else more, segs + [gap] + [block])
  {
    hide Tiles, Texts, EditsFor;
    var prevOld, prevNew := if i == 0 then 0 else ob[i - 1].end, if i == 0 then 0 else nb[i - 1].end;
    var b, c := ob[i], nb[i];
    var gap := Segment(prevOld, b.start, new'[prevNew..c.start]);
    NextSegment(old', segs, gap);
    NextSegment(old', segs + [gap], Segment(b.start, b.end, new'[c.start..c.end]));
    assert new'[..prevNew] + new'[prevNew..c.start] + new'[c.start..c.end] == new'[..c.end];
  }

  /** The edits turning old' into new', one for each segment that changes. */
  method Diff(old': string, new': string, blank: string -> bool)
    returns (edits: seq<Edit>, ghost segs: seq<Segment>, ghost ob: seq<Block>, ghost nb: seq<Block>)
    ensures CutAt(old', new', blank, ob, nb, segs)
    ensures Tiles(old', segs, |old'|) && Texts(segs) == new' && edits == EditsFor(old', segs)
    ensures Between(edits, 0, |old'|) && Substitute(old', 0, edits) == new'
  {
    hide Cut, Tiles, Texts, EditsFor, Substitute, Between, Aligned, BlockSegments;
    var oldBlocks := Blocks(old', blank);
    var newBlocks := Blocks(new', blank);
    ob, nb := oldBlocks, newBlocks;
    if ContainsCRLF(old') || |oldBlocks| == 0 || |oldBlocks| != |newBlocks| {
      segs := [Segment(0, |old'|, new')];
      edits := if old' == new' then [] else [Edit(0, |old'|, new')];
      WholeSegment(old', new');
      AllEdits(old', segs);
      return;
    }
    CutShape(old', blank, ob);
    CutShape(new', blank, nb);
    edits := [];
    segs := [];
    var prevOld, prevNew := 0, 0;
    NoSegments(old', new', ob, nb);
    for i := 0 to |oldBlocks|
      invariant prevOld == (if i == 0 then 0 else ob[i - 1].end) && prevNew == (if i == 0 then 0 else nb[i - 1].end)
      invariant Aligned(old', new', ob, nb, i, edits, segs)
    {
      var b, c := oldBlocks[i], newBlocks[i];
      NextAligned(old', new', ob, nb, i, edits, segs);
      segs := segs + [Segment(prevOld, b.start, new'[prevNew..c.start])]
      + [Segment(b.start, b.end, new'[c.start..c.end])];
      if old'[prevOld..b.start] != new'[prevNew..c.start] {
        edits := edits + [Edit(prevOld, b.start, new'[prevNew..c.start])];
      }
      if old'[b.start..b.end] != new'[c.start..c.end] {
        edits := edits + [Edit(b.start, b.end, new'[c.start..c.end])];
      }
      prevOld, prevNew := b.end, c.end;
    }
    LastSegment(old', new', ob, nb, edits, segs);
    if old'[prevOld..] != new'[prevNew..] {
      edits := edits + [Edit(prevOld, |old'|, new'[prevNew..])];
    }
    segs := segs + [Segment(prevOld, |old'|, new'[prevNew..])];
    AllEdits(old', segs);
  }

  lemma LastSegment(old': string, new': string, ob: seq<Block>, nb: seq<Block>, edits: seq<Edit>, segs: seq<Segment>)
    requires 0 < |ob| == |nb|
    requires forall k :: 0 <= k < |nb| ==> nb[k].start < nb[k].end <= |new'|
    requires forall k :: 0 < k < |nb| ==> nb[k - 1].end < nb[k].start
    requires forall k :: 0 <= k < |ob| ==> ob[k].start < ob[k].end <= |old'|
    requires Aligned(old', new', ob, nb, |ob|, edits, segs)
    ensures var prevOld, prevNew := ob[|ob| - 1].end, nb[|nb| - 1].end;
            var s := Segment(prevOld, |old'|, new'[prevNew..]);
            && segs == BlockSegments(new', ob, nb, |ob|) && Tiles(old', segs + [s], |old'|) && Texts(segs + [s]) == new'
            && EditsFor(old', segs + [s])
               == if old'[prevOld..] != new'[prevNew..] then edits + [Edit(prevOld, |old'|, new'[prevNew..])] else edits
  {
    hide Tiles, Texts, EditsFor, BlockSegments;
    var prevOld, prevNew := ob[|ob| - 1].end, nb[|nb| - 1].end;
    NextSegment(old', segs, Segment(prevOld, |old'|, new'[prevNew..]));
    assert old'[prevOld..] == old'[prevOld..|old'|];
    assert new'[..prevNew] + new'[prevNew..] == new';
  }

  /** All the edits together. */
  lemma AllEdits(old': string, segs: seq<Segment>)
    requires Tiles(old', segs, |old'|)
    ensures Between(EditsFor(old', segs), 0, |old'|) && Substitute(old', 0, EditsFor(old', segs)) == Texts(segs)
  {
    hide Tiles, EditsFor, Kept, Substitute, Between, Choice, Texts;
    var all := set e | e in EditsFor(old', segs);
    AllKept(old', segs, |old'|, all);
    SubsetIsChoice(old', segs, all);
  }

  lemma CutShape(content: string, blank: string -> bool, bs: seq<Block>)
    requires Cut(content, blank, bs, |content|)
    ensures forall k :: 0 <= k < |bs| ==> bs[k].start < bs[k].end <= |content|
    ensures forall k :: 0 < k < |bs| ==> bs[k - 1].end < bs[k].start
  {
  }

  lemma NoSegments(old': string, new': string, ob: seq<Block>, nb: seq<Block>)
    requires 0 <= |ob| == |nb|
    requires forall k :: 0 <= k < |nb| ==> nb[k].start < nb[k].end <= |new'|
    requires forall k :: 0 < k < |nb| ==> nb[k - 1].end < nb[k].start
    ensures Aligned(old', new', ob, nb, 0, [], [])
  {
  }
}
