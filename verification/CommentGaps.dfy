/** The blanks that emitTokens puts in front of every token and comment (formatter/format.go). */
module CommentGaps {
  import opened Lexing
  import opened LexRoundTrip
  import opened Comments
  import opened CommentPlaces
  import opened Doc

  /** The blanks since the last text or line, and whether there was no text or line yet. */
  datatype Trail = Trail(blanks: string, first: bool)

  function Move(s: Trail, p: Piece): Trail {
    match p
    case Space(text) => s.(blanks := s.blanks + text)
    case _ => Trail("", false)
  }

  function Behind(ps: seq<Piece>, s: Trail): Trail {
    if ps == [] then s else Behind(ps[1..], Move(s, ps[0]))
  }

  /** What the caller asks for behind the entry. */
  function Pads(toks: seq<Token>, o: Comments.Options, i: int): string {
    if RealAt(toks, i) then PadAt(o.pads, i) else ""
  }

  /** A comment follows one space on its token's line, behind the pad of the token if there is one, and nothing at the
      start of a line. */
  predicate CommentSpaced(toks: seq<Token>, start: nat, o: Comments.Options, c: int, s: Trail) {
    && 0 <= c < |toks|
    && if InLine(toks, c) then s == Trail(Pads(toks, o, c - 1) + " ", false)
       else s == Trail("", false) || (c < start && s == Trail(o.prefix, true))
  }

  /** A token follows the pad and the canonical gap, nothing at the start of a line, and first the prefix. */
  predicate TokenSpaced(toks: seq<Token>, start: nat, o: Comments.Options, i: int, s: Trail) {
    && 0 <= i < |toks|
    && if i == start then s == Trail("", false) || s == Trail(o.prefix, true)
       else if EndsItsLine(toks, i - 1) then s == Trail("", false)
       else
         var prev := PrevReal(toks, i - 1);
         prev >= 0 && s == Trail(Pads(toks, o, i - 1) + RawTokenGap(toks[prev].kind, toks[i].kind), false)
  }

  predicate PieceSpaced(toks: seq<Token>, start: nat, o: Comments.Options, p: Piece, s: Trail) {
    && (p.CommentText? ==> CommentSpaced(toks, start, o, p.at, s))
    && (p.TokenText? ==> TokenSpaced(toks, start, o, p.at, s))
  }

  predicate WellSpaced(toks: seq<Token>, start: nat, o: Comments.Options, ps: seq<Piece>, s: Trail) {
    ps == [] || (PieceSpaced(toks, start, o, ps[0], s) && WellSpaced(toks, start, o, ps[1..], Move(s, ps[0])))
  }

  lemma {:induction false} SpacedConcat(toks: seq<Token>, start: nat, o: Comments.Options, a: seq<Piece>, b: seq<Piece>,
                                        s: Trail)
    ensures Behind(a + b, s) == Behind(b, Behind(a, s))
    ensures WellSpaced(toks, start, o, a + b, s) <==>
            WellSpaced(toks, start, o, a, s) && WellSpaced(toks, start, o, b, Behind(a, s))
    decreases |a|
  {
    hide PieceSpaced;
    if a == [] {
      assert a + b == b;
    } else {
      assert (a + b)[0] == a[0] && (a + b)[1..] == a[1..] + b;
      SpacedConcat(toks, start, o, a[1..], b, Move(s, a[0]));
    }
  }

  lemma OneSpaced(toks: seq<Token>, start: nat, o: Comments.Options, p: Piece, s: Trail)
    ensures Behind([p], s) == Move(s, p)
    ensures WellSpaced(toks, start, o, [p], s) <==> PieceSpaced(toks, start, o, p, s)
    ensures Behind([], s) == s && WellSpaced(toks, start, o, [], s)
  {
    hide PieceSpaced;
    assert [p][1..] == [];
    assert Behind([p][1..], Move(s, p)) == Move(s, p) && WellSpaced(toks, start, o, [p][1..], Move(s, p));
  }

  lemma {:induction false} LinesSpaced(toks: seq<Token>, start: nat, o: Comments.Options, n: nat, s: Trail)
    ensures WellSpaced(toks, start, o, Copies(n, HardLine), s)
    ensures Behind(Copies(n, HardLine), s) == if n == 0 then s else Trail("", false)
    decreases n
  {
    if n > 0 {
      assert Copies(n, HardLine)[1..] == Copies(n - 1, HardLine);
      LinesSpaced(toks, start, o, n - 1, Trail("", false));
    }
  }

  lemma SpacesSpaced(toks: seq<Token>, start: nat, o: Comments.Options, text: string, s: Trail)
    ensures WellSpaced(toks, start, o, Spaces(text), s)
    ensures Behind(Spaces(text), s) == s.(blanks := s.blanks + text)
  {
    hide WellSpaced, Behind;
    OneSpaced(toks, start, o, Space(text), s);
    assert s.blanks + "" == s.blanks;
  }

  // ----- comments -----

  /** A comment on a line of its own. */
  lemma OwnLineSpaced(toks: seq<Token>, start: nat, o: Comments.Options, c: nat, prev: int, first: bool, s: Trail)
    requires c < |toks| && !InLine(toks, c)
    requires prev >= 0 || !first || (c < start && s == Trail(o.prefix, true))
    ensures WellSpaced(toks, start, o, OwnLineComment(toks, c, prev, first), s)
    ensures Behind(OwnLineComment(toks, c, prev, first), s) == Trail("", false)
  {
    hide TrimRight, WellSpaced, Behind, InLine;
    var lead := if prev >= 0 || !first || toks[c].blankLines > 0 then [SoftLine] else [];
    var blank := Copies(toks[c].blankLines, HardLine);
    var text, end := CommentText(c, TrimRight(toks[c].text)), CommentLine;
    OneSpaced(toks, start, o, SoftLine, s);
    SpacedConcat(toks, start, o, lead, blank, s);
    LinesSpaced(toks, start, o, toks[c].blankLines, Behind(lead, s));
    var s2 := Behind(lead + blank, s);
    SpacedConcat(toks, start, o, lead + blank, [text, end], s);
    assert [text, end] == [text] + [end];
    SpacedConcat(toks, start, o, [text], [end], s2);
    OneSpaced(toks, start, o, text, s2);
    OneSpaced(toks, start, o, end, Trail("", false));
  }

  /** A comment on the line of the token before it. */
  lemma SameLineSpaced(toks: seq<Token>, start: nat, o: Comments.Options, c: nat, s: Trail)
    requires c < |toks| && InLine(toks, c) && s == Trail(Pads(toks, o, c - 1), false)
    ensures WellSpaced(toks, start, o, SameLineComment(toks, c), s)
    ensures Behind(SameLineComment(toks, c), s) == Trail("", false)
  {
    hide TrimRight, WellSpaced, Behind, InLine, EndsLine, Pads;
    var space, text := Space(" "), CommentText(c, TrimRight(toks[c].text));
    var end := if EndsLine(toks, c) then [CommentLine] else [];
    OneSpaced(toks, start, o, space, s);
    OneSpaced(toks, start, o, text, Move(s, space));
    OneSpaced(toks, start, o, CommentLine, Trail("", false));
    SpacedConcat(toks, start, o, [space], [text], s);
    SpacedConcat(toks, start, o, [space] + [text], end, s);
    assert SameLineComment(toks, c) == [space] + [text] + end;
  }

  lemma PadsOf(toks: seq<Token>, o: Comments.Options, i: int)
    requires RealAt(toks, i)
    ensures Pads(toks, o, i) == PadAt(o.pads, i)
  {
  }

  lemma NoPads(toks: seq<Token>, o: Comments.Options, c: int)
    requires CommentAt(toks, c)
    ensures Pads(toks, o, c) == ""
  {
  }

  lemma {:induction false} SameLineDocsSpaced(toks: seq<Token>, start: nat, o: Comments.Options, i: int, c: int,
                                              s: Trail)
    requires RealAt(toks, i) && i < c <= |toks| && forall k :: i < k < c ==> CommentAt(toks, k)
    requires s == Trail(Pads(toks, o, c - 1), false)
    ensures WellSpaced(toks, start, o, SameLineDocs(toks, i, c), s)
    decreases |toks| - c
  {
    hide SameLineComment, WellSpaced, Behind, IsComment, InLine, Pads;
    OneSpaced(toks, start, o, SoftLine, s);
    if c < |toks| && CommentAt(toks, c) && SameLine(toks, c, i) {
      BehindToken(toks, i, c);
      SameLineSpaced(toks, start, o, c, s);
      NoPads(toks, o, c);
      SameLineDocsSpaced(toks, start, o, i, c + 1, Trail("", false));
      SpacedConcat(toks, start, o, SameLineComment(toks, c), SameLineDocs(toks, i, c + 1), s);
    }
  }

  /** In front of a comment on its token's line the line has not been ended. */
  lemma StillOpen(toks: seq<Token>, prev: int, k: int)
    requires RealAt(toks, prev) && prev < k < |toks| && forall m :: prev < m <= k ==> CommentAt(toks, m)
    requires LinesEnd(toks) && LinesAscend(toks) && SameLine(toks, k, prev)
    ensures !CommentsRun(toks, prev, k).ended
  {
    hide LinesEnd, LinesAscend, IsComment, SameLineComment, OwnLineComment;
    LineOfFormer(toks, prev, k);
    SameLineGoesOn(toks, prev, k);
  }

  /** The comments between a token and the entry k. */
  lemma {:induction false} RunSpaced(toks: seq<Token>, start: nat, o: Comments.Options, prev: int, k: int)
    requires RealAt(toks, prev) && prev < k <= |toks| && forall m :: prev < m < k ==> CommentAt(toks, m)
    requires LinesEnd(toks) && LinesAscend(toks)
    ensures var r, s := CommentsRun(toks, prev, k), Trail(PadAt(o.pads, prev), false);
            && WellSpaced(toks, start, o, r.docs, s)
            && Behind(r.docs, s) == Trail(if r.ended then "" else Pads(toks, o, k - 1), false)
    decreases k - prev
  {
    hide SameLineComment, OwnLineComment, WellSpaced, Behind, IsComment, InLine, LinesEnd, LinesAscend, Pads, PadAt,
         SameLine, PrevReal;
    var s := Trail(PadAt(o.pads, prev), false);
    OneSpaced(toks, start, o, SoftLine, s);
    PadsOf(toks, o, prev);
    if k > prev + 1 {
      RunSpaced(toks, start, o, prev, k - 1);
      BehindToken(toks, prev, k - 1);
      NoPads(toks, o, k - 1);
      var r := CommentsRun(toks, prev, k - 1);
      if SameLine(toks, k - 1, prev) {
        StillOpen(toks, prev, k - 1);
        SameLineSpaced(toks, start, o, k - 1, Behind(r.docs, s));
        SpacedConcat(toks, start, o, r.docs, SameLineComment(toks, k - 1), s);
      } else {
        OwnLineSpaced(toks, start, o, k - 1, prev, false, Behind(r.docs, s));
        SpacedConcat(toks, start, o, r.docs, OwnLineComment(toks, k - 1, prev, false), s);
      }
    }
  }

  lemma {:induction false} OwnLineDocsSpaced(toks: seq<Token>, start: nat, o: Comments.Options, c: int, first: bool,
                                             s: Trail)
    requires start < |toks| && PrevReal(toks, start - 1) < c <= start && c >= 0
    requires s == if first then Trail(o.prefix, true) else Trail("", false)
    ensures var docs := OwnLineDocs(toks, PrevReal(toks, start - 1), c, start, first);
            WellSpaced(toks, start, o, docs, s) && Behind(docs, s) == if docs == [] then s else Trail("", false)
    decreases start - c
  {
    hide OwnLineComment, WellSpaced, Behind, PrevReal, SameLine;
    var prev := PrevReal(toks, start - 1);
    OneSpaced(toks, start, o, SoftLine, s);
    if c < start {
      BehindPrev(toks, start, c);
      if SameLine(toks, c, prev) {
        OwnLineDocsSpaced(toks, start, o, c + 1, first, s);
      } else {
        OwnLineSpaced(toks, start, o, c, prev, first, s);
        OwnLineDocsSpaced(toks, start, o, c + 1, false, Trail("", false));
        SpacedConcat(toks, start, o, OwnLineComment(toks, c, prev, first),
                     OwnLineDocs(toks, prev, c + 1, start, false), s);
      }
    }
  }

  lemma LeadingSpaced(toks: seq<Token>, start: nat, o: Comments.Options)
    requires start < |toks|
    ensures var docs, s := LeadingDocs(toks, start), Trail(o.prefix, true);
            WellSpaced(toks, start, o, docs, s) && Behind(docs, s) == if docs == [] then s else Trail("", false)
  {
    hide OwnLineDocs, WellSpaced, Behind, PrevReal;
    var prev, s := PrevReal(toks, start - 1), Trail(o.prefix, true);
    var docs := OwnLineDocs(toks, prev, prev + 1, start, true);
    OwnLineDocsSpaced(toks, start, o, prev + 1, true, s);
    LinesSpaced(toks, start, o, toks[start].blankLines, Behind(docs, s));
    SpacedConcat(toks, start, o, docs, Copies(toks[start].blankLines, HardLine), s);
    assert docs + [] == docs;
  }

  // ----- tokens -----

  lemma TokenDocsSpaced(toks: seq<Token>, start: nat, o: Comments.Options, i: nat, s: Trail)
    requires i < |toks| && o.skipText == [] && TokenSpaced(toks, start, o, i, s)
    ensures WellSpaced(toks, start, o, TokenDocs(toks, i, o), s)
    ensures Behind(TokenDocs(toks, i, o), s) == Trail(PadAt(o.pads, i), false)
  {
    hide WellSpaced, Behind, PadAt, Spaces;
    var text := TokenText(i, if toks[i].kind == Async then "oneway" else toks[i].text);
    OneSpaced(toks, start, o, text, s);
    SpacesSpaced(toks, start, o, PadAt(o.pads, i), Trail("", false));
    SpacedConcat(toks, start, o, [text], Spaces(PadAt(o.pads, i)), s);
    assert "" + PadAt(o.pads, i) == PadAt(o.pads, i);
  }

  lemma {:induction false} RunEnded(toks: seq<Token>, prev: int, c: int)
    requires RealAt(toks, prev) && prev < c <= |toks| && LinesEnd(toks) && LinesAscend(toks)
    requires SameLineEndsLine(toks, prev, c)
    ensures exists k :: c <= k && CommentAt(toks, k) && SameLine(toks, k, prev) && EndsLine(toks, k)
                        && forall m :: c <= m <= k ==> CommentAt(toks, m)
    decreases |toks| - c
  {
    hide LinesEnd, LinesAscend;
    if !EndsLine(toks, c) {
      RunEnded(toks, prev, c + 1);
    }
  }

  /** A line comment on its token's line is the last comment there, so that the run up to the next token has ended its
      line. */
  lemma NothingMissed(toks: seq<Token>, prev: int, i: int)
    requires RealAt(toks, prev) && prev < i < |toks| && RealAt(toks, i)
    requires LinesEnd(toks) && LinesAscend(toks) && forall m :: prev < m < i ==> CommentAt(toks, m)
    requires SameLineEndsLine(toks, prev, prev + 1)
    ensures EndsItsLine(toks, i - 1)
  {
    hide LinesEnd, LinesAscend, IsComment;
    RunEnded(toks, prev, prev + 1);
    var k :| prev + 1 <= k && CommentAt(toks, k) && SameLine(toks, k, prev) && EndsLine(toks, k)
             && forall m :: prev + 1 <= m <= k ==> CommentAt(toks, m);
    assert k >= i ==> CommentAt(toks, i);
    if k < i - 1 {
      BehindToken(toks, prev, i - 1);
      assert !SameLine(toks, i - 1, prev) by {
        if SameLine(toks, i - 1, prev) {
          FormerLines(toks, prev, k + 1, i - 1);
          SameLineGoesOn(toks, prev, k + 1);
        }
      }
    }
  }

  lemma {:induction false} FormerLines(toks: seq<Token>, p: int, c: int, d: int)
    requires LinesAscend(toks) && 0 <= p < c <= d && SameLine(toks, d, p)
    ensures SameLine(toks, c, p)
    decreases d
  {
    hide LinesAscend;
    if c < d {
      LineOfFormer(toks, p, d);
      FormerLines(toks, p, c, d - 1);
    }
  }

  lemma BetweenSpaced(toks: seq<Token>, start: nat, o: Comments.Options, prev: nat, i: nat)
    requires RealAt(toks, prev) && start <= prev < i < |toks| && RealAt(toks, i) && o.skipText == []
    requires LinesEnd(toks) && LinesAscend(toks) && forall m :: prev < m < i ==> CommentAt(toks, m)
    ensures var docs, s := BetweenDocs(toks, prev, i, o), Trail(PadAt(o.pads, prev), false);
            WellSpaced(toks, start, o, docs, s) && TokenSpaced(toks, start, o, i, Behind(docs, s))
  {
    hide WellSpaced, Behind, WellPlaced, CommentPlaces.After, CommentsRun, LinesEnd, LinesAscend, RawTokenGap,
         SameLineEndsLine, IsComment, EndsItsLine, Pads, PadAt;
    var s, run := Trail(PadAt(o.pads, prev), false), CommentsRun(toks, prev, i);
    RunSpaced(toks, start, o, prev, i);
    RunPlaced(toks, start, prev, i);
    BehindToken(toks, prev, i - 1);
    if SameLineEndsLine(toks, prev, prev + 1) {
      NothingMissed(toks, prev, i);
    }
    OneSpaced(toks, start, o, Space(RawTokenGap(toks[prev].kind, toks[i].kind)), Behind(run.docs, s));
    SpacedConcat(toks, start, o, run.docs, TokenGap(toks, prev, i), s);
    assert run.docs + [] == run.docs;
  }

  lemma {:induction false} BodySpaced(toks: seq<Token>, start: nat, o: Comments.Options, i: nat, s: Trail)
    requires start < i <= |toks| && RealAt(toks, start) && o.skipText == [] && LinesEnd(toks) && LinesAscend(toks)
    requires TokenSpaced(toks, start, o, start, s)
    ensures WellSpaced(toks, start, o, Body(toks, start, i, o), s)
    ensures Behind(Body(toks, start, i, o), s) == Trail(PadAt(o.pads, PrevReal(toks, i - 1)), false)
    decreases i
  {
    hide TokenDocs, BetweenDocs, WellSpaced, Behind, IsComment, LinesEnd, LinesAscend, PadAt, TokenSpaced;
    if i == start + 1 {
      TokenDocsSpaced(toks, start, o, start, s);
    } else {
      BodySpaced(toks, start, o, i - 1, s);
      if !CommentAt(toks, i - 1) {
        PrevBounds(toks, start, i - 2);
        var prev, body := PrevReal(toks, i - 2), Body(toks, start, i - 1, o);
        var mid := BetweenDocs(toks, prev, i - 1, o);
        BetweenSpaced(toks, start, o, prev, i - 1);
        SpacedConcat(toks, start, o, body, mid, s);
        TokenDocsSpaced(toks, start, o, i - 1, Behind(body + mid, s));
        SpacedConcat(toks, start, o, body + mid, TokenDocs(toks, i - 1, o), s);
      }
    }
  }

  /** For any range, the blanks in front of each token and comment are the ones called for. */
  lemma EmittedSpaced(toks: seq<Token>, start: nat, end: nat, o: Comments.Options)
    requires start <= end < |toks| && RealAt(toks, start) && o.skipText == [] && LinesEnd(toks) && LinesAscend(toks)
    ensures WellSpaced(toks, start, o, Emitted(toks, start, end, o), Trail("", true))
  {
    hide WellSpaced, Behind, LeadingDocs, Body, SameLineDocs, Spaces, IsComment, LinesEnd, LinesAscend, PrevReal, PadAt;
    var s, last := Trail("", true), PrevReal(toks, end);
    var prefix, body, tail := Spaces(o.prefix), Body(toks, start, end + 1, o), SameLineDocs(toks, last, last + 1);
    var lead := if o.leading then LeadingDocs(toks, start) else [];
    PrevBounds(toks, start, end);
    SpacesSpaced(toks, start, o, o.prefix, s);
    assert "" + o.prefix == o.prefix;
    LeadingSpaced(toks, start, o);
    OneSpaced(toks, start, o, SoftLine, Trail(o.prefix, true));
    SpacedConcat(toks, start, o, prefix, lead, s);
    BodySpaced(toks, start, o, end + 1, Behind(prefix + lead, s));
    SpacedConcat(toks, start, o, prefix + lead, body, s);
    var s3 := Trail(PadAt(o.pads, last), false);
    OneSpaced(toks, start, o, SoftLine, s3);
    SameLineDocsSpaced(toks, start, o, last, last + 1, s3);
    SpacedConcat(toks, start, o, prefix + lead + body, if o.trailing then tail else [], s);
    EmittedIs(toks, start, end, o);
  }
}
