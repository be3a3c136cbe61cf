/** Where comments end up: on the line of the token before them exactly when they were there, and otherwise at the start
    of a line with their blank lines (formatter/comments.go). */
module CommentPlaces {
  import opened Lexing
  import opened LexRoundTrip
  import opened Comments
  import opened PrintedEmission
  import Emission
  import Layout
  import LexProps
  import Page
  import PrintMachine
  import PrintText
  import WovenLexing
  import opened Doc

  /** The entry shares the line of the token before it. */
  predicate InLine(toks: seq<Token>, i: int)
    requires i < |toks|
  {
    PrevReal(toks, i) >= 0 && SameLine(toks, i, PrevReal(toks, i))
  }

  // ----- lines before each comment -----

  /** How many lines have ended since the last token or comment, and whether there was none yet. */
  datatype Place = Place(lines: nat, first: bool)

  function Next(s: Place, p: Piece): Place {
    match p
    case Space(_) => s
    case SoftLine => s.(lines := if s.lines == 0 then 1 else s.lines)
    case HardLine => s.(lines := s.lines + 1)
    case CommentLine => s.(lines := s.lines + 1)
    case _ => Place(0, false)
  }

  function After(ps: seq<Piece>, s: Place): Place {
    if ps == [] then s else After(ps[1..], Next(s, ps[0]))
  }

  /** A comment on its token's line follows something on that line; another one starts a line, with its blank lines
      before it. */
  predicate CommentOK(toks: seq<Token>, c: int, s: Place) {
    c < |toks| &&
    if InLine(toks, c) then s == Place(0, false)
    else 0 <= c && (s.lines == 1 + toks[c].blankLines || (s == Place(0, true) && toks[c].blankLines == 0))
  }

  /** The entry ends its line: a comment on a line of its own, or a line comment. */
  predicate EndsItsLine(toks: seq<Token>, c: int) {
    CommentAt(toks, c) && (EndsLine(toks, c) || !InLine(toks, c))
  }

  /** The first token keeps the blank lines behind the comments before it; another token starts a line only behind a
      comment that ends its line. */
  predicate TokenOK(toks: seq<Token>, start: nat, i: int, s: Place) {
    && 0 <= i < |toks|
    && if i == start then s == Place(0, true) || s == Place(1 + toks[i].blankLines, false)
       else s == Place(if EndsItsLine(toks, i - 1) then 1 else 0, false)
  }

  predicate PieceOK(toks: seq<Token>, start: nat, p: Piece, s: Place) {
    (p.CommentText? ==> CommentOK(toks, p.at, s)) && (p.TokenText? ==> TokenOK(toks, start, p.at, s))
  }

  predicate WellPlaced(toks: seq<Token>, start: nat, ps: seq<Piece>, s: Place) {
    ps == [] || (PieceOK(toks, start, ps[0], s) && WellPlaced(toks, start, ps[1..], Next(s, ps[0])))
  }

  lemma {:induction false} WellConcat(toks: seq<Token>, start: nat, a: seq<Piece>, b: seq<Piece>, s: Place)
    ensures After(a + b, s) == After(b, After(a, s))
    ensures WellPlaced(toks, start, a + b, s) <==>
            WellPlaced(toks, start, a, s) && WellPlaced(toks, start, b, After(a, s))
    decreases |a|
  {
    hide PieceOK;
    if a == [] {
      assert a + b == b;
    } else {
      assert (a + b)[0] == a[0] && (a + b)[1..] == a[1..] + b;
      WellConcat(toks, start, a[1..], b, Next(s, a[0]));
    }
  }

  lemma OnePlaced(toks: seq<Token>, start: nat, p: Piece, s: Place)
    ensures After([p], s) == Next(s, p)
    ensures WellPlaced(toks, start, [p], s) <==> PieceOK(toks, start, p, s)
    ensures After([], s) == s && WellPlaced(toks, start, [], s)
  {
    hide PieceOK;
    assert [p][1..] == [];
    assert After([p][1..], Next(s, p)) == Next(s, p) && WellPlaced(toks, start, [p][1..], Next(s, p));
  }

  lemma {:induction false} BlankLinesPlaced(toks: seq<Token>, start: nat, n: nat, s: Place)
    ensures After(Copies(n, HardLine), s) == s.(lines := s.lines + n) && WellPlaced(toks, start, Copies(n, HardLine), s)
    decreases n
  {
    if n > 0 {
      assert Copies(n, HardLine)[1..] == Copies(n - 1, HardLine);
      BlankLinesPlaced(toks, start, n - 1, s.(lines := s.lines + 1));
    }
  }

  /** A comment on a line of its own, behind a text or behind the end of a line. */
  lemma OwnLinePlaced(toks: seq<Token>, start: nat, c: nat, prev: int, first: bool, s: Place)
    requires c < |toks| && !InLine(toks, c) && s.lines <= 1
    requires prev >= 0 || !first || s == Place(0, true)
    ensures WellPlaced(toks, start, OwnLineComment(toks, c, prev, first), s)
    ensures After(OwnLineComment(toks, c, prev, first), s) == Place(1, false)
  {
    hide TrimRight, WellPlaced, After, InLine;
    var lead := if prev >= 0 || !first || toks[c].blankLines > 0 then [SoftLine] else [];
    var blank := Copies(toks[c].blankLines, HardLine);
    var text := [CommentText(c, TrimRight(toks[c].text)), CommentLine];
    var s1 := After(lead, s);
    OnePlaced(toks, start, SoftLine, s);
    WellConcat(toks, start, lead, blank, s);
    BlankLinesPlaced(toks, start, toks[c].blankLines, s1);
    var s2 := After(lead + blank, s);
    WellConcat(toks, start, lead + blank, text, s);
    assert text == [text[0]] + [text[1]];
    WellConcat(toks, start, [text[0]], [text[1]], s2);
    OnePlaced(toks, start, text[0], s2);
    OnePlaced(toks, start, text[1], Place(0, false));
  }

  /** A comment on its token's line, with nothing but texts before it there. */
  lemma SameLinePlaced(toks: seq<Token>, start: nat, c: nat, s: Place)
    requires c < |toks| && InLine(toks, c) && s == Place(0, false)
    ensures WellPlaced(toks, start, SameLineComment(toks, c), s)
    ensures After(SameLineComment(toks, c), s) == Place(if EndsLine(toks, c) then 1 else 0, false)
  {
    hide TrimRight, WellPlaced, After, InLine, EndsLine;
    var space, text := Space(" "), CommentText(c, TrimRight(toks[c].text));
    var end := if EndsLine(toks, c) then [CommentLine] else [];
    OnePlaced(toks, start, space, s);
    OnePlaced(toks, start, text, s);
    OnePlaced(toks, start, CommentLine, Place(0, false));
    WellConcat(toks, start, [space], [text], s);
    WellConcat(toks, start, [space] + [text], end, s);
    assert SameLineComment(toks, c) == [space] + [text] + end;
  }

  // ----- a line comment ends its line -----

  /** A comment behind a line comment is on a later line. */
  ghost predicate LinesEnd(toks: seq<Token>) {
    forall c :: 0 <= c && CommentAt(toks, c + 1) && toks[c].kind == LineComment ==> toks[c].line < toks[c + 1].line
  }

  /** The comments after i on its line: none of them but the last is a line comment. */
  lemma SameLineGoesOn(toks: seq<Token>, i: int, c: int)
    requires LinesEnd(toks) && 0 <= i < c && CommentAt(toks, c) && SameLine(toks, c, i) && SameLine(toks, c - 1, i)
    ensures toks[c - 1].kind != LineComment
  {
    assert CommentAt(toks, c - 1 + 1);
  }

  lemma BehindToken(toks: seq<Token>, p: int, c: int)
    requires RealAt(toks, p) && p <= c < |toks| && forall k :: p < k <= c ==> CommentAt(toks, k)
    ensures PrevReal(toks, c) == p && (InLine(toks, c) <==> SameLine(toks, c, p))
  {
    PrevOf(toks, p, c);
  }

  lemma {:induction false} SameLineDocsPlaced(toks: seq<Token>, start: nat, i: int, c: int, s: Place)
    requires RealAt(toks, i) && i < c <= |toks| && LinesEnd(toks)
    requires forall k :: i < k < c ==> CommentAt(toks, k) && SameLine(toks, k, i)
    requires s == Place(if c - 1 > i && EndsLine(toks, c - 1) then 1 else 0, false)
    ensures WellPlaced(toks, start, SameLineDocs(toks, i, c), s)
    decreases |toks| - c
  {
    hide SameLineComment, WellPlaced, After, IsComment, InLine, LinesEnd;
    OnePlaced(toks, start, SoftLine, s);
    if c < |toks| && CommentAt(toks, c) && SameLine(toks, c, i) {
      BehindToken(toks, i, c);
      SameLineGoesOn(toks, i, c);
      NoLineComment(toks, i);
      SameLinePlaced(toks, start, c, s);
      SameLineDocsPlaced(toks, start, i, c + 1, After(SameLineComment(toks, c), s));
      WellConcat(toks, start, SameLineComment(toks, c), SameLineDocs(toks, i, c + 1), s);
    }
  }

  lemma NoLineComment(toks: seq<Token>, i: int)
    requires RealAt(toks, i)
    ensures toks[i].kind != LineComment
  {
  }

  /** The comments between a token and the entry k. */
  lemma {:induction false} RunPlaced(toks: seq<Token>, start: nat, prev: int, k: int)
    requires RealAt(toks, prev) && prev < k <= |toks| && forall m :: prev < m < k ==> CommentAt(toks, m)
    requires LinesEnd(toks) && LinesAscend(toks)
    ensures var r := CommentsRun(toks, prev, k);
            && WellPlaced(toks, start, r.docs, Place(0, false))
            && After(r.docs, Place(0, false)) == Place(if r.ended then 1 else 0, false)
            && (r.ended <==> EndsItsLine(toks, k - 1))
            && (r.ended && SameLine(toks, k - 1, prev) ==> EndsLine(toks, k - 1))
    decreases k - prev
  {
    hide SameLineComment, OwnLineComment, WellPlaced, After, IsComment, InLine, LinesEnd, LinesAscend;
    var s := Place(0, false);
    OnePlaced(toks, start, SoftLine, s);
    if k > prev + 1 {
      RunPlaced(toks, start, prev, k - 1);
      BehindToken(toks, prev, k - 1);
      var r := CommentsRun(toks, prev, k - 1);
      var s1 := After(r.docs, s);
      if SameLine(toks, k - 1, prev) {
        LineOfFormer(toks, prev, k - 1);
        SameLineGoesOn(toks, prev, k - 1);
        NoLineComment(toks, prev);
        SameLinePlaced(toks, start, k - 1, s1);
        WellConcat(toks, start, r.docs, SameLineComment(toks, k - 1), s);
      } else {
        OwnLinePlaced(toks, start, k - 1, prev, false, s1);
        WellConcat(toks, start, r.docs, OwnLineComment(toks, k - 1, prev, false), s);
      }
    }
  }

  lemma LineOfFormer(toks: seq<Token>, p: int, c: int)
    requires LinesAscend(toks) && 0 <= p < c && SameLine(toks, c, p)
    ensures SameLine(toks, c - 1, p)
  {
  }

  // ----- the emitted tokens -----

  lemma BehindPrev(toks: seq<Token>, i: int, c: int)
    requires 0 <= i < |toks| && PrevReal(toks, i - 1) < c < i
    ensures CommentAt(toks, c) && PrevReal(toks, c) == PrevReal(toks, i - 1)
  {
    hide IsComment;
    OnlyComments(toks, i - 1, c);
    SamePrev(toks, i - 1, c);
  }

  lemma {:induction false} SamePrev(toks: seq<Token>, i: int, c: int)
    requires i < |toks| && PrevReal(toks, i) < c <= i
    ensures PrevReal(toks, c) == PrevReal(toks, i)
    decreases i + 1
  {
    hide IsComment;
    if c < i {
      SamePrev(toks, i - 1, c);
    }
  }

  lemma {:induction false} OwnLineDocsPlaced(toks: seq<Token>, start: nat, c: int, i: int, first: bool, s: Place)
    requires 0 <= i < |toks| && PrevReal(toks, i - 1) < c <= i && c >= 0
    requires if first then s == Place(0, true) else s == Place(1, false)
    ensures WellPlaced(toks, start, OwnLineDocs(toks, PrevReal(toks, i - 1), c, i, first), s)
    ensures var docs := OwnLineDocs(toks, PrevReal(toks, i - 1), c, i, first);
            After(docs, s) == if docs == [] then s else Place(1, false)
    decreases i - c
  {
    hide OwnLineComment, WellPlaced, After, PrevReal, SameLine;
    var prev := PrevReal(toks, i - 1);
    OnePlaced(toks, start, SoftLine, s);
    if c < i {
      BehindPrev(toks, i, c);
      if SameLine(toks, c, prev) {
        OwnLineDocsPlaced(toks, start, c + 1, i, first, s);
      } else {
        OwnLinePlaced(toks, start, c, prev, first, s);
        OwnLineDocsPlaced(toks, start, c + 1, i, false, Place(1, false));
        WellConcat(toks, start, OwnLineComment(toks, c, prev, first), OwnLineDocs(toks, prev, c + 1, i, false), s);
      }
    }
  }

  lemma LeadingPlaced(toks: seq<Token>, start: nat, i: int)
    requires 0 <= i < |toks|
    ensures WellPlaced(toks, start, LeadingDocs(toks, i), Place(0, true))
    ensures var s := After(LeadingDocs(toks, i), Place(0, true));
            s == Place(0, true) || s == Place(1 + toks[i].blankLines, false)
  {
    hide OwnLineDocs, WellPlaced, After, PrevReal;
    var prev, s := PrevReal(toks, i - 1), Place(0, true);
    var docs := OwnLineDocs(toks, prev, prev + 1, i, true);
    OwnLineDocsPlaced(toks, start, prev + 1, i, true, s);
    BlankLinesPlaced(toks, start, toks[i].blankLines, After(docs, s));
    WellConcat(toks, start, docs, Copies(toks[i].blankLines, HardLine), s);
    assert docs + [] == docs;
  }

  lemma SpacesPlaced(toks: seq<Token>, start: nat, text: string, s: Place)
    ensures WellPlaced(toks, start, Spaces(text), s) && After(Spaces(text), s) == s
  {
    hide WellPlaced, After;
    OnePlaced(toks, start, Space(text), s);
  }

  lemma TokenPlaced(toks: seq<Token>, start: nat, i: nat, o: Comments.Options, s: Place)
    requires i < |toks| && o.skipText == [] && TokenOK(toks, start, i, s)
    ensures WellPlaced(toks, start, TokenDocs(toks, i, o), s) && After(TokenDocs(toks, i, o), s) == Place(0, false)
  {
    hide WellPlaced, After, PadAt, Spaces;
    var text := TokenText(i, if toks[i].kind == Async then "oneway" else toks[i].text);
    OnePlaced(toks, start, text, s);
    SpacesPlaced(toks, start, PadAt(o.pads, i), Place(0, false));
    WellConcat(toks, start, [text], Spaces(PadAt(o.pads, i)), s);
  }

  lemma BetweenPlaced(toks: seq<Token>, start: nat, prev: nat, i: nat, o: Comments.Options)
    requires RealAt(toks, prev) && prev < i < |toks| && forall m :: prev < m < i ==> CommentAt(toks, m)
    requires LinesEnd(toks) && LinesAscend(toks)
    ensures WellPlaced(toks, start, BetweenDocs(toks, prev, i, o), Place(0, false))
    ensures After(BetweenDocs(toks, prev, i, o), Place(0, false)) ==
            Place(if EndsItsLine(toks, i - 1) then 1 else 0, false)
  {
    hide WellPlaced, After, CommentsRun, LinesEnd, LinesAscend, RawTokenGap, SameLineEndsLine, IsComment;
    var s, run := Place(0, false), CommentsRun(toks, prev, i);
    RunPlaced(toks, start, prev, i);
    OnePlaced(toks, start, Space(RawTokenGap(toks[prev].kind, toks[i].kind)), After(run.docs, s));
    WellConcat(toks, start, run.docs, TokenGap(toks, prev, i), s);
    assert run.docs + [] == run.docs;
  }

  lemma {:induction false} BodyPlaced(toks: seq<Token>, start: nat, i: nat, o: Comments.Options, s: Place)
    requires start < i <= |toks| && RealAt(toks, start) && o.skipText == [] && LinesEnd(toks) && LinesAscend(toks)
    requires TokenOK(toks, start, start, s)
    ensures WellPlaced(toks, start, Body(toks, start, i, o), s) && After(Body(toks, start, i, o), s) == Place(0, false)
    decreases i
  {
    hide TokenDocs, BetweenDocs, WellPlaced, After, IsComment, PrevReal, LinesEnd, LinesAscend;
    if i == start + 1 {
      TokenPlaced(toks, start, start, o, s);
    } else {
      BodyPlaced(toks, start, i - 1, o, s);
      if !CommentAt(toks, i - 1) {
        PrevBounds(toks, start, i - 2);
        var prev, body := PrevReal(toks, i - 2), Body(toks, start, i - 1, o);
        var mid := BetweenDocs(toks, prev, i - 1, o);
        BetweenPlaced(toks, start, prev, i - 1, o);
        WellConcat(toks, start, body, mid, s);
        TokenPlaced(toks, start, i - 1, o, After(body + mid, s));
        WellConcat(toks, start, body + mid, TokenDocs(toks, i - 1, o), s);
      }
    }
  }

  /** Every comment that emitTokens writes is placed by the line it had. */
  lemma EmittedPlaced(toks: seq<Token>, start: nat, end: nat, o: Comments.Options)
    requires start <= end < |toks| && RealAt(toks, start) && o.skipText == [] && LinesEnd(toks) && LinesAscend(toks)
    ensures WellPlaced(toks, start, Emitted(toks, start, end, o), Place(0, true))
  {
    hide WellPlaced, After, LeadingDocs, Body, SameLineDocs, SuppressedDocs, Spaces, IsComment, LinesEnd, LinesAscend,
         PrevReal, RealAt;
    var s, last := Place(0, true), PrevReal(toks, end);
    var prefix, body, tail := Spaces(o.prefix), Body(toks, start, end + 1, o), SameLineDocs(toks, last, last + 1);
    var lead := if o.leading then LeadingDocs(toks, start) else [];
    PrevBounds(toks, start, end);
    SpacesPlaced(toks, start, o.prefix, s);
    LeadingPlaced(toks, start, start);
    OnePlaced(toks, start, SoftLine, s);
    WellConcat(toks, start, prefix, lead, s);
    BodyPlaced(toks, start, end + 1, o, After(prefix + lead, s));
    WellConcat(toks, start, prefix + lead, body, s);
    OnePlaced(toks, start, SoftLine, Place(0, false));
    SameLineDocsPlaced(toks, start, last, last + 1, Place(0, false));
    WellConcat(toks, start, prefix + lead + body, if o.trailing then tail else [], s);
    EmittedIs(toks, start, end, o);
  }

  lemma EmittedIs(toks: seq<Token>, start: nat, end: nat, o: Comments.Options)
    requires start <= end < |toks| && RealAt(toks, start) && o.skipText == []
    ensures var last := PrevReal(toks, end);
            && start <= last <= end
            && Emitted(toks, start, end, o)
               == Spaces(o.prefix) + (if o.leading then LeadingDocs(toks, start) else [])
                  + Body(toks, start, end + 1, o) + (if o.trailing then SameLineDocs(toks, last, last + 1) else [])
  {
    hide LeadingDocs, Body, SameLineDocs, SuppressedDocs, Spaces, IsComment, PrevReal;
    PrevBounds(toks, start, end);
  }

  // ----- the gap in front of each token and comment -----

  lemma {:induction false} PlaceOfRun(ps: seq<Piece>, run: seq<Layout.Leaf>, s: Place)
    requires |ps| == |run| && forall i :: 0 <= i < |ps| ==> !Marked(ps[i]) && PieceLeaf(ps[i]) == run[i]
    requires s.lines == 0
    ensures After(ps, s) == Place(Layout.LineCount(run), s.first)
    decreases |ps|
  {
    hide After, WellPlaced, CommentOK;
    OnePlaced([], 0, SoftLine, s);
    if ps == [] {
      assert run == [];
    } else {
      var less, last := ps[..|ps| - 1], ps[|ps| - 1];
      PlaceOfRun(less, run[..|run| - 1], s);
      assert ps == less + [last];
      WellConcat([], 0, less, [last], s);
      OnePlaced([], 0, last, After(less, s));
      assert PieceLeaf(last) == run[|run| - 1];
    }
  }

  predicate EntryOK(toks: seq<Token>, start: nat, c: int, s: Place) {
    if CommentAt(toks, c) then CommentOK(toks, c, s) else TokenOK(toks, start, c, s)
  }

  /** In a layout of well-placed pieces, the lines in front of each token and comment are those its place asks for. */
  ghost predicate Spread(toks: seq<Token>, start: nat, parts: seq<Layout.Part>, sources: seq<int>, first: bool) {
    && |parts| == |sources|
    && forall i :: 0 <= i < |parts| ==>
         EntryOK(toks, start, sources[i], Place(Layout.LineCount(parts[i].run), first && i == 0))
  }

  lemma {:induction false} WeaveSpread(g: Layout.Setting, toks: seq<Token>, start: nat, ps: seq<Piece>,
                                       parts: seq<Layout.Part>, run: seq<Layout.Leaf>, tail: string, first: bool)
    requires Layout.GapOf(g, run, tail) && forall i :: 0 <= i < |parts| ==> Layout.PartOK(g, parts[i])
    requires Layout.LeavesOf(parts) + run == PieceLeaves(ps)
    requires AllTrue(toks, ps) && AllItems(toks, ps) && WellPlaced(toks, start, ps, Place(0, first))
    ensures Spread(toks, start, parts, Sources(ps), first)
    decreases |parts|
  {
    hide *;
    if parts == [] {
      NoneSpread(g, toks, start, ps, run, tail, first);
    } else {
      PartIs(g, parts);
      var k := FirstMark(ps, parts, run);
      var rest := ps[k + 1..];
      TrueRest(toks, ps, k);
      FirstSource(ps, k);
      FirstPlaced(toks, start, ps, parts[0].run, k, first);
      WeaveSpread(g, toks, start, rest, parts[1..], run, tail, false);
      SpreadFront(toks, start, parts, ps[k].at, Sources(rest), first);
    }
  }

  lemma NoneSpread(g: Layout.Setting, toks: seq<Token>, start: nat, ps: seq<Piece>, run: seq<Layout.Leaf>, tail: string,
                   first: bool)
    requires Layout.GapOf(g, run, tail) && Layout.LeavesOf([]) + run == PieceLeaves(ps)
    ensures Spread(toks, start, [], Sources(ps), first)
  {
    assert Layout.LeavesOf([]) == [] && run == PieceLeaves(ps);
    forall i | 0 <= i < |ps| ensures !Marked(ps[i]) {
      assert run[i] == PieceLeaf(ps[i]);
    }
    NoMarks(ps);
  }

  /** The first token or comment of the pieces, and what is left after it. */
  lemma FirstPlaced(toks: seq<Token>, start: nat, ps: seq<Piece>, run: seq<Layout.Leaf>, k: nat, first: bool)
    requires k == |run| < |ps| && Marked(ps[k]) && PrintedEmission.True(toks, ps[k])
             && WellPlaced(toks, start, ps, Place(0, first))
    requires forall i :: 0 <= i < k ==> !Marked(ps[i]) && PieceLeaf(ps[i]) == run[i]
    ensures EntryOK(toks, start, ps[k].at, Place(Layout.LineCount(run), first))
    ensures WellPlaced(toks, start, ps[k + 1..], Place(0, false))
  {
    hide WellPlaced, After, CommentOK, TokenOK, Layout.LineCount, ItemAt, IsComment;
    var s, front, mark := Place(0, first), ps[..k], [ps[k]];
    assert ps == front + (mark + ps[k + 1..]);
    WellConcat(toks, start, front, mark + ps[k + 1..], s);
    PlaceOfRun(front, run, s);
    WellConcat(toks, start, mark, ps[k + 1..], After(front, s));
    OnePlaced(toks, start, ps[k], After(front, s));
  }

  lemma SpreadFront(toks: seq<Token>, start: nat, parts: seq<Layout.Part>, at: int, sources: seq<int>, first: bool)
    requires parts != [] && Spread(toks, start, parts[1..], sources, false)
    requires EntryOK(toks, start, at, Place(Layout.LineCount(parts[0].run), first))
    ensures Spread(toks, start, parts, [at] + sources, first)
  {
    hide EntryOK, Layout.LineCount;
    var all := [at] + sources;
    forall i | 0 <= i < |parts|
      ensures EntryOK(toks, start, all[i], Place(Layout.LineCount(parts[i].run), first && i == 0))
    {
      if i > 0 {
        assert parts[i] == parts[1..][i - 1] && all[i] == sources[i - 1];
      }
    }
  }
}
