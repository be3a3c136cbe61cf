/** What emitTokens writes, laid out by the document printer and lexed again, gives back every token and
    every comment (formatter/format.go, formatter/comments.go). */
module PrintedEmission {
  import opened Lexing
  import opened LexRoundTrip
  import opened Comments
  import Emission
  import LexProps
  import WovenLexing
  import Layout
  import Page
  import PrintText
  import PrintMachine
  import opened Doc
  import opened Wrappers

  // ----- pieces as a document -----

  function PieceLeaf(p: Piece): Layout.Leaf {
    match p
    case Space(text) => Layout.Blanks(text)
    case TokenText(_, text) => Layout.Ink(text)
    case CommentText(_, text) => Layout.Ink(text)
    case SoftLine => Layout.SoftBreak
    case HardLine => Layout.HardBreak
    case CommentLine => Layout.HardBreak
  }

  function PieceLeaves(ps: seq<Piece>): seq<Layout.Leaf> {
    seq(|ps|, i requires 0 <= i < |ps| => PieceLeaf(ps[i]))
  }

  function LineOf(soft: bool, hard: bool, comment: bool): Doc {
    LineDoc(Line(soft, hard, false, comment, false))
  }

  function PieceDoc(p: Piece): Doc {
    match p
    case Space(text) => Text(text)
    case TokenText(_, text) => Text(text)
    case CommentText(_, text) => Text(text)
    case SoftLine => LineOf(true, false, false)
    case HardLine => Concat([LineOf(false, true, false), BreakParent])
    case CommentLine => Concat([LineOf(false, true, true), BreakParent])
  }

  /** The document of emitTokens. */
  function PiecesDoc(ps: seq<Piece>): Doc {
    Concat(seq(|ps|, i requires 0 <= i < |ps| => PieceDoc(ps[i])))
  }

  /** Space pieces are blank, and tokens and comments end visibly. */
  predicate Shown(p: Piece) {
    match p
    case Space(text) => Page.AllBlank(text)
    case TokenText(_, text) => Page.EndsVisibly(text)
    case CommentText(_, text) => Page.EndsVisibly(text)
    case _ => true
  }

  ghost predicate AllShown(ps: seq<Piece>) {
    forall i :: 0 <= i < |ps| ==> Shown(ps[i])
  }

  lemma LineLeaves(line: Line)
    ensures Layout.Leaves(Concat([LineDoc(line), BreakParent])) == Layout.Leaves(LineDoc(line))
    ensures !line.literal ==> Page.Straight(Concat([LineDoc(line), BreakParent]))
  {
    var d := Concat([LineDoc(line), BreakParent]);
    var rest := d.parts[1..];
    assert |rest| == 1 && rest[0] == BreakParent && |rest[1..]| == 0;
    assert Layout.AllLeaves(rest[1..], d) == [] && Layout.AllLeaves(rest, d) == [];
    assert Page.AllStraight(rest[1..], d) && Page.AllStraight(rest, d);
  }

  lemma OnePiece(p: Piece)
    requires Shown(p)
    ensures Page.Straight(PieceDoc(p)) && Layout.Leaves(PieceDoc(p)) == [PieceLeaf(p)]
  {
    LineLeaves(Line(false, true, false, false, false));
    LineLeaves(Line(false, true, false, true, false));
    if p.TokenText? || p.CommentText? {
      assert !PrintText.Space(p.text[|p.text| - 1]);
    }
  }

  lemma {:induction false} PartsLeaves(ds: seq<Doc>, ps: seq<Piece>, parent: Doc)
    requires |ds| == |ps| && AllShown(ps) && forall i :: 0 <= i < |ds| ==> ds[i] < parent && ds[i] == PieceDoc(ps[i])
    ensures Page.AllStraight(ds, parent) && Layout.AllLeaves(ds, parent) == PieceLeaves(ps)
    decreases |ds|
  {
    hide Shown, PieceDoc, PieceLeaf;
    if ds != [] {
      OnePiece(ps[0]);
      PartsLeaves(ds[1..], ps[1..], parent);
      assert PieceLeaves(ps) == [PieceLeaf(ps[0])] + PieceLeaves(ps[1..]);
    }
  }

  /** The document of emitTokens holds its pieces. */
  lemma PiecesDocIs(ps: seq<Piece>)
    requires AllShown(ps)
    ensures Page.Straight(PiecesDoc(ps)) && Layout.Leaves(PiecesDoc(ps)) == PieceLeaves(ps)
  {
    hide AllShown, PieceDoc;
    PartsLeaves(PiecesDoc(ps).parts, ps, PiecesDoc(ps));
  }

  // ----- tokens that follow one another are apart -----

  function WrittenKind(toks: seq<Token>, i: nat): Kind {
    if i < |toks| then Emission.Written(toks[i]).kind else EOF
  }

  /** After a token of kind last, if nothing parted it from what follows yet: no token comes next that
      would need a gap. */
  predicate Apart(toks: seq<Token>, ps: seq<Piece>, last: Option<Kind>) {
    ps == [] ||
    match ps[0]
    case TokenText(at, _) =>
      (last.None? || RawTokenGap(last.value, WrittenKind(toks, at)) == "")
      && Apart(toks, ps[1..], Some(WrittenKind(toks, at)))
    case _ => Apart(toks, ps[1..], Behind(toks, ps[0], last))
  }

  /** The kind of a token that nothing parts yet from what follows p. */
  function Behind(toks: seq<Token>, p: Piece, last: Option<Kind>): Option<Kind> {
    match p
    case Space(text) => if text == "" then last else None
    case TokenText(at, _) => Some(WrittenKind(toks, at))
    case SoftLine => last
    case _ => None
  }

  function BehindAll(toks: seq<Token>, ps: seq<Piece>, last: Option<Kind>): Option<Kind> {
    if ps == [] then last else BehindAll(toks, ps[1..], Behind(toks, ps[0], last))
  }

  lemma {:induction false} ApartConcat(toks: seq<Token>, a: seq<Piece>, b: seq<Piece>, last: Option<Kind>)
    ensures Apart(toks, a + b, last) <==> Apart(toks, a, last) && Apart(toks, b, BehindAll(toks, a, last))
    ensures BehindAll(toks, a + b, last) == BehindAll(toks, b, BehindAll(toks, a, last))
    decreases |a|
  {
    hide RawTokenGap, WrittenKind;
    if a == [] {
      assert a + b == b;
    } else {
      assert (a + b)[0] == a[0] && (a + b)[1..] == a[1..] + b;
      ApartConcat(toks, a[1..], b, Behind(toks, a[0], last));
    }
  }

  /** Spaces are blank, comment pieces stand for comments, and no token piece stands for EOF. */
  ghost predicate Clean(toks: seq<Token>, ps: seq<Piece>) {
    && (forall i :: 0 <= i < |ps| && ps[i].Space? ==> Page.AllBlank(ps[i].text))
    && (forall i :: 0 <= i < |ps| && ps[i].CommentText? ==> CommentAt(toks, ps[i].at))
    && forall i :: 0 <= i < |ps| && ps[i].TokenText? ==> ps[i].at < |toks| && toks[ps[i].at].kind != EOF
  }

  /** Comments and what comes with them. */
  ghost predicate Quiet(toks: seq<Token>, ps: seq<Piece>) {
    Clean(toks, ps) && forall i :: 0 <= i < |ps| ==> !ps[i].TokenText?
  }

  ghost predicate Commented(ps: seq<Piece>) {
    exists i :: 0 <= i < |ps| && ps[i].CommentText?
  }

  lemma {:induction false} QuietApart(toks: seq<Token>, ps: seq<Piece>, last: Option<Kind>)
    requires Quiet(toks, ps)
    ensures Apart(toks, ps, last)
    ensures BehindAll(toks, ps, last) == last || BehindAll(toks, ps, last) == None
    ensures Commented(ps) ==> BehindAll(toks, ps, last) == None
    decreases |ps|
  {
    if ps != [] {
      assert ps == [ps[0]] + ps[1..];
      QuietApart(toks, ps[1..], Behind(toks, ps[0], last));
    }
  }

  lemma QuietConcat(toks: seq<Token>, a: seq<Piece>, b: seq<Piece>)
    requires Quiet(toks, a) && Quiet(toks, b)
    ensures Quiet(toks, a + b)
    ensures Commented(a) || Commented(b) ==> Commented(a + b)
  {
    if Commented(a) {
      var i :| 0 <= i < |a| && a[i].CommentText?;
      assert (a + b)[i].CommentText?;
    }
    if Commented(b) {
      var i :| 0 <= i < |b| && b[i].CommentText?;
      assert (a + b)[|a| + i].CommentText?;
    }
  }

  lemma CleanConcat(toks: seq<Token>, a: seq<Piece>, b: seq<Piece>)
    requires Clean(toks, a) && Clean(toks, b)
    ensures Clean(toks, a + b)
  {
  }

  /** A comment on its token's line, and one on a line of its own. */
  lemma CommentQuiet(toks: seq<Token>, c: nat, prev: int, first: bool)
    requires CommentAt(toks, c)
    ensures Quiet(toks, OwnLineComment(toks, c, prev, first)) && Commented(OwnLineComment(toks, c, prev, first))
    ensures Quiet(toks, SameLineComment(toks, c)) && Commented(SameLineComment(toks, c))
  {
    hide TrimRight, IsComment;
    var text := CommentText(c, TrimRight(toks[c].text));
    var own, same := OwnLineComment(toks, c, prev, first), SameLineComment(toks, c);
    assert own[|own| - 2] == text;
    assert same[1] == text && same[0] == Space(" ");
  }

  lemma {:induction false} SameLineQuiet(toks: seq<Token>, i: int, c: int)
    requires 0 <= c <= |toks|
    ensures Quiet(toks, SameLineDocs(toks, i, c)) && Quiet(toks, SuppressedDocs(toks, i, c))
    decreases |toks| - c
  {
    hide SameLineComment, OwnLineComment, Quiet, CommentAt;
    NothingQuiet(toks);
    if c < |toks| && CommentAt(toks, c) && SameLine(toks, c, i) {
      SameLineQuiet(toks, i, c + 1);
      CommentQuiet(toks, c, i, false);
      QuietConcat(toks, SameLineComment(toks, c), SameLineDocs(toks, i, c + 1));
      QuietConcat(toks, OwnLineComment(toks, c, i, false), SuppressedDocs(toks, i, c + 1));
    }
  }

  lemma NothingQuiet(toks: seq<Token>)
    ensures Quiet(toks, [])
  {
  }

  lemma {:induction false} OwnLineQuiet(toks: seq<Token>, prev: int, c: int, i: int, first: bool)
    requires 0 <= c && i <= |toks| && forall k :: c <= k < i ==> CommentAt(toks, k)
    ensures Quiet(toks, OwnLineDocs(toks, prev, c, i, first))
    decreases i - c
  {
    hide OwnLineComment, Quiet;
    NothingQuiet(toks);
    if c < i {
      if SameLine(toks, c, prev) {
        OwnLineQuiet(toks, prev, c + 1, i, first);
      } else {
        OwnLineQuiet(toks, prev, c + 1, i, false);
        CommentQuiet(toks, c, prev, first);
        QuietConcat(toks, OwnLineComment(toks, c, prev, first), OwnLineDocs(toks, prev, c + 1, i, false));
      }
    }
  }

  lemma LeadingQuiet(toks: seq<Token>, i: int)
    requires 0 <= i < |toks|
    ensures Quiet(toks, LeadingDocs(toks, i))
  {
    hide OwnLineDocs, Quiet, CommentAt, PrevReal, Copies, Commented;
    var prev := PrevReal(toks, i - 1);
    var docs := OwnLineDocs(toks, prev, prev + 1, i, true);
    AllBetween(toks, i - 1);
    OwnLineQuiet(toks, prev, prev + 1, i, true);
    LinesQuiet(toks, toks[i].blankLines);
    QuietConcat(toks, docs, Copies(toks[i].blankLines, HardLine));
    assert docs + [] == docs;
  }

  lemma LinesQuiet(toks: seq<Token>, n: nat)
    ensures Quiet(toks, Copies(n, HardLine))
  {
  }

  lemma AllBetween(toks: seq<Token>, i: int)
    requires i < |toks|
    ensures forall k :: PrevReal(toks, i) < k <= i ==> CommentAt(toks, k)
  {
    hide PrevReal, CommentAt;
    forall k | PrevReal(toks, i) < k <= i ensures CommentAt(toks, k) {
      OnlyComments(toks, i, k);
    }
  }

  /** The comments between two tokens, if there are any. */
  lemma {:induction false} RunQuiet(toks: seq<Token>, prev: int, k: int)
    requires 0 <= prev && k <= |toks| && forall m :: prev < m < k ==> CommentAt(toks, m)
    ensures var docs := CommentsRun(toks, prev, k).docs; Quiet(toks, docs) && (k > prev + 1 ==> Commented(docs))
    decreases k - prev
  {
    hide OwnLineComment, SameLineComment, Quiet, Commented, SameLine, CommentAt, EndsLine;
    NothingQuiet(toks);
    if k > prev + 1 {
      RunQuiet(toks, prev, k - 1);
      var docs := CommentsRun(toks, prev, k - 1).docs;
      CommentQuiet(toks, k - 1, prev, false);
      QuietConcat(toks, docs, SameLineComment(toks, k - 1));
      QuietConcat(toks, docs, OwnLineComment(toks, k - 1, prev, false));
    }
  }

  // ----- the emitted tokens -----

  /** The caller drops no token's text, and pads with blanks. */
  predicate Plain(o: Comments.Options) {
    o.skipText == [] && Page.AllBlank(o.prefix)
    && forall i :: 0 <= i < |o.pads| ==> Page.AllBlank(o.pads[i].text)
  }

  lemma {:induction false} PadsBlank(pads: seq<Pad>, i: int)
    requires forall k :: 0 <= k < |pads| ==> Page.AllBlank(pads[k].text)
    ensures Page.AllBlank(PadAt(pads, i))
    decreases |pads|
  {
    if pads != [] {
      PadsBlank(pads[1..], i);
    }
  }

  lemma SpacesQuiet(toks: seq<Token>, text: string)
    requires Page.AllBlank(text)
    ensures Quiet(toks, Spaces(text))
  {
  }

  lemma TokenApart(toks: seq<Token>, i: nat, o: Comments.Options, last: Option<Kind>)
    requires i < |toks| && toks[i].kind != EOF && Plain(o)
    requires last.None? || RawTokenGap(last.value, WrittenKind(toks, i)) == ""
    ensures Apart(toks, TokenDocs(toks, i, o), last) && Clean(toks, TokenDocs(toks, i, o))
    ensures var k := BehindAll(toks, TokenDocs(toks, i, o), last); k == None || k == Some(WrittenKind(toks, i))
  {
    hide WrittenKind, RawTokenGap, Spaces, PadAt, IsComment, BehindAll, Apart;
    var text := TokenText(i, if toks[i].kind == Async then "oneway" else toks[i].text);
    var pad := Spaces(PadAt(o.pads, i));
    PadsBlank(o.pads, i);
    SpacesQuiet(toks, PadAt(o.pads, i));
    assert TokenDocs(toks, i, o) == [text] + pad;
    QuietApart(toks, pad, Some(WrittenKind(toks, i)));
    ApartConcat(toks, [text], pad, last);
    OneToken(toks, text, last);
    CleanConcat(toks, [text], pad);
  }

  lemma OneToken(toks: seq<Token>, p: Piece, last: Option<Kind>)
    requires p.TokenText? && (last.None? || RawTokenGap(last.value, WrittenKind(toks, p.at)) == "")
    ensures Apart(toks, [p], last) && BehindAll(toks, [p], last) == Some(WrittenKind(toks, p.at))
  {
    hide RawTokenGap, WrittenKind;
    assert [p][1..] == [];
    assert Apart(toks, [p][1..], Some(WrittenKind(toks, p.at)));
    assert BehindAll(toks, [p][1..], Some(WrittenKind(toks, p.at))) == Some(WrittenKind(toks, p.at));
  }

  /** Between two tokens there is a comment or the gap they need. */
  lemma BetweenApart(toks: seq<Token>, prev: nat, i: nat, o: Comments.Options, last: Option<Kind>)
    requires prev < i < |toks| && Plain(o) && !CommentAt(toks, i) && forall m :: prev < m < i ==> CommentAt(toks, m)
    requires last == None || last == Some(WrittenKind(toks, prev))
    ensures var ps := BetweenDocs(toks, prev, i, o);
            && Quiet(toks, ps)
            && (BehindAll(toks, ps, last) == None
                || RawTokenGap(BehindAll(toks, ps, last).value, WrittenKind(toks, i)) == "")
  {
    hide CommentsRun, RawTokenGap, Quiet, Commented, IsComment, SameLine, BehindAll, WrittenKind;
    var run := CommentsRun(toks, prev, i);
    var gap := if run.ended then [] else TokenGap(toks, prev, i);
    RunQuiet(toks, prev, i);
    NothingQuiet(toks);
    GapQuiet(toks, prev, i, last);
    QuietConcat(toks, run.docs, gap);
    assert BetweenDocs(toks, prev, i, o) == run.docs + gap;
    QuietApart(toks, run.docs + gap, last);
    if i == prev + 1 {
      NoRun(toks, prev, i);
      assert [] + gap == gap;
    }
  }

  lemma NoRun(toks: seq<Token>, prev: nat, i: nat)
    requires i == prev + 1 < |toks|
    ensures CommentsRun(toks, prev, i) == Run([], false)
  {
  }

  lemma GapQuiet(toks: seq<Token>, prev: nat, i: nat, last: Option<Kind>)
    requires prev < i < |toks| && !CommentAt(toks, i)
    requires last == None || last == Some(WrittenKind(toks, prev))
    ensures Quiet(toks, TokenGap(toks, prev, i))
    ensures i == prev + 1 ==> var k := BehindAll(toks, TokenGap(toks, prev, i), last);
                              k == None || RawTokenGap(k.value, WrittenKind(toks, i)) == ""
  {
    hide RawTokenGap, IsComment;
    var text := RawTokenGap(toks[prev].kind, toks[i].kind);
    GapText(toks[prev].kind, toks[i].kind);
    Emission.SameGap(toks[prev], toks[i]);
    if i == prev + 1 {
      assert TokenGap(toks, prev, i) == [Space(text)];
      assert [Space(text)][1..] == [];
      assert BehindAll(toks, [Space(text)], last)
          == BehindAll(toks, [Space(text)][1..], Behind(toks, Space(text), last));
    }
  }

  lemma GapText(a: Kind, b: Kind)
    ensures RawTokenGap(a, b) == "" || RawTokenGap(a, b) == " "
  {
  }

  lemma {:induction false} BodyApart(toks: seq<Token>, start: nat, i: nat, o: Comments.Options)
    requires start < i <= |toks| && RealAt(toks, start) && Plain(o)
    requires forall k :: start <= k < i ==> toks[k].kind != EOF
    ensures PrevReal(toks, i - 1) >= start
    ensures Apart(toks, Body(toks, start, i, o), None) && Clean(toks, Body(toks, start, i, o))
    ensures var k := BehindAll(toks, Body(toks, start, i, o), None);
            k == None || k == Some(WrittenKind(toks, PrevReal(toks, i - 1)))
    decreases i
  {
    hide TokenDocs, BetweenDocs, Apart, BehindAll, WrittenKind, RawTokenGap, Plain, Clean, IsComment;
    if i == start + 1 {
      TokenApart(toks, start, o, None);
    } else {
      BodyApart(toks, start, i - 1, o);
      if !CommentAt(toks, i - 1) {
        var prev := PrevReal(toks, i - 2);
        var body, mid := Body(toks, start, i - 1, o), BetweenDocs(toks, prev, i - 1, o);
        var last := BehindAll(toks, body, None);
        AllBetween(toks, i - 2);
        BetweenApart(toks, prev, i - 1, o, last);
        QuietClean(toks, mid);
        QuietApart(toks, mid, last);
        ApartConcat(toks, body, mid, None);
        CleanConcat(toks, body, mid);
        TokenApart(toks, i - 1, o, BehindAll(toks, mid, last));
        ApartConcat(toks, body + mid, TokenDocs(toks, i - 1, o), None);
        CleanConcat(toks, body + mid, TokenDocs(toks, i - 1, o));
      }
    }
  }

  lemma QuietClean(toks: seq<Token>, ps: seq<Piece>)
    requires Quiet(toks, ps)
    ensures Clean(toks, ps)
  {
  }

  /** Pieces between comments. */
  lemma BetweenQuiet(toks: seq<Token>, a: seq<Piece>, body: seq<Piece>, b: seq<Piece>)
    requires Quiet(toks, a) && Quiet(toks, b) && Clean(toks, body) && Apart(toks, body, None)
    ensures Apart(toks, a + body + b, None) && Clean(toks, a + body + b)
  {
    hide Apart, BehindAll, Quiet, Clean;
    QuietApart(toks, a, None);
    ApartConcat(toks, a, body, None);
    QuietApart(toks, b, BehindAll(toks, a + body, None));
    ApartConcat(toks, a + body, b, None);
    QuietClean(toks, a);
    QuietClean(toks, b);
    CleanConcat(toks, a, body);
    CleanConcat(toks, a + body, b);
  }

  /** What emitTokens writes is blank but for tokens and comments, and no token runs into another. */
  lemma EmittedApart(toks: seq<Token>, start: nat, end: nat, o: Comments.Options)
    requires start <= end < |toks| && RealAt(toks, start) && Plain(o)
    requires forall k :: start <= k <= end ==> toks[k].kind != EOF
    ensures Apart(toks, Emitted(toks, start, end, o), None) && Clean(toks, Emitted(toks, start, end, o))
  {
    hide Apart, BehindAll, LeadingDocs, SameLineDocs, SuppressedDocs, Body, Spaces, Quiet, IsComment, Clean;
    var prefix, body := Spaces(o.prefix), Body(toks, start, end + 1, o);
    var lead := if o.leading then LeadingDocs(toks, start) else [];
    var last := PrevReal(toks, end);
    var tail := if o.trailing && last >= 0 then TrailingDocs(toks, last, o) else [];
    NothingQuiet(toks);
    SpacesQuiet(toks, o.prefix);
    LeadingQuiet(toks, start);
    BodyApart(toks, start, end + 1, o);
    SameLineQuiet(toks, last, last + 1);
    QuietConcat(toks, prefix, lead);
    BetweenQuiet(toks, prefix + lead, body, tail);
    assert Emitted(toks, start, end, o) == prefix + lead + body + tail;
  }

  // ----- the tokens and comments of a layout -----

  /** A token or comment as it is written: "async" as "oneway", comments without blanks at the end. */
  function ItemAt(toks: seq<Token>, k: int): Word {
    if CommentAt(toks, k) then Word(toks[k].kind, TrimRight(toks[k].text))
    else if RealAt(toks, k) then Emission.Written(toks[k])
    else Word(EOF, "")
  }

  function ItemsAt(toks: seq<Token>, sources: seq<int>): seq<Word> {
    seq(|sources|, i requires 0 <= i < |sources| => ItemAt(toks, sources[i]))
  }

  predicate Marked(p: Piece) {
    p.TokenText? || p.CommentText?
  }

  /** A token piece stands for a token, and a comment piece for a comment, each with what is written. */
  predicate True(toks: seq<Token>, p: Piece) {
    match p
    case TokenText(at, text) => RealAt(toks, at) && text == ItemAt(toks, at).text
    case CommentText(at, text) => CommentAt(toks, at) && text == ItemAt(toks, at).text
    case Space(text) => Page.AllBlank(text)
    case _ => true
  }

  ghost predicate AllTrue(toks: seq<Token>, ps: seq<Piece>) {
    && (forall i :: 0 <= i < |ps| ==> True(toks, ps[i]))
    && forall k :: 0 <= k < |ps| && OfLineComment(toks, ps[k]) ==> k + 1 < |ps| && ps[k + 1] == CommentLine
  }

  ghost predicate AllItems(toks: seq<Token>, ps: seq<Piece>) {
    forall i :: 0 <= i < |ps| && Marked(ps[i]) ==> WovenLexing.IsItem(ItemAt(toks, ps[i].at))
  }

  /** The item written last, if any, and what it asks of the pieces that follow. */
  ghost predicate Carries(toks: seq<Token>, ps: seq<Piece>, prev: Option<Word>) {
    prev.Some? && prev.value.kind == LineComment ==> ps != [] && ps[0] == CommentLine
  }

  function OpenKind(prev: Option<Word>): Option<Kind> {
    if prev.Some? && !IsComment(prev.value.kind) then Some(prev.value.kind) else None
  }

  lemma {:induction false} NoMarks(ps: seq<Piece>)
    requires forall i :: 0 <= i < |ps| ==> !Marked(ps[i])
    ensures Sources(ps) == []
    decreases |ps|
  {
    if ps != [] {
      NoMarks(ps[..|ps| - 1]);
    }
  }

  /** Pieces without a token or comment that make an empty gap part nothing. */
  lemma {:induction false} EmptyGap(toks: seq<Token>, ps: seq<Piece>, last: Option<Kind>)
    requires forall i :: 0 <= i < |ps| ==> !Marked(ps[i]) && !Layout.Separates(PieceLeaf(ps[i]))
    ensures BehindAll(toks, ps, last) == last
    decreases |ps|
  {
    if ps != [] {
      assert ps[0] == ps[0];
      EmptyGap(toks, ps[1..], last);
    }
  }

  lemma Associative(a: seq<Layout.Leaf>, b: seq<Layout.Leaf>, c: seq<Layout.Leaf>)
    ensures a + b + c == a + (b + c)
  {
  }

  /** The run of leaves in front of a text is made by the pieces in front of its piece. */
  lemma FirstMark(ps: seq<Piece>, parts: seq<Layout.Part>, run: seq<Layout.Leaf>) returns (k: nat)
    requires parts != [] && Layout.LeavesOf(parts) + run == PieceLeaves(ps)
    requires forall i :: 0 <= i < |parts[0].run| ==> !parts[0].run[i].Ink?
    ensures k == |parts[0].run| < |ps| && Marked(ps[k]) && ps[k].text == parts[0].ink
    ensures forall i :: 0 <= i < k ==> !Marked(ps[i]) && PieceLeaf(ps[i]) == parts[0].run[i]
    ensures Layout.LeavesOf(parts[1..]) + run == PieceLeaves(ps[k + 1..])
  {
    k := |parts[0].run|;
    var front := parts[0].run + [Layout.Ink(parts[0].ink)];
    var rest := Layout.LeavesOf(parts[1..]) + run;
    assert Layout.LeavesOf(parts) == front + Layout.LeavesOf(parts[1..]);
    Associative(front, Layout.LeavesOf(parts[1..]), run);
    assert PieceLeaves(ps) == front + rest;
    assert PieceLeaves(ps)[k] == front[k] == Layout.Ink(parts[0].ink);
    forall i | 0 <= i < k ensures !Marked(ps[i]) && PieceLeaf(ps[i]) == parts[0].run[i] {
      assert PieceLeaves(ps)[i] == front[i];
    }
    forall i | 0 <= i < |rest| ensures rest[i] == PieceLeaf(ps[k + 1 + i]) {
      assert PieceLeaves(ps)[k + 1 + i] == rest[i];
    }
  }

  /** What the item before the pieces and the first of their items are parted by. */
  lemma FirstParted(g: Layout.Setting, toks: seq<Token>, ps: seq<Piece>, part: Layout.Part, k: nat, prev: Word)
    requires k == |part.run| < |ps| && Marked(ps[k]) && Layout.GapOf(g, part.run, part.gap)
    requires forall i :: 0 <= i < k ==> !Marked(ps[i]) && PieceLeaf(ps[i]) == part.run[i]
    requires True(toks, ps[k]) && Carries(toks, ps, Some(prev)) && Apart(toks, ps, OpenKind(Some(prev)))
    ensures WovenLexing.Parted(prev, part.gap, ItemAt(toks, ps[k].at))
  {
    hide RawTokenGap, BehindAll, Apart, ItemAt, IsComment;
    if part.gap == "" && ps[k].TokenText? {
      assert !Layout.Parting(part.run);
      forall i | 0 <= i < k ensures !Layout.Separates(PieceLeaf(ps[i])) {
        assert !Layout.Separates(part.run[i]);
      }
      EmptyGap(toks, ps[..k], OpenKind(Some(prev)));
      assert ps == ps[..k] + ps[k..];
      ApartConcat(toks, ps[..k], ps[k..], OpenKind(Some(prev)));
      TokenNext(toks, ps[k..], OpenKind(Some(prev)));
    }
    MarkKind(toks, ps[k]);
  }

  lemma TokenNext(toks: seq<Token>, ps: seq<Piece>, last: Option<Kind>)
    requires ps != [] && Apart(toks, ps, last) && Marked(ps[0])
    ensures ps[0].TokenText? ==> last.None? || RawTokenGap(last.value, WrittenKind(toks, ps[0].at)) == ""
    ensures Apart(toks, ps[1..], if ps[0].TokenText? then Some(WrittenKind(toks, ps[0].at)) else None)
  {
    hide RawTokenGap, WrittenKind;
  }

  lemma MarkKind(toks: seq<Token>, p: Piece)
    requires Marked(p) && True(toks, p)
    ensures var k := ItemAt(toks, p.at).kind;
            && (p.TokenText? ==> k == WrittenKind(toks, p.at) && !IsComment(k))
            && (p.CommentText? ==> IsComment(k) && k == toks[p.at].kind)
  {
  }

  lemma FirstSource(ps: seq<Piece>, k: nat)
    requires k < |ps| && Marked(ps[k]) && forall i :: 0 <= i < k ==> !Marked(ps[i])
    ensures Sources(ps) == [ps[k].at] + Sources(ps[k + 1..])
  {
    hide Sources;
    var front, one, rest := ps[..k], [ps[k]], ps[k + 1..];
    assert ps == front + one + rest;
    SourcesConcat(front + one, rest);
    SourcesConcat(front, one);
    NoMarks(front);
    OneSource(ps[k]);
  }

  lemma TrueRest(toks: seq<Token>, ps: seq<Piece>, k: nat)
    requires k < |ps| && AllTrue(toks, ps) && AllItems(toks, ps) && Marked(ps[k])
    ensures AllTrue(toks, ps[k + 1..]) && AllItems(toks, ps[k + 1..])
    ensures True(toks, ps[k]) && WovenLexing.IsItem(ItemAt(toks, ps[k].at))
    ensures Carries(toks, ps[k + 1..], Some(ItemAt(toks, ps[k].at)))
  {
    hide ItemAt, WovenLexing.IsItem, IsComment;
    var rest := ps[k + 1..];
    forall i | 0 <= i < |rest| ensures True(toks, rest[i]) {
      assert rest[i] == ps[k + 1 + i];
    }
    forall i | 0 <= i < |rest| && OfLineComment(toks, rest[i]) ensures i + 1 < |rest| && rest[i + 1] == CommentLine {
      assert rest[i] == ps[k + 1 + i];
    }
    forall i | 0 <= i < |rest| && Marked(rest[i]) ensures WovenLexing.IsItem(ItemAt(toks, rest[i].at)) {
      assert rest[i] == ps[k + 1 + i];
    }
    MarkKind(toks, ps[k]);
    OneLineComment();
  }

  lemma OneLineComment()
    ensures IsComment(LineComment)
  {
  }

  lemma ArrangedFront(parts: seq<Layout.Part>, tail: string, ws: seq<Word>)
    requires parts != [] && ws != [] && WovenLexing.Arranged(parts[1..], tail, ws[1..])
    requires WovenLexing.IsItem(ws[0]) && parts[0].ink == ws[0].text && PrintText.AllSpace(parts[0].gap)
    requires |ws| > 1 ==> WovenLexing.Parted(ws[0], parts[1].gap, ws[1])
    requires |ws| == 1 && ws[0].kind == LineComment ==> Layout.StartsLine(tail)
    ensures WovenLexing.Arranged(parts, tail, ws)
  {
    hide WovenLexing.IsItem, WovenLexing.Parted, PrintText.AllSpace;
    forall i | 0 <= i < |ws|
      ensures WovenLexing.IsItem(ws[i]) && parts[i].ink == ws[i].text && PrintText.AllSpace(parts[i].gap)
    {
      if i > 0 {
        assert ws[i] == ws[1..][i - 1] && parts[i] == parts[1..][i - 1];
      }
    }
    forall i | 0 < i < |ws| ensures WovenLexing.Parted(ws[i - 1], parts[i].gap, ws[i]) {
      if i > 1 {
        assert WovenLexing.Parted(ws[1..][i - 1 - 1], parts[1..][i - 1].gap, ws[1..][i - 1]);
      }
    }
  }

  /** A layout of pieces arranges their tokens and comments. */
  lemma {:induction false} WeaveArranged(g: Layout.Setting, toks: seq<Token>, ps: seq<Piece>,
                                         parts: seq<Layout.Part>, run: seq<Layout.Leaf>, tail: string,
                                         prev: Option<Word>)
    requires Layout.GapOf(g, run, tail) && forall i :: 0 <= i < |parts| ==> Layout.PartOK(g, parts[i])
    requires Layout.LeavesOf(parts) + run == PieceLeaves(ps)
    requires AllTrue(toks, ps) && AllItems(toks, ps)
    requires Apart(toks, ps, OpenKind(prev)) && Carries(toks, ps, prev)
    ensures var ws := ItemsAt(toks, Sources(ps));
            && WovenLexing.Arranged(parts, tail, ws)
            && (prev.Some? && ws != [] ==> WovenLexing.Parted(prev.value, parts[0].gap, ws[0]))
            && (prev.Some? && prev.value.kind == LineComment && ws == [] ==> Layout.StartsLine(tail))
    decreases |parts|
  {
    hide *;
    if parts == [] {
      LastRun(g, toks, ps, run, tail, prev);
    } else {
      PartIs(g, parts);
      var k := FirstMark(ps, parts, run);
      var w, rest := ItemAt(toks, ps[k].at), ps[k + 1..];
      TrueRest(toks, ps, k);
      FirstSource(ps, k);
      NextApart(toks, ps, k, OpenKind(prev));
      WeaveArranged(g, toks, rest, parts[1..], run, tail, Some(w));
      ItemsFront(toks, ps[k].at, Sources(rest));
      InkIs(toks, ps[k]);
      var ws := ItemsAt(toks, Sources(ps));
      assert ws[1..] == ItemsAt(toks, Sources(rest));
      SameLength(parts[1..], tail, ws[1..]);
      ArrangedFront(parts, tail, ws);
      if prev.Some? {
        FirstParted(g, toks, ps, parts[0], k, prev.value);
      }
    }
  }

  lemma SameLength(parts: seq<Layout.Part>, tail: string, ws: seq<Word>)
    requires WovenLexing.Arranged(parts, tail, ws)
    ensures |parts| == |ws|
  {
    hide WovenLexing.IsItem, WovenLexing.Parted, PrintText.AllSpace;
  }

  lemma InkIs(toks: seq<Token>, p: Piece)
    requires Marked(p) && True(toks, p)
    ensures p.text == ItemAt(toks, p.at).text
  {
  }

  lemma PartIs(g: Layout.Setting, parts: seq<Layout.Part>)
    requires parts != [] && forall i :: 0 <= i < |parts| ==> Layout.PartOK(g, parts[i])
    ensures Layout.GapOf(g, parts[0].run, parts[0].gap) && PrintText.AllSpace(parts[0].gap)
    ensures forall i :: 0 <= i < |parts[0].run| ==> !parts[0].run[i].Ink?
    ensures forall i :: 0 <= i < |parts[1..]| ==> Layout.PartOK(g, parts[1..][i])
  {
    assert Layout.PartOK(g, parts[0]);
  }

  lemma ItemsFront(toks: seq<Token>, at: int, sources: seq<int>)
    ensures ItemsAt(toks, [at] + sources) == [ItemAt(toks, at)] + ItemsAt(toks, sources)
    ensures |ItemsAt(toks, sources)| == |sources|
  {
    hide ItemAt;
  }

  lemma NextApart(toks: seq<Token>, ps: seq<Piece>, k: nat, last: Option<Kind>)
    requires k < |ps| && Marked(ps[k]) && True(toks, ps[k]) && Apart(toks, ps, last)
    ensures Apart(toks, ps[k + 1..], OpenKind(Some(ItemAt(toks, ps[k].at))))
  {
    hide Apart, BehindAll, ItemAt, RawTokenGap, IsComment, WrittenKind;
    assert ps == ps[..k] + ps[k..];
    ApartConcat(toks, ps[..k], ps[k..], last);
    TokenNext(toks, ps[k..], BehindAll(toks, ps[..k], last));
    assert ps[k..][1..] == ps[k + 1..];
    MarkKind(toks, ps[k]);
  }

  /** Pieces after the last token or comment. */
  lemma LastRun(g: Layout.Setting, toks: seq<Token>, ps: seq<Piece>, run: seq<Layout.Leaf>, tail: string,
                prev: Option<Word>)
    requires Layout.GapOf(g, run, tail) && Layout.LeavesOf([]) + run == PieceLeaves(ps) && Carries(toks, ps, prev)
    ensures Sources(ps) == [] && ItemsAt(toks, []) == [] && WovenLexing.Arranged([], tail, [])
    ensures prev.Some? && prev.value.kind == LineComment ==> Layout.StartsLine(tail)
  {
    assert Layout.LeavesOf([]) == [] && run == PieceLeaves(ps);
    forall i | 0 <= i < |ps| ensures !Marked(ps[i]) {
      assert run[i] == PieceLeaf(ps[i]);
    }
    NoMarks(ps);
    if prev.Some? && prev.value.kind == LineComment {
      assert run[0] == PieceLeaf(ps[0]);
    }
  }

  // ----- the round trip -----

  lemma {:induction false} TrimKeeps(t: string, i: nat)
    requires i < |t| && t[i] != ' ' && t[i] != '\t'
    ensures i < |TrimRight(t)| <= |t| && TrimRight(t) == t[..|TrimRight(t)|]
    ensures TrimRight(t)[|TrimRight(t)| - 1] != ' ' && TrimRight(t)[|TrimRight(t)| - 1] != '\t'
    decreases |t|
  {
    if t[|t| - 1] == ' ' || t[|t| - 1] == '\t' {
      TrimKeeps(t[..|t| - 1], i);
    }
  }

  /** A comment without the blanks at its end is a comment that ends visibly. */
  lemma TrimmedComment(k: Kind, t: string)
    requires IsComment(k) && WovenLexing.IsCommentText(Word(k, t))
    ensures WovenLexing.IsCommentText(Word(k, TrimRight(t))) && Page.EndsVisibly(TrimRight(t))
  {
    if k == LineComment {
      TrimmedLine(t);
    } else {
      TrimmedBlock(k, t);
    }
  }

  lemma TrimmedLine(t: string)
    requires WovenLexing.IsCommentText(Word(LineComment, t))
    ensures WovenLexing.IsCommentText(Word(LineComment, TrimRight(t))) && Page.EndsVisibly(TrimRight(t))
  {
    hide BlockAt, TrimRight;
    TrimKeeps(t, 0);
    if t[0] == '/' {
      TrimKeeps(t, 1);
    }
  }

  lemma TrimmedBlock(k: Kind, t: string)
    requires k != LineComment && WovenLexing.IsCommentText(Word(k, t))
    ensures TrimRight(t) == t && Page.EndsVisibly(t)
  {
    hide BlockRest, TrimRight;
    WovenLexing.BlockStep(t, 2, Peek(t, 2) == '*');
    WovenLexing.BlockEnds(t, 2, Peek(t, 2) == '*');
    TrimKeeps(t, |t| - 1);
  }

  /** Every token and comment of an error-free source is an item, and ends visibly. */
  lemma ItemValid(src: string, k: nat)
    requires Lex(src).errs == [] && k < |Lex(src).tokens| && Lex(src).tokens[k].kind != EOF
    ensures var w := ItemAt(Lex(src).tokens, k); WovenLexing.IsItem(w) && Page.EndsVisibly(w.text)
  {
    hide LexFrom, TrimRight, WovenLexing.IsCommentText, IsWord, Emission.Written, Page.EndsVisibly;
    var toks := Lex(src).tokens;
    if IsComment(toks[k].kind) {
      WovenLexing.CommentsAreTexts(src, 0);
      TrimmedComment(toks[k].kind, toks[k].text);
    } else {
      Emission.WrittenIsWord(src, k);
      WovenLexing.WordEndsVisibly(Emission.Written(toks[k]));
      WrittenIsReal(toks[k]);
    }
  }

  lemma WrittenIsReal(t: Token)
    requires !IsComment(t.kind)
    ensures !IsComment(Emission.Written(t).kind)
  {
  }

  lemma PieceValid(src: string, p: Piece)
    requires Lex(src).errs == [] && Clean(Lex(src).tokens, [p]) && Comments.Faithful(Lex(src).tokens, p)
    ensures True(Lex(src).tokens, p) && Shown(p)
    ensures Marked(p) ==> WovenLexing.IsItem(ItemAt(Lex(src).tokens, p.at))
  {
    hide LexFrom, TrimRight, WovenLexing.IsItem, Page.EndsVisibly, Page.AllBlank;
    assert [p][0] == p;
    if Marked(p) {
      ItemValid(src, p.at);
    }
  }

  lemma EmittedValid(src: string, ps: seq<Piece>)
    requires Lex(src).errs == [] && Clean(Lex(src).tokens, ps) && LineSafe(Lex(src).tokens, ps)
    ensures AllTrue(Lex(src).tokens, ps) && AllItems(Lex(src).tokens, ps) && AllShown(ps)
  {
    hide LexFrom, True, Shown, WovenLexing.IsItem, ItemAt, Comments.Faithful, OfLineComment;
    var toks := Lex(src).tokens;
    forall i | 0 <= i < |ps|
      ensures True(toks, ps[i]) && Shown(ps[i]) && (Marked(ps[i]) ==> WovenLexing.IsItem(ItemAt(toks, ps[i].at)))
    {
      assert Clean(toks, [ps[i]]);
      PieceValid(src, ps[i]);
    }
  }

  /** What emitTokens writes for any range of an error-free source, with or without the comments before and
      after it, in a document with any groups and indentation around it and printed at any width: lexed
      again, it gives exactly the tokens and comments that were rendered, in order, each with its text,
      and no error. */
  lemma PrintedRoundTrip(src: string, start: nat, end: nat, o: Comments.Options, d: Doc, po: PrintMachine.Options,
                         brk: set<nat>)
    requires Lex(src).errs == [] && start <= end < |Lex(src).tokens| - 1 && RealAt(Lex(src).tokens, start) && Plain(o)
    requires Page.Straight(d) && Layout.Leaves(d) == PieceLeaves(Emitted(Lex(src).tokens, start, end, o))
    requires Page.LineOptions(po)
    ensures var r := PrintMachine.Run(po, brk, PrintMachine.Start(d));
            && r.Ok? && Lex(r.text).errs == []
            && WordsOf(Lex(r.text).tokens)
               == ItemsAt(Lex(src).tokens, Sources(Emitted(Lex(src).tokens, start, end, o))) + [Word(EOF, "")]
  {
    hide *;
    var toks := LexTokens(src);
    var ps := Emitted(toks, start, end, o);
    Emission.OnlyEofLast(src);
    EmittedApart(toks, start, end, o);
    EmittedSources(toks, start, end, o);
    EmittedValid(src, ps);
    Layout.PrintLays(po, brk, d, false);
    LaidLexes(Layout.Setting(po.newLine, false), toks, ps, PrintMachine.Run(po, brk, PrintMachine.Start(d)).text);
  }

  function LexTokens(src: string): (r: seq<Token>)
    ensures r == Lex(src).tokens
  {
    Lex(src).tokens
  }

  lemma LaidLexes(g: Layout.Setting, toks: seq<Token>, ps: seq<Piece>, text: string)
    requires AllTrue(toks, ps) && AllItems(toks, ps) && Apart(toks, ps, None)
    requires Layout.Lays(g, PieceLeaves(ps), text)
    ensures Lex(text).errs == [] && WordsOf(Lex(text).tokens) == ItemsAt(toks, Sources(ps)) + [Word(EOF, "")]
  {
    hide AllTrue, AllItems, Apart, Sources, LexFrom, WordsOf, ItemAt, Layout.GapOf, Layout.PartOK, Layout.TextOf,
         Layout.LeavesOf;
    var w :| Layout.Woven(g, w) && Layout.WeaveLeaves(w) == PieceLeaves(ps) && Layout.WeaveText(w) == text;
    WeaveArranged(g, toks, ps, w.parts, w.run, w.gap, None);
    assert text[0..] == text;
    WovenLexing.ArrangedLexes(text, 0, w.parts, w.gap, ItemsAt(toks, Sources(ps)));
  }
}
