/** Rendering tokens with the comments between them (formatter/comments.go, formatter/format.go). */
module Comments {
  import opened Lexing
  import opened LexRoundTrip
  import opened LexProps

  /** What is rendered; tokens and comments carry their index in the stream. */
  datatype Piece =
    | Space(text: string)
    | TokenText(at: nat, text: string)
    | CommentText(at: nat, text: string)
    | SoftLine
    | HardLine
    | CommentLine

  // ----- the stream -----

  predicate CommentAt(toks: seq<Token>, i: int) {
    0 <= i < |toks| && IsComment(toks[i].kind)
  }

  predicate SameLine(toks: seq<Token>, c: int, i: int) {
    0 <= c < |toks| && 0 <= i < |toks| && toks[c].line == toks[i].line
  }

  /** The last real token at or before i, or -1. */
  function PrevReal(toks: seq<Token>, i: int): (r: int)
    requires i < |toks|
    decreases i + 1
    ensures r <= i && (i >= -1 ==> r >= -1) && (r >= 0 ==> RealAt(toks, r))
  {
    if CommentAt(toks, i) then PrevReal(toks, i - 1) else i
  }

  lemma {:induction false} OnlyComments(toks: seq<Token>, i: int, c: int)
    requires i < |toks| && PrevReal(toks, i) < c <= i
    ensures CommentAt(toks, c)
    decreases i + 1
  {
    hide IsComment;
    if c < i {
      OnlyComments(toks, i - 1, c);
    }
  }

  ghost predicate LinesAscend(toks: seq<Token>) {
    forall i, j :: 0 <= i <= j < |toks| ==> toks[i].line <= toks[j].line
  }

  /** The lines of a lexed source never decrease. */
  lemma LexedLinesAscend(src: string)
    ensures LinesAscend(Lex(src).tokens)
  {
    hide LexFrom, Closed, LineAt, ColAt;
    StreamIsFaithful(src);
    var ts := Lex(src).tokens;
    forall i, j | 0 <= i <= j < |ts| ensures ts[i].line <= ts[j].line {
      assert LexProps.Faithful(src, ts[i]) && LexProps.Faithful(src, ts[j]);
      LinesGrow(src, ts[i].offset, ts[j].offset);
    }
  }

  lemma LinesGrow(src: string, a: nat, b: nat)
    requires a <= b <= |src|
    ensures LineAt(src, a) <= LineAt(src, b)
  {
    TerminatorsGrow(src, a, b);
  }

  lemma {:induction false} TerminatorsGrow(src: string, a: nat, b: nat)
    requires a <= b <= |src|
    ensures Terminators(src, a) <= Terminators(src, b)
    decreases b
  {
    hide LineEndsAt;
    if a < b {
      TerminatorsGrow(src, a, b - 1);
    }
  }

  function Range(a: int, b: int): seq<int> {
    if a >= b then [] else seq(b - a, i => a + i)
  }

  lemma RangeFirst(a: int, b: int)
    ensures a < b ==> Range(a, b) == [a] + Range(a + 1, b)
    ensures a < b ==> Range(a, b) == Range(a, b - 1) + [b - 1]
    ensures a >= b ==> Range(a, b) == []
  {
  }

  // ----- which comments belong where -----

  /** The comments after i that share its line. */
  function SameLineRun(toks: seq<Token>, i: int, c: int): seq<int>
    requires 0 <= c <= |toks|
    decreases |toks| - c
  {
    if c < |toks| && CommentAt(toks, c) && SameLine(toks, c, i) then [c] + SameLineRun(toks, i, c + 1) else []
  }

  /** The comments from c on up to i that do not share the line of prev. */
  function OwnLineRun(toks: seq<Token>, prev: int, c: int, i: int): seq<int>
    requires 0 <= c && i <= |toks|
    decreases i - c
  {
    if c >= i then []
    else if SameLine(toks, c, prev) then OwnLineRun(toks, prev, c + 1, i)
    else [c] + OwnLineRun(toks, prev, c + 1, i)
  }

  function Trailing(toks: seq<Token>, i: int): seq<int>
    requires 0 <= i < |toks|
  {
    SameLineRun(toks, i, i + 1)
  }

  function Leading(toks: seq<Token>, i: int): seq<int>
    requires 0 <= i < |toks|
  {
    var prev := PrevReal(toks, i - 1);
    OwnLineRun(toks, prev, prev + 1, i)
  }

  /** When no comment up to i shares the line of prev, all of them are own-line comments. */
  lemma {:induction false} AllOwnLine(toks: seq<Token>, prev: int, c: int, i: int)
    requires 0 <= c <= i <= |toks| && forall k :: c <= k < i ==> !SameLine(toks, k, prev)
    ensures OwnLineRun(toks, prev, c, i) == Range(c, i)
    decreases i - c
  {
    hide Range;
    RangeFirst(c, i);
    if c < i {
      AllOwnLine(toks, prev, c + 1, i);
    }
  }

  lemma {:induction false} SplitFrom(toks: seq<Token>, p: int, c: int, q: int)
    requires 0 <= p < c <= q < |toks| && LinesAscend(toks) && RealAt(toks, q)
             && forall k :: c <= k < q ==> CommentAt(toks, k)
    ensures SameLineRun(toks, p, c) + OwnLineRun(toks, p, c, q) == Range(c, q)
    decreases q - c
  {
    hide IsComment, LinesAscend, Range;
    RangeFirst(c, q);
    if c == q {
      assert !CommentAt(toks, q);
    } else if SameLine(toks, c, p) {
      SplitFrom(toks, p, c + 1, q);
    } else {
      forall k | c <= k < q ensures !SameLine(toks, k, p) {
        LaterLine(toks, p, c, k);
      }
      AllOwnLine(toks, p, c, q);
    }
  }

  lemma LaterLine(toks: seq<Token>, p: int, c: int, k: int)
    requires LinesAscend(toks) && 0 <= p <= c <= k < |toks| && !SameLine(toks, c, p)
    ensures !SameLine(toks, k, p)
  {
  }

  /** The comments between two adjacent real tokens are the first one's same-line comments followed by
      the second one's own-line comments. */
  lemma CommentsSplit(toks: seq<Token>, p: int, q: int)
    requires LinesAscend(toks) && RealAt(toks, p) && RealAt(toks, q) && p < q
             && forall k :: p < k < q ==> CommentAt(toks, k)
    ensures Trailing(toks, p) + Leading(toks, q) == Range(p + 1, q)
  {
    hide IsComment, LinesAscend, SameLineRun, OwnLineRun, Range;
    PrevOf(toks, p, q - 1);
    SplitFrom(toks, p, p + 1, q);
  }

  lemma {:induction false} PrevOf(toks: seq<Token>, p: int, i: int)
    requires RealAt(toks, p) && p <= i < |toks| && forall k :: p < k <= i ==> CommentAt(toks, k)
    ensures PrevReal(toks, i) == p
    decreases i
  {
    hide IsComment;
    if p < i {
      PrevOf(toks, p, i - 1);
    }
  }

  /** The comments before the first real token are all its own-line comments. */
  lemma CommentsFirst(toks: seq<Token>, q: int)
    requires RealAt(toks, q) && forall k :: 0 <= k < q ==> CommentAt(toks, k)
    ensures Leading(toks, q) == Range(0, q)
  {
    NoPrev(toks, q - 1);
    AllOwnLine(toks, -1, 0, q);
  }

  lemma {:induction false} NoPrev(toks: seq<Token>, i: int)
    requires -1 <= i < |toks| && forall k :: 0 <= k <= i ==> CommentAt(toks, k)
    ensures PrevReal(toks, i) == -1
    decreases i + 1
  {
    if i >= 0 {
      NoPrev(toks, i - 1);
    }
  }

  // ----- rendering comments -----

  function TrimRight(s: string): string {
    if s != "" && (s[|s| - 1] == ' ' || s[|s| - 1] == '\t') then TrimRight(s[..|s| - 1]) else s
  }

  function Copies(n: nat, p: Piece): seq<Piece> {
    seq(n, _ => p)
  }

  /** A comment on a line of its own; at the very start without a line before it. */
  function OwnLineComment(toks: seq<Token>, c: nat, prev: int, first: bool): seq<Piece>
    requires c < |toks|
  {
    (if prev >= 0 || !first || toks[c].blankLines > 0 then [SoftLine] else [])
    + Copies(toks[c].blankLines, HardLine) + [CommentText(c, TrimRight(toks[c].text)), CommentLine]
  }

  predicate EndsLine(toks: seq<Token>, c: nat)
    requires c < |toks|
  {
    toks[c].kind == LineComment
  }

  /** A comment after a token on its line; a line comment ends the line. */
  function SameLineComment(toks: seq<Token>, c: nat): seq<Piece>
    requires c < |toks|
  {
    [Space(" "), CommentText(c, TrimRight(toks[c].text))] + if EndsLine(toks, c) then [CommentLine] else []
  }

  function SameLineDocs(toks: seq<Token>, i: int, c: int): seq<Piece>
    requires 0 <= c <= |toks|
    decreases |toks| - c
  {
    if c < |toks| && CommentAt(toks, c) && SameLine(toks, c, i)
    then SameLineComment(toks, c) + SameLineDocs(toks, i, c + 1) else []
  }

  function SuppressedDocs(toks: seq<Token>, i: int, c: int): seq<Piece>
    requires 0 <= c <= |toks|
    decreases |toks| - c
  {
    if c < |toks| && CommentAt(toks, c) && SameLine(toks, c, i)
    then OwnLineComment(toks, c, i, false) + SuppressedDocs(toks, i, c + 1)
    else []
  }

  function OwnLineDocs(toks: seq<Token>, prev: int, c: int, i: int, first: bool): seq<Piece>
    requires 0 <= c && i <= |toks|
    decreases i - c
  {
    if c >= i then []
    else if SameLine(toks, c, prev) then OwnLineDocs(toks, prev, c + 1, i, first)
    else OwnLineComment(toks, c, prev, first) + OwnLineDocs(toks, prev, c + 1, i, false)
  }

  /** The own-line comments before i and, after them, the blank lines before i itself. */
  function LeadingDocs(toks: seq<Token>, i: int): seq<Piece>
    requires 0 <= i < |toks|
  {
    var prev := PrevReal(toks, i - 1);
    var docs := OwnLineDocs(toks, prev, prev + 1, i, true);
    docs + if docs != [] then Copies(toks[i].blankLines, HardLine) else []
  }

  datatype Run = Run(docs: seq<Piece>, ended: bool)

  /** The comments between prev and k, and whether they end the line. */
  function CommentsRun(toks: seq<Token>, prev: int, k: int): Run
    requires 0 <= prev && k <= |toks|
    decreases k - prev
  {
    if k <= prev + 1 then Run([], false)
    else
      var r := CommentsRun(toks, prev, k - 1);
      if SameLine(toks, k - 1, prev) then Run(r.docs + SameLineComment(toks, k - 1), EndsLine(toks, k - 1))
      else Run(r.docs + OwnLineComment(toks, k - 1, prev, false), true)
  }

  predicate SameLineEndsLine(toks: seq<Token>, i: int, c: int)
    requires 0 <= c <= |toks|
    decreases |toks| - c
  {
    c < |toks| && CommentAt(toks, c) && SameLine(toks, c, i) && (EndsLine(toks, c) || SameLineEndsLine(toks, i, c + 1))
  }

  // ----- rendering tokens -----

  datatype Pad = Pad(idx: int, text: string)

  datatype Options = Options(leading: bool, trailing: bool, skipText: seq<int>, text: string, pads: seq<Pad>,
                             prefix: string)

  function PadAt(pads: seq<Pad>, i: int): string {
    if pads == [] then ""
    else if pads[0].idx == i then pads[0].text + PadAt(pads[1..], i)
    else PadAt(pads[1..], i)
  }

  function Spaces(text: string): seq<Piece> {
    if text == "" then [] else [Space(text)]
  }

  function TokenGap(toks: seq<Token>, prev: nat, i: nat): seq<Piece>
    requires prev < |toks| && i < |toks|
  {
    if SameLineEndsLine(toks, prev, prev + 1) then [] else [Space(RawTokenGap(toks[prev].kind, toks[i].kind))]
  }

  /** One real token with its pads, or what stands for it. */
  function TokenDocs(toks: seq<Token>, i: nat, o: Options): seq<Piece>
    requires i < |toks|
  {
    if i in o.skipText then Spaces(o.text)
    else [TokenText(i, if toks[i].kind == Async then "oneway" else toks[i].text)] + Spaces(PadAt(o.pads, i))
  }

  /** What comes between the real tokens prev and i. */
  function BetweenDocs(toks: seq<Token>, prev: nat, i: nat, o: Options): seq<Piece>
    requires prev < |toks| && i < |toks|
  {
    var run := CommentsRun(toks, prev, i);
    run.docs + if !run.ended && (i !in o.skipText || o.text != "") then TokenGap(toks, prev, i) else []
  }

  /** The tokens from start up to i, of which start is real. */
  function Body(toks: seq<Token>, start: nat, i: nat, o: Options): seq<Piece>
    requires start < i <= |toks|
    decreases i
  {
    if i == start + 1 then TokenDocs(toks, start, o)
    else if CommentAt(toks, i - 1) then Body(toks, start, i - 1, o)
    else
      var prev := PrevReal(toks, i - 2);
      Body(toks, start, i - 1, o) + (if prev >= 0 then BetweenDocs(toks, prev, i - 1, o) else [])
      + TokenDocs(toks, i - 1, o)
  }

  /** The same-line comments after the last token; on lines of their own when its text is dropped and
      the token before it is on another line. */
  function TrailingDocs(toks: seq<Token>, last: nat, o: Options): seq<Piece>
    requires last < |toks|
  {
    var before := PrevReal(toks, last - 1);
    if last !in o.skipText || o.text != "" || (before >= 0 && SameLine(toks, before, last))
    then SameLineDocs(toks, last, last + 1)
    else SuppressedDocs(toks, last, last + 1)
  }

  function Emitted(toks: seq<Token>, start: nat, end: nat, o: Options): seq<Piece>
    requires start <= end < |toks|
  {
    var last := PrevReal(toks, end);
    Spaces(o.prefix) + (if o.leading then LeadingDocs(toks, start) else []) + Body(toks, start, end + 1, o)
    + if o.trailing && last >= 0 then TrailingDocs(toks, last, o) else []
  }

  // ----- what is rendered -----

  /** The stream indexes of the rendered tokens and comments, in order. */
  function Sources(ps: seq<Piece>): seq<int> {
    if ps == [] then []
    else
      var less, p := Sources(ps[..|ps| - 1]), ps[|ps| - 1];
      if p.TokenText? || p.CommentText? then less + [p.at] else less
  }

  lemma {:induction false} SourcesConcat(a: seq<Piece>, b: seq<Piece>)
    ensures Sources(a + b) == Sources(a) + Sources(b)
    decreases |b|
  {
    if b == [] {
      assert a + b == a;
    } else {
      assert (a + b)[..|a + b| - 1] == a + b[..|b| - 1];
      SourcesConcat(a, b[..|b| - 1]);
    }
  }

  /** A rendered token or comment has its own text, "async" becoming "oneway". */
  predicate Faithful(toks: seq<Token>, p: Piece) {
    match p
    case TokenText(at, text) => RealAt(toks, at) && text == (if toks[at].kind == Async then "oneway" else toks[at].text)
    case CommentText(at, text) => at < |toks| && text == TrimRight(toks[at].text)
    case _ => true
  }

  predicate InStream(toks: seq<Token>, p: Piece) {
    p.CommentText? ==> p.at < |toks|
  }

  predicate OfLineComment(toks: seq<Token>, p: Piece) {
    p.CommentText? && InStream(toks, p) && toks[p.at].kind == LineComment
  }

  /** The texts are the stream's, and a line comment is followed by the end of its line. */
  ghost predicate LineSafe(toks: seq<Token>, ps: seq<Piece>) {
    && (forall k :: 0 <= k < |ps| ==> Faithful(toks, ps[k]))
    && forall k :: 0 <= k < |ps| && OfLineComment(toks, ps[k]) ==> k + 1 < |ps| && ps[k + 1] == CommentLine
  }

  lemma OwnLineSource(toks: seq<Token>, c: nat, prev: int, first: bool)
    requires c < |toks|
    ensures Sources(OwnLineComment(toks, c, prev, first)) == [c] && LineSafe(toks, OwnLineComment(toks, c, prev, first))
  {
    hide IsComment, TrimRight, LineSafe;
    var lead := (if prev >= 0 || !first || toks[c].blankLines > 0 then [SoftLine] else [])
        + Copies(toks[c].blankLines, HardLine);
    var text, end := [CommentText(c, TrimRight(toks[c].text))], [CommentLine];
    assert OwnLineComment(toks, c, prev, first) == lead + (text + end);
    SourcesConcat(lead, text + end);
    SourcesConcat(text, end);
    NoSources(lead);
    OneSource(text[0]);
    OneSource(CommentLine);
    SafeQuiet(toks, lead);
    CommentSafe(toks, c, text + end);
    SafeConcat(toks, lead, text + end);
  }

  lemma {:induction false} NoSources(ps: seq<Piece>)
    requires forall k :: 0 <= k < |ps| ==> ps[k] == SoftLine || ps[k] == HardLine
    ensures Sources(ps) == []
    decreases |ps|
  {
    if ps != [] {
      NoSources(ps[..|ps| - 1]);
    }
  }

  lemma OneSource(p: Piece)
    ensures Sources([p]) == if p.TokenText? || p.CommentText? then [p.at] else []
  {
    assert [p][..0] == [];
  }

  lemma SafeQuiet(toks: seq<Token>, ps: seq<Piece>)
    requires forall k :: 0 <= k < |ps| ==> ps[k] == SoftLine || ps[k] == HardLine || ps[k].Space?
    ensures LineSafe(toks, ps)
  {
  }

  lemma CommentSafe(toks: seq<Token>, c: nat, ps: seq<Piece>)
    requires c < |toks| && ps == [CommentText(c, TrimRight(toks[c].text)), CommentLine]
    ensures LineSafe(toks, ps)
  {
    hide IsComment, TrimRight;
  }

  lemma SafeConcat(toks: seq<Token>, a: seq<Piece>, b: seq<Piece>)
    requires LineSafe(toks, a) && LineSafe(toks, b)
    ensures LineSafe(toks, a + b)
  {
    hide Faithful;
    var r := a + b;
    forall k | 0 <= k < |r| ensures Faithful(toks, r[k]) {
      assert r[k] == if k < |a| then a[k] else b[k - |a|];
    }
    forall k | 0 <= k < |r| && r[k].CommentText? && InStream(toks, r[k]) && toks[r[k].at].kind == LineComment
      ensures k + 1 < |r| && r[k + 1] == CommentLine
    {
      if k < |a| {
        assert r[k] == a[k];
      } else {
        assert r[k] == b[k - |a|];
      }
    }
  }

  lemma SameLineSource(toks: seq<Token>, c: nat)
    requires c < |toks|
    ensures Sources(SameLineComment(toks, c)) == [c] && LineSafe(toks, SameLineComment(toks, c))
  {
    hide IsComment, TrimRight, Sources, LineSafe;
    var space, text := [Space(" ")], CommentText(c, TrimRight(toks[c].text));
    OneSource(Space(" "));
    OneSource(text);
    OneSource(CommentLine);
    SafeQuiet(toks, space);
    SourcesConcat(space, [text]);
    SourcesConcat(space, [text] + [CommentLine]);
    SourcesConcat([text], [CommentLine]);
    if EndsLine(toks, c) {
      CommentSafe(toks, c, [text] + [CommentLine]);
      SafeConcat(toks, space, [text] + [CommentLine]);
      assert SameLineComment(toks, c) == space + ([text] + [CommentLine]);
    } else {
      BlockSafe(toks, c, [text]);
      SafeConcat(toks, space, [text]);
      assert SameLineComment(toks, c) == space + [text];
    }
  }

  lemma BlockSafe(toks: seq<Token>, c: nat, ps: seq<Piece>)
    requires c < |toks| && toks[c].kind != LineComment && ps == [CommentText(c, TrimRight(toks[c].text))]
    ensures LineSafe(toks, ps)
  {
    hide IsComment, TrimRight;
  }

  lemma {:induction false} SameLineSources(toks: seq<Token>, i: int, c: int)
    requires 0 <= c <= |toks|
    ensures Sources(SameLineDocs(toks, i, c)) == SameLineRun(toks, i, c) && LineSafe(toks, SameLineDocs(toks, i, c))
    ensures Sources(SuppressedDocs(toks, i, c)) == SameLineRun(toks, i, c) && LineSafe(toks, SuppressedDocs(toks, i, c))
    decreases |toks| - c
  {
    hide SameLineComment, OwnLineComment, LineSafe, CommentAt;
    SafeQuiet(toks, []);
    if c < |toks| && CommentAt(toks, c) && SameLine(toks, c, i) {
      SameLineSources(toks, i, c + 1);
      SameLineSource(toks, c);
      OwnLineSource(toks, c, i, false);
      SourcesConcat(SameLineComment(toks, c), SameLineDocs(toks, i, c + 1));
      SafeConcat(toks, SameLineComment(toks, c), SameLineDocs(toks, i, c + 1));
      SourcesConcat(OwnLineComment(toks, c, i, false), SuppressedDocs(toks, i, c + 1));
      SafeConcat(toks, OwnLineComment(toks, c, i, false), SuppressedDocs(toks, i, c + 1));
    }
  }

  lemma {:induction false} OwnLineSources(toks: seq<Token>, prev: int, c: int, i: int, first: bool)
    requires 0 <= c && i <= |toks|
    ensures var ps := OwnLineDocs(toks, prev, c, i, first);
            Sources(ps) == OwnLineRun(toks, prev, c, i) && LineSafe(toks, ps)
    decreases i - c
  {
    hide OwnLineComment, LineSafe, SameLine;
    SafeQuiet(toks, []);
    if c < i {
      if SameLine(toks, c, prev) {
        OwnLineSources(toks, prev, c + 1, i, first);
      } else {
        OwnLineSources(toks, prev, c + 1, i, false);
        OwnLineSource(toks, c, prev, first);
        SourcesConcat(OwnLineComment(toks, c, prev, first), OwnLineDocs(toks, prev, c + 1, i, false));
        SafeConcat(toks, OwnLineComment(toks, c, prev, first), OwnLineDocs(toks, prev, c + 1, i, false));
      }
    }
  }

  lemma LeadingSources(toks: seq<Token>, i: int)
    requires 0 <= i < |toks|
    ensures Sources(LeadingDocs(toks, i)) == Leading(toks, i) && LineSafe(toks, LeadingDocs(toks, i))
  {
    hide OwnLineDocs, LineSafe, PrevReal, Sources, OwnLineRun;
    var prev := PrevReal(toks, i - 1);
    var docs, blank := OwnLineDocs(toks, prev, prev + 1, i, true), Copies(toks[i].blankLines, HardLine);
    OwnLineSources(toks, prev, prev + 1, i, true);
    NoSources(blank);
    SafeQuiet(toks, blank);
    SourcesConcat(docs, blank);
    SafeConcat(toks, docs, blank);
    assert docs + [] == docs;
  }

  /** Every entry between prev and k is rendered, in order. */
  lemma {:induction false} RunSources(toks: seq<Token>, prev: int, k: int)
    requires 0 <= prev && k <= |toks|
    ensures var r := CommentsRun(toks, prev, k); Sources(r.docs) == Range(prev + 1, k) && LineSafe(toks, r.docs)
    decreases k - prev
  {
    hide SameLineComment, OwnLineComment, LineSafe, Range, SameLine, EndsLine, Sources;
    NothingSafe(toks);
    RangeFirst(prev + 1, k);
    if k > prev + 1 {
      RunSources(toks, prev, k - 1);
      var docs := CommentsRun(toks, prev, k - 1).docs;
      SameLineSource(toks, k - 1);
      OwnLineSource(toks, k - 1, prev, false);
      SourcesConcat(docs, SameLineComment(toks, k - 1));
      SourcesConcat(docs, OwnLineComment(toks, k - 1, prev, false));
      SafeConcat(toks, docs, SameLineComment(toks, k - 1));
      SafeConcat(toks, docs, OwnLineComment(toks, k - 1, prev, false));
    }
  }

  /** The indexes from a up to b, without the real tokens whose text is suppressed. */
  function Rendered(toks: seq<Token>, a: int, b: int, o: Options): seq<int>
    requires 0 <= a && b <= |toks|
    decreases b - a
  {
    if a >= b then []
    else
      var less := Rendered(toks, a, b - 1, o);
      if RealAt(toks, b - 1) && b - 1 in o.skipText then less else less + [b - 1]
  }

  lemma {:induction false} RenderedComments(toks: seq<Token>, a: int, m: int, b: int, o: Options)
    requires 0 <= a <= m <= b <= |toks| && forall k :: m <= k < b ==> CommentAt(toks, k)
    ensures Rendered(toks, a, b, o) == Rendered(toks, a, m, o) + Range(m, b)
    decreases b - m
  {
    hide IsComment, Range;
    RangeFirst(m, b);
    if m < b {
      assert CommentAt(toks, b - 1);
      RenderedComments(toks, a, m, b - 1, o);
    }
  }

  lemma TokenSources(toks: seq<Token>, i: nat, o: Options)
    requires i < |toks| && RealAt(toks, i)
    ensures Sources(TokenDocs(toks, i, o)) == (if i in o.skipText then [] else [i])
            && LineSafe(toks, TokenDocs(toks, i, o))
  {
    hide IsComment, PadAt, RealAt, LineSafe;
    var text := TokenText(i, if toks[i].kind == Async then "oneway" else toks[i].text);
    SpaceSources(toks, o.text);
    SpaceSources(toks, PadAt(o.pads, i));
    OneSource(text);
    SourcesConcat([text], Spaces(PadAt(o.pads, i)));
    TokenSafe(toks, i);
    SafeConcat(toks, [text], Spaces(PadAt(o.pads, i)));
  }

  lemma TokenSafe(toks: seq<Token>, i: nat)
    requires RealAt(toks, i)
    ensures LineSafe(toks, [TokenText(i, if toks[i].kind == Async then "oneway" else toks[i].text)])
  {
    hide IsComment;
  }

  lemma SpaceSources(toks: seq<Token>, text: string)
    ensures Sources(Spaces(text)) == [] && LineSafe(toks, Spaces(text))
    ensures Sources([Space(text)]) == [] && LineSafe(toks, [Space(text)])
  {
    OneSource(Space(text));
  }

  /** Between two real tokens exactly the comments are rendered. */
  lemma BetweenSources(toks: seq<Token>, prev: nat, i: nat, o: Options)
    requires prev < i < |toks|
    ensures Sources(BetweenDocs(toks, prev, i, o)) == Range(prev + 1, i)
            && LineSafe(toks, BetweenDocs(toks, prev, i, o))
  {
    hide Range, LineSafe, CommentsRun, SameLineEndsLine, RawTokenGap;
    var run := CommentsRun(toks, prev, i);
    var gap := TokenGap(toks, prev, i);
    RunSources(toks, prev, i);
    SpaceSources(toks, RawTokenGap(toks[prev].kind, toks[i].kind));
    SafeQuiet(toks, []);
    SourcesConcat(run.docs, gap);
    SafeConcat(toks, run.docs, gap);
    assert run.docs + [] == run.docs;
  }

  /** The last real token before i. */
  lemma {:induction false} PrevBounds(toks: seq<Token>, start: nat, i: int)
    requires RealAt(toks, start) && start <= i < |toks|
    ensures start <= PrevReal(toks, i) <= i && RealAt(toks, PrevReal(toks, i))
            && forall k :: PrevReal(toks, i) < k <= i ==> CommentAt(toks, k)
    decreases i
  {
    hide IsComment;
    if CommentAt(toks, i) {
      PrevBounds(toks, start, i - 1);
    }
  }

  lemma {:induction false} BodySources(toks: seq<Token>, start: nat, i: nat, o: Options)
    requires start < i <= |toks| && RealAt(toks, start)
    ensures Sources(Body(toks, start, i, o)) == Rendered(toks, start, PrevReal(toks, i - 1) + 1, o)
    ensures LineSafe(toks, Body(toks, start, i, o))
    decreases i
  {
    hide IsComment, LineSafe, Range, TokenDocs, BetweenDocs, Sources, PrevReal;
    if i == start + 1 {
      PrevOf(toks, start, start);
      TokenSources(toks, start, o);
      NoneRendered(toks, start, o);
    } else if CommentAt(toks, i - 1) {
      BodySources(toks, start, i - 1, o);
      PrevStep(toks, i - 1);
    } else {
      BodySources(toks, start, i - 1, o);
      PrevStep(toks, i - 1);
      PrevBounds(toks, start, i - 2);
      var prev, body := PrevReal(toks, i - 2), Body(toks, start, i - 1, o);
      BetweenSources(toks, prev, i - 1, o);
      TokenSources(toks, i - 1, o);
      RenderedComments(toks, start, prev + 1, i - 1, o);
      SourcesConcat(body, BetweenDocs(toks, prev, i - 1, o));
      SourcesConcat(body + BetweenDocs(toks, prev, i - 1, o), TokenDocs(toks, i - 1, o));
      SafeConcat(toks, body, BetweenDocs(toks, prev, i - 1, o));
      SafeConcat(toks, body + BetweenDocs(toks, prev, i - 1, o), TokenDocs(toks, i - 1, o));
    }
  }

  lemma NoneRendered(toks: seq<Token>, start: nat, o: Options)
    requires start < |toks|
    ensures Rendered(toks, start, start, o) == []
    ensures Rendered(toks, start, start + 1, o) == if RealAt(toks, start) && start in o.skipText then [] else [start]
  {
  }

  lemma PrevStep(toks: seq<Token>, i: int)
    requires 0 <= i < |toks|
    ensures PrevReal(toks, i) == if CommentAt(toks, i) then PrevReal(toks, i - 1) else i
  {
  }

  /** emitTokens renders, in source order and each once: the own-line comments before start if asked
      for, every comment between its real tokens and every real token that is not suppressed, and the
      same-line comments after the last real token if asked for. Their texts are the stream's, "async"
      becoming "oneway", and a line comment always ends its line. */
  lemma EmittedSources(toks: seq<Token>, start: nat, end: nat, o: Options)
    requires start <= end < |toks| && RealAt(toks, start)
    ensures var last := PrevReal(toks, end);
            && start <= last <= end
            && Sources(Emitted(toks, start, end, o))
               == (if o.leading then Leading(toks, start) else []) + Rendered(toks, start, last + 1, o)
                  + (if o.trailing then Trailing(toks, last) else [])
    ensures LineSafe(toks, Emitted(toks, start, end, o))
  {
    hide IsComment, LineSafe, Range, Sources, PrevReal, Body, LeadingDocs, TrailingDocs, Spaces, Rendered, Leading,
         Trailing;
    var last := PrevReal(toks, end);
    PrevBounds(toks, start, end);
    var prefix, lead, body, tail := Spaces(o.prefix), LeadingDocs(toks, start), Body(toks, start, end + 1, o),
        TrailingDocs(toks, last, o);
    SpaceSources(toks, o.prefix);
    LeadingSources(toks, start);
    BodySources(toks, start, end + 1, o);
    TrailingSources(toks, last, o);
    NothingSafe(toks);
    var front := prefix + if o.leading then lead else [];
    SourcesConcat(prefix, if o.leading then lead else []);
    SafeConcat(toks, prefix, if o.leading then lead else []);
    SourcesConcat(front, body);
    SafeConcat(toks, front, body);
    SourcesConcat(front + body, if o.trailing then tail else []);
    SafeConcat(toks, front + body, if o.trailing then tail else []);
  }

  lemma NothingSafe(toks: seq<Token>)
    ensures Sources([]) == [] && LineSafe(toks, [])
  {
  }

  lemma TrailingSources(toks: seq<Token>, last: nat, o: Options)
    requires last < |toks|
    ensures Sources(TrailingDocs(toks, last, o)) == Trailing(toks, last) && LineSafe(toks, TrailingDocs(toks, last, o))
  {
    hide LineSafe, Sources, SameLineDocs, SuppressedDocs, PrevReal;
    SameLineSources(toks, last, last + 1);
  }

  // ----- the loops -----

  lemma Regroup(a: seq<Piece>, b: seq<Piece>, c: seq<Piece>)
    ensures a + b + c == a + (b + c)
  {
  }

  lemma SameLineStep(toks: seq<Token>, i: int, c: int)
    requires 0 <= i < |toks| && 0 <= c <= |toks|
    ensures var on := c < |toks| && IsComment(toks[c].kind) && toks[c].line == toks[i].line;
            && SameLineDocs(toks, i, c) == (if on then SameLineComment(toks, c) + SameLineDocs(toks, i, c + 1) else [])
            && SuppressedDocs(toks, i, c) ==
               (if on then OwnLineComment(toks, c, i, false) + SuppressedDocs(toks, i, c + 1) else [])
  {
    hide SameLineComment, OwnLineComment, IsComment;
  }

  /** The comments after the real token at idx on its line. */
  method SameLineComments(toks: seq<Token>, idx: nat) returns (parts: seq<Piece>)
    requires idx < |toks|
    ensures parts == SameLineDocs(toks, idx, idx + 1)
  {
    hide *;
    parts := [];
    var c := idx + 1;
    while true
      invariant idx < c <= |toks| && parts + SameLineDocs(toks, idx, c) == SameLineDocs(toks, idx, idx + 1)
      decreases |toks| - c
    {
      SameLineStep(toks, idx, c);
      if c == |toks| || !IsComment(toks[c].kind) || toks[c].line != toks[idx].line {
        return;
      }
      Regroup(parts, SameLineComment(toks, c), SameLineDocs(toks, idx, c + 1));
      parts := parts + SameLineComment(toks, c);
      c := c + 1;
    }
  }

  /** The same comments, each on a line of its own. */
  method SuppressedSepComments(toks: seq<Token>, idx: nat) returns (parts: seq<Piece>)
    requires idx < |toks|
    ensures parts == SuppressedDocs(toks, idx, idx + 1)
  {
    hide *;
    parts := [];
    var c := idx + 1;
    while true
      invariant idx < c <= |toks| && parts + SuppressedDocs(toks, idx, c) == SuppressedDocs(toks, idx, idx + 1)
      decreases |toks| - c
    {
      SameLineStep(toks, idx, c);
      if c == |toks| || !IsComment(toks[c].kind) || toks[c].line != toks[idx].line {
        return;
      }
      Regroup(parts, OwnLineComment(toks, c, idx, false), SuppressedDocs(toks, idx, c + 1));
      parts := parts + OwnLineComment(toks, c, idx, false);
      c := c + 1;
    }
  }

  lemma OwnLineStep(toks: seq<Token>, prev: int, c: int, i: int, first: bool)
    requires 0 <= c && i <= |toks| && prev < |toks|
    ensures OwnLineDocs(toks, prev, c, i, first) ==
            if c >= i then []
            else if prev >= 0 && toks[c].line == toks[prev].line then OwnLineDocs(toks, prev, c + 1, i, first)
            else OwnLineComment(toks, c, prev, first) + OwnLineDocs(toks, prev, c + 1, i, false)
  {
    hide OwnLineComment;
  }

  /** The own-line comments before the real token at idx, and the blank lines before it. */
  method OwnLineComments(toks: seq<Token>, idx: nat) returns (parts: seq<Piece>)
    requires idx < |toks|
    ensures parts == LeadingDocs(toks, idx)
  {
    hide OwnLineComment, OwnLineDocs, IsComment;
    var prev := PrevReal(toks, idx - 1);
    ghost var all := OwnLineDocs(toks, prev, prev + 1, idx, true);
    parts := [];
    var first := true;
    var c := prev + 1;
    while c < idx
      invariant prev + 1 <= c <= idx && parts + OwnLineDocs(toks, prev, c, idx, first) == all
      decreases idx - c
    {
      OwnLineStep(toks, prev, c, idx, first);
      if prev >= 0 && toks[c].line == toks[prev].line {
        c := c + 1;
        continue;
      }
      Regroup(parts, OwnLineComment(toks, c, prev, first), OwnLineDocs(toks, prev, c + 1, idx, false));
      parts := parts + OwnLineComment(toks, c, prev, first);
      first := false;
      c := c + 1;
    }
    OwnLineStep(toks, prev, c, idx, first);
    assert parts == all;
    if |parts| > 0 && toks[idx].blankLines > 0 {
      parts := parts + Copies(toks[idx].blankLines, HardLine);
    }
  }

  /** The comments strictly between the real tokens prev and cur, and whether they end the line. */
  method CommentsBetween(toks: seq<Token>, prev: nat, cur: nat) returns (parts: seq<Piece>, lineEnded: bool)
    requires prev < cur <= |toks|
    ensures Run(parts, lineEnded) == CommentsRun(toks, prev, cur)
  {
    hide OwnLineComment, SameLineComment, EndsLine;
    parts, lineEnded := [], false;
    for c := prev + 1 to cur
      invariant Run(parts, lineEnded) == CommentsRun(toks, prev, c)
    {
      if toks[c].line == toks[prev].line {
        parts, lineEnded := parts + SameLineComment(toks, c), EndsLine(toks, c);
        continue;
      }
      parts, lineEnded := parts + OwnLineComment(toks, c, prev, false), true;
    }
  }

  /** The tokens from start to end with the comments between them. */
  method EmitTokens(toks: seq<Token>, start: nat, end: nat, o: Options) returns (parts: seq<Piece>)
    requires start <= end < |toks| && RealAt(toks, start)
    ensures parts == Emitted(toks, start, end, o)
  {
    hide *;
    EmittedParts(toks, start, end, o);
    parts := Spaces(o.prefix);
    if o.leading {
      var own := OwnLineComments(toks, start);
      parts := parts + own;
    }
    ghost var front := parts;
    assert front == Spaces(o.prefix) + if o.leading then LeadingDocs(toks, start) else [];
    var prev := start;
    var first := true;
    BodyFirst(toks, start, o);
    for i := start to end + 1
      invariant first <==> i == start
      invariant if first then parts == front && prev == start
                else parts == front + Body(toks, start, i, o) && prev == PrevReal(toks, i - 1) >= start
    {
      if IsComment(toks[i].kind) {
        BodyStep(toks, start, i, o);
        continue;
      }
      var skipped := i in o.skipText;
      if !first {
        BodyStep(toks, start, i, o);
        ghost var before := parts;
        var comments, lineEnded := CommentsBetween(toks, prev, i);
        parts := parts + comments;
        if !lineEnded && (!skipped || o.text != "") {
          parts := parts + TokenGap(toks, prev, i);
        }
        BetweenIs(toks, prev, i, o, before + comments, parts, before);
      }
      parts := parts + TokenDocs(toks, i, o);
      prev := i;
      first := false;
    }
    if o.trailing {
      var tail := TrailingComments(toks, prev, o);
      parts := parts + tail;
    }
  }

  /** The same-line comments after the last real token. */
  method TrailingComments(toks: seq<Token>, last: nat, o: Options) returns (parts: seq<Piece>)
    requires last < |toks|
    ensures parts == TrailingDocs(toks, last, o)
  {
    hide SameLineDocs, SuppressedDocs, IsComment;
    var before := PrevReal(toks, last - 1);
    if last !in o.skipText || o.text != "" || (before >= 0 && toks[before].line == toks[last].line) {
      parts := SameLineComments(toks, last);
    } else {
      parts := SuppressedSepComments(toks, last);
    }
  }

  lemma BetweenIs(toks: seq<Token>, prev: nat, i: nat, o: Options, mid: seq<Piece>, after: seq<Piece>,
                  before: seq<Piece>)
    requires prev < i < |toks| && mid == before + CommentsRun(toks, prev, i).docs
    requires after ==
             if !CommentsRun(toks, prev, i).ended && (i !in o.skipText || o.text != "")
             then mid + TokenGap(toks, prev, i) else mid
    ensures after == before + BetweenDocs(toks, prev, i, o)
  {
    hide CommentsRun, TokenGap;
  }

  lemma EmittedParts(toks: seq<Token>, start: nat, end: nat, o: Options)
    requires start <= end < |toks| && RealAt(toks, start)
    ensures var last := PrevReal(toks, end);
            && 0 <= last < |toks|
            && Emitted(toks, start, end, o)
               == Spaces(o.prefix) + (if o.leading then LeadingDocs(toks, start) else [])
               + Body(toks, start, end + 1, o)
                  + if o.trailing then TrailingDocs(toks, last, o) else []
  {
    hide IsComment, LeadingDocs, TrailingDocs, Body, Spaces;
    PrevBounds(toks, start, end);
  }

  lemma BodyFirst(toks: seq<Token>, start: nat, o: Options)
    requires start < |toks| && RealAt(toks, start)
    ensures Body(toks, start, start + 1, o) == TokenDocs(toks, start, o) && PrevReal(toks, start) == start
    ensures !IsComment(toks[start].kind)
  {
    hide IsComment, TokenDocs;
  }

  lemma BodyStep(toks: seq<Token>, start: nat, i: nat, o: Options)
    requires start < i < |toks| && RealAt(toks, start)
    ensures PrevReal(toks, i) == if IsComment(toks[i].kind) then PrevReal(toks, i - 1) else i
    ensures start <= PrevReal(toks, i - 1) < i
    ensures Body(toks, start, i + 1, o) ==
            if IsComment(toks[i].kind) then Body(toks, start, i, o)
            else Body(toks, start, i, o) + BetweenDocs(toks, PrevReal(toks, i - 1), i, o) + TokenDocs(toks, i, o)
  {
    hide IsComment, BetweenDocs, TokenDocs;
    PrevBounds(toks, start, i - 1);
  }
}
