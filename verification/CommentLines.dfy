/** Lexing what emitTokens has written finds every comment on the line of the token before it exactly when it was there
    in the source, and otherwise at the start of a line, with its blank lines (formatter/comments.go). */
module CommentLines {
  import opened Lexing
  import opened LexRoundTrip
  import opened LexProps
  import opened Comments
  import opened PrintedEmission
  import opened CommentPlaces
  import opened Utf8
  import opened Doc
  import Breaks
  import Emission
  import FormattedDocument
  import Layout
  import Page
  import PrintMachine
  import PrintText
  import PrintWidth
  import WovenLexing
  import opened Wrappers

  // ----- lines and offsets -----

  /** No line ends between a and b. */
  ghost predicate OneLine(src: string, a: nat, b: nat) {
    a <= b <= |src| && forall i :: a < i <= b ==> !LineEndsAt(src, i)
  }

  lemma {:induction false} OneLineSame(src: string, a: nat, b: nat)
    requires a <= b <= |src|
    ensures OneLine(src, a, b) <==> Terminators(src, a) == Terminators(src, b)
    ensures Terminators(src, a) <= Terminators(src, b)
    decreases b
  {
    hide LineEndsAt;
    if a < b {
      OneLineSame(src, a, b - 1);
    }
  }

  /** A line that ends between a and b. */
  lemma LinesApart(src: string, a: nat, b: nat, i: nat)
    requires a < i <= b <= |src| && LineEndsAt(src, i)
    ensures LineAt(src, a) < LineAt(src, b)
  {
    hide LineEndsAt, Terminators;
    OneLineSame(src, a, b);
  }

  lemma {:induction false} LineCommentStops(s: string)
    ensures LineCommentLen(s) == |s| || IsNewline(s[LineCommentLen(s)])
    decreases |s|
  {
    hide RuneSize;
    if s != "" && !IsNewline(s[0]) {
      LineCommentStops(s[RuneSize(s)..]);
    }
  }

  /** A line comment goes up to a line break or to the end of the source. */
  predicate Ended(src: string, t: Token) {
    t.kind == LineComment ==>
      var e := t.offset + |t.text|;
      e == |src| || (e < |src| && IsNewline(src[e]))
  }

  ghost predicate AllEnded(src: string, ts: seq<Token>) {
    forall i :: 0 <= i < |ts| ==> Ended(src, ts[i])
  }

  lemma EndedConcat(src: string, a: seq<Token>, b: seq<Token>)
    requires AllEnded(src, a) && AllEnded(src, b)
    ensures AllEnded(src, a + b)
  {
    hide Ended;
  }

  lemma OneEnded(src: string, off: nat, kind: Kind, n: nat, blank: nat)
    requires off + n <= |src|
    requires kind == LineComment ==> n == LineCommentLen(src[off..])
    ensures AllEnded(src, [TokenAt(src, off, kind, n).(blankLines := blank)])
  {
    hide LineCommentLen, LineAt, ColAt;
    LineCommentStops(src[off..]);
    assert off + n < |src| ==> src[off + n] == src[off..][n];
  }

  lemma {:induction false} TriviaEnded(src: string, off: nat, blank: nat)
    requires off <= |src|
    ensures AllEnded(src, ScanTrivia(src, off, blank).comments)
    decreases |src| - off
  {
    hide ScanTrivia, BlockAt, LineCommentLen, AllEnded, TokenAt, Newlines, BlankLines;
    var s := src[off..];
    TriviaStep(src, off, blank);
    NoneEnded(src);
    if s != "" && IsWhitespace(s[0]) {
      var n := WhitespaceLen(s);
      TriviaEnded(src, off + n, blank + BlankLines(Newlines(s[..n])));
    } else if StartsLineComment(s) {
      var n := LineCommentLen(s);
      TriviaEnded(src, off + n, 0);
      OneEnded(src, off, LineComment, n, blank);
      EndedConcat(src, [TokenAt(src, off, LineComment, n).(blankLines := blank)], ScanTrivia(src, off + n, 0).comments);
    } else if StartsBlockComment(s) {
      var b := BlockAt(s);
      BlockNoLine(s);
      TriviaEnded(src, off + b.len, 0);
      OneEnded(src, off, b.kind, b.len, blank);
      EndedConcat(src, [TokenAt(src, off, b.kind, b.len).(blankLines := blank)],
                  ScanTrivia(src, off + b.len, 0).comments);
    }
  }

  lemma NoneEnded(src: string)
    ensures AllEnded(src, [])
  {
  }

  lemma BlockNoLine(s: string)
    requires StartsBlockComment(s)
    ensures BlockAt(s).kind != LineComment
  {
    hide BlockRest;
    BlockKind(s, 2, Peek(s, 2) == '*');
  }

  lemma {:induction false} LexEnded(src: string, off: nat)
    requires off <= |src|
    ensures AllEnded(src, LexFrom(src, off).tokens)
    decreases |src| - off
  {
    hide ScanTrivia, ScanToken, AllEnded, ActionAt;
    var t := ScanTrivia(src, off, 0);
    var r := ScanToken(src, t.off);
    var token := r.token.(blankLines := t.blankLines);
    TriviaEnded(src, off, 0);
    WovenLexing.TokenNoComment(src, t.off);
    TokenEnded(src, token);
    EndedConcat(src, t.comments, [token]);
    if r.token.kind != EOF {
      LexEnded(src, r.off);
      EndedConcat(src, t.comments + [token], LexFrom(src, r.off).tokens);
    }
  }

  lemma TokenEnded(src: string, t: Token)
    requires !IsComment(t.kind)
    ensures AllEnded(src, [t])
  {
  }

  /** A comment's first character. */
  lemma CommentStart(src: string, k: nat)
    requires Lex(src).errs == [] && CommentAt(Lex(src).tokens, k)
    ensures var t := Lex(src).tokens[k]; t.offset < |src| && !IsNewline(src[t.offset])
  {
    hide LexFrom, LineAt, ColAt, WovenLexing.IsCommentText;
    StreamIsFaithful(src);
    WovenLexing.CommentsAreTexts(src, 0);
    var t := Lex(src).tokens[k];
    assert LexProps.Faithful(src, t);
    WovenLexing.ItemStart(Word(t.kind, t.text));
    assert t.text[0] == src[t.offset];
  }

  /** In an error-free source a comment behind a line comment is on a later line. */
  lemma LexedLinesEnd(src: string)
    requires Lex(src).errs == []
    ensures LinesEnd(Lex(src).tokens)
  {
    hide LexFrom, LineAt, ColAt, IsComment;
    StreamIsFaithful(src);
    LexEnded(src, 0);
    var ts := Lex(src).tokens;
    forall c | 0 <= c && CommentAt(ts, c + 1) && ts[c].kind == LineComment ensures ts[c].line < ts[c + 1].line {
      CommentStart(src, c + 1);
      assert Ended(src, ts[c]) && LexProps.Faithful(src, ts[c]) && LexProps.Faithful(src, ts[c + 1]);
      BreakBetween(src, ts[c].offset, ts[c].offset + |ts[c].text|, ts[c + 1].offset);
    }
  }

  lemma BreakBetween(src: string, a: nat, e: nat, b: nat)
    requires a <= e <= b < |src| && IsNewline(src[e]) && !IsNewline(src[b])
    ensures LineAt(src, a) < LineAt(src, b)
  {
    hide Terminators;
    if src[e] == '\r' && Peek(src, e + 1) == '\n' {
      LinesApart(src, a, b, e + 2);
    } else {
      LinesApart(src, a, b, e + 1);
    }
  }

  // ----- gaps in a text -----

  /** Only blanks lie between the start of the line and off. */
  ghost predicate StartsItsLine(text: string, off: nat) {
    off <= |text| && forall i :: LineStart(text, off) <= i < off ==> PrintMachine.Blank(text[i])
  }

  lemma {:induction false} BlanksKeepLine(text: string, e: nat, off: nat)
    requires e <= off <= |text| && (e == 0 || LineEndsAt(text, e))
             && forall i :: e <= i < off ==> PrintMachine.Blank(text[i])
    ensures LineStart(text, off) == e
    decreases off - e
  {
    if e < off {
      BlanksKeepLine(text, e, off - 1);
    }
  }

  lemma {:induction false} FormedNewlines(nl: string, gap: string, n: nat)
    requires (nl == "\n" || nl == "\r\n") && Layout.FormedBy(nl, gap, n)
    ensures Newlines(gap) == n
    decreases n
  {
    var blanks :| Page.AllBlank(blanks) && gap == Page.Times(nl, n) + blanks;
    if n == 0 {
      NoNewlines(blanks);
      assert gap == blanks;
    } else {
      var rest := Page.Times(nl, n - 1) + blanks;
      assert Layout.FormedBy(nl, rest, n - 1);
      FormedNewlines(nl, rest, n - 1);
      assert gap == nl + rest;
      assert gap[|nl|..] == rest;
    }
  }

  lemma {:induction false} NoNewlines(s: string)
    requires Page.AllBlank(s)
    ensures Newlines(s) == 0
    decreases |s|
  {
    if s != "" {
      NoNewlines(s[1..]);
    }
  }

  /** Where the blanks of a gap begin: behind its last line break. */
  lemma GapBreaks(nl: string, gap: string, n: nat) returns (e: nat)
    requires (nl == "\n" || nl == "\r\n") && Layout.FormedBy(nl, gap, n)
    ensures e <= |gap| && (forall i :: e <= i < |gap| ==> PrintMachine.Blank(gap[i]))
    ensures if n == 0 then e == 0 else e > 0 && gap[e - 1] == '\n'
  {
    hide Page.Times;
    var blanks :| Page.AllBlank(blanks) && gap == Page.Times(nl, n) + blanks;
    e := |Page.Times(nl, n)|;
    Page.LinesEnd(nl, n);
    assert forall i :: e <= i < |gap| ==> gap[i] == blanks[i - e];
  }

  /** A gap in a text: without a line break it keeps the line, and with one what follows it starts a later line. */
  lemma GapInText(nl: string, text: string, from: nat, gap: string, n: nat)
    requires (nl == "\n" || nl == "\r\n") && Layout.FormedBy(nl, gap, n)
    requires from + |gap| <= |text| && text[from..from + |gap|] == gap
    ensures n == 0 ==> forall i :: from <= i < from + |gap| ==> PrintMachine.Blank(text[i])
    ensures n > 0 ==> LineAt(text, from) < LineAt(text, from + |gap|)
    ensures n > 0 || from == 0 ==> StartsItsLine(text, from + |gap|)
  {
    hide LineAt, Terminators;
    var e := GapBreaks(nl, gap, n);
    forall i | from + e <= i < from + |gap| ensures PrintMachine.Blank(text[i]) {
      assert text[i] == gap[i - from];
    }
    if n > 0 {
      assert text[from + e - 1] == gap[e - 1];
      LinesApart(text, from, from + |gap|, from + e);
    }
    if n > 0 || from == 0 {
      BlanksKeepLine(text, from + e, from + |gap|);
    }
  }

  // ----- what has been printed and lexed again -----

  /** The text shows the entries from lo up to hi, with gaps that are formed by the lines in front of them. */
  ghost predicate Shows(toks: seq<Token>, start: nat, lo: nat, hi: nat, nl: string, text: string,
                        parts: seq<Layout.Part>, tail: string) {
    && lo <= hi <= |toks| && (nl == "\n" || nl == "\r\n")
    && WordsOf(Lex(text).tokens) == ItemsAt(toks, Range(lo, hi)) + [Word(EOF, "")]
    && WovenLexing.Positioned(0, parts, Lex(text).tokens) && text == Layout.TextOf(parts) + tail
    && Spread(toks, start, parts, Range(lo, hi), true)
    && forall i :: 0 <= i < |parts| ==>
         && Layout.FormedBy(nl, parts[i].gap, Layout.LineCount(parts[i].run))
         && parts[i].ink == ItemAt(toks, Range(lo, hi)[i]).text
  }

  /** Where the gap in front of a token begins. */
  function GapStart(ts: seq<Token>, k: nat): nat
    requires k <= |ts|
  {
    if k == 0 then 0 else ts[k - 1].offset + |ts[k - 1].text|
  }

  lemma {:induction false} PositionedAt(text: string, off: nat, parts: seq<Layout.Part>, tail: string, ts: seq<Token>,
                                        k: nat)
    requires WovenLexing.Positioned(off, parts, ts) && k < |parts|
    requires off <= |text| && text[off..] == Layout.TextOf(parts) + tail
    ensures |ts| == |parts| + 1 && ts[k].blankLines == BlankLines(Newlines(parts[k].gap))
    ensures var from := if k == 0 then off else ts[k - 1].offset + |parts[k - 1].ink|;
            && ts[k].offset == from + |parts[k].gap| <= |text| && text[from..from + |parts[k].gap|] == parts[k].gap
    decreases |parts|
  {
    hide Newlines, BlankLines;
    var gap, ink, rest := parts[0].gap, parts[0].ink, parts[1..];
    assert text[off..] == gap + (ink + (Layout.TextOf(rest) + tail));
    if k == 0 {
      assert text[off..off + |gap|] == text[off..][..|gap|];
      PositionedLen(off, parts, ts);
    } else {
      var next := off + |gap| + |ink|;
      assert text[next..] == text[off..][|gap| + |ink|..];
      PositionedAt(text, next, rest, tail, ts[1..], k - 1);
    }
  }

  lemma {:induction false} PositionedLen(off: nat, parts: seq<Layout.Part>, ts: seq<Token>)
    requires WovenLexing.Positioned(off, parts, ts)
    ensures |ts| == |parts| + 1
    decreases |parts|
  {
    hide Newlines, BlankLines;
    if parts != [] {
      PositionedLen(off + |parts[0].gap| + |parts[0].ink|, parts[1..], ts[1..]);
    }
  }

  /** One entry: its kind and text, the gap before it and the lines in that gap. */
  lemma EntryShown(toks: seq<Token>, start: nat, lo: nat, hi: nat, nl: string, text: string, parts: seq<Layout.Part>,
                   tail: string, k: nat)
    requires Shows(toks, start, lo, hi, nl, text, parts, tail) && k < hi - lo
    ensures var b := Lex(text).tokens;
            && |parts| == hi - lo && |b| == hi - lo + 1 && Word(b[k].kind, b[k].text) == ItemAt(toks, lo + k)
            && GapStart(b, k) + |parts[k].gap| == b[k].offset <= |text|
            && text[GapStart(b, k)..b[k].offset] == parts[k].gap
            && Layout.FormedBy(nl, parts[k].gap, Layout.LineCount(parts[k].run))
            && b[k].blankLines == BlankLines(Newlines(parts[k].gap))
            && EntryOK(toks, start, lo + k, Place(Layout.LineCount(parts[k].run), k == 0))
  {
    hide LexFrom, ItemAt, EntryOK, Newlines, BlankLines, Layout.FormedBy, Layout.LineCount,
         WovenLexing.Positioned, Layout.TextOf;
    var b := Lex(text).tokens;
    assert Range(lo, hi)[k] == lo + k && |parts| == hi - lo;
    assert text[0..] == text;
    PositionedAt(text, 0, parts, tail, b, k);
    assert WordsOf(b)[k] == ItemAt(toks, lo + k);
    if k > 0 {
      assert Range(lo, hi)[k - 1] == lo + k - 1;
      assert WordsOf(b)[k - 1] == ItemAt(toks, lo + k - 1);
    }
  }

  /** The comment keeps its place. */
  ghost predicate Stays(toks: seq<Token>, c: int, text: string, k: nat)
    requires c < |toks|
  {
    var b := Lex(text).tokens;
    && 0 <= c && k < |b| && (InLine(b, k) <==> InLine(toks, c))
    && (!InLine(toks, c) ==> b[k].blankLines == toks[c].blankLines && StartsItsLine(text, b[k].offset))
  }

  // ----- comments on lines of their own -----

  lemma OwnLineStays(toks: seq<Token>, start: nat, lo: nat, hi: nat, nl: string, text: string, parts: seq<Layout.Part>,
                     tail: string, k: nat)
    requires Shows(toks, start, lo, hi, nl, text, parts, tail) && k < hi - lo
    requires CommentAt(toks, lo + k) && !InLine(toks, lo + k)
    ensures Stays(toks, lo + k, text, k)
  {
    hide *;
    EntryShown(toks, start, lo, hi, nl, text, parts, tail, k);
    var b, n, gap := Lex(text).tokens, Layout.LineCount(parts[k].run), parts[k].gap;
    NewLineOf(toks, start, lo, hi, nl, text, parts, tail);
    OwnPlace(toks, start, lo + k, n, k == 0);
    GapInText(nl, text, GapStart(b, k), gap, n);
    GapStartFirst(b, k);
    FormedNewlines(nl, gap, n);
    BlankLinesOf(n, toks[lo + k].blankLines);
    EntryComment(toks, lo + k, b[k]);
    if k > 0 {
      EntryShown(toks, start, lo, hi, nl, text, parts, tail, k - 1);
      LaterThanBefore(text, k);
    } else {
      FirstNotInLine(b);
    }
    OwnStays(toks, lo + k, text, k);
  }

  lemma OwnStays(toks: seq<Token>, c: nat, text: string, k: nat)
    requires c < |toks| && k < |Lex(text).tokens| && !InLine(Lex(text).tokens, k) && !InLine(toks, c)
    requires Lex(text).tokens[k].blankLines == toks[c].blankLines && StartsItsLine(text, Lex(text).tokens[k].offset)
    ensures Stays(toks, c, text, k)
  {
    hide LexFrom, InLine, StartsItsLine;
  }

  lemma GapStartFirst(b: seq<Token>, k: nat)
    requires k <= |b|
    ensures k == 0 ==> GapStart(b, k) == 0
  {
  }

  lemma NewLineOf(toks: seq<Token>, start: nat, lo: nat, hi: nat, nl: string, text: string, parts: seq<Layout.Part>,
                  tail: string)
    requires Shows(toks, start, lo, hi, nl, text, parts, tail)
    ensures (nl == "\n" || nl == "\r\n") && lo <= hi <= |toks|
  {
    hide LexFrom, ItemAt, WovenLexing.Positioned;
  }

  lemma OwnPlace(toks: seq<Token>, start: nat, c: int, n: nat, first: bool)
    requires CommentAt(toks, c) && EntryOK(toks, start, c, Place(n, first)) && !InLine(toks, c)
    ensures n == 1 + toks[c].blankLines || (n == 0 && first && toks[c].blankLines == 0)
  {
    hide InLine;
  }

  lemma BlankLinesOf(n: nat, blank: nat)
    requires n == 1 + blank || (n == 0 && blank == 0)
    ensures BlankLines(n) == blank
  {
  }

  lemma EntryComment(toks: seq<Token>, c: int, t: Token)
    requires 0 <= c < |toks| && Word(t.kind, t.text) == ItemAt(toks, c)
    ensures IsComment(t.kind) <==> CommentAt(toks, c)
  {
    if !IsComment(toks[c].kind) {
      WrittenIsReal(toks[c]);
    }
  }

  /** An entry on a later line than the one before it shares no line with a token before it. */
  lemma LaterThanBefore(text: string, k: nat)
    requires 0 < k < |Lex(text).tokens| && IsComment(Lex(text).tokens[k].kind)
    requires var b := Lex(text).tokens;
             GapStart(b, k) <= |text| && b[k].offset <= |text|
             && LineAt(text, GapStart(b, k)) < LineAt(text, b[k].offset)
    ensures !InLine(Lex(text).tokens, k)
  {
    hide LexFrom, LineAt, ColAt, LinesAscend, IsComment;
    var b := Lex(text).tokens;
    StreamIsFaithful(text);
    assert LexProps.Faithful(text, b[k - 1]) && LexProps.Faithful(text, b[k]);
    LinesGrow(text, b[k - 1].offset, GapStart(b, k));
    LexedLinesAscend(text);
    BeforeIsEarlier(b, k);
  }

  lemma BeforeIsEarlier(b: seq<Token>, k: nat)
    requires 0 < k < |b| && CommentAt(b, k) && LinesAscend(b) && b[k - 1].line < b[k].line
    ensures !InLine(b, k)
  {
    hide IsComment;
    assert PrevReal(b, k) == PrevReal(b, k - 1);
  }

  lemma FirstNotInLine(b: seq<Token>)
    requires b != [] && IsComment(b[0].kind)
    ensures !InLine(b, 0)
  {
  }

  // ----- comments on the line of a token -----

  ghost predicate NoBreak(s: string) {
    forall i :: 0 <= i < |s| ==> !IsNewline(s[i])
  }

  /** What lies on one line of a source holds no line break. */
  lemma SourceQuiet(src: string, p: nat, m: nat, c: nat)
    requires Lex(src).errs == [] && p <= m < c && CommentAt(Lex(src).tokens, c)
    requires Lex(src).tokens[p].line == Lex(src).tokens[c].line
    ensures NoBreak(Lex(src).tokens[m].text)
  {
    hide LexFrom, LineEndsAt, Terminators, ColAt, IsComment;
    var ts := Lex(src).tokens;
    StreamIsFaithful(src);
    CommentStart(src, c);
    assert LexProps.Faithful(src, ts[p]) && LexProps.Faithful(src, ts[m]) && LexProps.Faithful(src, ts[c]);
    assert ts[p].offset <= ts[m].offset && ts[m].offset + |ts[m].text| <= ts[c].offset;
    OneLineSame(src, ts[p].offset, ts[c].offset);
    forall i | 0 <= i < |ts[m].text| ensures !IsNewline(ts[m].text[i]) {
      assert ts[m].text[i] == src[ts[m].offset + i];
      NoBreakAt(src, ts[p].offset, ts[m].offset + i, ts[c].offset);
    }
  }

  lemma NoBreakAt(src: string, a: nat, x: nat, b: nat)
    requires OneLine(src, a, b) && a <= x < b < |src| && !IsNewline(src[b])
    ensures !IsNewline(src[x])
  {
    assert !LineEndsAt(src, x + 1);
    assert x + 1 < b ==> !LineEndsAt(src, x + 2);
  }

  lemma {:induction false} TrimFront(s: string)
    ensures |TrimRight(s)| <= |s| && TrimRight(s) == s[..|TrimRight(s)|]
    decreases |s|
  {
    if s != "" && (s[|s| - 1] == ' ' || s[|s| - 1] == '\t') {
      TrimFront(s[..|s| - 1]);
    }
  }

  lemma ItemQuiet(toks: seq<Token>, m: int)
    requires 0 <= m < |toks| && NoBreak(toks[m].text)
    ensures NoBreak(ItemAt(toks, m).text)
  {
    hide TrimRight, IsComment;
    TrimFront(toks[m].text);
    assert NoBreak("oneway");
  }

  /** A text without line breaks and blanks after it keep the line. */
  lemma StaysOnLine(text: string, a: nat, e: nat, b: nat)
    requires a <= e <= b <= |text| && NoBreak(text[a..e]) && forall i :: e <= i < b ==> PrintMachine.Blank(text[i])
    ensures LineAt(text, a) == LineAt(text, b)
  {
    hide Terminators;
    forall i | a < i <= b ensures !LineEndsAt(text, i) {
      assert i <= e ==> text[i - 1] == text[a..e][i - 1 - a];
    }
    OneLineSame(text, a, b);
  }

  /** In the source, p is the token before c and on its line. */
  ghost predicate OnLineOf(toks: seq<Token>, p: int, c: int) {
    && RealAt(toks, p) && p < c < |toks| && toks[p].line == toks[c].line
    && forall m :: p < m <= c ==> CommentAt(toks, m)
  }

  lemma ToLineOf(toks: seq<Token>, c: int)
    requires CommentAt(toks, c) && InLine(toks, c)
    ensures OnLineOf(toks, PrevReal(toks, c), c)
  {
    hide IsComment;
    var p := PrevReal(toks, c);
    forall m | p < m <= c ensures CommentAt(toks, m) {
      OnlyComments(toks, c, m);
    }
  }

  lemma LineOfMiddle(toks: seq<Token>, p: int, m: int, c: int)
    requires OnLineOf(toks, p, c) && p < m <= c && LinesAscend(toks)
    ensures CommentAt(toks, m) && InLine(toks, m) && OnLineOf(toks, p, m)
  {
    hide IsComment;
    PrevOf(toks, p, m);
  }

  /** The first entry shown is on no line of a token that is not. */
  lemma TokenShown(toks: seq<Token>, start: nat, lo: nat, hi: nat, nl: string, text: string, parts: seq<Layout.Part>,
                   tail: string, p: int, c: int)
    requires Shows(toks, start, lo, hi, nl, text, parts, tail) && lo <= c < hi && OnLineOf(toks, p, c)
             && LinesAscend(toks)
    ensures lo <= p
  {
    hide *;
    NewLineOf(toks, start, lo, hi, nl, text, parts, tail);
    if p < lo {
      LineOfMiddle(toks, p, lo, c);
      EntryShown(toks, start, lo, hi, nl, text, parts, tail, 0);
      NotFirst(toks, start, lo, Layout.LineCount(parts[0].run));
    }
  }

  lemma NotFirst(toks: seq<Token>, start: nat, c: int, n: nat)
    requires CommentAt(toks, c) && InLine(toks, c)
    ensures !EntryOK(toks, start, c, Place(n, true))
  {
    hide InLine;
  }

  lemma InPlace(toks: seq<Token>, start: nat, c: int, n: nat, first: bool)
    requires CommentAt(toks, c) && EntryOK(toks, start, c, Place(n, first)) && InLine(toks, c)
    ensures n == 0
  {
    hide InLine;
  }

  /** Each comment on the line of p is printed on the line of the entry before it. */
  lemma NextOnLine(src: string, start: nat, lo: nat, hi: nat, nl: string, text: string, parts: seq<Layout.Part>,
                   tail: string, p: int, m: nat, c: int)
    requires Lex(src).errs == [] && Shows(Lex(src).tokens, start, lo, hi, nl, text, parts, tail)
    requires OnLineOf(Lex(src).tokens, p, c) && lo <= p < lo + m <= c < hi
    ensures m < |Lex(text).tokens| && Lex(text).tokens[m - 1].line == Lex(text).tokens[m].line
  {
    hide *;
    var toks, b := LexTokens(src), LexTokens(text);
    LexedLinesAscend(src);
    LineOfMiddle(toks, p, lo + m, c);
    EntryShown(toks, start, lo, hi, nl, text, parts, tail, m - 1);
    EntryShown(toks, start, lo, hi, nl, text, parts, tail, m);
    NewLineOf(toks, start, lo, hi, nl, text, parts, tail);
    InPlace(toks, start, lo + m, Layout.LineCount(parts[m].run), m == 0);
    GapInText(nl, text, GapStart(b, m), parts[m].gap, 0);
    LineOfIs(toks, p, c);
    SourceQuiet(src, p, lo + m - 1, c);
    ItemQuiet(toks, lo + m - 1);
    KeepsLine(text, m);
  }

  lemma LineOfIs(toks: seq<Token>, p: int, c: int)
    requires OnLineOf(toks, p, c)
    ensures 0 <= p < c && CommentAt(toks, c) && toks[p].line == toks[c].line
  {
  }

  lemma KeepsLine(text: string, m: nat)
    requires 0 < m < |Lex(text).tokens| && NoBreak(Lex(text).tokens[m - 1].text)
    requires var b := Lex(text).tokens;
             && GapStart(b, m) <= b[m].offset <= |text|
             && forall i :: GapStart(b, m) <= i < b[m].offset ==> PrintMachine.Blank(text[i])
    ensures Lex(text).tokens[m - 1].line == Lex(text).tokens[m].line
  {
    hide LexFrom, LineAt, ColAt, NoBreak;
    var b := Lex(text).tokens;
    StreamIsFaithful(text);
    assert LexProps.Faithful(text, b[m - 1]) && LexProps.Faithful(text, b[m]);
    StaysOnLine(text, b[m - 1].offset, GapStart(b, m), b[m].offset);
  }

  lemma {:induction false} AllOnLine(src: string, start: nat, lo: nat, hi: nat, nl: string, text: string,
                                     parts: seq<Layout.Part>, tail: string, p: int, m: nat, c: int)
    requires Lex(src).errs == [] && Shows(Lex(src).tokens, start, lo, hi, nl, text, parts, tail)
    requires OnLineOf(Lex(src).tokens, p, c) && lo <= p <= lo + m <= c < hi
    ensures m < |Lex(text).tokens| && p - lo < |Lex(text).tokens|
    ensures Lex(text).tokens[p - lo].line == Lex(text).tokens[m].line
    decreases m
  {
    hide *;
    EntryShown(LexTokens(src), start, lo, hi, nl, text, parts, tail, m);
    EntryShown(LexTokens(src), start, lo, hi, nl, text, parts, tail, p - lo);
    if p < lo + m {
      NextOnLine(src, start, lo, hi, nl, text, parts, tail, p, m, c);
      AllOnLine(src, start, lo, hi, nl, text, parts, tail, p, m - 1, c);
    }
  }

  lemma InLineStays(src: string, start: nat, lo: nat, hi: nat, nl: string, text: string, parts: seq<Layout.Part>,
                    tail: string, k: nat)
    requires Lex(src).errs == [] && Shows(Lex(src).tokens, start, lo, hi, nl, text, parts, tail) && k < hi - lo
    requires lo + k < |Lex(src).tokens| && CommentAt(Lex(src).tokens, lo + k) && InLine(Lex(src).tokens, lo + k)
    ensures Stays(Lex(src).tokens, lo + k, text, k)
  {
    hide *;
    var toks, b, c := LexTokens(src), LexTokens(text), lo + k;
    var p := PrevReal(toks, c);
    LexedLinesAscend(src);
    ToLineOf(toks, c);
    LineOfIs(toks, p, c);
    TokenShown(toks, start, lo, hi, nl, text, parts, tail, p, c);
    AllOnLine(src, start, lo, hi, nl, text, parts, tail, p, k, c);
    PrevShown(toks, start, lo, hi, nl, text, parts, tail, p, k);
    BothInLine(toks, c, text, k, p - lo);
  }

  /** The token before a comment is shown as the token before it. */
  lemma PrevShown(toks: seq<Token>, start: nat, lo: nat, hi: nat, nl: string, text: string, parts: seq<Layout.Part>,
                  tail: string, p: int, k: nat)
    requires Shows(toks, start, lo, hi, nl, text, parts, tail) && k < hi - lo && lo <= p < lo + k
    requires OnLineOf(toks, p, lo + k)
    ensures k < |Lex(text).tokens| && PrevReal(Lex(text).tokens, k) == p - lo
  {
    hide Shows, LexFrom, IsComment, ItemAt, EntryOK, Newlines, BlankLines, Layout.FormedBy, Layout.LineCount, PrevReal;
    var b := Lex(text).tokens;
    EntryShown(toks, start, lo, hi, nl, text, parts, tail, k);
    EntryShown(toks, start, lo, hi, nl, text, parts, tail, p - lo);
    EntryComment(toks, p, b[p - lo]);
    forall m | p - lo < m <= k ensures CommentAt(b, m) {
      EntryShown(toks, start, lo, hi, nl, text, parts, tail, m);
      EntryComment(toks, lo + m, b[m]);
    }
    PrevOf(b, p - lo, k);
  }

  lemma BothInLine(toks: seq<Token>, c: nat, text: string, k: nat, q: nat)
    requires c < |toks| && InLine(toks, c) && k < |Lex(text).tokens| && q < |Lex(text).tokens|
    requires PrevReal(Lex(text).tokens, k) == q && Lex(text).tokens[q].line == Lex(text).tokens[k].line
    ensures Stays(toks, c, text, k)
  {
    hide LexFrom, PrevReal, IsComment;
  }

  // ----- tokens -----

  /** A token goes on on the line of the entry before it, unless that is a comment that ends its line: then it starts
      a line. Only the first token keeps blank lines, behind the comments before it. */
  ghost predicate GoesOn(toks: seq<Token>, start: nat, c: int, text: string, b: seq<Token>, k: nat) {
    && 0 <= c < |toks| && k < |b| && b[k].offset <= |text| && GapStart(b, k) <= |text|
    && b[k].blankLines == (if c == start && k > 0 then toks[c].blankLines else 0)
    && if k > 0 && (c == start || EndsItsLine(toks, c - 1)) then StartsItsLine(text, b[k].offset)
       else LineAt(text, GapStart(b, k)) == LineAt(text, b[k].offset)
  }

  lemma TokenPlace(toks: seq<Token>, start: nat, c: nat, k: nat, n: nat)
    requires RealAt(toks, c) && EntryOK(toks, start, c, Place(n, k == 0))
    ensures n == if k > 0 && c == start then 1 + toks[c].blankLines
                 else if k > 0 && EndsItsLine(toks, c - 1) then 1 else 0
  {
    hide EndsItsLine;
  }

  lemma TokenGoesOn(toks: seq<Token>, start: nat, lo: nat, hi: nat, nl: string, text: string, parts: seq<Layout.Part>,
                    tail: string, k: nat)
    requires Shows(toks, start, lo, hi, nl, text, parts, tail) && k < hi - lo && RealAt(toks, lo + k)
    ensures GoesOn(toks, start, lo + k, text, Lex(text).tokens, k)
  {
    hide *;
    EntryShown(toks, start, lo, hi, nl, text, parts, tail, k);
    var b, n, gap := Lex(text).tokens, Layout.LineCount(parts[k].run), parts[k].gap;
    NewLineOf(toks, start, lo, hi, nl, text, parts, tail);
    TokenPlace(toks, start, lo + k, k, n);
    GapInText(nl, text, GapStart(b, k), gap, n);
    FormedNewlines(nl, gap, n);
    if n == 0 {
      NoBreakInNothing(text, GapStart(b, k));
      StaysOnLine(text, GapStart(b, k), GapStart(b, k), b[k].offset);
    }
    ToGoesOn(toks, start, lo + k, text, b, k, n);
  }

  lemma NoBreakInNothing(text: string, a: nat)
    requires a <= |text|
    ensures NoBreak(text[a..a])
  {
  }

  lemma ToGoesOn(toks: seq<Token>, start: nat, c: nat, text: string, b: seq<Token>, k: nat, n: nat)
    requires c < |toks| && k < |b|
    requires && GapStart(b, k) <= b[k].offset <= |text| && b[k].blankLines == BlankLines(n)
             && (n == 0 ==> LineAt(text, GapStart(b, k)) == LineAt(text, b[k].offset))
             && (n > 0 ==> StartsItsLine(text, b[k].offset))
    requires n == if k > 0 && c == start then 1 + toks[c].blankLines
                  else if k > 0 && EndsItsLine(toks, c - 1) then 1 else 0
    ensures GoesOn(toks, start, c, text, b, k)
  {
    hide EndsItsLine, LineAt, StartsItsLine, GapStart;
  }

  // ----- all of what is emitted -----

  lemma {:induction false} SameLineRange(toks: seq<Token>, i: int, c: int)
    requires 0 <= c <= |toks|
    ensures var run := SameLineRun(toks, i, c); c + |run| <= |toks| && run == Range(c, c + |run|)
    decreases |toks| - c
  {
    hide IsComment, Range;
    RangeFirst(c, c);
    if c < |toks| && CommentAt(toks, c) && SameLine(toks, c, i) {
      SameLineRange(toks, i, c + 1);
      RangeFirst(c, c + 1 + |SameLineRun(toks, i, c + 1)|);
    }
  }

  lemma LeadingRange(toks: seq<Token>, start: nat)
    requires LinesAscend(toks) && RealAt(toks, start)
    ensures |Leading(toks, start)| <= start && Leading(toks, start) == Range(start - |Leading(toks, start)|, start)
  {
    hide IsComment, LinesAscend, Leading, Trailing, Range, PrevReal;
    var prev := PrevReal(toks, start - 1);
    AllBetween(toks, start - 1);
    if prev >= 0 {
      PrevIsReal(toks, start - 1);
      CommentsSplit(toks, prev, start);
      FormattedDocument.RangeFront(prev + 1, start, [], Range(prev + 1, start));
      RangeBack(prev + 1, start, Trailing(toks, prev), Leading(toks, start));
    } else {
      CommentsFirst(toks, start);
      RangeLen(0, start);
    }
  }

  lemma PrevIsReal(toks: seq<Token>, i: int)
    requires i < |toks| && PrevReal(toks, i) >= 0
    ensures RealAt(toks, PrevReal(toks, i))
  {
  }

  lemma RangeLen(a: int, b: int)
    requires a <= b
    ensures |Range(a, b)| == b - a
  {
  }

  lemma RangeBack(a: int, b: int, s: seq<int>, t: seq<int>)
    requires s + t == Range(a, b) && a <= b
    ensures t == Range(b - |t|, b) && b - |t| >= a
  {
    assert |s + t| == b - a;
    forall i | 0 <= i < |t| ensures t[i] == b - |t| + i {
      assert (s + t)[|s| + i] == t[i];
    }
  }

  /** What is rendered is a stretch of the stream. */
  lemma SourcesRange(src: string, start: nat, end: nat, o: Comments.Options) returns (lo: nat, hi: nat)
    requires start <= end < |Lex(src).tokens| && RealAt(Lex(src).tokens, start) && o.skipText == []
    ensures lo <= hi <= |Lex(src).tokens| && Sources(Emitted(Lex(src).tokens, start, end, o)) == Range(lo, hi)
  {
    hide *;
    var toks := LexTokens(src);
    LexedLinesAscend(src);
    EmittedSources(toks, start, end, o);
    var last := PrevReal(toks, end);
    FormattedDocument.NothingDropped(toks, start, last + 1, o);
    LeadingRange(toks, start);
    TrailingRange(toks, last);
    lo := if o.leading then start - |Leading(toks, start)| else start;
    hi := if o.trailing then last + 1 + |Trailing(toks, last)| else last + 1;
    var mid := Range(start, last + 1);
    Nothing(start);
    Nothing(last + 1);
    FormattedDocument.RangesJoin(lo, start, last + 1);
    FormattedDocument.RangesJoin(lo, last + 1, hi);
    assert (if o.leading then Leading(toks, start) else []) == Range(lo, start);
    assert (if o.trailing then Trailing(toks, last) else []) == Range(last + 1, hi);
  }

  lemma Nothing(a: int)
    ensures Range(a, a) == []
  {
  }

  lemma TrailingRange(toks: seq<Token>, last: nat)
    requires last < |toks|
    ensures var t := Trailing(toks, last); last + 1 + |t| <= |toks| && t == Range(last + 1, last + 1 + |t|)
  {
    hide SameLineRun, Range;
    SameLineRange(toks, last, last + 1);
  }

  /** A layout of well-placed pieces, lexed again. */
  lemma LaidShows(toks: seq<Token>, start: nat, ps: seq<Piece>, lo: nat, hi: nat, nl: string, text: string)
    returns (parts: seq<Layout.Part>, tail: string)
    requires AllTrue(toks, ps) && AllItems(toks, ps) && Apart(toks, ps, None)
             && WellPlaced(toks, start, ps, Place(0, true))
    requires lo <= hi <= |toks| && Sources(ps) == Range(lo, hi) && (nl == "\n" || nl == "\r\n")
    requires Layout.Lays(Layout.Setting(nl, true), PieceLeaves(ps), text)
    ensures Shows(toks, start, lo, hi, nl, text, parts, tail)
  {
    hide AllTrue, AllItems, Apart, WellPlaced, Sources, LexFrom, WordsOf, ItemAt, Layout.PartOK, Layout.TextOf,
         Layout.LeavesOf, Layout.GapOf, Range, WovenLexing.Positioned, WovenLexing.Arranged, Spread, Layout.FormedBy,
         Layout.LineCount, PieceLeaves, ItemsAt;
    var g := Layout.Setting(nl, true);
    var w :| Layout.Woven(g, w) && Layout.WeaveLeaves(w) == PieceLeaves(ps) && Layout.WeaveText(w) == text;
    parts, tail := w.parts, w.gap;
    WeaveArranged(g, toks, ps, w.parts, w.run, w.gap, None);
    WeaveSpread(g, toks, start, ps, w.parts, w.run, w.gap, true);
    assert text[0..] == text;
    WovenLexing.ArrangedLexes(text, 0, w.parts, w.gap, ItemsAt(toks, Sources(ps)));
    forall i | 0 <= i < |parts|
      ensures |parts| == |Range(lo, hi)| && parts[i].ink == ItemAt(toks, Range(lo, hi)[i]).text
      ensures Layout.FormedBy(nl, parts[i].gap, Layout.LineCount(parts[i].run))
    {
      PartFormed(g, parts[i]);
      InkAt(toks, parts, tail, Range(lo, hi), i);
    }
  }

  lemma PartFormed(g: Layout.Setting, p: Layout.Part)
    requires Layout.PartOK(g, p) && g.broken
    ensures Layout.FormedBy(g.newLine, p.gap, Layout.LineCount(p.run))
  {
    hide Layout.FormedBy, Layout.LineCount;
  }

  lemma InkAt(toks: seq<Token>, parts: seq<Layout.Part>, tail: string, sources: seq<int>, i: nat)
    requires WovenLexing.Arranged(parts, tail, ItemsAt(toks, sources)) && i < |parts|
    ensures |parts| == |sources| && parts[i].ink == ItemAt(toks, sources[i]).text
  {
    hide ItemAt, WovenLexing.IsItem, WovenLexing.Parted;
  }

  lemma SourceLines(src: string)
    requires Lex(src).errs == []
    ensures LinesEnd(LexTokens(src)) && LinesAscend(LexTokens(src))
  {
    hide LexFrom, LinesEnd, LinesAscend;
    LexedLinesEnd(src);
    LexedLinesAscend(src);
  }

  /** What emitTokens writes for any range of an error-free source, in a document in which groups with lines are broken,
      printed at any width and lexed again: every comment is on the line of the token before it if and only if it was
      in the source. Otherwise it starts its line and has as many blank lines before it as in the source. A token
      starts a line only behind a comment that ends one, and the first token keeps its blank lines there. */
  lemma CommentsStay(src: string, start: nat, end: nat, o: Comments.Options, d: Doc, po: PrintMachine.Options,
                     brk: set<nat>)
    requires Lex(src).errs == [] && start <= end < |Lex(src).tokens| - 1 && RealAt(Lex(src).tokens, start) && Plain(o)
    requires Page.Straight(d) && Layout.Leaves(d) == PieceLeaves(Emitted(Lex(src).tokens, start, end, o))
    requires Page.LineOptions(po) && Layout.LinesBreak(d, brk)
    ensures var r, s := PrintMachine.Run(po, brk, PrintMachine.Start(d)),
            Sources(Emitted(Lex(src).tokens, start, end, o));
            && r.Ok?
            && (forall k :: 0 <= k < |s| && CommentAt(Lex(src).tokens, s[k]) ==>
                  Stays(Lex(src).tokens, s[k], r.text, k))
            && forall k :: 0 <= k < |s| && RealAt(Lex(src).tokens, s[k]) ==>
                 GoesOn(Lex(src).tokens, start, s[k], r.text, Lex(r.text).tokens, k)
  {
    hide *;
    var toks := LexTokens(src);
    var ps := Emitted(toks, start, end, o);
    Emission.OnlyEofLast(src);
    SourceLines(src);
    NoSkips(o);
    EmittedApart(toks, start, end, o);
    EmittedSources(toks, start, end, o);
    EmittedValid(src, ps);
    EmittedPlaced(toks, start, end, o);
    var lo, hi := SourcesRange(src, start, end, o);
    Layout.PrintLays(po, brk, d, true);
    var text := PrintMachine.Run(po, brk, PrintMachine.Start(d)).text;
    LineEnds(po);
    var b := LexTokens(text);
    var parts, tail := LaidShows(toks, start, ps, lo, hi, po.newLine, text);
    forall k | 0 <= k < |Sources(ps)| && CommentAt(toks, Sources(ps)[k])
      ensures Sources(ps)[k] < |toks| && Stays(toks, Sources(ps)[k], text, k)
    {
      InStreamIs(toks, Sources(ps)[k]);
      RangeAt(lo, hi, k);
      if InLine(toks, lo + k) {
        InLineStays(src, start, lo, hi, po.newLine, text, parts, tail, k);
      } else {
        OwnLineStays(toks, start, lo, hi, po.newLine, text, parts, tail, k);
      }
    }
    forall k | 0 <= k < |Sources(ps)|
      && RealAt(toks, Sources(ps)[k]) ensures GoesOn(toks, start, Sources(ps)[k], text, b, k) {
      RangeAt(lo, hi, k);
      TokenGoesOn(toks, start, lo, hi, po.newLine, text, parts, tail, k);
    }
  }

  lemma InStreamIs(toks: seq<Token>, c: int)
    requires CommentAt(toks, c)
    ensures c < |toks|
  {
  }

  lemma NoSkips(o: Comments.Options)
    requires Plain(o)
    ensures o.skipText == []
  {
  }

  lemma LineEnds(o: PrintMachine.Options)
    requires Page.LineOptions(o)
    ensures o.newLine == "\n" || o.newLine == "\r\n"
  {
  }

  lemma RangeAt(lo: int, hi: int, k: nat)
    requires lo <= hi && k < |Range(lo, hi)|
    ensures Range(lo, hi)[k] == lo + k && k < hi - lo
  {
  }

  // ----- break propagation -----

  /** Every group that holds a line holds a BreakParent, and no line waits for a comment. */
  predicate Accompanied(d: Doc)
    decreases d, 1
  {
    match d
    case LineDoc(line) => !line.afterComment
    case Group(_, _, doc, _) => (Breaks.HasBreak(doc, {}) || Layout.NoLines(Layout.Leaves(doc))) && Accompanied(doc)
    case Concat(parts) => AllAccompanied(parts, d)
    case Indent(doc) => Accompanied(doc)
    case Align(_, doc) => Accompanied(doc)
    case _ => true
  }

  predicate AllAccompanied(ds: seq<Doc>, parent: Doc)
    requires forall i :: 0 <= i < |ds| ==> ds[i] < parent
    decreases parent, 0, |ds|
  {
    ds == [] || (Accompanied(ds[0]) && AllAccompanied(ds[1..], parent))
  }

  lemma {:induction false} BreakKept(d: Doc, brk: set<nat>)
    requires Breaks.HasBreak(d, {})
    ensures Breaks.HasBreak(d, brk)
    decreases d, 1
  {
    if !d.BreakParent? {
      AnyBreakKept(Children(d), brk, d);
    }
  }

  lemma {:induction false} AnyBreakKept(ds: seq<Doc>, brk: set<nat>, parent: Doc)
    requires forall i :: 0 <= i < |ds| ==> ds[i] < parent
    requires Breaks.AnyBreak(ds, {}, parent)
    ensures Breaks.AnyBreak(ds, brk, parent)
    decreases parent, 0, |ds|
  {
    if Breaks.HasBreak(ds[0], {}) {
      BreakKept(ds[0], brk);
    } else {
      AnyBreakKept(ds[1..], brk, parent);
    }
  }

  lemma {:induction false} MarkedLinesBreak(d: Doc, brk: set<nat>)
    requires Page.Straight(d) && Accompanied(d) && PrintWidth.Marked(d, brk)
    ensures Layout.LinesBreak(d, brk)
    decreases d, 1
  {
    hide Breaks.HasBreak, Layout.Leaves, Layout.NoLines;
    match d
    case Concat(parts) => AllMarkedLinesBreak(parts, d, brk);
    case Indent(doc) => OnlyChild(d, doc, brk); MarkedLinesBreak(doc, brk);
    case Align(_, doc) => OnlyChild(d, doc, brk); MarkedLinesBreak(doc, brk);
    case Group(node, _, doc, _) =>
      OnlyChild(d, doc, brk);
      MarkedLinesBreak(doc, brk);
      if Breaks.HasBreak(doc, {}) {
        BreakKept(doc, brk);
      }
    case _ =>
  }

  lemma OnlyChild(d: Doc, doc: Doc, brk: set<nat>)
    requires Children(d) == [doc] && PrintWidth.Marked(d, brk)
    ensures PrintWidth.Marked(doc, brk)
  {
    PrintWidth.MarkedMember(Children(d), brk, d, 0);
  }

  lemma {:induction false} AllMarkedLinesBreak(ds: seq<Doc>, parent: Doc, brk: set<nat>)
    requires forall i :: 0 <= i < |ds| ==> ds[i] < parent
    requires Page.AllStraight(ds, parent) && AllAccompanied(ds, parent) && PrintWidth.AllMarked(ds, brk, parent)
    ensures Layout.AllLinesBreak(ds, parent, brk)
    decreases parent, 0, |ds|
  {
    if ds != [] {
      MarkedLinesBreak(ds[0], brk);
      AllMarkedLinesBreak(ds[1..], parent, brk);
    }
  }

  /** After break propagation the lines of a document break whose groups with lines hold a BreakParent: hard lines and
      the lines of comments bring one along. */
  lemma PropagatedLinesBreak(d: Doc, broken: set<nat>)
    requires Page.Straight(d) && Accompanied(d) && Breaks.Once(Breaks.Groups(d))
    ensures Layout.LinesBreak(d, Breaks.Propagate(d, broken))
  {
    hide Page.Straight, Accompanied, Layout.LinesBreak, PrintWidth.Marked, Breaks.Once, Breaks.Groups, Breaks.Propagate;
    PrintWidth.AfterPropagation(d, broken);
    MarkedLinesBreak(d, Breaks.Propagate(d, broken));
  }

  /** The document of emitTokens itself. */
  lemma PiecesBreak(ps: seq<Piece>, brk: set<nat>)
    ensures Layout.LinesBreak(PiecesDoc(ps), brk)
  {
    hide PieceDoc;
    EachBreaks(PiecesDoc(ps).parts, ps, PiecesDoc(ps), brk);
  }

  lemma {:induction false} EachBreaks(ds: seq<Doc>, ps: seq<Piece>, parent: Doc, brk: set<nat>)
    requires |ds| == |ps| && forall i :: 0 <= i < |ds| ==> ds[i] < parent && ds[i] == PieceDoc(ps[i])
    ensures Layout.AllLinesBreak(ds, parent, brk)
    decreases |ds|
  {
    hide PieceDoc;
    if ds != [] {
      PieceBreaks(ps[0], brk);
      EachBreaks(ds[1..], ps[1..], parent, brk);
    }
  }

  lemma PieceBreaks(p: Piece, brk: set<nat>)
    ensures Layout.LinesBreak(PieceDoc(p), brk)
  {
    var d := PieceDoc(p);
    if d.Concat? {
      assert d.parts[1..] == [BreakParent] && d.parts[1..][1..] == [];
      assert Layout.AllLinesBreak(d.parts[1..][1..], d, brk) && Layout.AllLinesBreak(d.parts[1..], d, brk);
    }
  }
}
