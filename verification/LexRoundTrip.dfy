/** Joining tokens with rawTokenGap and lexing the text gives the tokens back (formatter/format.go). */
module LexRoundTrip {
  import opened Utf8
  import opened Lexing
  import opened LexProps

  // ----- the gap -----

  predicate Closer(k: Kind) {
    k == RBrace || k == RParen || k == RBracket || k == Gt || k == Comma || k == Semicolon || k == Colon
  }

  predicate Opener(k: Kind) {
    k == LBrace || k == LParen || k == LBracket || k == Lt || k == Amp || k == At
  }

  predicate Container(k: Kind) {
    k == Map || k == List || k == Set
  }

  /** The canonical text between two adjacent tokens. */
  function RawTokenGap(prev: Kind, cur: Kind): string {
    if Closer(cur) then ""
    else if Opener(prev) then ""
    else if cur == Lt && Container(prev) then ""
    else " "
  }

  /** A real token's kind and text. */
  datatype Word = Word(kind: Kind, text: string)

  function WordsOf(ts: seq<Token>): seq<Word> {
    seq(|ts|, i requires 0 <= i < |ts| => Word(ts[i].kind, ts[i].text))
  }

  function Joined(ws: seq<Word>): string {
    if ws == [] then ""
    else if |ws| == 1 then ws[0].text
    else ws[0].text + RawTokenGap(ws[0].kind, ws[1].kind) + Joined(ws[1..])
  }

  // ----- a token's text in another context -----

  /** w is what the lexer takes, without error, from some source that starts with its text. */
  ghost predicate Lexeme(w: Word, after: string) {
    w.text != "" && ActionAt(w.text + after) == Take(w.kind, |w.text|, [])
  }

  /** A character that no word or number continues with. */
  predicate Stops(s: string) {
    s == "" || (!IsIdentPart(s[0]) && s[0] != '.' && !IsSign(s[0]))
  }

  lemma {:induction false} IdentStops(t: string, r: string, r': string)
    requires IdentRest(t + r) == |t| && Stops(r')
    ensures IdentRest(t + r') == |t|
    decreases |t|
  {
    if t == "" {
      assert t + r' == r';
    } else {
      assert (t + r)[0] == t[0] == (t + r')[0];
      if IsIdentPart(t[0]) {
        assert (t + r)[1..] == t[1..] + r && (t + r')[1..] == t[1..] + r';
        IdentStops(t[1..], r, r');
      } else {
        assert |t| >= 2 && (t + r)[1] == t[1] == (t + r')[1];
        assert (t + r)[2..] == t[2..] + r && (t + r')[2..] == t[2..] + r';
        IdentStops(t[2..], r, r');
      }
    }
  }

  lemma {:induction false} DigitRunIn(t: string, r: string, r': string)
    requires Stops(r')
    ensures DigitRun(t + r) < |t| ==> DigitRun(t + r') == DigitRun(t + r)
    ensures DigitRun(t + r) >= |t| ==> DigitRun(t + r') == |t|
    decreases |t|
  {
    if t == "" {
      assert t + r' == r';
    } else {
      assert (t + r)[0] == t[0] == (t + r')[0];
      assert (t + r)[1..] == t[1..] + r && (t + r')[1..] == t[1..] + r';
      DigitRunIn(t[1..], r, r');
    }
  }

  lemma {:induction false} HexRunIn(t: string, r: string, r': string)
    requires Stops(r')
    ensures HexRun(t + r) < |t| ==> HexRun(t + r') == HexRun(t + r)
    ensures HexRun(t + r) >= |t| ==> HexRun(t + r') == |t|
    decreases |t|
  {
    if t == "" {
      assert t + r' == r';
    } else {
      assert (t + r)[0] == t[0] == (t + r')[0];
      assert (t + r)[1..] == t[1..] + r && (t + r')[1..] == t[1..] + r';
      HexRunIn(t[1..], r, r');
    }
  }

  lemma Drop(t: string, r: string, i: nat)
    requires i <= |t|
    ensures (t + r)[i..] == t[i..] + r
  {
  }

  lemma SignIn(t: string, r: string, r': string)
    requires t != ""
    ensures SignLen(t + r) == SignLen(t + r') <= |t|
  {
  }

  lemma HexIn(t: string, r: string, r': string)
    requires t != "" && Stops(r') && HexLen(t + r) <= |t|
    ensures HexLen(t + r') == HexLen(t + r)
  {
    hide HexRun;
    SignIn(t, r, r');
    var i := SignLen(t + r);
    if i + 2 <= |t| {
      Drop(t, r, i + 2);
      Drop(t, r', i + 2);
      HexRunIn(t[i + 2..], r, r');
    } else {
      NoHexPast(t, r, i);
      NoHexPast(t, r', i);
    }
  }

  /** Without "0x" inside t there is no hex constant ending inside t, or going on into r'. */
  lemma NoHexPast(t: string, r: string, i: nat)
    requires t != "" && i == SignLen(t + r) && i + 2 > |t| && (HexLen(t + r) <= |t| || Stops(r))
    ensures HexLen(t + r) == 0
  {
  }

  lemma IntIn(t: string, r: string, r': string)
    requires t != "" && Stops(r') && IntLen(t + r) <= |t|
    ensures IntLen(t + r') == IntLen(t + r)
  {
    hide DigitRun;
    SignIn(t, r, r');
    var i := SignLen(t + r);
    Drop(t, r, i);
    Drop(t, r', i);
    DigitRunIn(t[i..], r, r');
  }

  lemma FractionIn(t: string, r: string, r': string)
    requires Stops(r')
    ensures Fraction(t + r').Good? ==> Fraction(t + r').len <= |t|
    ensures Fraction(t + r).Good? && Fraction(t + r).len <= |t| && (t == "" ==> Fraction(t + r).len == 0) ==>
              Fraction(t + r') == Fraction(t + r)
  {
    hide DigitRun;
    if t == "" {
      assert t + r' == r';
    } else {
      Drop(t, r, 1);
      Drop(t, r', 1);
      DigitRunIn(t[1..], r, r');
      assert (t + r)[0] == t[0] == (t + r')[0];
    }
  }

  lemma ExponentStep(s: string)
    requires s != "" && (s[0] == 'e' || s[0] == 'E')
    ensures var j := 1 + SignLen(s[1..]);
            Exponent(s) == if DigitRun(s[j..]) == 0 then Bad else Good(j + DigitRun(s[j..]))
  {
    hide DigitRun;
  }

  lemma NoExponent(s: string)
    requires s == "" || (s[0] != 'e' && s[0] != 'E')
    ensures Exponent(s) == Good(0)
  {
  }

  lemma ExponentIn(t: string, r: string, r': string)
    requires Stops(r')
    ensures Exponent(t + r').Good? ==> Exponent(t + r').len <= |t|
    ensures Exponent(t + r).Good? && Exponent(t + r).len <= |t| && (t == "" ==> Exponent(t + r).len == 0) ==>
              Exponent(t + r') == Exponent(t + r)
  {
    hide DigitRun, Exponent, SignLen;
    if t == "" {
      assert t + r' == r';
      NoExponent(r');
    } else if |t| == 1 {
      ShortExponent(t, r');
      ShortExponent(t, r);
    } else if t[0] != 'e' && t[0] != 'E' {
      NoExponent(t + r);
      NoExponent(t + r');
    } else {
      ExponentStep(t + r);
      ExponentStep(t + r');
      Drop(t, r, 1);
      Drop(t, r', 1);
      SignIn(t[1..], r, r');
      var j := 1 + SignLen((t + r)[1..]);
      Drop(t, r, j);
      Drop(t, r', j);
      DigitRunIn(t[j..], r, r');
    }
  }

  /** An exponent is longer than its "e". */
  lemma ShortExponent(t: string, r: string)
    requires |t| == 1
    ensures var p := Exponent(t + r);
            if t[0] == 'e' || t[0] == 'E' then (p.Good? ==> p.len > 1) && (Stops(r) ==> p.Bad?) else p == Good(0)
  {
    Drop(t, r, 1);
    assert t[1..] + r == r;
  }

  lemma DoubleBound(t: string, r': string)
    requires t != "" && Stops(r')
    ensures DoubleLen(t + r') <= |t|
  {
    hide DigitRun, Fraction, Exponent, DoubleLen;
    var s' := t + r';
    SignIn(t, r', r');
    var i := SignLen(s');
    Drop(t, r', i);
    DigitRunIn(t[i..], r', r');
    var j := i + DigitRun(s'[i..]);
    Drop(t, r', j);
    FractionIn(t[j..], r', r');
    if Fraction(s'[j..]).Good? {
      var k := j + Fraction(s'[j..]).len;
      Drop(t, r', k);
      ExponentIn(t[k..], r', r');
    }
    DoubleWithin(s', |t|);
  }

  /** A double whose parts lie in the first n characters does too. */
  lemma DoubleWithin(s: string, n: nat)
    requires var i := SignLen(s);
             var j := i + DigitRun(s[i..]);
             Fraction(s[j..]).Good? ==>
               var k := j + Fraction(s[j..]).len;
               Exponent(s[k..]).Good? ==> k + Exponent(s[k..]).len <= n
    ensures DoubleLen(s) <= n
  {
    hide DigitRun, Fraction, Exponent;
  }

  lemma DoubleSame(t: string, r: string, r': string)
    requires t != "" && Stops(r') && DoubleLen(t + r) == |t|
    ensures DoubleLen(t + r') == |t|
  {
    hide DigitRun, Fraction, Exponent;
    var s, s' := t + r, t + r';
    SignIn(t, r, r');
    DoubleParts(s, |t|);
    var i := SignLen(s);
    Drop(t, r, i);
    Drop(t, r', i);
    DigitRunIn(t[i..], r, r');
    var j := i + DigitRun(s[i..]);
    Drop(t, r, j);
    Drop(t, r', j);
    FractionIn(t[j..], r, r');
    var k := j + Fraction(s[j..]).len;
    Drop(t, r, k);
    Drop(t, r', k);
    ExponentIn(t[k..], r, r');
  }

  /** The parts of a double lie inside it. */
  lemma DoubleParts(s: string, n: nat)
    requires DoubleLen(s) == n > 0
    ensures var i := SignLen(s);
            var j := i + DigitRun(s[i..]);
            && j <= n && Fraction(s[j..]).Good?
            && var k := j + Fraction(s[j..]).len;
               k <= n && Exponent(s[k..]) == Good(n - k) && (DigitRun(s[i..]) > 0 || Fraction(s[j..]).len > 0)
  {
    hide DigitRun, Fraction, Exponent;
  }

  lemma NumberIn(w: Word, r: string, r': string)
    requires w.text != "" && Stops(r') && NumberAt(w.text + r) == Number(|w.text|, w.kind)
    ensures NumberAt(w.text + r') == Number(|w.text|, w.kind)
  {
    hide HexLen, IntLen, DoubleLen;
    HexIn(w.text, r, r');
    IntIn(w.text, r, r');
    DoubleBound(w.text, r');
    if DoubleLen(w.text + r) == |w.text| {
      DoubleSame(w.text, r, r');
    }
  }

  // ----- strings -----

  /** What follows an ASCII character does not change how the runes before it decode. */
  lemma RuneIn(t: string, r: string, r': string)
    requires t != "" && t[|t| - 1] as int < 0x80
    ensures RuneSize(t + r) == RuneSize(t + r') <= |t|
  {
  }

  lemma {:induction false} QuoteLast(s: string, i: nat, quote: char)
    requires 1 <= i <= |s| && StringRest(s, i, quote).flaws == []
    ensures i < StringRest(s, i, quote).len && s[StringRest(s, i, quote).len - 1] == quote
    decreases |s| - i
  {
    hide RuneSize;
    if i < |s| && s[i] != quote && !IsNewline(s[i]) {
      if s[i] == '\\' {
        if i + 1 < |s| && IsEscape(s[i + 1]) {
          QuoteLast(s, i + 2, quote);
        }
      } else {
        QuoteLast(s, i + RuneSize(s[i..]), quote);
      }
    }
  }

  /** How a flawless literal proceeds. */
  lemma StringStep(s: string, i: nat, quote: char)
    requires 1 <= i < |s|
    ensures s[i] == quote ==> StringRest(s, i, quote) == Literal(i + 1, [])
    ensures s[i] != quote && StringRest(s, i, quote).flaws == [] ==>
            !IsNewline(s[i]) && (s[i] == '\\' ==> i + 1 < |s| && IsEscape(s[i + 1]))
    ensures s[i] != quote && s[i] == '\\' && i + 1 < |s| && IsEscape(s[i + 1]) ==>
            StringRest(s, i, quote) == StringRest(s, i + 2, quote)
    ensures s[i] != quote && s[i] != '\\' && !IsNewline(s[i]) ==>
            StringRest(s, i, quote) == StringRest(s, i + RuneSize(s[i..]), quote)
  {
    hide RuneSize;
  }

  lemma {:induction false} StringIn(t: string, r: string, r': string, i: nat, quote: char)
    requires 1 <= i < |t| && t[|t| - 1] as int < 0x80 && StringRest(t + r, i, quote) == Literal(|t|, [])
    ensures StringRest(t + r', i, quote) == Literal(|t|, [])
    decreases |t| - i
  {
    hide RuneSize, StringRest;
    var s, s' := t + r, t + r';
    assert s[i] == t[i] == s'[i];
    StringStep(s, i, quote);
    StringStep(s', i, quote);
    if s[i] != quote {
      if s[i] == '\\' {
        QuoteLast(s, i + 2, quote);
        assert s[i + 1] == t[i + 1] == s'[i + 1];
        StringIn(t, r, r', i + 2, quote);
      } else {
        Drop(t, r, i);
        Drop(t, r', i);
        RuneIn(t[i..], r, r');
        QuoteLast(s, i + RuneSize(s[i..]), quote);
        StringIn(t, r, r', i + RuneSize(s[i..]), quote);
      }
    }
  }

  // ----- tokens -----

  predicate Symbolic(k: Kind) {
    Closer(k) || Opener(k) || k == Equal || k == Star
  }

  /** Kinds whose text ends by itself. */
  predicate SelfEnding(k: Kind) {
    Symbolic(k) || k == StringLiteral
  }

  lemma WordsDoNotEndThemselves(text: string)
    ensures !SelfEnding(WordKind(text))
  {
  }

  lemma SymbolsEndThemselves()
    ensures forall c :: c in Symbols() ==>
              Symbolic(Symbols()[c]) && !IsIdentPart(c) && c != '.' && !IsSign(c) && c != '/'
  {
  }

  /** How a lexeme was taken. */
  lemma TakenAs(w: Word, r: string)
    requires Lexeme(w, r)
    ensures var c := w.text[0];
            if IsIdentStart(c) then
              w.kind == WordKind(w.text) && IdentRest((w.text + r)[1..]) == |w.text| - 1
            else if StartsNumber(w.text + r) then NumberAt(w.text + r) == Number(|w.text|, w.kind)
            else if c == '\'' || c == '"' then
              w.kind == StringLiteral && StringRest(w.text + r, 1, c) == Literal(|w.text|, [])
            else
              && |w.text| == 1 && (c == '&' || c == '*' || (c in Symbols() && w.kind == Symbols()[c]))
              && Symbolic(w.kind) && !IsIdentPart(c) && c != '.' && !IsSign(c) && c != '/'
  {
    hide WordKind, NumberAt, StringRest, Symbols, BlockAt, LineCommentLen, IdentRest, RuneSize;
    SymbolsEndThemselves();
    var s := w.text + r;
    assert s[0] == w.text[0] && s[..|w.text|] == w.text;
  }

  /** A lexeme stays one in front of anything that cannot lengthen it. */
  lemma LexemeKeeps(w: Word, r: string, r': string)
    requires Lexeme(w, r) && (SelfEnding(w.kind) || Stops(r'))
    ensures Lexeme(w, r')
  {
    hide WordKind, NumberAt, StringRest, Symbols, BlockAt, LineCommentLen, IdentRest, RuneSize, HexLen, IntLen,
         DoubleLen;
    TakenAs(w, r);
    var t, s, s' := w.text, w.text + r, w.text + r';
    assert s[0] == t[0] == s'[0] && s'[..|t|] == t;
    if IsIdentStart(t[0]) {
      WordsDoNotEndThemselves(t);
      Drop(t, r, 1);
      Drop(t, r', 1);
      IdentStops(t[1..], r, r');
    } else if StartsNumber(s) {
      NumberKinds(s);
      NumberIn(w, r, r');
      DotDigit(w, r, r');
    } else if t[0] == '\'' || t[0] == '"' {
      QuoteLast(s, 1, t[0]);
      StringIn(t, r, r', 1, t[0]);
    }
  }

  lemma DotDigit(w: Word, r: string, r': string)
    requires w.text != "" && NumberAt(w.text + r) == Number(|w.text|, w.kind) && StartsNumber(w.text + r)
    ensures StartsNumber(w.text + r')
  {
    var t := w.text;
    if t[0] == '.' && |t| == 1 {
      LoneDot(t, r);
    }
    if |t| > 1 {
      assert (t + r)[1] == t[1] == (t + r')[1];
    }
  }

  /** A dot is not a number by itself. */
  lemma LoneDot(t: string, r: string)
    requires t == "."
    ensures NumberAt(t + r).Number? ==> NumberAt(t + r).len > 1
  {
    var s := t + r;
    assert s[0] == '.' && s[0..] == s;
  }

  // ----- the round trip -----

  /** The lexer takes w, without error, from some source. */
  ghost predicate IsWord(w: Word) {
    exists r: string :: Lexeme(w, r)
  }

  /** What Joined writes after its first word. */
  function After(ws: seq<Word>): string
    requires ws != []
  {
    if |ws| == 1 then "" else RawTokenGap(ws[0].kind, ws[1].kind) + Joined(ws[1..])
  }

  lemma JoinedFirst(ws: seq<Word>)
    requires ws != []
    ensures Joined(ws) == ws[0].text + After(ws)
  {
    hide RawTokenGap;
  }

  /** A word starts with no whitespace and no comment, and a symbol with its character. */
  lemma WordStart(w: Word)
    requires IsWord(w)
    ensures w.text != "" && !IsWhitespace(w.text[0]) && w.text[0] != '/' && w.text[0] != '#'
    ensures Symbolic(w.kind) ==> Stops(w.text)
  {
    hide WordKind, NumberAt, StringRest, Symbols, IdentRest, ActionAt;
    var r: string :| Lexeme(w, r);
    TakenAs(w, r);
    WordsDoNotEndThemselves(w.text);
    NumberKinds(w.text + r);
    SymbolsAreVisible();
  }

  lemma SymbolsAreVisible()
    ensures forall c :: c in Symbols() ==> !IsWhitespace(c) && c != '#'
  {
  }

  /** The gap lets no token run into the next one. */
  lemma GapStops(prev: Word, next: Word, rest: string)
    requires IsWord(prev) && IsWord(next)
    ensures SelfEnding(prev.kind) || Stops(RawTokenGap(prev.kind, next.kind) + (next.text + rest))
  {
    hide IsWord;
    WordStart(next);
    var gap := RawTokenGap(prev.kind, next.kind);
    if gap == "" && !SelfEnding(prev.kind) {
      assert gap + (next.text + rest) == next.text + rest;
      assert (next.text + rest)[0] == next.text[0];
    }
  }

  ghost predicate AllWords(ws: seq<Word>) {
    forall i :: 0 <= i < |ws| ==> IsWord(ws[i])
  }

  /** In the joined text the first word is taken as it was. */
  lemma FirstTaken(ws: seq<Word>)
    requires ws != [] && AllWords(ws)
    ensures Joined(ws) != "" && ActionAt(Joined(ws)) == Take(ws[0].kind, |ws[0].text|, [])
  {
    hide ActionAt, RawTokenGap, Joined, Stops, SelfEnding;
    JoinedFirst(ws);
    var r: string :| Lexeme(ws[0], r);
    NothingStops();
    if |ws| > 1 {
      JoinedFirst(ws[1..]);
      assert ws[1..][0] == ws[1];
      GapStops(ws[0], ws[1], After(ws[1..]));
    }
    LexemeKeeps(ws[0], r, After(ws));
  }

  lemma NothingStops()
    ensures Stops("")
  {
  }

  predicate IsGap(gap: string) {
    gap == "" || gap == " "
  }

  /** A gap is whitespace and nothing else is trivia. */
  lemma GapIsTrivia(src: string, off: nat, gap: string, ws: seq<Word>)
    requires off <= |src| && IsGap(gap) && AllWords(ws) && src[off..] == gap + Joined(ws)
    ensures var t := ScanTrivia(src, off, 0); t.comments == [] && t.errs == [] && t.off == off + |gap|
    ensures src[off + |gap|..] == Joined(ws)
  {
    hide ScanTrivia, RawTokenGap, Joined, IsWord, Newlines, BlankLines, LineCommentLen, BlockAt;
    if ws != [] {
      WordStart(ws[0]);
      JoinedFirst(ws);
    } else {
      EmptyJoined();
    }
    assert src[off + |gap|..] == src[off..][|gap|..];
    TriviaStep(src, off, 0);
    if gap == " " {
      assert src[off..][0] == ' ' && |src[off..]| == 1 + |Joined(ws)|;
      assert WhitespaceLen(src[off..]) == 1 by {
        hide *;
        OneSpace(src[off..]);
      }
      TriviaStep(src, off + 1, BlankLines(Newlines(src[off..][..1])));
    } else {
      assert gap + Joined(ws) == Joined(ws);
    }
  }

  lemma OneSpace(s: string)
    requires s != "" && s[0] == ' ' && (|s| > 1 ==> !IsWhitespace(s[1]))
    ensures WhitespaceLen(s) == 1
  {
  }

  lemma EmptyJoined()
    ensures Joined([]) == ""
  {
  }

  lemma WordsOfConcat(a: seq<Token>, b: seq<Token>)
    ensures WordsOf(a + b) == WordsOf(a) + WordsOf(b)
  {
  }

  /** A word taken without trivia in front. */
  lemma WordTaken(src: string, from: nat, w: Word, after: string)
    requires from <= |src| && src[from..] == w.text + after && Lexeme(w, after)
    ensures var n := |w.text|;
            && from + n <= |src| && n > 0 && src[from + n..] == after
            && ScanToken(src, from) == Scan(TokenAt(src, from, w.kind, n), from + n, [])
            && TokenAt(src, from, w.kind, n).text == w.text
  {
    hide ActionAt, LineAt, ColAt;
    var n := |w.text|;
    assert src[from..][..n] == w.text && src[from..][n..] == after;
    assert src[from..from + n] == w.text;
    assert src[from + n..] == src[from..][n..];
  }

  /** One entry of the stream, without comments and errors. */
  lemma EntryWords(src: string, off: nat)
    requires off <= |src|
    requires ScanTrivia(src, off, 0).comments == [] && ScanTrivia(src, off, 0).errs == []
    ensures var r := ScanToken(src, ScanTrivia(src, off, 0).off);
            r.errs == [] ==>
              if r.token.kind == EOF then
                LexFrom(src, off).errs == [] && WordsOf(LexFrom(src, off).tokens) == [Word(EOF, r.token.text)]
              else
                && LexFrom(src, off).errs == LexFrom(src, r.off).errs
                && WordsOf(LexFrom(src, off).tokens)
                   == [Word(r.token.kind, r.token.text)] + WordsOf(LexFrom(src, r.off).tokens)
  {
    hide ScanTrivia, ScanToken;
    var t := ScanTrivia(src, off, 0);
    var r := ScanToken(src, t.off);
    var entry := [r.token.(blankLines := t.blankLines)];
    assert t.comments + entry == entry;
    assert WordsOf(entry) == [Word(r.token.kind, r.token.text)];
    if r.token.kind != EOF {
      WordsOfConcat(entry, LexFrom(src, r.off).tokens);
    }
  }

  lemma EndTaken(src: string)
    ensures ScanToken(src, |src|) == Scan(TokenAt(src, |src|, EOF, 0), |src|, [])
            && TokenAt(src, |src|, EOF, 0).text == ""
  {
    hide LineAt, ColAt;
  }

  /** Lexing a joined text gives its words back. */
  lemma {:induction false} JoinedLexes(src: string, off: nat, gap: string, ws: seq<Word>)
    requires off <= |src| && IsGap(gap) && AllWords(ws) && src[off..] == gap + Joined(ws)
    ensures LexFrom(src, off).errs == [] && WordsOf(LexFrom(src, off).tokens) == ws + [Word(EOF, "")]
    decreases |ws|
  {
    hide ScanTrivia, ScanToken, LexFrom, ActionAt, RawTokenGap, Joined, IsWord, TokenAt, AllWords, WordsOf, IsGap,
         After;
    GapIsTrivia(src, off, gap, ws);
    EntryWords(src, off);
    if ws == [] {
      EmptyJoined();
      EndTaken(src);
    } else {
      FirstTaken(ws);
      JoinedFirst(ws);
      WordTaken(src, off + |gap|, ws[0], After(ws));
      TokenKind(src, off + |gap|, ws[0].kind, |ws[0].text|);
      NextGap(ws);
      WordIsNotEOF(ws);
      var gap' := if |ws| == 1 then "" else RawTokenGap(ws[0].kind, ws[1].kind);
      JoinedLexes(src, off + |gap| + |ws[0].text|, gap', ws[1..]);
      assert [ws[0]] + (ws[1..] + [Word(EOF, "")]) == ws + [Word(EOF, "")];
    }
  }

  lemma TokenKind(src: string, off: nat, kind: Kind, len: nat)
    requires off + len <= |src|
    ensures TokenAt(src, off, kind, len).kind == kind
  {
  }

  lemma WordIsNotEOF(ws: seq<Word>)
    requires ws != [] && AllWords(ws)
    ensures ws[0].kind != EOF
  {
    var r: string :| Lexeme(ws[0], r);
    NeverEOF(ws[0].text + r);
  }

  lemma NextGap(ws: seq<Word>)
    requires ws != [] && AllWords(ws)
    ensures AllWords(ws[1..])
    ensures var gap := if |ws| == 1 then "" else RawTokenGap(ws[0].kind, ws[1].kind);
            IsGap(gap) && After(ws) == gap + Joined(ws[1..])
  {
    hide Joined, IsWord;
    EmptyJoined();
    assert |ws| == 1 ==> ws[1..] == [];
  }

  // ----- words put together -----

  function GapBetween(a: seq<Word>, b: seq<Word>): string {
    if a == [] || b == [] then "" else RawTokenGap(a[|a| - 1].kind, b[0].kind)
  }

  lemma JoinedFront(w: Word, ws: seq<Word>)
    requires ws != []
    ensures Joined([w] + ws) == w.text + RawTokenGap(w.kind, ws[0].kind) + Joined(ws)
  {
    hide RawTokenGap;
    assert ([w] + ws)[1..] == ws && ([w] + ws)[1] == ws[0];
  }

  lemma {:induction false} JoinedConcat(a: seq<Word>, b: seq<Word>)
    ensures Joined(a + b) == Joined(a) + GapBetween(a, b) + Joined(b)
    decreases |a|
  {
    hide RawTokenGap, Joined;
    NoWords();
    if a == [] {
      assert a + b == b;
    } else if b == [] {
      assert a + b == a;
    } else if |a| == 1 {
      assert a == [a[0]];
      OneWord(a[0]);
      JoinedFront(a[0], b);
    } else {
      var rest := a[1..];
      JoinedConcat(rest, b);
      assert a + b == [a[0]] + (rest + b) && a == [a[0]] + rest;
      JoinedFront(a[0], rest + b);
      JoinedFront(a[0], rest);
    }
  }

  lemma NoWords()
    ensures Joined([]) == ""
  {
  }

  lemma OneWord(w: Word)
    ensures Joined([w]) == w.text
  {
  }

  predicate AllIdentPart(s: string) {
    forall i :: 0 <= i < |s| ==> IsIdentPart(s[i])
  }

  lemma {:induction false} WholeIdent(s: string)
    requires AllIdentPart(s)
    ensures IdentRest(s) == |s|
    decreases |s|
  {
    if s != "" {
      WholeIdent(s[1..]);
    }
  }

  /** A keyword is a word. */
  lemma KeywordIsWord(text: string, k: Kind)
    requires text != "" && IsIdentStart(text[0]) && AllIdentPart(text) && text in Keywords() && Keywords()[text] == k
    ensures IsWord(Word(k, text))
  {
    hide Keywords, IdentRest, NumberAt, StringRest, RuneSize;
    WholeIdent(text[1..]);
    assert text + "" == text && text[..|text|] == text;
    assert '.' !in text by {
      assert forall i :: 0 <= i < |text| ==> IsIdentPart(text[i]);
    }
    assert Lexeme(Word(k, text), "");
  }

  lemma AllWordsConcat(a: seq<Word>, b: seq<Word>)
    requires AllWords(a) && AllWords(b)
    ensures AllWords(a + b)
  {
    hide IsWord;
  }

  lemma OneIsWord(w: Word)
    requires IsWord(w)
    ensures AllWords([w])
  {
    hide IsWord;
  }

  // ----- the words of a source -----

  /** The tokens a renderer prints: all but comments and EOF. */
  function Real(ts: seq<Token>): seq<Token> {
    if ts == [] then []
    else if IsComment(ts[0].kind) || ts[0].kind == EOF then Real(ts[1..])
    else [ts[0]] + Real(ts[1..])
  }

  lemma {:induction false} RealOfComments(ts: seq<Token>, more: seq<Token>)
    requires AllComments(ts)
    ensures Real(ts + more) == Real(more)
    decreases |ts|
  {
    if ts == [] {
      assert ts + more == more;
    } else {
      assert (ts + more)[1..] == ts[1..] + more;
      RealOfComments(ts[1..], more);
    }
  }

  /** Every real token of an error-free source is a word. */
  lemma {:induction false} RealAreWords(src: string, off: nat)
    requires off <= |src| && LexFrom(src, off).errs == []
    ensures AllWords(WordsOf(Real(LexFrom(src, off).tokens)))
    decreases |src| - off
  {
    hide ScanTrivia, ScanToken, ActionAt, AtToken, Passed, Spaced, IsWord, LineAt, ColAt, Real, AllComments, InOrder;
    StartsPassed(src, off);
    var t := ScanTrivia(src, off, 0);
    var mid := TriviaSpaced(src, off, off, 0);
    TriviaInOrder(src, off, 0);
    var r := ScanToken(src, t.off);
    TokenWithoutErrors(src, t.off);
    var token := r.token.(blankLines := t.blankLines);
    if r.token.kind == EOF {
      RealOfComments(t.comments, [token]);
      RealOne(token, []);
      assert [token] + [] == [token];
    } else {
      var rest := LexFrom(src, r.off).tokens;
      RealAreWords(src, r.off);
      assert t.comments + [token] + rest == t.comments + ([token] + rest);
      RealOfComments(t.comments, [token] + rest);
      RealOne(token, rest);
      TakenIsWord(src, t.off, r.token);
      WordsOfConcat([token], Real(rest));
      WordsInFront(token, Real(rest));
    }
  }

  lemma RealOne(t: Token, rest: seq<Token>)
    ensures Real([t] + rest) == if IsComment(t.kind) || t.kind == EOF then Real(rest) else [t] + Real(rest)
    ensures Real([]) == []
  {
    assert ([t] + rest)[1..] == rest;
  }

  lemma WordsInFront(t: Token, rest: seq<Token>)
    requires IsWord(Word(t.kind, t.text)) && AllWords(WordsOf(rest))
    ensures AllWords(WordsOf([t] + rest)) && AllWords(WordsOf(rest))
  {
    hide IsWord;
    var ws := WordsOf([t] + rest);
    forall i | 0 <= i < |ws| ensures IsWord(ws[i]) {
      if i > 0 {
        assert ws[i] == WordsOf(rest)[i - 1];
      }
    }
  }

  lemma TakenIsWord(src: string, off: nat, t: Token)
    requires off < |src| && ActionAt(src[off..]).Take? && ActionAt(src[off..]).flaws == []
    requires t == TokenAt(src, off, ActionAt(src[off..]).kind, ActionAt(src[off..]).len)
    ensures IsWord(Word(t.kind, t.text))
  {
    hide ActionAt, LineAt, ColAt;
    var s := src[off..];
    var n := ActionAt(s).len;
    assert t.text == s[..n];
    assert t.text + s[n..] == s;
    assert Lexeme(Word(t.kind, t.text), s[n..]);
  }

  /** Joining the words of any error-free source with RawTokenGap and lexing the result gives the
      same kinds and texts, without errors and followed by EOF: no two adjacent tokens merge or split. */
  lemma JoinedRoundTrip(src: string)
    requires Lex(src).errs == []
    ensures var ws := WordsOf(Real(Lex(src).tokens));
            Lex(Joined(ws)).errs == [] && WordsOf(Lex(Joined(ws)).tokens) == ws + [Word(EOF, "")]
  {
    hide LexFrom, Real, AllWords, Joined;
    RealAreWords(src, 0);
    var ws := WordsOf(Real(Lex(src).tokens));
    var joined := Joined(ws);
    assert joined[0..] == joined == "" + joined;
    JoinedLexes(joined, 0, "", ws);
  }
}
