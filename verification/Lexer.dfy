/** The lexer as the class it is (syntax/lexer.go): its line and column counters, kept up while
    it scans, are the line and column of its offset. */
module Lexer {
  import opened Utf8
  import opened Lexing

  // ----- counting runes -----

  /** Decoding from one offset reaches the other. */
  ghost predicate Aligned(src: string, from: nat, to: nat)
    requires from <= |src| && to <= |src|
    decreases |src| - from
  {
    from == to || (from < to && Aligned(src, from + RuneSize(src[from..]), to))
  }

  lemma {:induction false} OneRuneMore(src: string, from: nat, off: nat)
    requires from <= off < |src| && Aligned(src, from, off)
    ensures var n := RuneSize(src[off..]);
            Aligned(src, from, off + n) && Runes(src, from, off + n) == Runes(src, from, off) + 1
    decreases |src| - from
  {
    var n := RuneSize(src[off..]);
    if from == off {
      assert Aligned(src, off + n, off + n) && Runes(src, off + n, off + n) == 0;
    } else {
      OneRuneMore(src, from + RuneSize(src[from..]), off);
    }
  }

  lemma {:induction false} SameLine(src: string, off: nat, n: nat)
    requires off + n <= |src| && forall k :: off <= k < off + n ==> !IsNewline(src[k])
    ensures Terminators(src, off + n) == Terminators(src, off) && LineStart(src, off + n) == LineStart(src, off)
    ensures n > 0 ==> !BetweenCRLF(src, off + n)
  {
    if n > 0 {
      SameLine(src, off, n - 1);
    }
  }

  /** Where the runes of the current column end: before the "\r" of a "\r\n" that off is inside. */
  ghost function ColEnd(src: string, off: nat): (r: nat)
    requires off <= |src|
    ensures r <= off
  {
    if BetweenCRLF(src, off) then off - 1 else off
  }

  ghost predicate AtRune(src: string, off: nat)
    requires off <= |src|
  {
    LineStart(src, off) <= ColEnd(src, off) && Aligned(src, LineStart(src, off), ColEnd(src, off))
  }

  lemma PassNewline(src: string, off: nat)
    requires off < |src| && IsNewline(src[off]) && AtRune(src, off)
    ensures RuneSize(src[off..]) == 1 && AtRune(src, off + 1)
    ensures if src[off] == '\r' && Peek(src, off + 1) == '\n'
            then LineAt(src, off + 1) == LineAt(src, off) && ColAt(src, off + 1) == ColAt(src, off)
            else LineAt(src, off + 1) == LineAt(src, off) + 1 && ColAt(src, off + 1) == 1
  {
  }

  lemma PassRune(src: string, off: nat)
    requires off < |src| && !IsNewline(src[off]) && AtRune(src, off)
    ensures var n := RuneSize(src[off..]);
            AtRune(src, off + n) && LineAt(src, off + n) == LineAt(src, off)
            && ColAt(src, off + n) == ColAt(src, off) + 1
  {
    hide RuneSize, Terminators, LineStart, Runes, Aligned;
    var s := src[off..];
    forall k | off <= k < off + RuneSize(s) ensures !IsNewline(src[k]) {
      assert src[k] == s[k - off];
    }
    SameLine(src, off, RuneSize(s));
    OneRuneMore(src, LineStart(src, off), off);
  }

  lemma DropOne(src: string, a: nat, b: nat)
    requires a + b <= |src|
    ensures src[a..][b..] == src[a + b..]
  {
  }

  // ----- the match functions -----

  method MatchHex(s: string) returns (r: nat)
    ensures r == HexLen(s)
  {
    var i := 0;
    if i < |s| && IsSign(s[i]) {
      i := i + 1;
    }
    if i + 2 > |s| || s[i] != '0' || (s[i + 1] != 'x' && s[i + 1] != 'X') {
      return 0;
    }
    i := i + 2;
    ghost var start := i;
    var digits := 0;
    while i < |s| && IsHexDigit(s[i])
      invariant start <= i <= |s| && digits == i - start
      invariant digits + HexRun(s[i..]) == HexRun(s[start..])
    {
      DropOne(s, i, 1);
      i := i + 1;
      digits := digits + 1;
    }
    if digits == 0 {
      return 0;
    }
    return i;
  }

  method CountDigits(s: string, start: nat) returns (i: nat)
    requires start <= |s|
    ensures i == start + DigitRun(s[start..])
  {
    i := start;
    while i < |s| && IsDigit(s[i])
      invariant start <= i <= |s|
      invariant i + DigitRun(s[i..]) == start + DigitRun(s[start..])
    {
      DropOne(s, i, 1);
      i := i + 1;
    }
  }

  method MatchInt(s: string) returns (r: nat)
    ensures r == IntLen(s)
  {
    var start := 0;
    if |s| > 0 && IsSign(s[0]) {
      start := 1;
    }
    var i := CountDigits(s, start);
    if i == start {
      return 0;
    }
    return i;
  }

  /** The fraction of a double, if it has one. */
  method MatchFraction(s: string, i: nat) returns (p: Part)
    requires i <= |s|
    ensures p == Fraction(s[i..])
  {
    if i == |s| || s[i] != '.' {
      return Good(0);
    }
    DropOne(s, i, 1);
    var j := CountDigits(s, i + 1);
    if j == i + 1 {
      return Bad;
    }
    return Good(j - i);
  }

  method MatchExponent(s: string, i: nat) returns (p: Part)
    requires i <= |s|
    ensures p == Exponent(s[i..])
  {
    if i == |s| || (s[i] != 'e' && s[i] != 'E') {
      return Good(0);
    }
    var j := i + 1;
    DropOne(s, i, 1);
    if j < |s| && IsSign(s[j]) {
      j := j + 1;
    }
    DropOne(s, i, j - i);
    var k := CountDigits(s, j);
    if k == j {
      return Bad;
    }
    return Good(k - i);
  }

  method MatchDouble(s: string) returns (r: nat)
    ensures r == DoubleLen(s)
  {
    hide Fraction, Exponent, DigitRun;
    var i := 0;
    if i < |s| && IsSign(s[i]) {
      i := i + 1;
    }
    var start := i;
    i := CountDigits(s, i);
    var sawDigit := i > start;
    var fraction := MatchFraction(s, i);
    if fraction.Bad? {
      return 0;
    }
    sawDigit := sawDigit || fraction.len > 0;
    i := i + fraction.len;
    var exponent := MatchExponent(s, i);
    if exponent.Bad? || !sawDigit {
      return 0;
    }
    return i + exponent.len;
  }

  // ----- the lexer -----

  class Lexer {
    const src: string
    var off: nat
    var line: nat
    var col: nat
    var errs: seq<Error>

    constructor (src: string)
      ensures this.src == src && off == 0 && errs == [] && Valid()
    {
      this.src := src;
      off, line, col, errs := 0, 1, 1, [];
    }

    ghost predicate Valid()
      reads this`off, this`line, this`col
    {
      off <= |src| && AtRune(src, off) && line == LineAt(src, off) && col == ColAt(src, off)
    }

    function PeekByte(ahead: nat): char
      reads this
    {
      if off + ahead >= |src| then '\0' else src[off + ahead]
    }

    /** Consumes one ASCII character. */
    method AdvanceByte()
      requires Valid() && off < |src| && src[off] as int < 0x80
      modifies this`off, this`line, this`col
      ensures Valid() && off == old(off) + 1
    {
      hide AtRune, LineAt, ColAt, RuneSize;
      AsciiSize(src[off..]);
      match src[off] {
      case '\n' =>
        PassNewline(src, off);
        line := line + 1;
        col := 1;
      case '\r' =>
        PassNewline(src, off);
        if off + 1 >= |src| || src[off + 1] != '\n' {
          line := line + 1;
          col := 1;
        }
      case _ =>
        PassRune(src, off);
        col := col + 1;
      }
      off := off + 1;
    }

    /** Consumes one rune. */
    method AdvanceRune()
      requires Valid() && off < |src|
      modifies this`off, this`line, this`col
      ensures Valid() && off == old(off) + RuneSize(src[old(off)..])
    {
      hide AtRune, LineAt, ColAt, RuneSize;
      var size := RuneSize(src[off..]);
      match src[off] {
      case '\n' =>
        PassNewline(src, off);
        line := line + 1;
        col := 1;
      case '\r' =>
        PassNewline(src, off);
        if off + size >= |src| || src[off + size] != '\n' {
          line := line + 1;
          col := 1;
        }
      case _ =>
        PassRune(src, off);
        col := col + 1;
      }
      off := off + size;
    }

    lemma Position()
      requires Valid()
      ensures off <= |src| && line == LineAt(src, off) && col == ColAt(src, off)
    {
    }

    /** Records an error at an offset whose line and column are known. */
    method ErrorfAt(m: Message, at: nat, atLine: nat, atCol: nat)
      requires at <= |src| && atLine == LineAt(src, at) && atCol == ColAt(src, at)
      modifies this`errs
      ensures errs == old(errs) + [ErrorAt(src, at, m)]
    {
      errs := errs + [Error(m, at, atLine, atCol)];
    }

    /** Consumes a blank or a line terminator, and returns the terminators it saw. */
    method PassWhitespace() returns (newlines: nat)
      requires Valid() && off < |src| && IsWhitespace(src[off])
      modifies this`off, this`line, this`col
      ensures Valid() && (off == old(off) + 1 || (off == old(off) + 2 && src[old(off) + 1] == '\n'))
      ensures newlines == if IsNewline(src[old(off)]) then 1 else 0
      ensures off == old(off) + 2 <==>
                src[old(off)] == '\r' && old(off) + 1 < |src| && src[old(off) + 1] == '\n'
    {
      hide AtRune, LineAt, ColAt, RuneSize;
      newlines := if IsNewline(src[off]) then 1 else 0;
      var carriageReturn := src[off] == '\r';
      AdvanceByte();
      if carriageReturn && off < |src| && src[off] == '\n' {
        AdvanceByte();
      }
    }

    /** Consumes a whitespace run and returns the number of empty lines in it. */
    method ScanWhitespace() returns (blank: nat)
      requires Valid()
      modifies this`off, this`line, this`col
      ensures Valid() && off == old(off) + WhitespaceLen(src[old(off)..])
      ensures blank == BlankLines(Newlines(src[old(off)..off]))
    {
      hide Valid, Newlines, WhitespaceLen;
      Position();
      ghost var start, end := off, off + WhitespaceLen(src[off..]);
      var newlines := 0;
      while off < |src| && IsWhitespace(src[off])
        invariant Valid() && start <= off <= end <= |src|
        invariant off + WhitespaceLen(src[off..]) == end
        invariant newlines + Newlines(src[off..end]) == Newlines(src[start..end])
        decreases |src| - off
      {
        NewlinesStep(src, off, end);
        var n := PassWhitespace();
        newlines := newlines + n;
      }
      NewlinesEnd(src, off, end);
      return if newlines > 0 then newlines - 1 else 0;
    }

    /** The token from start to the current offset. */
    function TokenFrom(kind: Kind, start: nat, startLine: nat, startCol: nat): Token
      requires start <= off <= |src|
      reads this
    {
      Token(kind, src[start..off], start, startLine, startCol, 0)
    }

    method ScanLineComment() returns (t: Token)
      requires Valid()
      modifies this`off, this`line, this`col
      ensures Valid() && off == old(off) + LineCommentLen(src[old(off)..])
      ensures t == TokenAt(src, old(off), LineComment, off - old(off))
    {
      hide AtRune, LineAt, ColAt, RuneSize;
      var start, startLine, startCol := off, line, col;
      while off < |src| && !IsNewline(src[off])
        invariant Valid() && start <= off
        invariant off + LineCommentLen(src[off..]) == start + LineCommentLen(src[start..])
        decreases |src| - off
      {
        DropOne(src, off, RuneSize(src[off..]));
        AdvanceRune();
      }
      t := TokenFrom(LineComment, start, startLine, startCol);
    }

    method ScanBlockComment() returns (t: Token)
      requires Valid() && StartsBlockComment(src[off..])
      modifies this
      ensures Valid()
      ensures var b := BlockAt(src[old(off)..]);
              && off == old(off) + b.len && t == TokenAt(src, old(off), b.kind, b.len)
              && errs == old(errs) + Errors(src, old(off), BlockFlaws(b))
    {
      hide Valid, BlockRest;
      Position();
      var start, startLine, startCol := off, line, col;
      ghost var s, b := src[start..], BlockAt(src[start..]);
      var doc := PeekByte(2) == '*';
      var kind := BlockComment;
      AdvanceByte();
      AdvanceByte();
      while true
        invariant Valid() && start + 2 <= off <= |src| && errs == old(errs)
        invariant BlockRest(s, off - start, doc) == b
        decreases |src| - off
      {
        BlockStep(src, start, off, doc);
        if off >= |src| {
          ErrorfAt(UnterminatedComment, start, startLine, startCol);
          break;
        }
        if src[off] == '*' && PeekByte(1) == '/' {
          AdvanceByte();
          AdvanceByte();
          if doc {
            kind := DocComment;
          }
          break;
        }
        if doc && off == start + 3 && src[off] == '/' {
          AdvanceByte();
          kind := DocComment;
          break;
        }
        AdvanceRune();
      }
      t := TokenFrom(kind, start, startLine, startCol);
      BlockErrors(src, start, b);
    }

    method SymbolToken(kind: Kind) returns (t: Token)
      requires Valid() && off < |src| && src[off] as int < 0x80
      modifies this`off, this`line, this`col
      ensures Valid() && off == old(off) + 1 && t == TokenAt(src, old(off), kind, 1)
    {
      hide AtRune, LineAt, ColAt;
      var start, startLine, startCol := off, line, col;
      AdvanceByte();
      t := TokenFrom(kind, start, startLine, startCol);
    }

    method ScanIdentifier() returns (t: Token)
      requires Valid() && off < |src| && IsIdentStart(src[off])
      modifies this`off, this`line, this`col
      ensures Valid()
      ensures var s := src[old(off)..];
              off == old(off) + IdentLen(s) && t == TokenAt(src, old(off), WordKind(s[..IdentLen(s)]), IdentLen(s))
    {
      hide Valid, IdentRest, IdentLen, Keywords;
      Position();
      var start, startLine, startCol := off, line, col;
      ghost var end := start + IdentLen(src[start..]);
      var dotted := false;
      IdentBegin(src, start);
      AdvanceByte();
      while off < |src|
        invariant Valid() && start < off <= |src| && off + IdentRest(src[off..]) == end
        invariant dotted <==> '.' in src[start..off]
        decreases |src| - off
      {
        IdentStep(src, start, off);
        if IsIdentPart(src[off]) {
          AdvanceByte();
          continue;
        }
        if src[off] == '.' && IsIdentStart(PeekByte(1)) {
          dotted := true;
          AdvanceByte();
          AdvanceByte();
          continue;
        }
        break;
      }
      IdentEnd(src, start, off);
      var text := src[start..off];
      var kind := Identifier;
      if !dotted && text in Keywords() {
        kind := Keywords()[text];
      }
      t := TokenFrom(kind, start, startLine, startCol);
    }

    method ScanNumber() returns (ok: bool, t: Token)
      requires Valid() && off < |src|
      modifies this`off, this`line, this`col
      ensures Valid()
      ensures var n := NumberAt(src[old(off)..]);
              && ok == n.Number?
              && (ok ==> off == old(off) + n.len && t == TokenAt(src, old(off), n.kind, n.len))
              && (!ok ==> off == old(off))
    {
      hide AtRune, LineAt, ColAt, RuneSize, HexLen, IntLen, DoubleLen;
      var start, startLine, startCol := off, line, col;
      var rest := src[start..];
      var hex := MatchHex(rest);
      var int' := MatchInt(rest);
      var dub := MatchDouble(rest);
      var length, kind := 0, IntConstant;
      if hex > 0 && hex >= int' && hex >= dub {
        length := hex;
      } else if int' > 0 && int' >= dub {
        length := int';
      } else if dub > 0 {
        length, kind := dub, DoubleConstant;
      } else {
        return false, TokenFrom(IntConstant, start, startLine, startCol);
      }
      NumberIsAscii(rest);
      for i := 0 to length
        invariant Valid() && off == start + i
      {
        assert src[off] == rest[i];
        AdvanceByte();
      }
      return true, TokenFrom(kind, start, startLine, startCol);
    }

    method ScanString() returns (t: Token)
      requires Valid() && off < |src| && (src[off] == '\'' || src[off] == '"')
      modifies this
      ensures Valid()
      ensures var r := StringRest(src[old(off)..], 1, src[old(off)]);
              && off == old(off) + r.len && t == TokenAt(src, old(off), StringLiteral, r.len)
              && errs == old(errs) + Errors(src, old(off), r.flaws)
    {
      hide Valid, StringRest, InString;
      Position();
      var start, startLine, startCol := off, line, col;
      var quote := src[off];
      ghost var r := StringRest(src[start..], 1, src[start]);
      ghost var seen: seq<Flaw> := [];
      NoErrors(src, start);
      AdvanceByte();
      StringBegins(src, start, quote);
      var ended := false;
      while !ended
        invariant Valid() && start < off <= |src|
        invariant Sighted(src, start, seen) && errs == old(errs) + Errors(src, start, seen)
        invariant if ended then off == start + r.len && seen == r.flaws else InString(src, start, off, quote, seen, r)
        decreases !ended, |src| - off
      {
        ended, seen := PassString(start, startLine, startCol, quote, seen, r);
      }
      t := TokenFrom(StringLiteral, start, startLine, startCol);
    }

    /** One turn of the loop in scanString: it ends the literal or consumes a part of it. */
    method PassString(start: nat, startLine: nat, startCol: nat, quote: char, ghost seen: seq<Flaw>, ghost r: Literal)
      returns (ended: bool, ghost seen': seq<Flaw>)
      requires Valid() && start < off <= |src| && (quote == '\'' || quote == '"')
      requires startLine == LineAt(src, start) && startCol == ColAt(src, start)
      requires Sighted(src, start, seen) && InString(src, start, off, quote, seen, r)
      modifies this
      ensures Valid() && old(off) <= off <= |src| && (!ended ==> old(off) < off)
      ensures Sighted(src, start, seen') && Sighted(src, start, seen)
      ensures exists more :: errs == old(errs) + more && Errors(src, start, seen') == Errors(src, start, seen) + more
      ensures if ended then off == start + r.len && seen' == r.flaws else InString(src, start, off, quote, seen', r)
    {
      hide Valid, StringRest, LineAt, ColAt, Errors, InString, RuneSize;
      InStringStep(src, start, off, quote, seen, r);
      seen', ended := seen, true;
      if off >= |src| {
        ErrorfAt(UnterminatedString, start, startLine, startCol);
        seen' := seen + [Flaw(UnterminatedString, 0)];
        MoreErrors(src, start, seen, Flaw(UnterminatedString, 0));
        return;
      }
      var c := src[off];
      if c == quote {
        AdvanceByte();
      } else if IsNewline(c) {
        ErrorfAt(NewlineInString, start, startLine, startCol);
        seen' := seen + [Flaw(NewlineInString, 0)];
        MoreErrors(src, start, seen, Flaw(NewlineInString, 0));
        return;
      } else if c == '\\' {
        if off + 1 >= |src| {
          AdvanceByte();
          ErrorfAt(UnterminatedString, start, startLine, startCol);
          seen' := seen + [Flaw(UnterminatedString, 0)];
          MoreErrors(src, start, seen, Flaw(UnterminatedString, 0));
          return;
        }
        var at := off;
        seen' := PassEscape(start, seen);
        ended := false;
        if !IsEscape(src[at + 1]) {
          MoreErrors(src, start, seen, Flaw(InvalidEscape, at - start));
          return;
        }
      } else {
        AdvanceRune();
        ended := false;
      }
      assert errs == old(errs) + [] && Errors(src, start, seen') == Errors(src, start, seen) + [];
    }

    /** A backslash and what follows it; an invalid escape is an error at the backslash. */
    method PassEscape(ghost start: nat, ghost seen: seq<Flaw>) returns (ghost seen': seq<Flaw>)
      requires Valid() && start <= off && off + 1 < |src| && src[off] == '\\' && Sighted(src, start, seen)
      modifies this
      ensures Valid()
      ensures if IsEscape(src[old(off) + 1])
              then off == old(off) + 2 && seen' == seen && errs == old(errs)
              else off == old(off) + 1 + RuneSize(src[old(off) + 1..])
                   && seen' == seen + [Flaw(InvalidEscape, old(off) - start)]
                   && errs == old(errs) + [ErrorAt(src, old(off), InvalidEscape)]
    {
      hide Valid;
      Position();
      seen' := seen;
      if IsEscape(src[off + 1]) {
        AdvanceByte();
        AdvanceByte();
      } else {
        seen' := seen + [Flaw(InvalidEscape, off - start)];
        ErrorfAt(InvalidEscape, off, line, col);
        AdvanceByte();
        AdvanceRune();
      }
    }

    /** Scans the next token, skipping what no token starts with. */
    method ScanNext() returns (t: Token)
      requires Valid()
      modifies this
      ensures Valid()
      ensures var r := ScanToken(src, old(off)); t == r.token && off == r.off && errs == old(errs) + r.errs
    {
      hide Valid, TokenSoFar, ActionAt, TokenAt, Errors, LineAt, ColAt, ScanToken;
      Position();
      ghost var r, past: seq<Error> := ScanToken(src, off), [];
      TokenStart(src, off);
      while true
        invariant Valid() && off <= |src| && errs == old(errs) + past
        invariant TokenSoFar(src, off, past, r)
        decreases |src| - off
      {
        Position();
        TokenStep(src, off, past, r);
        if off >= |src| {
          return TokenFrom(EOF, off, line, col);
        }
        past := past + Errors(src, off, ActionAt(src[off..]).flaws);
        var taken, token := Act();
        if taken {
          return token;
        }
      }
    }

    /** One turn of the switch in scanToken. */
    method Act() returns (taken: bool, t: Token)
      requires Valid() && off < |src|
      modifies this
      ensures Valid()
      ensures var a := ActionAt(src[old(off)..]);
              && off == old(off) + a.len && errs == old(errs) + Errors(src, old(off), a.flaws)
              && taken == a.Take? && (taken ==> t == TokenAt(src, old(off), a.kind, a.len))
    {
      hide Valid, StringRest, NumberAt, IdentLen, LineCommentLen, BlockAt, WordKind, Symbols, RuneSize;
      Position();
      ghost var start := off;
      var c := src[off];
      NoErrors(src, off);
      taken := true;
      if IsIdentStart(c) {
        t := ScanIdentifier();
      } else if IsDigit(c) || IsSign(c) || (c == '.' && IsDigit(PeekByte(1))) {
        taken, t := ScanNumber();
        if !taken {
          SkipUnexpected();
        }
      } else if c == '\'' || c == '"' {
        t := ScanString();
      } else if c == '&' {
        t := SymbolToken(Amp);
      } else if c == '*' {
        t := SymbolToken(Star);
      } else {
        taken, t := ActOnRest();
      }
    }

    method SkipUnexpected()
      requires Valid() && off < |src|
      modifies this
      ensures Valid() && off == old(off) + RuneSize(src[old(off)..])
      ensures errs == old(errs) + Errors(src, old(off), [Flaw(UnexpectedCharacter, 0)])
    {
      hide Valid;
      Position();
      ErrorfAt(UnexpectedCharacter, off, line, col);
      NoErrors(src, off);
      MoreErrors(src, off, [], Flaw(UnexpectedCharacter, 0));
      assert [] + [Flaw(UnexpectedCharacter, 0)] == [Flaw(UnexpectedCharacter, 0)];
      AdvanceRune();
    }

    method ActOnRest() returns (taken: bool, t: Token)
      requires Valid() && off < |src|
      requires !IsIdentStart(src[off]) && !StartsNumber(src[off..])
      requires src[off] != '\'' && src[off] != '"' && src[off] != '&' && src[off] != '*'
      modifies this
      ensures Valid()
      ensures var a := ActionAt(src[old(off)..]);
              && off == old(off) + a.len && errs == old(errs) + Errors(src, old(off), a.flaws)
              && taken == a.Take? && (taken ==> t == TokenAt(src, old(off), a.kind, a.len))
    {
      hide Valid, LineCommentLen, BlockAt, Symbols, RuneSize, IdentLen, NumberAt, StringRest;
      Position();
      var c := src[off];
      NoErrors(src, off);
      SymbolsAreAscii();
      taken, t := false, TokenFrom(EOF, off, line, col);
      if IsWhitespace(c) {
        AdvanceByte();
      } else if c == '/' && PeekByte(1) == '/' {
        var _ := ScanLineComment();
      } else if c == '/' && PeekByte(1) == '*' {
        var _ := ScanBlockComment();
      } else if c == '#' {
        var _ := ScanLineComment();
      } else if c in Symbols() {
        taken := true;
        t := SymbolToken(Symbols()[c]);
      } else {
        SkipUnexpected();
      }
    }

    /** Consumes whitespace and comments up to the next real token. */
    method ScanGap() returns (blankLines: nat, comments: seq<Token>)
      requires Valid()
      modifies this
      ensures Valid()
      ensures var r := ScanTrivia(src, old(off), 0);
              && off == r.off && blankLines == r.blankLines && comments == r.comments && errs == old(errs) + r.errs
    {
      hide Valid, ScanTrivia, WhitespaceLen, LineCommentLen, BlockAt, GapSoFar, Newlines, BlankLines, Errors, TokenAt;
      Position();
      ghost var r, past: seq<Error> := ScanTrivia(src, off, 0), [];
      GapStart(src, off);
      blankLines, comments := 0, [];
      while off < |src|
        invariant Valid() && off <= |src| && errs == old(errs) + past
        invariant GapSoFar(src, off, blankLines, comments, past, r)
        decreases |src| - off
      {
        GapStep(src, off, blankLines, comments, past, r);
        if IsWhitespace(src[off]) {
          var n := ScanWhitespace();
          blankLines := blankLines + n;
          continue;
        }
        var t: Token;
        if (src[off] == '/' && PeekByte(1) == '/') || src[off] == '#' {
          t := ScanLineComment();
        } else if src[off] == '/' && PeekByte(1) == '*' {
          past := past + Errors(src, off, BlockFlaws(BlockAt(src[off..])));
          t := ScanBlockComment();
        } else {
          return;
        }
        comments := comments + [t.(blankLines := blankLines)];
        blankLines := 0;
      }
      GapEnd(src, off, blankLines, comments, past, r);
    }

    /** run: the whole token stream. */
    method Run() returns (tokens: seq<Token>)
      requires Valid() && off == 0 && errs == []
      modifies this
      ensures tokens == Lex(src).tokens && errs == Lex(src).errs
    {
      hide Valid, ScanToken, ScanTrivia, Lex, StreamSoFar;
      Position();
      StreamStart(src);
      tokens := [];
      while true
        invariant Valid() && off <= |src| && StreamSoFar(src, off, tokens, errs)
        decreases |src| - off
      {
        StreamStep(src, off, tokens, errs);
        var blankLines, comments := ScanGap();
        tokens := tokens + comments;
        var t := ScanNext();
        Position();
        tokens := tokens + [t.(blankLines := blankLines)];
        if t.kind == EOF {
          return;
        }
      }
    }
  }

  /** The stream, once tokens and errors have been collected up to off. */
  ghost predicate StreamSoFar(src: string, off: nat, tokens: seq<Token>, errs: seq<Error>) {
    off <= |src| && Lex(src) == Stream(tokens + LexFrom(src, off).tokens, errs + LexFrom(src, off).errs)
  }

  lemma StreamStart(src: string)
    ensures StreamSoFar(src, 0, [], [])
  {
  }

  lemma StreamStep(src: string, off: nat, tokens: seq<Token>, errs: seq<Error>)
    requires StreamSoFar(src, off, tokens, errs)
    ensures off <= |src|
    ensures var t := ScanTrivia(src, off, 0);
            var r := ScanToken(src, t.off);
            var tokens' := tokens + t.comments + [r.token.(blankLines := t.blankLines)];
            var errs' := errs + t.errs + r.errs;
            if r.token.kind == EOF then Lex(src) == Stream(tokens', errs')
            else r.off > off && StreamSoFar(src, r.off, tokens', errs')
  {
    hide ScanTrivia, ScanToken, Lex;
    var t := ScanTrivia(src, off, 0);
    var r := ScanToken(src, t.off);
    var entry := r.token.(blankLines := t.blankLines);
    assert tokens + t.comments + [entry] == tokens + (t.comments + [entry]);
    assert errs + t.errs + r.errs == errs + (t.errs + r.errs);
    if r.token.kind != EOF {
      var rest := LexFrom(src, r.off);
      assert tokens + (t.comments + [entry] + rest.tokens) == tokens + t.comments + [entry] + rest.tokens;
      assert errs + (t.errs + r.errs + rest.errs) == errs + t.errs + r.errs + rest.errs;
    }
  }

  /** r, once errors have been collected up to off. */
  ghost predicate TokenSoFar(src: string, off: nat, past: seq<Error>, r: Scan) {
    off <= |src|
    && var rest := ScanToken(src, off);
       r == Scan(rest.token, rest.off, past + rest.errs)
  }

  lemma TokenStart(src: string, off: nat)
    requires off <= |src|
    ensures TokenSoFar(src, off, [], ScanToken(src, off))
  {
  }

  lemma TokenStep(src: string, off: nat, past: seq<Error>, r: Scan)
    requires TokenSoFar(src, off, past, r)
    ensures off <= |src|
    ensures if off == |src|
            then r == Scan(Token(EOF, src[off..off], off, LineAt(src, off), ColAt(src, off), 0), off, past)
            else var a := ActionAt(src[off..]);
                 var more := past + Errors(src, off, a.flaws);
                 if a.Take? then r == Scan(TokenAt(src, off, a.kind, a.len), off + a.len, more)
                 else TokenSoFar(src, off + a.len, more, r)
  {
    hide ActionAt, Errors, LineAt, ColAt;
  }

  lemma SymbolsAreAscii()
    ensures forall c :: c in Symbols() ==> c as int < 0x80
  {
  }

  /** r, once blankLines, comments and errors have been collected up to off. */
  ghost predicate GapSoFar(src: string, off: nat, blankLines: nat, comments: seq<Token>, past: seq<Error>, r: Trivia) {
    off <= |src|
    && var rest := ScanTrivia(src, off, blankLines);
       r == Trivia(rest.blankLines, comments + rest.comments, rest.off, past + rest.errs)
  }

  lemma GapStart(src: string, off: nat)
    requires off <= |src|
    ensures GapSoFar(src, off, 0, [], [], ScanTrivia(src, off, 0))
  {
  }

  lemma GapStep(src: string, off: nat, blankLines: nat, comments: seq<Token>, past: seq<Error>, r: Trivia)
    requires GapSoFar(src, off, blankLines, comments, past, r) && off < |src|
    ensures var s := src[off..];
            if IsWhitespace(s[0]) then
              var n := WhitespaceLen(s);
              n > 0 && GapSoFar(src, off + n, blankLines + BlankLines(Newlines(src[off..off + n])), comments, past, r)
            else if StartsLineComment(s) then
              var n := LineCommentLen(s);
              n > 0 && GapSoFar(src, off + n, 0,
                                comments + [TokenAt(src, off, LineComment, n).(blankLines := blankLines)], past, r)
            else if StartsBlockComment(s) then
              var b := BlockAt(s);
              GapSoFar(src, off + b.len, 0, comments + [TokenAt(src, off, b.kind, b.len).(blankLines := blankLines)],
                       past + Errors(src, off, BlockFlaws(b)), r)
            else r == Trivia(blankLines, comments, off, past)
  {
    hide RuneSize, TokenAt, Errors, Newlines;
    var s := src[off..];
    assert s[..WhitespaceLen(s)] == src[off..off + WhitespaceLen(s)];
  }

  lemma GapEnd(src: string, off: nat, blankLines: nat, comments: seq<Token>, past: seq<Error>, r: Trivia)
    requires GapSoFar(src, off, blankLines, comments, past, r) && off == |src|
    ensures r == Trivia(blankLines, comments, off, past)
  {
  }

  /** The literal r, read up to off with the flaws seen. */
  ghost predicate InString(src: string, start: nat, off: nat, quote: char, seen: seq<Flaw>, r: Literal) {
    && start < off <= |src|
    && StringRest(src[start..], off - start, quote).len == r.len
    && seen + StringRest(src[start..], off - start, quote).flaws == r.flaws
  }

  /** What the next part of the literal does. */
  lemma InStringStep(src: string, start: nat, off: nat, quote: char, seen: seq<Flaw>, r: Literal)
    requires InString(src, start, off, quote, seen, r)
    ensures var i := off - start;
            if off == |src| then r == Literal(i, seen + [Flaw(UnterminatedString, 0)])
            else if src[off] == quote then r == Literal(i + 1, seen)
            else if IsNewline(src[off]) then r == Literal(i, seen + [Flaw(NewlineInString, 0)])
            else if src[off] == '\\' then
              if off + 1 == |src| then r == Literal(i + 1, seen + [Flaw(UnterminatedString, 0)])
              else if IsEscape(src[off + 1]) then InString(src, start, off + 2, quote, seen, r)
              else InString(src, start, off + 1 + RuneSize(src[off + 1..]), quote, seen + [Flaw(InvalidEscape, i)], r)
            else InString(src, start, off + RuneSize(src[off..]), quote, seen, r)
  {
    hide StringRest;
    StringStep(src, start, off, quote);
    if off + 1 < |src| && src[off] == '\\' {
      var rest := StringRest(src[start..], off + 1 - start + RuneSize(src[off + 1..]), quote).flaws;
      assert seen + ([Flaw(InvalidEscape, off - start)] + rest) == seen + [Flaw(InvalidEscape, off - start)] + rest;
    }
  }

  lemma StringBegins(src: string, start: nat, quote: char)
    requires start < |src|
    ensures InString(src, start, start + 1, quote, [], StringRest(src[start..], 1, quote))
  {
  }

  /** The flaws lie inside the source. */
  ghost predicate Sighted(src: string, off: nat, flaws: seq<Flaw>) {
    off <= |src| && forall k :: 0 <= k < |flaws| ==> off + flaws[k].at <= |src|
  }

  lemma NoErrors(src: string, off: nat)
    requires off <= |src|
    ensures Errors(src, off, []) == []
  {
  }

  lemma MoreErrors(src: string, off: nat, flaws: seq<Flaw>, f: Flaw)
    requires Sighted(src, off, flaws) && off + f.at <= |src|
    ensures Sighted(src, off, flaws + [f])
    ensures Errors(src, off, flaws + [f]) == Errors(src, off, flaws) + [ErrorAt(src, off + f.at, f.message)]
  {
  }

  /** How StringRest proceeds at an offset of the source. */
  lemma StringStep(src: string, start: nat, off: nat, quote: char)
    requires start < off <= |src|
    ensures var s := src[start..];
            var i := off - start;
            StringRest(s, i, quote)
            == if off == |src| then Literal(i, [Flaw(UnterminatedString, 0)])
               else if src[off] == quote then Literal(i + 1, [])
               else if IsNewline(src[off]) then Literal(i, [Flaw(NewlineInString, 0)])
               else if src[off] == '\\' then
                 if off + 1 == |src| then Literal(i + 1, [Flaw(UnterminatedString, 0)])
                 else if IsEscape(src[off + 1]) then StringRest(s, i + 2, quote)
                 else
                   var r := StringRest(s, i + 1 + RuneSize(src[off + 1..]), quote);
                   Literal(r.len, [Flaw(InvalidEscape, i)] + r.flaws)
               else StringRest(s, i + RuneSize(src[off..]), quote)
  {
    DropOne(src, start, off - start);
    if off + 1 < |src| {
      DropOne(src, start, off + 1 - start);
    }
  }

  lemma BlockErrors(src: string, off: nat, b: Block)
    requires off <= |src|
    ensures Errors(src, off, BlockFlaws(b)) == if b.terminated then [] else [ErrorAt(src, off, UnterminatedComment)]
  {
  }

  /** How BlockRest proceeds at an offset of the source. */
  lemma BlockStep(src: string, start: nat, off: nat, doc: bool)
    requires start + 2 <= off <= |src|
    ensures var s := src[start..];
            BlockRest(s, off - start, doc)
            == if off == |src| then Block(off - start, BlockComment, false)
               else if src[off] == '*' && off + 1 < |src| && src[off + 1] == '/' then
                 Block(off + 2 - start, if doc then DocComment else BlockComment, true)
               else if doc && off == start + 3 && src[off] == '/' then Block(off + 1 - start, DocComment, true)
               else BlockRest(s, off - start + RuneSize(src[off..]), doc)
  {
    DropOne(src, start, off - start);
  }

  /** How IdentRest proceeds, and whether the text so far has a dot. */
  lemma IdentStep(src: string, start: nat, off: nat)
    requires start <= off < |src|
    ensures IdentRest(src[off..])
         == if IsIdentPart(src[off]) then 1 + IdentRest(src[off + 1..])
            else if src[off] == '.' && off + 1 < |src| && IsIdentStart(src[off + 1]) then 2 + IdentRest(src[off + 2..])
            else 0
    ensures '.' in src[start..off + 1] <==> '.' in src[start..off] || src[off] == '.'
    ensures src[off] == '.' && off + 1 < |src| ==> '.' in src[start..off + 2]
  {
    DropOne(src, off, 1);
    if off + 1 < |src| {
      DropOne(src, off, 2);
      assert src[start..off + 2][off - start] == src[off];
    }
    assert src[start..off + 1] == src[start..off] + [src[off]];
  }

  lemma IdentBegin(src: string, start: nat)
    requires start < |src| && IsIdentStart(src[start])
    ensures start + 1 + IdentRest(src[start + 1..]) == start + IdentLen(src[start..])
    ensures '.' !in src[start..start + 1]
  {
    DropOne(src, start, 1);
  }

  lemma IdentEnd(src: string, start: nat, off: nat)
    requires start <= off <= |src|
    requires off == |src|
             || (!IsIdentPart(src[off]) && !(src[off] == '.' && off + 1 < |src| && IsIdentStart(src[off + 1])))
    ensures IdentRest(src[off..]) == 0 && src[start..off] == src[start..][..off - start]
  {
  }

  lemma NumberIsAscii(s: string)
    ensures NumberAt(s).Number? ==> forall i :: 0 <= i < NumberAt(s).len ==> s[i] as int < 0x80
  {
    HexIsAscii(s);
    IntIsAscii(s);
    DoubleIsAscii(s);
  }

  lemma HexIsAscii(s: string)
    ensures forall i :: 0 <= i < HexLen(s) ==> s[i] as int < 0x80
  {
    var i := SignLen(s);
    if HexLen(s) > 0 {
      var run := s[i + 2..];
      forall k | i + 2 <= k < HexLen(s) ensures s[k] as int < 0x80 {
        assert s[k] == run[k - i - 2];
      }
    }
  }

  lemma IntIsAscii(s: string)
    ensures forall i :: 0 <= i < IntLen(s) ==> s[i] as int < 0x80
  {
    var i := SignLen(s);
    var run := s[i..];
    forall k | i <= k < IntLen(s) ensures s[k] as int < 0x80 {
      assert s[k] == run[k - i];
    }
  }

  lemma DoubleIsAscii(s: string)
    ensures forall i :: 0 <= i < DoubleLen(s) ==> s[i] as int < 0x80
  {
    hide Fraction, Exponent;
    var i := SignLen(s);
    var j := i + DigitRun(s[i..]);
    FractionIsAscii(s[j..]);
    if Fraction(s[j..]).Good? {
      var k := j + Fraction(s[j..]).len;
      ExponentIsAscii(s[k..]);
      forall p | 0 <= p < DoubleLen(s) ensures s[p] as int < 0x80 {
        if p < i {
        } else if p < j {
          assert s[p] == s[i..][p - i];
        } else if p < k {
          assert s[p] == s[j..][p - j];
        } else {
          assert s[p] == s[k..][p - k];
        }
      }
    }
  }

  lemma FractionIsAscii(s: string)
    ensures Fraction(s).Good? ==> forall i :: 0 <= i < Fraction(s).len ==> s[i] as int < 0x80
  {
    if s != "" {
      var run := s[1..];
      forall k | 1 <= k < |s| ensures s[k] == run[k - 1] {
      }
    }
  }

  lemma ExponentIsAscii(s: string)
    ensures Exponent(s).Good? ==> forall i :: 0 <= i < Exponent(s).len ==> s[i] as int < 0x80
  {
    if s != "" {
      var j := 1 + SignLen(s[1..]);
      var run := s[j..];
      forall k | j <= k < |s| ensures s[k] == run[k - j] {
      }
    }
  }

  lemma NewlinesEnd(src: string, off: nat, end: nat)
    requires off <= end <= |src| && off + WhitespaceLen(src[off..]) == end
    requires off == |src| || !IsWhitespace(src[off])
    ensures off == end && Newlines(src[off..end]) == 0
  {
    assert src[off..off] == "";
  }

  /** How WhitespaceLen and Newlines proceed. */
  lemma NewlinesStep(src: string, off: nat, end: nat)
    requires off < |src| && off + WhitespaceLen(src[off..]) == end && IsWhitespace(src[off])
    ensures var two := src[off] == '\r' && off + 1 < |src| && src[off + 1] == '\n';
            var next := if two then off + 2 else off + 1;
            && next <= end <= |src| && next + WhitespaceLen(src[next..]) == end
            && Newlines(src[off..end]) == (if IsNewline(src[off]) then 1 else 0) + Newlines(src[next..end])
  {
    DropOne(src, off, 1);
    if off + 1 < |src| {
      DropOne(src, off + 1, 1);
    }
    var s := src[off..end];
    assert s[1..] == src[off + 1..end];
    if off + 1 < end {
      assert s[2..] == src[off + 2..end];
    }
  }

  lemma AsciiSize(s: string)
    requires s != "" && s[0] as int < 0x80
    ensures RuneSize(s) == 1
  {
  }
}
