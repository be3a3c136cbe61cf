/** The tokens of a Thrift source (syntax/lexer.go), as functions of the rest of the source. */
module Lexing {
  import opened Utf8

  datatype Kind =
    | EOF | Identifier | IntConstant | DoubleConstant | StringLiteral
    | Include | CPPInclude | CPPType | Namespace | Struct | Union | Exception | Service | Enum | Const
    | Typedef | Oneway | Async | Throws | Extends | Required | Optional | Void | Bool | Byte | I8 | I16
    | I32 | I64 | Double | String | Binary | Slist | UUID | Map | List | Set | True | False
    | LBrace | RBrace | LParen | RParen | LBracket | RBracket | Lt | Gt | Comma | Semicolon | Colon
    | Equal | Star | Amp | At
    | LineComment | BlockComment | DocComment

  function Keywords(): map<string, Kind> {
    map[
      "include" := Include, "cpp_include" := CPPInclude, "cpp_type" := CPPType, "namespace" := Namespace,
      "struct" := Struct, "union" := Union, "exception" := Exception, "service" := Service, "enum" := Enum,
      "const" := Const, "typedef" := Typedef, "oneway" := Oneway, "async" := Async, "throws" := Throws,
      "extends" := Extends, "required" := Required, "optional" := Optional, "void" := Void, "bool" := Bool,
      "byte" := Byte, "i8" := I8, "i16" := I16, "i32" := I32, "i64" := I64, "double" := Double,
      "string" := String, "binary" := Binary, "slist" := Slist, "uuid" := UUID, "map" := Map, "list" := List,
      "set" := Set, "true" := True, "false" := False]
  }

  function Symbols(): map<char, Kind> {
    map[
      '{' := LBrace, '}' := RBrace, '(' := LParen, ')' := RParen, '[' := LBracket, ']' := RBracket,
      '<' := Lt, '>' := Gt, ',' := Comma, ';' := Semicolon, ':' := Colon, '=' := Equal, '@' := At]
  }

  datatype Token = Token(kind: Kind, text: string, offset: nat, line: nat, col: nat, blankLines: nat)

  datatype Message = UnterminatedComment | UnterminatedString | NewlineInString | InvalidEscape | UnexpectedCharacter

  datatype Error = Error(message: Message, offset: nat, line: nat, col: nat)

  predicate IsComment(k: Kind) {
    k == LineComment || k == BlockComment || k == DocComment
  }

  /** A token that is no comment. */
  predicate RealAt(toks: seq<Token>, i: int) {
    0 <= i < |toks| && !IsComment(toks[i].kind)
  }

  // ----- character classes -----

  predicate IsWhitespace(c: char) {
    c == ' ' || c == '\t' || c == '\n' || c == '\r'
  }

  predicate IsDigit(c: char) {
    '0' <= c <= '9'
  }

  predicate IsHexDigit(c: char) {
    IsDigit(c) || 'a' <= c <= 'f' || 'A' <= c <= 'F'
  }

  predicate IsIdentStart(c: char) {
    'a' <= c <= 'z' || 'A' <= c <= 'Z' || c == '_'
  }

  predicate IsIdentPart(c: char) {
    IsIdentStart(c) || IsDigit(c)
  }

  predicate IsSign(c: char) {
    c == '+' || c == '-'
  }

  predicate IsNewline(c: char) {
    c == '\n' || c == '\r'
  }

  function Peek(s: string, k: nat): char {
    if k < |s| then s[k] else '\0'
  }

  // ----- lines and columns -----

  /** A line ends before i: after "\n", or after a "\r" that "\n" does not follow. */
  predicate LineEndsAt(src: string, i: nat)
    requires i <= |src|
  {
    i > 0 && (src[i - 1] == '\n' || (src[i - 1] == '\r' && Peek(src, i) != '\n'))
  }

  /** The number of line terminators before off. */
  function Terminators(src: string, off: nat): nat
    requires off <= |src|
  {
    if off == 0 then 0 else Terminators(src, off - 1) + (if LineEndsAt(src, off) then 1 else 0)
  }

  function LineStart(src: string, off: nat): (r: nat)
    requires off <= |src|
    ensures r <= off
  {
    if off == 0 || LineEndsAt(src, off) then off else LineStart(src, off - 1)
  }

  /** The runes that start in src[from..to). */
  function Runes(src: string, from: nat, to: nat): nat
    requires from <= |src| && to <= |src|
    decreases |src| - from
  {
    if from >= to then 0 else 1 + Runes(src, from + RuneSize(src[from..]), to)
  }

  function LineAt(src: string, off: nat): nat
    requires off <= |src|
  {
    1 + Terminators(src, off)
  }

  /** 1 plus the runes since the line's start; a "\r" of "\r\n" is not counted. */
  function ColAt(src: string, off: nat): nat
    requires off <= |src|
  {
    1 + Runes(src, LineStart(src, off), if BetweenCRLF(src, off) then off - 1 else off)
  }

  function TokenAt(src: string, off: nat, kind: Kind, len: nat): Token
    requires off + len <= |src|
  {
    Token(kind, src[off..off + len], off, LineAt(src, off), ColAt(src, off), 0)
  }

  function ErrorAt(src: string, off: nat, m: Message): Error
    requires off <= |src|
  {
    Error(m, off, LineAt(src, off), ColAt(src, off))
  }

  // ----- lengths of the lexical classes at the start of s -----

  function WhitespaceLen(s: string): (n: nat)
    ensures n <= |s| && forall i :: 0 <= i < n ==> IsWhitespace(s[i])
    ensures n < |s| ==> !IsWhitespace(s[n])
  {
    if s == "" || !IsWhitespace(s[0]) then 0 else 1 + WhitespaceLen(s[1..])
  }

  /** Line terminators in s, "\r\n" counting once. */
  function Newlines(s: string): nat {
    if s == "" then 0
    else if s[0] == '\n' then 1 + Newlines(s[1..])
    else if s[0] == '\r' then 1 + Newlines(if Peek(s, 1) == '\n' then s[2..] else s[1..])
    else Newlines(s[1..])
  }

  function BlankLines(newlines: nat): nat {
    if newlines > 0 then newlines - 1 else 0
  }

  function LineCommentLen(s: string): (n: nat)
    ensures n <= |s|
  {
    if s == "" || IsNewline(s[0]) then 0 else RuneSize(s) + LineCommentLen(s[RuneSize(s)..])
  }

  datatype Block = Block(len: nat, kind: Kind, terminated: bool)

  /** The rest of a block comment s from i. */
  function BlockRest(s: string, i: nat, doc: bool): (b: Block)
    requires 2 <= i <= |s|
    ensures i <= b.len <= |s|
    decreases |s| - i
  {
    if i == |s| then Block(i, BlockComment, false)
    else if s[i] == '*' && Peek(s, i + 1) == '/' then Block(i + 2, if doc then DocComment else BlockComment, true)
    else if doc && i == 3 && s[i] == '/' then Block(i + 1, DocComment, true)
    else BlockRest(s, i + RuneSize(s[i..]), doc)
  }

  function BlockAt(s: string): (b: Block)
    requires |s| >= 2
    ensures 2 <= b.len <= |s|
  {
    BlockRest(s, 2, Peek(s, 2) == '*')
  }

  /** What continues an identifier, after its first character. */
  function IdentRest(s: string): (n: nat)
    ensures n <= |s|
  {
    if s == "" then 0
    else if IsIdentPart(s[0]) then 1 + IdentRest(s[1..])
    else if s[0] == '.' && IsIdentStart(Peek(s, 1)) then 2 + IdentRest(s[2..])
    else 0
  }

  /** The length of the identifier that s starts with. */
  function IdentLen(s: string): (n: nat)
    requires s != ""
    ensures 0 < n <= |s|
  {
    1 + IdentRest(s[1..])
  }

  function WordKind(text: string): Kind {
    if '.' !in text && text in Keywords() then Keywords()[text] else Identifier
  }

  function DigitRun(s: string): (n: nat)
    ensures n <= |s| && forall i :: 0 <= i < n ==> IsDigit(s[i])
    ensures n < |s| ==> !IsDigit(s[n])
  {
    if s == "" || !IsDigit(s[0]) then 0 else 1 + DigitRun(s[1..])
  }

  function HexRun(s: string): (n: nat)
    ensures n <= |s| && forall i :: 0 <= i < n ==> IsHexDigit(s[i])
    ensures n < |s| ==> !IsHexDigit(s[n])
  {
    if s == "" || !IsHexDigit(s[0]) then 0 else 1 + HexRun(s[1..])
  }

  function SignLen(s: string): (n: nat)
    ensures n <= |s|
  {
    if s != "" && IsSign(s[0]) then 1 else 0
  }

  /** [+-]? "0x" hex digits, or 0. */
  function HexLen(s: string): (n: nat)
    ensures n <= |s|
  {
    var i := SignLen(s);
    if i + 2 > |s| || s[i] != '0' || (s[i + 1] != 'x' && s[i + 1] != 'X') then 0
    else
      var digits := HexRun(s[i + 2..]);
      if digits == 0 then 0 else i + 2 + digits
  }

  /** [+-]? digits, or 0. */
  function IntLen(s: string): (n: nat)
    ensures n <= |s|
  {
    var i := SignLen(s);
    var digits := DigitRun(s[i..]);
    if digits == 0 then 0 else i + digits
  }

  /** The optional fraction at the start of s; None when a dot has no digit after it. */
  datatype Part = Bad | Good(len: nat)

  function Fraction(s: string): (p: Part)
    ensures p.Good? ==> p.len <= |s|
  {
    if s == "" || s[0] != '.' then Good(0)
    else
      var digits := DigitRun(s[1..]);
      if digits == 0 then Bad else Good(1 + digits)
  }

  function Exponent(s: string): (p: Part)
    ensures p.Good? ==> p.len <= |s|
  {
    if s == "" || (s[0] != 'e' && s[0] != 'E') then Good(0)
    else
      var j := 1 + SignLen(s[1..]);
      var digits := DigitRun(s[j..]);
      if digits == 0 then Bad else Good(j + digits)
  }

  /** [+-]? digits? fraction? exponent? with a digit before the exponent, or 0. */
  function DoubleLen(s: string): (n: nat)
    ensures n <= |s|
  {
    var i := SignLen(s);
    var digits := DigitRun(s[i..]);
    var f := Fraction(s[i + digits..]);
    if f.Bad? then 0
    else
      var j := i + digits + f.len;
      var e := Exponent(s[j..]);
      if e.Bad? || (digits == 0 && f.len == 0) then 0 else j + e.len
  }

  datatype Number = NoNumber | Number(len: nat, kind: Kind)

  /** The longest of hex, int and double; int wins ties against double. */
  function NumberAt(s: string): (r: Number)
    ensures r.Number? ==> 0 < r.len <= |s|
  {
    var hex, int', dub := HexLen(s), IntLen(s), DoubleLen(s);
    if hex > 0 && hex >= int' && hex >= dub then Number(hex, IntConstant)
    else if int' > 0 && int' >= dub then Number(int', IntConstant)
    else if dub > 0 then Number(dub, DoubleConstant)
    else NoNumber
  }

  predicate IsEscape(c: char) {
    c == 'r' || c == 'n' || c == 't' || c == '"' || c == '\'' || c == '\\'
  }

  /** An error at an offset into the literal. */
  datatype Flaw = Flaw(message: Message, at: nat)

  datatype Literal = Literal(len: nat, flaws: seq<Flaw>)

  /** The rest of a string literal s from i. */
  function StringRest(s: string, i: nat, quote: char): (r: Literal)
    requires 1 <= i <= |s|
    ensures i <= r.len <= |s|
    ensures forall k :: 0 <= k < |r.flaws| ==> r.flaws[k].at < |s|
    decreases |s| - i
  {
    if i == |s| then Literal(i, [Flaw(UnterminatedString, 0)])
    else if s[i] == quote then Literal(i + 1, [])
    else if IsNewline(s[i]) then Literal(i, [Flaw(NewlineInString, 0)])
    else if s[i] == '\\' then
      if i + 1 == |s| then Literal(i + 1, [Flaw(UnterminatedString, 0)])
      else if IsEscape(s[i + 1]) then StringRest(s, i + 2, quote)
      else
        var r := StringRest(s, i + 1 + RuneSize(s[i + 1..]), quote);
        Literal(r.len, [Flaw(InvalidEscape, i)] + r.flaws)
    else StringRest(s, i + RuneSize(s[i..]), quote)
  }

  // ----- one token -----

  /** What scanToken does at s, which is not at its end: take a token, or skip with or without an
      error. */
  datatype Action =
    | Take(kind: Kind, len: nat, flaws: seq<Flaw>)
    | Skip(len: nat, flaws: seq<Flaw>)

  predicate StartsNumber(s: string)
    requires s != ""
  {
    IsDigit(s[0]) || IsSign(s[0]) || (s[0] == '.' && IsDigit(Peek(s, 1)))
  }

  predicate StartsLineComment(s: string) {
    s != "" && ((s[0] == '/' && Peek(s, 1) == '/') || s[0] == '#')
  }

  predicate StartsBlockComment(s: string) {
    |s| >= 2 && s[0] == '/' && s[1] == '*'
  }

  function Unexpected(s: string): Action
    requires s != ""
  {
    Skip(RuneSize(s), [Flaw(UnexpectedCharacter, 0)])
  }

  function BlockFlaws(b: Block): seq<Flaw> {
    if b.terminated then [] else [Flaw(UnterminatedComment, 0)]
  }

  function ActionAt(s: string): (a: Action)
    requires s != ""
    ensures 0 < a.len <= |s|
    ensures forall k :: 0 <= k < |a.flaws| ==> a.flaws[k].at < |s|
  {
    if IsIdentStart(s[0]) then
      var n := IdentLen(s);
      Take(WordKind(s[..n]), n, [])
    else if StartsNumber(s) then
      var n := NumberAt(s);
      if n.Number? then Take(n.kind, n.len, []) else Unexpected(s)
    else if s[0] == '\'' || s[0] == '"' then
      var r := StringRest(s, 1, s[0]);
      Take(StringLiteral, r.len, r.flaws)
    else if s[0] == '&' then Take(Amp, 1, [])
    else if s[0] == '*' then Take(Star, 1, [])
    else if IsWhitespace(s[0]) then Skip(1, [])
    else if StartsLineComment(s) && s[0] == '/' then Skip(LineCommentLen(s), [])
    else if StartsBlockComment(s) then
      var b := BlockAt(s);
      Skip(b.len, BlockFlaws(b))
    else if s[0] == '#' then Skip(LineCommentLen(s), [])
    else if s[0] in Symbols() then Take(Symbols()[s[0]], 1, [])
    else Unexpected(s)
  }

  function Errors(src: string, off: nat, flaws: seq<Flaw>): (r: seq<Error>)
    requires off <= |src| && forall k :: 0 <= k < |flaws| ==> off + flaws[k].at <= |src|
    ensures |r| == |flaws|
  {
    seq(|flaws|, k requires 0 <= k < |flaws| => ErrorAt(src, off + flaws[k].at, flaws[k].message))
  }

  datatype Scan = Scan(token: Token, off: nat, errs: seq<Error>)

  /** scanToken: the token and the offset after it. */
  function ScanToken(src: string, off: nat): (r: Scan)
    requires off <= |src|
    ensures off <= r.off <= |src|
    ensures r.token.kind != EOF ==> off < r.off
    decreases |src| - off
  {
    if off == |src| then Scan(TokenAt(src, off, EOF, 0), off, [])
    else
      var a := ActionAt(src[off..]);
      var errs := Errors(src, off, a.flaws);
      if a.Take? then Scan(TokenAt(src, off, a.kind, a.len), off + a.len, errs)
      else
        var r := ScanToken(src, off + a.len);
        r.(errs := errs + r.errs)
  }

  // ----- trivia -----

  datatype Trivia = Trivia(blankLines: nat, comments: seq<Token>, off: nat, errs: seq<Error>)

  /** scanTrivia from off, with blank lines counted since the last stream entry. */
  function ScanTrivia(src: string, off: nat, blank: nat): (r: Trivia)
    requires off <= |src|
    ensures off <= r.off <= |src|
    decreases |src| - off
  {
    var s := src[off..];
    if s == "" then Trivia(blank, [], off, [])
    else if IsWhitespace(s[0]) then
      var n := WhitespaceLen(s);
      ScanTrivia(src, off + n, blank + BlankLines(Newlines(s[..n])))
    else if StartsLineComment(s) then
      var n := LineCommentLen(s);
      var r := ScanTrivia(src, off + n, 0);
      r.(comments := [TokenAt(src, off, LineComment, n).(blankLines := blank)] + r.comments)
    else if StartsBlockComment(s) then
      var b := BlockAt(s);
      var r := ScanTrivia(src, off + b.len, 0);
      r.(comments := [TokenAt(src, off, b.kind, b.len).(blankLines := blank)] + r.comments,
         errs := Errors(src, off, BlockFlaws(b)) + r.errs)
    else Trivia(blank, [], off, [])
  }

  // ----- the stream -----

  datatype Stream = Stream(tokens: seq<Token>, errs: seq<Error>)

  function LexFrom(src: string, off: nat): Stream
    requires off <= |src|
    decreases |src| - off
  {
    var t := ScanTrivia(src, off, 0);
    var r := ScanToken(src, t.off);
    var entry := t.comments + [r.token.(blankLines := t.blankLines)];
    if r.token.kind == EOF then Stream(entry, t.errs + r.errs)
    else
      var rest := LexFrom(src, r.off);
      Stream(entry + rest.tokens, t.errs + r.errs + rest.errs)
  }

  function Lex(src: string): Stream {
    LexFrom(src, 0)
  }
}
