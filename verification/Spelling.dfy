/** How the tokens that are always written the same are written (syntax/token.go, syntax/lexer.go). */
module Spelling {
  import opened Utf8
  import opened Lexing
  import opened LexProps
  import opened LexRoundTrip

  /** The text of a keyword or a symbol; other tokens have no text of their own. */
  function KeywordText(k: Kind): string {
    match k
    case Include => "include"
    case CPPInclude => "cpp_include"
    case CPPType => "cpp_type"
    case Namespace => "namespace"
    case Struct => "struct"
    case Union => "union"
    case Exception => "exception"
    case Service => "service"
    case Enum => "enum"
    case Const => "const"
    case Typedef => "typedef"
    case Oneway => "oneway"
    case Async => "async"
    case Throws => "throws"
    case Extends => "extends"
    case Required => "required"
    case Optional => "optional"
    case Void => "void"
    case Bool => "bool"
    case Byte => "byte"
    case I8 => "i8"
    case I16 => "i16"
    case I32 => "i32"
    case I64 => "i64"
    case Double => "double"
    case String => "string"
    case Binary => "binary"
    case Slist => "slist"
    case UUID => "uuid"
    case Map => "map"
    case List => "list"
    case Set => "set"
    case True => "true"
    case False => "false"
    case LBrace => "{"
    case RBrace => "}"
    case LParen => "("
    case RParen => ")"
    case LBracket => "["
    case RBracket => "]"
    case Lt => "<"
    case Gt => ">"
    case Comma => ","
    case Semicolon => ";"
    case Colon => ":"
    case Equal => "="
    case Star => "*"
    case Amp => "&"
    case At => "@"
    case _ => ""
  }

  predicate Fixed(k: Kind) {
    KeywordText(k) != ""
  }

  predicate Heads(k: Kind) {
    k == Include || k == CPPInclude || k == CPPType || k == Namespace || k == Struct || k == Union || k == Exception
    || k == Service || k == Enum || k == Const || k == Typedef
  }

  predicate Modifies(k: Kind) {
    k == Oneway || k == Async || k == Throws || k == Extends || k == Required || k == Optional || k == Void
    || k == True || k == False
  }

  predicate Types(k: Kind) {
    k == Bool || k == Byte || k == I8 || k == I16 || k == I32 || k == I64 || k == Double || k == String || k == Binary
    || k == Slist || k == UUID || k == Map || k == List || k == Set
  }

  lemma HeadIs(text: string)
    requires text in Keywords() && Heads(Keywords()[text])
    ensures KeywordText(Keywords()[text]) == text
  {
  }

  lemma ModifierIs(text: string)
    requires text in Keywords() && Modifies(Keywords()[text])
    ensures KeywordText(Keywords()[text]) == text
  {
  }

  lemma TypeIs(text: string)
    requires text in Keywords() && Types(Keywords()[text])
    ensures KeywordText(Keywords()[text]) == text
  {
  }

  lemma SomeKeyword(text: string)
    requires text in Keywords()
    ensures var k := Keywords()[text]; Heads(k) || Modifies(k) || Types(k)
  {
    hide KeywordText;
  }

  lemma KeywordIs(text: string)
    requires text in Keywords()
    ensures KeywordText(Keywords()[text]) == text
  {
    hide *;
    SomeKeyword(text);
    if Heads(Keywords()[text]) {
      HeadIs(text);
    } else if Modifies(Keywords()[text]) {
      ModifierIs(text);
    } else {
      TypeIs(text);
    }
  }

  predicate Bracket(k: Kind) {
    k == LBrace || k == RBrace || k == LParen || k == RParen || k == LBracket || k == RBracket || k == Lt || k == Gt
  }

  lemma BracketIs(c: char)
    requires c in Symbols() && Bracket(Symbols()[c])
    ensures KeywordText(Symbols()[c]) == [c]
  {
    hide Keywords;
  }

  lemma SeparatorIs(c: char)
    requires c in Symbols() && !Bracket(Symbols()[c])
    ensures Symbols()[c] == match c case ',' => Comma case ';' => Semicolon case ':' => Colon case '=' =>
      Equal case _ => At
    ensures c == ',' || c == ';' || c == ':' || c == '=' || c == '@'
  {
    hide Keywords, KeywordText;
  }

  lemma SeparatorTexts()
    ensures KeywordText(Comma) == "," && KeywordText(Semicolon) == ";"
  {
  }

  lemma MarkTexts()
    ensures KeywordText(Colon) == ":" && KeywordText(Equal) == "=" && KeywordText(At) == "@"
  {
  }

  lemma SymbolIs(c: char)
    requires c in Symbols()
    ensures KeywordText(Symbols()[c]) == [c]
  {
    hide *;
    if Bracket(Symbols()[c]) {
      BracketIs(c);
    } else {
      SeparatorIs(c);
      SeparatorTexts();
      MarkTexts();
    }
  }

  lemma OthersAre()
    ensures !Fixed(Identifier) && !Fixed(IntConstant) && !Fixed(DoubleConstant) && !Fixed(StringLiteral)
    ensures KeywordText(Star) == "*" && KeywordText(Amp) == "&"
  {
  }

  /** A word that is a keyword is spelled like it. */
  lemma WordIs(text: string)
    ensures Fixed(WordKind(text)) ==> text == KeywordText(WordKind(text))
  {
    hide KeywordText, Keywords;
    OthersAre();
    if text in Keywords() {
      KeywordIs(text);
    }
  }

  /** The lexer takes a keyword or a symbol exactly for its text. */
  lemma FixedText(w: Word)
    requires IsWord(w) && Fixed(w.kind)
    ensures w.text == KeywordText(w.kind)
  {
    hide KeywordText, WordKind, NumberAt, StringRest, Symbols, BlockAt, LineCommentLen, IdentLen, StartsNumber;
    var r: string :| Lexeme(w, r);
    var s := w.text + r;
    assert s[..|w.text|] == w.text;
    OthersAre();
    WordIs(w.text);
    if s[0] in Symbols() {
      SymbolIs(s[0]);
    }
    if IsIdentStart(s[0]) {
    } else if StartsNumber(s) {
      NumberKinds(s);
    } else {
      assert w.text == [s[0]] || w.kind == StringLiteral;
    }
  }

  // ----- how tokens are spaced -----

  lemma Attached(w: Word, ws: seq<Word>, text: string)
    requires ws != [] && Joined(ws) == text && RawTokenGap(w.kind, ws[0].kind) == ""
    ensures Joined([w] + ws) == w.text + text
  {
    hide RawTokenGap, Joined;
    JoinedFront(w, ws);
    assert w.text + "" == w.text;
  }

  lemma Apart(w: Word, ws: seq<Word>, text: string)
    requires ws != [] && Joined(ws) == text && RawTokenGap(w.kind, ws[0].kind) == " "
    ensures Joined([w] + ws) == w.text + " " + text
  {
    hide RawTokenGap, Joined;
    JoinedFront(w, ws);
  }

  lemma Gaps()
    ensures RawTokenGap(IntConstant, Colon) == "" && RawTokenGap(Colon, Map) == " " && RawTokenGap(Map, Lt) == ""
    ensures RawTokenGap(Lt, Identifier) == "" && RawTokenGap(Identifier, Comma) == ""
    ensures RawTokenGap(Comma, Identifier) == " " && RawTokenGap(Identifier, Gt) == ""
    ensures RawTokenGap(Gt, Identifier) == " "
  {
  }

  /** The tokens of a field in canonical spacing: closing brackets, commas and colons attach to what is before them,
      and opening ones to what is behind. */
  lemma FieldSpaced(id: string, key: string, value: string, name: string)
    ensures Joined([Word(IntConstant, id)] + ([Word(Colon, ":")] + ([Word(Map, "map")] + ([Word(Lt, "<")]
                   + ([Word(Identifier, key)] + ([Word(Comma, ",")] + ([Word(Identifier, value)] + ([Word(Gt, ">")]
                   + ([Word(Identifier, name)] + [Word(Comma, ",")])))))))))
         == id + (":" + " " + ("map" + ("<" + (key + ("," + " " + (value + (">" + " " + (name + ","))))))))
  {
    hide Joined, RawTokenGap, KeywordText;
    Gaps();
    var a, s := [Word(Comma, ",")], ",";
    OneWord(Word(Comma, ","));
    Attached(Word(Identifier, name), a, s);
    a, s := [Word(Identifier, name)] + a, name + s;
    Apart(Word(Gt, ">"), a, s);
    a, s := [Word(Gt, ">")] + a, ">" + " " + s;
    Attached(Word(Identifier, value), a, s);
    a, s := [Word(Identifier, value)] + a, value + s;
    Apart(Word(Comma, ","), a, s);
    a, s := [Word(Comma, ",")] + a, "," + " " + s;
    Attached(Word(Identifier, key), a, s);
    a, s := [Word(Identifier, key)] + a, key + s;
    Attached(Word(Lt, "<"), a, s);
    a, s := [Word(Lt, "<")] + a, "<" + s;
    Attached(Word(Map, "map"), a, s);
    a, s := [Word(Map, "map")] + a, "map" + s;
    Apart(Word(Colon, ":"), a, s);
    a, s := [Word(Colon, ":")] + a, ":" + " " + s;
    Attached(Word(IntConstant, id), a, s);
  }
}
