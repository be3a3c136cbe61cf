/** The text of a type reference and its tokens (formatter/type.go). */
module TypeText {
  import opened Utf8
  import opened Lexing
  import opened LexRoundTrip
  import opened Ast
  import opened Spelling
  import opened Wrappers

  /** A type without annotations; cpp is the literal of an optional cpp_type. */
  datatype FieldType =
    | Base(kind: Kind)
    | Ident(text: string)
    | MapType(cpp: Option<string>, key: FieldType, value: FieldType)
    | ListType(cpp: Option<string>, value: FieldType)
    | SetType(cpp: Option<string>, value: FieldType)

  predicate IsBaseType(k: Kind) {
    k == Bool || k == Byte || k == I8 || k == I16 || k == I32 || k == I64 || k == Double || k == String || k == Binary
    || k == Slist || k == UUID
  }

  function Render(t: FieldType): string {
    match t
    case Base(k) => KeywordText(k)
    case Ident(text) => text
    case MapType(cpp, key, value) => Bracketed("map", cpp, Render(key) + ", " + Render(value))
    case ListType(cpp, value) => Bracketed("list", cpp, Render(value))
    case SetType(cpp, value) => Bracketed("set", cpp, Render(value))
  }

  function Bracketed(kind: string, cpp: Option<string>, inner: string): string {
    if cpp.Some? then kind + " cpp_type " + cpp.value + " <" + inner + ">" else kind + "<" + inner + ">"
  }

  // ----- the tokens -----

  function Opening(k: Kind, text: string, cpp: Option<string>): seq<Word> {
    [Word(k, text)] + (if cpp.Some? then [Word(CPPType, "cpp_type"), Word(StringLiteral, cpp.value)] else [])
    + [Word(Lt, "<")]
  }

  /** The tokens a type is written with. */
  function Words(t: FieldType): (ws: seq<Word>)
    ensures ws != []
  {
    match t
    case Base(k) => [Word(k, KeywordText(k))]
    case Ident(text) => [Word(Identifier, text)]
    case MapType(cpp, key, value) =>
      Opening(Map, "map", cpp) + Words(key) + [Word(Comma, ",")] + Words(value) + [Word(Gt, ">")]
    case ListType(cpp, value) => Opening(List, "list", cpp) + Words(value) + [Word(Gt, ">")]
    case SetType(cpp, value) => Opening(Set, "set", cpp) + Words(value) + [Word(Gt, ">")]
  }

  /** Base kinds are base types, names are identifiers and cpp types are string literals. */
  ghost predicate WellFormed(t: FieldType) {
    match t
    case Base(k) => IsBaseType(k)
    case Ident(text) => IsWord(Word(Identifier, text))
    case MapType(cpp, key, value) => CppOK(cpp) && WellFormed(key) && WellFormed(value)
    case ListType(cpp, value) => CppOK(cpp) && WellFormed(value)
    case SetType(cpp, value) => CppOK(cpp) && WellFormed(value)
  }

  ghost predicate CppOK(cpp: Option<string>) {
    cpp.Some? ==> IsWord(Word(StringLiteral, cpp.value))
  }

  // ----- the text is the joined tokens -----

  lemma TypeStarts(t: FieldType)
    requires WellFormed(t)
    ensures var ws := Words(t);
            StartsType(ws[0].kind)
  {
    hide IsWord, KeywordText;
  }

  lemma OpeningText(k: Kind, text: string, cpp: Option<string>)
    requires Container(k)
    ensures Joined(Opening(k, text, cpp)) == text + (if cpp.Some? then " cpp_type " + cpp.value + " " else "") + "<"
  {
    hide Joined, RawTokenGap;
    var w, lt := Word(k, text), Word(Lt, "<");
    OneWord(lt);
    OpeningGaps(k);
    if cpp.Some? {
      var c, l := Word(CPPType, "cpp_type"), Word(StringLiteral, cpp.value);
      JoinedFront(l, [lt]);
      JoinedFront(c, [l] + [lt]);
      JoinedFront(w, [c] + ([l] + [lt]));
      assert Opening(k, text, cpp) == [w] + ([c] + ([l] + [lt]));
    } else {
      JoinedFront(w, [lt]);
      assert Opening(k, text, cpp) == [w] + [lt];
    }
  }

  lemma OpeningGaps(k: Kind)
    requires Container(k)
    ensures RawTokenGap(k, Lt) == "" && RawTokenGap(k, CPPType) == " " && RawTokenGap(CPPType, StringLiteral) == " "
    ensures RawTokenGap(StringLiteral, Lt) == " "
  {
  }

  predicate StartsType(k: Kind) {
    IsBaseType(k) || k == Identifier || Container(k)
  }

  lemma GapBeforeCloser(k: Kind)
    ensures RawTokenGap(k, Comma) == "" && RawTokenGap(k, Gt) == ""
  {
    hide Opener, Container;
  }

  lemma GapAfterLt(k: Kind)
    ensures RawTokenGap(Lt, k) == ""
  {
    hide Closer;
  }

  lemma NotCloser(k: Kind)
    requires StartsType(k)
    ensures !Closer(k)
  {
  }

  lemma GapAfterComma(k: Kind)
    requires StartsType(k)
    ensures RawTokenGap(Comma, k) == " "
  {
    hide Closer, StartsType;
    NotCloser(k);
  }

  /** The text of a type is its tokens with their canonical gaps. */
  lemma {:induction false} TextIsJoined(t: FieldType)
    requires WellFormed(t)
    ensures Render(t) == Joined(Words(t))
    decreases t
  {
    hide Joined, Opening, IsWord, KeywordText, CppOK, Bracketed;
    match t {
      case Base(k) => OneWord(Word(k, KeywordText(k)));
      case Ident(text) => OneWord(Word(Identifier, text));
      case MapType(cpp, key, value) =>
        TextIsJoined(key);
        TextIsJoined(value);
        PairText(key, value);
        ContainerText(Map, "map", cpp, Words(key) + [Word(Comma, ",")] + Words(value));
        Regroup(Opening(Map, "map", cpp), Words(key), Words(value));
      case ListType(cpp, value) =>
        TextIsJoined(value);
        ContainerText(List, "list", cpp, Words(value));
      case SetType(cpp, value) =>
        TextIsJoined(value);
        ContainerText(Set, "set", cpp, Words(value));
    }
  }

  lemma Regroup(open: seq<Word>, key: seq<Word>, value: seq<Word>)
    ensures open + key + [Word(Comma, ",")] + value + [Word(Gt, ">")] ==
            open + (key + [Word(Comma, ",")] + value) + [Word(Gt, ">")]
  {
  }

  lemma PairText(key: FieldType, value: FieldType)
    requires WellFormed(key) && WellFormed(value)
    ensures Joined(Words(key) + [Word(Comma, ",")] + Words(value)) == Joined(Words(key)) + ", " + Joined(Words(value))
  {
    hide Joined, Words, WellFormed, RawTokenGap, GapBetween, StartsType;
    var a, comma, b := Words(key), [Word(Comma, ",")], Words(value);
    TypeStarts(value);
    JoinedConcat(a, comma);
    JoinedConcat(a + comma, b);
    OneWord(Word(Comma, ","));
    GapIs(a, comma);
    GapIs(a + comma, b);
    GapBeforeCloser(a[|a| - 1].kind);
    GapAfterComma(b[0].kind);
  }

  lemma GapIs(a: seq<Word>, b: seq<Word>)
    requires a != [] && b != []
    ensures GapBetween(a, b) == RawTokenGap(a[|a| - 1].kind, b[0].kind)
  {
  }

  lemma ContainerText(k: Kind, text: string, cpp: Option<string>, inner: seq<Word>)
    requires Container(k) && inner != []
    ensures Joined(Opening(k, text, cpp) + inner + [Word(Gt, ">")]) == Bracketed(text, cpp, Joined(inner))
  {
    hide Joined, RawTokenGap, GapBetween, Container;
    var open, close := Opening(k, text, cpp), [Word(Gt, ">")];
    OpeningText(k, text, cpp);
    JoinedConcat(open, inner);
    JoinedConcat(open + inner, close);
    OneWord(Word(Gt, ">"));
    assert open[|open| - 1] == Word(Lt, "<");
    GapIs(open, inner);
    GapIs(open + inner, close);
    GapAfterLt(inner[0].kind);
    GapBeforeCloser((open + inner)[|open + inner| - 1].kind);
  }

  // ----- the tokens of the text -----

  lemma SymbolIsWord(c: char)
    requires c == '<' || c == '>' || c == ','
    ensures IsWord(Word(Symbols()[c], [c]))
  {
    hide IdentRest, NumberAt, StringRest, RuneSize, Keywords;
    assert [c] + "" == [c];
    assert Lexeme(Word(Symbols()[c], [c]), "");
  }

  lemma TypeKeyword(k: Kind)
    requires IsBaseType(k)
    ensures IsWord(Word(k, KeywordText(k)))
  {
    hide IsWord, KeywordText;
    if k == Bool || k == Byte {
      ShortKeyword(k);
    } else if k == I8 || k == I16 {
      SmallKeyword(k);
    } else if k == I32 || k == I64 {
      WideKeyword(k);
    } else if k == Double || k == String {
      TextKeyword(k);
    } else if k == Binary {
      PlainKeyword(k);
    } else {
      OtherKeyword(k);
    }
  }

  lemma ShortKeyword(k: Kind)
    requires k == Bool || k == Byte
    ensures IsWord(Word(k, KeywordText(k)))
  {
    hide IsWord;
    match k {
      case Bool => KeywordIsWord("bool", Bool);
      case Byte => KeywordIsWord("byte", Byte);
    }
  }

  lemma SmallKeyword(k: Kind)
    requires k == I8 || k == I16
    ensures IsWord(Word(k, KeywordText(k)))
  {
    hide IsWord;
    match k {
      case I8 => KeywordIsWord("i8", I8);
      case I16 => KeywordIsWord("i16", I16);
    }
  }

  lemma WideKeyword(k: Kind)
    requires k == I32 || k == I64
    ensures IsWord(Word(k, KeywordText(k)))
  {
    hide IsWord;
    match k {
      case I32 => KeywordIsWord("i32", I32);
      case I64 => KeywordIsWord("i64", I64);
    }
  }

  lemma TextKeyword(k: Kind)
    requires k == Double || k == String
    ensures IsWord(Word(k, KeywordText(k)))
  {
    hide IsWord;
    match k {
      case Double => KeywordIsWord("double", Double);
      case String => KeywordIsWord("string", String);
    }
  }

  lemma PlainKeyword(k: Kind)
    requires k == Binary
    ensures IsWord(Word(k, KeywordText(k)))
  {
    hide IsWord;
    KeywordIsWord("binary", Binary);
  }

  lemma OtherKeyword(k: Kind)
    requires k == Slist || k == UUID
    ensures IsWord(Word(k, KeywordText(k)))
  {
    hide IsWord;
    match k {
      case Slist => KeywordIsWord("slist", Slist);
      case UUID => KeywordIsWord("uuid", UUID);
    }
  }

  lemma ContainerKeywords()
    ensures IsWord(Word(Map, "map")) && IsWord(Word(List, "list")) && IsWord(Word(Set, "set"))
            && IsWord(Word(CPPType, "cpp_type"))
  {
    hide IsWord;
    KeywordIsWord("map", Map);
    KeywordIsWord("list", List);
    KeywordIsWord("set", Set);
    KeywordIsWord("cpp_type", CPPType);
  }

  lemma OpeningWords(k: Kind, text: string, cpp: Option<string>)
    requires IsWord(Word(k, text)) && CppOK(cpp)
    ensures AllWords(Opening(k, text, cpp))
  {
    hide IsWord;
    ContainerKeywords();
    SymbolIsWord('<');
    SymbolKinds();
  }

  lemma SymbolKinds()
    ensures Symbols()['<'] == Lt && Symbols()['>'] == Gt && Symbols()[','] == Comma
  {
  }

  lemma {:induction false} TypeWords(t: FieldType)
    requires WellFormed(t)
    ensures AllWords(Words(t))
    decreases t
  {
    hide IsWord, Opening, AllWords, CppOK, IsBaseType, KeywordText;
    ContainerKeywords();
    SymbolKinds();
    SymbolIsWord('>');
    SymbolIsWord(',');
    OneIsWord(Word(Gt, ">"));
    OneIsWord(Word(Comma, ","));
    match t {
      case Base(k) =>
        TypeKeyword(k);
        OneIsWord(Word(k, KeywordText(k)));
      case Ident(text) => OneIsWord(Word(Identifier, text));
      case MapType(cpp, key, value) =>
        OpeningWords(Map, "map", cpp);
        TypeWords(key);
        TypeWords(value);
        FiveWords(Opening(Map, "map", cpp), Words(key), [Word(Comma, ",")], Words(value), [Word(Gt, ">")]);
      case ListType(cpp, value) =>
        OpeningWords(List, "list", cpp);
        TypeWords(value);
        FiveWords(Opening(List, "list", cpp), Words(value), [], [], [Word(Gt, ">")]);
      case SetType(cpp, value) =>
        OpeningWords(Set, "set", cpp);
        TypeWords(value);
        FiveWords(Opening(Set, "set", cpp), Words(value), [], [], [Word(Gt, ">")]);
    }
  }

  lemma FiveWords(a: seq<Word>, b: seq<Word>, c: seq<Word>, d: seq<Word>, e: seq<Word>)
    requires AllWords(a) && AllWords(b) && AllWords(e) && (c == [] || AllWords(c)) && (d == [] || AllWords(d))
    ensures AllWords(a + b + c + d + e) && (c == d == [] ==> AllWords(a + b + e))
  {
    hide IsWord;
    AllWordsConcat(a, b);
    AllWordsConcat(a + b, e);
    if c != [] && d != [] {
      AllWordsConcat(a + b, c);
      AllWordsConcat(a + b + c, d);
      AllWordsConcat(a + b + c + d, e);
    }
  }

  /** The text of a type lexes, without errors, to its tokens. */
  lemma TextLexes(t: FieldType)
    requires WellFormed(t)
    ensures Lex(Render(t)).errs == [] && WordsOf(Lex(Render(t)).tokens) == Words(t) + [Word(EOF, "")]
  {
    hide WellFormed, Words, Render, Joined, AllWords, LexFrom;
    TextIsJoined(t);
    TypeWords(t);
    var text := Render(t);
    assert text[0..] == "" + Joined(Words(t));
    JoinedLexes(text, 0, "", Words(t));
  }
}
