/** Types without annotations: parsing their tokens, and their text, gives them back (syntax/parser.go,
    formatter/type.go). */
module TypeGrammar {
  import opened Lexing
  import opened Ast
  import opened TypeText
  import opened Grammar
  import opened LexRoundTrip
  import opened Reading
  import opened Spelling
  import Documents
  import ParserRules
  import opened Wrappers

  // ----- the tokens of a type -----

  /** The base types of t are base types. */
  predicate Typed(t: FieldType) {
    match t
    case Base(k) => IsBaseType(k)
    case Ident(_) => true
    case MapType(_, key, value) => Typed(key) && Typed(value)
    case ListType(_, value) => Typed(value)
    case SetType(_, value) => Typed(value)
  }

  /** The tokens from p on are ws, without comments in between. */
  ghost predicate Spelled(toks: seq<Token>, p: nat, ws: seq<Word>) {
    p + |ws| <= |toks| && forall i :: 0 <= i < |ws| ==> Word(toks[p + i].kind, toks[p + i].text) == ws[i]
  }

  lemma SpelledSplit(toks: seq<Token>, p: nat, a: seq<Word>, b: seq<Word>)
    requires Spelled(toks, p, a + b)
    ensures Spelled(toks, p, a) && Spelled(toks, p + |a|, b)
  {
    var ws := a + b;
    forall i | 0 <= i < |a| ensures Word(toks[p + i].kind, toks[p + i].text) == a[i] {
      assert ws[i] == a[i];
    }
    forall i | 0 <= i < |b| ensures Word(toks[p + |a| + i].kind, toks[p + |a| + i].text) == b[i] {
      assert ws[|a| + i] == b[i];
    }
  }

  /** One token that is no comment and no EOF. */
  lemma Sees(toks: seq<Token>, p: nat, w: Word)
    requires Spelled(toks, p, [w]) && !IsComment(w.kind) && w.kind != EOF
    ensures KindAt(toks, p) == w.kind && Index(toks, p) == p && Past(toks, p) == p + 1 && toks[p].text == w.text
  {
    assert Word(toks[p + 0].kind, toks[p + 0].text) == [w][0];
  }

  /** The node is the type t, without annotations. */
  ghost predicate Denotes(toks: seq<Token>, n: Node, t: FieldType)
    decreases t
  {
    match t
    case Base(k) => n.form == BaseTypeForm(k) && n.parts == []
    case Ident(text) =>
      n.form == NamedTypeForm && |n.parts| == 1 && n.parts[0].role == NameRole && TextOf(toks, n.parts[0].node, text)
    case MapType(cpp, key, value) =>
      var c := Count(cpp);
      && n.form == MapTypeForm && |n.parts| == c + 2 && CppDenoted(toks, n.parts, cpp)
      && n.parts[c].role == KeyRole && Denotes(toks, n.parts[c].node, key)
      && n.parts[c + 1].role == ValueRole && Denotes(toks, n.parts[c + 1].node, value)
    case ListType(cpp, value) =>
      var c := Count(cpp);
      && n.form == ListTypeForm && |n.parts| == c + 1 && CppDenoted(toks, n.parts, cpp)
      && n.parts[c].role == ValueRole && Denotes(toks, n.parts[c].node, value)
    case SetType(cpp, value) =>
      var c := Count(cpp);
      && n.form == SetTypeForm && |n.parts| == c + 1 && CppDenoted(toks, n.parts, cpp)
      && n.parts[c].role == ValueRole && Denotes(toks, n.parts[c].node, value)
  }

  predicate TextOf(toks: seq<Token>, n: Node, text: string) {
    n.first == n.last < |toks| && toks[n.first].text == text
  }

  function Count(cpp: Option<string>): nat {
    if cpp.Some? then 1 else 0
  }

  predicate CppDenoted(toks: seq<Token>, parts: seq<Child>, cpp: Option<string>) {
    cpp.Some? ==> parts != [] && parts[0].role == CPPTypeRole && TextOf(toks, parts[0].node, cpp.value)
  }

  function CppWords(cpp: Option<string>): seq<Word> {
    if cpp.Some? then [Word(CPPType, "cpp_type"), Word(StringLiteral, cpp.value)] else []
  }

  /** An optional cpp type and "<" are read where they are spelled. */
  lemma CppRead(toks: seq<Token>, p: nat, cpp: Option<string>, q: nat, rest: Rule) returns (c: seq<Child>)
    requires p <= |toks| && Spelled(toks, p, CppWords(cpp) + [Word(Lt, "<")]) && q == p + |CppWords(cpp)| + 1
    ensures q <= |toks| && |c| == Count(cpp) && CppDenoted(toks, c, cpp)
    ensures Onward(toks, [], p, CppType(Tok(Lt, rest))) == Onward(toks, c, q, rest)
  {
    hide Spelled, Index, KindAt, CppDenoted, Onward, Past, CppType;
    SpelledSplit(toks, p, CppWords(cpp), [Word(Lt, "<")]);
    SpelledFits(toks, q - 1, [Word(Lt, "<")]);
    Sees(toks, q - 1, Word(Lt, "<"));
    OnwardCpp(toks, [], p, Tok(Lt, rest));
    if cpp.Some? {
      c := [Child(CPPTypeRole, Leaf(p + 1))];
      CppWordsSpelled(toks, p, cpp.value);
      assert [] + c == c;
    } else {
      c := [];
      NothingDenoted(toks);
    }
    OnwardTok(toks, c, q - 1, Lt, rest);
  }

  lemma NothingDenoted(toks: seq<Token>)
    ensures CppDenoted(toks, [], None)
  {
  }

  lemma CppWordsSpelled(toks: seq<Token>, p: nat, literal: string)
    requires Spelled(toks, p, CppWords(Some(literal)))
    ensures p + 2 <= |toks| && KindAt(toks, p) == CPPType && Past(toks, p) == p + 1
    ensures KindAt(toks, p + 1) == StringLiteral && Past(toks, p + 1) == p + 2 && Index(toks, p + 1) == p + 1
    ensures CppDenoted(toks, [Child(CPPTypeRole, Leaf(p + 1))], Some(literal))
  {
    hide Spelled, Index, KindAt, Past;
    var a, b := Word(CPPType, "cpp_type"), Word(StringLiteral, literal);
    assert CppWords(Some(literal)) == [a] + [b];
    SpelledSplit(toks, p, [a], [b]);
    SpelledFits(toks, p + 1, [b]);
    Sees(toks, p, a);
    Sees(toks, p + 1, b);
  }

  /** The words of a container. */
  function Around(w: Word, cpp: seq<Word>, inner: seq<Word>): (r: seq<Word>)
    ensures |r| == |cpp| + |inner| + 3
  {
    [w] + (cpp + [Word(Lt, "<")]) + inner + [Word(Gt, ">")]
  }

  /** A node whose production is read from p on. */
  lemma NodeFound(toks: seq<Token>, p: nat, category: Category, form: Form, parts: seq<Child>, next: nat)
    requires p <= |toks| && Choose(category, KindAt(toks, p)) == Some(form) && Index(toks, p) == p < next
    requires Onward(toks, [], p, Production(form)) == Some(Parts(parts, next))
    ensures NodeAt(toks, p, category) == Some(NodeParse(Node(form, p, next - 1, parts), next))
  {
    hide Choose, KindAt, Index, Production, Read;
    OntoNothing(Read(toks, p, Production(form)));
  }

  /** What ends a container: ">", and no annotations. */
  lemma CloseRead(toks: seq<Token>, parts: seq<Child>, gt: nat)
    requires gt < |toks| && KindAt(toks, gt) == Gt && Past(toks, gt) == gt + 1 && KindAt(toks, gt + 1) != LParen
    ensures Onward(toks, parts, gt, Tok(Gt, Annotated(End))) == Some(Parts(parts, gt + 1))
  {
    hide KindAt, Past, Onward;
    OnwardTok(toks, parts, gt, Gt, Annotated(End));
    OnwardOptPart(toks, parts, gt + 1, AnnotationsRole, AnnotationsNode, End);
    OnwardEnd(toks, parts, gt + 1);
  }

  /** The keyword and the brackets of a container are where its words are. */
  lemma ContainerSees(toks: seq<Token>, p: nat, w: Word, cpp: seq<Word>, inner: seq<Word>, lt: nat, gt: nat)
    requires lt == p + 1 + |cpp| && gt == lt + 1 + |inner|
    requires Container(w.kind) && Spelled(toks, p, Around(w, cpp, inner))
    ensures w.kind != EOF && gt < |toks| && Spelled(toks, p + 1, cpp + [Word(Lt, "<")]) && Spelled(toks, lt + 1, inner)
    ensures KindAt(toks, p) == w.kind && Index(toks, p) == p && Past(toks, p) == p + 1
    ensures KindAt(toks, lt) == Lt && Past(toks, lt) == lt + 1
    ensures KindAt(toks, gt) == Gt && Index(toks, gt) == gt && Past(toks, gt) == gt + 1
  {
    hide Around, Spelled, Index, KindAt, Container, Past;
    ContainerSplit(toks, p, w, cpp, inner);
    NoCommentKind(w.kind);
    Sees(toks, p, w);
    Sees(toks, lt, Word(Lt, "<"));
    Sees(toks, gt, Word(Gt, ">"));
  }

  lemma ContainerSplit(toks: seq<Token>, p: nat, w: Word, cpp: seq<Word>, inner: seq<Word>)
    requires Spelled(toks, p, Around(w, cpp, inner))
    ensures Spelled(toks, p, [w]) && Spelled(toks, p + 1, cpp + [Word(Lt, "<")])
            && Spelled(toks, p + 1 + |cpp|, [Word(Lt, "<")])
    ensures Spelled(toks, p + 2 + |cpp|, inner) && Spelled(toks, p + 2 + |cpp| + |inner|, [Word(Gt, ">")])
    ensures p + 3 + |cpp| + |inner| <= |toks|
  {
    hide Spelled;
    var open, gt := cpp + [Word(Lt, "<")], [Word(Gt, ">")];
    SpelledSplit(toks, p, [w] + open + inner, gt);
    SpelledSplit(toks, p, [w] + open, inner);
    SpelledSplit(toks, p, [w], open);
    SpelledSplit(toks, p + 1, cpp, [Word(Lt, "<")]);
    SpelledFits(toks, p + 2 + |cpp| + |inner|, gt);
  }

  lemma SpelledFits(toks: seq<Token>, p: nat, ws: seq<Word>)
    requires Spelled(toks, p, ws)
    ensures p + |ws| <= |toks|
  {
  }

  lemma NoCommentKind(k: Kind)
    requires Container(k) || IsBaseType(k) || k == Identifier
    ensures !IsComment(k) && k != EOF
  {
  }

  lemma OpeningIs(k: Kind, text: string, cpp: Option<string>)
    ensures Opening(k, text, cpp) == [Word(k, text)] + (CppWords(cpp) + [Word(Lt, "<")])
  {
  }

  lemma BaseSpelled(toks: seq<Token>, p: nat, t: FieldType)
    requires t.Base? && Typed(t) && Spelled(toks, p, Words(t)) && KindAt(toks, p + |Words(t)|) != LParen
    ensures p < |toks| && |Words(t)| == 1
    ensures NodeAt(toks, p, TypeNode) == Some(NodeParse(Node(BaseTypeForm(t.kind), p, p, []), p + 1))
  {
    hide Index, KindAt, Spelled, Past, KeywordText, Onward, IsBaseType;
    NoCommentKind(t.kind);
    ParserRules.BaseRule(t.kind);
    Sees(toks, p, Words(t)[0]);
    SpelledFits(toks, p, Words(t));
    OnwardTok(toks, [], p, t.kind, Annotated(End));
    OnwardOptPart(toks, [], p + 1, AnnotationsRole, AnnotationsNode, End);
    OnwardEnd(toks, [], p + 1);
    NodeFound(toks, p, TypeNode, BaseTypeForm(t.kind), [], p + 1);
  }

  lemma IdentSpelled(toks: seq<Token>, p: nat, t: FieldType)
    requires t.Ident? && Spelled(toks, p, Words(t))
    ensures p < |toks| && |Words(t)| == 1
    ensures NodeAt(toks, p, TypeNode)
         == Some(NodeParse(Node(NamedTypeForm, p, p, [Child(NameRole, Node(NameForm, p, p, []))]), p + 1))
    ensures TextOf(toks, Node(NameForm, p, p, []), t.text)
  {
    hide Index, KindAt, Spelled, Past, Onward, Choose, Production, NodeAt;
    Sees(toks, p, Words(t)[0]);
    SpelledFits(toks, p, Words(t));
    NameAt(toks, p);
    ParserRules.NamedRule();
    var name := [Child(NameRole, Node(NameForm, p, p, []))];
    OnwardPart(toks, [], p, NameRole, PlainName, End);
    OnwardEnd(toks, name, p + 1);
    assert [] + name == name;
    NodeFound(toks, p, TypeNode, NamedTypeForm, name, p + 1);
  }

  lemma ElementRule(k: Kind)
    requires k == List || k == Set
    ensures Choose(TypeNode, k) == Some(ContainerForm(k))
    ensures Production(ContainerForm(k))
         == Tok(k, CppType(Tok(Lt, One(Part(ValueRole, TypeNode), Tok(Gt, Annotated(End))))))
  {
    hide IsBaseType;
  }

  lemma MapRule()
    ensures Choose(TypeNode, Map) == Some(MapTypeForm)
    ensures Production(MapTypeForm)
         == Tok(Map, CppType(Tok(Lt, One(Part(KeyRole, TypeNode), Tok(Comma,
                One(Part(ValueRole, TypeNode), Tok(Gt, Annotated(End))))))))
  {
    hide IsBaseType;
  }

  /** A list or set type, given its element. */
  lemma ElementSpelled(toks: seq<Token>, p: nat, w: Word, cpp: Option<string>, inner: seq<Word>, from: nat,
                       r: NodeParse)
    returns (c: seq<Child>)
    requires (w.kind == List || w.kind == Set) && from == p + 2 + |CppWords(cpp)|
    requires Spelled(toks, p, Around(w, CppWords(cpp), inner))
    requires from <= |toks| && NodeAt(toks, from, TypeNode) == Some(r)
    requires r.next == from + |inner| && KindAt(toks, r.next + 1) != LParen
    ensures |c| == Count(cpp) + 1 && CppDenoted(toks, c, cpp) && p <= |toks|
            && c[Count(cpp)] == Child(ValueRole, r.node)
    ensures NodeAt(toks, p, TypeNode) == Some(NodeParse(Node(ContainerForm(w.kind), p, r.next, c), r.next + 1))
  {
    hide *;
    ListIsContainer();
    ElementRule(w.kind);
    ContainerSees(toks, p, w, CppWords(cpp), inner, from - 1, r.next);
    var value := One(Part(ValueRole, TypeNode), Tok(Gt, Annotated(End)));
    OnwardTok(toks, [], p, w.kind, CppType(Tok(Lt, value)));
    var front := CppRead(toks, p + 1, cpp, from, value);
    OnwardPart(toks, front, from, ValueRole, TypeNode, Tok(Gt, Annotated(End)));
    c := front + [Child(ValueRole, r.node)];
    CloseRead(toks, c, r.next);
    PrefixDenoted(toks, front, [Child(ValueRole, r.node)], cpp);
    NodeFound(toks, p, TypeNode, ContainerForm(w.kind), c, r.next + 1);
  }

  /** A key and a value with a comma between them. */
  lemma PairRead(toks: seq<Token>, front: seq<Child>, from: nat, k: NodeParse, v: NodeParse)
    requires from <= |toks| && NodeAt(toks, from, TypeNode) == Some(k) && k.next < |toks|
    requires KindAt(toks, k.next) == Comma && Past(toks, k.next) == k.next + 1
    requires NodeAt(toks, k.next + 1, TypeNode) == Some(v)
    ensures var close := Tok(Gt, Annotated(End));
            Onward(toks, front, from,
                   One(Part(KeyRole, TypeNode), Tok(Comma, One(Part(ValueRole, TypeNode), close)))) ==
            Onward(toks, front + [Child(KeyRole, k.node)] + [Child(ValueRole, v.node)], v.next, close)
  {
    hide *;
    var value := One(Part(ValueRole, TypeNode), Tok(Gt, Annotated(End)));
    var first := front + [Child(KeyRole, k.node)];
    OnwardPart(toks, front, from, KeyRole, TypeNode, Tok(Comma, value));
    OnwardTok(toks, first, k.next, Comma, value);
    OnwardPart(toks, first, k.next + 1, ValueRole, TypeNode, Tok(Gt, Annotated(End)));
  }

  /** A map type, given its key and its value. */
  lemma PairSpelled(toks: seq<Token>, p: nat, cpp: Option<string>, inner: seq<Word>, from: nat, k: NodeParse,
                    v: NodeParse)
    returns (c: seq<Child>)
    requires from == p + 2 + |CppWords(cpp)|
    requires Spelled(toks, p, Around(Word(Map, "map"), CppWords(cpp), inner))
    requires from <= |toks| && NodeAt(toks, from, TypeNode) == Some(k) && k.next < |toks|
    requires KindAt(toks, k.next) == Comma && Past(toks, k.next) == k.next + 1
    requires NodeAt(toks, k.next + 1, TypeNode) == Some(v)
    requires v.next == from + |inner| && KindAt(toks, v.next + 1) != LParen
    ensures |c| == Count(cpp) + 2 && CppDenoted(toks, c, cpp) && p <= |toks|
    ensures c[Count(cpp)] == Child(KeyRole, k.node) && c[Count(cpp) + 1] == Child(ValueRole, v.node)
    ensures NodeAt(toks, p, TypeNode) == Some(NodeParse(Node(MapTypeForm, p, v.next, c), v.next + 1))
  {
    hide *;
    ListIsContainer();
    MapRule();
    ContainerSees(toks, p, Word(Map, "map"), CppWords(cpp), inner, from - 1, v.next);
    var value := One(Part(ValueRole, TypeNode), Tok(Gt, Annotated(End)));
    var key := One(Part(KeyRole, TypeNode), Tok(Comma, value));
    OnwardTok(toks, [], p, Map, CppType(Tok(Lt, key)));
    var front := CppRead(toks, p + 1, cpp, from, key);
    c := front + [Child(KeyRole, k.node)] + [Child(ValueRole, v.node)];
    PairRead(toks, front, from, k, v);
    CloseRead(toks, c, v.next);
    PairDenoted(toks, front, Child(KeyRole, k.node), Child(ValueRole, v.node), cpp);
    NodeFound(toks, p, TypeNode, MapTypeForm, c, v.next + 1);
  }

  lemma PairDenoted(toks: seq<Token>, front: seq<Child>, key: Child, value: Child, cpp: Option<string>)
    requires |front| == Count(cpp) && CppDenoted(toks, front, cpp)
    ensures var c := front + [key] + [value];
            |c| == Count(cpp) + 2 && c[Count(cpp)] == key && c[Count(cpp) + 1] == value && CppDenoted(toks, c, cpp)
  {
    hide CppDenoted;
    PrefixDenoted(toks, front, [key], cpp);
    PrefixDenoted(toks, front + [key], [value], cpp);
  }

  lemma ListIsContainer()
    ensures Container(List) && Container(Set) && Container(Map)
  {
  }

  lemma PrefixDenoted(toks: seq<Token>, c: seq<Child>, more: seq<Child>, cpp: Option<string>)
    requires CppDenoted(toks, c, cpp)
    ensures CppDenoted(toks, c + more, cpp)
  {
  }

  /** The parse of t at p: it denotes t and consumes exactly its tokens. */
  ghost predicate Parses(toks: seq<Token>, p: nat, t: FieldType, next: nat) {
    p <= |toks| && NodeAt(toks, p, TypeNode).Some?
    && NodeAt(toks, p, TypeNode).value.next == next && Denotes(toks, NodeAt(toks, p, TypeNode).value.node, t)
  }

  lemma ElementWords(t: FieldType, w: Word, cpp: Option<string>, value: FieldType)
    requires (t == ListType(cpp, value) && w == Word(List, "list"))
             || (t == SetType(cpp, value) && w == Word(Set, "set"))
    ensures Words(t) == Around(w, CppWords(cpp), Words(value))
  {
    OpeningIs(w.kind, w.text, cpp);
  }

  lemma MapWords(t: FieldType)
    requires t.MapType?
    ensures Words(t) == Around(Word(Map, "map"), CppWords(t.cpp), Words(t.key) + [Word(Comma, ",")] + Words(t.value))
  {
    OpeningIs(Map, "map", t.cpp);
  }

  lemma ParsesAs(toks: seq<Token>, p: nat, t: FieldType, r: NodeParse)
    requires p <= |toks| && NodeAt(toks, p, TypeNode) == Some(r) && Denotes(toks, r.node, t)
    ensures Parses(toks, p, t, r.next)
  {
    hide NodeAt, Denotes;
  }

  lemma Parsed(toks: seq<Token>, p: nat, t: FieldType, next: nat) returns (r: NodeParse)
    requires Parses(toks, p, t, next)
    ensures p <= |toks| && NodeAt(toks, p, TypeNode) == Some(r) && r.next == next && Denotes(toks, r.node, t)
  {
    hide NodeAt, Denotes;
    r := NodeAt(toks, p, TypeNode).value;
  }

  /** Parsing the tokens of a type gives the type and consumes exactly them. */
  lemma {:induction false} TypeSpelled(toks: seq<Token>, p: nat, t: FieldType)
    requires Typed(t) && Spelled(toks, p, Words(t)) && KindAt(toks, p + |Words(t)|) != LParen
    ensures Parses(toks, p, t, p + |Words(t)|)
    decreases t, 2
  {
    hide Spelled, Parses, KindAt, CppOK, Words, Typed;
    match t {
      case Base(k) => BaseParses(toks, p, t);
      case Ident(text) => IdentParses(toks, p, t);
      case MapType(cpp, key, value) => MapParses(toks, p, t);
      case ListType(cpp, value) => ElementParses(toks, p, t, Word(List, "list"), cpp, value);
      case SetType(cpp, value) => ElementParses(toks, p, t, Word(Set, "set"), cpp, value);
    }
  }

  lemma BaseParses(toks: seq<Token>, p: nat, t: FieldType)
    requires t.Base? && Typed(t) && Spelled(toks, p, Words(t)) && KindAt(toks, p + |Words(t)|) != LParen
    ensures Parses(toks, p, t, p + |Words(t)|)
  {
    hide Spelled, KindAt, NodeAt, Typed, Words;
    BaseSpelled(toks, p, t);
  }

  lemma IdentParses(toks: seq<Token>, p: nat, t: FieldType)
    requires t.Ident? && Spelled(toks, p, Words(t))
    ensures Parses(toks, p, t, p + |Words(t)|)
  {
    hide Spelled, KindAt, NodeAt, Words;
    IdentSpelled(toks, p, t);
  }

  lemma {:induction false} ElementParses(toks: seq<Token>, p: nat, t: FieldType, w: Word, cpp: Option<string>,
                                         value: FieldType)
    requires (t == ListType(cpp, value) && w == Word(List, "list"))
             || (t == SetType(cpp, value) && w == Word(Set, "set"))
    requires Typed(t) && Spelled(toks, p, Words(t)) && KindAt(toks, p + |Words(t)|) != LParen
    ensures Parses(toks, p, t, p + |Words(t)|)
    decreases t, 1
  {
    hide Around, Spelled, KindAt, NodeAt, CppOK, CppWords, CppDenoted, Words, Typed, Denotes, Parses, Container;
    ElementWords(t, w, cpp, value);
    ElementWellFormed(t, cpp, value);
    ListIsContainer();
    var from := p + 2 + |CppWords(cpp)|;
    ElementAt(toks, p, t, w, cpp, value, from, from + |Words(value)|);
  }

  lemma ElementWellFormed(t: FieldType, cpp: Option<string>, value: FieldType)
    requires (t == ListType(cpp, value) || t == SetType(cpp, value)) && Typed(t)
    ensures Typed(value)
  {
  }

  /** t is a list or a set type of value, and k its keyword. */
  ghost predicate ElementOf(t: FieldType, k: Kind, cpp: Option<string>, value: FieldType) {
    (t == ListType(cpp, value) && k == List) || (t == SetType(cpp, value) && k == Set)
  }

  lemma {:induction false} ElementAt(toks: seq<Token>, p: nat, t: FieldType, w: Word, cpp: Option<string>,
                                     value: FieldType, from: nat, gt: nat)
    requires ElementOf(t, w.kind, cpp, value) && Typed(value)
    requires Spelled(toks, p, Around(w, CppWords(cpp), Words(value))) && KindAt(toks, gt + 1) != LParen
    requires from == p + 2 + |CppWords(cpp)| && gt == from + |Words(value)|
    ensures Parses(toks, p, t, gt + 1)
    decreases value, 3
  {
    hide *;
    ElementKind(t, w.kind, cpp, value);
    ContainerSees(toks, p, w, CppWords(cpp), Words(value), from - 1, gt);
    TypeSpelled(toks, from, value);
    var r := Parsed(toks, from, value, gt);
    var c := ElementSpelled(toks, p, w, cpp, Words(value), from, r);
    ElementBuilt(toks, t, w.kind, cpp, value, c, r.node, p, gt);
  }

  lemma ElementBuilt(toks: seq<Token>, t: FieldType, k: Kind, cpp: Option<string>, value: FieldType, c: seq<Child>,
                     n: Node, p: nat, gt: nat)
    requires ElementOf(t, k, cpp, value) && p <= |toks|
    requires |c| == Count(cpp) + 1 && CppDenoted(toks, c, cpp) && c[Count(cpp)] == Child(ValueRole, n)
             && Denotes(toks, n, value)
    requires NodeAt(toks, p, TypeNode) == Some(NodeParse(Node(ContainerForm(k), p, gt, c), gt + 1))
    ensures Parses(toks, p, t, gt + 1)
  {
    hide *;
    ElementDenotes(toks, t, k, cpp, value, c, n, p, gt);
    ParsesAs(toks, p, t, NodeParse(Node(ContainerForm(k), p, gt, c), gt + 1));
  }

  lemma ElementKind(t: FieldType, k: Kind, cpp: Option<string>, value: FieldType)
    requires ElementOf(t, k, cpp, value)
    ensures Container(k) && (k == List || k == Set)
  {
  }

  lemma ElementDenotes(toks: seq<Token>, t: FieldType, k: Kind, cpp: Option<string>, value: FieldType, c: seq<Child>,
                       n: Node, first: nat, last: nat)
    requires ElementOf(t, k, cpp, value)
    requires |c| == Count(cpp) + 1 && CppDenoted(toks, c, cpp) && c[Count(cpp)] == Child(ValueRole, n)
             && Denotes(toks, n, value)
    ensures Denotes(toks, Node(ContainerForm(k), first, last, c), t)
  {
    hide CppDenoted;
  }

  lemma {:induction false} MapParses(toks: seq<Token>, p: nat, t: FieldType)
    requires t.MapType? && Typed(t) && Spelled(toks, p, Words(t)) && KindAt(toks, p + |Words(t)|) != LParen
    ensures Parses(toks, p, t, p + |Words(t)|)
    decreases t, 1
  {
    hide Around, Spelled, KindAt, NodeAt, CppWords, Words, Typed, Denotes, Parses;
    MapWords(t);
    MapWellFormed(t);
    var from := p + 2 + |CppWords(t.cpp)|;
    var mid := from + |Words(t.key)|;
    PairAt(toks, p, t, from, mid, mid + 1 + |Words(t.value)|);
  }

  lemma MapWellFormed(t: FieldType)
    requires t.MapType? && Typed(t)
    ensures Typed(t.key) && Typed(t.value)
  {
  }

  lemma {:induction false} PairAt(toks: seq<Token>, p: nat, t: FieldType, from: nat, mid: nat, gt: nat)
    requires t.MapType? && Typed(t.key) && Typed(t.value) && KindAt(toks, gt + 1) != LParen
    requires Spelled(toks, p,
                     Around(Word(Map, "map"), CppWords(t.cpp), Words(t.key) + [Word(Comma, ",")] + Words(t.value)))
    requires from == p + 2 + |CppWords(t.cpp)| && mid == from + |Words(t.key)| && gt == mid + 1 + |Words(t.value)|
    ensures Parses(toks, p, t, gt + 1)
    decreases t, 0
  {
    hide *;
    var inner := Words(t.key) + [Word(Comma, ",")] + Words(t.value);
    ListIsContainer();
    ContainerSees(toks, p, Word(Map, "map"), CppWords(t.cpp), inner, from - 1, gt);
    PairWords(toks, t, from, mid);
    TypeSpelled(toks, from, t.key);
    TypeSpelled(toks, mid + 1, t.value);
    var k := Parsed(toks, from, t.key, mid);
    var v := Parsed(toks, mid + 1, t.value, gt);
    var c := PairSpelled(toks, p, t.cpp, inner, from, k, v);
    PairDenotes(toks, t, c, k.node, v.node, p, gt);
    ParsesAs(toks, p, t, NodeParse(Node(MapTypeForm, p, gt, c), gt + 1));
  }

  lemma PairWords(toks: seq<Token>, t: FieldType, from: nat, mid: nat)
    requires t.MapType? && Spelled(toks, from, Words(t.key) + [Word(Comma, ",")] + Words(t.value))
             && mid == from + |Words(t.key)|
    ensures Spelled(toks, from, Words(t.key)) && Spelled(toks, mid + 1, Words(t.value))
    ensures mid < |toks| && KindAt(toks, mid) == Comma && Past(toks, mid) == mid + 1
  {
    hide Spelled, KindAt, Words, Index, Past;
    SpelledSplit(toks, from, Words(t.key) + [Word(Comma, ",")], Words(t.value));
    SpelledSplit(toks, from, Words(t.key), [Word(Comma, ",")]);
    SpelledFits(toks, mid, [Word(Comma, ",")]);
    Sees(toks, mid, Word(Comma, ","));
  }

  lemma PairDenotes(toks: seq<Token>, t: FieldType, c: seq<Child>, k: Node, v: Node, first: nat, last: nat)
    requires t.MapType? && |c| == Count(t.cpp) + 2 && CppDenoted(toks, c, t.cpp)
    requires c[Count(t.cpp)] == Child(KeyRole, k) && c[Count(t.cpp) + 1] == Child(ValueRole, v)
    requires Denotes(toks, k, t.key) && Denotes(toks, v, t.value)
    ensures Denotes(toks, Node(MapTypeForm, first, last, c), t)
  {
    hide CppDenoted;
  }

  /** The text of a type, lexed, parses as the type. */
  lemma TextParses(t: FieldType)
    requires WellFormed(t)
    ensures Lex(Render(t)).errs == [] && Parses(Lex(Render(t)).tokens, 0, t, |Words(t)|)
  {
    hide LexFrom, Render, Words, WellFormed, Typed, Parses;
    TextLexes(t);
    WellFormedIsTyped(t);
    var toks := Lex(Render(t)).tokens;
    LexedSpells(toks, Words(t));
    TypeSpelled(toks, 0, t);
  }

  lemma {:induction false} WellFormedIsTyped(t: FieldType)
    requires WellFormed(t)
    ensures Typed(t)
    decreases t
  {
    hide IsWord;
    match t {
      case MapType(_, key, value) =>
        WellFormedIsTyped(key);
        WellFormedIsTyped(value);
      case ListType(_, value) => WellFormedIsTyped(value);
      case SetType(_, value) => WellFormedIsTyped(value);
      case _ =>
    }
  }

  lemma LexedSpells(toks: seq<Token>, ws: seq<Word>)
    requires WordsOf(toks) == ws + [Word(EOF, "")]
    ensures Spelled(toks, 0, ws) && KindAt(toks, |ws|) != LParen
  {
    assert |toks| == |ws| + 1;
    forall i | 0 <= i < |ws| ensures Word(toks[0 + i].kind, toks[0 + i].text) == ws[i] {
      assert WordsOf(toks)[i] == ws[i];
    }
    assert WordsOf(toks)[|ws|] == Word(EOF, "");
  }

  // ----- a document -----

  /** "typedef", the tokens of a type and a name are a document of one typedef, and of nothing else. */
  lemma TypedefSpelled(toks: seq<Token>, t: FieldType, name: string) returns (n: Node)
    requires Typed(t) && |toks| == |Words(t)| + 3
    requires Spelled(toks, 0, [Word(Typedef, "typedef")] + Words(t) + [Word(Identifier, name), Word(EOF, "")])
    ensures forall forest :: Documents.Forest(toks, 0, forest) <==> forest == [Child(EntryRole, n)]
    ensures n.form == TypedefForm && |n.parts| == 2 && n.parts[0].role == TypeRole && n.parts[1].role == NameRole
    ensures Denotes(toks, n.parts[0].node, t) && TextOf(toks, n.parts[1].node, name)
  {
    hide *;
    var q := 1 + |Words(t)|;
    TypedefSees(toks, t, name);
    TypeSpelled(toks, 1, t);
    var r := ParsesNode(toks, 1, t, q);
    var parts := [Child(TypeRole, r.node), Child(NameRole, Node(NameForm, q, q, []))];
    TypedefRead(toks, r, q);
    n := Node(TypedefForm, 0, q, parts);
    TypedefAlone(toks, n);
    OnlyForest(toks, [Child(EntryRole, n)]);
  }

  lemma OnlyForest(toks: seq<Token>, nodes: seq<Child>)
    requires Documents.DocumentAt(toks, 0) == Some(nodes)
    ensures forall forest :: Documents.Forest(toks, 0, forest) <==> forest == nodes
  {
    hide *;
    forall forest ensures Documents.Forest(toks, 0, forest) <==> forest == nodes {
      Documents.DocumentExactly(toks, forest);
    }
  }

  lemma ParsesNode(toks: seq<Token>, p: nat, t: FieldType, next: nat) returns (r: NodeParse)
    requires Parses(toks, p, t, next)
    ensures p <= |toks| && NodeAt(toks, p, TypeNode) == Some(r) && r.next == next && Denotes(toks, r.node, t)
  {
    r := NodeAt(toks, p, TypeNode).value;
  }

  lemma TypedefSees(toks: seq<Token>, t: FieldType, name: string)
    requires |toks| == |Words(t)| + 3
    requires Spelled(toks, 0, [Word(Typedef, "typedef")] + Words(t) + [Word(Identifier, name), Word(EOF, "")])
    ensures Spelled(toks, 1, Words(t)) && KindAt(toks, 0) == Typedef && Index(toks, 0) == 0 && Past(toks, 0) == 1
    ensures var q := 1 + |Words(t)|;
            && KindAt(toks, q) == Identifier && Index(toks, q) == q && Past(toks, q) == q + 1
            && KindAt(toks, q + 1) == EOF && TextOf(toks, Node(NameForm, q, q, []), name)
  {
    hide Words, Spelled, KindAt, Index, Past;
    var q := 1 + |Words(t)|;
    var front, back := [Word(Typedef, "typedef")], [Word(Identifier, name), Word(EOF, "")];
    SpelledSplit(toks, 0, front + Words(t), back);
    SpelledSplit(toks, 0, front, Words(t));
    assert back == [back[0]] + [back[1]];
    SpelledSplit(toks, q, [back[0]], [back[1]]);
    Sees(toks, 0, front[0]);
    Sees(toks, q, back[0]);
    SeesEnd(toks, q + 1);
  }

  lemma SeesEnd(toks: seq<Token>, p: nat)
    requires Spelled(toks, p, [Word(EOF, "")])
    ensures KindAt(toks, p) == EOF
  {
    assert Word(toks[p + 0].kind, toks[p + 0].text) == [Word(EOF, "")][0];
  }

  /** The production of a typedef without annotations and separator, at the start of the tokens. */
  lemma TypedefRead(toks: seq<Token>, r: NodeParse, q: nat)
    requires 1 <= q < |toks| && KindAt(toks, 0) == Typedef && Past(toks, 0) == 1
    requires NodeAt(toks, 1, TypeNode) == Some(r) && r.next == q
    requires KindAt(toks, q) == Identifier && Index(toks, q) == q && Past(toks, q) == q + 1
    requires KindAt(toks, q + 1) == EOF
    ensures Onward(toks, [], 0, Body(TypedefForm))
         == Some(Parts([Child(TypeRole, r.node), Child(NameRole, Node(NameForm, q, q, []))], q + 1))
  {
    hide *;
    var tail := Annotated(Sep(End));
    var one := [Child(TypeRole, r.node)];
    var two := one + [Child(NameRole, Node(NameForm, q, q, []))];
    ParserRules.TypedefRule();
    OnwardTok(toks, [], 0, Typedef, One(Part(TypeRole, TypeNode), One(Part(NameRole, PlainName), tail)));
    OnwardPart(toks, [], 1, TypeRole, TypeNode, One(Part(NameRole, PlainName), tail));
    assert [] + one == one;
    OnwardName(toks, one, q, NameRole, tail);
    OnwardAnnotated(toks, two, q + 1, Sep(End));
    OnwardSep(toks, two, q + 1, End);
    OnwardEnd(toks, two, q + 1);
    assert two == [one[0], two[1]];
  }

  /** A typedef up to EOF is what is read of the document. */
  lemma TypedefAlone(toks: seq<Token>, n: Node)
    requires n.form == TypedefForm && n.first == 0 && n.last + 1 < |toks|
    requires KindAt(toks, 0) == Typedef && Index(toks, 0) == 0 && KindAt(toks, n.last + 1) == EOF
    requires Onward(toks, [], 0, Body(TypedefForm)) == Some(Parts(n.parts, n.last + 1))
    ensures Documents.DocumentAt(toks, 0) == Some([Child(EntryRole, n)])
  {
    hide KindAt, Index, Past, Onward, Read, Body;
    Documents.FrontRead(toks, 0);
    assert Documents.TopForm(Typedef, false) == Some(TypedefForm);
    assert Documents.TopAt(toks, 0) == Some(NodeParse(n, n.last + 1));
    assert Documents.DocumentAt(toks, n.last + 1) == Some([]);
    assert [Child(EntryRole, n)] + [] == [Child(EntryRole, n)];
  }
}
