/** The productions as the parser's methods follow them (syntax/parser.go). */
module ParserRules {
  import opened Lexing
  import opened Ast
  import opened Grammar
  import opened LexRoundTrip
  import opened Reading
  import opened TypeText
  import opened Wrappers

  /** r is the node n up to next if there was no fault, and nothing if there was. */
  ghost predicate Found(r: Option<NodeParse>, ok: bool, n: Option<Node>, next: nat) {
    if ok then n.Some? && r == Some(NodeParse(n.value, next)) else r == None
  }

  lemma FoundParts(r: Option<NodeParse>, n: Option<Node>, next: nat)
    ensures Found(r, true, n, next) ==> n.Some? && r == Some(NodeParse(n.value, next))
    ensures Found(r, false, n, next) ==> r == None
  {
  }

  /** A node is complete: all of its production has been read, or there was a fault. */
  lemma Closes(toks: seq<Token>, p: nat, category: Category, form: Form, ok: bool, parts: seq<Child>, q: nat)
    requires p <= |toks| && Choose(category, KindAt(toks, p)) == Some(form) && Index(toks, p) < q
    requires Onward(toks, [], p, Production(form)) == if ok then Some(Parts(parts, q)) else None
    ensures Found(NodeAt(toks, p, category), ok, Some(Node(form, Index(toks, p), q - 1, parts)), q)
  {
    hide Choose, KindAt, Index, Production, Read;
    OntoNothing(Read(toks, p, Production(form)));
  }

  /** A node whose first token fits none of its category. */
  lemma NoNode(toks: seq<Token>, p: nat, category: Category)
    requires p <= |toks|
    ensures Choose(category, KindAt(toks, p)).None? ==> NodeAt(toks, p, category) == None
  {
    hide Choose, KindAt;
  }

  lemma EntryStarts(k: Kind)
    ensures Choose(AnnotationNode, k).Some? <==> k == Identifier
    ensures Choose(EnumValueNode, k).Some? <==> k == Identifier
  {
  }

  lemma AnnotationRule()
    ensures Choose(AnnotationNode, Identifier) == Some(AnnotationForm)
    ensures Production(AnnotationForm)
         == One(Part(NameRole, PlainName), Opt(Tok(Equal, One(Mark(ValueRole, {StringLiteral}), End)), Sep(End)))
  {
  }

  lemma AnnotationsRule()
    ensures Choose(AnnotationsNode, LParen) == Some(AnnotationsForm)
    ensures Production(AnnotationsForm) == Tok(LParen, Each(AnnotationNode, Tok(RParen, End)))
  {
  }

  // ----- values -----

  lemma ValueStarts(k: Kind)
    ensures k == LBracket ==> Choose(ValueNode, k) == Some(ListForm)
    ensures k == LBrace ==> Choose(ValueNode, k) == Some(MapForm)
    ensures k == IntConstant || k == True || k == False ==> Choose(ValueNode, k) == Some(IntForm)
    ensures k == DoubleConstant ==> Choose(ValueNode, k) == Some(DoubleForm)
    ensures k == StringLiteral ==> Choose(ValueNode, k) == Some(StringForm)
    ensures k == Identifier ==> Choose(ValueNode, k) == Some(IdentForm)
    ensures Choose(ValueNode, k).Some? ==>
              || k == LBracket || k == LBrace || k == IntConstant || k == True || k == False || k == DoubleConstant
              || k == StringLiteral || k == Identifier
  {
    hide Choose;
    ValueIs(k);
  }

  lemma ValueIs(k: Kind)
    ensures Choose(ValueNode, k) == if BracketedForm(k).Some? then BracketedForm(k) else ScalarForm(k)
  {
    hide IsKeyword, TypeForm, ScalarForm, BracketedForm;
  }

  /** A value of one token. */
  lemma ScalarRead(toks: seq<Token>, p: nat, form: Form)
    requires p <= |toks| && Choose(ValueNode, KindAt(toks, p)) == Some(form) && form != ListForm && form != MapForm
    ensures KindAt(toks, p) != EOF && Onward(toks, [], p, Production(form)) == Some(Parts([], Past(toks, p)))
  {
    hide KindAt, Past, Onward, Choose, Production;
    var kinds := ScalarRule(KindAt(toks, p), form);
    OnwardBare(toks, [], p, kinds, End);
    OnwardEnd(toks, [], Past(toks, p));
  }

  lemma ScalarRule(k: Kind, form: Form) returns (kinds: set<Kind>)
    requires Choose(ValueNode, k) == Some(form) && form != ListForm && form != MapForm
    ensures k in kinds && k != EOF && Production(form) == One(Bare(kinds), End)
  {
    hide Choose, Production;
    ValueIs(k);
    ScalarProductions();
    kinds := if form == IntForm then {IntConstant, True, False} else {k};
  }

  lemma ScalarProductions()
    ensures Production(IntForm) == One(Bare({IntConstant, True, False}), End)
    ensures Production(DoubleForm) == Tok(DoubleConstant, End)
    ensures Production(StringForm) == Tok(StringLiteral, End)
    ensures Production(IdentForm) == Tok(Identifier, End)
  {
    hide FieldRest, FunctionRest, CppType, Sep, Each, StructuredFirst, Annotated;
  }

  function ListItems(): Rule {
    Many(One(Part(EntryRole, ValueNode), Sep(End)), Tok(RBracket, End))
  }

  lemma ListRule()
    ensures Choose(ValueNode, LBracket) == Some(ListForm) && Production(ListForm) == Tok(LBracket, ListItems())
  {
  }

  /** One more value of a list, or its end. */
  lemma OnwardItem(toks: seq<Token>, parts: seq<Child>, p: nat)
    requires p <= |toks|
    ensures var n := NodeAt(toks, p, ValueNode);
            Onward(toks, parts, p, ListItems()) ==
            if n.Some? then Onward(toks, parts + [Child(EntryRole, n.value.node)], n.value.next, Sep(ListItems()))
            else if Choose(ValueNode, KindAt(toks, p)).None? && KindAt(toks, p) == RBracket
            then Onward(toks, parts, Past(toks, p), End)
            else None
  {
    hide KindAt, Past, Onward, NodeAt, Choose;
    var g, close := One(Part(EntryRole, ValueNode), Sep(End)), Tok(RBracket, End);
    OnwardMany(toks, parts, p, g, close);
    OnwardPart(toks, parts, p, EntryRole, ValueNode, Sep(ListItems()));
    OnwardTok(toks, parts, p, RBracket, End);
    NoNode(toks, p, ValueNode);
    SepThen(ListItems());
  }

  /** Where the values of a list end. */
  lemma ItemsEnd(toks: seq<Token>, parts: seq<Child>, p: nat)
    requires p <= |toks| && (KindAt(toks, p) == RBracket || KindAt(toks, p) == EOF)
    ensures Onward(toks, parts, p, ListItems()) == Onward(toks, parts, p, Tok(RBracket, End))
  {
    hide KindAt, Past, Onward, NodeAt, Choose;
    OnwardItem(toks, parts, p);
    ValueStarts(KindAt(toks, p));
    NoNode(toks, p, ValueNode);
    OnwardTok(toks, parts, p, RBracket, End);
  }

  lemma SepThen(more: Rule)
    ensures Then(Sep(End), more) == Sep(more)
    ensures Then(One(Part(EntryRole, ValueNode), Sep(End)), more) == One(Part(EntryRole, ValueNode), Sep(more))
  {
    assert Then(End, more) == more;
  }

  /** A node that cannot be completed. */
  lemma Misses(toks: seq<Token>, p: nat, category: Category, form: Form, n: Option<Node>, q: nat)
    requires p <= |toks| && Choose(category, KindAt(toks, p)) == Some(form)
    requires Onward(toks, [], p, Production(form)) == None
    ensures Found(NodeAt(toks, p, category), false, n, q)
  {
    hide Choose, KindAt, Index, Production, Read;
    OntoNothing(Read(toks, p, Production(form)));
  }

  function MapItems(): Rule {
    Many(One(Part(KeyRole, ValueNode), Tok(Colon, One(Part(ValueRole, ValueNode), Sep(End)))), Tok(RBrace, End))
  }

  lemma MapRule()
    ensures Choose(ValueNode, LBrace) == Some(MapForm) && Production(MapForm) == Tok(LBrace, MapItems())
  {
  }

  /** One more entry of a map, or its end. */
  lemma OnwardMapItem(toks: seq<Token>, parts: seq<Child>, p: nat)
    requires p <= |toks|
    ensures var n := NodeAt(toks, p, ValueNode);
            Onward(toks, parts, p, MapItems()) ==
            if n.Some?
            then Onward(toks, parts + [Child(KeyRole, n.value.node)], n.value.next,
                        Tok(Colon, One(Part(ValueRole, ValueNode), Sep(MapItems()))))
            else if Choose(ValueNode, KindAt(toks, p)).None? && KindAt(toks, p) == RBrace
            then Onward(toks, parts, Past(toks, p), End)
            else None
  {
    hide KindAt, Past, Onward, NodeAt, Choose;
    var value := One(Part(ValueRole, ValueNode), Sep(End));
    var g, close := One(Part(KeyRole, ValueNode), Tok(Colon, value)), Tok(RBrace, End);
    OnwardMany(toks, parts, p, g, close);
    OnwardPart(toks, parts, p, KeyRole, ValueNode, Tok(Colon, One(Part(ValueRole, ValueNode), Sep(MapItems()))));
    OnwardTok(toks, parts, p, RBrace, End);
    NoNode(toks, p, ValueNode);
    MapItemThen(MapItems());
  }

  lemma MapItemsEnd(toks: seq<Token>, parts: seq<Child>, p: nat)
    requires p <= |toks| && (KindAt(toks, p) == RBrace || KindAt(toks, p) == EOF)
    ensures Onward(toks, parts, p, MapItems()) == Onward(toks, parts, p, Tok(RBrace, End))
  {
    hide KindAt, Past, Onward, NodeAt, Choose;
    OnwardMapItem(toks, parts, p);
    ValueStarts(KindAt(toks, p));
    NoNode(toks, p, ValueNode);
    OnwardTok(toks, parts, p, RBrace, End);
  }

  lemma MapItemThen(more: Rule)
    ensures Then(One(Part(KeyRole, ValueNode), Tok(Colon, One(Part(ValueRole, ValueNode), Sep(End)))), more)
         == One(Part(KeyRole, ValueNode), Tok(Colon, One(Part(ValueRole, ValueNode), Sep(more))))
  {
    assert Then(End, more) == more;
    assert Then(Sep(End), more) == Sep(more);
    assert Then(One(Part(ValueRole, ValueNode), Sep(End)), more) == One(Part(ValueRole, ValueNode), Sep(more));
  }

  // ----- structured annotations -----

  function AnnotationValue(): Rule {
    Either(Tok(LParen, One(Part(ValueRole, ScalarNode), Tok(RParen, End))), One(Part(ValueRole, BracketedNode), End),
           End)
  }

  lemma StructuredRule()
    ensures Choose(StructuredNode, At) == Some(StructuredForm)
    ensures Production(StructuredForm) == Tok(At, One(Part(NameRole, PlainName), AnnotationValue()))
  {
  }

  /** A scalar in parentheses, or a list or a map. */
  lemma OnwardAnnotationValue(toks: seq<Token>, parts: seq<Child>, p: nat)
    requires p <= |toks|
    ensures Onward(toks, parts, p, AnnotationValue()) ==
            if KindAt(toks, p) == LParen then
              var n := NodeAt(toks, Past(toks, p), ScalarNode);
              if n.Some? && KindAt(toks, n.value.next) == RParen
              then Some(Parts(parts + [Child(ValueRole, n.value.node)], Past(toks, n.value.next))) else None
            else
              var n := NodeAt(toks, p, BracketedNode);
              if n.Some? then Some(Parts(parts + [Child(ValueRole, n.value.node)], n.value.next)) else None
  {
    hide KindAt, Past, Onward, NodeAt, Choose;
    var scalar, bracketed := One(Part(ValueRole, ScalarNode), Tok(RParen, End)),
        One(Part(ValueRole, BracketedNode), End);
    OnwardEither(toks, parts, p, Tok(LParen, scalar), bracketed, End);
    assert Then(scalar, End) == scalar && Then(bracketed, End) == bracketed;
    OnwardTok(toks, parts, p, LParen, scalar);
    OnwardPart(toks, parts, p, ValueRole, BracketedNode, End);
    var b := NodeAt(toks, p, BracketedNode);
    if b.Some? {
      OnwardEnd(toks, parts + [Child(ValueRole, b.value.node)], b.value.next);
    }
    if KindAt(toks, p) == LParen {
      ScalarInParens(toks, parts, Past(toks, p));
    }
  }

  lemma ScalarInParens(toks: seq<Token>, parts: seq<Child>, q: nat)
    requires q <= |toks|
    ensures var n := NodeAt(toks, q, ScalarNode);
            Onward(toks, parts, q, One(Part(ValueRole, ScalarNode), Tok(RParen, End))) ==
            if n.Some? && KindAt(toks, n.value.next) == RParen
            then Some(Parts(parts + [Child(ValueRole, n.value.node)], Past(toks, n.value.next))) else None
  {
    hide KindAt, Past, Onward, NodeAt;
    OnwardPart(toks, parts, q, ValueRole, ScalarNode, Tok(RParen, End));
    var n := NodeAt(toks, q, ScalarNode);
    if n.Some? {
      var more := parts + [Child(ValueRole, n.value.node)];
      OnwardTok(toks, more, n.value.next, RParen, End);
      if KindAt(toks, n.value.next) == RParen {
        OnwardEnd(toks, more, Past(toks, n.value.next));
      }
    }
  }

  /** Values are scalars or bracketed. */
  lemma ValueKinds(toks: seq<Token>, p: nat)
    requires p <= |toks|
    ensures var n := NodeAt(toks, p, ValueNode);
            var bracketed := n.Some? && (n.value.node.form == ListForm || n.value.node.form == MapForm);
            && NodeAt(toks, p, BracketedNode) == (if bracketed then n else None)
            && NodeAt(toks, p, ScalarNode) == (if bracketed then None else n)
  {
    hide KindAt, Index, Production, Read;
  }

  lemma BracketedStarts(toks: seq<Token>, p: nat)
    requires p <= |toks|
    ensures var k, n := KindAt(toks, p), NodeAt(toks, p, ValueNode);
            && (k == LBracket || k == LBrace ==> n.Some? ==>
                n.value.node.form == ListForm || n.value.node.form == MapForm)
            && (k != LBracket && k != LBrace ==> NodeAt(toks, p, BracketedNode) == None)
  {
    hide KindAt, Index, Production, Read, ScalarForm;
  }

  // ----- types -----

  function Arguments(isMap: bool, rest: Rule): Rule {
    if isMap then One(Part(KeyRole, TypeNode), Tok(Comma, One(Part(ValueRole, TypeNode), rest)))
    else One(Part(ValueRole, TypeNode), rest)
  }

  lemma ArgumentsAre(isMap: bool, rest: Rule)
    ensures Arguments(isMap, rest) ==
            if isMap then One(Part(KeyRole, TypeNode), Tok(Comma, One(Part(ValueRole, TypeNode), rest)))
            else One(Part(ValueRole, TypeNode), rest)
  {
  }

  function Brackets(isMap: bool): Rule {
    Tok(Lt, Arguments(isMap, Tok(Gt, Annotated(End))))
  }

  lemma BracketsAre(isMap: bool)
    ensures Brackets(isMap) == Tok(Lt, Arguments(isMap, Tok(Gt, Annotated(End))))
  {
  }

  lemma ContainerRule(k: Kind)
    requires Container(k)
    ensures k != EOF && Choose(TypeNode, k) == Some(ContainerForm(k))
    ensures Production(ContainerForm(k)) == Tok(k, CppType(Brackets(k == Map)))
  {
    hide IsBaseType;
  }

  lemma TypeKinds(k: Kind)
    ensures Choose(TypeNode, k).Some? <==> Container(k) || k == Identifier || IsBaseType(k)
    ensures Choose(TypeNode, Identifier) == Some(NamedTypeForm)
  {
    hide IsBaseType;
  }

  lemma NamedRule()
    ensures Choose(TypeNode, Identifier) == Some(NamedTypeForm)
    ensures Production(NamedTypeForm) == One(Part(NameRole, PlainName), End)
  {
    hide IsBaseType;
  }

  lemma BaseRule(k: Kind)
    requires IsBaseType(k)
    ensures k != EOF && Production(BaseTypeForm(k)) == Tok(k, Annotated(End))
    ensures Choose(TypeNode, k) == Some(BaseTypeForm(k))
  {
    hide Production, Annotated;
    BaseProduction(k);
  }

  // ----- what follows structured annotations -----

  /** g, read on from the annotations, is the node n of the form up to next if there was no fault, and
      nothing if there was. */
  ghost predicate Follows(g: Option<Parts>, ok: bool, form: Form, first: nat, n: Option<Node>, next: nat) {
    if ok then
      && n.Some? && g == Some(Parts(n.value.parts, next))
      && next > 0 && n.value == Node(form, first, next - 1, n.value.parts)
    else g == None
  }

  lemma FollowsIs(g: Option<Parts>, ok: bool, form: Form, first: nat, n: Option<Node>, parts: seq<Child>, q: nat)
    requires g == if ok then Some(Parts(parts, q)) else None
    requires ok ==> q > 0 && n == Some(Node(form, first, q - 1, parts))
    ensures Follows(g, ok, form, first, n, q)
  {
  }

  lemma FoundNot(r: Option<NodeParse>, q: nat)
    requires r == None
    ensures Found(r, false, None, q)
  {
  }

  lemma FollowsNone(ok: bool, form: Form, first: nat, n: Option<Node>, q: nat)
    ensures !ok ==> Follows(None, ok, form, first, n, q)
  {
  }

  /** A field or a function is complete, or there was a fault. */
  lemma FollowsFound(toks: seq<Token>, p: nat, category: Category, form: Form, g: Option<Parts>, ok: bool, first: nat,
                     n: Option<Node>, q: nat)
    requires p <= |toks| && Follows(g, ok, form, first, n, q) && NodeAt(toks, p, category) == NodeOf(toks, p, form, g)
    requires (ok ==> first == Index(toks, p)) && (n.Some? ==> n.value.first <= n.value.last)
    ensures Found(NodeAt(toks, p, category), ok, n, q)
  {
    hide NodeAt, Index;
  }

  lemma MemberStarts(k: Kind)
    requires k == RBrace || k == RParen || k == EOF
    ensures Choose(FieldNode, k) == None && Choose(FunctionNode, k) == None
  {
    hide IsKeyword, ScalarForm;
    assert TypeForm(k) == None;
  }

  // ----- fields -----

  function TypedField(): Rule {
    One(Part(TypeRole, TypeNode), FieldRest())
  }

  function RequiredField(): Rule {
    Opt(One(Mark(ReqRole, {Required, Optional}), End), TypedField())
  }

  function FieldHead(): Rule {
    Opt(One(Mark(IDRole, {IntConstant}), Tok(Colon, End)), RequiredField())
  }

  function Default(rest: Rule): Rule {
    Opt(Tok(Equal, One(Part(ValueRole, ValueNode), End)), rest)
  }

  lemma FieldRules()
    ensures Body(FieldForm) == FieldHead() && TypedField() == One(Part(TypeRole, TypeNode), FieldRest())
    ensures FieldRest() == Opt(One(Mark(ReferenceRole, {Amp}), End),
                               One(Part(NameRole, AnyName), Default(Annotated(Sep(End)))))
  {
  }

  /** A field id is one only with its colon; without, no type is there to read. */
  lemma OnwardID(toks: seq<Token>, parts: seq<Child>, p: nat)
    requires p <= |toks|
    ensures var q := Past(toks, p);
            Onward(toks, parts, p, FieldHead()) ==
            if KindAt(toks, p) == IntConstant && KindAt(toks, q) == Colon
            then Onward(toks, parts + [Child(IDRole, Leaf(Index(toks, p)))], Past(toks, q), RequiredField())
            else Onward(toks, parts, p, RequiredField())
  {
    hide KindAt, Index, Past, Onward, Leaf, NodeAt;
    var id := One(Mark(IDRole, {IntConstant}), Tok(Colon, End));
    assert Then(id, RequiredField()) == One(Mark(IDRole, {IntConstant}), Tok(Colon, RequiredField())) by {
      assert Then(Tok(Colon, End), RequiredField()) == Tok(Colon, RequiredField());
    }
    OnwardEither(toks, parts, p, id, End, RequiredField());
    OnwardMark(toks, parts, p, IDRole, {IntConstant}, Tok(Colon, RequiredField()));
    if KindAt(toks, p) == IntConstant {
      OnwardTok(toks, parts + [Child(IDRole, Leaf(Index(toks, p)))], Past(toks, p), Colon, RequiredField());
      OnwardReq(toks, parts, p);
      OnwardPart(toks, parts, p, TypeRole, TypeNode, FieldRest());
      NoNode(toks, p, TypeNode);
    }
  }

  lemma OnwardReq(toks: seq<Token>, parts: seq<Child>, p: nat)
    requires p <= |toks|
    ensures var k := KindAt(toks, p);
            Onward(toks, parts, p, RequiredField()) ==
            if k == Required || k == Optional
            then Onward(toks, parts + [Child(ReqRole, Leaf(Index(toks, p)))], Past(toks, p), TypedField())
            else Onward(toks, parts, p, TypedField())
  {
    hide KindAt, Index, Past, Onward, Leaf;
    OnwardOptMark(toks, parts, p, ReqRole, {Required, Optional}, TypedField());
  }

  lemma OnwardDefault(toks: seq<Token>, parts: seq<Child>, p: nat, rest: Rule)
    requires p <= |toks|
    ensures Onward(toks, parts, p, Default(rest)) ==
            if KindAt(toks, p) != Equal then Onward(toks, parts, p, rest)
            else Onward(toks, parts, Past(toks, p), One(Part(ValueRole, ValueNode), rest))
  {
    hide KindAt, Past, Onward;
    var value := One(Part(ValueRole, ValueNode), End);
    assert Then(value, rest) == One(Part(ValueRole, ValueNode), rest);
    OnwardEither(toks, parts, p, Tok(Equal, value), End, rest);
    OnwardTok(toks, parts, p, Equal, One(Part(ValueRole, ValueNode), rest));
  }

  /** A field is what its production reads; where no field starts that is nothing. */
  lemma FieldReads(toks: seq<Token>, p: nat)
    requires p <= |toks|
    ensures NodeAt(toks, p, FieldNode) == NodeOf(toks, p, FieldForm, Onward(toks, [], p, Production(FieldForm)))
    ensures Production(FieldForm) == StructuredFirst(Body(FieldForm))
  {
    hide KindAt, Index, Read, TypeForm;
    var k := KindAt(toks, p);
    OntoNothing(Read(toks, p, Production(FieldForm)));
    if Choose(FieldNode, k).None? {
      FieldRules();
      OnwardStructured(toks, [], p, Body(FieldForm));
      OnwardID(toks, [], p);
      OnwardReq(toks, [], p);
      OnwardPart(toks, [], p, TypeRole, TypeNode, FieldRest());
      NoNode(toks, p, TypeNode);
    }
  }

  // ----- headers and definitions -----

  lemma HeaderRules()
    ensures Body(IncludeForm) == Tok(Include, One(Mark(PathRole, {StringLiteral}), End))
    ensures Body(CPPIncludeForm) == Tok(CPPInclude, One(Mark(PathRole, {StringLiteral}), End))
    ensures Body(NamespaceForm)
         == Tok(Namespace, One(Mark(ScopeRole, {Identifier, Star}), One(Part(NameRole, PlainName), Annotated(End))))
  {
  }

  lemma ConstRule()
    ensures Body(ConstForm)
         == Tok(Const, One(Part(TypeRole, TypeNode),
                One(Part(NameRole, PlainName), Tok(Equal, One(Part(ValueRole, ValueNode), Sep(End))))))
  {
  }

  lemma TypedefRule()
    ensures Body(TypedefForm)
         == Tok(Typedef, One(Part(TypeRole, TypeNode), One(Part(NameRole, PlainName), Annotated(Sep(End)))))
  {
  }

  lemma EnumValueRule()
    ensures Choose(EnumValueNode, Identifier) == Some(EnumValueForm)
    ensures Production(EnumValueForm)
         == One(Part(NameRole, PlainName),
                Opt(Tok(Equal, One(Mark(ValueRole, {IntConstant}), End)), Annotated(Sep(End))))
  {
  }

  /** An optional base service. */
  function BaseService(rest: Rule): Rule {
    Opt(Tok(Extends, One(Part(ExtendsRole, PlainName), End)), rest)
  }

  lemma OnwardBase(toks: seq<Token>, parts: seq<Child>, p: nat, rest: Rule)
    requires p <= |toks|
    ensures Onward(toks, parts, p, BaseService(rest)) ==
            if KindAt(toks, p) != Extends then Onward(toks, parts, p, rest)
            else Onward(toks, parts, Past(toks, p), One(Part(ExtendsRole, PlainName), rest))
  {
    hide KindAt, Past, Onward;
    var name := One(Part(ExtendsRole, PlainName), End);
    assert Then(name, rest) == One(Part(ExtendsRole, PlainName), rest);
    OnwardEither(toks, parts, p, Tok(Extends, name), End, rest);
    OnwardTok(toks, parts, p, Extends, One(Part(ExtendsRole, PlainName), rest));
  }

  lemma BracedRules()
    ensures Body(EnumForm)
         == Tok(Enum, One(Part(NameRole, PlainName), Tok(LBrace, Each(EnumValueNode, Tok(RBrace, Annotated(End))))))
    ensures Body(ServiceForm)
         == Tok(Service, One(Part(NameRole, PlainName),
                BaseService(Tok(LBrace, Each(FunctionNode, Tok(RBrace, Annotated(End)))))))
  {
  }

  lemma StructRule(k: Kind)
    ensures Body(StructForm(k))
         == Tok(k, One(Part(NameRole, PlainName), Tok(LBrace, Each(FieldNode, Tok(RBrace, Annotated(End))))))
  {
  }

  // ----- functions -----

  /** What follows the name of a function. */
  function FunctionTail(): Rule {
    Tok(LParen, Each(FieldNode, Tok(RParen, ThrowsClause(Annotated(Sep(End))))))
  }

  function Returned(): Rule {
    Either(One(Mark(VoidRole, {Void}), End), One(Part(TypeRole, TypeNode), End), FunctionRest())
  }

  lemma FunctionRules()
    ensures Body(FunctionForm) == Opt(One(Mark(OnewayRole, {Oneway, Async}), End), Returned())
    ensures FunctionRest() == One(Part(NameRole, PlainName), FunctionTail())
  {
  }

  lemma FunctionTailIs()
    ensures FunctionTail() == Tok(LParen, Each(FieldNode, Tok(RParen, ThrowsClause(Annotated(Sep(End))))))
  {
  }

  lemma OnwardReturned(toks: seq<Token>, parts: seq<Child>, p: nat)
    requires p <= |toks|
    ensures Onward(toks, parts, p, Returned()) ==
            if KindAt(toks, p) == Void
            then Onward(toks, parts + [Child(VoidRole, Leaf(Index(toks, p)))], Past(toks, p), FunctionRest())
            else Onward(toks, parts, p, One(Part(TypeRole, TypeNode), FunctionRest()))
  {
    hide KindAt, Past, Index, Leaf, Onward;
    var void, typed := One(Mark(VoidRole, {Void}), End), One(Part(TypeRole, TypeNode), End);
    assert Then(void, FunctionRest()) == One(Mark(VoidRole, {Void}), FunctionRest());
    assert Then(typed, FunctionRest()) == One(Part(TypeRole, TypeNode), FunctionRest());
    OnwardEither(toks, parts, p, void, typed, FunctionRest());
    OnwardMark(toks, parts, p, VoidRole, {Void}, FunctionRest());
  }

  lemma OnwardThrows(toks: seq<Token>, parts: seq<Child>, p: nat, rest: Rule)
    requires p <= |toks|
    ensures var q := Past(toks, p);
            Onward(toks, parts, p, ThrowsClause(rest)) ==
            if KindAt(toks, p) != Throws then Onward(toks, parts, p, rest)
            else if q <= |toks| && NodeAt(toks, q, ThrowsNode).Some?
            then Onward(toks, parts + [Child(ThrowsRole, NodeAt(toks, q, ThrowsNode).value.node)],
                        NodeAt(toks, q, ThrowsNode).value.next, rest)
            else None
  {
    hide KindAt, Past, Onward, NodeAt;
    var clause := One(Part(ThrowsRole, ThrowsNode), End);
    assert Then(clause, rest) == One(Part(ThrowsRole, ThrowsNode), rest);
    OnwardEither(toks, parts, p, Tok(Throws, clause), End, rest);
    OnwardTok(toks, parts, p, Throws, One(Part(ThrowsRole, ThrowsNode), rest));
    if KindAt(toks, p) == Throws {
      OnwardPart(toks, parts, Past(toks, p), ThrowsRole, ThrowsNode, rest);
    }
  }

  lemma ThrowsRule(k: Kind)
    ensures Choose(ThrowsNode, k) == if k == LParen then Some(ThrowsForm) else None
    ensures Production(ThrowsForm) == Tok(LParen, Each(FieldNode, Tok(RParen, End)))
  {
  }

  lemma FunctionReads(toks: seq<Token>, p: nat)
    requires p <= |toks|
    ensures NodeAt(toks, p, FunctionNode) ==
            NodeOf(toks, p, FunctionForm, Onward(toks, [], p, Production(FunctionForm)))
    ensures Production(FunctionForm) == StructuredFirst(Body(FunctionForm))
  {
    hide KindAt, Index, Read, TypeForm;
    var k := KindAt(toks, p);
    OntoNothing(Read(toks, p, Production(FunctionForm)));
    if Choose(FunctionNode, k).None? {
      FunctionRules();
      OnwardStructured(toks, [], p, Body(FunctionForm));
      OnwardOptMark(toks, [], p, OnewayRole, {Oneway, Async}, Returned());
      OnwardReturned(toks, [], p);
      OnwardPart(toks, [], p, TypeRole, TypeNode, FunctionRest());
      NoNode(toks, p, TypeNode);
    }
  }
}
