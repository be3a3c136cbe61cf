/** The grammar of Thrift documents, production by production, and its derivations on a token stream
    (syntax/parser.go). */
module Grammar {
  import opened Lexing
  import opened Ast
  import opened LexRoundTrip
  import opened TypeText
  import opened Wrappers

  // ----- the real tokens of a stream -----

  /** The first token that is not a comment, from i on. */
  function NextReal(toks: seq<Token>, i: nat): (r: nat)
    requires i <= |toks|
    ensures i <= r <= |toks| && (r < |toks| ==> !IsComment(toks[r].kind))
    decreases |toks| - i
  {
    if i < |toks| && IsComment(toks[i].kind) then NextReal(toks, i + 1) else i
  }

  /** The kind of the next real token; EOF at the end. */
  function KindAt(toks: seq<Token>, p: nat): Kind {
    if p <= |toks| && NextReal(toks, p) < |toks| then toks[NextReal(toks, p)].kind else EOF
  }

  /** Where the next real token is. */
  function Index(toks: seq<Token>, p: nat): (i: nat)
    ensures p <= i
  {
    if p <= |toks| then NextReal(toks, p) else p
  }

  /** The position after the next real token. */
  function Past(toks: seq<Token>, p: nat): (q: nat)
    ensures p < q && (KindAt(toks, p) != EOF ==> q <= |toks|)
  {
    Index(toks, p) + 1
  }

  predicate IsKeyword(k: Kind) {
    exists text :: text in Keywords() && Keywords()[text] == k
  }

  // ----- the grammar -----

  /** What a node may stand for. */
  datatype Category =
    | PlainName | AnyName | TypeNode | ValueNode | ScalarNode | BracketedNode | FieldNode | FunctionNode | EnumValueNode
    | AnnotationNode | AnnotationsNode | StructuredNode | ThrowsNode

  /** A token without a node, a token with one, or a node. */
  datatype Symbol =
    | Bare(kinds: set<Kind>)
    | BareName
    | Mark(role: Role, kinds: set<Kind>)
    | Part(role: Role, category: Category)

  /** A right-hand side: symbols, choices and repetitions, one after another. */
  datatype Rule =
    | End
    | One(symbol: Symbol, rest: Rule)
    | Either(first: Rule, second: Rule, rest: Rule)
    | Many(each: Rule, rest: Rule)

  function Then(a: Rule, b: Rule): Rule {
    match a
    case End => b
    case One(s, rest) => One(s, Then(rest, b))
    case Either(g, h, rest) => Either(g, h, Then(rest, b))
    case Many(g, rest) => Many(g, Then(rest, b))
  }

  function Tok(k: Kind, rest: Rule): Rule {
    One(Bare({k}), rest)
  }

  function Opt(g: Rule, rest: Rule): Rule {
    Either(g, End, rest)
  }

  function Sep(rest: Rule): Rule {
    Opt(One(Mark(SepRole, {Comma, Semicolon}), End), rest)
  }

  function Annotated(rest: Rule): Rule {
    Opt(One(Part(AnnotationsRole, AnnotationsNode), End), rest)
  }

  function StructuredFirst(rest: Rule): Rule {
    Many(One(Part(StructuredRole, StructuredNode), End), rest)
  }

  function Each(category: Category, rest: Rule): Rule {
    Many(One(Part(EntryRole, category), End), rest)
  }

  function Name(rest: Rule): Rule {
    One(Part(NameRole, PlainName), rest)
  }

  function CppType(rest: Rule): Rule {
    Opt(Tok(CPPType, One(Mark(CPPTypeRole, {StringLiteral}), End)), rest)
  }

  /** The productions, without the structured annotations in front of a definition. */
  function Body(form: Form): Rule {
    match form
    case IncludeForm => Tok(Include, One(Mark(PathRole, {StringLiteral}), End))
    case CPPIncludeForm => Tok(CPPInclude, One(Mark(PathRole, {StringLiteral}), End))
    case NamespaceForm => Tok(Namespace, One(Mark(ScopeRole, {Identifier, Star}), Name(Annotated(End))))
    case ConstForm =>
      Tok(Const, One(Part(TypeRole, TypeNode), Name(Tok(Equal, One(Part(ValueRole, ValueNode), Sep(End))))))
    case TypedefForm => Tok(Typedef, One(Part(TypeRole, TypeNode), Name(Annotated(Sep(End)))))
    case EnumForm => Tok(Enum, Name(Tok(LBrace, Each(EnumValueNode, Tok(RBrace, Annotated(End))))))
    case EnumValueForm => Name(Opt(Tok(Equal, One(Mark(ValueRole, {IntConstant}), End)), Annotated(Sep(End))))
    case StructForm(k) => Tok(k, Name(Tok(LBrace, Each(FieldNode, Tok(RBrace, Annotated(End))))))
    case ServiceForm =>
      Tok(Service, Name(Opt(Tok(Extends, One(Part(ExtendsRole, PlainName), End)),
                            Tok(LBrace, Each(FunctionNode, Tok(RBrace, Annotated(End)))))))
    case FunctionForm =>
      Opt(One(Mark(OnewayRole, {Oneway, Async}), End),
          Either(One(Mark(VoidRole, {Void}), End), One(Part(TypeRole, TypeNode), End), FunctionRest()))
    case ThrowsForm => Tok(LParen, Each(FieldNode, Tok(RParen, End)))
    case FieldForm =>
      Opt(One(Mark(IDRole, {IntConstant}), Tok(Colon, End)),
          Opt(One(Mark(ReqRole, {Required, Optional}), End), One(Part(TypeRole, TypeNode), FieldRest())))
    case BaseTypeForm(k) => Tok(k, Annotated(End))
    case NamedTypeForm => Name(End)
    case MapTypeForm =>
      Tok(Map, CppType(Tok(Lt, One(Part(KeyRole, TypeNode), Tok(Comma,
          One(Part(ValueRole, TypeNode), Tok(Gt, Annotated(End))))))))
    case ListTypeForm => Tok(List, CppType(Tok(Lt, One(Part(ValueRole, TypeNode), Tok(Gt, Annotated(End))))))
    case SetTypeForm => Tok(Set, CppType(Tok(Lt, One(Part(ValueRole, TypeNode), Tok(Gt, Annotated(End))))))
    case NameForm => One(BareName, End)
    case IntForm => One(Bare({IntConstant, True, False}), End)
    case DoubleForm => Tok(DoubleConstant, End)
    case StringForm => Tok(StringLiteral, End)
    case IdentForm => Tok(Identifier, End)
    case ListForm => Tok(LBracket, Many(One(Part(EntryRole, ValueNode), Sep(End)), Tok(RBracket, End)))
    case MapForm =>
      Tok(LBrace, Many(One(Part(KeyRole, ValueNode), Tok(Colon, One(Part(ValueRole, ValueNode), Sep(End)))),
                       Tok(RBrace, End)))
    case AnnotationForm => Name(Opt(Tok(Equal, One(Mark(ValueRole, {StringLiteral}), End)), Sep(End)))
    case AnnotationsForm => Tok(LParen, Each(AnnotationNode, Tok(RParen, End)))
    case StructuredForm =>
      Tok(At, Name(Either(Tok(LParen, One(Part(ValueRole, ScalarNode), Tok(RParen, End))),
                          One(Part(ValueRole, BracketedNode), End), End)))
    case TokenForm => End
  }

  lemma BaseProduction(k: Kind)
    ensures Production(BaseTypeForm(k)) == Tok(k, Annotated(End))
  {
    hide FieldRest, FunctionRest, CppType, Sep, Each, StructuredFirst;
  }

  function ThrowsClause(rest: Rule): Rule {
    Opt(Tok(Throws, One(Part(ThrowsRole, ThrowsNode), End)), rest)
  }

  function FunctionRest(): Rule {
    Name(Tok(LParen, Each(FieldNode, Tok(RParen, ThrowsClause(Annotated(Sep(End)))))))
  }

  function FieldRest(): Rule {
    Opt(One(Mark(ReferenceRole, {Amp}), End),
        One(Part(NameRole, AnyName), Opt(Tok(Equal, One(Part(ValueRole, ValueNode), End)), Annotated(Sep(End)))))
  }

  /** What structured annotations may precede. */
  predicate TakesStructured(form: Form) {
    match form
    case NamespaceForm => true
    case ConstForm => true
    case TypedefForm => true
    case EnumForm => true
    case StructForm(_) => true
    case ServiceForm => true
    case FunctionForm => true
    case FieldForm => true
    case _ => false
  }

  function Production(form: Form): Rule {
    if TakesStructured(form) then StructuredFirst(Body(form)) else Body(form)
  }

  // ----- which node of a category a token starts -----

  function ContainerForm(k: Kind): Form {
    if k == Map then MapTypeForm else if k == List then ListTypeForm else SetTypeForm
  }

  function TypeForm(k: Kind): Option<Form> {
    if Container(k) then Some(ContainerForm(k))
    else if k == Identifier then Some(NamedTypeForm)
    else if IsBaseType(k) then Some(BaseTypeForm(k))
    else None
  }

  function ScalarForm(k: Kind): Option<Form> {
    if k == IntConstant || k == True || k == False then Some(IntForm)
    else if k == DoubleConstant then Some(DoubleForm)
    else if k == StringLiteral then Some(StringForm)
    else if k == Identifier then Some(IdentForm)
    else None
  }

  function BracketedForm(k: Kind): Option<Form> {
    if k == LBracket then Some(ListForm) else if k == LBrace then Some(MapForm) else None
  }

  function When(b: bool, form: Form): Option<Form> {
    if b then Some(form) else None
  }

  function Choose(category: Category, k: Kind): Option<Form> {
    match category
    case PlainName => When(k == Identifier, NameForm)
    case AnyName => When(k == Identifier || IsKeyword(k), NameForm)
    case TypeNode => TypeForm(k)
    case ValueNode => if BracketedForm(k).Some? then BracketedForm(k) else ScalarForm(k)
    case ScalarNode => ScalarForm(k)
    case BracketedNode => BracketedForm(k)
    case FieldNode =>
      When(k == At || k == IntConstant || k == Required || k == Optional || TypeForm(k).Some?, FieldForm)
    case FunctionNode => When(k == At || k == Oneway || k == Async || k == Void || TypeForm(k).Some?, FunctionForm)
    case EnumValueNode => When(k == Identifier, EnumValueForm)
    case AnnotationNode => When(k == Identifier, AnnotationForm)
    case AnnotationsNode => When(k == LParen, AnnotationsForm)
    case StructuredNode => When(k == At, StructuredForm)
    case ThrowsNode => When(k == LParen, ThrowsForm)
  }

  // ----- derivations -----

  function Size(rule: Rule): nat {
    match rule
    case End => 0
    case One(_, rest) => 1 + Size(rest)
    case Either(_, _, rest) => 1 + Size(rest)
    case Many(_, rest) => 1 + Size(rest)
  }

  function Room(toks: seq<Token>, p: nat): nat {
    if p <= |toks| then |toks| - p else 0
  }

  predicate IsName(k: Kind) {
    k == Identifier || IsKeyword(k)
  }

  /** The parts of n from i on, and the tokens from p to its end, are derived from the rule. */
  ghost predicate Derives(toks: seq<Token>, p: nat, rule: Rule, n: Node, i: nat)
    decreases n, 0, Room(toks, p), if rule.One? then 0 else 1, Size(rule)
  {
    match rule
    case End => i == |n.parts| && p == n.last + 1
    case One(Bare(kinds), rest) =>
      KindAt(toks, p) in kinds && KindAt(toks, p) != EOF && Derives(toks, Past(toks, p), rest, n, i)
    case One(BareName, rest) =>
      IsName(KindAt(toks, p)) && KindAt(toks, p) != EOF && Derives(toks, Past(toks, p), rest, n, i)
    case One(Mark(role, kinds), rest) =>
      && KindAt(toks, p) in kinds && KindAt(toks, p) != EOF
      && i < |n.parts| && n.parts[i] == Child(role, Leaf(Index(toks, p)))
      && Derives(toks, Past(toks, p), rest, n, i + 1)
    case One(Part(role, category), rest) =>
      && i < |n.parts| && n.parts[i].role == role && Stands(toks, p, category, n.parts[i].node)
      && Derived(toks, p, n.parts[i].node) && Derives(toks, n.parts[i].node.last + 1, rest, n, i + 1)
    case Either(g, h, rest) =>
      || (g.One? && Derives(toks, p, Then(g, rest), n, i))
      || (if h.One? then Derives(toks, p, Then(h, rest), n, i) else Derives(toks, p, rest, n, i))
    case Many(g, rest) =>
      || Derives(toks, p, rest, n, i)
      || (g.One? && Derives(toks, p, Then(g, Many(g, rest)), n, i))
  }

  /** n starts at p and is a node of the category. */
  predicate Stands(toks: seq<Token>, p: nat, category: Category, n: Node) {
    p <= n.first <= n.last < |toks| && n.first == Index(toks, p) && Choose(category, KindAt(toks, p)) == Some(n.form)
  }

  /** n, from p on, is a derivation tree: it, and every node in it, is derived from its production. */
  ghost predicate Derived(toks: seq<Token>, p: nat, n: Node)
    decreases n, 1
  {
    Derives(toks, p, Production(n.form), n, 0)
  }
}
