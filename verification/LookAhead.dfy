/** Why one token of look-ahead decides every choice and repetition of the grammar (syntax/parser.go). */
module LookAhead {
  import opened Lexing
  import opened Ast
  import opened TypeText
  import opened Grammar
  import opened Reading
  import opened Wrappers

  /** The kinds that cannot come after an entry or a definition, because they would continue it. */
  predicate Continues(k: Kind) {
    k == LParen || k == Comma || k == Semicolon || k == Equal || k == Throws
  }

  /** What may follow a node: anything; for a type, not its annotations; for an entry or a definition,
      nothing that continues it. */
  datatype Ending = Free | NoParen | Complete

  predicate Follows(e: Ending, k: Kind) {
    match e
    case Free => true
    case NoParen => k != LParen
    case Complete => !Continues(k)
  }

  function EndingOf(form: Form): Ending {
    if form.BaseTypeForm? || form.MapTypeForm? || form.ListTypeForm? || form.SetTypeForm? then NoParen
    else if TakesStructured(form) || form.EnumValueForm? || form.AnnotationForm? || form.IncludeForm?
         || form.CPPIncludeForm?
    then Complete
    else Free
  }

  function EndingIn(category: Category): Ending {
    match category
    case TypeNode => NoParen
    case FieldNode => Complete
    case FunctionNode => Complete
    case EnumValueNode => Complete
    case AnnotationNode => Complete
    case _ => Free
  }

  lemma ChosenEnding(category: Category, k: Kind)
    ensures Choose(category, k).Some? ==>
              var e := EndingOf(Choose(category, k).value); e == EndingIn(category) || e == Free
  {
    hide TypeForm, ScalarForm, BracketedForm, IsKeyword;
    match category
    case TypeNode => TypeEnding(k);
    case ValueNode => ValueEnding(k);
    case ScalarNode => ValueEnding(k);
    case BracketedNode => ValueEnding(k);
    case _ =>
  }

  lemma TypeEnding(k: Kind)
    ensures TypeForm(k).Some? ==> EndingOf(TypeForm(k).value) == NoParen || EndingOf(TypeForm(k).value) == Free
  {
    hide IsBaseType;
  }

  lemma ValueEnding(k: Kind)
    ensures ScalarForm(k).Some? ==> EndingOf(ScalarForm(k).value) == Free
    ensures BracketedForm(k).Some? ==> EndingOf(BracketedForm(k).value) == Free
  {
  }

  /** Whether what is derived from the rule, in a node with that ending, can start with k. */
  predicate CanStart(rule: Rule, e: Ending, k: Kind) {
    match rule
    case End => Follows(e, k)
    case One(s, _) => SymbolStarts(s, k)
    case Either(g, h, rest) => Starts(g, k) || (if h.One? then Starts(h, k) else CanStart(rest, e, k))
    case Many(g, rest) => Starts(g, k) || CanStart(rest, e, k)
  }

  /** Neither g nor what comes instead of it starts with a kind the other starts with. */
  ghost predicate Apart(g: Rule, other: Rule, e: Ending) {
    forall k: Kind :: Starts(g, k) ==> !CanStart(other, e, k)
  }

  /** In rule, followed by more, every choice can be made by the next token. */
  ghost predicate Decided(rule: Rule, more: Rule, e: Ending) {
    match rule
    case End => true
    case One(s, rest) =>
      && (s.Part? ==> forall k: Kind :: CanStart(Then(rest, more), e, k) ==> Follows(EndingIn(s.category), k))
      && Decided(rest, more, e)
    case Either(g, h, rest) =>
      && g.One? && Apart(g, Then(h, Then(rest, more)), e) && (h.One? || h.End?)
      && Decided(g, Then(rest, more), e) && Decided(h, Then(rest, more), e) && Decided(rest, more, e)
    case Many(g, rest) =>
      && g.One? && Apart(g, Then(rest, more), e)
      && Decided(g, Many(g, Then(rest, more)), e) && Decided(rest, more, e)
  }

  lemma {:induction false} ThenEnd(a: Rule)
    ensures Then(a, End) == a
  {
    match a
    case End =>
    case One(_, rest) => ThenEnd(rest);
    case Either(_, _, rest) => ThenEnd(rest);
    case Many(_, rest) => ThenEnd(rest);
  }

  lemma {:induction false} ThenThen(a: Rule, b: Rule, c: Rule)
    ensures Then(Then(a, b), c) == Then(a, Then(b, c))
  {
    match a
    case End =>
    case One(_, rest) => ThenThen(rest, b, c);
    case Either(_, _, rest) => ThenThen(rest, b, c);
    case Many(_, rest) => ThenThen(rest, b, c);
  }

  lemma {:induction false} DecidedThen(a: Rule, b: Rule, more: Rule, e: Ending)
    requires Decided(a, Then(b, more), e) && Decided(b, more, e)
    ensures Decided(Then(a, b), more, e)
  {
    hide CanStart, Apart, Follows, EndingIn;
    match a
    case End =>
    case One(_, rest) =>
      DecidedThen(rest, b, more, e);
      ThenThen(rest, b, more);
    case Either(g, h, rest) =>
      DecidedThen(rest, b, more, e);
      ThenThen(rest, b, more);
    case Many(g, rest) =>
      DecidedThen(rest, b, more, e);
      ThenThen(rest, b, more);
  }

  /** What a rule followed by nothing says about its parts. */
  lemma DecidedParts(rule: Rule, e: Ending)
    requires Decided(rule, End, e)
    ensures rule.One? ==> Decided(rule.rest, End, e)
    ensures rule.One? && rule.symbol.Part? ==>
              forall k: Kind :: CanStart(rule.rest, e, k) ==> Follows(EndingIn(rule.symbol.category), k)
    ensures rule.Either? ==>
              && rule.first.One? && Apart(rule.first, Then(rule.second, rule.rest), e)
              && (rule.second.One? || rule.second.End?)
              && Decided(Then(rule.first, rule.rest), End, e) && Decided(Then(rule.second, rule.rest), End, e)
    ensures rule.Many? ==>
              && rule.each.One? && Apart(rule.each, rule.rest, e)
              && Decided(Then(rule.each, rule), End, e) && Decided(rule.rest, End, e)
  {
    hide CanStart, Apart, Follows, EndingIn;
    match rule
    case End =>
    case One(_, rest) => ThenEnd(rest);
    case Either(g, h, rest) =>
      ThenEnd(rest);
      DecidedThen(g, rest, End, e);
      DecidedThen(h, rest, End, e);
    case Many(g, rest) =>
      ThenEnd(rest);
      ThenEnd(rule);
      DecidedThen(g, rule, End, e);
  }

  // ----- the productions -----

  lemma AddSymbol(s: Symbol, rest: Rule, e: Ending)
    requires Decided(rest, End, e)
    requires s.Part? ==> forall k: Kind :: CanStart(rest, e, k) ==> Follows(EndingIn(s.category), k)
    ensures Decided(One(s, rest), End, e)
  {
    hide CanStart, Follows;
    ThenEnd(rest);
  }

  lemma AddEither(g: Rule, h: Rule, rest: Rule, e: Ending)
    requires g.One? && (h.One? || h.End?) && Apart(g, Then(h, rest), e)
    requires Decided(g, rest, e) && Decided(h, rest, e) && Decided(rest, End, e)
    ensures Decided(Either(g, h, rest), End, e)
  {
    hide CanStart, Apart;
    ThenEnd(rest);
  }

  lemma AddMany(g: Rule, rest: Rule, e: Ending)
    requires g.One? && Apart(g, rest, e) && Decided(g, Many(g, rest), e) && Decided(rest, End, e)
    ensures Decided(Many(g, rest), End, e)
  {
    hide CanStart, Apart;
    ThenEnd(rest);
  }

  /** A repetition of entries up to a bracket. */
  lemma AddEach(category: Category, close: Kind, rest: Rule, e: Ending)
    requires Decided(rest, End, e) && close in {RBrace, RParen}
    requires category == FieldNode || category == FunctionNode || category == EnumValueNode
             || category == AnnotationNode
    ensures Decided(Each(category, Tok(close, rest)), End, e)
  {
    hide TypeForm, ScalarForm, IsKeyword, Decided, Choose, Continues;
    MemberStarts(category);
    var g, bracket := One(Part(EntryRole, category), End), Tok(close, rest);
    AddSymbol(Bare({close}), rest, e);
    OneEntry(category, Many(g, bracket), e);
    AddMany(g, bracket, e);
  }

  lemma EntryStarts()
    ensures forall k: Kind :: TypeForm(k).Some? ==>
                                && !Continues(k) && k != RBrace && k != RParen && k != At && k != Oneway && k != Async
                                && k != Void && k != IntConstant && k != Required && k != Optional
  {
    hide IsBaseType;
    BaseStarts();
  }

  lemma BaseStarts()
    ensures forall k: Kind :: IsBaseType(k) ==>
                                && !Continues(k) && k != RBrace && k != RParen && k != At && k != Oneway && k != Async
                                && k != Void && k != IntConstant && k != Required && k != Optional
  {
  }

  lemma MemberStarts(category: Category)
    requires category == FieldNode || category == FunctionNode || category == EnumValueNode
             || category == AnnotationNode
    ensures forall k: Kind :: Choose(category, k).Some? ==> !Continues(k) && k != RBrace && k != RParen
    ensures EndingIn(category) == Complete && !Continues(RBrace) && !Continues(RParen)
  {
    hide TypeForm, ScalarForm, IsKeyword;
    EntryStarts();
  }

  lemma OneEntry(category: Category, more: Rule, e: Ending)
    requires forall k: Kind :: CanStart(more, e, k) ==> Follows(EndingIn(category), k)
    ensures Decided(One(Part(EntryRole, category), End), more, e)
  {
    hide CanStart, Follows, EndingIn;
    assert Then(End, more) == more;
  }

  lemma AddStructured(rest: Rule, e: Ending)
    requires Decided(rest, End, e) && !CanStart(rest, e, At)
    ensures Decided(StructuredFirst(rest), End, e)
  {
    hide CanStart;
    var g := One(Part(StructuredRole, StructuredNode), End);
    assert Then(End, Many(g, rest)) == Many(g, rest);
    AddMany(g, rest, e);
  }

  lemma AnnotatedDecided(e: Ending)
    requires e != Free
    ensures Decided(Annotated(End), End, e)
    ensures forall k: Kind :: CanStart(Annotated(End), e, k) <==> k == LParen || Follows(e, k)
  {
    hide TypeForm, ScalarForm, BracketedForm, IsKeyword;
    AddEither(One(Part(AnnotationsRole, AnnotationsNode), End), End, End, e);
  }

  lemma SepDecided()
    ensures Decided(Sep(End), End, Complete)
    ensures forall k: Kind :: CanStart(Sep(End), Complete, k) <==> k == Comma || k == Semicolon || !Continues(k)
  {
    AddEither(One(Mark(SepRole, {Comma, Semicolon}), End), End, End, Complete);
  }

  lemma TailDecided()
    ensures Decided(Annotated(Sep(End)), End, Complete)
    ensures forall k: Kind :: CanStart(Annotated(Sep(End)), Complete, k) <==>
                                k == LParen || k == Comma || k == Semicolon || !Continues(k)
  {
    hide TypeForm, ScalarForm, BracketedForm, IsKeyword;
    SepDecided();
    AddEither(One(Part(AnnotationsRole, AnnotationsNode), End), End, Sep(End), Complete);
  }

  /** "{" entries "}" and annotations. */
  lemma BracedDecided(category: Category)
    requires category == FieldNode || category == FunctionNode || category == EnumValueNode
    ensures Decided(Tok(LBrace, Each(category, Tok(RBrace, Annotated(End)))), End, Complete)
  {
    hide Decided, CanStart, IsKeyword, TypeForm, ScalarForm;
    AnnotatedDecided(Complete);
    AddEach(category, RBrace, Annotated(End), Complete);
    AddSymbol(Bare({LBrace}), Each(category, Tok(RBrace, Annotated(End))), Complete);
  }

  lemma LeafDecided(form: Form)
    requires form.NameForm? || form.IntForm? || form.DoubleForm? || form.StringForm? || form.IdentForm?
             || form.TokenForm?
             || form.NamedTypeForm? || form.IncludeForm? || form.CPPIncludeForm?
    ensures Decided(Production(form), End, EndingOf(form))
  {
    hide FieldRest, FunctionRest, CppType, Sep, Each, StructuredFirst, CanStart, Apart;
  }

  lemma BaseDecided(k: Kind)
    ensures Decided(Production(BaseTypeForm(k)), End, NoParen)
  {
    hide Decided, CanStart, Apart, Follows, Production, Annotated;
    AnnotatedDecided(NoParen);
    BaseProduction(k);
    AddSymbol(Bare({k}), Annotated(End), NoParen);
  }

  /** "<" arguments ">" and annotations, where arguments is what remains up to the bracket. */
  lemma BracketDecided()
    ensures Decided(Tok(Gt, Annotated(End)), End, NoParen)
  {
    hide Decided, CanStart, IsKeyword, TypeForm, ScalarForm;
    AnnotatedDecided(NoParen);
    AddSymbol(Bare({Gt}), Annotated(End), NoParen);
  }

  lemma CppDecided(rest: Rule)
    requires Decided(Tok(Lt, rest), End, NoParen)
    ensures Decided(CppType(Tok(Lt, rest)), End, NoParen)
  {
    hide Decided, IsKeyword, TypeForm, ScalarForm;
    var cpp := Tok(CPPType, One(Mark(CPPTypeRole, {StringLiteral}), End));
    CppMarks(Tok(Lt, rest));
    AddEither(cpp, End, Tok(Lt, rest), NoParen);
  }

  lemma CppMarks(rest: Rule)
    ensures Decided(Tok(CPPType, One(Mark(CPPTypeRole, {StringLiteral}), End)), rest, NoParen)
    ensures Decided(End, rest, NoParen)
  {
  }

  lemma MapTypeDecided()
    ensures Decided(Production(MapTypeForm), End, NoParen)
  {
    hide Decided, IsKeyword, TypeForm, ScalarForm;
    BracketDecided();
    var close := Tok(Gt, Annotated(End));
    var value := One(Part(ValueRole, TypeNode), close);
    AddSymbol(Part(ValueRole, TypeNode), close, NoParen);
    AddSymbol(Bare({Comma}), value, NoParen);
    AddSymbol(Part(KeyRole, TypeNode), Tok(Comma, value), NoParen);
    var key := One(Part(KeyRole, TypeNode), Tok(Comma, value));
    AddSymbol(Bare({Lt}), key, NoParen);
    CppDecided(key);
    AddSymbol(Bare({Map}), CppType(Tok(Lt, key)), NoParen);
  }

  lemma ElementTypeDecided(form: Form)
    requires form == ListTypeForm || form == SetTypeForm
    ensures Decided(Production(form), End, NoParen)
  {
    hide Decided, IsKeyword, TypeForm, ScalarForm;
    BracketDecided();
    var close := Tok(Gt, Annotated(End));
    var value := One(Part(ValueRole, TypeNode), close);
    AddSymbol(Part(ValueRole, TypeNode), close, NoParen);
    AddSymbol(Bare({Lt}), value, NoParen);
    CppDecided(value);
    AddSymbol(Bare({List}), CppType(Tok(Lt, value)), NoParen);
    AddSymbol(Bare({Set}), CppType(Tok(Lt, value)), NoParen);
  }

  lemma ScalarStarts()
    ensures forall k: Kind :: ScalarForm(k).Some? ==> k != Comma && k != Semicolon && k != RBracket && k != RBrace
  {
  }

  /** A value and its separator, in front of more. */
  lemma EntryDecided(role: Role, more: Rule)
    requires forall k: Kind :: CanStart(more, Free, k) ==> k != Comma && k != Semicolon
    ensures Decided(One(Part(role, ValueNode), Sep(End)), more, Free)
  {
    hide IsKeyword, TypeForm, ScalarForm;
    SepBefore(more);
  }

  lemma SepBefore(more: Rule)
    requires forall k: Kind :: CanStart(more, Free, k) ==> k != Comma && k != Semicolon
    ensures Decided(Sep(End), more, Free)
  {
    hide CanStart;
    var g := One(Mark(SepRole, {Comma, Semicolon}), End);
    assert Then(End, more) == more && Then(End, Then(End, more)) == more;
    assert forall k: Kind :: Starts(g, k) ==> k == Comma || k == Semicolon;
    assert Apart(g, more, Free) && Decided(g, more, Free);
  }

  lemma KeyDecided(more: Rule)
    requires Decided(One(Part(ValueRole, ValueNode), Sep(End)), more, Free)
    ensures Decided(One(Part(KeyRole, ValueNode), Tok(Colon, One(Part(ValueRole, ValueNode), Sep(End)))), more, Free)
  {
    hide IsKeyword, TypeForm, ScalarForm, CanStart, Apart;
  }

  lemma ListDecided()
    ensures Decided(Production(ListForm), End, Free)
  {
    hide Decided, IsKeyword, TypeForm, ScalarForm;
    var close := Tok(RBracket, End);
    var each := One(Part(EntryRole, ValueNode), Sep(End));
    ScalarStarts();
    NothingDecided(Free);
    AddSymbol(Bare({RBracket}), End, Free);
    EntryDecided(EntryRole, Many(each, close));
    AddMany(each, close, Free);
    AddSymbol(Bare({LBracket}), Many(each, close), Free);
  }

  lemma MapDecided()
    ensures Decided(Production(MapForm), End, Free)
  {
    hide Decided, IsKeyword, TypeForm, ScalarForm;
    var close := Tok(RBrace, End);
    var each := One(Part(KeyRole, ValueNode), Tok(Colon, One(Part(ValueRole, ValueNode), Sep(End))));
    ScalarStarts();
    NothingDecided(Free);
    AddSymbol(Bare({RBrace}), End, Free);
    EntryDecided(ValueRole, Many(each, close));
    KeyDecided(Many(each, close));
    AddMany(each, close, Free);
    AddSymbol(Bare({LBrace}), Many(each, close), Free);
  }

  lemma AnnotationDecided()
    ensures Decided(Production(AnnotationForm), End, Complete)
  {
    hide Decided, IsKeyword, TypeForm, ScalarForm;
    SepDecided();
    var value := Tok(Equal, One(Mark(ValueRole, {StringLiteral}), End));
    LiteralDecided(Sep(End));
    AddEither(value, End, Sep(End), Complete);
    AddSymbol(Part(NameRole, PlainName), Opt(value, Sep(End)), Complete);
  }

  lemma LiteralDecided(tail: Rule)
    ensures Decided(Tok(Equal, One(Mark(ValueRole, {StringLiteral}), End)), tail, Complete)
    ensures Decided(End, tail, Complete)
  {
  }

  lemma AnnotationsDecided()
    ensures Decided(Production(AnnotationsForm), End, Free)
  {
    hide Decided, CanStart, IsKeyword, TypeForm, ScalarForm;
    NothingDecided(Free);
    AddEach(AnnotationNode, RParen, End, Free);
    AddSymbol(Bare({LParen}), Each(AnnotationNode, Tok(RParen, End)), Free);
  }

  lemma NothingDecided(e: Ending)
    ensures Decided(End, End, e)
  {
  }

  lemma StructuredDecided()
    ensures Decided(Production(StructuredForm), End, Free)
  {
    hide Decided, IsKeyword, TypeForm, ScalarForm;
    var scalar := Tok(LParen, One(Part(ValueRole, ScalarNode), Tok(RParen, End)));
    var bracketed := One(Part(ValueRole, BracketedNode), End);
    NothingDecided(Free);
    AddSymbol(Part(ValueRole, BracketedNode), End, Free);
    AddSymbol(Bare({RParen}), End, Free);
    AddSymbol(Part(ValueRole, ScalarNode), Tok(RParen, End), Free);
    AddSymbol(Bare({LParen}), One(Part(ValueRole, ScalarNode), Tok(RParen, End)), Free);
    AddEither(scalar, bracketed, End, Free);
    AddSymbol(Part(NameRole, PlainName), Either(scalar, bracketed, End), Free);
    AddSymbol(Bare({At}), Name(Either(scalar, bracketed, End)), Free);
  }

  lemma ThrowsDecided()
    ensures Decided(Production(ThrowsForm), End, Free)
  {
    hide Decided, CanStart, IsKeyword, TypeForm, ScalarForm;
    NothingDecided(Free);
    AddEach(FieldNode, RParen, End, Free);
    AddSymbol(Bare({LParen}), Each(FieldNode, Tok(RParen, End)), Free);
  }

  lemma NamespaceDecided()
    ensures Decided(Production(NamespaceForm), End, Complete)
  {
    hide Decided, IsKeyword, TypeForm, ScalarForm;
    AnnotatedDecided(Complete);
    AddSymbol(Part(NameRole, PlainName), Annotated(End), Complete);
    AddSymbol(Mark(ScopeRole, {Identifier, Star}), Name(Annotated(End)), Complete);
    AddSymbol(Bare({Namespace}), One(Mark(ScopeRole, {Identifier, Star}), Name(Annotated(End))), Complete);
    AddStructured(Body(NamespaceForm), Complete);
  }

  lemma ConstDecided()
    ensures Decided(Production(ConstForm), End, Complete)
  {
    hide Decided, IsKeyword, TypeForm, ScalarForm;
    SepDecided();
    var value := One(Part(ValueRole, ValueNode), Sep(End));
    AddSymbol(Part(ValueRole, ValueNode), Sep(End), Complete);
    AddSymbol(Bare({Equal}), value, Complete);
    AddSymbol(Part(NameRole, PlainName), Tok(Equal, value), Complete);
    AddSymbol(Part(TypeRole, TypeNode), Name(Tok(Equal, value)), Complete);
    AddSymbol(Bare({Const}), One(Part(TypeRole, TypeNode), Name(Tok(Equal, value))), Complete);
    AddStructured(Body(ConstForm), Complete);
  }

  lemma TypedefDecided()
    ensures Decided(Production(TypedefForm), End, Complete)
  {
    hide Decided, IsKeyword, TypeForm, ScalarForm;
    TailDecided();
    var tail := Annotated(Sep(End));
    AddSymbol(Part(NameRole, PlainName), tail, Complete);
    AddSymbol(Part(TypeRole, TypeNode), Name(tail), Complete);
    AddSymbol(Bare({Typedef}), One(Part(TypeRole, TypeNode), Name(tail)), Complete);
    AddStructured(Body(TypedefForm), Complete);
  }

  lemma EnumDecided()
    ensures Decided(Production(EnumForm), End, Complete)
  {
    hide Decided, IsKeyword, TypeForm, ScalarForm;
    var tail := Tok(LBrace, Each(EnumValueNode, Tok(RBrace, Annotated(End))));
    BracedDecided(EnumValueNode);
    AddSymbol(Part(NameRole, PlainName), tail, Complete);
    AddSymbol(Bare({Enum}), Name(tail), Complete);
    AddStructured(Body(EnumForm), Complete);
  }

  lemma StructDecided(k: Kind)
    requires k != At
    ensures Decided(Production(StructForm(k)), End, Complete)
  {
    hide Decided, IsKeyword, TypeForm, ScalarForm;
    var tail := Tok(LBrace, Each(FieldNode, Tok(RBrace, Annotated(End))));
    BracedDecided(FieldNode);
    AddSymbol(Part(NameRole, PlainName), tail, Complete);
    AddSymbol(Bare({k}), Name(tail), Complete);
    AddStructured(Body(StructForm(k)), Complete);
  }

  lemma ServiceDecided()
    ensures Decided(Production(ServiceForm), End, Complete)
  {
    hide Decided, IsKeyword, TypeForm, ScalarForm;
    var tail := Tok(LBrace, Each(FunctionNode, Tok(RBrace, Annotated(End))));
    var base := Tok(Extends, One(Part(ExtendsRole, PlainName), End));
    BracedDecided(FunctionNode);
    NothingDecided(Complete);
    BaseServiceDecided(tail);
    AddEither(base, End, tail, Complete);
    AddSymbol(Part(NameRole, PlainName), Opt(base, tail), Complete);
    AddSymbol(Bare({Service}), Name(Opt(base, tail)), Complete);
    AddStructured(Body(ServiceForm), Complete);
  }

  lemma BaseServiceDecided(tail: Rule)
    ensures Decided(Tok(Extends, One(Part(ExtendsRole, PlainName), End)), tail, Complete)
    ensures Decided(End, tail, Complete)
  {
  }

  lemma EnumValueDecided()
    ensures Decided(Production(EnumValueForm), End, Complete)
  {
    hide Decided, IsKeyword, TypeForm, ScalarForm;
    var tail := Annotated(Sep(End));
    var value := Tok(Equal, One(Mark(ValueRole, {IntConstant}), End));
    TailDecided();
    ValueDecided(tail);
    AddEither(value, End, tail, Complete);
    AddSymbol(Part(NameRole, PlainName), Opt(value, tail), Complete);
  }

  lemma ValueDecided(tail: Rule)
    ensures Decided(Tok(Equal, One(Mark(ValueRole, {IntConstant}), End)), tail, Complete)
    ensures Decided(End, tail, Complete)
  {
  }

  lemma FieldDecided()
    ensures Decided(Production(FieldForm), End, Complete)
  {
    hide Decided, IsKeyword, TypeForm, ScalarForm;
    hide CanStart, Apart, Choose;
    FieldApart();
    FieldRestDecided();
    var typed := One(Part(TypeRole, TypeNode), FieldRest());
    var req, id := One(Mark(ReqRole, {Required, Optional}), End), One(Mark(IDRole, {IntConstant}), Tok(Colon, End));
    AddSymbol(Part(TypeRole, TypeNode), FieldRest(), Complete);
    MarksDecided(typed);
    MarksDecided(Opt(req, typed));
    AddEither(req, End, typed, Complete);
    AddEither(id, End, Opt(req, typed), Complete);
    AddStructured(Body(FieldForm), Complete);
  }

  lemma FieldApart()
    ensures var typed := One(Part(TypeRole, TypeNode), FieldRest());
            var req, id := One(Mark(ReqRole, {Required, Optional}), End),
                One(Mark(IDRole, {IntConstant}), Tok(Colon, End));
            && Apart(req, typed, Complete) && Apart(id, Opt(req, typed), Complete)
            && !CanStart(Opt(id, Opt(req, typed)), Complete, At)
  {
    hide FieldRest, IsKeyword, TypeForm, ScalarForm;
    EntryStarts();
  }

  lemma MarksDecided(rest: Rule)
    ensures Decided(One(Mark(ReqRole, {Required, Optional}), End), rest, Complete)
    ensures Decided(One(Mark(IDRole, {IntConstant}), Tok(Colon, End)), rest, Complete)
    ensures Decided(One(Mark(ReferenceRole, {Amp}), End), rest, Complete)
    ensures Decided(One(Mark(OnewayRole, {Oneway, Async}), End), rest, Complete)
    ensures Decided(One(Mark(VoidRole, {Void}), End), rest, Complete)
    ensures Decided(End, rest, Complete)
  {
  }

  lemma FieldRestDecided()
    ensures Decided(FieldRest(), End, Complete)
    ensures forall k: Kind :: CanStart(FieldRest(), Complete, k) ==> k == Amp || IsName(k)
    ensures !IsName(LParen) && !IsName(Amp)
  {
    hide Decided, CanStart, Apart, Choose, IsName;
    NotNames();
    TailDecided();
    DefaultApart();
    var tail := Annotated(Sep(End));
    var value := Tok(Equal, One(Part(ValueRole, ValueNode), End));
    DefaultDecided(tail);
    AddEither(value, End, tail, Complete);
    AddSymbol(Part(NameRole, AnyName), Opt(value, tail), Complete);
    var named := One(Part(NameRole, AnyName), Opt(value, tail));
    MarksDecided(named);
    NamedApart(Opt(value, tail));
    AddEither(One(Mark(ReferenceRole, {Amp}), End), End, named, Complete);
  }

  /** "&" starts no name. */
  lemma NamedApart(rest: Rule)
    ensures var amp, named := One(Mark(ReferenceRole, {Amp}), End), One(Part(NameRole, AnyName), rest);
            && Apart(amp, named, Complete)
            && forall k: Kind :: CanStart(Opt(amp, named), Complete, k) ==> k == Amp || IsName(k)
  {
    hide IsName, Choose;
    AnyNames();
    NotNames();
  }

  lemma DefaultApart()
    ensures Apart(Tok(Equal, One(Part(ValueRole, ValueNode), End)), Annotated(Sep(End)), Complete)
  {
    hide Choose;
    TailDecided();
  }

  lemma AnyNames()
    ensures forall k: Kind :: Choose(AnyName, k).Some? <==> IsName(k)
  {
    hide IsKeyword;
  }

  lemma KeywordKinds()
    ensures forall text :: text in Keywords() ==> Keywords()[text] != LParen && Keywords()[text] != Amp
  {
  }

  lemma NotNames()
    ensures !IsName(LParen) && !IsName(Amp)
  {
    hide Keywords;
    KeywordKinds();
  }

  lemma DefaultDecided(tail: Rule)
    requires Decided(tail, End, Complete)
    ensures Decided(Tok(Equal, One(Part(ValueRole, ValueNode), End)), tail, Complete) && Decided(End, tail, Complete)
  {
    hide CanStart, Apart, Choose;
  }

  lemma FunctionDecided()
    ensures Decided(Production(FunctionForm), End, Complete)
  {
    hide Decided, IsKeyword, TypeForm, ScalarForm;
    hide CanStart, Apart, Choose;
    FunctionApart();
    FunctionRestDecided();
    var void, typed := One(Mark(VoidRole, {Void}), End), One(Part(TypeRole, TypeNode), End);
    var oneway := One(Mark(OnewayRole, {Oneway, Async}), End);
    MarksDecided(FunctionRest());
    ReturnDecided();
    AddEither(void, typed, FunctionRest(), Complete);
    var rest := Either(void, typed, FunctionRest());
    MarksDecided(rest);
    AddEither(oneway, End, rest, Complete);
    AddStructured(Body(FunctionForm), Complete);
  }

  lemma FunctionApart()
    ensures var void, typed := One(Mark(VoidRole, {Void}), End), One(Part(TypeRole, TypeNode), End);
            var oneway, rest := One(Mark(OnewayRole, {Oneway, Async}), End), Either(void, typed, FunctionRest());
            && Apart(void, Then(typed, FunctionRest()), Complete) && Apart(oneway, rest, Complete)
            && !CanStart(Opt(oneway, rest), Complete, At)
  {
    hide FunctionRest, IsKeyword, TypeForm, ScalarForm;
    EntryStarts();
  }

  lemma ReturnDecided()
    ensures Decided(One(Part(TypeRole, TypeNode), End), FunctionRest(), Complete)
  {
    assert Then(End, FunctionRest()) == FunctionRest();
  }

  lemma FunctionRestDecided()
    ensures Decided(FunctionRest(), End, Complete)
  {
    hide Decided, IsKeyword, TypeForm, ScalarForm;
    TailDecided();
    var tail := Annotated(Sep(End));
    var throws := Tok(Throws, One(Part(ThrowsRole, ThrowsNode), End));
    ThrowsClauseDecided(tail);
    AddEither(throws, End, tail, Complete);
    var clause := ThrowsClause(tail);
    AddEach(FieldNode, RParen, clause, Complete);
    AddSymbol(Bare({LParen}), Each(FieldNode, Tok(RParen, clause)), Complete);
    AddSymbol(Part(NameRole, PlainName), Tok(LParen, Each(FieldNode, Tok(RParen, clause))), Complete);
  }

  lemma ThrowsClauseDecided(tail: Rule)
    ensures Decided(Tok(Throws, One(Part(ThrowsRole, ThrowsNode), End)), tail, Complete) && Decided(End, tail, Complete)
  {
  }

  /** Every production can be read with one token of look-ahead. */
  lemma ProductionDecided(form: Form)
    requires form.StructForm? ==> form.kind != At
    ensures Decided(Production(form), End, EndingOf(form))
  {
    hide Decided, Production;
    match form
    case NamespaceForm => NamespaceDecided();
    case ConstForm => ConstDecided();
    case TypedefForm => TypedefDecided();
    case EnumForm => EnumDecided();
    case EnumValueForm => EnumValueDecided();
    case StructForm(k) => StructDecided(k);
    case ServiceForm => ServiceDecided();
    case FunctionForm => FunctionDecided();
    case ThrowsForm => ThrowsDecided();
    case FieldForm => FieldDecided();
    case BaseTypeForm(k) => BaseDecided(k);
    case MapTypeForm => MapTypeDecided();
    case ListTypeForm => ElementTypeDecided(form);
    case SetTypeForm => ElementTypeDecided(form);
    case ListForm => ListDecided();
    case MapForm => MapDecided();
    case AnnotationForm => AnnotationDecided();
    case AnnotationsForm => AnnotationsDecided();
    case StructuredForm => StructuredDecided();
    case _ => LeafDecided(form);
  }
}
