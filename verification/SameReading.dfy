/** Reading a token stream depends on the kinds of its tokens only, and not on which of the two words for
    a oneway function is used (syntax/parser.go). */
module SameReading {
  import opened Lexing
  import opened Ast
  import opened TypeText
  import opened Grammar
  import opened Reading
  import opened Documents
  import opened Wrappers

  predicate Alike(k: Kind, l: Kind) {
    k == l || (k == Async && l == Oneway)
  }

  /** The two streams have alike tokens and comments up to n, and nothing but comments between n and EOF. */
  ghost predicate SameStream(a: seq<Token>, b: seq<Token>, n: nat) {
    && n <= |a| && n <= |b| && KindAt(a, n) == EOF && KindAt(b, n) == EOF
    && forall i :: 0 <= i < n ==> Alike(a[i].kind, b[i].kind) && a[i].kind != EOF
  }

  // ----- the next token -----

  lemma {:induction false} NextSame(a: seq<Token>, b: seq<Token>, n: nat, p: nat)
    requires SameStream(a, b, n) && p <= n
    ensures NextReal(a, p) < n ==> NextReal(b, p) == NextReal(a, p)
    ensures NextReal(a, p) >= n ==> NextReal(a, p) == NextReal(a, n) && NextReal(b, p) == NextReal(b, n)
    decreases n - p
  {
    hide KindAt, IsComment, Alike;
    if p < n {
      assert Alike(a[p].kind, b[p].kind);
      AlikeComments(a[p].kind, b[p].kind);
      if IsComment(a[p].kind) {
        NextSame(a, b, n, p + 1);
      }
    }
  }

  lemma AlikeComments(k: Kind, l: Kind)
    requires Alike(k, l)
    ensures IsComment(k) <==> IsComment(l)
    ensures k == EOF <==> l == EOF
  {
  }

  lemma KindSame(a: seq<Token>, b: seq<Token>, n: nat, p: nat)
    requires SameStream(a, b, n) && p <= n
    ensures Alike(KindAt(a, p), KindAt(b, p))
    ensures KindAt(a, p) != EOF ==> Index(a, p) == Index(b, p) < n && Past(a, p) == Past(b, p) <= n
  {
    hide NextReal;
    NextSame(a, b, n, p);
    if NextReal(a, p) < n {
      assert Alike(a[NextReal(a, p)].kind, b[NextReal(a, p)].kind);
    }
  }

  // ----- rules that treat the two words alike -----

  predicate FairSet(kinds: set<Kind>) {
    Async in kinds <==> Oneway in kinds
  }

  predicate Fair(rule: Rule) {
    match rule
    case End => true
    case One(s, rest) => ((s.Bare? || s.Mark?) ==> FairSet(s.kinds)) && Fair(rest)
    case Either(g, h, rest) => Fair(g) && Fair(h) && Fair(rest)
    case Many(g, rest) => Fair(g) && Fair(rest)
  }

  lemma {:induction false} FairThen(a: Rule, b: Rule)
    requires Fair(a) && Fair(b)
    ensures Fair(Then(a, b))
  {
    hide FairSet;
    match a
    case End =>
    case One(_, rest) => FairThen(rest, b);
    case Either(_, _, rest) => FairThen(rest, b);
    case Many(_, rest) => FairThen(rest, b);
  }

  /** The kind of a base type or of a definition is neither word. */
  predicate FairForm(form: Form) {
    match form
    case BaseTypeForm(k) => k != Async && k != Oneway
    case StructForm(k) => k != Async && k != Oneway
    case _ => true
  }

  lemma FairProduction(form: Form)
    requires FairForm(form)
    ensures Fair(Body(form)) && Fair(Production(form))
  {
    FairRests();
    if form.FieldForm? {
      var typed := One(Part(TypeRole, TypeNode), FieldRest());
      var req, id := One(Mark(ReqRole, {Required, Optional}), End), One(Mark(IDRole, {IntConstant}), Tok(Colon, End));
      assert Fair(typed) && Fair(req) && Fair(id) && Fair(Opt(req, typed));
    } else if form.FunctionForm? {
      var void, typed := One(Mark(VoidRole, {Void}), End), One(Part(TypeRole, TypeNode), End);
      var oneway := One(Mark(OnewayRole, {Oneway, Async}), End);
      assert Fair(void) && Fair(typed) && Fair(oneway) && Fair(Either(void, typed, FunctionRest()));
    } else {
      FairBody(form);
    }
    assert Fair(One(Part(StructuredRole, StructuredNode), End));
  }

  lemma FairRests()
    ensures Fair(FieldRest()) && Fair(FunctionRest())
  {
    var tail := Annotated(Sep(End));
    assert Fair(Sep(End)) && Fair(tail);
    assert Fair(Opt(Tok(Equal, One(Part(ValueRole, ValueNode), End)), tail));
    assert Fair(ThrowsClause(tail));
    assert Fair(Each(FieldNode, Tok(RParen, ThrowsClause(tail))));
  }

  lemma FairBody(form: Form)
    requires FairForm(form) && !form.FieldForm? && !form.FunctionForm?
    ensures Fair(Body(form))
  {
    hide FieldRest, FunctionRest, Sep, Annotated, CppType, Each;
    FairPhrases();
    FairLists();
    match form
    case MapTypeForm => FairArguments();
    case ListTypeForm => FairArguments();
    case SetTypeForm => FairArguments();
    case _ =>
  }

  lemma FairLists()
    ensures forall category :: Fair(Each(category, Tok(RBrace, Annotated(End))))
    ensures forall category :: Fair(Each(category, Tok(RParen, End)))
  {
    hide Annotated;
    FairPhrases();
    forall category: Category
      ensures Fair(Each(category, Tok(RBrace, Annotated(End)))) && Fair(Each(category, Tok(RParen, End)))
    {
      assert Fair(One(Part(EntryRole, category), End));
    }
  }

  lemma FairPhrases()
    ensures Fair(Sep(End)) && Fair(Annotated(End)) && Fair(Annotated(Sep(End)))
  {
  }

  lemma FairArguments()
    ensures var close := Tok(Gt, Annotated(End));
            && Fair(CppType(Tok(Lt, One(Part(ValueRole, TypeNode), close))))
            && Fair(CppType(Tok(Lt, One(Part(KeyRole, TypeNode), Tok(Comma, One(Part(ValueRole, TypeNode), close))))))
  {
    hide Annotated;
    FairPhrases();
    assert Fair(One(Mark(CPPTypeRole, {StringLiteral}), End));
  }

  // ----- the same node -----

  lemma ChosenAlike(category: Category, k: Kind, l: Kind)
    requires Alike(k, l)
    ensures Choose(category, k) == Choose(category, l)
  {
    hide Choose;
    OnewayChosen(category);
  }

  lemma OnewayChosen(category: Category)
    ensures Choose(category, Async) == Choose(category, Oneway)
  {
    hide IsKeyword, TypeForm, ScalarForm, BracketedForm;
    BothWords();
    NeitherStarts();
    match category
    case _ =>
  }

  lemma BothWords()
    ensures IsKeyword(Async) && IsKeyword(Oneway)
  {
    assert "async" in Keywords() && Keywords()["async"] == Async;
    assert "oneway" in Keywords() && Keywords()["oneway"] == Oneway;
  }

  lemma NeitherStarts()
    ensures TypeForm(Async) == None && ScalarForm(Async) == None && BracketedForm(Async) == None
    ensures TypeForm(Oneway) == None && ScalarForm(Oneway) == None && BracketedForm(Oneway) == None
    ensures TypeForm(EOF) == None && ScalarForm(EOF) == None && BracketedForm(EOF) == None
  {
  }

  lemma NoKeywordIsEOF()
    ensures !IsKeyword(EOF)
  {
    hide Keywords;
    KeywordsAreNotEOF();
  }

  lemma KeywordsAreNotEOF()
    ensures forall text :: text in Keywords() ==> Keywords()[text] != EOF
  {
  }

  lemma EOFStartsNothing(category: Category)
    ensures Choose(category, EOF) == None
  {
    hide IsKeyword, TypeForm, ScalarForm, BracketedForm;
    NoKeywordIsEOF();
    NeitherStarts();
  }

  lemma ChosenFair(category: Category, k: Kind)
    ensures Choose(category, k).Some? ==> FairForm(Choose(category, k).value)
  {
    hide IsKeyword, TypeForm, ScalarForm, BracketedForm;
    match category
    case TypeNode => TypeFair(k);
    case ValueNode => ValueFair(k);
    case ScalarNode => ValueFair(k);
    case BracketedNode => ValueFair(k);
    case _ =>
  }

  lemma TypeFair(k: Kind)
    ensures TypeForm(k).Some? ==> FairForm(TypeForm(k).value)
  {
  }

  lemma ValueFair(k: Kind)
    ensures ScalarForm(k).Some? ==> FairForm(ScalarForm(k).value)
    ensures BracketedForm(k).Some? ==> FairForm(BracketedForm(k).value)
  {
  }

  lemma StartsAlike(s: Symbol, k: Kind, l: Kind)
    requires Alike(k, l) && ((s.Bare? || s.Mark?) ==> FairSet(s.kinds))
    ensures SymbolStarts(s, k) <==> SymbolStarts(s, l)
  {
    hide Choose, IsKeyword;
    BothWords();
    if s.Part? {
      ChosenAlike(s.category, k, l);
    }
  }

  /** The streams are read the same by every rule that treats the two words alike. */
  lemma {:induction false} ReadSame(a: seq<Token>, b: seq<Token>, n: nat, p: nat, rule: Rule, rank: nat)
    requires SameStream(a, b, n) && p <= n && Fair(rule)
    ensures ReadFrom(a, p, rule, rank) == ReadFrom(b, p, rule, rank)
    ensures ReadFrom(a, p, rule, rank).Some? ==> ReadFrom(a, p, rule, rank).value.next <= n
    decreases |a| - p, rank, if rule.One? then 0 else 1, Size(rule)
  {
    hide KindAt, Index, Past, Choose, IsName, Rank, Alike, FairSet, SameStream, Production, SymbolStarts;
    Lengths(a, b, n);
    KindSame(a, b, n, p);
    match rule
    case End =>
    case One(s, rest) => SymbolSame(a, b, n, p, s, rest, rank);
    case Either(g, h, rest) =>
      RuleStartsAlike(g, KindAt(a, p), KindAt(b, p));
      FairThen(g, rest);
      FairThen(h, rest);
      if Starts(g, KindAt(a, p)) {
        ReadSame(a, b, n, p, Then(g, rest), rank);
      } else if h.One? {
        ReadSame(a, b, n, p, Then(h, rest), rank);
      } else {
        ReadSame(a, b, n, p, rest, rank);
      }
    case Many(g, rest) =>
      RuleStartsAlike(g, KindAt(a, p), KindAt(b, p));
      FairThen(g, rule);
      if Starts(g, KindAt(a, p)) {
        ReadSame(a, b, n, p, Then(g, rule), rank);
      } else {
        ReadSame(a, b, n, p, rest, rank);
      }
  }

  lemma Lengths(a: seq<Token>, b: seq<Token>, n: nat)
    requires SameStream(a, b, n)
    ensures n <= |a| && n <= |b|
  {
  }

  lemma RuleStartsAlike(g: Rule, k: Kind, l: Kind)
    requires Alike(k, l) && Fair(g)
    ensures Starts(g, k) <==> Starts(g, l)
  {
    hide SymbolStarts, FairSet, Alike;
    if g.One? {
      StartsAlike(g.symbol, k, l);
    }
  }

  lemma {:induction false} SymbolSame(a: seq<Token>, b: seq<Token>, n: nat, p: nat, s: Symbol, rest: Rule, rank: nat)
    requires SameStream(a, b, n) && p <= n && Fair(One(s, rest))
    ensures ReadFrom(a, p, One(s, rest), rank) == ReadFrom(b, p, One(s, rest), rank)
    ensures var r := ReadFrom(a, p, One(s, rest), rank); r.Some? ==> r.value.next <= n
    decreases |a| - p, rank, 0, Size(One(s, rest)), 1
  {
    hide KindAt, Index, Past, Choose, IsName, Rank, Alike, FairSet, SameStream, Production, SymbolStarts;
    Lengths(a, b, n);
    KindSame(a, b, n, p);
    var k := KindAt(a, p);
    StartsAlike(s, k, KindAt(b, p));
    if SymbolStarts(s, k) {
      NotAtEOF(s, k);
      NotAtEOF(s, KindAt(b, p));
      if s.Part? {
        PartSame(a, b, n, p, s, rest, rank);
      } else {
        ReadSame(a, b, n, Past(a, p), rest, TOP_RANK);
      }
    }
  }

  lemma {:induction false} PartSame(a: seq<Token>, b: seq<Token>, n: nat, p: nat, s: Symbol, rest: Rule, rank: nat)
    requires SameStream(a, b, n) && p <= n && Fair(rest) && s.Part? && SymbolStarts(s, KindAt(a, p))
    ensures ReadFrom(a, p, One(s, rest), rank) == ReadFrom(b, p, One(s, rest), rank)
    ensures var r := ReadFrom(a, p, One(s, rest), rank); r.Some? ==> r.value.next <= n
    decreases |a| - p, rank, 0, Size(One(s, rest)), 0
  {
    hide KindAt, Index, Past, Choose, IsName, Rank, Alike, SameStream, Production, ReadFrom, Fair, SymbolStarts;
    Lengths(a, b, n);
    KindSame(a, b, n, p);
    var k := KindAt(a, p);
    NotAtEOF(s, k);
    ChosenAlike(s.category, k, KindAt(b, p));
    var form := Choose(s.category, k).value;
    ChosenFair(s.category, k);
    FairProduction(form);
    PartRead(a, p, s, rest, rank);
    PartRead(b, p, s, rest, rank);
    if Rank(form) < rank {
      ReadSame(a, b, n, p, Production(form), Rank(form));
      var r := ReadFrom(a, p, Production(form), Rank(form));
      if r.Some? && r.value.next > Index(a, p) {
        ReadSame(a, b, n, r.value.next, rest, TOP_RANK);
      }
    }
  }

  /** How a node is read in front of a rest. */
  lemma PartRead(toks: seq<Token>, p: nat, s: Symbol, rest: Rule, rank: nat)
    requires p <= |toks| && s.Part? && Choose(s.category, KindAt(toks, p)).Some?
    ensures var form := Choose(s.category, KindAt(toks, p)).value;
            var n := if Rank(form) < rank then ReadFrom(toks, p, Production(form), Rank(form)) else None;
            ReadFrom(toks, p, One(s, rest), rank) ==
            if n.None? || n.value.next <= Index(toks, p) then None
            else Onto([Child(s.role, Node(form, Index(toks, p), n.value.next - 1, n.value.parts))],
                      ReadFrom(toks, n.value.next, rest, TOP_RANK))
  {
    hide KindAt, Index, Choose, Rank, Production;
  }

  lemma NotAtEOF(s: Symbol, k: Kind)
    requires SymbolStarts(s, k)
    ensures k != EOF && (s.Part? ==> Choose(s.category, k).Some?)
  {
    hide Choose, IsName;
    if s.Part? {
      EOFStartsNothing(s.category);
    }
  }

  // ----- the same document -----

  lemma TopAlike(k: Kind, l: Kind, annotated: bool)
    requires Alike(k, l)
    ensures TopForm(k, annotated) == TopForm(l, annotated)
    ensures TopForm(k, annotated).Some? ==> FairForm(TopForm(k, annotated).value) && k != EOF
  {
    hide TopForm;
    OnewayTop(annotated);
    TopFair(k, annotated);
  }

  lemma OnewayTop(annotated: bool)
    ensures TopForm(Async, annotated) == None && TopForm(Oneway, annotated) == None && TopForm(EOF, annotated) == None
  {
  }

  lemma TopFair(k: Kind, annotated: bool)
    ensures TopForm(k, annotated).Some? ==> FairForm(TopForm(k, annotated).value)
  {
  }

  lemma TopSame(a: seq<Token>, b: seq<Token>, n: nat, p: nat)
    requires SameStream(a, b, n) && p <= n && n <= |a| && n <= |b|
    ensures TopAt(a, p) == TopAt(b, p) && (TopAt(a, p).Some? ==> TopAt(a, p).value.next <= n)
  {
    hide KindAt, Index, Alike, SameStream, ReadFrom, TopForm, Body, FairForm, Production;
    FairFront();
    ReadSame(a, b, n, p, StructuredFirst(End), TOP_RANK);
    KindSame(a, b, n, p);
    FrontRead(a, p);
    var front := Read(a, p, StructuredFirst(End));
    if front.Some? {
      var q := front.value.next;
      KindSame(a, b, n, q);
      TopAlike(KindAt(a, q), KindAt(b, q), front.value.parts != []);
      var form := TopForm(KindAt(a, q), front.value.parts != []);
      if form.Some? {
        FairProduction(form.value);
        ReadSame(a, b, n, q, Body(form.value), TOP_RANK);
      }
    }
  }

  lemma FairFront()
    ensures Fair(StructuredFirst(End)) && At != EOF
  {
    assert Fair(One(Part(StructuredRole, StructuredNode), End));
  }

  lemma {:induction false} DocumentSame(a: seq<Token>, b: seq<Token>, n: nat, p: nat)
    requires SameStream(a, b, n) && p <= n && n <= |a| && n <= |b|
    ensures DocumentAt(a, p) == DocumentAt(b, p)
    decreases n - p
  {
    hide KindAt, Alike, SameStream, TopAt;
    KindSame(a, b, n, p);
    AlikeEnds(KindAt(a, p), KindAt(b, p));
    if KindAt(a, p) != EOF {
      TopSame(a, b, n, p);
      var r := TopAt(a, p);
      if r.Some? {
        DocumentSame(a, b, n, r.value.next);
      }
    }
  }

  lemma AlikeEnds(k: Kind, l: Kind)
    requires Alike(k, l)
    ensures k == EOF <==> l == EOF
  {
  }
}
