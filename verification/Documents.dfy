/** A document is read without fault exactly when the grammar derives it, and there is one derivation
    (syntax/parser.go). */
module Documents {
  import opened Lexing
  import opened Ast
  import opened TypeText
  import opened Grammar
  import opened LookAhead
  import opened Reading
  import opened Wrappers

  /** What is derived starts with a kind that it can start with. */
  lemma {:induction false} StartsWith(toks: seq<Token>, p: nat, rule: Rule, n: Node, i: nat)
    requires Derives(toks, p, rule, n, i) && Follows(EndingOf(n.form), KindAt(toks, n.last + 1))
    ensures CanStart(rule, EndingOf(n.form), KindAt(toks, p))
    decreases if rule.One? then 0 else 1, Size(rule)
  {
    hide KindAt, Index, Past, Choose, IsName, Production, Follows, EndingOf;
    match rule
    case End =>
    case One(_, _) =>
    case Either(g, h, rest) =>
      if g.One? && Derives(toks, p, Then(g, rest), n, i) {
        StartsWith(toks, p, Then(g, rest), n, i);
      } else if h.One? {
        StartsWith(toks, p, Then(h, rest), n, i);
      } else {
        StartsWith(toks, p, rest, n, i);
      }
    case Many(g, rest) =>
      if Derives(toks, p, rest, n, i) {
        StartsWith(toks, p, rest, n, i);
      } else {
        StartsWith(toks, p, Then(g, rule), n, i);
      }
  }

  /** Reading finds what is derived. */
  lemma {:induction false} DerivedIsRead(toks: seq<Token>, p: nat, rule: Rule, n: Node, i: nat)
    requires p <= |toks| && i <= |n.parts| && Derives(toks, p, rule, n, i) && Decided(rule, End, EndingOf(n.form))
    requires Follows(EndingOf(n.form), KindAt(toks, n.last + 1))
    ensures Read(toks, p, rule) == Some(Parts(n.parts[i..], n.last + 1))
    decreases n, 0, Room(toks, p), if rule.One? then 0 else 1, Size(rule)
  {
    hide KindAt, Index, Past, Choose, IsName, Production, Follows, EndingOf, Read, NodeAt, CanStart, Decided, Stands;
    DecidedParts(rule, EndingOf(n.form));
    match rule
    case End => EndIsRead(toks, p, n);
    case One(Bare(kinds), rest) =>
      ReadBare(toks, p, kinds, rest);
      DerivedIsRead(toks, Past(toks, p), rest, n, i);
    case One(BareName, rest) =>
      ReadBareName(toks, p, rest);
      DerivedIsRead(toks, Past(toks, p), rest, n, i);
    case One(Mark(role, kinds), rest) =>
      ReadMark(toks, p, role, kinds, rest);
      DerivedIsRead(toks, Past(toks, p), rest, n, i + 1);
      assert n.parts[i..] == [n.parts[i]] + n.parts[i + 1..];
    case One(Part(role, category), rest) =>
      var c := n.parts[i].node;
      ReadPart(toks, p, role, category, rest);
      StandsInside(toks, p, category, c);
      StartsWith(toks, c.last + 1, rest, n, i + 1);
      NodeIsRead(toks, p, category, c);
      DerivedIsRead(toks, c.last + 1, rest, n, i + 1);
      assert n.parts[i..] == [n.parts[i]] + n.parts[i + 1..];
    case Either(g, h, rest) => EitherIsRead(toks, p, g, h, rest, n, i);
    case Many(g, rest) => ManyIsRead(toks, p, g, rest, n, i);
  }

  lemma EndIsRead(toks: seq<Token>, p: nat, n: Node)
    requires p <= |toks| && p == n.last + 1
    ensures Read(toks, p, End) == Some(Parts([], n.last + 1)) && n.parts[|n.parts|..] == []
  {
  }

  lemma StandsInside(toks: seq<Token>, p: nat, category: Category, n: Node)
    requires Stands(toks, p, category, n)
    ensures p < n.last + 1 <= |toks|
  {
  }

  lemma {:induction false} EitherIsRead(toks: seq<Token>, p: nat, g: Rule, h: Rule, rest: Rule, n: Node, i: nat)
    requires p <= |toks| && i <= |n.parts| && Derives(toks, p, Either(g, h, rest), n, i)
    requires Decided(Either(g, h, rest), End, EndingOf(n.form)) && Follows(EndingOf(n.form), KindAt(toks, n.last + 1))
    ensures Read(toks, p, Either(g, h, rest)) == Some(Parts(n.parts[i..], n.last + 1))
    decreases n, 0, Room(toks, p), 1, Size(Either(g, h, rest)), 0
  {
    hide KindAt, Index, Past, Choose, IsName, Production, Follows, EndingOf, Read, NodeAt, Stands, SymbolStarts;
    var k := KindAt(toks, p);
    DecidedParts(Either(g, h, rest), EndingOf(n.form));
    ReadEither(toks, p, g, h, rest);
    if Derives(toks, p, Then(g, rest), n, i) {
      StartsWith(toks, p, Then(g, rest), n, i);
      DerivedIsRead(toks, p, Then(g, rest), n, i);
    } else if h.One? {
      StartsWith(toks, p, Then(h, rest), n, i);
      DerivedIsRead(toks, p, Then(h, rest), n, i);
    } else {
      StartsWith(toks, p, rest, n, i);
      DerivedIsRead(toks, p, rest, n, i);
    }
  }

  lemma {:induction false} ManyIsRead(toks: seq<Token>, p: nat, g: Rule, rest: Rule, n: Node, i: nat)
    requires p <= |toks| && i <= |n.parts| && Derives(toks, p, Many(g, rest), n, i)
    requires Decided(Many(g, rest), End, EndingOf(n.form)) && Follows(EndingOf(n.form), KindAt(toks, n.last + 1))
    ensures Read(toks, p, Many(g, rest)) == Some(Parts(n.parts[i..], n.last + 1))
    decreases n, 0, Room(toks, p), 1, Size(Many(g, rest)), 0
  {
    hide KindAt, Index, Past, Choose, IsName, Production, Follows, EndingOf, Read, NodeAt, Stands, SymbolStarts;
    DecidedParts(Many(g, rest), EndingOf(n.form));
    ReadMany(toks, p, g, rest);
    if Derives(toks, p, rest, n, i) {
      StartsWith(toks, p, rest, n, i);
      DerivedIsRead(toks, p, rest, n, i);
    } else {
      StartsWith(toks, p, Then(g, Many(g, rest)), n, i);
      DerivedIsRead(toks, p, Then(g, Many(g, rest)), n, i);
    }
  }

  lemma NotStruct(k: Kind)
    ensures TypeForm(k).Some? ==> !TypeForm(k).value.StructForm?
    ensures ScalarForm(k).Some? ==> !ScalarForm(k).value.StructForm?
    ensures BracketedForm(k).Some? ==> !BracketedForm(k).value.StructForm?
  {
    hide IsBaseType;
  }

  lemma ChosenForm(category: Category, k: Kind)
    ensures Choose(category, k).Some? ==> !Choose(category, k).value.StructForm?
  {
    hide IsKeyword, TypeForm, ScalarForm, BracketedForm;
    NotStruct(k);
  }

  /** A derived node of the category is what is read. */
  lemma {:induction false} NodeIsRead(toks: seq<Token>, p: nat, category: Category, n: Node)
    requires p <= |toks| && Stands(toks, p, category, n) && Derived(toks, p, n)
    requires Follows(EndingIn(category), KindAt(toks, n.last + 1))
    ensures NodeAt(toks, p, category) == Some(NodeParse(n, n.last + 1))
    decreases n, 1
  {
    hide KindAt, Index, Past, Choose, Production, Read, Decided, Derives, EndingOf, EndingIn, IsName;
    ChosenForm(category, KindAt(toks, p));
    ProductionDecided(n.form);
    ChosenEnding(category, KindAt(toks, p));
    DerivedIsRead(toks, p, Production(n.form), n, 0);
    assert n.parts[0..] == n.parts;
  }

  // ----- the top level -----

  /** What follows the structured annotations of a definition, if any, by its first token. */
  function TopForm(k: Kind, annotated: bool): Option<Form> {
    if k == Include then When(!annotated, IncludeForm)
    else if k == CPPInclude then When(!annotated, CPPIncludeForm)
    else if k == Namespace then Some(NamespaceForm)
    else if k == Const then Some(ConstForm)
    else if k == Typedef then Some(TypedefForm)
    else if k == Enum then Some(EnumForm)
    else if k == Service then Some(ServiceForm)
    else When(k == Struct || k == Union || k == Exception, StructForm(k))
  }

  /** The forms of top-level nodes. */
  predicate IsTop(form: Form) {
    match form
    case IncludeForm => true
    case CPPIncludeForm => true
    case NamespaceForm => true
    case ConstForm => true
    case TypedefForm => true
    case EnumForm => true
    case ServiceForm => true
    case StructForm(k) => k == Struct || k == Union || k == Exception
    case _ => false
  }

  /** A top-level node at p. */
  function TopAt(toks: seq<Token>, p: nat): (r: Option<NodeParse>)
    requires p <= |toks|
    ensures r.Some? ==> p < r.value.next <= |toks|
  {
    var front := Read(toks, p, StructuredFirst(End));
    if front.None? then None
    else
      var form := TopForm(KindAt(toks, front.value.next), front.value.parts != []);
      if form.None? then None
      else
        NodeOf(toks, p, form.value, Onward(toks, front.value.parts, front.value.next, Body(form.value)))
  }

  /** The top-level nodes from p to EOF. */
  function DocumentAt(toks: seq<Token>, p: nat): Option<seq<Child>>
    requires p <= |toks|
    decreases |toks| - p
  {
    if KindAt(toks, p) == EOF then Some([])
    else
      var n := TopAt(toks, p);
      if n.None? then None
      else
        var more := DocumentAt(toks, n.value.next);
        if more.None? then None else Some([Child(EntryRole, n.value.node)] + more.value)
  }

  /** The nodes are derived from the tokens from p on, one after another up to EOF. */
  ghost predicate Forest(toks: seq<Token>, p: nat, nodes: seq<Child>)
    decreases |nodes|
  {
    if nodes == [] then KindAt(toks, p) == EOF
    else
      var n := nodes[0].node;
      && nodes[0].role == EntryRole && IsTop(n.form) && p <= n.first <= n.last < |toks| && n.first == Index(toks, p)
      && Derived(toks, p, n) && Forest(toks, n.last + 1, nodes[1..])
  }

  /** Reading one rule after another. */
  lemma {:induction false} ReadThen(toks: seq<Token>, p: nat, a: Rule, b: Rule)
    requires p <= |toks|
    ensures var r := Read(toks, p, a);
            Read(toks, p, Then(a, b)) ==
            if r.None? then None else Onto(r.value.parts, Read(toks, r.value.next, b))
    decreases |toks| - p, if a.One? then 0 else 1, Size(a)
  {
    hide KindAt, Index, Past, Choose, Read, NodeAt, SymbolStarts, Starts, IsName;
    match a
    case End =>
      EmptyRead(toks, p);
      OntoNothing(Read(toks, p, b));
    case One(Bare(kinds), rest) =>
      ReadBare(toks, p, kinds, rest);
      ReadBare(toks, p, kinds, Then(rest, b));
      if KindAt(toks, p) in kinds && KindAt(toks, p) != EOF {
        ReadThen(toks, Past(toks, p), rest, b);
      }
    case One(BareName, rest) =>
      ReadBareName(toks, p, rest);
      ReadBareName(toks, p, Then(rest, b));
      if IsName(KindAt(toks, p)) && KindAt(toks, p) != EOF {
        ReadThen(toks, Past(toks, p), rest, b);
      }
    case One(Mark(role, kinds), rest) =>
      ReadMark(toks, p, role, kinds, rest);
      ReadMark(toks, p, role, kinds, Then(rest, b));
      if KindAt(toks, p) in kinds && KindAt(toks, p) != EOF {
        ReadThen(toks, Past(toks, p), rest, b);
        OntoOnto([Child(role, Leaf(Index(toks, p)))], Read(toks, Past(toks, p), rest), toks, b);
      }
    case One(Part(role, category), rest) =>
      ReadPart(toks, p, role, category, rest);
      ReadPart(toks, p, role, category, Then(rest, b));
      var n := NodeAt(toks, p, category);
      if n.Some? {
        ReadThen(toks, n.value.next, rest, b);
        OntoOnto([Child(role, n.value.node)], Read(toks, n.value.next, rest), toks, b);
      }
    case Either(g, h, rest) =>
      ReadEither(toks, p, g, h, rest);
      ReadEither(toks, p, g, h, Then(rest, b));
      ThenThen(g, rest, b);
      ThenThen(h, rest, b);
      OneStarts(g, KindAt(toks, p));
      if Starts(g, KindAt(toks, p)) {
        ReadThen(toks, p, Then(g, rest), b);
      } else if h.One? {
        ReadThen(toks, p, Then(h, rest), b);
      } else {
        ReadThen(toks, p, rest, b);
      }
    case Many(g, rest) =>
      ReadMany(toks, p, g, rest);
      ReadMany(toks, p, g, Then(rest, b));
      ThenThen(g, a, b);
      OneStarts(g, KindAt(toks, p));
      if Starts(g, KindAt(toks, p)) {
        ReadThen(toks, p, Then(g, a), b);
      } else {
        ReadThen(toks, p, rest, b);
      }
  }

  lemma OneStarts(g: Rule, k: Kind)
    ensures Starts(g, k) ==> g.One?
  {
  }

  lemma OntoOnto(front: seq<Child>, r: Option<Parts>, toks: seq<Token>, b: Rule)
    requires r.Some? ==> r.value.next <= |toks|
    ensures r.Some? ==>
              var last := Read(toks, r.value.next, b);
              Onto(front + r.value.parts, last) == Onto(front, Onto(r.value.parts, last))
  {
    hide Read;
    if r.Some? && Read(toks, r.value.next, b).Some? {
      var last := Read(toks, r.value.next, b).value.parts;
      assert front + r.value.parts + last == front + (r.value.parts + last);
    }
  }

  /** The keyword of a definition. */
  function TopWord(form: Form): Kind {
    match form
    case IncludeForm => Include
    case CPPIncludeForm => CPPInclude
    case NamespaceForm => Namespace
    case ConstForm => Const
    case TypedefForm => Typedef
    case EnumForm => Enum
    case StructForm(k) => k
    case _ => Service
  }

  /** A definition starts with its keyword. */
  lemma BodyStarts(form: Form) returns (rest: Rule)
    requires IsTop(form)
    ensures Body(form) == Tok(TopWord(form), rest)
  {
    rest := Body(form).rest;
  }

  lemma TopWordIs(form: Form)
    requires IsTop(form)
    ensures var k := TopWord(form); k != At && k != EOF && !Continues(k)
    ensures TakesStructured(form) ==> TopForm(TopWord(form), true) == Some(form)
    ensures TopForm(TopWord(form), false) == Some(form)
  {
  }

  lemma TopProduction(form: Form)
    requires IsTop(form)
    ensures Production(form) == if TakesStructured(form) then Then(StructuredFirst(End), Body(form)) else Body(form)
    ensures EndingOf(form) == Complete && (form.StructForm? ==> form.kind != At)
  {
    hide Body;
  }

  /** The structured annotations at p: none exactly when the next token is no "@". */
  lemma FrontRead(toks: seq<Token>, p: nat)
    requires p <= |toks|
    ensures var front := Read(toks, p, StructuredFirst(End));
            && (KindAt(toks, p) != At ==> front == Some(Parts([], p)))
            && (KindAt(toks, p) == At && front.Some? ==> front.value.parts != [])
  {
    hide KindAt, Read, NodeAt;
    var g := One(Part(StructuredRole, StructuredNode), End);
    ReadMany(toks, p, g, End);
    EmptyRead(toks, p);
    ReadPart(toks, p, StructuredRole, StructuredNode, Many(g, End));
    assert Then(End, Many(g, End)) == Many(g, End);
  }

  lemma TopFormIsTop(k: Kind, annotated: bool)
    requires TopForm(k, annotated).Some?
    ensures IsTop(TopForm(k, annotated).value)
  {
  }

  lemma AnnotatedTop(k: Kind)
    requires TopForm(k, true).Some?
    ensures TakesStructured(TopForm(k, true).value)
  {
  }

  /** What is read at the top level is derived. */
  lemma TopDerives(toks: seq<Token>, p: nat)
    requires p <= |toks| && TopAt(toks, p).Some?
    ensures var r := TopAt(toks, p).value;
            && IsTop(r.node.form) && p <= r.node.first <= r.node.last < |toks| && r.node.first == Index(toks, p)
            && r.next == r.node.last + 1 && Derived(toks, p, r.node)
  {
    hide KindAt, Read, NodeAt, Body, Production, TopForm, IsTop, Derives;
    var n := TopAt(toks, p).value.node;
    var front := Read(toks, p, StructuredFirst(End)).value;
    FrontRead(toks, p);
    TopFormIsTop(KindAt(toks, front.next), front.parts != []);
    if front.parts != [] {
      AnnotatedTop(KindAt(toks, front.next));
    }
    TopProduction(n.form);
    ReadThen(toks, p, StructuredFirst(End), Body(n.form));
    OntoNothing(Read(toks, p, Body(n.form)));
    assert n.parts[0..] == n.parts;
    ReadDerives(toks, p, Production(n.form), n, 0);
  }

  /** What is derived at the top level is read. */
  lemma TopIsRead(toks: seq<Token>, p: nat, n: Node)
    requires IsTop(n.form) && p <= n.first <= n.last < |toks| && n.first == Index(toks, p)
    requires Derived(toks, p, n) && !Continues(KindAt(toks, n.last + 1))
    ensures TopAt(toks, p) == Some(NodeParse(n, n.last + 1))
  {
    hide KindAt, Index, Past, Read, NodeAt, Body, Production, TopForm, IsTop, Derives, Decided, Continues, TopAt;
    TopProduction(n.form);
    ProductionDecided(n.form);
    DerivedIsRead(toks, p, Production(n.form), n, 0);
    assert n.parts[0..] == n.parts;
    TopRead(toks, p, n);
  }

  lemma TopRead(toks: seq<Token>, p: nat, n: Node)
    requires IsTop(n.form) && p <= n.first <= n.last < |toks| && n.first == Index(toks, p)
    requires Read(toks, p, Production(n.form)) == Some(Parts(n.parts, n.last + 1))
    ensures TopAt(toks, p) == Some(NodeParse(n, n.last + 1))
  {
    hide KindAt, Index, Past, Read, NodeAt, Body, Production, TopForm, TopWord, IsTop, TakesStructured;
    TopProduction(n.form);
    ReadThen(toks, p, StructuredFirst(End), Body(n.form));
    FrontRead(toks, p);
    OntoNothing(Read(toks, p, Body(n.form)));
    var rest := BodyStarts(n.form);
    TopWordIs(n.form);
    var front := Read(toks, p, StructuredFirst(End));
    if TakesStructured(n.form) {
      ReadBare(toks, front.value.next, {TopWord(n.form)}, rest);
    } else {
      ReadBare(toks, p, {TopWord(n.form)}, rest);
    }
  }

  lemma FrontStarts(k: Kind)
    ensures Choose(StructuredNode, k).Some? <==> k == At
    ensures !Continues(At)
  {
  }

  lemma TopStarts(form: Form, k: Kind)
    requires IsTop(form) && CanStart(Production(form), Complete, k)
    ensures !Continues(k) && k != EOF
  {
    hide Body, Production, Choose, IsTop, TopForm, TopWord, Continues, TakesStructured;
    TopProduction(form);
    TopWordIs(form);
    FrontStarts(k);
    var rest := BodyStarts(form);
    assert Then(StructuredFirst(End), Body(form)) == StructuredFirst(Body(form));
  }

  /** A forest starts with a definition or is at EOF. */
  lemma {:induction false} ForestStarts(toks: seq<Token>, p: nat, nodes: seq<Child>)
    requires Forest(toks, p, nodes)
    ensures !Continues(KindAt(toks, p)) && (nodes == [] <==> KindAt(toks, p) == EOF)
    decreases |nodes|
  {
    hide KindAt, Index, Derives, Production, CanStart, IsTop;
    if nodes != [] {
      var n := nodes[0].node;
      ForestStarts(toks, n.last + 1, nodes[1..]);
      TopProduction(n.form);
      StartsWith(toks, p, Production(n.form), n, 0);
      TopStarts(n.form, KindAt(toks, p));
    }
  }

  lemma {:induction false} ForestIsRead(toks: seq<Token>, p: nat, nodes: seq<Child>)
    requires p <= |toks| && Forest(toks, p, nodes)
    ensures DocumentAt(toks, p) == Some(nodes)
    decreases |nodes|
  {
    hide KindAt, Index, Derived, IsTop, Continues, TopAt;
    ForestStarts(toks, p, nodes);
    if nodes != [] {
      var n := nodes[0].node;
      ForestIsRead(toks, n.last + 1, nodes[1..]);
      ForestStarts(toks, n.last + 1, nodes[1..]);
      TopIsRead(toks, p, n);
      assert nodes == [nodes[0]] + nodes[1..];
    }
  }

  lemma {:induction false} ReadIsForest(toks: seq<Token>, p: nat)
    requires p <= |toks| && DocumentAt(toks, p).Some?
    ensures Forest(toks, p, DocumentAt(toks, p).value)
    decreases |toks| - p
  {
    hide KindAt, Index, Derived, IsTop, TopAt;
    if KindAt(toks, p) != EOF {
      TopDerives(toks, p);
      var r := TopAt(toks, p).value;
      ReadIsForest(toks, r.next);
      var more := DocumentAt(toks, r.next).value;
      assert ([Child(EntryRole, r.node)] + more)[1..] == more;
    }
  }

  /** The grammar is unambiguous, and reading a document with one token of look-ahead finds its derivation
      exactly when it has one. */
  lemma DocumentExactly(toks: seq<Token>, nodes: seq<Child>)
    ensures DocumentAt(toks, 0) == Some(nodes) <==> Forest(toks, 0, nodes)
  {
    hide DocumentAt, Forest;
    if Forest(toks, 0, nodes) {
      ForestIsRead(toks, 0, nodes);
    }
    if DocumentAt(toks, 0).Some? {
      ReadIsForest(toks, 0);
    }
  }
}
