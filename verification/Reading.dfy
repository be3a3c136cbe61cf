/** Reading a token stream by the grammar with one token of look-ahead, and why that finds every
    derivation (syntax/parser.go). */
module Reading {
  import opened Lexing
  import opened Ast
  import opened TypeText
  import opened Grammar
  import opened Wrappers

  datatype Parts = Parts(parts: seq<Child>, next: nat)

  datatype NodeParse = NodeParse(node: Node, next: nat)

  function Onto(front: seq<Child>, r: Option<Parts>): Option<Parts> {
    if r.None? then None else Some(Parts(front + r.value.parts, r.value.next))
  }

  // ----- reading -----

  /** Nodes that can start with another node have a higher rank than it. */
  function Rank(form: Form): nat {
    match form
    case NamedTypeForm => 1
    case EnumValueForm => 1
    case AnnotationForm => 1
    case FieldForm => 2
    case FunctionForm => 2
    case _ => if TakesStructured(form) then 1 else 0
  }

  const TOP_RANK: nat := 3

  predicate SymbolStarts(s: Symbol, k: Kind) {
    match s
    case Bare(kinds) => k in kinds && k != EOF
    case BareName => IsName(k) && k != EOF
    case Mark(_, kinds) => k in kinds && k != EOF
    case Part(_, category) => Choose(category, k).Some?
  }

  predicate Starts(g: Rule, k: Kind) {
    g.One? && SymbolStarts(g.symbol, k)
  }

  /** The parts of a rule from p on, looking at the next token only; nodes in front are below rank. */
  function ReadFrom(toks: seq<Token>, p: nat, rule: Rule, rank: nat): (r: Option<Parts>)
    requires p <= |toks|
    decreases |toks| - p, rank, if rule.One? then 0 else 1, Size(rule)
    ensures r.Some? ==> p <= r.value.next <= |toks|
  {
    var k := KindAt(toks, p);
    match rule
    case End => Some(Parts([], p))
    case One(symbol, rest) =>
      if !SymbolStarts(symbol, k) then None
      else if symbol.Part? then
        var form := Choose(symbol.category, k).value;
        var n := if Rank(form) < rank then ReadFrom(toks, p, Production(form), Rank(form)) else None;
        if n.None? || n.value.next <= Index(toks, p) then None
        else
          var child := Child(symbol.role, Node(form, Index(toks, p), n.value.next - 1, n.value.parts));
          Onto([child], ReadFrom(toks, n.value.next, rest, TOP_RANK))
      else
        Onto(if symbol.Mark? then [Child(symbol.role, Leaf(Index(toks, p)))] else [],
             if k == EOF then None else ReadFrom(toks, Past(toks, p), rest, TOP_RANK))
    case Either(g, h, rest) =>
      if Starts(g, k) then ReadFrom(toks, p, Then(g, rest), rank)
      else if h.One? then ReadFrom(toks, p, Then(h, rest), rank)
      else ReadFrom(toks, p, rest, rank)
    case Many(g, rest) =>
      if Starts(g, k) then ReadFrom(toks, p, Then(g, rule), rank) else ReadFrom(toks, p, rest, rank)
  }

  function Read(toks: seq<Token>, p: nat, rule: Rule): (r: Option<Parts>)
    requires p <= |toks|
    ensures r.Some? ==> p <= r.value.next <= |toks|
  {
    ReadFrom(toks, p, rule, TOP_RANK)
  }

  /** The node over what is read from p on, with the parts that came before. */
  function NodeOf(toks: seq<Token>, p: nat, form: Form, r: Option<Parts>): (n: Option<NodeParse>)
    ensures n.Some? ==> r.Some? && p < n.value.next == r.value.next
  {
    if r.None? || r.value.next <= Index(toks, p) then None
    else Some(NodeParse(Node(form, Index(toks, p), r.value.next - 1, r.value.parts), r.value.next))
  }

  /** The node of a category at p. */
  function NodeAt(toks: seq<Token>, p: nat, category: Category): (r: Option<NodeParse>)
    requires p <= |toks|
    ensures r.Some? ==> p < r.value.next <= |toks|
  {
    var form := Choose(category, KindAt(toks, p));
    if form.None? then None else NodeOf(toks, p, form.value, Read(toks, p, Production(form.value)))
  }

  // ----- ranks do not matter -----

  function CategoryRank(category: Category): nat {
    match category
    case TypeNode => 1
    case FieldNode => 2
    case FunctionNode => 2
    case EnumValueNode => 1
    case AnnotationNode => 1
    case _ => 0
  }

  /** The nodes that can come first are below rank. */
  predicate LeadsBelow(rule: Rule, rank: nat) {
    match rule
    case End => true
    case One(s, _) => s.Part? ==> CategoryRank(s.category) < rank
    case Either(g, h, rest) =>
      LeadsBelow(g, rank) && if h.One? then LeadsBelow(h, rank) else LeadsBelow(rest, rank)
    case Many(g, rest) => LeadsBelow(g, rank) && LeadsBelow(rest, rank)
  }

  lemma ChosenRank(category: Category, k: Kind)
    ensures Choose(category, k).Some? ==> Rank(Choose(category, k).value) <= CategoryRank(category)
  {
    hide TypeForm, ScalarForm, BracketedForm, IsKeyword;
    match category
    case TypeNode => TypeRank(k);
    case ValueNode => ValueRank(k);
    case ScalarNode => ValueRank(k);
    case BracketedNode => ValueRank(k);
    case _ =>
  }

  lemma TypeRank(k: Kind)
    ensures TypeForm(k).Some? ==> Rank(TypeForm(k).value) <= 1
  {
    hide IsBaseType;
  }

  lemma ValueRank(k: Kind)
    ensures ScalarForm(k).Some? ==> Rank(ScalarForm(k).value) == 0
    ensures BracketedForm(k).Some? ==> Rank(BracketedForm(k).value) == 0
  {
  }

  lemma {:induction false} RankFree(toks: seq<Token>, p: nat, rule: Rule, rank: nat)
    requires p <= |toks| && LeadsBelow(rule, rank) && rank <= TOP_RANK
    ensures ReadFrom(toks, p, rule, rank) == Read(toks, p, rule)
    decreases |toks| - p, if rule.One? then 0 else 1, Size(rule)
  {
    hide IsName, Choose, Rank, CategoryRank, KindAt, Index, Past;
    match rule
    case End =>
    case One(s, _) =>
      if s.Part? {
        ChosenRank(s.category, KindAt(toks, p));
      }
    case Either(g, h, rest) =>
      if Starts(g, KindAt(toks, p)) {
        RankFree(toks, p, Then(g, rest), rank);
      } else if h.One? {
        RankFree(toks, p, Then(h, rest), rank);
      } else {
        RankFree(toks, p, rest, rank);
      }
    case Many(g, rest) =>
      if Starts(g, KindAt(toks, p)) {
        RankFree(toks, p, Then(g, rule), rank);
      } else {
        RankFree(toks, p, rest, rank);
      }
  }

  lemma ProductionLeads(form: Form)
    ensures LeadsBelow(Production(form), Rank(form))
  {
    if form.FieldForm? {
      FieldLeads();
    } else if form.FunctionForm? {
      FunctionLeads();
    } else {
      hide Body;
      BodyLeads(form);
      RankOf(form);
    }
  }

  lemma RankOf(form: Form)
    ensures TakesStructured(form) ==> Rank(form) > 0
  {
  }

  lemma BodyLeads(form: Form)
    requires !form.FieldForm? && !form.FunctionForm?
    ensures LeadsBelow(Body(form), Rank(form))
  {
    hide FieldRest, FunctionRest;
  }

  lemma FieldLeads()
    ensures LeadsBelow(Production(FieldForm), 2)
  {
    var last := One(Part(TypeRole, TypeNode), FieldRest());
    var next := Opt(One(Mark(ReqRole, {Required, Optional}), End), last);
    assert LeadsBelow(last, 2) && LeadsBelow(next, 2) && LeadsBelow(Body(FieldForm), 2);
  }

  lemma FunctionLeads()
    ensures LeadsBelow(Production(FunctionForm), 2)
  {
    var next := Either(One(Mark(VoidRole, {Void}), End), One(Part(TypeRole, TypeNode), End), FunctionRest());
    assert LeadsBelow(next, 2) && LeadsBelow(Body(FunctionForm), 2);
  }

  // ----- one symbol at a time -----

  lemma OntoNothing(r: Option<Parts>)
    ensures Onto([], r) == r
  {
    if r.Some? {
      assert [] + r.value.parts == r.value.parts;
    }
  }

  lemma ReadBare(toks: seq<Token>, p: nat, kinds: set<Kind>, rest: Rule)
    requires p <= |toks|
    ensures Read(toks, p, One(Bare(kinds), rest)) ==
            if KindAt(toks, p) in kinds && KindAt(toks, p) != EOF then Read(toks, Past(toks, p), rest) else None
  {
    hide KindAt, Index;
    if KindAt(toks, p) != EOF {
      OntoNothing(Read(toks, Past(toks, p), rest));
    }
  }

  lemma ReadBareName(toks: seq<Token>, p: nat, rest: Rule)
    requires p <= |toks|
    ensures Read(toks, p, One(BareName, rest)) ==
            if IsName(KindAt(toks, p)) && KindAt(toks, p) != EOF then Read(toks, Past(toks, p), rest) else None
  {
    hide KindAt, Index, IsName;
    if KindAt(toks, p) != EOF {
      OntoNothing(Read(toks, Past(toks, p), rest));
    }
  }

  lemma ReadMark(toks: seq<Token>, p: nat, role: Role, kinds: set<Kind>, rest: Rule)
    requires p <= |toks|
    ensures Read(toks, p, One(Mark(role, kinds), rest)) ==
            if KindAt(toks, p) in kinds && KindAt(toks, p) != EOF
            then Onto([Child(role, Leaf(Index(toks, p)))], Read(toks, Past(toks, p), rest)) else None
  {
    hide KindAt, Index, Past;
  }

  lemma ReadPart(toks: seq<Token>, p: nat, role: Role, category: Category, rest: Rule)
    requires p <= |toks|
    ensures var n := NodeAt(toks, p, category);
            Read(toks, p, One(Part(role, category), rest)) ==
            if n.Some? then Onto([Child(role, n.value.node)], Read(toks, n.value.next, rest)) else None
  {
    hide KindAt, Index, Past, Choose, Production, Rank, LeadsBelow;
    var form := Choose(category, KindAt(toks, p));
    if form.Some? {
      RankBelowTop(form.value);
      ProductionLeads(form.value);
      RankFree(toks, p, Production(form.value), Rank(form.value));
    }
  }

  lemma RankBelowTop(form: Form)
    ensures Rank(form) < TOP_RANK
  {
  }

  lemma ReadEither(toks: seq<Token>, p: nat, g: Rule, h: Rule, rest: Rule)
    requires p <= |toks|
    ensures Read(toks, p, Either(g, h, rest)) ==
            if Starts(g, KindAt(toks, p)) then Read(toks, p, Then(g, rest))
            else if h.One? then Read(toks, p, Then(h, rest)) else Read(toks, p, rest)
  {
    hide KindAt, Starts;
  }

  lemma ReadMany(toks: seq<Token>, p: nat, g: Rule, rest: Rule)
    requires p <= |toks|
    ensures Read(toks, p, Many(g, rest)) ==
            if Starts(g, KindAt(toks, p)) then Read(toks, p, Then(g, Many(g, rest))) else Read(toks, p, rest)
  {
    hide KindAt, Starts;
  }

  // ----- the same after parts that have been read -----

  /** What the rule makes of the tokens from p on, after parts. */
  function Onward(toks: seq<Token>, parts: seq<Child>, p: nat, rule: Rule): Option<Parts>
    requires p <= |toks|
  {
    Onto(parts, Read(toks, p, rule))
  }

  lemma OntoOne(parts: seq<Child>, c: Child, r: Option<Parts>)
    ensures Onto(parts, Onto([c], r)) == Onto(parts + [c], r)
  {
    if r.Some? {
      assert parts + ([c] + r.value.parts) == parts + [c] + r.value.parts;
    }
  }

  lemma OnwardEnd(toks: seq<Token>, parts: seq<Child>, p: nat)
    requires p <= |toks|
    ensures Onward(toks, parts, p, End) == Some(Parts(parts, p))
  {
    assert Read(toks, p, End) == Some(Parts([], p));
    assert parts + [] == parts;
  }

  lemma OnwardBare(toks: seq<Token>, parts: seq<Child>, p: nat, kinds: set<Kind>, rest: Rule)
    requires p <= |toks|
    ensures Onward(toks, parts, p, One(Bare(kinds), rest)) ==
            if KindAt(toks, p) in kinds && KindAt(toks, p) != EOF then Onward(toks, parts, Past(toks, p), rest)
            else None
  {
    hide KindAt, Past, Read;
    ReadBare(toks, p, kinds, rest);
  }

  lemma OnwardTok(toks: seq<Token>, parts: seq<Child>, p: nat, k: Kind, rest: Rule)
    requires p <= |toks| && k != EOF
    ensures Onward(toks, parts, p, Tok(k, rest)) ==
            if KindAt(toks, p) == k then Onward(toks, parts, Past(toks, p), rest) else None
  {
    hide KindAt, Past, Onward;
    OnwardBare(toks, parts, p, {k}, rest);
  }

  lemma OnwardMark(toks: seq<Token>, parts: seq<Child>, p: nat, role: Role, kinds: set<Kind>, rest: Rule)
    requires p <= |toks|
    ensures Onward(toks, parts, p, One(Mark(role, kinds), rest)) ==
            if KindAt(toks, p) in kinds && KindAt(toks, p) != EOF
            then Onward(toks, parts + [Child(role, Leaf(Index(toks, p)))], Past(toks, p), rest) else None
  {
    hide KindAt, Past, Read, Index, Leaf;
    ReadMark(toks, p, role, kinds, rest);
    if KindAt(toks, p) in kinds && KindAt(toks, p) != EOF {
      OntoOne(parts, Child(role, Leaf(Index(toks, p))), Read(toks, Past(toks, p), rest));
    }
  }

  lemma OnwardPart(toks: seq<Token>, parts: seq<Child>, p: nat, role: Role, category: Category, rest: Rule)
    requires p <= |toks|
    ensures var n := NodeAt(toks, p, category);
            Onward(toks, parts, p, One(Part(role, category), rest)) ==
            if n.Some? then Onward(toks, parts + [Child(role, n.value.node)], n.value.next, rest) else None
  {
    hide NodeAt, Read;
    ReadPart(toks, p, role, category, rest);
    var n := NodeAt(toks, p, category);
    if n.Some? {
      OntoOne(parts, Child(role, n.value.node), Read(toks, n.value.next, rest));
    }
  }

  lemma OnwardEither(toks: seq<Token>, parts: seq<Child>, p: nat, g: Rule, h: Rule, rest: Rule)
    requires p <= |toks|
    ensures Onward(toks, parts, p, Either(g, h, rest)) ==
            if Starts(g, KindAt(toks, p)) then Onward(toks, parts, p, Then(g, rest))
            else if h.One? then Onward(toks, parts, p, Then(h, rest)) else Onward(toks, parts, p, rest)
  {
    hide KindAt, Read, Starts;
    ReadEither(toks, p, g, h, rest);
  }

  /** An optional token with a node. */
  lemma OnwardOptMark(toks: seq<Token>, parts: seq<Child>, p: nat, role: Role, kinds: set<Kind>, rest: Rule)
    requires p <= |toks| && EOF !in kinds
    ensures Onward(toks, parts, p, Opt(One(Mark(role, kinds), End), rest)) ==
            if KindAt(toks, p) in kinds
            then Onward(toks, parts + [Child(role, Leaf(Index(toks, p)))], Past(toks, p), rest)
            else Onward(toks, parts, p, rest)
  {
    hide KindAt, Past, Index, Leaf, Onward;
    OnwardEither(toks, parts, p, One(Mark(role, kinds), End), End, rest);
    OnwardMark(toks, parts, p, role, kinds, rest);
  }

  /** An optional node. */
  lemma OnwardOptPart(toks: seq<Token>, parts: seq<Child>, p: nat, role: Role, category: Category, rest: Rule)
    requires p <= |toks|
    ensures var n := NodeAt(toks, p, category);
            Onward(toks, parts, p, Opt(One(Part(role, category), End), rest)) ==
            if Choose(category, KindAt(toks, p)).None? then Onward(toks, parts, p, rest)
            else if n.Some? then Onward(toks, parts + [Child(role, n.value.node)], n.value.next, rest) else None
  {
    hide KindAt, NodeAt, Onward, Choose;
    OnwardEither(toks, parts, p, One(Part(role, category), End), End, rest);
    OnwardPart(toks, parts, p, role, category, rest);
  }

  /** A repeated node. */
  lemma OnwardEach(toks: seq<Token>, parts: seq<Child>, p: nat, role: Role, category: Category, rest: Rule)
    requires p <= |toks|
    ensures var n := NodeAt(toks, p, category);
            var again := Many(One(Part(role, category), End), rest);
            Onward(toks, parts, p, again) ==
            if Choose(category, KindAt(toks, p)).None? then Onward(toks, parts, p, rest)
            else if n.Some? then Onward(toks, parts + [Child(role, n.value.node)], n.value.next, again) else None
  {
    hide KindAt, NodeAt, Choose, Read;
    var g := One(Part(role, category), End);
    ReadMany(toks, p, g, rest);
    OnwardPart(toks, parts, p, role, category, Many(g, rest));
  }

  /** A repetition of more than one symbol. */
  lemma OnwardMany(toks: seq<Token>, parts: seq<Child>, p: nat, g: Rule, rest: Rule)
    requires p <= |toks|
    ensures Onward(toks, parts, p, Many(g, rest)) ==
            if Starts(g, KindAt(toks, p)) then Onward(toks, parts, p, Then(g, Many(g, rest)))
            else Onward(toks, parts, p, rest)
  {
    hide KindAt, Read, Starts;
    ReadMany(toks, p, g, rest);
  }

  // ----- the phrases that several productions share -----

  lemma OnwardSep(toks: seq<Token>, parts: seq<Child>, p: nat, rest: Rule)
    requires p <= |toks|
    ensures var k := KindAt(toks, p);
            Onward(toks, parts, p, Sep(rest)) ==
            if k == Comma || k == Semicolon
            then Onward(toks, parts + [Child(SepRole, Leaf(Index(toks, p)))], Past(toks, p), rest)
            else Onward(toks, parts, p, rest)
  {
    hide KindAt, Index, Past, Onward, Leaf;
    OnwardOptMark(toks, parts, p, SepRole, {Comma, Semicolon}, rest);
  }

  lemma OnwardAnnotated(toks: seq<Token>, parts: seq<Child>, p: nat, rest: Rule)
    requires p <= |toks|
    ensures var n := NodeAt(toks, p, AnnotationsNode);
            Onward(toks, parts, p, Annotated(rest)) ==
            if KindAt(toks, p) != LParen then Onward(toks, parts, p, rest)
            else if n.Some? then Onward(toks, parts + [Child(AnnotationsRole, n.value.node)], n.value.next, rest)
            else None
  {
    hide KindAt, Onward, NodeAt;
    OnwardOptPart(toks, parts, p, AnnotationsRole, AnnotationsNode, rest);
  }

  lemma OnwardStructured(toks: seq<Token>, parts: seq<Child>, p: nat, rest: Rule)
    requires p <= |toks|
    ensures var n := NodeAt(toks, p, StructuredNode);
            Onward(toks, parts, p, StructuredFirst(rest)) ==
            if KindAt(toks, p) != At then Onward(toks, parts, p, rest)
            else if n.Some?
            then Onward(toks, parts + [Child(StructuredRole, n.value.node)], n.value.next, StructuredFirst(rest))
            else None
  {
    hide KindAt, Onward, NodeAt;
    OnwardEach(toks, parts, p, StructuredRole, StructuredNode, rest);
  }

  /** Entries up to a bracket. */
  lemma OnwardEntries(toks: seq<Token>, parts: seq<Child>, p: nat, category: Category, close: Kind, rest: Rule)
    requires p <= |toks| && close != EOF
    ensures var again := Each(category, Tok(close, rest));
            var n := NodeAt(toks, p, category);
            Onward(toks, parts, p, again) ==
            if Choose(category, KindAt(toks, p)).Some? then
              if n.Some? then Onward(toks, parts + [Child(EntryRole, n.value.node)], n.value.next, again) else None
            else if KindAt(toks, p) == close then Onward(toks, parts, Past(toks, p), rest)
            else None
  {
    hide KindAt, Past, Onward, NodeAt, Choose;
    OnwardEach(toks, parts, p, EntryRole, category, Tok(close, rest));
    OnwardTok(toks, parts, p, close, rest);
  }

  /** The name at p. */
  lemma NameAt(toks: seq<Token>, p: nat)
    requires p <= |toks|
    ensures var k, i := KindAt(toks, p), Index(toks, p);
            var n := Some(NodeParse(Node(NameForm, i, i, []), Past(toks, p)));
            && NodeAt(toks, p, PlainName) == (if k == Identifier then n else None)
            && NodeAt(toks, p, AnyName) == (if IsName(k) && k != EOF then n else None)
  {
    hide KindAt, Index, IsKeyword, Read;
    ReadBareName(toks, p, End);
    if KindAt(toks, p) != EOF {
      assert Read(toks, Past(toks, p), End) == Some(Parts([], Past(toks, p))) by {
        EmptyRead(toks, Past(toks, p));
      }
    }
  }

  lemma EmptyRead(toks: seq<Token>, p: nat)
    requires p <= |toks|
    ensures Read(toks, p, End) == Some(Parts([], p))
  {
  }

  lemma OnwardName(toks: seq<Token>, parts: seq<Child>, p: nat, role: Role, rest: Rule)
    requires p <= |toks|
    ensures var i := Index(toks, p);
            Onward(toks, parts, p, One(Part(role, PlainName), rest)) ==
            if KindAt(toks, p) == Identifier
            then Onward(toks, parts + [Child(role, Node(NameForm, i, i, []))], Past(toks, p), rest) else None
    ensures Name(rest) == One(Part(NameRole, PlainName), rest)
  {
    hide KindAt, Index, Past, Onward, NodeAt;
    OnwardPart(toks, parts, p, role, PlainName, rest);
    NameAt(toks, p);
  }

  lemma OnwardCpp(toks: seq<Token>, parts: seq<Child>, p: nat, rest: Rule)
    requires p <= |toks|
    ensures var q := Past(toks, p);
            Onward(toks, parts, p, CppType(rest)) ==
            if KindAt(toks, p) != CPPType then Onward(toks, parts, p, rest)
            else if KindAt(toks, q) == StringLiteral
            then Onward(toks, parts + [Child(CPPTypeRole, Leaf(Index(toks, q)))], Past(toks, q), rest)
            else None
  {
    hide KindAt, Index, Past, Onward, Leaf;
    var literal := One(Mark(CPPTypeRole, {StringLiteral}), End);
    assert Then(literal, rest) == One(Mark(CPPTypeRole, {StringLiteral}), rest);
    OnwardEither(toks, parts, p, Tok(CPPType, literal), End, rest);
    OnwardTok(toks, parts, p, CPPType, One(Mark(CPPTypeRole, {StringLiteral}), rest));
    if KindAt(toks, p) == CPPType {
      OnwardMark(toks, parts, Past(toks, p), CPPTypeRole, {StringLiteral}, rest);
    }
  }

  /** "=" and a token, or neither. */
  lemma OnwardEqual(toks: seq<Token>, parts: seq<Child>, p: nat, kind: Kind, rest: Rule)
    requires p <= |toks| && kind != EOF
    ensures var q := Past(toks, p);
            Onward(toks, parts, p, Opt(Tok(Equal, One(Mark(ValueRole, {kind}), End)), rest)) ==
            if KindAt(toks, p) != Equal then Onward(toks, parts, p, rest)
            else if KindAt(toks, q) == kind
            then Onward(toks, parts + [Child(ValueRole, Leaf(Index(toks, q)))], Past(toks, q), rest)
            else None
  {
    hide KindAt, Index, Past, Onward, Leaf;
    var value := One(Mark(ValueRole, {kind}), End);
    assert Then(value, rest) == One(Mark(ValueRole, {kind}), rest);
    OnwardEither(toks, parts, p, Tok(Equal, value), End, rest);
    OnwardTok(toks, parts, p, Equal, One(Mark(ValueRole, {kind}), rest));
    if KindAt(toks, p) == Equal {
      OnwardMark(toks, parts, Past(toks, p), ValueRole, {kind}, rest);
    }
  }

  // ----- what is read is derived -----

  /** Reading what remains of node n gives its parts from i on. */
  ghost predicate Remains(n: Node, i: nat, r: Parts) {
    i + |r.parts| == |n.parts| && n.parts[i..] == r.parts && r.next == n.last + 1
  }

  lemma RemainsNext(n: Node, i: nat, c: Child, r: Parts)
    requires Remains(n, i, Parts([c] + r.parts, r.next))
    ensures i < |n.parts| && n.parts[i] == c && Remains(n, i + 1, r)
  {
    assert n.parts[i..][0] == c && n.parts[i..][1..] == r.parts;
    assert n.parts[i + 1..] == n.parts[i..][1..];
  }

  lemma {:induction false} ReadDerives(toks: seq<Token>, p: nat, rule: Rule, n: Node, i: nat)
    requires p <= |toks| && Read(toks, p, rule).Some? && Remains(n, i, Read(toks, p, rule).value)
    ensures Derives(toks, p, rule, n, i)
    decreases n, 0, |toks| - p, if rule.One? then 0 else 1, Size(rule)
  {
    hide KindAt, Index, Past, Choose, IsName, Remains, Read, NodeAt, Derived, Production, Stands;
    var r := Read(toks, p, rule).value;
    match rule
    case End => NothingRemains(toks, p, n, i);
    case One(Bare(kinds), rest) =>
      ReadBare(toks, p, kinds, rest);
      ReadDerives(toks, Past(toks, p), rest, n, i);
    case One(BareName, rest) =>
      ReadBareName(toks, p, rest);
      ReadDerives(toks, Past(toks, p), rest, n, i);
    case One(Mark(role, kinds), rest) =>
      ReadMark(toks, p, role, kinds, rest);
      RemainsNext(n, i, Child(role, Leaf(Index(toks, p))), Read(toks, Past(toks, p), rest).value);
      ReadDerives(toks, Past(toks, p), rest, n, i + 1);
    case One(Part(role, category), rest) =>
      ReadPart(toks, p, role, category, rest);
      var c := NodeAt(toks, p, category).value;
      RemainsNext(n, i, Child(role, c.node), Read(toks, c.next, rest).value);
      NodeDerives(toks, p, category, c.node);
      ReadDerives(toks, c.next, rest, n, i + 1);
    case Either(g, h, rest) =>
      ReadEither(toks, p, g, h, rest);
      if Starts(g, KindAt(toks, p)) {
        ReadDerives(toks, p, Then(g, rest), n, i);
      } else if h.One? {
        ReadDerives(toks, p, Then(h, rest), n, i);
      } else {
        ReadDerives(toks, p, rest, n, i);
      }
    case Many(g, rest) =>
      ReadMany(toks, p, g, rest);
      if Starts(g, KindAt(toks, p)) {
        ReadDerives(toks, p, Then(g, rule), n, i);
      } else {
        ReadDerives(toks, p, rest, n, i);
      }
  }

  lemma NothingRemains(toks: seq<Token>, p: nat, n: Node, i: nat)
    requires p <= |toks| && Remains(n, i, Read(toks, p, End).value)
    ensures Derives(toks, p, End, n, i)
  {
    assert Read(toks, p, End) == Some(Parts([], p));
  }

  /** The node that is read at p is derived from its production. */
  lemma {:induction false} NodeDerives(toks: seq<Token>, p: nat, category: Category, n: Node)
    requires p <= |toks| && NodeAt(toks, p, category).Some? && n == NodeAt(toks, p, category).value.node
    ensures Stands(toks, p, category, n) && NodeAt(toks, p, category).value.next == n.last + 1 && Derived(toks, p, n)
    decreases n, 1
  {
    hide KindAt, Choose, Production, Read, Derives;
    assert n.parts[0..] == n.parts;
    ReadDerives(toks, p, Production(n.form), n, 0);
  }
}
