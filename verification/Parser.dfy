/** The recursive-descent parser and its error recovery (syntax/parser.go). */
module Parsing {
  import opened Lexing
  import opened Ast
  import opened Documents
  import opened Grammar
  import opened LexRoundTrip
  import opened ParserRules
  import opened Reading
  import opened Recovery
  import opened TypeText
  import LexProps
  import opened Wrappers

  /** An error or a warning at a token; the message is left out. */
  datatype Diagnostic = Diagnostic(at: nat, warning: bool)

  /** The first EOF from i on, or the end. */
  function FirstEof(toks: seq<Token>, i: nat): (r: nat)
    requires i <= |toks|
    ensures i <= r <= |toks| && (r < |toks| ==> toks[r].kind == EOF)
    decreases |toks| - i
  {
    if i == |toks| || toks[i].kind == EOF then i else FirstEof(toks, i + 1)
  }

  predicate HasEof(toks: seq<Token>) {
    FirstEof(toks, 0) < |toks|
  }

  /** The last token before p, if any, is real. */
  predicate AfterReal(toks: seq<Token>, p: int) {
    p > 0 ==> RealAt(toks, p - 1)
  }

  /** A lexed source ends in its only EOF, so the parser takes it whole. */
  lemma LexedHasEof(src: string)
    ensures HasEof(Lex(src).tokens) && FirstEof(Lex(src).tokens, 0) == |Lex(src).tokens| - 1
  {
    hide Lex;
    LexProps.StreamIsFaithful(src);
    OnlyEof(Lex(src).tokens, 0);
  }

  lemma {:induction false} OnlyEof(toks: seq<Token>, i: nat)
    requires i < |toks| && toks[|toks| - 1].kind == EOF && forall k :: 0 <= k < |toks| - 1 ==> toks[k].kind != EOF
    ensures FirstEof(toks, i) == |toks| - 1
    decreases |toks| - i
  {
    if i < |toks| - 1 {
      OnlyEof(toks, i + 1);
    }
  }

  /** The errors, without the warnings. */
  function ErrorCount(ds: seq<Diagnostic>): nat {
    if ds == [] then 0 else ErrorCount(ds[..|ds| - 1]) + if ds[|ds| - 1].warning then 0 else 1
  }

  lemma NextInside(toks: seq<Token>, pos: nat)
    requires HasEof(toks) && pos <= FirstEof(toks, 0)
    ensures var i := NextReal(toks, pos); i <= FirstEof(toks, 0) && RealAt(toks, i)
  {
    NextIsFirst(toks, pos, FirstEof(toks, 0));
  }

  lemma BeforeEof(toks: seq<Token>, i: nat)
    requires HasEof(toks) && i <= FirstEof(toks, 0) && i < |toks| && toks[i].kind != EOF
    ensures i + 1 <= FirstEof(toks, 0)
  {
  }

  lemma OneMore(ds: seq<Diagnostic>, d: Diagnostic)
    ensures ErrorCount(ds + [d]) == ErrorCount(ds) + if d.warning then 0 else 1
  {
    assert (ds + [d])[..|ds|] == ds;
  }

  /** A node under construction: where the parser stood, and the first token. */
  datatype Open = Open(p0: nat, first: nat)

  /** The parts so far of a node under construction, at pos; nothing at p0. */
  ghost predicate Built(toks: seq<Token>, o: Open, parts: seq<Child>, pos: nat) {
    && o.p0 <= o.first && RealAt(toks, o.first) && o.p0 <= pos <= |toks|
    && if pos == o.p0 then parts == [] && o.first == NextReal(toks, pos)
       else o.first < pos && RealAt(toks, pos - 1) && Row(toks, parts, o.first, pos)
  }

  /** A real token from pos on is not before the next one. */
  lemma {:induction false} NextIsFirst(toks: seq<Token>, pos: nat, i: int)
    requires pos <= |toks| && RealAt(toks, i) && pos <= i
    ensures NextReal(toks, pos) <= i
    decreases |toks| - pos
  {
    if IsComment(toks[pos].kind) {
      NextIsFirst(toks, pos + 1, i);
    }
  }

  lemma BuiltLater(toks: seq<Token>, o: Open, parts: seq<Child>, pos: nat, to: nat)
    requires Built(toks, o, parts, pos) && pos <= to && AfterReal(toks, to)
    ensures Built(toks, o, parts, to)
  {
    hide Row, NextReal;
    if pos < to {
      if pos == o.p0 {
        NextIsFirst(toks, pos, to - 1);
        RowNone(toks, o.first, to);
      } else {
        RowLater(toks, parts, o.first, pos, to);
      }
    }
  }

  lemma BuiltMore(toks: seq<Token>, o: Open, parts: seq<Child>, at: nat, pos: nat, role: Role, n: Node, to: nat)
    requires Built(toks, o, parts, at) && at <= pos < to && AfterReal(toks, pos) && AfterReal(toks, to)
             && Spans(toks, n, pos, to)
    ensures Built(toks, o, parts + [Child(role, n)], to)
  {
    hide Row, NextReal, Spans;
    NameFirst(toks, n, pos, to);
    BuiltLater(toks, o, parts, at, pos);
    if pos == o.p0 {
      NextIsFirst(toks, pos, n.first);
      RowNone(toks, o.first, o.first);
      RowAdd(toks, [], o.first, o.first, role, n, n.first, to);
    } else {
      RowAdd(toks, parts, o.first, pos, role, n, pos, to);
    }
  }

  lemma BuiltNode(toks: seq<Token>, o: Open, parts: seq<Child>, pos: nat, form: Form)
    requires Built(toks, o, parts, pos) && o.p0 < pos
    ensures Spans(toks, Node(form, o.first, pos - 1, parts), o.p0, pos)
  {
    hide Row, Spans;
    NodeOver(toks, form, o.first, pos, pos, parts);
    SpansLater(toks, Node(form, o.first, pos - 1, parts), o.first, pos, o.p0, pos);
  }

  /** A name starts at its token. */
  lemma NameFirst(toks: seq<Token>, n: Node, lo: int, hi: int)
    requires Spans(toks, n, lo, hi)
    ensures Spans(toks, n, n.first, hi) && lo <= n.first <= n.last < hi && RealAt(toks, n.first)
  {
  }

  class Parser {
    const toks: seq<Token>
    var pos: nat
    var errs: seq<Diagnostic>

    ghost function Valid(): (r: bool)
      reads this
      ensures r ==> pos <= |toks| && AfterReal(toks, pos)
    {
      HasEof(toks) && pos <= FirstEof(toks, 0) && AfterReal(toks, pos)
    }

    /** The errors so far. */
    ghost function Faults(): nat
      reads this
    {
      ErrorCount(errs)
    }

    // ----- nodes under construction -----

    /** The start of a node. */
    function Begin(): (o: Open)
      requires Valid()
      reads this
      ensures Built(toks, o, [], pos) && o.p0 == pos && o.first == Index(toks, pos)
    {
      Open(pos, Next())
    }

    /** The node is complete. */
    function Finish(o: Open, parts: seq<Child>, ghost at: nat, form: Form): (n: Node)
      requires Valid() && Built(toks, o, parts, at) && at <= pos && pos > o.p0
      reads this
      ensures Spans(toks, n, o.p0, pos) && n == Node(form, o.first, pos - 1, parts) && o.first < pos
    {
      BuiltLater(toks, o, parts, at, pos);
      BuiltNode(toks, o, parts, pos, form);
      NameFirst(toks, Node(form, o.first, pos - 1, parts), o.p0, pos);
      Node(form, o.first, pos - 1, parts)
    }

    constructor (toks: seq<Token>)
      requires HasEof(toks)
      ensures Valid() && this.toks == toks && pos == 0 && errs == []
    {
      this.toks, pos, errs := toks, 0, [];
    }

    // ----- token helpers -----

    function Next(): (i: nat)
      requires Valid()
      reads this
      ensures pos <= i <= FirstEof(toks, 0) && RealAt(toks, i) && i == Index(toks, pos)
    {
      NextInside(toks, pos);
      NextReal(toks, pos)
    }

    function Cur(): (k: Kind)
      requires Valid()
      reads this
      ensures k == KindAt(toks, pos)
    {
      toks[Next()].kind
    }

    /** What may still be consumed. */
    ghost function Left(): (n: nat)
      requires Valid()
      reads this
      ensures n == FirstEof(toks, 0) - pos
    {
      FirstEof(toks, 0) - pos
    }

    method Advance() returns (i: nat)
      requires Valid() && Cur() != EOF
      modifies this`pos
      ensures Valid() && old(pos) <= pos && pos > old(pos) && Faults() == old(Faults())
      ensures i == Index(toks, old(pos)) && pos == i + 1 == Past(toks, old(pos)) && Spans(toks, Leaf(i), old(pos), pos)
    {
      hide Built, Spans, FirstEof, HasEof, ErrorCount, Index, KindAt;
      i := Next();
      LeafSpans(toks, i);
      SpansLater(toks, Leaf(i), i, i + 1, pos, i + 1);
      BeforeEof(toks, i);
      pos := i + 1;
    }

    method ErrorHere()
      requires Valid()
      modifies this`errs
      ensures Valid() && Faults() == old(Faults()) + 1
    {
      hide Built;
      OneMore(errs, Diagnostic(Next(), false));
      errs := errs + [Diagnostic(Next(), false)];
    }

    method WarnAt(i: nat)
      requires Valid()
      modifies this`errs
      ensures Valid() && Faults() == old(Faults())
    {
      hide Built;
      OneMore(errs, Diagnostic(i, true));
      errs := errs + [Diagnostic(i, true)];
    }

    method Accept(k: Kind) returns (i: Option<nat>)
      requires Valid() && k != EOF
      modifies this`pos
      ensures Valid() && old(pos) <= pos && Faults() == old(Faults())
      ensures (i.Some? <==> old(Cur()) == k) && (i.None? ==> pos == old(pos))
      ensures i.Some? ==> old(pos) < pos == Past(toks, old(pos)) && Spans(toks, Leaf(i.value), old(pos), pos)
    {
      hide Built, Spans;
      if Cur() == k {
        var at := Advance();
        return Some(at);
      }
      return None;
    }

    method Expect(k: Kind) returns (ok: bool)
      requires Valid() && k != EOF
      modifies this
      ensures Valid() && old(pos) <= pos && old(Faults()) <= Faults()
      ensures ok <==> old(Cur()) == k
      ensures if ok then pos == Past(toks, old(pos)) && Faults() == old(Faults())
              else pos == old(pos) && Faults() > old(Faults())
    {
      hide Built, Spans;
      if Cur() == k {
        var _ := Advance();
        return true;
      }
      ErrorHere();
      return false;
    }

    /** Skips tokens until one of the given kinds, or EOF. */
    method SynchronizeTo(kinds: set<Kind>)
      requires Valid()
      modifies this`pos
      ensures Valid() && old(pos) <= pos && Faults() == old(Faults())
      ensures Cur() in kinds || Cur() == EOF
      ensures old(Cur()) !in kinds && old(Cur()) != EOF ==> pos > old(pos)
      ensures pos == SkipTo(toks, old(pos), kinds)
    {
      hide Built, Spans, SkipTo, KindAt, Past, NextReal, FirstEof, HasEof, ErrorCount, Index, IsComment;
      while Cur() != EOF
        invariant Valid() && old(pos) <= pos
        invariant pos == old(pos) || old(Cur()) !in kinds
        invariant SkipTo(toks, pos, kinds) == SkipTo(toks, old(pos), kinds)
        decreases Left()
      {
        SkipStep(toks, pos, kinds);
        if Cur() in kinds {
          return;
        }
        var _ := Advance();
      }
      SkipStep(toks, pos, kinds);
    }

    /** Skips past a malformed entry: to a separator, which goes too, or to the terminator. */
    method RecoverEntry(term: Kind)
      requires Valid()
      modifies this`pos
      ensures Valid() && old(pos) <= pos && Faults() == old(Faults())
      ensures pos > old(pos) || Cur() == term || Cur() == EOF
      ensures pos == RecoverTo(toks, old(pos), term)
    {
      hide Built, Spans, SkipTo, KindAt, Past;
      SynchronizeTo({Comma, Semicolon, term});
      if Cur() != term && Cur() != EOF {
        var _ := Advance();
      }
    }

    method IdentifierHere() returns (n: Node)
      requires Valid() && Cur() != EOF
      modifies this`pos
      ensures Valid() && old(pos) <= pos && pos > old(pos) && Faults() == old(Faults())
      ensures n == Node(NameForm, pos - 1, pos - 1, []) && pos == Past(toks, old(pos)) == Index(toks, old(pos)) + 1
      ensures Spans(toks, n, old(pos), pos)
    {
      hide Built, Spans;
      var o := Begin();
      var i := Advance();
      n := Finish(o, [], o.p0, NameForm);
    }

    method ExpectIdentifier() returns (n: Option<Node>)
      requires Valid()
      modifies this
      ensures Valid() && old(pos) <= pos && old(Faults()) <= Faults()
      ensures if n.None? then pos == old(pos) && Faults() > old(Faults()) else Faults() == old(Faults())
      ensures n.Some? <==> old(Cur()) == Identifier
      ensures n.Some? ==> n.value == Node(NameForm, Index(toks, old(pos)), Index(toks, old(pos)), [])
      ensures n.Some? ==> old(pos) < pos == Past(toks, old(pos)) && Spans(toks, n.value, old(pos), pos)
    {
      hide Built, Spans, KindAt, Index, Past;
      if Cur() != Identifier {
        ErrorHere();
        return None;
      }
      var name := IdentifierHere();
      return Some(name);
    }

    /** An optional separator after parts. */
    method TakeSeparator(parts: seq<Child>, ghost o: Open, ghost at: nat, ghost rest: Rule)
      returns (more: seq<Child>, ghost to: nat)
      requires Valid() && Built(toks, o, parts, at) && at <= pos
      modifies this`pos
      ensures Valid() && old(pos) <= pos && Faults() == old(Faults())
      ensures Built(toks, o, more, to) && to <= pos && parts <= more
      ensures Onward(toks, parts, old(pos), Sep(rest)) == Onward(toks, more, pos, rest)
      ensures pos == AfterSeparator(toks, old(pos))
    {
      hide *;
      OnwardSep(toks, parts, pos, rest);
      SeparatorNext(toks, pos);
      if Cur() != Comma && Cur() != Semicolon {
        return parts, at;
      }
      var sep := Advance();
      BuiltMore(toks, o, parts, at, old(pos), SepRole, Leaf(sep), pos);
      return parts + [Child(SepRole, Leaf(sep))], pos;
    }

    // ----- annotations -----

    /** An optional "=" and a token of the kind after parts; false if the token is missing. */
    method TakeEqual(kind: Kind, parts: seq<Child>, ghost o: Open, ghost at: nat, ghost rest: Rule)
      returns (ok: bool, more: seq<Child>, ghost to: nat)
      requires Valid() && Built(toks, o, parts, at) && at <= pos && kind != EOF
      modifies this
      ensures Valid() && old(pos) <= pos && old(Faults()) <= Faults()
      ensures Built(toks, o, more, to) && to <= pos
      ensures ok <==> Faults() == old(Faults())
      ensures Onward(toks, parts, old(pos), Opt(Tok(Equal, One(Mark(ValueRole, {kind}), End)), rest)) ==
              if ok then Onward(toks, more, pos, rest) else None
      ensures kind !in STOPS ==> Guarded(toks, old(pos), pos, STOPS)
    {
      hide *;
      OnwardEqual(toks, parts, pos, kind, rest);
      StopsAre();
      GuardedNone(toks, pos, STOPS);
      if Cur() != Equal {
        return true, parts, at;
      }
      GuardedToken(toks, pos, STOPS);
      var _ := Advance();
      if Cur() != kind {
        ErrorHere();
        return false, parts, at;
      }
      ghost var from: nat := pos;
      if kind !in STOPS {
        GuardedToken(toks, pos, STOPS);
        GuardedThen(toks, old(pos), pos, Past(toks, pos), STOPS);
      }
      var value := Advance();
      BuiltMore(toks, o, parts, at, from, ValueRole, Leaf(value), pos);
      return true, parts + [Child(ValueRole, Leaf(value))], pos;
    }

    /** [= "value"] [separator] behind the name of an annotation. */
    method TakeAnnotationTail(parts: seq<Child>, ghost o: Open, ghost at: nat)
      returns (more: seq<Child>, ghost to: nat)
      requires Valid() && Built(toks, o, parts, at) && at <= pos
      modifies this
      ensures Valid() && old(pos) <= pos && old(Faults()) <= Faults()
      ensures Built(toks, o, more, to) && to <= pos
      ensures Onward(toks, parts, old(pos), Opt(Tok(Equal, One(Mark(ValueRole, {StringLiteral}), End)), Sep(End))) ==
              if Faults() == old(Faults()) then Some(Parts(more, pos)) else None
      ensures Turn(toks, old(pos), pos, RParen)
    {
      hide *;
      ghost var p, stops := pos, {Comma, Semicolon, RParen};
      StopsAre();
      var ok;
      ok, more, to := TakeEqual(StringLiteral, parts, o, at, Sep(End));
      GuardedLess(toks, p, pos, STOPS, stops);
      if !ok {
        SkippedFurther(toks, p, pos, stops);
        SynchronizeTo({Comma, Semicolon, RParen});
      }
      SeparatorTurn(toks, p, pos, RParen);
      more, to := TakeSeparator(more, o, to, End);
      OnwardEnd(toks, more, pos);
    }

    /** name [= "value"] [separator] */
    method ParseAnnotation() returns (n: Node)
      requires Valid() && Cur() == Identifier
      modifies this
      ensures Valid() && old(pos) < pos && old(Faults()) <= Faults()
      ensures Spans(toks, n, old(pos), pos)
      ensures Found(NodeAt(toks, old(pos), AnnotationNode), Faults() == old(Faults()), Some(n), pos)
      ensures Turn(toks, old(pos), pos, RParen)
    {
      hide *;
      ghost var p, f, stops := pos, Faults(), {Comma, Semicolon, RParen};
      AnnotationRule();
      OnwardName(toks, [], pos, NameRole,
                 Opt(Tok(Equal, One(Mark(ValueRole, {StringLiteral}), End)), Sep(End)));
      GuardedToken(toks, pos, stops);
      var o := Begin();
      var name := IdentifierHere();
      ghost var q: nat := pos;
      BuiltMore(toks, o, [], o.p0, o.p0, NameRole, name, pos);
      var parts, at := TakeAnnotationTail([] + [Child(NameRole, name)], o, pos);
      TurnThen(toks, p, q, pos, RParen);
      n := Finish(o, parts, at, AnnotationForm);
      Closes(toks, p, AnnotationNode, AnnotationForm, Faults() == f, parts, pos);
    }

    /** Annotations up to ")"; malformed ones are skipped. */
    method TakeAnnotationItems(parts: seq<Child>, ghost o: Open, ghost at: nat)
      returns (more: seq<Child>, ghost to: nat)
      requires Valid() && Built(toks, o, parts, at) && at <= pos
      modifies this
      ensures Valid() && old(pos) <= pos && old(Faults()) <= Faults()
      ensures Built(toks, o, more, to) && to <= pos
      ensures Onward(toks, parts, old(pos), Each(AnnotationNode, Tok(RParen, End))) ==
              if Faults() == old(Faults()) then Onward(toks, more, pos, Tok(RParen, End)) else None
      ensures parts <= more && Recovers(toks, old(pos), pos, more, AnnotationNode, RParen)
    {
      hide *;
      more, to := parts, at;
      PendingStart(toks, pos, parts, AnnotationNode, RParen);
      NoSeparators();
      ghost var from: nat, f, items := pos, Faults(), Each(AnnotationNode, Tok(RParen, End));
      ghost var goal := Onward(toks, parts, pos, items);
      while Cur() != RParen && Cur() != EOF
        invariant Valid() && old(pos) <= pos && f <= Faults()
        invariant Built(toks, o, more, to) && to <= pos
        invariant goal == if Faults() == f then Onward(toks, more, pos, items) else None
        invariant parts <= more && Pending(toks, old(pos), pos, more, AnnotationNode, RParen)
        decreases Left(), if Cur() == RParen || Cur() == EOF then 0 else 1
      {
        EntryStarts(Cur());
        OnwardEntries(toks, more, pos, AnnotationNode, RParen, End);
        NoNode(toks, pos, AnnotationNode);
        from := pos;
        if Cur() != Identifier {
          ErrorHere();
          RecoverTurn(toks, pos, RParen);
          RecoverEntry(RParen);
          PendingTurn(toks, old(pos), from, pos, more, more, AnnotationNode, RParen);
          continue;
        }
        var item := ParseAnnotation();
        FoundParts(NodeAt(toks, from, AnnotationNode), Some(item), pos);
        EntryEndIs(toks, from, AnnotationNode);
        BuiltMore(toks, o, more, to, from, EntryRole, item, pos);
        PendingTurn(toks, old(pos), from, pos, more, more + [Child(EntryRole, item)], AnnotationNode, RParen);
        more, to := more + [Child(EntryRole, item)], pos;
      }
      NoNode(toks, pos, AnnotationNode);
      EntryStarts(Cur());
      PendingEnd(toks, old(pos), pos, more, AnnotationNode, RParen);
      OnwardEntries(toks, more, pos, AnnotationNode, RParen, End);
      OnwardTok(toks, more, pos, RParen, End);
    }

    method ParseAnnotations() returns (n: Node)
      requires Valid() && Cur() == LParen
      modifies this
      ensures Valid() && old(pos) < pos && old(Faults()) <= Faults()
      ensures Spans(toks, n, old(pos), pos)
      ensures Found(NodeAt(toks, old(pos), AnnotationsNode), Faults() == old(Faults()), Some(n), pos)
      ensures RecoversThrough(toks, Past(toks, old(pos)), pos, n.parts, AnnotationNode, RParen)
    {
      hide *;
      ghost var p, f := pos, Faults();
      AnnotationsRule();
      OnwardTok(toks, [], pos, LParen, Each(AnnotationNode, Tok(RParen, End)));
      ghost var goal := Onward(toks, [], pos, Production(AnnotationsForm));
      var o := Begin();
      var _ := Advance();
      var parts, at := TakeAnnotationItems([], o, o.p0);
      OnwardTok(toks, parts, pos, RParen, End);
      ghost var q: nat := pos;
      var _ := Expect(RParen);
      OnwardEnd(toks, parts, pos);
      Through(toks, Past(toks, p), q, pos, parts, AnnotationNode, RParen);
      assert goal == if Faults() == f then Some(Parts(parts, pos)) else None;
      n := Finish(o, parts, at, AnnotationsForm);
      Closes(toks, p, AnnotationsNode, AnnotationsForm, Faults() == f, parts, pos);
    }

    /** An optional annotation group after parts. */
    method TakeAnnotations(parts: seq<Child>, ghost o: Open, ghost at: nat, ghost rest: Rule)
      returns (more: seq<Child>, ghost to: nat)
      requires Valid() && Built(toks, o, parts, at) && at <= pos
      modifies this
      ensures Valid() && old(pos) <= pos && old(Faults()) <= Faults()
      ensures Built(toks, o, more, to) && to <= pos
      ensures Onward(toks, parts, old(pos), Annotated(rest)) ==
              if Faults() == old(Faults()) then Onward(toks, more, pos, rest) else None
      ensures parts <= more && (old(Cur()) != LParen ==> pos == old(pos))
      ensures Guarded(toks, old(pos), pos, FIELD_STOPS)
    {
      hide *;
      OnwardAnnotated(toks, parts, pos, rest);
      GuardedNone(toks, pos, FIELD_STOPS);
      if Cur() != LParen {
        return parts, at;
      }
      OpensAre();
      StopsAre();
      var n := ParseAnnotations();
      GuardedOpener(toks, old(pos), pos, FIELD_STOPS);
      FoundParts(NodeAt(toks, old(pos), AnnotationsNode), Some(n), pos);
      BuiltMore(toks, o, parts, at, old(pos), AnnotationsRole, n, pos);
      return parts + [Child(AnnotationsRole, n)], pos;
    }

    /** Optional annotations and an optional separator, which end an entry or a definition. */
    method TakeTail(parts: seq<Child>, ghost o: Open, ghost at: nat) returns (more: seq<Child>, ghost to: nat)
      requires Valid() && Built(toks, o, parts, at) && at <= pos
      modifies this
      ensures Valid() && old(pos) <= pos && old(Faults()) <= Faults()
      ensures Built(toks, o, more, to) && to <= pos
      ensures Onward(toks, parts, old(pos), Annotated(Sep(End))) ==
              if Faults() == old(Faults()) then Some(Parts(more, pos)) else None
      ensures Ended(toks, old(pos), pos, FIELD_STOPS)
    {
      hide *;
      more, to := TakeAnnotations(parts, o, at, Sep(End));
      EndedBy(toks, old(pos), pos, FIELD_STOPS);
      more, to := TakeSeparator(more, o, to, End);
      OnwardEnd(toks, more, pos);
    }

    // ----- constant values -----

    method ParseConstValue() returns (n: Option<Node>)
      requires Valid()
      modifies this
      decreases Left(), 1
      ensures n.None? ==> pos == old(pos)
      ensures Valid() && old(pos) <= pos && old(Faults()) <= Faults()
      ensures n.None? ==> Faults() > old(Faults())
      ensures n.Some? ==> pos > old(pos) && Spans(toks, n.value, old(pos), pos)
      ensures Found(NodeAt(toks, old(pos), ValueNode), Faults() == old(Faults()), n, pos)
      ensures Guarded(toks, old(pos), pos, STOPS)
    {
      hide *;
      OpensAre();
      StopsAre();
      if Cur() == LBracket {
        var list := ParseListConst();
        GuardedOpener(toks, old(pos), pos, STOPS);
        return Some(list);
      }
      if Cur() == LBrace {
        var map' := ParseMapConst();
        GuardedOpener(toks, old(pos), pos, STOPS);
        return Some(map');
      }
      n := ParseScalar();
    }

    /** What the next token is as a value of one token. */
    function ScalarHere(): (form: Option<Form>)
      requires Valid() && Cur() != LBracket && Cur() != LBrace
      reads this
      ensures form == Choose(ValueNode, Cur()) && form != Some(ListForm) && form != Some(MapForm)
      ensures form.Some? ==> Cur() != EOF
    {
      hide *;
      var k := Cur();
      ValueStarts(k);
      if k == IntConstant || k == True || k == False then Some(IntForm)
      else if k == DoubleConstant then Some(DoubleForm)
      else if k == StringLiteral then Some(StringForm)
      else if k == Identifier then Some(IdentForm)
      else None
    }

    /** A value of one token. */
    method ParseScalar() returns (n: Option<Node>)
      requires Valid() && Cur() != LBracket && Cur() != LBrace
      modifies this
      ensures n.None? ==> pos == old(pos)
      ensures Valid() && old(pos) <= pos && old(Faults()) <= Faults()
      ensures n.None? ==> Faults() > old(Faults())
      ensures n.Some? ==> pos > old(pos) && Spans(toks, n.value, old(pos), pos)
      ensures Found(NodeAt(toks, old(pos), ValueNode), Faults() == old(Faults()), n, pos)
      ensures Guarded(toks, old(pos), pos, STOPS)
    {
      hide *;
      var form := ScalarHere();
      GuardedNone(toks, pos, STOPS);
      NoStopValue(Cur());
      if form.None? {
        NoNode(toks, pos, ValueNode);
        FoundNot(NodeAt(toks, pos, ValueNode), pos);
        ErrorHere();
        return None;
      }
      GuardedToken(toks, pos, STOPS);
      var o := Begin();
      var _ := Advance();
      n := Some(Finish(o, [], o.p0, form.value));
      assert Found(NodeAt(toks, old(pos), ValueNode), true, n, pos) by {
        ScalarRead(toks, old(pos), form.value);
        Closes(toks, old(pos), ValueNode, form.value, true, [], pos);
      }
    }

    /** "[" values "]" */
    method ParseListConst() returns (n: Node)
      requires Valid() && Cur() == LBracket
      modifies this
      decreases Left(), 0
      ensures Valid() && old(pos) < pos && old(Faults()) <= Faults() && Spans(toks, n, old(pos), pos)
      ensures Found(NodeAt(toks, old(pos), ValueNode), Faults() == old(Faults()), Some(n), pos)
      ensures RecoversThrough(toks, Past(toks, old(pos)), pos, n.parts, ValueNode, RBracket)
    {
      hide *;
      ghost var p, f := pos, Faults();
      ListRule();
      ghost var goal := Onward(toks, [], pos, Production(ListForm));
      var o := Begin();
      var _ := Advance();
      assert goal == Onward(toks, [], pos, ListItems()) by {
        OnwardTok(toks, [], p, LBracket, ListItems());
      }
      var parts, at := TakeListItems([], o, o.p0);
      OnwardTok(toks, parts, pos, RBracket, End);
      ghost var q: nat := pos;
      var _ := Expect(RBracket);
      OnwardEnd(toks, parts, pos);
      Through(toks, Past(toks, p), q, pos, parts, ValueNode, RBracket);
      assert goal == if Faults() == f then Some(Parts(parts, pos)) else None;
      n := Finish(o, parts, at, ListForm);
      Closes(toks, p, ValueNode, ListForm, Faults() == f, parts, pos);
    }

    /** Values up to "]"; malformed ones are skipped. */
    method TakeListItems(parts: seq<Child>, ghost o: Open, ghost at: nat) returns (more: seq<Child>, ghost to: nat)
      requires Valid() && Built(toks, o, parts, at) && at <= pos
      modifies this
      decreases Left(), 3
      ensures Valid() && old(pos) <= pos && old(Faults()) <= Faults()
      ensures Built(toks, o, more, to) && to <= pos
      ensures Onward(toks, parts, old(pos), ListItems()) ==
              if Faults() == old(Faults()) then Onward(toks, more, pos, Tok(RBracket, End)) else None
      ensures parts <= more && Recovers(toks, old(pos), pos, more, ValueNode, RBracket)
    {
      hide *;
      more, to := parts, at;
      PendingStart(toks, pos, parts, ValueNode, RBracket);
      NoSeparators();
      StopsAre();
      ghost var stops := {Comma, Semicolon, RBracket};
      ghost var from: nat, f := pos, Faults();
      ghost var goal := Onward(toks, parts, pos, ListItems());
      while Cur() != RBracket && Cur() != EOF
        invariant Valid() && old(pos) <= pos && f <= Faults()
        invariant Built(toks, o, more, to) && to <= pos
        invariant goal == if Faults() == f then Onward(toks, more, pos, ListItems()) else None
        invariant parts <= more && Pending(toks, old(pos), pos, more, ValueNode, RBracket)
        decreases Left(), if Cur() == RBracket || Cur() == EOF then 0 else 1
      {
        from := pos;
        OnwardItem(toks, more, pos);
        var item := ParseConstValue();
        FoundParts(NodeAt(toks, from, ValueNode), item, pos);
        if item.None? {
          RecoverTurn(toks, pos, RBracket);
          RecoverEntry(RBracket);
          PendingTurn(toks, old(pos), from, pos, more, more, ValueNode, RBracket);
          continue;
        }
        EntryEndIs(toks, from, ValueNode);
        GuardedLess(toks, from, pos, STOPS, stops);
        EndedBy(toks, from, pos, stops);
        TurnIs(toks, from, AfterSeparator(toks, pos), RBracket);
        ghost var before := more;
        BuiltMore(toks, o, more, to, from, EntryRole, item.value, pos);
        more, to := more + [Child(EntryRole, item.value)], pos;
        assert goal == if Faults() == f then Onward(toks, more, pos, Sep(ListItems())) else None;
        more, to := TakeSeparator(more, o, to, ListItems());
        assert before <= more && more[|before|] == Child(EntryRole, item.value);
        PendingTurn(toks, old(pos), from, pos, before, more, ValueNode, RBracket);
      }
      ValueStarts(Cur());
      NoNode(toks, pos, ValueNode);
      PendingEnd(toks, old(pos), pos, more, ValueNode, RBracket);
      ItemsEnd(toks, more, pos);
    }

    /** "{" key ":" value ... "}"; an entry without its value is dropped. */
    method ParseMapConst() returns (n: Node)
      requires Valid() && Cur() == LBrace
      modifies this
      decreases Left(), 0
      ensures Valid() && old(pos) < pos && old(Faults()) <= Faults() && Spans(toks, n, old(pos), pos)
      ensures Found(NodeAt(toks, old(pos), ValueNode), Faults() == old(Faults()), Some(n), pos)
    {
      hide *;
      ghost var p, f := pos, Faults();
      MapRule();
      ghost var goal := Onward(toks, [], pos, Production(MapForm));
      var o := Begin();
      var _ := Advance();
      assert goal == Onward(toks, [], pos, MapItems()) by {
        OnwardTok(toks, [], p, LBrace, MapItems());
      }
      var parts, at := TakeMapItems([], o, o.p0);
      OnwardTok(toks, parts, pos, RBrace, End);
      var _ := Expect(RBrace);
      OnwardEnd(toks, parts, pos);
      assert goal == if Faults() == f then Some(Parts(parts, pos)) else None;
      n := Finish(o, parts, at, MapForm);
      Closes(toks, p, ValueNode, MapForm, Faults() == f, parts, pos);
    }

    /** Map entries up to "}". */
    method TakeMapItems(parts: seq<Child>, ghost o: Open, ghost at: nat) returns (more: seq<Child>, ghost to: nat)
      requires Valid() && Built(toks, o, parts, at) && at <= pos
      modifies this
      decreases Left(), 3
      ensures Valid() && old(pos) <= pos && old(Faults()) <= Faults()
      ensures Built(toks, o, more, to) && to <= pos
      ensures Onward(toks, parts, old(pos), MapItems()) ==
              if Faults() == old(Faults()) then Onward(toks, more, pos, Tok(RBrace, End)) else None
    {
      hide *;
      more, to := parts, at;
      ghost var f, goal := Faults(), Onward(toks, parts, pos, MapItems());
      while Cur() != RBrace && Cur() != EOF
        invariant Valid() && old(pos) <= pos && f <= Faults()
        invariant Built(toks, o, more, to) && to <= pos
        invariant goal == if Faults() == f then Onward(toks, more, pos, MapItems()) else None
        decreases Left(), if Cur() == RBrace || Cur() == EOF then 0 else 1
      {
        more, to := TakeMapEntry(more, o, to);
      }
      MapItemsEnd(toks, more, pos);
    }

    method TakeMapEntry(parts: seq<Child>, ghost o: Open, ghost at: nat) returns (more: seq<Child>, ghost to: nat)
      requires Valid() && Built(toks, o, parts, at) && at <= pos && Cur() != EOF && Cur() != RBrace
      modifies this
      decreases Left(), 2
      ensures Valid() && old(pos) <= pos && old(Faults()) <= Faults()
      ensures Built(toks, o, more, to) && to <= pos
      ensures old(pos) < pos || Cur() == RBrace || Cur() == EOF
      ensures Onward(toks, parts, old(pos), MapItems()) ==
              if Faults() == old(Faults()) then Onward(toks, more, pos, MapItems()) else None
    {
      hide *;
      more, to := parts, at;
      OnwardMapItem(toks, parts, pos);
      var key := ParseConstValue();
      FoundParts(NodeAt(toks, old(pos), ValueNode), key, pos);
      if key.None? {
        RecoverEntry(RBrace);
        return;
      }
      ghost var k: nat, f := pos, Faults();
      OnwardTok(toks, parts + [Child(KeyRole, key.value)], pos, Colon,
                One(Part(ValueRole, ValueNode), Sep(MapItems())));
      var ok := Expect(Colon);
      if !ok {
        RecoverEntry(RBrace);
        return;
      }
      ghost var from: nat := pos;
      OnwardPart(toks, parts + [Child(KeyRole, key.value)], pos, ValueRole, ValueNode, Sep(MapItems()));
      var value := ParseConstValue();
      FoundParts(NodeAt(toks, from, ValueNode), value, pos);
      if value.None? {
        RecoverEntry(RBrace);
        return;
      }
      BuiltMore(toks, o, parts, at, old(pos), KeyRole, key.value, k);
      BuiltMore(toks, o, parts + [Child(KeyRole, key.value)], k, from, ValueRole, value.value, pos);
      more, to := parts + [Child(KeyRole, key.value)] + [Child(ValueRole, value.value)], pos;
      more, to := TakeSeparator(more, o, to, MapItems());
    }

    // ----- structured annotations -----

    /** "@" name value, of which the value may be missing after an error; None if the name is. */
    method ParseStructuredAnnotation() returns (n: Option<Node>)
      requires Valid() && Cur() == At
      modifies this
      ensures Valid() && old(pos) < pos && old(Faults()) <= Faults()
      ensures n.None? ==> Faults() > old(Faults())
      ensures n.Some? ==> Spans(toks, n.value, old(pos), pos)
      ensures Found(NodeAt(toks, old(pos), StructuredNode), Faults() == old(Faults()), n, pos)
      ensures Guarded(toks, old(pos), pos, FIELD_STOPS)
    {
      hide *;
      StopsAre();
      GuardedToken(toks, pos, FIELD_STOPS);
      ghost var p, f := pos, Faults();
      StructuredRule();
      ghost var goal := Onward(toks, [], pos, Production(StructuredForm));
      var o := Begin();
      var _ := Advance();
      assert goal == Onward(toks, [], pos, One(Part(NameRole, PlainName), AnnotationValue())) by {
        OnwardTok(toks, [], p, At, One(Part(NameRole, PlainName), AnnotationValue()));
      }
      ghost var from: nat := pos;
      OnwardName(toks, [], pos, NameRole, AnnotationValue());
      var name := ExpectIdentifier();
      if name.None? {
        Misses(toks, p, StructuredNode, StructuredForm, None, pos);
        return None;
      }
      GuardedToken(toks, from, FIELD_STOPS);
      GuardedThen(toks, p, from, pos, FIELD_STOPS);
      ghost var q: nat := pos;
      BuiltMore(toks, o, [], o.p0, from, NameRole, name.value, pos);
      var parts, at := TakeAnnotationValue([] + [Child(NameRole, name.value)], o, pos);
      GuardedThen(toks, p, q, pos, FIELD_STOPS);
      assert goal == if Faults() == f then Some(Parts(parts, pos)) else None;
      n := Some(Finish(o, parts, at, StructuredForm));
      Closes(toks, p, StructuredNode, StructuredForm, Faults() == f, parts, pos);
    }

    /** A list, a map or a scalar in parentheses, after parts. */
    method TakeAnnotationValue(parts: seq<Child>, ghost o: Open, ghost at: nat)
      returns (more: seq<Child>, ghost to: nat)
      requires Valid() && Built(toks, o, parts, at) && at <= pos
      modifies this
      ensures Valid() && old(pos) <= pos && old(Faults()) <= Faults()
      ensures Built(toks, o, more, to) && to <= pos
      ensures Onward(toks, parts, old(pos), AnnotationValue()) ==
              if Faults() == old(Faults()) then Some(Parts(more, pos)) else None
      ensures Guarded(toks, old(pos), pos, FIELD_STOPS)
    {
      hide *;
      OpensAre();
      StopsAre();
      GuardedNone(toks, pos, FIELD_STOPS);
      if Cur() == LParen {
        more, to := TakeScalar(parts, o, at);
        GuardedOpener(toks, old(pos), pos, FIELD_STOPS);
        return;
      }
      OnwardAnnotationValue(toks, parts, pos);
      ValueKinds(toks, pos);
      BracketedStarts(toks, pos);
      if Cur() == LBrace || Cur() == LBracket {
        more, to := TakeConstValue(parts, o, at);
        return;
      }
      ErrorHere();
      return parts, at;
    }

    /** "(" scalar ")" after parts; a list or a map there is an error. */
    method TakeScalar(parts: seq<Child>, ghost o: Open, ghost at: nat) returns (more: seq<Child>, ghost to: nat)
      requires Valid() && Built(toks, o, parts, at) && at <= pos && Cur() == LParen
      modifies this
      ensures Valid() && old(pos) <= pos && old(Faults()) <= Faults()
      ensures Built(toks, o, more, to) && to <= pos
      ensures Onward(toks, parts, old(pos), AnnotationValue()) ==
              if Faults() == old(Faults()) then Some(Parts(more, pos)) else None
    {
      hide *;
      OnwardAnnotationValue(toks, parts, pos);
      var _ := Advance();
      ValueKinds(toks, pos);
      more, to := TakeConstValue(parts, o, at);
      var _ := Expect(RParen);
      if |more| > |parts| && (more[|parts|].node.form == MapForm || more[|parts|].node.form == ListForm) {
        ErrorHere();
      }
    }

    /** A constant value after parts, unless there is none. */
    method TakeConstValue(parts: seq<Child>, ghost o: Open, ghost at: nat) returns (more: seq<Child>, ghost to: nat)
      requires Valid() && Built(toks, o, parts, at) && at <= pos
      modifies this
      ensures Valid() && old(pos) <= pos && old(Faults()) <= Faults()
      ensures Built(toks, o, more, to) && to <= pos
      ensures (more == parts && Faults() > old(Faults())) || |more| == |parts| + 1
      ensures var r := NodeAt(toks, old(pos), ValueNode);
              if Faults() == old(Faults())
              then r.Some? && more == parts + [Child(ValueRole, r.value.node)] && pos == r.value.next
              else r == None
      ensures Guarded(toks, old(pos), pos, FIELD_STOPS)
    {
      hide *;
      var value := ParseConstValue();
      StopsAre();
      GuardedLess(toks, old(pos), pos, STOPS, FIELD_STOPS);
      FoundParts(NodeAt(toks, old(pos), ValueNode), value, pos);
      if value.None? {
        return parts, at;
      }
      BuiltMore(toks, o, parts, at, old(pos), ValueRole, value.value, pos);
      return parts + [Child(ValueRole, value.value)], pos;
    }

    /** The structured annotations in front of a definition, and the node they belong to, which starts
        with the first of them. */
    method ParseStructuredAnnotations(ghost rest: Rule) returns (o: Open, parts: seq<Child>, ghost at: nat)
      requires Valid()
      modifies this
      ensures Valid() && old(pos) <= pos && old(Faults()) <= Faults()
      ensures Built(toks, o, parts, at) && at <= pos && old(pos) <= o.p0 <= pos
      ensures if old(Cur()) == At then pos > old(pos) else pos == old(pos)
      ensures Faults() == old(Faults()) ==> o.first == Index(toks, old(pos)) && (parts == [] ==> pos == old(pos))
      ensures Onward(toks, [], old(pos), StructuredFirst(rest)) ==
              if Faults() == old(Faults()) then Onward(toks, parts, pos, rest) else None
      ensures Guarded(toks, old(pos), pos, FIELD_STOPS)
    {
      hide *;
      GuardedNone(toks, pos, FIELD_STOPS);
      o, parts, at := Begin(), [], pos;
      ghost var start, f := Cur(), Faults();
      ghost var goal := Onward(toks, [], pos, StructuredFirst(rest));
      while Cur() == At
        invariant Valid() && old(pos) <= pos && f <= Faults()
        invariant Built(toks, o, parts, at) && at <= pos && o.p0 == old(pos) && o.first == Index(toks, old(pos))
        invariant parts == [] ==> pos == old(pos)
        invariant Guarded(toks, old(pos), pos, FIELD_STOPS)
        invariant pos > old(pos) || Cur() == start
        invariant start != At ==> pos == old(pos)
        invariant goal == if Faults() == f then Onward(toks, parts, pos, StructuredFirst(rest)) else None
        decreases Left()
      {
        ghost var from := pos;
        OnwardStructured(toks, parts, pos, rest);
        var n := ParseStructuredAnnotation();
        GuardedThen(toks, old(pos), from, pos, FIELD_STOPS);
        FoundParts(NodeAt(toks, from, StructuredNode), n, pos);
        if n.None? {
          break;
        }
        BuiltMore(toks, o, parts, at, from, StructuredRole, n.value, pos);
        parts, at := parts + [Child(StructuredRole, n.value)], pos;
      }
      OnwardStructured(toks, parts, pos, rest);
      if parts == [] {
        o, at := Begin(), pos;
      }
    }

    // ----- types -----

    /** An optional cpp_type with its literal. */
    method TakeCppType(parts: seq<Child>, ghost o: Open, ghost at: nat, ghost rest: Rule)
      returns (more: seq<Child>, ghost to: nat)
      requires Valid() && Built(toks, o, parts, at) && at <= pos
      modifies this
      ensures Valid() && old(pos) <= pos && old(Faults()) <= Faults()
      ensures Built(toks, o, more, to) && to <= pos
      ensures Onward(toks, parts, old(pos), CppType(rest)) ==
              if Faults() == old(Faults()) then Onward(toks, more, pos, rest) else None
      ensures Guarded(toks, old(pos), pos, FIELD_STOPS)
    {
      hide *;
      StopsAre();
      GuardedNone(toks, pos, FIELD_STOPS);
      OnwardCpp(toks, parts, pos, rest);
      if Cur() != CPPType {
        return parts, at;
      }
      GuardedToken(toks, pos, FIELD_STOPS);
      var _ := Advance();
      if Cur() != StringLiteral {
        ErrorHere();
        return parts, at;
      }
      ghost var from := pos;
      GuardedToken(toks, from, FIELD_STOPS);
      var literal := Advance();
      GuardedThen(toks, old(pos), from, pos, FIELD_STOPS);
      BuiltMore(toks, o, parts, at, from, CPPTypeRole, Leaf(literal), pos);
      return parts + [Child(CPPTypeRole, Leaf(literal))], pos;
    }

    /** A type after parts, or an error and the tokens up to one of stops. */
    method TakeType(parts: seq<Child>, ghost o: Open, ghost at: nat, role: Role, stops: set<Kind>, ghost rest: Rule)
      returns (more: seq<Child>, ghost to: nat)
      requires Valid() && Built(toks, o, parts, at) && at <= pos
      modifies this
      decreases Left(), 2
      ensures Valid() && old(pos) <= pos && old(Faults()) <= Faults()
      ensures Built(toks, o, more, to) && to <= pos
      ensures Onward(toks, parts, old(pos), One(Part(role, TypeNode), rest)) ==
              if Faults() == old(Faults()) then Onward(toks, more, pos, rest) else None
    {
      hide *;
      OnwardPart(toks, parts, pos, role, TypeNode, rest);
      var n := ParseFieldType();
      FoundParts(NodeAt(toks, old(pos), TypeNode), n, pos);
      if n.None? {
        SynchronizeTo(stops);
        return parts, at;
      }
      BuiltMore(toks, o, parts, at, old(pos), role, n.value, pos);
      return parts + [Child(role, n.value)], pos;
    }

    /** The types between "<" and ">": a key and a value for a map, and else an element. */
    method TakeArguments(isMap: bool, parts: seq<Child>, ghost o: Open, ghost at: nat, ghost rest: Rule)
      returns (more: seq<Child>, ghost to: nat)
      requires Valid() && Built(toks, o, parts, at) && at <= pos
      modifies this
      decreases Left(), 3
      ensures Valid() && old(pos) <= pos && old(Faults()) <= Faults()
      ensures Built(toks, o, more, to) && to <= pos
      ensures Onward(toks, parts, old(pos), Arguments(isMap, rest)) ==
              if Faults() == old(Faults()) then Onward(toks, more, pos, rest) else None
    {
      hide *;
      ArgumentsAre(isMap, rest);
      if !isMap {
        more, to := TakeType(parts, o, at, ValueRole, {Gt}, rest);
        return;
      }
      ghost var value := One(Part(ValueRole, TypeNode), rest);
      more, to := TakeType(parts, o, at, KeyRole, {Comma, Gt}, Tok(Comma, value));
      OnwardTok(toks, more, pos, Comma, value);
      var comma := Accept(Comma);
      if comma.Some? {
        more, to := TakeType(more, o, to, ValueRole, {Gt}, rest);
      } else {
        ErrorHere();
        if Cur() != Gt {
          SynchronizeTo({Gt});
        }
      }
    }

    method ParseContainerType() returns (n: Option<Node>)
      requires Valid() && Container(Cur())
      modifies this
      decreases Left(), 0
      ensures Valid() && old(pos) < pos && old(Faults()) <= Faults()
      ensures n.None? ==> Faults() > old(Faults())
      ensures n.Some? ==> Spans(toks, n.value, old(pos), pos)
      ensures Found(NodeAt(toks, old(pos), TypeNode), Faults() == old(Faults()), n, pos)
      ensures Guarded(toks, old(pos), pos, FIELD_STOPS)
    {
      hide *;
      StopsAre();
      NoStopContainer(Cur());
      GuardedToken(toks, pos, FIELD_STOPS);
      ghost var p, f := pos, Faults();
      var k := Cur();
      ContainerRule(k);
      OnwardTok(toks, [], pos, k, CppType(Brackets(k == Map)));
      ghost var goal := Onward(toks, [], pos, Production(ContainerForm(k)));
      var o := Begin();
      var _ := Advance();
      ghost var q: nat := pos;
      var parts, at := TakeCppType([], o, o.p0, Brackets(k == Map));
      GuardedThen(toks, p, q, pos, FIELD_STOPS);
      q := pos;
      var ok;
      ok, parts, at := TakeBrackets(k == Map, parts, o, at);
      GuardedThen(toks, p, q, pos, FIELD_STOPS);
      OnwardEnd(toks, parts, pos);
      assert goal == if Faults() == f then Some(Parts(parts, pos)) else None;
      if !ok {
        GuardedSkip(toks, pos, FIELD_STOPS, FIELD_STOPS);
        GuardedThen(toks, p, pos, SkipTo(toks, pos, FIELD_STOPS), FIELD_STOPS);
        SynchronizeTo({Comma, Semicolon, RBrace, RParen});
        n := None;
        Misses(toks, p, TypeNode, ContainerForm(k), n, pos);
        return;
      }
      n := Some(Finish(o, parts, at, ContainerForm(k)));
      Closes(toks, p, TypeNode, ContainerForm(k), Faults() == f, parts, pos);
    }

    /** "<" arguments ">" and the annotations, if any. */
    method TakeBrackets(isMap: bool, parts: seq<Child>, ghost o: Open, ghost at: nat)
      returns (ok: bool, more: seq<Child>, ghost to: nat)
      requires Valid() && Built(toks, o, parts, at) && at <= pos
      modifies this
      decreases Left(), 4
      ensures Valid() && old(pos) <= pos && old(Faults()) <= Faults()
      ensures Built(toks, o, more, to) && to <= pos && (!ok ==> Faults() > old(Faults()))
      ensures Onward(toks, parts, old(pos), Brackets(isMap)) ==
              if Faults() == old(Faults()) then Onward(toks, more, pos, End) else None
      ensures Guarded(toks, old(pos), pos, FIELD_STOPS)
    {
      hide *;
      OpensAre();
      StopsAre();
      GuardedNone(toks, pos, FIELD_STOPS);
      BracketsAre(isMap);
      OnwardTok(toks, parts, pos, Lt, Arguments(isMap, Tok(Gt, Annotated(End))));
      ok := Expect(Lt);
      if !ok {
        return false, parts, at;
      }
      more, to := TakeArguments(isMap, parts, o, at, Tok(Gt, Annotated(End)));
      OnwardTok(toks, more, pos, Gt, Annotated(End));
      ok := Expect(Gt);
      if ok {
        more, to := TakeAnnotations(more, o, to, End);
      }
      GuardedOpener(toks, old(pos), pos, FIELD_STOPS);
    }

    /** A type: what the grammar reads at the position, or an error. */
    method ParseFieldType() returns (n: Option<Node>)
      requires Valid()
      modifies this
      decreases Left(), 1
      ensures Valid() && old(pos) <= pos && old(Faults()) <= Faults()
      ensures n.None? ==> Faults() > old(Faults())
      ensures n.Some? ==> pos > old(pos) && Spans(toks, n.value, old(pos), pos)
      ensures Found(NodeAt(toks, old(pos), TypeNode), Faults() == old(Faults()), n, pos)
      ensures Choose(TypeNode, old(Cur())).None? ==> n.None? && pos == old(pos)
      ensures Guarded(toks, old(pos), pos, FIELD_STOPS)
    {
      hide *;
      GuardedNone(toks, pos, FIELD_STOPS);
      var k := Cur();
      TypeKinds(k);
      NoNode(toks, pos, TypeNode);
      if Container(k) {
        n := ParseContainerType();
        return;
      }
      if k == Identifier {
        n := ParseNamedType();
        return;
      }
      if !IsBaseType(k) {
        FoundNot(NodeAt(toks, pos, TypeNode), pos);
        ErrorHere();
        return None;
      }
      n := ParseBaseType();
    }

    method ParseNamedType() returns (n: Option<Node>)
      requires Valid() && Cur() == Identifier
      modifies this
      ensures Valid() && old(pos) < pos && Faults() == old(Faults())
      ensures n.Some? && Spans(toks, n.value, old(pos), pos)
      ensures Found(NodeAt(toks, old(pos), TypeNode), true, n, pos)
      ensures Guarded(toks, old(pos), pos, FIELD_STOPS)
    {
      hide *;
      StopsAre();
      GuardedToken(toks, pos, FIELD_STOPS);
      NamedRule();
      OnwardName(toks, [], pos, NameRole, End);
      var o := Begin();
      var name := IdentifierHere();
      BuiltMore(toks, o, [], o.p0, o.p0, NameRole, name, pos);
      var parts := [] + [Child(NameRole, name)];
      OnwardEnd(toks, parts, pos);
      n := Some(Finish(o, parts, pos, NamedTypeForm));
      Closes(toks, old(pos), TypeNode, NamedTypeForm, true, parts, pos);
    }

    method ParseBaseType() returns (n: Option<Node>)
      requires Valid() && IsBaseType(Cur())
      modifies this
      ensures Valid() && old(pos) < pos && old(Faults()) <= Faults() && n.Some? && Spans(toks, n.value, old(pos), pos)
      ensures Found(NodeAt(toks, old(pos), TypeNode), Faults() == old(Faults()), n, pos)
      ensures Guarded(toks, old(pos), pos, FIELD_STOPS)
    {
      hide *;
      StopsAre();
      NoStopBase(Cur());
      GuardedToken(toks, pos, FIELD_STOPS);
      ghost var p, f := pos, Faults();
      var o := Begin();
      var k := Cur();
      BaseRule(k);
      ghost var goal := Onward(toks, [], pos, Production(BaseTypeForm(k)));
      if k == Byte || k == Slist {
        WarnAt(Next());
      }
      var _ := Advance();
      assert goal == Onward(toks, [], pos, Annotated(End)) by {
        OnwardTok(toks, [], p, k, Annotated(End));
      }
      ghost var q: nat := pos;
      var parts, at := TakeAnnotations([], o, o.p0, End);
      GuardedThen(toks, p, q, pos, FIELD_STOPS);
      OnwardEnd(toks, parts, pos);
      assert goal == if Faults() == f then Some(Parts(parts, pos)) else None;
      n := Some(Finish(o, parts, at, BaseTypeForm(k)));
      assert n.value == Node(BaseTypeForm(k), Index(toks, p), pos - 1, parts);
      Closes(toks, p, TypeNode, BaseTypeForm(k), Faults() == f, parts, pos);
    }

    // ----- fields -----

    /** An optional token after parts. */
    method TakeToken(k: Kind, role: Role, parts: seq<Child>, ghost o: Open, ghost at: nat)
      returns (more: seq<Child>, ghost to: nat)
      requires Valid() && Built(toks, o, parts, at) && at <= pos && k != EOF
      modifies this`pos
      ensures Valid() && old(pos) <= pos && Faults() == old(Faults())
      ensures Built(toks, o, more, to) && to <= pos
      ensures if old(Cur()) == k
              then old(pos) < pos == Past(toks, old(pos)) && more == parts + [Child(role, Leaf(Index(toks, old(pos))))]
              else pos == old(pos) && more == parts
    {
      hide *;
      if Cur() != k {
        return parts, at;
      }
      var i := Advance();
      BuiltMore(toks, o, parts, at, old(pos), role, Leaf(i), pos);
      return parts + [Child(role, Leaf(i))], pos;
    }

    /** An optional field id with its colon, and an optional requiredness, in front of a type. */
    method TakeFieldHead(parts: seq<Child>, ghost o: Open, ghost at: nat) returns (more: seq<Child>, ghost to: nat)
      requires Valid() && Built(toks, o, parts, at) && at <= pos
      modifies this
      ensures Valid() && old(pos) <= pos && Faults() == old(Faults())
      ensures Built(toks, o, more, to) && to <= pos
      ensures Onward(toks, parts, old(pos), FieldHead()) == Onward(toks, more, pos, TypedField())
      ensures Guarded(toks, old(pos), pos, FIELD_STOPS)
    {
      hide *;
      StopsAre();
      GuardedNone(toks, pos, FIELD_STOPS);
      more, to := parts, at;
      OnwardID(toks, parts, pos);
      AfterNext(toks, pos);
      if Cur() == IntConstant && KindAt(toks, Next() + 1) == Colon {
        GuardedToken(toks, pos, FIELD_STOPS);
        more, to := TakeToken(IntConstant, IDRole, more, o, to);
        GuardedToken(toks, pos, FIELD_STOPS);
        GuardedThen(toks, old(pos), pos, Past(toks, pos), FIELD_STOPS);
        var _ := Expect(Colon);
      }
      assert Onward(toks, parts, old(pos), FieldHead()) == Onward(toks, more, pos, RequiredField());
      OnwardReq(toks, more, pos);
      if Cur() == Required || Cur() == Optional {
        GuardedToken(toks, pos, FIELD_STOPS);
        GuardedThen(toks, old(pos), pos, Past(toks, pos), FIELD_STOPS);
      }
      if Cur() == Required {
        more, to := TakeToken(Required, ReqRole, more, o, to);
      } else if Cur() == Optional {
        more, to := TakeToken(Optional, ReqRole, more, o, to);
      }
    }

    /** A type that has to be there, after parts. */
    method TakeFieldType(parts: seq<Child>, ghost o: Open, ghost at: nat, ghost rest: Rule)
      returns (ok: bool, more: seq<Child>, ghost to: nat)
      requires Valid() && Built(toks, o, parts, at) && at <= pos
      modifies this
      ensures Valid() && old(pos) <= pos && old(Faults()) <= Faults()
      ensures Built(toks, o, more, to) && to <= pos
      ensures if ok then pos > old(pos) else Faults() > old(Faults())
      ensures Choose(TypeNode, old(Cur())).None? ==> !ok && pos == old(pos)
      ensures Onward(toks, parts, old(pos), One(Part(TypeRole, TypeNode), rest)) ==
              if Faults() == old(Faults()) then Onward(toks, more, pos, rest) else None
      ensures Guarded(toks, old(pos), pos, FIELD_STOPS)
    {
      hide *;
      OnwardPart(toks, parts, pos, TypeRole, TypeNode, rest);
      var t := ParseFieldType();
      FoundParts(NodeAt(toks, old(pos), TypeNode), t, pos);
      if t.None? {
        return false, parts, at;
      }
      BuiltMore(toks, o, parts, at, old(pos), TypeRole, t.value, pos);
      return true, parts + [Child(TypeRole, t.value)], pos;
    }

    /** A plain identifier that has to be there, after parts. */
    method TakeName(role: Role, parts: seq<Child>, ghost o: Open, ghost at: nat, ghost rest: Rule)
      returns (ok: bool, more: seq<Child>, ghost to: nat)
      requires Valid() && Built(toks, o, parts, at) && at <= pos
      modifies this
      ensures Valid() && old(pos) <= pos && old(Faults()) <= Faults()
      ensures Built(toks, o, more, to) && to <= pos
      ensures if ok then pos > old(pos) else pos == old(pos) && Faults() > old(Faults())
      ensures parts <= more && (ok <==> old(Cur()) == Identifier) && (ok ==> pos == Past(toks, old(pos)))
      ensures Onward(toks, parts, old(pos), One(Part(role, PlainName), rest)) ==
              if Faults() == old(Faults()) then Onward(toks, more, pos, rest) else None
    {
      hide *;
      OnwardName(toks, parts, pos, role, rest);
      var name := ExpectIdentifier();
      if name.None? {
        return false, parts, at;
      }
      BuiltMore(toks, o, parts, at, old(pos), role, name.value, pos);
      return true, parts + [Child(role, name.value)], pos;
    }

    /** A field name, which may be any keyword. */
    method TakeFieldName(parts: seq<Child>, ghost o: Open, ghost at: nat, ghost rest: Rule)
      returns (ok: bool, more: seq<Child>, ghost to: nat)
      requires Valid() && Built(toks, o, parts, at) && at <= pos
      modifies this
      ensures Valid() && old(pos) <= pos && old(Faults()) <= Faults()
      ensures Built(toks, o, more, to) && to <= pos
      ensures if ok then pos > old(pos) else Faults() > old(Faults())
      ensures Onward(toks, parts, old(pos), One(Part(NameRole, AnyName), rest)) ==
              if Faults() == old(Faults()) then Onward(toks, more, pos, rest) else None
      ensures Guarded(toks, old(pos), pos, FIELD_STOPS)
    {
      hide *;
      StopsAre();
      GuardedNone(toks, pos, FIELD_STOPS);
      NoEofKeyword();
      IsNameIs(Cur());
      OnwardPart(toks, parts, pos, NameRole, AnyName, rest);
      NameAt(toks, pos);
      if Cur() != Identifier && !IsKeyword(Cur()) {
        ErrorHere();
        return false, parts, at;
      }
      NoStopName(Cur());
      GuardedToken(toks, pos, FIELD_STOPS);
      var name := IdentifierHere();
      BuiltMore(toks, o, parts, at, old(pos), NameRole, name, pos);
      return true, parts + [Child(NameRole, name)], pos;
    }

    /** "=" value; false if either is missing. */
    method TakeValue(parts: seq<Child>, ghost o: Open, ghost at: nat, ghost rest: Rule)
      returns (ok: bool, more: seq<Child>, ghost to: nat)
      requires Valid() && Built(toks, o, parts, at) && at <= pos
      modifies this
      ensures Valid() && old(pos) <= pos && old(Faults()) <= Faults()
      ensures Built(toks, o, more, to) && to <= pos
      ensures !ok ==> Faults() > old(Faults())
      ensures Onward(toks, parts, old(pos), Tok(Equal, One(Part(ValueRole, ValueNode), rest))) ==
              if Faults() == old(Faults()) then Onward(toks, more, pos, rest) else None
      ensures Guarded(toks, old(pos), pos, FIELD_STOPS)
    {
      hide *;
      StopsAre();
      GuardedNone(toks, pos, FIELD_STOPS);
      OnwardTok(toks, parts, pos, Equal, One(Part(ValueRole, ValueNode), rest));
      ok := Expect(Equal);
      if !ok {
        return false, parts, at;
      }
      OnwardPart(toks, parts, pos, ValueRole, ValueNode, rest);
      GuardedToken(toks, old(pos), FIELD_STOPS);
      ghost var q: nat := pos;
      more, to := TakeConstValue(parts, o, at);
      GuardedThen(toks, old(pos), q, pos, FIELD_STOPS);
      ok := |more| > |parts|;
    }

    /** An optional "=" and a value, which then has to be there. */
    method TakeDefault(parts: seq<Child>, ghost o: Open, ghost at: nat, ghost rest: Rule)
      returns (ok: bool, more: seq<Child>, ghost to: nat)
      requires Valid() && Built(toks, o, parts, at) && at <= pos
      modifies this
      ensures Valid() && old(pos) <= pos && old(Faults()) <= Faults()
      ensures Built(toks, o, more, to) && to <= pos
      ensures !ok ==> Faults() > old(Faults())
      ensures Onward(toks, parts, old(pos), Default(rest)) ==
              if Faults() == old(Faults()) then Onward(toks, more, pos, rest) else None
      ensures Guarded(toks, old(pos), pos, FIELD_STOPS)
    {
      hide *;
      GuardedNone(toks, pos, FIELD_STOPS);
      OnwardDefault(toks, parts, pos, rest);
      if Cur() != Equal {
        return true, parts, at;
      }
      OnwardTok(toks, parts, pos, Equal, One(Part(ValueRole, ValueNode), rest));
      ok, more, to := TakeValue(parts, o, at, rest);
    }

    /** "&"? name ["=" value]; false if the name or the value is missing. */
    method TakeNamed(parts: seq<Child>, ghost o: Open, ghost at: nat, ghost rest: Rule)
      returns (ok: bool, more: seq<Child>, ghost to: nat)
      requires Valid() && Built(toks, o, parts, at) && at <= pos
      modifies this
      ensures Valid() && old(pos) <= pos && old(Faults()) <= Faults()
      ensures Built(toks, o, more, to) && to <= pos
      ensures !ok ==> Faults() > old(Faults())
      ensures Onward(toks, parts, old(pos),
                     Opt(One(Mark(ReferenceRole, {Amp}), End), One(Part(NameRole, AnyName), Default(rest)))) ==
              if Faults() == old(Faults()) then Onward(toks, more, pos, rest) else None
      ensures Guarded(toks, old(pos), pos, FIELD_STOPS)
    {
      hide *;
      StopsAre();
      GuardedNone(toks, pos, FIELD_STOPS);
      if Cur() == Amp {
        GuardedToken(toks, pos, FIELD_STOPS);
      }
      OnwardOptMark(toks, parts, pos, ReferenceRole, {Amp}, One(Part(NameRole, AnyName), Default(rest)));
      more, to := TakeToken(Amp, ReferenceRole, parts, o, at);
      ghost var q: nat := pos;
      ok, more, to := TakeFieldName(more, o, to, Default(rest));
      GuardedThen(toks, old(pos), q, pos, FIELD_STOPS);
      if ok {
        q := pos;
        ok, more, to := TakeDefault(more, o, to, rest);
        GuardedThen(toks, old(pos), q, pos, FIELD_STOPS);
      }
    }

    /** What follows the annotations of a field: None when it is malformed. */
    method ParseFieldRest(o: Open, parts: seq<Child>, ghost at: nat) returns (n: Option<Node>)
      requires Valid() && Built(toks, o, parts, at) && at <= pos && o.p0 <= pos
      modifies this
      ensures Valid() && old(pos) <= pos && old(Faults()) <= Faults()
      ensures n.None? ==> Faults() > old(Faults())
      ensures n.Some? ==> pos > old(pos) && Spans(toks, n.value, o.p0, pos)
      ensures Follows(Onward(toks, parts, old(pos), Body(FieldForm)), Faults() == old(Faults()), FieldForm, o.first, n,
                      pos)
      ensures if n.Some? then Ended(toks, old(pos), pos, FIELD_STOPS) else Guarded(toks, old(pos), pos, FIELD_STOPS)
    {
      hide *;
      StopsAre();
      ghost var f, goal := Faults(), Onward(toks, parts, pos, Body(FieldForm));
      FieldRules();
      var more, to := TakeFieldHead(parts, o, at);
      ghost var q: nat := pos;
      var ok;
      ok, more, to := TakeFieldType(more, o, to, FieldRest());
      GuardedThen(toks, old(pos), q, pos, FIELD_STOPS);
      assert goal == if Faults() == f then Onward(toks, more, pos, FieldRest()) else None;
      if ok {
        q := pos;
        ok, more, to := TakeNamed(more, o, to, Annotated(Sep(End)));
        GuardedThen(toks, old(pos), q, pos, FIELD_STOPS);
      }
      assert goal == if Faults() == f then Onward(toks, more, pos, Annotated(Sep(End))) else None;
      if !ok {
        GuardedSkip(toks, pos, FIELD_STOPS, FIELD_STOPS);
        GuardedThen(toks, old(pos), pos, SkipTo(toks, pos, FIELD_STOPS), FIELD_STOPS);
        SynchronizeTo({Comma, Semicolon, RBrace, RParen});
        FollowsIs(goal, false, FieldForm, o.first, None, [], pos);
        return None;
      }
      q := pos;
      more, to := TakeTail(more, o, to);
      EndedThen(toks, old(pos), q, pos, FIELD_STOPS);
      n := Some(Finish(o, more, to, FieldForm));
      FollowsIs(goal, Faults() == f, FieldForm, o.first, n, more, pos);
    }

    /** [annotations] [id ":"] [required | optional] type ["&"] name ["=" value] [annotations] [separator] */
    method ParseField() returns (n: Option<Node>)
      requires Valid()
      modifies this
      ensures Valid() && old(pos) <= pos && old(Faults()) <= Faults()
      ensures n.None? ==> Faults() > old(Faults())
      ensures n.Some? ==> pos > old(pos) && Spans(toks, n.value, old(pos), pos)
      ensures Found(NodeAt(toks, old(pos), FieldNode), Faults() == old(Faults()), n, pos)
      ensures if n.Some? then Ended(toks, old(pos), pos, FIELD_STOPS) else Guarded(toks, old(pos), pos, FIELD_STOPS)
    {
      hide *;
      ghost var p, f := pos, Faults();
      FieldReads(toks, pos);
      ghost var goal := Onward(toks, [], p, Production(FieldForm));
      var o, parts, at := ParseStructuredAnnotations(Body(FieldForm));
      ghost var f1 := Faults();
      ghost var q: nat := pos;
      n := ParseFieldRest(o, parts, at);
      if n.Some? {
        EndedThen(toks, p, q, pos, FIELD_STOPS);
      } else {
        GuardedThen(toks, p, q, pos, FIELD_STOPS);
      }
      if n.Some? {
        SpansLater(toks, n.value, o.p0, pos, old(pos), pos);
        NameFirst(toks, n.value, old(pos), pos);
      }
      if f1 > f {
        FollowsNone(Faults() == f, FieldForm, o.first, n, pos);
      }
      FollowsFound(toks, p, FieldNode, FieldForm, goal, Faults() == f, o.first, n, pos);
    }

    /** Fields up to the terminator; malformed ones are skipped. */
    method TakeFields(term: Kind, parts: seq<Child>, ghost o: Open, ghost at: nat, ghost rest: Rule)
      returns (more: seq<Child>, ghost to: nat)
      requires Valid() && Built(toks, o, parts, at) && at <= pos && (term == RBrace || term == RParen)
      modifies this
      ensures Valid() && old(pos) <= pos && old(Faults()) <= Faults()
      ensures Built(toks, o, more, to) && to <= pos
      ensures Cur() == term || Cur() == EOF
      ensures Onward(toks, parts, old(pos), Each(FieldNode, Tok(term, rest))) ==
              if Faults() == old(Faults()) then Onward(toks, more, pos, Tok(term, rest)) else None
      ensures parts <= more && Recovers(toks, old(pos), pos, more, FieldNode, term)
    {
      hide *;
      more, to := parts, at;
      PendingStart(toks, pos, parts, FieldNode, term);
      NoSeparators();
      StopsAre();
      ghost var stops := {Comma, Semicolon, term};
      ghost var from: nat, f, items := pos, Faults(), Each(FieldNode, Tok(term, rest));
      ghost var goal := Onward(toks, parts, pos, items);
      while Cur() != term && Cur() != EOF
        invariant Valid() && old(pos) <= pos && f <= Faults()
        invariant Built(toks, o, more, to) && to <= pos
        invariant goal == if Faults() == f then Onward(toks, more, pos, items) else None
        invariant parts <= more && Pending(toks, old(pos), pos, more, FieldNode, term)
        decreases Left(), if Cur() == term || Cur() == EOF then 0 else 1
      {
        from := pos;
        OnwardEntries(toks, more, pos, FieldNode, term, rest);
        NoNode(toks, pos, FieldNode);
        var n := ParseField();
        FoundParts(NodeAt(toks, from, FieldNode), n, pos);
        if n.None? {
          GuardedLess(toks, from, pos, FIELD_STOPS, stops);
          RecoverBehind(toks, from, pos, term);
          RecoverEntry(term);
          PendingTurn(toks, old(pos), from, pos, more, more, FieldNode, term);
          continue;
        }
        EntryEndIs(toks, from, FieldNode);
        EndedLess(toks, from, pos, FIELD_STOPS, stops);
        TurnIs(toks, from, pos, term);
        PendingTurn(toks, old(pos), from, pos, more, more + [Child(EntryRole, n.value)], FieldNode, term);
        BuiltMore(toks, o, more, to, from, EntryRole, n.value, pos);
        more, to := more + [Child(EntryRole, n.value)], pos;
      }
      MemberStarts(Cur());
      NoNode(toks, pos, FieldNode);
      PendingEnd(toks, old(pos), pos, more, FieldNode, term);
      OnwardEntries(toks, more, pos, FieldNode, term, rest);
      OnwardTok(toks, more, pos, term, rest);
    }

    // ----- headers -----

    /** include path */
    method ParseInclude(o: Open, parts: seq<Child>, ghost at: nat) returns (n: Option<Node>)
      requires Valid() && Built(toks, o, parts, at) && at <= pos && o.p0 <= pos && Cur() == Include
      modifies this
      ensures Valid() && old(pos) < pos && old(Faults()) <= Faults()
      ensures n.None? ==> Faults() > old(Faults()) && pos == BehindPath(toks, old(pos))
      ensures n.Some? <==> KindAt(toks, Past(toks, old(pos))) == StringLiteral
      ensures n.Some? ==> Spans(toks, n.value, o.p0, pos) && n.value.first == o.first && n.value.last == pos - 1
      ensures Follows(Onward(toks, parts, old(pos), Body(IncludeForm)), Faults() == old(Faults()), IncludeForm, o.first,
                      n, pos)
    {
      hide *;
      ghost var f, goal := Faults(), Onward(toks, parts, pos, Body(IncludeForm));
      ghost var path := One(Mark(PathRole, {StringLiteral}), End);
      var _ := Advance();
      assert goal == Onward(toks, parts, pos, path) by {
        HeaderRules();
        OnwardTok(toks, parts, old(pos), Include, path);
      }
      OnwardMark(toks, parts, pos, PathRole, {StringLiteral}, End);
      BehindPathIs(toks, old(pos));
      if Cur() != StringLiteral {
        ErrorHere();
        if Cur() != EOF {
          var _ := Advance();
        }
        FollowsIs(goal, false, IncludeForm, o.first, None, [], pos);
        return None;
      }
      var more, to := TakeToken(StringLiteral, PathRole, parts, o, at);
      OnwardEnd(toks, more, pos);
      n := Some(Finish(o, more, to, IncludeForm));
      FollowsIs(goal, Faults() == f, IncludeForm, o.first, n, more, pos);
    }

    /** cpp_include path */
    method ParseCPPInclude(o: Open, parts: seq<Child>, ghost at: nat) returns (n: Option<Node>)
      requires Valid() && Built(toks, o, parts, at) && at <= pos && o.p0 <= pos && Cur() == CPPInclude
      modifies this
      ensures Valid() && old(pos) < pos && old(Faults()) <= Faults()
      ensures n.None? ==> Faults() > old(Faults()) && pos == BehindPath(toks, old(pos))
      ensures n.Some? <==> KindAt(toks, Past(toks, old(pos))) == StringLiteral
      ensures n.Some? ==> Spans(toks, n.value, o.p0, pos) && n.value.first == o.first && n.value.last == pos - 1
      ensures Follows(Onward(toks, parts, old(pos), Body(CPPIncludeForm)), Faults() == old(Faults()), CPPIncludeForm,
                      o.first, n, pos)
    {
      hide *;
      ghost var f, goal := Faults(), Onward(toks, parts, pos, Body(CPPIncludeForm));
      ghost var path := One(Mark(PathRole, {StringLiteral}), End);
      var _ := Advance();
      assert goal == Onward(toks, parts, pos, path) by {
        HeaderRules();
        OnwardTok(toks, parts, old(pos), CPPInclude, path);
      }
      OnwardMark(toks, parts, pos, PathRole, {StringLiteral}, End);
      BehindPathIs(toks, old(pos));
      if Cur() != StringLiteral {
        ErrorHere();
        if Cur() != EOF {
          var _ := Advance();
        }
        FollowsIs(goal, false, CPPIncludeForm, o.first, None, [], pos);
        return None;
      }
      var more, to := TakeToken(StringLiteral, PathRole, parts, o, at);
      OnwardEnd(toks, more, pos);
      n := Some(Finish(o, more, to, CPPIncludeForm));
      FollowsIs(goal, Faults() == f, CPPIncludeForm, o.first, n, more, pos);
    }

    /** namespace (name | *) name [annotations] */
    method ParseNamespace(o: Open, parts: seq<Child>, ghost at: nat) returns (n: Option<Node>)
      requires Valid() && Built(toks, o, parts, at) && at <= pos && o.p0 <= pos && Cur() == Namespace
      modifies this
      ensures Valid() && old(pos) < pos && old(Faults()) <= Faults()
      ensures n.None? ==> Faults() > old(Faults()) && Cur() == EOF
      ensures n.Some? ==> Spans(toks, n.value, o.p0, pos) && n.value.first == o.first && n.value.last == pos - 1
      ensures Follows(Onward(toks, parts, old(pos), Body(NamespaceForm)), Faults() == old(Faults()), NamespaceForm,
                      o.first, n, pos)
    {
      hide *;
      ghost var f, goal := Faults(), Onward(toks, parts, pos, Body(NamespaceForm));
      ghost var name := One(Part(NameRole, PlainName), Annotated(End));
      var _ := Advance();
      assert goal == Onward(toks, parts, pos, One(Mark(ScopeRole, {Identifier, Star}), name)) by {
        HeaderRules();
        OnwardTok(toks, parts, old(pos), Namespace, One(Mark(ScopeRole, {Identifier, Star}), name));
      }
      OnwardMark(toks, parts, pos, ScopeRole, {Identifier, Star}, name);
      if Cur() != Identifier && Cur() != Star {
        ErrorHere();
        SynchronizeTo({EOF});
        FollowsIs(goal, false, NamespaceForm, o.first, None, [], pos);
        return None;
      }
      ghost var from: nat := pos;
      var scope := Advance();
      BuiltMore(toks, o, parts, at, from, ScopeRole, Leaf(scope), pos);
      assert goal == Onward(toks, parts + [Child(ScopeRole, Leaf(scope))], pos, name);
      var ok, more, to := TakeName(NameRole, parts + [Child(ScopeRole, Leaf(scope))], o, pos, Annotated(End));
      assert goal == if Faults() == f then Onward(toks, more, pos, Annotated(End)) else None;
      if !ok {
        SynchronizeTo({EOF});
        FollowsIs(goal, false, NamespaceForm, o.first, None, [], pos);
        return None;
      }
      more, to := TakeAnnotations(more, o, to, End);
      OnwardEnd(toks, more, pos);
      n := Some(Finish(o, more, to, NamespaceForm));
      FollowsIs(goal, Faults() == f, NamespaceForm, o.first, n, more, pos);
    }

    // ----- definitions -----

    /** A keyword, a type and a name. */
    method TakeTyped(k: Kind, parts: seq<Child>, ghost o: Open, ghost at: nat, ghost rest: Rule)
      returns (ok: bool, more: seq<Child>, ghost to: nat)
      requires Valid() && Built(toks, o, parts, at) && at <= pos && Cur() == k && k != EOF
      modifies this
      ensures Valid() && old(pos) < pos && old(Faults()) <= Faults()
      ensures Built(toks, o, more, to) && to <= pos
      ensures !ok ==> Faults() > old(Faults())
      ensures Onward(toks, parts, old(pos),
                     Tok(k, One(Part(TypeRole, TypeNode), One(Part(NameRole, PlainName), rest)))) ==
              if Faults() == old(Faults()) then Onward(toks, more, pos, rest) else None
    {
      hide *;
      ghost var name := One(Part(NameRole, PlainName), rest);
      OnwardTok(toks, parts, pos, k, One(Part(TypeRole, TypeNode), name));
      var _ := Advance();
      ok, more, to := TakeFieldType(parts, o, at, name);
      if ok {
        ok, more, to := TakeName(NameRole, more, o, to, rest);
      }
    }

    /** const type name = value [separator] */
    method ParseConst(o: Open, parts: seq<Child>, ghost at: nat) returns (n: Option<Node>)
      requires Valid() && Built(toks, o, parts, at) && at <= pos && o.p0 <= pos && Cur() == Const
      modifies this
      ensures Valid() && old(pos) < pos && old(Faults()) <= Faults()
      ensures n.None? ==> Faults() > old(Faults()) && Cur() == EOF
      ensures n.Some? ==> Spans(toks, n.value, o.p0, pos) && n.value.first == o.first && n.value.last == pos - 1
      ensures Follows(Onward(toks, parts, old(pos), Body(ConstForm)), Faults() == old(Faults()), ConstForm, o.first, n,
                      pos)
    {
      hide *;
      ghost var f, goal := Faults(), Onward(toks, parts, pos, Body(ConstForm));
      ghost var value := One(Part(ValueRole, ValueNode), Sep(End));
      ConstRule();
      var ok, more, to := TakeTyped(Const, parts, o, at, Tok(Equal, value));
      assert goal == if Faults() == f then Onward(toks, more, pos, Tok(Equal, value)) else None;
      if ok {
        ok, more, to := TakeValue(more, o, to, Sep(End));
      }
      assert goal == if Faults() == f then Onward(toks, more, pos, Sep(End)) else None;
      if !ok {
        SynchronizeTo({EOF});
        FollowsIs(goal, false, ConstForm, o.first, None, [], pos);
        return None;
      }
      more, to := TakeSeparator(more, o, to, End);
      OnwardEnd(toks, more, pos);
      n := Some(Finish(o, more, to, ConstForm));
      FollowsIs(goal, Faults() == f, ConstForm, o.first, n, more, pos);
    }

    /** typedef type name [annotations] [separator] */
    method ParseTypedef(o: Open, parts: seq<Child>, ghost at: nat) returns (n: Option<Node>)
      requires Valid() && Built(toks, o, parts, at) && at <= pos && o.p0 <= pos && Cur() == Typedef
      modifies this
      ensures Valid() && old(pos) < pos && old(Faults()) <= Faults()
      ensures n.None? ==> Faults() > old(Faults()) && Cur() == EOF
      ensures n.Some? ==> Spans(toks, n.value, o.p0, pos) && n.value.first == o.first && n.value.last == pos - 1
      ensures Follows(Onward(toks, parts, old(pos), Body(TypedefForm)), Faults() == old(Faults()), TypedefForm, o.first,
                      n, pos)
    {
      hide *;
      ghost var f, goal := Faults(), Onward(toks, parts, pos, Body(TypedefForm));
      TypedefRule();
      var ok, more, to := TakeTyped(Typedef, parts, o, at, Annotated(Sep(End)));
      assert goal == if Faults() == f then Onward(toks, more, pos, Annotated(Sep(End))) else None;
      if !ok {
        SynchronizeTo({EOF});
        FollowsIs(goal, false, TypedefForm, o.first, None, [], pos);
        return None;
      }
      more, to := TakeTail(more, o, to);
      n := Some(Finish(o, more, to, TypedefForm));
      FollowsIs(goal, Faults() == f, TypedefForm, o.first, n, more, pos);
    }

    /** name ["=" int] [annotations] [separator] */
    method ParseEnumValue() returns (n: Option<Node>)
      requires Valid()
      modifies this
      ensures Valid() && old(pos) <= pos && old(Faults()) <= Faults()
      ensures n.None? ==> Faults() > old(Faults())
      ensures n.Some? ==> pos > old(pos) && Spans(toks, n.value, old(pos), pos)
      ensures Found(NodeAt(toks, old(pos), EnumValueNode), Faults() == old(Faults()), n, pos)
      ensures (n.Some? <==> old(Cur()) == Identifier) && (n.None? ==> pos == old(pos))
    {
      hide *;
      ghost var p, f, tail := pos, Faults(), Annotated(Sep(End));
      EntryStarts(Cur());
      EnumValueRule();
      NoNode(toks, pos, EnumValueNode);
      OnwardName(toks, [], pos, NameRole, Opt(Tok(Equal, One(Mark(ValueRole, {IntConstant}), End)), tail));
      var o := Begin();
      var name := ExpectIdentifier();
      if name.None? {
        FoundNot(NodeAt(toks, p, EnumValueNode), pos);
        return None;
      }
      BuiltMore(toks, o, [], o.p0, o.p0, NameRole, name.value, pos);
      var _, parts, at := TakeEqual(IntConstant, [] + [Child(NameRole, name.value)], o, pos, tail);
      parts, at := TakeTail(parts, o, at);
      n := Some(Finish(o, parts, at, EnumValueForm));
      Closes(toks, p, EnumValueNode, EnumValueForm, Faults() == f, parts, pos);
    }

    /** Enum values up to "}"; after a malformed one the rest is skipped. */
    method TakeEnumValues(parts: seq<Child>, ghost o: Open, ghost at: nat, ghost rest: Rule)
      returns (more: seq<Child>, ghost to: nat)
      requires Valid() && Built(toks, o, parts, at) && at <= pos
      modifies this
      ensures Valid() && old(pos) <= pos && old(Faults()) <= Faults()
      ensures Built(toks, o, more, to) && to <= pos
      ensures Onward(toks, parts, old(pos), Each(EnumValueNode, Tok(RBrace, rest))) ==
              if Faults() == old(Faults()) then Onward(toks, more, pos, Tok(RBrace, rest)) else None
      ensures parts <= more && DropsRest(toks, old(pos), pos, parts, more)
    {
      hide *;
      more, to := parts, at;
      ghost var whole, fine := EntriesRead(toks, pos, EnumValueNode, RBrace), true;
      ReadsOnStart(toks, pos, parts);
      ghost var from: nat, f, items := pos, Faults(), Each(EnumValueNode, Tok(RBrace, rest));
      ghost var goal := Onward(toks, parts, pos, items);
      while Cur() != RBrace && Cur() != EOF
        invariant Valid() && old(pos) <= pos && f <= Faults()
        invariant Built(toks, o, more, to) && to <= pos
        invariant goal == if Faults() == f then Onward(toks, more, pos, items) else None
        invariant parts <= more
        invariant fine ==> ReadsOn(toks, pos, whole, parts, more)
        invariant !fine ==> Stopped(toks, pos, whole, parts, more)
        decreases Left(), if Cur() == RBrace || Cur() == EOF then 0 else 1
      {
        from := pos;
        EntriesStep(toks, pos, EnumValueNode, RBrace, more);
        OnwardEntries(toks, more, pos, EnumValueNode, RBrace, rest);
        NoNode(toks, pos, EnumValueNode);
        var v := ParseEnumValue();
        FoundParts(NodeAt(toks, from, EnumValueNode), v, pos);
        if v.None? {
          SynchronizeTo({RBrace});
          StopsNoName(toks, from, pos, whole, parts, more, fine);
          fine := false;
          continue;
        }
        ValueAdded(toks, from, pos, whole, parts, more, v.value, fine);
        fine := fine && NodeAt(toks, from, EnumValueNode).Some?;
        BuiltMore(toks, o, more, to, from, EntryRole, v.value, pos);
        more, to := more + [Child(EntryRole, v.value)], pos;
      }
      EntryStarts(Cur());
      NoNode(toks, pos, EnumValueNode);
      EntriesEnd(toks, old(pos), pos, whole, parts, more, fine);
      OnwardEntries(toks, more, pos, EnumValueNode, RBrace, rest);
      OnwardTok(toks, more, pos, RBrace, rest);
    }

    /** "{" values "}" and annotations, after parts. */
    method TakeEnumBody(parts: seq<Child>, ghost o: Open, ghost at: nat) returns (more: seq<Child>, ghost to: nat)
      requires Valid() && Built(toks, o, parts, at) && at <= pos
      modifies this
      ensures Valid() && old(pos) <= pos && old(Faults()) <= Faults()
      ensures Built(toks, o, more, to) && to <= pos
      ensures Onward(toks, parts, old(pos), Tok(LBrace, Each(EnumValueNode, Tok(RBrace, Annotated(End))))) ==
              if Faults() == old(Faults()) then Some(Parts(more, pos)) else None
      ensures parts <= more && (old(Cur()) == LBrace ==> ValuesKept(toks, Past(toks, old(pos)), more))
    {
      hide *;
      ghost var braced, b: nat, end: nat := Cur() == LBrace, Past(toks, pos), pos;
      more, to := parts, at;
      OnwardTok(toks, parts, pos, LBrace, Each(EnumValueNode, Tok(RBrace, Annotated(End))));
      var brace := Accept(LBrace);
      if brace.Some? {
        more, to := TakeEnumValues(more, o, to, Annotated(End));
        end := pos;
        OnwardTok(toks, more, pos, RBrace, Annotated(End));
        var _ := Expect(RBrace);
      } else {
        ErrorHere();
      }
      ghost var mid := more;
      more, to := TakeAnnotations(more, o, to, End);
      if braced {
        ValuesKeptMore(toks, b, end, parts, mid, more);
      }
      OnwardEnd(toks, more, pos);
    }

    /** A keyword and a name; without the name all that follows is skipped. */
    method TakeHead(k: Kind, parts: seq<Child>, ghost o: Open, ghost at: nat, ghost rest: Rule)
      returns (ok: bool, more: seq<Child>, ghost to: nat)
      requires Valid() && Built(toks, o, parts, at) && at <= pos && Cur() == k && k != EOF
      modifies this
      ensures Valid() && old(pos) < pos && old(Faults()) <= Faults()
      ensures Built(toks, o, more, to) && to <= pos && parts <= more
      ensures if ok then pos == Past(toks, Past(toks, old(pos))) else Faults() > old(Faults()) && Cur() == EOF
      ensures ok <==> KindAt(toks, Past(toks, old(pos))) == Identifier
      ensures Onward(toks, parts, old(pos), Tok(k, One(Part(NameRole, PlainName), rest))) ==
              if Faults() == old(Faults()) then Onward(toks, more, pos, rest) else None
    {
      hide *;
      OnwardTok(toks, parts, pos, k, One(Part(NameRole, PlainName), rest));
      var _ := Advance();
      ok, more, to := TakeName(NameRole, parts, o, at, rest);
      if !ok {
        SynchronizeTo({EOF});
      }
    }

    /** enum name { values } [annotations] */
    method ParseEnum(o: Open, parts: seq<Child>, ghost at: nat) returns (n: Option<Node>)
      requires Valid() && Built(toks, o, parts, at) && at <= pos && o.p0 <= pos && Cur() == Enum
      modifies this
      ensures Valid() && old(pos) < pos && old(Faults()) <= Faults()
      ensures n.None? ==> Faults() > old(Faults()) && Cur() == EOF
      ensures n.Some? ==> Spans(toks, n.value, o.p0, pos) && n.value.first == o.first && n.value.last == pos - 1
      ensures Follows(Onward(toks, parts, old(pos), Body(EnumForm)), Faults() == old(Faults()), EnumForm, o.first, n,
                      pos)
      ensures Headed(toks, old(pos)) ==> n.Some? && ValuesKept(toks, BodyAt(toks, old(pos)), n.value.parts)
    {
      hide *;
      HeadedIs(toks, pos);
      ghost var f, goal := Faults(), Onward(toks, parts, pos, Body(EnumForm));
      ghost var items := Each(EnumValueNode, Tok(RBrace, Annotated(End)));
      BracedRules();
      var ok, more, to := TakeHead(Enum, parts, o, at, Tok(LBrace, items));
      if !ok {
        FollowsIs(goal, false, EnumForm, o.first, None, [], pos);
        return None;
      }
      more, to := TakeEnumBody(more, o, to);
      n := Some(Finish(o, more, to, EnumForm));
      FollowsIs(goal, Faults() == f, EnumForm, o.first, n, more, pos);
    }

    /** "{" fields "}" and annotations, after parts. */
    method TakeStructBody(parts: seq<Child>, ghost o: Open, ghost at: nat) returns (more: seq<Child>, ghost to: nat)
      requires Valid() && Built(toks, o, parts, at) && at <= pos
      modifies this
      ensures Valid() && old(pos) <= pos && old(Faults()) <= Faults()
      ensures Built(toks, o, more, to) && to <= pos
      ensures Onward(toks, parts, old(pos), Tok(LBrace, Each(FieldNode, Tok(RBrace, Annotated(End))))) ==
              if Faults() == old(Faults()) then Some(Parts(more, pos)) else None
      ensures parts <= more && (old(Cur()) == LBrace ==> BodyRecovers(toks, Past(toks, old(pos)), pos, more))
    {
      hide *;
      ghost var braced, b: nat := Cur() == LBrace, Past(toks, pos);
      more, to := parts, at;
      OnwardTok(toks, parts, pos, LBrace, Each(FieldNode, Tok(RBrace, Annotated(End))));
      var brace := Accept(LBrace);
      if brace.Some? {
        more, to := TakeFields(RBrace, more, o, to, Annotated(End));
        OnwardTok(toks, more, pos, RBrace, Annotated(End));
        ghost var q: nat := pos;
        var _ := Expect(RBrace);
        Through(toks, b, q, pos, more, FieldNode, RBrace);
      } else {
        ErrorHere();
      }
      ghost var before, q: nat := more, pos;
      more, to := TakeAnnotations(more, o, to, End);
      if braced {
        BodyThrough(toks, b, q, pos, before, more);
      }
      OnwardEnd(toks, more, pos);
    }

    /** (struct | union | exception) name { fields } [annotations] */
    method ParseStruct(o: Open, parts: seq<Child>, ghost at: nat) returns (n: Option<Node>)
      requires Valid() && Built(toks, o, parts, at) && at <= pos && o.p0 <= pos
      requires Cur() == Struct || Cur() == Union || Cur() == Exception
      modifies this
      ensures Valid() && old(pos) < pos && old(Faults()) <= Faults()
      ensures n.None? ==> Faults() > old(Faults()) && Cur() == EOF
      ensures n.Some? ==> Spans(toks, n.value, o.p0, pos) && n.value.first == o.first && n.value.last == pos - 1
      ensures var form := StructForm(old(Cur()));
              Follows(Onward(toks, parts, old(pos), Body(form)), Faults() == old(Faults()), form, o.first, n, pos)
      ensures Headed(toks, old(pos)) ==>
                n.Some? && n.value.form == StructForm(old(Cur()))
                && BodyRecovers(toks, BodyAt(toks, old(pos)), pos, n.value.parts)
    {
      hide *;
      ghost var p: nat := pos;
      HeadedIs(toks, p);
      var k := Cur();
      ghost var f, goal := Faults(), Onward(toks, parts, pos, Body(StructForm(k)));
      ghost var items := Each(FieldNode, Tok(RBrace, Annotated(End)));
      StructRule(k);
      var ok, more, to := TakeHead(k, parts, o, at, Tok(LBrace, items));
      assert goal == if Faults() == f then Onward(toks, more, pos, Tok(LBrace, items)) else None;
      if !ok {
        FollowsIs(goal, false, StructForm(k), o.first, None, [], pos);
        return None;
      }
      more, to := TakeStructBody(more, o, to);
      n := Some(Finish(o, more, to, StructForm(k)));
      FollowsIs(goal, Faults() == f, StructForm(k), o.first, n, more, pos);
    }

    /** [oneway | async] (void | type) name, after parts. */
    method TakeSignature(parts: seq<Child>, ghost o: Open, ghost at: nat)
      returns (ok: bool, more: seq<Child>, ghost to: nat)
      requires Valid() && Built(toks, o, parts, at) && at <= pos
      modifies this
      ensures Valid() && old(pos) <= pos && old(Faults()) <= Faults()
      ensures Built(toks, o, more, to) && to <= pos
      ensures if ok then pos > old(pos) else Faults() > old(Faults())
      ensures StartsNone(old(Cur())) ==> !ok && pos == old(pos)
      ensures Onward(toks, parts, old(pos), Body(FunctionForm)) ==
              if Faults() == old(Faults()) then Onward(toks, more, pos, FunctionTail()) else None
    {
      hide *;
      more, to := parts, at;
      FunctionRules();
      StartsNoneIs(Cur());
      OnwardOptMark(toks, parts, pos, OnewayRole, {Oneway, Async}, Returned());
      if Cur() == Oneway {
        more, to := TakeToken(Oneway, OnewayRole, more, o, to);
      } else if Cur() == Async {
        more, to := TakeToken(Async, OnewayRole, more, o, to);
        WarnAt(pos - 1);
      }
      OnwardReturned(toks, more, pos);
      if Cur() == Void {
        more, to := TakeToken(Void, VoidRole, more, o, to);
        ok := true;
      } else {
        ok, more, to := TakeFieldType(more, o, to, FunctionRest());
      }
      if ok {
        ok, more, to := TakeName(NameRole, more, o, to, FunctionTail());
      }
    }

    /** An optional throws clause; false if its "(" is missing. */
    method TakeThrows(parts: seq<Child>, ghost o: Open, ghost at: nat, ghost rest: Rule)
      returns (ok: bool, more: seq<Child>, ghost to: nat)
      requires Valid() && Built(toks, o, parts, at) && at <= pos
      modifies this
      ensures Valid() && old(pos) <= pos && old(Faults()) <= Faults()
      ensures Built(toks, o, more, to) && to <= pos
      ensures !ok ==> Faults() > old(Faults())
      ensures Onward(toks, parts, old(pos), ThrowsClause(rest)) ==
              if Faults() == old(Faults()) then Onward(toks, more, pos, rest) else None
      ensures parts <= more
    {
      hide *;
      OnwardThrows(toks, parts, pos, rest);
      if Cur() != Throws {
        return true, parts, at;
      }
      var _ := Advance();
      ghost var from: nat := pos;
      var throws := ParseThrows();
      FoundParts(NodeAt(toks, from, ThrowsNode), throws, pos);
      if throws.None? {
        return false, parts, at;
      }
      BuiltMore(toks, o, parts, at, from, ThrowsRole, throws.value, pos);
      return true, parts + [Child(ThrowsRole, throws.value)], pos;
    }

    /** "(" fields ")" of a throws clause. */
    method ParseThrows() returns (n: Option<Node>)
      requires Valid()
      modifies this
      ensures Valid() && old(pos) <= pos && old(Faults()) <= Faults()
      ensures n.None? ==> Faults() > old(Faults())
      ensures n.Some? ==> pos > old(pos) && Spans(toks, n.value, old(pos), pos)
      ensures Found(NodeAt(toks, old(pos), ThrowsNode), Faults() == old(Faults()), n, pos)
      ensures n.Some? ==> RecoversThrough(toks, Past(toks, old(pos)), pos, n.value.parts, FieldNode, RParen)
    {
      hide *;
      ghost var p, f := pos, Faults();
      ThrowsRule(Cur());
      OnwardTok(toks, [], pos, LParen, Each(FieldNode, Tok(RParen, End)));
      var inner := Begin();
      var ok := Expect(LParen);
      if !ok {
        NoNode(toks, p, ThrowsNode);
        FoundNot(NodeAt(toks, p, ThrowsNode), pos);
        return None;
      }
      var fields, at := TakeFields(RParen, [], inner, inner.p0, End);
      OnwardTok(toks, fields, pos, RParen, End);
      ghost var q: nat := pos;
      var _ := Expect(RParen);
      Through(toks, Past(toks, p), q, pos, fields, FieldNode, RParen);
      OnwardEnd(toks, fields, pos);
      n := Some(Finish(inner, fields, at, ThrowsForm));
      Closes(toks, p, ThrowsNode, ThrowsForm, Faults() == f, fields, pos);
    }

    /** "(" fields ")" and an optional throws clause, after parts; false if one of its "(" is missing. */
    method TakeParameters(parts: seq<Child>, ghost o: Open, ghost at: nat)
      returns (ok: bool, more: seq<Child>, ghost to: nat)
      requires Valid() && Built(toks, o, parts, at) && at <= pos
      modifies this
      ensures Valid() && old(pos) <= pos && old(Faults()) <= Faults()
      ensures Built(toks, o, more, to) && to <= pos
      ensures if ok then pos > old(pos) else Faults() > old(Faults())
      ensures Onward(toks, parts, old(pos), FunctionTail()) ==
              if Faults() == old(Faults()) then Onward(toks, more, pos, Annotated(Sep(End))) else None
      ensures old(Cur()) == LParen ==>
                parts <= more && exists q :: RecoversThrough(toks, Past(toks, old(pos)), q, more, FieldNode, RParen)
    {
      hide *;
      ghost var tail := Annotated(Sep(End));
      FunctionTailIs();
      OnwardTok(toks, parts, pos, LParen, Each(FieldNode, Tok(RParen, ThrowsClause(tail))));
      ok := Expect(LParen);
      if !ok {
        return false, parts, at;
      }
      more, to := TakeFields(RParen, parts, o, at, ThrowsClause(tail));
      OnwardTok(toks, more, pos, RParen, ThrowsClause(tail));
      ghost var q: nat := pos;
      var _ := Expect(RParen);
      Through(toks, Past(toks, old(pos)), q, pos, more, FieldNode, RParen);
      ghost var before, behind: nat := more, pos;
      ok, more, to := TakeThrows(more, o, to, tail);
      RecoversMore(toks, Past(toks, old(pos)), behind, before, more, FieldNode, RParen);
    }

    /** What follows the annotations of a function: None when it is malformed. */
    method ParseFunctionRest(o: Open, before: seq<Child>, ghost from: nat) returns (n: Option<Node>)
      requires Valid() && Built(toks, o, before, from) && from <= pos && o.p0 <= pos
      modifies this
      ensures Valid() && old(pos) <= pos && old(Faults()) <= Faults()
      ensures n.None? ==> Faults() > old(Faults())
      ensures n.Some? ==> pos > old(pos) && Spans(toks, n.value, o.p0, pos)
      ensures Follows(Onward(toks, before, old(pos), Body(FunctionForm)), Faults() == old(Faults()), FunctionForm,
                      o.first, n, pos)
      ensures StartsNone(old(Cur())) ==> n.None? && pos == SkipTo(toks, old(pos), {LParen, EOF})
    {
      hide *;
      ghost var f, goal := Faults(), Onward(toks, before, pos, Body(FunctionForm));
      var ok, parts, at := TakeSignature(before, o, from);
      if !ok {
        SynchronizeTo({LParen, EOF});
        FollowsIs(goal, false, FunctionForm, o.first, None, [], pos);
        return None;
      }
      ok, parts, at := TakeParameters(parts, o, at);
      if !ok {
        SynchronizeTo({EOF});
        FollowsIs(goal, false, FunctionForm, o.first, None, [], pos);
        return None;
      }
      parts, at := TakeTail(parts, o, at);
      n := Some(Finish(o, parts, at, FunctionForm));
      FollowsIs(goal, Faults() == f, FunctionForm, o.first, n, parts, pos);
    }

    /** [annotations] signature "(" fields ")" [throws] [annotations] [separator] */
    method ParseFunction() returns (n: Option<Node>)
      requires Valid()
      modifies this
      ensures Valid() && old(pos) <= pos && old(Faults()) <= Faults()
      ensures n.None? ==> Faults() > old(Faults())
      ensures n.Some? ==> pos > old(pos) && Spans(toks, n.value, old(pos), pos)
      ensures Found(NodeAt(toks, old(pos), FunctionNode), Faults() == old(Faults()), n, pos)
      ensures Choose(FunctionNode, old(Cur())).None? ==> n.None? && pos == SkipTo(toks, old(pos), {LParen, EOF})
    {
      hide *;
      NoFunctionStarts(Cur());
      ghost var p, f := pos, Faults();
      FunctionReads(toks, pos);
      ghost var goal := Onward(toks, [], p, Production(FunctionForm));
      var o, parts, at := ParseStructuredAnnotations(Body(FunctionForm));
      ghost var f1 := Faults();
      n := ParseFunctionRest(o, parts, at);
      if n.Some? {
        SpansLater(toks, n.value, o.p0, pos, old(pos), pos);
        NameFirst(toks, n.value, old(pos), pos);
      }
      if f1 > f {
        FollowsNone(Faults() == f, FunctionForm, o.first, n, pos);
      }
      FollowsFound(toks, p, FunctionNode, FunctionForm, goal, Faults() == f, o.first, n, pos);
    }

    /** Skips to behind the next ")", or to the end of the service. */
    method SkipParameters()
      requires Valid()
      modifies this`pos
      ensures Valid() && old(pos) <= pos && Faults() == old(Faults())
      ensures pos > old(pos) || Cur() == RBrace || Cur() == EOF
      ensures pos == BehindParameters(toks, old(pos))
    {
      hide Built, Spans, SkipTo, KindAt, Past, NextReal, FirstEof, HasEof, ErrorCount, Index, IsComment;
      SynchronizeTo({RParen, RBrace});
      if Cur() == RParen {
        var _ := Advance();
      }
    }

    /** Functions up to "}"; of a malformed one the parameter list is skipped too. */
    method TakeFunctions(parts: seq<Child>, ghost o: Open, ghost at: nat, ghost rest: Rule)
      returns (more: seq<Child>, ghost to: nat)
      requires Valid() && Built(toks, o, parts, at) && at <= pos
      modifies this
      ensures Valid() && old(pos) <= pos && old(Faults()) <= Faults()
      ensures Built(toks, o, more, to) && to <= pos
      ensures Onward(toks, parts, old(pos), Each(FunctionNode, Tok(RBrace, rest))) ==
              if Faults() == old(Faults()) then Onward(toks, more, pos, Tok(RBrace, rest)) else None
      ensures parts <= more && FunctionsRecover(toks, old(pos), pos, more)
    {
      hide *;
      more, to := parts, at;
      FunctionsStart(toks, pos, parts);
      ghost var from: nat, f, items := pos, Faults(), Each(FunctionNode, Tok(RBrace, rest));
      ghost var goal := Onward(toks, parts, pos, items);
      while Cur() != RBrace && Cur() != EOF
        invariant Valid() && old(pos) <= pos && f <= Faults()
        invariant Built(toks, o, more, to) && to <= pos
        invariant goal == if Faults() == f then Onward(toks, more, pos, items) else None
        invariant parts <= more && FunctionsPending(toks, old(pos), pos, more)
        decreases Left(), if Cur() == RBrace || Cur() == EOF then 0 else 1
      {
        from := pos;
        OnwardEntries(toks, more, pos, FunctionNode, RBrace, rest);
        NoNode(toks, pos, FunctionNode);
        var n := ParseFunction();
        FoundParts(NodeAt(toks, from, FunctionNode), n, pos);
        if n.None? {
          BehindFunctionIs(toks, from);
          SkipParameters();
          FunctionsTurn(toks, old(pos), from, pos, more, more);
          continue;
        }
        FunctionsTurn(toks, old(pos), from, pos, more, more + [Child(EntryRole, n.value)]);
        BuiltMore(toks, o, more, to, from, EntryRole, n.value, pos);
        more, to := more + [Child(EntryRole, n.value)], pos;
      }
      MemberStarts(Cur());
      FunctionsEnd(toks, old(pos), pos, more);
      OnwardEntries(toks, more, pos, FunctionNode, RBrace, rest);
      OnwardTok(toks, more, pos, RBrace, rest);
    }

    /** An optional base service; false if it is missing and no "{" follows. */
    method TakeExtends(parts: seq<Child>, ghost o: Open, ghost at: nat, ghost rest: Rule)
      returns (ok: bool, more: seq<Child>, ghost to: nat)
      requires Valid() && Built(toks, o, parts, at) && at <= pos
      modifies this
      ensures Valid() && old(pos) <= pos && old(Faults()) <= Faults()
      ensures Built(toks, o, more, to) && to <= pos
      ensures !ok ==> Faults() > old(Faults()) && Cur() == EOF
      ensures old(Cur()) != Extends ==> ok && pos == old(pos) && more == parts
      ensures Onward(toks, parts, old(pos), BaseService(rest)) ==
              if Faults() == old(Faults()) then Onward(toks, more, pos, rest) else None
    {
      hide *;
      more, to, ok := parts, at, true;
      OnwardBase(toks, parts, pos, rest);
      if Cur() == Extends {
        var _ := Advance();
        ok, more, to := TakeName(ExtendsRole, more, o, to, rest);
        if !ok {
          SynchronizeTo({LBrace, EOF});
          ok := Cur() == LBrace;
        }
      }
    }

    /** "{" functions "}" and annotations, after parts. */
    method TakeServiceBody(parts: seq<Child>, ghost o: Open, ghost at: nat) returns (more: seq<Child>, ghost to: nat)
      requires Valid() && Built(toks, o, parts, at) && at <= pos
      modifies this
      ensures Valid() && old(pos) <= pos && old(Faults()) <= Faults()
      ensures Built(toks, o, more, to) && to <= pos
      ensures Onward(toks, parts, old(pos), Tok(LBrace, Each(FunctionNode, Tok(RBrace, Annotated(End))))) ==
              if Faults() == old(Faults()) then Some(Parts(more, pos)) else None
      ensures parts <= more && (old(Cur()) == LBrace ==> FunctionsKept(toks, Past(toks, old(pos)), more))
    {
      hide *;
      ghost var braced, b: nat, end: nat := Cur() == LBrace, Past(toks, pos), pos;
      more, to := parts, at;
      OnwardTok(toks, parts, pos, LBrace, Each(FunctionNode, Tok(RBrace, Annotated(End))));
      var brace := Accept(LBrace);
      if brace.Some? {
        more, to := TakeFunctions(more, o, to, Annotated(End));
        end := pos;
        OnwardTok(toks, more, pos, RBrace, Annotated(End));
        var _ := Expect(RBrace);
      } else {
        ErrorHere();
      }
      ghost var mid := more;
      more, to := TakeAnnotations(more, o, to, End);
      if braced {
        FunctionsKeptMore(toks, b, end, mid, more);
      }
      OnwardEnd(toks, more, pos);
    }

    /** service name [extends name] { functions } [annotations] */
    method ParseService(o: Open, parts: seq<Child>, ghost at: nat) returns (n: Option<Node>)
      requires Valid() && Built(toks, o, parts, at) && at <= pos && o.p0 <= pos && Cur() == Service
      modifies this
      ensures Valid() && old(pos) < pos && old(Faults()) <= Faults()
      ensures n.None? ==> Faults() > old(Faults()) && Cur() == EOF
      ensures n.Some? ==> Spans(toks, n.value, o.p0, pos) && n.value.first == o.first && n.value.last == pos - 1
      ensures Follows(Onward(toks, parts, old(pos), Body(ServiceForm)), Faults() == old(Faults()), ServiceForm, o.first,
                      n, pos)
      ensures Headed(toks, old(pos)) ==> n.Some? && FunctionsKept(toks, BodyAt(toks, old(pos)), n.value.parts)
    {
      hide *;
      HeadedIs(toks, pos);
      ghost var f, goal := Faults(), Onward(toks, parts, pos, Body(ServiceForm));
      ghost var items := Each(FunctionNode, Tok(RBrace, Annotated(End)));
      BracedRules();
      var ok, more, to := TakeHead(Service, parts, o, at, BaseService(Tok(LBrace, items)));
      if !ok {
        FollowsIs(goal, false, ServiceForm, o.first, None, [], pos);
        return None;
      }
      ok, more, to := TakeExtends(more, o, to, Tok(LBrace, items));
      if !ok {
        FollowsIs(goal, false, ServiceForm, o.first, None, [], pos);
        return None;
      }
      more, to := TakeServiceBody(more, o, to);
      n := Some(Finish(o, more, to, ServiceForm));
      FollowsIs(goal, Faults() == f, ServiceForm, o.first, n, more, pos);
    }

    // ----- documents -----

    /** A definition that may carry structured annotations. */
    method ParseDefinition(o: Open, parts: seq<Child>, ghost at: nat) returns (n: Option<Node>)
      requires Valid() && Built(toks, o, parts, at) && at <= pos && o.p0 <= pos && Annotatable(Cur())
      modifies this
      ensures Valid() && old(pos) < pos && old(Faults()) <= Faults()
      ensures n.None? ==> Faults() > old(Faults()) && Cur() == EOF
      ensures n.Some? ==> Spans(toks, n.value, o.p0, pos) && n.value.first == o.first && n.value.last == pos - 1
      ensures IsStruct(old(Cur())) && Headed(toks, old(pos)) ==>
                n.Some? && n.value.form == StructForm(old(Cur()))
                && BodyRecovers(toks, BodyAt(toks, old(pos)), pos, n.value.parts)
      ensures var form := DefinitionForm(old(Cur()));
              Follows(Onward(toks, parts, old(pos), Body(form)), Faults() == old(Faults()), form, o.first, n, pos)
    {
      hide *;
      var k := Cur();
      AnnotatableKinds(k);
      StructKinds(k);
      if k == Namespace {
        n := ParseNamespace(o, parts, at);
      } else if k == Const {
        n := ParseConst(o, parts, at);
      } else if k == Typedef {
        n := ParseTypedef(o, parts, at);
      } else if k == Enum {
        n := ParseEnum(o, parts, at);
      } else if k == Service {
        n := ParseService(o, parts, at);
      } else {
        n := ParseStruct(o, parts, at);
      }
    }

    /** One top-level node: what the grammar reads at the position, or an error and what is skipped. */
    method ParseTopLevel() returns (n: Option<Node>)
      requires Valid() && Cur() != EOF
      modifies this
      ensures Valid() && old(pos) < pos && old(Faults()) <= Faults()
      ensures n.None? ==> Faults() > old(Faults())
      ensures n.Some? ==> Spans(toks, n.value, old(pos), pos)
      ensures n.Some? && Faults() == old(Faults()) ==> n.value.first == Index(toks, old(pos)) && n.value.last == pos - 1
      ensures Found(TopAt(toks, old(pos)), Faults() == old(Faults()), n, pos)
      ensures var q := Restart(toks, old(pos)); q.Some? ==> n.None? && pos == q.value
      ensures IsStruct(old(Cur())) && Headed(toks, old(pos)) ==>
                n.Some? && n.value.form == StructForm(old(Cur())) && n.value.first == Index(toks, old(pos))
                && BodyRecovers(toks, BodyAt(toks, old(pos)), pos, n.value.parts)
    {
      hide *;
      ghost var p, f := pos, Faults();
      var k := Cur();
      StructKinds(k);
      if k != Include && k != CPPInclude {
        n := ParseAnnotated();
        return;
      }
      FrontRead(toks, pos);
      HeaderForms();
      RestartIs(toks, pos);
      var o := Begin();
      if k == Include {
        TopReads(toks, pos, [], pos, IncludeForm);
        n := ParseInclude(o, [], o.p0);
        if n.Some? {
          NameFirst(toks, n.value, o.p0, pos);
        }
        FollowsTop(toks, p, IncludeForm, Onward(toks, [], p, Body(IncludeForm)), Faults() == f, o.first, n, pos);
      } else {
        TopReads(toks, pos, [], pos, CPPIncludeForm);
        n := ParseCPPInclude(o, [], o.p0);
        if n.Some? {
          NameFirst(toks, n.value, o.p0, pos);
        }
        FollowsTop(toks, p, CPPIncludeForm, Onward(toks, [], p, Body(CPPIncludeForm)), Faults() == f, o.first, n, pos);
      }
    }

    /** A definition with structured annotations, if any; without one, an error and the tokens up to the next. */
    method ParseAnnotated() returns (n: Option<Node>)
      requires Valid() && Cur() != EOF && Cur() != Include && Cur() != CPPInclude
      modifies this
      ensures Valid() && old(pos) < pos && old(Faults()) <= Faults()
      ensures n.None? ==> Faults() > old(Faults())
      ensures n.Some? ==> Spans(toks, n.value, old(pos), pos)
      ensures n.Some? && Faults() == old(Faults()) ==> n.value.first == Index(toks, old(pos)) && n.value.last == pos - 1
      ensures Found(TopAt(toks, old(pos)), Faults() == old(Faults()), n, pos)
      ensures var q := Restart(toks, old(pos)); q.Some? ==> n.None? && pos == q.value
      ensures IsStruct(old(Cur())) && Headed(toks, old(pos)) ==>
                n.Some? && n.value.form == StructForm(old(Cur())) && n.value.first == Index(toks, old(pos))
                && BodyRecovers(toks, BodyAt(toks, old(pos)), pos, n.value.parts)
    {
      hide *;
      ghost var p, f := pos, Faults();
      FrontRead(toks, pos);
      StructKinds(Cur());
      RestartIs(toks, pos);
      NotAnnotatable();
      FrontIs(toks, pos);
      var o, parts, at := ParseStructuredAnnotations(End);
      ghost var q: nat, f1 := pos, Faults();
      OnwardEnd(toks, parts, pos);
      if Annotatable(Cur()) {
        ghost var form := DefinitionForm(Cur());
        DefinitionIsTop(Cur(), parts != []);
        n := ParseDefinition(o, parts, at);
        AnnotatedIs(toks, p, parts, q, o, n, pos, f1 == f, Faults() == f, form);
        if n.Some? {
          SpansLater(toks, n.value, o.p0, pos, old(pos), pos);
        }
        return;
      }
      NoDefinition(Cur(), parts != []);
      if f1 == f {
        TopMissing(toks, p, parts, q);
      } else {
        TopFails(toks, p);
      }
      ErrorHere();
      DefinitionStarts(Cur());
      SynchronizeTo(Definitions());
      n := None;
      FoundNotTop(toks, p, n, pos);
    }

    /** The whole document: its top-level nodes, in order; every token up to EOF is consumed, and
        without errors every real token lies in a node. There are no errors if and only if the grammar
        derives the tokens, and then the nodes are the one derivation. */
    method ParseDocument() returns (nodes: seq<Child>)
      requires Valid() && pos == 0
      modifies this
      ensures Valid() && Cur() == EOF && old(Faults()) <= Faults() && Row(toks, nodes, 0, pos)
      ensures Faults() == old(Faults()) ==> Covering(toks, nodes, pos)
      ensures forall forest: seq<Child> :: Forest(toks, 0, forest) <==> Faults() == old(Faults()) && forest == nodes
      ensures Mended(toks, 0).Some? ==> nodes == Mended(toks, 0).value
      ensures RecoversTop(toks, nodes)
    {
      hide *;
      nodes := [];
      RowNone(toks, 0, pos);
      NoneCover(toks);
      ghost var from: nat, f := pos, Faults();
      NoneBefore(DocumentAt(toks, 0));
      NoneBefore(Mended(toks, 0));
      ComingStart(toks);
      while Cur() != EOF
        invariant Valid() && f <= Faults() && Row(toks, nodes, 0, pos)
        invariant Faults() == f ==> Covering(toks, nodes, pos)
        invariant DocumentAt(toks, 0) == if Faults() == f then Before(nodes, DocumentAt(toks, pos)) else None
        invariant Mended(toks, 0).Some? ==> Before(nodes, Mended(toks, pos)) == Mended(toks, 0)
        invariant Coming(toks, pos, nodes)
        decreases Left()
      {
        from := pos;
        DocumentStep(toks, pos, nodes);
        MendedStep(toks, pos, nodes);
        ghost var before, k := nodes, Cur();
        var n := ParseTopLevel();
        FoundParts(TopAt(toks, from), n, pos);
        if n.Some? {
          RowAdd(toks, nodes, 0, from, EntryRole, n.value, from, pos);
          if Faults() == f {
            NextCovers(toks, nodes, from, n.value);
          }
          nodes := nodes + [Child(EntryRole, n.value)];
        } else {
          RowLater(toks, nodes, 0, from, pos);
        }
        PassedIs(toks, from, n, pos);
        ComingStep(toks, from, n, pos, before, nodes);
      }
      DocumentEnds(toks, pos, nodes);
      MendedEnds(toks, pos, nodes);
      ComingEnds(toks, pos, nodes);
      forall forest: seq<Child> ensures Forest(toks, 0, forest) <==> Faults() == f && forest == nodes {
        DocumentExactly(toks, forest);
      }
    }
  }

  // ----- where the document goes on -----

  lemma StructKinds(k: Kind)
    ensures IsStruct(k) <==> k == Struct || k == Union || k == Exception
    ensures IsStruct(k) ==> Annotatable(k)
  {
  }

  /** A position behind a path that is missing: the token in its place is skipped. */
  function BehindPath(toks: seq<Token>, p: nat): nat {
    if KindAt(toks, Past(toks, p)) == EOF then Past(toks, p) else Past(toks, Past(toks, p))
  }

  lemma BehindPathIs(toks: seq<Token>, p: nat)
    ensures BehindPath(toks, p) ==
            if KindAt(toks, Past(toks, p)) == EOF then Past(toks, p) else Past(toks, Past(toks, p))
  {
  }

  /** Where the top level starts again when no definition starts at p: behind what stands for the path of an include,
      or at the next keyword of a definition. */
  function Restart(toks: seq<Token>, p: nat): (q: Option<nat>)
    requires p <= |toks|
  {
    var k := KindAt(toks, p);
    if k == EOF then None
    else if k == Include || k == CPPInclude then
      if KindAt(toks, Past(toks, p)) == StringLiteral then None else Some(BehindPath(toks, p))
    else
      var front := Read(toks, p, StructuredFirst(End));
      if front.None? || Annotatable(KindAt(toks, front.value.next)) then None
      else Some(SkipTo(toks, front.value.next, Definitions()))
  }

  lemma RestartIs(toks: seq<Token>, p: nat)
    requires p <= |toks|
    ensures var k, front := KindAt(toks, p), Read(toks, p, StructuredFirst(End));
            Restart(toks, p) ==
            if k == EOF then None
            else if k == Include || k == CPPInclude then
              if KindAt(toks, Past(toks, p)) == StringLiteral then None else Some(BehindPath(toks, p))
            else if front.None? || Annotatable(KindAt(toks, front.value.next)) then None
            else Some(SkipTo(toks, front.value.next, Definitions()))
  {
    hide KindAt, Read, SkipTo, Annotatable, BehindPath;
  }

  /** Starting again moves on. */
  lemma RestartLater(toks: seq<Token>, p: nat)
    requires p <= |toks|
    ensures Restart(toks, p).Some? ==> p < Restart(toks, p).value <= |toks|
  {
    hide KindAt, Read, SkipTo, BehindPath, Past;
    RestartIs(toks, p);
    FrontRead(toks, p);
    BehindPathIs(toks, p);
    NotAnnotatable();
    var k, front := KindAt(toks, p), Read(toks, p, StructuredFirst(End));
    if k != EOF && k != Include && k != CPPInclude && front.Some? {
      var q := front.value.next;
      SkipStep(toks, q, Definitions());
      DefinitionStarts(KindAt(toks, q));
    }
  }

  /** A document with tokens that belong to no definition: its definitions, where each of them is well-formed. */
  function Mended(toks: seq<Token>, p: nat): Option<seq<Child>>
    requires p <= |toks|
    decreases |toks| - p
  {
    RestartLater(toks, p);
    if KindAt(toks, p) == EOF then Some([])
    else if TopAt(toks, p).Some? then
      Before([Child(EntryRole, TopAt(toks, p).value.node)], Mended(toks, TopAt(toks, p).value.next))
    else if Restart(toks, p).Some? then Mended(toks, Restart(toks, p).value)
    else None
  }

  lemma MendedStep(toks: seq<Token>, p: nat, nodes: seq<Child>)
    requires p <= |toks| && KindAt(toks, p) != EOF
    ensures Restart(toks, p).Some? ==> Restart(toks, p).value <= |toks|
    ensures Before(nodes, Mended(toks, p)) ==
            if TopAt(toks, p).Some? then
              Before(nodes + [Child(EntryRole, TopAt(toks, p).value.node)], Mended(toks, TopAt(toks, p).value.next))
            else if Restart(toks, p).Some? then Before(nodes, Mended(toks, Restart(toks, p).value))
            else None
  {
    hide KindAt, TopAt, Restart;
    RestartLater(toks, p);
    var n := TopAt(toks, p);
    if n.Some? && Mended(toks, n.value.next).Some? {
      var more := Mended(toks, n.value.next).value;
      assert nodes + ([Child(EntryRole, n.value.node)] + more) == nodes + [Child(EntryRole, n.value.node)] + more;
    }
  }

  lemma MendedEnds(toks: seq<Token>, p: nat, nodes: seq<Child>)
    requires p <= |toks| && KindAt(toks, p) == EOF
    ensures Before(nodes, Mended(toks, p)) == Some(nodes)
  {
    hide KindAt;
    assert nodes + [] == nodes;
  }

  // ----- what the document keeps -----

  /** The fields from b on end with a brace behind which no annotations follow, where the list comes to it. */
  ghost predicate Closed(toks: seq<Token>, b: nat, e: nat) {
    ComesTo(toks, b, e, FieldNode, RBrace) && KindAt(toks, e) == RBrace && KindAt(toks, Past(toks, e)) != LParen
  }

  /** The top level that stands at p comes to q: over definitions, over what it skips, and over structs with malformed
      fields. */
  ghost predicate Reaches(toks: seq<Token>, p: nat, q: nat)
    decreases Room(toks, p), 1
  {
    p <= |toks| && (p == q || OverTop(toks, p, q) || OverStray(toks, p, q) || OverStruct(toks, p, q))
  }

  ghost predicate OverTop(toks: seq<Token>, p: nat, q: nat)
    requires p <= |toks|
    decreases Room(toks, p), 0
  {
    KindAt(toks, p) != EOF && TopAt(toks, p).Some? && Reaches(toks, TopAt(toks, p).value.next, q)
  }

  ghost predicate OverStray(toks: seq<Token>, p: nat, q: nat)
    requires p <= |toks|
    decreases Room(toks, p), 0
  {
    RestartLater(toks, p);
    Restart(toks, p).Some? && Reaches(toks, Restart(toks, p).value, q)
  }

  ghost predicate OverStruct(toks: seq<Token>, p: nat, q: nat)
    requires p <= |toks|
    decreases Room(toks, p), 0
  {
    && IsStruct(KindAt(toks, p)) && Headed(toks, p)
    && exists e :: Closed(toks, BodyAt(toks, p), e) && p < Past(toks, e) && Reaches(toks, Past(toks, e), q)
  }

  /** The struct at q is among the nodes, with every well-formed field its list comes to. */
  ghost predicate StructKept(toks: seq<Token>, q: nat, nodes: seq<Child>) {
    exists i :: 0 <= i < |nodes| && HoldsFields(toks, q, nodes[i].node)
  }

  ghost predicate HoldsFields(toks: seq<Token>, q: nat, n: Node) {
    && n.form == StructForm(KindAt(toks, q)) && n.first == Index(toks, q)
    && forall e :: ComesTo(toks, BodyAt(toks, q), e, FieldNode, RBrace) && KindAt(toks, e) != RBrace ==>
         Kept(toks, e, FieldNode, n.parts)
  }

  /** What is read at q is among the nodes, and a struct at q with its fields. */
  ghost predicate TopKept(toks: seq<Token>, q: nat, nodes: seq<Child>) {
    && (q <= |toks| && TopAt(toks, q).Some? ==> Child(EntryRole, TopAt(toks, q).value.node) in nodes)
    && (IsStruct(KindAt(toks, q)) && Headed(toks, q) ==> StructKept(toks, q, nodes))
  }

  ghost predicate Coming(toks: seq<Token>, p: nat, nodes: seq<Child>) {
    forall q :: Reaches(toks, 0, q) ==> Reaches(toks, p, q) || TopKept(toks, q, nodes)
  }

  /** The document keeps every well-formed definition that the top level comes to, also behind malformed text. */
  ghost predicate RecoversTop(toks: seq<Token>, nodes: seq<Child>) {
    forall q :: Reaches(toks, 0, q) && KindAt(toks, q) != EOF ==> TopKept(toks, q, nodes)
  }

  lemma ComingStart(toks: seq<Token>)
    ensures Coming(toks, 0, [])
  {
    hide Reaches;
  }

  lemma TopKeptMore(toks: seq<Token>, q: nat, nodes: seq<Child>, more: seq<Child>)
    requires TopKept(toks, q, nodes) && nodes <= more
    ensures TopKept(toks, q, more)
  {
    hide TopAt, HoldsFields, Headed, IsStruct, KindAt;
    if StructKept(toks, q, nodes) {
      var i :| 0 <= i < |nodes| && HoldsFields(toks, q, nodes[i].node);
      assert more[i] == nodes[i];
    }
  }

  /** What one top-level node or error does: the parser has come over it. */
  ghost predicate Passed(toks: seq<Token>, p: nat, n: Option<Node>, next: nat) {
    && p <= |toks|
    && (TopAt(toks, p).Some? ==> n == Some(TopAt(toks, p).value.node) && next == TopAt(toks, p).value.next)
    && (Restart(toks, p).Some? ==> next == Restart(toks, p).value)
    && (IsStruct(KindAt(toks, p)) && Headed(toks, p) ==>
          n.Some? && n.value.form == StructForm(KindAt(toks, p)) && n.value.first == Index(toks, p)
          && BodyRecovers(toks, BodyAt(toks, p), next, n.value.parts))
  }

  lemma PassedIs(toks: seq<Token>, p: nat, n: Option<Node>, next: nat)
    requires p <= |toks|
    requires TopAt(toks, p).Some? ==> n == Some(TopAt(toks, p).value.node) && next == TopAt(toks, p).value.next
    requires Restart(toks, p).Some? ==> next == Restart(toks, p).value
    requires IsStruct(KindAt(toks, p)) && Headed(toks, p) ==>
               n.Some? && n.value.form == StructForm(KindAt(toks, p)) && n.value.first == Index(toks, p)
               && BodyRecovers(toks, BodyAt(toks, p), next, n.value.parts)
    ensures Passed(toks, p, n, next)
  {
    hide TopAt, Restart, Headed, IsStruct, KindAt, BodyRecovers, Index, BodyAt;
  }

  lemma ReachesNext(toks: seq<Token>, p: nat, n: Option<Node>, next: nat, q: nat)
    requires Passed(toks, p, n, next) && Reaches(toks, p, q) && p != q
    ensures Reaches(toks, next, q)
  {
    hide TopAt, Restart, Headed, IsStruct, KindAt, Past, Kept, ComesTo, Index, BodyAt;
    if !OverTop(toks, p, q) && !OverStray(toks, p, q) {
      var e :| Closed(toks, BodyAt(toks, p), e) && p < Past(toks, e) && Reaches(toks, Past(toks, e), q);
      assert next == Past(toks, e);
    }
  }

  lemma PassedKept(toks: seq<Token>, p: nat, n: Option<Node>, next: nat, nodes: seq<Child>)
    requires Passed(toks, p, n, next) && (n.Some? ==> nodes != [] && nodes[|nodes| - 1] == Child(EntryRole, n.value))
    ensures TopKept(toks, p, nodes)
  {
    hide TopAt, Restart, Headed, IsStruct, KindAt, Past, Kept, ComesTo, Index, BodyAt;
    if IsStruct(KindAt(toks, p)) && Headed(toks, p) {
      assert HoldsFields(toks, p, nodes[|nodes| - 1].node);
    }
  }

  lemma ComingStep(toks: seq<Token>, p: nat, n: Option<Node>, next: nat, nodes: seq<Child>, more: seq<Child>)
    requires Coming(toks, p, nodes) && Passed(toks, p, n, next)
    requires more == if n.Some? then nodes + [Child(EntryRole, n.value)] else nodes
    ensures Coming(toks, next, more)
  {
    hide Reaches, TopKept, Passed;
    forall q | Reaches(toks, 0, q) ensures Reaches(toks, next, q) || TopKept(toks, q, more) {
      if !Reaches(toks, p, q) {
        TopKeptMore(toks, q, nodes, more);
      } else if p == q {
        PassedKept(toks, p, n, next, more);
      } else {
        ReachesNext(toks, p, n, next, q);
      }
    }
  }

  lemma ComingEnds(toks: seq<Token>, p: nat, nodes: seq<Child>)
    requires Coming(toks, p, nodes) && KindAt(toks, p) == EOF
    ensures RecoversTop(toks, nodes)
  {
    hide Reaches, TopKept, KindAt;
    forall q | Reaches(toks, 0, q) && KindAt(toks, q) != EOF ensures TopKept(toks, q, nodes) {
      if Reaches(toks, p, q) {
        NothingBehind(toks, p, q);
      }
    }
  }

  lemma NothingBehind(toks: seq<Token>, p: nat, q: nat)
    requires Reaches(toks, p, q) && KindAt(toks, p) == EOF
    ensures q == p
  {
    hide TopAt, KindAt, Headed;
    RestartIs(toks, p);
  }

  /** The nodes follow one another with only comments in between, up to p: each starts at the first real
      token after the one before it. */
  ghost predicate Covering(toks: seq<Token>, nodes: seq<Child>, p: int) {
    && p == EndOf(nodes, |nodes|)
    && forall i :: 0 <= i < |nodes| ==> nodes[i].node.first == Index(toks, EndOf(nodes, i))
  }

  /** The position after the first i nodes. */
  function EndOf(nodes: seq<Child>, i: nat): nat
    requires i <= |nodes|
  {
    if i == 0 then 0 else nodes[i - 1].node.last + 1
  }

  lemma NoneCover(toks: seq<Token>)
    ensures Covering(toks, [], 0)
  {
  }

  lemma NextCovers(toks: seq<Token>, nodes: seq<Child>, p: nat, n: Node)
    requires Covering(toks, nodes, p) && n.first == Index(toks, p)
    ensures Covering(toks, nodes + [Child(EntryRole, n)], n.last + 1)
  {
    hide Index;
    var more := nodes + [Child(EntryRole, n)];
    forall i | 0 <= i < |more| ensures more[i].node.first == Index(toks, EndOf(more, i)) {
      assert i <= |nodes| && EndOf(more, i) == EndOf(nodes, i);
    }
  }

  /** The kinds of definitions that structured annotations may precede. */
  predicate Annotatable(k: Kind) {
    k == Namespace || k == Const || k == Typedef || k == Enum || k == Struct || k == Union || k == Exception
    || k == Service
  }

  lemma AnnotatableKinds(k: Kind)
    requires Annotatable(k)
    ensures k == Namespace || k == Const || k == Typedef || k == Enum || k == Struct || k == Union || k == Exception
            || k == Service
    ensures DefinitionForm(k) ==
            if k == Namespace then NamespaceForm
            else if k == Const then ConstForm
            else if k == Typedef then TypedefForm
            else if k == Enum then EnumForm
            else if k == Service then ServiceForm
            else StructForm(k)
  {
  }

  lemma DefinitionIsTop(k: Kind, annotated: bool)
    requires Annotatable(k)
    ensures TopForm(k, annotated) == Some(DefinitionForm(k))
  {
  }

  lemma HeaderForms()
    ensures TopForm(Include, false) == Some(IncludeForm) && TopForm(CPPInclude, false) == Some(CPPIncludeForm)
  {
  }

  lemma NoDefinition(k: Kind, annotated: bool)
    requires !Annotatable(k)
    ensures TopForm(k, annotated).Some? ==> !annotated && (k == Include || k == CPPInclude)
  {
  }

  lemma FrontIs(toks: seq<Token>, p: nat)
    requires p <= |toks|
    ensures Onward(toks, [], p, StructuredFirst(End)) == Read(toks, p, StructuredFirst(End))
  {
    hide Read;
    OntoNothing(Read(toks, p, StructuredFirst(End)));
  }

  /** A definition behind its structured annotations. */
  lemma AnnotatedIs(toks: seq<Token>, p: nat, parts: seq<Child>, q: nat, o: Open, n: Option<Node>, next: nat,
                    front: bool, ok: bool, form: Form)
    requires p <= |toks| && q <= |toks| && o.p0 <= next && (ok ==> front)
    requires Read(toks, p, StructuredFirst(End)) == if front then Some(Parts(parts, q)) else None
    requires TopForm(KindAt(toks, q), parts != []) == Some(form)
    requires front ==> Follows(Onward(toks, parts, q, Body(form)), ok, form, o.first, n, next)
    requires front ==> o.first == Index(toks, p)
    requires n.Some? ==> Spans(toks, n.value, o.p0, next)
    ensures Found(TopAt(toks, p), ok, n, next)
  {
    hide Follows, Read, TopForm, Body, Spans, Found, TopAt, KindAt, Index;
    if n.Some? {
      NameFirst(toks, n.value, o.p0, next);
    }
    if front {
      TopReads(toks, p, parts, q, form);
      FollowsTop(toks, p, form, Onward(toks, parts, q, Body(form)), ok, o.first, n, next);
    } else {
      TopFails(toks, p);
      FoundNotTop(toks, p, n, next);
    }
  }

  /** What the top level reads after the structured annotations. */
  lemma TopReads(toks: seq<Token>, p: nat, parts: seq<Child>, q: nat, form: Form)
    requires p <= |toks| && q <= |toks| && Read(toks, p, StructuredFirst(End)) == Some(Parts(parts, q))
    requires TopForm(KindAt(toks, q), parts != []) == Some(form)
    ensures TopAt(toks, p) == NodeOf(toks, p, form, Onward(toks, parts, q, Body(form)))
  {
    hide KindAt, Read, Body, TopForm;
  }

  lemma TopFails(toks: seq<Token>, p: nat)
    requires p <= |toks| && Read(toks, p, StructuredFirst(End)) == None
    ensures TopAt(toks, p) == None
  {
    hide Read;
  }

  lemma TopMissing(toks: seq<Token>, p: nat, parts: seq<Child>, q: nat)
    requires p <= |toks| && q <= |toks| && Read(toks, p, StructuredFirst(End)) == Some(Parts(parts, q))
    requires TopForm(KindAt(toks, q), parts != []) == None
    ensures TopAt(toks, p) == None
  {
    hide KindAt, Read, Body, TopForm;
  }

  lemma FoundNotTop(toks: seq<Token>, p: nat, n: Option<Node>, q: nat)
    requires p <= |toks| && TopAt(toks, p) == None
    ensures Found(TopAt(toks, p), false, n, q)
  {
    hide TopAt;
  }

  lemma FollowsTop(toks: seq<Token>, p: nat, form: Form, g: Option<Parts>, ok: bool, first: nat, n: Option<Node>,
                   q: nat)
    requires p <= |toks| && Follows(g, ok, form, first, n, q) && TopAt(toks, p) == NodeOf(toks, p, form, g)
    requires (ok ==> first == Index(toks, p)) && (n.Some? ==> n.value.first <= n.value.last)
    ensures Found(TopAt(toks, p), ok, n, q)
  {
    hide TopAt, Index;
  }

  // ----- the document as it is read -----

  function Before(nodes: seq<Child>, r: Option<seq<Child>>): Option<seq<Child>> {
    if r.None? then None else Some(nodes + r.value)
  }

  lemma NoneBefore(r: Option<seq<Child>>)
    ensures Before([], r) == r
  {
    if r.Some? {
      assert [] + r.value == r.value;
    }
  }

  lemma DocumentStep(toks: seq<Token>, p: nat, nodes: seq<Child>)
    requires p <= |toks| && KindAt(toks, p) != EOF
    ensures var n := TopAt(toks, p);
            Before(nodes, DocumentAt(toks, p)) ==
            if n.None? then None else Before(nodes + [Child(EntryRole, n.value.node)], DocumentAt(toks, n.value.next))
  {
    hide KindAt, TopAt;
    var n := TopAt(toks, p);
    if n.Some? && DocumentAt(toks, n.value.next).Some? {
      var more := DocumentAt(toks, n.value.next).value;
      assert nodes + ([Child(EntryRole, n.value.node)] + more) == nodes + [Child(EntryRole, n.value.node)] + more;
    }
  }

  lemma DocumentEnds(toks: seq<Token>, p: nat, nodes: seq<Child>)
    requires p <= |toks| && KindAt(toks, p) == EOF
    ensures Before(nodes, DocumentAt(toks, p)) == Some(nodes)
  {
    hide KindAt;
    assert nodes + [] == nodes;
  }

  /** The definition that a keyword starts. */
  function DefinitionForm(k: Kind): Form {
    if k == Namespace then NamespaceForm
    else if k == Const then ConstForm
    else if k == Typedef then TypedefForm
    else if k == Enum then EnumForm
    else if k == Service then ServiceForm
    else StructForm(k)
  }

  /** The kinds the top level starts again at. */
  function Definitions(): set<Kind> {
    {Include, CPPInclude, Namespace, Const, Typedef, Enum, Struct, Union, Exception, Service}
  }

  lemma DefinitionStarts(k: Kind)
    ensures k in Definitions() <==> k == Include || k == CPPInclude || Annotatable(k)
  {
  }

  lemma NotAnnotatable()
    ensures !Annotatable(At) && !Annotatable(EOF)
  {
  }

  lemma NoEofKeyword()
    ensures !IsKeyword(EOF)
  {
  }

  lemma AfterNext(toks: seq<Token>, p: nat)
    ensures Past(toks, p) == Index(toks, p) + 1
  {
  }

  lemma IsNameIs(k: Kind)
    ensures IsName(k) <==> k == Identifier || IsKeyword(k)
  {
  }
}
