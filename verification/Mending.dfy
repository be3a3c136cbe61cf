/** A document with stray tokens in it keeps the definitions before and behind them (syntax/parser.go). */
module Mending {
  import opened Lexing
  import opened Ast
  import opened Documents
  import opened Grammar
  import opened LookAhead
  import opened Parsing
  import opened Recovery
  import opened Wrappers

  /** The nodes are derived from the tokens from p on, one after another up to q. */
  ghost predicate ForestTo(toks: seq<Token>, p: nat, nodes: seq<Child>, q: nat)
    decreases |nodes|
  {
    if nodes == [] then p == q
    else
      var n := nodes[0].node;
      && nodes[0].role == EntryRole && IsTop(n.form) && p <= n.first <= n.last < |toks| && n.first == Index(toks, p)
      && Derived(toks, p, n) && ForestTo(toks, n.last + 1, nodes[1..], q)
  }

  /** From p to just before q there are tokens, the last of them at q - 1, and none of them is EOF, starts a definition
      or is the "@" of an annotation. */
  ghost predicate Stray(toks: seq<Token>, p: nat, q: nat) {
    && p < q <= |toks| && RealAt(toks, q - 1)
    && forall i :: p <= i < q && RealAt(toks, i) ==>
         toks[i].kind !in Definitions() && toks[i].kind != At && toks[i].kind != EOF
  }

  // ----- up to the stray tokens -----

  /** A forest before something starts with a definition, if with anything. */
  lemma {:induction false} ForestToStarts(toks: seq<Token>, p: nat, nodes: seq<Child>, q: nat)
    requires ForestTo(toks, p, nodes, q) && !Continues(KindAt(toks, q))
    ensures !Continues(KindAt(toks, p)) && (nodes != [] ==> KindAt(toks, p) != EOF)
    decreases |nodes|
  {
    hide KindAt, Index, Derives, Production, CanStart, IsTop;
    if nodes != [] {
      var n := nodes[0].node;
      ForestToStarts(toks, n.last + 1, nodes[1..], q);
      TopProduction(n.form);
      StartsWith(toks, p, Production(n.form), n, 0);
      TopStarts(n.form, KindAt(toks, p));
    }
  }

  lemma {:induction false} MendedFrom(toks: seq<Token>, p: nat, nodes: seq<Child>, q: nat)
    requires p <= |toks| && q <= |toks| && ForestTo(toks, p, nodes, q) && !Continues(KindAt(toks, q))
    ensures Mended(toks, p) == Before(nodes, Mended(toks, q))
    decreases |nodes|
  {
    hide KindAt, Index, Derived, IsTop, Continues, TopAt, Restart, Mended;
    ForestToStarts(toks, p, nodes, q);
    NoneBefore(Mended(toks, q));
    if nodes != [] {
      var n := nodes[0].node;
      MendedFrom(toks, n.last + 1, nodes[1..], q);
      ForestToStarts(toks, n.last + 1, nodes[1..], q);
      TopIsRead(toks, p, n);
      NoneBefore(Mended(toks, p));
      MendedStep(toks, p, []);
      BeforeTwice(nodes, Mended(toks, q));
    }
  }

  lemma BeforeTwice(nodes: seq<Child>, r: Option<seq<Child>>)
    requires nodes != []
    ensures Before([] + [nodes[0]], Before(nodes[1..], r)) == Before(nodes, r)
  {
    assert [] + [nodes[0]] == [nodes[0]];
    if r.Some? {
      assert [nodes[0]] + (nodes[1..] + r.value) == nodes + r.value;
    }
  }

  // ----- over the stray tokens -----

  lemma {:induction false} StraySkipped(toks: seq<Token>, p: nat, q: nat)
    requires Stray(toks, p, q)
    ensures KindAt(toks, p) !in Definitions() && KindAt(toks, p) != At && KindAt(toks, p) != EOF
    ensures SkipTo(toks, p, Definitions()) == SkipTo(toks, q, Definitions())
    decreases q - p
  {
    hide KindAt, SkipTo, Definitions;
    OnlyNext(toks, p, q - 1);
    SkipStep(toks, p, Definitions());
    NextIs(toks, p, q - 1);
    if Past(toks, p) < q {
      StraySkipped(toks, Past(toks, p), q);
    }
  }

  lemma NextIs(toks: seq<Token>, p: nat, i: nat)
    requires p <= i < |toks| && RealAt(toks, i)
    ensures var j := NextReal(toks, p);
            p <= j <= i && RealAt(toks, j) && KindAt(toks, p) == toks[j].kind && Past(toks, p) == j + 1
  {
    OnlyNext(toks, p, i);
  }

  lemma MendedOver(toks: seq<Token>, p: nat, q: nat)
    requires Stray(toks, p, q)
    ensures Mended(toks, p) == Mended(toks, SkipTo(toks, q, Definitions()))
  {
    hide KindAt, SkipTo, Restart, TopAt, Mended, Definitions, Annotatable;
    StraySkipped(toks, p, q);
    FrontRead(toks, p);
    RestartIs(toks, p);
    DefinitionStarts(KindAt(toks, p));
    NoDefinition(KindAt(toks, p), false);
    TopMissing(toks, p, [], p);
    NoneBefore(Mended(toks, p));
    NoneBefore(Mended(toks, SkipTo(toks, q, Definitions())));
    MendedStep(toks, p, []);
  }

  // ----- behind the stray tokens -----

  lemma {:induction false} DocumentMended(toks: seq<Token>, p: nat)
    requires p <= |toks| && DocumentAt(toks, p).Some?
    ensures Mended(toks, p) == DocumentAt(toks, p)
    decreases |toks| - p
  {
    hide KindAt, TopAt, Restart, Mended;
    NoneBefore(Mended(toks, p));
    if KindAt(toks, p) == EOF {
      MendedEnds(toks, p, []);
    } else {
      MendedStep(toks, p, []);
      var n := TopAt(toks, p).value;
      DocumentMended(toks, n.next);
      assert [] + [Child(EntryRole, n.node)] == [Child(EntryRole, n.node)];
    }
  }

  /** What is found behind p lies behind p. */
  lemma {:induction false} MendedBehind(toks: seq<Token>, p: nat)
    requires p <= |toks| && Mended(toks, p).Some? && Mended(toks, p).value != []
    ensures Mended(toks, p).value[0].node.first >= p
    decreases |toks| - p
  {
    hide KindAt, TopAt, Restart, Mended;
    NoneBefore(Mended(toks, p));
    RestartLater(toks, p);
    if KindAt(toks, p) == EOF {
      MendedEnds(toks, p, []);
    } else {
      MendedStep(toks, p, []);
      if TopAt(toks, p).Some? {
        TopDerives(toks, p);
      } else {
        NoneBefore(Mended(toks, Restart(toks, p).value));
        MendedBehind(toks, Restart(toks, p).value);
      }
    }
  }

  /** A forest starts with a definition or with annotations, or is at EOF. */
  lemma ForestKind(toks: seq<Token>, p: nat, nodes: seq<Child>)
    requires p <= |toks| && Forest(toks, p, nodes)
    ensures var k := KindAt(toks, p); k in Definitions() || k == At || k == EOF
    ensures nodes == [] <==> KindAt(toks, p) == EOF
    ensures nodes != [] ==> nodes[0].node.first == Index(toks, p)
  {
    hide KindAt, Index, Derived, TopAt, Definitions;
    ForestStarts(toks, p, nodes);
    ForestIsRead(toks, p, nodes);
    if nodes != [] {
      TopKind(toks, p);
    }
  }

  lemma TopKind(toks: seq<Token>, p: nat)
    requires p <= |toks| && TopAt(toks, p).Some?
    ensures KindAt(toks, p) in Definitions() || KindAt(toks, p) == At
  {
    hide KindAt, Definitions, Annotatable;
    FrontRead(toks, p);
    if KindAt(toks, p) != At {
      DefinitionStarts(KindAt(toks, p));
      if !Annotatable(KindAt(toks, p)) {
        NoDefinition(KindAt(toks, p), false);
      }
    }
  }

  /** Between two forests there are stray tokens. The parser finds both, and the definitions behind the tokens are all
      there if and only if the first of them has no structured annotations: those are skipped with the tokens. */
  lemma StrayTokens(toks: seq<Token>, before: seq<Child>, p: nat, q: nat, behind: seq<Child>)
    requires ForestTo(toks, 0, before, p) && !Continues(KindAt(toks, p)) && Stray(toks, p, q)
    requires Forest(toks, q, behind)
    ensures Mended(toks, 0) == Some(before + behind) <==> KindAt(toks, q) != At
    ensures Mended(toks, 0) == Before(before, Mended(toks, SkipTo(toks, q, Definitions())))
    ensures DocumentAt(toks, 0) == None
  {
    hide KindAt, SkipTo, Mended, Forest, ForestTo, DocumentAt, Definitions, Continues;
    var r := SkipTo(toks, q, Definitions());
    MendedFrom(toks, 0, before, p);
    MendedOver(toks, p, q);
    ForestKind(toks, q, behind);
    SkipStep(toks, q, Definitions());
    NotDefinition();
    if KindAt(toks, q) != At {
      ForestIsRead(toks, q, behind);
      DocumentMended(toks, q);
    } else {
      AnnotationsLost(toks, q, before, behind);
    }
    NoDocument(toks, before, p, q);
  }

  lemma NotDefinition()
    ensures At !in Definitions() && At != EOF
  {
  }

  lemma AnnotationsLost(toks: seq<Token>, q: nat, before: seq<Child>, behind: seq<Child>)
    requires q <= |toks| && Forest(toks, q, behind) && KindAt(toks, q) == At
    ensures Before(before, Mended(toks, SkipTo(toks, q, Definitions()))) != Some(before + behind)
  {
    hide KindAt, SkipTo, Mended, Forest, Definitions;
    var r := SkipTo(toks, q, Definitions());
    var found := Mended(toks, r);
    ForestKind(toks, q, behind);
    NotDefinition();
    SkipStep(toks, q, Definitions());
    SkipPast(toks, q);
    if found.Some? && before + found.value == before + behind {
      assert (before + found.value)[|before|..] == found.value;
      assert (before + behind)[|before|..] == behind;
      MendedBehind(toks, r);
    }
  }

  lemma SkipPast(toks: seq<Token>, q: nat)
    requires q <= |toks| && KindAt(toks, q) !in Definitions() && KindAt(toks, q) != EOF
    ensures SkipTo(toks, q, Definitions()) > Index(toks, q)
  {
    hide KindAt, SkipTo, Definitions;
    SkipStep(toks, q, Definitions());
    PastIs(toks, q);
    SkipForward(toks, Past(toks, q));
  }

  lemma PastIs(toks: seq<Token>, q: nat)
    ensures Past(toks, q) == Index(toks, q) + 1
  {
  }

  lemma SkipForward(toks: seq<Token>, q: nat)
    requires q <= |toks|
    ensures SkipTo(toks, q, Definitions()) >= q
  {
    hide KindAt, Definitions;
  }

  /** With stray tokens the grammar derives no document. */
  lemma NoDocument(toks: seq<Token>, nodes: seq<Child>, p: nat, q: nat)
    requires ForestTo(toks, 0, nodes, p) && !Continues(KindAt(toks, p)) && Stray(toks, p, q)
    ensures DocumentAt(toks, 0) == None
  {
    hide ForestTo, KindAt, DocumentAt, Continues;
    NoDocumentFrom(toks, 0, nodes, p, q);
  }

  lemma {:induction false} NoDocumentFrom(toks: seq<Token>, from: nat, nodes: seq<Child>, p: nat, q: nat)
    requires from <= |toks| && ForestTo(toks, from, nodes, p) && !Continues(KindAt(toks, p)) && Stray(toks, p, q)
    ensures DocumentAt(toks, from) == None
    decreases |nodes|
  {
    hide KindAt, Index, Derived, IsTop, Continues, TopAt, Definitions;
    ForestToStarts(toks, from, nodes, p);
    if nodes == [] {
      StraySkipped(toks, p, q);
      if TopAt(toks, p).Some? {
        TopKind(toks, p);
      }
    } else {
      var n := nodes[0].node;
      NoDocumentFrom(toks, n.last + 1, nodes[1..], p, q);
      ForestToStarts(toks, n.last + 1, nodes[1..], p);
      TopIsRead(toks, from, n);
    }
  }
}
