/** Break propagation (doc/print.go, propagateBreaks and traverseDoc). */
module Breaks {
  import opened Doc

  /** The variables the two closures of propagateBreaks share, and the broken groups. */
  datatype Marks = Marks(visited: set<nat>, stack: seq<nat>, brk: set<nat>)

  function BreakTop(m: Marks): Marks {
    if m.stack == [] then m else m.(brk := m.brk + {m.stack[|m.stack| - 1]})
  }

  function Enter(d: Doc, m: Marks): (Marks, bool) {
    match d
    case BreakParent => (BreakTop(m), true)
    case Group(g, _, _, _) =>
      var pushed := m.(stack := m.stack + [g]);
      if g in m.visited then (pushed, false) else (pushed.(visited := m.visited + {g}), true)
    case _ => (m, true)
  }

  function Exit(d: Doc, m: Marks): Marks
    requires d.Group? ==> m.stack != []
  {
    if d.Group? then
      var popped := m.(stack := m.stack[..|m.stack| - 1]);
      if d.node in m.brk then BreakTop(popped) else popped
    else m
  }

  /** traverseDoc as a function of the marks. */
  function Traverse(d: Doc, m: Marks): (r: Marks)
    ensures |r.stack| >= |m.stack|
    decreases d, 1
  {
    if d.Nil? then m else
      var (m', go) := Enter(d, m);
      if !go then m' else Exit(d, TraverseAll(Children(d), m', d))
  }

  function TraverseAll(ds: seq<Doc>, m: Marks, parent: Doc): (r: Marks)
    requires forall i :: 0 <= i < |ds| ==> ds[i] < parent
    ensures |r.stack| >= |m.stack|
    decreases parent, 0, |ds|
  {
    if ds == [] then m else TraverseAll(ds[1..], Traverse(ds[0], m), parent)
  }

  /** propagateBreaks: which groups are broken afterwards. */
  function Propagate(d: Doc, brk: set<nat>): set<nat> {
    Traverse(d, Marks({}, [], brk)).brk
  }

  // ----- what it should compute -----

  /** The groups reached in d, as often as they are reached. */
  function Groups(d: Doc): seq<nat>
    decreases d, 1
  {
    (if d.Group? then [d.node] else []) + GroupsAll(Children(d), d)
  }

  function GroupsAll(ds: seq<Doc>, parent: Doc): seq<nat>
    requires forall i :: 0 <= i < |ds| ==> ds[i] < parent
    decreases parent, 0, |ds|
  {
    if ds == [] then [] else Groups(ds[0]) + GroupsAll(ds[1..], parent)
  }

  /** A BreakParent or a broken group at any depth, in any branch. */
  predicate HasBreak(d: Doc, brk: set<nat>)
    decreases d, 1
  {
    d.BreakParent? || (d.Group? && d.node in brk) || AnyBreak(Children(d), brk, d)
  }

  predicate AnyBreak(ds: seq<Doc>, brk: set<nat>, parent: Doc)
    requires forall i :: 0 <= i < |ds| ==> ds[i] < parent
    decreases parent, 0, |ds|
  {
    ds != [] && (HasBreak(ds[0], brk) || AnyBreak(ds[1..], brk, parent))
  }

  /** The groups of d that are broken already or contain a break. */
  function Broken(d: Doc, brk: set<nat>): set<nat>
    decreases d, 1
  {
    (if d.Group? && HasBreak(d, brk) then {d.node} else {}) + BrokenAll(Children(d), brk, d)
  }

  function BrokenAll(ds: seq<Doc>, brk: set<nat>, parent: Doc): set<nat>
    requires forall i :: 0 <= i < |ds| ==> ds[i] < parent
    decreases parent, 0, |ds|
  {
    if ds == [] then {} else Broken(ds[0], brk) + BrokenAll(ds[1..], brk, parent)
  }

  /** s is d or part of it. */
  ghost predicate PartOf(s: Doc, d: Doc)
    decreases d, 1
  {
    s == d || PartOfAny(s, Children(d), d)
  }

  ghost predicate PartOfAny(s: Doc, ds: seq<Doc>, parent: Doc)
    requires forall i :: 0 <= i < |ds| ==> ds[i] < parent
    decreases parent, 0, |ds|
  {
    ds != [] && (PartOf(s, ds[0]) || PartOfAny(s, ds[1..], parent))
  }

  // ----- no group reached twice -----

  ghost predicate Once(s: seq<nat>) {
    forall i, j :: 0 <= i < j < |s| ==> s[i] != s[j]
  }

  ghost function Elems(s: seq<nat>): set<nat> {
    set g | g in s
  }

  lemma OnceSplits(a: seq<nat>, b: seq<nat>)
    requires Once(a + b)
    ensures Once(a) && Once(b) && Elems(a) !! Elems(b) && Elems(a + b) == Elems(a) + Elems(b)
  {
    forall i, j | 0 <= i < j < |a| ensures a[i] != a[j] {
      assert (a + b)[i] != (a + b)[j];
    }
    forall i, j | 0 <= i < j < |b| ensures b[i] != b[j] {
      assert (a + b)[|a| + i] != (a + b)[|a| + j];
    }
    forall i, j | 0 <= i < |a| && 0 <= j < |b| ensures a[i] != b[j] {
      assert (a + b)[i] != (a + b)[|a| + j];
    }
    ElemsConcat(a, b);
  }

  lemma OnceFirst(ds: seq<Doc>, parent: Doc)
    requires forall i :: 0 <= i < |ds| ==> ds[i] < parent
    requires ds != [] && Once(GroupsAll(ds, parent))
    ensures Once(Groups(ds[0])) && Once(GroupsAll(ds[1..], parent))
    ensures Elems(Groups(ds[0])) !! Elems(GroupsAll(ds[1..], parent))
    ensures Elems(GroupsAll(ds, parent)) == Elems(Groups(ds[0])) + Elems(GroupsAll(ds[1..], parent))
  {
    OnceSplits(Groups(ds[0]), GroupsAll(ds[1..], parent));
  }

  lemma OnceGroup(d: Doc)
    requires Once(Groups(d))
    ensures Once(GroupsAll(Children(d), d))
    ensures d.Group? ==> d.node !in Elems(GroupsAll(Children(d), d))
    ensures Elems(Groups(d)) == (if d.Group? then {d.node} else {}) + Elems(GroupsAll(Children(d), d))
  {
    OnceSplits(if d.Group? then [d.node] else [], GroupsAll(Children(d), d));
    GroupsSplit(d);
    if d.Group? {
      assert d.node in Elems([d.node]);
    }
  }

  lemma ElemsConcat(a: seq<nat>, b: seq<nat>)
    ensures Elems(a + b) == Elems(a) + Elems(b)
  {
  }

  // ----- HasBreak and Broken depend on the broken groups inside only -----

  ghost predicate Agree(gs: set<nat>, b: set<nat>, c: set<nat>) {
    gs * b == gs * c
  }

  lemma {:induction false} BreakDepends(d: Doc, b: set<nat>, c: set<nat>)
    requires Agree(Elems(Groups(d)), b, c)
    ensures HasBreak(d, b) == HasBreak(d, c) && Broken(d, b) == Broken(d, c)
    decreases d, 1
  {
    GroupsSplit(d);
    AgreeWithin(Elems(Groups(d)), Elems(GroupsAll(Children(d), d)), b, c);
    BreakDependsAll(Children(d), b, c, d);
    if d.Group? {
      AgreeWithin(Elems(Groups(d)), {d.node}, b, c);
      assert d.node in {d.node} * b <==> d.node in {d.node} * c;
    }
  }

  lemma {:induction false} BreakDependsAll(ds: seq<Doc>, b: set<nat>, c: set<nat>, parent: Doc)
    requires forall i :: 0 <= i < |ds| ==> ds[i] < parent
    requires Agree(Elems(GroupsAll(ds, parent)), b, c)
    ensures AnyBreak(ds, b, parent) == AnyBreak(ds, c, parent)
    ensures BrokenAll(ds, b, parent) == BrokenAll(ds, c, parent)
    decreases parent, 0, |ds|
  {
    if ds != [] {
      ElemsConcat(Groups(ds[0]), GroupsAll(ds[1..], parent));
      AgreeWithin(Elems(GroupsAll(ds, parent)), Elems(Groups(ds[0])), b, c);
      AgreeWithin(Elems(GroupsAll(ds, parent)), Elems(GroupsAll(ds[1..], parent)), b, c);
      BreakDepends(ds[0], b, c);
      BreakDependsAll(ds[1..], b, c, parent);
    }
  }

  lemma GroupsSplit(d: Doc)
    ensures Elems(Groups(d)) == (if d.Group? then {d.node} else {}) + Elems(GroupsAll(Children(d), d))
  {
    ElemsConcat(if d.Group? then [d.node] else [], GroupsAll(Children(d), d));
  }

  lemma AgreeWithin(big: set<nat>, small: set<nat>, b: set<nat>, c: set<nat>)
    requires Agree(big, b, c) && small <= big
    ensures Agree(small, b, c)
  {
    assert small * b == small * (big * b) && small * c == small * (big * c);
  }

  lemma {:induction false} BrokenInside(d: Doc, b: set<nat>)
    ensures Broken(d, b) <= Elems(Groups(d))
    decreases d, 1
  {
    BrokenInsideAll(Children(d), b, d);
    GroupsSplit(d);
  }

  lemma {:induction false} BrokenInsideAll(ds: seq<Doc>, b: set<nat>, parent: Doc)
    requires forall i :: 0 <= i < |ds| ==> ds[i] < parent
    ensures BrokenAll(ds, b, parent) <= Elems(GroupsAll(ds, parent))
    decreases parent, 0, |ds|
  {
    if ds != [] {
      BrokenInside(ds[0], b);
      BrokenInsideAll(ds[1..], b, parent);
      ElemsConcat(Groups(ds[0]), GroupsAll(ds[1..], parent));
    }
  }

  // ----- what the traversal does -----

  ghost predicate Fresh(gs: seq<nat>, m: Marks) {
    Once(gs) && Elems(gs) !! m.visited && Elems(gs) !! Elems(m.stack)
  }

  ghost function Top(m: Marks): set<nat> {
    if m.stack == [] then {} else {m.stack[|m.stack| - 1]}
  }

  ghost function After(m: Marks, gs: set<nat>, broken: set<nat>, any: bool): Marks {
    Marks(m.visited + gs, m.stack, m.brk + broken + (if any then Top(m) else {}))
  }

  lemma {:induction false} TraverseMarks(d: Doc, m: Marks)
    requires Fresh(Groups(d), m)
    ensures Traverse(d, m) == After(m, Elems(Groups(d)), Broken(d, m.brk), HasBreak(d, m.brk))
    decreases d, 1
  {
    hide After, Fresh, TraverseAll, AnyBreak, BrokenAll, GroupsAll, Once, Elems, Top, Groups;
    var ds := Children(d);
    GroupsSplit(d);
    if d.Group? {
      FreshInside(d, m);
      TraverseMarksAll(ds, m.(visited := m.visited + {d.node}, stack := m.stack + [d.node]), d);
      BrokenInsideAll(ds, m.brk, d);
      ExitGroup(d, m, Elems(GroupsAll(ds, d)), BrokenAll(ds, m.brk, d), AnyBreak(ds, m.brk, d));
    } else if d.Nil? {
      NilAfter(m);
    } else {
      NoGroupFresh(d, m);
      TraverseMarksAll(ds, Enter(d, m).0, d);
      LeafAfter(d, m);
    }
  }

  /** Leaving a group pops it, and breaks the group around it if it is broken itself. */
  lemma ExitGroup(d: Doc, m: Marks, gs: set<nat>, broken: set<nat>, any: bool)
    requires d.Group? && d.node !in broken
    ensures var inner := After(m.(visited := m.visited + {d.node}, stack := m.stack + [d.node]), gs, broken, any);
            && inner.stack != []
            && Exit(d, inner)
            == After(m, {d.node} + gs,
                     (if d.node in m.brk || any then {d.node} else {}) + broken, d.node in m.brk || any)
  {
    assert (m.stack + [d.node])[..|m.stack|] == m.stack;
  }

  lemma NoGroupFresh(d: Doc, m: Marks)
    requires !d.Group? && Fresh(Groups(d), m)
    ensures Fresh(GroupsAll(Children(d), d), Enter(d, m).0)
  {
    assert Groups(d) == GroupsAll(Children(d), d);
  }

  lemma NilAfter(m: Marks)
    ensures After(m, Elems(Groups(Nil)), Broken(Nil, m.brk), HasBreak(Nil, m.brk)) == m
  {
    assert Children(Nil) == [];
  }

  lemma LeafAfter(d: Doc, m: Marks)
    requires !d.Group?
    ensures var m' := Enter(d, m).0;
            After(m', Elems(GroupsAll(Children(d), d)), BrokenAll(Children(d), m'.brk, d),
                  AnyBreak(Children(d), m'.brk, d))
            == After(m, Elems(Groups(d)), Broken(d, m.brk), HasBreak(d, m.brk))
  {
    GroupsSplit(d);
  }

  lemma FreshInside(d: Doc, m: Marks)
    requires d.Group? && Fresh(Groups(d), m)
    ensures d.node !in m.visited && d.node !in Elems(GroupsAll(Children(d), d))
    ensures Fresh(GroupsAll(Children(d), d), Marks(m.visited + {d.node}, m.stack + [d.node], m.brk))
  {
    OnceGroup(d);
    assert d.node in Elems(Groups(d));
    ElemsConcat(m.stack, [d.node]);
  }

  lemma {:induction false} TraverseMarksAll(ds: seq<Doc>, m: Marks, parent: Doc)
    requires forall i :: 0 <= i < |ds| ==> ds[i] < parent
    requires Fresh(GroupsAll(ds, parent), m)
    ensures TraverseAll(ds, m, parent)
         == After(m, Elems(GroupsAll(ds, parent)), BrokenAll(ds, m.brk, parent), AnyBreak(ds, m.brk, parent))
    decreases parent, 0, |ds|
  {
    hide After, Fresh, Traverse, HasBreak, Broken, Groups, Once, Elems, Top;
    if ds == [] {
      AfterNothing(m);
    } else {
      FreshFirst(ds, m, parent);
      TraverseMarks(ds[0], m);
      BrokenInside(ds[0], m.brk);
      FreshRest(ds, m, parent, Broken(ds[0], m.brk), HasBreak(ds[0], m.brk));
      var m1 := Traverse(ds[0], m);
      BreakDependsAll(ds[1..], m.brk, m1.brk, parent);
      TraverseMarksAll(ds[1..], m1, parent);
      AfterTwice(m, Elems(Groups(ds[0])), Broken(ds[0], m.brk), HasBreak(ds[0], m.brk),
                 Elems(GroupsAll(ds[1..], parent)), BrokenAll(ds[1..], m.brk, parent),
                 AnyBreak(ds[1..], m.brk, parent));
    }
  }

  lemma AfterNothing(m: Marks)
    ensures After(m, Elems([]), {}, false) == m
  {
  }

  lemma AfterTwice(m: Marks, g1: set<nat>, b1: set<nat>, a1: bool, g2: set<nat>, b2: set<nat>, a2: bool)
    ensures After(After(m, g1, b1, a1), g2, b2, a2) == After(m, g1 + g2, b1 + b2, a1 || a2)
  {
  }

  lemma FreshFirst(ds: seq<Doc>, m: Marks, parent: Doc)
    requires forall i :: 0 <= i < |ds| ==> ds[i] < parent
    requires ds != [] && Fresh(GroupsAll(ds, parent), m)
    ensures Fresh(Groups(ds[0]), m)
    ensures Elems(GroupsAll(ds, parent)) == Elems(Groups(ds[0])) + Elems(GroupsAll(ds[1..], parent))
  {
    OnceFirst(ds, parent);
  }

  lemma FreshRest(ds: seq<Doc>, m: Marks, parent: Doc, broken: set<nat>, any: bool)
    requires forall i :: 0 <= i < |ds| ==> ds[i] < parent
    requires ds != [] && Fresh(GroupsAll(ds, parent), m) && broken <= Elems(Groups(ds[0]))
    ensures var m1 := After(m, Elems(Groups(ds[0])), broken, any);
            && Fresh(GroupsAll(ds[1..], parent), m1)
            && Agree(Elems(GroupsAll(ds[1..], parent)), m.brk, m1.brk)
  {
    OnceFirst(ds, parent);
    TopOutside(GroupsAll(ds, parent), m);
  }

  lemma TopOutside(gs: seq<nat>, m: Marks)
    requires Fresh(gs, m)
    ensures Top(m) !! Elems(gs)
  {
    if m.stack != [] {
      assert m.stack[|m.stack| - 1] in Elems(m.stack);
    }
  }

  // ----- the results -----

  /** On a document that reaches no group twice, a group comes out broken exactly when it was
      broken or there is a break inside it. */
  lemma PropagateMarks(d: Doc, brk: set<nat>)
    requires Once(Groups(d))
    ensures Propagate(d, brk) == brk + Broken(d, brk)
  {
    TraverseMarks(d, Marks({}, [], brk));
  }

  lemma {:induction false} BrokenPart(s: Doc, d: Doc, brk: set<nat>)
    requires Once(Groups(d)) && s.Group? && PartOf(s, d)
    ensures s.node in Elems(Groups(d)) && (s.node in Broken(d, brk) <==> HasBreak(s, brk))
    decreases d, 1
  {
    hide Once, Elems;
    OnceGroup(d);
    if s == d {
      BrokenInsideAll(Children(d), brk, d);
    } else {
      BrokenPartAll(s, Children(d), d, brk);
    }
  }

  lemma {:induction false} BrokenPartAll(s: Doc, ds: seq<Doc>, parent: Doc, brk: set<nat>)
    requires forall i :: 0 <= i < |ds| ==> ds[i] < parent
    requires Once(GroupsAll(ds, parent)) && s.Group? && PartOfAny(s, ds, parent)
    ensures s.node in Elems(GroupsAll(ds, parent)) && (s.node in BrokenAll(ds, brk, parent) <==> HasBreak(s, brk))
    decreases parent, 0, |ds|
  {
    hide Once, Elems, HasBreak, Broken, Groups, PartOf;
    OnceFirst(ds, parent);
    BrokenInside(ds[0], brk);
    BrokenInsideAll(ds[1..], brk, parent);
    if PartOf(s, ds[0]) {
      BrokenPart(s, ds[0], brk);
    } else {
      BrokenPartAll(s, ds[1..], parent, brk);
    }
  }

  lemma PropagateExact(d: Doc, brk: set<nat>)
    requires Once(Groups(d))
    ensures forall s: Doc :: s.Group? && PartOf(s, d) ==> (s.node in Propagate(d, brk) <==> HasBreak(s, brk))
    ensures forall g :: g !in Groups(d) ==> (g in Propagate(d, brk) <==> g in brk)
  {
    PropagateMarks(d, brk);
    BrokenInside(d, brk);
    forall s: Doc | s.Group? && PartOf(s, d) ensures s.node in Propagate(d, brk) <==> HasBreak(s, brk) {
      BrokenPart(s, d, brk);
    }
  }

  /** A second pass changes nothing. */
  lemma PropagateTwice(d: Doc, brk: set<nat>)
    requires Once(Groups(d))
    ensures Propagate(d, Propagate(d, brk)) == Propagate(d, brk)
  {
    PropagateMarks(d, brk);
    PropagateMarks(d, Propagate(d, brk));
    Settled(d, brk, Propagate(d, brk));
  }

  /** Groups found broken add no breaks. */
  lemma {:induction false} Settled(d: Doc, brk: set<nat>, after: set<nat>)
    requires Once(Groups(d)) && Agree(Elems(Groups(d)), after, brk + Broken(d, brk))
    ensures HasBreak(d, after) == HasBreak(d, brk) && Broken(d, after) == Broken(d, brk)
    decreases d, 1
  {
    hide Once, Elems, Agree;
    OnceGroup(d);
    BrokenInsideAll(Children(d), brk, d);
    var own := if d.Group? && HasBreak(d, brk) then {d.node} else {};
    AgreeSplit(Elems(Groups(d)), Elems(GroupsAll(Children(d), d)), after, brk, own, BrokenAll(Children(d), brk, d));
    SettledAll(Children(d), brk, after, d);
    if d.Group? {
      AgreeAt(Elems(Groups(d)), d.node, after, brk + Broken(d, brk));
    }
  }

  lemma AgreeAt(gs: set<nat>, g: nat, b: set<nat>, c: set<nat>)
    requires Agree(gs, b, c) && g in gs
    ensures g in b <==> g in c
  {
    assert g in gs * b <==> g in gs * c;
  }

  /** What is outside part can be dropped. */
  lemma AgreeSplit(gs: set<nat>, part: set<nat>, after: set<nat>, brk: set<nat>, outside: set<nat>, inside: set<nat>)
    requires Agree(gs, after, brk + (outside + inside)) && part <= gs && outside !! part
    ensures Agree(part, after, brk + inside)
  {
    forall g | g in part ensures g in after <==> g in brk + inside {
      AgreeAt(gs, g, after, brk + (outside + inside));
    }
  }

  lemma {:induction false} SettledAll(ds: seq<Doc>, brk: set<nat>, after: set<nat>, parent: Doc)
    requires forall i :: 0 <= i < |ds| ==> ds[i] < parent
    requires Once(GroupsAll(ds, parent))
    requires Agree(Elems(GroupsAll(ds, parent)), after, brk + BrokenAll(ds, brk, parent))
    ensures AnyBreak(ds, after, parent) == AnyBreak(ds, brk, parent)
    ensures BrokenAll(ds, after, parent) == BrokenAll(ds, brk, parent)
    decreases parent, 0, |ds|
  {
    hide Once, Elems, Agree, HasBreak, Broken, Groups;
    if ds != [] {
      OnceFirst(ds, parent);
      BrokenInside(ds[0], brk);
      BrokenInsideAll(ds[1..], brk, parent);
      var gs, first, rest := Elems(GroupsAll(ds, parent)), Broken(ds[0], brk), BrokenAll(ds[1..], brk, parent);
      assert first + rest == rest + first;
      AgreeSplit(gs, Elems(Groups(ds[0])), after, brk, rest, first);
      AgreeSplit(gs, Elems(GroupsAll(ds[1..], parent)), after, brk, first, rest);
      Settled(ds[0], brk, after);
      SettledAll(ds[1..], brk, after, parent);
    }
  }

  lemma TraverseSteps(d: Doc, ds: seq<Doc>, m: Marks, parent: Doc)
    requires forall i :: 0 <= i < |ds| ==> ds[i] < parent
    requires d < parent
    ensures TraverseAll([d] + ds, m, parent) == TraverseAll(ds, Traverse(d, m), parent)
  {
    assert ([d] + ds)[1..] == ds;
  }

  /** A document that reaches a group twice. */
  const TWICE := Group(1, 0, Text("a"), [])

  // ----- exactly when propagation is exact -----

  /** None of the groups has been visited, and none is reached twice. */
  ghost predicate Unseen(gs: seq<nat>, visited: set<nat>) {
    Once(gs) && Elems(gs) !! visited
  }

  lemma UnseenConcat(a: seq<nat>, b: seq<nat>, visited: set<nat>)
    ensures Unseen(a + b, visited) <==> Unseen(a, visited) && Unseen(b, visited + Elems(a))
  {
    ElemsConcat(a, b);
    if Unseen(a + b, visited) {
      OnceSplits(a, b);
    }
    if Unseen(a, visited) && Unseen(b, visited + Elems(a)) {
      OnceJoins(a, b);
    }
  }

  lemma OnceJoins(a: seq<nat>, b: seq<nat>)
    requires Once(a) && Once(b) && Elems(a) !! Elems(b)
    ensures Once(a + b)
  {
    forall i, j | 0 <= i < j < |a + b| ensures (a + b)[i] != (a + b)[j] {
      if i < |a| <= j {
        assert a[i] in Elems(a) && b[j - |a|] in Elems(b);
      }
    }
  }

  lemma UnseenOne(g: nat, visited: set<nat>)
    ensures Unseen([g], visited) <==> g !in visited
    ensures Elems([g]) == {g} && Elems([]) == {} && Unseen([], visited)
  {
    assert [g][0] == g;
  }

  /** The traversal leaves the stack as it found it if it meets each group for the first time, and
      otherwise with groups of d left on top. */
  ghost predicate Balanced(gs: seq<nat>, m: Marks, r: Marks) {
    && m.stack <= r.stack && (forall i :: |m.stack| <= i < |r.stack| ==> r.stack[i] in gs)
    && (forall g :: g in r.brk ==> g in m.brk || g in gs || g in Top(m))
    && (Unseen(gs, m.visited) ==> r.stack == m.stack && r.visited == m.visited + Elems(gs))
    && (!Unseen(gs, m.visited) ==> |r.stack| > |m.stack|)
  }

  lemma BalancedNothing(m: Marks)
    ensures Balanced([], m, m)
  {
  }

  lemma BalancedTop(m: Marks)
    ensures Balanced([], m, BreakTop(m))
  {
  }

  lemma BalancedTwice(a: seq<nat>, b: seq<nat>, m: Marks, r: Marks, s: Marks)
    requires Balanced(a, m, r) && Balanced(b, r, s)
    ensures Balanced(a + b, m, s)
  {
    hide Unseen;
    UnseenConcat(a, b, m.visited);
  }

  lemma BalancedRevisit(g: nat, rest: seq<nat>, m: Marks)
    requires g in m.visited
    ensures Balanced([g] + rest, m, m.(stack := m.stack + [g]))
  {
    assert ([g] + rest)[0] == g;
  }

  /** The exit pops one group; that is the group entered if nothing was left above it. */
  lemma BalancedExit(d: Doc, rest: seq<nat>, m: Marks, r: Marks)
    requires d.Group? && d.node !in m.visited
    requires Balanced(rest, m.(visited := m.visited + {d.node}, stack := m.stack + [d.node]), r)
    ensures r.stack != [] && Balanced([d.node] + rest, m, Exit(d, r))
  {
    hide Unseen;
    UnseenConcat([d.node], rest, m.visited);
    UnseenOne(d.node, m.visited);
    var entered := m.stack + [d.node];
    assert entered <= r.stack && entered[|m.stack|] == d.node;
    assert r.stack[..|r.stack| - 1][..|m.stack|] == m.stack;
  }

  lemma {:induction false} StackKept(d: Doc, m: Marks)
    ensures Balanced(Groups(d), m, Traverse(d, m))
    decreases d, 1
  {
    hide Balanced, TraverseAll, GroupsAll;
    var ds := Children(d);
    match d
    case Nil =>
      BalancedNothing(m);
      NoGroups(d);
    case Group(g, _, _, _) =>
      if g in m.visited {
        BalancedRevisit(g, GroupsAll(ds, d), m);
      } else {
        var entered := m.(visited := m.visited + {g}, stack := m.stack + [g]);
        StackKeptAll(ds, entered, d);
        BalancedExit(d, GroupsAll(ds, d), m, TraverseAll(ds, entered, d));
      }
    case BreakParent =>
      BalancedTop(m);
      NoGroups(d);
    case _ =>
      StackKeptAll(ds, m, d);
      assert Groups(d) == GroupsAll(ds, d);
  }

  lemma {:induction false} StackKeptAll(ds: seq<Doc>, m: Marks, parent: Doc)
    requires forall i :: 0 <= i < |ds| ==> ds[i] < parent
    ensures Balanced(GroupsAll(ds, parent), m, TraverseAll(ds, m, parent))
    decreases parent, 0, |ds|
  {
    hide Balanced, Traverse, Groups;
    if ds == [] {
      BalancedNothing(m);
    } else {
      StackKept(ds[0], m);
      StackKeptAll(ds[1..], Traverse(ds[0], m), parent);
      BalancedTwice(Groups(ds[0]), GroupsAll(ds[1..], parent), m, Traverse(ds[0], m), TraverseAll(ds, m, parent));
    }
  }

  lemma NoGroups(d: Doc)
    requires d.Nil? || d.BreakParent?
    ensures Groups(d) == [] && forall m :: TraverseAll(Children(d), m, d) == m
  {
  }

  /** The group stack comes back as it was if and only if no group is reached twice. */
  lemma StackRestoredExactly(d: Doc, st: seq<nat>, brk: set<nat>)
    ensures Traverse(d, Marks({}, st, brk)).stack == st <==> Once(Groups(d))
  {
    StackKept(d, Marks({}, st, brk));
  }

  /** d with a break behind it, in two groups. */
  function Around(outer: nat, inner: nat, d: Doc): Doc {
    Group(outer, 0, Group(inner, 0, Concat([d, BreakParent]), []), [])
  }

  lemma TraverseOne(d: Doc, m: Marks, parent: Doc)
    requires d < parent
    ensures TraverseAll([d], m, parent) == Traverse(d, m)
  {
    assert [d][1..] == [];
  }

  lemma AroundGroups(outer: nat, inner: nat, d: Doc, brk: set<nat>)
    ensures Groups(Around(outer, inner, d)) == [outer] + ([inner] + Groups(d))
    ensures HasBreak(Around(outer, inner, d), brk)
  {
    hide Groups, HasBreak;
    var body := Concat([d, BreakParent]);
    var g := Group(inner, 0, body, []);
    NoGroups(BreakParent);
    assert HasBreak(BreakParent, brk) by {
      BreakBreaks(brk);
    }
    TwoGroups(d, BreakParent, body, brk);
    OneGroup(g, body, brk);
    OneGroup(Around(outer, inner, d), g, brk);
  }

  lemma BreakBreaks(brk: set<nat>)
    ensures HasBreak(BreakParent, brk)
  {
  }

  lemma TwoGroups(a: Doc, b: Doc, body: Doc, brk: set<nat>)
    requires body == Concat([a, b])
    ensures Groups(body) == Groups(a) + Groups(b)
    ensures HasBreak(b, brk) ==> HasBreak(body, brk)
  {
    hide Groups, HasBreak;
    assert Children(body) == [a, b] && Children(body)[0] < body && Children(body)[1] < body;
    MoreGroups([a, b], body, brk);
    MoreGroups([b], body, brk);
    assert [a, b][1..] == [b] && [b][1..] == [];
    GroupsOfConcat(body, brk);
    assert GroupsAll([], body) == [];
  }

  lemma MoreGroups(ds: seq<Doc>, parent: Doc, brk: set<nat>)
    requires (forall i :: 0 <= i < |ds| ==> ds[i] < parent) && ds != []
    ensures GroupsAll(ds, parent) == Groups(ds[0]) + GroupsAll(ds[1..], parent)
    ensures AnyBreak(ds, brk, parent) <==> HasBreak(ds[0], brk) || AnyBreak(ds[1..], brk, parent)
  {
  }

  lemma GroupsOfConcat(d: Doc, brk: set<nat>)
    requires d.Concat?
    ensures Groups(d) == GroupsAll(d.parts, d) && HasBreak(d, brk) == AnyBreak(d.parts, brk, d)
  {
  }

  lemma OneGroup(g: Doc, body: Doc, brk: set<nat>)
    requires g.Group? && g.expanded == [] && g.doc == body
    ensures Groups(g) == [g.node] + Groups(body)
    ensures HasBreak(body, brk) ==> HasBreak(g, brk)
  {
    assert Children(g) == [body] && [body][1..] == [];
    assert GroupsAll([body], g) == Groups(body) + GroupsAll([], g);
    assert AnyBreak([body], brk, g) == (HasBreak(body, brk) || AnyBreak([], brk, g));
  }

  /** What propagation does around d: d, the break, and the two exits. */
  lemma AroundSteps(outer: nat, inner: nat, d: Doc, brk: set<nat>)
    requires outer != inner
    ensures var a := Around(outer, inner, d);
            var r := BreakTop(Traverse(d, Marks({outer, inner}, [outer, inner], brk)));
            && |r.stack| >= 2 && (Exit(a.doc, r)).stack != []
            && Propagate(a, brk) == Exit(a, Exit(a.doc, r)).brk
  {
    hide Traverse, TraverseAll, Exit;
    var a := Around(outer, inner, d);
    var g := a.doc;
    var body := g.doc;
    assert Children(a) == [g] && Children(g) == [body] && Children(body) == [d, BreakParent];
    assert Children(body)[0] < body && Children(body)[1] < body;
    var m0, m1, m2 := Marks({}, [], brk), Marks({outer}, [outer], brk), Marks({outer, inner}, [outer, inner], brk);
    assert [] + [outer] == [outer] && [outer] + [inner] == [outer, inner];
    assert {} + {outer} == {outer} && {outer} + {inner} == {outer, inner};
    StepInto(a, g, m0, m1);
    StepInto(g, body, m1, m2);
    StepBody(d, body, m2);
    ExitShrinks(g, BreakTop(Traverse(d, m2)));
  }

  lemma ExitShrinks(g: Doc, m: Marks)
    requires g.Group? && |m.stack| >= 2
    ensures |Exit(g, m).stack| == |m.stack| - 1
  {
  }

  lemma StepInto(g: Doc, body: Doc, m: Marks, entered: Marks)
    requires g.Group? && g.expanded == [] && g.doc == body && g.node !in m.visited
    requires entered == m.(visited := m.visited + {g.node}, stack := m.stack + [g.node])
    ensures Traverse(body, entered).stack != [] && Traverse(g, m) == Exit(g, Traverse(body, entered))
  {
    assert Children(g) == [body];
    TraverseOne(body, entered, g);
  }

  lemma StepBody(d: Doc, body: Doc, m: Marks)
    requires body == Concat([d, BreakParent])
    ensures Traverse(body, m) == BreakTop(Traverse(d, m))
  {
    hide Traverse, TraverseAll;
    assert Children(body) == [d, BreakParent] && Children(body)[0] < body && Children(body)[1] < body;
    assert [d] + [BreakParent] == [d, BreakParent];
    TraverseSteps(d, [BreakParent], m, body);
    TraverseOne(BreakParent, Traverse(d, m), body);
    TraverseLeaf(body, m);
    TraverseLeaf(BreakParent, Traverse(d, m));
    NoGroups(BreakParent);
  }

  lemma TraverseLeaf(d: Doc, m: Marks)
    requires d.Concat? || d.BreakParent?
    ensures Traverse(d, m) == TraverseAll(Children(d), Enter(d, m).0, d)
  {
    hide TraverseAll;
  }

  /** Put any document in two groups with a break behind it: the outer group comes out broken, as it
      should, if and only if the document reaches no group twice. */
  lemma BrokenAroundExactly(outer: nat, inner: nat, d: Doc, brk: set<nat>)
    requires outer != inner && outer !in Groups(d) && inner !in Groups(d) && outer !in brk && inner !in brk
    ensures outer in Propagate(Around(outer, inner, d), brk) <==> Once(Groups(d))
  {
    hide Traverse, Groups, Once;
    var m := Marks({outer, inner}, [outer, inner], brk);
    var a := Around(outer, inner, d);
    var t := Traverse(d, m);
    var r := BreakTop(t);
    AroundSteps(outer, inner, d, brk);
    StackKept(d, m);
    assert Unseen(Groups(d), m.visited) <==> Once(Groups(d));
    assert Top(m) == {inner};
    assert t.stack[0] == m.stack[0] && t.stack[1] == m.stack[1];
  }

  /** Every group in the document broken exactly when it was broken or holds a break. */
  ghost predicate PropagatesExactly(d: Doc, brk: set<nat>) {
    forall s: Doc :: s.Group? && PartOf(s, d) ==> (s.node in Propagate(d, brk) <==> HasBreak(s, brk))
  }

  /** The exact condition: propagation is exact around d if and only if d reaches no group twice. */
  lemma ExactAround(outer: nat, inner: nat, d: Doc, brk: set<nat>)
    requires outer != inner && outer !in Groups(d) && inner !in Groups(d) && outer !in brk && inner !in brk
    ensures PropagatesExactly(Around(outer, inner, d), brk) <==> Once(Groups(d))
  {
    hide Propagate, Groups, HasBreak;
    var a := Around(outer, inner, d);
    AroundGroups(outer, inner, d, brk);
    BrokenAroundExactly(outer, inner, d, brk);
    if Once(Groups(d)) {
      UnseenConcat([inner], Groups(d), {});
      UnseenConcat([outer], [inner] + Groups(d), {});
      UnseenOne(inner, {});
      UnseenOne(outer, {});
      ElemsConcat([inner], Groups(d));
      PropagateExact(a, brk);
    } else {
      assert PartOf(a, a);
    }
  }

  /** A group reached again is pushed but not popped, so the BreakParent after it breaks that group,
      which has no break inside. */
  lemma RevisitedGroup()
    ensures 1 in Propagate(Concat([TWICE, TWICE, BreakParent]), {}) && !HasBreak(TWICE, {})
  {
    hide Traverse, TraverseAll, HasBreak;
    var d := Concat([TWICE, TWICE, BreakParent]);
    var m0, m1, m2 := Marks({}, [], {}), Marks({1}, [], {}), Marks({1}, [1], {});
    assert Children(d) == d.parts && d.parts[0] < d && d.parts[2] < d;
    TextGroup(m0);
    TextGroup(m1);
    TraverseSteps(TWICE, [TWICE, BreakParent], m0, d);
    TraverseSteps(TWICE, [BreakParent], m1, d);
    TraverseSteps(BreakParent, [], m2, d);
    LastSteps(d, m2);
    assert [TWICE] + [TWICE, BreakParent] == d.parts;
    assert [TWICE] + [BreakParent] == [TWICE, BreakParent] && [BreakParent] + [] == [BreakParent];
  }

  lemma TextGroup(m: Marks)
    requires m.stack == [] && m.brk == {} && m.visited <= {1}
    ensures Traverse(TWICE, m) == if 1 in m.visited then Marks({1}, [1], {}) else Marks({1}, [], {})
    ensures !HasBreak(TWICE, {})
  {
    var inner := Marks({1}, [1], {});
    assert Children(TWICE) == [Text("a")] && Children(Text("a")) == [];
    assert Traverse(Text("a"), inner) == inner;
    assert TraverseAll([Text("a")], inner, TWICE) == inner;
    assert !HasBreak(Text("a"), {});
  }

  lemma LastSteps(d: Doc, m: Marks)
    requires d.Concat? && d.parts == [TWICE, TWICE, BreakParent] && m == Marks({1}, [1], {})
    ensures Traverse(BreakParent, m) == Marks({1}, [1], {1})
    ensures TraverseAll([], Marks({1}, [1], {1}), d) == Marks({1}, [1], {1})
    ensures Propagate(d, {}) == TraverseAll(d.parts, Marks({}, [], {}), d).brk
  {
    assert Children(BreakParent) == [];
  }

  // ----- the traversal in place -----

  /** The variables that the enter and exit closures update. */
  class BreakPass {
    var visited: set<nat>
    var stack: seq<nat>
    var brk: set<nat>

    constructor (broken: set<nat>)
      ensures State() == Marks({}, [], broken)
    {
      visited, stack, brk := {}, [], broken;
    }

    function State(): Marks
      reads this
    {
      Marks(visited, stack, brk)
    }

    method BreakParentGroup()
      modifies this`brk
      ensures State() == BreakTop(old(State()))
    {
      if |stack| > 0 {
        brk := brk + {stack[|stack| - 1]};
      }
    }

    method EnterDoc(d: Doc) returns (go: bool)
      modifies this
      ensures (State(), go) == Enter(d, old(State()))
    {
      match d
      case BreakParent =>
        BreakParentGroup();
        go := true;
      case Group(g, _, _, _) =>
        stack := stack + [g];
        go := g !in visited;
        if go {
          visited := visited + {g};
        }
      case _ =>
        go := true;
    }

    method ExitDoc(d: Doc)
      requires d.Group? ==> stack != []
      modifies this
      ensures State() == Exit(d, old(State()))
    {
      if d.Group? {
        stack := stack[..|stack| - 1];
        if d.node in brk {
          BreakParentGroup();
        }
      }
    }

    method Visit(d: Doc)
      modifies this
      ensures State() == Traverse(d, old(State()))
      decreases d
    {
      if d.Nil? {
        return;
      }
      var go := EnterDoc(d);
      if !go {
        return;
      }
      ghost var entered := State();
      var parts := Children(d);
      for i := 0 to |parts|
        invariant TraverseAll(parts[i..], State(), d) == TraverseAll(parts, entered, d)
      {
        Visit(parts[i]);
        assert parts[i..][1..] == parts[i + 1..];
      }
      ExitDoc(d);
    }
  }

  method PropagateBreaks(d: Doc, broken: set<nat>) returns (brk: set<nat>)
    ensures brk == Propagate(d, broken)
    ensures Once(Groups(d)) ==>
              forall s: Doc :: s.Group? && PartOf(s, d) ==> (s.node in brk <==> HasBreak(s, broken))
  {
    var pass := new BreakPass(broken);
    pass.Visit(d);
    brk := pass.brk;
    if Once(Groups(d)) {
      PropagateExact(d, broken);
    }
  }
}
