/** Which documents can print two spaces in a row: a condition on the document, before it is printed. */
module Spacing {
  import opened Doc
  import opened PrintMachine

  /** The most spaces that can be pending since the last text, and whether no text so far could
      follow two of them. */
  datatype Gap = Gap(spaces: nat, single: bool)

  const NO_GAP := Gap(0, true)

  function Wider(g: Gap, h: Gap): Gap {
    Gap(if g.spaces >= h.spaces then g.spaces else h.spaces, g.single && h.single)
  }

  /** The gap behind d printed in mode m, behind gap g. A group met in break mode is printed flat,
      measured from where it starts, or broken. */
  function Behind(brk: set<nat>, d: Doc, m: Mode, g: Gap): Gap
    decreases d, 1
  {
    match d
    case Text(s) => if s == "" then g else Gap(0, g.single && g.spaces <= 1)
    case LineDoc(line) =>
      if m == Break || line.hard then Gap(0, g.single) else if line.soft then g else g.(spaces := g.spaces + 1)
    case Concat(parts) => BehindAll(brk, parts, m, g, d)
    case Indent(doc) => Behind(brk, doc, m, g)
    case Align(_, doc) => Behind(brk, doc, m, g)
    case Group(node, _, doc, _) =>
      if m == Flat then Behind(brk, doc, Flat, g)
      else if node in brk then Behind(brk, doc, Break, g)
      else Wider(Behind(brk, doc, Flat, Gap(0, g.single)), Behind(brk, doc, Break, g))
    case IfBreak(broken, flat, _) => if m == Break then Behind(brk, broken, m, g) else Behind(brk, flat, m, g)
    case _ => g
  }

  function BehindAll(brk: set<nat>, ds: seq<Doc>, m: Mode, g: Gap, parent: Doc): Gap
    requires forall i :: 0 <= i < |ds| ==> ds[i] < parent
    decreases parent, 0, |ds|
  {
    if ds == [] then g else BehindAll(brk, ds[1..], m, Behind(brk, ds[0], m, g), parent)
  }

  /** No text of d can follow two spaces on a line that starts with a group kept flat. */
  predicate WellSpaced(d: Doc, brk: set<nat>) {
    Behind(brk, d, Break, NO_GAP).single
  }

  /** The gap behind a work list. */
  function BehindList(brk: set<nat>, cs: seq<Command>, g: Gap): Gap {
    if cs == [] then g else BehindList(brk, cs[1..], Behind(brk, cs[0].doc, cs[0].mode, g))
  }

  // ----- a wider gap in front is no narrower behind -----

  predicate Within(g: Gap, h: Gap) {
    g.spaces <= h.spaces && (h.single ==> g.single)
  }

  lemma {:induction false} BehindWidens(brk: set<nat>, d: Doc, m: Mode, g: Gap, h: Gap)
    requires Within(g, h)
    ensures Within(Behind(brk, d, m, g), Behind(brk, d, m, h))
    decreases d, 1
  {
    match d
    case Concat(parts) => BehindAllWidens(brk, parts, m, g, h, d);
    case Indent(doc) => BehindWidens(brk, doc, m, g, h);
    case Align(_, doc) => BehindWidens(brk, doc, m, g, h);
    case Group(_, _, doc, _) =>
      BehindWidens(brk, doc, m, g, h);
      BehindWidens(brk, doc, Flat, Gap(0, g.single), Gap(0, h.single));
    case IfBreak(broken, flat, _) =>
      BehindWidens(brk, broken, m, g, h);
      BehindWidens(brk, flat, m, g, h);
    case _ =>
  }

  lemma {:induction false} BehindAllWidens(brk: set<nat>, ds: seq<Doc>, m: Mode, g: Gap, h: Gap, parent: Doc)
    requires forall i :: 0 <= i < |ds| ==> ds[i] < parent
    requires Within(g, h)
    ensures Within(BehindAll(brk, ds, m, g, parent), BehindAll(brk, ds, m, h, parent))
    decreases parent, 0, |ds|
  {
    hide Behind;
    if ds != [] {
      BehindWidens(brk, ds[0], m, g, h);
      BehindAllWidens(brk, ds[1..], m, Behind(brk, ds[0], m, g), Behind(brk, ds[0], m, h), parent);
    }
  }

  lemma {:induction false} BehindListWidens(brk: set<nat>, cs: seq<Command>, g: Gap, h: Gap)
    requires Within(g, h)
    ensures Within(BehindList(brk, cs, g), BehindList(brk, cs, h))
    decreases |cs|
  {
    hide Behind;
    if cs != [] {
      BehindWidens(brk, cs[0].doc, cs[0].mode, g, h);
      BehindListWidens(brk, cs[1..], Behind(brk, cs[0].doc, cs[0].mode, g), Behind(brk, cs[0].doc, cs[0].mode, h));
    }
  }

  // ----- a second space in front of a text is never forgotten -----

  lemma {:induction false} StaysDoubled(brk: set<nat>, d: Doc, m: Mode, g: Gap)
    requires !g.single
    ensures !Behind(brk, d, m, g).single
    decreases d, 1
  {
    match d
    case Concat(parts) => AllStayDoubled(brk, parts, m, g, d);
    case Indent(doc) => StaysDoubled(brk, doc, m, g);
    case Align(_, doc) => StaysDoubled(brk, doc, m, g);
    case Group(_, _, doc, _) => StaysDoubled(brk, doc, m, g);
    case IfBreak(broken, flat, _) => StaysDoubled(brk, if m == Break then broken else flat, m, g);
    case _ =>
  }

  lemma {:induction false} AllStayDoubled(brk: set<nat>, ds: seq<Doc>, m: Mode, g: Gap, parent: Doc)
    requires forall i :: 0 <= i < |ds| ==> ds[i] < parent
    requires !g.single
    ensures !BehindAll(brk, ds, m, g, parent).single
    decreases parent, 0, |ds|
  {
    hide Behind;
    if ds != [] {
      StaysDoubled(brk, ds[0], m, g);
      AllStayDoubled(brk, ds[1..], m, Behind(brk, ds[0], m, g), parent);
    }
  }

  lemma {:induction false} ListStaysDoubled(brk: set<nat>, cs: seq<Command>, g: Gap)
    requires !g.single
    ensures !BehindList(brk, cs, g).single
    decreases |cs|
  {
    hide Behind;
    if cs != [] {
      StaysDoubled(brk, cs[0].doc, cs[0].mode, g);
      ListStaysDoubled(brk, cs[1..], Behind(brk, cs[0].doc, cs[0].mode, g));
    }
  }

  // ----- work lists -----

  lemma {:induction false} BehindConcat(brk: set<nat>, a: seq<Command>, b: seq<Command>, g: Gap)
    ensures BehindList(brk, a + b, g) == BehindList(brk, b, BehindList(brk, a, g))
    decreases |a|
  {
    hide Behind;
    if a == [] {
      assert a + b == b;
    } else {
      assert (a + b)[1..] == a[1..] + b;
      BehindConcat(brk, a[1..], b, Behind(brk, a[0].doc, a[0].mode, g));
    }
  }

  lemma {:induction false} BehindEach(brk: set<nat>, ds: seq<Doc>, i: Indentation, m: Mode, g: Gap, parent: Doc)
    requires forall i :: 0 <= i < |ds| ==> ds[i] < parent
    ensures BehindList(brk, Each(ds, i, m), g) == BehindAll(brk, ds, m, g, parent)
    decreases |ds|
  {
    hide Behind;
    if ds != [] {
      assert Each(ds, i, m)[1..] == Each(ds[1..], i, m);
      BehindEach(brk, ds[1..], i, m, Behind(brk, ds[0], m, g), parent);
    }
  }

  lemma BehindOne(brk: set<nat>, c: Command, g: Gap)
    ensures BehindList(brk, [c], g) == Behind(brk, c.doc, c.mode, g)
  {
    hide Behind;
    assert [c][1..] == [];
  }

  // ----- a step of the printer -----

  /** With k spaces pending no text on the work list can follow two spaces. */
  predicate Spaced(brk: set<nat>, cs: seq<Command>, k: nat) {
    BehindList(brk, cs, Gap(k, true)).single
  }

  lemma SpacedLess(brk: set<nat>, cs: seq<Command>, k: nat, l: nat)
    requires Spaced(brk, cs, k) && l <= k
    ensures Spaced(brk, cs, l)
  {
    BehindListWidens(brk, cs, Gap(l, true), Gap(k, true));
  }

  /** What replaces the top command leaves no wider gap behind. */
  lemma SpacedReplaced(brk: set<nat>, top: Command, more: seq<Command>, rest: seq<Command>, k: nat, l: nat)
    requires Spaced(brk, [top] + rest, k)
    requires Within(BehindList(brk, more, Gap(l, true)), Behind(brk, top.doc, top.mode, Gap(k, true)))
    ensures Spaced(brk, more + rest, l)
  {
    hide Behind;
    BehindConcat(brk, [top], rest, Gap(k, true));
    BehindOne(brk, top, Gap(k, true));
    BehindConcat(brk, more, rest, Gap(l, true));
    BehindListWidens(brk, rest, BehindList(brk, more, Gap(l, true)), Behind(brk, top.doc, top.mode, Gap(k, true)));
  }

  /** A text on top follows at most one space. */
  lemma TextFollowsOne(brk: set<nat>, cs: seq<Command>, k: nat)
    requires Spaced(brk, cs, k) && cs != [] && cs[0].doc.Text? && cs[0].doc.s != ""
    ensures k <= 1
  {
    if k > 1 {
      ListStaysDoubled(brk, cs[1..], Gap(0, false));
    }
  }
}
