/** When exactly a document that is one unbroken group keeps to the print width. */
module FlatGroup {
  import opened Doc
  import opened Breaks
  import opened PrintMachine
  import opened PrintWidth
  import opened Spacing

  /** text printed flat so far, the length of the run of spaces it ends in, and the spaces of
      earlier runs beyond their first. */
  datatype Flatten = Flatten(text: string, spaces: nat, doubled: nat)

  const NOTHING := Flatten("", 0, 0)

  /** d printed on one line. */
  function OnOneLine(d: Doc, f: Flatten): Flatten
    decreases d, 1
  {
    match d
    case Text(s) => if s == "" then f else Flatten(f.text + s, 0, f.doubled + Beyond(f.spaces))
    case LineDoc(line) => if line.soft then f else Flatten(f.text + " ", f.spaces + 1, f.doubled)
    case Concat(parts) => AllOnOneLine(parts, f, d)
    case Indent(doc) => OnOneLine(doc, f)
    case Align(_, doc) => OnOneLine(doc, f)
    case Group(_, _, doc, _) => OnOneLine(doc, f)
    case IfBreak(_, flat, _) => if flat.Nil? then f else OnOneLine(flat, f)
    case _ => f
  }

  function AllOnOneLine(ds: seq<Doc>, f: Flatten, parent: Doc): Flatten
    requires forall i :: 0 <= i < |ds| ==> ds[i] < parent
    decreases parent, 0, |ds|
  {
    if ds == [] then f else AllOnOneLine(ds[1..], OnOneLine(ds[0], f), parent)
  }

  /** The width fits counts: every run of spaces once, and only in front of a text. */
  ghost function Counted(o: Options, f: Flatten): int {
    o.width(f.text) - f.spaces - f.doubled
  }

  /** d can be printed on one line. */
  ghost predicate Lineable(d: Doc, brk: set<nat>) {
    Simple(d) && Clean(d, brk)
  }

  lemma LineableChild(d: Doc, brk: set<nat>, k: nat)
    requires Lineable(d, brk) && k < |Children(d)| && !Children(d)[k].Nil?
    ensures Lineable(Children(d)[k], brk)
  {
    NoBreakMember(Children(d), brk, d, k);
    if d.Concat? {
      SimpleMember(d.parts, d, k);
      if HardLine(d.parts[k]) {
        BreakInConcat(d, brk);
      }
    }
  }

  ghost predicate AllLineable(ds: seq<Doc>, brk: set<nat>) {
    forall i :: 0 <= i < |ds| ==> Lineable(ds[i], brk)
  }

  lemma LineableParts(d: Doc, brk: set<nat>)
    requires Lineable(d, brk) && d.Concat?
    ensures AllLineable(d.parts, brk)
  {
    hide Lineable;
    forall i | 0 <= i < |d.parts| ensures Lineable(d.parts[i], brk) {
      PartNotNil(d, brk, i);
      LineableChild(d, brk, i);
    }
  }

  lemma PartNotNil(d: Doc, brk: set<nat>, i: nat)
    requires Lineable(d, brk) && d.Concat? && i < |d.parts|
    ensures !d.parts[i].Nil?
  {
    SimpleMember(d.parts, d, i);
  }

  // ----- the look-ahead counts every run of spaces once -----

  /** The look-ahead has width total left before it counted f. */
  ghost predicate Tracks(o: Options, total: int, a: Ahead, f: Flatten) {
    a.width == total - Counted(o, f) && (a.space <==> f.spaces > 0)
  }

  lemma CountedGrows(o: Options, f: Flatten, s: string)
    requires Measured(o)
    ensures Counted(o, Flatten(f.text + s, 0, f.doubled + Beyond(f.spaces)))
         == Counted(o, f) + (if f.spaces > 0 then 1 else 0) + o.width(s)
    ensures Counted(o, Flatten(f.text + " ", f.spaces + 1, f.doubled)) == Counted(o, f)
  {
  }

  lemma {:induction false} OnlyGrows(o: Options, d: Doc, f: Flatten)
    requires Measured(o)
    ensures Counted(o, OnOneLine(d, f)) >= Counted(o, f)
    decreases d, 1
  {
    hide Measured, Counted;
    match d
    case Text(s) => CountedGrows(o, f, s);
    case LineDoc(_) => CountedGrows(o, f, "");
    case Concat(parts) => AllOnlyGrow(o, parts, f, d);
    case Indent(doc) => OnlyGrows(o, doc, f);
    case Align(_, doc) => OnlyGrows(o, doc, f);
    case Group(_, _, doc, _) => OnlyGrows(o, doc, f);
    case IfBreak(_, flat, _) => OnlyGrows(o, flat, f);
    case _ =>
  }

  lemma {:induction false} AllOnlyGrow(o: Options, ds: seq<Doc>, f: Flatten, parent: Doc)
    requires forall i :: 0 <= i < |ds| ==> ds[i] < parent
    requires Measured(o)
    ensures Counted(o, AllOnOneLine(ds, f, parent)) >= Counted(o, f)
    decreases parent, 0, |ds|
  {
    hide Measured, Counted, OnOneLine;
    if ds != [] {
      OnlyGrows(o, ds[0], f);
      AllOnlyGrow(o, ds[1..], OnOneLine(ds[0], f), parent);
    }
  }

  /** fits on d in front of rest is fits on rest, with d counted. */
  lemma {:induction false} LookOver(o: Options, brk: set<nat>, gm: map<int, Mode>, total: int, a: Ahead,
                                    i: Indentation, d: Doc, rest: seq<Command>, f: Flatten) returns (a': Ahead)
    requires Measured(o) && Lineable(d, brk)
    requires a.stack == [Command(i, Flat, d)] + rest && Tracks(o, total, a, f)
    ensures a'.stack == rest && Tracks(o, total, a', OnOneLine(d, f))
    ensures LookAhead(o, brk, gm, a) == LookAhead(o, brk, gm, a')
    decreases d, 1
  {
    hide Measured, Lineable, Counted, Load, Weight;
    assert a.stack[1..] == rest;
    OnlyGrows(o, d, f);
    if a.width < 0 {
      a' := Ahead(rest, total - Counted(o, OnOneLine(d, f)), OnOneLine(d, f).spaces > 0, "", false);
      return;
    }
    var next := LookStep(o, brk, gm, a);
    LineableKinds(d, brk);
    assert next.More?;
    match d
    case Text(s) =>
      CountedGrows(o, f, s);
      a' := next.next;
      assert [] + rest == rest;
    case LineDoc(_) =>
      CountedGrows(o, f, "");
      a' := next.next;
      assert [] + rest == rest;
    case Concat(parts) =>
      LineableParts(d, brk);
      a' := LookOverAll(o, brk, gm, total, next.next, i, parts, rest, f, d);
    case Indent(doc) =>
      LineableChild(d, brk, 0);
      a' := LookOver(o, brk, gm, total, next.next, i, doc, rest, f);
    case Align(_, doc) =>
      LineableChild(d, brk, 0);
      a' := LookOver(o, brk, gm, total, next.next, i, doc, rest, f);
    case Group(_, _, doc, _) =>
      LineableChild(d, brk, 0);
      a' := LookOver(o, brk, gm, total, next.next, i, doc, rest, f);
    case IfBreak(_, flat, _) =>
      if flat.Nil? {
        a' := next.next;
        assert [] + rest == rest;
      } else {
        LineableChild(d, brk, 1);
        a' := LookOver(o, brk, gm, total, next.next, i, flat, rest, f);
      }
  }

  lemma LineableKinds(d: Doc, brk: set<nat>)
    requires Lineable(d, brk)
    ensures !d.Nil? && !d.Trim? && !d.LineSuffix? && !d.LineSuffixBoundary? && !HardLine(d) && !d.BreakParent?
    ensures d.Group? ==> d.node !in brk && d.expanded == [] && !d.doc.Nil?
    ensures d.IfBreak? ==> d.groupID == 0
    ensures d.Indent? || d.Align? ==> !d.doc.Nil?
  {
    NilNotSimple();
  }

  lemma NilNotSimple()
    ensures !Simple(Nil)
  {
  }

  lemma {:induction false} LookOverAll(o: Options, brk: set<nat>, gm: map<int, Mode>, total: int, a: Ahead,
                                       i: Indentation, ds: seq<Doc>, rest: seq<Command>, f: Flatten, parent: Doc)
    returns (a': Ahead)
    requires forall i :: 0 <= i < |ds| ==> ds[i] < parent
    requires Measured(o) && AllLineable(ds, brk)
    requires a.stack == Each(ds, i, Flat) + rest && Tracks(o, total, a, f)
    ensures a'.stack == rest && Tracks(o, total, a', AllOnOneLine(ds, f, parent))
    ensures LookAhead(o, brk, gm, a) == LookAhead(o, brk, gm, a')
    decreases parent, 0, |ds|
  {
    hide Measured, Lineable, Tracks, LookAhead, OnOneLine;
    if ds == [] {
      a' := a;
      assert Each(ds, i, Flat) + rest == rest;
    } else {
      assert a.stack == [Command(i, Flat, ds[0])] + (Each(ds[1..], i, Flat) + rest);
      a' := LookOver(o, brk, gm, total, a, i, ds[0], Each(ds[1..], i, Flat) + rest, f);
      a' := LookOverAll(o, brk, gm, total, a', i, ds[1..], rest, OnOneLine(ds[0], f), parent);
    }
  }

  // ----- the printer prints the same line -----

  /** The commands f has been printed for are done. */
  ghost predicate Printed(st: State, rest: seq<Command>, out: string, f: Flatten) {
    st.commands == rest && st.out == out + f.text && st.lineSuffix == [] && !st.shouldRemeasure
  }

  lemma StepPlain(o: Options, brk: set<nat>, st: State)
    requires st.commands != [] && st.lineSuffix == [] && !st.shouldRemeasure && st.commands[0].mode == Flat
    requires Lineable(st.commands[0].doc, brk)
    ensures var d, r, rest := st.commands[0].doc, Step(o, brk, st), st.commands[1..];
            && !d.Nil? && r.lineSuffix == [] && !r.shouldRemeasure
            && (d.Text? ==> r.commands == rest && r.out == st.out + d.s)
            && (d.LineDoc? ==> r.commands == rest && r.out == st.out + (if d.line.soft then "" else " "))
            && (d.Concat? ==> r.commands == Each(d.parts, st.commands[0].indentation, Flat) + rest && r.out == st.out)
            && (d.Group? || d.Indent? || d.Align? ==>
                  |r.commands| == |rest| + 1 && r.commands[1..] == rest && r.commands[0].mode == Flat
                  && r.commands[0].doc == d.doc && r.out == st.out)
            && (d.IfBreak? ==>
                  r.out == st.out && (if d.flat.Nil? then r.commands == rest
                                      else r.commands == [st.commands[0].(doc := d.flat)] + rest))
  {
    hide Trimmed, LineEnded, IndentText, HasBreak, Simple, Clean, Lineable, Fits;
    LineableKinds(st.commands[0].doc, brk);
  }

  lemma {:induction false} RunOver(o: Options, brk: set<nat>, st: State, d: Doc, rest: seq<Command>,
                                   out: string, f: Flatten) returns (st': State)
    requires Lineable(d, brk)
    requires st.commands != [] && st.commands[0].mode == Flat && st.commands[0].doc == d
    requires Printed(st.(commands := st.commands[1..]), rest, out, f)
    ensures Printed(st', rest, out, OnOneLine(d, f)) && Run(o, brk, st) == Run(o, brk, st')
    decreases d, 1
  {
    hide Lineable, Step, Total;
    StepPlain(o, brk, st);
    LineableKinds(d, brk);
    st' := Step(o, brk, st);
    match d
    case Text(s) => assert out + f.text + s == out + (f.text + s);
    case LineDoc(line) => assert out + f.text + " " == out + (f.text + " ");
    case Concat(parts) =>
      LineableParts(d, brk);
      st' := RunOverAll(o, brk, st', st.commands[0].indentation, parts, rest, out, f, d);
    case Indent(doc) =>
      LineableChild(d, brk, 0);
      st' := RunOver(o, brk, st', doc, rest, out, f);
    case Align(_, doc) =>
      LineableChild(d, brk, 0);
      st' := RunOver(o, brk, st', doc, rest, out, f);
    case Group(_, _, doc, _) =>
      LineableChild(d, brk, 0);
      st' := RunOver(o, brk, st', doc, rest, out, f);
    case IfBreak(_, flat, _) =>
      if !flat.Nil? {
        LineableChild(d, brk, 1);
        st' := RunOver(o, brk, st', flat, rest, out, f);
      }
  }

  lemma {:induction false} RunOverAll(o: Options, brk: set<nat>, st: State, i: Indentation, ds: seq<Doc>,
                                      rest: seq<Command>, out: string, f: Flatten, parent: Doc) returns (st': State)
    requires forall i :: 0 <= i < |ds| ==> ds[i] < parent
    requires AllLineable(ds, brk)
    requires Printed(st, Each(ds, i, Flat) + rest, out, f)
    ensures Printed(st', rest, out, AllOnOneLine(ds, f, parent)) && Run(o, brk, st) == Run(o, brk, st')
    decreases parent, 0, |ds|
  {
    hide Lineable, Run, OnOneLine;
    if ds == [] {
      st' := st;
      assert Each(ds, i, Flat) + rest == rest;
    } else {
      assert st.commands == [Command(i, Flat, ds[0])] + (Each(ds[1..], i, Flat) + rest);
      st' := RunOver(o, brk, st, ds[0], Each(ds[1..], i, Flat) + rest, out, f);
      st' := RunOverAll(o, brk, st', i, ds[1..], rest, out, OnOneLine(ds[0], f), parent);
    }
  }

  // ----- the exact condition -----

  ghost predicate UnbrokenGroup(g: Doc, brk: set<nat>) {
    g.Group? && g.expanded == [] && g.node !in brk && Lineable(g.doc, brk)
  }

  /** fits accepts the group exactly when the width it counts is there, and then the printer
      prints the group's one line. */
  lemma FitsExactly(o: Options, brk: set<nat>, g: Doc)
    requires Measured(o) && UnbrokenGroup(g, brk)
    ensures KeepsFlat(o, brk, Start(g)) <==> Counted(o, OnOneLine(g.doc, NOTHING)) <= o.printWidth
    ensures KeepsFlat(o, brk, Start(g)) ==> Run(o, brk, Start(g)) == Ok(OnOneLine(g.doc, NOTHING).text)
  {
    hide Measured, Lineable, Counted, OnOneLine, Run, Load, Weight;
    var i := Indentation(0, 0, 0);
    var a := Ahead([Command(i, Flat, g.doc)], o.printWidth, false, "", false);
    NothingCounted(o);
    assert [Command(i, Flat, g.doc)] == [Command(i, Flat, g.doc)] + [];
    var a' := LookOver(o, brk, map[], o.printWidth, a, i, g.doc, [], NOTHING);
    StartFits(o, brk, g, a);
    if KeepsFlat(o, brk, Start(g)) {
      FlatRun(o, brk, g);
    }
  }

  lemma NothingCounted(o: Options)
    requires Measured(o)
    ensures Counted(o, NOTHING) == 0 && o.printWidth < MAX_INT
  {
    EmptyWidth(o);
  }

  lemma StartFits(o: Options, brk: set<nat>, g: Doc, a: Ahead)
    requires UnbrokenGroup(g, brk) && o.printWidth < MAX_INT
    requires a == Ahead([Command(Indentation(0, 0, 0), Flat, g.doc)], o.printWidth, false, "", false)
    ensures KeepsFlat(o, brk, Start(g)) <==> LookAhead(o, brk, map[], a)
  {
    hide LookAhead, Lineable;
    assert [Command(Indentation(0, 0, 0), Flat, g.doc)] + Start(g).commands[1..] == a.stack;
  }

  lemma FlatRun(o: Options, brk: set<nat>, g: Doc)
    requires UnbrokenGroup(g, brk) && KeepsFlat(o, brk, Start(g))
    ensures Run(o, brk, Start(g)) == Ok(OnOneLine(g.doc, NOTHING).text)
  {
    hide Lineable, Fits, OnOneLine, Total;
    var st := Step(o, brk, Start(g));
    assert Run(o, brk, Start(g)) == Run(o, brk, st);
    assert "" + NOTHING.text == "";
    var st' := RunOver(o, brk, st, g.doc, [], "", NOTHING);
    assert "" + OnOneLine(g.doc, NOTHING).text == OnOneLine(g.doc, NOTHING).text;
  }

  lemma {:induction false} DoubledIsCounted(o: Options, d: Doc, f: Flatten)
    requires Measured(o) && (f.doubled > 0 ==> Counted(o, f) > 0) && Counted(o, f) >= 0
    ensures OnOneLine(d, f).doubled > 0 ==> Counted(o, OnOneLine(d, f)) > 0
    ensures Counted(o, OnOneLine(d, f)) >= 0
    decreases d, 1
  {
    hide Measured, Counted;
    match d
    case Text(s) => CountedGrows(o, f, s);
    case LineDoc(_) => CountedGrows(o, f, "");
    case Concat(parts) => AllDoubledCounted(o, parts, f, d);
    case Indent(doc) => DoubledIsCounted(o, doc, f);
    case Align(_, doc) => DoubledIsCounted(o, doc, f);
    case Group(_, _, doc, _) => DoubledIsCounted(o, doc, f);
    case IfBreak(_, flat, _) => DoubledIsCounted(o, flat, f);
    case _ =>
  }

  lemma {:induction false} AllDoubledCounted(o: Options, ds: seq<Doc>, f: Flatten, parent: Doc)
    requires forall i :: 0 <= i < |ds| ==> ds[i] < parent
    requires Measured(o) && (f.doubled > 0 ==> Counted(o, f) > 0) && Counted(o, f) >= 0
    ensures AllOnOneLine(ds, f, parent).doubled > 0 ==> Counted(o, AllOnOneLine(ds, f, parent)) > 0
    ensures Counted(o, AllOnOneLine(ds, f, parent)) >= 0
    decreases parent, 0, |ds|
  {
    hide Measured, Counted, OnOneLine;
    if ds != [] {
      DoubledIsCounted(o, ds[0], f);
      AllDoubledCounted(o, ds[1..], OnOneLine(ds[0], f), parent);
    }
  }

  function AtWidth(o: Options, w: int): Options {
    o.(printWidth := w)
  }

  /** The line the group prints flat, without the blanks at its end, is within the print width. */
  ghost predicate Kept(o: Options, g: Doc)
    requires g.Group?
  {
    o.width(OnOneLine(g.doc, NOTHING).text) - OnOneLine(g.doc, NOTHING).spaces <= o.printWidth
  }

  /** Every print width at which the printer keeps the group flat is respected, if and only if
      the group has no lines one after another in front of a text. */
  lemma KeptExactlyWithoutDoubledLines(o: Options, brk: set<nat>, g: Doc)
    requires Measured(o) && UnbrokenGroup(g, brk) && o.width(OnOneLine(g.doc, NOTHING).text) < MAX_INT
    ensures (forall w :: 0 < w < MAX_INT && KeepsFlat(AtWidth(o, w), brk, Start(g)) ==> Kept(AtWidth(o, w), g))
       <==> OnOneLine(g.doc, NOTHING).doubled == 0
  {
    hide Lineable, OnOneLine, KeepsFlat;
    var f := OnOneLine(g.doc, NOTHING);
    forall w | 0 < w < MAX_INT
      ensures KeepsFlat(AtWidth(o, w), brk, Start(g)) <==> o.width(f.text) - f.spaces - f.doubled <= w
    {
      MeasuredAt(o, w);
      FitsExactly(AtWidth(o, w), brk, g);
    }
    if f.doubled > 0 {
      NothingCounted(o);
      DoubledIsCounted(o, g.doc, NOTHING);
      var w := o.width(f.text) - f.spaces - f.doubled;
      assert KeepsFlat(AtWidth(o, w), brk, Start(g)) && !Kept(AtWidth(o, w), g);
    }
  }

  /** On one line the gap behind a document is the run of spaces it ends in. */
  lemma {:induction false} GapOnOneLine(d: Doc, brk: set<nat>, f: Flatten)
    requires Lineable(d, brk)
    ensures Behind(brk, d, Flat, Gap(f.spaces, f.doubled == 0))
         == Gap(OnOneLine(d, f).spaces, OnOneLine(d, f).doubled == 0)
    decreases d, 1
  {
    hide Lineable;
    LineableKinds(d, brk);
    match d
    case Concat(parts) =>
      LineableParts(d, brk);
      GapsOnOneLine(parts, brk, f, d);
    case Indent(doc) =>
      LineableChild(d, brk, 0);
      GapOnOneLine(doc, brk, f);
    case Align(_, doc) =>
      LineableChild(d, brk, 0);
      GapOnOneLine(doc, brk, f);
    case Group(_, _, doc, _) =>
      LineableChild(d, brk, 0);
      GapOnOneLine(doc, brk, f);
    case IfBreak(_, flat, _) =>
      if !flat.Nil? {
        LineableChild(d, brk, 1);
        GapOnOneLine(flat, brk, f);
      }
    case _ =>
  }

  lemma {:induction false} GapsOnOneLine(ds: seq<Doc>, brk: set<nat>, f: Flatten, parent: Doc)
    requires forall i :: 0 <= i < |ds| ==> ds[i] < parent
    requires AllLineable(ds, brk)
    ensures BehindAll(brk, ds, Flat, Gap(f.spaces, f.doubled == 0), parent)
         == Gap(AllOnOneLine(ds, f, parent).spaces, AllOnOneLine(ds, f, parent).doubled == 0)
    decreases parent, 0, |ds|
  {
    hide Lineable, Behind, OnOneLine;
    if ds != [] {
      GapOnOneLine(ds[0], brk, f);
      GapsOnOneLine(ds[1..], brk, OnOneLine(ds[0], f), parent);
    }
  }

  /** A well spaced group has no doubled lines; printed flat, the two conditions are one. */
  lemma WellSpacedGroup(brk: set<nat>, g: Doc)
    requires UnbrokenGroup(g, brk)
    ensures Behind(brk, g.doc, Flat, NO_GAP).single <==> OnOneLine(g.doc, NOTHING).doubled == 0
    ensures WellSpaced(g, brk) ==> OnOneLine(g.doc, NOTHING).doubled == 0
  {
    hide Lineable, OnOneLine;
    GapOnOneLine(g.doc, brk, NOTHING);
  }

  lemma MeasuredAt(o: Options, w: int)
    requires Measured(o) && w < MAX_INT
    ensures Measured(AtWidth(o, w))
  {
  }

  const SPACE := LineDoc(Line(false, false, false, false, false))

  /** Two lines in a row between two texts. */
  function TwoLines(s: string, t: string): (d: Doc)
    ensures d.Concat? && d.parts == [Text(s)] + ([SPACE] + ([SPACE] + ([Text(t)] + [])))
    ensures Text(s) < d && SPACE < d && Text(t) < d
  {
    var d := Concat([Text(s), SPACE, SPACE, Text(t)]);
    assert Children(d) == d.parts && d.parts[0] < d && d.parts[1] < d && d.parts[3] < d;
    d
  }

  /** The group prints two spaces where fits counts one, so at the width fits counts it is kept
      flat and is one column too wide. */
  lemma DoubledLines(o: Options, s: string, t: string)
    requires Measured(o) && o.printWidth == o.width(s) + 1 + o.width(t)
    requires s != "" && t != "" && '\n' !in s && '\n' !in t
    ensures var g := Group(1, 0, TwoLines(s, t), []);
            KeepsFlat(o, {}, Start(g)) && Run(o, {}, Start(g)) == Ok(s + " " + " " + t)
            && o.width(s + " " + " " + t) == o.printWidth + 1
  {
    hide KeepsFlat, OnOneLine, Run, Lineable;
    TwoLinesFlat(s, t);
    TwoLinesLineable(s, t);
    FitsExactly(o, {}, Group(1, 0, TwoLines(s, t), []));
  }

  lemma OneMore(d: Doc, ds: seq<Doc>, f: Flatten, parent: Doc)
    requires d < parent && forall i :: 0 <= i < |ds| ==> ds[i] < parent
    ensures AllOnOneLine([d] + ds, f, parent) == AllOnOneLine(ds, OnOneLine(d, f), parent)
    ensures AllSimple([d] + ds, parent) <==> Simple(d) && AllSimple(ds, parent)
    ensures AnyBreak([d] + ds, {}, parent) <==> HasBreak(d, {}) || AnyBreak(ds, {}, parent)
  {
    assert ([d] + ds)[1..] == ds;
  }

  lemma Leaf(d: Doc)
    requires d.Text? || d == SPACE
    ensures !HasBreak(d, {}) && !HardLine(d)
  {
    assert Children(d) == [];
  }

  lemma TwoLinesFlat(s: string, t: string)
    requires s != "" && t != ""
    ensures OnOneLine(TwoLines(s, t), NOTHING) == Flatten(s + " " + " " + t, 0, 1)
  {
    hide AllOnOneLine, TwoLines;
    var d := TwoLines(s, t);
    assert "" + s == s;
    OneMore(Text(s), [SPACE] + ([SPACE] + ([Text(t)] + [])), NOTHING, d);
    OneMore(SPACE, [SPACE] + ([Text(t)] + []), Flatten(s, 0, 0), d);
    OneMore(SPACE, [Text(t)] + [], Flatten(s + " ", 1, 0), d);
    OneMore(Text(t), [], Flatten(s + " " + " ", 2, 0), d);
    NoneLeft(d, Flatten(s + " " + " " + t, 0, 1));
  }

  lemma TwoLinesLineable(s: string, t: string)
    requires '\n' !in s && '\n' !in t
    ensures Lineable(TwoLines(s, t), {})
  {
    hide OnOneLine, AllOnOneLine, AllSimple, AnyBreak, TwoLines;
    var d := TwoLines(s, t);
    Leaf(Text(s));
    Leaf(Text(t));
    Leaf(SPACE);
    OneMore(Text(s), [SPACE] + ([SPACE] + ([Text(t)] + [])), NOTHING, d);
    OneMore(SPACE, [SPACE] + ([Text(t)] + []), NOTHING, d);
    OneMore(SPACE, [Text(t)] + [], NOTHING, d);
    OneMore(Text(t), [], NOTHING, d);
    NoneLeft(d, NOTHING);
  }

  lemma NoneLeft(d: Doc, f: Flatten)
    ensures AllSimple([], d) && !AnyBreak([], {}, d) && AllOnOneLine([], f, d) == f
  {
  }
}
