/** A group that the printer measures and keeps flat ends its line within the print width. */
module PrintWidth {
  import opened Doc
  import opened Breaks
  import opened PrintMachine
  import opened Spacing

  // ----- the documents of the theorem -----

  predicate HardLine(d: Doc) {
    d.LineDoc? && d.line.hard
  }

  /** No suffix, trim or conditional group, IfBreak for the enclosing group only, newline-free
      texts, and every hard line carries a BreakParent in the same concatenation. */
  predicate Simple(d: Doc)
    decreases d, 1
  {
    match d
    case Text(s) => '\n' !in s
    case Concat(parts) =>
      AllSimple(parts, d) && ((exists i :: 0 <= i < |parts| && HardLine(parts[i])) ==> BreakParent in parts)
    case Indent(doc) => Simple(doc) && !HardLine(doc)
    case Align(n, doc) => n >= 0 && Simple(doc) && !HardLine(doc)
    case Group(_, _, doc, expanded) => expanded == [] && Simple(doc) && !HardLine(doc)
    case IfBreak(broken, flat, id) =>
      id == 0 && (broken.Nil? || (Simple(broken) && !HardLine(broken)))
      && (flat.Nil? || (Simple(flat) && !HardLine(flat)))
    case LineDoc(_) => true
    case BreakParent => true
    case _ => false
  }

  predicate AllSimple(ds: seq<Doc>, parent: Doc)
    requires forall i :: 0 <= i < |ds| ==> ds[i] < parent
    decreases parent, 0, |ds|
  {
    ds == [] || (Simple(ds[0]) && AllSimple(ds[1..], parent))
  }

  /** Every group not broken holds no break: what break propagation establishes. */
  predicate Marked(d: Doc, brk: set<nat>)
    decreases d, 1
  {
    (d.Group? && d.node !in brk ==> !HasBreak(d.doc, brk)) && AllMarked(Children(d), brk, d)
  }

  predicate AllMarked(ds: seq<Doc>, brk: set<nat>, parent: Doc)
    requires forall i :: 0 <= i < |ds| ==> ds[i] < parent
    decreases parent, 0, |ds|
  {
    ds == [] || (Marked(ds[0], brk) && AllMarked(ds[1..], brk, parent))
  }

  lemma {:induction false} SimpleMember(ds: seq<Doc>, parent: Doc, k: nat)
    requires forall i :: 0 <= i < |ds| ==> ds[i] < parent
    requires AllSimple(ds, parent) && k < |ds|
    ensures Simple(ds[k])
  {
    if k > 0 {
      SimpleMember(ds[1..], parent, k - 1);
    }
  }

  lemma {:induction false} MarkedMember(ds: seq<Doc>, brk: set<nat>, parent: Doc, k: nat)
    requires forall i :: 0 <= i < |ds| ==> ds[i] < parent
    requires AllMarked(ds, brk, parent) && k < |ds|
    ensures Marked(ds[k], brk)
  {
    if k > 0 {
      MarkedMember(ds[1..], brk, parent, k - 1);
    }
  }

  lemma {:induction false} NoBreakMember(ds: seq<Doc>, brk: set<nat>, parent: Doc, k: nat)
    requires forall i :: 0 <= i < |ds| ==> ds[i] < parent
    requires !AnyBreak(ds, brk, parent) && k < |ds|
    ensures !HasBreak(ds[k], brk)
  {
    if k > 0 {
      NoBreakMember(ds[1..], brk, parent, k - 1);
    }
  }

  lemma {:induction false} PropagationMarks(d: Doc, brk: set<nat>)
    requires forall s: Doc :: s.Group? && PartOf(s, d) ==> (s.node in brk <==> HasBreak(s, brk))
    ensures Marked(d, brk)
    decreases d, 1
  {
    if d.Group? {
      assert PartOf(d, d);
      assert Children(d)[|d.expanded|] == d.doc;
      if d.node !in brk {
        NoBreakMember(Children(d), brk, d, |d.expanded|);
      }
    }
    PropagationMarksAll(Children(d), brk, d);
  }

  lemma {:induction false} PropagationMarksAll(ds: seq<Doc>, brk: set<nat>, parent: Doc)
    requires forall i :: 0 <= i < |ds| ==> ds[i] < parent
    requires forall s: Doc :: s.Group? && PartOfAny(s, ds, parent) ==> (s.node in brk <==> HasBreak(s, brk))
    ensures AllMarked(ds, brk, parent)
    decreases parent, 0, |ds|
  {
    if ds != [] {
      PropagationMarks(ds[0], brk);
      PropagationMarksAll(ds[1..], brk, parent);
    }
  }

  /** After propagation every unbroken group holds no break. */
  lemma AfterPropagation(d: Doc, brk: set<nat>)
    requires Once(Groups(d))
    ensures Marked(d, Propagate(d, brk))
  {
    PropagateTwice(d, brk);
    PropagateExact(d, Propagate(d, brk));
    PropagationMarks(d, Propagate(d, brk));
  }

  // ----- columns -----

  /** width adds up along a line, a space takes one column and an indentation level tabWidth;
      lines end with a newline character and indentation holds none. */
  ghost predicate Measured(o: Options) {
    && (forall a, b :: o.width(a + b) == o.width(a) + o.width(b))
    && o.width(" ") == 1 && o.width(o.indent) == o.tabWidth && '\n' !in o.indent
    && o.newLine != "" && o.newLine[|o.newLine| - 1] == '\n'
    && o.printWidth < MAX_INT
  }

  function LastLine(s: string): string {
    if s == "" || s[|s| - 1] == '\n' then "" else LastLine(s[..|s| - 1]) + [s[|s| - 1]]
  }

  /** The display column at the end of the output. */
  ghost function Column(o: Options, s: string): nat {
    o.width(LastLine(s))
  }

  lemma EmptyWidth(o: Options)
    requires Measured(o)
    ensures o.width("") == 0
  {
    assert o.width("" + "") == o.width("") + o.width("");
    assert "" + "" == "";
  }

  lemma {:induction false} LastLineGrows(a: string, b: string)
    requires '\n' !in b
    ensures LastLine(a + b) == LastLine(a) + b
  {
    if b == "" {
      assert a + b == a;
    } else {
      var b', c := b[..|b| - 1], b[|b| - 1];
      LastLineGrows(a, b');
      assert b == b' + [c] && (a + b)[..|a + b| - 1] == a + b';
      assert LastLine(a) + b' + [c] == LastLine(a) + b;
    }
  }

  lemma ColumnGrows(o: Options, a: string, b: string)
    requires Measured(o) && '\n' !in b
    ensures Column(o, a + b) == Column(o, a) + o.width(b)
  {
    LastLineGrows(a, b);
  }

  lemma {:induction false} RepeatWidth(o: Options, s: string, n: int)
    requires Measured(o) && '\n' !in s && n >= 0
    ensures '\n' !in Repeat(s, n) && o.width(Repeat(s, n)) == n * o.width(s)
  {
    EmptyWidth(o);
    if n > 0 {
      RepeatWidth(o, s, n - 1);
      Distribute(n, o.width(s));
    }
  }

  lemma Distribute(n: int, w: int)
    ensures (n - 1) * w + w == n * w
  {
  }

  /** length is the width of the indentation text. */
  predicate Sized(i: Indentation, o: Options) {
    i.levels >= 0 && i.alignN >= 0 && i.length == i.levels * o.tabWidth + i.alignN
  }

  lemma IndentWidth(i: Indentation, o: Options)
    requires Measured(o) && Sized(i, o)
    ensures '\n' !in IndentText(i, o) && o.width(IndentText(i, o)) == i.length
  {
    EmptyWidth(o);
    RepeatWidth(o, o.indent, i.levels);
    RepeatWidth(o, " ", i.alignN);
  }

  lemma SizedGrows(i: Indentation, n: int, o: Options)
    requires Sized(i, o) && n >= 0
    ensures Sized(AddLevel(i, o), o) && Sized(AlignBy(i, n, o), o)
  {
    assert (i.levels + 1) * o.tabWidth == i.levels * o.tabWidth + o.tabWidth;
  }

  lemma LineColumn(o: Options, st: State, line: Line, ind: Indentation)
    requires Measured(o) && Sized(ind, o)
    ensures var r := PrintLine(o, st, line, ind); r.position == Column(o, r.out)
  {
    hide Measured, IndentText, Sized;
    EmptyWidth(o);
    NewLineColumn(o, st.out);
    NewLineColumn(o, Trimmed(st.out));
    IndentWidth(ind, o);
    ColumnGrows(o, Trimmed(st.out), IndentText(ind, o));
    ColumnGrows(o, Trimmed(st.out) + o.newLine, IndentText(ind, o));
  }

  lemma NewLineColumn(o: Options, s: string)
    requires Measured(o)
    ensures LastLine(s + o.newLine) == ""
  {
    var n := o.newLine;
    assert (s + n)[|s + n| - 1] == n[|n| - 1];
  }

  // ----- the states of a run -----

  /** No hard line and no broken group, so all of d can be printed on one line. */
  predicate Clean(d: Doc, brk: set<nat>) {
    !HasBreak(d, brk) && !HardLine(d)
  }

  ghost predicate Fine(c: Command, o: Options, brk: set<nat>) {
    && Simple(c.doc) && Marked(c.doc, brk) && Sized(c.indentation, o)
    && (c.mode == Flat ==> Clean(c.doc, brk))
  }

  ghost predicate AllFine(cs: seq<Command>, o: Options, brk: set<nat>) {
    forall i :: 0 <= i < |cs| ==> Fine(cs[i], o, brk)
  }

  ghost predicate Valid(o: Options, brk: set<nat>, st: State) {
    && AllFine(st.commands, o, brk) && st.lineSuffix == [] && !st.shouldRemeasure
    && (st.commands != [] ==> st.position == Column(o, st.out))
  }

  lemma ChildFine(c: Command, k: nat, d: Command, o: Options, brk: set<nat>)
    requires Fine(c, o, brk) && k < |Children(c.doc)| && d.doc == Children(c.doc)[k]
    requires Sized(d.indentation, o)
    requires c.doc.Concat? || !d.doc.Nil?
    requires d.mode == Flat ==> c.mode == Flat || (c.doc.Group? && c.doc.node !in brk)
    ensures Fine(d, o, brk)
  {
    MarkedMember(Children(c.doc), brk, c.doc, k);
    if c.doc.Concat? {
      SimpleMember(c.doc.parts, c.doc, k);
    }
    if c.mode == Flat {
      NoBreakMember(Children(c.doc), brk, c.doc, k);
      if c.doc.Concat? && HardLine(d.doc) {
        BreakInConcat(c.doc, brk);
      }
    }
  }

  lemma BreakInConcat(d: Doc, brk: set<nat>)
    requires d.Concat? && BreakParent in d.parts
    ensures HasBreak(d, brk)
  {
    var k :| 0 <= k < |d.parts| && d.parts[k] == BreakParent;
    if !HasBreak(d, brk) {
      NoBreakMember(d.parts, brk, d, k);
    }
  }

  lemma GroupPrinted(o: Options, brk: set<nat>, st: State)
    requires Valid(o, brk, st) && st.commands != [] && st.commands[0].doc.Group?
    ensures var g, r := st.commands[0].doc, PrintGroup(o, brk, st);
            && g.expanded == [] && r.doc == g.doc && r.indentation == st.commands[0].indentation
            && (r.mode == Flat ==> g.node !in brk)
            && (st.commands[0].mode == Flat ==> r.mode == Flat)
  {
    assert Fine(st.commands[0], o, brk);
  }

  lemma ExpandedFine(o: Options, brk: set<nat>, st: State)
    requires Valid(o, brk, st) && st.commands != []
    ensures AllFine(Expanded(o, brk, st), o, brk)
  {
    hide PrintGroup, HasBreak, Marked, Sized, Simple, Clean;
    var cmd, e := st.commands[0], Expanded(o, brk, st);
    assert Fine(cmd, o, brk);
    forall k | 0 <= k < |e| ensures Fine(e[k], o, brk) {
      if cmd.doc.Concat? {
        ChildFine(cmd, k, e[k], o, brk);
      } else if cmd.doc.Group? {
        GroupPrinted(o, brk, st);
        assert Children(cmd.doc)[0] == cmd.doc.doc && !cmd.doc.doc.Nil? by {
          SimpleGroup(cmd.doc);
        }
        ChildFine(cmd, 0, e[k], o, brk);
      } else if cmd.doc.IfBreak? {
        ChildFine(cmd, if e[k].doc == cmd.doc.broken then 0 else 1, e[k], o, brk);
      } else {
        SimpleAlign(cmd.doc);
        SizedGrows(cmd.indentation, if cmd.doc.Align? then cmd.doc.n else 0, o);
        ChildFine(cmd, 0, e[k], o, brk);
      }
    }
  }

  lemma SimpleGroup(d: Doc)
    requires Simple(d) && d.Group?
    ensures d.expanded == [] && !d.doc.Nil?
  {
  }

  lemma SimpleAlign(d: Doc)
    requires Simple(d)
    ensures d.Align? ==> d.n >= 0
    ensures d.Indent? || d.Align? ==> !d.doc.Nil?
  {
  }

  /** Only a line of text or a line break moves the position, and it stays the column. */
  lemma ExecuteColumn(o: Options, brk: set<nat>, st: State)
    requires Measured(o) && Valid(o, brk, st) && st.commands != []
    ensures !st.commands[0].doc.Nil?
    ensures var r := Execute(o, brk, st);
            && r.commands == Expanded(o, brk, st) + st.commands[1..] && r.lineSuffix == [] && !r.shouldRemeasure
            && (r.commands != [] ==> r.position == Column(o, r.out))
  {
    hide Measured, Column, PrintGroup, PrintLine, Expanded, Marked, HasBreak, Trimmed, Sized;
    var cmd := st.commands[0];
    assert Fine(cmd, o, brk);
    match cmd.doc
    case Text(s) =>
      ColumnGrows(o, st.out, s);
      TextExpands(o, brk, st);
    case LineDoc(line) =>
      SpaceColumn(o, st.out);
      var next := st.(commands := Expanded(o, brk, st) + st.commands[1..],
                      shouldRemeasure := st.shouldRemeasure || cmd.mode == Flat);
      LineKeepsLists(o, next, line, cmd.indentation);
      LineKeepsMeasure(o, next, line, cmd.indentation);
      LineColumn(o, next, line, cmd.indentation);
    case _ =>
  }

  lemma TextExpands(o: Options, brk: set<nat>, st: State)
    requires st.commands != [] && st.commands[0].doc.Text?
    ensures Expanded(o, brk, st) + st.commands[1..] == st.commands[1..]
  {
  }

  lemma SpaceColumn(o: Options, s: string)
    requires Measured(o)
    ensures Column(o, s + " ") == Column(o, s) + 1
  {
    ColumnGrows(o, s, " ");
  }

  lemma LineKeepsMeasure(o: Options, st: State, line: Line, ind: Indentation)
    ensures PrintLine(o, st, line, ind).shouldRemeasure == st.shouldRemeasure
  {
  }

  lemma StepValid(o: Options, brk: set<nat>, st: State)
    requires Measured(o) && Valid(o, brk, st) && st.commands != []
    ensures !st.commands[0].doc.Nil? && Valid(o, brk, Step(o, brk, st))
    ensures Step(o, brk, st) == Execute(o, brk, st)
    ensures Step(o, brk, st).commands == Expanded(o, brk, st) + st.commands[1..]
  {
    hide Measured, Fine, Execute, Expanded, Column;
    ExpandedFine(o, brk, st);
    ExecuteColumn(o, brk, st);
  }

  // ----- looking ahead and printing in step -----

  /** The top command is a line printed in break mode: it ends the output line. */
  predicate AtLine(st: State) {
    st.commands != [] && st.commands[0].doc.LineDoc? && st.commands[0].mode == Break
  }

  predicate AtText(st: State) {
    st.commands != [] && st.commands[0].doc.Text? && st.commands[0].doc.s != ""
  }

  /** A space for a line printed flat. */
  predicate AtSpace(st: State) {
    st.commands != [] && st.commands[0].doc.LineDoc? && !AtLine(st) && !st.commands[0].doc.line.soft
  }

  /** The printer is about to measure a group, and to keep it flat. */
  predicate KeepsFlat(o: Options, brk: set<nat>, st: State) {
    && st.commands != [] && st.commands[0].doc.Group? && st.commands[0].mode == Break
    && PrintGroup(o, brk, st).mode == Flat
  }

  /** The same documents in the same modes; fits does not follow indentation. */
  predicate Alike(a: seq<Command>, b: seq<Command>) {
    |a| == |b| && forall i :: 0 <= i < |a| ==> a[i].mode == b[i].mode && a[i].doc == b[i].doc
  }

  lemma AlikeConcat(a: seq<Command>, b: seq<Command>, x: seq<Command>, y: seq<Command>)
    requires Alike(a, x) && Alike(b, y)
    ensures Alike(a + b, x + y)
  {
  }

  lemma AlikeRest(a: seq<Command>, b: seq<Command>)
    requires Alike(a, b) && a != []
    ensures a[0].mode == b[0].mode && a[0].doc == b[0].doc && Alike(a[1..], b[1..])
  {
  }

  /** fits unfolds a command as the printer does, unless the printer keeps a group flat. */
  lemma UnfoldsAlike(o: Options, brk: set<nat>, gm: map<int, Mode>, c: Command, st: State)
    requires Valid(o, brk, st) && st.commands != [] && !KeepsFlat(o, brk, st)
    requires c.mode == st.commands[0].mode && c.doc == st.commands[0].doc
    ensures Alike(Unfolded(brk, gm, c), Expanded(o, brk, st))
    ensures c.doc.Group? && c.mode == Flat ==> c.doc.node !in brk
  {
    hide Marked, Sized, PrintGroup, Column, AllSimple, AllMarked, AnyBreak;
    assert Fine(st.commands[0], o, brk);
    if c.doc.Group? {
      GroupPrinted(o, brk, st);
    }
  }

  /** A look-ahead that accepts what is on the list. spaces are the columns printed since the
      last text, doubled the columns fits did not count. */
  ghost predicate Covers(o: Options, brk: set<nat>, gm: map<int, Mode>, a: Ahead, st: State, spaces: nat,
                         doubled: nat) {
    && LookAhead(o, brk, gm, a) && Alike(a.stack, st.commands)
    && (a.space <==> spaces > 0)
    && a.width == o.printWidth - Column(o, st.out) + spaces + doubled
  }

  lemma CoversFits(o: Options, brk: set<nat>, gm: map<int, Mode>, a: Ahead, st: State, spaces: nat, doubled: nat)
    requires Covers(o, brk, gm, a, st, spaces, doubled)
    ensures Column(o, st.out) <= o.printWidth + spaces + doubled
  {
  }

  lemma LookSteps(o: Options, brk: set<nat>, gm: map<int, Mode>, a: Ahead)
    requires LookAhead(o, brk, gm, a)
    ensures var r := LookStep(o, brk, gm, a); !r.NoFit? && (r.More? ==> LookAhead(o, brk, gm, r.next))
  {
    hide LookStep;
  }

  /** fits walks in step with the printer. */
  lemma LookInStep(o: Options, brk: set<nat>, gm: map<int, Mode>, a: Ahead, st: State) returns (next: Ahead)
    requires Valid(o, brk, st) && st.commands != [] && !AtLine(st) && !KeepsFlat(o, brk, st)
    requires LookAhead(o, brk, gm, a) && Alike(a.stack, st.commands)
    ensures LookAhead(o, brk, gm, next) && Alike(next.stack, Expanded(o, brk, st) + st.commands[1..])
    ensures AtText(st) ==>
            next.width == a.width - (if a.space then 1 else 0) - o.width(st.commands[0].doc.s) && !next.space
    ensures !AtText(st) ==> next.width == a.width && (next.space <==> a.space || AtSpace(st))
  {
    hide LookAhead, Load, Weight, Marked, HasBreak, Column, Sized, Unfolded, Expanded, PrintGroup, KeepsFlat, AllSimple,
         Alike;
    LookSteps(o, brk, gm, a);
    AlikeNotEmpty(a.stack, st.commands);
    AlikeRest(a.stack, st.commands);
    UnfoldsAlike(o, brk, gm, a.stack[0], st);
    AlikeConcat(Unfolded(brk, gm, a.stack[0]), a.stack[1..], Expanded(o, brk, st), st.commands[1..]);
    assert Fine(st.commands[0], o, brk);
    next := LookStep(o, brk, gm, a).next;
  }

  lemma AlikeNotEmpty(a: seq<Command>, b: seq<Command>)
    requires Alike(a, b)
    ensures a == [] <==> b == []
  {
  }

  lemma StepColumn(o: Options, brk: set<nat>, st: State)
    requires Measured(o) && Valid(o, brk, st) && st.commands != [] && !AtLine(st)
    ensures Column(o, Step(o, brk, st).out)
         == Column(o, st.out) + (if AtText(st) then o.width(st.commands[0].doc.s) else if AtSpace(st) then 1 else 0)
  {
    hide Measured, Column, PrintGroup, Expanded, Marked, HasBreak, Sized, PrintLine;
    StepValid(o, brk, st);
    SpaceColumn(o, st.out);
    assert Fine(st.commands[0], o, brk);
    if st.commands[0].doc.Text? {
      ColumnGrows(o, st.out, st.commands[0].doc.s);
    }
  }

  /** A group kept flat was measured from its own column. */
  lemma FlatIsCovered(o: Options, brk: set<nat>, st: State) returns (a: Ahead)
    requires Measured(o) && Valid(o, brk, st) && KeepsFlat(o, brk, st)
    ensures LookAhead(o, brk, st.groupMode, a) && a.stack == Expanded(o, brk, st) + st.commands[1..]
    ensures !a.space && a.width == o.printWidth - Column(o, st.out)
  {
    hide Load, Weight, LookAhead, Column, Marked, HasBreak, Sized;
    GroupPrinted(o, brk, st);
    a := Ahead([PrintGroup(o, brk, st)] + st.commands[1..], o.printWidth - st.position, false, "", false);
  }

  lemma CoversStep(o: Options, brk: set<nat>, gm: map<int, Mode>, a: Ahead, st: State, k: nat, d: nat)
    returns (gm': map<int, Mode>, a': Ahead, k': nat, d': nat)
    requires Measured(o) && Valid(o, brk, st) && st.commands != [] && !AtLine(st)
    requires KeepsFlat(o, brk, st) || Covers(o, brk, gm, a, st, k, d)
    ensures Covers(o, brk, gm', a', Step(o, brk, st), k', d')
    ensures if AtText(st) then k' == 0 && d' <= d + Beyond(k)
            else k' <= k + (if AtSpace(st) then 1 else 0) && d' <= d
    ensures KeepsFlat(o, brk, st) ==> k' == d' == 0
  {
    hide Measured, Valid, Column, KeepsFlat, LookAhead, Expanded, Step;
    StepColumn(o, brk, st);
    StepValid(o, brk, st);
    if KeepsFlat(o, brk, st) {
      a' := FlatIsCovered(o, brk, st);
      FlatIsGroup(o, brk, st);
      gm', k', d' := st.groupMode, 0, 0;
    } else {
      a' := LookInStep(o, brk, gm, a, st);
      gm' := gm;
      if AtText(st) {
        k', d' := 0, d + Beyond(k);
      } else {
        k', d' := if AtSpace(st) then k + 1 else k, d;
      }
    }
  }

  lemma FlatIsGroup(o: Options, brk: set<nat>, st: State)
    requires KeepsFlat(o, brk, st)
    ensures st.commands[0].doc.Group? && !AtText(st) && !AtSpace(st)
  {
  }

  /** The spaces of a run of k that fits does not count: it counts a run as one. */
  function Beyond(k: nat): nat {
    if k > 1 then k - 1 else 0
  }

  // ----- segments of a run -----

  /** The state n steps on. */
  function Later(o: Options, brk: set<nat>, st: State, n: nat): State
    decreases n
  {
    if n == 0 || st.commands == [] || st.commands[0].doc.Nil? then st
    else Later(o, brk, Step(o, brk, st), n - 1)
  }

  /** In the n steps from st the printer prints no line break, and it does not run out of commands. */
  ghost predicate OneLine(o: Options, brk: set<nat>, st: State, n: nat)
    decreases n
  {
    n == 0 || (st.commands != [] && !st.commands[0].doc.Nil? && !AtLine(st) && OneLine(o, brk, Step(o, brk, st), n - 1))
  }

  /** The last of the n steps from st prints a text. */
  ghost predicate EndsInText(o: Options, brk: set<nat>, st: State, n: nat) {
    n > 0 && AtText(Later(o, brk, st, n - 1))
  }

  /** How many spaces the n steps print beyond the first of each run between two texts, when k
      are printed already. Lines printed flat one after another make such runs. */
  ghost function Doubled(o: Options, brk: set<nat>, st: State, n: nat, k: nat): nat
    decreases n
  {
    if n == 0 || st.commands == [] || st.commands[0].doc.Nil? then 0
    else if AtText(st) then Beyond(k) + Doubled(o, brk, Step(o, brk, st), n - 1, 0)
    else Doubled(o, brk, Step(o, brk, st), n - 1, if AtSpace(st) then k + 1 else k)
  }

  lemma {:induction false} CoveredLine(o: Options, brk: set<nat>, gm: map<int, Mode>, a: Ahead, st: State, n: nat,
                                       k: nat, d: nat, spaces: nat)
    requires Measured(o) && Valid(o, brk, st) && OneLine(o, brk, st, n) && EndsInText(o, brk, st, n)
    requires Covers(o, brk, gm, a, st, k, d) && k <= spaces
    ensures Column(o, Later(o, brk, st, n).out) <= o.printWidth + d + Doubled(o, brk, st, n, spaces)
    decreases n
  {
    hide Measured, Valid, Column, KeepsFlat, Step, Covers;
    var gm', a', k', d' := CoversStep(o, brk, gm, a, st, k, d);
    StepValid(o, brk, st);
    if n == 1 {
      CoversFits(o, brk, gm', a', Step(o, brk, st), k', d');
    } else {
      CoveredLine(o, brk, gm', a', Step(o, brk, st), n - 1, k', d',
                  if AtText(st) then 0 else if AtSpace(st) then spaces + 1 else spaces);
    }
  }

  /** In any document the excess is at most the spaces fits did not count. */
  lemma FlatGroupNearlyFits(o: Options, brk: set<nat>, st: State, n: nat)
    requires Measured(o) && Valid(o, brk, st) && KeepsFlat(o, brk, st)
    requires OneLine(o, brk, st, n) && EndsInText(o, brk, st, n)
    ensures Column(o, Later(o, brk, st, n).out) <= o.printWidth + Doubled(o, brk, st, n, 0)
  {
    hide Measured, Valid, Column, KeepsFlat, Step, Covers;
    FlatIsGroup(o, brk, st);
    var gm, a, k, d := CoversStep(o, brk, st.groupMode, Ahead([], 0, false, "", false), st, 0, 0);
    StepValid(o, brk, st);
    CoveredLine(o, brk, gm, a, Step(o, brk, st), n - 1, k, d, 0);
  }

  lemma {:induction false} LaterValid(o: Options, brk: set<nat>, st: State, n: nat)
    requires Measured(o) && Valid(o, brk, st)
    ensures Valid(o, brk, Later(o, brk, st, n))
    decreases n
  {
    hide Measured, Valid, Step;
    if n > 0 && st.commands != [] {
      StepValid(o, brk, st);
      LaterValid(o, brk, Step(o, brk, st), n - 1);
    }
  }

  /** The bound for a whole print of any document. */
  lemma PrintedGroupNearlyFits(o: Options, broken: set<nat>, d: Doc, m: nat, n: nat)
    requires Measured(o) && Once(Groups(d)) && Simple(d)
    requires var st := Later(o, Propagate(d, broken), Start(d), m);
             KeepsFlat(o, Propagate(d, broken), st) && OneLine(o, Propagate(d, broken), st, n)
             && EndsInText(o, Propagate(d, broken), st, n)
    ensures var brk := Propagate(d, broken);
            var st := Later(o, brk, Start(d), m);
            Column(o, Later(o, brk, st, n).out) <= o.printWidth + Doubled(o, brk, st, n, 0)
  {
    hide Measured, KeepsFlat, Step, OneLine, EndsInText, Doubled, Propagate, Once, Simple, Later;
    var brk := Propagate(d, broken);
    AfterPropagation(d, broken);
    StartValid(o, brk, d);
    LaterValid(o, brk, Start(d), m);
    FlatGroupNearlyFits(o, brk, Later(o, brk, Start(d), m), n);
  }

  // ----- spaces one after another -----

  /** What the printer puts in place of the top command leaves no wider gap behind. */
  lemma ExpandedSpaced(o: Options, brk: set<nat>, st: State, k: nat)
    requires Valid(o, brk, st) && st.commands != [] && !st.commands[0].doc.Text? && !st.commands[0].doc.LineDoc?
    ensures var l, cmd := if KeepsFlat(o, brk, st) then 0 else k, st.commands[0];
            Within(BehindList(brk, Expanded(o, brk, st), Gap(l, true)), Behind(brk, cmd.doc, cmd.mode, Gap(k, true)))
  {
    hide PrintGroup, HasBreak, Marked, Sized, Clean, Column, AllSimple;
    var cmd, e := st.commands[0], Expanded(o, brk, st);
    var g := Gap(if KeepsFlat(o, brk, st) then 0 else k, true);
    assert Fine(cmd, o, brk);
    if cmd.doc.Concat? {
      BehindEach(brk, cmd.doc.parts, cmd.indentation, cmd.mode, g, cmd.doc);
    } else if cmd.doc.Group? {
      GroupPrinted(o, brk, st);
      BehindOne(brk, e[0], g);
    } else if e != [] {
      assert e == [e[0]];
      BehindOne(brk, e[0], g);
    }
  }

  /** Printing keeps a work list well spaced; the count of pending spaces starts again at a text, at a
      line break and at a group kept flat. */
  lemma SpacedStep(o: Options, brk: set<nat>, st: State, k: nat)
    requires Measured(o) && Valid(o, brk, st) && st.commands != [] && Spaced(brk, st.commands, k)
    ensures AtText(st) ==> k <= 1
    ensures Spaced(brk, Step(o, brk, st).commands,
                   if AtText(st) || AtLine(st) || KeepsFlat(o, brk, st) then 0 else if AtSpace(st) then k + 1 else k)
  {
    hide Measured, Valid, Step, Expanded, KeepsFlat, Spaced, BehindList;
    StepValid(o, brk, st);
    var cmd, rest := st.commands[0], st.commands[1..];
    assert st.commands == [cmd] + rest;
    if AtText(st) {
      TextFollowsOne(brk, st.commands, k);
    }
    var l := if AtText(st) || AtLine(st) || KeepsFlat(o, brk, st) then 0 else if AtSpace(st) then k + 1 else k;
    if KeepsFlat(o, brk, st) {
      FlatIsGroup(o, brk, st);
    }
    if cmd.doc.Text? || cmd.doc.LineDoc? {
      LeafSpaced(o, brk, st, k, l);
    } else {
      ExpandedSpaced(o, brk, st, k);
    }
    SpacedReplaced(brk, cmd, Expanded(o, brk, st), rest, k, l);
  }

  lemma LeafSpaced(o: Options, brk: set<nat>, st: State, k: nat, l: nat)
    requires Valid(o, brk, st) && st.commands != [] && (st.commands[0].doc.Text? || st.commands[0].doc.LineDoc?)
    requires AtText(st) ==> k <= 1
    requires l == if AtText(st) || AtLine(st) then 0 else if AtSpace(st) then k + 1 else k
    ensures var cmd := st.commands[0];
            Within(BehindList(brk, Expanded(o, brk, st), Gap(l, true)), Behind(brk, cmd.doc, cmd.mode, Gap(k, true)))
  {
    assert Fine(st.commands[0], o, brk);
  }

  lemma {:induction false} LaterSpaced(o: Options, brk: set<nat>, st: State, n: nat)
    requires Measured(o) && Valid(o, brk, st) && Spaced(brk, st.commands, 0)
    ensures Spaced(brk, Later(o, brk, st, n).commands, 0)
    decreases n
  {
    hide Measured, Valid, Step, Spaced, KeepsFlat;
    if n > 0 && st.commands != [] {
      StepValid(o, brk, st);
      SpacedStep(o, brk, st, 0);
      var next := Step(o, brk, st);
      SpacedLess(brk, next.commands,
                 if AtSpace(st) && !AtText(st) && !AtLine(st) && !KeepsFlat(o, brk, st) then 1 else 0, 0);
      LaterSpaced(o, brk, next, n - 1);
    }
  }

  lemma {:induction false} SpacedLine(o: Options, brk: set<nat>, gm: map<int, Mode>, a: Ahead, st: State, n: nat,
                                      k: nat)
    requires Measured(o) && Valid(o, brk, st) && OneLine(o, brk, st, n) && EndsInText(o, brk, st, n)
    requires KeepsFlat(o, brk, st) || Covers(o, brk, gm, a, st, k, 0)
    requires Spaced(brk, st.commands, k)
    ensures Column(o, Later(o, brk, st, n).out) <= o.printWidth
    decreases n
  {
    hide Measured, Valid, Column, KeepsFlat, Step, Covers, Spaced;
    SpacedStep(o, brk, st, k);
    var gm', a', k', d' := CoversStep(o, brk, gm, a, st, k, 0);
    StepValid(o, brk, st);
    var next := Step(o, brk, st);
    if n == 1 {
      CoversFits(o, brk, gm', a', next, k', d');
    } else {
      var l := if AtText(st) || KeepsFlat(o, brk, st) then 0 else if AtSpace(st) then k + 1 else k;
      SpacedLess(brk, next.commands, l, k');
      SpacedLine(o, brk, gm', a', next, n - 1, k');
    }
  }

  /** From a group kept flat to the next line break, every text ends within the print width, if what
      is left to print is well spaced. */
  lemma FlatGroupFits(o: Options, brk: set<nat>, st: State, n: nat)
    requires Measured(o) && Valid(o, brk, st) && KeepsFlat(o, brk, st) && Spaced(brk, st.commands, 0)
    requires OneLine(o, brk, st, n) && EndsInText(o, brk, st, n)
    ensures Column(o, Later(o, brk, st, n).out) <= o.printWidth
  {
    hide Measured, Valid, Column, KeepsFlat, Step, Covers, Spaced;
    SpacedLine(o, brk, st.groupMode, Ahead([], 0, false, "", false), st, n, 0);
  }

  /** The theorem for a whole print: d's breaks are propagated, then d is printed; after m steps
      the printer keeps a group flat, and n steps later, still on that line, it has printed a text.
      If d is well spaced, that text ends within the print width. */
  lemma PrintedGroupFits(o: Options, broken: set<nat>, d: Doc, m: nat, n: nat)
    requires Measured(o) && Once(Groups(d)) && Simple(d) && WellSpaced(d, Propagate(d, broken))
    requires var st := Later(o, Propagate(d, broken), Start(d), m);
             KeepsFlat(o, Propagate(d, broken), st) && OneLine(o, Propagate(d, broken), st, n)
             && EndsInText(o, Propagate(d, broken), st, n)
    ensures var brk := Propagate(d, broken);
            Column(o, Later(o, brk, Later(o, brk, Start(d), m), n).out) <= o.printWidth
  {
    hide Measured, KeepsFlat, Step, OneLine, EndsInText, Propagate, Once, Simple, Later, Spaced, WellSpaced;
    var brk := Propagate(d, broken);
    AfterPropagation(d, broken);
    StartValid(o, brk, d);
    StartSpaced(d, brk);
    LaterValid(o, brk, Start(d), m);
    LaterSpaced(o, brk, Start(d), m);
    FlatGroupFits(o, brk, Later(o, brk, Start(d), m), n);
  }

  lemma StartSpaced(d: Doc, brk: set<nat>)
    requires WellSpaced(d, brk)
    ensures Spaced(brk, Start(d).commands, 0)
  {
    hide Behind;
    BehindOne(brk, Start(d).commands[0], NO_GAP);
  }

  lemma StartValid(o: Options, brk: set<nat>, d: Doc)
    requires Measured(o) && Simple(d) && Marked(d, brk)
    ensures Valid(o, brk, Start(d))
  {
    EmptyWidth(o);
  }

  // ----- a line break ends the output line, unless the line is blank -----

  lemma {:induction false} TextOpensLine(a: string, b: string)
    requires '\n' !in b && !LineEnded(a)
    ensures !LineEnded(a + b)
  {
    if b == "" {
      assert a + b == a;
    } else {
      var b', c := b[..|b| - 1], b[|b| - 1];
      TextOpensLine(a, b');
      assert (a + b)[|a + b| - 1] == c && (a + b)[..|a + b| - 1] == a + b';
    }
  }

  /** Once a line holds more than blanks, it does until a line break. */
  lemma {:induction false} LineStaysOpen(o: Options, brk: set<nat>, st: State, n: nat)
    requires Measured(o) && Valid(o, brk, st) && OneLine(o, brk, st, n) && !LineEnded(st.out)
    ensures !LineEnded(Later(o, brk, st, n).out)
    decreases n
  {
    hide Measured, Valid, LineEnded, Step;
    if n > 0 {
      StepOpen(o, brk, st);
      StepValid(o, brk, st);
      LineStaysOpen(o, brk, Step(o, brk, st), n - 1);
    }
  }

  lemma StepOpen(o: Options, brk: set<nat>, st: State)
    requires Measured(o) && Valid(o, brk, st) && st.commands != [] && !AtLine(st) && !LineEnded(st.out)
    ensures !st.commands[0].doc.Nil? && !LineEnded(Step(o, brk, st).out)
  {
    hide Measured, Column, PrintGroup, Expanded, Marked, HasBreak, Sized, PrintLine, LineEnded;
    StepValid(o, brk, st);
    assert Fine(st.commands[0], o, brk);
    TextOpensLine(st.out, " ");
    if st.commands[0].doc.Text? {
      TextOpensLine(st.out, st.commands[0].doc.s);
    }
  }

  /** Then the line break prints a newline: it is not collapsed onto a line already ended. */
  lemma OpenLineBreaks(o: Options, brk: set<nat>, st: State)
    requires Measured(o) && Valid(o, brk, st) && AtLine(st) && !LineEnded(st.out)
    ensures !st.commands[0].doc.Nil? && exists tail :: Step(o, brk, st).out == Trimmed(st.out) + o.newLine + tail
                                                  || Step(o, brk, st).out == st.out + o.newLine + tail
  {
    hide Measured, Column, Expanded, Marked, HasBreak, Sized, LineEnded, IndentText;
    StepValid(o, brk, st);
    var cmd := st.commands[0];
    assert Step(o, brk, st).out == Trimmed(st.out) + o.newLine + IndentText(cmd.indentation, o)
        || Step(o, brk, st).out == st.out + o.newLine + "";
  }
}
