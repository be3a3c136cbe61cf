/** The printer's work list (doc/print.go) as a step function on its variables. */
module PrintMachine {
  import opened Doc

  datatype Mode = Flat | Break

  datatype Indentation = Indentation(levels: int, alignN: int, length: int)

  datatype Command = Command(indentation: Indentation, mode: Mode, doc: Doc)

  /** width is the display width of a text. */
  datatype Options = Options(printWidth: int, indent: string, tabWidth: int, newLine: string, width: string -> nat)

  /** The local work list of run, top first, and the fields of printer. */
  datatype State = State(commands: seq<Command>, out: string, position: int, lineSuffix: seq<Command>,
                         groupMode: map<int, Mode>, shouldRemeasure: bool, lastLineComment: bool)

  const MAX_INT := 0x7fff_ffff_ffff_ffff

  // ----- indentation and trimming -----

  function AddLevel(i: Indentation, o: Options): Indentation {
    i.(levels := i.levels + 1, length := i.length + o.tabWidth)
  }

  function AlignBy(i: Indentation, n: int, o: Options): Indentation {
    if o.indent != "\t" then i.(alignN := i.alignN + n, length := i.length + n)
    else i.(levels := i.levels + 1, length := i.length + o.tabWidth)
  }

  function Repeat(s: string, n: int): string {
    if n <= 0 then "" else Repeat(s, n - 1) + s
  }

  function IndentText(i: Indentation, o: Options): string {
    (if i.levels > 0 then Repeat(o.indent, i.levels) else "") + (if i.alignN > 0 then Repeat(" ", i.alignN) else "")
  }

  predicate Blank(c: char) {
    c == ' ' || c == '\t'
  }

  function Trimmed(s: string): string {
    if s != "" && Blank(s[|s| - 1]) then Trimmed(s[..|s| - 1]) else s
  }

  /** The output ends with a newline, ignoring trailing blanks. */
  predicate LineEnded(s: string) {
    var t := Trimmed(s);
    t != "" && t[|t| - 1] == '\n'
  }

  // ----- weights -----

  function Weight(d: Doc): (w: nat)
    ensures w >= 1
    decreases d, 1
  {
    (if d.LineSuffixBoundary? then 2 else 1) + WeightAll(Children(d), d)
  }

  function WeightAll(ds: seq<Doc>, parent: Doc): nat
    requires forall i :: 0 <= i < |ds| ==> ds[i] < parent
    decreases parent, 0, |ds|
  {
    if ds == [] then 0 else Weight(ds[0]) + WeightAll(ds[1..], parent)
  }

  function Load(cs: seq<Command>): nat {
    if cs == [] then 0 else Weight(cs[0].doc) + Load(cs[1..])
  }

  lemma {:induction false} LoadConcat(a: seq<Command>, b: seq<Command>)
    ensures Load(a + b) == Load(a) + Load(b)
  {
    if a == [] {
      assert a + b == b;
    } else {
      LoadConcat(a[1..], b);
      assert (a + b)[0] == a[0] && (a + b)[1..] == a[1..] + b;
    }
  }

  /** Commands for each part, in order. */
  function Each(parts: seq<Doc>, i: Indentation, m: Mode): (r: seq<Command>)
    ensures |r| == |parts| && forall k :: 0 <= k < |r| ==> r[k] == Command(i, m, parts[k])
  {
    seq(|parts|, k requires 0 <= k < |parts| => Command(i, m, parts[k]))
  }

  lemma {:induction false} LoadEach(parts: seq<Doc>, i: Indentation, m: Mode, parent: Doc)
    requires forall i :: 0 <= i < |parts| ==> parts[i] < parent
    ensures Load(Each(parts, i, m)) == WeightAll(parts, parent)
  {
    if parts != [] {
      LoadEach(parts[1..], i, m, parent);
      assert Each(parts, i, m)[1..] == Each(parts[1..], i, m);
    }
  }

  lemma {:induction false} WeightMember(ds: seq<Doc>, parent: Doc, k: nat)
    requires forall i :: 0 <= i < |ds| ==> ds[i] < parent
    requires k < |ds|
    ensures Weight(ds[k]) <= WeightAll(ds, parent)
  {
    if k > 0 {
      WeightMember(ds[1..], parent, k - 1);
    }
  }

  // ----- the look-ahead -----

  function IfBreakContents(groupMode: map<int, Mode>, d: Doc, mode: Mode): (r: Doc)
    requires d.IfBreak?
    ensures r == d.broken || r == d.flat
  {
    var m := if d.groupID == 0 then mode
             else if d.groupID in groupMode then groupMode[d.groupID] else Flat;
    if m == Break then d.broken else d.flat
  }

  function Last(ds: seq<Doc>): (r: Doc)
    requires ds != []
    ensures r in ds
  {
    ds[|ds| - 1]
  }

  /** What fits pushes for a group in mode m. */
  function FitsContents(d: Doc, m: Mode): (r: Doc)
    requires d.Group?
    ensures r in Children(d)
  {
    if d.expanded != [] && m == Break then Last(d.expanded) else d.doc
  }

  /** The loop variables of fits, with rest below the commands of the look-ahead: fits takes from
      rest only when its own commands run out. */
  datatype Ahead = Ahead(stack: seq<Command>, width: int, space: bool, output: string, suffix: bool)

  datatype Look = Fit | NoFit | More(next: Ahead)

  /** What fits pushes in place of a command. */
  function Unfolded(brk: set<nat>, groupMode: map<int, Mode>, cmd: Command): seq<Command> {
    match cmd.doc
    case Concat(parts) => Each(parts, cmd.indentation, cmd.mode)
    case Indent(doc) => [cmd.(doc := doc)]
    case Align(_, doc) => [cmd.(doc := doc)]
    case Group(node, _, _, _) =>
      var m := if node in brk then Break else cmd.mode;
      [Command(cmd.indentation, m, FitsContents(cmd.doc, m))]
    case IfBreak(_, _, _) =>
      var contents := IfBreakContents(groupMode, cmd.doc, cmd.mode);
      if contents.Nil? then [] else [cmd.(doc := contents)]
    case _ => []
  }

  /** One iteration of the loop in fits. */
  function LookStep(o: Options, brk: set<nat>, groupMode: map<int, Mode>, a: Ahead): Look {
    if a.width < 0 then NoFit
    else if a.stack == [] then Fit
    else
      var cmd := a.stack[0];
      var next := a.(stack := Unfolded(brk, groupMode, cmd) + a.stack[1..]);
      match cmd.doc
      case Text(s) =>
        if s == "" then More(next)
        else More(next.(width := a.width - (if a.space then 1 else 0) - o.width(s), space := false,
                        output := a.output + (if a.space then " " else "") + s))
      case Trim => More(next.(width := a.width + (|a.output| - |Trimmed(a.output)|), output := ""))
      case Group(node, _, _, _) => if node in brk && cmd.mode == Flat then NoFit else More(next)
      case LineDoc(line) =>
        if cmd.mode == Break || line.hard then Fit else More(next.(space := a.space || !line.soft))
      case LineSuffix(_) => More(next.(suffix := true))
      case LineSuffixBoundary => if a.suffix then NoFit else More(next)
      case _ => More(next)
  }

  lemma ChildIsLighter(d: Doc, c: Doc)
    requires c in Children(d)
    ensures Weight(c) < Weight(d)
  {
    var k :| 0 <= k < |Children(d)| && Children(d)[k] == c;
    WeightMember(Children(d), d, k);
  }

  lemma LoadOne(c: Command)
    ensures Load([c]) == Weight(c.doc)
  {
    assert [c][1..] == [];
  }

  lemma UnfoldedLighter(brk: set<nat>, groupMode: map<int, Mode>, cmd: Command)
    ensures Load(Unfolded(brk, groupMode, cmd)) < Weight(cmd.doc)
  {
    hide Weight, Load;
    var u := Unfolded(brk, groupMode, cmd);
    if cmd.doc.Concat? {
      LoadEach(cmd.doc.parts, cmd.indentation, cmd.mode, cmd.doc);
      WeightOfConcat(cmd.doc);
    } else if u == [] {
      LoadNone(cmd);
    } else {
      assert u == [u[0]];
      LoadOne(u[0]);
      ChildIsLighter(cmd.doc, u[0].doc);
    }
  }

  lemma WeightOfConcat(d: Doc)
    requires d.Concat?
    ensures Weight(d) == 1 + WeightAll(d.parts, d)
  {
  }

  lemma LoadNone(c: Command)
    ensures Load([]) == 0 < Weight(c.doc)
  {
  }

  lemma LoadTop(stack: seq<Command>, cs: seq<Command>)
    requires stack != []
    ensures Load(cs + stack[1..]) == Load(stack) - Weight(stack[0].doc) + Load(cs)
  {
    LoadConcat(cs, stack[1..]);
  }

  lemma LookShrinks(o: Options, brk: set<nat>, groupMode: map<int, Mode>, a: Ahead)
    ensures var r := LookStep(o, brk, groupMode, a); r.More? ==> Load(r.next.stack) < Load(a.stack)
  {
    hide Load, Weight, Unfolded;
    if a.stack != [] {
      UnfoldedLighter(brk, groupMode, a.stack[0]);
      LoadTop(a.stack, Unfolded(brk, groupMode, a.stack[0]));
    }
  }

  function LookAhead(o: Options, brk: set<nat>, groupMode: map<int, Mode>, a: Ahead): bool
    decreases Load(a.stack)
  {
    LookShrinks(o, brk, groupMode, a);
    match LookStep(o, brk, groupMode, a)
    case Fit => true
    case NoFit => false
    case More(next) => LookAhead(o, brk, groupMode, next)
  }

  function Fits(o: Options, brk: set<nat>, groupMode: map<int, Mode>, next: Command, rest: seq<Command>,
                remaining: int, hasLineSuffix: bool): bool
  {
    remaining == MAX_INT || LookAhead(o, brk, groupMode, Ahead([next] + rest, remaining, false, "", hasLineSuffix))
  }

  // ----- groups -----

  predicate FitsHere(o: Options, brk: set<nat>, st: State, c: Command) {
    st.commands != [] &&
    Fits(o, brk, st.groupMode, c, st.commands[1..], o.printWidth - st.position, st.lineSuffix != [])
  }

  /** The first of expanded[i..len-1) that fits, else the last state broken. */
  function TryStates(o: Options, brk: set<nat>, st: State, ind: Indentation, expanded: seq<Doc>, i: nat): (r: Command)
    requires expanded != []
    ensures r.doc in expanded
    decreases |expanded| - i
  {
    if i >= |expanded| - 1 then Command(ind, Break, Last(expanded))
    else if FitsHere(o, brk, st, Command(ind, Flat, expanded[i])) then Command(ind, Flat, expanded[i])
    else TryStates(o, brk, st, ind, expanded, i + 1)
  }

  /** The command that prints the group on top of the list. */
  function PrintGroup(o: Options, brk: set<nat>, st: State): (r: Command)
    requires st.commands != [] && st.commands[0].doc.Group?
    ensures r.doc in Children(st.commands[0].doc)
  {
    var cmd := st.commands[0];
    var g := cmd.doc;
    if cmd.mode == Flat && !st.shouldRemeasure then
      Command(cmd.indentation, if g.node in brk then Break else Flat, g.doc)
    else if g.node !in brk && FitsHere(o, brk, st, Command(cmd.indentation, Flat, g.doc)) then
      Command(cmd.indentation, Flat, g.doc)
    else if g.expanded == [] then Command(cmd.indentation, Break, g.doc)
    else if g.node in brk then Command(cmd.indentation, Break, Last(g.expanded))
    else TryStates(o, brk, st, cmd.indentation, g.expanded, 1)
  }

  // ----- one step of run -----

  /** A line in break mode, or a hard line, with no suffix pending. */
  function PrintLine(o: Options, st: State, line: Line, ind: Indentation): State {
    if line.literal then
      st.(out := st.out + o.newLine, position := 0, lastLineComment := false)
    else if !line.hard && LineEnded(st.out) && (!line.afterComment || st.lastLineComment) then
      st.(out := Trimmed(st.out) + IndentText(ind, o), position := ind.length)
    else
      st.(out := Trimmed(st.out) + o.newLine + IndentText(ind, o), position := ind.length,
          lastLineComment := if line.comment then true else if !line.hard then false else st.lastLineComment)
  }

  /** The commands that take the place of the top one, suffixes and pending lines aside. */
  function Expanded(o: Options, brk: set<nat>, st: State): seq<Command>
    requires st.commands != []
  {
    var cmd := st.commands[0];
    match cmd.doc
    case Concat(parts) => Each(parts, cmd.indentation, cmd.mode)
    case Indent(doc) => [Command(AddLevel(cmd.indentation, o), cmd.mode, doc)]
    case Align(n, doc) => [Command(AlignBy(cmd.indentation, n, o), cmd.mode, doc)]
    case Group(_, _, _, _) => [PrintGroup(o, brk, st)]
    case IfBreak(_, _, _) =>
      var contents := IfBreakContents(st.groupMode, cmd.doc, cmd.mode);
      if contents.Nil? then [] else [cmd.(doc := contents)]
    case _ => []
  }

  /** What the switch in run does with the top command; a nil document is an error. */
  function Execute(o: Options, brk: set<nat>, st: State): State
    requires st.commands != [] && !st.commands[0].doc.Nil?
  {
    var cmd := st.commands[0];
    var next := st.(commands := Expanded(o, brk, st) + st.commands[1..]);
    match cmd.doc
    case Text(s) =>
      if s == "" then next
      else next.(out := st.out + s, lastLineComment := false,
                 position := st.position + (if |st.commands| > 1 then o.width(s) else 0))
    case Trim => next.(out := Trimmed(st.out), position := st.position - (|st.out| - |Trimmed(st.out)|))
    case Group(_, id, _, _) =>
      next.(groupMode := if id != 0 then st.groupMode[id := PrintGroup(o, brk, st).mode] else st.groupMode,
            shouldRemeasure := false)
    case LineSuffix(doc) => next.(lineSuffix := st.lineSuffix + [cmd.(doc := doc)])
    case LineSuffixBoundary =>
      if st.lineSuffix != [] then next.(commands := [cmd.(doc := HARD_LINE_NO_BREAK)] + st.commands[1..]) else next
    case LineDoc(line) =>
      if cmd.mode == Flat && !line.hard then
        if line.soft then next else next.(out := st.out + " ", position := st.position + 1)
      else
        var next := next.(shouldRemeasure := st.shouldRemeasure || cmd.mode == Flat);
        if st.lineSuffix != [] then next.(commands := st.lineSuffix + st.commands, lineSuffix := [])
        else PrintLine(o, next, line, cmd.indentation)
    case _ => next
  }

  /** Suffixes still pending at the end of the document are printed there. */
  function Flush(st: State): State {
    if st.commands == [] && st.lineSuffix != [] then st.(commands := st.lineSuffix, lineSuffix := []) else st
  }

  function Step(o: Options, brk: set<nat>, st: State): State
    requires st.commands != [] && !st.commands[0].doc.Nil?
  {
    Flush(Execute(o, brk, st))
  }

  // ----- runs -----

  function Total(st: State): nat {
    Load(st.commands) + Load(st.lineSuffix)
  }

  lemma FlushKeepsTotal(st: State)
    ensures Total(Flush(st)) == Total(st)
  {
  }

  lemma ExpandedLighter(o: Options, brk: set<nat>, st: State)
    requires st.commands != []
    ensures Load(Expanded(o, brk, st)) < Weight(st.commands[0].doc)
  {
    hide Weight, Load, PrintGroup;
    var cmd, e := st.commands[0], Expanded(o, brk, st);
    if cmd.doc.Concat? {
      LoadEach(cmd.doc.parts, cmd.indentation, cmd.mode, cmd.doc);
      WeightOfConcat(cmd.doc);
    } else if e == [] {
      LoadNone(cmd);
    } else {
      assert e == [e[0]];
      LoadOne(e[0]);
      ChildIsLighter(cmd.doc, e[0].doc);
    }
  }

  lemma PlainShrinks(o: Options, brk: set<nat>, st: State)
    requires st.commands != [] && !st.commands[0].doc.Nil?
    requires !st.commands[0].doc.LineSuffix? && !st.commands[0].doc.LineSuffixBoundary? && !st.commands[0].doc.LineDoc?
    ensures Total(Execute(o, brk, st)) < Total(st)
  {
    hide Load, Weight, Expanded, PrintGroup, Trimmed;
    ExpandedLighter(o, brk, st);
    LoadTop(st.commands, Expanded(o, brk, st));
  }

  lemma SuffixShrinks(o: Options, brk: set<nat>, st: State)
    requires st.commands != [] && (st.commands[0].doc.LineSuffix? || st.commands[0].doc.LineSuffixBoundary?)
    ensures Total(Execute(o, brk, st)) < Total(st)
  {
    hide Load, Weight;
    var cmd := st.commands[0];
    LoadTop(st.commands, []);
    LoadNone(cmd);
    match cmd.doc
    case LineSuffix(doc) =>
      LoadConcat(st.lineSuffix, [cmd.(doc := doc)]);
      LoadOne(cmd.(doc := doc));
      ChildIsLighter(cmd.doc, doc);
    case LineSuffixBoundary =>
      LoadTop(st.commands, [cmd.(doc := HARD_LINE_NO_BREAK)]);
      LoadOne(cmd.(doc := HARD_LINE_NO_BREAK));
      BoundaryWeight();
  }

  lemma LineShrinks(o: Options, brk: set<nat>, st: State)
    requires st.commands != [] && st.commands[0].doc.LineDoc?
    ensures var r := Execute(o, brk, st);
            Total(r) < Total(st) || (Total(r) == Total(st) && st.lineSuffix != [] && r.lineSuffix == [])
  {
    hide Load, Weight, PrintLine;
    var cmd := st.commands[0];
    LoadTop(st.commands, []);
    LoadNone(cmd);
    LoadConcat(st.lineSuffix, st.commands);
    LineKeepsLists(o, st.(commands := [] + st.commands[1..], shouldRemeasure := st.shouldRemeasure || cmd.mode == Flat),
                   cmd.doc.line, cmd.indentation);
  }

  /** Each step lightens the list and the pending suffixes together, or moves the suffixes. */
  lemma StepShrinks(o: Options, brk: set<nat>, st: State)
    requires st.commands != [] && !st.commands[0].doc.Nil?
    ensures Total(Step(o, brk, st)) < Total(st)
         || (Total(Step(o, brk, st)) == Total(st) && st.lineSuffix != [] && Step(o, brk, st).lineSuffix == [])
  {
    hide Execute, Total, Load, Weight;
    FlushKeepsTotal(Execute(o, brk, st));
    var d := st.commands[0].doc;
    if d.LineDoc? {
      LineShrinks(o, brk, st);
    } else if d.LineSuffix? || d.LineSuffixBoundary? {
      SuffixShrinks(o, brk, st);
    } else {
      PlainShrinks(o, brk, st);
    }
  }

  lemma LineKeepsLists(o: Options, st: State, line: Line, ind: Indentation)
    ensures var r := PrintLine(o, st, line, ind); r.commands == st.commands && r.lineSuffix == st.lineSuffix
  {
    hide LineEnded, Trimmed, IndentText;
  }

  lemma BoundaryWeight()
    ensures Weight(HARD_LINE_NO_BREAK) < Weight(LineSuffixBoundary)
  {
    assert Children(HARD_LINE_NO_BREAK) == [] && Children(LineSuffixBoundary) == [];
  }

  datatype Result = Ok(text: string) | Err

  /** run: the output, or an error at a nil document. */
  function Run(o: Options, brk: set<nat>, st: State): Result
    decreases Total(st), |st.lineSuffix|
  {
    if st.commands == [] then Ok(st.out)
    else if st.commands[0].doc.Nil? then Err
    else
      StepShrinks(o, brk, st);
      Run(o, brk, Step(o, brk, st))
  }

  function Start(d: Doc): State {
    State([Command(Indentation(0, 0, 0), Break, d)], "", 0, [], map[], false, false)
  }
}
