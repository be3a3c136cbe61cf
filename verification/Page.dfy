/** The page a document prints to: where its texts, blanks and lines end up (doc/print.go). */
module Page {
  import opened Doc
  import opened PrintMachine

  // ----- documents -----

  predicate AllBlank(s: string) {
    forall i :: 0 <= i < |s| ==> Blank(s[i])
  }

  /** A text that is no blanks ends visibly. */
  predicate EndsVisibly(s: string) {
    s != "" && !Blank(s[|s| - 1]) && s[|s| - 1] != '\n' && s[|s| - 1] != '\r'
  }

  /** Texts, lines and groups: no alternatives, suffixes, trims and literal lines. */
  predicate Straight(d: Doc)
    decreases d, 1
  {
    match d
    case Text(s) => AllBlank(s) || EndsVisibly(s)
    case LineDoc(line) => !line.literal
    case Concat(parts) => AllStraight(parts, d)
    case Indent(doc) => Straight(doc)
    case Align(_, doc) => Straight(doc)
    case Group(_, _, doc, expanded) => expanded == [] && Straight(doc)
    case BreakParent => true
    case _ => false
  }

  predicate AllStraight(ds: seq<Doc>, parent: Doc)
    requires forall i :: 0 <= i < |ds| ==> ds[i] < parent
    decreases parent, 0, |ds|
  {
    ds == [] || (Straight(ds[0]) && AllStraight(ds[1..], parent))
  }

  /** Indentation is spaces or tabs, and lines end in "\n" or "\r\n". */
  predicate LineOptions(o: Options) {
    AllBlank(o.indent) && (o.newLine == "\n" || o.newLine == "\r\n")
  }

  // ----- what a document holds, and where -----

  /** A text, blanks, or a line with the levels and columns of indentation around it. */
  datatype Spot = InkSpot(s: string) | BlankSpot(s: string)
      | LineSpot(line: Line, levels: int, columns: int, broken: bool)

  function TextSpot(s: string): Spot {
    if AllBlank(s) then BlankSpot(s) else InkSpot(s)
  }

  /** What has been placed, the modes of the groups still to be measured, and whether a hard line in a flat group
      makes the next group be measured again. */
  datatype Pen = Pen(spots: seq<Spot>, modes: seq<Mode>, remeasure: bool)

  /** The document within so many levels and columns of indentation, in a group of mode m. Each Indent is a level and
      each Align its columns, or a level when levels are tabs. A line breaks with its group, and a hard line always.
      A marked group is broken; in a flat group the groups are flat; other groups are measured. */
  function Place(d: Doc, m: Mode, levels: int, columns: int, tabs: bool, brk: set<nat>, pen: Pen): Pen
    decreases d, 1
  {
    match d
    case Text(s) => pen.(spots := pen.spots + [TextSpot(s)])
    case LineDoc(line) =>
      pen.(spots := pen.spots + [LineSpot(line, levels, columns, line.hard || m == Break)],
           remeasure := pen.remeasure || (line.hard && m == Flat))
    case Concat(parts) => PlaceAll(parts, d, m, levels, columns, tabs, brk, pen)
    case Indent(doc) => Place(doc, m, levels + 1, columns, tabs, brk, pen)
    case Align(n, doc) =>
      if tabs then Place(doc, m, levels + 1, columns, tabs, brk, pen)
      else Place(doc, m, levels, columns + n, tabs, brk, pen)
    case Group(node, _, doc, _) =>
      if node in brk then Place(doc, Break, levels, columns, tabs, brk, pen.(remeasure := false))
      else if m == Flat && !pen.remeasure then Place(doc, Flat, levels, columns, tabs, brk, pen)
      else Place(doc, First(pen.modes), levels, columns, tabs, brk, Pen(pen.spots, Later(pen.modes), false))
    case _ => pen
  }

  function PlaceAll(ds: seq<Doc>, parent: Doc, m: Mode, levels: int, columns: int, tabs: bool, brk: set<nat>, pen: Pen):
      Pen
    requires forall i :: 0 <= i < |ds| ==> ds[i] < parent
    decreases parent, 0, |ds|
  {
    if ds == [] then pen
    else PlaceAll(ds[1..], parent, m, levels, columns, tabs, brk, Place(ds[0], m, levels, columns, tabs, brk, pen))
  }

  function First(modes: seq<Mode>): Mode {
    if modes == [] then Break else modes[0]
  }

  function Later(modes: seq<Mode>): seq<Mode> {
    if modes == [] then [] else modes[1..]
  }

  /** The whole document, with the given modes for the groups that are measured. */
  function Placed(d: Doc, tabs: bool, brk: set<nat>, modes: seq<Mode>): seq<Spot> {
    Place(d, Break, 0, 0, tabs, brk, Pen([], modes, false)).spots
  }

  // ----- the page -----

  function Times(s: string, n: int): string {
    if n <= 0 then "" else s + Times(s, n - 1)
  }

  function Margin(o: Options, levels: int, columns: int): string {
    Times(o.indent, levels) + Times(" ", columns)
  }

  /** A line ends between two texts, with run before it: a hard line always does, the first line that breaks does, and
      otherwise a line only if it asks for it and no comment has ended its line. */
  predicate Ends(run: seq<Spot>, line: Line)
    decreases run, 1
  {
    line.hard || Breaks(run) == 0 || (line.afterComment && !CommentEnded(run))
  }

  /** How many lines end between two texts. */
  function Breaks(run: seq<Spot>): nat
    decreases run, 0
  {
    if run == [] then 0
    else
      var less, last := run[..|run| - 1], run[|run| - 1];
      Breaks(less) + if last.LineSpot? && last.broken && Ends(less, last.line) then 1 else 0
  }

  /** The last line that ended was a comment's, hard lines aside. */
  predicate CommentEnded(run: seq<Spot>)
    decreases run, 0
  {
    run != [] &&
    var less, last := run[..|run| - 1], run[|run| - 1];
    if last.BlankSpot? && last.s != "" then false
    else if last.LineSpot? && last.broken && Ends(less, last.line) && (last.line.comment || !last.line.hard)
    then last.line.comment
    else CommentEnded(less)
  }

  /** What follows the last line break between two texts, or all that is between them: after a break the margin of
      that line, and then blanks and lines that do not break. */
  function Tail(o: Options, run: seq<Spot>): string {
    if run == [] then ""
    else
      var less, last := run[..|run| - 1], run[|run| - 1];
      match last
      case InkSpot(_) => ""
      case BlankSpot(s) => Tail(o, less) + s
      case LineSpot(line, levels, columns, broken) =>
        if broken then Margin(o, levels, columns) else if line.soft then Tail(o, less) else Tail(o, less) + " "
  }

  /** What is printed between two texts. */
  function Gap(o: Options, run: seq<Spot>): string {
    Times(o.newLine, Breaks(run)) + Tail(o, run)
  }

  /** The blanks and lines after the last text. */
  function LastRun(spots: seq<Spot>): seq<Spot> {
    if spots == [] || spots[|spots| - 1].InkSpot? then [] else LastRun(spots[..|spots| - 1]) + [spots[|spots| - 1]]
  }

  /** The page up to the end of the last text. */
  function Inked(o: Options, spots: seq<Spot>): string {
    if spots == [] then ""
    else
      var less, last := spots[..|spots| - 1], spots[|spots| - 1];
      if last.InkSpot? then Inked(o, less) + Gap(o, LastRun(less)) + last.s else Inked(o, less)
  }

  /** The texts in order, with what is printed between each two of them, before and after. */
  function PageOf(o: Options, spots: seq<Spot>): string {
    Inked(o, spots) + Gap(o, LastRun(spots))
  }

  ghost predicate AllSolid(spots: seq<Spot>) {
    forall i :: 0 <= i < |spots| ==> Solid(spots[i])
  }

  predicate Solid(s: Spot) {
    match s
    case InkSpot(t) => EndsVisibly(t)
    case BlankSpot(t) => AllBlank(t)
    case LineSpot(line, _, _, broken) => line.hard ==> broken
  }

  // ----- one spot more -----

  lemma InkMore(o: Options, spots: seq<Spot>, s: string)
    ensures LastRun(spots + [InkSpot(s)]) == [] && PageOf(o, spots + [InkSpot(s)]) == PageOf(o, spots) + s
  {
    var more := spots + [InkSpot(s)];
    assert more[..|spots|] == spots;
    assert Gap(o, []) == "";
  }

  lemma RunMore(o: Options, spots: seq<Spot>, s: Spot)
    requires !s.InkSpot?
    ensures LastRun(spots + [s]) == LastRun(spots) + [s] && Inked(o, spots + [s]) == Inked(o, spots)
  {
    assert (spots + [s])[..|spots|] == spots;
  }

  lemma {:induction false} TimesMore(s: string, n: nat)
    ensures Times(s, n + 1) == Times(s, n) + s
  {
    if n > 0 {
      var less := Times(s, n - 1);
      TimesMore(s, n - 1);
      assert Times(s, n + 1) == s + (less + s) && Times(s, n) == s + less;
      assert s + (less + s) == s + less + s;
    } else {
      assert Times(s, 0) == "" && Times(s, 1) == s + Times(s, 0);
      assert s + "" == s == "" + s;
    }
  }

  lemma {:induction false} RepeatTimes(s: string, n: int)
    ensures Repeat(s, n) == Times(s, n)
    decreases n
  {
    if n > 0 {
      RepeatTimes(s, n - 1);
      TimesMore(s, n - 1);
    }
  }

  lemma IndentIsMargin(o: Options, i: Indentation)
    ensures IndentText(i, o) == Margin(o, i.levels, i.alignN)
  {
    hide Repeat;
    RepeatTimes(o.indent, i.levels);
    RepeatTimes(" ", i.alignN);
  }

  lemma {:induction false} TimesBlank(s: string, n: int)
    requires AllBlank(s)
    ensures AllBlank(Times(s, n))
    decreases n
  {
    if n > 0 {
      TimesBlank(s, n - 1);
    }
  }

  lemma {:induction false} TailBlank(o: Options, run: seq<Spot>)
    requires AllBlank(o.indent) && AllSolid(run)
    ensures AllBlank(Tail(o, run))
    decreases |run|
  {
    hide Times;
    if run != [] {
      var last := run[|run| - 1];
      TailBlank(o, run[..|run| - 1]);
      if last.LineSpot? {
        TimesBlank(o.indent, last.levels);
        TimesBlank(" ", last.columns);
      }
    }
  }

  lemma {:induction false} TrimmedAfter(a: string, blanks: string)
    requires AllBlank(blanks) && (a == "" || !Blank(a[|a| - 1]))
    ensures Trimmed(a + blanks) == a
    decreases |blanks|
  {
    if blanks == "" {
      assert a + blanks == a;
    } else {
      assert (a + blanks)[..|a + blanks| - 1] == a + blanks[..|blanks| - 1];
      TrimmedAfter(a, blanks[..|blanks| - 1]);
    }
  }

  lemma {:induction false} InkedEnds(o: Options, spots: seq<Spot>)
    requires AllSolid(spots)
    ensures Inked(o, spots) == "" || EndsVisibly(Inked(o, spots))
    decreases |spots|
  {
    hide Gap, LastRun, AllBlank;
    if spots != [] {
      var less, last := spots[..|spots| - 1], spots[|spots| - 1];
      InkedEnds(o, less);
      assert Solid(last);
    }
  }

  lemma {:induction false} RunSolid(spots: seq<Spot>)
    requires AllSolid(spots)
    ensures AllSolid(LastRun(spots))
    decreases |spots|
  {
    hide Solid;
    if spots != [] {
      RunSolid(spots[..|spots| - 1]);
    }
  }

  lemma LinesEnd(nl: string, n: nat)
    requires nl == "\n" || nl == "\r\n"
    ensures n == 0 ==> Times(nl, n) == ""
    ensures n > 0 ==> Times(nl, n) != "" && Times(nl, n)[|Times(nl, n)| - 1] == '\n'
  {
    if n > 0 {
      TimesMore(nl, n - 1);
    }
  }

  /** The page up to the last line break after its last text. */
  function Upper(o: Options, spots: seq<Spot>): string {
    Inked(o, spots) + Times(o.newLine, Breaks(LastRun(spots)))
  }

  /** Trimming takes off the blanks after the last text or line break, and shows which of them it was. */
  lemma PageTrimmed(o: Options, spots: seq<Spot>)
    requires LineOptions(o) && AllSolid(spots)
    ensures Trimmed(PageOf(o, spots)) == Upper(o, spots)
    ensures LineEnded(PageOf(o, spots)) <==> Breaks(LastRun(spots)) > 0
  {
    hide Times, Tail, Inked, LastRun, Breaks, Trimmed, AllSolid, AllBlank;
    var run := LastRun(spots);
    var a, lines, tail := Inked(o, spots), Times(o.newLine, Breaks(run)), Tail(o, run);
    InkedEnds(o, spots);
    RunSolid(spots);
    TailBlank(o, run);
    LinesEnd(o.newLine, Breaks(run));
    assert PageOf(o, spots) == a + lines + tail;
    assert a + lines != "" ==> !Blank((a + lines)[|a + lines| - 1]);
    TrimmedAfter(a + lines, tail);
  }

  // ----- runs of the printer -----

  function Left(o: Options, brk: set<nat>, cs: seq<Command>, pen: Pen): Pen
    decreases |cs|
  {
    if cs == [] then pen
    else
      var c := cs[0];
      Left(o, brk, cs[1..],
           Place(c.doc, c.mode, c.indentation.levels, c.indentation.alignN, o.indent == "\t", brk, pen))
  }

  lemma {:induction false} LeftConcat(o: Options, brk: set<nat>, a: seq<Command>, b: seq<Command>, pen: Pen)
    ensures Left(o, brk, a + b, pen) == Left(o, brk, b, Left(o, brk, a, pen))
    decreases |a|
  {
    hide Place;
    if a == [] {
      assert a + b == b;
    } else {
      var c := a[0];
      assert (a + b)[0] == a[0] && (a + b)[1..] == a[1..] + b;
      LeftConcat(o, brk, a[1..], b,
                 Place(c.doc, c.mode, c.indentation.levels, c.indentation.alignN, o.indent == "\t", brk, pen));
    }
  }

  lemma {:induction false} LeftEach(o: Options, brk: set<nat>, parts: seq<Doc>, i: Indentation, m: Mode, parent: Doc,
                                    pen: Pen)
    requires forall k :: 0 <= k < |parts| ==> parts[k] < parent
    ensures Left(o, brk, Each(parts, i, m), pen)
         == PlaceAll(parts, parent, m, i.levels, i.alignN, o.indent == "\t", brk, pen)
    decreases |parts|
  {
    hide Place;
    if parts != [] {
      LeftEach(o, brk, parts[1..], i, m, parent,
               Place(parts[0], m, i.levels, i.alignN, o.indent == "\t", brk, pen));
      assert Each(parts, i, m)[1..] == Each(parts[1..], i, m);
    }
  }

  lemma LeftOne(o: Options, brk: set<nat>, c: Command, pen: Pen)
    ensures Left(o, brk, [c], pen)
         == Place(c.doc, c.mode, c.indentation.levels, c.indentation.alignN, o.indent == "\t", brk, pen)
    ensures Left(o, brk, [], pen) == pen
  {
    hide Place;
    assert [c][1..] == [];
  }

  predicate AllCommands(cs: seq<Command>) {
    forall i :: 0 <= i < |cs| ==> Straight(cs[i].doc)
  }

  lemma {:induction false} EachStraight(parts: seq<Doc>, i: Indentation, m: Mode, parent: Doc)
    requires forall k :: 0 <= k < |parts| ==> parts[k] < parent
    requires AllStraight(parts, parent)
    ensures AllCommands(Each(parts, i, m))
    decreases |parts|
  {
    if parts != [] {
      EachStraight(parts[1..], i, m, parent);
      assert Each(parts, i, m) == [Command(i, m, parts[0])] + Each(parts[1..], i, m);
    }
  }

  /** What a step prints itself. */
  function Printed(c: Command): seq<Spot> {
    match c.doc
    case Text(s) => [TextSpot(s)]
    case LineDoc(line) =>
      [LineSpot(line, c.indentation.levels, c.indentation.alignN, line.hard || c.mode == Break)]
    case _ => []
  }

  /** The printer has written the spots. */
  ghost predicate Wrote(o: Options, st: State, spots: seq<Spot>) {
    && st.out == PageOf(o, spots) && st.lastLineComment == CommentEnded(LastRun(spots)) && AllSolid(spots)
    && AllCommands(st.commands) && st.lineSuffix == []
  }

  lemma CommentAfter(run: seq<Spot>, s: Spot)
    ensures Breaks(run + [s]) == Breaks(run) + (if s.LineSpot? && s.broken && Ends(run, s.line) then 1 else 0)
    ensures CommentEnded(run + [s]) ==
            if s.BlankSpot? && s.s != "" then false
            else if s.LineSpot? && s.broken && Ends(run, s.line) && (s.line.comment || !s.line.hard)
            then s.line.comment
            else CommentEnded(run)
  {
    assert (run + [s])[..|run|] == run;
  }

  lemma TailMore(o: Options, run: seq<Spot>, s: Spot)
    requires !s.InkSpot?
    ensures s.BlankSpot? ==> Tail(o, run + [s]) == Tail(o, run) + s.s
    ensures s.LineSpot? ==> Tail(o, run + [s]) == if s.broken then Margin(o, s.levels, s.columns)
                                                  else if s.line.soft then Tail(o, run) else Tail(o, run) + " "
  {
    assert (run + [s])[..|run|] == run;
  }

  lemma BlankWritten(o: Options, spots: seq<Spot>, s: Spot, t: string)
    requires s == BlankSpot(t) || (s.LineSpot? && !s.broken && t == if s.line.soft then "" else " ")
    ensures PageOf(o, spots + [s]) == PageOf(o, spots) + t
    ensures CommentEnded(LastRun(spots + [s])) == (CommentEnded(LastRun(spots)) && (s.LineSpot? || t == ""))
  {
    hide Inked, LastRun, Tail, Times, Breaks, CommentEnded, Margin;
    var run := LastRun(spots);
    RunMore(o, spots, s);
    CommentAfter(run, s);
    TailMore(o, run, s);
    var a, b, c := Inked(o, spots), Times(o.newLine, Breaks(run)), Tail(o, run);
    assert a + (b + (c + t)) == a + (b + c) + t;
    assert c + "" == c;
  }

  lemma LineWritten(o: Options, st: State, spots: seq<Spot>, line: Line, ind: Indentation)
    requires LineOptions(o) && st.out == PageOf(o, spots) && AllSolid(spots) && !line.literal
    requires st.lastLineComment == CommentEnded(LastRun(spots))
    ensures var r, more := PrintLine(o, st, line, ind), spots + [LineSpot(line, ind.levels, ind.alignN, true)];
            r.out == PageOf(o, more) && r.lastLineComment == CommentEnded(LastRun(more))
  {
    hide Inked, LastRun, Tail, Times, Breaks, CommentEnded, Margin, Trimmed, LineEnded, IndentText, LineOptions,
         AllSolid, PageOf;
    var run, s := LastRun(spots), LineSpot(line, ind.levels, ind.alignN, true);
    var more := spots + [s];
    RunMore(o, spots, s);
    CommentAfter(run, s);
    TailMore(o, run, s);
    PageTrimmed(o, spots);
    IndentIsMargin(o, ind);
    var margin := Margin(o, ind.levels, ind.alignN);
    TimesMore(o.newLine, Breaks(run));
    PageIs(o, spots);
    PageIs(o, more);
    if Ends(run, line) {
      assert Upper(o, more) == Inked(o, spots) + (Times(o.newLine, Breaks(run)) + o.newLine);
      assert Upper(o, more) == Upper(o, spots) + o.newLine;
    }
  }

  lemma PageIs(o: Options, spots: seq<Spot>)
    ensures PageOf(o, spots) == Upper(o, spots) + Tail(o, LastRun(spots))
  {
    hide Inked, LastRun, Tail, Times, Breaks;
  }

  lemma ExpandedStraight(o: Options, brk: set<nat>, st: State)
    requires st.commands != [] && AllCommands(st.commands)
    ensures AllCommands(Expanded(o, brk, st) + st.commands[1..])
  {
    hide PrintGroup;
    var cmd := st.commands[0];
    match cmd.doc
    case Concat(parts) => EachStraight(parts, cmd.indentation, cmd.mode, cmd.doc);
    case _ =>
  }

  /** A step writes what its command prints. */
  lemma StepWrites(o: Options, brk: set<nat>, st: State, spots: seq<Spot>)
    requires LineOptions(o) && st.commands != [] && Wrote(o, st, spots)
    ensures Straight(st.commands[0].doc) && !st.commands[0].doc.Nil?
    ensures Wrote(o, Step(o, brk, st), spots + Printed(st.commands[0]))
  {
    hide Expanded, PrintGroup, PrintLine, LineOptions, PageOf, CommentEnded, LastRun, AllBlank, EndsVisibly;
    var cmd := st.commands[0];
    assert spots + [] == spots;
    ExpandedStraight(o, brk, st);
    match cmd.doc
    case Text(s) =>
      if AllBlank(s) {
        BlankWritten(o, spots, BlankSpot(s), s);
        assert s == "" ==> st.out + s == st.out;
      } else {
        InkMore(o, spots, s);
        NotEmpty(s);
        NoComment();
      }
    case LineDoc(line) =>
      if cmd.mode == Flat && !line.hard {
        BlankWritten(o, spots, Printed(cmd)[0], if line.soft then "" else " ");
        assert st.out + "" == st.out;
      } else {
        var st' := st.(commands := Expanded(o, brk, st) + st.commands[1..],
                       shouldRemeasure := st.shouldRemeasure || cmd.mode == Flat);
        LineWritten(o, st', spots, line, cmd.indentation);
        LineKeepsLists(o, st', line, cmd.indentation);
      }
    case _ =>
  }

  lemma NoComment()
    ensures !CommentEnded([])
  {
  }

  lemma NotEmpty(s: string)
    requires !AllBlank(s)
    ensures s != ""
  {
  }

  /** The top command is a group that the printer measures. */
  predicate Measured(brk: set<nat>, st: State)
    requires st.commands != []
  {
    var cmd := st.commands[0];
    cmd.doc.Group? && cmd.doc.node !in brk && !(cmd.mode == Flat && !st.shouldRemeasure)
  }

  /** The modes of the measured groups from here on, with those after the step given. */
  function Chosen(o: Options, brk: set<nat>, st: State, later: seq<Mode>): seq<Mode>
    requires st.commands != []
  {
    if Measured(brk, st) then [PrintGroup(o, brk, st).mode] + later else later
  }

  lemma GroupMode(o: Options, brk: set<nat>, st: State)
    requires st.commands != [] && st.commands[0].doc.Group? && st.commands[0].doc.expanded == []
    ensures var cmd, r := st.commands[0], PrintGroup(o, brk, st);
            && r.doc == cmd.doc.doc && r.indentation == cmd.indentation
            && (cmd.doc.node in brk ==> r.mode == Break)
            && (cmd.doc.node !in brk && cmd.mode == Flat && !st.shouldRemeasure ==> r.mode == Flat)
  {
    hide FitsHere;
  }

  /** What a command places is what it prints itself and what the commands that replace it place. */
  lemma CommandPlaces(o: Options, brk: set<nat>, st: State, spots: seq<Spot>, later: seq<Mode>)
    requires st.commands != [] && Straight(st.commands[0].doc) && st.lineSuffix == []
    ensures var c := st.commands[0];
            Place(c.doc, c.mode, c.indentation.levels, c.indentation.alignN, o.indent == "\t", brk,
                  Pen(spots, Chosen(o, brk, st, later), st.shouldRemeasure))
            == Left(o, brk, Expanded(o, brk, st), Pen(spots + Printed(c), later, Step(o, brk, st).shouldRemeasure))
  {
    hide PrintGroup, PrintLine, Left;
    var cmd, e := st.commands[0], Expanded(o, brk, st);
    var next := Pen(spots + Printed(cmd), later, Step(o, brk, st).shouldRemeasure);
    assert spots + [] == spots;
    if |e| == 1 {
      assert e == [e[0]];
      LeftOne(o, brk, e[0], next);
    }
    LeftOne(o, brk, cmd, next);
    match cmd.doc
    case Concat(parts) => LeftEach(o, brk, parts, cmd.indentation, cmd.mode, cmd.doc, next);
    case Group(_, _, _, _) => GroupMode(o, brk, st);
    case LineDoc(line) => LineMeasures(o, brk, st, line);
    case _ =>
  }

  lemma LineMeasures(o: Options, brk: set<nat>, st: State, line: Line)
    requires st.commands != [] && st.commands[0].doc == LineDoc(line) && !line.literal && st.lineSuffix == []
    ensures Step(o, brk, st).shouldRemeasure == (st.shouldRemeasure || (line.hard && st.commands[0].mode == Flat))
  {
  }

  lemma StepCommands(o: Options, brk: set<nat>, st: State)
    requires st.commands != [] && Straight(st.commands[0].doc) && st.lineSuffix == []
    ensures Step(o, brk, st).commands == Expanded(o, brk, st) + st.commands[1..]
  {
    hide PrintGroup, Expanded, IndentText, Trimmed, LineEnded;
  }

  lemma NotNil(d: Doc)
    requires Straight(d)
    ensures !d.Nil?
  {
  }

  lemma StepPlaces(o: Options, brk: set<nat>, st: State, spots: seq<Spot>, later: seq<Mode>)
    requires st.commands != [] && Straight(st.commands[0].doc) && st.lineSuffix == []
    ensures Left(o, brk, st.commands, Pen(spots, Chosen(o, brk, st, later), st.shouldRemeasure))
         == Left(o, brk, Step(o, brk, st).commands,
                 Pen(spots + Printed(st.commands[0]), later, Step(o, brk, st).shouldRemeasure))
  {
    hide Place, Step, Expanded, Chosen, Printed, Straight;
    NotNil(st.commands[0].doc);
    CommandPlaces(o, brk, st, spots, later);
    StepCommands(o, brk, st);
    LeftConcat(o, brk, Expanded(o, brk, st), st.commands[1..],
               Pen(spots + Printed(st.commands[0]), later, Step(o, brk, st).shouldRemeasure));
  }

  /** The rest of a run puts what is left on the page, for some modes of the groups it measures. */
  lemma {:induction false} RunPlaces(o: Options, brk: set<nat>, st: State, spots: seq<Spot>) returns (modes: seq<Mode>)
    requires LineOptions(o) && Wrote(o, st, spots)
    ensures var r, pen := Run(o, brk, st), Left(o, brk, st.commands, Pen(spots, modes, st.shouldRemeasure));
            r.Ok? && r.text == PageOf(o, pen.spots) && AllSolid(pen.spots)
    decreases Total(st), |st.lineSuffix|
  {
    hide Left, Step, Straight, Total, LineOptions, PageOf, CommentEnded, LastRun, AllSolid, Chosen, Printed,
         AllCommands;
    if st.commands == [] {
      modes := [];
      LeftNone(o, brk, Pen(spots, modes, st.shouldRemeasure));
    } else {
      StepWrites(o, brk, st, spots);
      StepShrinks(o, brk, st);
      var later := RunPlaces(o, brk, Step(o, brk, st), spots + Printed(st.commands[0]));
      modes := Chosen(o, brk, st, later);
      StepPlaces(o, brk, st, spots, later);
    }
  }

  lemma LeftNone(o: Options, brk: set<nat>, pen: Pen)
    ensures Left(o, brk, [], pen) == pen
  {
  }

  lemma StartWrote(o: Options, d: Doc)
    requires Straight(d)
    ensures Wrote(o, Start(d), [])
  {
    hide Straight;
    assert Gap(o, []) == "";
  }

  /** text is the page of the document for some modes of the groups that are measured. */
  ghost predicate IsPage(o: Options, brk: set<nat>, d: Doc, text: string) {
    exists modes :: ShowsPage(o, brk, d, modes, text)
  }

  ghost predicate ShowsPage(o: Options, brk: set<nat>, d: Doc, modes: seq<Mode>, text: string) {
    var spots := Placed(d, o.indent == "\t", brk, modes);
    text == PageOf(o, spots) && AllSolid(spots)
  }

  /** A straight document is printed to the page of its texts, blanks and lines, each line with the indentation around
      it, for some modes of the groups that the printer measures. */
  lemma PrintedIs(o: Options, brk: set<nat>, d: Doc)
    requires LineOptions(o) && Straight(d)
    ensures var r := Run(o, brk, Start(d)); r.Ok? && IsPage(o, brk, d, r.text)
  {
    hide Straight, LineOptions, PageOf, AllSolid, Place;
    StartWrote(o, d);
    var modes := RunPlaces(o, brk, Start(d), []);
    var c := Start(d).commands[0];
    assert Start(d).commands == [c];
    LeftOne(o, brk, c, Pen([], modes, false));
    assert ShowsPage(o, brk, d, modes, Run(o, brk, Start(d)).text);
  }
}
