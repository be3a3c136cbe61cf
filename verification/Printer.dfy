/** The printer as the class it is (doc/print.go), proved against the step function. */
module Printer {
  import opened Doc
  import opened Breaks
  import opened PrintMachine
  import opened PrintText
  import Page

  class Printer {
    const o: Options
    /** The groups break propagation left broken. */
    const brk: set<nat>

    var position: int
    var out: string
    var groupMode: map<int, Mode>
    var lineSuffix: seq<Command>
    var shouldRemeasure: bool
    var lastLineComment: bool
    /** Materialized indentation, one per level. */
    var prefixes: seq<string>

    constructor (o: Options, brk: set<nat>)
      ensures this.o == o && this.brk == brk && Valid()
      ensures forall cs :: Now(cs) == State(cs, "", 0, [], map[], false, false)
    {
      this.o, this.brk := o, brk;
      position, out, groupMode, lineSuffix := 0, "", map[], [];
      shouldRemeasure, lastLineComment, prefixes := false, false, [];
    }

    ghost predicate Valid()
      reads this`prefixes
    {
      forall i :: 0 <= i < |prefixes| ==> prefixes[i] == Repeat(o.indent, i)
    }

    /** The printer's fields with a work list. */
    function Now(commands: seq<Command>): State
      reads this
    {
      State(commands, out, position, lineSuffix, groupMode, shouldRemeasure, lastLineComment)
    }

    method Write(s: string)
      modifies this`out
      ensures out == old(out) + s
    {
      out := out + s;
    }

    method OutEnded() returns (r: bool)
      ensures r == LineEnded(out)
    {
      var i := |out|;
      assert out[..i] == out;
      while i > 0
        invariant 0 <= i <= |out|
        invariant Trimmed(out[..i]) == Trimmed(out)
        decreases i
      {
        assert out[..i][..i - 1] == out[..i - 1];
        if !Blank(out[i - 1]) {
          return out[i - 1] == '\n';
        }
        i := i - 1;
      }
      return false;
    }

    /** Removes trailing blanks and returns how many columns were removed. */
    method Trim() returns (n: int)
      modifies this`out
      ensures out == Trimmed(old(out)) && n == |old(out)| - |out|
    {
      n := 0;
      assert out[..|out|] == out;
      while n < |out| && Blank(out[|out| - 1 - n])
        invariant 0 <= n <= |out|
        invariant Trimmed(out[..|out| - n]) == Trimmed(out)
        decreases |out| - n
      {
        assert out[..|out| - n][..|out| - n - 1] == out[..|out| - n - 1];
        n := n + 1;
      }
      out := out[..|out| - n];
    }

    method IndentPrefix(levels: int) returns (s: string)
      requires Valid() && levels >= 0
      modifies this`prefixes
      ensures Valid() && s == Repeat(o.indent, levels)
    {
      if |prefixes| == 0 {
        prefixes := [""];
      }
      while |prefixes| <= levels
        invariant Valid() && |prefixes| > 0
        decreases levels - |prefixes|
      {
        prefixes := prefixes + [prefixes[|prefixes| - 1] + o.indent];
      }
      s := prefixes[levels];
    }

    method WriteIndent(i: Indentation)
      requires Valid()
      modifies this`out, this`prefixes
      ensures Valid() && out == old(out) + IndentText(i, o)
    {
      ghost var start := out;
      if i.levels > 0 {
        var prefix := IndentPrefix(i.levels);
        Write(prefix);
      }
      if i.alignN > 0 {
        out := out + Repeat(" ", i.alignN);
      }
    }

    /** The look-ahead, with its commands and rest as one list, top first. */
    method FitsIn(next: Command, rest: seq<Command>, remaining: int, hasLineSuffix: bool) returns (r: bool)
      ensures r == Fits(o, brk, groupMode, next, rest, remaining, hasLineSuffix)
    {
      if remaining == MAX_INT {
        return true;
      }
      var a := Ahead([next] + rest, remaining, false, "", hasLineSuffix);
      ghost var start := a;
      while true
        invariant LookAhead(o, brk, groupMode, a) == LookAhead(o, brk, groupMode, start)
        decreases Load(a.stack)
      {
        LookShrinks(o, brk, groupMode, a);
        var look := LookStep(o, brk, groupMode, a);
        match look
        case Fit => return true;
        case NoFit => return false;
        case More(n) => a := n;
      }
    }

    method GroupCommand(commands: seq<Command>) returns (r: Command)
      requires commands != [] && commands[0].doc.Group?
      modifies this`shouldRemeasure
      ensures r == PrintGroup(o, brk, old(Now(commands))) && !shouldRemeasure
    {
      var cmd, g := commands[0], commands[0].doc;
      if cmd.mode == Flat && !shouldRemeasure {
        return Command(cmd.indentation, if g.node in brk then Break else Flat, g.doc);
      }
      shouldRemeasure := false;
      var remaining := o.printWidth - position;
      var hasLineSuffix := |lineSuffix| > 0;
      var flat := Command(cmd.indentation, Flat, g.doc);
      if g.node !in brk {
        var fits := FitsIn(flat, commands[1..], remaining, hasLineSuffix);
        if fits {
          return flat;
        }
      }
      if g.expanded == [] {
        return Command(cmd.indentation, Break, g.doc);
      }
      if g.node !in brk {
        r := FirstFitting(commands, cmd.indentation, g.expanded, old(Now(commands)));
        return r;
      }
      return Command(cmd.indentation, Break, g.expanded[|g.expanded| - 1]);
    }

    method FirstFitting(commands: seq<Command>, ind: Indentation, expanded: seq<Doc>, ghost st: State)
      returns (r: Command)
      requires commands != [] && expanded != []
      requires st == Now(commands).(shouldRemeasure := st.shouldRemeasure)
      ensures r == TryStates(o, brk, st, ind, expanded, 1)
    {
      var i := 1;
      while i < |expanded| - 1
        invariant 1 <= i
        invariant TryStates(o, brk, st, ind, expanded, i) == TryStates(o, brk, st, ind, expanded, 1)
      {
        var candidate := Command(ind, Flat, expanded[i]);
        var fits := FitsIn(candidate, commands[1..], o.printWidth - position, |lineSuffix| > 0);
        if fits {
          return candidate;
        }
        i := i + 1;
      }
      return Command(ind, Break, expanded[|expanded| - 1]);
    }

    method WriteLine(line: Line, ind: Indentation, ghost commands: seq<Command>)
      requires Valid()
      modifies this`out, this`position, this`lastLineComment, this`prefixes
      ensures Valid() && Now(commands) == PrintLine(o, old(Now(commands)), line, ind)
    {
      if line.literal {
        Write(o.newLine);
        position := 0;
        lastLineComment := false;
        return;
      }
      var ended := OutEnded();
      if !line.hard && ended && (!line.afterComment || lastLineComment) {
        var _ := Trim();
        WriteIndent(ind);
        position := ind.length;
        return;
      }
      var _ := Trim();
      Write(o.newLine);
      WriteIndent(ind);
      position := ind.length;
      if line.comment {
        lastLineComment := true;
      } else if !line.hard {
        lastLineComment := false;
      }
    }

    /** The switch of run on the top command. */
    method ExecuteTop(commands: seq<Command>) returns (r: seq<Command>)
      requires Valid() && commands != [] && !commands[0].doc.Nil?
      modifies this
      ensures Valid() && Now(r) == Execute(o, brk, old(Now(commands)))
    {
      hide Trimmed, PrintLine, PrintGroup, IndentText;
      var cmd := commands[0];
      var rest := commands[1..];
      assert [] + rest == rest;
      match cmd.doc
      case Text(s) =>
        if s != "" {
          Write(s);
          if |rest| > 0 {
            position := position + o.width(s);
          }
          lastLineComment := false;
        }
        r := rest;
      case Concat(parts) =>
        r := Each(parts, cmd.indentation, cmd.mode) + rest;
      case Indent(doc) =>
        r := [Command(AddLevel(cmd.indentation, o), cmd.mode, doc)] + rest;
      case Align(n, doc) =>
        r := [Command(AlignBy(cmd.indentation, n, o), cmd.mode, doc)] + rest;
      case Trim =>
        var n := Trim();
        position := position - n;
        r := rest;
      case Group(_, id, _, _) =>
        var c := GroupCommand(commands);
        if id != 0 {
          groupMode := groupMode[id := c.mode];
        }
        r := [c] + rest;
      case IfBreak(_, _, _) =>
        var contents := IfBreakContents(groupMode, cmd.doc, cmd.mode);
        r := if contents.Nil? then rest else [cmd.(doc := contents)] + rest;
      case LineSuffix(doc) =>
        lineSuffix := lineSuffix + [cmd.(doc := doc)];
        r := rest;
      case LineSuffixBoundary =>
        r := if |lineSuffix| > 0 then [cmd.(doc := HARD_LINE_NO_BREAK)] + rest else rest;
      case LineDoc(line) =>
        r := ExecuteLine(commands);
      case BreakParent =>
        r := rest;
    }

    method ExecuteLine(commands: seq<Command>) returns (r: seq<Command>)
      requires Valid() && commands != [] && commands[0].doc.LineDoc?
      modifies this
      ensures Valid() && Now(r) == Execute(o, brk, old(Now(commands)))
    {
      hide Trimmed, PrintLine, IndentText;
      var cmd, rest, line := commands[0], commands[1..], commands[0].doc.line;
      assert [] + rest == rest;
      if cmd.mode == Flat {
        if !line.hard {
          if !line.soft {
            Write(" ");
            position := position + 1;
          }
          return rest;
        }
        shouldRemeasure := true;
      }
      if |lineSuffix| > 0 {
        r := lineSuffix + commands;
        lineSuffix := [];
        return r;
      }
      LineKeepsLists(o, Now(rest), line, cmd.indentation);
      WriteLine(line, cmd.indentation, rest);
      return rest;
    }

    /** run: prints d, or fails at a nil document. */
    method Print(d: Doc) returns (r: Result)
      requires Valid() && forall cs :: Now(cs) == State(cs, "", 0, [], map[], false, false)
      modifies this
      ensures r == Run(o, brk, Start(d))
    {
      hide Execute;
      var commands := [Command(Indentation(0, 0, 0), Break, d)];
      assert Now(commands) == Start(d);
      while |commands| > 0
        invariant Valid() && Run(o, brk, Now(commands)) == Run(o, brk, Start(d))
        decreases Total(Now(commands)), |lineSuffix|
      {
        if commands[0].doc.Nil? {
          return Err;
        }
        StepShrinks(o, brk, Now(commands));
        commands := ExecuteTop(commands);
        if |commands| == 0 && |lineSuffix| > 0 {
          commands := lineSuffix;
          lineSuffix := [];
        }
      }
      return Ok(out);
    }
  }

  /** The options with their defaults: "\n", and tabWidth spaces for a level. */
  function InForce(o: Options): Options {
    o.(newLine := if o.newLine == "" then "\n" else o.newLine,
       indent := if o.indent == "" then Page.Times(" ", o.tabWidth) else o.indent)
  }

  /** Print: options are checked and defaulted, breaks propagated, and the document printed. Its
      visible text comes out whole and in order, and a straight document comes out as its page: every line with as
      many levels and columns of indentation as there are Indent and Align nodes around it. */
  method Print(d: Doc, o: Options, broken: set<nat>) returns (r: Result)
    ensures o.printWidth <= 0 || o.tabWidth <= 0 ==> r == Err
    ensures o.printWidth > 0 && o.tabWidth > 0 ==> r == Run(InForce(o), Propagate(d, broken), Start(d))
    ensures o.printWidth > 0 && o.tabWidth > 0 && BlankOptions(o) && Agreeing(d) ==>
              r.Ok? && Visible(r.text) == VisibleText(d)
    ensures o.printWidth > 0 && o.tabWidth > 0 && Page.LineOptions(InForce(o)) && Page.Straight(d) ==>
              r.Ok? && Page.IsPage(InForce(o), Propagate(d, broken), d, r.text)
  {
    if o.printWidth <= 0 || o.tabWidth <= 0 {
      return Err;
    }
    var brk := PropagateBreaks(d, broken);
    var options := o;
    if options.newLine == "" {
      options := options.(newLine := "\n");
    }
    if options.indent == "" {
      Page.RepeatTimes(" ", o.tabWidth);
      options := options.(indent := Repeat(" ", o.tabWidth));
    }
    var p := new Printer(options, brk);
    r := p.Print(d);
    if BlankOptions(o) && Agreeing(d) {
      SpacesAreBlank(o.tabWidth);
      OutputShowsDocument(options, brk, d);
    }
    if Page.LineOptions(options) && Page.Straight(d) {
      Page.PrintedIs(options, brk, d);
    }
  }

  lemma {:induction false} SpacesAreBlank(n: int)
    ensures AllSpace(Repeat(" ", n))
  {
    if n > 0 {
      SpacesAreBlank(n - 1);
    }
  }
}
