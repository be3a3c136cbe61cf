/** What the printer never changes: the visible text of the document. */
module PrintText {
  import opened Doc
  import opened PrintMachine

  predicate Space(c: char) {
    c == ' ' || c == '\t' || c == '\n' || c == '\r'
  }

  predicate AllSpace(s: string) {
    forall i :: 0 <= i < |s| ==> Space(s[i])
  }

  /** s without spaces, tabs and newlines. */
  function Visible(s: string): string {
    if s == "" then ""
    else if Space(s[0]) then Visible(s[1..])
    else [s[0]] + Visible(s[1..])
  }

  /** The texts of d in order. The branches of an IfBreak and the states of a conditional group
      are alternatives; the flat one counts. */
  function VisibleText(d: Doc): string
    decreases d, 1
  {
    match d
    case Text(s) => Visible(s)
    case Concat(parts) => VisibleTexts(parts, d)
    case Indent(doc) => VisibleText(doc)
    case Align(_, doc) => VisibleText(doc)
    case Group(_, _, doc, _) => VisibleText(doc)
    case IfBreak(_, flat, _) => VisibleText(flat)
    case _ => ""
  }

  function VisibleTexts(ds: seq<Doc>, parent: Doc): string
    requires forall i :: 0 <= i < |ds| ==> ds[i] < parent
    decreases parent, 0, |ds|
  {
    if ds == [] then "" else VisibleText(ds[0]) + VisibleTexts(ds[1..], parent)
  }

  /** No suffixes, no nil document but as a branch, and alternatives agree on visible text. */
  predicate Agreeing(d: Doc)
    decreases d, 1
  {
    match d
    case Nil => false
    case LineSuffix(_) => false
    case IfBreak(broken, flat, _) =>
      (broken.Nil? || Agreeing(broken)) && (flat.Nil? || Agreeing(flat)) && VisibleText(broken) == VisibleText(flat)
    case Group(_, _, doc, expanded) =>
      Agreeing(doc) && AllAgreeing(expanded, d)
      && forall i :: 0 <= i < |expanded| ==> VisibleText(expanded[i]) == VisibleText(doc)
    case _ => AllAgreeing(Children(d), d)
  }

  predicate AllAgreeing(ds: seq<Doc>, parent: Doc)
    requires forall i :: 0 <= i < |ds| ==> ds[i] < parent
    decreases parent, 0, |ds|
  {
    ds == [] || (Agreeing(ds[0]) && AllAgreeing(ds[1..], parent))
  }

  /** Options as documented: indentation is blanks, lines end in "\n" or "\r\n". */
  predicate BlankOptions(o: Options) {
    AllSpace(o.indent) && AllSpace(o.newLine)
  }

  function Pending(cs: seq<Command>): string {
    if cs == [] then "" else VisibleText(cs[0].doc) + Pending(cs[1..])
  }

  predicate Ready(cs: seq<Command>) {
    forall i :: 0 <= i < |cs| ==> Agreeing(cs[i].doc)
  }

  // ----- visible text of strings -----

  lemma {:induction false} VisibleConcat(a: string, b: string)
    ensures Visible(a + b) == Visible(a) + Visible(b)
  {
    if a == "" {
      assert a + b == b;
    } else {
      VisibleConcat(a[1..], b);
      assert (a + b)[0] == a[0] && (a + b)[1..] == a[1..] + b;
      assert [a[0]] + Visible(a[1..]) + Visible(b) == [a[0]] + (Visible(a[1..]) + Visible(b));
    }
  }

  lemma {:induction false} VisibleSpace(s: string)
    requires AllSpace(s)
    ensures Visible(s) == ""
  {
    if s != "" {
      VisibleSpace(s[1..]);
    }
  }

  lemma {:induction false} VisibleTrimmed(s: string)
    ensures Visible(Trimmed(s)) == Visible(s)
  {
    if s != "" && Blank(s[|s| - 1]) {
      VisibleTrimmed(s[..|s| - 1]);
      VisibleConcat(s[..|s| - 1], [s[|s| - 1]]);
      assert s == s[..|s| - 1] + [s[|s| - 1]];
    }
  }

  lemma {:induction false} VisibleRepeat(s: string, n: int)
    requires AllSpace(s)
    ensures Visible(Repeat(s, n)) == ""
  {
    VisibleSpace(s);
    if n > 0 {
      VisibleRepeat(s, n - 1);
      VisibleConcat(Repeat(s, n - 1), s);
    }
  }

  lemma VisibleIndent(i: Indentation, o: Options)
    requires BlankOptions(o)
    ensures Visible(IndentText(i, o)) == ""
  {
    VisibleRepeat(o.indent, i.levels);
    VisibleRepeat(" ", i.alignN);
    VisibleConcat(if i.levels > 0 then Repeat(o.indent, i.levels) else "",
                  if i.alignN > 0 then Repeat(" ", i.alignN) else "");
  }

  lemma VisibleLine(o: Options, st: State, line: Line, ind: Indentation)
    requires BlankOptions(o)
    ensures Visible(PrintLine(o, st, line, ind).out) == Visible(st.out)
  {
    hide Visible, IndentText, Trimmed, AllSpace;
    var t := Trimmed(st.out);
    VisibleTrimmed(st.out);
    VisibleIndent(ind, o);
    VisibleSpace(o.newLine);
    VisibleConcat(st.out, o.newLine);
    VisibleConcat(t, o.newLine);
    VisibleConcat(t, IndentText(ind, o));
    VisibleConcat(t + o.newLine, IndentText(ind, o));
  }

  // ----- visible text of command lists -----

  lemma Associative(a: string, b: string, c: string)
    ensures a + b + c == a + (b + c)
  {
  }

  lemma {:induction false} PendingConcat(a: seq<Command>, b: seq<Command>)
    ensures Pending(a + b) == Pending(a) + Pending(b)
  {
    if a == [] {
      assert a + b == b;
    } else {
      PendingConcat(a[1..], b);
      assert (a + b)[0] == a[0] && (a + b)[1..] == a[1..] + b;
      Associative(VisibleText(a[0].doc), Pending(a[1..]), Pending(b));
    }
  }

  lemma {:induction false} PendingEach(parts: seq<Doc>, i: Indentation, m: Mode, parent: Doc)
    requires forall k :: 0 <= k < |parts| ==> parts[k] < parent
    requires AllAgreeing(parts, parent)
    ensures Pending(Each(parts, i, m)) == VisibleTexts(parts, parent) && Ready(Each(parts, i, m))
  {
    if parts != [] {
      PendingEach(parts[1..], i, m, parent);
      assert Each(parts, i, m)[1..] == Each(parts[1..], i, m);
      assert Each(parts, i, m) == [Command(i, m, parts[0])] + Each(parts[1..], i, m);
    }
  }

  lemma PendingOne(c: Command)
    ensures Pending([c]) == VisibleText(c.doc)
  {
    assert [c][1..] == [];
  }

  lemma {:induction false} AgreeingMember(ds: seq<Doc>, parent: Doc, k: nat)
    requires forall i :: 0 <= i < |ds| ==> ds[i] < parent
    requires AllAgreeing(ds, parent) && k < |ds|
    ensures Agreeing(ds[k])
  {
    if k > 0 {
      AgreeingMember(ds[1..], parent, k - 1);
    }
  }

  /** Whatever a group prints, it is one of its agreeing alternatives. */
  lemma GroupAlternative(d: Doc, c: Doc)
    requires d.Group? && Agreeing(d) && c in Children(d)
    ensures Agreeing(c) && VisibleText(c) == VisibleText(d)
  {
    if c in d.expanded {
      var k :| 0 <= k < |d.expanded| && d.expanded[k] == c;
      AgreeingMember(d.expanded, d, k);
    }
  }

  lemma OnlyChild(d: Doc)
    requires (d.Indent? || d.Align?) && Agreeing(d)
    ensures Agreeing(d.doc)
  {
    AgreeingMember(Children(d), d, 0);
  }

  /** The top command and what takes its place show the same text, printed text aside. */
  lemma ExpandedShows(o: Options, brk: set<nat>, st: State)
    requires st.commands != [] && Agreeing(st.commands[0].doc)
    ensures Ready(Expanded(o, brk, st))
    ensures (if st.commands[0].doc.Text? then Visible(st.commands[0].doc.s) else "") + Pending(Expanded(o, brk, st))
         == VisibleText(st.commands[0].doc)
  {
    hide PrintGroup, Visible, Pending;
    var cmd, e := st.commands[0], Expanded(o, brk, st);
    PendingNone();
    if |e| == 1 {
      assert e == [e[0]];
      PendingOne(e[0]);
    }
    match cmd.doc
    case Concat(parts) => PendingEach(parts, cmd.indentation, cmd.mode, cmd.doc);
    case Indent(_) => OnlyChild(cmd.doc);
    case Align(_, _) => OnlyChild(cmd.doc);
    case Group(_, _, _, _) => GroupAlternative(cmd.doc, e[0].doc);
    case _ =>
  }

  lemma PendingNone()
    ensures Pending([]) == ""
  {
  }

  /** Printing a step moves visible text from the list to the output, in order. */
  lemma StepShows(o: Options, brk: set<nat>, st: State)
    requires BlankOptions(o) && st.commands != [] && Ready(st.commands) && st.lineSuffix == []
    ensures var r := Step(o, brk, st);
            && Ready(r.commands) && r.lineSuffix == []
            && Visible(r.out) + Pending(r.commands) == Visible(st.out) + Pending(st.commands)
  {
    hide Visible, Pending, Expanded, PrintGroup, PrintLine, Trimmed, VisibleText, Agreeing, Load, Weight;
    var cmd, rest, e := st.commands[0], st.commands[1..], Expanded(o, brk, st);
    ExpandedShows(o, brk, st);
    PendingConcat(e, rest);
    PendingConcat([cmd], rest);
    PendingOne(cmd);
    assert st.commands == [cmd] + rest;
    ExecuteShows(o, brk, st);
  }

  lemma ExecuteShows(o: Options, brk: set<nat>, st: State)
    requires BlankOptions(o) && st.commands != [] && Agreeing(st.commands[0].doc) && st.lineSuffix == []
    ensures var r := Execute(o, brk, st);
            && r.commands == Expanded(o, brk, st) + st.commands[1..] && r.lineSuffix == []
            && Visible(r.out) ==
               Visible(st.out) + (if st.commands[0].doc.Text? then Visible(st.commands[0].doc.s) else "")
  {
    hide Visible, Expanded, PrintGroup, PrintLine, Trimmed, VisibleText, BlankOptions;
    var cmd := st.commands[0];
    NothingVisible();
    match cmd.doc
    case Text(s) => VisibleConcat(st.out, s);
    case Trim => VisibleTrimmed(st.out);
    case LineDoc(line) =>
      var st' := st.(commands := Expanded(o, brk, st) + st.commands[1..],
                     shouldRemeasure := st.shouldRemeasure || cmd.mode == Flat);
      VisibleConcat(st.out, " ");
      VisibleLine(o, st', line, cmd.indentation);
      LineKeepsLists(o, st', line, cmd.indentation);
    case _ =>
  }

  lemma NothingVisible()
    ensures Visible("") == "" && Visible(" ") == ""
  {
    assert " "[1..] == "";
  }

  // ----- runs -----

  lemma {:induction false} RunShows(o: Options, brk: set<nat>, st: State)
    requires BlankOptions(o) && Ready(st.commands) && st.lineSuffix == []
    ensures Run(o, brk, st).Ok? && Visible(Run(o, brk, st).text) == Visible(st.out) + Pending(st.commands)
    decreases Total(st), |st.lineSuffix|
  {
    hide Visible, Pending, Step, Agreeing, Total;
    if st.commands == [] {
      PendingNone();
    } else {
      NotNil(st.commands[0].doc);
      StepShrinks(o, brk, st);
      StepShows(o, brk, st);
      RunShows(o, brk, Step(o, brk, st));
    }
  }

  lemma NotNil(d: Doc)
    requires Agreeing(d)
    ensures !d.Nil?
  {
  }

  /** The output shows exactly the document's texts, in order. */
  lemma OutputShowsDocument(o: Options, brk: set<nat>, d: Doc)
    requires BlankOptions(o) && Agreeing(d)
    ensures Run(o, brk, Start(d)).Ok? && Visible(Run(o, brk, Start(d)).text) == VisibleText(d)
  {
    RunShows(o, brk, Start(d));
    PendingOne(Start(d).commands[0]);
  }

  /** Width, indentation and tab width decide where the blanks go, and nothing else. */
  lemma SameTextAtAnyWidth(o: Options, brk: set<nat>, p: Options, brk': set<nat>, d: Doc)
    requires BlankOptions(o) && BlankOptions(p) && Agreeing(d)
    ensures Run(o, brk, Start(d)).Ok? && Run(p, brk', Start(d)).Ok?
    ensures Visible(Run(o, brk, Start(d)).text) == Visible(Run(p, brk', Start(d)).text)
  {
    OutputShowsDocument(o, brk, d);
    OutputShowsDocument(p, brk', d);
  }
}
