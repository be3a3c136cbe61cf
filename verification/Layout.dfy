/** What the printer puts between the texts of a document, by the lines and blanks it has there (doc/print.go). */
module Layout {
  import opened Doc
  import opened Page
  import opened PrintMachine
  import opened PrintText

  /** What a document holds, in order. */
  datatype Leaf = Ink(s: string) | Blanks(s: string) | SoftBreak | HardBreak

  function TextLeaf(s: string): Leaf {
    if AllBlank(s) then Blanks(s) else Ink(s)
  }

  function LineLeaf(line: Line): Leaf {
    if line.hard then HardBreak else SoftBreak
  }

  function Leaves(d: Doc): seq<Leaf>
    decreases d, 1
  {
    match d
    case Text(s) => [TextLeaf(s)]
    case LineDoc(line) => [LineLeaf(line)]
    case Concat(parts) => AllLeaves(parts, d)
    case Indent(doc) => Leaves(doc)
    case Align(_, doc) => Leaves(doc)
    case Group(_, _, doc, _) => Leaves(doc)
    case _ => []
  }

  function AllLeaves(ds: seq<Doc>, parent: Doc): seq<Leaf>
    requires forall i :: 0 <= i < |ds| ==> ds[i] < parent
    decreases parent, 0, |ds|
  {
    if ds == [] then [] else Leaves(ds[0]) + AllLeaves(ds[1..], parent)
  }

  predicate IsLine(l: Leaf) {
    l.SoftBreak? || l.HardBreak?
  }

  predicate NoLines(ls: seq<Leaf>) {
    forall i :: 0 <= i < |ls| ==> !IsLine(ls[i])
  }

  /** Every group that holds a line is marked broken, and no line waits for a comment. */
  predicate LinesBreak(d: Doc, brk: set<nat>)
    decreases d, 1
  {
    match d
    case LineDoc(line) => !line.afterComment
    case Concat(parts) => AllLinesBreak(parts, d, brk)
    case Indent(doc) => LinesBreak(doc, brk)
    case Align(_, doc) => LinesBreak(doc, brk)
    case Group(node, _, doc, _) => (node in brk || NoLines(Leaves(doc))) && LinesBreak(doc, brk)
    case _ => true
  }

  predicate AllLinesBreak(ds: seq<Doc>, parent: Doc, brk: set<nat>)
    requires forall i :: 0 <= i < |ds| ==> ds[i] < parent
    decreases parent, 0, |ds|
  {
    ds == [] || (LinesBreak(ds[0], brk) && AllLinesBreak(ds[1..], parent, brk))
  }

  // ----- what lies between two texts -----

  predicate StartsLine(gap: string) {
    gap != "" && (gap[0] == '\n' || gap[0] == '\r')
  }

  predicate Separates(l: Leaf) {
    l.HardBreak? || (l.Blanks? && l.s != "")
  }

  ghost predicate Parting(run: seq<Leaf>) {
    exists i :: 0 <= i < |run| && Separates(run[i])
  }

  /** The lines that end where all of them break: the first and all hard ones. */
  function LineCount(run: seq<Leaf>): nat {
    if run == [] then 0
    else
      var less, last := run[..|run| - 1], run[|run| - 1];
      LineCount(less) + if last.HardBreak? || (last.SoftBreak? && LineCount(less) == 0) then 1 else 0
  }

  /** How lines end, and whether all lines break. */
  datatype Setting = Setting(newLine: string, broken: bool)

  /** n line breaks and then blanks. */
  ghost predicate FormedBy(newLine: string, gap: string, n: nat) {
    exists blanks :: AllBlank(blanks) && gap == Times(newLine, n) + blanks
  }

  /** What the printer makes of the lines and blanks between two texts. */
  ghost predicate GapOf(g: Setting, run: seq<Leaf>, gap: string) {
    && AllSpace(gap) && (run == [] ==> gap == "")
    && (Parting(run) ==> gap != "") && (run != [] && run[0].HardBreak? ==> StartsLine(gap))
    && (g.broken ==> FormedBy(g.newLine, gap, LineCount(run)))
    && forall i :: 0 <= i < |run| ==> !run[i].Ink?
  }

  /** A text, and the gap in front of it. */
  datatype Part = Part(run: seq<Leaf>, gap: string, ink: string)

  ghost predicate PartOK(g: Setting, p: Part) {
    GapOf(g, p.run, p.gap) && EndsVisibly(p.ink)
  }

  function TextOf(parts: seq<Part>): string {
    if parts == [] then "" else parts[0].gap + parts[0].ink + TextOf(parts[1..])
  }

  function LeavesOf(parts: seq<Part>): seq<Leaf> {
    if parts == [] then [] else parts[0].run + [Ink(parts[0].ink)] + LeavesOf(parts[1..])
  }

  /** Texts with gaps, and the gap after the last of them. */
  datatype Weave = Weave(parts: seq<Part>, run: seq<Leaf>, gap: string)

  ghost predicate Woven(g: Setting, w: Weave) {
    GapOf(g, w.run, w.gap) && forall i :: 0 <= i < |w.parts| ==> PartOK(g, w.parts[i])
  }

  function WeaveText(w: Weave): string {
    TextOf(w.parts) + w.gap
  }

  function WeaveLeaves(w: Weave): seq<Leaf> {
    LeavesOf(w.parts) + w.run
  }

  /** out shows the texts of the leaves in order, with a gap for the leaves between each two. */
  ghost predicate Lays(g: Setting, ls: seq<Leaf>, out: string) {
    exists w :: Woven(g, w) && WeaveLeaves(w) == ls && WeaveText(w) == out
  }

  // ----- what is placed is what the document holds -----

  function LeafOf(s: Spot): Leaf {
    match s
    case InkSpot(t) => Ink(t)
    case BlankSpot(t) => Blanks(t)
    case LineSpot(line, _, _, _) => LineLeaf(line)
  }

  function LeavesAt(spots: seq<Spot>): (r: seq<Leaf>)
    ensures |r| == |spots| && forall i :: 0 <= i < |r| ==> r[i] == LeafOf(spots[i])
  {
    seq(|spots|, i requires 0 <= i < |spots| => LeafOf(spots[i]))
  }

  lemma {:induction false} PlaceLeaves(d: Doc, m: Mode, levels: int, columns: int, tabs: bool, brk: set<nat>, pen: Pen)
    ensures LeavesAt(Place(d, m, levels, columns, tabs, brk, pen).spots) == LeavesAt(pen.spots) + Leaves(d)
    decreases d, 1
  {
    match d
    case Text(s) =>
    case LineDoc(line) =>
    case Concat(parts) => PlaceAllLeaves(parts, d, m, levels, columns, tabs, brk, pen);
    case Indent(doc) => PlaceLeaves(doc, m, levels + 1, columns, tabs, brk, pen);
    case Align(n, doc) =>
      if tabs {
        PlaceLeaves(doc, m, levels + 1, columns, tabs, brk, pen);
      } else {
        PlaceLeaves(doc, m, levels, columns + n, tabs, brk, pen);
      }
    case Group(node, _, doc, _) =>
      if node in brk {
        PlaceLeaves(doc, Break, levels, columns, tabs, brk, pen.(remeasure := false));
      } else if m == Flat && !pen.remeasure {
        PlaceLeaves(doc, Flat, levels, columns, tabs, brk, pen);
      } else {
        PlaceLeaves(doc, First(pen.modes), levels, columns, tabs, brk, Pen(pen.spots, Later(pen.modes), false));
      }
    case _ =>
  }

  lemma {:induction false} PlaceAllLeaves(ds: seq<Doc>, parent: Doc, m: Mode, levels: int, columns: int, tabs: bool,
                                          brk: set<nat>, pen: Pen)
    requires forall i :: 0 <= i < |ds| ==> ds[i] < parent
    ensures LeavesAt(PlaceAll(ds, parent, m, levels, columns, tabs, brk, pen).spots)
         == LeavesAt(pen.spots) + AllLeaves(ds, parent)
    decreases parent, 0, |ds|
  {
    hide Place, Leaves;
    if ds != [] {
      PlaceLeaves(ds[0], m, levels, columns, tabs, brk, pen);
      var next := Place(ds[0], m, levels, columns, tabs, brk, pen);
      PlaceAllLeaves(ds[1..], parent, m, levels, columns, tabs, brk, next);
      assert LeavesAt(pen.spots) + Leaves(ds[0]) + AllLeaves(ds[1..], parent)
          == LeavesAt(pen.spots) + (Leaves(ds[0]) + AllLeaves(ds[1..], parent));
    }
  }

  // ----- where all lines break -----

  predicate AllBreak(spots: seq<Spot>) {
    forall i :: 0 <= i < |spots| && spots[i].LineSpot? ==> spots[i].broken && !spots[i].line.afterComment
  }

  lemma {:induction false} PlaceBreaks(d: Doc, m: Mode, levels: int, columns: int, tabs: bool, brk: set<nat>, pen: Pen)
    requires LinesBreak(d, brk) && (m == Break || NoLines(Leaves(d))) && AllBreak(pen.spots)
    ensures AllBreak(Place(d, m, levels, columns, tabs, brk, pen).spots)
    decreases d, 1
  {
    match d
    case LineDoc(line) => assert IsLine(Leaves(d)[0]);
    case Concat(parts) => PlaceAllBreaks(parts, d, m, levels, columns, tabs, brk, pen);
    case Indent(doc) => PlaceBreaks(doc, m, levels + 1, columns, tabs, brk, pen);
    case Align(n, doc) =>
      if tabs {
        PlaceBreaks(doc, m, levels + 1, columns, tabs, brk, pen);
      } else {
        PlaceBreaks(doc, m, levels, columns + n, tabs, brk, pen);
      }
    case Group(node, _, doc, _) =>
      if node in brk {
        PlaceBreaks(doc, Break, levels, columns, tabs, brk, pen.(remeasure := false));
      } else if m == Flat && !pen.remeasure {
        PlaceBreaks(doc, Flat, levels, columns, tabs, brk, pen);
      } else {
        PlaceBreaks(doc, First(pen.modes), levels, columns, tabs, brk, Pen(pen.spots, Later(pen.modes), false));
      }
    case _ =>
  }

  lemma {:induction false} PlaceAllBreaks(ds: seq<Doc>, parent: Doc, m: Mode, levels: int, columns: int, tabs: bool,
                                          brk: set<nat>, pen: Pen)
    requires forall i :: 0 <= i < |ds| ==> ds[i] < parent
    requires AllLinesBreak(ds, parent, brk) && (m == Break || NoLines(AllLeaves(ds, parent))) && AllBreak(pen.spots)
    ensures AllBreak(PlaceAll(ds, parent, m, levels, columns, tabs, brk, pen).spots)
    decreases parent, 0, |ds|
  {
    hide Place, Leaves, LinesBreak;
    if ds != [] {
      if m != Break {
        NoLinesSplit(Leaves(ds[0]), AllLeaves(ds[1..], parent));
      }
      PlaceBreaks(ds[0], m, levels, columns, tabs, brk, pen);
      PlaceAllBreaks(ds[1..], parent, m, levels, columns, tabs, brk,
                     Place(ds[0], m, levels, columns, tabs, brk, pen));
    }
  }

  lemma NoLinesSplit(a: seq<Leaf>, b: seq<Leaf>)
    requires NoLines(a + b)
    ensures NoLines(a) && NoLines(b)
  {
    assert forall i :: 0 <= i < |a| ==> (a + b)[i] == a[i];
    assert forall i :: 0 <= i < |b| ==> (a + b)[|a| + i] == b[i];
  }

  // ----- gaps of a page -----

  ghost predicate NoInk(run: seq<Spot>) {
    forall i :: 0 <= i < |run| ==> !run[i].InkSpot?
  }

  lemma {:induction false} SpaceTimes(s: string, n: int)
    requires AllSpace(s)
    ensures AllSpace(Times(s, n))
    decreases n
  {
    if n > 0 {
      SpaceTimes(s, n - 1);
    }
  }

  /** A hard line ends a line, and blanks where no line ends are there. */
  lemma {:induction false} SeparatorShows(o: Options, run: seq<Spot>, i: nat)
    requires AllSolid(run) && NoInk(run) && i < |run| && Separates(LeafOf(run[i]))
    ensures Breaks(run) > 0 || (run[i].BlankSpot? && Tail(o, run) != "")
    decreases |run|
  {
    hide Margin, Times;
    var less, last := run[..|run| - 1], run[|run| - 1];
    assert Solid(last);
    if i < |run| - 1 {
      SeparatorShows(o, less, i);
    }
  }

  /** Where every line breaks, the first ends a line and after it the hard ones do. */
  lemma {:induction false} BreaksCounted(run: seq<Spot>)
    requires AllBreak(run)
    ensures Breaks(run) == LineCount(LeavesAt(run))
    decreases |run|
  {
    if run != [] {
      var less := run[..|run| - 1];
      BreaksCounted(less);
      assert LeavesAt(run)[..|run| - 1] == LeavesAt(less);
    }
  }

  lemma NewLineFirst(o: Options, n: nat, rest: string)
    requires LineOptions(o) && n > 0
    ensures StartsLine(Times(o.newLine, n) + rest)
  {
    hide Times;
    assert Times(o.newLine, n) == o.newLine + Times(o.newLine, n - 1) by { TimesFirst(o.newLine, n); }
  }

  lemma TimesFirst(s: string, n: nat)
    requires n > 0
    ensures Times(s, n) == s + Times(s, n - 1)
  {
  }

  lemma RunGap(o: Options, run: seq<Spot>, broken: bool)
    requires LineOptions(o) && AllSolid(run) && NoInk(run) && (broken ==> AllBreak(run))
    ensures GapOf(Setting(o.newLine, broken), LeavesAt(run), Gap(o, run))
  {
    hide Tail, Breaks, Times, LineCount, AllBlank, AllSpace, LineOptions, StartsLine;
    var n, tail, gap := Breaks(run), Tail(o, run), Gap(o, run);
    SpacesOnly(o, run);
    if run == [] {
      NoGap(o);
    }
    if n > 0 {
      NewLineFirst(o, n, tail);
      StartsSomething(gap);
    }
    if Parting(LeavesAt(run)) {
      var i :| 0 <= i < |run| && Separates(LeavesAt(run)[i]);
      SeparatorShows(o, run, i);
    }
    if run != [] && LeavesAt(run)[0].HardBreak? {
      SeparatorShows(o, run, 0);
    }
    if broken {
      BreaksCounted(run);
      assert FormedBy(o.newLine, gap, LineCount(LeavesAt(run)));
    }
  }

  lemma StartsSomething(gap: string)
    requires StartsLine(gap)
    ensures gap != ""
  {
  }

  lemma NoGap(o: Options)
    ensures Gap(o, []) == ""
  {
  }

  lemma SpacesOnly(o: Options, run: seq<Spot>)
    requires LineOptions(o) && AllSolid(run)
    ensures AllBlank(Tail(o, run)) && AllSpace(Gap(o, run))
  {
    hide Tail, Breaks, Times;
    TailBlank(o, run);
    SpaceTimes(o.newLine, Breaks(run));
  }

  // ----- a page is a weave -----

  function WeaveOf(o: Options, spots: seq<Spot>): Weave {
    if spots == [] then Weave([], [], "")
    else
      var less, last := spots[..|spots| - 1], spots[|spots| - 1];
      var w := WeaveOf(o, less);
      if last.InkSpot? then Weave(w.parts + [Part(w.run, w.gap, last.s)], [], "")
      else Weave(w.parts, LeavesAt(LastRun(spots)), Gap(o, LastRun(spots)))
  }

  lemma {:induction false} TextConcat(a: seq<Part>, b: seq<Part>)
    ensures TextOf(a + b) == TextOf(a) + TextOf(b)
    decreases |a|
  {
    if a == [] {
      assert a + b == b;
    } else {
      assert (a + b)[0] == a[0] && (a + b)[1..] == a[1..] + b;
      TextConcat(a[1..], b);
    }
  }

  lemma {:induction false} LeavesConcat(a: seq<Part>, b: seq<Part>)
    ensures LeavesOf(a + b) == LeavesOf(a) + LeavesOf(b)
    decreases |a|
  {
    if a == [] {
      assert a + b == b;
    } else {
      assert (a + b)[0] == a[0] && (a + b)[1..] == a[1..] + b;
      LeavesConcat(a[1..], b);
    }
  }

  lemma OnePart(p: Part)
    ensures TextOf([p]) == p.gap + p.ink && LeavesOf([p]) == p.run + [Ink(p.ink)]
  {
    assert [p][1..] == [];
    assert TextOf([]) == "" && LeavesOf([]) == [];
  }

  lemma {:induction false} RunKeeps(spots: seq<Spot>)
    ensures NoInk(LastRun(spots)) && (AllBreak(spots) ==> AllBreak(LastRun(spots)))
    decreases |spots|
  {
    if spots != [] {
      RunKeeps(spots[..|spots| - 1]);
    }
  }

  /** The last run and gap of a weave are those of its page. */
  lemma {:induction false} WeaveEnds(o: Options, spots: seq<Spot>)
    ensures WeaveOf(o, spots).run == LeavesAt(LastRun(spots)) && WeaveOf(o, spots).gap == Gap(o, LastRun(spots))
    decreases |spots|
  {
    NoGap(o);
  }

  lemma {:induction false} PageWoven(o: Options, spots: seq<Spot>, broken: bool)
    requires LineOptions(o) && AllSolid(spots) && (broken ==> AllBreak(spots))
    ensures Woven(Setting(o.newLine, broken), WeaveOf(o, spots))
    ensures WeaveLeaves(WeaveOf(o, spots)) == LeavesAt(spots) && TextOf(WeaveOf(o, spots).parts) == Inked(o, spots)
    decreases |spots|
  {
    hide GapOf, Gap, LineOptions, EndsVisibly, AllBlank, LeavesOf, TextOf, WeaveOf, Inked, LastRun, Woven, WeaveLeaves,
         AllSolid, AllBreak;
    if spots == [] {
      NothingWoven(o, broken);
    } else {
      var less, last := spots[..|spots| - 1], spots[|spots| - 1];
      assert less + [last] == spots;
      FrontKeeps(less, last);
      PageWoven(o, less, broken);
      if last.InkSpot? {
        WeaveInk(o, less, last.s, broken);
      } else {
        WeaveMore(o, less, last, broken);
      }
    }
  }

  lemma FrontKeeps(less: seq<Spot>, last: Spot)
    ensures AllSolid(less + [last]) ==> AllSolid(less) && Solid(last)
    ensures AllBreak(less + [last]) ==> AllBreak(less)
  {
    var spots := less + [last];
    assert spots[|less|] == last && spots[..|less|] == less;
    assert forall i :: 0 <= i < |less| ==> spots[i] == less[i];
  }

  lemma NothingWoven(o: Options, broken: bool)
    requires LineOptions(o)
    ensures Woven(Setting(o.newLine, broken), WeaveOf(o, [])) && WeaveLeaves(WeaveOf(o, [])) == LeavesAt([])
    ensures TextOf(WeaveOf(o, []).parts) == Inked(o, [])
  {
    hide LineOptions;
    RunGap(o, [], broken);
    NoGap(o);
    assert LeavesAt([]) == [];
  }

  /** A text more. */
  lemma WeaveInk(o: Options, less: seq<Spot>, t: string, broken: bool)
    requires LineOptions(o) && Woven(Setting(o.newLine, broken), WeaveOf(o, less)) && EndsVisibly(t)
    requires WeaveLeaves(WeaveOf(o, less)) == LeavesAt(less) && TextOf(WeaveOf(o, less).parts) == Inked(o, less)
    ensures var w := WeaveOf(o, less + [InkSpot(t)]);
            && Woven(Setting(o.newLine, broken), w)
            && WeaveLeaves(w) == LeavesAt(less + [InkSpot(t)]) && TextOf(w.parts) == Inked(o, less + [InkSpot(t)])
  {
    hide GapOf, Gap, LineOptions, EndsVisibly, LeavesOf, TextOf, LastRun;
    var spots, w := less + [InkSpot(t)], WeaveOf(o, less);
    assert spots[..|less|] == less;
    var p := Part(w.run, w.gap, t);
    WeaveEnds(o, less);
    TextConcat(w.parts, [p]);
    LeavesConcat(w.parts, [p]);
    OnePart(p);
    RunGap(o, [], broken);
    NoGap(o);
    assert LeavesAt([]) == [];
    assert PartOK(Setting(o.newLine, broken), p);
    assert LeavesAt(spots) == LeavesAt(less) + [Ink(t)];
    assert Inked(o, less) + (p.gap + t) == Inked(o, spots);
  }

  /** Blanks or a line more. */
  lemma WeaveMore(o: Options, less: seq<Spot>, last: Spot, broken: bool)
    requires LineOptions(o) && Woven(Setting(o.newLine, broken), WeaveOf(o, less)) && !last.InkSpot?
    requires AllSolid(less + [last]) && (broken ==> AllBreak(less + [last]))
    requires WeaveLeaves(WeaveOf(o, less)) == LeavesAt(less) && TextOf(WeaveOf(o, less).parts) == Inked(o, less)
    ensures var w := WeaveOf(o, less + [last]);
            && Woven(Setting(o.newLine, broken), w)
            && WeaveLeaves(w) == LeavesAt(less + [last]) && TextOf(w.parts) == Inked(o, less + [last])
  {
    hide GapOf, Gap, LineOptions, EndsVisibly, LeavesOf, TextOf, LastRun, AllSolid, AllBreak, Inked;
    var spots, w := less + [last], WeaveOf(o, less);
    assert spots[..|less|] == less;
    WeaveEnds(o, less);
    RunMore(o, less, last);
    RunKeeps(spots);
    RunSolid(spots);
    RunGap(o, LastRun(spots), broken);
    assert LeavesAt(spots) == LeavesAt(less) + [LeafOf(last)];
    assert LeavesAt(LastRun(spots)) == LeavesAt(LastRun(less)) + [LeafOf(last)];
  }

  lemma NoParts()
    ensures TextOf([]) == "" && LeavesOf([]) == []
  {
  }

  /** The output of a straight document shows its texts in order and parted as its lines and blanks say:
      by whitespace, by some whitespace where there is a blank or a hard line, and by a line break
      first where a hard line comes first. Where all lines break, as many lines end as there are hard lines, and
      one more where a soft line comes first. */
  lemma PrintLays(o: Options, brk: set<nat>, d: Doc, broken: bool)
    requires LineOptions(o) && Straight(d) && (broken ==> LinesBreak(d, brk))
    ensures var r := Run(o, brk, Start(d)); r.Ok? && Lays(Setting(o.newLine, broken), Leaves(d), r.text)
  {
    hide *;
    PrintedIs(o, brk, d);
    PageLays(o, brk, d, Run(o, brk, Start(d)).text, broken);
  }

  lemma PageLays(o: Options, brk: set<nat>, d: Doc, text: string, broken: bool)
    requires LineOptions(o) && IsPage(o, brk, d, text) && (broken ==> LinesBreak(d, brk))
    ensures Lays(Setting(o.newLine, broken), Leaves(d), text)
  {
    hide Straight, LineOptions, Place, AllSolid, AllBreak, LinesBreak, Woven, TextOf, LeavesOf, WeaveOf, Gap, Inked,
         Leaves;
    var modes :| ShowsPage(o, brk, d, modes, text);
    var spots := Placed(d, o.indent == "\t", brk, modes);
    PlaceLeaves(d, Break, 0, 0, o.indent == "\t", brk, Pen([], modes, false));
    NothingBreaks();
    if broken {
      PlaceBreaks(d, Break, 0, 0, o.indent == "\t", brk, Pen([], modes, false));
    }
    PageWoven(o, spots, broken);
    WeaveEnds(o, spots);
    assert LeavesAt([]) == [];
    assert [] + Leaves(d) == Leaves(d);
  }

  lemma NothingBreaks()
    ensures AllBreak([])
  {
  }
}
