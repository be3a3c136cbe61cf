/** Hunks of a unified diff: how they are applied, printed and read (formatter/diff.go). */
module Hunks {
  import Lexing
  import opened Tgs
  import opened Wrappers

  /** A body line: ' ', '-' or '+' in front of its text. */
  datatype Edit = Keep(text: Line) | Del(text: Line) | Add(text: Line)

  /** An "@@ -oldAt,oldCount +newAt,newCount @@" header and its body. */
  datatype Hunk = Hunk(oldAt: int, oldCount: int, newAt: int, newCount: int, body: seq<Edit>)

  function OldSide(b: seq<Edit>): seq<Line> {
    if b == [] then []
    else if b[0].Add? then OldSide(b[1..])
    else [b[0].text] + OldSide(b[1..])
  }

  function NewSide(b: seq<Edit>): seq<Line> {
    if b == [] then []
    else if b[0].Del? then NewSide(b[1..])
    else [b[0].text] + NewSide(b[1..])
  }

  /** 0-based position a header stands for: an empty side names the line before it. */
  function Start(at: int, count: int): int {
    if count > 0 then at - 1 else at
  }

  /** What a patch tool does: copy up to the hunk, check and drop its old lines, put its new lines.
      It rejects a hunk out of order or out of bounds, with old lines that are not there, or with
      a header that does not count its body or does not name the position reached in the output. */
  function ApplyFrom(x: seq<Line>, at: int, out: seq<Line>, hs: seq<Hunk>): Option<seq<Line>>
    requires 0 <= at <= |x|
    decreases |hs|
  {
    if hs == [] then Some(out + x[at..]) else
      var h := hs[0];
      var s := Start(h.oldAt, h.oldCount);
      if at <= s && s + |OldSide(h.body)| <= |x| && x[s..s + |OldSide(h.body)|] == OldSide(h.body)
         && h.oldCount == |OldSide(h.body)| && h.newCount == |NewSide(h.body)|
         && Start(h.newAt, h.newCount) == |out| + (s - at)
      then ApplyFrom(x, s + |OldSide(h.body)|, out + x[at..s] + NewSide(h.body), hs[1..])
      else None
  }

  function Patch(x: seq<Line>, hs: seq<Hunk>): Option<seq<Line>> {
    ApplyFrom(x, 0, [], hs)
  }

  function Flip(h: Hunk): Hunk {
    Hunk(h.newAt, h.newCount, h.oldAt, h.oldCount, FlipBody(h.body))
  }

  function FlipBody(b: seq<Edit>): seq<Edit> {
    seq(|b|, i requires 0 <= i < |b| => FlipEdit(b[i]))
  }

  function FlipEdit(e: Edit): Edit {
    match e
    case Keep(s) => Keep(s)
    case Del(s) => Add(s)
    case Add(s) => Del(s)
  }

  /** The patch the other way: additions and deletions trade places. */
  function Reversed(hs: seq<Hunk>): seq<Hunk> {
    seq(|hs|, i requires 0 <= i < |hs| => Flip(hs[i]))
  }

  // ----- printed lines -----

  /** What stands for the newline that the last line of a file lacks. */
  const NOTICE := "\n\\ No newline at end of file\n"

  function FirstNewline(s: string): (i: nat)
    requires '\n' in s
    ensures i < |s| && s[i] == '\n' && forall k :: 0 <= k < i ==> s[k] != '\n'
  {
    if s[0] == '\n' then 0 else 1 + FirstNewline(s[1..])
  }

  /** A text line as diff has it: it ends with its only newline, or with the notice. */
  predicate IsLine(l: Line) {
    l != "" && l[|l| - 1] == '\n'
    && ('\n' !in l[..|l| - 1] || (Noticed(l) && '\n' !in l[..|l| - |NOTICE|]))
  }

  predicate Noticed(l: Line) {
    |l| >= |NOTICE| && l[|l| - |NOTICE|..] == NOTICE
  }

  function Mark(e: Edit): char {
    match e
    case Keep(_) => ' '
    case Del(_) => '-'
    case Add(_) => '+'
  }

  function BodyText(b: seq<Edit>): string {
    if b == [] then "" else [Mark(b[0])] + b[0].text + BodyText(b[1..])
  }

  function Digit(d: nat): (c: char)
    requires d < 10
    ensures '0' <= c <= '9' && (c - '0') as int == d
  {
    d as char + '0'
  }

  /** The decimal digits of n. */
  function Decimal(n: int): string
    decreases if n < 0 then 1 - n else n
  {
    if n < 0 then "-" + Decimal(-n)
    else (if n < 10 then "" else Decimal(n / 10)) + [Digit(n % 10)]
  }

  function Header(h: Hunk): string {
    "@@ -" + Decimal(h.oldAt) + "," + Decimal(h.oldCount) + " +" + Decimal(h.newAt) + "," + Decimal(h.newCount)
    + " @@\n"
  }

  function HunkText(h: Hunk): string {
    Header(h) + BodyText(h.body)
  }

  function HunksText(hs: seq<Hunk>): string {
    if hs == [] then "" else HunksText(hs[..|hs| - 1]) + HunkText(hs[|hs| - 1])
  }

  // ----- reading it back -----

  datatype Read<+T> = Read(value: T, rest: string) | Bad

  /** Digits, continuing the number n. */
  function ReadDigits(s: string, n: nat): (r: Read<nat>)
    ensures r.Read? && |r.rest| <= |s|
    decreases |s|
  {
    if s == "" || !Lexing.IsDigit(s[0]) then Read(n, s) else ReadDigits(s[1..], 10 * n + (s[0] - '0') as int)
  }

  function ReadNumber(s: string): (r: Read<nat>)
    ensures r.Read? ==> |r.rest| <= |s|
  {
    if s == "" || !Lexing.IsDigit(s[0]) then Bad else ReadDigits(s, 0)
  }

  /** What follows the literal. */
  function After(s: string, literal: string): (r: Read<()>)
    ensures r.Read? ==> |r.rest| == |s| - |literal|
  {
    if literal <= s then Read((), s[|literal|..]) else Bad
  }

  /** A literal and the number after it. */
  function ReadField(s: string, literal: string): (r: Read<nat>)
    ensures r.Read? ==> |r.rest| <= |s| - |literal|
  {
    var a := After(s, literal);
    if a.Bad? then Bad else ReadNumber(a.rest)
  }

  /** A line up to its newline, or to the notice after it. */
  function ReadLine(s: string): (r: Read<Line>)
    ensures r.Read? ==> |r.rest| <= |s|
  {
    if '\n' !in s then Bad
    else
      var i := FirstNewline(s);
      var notice := After(s[i..], NOTICE);
      if notice.Read? then Read(s[..i + |NOTICE|], notice.rest) else Read(s[..i + 1], s[i + 1..])
  }

  /** Body lines until both sides are complete. */
  function ReadBody(s: string, olds: int, news: int): (r: Read<seq<Edit>>)
    ensures r.Read? ==> |r.rest| <= |s|
    decreases |s|
  {
    if olds == 0 && news == 0 then Read([], s)
    else if s == "" || (s[0] != ' ' && s[0] != '-' && s[0] != '+') then Bad
    else
      var line := ReadLine(s[1..]);
      if line.Bad? then Bad
      else
        var more := ReadBody(line.rest, if s[0] == '+' then olds else olds - 1, if s[0] == '-' then news else news - 1);
        if more.Bad? then Bad
        else
          var e := if s[0] == ' ' then Keep(line.value) else if s[0] == '-' then Del(line.value) else Add(line.value);
          Read([e] + more.value, more.rest)
  }

  function ReadHunk(s: string): (r: Read<Hunk>)
    ensures r.Read? ==> |r.rest| < |s|
  {
    var oldAt := ReadField(s, "@@ -");
    if oldAt.Bad? then Bad else
      var oldCount := ReadField(oldAt.rest, ",");
      if oldCount.Bad? then Bad else
        var newAt := ReadField(oldCount.rest, " +");
        if newAt.Bad? then Bad else
          var newCount := ReadField(newAt.rest, ",");
          if newCount.Bad? then Bad else
            var end := After(newCount.rest, " @@\n");
            if end.Bad? then Bad else
              var body := ReadBody(end.rest, oldCount.value, newCount.value);
              if body.Bad? then Bad
              else Read(Hunk(oldAt.value, oldCount.value, newAt.value, newCount.value, body.value), body.rest)
  }

  /** The hunks of a printed diff. */
  function ReadHunks(s: string): Option<seq<Hunk>>
    decreases |s|
  {
    if s == "" then Some([])
    else
      var h := ReadHunk(s);
      if h.Bad? then None
      else
        var more := ReadHunks(h.rest);
        if more.None? then None else Some([h.value] + more.value)
  }

  // ----- the round trip -----

  /** A hunk whose header counts its body, with text lines in it. */
  ghost predicate Printable(h: Hunk) {
    && h.oldAt >= 0 && h.newAt >= 0 && h.oldCount == |OldSide(h.body)| && h.newCount == |NewSide(h.body)|
    && forall i :: 0 <= i < |h.body| ==> IsLine(h.body[i].text)
  }

  lemma {:induction false} DecimalDigits(n: nat)
    ensures Decimal(n) != "" && forall i :: 0 <= i < |Decimal(n)| ==> Lexing.IsDigit(Decimal(n)[i])
  {
    if n >= 10 {
      DecimalDigits(n / 10);
    }
  }

  function DigitsValue(s: string, n: nat): nat
    requires forall i :: 0 <= i < |s| ==> Lexing.IsDigit(s[i])
  {
    if s == "" then n
    else
      assert Lexing.IsDigit(s[0]);
      DigitsValue(s[1..], 10 * n + (s[0] - '0') as int)
  }

  lemma {:induction false} DigitsRead(s: string, n: nat, rest: string)
    requires forall i :: 0 <= i < |s| ==> Lexing.IsDigit(s[i])
    requires rest == "" || !Lexing.IsDigit(rest[0])
    ensures ReadDigits(s + rest, n) == Read(DigitsValue(s, n), rest)
    decreases |s|
  {
    if s == "" {
      assert s + rest == rest;
    } else {
      assert (s + rest)[1..] == s[1..] + rest;
      DigitsRead(s[1..], 10 * n + (s[0] - '0') as int, rest);
    }
  }

  lemma {:induction false} LastDigit(s: string, n: nat, c: char)
    requires Lexing.IsDigit(c) && forall i :: 0 <= i < |s| ==> Lexing.IsDigit(s[i])
    ensures DigitsValue(s + [c], n) == 10 * DigitsValue(s, n) + (c - '0') as int
    decreases |s|
  {
    if s == "" {
      assert s + [c] == [c];
      assert [c][1..] == "";
    } else {
      assert (s + [c])[1..] == s[1..] + [c];
      LastDigit(s[1..], 10 * n + (s[0] - '0') as int, c);
    }
  }

  lemma {:induction false} DecimalValue(n: nat)
    ensures (forall i :: 0 <= i < |Decimal(n)| ==> Lexing.IsDigit(Decimal(n)[i])) && DigitsValue(Decimal(n), 0) == n
  {
    hide DigitsValue;
    DecimalDigits(n);
    NoDigits();
    var c := Digit(n % 10);
    if n >= 10 {
      DecimalValue(n / 10);
      LastDigit(Decimal(n / 10), 0, c);
    } else {
      LastDigit("", 0, c);
      assert Decimal(n) == "" + [c];
    }
  }

  lemma NoDigits()
    ensures DigitsValue("", 0) == 0
  {
  }

  lemma AfterLiteral(literal: string, rest: string)
    ensures After(literal + rest, literal) == Read((), rest)
  {
    assert (literal + rest)[..|literal|] == literal && (literal + rest)[|literal|..] == rest;
  }

  lemma FieldRead(literal: string, n: nat, rest: string)
    requires rest == "" || !Lexing.IsDigit(rest[0])
    ensures ReadField(literal + Decimal(n) + rest, literal) == Read(n, rest)
  {
    hide After, ReadDigits, DigitsValue, Decimal;
    var d := Decimal(n);
    assert literal + d + rest == literal + (d + rest);
    AfterLiteral(literal, d + rest);
    DecimalDigits(n);
    assert (d + rest)[0] == d[0];
    DecimalValue(n);
    DigitsRead(d, 0, rest);
  }

  lemma NewlineFirst(s: string, i: nat)
    requires i < |s| && s[i] == '\n' && '\n' !in s[..i]
    ensures FirstNewline(s) == i
  {
    assert forall k :: 0 <= k < i ==> s[k] == s[..i][k];
  }

  /** A line is read as it is in front of anything but a notice. */
  lemma LineRead(l: Line, rest: string)
    requires IsLine(l) && (rest == "" || rest[0] != '\\')
    ensures ReadLine(l + rest) == Read(l, rest)
  {
    hide ReadLine, Noticed;
    if '\n' !in l[..|l| - 1] {
      PlainLineRead(l[..|l| - 1], rest);
      assert l == l[..|l| - 1] + "\n";
    } else {
      NoticeIs(l);
      NoticedLineRead(l[..|l| - |NOTICE|], rest);
    }
  }

  lemma NoticeIs(l: Line)
    requires Noticed(l)
    ensures |l| >= |NOTICE| && l == l[..|l| - |NOTICE|] + NOTICE
  {
  }

  lemma PlainLineRead(t: string, rest: string)
    requires '\n' !in t && (rest == "" || rest[0] != '\\')
    ensures ReadLine(t + "\n" + rest) == Read(t + "\n", rest)
  {
    hide FirstNewline;
    var s := t + "\n" + rest;
    assert s[..|t|] == t && s[|t|] == '\n';
    NewlineFirst(s, |t|);
    assert s[|t|..] == "\n" + rest && s[..|t| + 1] == t + "\n" && s[|t| + 1..] == rest;
    NoNotice(rest);
  }

  lemma NoNotice(rest: string)
    requires rest == "" || rest[0] != '\\'
    ensures !(NOTICE <= "\n" + rest)
  {
    if rest != "" {
      assert ("\n" + rest)[1] != NOTICE[1];
    }
  }

  lemma NoticedLineRead(t: string, rest: string)
    requires '\n' !in t
    ensures ReadLine(t + NOTICE + rest) == Read(t + NOTICE, rest)
  {
    hide FirstNewline, After;
    var s := t + NOTICE + rest;
    assert s[..|t|] == t && s[|t|] == NOTICE[0];
    NewlineFirst(s, |t|);
    assert s[|t|..] == NOTICE + rest && s[..|t| + |NOTICE|] == t + NOTICE;
    AfterLiteral(NOTICE, rest);
  }

  lemma {:induction false} BodyRead(b: seq<Edit>, rest: string)
    requires forall i :: 0 <= i < |b| ==> IsLine(b[i].text)
    requires rest == "" || rest[0] == '@'
    ensures ReadBody(BodyText(b) + rest, |OldSide(b)|, |NewSide(b)|) == Read(b, rest)
    decreases |b|
  {
    hide ReadBody, IsLine, BodyText, OldSide, NewSide;
    if b == [] {
      NoBody(rest);
    } else {
      BodyStarts(b[1..], rest);
      BodyRead(b[1..], rest);
      BodyStep(b[0], b[1..], BodyText(b[1..]) + rest, rest);
      assert b == [b[0]] + b[1..];
      BodyTextStep(b);
      assert BodyText(b) + rest == [Mark(b[0])] + (b[0].text + (BodyText(b[1..]) + rest));
    }
  }

  lemma NoBody(rest: string)
    ensures BodyText([]) + rest == rest && ReadBody(rest, |OldSide([])|, |NewSide([])|) == Read([], rest)
  {
  }

  lemma BodyTextStep(b: seq<Edit>)
    requires b != []
    ensures BodyText(b) == [Mark(b[0])] + b[0].text + BodyText(b[1..])
    ensures |OldSide(b)| == |OldSide(b[1..])| + (if b[0].Add? then 0 else 1)
    ensures |NewSide(b)| == |NewSide(b[1..])| + (if b[0].Del? then 0 else 1)
  {
  }

  /** One more body line is read. */
  lemma BodyStep(e: Edit, b: seq<Edit>, more: string, rest: string)
    requires IsLine(e.text) && (more == "" || more[0] != '\\')
    requires ReadBody(more, |OldSide(b)|, |NewSide(b)|) == Read(b, rest)
    ensures var olds, news := |OldSide(b)| + (if e.Add? then 0 else 1), |NewSide(b)| + (if e.Del? then 0 else 1);
            ReadBody([Mark(e)] + (e.text + more), olds, news) == Read([e] + b, rest)
  {
    hide ReadLine, IsLine, OldSide, NewSide;
    var s := [Mark(e)] + (e.text + more);
    assert s[0] == Mark(e) && s[1..] == e.text + more;
    LineRead(e.text, more);
  }

  lemma BodyStarts(b: seq<Edit>, rest: string)
    requires rest == "" || rest[0] == '@'
    ensures var s := BodyText(b) + rest; s == "" || s[0] != '\\'
  {
    if b != [] {
      assert (BodyText(b) + rest)[0] == Mark(b[0]);
    } else {
      assert BodyText(b) + rest == rest;
    }
  }

  lemma HunkRead(h: Hunk, rest: string)
    requires Printable(h) && (rest == "" || rest[0] == '@')
    ensures ReadHunk(HunkText(h) + rest) == Read(h, rest)
  {
    hide ReadField, ReadBody, Decimal, BodyText, After, OldSide, NewSide, IsLine, Lexing.IsDigit;
    var s5 := BodyText(h.body) + rest;
    var s4 := " @@\n" + s5;
    var s3 := "," + Decimal(h.newCount) + s4;
    var s2 := " +" + Decimal(h.newAt) + s3;
    var s1 := "," + Decimal(h.oldCount) + s2;
    var s0 := "@@ -" + Decimal(h.oldAt) + s1;
    NoDigitAt(s4, ' ');
    NoDigitAt(s3, ',');
    NoDigitAt(s2, ' ');
    NoDigitAt(s1, ',');
    FieldRead("@@ -", h.oldAt, s1);
    FieldRead(",", h.oldCount, s2);
    FieldRead(" +", h.newAt, s3);
    FieldRead(",", h.newCount, s4);
    AfterLiteral(" @@\n", s5);
    BodyRead(h.body, rest);
    HunkTextIs(h, rest, s5, s4, s3, s2, s1);
  }

  lemma NoDigitAt(s: string, c: char)
    requires s != "" && s[0] == c && (c == ' ' || c == ',')
    ensures !Lexing.IsDigit(s[0])
  {
  }

  lemma HunkTextIs(h: Hunk, rest: string, s5: string, s4: string, s3: string, s2: string, s1: string)
    requires s5 == BodyText(h.body) + rest && s4 == " @@\n" + s5 && s3 == "," + Decimal(h.newCount) + s4
    requires s2 == " +" + Decimal(h.newAt) + s3 && s1 == "," + Decimal(h.oldCount) + s2
    ensures HunkText(h) + rest == "@@ -" + Decimal(h.oldAt) + s1
  {
    hide BodyText, Decimal;
  }

  lemma {:induction false} HunksTextFirst(h: Hunk, hs: seq<Hunk>)
    ensures HunksText([h] + hs) == HunkText(h) + HunksText(hs)
    decreases |hs|
  {
    hide HunkText;
    if hs == [] {
      assert [h] + hs == [h];
      assert HunksText([h]) == HunksText([]) + HunkText(h) by {
        assert [h][..0] == [];
      }
    } else {
      var less := hs[..|hs| - 1];
      assert ([h] + hs)[..|hs|] == [h] + less;
      HunksTextFirst(h, less);
    }
  }

  /** Reading the printed hunks gives them back. */
  lemma {:induction false} HunksRead(hs: seq<Hunk>)
    requires forall i :: 0 <= i < |hs| ==> Printable(hs[i])
    ensures ReadHunks(HunksText(hs)) == Some(hs)
    decreases |hs|
  {
    hide ReadHunk, HunkText, Printable;
    if hs != [] {
      var h, more := hs[0], hs[1..];
      HunksRead(more);
      HunksTextFirst(h, more);
      assert hs == [h] + more;
      HunksStart(more);
      HunkRead(h, HunksText(more));
      HunkStarts(h);
    }
  }

  lemma HunkStarts(h: Hunk)
    ensures HunkText(h) != "" && HunkText(h)[0] == '@'
  {
    hide Decimal, BodyText;
    assert Header(h)[0] == '@';
  }

  lemma HunksStart(hs: seq<Hunk>)
    ensures HunksText(hs) == "" || HunksText(hs)[0] == '@'
  {
    hide HunkText;
    if hs != [] {
      HunksTextFirst(hs[0], hs[1..]);
      assert hs == [hs[0]] + hs[1..];
      HunkStarts(hs[0]);
    }
  }
}
