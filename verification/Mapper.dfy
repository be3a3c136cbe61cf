/** Byte offsets and LSP positions (mapper/mapper.go); Language Server Protocol 3.17, section
    "Position": zero-based lines, columns in UTF-16 code units. */
module Mapping {
  import opened Utf8
  import opened Wrappers

  datatype LspPosition = LspPosition(line: nat, character: nat)

  datatype ParserPosition = ParserPosition(line: int, col: int, offset: int)

  // ----- lines -----

  /** The newlines before off. */
  function LineIndex(content: string, off: nat): (r: nat)
    requires off <= |content|
    ensures r <= off
  {
    if off == 0 then 0 else LineIndex(content, off - 1) + if content[off - 1] == '\n' then 1 else 0
  }

  /** The start of the line that holds off. */
  function LineStart(content: string, off: nat): (r: nat)
    requires off <= |content|
    ensures r <= off && (r == 0 || content[r - 1] == '\n') && forall i :: r <= i < off ==> content[i] != '\n'
  {
    if off == 0 || content[off - 1] == '\n' then off else LineStart(content, off - 1)
  }

  /** The starts of the lines that begin at or before n. */
  function Table(content: string, n: nat): (t: seq<nat>)
    requires n <= |content|
    ensures |t| == LineIndex(content, n) + 1 && t[|t| - 1] == LineStart(content, n)
    ensures forall i :: 0 <= i < |t| ==> t[i] <= n
  {
    if n == 0 then [0]
    else if content[n - 1] == '\n' then Table(content, n - 1) + [n]
    else Table(content, n - 1)
  }

  lemma TableStep(content: string, n: nat)
    requires 0 < n <= |content|
    ensures Table(content, n) == if content[n - 1] == '\n' then Table(content, n - 1) + [n] else Table(content, n - 1)
  {
  }

  /** The lines that begin after off are later in the table. */
  lemma {:induction false} TablePrefix(content: string, off: nat, n: nat)
    requires off <= n <= |content|
    ensures var a, b := Table(content, off), Table(content, n);
            |a| <= |b| && b[..|a|] == a && forall i :: |a| <= i < |b| ==> b[i] > off
    decreases n
  {
    hide Table, LineIndex, LineStart;
    if off < n {
      TablePrefix(content, off, n - 1);
      TableStep(content, n);
    }
  }

  lemma {:induction false} TableAscends(content: string, n: nat, i: nat, j: nat)
    requires n <= |content| && i < j < |Table(content, n)|
    ensures Table(content, n)[i] < Table(content, n)[j]
    decreases n
  {
    if n > 0 {
      if content[n - 1] != '\n' || j < |Table(content, n)| - 1 {
        TableAscends(content, n - 1, i, j);
      }
    }
  }

  /** Every line but the first starts after a newline. */
  lemma {:induction false} TableAfterNewline(content: string, n: nat, i: nat)
    requires n <= |content| && 0 < i < |Table(content, n)|
    ensures var p := Table(content, n)[i]; 0 < p && content[p - 1] == '\n'
    decreases n
  {
    if n > 0 && (content[n - 1] != '\n' || i < |Table(content, n)| - 1) {
      TableAfterNewline(content, n - 1, i);
    }
  }

  /** The end of line i's text, before its "\n" or "\r\n". */
  function LineEnd(content: string, t: seq<nat>, i: nat): nat
    requires i < |t|
  {
    if i + 1 < |t| && 0 < t[i + 1] <= |content| then
      var e := t[i + 1] - 1;
      if e > t[i] && content[e - 1] == '\r' then e - 1 else e
    else |content|
  }

  // ----- columns -----

  /** The UTF-16 code units of the first rune (RFC 2781, section 2.1): two from U+10000 on, which is
      what four bytes of UTF-8 encode. */
  function Units(s: string): nat
    requires s != ""
  {
    if RuneSize(s) == 4 then 2 else 1
  }

  function UnitCount(s: string): nat {
    if s == "" then 0 else Units(s) + UnitCount(s[RuneSize(s)..])
  }

  /** The code point of the first rune (RFC 3629, section 3); U+FFFD for a byte that starts none. */
  function CodePoint(s: string): nat
    requires s != ""
  {
    var n, b := RuneSize(s), s[0] as int;
    if n == 1 then if b < 0x80 then b else 0xFFFD
    else if n == 2 then (b - 0xC0) * 0x40 + Low(s[1])
    else if n == 3 then (b - 0xE0) * 0x1000 + Low(s[1]) * 0x40 + Low(s[2])
    else (b - 0xF0) * 0x4_0000 + Low(s[1]) * 0x1000 + Low(s[2]) * 0x40 + Low(s[3])
  }

  /** The six bits of a continuation byte. */
  function Low(c: char): nat {
    if 0x80 <= c as int < 0xC0 then c as int - 0x80 else 0
  }

  /** The code units of a code point (RFC 2781, section 2.1): itself, or a surrogate pair. */
  function Encoded(c: nat): seq<nat> {
    if c < 0x1_0000 then [c] else [0xD800 + (c - 0x1_0000) / 0x400, 0xDC00 + (c - 0x1_0000) % 0x400]
  }

  /** The UTF-16 encoding of what s decodes to. */
  function Utf16(s: string): seq<nat> {
    if s == "" then [] else Encoded(CodePoint(s)) + Utf16(s[RuneSize(s)..])
  }

  lemma FirstEncoded(s: string)
    requires s != ""
    ensures Units(s) == |Encoded(CodePoint(s))|
  {
  }

  /** Units are counted as the encoding has them. */
  lemma {:induction false} UnitsEncoded(s: string)
    ensures UnitCount(s) == |Utf16(s)|
    decreases |s|
  {
    hide RuneSize, Units, CodePoint, Encoded;
    if s != "" {
      FirstEncoded(s);
      UnitsEncoded(s[RuneSize(s)..]);
    }
  }

  /** The bytes passed until the column reaches character, or the text ends. */
  function Walk(s: string, character: int): (r: nat)
    ensures r <= |s|
    decreases |s|
  {
    if s == "" || character <= 0 then 0
    else RuneSize(s) + Walk(s[RuneSize(s)..], character - Units(s))
  }

  /** k is between two runes of s. */
  predicate Boundary(s: string, k: nat)
    decreases |s|
  {
    k == 0 || (s != "" && RuneSize(s) <= k && Boundary(s[RuneSize(s)..], k - RuneSize(s)))
  }

  predicate Ascii(s: string) {
    forall i :: 0 <= i < |s| ==> s[i] as int < 0x80
  }

  // ----- the two mappings -----

  function ToLsp(content: string, off: int): Option<LspPosition> {
    if off < 0 || off > |content| then None
    else Some(LspPosition(LineIndex(content, off), UnitCount(content[LineStart(content, off)..off])))
  }

  /** The column of an offset is the length of its line's text before it in UTF-16. */
  lemma ColumnIsUtf16(content: string, off: nat)
    requires off <= |content|
    ensures ToLsp(content, off) ==
            Some(LspPosition(LineIndex(content, off), |Utf16(content[LineStart(content, off)..off])|))
  {
    hide UnitCount, Utf16, LineIndex, LineStart;
    UnitsEncoded(content[LineStart(content, off)..off]);
  }

  function FromLsp(content: string, pos: LspPosition): Option<ParserPosition> {
    var t := Table(content, |content|);
    if pos.line >= |t| then None
    else
      var start, end := t[pos.line], LineEnd(content, t, pos.line);
      if start > end || end > |content| then None
      else
        var off := start + Walk(content[start..end], pos.character);
        Some(ParserPosition(pos.line + 1, RuneCount(content[start..off]) + 1, off))
  }

  lemma LineEndInside(content: string, i: nat)
    requires i < |Table(content, |content|)|
    ensures var t := Table(content, |content|); t[i] <= LineEnd(content, t, i) <= |content|
    ensures var t := Table(content, |content|); i + 1 < |t| ==> 0 < t[i + 1] <= |content| && t[i] < t[i + 1]
  {
    if i + 1 < |Table(content, |content|)| {
      TableAscends(content, |content|, i, i + 1);
    }
  }

  /** A rune that ends inside a prefix is the same rune there. */
  lemma RuneInPrefix(s: string, k: nat)
    requires s != "" && k <= |s| && RuneSize(s) <= k
    ensures RuneSize(s[..k]) == RuneSize(s)
  {
    var t := s[..k];
    assert forall i :: 0 <= i < k ==> t[i] == s[i];
  }

  /** A rune of a longer text that does not fit the prefix: the prefix holds smaller ones. */
  lemma {:induction false} WalkFindsBoundary(s: string, k: nat)
    requires Boundary(s, k)
    ensures k <= |s| && Walk(s, UnitCount(s[..k])) == k
    decreases |s|
  {
    hide RuneSize;
    if k > 0 {
      var n := RuneSize(s);
      WalkFindsBoundary(s[n..], k - n);
      RuneInPrefix(s, k);
      assert s[..k][n..] == s[n..][..k - n];
    }
  }

  /** A walk ends between runes. */
  lemma {:induction false} WalkOnBoundary(s: string, character: int)
    ensures Boundary(s, Walk(s, character))
    decreases |s|
  {
    hide RuneSize;
    if s != "" && character > 0 {
      WalkOnBoundary(s[RuneSize(s)..], character - Units(s));
    }
  }

  /** Runes do not reach over an ASCII character. */
  lemma {:induction false} BoundaryInPrefix(s: string, m: nat, k: nat)
    requires k <= m <= |s| && (m < |s| ==> s[m] as int < 0x80)
    ensures Boundary(s[..m], k) <==> Boundary(s, k)
    decreases |s|
  {
    hide RuneSize;
    if k > 0 {
      RuneBefore(s, m);
      RuneInPrefix(s, m);
      var n := RuneSize(s);
      assert s[..m][n..] == s[n..][..m - n];
      if n <= k {
        BoundaryInPrefix(s[n..], m - n, k - n);
      }
    }
  }

  lemma RuneBefore(s: string, m: nat)
    requires 0 < m <= |s| && (m < |s| ==> s[m] as int < 0x80)
    ensures RuneSize(s) <= m
  {
  }

  /** The round trip: an offset is mapped to a position and back to itself exactly when it lies
      between two runes of its line and not between "\r" and "\n". */
  lemma RoundTrip(content: string, off: nat)
    requires off <= |content|
    ensures ToLsp(content, off).Some? && FromLsp(content, ToLsp(content, off).value).Some?
    ensures var start := LineStart(content, off);
            FromLsp(content, ToLsp(content, off).value).value.offset == off
            <==> Boundary(content[start..], off - start) && !BetweenCRLF(content, off)
    ensures FromLsp(content, ToLsp(content, off).value).value.line == LineIndex(content, off) + 1
  {
    hide RuneSize, Walk, Boundary, UnitCount, FromLsp, Table, LineEnd;
    var i, start := LineIndex(content, off), LineStart(content, off);
    var t := Table(content, |content|);
    LineOf(content, off);
    LineHolds(content, off);
    var end, c := LineEnd(content, t, i), UnitCount(content[start..off]);
    FromLspAt(content, LspPosition(i, c));
    WalkBack(content[start..], end - start, off - start);
    assert content[start..][..end - start] == content[start..end];
    assert content[start..][..off - start] == content[start..off];
  }

  /** Walking as far as the units of the first k bytes of a line, in its first m bytes, ends at k
      exactly when k is between runes and not past m. */
  lemma WalkBack(s: string, m: nat, k: nat)
    requires m <= |s| && k <= |s| && (m < |s| ==> s[m] as int < 0x80)
    ensures Walk(s[..m], UnitCount(s[..k])) == k <==> Boundary(s, k) && k <= m
  {
    hide RuneSize, Walk, Boundary, UnitCount;
    WalkOnBoundary(s[..m], UnitCount(s[..k]));
    if k <= m {
      BoundaryInPrefix(s, m, k);
      assert s[..m][..k] == s[..k];
      if Boundary(s[..m], k) {
        WalkFindsBoundary(s[..m], k);
      }
    }
  }

  /** A position inside the document is mapped. */
  lemma FromLspAt(content: string, pos: LspPosition)
    requires pos.line < |Table(content, |content|)|
    ensures var t := Table(content, |content|);
            var start, end := t[pos.line], LineEnd(content, t, pos.line);
            && start <= end <= |content|
            && var off := start + Walk(content[start..end], pos.character);
               FromLsp(content, pos) == Some(ParserPosition(pos.line + 1, RuneCount(content[start..off]) + 1, off))
  {
    hide Walk, RuneCount, Table, LineEnd;
    LineEndInside(content, pos.line);
  }

  lemma LineOf(content: string, off: nat)
    requires off <= |content|
    ensures var t, i := Table(content, |content|), LineIndex(content, off);
            i < |t| && t[i] == LineStart(content, off) && (i + 1 < |t| ==> t[i + 1] > off)
  {
    TablePrefix(content, off, |content|);
  }

  /** An offset is past its line's text exactly between "\r" and "\n"; what follows the text is ASCII. */
  lemma LineHolds(content: string, off: nat)
    requires off <= |content|
    ensures var t, i := Table(content, |content|), LineIndex(content, off);
            && i < |t| && t[i] == LineStart(content, off) <= LineEnd(content, t, i) <= |content|
            && (off <= LineEnd(content, t, i) <==> !BetweenCRLF(content, off))
            && (LineEnd(content, t, i) < |content| ==> content[LineEnd(content, t, i)] as int < 0x80)
  {
    hide Table, LineEnd;
    var t, i := Table(content, |content|), LineIndex(content, off);
    LineOf(content, off);
    LineEndInside(content, i);
    if i + 1 < |t| {
      TableAfterNewline(content, |content|, i + 1);
    }
    if BetweenCRLF(content, off) {
      LineOf(content, off + 1);
    }
    LineEndCovers(content, t, i, off);
  }

  lemma LineEndCovers(content: string, t: seq<nat>, i: nat, off: nat)
    requires i < |t| && t[i] <= off <= |content|
    requires i + 1 < |t| ==> off < t[i + 1] <= |content| && content[t[i + 1] - 1] == '\n'
    requires BetweenCRLF(content, off) ==> i + 1 < |t| && t[i + 1] == off + 1 && t[i] < off
    ensures var end := LineEnd(content, t, i);
            (off <= end <==> !BetweenCRLF(content, off)) && (end < |content| ==> content[end] as int < 0x80)
  {
  }

  // ----- the ASCII path -----

  /** In ASCII text a column is a byte. */
  lemma {:induction false} AsciiWalk(s: string, character: int)
    requires Ascii(s)
    ensures character >= 0 ==> Walk(s, character) == if character > |s| then |s| else character
    decreases |s|
  {
    if s != "" && character > 0 {
      AsciiWalk(s[1..], character - 1);
    }
  }

  lemma {:induction false} AsciiRunes(s: string)
    requires Ascii(s)
    ensures RuneCount(s) == |s|
    decreases |s|
  {
    if s != "" {
      AsciiRunes(s[1..]);
    }
  }

  /** On an all-ASCII document the fast path, which takes columns for bytes, agrees with the general
      one on every position. */
  lemma FastPathAgrees(content: string, pos: LspPosition)
    requires Ascii(content) && pos.line < |Table(content, |content|)|
    ensures var t := Table(content, |content|);
            var start, len := t[pos.line], LineEnd(content, t, pos.line) - t[pos.line];
            var c := if pos.character > len then len else pos.character;
            FromLsp(content, pos) == Some(ParserPosition(pos.line + 1, c + 1, start + c))
  {
    hide Table, Walk, RuneCount, LineEnd, FromLsp, Boundary;
    var t := Table(content, |content|);
    FromLspAt(content, pos);
    var start, end := t[pos.line], LineEnd(content, t, pos.line);
    AsciiWalk(content[start..end], pos.character);
    AsciiRunes(content[start..start + Walk(content[start..end], pos.character)]);
  }

  // ----- the mapper -----

  /** The UTF-16 code units of contents. */
  method Utf16Count(contents: string) returns (n: nat)
    ensures n == UnitCount(contents)
  {
    hide RuneSize;
    n := 0;
    var rest := contents;
    while rest != ""
      invariant n + UnitCount(rest) == UnitCount(contents)
      decreases |rest|
    {
      n := n + 1;
      var size := RuneSize(rest);
      if size == 4 {
        n := n + 1;
      }
      rest := rest[size..];
    }
  }

  /** The bytes of the line passed until the column reaches character. */
  method Advance(line: string, character: nat) returns (bytesCol: nat)
    ensures bytesCol == Walk(line, character)
  {
    hide RuneSize;
    var lineBytes := line;
    var utf16Col := 0;
    bytesCol := 0;
    while |lineBytes| > 0 && utf16Col < character
      invariant bytesCol + Walk(lineBytes, character - utf16Col) == Walk(line, character)
      decreases |lineBytes|
    {
      if lineBytes[0] as int < 0x80 {
        AsciiRune(lineBytes);
        utf16Col := utf16Col + 1;
        lineBytes := lineBytes[1..];
        bytesCol := bytesCol + 1;
      } else {
        var size := RuneSize(lineBytes);
        utf16Col := utf16Col + 1;
        if size == 4 {
          utf16Col := utf16Col + 1;
        }
        lineBytes := lineBytes[size..];
        bytesCol := bytesCol + size;
      }
    }
  }

  class Mapper {
    const content: string
    var lineInit: bool
    var lineStart: seq<nat>
    var nonASCII: bool

    ghost predicate Valid()
      reads this
    {
      lineInit ==> lineStart == Table(content, |content|) && nonASCII == !Ascii(content)
    }

    constructor (content: string)
      ensures Valid() && this.content == content && !lineInit
    {
      this.content, lineInit, lineStart, nonASCII := content, false, [], false;
    }

    /** Builds the line table once. */
    method InitLineStart()
      requires Valid()
      modifies this
      ensures Valid() && lineInit
    {
      if lineInit {
        return;
      }
      lineStart, nonASCII := [0], false;
      for offset := 0 to |content|
        invariant lineStart == Table(content, offset) && nonASCII == !Ascii(content[..offset])
      {
        if content[offset] == '\n' {
          lineStart := lineStart + [offset + 1];
        }
        if content[offset] as int >= 0x80 {
          nonASCII := true;
        }
        AsciiNext(content, offset);
      }
      assert content[..|content|] == content;
      lineInit := true;
    }

    /** The index of the last line that starts at or before offset, by binary search. */
    method LineFor(offset: nat) returns (line: nat)
      requires Valid() && lineInit && offset <= |content|
      ensures line == LineIndex(content, offset)
    {
      hide Table, LineIndex, Ascii;
      LineOf(content, offset);
      var i, j := 0, |lineStart|;
      while i < j
        invariant 0 <= i <= j <= |lineStart|
        invariant forall k :: 0 <= k < i ==> lineStart[k] <= offset
        invariant j < |lineStart| ==> lineStart[j] > offset
      {
        var h := (i + j) / 2;
        if lineStart[h] <= offset {
          forall k | 0 <= k < h ensures lineStart[k] <= offset {
            TableAscends(content, |content|, k, h);
          }
          i := h + 1;
        } else {
          j := h;
        }
      }
      Boundaries(content, offset, i);
      return if i - 1 > 0 then i - 1 else 0;
    }

    method OffsetToLSPPosition(offset: int) returns (r: Option<LspPosition>)
      requires Valid()
      modifies this
      ensures Valid() && r == ToLsp(content, offset)
    {
      hide Table, LineIndex, LineStart, Ascii, UnitCount;
      InitLineStart();
      if offset < 0 || offset > |content| {
        return None;
      }
      var line := LineFor(offset);
      LineOf(content, offset);
      var character := Utf16Count(content[lineStart[line]..offset]);
      return Some(LspPosition(line, character));
    }

    /** The position after the last character. */
    method GetLSPEndPosition() returns (r: LspPosition)
      requires Valid()
      modifies this
      ensures Valid() && ToLsp(content, |content|) == Some(r)
    {
      hide LineIndex, LineStart, Ascii, UnitCount;
      InitLineStart();
      var last := lineStart[|lineStart| - 1];
      assert content[last..] == content[last..|content|];
      var character := Utf16Count(content[last..]);
      return LspPosition(|lineStart| - 1, character);
    }

    method LSPPosToParserPosition(pos: LspPosition) returns (r: Option<ParserPosition>)
      requires Valid()
      modifies this
      ensures Valid() && r == FromLsp(content, pos)
    {
      hide Table, RuneSize, Ascii, UnitCount, RuneCount, FromLsp, LineEnd, LineIndex, LineStart, Walk;
      InitLineStart();
      var line := pos.line + 1;
      if line > |lineStart| {
        PastTheEnd(content, pos);
        return None;
      }
      FromLspAt(content, pos);
      LineEndInside(content, pos.line);
      LineEndIs(content, lineStart, pos.line);
      var start := lineStart[pos.line];
      var end := |content|;
      if line < |lineStart| {
        end := lineStart[line] - 1;
        if end > start && content[end - 1] == '\r' {
          end := end - 1;
        }
      }
      assert end == LineEnd(content, lineStart, pos.line);
      if !nonASCII {
        var column := pos.character;
        var lineLen := end - start;
        if column > lineLen {
          column := lineLen;
        }
        FastPathAgrees(content, pos);
        return Some(ParserPosition(line, column + 1, start + column));
      }
      var bytesCol := Advance(content[start..end], pos.character);
      var runeLen := RuneCount(content[start..start + bytesCol]);
      return Some(ParserPosition(line, runeLen + 1, start + bytesCol));
    }
  }

  lemma AsciiNext(content: string, n: nat)
    requires n < |content|
    ensures Ascii(content[..n + 1]) <==> Ascii(content[..n]) && content[n] as int < 0x80
  {
    assert content[..n + 1] == content[..n] + [content[n]];
  }

  lemma AsciiRune(s: string)
    requires s != "" && s[0] as int < 0x80
    ensures RuneSize(s) == 1
  {
  }

  lemma LineEndIs(content: string, t: seq<nat>, i: nat)
    requires i < |t| && (i + 1 < |t| ==> 0 < t[i + 1] <= |content|)
    ensures LineEnd(content, t, i) ==
            if i + 1 == |t| then |content|
            else if t[i + 1] - 1 > t[i] && content[t[i + 1] - 2] == '\r' then t[i + 1] - 2 else t[i + 1] - 1
  {
  }

  lemma PastTheEnd(content: string, pos: LspPosition)
    requires pos.line >= |Table(content, |content|)|
    ensures FromLsp(content, pos) == None
  {
  }

  /** The lines up to i start at or before offset, and the others after it. */
  lemma Boundaries(content: string, offset: nat, i: nat)
    requires offset <= |content| && i <= |Table(content, |content|)|
    requires forall k :: 0 <= k < i ==> Table(content, |content|)[k] <= offset
    requires i < |Table(content, |content|)| ==> Table(content, |content|)[i] > offset
    ensures i == LineIndex(content, offset) + 1
  {
    hide Table, LineIndex;
    var line := LineIndex(content, offset);
    LineOf(content, offset);
    if i < line {
      TableAscends(content, |content|, i, line);
    }
  }
}
