/** What every token stream is: in order, faithful to the source, and lossless. */
module LexProps {
  import opened Utf8
  import opened Lexing

  /** The token is the source at its offset, at the line and column of that offset. */
  ghost predicate Faithful(src: string, t: Token) {
    && t.offset + |t.text| <= |src| && t.text == src[t.offset..t.offset + |t.text|]
    && t.line == LineAt(src, t.offset) && t.col == ColAt(src, t.offset)
  }

  /** Faithful tokens, one after another between the offsets from and to. */
  ghost predicate InOrder(src: string, from: nat, ts: seq<Token>, to: nat)
    decreases |ts|
  {
    if ts == [] then from <= to
    else from <= ts[0].offset && Faithful(src, ts[0]) && InOrder(src, ts[0].offset + |ts[0].text|, ts[1..], to)
  }

  ghost predicate AllComments(ts: seq<Token>) {
    forall i :: 0 <= i < |ts| ==> IsComment(ts[i].kind)
  }

  lemma {:induction false} InOrderConcat(src: string, from: nat, a: seq<Token>, mid: nat, b: seq<Token>, to: nat)
    requires InOrder(src, from, a, mid) && InOrder(src, mid, b, to)
    ensures InOrder(src, from, a + b, to)
    decreases |a|
  {
    hide Faithful;
    if a == [] {
      assert a + b == b;
      InOrderEarlier(src, from, mid, b, to);
    } else {
      assert (a + b)[1..] == a[1..] + b;
      InOrderConcat(src, a[0].offset + |a[0].text|, a[1..], mid, b, to);
    }
  }

  lemma InOrderEarlier(src: string, from: nat, later: nat, ts: seq<Token>, to: nat)
    requires InOrder(src, later, ts, to) && from <= later
    ensures InOrder(src, from, ts, to)
  {
  }

  lemma InOrderOne(src: string, from: nat, t: Token, to: nat)
    requires Faithful(src, t) && from <= t.offset && t.offset + |t.text| <= to
    ensures InOrder(src, from, [t], to)
  {
  }

  /** A comment in front of what follows it. */
  lemma CommentFirst(src: string, off: nat, kind: Kind, len: nat, blank: nat, rest: seq<Token>, to: nat)
    requires off + len <= |src| && InOrder(src, off + len, rest, to) && AllComments(rest) && IsComment(kind)
    ensures var t := TokenAt(src, off, kind, len).(blankLines := blank);
            InOrder(src, off, [t] + rest, to) && AllComments([t] + rest)
  {
    hide LineAt, ColAt;
    var t := TokenAt(src, off, kind, len).(blankLines := blank);
    assert ([t] + rest)[1..] == rest;
  }

  /** How ScanTrivia proceeds, as comments and end. */
  lemma TriviaStep(src: string, off: nat, blank: nat)
    requires off <= |src|
    ensures var s, t := src[off..], ScanTrivia(src, off, blank);
            if s != "" && IsWhitespace(s[0]) then
              var n := WhitespaceLen(s);
              n > 0 && t == ScanTrivia(src, off + n, blank + BlankLines(Newlines(s[..n])))
            else if StartsLineComment(s) then
              var n := LineCommentLen(s);
              var r := ScanTrivia(src, off + n, 0);
              && n > 0
              && t == Trivia(r.blankLines, [TokenAt(src, off, LineComment, n).(blankLines := blank)] + r.comments,
                             r.off, t.errs)
            else if StartsBlockComment(s) then
              var b := BlockAt(s);
              var r := ScanTrivia(src, off + b.len, 0);
              t == Trivia(r.blankLines, [TokenAt(src, off, b.kind, b.len).(blankLines := blank)] + r.comments, r.off,
                          t.errs)
            else t == Trivia(blank, [], off, [])
  {
    hide TokenAt, Errors, BlockAt, Newlines, BlankLines, RuneSize, BlockFlaws;
  }

  lemma {:induction false} TriviaInOrder(src: string, off: nat, blank: nat)
    requires off <= |src|
    ensures var t := ScanTrivia(src, off, blank); InOrder(src, off, t.comments, t.off) && AllComments(t.comments)
    decreases |src| - off
  {
    hide InOrder, AllComments, TokenAt, ScanTrivia, BlockAt, LineCommentLen, WhitespaceLen, Newlines, BlankLines;
    var s := src[off..];
    NoneInOrder(src, off);
    TriviaStep(src, off, blank);
    if s != "" {
      if IsWhitespace(s[0]) {
        var n := WhitespaceLen(s);
        var blank' := blank + BlankLines(Newlines(s[..n]));
        TriviaInOrder(src, off + n, blank');
        InOrderEarlier(src, off, off + n, ScanTrivia(src, off + n, blank').comments,
                       ScanTrivia(src, off + n, blank').off);
      } else if StartsLineComment(s) {
        var n := LineCommentLen(s);
        TriviaInOrder(src, off + n, 0);
        CommentFirst(src, off, LineComment, n, blank, ScanTrivia(src, off + n, 0).comments,
                     ScanTrivia(src, off + n, 0).off);
      } else if StartsBlockComment(s) {
        var b := BlockAt(s);
        BlockKind(s, 2, Peek(s, 2) == '*');
        TriviaInOrder(src, off + b.len, 0);
        CommentFirst(src, off, b.kind, b.len, blank, ScanTrivia(src, off + b.len, 0).comments,
                     ScanTrivia(src, off + b.len, 0).off);
      }
    }
  }

  lemma NoneInOrder(src: string, off: nat)
    ensures InOrder(src, off, [], off) && AllComments([])
  {
  }

  lemma {:induction false} BlockKind(s: string, i: nat, doc: bool)
    requires 2 <= i <= |s|
    ensures IsComment(BlockRest(s, i, doc).kind) && BlockRest(s, i, doc).kind != LineComment
            && (i == 2 && doc == (Peek(s, 2) == '*') ==> IsComment(BlockAt(s).kind))
    decreases |s| - i
  {
    hide RuneSize;
    if i < |s| {
      BlockKind(s, i + RuneSize(s[i..]), doc);
    }
  }

  lemma {:induction false} TokenFaithful(src: string, off: nat)
    requires off <= |src|
    ensures var r := ScanToken(src, off);
            Faithful(src, r.token) && off <= r.token.offset && r.token.offset + |r.token.text| == r.off
    ensures ScanToken(src, off).token.kind == EOF ==>
            ScanToken(src, off).off == |src| && ScanToken(src, off).token.text == ""
    decreases |src| - off
  {
    hide ActionAt, LineAt, ColAt;
    if off < |src| {
      var a := ActionAt(src[off..]);
      if a.Take? {
        NeverEOF(src[off..]);
      } else {
        TokenFaithful(src, off + a.len);
      }
    }
  }

  lemma NeverEOF(s: string)
    requires s != "" && ActionAt(s).Take?
    ensures ActionAt(s).kind != EOF
  {
    hide WordKind, NumberAt, StringRest, Symbols, BlockAt, LineCommentLen, IdentLen;
    NoSymbolIsEOF();
    if IsIdentStart(s[0]) {
      NoWordIsEOF(s[..IdentLen(s)]);
    } else if StartsNumber(s) {
      NumberKinds(s);
    }
  }

  lemma NoSymbolIsEOF()
    ensures forall c :: c in Symbols() ==> Symbols()[c] != EOF
  {
  }

  lemma NoWordIsEOF(text: string)
    ensures WordKind(text) != EOF
  {
  }

  lemma NumberKinds(s: string)
    ensures NumberAt(s).Number? ==> NumberAt(s).kind == IntConstant || NumberAt(s).kind == DoubleConstant
  {
    hide HexLen, IntLen, DoubleLen;
  }

  /** Every stream: faithful tokens in order, closed by the only EOF, at the end of the source. */
  ghost predicate Closed(src: string, ts: seq<Token>) {
    && ts != [] && ts[|ts| - 1].kind == EOF && ts[|ts| - 1].offset == |src| && ts[|ts| - 1].text == ""
    && forall i :: 0 <= i < |ts| - 1 ==> ts[i].kind != EOF
  }

  lemma {:induction false} LexInOrder(src: string, off: nat)
    requires off <= |src|
    ensures InOrder(src, off, LexFrom(src, off).tokens, |src|) && Closed(src, LexFrom(src, off).tokens)
    decreases |src| - off
  {
    hide ScanTrivia, ScanToken, Faithful, InOrder, Closed;
    var t := ScanTrivia(src, off, 0);
    TriviaInOrder(src, off, 0);
    TokenFaithful(src, t.off);
    var r := ScanToken(src, t.off);
    var token := r.token.(blankLines := t.blankLines);
    BlankLinesAside(src, r.token, t.blankLines);
    InOrderOne(src, t.off, token, r.off);
    InOrderConcat(src, off, t.comments, t.off, [token], r.off);
    ClosedEntry(src, t.comments, token);
    if r.token.kind != EOF {
      LexInOrder(src, r.off);
      var rest := LexFrom(src, r.off).tokens;
      InOrderConcat(src, off, t.comments + [token], r.off, rest, |src|);
      ClosedMore(src, t.comments, token, rest);
    }
  }

  lemma ClosedEntry(src: string, comments: seq<Token>, t: Token)
    requires AllComments(comments)
    ensures t.kind == EOF && t.offset == |src| && t.text == "" ==> Closed(src, comments + [t])
  {
  }

  lemma ClosedMore(src: string, comments: seq<Token>, t: Token, rest: seq<Token>)
    requires AllComments(comments) && t.kind != EOF && Closed(src, rest)
    ensures Closed(src, comments + [t] + rest)
  {
    var all := comments + [t] + rest;
    forall i | 0 <= i < |all| - 1 ensures all[i].kind != EOF {
      if i > |comments| {
        assert all[i] == rest[i - |comments| - 1];
      }
    }
  }

  lemma BlankLinesAside(src: string, t: Token, n: nat)
    requires Faithful(src, t)
    ensures Faithful(src, t.(blankLines := n))
  {
  }

  /** Tokens do not overlap. */
  lemma {:induction false} NoOverlap(src: string, from: nat, ts: seq<Token>, to: nat, i: nat, j: nat)
    requires InOrder(src, from, ts, to) && i < j < |ts|
    ensures from <= ts[i].offset && ts[i].offset + |ts[i].text| <= ts[j].offset
    ensures Faithful(src, ts[i]) && Faithful(src, ts[j]) && ts[j].offset + |ts[j].text| <= to
    decreases |ts|
  {
    hide Faithful;
    var rest, next := ts[1..], ts[0].offset + |ts[0].text|;
    if i > 0 {
      NoOverlap(src, next, rest, to, i - 1, j - 1);
    } else {
      Reaches(src, next, rest, to, j - 1);
    }
  }

  lemma {:induction false} Reaches(src: string, from: nat, ts: seq<Token>, to: nat, i: nat)
    requires InOrder(src, from, ts, to) && i < |ts|
    ensures from <= ts[i].offset && Faithful(src, ts[i]) && ts[i].offset + |ts[i].text| <= to
    decreases |ts|
  {
    hide Faithful;
    InOrderBounds(src, ts[0].offset + |ts[0].text|, ts[1..], to);
    if i > 0 {
      Reaches(src, ts[0].offset + |ts[0].text|, ts[1..], to, i - 1);
    }
  }

  lemma {:induction false} InOrderBounds(src: string, from: nat, ts: seq<Token>, to: nat)
    requires InOrder(src, from, ts, to)
    ensures from <= to
    decreases |ts|
  {
    if ts != [] {
      InOrderBounds(src, ts[0].offset + |ts[0].text|, ts[1..], to);
    }
  }

  lemma StreamIsFaithful(src: string)
    ensures var ts := Lex(src).tokens;
            && Closed(src, ts)
            && (forall i :: 0 <= i < |ts| ==> Faithful(src, ts[i]))
            && (forall i, j :: 0 <= i < j < |ts| ==> ts[i].offset + |ts[i].text| <= ts[j].offset)
  {
    hide Faithful, Closed, InOrder, LexFrom;
    LexInOrder(src, 0);
    var ts := Lex(src).tokens;
    forall i | 0 <= i < |ts| ensures Faithful(src, ts[i]) {
      Reaches(src, 0, ts, |src|, i);
    }
    forall i, j | 0 <= i < j < |ts| ensures ts[i].offset + |ts[i].text| <= ts[j].offset {
      NoOverlap(src, 0, ts, |src|, i, j);
    }
  }

  // ----- without errors, only whitespace between the tokens -----

  ghost predicate AllWhitespace(s: string) {
    forall i :: 0 <= i < |s| ==> IsWhitespace(s[i])
  }

  /** The source from offset from on is the tokens and, between them, whitespace whose blank lines
      the next token counts. */
  ghost predicate Spaced(src: string, from: nat, ts: seq<Token>, to: nat)
    decreases |ts|
  {
    if ts == [] then from == to
    else SpaceBefore(src, from, ts[0]) && Spaced(src, ts[0].offset + |ts[0].text|, ts[1..], to)
  }

  ghost predicate SpaceBefore(src: string, from: nat, t: Token) {
    && from <= t.offset && t.offset + |t.text| <= |src| && t.text == src[t.offset..t.offset + |t.text|]
    && AllWhitespace(src[from..t.offset]) && t.blankLines == BlankLines(Newlines(src[from..t.offset]))
  }

  lemma {:induction false} SpacedConcat(src: string, from: nat, a: seq<Token>, mid: nat, b: seq<Token>, to: nat)
    requires Spaced(src, from, a, mid) && Spaced(src, mid, b, to)
    ensures Spaced(src, from, a + b, to)
    decreases |a|
  {
    hide SpaceBefore;
    if a == [] {
      assert a + b == b;
    } else {
      assert (a + b)[1..] == a[1..] + b;
      SpacedConcat(src, a[0].offset + |a[0].text|, a[1..], mid, b, to);
    }
  }

  /** Whitespace, if any, has been passed from from to off, and blank counts its blank lines. */
  ghost predicate Passed(src: string, from: nat, off: nat, blank: nat) {
    && from <= off <= |src| && AllWhitespace(src[from..off]) && blank == BlankLines(Newlines(src[from..off]))
    && (from == off || off == |src| || !IsWhitespace(src[off]))
  }

  /** Nothing scanTrivia would consume is left at off. */
  ghost predicate AtToken(src: string, off: nat) {
    off <= |src|
    && (off == |src| || (!IsWhitespace(src[off]) && !StartsLineComment(src[off..]) && !StartsBlockComment(src[off..])))
  }

  lemma PassWhitespace(src: string, from: nat, off: nat, blank: nat)
    requires Passed(src, from, off, blank) && off < |src| && IsWhitespace(src[off])
    ensures var n := WhitespaceLen(src[off..]);
            n > 0 && Passed(src, from, off + n, blank + BlankLines(Newlines(src[off..][..n])))
  {
    var s := src[off..];
    var n := WhitespaceLen(s);
    assert src[from..off + n] == s[..n] && from == off;
    assert src[from..off] == "";
    assert off + n < |src| ==> src[off + n] == s[n];
  }

  lemma PassComment(src: string, from: nat, off: nat, blank: nat, kind: Kind, len: nat)
    requires Passed(src, from, off, blank) && off + len <= |src|
    ensures var t := TokenAt(src, off, kind, len).(blankLines := blank); SpaceBefore(src, from, t)
    ensures Passed(src, off + len, off + len, 0)
  {
  }

  lemma SpacedOne(src: string, from: nat, t: Token, rest: seq<Token>, to: nat)
    requires SpaceBefore(src, from, t) && Spaced(src, t.offset + |t.text|, rest, to)
    ensures Spaced(src, from, [t] + rest, to)
  {
    assert ([t] + rest)[1..] == rest;
  }

  lemma SpacedNone(src: string, from: nat)
    ensures Spaced(src, from, [], from)
  {
  }

  lemma {:induction false} TriviaSpaced(src: string, from: nat, off: nat, blank: nat) returns (mid: nat)
    requires Passed(src, from, off, blank) && off <= |src|
    ensures var t := ScanTrivia(src, off, blank);
            Spaced(src, from, t.comments, mid) && Passed(src, mid, t.off, t.blankLines) && AtToken(src, t.off)
    decreases |src| - off
  {
    hide Passed, Spaced, SpaceBefore, ScanTrivia, BlockAt, LineCommentLen, WhitespaceLen, Newlines, BlankLines, LineAt,
         ColAt;
    var s := src[off..];
    TriviaStep(src, off, blank);
    SpacedNone(src, from);
    if s == "" {
      mid := from;
    } else if IsWhitespace(s[0]) {
      var n := WhitespaceLen(s);
      PassWhitespace(src, from, off, blank);
      mid := TriviaSpaced(src, from, off + n, blank + BlankLines(Newlines(s[..n])));
    } else if StartsLineComment(s) {
      var n := LineCommentLen(s);
      PassComment(src, from, off, blank, LineComment, n);
      mid := TriviaSpaced(src, off + n, off + n, 0);
      SpacedOne(src, from, TokenAt(src, off, LineComment, n).(blankLines := blank),
                ScanTrivia(src, off + n, 0).comments, mid);
    } else if StartsBlockComment(s) {
      var b := BlockAt(s);
      PassComment(src, from, off, blank, b.kind, b.len);
      mid := TriviaSpaced(src, off + b.len, off + b.len, 0);
      SpacedOne(src, from, TokenAt(src, off, b.kind, b.len).(blankLines := blank),
                ScanTrivia(src, off + b.len, 0).comments, mid);
    } else {
      mid := from;
    }
  }

  /** At a token, the only thing scanToken skips is an error. */
  lemma SkipsOnlyErrors(src: string, off: nat)
    requires AtToken(src, off) && off < |src| && ActionAt(src[off..]).Skip?
    ensures ActionAt(src[off..]).flaws != []
  {
    hide WordKind, NumberAt, StringRest, Symbols, BlockAt, LineCommentLen, IdentLen, RuneSize;
  }

  lemma TokenWithoutErrors(src: string, off: nat)
    requires AtToken(src, off) && ScanToken(src, off).errs == []
    ensures off < |src| ==> ActionAt(src[off..]).Take? && ActionAt(src[off..]).flaws == []
    ensures ScanToken(src, off).token
         == if off == |src| then TokenAt(src, off, EOF, 0)
            else TokenAt(src, off, ActionAt(src[off..]).kind, ActionAt(src[off..]).len)
  {
    hide ActionAt, AtToken, TokenAt;
    if off < |src| {
      var a := ActionAt(src[off..]);
      assert |Errors(src, off, a.flaws)| == |a.flaws|;
      if a.Skip? {
        SkipsOnlyErrors(src, off);
      }
    }
  }

  lemma TokenSpaced(src: string, mid: nat, off: nat, blank: nat, t: Token)
    requires Passed(src, mid, off, blank) && t.offset == off && Faithful(src, t)
    ensures SpaceBefore(src, mid, t.(blankLines := blank))
  {
  }

  /** If no error is reported, the source is its tokens and whitespace. */
  lemma {:induction false} WithoutErrorsSpaced(src: string, off: nat)
    requires off <= |src| && LexFrom(src, off).errs == []
    ensures Spaced(src, off, LexFrom(src, off).tokens, |src|)
    decreases |src| - off
  {
    hide ScanTrivia, ScanToken, Faithful, SpaceBefore, AtToken, Passed, ActionAt;
    StartsPassed(src, off);
    var t := ScanTrivia(src, off, 0);
    var mid := TriviaSpaced(src, off, off, 0);
    var r := ScanToken(src, t.off);
    TokenFaithful(src, t.off);
    TokenWithoutErrors(src, t.off);
    TokenSpaced(src, mid, t.off, t.blankLines, r.token);
    var token := r.token.(blankLines := t.blankLines);
    if r.token.kind == EOF {
      SpacedNone(src, |src|);
      SpacedOne(src, mid, token, [], |src|);
      assert [token] + [] == [token];
      SpacedConcat(src, off, t.comments, mid, [token], |src|);
    } else {
      WithoutErrorsSpaced(src, r.off);
      var rest := LexFrom(src, r.off).tokens;
      SpacedOne(src, mid, token, rest, |src|);
      SpacedConcat(src, off, t.comments, mid, [token] + rest, |src|);
      assert t.comments + ([token] + rest) == t.comments + [token] + rest;
    }
  }

  lemma StartsPassed(src: string, off: nat)
    requires off <= |src|
    ensures Passed(src, off, off, 0)
  {
  }

  /** The texts of the tokens, each after the source's whitespace before it. */
  ghost function Rebuilt(src: string, from: nat, ts: seq<Token>): string
    decreases |ts|
  {
    if ts == [] || !(from <= ts[0].offset <= |src|) then ""
    else src[from..ts[0].offset] + ts[0].text + Rebuilt(src, ts[0].offset + |ts[0].text|, ts[1..])
  }

  lemma {:induction false} SpacedRebuilds(src: string, from: nat, ts: seq<Token>)
    requires Spaced(src, from, ts, |src|)
    ensures from <= |src| && Rebuilt(src, from, ts) == src[from..]
    decreases |ts|
  {
    hide Newlines, BlankLines;
    if ts == [] {
      assert src[from..] == "";
    } else {
      var end := ts[0].offset + |ts[0].text|;
      SpacedRebuilds(src, end, ts[1..]);
      assert src[from..] == src[from..ts[0].offset] + src[ts[0].offset..end] + src[end..];
    }
  }

  /** Lexing loses nothing: without errors, the tokens and the whitespace between them, whose blank
      lines they count, are the source. */
  lemma LexLossless(src: string)
    requires Lex(src).errs == []
    ensures Spaced(src, 0, Lex(src).tokens, |src|) && Rebuilt(src, 0, Lex(src).tokens) == src
  {
    hide Spaced, Rebuilt;
    WithoutErrorsSpaced(src, 0);
    SpacedRebuilds(src, 0, Lex(src).tokens);
    assert src[0..] == src;
  }
}
