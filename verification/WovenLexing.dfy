/** Lexing tokens and comments that are laid out with whitespace between them gives them back
    (syntax/lexer.go). */
module WovenLexing {
  import opened Utf8
  import opened Lexing
  import opened LexProps
  import opened LexRoundTrip
  import Layout
  import Page
  import PrintText

  // ----- what is laid out -----

  /** The lexer takes a comment of this kind from a source that starts with the text and goes on with
      anything, or with the end of the line after a line comment. */
  predicate IsCommentText(w: Word) {
    || (w.kind == LineComment && StartsLineComment(w.text) && forall i :: 0 <= i < |w.text| ==> !IsNewline(w.text[i]))
    || (w.kind != LineComment && StartsBlockComment(w.text) && BlockAt(w.text) == Block(|w.text|, w.kind, true))
  }

  ghost predicate IsItem(w: Word) {
    if IsComment(w.kind) then IsCommentText(w) else IsWord(w)
  }

  /** A line comment is followed by a line break, and two tokens with no gap need none. */
  predicate Parted(a: Word, gap: string, b: Word) {
    && (a.kind == LineComment ==> Layout.StartsLine(gap))
    && (!IsComment(a.kind) && !IsComment(b.kind) && gap == "" ==> RawTokenGap(a.kind, b.kind) == "")
  }

  /** Tokens and comments with whitespace around them. */
  ghost predicate Arranged(parts: seq<Layout.Part>, tail: string, ws: seq<Word>) {
    && |parts| == |ws| && PrintText.AllSpace(tail)
    && (forall i :: 0 <= i < |ws| ==> IsItem(ws[i]) && parts[i].ink == ws[i].text && PrintText.AllSpace(parts[i].gap))
    && (forall i :: 0 < i < |ws| ==> Parted(ws[i - 1], parts[i].gap, ws[i]))
    && (ws != [] && ws[|ws| - 1].kind == LineComment ==> tail == "" || Layout.StartsLine(tail))
  }

  // ----- comments in front of other text -----

  /** A line comment ends at the first line break. */
  lemma {:induction false} LineCommentEnds(t: string, r: string)
    requires forall i :: 0 <= i < |t| ==> !IsNewline(t[i])
    requires r == "" || IsNewline(r[0])
    ensures LineCommentLen(t + r) == |t|
    decreases |t|
  {
    hide RuneSize;
    var s := t + r;
    if t == "" {
      assert s == r;
    } else {
      assert s[0] == t[0];
      var n := RuneSize(s);
      RuneInside(t, r);
      assert s[n..] == t[n..] + r;
      LineCommentEnds(t[n..], r);
    }
  }

  lemma RuneInside(t: string, r: string)
    requires t != "" && (r == "" || IsNewline(r[0]))
    ensures RuneSize(t + r) <= |t|
  {
    hide RuneSize;
    assert r != "" ==> (t + r)[|t|] == r[0];
  }

  /** A line comment holds no line break. */
  lemma {:induction false} NoNewline(s: string, i: nat)
    requires i < LineCommentLen(s)
    ensures !IsNewline(s[i])
    decreases |s|
  {
    hide RuneSize;
    var n := RuneSize(s);
    if i < n {
      if i > 0 {
        assert s[i] as int >= 0x80;
      }
    } else {
      NoNewline(s[n..], i - n);
    }
  }

  /** How a block comment proceeds. */
  lemma BlockStep(s: string, i: nat, doc: bool)
    requires 2 <= i <= |s|
    ensures i == |s| ==> BlockRest(s, i, doc) == Block(i, BlockComment, false)
    ensures i < |s| && s[i] == '*' && Peek(s, i + 1) == '/' ==>
              BlockRest(s, i, doc) == Block(i + 2, if doc then DocComment else BlockComment, true)
    ensures i < |s| && !(s[i] == '*' && Peek(s, i + 1) == '/') ==>
              BlockRest(s, i, doc) == if doc && i == 3 && s[i] == '/' then Block(i + 1, DocComment, true)
                                      else BlockRest(s, i + RuneSize(s[i..]), doc)
  {
    hide RuneSize;
  }

  /** A block comment that ends ends with a slash. */
  lemma {:induction false} BlockEnds(s: string, i: nat, doc: bool)
    requires 2 <= i <= |s| && BlockRest(s, i, doc).terminated
    ensures i < BlockRest(s, i, doc).len && s[BlockRest(s, i, doc).len - 1] == '/'
    decreases |s| - i
  {
    hide RuneSize, BlockRest;
    BlockStep(s, i, doc);
    if i < |s| && !(s[i] == '*' && Peek(s, i + 1) == '/') && !(doc && i == 3 && s[i] == '/') {
      BlockEnds(s, i + RuneSize(s[i..]), doc);
    }
  }

  /** A block comment is taken the same whatever follows. */
  lemma {:induction false} BlockIn(t: string, r: string, r': string, i: nat, doc: bool, k: Kind)
    requires 2 <= i < |t| && t[|t| - 1] == '/' && BlockRest(t + r, i, doc) == Block(|t|, k, true)
    ensures BlockRest(t + r', i, doc) == Block(|t|, k, true)
    decreases |t| - i
  {
    hide RuneSize, BlockRest;
    var s, s' := t + r, t + r';
    assert s[i] == t[i] == s'[i];
    BlockStep(s, i, doc);
    BlockStep(s', i, doc);
    BlockEnds(s, i, doc);
    if i + 1 < |t| {
      assert Peek(s, i + 1) == t[i + 1] == Peek(s', i + 1);
      if !(s[i] == '*' && Peek(s, i + 1) == '/') && !(doc && i == 3 && s[i] == '/') {
        assert s[i..] == t[i..] + r && s'[i..] == t[i..] + r';
        RuneIn(t[i..], r, r');
        BlockEnds(s, i + RuneSize(s[i..]), doc);
        BlockIn(t, r, r', i + RuneSize(s[i..]), doc, k);
      }
    } else {
      LastSlash(t, r, i, doc, k);
    }
  }

  lemma LastSlash(t: string, r: string, i: nat, doc: bool, k: Kind)
    requires 2 <= i == |t| - 1 && t[i] == '/' && BlockRest(t + r, i, doc) == Block(|t|, k, true)
    ensures doc && i == 3 && k == DocComment
  {
    hide RuneSize, BlockRest;
    var s := t + r;
    assert s[i] == '/';
    BlockStep(s, i, doc);
    if !(doc && i == 3) {
      BlockEnds(s, i + RuneSize(s[i..]), doc);
    }
  }

  /** A comment in front of anything that may follow it. */
  lemma CommentTaken(w: Word, r: string)
    requires IsComment(w.kind) && IsCommentText(w) && (w.kind == LineComment ==> r == "" || Layout.StartsLine(r))
    ensures var s := w.text + r;
            && s != "" && !IsWhitespace(s[0])
            && if w.kind == LineComment then StartsLineComment(s) && LineCommentLen(s) == |w.text|
               else !StartsLineComment(s) && StartsBlockComment(s) && BlockAt(s) == Block(|w.text|, w.kind, true)
  {
    hide BlockRest, LineCommentLen;
    var t, s := w.text, w.text + r;
    assert s[0] == t[0];
    if w.kind == LineComment {
      LineCommentEnds(t, r);
      assert |t| > 1 ==> s[1] == t[1];
    } else {
      assert s[1] == t[1];
      assert t + "" == t;
      BlockStep(t, 2, Peek(t, 2) == '*');
      BlockEnds(t, 2, Peek(t, 2) == '*');
      assert Peek(s, 2) == t[2];
      BlockIn(t, "", r, 2, Peek(t, 2) == '*', w.kind);
    }
  }

  // ----- trivia -----

  lemma TriviaErrors(src: string, off: nat, blank: nat)
    requires off <= |src| && (src[off..] == "" || !IsWhitespace(src[off]))
    ensures var s, t := src[off..], ScanTrivia(src, off, blank);
            && (s == "" || (!StartsLineComment(s) && !StartsBlockComment(s)) ==> t == Trivia(blank, [], off, []))
            && (StartsLineComment(s) ==> t.errs == ScanTrivia(src, off + LineCommentLen(s), 0).errs)
            && (!StartsLineComment(s) && StartsBlockComment(s) && BlockAt(s).terminated ==>
                  t.errs == ScanTrivia(src, off + BlockAt(s).len, 0).errs)
  {
    hide TokenAt, Errors, BlockAt, Newlines, BlankLines, RuneSize;
    assert |Errors(src, off, [])| == 0;
  }

  lemma {:induction false} GapLen(gap: string, rest: string)
    requires PrintText.AllSpace(gap) && (rest == "" || !IsWhitespace(rest[0]))
    ensures WhitespaceLen(gap + rest) == |gap|
    decreases |gap|
  {
    if gap == "" {
      assert gap + rest == rest;
    } else {
      assert (gap + rest)[1..] == gap[1..] + rest;
      GapLen(gap[1..], rest);
    }
  }

  /** Trivia goes on behind a gap; only its blank lines are remembered. */
  lemma GapSkipped(src: string, off: nat, gap: string, rest: string) returns (blank: nat)
    requires off <= |src| && src[off..] == gap + rest
    requires PrintText.AllSpace(gap) && (rest == "" || !IsWhitespace(rest[0]))
    ensures off + |gap| <= |src| && src[off + |gap|..] == rest
    ensures ScanTrivia(src, off, 0) == ScanTrivia(src, off + |gap|, blank) && blank == BlankLines(Newlines(gap))
  {
    hide ScanTrivia, WhitespaceLen, Newlines, BlankLines, LineCommentLen, BlockAt;
    assert src[off + |gap|..] == src[off..][|gap|..];
    if gap == "" {
      blank := 0;
      NoNewlines();
    } else {
      assert src[off..][0] == gap[0];
      assert src[off..][..|gap|] == gap;
      GapLen(gap, rest);
      TriviaStep(src, off, 0);
      blank := BlankLines(Newlines(src[off..][..|gap|]));
    }
  }

  lemma NoNewlines()
    ensures BlankLines(Newlines("")) == 0
  {
  }

  /** A comment in front of the rest of the source. */
  lemma CommentFirstTaken(src: string, off: nat, blank: nat, w: Word, after: string)
    requires off <= |src| && src[off..] == w.text + after && IsComment(w.kind) && IsCommentText(w)
    requires w.kind == LineComment ==> after == "" || Layout.StartsLine(after)
    ensures var t, r := ScanTrivia(src, off, blank), ScanTrivia(src, off + |w.text|, 0);
            && src[off + |w.text|..] == after && t.off == r.off && t.errs == r.errs && t.blankLines == r.blankLines
            && |t.comments| == 1 + |r.comments| && t.comments[1..] == r.comments
            && Word(t.comments[0].kind, t.comments[0].text) == w
            && t.comments[0].offset == off && t.comments[0].blankLines == blank
  {
    hide ScanTrivia, LineCommentLen, BlockAt, IsCommentText, LineAt, ColAt;
    CommentTaken(w, after);
    TriviaStep(src, off, blank);
    TriviaErrors(src, off, blank);
    assert src[off + |w.text|..] == src[off..][|w.text|..];
    assert src[off..off + |w.text|] == src[off..][..|w.text|];
  }

  /** The stream of a source that starts with a comment. */
  lemma CommentInFront(src: string, off: nat, later: nat)
    requires off <= |src| && later <= |src|
    requires var t, r := ScanTrivia(src, off, 0), ScanTrivia(src, later, 0);
             && t.off == r.off && t.errs == r.errs && t.blankLines == r.blankLines
             && |t.comments| == 1 + |r.comments| && t.comments[1..] == r.comments
    ensures var c := ScanTrivia(src, off, 0).comments[0];
            && LexFrom(src, off).errs == LexFrom(src, later).errs
            && LexFrom(src, off).tokens == [c] + LexFrom(src, later).tokens
  {
    hide ScanTrivia, ScanToken;
    var t, r := ScanTrivia(src, off, 0), ScanTrivia(src, later, 0);
    assert t.comments == [t.comments[0]] + r.comments;
    assert LexFrom(src, off).tokens == [t.comments[0]] + LexFrom(src, later).tokens;
  }

  // ----- tokens and comments -----

  lemma SpaceIsWhitespace(s: string)
    requires PrintText.AllSpace(s) && s != ""
    ensures IsWhitespace(s[0]) && Stops(s)
  {
  }

  lemma ItemStart(w: Word)
    requires IsItem(w)
    ensures w.text != "" && !IsWhitespace(w.text[0])
    ensures IsComment(w.kind) ==> Stops(w.text)
    ensures !IsComment(w.kind) ==> w.text[0] != '/' && w.text[0] != '#'
  {
    hide IsWord, BlockAt;
    if !IsComment(w.kind) {
      WordStart(w);
    }
  }

  /** What comes after the first item. */
  function After(parts: seq<Layout.Part>, tail: string): string
    requires parts != []
  {
    Layout.TextOf(parts[1..]) + tail
  }

  lemma {:induction false} ArrangedRest(parts: seq<Layout.Part>, tail: string, ws: seq<Word>)
    requires Arranged(parts, tail, ws) && ws != []
    ensures Arranged(parts[1..], tail, ws[1..]) && IsItem(ws[0])
    ensures Layout.TextOf(parts) + tail == parts[0].gap + (ws[0].text + After(parts, tail))
    ensures ws[0].kind == LineComment ==> After(parts, tail) == "" || Layout.StartsLine(After(parts, tail))
  {
    hide IsItem, RawTokenGap;
    if |ws| > 1 {
      assert Parted(ws[1 - 1], parts[1].gap, ws[1]);
      assert parts[1..][0] == parts[1];
      forall i | 0 < i < |ws[1..]| ensures Parted(ws[1..][i - 1], parts[1..][i].gap, ws[1..][i]) {
        assert Parted(ws[i + 1 - 1], parts[i + 1].gap, ws[i + 1]);
      }
    } else {
      assert parts[1..] == [];
    }
  }

  /** A token does not run into what comes after it. */
  lemma TokenStops(parts: seq<Layout.Part>, tail: string, ws: seq<Word>)
    requires Arranged(parts, tail, ws) && ws != [] && !IsComment(ws[0].kind)
    ensures SelfEnding(ws[0].kind) || Stops(After(parts, tail))
  {
    hide IsItem, Parted, SelfEnding, IsComment, Stops, PrintText.AllSpace;
    assert IsItem(ws[0]);
    if |ws| == 1 {
      assert parts[1..] == [] && After(parts, tail) == tail;
      if tail == "" {
        NothingStops();
      } else {
        SpaceIsWhitespace(tail);
      }
    } else {
      var p, rest := parts[1], Layout.TextOf(parts[1..][1..]) + tail;
      assert parts[1..][0] == p;
      assert After(parts, tail) == p.gap + (ws[1].text + rest);
      assert IsItem(ws[1]) && Parted(ws[1 - 1], p.gap, ws[1]);
      StopsBefore(ws[0], p.gap, ws[1], rest);
    }
  }

  lemma StopsBefore(a: Word, gap: string, b: Word, rest: string)
    requires IsItem(a) && !IsComment(a.kind) && IsItem(b) && PrintText.AllSpace(gap) && Parted(a, gap, b)
    ensures SelfEnding(a.kind) || Stops(gap + (b.text + rest))
  {
    hide IsItem, IsWord, RawTokenGap, SelfEnding, IsComment, Stops;
    ItemStart(b);
    if gap != "" {
      SpaceIsWhitespace(gap);
      StopsFirst(gap, b.text + rest);
    } else {
      assert gap + (b.text + rest) == b.text + rest;
      if IsComment(b.kind) {
        StopsFirst(b.text, rest);
      } else {
        ItemIsWord(a);
        ItemIsWord(b);
        GapStops(a, b, rest);
      }
    }
  }

  lemma StopsFirst(a: string, b: string)
    requires a != "" && Stops(a)
    ensures Stops(a + b)
  {
  }

  lemma ItemIsWord(w: Word)
    requires IsItem(w) && !IsComment(w.kind)
    ensures IsWord(w)
  {
  }

  /** Lexing what is arranged gives its tokens and comments back. */
  lemma {:induction false} ArrangedLexes(src: string, off: nat, parts: seq<Layout.Part>, tail: string, ws: seq<Word>)
    requires off <= |src| && Arranged(parts, tail, ws) && src[off..] == Layout.TextOf(parts) + tail
    ensures LexFrom(src, off).errs == [] && WordsOf(LexFrom(src, off).tokens) == ws + [Word(EOF, "")]
    ensures Positioned(off, parts, LexFrom(src, off).tokens)
    decreases |ws|
  {
    hide *;
    if ws == [] {
      NothingArranged(src, off, parts, tail);
    } else {
      FirstGap(parts, tail, ws);
      ArrangedRest(parts, tail, ws);
      var from, t := FirstLexed(src, off, parts, tail, ws);
      ArrangedLexes(src, from, parts[1..], tail, ws[1..]);
      WordFirst(t, LexFrom(src, from).tokens);
      PositionedFirst(off, parts, t, LexFrom(src, from).tokens);
      assert [ws[0]] + (ws[1..] + [Word(EOF, "")]) == ws + [Word(EOF, "")];
    }
  }

  /** The tokens lie behind the gaps, and count the blank lines in them. */
  ghost predicate Positioned(off: nat, parts: seq<Layout.Part>, ts: seq<Token>)
    decreases |parts|
  {
    if parts == [] then |ts| == 1
    else
      && ts != [] && ts[0].offset == off + |parts[0].gap|
      && ts[0].blankLines == BlankLines(Newlines(parts[0].gap))
      && Positioned(off + |parts[0].gap| + |parts[0].ink|, parts[1..], ts[1..])
  }

  lemma PositionedFirst(off: nat, parts: seq<Layout.Part>, t: Token, rest: seq<Token>)
    requires parts != [] && t.offset == off + |parts[0].gap| && t.blankLines == BlankLines(Newlines(parts[0].gap))
    requires Positioned(off + |parts[0].gap| + |parts[0].ink|, parts[1..], rest)
    ensures Positioned(off, parts, [t] + rest)
  {
    assert ([t] + rest)[1..] == rest;
  }

  lemma WordFirst(t: Token, rest: seq<Token>)
    ensures WordsOf([t] + rest) == [Word(t.kind, t.text)] + WordsOf(rest)
  {
  }

  /** The first token or comment, and where the lexer goes on after it. */
  lemma FirstLexed(src: string, off: nat, parts: seq<Layout.Part>, tail: string, ws: seq<Word>)
    returns (from: nat, t: Token)
    requires off <= |src| && Arranged(parts, tail, ws) && src[off..] == Layout.TextOf(parts) + tail
    requires ws != [] && parts != []
    ensures from <= |src| && src[from..] == Layout.TextOf(parts[1..]) + tail
    ensures from == off + |parts[0].gap| + |parts[0].ink|
    ensures LexFrom(src, off).errs == LexFrom(src, from).errs
    ensures LexFrom(src, off).tokens == [t] + LexFrom(src, from).tokens && Word(t.kind, t.text) == ws[0]
    ensures t.offset == off + |parts[0].gap| && t.blankLines == BlankLines(Newlines(parts[0].gap))
  {
    hide *;
    FirstGap(parts, tail, ws);
    ArrangedRest(parts, tail, ws);
    var w, after := ws[0], After(parts, tail);
    ItemStart(w);
    FirstOf(w, after);
    AfterIs(parts, tail);
    var blank := GapSkipped(src, off, parts[0].gap, w.text + after);
    var start := off + |parts[0].gap|;
    from := start + |w.text|;
    if IsComment(w.kind) {
      ItemIsComment(w);
      CommentFirstTaken(src, start, blank, w, after);
      CommentInFront(src, off, from);
      t := ScanTrivia(src, off, 0).comments[0];
    } else {
      TokenStops(parts, tail, ws);
      ItemIsWord(w);
      t := TokenInFront(src, off, start, blank, w, after);
    }
  }

  lemma AfterIs(parts: seq<Layout.Part>, tail: string)
    requires parts != []
    ensures After(parts, tail) == Layout.TextOf(parts[1..]) + tail
  {
  }

  lemma FirstOf(w: Word, after: string)
    requires w.text != ""
    ensures (w.text + after)[0] == w.text[0]
  {
  }

  lemma FirstGap(parts: seq<Layout.Part>, tail: string, ws: seq<Word>)
    requires Arranged(parts, tail, ws) && ws != []
    ensures |parts| == |ws| && PrintText.AllSpace(parts[0].gap) && parts[0].ink == ws[0].text
  {
    hide IsItem;
  }

  lemma ItemIsComment(w: Word)
    requires IsItem(w) && IsComment(w.kind)
    ensures IsCommentText(w)
  {
  }

  lemma NothingArranged(src: string, off: nat, parts: seq<Layout.Part>, tail: string)
    requires off <= |src| && Arranged(parts, tail, []) && src[off..] == Layout.TextOf(parts) + tail
    ensures LexFrom(src, off).errs == [] && WordsOf(LexFrom(src, off).tokens) == [] + [Word(EOF, "")]
    ensures Positioned(off, parts, LexFrom(src, off).tokens)
  {
    hide ScanTrivia, ScanToken, LexFrom, TokenAt, Arranged;
    NoParts(parts, tail);
    var blank := TailSkipped(src, off, parts, tail);
    TriviaErrors(src, |src|, blank);
    EntryWords(src, off);
    EndTaken(src);
    assert [] + [Word(EOF, "")] == [Word(EOF, "")];
    TokenKind(src, |src|, EOF, 0);
  }

  lemma NoParts(parts: seq<Layout.Part>, tail: string)
    requires Arranged(parts, tail, [])
    ensures parts == []
  {
  }

  lemma TailSkipped(src: string, off: nat, parts: seq<Layout.Part>, tail: string) returns (blank: nat)
    requires off <= |src| && Arranged(parts, tail, []) && src[off..] == Layout.TextOf(parts) + tail
    ensures ScanTrivia(src, off, 0) == ScanTrivia(src, |src|, blank)
  {
    hide ScanTrivia;
    assert src[off..] == tail + "";
    blank := GapSkipped(src, off, tail, "");
  }

  /** A token behind a gap. */
  lemma TokenInFront(src: string, off: nat, from: nat, blank: nat, w: Word, after: string) returns (t: Token)
    requires off <= from <= |src| && src[from..] == w.text + after && IsWord(w)
    requires SelfEnding(w.kind) || Stops(after)
    requires ScanTrivia(src, off, 0) == ScanTrivia(src, from, blank)
    ensures from + |w.text| <= |src| && src[from + |w.text|..] == after
    ensures LexFrom(src, off).errs == LexFrom(src, from + |w.text|).errs
    ensures LexFrom(src, off).tokens == [t] + LexFrom(src, from + |w.text|).tokens && Word(t.kind, t.text) == w
    ensures t.offset == from && t.blankLines == blank
  {
    hide *;
    NoTrivia(src, from, blank, w, after);
    var r := WordSource(w);
    LexemeKeeps(w, r, after);
    WordTaken(src, from, w, after);
    TokenKind(src, from, w.kind, |w.text|);
    t := EntryToken(src, off, from, blank, w);
  }

  /** The token behind trivia without comments. */
  lemma EntryToken(src: string, off: nat, from: nat, blank: nat, w: Word) returns (t: Token)
    requires off <= from && from + |w.text| <= |src| && ScanTrivia(src, off, 0) == Trivia(blank, [], from, [])
    requires ScanToken(src, from) == Scan(TokenAt(src, from, w.kind, |w.text|), from + |w.text|, []) && w.kind != EOF
    requires TokenAt(src, from, w.kind, |w.text|).text == w.text
    ensures LexFrom(src, off).errs == LexFrom(src, from + |w.text|).errs
    ensures LexFrom(src, off).tokens == [t] + LexFrom(src, from + |w.text|).tokens && Word(t.kind, t.text) == w
    ensures t.offset == from && t.blankLines == blank
  {
    hide ScanTrivia, ScanToken, LineAt, ColAt;
    t := ScanToken(src, from).token.(blankLines := blank);
    assert ScanTrivia(src, off, 0).comments + [t] == [t];
  }

  lemma WordSource(w: Word) returns (r: string)
    requires IsWord(w)
    ensures Lexeme(w, r) && w.kind != EOF
  {
    hide ActionAt;
    r :| Lexeme(w, r);
    NeverEOF(w.text + r);
  }

  /** A token starts no trivia. */
  lemma NoTrivia(src: string, from: nat, blank: nat, w: Word, after: string)
    requires from <= |src| && src[from..] == w.text + after && IsWord(w)
    ensures ScanTrivia(src, from, blank) == Trivia(blank, [], from, [])
  {
    hide ScanTrivia, IsWord;
    WordStart(w);
    assert src[from] == src[from..][0] == w.text[0];
    TriviaErrors(src, from, blank);
  }

  // ----- the last character of a token or comment -----

  ghost predicate NoSpaceIn(s: string, n: nat) {
    n <= |s| && forall i :: 0 <= i < n ==> !IsWhitespace(s[i])
  }

  lemma {:induction false} IdentVisible(s: string)
    ensures NoSpaceIn(s, IdentRest(s))
    decreases |s|
  {
    if s != "" {
      if IsIdentPart(s[0]) {
        IdentVisible(s[1..]);
      } else if s[0] == '.' && IsIdentStart(Peek(s, 1)) {
        IdentVisible(s[2..]);
        assert forall i :: 2 <= i < IdentRest(s) ==> s[i] == s[2..][i - 2];
      }
    }
  }

  lemma HexVisible(s: string)
    ensures NoSpaceIn(s, HexLen(s))
  {
    var i := SignLen(s);
    if HexLen(s) > 0 {
      assert forall k :: i + 2 <= k < HexLen(s) ==> s[k] == s[i + 2..][k - i - 2];
    }
  }

  lemma IntVisible(s: string)
    ensures NoSpaceIn(s, IntLen(s))
  {
    var i := SignLen(s);
    assert forall k :: i <= k < IntLen(s) ==> s[k] == s[i..][k - i];
  }

  lemma FractionVisible(s: string)
    ensures Fraction(s).Good? ==> NoSpaceIn(s, Fraction(s).len)
  {
    if Fraction(s).Good? {
      assert forall k :: 1 <= k < Fraction(s).len ==> s[k] == s[1..][k - 1];
    }
  }

  lemma ExponentVisible(s: string)
    ensures Exponent(s).Good? ==> NoSpaceIn(s, Exponent(s).len)
  {
    if Exponent(s).Good? && Exponent(s).len > 0 {
      var j := 1 + SignLen(s[1..]);
      assert forall k :: j <= k < Exponent(s).len ==> s[k] == s[j..][k - j];
      assert j == 2 ==> s[1] == s[1..][0];
    }
  }

  lemma JoinVisible(s: string, i: nat, n: nat)
    requires i <= |s| && NoSpaceIn(s, i) && NoSpaceIn(s[i..], n)
    ensures NoSpaceIn(s, i + n)
  {
    assert forall k :: i <= k < i + n ==> s[k] == s[i..][k - i];
  }

  lemma DoubleVisible(s: string)
    ensures NoSpaceIn(s, DoubleLen(s))
  {
    hide Fraction, Exponent, DigitRun;
    var i := SignLen(s);
    var j := i + DigitRun(s[i..]);
    JoinVisible(s, i, DigitRun(s[i..]));
    FractionVisible(s[j..]);
    if Fraction(s[j..]).Good? {
      var m := j + Fraction(s[j..]).len;
      JoinVisible(s, j, Fraction(s[j..]).len);
      ExponentVisible(s[m..]);
      if Exponent(s[m..]).Good? {
        JoinVisible(s, m, Exponent(s[m..]).len);
      }
    }
  }

  lemma NumberVisible(s: string)
    ensures NumberAt(s).Number? ==> NoSpaceIn(s, NumberAt(s).len)
  {
    hide HexLen, IntLen, DoubleLen, NoSpaceIn;
    HexVisible(s);
    IntVisible(s);
    DoubleVisible(s);
  }

  /** A token ends visibly. */
  lemma WordEndsVisibly(w: Word)
    requires IsWord(w)
    ensures Page.EndsVisibly(w.text)
  {
    hide WordKind, NumberAt, StringRest, Symbols, IdentRest, ActionAt, NoSpaceIn, IsWhitespace, IsIdentStart,
         StartsNumber, IsIdentPart, IsSign, Symbolic;
    var r: string :| Lexeme(w, r);
    TakenAs(w, r);
    WordStart(w);
    var t, s := w.text, w.text + r;
    assert s[0] == t[0] && s[|t| - 1] == t[|t| - 1];
    if IsIdentStart(t[0]) {
      IdentVisible(s[1..]);
      if |t| > 1 {
        LastVisible(s[1..], |t| - 1);
        assert s[|t| - 1] == s[1..][|t| - 2];
      }
    } else if StartsNumber(s) {
      NumberVisible(s);
      LastVisible(s, |t|);
    } else if t[0] == '\'' || t[0] == '"' {
      QuoteLast(s, 1, t[0]);
    }
    SameSpaces(t[|t| - 1]);
  }

  lemma LastVisible(s: string, n: nat)
    requires NoSpaceIn(s, n) && n > 0
    ensures n <= |s| && !IsWhitespace(s[n - 1])
  {
  }

  lemma SameSpaces(c: char)
    ensures IsWhitespace(c) <==> PrintText.Space(c)
    ensures c == '\'' || c == '"' ==> !IsWhitespace(c)
  {
  }

  // ----- the comments of a source -----

  lemma LineCommentIs(s: string)
    requires StartsLineComment(s)
    ensures IsCommentText(Word(LineComment, s[..LineCommentLen(s)]))
  {
    hide RuneSize;
    var n := LineCommentLen(s);
    forall i | 0 <= i < n ensures !IsNewline(s[i]) {
      NoNewline(s, i);
    }
    SlashesTaken(s);
  }

  /** A line comment holds what it starts with. */
  lemma SlashesTaken(s: string)
    requires StartsLineComment(s)
    ensures LineCommentLen(s) >= 1 && (s[0] != '#' ==> LineCommentLen(s) >= 2)
  {
    assert RuneSize(s) == 1;
    assert s[0] != '#' ==> s[1..][0] == '/';
  }

  lemma BlockCommentIs(s: string)
    requires StartsBlockComment(s) && BlockAt(s).terminated
    ensures var b := BlockAt(s); IsCommentText(Word(b.kind, s[..b.len])) && IsComment(b.kind)
  {
    hide BlockRest;
    var b := BlockAt(s);
    var t, r := s[..b.len], s[b.len..];
    assert s == t + r;
    BlockStep(s, 2, Peek(s, 2) == '*');
    BlockEnds(s, 2, Peek(s, 2) == '*');
    BlockKind(s, 2, Peek(s, 2) == '*');
    assert t + "" == t && Peek(t, 2) == t[2] == Peek(s, 2);
    BlockIn(t, r, "", 2, Peek(s, 2) == '*', b.kind);
  }

  ghost predicate CommentsOK(ts: seq<Token>) {
    forall i :: 0 <= i < |ts| && IsComment(ts[i].kind) ==> IsCommentText(Word(ts[i].kind, ts[i].text))
  }

  lemma CommentsConcat(a: seq<Token>, b: seq<Token>)
    requires CommentsOK(a) && CommentsOK(b)
    ensures CommentsOK(a + b)
  {
    hide IsCommentText, IsComment;
  }

  lemma UnterminatedIsError(src: string, off: nat, blank: nat)
    requires off <= |src| && StartsBlockComment(src[off..]) && ScanTrivia(src, off, blank).errs == []
    ensures BlockAt(src[off..]).terminated && ScanTrivia(src, off + BlockAt(src[off..]).len, 0).errs == []
  {
    hide TokenAt, BlockAt, Newlines, BlankLines, RuneSize, LineAt, ColAt;
    var b := BlockAt(src[off..]);
    assert |Errors(src, off, BlockFlaws(b))| == |BlockFlaws(b)|;
  }

  lemma {:induction false} TriviaComments(src: string, off: nat, blank: nat)
    requires off <= |src| && ScanTrivia(src, off, blank).errs == []
    ensures CommentsOK(ScanTrivia(src, off, blank).comments)
    decreases |src| - off
  {
    hide ScanTrivia, BlockAt, LineCommentLen, IsCommentText, CommentsOK, LineAt, ColAt, Newlines, BlankLines;
    var s := src[off..];
    TriviaStep(src, off, blank);
    NoCommentsOK();
    if s != "" && IsWhitespace(s[0]) {
      var n := WhitespaceLen(s);
      TriviaComments(src, off + n, blank + BlankLines(Newlines(s[..n])));
    } else if StartsLineComment(s) {
      var n := LineCommentLen(s);
      TriviaErrors(src, off, blank);
      TriviaComments(src, off + n, 0);
      LineCommentIs(s);
      OneCommentOK(src, off, LineComment, n, blank, ScanTrivia(src, off + n, 0).comments);
    } else if StartsBlockComment(s) {
      var b := BlockAt(s);
      UnterminatedIsError(src, off, blank);
      TriviaComments(src, off + b.len, 0);
      BlockCommentIs(s);
      OneCommentOK(src, off, b.kind, b.len, blank, ScanTrivia(src, off + b.len, 0).comments);
    }
  }

  lemma NoCommentsOK()
    ensures CommentsOK([])
  {
  }

  lemma OneCommentOK(src: string, off: nat, kind: Kind, n: nat, blank: nat, rest: seq<Token>)
    requires off + n <= |src| && IsCommentText(Word(kind, src[off..][..n])) && CommentsOK(rest)
    ensures CommentsOK([TokenAt(src, off, kind, n).(blankLines := blank)] + rest)
  {
    hide IsCommentText, LineAt, ColAt;
    assert src[off..][..n] == src[off..off + n];
    var t := TokenAt(src, off, kind, n).(blankLines := blank);
    assert CommentsOK([t]);
    CommentsConcat([t], rest);
  }

  /** Every comment of an error-free source is a comment wherever it is written. */
  lemma {:induction false} CommentsAreTexts(src: string, off: nat)
    requires off <= |src| && LexFrom(src, off).errs == []
    ensures CommentsOK(LexFrom(src, off).tokens)
    decreases |src| - off
  {
    hide ScanTrivia, ScanToken, IsCommentText, CommentsOK, ActionAt;
    var t := ScanTrivia(src, off, 0);
    var r := ScanToken(src, t.off);
    var token := r.token.(blankLines := t.blankLines);
    TriviaComments(src, off, 0);
    TokenNoComment(src, t.off);
    assert CommentsOK([token]) by {
      TokenOK(token);
    }
    CommentsConcat(t.comments, [token]);
    if r.token.kind != EOF {
      CommentsAreTexts(src, r.off);
      CommentsConcat(t.comments + [token], LexFrom(src, r.off).tokens);
    }
  }

  lemma TokenOK(t: Token)
    requires !IsComment(t.kind)
    ensures CommentsOK([t])
  {
  }

  lemma {:induction false} TokenNoComment(src: string, off: nat)
    requires off <= |src|
    ensures !IsComment(ScanToken(src, off).token.kind)
    decreases |src| - off
  {
    hide ActionAt, LineAt, ColAt;
    if off < |src| {
      if ActionAt(src[off..]).Skip? {
        TokenNoComment(src, off + ActionAt(src[off..]).len);
      } else {
        ActionNoComment(src[off..]);
      }
    }
  }

  /** No token is a comment. */
  lemma ActionNoComment(s: string)
    requires s != "" && ActionAt(s).Take?
    ensures !IsComment(ActionAt(s).kind)
  {
    hide WordKind, NumberAt, StringRest, Symbols, BlockAt, LineCommentLen, IdentLen;
    SymbolsNoComment();
    if IsIdentStart(s[0]) {
      WordNoComment(s[..IdentLen(s)]);
    } else if StartsNumber(s) {
      NumberKinds(s);
    }
  }

  lemma SymbolsNoComment()
    ensures forall c :: c in Symbols() ==> !IsComment(Symbols()[c])
  {
  }

  lemma WordNoComment(text: string)
    ensures !IsComment(WordKind(text))
  {
  }
}
