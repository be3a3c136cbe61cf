/** What emitTokens writes for tokens without comments lexes to the tokens again (formatter/format.go). */
module Emission {
  import opened Lexing
  import opened LexRoundTrip
  import opened LexProps
  import opened Comments

  /** The caller asks for nothing but the tokens. */
  const PLAIN := Options(false, false, [], "", [], "")

  /** The text of the pieces on one line. */
  function LineText(ps: seq<Piece>): string {
    if ps == [] then ""
    else
      var p := ps[|ps| - 1];
      LineText(ps[..|ps| - 1]) + if p.Space? || p.TokenText? || p.CommentText? then p.text else ""
  }

  /** A token as it is written: "async" becomes "oneway". */
  function Written(t: Token): Word {
    if t.kind == Async then Word(Oneway, "oneway") else Word(t.kind, t.text)
  }

  function WrittenWords(ts: seq<Token>): seq<Word> {
    seq(|ts|, i requires 0 <= i < |ts| => Written(ts[i]))
  }

  ghost predicate NoComments(toks: seq<Token>, start: nat, i: nat) {
    i <= |toks| && forall k :: start <= k < i ==> RealAt(toks, k)
  }

  // ----- the text of a list of pieces -----

  lemma {:induction false} LineTextConcat(a: seq<Piece>, b: seq<Piece>)
    ensures LineText(a + b) == LineText(a) + LineText(b)
    decreases |b|
  {
    if b == [] {
      assert a + b == a;
    } else {
      assert (a + b)[..|a + b| - 1] == a + b[..|b| - 1];
      LineTextConcat(a, b[..|b| - 1]);
    }
  }

  lemma LineTextOne(p: Piece)
    ensures LineText([p]) == if p.Space? || p.TokenText? || p.CommentText? then p.text else ""
    ensures LineText([]) == ""
  {
    assert [p][..0] == [];
    assert LineText([p][..0]) == "";
  }

  lemma TokenLine(toks: seq<Token>, i: nat)
    requires i < |toks|
    ensures LineText(TokenDocs(toks, i, PLAIN)) == Written(toks[i]).text
  {
    hide LineText;
    var text := TokenText(i, if toks[i].kind == Async then "oneway" else toks[i].text);
    assert TokenDocs(toks, i, PLAIN) == [text];
    LineTextOne(text);
  }

  /** Between two tokens that follow one another only the canonical gap is written. */
  lemma GapLine(toks: seq<Token>, i: nat)
    requires 0 < i < |toks| && RealAt(toks, i)
    ensures LineText(BetweenDocs(toks, i - 1, i, PLAIN)) ==
            RawTokenGap(Written(toks[i - 1]).kind, Written(toks[i]).kind)
  {
    hide LineText, RawTokenGap;
    SameGap(toks[i - 1], toks[i]);
    var gap := Space(RawTokenGap(toks[i - 1].kind, toks[i].kind));
    assert BetweenDocs(toks, i - 1, i, PLAIN) == [gap];
    LineTextOne(gap);
  }

  lemma SameGap(s: Token, t: Token)
    ensures RawTokenGap(Written(s).kind, Written(t).kind) == RawTokenGap(s.kind, t.kind)
  {
  }

  lemma WrittenMore(ts: seq<Token>, t: Token)
    ensures WrittenWords(ts + [t]) == WrittenWords(ts) + [Written(t)]
  {
  }

  lemma BodyFrom(toks: seq<Token>, start: nat, i: nat)
    requires start < i && NoComments(toks, start, i)
    ensures Body(toks, start, i, PLAIN) ==
            if i == start + 1 then TokenDocs(toks, start, PLAIN)
            else
              Body(toks, start, i - 1, PLAIN) + BetweenDocs(toks, i - 2, i - 1, PLAIN) + TokenDocs(toks, i - 1, PLAIN)
  {
    hide TokenDocs, BetweenDocs;
    assert RealAt(toks, i - 1);
    if i > start + 1 {
      PrevOf(toks, i - 2, i - 2);
      assert RealAt(toks, i - 2);
    }
  }

  /** The loop writes the words joined with their canonical gaps. */
  lemma {:induction false} BodyLine(toks: seq<Token>, start: nat, i: nat)
    requires start < i && NoComments(toks, start, i)
    ensures LineText(Body(toks, start, i, PLAIN)) == Joined(WrittenWords(toks[start..i]))
    decreases i
  {
    hide LineText, Joined, TokenDocs, BetweenDocs, RawTokenGap, WrittenWords, Written, Body, PrevReal, RealAt;
    BodyFrom(toks, start, i);
    var ts, last := toks[start..i - 1], toks[i - 1];
    assert toks[start..i] == ts + [last];
    WrittenMore(ts, last);
    OneWord(Written(last));
    TokenLine(toks, i - 1);
    if i == start + 1 {
      WrittenNone(ts);
      assert [] + [Written(last)] == [Written(last)];
    } else {
      BodyLine(toks, start, i - 1);
      assert RealAt(toks, i - 1);
      var body, gap := Body(toks, start, i - 1, PLAIN), BetweenDocs(toks, i - 2, i - 1, PLAIN);
      LineTextConcat(body, gap);
      LineTextConcat(body + gap, TokenDocs(toks, i - 1, PLAIN));
      GapLine(toks, i - 1);
      JoinedConcat(WrittenWords(ts), [Written(last)]);
      LastWritten(ts);
    }
  }

  lemma WrittenNone(ts: seq<Token>)
    requires ts == []
    ensures WrittenWords(ts) == []
  {
  }

  lemma LastWritten(ts: seq<Token>)
    requires ts != []
    ensures WrittenWords(ts) != [] && WrittenWords(ts)[|WrittenWords(ts)| - 1] == Written(ts[|ts| - 1])
  {
  }

  /** Tokens without comments are written as their words joined with the canonical gaps. */
  lemma EmittedIsJoined(toks: seq<Token>, start: nat, end: nat)
    requires start <= end < |toks| && NoComments(toks, start, end + 1)
    ensures LineText(Emitted(toks, start, end, PLAIN)) == Joined(WrittenWords(toks[start..end + 1]))
  {
    hide LineText, Joined, Body, WrittenWords;
    BodyLine(toks, start, end + 1);
    assert RealAt(toks, end);
    var body := Body(toks, start, end + 1, PLAIN);
    assert Emitted(toks, start, end, PLAIN) == body;
  }

  // ----- the words are those of the source -----

  lemma {:induction false} InReal(ts: seq<Token>, i: nat)
    requires i < |ts| && !IsComment(ts[i].kind) && ts[i].kind != EOF
    ensures exists k :: 0 <= k < |Real(ts)| && Real(ts)[k] == ts[i]
    decreases |ts|
  {
    if i == 0 {
      assert Real(ts)[0] == ts[0];
    } else {
      InReal(ts[1..], i - 1);
      var k :| 0 <= k < |Real(ts[1..])| && Real(ts[1..])[k] == ts[i];
      assert Real(ts)[if IsComment(ts[0].kind) || ts[0].kind == EOF then k else k + 1] == ts[i];
    }
  }

  lemma OnewayIsWord()
    ensures IsWord(Word(Oneway, "oneway"))
  {
    hide IsWord;
    KeywordIsWord("oneway", Oneway);
  }

  lemma WrittenIsWord(src: string, i: nat)
    requires Lex(src).errs == [] && i < |Lex(src).tokens| && RealAt(Lex(src).tokens, i)
             && Lex(src).tokens[i].kind != EOF
    ensures IsWord(Written(Lex(src).tokens[i]))
  {
    hide IsWord, LexFrom, Real;
    var ts := Lex(src).tokens;
    OnewayIsWord();
    RealAreWords(src, 0);
    InReal(ts, i);
    var k :| 0 <= k < |Real(ts)| && Real(ts)[k] == ts[i];
    assert IsWord(WordsOf(Real(ts))[k]);
  }

  /** Any tokens of an error-free source with no comment between them, written by emitTokens and lexed
      again, give the same kinds and texts, "async" as "oneway": no two of them merge or split. */
  lemma EmittedRoundTrip(src: string, start: nat, end: nat)
    requires Lex(src).errs == [] && start <= end < |Lex(src).tokens| - 1 && NoComments(Lex(src).tokens, start, end + 1)
    ensures var text := LineText(Emitted(Lex(src).tokens, start, end, PLAIN));
            && Lex(text).errs == []
            && WordsOf(Lex(text).tokens) == WrittenWords(Lex(src).tokens[start..end + 1]) + [Word(EOF, "")]
  {
    hide LexFrom, LineText, Joined, Emitted, IsWord, Written;
    var ts := Lex(src).tokens;
    var ws := WrittenWords(ts[start..end + 1]);
    EmittedIsJoined(ts, start, end);
    OnlyEofLast(src);
    forall i | 0 <= i < |ws| ensures IsWord(ws[i]) {
      assert RealAt(ts, start + i);
      WrittenIsWord(src, start + i);
      assert ws[i] == Written(ts[start + i]);
    }
    var joined := Joined(ws);
    assert joined[0..] == joined == "" + joined;
    JoinedLexes(joined, 0, "", ws);
  }

  lemma OnlyEofLast(src: string)
    ensures forall i :: 0 <= i < |Lex(src).tokens| - 1 ==> Lex(src).tokens[i].kind != EOF
  {
    hide Lex;
    StreamIsFaithful(src);
  }
}
