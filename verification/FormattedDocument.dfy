/** Rendering all of a source keeps its document: the text that comes out reads as the same tree
    (formatter/format.go, syntax/parser.go). */
module FormattedDocument {
  import opened Lexing
  import opened LexRoundTrip
  import opened Comments
  import opened PrintedEmission
  import Documents
  import Doc
  import Emission
  import Grammar
  import Layout
  import Page
  import LexProps
  import PrintMachine
  import SameReading

  /** first is the first token of the stream that is no comment, and it is not EOF. */
  ghost predicate Starts(toks: seq<Token>, first: nat) {
    first < |toks| - 1 && RealAt(toks, first) && forall k :: 0 <= k < first ==> CommentAt(toks, k)
  }

  /** How much of the stream is rendered: all but EOF and the comments on lines of their own before it. */
  function RenderedLen(toks: seq<Token>): int
    requires toks != []
  {
    |toks| - 1 - |Leading(toks, |toks| - 1)|
  }

  lemma {:induction false} NothingDropped(toks: seq<Token>, a: int, b: int, o: Comments.Options)
    requires 0 <= a <= b <= |toks| && o.skipText == []
    ensures Rendered(toks, a, b, o) == Range(a, b)
    decreases b - a
  {
    hide Range;
    RangeFirst(a, b);
    if a < b {
      NothingDropped(toks, a, b - 1, o);
    }
  }

  lemma RangesJoin(a: int, b: int, c: int)
    requires a <= b <= c
    ensures Range(a, b) + Range(b, c) == Range(a, c)
  {
  }

  lemma RangeFront(a: int, b: int, s: seq<int>, t: seq<int>)
    requires s + t == Range(a, b) && a <= b
    ensures s == Range(a, b - |t|) && b - |t| >= a
  {
    assert |s + t| == b - a;
    forall i | 0 <= i < |s| ensures s[i] == a + i {
      assert (s + t)[i] == a + i;
    }
  }

  /** The tokens of a source and all of their comments are rendered, in source order. */
  lemma AllRendered(src: string, first: nat, o: Comments.Options)
    requires Starts(Lex(src).tokens, first) && o.leading && o.trailing && o.skipText == []
    ensures var toks := Lex(src).tokens;
            && first < RenderedLen(toks) < |toks|
            && Sources(Emitted(toks, first, |toks| - 2, o)) == Range(0, RenderedLen(toks))
            && forall k :: RenderedLen(toks) <= k < |toks| - 1 ==> CommentAt(toks, k)
  {
    hide LexFrom, Emitted, Sources, Range, Rendered, Leading, Trailing, LinesAscend, LineSafe, PrevReal, IsComment;
    var toks := LexTokens(src);
    var last, end := PrevReal(toks, |toks| - 2), |toks| - 1;
    EmittedSources(toks, first, end - 1, o);
    NothingDropped(toks, first, last + 1, o);
    CommentsFirst(toks, first);
    LexedLinesAscend(src);
    EndIsReal(src);
    AllBetween(toks, end - 1);
    CommentsSplit(toks, last, end);
    RangesJoin(0, first, last + 1);
    RangeFront(last + 1, end, Trailing(toks, last), Leading(toks, end));
    RangesJoin(0, last + 1, end - |Leading(toks, end)|);
  }

  lemma EndIsReal(src: string)
    ensures var toks := Lex(src).tokens; toks != [] && RealAt(toks, |toks| - 1) && toks[|toks| - 1].kind == EOF
  {
    hide LexFrom;
    LexProps.StreamIsFaithful(src);
  }

  // ----- the same stream but for the gaps -----

  lemma ItemsAlike(src: string, n: nat, b: seq<Token>)
    requires n < |Lex(src).tokens| && forall k :: n <= k < |Lex(src).tokens| - 1 ==> CommentAt(Lex(src).tokens, k)
    requires WordsOf(b) == ItemsAt(Lex(src).tokens, Range(0, n)) + [Word(EOF, "")]
    ensures SameReading.SameStream(Lex(src).tokens, b, n)
  {
    hide LexFrom, Emission.Written, TrimRight, IsComment, Grammar.KindAt;
    var toks := LexTokens(src);
    EndIsReal(src);
    Emission.OnlyEofLast(src);
    assert |b| == n + 1;
    forall i | 0 <= i < n ensures SameReading.Alike(toks[i].kind, b[i].kind) {
      assert WordsOf(b)[i] == ItemAt(toks, Range(0, n)[i]);
      WrittenAlike(toks[i]);
    }
    assert WordsOf(b)[n] == Word(EOF, "");
    EndsAt(toks, n);
    EndsAt(b, n);
  }

  lemma WrittenAlike(t: Token)
    ensures SameReading.Alike(t.kind, Emission.Written(t).kind) && SameReading.Alike(t.kind, t.kind)
  {
  }

  lemma {:induction false} EndsAt(toks: seq<Token>, n: nat)
    requires n < |toks| && toks[|toks| - 1].kind == EOF && forall k :: n <= k < |toks| - 1 ==> CommentAt(toks, k)
    ensures Grammar.NextReal(toks, n) == |toks| - 1 && Grammar.KindAt(toks, n) == EOF
    decreases |toks| - n
  {
    if n < |toks| - 1 {
      assert CommentAt(toks, n);
      EndsAt(toks, n + 1);
    }
  }

  // ----- the same document -----

  /** All of an error-free source, rendered by emitTokens with its comments in a document with any groups
      and indentation around it and printed at any width, and lexed again, has the same tokens and
      comments in the same order, without errors, and reads as the same document, or as none if the
      source reads as none. */
  lemma DocumentKept(src: string, first: nat, o: Comments.Options, d: Doc.Doc, po: PrintMachine.Options, brk: set<nat>)
    requires Lex(src).errs == [] && Starts(Lex(src).tokens, first) && o.leading && o.trailing && Plain(o)
    requires Page.Straight(d) && Page.LineOptions(po)
    requires Layout.Leaves(d) == PieceLeaves(Emitted(Lex(src).tokens, first, |Lex(src).tokens| - 2, o))
    ensures var r, toks := PrintMachine.Run(po, brk, PrintMachine.Start(d)), Lex(src).tokens;
            && r.Ok? && Lex(r.text).errs == []
            && WordsOf(Lex(r.text).tokens) == ItemsAt(toks, Range(0, RenderedLen(toks))) + [Word(EOF, "")]
            && Documents.DocumentAt(Lex(r.text).tokens, 0) == Documents.DocumentAt(toks, 0)
  {
    hide LexFrom, Emitted, Sources, Range, PieceLeaves, Page.Straight, Page.LineOptions, Layout.Leaves, WordsOf,
         RenderedLen, Documents.DocumentAt, SameReading.SameStream, PrintMachine.Run;
    var toks := LexTokens(src);
    AllRendered(src, first, o);
    PrintedRoundTrip(src, first, |toks| - 2, o, d, po, brk);
    var r := PrintMachine.Run(po, brk, PrintMachine.Start(d));
    ItemsAlike(src, RenderedLen(toks), Lex(r.text).tokens);
    SameLengths(toks, Lex(r.text).tokens, RenderedLen(toks));
    SameReading.DocumentSame(toks, Lex(r.text).tokens, RenderedLen(toks), 0);
  }

  lemma SameLengths(a: seq<Token>, b: seq<Token>, n: nat)
    requires SameReading.SameStream(a, b, n)
    ensures n <= |a| && n <= |b|
  {
  }

  /** The same on one line, for a source without comments. */
  lemma OneLineKept(src: string)
    requires Lex(src).errs == [] && |Lex(src).tokens| > 1
    requires Emission.NoComments(Lex(src).tokens, 0, |Lex(src).tokens| - 1)
    ensures var toks := Lex(src).tokens;
            var text := Emission.LineText(Emitted(toks, 0, |toks| - 2, Emission.PLAIN));
            Lex(text).errs == [] && Documents.DocumentAt(Lex(text).tokens, 0) == Documents.DocumentAt(toks, 0)
  {
    hide LexFrom, Emitted, Emission.LineText, Documents.DocumentAt, SameReading.SameStream, IsComment, Emission.Written;
    var toks := LexTokens(src);
    var n := |toks| - 1;
    var text := Emission.LineText(Emitted(toks, 0, n - 1, Emission.PLAIN));
    Emission.EmittedRoundTrip(src, 0, n - 1);
    forall i | 0 <= i < n ensures ItemAt(toks, i) == Emission.Written(toks[i]) {
      assert RealAt(toks, i);
    }
    assert ItemsAt(toks, Range(0, n)) == Emission.WrittenWords(toks[0..n]);
    ItemsAlike(src, n, Lex(text).tokens);
    SameLengths(toks, Lex(text).tokens, n);
    SameReading.DocumentSame(toks, Lex(text).tokens, n, 0);
  }

  /** The document of emitTokens is such a document. */
  lemma EmittedDocument(src: string, start: nat, end: nat, o: Comments.Options)
    requires Lex(src).errs == [] && start <= end < |Lex(src).tokens| - 1 && RealAt(Lex(src).tokens, start) && Plain(o)
    ensures var ps := Emitted(Lex(src).tokens, start, end, o);
            Page.Straight(PiecesDoc(ps)) && Layout.Leaves(PiecesDoc(ps)) == PieceLeaves(ps)
  {
    hide LexFrom, Emitted, Sources, Apart, Clean, LineSafe, AllTrue, AllItems, PieceLeaves;
    var toks := LexTokens(src);
    Emission.OnlyEofLast(src);
    EmittedApart(toks, start, end, o);
    EmittedSources(toks, start, end, o);
    EmittedValid(src, Emitted(toks, start, end, o));
    PiecesDocIs(Emitted(toks, start, end, o));
  }
}
