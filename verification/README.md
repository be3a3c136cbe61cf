# Verified model of a Thrift formatter and language-server store

This project models the parts of the Thrift tool chain whose correctness is not visible from any one
function body, and proves what they are for:

- **the anchored diff** (`Tgs`, `Hunks`, `Alignment`, `Diff`): the longest chain of lines unique to both files, and a
  unified-diff text that, read back, is a patch in both directions and keeps every line of the chain;
- **the document printer** (`Doc`, `Arena`, `Breaks`, `PrintMachine`, `PrintText`, `Spacing`, `PrintWidth`,
  `FlatGroup`, `Page`, `Layout`, `Printer`): a work-list machine with look-ahead, break propagation and pending
  suffixes, and the page it prints, with the lines and the indentation where the document has them;
- **lexing and token rendering** (`Utf8`, `Lexing`, `NumberGrammar`, `Lexer`, `LexProps`, `LexRoundTrip`,
  `Spelling`, `WovenLexing`, `TypeText`, `Comments`, `Emission`, `PrintedEmission`, `CommentPlaces`,
  `CommentGaps`, `CommentLines`): a lossless lexer, and that what is rendered and printed lexes back to the same tokens and
  comments, each comment on the line it belongs to;
- **parsing** (`Ast`, `Grammar`, `Reading`, `LookAhead`, `Documents`, `ParserRules`, `Recovery`, `Parser`,
  `Mending`, `TypeGrammar`, `SameReading`, `FormattedDocument`): the grammar of Thrift documents, that one token of
  look-ahead decides it, the recursive-descent parser with its error recovery, and that rendering and
  printing a source keeps its document;
- **the view store** (`ViewStore`, `View`, `AffectedOrder`, `ViewRuns`, `CycleCheck`): the
  generation-guarded parse cache and the two-way include graph;
- **the workspace** (`WorkspaceModel`, `WorkspaceRuns`, `WorkspaceLoads`, `Workspace`): folders, asynchronous loads,
  reconciliation and routing;
- **edits and positions** (`Edits`, `BlockDiff`, `Mapper`).

`Wrappers` holds `Option`.

Where the program changes things step by step, the model is a class or a method with loops, proved equal
to a function on values; what the program promises is then proved about that function, over every input
or every run. Bytes are characters: a `string` here holds one byte per character.

## How to read it

A state machine appears twice: as functions on an immutable state (`PrintMachine.Step`,
`ViewRuns.Step`, `WorkspaceRuns.Step`), over which the theorems quantify, and as a class (`Printer`,
`Views.View`, `Workspaces.Workspace`) whose methods are proved to be those functions.

The parser has three layers. `Grammar.Body` is the grammar, one right-hand side for each production, and
`Grammar.Derived` says which trees it derives from a token stream. `Reading` reads a production looking
at the next token only, and `LookAhead` proves for every production that this loses no derivation. The
methods of `Parsing.Parser` are proved to return what is read (`Reading.NodeAt`, `Documents.TopAt`), or to
report an error where nothing is; their structural properties hold on the error paths too. Helper methods
named `Take…` append what they read to the parts of a node under construction.

What is read after an error is stated on token streams. `Recovery.SkipTo` and `Recovery.RecoverTo` say where
parsing goes on. In a list of fields, annotations or list items a *fence* is the next separator, or the
terminator, with no bracket opened before it; `Recovery.ComesTo` goes over well-formed entries and fences, and
every well-formed entry that it comes to is kept (`Recovery.Recovers`). At the top level `Parsing.Restart` says
where definitions start again, `Parsing.Mended` is the document with stray tokens left out, and
`Parsing.Reaches` also goes over structs with malformed fields. Three things are lost, and the contracts say so:
structured annotations of a definition right behind stray tokens are skipped with them
(`Mending.StrayTokens`), an enum drops all its values behind one that does not start with a name
(`Recovery.DropsRest`), and after an enum, struct or service that is given up nothing else is read.

Seven promises of the code or its comments do not hold as written; each is stated exactly instead:

- *A group kept flat fits the print width* (doc/print.go:465-587): the look-ahead counts lines that follow
  one another once, while the printer writes each. `FlatGroup.KeptExactlyWithoutDoubledLines` shows that
  the promise holds for a group at every print width if and only if it has no such lines, and
  `FlatGroup.DoubledLines` is the counterexample. For whole prints, `PrintWidth.PrintedGroupFits` proves
  the promise for documents in which no text can follow two spaces (`Spacing.WellSpaced`, a fold over the
  document), and `PrintWidth.PrintedGroupNearlyFits` bounds the excess for the others.
- *Break propagation breaks exactly the groups that hold a break* (doc/print.go:617-646): a group reached
  again is pushed and never popped, so a later break breaks it for no reason. `Breaks.ExactAround` shows
  that a document propagates exactly in every surrounding if and only if it reaches no group twice;
  `Breaks.RevisitedGroup` is a failing document.
- *Skipped fixes come in argument order* (sema/edit.go:13-14): fixes that overlap themselves are listed
  first. `Edits.SkippedOrder` says for which fixes the comment is right, and `Edits.SkippedOutOfOrder` is
  a call for which it is not.
- *CycleCheck reports the include edges on a cycle* (analyzers/cycle_detect.go:25-49): it reports those
  whose cycle avoids the edges that evictions have taken from cached files. `CycleCheck.Analyze` proves
  this in terms of the store before the call; `CycleCheck.EvictionHidesCycle` is a call that misses an edge.
- *A double constant at the start is matched* (syntax/lexer.go:600-602): where the longest one is followed
  by a dot or an "e" that leads to no fraction or exponent, nothing is matched. `NumberGrammar.DoubleExactly`
  says exactly when; `NumberGrammar.DanglingExponent` is an input.
- *Edges equal the cached parse's includes* (store/view.go:326-356): `Evict` drops edges of files that stay
  cached. `ViewRuns.CachedIsCurrent` proves equality up to the files evicted since the parse, and
  `ViewRuns.EvictDropsEdges` shows that they do differ.
- *The dependents of an update are sorted by URI* (store/view.go:415-417): they come in one sorted block for
  each changed file. `AffectedOrder.SortedExactly` says that the whole list is sorted if and only if what an
  earlier file adds is always below what a later one adds, so always after the change of one file;
  `AffectedOrder.UnsortedDependents` is a call after which it is not.

## Model

| member | source | states |
|---|---|---|
| Tgs.Tgs | formatter/diff.go:198-280 | between the sentinels (0,0) and (len x, len y) lies a chain of pairs, strictly increasing on both sides, each matching a line that is unique in x and in y, and no longer such chain exists |
| Tgs.CountLines | formatter/diff.go:199-214 | the tally of a line is minus its occurrences in x, up to two, minus four times those in y |
| Tgs.TallyMeaning | formatter/diff.go:199-216 | a tally of -5 means exactly: once in x and once in y |
| Tgs.SameSize | formatter/diff.go:218-236 | the two index lists enumerate the same unique lines, so they have one length |
| Tgs.SearchFirst | formatter/diff.go:252-254 | the first tail not below v, by binary search |
| Tgs.Patience | formatter/diff.go:242-257 | L[i] is one more than the best rank among smaller predecessors, and T holds the least end of each rank |
| Tgs.EqualRankDecreases | formatter/diff.go:269-275 | elements of equal rank decrease, which is why the walk that never updates lastj is right |
| Tgs.ChainRank | formatter/diff.go:238-257 | along any chain the ranks grow |
| Tgs.NoLongerChain | formatter/diff.go:238-264 | no anchor chain is longer than the top rank |
| Tgs.BackWalk | formatter/diff.go:259-279 | walking back over descending ranks gives an anchor chain with one element of each rank |
| Diff.ReversedFits | formatter/diff.go:46-172 | hunks that fit x and y in order, reversed, fit y and x |
| Diff.PatchFrom | formatter/diff.go:46-172 | ordered hunks whose headers match their bodies patch x into y from any hunk on |
| Diff.StretchNotCrossed | formatter/diff.go:72-92 | a stretch of common lines is crossed by no later match, so testing x alone suffices |
| Diff.Changes | formatter/diff.go:94-104 | between two stretches of common lines there are changes to write |
| Diff.SkippedIsHeld | formatter/diff.go:74-79 | a match that the loop skips lies on the last stretch of common lines |
| Diff.NextStretch | formatter/diff.go:80-104 | the stretch around the next match goes on from those before it, with changes between that could not have been kept |
| Alignment.PathKeepsAnchors | formatter/diff.go:62-92 | stretches around all matches of a longest chain keep each of its lines as a line of the script |
| Alignment.ScriptTight | formatter/diff.go:81-104 | between stretches of common lines, no line of the changes could have been kept with the one at their start or at their end |
| Alignment.AnchoredIs | formatter/diff.go:46-172 | an anchored script has both files as its sides, keeps every anchor and has only such changes |
| Diff.Emit | formatter/diff.go:122-153 | an emitted hunk has the header positions and counts of its body and lies after the last one |
| Diff.OpenChunk | formatter/diff.go:160-168 | the next chunk opens with the last context lines |
| Diff.DiffLines | formatter/diff.go:46-172 | the hunks written up to the end are ordered, disjoint, in bounds and account for all of both files, the output is their text, and with the lines around them they keep stretches of common lines around a longest chain of anchors |
| Diff.LinesRoundTrip | formatter/diff.go:177-188 | the lines of a text, put together, are the text |
| Diff.WrittenIsPatch | formatter/diff.go:46-172 | what has been written to the end patches x into y and, reversed, y into x |
| Diff.WrittenIsPrintable | formatter/diff.go:122-153 | the hunks of texts cut into lines can be printed and read back |
| Hunks.HunksRead | formatter/diff.go:122-153 | reading the printed hunks gives the hunks back: their headers, and each line with its sign |
| Diff.Diff | formatter/diff.go:46-172 | None exactly for equal texts; else a header with both names and hunks whose text, read back, turns the old lines into the new ones and, reversed, the new into the old. The hunks and the lines around them keep every line of a longest chain of lines unique to both files; in every block of changes the deletions come first, the first lines of both sides differ, and the last ones too; a hunk has three lines of context, fewer only at the ends of the files, and fewer than six in a row between changes |
| Breaks.PropagateExact | doc/print.go:617-646 | where no group is reached twice, a group comes out broken exactly when it was broken or holds a BreakParent or a broken group at any depth, in any branch; other marks stay |
| Breaks.PropagateMarks | doc/print.go:617-646 | propagation adds exactly the groups with a break inside |
| Breaks.PropagateTwice | doc/print.go:617-646 | a second pass changes nothing |
| Breaks.Settled | doc/print.go:617-646 | groups found broken add no further breaks |
| Breaks.StackRestoredExactly | doc/print.go:617-686 | the group stack after a document is what it was before if and only if the document reaches no group twice |
| Breaks.BrokenAroundExactly | doc/print.go:617-686 | a group around a group around the document and a break is broken if and only if the document reaches no group twice |
| Breaks.ExactAround | doc/print.go:617-686 | with such surroundings the marks are exactly those of the groups holding breaks if and only if the document reaches no group twice |
| Breaks.RevisitedGroup | doc/print.go:627-655 | a group reached again is pushed and never popped, and a later BreakParent breaks it |
| Breaks.PropagateBreaks | doc/print.go:617-686 | the traversal with its group stack computes Propagate, with the meaning above |
| Breaks.BreakPass.Visit | doc/print.go:654-686 | the recursive traversal leaves the stack and the marks that the specification says |
| Breaks.BreakPass.BreakParentGroup | doc/print.go:648-652 | the innermost group is marked |
| PrintMachine.StepShrinks | doc/print.go:236-403 | every step lightens the work list and pending suffixes together, or moves the suffixes to an empty pending list |
| PrintMachine.LookShrinks | doc/print.go:465-587 | every step of the look-ahead lightens its stack |
| PrintMachine.BoundaryWeight | doc/print.go:307-311 | a suffix boundary outweighs the hard line that replaces it |
| PrintText.OutputShowsDocument | doc/print.go:236-403 | for suffix-free documents whose alternatives agree, the output without blanks is the concatenation of the texts in order |
| PrintText.SameTextAtAnyWidth | doc/print.go:236-403 | that text is the same for every width, indentation and tab width |
| PrintText.RunShows | doc/print.go:236-403 | from any state of the machine the rest of the run writes exactly the pending text |
| PrintText.StepShows | doc/print.go:236-403 | one step moves text from the work list to the output, in order |
| PrintText.GroupAlternative | doc/print.go:426-459 | whatever printGroup chooses is one of the agreeing alternatives |
| PrintWidth.PrintedGroupFits | doc/print.go:236-587 | in a whole print after propagation of a document in which no text can follow two spaces, from a group kept flat to the next line break every text ends within the print width |
| PrintWidth.FlatGroupFits | doc/print.go:236-587 | the same from any state of the machine in which no text on the work list can follow two spaces |
| PrintWidth.SpacedStep | doc/print.go:236-403 | a step keeps that no text can follow two spaces, and a text it prints follows at most one |
| PrintWidth.PrintedGroupNearlyFits | doc/print.go:236-587 | in any whole print after propagation the same up to the spaces the look-ahead does not count |
| PrintWidth.FlatGroupNearlyFits | doc/print.go:236-587 | that from any reachable state |
| PrintWidth.AfterPropagation | doc/print.go:617-646 | after propagation no unbroken group holds a break |
| PrintWidth.LookInStep | doc/print.go:465-587 | the look-ahead unfolds commands as the printer will |
| PrintWidth.FlatIsCovered | doc/print.go:426-459 | a group kept flat was measured from the column where it starts |
| PrintWidth.ExecuteColumn | doc/print.go:236-403 | the position is the column of the output |
| PrintWidth.LineStaysOpen | doc/print.go:177-190 | a line that holds more than blanks does so until a line break |
| PrintWidth.OpenLineBreaks | doc/print.go:312-383 | a line break on such a line prints a newline |
| FlatGroup.FitsExactly | doc/print.go:465-587 | a group alone is kept flat exactly when the width the look-ahead counts is there, and then its one line is printed |
| FlatGroup.KeptExactlyWithoutDoubledLines | doc/print.go:465-587 | every print width is respected by a group kept flat if and only if no lines of it follow one another |
| FlatGroup.WellSpacedGroup | doc/print.go:465-587 | for a group on one line the condition on documents is that no lines of it follow one another |
| FlatGroup.DoubledLines | doc/print.go:465-587 | two lines in a row are counted as one space and printed as two |
| Page.PrintedIs | doc/print.go:49-54 | a straight document is printed to the texts it holds, each gap between them the line breaks of its lines and then the indentation of the last of them: once the indent string for each Indent around that line, and once for each Align with tabs or its columns without; the lines of a marked group break, those in a flat group do not, but for hard ones, and a group that is measured has one mode throughout |
| Page.StepWrites | doc/print.go:236-403 | one step writes on the page what its command prints: a text, blanks, or a line with the indentation of the command |
| Page.CommandPlaces | doc/print.go:247-400 | what a command places on the page, by recursion on its document, is what it prints itself and what the commands that replace it place |
| Page.RunPlaces | doc/print.go:236-403 | the rest of a run writes what is left on the work list, place by place |
| Page.PageTrimmed | doc/print.go:194-208 | trimming takes off exactly the blanks after the last text or line break, and shows which of them it was |
| Layout.PrintLays | doc/print.go:236-403 | the output of a straight document shows its texts in order, with whitespace between them: some where there is a blank or a hard line, and a line break first where a hard line comes first. Where every group with lines is broken, as many lines end between two texts as there are hard lines there, and one more where a soft line comes first |
| Printer.Printer.Write | doc/print.go:171-173 | the output grows by the text |
| Printer.Printer.OutEnded | doc/print.go:177-190 | whether the output holds nothing but blanks since its last newline |
| Printer.Printer.Trim | doc/print.go:194-208 | the trailing blanks go, and their width is returned |
| Printer.Printer.WriteIndent | doc/print.go:226-234 | the indentation is written |
| Printer.Printer.FitsIn | doc/print.go:465-587 | the look-ahead loop is the look-ahead function |
| Printer.Printer.GroupCommand | doc/print.go:426-459 | printGroup chooses the command the specification says, trying the states of a conditional group in order |
| Printer.Printer.ExecuteTop | doc/print.go:247-400 | the switch of run is one step of the machine |
| Printer.Printer.Print | doc/print.go:236-403 | the loop of run is the whole run of the machine, or an error at a nil document |
| Printer.Print | doc/print.go:82-153 | bad options are errors; else the options left empty are filled in, breaks are propagated and the document is printed: its visible text comes out whole and in order, and a straight document to its page, with its lines and their indentation |
| Arenas.Arena.Parts | doc/doc.go:123-139 | a slice of the given capacity that shares room with no slice handed out since the last reset |
| Arenas.Arena.Reset | doc/doc.go:75-84 | the region is free again |
| Arenas.Arena.Join | doc/doc.go:103-118 | the parts with the separator between each two, in a slice filled exactly, and no element of another slice changes |
| Arenas.Fill | doc/doc.go:108-117 | only the slice's own room is written |
| Arenas.Append | doc/doc.go:108-117 | an append within the capacity writes one element in place |
| Arenas.JoinedAt | doc/doc.go:103-118 | the parts are at the even places and the separator between them |
| Lexer.Lexer.Run | syntax/lexer.go:270-290 | the scanning loops produce the tokens and errors that the specification of the language gives for the source |
| Lexer.Lexer.ScanGap | syntax/lexer.go:296-319 | trivia: the comments with the blank lines before each, and the blank lines left over |
| Lexer.Lexer.ScanWhitespace | syntax/lexer.go:323-359 | the empty lines of a whitespace run, with "\r\n" one terminator |
| Lexer.Lexer.ScanBlockComment | syntax/lexer.go:373-406 | a block comment's end, its doc kind and whether it is terminated |
| Lexer.Lexer.ScanLineComment | syntax/lexer.go:361-368 | a line comment ends before the terminator |
| Lexer.Lexer.ScanNext | syntax/lexer.go:418-459 | the next token, past what no token starts with |
| Lexer.Lexer.ScanIdentifier | syntax/lexer.go:481-517 | the longest dotted identifier, a keyword only without dots |
| Lexer.Lexer.ScanNumber | syntax/lexer.go:523-551 | the longest of hex, int and double, an int on ties |
| Lexer.MatchHex | syntax/lexer.go:555-578 | the loop finds the length that `NumberGrammar.HexLongest` characterises |
| Lexer.MatchInt | syntax/lexer.go:582-598 | the loop finds the length that `NumberGrammar.IntLongest` characterises |
| Lexer.MatchDouble | syntax/lexer.go:603-655 | the loop finds the length that `NumberGrammar.DoubleExactly` characterises |
| NumberGrammar.HexLongest | syntax/lexer.go:553-578 | the length of the longest hex constant that the source starts with, or 0 where it starts with none |
| NumberGrammar.IntLongest | syntax/lexer.go:580-598 | the length of the longest int constant that the source starts with, or 0 where it starts with none |
| NumberGrammar.DoubleExactly | syntax/lexer.go:600-655 | the length of the longest double constant that the source starts with, unless a dot follows it and it is an int, or an "e" follows it and it has no exponent: then 0 |
| NumberGrammar.NoDouble | syntax/lexer.go:600-655 | 0 where the source starts with no double constant |
| NumberGrammar.DanglingExponent | syntax/lexer.go:600-655 | "1e" starts with a double constant, and none is matched |
| Lexer.Lexer.ScanString | syntax/lexer.go:662-708 | the literal's extent and its errors |
| Lexer.Lexer.AdvanceByte | syntax/lexer.go:720-736 | line and column stay those of the offset |
| Lexer.Lexer.AdvanceRune | syntax/lexer.go:740-757 | line and column stay those of the offset, one column for each rune |
| LexProps.StreamIsFaithful | syntax/lexer.go:270-347 | tokens are in order, do not overlap, and end with the only EOF; each is the source slice at its offset, with the line and column counted from the terminators and runes before it |
| LexProps.LexInOrder | syntax/lexer.go:270-290 | the same from any offset |
| LexProps.NoOverlap | syntax/lexer.go:270-290 | a token ends before a later one starts |
| LexProps.WithoutErrorsSpaced | syntax/lexer.go:418-459 | without errors only whitespace lies between tokens, and the blank lines in it are counted |
| LexProps.LexLossless | syntax/lexer.go:252-290 | without errors the tokens and that whitespace are the source |
| LexProps.SkipsOnlyErrors | syntax/lexer.go:418-459 | scanToken skips nothing silently |
| LexRoundTrip.JoinedRoundTrip | formatter/format.go:382-404 | joining the real tokens of any error-free source with the canonical gaps and lexing again gives the same kinds and texts, without errors |
| LexRoundTrip.JoinedLexes | formatter/format.go:382-404 | the same for any list of words |
| LexRoundTrip.GapStops | formatter/format.go:382-404 | a token that could go on is followed by a gap or a symbol that stops it |
| LexRoundTrip.LexemeKeeps | syntax/lexer.go:418-551 | a lexeme stays one in front of anything that cannot lengthen it |
| LexRoundTrip.NumberIn | syntax/lexer.go:523-655 | a number is taken the same in front of anything that stops it |
| LexRoundTrip.StringIn | syntax/lexer.go:662-708 | a literal is taken the same whatever follows |
| LexRoundTrip.IdentStops | syntax/lexer.go:481-517 | an identifier is taken the same in front of anything that stops it |
| LexRoundTrip.RealAreWords | syntax/lexer.go:270-290 | every real token of an error-free source is a lexeme |
| Spelling.FixedText | syntax/lexer.go:481-517 | the lexer takes a keyword or a symbol exactly for its text |
| Spelling.FieldSpaced | formatter/format.go:382-404 | a field in canonical spacing: colons, commas and closing brackets attach to what is before them, opening ones to what is behind |
| WovenLexing.ArrangedLexes | syntax/lexer.go:270-319 | tokens and comments with any whitespace between them, a line break after line comments and canonical gaps where there is none, lex to exactly themselves, each at its own offset and with the blank lines in front of it |
| WovenLexing.CommentsAreTexts | syntax/lexer.go:361-406 | every comment of an error-free source is a comment wherever its text is written |
| WovenLexing.BlockIn | syntax/lexer.go:373-406 | a block comment is taken the same whatever follows |
| WovenLexing.WordEndsVisibly | syntax/lexer.go:418-551 | a token ends in no whitespace |
| TypeText.TextIsJoined | formatter/type.go:13-42 | the text of a type is its tokens with the canonical gaps |
| TypeText.TextLexes | formatter/type.go:13-42 | the text of a type lexes, without errors, to its tokens |
| TypeText.TypeWords | formatter/type.go:13-42 | every token of a type is a lexeme |
| TypeGrammar.TypeSpelled | syntax/parser.go:662-750 | the tokens of a type, nested to any depth and with optional cpp_type, followed by any token but "(", parse to the type and are consumed exactly |
| TypeGrammar.TextParses | syntax/parser.go:662-750 | lexing and parsing the text of a type gives the type back |
| TypeGrammar.ElementSpelled | syntax/parser.go:670-716 | a list or a set is read around its element, with its cpp_type |
| TypeGrammar.PairSpelled | syntax/parser.go:670-716 | a map is read around its key and value, with its cpp_type |
| Reading.ReadDerives | syntax/parser.go:136-956 | what is read by a rule is derived from it, to any depth |
| Reading.NodeDerives | syntax/parser.go:136-956 | a node that is read is a node of its category and a derivation tree of its production |
| LookAhead.ProductionDecided | syntax/parser.go:136-956 | in every production each choice and repetition is decided by the next token, given what may follow the node |
| Documents.DerivedIsRead | syntax/parser.go:136-956 | what a decided rule derives, with something after it that may follow, is what is read |
| Documents.NodeIsRead | syntax/parser.go:136-956 | a derivation tree in such a place is the node that is read |
| Documents.TopDerives | syntax/parser.go:136-189 | a top-level node that is read is a definition or a header, derived from its production |
| Documents.TopIsRead | syntax/parser.go:136-189 | a top-level derivation tree is the node that is read |
| Documents.DocumentExactly | syntax/parser.go:136-189 | reading a document finds its derivation exactly when the grammar has one, and there is at most one |
| TypeGrammar.TypedefSpelled | syntax/parser.go:342-366 | "typedef", the tokens of a type and a name are a document with exactly one derivation: the typedef of that type with that name |
| SameReading.ReadSame | syntax/parser.go:136-956 | what is read depends on the kinds of the tokens only, and not on which word for oneway is used |
| SameReading.DocumentSame | syntax/parser.go:136-189 | streams that differ so have the same document, or neither has one |
| FormattedDocument.AllRendered | formatter/format.go:271-349 | rendering from the first token to the last, with the comments before and after, renders every token and comment of the source once, in order, but for those on lines of their own at the end |
| FormattedDocument.DocumentKept | formatter/format.go:271-404 | that rendering, under any groups and indentation and printed at any width, has the same tokens and comments when lexed again, and reads as the same document |
| FormattedDocument.OneLineKept | formatter/format.go:271-404 | a source without comments, rendered on one line, reads as the same document |
| FormattedDocument.EmittedDocument | formatter/format.go:271-349 | the document of emitTokens is one of those the round trip is about |
| Ast.RowAdd | syntax/ast.go:14-35 | a sound node after a row of sound siblings extends the row |
| Ast.NodeOver | syntax/ast.go:14-35 | a node from a real token to a real token over a row of parts is sound |
| Parsing.Parser.Advance | syntax/parser.go:44-50 | the next real token is consumed, and never EOF |
| Parsing.Parser.SynchronizeTo | syntax/parser.go:81-89 | the parser stops at the first token of the kinds, or at EOF |
| Parsing.Parser.RecoverEntry | syntax/parser.go:94-100 | the parser goes on behind the next separator, or at the terminator, whichever comes first |
| Parsing.Parser.ParseDocument | syntax/parser.go:136-189 | there are no errors exactly when the grammar derives the tokens, and then the nodes are the one derivation; where all errors are tokens that no definition starts with, the nodes are exactly the definitions around them; every well-formed definition that the top level comes to, also over structs with malformed fields, is kept, and of such a struct every well-formed field; always, parsing ends at EOF with top-level nodes that are disjoint, ascending and sound: every node and part starts and ends on a real token, inside its parent, siblings one after another, on every recovery path too; without errors every real token lies in a top-level node |
| Parsing.Parser.ParseTopLevel | syntax/parser.go:136-189 | exactly the header or definition, with its structured annotations, that is read at the token, or an error where none is; where no definition starts, parsing goes on at the next keyword of one, or behind what stands for the path of an include; a struct with malformed fields keeps the others; always progress |
| Parsing.Parser.ParseDefinition | syntax/parser.go:141-178 | by the next token, exactly what the production of the definition reads on from its structured annotations, or an error; given up only at EOF, and a struct with a name and a brace is not given up |
| Parsing.Parser.ParseInclude | syntax/parser.go:236-254 | exactly the include that is read: its path, or an error |
| Parsing.Parser.ParseCPPInclude | syntax/parser.go:256-274 | exactly the cpp_include that is read: its path, or an error |
| Parsing.Parser.ParseNamespace | syntax/parser.go:276-300 | exactly the namespace that is read: scope, name and annotations in their roles, or an error |
| Parsing.Parser.ParseConst | syntax/parser.go:304-340 | exactly the const that is read: type, name, value and separator in their roles, or an error |
| Parsing.Parser.ParseTypedef | syntax/parser.go:342-366 | exactly the typedef that is read: type, name, annotations and separator in their roles, or an error |
| Parsing.Parser.ParseEnum | syntax/parser.go:368-400 | exactly the enum that is read, with all of its values in order, or an error; with a name and a brace it is not given up, and its values up to the first malformed one are kept |
| Parsing.Parser.ParseEnumValue | syntax/parser.go:402-428 | exactly the enum value that is read, or an error |
| Parsing.Parser.ParseStruct | syntax/parser.go:430-452 | exactly the struct, union or exception that is read, with all of its fields in order, or an error; with a name and a brace it is not given up, every well-formed field that its list comes to is kept, and it ends behind its closing brace |
| Parsing.Parser.ParseService | syntax/parser.go:454-506 | exactly the service that is read: name, base service and all of its functions in order, or an error; with a name and a brace it is not given up, and the functions it comes to behind malformed ones are kept |
| Parsing.Parser.ParseFunction | syntax/parser.go:508-573 | exactly the function that is read: oneway, return type, name, arguments, throws and annotations in their roles, or an error |
| Parsing.Parser.TakeFields | syntax/parser.go:579-594 | all of the fields up to the terminator in order, or an error; behind a malformed field those from the next separator on are kept; the loop ends at the terminator or EOF |
| Parsing.Parser.TakeEnumValues | syntax/parser.go:376-390 | the values up to the first malformed one are kept; if that one does not start with a name, no more are taken and the parser stops at the closing brace |
| Parsing.Parser.TakeFunctions | syntax/parser.go:474-495 | behind tokens that start no function, those from the next one that could on are kept |
| Parsing.Parser.TakeParameters | syntax/parser.go:540-565 | behind a malformed parameter those from the next separator on are kept, and the closing parenthesis that the list comes to ends it |
| Parsing.Parser.ParseThrows | syntax/parser.go:540-565 | exactly the throws clause that is read, or an error; behind a malformed field those from the next separator on are kept |
| Parsing.Parser.ParseField | syntax/parser.go:596-658 | exactly the field that is read: id, requiredness, type, reference, name and default in their roles, or an error |
| Parsing.Parser.ParseFieldType | syntax/parser.go:662-750 | exactly the type that is read, to any depth, or an error |
| Parsing.Parser.ParseConstValue | syntax/parser.go:773-855 | exactly the scalar, list or map that is read, to any depth; or an error |
| Parsing.Parser.TakeListItems | syntax/parser.go:793-811 | behind a malformed item those from the next separator on are kept |
| Parsing.Parser.ParseStructuredAnnotations | syntax/parser.go:868-905 | exactly the structured annotations in front of a definition, which starts with the first of them, or an error |
| Parsing.Parser.ParseAnnotations | syntax/parser.go:919-956 | exactly the annotations in parentheses that are read, in order, or an error; behind a malformed annotation those from the next separator on are kept |
| Parsing.Parser.TakeAnnotationItems | syntax/parser.go:919-950 | behind a malformed annotation those from the next separator on are kept |
| Recovery.TurnInside | syntax/parser.go:94-100 | what one malformed entry consumes does not go beyond the next separator or terminator that no bracket precedes, but for the separator itself |
| Recovery.PendingTurn | syntax/parser.go:579-594 | one turn of a list adds the entry that is well-formed, and otherwise comes to all that it came to before |
| Recovery.EndsHere | syntax/parser.go:579-594 | a list at its terminator, or at EOF, comes to nothing else |
| Recovery.MalformedEntry | syntax/parser.go:94-100 | in a list with a malformed entry that opens no bracket, the entries before it and those behind the next separator are kept, and the list ends where these end |
| Parsing.ComingStep | syntax/parser.go:136-189 | one turn of the top level keeps every definition it came to, or still comes to it |
| Mending.StrayTokens | syntax/parser.go:136-189 | between two rows of definitions there are tokens that start none: both rows are found exactly when the second does not start with an annotation, and otherwise the definitions from the next keyword on; the grammar derives no such document |
| Mending.AnnotationsLost | syntax/parser.go:136-189 | structured annotations right behind such tokens are skipped with them, so what is found behind is not what the grammar derives there |
| Parsing.NextCovers | syntax/parser.go:136-189 | a node that starts at the next real token leaves no gap |
| Parsing.LexedHasEof | syntax/parser.go:12-27 | a lexed source ends in its only EOF, so the parser takes it whole |
| Comments.CommentsSplit | formatter/comments.go:75-113 | the comments between two adjacent real tokens are the first one's same-line comments followed by the second one's own-line comments |
| Comments.CommentsFirst | formatter/comments.go:92-113 | the comments before the first real token are all its own-line comments |
| Comments.LexedLinesAscend | syntax/lexer.go:270-290 | the lines of a lexed source never decrease |
| Comments.EmittedSources | formatter/format.go:271-349 | every real token not suppressed and every comment between them is rendered once, in source order, with the own-line comments before and the same-line comments after as asked for; texts are the stream's, "async" becoming "oneway", and a line comment always ends its line |
| Comments.BodySources | formatter/format.go:271-327 | the same for the loop |
| Comments.RunSources | formatter/comments.go:134-155 | the comments between two tokens are rendered once, in order |
| Comments.SameLineSources | formatter/comments.go:62-126 | the same-line comments are rendered once, in order, inline or on lines of their own |
| Comments.OwnLineSources | formatter/comments.go:44-113 | the own-line comments are rendered once, in order |
| Comments.SameLineComments | formatter/comments.go:117-126 | the loop renders exactly the run on the token's line |
| Comments.OwnLineComments | formatter/comments.go:92-113 | the loop renders exactly the own-line comments and the blank lines after them |
| Comments.CommentsBetween | formatter/comments.go:134-155 | the loop renders the run and tells whether it ended the line |
| Comments.SuppressedSepComments | formatter/comments.go:160-168 | the loop renders the run on lines of its own |
| Comments.EmitTokens | formatter/format.go:271-349 | the loops render what the specification says, each comment where its line puts it (`CommentPlaces.EmittedPlaced`) |
| Emission.EmittedIsJoined | formatter/format.go:271-404 | for a range without comments and with no option set, what the emitter renders is the words of its tokens joined with the canonical gaps |
| Emission.EmittedRoundTrip | formatter/format.go:271-404 | such a range of an error-free source, rendered and lexed again, gives the same kinds and texts without errors, "async" becoming "oneway" |
| PrintedEmission.EmittedApart | formatter/format.go:271-349 | two tokens written without a comment between them are parted by the gap they need, and all else that is written is blank, a line or a comment |
| PrintedEmission.WeaveArranged | formatter/format.go:271-349 | what is laid out for the pieces is an arrangement of their tokens and comments |
| PrintedEmission.PrintedRoundTrip | formatter/format.go:271-404 | any range of an error-free source, rendered with its comments, put under any groups and indentation, printed at any width and lexed again, gives exactly the tokens and comments rendered, in order, without errors; "async" becomes "oneway" and comments lose the blanks at their end |
| PrintedEmission.PiecesDocIs | formatter/format.go:271-349 | the document of emitTokens holds its pieces in order |
| CommentPlaces.EmittedPlaced | formatter/format.go:271-349 | what emitTokens renders puts a comment that shares the line of the token before it behind blanks only, every other comment at the start of a line behind as many blank lines as it had, and a token on the same line unless a comment ended it |
| CommentGaps.EmittedSpaced | formatter/format.go:271-349 | in front of a comment on the line of a token there is one space, behind the pad of that token; in front of a token the pad and the canonical gap of the two tokens; at the start of a line nothing; and in front of all the prefix |
| CommentLines.LexedLinesEnd | syntax/lexer.go:361-368 | in an error-free source a comment behind a line comment is on a later line |
| CommentLines.CommentsStay | formatter/format.go:271-404 | a range of an error-free source, rendered, put under any indentation and any groups whose lines break, printed at any width and lexed again: a comment is on the line of the token before it if and only if it was in the source; otherwise it starts its line and has the blank lines it had; a token starts a line only behind a comment that ends one |
| CommentLines.InLineStays | formatter/comments.go:62-126 | the first half: a comment on the line of the token before it is found on the line of that token |
| CommentLines.OwnLineStays | formatter/comments.go:44-113 | the second half: any other comment is found at the start of a line, with its blank lines |
| CommentLines.TokenGoesOn | formatter/format.go:271-349 | a token is found on the line of what is before it, unless a comment ended that line; the first token keeps the blank lines behind its own comments |
| CommentLines.PropagatedLinesBreak | doc/print.go:617-646 | after break propagation the lines of every group that holds a BreakParent break, as the printed comments need |
| CommentLines.PiecesBreak | formatter/format.go:271-349 | the document of emitTokens itself holds no group with lines |
| ViewStore.EdgesRemoved | store/view.go:188-207 | removing a file's edges keeps the two maps duplicate-free inverses and changes no other file's includes |
| ViewStore.Committed | store/view.go:138-145 | a commit sets one entry and its edges and keeps the maps inverse |
| ViewStore.UpdateKeeps | store/view.go:391-401 | an update forgets exactly the parses and edges of its files |
| ViewStore.EvictKeeps | store/view.go:333-355 | an eviction forgets its files, their edges and the edges to them, and nothing else |
| ViewStore.SameAscending | store/view.go:442-465 | a strictly ascending list is determined by its elements |
| ViewStore.SwapRemoved | store/view.go:192-198 | overwriting with the last element removes exactly one |
| ViewStore.PathHasNoQuotes | store/view.go:451-451 | the path of an include is its literal without the quotes at both ends |
| ViewRuns.CachedIsCurrent | store/view.go:111-149 | in every interleaving of writes, updates, evictions and concurrent parses: the maps are duplicate-free inverses with sorted includes, a cached parse is that of the current content unless an update of the file is pending, and its edges are its includes but for files evicted since |
| ViewRuns.CommitKept | store/view.go:138-147 | a commit of work that is still current keeps this |
| ViewRuns.UpdateKept | store/view.go:381-401 | an update keeps this |
| ViewRuns.EvictKept | store/view.go:326-356 | an eviction keeps this |
| ViewRuns.StaleWorkIsDropped | store/view.go:50-60 | work for a generation the view has left, or begun before the last change, changes nothing |
| ViewRuns.EvictDropsEdges | store/view.go:326-356 | after evicting an include, the includer stays cached without the edge |
| Views.View.RemoveEdgesLocked | store/view.go:188-207 | the loops remove the edges as the specification says |
| Views.View.Parse | store/view.go:111-149 | the cached parse, or a new one committed if still current, or nothing for an unreadable file |
| Views.View.Evict | store/view.go:326-356 | the loops evict as the specification says |
| Views.View.Update | store/view.go:381-413 | invalidation, then parsing each file; the generation and the affected files are returned |
| Views.UpdateRefreshes | store/view.go:381-413 | without interference the named files end with the parses and edges of their contents, or with neither, and others are as before |
| Views.View.Dependents | store/view.go:233-258 | exactly the files that reach the file over one or more include edges, ascending |
| Views.View.Affected | store/view.go:418-437 | the changed files first, then for each of them in order, ascending, exactly the files outside the changed ones that reach it and none of those before it |
| AffectedOrder.AffectedExactly | store/view.go:418-437 | that is the changed files first, and then exactly the other files that reach one of them, each once |
| AffectedOrder.AffectedOnce | store/view.go:418-437 | the include graph and the changed files determine the list, its order too |
| AffectedOrder.SortedExactly | store/view.go:415-437 | the dependents are ascending if and only if what an earlier changed file adds is always below what a later one adds |
| AffectedOrder.OneFileSorts | store/view.go:415-437 | after the change of one file they are ascending |
| AffectedOrder.UnsortedDependents | store/view.go:381-437 | 9 includes 1 and 5 includes 2; an update of 1 and 2 lists 1, 2, 9, 5 |
| Views.View.Includes | store/view.go:211-216 | exactly the direct includes, ascending |
| Views.View.Includers | store/view.go:220-228 | exactly the direct includers, ascending |
| Views.View.ResolveIncludes | store/view.go:442-465 | each target of an include statement once, ascending |
| Views.ClosedHoldsReaching | store/view.go:233-258 | a set closed under includers holds every file that reaches the start |
| CycleCheck.Closure.Collect | analyzers/cycle_detect.go:72-109 | everything reachable from the file is collected, with all its includes, and parsed |
| CycleCheck.Analyze | analyzers/cycle_detect.go:25-49 | an edge is reported exactly when a root leads to it and its target reaches back over the include edges that remain: all but those a cached file of the store before the call has lost to evictions; every report is on a cycle, and if no edge was lost the reports are exactly the edges on cycles |
| CycleCheck.CyclesSeen | analyzers/cycle_detect.go:25-49 | once everything reachable is parsed, the target reaches back in the view exactly when it does over the remaining edges |
| CycleCheck.SettledRemains | analyzers/cycle_detect.go:25-49 | where no cached file has lost an edge the remaining edges reach what all edges reach |
| CycleCheck.EvictionHidesCycle | analyzers/cycle_detect.go:25-49 | two files include each other; when one is evicted and then checked, its edge is on a cycle and not reported |
| CycleCheck.RunTracks | analyzers/cycle_detect.go:25-49 | in every run of a view, whenever no update is pending, the store is one the check is about, and it has lost no edge if and only if no include of a cached file was evicted since it was parsed |
| WorkspaceModel.ModelIs | lsp/workspace.go:209-257 | the roots are those of accepted projects, and every target is routed to a root, the longest that contains it if any does |
| WorkspaceModel.BuildIs | lsp/workspace.go:209-240 | the first project of a root gives it its include paths, and of the others exactly those with the same paths are accepted |
| WorkspaceModel.BestIs | lsp/workspace.go:259-272 | the chosen root contains the file and none that does has a longer path |
| WorkspaceModel.SameLengthSamePath | lsp/workspace.go:259-272 | roots that tie have one path |
| WorkspaceModel.OwnerIsRoot | lsp/workspace.go:280-290 | an owned file is owned by a root |
| WorkspaceModel.EmptyFolder | lsp/workspace.go:209-257 | a folder without projects adds nothing |
| WorkspaceRuns.RunIsGood | lsp/workspace.go:317-634 | in every run, after every step: the model is that of the registered folders' snapshots, each loaded for the registration that holds it; the views are those of the model's roots, built for their include paths; every owned file is tracked by its root's view |
| WorkspaceRuns.RoutesToItsView | lsp/workspace.go:636-646 | every owned file, and no other, is routed to a view, built for include paths equal to the model's |
| WorkspaceRuns.RemovedNeverLoads | lsp/workspace.go:348-511 | once a registration is removed, no later load for it reaches the workspace, even if its folder is registered again |
| WorkspaceRuns.ShutdownStopsLoads | lsp/workspace.go:335-346 | after shutdown the folders' projects are those there were, or none |
| WorkspaceRuns.ReconciledIsGood | lsp/workspace.go:513-572 | reconciling gives exactly the views of the new roots, kept only for unchanged include paths |
| WorkspaceRuns.LostIsForgotten | lsp/workspace.go:526-541 | a file that a kept root loses is no longer tracked by its view |
| WorkspaceRuns.ClosedIsForgotten | lsp/workspace.go:593-634 | a batch that closes a file that is no target, as the last it does with it, leaves it unowned; the view of its root tracks it afterwards if and only if the batch opened or changed it before, or it was tracked without being a document; other views keep what they had of it |
| WorkspaceRuns.OpenedAndClosed | lsp/workspace.go:593-634 | a document opened and closed in one batch ends up unowned and still tracked |
| WorkspaceRuns.CloseForgets | lsp/workspace.go:606-627 | taking in the close of an owned document that is no target leaves it unowned and its owner's view without it |
| WorkspaceRuns.ClaimsOnce | lsp/workspace.go:385-410 | a batch has one job for each registered folder asked for that is not loading, and these are loading from then on |
| WorkspaceRuns.SettleOnlyCurrent | lsp/workspace.go:488-505 | a batch changes only folders whose registration it was started for |
| WorkspaceRuns.AppliedKeeps | lsp/workspace.go:593-634 | opening, changing and closing documents keeps every owned file tracked |
| WorkspaceRuns.StepOnlyNew | lsp/workspace.go:317-511 | a step brings back no old registration |
| WorkspaceLoads.FinishTakesIn | lsp/workspace.go:480-511 | of the jobs for the registration that still holds a folder, the last that loaded something gives the folder exactly its valid projects, in order, and that registration as their loader; if none did, the folder has what it had; in both cases it is no longer loading; without a job it is unchanged |
| WorkspaceLoads.ProjectRouted | lsp/workspace.go:209-290 | every project of a folder has its root among the roots, with a view, and if it has the include paths of its root all of its targets are routed to views that track them |
| WorkspaceLoads.LoadedIsRouted | lsp/workspace.go:480-511 | so a valid project that a current load brings has its root and its targets routed when the batch is finished |
| WorkspaceLoads.StartLoadsAll | lsp/workspace.go:328-333 | starting puts a load of every registered folder under way that is not loading |
| WorkspaceLoads.AddedIsLoaded | lsp/workspace.go:348-381 | an added folder, also one removed and added at once, is registered, empty, with a load under way; a folder that is only removed is gone |
| WorkspaceLoads.SyncLoads | lsp/workspace.go:424-437 | a synchronous load has every folder asked for registered, with a job for its registration |
| WorkspaceLoads.FirstLoad | lsp/workspace.go:317-511 | a workspace of one folder, started and loaded with one valid project, has that project's root, a view for its include paths, and every target routed to it |
| Workspaces.WorkspaceModelOf | lsp/workspace.go:209-257 | the loops build the model of the specification |
| Workspaces.RootForFile | lsp/workspace.go:259-278 | the loop finds the best root |
| Workspaces.Workspace.Initialize | lsp/workspace.go:317-326 | new folders are registered |
| Workspaces.Workspace.StartLoads | lsp/workspace.go:328-333 | one batch for all folders |
| Workspaces.Workspace.ShutDown | lsp/workspace.go:335-346 | no more loads, and none under way |
| Workspaces.Workspace.ChangeFoldersTo | lsp/workspace.go:348-381 | removed folders go and the rest is reconciled; added folders are registered afresh and loaded |
| Workspaces.Workspace.LoadLocked | lsp/workspace.go:385-420 | one batch for the registered folders that are not loading |
| Workspaces.Workspace.LoadSyncStarts | lsp/workspace.go:424-437 | the folders are registered and their registrations noted |
| Workspaces.Workspace.FinishBatch | lsp/workspace.go:480-511 | the results of current registrations are taken in, validated, and reconciled; `WorkspaceLoads.FinishTakesIn` says which |
| Workspaces.Workspace.ReconcileLocked | lsp/workspace.go:513-572 | the loops over views, roots and files give the views of the specification |
| Workspaces.Workspace.ApplyChangesTo | lsp/workspace.go:593-634 | documents open and close, and views track and evict, as the specification says |
| Workspaces.Workspace.ViewOfFile | lsp/workspace.go:636-646 | the view of the file's owner, with the model's include paths, tracking the file |
| Edits.Apply | sema/edit.go:17-125 | an error names the first edit outside the content; else the result is the simultaneous substitution of the accepted edits, with the accepted fixes in argument order and the skipped ones |
| Edits.SplicesSubstitute | sema/edit.go:111-122 | splicing a chain of edits from the back is substituting them all at once |
| Edits.OverlapIsLocal | sema/edit.go:40-48 | comparing neighbours in start order finds every overlap within a fix |
| Edits.AcceptedExactly | sema/edit.go:55-76 | a fix is accepted exactly when it does not overlap itself and conflicts with no earlier accepted fix |
| Edits.AcceptedAscending | sema/edit.go:83-90 | the applied fixes are in argument order |
| Edits.AcceptedApart | sema/edit.go:55-76 | the accepted edits are pairwise apart |
| Edits.LandingOrder | sema/edit.go:78-109 | the substituted edits are the accepted ones, each ending before the next starts; at one offset the insertions come first, in argument order |
| Edits.AppliedAndSkipped | sema/edit.go:9-125 | the applied and the skipped fixes are the fixes |
| Edits.SkippedOrder | sema/edit.go:9-72 | the skipped fixes are in argument order exactly when no two fixes that conflict, neither overlapping itself, both precede one that does |
| Edits.SkippedOutOfOrder | sema/edit.go:9-72 | of three fixes, the second conflicting with the first and the third overlapping itself, the third is listed as skipped before the second |
| Edits.Sorted | sema/edit.go:40-40 | the sort is stable |
| BlockDiff.Diff | lsp/source/format.go:156-213 | the edits are ordered and disjoint, one for each segment that changes, and together turn old into new; segments are cut at the blocks, or the document is one segment when it has CRLF or the blocks do not align |
| BlockDiff.SubsetIsChoice | lsp/source/format.go:156-213 | any subset of the edits gives, segment by segment, the new text where the edit is kept and the old text elsewhere |
| BlockDiff.Blocks | lsp/source/format.go:223-246 | blocks are separated, start and end with lines, and hold exactly the lines that are not blank |
| Mapping.RoundTrip | mapper/mapper.go:63-149 | an offset is mapped to a position and back to itself exactly when it lies between two runes and not between "\r" and "\n" |
| Mapping.FastPathAgrees | mapper/mapper.go:104-115 | on an all-ASCII document the fast path agrees with the general one on every position |
| Mapping.ColumnIsUtf16 | mapper/mapper.go:63-76 | the column of an offset is the length in UTF-16 of the text before it on its line |
| Mapping.LineOf | mapper/mapper.go:63-76 | the line table's last entry not after the offset is the start of its line |
| Mapping.WalkFindsBoundary | mapper/mapper.go:117-139 | walking the UTF-16 units of a prefix ends at the prefix |
| Mapping.BoundaryInPrefix | mapper/mapper.go:93-117 | cutting a line before its terminator moves no rune boundary |
| Mapping.Utf16Count | mapper/mapper.go:151-165 | the loop counts the UTF-16 units |
| Mapping.Mapper.InitLineStart | mapper/mapper.go:30-45 | the line table, and whether a byte is not ASCII, built once |
| Mapping.Mapper.LineFor | mapper/mapper.go:70-70 | binary search finds the line |
| Mapping.Mapper.OffsetToLSPPosition | mapper/mapper.go:63-76 | the position of the offset, or an error outside the content |
| Mapping.Mapper.GetLSPEndPosition | mapper/mapper.go:50-59 | the position of the end of the content |
| Mapping.Mapper.LSPPosToParserPosition | mapper/mapper.go:85-149 | the clamped position on the line it names, or an error past the last line |

## Left out

- Integer width: the generation counter, LSP lines and columns and token offsets are unbounded numbers; their overflow is not modelled.
- Performance devices: `sync.Pool`, scratch reuse, lazy token and index computation, the arena's node regions other than the child slices.
- Whole-formatter layout (formatter/body.go, formatter/field.go, formatter/value.go) and its idempotency.
- Text width: an additive, non-negative function of the text; the Unicode tables behind it are not modelled.
- Line suffixes in the text and width theorems: the formatter never emits them; they are in the machine and in its termination.
- Conditional groups, trims and `IfBreakFor` in the width theorems, which are stated for documents without them; the layout theorems also leave out `IfBreak`.
- Page.PrintedIs: which of the two modes a measured group has is stated by the width theorems, not on the page; lines are placed for documents without alternatives, suffixes, trims and literal lines, and with indentation in spaces or tabs (doc/print.go:15-17).
- CommentLines.CommentsStay: is about the options that emit a range as it stands; callers that drop separators and render their comments on lines of their own are in the render theorems (`Comments.EmittedSources`) only.
- Recovery in map constants, and in a function that is malformed behind its first token: the contracts bound where the parser ends and keep its nodes sound, but name no function or entry that must be kept.
- Spelling.FixedText: gives the one text of each keyword and symbol kind; which words are keywords at all, and what an escape in a literal stands for, is said by `Lexing` alone.
- PrintedEmission.PrintedRoundTrip: is about options that drop no token; where a caller drops separators and writes its own text in their place, the tokens are not the source's.
- Files, the parser and the include resolver inside the view store: functions of the content. A parse always has a tree, as `syntax.Parse` always returns one, so the nil checks on it are not modelled.
- URIs: ordered identities in the view store; in the workspace a rank with a path and a well-formedness test as parameters. Go ranges over maps in random order; the workspace model takes the roots in order, which matters only for roots with one path (`WorkspaceModel.SameLengthSamePath`).
- Workspace issues, diagnostics and logging: not modelled. The session's list of views is the workspace's own.
- A view's content in the workspace model: the set of files it tracks.
- Messages of errors and warnings of the lexer and the parser: the lexer's are kinds, the parser's only errors or warnings at a token.
- Parser trees: uniform nodes with a form, roles and token ranges in place of one struct for each production; separators and other tokens the tree points to are leaves.
- Blank lines in `BlockDiff`: whether a line is blank is a parameter, so `bytes.TrimSpace` and its Unicode spaces are not modelled.
- Alignment columns, annotation layout and the other callers of `emitTokens`.
- `commentBreaksGroup` and the alignment predicates of formatter/comments.go: single scans without a property of their own.
- `TokensForFile`, `WalkFiles`, `ContainsFile` and other queries of the view; analyzers other than the cycle check.
- `FormatRange`, `OnTypeFormat`, `mapper.ApplyEdits` and the request handlers of the language server.
- Command line, file access, configuration discovery, editor extensions and JSON-RPC plumbing.
