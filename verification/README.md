# Jack tokeniser and tree builder, in Dafny

This project models the core of `main.go`. That program reads Jack source
code one character at a time, splits it into lexemes, classifies each one
(keyword, symbol, identifier, integer constant), and builds a parse tree
as it goes. A stack of "current contexts" tracks the innermost open
construct (`class`, `subroutineDec`, `subroutineBody`, `statements`,
`expressionList`, `expression`, `term`, …).

The model is split into six modules:

- `Lexicon` (`lexicon.dfy`):
  - the keyword, symbol and whitespace tables;
  - `isSymbol` and `isWhitespace`;
  - the classifier `GetTokenType`. Its two regular expressions are written
    as predicates over ASCII characters.
- `Tree` (`tree.dfy`):
  - the tree nodes;
  - the open frames of the context stack;
  - `Collapse`, which shows the whole tree as the Go pointer structure
    holds it, open constructs included.
- `ContextStack` (`context_stack.dfy`):
  - the builder's state: `Building(stack)`, `Drained(root)` once the stack
    has been popped empty, and `Failed` for a Go runtime panic;
  - the stack operations `Push`, `Pop` and `Peek`;
  - `AddToken`, `UpdateCurrentContext`, `CheckCurrentContext` and
    `PopContextStack`.
- `Dispatch` (`dispatch.dfy`):
  - `ProcessToken`;
  - `endCurrentTokenGroup` and `openNewTokenGroup`;
  - `handleSymbol` and the keyword handlers;
  - the canned skeletons of `initialTokens`.
- `Tokeniser` (`tokeniser.dfy`): the character loop of `Tokenise`, both
  as the loop the Go code runs and as a description of the lexer alone.
- `DispatchLemmas` (`dispatch_lemmas.dfy`): for every classified lexeme
  and every non-empty stack, which stack `ProcessToken` leaves behind, or
  that it empties the stack or panics. That an unclassifiable lexeme leaves
  the builder as it was is an ensures of `Dispatch.ProcessToken` itself.

The model follows the code, including these behaviours a reader might not
expect:

- A lexeme that the classifier cannot type is dropped without a trace.
  An example is `3x`, or any run containing `\r`. There is no error token.
- The pending buffer is not flushed at the end of the input. A trailing
  identifier with no symbol or whitespace after it is lost.
- `]` does nothing.
- There is no structural error report. A context mismatch either goes
  unnoticed or becomes a Go panic, when an empty stack is peeked or popped
  past its bottom.
- The empty string classifies as an integer constant, because `^\d*$`
  accepts it.

The operators `+`, `*` and `/` close a `term` on top before they are
appended, so an operator belongs to the enclosing `expression`.

## Model

| member | source | states |
|---|---|---|
| Lexicon.IsSymbol | main.go:572-584 | no contract of its own; `SymbolsAreSingleChars` pins it down |
| Lexicon.IsWhitespace | main.go:586-594 | no contract of its own; `WhitespaceIsSingleChar` and `WhitespaceChars` pin it down |
| Lexicon.SymbolsAreSingleChars | main.go:41-43 | a string is a symbol iff it is one character long and that character is one of the nineteen in the symbol table (the empty string is not a symbol) |
| Lexicon.WhitespaceIsSingleChar | main.go:45-47 | a string is whitespace iff it is a single space, newline or tab |
| Lexicon.ScanWordChars | main.go:561 | true exactly when every character is in the `\w` class |
| Lexicon.ScanDigits | main.go:565 | true exactly when the lexeme matches `^\d*$`, the empty lexeme included |
| Lexicon.MatchIdentifier | main.go:561 | true exactly when the lexeme matches `^[a-zA-Z_]\w*$` |
| Lexicon.GetTokenType | main.go:550-570 | for each category, when exactly it is returned: keyword iff in the keyword table; symbol iff in the symbol table; identifier iff not a keyword and identifier-shaped; integer constant iff all digits; unclassified iff no rule applies |
| Lexicon.SymbolsAreNotWords | main.go:41-43 | no symbol is empty, identifier-shaped or all digits, so the symbol rule never shadows a later rule |
| Lexicon.KeywordsAreNotDigits | main.go:37-39 | every keyword is identifier-shaped and none is all digits |
| Lexicon.KeywordsTakePrecedence | main.go:551-555 | a keyword matches the identifier pattern yet classifies as a keyword |
| Lexicon.MixedLexemeIsUnclassified | main.go:561-569 | `3x` matches no rule and gets the empty type |
| Lexicon.EmptyLexemeIsInteger | main.go:565-567 | the empty lexeme classifies as an integer constant |
| Lexicon.WhitespaceChars | main.go:45-47 | a character is whitespace iff it is space, newline or tab; `\r` is not |
| Lexicon.SymbolAndWhitespaceDisjoint | main.go:41-47 | no character is both a symbol and whitespace |
| Tree.Collapse | main.go:21-25 | the root of the pointer tree keeps the bottom frame's kind, text and children; above a stack of two or more frames it has exactly one more child, and that child has the kind of the frame above the bottom |
| Tree.CollapseWellFormed | main.go:21-25 | the pointer tree of a well-formed stack is well-formed |
| Tree.AttachTopOnSpine | main.go:541-544 | appending to the innermost frame appends on the tree's rightmost spine at that frame's depth |
| Tree.PushOnSpine | main.go:541-548 | appending and pushing a frame appends its node on the rightmost spine at the old innermost depth |
| ContextStack.Peek | main.go:612-614 | no contract of its own; the ensures of `Push` (the pushed frame is what `Peek` returns) and `Add` pin it down |
| ContextStack.Is | main.go:233-243 | no contract of its own; it is false on a state without a top, and the ensures `!Dropped(tok) && !HasTop(p) ==> r.Failed?` of `Dispatch.ProcessToken` shows that the panic still happens |
| ContextStack.PopOne | main.go:600-610 | one pop shortens the stack by one and leaves the frames below untouched, except that the popped frame becomes the last child of the new top |
| ContextStack.PopOneValid | main.go:600-610 | one pop keeps the stack well-formed |
| ContextStack.Pop | main.go:600-610 | popping `n` panics iff `n` exceeds the stack height (or the stack is already gone); it empties the stack iff `n` equals the height; otherwise it removes exactly `n` frames and keeps validity |
| ContextStack.Push | main.go:596-598 | the pushed frame is the new top and the frames below are unchanged |
| ContextStack.Add | main.go:541-544 | appending panics iff there is no top; otherwise the top gains exactly that child and nothing else changes |
| ContextStack.Open | main.go:541-548 | appending and making current panics iff there is no top; otherwise the depth grows by one and the new frame is the top |
| ContextStack.PopPreservesTree | main.go:600-610 | popping never changes the tree reachable from the root |
| ContextStack.PopOneCollapse | main.go:600-610 | one pop leaves the pointer tree as it was |
| ContextStack.AddOnSpine | main.go:541-544 | `AddToken` on the model is appending on the pointer tree's rightmost spine at the innermost depth |
| ContextStack.OpenOnSpine | main.go:541-548 | opening a construct in the model is appending its node on the pointer tree's rightmost spine |
| Dispatch.EndsGroup | main.go:203-216 | no contract of its own; `GroupSymbols` pins it down |
| Dispatch.OpensGroup | main.go:218-231 | no contract of its own; `GroupSymbols` pins it down |
| Dispatch.GroupSymbols | main.go:203-231 | every group-ending and group-opening lexeme classifies as a symbol, and none does both |
| Dispatch.SkeletonKeyword | main.go:49-110 | the key of each keyword-opened skeleton is a keyword |
| Dispatch.KeywordSkeleton | main.go:418-437 | `class`, `function`, `return` and `do` each select a skeleton whose key is that same keyword (the inverse of `SkeletonKeyword`) |
| Dispatch.InitialToken | main.go:49-110 | a fresh skeleton is a valid non-root construct; the `class`, `function`, `return` and `do` skeletons hold exactly their keyword leaf, and the four others are empty |
| Dispatch.SkeletonKindsDiffer | main.go:49-110 | two keys give constructs of the same kind iff they are the same key |
| Dispatch.HandleSymbol | main.go:529-539 | keeps validity; panics on a state without a top |
| Dispatch.EndGroup | main.go:254-302 | keeps validity; `]` changes nothing; every other closing symbol panics without a top |
| Dispatch.OpenGroup | main.go:309-398 | keeps validity; panics without a top |
| Dispatch.EnsureExpression | main.go:358-367 | afterwards an `expression` is innermost |
| Dispatch.OpenSubExpression | main.go:354-391 | keeps validity |
| Dispatch.OpenSkeleton | main.go:494-520 | keeps validity; panics without a top |
| Dispatch.HandleKeyword | main.go:522-527 | keeps validity; panics without a top |
| Dispatch.HandleOperand | main.go:444-487 | keeps validity; panics without a top |
| Dispatch.WrapArgument | main.go:446-454 | keeps validity and whether there is a top |
| Dispatch.WrapOperand | main.go:458-466 | keeps validity and whether there is a top |
| Dispatch.CloseOperand | main.go:482-485 | keeps validity; a state without a top is left alone |
| Dispatch.ProcessToken | main.go:400-491 | keeps validity; an unclassifiable lexeme or `]` leaves the state unchanged; any other lexeme panics on a state without a top |
| DispatchLemmas.SkeletonKeywordOpens | main.go:418-437 | `class`, `function`, `return` and `do` push their construct of the right kind, holding only the keyword leaf, and leave the stack below unchanged |
| DispatchLemmas.OtherKeywordIsLeaf | main.go:440-441 | any other keyword is appended as a keyword leaf to the innermost construct |
| DispatchLemmas.CloseBraceEndsSubroutine | main.go:255-263 | `}` in `statements` closes `statements`, appends `}` to the body, and closes the body and the subroutine declaration |
| DispatchLemmas.CloseBraceEndsSubroutineShallow | main.go:255-263 | the same `}` panics with fewer than three frames and empties the stack with exactly three |
| DispatchLemmas.CloseBraceElsewhere | main.go:265-268 | in any other context `}` is appended to the innermost construct, which is then closed |
| DispatchLemmas.SemicolonClosesStatement | main.go:271-276 | `;` is appended to the innermost construct, which is then closed |
| DispatchLemmas.CloseAtRootDrains | main.go:265-276 | `;` or `}` at the root closes the root, and the stack is left empty with the symbol in the root |
| DispatchLemmas.CloseParenAfterExpression | main.go:278-291 | `)` on an `expression` closes it and appends `)` beneath; an enclosing `term` or `expressionList` is then closed too |
| DispatchLemmas.CloseParenElsewhere | main.go:293-297 | in any other context `)` first closes the innermost construct and then is appended to the one beneath |
| DispatchLemmas.CloseParenAtRootFails | main.go:278-297 | `)` on a one-frame stack panics, whatever that frame's kind |
| DispatchLemmas.CloseParenOnLoneExpression | main.go:278-291 | `)` on an `expression` above a single frame closes it and appends `)`; if that frame is a `term` or `expressionList` it is closed too, emptying the stack |
| DispatchLemmas.CloseBracketIsIgnored | main.go:299-301 | `]` leaves every state as it was |
| DispatchLemmas.OpenBraceStartsBody | main.go:314-328 | `{` on a subroutine declaration opens `subroutineBody`, holding `{`, and an empty `statements` inside it |
| DispatchLemmas.OpenParenStartsList | main.go:330-352 | `(` on a subroutine declaration or `do` statement is appended and opens an empty `parameterList` or `expressionList` |
| DispatchLemmas.OpenParenNestsExpression | main.go:354-391 | `(` in an expression list, expression or term opens an `expression` if needed, a `term` holding `(`, and an inner empty `expression` |
| DispatchLemmas.OtherOpenerIsLeaf | main.go:393-397 | every other opening symbol is appended as a plain leaf |
| DispatchLemmas.OperandStartsArgument | main.go:444-487 | an operand in an `expressionList` opens an `expression` holding a closed `term` with the leaf |
| DispatchLemmas.OperandAddsTerm | main.go:444-487 | an operand in an `expression` appends one closed `term` holding the leaf |
| DispatchLemmas.OperandCompletesTerm | main.go:468-485 | an operand on a `term` is appended to it and the term is closed |
| DispatchLemmas.OperandCompletesBottomTerm | main.go:468-485 | an operand on a `term` that is the only frame is appended to it, and the pop empties the stack |
| DispatchLemmas.OperandElsewhereIsLeaf | main.go:468-480 | anywhere else the operand is a plain leaf of its category |
| DispatchLemmas.OperatorClosesTerm | main.go:529-539 | `+`, `*` or `/` on a `term` closes it and is appended to the construct beneath |
| DispatchLemmas.OperatorOnBottomTermFails | main.go:529-539 | `+`, `*` or `/` on a `term` that is the only frame pops it, then panics when appending |
| DispatchLemmas.OtherSymbolIsLeaf | main.go:413-416 | every other non-grouping symbol is appended as a plain leaf |
| DispatchLemmas.DrainedStateIsFinal | main.go:612-614 | once the stack is empty, every lexeme that is not dropped panics |
| Tokeniser.ProcessAllAppend | main.go:175-196 | dispatching `a + b` is dispatching `a`, then `b` |
| Tokeniser.FeedStep | main.go:175-196 | one iteration of the character loop advances the buffer and the dispatched lexemes by one character |
| Tokeniser.Feed | main.go:177-195 | a plain character is only buffered; whitespace with an empty buffer changes nothing; a symbol or whitespace character leaves the buffer empty; the buffer stays a run of plain characters (`FeedStep` relates it to the lexer description) |
| Tokeniser.FeedPrefix | main.go:176-195 | one more character keeps the loop invariant: the buffer and builder equal the lexer description of the input read so far |
| Tokeniser.PrintedTreeWellFormed | main.go:196-198 | whatever the input, a printed tree is a well-formed root |
| Tokeniser.Tokenise | main.go:175-200 | the loop computes the outcome of dispatching the lexer's lexemes in order; a printed tree is a well-formed root |
| Tokeniser.ProcessAllValid | main.go:400-491 | every state reached from a valid one is valid |
| Tokeniser.LexemeShapes | main.go:175-196 | every lexeme is a single symbol or a non-empty run of characters that are neither symbols nor whitespace |
| Tokeniser.LexemesCoverInput | main.go:175-196 | the lexemes in order, followed by the buffer, spell the input with its whitespace removed |
| Tokeniser.TrailingRunIgnored | main.go:175-198 | characters after the last symbol or whitespace are only buffered: the dispatched lexemes are those of the input without them |
| Tokeniser.Lexemes | main.go:176-195 | no contract of its own; `RunThenTerminator` and `TerminatorSplits` show that each buffered run is dispatched whole, as one lexeme |
| Tokeniser.Pending | main.go:176-195 | no contract of its own; `TerminatorSplits` and `TrailingRunIgnored` show it is the run of plain characters since the last symbol or whitespace |
| Tokeniser.TerminatorSplits | main.go:178-195 | a symbol or whitespace character cuts the input: the lexemes of what follows are those of that part read alone, and nothing buffered before survives |
| Tokeniser.RunIsBuffered | main.go:195 | a run of plain characters read on its own dispatches nothing and is exactly the buffer |
| Tokeniser.RunThenTerminator | main.go:178-195 | a non-empty run of plain characters ended by a symbol or whitespace is dispatched as one lexeme, the whole run, followed by the symbol if it is one |

## Left out

- `main` (main.go:112-133): opening the source file and the scanner
  setup. The model's input is the string of characters the scanner yields.
  Each rune is modelled as one `char`, and invalid UTF-8 is not modelled.
- `printTokenTree` (main.go:156-173): the text layout of the printed tree.
  The model's outcome is the tree the program prints, or a panic.
- The regular-expression engine: the two patterns are written out as
  predicates over ASCII letters, digits and `_`. This agrees with RE2,
  where `\w` and `\d` are ASCII only.
- The keys of `initialTokens`: they are an enumeration rather than
  strings. Every lookup in the source uses a literal key, so no lookup
  can miss.
- Pointers and aliasing: the tree is immutable, and the open constructs
  are frames of a zipper. `Collapse` and the spine lemmas relate the two
  views.
  - The canned skeletons are copied by value in Go.
  - Their child slices are full, so an append never writes into the
    shared table.
  - This makes value semantics faithful.
- Go panics: they become the `Failed` state and the `Panicked` outcome.
  No panic message is modelled.
- ContextStack.Is: it is false on a state without a top, where Go's
  `CheckCurrentContext` panics. Every caller then reaches a primitive
  that fails on that state, so the outcome is the same panic.
- Whole-program scenarios: no lemma follows a multi-lexeme Jack program
  from start to finish. The effect of each lexeme is stated for every
  context in `DispatchLemmas`, and `Tokeniser.Tokenise` composes them.
