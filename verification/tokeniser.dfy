/**
  The character loop. Runs of characters that are neither symbols nor
  whitespace are buffered; a symbol or whitespace character first hands a
  non-empty buffer to the dispatcher, whitespace is then discarded and a
  symbol is dispatched on its own. Nothing flushes the buffer at the end of
  the input.

  The loop is given twice: `Feed` is one iteration of the Go loop, and the
  pair `Lexemes`/`Pending` describes the lexer alone, with `ProcessAll`
  folding the dispatcher over the lexemes. `Tokenise` runs `Feed` and is
  proved to compute the latter.
*/
module Tokeniser {
  import opened Lexicon
  import opened Tree
  import opened ContextStack
  import opened Dispatch

  /** The buffered partial lexeme and the builder. */
  datatype Lexer = Lexer(pending: string, parser: Parser)

  /** What the program leaves behind: the tree it prints, or a panic. */
  datatype Outcome = Printed(root: Node) | Panicked

  /** One iteration of the loop over the input characters. A plain
      character is only buffered; whitespace with nothing buffered changes
      nothing; a symbol or whitespace character always empties the buffer;
      the buffer stays a run of plain characters. */
  function Feed(l: Lexer, c: char): (r: Lexer)
    ensures IsPlainChar(c) ==> r == Lexer(l.pending + [c], l.parser)
    ensures IsWhitespaceChar(c) && l.pending == "" ==> r == l
    ensures !IsPlainChar(c) ==> r.pending == ""
    ensures IsPlainRun(l.pending) ==> IsPlainRun(r.pending)
  {
    var terminator := IsSymbolChar(c) || IsWhitespaceChar(c);
    var flushed := if terminator && l.pending != "" then Lexer("", ProcessToken(l.parser, l.pending)) else l;
    if IsWhitespaceChar(c) then flushed
    else if IsSymbolChar(c) then Lexer("", ProcessToken(flushed.parser, [c]))
    else Lexer(flushed.pending + [c], flushed.parser)
  }

  /** The lexemes dispatched while reading `input`, in order. */
  function Lexemes(input: string): (ls: seq<string>)
    decreases |input|
  {
    if input == [] then []
    else
      var prefix := input[..|input| - 1];
      var c := input[|input| - 1];
      var flushed := if (IsSymbolChar(c) || IsWhitespaceChar(c)) && Pending(prefix) != "" then [Pending(prefix)] else [];
      Lexemes(prefix) + flushed + (if IsSymbolChar(c) then [[c]] else [])
  }

  /** The buffer after reading `input`: the run of plain characters since
      the last symbol or whitespace character. */
  function Pending(input: string): (pending: string)
    decreases |input|
  {
    if input == [] then ""
    else
      var c := input[|input| - 1];
      if IsSymbolChar(c) || IsWhitespaceChar(c) then "" else Pending(input[..|input| - 1]) + [c]
  }

  /** Dispatch the lexemes one after the other. */
  function ProcessAll(p: Parser, ls: seq<string>): (r: Parser)
    decreases |ls|
  {
    if ls == [] then p else ProcessToken(ProcessAll(p, ls[..|ls| - 1]), ls[|ls| - 1])
  }

  function OutcomeOf(p: Parser): (out: Outcome) {
    match p
    case Building(s) => if |s| >= 1 then Printed(Collapse(s)) else Panicked
    case Drained(r) => Printed(r)
    case Failed => Panicked
  }

  lemma {:induction false} ProcessAllAppend(p: Parser, a: seq<string>, b: seq<string>)
    ensures ProcessAll(p, a + b) == ProcessAll(ProcessAll(p, a), b)
    decreases |b|
  {
    if b == [] {
      assert a + b == a;
    } else {
      assert (a + b)[..|a + b| - 1] == a + b[..|b| - 1];
      ProcessAllAppend(p, a, b[..|b| - 1]);
    }
  }

  /** One iteration of the loop advances the lexer description by one
      character: feeding the last character of `y` to the state reached on
      the rest of `y` gives the state reached on `y`. */
  lemma FeedStep(p0: Parser, y: string)
    requires |y| >= 1
    ensures var x, c := y[..|y| - 1], y[|y| - 1];
      Feed(Lexer(Pending(x), ProcessAll(p0, Lexemes(x))), c)
        == Lexer(Pending(y), ProcessAll(p0, Lexemes(y)))
  {
    var x, c := y[..|y| - 1], y[|y| - 1];
    var flushed := if (IsSymbolChar(c) || IsWhitespaceChar(c)) && Pending(x) != "" then [Pending(x)] else [];
    var single := if IsSymbolChar(c) then [[c]] else [];
    ProcessAllAppend(p0, Lexemes(x), flushed);
    ProcessAllAppend(p0, Lexemes(x) + flushed, single);
    SymbolAndWhitespaceDisjoint(c);
  }

  /** The Go loop: feed every character, then report the tree (the buffer
      left over is never dispatched). */
  method Tokenise(input: string) returns (out: Outcome)
    ensures out == OutcomeOf(ProcessAll(Initial, Lexemes(input)))
    ensures out.Printed? ==> out.root.kind == Root && WellFormed(out.root)
  {
    var l := Lexer("", Initial);
    var i := 0;
    while i < |input|
      invariant 0 <= i <= |input|
      invariant l == Lexer(Pending(input[..i]), ProcessAll(Initial, Lexemes(input[..i])))
    {
      FeedPrefix(input, i);
      l := Feed(l, input[i]);
      i := i + 1;
    }
    assert input[..i] == input;
    out := OutcomeOf(l.parser);
    PrintedTreeWellFormed(input);
  }

  /** The loop invariant of `Tokenise` is kept by one more character. */
  lemma FeedPrefix(input: string, i: nat)
    requires i < |input|
    ensures Feed(Lexer(Pending(input[..i]), ProcessAll(Initial, Lexemes(input[..i]))), input[i])
         == Lexer(Pending(input[..i + 1]), ProcessAll(Initial, Lexemes(input[..i + 1])))
  {
    var y := input[..i + 1];
    assert y[..|y| - 1] == input[..i] && y[|y| - 1] == input[i];
    FeedStep(Initial, y);
  }

  /** Whatever the input, a printed tree is a well-formed root. */
  lemma PrintedTreeWellFormed(input: string)
    ensures var out := OutcomeOf(ProcessAll(Initial, Lexemes(input)));
      out.Printed? ==> out.root.kind == Root && WellFormed(out.root)
  {
    var p := ProcessAll(Initial, Lexemes(input));
    ProcessAllValid(Initial, Lexemes(input));
    if p.Building? {
      CollapseWellFormed(p.stack);
    }
  }

  /** Every state the builder reaches from a valid one is valid. */
  lemma {:induction false} ProcessAllValid(p: Parser, ls: seq<string>)
    requires Valid(p)
    ensures Valid(ProcessAll(p, ls))
    decreases |ls|
  {
    if ls != [] {
      ProcessAllValid(p, ls[..|ls| - 1]);
    }
  }

  // ---------------------------------------------------------------------
  // Properties of the lexer alone

  predicate IsSymbolLexeme(l: string) {
    |l| == 1 && IsSymbolChar(l[0])
  }

  predicate IsPlainRun(l: string) {
    forall i :: 0 <= i < |l| ==> IsPlainChar(l[i])
  }

  /** The input with its whitespace characters removed. */
  function Strip(input: string): (stripped: string)
    decreases |input|
  {
    if input == [] then []
    else
      var c := input[|input| - 1];
      Strip(input[..|input| - 1]) + (if IsWhitespaceChar(c) then [] else [c])
  }

  function Concat(ls: seq<string>): (joined: string)
    decreases |ls|
  {
    if ls == [] then [] else Concat(ls[..|ls| - 1]) + ls[|ls| - 1]
  }

  /** Every lexeme is a single symbol character or a non-empty run of
      characters that are neither symbols nor whitespace; so is the buffer,
      except that it may be empty. */
  lemma {:induction false} LexemeShapes(input: string)
    ensures IsPlainRun(Pending(input))
    ensures forall l :: l in Lexemes(input) ==> IsSymbolLexeme(l) || (l != "" && IsPlainRun(l))
    decreases |input|
  {
    if input != [] {
      var prefix := input[..|input| - 1];
      var c := input[|input| - 1];
      LexemeShapes(prefix);
      if !IsSymbolChar(c) && !IsWhitespaceChar(c) {
        assert Pending(input) == Pending(prefix) + [c];
      }
      if IsSymbolChar(c) {
        assert IsSymbolLexeme([c]);
      }
    }
  }

  /** Nothing but whitespace is lost or reordered: the lexemes in order,
      followed by the undispatched buffer, spell the input without its
      whitespace. */
  lemma {:induction false} LexemesCoverInput(input: string)
    ensures Concat(Lexemes(input)) + Pending(input) == Strip(input)
    decreases |input|
  {
    if input != [] {
      var prefix := input[..|input| - 1];
      var c := input[|input| - 1];
      LexemesCoverInput(prefix);
      var flushed := if (IsSymbolChar(c) || IsWhitespaceChar(c)) && Pending(prefix) != "" then [Pending(prefix)] else [];
      var single := if IsSymbolChar(c) then [[c]] else [];
      ConcatAppend(Lexemes(prefix), flushed);
      ConcatAppend(Lexemes(prefix) + flushed, single);
      SymbolAndWhitespaceDisjoint(c);
    }
  }

  lemma ConcatAppend(a: seq<string>, b: seq<string>)
    requires |b| <= 1
    ensures Concat(a + b) == Concat(a) + Concat(b)
  {
    if |b| == 1 {
      assert (a + b)[..|a + b| - 1] == a;
      assert Concat(b) == Concat([]) + b[0];
    } else {
      assert a + b == a;
    }
  }

  /** A run of plain characters at the end of the input is only buffered:
      no lexeme is dispatched for it, so the outcome is the same as without
      it. */
  lemma {:induction false} TrailingRunIgnored(input: string, run: string)
    requires IsPlainRun(run)
    ensures Lexemes(input + run) == Lexemes(input)
    ensures Pending(input + run) == Pending(input) + run
    decreases |run|
  {
    if run == [] {
      assert input + run == input;
    } else {
      var shorter := run[..|run| - 1];
      var c := run[|run| - 1];
      assert (input + run)[..|input + run| - 1] == input + shorter;
      assert (input + run)[|input + run| - 1] == c;
      assert IsPlainChar(c);
      TrailingRunIgnored(input, shorter);
      assert shorter + [c] == run;
    }
  }

  /** `Lexemes` and `Pending` unfolded once, on an input written as a
      prefix and its last character. */
  lemma LexSnoc(x: string, d: char)
    ensures Lexemes(x + [d]) == Lexemes(x)
      + (if !IsPlainChar(d) && Pending(x) != "" then [Pending(x)] else [])
      + (if IsSymbolChar(d) then [[d]] else [])
    ensures Pending(x + [d]) == if !IsPlainChar(d) then "" else Pending(x) + [d]
  {
    var whole := x + [d];
    assert whole[..|whole| - 1] == x && whole[|whole| - 1] == d;
  }

  /** A symbol or whitespace character cuts the input in two: what follows
      it is lexed as if the input started there, and nothing buffered
      before it survives. */
  lemma {:induction false} TerminatorSplits(x: string, c: char, y: string)
    requires !IsPlainChar(c)
    ensures Lexemes(x + [c] + y) == Lexemes(x + [c]) + Lexemes(y)
    ensures Pending(x + [c] + y) == Pending(y)
    decreases |y|
  {
    if y == [] {
      assert x + [c] + y == x + [c];
      LexSnoc(x, c);
    } else {
      var shorter := y[..|y| - 1];
      var d := y[|y| - 1];
      assert x + [c] + y == (x + [c] + shorter) + [d];
      assert y == shorter + [d];
      TerminatorSplits(x, c, shorter);
      LexSnoc(x + [c] + shorter, d);
      LexSnoc(shorter, d);
    }
  }

  /** A run of plain characters read on its own is only buffered. */
  lemma RunIsBuffered(run: string)
    requires IsPlainRun(run)
    ensures Lexemes(run) == [] && Pending(run) == run
  {
    TrailingRunIgnored("", run);
    assert "" + run == run;
  }

  /** A lexeme is a maximal run: a run of plain characters ended by a symbol
      or whitespace character is dispatched whole, as one lexeme, followed
      by the symbol if it is one. */
  lemma RunThenTerminator(run: string, c: char)
    requires run != "" && IsPlainRun(run) && !IsPlainChar(c)
    ensures Lexemes(run + [c]) == [run] + (if IsSymbolChar(c) then [[c]] else [])
  {
    RunIsBuffered(run);
    LexSnoc(run, c);
  }
}
