/**
  The token classifier: the fixed keyword, symbol and whitespace lists and
  the function that maps a finished lexeme to its token category.

  The two regular expressions of the classifier are replaced by explicit
  ASCII predicates: `^[a-zA-Z_]\w*$` becomes `IdentifierPattern` and
  `^\d*$` becomes `DigitsPattern` (in Go's regexp syntax `\w` and `\d` are
  ASCII-only classes).
*/
module Lexicon {

  /** The categories the classifier can return; `Unclassified` is the empty
      string the Go classifier returns when no rule matches. */
  datatype Category = Keyword | Symbol | Identifier | IntegerConstant | Unclassified

  const Keywords: seq<string> := ["class", "function", "void", "return", "do"]

  const Symbols: seq<string> :=
    ["{", "}", "(", ")", "[", "]", ".", ",", ";", "+", "-", "*", "/", "&", "|", "<", ">", "=", "~"]

  const Whitespace: seq<string> := [" ", "\n", "\t"]

  predicate IsSymbol(r: string) {
    r != "" && r in Symbols
  }

  predicate IsWhitespace(r: string) {
    r in Whitespace
  }

  /** The character loop asks both questions of a one-character string. */
  predicate IsSymbolChar(c: char) {
    IsSymbol([c])
  }

  predicate IsWhitespaceChar(c: char) {
    IsWhitespace([c])
  }

  /** A character that neither ends a lexeme nor is a lexeme on its own. */
  predicate IsPlainChar(c: char) {
    !IsSymbolChar(c) && !IsWhitespaceChar(c)
  }

  predicate IsAsciiLetter(c: char) {
    ('a' <= c <= 'z') || ('A' <= c <= 'Z')
  }

  predicate IsAsciiDigit(c: char) {
    '0' <= c <= '9'
  }

  /** The `\w` class of Go's regexp syntax. */
  predicate IsWordChar(c: char) {
    IsAsciiLetter(c) || IsAsciiDigit(c) || c == '_'
  }

  /** What `^[a-zA-Z_]\w*$` accepts. */
  predicate IdentifierPattern(s: string) {
    && |s| >= 1
    && (IsAsciiLetter(s[0]) || s[0] == '_')
    && forall i :: 1 <= i < |s| ==> IsWordChar(s[i])
  }

  /** What `^\d*$` accepts; note that the empty string matches. */
  predicate DigitsPattern(s: string) {
    forall i :: 0 <= i < |s| ==> IsAsciiDigit(s[i])
  }

  /** Left-to-right scan for a run of word characters. */
  function ScanWordChars(s: string): (b: bool)
    ensures b <==> forall i :: 0 <= i < |s| ==> IsWordChar(s[i])
  {
    if s == [] then true
    else if !IsWordChar(s[0]) then false
    else
      var rest := ScanWordChars(s[1..]);
      assert forall i :: 1 <= i < |s| ==> s[i] == s[1..][i - 1];
      rest
  }

  /** Left-to-right scan for a run of decimal digits. */
  function ScanDigits(s: string): (b: bool)
    ensures b <==> DigitsPattern(s)
  {
    if s == [] then true
    else if !IsAsciiDigit(s[0]) then false
    else
      var rest := ScanDigits(s[1..]);
      assert forall i :: 1 <= i < |s| ==> s[i] == s[1..][i - 1];
      rest
  }

  function MatchIdentifier(s: string): (b: bool)
    ensures b <==> IdentifierPattern(s)
  {
    if |s| == 0 || !(IsAsciiLetter(s[0]) || s[0] == '_') then false
    else
      var rest := ScanWordChars(s[1..]);
      assert forall i :: 1 <= i < |s| ==> s[i] == s[1..][i - 1];
      rest
  }

  /** The Go classifier: keywords first, then symbols, then the identifier
      pattern, then the digits pattern. Each ensures clause states when a
      category is returned once the precedence between the rules is
      resolved. */
  function GetTokenType(tok: string): (c: Category)
    ensures c == Keyword <==> tok in Keywords
    ensures c == Symbol <==> tok in Symbols
    ensures c == Identifier <==> tok !in Keywords && IdentifierPattern(tok)
    ensures c == IntegerConstant <==> DigitsPattern(tok)
    ensures c == Unclassified <==>
              !(tok in Keywords || tok in Symbols || IdentifierPattern(tok) || DigitsPattern(tok))
  {
    SymbolsAreNotWords(tok);
    KeywordsAreNotDigits(tok);
    if tok in Keywords then Keyword
    else if IsSymbol(tok) then Symbol
    else if MatchIdentifier(tok) then Identifier
    else if ScanDigits(tok) then IntegerConstant
    else Unclassified
  }

  /** No symbol matches either word pattern. */
  lemma SymbolsAreNotWords(tok: string)
    ensures tok in Symbols ==> !IdentifierPattern(tok) && !DigitsPattern(tok) && tok != ""
  {
    if tok in Symbols {
      assert |tok| == 1;
      assert !IsWordChar(tok[0]);
    }
  }

  /** Every keyword begins with a letter, so no keyword is all digits. */
  lemma KeywordsAreNotDigits(tok: string)
    ensures tok in Keywords ==> !DigitsPattern(tok) && IdentifierPattern(tok)
  {
    if tok in Keywords {
      assert !IsAsciiDigit(tok[0]);
    }
  }

  /** Every keyword also has the shape of an identifier, yet classifies as a
      keyword: the keyword rule takes precedence. */
  lemma KeywordsTakePrecedence(w: string)
    requires w in Keywords
    ensures IdentifierPattern(w)
    ensures GetTokenType(w) == Keyword
  {
    KeywordsAreNotDigits(w);
  }

  /** A digit followed by a letter matches no rule. */
  lemma MixedLexemeIsUnclassified()
    ensures GetTokenType("3x") == Unclassified
  {
    assert !IsAsciiDigit("3x"[1]);
    assert !IsAsciiLetter("3x"[0]);
  }

  /** The digits pattern also accepts the empty string. */
  lemma EmptyLexemeIsInteger()
    ensures GetTokenType("") == IntegerConstant
  {
  }

  /** Exactly space, newline and tab are whitespace; carriage return is not. */
  lemma WhitespaceChars(c: char)
    ensures IsWhitespaceChar(c) <==> c == ' ' || c == '\n' || c == '\t'
    ensures !IsWhitespaceChar('\r')
  {
    if IsWhitespaceChar(c) {
      assert [c] == " " || [c] == "\n" || [c] == "\t";
      assert [c][0] == c;
    }
  }

  /** The symbol table holds single characters only: a string is a symbol
      exactly when it is one of these nineteen characters. */
  lemma SymbolsAreSingleChars(r: string)
    ensures IsSymbol(r) <==> |r| == 1 && r[0] in "{}()[].,;+-*/&|<>=~"
  {
    if |r| == 1 && r[0] in "{}()[].,;+-*/&|<>=~" {
      assert r == [r[0]];
    }
  }

  /** Whitespace strings are single characters too. */
  lemma WhitespaceIsSingleChar(r: string)
    ensures IsWhitespace(r) <==> |r| == 1 && (r[0] == ' ' || r[0] == '\n' || r[0] == '\t')
  {
    if |r| == 1 {
      assert r == [r[0]];
    }
  }

  /** Symbol characters and whitespace characters are disjoint. */
  lemma SymbolAndWhitespaceDisjoint(c: char)
    ensures !(IsSymbolChar(c) && IsWhitespaceChar(c))
  {
    if IsWhitespaceChar(c) {
      WhitespaceChars(c);
    }
  }
}
