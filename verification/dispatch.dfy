/**
  The dispatch state machine: for each finished lexeme, decide whether to
  open constructs, close constructs, or append a leaf to the innermost open
  construct. Each function follows one Go method of the tokeniser, branch
  by branch and in the same order.
*/
module Dispatch {
  import opened Lexicon
  import opened Tree
  import opened ContextStack

  /** `shouldEndCurrentTokenGroup`. */
  predicate EndsGroup(tok: string) {
    tok == "}" || tok == ";" || tok == ")" || tok == "]"
  }

  /** `shouldOpenNewTokenGroup`. */
  predicate OpensGroup(tok: string) {
    tok == "{" || tok == "(" || tok == "["
  }

  /** Both groups are symbols, and no symbol both ends and opens a group. */
  lemma GroupSymbols(tok: string)
    ensures EndsGroup(tok) ==> GetTokenType(tok) == Symbol
    ensures OpensGroup(tok) ==> GetTokenType(tok) == Symbol
    ensures !(EndsGroup(tok) && OpensGroup(tok))
  {
  }

  /** The keys of the table of canned construct skeletons, `initialTokens`:
      "class", "function", "parameterList", "expressionList",
      "subroutineBody", "statements", "return" and "do". */
  datatype Skeleton =
    | ClassSkeleton | FunctionSkeleton | ParameterListSkeleton | ExpressionListSkeleton
    | SubroutineBodySkeleton | StatementsSkeleton | ReturnSkeleton | DoSkeleton

  /** The four skeletons that a keyword opens. */
  predicate OpenedByKeyword(k: Skeleton) {
    k == ClassSkeleton || k == FunctionSkeleton || k == ReturnSkeleton || k == DoSkeleton
  }

  /** The keyword that opens a skeleton, which is also its key. */
  function SkeletonKeyword(k: Skeleton): (w: string)
    requires OpenedByKeyword(k)
    ensures w in Keywords
  {
    match k
    case ClassSkeleton => "class"
    case FunctionSkeleton => "function"
    case ReturnSkeleton => "return"
    case DoSkeleton => "do"
  }

  /** The skeleton a keyword opens. */
  function KeywordSkeleton(tok: string): (k: Skeleton)
    requires tok in {"class", "function", "return", "do"}
    ensures OpenedByKeyword(k) && SkeletonKeyword(k) == tok
  {
    if tok == "class" then ClassSkeleton
    else if tok == "function" then FunctionSkeleton
    else if tok == "return" then ReturnSkeleton
    else DoSkeleton
  }

  /** `GetInitialToken`: a fresh copy of a canned skeleton. The skeletons a
      keyword opens hold that keyword's leaf; the others are empty. */
  function InitialToken(k: Skeleton): (f: Frame)
    ensures ValidFrame(f) && f.kind != Root
    ensures OpenedByKeyword(k) ==> f.children == [Leaf(Keyword, SkeletonKeyword(k))]
    ensures !OpenedByKeyword(k) ==> f.children == []
  {
    match k
    case ClassSkeleton => Frame(Class, "", [Leaf(Keyword, "class")])
    case FunctionSkeleton => Frame(SubroutineDec, "", [Leaf(Keyword, "function")])
    case ParameterListSkeleton => Empty(ParameterList)
    case ExpressionListSkeleton => Empty(ExpressionList)
    case SubroutineBodySkeleton => Empty(SubroutineBody)
    case StatementsSkeleton => Empty(Statements)
    case ReturnSkeleton => Frame(ReturnStatement, "", [Leaf(Keyword, "return")])
    case DoSkeleton => Frame(DoStatement, "", [Leaf(Keyword, "do")])
  }

  /** Different keys give constructs of different kinds. */
  lemma SkeletonKindsDiffer(a: Skeleton, b: Skeleton)
    ensures InitialToken(a).kind == InitialToken(b).kind <==> a == b
  {
  }

  /** `handleSymbol`: `+`, `*` and `/` first close a `term` on top (a term
      holds one operand; the operator belongs to the enclosing expression);
      then the symbol is appended as a leaf. */
  function HandleSymbol(p: Parser, tok: string): (r: Parser)
    ensures Valid(p) ==> Valid(r)
    ensures !HasTop(p) ==> r.Failed?
  {
    if (tok == "+" || tok == "*" || tok == "/") && Is(p, Term) then
      Add(Pop(p, 1), Leaf(Symbol, tok))
    else
      Add(p, Leaf(Symbol, tok))
  }

  /** `endCurrentTokenGroup`. */
  function EndGroup(p: Parser, tok: string): (r: Parser)
    requires EndsGroup(tok)
    ensures Valid(p) ==> Valid(r)
    ensures tok == "]" ==> r == p
    ensures !HasTop(p) && tok != "]" ==> r.Failed?
  {
    if tok == "}" then
      if Is(p, Statements) then
        // closes `statements`, then `subroutineBody` and `subroutineDec`
        Pop(HandleSymbol(Pop(p, 1), tok), 2)
      else
        Pop(HandleSymbol(p, tok), 1)
    else if tok == ";" then
      Pop(HandleSymbol(p, tok), 1)
    else if tok == ")" then
      if Is(p, Expression) then
        var q := HandleSymbol(Pop(p, 1), tok);
        if Is(q, Term) || Is(q, ExpressionList) then Pop(q, 1) else q
      else
        HandleSymbol(Pop(p, 1), tok)
    else
      p
  }

  /** `openNewTokenGroup`. It peeks before anything else. */
  function OpenGroup(p: Parser, tok: string): (r: Parser)
    requires OpensGroup(tok)
    ensures Valid(p) ==> Valid(r)
    ensures !HasTop(p) ==> r.Failed?
  {
    if !HasTop(p) then Failed
    else if tok == "{" && Is(p, SubroutineDec) then
      var body := Open(p, InitialToken(SubroutineBodySkeleton));
      Open(Add(body, Leaf(Symbol, tok)), InitialToken(StatementsSkeleton))
    else if tok == "(" && Is(p, SubroutineDec) then
      Open(Add(p, Leaf(Symbol, tok)), InitialToken(ParameterListSkeleton))
    else if tok == "(" && Is(p, DoStatement) then
      Open(Add(p, Leaf(Symbol, tok)), InitialToken(ExpressionListSkeleton))
    else if tok == "(" && (Is(p, ExpressionList) || Is(p, Expression) || Is(p, Term)) then
      OpenSubExpression(p)
    else
      Add(p, Leaf(Symbol, tok))
  }

  /** The `(` branch of `openNewTokenGroup` inside an expression list, an
      expression or a term: make sure an `expression` is open, open a `term`
      holding `(`, and open the inner `expression` for the parenthesised
      content. */
  function OpenSubExpression(p: Parser): (r: Parser)
    requires HasTop(p)
    ensures Valid(p) ==> Valid(r)
  {
    var term := Add(Open(EnsureExpression(p), Empty(Term)), Leaf(Symbol, "("));
    Open(term, Empty(Expression))
  }

  /** Open an `expression` unless one is already innermost. */
  function EnsureExpression(p: Parser): (r: Parser)
    requires HasTop(p)
    ensures Valid(p) ==> Valid(r)
    ensures HasTop(r) && Peek(r).kind == Expression
  {
    if !Is(p, Expression) then Open(p, Empty(Expression)) else p
  }

  /** `handleClass`, `handleFunction`, `handleReturnStatement`,
      `handleDoStatement`: append the canned skeleton and make it current. */
  function OpenSkeleton(p: Parser, k: Skeleton): (r: Parser)
    requires OpenedByKeyword(k)
    ensures Valid(p) ==> Valid(r)
    ensures !HasTop(p) ==> r.Failed?
  {
    Open(p, InitialToken(k))
  }

  /** `handleKeyword`: any other keyword is a plain leaf. */
  function HandleKeyword(p: Parser, tok: string): (r: Parser)
    ensures Valid(p) ==> Valid(r)
    ensures !HasTop(p) ==> r.Failed?
  {
    Add(p, Leaf(Keyword, tok))
  }

  /** The identifier and integer-constant branch of `ProcessToken`: wrap a
      lone argument in an `expression`, wrap an operand in a `term`, append
      the leaf, and close the `term` again at once. */
  function HandleOperand(p: Parser, c: Category, tok: string): (r: Parser)
    requires c == Identifier || c == IntegerConstant
    ensures Valid(p) ==> Valid(r)
    ensures !HasTop(p) ==> r.Failed?
  {
    CloseOperand(Add(WrapOperand(WrapArgument(p)), Leaf(c, tok)))
  }

  /** A lone argument in an expression list is still an expression. */
  function WrapArgument(p: Parser): (r: Parser)
    ensures Valid(p) ==> Valid(r)
    ensures HasTop(p) <==> HasTop(r)
  {
    if Is(p, ExpressionList) then Open(p, Empty(Expression)) else p
  }

  /** An operand inside an expression gets its own `term`. */
  function WrapOperand(p: Parser): (r: Parser)
    ensures Valid(p) ==> Valid(r)
    ensures HasTop(p) <==> HasTop(r)
  {
    if Is(p, Expression) then Open(p, Empty(Term)) else p
  }

  /** A `term` holding one identifier or constant is complete. */
  function CloseOperand(p: Parser): (r: Parser)
    ensures Valid(p) ==> Valid(r)
    ensures !HasTop(p) ==> r == p
  {
    if Is(p, Term) then Pop(p, 1) else p
  }

  /** Lexemes that leave the builder untouched: those the classifier cannot
      type, and `]`, whose closing branch is empty. */
  predicate Dropped(tok: string) {
    GetTokenType(tok) == Unclassified || tok == "]"
  }

  /** `ProcessToken`: one step of the builder. */
  function ProcessToken(p: Parser, tok: string): (r: Parser)
    ensures Valid(p) ==> Valid(r)
    ensures Dropped(tok) ==> r == p
    ensures !Dropped(tok) && !HasTop(p) ==> r.Failed?
  {
    var c := GetTokenType(tok);
    if EndsGroup(tok) then EndGroup(p, tok)
    else if OpensGroup(tok) then OpenGroup(p, tok)
    else if c == Symbol then HandleSymbol(p, tok)
    else if c == Keyword then
      if tok == "class" then OpenSkeleton(p, ClassSkeleton)
      else if tok == "function" then OpenSkeleton(p, FunctionSkeleton)
      else if tok == "return" then OpenSkeleton(p, ReturnSkeleton)
      else if tok == "do" then OpenSkeleton(p, DoSkeleton)
      else HandleKeyword(p, tok)
    else if c == IntegerConstant || c == Identifier then HandleOperand(p, c, tok)
    else p
  }
}
