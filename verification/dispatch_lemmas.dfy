/**
  The effect of one lexeme on the context stack, case by case: which frames
  are opened, which are closed and where the new leaves end up. `s` is the
  stack before the lexeme, its last frame the innermost construct.
*/
module DispatchLemmas {
  import opened Lexicon
  import opened Tree
  import opened ContextStack
  import opened Dispatch

  /** The stack `s` with `m` appended to its innermost frame. */
  function AppendTop(s: seq<Frame>, m: Node): (s': seq<Frame>)
    requires |s| >= 1
  {
    s[..|s| - 1] + [Attach(s[|s| - 1], m)]
  }

  /** The two frames below the top, with the top frame closed (after the
      leaves `extra` have been appended to it) and attached to its parent. */
  function CloseTopWith(s: seq<Frame>, extra: seq<Node>): (s': seq<Frame>)
    requires |s| >= 2
  {
    var top := s[|s| - 1];
    s[..|s| - 2] + [Attach(s[|s| - 2], Node(top.kind, top.literal, top.children + extra))]
  }

  // ---------------------------------------------------------------------
  // Keywords

  /** `class`, `function`, `return` and `do` open their construct, whose
      only child is the keyword leaf; the stack grows by one. */
  lemma SkeletonKeywordOpens(s: seq<Frame>, tok: string)
    requires |s| >= 1
    requires tok in {"class", "function", "return", "do"}
    ensures var r := ProcessToken(Building(s), tok);
      && r.Building? && |r.stack| == |s| + 1 && r.stack[..|s|] == s
      && Peek(r).children == [Leaf(Keyword, tok)] && Peek(r).literal == ""
      && (tok == "class" ==> Peek(r).kind == Class)
      && (tok == "function" ==> Peek(r).kind == SubroutineDec)
      && (tok == "return" ==> Peek(r).kind == ReturnStatement)
      && (tok == "do" ==> Peek(r).kind == DoStatement)
  {
    RouteSkeleton(Building(s), tok);
  }

  /** Any other keyword is appended as a leaf; the depth is unchanged. */
  lemma OtherKeywordIsLeaf(s: seq<Frame>, tok: string)
    requires |s| >= 1
    requires tok in Keywords && tok !in {"class", "function", "return", "do"}
    ensures ProcessToken(Building(s), tok) == Building(AppendTop(s, Leaf(Keyword, tok)))
  {
    RouteOtherKeyword(Building(s), tok);
    StepAdd(s, Leaf(Keyword, tok));
  }

  // ---------------------------------------------------------------------
  // Closing symbols

  /** `}` with `statements` on top closes three constructs: the `}` leaf
      follows the closed `statements` inside `subroutineBody`, which is the
      last child of the closed `subroutineDec`. */
  lemma CloseBraceEndsSubroutine(s: seq<Frame>)
    requires |s| >= 4 && s[|s| - 1].kind == Statements
    ensures var n := |s|;
      var body := s[n - 2];
      var dec := s[n - 3];
      var closedBody := Node(body.kind, body.literal, body.children + [Close(s[n - 1]), Leaf(Symbol, "}")]);
      ProcessToken(Building(s), "}")
        == Building(s[..n - 4] + [Attach(s[n - 4], Node(dec.kind, dec.literal, dec.children + [closedBody]))])
  {
    var n := |s|;
    RouteCloseBrace(Building(s));
    StepPop(s);
    var s1 := PopOne(s);
    StepAdd(s1, Leaf(Symbol, "}"));
    AppendAfterPop(s, Leaf(Symbol, "}"));
    var s2 := AppendTop(s1, Leaf(Symbol, "}"));
    StepPopTwo(s2);
    PopTwoAfter(s, s2);
  }

  /** The same `}` on a stack too shallow for three pops: with three frames
      the root itself is closed; with fewer the second pop fails. */
  lemma CloseBraceEndsSubroutineShallow(s: seq<Frame>)
    requires 1 <= |s| <= 3 && s[|s| - 1].kind == Statements
    ensures |s| < 3 ==> ProcessToken(Building(s), "}").Failed?
    ensures |s| == 3 ==> ProcessToken(Building(s), "}").Drained?
  {
    RouteCloseBrace(Building(s));
  }

  /** In any other context `}` is appended to the top, which is then
      closed. */
  lemma CloseBraceElsewhere(s: seq<Frame>)
    requires |s| >= 2 && s[|s| - 1].kind != Statements
    ensures ProcessToken(Building(s), "}") == Building(CloseTopWith(s, [Leaf(Symbol, "}")]))
  {
    RouteCloseBrace(Building(s));
    StepAdd(s, Leaf(Symbol, "}"));
    StepPop(AppendTop(s, Leaf(Symbol, "}")));
    PopAfterAppend(s, Leaf(Symbol, "}"));
  }

  /** `;` is appended to the top, which is then closed. */
  lemma SemicolonClosesStatement(s: seq<Frame>)
    requires |s| >= 2
    ensures ProcessToken(Building(s), ";") == Building(CloseTopWith(s, [Leaf(Symbol, ";")]))
  {
    RouteSemicolon(Building(s));
    StepAdd(s, Leaf(Symbol, ";"));
    StepPop(AppendTop(s, Leaf(Symbol, ";")));
    PopAfterAppend(s, Leaf(Symbol, ";"));
  }

  /** `}` or `;` at the root closes the root itself: the stack is left empty
      and the tree is final. */
  lemma CloseAtRootDrains(s: seq<Frame>, tok: string)
    requires |s| == 1 && (tok == ";" || (tok == "}" && s[0].kind != Statements))
    ensures ProcessToken(Building(s), tok) == Drained(Node(s[0].kind, s[0].literal, s[0].children + [Leaf(Symbol, tok)]))
  {
    if tok == ";" {
      RouteSemicolon(Building(s));
    } else {
      RouteCloseBrace(Building(s));
    }
    StepAdd(s, Leaf(Symbol, tok));
  }

  /** `)` with `expression` on top closes it and appends `)` to the new top;
      a `term` or `expressionList` there is then closed as well. */
  lemma CloseParenAfterExpression(s: seq<Frame>)
    requires |s| >= 3 && s[|s| - 1].kind == Expression
    ensures var n := |s|;
      var below := s[n - 2];
      var r := ProcessToken(Building(s), ")");
      if below.kind == Term || below.kind == ExpressionList then
        r == Building(s[..n - 3] + [Attach(s[n - 3],
               Node(below.kind, below.literal, below.children + [Close(s[n - 1]), Leaf(Symbol, ")")]))])
      else
        r == Building(s[..n - 2] + [Attach(Attach(below, Close(s[n - 1])), Leaf(Symbol, ")"))])
  {
    var n := |s|;
    var s2 := s[..n - 2] + [Attach(Attach(s[n - 2], Close(s[n - 1])), Leaf(Symbol, ")"))];
    RouteCloseParen(Building(s));
    ParenAfterExpressionStep(s);
    if s[n - 2].kind == Term || s[n - 2].kind == ExpressionList {
      StepPop(s2);
      PopAfterParen(s, s2);
    }
  }

  /** In any other context `)` first closes the top and then is appended to
      the construct beneath it. */
  lemma CloseParenElsewhere(s: seq<Frame>)
    requires |s| >= 2 && s[|s| - 1].kind != Expression
    ensures var n := |s|;
      ProcessToken(Building(s), ")")
        == Building(s[..n - 2] + [Attach(Attach(s[n - 2], Close(s[n - 1])), Leaf(Symbol, ")"))])
  {
    RouteCloseParen(Building(s));
    StepPop(s);
    StepAdd(PopOne(s), Leaf(Symbol, ")"));
    AppendAfterPop(s, Leaf(Symbol, ")"));
  }

  /** `)` at the root pops the root and then cannot append: a panic. */
  lemma CloseParenAtRootFails(s: seq<Frame>)
    requires |s| == 1
    ensures ProcessToken(Building(s), ")").Failed?
  {
    RouteCloseParen(Building(s));
  }

  /** `)` on an `expression` directly above the bottom frame: as above, but
      when that frame is a `term` or an `expressionList` closing it empties
      the stack. */
  lemma CloseParenOnLoneExpression(s: seq<Frame>)
    requires |s| == 2 && s[1].kind == Expression
    ensures var top := Attach(Attach(s[0], Close(s[1])), Leaf(Symbol, ")"));
      var r := ProcessToken(Building(s), ")");
      if s[0].kind == Term || s[0].kind == ExpressionList then r == Drained(Close(top))
      else r == Building([top])
  {
    var top := Attach(Attach(s[0], Close(s[1])), Leaf(Symbol, ")"));
    RouteCloseParen(Building(s));
    StepPop(s);
    StepAdd(PopOne(s), Leaf(Symbol, ")"));
    AppendAfterPop(s, Leaf(Symbol, ")"));
    assert s[..0] + [top] == [top];
  }

  /** `]` does nothing at all, whatever the state. */
  lemma CloseBracketIsIgnored(p: Parser)
    ensures ProcessToken(p, "]") == p
  {
  }

  // ---------------------------------------------------------------------
  // Opening symbols

  /** `{` on a subroutine declaration opens `subroutineBody` holding `{`
      and, inside it, an empty `statements`: the depth grows by two. */
  lemma OpenBraceStartsBody(s: seq<Frame>)
    requires |s| >= 1 && s[|s| - 1].kind == SubroutineDec
    ensures ProcessToken(Building(s), "{")
      == Building(s + [Frame(SubroutineBody, "", [Leaf(Symbol, "{")]), Empty(Statements)])
  {
    var body := Frame(SubroutineBody, "", [Leaf(Symbol, "{")]);
    RouteOpenBrace(s);
    StepAdd(s + [Empty(SubroutineBody)], Leaf(Symbol, "{"));
    AppendToEmpty(s, SubroutineBody, Leaf(Symbol, "{"));
    StepOpen(s + [body], Empty(Statements));
    assert s + [body] + [Empty(Statements)] == s + [body, Empty(Statements)];
  }

  /** `(` on a subroutine declaration or a `do` statement becomes a leaf of
      it and opens an empty parameter list or expression list. */
  lemma OpenParenStartsList(s: seq<Frame>)
    requires |s| >= 1
    requires s[|s| - 1].kind == SubroutineDec || s[|s| - 1].kind == DoStatement
    ensures var list := if s[|s| - 1].kind == SubroutineDec then ParameterList else ExpressionList;
      ProcessToken(Building(s), "(") == Building(AppendTop(s, Leaf(Symbol, "(")) + [Empty(list)])
  {
    RouteOpenParenList(s);
    StepAdd(s, Leaf(Symbol, "("));
  }

  /** `(` inside an expression list, expression or term leaves a fresh empty
      `expression` on top, inside a `term` whose first child is `(`; an
      outer `expression` is opened only when the top was not one already. */
  lemma OpenParenNestsExpression(s: seq<Frame>)
    requires |s| >= 1
    requires s[|s| - 1].kind in {ExpressionList, Expression, Term}
    ensures var nested := [Frame(Term, "", [Leaf(Symbol, "(")]), Empty(Expression)];
      ProcessToken(Building(s), "(")
        == Building(if s[|s| - 1].kind == Expression then s + nested else s + [Empty(Expression)] + nested)
  {
    var outer := if s[|s| - 1].kind == Expression then s else s + [Empty(Expression)];
    var term := Frame(Term, "", [Leaf(Symbol, "(")]);
    RouteOpenParenNested(s, outer);
    StepAdd(outer + [Empty(Term)], Leaf(Symbol, "("));
    AppendToEmpty(outer, Term, Leaf(Symbol, "("));
    StepOpen(outer + [term], Empty(Expression));
    NestedShape(s, outer, term);
  }

  /** Every other opening symbol is a plain leaf. */
  lemma OtherOpenerIsLeaf(s: seq<Frame>, tok: string)
    requires |s| >= 1 && OpensGroup(tok)
    requires !(tok == "{" && s[|s| - 1].kind == SubroutineDec)
    requires !(tok == "(" && s[|s| - 1].kind in {SubroutineDec, DoStatement, ExpressionList, Expression, Term})
    ensures ProcessToken(Building(s), tok) == Building(AppendTop(s, Leaf(Symbol, tok)))
  {
    RouteOtherOpener(s, tok);
    StepAdd(s, Leaf(Symbol, tok));
  }

  // ---------------------------------------------------------------------
  // Operands and operators

  /** An identifier or integer as a lone argument opens an `expression`
      holding a closed `term` with the leaf: the depth grows by one. */
  lemma OperandStartsArgument(s: seq<Frame>, tok: string)
    requires |s| >= 1 && s[|s| - 1].kind == ExpressionList
    requires GetTokenType(tok) in {Identifier, IntegerConstant}
    ensures ProcessToken(Building(s), tok)
      == Building(s + [Frame(Expression, "", [Node(Term, "", [Leaf(GetTokenType(tok), tok)])])])
  {
    var c := GetTokenType(tok);
    var s2 := s + [Empty(Expression), Empty(Term)];
    RouteOperandInList(s, c, tok);
    StepAdd(s2, Leaf(c, tok));
    StepPop(AppendTop(s2, Leaf(c, tok)));
    ArgumentShape(s, Leaf(c, tok));
  }

  /** Inside an expression an operand adds exactly one closed `term`
      holding the leaf; the depth is unchanged. */
  lemma OperandAddsTerm(s: seq<Frame>, tok: string)
    requires |s| >= 1 && s[|s| - 1].kind == Expression
    requires GetTokenType(tok) in {Identifier, IntegerConstant}
    ensures ProcessToken(Building(s), tok)
      == Building(AppendTop(s, Node(Term, "", [Leaf(GetTokenType(tok), tok)])))
  {
    var c := GetTokenType(tok);
    RouteOperandInExpression(s, c, tok);
    StepAdd(s + [Empty(Term)], Leaf(c, tok));
    StepPop(AppendTop(s + [Empty(Term)], Leaf(c, tok)));
    TermShape(s, Leaf(c, tok));
  }

  /** With a `term` on top the operand completes that term, which is
      closed. */
  lemma OperandCompletesTerm(s: seq<Frame>, tok: string)
    requires |s| >= 2 && s[|s| - 1].kind == Term
    requires GetTokenType(tok) in {Identifier, IntegerConstant}
    ensures ProcessToken(Building(s), tok) == Building(CloseTopWith(s, [Leaf(GetTokenType(tok), tok)]))
  {
    var c := GetTokenType(tok);
    RouteOperandInTerm(s, c, tok);
    StepAdd(s, Leaf(c, tok));
    StepPop(AppendTop(s, Leaf(c, tok)));
    PopAfterAppend(s, Leaf(c, tok));
  }

  /** A `term` at the bottom of the stack is completed by an operand and
      closed, which empties the stack. */
  lemma OperandCompletesBottomTerm(s: seq<Frame>, tok: string)
    requires |s| == 1 && s[0].kind == Term
    requires GetTokenType(tok) in {Identifier, IntegerConstant}
    ensures ProcessToken(Building(s), tok)
      == Drained(Node(Term, s[0].literal, s[0].children + [Leaf(GetTokenType(tok), tok)]))
  {
    var c := GetTokenType(tok);
    RouteOperandInTerm(s, c, tok);
    StepAdd(s, Leaf(c, tok));
    assert AppendTop(s, Leaf(c, tok)) == [Attach(s[0], Leaf(c, tok))];
  }

  /** Anywhere else the operand is a plain leaf. */
  lemma OperandElsewhereIsLeaf(s: seq<Frame>, tok: string)
    requires |s| >= 1 && !(s[|s| - 1].kind in {ExpressionList, Expression, Term})
    requires GetTokenType(tok) in {Identifier, IntegerConstant}
    ensures ProcessToken(Building(s), tok) == Building(AppendTop(s, Leaf(GetTokenType(tok), tok)))
  {
    var c := GetTokenType(tok);
    RouteOperandElsewhere(s, c, tok);
    StepAdd(s, Leaf(c, tok));
  }

  /** `+`, `*` and `/` close a `term` on top and are appended to the
      construct beneath it. */
  lemma OperatorClosesTerm(s: seq<Frame>, tok: string)
    requires |s| >= 2 && s[|s| - 1].kind == Term
    requires tok in {"+", "*", "/"}
    ensures var n := |s|;
      ProcessToken(Building(s), tok)
        == Building(s[..n - 2] + [Attach(Attach(s[n - 2], Close(s[n - 1])), Leaf(Symbol, tok))])
  {
    RouteOperator(s, tok);
    StepPop(s);
    StepAdd(PopOne(s), Leaf(Symbol, tok));
    AppendAfterPop(s, Leaf(Symbol, tok));
  }

  /** An operator on a `term` at the bottom of the stack pops the last
      frame and then has nowhere to go: a panic. */
  lemma OperatorOnBottomTermFails(s: seq<Frame>, tok: string)
    requires |s| == 1 && s[0].kind == Term
    requires tok in {"+", "*", "/"}
    ensures ProcessToken(Building(s), tok).Failed?
  {
    RouteOperator(s, tok);
  }

  /** Every other non-grouping symbol, `-` included, and these three when no
      `term` is on top, is a plain leaf. */
  lemma OtherSymbolIsLeaf(s: seq<Frame>, tok: string)
    requires |s| >= 1 && tok in Symbols && !EndsGroup(tok) && !OpensGroup(tok)
    requires tok in {"+", "*", "/"} ==> s[|s| - 1].kind != Term
    ensures ProcessToken(Building(s), tok) == Building(AppendTop(s, Leaf(Symbol, tok)))
  {
    RouteOtherSymbol(s, tok);
    StepAdd(s, Leaf(Symbol, tok));
  }

  /** Once the stack has been emptied, every lexeme that is not dropped
      panics, and dropped ones leave the state as it is. */
  lemma DrainedStateIsFinal(root: Node, tok: string)
    ensures Dropped(tok) ==> ProcessToken(Drained(root), tok) == Drained(root)
    ensures !Dropped(tok) ==> ProcessToken(Drained(root), tok) == Failed
  {
  }

  // ---------------------------------------------------------------------
  // Routing: which composition of stack primitives `ProcessToken` runs

  lemma RouteSkeleton(p: Parser, tok: string)
    requires tok in {"class", "function", "return", "do"}
    ensures ProcessToken(p, tok) == Open(p, InitialToken(KeywordSkeleton(tok)))
  {
  }

  lemma RouteOtherKeyword(p: Parser, tok: string)
    requires tok in Keywords && tok !in {"class", "function", "return", "do"}
    ensures ProcessToken(p, tok) == Add(p, Leaf(Keyword, tok))
  {
  }

  lemma RouteCloseBrace(p: Parser)
    ensures ProcessToken(p, "}") ==
      if Is(p, Statements) then Pop(Add(Pop(p, 1), Leaf(Symbol, "}")), 2)
      else Pop(Add(p, Leaf(Symbol, "}")), 1)
  {
    PlainSymbol(p, "}");
    PlainSymbol(Pop(p, 1), "}");
  }

  lemma RouteSemicolon(p: Parser)
    ensures ProcessToken(p, ";") == Pop(Add(p, Leaf(Symbol, ";")), 1)
  {
    PlainSymbol(p, ";");
  }

  lemma RouteCloseParen(p: Parser)
    ensures ProcessToken(p, ")") ==
      if Is(p, Expression) then
        var q := Add(Pop(p, 1), Leaf(Symbol, ")"));
        if Is(q, Term) || Is(q, ExpressionList) then Pop(q, 1) else q
      else Add(Pop(p, 1), Leaf(Symbol, ")"))
  {
    PlainSymbol(Pop(p, 1), ")");
  }

  lemma PlainSymbol(p: Parser, tok: string)
    requires tok !in {"+", "*", "/"}
    ensures HandleSymbol(p, tok) == Add(p, Leaf(Symbol, tok))
  {
  }

  lemma RouteOpenBrace(s: seq<Frame>)
    requires |s| >= 1 && s[|s| - 1].kind == SubroutineDec
    ensures ProcessToken(Building(s), "{")
      == Open(Add(Building(s + [Empty(SubroutineBody)]), Leaf(Symbol, "{")), Empty(Statements))
  {
    RouteOpener(Building(s), "{");
    GroupOpenBrace(s);
  }

  lemma GroupOpenBrace(s: seq<Frame>)
    requires |s| >= 1 && s[|s| - 1].kind == SubroutineDec
    ensures OpenGroup(Building(s), "{")
      == Open(Add(Building(s + [Empty(SubroutineBody)]), Leaf(Symbol, "{")), Empty(Statements))
  {
    OpenBraceBranch(Building(s));
    StepOpen(s, Empty(SubroutineBody));
  }

  lemma OpenBraceBranch(p: Parser)
    requires Is(p, SubroutineDec)
    ensures OpenGroup(p, "{") == Open(Add(Open(p, Empty(SubroutineBody)), Leaf(Symbol, "{")), Empty(Statements))
  {
    assert InitialToken(SubroutineBodySkeleton) == Empty(SubroutineBody);
    assert InitialToken(StatementsSkeleton) == Empty(Statements);
  }

  lemma RouteOpenParenList(s: seq<Frame>)
    requires |s| >= 1
    requires s[|s| - 1].kind == SubroutineDec || s[|s| - 1].kind == DoStatement
    ensures var list := if s[|s| - 1].kind == SubroutineDec then ParameterList else ExpressionList;
      ProcessToken(Building(s), "(") == Open(Add(Building(s), Leaf(Symbol, "(")), Empty(list))
  {
    RouteOpener(Building(s), "(");
    GroupOpenParenList(s);
  }

  lemma GroupOpenParenList(s: seq<Frame>)
    requires |s| >= 1
    requires s[|s| - 1].kind == SubroutineDec || s[|s| - 1].kind == DoStatement
    ensures var list := if s[|s| - 1].kind == SubroutineDec then ParameterList else ExpressionList;
      OpenGroup(Building(s), "(") == Open(Add(Building(s), Leaf(Symbol, "(")), Empty(list))
  {
  }

  lemma RouteOpenParenNested(s: seq<Frame>, outer: seq<Frame>)
    requires |s| >= 1
    requires s[|s| - 1].kind in {ExpressionList, Expression, Term}
    requires outer == if s[|s| - 1].kind == Expression then s else s + [Empty(Expression)]
    ensures ProcessToken(Building(s), "(")
      == Open(Add(Building(outer + [Empty(Term)]), Leaf(Symbol, "(")), Empty(Expression))
  {
    RouteOpener(Building(s), "(");
    GroupOpenParenNested(s);
    EnsureOnTop(s, outer);
  }

  lemma GroupOpenParenNested(s: seq<Frame>)
    requires |s| >= 1
    requires s[|s| - 1].kind in {ExpressionList, Expression, Term}
    ensures OpenGroup(Building(s), "(") == OpenSubExpression(Building(s))
  {
  }

  lemma EnsureOnTop(s: seq<Frame>, outer: seq<Frame>)
    requires |s| >= 1
    requires outer == if s[|s| - 1].kind == Expression then s else s + [Empty(Expression)]
    ensures EnsureExpression(Building(s)) == Building(outer)
  {
  }

  lemma RouteOtherOpener(s: seq<Frame>, tok: string)
    requires |s| >= 1 && OpensGroup(tok)
    requires !(tok == "{" && s[|s| - 1].kind == SubroutineDec)
    requires !(tok == "(" && s[|s| - 1].kind in {SubroutineDec, DoStatement, ExpressionList, Expression, Term})
    ensures ProcessToken(Building(s), tok) == Add(Building(s), Leaf(Symbol, tok))
  {
    RouteOpener(Building(s), tok);
    PlainOpener(s, tok);
  }

  lemma RouteOpener(p: Parser, tok: string)
    requires OpensGroup(tok)
    ensures ProcessToken(p, tok) == OpenGroup(p, tok)
  {
  }

  lemma PlainOpener(s: seq<Frame>, tok: string)
    requires |s| >= 1 && OpensGroup(tok)
    requires !(tok == "{" && s[|s| - 1].kind == SubroutineDec)
    requires !(tok == "(" && s[|s| - 1].kind in {SubroutineDec, DoStatement, ExpressionList, Expression, Term})
    ensures OpenGroup(Building(s), tok) == Add(Building(s), Leaf(Symbol, tok))
  {
  }

  lemma RouteOperand(p: Parser, tok: string)
    requires GetTokenType(tok) in {Identifier, IntegerConstant}
    ensures ProcessToken(p, tok) == HandleOperand(p, GetTokenType(tok), tok)
  {
    assert !EndsGroup(tok) && !OpensGroup(tok);
  }

  lemma RouteOperandInList(s: seq<Frame>, c: Category, tok: string)
    requires |s| >= 1 && s[|s| - 1].kind == ExpressionList
    requires GetTokenType(tok) == c && c in {Identifier, IntegerConstant}
    ensures ProcessToken(Building(s), tok)
      == Pop(Add(Building(s + [Empty(Expression), Empty(Term)]), Leaf(c, tok)), 1)
  {
    RouteOperand(Building(s), tok);
    OperandSteps(Building(s), c, tok);
    WrapOnTop(s);
    CloseOperandOnTerm(Add(Building(s + [Empty(Expression), Empty(Term)]), Leaf(c, tok)));
  }

  lemma RouteOperandInExpression(s: seq<Frame>, c: Category, tok: string)
    requires |s| >= 1 && s[|s| - 1].kind == Expression
    requires GetTokenType(tok) == c && c in {Identifier, IntegerConstant}
    ensures ProcessToken(Building(s), tok) == Pop(Add(Building(s + [Empty(Term)]), Leaf(c, tok)), 1)
  {
    RouteOperand(Building(s), tok);
    OperandSteps(Building(s), c, tok);
    WrapOnTop(s);
    CloseOperandOnTerm(Add(Building(s + [Empty(Term)]), Leaf(c, tok)));
  }

  lemma RouteOperandInTerm(s: seq<Frame>, c: Category, tok: string)
    requires |s| >= 1 && s[|s| - 1].kind == Term
    requires GetTokenType(tok) == c && c in {Identifier, IntegerConstant}
    ensures ProcessToken(Building(s), tok) == Pop(Add(Building(s), Leaf(c, tok)), 1)
  {
    RouteOperand(Building(s), tok);
    OperandSteps(Building(s), c, tok);
    WrapOnTop(s);
    CloseOperandOnTerm(Add(Building(s), Leaf(c, tok)));
  }

  lemma RouteOperandElsewhere(s: seq<Frame>, c: Category, tok: string)
    requires |s| >= 1 && !(s[|s| - 1].kind in {ExpressionList, Expression, Term})
    requires GetTokenType(tok) == c && c in {Identifier, IntegerConstant}
    ensures ProcessToken(Building(s), tok) == Add(Building(s), Leaf(c, tok))
  {
    RouteOperand(Building(s), tok);
    OperandSteps(Building(s), c, tok);
    WrapOnTop(s);
    StepAdd(s, Leaf(c, tok));
  }

  lemma RouteSymbol(p: Parser, tok: string)
    requires tok in Symbols && !EndsGroup(tok) && !OpensGroup(tok)
    ensures ProcessToken(p, tok) == HandleSymbol(p, tok)
  {
  }

  lemma OperandSteps(p: Parser, c: Category, tok: string)
    requires c in {Identifier, IntegerConstant}
    ensures HandleOperand(p, c, tok) == CloseOperand(Add(WrapOperand(WrapArgument(p)), Leaf(c, tok)))
  {
  }

  /** The wrappers an operand gets, by the kind of the innermost frame. */
  lemma WrapOnTop(s: seq<Frame>)
    requires |s| >= 1
    ensures var k := s[|s| - 1].kind;
      WrapOperand(WrapArgument(Building(s))) ==
        if k == ExpressionList then Building(s + [Empty(Expression), Empty(Term)])
        else if k == Expression then Building(s + [Empty(Term)])
        else Building(s)
  {
    var k := s[|s| - 1].kind;
    if k == ExpressionList {
      var s1 := s + [Empty(Expression)];
      assert WrapArgument(Building(s)) == Building(s1);
      assert WrapOperand(Building(s1)) == Building(s1 + [Empty(Term)]);
      assert s1 + [Empty(Term)] == s + [Empty(Expression), Empty(Term)];
    }
  }

  lemma CloseOperandOnTerm(p: Parser)
    requires HasTop(p) && Peek(p).kind == Term
    ensures CloseOperand(p) == Pop(p, 1)
  {
  }

  lemma RouteOperator(s: seq<Frame>, tok: string)
    requires |s| >= 1 && s[|s| - 1].kind == Term
    requires tok in {"+", "*", "/"}
    ensures ProcessToken(Building(s), tok) == Add(Pop(Building(s), 1), Leaf(Symbol, tok))
  {
    OperatorIsSymbol(tok);
    RouteSymbol(Building(s), tok);
    assert Is(Building(s), Term);
    OperatorOnTerm(Building(s), tok);
  }

  lemma OperatorIsSymbol(tok: string)
    requires tok in {"+", "*", "/"}
    ensures tok in Symbols && !EndsGroup(tok) && !OpensGroup(tok)
  {
  }

  lemma OperatorOnTerm(p: Parser, tok: string)
    requires tok in {"+", "*", "/"} && Is(p, Term)
    ensures HandleSymbol(p, tok) == Add(Pop(p, 1), Leaf(Symbol, tok))
  {
  }

  lemma RouteOtherSymbol(s: seq<Frame>, tok: string)
    requires |s| >= 1 && tok in Symbols && !EndsGroup(tok) && !OpensGroup(tok)
    requires tok in {"+", "*", "/"} ==> s[|s| - 1].kind != Term
    ensures ProcessToken(Building(s), tok) == Add(Building(s), Leaf(Symbol, tok))
  {
    assert !(tok in {"+", "*", "/"} && Is(Building(s), Term));
    RouteSymbol(Building(s), tok);
    PlainSymbolOffTerm(Building(s), tok);
  }

  lemma PlainSymbolOffTerm(p: Parser, tok: string)
    requires !(tok in {"+", "*", "/"} && Is(p, Term))
    ensures HandleSymbol(p, tok) == Add(p, Leaf(Symbol, tok))
  {
  }

  // ---------------------------------------------------------------------
  // Single steps of the stack primitives

  lemma StepAdd(s: seq<Frame>, m: Node)
    requires |s| >= 1
    ensures Add(Building(s), m) == Building(AppendTop(s, m))
  {
  }

  lemma StepPop(s: seq<Frame>)
    requires |s| >= 2
    ensures Pop(Building(s), 1) == Building(PopOne(s))
  {
  }

  lemma StepPopTwo(s: seq<Frame>)
    requires |s| >= 3
    ensures Pop(Building(s), 2) == Building(PopOne(PopOne(s)))
  {
    assert Pop(Building(s), 2) == Pop(Building(PopOne(s)), 1);
  }

  lemma PopAfterAppend(s: seq<Frame>, m: Node)
    requires |s| >= 2
    ensures PopOne(AppendTop(s, m)) == CloseTopWith(s, [m])
  {
  }

  lemma AppendAfterPop(s: seq<Frame>, m: Node)
    requires |s| >= 2
    ensures AppendTop(PopOne(s), m) == s[..|s| - 2] + [Attach(Attach(s[|s| - 2], Close(s[|s| - 1])), m)]
  {
  }

  lemma AppendToEmpty(s: seq<Frame>, k: Kind, m: Node)
    ensures AppendTop(s + [Empty(k)], m) == s + [Frame(k, "", [m])]
  {
    assert (s + [Empty(k)])[..|s|] == s;
    assert [] + [m] == [m];
  }

  lemma PopTwoAfter(s: seq<Frame>, s2: seq<Frame>)
    requires |s| >= 4
    requires s2 == s[..|s| - 2] + [Attach(Attach(s[|s| - 2], Close(s[|s| - 1])), Leaf(Symbol, "}"))]
    ensures var n := |s|;
      var body := s[n - 2];
      var dec := s[n - 3];
      var closedBody := Node(body.kind, body.literal, body.children + [Close(s[n - 1]), Leaf(Symbol, "}")]);
      PopOne(PopOne(s2)) == s[..n - 4] + [Attach(s[n - 4], Node(dec.kind, dec.literal, dec.children + [closedBody]))]
  {
    var n := |s|;
    var body := s[n - 2];
    assert s2[..n - 3] == s[..n - 3];
    assert s2[n - 2].children == body.children + [Close(s[n - 1]), Leaf(Symbol, "}")];
    var s3 := PopOne(s2);
    assert s3 == s[..n - 3] + [Attach(s[n - 3], Close(s2[n - 2]))];
    assert s3[..n - 4] == s[..n - 4];
    assert PopOne(s3) == s[..n - 4] + [Attach(s[n - 4], Close(s3[n - 3]))];
  }

  lemma PopAfterParen(s: seq<Frame>, s2: seq<Frame>)
    requires |s| >= 3
    requires s2 == s[..|s| - 2] + [Attach(Attach(s[|s| - 2], Close(s[|s| - 1])), Leaf(Symbol, ")"))]
    ensures var n := |s|;
      var below := s[n - 2];
      PopOne(s2) == s[..n - 3] + [Attach(s[n - 3],
               Node(below.kind, below.literal, below.children + [Close(s[n - 1]), Leaf(Symbol, ")")]))]
  {
    var n := |s|;
    var below := s[n - 2];
    assert s2[..n - 3] == s[..n - 3];
    assert s2[n - 2].children == below.children + [Close(s[n - 1]), Leaf(Symbol, ")")];
  }

  lemma StepOpen(s: seq<Frame>, f: Frame)
    requires |s| >= 1
    ensures Open(Building(s), f) == Building(s + [f])
  {
  }

  /** After `)` closed the innermost `expression` and was appended to the
      frame beneath it. */
  lemma ParenAfterExpressionStep(s: seq<Frame>)
    requires |s| >= 2
    ensures var n := |s|;
      var s2 := s[..n - 2] + [Attach(Attach(s[n - 2], Close(s[n - 1])), Leaf(Symbol, ")"))];
      && Add(Pop(Building(s), 1), Leaf(Symbol, ")")) == Building(s2)
      && Peek(Building(s2)).kind == s[n - 2].kind
  {
    StepPop(s);
    StepAdd(PopOne(s), Leaf(Symbol, ")"));
    AppendAfterPop(s, Leaf(Symbol, ")"));
  }

  lemma ArgumentShape(s: seq<Frame>, m: Node)
    ensures PopOne(AppendTop(s + [Empty(Expression), Empty(Term)], m))
      == s + [Frame(Expression, "", [Node(Term, "", [m])])]
  {
    var s1 := s + [Empty(Expression)];
    assert s + [Empty(Expression), Empty(Term)] == s1 + [Empty(Term)];
    AppendToEmpty(s1, Term, m);
    var s3 := s1 + [Frame(Term, "", [m])];
    assert s3[..|s3| - 2] == s;
    assert [] + [Close(Frame(Term, "", [m]))] == [Node(Term, "", [m])];
  }

  lemma TermShape(s: seq<Frame>, m: Node)
    requires |s| >= 1
    ensures PopOne(AppendTop(s + [Empty(Term)], m)) == AppendTop(s, Node(Term, "", [m]))
  {
    AppendToEmpty(s, Term, m);
  }

  lemma NestedShape(s: seq<Frame>, outer: seq<Frame>, term: Frame)
    requires |s| >= 1
    requires outer == if s[|s| - 1].kind == Expression then s else s + [Empty(Expression)]
    ensures outer + [term] + [Empty(Expression)]
      == if s[|s| - 1].kind == Expression then s + [term, Empty(Expression)]
         else s + [Empty(Expression)] + [term, Empty(Expression)]
  {
  }
}
