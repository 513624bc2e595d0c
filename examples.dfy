/** Behaviours of the expression language on concrete token lists, each on the tokens of one line
    of input and derived from the general lemmas. */
module Examples {
  import opened Results
  import opened Tokens
  import opened Ast
  import opened Grammar
  import opened Evaluator
  import opened RoundTrip

  function Num(v: real, text: string, column: int): Token { Token(NUMBER, text, 1, column, v) }
  function Ident(x: string, column: int): Token { Token(IDENTIFIER, x, 1, column, 0.0) }
  function Sym(op: string, column: int): Token { Token(OPERATOR, op, 1, column, 0.0) }
  function Eq(column: int): Token { Token(ASSIGNMENT, "=", 1, column, 0.0) }
  function Open(column: int): Token { Token(LEFT_PAREN, "(", 1, column, 0.0) }
  function Close(column: int): Token { Token(RIGHT_PAREN, ")", 1, column, 0.0) }

  function Blank(v: real): string { "" }

  function Leaf(n: Node): Product { Product(n, []) }

  /** `1 - 2 - 3` groups to the left and evaluates to -4. */
  lemma LeftAssociativeSubtraction(s: Store)
    ensures Parse([Num(1.0, "1", 1), Sym("-", 3), Num(2.0, "2", 5), Sym("-", 7), Num(3.0, "3", 9)]) ==
            Ok(BinaryOperation('-', BinaryOperation('-', Number(1.0), Number(2.0)), Number(3.0)))
    ensures Eval(BinaryOperation('-', BinaryOperation('-', Number(1.0), Number(2.0)), Number(3.0)), s) ==
            Evaluation(Ok(-4.0), s)
  {
    var ts := [Num(1.0, "1", 1), Sym("-", 3), Num(2.0, "2", 5), Sym("-", 7), Num(3.0, "3", 9)];
    var terms := [('-', Leaf(Number(2.0))), ('-', Leaf(Number(3.0)))];
    assert ProductTokens(Leaf(Number(1.0)), Blank) + SumTokens(terms, Blank) ==
           [Token(NUMBER, "", 0, 0, 1.0), OperatorToken('-'), Token(NUMBER, "", 0, 0, 2.0),
            OperatorToken('-'), Token(NUMBER, "", 0, 0, 3.0)];
    SumOfProductsParses(Leaf(Number(1.0)), terms, Blank, ts);
    assert Eval(BinaryOperation('-', Number(1.0), Number(2.0)), s) == Evaluation(Ok(-1.0), s);
  }

  /** `2 + 3 * 4` is `(2 + (3 * 4))` and evaluates to 14. */
  lemma MultiplicationBindsTighter(s: Store)
    ensures Parse([Num(2.0, "2", 1), Sym("+", 3), Num(3.0, "3", 5), Sym("*", 7), Num(4.0, "4", 9)]) ==
            Ok(BinaryOperation('+', Number(2.0), BinaryOperation('*', Number(3.0), Number(4.0))))
    ensures Eval(BinaryOperation('+', Number(2.0), BinaryOperation('*', Number(3.0), Number(4.0))), s) ==
            Evaluation(Ok(14.0), s)
  {
    var ts := [Num(2.0, "2", 1), Sym("+", 3), Num(3.0, "3", 5), Sym("*", 7), Num(4.0, "4", 9)];
    var terms := [('+', Product(Number(3.0), [('*', Number(4.0))]))];
    assert ProductTokens(Leaf(Number(2.0)), Blank) + SumTokens(terms, Blank) ==
           [Token(NUMBER, "", 0, 0, 2.0), OperatorToken('+'), Token(NUMBER, "", 0, 0, 3.0),
            OperatorToken('*'), Token(NUMBER, "", 0, 0, 4.0)];
    SumOfProductsParses(Leaf(Number(2.0)), terms, Blank, ts);
    assert Eval(BinaryOperation('*', Number(3.0), Number(4.0)), s) == Evaluation(Ok(12.0), s);
  }

  /** The tokens of `(2 + 3) * 4` read as the product `(2 + 3) * 4`. */
  lemma ParenthesisedProductTokens()
    ensures At([Open(1), Num(2.0, "2", 2), Sym("+", 4), Num(3.0, "3", 6), Close(7), Sym("*", 9), Num(4.0, "4", 11)], 0,
               ProductTokens(Product(BinaryOperation('+', Number(2.0), Number(3.0)), [('*', Number(4.0))]), Blank) +
               SumTokens([], Blank))
  {
    var sum := BinaryOperation('+', Number(2.0), Number(3.0));
    assert TokensOf(sum, Blank) ==
           [LeftParen, Token(NUMBER, "", 0, 0, 2.0), OperatorToken('+'), Token(NUMBER, "", 0, 0, 3.0), RightParen];
    assert ChainTokens([('*', Number(4.0))], Blank) == [OperatorToken('*'), Token(NUMBER, "", 0, 0, 4.0)];
  }

  /** `(2 + 3) * 4` is `((2 + 3) * 4)` and evaluates to 20. */
  lemma ParenthesesOverridePrecedence(s: Store)
    ensures Parse([Open(1), Num(2.0, "2", 2), Sym("+", 4), Num(3.0, "3", 6), Close(7), Sym("*", 9), Num(4.0, "4", 11)]) ==
            Ok(BinaryOperation('*', BinaryOperation('+', Number(2.0), Number(3.0)), Number(4.0)))
    ensures Eval(BinaryOperation('*', BinaryOperation('+', Number(2.0), Number(3.0)), Number(4.0)), s) ==
            Evaluation(Ok(20.0), s)
  {
    var ts := [Open(1), Num(2.0, "2", 2), Sym("+", 4), Num(3.0, "3", 6), Close(7), Sym("*", 9), Num(4.0, "4", 11)];
    var sum := BinaryOperation('+', Number(2.0), Number(3.0));
    var head := Product(sum, [('*', Number(4.0))]);
    ParenthesisedProductTokens();
    assert |ProductTokens(head, Blank) + SumTokens([], Blank)| == 7;
    SumOfProductsParses(head, [], Blank, ts);
    assert Eval(sum, s) == Evaluation(Ok(5.0), s);
  }

  /** `x = 5` yields 5 and stores x; `x + 1` against that store then yields 6. */
  lemma AssignmentPersists(s: Store)
    ensures Parse([Ident("x", 1), Eq(3), Num(5.0, "5", 5)]) == Ok(Assignment("x", Number(5.0)))
    ensures Eval(Assignment("x", Number(5.0)), s) == Evaluation(Ok(5.0), s["x" := 5.0])
    ensures Parse([Ident("x", 1), Sym("+", 3), Num(1.0, "1", 5)]) ==
            Ok(BinaryOperation('+', Variable("x"), Number(1.0)))
    ensures Eval(BinaryOperation('+', Variable("x"), Number(1.0)), s["x" := 5.0]).result == Ok(6.0)
  {
    AssignmentTakesWholeExpression(Ident("x", 1), Eq(3), [Num(5.0, "5", 5)]);
    assert [Ident("x", 1), Eq(3)] + [Num(5.0, "5", 5)] == [Ident("x", 1), Eq(3), Num(5.0, "5", 5)];
    var ts := [Ident("x", 1), Sym("+", 3), Num(1.0, "1", 5)];
    var terms := [('+', Leaf(Number(1.0)))];
    assert ProductTokens(Leaf(Variable("x")), Blank) + SumTokens(terms, Blank) ==
           [Token(IDENTIFIER, "x", 0, 0, 0.0), OperatorToken('+'), Token(NUMBER, "", 0, 0, 1.0)];
    SumOfProductsParses(Leaf(Variable("x")), terms, Blank, ts);
  }

  /** `y + 1` parses, and against an empty store fails with UnknownIdentifier("y"). */
  lemma UnknownIdentifierFails()
    ensures Parse([Ident("y", 1), Sym("+", 3), Num(1.0, "1", 5)]) ==
            Ok(BinaryOperation('+', Variable("y"), Number(1.0)))
    ensures Eval(BinaryOperation('+', Variable("y"), Number(1.0)), map[]) ==
            Evaluation(Err(UnknownIdentifier("y")), map[])
  {
    var ts := [Ident("y", 1), Sym("+", 3), Num(1.0, "1", 5)];
    var terms := [('+', Leaf(Number(1.0)))];
    assert ProductTokens(Leaf(Variable("y")), Blank) + SumTokens(terms, Blank) ==
           [Token(IDENTIFIER, "y", 0, 0, 0.0), OperatorToken('+'), Token(NUMBER, "", 0, 0, 1.0)];
    SumOfProductsParses(Leaf(Variable("y")), terms, Blank, ts);
  }

  /** `4 / 0` fails with DivisionByZero. */
  lemma DivisionByZeroFails(s: Store)
    ensures Parse([Num(4.0, "4", 1), Sym("/", 3), Num(0.0, "0", 5)]) ==
            Ok(BinaryOperation('/', Number(4.0), Number(0.0)))
    ensures Eval(BinaryOperation('/', Number(4.0), Number(0.0)), s) == Evaluation(Err(DivisionByZero), s)
  {
    var ts := [Num(4.0, "4", 1), Sym("/", 3), Num(0.0, "0", 5)];
    var head := Product(Number(4.0), [('/', Number(0.0))]);
    assert ProductTokens(head, Blank) + SumTokens([], Blank) ==
           [Token(NUMBER, "", 0, 0, 4.0), OperatorToken('/'), Token(NUMBER, "", 0, 0, 0.0)];
    SumOfProductsParses(head, [], Blank, ts);
  }

  /** The `1 + 2` inside `(1 + 2` is a complete expression that stops at the end of the tokens. */
  lemma InsideUnclosedParenthesis()
    ensures Expression([Open(1), Num(1.0, "1", 2), Sym("+", 4), Num(2.0, "2", 6)], 1) ==
            Ok((BinaryOperation('+', Number(1.0), Number(2.0)), 4))
  {
    var inner := [Num(1.0, "1", 2), Sym("+", 4), Num(2.0, "2", 6)];
    var terms := [('+', Leaf(Number(2.0)))];
    assert ProductTokens(Leaf(Number(1.0)), Blank) + SumTokens(terms, Blank) ==
           [Token(NUMBER, "", 0, 0, 1.0), OperatorToken('+'), Token(NUMBER, "", 0, 0, 2.0)];
    SumOfProductsParses(Leaf(Number(1.0)), terms, Blank, inner);
    ExpressionShift([Open(1)], inner, 0);
    assert [Open(1)] + inner == [Open(1), Num(1.0, "1", 2), Sym("+", 4), Num(2.0, "2", 6)];
  }

  /** `(1 + 2` fails at the END sentinel: text "END", line 0, column 0. */
  lemma UnbalancedParenthesisFails()
    ensures Parse([Open(1), Num(1.0, "1", 2), Sym("+", 4), Num(2.0, "2", 6)]) == Err(UnexpectedToken("END", 0, 0))
  {
    var ts := [Open(1), Num(1.0, "1", 2), Sym("+", 4), Num(2.0, "2", 6)];
    InsideUnclosedParenthesis();
    UnclosedParenthesis(ts, 0);
    assert Primary(ts, 0) == Err(UnexpectedToken("END", 0, 0));
    assert Factor(ts, 0) == Err(UnexpectedToken("END", 0, 0));
    assert Term(ts, 0) == Err(UnexpectedToken("END", 0, 0));
    assert Expression(ts, 0) == Err(UnexpectedToken("END", 0, 0));
  }

  /** `a = b = 3` nests to the right, yields 3 and sets both a and b to 3. */
  lemma ChainedAssignment(s: Store)
    ensures Parse([Ident("a", 1), Eq(3), Ident("b", 5), Eq(7), Num(3.0, "3", 9)]) ==
            Ok(Assignment("a", Assignment("b", Number(3.0))))
    ensures Eval(Assignment("a", Assignment("b", Number(3.0))), s) == Evaluation(Ok(3.0), s["b" := 3.0]["a" := 3.0])
  {
    var three := [Num(3.0, "3", 9)];
    assert Expression(three, 0) == Ok((Number(3.0), 1));
    AssignmentTakesWholeExpression(Ident("b", 5), Eq(7), three);
    AssignmentTakesWholeExpression(Ident("a", 1), Eq(3), [Ident("b", 5), Eq(7)] + three);
    assert [Ident("a", 1), Eq(3)] + ([Ident("b", 5), Eq(7)] + three) ==
           [Ident("a", 1), Eq(3), Ident("b", 5), Eq(7), Num(3.0, "3", 9)];
    assert Eval(Assignment("b", Number(3.0)), s) == Evaluation(Ok(3.0), s["b" := 3.0]);
  }

  /** `(a = 1) + (a = 2)` is the sum of two assignments. */
  lemma TwoAssignmentsParse()
    ensures Parse([Open(1), Ident("a", 2), Eq(4), Num(1.0, "1", 6), Close(7), Sym("+", 9),
                   Open(11), Ident("a", 12), Eq(14), Num(2.0, "2", 16), Close(17)]) ==
            Ok(BinaryOperation('+', Assignment("a", Number(1.0)), Assignment("a", Number(2.0))))
  {
    var ts := [Open(1), Ident("a", 2), Eq(4), Num(1.0, "1", 6), Close(7), Sym("+", 9),
               Open(11), Ident("a", 12), Eq(14), Num(2.0, "2", 16), Close(17)];
    var terms := [('+', Leaf(Assignment("a", Number(2.0))))];
    var first := [LeftParen, Token(IDENTIFIER, "a", 0, 0, 0.0), Equals, Token(NUMBER, "", 0, 0, 1.0), RightParen];
    var second := [LeftParen, Token(IDENTIFIER, "a", 0, 0, 0.0), Equals, Token(NUMBER, "", 0, 0, 2.0), RightParen];
    assert TokensOf(Assignment("a", Number(1.0)), Blank) == first;
    assert TokensOf(Assignment("a", Number(2.0)), Blank) == second;
    assert ProductTokens(Leaf(Assignment("a", Number(1.0))), Blank) == first;
    assert ProductTokens(Leaf(Assignment("a", Number(2.0))), Blank) == second;
    assert SumTokens(terms, Blank) == [OperatorToken('+')] + second;
    var pattern := ProductTokens(Leaf(Assignment("a", Number(1.0))), Blank) + SumTokens(terms, Blank);
    assert pattern == first + [OperatorToken('+')] + second;
    assert |pattern| == 11;
    forall i | 0 <= i < 11 ensures Matches(ts, 0, pattern, i) {
    }
    assert At(ts, 0, pattern);
    SumOfProductsParses(Leaf(Assignment("a", Number(1.0))), terms, Blank, ts);
  }

  /** `(a = 1) + (a = 2)` evaluates the left assignment first: it yields 3 and leaves a = 2. */
  lemma LeftOperandFirst(s: Store)
    ensures Eval(BinaryOperation('+', Assignment("a", Number(1.0)), Assignment("a", Number(2.0))), s) ==
            Evaluation(Ok(3.0), s["a" := 2.0])
  {
    var s1 := s["a" := 1.0];
    assert Eval(Assignment("a", Number(1.0)), s) == Evaluation(Ok(1.0), s1);
    assert Eval(Assignment("a", Number(2.0)), s1) == Evaluation(Ok(2.0), s1["a" := 2.0]);
    assert s1["a" := 2.0] == s["a" := 2.0];
    assert Apply('+', 1.0, 2.0) == Ok(3.0);
  }

  /** An assignment carried out before an error stays in the store: `(a = 1) + y` against an empty
      store fails with UnknownIdentifier("y") and leaves a = 1. */
  lemma AssignmentSurvivesLaterError()
    ensures Eval(BinaryOperation('+', Assignment("a", Number(1.0)), Variable("y")), map[]) ==
            Evaluation(Err(UnknownIdentifier("y")), map["a" := 1.0])
  {
  }

  /** Tokens after a complete expression are not looked at: `1 2` parses as 1. */
  lemma TrailingTokensIgnored()
    ensures Parse([Num(1.0, "1", 1), Num(2.0, "2", 3)]) == Ok(Number(1.0))
  {
    var ts := [Num(1.0, "1", 1), Num(2.0, "2", 3)];
    assert Primary(ts, 0) == Ok((Number(1.0), 1));
    assert TermTail(ts, Number(1.0), 1) == Ok((Number(1.0), 1));
    assert Term(ts, 0) == Ok((Number(1.0), 1));
  }
}
