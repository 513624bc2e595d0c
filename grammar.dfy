/** The recursive-descent grammar of infixParser.cpp as functions that thread the cursor position.

    expression := term (('+' | '-') term)*
    term       := factor (('*' | '/') factor)*
    factor     := primary
    primary    := NUMBER | IDENTIFIER ['=' expression] | '(' expression ')'

    A position p in 0..|ts| is the cursor; p == |ts| is the END sentinel. Each function returns the
    tree it built and the position of the first token it did not consume, or the syntax error. */
module Grammar {
  import opened Results
  import opened Tokens
  import opened Ast

  /** UnexpectedTokenException: the offending token's text and source position. */
  datatype SyntaxError = UnexpectedToken(text: string, line: int, column: int)

  function UnexpectedAt(t: Token): SyntaxError
  {
    UnexpectedToken(t.text, t.line, t.column)
  }

  type Parsed = Result<(Node, nat), SyntaxError>

  /** A success ends at a position in [lo, |ts|] and builds a tree with only the four operators. */
  predicate Success(r: Parsed, ts: seq<Token>, lo: nat)
  {
    r.Ok? ==> lo <= r.value.1 <= |ts| && ValidOps(r.value.0)
  }

  /** A syntax error names a token at or after position p, or the END sentinel. */
  ghost predicate BlamesFrom(r: Parsed, ts: seq<Token>, p: nat)
  {
    r.Err? ==> exists q :: p <= q <= |ts| && r.error == UnexpectedAt(Current(ts, q))
  }

  /** expression := term (('+' | '-') term)* (infixparseExpression). A success consumed at least one
      token and stops at a token that is neither an additive nor a multiplicative operator. */
  function Expression(ts: seq<Token>, p: nat): (r: Parsed)
    requires p <= |ts|
    ensures Success(r, ts, p + 1)
    ensures r.Ok? ==> !IsAdditive(Current(ts, r.value.1)) && !IsMultiplicative(Current(ts, r.value.1))
    decreases |ts| - p, 5
  {
    match Term(ts, p)
    case Err(e) => Err(e)
    case Ok((left, q)) => ExpressionTail(ts, left, q)
  }

  /** The `while` loop of infixparseExpression: fold `left op term` to the left while the current
      token is "+" or "-". */
  function ExpressionTail(ts: seq<Token>, left: Node, p: nat): (r: Parsed)
    requires p <= |ts|
    ensures r.Ok? ==> p <= r.value.1 <= |ts| && (ValidOps(left) ==> ValidOps(r.value.0))
    ensures r.Ok? ==> !IsAdditive(Current(ts, r.value.1))
    ensures r.Ok? && !IsMultiplicative(Current(ts, p)) ==> !IsMultiplicative(Current(ts, r.value.1))

    decreases |ts| - p, 4
  {
    var t := Current(ts, p);
    if IsAdditive(t) then
      match Term(ts, Next(ts, p))
      case Err(e) => Err(e)
      case Ok((right, q)) => ExpressionTail(ts, BinaryOperation(t.text[0], left, right), q)
    else
      Ok((left, p))
  }

  /** term := factor (('*' | '/') factor)* (infixparseTerm). A success consumed at least one token
      and stops at a token that is not a multiplicative operator. */
  function Term(ts: seq<Token>, p: nat): (r: Parsed)
    requires p <= |ts|
    ensures Success(r, ts, p + 1)
    ensures r.Ok? ==> !IsMultiplicative(Current(ts, r.value.1))
    decreases |ts| - p, 3
  {
    match Factor(ts, p)
    case Err(e) => Err(e)
    case Ok((left, q)) => TermTail(ts, left, q)
  }

  /** The `while` loop of infixparseTerm: fold `left op factor` to the left while the current token
      is "*" or "/". */
  function TermTail(ts: seq<Token>, left: Node, p: nat): (r: Parsed)
    requires p <= |ts|
    ensures r.Ok? ==> p <= r.value.1 <= |ts| && (ValidOps(left) ==> ValidOps(r.value.0))
    ensures r.Ok? ==> !IsMultiplicative(Current(ts, r.value.1))

    decreases |ts| - p, 2
  {
    var t := Current(ts, p);
    if IsMultiplicative(t) then
      match Factor(ts, Next(ts, p))
      case Err(e) => Err(e)
      case Ok((right, q)) => TermTail(ts, BinaryOperation(t.text[0], left, right), q)
    else
      Ok((left, p))
  }

  /** factor := primary (infixparseFactor). */
  function Factor(ts: seq<Token>, p: nat): (r: Parsed)
    requires p <= |ts|
    ensures Success(r, ts, p + 1)
    decreases |ts| - p, 1
  {
    Primary(ts, p)
  }

  /** primary := NUMBER | IDENTIFIER ['=' expression] | '(' expression ')' (infixparsePrimary).
      Every success consumes at least one token; a RIGHT_PAREN, an OPERATOR (the END sentinel among
      them) or an ASSIGNMENT token in primary position is reported as it stands. */
  function Primary(ts: seq<Token>, p: nat): (r: Parsed)
    requires p <= |ts|
    ensures Success(r, ts, p + 1)
    ensures Current(ts, p).kind !in {NUMBER, IDENTIFIER, LEFT_PAREN} ==> r == Err(UnexpectedAt(Current(ts, p)))
    decreases |ts| - p, 0
  {
    var t := Current(ts, p);
    if t.kind == NUMBER then
      Ok((Number(t.value), Next(ts, p)))
    else if t.kind == IDENTIFIER then
      var q := Next(ts, p);
      if Current(ts, q).kind == ASSIGNMENT then
        match Expression(ts, Next(ts, q))
        case Err(e) => Err(e)
        case Ok((e, q')) => Ok((Assignment(t.text, e), q'))
      else
        Ok((Variable(t.text), q))
    else if t.kind == LEFT_PAREN then
      match Expression(ts, Next(ts, p))
      case Err(e) => Err(e)
      case Ok((e, q)) =>
        if Current(ts, q).kind == RIGHT_PAREN then Ok((e, Next(ts, q)))
        else Err(UnexpectedAt(Current(ts, q)))
    else
      // RIGHT_PAREN, OPERATOR (END included) and ASSIGNMENT all fail the same way
      Err(UnexpectedAt(t))
  }

  /** infixparse on a fresh parser: the expression starting at the first token. Tokens after it are
      not looked at. */
  function Parse(ts: seq<Token>): (r: Result<Node, SyntaxError>)
    requires |ts| > 0
    ensures r.Ok? ==> ValidOps(r.value)
  {
    match Expression(ts, 0)
    case Ok((n, _)) => Ok(n)
    case Err(e) => Err(e)
  }

  /** A parse result moved k positions to the right. */
  function Shifted(r: Parsed, k: nat): Parsed
  {
    match r
    case Ok((n, q)) => Ok((n, q + k))
    case Err(e) => Err(e)
  }

  lemma CurrentShift(pre: seq<Token>, ts: seq<Token>, p: nat)
    requires p <= |ts|
    ensures Current(pre + ts, |pre| + p) == Current(ts, p)
    ensures Next(pre + ts, |pre| + p) == |pre| + Next(ts, p)
  {
  }

  /** Parsing does not depend on the tokens before the cursor: prefixing the tokens with `pre` only
      moves every position by |pre|. */
  lemma {:induction false} ExpressionShift(pre: seq<Token>, ts: seq<Token>, p: nat)
    requires p <= |ts|
    ensures Expression(pre + ts, |pre| + p) == Shifted(Expression(ts, p), |pre|)
    decreases |ts| - p, 5
  {
    TermShift(pre, ts, p);
    match Term(ts, p)
    case Err(_) =>
    case Ok((left, q)) => ExpressionTailShift(pre, ts, left, q);
  }

  lemma {:induction false} ExpressionTailShift(pre: seq<Token>, ts: seq<Token>, left: Node, p: nat)
    requires p <= |ts|
    ensures ExpressionTail(pre + ts, left, |pre| + p) == Shifted(ExpressionTail(ts, left, p), |pre|)
    decreases |ts| - p, 4
  {
    CurrentShift(pre, ts, p);
    var t := Current(ts, p);
    if IsAdditive(t) {
      var p' := Next(ts, p);
      TermShift(pre, ts, p');
      match Term(ts, p')
      case Err(err) =>
        assert Term(pre + ts, |pre| + p') == Err(err);
      case Ok((right, q)) =>
        assert Term(pre + ts, |pre| + p') == Ok((right, |pre| + q));
        ExpressionTailShift(pre, ts, BinaryOperation(t.text[0], left, right), q);
    }
  }

  lemma {:induction false} TermShift(pre: seq<Token>, ts: seq<Token>, p: nat)
    requires p <= |ts|
    ensures Term(pre + ts, |pre| + p) == Shifted(Term(ts, p), |pre|)
    decreases |ts| - p, 3
  {
    FactorShift(pre, ts, p);
    match Factor(ts, p)
    case Err(_) =>
    case Ok((left, q)) => TermTailShift(pre, ts, left, q);
  }

  lemma {:induction false} TermTailShift(pre: seq<Token>, ts: seq<Token>, left: Node, p: nat)
    requires p <= |ts|
    ensures TermTail(pre + ts, left, |pre| + p) == Shifted(TermTail(ts, left, p), |pre|)
    decreases |ts| - p, 2
  {
    CurrentShift(pre, ts, p);
    var t := Current(ts, p);
    if IsMultiplicative(t) {
      FactorShift(pre, ts, Next(ts, p));
      match Factor(ts, Next(ts, p))
      case Err(_) =>
      case Ok((right, q)) => TermTailShift(pre, ts, BinaryOperation(t.text[0], left, right), q);
    }
  }

  lemma {:induction false} FactorShift(pre: seq<Token>, ts: seq<Token>, p: nat)
    requires p <= |ts|
    ensures Factor(pre + ts, |pre| + p) == Shifted(Factor(ts, p), |pre|)
    decreases |ts| - p, 1
  {
    PrimaryShift(pre, ts, p);
  }

  lemma {:induction false} PrimaryShift(pre: seq<Token>, ts: seq<Token>, p: nat)
    requires p <= |ts|
    ensures Primary(pre + ts, |pre| + p) == Shifted(Primary(ts, p), |pre|)
    decreases |ts| - p, 0
  {
    CurrentShift(pre, ts, p);
    var t := Current(ts, p);
    if t.kind == IDENTIFIER {
      var q := Next(ts, p);
      CurrentShift(pre, ts, q);
      if Current(ts, q).kind == ASSIGNMENT {
        ExpressionShift(pre, ts, Next(ts, q));
      }
    } else if t.kind == LEFT_PAREN {
      ExpressionShift(pre, ts, Next(ts, p));
      match Expression(ts, Next(ts, p))
      case Err(_) =>
      case Ok((e, q)) => CurrentShift(pre, ts, q);
    }
  }

  /** Every syntax error names a token at or after the cursor where parsing began, or the END
      sentinel: the parser never reports a token it has already consumed past. */
  lemma {:induction false} ExpressionBlames(ts: seq<Token>, p: nat)
    requires p <= |ts|
    ensures BlamesFrom(Expression(ts, p), ts, p)
    decreases |ts| - p, 5
  {
    TermBlames(ts, p);
    match Term(ts, p)
    case Err(_) =>
    case Ok((left, q)) => ExpressionTailBlames(ts, left, q);
  }

  lemma {:induction false} ExpressionTailBlames(ts: seq<Token>, left: Node, p: nat)
    requires p <= |ts|
    ensures BlamesFrom(ExpressionTail(ts, left, p), ts, p)
    decreases |ts| - p, 4
  {
    var t := Current(ts, p);
    if IsAdditive(t) {
      TermBlames(ts, Next(ts, p));
      match Term(ts, Next(ts, p))
      case Err(_) =>
      case Ok((right, q)) => ExpressionTailBlames(ts, BinaryOperation(t.text[0], left, right), q);
    }
  }

  lemma {:induction false} TermBlames(ts: seq<Token>, p: nat)
    requires p <= |ts|
    ensures BlamesFrom(Term(ts, p), ts, p)
    decreases |ts| - p, 3
  {
    FactorBlames(ts, p);
    match Factor(ts, p)
    case Err(_) =>
    case Ok((left, q)) => TermTailBlames(ts, left, q);
  }

  lemma {:induction false} TermTailBlames(ts: seq<Token>, left: Node, p: nat)
    requires p <= |ts|
    ensures BlamesFrom(TermTail(ts, left, p), ts, p)
    decreases |ts| - p, 2
  {
    var t := Current(ts, p);
    if IsMultiplicative(t) {
      FactorBlames(ts, Next(ts, p));
      match Factor(ts, Next(ts, p))
      case Err(_) =>
      case Ok((right, q)) => TermTailBlames(ts, BinaryOperation(t.text[0], left, right), q);
    }
  }

  lemma {:induction false} FactorBlames(ts: seq<Token>, p: nat)
    requires p <= |ts|
    ensures BlamesFrom(Factor(ts, p), ts, p)
    decreases |ts| - p, 1
  {
    PrimaryBlames(ts, p);
  }

  lemma {:induction false} PrimaryBlames(ts: seq<Token>, p: nat)
    requires p <= |ts|
    ensures BlamesFrom(Primary(ts, p), ts, p)
    decreases |ts| - p, 0
  {
    var t := Current(ts, p);
    if t.kind == IDENTIFIER {
      var q := Next(ts, p);
      if Current(ts, q).kind == ASSIGNMENT {
        ExpressionBlames(ts, Next(ts, q));
      }
    } else if t.kind == LEFT_PAREN {
      ExpressionBlames(ts, Next(ts, p));
      match Expression(ts, Next(ts, p))
      case Err(_) =>
      case Ok((e, q)) =>
        if Current(ts, q).kind != RIGHT_PAREN {
          assert Primary(ts, p) == Err(UnexpectedAt(Current(ts, q)));
        }
    } else if t.kind != NUMBER {
      assert Primary(ts, p) == Err(UnexpectedAt(Current(ts, p)));
    }
  }

  /** An identifier followed by `=` takes the whole expression after it as its right-hand side:
      `x = rest` parses as Assignment(x, e) exactly when `rest` parses as e, and fails with
      the error of `rest` otherwise. Chained assignment `a = b = 3` therefore nests to the right. */
  lemma AssignmentTakesWholeExpression(id: Token, eq: Token, rest: seq<Token>)
    requires id.kind == IDENTIFIER && eq.kind == ASSIGNMENT
    ensures Expression([id, eq] + rest, 0) ==
            match Expression(rest, 0)
            case Ok((e, q)) => Ok((Assignment(id.text, e), q + 2))
            case Err(err) => Err(err)
  {
    var ts := [id, eq] + rest;
    ExpressionShift([id, eq], rest, 0);
    assert Current(ts, 0) == id && Current(ts, 1) == eq;
    match Expression(rest, 0)
    case Err(err) =>
      assert Primary(ts, 0) == Err(err);
      assert Term(ts, 0) == Err(err);
    case Ok((e, q)) =>
      var q2 := q + 2;
      CurrentShift([id, eq], rest, q);
      assert Primary(ts, 0) == Ok((Assignment(id.text, e), q2));
      assert TermTail(ts, Assignment(id.text, e), q2) == Ok((Assignment(id.text, e), q2));
      assert Term(ts, 0) == Ok((Assignment(id.text, e), q2));
      assert ExpressionTail(ts, Assignment(id.text, e), q2) == Ok((Assignment(id.text, e), q2));
  }

  /** A "(" whose expression is not followed by ")" fails at the token found instead (the END
      sentinel when the tokens ran out). */
  lemma UnclosedParenthesis(ts: seq<Token>, p: nat)
    requires p < |ts| && ts[p].kind == LEFT_PAREN
    requires Expression(ts, p + 1).Ok?
    requires Current(ts, Expression(ts, p + 1).value.1).kind != RIGHT_PAREN
    ensures Primary(ts, p) == Err(UnexpectedAt(Current(ts, Expression(ts, p + 1).value.1)))
  {
  }
}
