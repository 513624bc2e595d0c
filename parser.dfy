/** The parser object of infixParser.cpp: a token vector, a cursor (`index`, `currentToken`) that
    `NextToken` moves forward, and one method per precedence level. Each method is proved to compute
    what the matching Grammar function does from the cursor position it started at. */
module InfixParsing {
  import opened Results
  import opened Tokens
  import opened Ast
  import Grammar

  /** A method's result paired with the cursor position it left, in the form Grammar returns. */
  function Located(r: Result<Node, Grammar.SyntaxError>, q: nat): Grammar.Parsed
  {
    match r
    case Ok(n) => Ok((n, q))
    case Err(e) => Err(e)
  }

  class InfixParser {
    const tokens: seq<Token>
    var index: nat
    var currentToken: Token
    /** The abstract cursor: `index`, or |tokens| once the END sentinel has been produced. */
    ghost var pos: nat

    ghost predicate Valid()
      reads this
    {
      && |tokens| > 0
      && index < |tokens|
      && (pos == index || (index == |tokens| - 1 && pos == |tokens|))
      && currentToken == Current(tokens, pos)
    }

    /** The cursor starts on the first token. */
    constructor (tokens: seq<Token>)
      requires |tokens| > 0
      ensures Valid() && this.tokens == tokens
      ensures index == 0 && pos == 0 && currentToken == tokens[0]
    {
      this.tokens := tokens;
      index := 0;
      currentToken := tokens[0];
      pos := 0;
    }

    /** Step to the next token; on the last token, and from then on, yield the END sentinel and
        leave `index` where it is. */
    method NextToken()
      requires Valid()
      modifies this
      ensures Valid()
      ensures index == if old(index) < |tokens| - 1 then old(index) + 1 else old(index)
      ensures currentToken == if old(index) < |tokens| - 1 then tokens[old(index) + 1] else End
      ensures pos == Next(tokens, old(pos))
      ensures old(index) <= index
      ensures old(pos) == |tokens| ==> pos == |tokens| && index == old(index) && currentToken == End
    {
      if index < |tokens| - 1 {
        index := index + 1;
        currentToken := tokens[index];
      } else {
        currentToken := End;
      }
      pos := Next(tokens, pos);
    }

    /** infixparse. */
    method Parse() returns (r: Result<Node, Grammar.SyntaxError>)
      requires Valid()
      modifies this
      ensures Valid() && old(pos) <= pos
      ensures Located(r, pos) == Grammar.Expression(tokens, old(pos))
      decreases |tokens| - pos, 4
    {
      r := ParseExpression();
    }

    /** infixparseExpression: a term, then `+`/`-` terms folded to the left. */
    method ParseExpression() returns (r: Result<Node, Grammar.SyntaxError>)
      requires Valid()
      modifies this
      ensures Valid() && old(pos) <= pos
      ensures Located(r, pos) == Grammar.Expression(tokens, old(pos))
      decreases |tokens| - pos, 3
    {
      var left :- ParseTerm();
      while IsAdditive(currentToken)
        invariant Valid() && old(pos) < pos
        invariant Grammar.ExpressionTail(tokens, left, pos) == Grammar.Expression(tokens, old(pos))
        decreases |tokens| - pos
      {
        var op := currentToken.text[0];
        NextToken();
        var right :- ParseTerm();
        left := BinaryOperation(op, left, right);
      }
      r := Ok(left);
    }

    /** infixparseTerm: a factor, then `*`/`/` factors folded to the left. */
    method ParseTerm() returns (r: Result<Node, Grammar.SyntaxError>)
      requires Valid()
      modifies this
      ensures Valid() && old(pos) <= pos
      ensures Located(r, pos) == Grammar.Term(tokens, old(pos))
      decreases |tokens| - pos, 2
    {
      var left :- ParseFactor();
      while IsMultiplicative(currentToken)
        invariant Valid() && old(pos) < pos
        invariant Grammar.TermTail(tokens, left, pos) == Grammar.Term(tokens, old(pos))
        decreases |tokens| - pos
      {
        var op := currentToken.text[0];
        NextToken();
        var right :- ParseFactor();
        left := BinaryOperation(op, left, right);
      }
      r := Ok(left);
    }

    /** infixparseFactor. */
    method ParseFactor() returns (r: Result<Node, Grammar.SyntaxError>)
      requires Valid()
      modifies this
      ensures Valid() && old(pos) <= pos
      ensures Located(r, pos) == Grammar.Factor(tokens, old(pos))
      decreases |tokens| - pos, 1
    {
      r := ParsePrimary();
    }

    /** infixparsePrimary. */
    method ParsePrimary() returns (r: Result<Node, Grammar.SyntaxError>)
      requires Valid()
      modifies this
      ensures Valid() && old(pos) <= pos
      ensures Located(r, pos) == Grammar.Primary(tokens, old(pos))
      decreases |tokens| - pos, 0
    {
      if currentToken.kind == NUMBER {
        var value := currentToken.value;
        NextToken();
        r := Ok(Number(value));
      } else if currentToken.kind == IDENTIFIER {
        var name := currentToken.text;
        NextToken();
        if currentToken.kind == ASSIGNMENT {
          NextToken();
          var e :- ParseExpression();
          r := Ok(Assignment(name, e));
        } else {
          r := Ok(Variable(name));
        }
      } else if currentToken.kind == LEFT_PAREN {
        NextToken();
        var e :- ParseExpression();
        if currentToken.kind == RIGHT_PAREN {
          NextToken();
          r := Ok(e);
        } else {
          r := Err(Grammar.UnexpectedAt(currentToken));
        }
      } else if currentToken.kind == RIGHT_PAREN {
        r := Err(Grammar.UnexpectedAt(currentToken));
      } else {
        r := Err(Grammar.UnexpectedAt(currentToken));
      }
    }
  }

  /** Construct a parser over `tokens` and run infixparse on it: the result is Grammar.Parse. */
  method ParseTokens(tokens: seq<Token>) returns (r: Result<Node, Grammar.SyntaxError>)
    requires |tokens| > 0
    ensures r == Grammar.Parse(tokens)
    ensures r.Ok? ==> ValidOps(r.value)
  {
    var parser := new InfixParser(tokens);
    r := parser.Parse();
  }
}
