/** Tokens handed over by the lexer, and the parser's forward-only cursor over them. */
module Tokens {

  /** The lexer's token categories (TokenType in the C++ header). */
  datatype TokenType = NUMBER | IDENTIFIER | OPERATOR | ASSIGNMENT | LEFT_PAREN | RIGHT_PAREN

  /** A token. `value` is the number a NUMBER token denotes (what std::stod makes of `text`);
      it is 0.0 for every other kind. */
  datatype Token = Token(kind: TokenType, text: string, line: int, column: int, value: real)

  /** The sentinel the cursor yields once it has moved past the last token. */
  const End: Token := Token(OPERATOR, "END", 0, 0, 0.0)

  /** The token under the cursor: position |ts| stands for "past the last token". */
  function Current(ts: seq<Token>, p: nat): Token
  {
    if p < |ts| then ts[p] else End
  }

  /** The cursor position after one step; the cursor never moves past the sentinel. */
  function Next(ts: seq<Token>, p: nat): (q: nat)
    requires p <= |ts|
    ensures p <= q <= |ts| && q <= p + 1
    ensures q == p <==> p == |ts|
  {
    if p < |ts| then p + 1 else p
  }

  /** The test of the `+ -` loop: an OPERATOR token of one character, '+' or '-'. */
  predicate IsAdditive(t: Token)
  {
    t.kind == OPERATOR && |t.text| == 1 && (t.text[0] == '+' || t.text[0] == '-')
  }

  /** The test of the `* /` loop: an OPERATOR token of one character, '*' or '/'. */
  predicate IsMultiplicative(t: Token)
  {
    t.kind == OPERATOR && |t.text| == 1 && (t.text[0] == '*' || t.text[0] == '/')
  }

  /** The two tests are the source's comparisons of the token text with "+", "-", "*" and "/". */
  lemma OperatorTests(t: Token)
    ensures IsAdditive(t) <==> t.kind == OPERATOR && (t.text == "+" || t.text == "-")
    ensures IsMultiplicative(t) <==> t.kind == OPERATOR && (t.text == "*" || t.text == "/")
  {
    if |t.text| == 1 {
      assert t.text == [t.text[0]];
    }
  }
}
