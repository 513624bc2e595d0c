/** What the printer and the parser promise about each other, and the precedence and associativity
    of unparenthesised chains. The printed text of a tree is described by its token sequence
    (TokensOf): the token sequence whose spelling is ToInfix's output (TokensSpellRendering). */
module RoundTrip {
  import opened Results
  import opened Tokens
  import opened Ast
  import opened Grammar
  import Printer

  function OperatorToken(op: char): Token { Token(OPERATOR, [op], 0, 0, 0.0) }
  const LeftParen: Token := Token(LEFT_PAREN, "(", 0, 0, 0.0)
  const RightParen: Token := Token(RIGHT_PAREN, ")", 0, 0, 0.0)
  const Equals: Token := Token(ASSIGNMENT, "=", 0, 0, 0.0)

  /** The tokens of the printed form of `n`; a number's token carries its value and the text `fmt`
      gives it. */
  function TokensOf(n: Node, fmt: real -> string): (ts: seq<Token>)
    ensures |ts| > 0
  {
    match n
    case Number(v) => [Token(NUMBER, fmt(v), 0, 0, v)]
    case Variable(x) => [Token(IDENTIFIER, x, 0, 0, 0.0)]
    case BinaryOperation(op, l, r) =>
      [LeftParen] + TokensOf(l, fmt) + [OperatorToken(op)] + TokensOf(r, fmt) + [RightParen]
    case Assignment(x, e) =>
      [LeftParen, Token(IDENTIFIER, x, 0, 0, 0.0), Equals] + TokensOf(e, fmt) + [RightParen]
  }

  /** How the printer spells a token: operators and `=` with one blank on each side. */
  function Lexeme(t: Token): string
  {
    if t.kind == OPERATOR || t.kind == ASSIGNMENT then " " + t.text + " " else t.text
  }

  function Spell(ts: seq<Token>): string
  {
    if ts == [] then "" else Lexeme(ts[0]) + Spell(ts[1..])
  }

  lemma {:induction false} SpellConcat(a: seq<Token>, b: seq<Token>)
    ensures Spell(a + b) == Spell(a) + Spell(b)
  {
    if a == [] {
      assert a + b == b;
    } else {
      assert (a + b)[1..] == a[1..] + b;
      SpellConcat(a[1..], b);
    }
  }

  lemma SpellFive(a: seq<Token>, b: seq<Token>, c: seq<Token>, d: seq<Token>, e: seq<Token>)
    ensures Spell(a + b + c + d + e) == Spell(a) + Spell(b) + Spell(c) + Spell(d) + Spell(e)
  {
    SpellConcat(a + b + c + d, e);
    SpellConcat(a + b + c, d);
    SpellConcat(a + b, c);
    SpellConcat(a, b);
  }

  /** The printed text is exactly the spelling of TokensOf. */
  lemma {:induction false} TokensSpellRendering(n: Node, fmt: real -> string)
    ensures Spell(TokensOf(n, fmt)) == Printer.ToInfix(n, fmt)
  {
    match n
    case Number(_) =>
    case Variable(_) =>
    case BinaryOperation(op, l, r) =>
      TokensSpellRendering(l, fmt);
      TokensSpellRendering(r, fmt);
      SpellBinary(op, TokensOf(l, fmt), TokensOf(r, fmt));
    case Assignment(x, e) =>
      TokensSpellRendering(e, fmt);
      SpellAssignment(x, TokensOf(e, fmt));
  }

  lemma SpellOne(t: Token)
    ensures Spell([t]) == Lexeme(t)
  {
    assert [t][1..] == [];
  }

  lemma SpellBinary(op: char, L: seq<Token>, R: seq<Token>)
    ensures Spell([LeftParen] + L + [OperatorToken(op)] + R + [RightParen]) ==
            "(" + Spell(L) + " " + [op] + " " + Spell(R) + ")"
  {
    SpellFive([LeftParen], L, [OperatorToken(op)], R, [RightParen]);
    SpellOne(LeftParen);
    SpellOne(RightParen);
    SpellOne(OperatorToken(op));
    assert Lexeme(OperatorToken(op)) == " " + [op] + " ";
    Regroup("(", Spell(L), " ", [op], " ", Spell(R), ")");
  }

  lemma Regroup(a: string, b: string, c: string, d: string, e: string, f: string, g: string)
    ensures a + b + (c + d + e) + f + g == a + b + c + d + e + f + g
  {
  }

  lemma SpellAssignment(x: string, E: seq<Token>)
    ensures Spell([LeftParen, Token(IDENTIFIER, x, 0, 0, 0.0), Equals] + E + [RightParen]) ==
            "(" + x + " = " + Spell(E) + ")"
  {
    var id := Token(IDENTIFIER, x, 0, 0, 0.0);
    SpellFive([LeftParen], [id], [Equals], E, [RightParen]);
    assert [LeftParen] + [id] + [Equals] == [LeftParen, id, Equals];
    SpellOne(LeftParen);
    SpellOne(RightParen);
    SpellOne(id);
    SpellOne(Equals);
    assert Lexeme(Equals) == " = " && Lexeme(id) == x;
    assert "(" + x + " = " + Spell(E) + ")" == Spell([LeftParen]) + Spell([id]) + Spell([Equals]) + Spell(E) + Spell([RightParen]);
  }

  /** Two tokens the parser cannot tell apart: same kind, and the same value (NUMBER) or the same
      text (every other kind). Line and column only ever reach error messages. */
  predicate SameLexeme(a: Token, b: Token)
  {
    a.kind == b.kind && (if a.kind == NUMBER then a.value == b.value else a.text == b.text)
  }

  /** Token p + i of ts and token i of the pattern exist and are indistinguishable. */
  ghost predicate Matches(ts: seq<Token>, p: nat, pattern: seq<Token>, i: nat)
  {
    p + i < |ts| && i < |pattern| && SameLexeme(ts[p + i], pattern[i])
  }

  /** The tokens from position p on begin with tokens indistinguishable from `pattern`. */
  ghost predicate At(ts: seq<Token>, p: nat, pattern: seq<Token>)
  {
    p + |pattern| <= |ts| && forall i :: 0 <= i < |pattern| ==> Matches(ts, p, pattern, i)
  }

  lemma AtConcat(ts: seq<Token>, p: nat, a: seq<Token>, b: seq<Token>)
    requires At(ts, p, a + b)
    ensures At(ts, p, a) && At(ts, p + |a|, b)
  {
    forall i | 0 <= i < |a| ensures Matches(ts, p, a, i) {
      assert Matches(ts, p, a + b, i);
      assert (a + b)[i] == a[i];
    }
    var q := p + |a|;
    forall i | 0 <= i < |b| ensures Matches(ts, q, b, i) {
      assert Matches(ts, p, a + b, |a| + i);
      assert (a + b)[|a| + i] == b[i];
    }
  }

  lemma AtCons(ts: seq<Token>, p: nat, t: Token, rest: seq<Token>)
    requires At(ts, p, [t] + rest)
    ensures p < |ts| && SameLexeme(Current(ts, p), t) && At(ts, p + 1, rest)
  {
    assert Matches(ts, p, [t] + rest, 0);
    assert ([t] + rest)[0] == t;
    var q := p + 1;
    forall i | 0 <= i < |rest| ensures Matches(ts, q, rest, i) {
      assert Matches(ts, p, [t] + rest, 1 + i);
      assert ([t] + rest)[1 + i] == rest[i];
    }
  }

  lemma Associate(a: seq<Token>, b: seq<Token>, c: seq<Token>)
    ensures a + b + c == a + (b + c)
  {
  }

  lemma AtSingle(ts: seq<Token>, q: nat, t: Token)
    requires At(ts, q, [t])
    ensures q < |ts| && SameLexeme(ts[q], t) && SameLexeme(Current(ts, q), t)
  {
    assert Matches(ts, q, [t], 0);
    assert [t][0] == t;
  }

  /** After a whole tree's tokens: the token there may follow an expression. */
  predicate EndsExpression(t: Token)
  {
    !IsAdditive(t) && !IsMultiplicative(t) && t.kind != ASSIGNMENT
  }

  /** The tokens of any tree with the four operators parse back as a primary. */
  lemma {:induction false} PrimaryRoundTrip(n: Node, fmt: real -> string, ts: seq<Token>, p: nat)
    requires ValidOps(n) && At(ts, p, TokensOf(n, fmt))
    requires Current(ts, p + |TokensOf(n, fmt)|).kind != ASSIGNMENT
    ensures Primary(ts, p) == Ok((n, p + |TokensOf(n, fmt)|))
    decreases n, 1
  {
    match n
    case Number(_) => LeafParses(n, fmt, ts, p);
    case Variable(_) => LeafParses(n, fmt, ts, p);
    case BinaryOperation(op, l, r) => BinaryRoundTrip(op, l, r, fmt, ts, p);
    case Assignment(x, e) => AssignmentRoundTrip(x, e, fmt, ts, p);
  }

  lemma {:induction false} BinaryRoundTrip(op: char, l: Node, r: Node, fmt: real -> string, ts: seq<Token>, p: nat)
    requires ValidOps(BinaryOperation(op, l, r)) && At(ts, p, TokensOf(BinaryOperation(op, l, r), fmt))
    ensures Primary(ts, p) == Ok((BinaryOperation(op, l, r), p + |TokensOf(BinaryOperation(op, l, r), fmt)|))
    decreases BinaryOperation(op, l, r), 0
  {
    var L, R := TokensOf(l, fmt), TokensOf(r, fmt);
    var T := [LeftParen] + L + [OperatorToken(op)] + R + [RightParen];
    assert TokensOf(BinaryOperation(op, l, r), fmt) == T;
    assert |T| == |L| + |R| + 3;
    var a := p + 1 + |L|;
    var b := a + 1 + |R|;
    AtBinary(ts, p, op, L, R);
    assert Current(ts, a).kind == OPERATOR && Current(ts, b).kind == RIGHT_PAREN;
    PrimaryRoundTrip(l, fmt, ts, p + 1);
    assert Primary(ts, p + 1) == Ok((l, a));
    PrimaryRoundTrip(r, fmt, ts, a + 1);
    assert Primary(ts, a + 1) == Ok((r, b));
    BinaryParses(op, l, r, ts, p, a, b);
  }

  lemma {:induction false} AssignmentRoundTrip(x: string, e: Node, fmt: real -> string, ts: seq<Token>, p: nat)
    requires ValidOps(e) && At(ts, p, TokensOf(Assignment(x, e), fmt))
    ensures Primary(ts, p) == Ok((Assignment(x, e), p + |TokensOf(Assignment(x, e), fmt)|))
    decreases Assignment(x, e), 0
  {
    var E := TokensOf(e, fmt);
    assert TokensOf(Assignment(x, e), fmt) == [LeftParen, Token(IDENTIFIER, x, 0, 0, 0.0), Equals] + E + [RightParen];
    AtAssignment(ts, p, x, E);
    ExpressionRoundTrip(e, fmt, ts, p + 3);
    AssignmentParses(x, e, ts, p, p + 3 + |E|);
  }

  /** A number or a name is one token, and parses as a primary on its own. */
  lemma LeafParses(n: Node, fmt: real -> string, ts: seq<Token>, p: nat)
    requires n.Number? || n.Variable?
    requires At(ts, p, TokensOf(n, fmt)) && Current(ts, p + 1).kind != ASSIGNMENT
    ensures |TokensOf(n, fmt)| == 1 && Primary(ts, p) == Ok((n, p + 1))
  {
    if n.Number? {
      AtSingle(ts, p, Token(NUMBER, fmt(n.value), 0, 0, n.value));
    } else {
      AtSingle(ts, p, Token(IDENTIFIER, n.name, 0, 0, 0.0));
    }
  }

  lemma AtBinary(ts: seq<Token>, p: nat, op: char, L: seq<Token>, R: seq<Token>)
    requires At(ts, p, [LeftParen] + L + [OperatorToken(op)] + R + [RightParen])
    ensures p + 3 + |L| + |R| <= |ts|
    ensures Current(ts, p).kind == LEFT_PAREN && At(ts, p + 1, L)
    ensures SameLexeme(Current(ts, p + 1 + |L|), OperatorToken(op)) && At(ts, p + 2 + |L|, R)
    ensures Current(ts, p + 2 + |L| + |R|).kind == RIGHT_PAREN
  {
    AtConcat(ts, p, [LeftParen] + L + [OperatorToken(op)] + R, [RightParen]);
    AtConcat(ts, p, [LeftParen] + L + [OperatorToken(op)], R);
    AtConcat(ts, p, [LeftParen] + L, [OperatorToken(op)]);
    AtConcat(ts, p, [LeftParen], L);
    AtSingle(ts, p, LeftParen);
    AtSingle(ts, p + 1 + |L|, OperatorToken(op));
    AtSingle(ts, p + 2 + |L| + |R|, RightParen);
  }

  lemma AtAssignment(ts: seq<Token>, p: nat, x: string, E: seq<Token>)
    requires At(ts, p, [LeftParen, Token(IDENTIFIER, x, 0, 0, 0.0), Equals] + E + [RightParen])
    ensures p + 4 + |E| <= |ts|
    ensures Current(ts, p).kind == LEFT_PAREN
    ensures SameLexeme(Current(ts, p + 1), Token(IDENTIFIER, x, 0, 0, 0.0))
    ensures Current(ts, p + 2).kind == ASSIGNMENT && At(ts, p + 3, E)
    ensures Current(ts, p + 3 + |E|).kind == RIGHT_PAREN
  {
    var pre := [LeftParen, Token(IDENTIFIER, x, 0, 0, 0.0), Equals];
    AtConcat(ts, p, pre + E, [RightParen]);
    AtConcat(ts, p, pre, E);
    assert Matches(ts, p, pre, 0) && Matches(ts, p, pre, 1) && Matches(ts, p, pre, 2);
    AtSingle(ts, p + 3 + |E|, RightParen);
  }

  /** `( l op r )` with l and r primaries parses to BinaryOperation(op, l, r) whatever the
      precedence of op. */
  lemma BinaryParses(op: char, l: Node, r: Node, ts: seq<Token>, p: nat, a: nat, b: nat)
    requires IsArithmetic(op) && p < a < b < |ts|
    requires Current(ts, p).kind == LEFT_PAREN
    requires SameLexeme(Current(ts, a), OperatorToken(op)) && Current(ts, b).kind == RIGHT_PAREN
    requires Primary(ts, p + 1) == Ok((l, a)) && Primary(ts, a + 1) == Ok((r, b))
    ensures Primary(ts, p) == Ok((BinaryOperation(op, l, r), b + 1))
  {
    var inner := BinaryOperation(op, l, r);
    assert Current(ts, a).text == [op];
    if op == '*' || op == '/' {
      assert IsMultiplicative(Current(ts, a));
      assert TermTail(ts, inner, b) == Ok((inner, b));
      assert TermTail(ts, l, a) == Ok((inner, b));
      assert Term(ts, p + 1) == Ok((inner, b));
      assert ExpressionTail(ts, inner, b) == Ok((inner, b));
    } else {
      assert IsAdditive(Current(ts, a)) && !IsMultiplicative(Current(ts, a));
      assert TermTail(ts, l, a) == Ok((l, a));
      assert Term(ts, p + 1) == Ok((l, a));
      assert TermTail(ts, r, b) == Ok((r, b));
      assert Term(ts, a + 1) == Ok((r, b));
      assert ExpressionTail(ts, inner, b) == Ok((inner, b));
      assert ExpressionTail(ts, l, a) == Ok((inner, b));
    }
    assert Expression(ts, p + 1) == Ok((inner, b));
  }

  /** `( x = e )` with e an expression ending before ")" parses to Assignment(x, e). */
  lemma AssignmentParses(x: string, e: Node, ts: seq<Token>, p: nat, c: nat)
    requires p + 3 <= c < |ts|
    requires Current(ts, p).kind == LEFT_PAREN
    requires SameLexeme(Current(ts, p + 1), Token(IDENTIFIER, x, 0, 0, 0.0))
    requires Current(ts, p + 2).kind == ASSIGNMENT && Current(ts, c).kind == RIGHT_PAREN
    requires Expression(ts, p + 3) == Ok((e, c))
    ensures Primary(ts, p) == Ok((Assignment(x, e), c + 1))
  {
    var inner := Assignment(x, e);
    assert Primary(ts, p + 1) == Ok((inner, c));
    assert TermTail(ts, inner, c) == Ok((inner, c));
    assert Term(ts, p + 1) == Ok((inner, c));
    assert ExpressionTail(ts, inner, c) == Ok((inner, c));
    assert Expression(ts, p + 1) == Ok((inner, c));
  }

  /** ... and as a whole expression, when followed by a token that ends one. */
  lemma {:induction false} ExpressionRoundTrip(n: Node, fmt: real -> string, ts: seq<Token>, p: nat)
    requires ValidOps(n) && At(ts, p, TokensOf(n, fmt))
    requires EndsExpression(Current(ts, p + |TokensOf(n, fmt)|))
    ensures Expression(ts, p) == Ok((n, p + |TokensOf(n, fmt)|))
    decreases n, 2
  {
    var q := p + |TokensOf(n, fmt)|;
    PrimaryRoundTrip(n, fmt, ts, p);
    assert TermTail(ts, n, q) == Ok((n, q));
    assert Term(ts, p) == Ok((n, q));
    assert ExpressionTail(ts, n, q) == Ok((n, q));
  }

  /** Printing and parsing back: the tokens of the printed form of any tree with the four operators
      parse to that very tree, and they spell exactly what both printers print. */
  lemma PrintThenParse(n: Node, fmt: real -> string)
    requires ValidOps(n)
    ensures Parse(TokensOf(n, fmt)) == Ok(n)
    ensures Printer.PrintInfix(n, fmt) == Printer.ToInfix(n, fmt) == Spell(TokensOf(n, fmt))
  {
    var T := TokensOf(n, fmt);
    assert At(T, 0, T);
    ExpressionRoundTrip(n, fmt, T, 0);
    TokensSpellRendering(n, fmt);
    Printer.PrintersAgree(n, fmt);
  }

  /** One print/parse cycle is stable: whatever the parser built parses back from its printed
      tokens to the same tree. */
  lemma ReparseIsStable(ts: seq<Token>, fmt: real -> string)
    requires |ts| > 0 && Parse(ts).Ok?
    ensures Parse(TokensOf(Parse(ts).value, fmt)) == Parse(ts)
  {
    PrintThenParse(Parse(ts).value, fmt);
  }

  /** An unparenthesised product `f0 op1 f1 ... opk fk`: each factor is any tree, written with
      TokensOf (so a compound factor appears in parentheses). */
  datatype Product = Product(first: Node, factors: seq<(char, Node)>)

  /** Fold a chain onto `acc` from the left: `((acc op1 n1) op2 n2) ...`. */
  function FoldLeft(acc: Node, links: seq<(char, Node)>): Node
    decreases |links|
  {
    if links == [] then acc else FoldLeft(BinaryOperation(links[0].0, acc, links[0].1), links[1..])
  }

  function ProductTree(m: Product): Node
  {
    FoldLeft(m.first, m.factors)
  }

  /** Fold a chain of products onto `acc` from the left. */
  function FoldSum(acc: Node, terms: seq<(char, Product)>): Node
    decreases |terms|
  {
    if terms == [] then acc else FoldSum(BinaryOperation(terms[0].0, acc, ProductTree(terms[0].1)), terms[1..])
  }

  function ChainTokens(links: seq<(char, Node)>, fmt: real -> string): seq<Token>
    decreases |links|
  {
    if links == [] then [] else [OperatorToken(links[0].0)] + TokensOf(links[0].1, fmt) + ChainTokens(links[1..], fmt)
  }

  function ProductTokens(m: Product, fmt: real -> string): seq<Token>
  {
    TokensOf(m.first, fmt) + ChainTokens(m.factors, fmt)
  }

  function SumTokens(terms: seq<(char, Product)>, fmt: real -> string): seq<Token>
    decreases |terms|
  {
    if terms == [] then [] else [OperatorToken(terms[0].0)] + ProductTokens(terms[0].1, fmt) + SumTokens(terms[1..], fmt)
  }

  predicate MultiplicativeChain(links: seq<(char, Node)>)
  {
    forall i :: 0 <= i < |links| ==> (links[i].0 == '*' || links[i].0 == '/') && ValidOps(links[i].1)
  }

  predicate ValidProduct(m: Product)
  {
    ValidOps(m.first) && MultiplicativeChain(m.factors)
  }

  predicate AdditiveChain(terms: seq<(char, Product)>)
  {
    forall i :: 0 <= i < |terms| ==> (terms[i].0 == '+' || terms[i].0 == '-') && ValidProduct(terms[i].1)
  }

  /** A non-empty chain starts with its operator's token. */
  lemma ChainStart(links: seq<(char, Node)>, fmt: real -> string, ts: seq<Token>, p: nat)
    requires links != [] && At(ts, p, ChainTokens(links, fmt))
    ensures SameLexeme(Current(ts, p), OperatorToken(links[0].0))
  {
    assert ChainTokens(links, fmt)[0] == OperatorToken(links[0].0);
    assert Matches(ts, p, ChainTokens(links, fmt), 0);
  }

  lemma SumStart(terms: seq<(char, Product)>, fmt: real -> string, ts: seq<Token>, p: nat)
    requires terms != [] && At(ts, p, SumTokens(terms, fmt))
    ensures SameLexeme(Current(ts, p), OperatorToken(terms[0].0))
  {
    assert SumTokens(terms, fmt)[0] == OperatorToken(terms[0].0);
    assert Matches(ts, p, SumTokens(terms, fmt), 0);
  }

  /** The `* /` loop folds a multiplicative chain to the left. */
  lemma {:induction false} TermTailFoldsLeft(acc: Node, links: seq<(char, Node)>, fmt: real -> string, ts: seq<Token>, p: nat)
    requires MultiplicativeChain(links) && At(ts, p, ChainTokens(links, fmt))
    requires !IsMultiplicative(Current(ts, p + |ChainTokens(links, fmt)|))
    requires Current(ts, p + |ChainTokens(links, fmt)|).kind != ASSIGNMENT
    ensures TermTail(ts, acc, p) == Ok((FoldLeft(acc, links), p + |ChainTokens(links, fmt)|))
    decreases |links|
  {
    if links == [] {
      TermTailStops(ts, acc, p);
    } else {
      var op, n := links[0].0, links[0].1;
      var q := p + 1 + |TokensOf(n, fmt)|;
      ChainHead(links, fmt, ts, p);
      ChainLength(links, fmt);
      MultiplicativeChainTail(links);
      if links[1..] != [] {
        ChainStart(links[1..], fmt, ts, q);
      }
      PrimaryRoundTrip(n, fmt, ts, p + 1);
      TermTailStep(acc, n, ts, p, q);
      TermTailFoldsLeft(BinaryOperation(op, acc, n), links[1..], fmt, ts, q);
      assert FoldLeft(acc, links) == FoldLeft(BinaryOperation(op, acc, n), links[1..]);
    }
  }

  /** A non-empty chain splits into its operator, its first operand and the rest of the chain. */
  lemma {:induction false} ChainHead(links: seq<(char, Node)>, fmt: real -> string, ts: seq<Token>, p: nat)
    requires links != [] && MultiplicativeChain(links) && At(ts, p, ChainTokens(links, fmt))
    ensures IsMultiplicative(Current(ts, p)) && Current(ts, p).text == [links[0].0]
    ensures At(ts, p + 1, TokensOf(links[0].1, fmt))
    ensures At(ts, p + 1 + |TokensOf(links[0].1, fmt)|, ChainTokens(links[1..], fmt))
  {
    var op, N, rest := links[0].0, TokensOf(links[0].1, fmt), ChainTokens(links[1..], fmt);
    Associate([OperatorToken(op)], N, rest);
    AtCons(ts, p, OperatorToken(op), N + rest);
    AtConcat(ts, p + 1, N, rest);
    assert op == '*' || op == '/';
  }

  lemma MultiplicativeChainTail(links: seq<(char, Node)>)
    requires links != [] && MultiplicativeChain(links)
    ensures ValidOps(links[0].1) && MultiplicativeChain(links[1..])
  {
    forall i | 0 <= i < |links[1..]| ensures links[1..][i] == links[i + 1] { }
  }

  lemma ChainLength(links: seq<(char, Node)>, fmt: real -> string)
    requires links != []
    ensures |ChainTokens(links, fmt)| == 1 + |TokensOf(links[0].1, fmt)| + |ChainTokens(links[1..], fmt)|
  {
  }

  /** The `* /` loop stops at once at a token that is not a multiplicative operator. */
  lemma TermTailStops(ts: seq<Token>, acc: Node, p: nat)
    requires p <= |ts| && !IsMultiplicative(Current(ts, p))
    ensures TermTail(ts, acc, p) == Ok((acc, p))
  {
  }

  /** One turn of the `* /` loop. */
  lemma TermTailStep(acc: Node, right: Node, ts: seq<Token>, p: nat, q: nat)
    requires p < |ts| && IsMultiplicative(Current(ts, p)) && Factor(ts, p + 1) == Ok((right, q))
    ensures TermTail(ts, acc, p) == TermTail(ts, BinaryOperation(Current(ts, p).text[0], acc, right), q)
  {
  }

  /** A product parses as a term to its left-folded tree. */
  lemma TermFoldsLeft(m: Product, fmt: real -> string, ts: seq<Token>, p: nat)
    requires ValidProduct(m) && At(ts, p, ProductTokens(m, fmt))
    requires !IsMultiplicative(Current(ts, p + |ProductTokens(m, fmt)|))
    requires Current(ts, p + |ProductTokens(m, fmt)|).kind != ASSIGNMENT
    ensures Term(ts, p) == Ok((ProductTree(m), p + |ProductTokens(m, fmt)|))
  {
    var F, rest := TokensOf(m.first, fmt), ChainTokens(m.factors, fmt);
    AtConcat(ts, p, F, rest);
    if m.factors != [] {
      ChainStart(m.factors, fmt, ts, p + |F|);
    }
    PrimaryRoundTrip(m.first, fmt, ts, p);
    TermTailFoldsLeft(m.first, m.factors, fmt, ts, p + |F|);
  }

  /** The `+ -` loop folds an additive chain of products to the left. */
  lemma {:induction false} ExpressionTailFoldsLeft(acc: Node, terms: seq<(char, Product)>, fmt: real -> string, ts: seq<Token>, p: nat)
    requires AdditiveChain(terms) && At(ts, p, SumTokens(terms, fmt))
    requires EndsExpression(Current(ts, p + |SumTokens(terms, fmt)|))
    ensures ExpressionTail(ts, acc, p) == Ok((FoldSum(acc, terms), p + |SumTokens(terms, fmt)|))
    decreases |terms|
  {
    if terms == [] {
      ExpressionTailStops(ts, acc, p);
    } else {
      var op, m := terms[0].0, terms[0].1;
      var q := p + 1 + |ProductTokens(m, fmt)|;
      SumHead(terms, fmt, ts, p);
      SumLength(terms, fmt);
      AdditiveChainTail(terms);
      SumFollower(terms[1..], fmt, ts, q);
      TermFoldsLeft(m, fmt, ts, p + 1);
      ExpressionTailStep(acc, ProductTree(m), ts, p, q);
      ExpressionTailFoldsLeft(BinaryOperation(op, acc, ProductTree(m)), terms[1..], fmt, ts, q);
      assert FoldSum(acc, terms) == FoldSum(BinaryOperation(op, acc, ProductTree(m)), terms[1..]);
    }
  }

  lemma SumLength(terms: seq<(char, Product)>, fmt: real -> string)
    requires terms != []
    ensures |SumTokens(terms, fmt)| == 1 + |ProductTokens(terms[0].1, fmt)| + |SumTokens(terms[1..], fmt)|
  {
  }

  /** The `+ -` loop stops at once at a token that is not an additive operator. */
  lemma ExpressionTailStops(ts: seq<Token>, acc: Node, p: nat)
    requires p <= |ts| && !IsAdditive(Current(ts, p))
    ensures ExpressionTail(ts, acc, p) == Ok((acc, p))
  {
  }

  /** A non-empty sum splits into its operator, its first product and the rest of the sum. */
  lemma {:induction false} SumHead(terms: seq<(char, Product)>, fmt: real -> string, ts: seq<Token>, p: nat)
    requires terms != [] && AdditiveChain(terms) && At(ts, p, SumTokens(terms, fmt))
    ensures IsAdditive(Current(ts, p)) && Current(ts, p).text == [terms[0].0]
    ensures At(ts, p + 1, ProductTokens(terms[0].1, fmt))
    ensures At(ts, p + 1 + |ProductTokens(terms[0].1, fmt)|, SumTokens(terms[1..], fmt))
  {
    var op, M, rest := terms[0].0, ProductTokens(terms[0].1, fmt), SumTokens(terms[1..], fmt);
    Associate([OperatorToken(op)], M, rest);
    AtCons(ts, p, OperatorToken(op), M + rest);
    AtConcat(ts, p + 1, M, rest);
    assert op == '+' || op == '-';
  }

  lemma AdditiveChainTail(terms: seq<(char, Product)>)
    requires terms != [] && AdditiveChain(terms)
    ensures ValidProduct(terms[0].1) && AdditiveChain(terms[1..])
  {
    forall i | 0 <= i < |terms[1..]| ensures terms[1..][i] == terms[i + 1] { }
  }

  /** What follows a product inside a sum can end a term. */
  lemma SumFollower(terms: seq<(char, Product)>, fmt: real -> string, ts: seq<Token>, q: nat)
    requires AdditiveChain(terms) && At(ts, q, SumTokens(terms, fmt))
    requires EndsExpression(Current(ts, q + |SumTokens(terms, fmt)|))
    ensures !IsMultiplicative(Current(ts, q)) && Current(ts, q).kind != ASSIGNMENT
  {
    if terms != [] {
      SumStart(terms, fmt, ts, q);
      var op := terms[0].0;
      assert op == '+' || op == '-';
      assert Current(ts, q).text == [op];
    }
  }

  /** One turn of the `+ -` loop. */
  lemma ExpressionTailStep(acc: Node, right: Node, ts: seq<Token>, p: nat, q: nat)
    requires p < |ts| && IsAdditive(Current(ts, p)) && Term(ts, p + 1) == Ok((right, q))
    ensures ExpressionTail(ts, acc, p) == ExpressionTail(ts, BinaryOperation(Current(ts, p).text[0], acc, right), q)
  {
  }

  /** Precedence and associativity: tokens that read as an unparenthesised sum of products parse
      to the left fold of the left-folded products, whatever follows that cannot continue the
      expression. So `1 - 2 - 3` is `((1 - 2) - 3)`, `2 + 3 * 4` is `(2 + (3 * 4))` and `2 * 3 + 4`
      is `((2 * 3) + 4)`. */
  lemma SumOfProductsParses(head: Product, terms: seq<(char, Product)>, fmt: real -> string, ts: seq<Token>)
    requires ValidProduct(head) && AdditiveChain(terms)
    requires At(ts, 0, ProductTokens(head, fmt) + SumTokens(terms, fmt))
    requires EndsExpression(Current(ts, |ProductTokens(head, fmt) + SumTokens(terms, fmt)|))
    ensures Expression(ts, 0) == Ok((FoldSum(ProductTree(head), terms), |ProductTokens(head, fmt) + SumTokens(terms, fmt)|))
    ensures |ts| > 0 && Parse(ts) == Ok(FoldSum(ProductTree(head), terms))
  {
    var H, S := ProductTokens(head, fmt), SumTokens(terms, fmt);
    assert |TokensOf(head.first, fmt)| > 0;
    AtConcat(ts, 0, H, S);
    SumFollower(terms, fmt, ts, |H|);
    TermFoldsLeft(head, fmt, ts, 0);
    ExpressionTailFoldsLeft(ProductTree(head), terms, fmt, ts, |H|);
  }
}
