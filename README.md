# Infix expression core in Dafny

A model of `src/lib/infixParser.cpp`, the core of a small calculator language. It has three parts:

- **Recursive-descent parser.** It turns the lexer's tokens into a syntax tree over four
  precedence levels: expression (`+ -`), term (`* /`), factor and primary. A primary is a number,
  an identifier with an optional `= expression`, or `( expression )`. The parser reads through a
  forward-only cursor that yields an END sentinel (`OPERATOR "END"`, line 0, column 0) once the
  tokens are used up.
- **Tree-walking evaluator.** It evaluates a tree against a mutable name → value store.
  Assignment writes to the store. Evaluation fails with UnknownIdentifier, DivisionByZero or
  InvalidOperator.
- **Two printers.** The virtual `toInfix` methods and `printInfix` both render a tree fully
  parenthesised.

Files (one module each):

| file | module | contents |
|---|---|---|
| `results.dfy` | `Results` | the `Result` type used for exceptions |
| `tokens.dfy` | `Tokens` | tokens, the END sentinel, the cursor (`Current`, `Next`), the operator tests of the two loops |
| `ast.dfy` | `Ast` | the closed tree `Number | Variable | BinaryOperation | Assignment` |
| `grammar.dfy` | `Grammar` | the grammar as functions that thread the cursor position; error positions; assignment chaining |
| `parser.dfy` | `InfixParsing` | the `InfixParser` class (fields `tokens`, `index`, `currentToken`) with `NextToken` and one method per level, each with its `while` loop; every method is proved equal to its Grammar function |
| `evaluator.dfy` | `Evaluator` | `Eval` on an explicit store; the `SymbolTable` class whose `Evaluate` updates its map in place and is proved equal to `Eval` |
| `printer.dfy` | `Printer` | `ToInfix`, `PrintInfix`, their agreement, balanced parentheses |
| `roundtrip.dfy` | `RoundTrip` | printed trees parse back; precedence and left-association as a theorem over sums of products |
| `examples.dfy` | `Examples` | behaviours of the expression language on concrete token lists |

Modelling choices:

- **Cursor.** The class keeps the source's `index` and `currentToken`, plus a ghost position
  `pos` in `0..|tokens|`. Position `|tokens|` means the current token is END.
- **Numbers.** Numbers are mathematical reals. A NUMBER token carries its value, which stands for
  `std::stod` of its text.
- **Store.** The store is a `map<string, real>`. An evaluation returns the result together with
  the store as it stands afterwards. When an exception is raised, the assignments already made
  stay in the store, as they do in the source's shared map.
- **Printed numbers.** Both printers take the number formatting as a parameter
  `fmt: real -> string`. It stands for writing a double to a `std::ostringstream`.
- **Round trip.** The tokens of a printed tree are modelled directly (`RoundTrip.TokensOf`); a
  number's token carries the number itself. Tokens are compared by kind and by value (numbers) or
  text (everything else), ignoring line and column.

## Model

| member | source | states |
|---|---|---|
| Tokens.OperatorTests | src/lib/infixParser.cpp:84 | The `+ -` loop test accepts exactly an OPERATOR token whose text is "+" or "-"; likewise the `* /` test for "*" or "/" (line 106). |
| Tokens.Next | src/lib/infixParser.cpp:67-75 | One cursor step advances by exactly one position until the END position and then stays there; InfixParser.NextToken is proved to move its ghost cursor by this function. |
| Tokens.Current | src/lib/infixParser.cpp:73 | The token under the cursor, END past the last token (no contract of its own; InfixParser.Valid ties `currentToken` to it, and NextToken's ensures state both branches). |
| Grammar.Expression | src/lib/infixParser.cpp:81-92 | A successful expression consumes at least one token, stops within the tokens, and builds only the four operators. It stops at a token that is neither additive nor multiplicative. |
| Grammar.ExpressionTail | src/lib/infixParser.cpp:84-89 | The `+ -` loop never moves the cursor back and stops at a non-additive token. It keeps the four-operator property of the tree it extends. |
| Grammar.Term | src/lib/infixParser.cpp:103-114 | A successful term consumes at least one token, builds only the four operators, and stops at a token that is not `*` or `/`. |
| Grammar.TermTail | src/lib/infixParser.cpp:106-111 | The `* /` loop never moves the cursor back, stops at a non-multiplicative token, and keeps the four-operator property. |
| Grammar.Factor | src/lib/infixParser.cpp:116-118 | A factor is a primary: it consumes at least one token and builds only the four operators. |
| Grammar.Primary | src/lib/infixParser.cpp:121-153 | A RIGHT_PAREN, an OPERATOR (END included) or an ASSIGNMENT token in primary position fails with UnexpectedToken carrying that token's text, line and column. A success consumes at least one token. |
| Grammar.Parse | src/lib/infixParser.cpp:77-79 | infixparse is the expression from the first token; every tree it returns has only `+ - * /` as operators. |
| Grammar.ExpressionShift | src/lib/infixParser.cpp:67-75 | Parsing looks only forward: prefixing the tokens shifts every result position by the prefix length and changes nothing else. |
| Grammar.PrimaryShift | src/lib/infixParser.cpp:121-153 | The same forward-only property for a primary. |
| Grammar.ExpressionBlames | src/lib/infixParser.cpp:146-151 | Every syntax error of an expression names a token at or after the position where parsing began, or the END sentinel. |
| Grammar.PrimaryBlames | src/lib/infixParser.cpp:137-152 | Every syntax error of a primary names a token at or after its start, or the END sentinel. |
| Grammar.AssignmentTakesWholeExpression | src/lib/infixParser.cpp:127-136 | `x = rest` parses to `Assignment(x, e)` exactly when `rest` parses to `e`, ending two tokens later; otherwise it fails with the same error. |
| Grammar.UnclosedParenthesis | src/lib/infixParser.cpp:137-147 | A `(` whose expression is not followed by `)` fails at the token found there, which is END when the tokens ran out. |
| InfixParsing.InfixParser.constructor | src/lib/infixParser.cpp:60-65 | The cursor starts at index 0 on the first token. |
| InfixParsing.InfixParser.NextToken | src/lib/infixParser.cpp:67-75 | `index` grows by one while below `|tokens| - 1`; otherwise it stays and the current token becomes END. The index never decreases, and once at END the cursor stays at END. |
| InfixParsing.InfixParser.Parse | src/lib/infixParser.cpp:77-79 | infixparse returns what Grammar.Expression returns from the cursor, and leaves the cursor where that parse ends. |
| InfixParsing.InfixParser.ParseExpression | src/lib/infixParser.cpp:81-92 | The method with its `while` loop computes Grammar.Expression from the starting cursor, including its errors, and leaves the cursor at the end of that parse. |
| InfixParsing.InfixParser.ParseTerm | src/lib/infixParser.cpp:103-114 | The method with its `while` loop computes Grammar.Term from the starting cursor. |
| InfixParsing.InfixParser.ParseFactor | src/lib/infixParser.cpp:116-118 | Computes Grammar.Factor from the starting cursor. |
| InfixParsing.InfixParser.ParsePrimary | src/lib/infixParser.cpp:121-153 | Computes Grammar.Primary from the starting cursor, with every error branch. |
| InfixParsing.ParseTokens | src/lib/infixParser.cpp:60-79 | A fresh parser over non-empty tokens returns Grammar.Parse of them, a tree with only the four operators. |
| Evaluator.Eval | src/lib/infixParser.cpp:11-45 | Evaluation never removes a name. It changes only names the tree assigns to, and after a success every one of them is set. |
| Evaluator.Apply | src/lib/infixParser.cpp:33-44 | The `switch (op)` fails with InvalidOperator exactly for a character other than `+ - * /`, with DivisionByZero exactly for `/` by 0, and otherwise succeeds; the arithmetic results are stated in BinaryOperationOrder, and NoInvalidOperator shows parsed trees never reach the default case. |
| Evaluator.AssignmentStoresItsValue | src/lib/infixParser.cpp:11-15 | An assignment returns its expression's value and stores it under its name; every other entry keeps what the expression left. Reading the name back gives that value. |
| Evaluator.VariableReadsStore | src/lib/infixParser.cpp:17-23 | A variable gives its stored value when present and UnknownIdentifier otherwise; the store is unchanged either way. |
| Evaluator.BinaryOperationOrder | src/lib/infixParser.cpp:29-41 | The right operand sees the store the left one left behind. `+ - * /` give the arithmetic result, and `/` fails with DivisionByZero exactly when the right value is 0. |
| Evaluator.BinaryOperationFailure | src/lib/infixParser.cpp:29-31 | An exception in the left operand is the outcome, and the right operand is never evaluated. An exception in the right operand is the outcome with the store the left operand left. |
| Evaluator.NoInvalidOperator | src/lib/infixParser.cpp:42-43 | A tree with only the four operators never fails with InvalidOperator. |
| Evaluator.EvalIsLocal | src/lib/infixParser.cpp:11-45 | Two stores that agree on every name the tree reads give the same result, and still agree on those names afterwards. |
| Evaluator.SymbolTable.Evaluate | src/lib/infixParser.cpp:11-45 | Evaluating against the table's map, updated in place, gives Eval's result and leaves the map Eval returns, also when an exception ends the evaluation. |
| Printer.ToInfix | src/lib/infixParser.cpp:25-58 | The virtual `toInfix` methods (Assignment, BinaryOperation, Number with the formatting `fmt`); their properties are stated by PrintersAgree, RenderingIsBalanced and RoundTrip.TokensSpellRendering. |
| Printer.PrintInfix | src/lib/infixParser.cpp:155-174 | `printInfix`, trying BinaryOperation, Number, Assignment and Variable in that order; PrintersAgree proves it equal to ToInfix for every tree, so RenderingIsBalanced and RoundTrip.PrintThenParse cover it too. |
| Printer.PrintersAgree | src/lib/infixParser.cpp:155-171 | `printInfix` and `toInfix` produce the same text for every tree. |
| Printer.RenderingIsBalanced | src/lib/infixParser.cpp:47-51 | The rendering of a four-operator tree, with names and numbers free of parentheses, is balanced. It has exactly one `(` per BinaryOperation or Assignment node. |
| RoundTrip.TokensSpellRendering | src/lib/infixParser.cpp:25-51 | The text `toInfix` prints for any tree is exactly the spelling of the token list TokensOf gives for it. |
| RoundTrip.PrimaryRoundTrip | src/lib/infixParser.cpp:137-144 | The tokens of any four-operator tree parse back as a primary to the same tree, consuming exactly those tokens. |
| RoundTrip.ExpressionRoundTrip | src/lib/infixParser.cpp:81-92 | The same tokens parse back as a whole expression when the next token cannot continue one. |
| RoundTrip.PrintThenParse | src/lib/infixParser.cpp:155-171 | For every four-operator tree, parsing its printed tokens gives the tree back, and both printers spell exactly those tokens. |
| RoundTrip.ReparseIsStable | src/lib/infixParser.cpp:77-79 | Re-parsing the printed form of any successful parse gives the same tree. |
| RoundTrip.BinaryParses | src/lib/infixParser.cpp:137-144 | `( l op r )` parses to BinaryOperation(op, l, r), whatever the precedence of op. |
| RoundTrip.AssignmentParses | src/lib/infixParser.cpp:127-136 | `( x = e )` parses to Assignment(x, e). |
| RoundTrip.TermTailFoldsLeft | src/lib/infixParser.cpp:106-111 | The `* /` loop folds a chain of operators and operands to the left, consuming exactly its tokens. |
| RoundTrip.TermFoldsLeft | src/lib/infixParser.cpp:103-114 | A product parses as a term to its left-folded tree. |
| RoundTrip.ExpressionTailFoldsLeft | src/lib/infixParser.cpp:84-89 | The `+ -` loop folds a chain of products to the left, consuming exactly its tokens. |
| RoundTrip.SumOfProductsParses | src/lib/infixParser.cpp:81-114 | Precedence and associativity: tokens reading as an unparenthesised sum of products parse to the left fold of the left-folded products. |
| Examples.LeftAssociativeSubtraction | src/lib/infixParser.cpp:84-89 | `1 - 2 - 3` parses to `((1 - 2) - 3)` and evaluates to -4. |
| Examples.MultiplicationBindsTighter | src/lib/infixParser.cpp:103-114 | `2 + 3 * 4` parses to `(2 + (3 * 4))` and evaluates to 14. |
| Examples.ParenthesesOverridePrecedence | src/lib/infixParser.cpp:137-144 | `(2 + 3) * 4` parses to `((2 + 3) * 4)` and evaluates to 20. |
| Examples.AssignmentPersists | src/lib/infixParser.cpp:11-15 | `x = 5` yields 5 and stores x; `x + 1` against that store then yields 6. |
| Examples.UnknownIdentifierFails | src/lib/infixParser.cpp:17-23 | `y + 1` parses to `(y + 1)`, and against an empty store fails with UnknownIdentifier("y"), leaving the store empty. |
| Examples.DivisionByZeroFails | src/lib/infixParser.cpp:37-40 | `4 / 0` parses and fails with DivisionByZero. |
| Examples.UnbalancedParenthesisFails | src/lib/infixParser.cpp:145-147 | `(1 + 2` fails with UnexpectedToken("END", 0, 0). |
| Examples.ChainedAssignment | src/lib/infixParser.cpp:127-136 | `a = b = 3` parses to `Assignment(a, Assignment(b, 3))`, yields 3 and sets both a and b to 3. |
| Examples.TwoAssignmentsParse | src/lib/infixParser.cpp:137-144 | `(a = 1) + (a = 2)` parses to the sum of two assignments. |
| Examples.LeftOperandFirst | src/lib/infixParser.cpp:29-31 | `(a = 1) + (a = 2)` yields 3 and leaves a = 2. |
| Examples.AssignmentSurvivesLaterError | src/lib/infixParser.cpp:11-13 | `(a = 1) + y` against an empty store fails with UnknownIdentifier("y") and leaves a = 1 in the store. |
| Examples.TrailingTokensIgnored | src/lib/infixParser.cpp:77-79 | `1 2` parses to the number 1: tokens after a complete expression are not looked at. |

## Left out

- Floating point: values are reals, so IEEE rounding, infinities and NaN are not modelled.
- `std::stod`: a NUMBER token carries its value directly.
- `std::ostringstream`: the number formatting of both printers is the parameter `fmt`. Its
  default six significant digits can print a number that reads back as a different value. The
  round trip is therefore stated on tokens that carry the exact value, not on re-lexed text.
- The lexer and any driver are not part of this model. Neither are `std::cout` or `exit(4)` in
  `printInfix`; the closed tree type makes that branch unreachable.
- Manual memory management (the destructors and the `new` calls) has no counterpart over an
  immutable datatype.
- The global `symbolTable` is a value passed to `Eval`, or the `SymbolTable` object. The parser's
  own `symbolTable` reference is never used while parsing and is left out.
- The exception classes' internals and the header's `Token` and `TokenType` definitions are not
  part of this model. Exceptions are the `SyntaxError` and `EvalError` values; tokens are a
  datatype with kind, text, line, column and value.
- The empty token vector: `tokens.size() - 1` underflows and the current token is never set, so
  the constructor and `ParseTokens` require at least one token.

Behaviour worth noting:

- The code has two printers, `toInfix` and `printInfix`. Both are modelled, and they are proved
  to agree.
- When an exception ends an evaluation, the assignments already carried out stay in the store.
- The round trip goes through tokens rather than through re-lexing the printed text.
