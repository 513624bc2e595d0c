/** The closed syntax tree the parser builds and the evaluator and printers consume. */
module Ast {

  /** Number, Variable, BinaryOperation and Assignment nodes. */
  datatype Node =
    | Number(value: real)
    | Variable(name: string)
    | BinaryOperation(op: char, left: Node, right: Node)
    | Assignment(variableName: string, expression: Node)

  /** The four operator characters the grammar knows. */
  predicate IsArithmetic(c: char)
  {
    c == '+' || c == '-' || c == '*' || c == '/'
  }

  /** Every BinaryOperation in the tree carries one of the four operators. */
  predicate ValidOps(n: Node)
  {
    match n
    case Number(_) => true
    case Variable(_) => true
    case BinaryOperation(op, l, r) => IsArithmetic(op) && ValidOps(l) && ValidOps(r)
    case Assignment(_, e) => ValidOps(e)
  }

  /** The names the tree assigns to. */
  function Targets(n: Node): set<string>
  {
    match n
    case Number(_) => {}
    case Variable(_) => {}
    case BinaryOperation(_, l, r) => Targets(l) + Targets(r)
    case Assignment(x, e) => {x} + Targets(e)
  }

  /** The number of BinaryOperation and Assignment nodes. */
  function InnerNodes(n: Node): nat
  {
    match n
    case Number(_) => 0
    case Variable(_) => 0
    case BinaryOperation(_, l, r) => 1 + InnerNodes(l) + InnerNodes(r)
    case Assignment(_, e) => 1 + InnerNodes(e)
  }
}
