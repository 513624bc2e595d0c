/** The tree-walking evaluator of infixParser.cpp (the `evaluate` methods of the node classes).
    Values are mathematical reals, the variable store is a map from names to values, and every
    evaluation returns the store as it stands afterwards: when an exception is thrown, the
    assignments already carried out stay in the store. */
module Evaluator {
  import opened Results
  import opened Ast

  type Store = map<string, real>

  /** UnknownIdentifierException, DivisionByZeroException and InvalidOperatorException. */
  datatype EvalError = UnknownIdentifier(name: string) | DivisionByZero | InvalidOperator

  /** The value (or the exception) and the store left behind. */
  datatype Evaluation = Evaluation(result: Result<real, EvalError>, store: Store)

  /** The `switch (op)` of BinaryOperation::evaluate. Division by exactly zero fails. */
  function Apply(op: char, a: real, b: real): (r: Result<real, EvalError>)
    ensures r == Err(InvalidOperator) <==> !IsArithmetic(op)
    ensures r == Err(DivisionByZero) <==> op == '/' && b == 0.0
    ensures r.Ok? || r == Err(InvalidOperator) || r == Err(DivisionByZero)
  {
    match op
    case '+' => Ok(a + b)
    case '-' => Ok(a - b)
    case '*' => Ok(a * b)
    case '/' => if b == 0.0 then Err(DivisionByZero) else Ok(a / b)
    case _ => Err(InvalidOperator)
  }

  /** Two stores agree on a set of names: the same names present, with the same values. */
  ghost predicate AgreeOn(s: Store, t: Store, names: set<string>)
  {
    forall x :: x in names ==> (x in s <==> x in t) && (x in s ==> s[x] == t[x])
  }

  /** Evaluate `n` against the store `s`. Only the names the tree assigns to can change, no name is
      ever removed, and a successful evaluation has assigned every one of them. */
  function Eval(n: Node, s: Store): (r: Evaluation)
    ensures s.Keys <= r.store.Keys <= s.Keys + Targets(n)
    ensures AgreeOn(s, r.store, s.Keys - Targets(n))
    ensures r.result.Ok? ==> Targets(n) <= r.store.Keys
  {
    match n
    case Number(v) => Evaluation(Ok(v), s)
    case Variable(x) =>
      if x in s then Evaluation(Ok(s[x]), s) else Evaluation(Err(UnknownIdentifier(x)), s)
    case BinaryOperation(op, l, r) =>
      var el := Eval(l, s);
      if el.result.Err? then el
      else
        var er := Eval(r, el.store);
        if er.result.Err? then er
        else Evaluation(Apply(op, el.result.value, er.result.value), er.store)
    case Assignment(x, e) =>
      var ee := Eval(e, s);
      if ee.result.Err? then ee
      else Evaluation(ee.result, ee.store[x := ee.result.value])
  }

  /** An assignment returns the value of its expression and stores it under its name; every other
      name keeps the value the expression's evaluation left it with. */
  lemma AssignmentStoresItsValue(x: string, e: Node, s: Store)
    requires Eval(e, s).result.Ok?
    ensures Eval(Assignment(x, e), s).result == Eval(e, s).result
    ensures Eval(Assignment(x, e), s).store == Eval(e, s).store[x := Eval(e, s).result.value]
    ensures Eval(Variable(x), Eval(Assignment(x, e), s).store) ==
            Evaluation(Eval(e, s).result, Eval(Assignment(x, e), s).store)
  {
  }

  /** A variable evaluates to its stored value when present and fails with UnknownIdentifier
      otherwise; either way the store is unchanged. */
  lemma VariableReadsStore(x: string, s: Store)
    ensures Eval(Variable(x), s).store == s
    ensures Eval(Variable(x), s).result == if x in s then Ok(s[x]) else Err(UnknownIdentifier(x))
  {
  }

  /** Both operands are always evaluated, left first: the right operand sees the store the left one
      left behind, and division fails with DivisionByZero exactly when the right value is 0. */
  lemma BinaryOperationOrder(op: char, l: Node, r: Node, s: Store)
    requires Eval(l, s).result.Ok? && Eval(r, Eval(l, s).store).result.Ok?
    ensures Eval(BinaryOperation(op, l, r), s).store == Eval(r, Eval(l, s).store).store
    ensures op == '/' ==>
      (Eval(BinaryOperation(op, l, r), s).result == Err(DivisionByZero) <==>
       Eval(r, Eval(l, s).store).result.value == 0.0)
    ensures var a, b := Eval(l, s).result.value, Eval(r, Eval(l, s).store).result.value;
      var v := Eval(BinaryOperation(op, l, r), s).result;
      && (op == '+' ==> v == Ok(a + b))
      && (op == '-' ==> v == Ok(a - b))
      && (op == '*' ==> v == Ok(a * b))
      && (op == '/' && b != 0.0 ==> v == Ok(a / b))
  {
  }

  /** The first exception ends the evaluation of a BinaryOperation: an exception in the left
      operand is the result (the right operand is never evaluated), and one in the right operand is
      the result with the store the left operand left behind. */
  lemma BinaryOperationFailure(op: char, l: Node, r: Node, s: Store)
    ensures Eval(l, s).result.Err? ==> Eval(BinaryOperation(op, l, r), s) == Eval(l, s)
    ensures Eval(l, s).result.Ok? && Eval(r, Eval(l, s).store).result.Err? ==>
      Eval(BinaryOperation(op, l, r), s) == Eval(r, Eval(l, s).store)
  {
  }

  /** The parser only builds the four operators, so their evaluation never reaches the
      InvalidOperator branch. */
  lemma {:induction false} NoInvalidOperator(n: Node, s: Store)
    requires ValidOps(n)
    ensures Eval(n, s).result != Err(InvalidOperator)
  {
    match n
    case Number(_) =>
    case Variable(_) =>
    case BinaryOperation(op, l, r) =>
      NoInvalidOperator(l, s);
      if Eval(l, s).result.Ok? {
        NoInvalidOperator(r, Eval(l, s).store);
      }
    case Assignment(_, e) =>
      NoInvalidOperator(e, s);
  }

  /** The names the tree reads. */
  function Reads(n: Node): set<string>
  {
    match n
    case Number(_) => {}
    case Variable(x) => {x}
    case BinaryOperation(_, l, r) => Reads(l) + Reads(r)
    case Assignment(_, e) => Reads(e)
  }

  /** Evaluation depends only on the names the tree reads: two stores that agree on a set of names
      containing them give the same result and still agree on those names afterwards, and after a
      success also on every name the tree assigned. */
  lemma {:induction false} EvalIsLocal(n: Node, s: Store, t: Store, names: set<string>)
    requires Reads(n) <= names && AgreeOn(s, t, names)
    ensures Eval(n, s).result == Eval(n, t).result
    ensures AgreeOn(Eval(n, s).store, Eval(n, t).store, names)
    ensures Eval(n, s).result.Ok? ==> AgreeOn(Eval(n, s).store, Eval(n, t).store, names + Targets(n))
  {
    match n
    case Number(_) =>
    case Variable(_) =>
    case BinaryOperation(op, l, r) =>
      EvalIsLocal(l, s, t, names);
      if Eval(l, s).result.Ok? {
        EvalIsLocal(r, Eval(l, s).store, Eval(l, t).store, names + Targets(l));
      }
    case Assignment(x, e) =>
      EvalIsLocal(e, s, t, names);
  }

  /** The variable store of a session, updated in place by assignments. */
  class SymbolTable {
    var entries: Store

    constructor (entries: Store)
      ensures this.entries == entries
    {
      this.entries := entries;
    }

    /** `node->evaluate(symbolTable)`: the result and the new store are those of Eval. */
    method Evaluate(n: Node) returns (r: Result<real, EvalError>)
      modifies this
      ensures Evaluation(r, entries) == Eval(n, old(entries))
      decreases n
    {
      match n
      case Number(v) =>
        r := Ok(v);
      case Variable(x) =>
        if x in entries {
          r := Ok(entries[x]);
        } else {
          r := Err(UnknownIdentifier(x));
        }
      case BinaryOperation(op, l, rt) =>
        var leftValue :- Evaluate(l);
        var rightValue :- Evaluate(rt);
        r := Apply(op, leftValue, rightValue);
      case Assignment(x, e) =>
        var result :- Evaluate(e);
        entries := entries[x := result];
        r := Ok(result);
    }
  }
}
