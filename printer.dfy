/** The two printers of infixParser.cpp: the virtual `toInfix` methods and `printInfix`, which picks
    the rendering by testing the node's class. Numbers are rendered by `fmt`, which stands for
    writing the double to a std::ostringstream. */
module Printer {
  import opened Ast

  /** `node->toInfix()`: one case per node class. */
  function ToInfix(n: Node, fmt: real -> string): string
  {
    match n
    case Number(v) => fmt(v)
    case Variable(x) => x
    case BinaryOperation(op, l, r) => "(" + ToInfix(l, fmt) + " " + [op] + " " + ToInfix(r, fmt) + ")"
    case Assignment(x, e) => "(" + x + " = " + ToInfix(e, fmt) + ")"
  }

  /** `printInfix(node)`: tests for BinaryOperation, Number, Assignment and Variable in that order.
      The source's last branch (any other class: print and exit) cannot be reached by a closed
      datatype. */
  function PrintInfix(n: Node, fmt: real -> string): string
  {
    if n.BinaryOperation? then
      "(" + PrintInfix(n.left, fmt) + " " + [n.op] + " " + PrintInfix(n.right, fmt) + ")"
    else if n.Number? then
      fmt(n.value)
    else if n.Assignment? then
      "(" + n.variableName + " = " + PrintInfix(n.expression, fmt) + ")"
    else
      n.name
  }

  /** The two printers produce the same text for every tree. */
  lemma {:induction false} PrintersAgree(n: Node, fmt: real -> string)
    ensures PrintInfix(n, fmt) == ToInfix(n, fmt)
  {
    match n
    case Number(_) =>
    case Variable(_) =>
    case BinaryOperation(_, l, r) =>
      PrintersAgree(l, fmt);
      PrintersAgree(r, fmt);
    case Assignment(_, e) =>
      PrintersAgree(e, fmt);
  }

  /** The number of occurrences of `c` in `s`. */
  function Count(s: string, c: char): nat
  {
    if s == [] then 0 else (if s[0] == c then 1 else 0) + Count(s[1..], c)
  }

  /** Opening minus closing parentheses. */
  function Depth(s: string): int
  {
    Count(s, '(') - Count(s, ')')
  }

  /** Every prefix has at least as many "(" as ")", and the whole text has as many of each. */
  ghost predicate Balanced(s: string)
  {
    Depth(s) == 0 && forall k :: 0 <= k <= |s| ==> Depth(s[..k]) >= 0
  }

  /** The least depth over all prefixes of `s` (the empty prefix included). */
  function MinDepth(s: string): int
  {
    if s == [] then 0
    else
      var d := (if s[0] == '(' then 1 else 0) - (if s[0] == ')' then 1 else 0);
      var m := d + MinDepth(s[1..]);
      if m < 0 then m else 0
  }

  lemma {:induction false} CountConcat(a: string, b: string, c: char)
    ensures Count(a + b, c) == Count(a, c) + Count(b, c)
  {
    if a == [] {
      assert a + b == b;
    } else {
      assert (a + b)[1..] == a[1..] + b;
      CountConcat(a[1..], b, c);
    }
  }

  lemma {:induction false} MinDepthConcat(a: string, b: string)
    ensures MinDepth(a + b) == if MinDepth(a) < Depth(a) + MinDepth(b) then MinDepth(a) else Depth(a) + MinDepth(b)
  {
    if a == [] {
      assert a + b == b;
    } else {
      assert (a + b)[1..] == a[1..] + b;
      MinDepthConcat(a[1..], b);
      CountConcat(a[..1], a[1..], '(');
      CountConcat(a[..1], a[1..], ')');
      assert a[..1] + a[1..] == a;
    }
  }

  /** MinDepth is a lower bound of the depth of every prefix. */
  lemma {:induction false} MinDepthBoundsPrefixes(s: string, k: nat)
    requires k <= |s|
    ensures MinDepth(s) <= Depth(s[..k])
  {
    if k > 0 {
      MinDepthBoundsPrefixes(s[1..], k - 1);
      assert s[..k][1..] == s[1..][..k - 1];
    }
  }

  /** The text has no parentheses. */
  predicate ParenFree(s: string)
  {
    forall i :: 0 <= i < |s| ==> s[i] != '(' && s[i] != ')'
  }

  lemma {:induction false} ParenFreeCounts(s: string)
    requires ParenFree(s)
    ensures Count(s, '(') == 0 && Count(s, ')') == 0 && MinDepth(s) == 0
  {
    if s != [] {
      ParenFreeCounts(s[1..]);
    }
  }

  /** Names and rendered numbers contain no parentheses. */
  predicate LeavesParenFree(n: Node, fmt: real -> string)
  {
    match n
    case Number(v) => ParenFree(fmt(v))
    case Variable(x) => ParenFree(x)
    case BinaryOperation(_, l, r) => LeavesParenFree(l, fmt) && LeavesParenFree(r, fmt)
    case Assignment(x, e) => ParenFree(x) && LeavesParenFree(e, fmt)
  }

  lemma {:induction false} RenderingCounts(n: Node, fmt: real -> string)
    requires ValidOps(n) && LeavesParenFree(n, fmt)
    ensures Count(ToInfix(n, fmt), '(') == InnerNodes(n)
    ensures Count(ToInfix(n, fmt), ')') == InnerNodes(n)
    ensures MinDepth(ToInfix(n, fmt)) == 0
  {
    match n
    case Number(v) => ParenFreeCounts(fmt(v));
    case Variable(x) => ParenFreeCounts(x);
    case BinaryOperation(op, l, r) =>
      RenderingCounts(l, fmt);
      RenderingCounts(r, fmt);
      var mid := " " + [op] + " ";
      assert mid == [' ', op, ' '];
      var L, R := ToInfix(l, fmt), ToInfix(r, fmt);
      assert ToInfix(n, fmt) == "(" + L + mid + R + ")";
      Wrapped(L, mid, R);
    case Assignment(x, e) =>
      RenderingCounts(e, fmt);
      ParenFreeCounts(x);
      Wrapped(x, " = ", ToInfix(e, fmt));
      assert ToInfix(n, fmt) == "(" + x + " = " + ToInfix(e, fmt) + ")";
  }

  lemma ConcatFacts(a: string, b: string)
    ensures Count(a + b, '(') == Count(a, '(') + Count(b, '(')
    ensures Count(a + b, ')') == Count(a, ')') + Count(b, ')')
    ensures MinDepth(a + b) == if MinDepth(a) < Depth(a) + MinDepth(b) then MinDepth(a) else Depth(a) + MinDepth(b)
  {
    CountConcat(a, b, '(');
    CountConcat(a, b, ')');
    MinDepthConcat(a, b);
  }

  /** The two parentheses on their own. */
  lemma Parentheses()
    ensures Count("(", '(') == 1 && Count("(", ')') == 0 && MinDepth("(") == 0
    ensures Count(")", '(') == 0 && Count(")", ')') == 1 && MinDepth(")") == -1
  {
    assert "("[1..] == [];
    assert ")"[1..] == [];
  }

  lemma Nest(a: string, b: string, c: string, d: string, e: string)
    ensures a + b + c + d + e == a + (b + (c + (d + e)))
  {
  }

  /** Wrapping two balanced texts and a parenthesis-free separator in one pair of parentheses. */
  lemma Wrapped(a: string, mid: string, b: string)
    requires ParenFree(mid)
    requires MinDepth(a) == 0 && Depth(a) == 0 && MinDepth(b) == 0 && Depth(b) == 0
    ensures Count("(" + a + mid + b + ")", '(') == 1 + Count(a, '(') + Count(b, '(')
    ensures Count("(" + a + mid + b + ")", ')') == 1 + Count(a, ')') + Count(b, ')')
    ensures MinDepth("(" + a + mid + b + ")") == 0
  {
    ParenFreeCounts(mid);
    Parentheses();
    var s3 := b + ")";
    ConcatFacts(b, ")");
    assert Depth(s3) == -1 && MinDepth(s3) == -1;
    var s2 := mid + s3;
    ConcatFacts(mid, s3);
    assert Depth(s2) == -1 && MinDepth(s2) == -1;
    var s1 := a + s2;
    ConcatFacts(a, s2);
    assert Depth(s1) == -1 && MinDepth(s1) == -1;
    ConcatFacts("(", s1);
    Nest("(", a, mid, b, ")");
  }

  /** The rendering of a tree with the four operators is balanced and has one "(" per
      BinaryOperation or Assignment node, provided names and rendered numbers have no parentheses
      of their own. */
  lemma RenderingIsBalanced(n: Node, fmt: real -> string)
    requires ValidOps(n) && LeavesParenFree(n, fmt)
    ensures Balanced(ToInfix(n, fmt))
    ensures Count(ToInfix(n, fmt), '(') == InnerNodes(n)
  {
    var s := ToInfix(n, fmt);
    RenderingCounts(n, fmt);
    forall k | 0 <= k <= |s|
      ensures Depth(s[..k]) >= 0
    {
      MinDepthBoundsPrefixes(s, k);
    }
  }
}
