/** The fixed tables of the engine: operator precedence and associativity, the
    function registry, and the factorial argument test. */
module Operators {
  import opened CalcTypes

  /** Binding strength of each operator: postfix 5, unary minus 4, `^` 3,
      `* /` 2, `+ -` 1. */
  function Precedence(op: OpKind): (p: int)
    ensures 1 <= p <= 5
    ensures p == 5 <==> IsPostfix(op)
  {
    match op
    case Fact | Percent => 5
    case UnaryMinus => 4
    case Pow => 3
    case Mul | Div => 2
    case Add | Sub => 1
  }

  predicate IsRightAssoc(op: OpKind) { op == Pow || op == UnaryMinus }

  predicate IsPostfix(op: OpKind) { op == Fact || op == Percent }

  /** The condition under which an arriving operator pops the operator on top of
      the stack: left-associative operators pop tops of equal or higher
      precedence, right-associative ones only tops of strictly higher precedence. */
  predicate ShouldPop(incoming: OpKind, top: OpKind) {
    var p1 := Precedence(incoming);
    var p2 := Precedence(top);
    (!IsRightAssoc(incoming) && p1 <= p2) || (IsRightAssoc(incoming) && p1 < p2)
  }

  /** The table makes unary minus bind tighter than `^`: a `^` arriving over a
      stacked unary minus pops it, so `-3^2` is read as `(-3)^2`; chains of `^`
      and of unary minus group to the right; `+ - * /` group to the left. */
  lemma AssociativityTable()
    ensures ShouldPop(Pow, UnaryMinus) && !ShouldPop(UnaryMinus, Pow)
    ensures !ShouldPop(Pow, Pow) && !ShouldPop(UnaryMinus, UnaryMinus)
    ensures ShouldPop(Add, Sub) && ShouldPop(Sub, Add) && ShouldPop(Mul, Div) && ShouldPop(Div, Mul)
    ensures ShouldPop(Add, Pow) && !ShouldPop(Pow, Mul)
    ensures forall op :: ShouldPop(op, Fact) && ShouldPop(op, Percent)
  {
  }

  const UnaryFunctions: set<string> :=
    {"sin", "cos", "tan", "sqrt", "ln", "log", "abs", "exp", "asin", "acos", "atan"}

  /** The function registry: the arity of a registered name, None for any other name. */
  function FuncArity(name: string): (r: Option<int>)
    ensures r.Some? <==> name in UnaryFunctions || name == "pow"
    ensures r.Some? ==> r.value == (if name == "pow" then 2 else 1)
  {
    if name in UnaryFunctions then Some(1)
    else if name == "pow" then Some(2)
    else None
  }

  function Abs(x: real): real { if x < 0.0 then -x else x }

  /** Rounding half away from zero, as `floor(x+0.5)` or `ceil(x-0.5)`. */
  function RoundLocal(x: real): int {
    if x >= 0.0 then (x + 0.5).Floor else -((0.5 - x).Floor)
  }

  predicate NearlyInteger(x: real) { Abs(x - RoundLocal(x) as real) < 0.000000001 }

  predicate FactorialOk(x: real) {
    NearlyInteger(x) && 0.0 <= x <= 170.0
  }

  /** A value within 1e-9 of an integer n rounds to n and passes the
      near-integer test; with NearlyInteger's definition this makes the test
      exactly "within 1e-9 of some integer". */
  lemma NearlyIntegerAt(x: real, n: int)
    requires Abs(x - n as real) < 0.000000001
    ensures RoundLocal(x) == n
    ensures NearlyInteger(x)
  {
    if x >= 0.0 {
      assert n as real <= x + 0.5 < n as real + 1.0;
    } else {
      assert n as real - 1.0 < x - 0.5 <= n as real;
      assert -(n as real) <= 0.5 - x < -(n as real) + 1.0;
    }
  }

  /** A value the factorial guard accepts rounds to an integer in [0, 170]
      lying within 1e-9 of it. */
  lemma FactorialOkMeans(x: real)
    ensures FactorialOk(x) ==>
      0 <= RoundLocal(x) <= 170 && Abs(x - RoundLocal(x) as real) < 0.000000001
  {
    if FactorialOk(x) {
      assert (x + 0.5).Floor <= 170;
    }
  }

  /** Conversely, every value in [0, 170] within 1e-9 of an integer n passes
      the factorial guard, and n is the integer whose factorial is taken. */
  lemma FactorialAcceptsNearIntegers(x: real, n: int)
    requires 0.0 <= x <= 170.0 && Abs(x - n as real) < 0.000000001
    ensures FactorialOk(x) && RoundLocal(x) == n && 0 <= n <= 170
  {
    NearlyIntegerAt(x, n);
  }
}
