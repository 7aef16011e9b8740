/** The evaluator `eval_rpn_local`: runs an RPN token list on a value stack of
    at most MaxStack entries, looking identifiers up in the variable table. */
module Evaluator {
  import opened CalcTypes
  import opened Operators
  import opened Variables

  // ---------------------------------------------------------------------
  // Angle mode

  /** `to_radian`: degrees are converted when the mode is Deg. */
  function ToRadian(mode: AngleMode, x: real): real {
    if mode == Deg then x * Pi / 180.0 else x
  }

  /** `from_radian`: results of inverse trigonometric functions back to degrees. */
  function FromRadian(mode: AngleMode, x: real): real {
    if mode == Deg then x * 180.0 / Pi else x
  }

  /** In radian mode both conversions are the identity. Over the reals of
      this model the degree conversions are inverse to each other, and a right
      angle in degrees is half of Pi. */
  lemma AngleRoundTrip(mode: AngleMode, x: real)
    ensures ToRadian(Rad, x) == x && FromRadian(Rad, x) == x
    ensures FromRadian(mode, ToRadian(mode, x)) == x
    ensures ToRadian(mode, FromRadian(mode, x)) == x
    ensures ToRadian(Deg, 90.0) == Pi / 2.0
  {
    if mode == Deg {
      calc {
        FromRadian(mode, ToRadian(mode, x));
        (x * Pi / 180.0) * 180.0 / Pi;
        { assert (x * Pi / 180.0) * 180.0 == x * Pi; }
        x * Pi / Pi;
      }
      calc {
        ToRadian(mode, FromRadian(mode, x));
        (x * 180.0 / Pi) * Pi / 180.0;
        { assert (x * 180.0 / Pi) * Pi == x * 180.0; }
        x * 180.0 / 180.0;
      }
    }
  }

  // ---------------------------------------------------------------------
  // One token

  /** `factorial_val_local`: n! as exp(lgamma(n+1)) for the rounded argument. */
  function FactorialValue(lib: LibC, x: real): real {
    lib.exp(lib.lgamma(RoundLocal(x) as real + 1.0))
  }

  /** The binary operators; `pow` reports None when errno is set. */
  function ApplyBinary(lib: LibC, op: OpKind, a: real, b: real): Result<real> {
    match op
    case Add => Ok(a + b)
    case Sub => Ok(a - b)
    case Mul => Ok(a * b)
    case Div => if b == 0.0 then Err(DivisionByZero) else Ok(a / b)
    case Pow =>
      (match lib.pow(a, b)
       case None => Err(PowDomainError)
       case Some(y) => Ok(y))
    case _ => Err(UnknownOperator)
  }

  /** The one-argument functions, dispatched on the name. */
  function ApplyUnary(ctx: Context, name: string, x: real): Result<real> {
    var lib := ctx.lib;
    if name == "sin" then Ok(lib.sin(ToRadian(ctx.mode, x)))
    else if name == "cos" then Ok(lib.cos(ToRadian(ctx.mode, x)))
    else if name == "tan" then Ok(lib.tan(ToRadian(ctx.mode, x)))
    else if name == "asin" then Ok(FromRadian(ctx.mode, lib.asin(x)))
    else if name == "acos" then Ok(FromRadian(ctx.mode, lib.acos(x)))
    else if name == "atan" then Ok(FromRadian(ctx.mode, lib.atan(x)))
    else if name == "sqrt" then (if x < 0.0 then Err(SqrtDomainError) else Ok(lib.sqrt(x)))
    else if name == "ln" then (if x <= 0.0 then Err(LnDomainError) else Ok(lib.log(x)))
    else if name == "log" then (if x <= 0.0 then Err(LogDomainError) else Ok(lib.log10(x)))
    else if name == "abs" then Ok(Abs(x))
    else if name == "exp" then Ok(lib.exp(x))
    else Err(UnknownFunction)
  }

  /** An identifier's value: `ans` is the last result, any other name is
      looked up in the table. */
  function IdentValue(ctx: Context, vars: seq<Slot>, name: string): Result<real> {
    if name == "ans" then Ok(ctx.ans)
    else match Lookup(vars, name)
      case Some(v) => Ok(v)
      case None => Err(UndefinedVariable(name))
  }

  /** How many stack entries a token consumes: 0 for values, 1 for postfix
      operators, unary minus and one-argument functions, 2 for the rest. */
  function Needs(tk: Token): nat {
    match tk
    case Operator(op) => if IsPostfix(op) || op == UnaryMinus then 1 else 2
    case Func(_, arity) => if arity == 2 then 2 else 1
    case _ => 0
  }

  /** Tokens the evaluator has a meaning for: values, operators and
      registered functions with their registered arity. */
  predicate Evaluable(tk: Token) {
    match tk
    case Number(_) => true
    case Ident(_) => true
    case Operator(_) => true
    case Func(name, arity) => FuncArity(name) == Some(arity)
    case _ => false
  }

  /** Failures caused by the values involved rather than by the shape of the
      token list. */
  predicate ValueError(e: CalcError) {
    e.UndefinedVariable? || e == InvalidFactorialArg || e == DivisionByZero ||
    e == PowDomainError || e == SqrtDomainError || e == LnDomainError ||
    e == LogDomainError || e == PowFunctionDomainError
  }

  /** Failures no token list from the tokenizer and converter can cause. */
  predicate InternalError(e: CalcError) {
    e == IllegalRpnToken || e == UnsupportedArity || e == UnknownFunction ||
    e == UnknownMultiArgFunction || e == UnknownOperator
  }

  function Push(st: seq<real>, v: real): Result<seq<real>> {
    if |st| >= MaxStack then Err(StackOverflow) else Ok(st + [v])
  }

  /** One iteration of the evaluation loop on the stack `st` (top last). */
  function Step(ctx: Context, vars: seq<Slot>, tk: Token, st: seq<real>): (r: Result<seq<real>>)
    ensures |st| < Needs(tk) ==> r.Err?
    ensures r.Ok? ==> Evaluable(tk) && Needs(tk) <= |st|
    ensures r.Ok? ==>
      |r.value| == |st| + 1 - Needs(tk) && r.value[..|st| - Needs(tk)] == st[..|st| - Needs(tk)]
    ensures r.Ok? && |st| <= MaxStack ==> |r.value| <= MaxStack
  {
    var lib := ctx.lib;
    match tk
    case Number(v) => Push(st, v)
    case Ident(name) =>
      var v :- IdentValue(ctx, vars, name);
      Push(st, v)
    case Operator(op) =>
      if IsPostfix(op) then
        if |st| < 1 then Err(MissingOperand)
        else if op == Fact then
          if !FactorialOk(Last(st)) then Err(InvalidFactorialArg)
          else Ok(Drop(st) + [FactorialValue(lib, Last(st))])
        else Ok(Drop(st) + [Last(st) * 0.01])
      else if op == UnaryMinus then
        if |st| < 1 then Err(UnaryMinusMissingOperand) else Ok(Drop(st) + [-Last(st)])
      else if |st| < 2 then Err(BinaryMissingOperands)
      else
        var y :- ApplyBinary(lib, op, st[|st| - 2], st[|st| - 1]);
        Ok(st[..|st| - 2] + [y])
    case Func(name, arity) =>
      if arity == 1 then
        if |st| < 1 then Err(FunctionMissingArgument)
        else
          var y :- ApplyUnary(ctx, name, Last(st));
          Ok(Drop(st) + [y])
      else if arity == 2 then
        if name != "pow" then Err(UnknownMultiArgFunction)
        else if |st| < 2 then Err(PowMissingArguments)
        else
          match lib.pow(st[|st| - 2], st[|st| - 1])
          case None => Err(PowFunctionDomainError)
          case Some(y) => Ok(st[..|st| - 2] + [y])
      else Err(UnsupportedArity)
    case _ => Err(IllegalRpnToken)
  }

  /** The evaluation loop from token `i` on. */
  function Run(ctx: Context, vars: seq<Slot>, tks: seq<Token>, i: nat, st: seq<real>): Result<seq<real>>
    requires i <= |tks|
    decreases |tks| - i
  {
    if i == |tks| then Ok(st)
    else
      var st' :- Step(ctx, vars, tks[i], st);
      Run(ctx, vars, tks, i + 1, st')
  }

  /** `eval_rpn_local`: the result is the single value left on the stack. */
  function EvalRpn(ctx: Context, vars: seq<Slot>, tks: seq<Token>): Result<real> {
    var st :- Run(ctx, vars, tks, 0, []);
    if |st| != 1 then Err(Malformed(|st|)) else Ok(st[0])
  }

  // ---------------------------------------------------------------------
  // Properties of one step

  lemma DivGuard(ctx: Context, vars: seq<Slot>, st: seq<real>)
    ensures Step(ctx, vars, Operator(Div), st) == Err(DivisionByZero) <==> |st| >= 2 && Last(st) == 0.0
  {
    if |st| >= 2 {
      assert st[|st| - 1] == Last(st);
    }
  }

  lemma PowGuard(ctx: Context, vars: seq<Slot>, st: seq<real>)
    ensures Step(ctx, vars, Operator(Pow), st) == Err(PowDomainError) <==>
      |st| >= 2 && ctx.lib.pow(st[|st| - 2], st[|st| - 1]).None?
  {
  }

  lemma FactGuard(ctx: Context, vars: seq<Slot>, st: seq<real>)
    ensures Step(ctx, vars, Operator(Fact), st) == Err(InvalidFactorialArg) <==> |st| >= 1 && !FactorialOk(Last(st))
  {
  }

  lemma SqrtGuard(ctx: Context, vars: seq<Slot>, st: seq<real>)
    ensures Step(ctx, vars, Func("sqrt", 1), st) == Err(SqrtDomainError) <==> |st| >= 1 && Last(st) < 0.0
  {
    if |st| >= 1 {
      assert ApplyUnary(ctx, "sqrt", Last(st)).Err? <==> Last(st) < 0.0;
    }
  }

  lemma LnGuard(ctx: Context, vars: seq<Slot>, st: seq<real>)
    ensures Step(ctx, vars, Func("ln", 1), st) == Err(LnDomainError) <==> |st| >= 1 && Last(st) <= 0.0
  {
    if |st| >= 1 {
      assert ApplyUnary(ctx, "ln", Last(st)).Err? <==> Last(st) <= 0.0;
    }
  }

  lemma LogGuard(ctx: Context, vars: seq<Slot>, st: seq<real>)
    ensures Step(ctx, vars, Func("log", 1), st) == Err(LogDomainError) <==> |st| >= 1 && Last(st) <= 0.0
  {
    if |st| >= 1 {
      assert ApplyUnary(ctx, "log", Last(st)).Err? <==> Last(st) <= 0.0;
    }
  }

  lemma IdentGuard(ctx: Context, vars: seq<Slot>, st: seq<real>, name: string)
    ensures Step(ctx, vars, Ident(name), st) == Err(UndefinedVariable(name)) <==>
      name != "ans" && Lookup(vars, name) == None
  {
  }

  /** Each domain check fails exactly on the inputs the C code rejects. */
  lemma StepGuards(ctx: Context, vars: seq<Slot>, st: seq<real>, name: string)
    ensures Step(ctx, vars, Operator(Div), st) == Err(DivisionByZero) <==> |st| >= 2 && Last(st) == 0.0
    ensures Step(ctx, vars, Operator(Fact), st) == Err(InvalidFactorialArg) <==> |st| >= 1 && !FactorialOk(Last(st))
    ensures Step(ctx, vars, Func("sqrt", 1), st) == Err(SqrtDomainError) <==> |st| >= 1 && Last(st) < 0.0
    ensures Step(ctx, vars, Func("ln", 1), st) == Err(LnDomainError) <==> |st| >= 1 && Last(st) <= 0.0
    ensures Step(ctx, vars, Func("log", 1), st) == Err(LogDomainError) <==> |st| >= 1 && Last(st) <= 0.0
    ensures Step(ctx, vars, Operator(Pow), st) == Err(PowDomainError) <==>
      |st| >= 2 && ctx.lib.pow(st[|st| - 2], st[|st| - 1]).None?
    ensures Step(ctx, vars, Ident(name), st) == Err(UndefinedVariable(name)) <==>
      name != "ans" && Lookup(vars, name) == None
  {
    DivGuard(ctx, vars, st);
    FactGuard(ctx, vars, st);
    SqrtGuard(ctx, vars, st);
    LnGuard(ctx, vars, st);
    LogGuard(ctx, vars, st);
    PowGuard(ctx, vars, st);
    IdentGuard(ctx, vars, st, name);
  }

  /** The value effects of the operators that act on the top value alone:
      `%` scales it by 0.01, unary minus negates it in place and `abs` takes
      its absolute value; everything below it is kept. */
  lemma StepOnTop(ctx: Context, vars: seq<Slot>, st: seq<real>)
    requires |st| >= 1
    ensures var b := Last(st);
      Step(ctx, vars, Operator(Percent), st) == Ok(Drop(st) + [b * 0.01]) &&
      Step(ctx, vars, Operator(UnaryMinus), st) == Ok(Drop(st) + [-b]) &&
      Step(ctx, vars, Func("abs", 1), st) == Ok(Drop(st) + [Abs(b)])
  {
  }

  /** The value effects of the arithmetic operators the C code computes
      directly: `a` (below) and `b` (top) are replaced by `a+b`, `a-b`, `a*b`,
      and by `a/b` when `b` is not zero. */
  lemma StepOnTwo(ctx: Context, vars: seq<Slot>, st: seq<real>)
    requires |st| >= 2
    ensures var a, b, below := st[|st| - 2], st[|st| - 1], st[..|st| - 2];
      Step(ctx, vars, Operator(Add), st) == Ok(below + [a + b]) &&
      Step(ctx, vars, Operator(Sub), st) == Ok(below + [a - b]) &&
      Step(ctx, vars, Operator(Mul), st) == Ok(below + [a * b]) &&
      (b != 0.0 ==> Step(ctx, vars, Operator(Div), st) == Ok(below + [a / b]))
  {
    MulStep(ctx, vars, st);
    if st[|st| - 1] != 0.0 {
      DivStep(ctx, vars, st);
    }
  }

  lemma MulStep(ctx: Context, vars: seq<Slot>, st: seq<real>)
    requires |st| >= 2
    ensures Step(ctx, vars, Operator(Mul), st) == Ok(st[..|st| - 2] + [st[|st| - 2] * st[|st| - 1]])
  {
  }

  lemma DivStep(ctx: Context, vars: seq<Slot>, st: seq<real>)
    requires |st| >= 2 && st[|st| - 1] != 0.0
    ensures Step(ctx, vars, Operator(Div), st) == Ok(st[..|st| - 2] + [st[|st| - 2] / st[|st| - 1]])
  {
  }

  /** A step on an evaluable token with enough operands and room on the
      stack fails only because of the values involved. */
  lemma StepFailsOnValues(ctx: Context, vars: seq<Slot>, tk: Token, st: seq<real>)
    requires Evaluable(tk) && Needs(tk) <= |st|
    requires Needs(tk) == 0 ==> |st| < MaxStack
    ensures Step(ctx, vars, tk, st).Err? ==> ValueError(Step(ctx, vars, tk, st).error)
  {
    match tk
    case Number(_) =>
    case Ident(_) =>
    case Operator(op) =>
      if !IsPostfix(op) && op != UnaryMinus {
        assert ApplyBinary(ctx.lib, op, st[|st| - 2], st[|st| - 1]).Err? ==>
          ValueError(ApplyBinary(ctx.lib, op, st[|st| - 2], st[|st| - 1]).error);
      }
    case Func(name, arity) =>
      if arity == 1 {
        assert name in UnaryFunctions;
      }
  }

  /** A step on an evaluable token never reports an internal error. */
  lemma StepNoInternalError(ctx: Context, vars: seq<Slot>, tk: Token, st: seq<real>)
    requires Evaluable(tk)
    ensures Step(ctx, vars, tk, st).Err? ==> !InternalError(Step(ctx, vars, tk, st).error)
  {
  }

  // ---------------------------------------------------------------------
  // Properties of the whole loop

  /** Reference definition of a well-formed RPN list: every token is
      evaluable, finds enough operands on a stack of the given height, never
      pushes past MaxStack, and exactly one value remains at the end. */
  predicate Shaped(tks: seq<Token>, i: nat, h: nat)
    requires i <= |tks|
    decreases |tks| - i
  {
    if i == |tks| then h == 1
    else
      var tk := tks[i];
      Evaluable(tk) && Needs(tk) <= h && h + 1 - Needs(tk) <= MaxStack &&
      Shaped(tks, i + 1, h + 1 - Needs(tk))
  }

  lemma {:induction false} RunShaped(ctx: Context, vars: seq<Slot>, tks: seq<Token>, i: nat, st: seq<real>)
    requires i <= |tks| && |st| <= MaxStack
    ensures Run(ctx, vars, tks, i, st).Ok? && |Run(ctx, vars, tks, i, st).value| == 1 ==>
      Shaped(tks, i, |st|)
    decreases |tks| - i
  {
    if i < |tks| {
      var r := Step(ctx, vars, tks[i], st);
      if r.Ok? {
        RunShaped(ctx, vars, tks, i + 1, r.value);
      }
    }
  }

  lemma {:induction false} ShapedRuns(ctx: Context, vars: seq<Slot>, tks: seq<Token>, i: nat, st: seq<real>)
    requires i <= |tks| && Shaped(tks, i, |st|)
    ensures Run(ctx, vars, tks, i, st).Ok? ==> |Run(ctx, vars, tks, i, st).value| == 1
    ensures Run(ctx, vars, tks, i, st).Err? ==> ValueError(Run(ctx, vars, tks, i, st).error)
    decreases |tks| - i
  {
    if i < |tks| {
      StepFailsOnValues(ctx, vars, tks[i], st);
      var r := Step(ctx, vars, tks[i], st);
      if r.Ok? {
        ShapedRuns(ctx, vars, tks, i + 1, r.value);
      }
    }
  }

  /** Evaluation succeeds only on a well-formed RPN list, and on a well-formed
      list it fails only for a value reason (an undefined variable or a domain
      error), never for a missing operand or a leftover value. */
  lemma EvalRpnNeedsShape(ctx: Context, vars: seq<Slot>, tks: seq<Token>)
    ensures EvalRpn(ctx, vars, tks).Ok? ==> Shaped(tks, 0, 0)
    ensures Shaped(tks, 0, 0) && EvalRpn(ctx, vars, tks).Err? ==> ValueError(EvalRpn(ctx, vars, tks).error)
  {
    RunShaped(ctx, vars, tks, 0, []);
    if Shaped(tks, 0, 0) {
      ShapedRuns(ctx, vars, tks, 0, []);
    }
  }

  lemma {:induction false} RunNoInternalError(ctx: Context, vars: seq<Slot>, tks: seq<Token>, i: nat, st: seq<real>)
    requires i <= |tks|
    requires forall k | i <= k < |tks| :: Evaluable(tks[k])
    ensures Run(ctx, vars, tks, i, st).Err? ==> !InternalError(Run(ctx, vars, tks, i, st).error)
    decreases |tks| - i
  {
    if i < |tks| {
      StepNoInternalError(ctx, vars, tks[i], st);
      var r := Step(ctx, vars, tks[i], st);
      if r.Ok? {
        RunNoInternalError(ctx, vars, tks, i + 1, r.value);
      }
    }
  }

  /** A list of evaluable tokens never yields an internal error. */
  lemma EvalRpnNoInternalError(ctx: Context, vars: seq<Slot>, tks: seq<Token>)
    requires forall k | 0 <= k < |tks| :: Evaluable(tks[k])
    ensures EvalRpn(ctx, vars, tks).Err? ==> !InternalError(EvalRpn(ctx, vars, tks).error)
  {
    RunNoInternalError(ctx, vars, tks, 0, []);
  }

  lemma StepDependsOnLookup(ctx: Context, v1: seq<Slot>, v2: seq<Slot>, tk: Token, st: seq<real>)
    requires tk.Ident? ==> Lookup(v1, tk.name) == Lookup(v2, tk.name)
    ensures Step(ctx, v1, tk, st) == Step(ctx, v2, tk, st)
  {
    if tk.Ident? {
      assert IdentValue(ctx, v1, tk.name) == IdentValue(ctx, v2, tk.name);
    }
  }

  /** The evaluator reads the variable table only through lookups of the
      identifiers it meets: tables that agree on those names give the same
      outcome. */
  lemma {:induction false} RunDependsOnLookups(ctx: Context, v1: seq<Slot>, v2: seq<Slot>, tks: seq<Token>, i: nat, st: seq<real>)
    requires i <= |tks|
    requires forall k | i <= k < |tks| && tks[k].Ident? :: Lookup(v1, tks[k].name) == Lookup(v2, tks[k].name)
    ensures Run(ctx, v1, tks, i, st) == Run(ctx, v2, tks, i, st)
    decreases |tks| - i
  {
    if i < |tks| {
      StepDependsOnLookup(ctx, v1, v2, tks[i], st);
      var r := Step(ctx, v1, tks[i], st);
      if r.Ok? {
        RunDependsOnLookups(ctx, v1, v2, tks, i + 1, r.value);
      }
    }
  }

  // ---------------------------------------------------------------------
  // The loop over a fixed stack buffer

  /** Stores `y` at position `k`: the buffer up to `k` then reads as its old
      contents below `k` followed by `y`. */
  method Put(st: array<real>, k: nat, y: real)
    requires k < st.Length
    modifies st
    ensures st[..k + 1] == old(st[..k]) + [y]
  {
    st[k] := y;
    assert st[..k + 1] == st[..k] + [st[k]];
  }

  /** Pushes a value on the buffer `st` holding `sp` values. */
  method PushInPlace(st: array<real>, sp: nat, v: real) returns (r: Result<nat>)
    requires st.Length == MaxStack && sp <= MaxStack
    modifies st
    ensures r.Ok? ==> r.value <= MaxStack && Push(old(st[..sp]), v) == Ok(st[..r.value])
    ensures r.Err? ==> Push(old(st[..sp]), v) == Err(r.error)
  {
    if sp >= MaxStack { return Err(StackOverflow); }
    Put(st, sp, v);
    return Ok(sp + 1);
  }

  /** A postfix operator (`!` or `%`) on the buffer `st` holding `sp` values. */
  method PostfixInPlace(ctx: Context, ghost vars: seq<Slot>, op: OpKind, st: array<real>, sp: nat)
    returns (r: Result<nat>)
    requires st.Length == MaxStack && sp <= MaxStack && IsPostfix(op)
    modifies st
    ensures r.Ok? ==>
      r.value <= MaxStack && Step(ctx, vars, Operator(op), old(st[..sp])) == Ok(st[..r.value])
    ensures r.Err? ==> Step(ctx, vars, Operator(op), old(st[..sp])) == Err(r.error)
  {
    ghost var s0 := st[..sp];
    if sp < 1 { return Err(MissingOperand); }
    var a := st[sp - 1];
    assert a == Last(s0) && s0[..sp - 1] == Drop(s0);
    var y: real;
    if op == Fact {
      if !FactorialOk(a) { return Err(InvalidFactorialArg); }
      y := FactorialValue(ctx.lib, a);
    } else {
      y := a * 0.01;
    }
    Put(st, sp - 1, y);
    assert st[..sp] == Drop(s0) + [y];
    return Ok(sp);
  }

  /** A binary operator on the buffer `st` holding `sp` values. */
  method BinaryInPlace(ctx: Context, ghost vars: seq<Slot>, op: OpKind, st: array<real>, sp: nat)
    returns (r: Result<nat>)
    requires st.Length == MaxStack && sp <= MaxStack && !IsPostfix(op) && op != UnaryMinus
    modifies st
    ensures r.Ok? ==>
      r.value <= MaxStack && Step(ctx, vars, Operator(op), old(st[..sp])) == Ok(st[..r.value])
    ensures r.Err? ==> Step(ctx, vars, Operator(op), old(st[..sp])) == Err(r.error)
  {
    ghost var s0 := st[..sp];
    if sp < 2 { return Err(BinaryMissingOperands); }
    var b, a := st[sp - 1], st[sp - 2];
    assert a == s0[|s0| - 2] && b == s0[|s0| - 1] && s0[..sp - 2] == st[..sp - 2];
    var y := ApplyBinary(ctx.lib, op, a, b);
    if y.Err? { return Err(y.error); }
    Put(st, sp - 2, y.value);
    return Ok(sp - 1);
  }

  /** An operator token on the buffer `st` holding `sp` values. */
  method OperatorInPlace(ctx: Context, ghost vars: seq<Slot>, op: OpKind, st: array<real>, sp: nat)
    returns (r: Result<nat>)
    requires st.Length == MaxStack && sp <= MaxStack
    modifies st
    ensures r.Ok? ==>
      r.value <= MaxStack && Step(ctx, vars, Operator(op), old(st[..sp])) == Ok(st[..r.value])
    ensures r.Err? ==> Step(ctx, vars, Operator(op), old(st[..sp])) == Err(r.error)
  {
    if IsPostfix(op) {
      r := PostfixInPlace(ctx, vars, op, st, sp);
    } else if op == UnaryMinus {
      ghost var s0 := st[..sp];
      if sp < 1 { return Err(UnaryMinusMissingOperand); }
      var a := st[sp - 1];
      assert a == Last(s0) && s0[..sp - 1] == Drop(s0);
      Put(st, sp - 1, -a);
      assert st[..sp] == Drop(s0) + [-a];
      return Ok(sp);
    } else {
      r := BinaryInPlace(ctx, vars, op, st, sp);
    }
  }

  /** A function token on the buffer `st` holding `sp` values. */
  method FuncInPlace(ctx: Context, ghost vars: seq<Slot>, name: string, arity: int, st: array<real>, sp: nat)
    returns (r: Result<nat>)
    requires st.Length == MaxStack && sp <= MaxStack
    modifies st
    ensures r.Ok? ==>
      r.value <= MaxStack && Step(ctx, vars, Func(name, arity), old(st[..sp])) == Ok(st[..r.value])
    ensures r.Err? ==> Step(ctx, vars, Func(name, arity), old(st[..sp])) == Err(r.error)
  {
    ghost var s0 := st[..sp];
    if arity == 1 {
      if sp < 1 { return Err(FunctionMissingArgument); }
      var a := st[sp - 1];
      assert a == Last(s0) && s0[..sp - 1] == Drop(s0);
      var y := ApplyUnary(ctx, name, a);
      if y.Err? { return Err(y.error); }
      Put(st, sp - 1, y.value);
      assert st[..sp] == Drop(s0) + [y.value];
      return Ok(sp);
    } else if arity == 2 {
      if name != "pow" { return Err(UnknownMultiArgFunction); }
      if sp < 2 { return Err(PowMissingArguments); }
      var b, a := st[sp - 1], st[sp - 2];
      assert a == s0[|s0| - 2] && b == s0[|s0| - 1] && s0[..sp - 2] == st[..sp - 2];
      var y := ctx.lib.pow(a, b);
      if y.None? { return Err(PowFunctionDomainError); }
      Put(st, sp - 2, y.value);
      return Ok(sp - 1);
    } else {
      return Err(UnsupportedArity);
    }
  }

  /** One token on the buffer `st` holding `sp` values: the new height, or the
      error of the step. */
  method StepInPlace(ctx: Context, vars: VarTable, tk: Token, st: array<real>, sp: nat)
    returns (r: Result<nat>)
    requires st.Length == MaxStack && sp <= MaxStack
    modifies st
    ensures r.Ok? ==>
      r.value <= MaxStack && Step(ctx, vars.slots[..], tk, old(st[..sp])) == Ok(st[..r.value])
    ensures r.Err? ==> Step(ctx, vars.slots[..], tk, old(st[..sp])) == Err(r.error)
  {
    match tk
    case Number(v) =>
      r := PushInPlace(st, sp, v);
    case Ident(name) =>
      var v: real;
      if name == "ans" {
        v := ctx.ans;
      } else {
        var found;
        found, v := vars.Get(name);
        if !found { return Err(UndefinedVariable(name)); }
      }
      r := PushInPlace(st, sp, v);
    case Operator(op) =>
      r := OperatorInPlace(ctx, vars.slots[..], op, st, sp);
    case Func(name, arity) =>
      r := FuncInPlace(ctx, vars.slots[..], name, arity, st, sp);
    case _ =>
      return Err(IllegalRpnToken);
  }

  /** `eval_rpn_local` with its value stack `st[MAX_STACK]` and height `sp`. */
  method EvaluateRpn(ctx: Context, vars: VarTable, rpn: seq<Token>) returns (r: Result<real>)
    ensures r == EvalRpn(ctx, vars.slots[..], rpn)
  {
    var st := new real[MaxStack];
    var sp: nat := 0;
    var i := 0;
    while i < |rpn|
      invariant i <= |rpn| && sp <= MaxStack
      invariant Run(ctx, vars.slots[..], rpn, i, st[..sp]) == Run(ctx, vars.slots[..], rpn, 0, [])
    {
      var res := StepInPlace(ctx, vars, rpn[i], st, sp);
      if res.Err? {
        return Err(res.error);
      }
      sp := res.value;
      i := i + 1;
    }
    if sp != 1 {
      return Err(Malformed(sp));
    }
    return Ok(st[0]);
  }
}
