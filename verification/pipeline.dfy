/** `eval_expr_local` and `eval_with_var`: tokenizer, converter and evaluator
    composed, and evaluation under a temporary variable binding. */
module Pipeline {
  import opened CalcTypes
  import opened Operators
  import opened Lexer
  import opened ShuntingYard
  import opened Variables
  import opened Evaluator

  /** An expression's outcome: the first failing stage's error, or the value. */
  function Evaluate(ctx: Context, vars: seq<Slot>, expr: string): Result<real> {
    var toks :- Tokens(ctx.lib.strtod, expr);
    var rpn :- ToRpn(toks);
    EvalRpn(ctx, vars, rpn)
  }

  /** `eval_expr_local`. Input lines are shorter than MaxLine, so the token
      lists fit their MaxTokens buffers. */
  method EvalExpr(ctx: Context, vars: VarTable, expr: string) returns (r: Result<real>)
    requires |expr| <= MaxTokens
    ensures r == Evaluate(ctx, vars.slots[..], expr)
  {
    var toks := Tokenize(ctx.lib.strtod, expr);
    if toks.Err? {
      return Err(toks.error);
    }
    TokensLength(ctx.lib.strtod, expr);
    var rpn := ConvertToRpn(toks.value);
    if rpn.Err? {
      return Err(rpn.error);
    }
    r := EvaluateRpn(ctx, vars, rpn.value);
  }

  /** `eval_with_var`: evaluate with `vname` bound to `x`, then put the table
      back (the old value if the name was bound, otherwise delete it). */
  method EvalWithVar(ctx: Context, vars: VarTable, expr: string, vname: string, x: real)
    returns (r: Result<real>)
    requires |expr| <= MaxTokens
    modifies vars.slots
    ensures r == Evaluate(ctx, WithBinding(old(vars.slots[..]), vname, x), expr)
    ensures vars.slots[..] == Restore(old(vars.slots[..]), WithBinding(old(vars.slots[..]), vname, x), vname)
  {
    var existed, prev := vars.Get(vname);
    var ok := vars.Set(vname, x);
    r := EvalExpr(ctx, vars, expr);
    if existed {
      ok := vars.Set(vname, prev);
    } else {
      ok := vars.Del(vname);
    }
  }

  // ---------------------------------------------------------------------
  // Properties of the composition

  /** Every token of a successful conversion of tokenizer output is one the
      evaluator has a meaning for. */
  lemma ConvertedTokensEvaluable(strtod: Strtod, expr: string)
    ensures Tokens(strtod, expr).Ok? && ToRpn(Tokens(strtod, expr).value).Ok? ==>
      var rpn := ToRpn(Tokens(strtod, expr).value).value;
      forall k | 0 <= k < |rpn| :: Evaluable(rpn[k])
  {
    var t := Tokens(strtod, expr);
    if t.Ok? && ToRpn(t.value).Ok? {
      var toks := t.value;
      var rpn := ToRpn(toks).value;
      TokensWellFormed(strtod, expr);
      RpnIsPermutation(toks);
      forall k | 0 <= k < |rpn|
        ensures Evaluable(rpn[k])
      {
        var x := rpn[k];
        assert x in multiset(rpn);
        assert x in multiset(Kept(toks));
        KeptFrom(toks, x);
        var j :| 0 <= j < |toks| && toks[j] == x;
        assert TokenWF(toks, j);
      }
    }
  }

  /** The evaluator's internal errors (illegal token, unsupported arity,
      unknown function or operator) cannot arise from any input line. */
  lemma EvaluateNoInternalError(ctx: Context, vars: seq<Slot>, expr: string)
    ensures Evaluate(ctx, vars, expr).Err? ==> !InternalError(Evaluate(ctx, vars, expr).error)
  {
    var t := Tokens(ctx.lib.strtod, expr);
    TokensFailOnlyLexically(ctx.lib.strtod, expr);
    ConvertedTokensEvaluable(ctx.lib.strtod, expr);
    if t.Ok? {
      RpnFailsOnlyOnParens(t.value);
      if ToRpn(t.value).Ok? {
        EvalRpnNoInternalError(ctx, vars, ToRpn(t.value).value);
      }
    }
  }

  /** The outcome depends on the table only through the values it binds to
      names other than `ans`. */
  lemma EvaluateDependsOnBindings(ctx: Context, v1: seq<Slot>, v2: seq<Slot>, expr: string)
    requires forall n :: n != "ans" ==> Lookup(v1, n) == Lookup(v2, n)
    ensures Evaluate(ctx, v1, expr) == Evaluate(ctx, v2, expr)
  {
    var t := Tokens(ctx.lib.strtod, expr);
    if t.Ok? && ToRpn(t.value).Ok? {
      var rpn := ToRpn(t.value).value;
      RunIdentsAgree(ctx, v1, v2, rpn, 0, []);
    }
  }

  lemma {:induction false} RunIdentsAgree(ctx: Context, v1: seq<Slot>, v2: seq<Slot>, tks: seq<Token>, i: nat, st: seq<real>)
    requires i <= |tks|
    requires forall n :: n != "ans" ==> Lookup(v1, n) == Lookup(v2, n)
    ensures Run(ctx, v1, tks, i, st) == Run(ctx, v2, tks, i, st)
    decreases |tks| - i
  {
    if i < |tks| {
      assert IdentValue(ctx, v1, if tks[i].Ident? then tks[i].name else "") ==
        IdentValue(ctx, v2, if tks[i].Ident? then tks[i].name else "");
      assert Step(ctx, v1, tks[i], st) == Step(ctx, v2, tks[i], st);
      var r := Step(ctx, v1, tks[i], st);
      if r.Ok? {
        RunIdentsAgree(ctx, v1, v2, tks, i + 1, r.value);
      }
    }
  }

  /** Evaluation under a temporary binding sees the variable with value `x`
      and every other name as before, provided the table had room; when the
      call returns, every name is bound as it was. */
  lemma EvalWithVarMeaning(ctx: Context, s: seq<Slot>, expr: string, vname: string, x: real, t: seq<Slot>)
    requires Unique(s) && |vname| < NameLen && vname != "ans"
    requires SetSpec(s, vname, x).1
    requires Lookup(t, vname) == Some(x)
    requires forall n :: n != vname ==> Lookup(t, n) == Lookup(s, n)
    ensures Evaluate(ctx, WithBinding(s, vname, x), expr) == Evaluate(ctx, t, expr)
    ensures forall n :: Lookup(Restore(s, WithBinding(s, vname, x), vname), n) == Lookup(s, n)
  {
    var w := WithBinding(s, vname, x);
    SetThenLookup(s, vname, x);
    forall n | n != "ans"
      ensures Lookup(w, n) == Lookup(t, n)
    {
      if n != vname {
        SetKeepsOthers(s, vname, x, n);
      }
    }
    EvaluateDependsOnBindings(ctx, w, t, expr);
    ScopedBindingRestores(s, vname, x);
  }

  /** Binding `ans` temporarily has no effect on the evaluation, since `ans`
      always denotes the last result. */
  lemma AnsBindingIgnored(ctx: Context, s: seq<Slot>, expr: string, x: real)
    ensures Evaluate(ctx, WithBinding(s, "ans", x), expr) == Evaluate(ctx, s, expr)
  {
    forall n | n != "ans"
      ensures Lookup(WithBinding(s, "ans", x), n) == Lookup(s, n)
    {
      SetKeepsOthers(s, "ans", x, n);
    }
    EvaluateDependsOnBindings(ctx, WithBinding(s, "ans", x), s, expr);
  }

  // ---------------------------------------------------------------------
  // Worked evaluations

  lemma NegThenPowTokens(strtod: Strtod)
    requires strtod("3^2") == Scanned(3.0, 1)
    requires strtod("2") == Scanned(2.0, 1)
    ensures Tokens(strtod, "-3^2") == Ok([Operator(UnaryMinus), Number(3.0), Operator(Pow), Number(2.0)])
  {
    var s := "-3^2";
    var neg, pow, three, two := Operator(UnaryMinus), Operator(Pow), Number(3.0), Number(2.0);
    assert s[0] == '-' && s[1] == '3' && s[2] == '^' && s[3] == '2';
    assert s[1..] == "3^2" && s[3..] == "2";
    assert OperatorFor('-', true) == UnaryMinus && OperatorFor('^', false) == Pow;
    assert [] + [neg] == [neg] && [neg] + [three] == [neg, three];
    assert [neg, three] + [pow] == [neg, three, pow];
    assert [neg, three, pow] + [two] == [neg, three, pow, two];
    assert Lex(strtod, s, 4, TNumber, [neg, three, pow, two]) == Ok([neg, three, pow, two]);
    assert Lex(strtod, s, 3, TOperator, [neg, three, pow]) == Lex(strtod, s, 4, TNumber, [neg, three, pow, two]);
    assert Lex(strtod, s, 2, TNumber, [neg, three]) == Lex(strtod, s, 3, TOperator, [neg, three, pow]);
    assert Lex(strtod, s, 1, TOperator, [neg]) == Lex(strtod, s, 2, TNumber, [neg, three]);
    assert Lex(strtod, s, 0, TOperator, []) == Lex(strtod, s, 1, TOperator, [neg]);
  }

  /** Single evaluation steps on a token list, for the worked examples. */
  lemma NumberThrough(ctx: Context, vars: seq<Slot>, tks: seq<Token>, i: nat, v: real, st: seq<real>)
    requires i < |tks| && tks[i] == Number(v) && |st| < MaxStack
    ensures Run(ctx, vars, tks, i, st) == Run(ctx, vars, tks, i + 1, st + [v])
  {
  }

  lemma NegThrough(ctx: Context, vars: seq<Slot>, tks: seq<Token>, i: nat, below: seq<real>, x: real)
    requires i < |tks| && tks[i] == Operator(UnaryMinus)
    ensures Run(ctx, vars, tks, i, below + [x]) == Run(ctx, vars, tks, i + 1, below + [-x])
  {
    assert Drop(below + [x]) == below;
  }

  lemma FactThrough(ctx: Context, vars: seq<Slot>, tks: seq<Token>, i: nat, below: seq<real>, x: real)
    requires i < |tks| && tks[i] == Operator(Fact) && FactorialOk(x)
    ensures Run(ctx, vars, tks, i, below + [x]) ==
      Run(ctx, vars, tks, i + 1, below + [FactorialValue(ctx.lib, x)])
  {
    assert Drop(below + [x]) == below;
  }

  /** `^` on a stack of exactly two values as the last token. */
  lemma PowLast(ctx: Context, vars: seq<Slot>, tks: seq<Token>, a: real, b: real)
    requires |tks| > 0 && tks[|tks| - 1] == Operator(Pow)
    ensures Run(ctx, vars, tks, |tks| - 1, [] + [a] + [b]) ==
      match ApplyBinary(ctx.lib, Pow, a, b)
      case Err(e) => Err(e)
      case Ok(y) => Ok([y])
  {
    var st := [] + [a] + [b];
    assert st == [a, b] && st[..|st| - 2] == [];
    match ApplyBinary(ctx.lib, Pow, a, b)
    case Err(e) =>
    case Ok(y) =>
      assert [] + [y] == [y];
      assert Step(ctx, vars, Operator(Pow), st) == Ok([y]);
  }

  lemma NegThenPowRpn(ctx: Context, vars: seq<Slot>)
    ensures EvalRpn(ctx, vars, [Number(3.0), Operator(UnaryMinus), Number(2.0), Operator(Pow)])
      == ApplyBinary(ctx.lib, Pow, -3.0, 2.0)
  {
    var rpn := [Number(3.0), Operator(UnaryMinus), Number(2.0), Operator(Pow)];
    NumberThrough(ctx, vars, rpn, 0, 3.0, []);
    NegThrough(ctx, vars, rpn, 1, [], 3.0);
    NumberThrough(ctx, vars, rpn, 2, 2.0, [] + [-3.0]);
    PowLast(ctx, vars, rpn, -3.0, 2.0);
  }

  /** `-3^2` is evaluated as `(-3)^2`: the tokenizer reads a leading `-` as
      unary minus, which binds tighter than `^`. */
  lemma NegThenPowEvaluation(ctx: Context, vars: seq<Slot>)
    requires ctx.lib.strtod("3^2") == Scanned(3.0, 1)
    requires ctx.lib.strtod("2") == Scanned(2.0, 1)
    ensures Evaluate(ctx, vars, "-3^2") == ApplyBinary(ctx.lib, Pow, -3.0, 2.0)
  {
    NegThenPowTokens(ctx.lib.strtod);
    NegThenPowConversion();
    NegThenPowRpn(ctx, vars);
  }

  lemma FactThenMinusTokens(strtod: Strtod)
    requires strtod("5!-3") == Scanned(5.0, 1)
    requires strtod("3") == Scanned(3.0, 1)
    ensures Tokens(strtod, "5!-3") == Ok([Number(5.0), Operator(Fact), Operator(UnaryMinus), Number(3.0)])
  {
    var s := "5!-3";
    var fact, neg, five, three := Operator(Fact), Operator(UnaryMinus), Number(5.0), Number(3.0);
    assert s[0] == '5' && s[1] == '!' && s[2] == '-' && s[3] == '3';
    assert s[0..] == s && s[3..] == "3";
    assert OperatorFor('!', false) == Fact && OperatorFor('-', true) == UnaryMinus;
    assert [] + [five] == [five] && [five] + [fact] == [five, fact];
    assert [five, fact] + [neg] == [five, fact, neg];
    assert [five, fact, neg] + [three] == [five, fact, neg, three];
    assert Lex(strtod, s, 4, TNumber, [five, fact, neg, three]) == Ok([five, fact, neg, three]);
    assert Lex(strtod, s, 3, TOperator, [five, fact, neg]) == Lex(strtod, s, 4, TNumber, [five, fact, neg, three]);
    assert Lex(strtod, s, 2, TOperator, [five, fact]) == Lex(strtod, s, 3, TOperator, [five, fact, neg]);
    assert Lex(strtod, s, 1, TNumber, [five]) == Lex(strtod, s, 2, TOperator, [five, fact]);
    assert Lex(strtod, s, 0, TOperator, []) == Lex(strtod, s, 1, TNumber, [five]);
  }

  lemma FactThenMinusConversion()
    ensures ToRpn([Number(5.0), Operator(Fact), Operator(UnaryMinus), Number(3.0)])
      == Ok([Number(5.0), Operator(Fact), Number(3.0), Operator(UnaryMinus)])
  {
    var fact, neg, five, three := Operator(Fact), Operator(UnaryMinus), Number(5.0), Number(3.0);
    var t := [five, fact, neg, three];
    EmitThrough(t, 0, five, [], []);
    assert [] + [five] == [five] && [] + [fact] == [fact];
    NoPopThrough(t, 1, Fact, [], [five]);
    PopOneThrough(t, 2, UnaryMinus, Fact, [five]);
    EmitThrough(t, 3, three, [neg], [five] + [fact]);
    EndOne(t, UnaryMinus, [five] + [fact] + [three]);
    assert [five] + [fact] + [three] + [neg] == [five, fact, three, neg];
  }

  lemma FactThenMinusRpn(ctx: Context, vars: seq<Slot>)
    ensures EvalRpn(ctx, vars, [Number(5.0), Operator(Fact), Number(3.0), Operator(UnaryMinus)])
      == Err(Malformed(2))
  {
    var rpn := [Number(5.0), Operator(Fact), Number(3.0), Operator(UnaryMinus)];
    FactorialAcceptsNearIntegers(5.0, 5);
    var f := FactorialValue(ctx.lib, 5.0);
    NumberThrough(ctx, vars, rpn, 0, 5.0, []);
    FactThrough(ctx, vars, rpn, 1, [], 5.0);
    NumberThrough(ctx, vars, rpn, 2, 3.0, [] + [f]);
    NegThrough(ctx, vars, rpn, 3, [] + [f], 3.0);
    assert Run(ctx, vars, rpn, 4, [] + [f] + [-3.0]) == Ok([] + [f] + [-3.0]);
  }

  /** `5!-3` is rejected with two values left on the stack: after `!` the
      tokenizer reads `-` as unary minus, so the line means `5!` followed by
      `-3`. */
  lemma FactThenMinusEvaluation(ctx: Context, vars: seq<Slot>)
    requires ctx.lib.strtod("5!-3") == Scanned(5.0, 1)
    requires ctx.lib.strtod("3") == Scanned(3.0, 1)
    ensures Evaluate(ctx, vars, "5!-3") == Err(Malformed(2))
  {
    FactThenMinusTokens(ctx.lib.strtod);
    FactThenMinusConversion();
    FactThenMinusRpn(ctx, vars);
  }
}
