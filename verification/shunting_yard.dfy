/** The converter `to_rpn_local`: Dijkstra's shunting-yard algorithm from infix
    tokens to postfix (RPN) tokens, with an explicit operator stack. */
module ShuntingYard {
  import opened CalcTypes
  import opened Operators

  /** Operator stacks are sequences whose last element is the top. */
  type Stack = seq<Token>

  /** Pops and emits operators while the arriving operator `op` must not be
      placed above them. */
  function PopOperators(op: OpKind, stack: Stack, out: seq<Token>): (r: (Stack, seq<Token>))
    ensures |r.0| <= |stack| && r.0 == stack[..|r.0|]
    ensures |r.1| == |out| + |stack| - |r.0| && r.1[..|out|] == out
    ensures forall k | |out| <= k < |r.1| :: r.1[k] == stack[|stack| - 1 - (k - |out|)]
    ensures forall k | |r.0| <= k < |stack| :: stack[k].Operator? && ShouldPop(op, stack[k].op)
    ensures r.0 == [] || !Last(r.0).Operator? || !ShouldPop(op, Last(r.0).op)
    decreases |stack|
  {
    if |stack| > 0 && Last(stack).Operator? && ShouldPop(op, Last(stack).op)
    then PopOperators(op, Drop(stack), out + [Last(stack)])
    else (stack, out)
  }

  /** Pops and emits entries until a `(` is on top or the stack is empty. */
  function PopToParen(stack: Stack, out: seq<Token>): (r: (Stack, seq<Token>))
    ensures |r.0| <= |stack| && r.0 == stack[..|r.0|]
    ensures |r.1| == |out| + |stack| - |r.0| && r.1[..|out|] == out
    ensures forall k | |out| <= k < |r.1| :: r.1[k] == stack[|stack| - 1 - (k - |out|)]
    ensures forall k | |r.0| <= k < |stack| :: !stack[k].LParen?
    ensures r.0 == [] || Last(r.0).LParen?
    decreases |stack|
  {
    if |stack| > 0 && !Last(stack).LParen?
    then PopToParen(Drop(stack), out + [Last(stack)])
    else (stack, out)
  }

  /** After a `)` has removed its `(`: a function entry now on top is emitted. */
  function CloseParen(stack: Stack, out: seq<Token>): (Stack, seq<Token>) {
    if |stack| > 0 && Last(stack).Func? then (Drop(stack), out + [Last(stack)]) else (stack, out)
  }

  /** One token of the conversion loop. */
  function ShuntStep(tk: Token, stack: Stack, out: seq<Token>): Result<(Stack, seq<Token>)> {
    match tk
    case Number(_) => Ok((stack, out + [tk]))
    case Ident(_) => Ok((stack, out + [tk]))
    case Func(_, _) => Ok((stack + [tk], out))
    case Operator(op) =>
      var (st, o) := PopOperators(op, stack, out);
      Ok((st + [tk], o))
    case LParen => Ok((stack + [tk], out))
    case Comma =>
      var (st, o) := PopToParen(stack, out);
      if st == [] then Err(MisplacedComma) else Ok((st, o))
    case RParen =>
      var (st, o) := PopToParen(stack, out);
      if st == [] then Err(UnbalancedParen) else Ok(CloseParen(Drop(st), o))
  }

  /** End of input: the remaining entries are emitted from the top down; a
      parenthesis among them is an error. */
  function Flush(stack: Stack, out: seq<Token>): Result<seq<Token>>
    decreases |stack|
  {
    if stack == [] then Ok(out)
    else if Last(stack).LParen? || Last(stack).RParen? then Err(UnbalancedParen)
    else Flush(Drop(stack), out + [Last(stack)])
  }

  function Shunt(toks: seq<Token>, i: nat, stack: Stack, out: seq<Token>): Result<seq<Token>>
    requires i <= |toks|
    decreases |toks| - i
  {
    if i == |toks| then Flush(stack, out)
    else
      match ShuntStep(toks[i], stack, out)
      case Err(e) => Err(e)
      case Ok((st, o)) => Shunt(toks, i + 1, st, o)
  }

  function ToRpn(toks: seq<Token>): Result<seq<Token>> {
    Shunt(toks, 0, [], [])
  }

  lemma PrefixStep<T>(a: array<T>, top: nat)
    requires top < a.Length
    ensures a[..top + 1] == a[..top] + [a[top]]
    ensures a[..top + 1][..top] == a[..top]
  {
  }

  /** The loop of `to_rpn_local` that pops operators ahead of an arriving one. */
  method PopOperatorsLoop(opstack: array<Token>, top0: nat, out0: seq<Token>, op: OpKind)
    returns (top: nat, out: seq<Token>)
    requires top0 <= opstack.Length
    ensures top <= top0
    ensures (opstack[..top], out) == PopOperators(op, opstack[..top0], out0)
  {
    top, out := top0, out0;
    while top > 0 && opstack[top - 1].Operator?
      invariant top <= top0
      invariant PopOperators(op, opstack[..top], out) == PopOperators(op, opstack[..top0], out0)
    {
      if ShouldPop(op, opstack[top - 1].op) {
        PrefixStep(opstack, top - 1);
        top := top - 1;
        out := out + [opstack[top]];
      } else {
        break;
      }
    }
  }

  /** The loops of `to_rpn_local` that pop entries down to the nearest `(`
      (for a comma and for a closing parenthesis). */
  method PopToParenLoop(opstack: array<Token>, top0: nat, out0: seq<Token>)
    returns (top: nat, out: seq<Token>)
    requires top0 <= opstack.Length
    ensures top <= top0
    ensures (opstack[..top], out) == PopToParen(opstack[..top0], out0)
  {
    top, out := top0, out0;
    while top > 0 && !opstack[top - 1].LParen?
      invariant top <= top0
      invariant PopToParen(opstack[..top], out) == PopToParen(opstack[..top0], out0)
    {
      PrefixStep(opstack, top - 1);
      top := top - 1;
      out := out + [opstack[top]];
    }
  }

  /** Pushes `tk` on the operator stack buffer holding `top` entries. */
  method PushEntry(opstack: array<Token>, top: nat, tk: Token)
    requires top < opstack.Length
    modifies opstack
    ensures opstack[..top + 1] == old(opstack[..top]) + [tk]
  {
    opstack[top] := tk;
    assert opstack[..top + 1] == opstack[..top] + [opstack[top]];
  }

  /** The body of the conversion loop for one token: the new stack height and
      output, or the error. */
  method ConvertOne(opstack: array<Token>, top0: nat, out0: seq<Token>, tk: Token)
    returns (r: Result<(nat, seq<Token>)>)
    requires top0 < opstack.Length
    modifies opstack
    ensures r.Ok? ==> r.value.0 <= top0 + 1
    ensures r.Ok? ==> ShuntStep(tk, old(opstack[..top0]), out0) == Ok((opstack[..r.value.0], r.value.1))
    ensures r.Err? ==> ShuntStep(tk, old(opstack[..top0]), out0) == Err(r.error)
  {
    if tk.Number? || tk.Ident? {
      return Ok((top0, out0 + [tk]));
    } else if tk.Func? || tk.LParen? {
      PushEntry(opstack, top0, tk);
      return Ok((top0 + 1, out0));
    } else if tk.Operator? {
      var top, out := PopOperatorsLoop(opstack, top0, out0, tk.op);
      PushEntry(opstack, top, tk);
      return Ok((top + 1, out));
    } else if tk.Comma? {
      var top, out := PopToParenLoop(opstack, top0, out0);
      if top == 0 {
        return Err(MisplacedComma);
      }
      return Ok((top, out));
    } else {
      var top, out := PopToParenLoop(opstack, top0, out0);
      if top == 0 {
        return Err(UnbalancedParen);
      }
      PrefixStep(opstack, top - 1);
      top := top - 1;
      if top > 0 && opstack[top - 1].Func? {
        PrefixStep(opstack, top - 1);
        top := top - 1;
        out := out + [opstack[top]];
      }
      return Ok((top, out));
    }
  }

  /** The final loop of `to_rpn_local`: emits the remaining entries. */
  method FlushLoop(opstack: array<Token>, top0: nat, out0: seq<Token>) returns (r: Result<seq<Token>>)
    requires top0 <= opstack.Length
    ensures r == Flush(opstack[..top0], out0)
  {
    var top, out := top0, out0;
    while top > 0
      invariant 0 <= top <= top0
      invariant Flush(opstack[..top], out) == Flush(opstack[..top0], out0)
    {
      if opstack[top - 1].LParen? || opstack[top - 1].RParen? {
        return Err(UnbalancedParen);
      }
      PrefixStep(opstack, top - 1);
      top := top - 1;
      out := out + [opstack[top]];
    }
    return Ok(out);
  }

  /** `to_rpn_local`: the operator stack is a buffer of MaxStack entries with
      index `top`; the input list holds at most MaxTokens tokens. */
  method ConvertToRpn(toks: seq<Token>) returns (r: Result<seq<Token>>)
    requires |toks| <= MaxTokens
    ensures r == ToRpn(toks)
  {
    var opstack := new Token[MaxStack](_ => LParen);
    var top := 0;
    var out: seq<Token> := [];
    var i := 0;
    while i < |toks|
      invariant 0 <= top <= i <= |toks|
      invariant Shunt(toks, i, opstack[..top], out) == ToRpn(toks)
    {
      var res := ConvertOne(opstack, top, out, toks[i]);
      if res.Err? {
        return Err(res.error);
      }
      top, out := res.value.0, res.value.1;
      i := i + 1;
    }
    r := FlushLoop(opstack, top, out);
  }

  // ---------------------------------------------------------------------
  // What the conversion keeps, drops and reorders

  predicate IsOperand(t: Token) { t.Number? || t.Ident? }
  predicate IsPunct(t: Token) { t.LParen? || t.RParen? || t.Comma? }

  /** The numbers and identifiers of a token sequence, in order. */
  function Operands(s: seq<Token>): seq<Token> {
    if s == [] then [] else Operands(Drop(s)) + (if IsOperand(Last(s)) then [Last(s)] else [])
  }

  /** The tokens of a sequence other than `(`, `)` and `,`, in order. */
  function Kept(s: seq<Token>): seq<Token> {
    if s == [] then [] else Kept(Drop(s)) + (if IsPunct(Last(s)) then [] else [Last(s)])
  }

  /** The number of `(` entries on a stack. */
  function LParens(s: Stack): nat {
    if s == [] then 0 else LParens(Drop(s)) + (if Last(s).LParen? then 1 else 0)
  }

  /** The operator stack only ever holds functions, operators and `(`. */
  predicate StackShape(st: Stack) {
    forall k | 0 <= k < |st| :: st[k].Func? || st[k].Operator? || st[k].LParen?
  }

  predicate NoPunct(o: seq<Token>) {
    forall k | 0 <= k < |o| :: !IsPunct(o[k])
  }

  lemma SnocFilters(s: seq<Token>, t: Token)
    ensures Drop(s + [t]) == s && Last(s + [t]) == t
    ensures Operands(s + [t]) == Operands(s) + (if IsOperand(t) then [t] else [])
    ensures Kept(s + [t]) == Kept(s) + (if IsPunct(t) then [] else [t])
    ensures LParens(s + [t]) == LParens(s) + (if t.LParen? then 1 else 0)
  {
    assert Drop(s + [t]) == s;
  }

  /** Moving the top entry of the stack to the output. */
  lemma MoveTop(st: Stack, out: seq<Token>)
    requires |st| > 0 && StackShape(st) && NoPunct(out) && !Last(st).LParen?
    ensures StackShape(Drop(st)) && NoPunct(out + [Last(st)])
    ensures multiset(out + [Last(st)]) + multiset(Kept(Drop(st))) == multiset(out) + multiset(Kept(st))
    ensures Operands(out + [Last(st)]) == Operands(out)
    ensures LParens(Drop(st)) == LParens(st)
  {
    var t := Last(st);
    var rest := Drop(st);
    assert rest + [t] == st;
    assert t.Func? || t.Operator? by { assert st[|st| - 1] == t; }
    SnocFilters(rest, t);
    SnocFilters(out, t);
    assert Kept(st) == Kept(rest) + [t];
    assert multiset(Kept(st)) == multiset(Kept(rest)) + multiset{t};
    assert multiset(out + [t]) == multiset(out) + multiset{t};
  }

  lemma {:induction false} PopOperatorsMoves(op: OpKind, st: Stack, out: seq<Token>)
    requires StackShape(st) && NoPunct(out)
    ensures var (st', out') := PopOperators(op, st, out);
      StackShape(st') && NoPunct(out') &&
      multiset(out') + multiset(Kept(st')) == multiset(out) + multiset(Kept(st)) &&
      Operands(out') == Operands(out) && LParens(st') == LParens(st)
    decreases |st|
  {
    if |st| > 0 && Last(st).Operator? && ShouldPop(op, Last(st).op) {
      MoveTop(st, out);
      PopOperatorsMoves(op, Drop(st), out + [Last(st)]);
    }
  }

  lemma {:induction false} PopToParenMoves(st: Stack, out: seq<Token>)
    requires StackShape(st) && NoPunct(out)
    ensures var (st', out') := PopToParen(st, out);
      StackShape(st') && NoPunct(out') &&
      multiset(out') + multiset(Kept(st')) == multiset(out) + multiset(Kept(st)) &&
      Operands(out') == Operands(out) && LParens(st') == LParens(st) &&
      (st' == [] <==> LParens(st) == 0)
    decreases |st|
  {
    if |st| > 0 && !Last(st).LParen? {
      MoveTop(st, out);
      PopToParenMoves(Drop(st), out + [Last(st)]);
    } else if |st| > 0 {
      SnocFilters(Drop(st), Last(st));
      assert Drop(st) + [Last(st)] == st;
    }
  }

  lemma {:induction false} FlushMoves(st: Stack, out: seq<Token>)
    requires StackShape(st) && NoPunct(out)
    ensures Flush(st, out).Ok? <==> LParens(st) == 0
    ensures Flush(st, out).Ok? ==>
      NoPunct(Flush(st, out).value) &&
      multiset(Flush(st, out).value) == multiset(out) + multiset(Kept(st)) &&
      Operands(Flush(st, out).value) == Operands(out)
    decreases |st|
  {
    if st != [] {
      SnocFilters(Drop(st), Last(st));
      assert Drop(st) + [Last(st)] == st;
      if !Last(st).LParen? {
        MoveTop(st, out);
        FlushMoves(Drop(st), out + [Last(st)]);
      }
    }
  }

  /** A token that is neither punctuation nor an operand is kept by itself. */
  lemma SingleFilters(t: Token)
    ensures Kept([t]) == (if IsPunct(t) then [] else [t])
    ensures Operands([t]) == (if IsOperand(t) then [t] else [])
  {
    SnocFilters([], t);
    assert [] + [t] == [t];
  }

  /** Pushing a function, operator or `(` onto the stack. */
  lemma PushMoves(t: Token, st: Stack)
    requires StackShape(st) && (t.Func? || t.Operator? || t.LParen?)
    ensures StackShape(st + [t])
    ensures multiset(Kept(st + [t])) == multiset(Kept(st)) + multiset(Kept([t]))
    ensures LParens(st + [t]) == LParens(st) + (if t.LParen? then 1 else 0)
  {
    SnocFilters(st, t);
    SingleFilters(t);
    forall k | 0 <= k < |st + [t]|
      ensures (st + [t])[k].Func? || (st + [t])[k].Operator? || (st + [t])[k].LParen?
    {
      if k < |st| { assert (st + [t])[k] == st[k]; }
    }
  }

  /** Emitting a number or identifier directly. */
  lemma EmitMoves(t: Token, out: seq<Token>)
    requires NoPunct(out) && IsOperand(t)
    ensures NoPunct(out + [t])
    ensures multiset(out + [t]) == multiset(out) + multiset(Kept([t]))
    ensures Operands(out + [t]) == Operands(out) + Operands([t])
  {
    SnocFilters(out, t);
    SingleFilters(t);
  }

  /** After the pops of a `)`: dropping its `(` and emitting a function below it. */
  lemma CloseMoves(st: Stack, out: seq<Token>)
    requires StackShape(st) && NoPunct(out) && st != [] && Last(st).LParen?
    ensures var (st', out') := CloseParen(Drop(st), out);
      StackShape(st') && NoPunct(out') &&
      multiset(out') + multiset(Kept(st')) == multiset(out) + multiset(Kept(st)) &&
      Operands(out') == Operands(out) && LParens(st') + 1 == LParens(st)
  {
    var rest := Drop(st);
    assert rest + [Last(st)] == st;
    SnocFilters(rest, Last(st));
    if |rest| > 0 && Last(rest).Func? {
      MoveTop(rest, out);
    }
  }

  /** How a token changes the number of open parentheses on the stack. */
  function Depth(tk: Token): int {
    if tk.LParen? then 1 else if tk.RParen? then -1 else 0
  }

  /** What one step does to stack and output: their shapes are kept, the kept
      tokens move without being lost or duplicated, operands pass straight
      through, and the open parentheses follow the token. */
  predicate Moved(tk: Token, st: Stack, out: seq<Token>, st': Stack, out': seq<Token>) {
    StackShape(st') && NoPunct(out') &&
    multiset(out') + multiset(Kept(st')) == multiset(out) + multiset(Kept(st)) + multiset(Kept([tk])) &&
    Operands(out') == Operands(out) + Operands([tk]) &&
    LParens(st') == LParens(st) + Depth(tk)
  }

  lemma OperandMoves(tk: Token, st: Stack, out: seq<Token>)
    requires StackShape(st) && NoPunct(out) && IsOperand(tk)
    ensures Moved(tk, st, out, st, out + [tk])
  {
    SingleFilters(tk);
    EmitMoves(tk, out);
    assert Depth(tk) == 0;
  }

  lemma OpenMoves(tk: Token, st: Stack, out: seq<Token>)
    requires StackShape(st) && NoPunct(out) && (tk.Func? || tk.LParen?)
    ensures Moved(tk, st, out, st + [tk], out)
  {
    SingleFilters(tk);
    PushMoves(tk, st);
    assert Operands([tk]) == [] && Operands(out) + [] == Operands(out);
    assert StackShape(st + [tk]);
    assert multiset(out) + multiset(Kept(st + [tk])) == multiset(out) + multiset(Kept(st)) + multiset(Kept([tk]));
    assert LParens(st + [tk]) == LParens(st) + Depth(tk);
  }

  lemma OperatorMoves(op: OpKind, st: Stack, out: seq<Token>)
    requires StackShape(st) && NoPunct(out)
    ensures var (st1, o1) := PopOperators(op, st, out);
      Moved(Operator(op), st, out, st1 + [Operator(op)], o1)
  {
    var tk := Operator(op);
    SingleFilters(tk);
    PopOperatorsMoves(op, st, out);
    var (st1, o1) := PopOperators(op, st, out);
    PushMoves(tk, st1);
    assert Operands([tk]) == [] && Operands(out) + [] == Operands(out);
  }

  lemma CommaMoves(st: Stack, out: seq<Token>)
    requires StackShape(st) && NoPunct(out)
    ensures var (st1, o1) := PopToParen(st, out);
      (st1 == [] <==> LParens(st) == 0) &&
      (st1 != [] ==> Moved(Comma, st, out, st1, o1))
  {
    SingleFilters(Comma);
    PopToParenMoves(st, out);
    assert multiset(Kept([Comma])) == multiset{};
    assert Operands(out) + [] == Operands(out);
  }

  lemma CloseMoves'(st: Stack, out: seq<Token>)
    requires StackShape(st) && NoPunct(out)
    ensures var (st1, o1) := PopToParen(st, out);
      (st1 == [] <==> LParens(st) == 0) &&
      (st1 != [] ==> Moved(RParen, st, out, CloseParen(Drop(st1), o1).0, CloseParen(Drop(st1), o1).1))
  {
    SingleFilters(RParen);
    PopToParenMoves(st, out);
    var (st1, o1) := PopToParen(st, out);
    assert multiset(Kept([RParen])) == multiset{};
    assert Operands(out) + [] == Operands(out);
    if st1 != [] {
      CloseMoves(st1, o1);
    }
  }

  /** One step fails exactly on a `)` or `,` with no `(` open, and otherwise
      moves the tokens as `Moved` describes. */
  lemma StepMoves(tk: Token, st: Stack, out: seq<Token>)
    requires StackShape(st) && NoPunct(out)
    ensures ShuntStep(tk, st, out).Err? <==> (tk.RParen? || tk.Comma?) && LParens(st) == 0
    ensures ShuntStep(tk, st, out).Ok? ==>
      Moved(tk, st, out, ShuntStep(tk, st, out).value.0, ShuntStep(tk, st, out).value.1)
  {
    match tk
    case Number(_) =>
      OperandMoves(tk, st, out);
      assert ShuntStep(tk, st, out) == Ok((st, out + [tk]));
    case Ident(_) =>
      OperandMoves(tk, st, out);
      assert ShuntStep(tk, st, out) == Ok((st, out + [tk]));
    case Func(_, _) =>
      OpenMoves(tk, st, out);
      assert ShuntStep(tk, st, out) == Ok((st + [tk], out));
    case LParen =>
      OpenMoves(tk, st, out);
      assert ShuntStep(tk, st, out) == Ok((st + [tk], out));
    case Operator(op) =>
      OperatorMoves(op, st, out);
      var (st1, o1) := PopOperators(op, st, out);
      assert ShuntStep(tk, st, out) == Ok((st1 + [tk], o1));
    case Comma =>
      CommaMoves(st, out);
      var (st1, o1) := PopToParen(st, out);
      assert ShuntStep(tk, st, out) == if st1 == [] then Err(MisplacedComma) else Ok((st1, o1));
    case RParen =>
      CloseMoves'(st, out);
      var (st1, o1) := PopToParen(st, out);
      assert ShuntStep(tk, st, out) ==
        if st1 == [] then Err(UnbalancedParen) else Ok(CloseParen(Drop(st1), o1));
  }

  lemma PrefixFilters(toks: seq<Token>, i: nat)
    requires i < |toks|
    ensures Kept(toks[..i + 1]) == Kept(toks[..i]) + Kept([toks[i]])
    ensures Operands(toks[..i + 1]) == Operands(toks[..i]) + Operands([toks[i]])
  {
    assert toks[..i + 1] == toks[..i] + [toks[i]];
    SnocFilters(toks[..i], toks[i]);
    SingleFilters(toks[i]);
  }

  lemma {:induction false} ShuntMoves(toks: seq<Token>, i: nat, st: Stack, out: seq<Token>)
    requires i <= |toks| && StackShape(st) && NoPunct(out)
    requires multiset(out) + multiset(Kept(st)) == multiset(Kept(toks[..i]))
    requires Operands(out) == Operands(toks[..i])
    ensures Shunt(toks, i, st, out).Ok? ==>
      NoPunct(Shunt(toks, i, st, out).value) &&
      multiset(Shunt(toks, i, st, out).value) == multiset(Kept(toks)) &&
      Operands(Shunt(toks, i, st, out).value) == Operands(toks)
    decreases |toks| - i
  {
    if i == |toks| {
      assert toks[..i] == toks;
      FlushMoves(st, out);
    } else {
      var step := ShuntStep(toks[i], st, out);
      if step.Ok? {
        var (st', out') := step.value;
        StepMoves(toks[i], st, out);
        PrefixFilters(toks, i);
        assert multiset(out') + multiset(Kept(st')) == multiset(Kept(toks[..i + 1]));
        ShuntMoves(toks, i + 1, st', out');
      }
    }
  }

  /** Every kept token comes from the sequence and is not punctuation. */
  lemma {:induction false} KeptFrom(s: seq<Token>, x: Token)
    ensures x in Kept(s) ==> x in s && !IsPunct(x)
    decreases |s|
  {
    if s != [] {
      KeptFrom(Drop(s), x);
      assert Drop(s) + [Last(s)] == s;
      assert forall y | y in Drop(s) :: y in s;
    }
  }

  /** A successful conversion emits no `(`, `)` or `,`; it emits every number,
      identifier, operator and function token of the input exactly once (a
      permutation), and the numbers and identifiers in their original order. */
  lemma RpnIsPermutation(toks: seq<Token>)
    ensures ToRpn(toks).Ok? ==>
      NoPunct(ToRpn(toks).value) &&
      multiset(ToRpn(toks).value) == multiset(Kept(toks)) &&
      Operands(ToRpn(toks).value) == Operands(toks)
  {
    assert toks[..0] == [];
    ShuntMoves(toks, 0, [], []);
  }

  // ---------------------------------------------------------------------
  // Parenthesis errors

  /** Reference definition of a balanced token sequence: reading left to right
      with a depth counter, no `)` and no `,` at depth 0, and depth 0 at the end. */
  predicate ParensFrom(toks: seq<Token>, i: nat, depth: nat)
    requires i <= |toks|
    decreases |toks| - i
  {
    if i == |toks| then depth == 0
    else match toks[i]
      case LParen => ParensFrom(toks, i + 1, depth + 1)
      case RParen => depth > 0 && ParensFrom(toks, i + 1, depth - 1)
      case Comma => depth > 0 && ParensFrom(toks, i + 1, depth)
      case _ => ParensFrom(toks, i + 1, depth)
  }

  predicate ParensBalanced(toks: seq<Token>) { ParensFrom(toks, 0, 0) }

  /** One token of the depth count. */
  lemma ParensStep(toks: seq<Token>, i: nat, d: nat)
    requires i < |toks|
    ensures ParensFrom(toks, i, d) <==>
      !((toks[i].RParen? || toks[i].Comma?) && d == 0) &&
      d + Depth(toks[i]) >= 0 && ParensFrom(toks, i + 1, d + Depth(toks[i]))
  {
  }

  /** The part of `StepMoves` the parenthesis count needs. */
  lemma StepDepth(tk: Token, st: Stack, out: seq<Token>)
    requires StackShape(st) && NoPunct(out)
    ensures ShuntStep(tk, st, out).Err? <==> (tk.RParen? || tk.Comma?) && LParens(st) == 0
    ensures ShuntStep(tk, st, out).Ok? ==>
      var (st', out') := ShuntStep(tk, st, out).value;
      StackShape(st') && NoPunct(out') && LParens(st') == LParens(st) + Depth(tk)
  {
    StepMoves(tk, st, out);
  }

  lemma {:induction false} ShuntParens(toks: seq<Token>, i: nat, st: Stack, out: seq<Token>)
    requires i <= |toks| && StackShape(st) && NoPunct(out)
    ensures Shunt(toks, i, st, out).Ok? <==> ParensFrom(toks, i, LParens(st))
    decreases |toks| - i
  {
    if i == |toks| {
      FlushMoves(st, out);
    } else {
      var tk := toks[i];
      StepDepth(tk, st, out);
      ParensStep(toks, i, LParens(st));
      var step := ShuntStep(tk, st, out);
      if step.Ok? {
        var (st', out') := step.value;
        assert Shunt(toks, i, st, out) == Shunt(toks, i + 1, st', out');
        ShuntParens(toks, i + 1, st', out');
      } else {
        assert Shunt(toks, i, st, out).Err?;
      }
    }
  }

  /** The conversion fails exactly on unbalanced input: a `)` without an open
      `(`, a `,` outside every parenthesis, or a `(` never closed. */
  lemma RpnFailsIffUnbalanced(toks: seq<Token>)
    ensures ToRpn(toks).Ok? <==> ParensBalanced(toks)
  {
    ShuntParens(toks, 0, [], []);
  }

  /** The converter's own failures. */
  predicate ParenError(e: CalcError) { e == MisplacedComma || e == UnbalancedParen }

  lemma {:induction false} FlushFailsOnParens(st: Stack, out: seq<Token>)
    ensures Flush(st, out).Err? ==> Flush(st, out).error == UnbalancedParen
    decreases |st|
  {
    if st != [] && !(Last(st).LParen? || Last(st).RParen?) {
      FlushFailsOnParens(Drop(st), out + [Last(st)]);
    }
  }

  lemma {:induction false} ShuntFailsOnParens(toks: seq<Token>, i: nat, st: Stack, out: seq<Token>)
    requires i <= |toks|
    ensures Shunt(toks, i, st, out).Err? ==> ParenError(Shunt(toks, i, st, out).error)
    decreases |toks| - i
  {
    if i == |toks| {
      FlushFailsOnParens(st, out);
    } else {
      match ShuntStep(toks[i], st, out)
      case Err(_) =>
      case Ok((st', out')) => ShuntFailsOnParens(toks, i + 1, st', out');
    }
  }

  /** The converter reports only a misplaced comma or an unbalanced parenthesis. */
  lemma RpnFailsOnlyOnParens(toks: seq<Token>)
    ensures ToRpn(toks).Err? ==> ParenError(ToRpn(toks).error)
  {
    ShuntFailsOnParens(toks, 0, [], []);
  }

  // ---------------------------------------------------------------------
  // Worked conversions

  /** Single conversion steps on a token list, for the worked examples. */
  lemma EmitThrough(toks: seq<Token>, i: nat, tk: Token, st: Stack, out: seq<Token>)
    requires i < |toks| && toks[i] == tk && IsOperand(tk)
    ensures Shunt(toks, i, st, out) == Shunt(toks, i + 1, st, out + [tk])
  {
  }

  lemma PushThrough(toks: seq<Token>, i: nat, tk: Token, st: Stack, out: seq<Token>)
    requires i < |toks| && toks[i] == tk && (tk.Func? || tk.LParen?)
    ensures Shunt(toks, i, st, out) == Shunt(toks, i + 1, st + [tk], out)
  {
  }

  /** An operator arriving on a stack whose top it does not pop. */
  lemma NoPopThrough(toks: seq<Token>, i: nat, op: OpKind, st: Stack, out: seq<Token>)
    requires i < |toks| && toks[i] == Operator(op)
    requires st == [] || !Last(st).Operator? || !ShouldPop(op, Last(st).op)
    ensures Shunt(toks, i, st, out) == Shunt(toks, i + 1, st + [Operator(op)], out)
  {
  }

  /** An operator arriving on a stack holding one operator that it pops. */
  lemma PopOneThrough(toks: seq<Token>, i: nat, op: OpKind, top: OpKind, out: seq<Token>)
    requires i < |toks| && toks[i] == Operator(op) && ShouldPop(op, top)
    ensures Shunt(toks, i, [Operator(top)], out) == Shunt(toks, i + 1, [Operator(op)], out + [Operator(top)])
  {
    assert Drop([Operator(top)]) == [];
    assert PopOperators(op, [], out + [Operator(top)]) == ([], out + [Operator(top)]);
    assert [] + [Operator(op)] == [Operator(op)];
  }

  /** A `,` right after the `(` it belongs to. */
  lemma CommaThrough(toks: seq<Token>, i: nat, st: Stack, out: seq<Token>)
    requires i < |toks| && toks[i] == Comma && st != [] && Last(st).LParen?
    ensures Shunt(toks, i, st, out) == Shunt(toks, i + 1, st, out)
  {
  }

  /** A `)` right after the arguments of a call: the `(` goes and the function
      below it is emitted. */
  lemma CloseCallThrough(toks: seq<Token>, i: nat, f: Token, below: Stack, out: seq<Token>)
    requires i < |toks| && toks[i] == RParen && f.Func?
    ensures Shunt(toks, i, below + [f] + [LParen], out) == Shunt(toks, i + 1, below, out + [f])
  {
    var st := below + [f] + [LParen];
    assert Drop(st) == below + [f] && Last(st) == LParen;
    assert Drop(below + [f]) == below && Last(below + [f]) == f;
  }

  /** Flushing one operator at the end of the input. */
  lemma EndOne(toks: seq<Token>, op: OpKind, out: seq<Token>)
    ensures Shunt(toks, |toks|, [Operator(op)], out) == Ok(out + [Operator(op)])
  {
    assert Drop([Operator(op)]) == [];
    assert Flush([Operator(op)], out) == Flush([], out + [Operator(op)]);
  }

  /** Flushing two operators at the end of the input, the top one first. */
  lemma EndTwo(toks: seq<Token>, a: OpKind, b: OpKind, out: seq<Token>)
    ensures Shunt(toks, |toks|, [Operator(a), Operator(b)], out) == Ok(out + [Operator(b)] + [Operator(a)])
  {
    assert Drop([Operator(a), Operator(b)]) == [Operator(a)] && Drop([Operator(a)]) == [];
    assert Flush([Operator(a)], out + [Operator(b)]) == Flush([], out + [Operator(b)] + [Operator(a)]);
  }

  /** `-3^2` as the tokenizer delivers it becomes `3 neg 2 ^`: the unary minus
      is popped by the arriving `^`, so the power applies to `-3`. */
  lemma NegThenPowConversion()
    ensures ToRpn([Operator(UnaryMinus), Number(3.0), Operator(Pow), Number(2.0)])
      == Ok([Number(3.0), Operator(UnaryMinus), Number(2.0), Operator(Pow)])
  {
    var neg, pow, three, two := Operator(UnaryMinus), Operator(Pow), Number(3.0), Number(2.0);
    var t := [neg, three, pow, two];
    NoPopThrough(t, 0, UnaryMinus, [], []);
    assert [] + [neg] == [neg];
    EmitThrough(t, 1, three, [neg], []);
    assert [] + [three] == [three];
    PopOneThrough(t, 2, Pow, UnaryMinus, [three]);
    EmitThrough(t, 3, two, [pow], [three] + [neg]);
    EndOne(t, Pow, [three] + [neg] + [two]);
    assert [three] + [neg] + [two] + [pow] == [three, neg, two, pow];
  }

  /** `2^3^2` groups to the right: `2 3 2 ^ ^`. */
  lemma PowChainConversion()
    ensures ToRpn([Number(2.0), Operator(Pow), Number(3.0), Operator(Pow), Number(2.0)])
      == Ok([Number(2.0), Number(3.0), Number(2.0), Operator(Pow), Operator(Pow)])
  {
    var pow, three, two := Operator(Pow), Number(3.0), Number(2.0);
    var t := [two, pow, three, pow, two];
    EmitThrough(t, 0, two, [], []);
    assert [] + [two] == [two];
    NoPopThrough(t, 1, Pow, [], [two]);
    assert [] + [pow] == [pow];
    EmitThrough(t, 2, three, [pow], [two]);
    NoPopThrough(t, 3, Pow, [pow], [two] + [three]);
    assert [pow] + [pow] == [pow, pow];
    EmitThrough(t, 4, two, [pow, pow], [two] + [three]);
    EndTwo(t, Pow, Pow, [two] + [three] + [two]);
    assert [two] + [three] + [two] + [pow] + [pow] == [two, three, two, pow, pow];
  }

  /** `8-3-2` groups to the left: `8 3 - 2 -`. */
  lemma SubChainConversion()
    ensures ToRpn([Number(8.0), Operator(Sub), Number(3.0), Operator(Sub), Number(2.0)])
      == Ok([Number(8.0), Number(3.0), Operator(Sub), Number(2.0), Operator(Sub)])
  {
    var sub, eight, three, two := Operator(Sub), Number(8.0), Number(3.0), Number(2.0);
    var t := [eight, sub, three, sub, two];
    EmitThrough(t, 0, eight, [], []);
    assert [] + [eight] == [eight];
    NoPopThrough(t, 1, Sub, [], [eight]);
    assert [] + [sub] == [sub];
    EmitThrough(t, 2, three, [sub], [eight]);
    PopOneThrough(t, 3, Sub, Sub, [eight] + [three]);
    EmitThrough(t, 4, two, [sub], [eight] + [three] + [sub]);
    EndOne(t, Sub, [eight] + [three] + [sub] + [two]);
    assert [eight] + [three] + [sub] + [two] + [sub] == [eight, three, sub, two, sub];
  }

  /** `pow(2,x)`: the comma flushes its argument, the `)` emits the function
      after its arguments. */
  lemma FunctionCallConversion()
    ensures ToRpn([Func("pow", 2), LParen, Number(2.0), Comma, Ident("x"), RParen])
      == Ok([Number(2.0), Ident("x"), Func("pow", 2)])
  {
    var f, two, x := Func("pow", 2), Number(2.0), Ident("x");
    var t := [f, LParen, two, Comma, x, RParen];
    PushThrough(t, 0, f, [], []);
    PushThrough(t, 1, LParen, [] + [f], []);
    EmitThrough(t, 2, two, [] + [f] + [LParen], []);
    CommaThrough(t, 3, [] + [f] + [LParen], [] + [two]);
    EmitThrough(t, 4, x, [] + [f] + [LParen], [] + [two]);
    CloseCallThrough(t, 5, f, [], [] + [two] + [x]);
    assert Shunt(t, 6, [], [] + [two] + [x] + [f]) == Ok([] + [two] + [x] + [f]);
    assert [] + [two] + [x] + [f] == [two, x, f];
  }
}
