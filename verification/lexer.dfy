/** The tokenizer `tokenize_local`: text to typed tokens. */
module Lexer {
  import opened CalcTypes
  import opened Operators

  /** Any character up to and including the space is skipped. */
  predicate IsBlank(c: char) { c <= ' ' }
  predicate IsNumberStart(c: char) { ('0' <= c <= '9') || c == '.' }
  predicate IsNameChar(c: char) { ('a' <= c <= 'z') || ('A' <= c <= 'Z') || c == '_' }
  predicate IsOperatorChar(c: char) {
    c == '+' || c == '-' || c == '*' || c == '/' || c == '^' || c == '!' || c == '%'
  }

  /** The characters the tokenizer has a branch for; any other one is rejected. */
  predicate Acceptable(c: char) {
    IsBlank(c) || IsNumberStart(c) || IsNameChar(c) || c == '(' || c == ')' || c == ',' || IsOperatorChar(c)
  }

  function ToLower(c: char): char {
    if 'A' <= c <= 'Z' then (c as int + 32) as char else c
  }

  function Lower(t: string): string {
    seq(|t|, k requires 0 <= k < |t| => ToLower(t[k]))
  }

  /** Where the identifier scan that began at `start` stops when it has reached
      `i`: at the end of the text, at a character that is not a letter or `_`,
      or once 15 characters (NameLen - 1) have been taken. */
  function NameRunEnd(s: string, start: nat, i: nat): (j: nat)
    requires start <= i <= |s| && i - start <= NameLen - 1
    ensures i <= j <= |s| && j - start <= NameLen - 1
    ensures forall k | i <= k < j :: IsNameChar(s[k])
    ensures j < |s| && j - start < NameLen - 1 ==> !IsNameChar(s[j])
    decreases |s| - i
  {
    if i < |s| && IsNameChar(s[i]) && i - start < NameLen - 1 then NameRunEnd(s, start, i + 1) else i
  }

  /** The identifier run starting at a letter or `_`: never empty. */
  function NameRun(s: string, start: nat): (j: nat)
    requires start < |s| && IsNameChar(s[start])
    ensures start < j <= |s| && j - start <= NameLen - 1
  {
    NameRunEnd(s, start, start)
  }

  /** A function token for a registered name, an identifier otherwise. */
  function NameToken(name: string): Token {
    match FuncArity(name)
    case Some(a) => Func(name, a)
    case None => Ident(name)
  }

  /** The operator a character stands for; `-` is unary minus exactly when `unary`. */
  function OperatorFor(c: char, unary: bool): OpKind
    requires IsOperatorChar(c)
  {
    if c == '+' then Add
    else if c == '-' then (if unary then UnaryMinus else Sub)
    else if c == '*' then Mul
    else if c == '/' then Div
    else if c == '^' then Pow
    else if c == '!' then Fact
    else Percent
  }

  /** `-` is read as unary after these tags, and at the very start. */
  predicate UnaryContext(t: TokType) { t == TOperator || t == TLParen || t == TComma }

  /** One round of the tokenizer's loop at position `i`, with `prev` the tag of
      the last emitted token and `out` the tokens so far: the next position,
      tag and output, or the error. A blank is skipped without emitting. */
  function LexStep(strtod: Strtod, s: string, i: nat, prev: TokType, out: seq<Token>)
    : (r: Result<(nat, TokType, seq<Token>)>)
    requires i < |s|
    ensures r.Ok? ==> i < r.value.0 <= |s|
  {
    var c := s[i];
    if IsBlank(c) then Ok((i + 1, prev, out))
    else if IsNumberStart(c) then
      match strtod(s[i..])
      case NotANumber => Err(InvalidNumber)
      case OutOfRange => Err(NumberOutOfRange)
      case Scanned(v, len) => Ok((i + len, TNumber, out + [Number(v)]))
    else if IsNameChar(c) then
      var j := NameRun(s, i);
      var t := NameToken(Lower(s[i..j]));
      Ok((j, TypeOf(t), out + [t]))
    else if c == '(' then Ok((i + 1, TLParen, out + [LParen]))
    else if c == ')' then Ok((i + 1, TRParen, out + [RParen]))
    else if c == ',' then Ok((i + 1, TComma, out + [Comma]))
    else if IsOperatorChar(c) then
      var unary := UnaryContext(prev) || |out| == 0;
      Ok((i + 1, TOperator, out + [Operator(OperatorFor(c, unary))]))
    else Err(UnrecognizedChar(c))
  }

  /** The tokenizer's loop from position `i` on. */
  function Lex(strtod: Strtod, s: string, i: nat, prev: TokType, out: seq<Token>): Result<seq<Token>>
    requires i <= |s|
    decreases |s| - i
  {
    if i == |s| then Ok(out)
    else
      match LexStep(strtod, s, i, prev, out)
      case Err(e) => Err(e)
      case Ok((j, p, o)) => Lex(strtod, s, j, p, o)
  }

  /** The token sequence of a text; `prev` starts as "operator". */
  function Tokens(strtod: Strtod, s: string): Result<seq<Token>> {
    Lex(strtod, s, 0, TOperator, [])
  }

  /** The identifier scan of `tokenize_local`: copies up to 15 letters or `_`,
      lower-cased, into the name buffer. */
  method ScanName(s: string, start: nat) returns (buf: string, i: nat)
    requires start < |s| && IsNameChar(s[start])
    ensures i == NameRun(s, start) && buf == Lower(s[start..i])
  {
    i := start;
    buf := [];
    while i < |s| && IsNameChar(s[i]) && |buf| < NameLen - 1
      invariant start <= i <= |s| && i - start <= NameLen - 1
      invariant buf == Lower(s[start..i])
      invariant NameRunEnd(s, start, i) == NameRun(s, start)
      decreases |s| - i
    {
      assert s[start..i + 1] == s[start..i] + [s[i]];
      buf := buf + [ToLower(s[i])];
      i := i + 1;
    }
  }

  /** The body of the scanning loop of `tokenize_local` at position `i`. */
  method NextToken(strtod: Strtod, s: string, i: nat, prev: TokType, out: seq<Token>)
    returns (r: Result<(nat, TokType, seq<Token>)>)
    requires i < |s|
    ensures r == LexStep(strtod, s, i, prev, out)
  {
    var c := s[i];
    if IsBlank(c) {
      return Ok((i + 1, prev, out));
    }
    if IsNumberStart(c) {
      var scan := strtod(s[i..]);
      if scan.NotANumber? {
        return Err(InvalidNumber);
      }
      if scan.OutOfRange? {
        return Err(NumberOutOfRange);
      }
      return Ok((i + scan.len, TNumber, out + [Number(scan.value)]));
    }
    if IsNameChar(c) {
      var buf, j := ScanName(s, i);
      var t := NameToken(buf);
      return Ok((j, TypeOf(t), out + [t]));
    }
    if c == '(' {
      return Ok((i + 1, TLParen, out + [LParen]));
    }
    if c == ')' {
      return Ok((i + 1, TRParen, out + [RParen]));
    }
    if c == ',' {
      return Ok((i + 1, TComma, out + [Comma]));
    }
    if IsOperatorChar(c) {
      var unary := prev == TOperator || prev == TLParen || prev == TComma || |out| == 0;
      return Ok((i + 1, TOperator, out + [Operator(OperatorFor(c, unary))]));
    }
    return Err(UnrecognizedChar(c));
  }

  /** `tokenize_local`: the scanning loop, appending to the output list. */
  method Tokenize(strtod: Strtod, s: string) returns (r: Result<seq<Token>>)
    ensures r == Tokens(strtod, s)
  {
    var i: nat := 0;
    var prev := TOperator;
    var out: seq<Token> := [];
    while i < |s|
      invariant i <= |s|
      invariant Lex(strtod, s, i, prev, out) == Tokens(strtod, s)
      decreases |s| - i
    {
      var step := NextToken(strtod, s, i, prev, out);
      if step.Err? {
        return Err(step.error);
      }
      i, prev, out := step.value.0, step.value.1, step.value.2;
    }
    return Ok(out);
  }

  // ---------------------------------------------------------------------
  // Properties of the token sequence

  /** A name as the tokenizer produces it: 1 to 15 lower-case letters or `_`. */
  predicate ValidName(n: string) {
    1 <= |n| <= NameLen - 1 && forall k | 0 <= k < |n| :: ('a' <= n[k] <= 'z') || n[k] == '_'
  }

  function LastType(out: seq<Token>): TokType {
    if out == [] then TOperator else TypeOf(Last(out))
  }

  /** What holds of the k-th token: a minus is unary exactly when it comes
      first or after an operator, `(` or `,`, and binary subtraction otherwise;
      identifiers and function names are valid names, function names are
      registered with their arity and identifiers are not registered. */
  predicate TokenWF(r: seq<Token>, k: nat)
    requires k < |r|
  {
    match r[k]
    case Operator(UnaryMinus) => k == 0 || UnaryContext(TypeOf(r[k - 1]))
    case Operator(Sub) => k > 0 && !UnaryContext(TypeOf(r[k - 1]))
    case Ident(n) => ValidName(n) && FuncArity(n).None?
    case Func(n, a) => ValidName(n) && FuncArity(n) == Some(a)
    case _ => true
  }

  predicate AllWF(r: seq<Token>) {
    forall k | 0 <= k < |r| :: TokenWF(r, k)
  }

  lemma AppendWF(out: seq<Token>, t: Token)
    requires AllWF(out)
    requires TokenWF(out + [t], |out|)
    ensures AllWF(out + [t])
  {
    var r := out + [t];
    forall k | 0 <= k < |r|
      ensures TokenWF(r, k)
    {
      if k < |out| {
        assert r[k] == out[k];
        assert k > 0 ==> r[k - 1] == out[k - 1];
        assert TokenWF(out, k);
      }
    }
  }

  lemma LowerIsValidName(s: string, i: nat, j: nat)
    requires i < j <= |s| && j - i <= NameLen - 1
    requires forall k | i <= k < j :: IsNameChar(s[k])
    ensures ValidName(Lower(s[i..j]))
  {
    var n := Lower(s[i..j]);
    forall k | 0 <= k < |n|
      ensures ('a' <= n[k] <= 'z') || n[k] == '_'
    {
      assert IsNameChar(s[i + k]);
    }
  }

  /** One step keeps the output well formed and `prev` the tag of its last token. */
  lemma StepWellFormed(strtod: Strtod, s: string, i: nat, prev: TokType, out: seq<Token>)
    requires i < |s| && prev == LastType(out) && AllWF(out)
    ensures LexStep(strtod, s, i, prev, out).Ok? ==>
      var (_, p, o) := LexStep(strtod, s, i, prev, out).value;
      p == LastType(o) && AllWF(o)
  {
    var c := s[i];
    var r := LexStep(strtod, s, i, prev, out);
    if r.Ok? && !IsBlank(c) {
      var (_, p, o) := r.value;
      assert |o| == |out| + 1 && o[..|out|] == out;
      var t := Last(o);
      assert o == out + [t];
      if IsNameChar(c) && !IsNumberStart(c) {
        var j := NameRun(s, i);
        LowerIsValidName(s, i, j);
      }
      AppendWF(out, t);
    }
  }

  lemma {:induction false} LexWellFormed(strtod: Strtod, s: string, i: nat, prev: TokType, out: seq<Token>)
    requires i <= |s|
    requires prev == LastType(out) && AllWF(out)
    ensures Lex(strtod, s, i, prev, out).Ok? ==> AllWF(Lex(strtod, s, i, prev, out).value)
    decreases |s| - i
  {
    if i < |s| {
      StepWellFormed(strtod, s, i, prev, out);
      match LexStep(strtod, s, i, prev, out)
      case Err(_) =>
      case Ok((j, p, o)) => LexWellFormed(strtod, s, j, p, o);
    }
  }

  /** Every token sequence the tokenizer produces is well formed in the sense
      of TokenWF: unary minus is decided by the previous emitted token, and
      names are lower-case, at most 15 characters, and classified by the registry. */
  lemma TokensWellFormed(strtod: Strtod, s: string)
    ensures Tokens(strtod, s).Ok? ==> AllWF(Tokens(strtod, s).value)
  {
    LexWellFormed(strtod, s, 0, TOperator, []);
  }

  /** One step emits at most one token. */
  lemma StepLength(strtod: Strtod, s: string, i: nat, prev: TokType, out: seq<Token>)
    requires i < |s|
    ensures LexStep(strtod, s, i, prev, out).Ok? ==>
      |LexStep(strtod, s, i, prev, out).value.2| <= |out| + 1
  {
  }

  lemma {:induction false} LexLength(strtod: Strtod, s: string, i: nat, prev: TokType, out: seq<Token>)
    requires i <= |s| && |out| <= i
    ensures Lex(strtod, s, i, prev, out).Ok? ==> |Lex(strtod, s, i, prev, out).value| <= |s|
    decreases |s| - i
  {
    if i < |s| {
      StepLength(strtod, s, i, prev, out);
      match LexStep(strtod, s, i, prev, out)
      case Err(_) =>
      case Ok((j, p, o)) => LexLength(strtod, s, j, p, o);
    }
  }

  /** Each token consumes at least one character, so a text yields at most as
      many tokens as it has characters. */
  lemma TokensLength(strtod: Strtod, s: string)
    ensures Tokens(strtod, s).Ok? ==> |Tokens(strtod, s).value| <= |s|
  {
    LexLength(strtod, s, 0, TOperator, []);
  }

  /** A step fails at a character the tokenizer has no branch for, and never
      moves past one. */
  lemma StepStopsAtBadChar(strtod: Strtod, s: string, i: nat, prev: TokType, out: seq<Token>, p: nat)
    requires i <= p < |s| && !Acceptable(s[p])
    ensures LexStep(strtod, s, i, prev, out).Ok? ==> LexStep(strtod, s, i, prev, out).value.0 <= p
  {
    var c := s[i];
    if i < p && !IsBlank(c) && IsNumberStart(c) && strtod(s[i..]).Scanned? {
      var len := strtod(s[i..]).len;
      forall k | i <= k < i + len
        ensures Acceptable(s[k])
      {
        assert s[i..][k - i] == s[k];
      }
    }
  }

  lemma {:induction false} LexRejectsBadChar(strtod: Strtod, s: string, i: nat, prev: TokType, out: seq<Token>, p: nat)
    requires i <= p < |s| && !Acceptable(s[p])
    ensures Lex(strtod, s, i, prev, out).Err?
    decreases |s| - i
  {
    StepStopsAtBadChar(strtod, s, i, prev, out, p);
    match LexStep(strtod, s, i, prev, out)
    case Err(_) =>
    case Ok((j, q, o)) => LexRejectsBadChar(strtod, s, j, q, o, p);
  }

  /** A step that reports an unrecognised character names the character at
      its position, which the tokenizer has no branch for. */
  lemma StepBlamesBadChar(strtod: Strtod, s: string, i: nat, prev: TokType, out: seq<Token>, c: char)
    requires i < |s|
    ensures LexStep(strtod, s, i, prev, out) == Err(UnrecognizedChar(c)) ==> s[i] == c && !Acceptable(c)
  {
  }

  lemma {:induction false} LexBlamesBadChar(strtod: Strtod, s: string, i: nat, prev: TokType, out: seq<Token>, c: char)
    returns (p: nat)
    requires i <= |s|
    ensures Lex(strtod, s, i, prev, out) == Err(UnrecognizedChar(c)) ==> i <= p < |s| && s[p] == c && !Acceptable(c)
    decreases |s| - i
  {
    p := i;
    if i < |s| {
      StepBlamesBadChar(strtod, s, i, prev, out, c);
      match LexStep(strtod, s, i, prev, out)
      case Err(_) =>
      case Ok((j, q, o)) => p := LexBlamesBadChar(strtod, s, j, q, o, c);
    }
  }

  /** Tokenizing fails on every text holding a character outside whitespace,
      digits, `.`, letters, `_`, `( ) ,` and `+ - * / ^ ! %`; and an
      "unrecognized character" error always names such a character of the text. */
  lemma TokensRejectExactlyBadChars(strtod: Strtod, s: string)
    ensures forall p | 0 <= p < |s| && !Acceptable(s[p]) :: Tokens(strtod, s).Err?
    ensures Tokens(strtod, s).Err? && Tokens(strtod, s).error.UnrecognizedChar? ==>
      Tokens(strtod, s).error.c in s && !Acceptable(Tokens(strtod, s).error.c)
  {
    forall p | 0 <= p < |s| && !Acceptable(s[p])
      ensures Tokens(strtod, s).Err?
    {
      LexRejectsBadChar(strtod, s, 0, TOperator, [], p);
    }
    if Tokens(strtod, s).Err? && Tokens(strtod, s).error.UnrecognizedChar? {
      var p := LexBlamesBadChar(strtod, s, 0, TOperator, [], Tokens(strtod, s).error.c);
    }
  }

  /** The tokenizer's own failures. */
  predicate LexError(e: CalcError) {
    e == InvalidNumber || e == NumberOutOfRange || e.UnrecognizedChar?
  }

  lemma {:induction false} LexFailsOnlyLexically(strtod: Strtod, s: string, i: nat, prev: TokType, out: seq<Token>)
    requires i <= |s|
    ensures Lex(strtod, s, i, prev, out).Err? ==> LexError(Lex(strtod, s, i, prev, out).error)
    decreases |s| - i
  {
    if i < |s| {
      match LexStep(strtod, s, i, prev, out)
      case Err(_) =>
      case Ok((j, p, o)) => LexFailsOnlyLexically(strtod, s, j, p, o);
    }
  }

  /** The tokenizer reports only a bad number, a number out of range or an
      unrecognised character. */
  lemma TokensFailOnlyLexically(strtod: Strtod, s: string)
    ensures Tokens(strtod, s).Err? ==> LexError(Tokens(strtod, s).error)
  {
    LexFailsOnlyLexically(strtod, s, 0, TOperator, []);
  }
}
