/** Shared vocabulary of the calculator core: capacities, tokens, errors and the
    C library entry points the engine calls but does not define. */
module CalcTypes {

  /** Capacities from the configuration block of tui_calc.c. */
  const MaxLine: nat := 512
  const MaxTokens: nat := 1024
  const MaxStack: nat := 1024
  const MaxHistory: nat := 50
  const MaxVars: nat := 64
  const NameLen: nat := 16

  datatype Option<T> = None | Some(value: T)

  /** Every failure the engine reports; one constructor per distinct message. */
  datatype CalcError =
    // tokenizer
    | InvalidNumber
    | NumberOutOfRange
    | UnrecognizedChar(c: char)
    // converter
    | MisplacedComma
    | UnbalancedParen
    // evaluator
    | StackOverflow
    | UndefinedVariable(name: string)
    | MissingOperand
    | InvalidFactorialArg
    | UnaryMinusMissingOperand
    | BinaryMissingOperands
    | DivisionByZero
    | PowDomainError
    | UnknownOperator
    | FunctionMissingArgument
    | SqrtDomainError
    | LnDomainError
    | LogDomainError
    | UnknownFunction
    | UnknownMultiArgFunction
    | PowMissingArguments
    | PowFunctionDomainError
    | UnsupportedArity
    | IllegalRpnToken
    | Malformed(left: nat)

  datatype Result<T> = Ok(value: T) | Err(error: CalcError) {
    predicate IsFailure() { Err? }
    function PropagateFailure<U>(): Result<U> requires Err? { Err(error) }
    function Extract(): T requires Ok? { value }
  }

  datatype OpKind = Add | Sub | Mul | Div | Pow | UnaryMinus | Fact | Percent

  /** The `type` tag of a token; the tokenizer remembers the tag of the last token it emitted. */
  datatype TokType = TNumber | TOperator | TLParen | TRParen | TFunc | TComma | TIdent

  datatype Token =
    | Number(value: real)
    | Operator(op: OpKind)
    | LParen
    | RParen
    | Func(name: string, arity: int)
    | Comma
    | Ident(name: string)

  function TypeOf(t: Token): TokType {
    match t
    case Number(_) => TNumber
    case Operator(_) => TOperator
    case LParen => TLParen
    case RParen => TRParen
    case Func(_, _) => TFunc
    case Comma => TComma
    case Ident(_) => TIdent
  }

  /** Outcome of `strtod` on the text from the current position: a value and the
      number of characters consumed, nothing consumed, or ERANGE. */
  datatype NumScan = Scanned(value: real, len: nat) | NotANumber | OutOfRange

  /** Characters that can occur in a decimal or hexadecimal floating constant. */
  predicate FloatChar(c: char) {
    ('0' <= c <= '9') || ('a' <= c <= 'z') || ('A' <= c <= 'Z') || c == '.' || c == '+' || c == '-'
  }

  /** What the tokenizer relies on from `strtod`: a successful conversion consumes
      at least one character, no more than there are, and only characters of a
      floating constant. */
  predicate ScanFits(s: string, r: NumScan) {
    r.Scanned? ==> 1 <= r.len <= |s| && forall k | 0 <= k < r.len :: FloatChar(s[k])
  }

  type Strtod = f: string -> NumScan | forall s :: ScanFits(s, f(s))
    witness (s: string) => NotANumber

  /** `M_PI` as a double, written out to the digits that determine it. */
  const Pi: real := 3.141592653589793

  /** The C library as seen by the engine: `strtod` and the libm functions. `pow` yields None when it sets errno to EDOM or ERANGE. */
  datatype LibC = LibC(
    strtod: Strtod,
    sin: real -> real, cos: real -> real, tan: real -> real,
    asin: real -> real, acos: real -> real, atan: real -> real,
    sqrt: real -> real, log: real -> real, log10: real -> real,
    exp: real -> real, lgamma: real -> real,
    pow: (real, real) -> Option<real>)

  datatype AngleMode = Rad | Deg

  /** The process-wide state the evaluator reads: the C library, the angle mode
      `g_mode` and the last result `g_last_result` that `ans` denotes. */
  datatype Context = Context(lib: LibC, mode: AngleMode, ans: real)

  function Last<T>(s: seq<T>): T requires |s| > 0 { s[|s| - 1] }
  function Drop<T>(s: seq<T>): seq<T> requires |s| > 0 { s[..|s| - 1] }
}
