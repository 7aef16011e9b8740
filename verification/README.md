# Expression engine of the TUI calculator, in Dafny

This project models the expression engine of `tui_calc.c`, a terminal
calculator, and proves properties of that model. A line such as
`sin(30)+pow(2,10)` goes through three stages:

- **Tokenizer** (`tokenize_local`). It splits the text into numbers, operators,
  parentheses, commas, function names and identifiers. Names are lower-cased
  and cut to 15 characters, and a `-` is read as unary minus or subtraction
  depending on the previous token.
- **Converter** (`to_rpn_local`). This is the shunting-yard algorithm with an
  operator stack, driven by a fixed precedence and associativity table. It
  rejects unbalanced parentheses and misplaced commas.
- **Evaluator** (`eval_rpn_local`). This is a stack machine over the
  reverse-Polish tokens. Each operator and function has a guard: division by
  zero, the factorial range, and the domains of `sqrt`, `ln` and `log`.
  Exactly one value must be left at the end.

Around the engine sit four small stateful pieces:

- the 64-slot variable table (`var_find_index`, `var_set`, `var_get`,
  `var_del`, `vars_init_defaults`);
- the temporary binding `eval_with_var`;
- the 50-entry history `history_add`;
- the in-place trim `trim_spaces`.

The model keeps the source's form. Each loop in the C code is a Dafny method
with a loop over the same array and index:

- the tokenizer's loop over `s`;
- the converter's `opstack` with `top`;
- the evaluator's `st` with `sp`;
- the table's `g_vars` slots;
- the history's `g_hist` with its count;
- the trim's `memmove`.

Each method is proved equal to a pure specification function (`Tokens`,
`ToRpn`, `EvalRpn`, `SetSpec`, `DelSpec`, `AddSpec`, `TrimText`). The
properties are then lemmas about those functions.

The model follows the code in two places where its behaviour is surprising:

- Unary minus has precedence 4 and `^` has precedence 3. A right-associative
  `^` therefore pops a stacked unary minus, so `-3^2` evaluates as `(-3)^2`
  (`Pipeline.NegThenPowEvaluation`). The program's built-in self-test lists
  -9 for this input. The model follows the code.
- After a postfix `!` or `%` the previous-token tag is "operator". In `5!-3`
  the `-` is therefore a unary minus, and evaluation ends with two values on
  the stack (`Pipeline.FactThenMinusEvaluation`).

Modules, one per file:

- `CalcTypes`: constants, tokens, errors, and the C library as parameters.
- `Operators`: the precedence table, the function registry and the factorial
  test.
- `Lexer`, `ShuntingYard` and `Evaluator`: the three stages.
- `Variables`: the variable table.
- `Pipeline`: `eval_expr_local` and `eval_with_var`.
- `History`: the history buffer.
- `Trim`: `trim_spaces`.

## Model

| member | source | states |
|---|---|---|
| Operators.Precedence | tui_calc.c:200-209 | Every operator's precedence lies in 1..5, and the top level 5 belongs exactly to the postfix operators `!` and `%`. |
| Operators.AssociativityTable | tui_calc.c:314-318 | The pop rule: `^` pops a stacked unary minus but unary minus does not pop `^`; neither pops itself; `+`/`-` and `*`/`/` pop each other; `+` pops `^`; `^` does not pop `*`; every operator pops a stacked `!` or `%`. |
| Operators.FuncArity | tui_calc.c:189-199 | A name is registered exactly when it is one of the eleven one-argument names or `pow`; `pow` has arity 2 and all others arity 1. |
| Operators.NearlyIntegerAt | tui_calc.c:214-215 | A value within 1e-9 of an integer n rounds to n and counts as nearly integral. |
| Operators.FactorialOkMeans | tui_calc.c:218-222 | An accepted factorial argument rounds to an integer in 0..170 and lies within 1e-9 of it. |
| Operators.FactorialAcceptsNearIntegers | tui_calc.c:218-222 | Every value in [0,170] within 1e-9 of an integer n is accepted and rounds to n. |
| Lexer.ScanName | tui_calc.c:252-257 | The name scan stops where the specified run ends (at most 15 characters, only letters and `_`) and yields the lower-cased run. |
| Lexer.NextToken | tui_calc.c:235-298 | One round of the tokenizer loop yields exactly the step of the token specification: the next position, the new previous-token tag and the output, or the error. |
| Lexer.Tokenize | tui_calc.c:229-301 | The tokenizer loop returns exactly the token sequence or the error of the specification. |
| Lexer.TokensWellFormed | tui_calc.c:252-294 | In every successful token sequence, a `-` is unary exactly when it comes first or follows an operator, `(` or `,`, and is subtraction otherwise. Every identifier and function name is 1 to 15 lower-case letters or `_`. Function tokens carry their registered arity, and identifiers are never registered names. |
| Lexer.TokensLength | tui_calc.c:229-301 | A text yields at most as many tokens as it has characters. |
| Lexer.TokensRejectExactlyBadChars | tui_calc.c:237-298 | Any character outside blanks, digits, `.`, letters, `_`, `(`, `)`, `,` and `+-*/^!%` makes tokenizing fail. An "unrecognised character" error always names such a character of the text. |
| Lexer.TokensFailOnlyLexically | tui_calc.c:242-297 | The tokenizer fails only with a bad number, a number out of range or an unrecognised character. |
| ShuntingYard.PopOperators | tui_calc.c:314-321 | The pop loop for an arriving operator moves a suffix of the stack to the output, top first. Every moved entry is an operator the arriving one must pop, and the remaining top is not. |
| ShuntingYard.PopToParen | tui_calc.c:327-334 | The pop loop for `,` and `)` moves a suffix of the stack to the output, top first. No moved entry is `(`, and what remains is empty or has `(` on top. |
| ShuntingYard.PopOperatorsLoop | tui_calc.c:314-321 | The in-place pop loop over `opstack` and `top` leaves exactly the stack and output of the pop specification. |
| ShuntingYard.PopToParenLoop | tui_calc.c:327-334 | The in-place pop loop for `,` and `)` leaves exactly the stack and output of its specification. |
| ShuntingYard.ConvertOne | tui_calc.c:308-340 | One round of the converter loop over the array stack yields exactly the specified step, its error included. |
| ShuntingYard.FlushLoop | tui_calc.c:342-347 | The final flush yields exactly the specified output, or the parenthesis error. |
| ShuntingYard.ConvertToRpn | tui_calc.c:304-349 | The converter returns exactly the specified reverse-Polish sequence or error. |
| ShuntingYard.StepMoves | tui_calc.c:308-340 | One converter step fails exactly on a `)` or `,` with no `(` on the stack. Otherwise it keeps the stack free of `)` and `,`, keeps the output free of punctuation, preserves the multiset of non-punctuation tokens across output and stack, and appends operands in order. |
| ShuntingYard.ShuntMoves | tui_calc.c:307-347 | From any reachable state, a successful conversion outputs a punctuation-free permutation of the non-punctuation input tokens, with operands in their input order. |
| ShuntingYard.RpnIsPermutation | tui_calc.c:304-349 | A successful conversion contains no `(`, `)` or `,`. It is a permutation of the input's numbers, identifiers, operators and functions, and keeps the numbers and identifiers in their original order. |
| ShuntingYard.ShuntParens | tui_calc.c:325-345 | From any state, conversion succeeds exactly when the rest of the input never closes or separates at depth 0 and ends with the depth back at 0. |
| ShuntingYard.RpnFailsIffUnbalanced | tui_calc.c:325-345 | Conversion succeeds if and only if the parentheses are balanced: no `)` or `,` outside every `(`, and no `(` left open. |
| ShuntingYard.RpnFailsOnlyOnParens | tui_calc.c:331-344 | The converter's only errors are the misplaced-comma and unbalanced-parenthesis errors. |
| ShuntingYard.NegThenPowConversion | tui_calc.c:314-322 | `- 3 ^ 2` converts to `3 neg 2 ^`: the incoming `^` pops the stacked unary minus. |
| ShuntingYard.PowChainConversion | tui_calc.c:314-322 | `2 ^ 3 ^ 2` converts to `2 3 2 ^ ^` (right-associative). |
| ShuntingYard.SubChainConversion | tui_calc.c:314-322 | `8 - 3 - 2` converts to `8 3 - 2 -` (left-associative). |
| ShuntingYard.FunctionCallConversion | tui_calc.c:325-339 | `pow(2, x)` converts to `2 x pow`: the comma stops at the `(` and the function is emitted right after its `)`. |
| Evaluator.AngleRoundTrip | tui_calc.c:57-58 | In radian mode both conversions leave the value unchanged. Over the model's reals, the degree conversions undo each other and 90 degrees is pi/2. |
| Evaluator.Step | tui_calc.c:355-430 | A step on a stack shorter than the token's arity fails. A successful step consumes `Needs(tk)` values (0 for values; 1 for `!`, `%`, unary minus and one-argument functions; 2 for binary operators and `pow`), pushes one value, leaves the rest of the stack untouched and never exceeds MaxStack. |
| Evaluator.StepGuards | tui_calc.c:359-412 | `/` fails exactly when there are two operands and the right one is 0. `!` fails exactly when the operand is not an accepted factorial argument. `sqrt` fails exactly on a negative value, `ln` and `log` exactly on a value <= 0, and `^` exactly when `pow` reports a domain or range error. An identifier fails exactly when it is not `ans` and is unbound in the table. |
| Evaluator.StepOnTop | tui_calc.c:373-380 | On any non-empty stack, `%` replaces the top by top*0.01, unary minus negates the top and `abs` replaces it by its absolute value; the values below are kept. |
| Evaluator.StepOnTwo | tui_calc.c:384-391 | On a stack of two or more values a (below) and b (top), `+`, `-` and `*` replace them by a+b, a-b and a*b, and `/` by a/b when b is not 0. |
| Evaluator.StepFailsOnValues | tui_calc.c:355-430 | A registered token on a stack deep enough, and with room for a value, fails only for value reasons: undefined variable, factorial range, division by zero, or a pow, sqrt, ln or log domain error. |
| Evaluator.EvalRpnNeedsShape | tui_calc.c:352-433 | A successful evaluation implies that the token list has the right arity shape: no step short of operands and exactly one value at the end. On a well-shaped list, every failure is a value failure. |
| Evaluator.EvalRpnNoInternalError | tui_calc.c:396-429 | On a list of registered tokens, the unknown-operator, unknown-function, unsupported-arity and illegal-token errors never occur. |
| Evaluator.RunDependsOnLookups | tui_calc.c:359-364 | Evaluation depends on the table only through the lookups of the identifiers it meets. |
| Evaluator.PushInPlace | tui_calc.c:356-364 | Pushing on the array stack matches the specified push, including the overflow error at MaxStack. |
| Evaluator.PostfixInPlace | tui_calc.c:366-377 | `!` and `%` on the array stack leave exactly the specified stack, or its error. |
| Evaluator.BinaryInPlace | tui_calc.c:382-397 | The binary operators on the array stack leave exactly the specified stack, or its error. |
| Evaluator.OperatorInPlace | tui_calc.c:365-398 | Every operator, unary minus negating the top in place, leaves exactly the specified stack, or its error. |
| Evaluator.FuncInPlace | tui_calc.c:399-427 | Function tokens on the array stack leave exactly the specified stack, or its error. |
| Evaluator.StepInPlace | tui_calc.c:355-430 | One round of the evaluation loop on the array stack matches the step specification. |
| Evaluator.EvaluateRpn | tui_calc.c:352-434 | The evaluation loop returns exactly the specified value or error, including the final check that one value is left. |
| Pipeline.EvalExpr | tui_calc.c:436-442 | The composed stages return the first stage's error or the evaluated value. |
| Pipeline.ConvertedTokensEvaluable | tui_calc.c:304-349 | Every token that tokenizing and conversion produce is one the evaluator has a meaning for. |
| Pipeline.EvaluateNoInternalError | tui_calc.c:436-442 | A whole expression never fails with an internal evaluator error. |
| Pipeline.EvaluateDependsOnBindings | tui_calc.c:359-364 | Two tables that bind every name other than `ans` alike give every expression the same outcome. |
| Pipeline.EvalWithVar | tui_calc.c:445-451 | The expression is evaluated under the temporary binding. Afterwards the table holds the old value when the name was bound, and the name is deleted otherwise, whether evaluation succeeded or failed. |
| Pipeline.EvalWithVarMeaning | tui_calc.c:445-451 | Under the temporary binding, an expression evaluates as in any table that maps the name to x and agrees elsewhere. Afterwards every name's binding is as before. |
| Pipeline.AnsBindingIgnored | tui_calc.c:361 | Binding `ans` in the table never changes any expression's outcome, because `ans` reads the last result. |
| Pipeline.NegThenPowTokens | tui_calc.c:284-287 | `-3^2` tokenizes as unary minus, 3, `^`, 2. |
| Pipeline.NegThenPowRpn | tui_calc.c:378-394 | `3 neg 2 ^` evaluates to pow(-3, 2). |
| Pipeline.NegThenPowEvaluation | tui_calc.c:436-442 | The whole line `-3^2` evaluates to pow(-3, 2). |
| Pipeline.FactThenMinusTokens | tui_calc.c:284-294 | In `5!-3` the minus after `!` is unary. |
| Pipeline.FactThenMinusConversion | tui_calc.c:314-322 | `5 ! neg 3` converts to `5 ! 3 neg`. |
| Pipeline.FactThenMinusRpn | tui_calc.c:432 | That sequence leaves two values on the stack and fails with the "stack remainder 2" error. |
| Pipeline.FactThenMinusEvaluation | tui_calc.c:436-442 | The whole line `5!-3` fails with the "stack remainder 2" error. |
| Variables.IndexOf | tui_calc.c:120-125 | The result is the first slot that is in use under the name, or -1 exactly when no in-use slot has it. |
| Variables.FirstFree | tui_calc.c:128-136 | The result is the first slot not in use, or -1 exactly when every slot is in use. |
| Variables.Stored | tui_calc.c:130-131 | The stored name is the given name when it is shorter than 16 characters, and exactly its first 15 characters otherwise. |
| Variables.SetThenLookup | tui_calc.c:126-144 | After a successful set of a name shorter than 16 characters, getting the name yields the new value. |
| Variables.SetFailsOnlyWhenFull | tui_calc.c:126-139 | A set fails exactly when the name is unbound and all 64 slots are in use, and a failed set changes nothing. |
| Variables.SetKeepsOthers | tui_calc.c:126-139 | A set changes no other name's binding. |
| Variables.SetKeepsUnique | tui_calc.c:126-139 | A set of a short name keeps every in-use name unique. |
| Variables.SetOccupiesOneSlot | tui_calc.c:126-139 | After a successful set, exactly one in-use slot holds the name. |
| Variables.SetTruncatesLongNames | tui_calc.c:126-139 | A name of 16 or more characters is never bound, and it is still not retrievable after it is set, because it is stored truncated. |
| Variables.DelUnbinds | tui_calc.c:145-149 | A delete reports whether the name was bound. It leaves the name unbound, keeps every other binding and uniqueness, and changes no slot other than the name's. |
| Variables.ScopedBindingRestores | tui_calc.c:445-451 | The temporary binding is visible unless the table is full. After the restore every name's binding is as before, and when the name was bound before, the slots are exactly as they were. |
| Variables.VarTable.FindIndex | tui_calc.c:120-125 | The scan returns the specified first matching slot or -1. |
| Variables.VarTable.Set | tui_calc.c:126-139 | The slots and the result are exactly those of the set specification. |
| Variables.VarTable.Get | tui_calc.c:140-144 | It reports the name's value exactly when the name is bound. |
| Variables.VarTable.Del | tui_calc.c:145-149 | The slots and the result are exactly those of the delete specification. |
| Variables.VarTable.InitDefaults | tui_calc.c:161-165 | The table is the result of setting `pi`, `e` and `ans` in turn. |
| Variables.DefaultsFromEmpty | tui_calc.c:161-165 | On the empty table the defaults leave `pi`, `e` and `ans` retrievable with their values. |
| History.MakeItem | tui_calc.c:84-93 | The entry keeps the line, value and flag. Its error text is empty unless the line failed with a message, and is then that message cut to 127 characters. |
| History.AddKeepsNewest | tui_calc.c:79-95 | Adding to a history of at most 50 entries keeps the newest 50 of the old entries plus the new one, with the new one last and never more than 50. |
| History.AddAllKeepsNewest | tui_calc.c:79-95 | After any sequence of additions, the history is exactly the newest 50 of all lines, in order. |
| History.HistoryBuffer.ShiftDown | tui_calc.c:80-85 | On a full buffer every entry moves down one place, and the oldest is overwritten. |
| History.HistoryBuffer.Append | tui_calc.c:86-94 | The entry is stored after the last one and the count grows by one. |
| History.HistoryBuffer.Add | tui_calc.c:79-95 | The buffer holds exactly the old entries with the new one added, evicting the oldest when 50 are held. The count stays within 50. |
| Trim.Strlen | tui_calc.c:476 | The length is the position of the first NUL. |
| Trim.TrimTextIsCore | tui_calc.c:475-481 | The trimmed text is the original between an all-blank prefix and an all-blank suffix, and neither begins nor ends with a space or tab. |
| Trim.TrimTextIdempotent | tui_calc.c:475-481 | Trimming twice is the same as trimming once. |
| Trim.LeadingBlanks | tui_calc.c:477 | The forward scan stops at the first character that is not a space or tab. |
| Trim.TrailingBlanks | tui_calc.c:478 | The backward scan stops at the last character that is not a space or tab, and not below the start. |
| Trim.MoveDown | tui_calc.c:479 | The copy moves the kept characters to the front and leaves the rest of the buffer as it was. |
| Trim.TrimSpaces | tui_calc.c:475-481 | The buffer's string afterwards is exactly the trimmed original string. |

## Left out

- The terminal interface, the REPL loop and the command dispatcher (`render_panel`, `clear_screen`, `enable_ansi_if_windows`, `main`, `handle_command_local`). These are console I/O and parsing of commands.
- `history_print`, `history_save` and `var_list`: output to stdout and to files.
- The numeric methods `diff_center`, `solve_newton`, `integ_simpson` and the plotter `plot_ascii`. They are floating-point numerics. Their only tie to the core, the restore property of `eval_with_var`, is modelled.
- `run_selftest_local`: it checks results against float tolerances.
- Floating point: values are mathematical reals. `strtod`, the libm functions, `lgamma` and `pow` with `errno` are parameters (`CalcTypes.LibC`). Only their guards and the `strtod` contract are kept: at least one character consumed, and only characters of a floating constant.
- `round_local` and `nearly_integer_local` are computed on reals, not doubles, so the rounding of `x+0.5` in double precision is not modelled.
- `M_PI` is a decimal constant of the model, not the double value.
- The angle mode `g_mode` and the last result `g_last_result` are inputs (`CalcTypes.Context`), not globals; the commands that change them and the memory register `g_memory` are not part of this model.
- `isalpha` and `tolower` are taken in the C locale (ASCII letters only).
- Text is a sequence of characters standing for the contents of a C string, not a sequence of bytes. This has three effects:
  - The model accepts a string with an embedded NUL. There `IsBlank` skips the NUL and tokenizing goes on. A C string ends at its first NUL, where `strlen` stops the tokenizer.
  - The unrecognised-character error names a whole character. The C `'%c'` names a single byte, the first byte of a multi-byte UTF-8 character.
  - `History.MakeItem` cuts the error text at 127 characters. The C `strncpy` cuts at 127 bytes, which for the program's UTF-8 messages is fewer characters and may split one.
- `dupstr_local`: the history keeps the line as a value. A failed `malloc`, which leaves a null `expr`, is not modelled.
- `Pipeline.EvalExpr` requires the line to have at most MaxTokens (1024) characters. Input lines are at most MaxLine (512) characters, so the token buffers never overflow. An overlong token list, which would write past the C arrays, is not modelled.
- `ShuntingYard.ConvertToRpn` has the same MaxTokens bound on its input, for the same reason.
- The values of `!`, `^`, `pow` and the one-argument functions are those of the library parameters (`lgamma` and `exp`, `pow`, `sin` and the rest). Only their guards are stated, in `Evaluator.StepGuards`.
- `Evaluator.AngleRoundTrip`: the degree round trip holds over the model's reals only. In the program's doubles, `x*M_PI/180.0*180.0/M_PI` need not give back `x` exactly. The radian-mode identity holds in both.
- `Variables.SetThenLookup`, `Variables.SetKeepsUnique`, `Variables.SetOccupiesOneSlot`, `Variables.ScopedBindingRestores`: stated for names shorter than 16 characters. Longer names are stored truncated and are never found again (`Variables.SetTruncatesLongNames`).
