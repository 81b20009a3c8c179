# Calculator front end, modelled in Dafny

A model of the front end of a one-shot command-line integer calculator
(`calc A B OP`, `calc N !`, `calc -h`), as written in `src/main.cpp`. The front end
reads its operands with a strict integer parser, checks the operator and operand
shapes, validates the operation's preconditions, hands the operation to a checked
arithmetic library, and prints a result line. It maps the stage where an
invocation fails to an exit code: 0 for success or help, 1 for a usage error
(the usage text is printed), and 2 for a runtime error.

Modules:

- `CTypes` (ctypes.dfy): C `int` (32-bit), `long` (64-bit, LP64), `char` as a byte,
  NUL-free C strings, and the "C" locale `isspace`/`isdigit`.
- `CStdlib` (cstdlib.dfy): `strtol(s, &end, 10)` as section 7.22.1.4 of ISO C11
  defines it. It is the library call inside `parse_int`. The module also holds a
  declarative grammar of the decimal literal it accepts (`Literal`, `Denotes`).
- `Printf` (printf.dfy): the `%d` conversion used by `print_result`.
- `MathLib` (mathlib.dfy): the interface of the arithmetic library. The six
  `math_*` operations are function-valued parameters (`MathOps`). Each returns a
  status and what it stored through its out-pointer.
- `Calculator` (calculator.dfy): `struct CalcData` as a class, and `parse_int`,
  `is_binary_op`, `is_negative_number_token`, `parse`, `check`, `calculate`,
  `print_result` and `run`. `Parse` and `Calculate` update the record in place.
  They are proved against the functions `ParseModel` and `CalculateModel`. `Run`
  is proved against `RunModel`.
- `CalculatorFacts` (calculator_facts.dfy): the properties of those functions.

Modelling decisions:

- `parse_int(s, &out)` becomes a function that returns the return code and the
  new value of `*out`. It never changes `*out` on failure.
- `errno` is modelled only as strtol's ERANGE flag. For base 10 no other errno
  value arises. A value outside `long` sets ERANGE; a value inside `long` but
  outside `int` fails the range test. So the accepted set does not depend on
  the width of `long`.
- Option scanning is the library's business. `parse`'s loop ends after its first
  `getopt_long` call on every branch, so the model takes that call's outcome as a
  parameter (`GetoptReturn`): help, unknown option (with `optind`), another
  option, or the end of the options at `optind`. The branch that takes back a
  negative number (`argv[optind - 1]`) is modelled as the source has it.
- The record `run` declares is not initialised, so its contents are a parameter.
- Standard output is modelled as `Usage`, `Line(text)` or `Silent`. Standard
  error is not modelled.
- The binary form takes any single-character operator. `check` reports that
  '!' must be used in unary form (src/main.cpp:212), yet `A 0 !` passes both
  `parse` and `check` and runs `math_fact(A)`, exactly like `A !`
  (`CalculatorFacts.BinaryBangMatchesUnary`). The model follows the code.

## Model

| member | source | states |
|---|---|---|
| `CStdlib.SpanSpace` | src/main.cpp:90 | the white-space run strtol skips is maximal: all spaces up to the result, and no space at it |
| `CStdlib.SpanDigits` | src/main.cpp:90 | the digit run of the subject sequence is maximal: all digits up to the result, and no digit at it |
| `CStdlib.Strtol` | src/main.cpp:90 | `end` never passes the string; the value always lies in `long`; with no subject sequence, `end == s`, the value is 0 and errno is untouched |
| `CStdlib.ScanOfLiteral` | src/main.cpp:90 | scanning a well-formed literal's text finds exactly its white space, sign and digits |
| `CStdlib.StrtolOfLiteral` | src/main.cpp:90 | strtol consumes the whole text of a literal; it returns the literal's value, or sets ERANGE exactly when that value is outside `long` |
| `CStdlib.ScannedLiteral` | src/main.cpp:90-94 | whatever strtol converts is a well-formed literal spanning `s..end`, with strtol's value unless ERANGE was set |
| `CStdlib.TextDeterminesLiteral` | src/main.cpp:90 | two well-formed literals with the same text are the same literal |
| `CStdlib.DenotesUnique` | src/main.cpp:90 | a string denotes at most one integer |
| `Printf.DigitsOf` | src/main.cpp:71-80 | `%d` digits are non-empty decimal digits without a leading zero |
| `Printf.FormatInt` | src/main.cpp:71-80 | `%d` output is non-empty and starts with '-' exactly for negative values |
| `Printf.DigitsValueOfDigits` | src/main.cpp:71-80 | the printed digits of n have value n |
| `Printf.FormatIntDenotes` | src/main.cpp:71-80 | `%d` output is a decimal literal that denotes the printed value |
| `Calculator.CalcData.constructor` | src/main.cpp:280 | the record starts with whatever contents it is given |
| `Calculator.ParseInt` | src/main.cpp:85-100 | parse_int returns 0 or -1, and on -1 `*out` keeps its old value |
| `Calculator.IsBinaryOp` | src/main.cpp:102-105 | an operator of the binary form is never the unary `!` nor the NUL that parse resets `op` to |
| `Calculator.IsNegativeNumberToken` | src/main.cpp:107-110 | a token taken back as a negative number is never a null pointer nor one of the help options `-h` and `--help` |
| `Calculator.OperandStart` | src/main.cpp:124-151 | the operands start at an index inside `argv` |
| `Calculator.Parse` | src/main.cpp:113-205 | return code, `*want_help` and the record's new contents equal `ParseModel` of the old contents |
| `Calculator.Check` | src/main.cpp:207-240 | check returns 0, 1 or 2 |
| `Calculator.Dispatch` | src/main.cpp:247-268 | the switch calls the library exactly for the binary operators and `!`, and takes its default branch for every other operator |
| `Calculator.Calculate` | src/main.cpp:242-276 | return code and the record's new contents equal `CalculateModel` of the old contents |
| `Calculator.PrintResult` | src/main.cpp:67-83 | the line ends with a newline and, for every operator but `!`, starts with the first operand as `%d` prints it |
| `Calculator.Run` | src/main.cpp:278-314 | exit code and standard output equal `RunModel` |
| `CalculatorFacts.ParseIntSound` | src/main.cpp:85-100 | parse_int succeeds only when the whole string is a decimal literal, and stores its value |
| `CalculatorFacts.ParseIntComplete` | src/main.cpp:85-100 | on a string that is wholly a decimal literal, parse_int succeeds exactly when the value is in [INT_MIN, INT_MAX], and stores it |
| `CalculatorFacts.ParseIntRejects` | src/main.cpp:85-100 | parse_int fails exactly when the string denotes no `int`, and then leaves `*out` unchanged |
| `CalculatorFacts.ParseIntOfFormatted` | src/main.cpp:85-100 | every `int` printed with `%d` is read back by parse_int |
| `CalculatorFacts.ParseIntOfLiteral` | src/main.cpp:85-100 | parse_int on a literal's text gives its value when in range, a rejection otherwise |
| `CalculatorFacts.ParseIntAcceptsExamples` | src/main.cpp:85-100 | leading white space and a '+' or '-' sign are accepted |
| `CalculatorFacts.ParseIntRejectsNoDigits` | src/main.cpp:94 | "" and "-" are rejected, since no digits were parsed |
| `CalculatorFacts.ParseIntRejectsTrailingSpace` | src/main.cpp:95 | "12 " is rejected, since the string was not consumed |
| `CalculatorFacts.ParseIntRejectsHex` | src/main.cpp:90-95 | "0x1A" is rejected: base 10 stops after "0" |
| `CalculatorFacts.NegativeNumberTokenExamples` | src/main.cpp:107-110 | null, "", "-", "-h", "--help" and "5" are not negative-number tokens; "-5" is |
| `CalculatorFacts.NegativeTokenIsNumber` | src/main.cpp:107-110 | a token taken back as a negative number is one strtol reads as a number of at least one digit, and that number is not positive |
| `CalculatorFacts.FormattedNegativeIsToken` | src/main.cpp:107-110 | a `%d`-printed integer is a negative-number token exactly when it is negative |
| `CalculatorFacts.BinaryOperators` | src/main.cpp:102-105 | the binary operators are exactly `+ - x / ^`; `!` and NUL are not among them |
| `CalculatorFacts.ParseCodes` | src/main.cpp:112-149 | parse returns 0, 1 or 2; 1 and `*want_help` exactly for a help request, which leaves the record alone |
| `CalculatorFacts.ParseRejectsOption` | src/main.cpp:131-147 | an unknown option that is not a negative number, or another option, gives 2 and leaves the record alone |
| `CalculatorFacts.ParseArity` | src/main.cpp:151-160 | anything but 2 or 3 operands gives 2 and leaves the record alone; past that check `result` is 0, and so is `b` in the unary form |
| `CalculatorFacts.ParseUnary` | src/main.cpp:162-183 | `N !` is accepted exactly when N parses and the operator token is "!", giving the record (N, 0, '!', 0) |
| `CalculatorFacts.ParseBinary` | src/main.cpp:185-204 | `A B OP` is accepted exactly when A and B parse and OP is one character (any character), giving (A, B, OP, 0) |
| `CalculatorFacts.CheckTable` | src/main.cpp:207-240 | check gives 1 exactly for `!` with b != 0 or an unknown operator, 2 exactly for negative factorial, negative exponent or zero divisor, else 0; b is tested before a |
| `CalculatorFacts.CheckedIsDispatched` | src/main.cpp:208-268 | after check returns 0 the operator is one of `+ - x / ^ !` with its operand constraints, and calculate's default branch is unreachable |
| `CalculatorFacts.CalculateStatus` | src/main.cpp:242-276 | calculate returns 0 exactly when the dispatched call returned MATH_OK, else 2; only `result` changes, only to what the library stored, and whatever the library stored ends up in `result` |
| `CalculatorFacts.RunExitCodes` | src/main.cpp:278-314 | help gives 0 without check; a parse failure gives 1; a usage violation gives 1; a runtime violation gives 2; otherwise 0 exactly when the library returned MATH_OK |
| `CalculatorFacts.RunOutput` | src/main.cpp:283-313 | the usage text is printed exactly on help or exit 1, a result line exactly on exit 0 without help, nothing exactly on exit 2 |
| `CalculatorFacts.RunLineShowsStoredResult` | src/main.cpp:157-160 | the result line shows what the library stored, or 0 if it stored nothing |
| `CalculatorFacts.BinaryBangMatchesUnary` | src/main.cpp:186-204 | `A 0 !` behaves exactly like `A !` |
| `CalculatorFacts.AdditionLine` | src/main.cpp:79-80 | the record (2, 3, '+', 5) prints "2 + 3 = 5" |
| `CalculatorFacts.FactorialLine` | src/main.cpp:70-71 | the record (5, 0, '!', 120) prints "fact(5) = 120" |
| `CalculatorFacts.AdditionExample` | src/main.cpp:278-314 | `calc 2 3 +` prints "2 + 3 = 5" and exits 0 |
| `CalculatorFacts.FactorialExample` | src/main.cpp:278-314 | `calc 5 !` prints "fact(5) = 120" and exits 0 |
| `CalculatorFacts.DivisionByZeroExample` | src/main.cpp:234-237 | `calc 5 0 /` exits 2 without printing to standard output |
| `CalculatorFacts.NegativeFactorialExample` | src/main.cpp:131-138 | `calc -5 !` takes "-5" back as the operand and exits 2 |
| `CalculatorFacts.UsageExamples` | src/main.cpp:283-292 | `calc -h` exits 0; `calc 1 2 3` and `calc 2 3 +=` exit 1; each prints the usage text |
| `CalculatorFacts.UnknownOperatorExample` | src/main.cpp:224-227 | `calc 1 2 3` parses with '3' as the operator, and check's unknown-operation test gives exit 1 with the usage text |
| `CalculatorFacts.LongOperatorExample` | src/main.cpp:196-200 | `calc 2 3 +=` fails in parse, because the operator token is longer than one character, and exits 1 with the usage text |
| `CalculatorFacts.ResultLineTemplate` | src/main.cpp:67-83 | every result line ends with " = ", the result and a newline, and starts with "fact(" exactly for `!` |

## Left out

- The bodies of `math_add`, `math_sub`, `math_mul`, `math_div`, `math_pow` and `math_fact`, and the numeric values of the `MATH_*` codes: `mathlib.h` and its implementation are not part of this model. The operations are parameters.
- `getopt_long` itself: how it sets `optind`, `opterr` and its position inside a multi-character token. For example, how it reports `-12` is not modelled; the model starts from its first return value.
- `print_help`, `print_error`, `print_math_error` and every message on standard error: the wording is console output. The usage text is modelled only as the fact that it is printed.
- `main`, which only returns `run`'s result.
- Locales other than "C", and errno values other than ERANGE (none arise for base 10).
- Character encoding: a C string is a sequence of non-NUL bytes, written as characters up to U+00FF.
