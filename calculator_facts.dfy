/** What the front end in src/main.cpp promises, proved about the model in module Calculator. */
module CalculatorFacts {
  import opened CTypes
  import opened CStdlib
  import opened Printf
  import opened MathLib
  import opened Calculator

  // ---------------------------------------------------------------- parse_int

  /** parse_int succeeds only on a string that is, in full, a decimal literal, and stores its value. */
  lemma ParseIntSound(s: CString, out: Int32)
    ensures ParseInt(s, out).rc == 0 ==> Denotes(s, ParseInt(s, out).out)
  {
    if ParseInt(s, out).rc == 0 {
      var l := ScannedLiteral(s);
      assert s[..|s|] == s;
    }
  }

  /** On a string that is, in full, a decimal literal, parse_int succeeds exactly when the value fits in `int`. */
  lemma ParseIntComplete(s: CString, out: Int32, n: int)
    requires Denotes(s, n)
    ensures ParseInt(s, out).rc == 0 <==> INT_MIN <= n <= INT_MAX
    ensures ParseInt(s, out).rc == 0 ==> ParseInt(s, out).out == n
  {
    var l: Literal :| l.WellFormed() && l.Text() == s && l.Value() == n;
    StrtolOfLiteral(l);
  }

  /** Hence parse_int rejects, and leaves `*out` alone, exactly when no in-range value is denoted. */
  lemma ParseIntRejects(s: CString, out: Int32)
    ensures ParseInt(s, out).rc != 0 <==> forall n | INT_MIN <= n <= INT_MAX :: !Denotes(s, n)
    ensures ParseInt(s, out).rc != 0 ==> ParseInt(s, out).out == out
  {
    ParseIntSound(s, out);
    forall n | INT_MIN <= n <= INT_MAX && Denotes(s, n) ensures ParseInt(s, out).rc == 0 {
      ParseIntComplete(s, out, n);
    }
  }

  /** Every `int` printed with `%d` is read back by parse_int. */
  lemma ParseIntOfFormatted(n: Int32, out: Int32)
    ensures ParseInt(FormatInt(n), out) == IntParse(0, n)
  {
    FormatIntDenotes(n);
    ParseIntComplete(FormatInt(n), out, n);
  }

  /** parse_int on the text of a literal: its value when that fits in `int`, a rejection otherwise. */
  lemma ParseIntOfLiteral(l: Literal, out: Int32)
    requires l.WellFormed()
    ensures ParseInt(l.Text(), out)
         == if INT_MIN <= l.Value() <= INT_MAX then IntParse(0, l.Value()) else IntParse(-1, out)
  {
    ParseIntComplete(l.Text(), out, l.Value());
  }

  lemma ParseIntAcceptsExamples()
    ensures ParseInt(" \t-12", 7) == IntParse(0, -12)
    ensures ParseInt("+12", 7) == IntParse(0, 12)
  {
    assert DigitsValue("12") == 12;
    assert Literal(" \t", Minus, "12").Text() == " \t-12";
    ParseIntOfLiteral(Literal(" \t", Minus, "12"), 7);
    assert Literal([], Plus, "12").Text() == "+12";
    ParseIntOfLiteral(Literal([], Plus, "12"), 7);
  }

  /** The empty string and a lone sign hold no digits: parse_int rejects them. */
  lemma ParseIntRejectsNoDigits()
    ensures ParseInt("", 7) == IntParse(-1, 7)
    ensures ParseInt("-", 7) == IntParse(-1, 7)
  {
  }

  /** Text after the digits, even white space, makes parse_int reject. */
  lemma ParseIntRejectsTrailingSpace()
    ensures ParseInt("12 ", 7) == IntParse(-1, 7)
  {
  }

  /** Base 10 only: "0x1A" stops after the "0". */
  lemma ParseIntRejectsHex()
    ensures ParseInt("0x1A", 7) == IntParse(-1, 7)
  {
  }

  // --------------------------------------------------------- token predicates

  /** A null pointer, a lone "-" and the help flags are not negative numbers; "-5" is. */
  lemma NegativeNumberTokenExamples()
    ensures !IsNegativeNumberToken(None)
    ensures !IsNegativeNumberToken(Some(""))
    ensures !IsNegativeNumberToken(Some("-"))
    ensures !IsNegativeNumberToken(Some("-h"))
    ensures !IsNegativeNumberToken(Some("--help"))
    ensures !IsNegativeNumberToken(Some("5"))
    ensures IsNegativeNumberToken(Some("-5"))
  {
  }

  /** A token parse takes back as a negative number is one strtol reads as a number of at
      least one digit, and the number is not positive. */
  lemma NegativeTokenIsNumber(s: CString)
    requires IsNegativeNumberToken(Some(s))
    ensures Strtol(s).end >= 2 && Strtol(s).value <= 0
  {
  }

  /** Every negative `int`, as `%d` prints it, is a negative-number token, and no other printed `int` is. */
  lemma FormattedNegativeIsToken(n: int)
    ensures IsNegativeNumberToken(Some(FormatInt(n))) <==> n < 0
  {
  }

  /** The operators check accepts in the binary form, and `!` is not among them. */
  lemma BinaryOperators(c: Byte)
    ensures IsBinaryOp(c) <==> c in "+-x/^"
    ensures !IsBinaryOp('!') && !IsBinaryOp(NUL)
  {
  }

  // -------------------------------------------------------------------- parse

  /** parse's return codes: 1 exactly for a help request, which writes nothing; otherwise 0 or 2. */
  lemma ParseCodes(argv: seq<CString>, g: GetoptReturn, before: Fields)
    requires GetoptFits(g, |argv|)
    ensures var p := ParseModel(argv, g, before);
      (p.rc == 0 || p.rc == 1 || p.rc == 2) &&
      (p.wantHelp <==> g.OptHelp?) &&
      (p.rc == 1 <==> g.OptHelp?) &&
      (g.OptHelp? ==> p.after == before)
  {
  }

  /** An option parse cannot use (anything but a negative number) fails with 2 and leaves the record alone. */
  lemma ParseRejectsOption(argv: seq<CString>, g: GetoptReturn, before: Fields)
    requires GetoptFits(g, |argv|)
    requires !g.OptHelp? && OperandStart(argv, g).None?
    ensures ParseModel(argv, g, before) == ParseReply(2, false, before)
  {
  }

  /** parse fails with 2 unless exactly 2 or 3 operands remain; then the record is untouched, and
      past that check it is always reset: `result` is 0, and so is `b` in the unary form. */
  lemma ParseArity(argv: seq<CString>, g: GetoptReturn, before: Fields, k: nat)
    requires GetoptFits(g, |argv|)
    requires OperandStart(argv, g) == Some(k)
    ensures var p, remaining := ParseModel(argv, g, before), |argv| - k;
      (remaining != 2 && remaining != 3 ==> p == ParseReply(2, false, before)) &&
      (remaining == 2 || remaining == 3 ==> p.after.result == 0 && !p.wantHelp) &&
      (remaining == 2 ==> p.after.b == 0)
  {
  }

  /** The unary form `N !`: accepted exactly when N is an `int` and the operator token is "!". */
  lemma ParseUnary(argv: seq<CString>, g: GetoptReturn, before: Fields, k: nat)
    requires GetoptFits(g, |argv|)
    requires OperandStart(argv, g) == Some(k) && |argv| - k == 2
    ensures var p, n := ParseModel(argv, g, before), ParseInt(argv[k], 0);
      (p.rc == 0 <==> n.rc == 0 && argv[k + 1] == "!") &&
      (p.rc == 0 ==> p.after == Fields(n.out, 0, '!', 0))
  {
  }

  /** The binary form `A B OP`: accepted exactly when A and B are `int`s and OP is one character, any character. */
  lemma ParseBinary(argv: seq<CString>, g: GetoptReturn, before: Fields, k: nat)
    requires GetoptFits(g, |argv|)
    requires OperandStart(argv, g) == Some(k) && |argv| - k == 3
    ensures var p, x, y := ParseModel(argv, g, before), ParseInt(argv[k], 0), ParseInt(argv[k + 1], 0);
      (p.rc == 0 <==> x.rc == 0 && y.rc == 0 && |argv[k + 2]| == 1) &&
      (p.rc == 0 ==> p.after == Fields(x.out, y.out, argv[k + 2][0], 0))
  {
  }

  // -------------------------------------------------------------------- check

  /** Malformed invocations that reach check: `!` with a second operand, or an unknown operator. */
  predicate UsageViolation(f: Fields)
  {
    (f.op == '!' && f.b != 0) || f.op !in "+-x/^!"
  }

  /** Well-formed invocations whose operands the operation does not accept. */
  predicate RuntimeViolation(f: Fields)
  {
    (f.op == '!' && f.b == 0 && f.a < 0) || (f.op == '^' && f.b < 0) || (f.op == '/' && f.b == 0)
  }

  /** check's ordered tests amount to: 1 for a usage violation, 2 for a runtime violation, else 0.
      The tests are ordered so that `!` with b != 0 is a usage error even when a < 0. */
  lemma CheckTable(f: Fields)
    ensures Check(f) == 1 <==> UsageViolation(f)
    ensures Check(f) == 2 <==> RuntimeViolation(f)
    ensures Check(f) == 0 <==> !UsageViolation(f) && !RuntimeViolation(f)
    ensures f.op == '!' && f.b != 0 && f.a < 0 ==> Check(f) == 1
  {
  }

  /** A record check passes is one calculate dispatches: its default branch is unreachable after check. */
  lemma CheckedIsDispatched(ops: MathOps, f: Fields)
    requires Check(f) == 0
    ensures f.op in "+-x/^!"
    ensures f.op == '/' ==> f.b != 0
    ensures f.op == '^' ==> f.b >= 0
    ensures f.op == '!' ==> f.a >= 0 && f.b == 0
    ensures Dispatch(ops, f).Some?
  {
  }

  // ---------------------------------------------------------------- calculate

  /** calculate returns 0 exactly when the library call returned MATH_OK, and 2 otherwise; it changes
      only `result`, and that only to what the library stored; whatever the library stored ends up there. */
  lemma CalculateStatus(ops: MathOps, f: Fields)
    ensures var c := CalculateModel(ops, f);
      (c.rc == 0 || c.rc == 2) &&
      (c.rc == 0 <==> Dispatch(ops, f).Some? && Dispatch(ops, f).value.status == MathOk) &&
      c.after.(result := f.result) == f &&
      (c.after.result != f.result ==> Dispatch(ops, f).Some? && Dispatch(ops, f).value.stored == Some(c.after.result)) &&
      (Dispatch(ops, f).Some? && Dispatch(ops, f).value.stored.Some? ==> c.after.result == Dispatch(ops, f).value.stored.value)
  {
  }

  // ---------------------------------------------------------------------- run

  /** run's exit codes: 0 for help without running check, 1 for any parse failure and for check's
      usage errors, 2 for check's runtime errors and for a failed calculation, 0 on success. */
  lemma RunExitCodes(argv: seq<CString>, g: GetoptReturn, ops: MathOps, initial: Fields)
    requires GetoptFits(g, |argv|)
    ensures var r, p := RunModel(argv, g, ops, initial), ParseModel(argv, g, initial);
      (r.exit == 0 || r.exit == 1 || r.exit == 2) &&
      (g.OptHelp? ==> r == RunReply(0, Usage)) &&
      (!g.OptHelp? && p.rc != 0 ==> r == RunReply(1, Usage)) &&
      (!g.OptHelp? && p.rc == 0 ==>
        (r.exit == 1 <==> UsageViolation(p.after)) &&
        (RuntimeViolation(p.after) ==> r == RunReply(2, Silent)) &&
        (!UsageViolation(p.after) && !RuntimeViolation(p.after) ==>
          (r.exit == 0 <==> Dispatch(ops, p.after).value.status == MathOk)))
  {
  }

  /** The usage text is printed exactly on a help request and on exit code 1; a result line exactly on
      a successful calculation. */
  lemma RunOutput(argv: seq<CString>, g: GetoptReturn, ops: MathOps, initial: Fields)
    requires GetoptFits(g, |argv|)
    ensures var r := RunModel(argv, g, ops, initial);
      (r.stdout == Usage <==> g.OptHelp? || r.exit == 1) &&
      (r.stdout.Line? <==> !g.OptHelp? && r.exit == 0) &&
      (r.stdout == Silent <==> r.exit == 2)
  {
  }

  /** The result line shows what the library stored, or 0 when it stored nothing, since parse reset `result`. */
  lemma RunLineShowsStoredResult(argv: seq<CString>, g: GetoptReturn, ops: MathOps, initial: Fields)
    requires GetoptFits(g, |argv|)
    ensures var r, p := RunModel(argv, g, ops, initial), ParseModel(argv, g, initial);
      r.stdout.Line? ==>
        var stored := Dispatch(ops, p.after).value.stored;
        r.stdout.text == PrintResult(p.after.(result := if stored.Some? then stored.value else 0))
  {
    var r, p := RunModel(argv, g, ops, initial), ParseModel(argv, g, initial);
    if r.stdout.Line? {
      var k :| OperandStart(argv, g) == Some(k);
      ParseArity(argv, g, initial, k);
      CalculateStatus(ops, p.after);
      assert r.stdout.text == PrintResult(CalculateModel(ops, p.after).after);
    }
  }

  /** `A 0 !` passes parse and check wherever `A !` does and is evaluated as math_fact(A): the two
      invocations behave identically. */
  lemma BinaryBangMatchesUnary(prog: seq<CString>, x: CString, ops: MathOps, initial: Fields)
    requires |prog| >= 1
    ensures RunModel(prog + [x, "0", "!"], OptEnd(|prog|), ops, initial)
         == RunModel(prog + [x, "!"], OptEnd(|prog|), ops, initial)
  {
  }

  /** `calc 2 3 +` prints "2 + 3 = 5" and exits 0, with a library that adds 2 and 3 to 5. */
  lemma AdditionExample(ops: MathOps, initial: Fields)
    requires ops.add(2, 3) == MathReply(MathOk, Some(5))
    ensures RunModel(["calc", "2", "3", "+"], OptEnd(1), ops, initial) == RunReply(0, Line("2 + 3 = 5\n"))
  {
    var argv: seq<CString> := ["calc", "2", "3", "+"];
    assert FormatInt(2) == "2" && FormatInt(3) == "3";
    ParseIntOfFormatted(2, 0);
    ParseIntOfFormatted(3, 0);
    ParseBinary(argv, OptEnd(1), initial, 1);
    var parsed := Fields(2, 3, '+', 0);
    assert ParseModel(argv, OptEnd(1), initial) == ParseReply(0, false, parsed);
    assert Check(parsed) == 0;
    assert CalculateModel(ops, parsed) == CalcReply(0, parsed.(result := 5));
    AdditionLine();
  }

  /** The generic template: operand, operator character, operand, result. */
  lemma AdditionLine()
    ensures PrintResult(Fields(2, 3, '+', 5)) == "2 + 3 = 5\n"
  {
  }

  /** `calc 5 !` prints "fact(5) = 120" and exits 0, with a library that computes 5! as 120. */
  lemma FactorialExample(ops: MathOps, initial: Fields)
    requires ops.fact(5) == MathReply(MathOk, Some(120))
    ensures RunModel(["calc", "5", "!"], OptEnd(1), ops, initial) == RunReply(0, Line("fact(5) = 120\n"))
  {
    var argv: seq<CString> := ["calc", "5", "!"];
    assert FormatInt(5) == "5";
    ParseIntOfFormatted(5, 0);
    ParseUnary(argv, OptEnd(1), initial, 1);
    var parsed := Fields(5, 0, '!', 0);
    assert ParseModel(argv, OptEnd(1), initial) == ParseReply(0, false, parsed);
    assert CalculateModel(ops, parsed) == CalcReply(0, parsed.(result := 120));
    FactorialLine();
  }

  /** The factorial template: "fact(", the operand, ") = " and the result. */
  lemma FactorialLine()
    ensures PrintResult(Fields(5, 0, '!', 120)) == "fact(5) = 120\n"
  {
    assert DigitsOf(12) == "12";
    assert FormatInt(120) == "120";
  }

  /** `calc 5 0 /` exits 2 without calling the library: check rejects the zero divisor. */
  lemma DivisionByZeroExample(ops: MathOps, initial: Fields)
    ensures RunModel(["calc", "5", "0", "/"], OptEnd(1), ops, initial) == RunReply(2, Silent)
  {
  }

  /** `calc -5 !`: getopt_long reports "-5" as an unknown option, parse takes it back as the operand,
      and check rejects the negative factorial with exit code 2. */
  lemma NegativeFactorialExample(ops: MathOps, initial: Fields)
    ensures RunModel(["calc", "-5", "!"], OptUnknown(2), ops, initial) == RunReply(2, Silent)
  {
  }

  /** `calc -h` prints the usage and exits 0; `calc 1 2 3` and `calc 2 3 +=` are usage errors. */
  lemma UsageExamples(ops: MathOps, initial: Fields)
    ensures RunModel(["calc", "-h"], OptHelp, ops, initial) == RunReply(0, Usage)
    ensures RunModel(["calc", "1", "2", "3"], OptEnd(1), ops, initial) == RunReply(1, Usage)
    ensures RunModel(["calc", "2", "3", "+="], OptEnd(1), ops, initial) == RunReply(1, Usage)
  {
    UnknownOperatorExample(ops, initial);
    LongOperatorExample(ops, initial);
  }

  /** `calc 1 2 3` parses, with '3' as the operator, and check rejects the unknown operator. */
  lemma UnknownOperatorExample(ops: MathOps, initial: Fields)
    ensures RunModel(["calc", "1", "2", "3"], OptEnd(1), ops, initial) == RunReply(1, Usage)
  {
  }

  /** `calc 2 3 +=` fails in parse: the operator token is two characters long. */
  lemma LongOperatorExample(ops: MathOps, initial: Fields)
    ensures RunModel(["calc", "2", "3", "+="], OptEnd(1), ops, initial) == RunReply(1, Usage)
  {
  }

  // ------------------------------------------------------------- print_result

  /** Every result line ends in " = ", the result and a newline, and begins with "fact(" exactly for `!`. */
  lemma ResultLineTemplate(f: Fields)
    ensures var line, tail := PrintResult(f), " = " + FormatInt(f.result) + "\n";
      |line| > |tail| && line[|line| - |tail|..] == tail &&
      (line[..5] == "fact(" <==> f.op == '!')
  {
    var head, tail := ResultHead(f), " = " + FormatInt(f.result) + "\n";
    ResultLineSplits(f);
    assert (head + tail)[|head|..] == tail;
    if f.op == '!' {
      assert (head + tail)[..5] == head[..5];
    } else {
      assert (head + tail)[..5][0] == head[0] != 'f';
    }
  }

  /** What print_result writes before " = ": the operation with its operands. */
  function ResultHead(f: Fields): (head: string)
    ensures |head| > 0
    ensures f.op == '!' ==> |head| >= 5 && head[..5] == "fact("
    ensures f.op != '!' ==> head[0] != 'f'
  {
    var a, b := FormatInt(f.a), FormatInt(f.b);
    match f.op
    case '!' => "fact(" + a + ")"
    case '^' => a + "^" + b
    case 'x' => a + " x " + b
    case _ => a + " " + [f.op] + " " + b
  }

  lemma ResultLineSplits(f: Fields)
    ensures PrintResult(f) == ResultHead(f) + (" = " + FormatInt(f.result) + "\n")
  {
  }
}
