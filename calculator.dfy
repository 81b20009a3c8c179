/** The front end in src/main.cpp: the CalcData record, parse_int, the token
    predicates, parse (after option scanning), check, calculate, print_result
    and run's exit-code mapping. */
module Calculator {
  import opened CTypes
  import opened CStdlib
  import opened Printf
  import opened MathLib

  const NUL: Byte := '\0'

  /** The contents of a CalcData record. */
  datatype Fields = Fields(a: Int32, b: Int32, op: Byte, result: Int32)

  /** The record after parse resets it: every field zero. */
  const Zeroed: Fields := Fields(0, 0, NUL, 0)

  /** struct CalcData, which parse and calculate update through a pointer. */
  class CalcData {
    var a: Int32
    var b: Int32
    var op: Byte
    var result: Int32

    /** `CalcData d;` in run: whatever the stack held. */
    constructor (initial: Fields)
      ensures Value() == initial
    {
      a, b, op, result := initial.a, initial.b, initial.op, initial.result;
    }

    function Value(): Fields
      reads this
    {
      Fields(a, b, op, result)
    }
  }

  // ---------------------------------------------------------------- parse_int

  /** parse_int's return code and the value `*out` holds afterwards. */
  datatype IntParse = IntParse(rc: int, out: Int32)

  /** parse_int(s, &out): strtol, then the errno, empty, trailing-text and range checks, in that order. */
  function ParseInt(s: CString, out: Int32): (r: IntParse)
    ensures r.rc == 0 || r.rc == -1
    ensures r.rc != 0 ==> r.out == out
  {
    var t := Strtol(s);
    if t.erange then IntParse(-1, out)
    else if t.end == 0 then IntParse(-1, out)
    else if t.end != |s| then IntParse(-1, out)
    else if t.value < INT_MIN || t.value > INT_MAX then IntParse(-1, out)
    else IntParse(0, t.value)
  }

  // ---------------------------------------------------------- token predicates

  /** is_binary_op: the operators of the `A B OP` form. Neither the unary `!` nor the NUL
      parse resets `op` to is one of them. */
  predicate IsBinaryOp(op: Byte): (r: bool)
    ensures r ==> op != '!' && op != NUL
  {
    op == '+' || op == '-' || op == 'x' || op == '/' || op == '^'
  }

  /** is_negative_number_token; None is a null pointer. A token it accepts is never
      one of the help options `-h` and `--help`. */
  predicate IsNegativeNumberToken(s: Option<CString>): (r: bool)
    ensures r ==> s.Some? && s.value != "-h" && |s.value| >= 2 && s.value[..2] != "--"
  {
    s.Some? && |s.value| >= 2 && s.value[0] == '-' && '0' <= s.value[1] <= '9'
  }

  // -------------------------------------------------------------------- parse

  /** What the one getopt_long call that parse's loop makes can return. Every
      branch of the loop's switch leaves the loop, so that call decides it. */
  datatype GetoptReturn =
    | OptHelp                    // 'h', for -h or --help
    | OptUnknown(optind: nat)    // '?', with optind as getopt_long left it
    | OptOther                   // any other option character
    | OptEnd(optind: nat)        // -1: the options end before argv[optind]

  /** What getopt_long guarantees about optind, for an argument vector of `argc` entries. */
  predicate GetoptFits(g: GetoptReturn, argc: nat)
  {
    argc >= 1 &&
    match g
    case OptUnknown(k) => 1 <= k <= argc
    case OptEnd(k) => 1 <= k <= argc
    case _ => true
  }

  /** Where the operands start once options are scanned: optind after an
      end, one back after a '?' caused by a negative number, and none when
      parse gives up on an option. */
  function OperandStart(argv: seq<CString>, g: GetoptReturn): (k: Option<nat>)
    requires GetoptFits(g, |argv|)
    ensures k.Some? ==> k.value <= |argv|
  {
    match g
    case OptUnknown(k) =>
      if IsNegativeNumberToken(Some(argv[k - 1])) then Some(k - 1) else None
    case OptEnd(k) => Some(k)
    case _ => None
  }

  /** parse's return code, *want_help, and the record afterwards. */
  datatype ParseReply = ParseReply(rc: int, wantHelp: bool, after: Fields)

  /** The positional part of parse, for operands argv[k..]. */
  function Positional(argv: seq<CString>, k: nat, before: Fields): ParseReply
    requires k <= |argv|
  {
    var remaining := |argv| - k;
    if remaining != 2 && remaining != 3 then ParseReply(2, false, before)
    else if remaining == 2 then
      var pa := ParseInt(argv[k], Zeroed.a);
      var f1 := Zeroed.(a := pa.out);
      if pa.rc != 0 then ParseReply(2, false, f1)
      else if |argv[k + 1]| != 1 then ParseReply(2, false, f1)
      else
        var f2 := f1.(op := argv[k + 1][0]);
        if f2.op != '!' then ParseReply(2, false, f2) else ParseReply(0, false, f2)
    else
      var pa := ParseInt(argv[k], Zeroed.a);
      var f1 := Zeroed.(a := pa.out);
      if pa.rc != 0 then ParseReply(2, false, f1)
      else
        var pb := ParseInt(argv[k + 1], f1.b);
        var f2 := f1.(b := pb.out);
        if pb.rc != 0 then ParseReply(2, false, f2)
        else if |argv[k + 2]| != 1 then ParseReply(2, false, f2)
        else ParseReply(0, false, f2.(op := argv[k + 2][0]))
  }

  /** parse(d, argc, argv, &want_help), the record's old contents being `before`. */
  function ParseModel(argv: seq<CString>, g: GetoptReturn, before: Fields): ParseReply
    requires GetoptFits(g, |argv|)
  {
    if g.OptHelp? then ParseReply(1, true, before)
    else match OperandStart(argv, g)
      case None => ParseReply(2, false, before)
      case Some(k) => Positional(argv, k, before)
  }

  method Parse(d: CalcData, argv: seq<CString>, g: GetoptReturn) returns (rc: int, wantHelp: bool)
    requires GetoptFits(g, |argv|)
    modifies d
    ensures ParseReply(rc, wantHelp, d.Value()) == ParseModel(argv, g, old(d.Value()))
  {
    wantHelp := false;
    var optind: nat;
    match g {
      case OptHelp =>
        wantHelp := true;
        return 1, wantHelp;
      case OptUnknown(k) =>
        var bad := argv[k - 1];
        if !IsNegativeNumberToken(Some(bad)) {
          return 2, wantHelp;
        }
        optind := k - 1;
      case OptOther =>
        return 2, wantHelp;
      case OptEnd(k) =>
        optind := k;
    }

    assert ParseModel(argv, g, old(d.Value())) == Positional(argv, optind, old(d.Value()));
    var remaining := |argv| - optind;
    if remaining != 2 && remaining != 3 {
      return 2, wantHelp;
    }

    d.a, d.b, d.op, d.result := 0, 0, NUL, 0;

    if remaining == 2 {
      // N !
      var pa := ParseInt(argv[optind], d.a);
      d.a := pa.out;
      if pa.rc != 0 {
        return 2, wantHelp;
      }
      var tok := argv[optind + 1];
      if |tok| != 1 {
        return 2, wantHelp;
      }
      d.op := tok[0];
      if d.op != '!' {
        return 2, wantHelp;
      }
      return 0, wantHelp;
    }

    // A B OP
    var pa := ParseInt(argv[optind], d.a);
    d.a := pa.out;
    if pa.rc != 0 {
      return 2, wantHelp;
    }
    var pb := ParseInt(argv[optind + 1], d.b);
    d.b := pb.out;
    if pb.rc != 0 {
      return 2, wantHelp;
    }
    var tok := argv[optind + 2];
    if |tok| != 1 {
      return 2, wantHelp;
    }
    d.op := tok[0];
    return 0, wantHelp;
  }

  // -------------------------------------------------------------------- check

  /** check: 0 - ok; 1 - usage error; 2 - runtime error. */
  function Check(f: Fields): (code: int)
    ensures 0 <= code <= 2
  {
    if f.op == '!' then
      if f.b != 0 then 1
      else if f.a < 0 then 2
      else 0
    else if !IsBinaryOp(f.op) then 1
    else if f.op == '^' && f.b < 0 then 2
    else if f.op == '/' && f.b == 0 then 2
    else 0
  }

  // ---------------------------------------------------------------- calculate

  /** The library call calculate's switch makes for the record, or None for its default branch. */
  function Dispatch(ops: MathOps, f: Fields): (r: Option<MathReply>)
    ensures r.Some? <==> IsBinaryOp(f.op) || f.op == '!'
  {
    match f.op
    case '+' => Some(ops.add(f.a, f.b))
    case '-' => Some(ops.sub(f.a, f.b))
    case 'x' => Some(ops.mul(f.a, f.b))
    case '/' => Some(ops.div(f.a, f.b))
    case '^' => Some(ops.pow(f.a, f.b))
    case '!' => Some(ops.fact(f.a))
    case _ => None
  }

  /** calculate's return code and the record afterwards. */
  datatype CalcReply = CalcReply(rc: int, after: Fields)

  function CalculateModel(ops: MathOps, f: Fields): CalcReply
  {
    match Dispatch(ops, f)
    case None => CalcReply(2, f)
    case Some(reply) =>
      var g := if reply.stored.Some? then f.(result := reply.stored.value) else f;
      CalcReply(if reply.status == MathOk then 0 else 2, g)
  }

  method Calculate(d: CalcData, ops: MathOps) returns (rc: int)
    modifies d
    ensures CalcReply(rc, d.Value()) == CalculateModel(ops, old(d.Value()))
  {
    var reply: MathReply;
    match d.op {
      case '+' => reply := ops.add(d.a, d.b);
      case '-' => reply := ops.sub(d.a, d.b);
      case 'x' => reply := ops.mul(d.a, d.b);
      case '/' => reply := ops.div(d.a, d.b);
      case '^' => reply := ops.pow(d.a, d.b);
      case '!' => reply := ops.fact(d.a);
      case _ => return 2;
    }
    if reply.stored.Some? {
      d.result := reply.stored.value;
    }
    if reply.status != MathOk {
      return 2;
    }
    return 0;
  }

  // ------------------------------------------------------------- print_result

  /** The line print_result writes, chosen by operator. */
  function PrintResult(f: Fields): (line: string)
    ensures |line| > 0 && line[|line| - 1] == '\n'
    ensures f.op != '!' ==> |line| > |FormatInt(f.a)| && line[..|FormatInt(f.a)|] == FormatInt(f.a)
  {
    match f.op
    case '!' => "fact(" + FormatInt(f.a) + ") = " + FormatInt(f.result) + "\n"
    case '^' => FormatInt(f.a) + "^" + FormatInt(f.b) + " = " + FormatInt(f.result) + "\n"
    case 'x' => FormatInt(f.a) + " x " + FormatInt(f.b) + " = " + FormatInt(f.result) + "\n"
    case _ => FormatInt(f.a) + " " + [f.op] + " " + FormatInt(f.b) + " = " + FormatInt(f.result) + "\n"
  }

  // ---------------------------------------------------------------------- run

  /** What run writes to standard output: the usage text, the result line, or nothing. */
  datatype Stdout = Usage | Line(text: string) | Silent

  datatype RunReply = RunReply(exit: int, stdout: Stdout)

  /** run(argc, argv); `initial` is the uninitialised record's contents. */
  function RunModel(argv: seq<CString>, g: GetoptReturn, ops: MathOps, initial: Fields): RunReply
    requires GetoptFits(g, |argv|)
  {
    var p := ParseModel(argv, g, initial);
    if p.wantHelp then RunReply(0, Usage)
    else if p.rc != 0 then RunReply(1, Usage)
    else
      var code := Check(p.after);
      if code == 1 then RunReply(1, Usage)
      else if code != 0 then RunReply(2, Silent)
      else
        var c := CalculateModel(ops, p.after);
        if c.rc != 0 then RunReply(2, Silent)
        else RunReply(0, Line(PrintResult(c.after)))
  }

  method Run(argv: seq<CString>, g: GetoptReturn, ops: MathOps, initial: Fields) returns (exit: int, stdout: Stdout)
    requires GetoptFits(g, |argv|)
    ensures RunReply(exit, stdout) == RunModel(argv, g, ops, initial)
  {
    var d := new CalcData(initial);
    var prc, wantHelp := Parse(d, argv, g);
    if wantHelp {
      return 0, Usage;
    }
    if prc != 0 {
      return 1, Usage;
    }
    var code := Check(d.Value());
    if code == 1 {
      return 1, Usage;
    } else if code != 0 {
      return 2, Silent;
    }
    var crc := Calculate(d, ops);
    if crc != 0 {
      return 2, Silent;
    }
    return 0, Line(PrintResult(d.Value()));
  }
}
