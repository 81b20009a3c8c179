/** `strtol(s, &end, 10)` as section 7.22.1.4 of ISO C11 defines it, for the
    "C" locale and a 64-bit `long`: leading white space is skipped, an optional
    sign and then a non-empty run of decimal digits form the subject sequence,
    `end` points just past it (or at `s` itself when there is none), and a value
    outside `long` is replaced by LONG_MIN or LONG_MAX with `errno = ERANGE`. */
module CStdlib {
  import opened CTypes

  /** Value of a digit string, accumulated left to right as strtol does. */
  function DigitsValue(ds: seq<char>): nat
    requires AllDigits(ds)
  {
    if ds == [] then 0 else DigitsValue(ds[..|ds| - 1]) * 10 + DigitValue(ds[|ds| - 1])
  }

  /** The end of the run of white space that starts at `i`. */
  function SpanSpace(s: CString, i: nat): (e: nat)
    requires i <= |s|
    ensures i <= e <= |s|
    ensures forall k | i <= k < e :: IsSpace(s[k])
    ensures e < |s| ==> !IsSpace(s[e])
    decreases |s| - i
  {
    if i < |s| && IsSpace(s[i]) then SpanSpace(s, i + 1) else i
  }

  /** The end of the run of decimal digits that starts at `i`. */
  function SpanDigits(s: CString, i: nat): (e: nat)
    requires i <= |s|
    ensures i <= e <= |s|
    ensures AllDigits(s[i..e])
    ensures e < |s| ==> !IsDigit(s[e])
    decreases |s| - i
  {
    if i < |s| && IsDigit(s[i]) then
      var e := SpanDigits(s, i + 1);
      assert s[i..e] == [s[i]] + s[i + 1..e];
      e
    else i
  }

  /** Length of the optional sign at `i`. */
  function SignLength(s: CString, i: nat): nat
    requires i <= |s|
  {
    if i < |s| && (s[i] == '+' || s[i] == '-') then 1 else 0
  }

  /** What one call returns: the value, the offset `end - s`, and whether errno was set to ERANGE. */
  datatype StrtolReply = StrtolReply(value: int, end: nat, erange: bool)

  function Strtol(s: CString): (r: StrtolReply)
    ensures r.end <= |s|
    ensures LONG_MIN <= r.value <= LONG_MAX
    ensures r.end == 0 ==> r.value == 0 && !r.erange
  {
    var i := SpanSpace(s, 0);
    var j := i + SignLength(s, i);
    var e := SpanDigits(s, j);
    if e == j then StrtolReply(0, 0, false)
    else
      var m: int := DigitsValue(s[j..e]);
      var v := if j > i && s[i] == '-' then -m else m;
      if v > LONG_MAX then StrtolReply(LONG_MAX, e, true)
      else if v < LONG_MIN then StrtolReply(LONG_MIN, e, true)
      else StrtolReply(v, e, false)
  }

  /** A decimal literal in the form strtol accepts, split into its parts. */
  datatype Sign = NoSign | Plus | Minus

  datatype Literal = Literal(lead: CString, sign: Sign, digits: CString)
  {
    predicate WellFormed()
    {
      AllSpaces(lead) && |digits| > 0 && AllDigits(digits)
    }

    function SignText(): CString
    {
      match sign
      case NoSign => []
      case Plus => "+"
      case Minus => "-"
    }

    function Text(): CString
    {
      lead + SignText() + digits
    }

    function Value(): int
      requires WellFormed()
    {
      var m: int := DigitsValue(digits);
      if sign == Minus then -m else m
    }
  }

  /** `s`, read in full, is a decimal literal whose value is `n`. */
  ghost predicate Denotes(s: CString, n: int)
  {
    exists l: Literal :: l.WellFormed() && l.Text() == s && l.Value() == n
  }

  /** Scanning the text of a well-formed literal finds exactly its parts. */
  lemma ScanOfLiteral(l: Literal)
    requires l.WellFormed()
    ensures var s, i := l.Text(), |l.lead|;
      SpanSpace(s, 0) == i &&
      SignLength(s, i) == |l.SignText()| &&
      SpanDigits(s, i + |l.SignText()|) == |s| &&
      s[i + |l.SignText()|..] == l.digits &&
      (l.sign == Minus <==> (|l.SignText()| == 1 && s[i] == '-'))
  {
  }

  /** strtol consumes the whole text of a well-formed literal and yields its value, saturated to `long`. */
  lemma StrtolOfLiteral(l: Literal)
    requires l.WellFormed()
    ensures var r := Strtol(l.Text());
      r.end == |l.Text()| &&
      r.erange == !(LONG_MIN <= l.Value() <= LONG_MAX) &&
      (!r.erange ==> r.value == l.Value())
  {
    ScanOfLiteral(l);
    var s, i, t := l.Text(), |l.lead|, |l.SignText()|;
    assert s[i + t..|s|] == l.digits;
    assert (i + t > i && s[i] == '-') <==> l.sign == Minus;
  }

  /** The literal strtol recognised at the start of `s`, when it recognised one. */
  function ScannedLiteral(s: CString): (l: Literal)
    requires Strtol(s).end != 0
    ensures l.WellFormed() && l.Text() == s[..Strtol(s).end]
    ensures var r := Strtol(s);
      r.erange == !(LONG_MIN <= l.Value() <= LONG_MAX) &&
      (!r.erange ==> r.value == l.Value())
  {
    var i := SpanSpace(s, 0);
    var j := i + SignLength(s, i);
    var e := SpanDigits(s, j);
    var l := Literal(s[..i], if j == i then NoSign else if s[i] == '-' then Minus else Plus, s[j..e]);
    ScannedParts(s, i, j, e, l);
    l
  }

  lemma ScannedParts(s: CString, i: nat, j: nat, e: nat, l: Literal)
    requires i == SpanSpace(s, 0) && j == i + SignLength(s, i) && e == SpanDigits(s, j) && j < e
    requires l == Literal(s[..i], if j == i then NoSign else if s[i] == '-' then Minus else Plus, s[j..e])
    ensures l.WellFormed() && l.Text() == s[..e]
  {
  }

  /** The text of a well-formed literal determines the literal. */
  lemma TextDeterminesLiteral(l1: Literal, l2: Literal)
    requires l1.WellFormed() && l2.WellFormed()
    requires l1.Text() == l2.Text()
    ensures l1 == l2
  {
    ScanOfLiteral(l1);
    ScanOfLiteral(l2);
    var s, i := l1.Text(), |l1.lead|;
    assert l1.lead == s[..i] == l2.lead;
  }

  /** The accepted language is unambiguous: a text denotes at most one value. */
  lemma DenotesUnique(s: CString, n1: int, n2: int)
    requires Denotes(s, n1) && Denotes(s, n2)
    ensures n1 == n2
  {
    var l1: Literal :| l1.WellFormed() && l1.Text() == s && l1.Value() == n1;
    var l2: Literal :| l2.WellFormed() && l2.Text() == s && l2.Value() == n2;
    TextDeterminesLiteral(l1, l2);
  }
}
