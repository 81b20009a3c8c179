/** The `%d` conversion of printf: an optional '-' and the decimal digits of the
    magnitude, without leading zeros. */
module Printf {
  import opened CTypes
  import opened CStdlib

  function DigitChar(d: nat): (c: CChar)
    requires d < 10
    ensures IsDigit(c) && DigitValue(c) == d
  {
    ('0' as int + d) as char
  }

  /** The decimal digits of `n`, most significant first. */
  function DigitsOf(n: nat): (ds: CString)
    ensures |ds| > 0 && AllDigits(ds)
    ensures |ds| > 1 ==> ds[0] != '0'
  {
    if n < 10 then [DigitChar(n)] else DigitsOf(n / 10) + [DigitChar(n % 10)]
  }

  /** `printf("%d", n)`. */
  function FormatInt(n: int): (s: CString)
    ensures |s| > 0
    ensures s[0] == '-' <==> n < 0
  {
    if n < 0 then "-" + DigitsOf(-n) else DigitsOf(n)
  }

  /** Reading back the digits printed for `n` gives `n`. */
  lemma {:induction false} DigitsValueOfDigits(n: nat)
    ensures DigitsValue(DigitsOf(n)) == n
  {
    var ds := DigitsOf(n);
    if n >= 10 {
      DigitsValueOfDigits(n / 10);
      assert ds[..|ds| - 1] == DigitsOf(n / 10);
    }
  }

  /** Whatever `%d` prints is a decimal literal in the form strtol reads, with the printed value. */
  lemma FormatIntDenotes(n: int)
    ensures Denotes(FormatInt(n), n)
  {
    var mag: nat := if n < 0 then -n else n;
    DigitsValueOfDigits(mag);
    var l := Literal([], if n < 0 then Minus else NoSign, DigitsOf(mag));
    assert l.Text() == l.SignText() + DigitsOf(mag);
    assert l.WellFormed() && l.Text() == FormatInt(n) && l.Value() == n;
  }
}
