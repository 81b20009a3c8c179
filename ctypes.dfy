/** C scalar types and <ctype.h> character classes as the calculator's front end
    uses them: 32-bit `int`, 64-bit `long` (LP64), `char` as a byte, and
    NUL-terminated strings. */
module CTypes {

  datatype Option<+T> = None | Some(value: T)

  const INT_MIN: int := -0x8000_0000
  const INT_MAX: int := 0x7FFF_FFFF
  const LONG_MIN: int := -0x8000_0000_0000_0000
  const LONG_MAX: int := 0x7FFF_FFFF_FFFF_FFFF

  /** A C `int` on the targets the program is built for. */
  type Int32 = x: int | INT_MIN <= x <= INT_MAX

  /** A C `char`, read as the byte it holds (NUL included). */
  type Byte = c: char | c <= '\U{00FF}'

  /** A byte that can occur inside a C string: anything but NUL. */
  type CChar = c: char | '\U{0001}' <= c <= '\U{00FF}' witness 'a'

  /** A C string without its terminating NUL: `s[|s|]` is where `*end == '\0'`. */
  type CString = seq<CChar>

  /** `isspace` in the "C" locale. */
  predicate IsSpace(c: char)
  {
    c == ' ' || c == '\t' || c == '\n' || c == '\U{000B}' || c == '\U{000C}' || c == '\r'
  }

  /** `isdigit`: '0' .. '9'. */
  predicate IsDigit(c: char)
  {
    '0' <= c <= '9'
  }

  predicate AllDigits(ds: seq<char>)
  {
    forall i | 0 <= i < |ds| :: IsDigit(ds[i])
  }

  predicate AllSpaces(ws: seq<char>)
  {
    forall i | 0 <= i < |ws| :: IsSpace(ws[i])
  }

  function DigitValue(c: char): (d: nat)
    requires IsDigit(c)
    ensures d < 10
  {
    c as int - '0' as int
  }
}
