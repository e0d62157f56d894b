/** Decimal rendering of integers, as `std::ostream::operator<<(int)` writes
    them by default: an optional '-' then the digits, most significant first,
    without leading zeros. */
module Decimal {

  predicate IsDigit(c: char) {
    '0' <= c <= '9'
  }

  predicate IsDigits(s: string) {
    forall k :: 0 <= k < |s| ==> IsDigit(s[k])
  }

  function DigitChar(d: nat): (c: char)
    requires d < 10
    ensures IsDigit(c) && c as int - '0' as int == d
  {
    ('0' as int + d) as char
  }

  function DigitValue(c: char): (d: nat)
    requires IsDigit(c)
    ensures d < 10 && DigitChar(d) == c
  {
    c as int - '0' as int
  }

  /** The digits of `n`. */
  function Digits(n: nat): (s: string)
    ensures |s| >= 1 && IsDigits(s)
    ensures n == 0 ==> s == "0"
    ensures |s| > 1 ==> s[0] != '0'
    decreases n
  {
    if n < 10 then [DigitChar(n)] else Digits(n / 10) + [DigitChar(n % 10)]
  }

  /** The number a string of digits denotes. */
  function Parse(s: string): nat
    requires IsDigits(s)
    decreases |s|
  {
    if s == [] then 0 else 10 * Parse(s[..|s| - 1]) + DigitValue(s[|s| - 1])
  }

  /** Reading back the rendering gives the number. */
  lemma {:induction false} ParseDigits(n: nat)
    ensures Parse(Digits(n)) == n
    decreases n
  {
    if n >= 10 {
      var s := Digits(n);
      assert s[..|s| - 1] == Digits(n / 10);
      ParseDigits(n / 10);
    }
  }

  /** Different numbers are rendered differently. */
  lemma DigitsInjective(n: nat, m: nat)
    ensures Digits(n) == Digits(m) <==> n == m
  {
    ParseDigits(n);
    ParseDigits(m);
  }

  /** The rendering of a (signed) int. */
  function IntString(x: int): (s: string)
    ensures |s| >= 1
    ensures x < 0 <==> s[0] == '-'
    ensures x >= 0 ==> s == Digits(x)
    ensures x < 0 ==> s[1..] == Digits(-x)
  {
    if x < 0 then "-" + Digits(-x) else Digits(x)
  }

  /** Different ints are rendered differently. */
  lemma IntStringInjective(x: int, y: int)
    ensures IntString(x) == IntString(y) <==> x == y
  {
    var s, t := IntString(x), IntString(y);
    if s == t {
      if x < 0 {
        assert s[1..] == t[1..];
        DigitsInjective(-x, -y);
      } else {
        DigitsInjective(x, y);
      }
    }
  }
}
