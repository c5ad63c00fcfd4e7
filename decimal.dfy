/**
  Decimal rounding and fixed-point formatting on exact rationals.

  Python's `round(x, n)` and the `:.1f` format specifier act on binary
  floating-point values and break ties towards the even digit; here the
  values are exact reals and a tie goes to the larger neighbour, so a
  value that lies exactly half-way between two neighbours may round the
  other way than in the program.
 */
module Decimal {
  import opened Wrappers

  /** The integer nearest to `y`; a tie goes to the larger integer. */
  function NearestInt(y: real): (n: int)
    ensures y - 0.5 < n as real <= y + 0.5
  {
    (y + 0.5).Floor
  }

  /** Rounding never reverses the order of two values. */
  lemma NearestIntMonotone(x: real, y: real)
    requires x <= y
    ensures NearestInt(x) <= NearestInt(y)
  {
  }

  /** `x` is a whole number of hundredths. */
  predicate WholeHundredths(x: real) {
    (x * 100.0).Floor as real == x * 100.0
  }

  /** Whole numbers of hundredths add up to a whole number of hundredths. */
  lemma WholeHundredthsSum(x: real, y: real)
    requires WholeHundredths(x) && WholeHundredths(y)
    ensures WholeHundredths(x + y)
  {
    var m, n := (x * 100.0).Floor, (y * 100.0).Floor;
    assert (x + y) * 100.0 == (m + n) as real;
  }

  /** `round(x, 2)`: `x` to the nearest hundredth. */
  function Round2(x: real): (r: real)
    ensures x - 0.005 < r <= x + 0.005
    ensures WholeHundredths(r)
    ensures x >= 0.0 ==> r >= 0.0
  {
    NearestInt(x * 100.0) as real / 100.0
  }

  /** `round(x, 1)`: `x` to the nearest tenth. */
  function Round1(x: real): (r: real)
    ensures x - 0.05 < r <= x + 0.05
    ensures (r * 10.0).Floor as real == r * 10.0
    ensures x >= 0.0 ==> r >= 0.0
  {
    NearestInt(x * 10.0) as real / 10.0
  }

  predicate IsDigit(c: char) {
    '0' <= c <= '9'
  }

  predicate AllDigits(s: string) {
    forall i :: 0 <= i < |s| ==> IsDigit(s[i])
  }

  function DigitValue(c: char): (d: nat)
    requires IsDigit(c)
    ensures d < 10
  {
    c as int - '0' as int
  }

  function DigitChar(d: nat): (c: char)
    requires d < 10
    ensures IsDigit(c) && DigitValue(c) == d
  {
    ('0' as int + d) as char
  }

  /** The decimal numeral of `n`: most significant digit first, no leading zeros. */
  function Numeral(n: nat): (s: string)
    ensures |s| > 0 && AllDigits(s)
    ensures n > 0 ==> s[0] != '0'
    decreases n
  {
    if n < 10 then [DigitChar(n)] else Numeral(n / 10) + [DigitChar(n % 10)]
  }

  /** The value of a string of decimal digits. */
  function NumeralValue(s: string): nat
    requires AllDigits(s)
    decreases |s|
  {
    if s == [] then 0 else NumeralValue(s[..|s| - 1]) * 10 + DigitValue(s[|s| - 1])
  }

  lemma {:induction false} NumeralRoundTrip(n: nat)
    ensures NumeralValue(Numeral(n)) == n
    decreases n
  {
    if n >= 10 {
      var s := Numeral(n);
      assert s[..|s| - 1] == Numeral(n / 10);
      NumeralRoundTrip(n / 10);
    }
  }

  /** The `:.1f` text of a value that is `t` tenths: sign, whole part, point, one digit. */
  function FixedOne(t: int): (s: string)
    ensures |s| >= 3 && s[|s| - 2] == '.' && IsDigit(s[|s| - 1])
  {
    var m := if t < 0 then -t else t;
    (if t < 0 then "-" else "") + Numeral(m / 10) + "." + [DigitChar(m % 10)]
  }

  /** Reads back a text of the shape `FixedOne` writes, as a number of tenths. */
  function ParseFixedOne(s: string): Option<int> {
    if |s| < 3 || s[|s| - 2] != '.' || !IsDigit(s[|s| - 1]) then None
    else
      var whole := s[..|s| - 2];
      var negative := whole[0] == '-';
      var digits := if negative then whole[1..] else whole;
      if |digits| == 0 || !AllDigits(digits) then None
      else
        var m := NumeralValue(digits) * 10 + DigitValue(s[|s| - 1]);
        Some(if negative then -m else m)
  }

  /** Formatting to one decimal loses nothing that `ParseFixedOne` cannot recover. */
  lemma FixedOneRoundTrip(t: int)
    ensures ParseFixedOne(FixedOne(t)) == Some(t)
  {
    var m := if t < 0 then -t else t;
    var digits := Numeral(m / 10);
    NumeralRoundTrip(m / 10);
    var s := FixedOne(t);
    var last := DigitChar(m % 10);
    assert s[|s| - 1] == last && DigitValue(last) == m % 10;
    var whole := s[..|s| - 2];
    if t < 0 {
      assert s == "-" + digits + "." + [last];
      assert whole == "-" + digits;
      assert whole[0] == '-' && whole[1..] == digits;
    } else {
      assert s == digits + "." + [last];
      assert whole == digits;
    }
  }
}
