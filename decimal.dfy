/** Unsigned decimal numerals: Python's `int(digits)` and `"%d" % n` on
    non-negative integers. */
module Decimal {

  predicate IsDigit(c: char) { '0' <= c <= '9' }

  predicate AllDigits(s: string) {
    forall i :: 0 <= i < |s| ==> IsDigit(s[i])
  }

  function DigitChar(d: nat): (c: char)
    requires d < 10
    ensures IsDigit(c)
  {
    ('0' as int + d) as char
  }

  function DigitValue(c: char): (d: nat)
    requires IsDigit(c)
    ensures d < 10 && DigitChar(d) == c
  {
    c as int - '0' as int
  }

  /** `"%d" % n`: the shortest decimal numeral of `n`. */
  function DecimalDigits(n: nat): (r: string)
    ensures 1 <= |r| && AllDigits(r)
    ensures n < 10 <==> |r| == 1
    ensures 10 <= n < 100 ==> |r| == 2
    decreases n
  {
    if n < 10 then [DigitChar(n)] else DecimalDigits(n / 10) + [DigitChar(n % 10)]
  }

  /** `int(s)` on a string of decimal digits (the empty string gives 0 here;
      callers rule it out where Python raises). */
  function ParseDecimal(s: string): (r: nat)
    requires AllDigits(s)
    ensures |s| == 1 ==> r == DigitValue(s[0])
    ensures |s| == 2 ==> r == 10 * DigitValue(s[0]) + DigitValue(s[1])
  {
    if s == [] then 0 else ParseDecimal(s[..|s| - 1]) * 10 + DigitValue(s[|s| - 1])
  }

  /** Reading back a numeral gives the number that was printed. */
  lemma {:induction false} ParseDecimalOfDigits(n: nat)
    ensures ParseDecimal(DecimalDigits(n)) == n
    decreases n
  {
    var r := DecimalDigits(n);
    if n >= 10 {
      ParseDecimalOfDigits(n / 10);
      assert r[..|r| - 1] == DecimalDigits(n / 10);
    }
  }

  /** A leading zero does not change the value of a numeral. */
  lemma {:induction false} ParseDecimalLeadingZero(s: string)
    requires AllDigits(s)
    ensures AllDigits("0" + s) && ParseDecimal("0" + s) == ParseDecimal(s)
    decreases |s|
  {
    if s != [] {
      ParseDecimalLeadingZero(s[..|s| - 1]);
      assert ("0" + s)[..|"0" + s| - 1] == "0" + s[..|s| - 1];
    }
  }
}
