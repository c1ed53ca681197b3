/**
 * Decimal text of natural numbers: what JavaScript's String(n) yields for a
 * non-negative integer, its reading back, and fixed-width three-digit text.
 */
module Decimal {

  predicate IsDigit(c: char) {
    '0' <= c <= '9'
  }

  predicate AllDigits(s: string) {
    forall i :: 0 <= i < |s| ==> IsDigit(s[i])
  }

  function DigitValue(c: char): (d: nat)
    requires IsDigit(c)
    ensures d < 10
  {
    c as int - '0' as int
  }

  /** The character of a single decimal digit; DigitValue reads it back. */
  function DigitChar(d: nat): (c: char)
    requires d < 10
    ensures IsDigit(c) && DigitValue(c) == d
    ensures forall c' :: IsDigit(c') && DigitValue(c') == d ==> c' == c
  {
    ('0' as int + d) as char
  }

  /** The number a string of digits denotes, most significant digit first. */
  function ParseDecimal(s: string): nat
    requires AllDigits(s)
  {
    if s == [] then 0 else 10 * ParseDecimal(s[..|s| - 1]) + DigitValue(s[|s| - 1])
  }

  /**
   * String(n) for a natural number n: its digits, most significant first,
   * with no leading zero (other than the single "0" of zero).
   */
  function DecimalString(n: nat): (s: string)
    ensures |s| >= 1 && AllDigits(s) && ParseDecimal(s) == n
    ensures s[0] == '0' <==> n == 0
    ensures n < 10 ==> |s| == 1
    ensures 10 <= n < 100 ==> |s| == 2
    ensures 100 <= n < 1000 ==> |s| == 3
    decreases n
  {
    if n < 10 then [DigitChar(n)]
    else
      var s := DecimalString(n / 10) + [DigitChar(n % 10)];
      assert s[..|s| - 1] == DecimalString(n / 10);
      s
  }

  /** Exactly three digits for n, zero-padded on the left. */
  function ThreeDigits(n: nat): (s: string)
    requires n < 1000
    ensures |s| == 3 && AllDigits(s) && ParseDecimal(s) == n
  {
    var s := [DigitChar(n / 100), DigitChar(n / 10 % 10), DigitChar(n % 10)];
    ParseThree(s);
    SplitThree(n);
    s
  }

  /** What a string of three digits denotes, digit by digit. */
  lemma ParseThree(s: string)
    requires |s| == 3 && AllDigits(s)
    ensures ParseDecimal(s) == 100 * DigitValue(s[0]) + 10 * DigitValue(s[1]) + DigitValue(s[2])
  {
    assert s[..2][..1] == s[..1] && s[..1][..0] == [];
    assert ParseDecimal(s[..1]) == DigitValue(s[0]);
    assert ParseDecimal(s[..2]) == 10 * DigitValue(s[0]) + DigitValue(s[1]);
  }

  lemma SplitThree(n: nat)
    requires n < 1000
    ensures n == 100 * (n / 100) + 10 * (n / 10 % 10) + n % 10
  {
    var q := n / 10;
    assert n == 10 * q + n % 10;
    assert q == 10 * (q / 10) + q % 10;
    assert q / 10 == n / 100;
  }

  /** A leading '0' does not change the number a digit string denotes. */
  lemma {:induction false} LeadingZero(s: string)
    requires AllDigits(s)
    ensures AllDigits(['0'] + s) && ParseDecimal(['0'] + s) == ParseDecimal(s)
  {
    var t := ['0'] + s;
    if s == [] {
      assert t[..0] == [];
    } else {
      assert t[..|t| - 1] == ['0'] + s[..|s| - 1];
      LeadingZero(s[..|s| - 1]);
    }
  }

  /** Three digits are determined by the number they denote. */
  lemma ThreeDigitsOfParse(s: string)
    requires |s| == 3 && AllDigits(s)
    ensures ParseDecimal(s) < 1000 && ThreeDigits(ParseDecimal(s)) == s
  {
    var a, b, c := DigitValue(s[0]), DigitValue(s[1]), DigitValue(s[2]);
    ParseThree(s);
    var n := ParseDecimal(s);
    assert n / 10 == 10 * a + b && n % 10 == c;
    assert n / 100 == a && n / 10 % 10 == b;
  }
}
