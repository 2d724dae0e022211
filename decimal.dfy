/**
 * `std::to_string` on an unsigned line number: the shortest decimal spelling,
 * and the parser that reads it back.
 */
module Decimal {

  predicate IsDigit(c: char) {
    '0' <= c <= '9'
  }

  predicate AllDigits(s: string) {
    forall k :: 0 <= k < |s| ==> IsDigit(s[k])
  }

  function DigitChar(d: nat): (c: char)
    requires d < 10
    ensures IsDigit(c) && (c as int) - ('0' as int) == d
  {
    (('0' as int) + d) as char
  }

  /** The decimal spelling of `n`, without sign and without leading zeros. */
  function ToDecimal(n: nat): (r: string)
    ensures 1 <= |r|
    ensures AllDigits(r)
    ensures |r| > 1 ==> r[0] != '0'
    ensures n < 10 <==> |r| == 1
    decreases n
  {
    if n < 10 then [DigitChar(n)] else ToDecimal(n / 10) + [DigitChar(n % 10)]
  }

  /** The value of a string of decimal digits. */
  function ParseDecimal(s: string): nat
    requires AllDigits(s)
  {
    if s == [] then 0
    else 10 * ParseDecimal(s[..|s| - 1]) + ((s[|s| - 1] as int) - ('0' as int))
  }

  /** Reading back the spelling of a number gives that number. */
  lemma {:induction false} DecimalRoundTrip(n: nat)
    ensures ParseDecimal(ToDecimal(n)) == n
    decreases n
  {
    var r := ToDecimal(n);
    if n >= 10 {
      DecimalRoundTrip(n / 10);
      assert r[..|r| - 1] == ToDecimal(n / 10);
    }
  }

  /** Distinct numbers have distinct spellings. */
  lemma DecimalInjective(m: nat, n: nat)
    ensures ToDecimal(m) == ToDecimal(n) <==> m == n
  {
    if ToDecimal(m) == ToDecimal(n) {
      DecimalRoundTrip(m);
      DecimalRoundTrip(n);
    }
  }

  /** A digit string with a non-zero first digit spells a positive number. */
  lemma {:induction false} LeadingDigitPositive(s: string)
    requires s != [] && AllDigits(s) && s[0] != '0'
    ensures ParseDecimal(s) > 0
    decreases |s|
  {
    if |s| > 1 {
      LeadingDigitPositive(s[..|s| - 1]);
    }
  }

  /** Every spelling without leading zeros is the spelling of its own value. */
  lemma {:induction false} CanonicalRoundTrip(s: string)
    requires s != [] && AllDigits(s) && (|s| > 1 ==> s[0] != '0')
    ensures ToDecimal(ParseDecimal(s)) == s
    decreases |s|
  {
    if |s| > 1 {
      var p := s[..|s| - 1];
      CanonicalRoundTrip(p);
      LeadingDigitPositive(p);
      assert s == p + [s[|s| - 1]];
    }
  }
}
