/**
 * How a JavaScript template literal renders an integer (`${n}`) of magnitude at most 2^53
 * (`Number.MAX_SAFE_INTEGER` + 1), where JavaScript writes the exact decimal digits, and how such a rendering
 * is read back.
 */
module Decimal {

  predicate IsDigit(c: char) {
    '0' <= c <= '9'
  }

  predicate AllDigits(s: string) {
    forall i :: 0 <= i < |s| ==> IsDigit(s[i])
  }

  function DigitChar(d: nat): (c: char)
    requires d < 10
    ensures IsDigit(c) && c as int - '0' as int == d
  {
    ('0' as int + d) as char
  }

  /** The decimal digits of `n`, most significant first, with no leading zero. */
  function NatToDecimal(n: nat): (s: string)
    ensures AllDigits(s)
    ensures 1 <= |s| && (|s| == 1) == (n < 10)
    ensures (s[0] == '0') == (n == 0)
    decreases n
  {
    if n < 10 then [DigitChar(n)] else NatToDecimal(n / 10) + [DigitChar(n % 10)]
  }

  /** `${i}` for an integer `i` of magnitude at most 2^53: a minus sign before the digits of a negative number. */
  function IntToDecimal(i: int): (s: string)
    ensures 1 <= |s| && (s[0] == '-') == (i < 0)
    ensures forall k :: 1 <= k < |s| ==> IsDigit(s[k])
    ensures i >= 0 ==> s == NatToDecimal(i)
    ensures i < 0 ==> s == "-" + NatToDecimal(-i)
  {
    if i < 0 then "-" + NatToDecimal(-i) else NatToDecimal(i)
  }

  /** The number a string of decimal digits denotes. */
  function DigitsValue(s: string): nat
    requires AllDigits(s)
    decreases |s|
  {
    if s == [] then 0 else DigitsValue(s[..|s| - 1]) * 10 + (s[|s| - 1] as int - '0' as int)
  }

  /** The longest run of digits at the front of `s`. */
  function LeadingDigits(s: string): (p: string)
    ensures p <= s
    ensures AllDigits(p)
    ensures |p| < |s| ==> !IsDigit(s[|p|])
  {
    if s == [] || !IsDigit(s[0]) then [] else [s[0]] + LeadingDigits(s[1..])
  }

  /** Reads an optionally signed decimal integer from the front of `s`, as a reader of the text would. */
  function ReadInt(s: string): int {
    if |s| > 0 && s[0] == '-' then 0 - DigitsValue(LeadingDigits(s[1..])) else DigitsValue(LeadingDigits(s))
  }

  lemma {:induction false} DigitsRoundTrip(n: nat)
    ensures DigitsValue(NatToDecimal(n)) == n
    decreases n
  {
    if n >= 10 {
      var s := NatToDecimal(n / 10);
      DigitsRoundTrip(n / 10);
      assert (s + [DigitChar(n % 10)])[..|s|] == s;
    }
  }

  lemma {:induction false} LeadingDigitsOf(d: string, t: string)
    requires AllDigits(d)
    requires t == [] || !IsDigit(t[0])
    ensures LeadingDigits(d + t) == d
    decreases |d|
  {
    if d != [] {
      assert (d + t)[1..] == d[1..] + t;
      LeadingDigitsOf(d[1..], t);
    } else {
      assert d + t == t;
    }
  }

  lemma ReadNatRoundTrip(n: nat, t: string)
    requires t == [] || !IsDigit(t[0])
    ensures LeadingDigits(NatToDecimal(n) + t) == NatToDecimal(n)
    ensures DigitsValue(LeadingDigits(NatToDecimal(n) + t)) == n
  {
    LeadingDigitsOf(NatToDecimal(n), t);
    DigitsRoundTrip(n);
  }

  /** Whatever follows a rendered integer, the integer can be read back, as long as no digit follows it. */
  lemma ReadIntRoundTrip(i: int, t: string)
    requires t == [] || !IsDigit(t[0])
    ensures ReadInt(IntToDecimal(i) + t) == i
  {
    if i < 0 {
      var d := NatToDecimal(-i);
      var s := "-" + d + t;
      assert IntToDecimal(i) + t == s;
      assert s[0] == '-';
      assert s[1..] == d + t;
      ReadNatRoundTrip(-i, t);
    } else {
      var s := NatToDecimal(i) + t;
      assert IntToDecimal(i) + t == s;
      assert s[0] == NatToDecimal(i)[0];
      ReadNatRoundTrip(i, t);
    }
  }
}
