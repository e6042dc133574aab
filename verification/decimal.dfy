/**
 * Decimal digit strings: the writing of a natural number in base 10 and the
 * reading of a maximal run of digits, shared by the JSON text of the cart and
 * by the quantity field's parseInt.
 */
module Decimal {

  predicate IsDigit(c: char) {
    '0' <= c <= '9'
  }

  predicate AllDigits(s: string) {
    forall i :: 0 <= i < |s| ==> IsDigit(s[i])
  }

  function DigitValue(c: char): (d: nat)
    requires IsDigit(c)
    ensures d < 10
  {
    (c as int) - ('0' as int)
  }

  function DigitChar(d: nat): (c: char)
    requires d < 10
    ensures IsDigit(c) && DigitValue(c) == d
  {
    (('0' as int) + d) as char
  }

  /** The shortest decimal writing of `n`: no leading zero except for 0 itself. */
  function NatToDecimal(n: nat): (s: string)
    ensures |s| >= 1 && AllDigits(s)
    ensures |s| > 1 ==> s[0] != '0'
    decreases n
  {
    if n < 10 then [DigitChar(n)] else NatToDecimal(n / 10) + [DigitChar(n % 10)]
  }

  /** The decimal writing of an integer, as JavaScript's String and JSON.stringify give it. */
  function IntToDecimal(n: int): (s: string)
    ensures |s| >= 1
    ensures n >= 0 ==> AllDigits(s)
    ensures n < 0 ==> s[0] == '-' && AllDigits(s[1..])
  {
    if n < 0 then "-" + NatToDecimal(-n) else NatToDecimal(n)
  }

  /** The value of a string of digits, most significant digit first. */
  function DigitsValue(s: string): nat
    requires AllDigits(s)
  {
    if s == [] then 0 else DigitsValue(s[..|s| - 1]) * 10 + DigitValue(s[|s| - 1])
  }

  /** Length of the longest prefix of `s` made of digits. */
  function DigitSpan(s: string): (k: nat)
    ensures k <= |s| && AllDigits(s[..k])
    ensures k < |s| ==> !IsDigit(s[k])
  {
    if s == [] || !IsDigit(s[0]) then 0 else 1 + DigitSpan(s[1..])
  }

  /** Reading back what NatToDecimal writes gives the number. */
  lemma {:induction false} DecimalRoundTrip(n: nat)
    ensures DigitsValue(NatToDecimal(n)) == n
    decreases n
  {
    var s := NatToDecimal(n);
    if n >= 10 {
      DecimalRoundTrip(n / 10);
      assert s[..|s| - 1] == NatToDecimal(n / 10);
    }
  }

  /** The digit run of a decimal numeral followed by a non-digit is the numeral. */
  lemma DigitSpanOfDecimal(n: nat, rest: string)
    requires rest == [] || !IsDigit(rest[0])
    ensures DigitSpan(NatToDecimal(n) + rest) == |NatToDecimal(n)|
    ensures (NatToDecimal(n) + rest)[..|NatToDecimal(n)|] == NatToDecimal(n)
    ensures (NatToDecimal(n) + rest)[|NatToDecimal(n)|..] == rest
  {
    var d, t := NatToDecimal(n), NatToDecimal(n) + rest;
    assert forall i :: 0 <= i < |d| ==> t[i] == d[i];
    assert |t| > |d| ==> t[|d|] == rest[0];
    assert t[..|d|] == d;
  }

  /** The digits NatToDecimal writes, followed by a non-digit, read back as the number. */
  lemma ReadDecimal(n: nat, rest: string)
    requires rest == [] || !IsDigit(rest[0])
    ensures var t := NatToDecimal(n) + rest;
      && DigitSpan(t) == |NatToDecimal(n)|
      && DigitsValue(t[..DigitSpan(t)]) == n
      && t[DigitSpan(t)..] == rest
  {
    DigitSpanOfDecimal(n, rest);
    DecimalRoundTrip(n);
  }
}
