/**
 * The quantity field's text as updateQuantity reads it: JavaScript's
 * `parseInt(text, 10)`, the empty-text default and the floor of 1.
 * A parse that finds no digits is NaN in JavaScript; here it is `None`.
 */
module NumberInput {
  import opened Wrappers
  import opened Decimal

  /** WhiteSpace and LineTerminator code points that parseInt skips before the number. */
  predicate IsJsWhiteSpace(c: char) {
    || c == '\t' || c == '\n' || c == '\U{0B}' || c == '\U{0C}' || c == '\r' || c == ' '
    || c == '\U{A0}' || c == '\U{1680}' || ('\U{2000}' <= c <= '\U{200A}')
    || c == '\U{2028}' || c == '\U{2029}' || c == '\U{202F}' || c == '\U{205F}'
    || c == '\U{3000}' || c == '\U{FEFF}'
  }

  /** `s` without its leading white space. */
  function TrimStart(s: string): (r: string)
    ensures |r| <= |s| && r == s[|s| - |r|..]
    ensures forall i :: 0 <= i < |s| - |r| ==> IsJsWhiteSpace(s[i])
    ensures r == [] || !IsJsWhiteSpace(r[0])
  {
    if s != [] && IsJsWhiteSpace(s[0]) then TrimStart(s[1..]) else s
  }

  /**
   * parseInt(s, 10): skip white space, take an optional sign, then the longest
   * run of decimal digits; no digits gives NaN (`None`). Whatever follows the
   * digits is ignored.
   */
  function ParseInt(s: string): (r: Option<int>)
    ensures r.Some? ==> var t := TrimStart(s); t != [] && (IsDigit(t[0]) || t[0] == '-' || t[0] == '+')
    ensures r.Some? && r.value < 0 ==> TrimStart(s)[0] == '-'
  {
    ParseSigned(TrimStart(s))
  }

  /** parseInt after the white space: an optional sign, then the digits. */
  function ParseSigned(t: string): Option<int> {
    var negative := t != [] && t[0] == '-';
    var unsigned := if t != [] && (t[0] == '-' || t[0] == '+') then t[1..] else t;
    var k := DigitSpan(unsigned);
    if k == 0 then None
    else
      var magnitude: int := DigitsValue(unsigned[..k]);
      Some(if negative then -magnitude else magnitude)
  }

  /**
   * The new quantity updateQuantity writes for the field's text: an empty text
   * reads as "1", a number below 1 is raised to 1, and a text without digits
   * gives NaN, which Math.max passes on (`None`).
   */
  function QuantityFromInput(text: string): (q: Option<int>)
    ensures q.Some? ==> q.value >= 1
  {
    match ParseInt(if text == "" then "1" else text)
    case None => None
    case Some(n) => Some(if n < 1 then 1 else n)
  }

  /** parseInt reads back the decimal writing of any integer, whatever non-digit text follows it. */
  lemma ParseIntOfDecimal(n: int, rest: string)
    requires rest == [] || !IsDigit(rest[0])
    ensures ParseInt(IntToDecimal(n) + rest) == Some(n)
  {
    var s := IntToDecimal(n) + rest;
    assert s[0] == '-' || IsDigit(s[0]);
    assert TrimStart(s) == s;
    SignedOfDecimal(n, rest);
  }

  lemma SignedOfDecimal(n: int, rest: string)
    requires rest == [] || !IsDigit(rest[0])
    ensures ParseSigned(IntToDecimal(n) + rest) == Some(n)
  {
    var s := IntToDecimal(n) + rest;
    var m: nat := if n < 0 then -n else n;
    var unsigned := if n < 0 then s[1..] else s;
    assert unsigned == NatToDecimal(m) + rest;
    ReadDecimal(m, rest);
  }

  /** Typing the decimal writing of `n` into the quantity field sets the quantity to max(1, n). */
  lemma QuantityOfDecimal(n: int)
    ensures QuantityFromInput(IntToDecimal(n)) == Some(if n < 1 then 1 else n)
  {
    ParseIntOfDecimal(n, []);
    assert IntToDecimal(n) + [] == IntToDecimal(n);
  }

  /** An empty field reads as "1". */
  lemma QuantityOfEmpty()
    ensures QuantityFromInput("") == Some(1)
  {
    ParseIntOfDecimal(1, []);
    assert IntToDecimal(1) + [] == "1";
  }

  /** A negative number is raised to 1. */
  lemma QuantityOfNegative()
    ensures QuantityFromInput("-5") == Some(1)
  {
    var minusFive := IntToDecimal(-5);
    assert minusFive == "-5";
    QuantityOfDecimal(-5);
  }

  /** Text that does not start with a number leaves the quantity NaN. */
  lemma QuantityOfNonNumber()
    ensures QuantityFromInput("abc") == None
  {
    var s := "abc";
    assert s[0] == 'a' && !IsJsWhiteSpace(s[0]) && !IsDigit(s[0]);
    assert TrimStart(s) == s;
    assert DigitSpan(s) == 0;
    assert ParseInt(s) == None;
  }
}
