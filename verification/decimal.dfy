/** Decimal rendering of row numbers, as Python's `str` / f-string does it
    for a non-negative `int`, and the reading back of such text. */
module Decimal {
  import opened Outcomes

  predicate IsDigit(ch: char) {
    '0' <= ch <= '9'
  }

  predicate AllDigits(s: string) {
    forall k :: 0 <= k < |s| ==> IsDigit(s[k])
  }

  function DigitChar(d: nat): (ch: char)
    requires d < 10
    ensures IsDigit(ch)
  {
    ('0' as int + d) as char
  }

  function DigitValue(ch: char): (d: nat)
    requires IsDigit(ch)
    ensures d < 10 && DigitChar(d) == ch
  {
    ch as int - '0' as int
  }

  /** Shortest decimal text of `n`: no sign, no leading zero, "0" for zero. */
  function DecimalText(n: nat): (s: string)
    ensures |s| > 0 && AllDigits(s)
    ensures s[0] == '0' ==> n == 0
  {
    if n < 10 then [DigitChar(n)] else DecimalText(n / 10) + [DigitChar(n % 10)]
  }

  /** Value of a digit string read most significant digit first. */
  function DigitsValue(s: string): nat
    requires AllDigits(s)
  {
    if s == [] then 0 else DigitsValue(s[..|s| - 1]) * 10 + DigitValue(s[|s| - 1])
  }

  /** Reads a non-empty string of decimal digits; anything else is not a number. */
  function ParseDecimal(s: string): (r: Option<nat>)
    ensures r.Some? <==> |s| > 0 && AllDigits(s)
  {
    if |s| > 0 && AllDigits(s) then Some(DigitsValue(s)) else None
  }

  /** Reading the rendered text gives the number back. */
  lemma {:induction false} DecimalRoundTrip(n: nat)
    ensures ParseDecimal(DecimalText(n)) == Some(n)
  {
    var s := DecimalText(n);
    if n < 10 {
      assert s[..|s| - 1] == [];
      assert DigitValue(s[0]) == n;
      assert DigitsValue(s) == DigitsValue([]) * 10 + n;
    } else {
      DecimalRoundTrip(n / 10);
      assert s[..|s| - 1] == DecimalText(n / 10);
      assert DigitValue(s[|s| - 1]) == n % 10;
    }
  }

  /** Distinct numbers render as distinct texts. */
  lemma DecimalTextInjective(m: nat, n: nat)
    requires DecimalText(m) == DecimalText(n)
    ensures m == n
  {
    DecimalRoundTrip(m);
    DecimalRoundTrip(n);
  }
}
