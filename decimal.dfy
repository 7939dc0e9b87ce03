/** Rendering of an integer as the decimal text a template literal produces for it. */
module Decimal {

  function DigitChar(d: nat): (c: char)
    requires d < 10
    ensures '0' <= c <= '9' && c as int - '0' as int == d
  {
    "0123456789"[d]
  }

  predicate IsDigit(c: char) { '0' <= c <= '9' }

  /** The digits of `n`, most significant first, without leading zeros. */
  function NatToDecimal(n: nat): (s: string)
    ensures |s| > 0 && (|s| > 1 ==> s[0] != '0')
    ensures forall i :: 0 <= i < |s| ==> IsDigit(s[i])
    decreases n
  {
    if n < 10 then [DigitChar(n)] else NatToDecimal(n / 10) + [DigitChar(n % 10)]
  }

  /** The text of an integer: a minus sign for negative values, then its magnitude's digits. */
  function IntToDecimal(n: int): (s: string)
    ensures |s| > 0
  {
    if n < 0 then "-" + NatToDecimal(-n) else NatToDecimal(n)
  }

  /** The value a string of digits denotes (the inverse of NatToDecimal). */
  function DecimalValue(s: string): nat
    requires forall i :: 0 <= i < |s| ==> IsDigit(s[i])
  {
    if s == [] then 0
    else
      assert IsDigit(s[|s| - 1]);
      10 * DecimalValue(s[..|s| - 1]) + (s[|s| - 1] as int - '0' as int)
  }

  /** Reading back the rendered digits gives the number that was rendered. */
  lemma {:induction false} NatToDecimalRoundTrip(n: nat)
    ensures DecimalValue(NatToDecimal(n)) == n
    decreases n
  {
    if n >= 10 {
      var s := NatToDecimal(n);
      NatToDecimalRoundTrip(n / 10);
      assert s[..|s| - 1] == NatToDecimal(n / 10);
    }
  }

  /** The rendered text starts with a minus sign exactly for negative numbers. */
  lemma LeadingSign(n: int)
    ensures IntToDecimal(n)[0] == '-' <==> n < 0
  {
    if n >= 0 {
      assert IsDigit(NatToDecimal(n)[0]);
    }
  }

  /** Distinct exit codes are rendered as distinct texts, so a logged line identifies the code. */
  lemma IntToDecimalInjective(a: int, b: int)
    requires IntToDecimal(a) == IntToDecimal(b)
    ensures a == b
  {
    LeadingSign(a);
    LeadingSign(b);
    var s := IntToDecimal(a);
    if a < 0 {
      var m, k: nat := -a, -b;
      assert s == "-" + NatToDecimal(m);
      assert s == "-" + NatToDecimal(k);
      assert NatToDecimal(m) == s[1..] == NatToDecimal(k);
      NatToDecimalRoundTrip(m);
      NatToDecimalRoundTrip(k);
    } else {
      var m, k: nat := a, b;
      assert s == NatToDecimal(m) == NatToDecimal(k);
      NatToDecimalRoundTrip(m);
      NatToDecimalRoundTrip(k);
    }
  }
}
