/** Server-generated contract identifiers: "CNT" followed by the decimal
    digits of the creation time in epoch milliseconds. */
module Ids {

  predicate IsDigit(c: char) {
    '0' <= c <= '9'
  }

  predicate AllDigits(s: string) {
    forall i :: 0 <= i < |s| ==> IsDigit(s[i])
  }

  function DigitChar(d: nat): (c: char)
    requires d < 10
  {
    (48 + d) as char
  }

  function DigitValue(c: char): nat
    requires IsDigit(c)
  {
    c as int - 48
  }

  /** The decimal rendering of `n`, as JavaScript's template literal writes a
      non-negative integer: no sign, no leading zeros. */
  function Decimal(n: nat): (s: string)
    ensures |s| >= 1 && AllDigits(s)
    ensures |s| > 1 ==> s[0] != '0'
    decreases n
  {
    if n < 10 then [DigitChar(n)] else Decimal(n / 10) + [DigitChar(n % 10)]
  }

  /** Reads a string of decimal digits back as a number. */
  function DecimalValue(s: string): nat
    requires AllDigits(s)
  {
    if s == [] then 0 else DecimalValue(s[..|s| - 1]) * 10 + DigitValue(s[|s| - 1])
  }

  /** `CNT${Date.now()}`. */
  function GeneratedId(millis: nat): string {
    "CNT" + Decimal(millis)
  }

  /** Reading the decimal rendering back gives the number. */
  lemma {:induction false} DecimalRoundTrip(n: nat)
    ensures DecimalValue(Decimal(n)) == n
    decreases n
  {
    var s := Decimal(n);
    if n >= 10 {
      DecimalRoundTrip(n / 10);
      assert s[..|s| - 1] == Decimal(n / 10);
    }
  }

  /** Generated identifiers start with "CNT", and two creations at distinct
      milliseconds get distinct identifiers. */
  lemma GeneratedIdsDistinct(m: nat, n: nat)
    ensures GeneratedId(m)[..3] == "CNT" && AllDigits(GeneratedId(m)[3..])
    ensures GeneratedId(m) == GeneratedId(n) <==> m == n
  {
    assert GeneratedId(m)[3..] == Decimal(m);
    assert GeneratedId(n)[3..] == Decimal(n);
    if GeneratedId(m) == GeneratedId(n) {
      DecimalRoundTrip(m);
      DecimalRoundTrip(n);
    }
  }
}
