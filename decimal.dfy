/** Rust's `u64` and its decimal rendering (the `{}` format of an unsigned integer). */
module Decimal {

  /** One past the largest `u64`. */
  const U64_LIMIT: int := 0x1_0000_0000_0000_0000

  type U64 = n: int | 0 <= n < U64_LIMIT

  predicate IsDigit(c: char) {
    '0' <= c <= '9'
  }

  predicate AllDigits(s: string) {
    forall i :: 0 <= i < |s| ==> IsDigit(s[i])
  }

  /** A non-empty run of decimal digits. */
  predicate IsDecimal(s: string) {
    |s| > 0 && AllDigits(s)
  }

  function DigitChar(d: nat): (c: char)
    requires d < 10
    ensures IsDigit(c)
  {
    ('0' as int + d) as char
  }

  function DigitValue(c: char): (d: nat)
    requires IsDigit(c)
    ensures d < 10
  {
    c as int - '0' as int
  }

  /** The decimal text of `n`: digits only, most significant first, no leading zero. */
  function NatToString(n: nat): (s: string)
    ensures IsDecimal(s)
    ensures s[0] == '0' <==> n == 0
    decreases n
  {
    if n < 10 then [DigitChar(n)] else NatToString(n / 10) + [DigitChar(n % 10)]
  }

  /** The number a string of digits denotes (the reference reading of a decimal). */
  function DecimalValue(s: string): nat
    requires AllDigits(s)
  {
    if s == [] then 0 else DecimalValue(s[..|s| - 1]) * 10 + DigitValue(s[|s| - 1])
  }

  /** Reading back the rendered decimal gives the number. */
  lemma {:induction false} DecimalRoundTrip(n: nat)
    ensures DecimalValue(NatToString(n)) == n
  {
    if n >= 10 {
      DecimalRoundTrip(n / 10);
      var s := NatToString(n / 10);
      assert (s + [DigitChar(n % 10)])[..|s|] == s;
    } else {
      assert [DigitChar(n)][..0] == [];
    }
  }

  /** Different numbers render differently. */
  lemma NatToStringInjective(m: nat, n: nat)
    requires NatToString(m) == NatToString(n)
    ensures m == n
  {
    DecimalRoundTrip(m);
    DecimalRoundTrip(n);
  }
}
