/** Decimal printing of natural numbers, as string interpolation does it, and its inverse. */
module Decimal {
  predicate IsDigit(c: char) {
    '0' <= c <= '9'
  }

  function DigitOf(d: nat): char
    requires d < 10
  {
    '0' + d as char
  }

  predicate AllDigits(s: string) {
    forall i :: 0 <= i < |s| ==> IsDigit(s[i])
  }

  /** The number a digit string denotes; leading zeros are allowed, the empty string is 0. */
  function Value(s: string): nat
    requires AllDigits(s)
  {
    if s == "" then 0 else 10 * Value(s[..|s| - 1]) + (s[|s| - 1] as int - '0' as int)
  }

  /** Printing and reading back gives the number, without leading zeros. */
  function Dec(n: nat): (s: string)
    ensures |s| > 0 && AllDigits(s) && Value(s) == n
    ensures n > 0 ==> s[0] != '0'
  {
    if n < 10 then
      assert [DigitOf(n)][..0] == "";
      [DigitOf(n)]
    else
      var s := Dec(n / 10) + [DigitOf(n % 10)];
      assert s[..|s| - 1] == Dec(n / 10);
      s
  }

  lemma DecInjective(m: nat, n: nat)
    ensures Dec(m) == Dec(n) <==> m == n
  {
    assert Value(Dec(m)) == m && Value(Dec(n)) == n;
  }
}
