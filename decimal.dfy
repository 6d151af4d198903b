/** Decimal rendering of a non-negative index, as `String.valueOf(int)` produces it
    for the `index` tag of a delegate's meter id prefix, with its inverse. */
module Decimal {

  function Digit(d: nat): (c: char)
    requires d < 10
    ensures '0' <= c <= '9'
  {
    ('0' as int + d) as char
  }

  function DigitValue(c: char): nat
  {
    if '0' <= c <= '9' then c as int - '0' as int else 0
  }

  /** The shortest decimal numeral of `n`, most significant digit first. */
  function DecimalString(n: nat): (s: string)
    ensures |s| >= 1
    ensures forall i :: 0 <= i < |s| ==> '0' <= s[i] <= '9'
    ensures |s| > 1 ==> s[0] != '0'
    decreases n
  {
    if n < 10 then [Digit(n)] else DecimalString(n / 10) + [Digit(n % 10)]
  }

  /** Reads a numeral written with the digits `0`..`9`, most significant first. */
  function ParseDecimal(s: string): nat
  {
    if s == [] then 0 else 10 * ParseDecimal(s[..|s| - 1]) + DigitValue(s[|s| - 1])
  }

  /** Parsing undoes rendering. */
  lemma {:induction false} ParseDecimalString(n: nat)
    ensures ParseDecimal(DecimalString(n)) == n
    decreases n
  {
    var s := DecimalString(n);
    if n < 10 {
      assert s[..|s| - 1] == [];
    } else {
      ParseDecimalString(n / 10);
      assert s[..|s| - 1] == DecimalString(n / 10);
      assert DigitValue(s[|s| - 1]) == n % 10;
    }
  }

  /** Two indices render to the same numeral exactly when they are equal. */
  lemma DecimalStringInjective(m: nat, n: nat)
    ensures DecimalString(m) == DecimalString(n) <==> m == n
  {
    if DecimalString(m) == DecimalString(n) {
      ParseDecimalString(m);
      ParseDecimalString(n);
    }
  }
}
