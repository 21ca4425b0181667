/** Decimal rendering of integers, as `format!("{}", n)` prints them. */
module Text {

  function DigitChar(d: nat): (c: char)
    requires d < 10
    ensures '0' <= c <= '9'
  {
    ('0' as int + d) as char
  }

  function NatToString(n: nat): (s: string)
    ensures |s| >= 1
    ensures forall i :: 0 <= i < |s| ==> '0' <= s[i] <= '9'
    decreases n
  {
    if n < 10 then [DigitChar(n)] else NatToString(n / 10) + [DigitChar(n % 10)]
  }

  /** The last digit of a number of two or more digits is its remainder by
      ten, written after the rendering of the rest. */
  lemma {:induction false} NatToStringAppendsDigit(q: nat, d: nat)
    requires q > 0 && d < 10
    ensures NatToString(10 * q + d) == NatToString(q) + [DigitChar(d)]
  {
    assert (10 * q + d) / 10 == q;
    assert (10 * q + d) % 10 == d;
  }

  /** Small numbers as `format!` prints them. */
  lemma NatToStringExamples()
    ensures NatToString(0) == "0" && NatToString(1) == "1" && NatToString(5) == "5"
    ensures NatToString(10) == "10" && NatToString(42) == "42"
  {
    NatToStringAppendsDigit(1, 0);
    NatToStringAppendsDigit(4, 2);
  }

  function IntToString(i: int): (s: string)
    ensures |s| >= 1
  {
    if i < 0 then "-" + NatToString(-i) else NatToString(i)
  }

  predicate EndsWith(s: string, suffix: string) {
    |suffix| <= |s| && s[|s| - |suffix|..] == suffix
  }
}
