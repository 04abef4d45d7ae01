/**
 * The decimal rendering JavaScript uses when a non-negative integer is interpolated into a
 * template literal (`${i + 1}`): digits, most significant first, no leading zeros.
 */
module Decimal {

  /** The character of a single decimal digit. */
  function DigitChar(d: nat): (c: char)
    requires d < 10
    ensures '0' <= c <= '9'
  {
    ('0' as int + d) as char
  }

  /** The decimal string of `n`. */
  function Dec(n: nat): (s: string)
    ensures 1 <= |s|
    ensures n < 10 <==> |s| == 1
    ensures forall j :: 0 <= j < |s| ==> '0' <= s[j] <= '9'
    decreases n
  {
    if n < 10 then [DigitChar(n)] else Dec(n / 10) + [DigitChar(n % 10)]
  }

  /** Distinct numbers have distinct decimal strings. */
  lemma {:induction false} DecInjective(n: nat, m: nat)
    requires Dec(n) == Dec(m)
    ensures n == m
    decreases n
  {
    if n >= 10 && m >= 10 {
      var s, t := Dec(n), Dec(m);
      assert Dec(n / 10) == s[..|s| - 1];
      assert Dec(m / 10) == t[..|t| - 1];
      assert DigitChar(n % 10) == s[|s| - 1] == t[|t| - 1] == DigitChar(m % 10);
      DecInjective(n / 10, m / 10);
    }
  }

  /** The strings the site interpolates for project numbers one to eleven. */
  lemma DecOneToEleven()
    ensures Dec(1) == "1" && Dec(2) == "2" && Dec(3) == "3" && Dec(4) == "4"
    ensures Dec(5) == "5" && Dec(6) == "6" && Dec(7) == "7" && Dec(8) == "8"
    ensures Dec(9) == "9" && Dec(10) == "10" && Dec(11) == "11"
  {
    assert Dec(10) == Dec(1) + [DigitChar(0)];
    assert Dec(11) == Dec(1) + [DigitChar(1)];
  }
}
