/** Exact money arithmetic. Amounts are rupees held as exact `real`s; a value
    shown "to two decimals" is an integer number of hundredths (paise, or
    hundredths of a percent for a margin). */
module Money {

  /** `x.toFixed(2)` as a count of hundredths: the integer nearest to 100·x,
      a tie going away from zero (toFixed works on |x| and picks the larger
      candidate, then restores the sign). */
  function Round2(x: real): (n: int)
    ensures 0.0 <= x ==> 0 <= n
    ensures 0.0 <= x ==> -0.5 < n as real - 100.0 * x <= 0.5
    ensures x < 0.0 ==> -0.5 <= n as real - 100.0 * x < 0.5
  {
    if 0.0 <= x then (100.0 * x + 0.5).Floor else -((-100.0 * x + 0.5).Floor)
  }

  /** The two-decimal value `n` hundredths stand for. */
  function Cents(n: int): real {
    n as real / 100.0
  }

  /** Round2 is THE nearest hundredth: any integer within the same half-open
      window around 100·x is Round2(x). */
  lemma Round2Unique(x: real, m: int)
    requires 0.0 <= x ==> -0.5 < m as real - 100.0 * x <= 0.5
    requires x < 0.0 ==> -0.5 <= m as real - 100.0 * x < 0.5
    ensures m == Round2(x)
  {
    var n := Round2(x);
    assert -1.0 < m as real - n as real < 1.0;
  }

  /** A value already in whole hundredths is left unchanged by toFixed(2). */
  lemma Round2OfCents(c: int)
    ensures Round2(Cents(c)) == c
  {
    assert 100.0 * Cents(c) == c as real;
    Round2Unique(Cents(c), c);
  }

  /** `parseInt` of a plain decimal: the integer part, truncated toward zero. */
  function Truncate(x: real): (n: int)
    ensures 0.0 <= x ==> 0 <= n && n as real <= x < n as real + 1.0
    ensures x < 0.0 ==> n <= 0 && n as real - 1.0 < x <= n as real
  {
    if 0.0 <= x then x.Floor else -((-x).Floor)
  }
}
