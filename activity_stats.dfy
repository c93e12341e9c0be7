// The percentage shown beside each activity count (UserActivityStats.tsx).

module ActivityStats {
  /**
   * calculatePercentage(value, total): Math.round(value / total * 100) for a
   * positive total and 0 otherwise. Math.round rounds halves up, so on exact
   * rationals it is floor(100 * value / total + 1/2).
   */
  function Percentage(value: int, total: int): int
  {
    if total > 0 then (200 * value + total) / (2 * total) else 0
  }

  lemma MulBelowOne(d: int, k: int)
    requires d > 0 && d * k < d
    ensures k < 1
  {
  }

  /** Division by a positive number has a unique quotient and remainder. */
  lemma DivUnique(n: int, d: int, q: int, r: int)
    requires d > 0 && 0 <= r < d && n == d * q + r
    ensures n / d == q
  {
    var q' := n / d;
    assert n == d * q' + n % d;
    assert d * (q - q') == n % d - r;
    MulBelowOne(d, q - q');
    MulBelowOne(d, q' - q);
  }

  /** Division by a positive number is monotone. */
  lemma DivMonotone(a: int, b: int, d: int)
    requires d > 0 && a <= b
    ensures a / d <= b / d
  {
    var qa, qb := a / d, b / d;
    assert a == d * qa + a % d;
    assert b == d * qb + b % d;
    assert d * (qa - qb) == (a - a % d) - (b - b % d);
    MulBelowOne(d, qa - qb);
  }

  /** The rounding is the nearest integer: within one half of 100 * value / total. */
  lemma PercentageIsNearest(value: int, total: int)
    requires total > 0
    ensures var p := Percentage(value, total);
      2 * total * p <= 200 * value + total < 2 * total * (p + 1)
  {
    var n := 200 * value + total;
    var d := 2 * total;
    assert n == d * (n / d) + n % d;
  }

  lemma NoTotalIsZero(value: int, total: int)
    requires total <= 0
    ensures Percentage(value, total) == 0
  {
  }

  lemma AllIsHundred(total: int)
    requires total > 0
    ensures Percentage(total, total) == 100
  {
    DivUnique(200 * total + total, 2 * total, 100, total);
  }

  lemma NoneIsZero(total: int)
    requires total > 0
    ensures Percentage(0, total) == 0
  {
    DivUnique(total, 2 * total, 0, total);
  }

  /** For a fixed total the percentage does not decrease as the value grows. */
  lemma PercentageMonotone(v1: int, v2: int, total: int)
    requires v1 <= v2
    ensures Percentage(v1, total) <= Percentage(v2, total)
  {
    if total > 0 {
      DivMonotone(200 * v1 + total, 200 * v2 + total, 2 * total);
    }
  }

  /** For 0 <= value <= total the percentage lies in [0, 100]. */
  lemma PercentageBounds(value: int, total: int)
    requires 0 <= value <= total
    ensures 0 <= Percentage(value, total) <= 100
  {
    if total > 0 {
      PercentageMonotone(0, value, total);
      NoneIsZero(total);
      PercentageMonotone(value, total, total);
      AllIsHundred(total);
    }
  }
}
