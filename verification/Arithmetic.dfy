/** Powers of two, and facts about quotients that the solver does not find by itself. */
module Arithmetic {

  function Pow2(n: nat): nat {
    if n == 0 then 1 else 2 * Pow2(n - 1)
  }

  lemma PositiveFactor(a: int, b: int)
    requires a > 0 && a * b > 0
    ensures b > 0
  {
  }

  lemma QuotientAtLeast(k: int, d: int, n: int)
    requires d > 0 && d * k <= n
    ensures k <= n / d
  {
    var q := n / d;
    assert n < d * q + d;
    assert d * (q + 1 - k) == d * q + d - d * k;
    PositiveFactor(d, q + 1 - k);
  }

  lemma QuotientAtMost(k: int, d: int, n: int)
    requires d > 0 && d * (k + 1) > n
    ensures n / d <= k
  {
    var q := n / d;
    assert d * q <= n;
    assert d * (k + 1 - q) == d * (k + 1) - d * q;
    PositiveFactor(d, k + 1 - q);
  }
}
