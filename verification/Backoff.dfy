/** The capped exponential retry delay. */
module Backoff {
  import opened Arithmetic

  function Min(a: int, b: int): int {
    if a <= b then a else b
  }

  function Scaled(base: int, n: nat): int {
    base * Pow2(n)
  }

  /** base * 2^(attempts - 1), never more than `cap`; attempts below 1 count as 1. */
  function Delay(attempts: int, base: int, cap: int): int {
    Min(Scaled(base, if attempts < 1 then 0 else attempts - 1), cap)
  }

  lemma {:induction false} Pow2Monotone(m: nat, n: nat)
    requires m <= n
    ensures Pow2(m) <= Pow2(n)
  {
    if m < n {
      Pow2Monotone(m, n - 1);
    }
  }

  lemma ScaledMonotone(base: nat, m: nat, n: nat)
    requires m <= n
    ensures Scaled(base, m) <= Scaled(base, n)
  {
    Pow2Monotone(m, n);
    assert base * (Pow2(n) - Pow2(m)) >= 0;
  }

  lemma ScaledDoubles(base: int, n: nat)
    ensures Scaled(base, 0) == base
    ensures Scaled(base, n + 1) == 2 * Scaled(base, n)
  {
    assert Pow2(n + 1) == 2 * Pow2(n);
  }

  /** The loop doubles and stops early; for a base that is not negative it still
      computes `Delay`, and no intermediate value exceeds twice the cap, so a cap
      below 2^62 keeps every step inside a 64-bit duration. */
  method ComputeBackoff(attempts: int, base: int, cap: int) returns (delay: int, ghost peak: int)
    ensures base >= 0 ==> delay == Delay(attempts, base, cap)
    ensures delay <= cap
    ensures 0 <= base <= cap ==> delay <= peak <= 2 * cap
  {
    hide Scaled, Pow2, Delay;
    var n := if attempts < 1 then 1 else attempts;
    DelayIsScaled(attempts, base, cap);
    delay, peak := base, base;
    ScaledDoubles(base, 0);
    var i := 1;
    while i < n
      invariant 1 <= i <= n
      invariant delay == Scaled(base, i - 1)
      invariant i > 1 ==> delay < cap
      invariant 0 <= base <= cap ==> 0 <= delay <= peak <= 2 * cap
    {
      ScaledDoubles(base, i - 1);
      delay := delay * 2;
      peak := if peak < delay then delay else peak;
      if delay >= cap {
        if base >= 0 {
          ScaledMonotone(base, i, n - 1);
        }
        return cap, peak;
      }
      i := i + 1;
    }
    if delay > cap {
      return cap, peak;
    }
  }

  /** The first wait is the base; each further attempt doubles it until the cap is reached. */
  lemma DelaysDouble(attempts: int, base: int, cap: int)
    requires 0 <= base <= cap
    ensures attempts <= 1 ==> Delay(attempts, base, cap) == base
    ensures attempts >= 1 ==>
              var wait := Delay(attempts, base, cap);
              Delay(attempts + 1, base, cap) == if 2 * wait <= cap then 2 * wait else cap
  {
    hide Scaled;
    ScaledDoubles(base, if attempts < 1 then 0 else attempts - 1);
  }

  lemma DelayIsScaled(attempts: int, base: int, cap: int)
    ensures Delay(attempts, base, cap) == Min(Scaled(base, if attempts < 1 then 0 else attempts - 1), cap)
  {
  }
}
