/** Integer helpers for the back-off schedules (`Math.pow(2, n)`, `Math.min`). */
module Arith {

  function Pow2(n: nat): (r: nat)
    ensures r >= 1
  {
    if n == 0 then 1 else 2 * Pow2(n - 1)
  }

  /** `base * 2^n`, by repeated doubling, so that unfolding it involves no
      product of two unknowns. */
  function Doubled(base: int, n: nat): int
  {
    if n == 0 then base else 2 * Doubled(base, n - 1)
  }

  /** Repeated doubling is multiplication by a power of two. */
  lemma {:induction false} DoubledIsProduct(base: int, n: nat)
    ensures Doubled(base, n) == base * Pow2(n)
  {
    if n > 0 {
      DoubledIsProduct(base, n - 1);
    }
  }

  function Min(a: int, b: int): (r: int)
    ensures r <= a && r <= b
    ensures r == a || r == b
  {
    if a <= b then a else b
  }

  /** Powers of two grow with the exponent. */
  lemma {:induction false} Pow2Monotone(m: nat, n: nat)
    requires m <= n
    ensures Pow2(m) <= Pow2(n)
    decreases n - m
  {
    if m < n {
      Pow2Monotone(m, n - 1);
    }
  }
}
