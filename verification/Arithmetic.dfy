/** Powers of two, and facts about multiplication, division and remainder. */
module Arithmetic {

  function Pow2(n: nat): nat {
    if n == 0 then 1 else 2 * Pow2(n - 1)
  }

  lemma {:induction false} MulMonotone(a: int, b: int, d: int)
    requires d >= 0
    ensures a <= b ==> a * d <= b * d
  {
  }

  /** The quotient is the only multiplier that brackets the dividend. */
  lemma {:induction false} QuotientIs(x: int, q: int, d: int)
    requires d > 0
    ensures q * d <= x ==> q <= x / d
    ensures x < (q + 1) * d ==> x / d <= q
  {
    var p := x / d;
    assert p * d <= x < (p + 1) * d;
    MulMonotone(p + 1, q, d);
    MulMonotone(q + 1, p, d);
  }

  lemma {:induction false} QuotientAndRest(q: int, r: int, d: int)
    requires 0 <= r < d
    ensures (q * d + r) / d == q && (q * d + r) % d == r
  {
    assert (q + 1) * d == q * d + d;
    QuotientIs(q * d + r, q, d);
  }
}
