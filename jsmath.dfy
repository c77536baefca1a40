/**
 * `Math.round` and `Math.ceil` applied to a quotient of integers, computed on the exact
 * rational value (Dafny's `/` on a positive divisor is floor division).
 */
module JsMath {

  /** Floor division by a positive divisor, stated by its defining inequalities. */
  lemma FloorDivBounds(x: int, d: int)
    requires d > 0
    ensures d * (x / d) <= x < d * (x / d) + d
  {
  }

  /** `Math.round(p / q)`: the nearest integer to `p / q`, with halves rounded up. */
  function RoundDiv(p: int, q: int): (r: int)
    requires q != 0
    ensures q > 0 ==> 2 * q * r <= 2 * p + q < 2 * q * r + 2 * q
    ensures q < 0 ==> -2 * q * r <= -2 * p - q < -2 * q * r - 2 * q
  {
    if q > 0 then
      FloorDivBounds(2 * p + q, 2 * q);
      (2 * p + q) / (2 * q)
    else
      FloorDivBounds(-2 * p - q, -2 * q);
      (-2 * p - q) / (-2 * q)
  }

  lemma MulMonotone(k: int, a: int, b: int)
    requires k > 0 && a <= b
    ensures k * a <= k * b
  {
  }

  /** `Math.round(p / q)` does not decrease when `p` grows, for a fixed positive `q`. */
  lemma RoundDivMonotone(p1: int, p2: int, q: int)
    requires q > 0 && p1 <= p2
    ensures RoundDiv(p1, q) <= RoundDiv(p2, q)
  {
    var r1, r2 := RoundDiv(p1, q), RoundDiv(p2, q);
    if r1 > r2 {
      assert r2 + 1 <= r1;
      MulMonotone(2 * q, r2 + 1, r1);
      assert false;
    }
  }

  /** `Math.ceil(p / q)` for a positive `q`: the least integer at least `p / q`. */
  function CeilDiv(p: int, q: int): (r: int)
    requires q > 0
    ensures q * r - q < p <= q * r
  {
    FloorDivBounds(-p, q);
    -((-p) / q)
  }

  /** `Math.ceil(p / q)` does not decrease when `p` grows. */
  lemma CeilDivMonotone(p1: int, p2: int, q: int)
    requires q > 0 && p1 <= p2
    ensures CeilDiv(p1, q) <= CeilDiv(p2, q)
  {
    var r1, r2 := CeilDiv(p1, q), CeilDiv(p2, q);
    if r1 > r2 {
      MulMonotone(q, r2 + 1, r1);
      assert false;
    }
  }
}
