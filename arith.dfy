/** Facts about Euclidean division that the solver does not find on its own. */
module Arith {
  /** A quotient and remainder in range are the only ones. */
  lemma DivModUnique(x: int, b: int, q: int, r: int)
    requires b > 0 && 0 <= r < b && x == q * b + r
    ensures x % b == r && x / b == q
  {
    var q0, r0 := x / b, x % b;
    assert q0 * b + r0 == x;
    assert (q - q0) * b == r0 - r;
    if q != q0 {
      var k := q - q0;
      if k > 0 {
        MulAtLeast(k, b);
      } else {
        MulAtLeast(-k, b);
      }
    }
  }

  lemma MulAtLeast(k: int, b: int)
    requires k >= 1 && b > 0
    ensures k * b >= b
  {
    assert k * b == (k - 1) * b + b;
    assert (k - 1) * b >= 0;
  }

  /** Multiplying by a positive factor keeps a strict order. */
  lemma MulStrict(b: int, x: int, y: int)
    requires b > 0 && x < y
    ensures b * x < b * y
  {
    MulAtLeast(y - x, b);
    assert b * y - b * x == (y - x) * b;
  }
}
