/** Facts about integer multiplication and division used by the page arithmetic. */
module Arithmetic {

  /** Multiplying a strict inequality between integers by a non-zero factor. */
  lemma MulStep(a: int, b: int, d: int)
    ensures a < b && d > 0 ==> a * d + d <= b * d
    ensures a < b && d < 0 ==> b * d - d <= a * d
    ensures (a - 1) * d == a * d - d && (b - 1) * d == b * d - d
  {
    if a < b {
      assert b * d - a * d == (b - a) * d;
    }
  }

  /** A whole number of blocks of size `d` divides back exactly. */
  lemma MultipleDivision(k: nat, d: int)
    requires d > 0
    ensures k * d >= 0 && (k * d) % d == 0 && (k * d) / d == k
  {
    var n := k * d;
    var q, r := n / d, n % d;
    assert n == q * d + r && 0 <= r < d;
    if q < k {
      MulStep(q, k, d);
      assert false;
    } else if q > k {
      MulStep(k, q, d);
      assert false;
    }
    MulStep(0, k, d);
  }
}
