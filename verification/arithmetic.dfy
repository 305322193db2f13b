/** Multiplication and division facts the solver is not left to find alone. */
module Arithmetic {

  lemma MulMonotone(a: int, b: int, g: int)
    requires a <= b && g >= 0
    ensures a * g <= b * g
  {
    assert (b - a) * g >= 0;
    assert b * g - a * g == (b - a) * g;
  }

  lemma MulStep(n: int, m: int)
    ensures (n + 1) * m == n * m + m
  {
  }

  /** Of k events at least g apart, all within w, there are at most w / g + 1. */
  lemma SpacedCount(k: nat, w: int, g: int)
    requires g > 0 && (k > 0 ==> (k - 1) * g <= w) && w >= 0
    ensures k <= w / g + 1
  {
    var q := w / g;
    assert (q + 1) * g > w;
    if k > q + 1 {
      MulMonotone(q + 1, k - 1, g);
      assert false;
    }
  }
}
