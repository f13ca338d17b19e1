/** Facts about integer multiplication and Euclidean division used by the other modules. */
module Arith {

  lemma MulLe(d: int, x: int, y: int)
    requires d > 0
    ensures x <= y ==> d * x <= d * y
  {
    assert d * y - d * x == d * (y - x);
  }

  lemma MulStep(i: int, step: int)
    ensures (i - 1) * step + step == i * step
  {
  }

  /** The quotient and remainder of `a` by `d` are determined by `d * q <= a < d * q + d`. */
  lemma DivUniqueInt(a: int, d: int, q: int)
    requires d > 0 && d * q <= a < d * q + d
    ensures a / d == q && a % d == a - d * q
  {
    var k := a / d;
    assert d * k <= a < d * k + d;
    MulLe(d, k + 1, q);
    MulLe(d, q + 1, k);
  }

  lemma DivStep(x: int, d: int)
    requires d > 0
    ensures (x + d) / d == x / d + 1
  {
    var q := x / d;
    assert d * q <= x < d * q + d;
    assert d * (q + 1) == d * q + d;
    DivUniqueInt(x + d, d, q + 1);
  }
}
