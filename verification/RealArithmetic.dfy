/** Facts about products and quotients of reals the chart models share. */
module RealArithmetic {
  /** The machine epsilon of single precision, which the chart uses as an absolute tolerance. */
  const F32_EPSILON := 1.0 / 8388608.0

  function Max(a: real, b: real): real {
    if a < b then b else a
  }

  lemma MulDiv(a: real, s: real)
    requires s != 0.0
    ensures a * s / s == a && a / s * s == a
  {
  }

  lemma DivIsMul(a: real, d: real)
    requires d != 0.0
    ensures a / d == a * (1.0 / d)
  {
    MulDiv(1.0, d);
    assert a * (1.0 / d) * d == a;
    MulDiv(a, d);
    MulDiv(a * (1.0 / d), d);
  }

  lemma MulPositive(a: real, b: real)
    requires a > 0.0 && b > 0.0
    ensures a * b > 0.0
  {
  }

  lemma MulMono(x: real, y: real, c: real)
    requires x <= y && c >= 0.0
    ensures x * c <= y * c
  {
    assert (y - x) * c >= 0.0;
  }

  lemma StrictMul(x: real, y: real, c: real)
    requires x < y && c > 0.0
    ensures x * c < y * c
  {
    assert (y - x) * c > 0.0;
  }
}
