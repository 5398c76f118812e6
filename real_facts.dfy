/** Ordered-field facts about `real` products, each stated over distinct
    variables so that the solver only ever sees them instantiated; the
    z-score reasoning in module Detection is assembled from these. */
module RealFacts {

  lemma MulLess(a: real, b: real, c: real)
    requires a < b && c > 0.0
    ensures a * c < b * c
  {}

  lemma MulLeq(a: real, b: real, c: real)
    requires a <= b && c >= 0.0
    ensures a * c <= b * c
  {}

  lemma ProdLess(a: real, b: real, c: real, d: real)
    requires 0.0 <= a < b && 0.0 <= c < d
    ensures a * c < b * d
  {
    MulLeq(a, b, c);
    MulLess(c, d, b);
    assert c * b == b * c;
  }

  lemma ProdLeq(a: real, b: real, c: real, d: real)
    requires 0.0 <= a <= b && 0.0 <= c <= d
    ensures a * c <= b * d
  {
    MulLeq(a, b, c);
    MulLeq(c, d, b);
    assert c * b == b * c;
  }

  lemma ProdPositive(a: real, b: real, v: real)
    requires a > 0.0 && b > 0.0 && a * b == v
    ensures v > 0.0
  {
    MulLess(0.0, a, b);
  }

  /** Dividing by a positive number preserves a strict lower bound, and conversely. */
  lemma DivAbove(d: real, s: real, t: real)
    requires s > 0.0
    ensures d / s > t <==> d > t * s
  {
    if d / s > t { MulLess(t, d / s, s); }
    if d > t * s { MulLess(t * s, d, 1.0 / s); }
  }

  lemma DivCancel(a: real, b: real)
    requires b != 0.0
    ensures (a * b) / b == a
  {}

  lemma Regroup(a: real, b: real, c: real, e: real)
    ensures (a * b) * (c * e) == (a * c) * (b * e)
  {}

  lemma SquareCongr(a: real, b: real)
    requires a == b
    ensures a * a == b * b
  {}

  lemma Distrib(c: real, a: real, b: real)
    ensures c * a + c * b == c * (a + b)
  {}

  lemma IntProductAsReal(a: int, b: int)
    ensures (a * b) as real == (a as real) * (b as real)
  {}

  lemma DivScale(x: real, c: real, n: real)
    requires c > 0.0 && n > 0.0
    ensures (c * x) / (c * n) == x / n
  {}

  lemma MulCongr(a: real, x: real, y: real)
    requires x == y
    ensures a * x == a * y
  {}

  /** Squaring `sigma * s` where `s * s == v`. */
  lemma ScaledSquare(sigma: real, s: real, v: real)
    requires s * s == v
    ensures (sigma * s) * (sigma * s) == (sigma * sigma) * v
  {
    Regroup(sigma, s, sigma, s);
    MulCongr(sigma * sigma, s * s, v);
  }

  /** Above a non-negative bound exactly when positive with a larger square. */
  lemma AboveNonNeg(d: real, t: real)
    requires t >= 0.0
    ensures d > t <==> d > 0.0 && d * d > t * t
  {
    if d > t { ProdLess(t, d, t, d); }
    if d > 0.0 && d <= t { ProdLeq(d, t, d, t); }
  }

  /** Above a negative bound exactly when non-negative or with a smaller square. */
  lemma AboveNeg(d: real, t: real)
    requires t < 0.0
    ensures d > t <==> d >= 0.0 || d * d < t * t
  {
    assert (-d) * (-d) == d * d;
    assert (-t) * (-t) == t * t;
    if d < 0.0 && d > t { ProdLess(-d, -t, -d, -t); }
    if d < 0.0 && d <= t { ProdLeq(-t, -d, -t, -d); }
  }

  /** Scaling by a positive factor preserves strict order both ways. */
  lemma ScaleLess(a: real, b: real, c: real)
    requires c > 0.0
    ensures a < b <==> c * a < c * b
  {
    if a < b { MulLess(a, b, c); }
    if c * a < c * b {
      if b <= a { MulLeq(b, a, c); }
    }
  }

  lemma DivMul(a: real, c: real)
    requires c != 0.0
    ensures (a / c) * c == a
  {}
}
