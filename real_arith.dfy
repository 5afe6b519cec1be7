/** Facts about real arithmetic the schedule and the grid binning rely on. */
module RealArith {

  function RMin(a: real, b: real): (r: real)
    ensures r <= a && r <= b && (r == a || r == b)
  {
    if a <= b then a else b
  }

  lemma MulNonnegReal(a: real, b: real)
    requires a >= 0.0 && b >= 0.0
    ensures a * b >= 0.0
  {
  }

  lemma QuotientBelow(a: real, p: real, b: real)
    requires p > 0.0 && a < b * p
    ensures a / p < b
  {
    var t := a / p;
    assert t * p == a;
    if t >= b {
      assert (t - b) * p == t * p - b * p;
      MulNonnegReal(t - b, p);
    }
  }

  lemma QuotientAbove(a: real, p: real, b: real)
    requires p > 0.0 && a > b * p
    ensures a / p > b
  {
    var t := a / p;
    assert t * p == a;
    if t <= b {
      assert (b - t) * p == b * p - t * p;
      MulNonnegReal(b - t, p);
    }
  }

  lemma QuotientAtLeast(a: real, p: real, b: real)
    requires p > 0.0 && a >= b * p
    ensures a / p >= b
  {
    var t := a / p;
    assert t * p == a;
  }

  lemma QuotientAtMost(a: real, p: real, b: real)
    requires p > 0.0 && a <= b * p
    ensures a / p <= b
  {
    var t := a / p;
    assert t * p == a;
  }

  lemma RatioNonneg(n: real, d: real)
    requires d > 0.0 && n >= 0.0
    ensures 0.0 <= n / d
  {
  }

  lemma RatioAtMostOne(n: real, d: real)
    requires d > 0.0 && 0.0 <= n <= d
    ensures 0.0 <= n / d <= 1.0
  {
  }

  lemma RatioAtLeastOne(n: real, d: real)
    requires d > 0.0 && n >= d
    ensures n / d >= 1.0
  {
  }

  lemma RatioSelf(d: real)
    requires d > 0.0
    ensures d / d == 1.0
  {
  }

  lemma RatioMonotone(m: real, n: real, d: real)
    requires d > 0.0 && m <= n
    ensures m / d <= n / d
  {
  }

  lemma ScaleMonotone(f: real, g: real, s: real)
    requires f <= g && s >= 0.0
    ensures f * s <= g * s
  {
  }

  /** A fraction in [0, 1] of a span stays between 0 and the span. */
  lemma ScaleWithin(f: real, span: real)
    requires 0.0 <= f <= 1.0
    ensures span >= 0.0 ==> 0.0 <= f * span <= span
    ensures span <= 0.0 ==> span <= f * span <= 0.0
  {
  }

  /** The point a fraction `frac` of the way along `span` from `start`. */
  function Lerp(start: real, frac: real, span: real): real {
    start + frac * span
  }

  lemma LerpMonotone(start: real, f: real, g: real, span: real)
    requires f <= g && span >= 0.0
    ensures Lerp(start, f, span) <= Lerp(start, g, span)
  {
    ScaleMonotone(f, g, span);
  }
}
