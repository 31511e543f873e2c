/** Sign facts about products of reals that the solver does not find on
    its own. */
module RealArith {

  /** A product of non-negative factors is non-negative. */
  lemma MulNonNegative(a: real, b: real)
    ensures a >= 0.0 && b >= 0.0 ==> a * b >= 0.0
  {
  }

  /** Multiplying by a positive `b` keeps the sign of `a`. */
  lemma MulPositive(a: real, b: real)
    ensures b > 0.0 ==> (a > 0.0 <==> a * b > 0.0)
  {
    if b > 0.0 && a <= 0.0 {
      MulNonNegative(-a, b);
    }
  }

  /** If `a * b == c` with `b` positive, `a` has the sign of `c`. */
  lemma FactorOfNonNegative(a: real, b: real, c: real)
    requires b > 0.0 && a * b == c && c >= 0.0
    ensures a >= 0.0
  {
  }

  /** If `a * m < b * m + c` and `a * (m + 1) > b * (m + 1) + c`, then
      `a - b` is positive and `c` lies strictly between `(a - b) * m` and
      `(a - b) * (m + 1)`. */
  lemma BetweenMultiples(a: real, b: real, c: real, m: real)
    requires a * m < b * m + c && a * (m + 1.0) > b * (m + 1.0) + c
    ensures a - b > 0.0
    ensures (a - b) * m < c < (a - b) * (m + 1.0)
  {
    assert a * (m + 1.0) - a * m == a;
    assert b * (m + 1.0) - b * m == b;
  }

  /** A quotient `q` of `c` by a positive `d` lies strictly between `m`
      and `m + 1` when `c` lies strictly between `d * m` and `d * (m + 1)`. */
  lemma QuotientBetween(q: real, d: real, c: real, m: real)
    requires d > 0.0 && q * d == c
    requires d * m < c < d * (m + 1.0)
    ensures m < q < m + 1.0
  {
    if q <= m {
      MulNonNegative(m - q, d);
    }
    if q >= m + 1.0 {
      MulNonNegative(q - (m + 1.0), d);
    }
  }

  /** A product with a non-zero factor vanishes only if the other does. */
  lemma ZeroProduct(a: real, b: real)
    requires b != 0.0 && a * b == 0.0
    ensures a == 0.0
  {
  }

  /** Dividing the same non-negative amount by a larger positive divisor
      gives a smaller non-negative quotient. */
  lemma QuotientShrinks(c: real, d: real, bigger: real, q: real, qBigger: real)
    requires 0.0 < d <= bigger && c >= 0.0
    requires q * d == c && qBigger * bigger == c
    ensures 0.0 <= qBigger <= q
  {
    FactorOfNonNegative(qBigger, bigger, c);
    MulNonNegative(qBigger, bigger - d);
    assert (q - qBigger) * d == qBigger * (bigger - d);
    FactorOfNonNegative(q - qBigger, d, qBigger * (bigger - d));
  }

  /** A value `q` that solves `(a - b) * q == c` whenever `a > b` lies
      strictly between `m` and the next point `next == m + 1` when the line
      `a * x` crosses the line `b * x + c` between those two points. */
  lemma CrossingBetween(a: real, b: real, c: real, m: real, next: real, q: real)
    requires next == m + 1.0
    requires a * m < b * m + c && a * next > b * next + c
    requires a > b ==> q * (a - b) == c
    ensures m < q < next
  {
    BetweenMultiples(a, b, c, m);
    QuotientBetween(q, a - b, c, m);
  }

  /** Between two points where the line through `t1`, `t2` is first below
      and then above the line through `s1`, `s2`, the step `x` at which they
      meet is strictly between 0 and 1. */
  lemma InterpolationStep(t1: real, t2: real, s1: real, s2: real, x: real)
    requires t1 < s1 && t2 > s2
    requires x == (s1 - t1) / (t2 - t1 - (s2 - s1))
    ensures 0.0 < x < 1.0
    ensures t1 + (t2 - t1) * x == s1 + (s2 - s1) * x
  {
    var d := t2 - t1 - (s2 - s1);
    assert d == (s1 - t1) + (t2 - s2);
    assert x * d == s1 - t1;
    QuotientBetween(x, d, s1 - t1, 0.0);
    assert (t2 - t1) * x - (s2 - s1) * x == d * x;
  }

  /** A factor of a product is the product over the other factor. */
  lemma QuotientOfProduct(q: real, d: real, c: real)
    ensures d != 0.0 && q * d == c ==> q == c / d
  {
  }

  /** Scaling one factor of a product scales the product. */
  lemma ScaledProduct(a: real, k: real, rest: real)
    ensures a * k * rest == a * rest * k
  {
  }
}
