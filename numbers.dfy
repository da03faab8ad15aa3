/** Python's numeric conversions and the small facts about real arithmetic the model relies on. */
module Numbers {

  /** Python's `int(x)` on a float: truncation toward zero. */
  function Trunc(x: real): (n: int)
    ensures x >= 0.0 ==> 0 <= n && n as real <= x < n as real + 1.0
    ensures x < 0.0 ==> n <= 0 && n as real - 1.0 < x <= n as real
  {
    if x >= 0.0 then x.Floor else -((-x).Floor)
  }

  /** `min(a, b)`. */
  function Min(a: real, b: real): (m: real)
    ensures m <= a && m <= b && (m == a || m == b)
  {
    if a <= b then a else b
  }

  /** `max(a, b)`. */
  function Max(a: real, b: real): (m: real)
    ensures m >= a && m >= b && (m == a || m == b)
  {
    if a >= b then a else b
  }

  lemma NonNegativeProduct(a: real, b: real)
    requires a >= 0.0 && b >= 0.0
    ensures a * b >= 0.0
  {
  }

  lemma PositiveProduct(a: real, b: real)
    requires a > 0.0 && b > 0.0
    ensures a * b > 0.0
  {
  }

  /** The number that gives `c` once multiplied by a non-zero `a` is `c / a`. */
  lemma QuotientOf(c: real, a: real, g: real)
    requires a != 0.0 && g * a == c
    ensures g == c / a
  {
  }

  /** Scaling twice in a row: a factor carried from `x` to `y`, then `q` from `y` to `z`. */
  lemma ScaleChain(level: real, q: real, x: real, y: real, z: real)
    requires level * x == y && q * y == z
    ensures (level * q) * x == z
  {
    assert (level * q) * x == q * (level * x);
  }

  /** Dividing by a positive number keeps a comparison with a bound scaled by it. */
  lemma QuotientOrder(a: real, b: real, c: real)
    requires b > 0.0
    ensures a / b > c <==> a > c * b
  {
    var q := a / b;
    assert q * b == a;
    if q > c {
      PositiveProduct(q - c, b);
    } else {
      NonNegativeProduct(c - q, b);
    }
  }

  /** Multiplying by a non-negative number keeps an order. */
  lemma ScaleMonotone(a: real, b: real, c: real)
    requires a <= b && c >= 0.0
    ensures a * c <= b * c && c * a <= c * b
  {
    NonNegativeProduct(b - a, c);
    assert (b - a) * c == b * c - a * c;
  }

  /** A whole number within one below a quotient by a positive `p`, times `p`, is within `p` below the numerator. */
  lemma WholeQuotient(x: real, p: real, n: int)
    requires p > 0.0 && n as real <= x / p < n as real + 1.0
    ensures n as real * p <= x < (n + 1) as real * p
  {
    var q := x / p;
    assert q * p == x;
    var m := (n + 1) as real;
    assert m - q > 0.0;
    PositiveProduct(m - q, p);
    assert (m - q) * p > 0.0;
    assert x < m * p;
  }

  /** The reciprocal of a positive number is positive. */
  lemma ReciprocalPositive(x: real)
    requires x > 0.0
    ensures 1.0 / x > 0.0
  {
    QuotientOrder(1.0, x, 0.0);
  }

  /** Non-negative weights summing to 1 blend two ordered numbers into a number between them. */
  lemma ConvexBetween(a: real, b: real, x: real, y: real)
    requires a >= 0.0 && b >= 0.0 && a + b == 1.0 && x <= y
    ensures x <= a * x + b * y <= y
  {
    var d := y - x;
    NonNegativeProduct(b, d);
    NonNegativeProduct(a, d);
    assert a * x + b * y == x + b * d by {
      assert b * y == b * x + b * d;
      assert a * x + b * x == x;
    }
    assert a * x + b * y == y - a * d by {
      assert a * x == a * y - a * d;
      assert a * y + b * y == y;
    }
  }

  /** Multiplying by the reciprocal is dividing. */
  lemma TimesReciprocal(x: real, y: real)
    requires y != 0.0
    ensures x * (1.0 / y) == x / y
  {
  }

  /** A total of `n` numbers each within `bound` of zero has its mean within `bound` of zero. */
  lemma MeanWithin(total: real, n: real, bound: real)
    requires n > 0.0 && -(bound * n) <= total <= bound * n
    ensures -bound <= total / n <= bound
  {
    var mean := total / n;
    assert mean * n == total;
    if mean > bound {
      PositiveProduct(mean - bound, n);
      assert false;
    }
    if mean < -bound {
      PositiveProduct(-bound - mean, n);
      assert false;
    }
  }

  /** A quotient whose numerator lies within its positive denominator lies in [-1, 1]. */
  lemma QuotientBounded(a: real, b: real)
    requires b > 0.0 && -b <= a <= b
    ensures -1.0 <= a / b <= 1.0
    ensures a >= 0.0 ==> a / b >= 0.0
  {
    var q := a / b;
    assert q * b == a;
    if a >= 0.0 && q < 0.0 {
      PositiveProduct(-q, b);
      assert false;
    }
    if q > 1.0 {
      PositiveProduct(q - 1.0, b);
      assert false;
    }
    if q < -1.0 {
      PositiveProduct(-1.0 - q, b);
      assert false;
    }
  }
}
