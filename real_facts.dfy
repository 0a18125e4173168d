/**
 * Facts about exact real numbers that the interval kernels rely on:
 * natural powers, a square-root oracle, the minimum and maximum of the four
 * corner products, and monotonicity of reciprocals.
 */
module RealFacts {
  /** `x ** n` for a natural exponent. */
  function Power(x: real, n: nat): real
  {
    if n == 0 then 1.0 else x * Power(x, n - 1)
  }

  /**
   * `sqrt` is a square root on the non-negative reals.  Dafny cannot build
   * one, so every operation that takes a square root receives it as a
   * parameter constrained by this predicate.
   */
  ghost predicate IsSqrt(sqrt: real -> real)
  {
    forall x :: 0.0 <= x ==> 0.0 <= sqrt(x) && sqrt(x) * sqrt(x) == x
  }

  /** `sqrt` is a square root at the one point `x`. */
  ghost predicate SqrtAt(sqrt: real -> real, x: real)
  {
    0.0 <= x ==> 0.0 <= sqrt(x) && sqrt(x) * sqrt(x) == x
  }

  /** A square root is one at every point. */
  lemma SqrtAtEach(sqrt: real -> real, x: real)
    requires IsSqrt(sqrt)
    ensures SqrtAt(sqrt, x)
  {
  }

  /**
   * `-x`, named: an estimator built on negated data receives this term
   * rather than an arithmetic expression as its argument.
   */
  function Negated(x: real): real { -x }

  function Min2(x: real, y: real): real { if x <= y then x else y }
  function Max2(x: real, y: real): real { if x >= y then x else y }

  /** The smallest of four numbers, Python's `min([p, q, r, s])`. */
  function Min4(p: real, q: real, r: real, s: real): (m: real)
    ensures m <= p && m <= q && m <= r && m <= s
  {
    Min2(Min2(Min2(p, q), r), s)
  }

  /** The largest of four numbers, Python's `max([p, q, r, s])`. */
  function Max4(p: real, q: real, r: real, s: real): (m: real)
    ensures m >= p && m >= q && m >= r && m >= s
  {
    Max2(Max2(Max2(p, q), r), s)
  }

  /** The smallest and the largest of four numbers are among them. */
  lemma Min4Max4Attained(p: real, q: real, r: real, s: real)
    ensures var m := Min4(p, q, r, s); m == p || m == q || m == r || m == s
    ensures var m := Max4(p, q, r, s); m == p || m == q || m == r || m == s
  {
  }

  lemma MulNonneg(p: real, q: real)
    requires 0.0 <= p && 0.0 <= q
    ensures 0.0 <= p * q
  {
  }

  lemma MulPos(p: real, q: real)
    requires 0.0 < p && 0.0 < q
    ensures 0.0 < p * q
  {
  }

  /** A product with a positive factor keeps the sign of the other factor. */
  lemma NonnegFactor(p: real, q: real)
    requires 0.0 < p && 0.0 <= p * q
    ensures 0.0 <= q
  {
  }

  /** A non-zero factor cancels from both sides of an equation. */
  lemma CancelFactor(x: real, y: real, z: real)
    requires z != 0.0 && x * z == y * z
    ensures x == y
  {
    assert (x - y) * z == 0.0;
  }

  /** A product with one factor in `[lo, hi]` lies between the two end products. */
  lemma ProductBetweenEnds(x: real, lo: real, hi: real, y: real)
    requires lo <= x <= hi
    ensures Min2(lo * y, hi * y) <= x * y <= Max2(lo * y, hi * y)
  {
    if y >= 0.0 {
      MulNonneg(x - lo, y);
      MulNonneg(hi - x, y);
    } else {
      MulNonneg(x - lo, -y);
      MulNonneg(hi - x, -y);
    }
  }

  /** The product of two points of two boxes lies between the corner products. */
  lemma ProductInCorners(x: real, y: real, xl: real, xh: real, yl: real, yh: real)
    requires xl <= x <= xh && yl <= y <= yh
    ensures Min4(xl * yl, xl * yh, xh * yl, xh * yh) <= x * y
    ensures x * y <= Max4(xl * yl, xl * yh, xh * yl, xh * yh)
  {
    ProductBetweenEnds(x, xl, xh, y);
    ProductBetweenEnds(y, yl, yh, xl);
    ProductBetweenEnds(y, yl, yh, xh);
  }

  /** Taking reciprocals reverses the order of two numbers of the same sign. */
  lemma ReciprocalAntitone(x: real, y: real)
    requires 0.0 < x <= y || x <= y < 0.0
    ensures 1.0 / y <= 1.0 / x
  {
    assert 1.0 / x - 1.0 / y == (y - x) / (x * y);
    if x > 0.0 { MulNonneg(x, y); } else { MulNonneg(-x, -y); }
  }

  lemma {:induction false} PowerNonneg(x: real, n: nat)
    requires 0.0 <= x
    ensures 0.0 <= Power(x, n)
  {
    if n > 0 {
      PowerNonneg(x, n - 1);
      MulNonneg(x, Power(x, n - 1));
    }
  }

  /** On the non-negative reals every natural power is monotone. */
  lemma {:induction false} PowerMonotoneNonneg(x: real, y: real, n: nat)
    requires 0.0 <= x <= y
    ensures Power(x, n) <= Power(y, n)
  {
    if n > 0 {
      PowerMonotoneNonneg(x, y, n - 1);
      PowerNonneg(x, n - 1);
      MulNonneg(y - x, Power(x, n - 1));
      MulNonneg(y, Power(y, n - 1) - Power(x, n - 1));
    }
  }

  /** An even power forgets the sign, an odd power keeps it. */
  lemma {:induction false} PowerOfNegation(x: real, n: nat)
    ensures Power(-x, n) == if n % 2 == 0 then Power(x, n) else -Power(x, n)
  {
    if n > 0 {
      PowerOfNegation(x, n - 1);
    }
  }

  /** An even power is never negative. */
  lemma PowerEvenNonneg(x: real, n: nat)
    requires n % 2 == 0
    ensures 0.0 <= Power(x, n)
  {
    if x >= 0.0 {
      PowerNonneg(x, n);
    } else {
      PowerOfNegation(x, n);
      PowerNonneg(-x, n);
    }
  }

  /** An odd power is monotone on all the reals. */
  lemma PowerMonotoneOdd(x: real, y: real, n: nat)
    requires x <= y && n % 2 == 1
    ensures Power(x, n) <= Power(y, n)
  {
    if 0.0 <= x {
      PowerMonotoneNonneg(x, y, n);
    } else if y <= 0.0 {
      PowerMonotoneNonneg(-y, -x, n);
      PowerOfNegation(x, n);
      PowerOfNegation(y, n);
    } else {
      PowerOfNegation(x, n);
      PowerNonneg(-x, n);
      PowerNonneg(y, n);
    }
  }

  /** An even power is monotone in the absolute value. */
  lemma PowerMonotoneEven(x: real, y: real, n: nat)
    requires n % 2 == 0
    requires -y <= x <= y
    ensures Power(x, n) <= Power(y, n)
  {
    if 0.0 <= x {
      PowerMonotoneNonneg(x, y, n);
    } else {
      PowerOfNegation(x, n);
      PowerMonotoneNonneg(-x, y, n);
    }
  }

  /** A quotient of a non-positive number by a positive one is non-positive. */
  lemma QuotientNonpos(n: real, d: real)
    requires n <= 0.0 < d
    ensures n / d <= 0.0
  {
    MulNonneg(-n / d, d);
  }

  /** Of two non-negative numbers, the one with the smaller square is smaller. */
  lemma SquaresOrdered(p: real, q: real)
    requires 0.0 <= p && 0.0 <= q && p * p <= q * q
    ensures p <= q
  {
    if p + q != 0.0 {
      assert (p - q) * (p + q) == p * p - q * q;
      assert p - q == (p * p - q * q) / (p + q);
      QuotientNonpos(p * p - q * q, p + q);
    }
  }

  /** A square root oracle is monotone. */
  lemma SqrtMonotone(sqrt: real -> real, x: real, y: real)
    requires IsSqrt(sqrt)
    requires 0.0 <= x <= y
    ensures sqrt(x) <= sqrt(y)
  {
    SquaresOrdered(sqrt(x), sqrt(y));
  }

  /** The square root oracle inverts squaring on the non-negative reals. */
  lemma SqrtOfSquare(sqrt: real -> real, x: real)
    requires IsSqrt(sqrt)
    requires 0.0 <= x
    ensures sqrt(x * x) == x
  {
    MulNonneg(x, x);
    SquaresOrdered(sqrt(x * x), x);
    SquaresOrdered(x, sqrt(x * x));
  }

  /** Dividing by a positive number keeps the order of the numerators. */
  lemma QuotientMonotone(x: real, z: real, d: real)
    requires x <= z && 0.0 < d
    ensures x / d <= z / d
  {
    assert z / d - x / d == (z - x) / d;
  }

  /** `x / y` for `x <= c < 0` and `0 < y <= yh` is at most `c / yh`. */
  lemma QuotientNegOverPos(x: real, c: real, y: real, yh: real)
    requires x <= c < 0.0 && 0.0 < y <= yh
    ensures x / y <= c / yh
  {
    QuotientMonotone(x, c, y);
    ReciprocalAntitone(y, yh);
    assert c / y == c * (1.0 / y) && c / yh == c * (1.0 / yh);
    MulNonneg(-c, 1.0 / y - 1.0 / yh);
  }

  /** `x / y` for `x >= c > 0` and `0 < y <= yh` is at least `c / yh`. */
  lemma QuotientPosOverPos(x: real, c: real, y: real, yh: real)
    requires 0.0 < c <= x && 0.0 < y <= yh
    ensures c / yh <= x / y
  {
    QuotientMonotone(c, x, y);
    ReciprocalAntitone(y, yh);
    assert c / y == c * (1.0 / y) && c / yh == c * (1.0 / yh);
    MulNonneg(c, 1.0 / y - 1.0 / yh);
  }

  /** `x / y` for `x <= c < 0` and `yl <= y < 0` is at least `c / yl`. */
  lemma QuotientNegOverNeg(x: real, c: real, y: real, yl: real)
    requires x <= c < 0.0 && yl <= y < 0.0
    ensures c / yl <= x / y
  {
    QuotientMonotone(-c, -x, -y);
    assert (-x) / (-y) == x / y && (-c) / (-y) == c / y;
    ReciprocalAntitone(yl, y);
    assert c / y == c * (1.0 / y) && c / yl == c * (1.0 / yl);
    MulNonneg(-c, 1.0 / yl - 1.0 / y);
  }

  /** `x / y` for `x >= c > 0` and `yl <= y < 0` is at most `c / yl`. */
  lemma QuotientPosOverNeg(x: real, c: real, y: real, yl: real)
    requires 0.0 < c <= x && yl <= y < 0.0
    ensures x / y <= c / yl
  {
    QuotientMonotone(c, x, -y);
    assert x / (-y) == -(x / y) && c / (-y) == -(c / y);
    ReciprocalAntitone(yl, y);
    assert c / y == c * (1.0 / y) && c / yl == c * (1.0 / yl);
    MulNonneg(c, 1.0 / yl - 1.0 / y);
  }

  /** Dividing by `y` is multiplying by its reciprocal. */
  lemma DivIsMulByReciprocal(x: real, y: real, r: real)
    requires y != 0.0 && r == 1.0 / y
    ensures x * r == x / y
  {
  }

  /** A quotient with its numerator in `[xl, xh]` lies between the two end quotients. */
  lemma NumeratorBetweenEnds(x: real, xl: real, xh: real, y: real)
    requires xl <= x <= xh && y != 0.0
    ensures Min2(xl / y, xh / y) <= x / y <= Max2(xl / y, xh / y)
  {
    var q := 1.0 / y;
    assert Min2(xl * q, xh * q) <= x * q <= Max2(xl * q, xh * q) by {
      ProductBetweenEnds(x, xl, xh, q);
    }
    assert xl * q == xl / y && xh * q == xh / y && x * q == x / y by {
      DivIsMulByReciprocal(xl, y, q);
      DivIsMulByReciprocal(xh, y, q);
      DivIsMulByReciprocal(x, y, q);
    }
  }

  /** A quotient with its divisor in a zero-free `[yl, yh]` lies between the two end quotients. */
  lemma DivisorBetweenEnds(c: real, y: real, yl: real, yh: real)
    requires yl <= y <= yh && (0.0 < yl || yh < 0.0)
    ensures Min2(c / yl, c / yh) <= c / y <= Max2(c / yl, c / yh)
  {
    var q, rl, rh := 1.0 / y, 1.0 / yh, 1.0 / yl;
    assert rl <= q <= rh by {
      ReciprocalAntitone(yl, y);
      ReciprocalAntitone(y, yh);
    }
    assert Min2(c * rl, c * rh) <= c * q <= Max2(c * rl, c * rh) by {
      ProductBetweenEnds(q, rl, rh, c);
    }
    assert c * rl == c / yh && c * rh == c / yl && c * q == c / y by {
      DivIsMulByReciprocal(c, yh, rl);
      DivIsMulByReciprocal(c, yl, rh);
      DivIsMulByReciprocal(c, y, q);
    }
  }

  /** A number between two numbers, each between two more, lies between the extremes of those four. */
  lemma BetweenBetween(v: real, s: real, t: real, a: real, b: real, c: real, d: real)
    requires Min2(s, t) <= v <= Max2(s, t)
    requires Min2(a, b) <= s <= Max2(a, b) && Min2(c, d) <= t <= Max2(c, d)
    ensures Min4(a, b, c, d) <= v <= Max4(a, b, c, d)
  {
  }

  /** The quotient of two points of two boxes, the divisor's box free of zero,
    * lies between the corner quotients. */
  lemma QuotientInCorners(x: real, y: real, xl: real, xh: real, yl: real, yh: real)
    requires xl <= x <= xh && yl <= y <= yh
    requires 0.0 < yl || yh < 0.0
    ensures Min4(xl / yl, xl / yh, xh / yl, xh / yh) <= x / y
    ensures x / y <= Max4(xl / yl, xl / yh, xh / yl, xh / yh)
  {
    NumeratorBetweenEnds(x, xl, xh, y);
    DivisorBetweenEnds(xl, y, yl, yh);
    DivisorBetweenEnds(xh, y, yl, yh);
    BetweenBetween(x / y, xl / y, xh / y, xl / yl, xl / yh, xh / yl, xh / yh);
  }
}
