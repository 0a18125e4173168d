/**
 * The outward-rounded interval kernel on decimals (interval_arithmetics.py).
 *
 * Numbers are exact reals, so outward rounding is the identity and each
 * operation is the exact interval image of the real operation.  The kernel
 * never checks `lo <= hi`; neither does the model.
 */
module IntervalArithmetics {
  import opened Common
  import opened RealFacts

  /** An interval `[lo, hi]`; the source's fields are `a` and `b`. */
  datatype Interval = Interval(lo: real, hi: real)

  /** `lo <= hi`. */
  predicate Proper(X: Interval) { X.lo <= X.hi }

  /** `_convert_to_interval` of a number: the point interval `[v, v]`. */
  function Point(v: real): Interval { Interval(v, v) }

  /** `is_in(x, ival)`. */
  predicate IsIn(x: real, X: Interval) { X.lo <= x <= X.hi }

  /**
   * A point interval: the two ends coincide.  This is what
   * `is_dot_interval` means to test; as written it calls `dec.compare`,
   * which the decimal module does not define, so it raises.
   */
  predicate IsDot(X: Interval) { X.lo == X.hi }

  /** `-X`. */
  function Neg(X: Interval): Interval { Interval(-X.hi, -X.lo) }

  /** `X + Y`. */
  function Add(X: Interval, Y: Interval): Interval { Interval(X.lo + Y.lo, X.hi + Y.hi) }

  /** `X - Y`. */
  function Sub(X: Interval, Y: Interval): Interval { Interval(X.lo - Y.hi, X.hi - Y.lo) }

  /** `_my_mul`: the product, with an exact zero when a factor is zero. */
  function MyMul(p: real, q: real): (r: real)
    ensures r == p * q
  {
    if p == 0.0 || q == 0.0 then 0.0 else p * q
  }

  /** `X * Y`: the smallest and largest of the four corner products. */
  function Mul(X: Interval, Y: Interval): (r: Interval)
    ensures Proper(r)
  {
    var aa, ab, ba, bb := MyMul(X.lo, Y.lo), MyMul(X.lo, Y.hi), MyMul(X.hi, Y.lo), MyMul(X.hi, Y.hi);
    Interval(Min4(aa, ab, ba, bb), Max4(aa, ab, ba, bb))
  }

  /** The exponent given to `__pow__`: a Python int or another number. */
  datatype Exponent = IntPower(n: int) | OtherPower(q: real)

  /** `X.sqrt()`: a negative end makes the decimal square root raise. */
  function Sqrt(X: Interval, sqrt: real -> real): (r: Result<Interval>)
    ensures r.Ok? <==> 0.0 <= X.lo && 0.0 <= X.hi
  {
    if X.lo < 0.0 || X.hi < 0.0 then Fail("InvalidOperation")
    else Ok(Interval(sqrt(X.lo), sqrt(X.hi)))
  }

  /** The integer branch of `__pow__` for an exponent of at least 2. */
  function PowInt(X: Interval, n: nat): Interval
    requires n >= 2
  {
    if n % 2 == 0 then
      if X.lo <= 0.0 && X.hi >= 0.0 then
        Interval(0.0, if -X.lo < X.hi then Power(X.hi, n) else Power(X.lo, n))
      else if X.lo > 0.0 then Interval(Power(X.lo, n), Power(X.hi, n))
      else Interval(Power(X.hi, n), Power(X.lo, n))
    else Interval(Power(X.lo, n), Power(X.hi, n))
  }

  /**
   * `X ** e`: a positive int, `1/2` (square root) or `3/2` (square root of
   * the cube); anything else raises `TypeError`.
   */
  function Pow(X: Interval, e: Exponent, sqrt: real -> real): (r: Result<Interval>)
    ensures e.IntPower? ==> (r.Ok? <==> e.n > 0)
    ensures e == IntPower(1) ==> r == Ok(X)
  {
    match e
    case IntPower(n) =>
      if n <= 0 then Fail("TypeError")
      else if n == 1 then Ok(X)
      else Ok(PowInt(X, n))
    case OtherPower(q) =>
      if q == 0.5 then Sqrt(X, sqrt)
      else if q == 1.5 then Sqrt(PowInt(X, 3), sqrt)
      else Fail("TypeError")
  }

  /**
   * What `X / Y` returns: one interval, the whole line `(-inf, inf)`,
   * `None`, a single ray `(-inf, hi]` or `[lo, inf)`, or the pair of rays
   * `[(-inf, hi], [lo, inf)]`.
   */
  datatype Quotient =
    | Bounded(I: Interval)
    | WholeLine
    | NoQuotient
    | LeftRay(upTo: real)
    | RightRay(from: real)
    | TwoRays(leftUpTo: real, rightFrom: real)
    | DivisionByZero

  /** `v` belongs to the set a quotient describes. */
  predicate InQuotient(v: real, q: Quotient)
  {
    match q
    case Bounded(I) => IsIn(v, I)
    case WholeLine => true
    case NoQuotient => false
    case LeftRay(h) => v <= h
    case RightRay(l) => l <= v
    case TwoRays(h, l) => v <= h || l <= v
    case DivisionByZero => true
  }

  /**
   * `X / Y`, the extended interval division of the kernel.  A divisor that
   * lies on one side of zero gives a bounded quotient; only a reversed
   * divisor with a zero end (`[1, 0]`) makes the decimal division raise.
   */
  function Div(X: Interval, Y: Interval): (r: Quotient)
    ensures r.NoQuotient? <==> Y == Point(0.0) && !IsIn(0.0, X)
    ensures r.Bounded? <==> (Y.lo > 0.0 || Y.hi < 0.0) && Y.lo != 0.0 && Y.hi != 0.0
    ensures r.DivisionByZero? ==> !Proper(Y)
  {
    if Y.lo == 0.0 && Y.hi == 0.0 then
      if X.lo <= 0.0 <= X.hi then WholeLine else NoQuotient
    else if Y.lo > 0.0 || Y.hi < 0.0 then
      if Y.lo == 0.0 || Y.hi == 0.0 then DivisionByZero
      else Bounded(Mul(X, Interval(1.0 / Y.hi, 1.0 / Y.lo)))
    else if X.lo <= 0.0 <= X.hi then WholeLine
    else if Y.lo == 0.0 then
      if X.hi < 0.0 then LeftRay(X.hi / Y.hi) else RightRay(X.lo / Y.hi)
    else if Y.hi == 0.0 then
      if X.hi < 0.0 then RightRay(X.hi / Y.lo) else LeftRay(X.lo / Y.lo)
    else if X.hi < 0.0 then TwoRays(X.hi / Y.hi, X.hi / Y.lo)
    else TwoRays(X.lo / Y.lo, X.lo / Y.hi)
  }

  /** `intersect`: `None` when the intervals are disjoint. */
  function Intersect(X: Interval, Y: Interval): (r: Option<Interval>)
    ensures r.None? <==> X.hi < Y.lo || Y.hi < X.lo
  {
    if X.hi < Y.lo || Y.hi < X.lo then None
    else Some(Interval(Max2(X.lo, Y.lo), Min2(X.hi, Y.hi)))
  }

  /** `mid`: the central point of an interval. */
  function Mid(X: Interval): (m: real)
    ensures Proper(X) ==> IsIn(m, X)
    ensures m - X.lo == X.hi - m
  {
    0.5 * (X.lo + X.hi)
  }

  /** `mid_interval`: the point interval at the centre. */
  function MidInterval(X: Interval): (r: Interval)
    ensures IsDot(r) && r.lo == Mid(X)
  {
    Point(0.5 * (X.lo + X.hi))
  }

  /** `wid`: the width of an interval. */
  function Wid(X: Interval): (w: real)
    ensures Proper(X) <==> 0.0 <= w
  {
    X.hi - X.lo
  }

  // Enclosure: each operation applied to points of its operands lands in
  // the resulting interval.

  /** `intersect` is `None` exactly when no point is common, else it holds the common points. */
  lemma IntersectExact(X: Interval, Y: Interval, x: real)
    ensures Intersect(X, Y).None? ==> !(IsIn(x, X) && IsIn(x, Y))
    ensures Intersect(X, Y).Some? ==> (IsIn(x, Intersect(X, Y).value) <==> IsIn(x, X) && IsIn(x, Y))
  {
  }

  lemma NegEncloses(X: Interval, x: real)
    ensures IsIn(x, X) <==> IsIn(-x, Neg(X))
  {
  }

  lemma AddEncloses(X: Interval, Y: Interval, x: real, y: real)
    requires IsIn(x, X) && IsIn(y, Y)
    ensures IsIn(x + y, Add(X, Y))
  {
  }

  lemma SubEncloses(X: Interval, Y: Interval, x: real, y: real)
    requires IsIn(x, X) && IsIn(y, Y)
    ensures IsIn(x - y, Sub(X, Y))
  {
  }

  /** With exact numbers the zero guard of `_my_mul` changes nothing. */
  lemma MulIsCornerRange(X: Interval, Y: Interval)
    ensures Mul(X, Y) == Interval(Min4(X.lo * Y.lo, X.lo * Y.hi, X.hi * Y.lo, X.hi * Y.hi),
                                  Max4(X.lo * Y.lo, X.lo * Y.hi, X.hi * Y.lo, X.hi * Y.hi))
  {
    assert MyMul(X.lo, Y.lo) == X.lo * Y.lo;
    assert MyMul(X.lo, Y.hi) == X.lo * Y.hi;
    assert MyMul(X.hi, Y.lo) == X.hi * Y.lo;
    assert MyMul(X.hi, Y.hi) == X.hi * Y.hi;
  }

  lemma MulEncloses(X: Interval, Y: Interval, x: real, y: real)
    requires IsIn(x, X) && IsIn(y, Y)
    ensures IsIn(x * y, Mul(X, Y))
  {
    MulIsCornerRange(X, Y);
    ProductInCorners(x, y, X.lo, X.hi, Y.lo, Y.hi);
  }

  lemma MulEnclosesProduct(X: Interval, Y: Interval, x: real, y: real, p: real)
    requires IsIn(x, X) && IsIn(y, Y) && p == x * y
    ensures IsIn(p, Mul(X, Y))
  {
    MulEncloses(X, Y, x, y);
  }

  lemma PowIntEncloses(X: Interval, n: nat, x: real)
    requires n >= 2 && IsIn(x, X)
    ensures IsIn(Power(x, n), PowInt(X, n))
  {
    if n % 2 == 0 {
      PowerEvenNonneg(x, n);
      if X.lo <= 0.0 && X.hi >= 0.0 {
        if -X.lo < X.hi {
          PowerMonotoneEven(x, X.hi, n);
        } else {
          PowerMonotoneEven(x, -X.lo, n);
          PowerOfNegation(X.lo, n);
        }
      } else if X.lo > 0.0 {
        PowerMonotoneNonneg(X.lo, x, n);
        PowerMonotoneNonneg(x, X.hi, n);
      } else {
        PowerMonotoneNonneg(-X.hi, -x, n);
        PowerMonotoneNonneg(-x, -X.lo, n);
        PowerOfNegation(x, n);
        PowerOfNegation(X.hi, n);
        PowerOfNegation(X.lo, n);
      }
    } else {
      PowerMonotoneOdd(X.lo, x, n);
      PowerMonotoneOdd(x, X.hi, n);
    }
  }

  /** A positive integer power of an interval encloses the powers of its points. */
  lemma PowEncloses(X: Interval, n: nat, x: real, sqrt: real -> real)
    requires n >= 1 && IsIn(x, X)
    ensures Pow(X, IntPower(n), sqrt).Ok?
    ensures IsIn(Power(x, n), Pow(X, IntPower(n), sqrt).value)
  {
    if n >= 2 {
      PowIntEncloses(X, n, x);
    }
  }

  /** The square root of an interval of non-negative numbers encloses their roots. */
  lemma SqrtEncloses(X: Interval, x: real, sqrt: real -> real)
    requires IsSqrt(sqrt)
    requires 0.0 <= X.lo && IsIn(x, X)
    ensures Sqrt(X, sqrt).Ok? && IsIn(sqrt(x), Sqrt(X, sqrt).value)
  {
    SqrtMonotone(sqrt, X.lo, x);
    SqrtMonotone(sqrt, x, X.hi);
  }

  /** `X ** (3/2)` encloses the root of the cube of each of its points. */
  lemma ThreeHalvesEncloses(X: Interval, x: real, sqrt: real -> real)
    requires IsSqrt(sqrt)
    requires 0.0 <= X.lo && IsIn(x, X)
    ensures Pow(X, OtherPower(1.5), sqrt).Ok?
    ensures IsIn(sqrt(Power(x, 3)), Pow(X, OtherPower(1.5), sqrt).value)
  {
    PowIntEncloses(X, 3, x);
    PowerNonneg(X.lo, 3);
    SqrtEncloses(PowInt(X, 3), Power(x, 3), sqrt);
  }

  /** The reciprocal of a point of a zero-free divisor lies between the end reciprocals. */
  lemma ReciprocalEncloses(Y: Interval, y: real)
    requires IsIn(y, Y) && (Y.lo > 0.0 || Y.hi < 0.0)
    ensures IsIn(1.0 / y, Interval(1.0 / Y.hi, 1.0 / Y.lo))
  {
    ReciprocalAntitone(Y.lo, y);
    ReciprocalAntitone(y, Y.hi);
  }

  /** Dividing by a divisor on one side of zero multiplies by the reciprocals. */
  lemma DivBoundedEncloses(X: Interval, Y: Interval, x: real, y: real)
    requires IsIn(x, X) && IsIn(y, Y)
    requires Y.lo > 0.0 || Y.hi < 0.0
    ensures InQuotient(x / y, Div(X, Y))
  {
    QuotientInProduct(X, Y, x, y);
    DivBoundedForm(X, Y);
  }

  lemma QuotientInProduct(X: Interval, Y: Interval, x: real, y: real)
    requires IsIn(x, X) && IsIn(y, Y)
    requires Y.lo > 0.0 || Y.hi < 0.0
    ensures IsIn(x / y, Mul(X, Interval(1.0 / Y.hi, 1.0 / Y.lo)))
  {
    var R := Interval(1.0 / Y.hi, 1.0 / Y.lo);
    assert IsIn(1.0 / y, R) by {
      ReciprocalEncloses(Y, y);
    }
    assert x / y == x * (1.0 / y) by {
      DivIsMulByReciprocal(x, y, 1.0 / y);
    }
    MulEnclosesProduct(X, R, x, 1.0 / y, x / y);
  }

  lemma DivBoundedForm(X: Interval, Y: Interval)
    requires Y.lo > 0.0 || Y.hi < 0.0
    requires Y.lo != 0.0 && Y.hi != 0.0
    ensures Div(X, Y) == Bounded(Mul(X, Interval(1.0 / Y.hi, 1.0 / Y.lo)))
  {
  }

  /** Dividing a zero-free interval by a divisor that touches zero gives rays. */
  lemma DivRaysEnclose(X: Interval, Y: Interval, x: real, y: real)
    requires IsIn(x, X) && IsIn(y, Y) && y != 0.0
    requires Y.lo <= 0.0 <= Y.hi && !(X.lo <= 0.0 <= X.hi)
    ensures InQuotient(x / y, Div(X, Y))
  {
    if X.hi < 0.0 {
      if y > 0.0 {
        QuotientNegOverPos(x, X.hi, y, Y.hi);
      } else {
        QuotientNegOverNeg(x, X.hi, y, Y.lo);
      }
    } else {
      if y > 0.0 {
        QuotientPosOverPos(x, X.lo, y, Y.hi);
      } else {
        QuotientPosOverNeg(x, X.lo, y, Y.lo);
      }
    }
  }

  /** Division by a nonzero point of the divisor lands in the quotient set. */
  lemma DivEncloses(X: Interval, Y: Interval, x: real, y: real)
    requires IsIn(x, X) && IsIn(y, Y) && y != 0.0
    ensures InQuotient(x / y, Div(X, Y))
  {
    if Y.lo > 0.0 || Y.hi < 0.0 {
      DivBoundedEncloses(X, Y, x, y);
    } else if !(X.lo <= 0.0 <= X.hi) {
      DivRaysEnclose(X, Y, x, y);
    }
  }

  /** Negation is its own inverse. */
  lemma NegInvolution(X: Interval)
    ensures Neg(Neg(X)) == X
  {
  }

  /** The extremes of `p, p, q, q`. */
  lemma ExtremesOfPairs(p: real, q: real)
    ensures Min4(p, p, q, q) == Min2(p, q) && Max4(p, p, q, q) == Max2(p, q)
  {
  }

  /** Scaling two ordered numbers by `k` keeps their order for `k >= 0` and reverses it otherwise. */
  lemma ScaledOrder(lo: real, hi: real, k: real, p: real, q: real)
    requires lo <= hi && p == lo * k && q == hi * k
    ensures k >= 0.0 ==> p <= q
    ensures k < 0.0 ==> q <= p
  {
    assert q - p == (hi - lo) * k;
    if k >= 0.0 { MulNonneg(hi - lo, k); } else { MulNonneg(hi - lo, -k); }
  }

  /** Multiplying by a point scales both ends, swapping them for a negative factor. */
  lemma MulByPoint(X: Interval, k: real)
    requires Proper(X)
    ensures Mul(X, Point(k)) == if k >= 0.0 then Interval(X.lo * k, X.hi * k) else Interval(X.hi * k, X.lo * k)
  {
    var p, q := MyMul(X.lo, k), MyMul(X.hi, k);
    assert Mul(X, Point(k)) == Interval(Min4(p, p, q, q), Max4(p, p, q, q));
    ExtremesOfPairs(p, q);
    ScaledOrder(X.lo, X.hi, k, p, q);
  }

  /** The product of two points is the point of their product. */
  lemma MulPoints(p: real, q: real)
    ensures Mul(Point(p), Point(q)) == Point(p * q)
  {
    MulByPoint(Point(p), q);
  }

  /** Dividing by a non-zero point divides both ends, swapping them for a negative divisor. */
  lemma DivByPoint(X: Interval, d: real)
    requires Proper(X) && d != 0.0
    ensures Div(X, Point(d)) == Bounded(if d > 0.0 then Interval(X.lo / d, X.hi / d) else Interval(X.hi / d, X.lo / d))
  {
    var r := 1.0 / d;
    DivBoundedForm(X, Point(d));
    MulByPoint(X, r);
    assert X.lo * r == X.lo / d && X.hi * r == X.hi / d by {
      DivIsMulByReciprocal(X.lo, d, r);
      DivIsMulByReciprocal(X.hi, d, r);
    }
    ReciprocalSign(d, r);
  }

  /** A reciprocal has the sign of its number. */
  lemma ReciprocalSign(d: real, r: real)
    requires d != 0.0 && r == 1.0 / d
    ensures (d > 0.0) == (r > 0.0) && r != 0.0
  {
    assert r * d == 1.0;
    if d > 0.0 && r <= 0.0 { MulNonneg(-r, d); }
    if d < 0.0 && r >= 0.0 { MulNonneg(r, -d); }
  }
}
