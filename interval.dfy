/**
 * The floating-point interval class of interval.py.
 *
 * An `Interval` object owns a two-element list `x`; the operations that
 * return new intervals are modelled on the value `Ival(x[0], x[1])`, the
 * two that write into the list (`scale`, `__setitem__`) on the class.
 * Floats are exact reals; the IEEE products of zero and infinity that the
 * division can form are reported as `Undetermined`.
 */
module FloatInterval {
  import opened Common
  import opened RealFacts

  /** The value of an interval, `[x[0], x[1]]`. */
  datatype Ival = Ival(lo: real, hi: real)

  /** `v` lies in the interval. */
  predicate Contains(I: Ival, v: real) { I.lo <= v <= I.hi }

  /** `valueToInterval` of a number: `[v, v]`. */
  function ValueToInterval(v: real): Ival
  {
    Ival(v, v)
  }

  /** `mid`. */
  function Mid(I: Ival): (m: real)
    ensures I.lo <= I.hi ==> Contains(I, m)
    ensures m - I.lo == I.hi - m
  {
    0.5 * (I.lo + I.hi)
  }

  /** `width`. */
  function Width(I: Ival): real { I.hi - I.lo }

  /** `I.isIn(J)`: `I` is a sub-interval of `J`. */
  predicate IsIn(I: Ival, J: Ival) { I.lo >= J.lo && I.hi <= J.hi }

  /** `I.isNoIntersec(J)`. */
  predicate IsNoIntersec(I: Ival, J: Ival) { I.lo > J.hi || I.hi < J.lo }

  /** `I.intersec(J)`: raises when `I` itself is reversed. */
  function Intersec(I: Ival, J: Ival): (r: Result<Ival>)
    ensures r.Ok? <==> I.lo <= I.hi
  {
    if I.lo > I.hi then Fail("ValueError")
    else Ok(Ival(Max2(I.lo, J.lo), Min2(I.hi, J.hi)))
  }

  /** `-I`. */
  function Neg(I: Ival): Ival { Ival(-I.hi, -I.lo) }

  /** `I + J`. */
  function Add(I: Ival, J: Ival): Ival { Ival(I.lo + J.lo, I.hi + J.hi) }

  /** `I - J`. */
  function Sub(I: Ival, J: Ival): Ival { Ival(I.lo - J.hi, I.hi - J.lo) }

  /** `I ** n` for a natural exponent. */
  function Pow(I: Ival, n: nat): Ival
  {
    var u, v := Power(I.lo, n), Power(I.hi, n);
    if n == 0 then Ival(1.0, 1.0)
    else if n % 2 == 0 then
      Ival(if I.lo <= 0.0 && I.hi >= 0.0 then 0.0 else Min2(u, v), Max2(u, v))
    else Ival(u, v)
  }

  /** `[min(v), max(v)]` of a four-element list `v`. */
  function Hull4(p: real, q: real, s: real, t: real): (r: Ival)
    ensures r.lo <= r.hi
  {
    Ival(Min4(p, q, s, t), Max4(p, q, s, t))
  }

  /** One entry of the list of corner products that `__mul__` builds. */
  function Corner(p: real, q: real): (r: real)
    ensures r == p * q
  {
    p * q
  }

  /** `I * J`: the smallest and largest corner product. */
  function Mul(I: Ival, J: Ival): Ival
  {
    Hull4(Corner(I.lo, J.lo), Corner(I.lo, J.hi), Corner(I.hi, J.lo), Corner(I.hi, J.hi))
  }

  /** What `I / J` evaluates to. */
  datatype FloatQuotient =
    | Bounded(I: Ival)
    | LeftRay(upTo: real)
    | RightRay(from: real)
    | WholeLine
    | Undetermined
    | DivisionByZero

  /** `v` belongs to the set a quotient describes. */
  predicate InQuotient(v: real, q: FloatQuotient)
  {
    match q
    case Bounded(I) => Contains(I, v)
    case LeftRay(h) => v <= h
    case RightRay(l) => l <= v
    case WholeLine => true
    case Undetermined => true
    case DivisionByZero => true
  }

  /**
   * The product of `I` with a ray `[-inf, r]` (`upper` false) or `[r, inf]`
   * (`upper` true), with `r` of the given sign, as IEEE arithmetic gives it.
   */
  function TimesRay(I: Ival, r: real, upper: bool): FloatQuotient
  {
    if I.lo == 0.0 || I.hi == 0.0 then Undetermined
    else if (I.lo > 0.0) != (I.hi > 0.0) then WholeLine
    else
      // Both ends have the sign of I.lo; the infinite corners share one sign.
      var towardsPlus := (I.lo > 0.0) == upper;
      if towardsPlus then RightRay(Min2(I.lo * r, I.hi * r))
      else LeftRay(Max2(I.lo * r, I.hi * r))
  }

  /** `I / J`. */
  function Div(I: Ival, J: Ival): (r: FloatQuotient)
    ensures r.Bounded? ==> J.lo > 0.0 || J.hi < 0.0
    ensures r.DivisionByZero? <==> (J.lo == 0.0 && J.hi == 0.0) || ((J.lo > 0.0 || J.hi < 0.0) && (J.lo == 0.0 || J.hi == 0.0))
  {
    if !(0.0 >= J.lo && 0.0 <= J.hi) then
      if J.lo == 0.0 || J.hi == 0.0 then DivisionByZero
      else
        Bounded(Hull4(I.lo / J.lo, I.lo / J.hi, I.hi / J.lo, I.hi / J.hi))
    else if J.hi == 0.0 then
      if J.lo == 0.0 then DivisionByZero else TimesRay(I, 1.0 / J.lo, false)
    else if J.lo == 0.0 then TimesRay(I, 1.0 / J.hi, true)
    else WholeLine
  }

  /** A successful intersection holds exactly the common points. */
  lemma IntersecExact(I: Ival, J: Ival, v: real)
    requires I.lo <= I.hi
    ensures Intersec(I, J).Ok?
    ensures Contains(Intersec(I, J).value, v) <==> Contains(I, v) && Contains(J, v)
  {
  }

  /** A number as an interval holds that number and nothing else, and has no width. */
  lemma ValueToIntervalIsPoint(v: real, x: real)
    ensures Contains(ValueToInterval(v), x) <==> x == v
    ensures Width(ValueToInterval(v)) == 0.0 && Mid(ValueToInterval(v)) == v
  {
  }

  /** Sum, difference and negation enclose the sums, differences and negations of their points. */
  lemma AddSubNegEnclose(I: Ival, J: Ival, x: real, y: real)
    requires Contains(I, x) && Contains(J, y)
    ensures Contains(Add(I, J), x + y) && Contains(Sub(I, J), x - y)
    ensures Contains(Neg(I), -x)
    ensures Sub(I, J) == Add(I, Neg(J))
    ensures Width(Add(I, J)) == Width(I) + Width(J) == Width(Sub(I, J))
  {
  }

  /** Negation mirrors membership and is its own inverse. */
  lemma NegMirrors(I: Ival, x: real)
    ensures Contains(Neg(I), x) <==> Contains(I, -x)
    ensures Neg(Neg(I)) == I
  {
  }

  /** `isIn` is containment of the point sets of two proper intervals. */
  lemma IsInIsSubset(I: Ival, J: Ival, v: real)
    ensures IsIn(I, J) && Contains(I, v) ==> Contains(J, v)
    ensures I.lo <= I.hi && !IsIn(I, J) ==> !Contains(J, I.lo) || !Contains(J, I.hi)
  {
  }

  /**
   * `isNoIntersec` of two proper intervals holds exactly when no point is in
   * both: when it fails, the larger lower end is a common point.
   */
  lemma IsNoIntersecIsDisjoint(I: Ival, J: Ival, v: real)
    requires I.lo <= I.hi && J.lo <= J.hi
    ensures IsNoIntersec(I, J) ==> !(Contains(I, v) && Contains(J, v))
    ensures !IsNoIntersec(I, J) ==> Contains(I, Max2(I.lo, J.lo)) && Contains(J, Max2(I.lo, J.lo))
    ensures IsNoIntersec(I, J) <==> Intersec(I, J).value.lo > Intersec(I, J).value.hi
  {
  }

  /** Multiplication encloses the products of the points of its operands. */
  lemma MulEncloses(I: Ival, J: Ival, x: real, y: real)
    requires Contains(I, x) && Contains(J, y)
    ensures Contains(Mul(I, J), x * y)
  {
    MulCorners(I, J);
    ProductInCorners(x, y, I.lo, I.hi, J.lo, J.hi);
  }

  /** The ends of a product are the extreme corner products. */
  lemma MulCorners(I: Ival, J: Ival)
    ensures Mul(I, J) == Ival(Min4(I.lo * J.lo, I.lo * J.hi, I.hi * J.lo, I.hi * J.hi),
                              Max4(I.lo * J.lo, I.lo * J.hi, I.hi * J.lo, I.hi * J.hi))
  {
    assert Corner(I.lo, J.lo) == I.lo * J.lo;
    assert Corner(I.lo, J.hi) == I.lo * J.hi;
    assert Corner(I.hi, J.lo) == I.hi * J.lo;
    assert Corner(I.hi, J.hi) == I.hi * J.hi;
  }

  /** A natural power of an interval encloses the powers of its points. */
  lemma PowEncloses(I: Ival, n: nat, x: real)
    requires Contains(I, x)
    ensures Contains(Pow(I, n), Power(x, n))
  {
    if n == 0 {
    } else if n % 2 == 0 {
      PowerEvenNonneg(x, n);
      PowerOfNegation(I.lo, n);
      if I.lo <= 0.0 && I.hi >= 0.0 {
        if -I.lo <= I.hi {
          PowerMonotoneEven(x, I.hi, n);
        } else {
          PowerMonotoneEven(x, -I.lo, n);
        }
      } else if I.lo > 0.0 {
        PowerMonotoneNonneg(I.lo, x, n);
        PowerMonotoneNonneg(x, I.hi, n);
      } else {
        PowerOfNegation(x, n);
        PowerOfNegation(I.hi, n);
        PowerMonotoneNonneg(-I.hi, -x, n);
        PowerMonotoneNonneg(-x, -I.lo, n);
      }
    } else {
      PowerMonotoneOdd(I.lo, x, n);
      PowerMonotoneOdd(x, I.hi, n);
    }
  }

  lemma DivBoundedForm(I: Ival, J: Ival)
    requires J.lo > 0.0 || J.hi < 0.0
    requires J.lo != 0.0 && J.hi != 0.0
    ensures Div(I, J) == Bounded(Ival(Min4(I.lo / J.lo, I.lo / J.hi, I.hi / J.lo, I.hi / J.hi),
                                      Max4(I.lo / J.lo, I.lo / J.hi, I.hi / J.lo, I.hi / J.hi)))
  {
  }

  /** Division by a zero-free interval encloses the quotients of its points. */
  lemma DivBoundedEncloses(I: Ival, J: Ival, x: real, y: real)
    requires Contains(I, x) && Contains(J, y)
    requires J.lo > 0.0 || J.hi < 0.0
    ensures InQuotient(x / y, Div(I, J))
  {
    DivBoundedForm(I, J);
    QuotientInCorners(x, y, I.lo, I.hi, J.lo, J.hi);
  }

  lemma DivLeftZeroForm(I: Ival, J: Ival)
    requires J.lo == 0.0 && J.hi > 0.0
    ensures Div(I, J) == TimesRay(I, 1.0 / J.hi, true)
  {
  }

  lemma DivRightZeroForm(I: Ival, J: Ival)
    requires J.lo < 0.0 && J.hi == 0.0
    ensures Div(I, J) == TimesRay(I, 1.0 / J.lo, false)
  {
  }

  /** Multiplying a one-signed interval by a ray encloses the quotients. */
  lemma TimesRayEncloses(I: Ival, x: real, y: real, e: real, upper: bool)
    requires Contains(I, x) && I.lo != 0.0 && I.hi != 0.0 && (I.lo > 0.0) == (I.hi > 0.0)
    requires if upper then 0.0 < y <= e else e <= y < 0.0
    ensures InQuotient(x / y, TimesRay(I, 1.0 / e, upper))
  {
    DivIsMulByReciprocal(I.lo, e, 1.0 / e);
    DivIsMulByReciprocal(I.hi, e, 1.0 / e);
    if upper {
      UpperRayEncloses(I, x, y, e);
    } else {
      LowerRayEncloses(I, x, y, e);
    }
  }

  /** The finite end of `[r, inf]` times a one-signed `I`, for a positive divisor. */
  lemma UpperRayEncloses(I: Ival, x: real, y: real, e: real)
    requires Contains(I, x) && I.lo != 0.0 && I.hi != 0.0 && (I.lo > 0.0) == (I.hi > 0.0)
    requires 0.0 < y <= e
    ensures I.lo > 0.0 ==> I.lo / e <= x / y
    ensures I.lo < 0.0 ==> x / y <= I.hi / e
  {
    if I.lo > 0.0 {
      QuotientPosOverPos(x, I.lo, y, e);
    } else {
      QuotientNegOverPos(x, I.hi, y, e);
    }
  }

  /** The finite end of `[-inf, r]` times a one-signed `I`, for a negative divisor. */
  lemma LowerRayEncloses(I: Ival, x: real, y: real, e: real)
    requires Contains(I, x) && I.lo != 0.0 && I.hi != 0.0 && (I.lo > 0.0) == (I.hi > 0.0)
    requires e <= y < 0.0
    ensures I.lo > 0.0 ==> x / y <= I.lo / e
    ensures I.lo < 0.0 ==> I.hi / e <= x / y
  {
    if I.lo > 0.0 {
      QuotientPosOverNeg(x, I.lo, y, e);
    } else {
      QuotientNegOverNeg(x, I.hi, y, e);
    }
  }

  /** Division by an interval with one zero end encloses the quotients, as rays. */
  lemma DivRayEncloses(I: Ival, J: Ival, x: real, y: real)
    requires Contains(I, x) && Contains(J, y) && y != 0.0
    requires J.lo == 0.0 || J.hi == 0.0
    ensures InQuotient(x / y, Div(I, J))
  {
    if J.lo == 0.0 && J.hi == 0.0 {
    } else if J.lo == 0.0 {
      DivLeftZeroForm(I, J);
      if I.lo != 0.0 && I.hi != 0.0 && (I.lo > 0.0) == (I.hi > 0.0) {
        TimesRayEncloses(I, x, y, J.hi, true);
      }
    } else {
      DivRightZeroForm(I, J);
      if I.lo != 0.0 && I.hi != 0.0 && (I.lo > 0.0) == (I.hi > 0.0) {
        TimesRayEncloses(I, x, y, J.lo, false);
      }
    }
  }

  /** Division encloses the quotients of the points of its operands. */
  lemma DivEncloses(I: Ival, J: Ival, x: real, y: real)
    requires Contains(I, x) && Contains(J, y) && y != 0.0
    ensures InQuotient(x / y, Div(I, J))
  {
    if J.lo > 0.0 || J.hi < 0.0 {
      DivBoundedEncloses(I, J, x, y);
    } else if J.lo == 0.0 || J.hi == 0.0 {
      DivRayEncloses(I, J, x, y);
    }
  }

  /** The interval object: a list `x` that `scale` and `__setitem__` overwrite. */
  class Interval {
    var x: seq<real>

    /** `Interval(xs)` keeps a copy of the caller's list. */
    constructor (xs: array<real>)
      ensures x == xs[..]
    {
      x := xs[..];
    }

    predicate Valid()
      reads this
    {
      |x| == 2
    }

    function Value(): Ival
      reads this
      requires Valid()
    {
      Ival(x[0], x[1])
    }

    /** `interval[k]`. */
    function GetItem(k: int): real
      reads this
      requires 0 <= k < |x|
    {
      x[k]
    }

    /** `interval[k] = v`. */
    method SetItem(k: int, v: real)
      requires 0 <= k < |x|
      modifies this
      ensures x == old(x)[k := v]
    {
      x := x[k := v];
    }

    /** `scale(factor)`: keeps the centre and multiplies the width by `factor`. */
    method Scale(factor: real)
      requires Valid()
      modifies this
      ensures Valid()
      ensures Mid(Value()) == old(Mid(Value()))
      ensures Width(Value()) == factor * old(Width(Value()))
    {
      var m := 0.5 * (x[0] + x[1]);
      var r := 0.5 * (x[1] - x[0]);
      x := x[0 := m - factor * r];
      x := x[1 := m + factor * r];
    }
  }
}
