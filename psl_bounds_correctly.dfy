/**
 * The decimal piecewise linear estimator of FZCP/psl_bounds_correctly.py.
 *
 * The values of the objective at the ends are enclosures `FA` and `FB`,
 * and every expression is evaluated in the interval kernel, so the
 * breakpoint `c` is an interval too.  The scalar `fa`, `fb` of the source
 * are the lower ends `FA.lo`, `FB.lo`.
 */
module PslBoundsCorrectly {
  import opened Common
  import opened IntervalArithmetics
  import RealFacts

  /**
   * An estimator.  `cut` is `ival_c`, the kernel's quotient as returned:
   * a bounded interval when the slope bounds differ; for equal bounds the
   * whole line when the numerator may be zero, and `None` otherwise.
   */
  datatype Psl = Psl(a: real, b: real, under: bool, alp: real, bet: real, FA: Interval, FB: Interval, cut: Quotient)

  /** `ival_fa - ival_fb + ival_bet * ival_b - ival_alp * ival_a`. */
  function Numerator(a: real, b: real, alp: real, bet: real, FA: Interval, FB: Interval): Interval
  {
    Sub(Add(Sub(FA, FB), Mul(Point(bet), Point(b))), Mul(Point(alp), Point(a)))
  }

  /**
   * `PSL_Bounds(a, b, alp, bet, ival_fa, ival_fb, under)`.  The
   * over-estimator is the under-estimator of the negated data, with slopes
   * in `[-bet, -alp]`.  The constructor never raises: equal slope bounds
   * divide by the point `[0, 0]`, whose quotient is the whole line or `None`.
   */
  function Build(a: real, b: real, alp: real, bet: real, FA: Interval, FB: Interval, under: bool): (r: Psl)
    ensures r.a == a && r.b == b && r.under == under
    ensures r.cut.Bounded? <==> alp != bet
    ensures alp == bet ==> (r.cut.WholeLine? <==> IsIn(0.0, Numerator(a, b, r.alp, r.bet, r.FA, r.FB)))
    ensures alp == bet ==> (r.cut.NoQuotient? <==> !IsIn(0.0, Numerator(a, b, r.alp, r.bet, r.FA, r.FB)))
  {
    if under then BuildFrom(a, b, alp, bet, FA, FB, true)
    else BuildFrom(a, b, -bet, -alp, Neg(FA), Neg(FB), false)
  }

  /** The estimator of the data as given: the breakpoint is the kernel's quotient. */
  function BuildFrom(a: real, b: real, alp: real, bet: real, FA: Interval, FB: Interval, under: bool): (r: Psl)
    ensures r == Psl(a, b, under, alp, bet, FA, FB, r.cut)
    ensures r.cut.Bounded? <==> alp != bet
    ensures alp == bet ==> (r.cut.WholeLine? <==> IsIn(0.0, Numerator(a, b, alp, bet, FA, FB)))
    ensures alp == bet ==> (r.cut.NoQuotient? <==> !IsIn(0.0, Numerator(a, b, alp, bet, FA, FB)))
  {
    Psl(a, b, under, alp, bet, FA, FB, Div(Numerator(a, b, alp, bet, FA, FB), Point(bet - alp)))
  }

  /** What every built estimator satisfies: the breakpoint is bounded exactly for different slope bounds. */
  predicate Consistent(p: Psl)
  {
    p.cut.Bounded? <==> p.alp != p.bet
  }

  /** `normal_cd`: the linear estimator never rejects its breakpoints. */
  function NormalCd(p: Psl): bool { true }

  /** `estimator_l1`: the left line `ival_fa + ival_alp * (x - a)`. */
  function EstimatorL1(p: Psl, x: real): Interval
  {
    Add(p.FA, Mul(Point(p.alp), Sub(Point(x), Point(p.a))))
  }

  /** `estimator_l2`: the right line `ival_fb + ival_bet * (x - b)`. */
  function EstimatorL2(p: Psl, x: real): Interval
  {
    Add(p.FB, Mul(Point(p.bet), Sub(Point(x), Point(p.b))))
  }

  /**
   * `estimator`: the left line before `c`, the right line after it.  Inside
   * `c` the source takes `max` of two intervals, which have no order, so the
   * call raises; every point is inside the whole line, and a `None`
   * breakpoint has no ends to compare with.
   */
  function Estimator(p: Psl, x: real): (r: Result<Interval>)
    ensures r.Ok? <==> p.cut.Bounded? && (x < p.cut.I.lo || p.cut.I.hi < x)
  {
    match p.cut
    case Bounded(C) =>
      if x < C.lo then Ok(EstimatorL1(p, x))
      else if x > C.hi then Ok(EstimatorL2(p, x))
      else Fail("TypeError")
    case WholeLine => Fail("TypeError")
    case _ => Fail("AttributeError")
  }

  /** `nestimator`. */
  function NEstimator(p: Psl, x: real): (r: Result<Interval>)
    ensures r.Ok? <==> Estimator(p, x).Ok?
    ensures r.Ok? ==> r.value == Neg(Estimator(p, x).value)
  {
    match Estimator(p, x)
    case Ok(v) => Ok(Neg(v))
    case Fail(e) => Fail(e)
  }

  /**
   * `lower_bound_and_point` as written: in the middle case it takes the
   * UPPER end of `c` and the right line there.  The middle case has
   * different slope bounds, hence a bounded breakpoint.
   */
  function LowerBoundAndPoint(p: Psl): (real, real)
    requires Consistent(p)
  {
    var (x, v) :=
      if p.alp >= 0.0 then (p.a, p.FA.lo)
      else if p.bet <= 0.0 then (p.b, p.FB.lo)
      else (p.cut.I.hi, EstimatorL2(p, p.cut.I.hi).lo);
    (x, if p.under then v else -v)
  }

  /** `lower_bound_and_point` with the LOWER end of `c` in the middle case. */
  function LowerBoundAndPointCorrected(p: Psl): (real, real)
    requires Consistent(p)
  {
    var (x, v) :=
      if p.alp >= 0.0 then (p.a, p.FA.lo)
      else if p.bet <= 0.0 then (p.b, p.FB.lo)
      else (p.cut.I.lo, EstimatorL2(p, p.cut.I.lo).lo);
    (x, if p.under then v else -v)
  }

  /**
   * `bound_cross_zero`: whether the minimum's enclosure lies at or below 0.
   * In the first two cases the source reads `.b` of a decimal number and
   * raises.
   */
  function BoundCrossZero(p: Psl): (r: Result<bool>)
    requires Consistent(p)
    ensures r.Ok? <==> p.alp < 0.0 && p.bet > 0.0
    ensures r.Ok? ==> (r.value <==> EstimatorL2(p, p.cut.I.hi).hi <= 0.0)
  {
    if p.alp >= 0.0 || p.bet <= 0.0 then Fail("AttributeError")
    else Ok(EstimatorL2(p, p.cut.I.hi).hi <= 0.0)
  }

  /** `record_and_point`: the end with the smaller lower value, `a` on a tie. */
  function RecordAndPoint(p: Psl): (r: (real, real))
    ensures r.1 <= p.FA.lo && r.1 <= p.FB.lo
    ensures r == (p.a, p.FA.lo) || r == (p.b, p.FB.lo)
    ensures p.FA.lo == p.FB.lo ==> r.0 == p.a
  {
    if p.FA.lo <= p.FB.lo then (p.a, p.FA.lo) else (p.b, p.FB.lo)
  }

  /** An interval whose ends may both be infinite, or the failure of `e - None`. */
  datatype Root = Finite(I: Interval) | Everything | Crash

  /** `ival_e - F / ival_s`: the zeros of the lines through `(e, F)` with slope `s`. */
  function LineRoot(e: real, F: Interval, s: real): Root
  {
    match Div(F, Point(s))
    case Bounded(Q) => Finite(Sub(Point(e), Q))
    case WholeLine => Everything
    case _ => Crash
  }

  /**
   * `x <= ival_c.a` (`low`) or `x <= ival_c.b`, as `Decimal` compares: the
   * whole line has the ends minus and plus infinity, and `None` has no ends.
   */
  function AtMostCut(p: Psl, x: real, low: bool): (r: Option<bool>)
    ensures r.Some? <==> p.cut.Bounded? || p.cut.WholeLine?
    ensures p.cut.Bounded? ==> r == Some(x <= (if low then p.cut.I.lo else p.cut.I.hi))
    ensures p.cut.WholeLine? ==> r == Some(!low)
  {
    match p.cut
    case Bounded(C) => Some(x <= if low then C.lo else C.hi)
    case WholeLine => Some(!low)
    case _ => None
  }

  /** `x >= ival_c.a` (`low`) or `x >= ival_c.b`, likewise. */
  function AtLeastCut(p: Psl, x: real, low: bool): (r: Option<bool>)
    ensures r.Some? <==> p.cut.Bounded? || p.cut.WholeLine?
    ensures p.cut.Bounded? ==> r == Some(x >= (if low then p.cut.I.lo else p.cut.I.hi))
    ensures p.cut.WholeLine? ==> r == Some(low)
  {
    match p.cut
    case Bounded(C) => Some(x >= if low then C.lo else C.hi)
    case WholeLine => Some(low)
    case _ => None
  }

  /** `get_left_end`: the first zero of the estimator, if the left or right line has one. */
  function GetLeftEnd(p: Psl): Answer
  {
    if p.alp >= 0.0 then NoRoot
    else
      match LineRoot(p.a, p.FA, p.alp)
      case Finite(L) =>
        (match AtMostCut(p, L.lo, true)
         case None => Undefined
         case Some(before) =>
           if before then Root(L.lo)
           else if p.bet < 0.0 then
             (match LineRoot(p.b, p.FB, p.bet)
              case Finite(R) => if R.lo <= p.b then Root(R.lo) else NoRoot
              case _ => Undefined)
           else NoRoot)
      case _ => Undefined
  }

  /** `get_right_end_upper_bound`: a zero of the over-estimator, or `b`. */
  function GetRightEndUpperBound(p: Psl): Answer
  {
    var left :=
      if p.alp > 0.0 then
        (match LineRoot(p.a, p.FA, p.alp)
         case Finite(L) =>
           (match AtMostCut(p, L.hi, false)
            case Some(inside) => if inside then Root(L.hi) else NoRoot
            case None => Undefined)
         case _ => Undefined)
      else NoRoot;
    if !left.NoRoot? then left
    else
      match LineRoot(p.b, p.FB, p.bet)
      case Finite(R) =>
        if R.hi <= p.b then
          (match AtLeastCut(p, R.hi, true)
           case Some(inside) => if inside then Root(R.hi) else NoRoot
           case None => Undefined)
        else Root(p.b)
      case Everything => Root(p.b)
      case Crash => Undefined
  }

  /**
   * `get_right_end_under_bound`: the last zero of the under-estimator.  A
   * zero slope `bet` with `0` in `FB` makes the source return `+inf`, and so
   * does a whole-line left root under a whole-line breakpoint; the model
   * reports both as `Undefined`, like the crashes.
   */
  function GetRightEndUnderBound(p: Psl): Answer
  {
    if p.bet < 0.0 then NoRoot
    else
      match LineRoot(p.b, p.FB, p.bet)
      case Finite(R) =>
        (match AtLeastCut(p, R.hi, false)
         case None => Undefined
         case Some(after) =>
           if after then Root(R.hi)
           else
             (match LineRoot(p.a, p.FA, p.alp)
              case Finite(L) =>
                (match AtMostCut(p, L.hi, false)
                 case Some(inside) => if inside then Root(L.hi) else NoRoot
                 case None => Undefined)
              case Everything => if p.cut.WholeLine? then Undefined else NoRoot
              case Crash => Undefined))
      case _ => Undefined
  }

  // ---------------------------------------------------------------------
  // Properties.

  /** The estimator's data: enclosures that are proper intervals. */
  predicate Sound(p: Psl)
  {
    Proper(p.FA) && Proper(p.FB) && p.cut.Bounded? && Proper(p.cut.I) && p.alp != p.bet
  }

  /** Where the lower ends of the two lines cross. */
  function Crossing(p: Psl): (x: real)
    requires p.alp != p.bet
    ensures x * (p.bet - p.alp) == p.FA.lo - p.FB.lo + p.bet * p.b - p.alp * p.a
  {
    (p.FA.lo - p.FB.lo + p.bet * p.b - p.alp * p.a) / (p.bet - p.alp)
  }

  /** A sound estimator with ordered slopes whose breakpoint holds the crossing. */
  predicate Built(p: Psl)
  {
    Sound(p) && p.alp < p.bet && IsIn(Crossing(p), p.cut.I)
  }

  /**
   * The lower envelope the data allow: every function with a value in `FA`
   * at `a`, in `FB` at `b` and slopes in `[alp, bet]` lies above it on `[a, b]`.
   */
  function Envelope(p: Psl, x: real): real
  {
    RealFacts.Max2(p.FA.lo + p.alp * (x - p.a), p.FB.lo + p.bet * (x - p.b))
  }

  /** The envelope lies below every value the data allow at `x`. */
  lemma EnvelopeBelowAllowedValues(p: Psl, x: real, fa: real, fb: real, y: real)
    requires IsIn(fa, p.FA) && IsIn(fb, p.FB)
    requires y - fa >= p.alp * (x - p.a) && y - fb >= p.bet * (x - p.b)
    ensures Envelope(p, x) <= y
  {
  }

  /** The over-estimator is built from the negated data and swapped slope bounds. */
  lemma OverIsNegatedUnder(a: real, b: real, alp: real, bet: real, FA: Interval, FB: Interval)
    requires alp != bet
    ensures Build(a, b, alp, bet, FA, FB, false)
         == Build(a, b, -bet, -alp, Neg(FA), Neg(FB), true).(under := false)
  {
  }

  /** The numerator of the breakpoint, in closed form. */
  lemma NumeratorForm(a: real, b: real, alp: real, bet: real, FA: Interval, FB: Interval)
    ensures Numerator(a, b, alp, bet, FA, FB)
         == Interval(FA.lo - FB.hi + bet * b - alp * a, FA.hi - FB.lo + bet * b - alp * a)
  {
    MulPoints(bet, b);
    MulPoints(alp, a);
  }

  /**
   * The crossing point of any two lines the data allow lies in `c`: the
   * line from `(a, fa)` with slope `alp` meets the line to `(b, fb)` with
   * slope `bet` at a point of the breakpoint enclosure.
   */
  lemma BreakpointEnclosesCrossings(a: real, b: real, alp: real, bet: real, FA: Interval, FB: Interval, fa: real, fb: real)
    requires IsIn(fa, FA) && IsIn(fb, FB) && alp != bet
    ensures var x := (fa - fb + bet * b - alp * a) / (bet - alp);
            IsIn(x, Build(a, b, alp, bet, FA, FB, true).cut.I)
            && fa + alp * (x - a) == fb + bet * (x - b)
  {
    var n := fa - fb + bet * b - alp * a;
    var N := Numerator(a, b, alp, bet, FA, FB);
    assert IsIn(n, N) by {
      NumeratorForm(a, b, alp, bet, FA, FB);
    }
    var x := n / (bet - alp);
    assert x * (bet - alp) == n;
    assert InQuotient(x, Div(N, Point(bet - alp))) by {
      DivEncloses(N, Point(bet - alp), n, bet - alp);
    }
    LinesCross(fa, fb, alp, bet, a, b, x);
  }

  /** Two lines with different slopes meet where the breakpoint formula says. */
  lemma LinesCross(fa: real, fb: real, alp: real, bet: real, a: real, b: real, x: real)
    requires x * (bet - alp) == fa - fb + bet * b - alp * a
    ensures fa + alp * (x - a) == fb + bet * (x - b)
  {
    assert (fa + alp * (x - a)) - (fb + bet * (x - b)) == (fa - fb + bet * b - alp * a) - x * (bet - alp);
  }

  /** The breakpoint enclosure in closed form, for ordered slope bounds. */
  function BreakpointForm(a: real, b: real, alp: real, bet: real, FA: Interval, FB: Interval): Interval
    requires alp < bet
  {
    Interval((FA.lo - FB.hi + bet * b - alp * a) / (bet - alp), (FA.hi - FB.lo + bet * b - alp * a) / (bet - alp))
  }

  /** The kernel computes the breakpoint enclosure `BreakpointForm`. */
  lemma BuildForm(a: real, b: real, alp: real, bet: real, FA: Interval, FB: Interval, under: bool)
    requires Proper(FA) && Proper(FB) && alp < bet
    ensures BuildFrom(a, b, alp, bet, FA, FB, under)
         == Psl(a, b, under, alp, bet, FA, FB, Bounded(BreakpointForm(a, b, alp, bet, FA, FB)))
  {
    var N := Numerator(a, b, alp, bet, FA, FB);
    assert N == Interval(FA.lo - FB.hi + bet * b - alp * a, FA.hi - FB.lo + bet * b - alp * a) by {
      NumeratorForm(a, b, alp, bet, FA, FB);
    }
    DivByPoint(N, bet - alp);
  }

  /** An estimator whose breakpoint is `BreakpointForm` is `Built`. */
  lemma BreakpointFormBuilt(p: Psl)
    requires Proper(p.FA) && Proper(p.FB) && p.alp < p.bet
    requires p.cut == Bounded(BreakpointForm(p.a, p.b, p.alp, p.bet, p.FA, p.FB))
    ensures Built(p)
  {
    var d := p.bet - p.alp;
    var n := p.FA.lo - p.FB.lo + p.bet * p.b - p.alp * p.a;
    RealFacts.QuotientMonotone(p.FA.lo - p.FB.hi + p.bet * p.b - p.alp * p.a, n, d);
    RealFacts.QuotientMonotone(n, p.FA.hi - p.FB.lo + p.bet * p.b - p.alp * p.a, d);
  }

  /** Every estimator `Build` returns from proper enclosures and ordered slopes is `Built`. */
  lemma BuildIsBuilt(a: real, b: real, alp: real, bet: real, FA: Interval, FB: Interval, under: bool)
    requires Proper(FA) && Proper(FB) && alp < bet
    ensures Built(Build(a, b, alp, bet, FA, FB, under))
  {
    if under {
      BuildForm(a, b, alp, bet, FA, FB, true);
    } else {
      BuildForm(a, b, -bet, -alp, Neg(FA), Neg(FB), false);
    }
    BreakpointFormBuilt(Build(a, b, alp, bet, FA, FB, under));
  }

  /** The left line evaluated in the kernel, in closed form. */
  lemma EstimatorL1Form(p: Psl, x: real)
    ensures EstimatorL1(p, x) == Interval(p.FA.lo + p.alp * (x - p.a), p.FA.hi + p.alp * (x - p.a))
  {
    var D := Sub(Point(x), Point(p.a));
    assert D == Point(x - p.a);
    MulPoints(p.alp, x - p.a);
  }

  /** The right line evaluated in the kernel, in closed form. */
  lemma EstimatorL2Form(p: Psl, x: real)
    ensures EstimatorL2(p, x) == Interval(p.FB.lo + p.bet * (x - p.b), p.FB.hi + p.bet * (x - p.b))
  {
    var D := Sub(Point(x), Point(p.b));
    assert D == Point(x - p.b);
    MulPoints(p.bet, x - p.b);
  }

  /** A line with a non-negative slope does not decrease. */
  lemma LineMonotone(f: real, s: real, e: real, x: real, y: real)
    requires x <= y && 0.0 <= s
    ensures f + s * (x - e) <= f + s * (y - e)
  {
    assert (f + s * (y - e)) - (f + s * (x - e)) == s * (y - x);
    RealFacts.MulNonneg(s, y - x);
  }

  /** A line with a non-positive slope does not increase. */
  lemma LineAntitone(f: real, s: real, e: real, x: real, y: real)
    requires x <= y && s <= 0.0
    ensures f + s * (y - e) <= f + s * (x - e)
  {
    assert (f + s * (x - e)) - (f + s * (y - e)) == -s * (y - x);
    RealFacts.MulNonneg(-s, y - x);
  }

  /** Left of their crossing the left line is the larger, right of it the right line. */
  lemma LinesOrder(fa: real, fb: real, alp: real, bet: real, a: real, b: real, x: real, x0: real)
    requires alp < bet && x0 * (bet - alp) == fa - fb + bet * b - alp * a
    ensures x <= x0 ==> fb + bet * (x - b) <= fa + alp * (x - a)
    ensures x0 <= x ==> fa + alp * (x - a) <= fb + bet * (x - b)
  {
    LinesCross(fa, fb, alp, bet, a, b, x0);
    assert (fa + alp * (x - a)) - (fb + bet * (x - b)) == (bet - alp) * (x0 - x);
    if x <= x0 {
      RealFacts.MulNonneg(bet - alp, x0 - x);
    } else {
      RealFacts.MulNonneg(bet - alp, x - x0);
    }
  }

  /**
   * Where the estimator answers, its lower end is the envelope: left of `c`
   * the left line is the larger one, right of `c` the right line.
   */
  lemma EstimatorIsEnvelope(p: Psl, x: real)
    requires Built(p) && Estimator(p, x).Ok?
    ensures Estimator(p, x).value.lo == Envelope(p, x)
  {
    EstimatorL1Form(p, x);
    EstimatorL2Form(p, x);
    LinesOrder(p.FA.lo, p.FB.lo, p.alp, p.bet, p.a, p.b, x, Crossing(p));
  }

  /** The data of the counterexample below build the breakpoint `[1, 1.5]`. */
  lemma CounterexampleBuild(a: real, b: real, alp: real, bet: real, FA: Interval, FB: Interval)
    requires a == 0.0 && b == 2.0 && alp == -1.0 && bet == 1.0
    requires FA == Interval(0.0, 1.0) && FB == Interval(0.0, 0.0)
    ensures Build(a, b, alp, bet, FA, FB, true) == Psl(a, b, true, alp, bet, FA, FB, Bounded(Interval(1.0, 1.5)))
  {
    BuildForm(a, b, alp, bet, FA, FB, true);
    assert BreakpointForm(a, b, alp, bet, FA, FB) == Interval(1.0, 1.5);
  }

  /**
   * As written, `lower_bound_and_point` can report a value above the
   * envelope's minimum: for `a = 0`, `b = 2`, slopes in `[-1, 1]`,
   * `FA = [0, 1]` and `FB = [0, 0]` the breakpoint is `[1, 1.5]` (see
   * `CounterexampleBuild`) and it reports `-0.5`, while the envelope (and
   * a function the data allow) reaches `-1` at `x = 1`.
   */
  lemma LowerBoundAndPointMissesMinimum(p: Psl)
    requires p.a == 0.0 && p.b == 2.0 && p.alp == -1.0 && p.bet == 1.0 && p.under
    requires p.FA == Interval(0.0, 1.0) && p.FB == Interval(0.0, 0.0) && p.cut == Bounded(Interval(1.0, 1.5))
    ensures Built(p)
    ensures LowerBoundAndPoint(p).1 == -0.5 && Envelope(p, 1.0) == -1.0
    ensures LowerBoundAndPointCorrected(p).1 == -1.0
  {
    EstimatorL2Form(p, 1.5);
    EstimatorL2Form(p, 1.0);
    assert Crossing(p) == 1.0;
  }

  /** The value the corrected `lower_bound_and_point` reports, before the sign of the mode. */
  lemma CorrectedValue(p: Psl)
    requires Consistent(p)
    ensures var v := LowerBoundAndPointCorrected(p).1;
            (if p.under then v else -v)
            == if p.alp >= 0.0 then p.FA.lo
               else if p.bet <= 0.0 then p.FB.lo
               else p.FB.lo + p.bet * (p.cut.I.lo - p.b)
  {
    if p.cut.Bounded? {
      EstimatorL2Form(p, p.cut.I.lo);
    }
  }

  /**
   * With the lower end of `c`, the reported value bounds the envelope from
   * below on all of `[a, b]` (from above, negated, for the over-estimator).
   */
  lemma CorrectedLowerBound(p: Psl, x: real)
    requires Built(p) && p.a <= x <= p.b
    ensures var v := LowerBoundAndPointCorrected(p).1;
            (if p.under then v else -v) <= Envelope(p, x)
  {
    CorrectedValue(p);
    if p.alp >= 0.0 {
      LineMonotone(p.FA.lo, p.alp, p.a, p.a, x);
    } else if p.bet <= 0.0 {
      RealFacts.MulNonneg(-p.bet, p.b - x);
    } else {
      MiddleCaseBound(p, x);
    }
  }

  /** The middle case of `CorrectedLowerBound`. */
  lemma MiddleCaseBound(p: Psl, x: real)
    requires Built(p) && p.alp < 0.0 < p.bet
    ensures p.FB.lo + p.bet * (p.cut.I.lo - p.b) <= Envelope(p, x)
  {
    LinesCross(p.FA.lo, p.FB.lo, p.alp, p.bet, p.a, p.b, Crossing(p));
    RightLineAtBreakpointBound(p.FA.lo, p.FB.lo, p.alp, p.bet, p.a, p.b, p.cut.I.lo, Crossing(p), x);
  }

  /**
   * With a falling left line and a rising right line that cross at `x0`,
   * the right line at any point `cl` left of `x0` lies below both lines'
   * maximum everywhere.
   */
  lemma RightLineAtBreakpointBound(fa: real, fb: real, alp: real, bet: real, a: real, b: real, cl: real, x0: real, x: real)
    requires alp < 0.0 < bet && fa + alp * (x0 - a) == fb + bet * (x0 - b) && cl <= x0
    ensures fb + bet * (cl - b) <= RealFacts.Max2(fa + alp * (x - a), fb + bet * (x - b))
  {
    if x >= cl {
      LineMonotone(fb, bet, b, cl, x);
    } else {
      // Left of cl, hence of the crossing, the left line lies above its value there.
      LineAntitone(fa, alp, a, x, x0);
      LineMonotone(fb, bet, b, cl, x0);
    }
  }

  /** The zero of the line through `(e, v)` with slope `s`. */
  function LineZero(e: real, v: real, s: real): (z: real)
    requires s != 0.0
    ensures v + s * (z - e) == 0.0
  {
    assert s * (v / s) == v;
    e - v / s
  }

  /**
   * With a non-zero slope `s`, the kernel's `e - F / s` runs between the
   * zeros of the lines through `(e, F.lo)` and `(e, F.hi)`.
   */
  lemma LineRootForm(e: real, F: Interval, s: real)
    requires Proper(F) && s != 0.0
    ensures LineRoot(e, F, s)
         == Finite(if s > 0.0 then Interval(LineZero(e, F.hi, s), LineZero(e, F.lo, s))
                   else Interval(LineZero(e, F.lo, s), LineZero(e, F.hi, s)))
  {
    DivByPoint(F, s);
  }

  /** A flat line through a value that may be zero vanishes everywhere; otherwise the source fails. */
  lemma LineRootFlat(e: real, F: Interval)
    ensures LineRoot(e, F, 0.0) == if IsIn(0.0, F) then Everything else Crash
  {
  }

  /**
   * `get_left_end`: nothing for a rising left line; otherwise the zero of
   * the left lower line when it lies left of `c`, else, for a falling right
   * line, the zero of the right lower line when it lies left of `b`.  It
   * never fails on sound data.
   */
  lemma GetLeftEndForm(p: Psl)
    requires Sound(p)
    ensures GetLeftEnd(p)
         == if p.alp >= 0.0 then NoRoot
            else if LineZero(p.a, p.FA.lo, p.alp) <= p.cut.I.lo then Root(LineZero(p.a, p.FA.lo, p.alp))
            else if p.bet < 0.0 then
              (if LineZero(p.b, p.FB.lo, p.bet) <= p.b then Root(LineZero(p.b, p.FB.lo, p.bet)) else NoRoot)
            else NoRoot
  {
    if p.alp < 0.0 {
      LineRootForm(p.a, p.FA, p.alp);
      if p.bet < 0.0 {
        LineRootForm(p.b, p.FB, p.bet);
      }
    }
  }

  /**
   * `get_right_end_under_bound`: nothing for a falling right line; for a
   * rising one, the zero of the right lower line when it lies right of `c`,
   * else the larger zero of the left lines when it lies left of `c`.
   */
  lemma GetRightEndUnderBoundForm(p: Psl)
    requires Sound(p) && p.bet != 0.0 && p.alp != 0.0
    ensures GetRightEndUnderBound(p)
         == if p.bet < 0.0 then NoRoot
            else if LineZero(p.b, p.FB.lo, p.bet) >= p.cut.I.hi then Root(LineZero(p.b, p.FB.lo, p.bet))
            else
              var l := if p.alp > 0.0 then LineZero(p.a, p.FA.lo, p.alp) else LineZero(p.a, p.FA.hi, p.alp);
              if l <= p.cut.I.hi then Root(l) else NoRoot
  {
    if p.bet > 0.0 {
      LineRootForm(p.b, p.FB, p.bet);
      LineRootForm(p.a, p.FA, p.alp);
    }
  }

  /**
   * A flat slope bound: a flat right line makes `get_right_end_under_bound`
   * fail or report an infinite end; a flat left line after a right zero
   * inside `c` reports nothing when `FA` may be zero, and fails otherwise.
   */
  lemma GetRightEndUnderBoundFlat(p: Psl)
    requires Sound(p)
    ensures p.bet == 0.0 ==> GetRightEndUnderBound(p) == Undefined
    ensures p.bet > 0.0 && p.alp == 0.0 && LineZero(p.b, p.FB.lo, p.bet) < p.cut.I.hi ==>
      GetRightEndUnderBound(p) == if IsIn(0.0, p.FA) then NoRoot else Undefined
  {
    if p.bet == 0.0 {
      LineRootFlat(p.b, p.FB);
    } else if p.bet > 0.0 && p.alp == 0.0 {
      LineRootForm(p.b, p.FB, p.bet);
      LineRootFlat(p.a, p.FA);
    }
  }

  /**
   * `get_right_end_upper_bound`: for a rising left line, its lower zero when
   * that lies left of `c`; otherwise the upper zero of the right lines when
   * it lies between `c` and `b`, nothing when it lies left of `c`, and `b`
   * itself when it lies right of `b`.
   */
  lemma GetRightEndUpperBoundForm(p: Psl)
    requires Sound(p) && p.bet != 0.0
    ensures GetRightEndUpperBound(p)
         == if p.alp > 0.0 && LineZero(p.a, p.FA.lo, p.alp) <= p.cut.I.hi then Root(LineZero(p.a, p.FA.lo, p.alp))
            else
              var r := if p.bet > 0.0 then LineZero(p.b, p.FB.lo, p.bet) else LineZero(p.b, p.FB.hi, p.bet);
              if r <= p.b then (if r >= p.cut.I.lo then Root(r) else NoRoot) else Root(p.b)
  {
    if p.alp > 0.0 {
      LineRootForm(p.a, p.FA, p.alp);
    }
    LineRootForm(p.b, p.FB, p.bet);
  }

  /** With a flat right line, `get_right_end_upper_bound` falls back to `b`, or fails. */
  lemma GetRightEndUpperBoundFlat(p: Psl)
    requires Sound(p) && p.bet == 0.0 && !(p.alp > 0.0 && LineZero(p.a, p.FA.lo, p.alp) <= p.cut.I.hi)
    ensures GetRightEndUpperBound(p) == if IsIn(0.0, p.FB) then Root(p.b) else Undefined
  {
    if p.alp > 0.0 {
      LineRootForm(p.a, p.FA, p.alp);
    }
    LineRootFlat(p.b, p.FB);
  }

  /**
   * Equal slope bounds and a numerator that may vanish give the whole line
   * as breakpoint.  No point lies left of its lower end or right of its
   * upper end: the estimator raises everywhere, `get_left_end` goes on to
   * the right line, and the right-end query under the bound takes the left
   * lines' zero.
   */
  lemma WholeLineBreakpoint(p: Psl, x: real)
    requires p.cut.WholeLine? && Proper(p.FA) && Proper(p.FB)
    ensures Estimator(p, x).Fail?
    ensures p.alp < 0.0 ==>
              GetLeftEnd(p) == if p.bet < 0.0 && LineZero(p.b, p.FB.lo, p.bet) <= p.b then Root(LineZero(p.b, p.FB.lo, p.bet))
                               else NoRoot
    ensures p.bet > 0.0 && p.alp != 0.0 ==>
              GetRightEndUnderBound(p) == Root(if p.alp > 0.0 then LineZero(p.a, p.FA.lo, p.alp) else LineZero(p.a, p.FA.hi, p.alp))
  {
    if p.alp != 0.0 {
      LineRootForm(p.a, p.FA, p.alp);
    }
    if p.bet != 0.0 {
      LineRootForm(p.b, p.FB, p.bet);
    }
  }

  /**
   * Equal slope bounds and a numerator away from zero leave the breakpoint
   * `None`: the estimator raises, and `get_left_end` answers only when it
   * returns before reading `c`.
   */
  lemma MissingBreakpoint(p: Psl, x: real)
    requires p.cut.NoQuotient? && Proper(p.FA)
    ensures Estimator(p, x).Fail?
    ensures GetLeftEnd(p) == if p.alp >= 0.0 then NoRoot else Undefined
  {
    if p.alp < 0.0 {
      LineRootForm(p.a, p.FA, p.alp);
    }
  }

  /**
   * A linear objective with slope `k > 0` and its exact slope enclosure
   * `[k, k]`: the numerator is `[0, 0]`, so the breakpoint is the whole
   * line, and the last zero under the bound is the zero of the objective.
   */
  lemma LinearObjective(a: real, b: real, k: real, fa: real, p: Psl)
    requires k > 0.0 && p == Build(a, b, k, k, Point(fa), Point(fa + k * (b - a)), true)
    ensures p.cut == WholeLine
    ensures GetRightEndUnderBound(p) == Root(LineZero(a, fa, k))
  {
    var FA, FB := Point(fa), Point(fa + k * (b - a));
    assert p.cut == WholeLine by {
      NumeratorForm(a, b, k, k, FA, FB);
      assert fa - (fa + k * (b - a)) + k * b - k * a == 0.0;
    }
    WholeLineBreakpoint(p, a);
  }
}
