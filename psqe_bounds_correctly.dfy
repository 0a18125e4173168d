/**
 * The decimal piecewise quadratic estimator of
 * FZCP/psqe_bounds_correctly.py.
 *
 * The values and slopes of the objective at the ends are enclosures, and
 * every expression is evaluated in the interval kernel, so the breakpoints
 * `c` and `d` are intervals too.  Its main property: every point estimator
 * of module `Psqe` built from numbers inside the enclosures has its
 * breakpoints, its pieces, its slopes and the roots of its pieces inside
 * the intervals computed here.
 */
module PsqeBoundsCorrectly {
  import opened Common
  import opened IntervalArithmetics
  import RealFacts
  import Psqe
  import PsqeUnder
  import PslBoundsCorrectly
  import PsqeBounds

  /** A built estimator: the data after the mode is applied, and the breakpoint intervals. */
  datatype Est = Est(a: real, b: real, under: bool, alp: real, bet: real,
                     FA: Interval, FB: Interval, DFA: Interval, DFB: Interval,
                     C: Interval, D: Interval)

  /** `X ** 2`. */
  function Sq(X: Interval): Interval { PowInt(X, 2) }

  /** `ival_dfb - ival_dfa - ival_alp * (ival_b - ival_a)`: `delt` times `bet - alp`. */
  function SlopeGap(a: real, b: real, alp: real, DFA: Interval, DFB: Interval): Interval
  {
    Sub(Sub(DFB, DFA), Mul(Point(alp), Sub(Point(b), Point(a))))
  }

  /** `ival_alp * (ival_b - ival_a) + ival_dfa - ival_dfb`, the negated `SlopeGap`. */
  function FirstTermNumerator(a: real, b: real, alp: real, DFA: Interval, DFB: Interval): Interval
  {
    Sub(Add(Mul(Point(alp), Sub(Point(b), Point(a))), DFA), DFB)
  }

  /** `ival_fa - ival_fb + ival_b * ival_dfb - ival_a * ival_dfa + ival_alp * (ival_a ** 2 - ival_b ** 2) / 2`. */
  function SecondTermNumerator(a: real, b: real, alp: real, FA: Interval, FB: Interval,
                               DFA: Interval, DFB: Interval): Option<Interval>
  {
    match Div(Mul(Point(alp), Sub(Sq(Point(a)), Sq(Point(b)))), Point(2.0))
    case Bounded(H) => Some(Add(Sub(Add(Sub(FA, FB), Mul(Point(b), DFB)), Mul(Point(a), DFA)), H))
    case _ => None
  }

  /**
   * What the constructor leaves: an estimator with bounded breakpoints, an
   * estimator whose breakpoint `c` or `d` reaches an infinity (a quotient
   * is a ray or the whole line; see `UnboundedIsNotNormal`), or a raise.
   * `lowC` says that the lower end of `c` is minus infinity.
   */
  datatype Construction = Ready(est: Est) | Unbounded(lowC: bool) | Raises

  /** A quotient the kernel's `+` accepts: an interval, possibly with infinite ends. */
  predicate Addable(q: Quotient)
  {
    q.Bounded? || q.WholeLine? || q.LeftRay? || q.RightRay?
  }

  /**
   * The constructor.  Over mode builds the under-estimator of `-f`: curvature
   * bounds `-bet, -alp` and negated enclosures.
   */
  function Build(a: real, b: real, alp: real, bet: real, FA: Interval, FB: Interval,
                 DFA: Interval, DFB: Interval, under: bool): (r: Construction)
    ensures r.Ready? ==> r.est.a == a && r.est.b == b && r.est.under == under
    ensures r.Ready? && under ==> r.est.alp == alp && r.est.bet == bet
    ensures r.Ready? && under ==> r.est.FA == FA && r.est.FB == FB && r.est.DFA == DFA && r.est.DFB == DFB
    ensures r.Ready? && !under ==> r.est.alp == -bet && r.est.bet == -alp
    ensures r.Ready? && !under ==> r.est.FA == Neg(FA) && r.est.FB == Neg(FB)
                                   && r.est.DFA == Neg(DFA) && r.est.DFB == Neg(DFB)
    ensures r.Ready? ==> alp != bet
  {
    if under then BuildFrom(a, b, alp, bet, FA, FB, DFA, DFB, true)
    else BuildFrom(a, b, RealFacts.Negated(bet), RealFacts.Negated(alp), Neg(FA), Neg(FB), Neg(DFA), Neg(DFB), false)
  }

  /** `delt`: the quotient of `SlopeGap` by `bet - alp`. */
  function DeltQuotient(a: real, b: real, alp: real, bet: real, DFA: Interval, DFB: Interval): Quotient
  {
    Div(SlopeGap(a, b, alp, DFA, DFB), Sub(Point(bet), Point(alp)))
  }

  /** The first term of `c`: a quotient by `2 (bet - alp)`. */
  function FirstTerm(a: real, b: real, alp: real, bet: real, DFA: Interval, DFB: Interval): Quotient
  {
    Div(FirstTermNumerator(a, b, alp, DFA, DFB), Mul(Point(2.0), Sub(Point(bet), Point(alp))))
  }

  /** The second term of `c`: a quotient by `SlopeGap`, or the failure of its numerator. */
  function SecondTerm(a: real, b: real, alp: real, FA: Interval, FB: Interval, DFA: Interval, DFB: Interval): Quotient
  {
    match SecondTermNumerator(a, b, alp, FA, FB, DFA, DFB)
    case Some(N2) => Div(N2, SlopeGap(a, b, alp, DFA, DFB))
    case None => NoQuotient
  }

  /**
   * The estimator of the data as given.  `delt` is a quotient by
   * `bet - alp`, and `c` is the sum of a quotient by `2 (bet - alp)` and a
   * quotient by `SlopeGap`; `d = c + delt`.  The estimator has bounded
   * breakpoints when all three quotients are bounded.  A quotient that is
   * `None` or a pair of rays makes the sums raise; rays and the whole line
   * add up to breakpoints with an infinite end.
   */
  function BuildFrom(a: real, b: real, alp: real, bet: real, FA: Interval, FB: Interval,
                     DFA: Interval, DFB: Interval, under: bool): (r: Construction)
    ensures r.Ready? ==> r.est == Est(a, b, under, alp, bet, FA, FB, DFA, DFB, r.est.C, r.est.D)
    ensures r.Ready? ==> alp != bet
    ensures r.Raises? <==> !Addable(DeltQuotient(a, b, alp, bet, DFA, DFB))
                           || !Addable(FirstTerm(a, b, alp, bet, DFA, DFB))
                           || !Addable(SecondTerm(a, b, alp, FA, FB, DFA, DFB))
    ensures r.Unbounded? ==> (r.lowC <==> ReachesMinusInfinity(FirstTerm(a, b, alp, bet, DFA, DFB))
                                          || ReachesMinusInfinity(SecondTerm(a, b, alp, FA, FB, DFA, DFB)))
  {
    var delt, t1, t2 := DeltQuotient(a, b, alp, bet, DFA, DFB), FirstTerm(a, b, alp, bet, DFA, DFB),
                        SecondTerm(a, b, alp, FA, FB, DFA, DFB);
    if delt.Bounded? && t1.Bounded? && t2.Bounded? then
      var C := Add(t1.I, t2.I);
      Ready(Est(a, b, under, alp, bet, FA, FB, DFA, DFB, C, Add(C, delt.I)))
    else if Addable(delt) && Addable(t1) && Addable(t2) then Unbounded(ReachesMinusInfinity(t1) || ReachesMinusInfinity(t2))
    else Raises
  }

  /** The quotient has minus infinity as its lower end. */
  predicate ReachesMinusInfinity(q: Quotient) { q.WholeLine? || q.LeftRay? }

  /** The quotient has plus infinity as its upper end. */
  predicate ReachesPlusInfinity(q: Quotient) { q.WholeLine? || q.RightRay? }

  /**
   * An unbounded construction fails `normal_cd`: either a term of `c`
   * reaches minus infinity, so `c.a > a` is false, or a term of `c` or
   * `delt` reaches plus infinity, so `d.b < b` is false.  (`delt` alone
   * cannot be a left ray: it shares its divisor `bet - alp` with the first
   * term, and a point divisor gives a bounded quotient, the whole line or
   * `None`.)
   */
  lemma UnboundedIsNotNormal(a: real, b: real, alp: real, bet: real, FA: Interval, FB: Interval,
                             DFA: Interval, DFB: Interval, under: bool)
    requires BuildFrom(a, b, alp, bet, FA, FB, DFA, DFB, under).Unbounded?
    ensures var t1, t2 := FirstTerm(a, b, alp, bet, DFA, DFB), SecondTerm(a, b, alp, FA, FB, DFA, DFB);
            ReachesMinusInfinity(t1) || ReachesMinusInfinity(t2)
            || ReachesPlusInfinity(t1) || ReachesPlusInfinity(t2)
            || ReachesPlusInfinity(DeltQuotient(a, b, alp, bet, DFA, DFB))
  {
    var k := Sub(Point(bet), Point(alp));
    assert k == Point(bet - alp);
    assert Mul(Point(2.0), k) == Point(2.0 * (bet - alp)) by {
      MulPoints(2.0, bet - alp);
    }
  }

  /** `normal_cd`: both breakpoints lie strictly inside `(a, b)`. */
  predicate NormalCd(e: Est) { e.C.lo > e.a && e.D.hi < e.b }

  /**
   * `V + S * H + 0.5 * k * H ** 2` evaluated in the kernel: the parabola
   * with value `V`, slope `S` and curvature `k`, at offset `H`.
   */
  function ParabI(V: Interval, S: Interval, k: real, H: Interval): Interval
  {
    Add(Add(V, Mul(S, H)), Mul(Mul(Point(0.5), Point(k)), Sq(H)))
  }

  /** `S + k * H` evaluated in the kernel: the slope of that parabola. */
  function SlopeI(S: Interval, k: real, H: Interval): Interval
  {
    Add(S, Mul(Point(k), H))
  }

  /** `S ** 2 - 2 * k * V` evaluated in the kernel: the discriminant of that parabola. */
  function DiscI(S: Interval, k: real, V: Interval): Interval
  {
    Sub(Sq(S), Mul(Mul(Point(2.0), Point(k)), V))
  }

  /** `estimator_q1`. */
  function EstimatorQ1(e: Est, X: Interval): Interval
  {
    ParabI(e.FA, e.DFA, e.alp, Sub(X, Point(e.a)))
  }

  /**
   * `estimator_q2`: the kernel evaluates the value and slope of the first
   * piece at `C`, then continues with curvature `bet`.
   */
  function EstimatorQ2(e: Est, X: Interval): Interval
  {
    ParabI(EstimatorQ1(e, e.C), EstdQ1(e, e.C), e.bet, Sub(X, e.C))
  }

  /** `estimator_q3`. */
  function EstimatorQ3(e: Est, X: Interval): Interval
  {
    ParabI(e.FB, e.DFB, e.alp, Sub(X, Point(e.b)))
  }

  /** `estd_q1`: the slope of the first piece. */
  function EstdQ1(e: Est, X: Interval): Interval
  {
    SlopeI(e.DFA, e.alp, Sub(X, Point(e.a)))
  }

  /** `estd_q2`. */
  function EstdQ2(e: Est, X: Interval): Interval
  {
    SlopeI(EstdQ1(e, e.C), e.bet, Sub(X, e.C))
  }

  /** `estd_q3`. */
  function EstdQ3(e: Est, X: Interval): Interval
  {
    SlopeI(e.DFB, e.alp, Sub(X, Point(e.b)))
  }

  /** `estimators_derivative`: the piece is chosen by the upper end of `X`. */
  function EstimatorsDerivative(e: Est, X: Interval): (r: Interval)
    ensures X.hi < e.C.lo ==> r == EstdQ1(e, X)
    ensures e.C.lo <= X.hi < e.D.lo ==> r == EstdQ2(e, X)
    ensures e.C.lo <= X.hi && e.D.lo <= X.hi ==> r == EstdQ3(e, X)
  {
    if X.hi < e.C.lo then EstdQ1(e, X)
    else if X.hi < e.D.lo then EstdQ2(e, X)
    else EstdQ3(e, X)
  }

  /**
   * `under_est_der_le_0`: the slope enclosure may be negative at the first
   * argument and positive at the second.
   */
  predicate UnderEstDerLe0(e: Est, X1: Interval, X2: Interval)
  {
    EstimatorsDerivative(e, X1).lo < 0.0 && EstimatorsDerivative(e, X2).hi > 0.0
  }

  /**
   * `estimator`: the first piece at `x` for `x <= c.a`.  Past that point
   * the source compares the number `x` with the interval `ival_d`, which
   * the kernel's interval does not support, so the call raises.
   */
  function Estimator(e: Est, x: real): (r: Result<Interval>)
    ensures r.Ok? <==> x <= e.C.lo
    ensures r.Ok? ==> r.value == EstimatorQ1(e, Point(x))
  {
    if x <= e.C.lo then Ok(EstimatorQ1(e, Point(x))) else Fail("TypeError")
  }

  /** `nestimator`: the negated `estimator`, raising where it does. */
  function NEstimator(e: Est, x: real): (r: Result<Interval>)
    ensures r.Ok? <==> Estimator(e, x).Ok?
    ensures r.Ok? ==> r.value == Neg(Estimator(e, x).value)
  {
    match Estimator(e, x)
    case Ok(V) => Ok(Neg(V))
    case Fail(err) => Fail(err)
  }

  /**
   * `self.fa`: the lower end of the caller's enclosure of `f(a)`, negated
   * in over mode, where the stored enclosure is the negated one.
   */
  function Fa(e: Est): real { if e.under then e.FA.lo else e.FA.hi }

  /** `self.fb`, likewise. */
  function Fb(e: Est): real { if e.under then e.FB.lo else e.FB.hi }

  /** `record_and_point`: the end with the smaller stored value, `a` on a tie. */
  function RecordAndPoint(e: Est): (r: (real, real))
    ensures r.1 <= Fa(e) && r.1 <= Fb(e)
    ensures r == (e.a, Fa(e)) || r == (e.b, Fb(e))
    ensures Fa(e) == Fb(e) ==> r.0 == e.a
  {
    if Fa(e) <= Fb(e) then (e.a, Fa(e)) else (e.b, Fb(e))
  }

  /** `delta_first`. */
  function DeltaFirst(e: Est): Interval
  {
    DiscI(e.DFA, e.alp, e.FA)
  }

  /**
   * The value of the first piece at `C` as `delta_second` writes it, with
   * `ival_alp / 2`: a quotient by the point `2`, which is the point `alp / 2`.
   */
  function HalfParabI(V: Interval, S: Interval, k: real, H: Interval): Interval
  {
    Add(Add(V, Mul(S, H)), Mul(Point(k / 2.0), Sq(H)))
  }

  /** `delta_second`. */
  function DeltaSecond(e: Est): Interval
  {
    DiscI(EstdQ1(e, e.C), e.bet, HalfParabI(e.FA, e.DFA, e.alp, Sub(e.C, Point(e.a))))
  }

  /** `delta_third`. */
  function DeltaThird(e: Est): Interval
  {
    DiscI(e.DFB, e.alp, e.FB)
  }

  /** The in-place `d.a = 0` when the lower end of a discriminant is negative. */
  function ClampLow(D: Interval): (r: Interval)
    ensures r.hi == D.hi && 0.0 <= r.lo && (0.0 <= D.lo ==> r == D)
  {
    if D.lo < 0.0 then Interval(0.0, D.hi) else D
  }

  /**
   * `e + N / k` for a curvature `k`: a bounded interval when `k != 0`; the
   * whole line when `k == 0` and `N` holds `0`; otherwise the sum with the
   * `None` the kernel divides into, which raises.
   */
  function Shifted(e: Interval, N: Interval, k: real): (r: PslBoundsCorrectly.Root)
    ensures k != 0.0 ==> r.Finite?
  {
    match Div(N, Point(k))
    case Bounded(Q) => PslBoundsCorrectly.Finite(Add(e, Q))
    case WholeLine => PslBoundsCorrectly.Everything
    case _ => PslBoundsCorrectly.Crash
  }

  /** A root formula `e + (-s -/+ sqrt(D)) / k`; a negative end of `D` makes the decimal root raise. */
  function RootOf(e: Interval, S: Interval, k: real, D: Interval, left: bool,
                  sqrt: real -> real): (r: PslBoundsCorrectly.Root)
    ensures r.Crash? ==> D.lo < 0.0 || D.hi < 0.0 || k == 0.0
  {
    match Sqrt(D, sqrt)
    case Ok(R) => Shifted(e, if left then Sub(Neg(S), R) else Add(Neg(S), R), k)
    case Fail(_) => PslBoundsCorrectly.Crash
  }

  /** `root_first_left`. */
  function RootFirstLeft(e: Est, D: Interval, sqrt: real -> real): PslBoundsCorrectly.Root
  {
    RootOf(Point(e.a), e.DFA, e.alp, D, true, sqrt)
  }

  /** `root_second_left`: its `-dfa - alp (c - a)` is minus the slope `EstdQ1` at `c`. */
  function RootSecondLeft(e: Est, D: Interval, sqrt: real -> real): PslBoundsCorrectly.Root
  {
    RootOf(e.C, Add(e.DFA, Mul(Point(e.alp), Sub(e.C, Point(e.a)))), e.bet, D, true, sqrt)
  }

  /** `root_third_left`. */
  function RootThirdLeft(e: Est, D: Interval, sqrt: real -> real): PslBoundsCorrectly.Root
  {
    RootOf(Point(e.b), e.DFB, e.alp, D, true, sqrt)
  }

  /** `root_first_right`. */
  function RootFirstRight(e: Est, D: Interval, sqrt: real -> real): PslBoundsCorrectly.Root
  {
    RootOf(Point(e.a), e.DFA, e.alp, D, false, sqrt)
  }

  /** `root_second_right`. */
  function RootSecondRight(e: Est, D: Interval, sqrt: real -> real): PslBoundsCorrectly.Root
  {
    RootOf(e.C, Add(e.DFA, Mul(Point(e.alp), Sub(e.C, Point(e.a)))), e.bet, D, false, sqrt)
  }

  /** `root_third_right`. */
  function RootThirdRight(e: Est, D: Interval, sqrt: real -> real): PslBoundsCorrectly.Root
  {
    RootOf(Point(e.b), e.DFB, e.alp, D, false, sqrt)
  }

  /**
   * The lower end of a root, lifted to `floor` when below it (an infinite
   * lower end always is), then checked against the `assert res <= ceiling`
   * of the source when there is one.
   */
  function LiftLow(r: PslBoundsCorrectly.Root, floor: real, ceiling: Option<real>): (ans: Answer)
    ensures !ans.NoRoot?
    ensures ans.Root? ==> floor <= ans.x
    ensures ans.Root? && ceiling.Some? ==> ans.x <= ceiling.value || ans.x == floor
  {
    match r
    case Crash => Undefined
    case Everything => Root(floor)
    case Finite(I) =>
      if I.lo < floor then Root(floor)
      else if ceiling.Some? && I.lo > ceiling.value then Undefined
      else Root(I.lo)
  }

  /**
   * The upper end of a root, cut to `ceiling` when above it (an infinite
   * upper end always is), then checked against the `assert floor <= res`
   * of the source.
   */
  function CutHigh(r: PslBoundsCorrectly.Root, floor: real, ceiling: real): (ans: Answer)
    ensures !ans.NoRoot?
    ensures ans.Root? ==> ans.x <= ceiling
    ensures ans.Root? ==> floor <= ans.x || ans.x == ceiling
  {
    match r
    case Crash => Undefined
    case Everything => Root(ceiling)
    case Finite(I) =>
      if I.hi > ceiling then Root(ceiling)
      else if I.hi < floor then Undefined
      else Root(I.hi)
  }

  /**
   * The lower or upper end of a root when it lies in `[lo, hi]`; `NoRoot`
   * (go on with the next piece) otherwise, and for an infinite end.
   */
  function Accept(r: PslBoundsCorrectly.Root, low: bool, lo: real, hi: real): (ans: Answer)
    ensures ans.Root? ==> lo <= ans.x <= hi
    ensures ans.Root? ==> r.Finite? && ans.x == (if low then r.I.lo else r.I.hi)
    ensures ans.Undefined? <==> r.Crash?
  {
    match r
    case Crash => Undefined
    case Everything => NoRoot
    case Finite(I) =>
      var v := if low then I.lo else I.hi;
      if lo <= v <= hi then Root(v) else NoRoot
  }

  /** The first answer that is not `NoRoot`. */
  function OrElse(first: Answer, next: Answer): Answer
  {
    if first.NoRoot? then next else first
  }

  /** `get_left_end`: the first root of the under-estimator, scanning the pieces from the left. */
  function GetLeftEnd(e: Est, sqrt: real -> real): (r: Answer)
  {
    if e.C.lo < e.a then Root(e.a)
    else
      var A, B := Point(e.a), Point(e.b);
      var first :=
        if EstimatorQ1(e, e.C).lo <= 0.0 then LiftLow(RootFirstLeft(e, ClampLow(DeltaFirst(e)), sqrt), e.a, None)
        else if UnderEstDerLe0(e, A, e.C) && DeltaFirst(e).lo >= 0.0 then
          Accept(RootFirstLeft(e, DeltaFirst(e), sqrt), true, e.a, e.C.hi)
        else NoRoot;
      var second :=
        if EstimatorQ3(e, e.D).lo <= 0.0 then LiftLow(RootSecondLeft(e, ClampLow(DeltaSecond(e)), sqrt), e.C.lo, None)
        else if UnderEstDerLe0(e, e.C, e.D) && DeltaSecond(e).lo >= 0.0 then
          Accept(RootSecondLeft(e, DeltaSecond(e), sqrt), true, e.C.lo, e.D.hi)
        else NoRoot;
      var third :=
        if EstimatorQ3(e, B).lo <= 0.0 then LiftLow(RootThirdLeft(e, ClampLow(DeltaThird(e)), sqrt), e.D.lo, Some(e.b))
        else if UnderEstDerLe0(e, e.D, B) && DeltaThird(e).lo >= 0.0 then
          Accept(RootThirdLeft(e, DeltaThird(e), sqrt), true, e.D.lo, e.b)
        else NoRoot;
      OrElse(first, OrElse(second, third))
  }

  /**
   * `get_right_end_upper_bound`: the first root of the over-estimator, its
   * pieces scanned from the left; `b` when no piece yields one.
   */
  function GetRightEndUpperBound(e: Est, sqrt: real -> real): (r: Answer)
  {
    if e.C.lo < e.a then Root(e.b)
    else
      var A, B := Point(e.a), Point(e.b);
      var first :=
        if EstimatorQ1(e, e.C).lo >= 0.0 then CutHigh(RootFirstRight(e, ClampLow(DeltaFirst(e)), sqrt), e.a, e.C.hi)
        else if UnderEstDerLe0(e, A, e.C) && DeltaFirst(e).lo >= 0.0 then
          Accept(RootFirstRight(e, DeltaFirst(e), sqrt), false, e.a, e.C.hi)
        else NoRoot;
      var second :=
        if EstimatorQ3(e, e.D).lo >= 0.0 then
          if !(DeltaSecond(e).lo >= 0.0) then Root(e.D.hi)
          else CutHigh(RootSecondRight(e, DeltaSecond(e), sqrt), e.C.lo, e.D.hi)
        else if UnderEstDerLe0(e, e.C, e.D) && DeltaSecond(e).lo >= 0.0 then
          Accept(RootSecondRight(e, DeltaSecond(e), sqrt), false, e.C.lo, e.D.hi)
        else NoRoot;
      var third :=
        if EstimatorQ3(e, B).lo >= 0.0 then CutHigh(RootThirdRight(e, DeltaThird(e), sqrt), e.D.lo, e.b)
        else if UnderEstDerLe0(e, e.D, B) && DeltaThird(e).lo >= 0.0 then
          Accept(RootThirdRight(e, DeltaThird(e), sqrt), false, e.D.lo, e.b)
        else NoRoot;
      OrElse(first, OrElse(second, OrElse(third, Root(e.b))))
  }

  /**
   * `get_right_end_under_bound`: the last root of the under-estimator,
   * scanning the pieces from the right; `b` when `d` reaches past `b`.
   */
  function GetRightEndUnderBound(e: Est, sqrt: real -> real): (r: Answer)
  {
    if e.D.hi > e.b then Root(e.b)
    else
      var A, B := Point(e.a), Point(e.b);
      var third :=
        if EstimatorQ3(e, e.D).lo <= 0.0 then CutHigh(RootThirdRight(e, ClampLow(DeltaThird(e)), sqrt), e.D.lo, e.b)
        else if UnderEstDerLe0(e, e.D, B) then
          Accept(RootThirdRight(e, ClampLow(DeltaThird(e)), sqrt), false, e.D.lo, e.b)
        else NoRoot;
      var second :=
        if EstimatorQ1(e, e.C).lo <= 0.0 then
          if !(DeltaSecond(e).lo >= 0.0) then Root(e.D.hi)
          else CutHigh(RootSecondRight(e, DeltaSecond(e), sqrt), e.C.lo, e.D.hi)
        else if UnderEstDerLe0(e, e.C, e.D) then
          Accept(RootSecondRight(e, ClampLow(DeltaSecond(e)), sqrt), false, e.C.lo, e.D.hi)
        else NoRoot;
      var first :=
        if EstimatorQ1(e, A).lo <= 0.0 then CutHigh(RootFirstRight(e, ClampLow(DeltaFirst(e)), sqrt), e.a, e.C.hi)
        else if UnderEstDerLe0(e, A, e.C) then
          Accept(RootFirstRight(e, ClampLow(DeltaFirst(e)), sqrt), false, e.a, e.C.hi)
        else NoRoot;
      OrElse(third, OrElse(second, first))
  }

  /**
   * The right end under the bound never passes `b` when the breakpoint
   * `c` stays left of `b`; a root of the first piece is cut at `c.hi`,
   * so a wider `c` can carry it past `b`.
   */
  lemma RightEndUnderWithinB(e: Est, sqrt: real -> real)
    requires e.C.hi <= e.b
    ensures GetRightEndUnderBound(e, sqrt).Root? ==> GetRightEndUnderBound(e, sqrt).x <= e.b
  {
  }

  // ---------------------------------------------------------------------
  // Enclosure of the point estimator
  // ---------------------------------------------------------------------

  /**
   * `p` is a point estimator whose data lie in the enclosures of `e`: same
   * ends and curvatures, values, slopes and breakpoints inside the intervals.
   */
  predicate Encloses(e: Est, p: Psqe.Psqe)
  {
    p.a == e.a && p.b == e.b && p.alp == e.alp && p.bet == e.bet
    && IsIn(p.fa, e.FA) && IsIn(p.fb, e.FB) && IsIn(p.dfa, e.DFA) && IsIn(p.dfb, e.DFB)
    && IsIn(p.c, e.C) && IsIn(p.d, e.D)
  }

  lemma PowerTwo(x: real)
    ensures RealFacts.Power(x, 2) == x * x
  {
    assert RealFacts.Power(x, 1) == x;
  }

  /** `X ** 2` encloses the square of every point of `X`. */
  lemma SqEncloses(X: Interval, x: real)
    requires IsIn(x, X)
    ensures IsIn(x * x, Sq(X))
  {
    PowIntEncloses(X, 2, x);
    PowerTwo(x);
  }

  /** A bounded quotient encloses the quotient of enclosed numbers. */
  lemma BoundedQuotientEncloses(X: Interval, Y: Interval, x: real, y: real)
    requires IsIn(x, X) && IsIn(y, Y) && Div(X, Y).Bounded?
    ensures y != 0.0 && IsIn(x / y, Div(X, Y).I)
  {
    DivEncloses(X, Y, x, y);
  }

  /**
   * The closed form of `c` that the decimal constructor evaluates: with
   * `N = dfb - dfa - alp (b - a)`, `k = bet - alp` and `M` the second
   * numerator, `c = -N / (2 k) + M / N`.
   */
  lemma BreakpointSplit(N: real, k: real, delt: real, M: real, cnum: real, c: real)
    requires k != 0.0 && N != 0.0 && delt * k == N
    requires cnum == -0.5 * delt * N + M
    requires c * (delt * k) == cnum
    ensures c == (-N) / (2.0 * k) + M / N
  {
    assert c * N == -0.5 * delt * N + M;
    assert c == -0.5 * delt + M / N;
    assert delt == N / k;
  }

  /** The numerator of `c` in the split form. */
  lemma NumeratorSplit(a: real, b: real, alp: real, bet: real, fa: real, fb: real,
                       dfa: real, dfb: real, delt: real)
    requires delt * (bet - alp) == dfb - dfa - alp * (b - a)
    ensures Psqe.CNumerator(a, b, alp, bet, fa, fb, dfa, dfb, delt)
         == -0.5 * delt * (dfb - dfa - alp * (b - a))
            + (fa - fb + b * dfb - a * dfa + alp * (a * a - b * b) / 2.0)
  {
    assert 0.5 * delt * delt * (bet - alp) == 0.5 * delt * (dfb - dfa - alp * (b - a));
  }

  /**
   * The float breakpoints in the split form: `c = -N / (2 k) + M / N` and
   * `d = c + N / k`, the float constructor succeeding when `k` and `N` are
   * not zero.
   */
  lemma PointBreakpoints(a: real, b: real, alp: real, bet: real, fa: real, fb: real, dfa: real, dfb: real)
    requires bet - alp != 0.0 && dfb - dfa - alp * (b - a) != 0.0
    ensures Psqe.Build(a, b, alp, bet, fa, fb, dfa, dfb).Ok?
    ensures var p := Psqe.Build(a, b, alp, bet, fa, fb, dfa, dfb).value;
            var k, N := bet - alp, dfb - dfa - alp * (b - a);
            p.c == (-N) / (2.0 * k) + (fa - fb + b * dfb - a * dfa + alp * (a * a - b * b) / 2.0) / N
            && p.d == p.c + N / k
  {
    var k, N := bet - alp, dfb - dfa - alp * (b - a);
    var M := fa - fb + b * dfb - a * dfa + alp * (a * a - b * b) / 2.0;
    var delt := Psqe.Delt(a, b, alp, bet, dfa, dfb);
    assert delt == N / k;
    var p := Psqe.Build(a, b, alp, bet, fa, fb, dfa, dfb).value;
    var cnum := Psqe.CNumerator(a, b, alp, bet, fa, fb, dfa, dfb, delt);
    assert p.c * (delt * k) == cnum;
    NumeratorSplit(a, b, alp, bet, fa, fb, dfa, dfb, delt);
    BreakpointSplit(N, k, delt, M, cnum, p.c);
  }

  /** The slope gap encloses its point value. */
  lemma SlopeGapEncloses(a: real, b: real, alp: real, DFA: Interval, DFB: Interval, dfa: real, dfb: real)
    requires IsIn(dfa, DFA) && IsIn(dfb, DFB)
    ensures IsIn(dfb - dfa - alp * (b - a), SlopeGap(a, b, alp, DFA, DFB))
    ensures IsIn(alp * (b - a) + dfa - dfb, FirstTermNumerator(a, b, alp, DFA, DFB))
  {
    SubEncloses(DFB, DFA, dfb, dfa);
    SubEncloses(Point(b), Point(a), b, a);
    MulEncloses(Point(alp), Sub(Point(b), Point(a)), alp, b - a);
    SubEncloses(Sub(DFB, DFA), Mul(Point(alp), Sub(Point(b), Point(a))), dfb - dfa, alp * (b - a));
    AddEncloses(Mul(Point(alp), Sub(Point(b), Point(a))), DFA, alp * (b - a), dfa);
    SubEncloses(Add(Mul(Point(alp), Sub(Point(b), Point(a))), DFA), DFB, alp * (b - a) + dfa, dfb);
  }

  /** `ival_alp * (ival_a ** 2 - ival_b ** 2) / 2` is bounded and encloses its point value. */
  lemma HalfSquaresEncloses(a: real, b: real, alp: real)
    ensures Div(Mul(Point(alp), Sub(Sq(Point(a)), Sq(Point(b)))), Point(2.0))
            == Bounded(Point(alp * (a * a - b * b) / 2.0))
  {
    SqPoint(a);
    SqPoint(b);
    HalfDifference(alp, a * a, b * b, Sq(Point(a)), Sq(Point(b)));
  }

  lemma HalfDifference(alp: real, x: real, y: real, X: Interval, Y: Interval)
    requires X == Point(x) && Y == Point(y)
    ensures Div(Mul(Point(alp), Sub(X, Y)), Point(2.0)) == Bounded(Point(alp * (x - y) / 2.0))
  {
    assert Sub(X, Y) == Point(x - y);
    MulPoints(alp, x - y);
    DivByPoint(Point(alp * (x - y)), 2.0);
  }

  /** The square of a point is the point of the square. */
  lemma SqPoint(a: real)
    ensures Sq(Point(a)) == Point(a * a)
  {
    SqEncloses(Point(a), a);
  }

  /** The second numerator encloses its point value. */
  lemma SecondTermEncloses(a: real, b: real, alp: real, FA: Interval, FB: Interval,
                           DFA: Interval, DFB: Interval, fa: real, fb: real, dfa: real, dfb: real)
    requires IsIn(fa, FA) && IsIn(fb, FB) && IsIn(dfa, DFA) && IsIn(dfb, DFB)
    ensures SecondTermNumerator(a, b, alp, FA, FB, DFA, DFB).Some?
    ensures IsIn(fa - fb + b * dfb - a * dfa + alp * (a * a - b * b) / 2.0,
                 SecondTermNumerator(a, b, alp, FA, FB, DFA, DFB).value)
  {
    HalfSquaresEncloses(a, b, alp);
    var H := Div(Mul(Point(alp), Sub(Sq(Point(a)), Sq(Point(b)))), Point(2.0)).I;
    SubEncloses(FA, FB, fa, fb);
    MulEncloses(Point(b), DFB, b, dfb);
    AddEncloses(Sub(FA, FB), Mul(Point(b), DFB), fa - fb, b * dfb);
    MulEncloses(Point(a), DFA, a, dfa);
    SubEncloses(Add(Sub(FA, FB), Mul(Point(b), DFB)), Mul(Point(a), DFA), fa - fb + b * dfb, a * dfa);
    AddEncloses(Sub(Add(Sub(FA, FB), Mul(Point(b), DFB)), Mul(Point(a), DFA)), H,
                fa - fb + b * dfb - a * dfa, alp * (a * a - b * b) / 2.0);
  }

  /**
   * The decimal constructor encloses the float one: when the interval
   * estimator exists, every choice of numbers in the enclosures gives a
   * point estimator (no division by zero) whose breakpoints lie in `C` and
   * `D`.
   */
  lemma BuildFromEncloses(a: real, b: real, alp: real, bet: real, FA: Interval, FB: Interval,
                          DFA: Interval, DFB: Interval, under: bool,
                          fa: real, fb: real, dfa: real, dfb: real)
    requires BuildFrom(a, b, alp, bet, FA, FB, DFA, DFB, under).Ready?
    requires IsIn(fa, FA) && IsIn(fb, FB) && IsIn(dfa, DFA) && IsIn(dfb, DFB)
    ensures Psqe.Build(a, b, alp, bet, fa, fb, dfa, dfb).Ok?
    ensures Encloses(BuildFrom(a, b, alp, bet, FA, FB, DFA, DFB, under).est,
                     Psqe.Build(a, b, alp, bet, fa, fb, dfa, dfb).value)
  {
    var e := BuildFrom(a, b, alp, bet, FA, FB, DFA, DFB, under).est;
    var k, N := bet - alp, dfb - dfa - alp * (b - a);
    var M := fa - fb + b * dfb - a * dfa + alp * (a * a - b * b) / 2.0;
    var K := Sub(Point(bet), Point(alp));
    var G := SlopeGap(a, b, alp, DFA, DFB);
    SubEncloses(Point(bet), Point(alp), bet, alp);
    SlopeGapEncloses(a, b, alp, DFA, DFB, dfa, dfb);
    SecondTermEncloses(a, b, alp, FA, FB, DFA, DFB, fa, fb, dfa, dfb);
    var N2 := SecondTermNumerator(a, b, alp, FA, FB, DFA, DFB).value;
    var K2 := Mul(Point(2.0), K);
    MulEncloses(Point(2.0), K, 2.0, k);
    assert Div(G, K).Bounded? && Div(FirstTermNumerator(a, b, alp, DFA, DFB), K2).Bounded?
           && Div(N2, G).Bounded?;
    BoundedQuotientEncloses(G, K, N, k);
    BoundedQuotientEncloses(FirstTermNumerator(a, b, alp, DFA, DFB), K2, -N, 2.0 * k);
    BoundedQuotientEncloses(N2, G, M, N);
    var T1, T2, Dl := Div(FirstTermNumerator(a, b, alp, DFA, DFB), K2).I, Div(N2, G).I, Div(G, K).I;
    assert e.C == Add(T1, T2) && e.D == Add(e.C, Dl);
    PointBreakpoints(a, b, alp, bet, fa, fb, dfa, dfb);
    var p := Psqe.Build(a, b, alp, bet, fa, fb, dfa, dfb).value;
    var delt := N / k;
    AddEncloses(T1, T2, (-N) / (2.0 * k), M / N);
    AddEncloses(e.C, Dl, p.c, delt);
  }

  /**
   * With the mode applied: the decimal estimator encloses the (corrected)
   * float estimator of module `PsqeBounds` built from any numbers in the
   * enclosures, in under mode and, on the negated data, in over mode.
   */
  lemma BuildEncloses(a: real, b: real, alp: real, bet: real, FA: Interval, FB: Interval,
                      DFA: Interval, DFB: Interval, under: bool,
                      fa: real, fb: real, dfa: real, dfb: real)
    requires Build(a, b, alp, bet, FA, FB, DFA, DFB, under).Ready?
    requires IsIn(fa, FA) && IsIn(fb, FB) && IsIn(dfa, DFA) && IsIn(dfb, DFB)
    ensures PsqeBounds.Build(a, b, alp, bet, fa, fb, dfa, dfb, under).Ok?
    ensures Encloses(Build(a, b, alp, bet, FA, FB, DFA, DFB, under).est,
                     PsqeBounds.Build(a, b, alp, bet, fa, fb, dfa, dfb, under).value.est)
  {
    if under {
      UnderEncloses(a, b, alp, bet, FA, FB, DFA, DFB, fa, fb, dfa, dfb);
    } else {
      OverEncloses(a, b, alp, bet, FA, FB, DFA, DFB, fa, fb, dfa, dfb);
    }
  }

  lemma UnderEncloses(a: real, b: real, alp: real, bet: real, FA: Interval, FB: Interval,
                      DFA: Interval, DFB: Interval, fa: real, fb: real, dfa: real, dfb: real)
    requires Build(a, b, alp, bet, FA, FB, DFA, DFB, true).Ready?
    requires IsIn(fa, FA) && IsIn(fb, FB) && IsIn(dfa, DFA) && IsIn(dfb, DFB)
    ensures PsqeBounds.Build(a, b, alp, bet, fa, fb, dfa, dfb, true).Ok?
    ensures Encloses(Build(a, b, alp, bet, FA, FB, DFA, DFB, true).est,
                     PsqeBounds.Build(a, b, alp, bet, fa, fb, dfa, dfb, true).value.est)
  {
    var e := Build(a, b, alp, bet, FA, FB, DFA, DFB, true);
    var e' := BuildFrom(a, b, alp, bet, FA, FB, DFA, DFB, true);
    assert e == e';
    BuildFromEncloses(a, b, alp, bet, FA, FB, DFA, DFB, true, fa, fb, dfa, dfb);
  }

  lemma OverEncloses(a: real, b: real, alp: real, bet: real, FA: Interval, FB: Interval,
                     DFA: Interval, DFB: Interval, fa: real, fb: real, dfa: real, dfb: real)
    requires Build(a, b, alp, bet, FA, FB, DFA, DFB, false).Ready?
    requires IsIn(fa, FA) && IsIn(fb, FB) && IsIn(dfa, DFA) && IsIn(dfb, DFB)
    ensures PsqeBounds.Build(a, b, alp, bet, fa, fb, dfa, dfb, false).Ok?
    ensures Encloses(Build(a, b, alp, bet, FA, FB, DFA, DFB, false).est,
                     PsqeBounds.Build(a, b, alp, bet, fa, fb, dfa, dfb, false).value.est)
  {
    OverIsNegatedUnder(a, b, alp, bet, FA, FB, DFA, DFB);
    PsqeBounds.OverIsNegatedUnder(a, b, alp, bet, fa, fb, dfa, dfb);
    NegEncloses(FA, fa);
    NegEncloses(FB, fb);
    NegEncloses(DFA, dfa);
    NegEncloses(DFB, dfb);
    UnderEncloses(a, b, RealFacts.Negated(bet), RealFacts.Negated(alp), Neg(FA), Neg(FB), Neg(DFA), Neg(DFB),
                  RealFacts.Negated(fa), RealFacts.Negated(fb), RealFacts.Negated(dfa), RealFacts.Negated(dfb));
  }

  /** Over mode is under mode on the negated data, curvature bounds `[-bet, -alp]`. */
  lemma OverIsNegatedUnder(a: real, b: real, alp: real, bet: real, FA: Interval, FB: Interval,
                           DFA: Interval, DFB: Interval)
    ensures Build(a, b, alp, bet, FA, FB, DFA, DFB, false).Ready?
            == Build(a, b, RealFacts.Negated(bet), RealFacts.Negated(alp), Neg(FA), Neg(FB), Neg(DFA), Neg(DFB), true).Ready?
    ensures Build(a, b, alp, bet, FA, FB, DFA, DFB, false).Unbounded?
            == Build(a, b, RealFacts.Negated(bet), RealFacts.Negated(alp), Neg(FA), Neg(FB), Neg(DFA), Neg(DFB), true).Unbounded?
    ensures Build(a, b, alp, bet, FA, FB, DFA, DFB, false).Ready? ==>
            Build(a, b, alp, bet, FA, FB, DFA, DFB, false).est
            == Build(a, b, RealFacts.Negated(bet), RealFacts.Negated(alp), Neg(FA), Neg(FB), Neg(DFA), Neg(DFB), true).est.(under := false)
  {
  }

  // ---------------------------------------------------------------------
  // Enclosure of the pieces, slopes, discriminants and roots
  // ---------------------------------------------------------------------

  /** A difference of enclosed numbers, named. */
  lemma DiffEncloses(X: Interval, E: Interval, x: real, e0: real, H: Interval, h: real)
    requires IsIn(x, X) && IsIn(e0, E) && H == Sub(X, E) && h == x - e0
    ensures IsIn(h, H)
  {
    SubEncloses(X, E, x, e0);
  }

  /**
   * The interval parabola `V + S H + 0.5 k H ** 2` encloses the value at
   * offset `h` of the parabola with value `v`, slope `s` and curvature `k`.
   */
  lemma ParabEncloses(V: Interval, S: Interval, k: real, H: Interval, v: real, s: real, h: real, r: real)
    requires IsIn(v, V) && IsIn(s, S) && IsIn(h, H) && r == v + s * h + 0.5 * k * h * h
    ensures IsIn(r, ParabI(V, S, k, H))
  {
    LinearPartEncloses(V, S, H, v, s, h);
    CurvaturePartEncloses(k, H, h);
  }

  /** `V + S * H`. */
  lemma LinearPartEncloses(V: Interval, S: Interval, H: Interval, v: real, s: real, h: real)
    requires IsIn(v, V) && IsIn(s, S) && IsIn(h, H)
    ensures IsIn(v + s * h, Add(V, Mul(S, H)))
  {
    MulEncloses(S, H, s, h);
  }

  /** `0.5 * k * H ** 2`. */
  lemma CurvaturePartEncloses(k: real, H: Interval, h: real)
    requires IsIn(h, H)
    ensures IsIn(0.5 * k * h * h, Mul(Mul(Point(0.5), Point(k)), Sq(H)))
  {
    SqEncloses(H, h);
    MulPoints(0.5, k);
    MulEnclosesProduct(Point(0.5 * k), Sq(H), 0.5 * k, h * h, 0.5 * k * h * h);
  }

  /** The interval slope `S + k H`. */
  lemma SlopeEncloses(S: Interval, k: real, H: Interval, s: real, h: real, r: real)
    requires IsIn(s, S) && IsIn(h, H) && r == s + k * h
    ensures IsIn(r, SlopeI(S, k, H))
  {
    MulEncloses(Point(k), H, k, h);
  }

  /** `estimator_q1` encloses the first piece. */
  lemma FirstPieceEncloses(e: Est, p: Psqe.Psqe, X: Interval, x: real)
    requires Encloses(e, p) && IsIn(x, X)
    ensures IsIn(Psqe.Q1(p, x), EstimatorQ1(e, X))
  {
    var H, h := Sub(X, Point(e.a)), x - p.a;
    DiffEncloses(X, Point(e.a), x, p.a, H, h);
    ParabEncloses(e.FA, e.DFA, e.alp, H, p.fa, p.dfa, h, Psqe.Q1(p, x));
  }

  /**
   * Where `estimator` answers, it encloses the first piece of every point
   * estimator it encloses, and so the point estimator's value left of
   * `c.a`; `nestimator` encloses the negated value.
   */
  lemma EstimatorEncloses(e: Est, p: Psqe.Psqe, x: real)
    requires Encloses(e, p) && Estimator(e, x).Ok?
    ensures IsIn(Psqe.Q1(p, x), Estimator(e, x).value)
    ensures x < e.C.lo ==> IsIn(Psqe.Underestimator(p, x), Estimator(e, x).value)
    ensures IsIn(-Psqe.Q1(p, x), NEstimator(e, x).value)
  {
    FirstPieceEncloses(e, p, Point(x), x);
    NegEncloses(Estimator(e, x).value, Psqe.Q1(p, x));
  }

  /**
   * In under mode the stored values are the lower ends of the enclosures,
   * so the record is at most the record of every enclosed point estimator.
   */
  lemma RecordBelowPointRecord(e: Est, p: Psqe.Psqe)
    requires Encloses(e, p) && e.under
    ensures RecordAndPoint(e).1 <= PsqeUnder.RecordAndPoint(p).1
  {
  }

  /** `estd_q1` encloses the slope of the first piece. */
  lemma FirstSlopeEncloses(e: Est, p: Psqe.Psqe, X: Interval, x: real)
    requires Encloses(e, p) && IsIn(x, X)
    ensures IsIn(Psqe.D1(p, x), EstdQ1(e, X))
  {
    var H, h := Sub(X, Point(e.a)), x - p.a;
    DiffEncloses(X, Point(e.a), x, p.a, H, h);
    SlopeEncloses(e.DFA, e.alp, H, p.dfa, h, Psqe.D1(p, x));
  }

  /** `estimator_q2` encloses the middle piece. */
  lemma SecondPieceEncloses(e: Est, p: Psqe.Psqe, X: Interval, x: real)
    requires Encloses(e, p) && IsIn(x, X)
    ensures IsIn(Psqe.Q2(p, x), EstimatorQ2(e, X))
  {
    FirstPieceEncloses(e, p, e.C, p.c);
    FirstSlopeEncloses(e, p, e.C, p.c);
    var G, g := Sub(X, e.C), x - p.c;
    DiffEncloses(X, e.C, x, p.c, G, g);
    var v, s, r := Psqe.Q1(p, p.c), Psqe.D1(p, p.c), Psqe.Q2(p, x);
    SecondPieceAt(p, x, v, s, e.bet, g, r);
    ParabEncloses(EstimatorQ1(e, e.C), EstdQ1(e, e.C), e.bet, G, v, s, g, r);
  }

  /** The middle piece at offset `g` from `c`. */
  lemma SecondPieceAt(p: Psqe.Psqe, x: real, v: real, s: real, k: real, g: real, r: real)
    requires v == Psqe.Q1(p, p.c) && s == Psqe.D1(p, p.c) && k == p.bet && g == x - p.c
    requires r == Psqe.Q2(p, x)
    ensures r == v + s * g + 0.5 * k * g * g
  {
  }

  /** `estd_q2` encloses the slope of the middle piece. */
  lemma SecondSlopeEncloses(e: Est, p: Psqe.Psqe, X: Interval, x: real)
    requires Encloses(e, p) && IsIn(x, X)
    ensures IsIn(Psqe.D2(p, x), EstdQ2(e, X))
  {
    FirstSlopeEncloses(e, p, e.C, p.c);
    var G, g := Sub(X, e.C), x - p.c;
    DiffEncloses(X, e.C, x, p.c, G, g);
    SlopeEncloses(EstdQ1(e, e.C), e.bet, G, Psqe.D1(p, p.c), g, Psqe.D2(p, x));
  }

  /** `estimator_q3` encloses the third piece. */
  lemma ThirdPieceEncloses(e: Est, p: Psqe.Psqe, X: Interval, x: real)
    requires Encloses(e, p) && IsIn(x, X)
    ensures IsIn(Psqe.Q3(p, x), EstimatorQ3(e, X))
  {
    var H, h := Sub(X, Point(e.b)), x - p.b;
    DiffEncloses(X, Point(e.b), x, p.b, H, h);
    ParabEncloses(e.FB, e.DFB, e.alp, H, p.fb, p.dfb, h, Psqe.Q3(p, x));
  }

  /** `estd_q3` encloses the slope of the third piece. */
  lemma ThirdSlopeEncloses(e: Est, p: Psqe.Psqe, X: Interval, x: real)
    requires Encloses(e, p) && IsIn(x, X)
    ensures IsIn(Psqe.D3(p, x), EstdQ3(e, X))
  {
    var H, h := Sub(X, Point(e.b)), x - p.b;
    DiffEncloses(X, Point(e.b), x, p.b, H, h);
    SlopeEncloses(e.DFB, e.alp, H, p.dfb, h, Psqe.D3(p, x));
  }

  /**
   * `estimators_derivative` encloses the slope of the point estimator
   * wherever its choice of piece is certain: `X` wholly left of `C`,
   * wholly between `C` and `D`, or wholly right of both.
   */
  lemma DerivativeEncloses(e: Est, p: Psqe.Psqe, X: Interval, x: real)
    requires Encloses(e, p) && IsIn(x, X)
    requires X.hi < e.C.lo || (e.C.hi <= X.lo && X.hi < e.D.lo) || (e.C.hi <= X.lo && e.D.hi <= X.lo)
    ensures IsIn(Psqe.Derivative(p, x), EstimatorsDerivative(e, X))
  {
    if X.hi < e.C.lo {
      FirstSlopeEncloses(e, p, X, x);
    } else if e.C.hi <= X.lo && X.hi < e.D.lo {
      SecondSlopeEncloses(e, p, X, x);
    } else {
      ThirdSlopeEncloses(e, p, X, x);
    }
  }

  /** The interval discriminant `S ** 2 - 2 k V`. */
  lemma DiscriminantEncloses(S: Interval, k: real, V: Interval, s: real, v: real, r: real)
    requires IsIn(s, S) && IsIn(v, V) && r == PsqeUnder.Disc(v, s, k)
    ensures IsIn(r, DiscI(S, k, V))
  {
    SqEncloses(S, s);
    MulPoints(2.0, k);
    MulEnclosesProduct(Point(2.0 * k), V, 2.0 * k, v, 2.0 * k * v);
    SubEncloses(Sq(S), Mul(Point(2.0 * k), V), s * s, 2.0 * k * v);
  }

  /** `delta_second`'s value at `c`, written with `ival_alp / 2`, encloses `q1(c)`. */
  lemma ValueAtCEncloses(e: Est, p: Psqe.Psqe)
    requires Encloses(e, p)
    ensures IsIn(Psqe.Q1(p, p.c), HalfParabI(e.FA, e.DFA, e.alp, Sub(e.C, Point(e.a))))
  {
    var H, h := Sub(e.C, Point(e.a)), p.c - p.a;
    DiffEncloses(e.C, Point(e.a), p.c, p.a, H, h);
    HalfParabEncloses(e.FA, e.DFA, e.alp, H, p.fa, p.dfa, h, Psqe.Q1(p, p.c));
  }

  /** `ParabEncloses` with the curvature halved as `ival_alp / 2`. */
  lemma HalfParabEncloses(V: Interval, S: Interval, k: real, H: Interval, v: real, s: real, h: real, r: real)
    requires IsIn(v, V) && IsIn(s, S) && IsIn(h, H) && r == v + s * h + 0.5 * k * h * h
    ensures IsIn(r, HalfParabI(V, S, k, H))
  {
    LinearPartEncloses(V, S, H, v, s, h);
    HalfCurvaturePartEncloses(k, H, h);
  }

  /** `ival_alp / 2 * H ** 2`. */
  lemma HalfCurvaturePartEncloses(k: real, H: Interval, h: real)
    requires IsIn(h, H)
    ensures IsIn(0.5 * k * h * h, Mul(Point(k / 2.0), Sq(H)))
  {
    SqEncloses(H, h);
    MulEnclosesProduct(Point(k / 2.0), Sq(H), k / 2.0, h * h, 0.5 * k * h * h);
  }

  /** `delta_first` encloses the float discriminant of the first piece. */
  lemma DeltaFirstEncloses(e: Est, p: Psqe.Psqe)
    requires Encloses(e, p)
    ensures IsIn(PsqeUnder.DeltaFirst(p), DeltaFirst(e))
  {
    DiscriminantEncloses(e.DFA, e.alp, e.FA, p.dfa, p.fa, PsqeUnder.DeltaFirst(p));
  }

  /** `delta_second` encloses the float discriminant of the middle piece. */
  lemma DeltaSecondEncloses(e: Est, p: Psqe.Psqe)
    requires Encloses(e, p)
    ensures IsIn(PsqeUnder.DeltaSecond(p), DeltaSecond(e))
  {
    FirstSlopeEncloses(e, p, e.C, p.c);
    ValueAtCEncloses(e, p);
    var S, V := EstdQ1(e, e.C), HalfParabI(e.FA, e.DFA, e.alp, Sub(e.C, Point(e.a)));
    DiscriminantEncloses(S, e.bet, V, Psqe.D1(p, p.c), Psqe.Q1(p, p.c), PsqeUnder.DeltaSecond(p));
  }

  /** `delta_third` encloses the float discriminant of the third piece. */
  lemma DeltaThirdEncloses(e: Est, p: Psqe.Psqe)
    requires Encloses(e, p)
    ensures IsIn(PsqeUnder.DeltaThird(p), DeltaThird(e))
  {
    DiscriminantEncloses(e.DFB, e.alp, e.FB, p.dfb, p.fb, PsqeUnder.DeltaThird(p));
  }

  /** Clamping the lower end of a discriminant at zero keeps every non-negative point of it. */
  lemma ClampKeeps(D: Interval, disc: real)
    requires IsIn(disc, D) && 0.0 <= disc
    ensures IsIn(disc, ClampLow(D)) && 0.0 <= ClampLow(D).lo
  {
  }

  /**
   * The interval root formula encloses the float root formula: with a
   * discriminant interval that is non-negative and a non-zero curvature,
   * the root interval is bounded and holds the float root.
   */
  lemma RootOfEncloses(E: Interval, S: Interval, k: real, D: Interval, left: bool, sqrt: real -> real,
                       e0: real, s: real, disc: real)
    requires RealFacts.IsSqrt(sqrt)
    requires IsIn(e0, E) && IsIn(s, S) && IsIn(disc, D) && 0.0 <= D.lo && k != 0.0
    ensures PsqeUnder.ParabRoot(e0, s, k, disc, left, sqrt).Root?
    ensures RootOf(E, S, k, D, left, sqrt).Finite?
    ensures IsIn(PsqeUnder.ParabRoot(e0, s, k, disc, left, sqrt).x, RootOf(E, S, k, D, left, sqrt).I)
  {
    SqrtEncloses(D, disc, sqrt);
    var R := Sqrt(D, sqrt).value;
    var w := sqrt(disc);
    NegEncloses(S, s);
    var N := if left then Sub(Neg(S), R) else Add(Neg(S), R);
    if left {
      SubEncloses(Neg(S), R, -s, w);
    } else {
      AddEncloses(Neg(S), R, -s, w);
    }
    var n := -s + (if left then -w else w);
    assert IsIn(n, N);
    DivByPoint(N, k);
    BoundedQuotientEncloses(N, Point(k), n, k);
    AddEncloses(E, Div(N, Point(k)).I, e0, n / k);
  }

  // ---------------------------------------------------------------------
  // Soundness of the ends
  // ---------------------------------------------------------------------

  /** The first piece's root interval holds the float root formula of every enclosed estimator. */
  lemma FirstRootEncloses(e: Est, p: Psqe.Psqe, D: Interval, left: bool, sqrt: real -> real)
    requires Encloses(e, p) && RealFacts.IsSqrt(sqrt)
    requires IsIn(PsqeUnder.DeltaFirst(p), D) && 0.0 <= D.lo && e.alp != 0.0
    ensures PsqeUnder.ParabRoot(p.a, p.dfa, p.alp, PsqeUnder.DeltaFirst(p), left, sqrt).Root?
    ensures RootOf(Point(e.a), e.DFA, e.alp, D, left, sqrt).Finite?
    ensures IsIn(PsqeUnder.ParabRoot(p.a, p.dfa, p.alp, PsqeUnder.DeltaFirst(p), left, sqrt).x,
                 RootOf(Point(e.a), e.DFA, e.alp, D, left, sqrt).I)
  {
    RootOfEncloses(Point(e.a), e.DFA, e.alp, D, left, sqrt, p.a, p.dfa, PsqeUnder.DeltaFirst(p));
  }

  /** The third piece's root interval holds the float root formula of every enclosed estimator. */
  lemma ThirdRootEncloses(e: Est, p: Psqe.Psqe, D: Interval, left: bool, sqrt: real -> real)
    requires Encloses(e, p) && RealFacts.IsSqrt(sqrt)
    requires IsIn(PsqeUnder.DeltaThird(p), D) && 0.0 <= D.lo && e.alp != 0.0
    ensures PsqeUnder.ParabRoot(p.b, p.dfb, p.alp, PsqeUnder.DeltaThird(p), left, sqrt).Root?
    ensures RootOf(Point(e.b), e.DFB, e.alp, D, left, sqrt).Finite?
    ensures IsIn(PsqeUnder.ParabRoot(p.b, p.dfb, p.alp, PsqeUnder.DeltaThird(p), left, sqrt).x,
                 RootOf(Point(e.b), e.DFB, e.alp, D, left, sqrt).I)
  {
    RootOfEncloses(Point(e.b), e.DFB, e.alp, D, left, sqrt, p.b, p.dfb, PsqeUnder.DeltaThird(p));
  }

  /**
   * When `get_left_end` answers from the first piece, its answer is at most
   * the left root of the first piece of every enclosed estimator (or `a`).
   */
  lemma GetLeftEndBelowFirstRoot(e: Est, p: Psqe.Psqe, sqrt: real -> real)
    requires Encloses(e, p) && RealFacts.IsSqrt(sqrt)
    requires e.a <= e.C.lo && EstimatorQ1(e, e.C).lo <= 0.0
    requires 0.0 <= PsqeUnder.DeltaFirst(p) && e.alp != 0.0
    ensures PsqeUnder.RootFirstLeft(p, PsqeUnder.DeltaFirst(p), sqrt).Root?
    ensures GetLeftEnd(e, sqrt).Root?
    ensures GetLeftEnd(e, sqrt).x <= RealFacts.Max2(e.a, PsqeUnder.RootFirstLeft(p, PsqeUnder.DeltaFirst(p), sqrt).x)
  {
    DeltaFirstEncloses(e, p);
    ClampKeeps(DeltaFirst(e), PsqeUnder.DeltaFirst(p));
    FirstRootEncloses(e, p, ClampLow(DeltaFirst(e)), true, sqrt);
  }

  /**
   * Soundness of `get_left_end` in its first branch: for an estimator with
   * `alp > 0` whose first piece is not above zero at `c`, no point of
   * `[a, b]` before the answer has the estimator at or below zero.  So the
   * answer never cuts away a point where the objective may vanish.
   */
  lemma GetLeftEndSound(e: Est, p: Psqe.Psqe, sqrt: real -> real, z: real)
    requires Encloses(e, p) && RealFacts.IsSqrt(sqrt)
    requires 0.0 < e.alp && Psqe.Q1(p, p.c) <= 0.0
    requires e.a <= z && Psqe.Underestimator(p, z) <= 0.0
    ensures GetLeftEnd(e, sqrt).Root? && GetLeftEnd(e, sqrt).x <= z
  {
    if e.a <= e.C.lo {
      FirstPieceEncloses(e, p, e.C, p.c);
      PsqeUnder.FirstLeftRootIsFirst(p, sqrt, z);
      GetLeftEndBelowFirstRoot(e, p, sqrt);
    }
  }

  /**
   * When `get_right_end_under_bound` answers from the third piece, its
   * answer is at least the right root of the third piece of every enclosed
   * estimator (or `b`), and the source's `assert ival_d.a <= res` holds
   * once that root is not left of `D`.
   */
  lemma GetRightEndUnderBoundAboveThirdRoot(e: Est, p: Psqe.Psqe, sqrt: real -> real)
    requires Encloses(e, p) && RealFacts.IsSqrt(sqrt)
    requires e.D.hi <= e.b && EstimatorQ3(e, e.D).lo <= 0.0
    requires 0.0 <= PsqeUnder.DeltaThird(p) && e.alp != 0.0
    requires e.D.lo <= PsqeUnder.RootThirdRight(p, PsqeUnder.DeltaThird(p), sqrt).x
    ensures PsqeUnder.RootThirdRight(p, PsqeUnder.DeltaThird(p), sqrt).Root?
    ensures GetRightEndUnderBound(e, sqrt).Root?
    ensures RealFacts.Min2(e.b, PsqeUnder.RootThirdRight(p, PsqeUnder.DeltaThird(p), sqrt).x) <= GetRightEndUnderBound(e, sqrt).x
  {
    DeltaThirdEncloses(e, p);
    ClampKeeps(DeltaThird(e), PsqeUnder.DeltaThird(p));
    ThirdRootEncloses(e, p, ClampLow(DeltaThird(e)), false, sqrt);
  }

  /**
   * Soundness of `get_right_end_under_bound` in its first branch: for an
   * ordered estimator with `alp > 0` whose third piece is not above zero at
   * `d`, no point of `[a, b]` after the answer has the estimator at or below
   * zero.
   */
  lemma GetRightEndUnderBoundSound(e: Est, p: Psqe.Psqe, sqrt: real -> real, z: real)
    requires Encloses(e, p) && RealFacts.IsSqrt(sqrt)
    requires 0.0 < e.alp && p.c <= p.d && Psqe.Q3(p, p.d) <= 0.0
    requires z <= e.b && Psqe.Underestimator(p, z) <= 0.0
    ensures GetRightEndUnderBound(e, sqrt).Root? && z <= GetRightEndUnderBound(e, sqrt).x
  {
    if e.D.hi <= e.b {
      ThirdPieceEncloses(e, p, e.D, p.d);
      PsqeUnder.ThirdRightRootIsLast(p, sqrt, z);
      PsqeUnder.ThirdRightRootIsLast(p, sqrt, p.d);
      GetRightEndUnderBoundAboveThirdRoot(e, p, sqrt);
    }
  }

  /**
   * When `get_right_end_upper_bound` answers from the first piece, its
   * answer is at least the right root of the first piece of every enclosed
   * estimator (or the upper end of `C`), and the source's
   * `assert a <= res <= ival_c.b` holds once that root is not left of `a`.
   */
  lemma GetRightEndUpperBoundAboveFirstRoot(e: Est, p: Psqe.Psqe, sqrt: real -> real)
    requires Encloses(e, p) && RealFacts.IsSqrt(sqrt)
    requires e.a <= e.C.lo && 0.0 <= EstimatorQ1(e, e.C).lo
    requires 0.0 <= PsqeUnder.DeltaFirst(p) && e.alp != 0.0
    requires e.a <= PsqeUnder.RootFirstRight(p, PsqeUnder.DeltaFirst(p), sqrt).x
    ensures PsqeUnder.RootFirstRight(p, PsqeUnder.DeltaFirst(p), sqrt).Root?
    ensures GetRightEndUpperBound(e, sqrt).Root?
    ensures RealFacts.Min2(e.C.hi, PsqeUnder.RootFirstRight(p, PsqeUnder.DeltaFirst(p), sqrt).x) <= GetRightEndUpperBound(e, sqrt).x
  {
    DeltaFirstEncloses(e, p);
    ClampKeeps(DeltaFirst(e), PsqeUnder.DeltaFirst(p));
    FirstRootEncloses(e, p, ClampLow(DeltaFirst(e)), false, sqrt);
  }
}
