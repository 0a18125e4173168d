/**
 * The float piecewise quadratic estimator of FZCP/psqe_bounds.py: the
 * estimator of module `Psqe` in under mode, and an over-estimator built
 * from the negated data in over mode.  The queries are those of module
 * `PsqeUnder`; `lower_bound_and_point` negates its value in over mode.
 */
module PsqeBounds {
  import opened Common
  import opened Psqe
  import Quadratic = Psqe
  import PsqeUnder
  import RealFacts

  /** A built estimator and its mode. */
  datatype Bounds = Bounds(est: Psqe, under: bool)

  /**
   * The constructor as written.  Over mode stores the curvature bounds
   * `-bet, -alp` and the negated data, but still computes `delt` and `c`
   * with the raw `alp` and `bet`.
   */
  function BuildAsWritten(a: real, b: real, alp: real, bet: real,
                          fa: real, fb: real, dfa: real, dfb: real, under: bool): (r: Result<Bounds>)
    ensures r.Ok? ==> r.value.under == under && r.value.est.a == a && r.value.est.b == b
    ensures r.Ok? && !under ==> r.value.est.alp == -bet && r.value.est.bet == -alp
    ensures r.Ok? && !under ==> r.value.est.fa == -fa && r.value.est.fb == -fb
                                && r.value.est.dfa == -dfa && r.value.est.dfb == -dfb
  {
    var alp', bet' := if under then alp else -bet, if under then bet else -alp;
    var fa', fb' := if under then fa else -fa, if under then fb else -fb;
    var dfa', dfb' := if under then dfa else -dfa, if under then dfb else -dfb;
    if bet - alp == 0.0 then Fail("ZeroDivisionError")
    else
      var delt := Delt(a, b, alp, bet, dfa', dfb');
      if delt * (bet - alp) == 0.0 then Fail("ZeroDivisionError")
      else
        var c := Ratio(CNumerator(a, b, alp, bet, fa', fb', dfa', dfb', delt), delt * (bet - alp));
        Ok(Bounds(Psqe(a, b, alp', bet', fa', fb', dfa', dfb', c, c + delt), under))
  }

  /** In under mode the constructor as written is that of module `Psqe`. */
  lemma UnderIsPsqe(a: real, b: real, alp: real, bet: real,
                    fa: real, fb: real, dfa: real, dfb: real)
    ensures BuildAsWritten(a, b, alp, bet, fa, fb, dfa, dfb, true).Ok?
            <==> Quadratic.Build(a, b, alp, bet, fa, fb, dfa, dfb).Ok?
    ensures BuildAsWritten(a, b, alp, bet, fa, fb, dfa, dfb, true).Ok? ==>
            BuildAsWritten(a, b, alp, bet, fa, fb, dfa, dfb, true).value.est
            == Quadratic.Build(a, b, alp, bet, fa, fb, dfa, dfb).value
    ensures Build(a, b, alp, bet, fa, fb, dfa, dfb, true) == BuildAsWritten(a, b, alp, bet, fa, fb, dfa, dfb, true)
  {
    if bet - alp != 0.0 {
      var delt := Delt(a, b, alp, bet, dfa, dfb);
      if delt * (bet - alp) != 0.0 {
        var c := Ratio(CNumerator(a, b, alp, bet, fa, fb, dfa, dfb, delt), delt * (bet - alp));
        assert BuildAsWritten(a, b, alp, bet, fa, fb, dfa, dfb, true).value.est
               == Psqe(a, b, alp, bet, fa, fb, dfa, dfb, c, c + delt);
      }
    }
  }

  /**
   * As written, the over-estimator's middle and third pieces have slopes
   * that differ at `d` by `(alp + bet) (b - a)`: it is smooth there only
   * when `alp == -bet` or the interval is a point.
   */
  lemma OverSlopesMissAtD(a: real, b: real, alp: real, bet: real,
                          fa: real, fb: real, dfa: real, dfb: real)
    requires BuildAsWritten(a, b, alp, bet, fa, fb, dfa, dfb, false).Ok?
    ensures var p := BuildAsWritten(a, b, alp, bet, fa, fb, dfa, dfb, false).value.est;
      D3(p, p.d) - D2(p, p.d) == (alp + bet) * (b - a)
  {
    var p := BuildAsWritten(a, b, alp, bet, fa, fb, dfa, dfb, false).value.est;
    var delt := p.d - p.c;
    assert delt * (bet - alp) == -dfb + dfa - alp * (b - a);
    calc {
      D3(p, p.d) - D2(p, p.d);
      -dfb + dfa + bet * (b - a) - (bet - alp) * delt;
      (alp + bet) * (b - a);
    }
  }

  /**
   * The over-estimator built on `[0, 1]` from `alp = 0, bet = 2`, `f = 0` at
   * both ends, `f'(0) = -1` and `f'(1) = 3`: its slopes at `d` are `-1`
   * and `1` as written; the corrected one is smooth.
   */
  lemma OverSlopesMissExample()
    ensures BuildAsWritten(0.0, 1.0, 0.0, 2.0, 0.0, 0.0, -1.0, 3.0, false).Ok?
    ensures var p := BuildAsWritten(0.0, 1.0, 0.0, 2.0, 0.0, 0.0, -1.0, 3.0, false).value.est;
      D3(p, p.d) - D2(p, p.d) == 2.0
    ensures Build(0.0, 1.0, 0.0, 2.0, 0.0, 0.0, -1.0, 3.0, false).Ok?
  {
    assert Delt(0.0, 1.0, 0.0, 2.0, 1.0, -3.0) * 2.0 == -4.0;
    OverSlopesMissAtD(0.0, 1.0, 0.0, 2.0, 0.0, 0.0, -1.0, 3.0);
    var nalp, nbet := RealFacts.Negated(2.0), RealFacts.Negated(0.0);
    var ndfa, ndfb := RealFacts.Negated(-1.0), RealFacts.Negated(3.0);
    assert nalp == -2.0 && nbet == 0.0 && ndfa == 1.0 && ndfb == -3.0;
    assert Delt(0.0, 1.0, nalp, nbet, ndfa, ndfb) * 2.0 == -2.0;
  }

  /**
   * The constructor with over mode applied consistently: the estimator of
   * module `Psqe` built on `-f` with curvature bounds `[-bet, -alp]`.
   */
  function Build(a: real, b: real, alp: real, bet: real,
                 fa: real, fb: real, dfa: real, dfb: real, under: bool): (r: Result<Bounds>)
    ensures r.Ok? ==> r.value.under == under && Joined(r.value.est)
    ensures r.Ok? ==> r.value.est.a == a && r.value.est.b == b
    ensures r.Ok? && !under ==> r.value.est.alp == -bet && r.value.est.bet == -alp
    ensures r.Ok? && !under ==> r.value.est.fa == -fa && r.value.est.fb == -fb
                                && r.value.est.dfa == -dfa && r.value.est.dfb == -dfb
  {
    var built := if under then Quadratic.Build(a, b, alp, bet, fa, fb, dfa, dfb)
                 else Quadratic.Build(a, b, RealFacts.Negated(bet), RealFacts.Negated(alp), RealFacts.Negated(fa),
                                      RealFacts.Negated(fb), RealFacts.Negated(dfa), RealFacts.Negated(dfb));
    match built
    case Ok(p) => Ok(Bounds(p, under))
    case Fail(e) => Fail(e)
  }

  /** The over-estimator is the under-estimator of the negated data. */
  lemma OverIsNegatedUnder(a: real, b: real, alp: real, bet: real,
                           fa: real, fb: real, dfa: real, dfb: real)
    ensures Build(a, b, alp, bet, fa, fb, dfa, dfb, false).Ok?
            == Build(a, b, RealFacts.Negated(bet), RealFacts.Negated(alp), RealFacts.Negated(fa), RealFacts.Negated(fb),
                     RealFacts.Negated(dfa), RealFacts.Negated(dfb), true).Ok?
    ensures Build(a, b, alp, bet, fa, fb, dfa, dfb, false).Ok? ==>
            Build(a, b, alp, bet, fa, fb, dfa, dfb, false).value.est
            == Build(a, b, RealFacts.Negated(bet), RealFacts.Negated(alp), RealFacts.Negated(fa), RealFacts.Negated(fb),
                     RealFacts.Negated(dfa), RealFacts.Negated(dfb), true).value.est
  {
  }

  /** In both modes the corrected estimator is continuous and smooth at `c` and `d`. */
  lemma BuildIsSmooth(a: real, b: real, alp: real, bet: real,
                      fa: real, fb: real, dfa: real, dfb: real, under: bool)
    requires Build(a, b, alp, bet, fa, fb, dfa, dfb, under).Ok?
    ensures var p := Build(a, b, alp, bet, fa, fb, dfa, dfb, under).value.est;
      Q2(p, p.c) == Q1(p, p.c) && D2(p, p.c) == D1(p, p.c)
      && Q2(p, p.d) == Q3(p, p.d) && D2(p, p.d) == D3(p, p.d)
  {
    var p := Build(a, b, alp, bet, fa, fb, dfa, dfb, under).value.est;
    SlopesMeetAtD(p);
    ValuesMeetAtD(p);
  }

  /** `estimator`. */
  function Estimator(e: Bounds, x: real): (v: real)
    ensures x < e.est.c ==> v == Q1(e.est, x)
    ensures e.est.c <= x < e.est.d ==> v == Q2(e.est, x)
    ensures e.est.c <= x && e.est.d <= x ==> v == Q3(e.est, x)
  {
    Underestimator(e.est, x)
  }

  /** `nestimator`. */
  function NEstimator(e: Bounds, x: real): (v: real)
    ensures v + Estimator(e, x) == 0.0
  {
    -Estimator(e, x)
  }

  /** `estimators_derivative`. */
  function EstimatorsDerivative(e: Bounds, x: real): (v: real)
    ensures x < e.est.c ==> v == D1(e.est, x)
    ensures e.est.c <= x < e.est.d ==> v == D2(e.est, x)
    ensures e.est.c <= x && e.est.d <= x ==> v == D3(e.est, x)
  {
    Derivative(e.est, x)
  }

  /**
   * What `lower_bound_and_point` returns: the first checked point of
   * smallest estimator value, with the value negated in over mode.
   */
  function LowerBound(e: Bounds): (r: (real, real))
    ensures r.0 in PsqeUnder.CheckList(e.est)
    ensures e.under ==> forall y :: y in PsqeUnder.CheckList(e.est) ==> r.1 <= Estimator(e, y)
    ensures !e.under ==> forall y :: y in PsqeUnder.CheckList(e.est) ==> -Estimator(e, y) <= r.1
  {
    PsqeUnder.FirstLowestIsFirstMinimum(e.est, PsqeUnder.CheckList(e.est));
    var (x, w) := PsqeUnder.FirstLowest(e.est, PsqeUnder.CheckList(e.est));
    (x, if e.under then w else -w)
  }

  /**
   * `lower_bound_and_point`: the first checked point of smallest estimator
   * value, its value negated in over mode, where the estimator is that of
   * `-f`.  In over mode the value is thus the largest value of the
   * over-estimator `-estimator` over the checked points, and over all of
   * `[a, b]` when the estimator is ordered.
   */
  method LowerBoundAndPoint(e: Bounds) returns (x: real, v: real)
    ensures (x, v) == LowerBound(e)
    ensures x in PsqeUnder.CheckList(e.est)
    ensures v == (if e.under then Estimator(e, x) else -Estimator(e, x))
    ensures e.under ==> forall y :: y in PsqeUnder.CheckList(e.est) ==> v <= Estimator(e, y)
    ensures !e.under ==> forall y :: y in PsqeUnder.CheckList(e.est) ==> -Estimator(e, y) <= v
    ensures PsqeUnder.Ordered(e.est) && e.under ==>
      forall y :: e.est.a <= y <= e.est.b ==> v <= Estimator(e, y)
    ensures PsqeUnder.Ordered(e.est) && !e.under ==>
      forall y :: e.est.a <= y <= e.est.b ==> -Estimator(e, y) <= v
  {
    var w;
    x, w := PsqeUnder.LowerBoundAndPoint(e.est);
    v := if e.under then w else -w;
  }

  /** `record_and_point`, on the stored (in over mode negated) end values. */
  function RecordAndPoint(e: Bounds): (r: (real, real))
    ensures r.1 <= e.est.fa && r.1 <= e.est.fb
    ensures r == (e.est.a, e.est.fa) || r == (e.est.b, e.est.fb)
    ensures e.est.fa == e.est.fb ==> r.0 == e.est.a
  {
    PsqeUnder.RecordAndPoint(e.est)
  }
}
