/**
 * The float piecewise linear estimator of FZCP/psl_bounds.py.
 *
 * Two lines bound the objective on `[a, b]`: the left one leaves
 * `(a, f(a))` with the smallest slope `alp`, the right one reaches
 * `(b, f(b))` with the largest slope `bet`; they cross at `c`.  The
 * objective enters only through its two values `f(a)` and `f(b)`.
 */
module PslBounds {
  import opened Common
  import RealFacts

  datatype Psl = Psl(a: real, b: real, alp: real, bet: real, fa: real, fb: real, c: real)

  /** The left line `fa + alp (x - a)`. */
  function LeftLine(p: Psl, x: real): real { p.fa + p.alp * (x - p.a) }

  /** The right line `fb + bet (x - b)`. */
  function RightLine(p: Psl, x: real): real { p.fb + p.bet * (x - p.b) }

  /**
   * `PSL_Bounds(a, b, alp, bet, f, under)`, given `fa = f(a)` and `fb = f(b)`.
   * The over-estimator (`under` false) is the under-estimator of `-f`,
   * whose slopes lie in `[-bet, -alp]`.  Equal slope bounds make the float
   * division by `bet - alp` raise.
   */
  function Build(a: real, b: real, alp: real, bet: real, fa: real, fb: real, under: bool): (r: Result<Psl>)
    ensures r.Ok? <==> alp != bet
    ensures r.Ok? ==> r.value.a == a && r.value.b == b
  {
    var alp', bet', fa', fb' := if under then alp else -bet, if under then bet else -alp,
                                if under then fa else -fa, if under then fb else -fb;
    if bet' - alp' == 0.0 then Fail("ZeroDivisionError")
    else Ok(Psl(a, b, alp', bet', fa', fb', (fa' - fb' + bet' * b - alp' * a) / (bet' - alp')))
  }

  /** `estimator`: the left line up to `c`, the right line after it. */
  function Estimator(p: Psl, x: real): real
  {
    if x <= p.c then LeftLine(p, x) else RightLine(p, x)
  }

  /** `nestimator`. */
  function NEstimator(p: Psl, x: real): (v: real)
    ensures v == -Estimator(p, x)
  {
    -Estimator(p, x)
  }

  /** `lower_bound_and_point`: the point and the value of the estimator's minimum. */
  function LowerBoundAndPoint(p: Psl): (real, real)
  {
    if p.alp >= 0.0 then (p.a, p.fa)
    else if p.bet <= 0.0 then (p.b, p.fb)
    else (p.c, Estimator(p, p.c))
  }

  /** `record_and_point`: the end with the smaller value, `a` on a tie. */
  function RecordAndPoint(p: Psl): (r: (real, real))
    ensures r.1 <= p.fa && r.1 <= p.fb
    ensures r == (p.a, p.fa) || r == (p.b, p.fb)
    ensures p.fa == p.fb ==> r.0 == p.a
  {
    if p.fa <= p.fb then (p.a, p.fa) else (p.b, p.fb)
  }

  /** A built estimator always has a finite breakpoint. */
  predicate Built(p: Psl)
  {
    p.alp != p.bet && p.c == (p.fa - p.fb + p.bet * p.b - p.alp * p.a) / (p.bet - p.alp)
  }

  /** Every built estimator satisfies `Built`. */
  lemma BuildIsBuilt(a: real, b: real, alp: real, bet: real, fa: real, fb: real, under: bool)
    requires alp != bet
    ensures Built(Build(a, b, alp, bet, fa, fb, under).value)
  {
  }

  /** The two lines meet at the breakpoint `c`. */
  lemma LinesMeetAtBreakpoint(p: Psl)
    requires Built(p)
    ensures LeftLine(p, p.c) == RightLine(p, p.c)
  {
    var k := p.bet - p.alp;
    var n := p.fa - p.fb + p.bet * p.b - p.alp * p.a;
    assert p.c * k == n;
    calc {
      LeftLine(p, p.c) - RightLine(p, p.c);
      p.fa - p.fb + p.bet * p.b - p.alp * p.a - p.c * (p.bet - p.alp);
      n - p.c * k;
      0.0;
    }
  }

  /** The over-estimator is the under-estimator of the negated data. */
  lemma OverIsNegatedUnder(a: real, b: real, alp: real, bet: real, fa: real, fb: real)
    ensures Build(a, b, alp, bet, fa, fb, false) == Build(a, b, -bet, -alp, -fa, -fb, true)
  {
  }

  /** With ordered slope bounds the estimator is the larger of the two lines. */
  lemma EstimatorIsUpperEnvelope(p: Psl, x: real)
    requires Built(p) && p.alp < p.bet
    ensures Estimator(p, x) == if LeftLine(p, x) >= RightLine(p, x) then LeftLine(p, x) else RightLine(p, x)
  {
    LinesMeetAtBreakpoint(p);
    // The difference of the lines is (bet - alp) (c - x).
    assert LeftLine(p, x) - RightLine(p, x) == (p.bet - p.alp) * (p.c - x);
    if x <= p.c {
      RealFacts.MulNonneg(p.bet - p.alp, p.c - x);
    } else {
      RealFacts.MulNonneg(p.bet - p.alp, x - p.c);
    }
  }

  /**
   * The estimator lies below every value `y = f(x)` that the slope bounds
   * allow: rising from `fa` at least as fast as `alp` and reaching `fb` no
   * faster than `bet` (what `alp <= f' <= bet` gives by the mean value theorem).
   */
  lemma EstimatorBelowAllowedValues(p: Psl, x: real, y: real)
    requires Built(p) && p.alp < p.bet
    requires y - p.fa >= p.alp * (x - p.a) && y - p.fb >= p.bet * (x - p.b)
    ensures Estimator(p, x) <= y
  {
    EstimatorIsUpperEnvelope(p, x);
  }

  /** The value `lower_bound_and_point` reports bounds the estimator on all of `[a, b]`. */
  lemma LowerBoundBelowEstimator(p: Psl, x: real)
    requires Built(p) && p.alp < p.bet && p.a <= x <= p.b
    ensures LowerBoundAndPoint(p).1 <= Estimator(p, x)
  {
    var e := Estimator(p, x);
    assert LeftLine(p, x) <= e && RightLine(p, x) <= e by {
      EstimatorIsUpperEnvelope(p, x);
    }
    if p.alp >= 0.0 {
      assert p.fa <= LeftLine(p, x) by { RealFacts.MulNonneg(p.alp, x - p.a); }
    } else if p.bet <= 0.0 {
      assert p.fb <= RightLine(p, x) by { RealFacts.MulNonneg(-p.bet, p.b - x); }
    } else {
      assert LeftLine(p, p.c) == RightLine(p, p.c) by { LinesMeetAtBreakpoint(p); }
      if x <= p.c {
        assert LeftLine(p, p.c) <= LeftLine(p, x) by {
          assert LeftLine(p, x) - LeftLine(p, p.c) == -p.alp * (p.c - x);
          RealFacts.MulNonneg(-p.alp, p.c - x);
        }
      } else {
        assert RightLine(p, p.c) <= RightLine(p, x) by {
          assert RightLine(p, x) - RightLine(p, p.c) == p.bet * (x - p.c);
          RealFacts.MulNonneg(p.bet, x - p.c);
        }
      }
    }
  }

  /** The reported point is an end of `[a, b]` or the breakpoint. */
  lemma LowerBoundPoint(p: Psl)
    ensures LowerBoundAndPoint(p).0 in {p.a, p.b, p.c}
    ensures p.alp < 0.0 < p.bet ==> LowerBoundAndPoint(p).1 == Estimator(p, p.c)
  {
  }
}
