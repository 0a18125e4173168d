/**
 * The minimisation processor of psqeprocessor.py, `PSQEProcessor`, over the
 * smooth piecewise quadratic under-estimator of psqe_under.py.
 *
 * `compute_bounds` builds the estimator on the subproblem's interval from
 * `f` and `f'` at its ends and an enclosure of `f''`; the estimator's
 * minimum gives the bound and the split point, and the better end of the
 * interval is the candidate record.  The step itself is `MinProcess.Process`.
 */
module PsqeProcessor {
  import opened Common
  import opened RealFacts
  import opened FloatInterval
  import opened MinProcess
  import Psqe
  import PsqeUnder

  /** The problem: `f` and `f'` at points, an enclosure of `f''` over intervals. */
  datatype Problem = Problem(a: real, b: real, objective: real -> real, df: real -> real, ddf: Ival -> Ival)

  /**
   * Lines 44-50: the global enclosure `ddi` of `f''` or the one over the
   * interval; the symmetric option widens the chosen one to `[-L, L]`.
   */
  function Enclosure(problem: Problem, ddi: Ival, globalLipint: bool, useSymmLipint: bool, ival: Ival): (r: Ival)
    ensures var chosen := if globalLipint then ddi else problem.ddf(ival);
            (!useSymmLipint ==> r == chosen)
            && (useSymmLipint ==> r.lo == -r.hi && r.lo <= chosen.lo && chosen.hi <= r.hi)
  {
    var chosen := if globalLipint then ddi else problem.ddf(ival);
    if useSymmLipint then
      var L := Max2(-chosen.lo, chosen.hi);
      Ival(-L, L)
    else chosen
  }

  /** The estimator `compute_bounds` builds on the interval (line 51). */
  function Estimator(problem: Problem, ddi: Ival, globalLipint: bool, useSymmLipint: bool, ival: Ival): Result<Psqe.Psqe>
  {
    var E := Enclosure(problem, ddi, globalLipint, useSymmLipint, ival);
    var f, df := problem.objective, problem.df;
    Psqe.Build(ival.lo, ival.hi, E.lo, E.hi, f(ival.lo), f(ival.hi), df(ival.lo), df(ival.hi))
  }

  /**
   * Lines 51-53: the split point and bound from `lower_bound_and_point`,
   * the candidate from `record_and_point`.  The bound is the estimator's
   * value at the split point and at most its value at every point it
   * checks; the candidate is the end of the interval with the smaller `f`.
   */
  function Bounds(problem: Problem, ddi: Ival, globalLipint: bool, useSymmLipint: bool, ival: Ival): (r: Result<Bounding>)
    ensures r.Ok? <==> Estimator(problem, ddi, globalLipint, useSymmLipint, ival).Ok?
    ensures r.Ok? ==> var p := Estimator(problem, ddi, globalLipint, useSymmLipint, ival).value;
                      r.value.split.Some? && r.value.split.value in PsqeUnder.CheckList(p)
                      && r.value.bound == Psqe.Underestimator(p, r.value.split.value)
                      && (forall y :: y in PsqeUnder.CheckList(p) ==> r.value.bound <= Psqe.Underestimator(p, y))
    ensures r.Ok? ==> var f := problem.objective;
                      (r.value.x, r.value.v) in {(ival.lo, f(ival.lo)), (ival.hi, f(ival.hi))}
                      && r.value.v <= f(ival.lo) && r.value.v <= f(ival.hi)
  {
    match Estimator(problem, ddi, globalLipint, useSymmLipint, ival)
    case Fail(e) => Fail(e)
    case Ok(p) =>
      PsqeUnder.FirstLowestIsFirstMinimum(p, PsqeUnder.CheckList(p));
      var lb := PsqeUnder.FirstLowest(p, PsqeUnder.CheckList(p));
      var rp := PsqeUnder.RecordAndPoint(p);
      Ok(Bounding(Some(lb.0), lb.1, rp.0, rp.1))
  }

  /**
   * On an estimator whose breakpoints are in order, the bound is at most
   * the estimator anywhere on the interval, so it bounds `f` wherever the
   * estimator does.
   */
  lemma BoundBelowEstimator(problem: Problem, ddi: Ival, globalLipint: bool, useSymmLipint: bool, ival: Ival, y: real)
    requires Estimator(problem, ddi, globalLipint, useSymmLipint, ival).Ok?
    requires PsqeUnder.Ordered(Estimator(problem, ddi, globalLipint, useSymmLipint, ival).value)
    requires ival.lo <= y <= ival.hi
    ensures Bounds(problem, ddi, globalLipint, useSymmLipint, ival).value.bound
            <= Psqe.Underestimator(Estimator(problem, ddi, globalLipint, useSymmLipint, ival).value, y)
  {
    var p := Estimator(problem, ddi, globalLipint, useSymmLipint, ival).value;
    var z := PsqeUnder.CandidatesReachMinimum(p, y);
  }

  /** `PSQEProcessor` of psqeprocessor.py. */
  class PsqeProcessor {
    var recV: real
    var recX: real
    const problem: Problem
    const eps: real
    const globalLipint: bool
    const useSymmLipint: bool
    const ddi: Ival
    /** `compute_bounds`' estimator answers on an interval, fixed at construction. */
    const bounding: Ival -> Result<Bounding>

    function Rec(): Record
      reads this
    {
      Record(recV, recX)
    }

    function Config(): Settings
    {
      Settings(eps, bounding)
    }

    constructor (recV: real, recX: real, problem: Problem, eps: real, globalLipint: bool, useSymmLipint: bool)
      ensures Rec() == Record(recV, recX)
      ensures this.problem == problem && this.eps == eps
      ensures this.globalLipint == globalLipint && this.useSymmLipint == useSymmLipint
      ensures ddi == problem.ddf(Ival(problem.a, problem.b))
      ensures forall ival :: bounding(ival) == Bounds(problem, ddi, globalLipint, useSymmLipint, ival)
    {
      this.recV := recV;
      this.recX := recX;
      this.problem := problem;
      this.eps := eps;
      this.globalLipint := globalLipint;
      this.useSymmLipint := useSymmLipint;
      var ddi := problem.ddf(Ival(problem.a, problem.b));
      this.ddi := ddi;
      this.bounding := (ival: Ival) => Bounds(problem, ddi, globalLipint, useSymmLipint, ival);
    }

    /** `compute_bounds`; `ok` is false where building the estimator raises. */
    method ComputeBounds(sub: MinSub) returns (ok: bool)
      modifies sub, this`recV, this`recX
      ensures var r := MinProcess.ComputeBounds(Config(), old(Rec()), old(sub.Value()));
              ok == r.Ok? && (ok ==> Rec() == r.value.0 && sub.Value() == r.value.1)
    {
      var b := bounding(sub.ival);
      if b.Fail? {
        return false;
      }
      sub.splitPoint, sub.bound := b.value.split, b.value.bound;
      var x, v := b.value.x, b.value.v;
      if v < recV {
        recX := x;
        recV := v;
      }
      ok := true;
    }

    /** A child `Sub` on `ival`, bounded; `ok` is false where that raises. */
    method NewChild(level: int, ival: Ival) returns (c: MinSub, ok: bool)
      modifies this`recV, this`recX
      ensures fresh(c)
      ensures var r := MinProcess.ComputeBounds(Config(), old(Rec()), Fresh(level, ival));
              ok == r.Ok? && (ok ==> Rec() == r.value.0 && c.Value() == r.value.1)
    {
      c := new MinSub(Fresh(level, ival));
      ok := ComputeBounds(c);
    }

    /** Lines 70-77: both halves at `at`, bounded and filtered; `ok` is false where that raises. */
    method Divide(sub: MinSub, at: real) returns (lst: seq<MinSub>, ok: bool)
      modifies this`recV, this`recX
      ensures var r := Split(Config(), old(Rec()), sub.Value(), at);
              ok == r.Done?
              && (ok ==> Rec() == r.rec && |lst| == |r.children|
                         && forall i :: 0 <= i < |lst| ==> fresh(lst[i]) && lst[i].Value() == r.children[i])
    {
      ghost var rec0, n := Rec(), sub.Value();
      var sub1, sub2;
      sub1, ok := NewChild(sub.level + 1, Ival(sub.ival.lo, at));
      if !ok {
        return [], false;
      }
      ghost var rec1, n1 := Rec(), sub1.Value();
      sub2, ok := NewChild(sub.level + 1, Ival(at, sub.ival.hi));
      if !ok {
        return [], false;
      }
      SplitOf(Config(), rec0, n, at, rec1, n1, Rec(), sub2.Value());
      lst := KeepSubs(sub1, sub2, recV, eps);
    }

    /**
     * `process`: `ok` is false where the source raises; otherwise the new
     * record and the kept children are those of `MinProcess.Process`.
     */
    method Process(sub: MinSub) returns (lst: seq<MinSub>, ok: bool)
      modifies this`recV, this`recX
      ensures var r := MinProcess.Process(Config(), old(Rec()), sub.Value());
              ok == r.Done?
              && (ok ==> Rec() == r.rec && |lst| == |r.children|
                         && forall i :: 0 <= i < |lst| ==> fresh(lst[i]) && lst[i].Value() == r.children[i])
    {
      lst, ok := [], true;
      if sub.bound < recV - eps {
        if sub.splitPoint.None? {
          return [], false;
        }
        lst, ok := Divide(sub, sub.splitPoint.value);
      }
    }
  }
}
