/**
 * The minimisation processor of pslprocessor.py, `PSLProcessor`.
 *
 * Its estimator, `PSL_Under` of psl_under.py, is not part of this model:
 * it is the oracle `pslUnder`, giving the answers of `lower_bound_and_point`
 * and `record_and_point` for an interval and a slope enclosure, or `Fail`
 * where building it raises.  The step itself is `MinProcess.Process`.
 */
module PslProcessor {
  import opened Common
  import opened RealFacts
  import opened FloatInterval
  import opened MinProcess

  /** The problem: `f` at points and an enclosure of `f'` over intervals. */
  datatype Problem = Problem(a: real, b: real, objective: real -> real, df: Ival -> Ival)

  /**
   * Lines 44-50: the global enclosure `di` of `f'` or the one over the
   * interval; the symmetric option widens the chosen one to `[-L, L]`.
   */
  function Enclosure(problem: Problem, di: Ival, globalLipint: bool, useSymmLipint: bool, ival: Ival): (r: Ival)
    ensures var chosen := if globalLipint then di else problem.df(ival);
            (!useSymmLipint ==> r == chosen)
            && (useSymmLipint ==> r.lo == -r.hi && r.lo <= chosen.lo && chosen.hi <= r.hi)
  {
    var chosen := if globalLipint then di else problem.df(ival);
    if useSymmLipint then
      var L := Max2(-chosen.lo, chosen.hi);
      Ival(-L, L)
    else chosen
  }

  /** `PSLProcessor` of pslprocessor.py. */
  class PslProcessor {
    var recV: real
    var recX: real
    const problem: Problem
    const eps: real
    const globalLipint: bool
    const useSymmLipint: bool
    const di: Ival
    /** `compute_bounds`' estimator answers on an interval, fixed at construction. */
    const bounding: Ival -> Result<Bounding>

    function Rec(): Record
      reads this
    {
      Record(recV, recX)
    }

    function Config(): Settings
    {
      Settings(eps, bounding)
    }

    constructor (recV: real, recX: real, problem: Problem, eps: real, globalLipint: bool, useSymmLipint: bool,
                 pslUnder: (Ival, Ival) -> Result<Bounding>)
      ensures Rec() == Record(recV, recX)
      ensures this.problem == problem && this.eps == eps
      ensures this.globalLipint == globalLipint && this.useSymmLipint == useSymmLipint
      ensures di == problem.df(Ival(problem.a, problem.b))
      ensures forall ival :: bounding(ival) == pslUnder(ival, Enclosure(problem, di, globalLipint, useSymmLipint, ival))
    {
      this.recV := recV;
      this.recX := recX;
      this.problem := problem;
      this.eps := eps;
      this.globalLipint := globalLipint;
      this.useSymmLipint := useSymmLipint;
      var di := problem.df(Ival(problem.a, problem.b));
      this.di := di;
      this.bounding := (ival: Ival) => pslUnder(ival, Enclosure(problem, di, globalLipint, useSymmLipint, ival));
    }

    /** `compute_bounds`; `ok` is false where building the estimator raises. */
    method ComputeBounds(sub: MinSub) returns (ok: bool)
      modifies sub, this`recV, this`recX
      ensures var r := MinProcess.ComputeBounds(Config(), old(Rec()), old(sub.Value()));
              ok == r.Ok? && (ok ==> Rec() == r.value.0 && sub.Value() == r.value.1)
    {
      var b := bounding(sub.ival);
      if b.Fail? {
        return false;
      }
      sub.splitPoint, sub.bound := b.value.split, b.value.bound;
      var x, v := b.value.x, b.value.v;
      if v < recV {
        recX := x;
        recV := v;
      }
      ok := true;
    }

    /** A child `Sub` on `ival`, bounded; `ok` is false where that raises. */
    method NewChild(level: int, ival: Ival) returns (c: MinSub, ok: bool)
      modifies this`recV, this`recX
      ensures fresh(c)
      ensures var r := MinProcess.ComputeBounds(Config(), old(Rec()), Fresh(level, ival));
              ok == r.Ok? && (ok ==> Rec() == r.value.0 && c.Value() == r.value.1)
    {
      c := new MinSub(Fresh(level, ival));
      ok := ComputeBounds(c);
    }

    /** Lines 70-77: both halves at `at`, bounded and filtered; `ok` is false where that raises. */
    method Divide(sub: MinSub, at: real) returns (lst: seq<MinSub>, ok: bool)
      modifies this`recV, this`recX
      ensures var r := Split(Config(), old(Rec()), sub.Value(), at);
              ok == r.Done?
              && (ok ==> Rec() == r.rec && |lst| == |r.children|
                         && forall i :: 0 <= i < |lst| ==> fresh(lst[i]) && lst[i].Value() == r.children[i])
    {
      ghost var rec0, n := Rec(), sub.Value();
      var sub1, sub2;
      sub1, ok := NewChild(sub.level + 1, Ival(sub.ival.lo, at));
      if !ok {
        return [], false;
      }
      ghost var rec1, n1 := Rec(), sub1.Value();
      sub2, ok := NewChild(sub.level + 1, Ival(at, sub.ival.hi));
      if !ok {
        return [], false;
      }
      SplitOf(Config(), rec0, n, at, rec1, n1, Rec(), sub2.Value());
      lst := KeepSubs(sub1, sub2, recV, eps);
    }

    /**
     * `process`: `ok` is false where the source raises; otherwise the new
     * record and the kept children are those of `MinProcess.Process`.
     */
    method Process(sub: MinSub) returns (lst: seq<MinSub>, ok: bool)
      modifies this`recV, this`recX
      ensures var r := MinProcess.Process(Config(), old(Rec()), sub.Value());
              ok == r.Done?
              && (ok ==> Rec() == r.rec && |lst| == |r.children|
                         && forall i :: 0 <= i < |lst| ==> fresh(lst[i]) && lst[i].Value() == r.children[i])
    {
      lst, ok := [], true;
      if sub.bound < recV - eps {
        if sub.splitPoint.None? {
          return [], false;
        }
        lst, ok := Divide(sub, sub.splitPoint.value);
      }
    }
  }
}
