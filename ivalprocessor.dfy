/**
 * The minimisation processor of ivalprocessor.py, `IntervalProcessor`.
 *
 * The bound of a subproblem is the lower end of the objective's interval
 * enclosure over it, and the candidate record is the midpoint with its
 * value.  The step itself is `MinProcess.ProcessAtMid`.
 */
module IvalProcessor {
  import opened Common
  import opened FloatInterval
  import opened MinProcess

  /** The problem: `f` at points and its enclosure over intervals (one Python callable serves both). */
  datatype Problem = Problem(a: real, b: real, objective: real -> real, objI: Ival -> Ival)

  /** Lines 21-27: the enclosure's lower end as the bound, the midpoint and its value as the candidate. */
  function Bounds(problem: Problem, ival: Ival): (r: Result<Bounding>)
    ensures r.Ok? && r.value.split.None?
    ensures r.value.bound == problem.objI(ival).lo
    ensures r.value.x - ival.lo == ival.hi - r.value.x && r.value.v == problem.objective(r.value.x)
  {
    var c := Mid(ival);
    Ok(Bounding(None, problem.objI(ival).lo, c, problem.objective(c)))
  }

  /** With an enclosure that holds `f`, the bounds are sound lower bounds. */
  lemma BoundsSound(problem: Problem, eps: real)
    requires forall ival: Ival, x: real :: ival.lo <= x <= ival.hi ==> problem.objI(ival).lo <= problem.objective(x)
    ensures SoundBounds(Settings(eps, ival => Bounds(problem, ival)), problem.objective)
  {
  }

  /** The candidates always carry the value of `f` at their point. */
  lemma CandidatesTrue(problem: Problem, eps: real)
    ensures TrueCandidates(Settings(eps, ival => Bounds(problem, ival)), problem.objective)
  {
  }

  /** `IntervalProcessor` of ivalprocessor.py. */
  class IntervalProcessor {
    var recV: real
    var recX: real
    const problem: Problem
    const eps: real
    /** `compute_bounds`' answers on an interval. */
    const bounding: Ival -> Result<Bounding>

    function Rec(): Record
      reads this
    {
      Record(recV, recX)
    }

    function Config(): Settings
    {
      Settings(eps, bounding)
    }

    constructor (recV: real, recX: real, problem: Problem, eps: real)
      ensures Rec() == Record(recV, recX)
      ensures this.problem == problem && this.eps == eps
      ensures forall ival :: bounding(ival) == Bounds(problem, ival)
    {
      this.recV := recV;
      this.recX := recX;
      this.problem := problem;
      this.eps := eps;
      this.bounding := (ival: Ival) => Bounds(problem, ival);
    }

    /** `compute_bounds`; the enclosure always exists, so `ok` is always true. */
    method ComputeBounds(sub: MinSub) returns (ok: bool)
      modifies sub, this`recV, this`recX
      ensures var r := MinProcess.ComputeBounds(Config(), old(Rec()), old(sub.Value()));
              ok == r.Ok? && (ok ==> Rec() == r.value.0 && sub.Value() == r.value.1)
    {
      var b := bounding(sub.ival);
      if b.Fail? {
        return false;
      }
      sub.splitPoint, sub.bound := b.value.split, b.value.bound;
      var x, v := b.value.x, b.value.v;
      if v < recV {
        recX := x;
        recV := v;
      }
      ok := true;
    }

    /** A child `Sub` on `ival`, bounded; `ok` is false where that raises. */
    method NewChild(level: int, ival: Ival) returns (c: MinSub, ok: bool)
      modifies this`recV, this`recX
      ensures fresh(c)
      ensures var r := MinProcess.ComputeBounds(Config(), old(Rec()), Fresh(level, ival));
              ok == r.Ok? && (ok ==> Rec() == r.value.0 && c.Value() == r.value.1)
    {
      c := new MinSub(Fresh(level, ival));
      ok := ComputeBounds(c);
    }

    /** Lines 42-53: both halves at `at`, bounded and filtered; `ok` is false where that raises. */
    method Divide(sub: MinSub, at: real) returns (lst: seq<MinSub>, ok: bool)
      modifies this`recV, this`recX
      ensures var r := Split(Config(), old(Rec()), sub.Value(), at);
              ok == r.Done?
              && (ok ==> Rec() == r.rec && |lst| == |r.children|
                         && forall i :: 0 <= i < |lst| ==> fresh(lst[i]) && lst[i].Value() == r.children[i])
    {
      ghost var rec0, n := Rec(), sub.Value();
      var sub1, sub2;
      sub1, ok := NewChild(sub.level + 1, Ival(sub.ival.lo, at));
      if !ok {
        return [], false;
      }
      ghost var rec1, n1 := Rec(), sub1.Value();
      sub2, ok := NewChild(sub.level + 1, Ival(at, sub.ival.hi));
      if !ok {
        return [], false;
      }
      SplitOf(Config(), rec0, n, at, rec1, n1, Rec(), sub2.Value());
      lst := KeepSubs(sub1, sub2, recV, eps);
    }

    /**
     * `process`: `ok` is false where the source raises, which includes a
     * subproblem whose bound is not below `rec_v - eps`; otherwise the new
     * record and the kept children are those of `MinProcess.ProcessAtMid`.
     */
    method Process(sub: MinSub) returns (lst: seq<MinSub>, ok: bool)
      modifies this`recV, this`recX
      ensures var r := ProcessAtMid(Config(), old(Rec()), sub.Value());
              ok == r.Done?
              && (ok ==> Rec() == r.rec && |lst| == |r.children|
                         && forall i :: 0 <= i < |lst| ==> fresh(lst[i]) && lst[i].Value() == r.children[i])
    {
      if sub.bound < recV - eps {
        lst, ok := Divide(sub, Mid(sub.ival));
      } else {
        lst, ok := [], false;
      }
    }
  }
}
