/**
 * The bisection step policy of FZCP/processor_bnb_serg.py,
 * `ProcessorBNBSerg`.
 *
 * Its `compute_bounds` is that of FZCP/psqeprocessor_fzcp.py, so the
 * problem, the settings and the estimator come from module
 * `PsqeProcessorFzcp`.  A child is not given a split point by the bounds'
 * ratio; instead `update_interval` narrows it to the trial points of the
 * two estimators and, when its bounds straddle 0, splits it in the middle.
 */
module ProcessorBnbSerg {
  import opened Common
  import opened FloatInterval
  import opened FzcpSub
  import PsqeBounds
  import PsqeProcessorFzcp
  import opened RealFacts

  type Settings = PsqeProcessorFzcp.Settings
  type State = PsqeProcessorFzcp.State
  type Outcome = PsqeProcessorFzcp.Outcome

  /**
   * `update_interval` (lines 85-96): the narrowing of module
   * `PsqeProcessorFzcp`, and when the bounds straddle 0 the split point at
   * the middle of the narrowed interval; otherwise the split point is kept.
   */
  function Update(s: Settings, n: Node): (r: Option<Node>)
    ensures r.None? <==> PsqeProcessorFzcp.IntervalUpdate(s, n).None?
    ensures r.Some? ==> var m := PsqeProcessorFzcp.IntervalUpdate(s, n).value;
                        r.value.level == n.level && r.value.ival == m.ival
                        && r.value.lower == m.lower && r.value.upper == m.upper
                        && r.value.ival.hi <= n.ival.hi
    ensures r.Some? && r.value.lower <= 0.0 <= r.value.upper ==>
              r.value.split.Some?
              && r.value.split.value - r.value.ival.lo == r.value.ival.hi - r.value.split.value
    ensures r.Some? && !(r.value.lower <= 0.0 <= r.value.upper) ==> r.value.split == n.split && r.value.ival == n.ival
  {
    match PsqeProcessorFzcp.IntervalUpdate(s, n)
    case None => None
    case Some(m) =>
      if m.lower <= 0.0 <= m.upper then Some(m.(split := Some(m.ival.lo + (m.ival.hi - m.ival.lo) / 2.0)))
      else Some(m)
  }

  /** The midpoint split lies inside a narrowed interval that is in order. */
  lemma SplitInside(s: Settings, n: Node)
    requires Update(s, n).Some? && Update(s, n).value.split.Some?
    requires Update(s, n).value.ival.lo <= Update(s, n).value.ival.hi
    requires n.split.Some? ==> n.ival.lo <= n.split.value <= n.ival.hi
    ensures var r := Update(s, n).value; r.ival.lo <= r.split.value <= r.ival.hi
  {
  }

  /**
   * Lines 69-81: the left half at the split point, narrowed; when its
   * right end is a point with `f <= 0` left of the record, it becomes the
   * record and the right half is dropped, otherwise the narrowed right
   * half comes first.
   */
  function Expand(s: Settings, st: State, n: Node): (r: Outcome)
    ensures r.Done? ==>
              r.state.resList == st.resList && n.split.Some? && 1 <= |r.children| <= 2
              && r.children[|r.children| - 1].ival.hi <= n.split.value
              && (|r.children| == 2 ==> r.children[0].ival.hi <= n.ival.hi)
              && (forall c :: c in r.children ==> c.level == n.level + 1)
              && r.state.recX <= st.recX
              && (r.state.recX != st.recX ==>
                    |r.children| == 1 && r.state.recX == r.children[0].ival.hi
                    && s.objective(r.state.recX) <= 0.0)
  {
    if n.split.None? then PsqeProcessorFzcp.Raises
    else
      match Update(s, Fresh(n.level + 1, Ival(n.ival.lo, n.split.value)))
      case None => PsqeProcessorFzcp.Raises
      case Some(left) =>
        if s.objective(left.ival.hi) <= 0.0 && left.ival.hi < st.recX then
          PsqeProcessorFzcp.Done(st.(recX := left.ival.hi), [left])
        else
          match Update(s, Fresh(n.level + 1, Ival(n.split.value, n.ival.hi)))
          case None => PsqeProcessorFzcp.Raises
          case Some(right) => PsqeProcessorFzcp.Done(st, [right, left])
  }

  /** `fzcp_process` (lines 62-83), on values. */
  function Step(s: Settings, st: State, n: Node): (r: Outcome)
    ensures !(n.lower <= 0.0 <= n.upper && n.ival.lo < st.recX) ==> r == PsqeProcessorFzcp.Done(st, [])
    ensures r.Done? ==> st.resList <= r.state.resList && |r.state.resList| <= |st.resList| + 1
    ensures r.Done? && r.state.resList != st.resList ==>
              r.state.resList == st.resList + [n.split] && r.children == [] && r.state.recX == st.recX
              && n.ival.hi - n.ival.lo < s.eps && s.objective(n.ival.hi) <= 0.0
    ensures r.Done? && r.children != [] ==>
              r.state.resList == st.resList && n.split.Some? && |r.children| <= 2
              && r.children[|r.children| - 1].ival.hi <= n.split.value
              && (|r.children| == 2 ==> r.children[0].ival.hi <= n.ival.hi)
              && forall c :: c in r.children ==> c.level == n.level + 1
    ensures r.Done? ==> r.state.recX <= st.recX
    ensures r.Done? && r.state.recX != st.recX ==>
              r.children != [] && r.state.recX == r.children[0].ival.hi && s.objective(r.state.recX) <= 0.0
  {
    if n.lower <= 0.0 <= n.upper && n.ival.lo < st.recX then
      if n.ival.hi - n.ival.lo < s.eps && s.objective(n.ival.hi) <= 0.0 then
        PsqeProcessorFzcp.Done(st.(resList := st.resList + [n.split]), [])
      else Expand(s, st, n)
    else PsqeProcessorFzcp.Done(st, [])
  }

  /** The record point only ever moves left, and a record where `f <= 0` stays one. */
  lemma RecordMovesLeft(s: Settings, st: State, n: Node)
    requires s.objective(st.recX) <= 0.0
    ensures var r := Step(s, st, n);
            r.Done? ==> r.state.recX <= st.recX && s.objective(r.state.recX) <= 0.0
  {
  }

  /** `ProcessorBNBSerg` of FZCP/processor_bnb_serg.py. */
  class ProcessorBnbSerg {
    var resList: seq<Option<real>>
    var recX: real
    const recV: real
    const problem: PsqeProcessorFzcp.Problem
    const eps: real
    const globalLipint: bool
    const useSymmLipint: bool
    const ddi: Ival
    const trialPoint: PsqeBounds.Bounds -> real
    /** `compute_bounds` on this processor's enclosure options, fixed at construction. */
    const estimate: (Ival, bool) -> Result<PsqeBounds.Bounds>
    /** `lower_bound_and_point` of an estimator. */
    const lowerBound: PsqeBounds.Bounds -> (real, real)

    function Snapshot(): State
      reads this
    {
      PsqeProcessorFzcp.State(resList, recX)
    }

    function Config(): Settings
    {
      PsqeProcessorFzcp.Settings(eps, problem.objective, estimate, lowerBound, trialPoint)
    }

    constructor (recV: real, recX: real, problem: PsqeProcessorFzcp.Problem, eps: real, globalLipint: bool,
                 useSymmLipint: bool, trialPoint: PsqeBounds.Bounds -> real)
      ensures Snapshot() == PsqeProcessorFzcp.State([], recX) && this.recV == recV
      ensures this.problem == problem && this.eps == eps && this.trialPoint == trialPoint
      ensures this.globalLipint == globalLipint && this.useSymmLipint == useSymmLipint
      ensures ddi == problem.ddf(Ival(problem.a, problem.b))
      ensures lowerBound == PsqeBounds.LowerBound
      ensures forall ival, under :: estimate(ival, under)
                                    == PsqeProcessorFzcp.Estimator(problem, ddi, globalLipint, useSymmLipint, ival, under, true)
    {
      this.resList := [];
      this.recV := recV;
      this.recX := recX;
      this.problem := problem;
      this.eps := eps;
      this.globalLipint := globalLipint;
      this.useSymmLipint := useSymmLipint;
      this.ddi := problem.ddf(Ival(problem.a, problem.b));
      this.trialPoint := trialPoint;
      var ddi := problem.ddf(Ival(problem.a, problem.b));
      this.estimate := (ival: Ival, under: bool) =>
                         PsqeProcessorFzcp.Estimator(problem, ddi, globalLipint, useSymmLipint, ival, under, true);
      this.lowerBound := PsqeBounds.LowerBound;
    }

    /** `update_interval`; `ok` is false where an estimator cannot be built. */
    method UpdateInterval(sub: Subproblem) returns (ok: bool)
      modifies sub
      ensures var r := Update(Config(), old(sub.Value()));
              ok == r.Some? && (ok ==> sub.Value() == r.value)
    {
      var upperEstimator := estimate(sub.ival, false);
      if upperEstimator.Fail? {
        return false;
      }
      sub.upper := lowerBound(upperEstimator.value).1;
      var underEstimator := estimate(sub.ival, true);
      if underEstimator.Fail? {
        return false;
      }
      sub.lower := lowerBound(underEstimator.value).1;
      if sub.lower <= 0.0 <= sub.upper {
        var leftEnd := trialPoint(underEstimator.value);
        var rightEnd := trialPoint(upperEstimator.value);
        var hi := if rightEnd < sub.ival.hi then rightEnd else sub.ival.hi;
        sub.ival := Ival(leftEnd, hi);
        sub.splitPoint := Some(sub.ival.lo + (sub.ival.hi - sub.ival.lo) / 2.0);
      }
      ok := true;
    }

    /** A child `Sub` on `ival` with `update_interval` applied; `ok` is false where that raises. */
    method NewChild(level: int, ival: Ival) returns (c: Subproblem, ok: bool)
      ensures fresh(c)
      ensures var r := Update(Config(), Fresh(level, ival));
              ok == r.Some? && (ok ==> c.Value() == r.value)
    {
      c := new Subproblem(Fresh(level, ival));
      ok := UpdateInterval(c);
    }

    /** Lines 69-81: the halves of `sub`; `ok` is false where the source raises. */
    method Divide(sub: Subproblem) returns (lst: seq<Subproblem>, ok: bool)
      modifies this`recX
      ensures var r := Expand(Config(), old(Snapshot()), sub.Value());
              ok == r.Done?
              && (ok ==> Snapshot() == r.state && |lst| == |r.children|
                         && forall i :: 0 <= i < |lst| ==> fresh(lst[i]) && lst[i].Value() == r.children[i])
    {
      ghost var st0, n := Snapshot(), sub.Value();
      if sub.splitPoint.None? {
        return [], false;
      }
      var sub1;
      sub1, ok := NewChild(sub.level + 1, Ival(sub.ival.lo, sub.splitPoint.value));
      if !ok {
        return [], false;
      }
      if problem.objective(sub1.ival.hi) <= 0.0 && sub1.ival.hi < recX {
        recX := sub1.ival.hi;
        lst := [sub1];
        assert Expand(Config(), st0, n) == PsqeProcessorFzcp.Done(Snapshot(), [sub1.Value()]);
      } else {
        var sub2;
        sub2, ok := NewChild(sub.level + 1, Ival(sub.splitPoint.value, sub.ival.hi));
        if !ok {
          return [], false;
        }
        lst := [sub2, sub1];
        assert Expand(Config(), st0, n) == PsqeProcessorFzcp.Done(Snapshot(), [sub2.Value(), sub1.Value()]);
      }
    }

    /**
     * `fzcp_process`: one step on `sub`.  `ok` is false where the source
     * raises; otherwise the new state and the children are those of `Step`.
     */
    method FzcpProcess(sub: Subproblem) returns (lst: seq<Subproblem>, ok: bool)
      modifies this`resList, this`recX
      ensures var r := Step(Config(), old(Snapshot()), sub.Value());
              ok == r.Done?
              && (ok ==> Snapshot() == r.state && |lst| == |r.children|
                         && forall i :: 0 <= i < |lst| ==> fresh(lst[i]) && lst[i].Value() == r.children[i])
    {
      lst, ok := [], true;
      if sub.lower <= 0.0 <= sub.upper && sub.ival.lo < recX {
        if sub.ival.hi - sub.ival.lo < eps && problem.objective(sub.ival.hi) <= 0.0 {
          resList := resList + [sub.splitPoint];
        } else {
          lst, ok := Divide(sub);
        }
      }
    }
  }
}
