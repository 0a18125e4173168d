/**
 * The bisection step policy of FZCP/psqeprocessor_fzcp.py,
 * `PSQEProcessor_FZCP`.
 *
 * A subproblem carries the minimum of the smooth quadratic
 * under-estimator (`bound[0]`) and the maximum of the over-estimator
 * (`bound[1]`); it can hold the first zero only when they straddle 0 and
 * it starts left of the record point.  It is split at a point chosen from
 * where 0 sits between the two bounds, and a left half whose right end is
 * a new point with `f <= 0` moves the record there and drops the right
 * half.  `getNewTrialPoint`, which no estimator class defines, is the
 * oracle `trialPoint` of the settings.
 */
module PsqeProcessorFzcp {
  import opened Common
  import opened RealFacts
  import opened FloatInterval
  import opened FzcpSub
  import PsqeBounds
  import PsqeUnder

  /** The problem: `f` and `f'` at points, an enclosure of `f''` over intervals. */
  datatype Problem = Problem(a: real, b: real, objective: real -> real, df: real -> real, ddf: Ival -> Ival)

  /**
   * What a step depends on: the tolerance, `f`, `compute_bounds` as a
   * function of the interval and the mode, `lower_bound_and_point` of an
   * estimator, and the trial-point oracle.  The processor fixes `estimate`
   * to `Estimator` on its own enclosure options and `lowerBound` to that
   * of module `PsqeBounds`.
   */
  datatype Settings = Settings(eps: real, objective: real -> real,
                               estimate: (Ival, bool) -> Result<PsqeBounds.Bounds>,
                               lowerBound: PsqeBounds.Bounds -> (real, real),
                               trialPoint: PsqeBounds.Bounds -> real)

  /** The fields the step updates: the results (split points) and the record point. */
  datatype State = State(resList: seq<Option<real>>, recX: real)

  /** The outcome of one step: the source raises, or the new state and the children. */
  datatype Outcome = Raises | Done(state: State, children: seq<Node>)

  /**
   * Lines 55-61: the global enclosure `ddi` of `f''` or the local one; the
   * symmetric option is always built from the global one.
   */
  function Enclosure(problem: Problem, ddi: Ival, globalLipint: bool, useSymmLipint: bool, ival: Ival): (r: Ival)
    ensures !useSymmLipint ==> r == (if globalLipint then ddi else problem.ddf(ival))
    ensures useSymmLipint ==> r.lo == -r.hi && r.lo <= ddi.lo && ddi.hi <= r.hi
  {
    if useSymmLipint then
      var L := Max2(-ddi.lo, ddi.hi);
      Ival(-L, L)
    else if globalLipint then ddi
    else problem.ddf(ival)
  }

  /**
   * `compute_bounds`: the estimator on the interval, with `f`, `f'` taken
   * at its ends.  `asWritten` selects the constructor of module
   * `PsqeBounds` as written (as the processor runs) or the corrected one;
   * the two differ only on the over-estimator.
   */
  function Estimator(problem: Problem, ddi: Ival, globalLipint: bool, useSymmLipint: bool,
                     ival: Ival, under: bool, asWritten: bool): (r: Result<PsqeBounds.Bounds>)
    ensures r.Ok? ==> r.value.under == under && r.value.est.a == ival.lo && r.value.est.b == ival.hi
    ensures var E := Enclosure(problem, ddi, globalLipint, useSymmLipint, ival);
            under ==> r == PsqeBounds.Build(ival.lo, ival.hi, E.lo, E.hi, problem.objective(ival.lo),
                                           problem.objective(ival.hi), problem.df(ival.lo), problem.df(ival.hi),
                                           true)
  {
    var E := Enclosure(problem, ddi, globalLipint, useSymmLipint, ival);
    var f, df := problem.objective, problem.df;
    if asWritten then
      PsqeBounds.UnderIsPsqe(ival.lo, ival.hi, E.lo, E.hi, f(ival.lo), f(ival.hi), df(ival.lo), df(ival.hi));
      PsqeBounds.BuildAsWritten(ival.lo, ival.hi, E.lo, E.hi, f(ival.lo), f(ival.hi), df(ival.lo), df(ival.hi), under)
    else
      PsqeBounds.Build(ival.lo, ival.hi, E.lo, E.hi, f(ival.lo), f(ival.hi), df(ival.lo), df(ival.hi), under)
  }

  /**
   * Lines 69-77: the split point, `beta` of the way into the interval,
   * clamped to between a third and two thirds of it.
   */
  function SplitPoint(lo: real, widthX: real, beta: real): (r: real)
    ensures 0.0 <= widthX ==> lo + 0.33 * widthX <= r <= lo + 0.66 * widthX
    ensures 0.33 <= beta < 0.66 ==> r == lo + beta * widthX
  {
    if beta < 0.33 then lo + 0.33 * widthX
    else if beta < 0.66 then
      assert 0.0 <= widthX ==> lo + 0.33 * widthX <= lo + beta * widthX <= lo + 0.66 * widthX by {
        if 0.0 <= widthX {
          MulNonneg(beta - 0.33, widthX);
          MulNonneg(0.66 - beta, widthX);
        }
      }
      lo + beta * widthX
    else lo + 0.66 * widthX
  }

  /**
   * `updateSplitAndBounds`: `bound[1]` from the over-estimator, `bound[0]`
   * from the under-estimator, then the split point; a failed build or two
   * equal bounds make the source raise.
   */
  function SplitAndBounds(s: Settings, n: Node): (r: Option<Node>)
    ensures r.Some? ==> r.value.level == n.level && r.value.ival == n.ival && r.value.split.Some?
    ensures r.Some? && n.ival.lo <= n.ival.hi ==> n.ival.lo <= r.value.split.value <= n.ival.hi
    ensures r.Some? ==> s.estimate(n.ival, false).Ok? && s.estimate(n.ival, true).Ok?
                        && r.value.upper == s.lowerBound(s.estimate(n.ival, false).value).1
                        && r.value.lower == s.lowerBound(s.estimate(n.ival, true).value).1
                        && r.value.upper != r.value.lower
    ensures r.None? <==> s.estimate(n.ival, false).Fail? || s.estimate(n.ival, true).Fail?
                         || s.lowerBound(s.estimate(n.ival, false).value).1
                            == s.lowerBound(s.estimate(n.ival, true).value).1
  {
    match s.estimate(n.ival, false)
    case Fail(_) => None
    case Ok(over) =>
      match s.estimate(n.ival, true)
      case Fail(_) => None
      case Ok(under) =>
        var upper, lower := s.lowerBound(over).1, s.lowerBound(under).1;
        if upper - lower == 0.0 then None
        else
          var split := SplitPoint(n.ival.lo, n.ival.hi - n.ival.lo, upper / (upper - lower));
          Some(n.(lower := lower, upper := upper, split := Some(split)))
  }

  /**
   * With the estimator of module `PsqeBounds`, `bound[0]` is at most the
   * under-estimator at every point it checks, and `bound[1]` at least the
   * over-estimator at every point it checks.
   */
  lemma BoundsEncloseEstimators(s: Settings, n: Node)
    requires s.lowerBound == PsqeBounds.LowerBound
    requires SplitAndBounds(s, n).Some?
    ensures var r, over, under := SplitAndBounds(s, n).value, s.estimate(n.ival, false).value,
                                  s.estimate(n.ival, true).value;
            (!over.under && under.under)
            ==> (forall y :: y in PsqeUnder.CheckList(under.est) ==> r.lower <= PsqeBounds.Estimator(under, y))
                && (forall y :: y in PsqeUnder.CheckList(over.est) ==> -PsqeBounds.Estimator(over, y) <= r.upper)
  {
  }

  /**
   * Lines 85-99: the left half at the split point with its bounds; when its
   * right end is a point with `f <= 0` left of the record, it becomes the
   * record and the right half is dropped, otherwise the right half comes
   * first.
   */
  function Expand(s: Settings, st: State, n: Node): (r: Outcome)
    ensures r.Done? ==>
              r.state.resList == st.resList && n.split.Some? && 1 <= |r.children| <= 2
              && r.children[|r.children| - 1].ival == Ival(n.ival.lo, n.split.value)
              && (|r.children| == 2 ==> r.children[0].ival == Ival(n.split.value, n.ival.hi))
              && (forall c :: c in r.children ==> c.level == n.level + 1 && c.split.Some?)
              && r.state.recX <= st.recX
              && (r.state.recX != st.recX ==>
                    r.state.recX == n.split.value && s.objective(n.split.value) <= 0.0
                    && SplitAndBounds(s, Fresh(n.level + 1, Ival(n.ival.lo, n.split.value))).Some?
                    && r.children == [SplitAndBounds(s, Fresh(n.level + 1, Ival(n.ival.lo, n.split.value))).value])
  {
    if n.split.None? then Raises
    else
      match SplitAndBounds(s, Fresh(n.level + 1, Ival(n.ival.lo, n.split.value)))
      case None => Raises
      case Some(left) =>
        if s.objective(left.ival.hi) <= 0.0 && left.ival.hi < st.recX then Done(st.(recX := left.ival.hi), [left])
        else
          match SplitAndBounds(s, Fresh(n.level + 1, Ival(n.split.value, n.ival.hi)))
          case None => Raises
          case Some(right) => Done(st, [right, left])
  }

  /** `fzcp_process` (lines 79-101), on values. */
  function Step(s: Settings, st: State, n: Node): (r: Outcome)
    ensures !(n.lower <= 0.0 <= n.upper && n.ival.lo < st.recX) ==> r == Done(st, [])
    ensures r.Done? ==> st.resList <= r.state.resList && |r.state.resList| <= |st.resList| + 1
    ensures r.Done? && r.children != [] ==> r.state.resList == st.resList
    ensures r.Done? && r.state.resList != st.resList ==>
              r.state.resList == st.resList + [n.split] && r.children == []
              && n.ival.hi - n.ival.lo < s.eps && s.objective(n.ival.hi) <= 0.0
    ensures r.Done? ==> r.state.recX <= st.recX && |r.children| <= 2
    ensures r.Done? && r.state.recX != st.recX ==>
              n.split.Some? && r.state.recX == n.split.value && s.objective(n.split.value) <= 0.0
              && SplitAndBounds(s, Fresh(n.level + 1, Ival(n.ival.lo, n.split.value))).Some?
              && r.children == [SplitAndBounds(s, Fresh(n.level + 1, Ival(n.ival.lo, n.split.value))).value]
    ensures r.Done? && r.children != [] ==>
              n.split.Some? && r.children[|r.children| - 1].ival == Ival(n.ival.lo, n.split.value)
              && (|r.children| == 2 ==> r.children[0].ival == Ival(n.split.value, n.ival.hi))
    ensures r.Done? ==> forall c :: c in r.children ==> c.level == n.level + 1 && c.split.Some?
  {
    if n.lower <= 0.0 <= n.upper && n.ival.lo < st.recX then
      if n.ival.hi - n.ival.lo < s.eps && s.objective(n.ival.hi) <= 0.0 then
        Done(st.(resList := st.resList + [n.split]), [])
      else Expand(s, st, n)
    else Done(st, [])
  }

  /**
   * `update_interval`: when the bounds straddle 0, the interval starts at
   * the under-estimator's trial point and its right end moves left to the
   * over-estimator's trial point if that is smaller.
   */
  function IntervalUpdate(s: Settings, n: Node): (r: Option<Node>)
    ensures r.Some? ==> r.value.level == n.level && r.value.split == n.split && r.value.ival.hi <= n.ival.hi
    ensures r.Some? ==> s.estimate(n.ival, false).Ok? && s.estimate(n.ival, true).Ok?
                        && r.value.upper == s.lowerBound(s.estimate(n.ival, false).value).1
                        && r.value.lower == s.lowerBound(s.estimate(n.ival, true).value).1
    ensures r.Some? && r.value.ival != n.ival ==> r.value.lower <= 0.0 <= r.value.upper
    ensures r.Some? && r.value.lower <= 0.0 <= r.value.upper ==>
              s.estimate(n.ival, false).Ok? && s.estimate(n.ival, true).Ok?
              && r.value.ival.lo == s.trialPoint(s.estimate(n.ival, true).value)
              && (r.value.ival.hi == n.ival.hi || r.value.ival.hi == s.trialPoint(s.estimate(n.ival, false).value))
    ensures r.None? <==> s.estimate(n.ival, false).Fail? || s.estimate(n.ival, true).Fail?
  {
    match s.estimate(n.ival, false)
    case Fail(_) => None
    case Ok(over) =>
      match s.estimate(n.ival, true)
      case Fail(_) => None
      case Ok(under) =>
        var upper, lower := s.lowerBound(over).1, s.lowerBound(under).1;
        var n1 := n.(lower := lower, upper := upper);
        if lower <= 0.0 <= upper then
          var leftEnd, rightEnd := s.trialPoint(under), s.trialPoint(over);
          Some(n1.(ival := Ival(leftEnd, if rightEnd < n.ival.hi then rightEnd else n.ival.hi)))
        else Some(n1)
  }

  /** The record point only ever moves left, and a record where `f <= 0` stays one. */
  lemma RecordMovesLeft(s: Settings, st: State, n: Node)
    requires s.objective(st.recX) <= 0.0
    ensures var r := Step(s, st, n);
            r.Done? ==> r.state.recX <= st.recX && s.objective(r.state.recX) <= 0.0
  {
  }

  /**
   * With an interval in order, the children of a step cover it: the left
   * half ends and the right half starts at the split point, which lies in
   * the interval.
   */
  lemma ChildrenCover(s: Settings, st: State, n: Node)
    requires n.ival.lo <= n.ival.hi && (n.split.Some? ==> n.ival.lo <= n.split.value <= n.ival.hi)
    ensures var r := Step(s, st, n);
            r.Done? ==> forall c :: c in r.children ==> n.ival.lo <= c.ival.lo <= c.ival.hi <= n.ival.hi
                                                        && c.ival.lo <= c.split.value <= c.ival.hi
  {
    var r := Step(s, st, n);
    if r.Done? && r.children != [] {
      assert r == Expand(s, st, n);
      var left := SplitAndBounds(s, Fresh(n.level + 1, Ival(n.ival.lo, n.split.value))).value;
      assert r.children[|r.children| - 1] == left;
      if |r.children| == 2 {
        var right := SplitAndBounds(s, Fresh(n.level + 1, Ival(n.split.value, n.ival.hi))).value;
        assert r.children == [right, left];
      }
    }
  }

  /** `PSQEProcessor_FZCP` of FZCP/psqeprocessor_fzcp.py. */
  class PsqeProcessorFzcp {
    var resList: seq<Option<real>>
    var recX: real
    const recV: real
    const problem: Problem
    const eps: real
    const globalLipint: bool
    const useSymmLipint: bool
    const ddi: Ival
    const trialPoint: PsqeBounds.Bounds -> real
    /** `compute_bounds` on this processor's enclosure options, fixed at construction. */
    const estimate: (Ival, bool) -> Result<PsqeBounds.Bounds>
    /** `lower_bound_and_point` of an estimator. */
    const lowerBound: PsqeBounds.Bounds -> (real, real)

    function Snapshot(): State
      reads this
    {
      State(resList, recX)
    }

    function Config(): Settings
    {
      Settings(eps, problem.objective, estimate, lowerBound, trialPoint)
    }

    constructor (recV: real, recX: real, problem: Problem, eps: real, globalLipint: bool, useSymmLipint: bool,
                 trialPoint: PsqeBounds.Bounds -> real)
      ensures Snapshot() == State([], recX) && this.recV == recV
      ensures this.problem == problem && this.eps == eps && this.trialPoint == trialPoint
      ensures this.globalLipint == globalLipint && this.useSymmLipint == useSymmLipint
      ensures ddi == problem.ddf(Ival(problem.a, problem.b))
      ensures lowerBound == PsqeBounds.LowerBound
      ensures forall ival, under :: estimate(ival, under) == Estimator(problem, ddi, globalLipint, useSymmLipint, ival, under, true)
    {
      this.resList := [];
      this.recV := recV;
      this.recX := recX;
      this.problem := problem;
      this.eps := eps;
      this.globalLipint := globalLipint;
      this.useSymmLipint := useSymmLipint;
      this.ddi := problem.ddf(Ival(problem.a, problem.b));
      this.trialPoint := trialPoint;
      var ddi := problem.ddf(Ival(problem.a, problem.b));
      this.estimate := (ival: Ival, under: bool) => Estimator(problem, ddi, globalLipint, useSymmLipint, ival, under, true);
      this.lowerBound := PsqeBounds.LowerBound;
    }

    /** `updateSplitAndBounds`; `ok` is false where the source raises. */
    method UpdateSplitAndBounds(sub: Subproblem) returns (ok: bool)
      modifies sub
      ensures var r := SplitAndBounds(Config(), old(sub.Value()));
              ok == r.Some? && (ok ==> sub.Value() == r.value)
    {
      var upperEstimator := estimate(sub.ival, false);
      var underEstimator := estimate(sub.ival, true);
      if upperEstimator.Fail? || underEstimator.Fail? {
        return false;
      }
      sub.upper := lowerBound(upperEstimator.value).1;
      sub.lower := lowerBound(underEstimator.value).1;
      var widthX := sub.ival.hi - sub.ival.lo;
      var widthF := sub.upper - sub.lower;
      if widthF == 0.0 {
        return false;
      }
      sub.splitPoint := Some(SplitPoint(sub.ival.lo, widthX, sub.upper / widthF));
      ok := true;
    }

    /** Lines 85-99: the halves of `sub`; `ok` is false where the source raises. */
    method Divide(sub: Subproblem) returns (lst: seq<Subproblem>, ok: bool)
      modifies this`recX
      ensures var r := Expand(Config(), old(Snapshot()), sub.Value());
              ok == r.Done?
              && (ok ==> Snapshot() == r.state && |lst| == |r.children|
                         && forall i :: 0 <= i < |lst| ==> fresh(lst[i]) && lst[i].Value() == r.children[i])
    {
      if sub.splitPoint.None? {
        return [], false;
      }
      var subLeft;
      subLeft, ok := NewChild(sub.level + 1, Ival(sub.ival.lo, sub.splitPoint.value));
      if !ok {
        return [], false;
      }
      if problem.objective(subLeft.ival.hi) <= 0.0 && subLeft.ival.hi < recX {
        recX := subLeft.ival.hi;
        lst := [subLeft];
      } else {
        var subRight;
        subRight, ok := NewChild(sub.level + 1, Ival(sub.splitPoint.value, sub.ival.hi));
        if !ok {
          return [], false;
        }
        lst := [subRight, subLeft];
      }
    }

    /**
     * `fzcp_process`: one step on `sub`.  `ok` is false where the source
     * raises; otherwise the new state and the children are those of `Step`.
     */
    method FzcpProcess(sub: Subproblem) returns (lst: seq<Subproblem>, ok: bool)
      modifies this`resList, this`recX
      ensures var r := Step(Config(), old(Snapshot()), sub.Value());
              ok == r.Done?
              && (ok ==> Snapshot() == r.state && |lst| == |r.children|
                         && forall i :: 0 <= i < |lst| ==> fresh(lst[i]) && lst[i].Value() == r.children[i])
    {
      lst, ok := [], true;
      if sub.lower <= 0.0 <= sub.upper && sub.ival.lo < recX {
        if sub.ival.hi - sub.ival.lo < eps && problem.objective(sub.ival.hi) <= 0.0 {
          resList := resList + [sub.splitPoint];
        } else {
          lst, ok := Divide(sub);
        }
      }
    }

    /** A child `Sub` on `ival` with `updateSplitAndBounds` applied; `ok` is false where that raises. */
    method NewChild(level: int, ival: Ival) returns (c: Subproblem, ok: bool)
      ensures fresh(c)
      ensures var r := SplitAndBounds(Config(), Fresh(level, ival));
              ok == r.Some? && (ok ==> c.Value() == r.value)
    {
      c := new Subproblem(Fresh(level, ival));
      ok := UpdateSplitAndBounds(c);
    }

    /** `update_interval`; `ok` is false where an estimator cannot be built. */
    method UpdateInterval(sub: Subproblem) returns (ok: bool)
      modifies sub
      ensures var r := IntervalUpdate(Config(), old(sub.Value()));
              ok == r.Some? && (ok ==> sub.Value() == r.value)
    {
      var upperEstimator := estimate(sub.ival, false);
      var underEstimator := estimate(sub.ival, true);
      if upperEstimator.Fail? || underEstimator.Fail? {
        return false;
      }
      sub.upper := lowerBound(upperEstimator.value).1;
      sub.lower := lowerBound(underEstimator.value).1;
      if sub.lower <= 0.0 <= sub.upper {
        var leftEnd := trialPoint(underEstimator.value);
        var rightEnd := trialPoint(upperEstimator.value);
        var hi := if rightEnd < sub.ival.hi then rightEnd else sub.ival.hi;
        sub.ival := Ival(leftEnd, hi);
      }
      ok := true;
    }
  }
}
