/**
 * The bisection step policy of FZCP/pslprocessor_fzcp.py, `PSLProcessor`,
 * over the float piecewise linear estimator of module `PslBounds`.
 *
 * A subproblem keeps `bound[0]`, the minimum of the under-estimator, and
 * `bound[1]`, the value `lower_bound_and_point` reports for the
 * over-estimator; it is split only when they straddle 0 and it starts
 * left of the record point.  Both halves are always returned, the right
 * one first, and the split point becomes the record point when `f <= 0`
 * there.
 *
 * `lower_bound_and_point` of the float estimator does not negate its
 * value in over mode, so `bound[1]` is minus the over-estimator's maximum;
 * `negateUpper` selects that reading (`false`, as the processor runs) or
 * the evidently intended one (`true`).
 */
module PslProcessorFzcp {
  import opened Common
  import opened RealFacts
  import opened FloatInterval
  import opened FzcpSub
  import PslBounds

  /** The problem: `f` at points and an enclosure of `f'` over intervals. */
  datatype Problem = Problem(a: real, b: real, objective: real -> real, df: Ival -> Ival)

  /** The processor's constants; `di` is the enclosure of `f'` over `[a, b]`. */
  datatype Settings = Settings(problem: Problem, eps: real, di: Ival, globalLipint: bool, useSymmLipint: bool,
                               negateUpper: bool)

  /** The fields a step updates: the results (split points) and the record point. */
  datatype State = State(resList: seq<Option<real>>, recX: real)

  /** The outcome of one step: the source raises, or the new state and the children. */
  datatype Outcome = Raises | Done(state: State, children: seq<Node>)

  /**
   * Lines 51-57: the global enclosure or the one over the interval; the
   * symmetric option widens the chosen one to `[-L, L]`.
   */
  function Enclosure(s: Settings, ival: Ival): (r: Ival)
    ensures var chosen := if s.globalLipint then s.di else s.problem.df(ival);
            (!s.useSymmLipint ==> r == chosen)
            && (s.useSymmLipint ==> r.lo == -r.hi && r.lo <= chosen.lo && chosen.hi <= r.hi)
  {
    var di := if s.globalLipint then s.di else s.problem.df(ival);
    if s.useSymmLipint then
      var L := Max2(-di.lo, di.hi);
      Ival(-L, L)
    else di
  }

  /** `compute_bounds` (line 59): the estimator on the interval; equal slope bounds make it raise. */
  function Estimator(s: Settings, ival: Ival, under: bool): (r: Result<PslBounds.Psl>)
    ensures r.Ok? <==> Enclosure(s, ival).lo != Enclosure(s, ival).hi
    ensures r.Ok? ==> r.value.a == ival.lo && r.value.b == ival.hi && PslBounds.Built(r.value)
    ensures r.Ok? && Enclosure(s, ival).lo < Enclosure(s, ival).hi ==> r.value.alp < r.value.bet
  {
    var E := Enclosure(s, ival);
    var f := s.problem.objective;
    var r := PslBounds.Build(ival.lo, ival.hi, E.lo, E.hi, f(ival.lo), f(ival.hi), under);
    if r.Ok? then PslBounds.BuildIsBuilt(ival.lo, ival.hi, E.lo, E.hi, f(ival.lo), f(ival.hi), under); r
    else r
  }

  /** `bound[1]` from the over-estimator: as written, or negated as intended. */
  function Upper(s: Settings, over: PslBounds.Psl): real
  {
    if s.negateUpper then -PslBounds.LowerBoundAndPoint(over).1 else PslBounds.LowerBoundAndPoint(over).1
  }

  /**
   * Lines 65-73: the split point, `beta` of the way into the interval,
   * clamped to between a third and two thirds of it.
   */
  function SplitPoint(lo: real, widthX: real, beta: real): (r: real)
    ensures 0.0 <= widthX ==> lo + 0.33 * widthX <= r <= lo + 0.66 * widthX
    ensures 0.33 < beta <= 0.66 ==> r == lo + beta * widthX
  {
    if beta <= 0.33 then lo + 0.33 * widthX
    else if beta <= 0.66 then
      assert 0.0 <= widthX ==> lo + 0.33 * widthX <= lo + beta * widthX <= lo + 0.66 * widthX by {
        if 0.0 <= widthX {
          MulNonneg(beta - 0.33, widthX);
          MulNonneg(0.66 - beta, widthX);
        }
      }
      lo + beta * widthX
    else lo + 0.66 * widthX
  }

  /**
   * `updateSplitAndBounds`: `bound[1]` from the over-estimator, `bound[0]`
   * from the under-estimator, then the split point; a failed build or two
   * equal bounds make the source raise.
   */
  function SplitAndBounds(s: Settings, n: Node): (r: Option<Node>)
    ensures r.Some? ==> r.value.level == n.level && r.value.ival == n.ival && r.value.split.Some?
    ensures r.Some? && n.ival.lo <= n.ival.hi ==> n.ival.lo <= r.value.split.value <= n.ival.hi
    ensures r.Some? ==> Estimator(s, n.ival, false).Ok? && Estimator(s, n.ival, true).Ok?
                        && r.value.upper == Upper(s, Estimator(s, n.ival, false).value)
                        && r.value.lower == PslBounds.LowerBoundAndPoint(Estimator(s, n.ival, true).value).1
                        && r.value.upper != r.value.lower
    ensures r.None? <==> Enclosure(s, n.ival).lo == Enclosure(s, n.ival).hi
                         || Upper(s, Estimator(s, n.ival, false).value)
                            == PslBounds.LowerBoundAndPoint(Estimator(s, n.ival, true).value).1
  {
    match Estimator(s, n.ival, false)
    case Fail(_) => None
    case Ok(over) =>
      match Estimator(s, n.ival, true)
      case Fail(_) => None
      case Ok(under) =>
        var upper, lower := Upper(s, over), PslBounds.LowerBoundAndPoint(under).1;
        if upper - lower == 0.0 then None
        else
          var split := SplitPoint(n.ival.lo, n.ival.hi - n.ival.lo, upper / (upper - lower));
          Some(n.(lower := lower, upper := upper, split := Some(split)))
  }

  /**
   * `bound[0]` is at most the under-estimator of `f` everywhere on the
   * interval; with `negateUpper`, `bound[1]` is at least the over-estimator
   * of `f` everywhere on it, so the two bounds enclose both estimators.
   */
  lemma BoundsEncloseEstimators(s: Settings, n: Node, x: real)
    requires SplitAndBounds(s, n).Some? && Enclosure(s, n.ival).lo < Enclosure(s, n.ival).hi
    requires n.ival.lo <= x <= n.ival.hi
    ensures var r, over, under := SplitAndBounds(s, n).value, Estimator(s, n.ival, false).value,
                                  Estimator(s, n.ival, true).value;
            r.lower <= PslBounds.Estimator(under, x)
            && (s.negateUpper ==> -PslBounds.Estimator(over, x) <= r.upper)
            && (!s.negateUpper ==> r.upper <= PslBounds.Estimator(over, x))
  {
    var over, under := Estimator(s, n.ival, false).value, Estimator(s, n.ival, true).value;
    PslBounds.LowerBoundBelowEstimator(under, x);
    PslBounds.LowerBoundBelowEstimator(over, x);
  }

  /**
   * Lines 83-92: both halves at the split point with their bounds, the
   * right one first; the split point becomes the record point when `f <= 0`
   * there and it lies left of the record.
   */
  function Expand(s: Settings, st: State, n: Node): (r: Outcome)
    ensures r.Done? ==>
              r.state.resList == st.resList && |r.children| == 2 && n.split.Some?
              && r.children[0].ival == Ival(n.split.value, n.ival.hi)
              && r.children[1].ival == Ival(n.ival.lo, n.split.value)
              && r.children[0].level == n.level + 1 && r.children[1].level == n.level + 1
              && r.state.recX <= st.recX
              && (r.state.recX != st.recX ==> r.state.recX == n.split.value && s.problem.objective(n.split.value) <= 0.0)
  {
    if n.split.None? then Raises
    else
      match SplitAndBounds(s, Fresh(n.level + 1, Ival(n.ival.lo, n.split.value)))
      case None => Raises
      case Some(left) =>
        match SplitAndBounds(s, Fresh(n.level + 1, Ival(n.split.value, n.ival.hi)))
        case None => Raises
        case Some(right) =>
          var f := s.problem.objective;
          var recX := if f(left.ival.hi) <= 0.0 && left.ival.hi < st.recX then left.ival.hi else st.recX;
          Done(st.(recX := recX), [right, left])
  }

  /** `fzcp_process` (lines 75-93), on values. */
  function Step(s: Settings, st: State, n: Node): (r: Outcome)
    ensures !(n.lower <= 0.0 <= n.upper && n.ival.lo < st.recX) ==> r == Done(st, [])
    ensures r.Done? ==> st.resList <= r.state.resList && |r.state.resList| <= |st.resList| + 1
    ensures r.Done? && r.state.resList != st.resList ==>
              r.state.resList == st.resList + [n.split] && r.children == [] && r.state.recX == st.recX
              && n.ival.hi - n.ival.lo < s.eps && s.problem.objective(n.ival.hi) <= 0.0
    ensures r.Done? && r.children != [] ==>
              r.state.resList == st.resList && |r.children| == 2 && n.split.Some?
              && r.children[0].ival == Ival(n.split.value, n.ival.hi)
              && r.children[1].ival == Ival(n.ival.lo, n.split.value)
              && r.children[0].level == n.level + 1 && r.children[1].level == n.level + 1
    ensures r.Done? ==> r.state.recX <= st.recX
    ensures r.Done? && r.state.recX != st.recX ==>
              n.split.Some? && r.state.recX == n.split.value && s.problem.objective(n.split.value) <= 0.0
  {
    var f := s.problem.objective;
    if n.lower <= 0.0 <= n.upper && n.ival.lo < st.recX then
      if n.ival.hi - n.ival.lo < s.eps && f(n.ival.hi) <= 0.0 then
        Done(st.(resList := st.resList + [n.split]), [])
      else Expand(s, st, n)
    else Done(st, [])
  }

  /** The record point only ever moves left, and a record where `f <= 0` stays one. */
  lemma RecordMovesLeft(s: Settings, st: State, n: Node)
    requires s.problem.objective(st.recX) <= 0.0
    ensures var r := Step(s, st, n);
            r.Done? ==> r.state.recX <= st.recX && s.problem.objective(r.state.recX) <= 0.0
  {
  }

  /**
   * With an interval in order and its split point inside it, the two
   * children split it at that point, and each child's own split point lies
   * inside the child.
   */
  lemma ChildrenCover(s: Settings, st: State, n: Node)
    requires n.ival.lo <= n.ival.hi && (n.split.Some? ==> n.ival.lo <= n.split.value <= n.ival.hi)
    ensures var r := Step(s, st, n);
            r.Done? ==> forall c :: c in r.children ==> n.ival.lo <= c.ival.lo <= c.ival.hi <= n.ival.hi
                                                        && c.ival.lo <= c.split.value <= c.ival.hi
  {
    var r := Step(s, st, n);
    if r.Done? && r.children != [] {
      assert r == Expand(s, st, n);
      var left := SplitAndBounds(s, Fresh(n.level + 1, Ival(n.ival.lo, n.split.value))).value;
      var right := SplitAndBounds(s, Fresh(n.level + 1, Ival(n.split.value, n.ival.hi))).value;
      assert r.children == [right, left];
    }
  }

  /**
   * As written, `bound[1]` is minus the over-estimator's maximum: for
   * `f(x) = 1 - 3x` on `[0, 1]` with `f'` in `[-4, -2]`, `f` changes sign
   * inside the interval, yet `bound[1]` is -1, so the root subproblem is
   * dropped and no zero crossing is ever reported.
   */
  lemma DropsCrossingAsWritten(s: Settings, n: Node)
    requires s == Settings(Problem(0.0, 1.0, x => 1.0 - 3.0 * x, I => Ival(-4.0, -2.0)), 0.01, Ival(-4.0, -2.0),
                           true, false, false)
    requires n == Fresh(0, Ival(0.0, 1.0))
    ensures s.problem.objective(0.0) > 0.0 > s.problem.objective(1.0)
    ensures SplitAndBounds(s, n).Some? && SplitAndBounds(s, n).value.upper == -1.0
    ensures Step(s, State([], 1.0), SplitAndBounds(s, n).value) == Done(State([], 1.0), [])
  {
  }

  /** With `bound[1]` negated, the same root subproblem straddles 0 and is split. */
  lemma CorrectedKeepsCrossing(s: Settings, n: Node)
    requires s == Settings(Problem(0.0, 1.0, x => 1.0 - 3.0 * x, I => Ival(-4.0, -2.0)), 0.01, Ival(-4.0, -2.0),
                           true, false, true)
    requires n == Fresh(0, Ival(0.0, 1.0))
    ensures SplitAndBounds(s, n).Some?
    ensures var r := SplitAndBounds(s, n).value; r.lower == -2.0 && r.upper == 1.0
    ensures Step(s, State([], 1.0), SplitAndBounds(s, n).value).Done?
            && |Step(s, State([], 1.0), SplitAndBounds(s, n).value).children| == 2
  {
  }

  /** `PSLProcessor` of FZCP/pslprocessor_fzcp.py. */
  class PslProcessorFzcp {
    var resList: seq<Option<real>>
    var recX: real
    const recV: real
    const problem: Problem
    const eps: real
    const globalLipint: bool
    const useSymmLipint: bool
    const di: Ival

    function Snapshot(): State
      reads this
    {
      State(resList, recX)
    }

    /** The constants a step reads; `bound[1]` is taken as written. */
    function Config(): Settings
    {
      Settings(problem, eps, di, globalLipint, useSymmLipint, false)
    }

    constructor (recV: real, recX: real, problem: Problem, eps: real, globalLipint: bool, useSymmLipint: bool)
      ensures Snapshot() == State([], recX) && this.recV == recV
      ensures this.problem == problem && this.eps == eps
      ensures this.globalLipint == globalLipint && this.useSymmLipint == useSymmLipint
      ensures di == problem.df(Ival(problem.a, problem.b))
    {
      this.resList := [];
      this.recV := recV;
      this.recX := recX;
      this.problem := problem;
      this.eps := eps;
      this.globalLipint := globalLipint;
      this.useSymmLipint := useSymmLipint;
      this.di := problem.df(Ival(problem.a, problem.b));
    }

    /** `compute_bounds`. */
    method ComputeBounds(sub: Subproblem, under: bool) returns (e: Result<PslBounds.Psl>)
      ensures e == Estimator(Config(), sub.ival, under)
    {
      var di := if globalLipint then this.di else problem.df(sub.ival);
      if useSymmLipint {
        var L := Max2(-di.lo, di.hi);
        di := Ival(-L, L);
      }
      var a, b := sub.ival.lo, sub.ival.hi;
      e := PslBounds.Build(a, b, di.lo, di.hi, problem.objective(a), problem.objective(b), under);
    }

    /** `updateSplitAndBounds`; `ok` is false where the source raises. */
    method UpdateSplitAndBounds(sub: Subproblem) returns (ok: bool)
      modifies sub
      ensures var r := SplitAndBounds(Config(), old(sub.Value()));
              ok == r.Some? && (ok ==> sub.Value() == r.value)
    {
      var upperEstimator := ComputeBounds(sub, false);
      if upperEstimator.Fail? {
        return false;
      }
      var maxX;
      maxX, sub.upper := PslBounds.LowerBoundAndPoint(upperEstimator.value).0,
                         PslBounds.LowerBoundAndPoint(upperEstimator.value).1;
      var underEstimator := ComputeBounds(sub, true);
      if underEstimator.Fail? {
        return false;
      }
      var minX;
      minX, sub.lower := PslBounds.LowerBoundAndPoint(underEstimator.value).0,
                         PslBounds.LowerBoundAndPoint(underEstimator.value).1;
      var widthX := sub.ival.hi - sub.ival.lo;
      var widthF := sub.upper - sub.lower;
      if widthF == 0.0 {
        return false;
      }
      sub.splitPoint := Some(SplitPoint(sub.ival.lo, widthX, sub.upper / widthF));
      ok := true;
    }

    /** A child `Sub` on `ival` with `updateSplitAndBounds` applied; `ok` is false where that raises. */
    method NewChild(level: int, ival: Ival) returns (c: Subproblem, ok: bool)
      ensures fresh(c)
      ensures var r := SplitAndBounds(Config(), Fresh(level, ival));
              ok == r.Some? && (ok ==> c.Value() == r.value)
    {
      c := new Subproblem(Fresh(level, ival));
      ok := UpdateSplitAndBounds(c);
    }

    /** Lines 83-92: the two halves of `sub`; `ok` is false where the source raises. */
    method Divide(sub: Subproblem) returns (lst: seq<Subproblem>, ok: bool)
      modifies this`recX
      ensures var r := Expand(Config(), old(Snapshot()), sub.Value());
              ok == r.Done?
              && (ok ==> Snapshot() == r.state && |lst| == |r.children|
                         && forall i :: 0 <= i < |lst| ==> fresh(lst[i]) && lst[i].Value() == r.children[i])
    {
      if sub.splitPoint.None? {
        return [], false;
      }
      var sub1, sub2;
      sub1, ok := NewChild(sub.level + 1, Ival(sub.ival.lo, sub.splitPoint.value));
      if !ok {
        return [], false;
      }
      sub2, ok := NewChild(sub.level + 1, Ival(sub.splitPoint.value, sub.ival.hi));
      if !ok {
        return [], false;
      }
      if problem.objective(sub1.ival.hi) <= 0.0 && sub1.ival.hi < recX {
        recX := sub1.ival.hi;
      }
      lst := [sub2, sub1];
    }

    /**
     * `fzcp_process`: one step on `sub`.  `ok` is false where the source
     * raises; otherwise the new state and the children are those of `Step`.
     */
    method FzcpProcess(sub: Subproblem) returns (lst: seq<Subproblem>, ok: bool)
      modifies this`resList, this`recX
      ensures var r := Step(Config(), old(Snapshot()), sub.Value());
              ok == r.Done?
              && (ok ==> Snapshot() == r.state && |lst| == |r.children|
                         && forall i :: 0 <= i < |lst| ==> fresh(lst[i]) && lst[i].Value() == r.children[i])
    {
      lst, ok := [], true;
      var f := problem.objective;
      if sub.lower <= 0.0 <= sub.upper && sub.ival.lo < recX {
        if sub.ival.hi - sub.ival.lo < eps && f(sub.ival.hi) <= 0.0 {
          resList := resList + [sub.splitPoint];
        } else {
          lst, ok := Divide(sub);
        }
      }
    }
  }
}
