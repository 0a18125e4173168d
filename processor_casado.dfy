/**
 * The bisection step policy of FZCP/processor_Casado.py, `CasProcessor`.
 *
 * The bounds of a subproblem are the ends of the objective's interval
 * enclosure over it.  It is split only when they straddle 0 and it starts
 * left of the record point; a narrow one whose right end has `f < 0`
 * yields its split point as the result and stops the search.
 */
module ProcessorCasado {
  import opened Common
  import opened RealFacts
  import opened FloatInterval
  import opened FzcpSub

  /** The problem: `f` at points and its enclosure over intervals (one Python callable serves both). */
  datatype Problem = Problem(a: real, b: real, objective: real -> real, objI: Ival -> Ival)

  /** The fields a step updates: the results, the record point and the `running` flag. */
  datatype State = State(resList: seq<Option<real>>, recX: real, running: bool)

  /** The outcome of one step: the source raises, or the new state and the children. */
  datatype Outcome = Raises | Done(state: State, children: seq<Node>)

  /**
   * Lines 57-68: the split point's offset from the left end: `ratio` of
   * the width, clamped to between a third and two thirds of it; above two
   * thirds it is a third when `f(b)` is at least as near the lower bound
   * (`nearLower`), two thirds otherwise.
   */
  function Offset(widthX: real, ratio: real, nearLower: bool): (r: real)
    ensures 0.0 <= widthX ==> 0.33 * widthX <= r <= 0.66 * widthX
    ensures ratio <= 0.33 ==> r == 0.33 * widthX
    ensures 0.33 < ratio <= 0.66 ==> r == ratio * widthX
    ensures 0.66 < ratio ==> r == (if nearLower then 0.33 else 0.66) * widthX
  {
    if ratio <= 0.33 then 0.33 * widthX
    else if ratio <= 0.66 then
      assert 0.0 <= widthX ==> 0.33 * widthX <= ratio * widthX <= 0.66 * widthX by {
        if 0.0 <= widthX {
          MulNonneg(ratio - 0.33, widthX);
          MulNonneg(0.66 - ratio, widthX);
        }
      }
      ratio * widthX
    else if nearLower then 0.33 * widthX
    else 0.66 * widthX
  }

  /**
   * Lines 52-70: the split point for bounds `lower`, `upper` with
   * `fx2 = f(b)`; equal bounds give `(a + a) / 2`, the left end.
   */
  function SplitPoint(lo: real, widthX: real, lower: real, upper: real, fx2: real): (r: real)
    ensures upper == lower ==> r == lo
    ensures upper != lower && 0.0 <= widthX ==> lo + 0.33 * widthX <= r <= lo + 0.66 * widthX
  {
    var widthF := upper - lower;
    if widthF == 0.0 then (lo + lo) / 2.0
    else Offset(widthX, upper / widthF, upper - fx2 <= fx2 - lower) + lo
  }

  /** `updateSplitAndBounds`: the bounds from the enclosure, then the split point; it never raises. */
  function SplitAndBounds(p: Problem, n: Node): (r: Node)
    ensures r.level == n.level && r.ival == n.ival && r.split.Some?
    ensures r.lower == p.objI(n.ival).lo && r.upper == p.objI(n.ival).hi
    ensures r.lower == r.upper ==> r.split.value == n.ival.lo
    ensures r.lower != r.upper && n.ival.lo <= n.ival.hi ==>
              n.ival.lo + 0.33 * (n.ival.hi - n.ival.lo) <= r.split.value <= n.ival.lo + 0.66 * (n.ival.hi - n.ival.lo)
  {
    var bounds := p.objI(n.ival);
    var split := SplitPoint(n.ival.lo, n.ival.hi - n.ival.lo, bounds.lo, bounds.hi, p.objective(n.ival.hi));
    n.(lower := bounds.lo, upper := bounds.hi, split := Some(split))
  }

  /**
   * Lines 82-91: both halves at the split point with their bounds, the
   * right one first; the split point becomes the record point when `f <= 0`
   * there and it lies left of the record.
   */
  function Expand(p: Problem, st: State, n: Node): (r: Outcome)
    ensures r.Raises? <==> n.split.None?
    ensures r.Done? ==>
              r.state.resList == st.resList && r.state.running == st.running && |r.children| == 2
              && r.children[0].ival == Ival(n.split.value, n.ival.hi)
              && r.children[1].ival == Ival(n.ival.lo, n.split.value)
              && r.children[0].level == n.level + 1 && r.children[1].level == n.level + 1
              && r.state.recX <= st.recX
              && (r.state.recX != st.recX ==> r.state.recX == n.split.value && p.objective(n.split.value) <= 0.0)
  {
    if n.split.None? then Raises
    else
      var left := SplitAndBounds(p, Fresh(n.level + 1, Ival(n.ival.lo, n.split.value)));
      var right := SplitAndBounds(p, Fresh(n.level + 1, Ival(n.split.value, n.ival.hi)));
      var recX := if p.objective(left.ival.hi) <= 0.0 && left.ival.hi < st.recX then left.ival.hi else st.recX;
      Done(st.(recX := recX), [right, left])
  }

  /** `fzcp_process` (lines 72-92), on values. */
  function Step(p: Problem, eps: real, st: State, n: Node): (r: Outcome)
    ensures !(n.lower <= 0.0 <= n.upper && n.ival.lo < st.recX) ==> r == Done(st, [])
    ensures r.Done? ==> st.resList <= r.state.resList && |r.state.resList| <= |st.resList| + 1
    ensures r.Done? && r.state.resList != st.resList ==>
              r.state == State(st.resList + [n.split], st.recX, false) && r.children == []
              && n.ival.hi - n.ival.lo < eps && p.objective(n.ival.hi) < 0.0
    ensures r.Done? && r.state.running != st.running ==> r.state.resList != st.resList
    ensures r.Done? && r.children != [] ==> r.state.resList == st.resList && |r.children| == 2
    ensures r.Done? ==> r.state.recX <= st.recX
    ensures r.Done? && r.state.recX != st.recX ==>
              n.split.Some? && r.state.recX == n.split.value && p.objective(n.split.value) <= 0.0
  {
    if n.lower <= 0.0 <= n.upper && n.ival.lo < st.recX then
      if n.ival.hi - n.ival.lo < eps && p.objective(n.ival.hi) < 0.0 then
        Done(State(st.resList + [n.split], st.recX, false), [])
      else Expand(p, st, n)
    else Done(st, [])
  }

  /**
   * Pruning is sound: when the enclosure holds `f` on the interval, the
   * bounds of a subproblem holding a zero of `f` straddle 0, so the step
   * never drops it for its bounds.
   */
  lemma ZeroKeepsBounds(p: Problem, m: Node, x: real)
    requires forall y :: m.ival.lo <= y <= m.ival.hi ==> p.objI(m.ival).lo <= p.objective(y) <= p.objI(m.ival).hi
    requires m.ival.lo <= x <= m.ival.hi
    requires p.objective(x) == 0.0
    ensures var n := SplitAndBounds(p, m); n.lower <= 0.0 <= n.upper
  {
  }

  /** The record point only ever moves left, and a record where `f <= 0` stays one. */
  lemma RecordMovesLeft(p: Problem, eps: real, st: State, n: Node)
    requires p.objective(st.recX) <= 0.0
    ensures var r := Step(p, eps, st, n);
            r.Done? ==> r.state.recX <= st.recX && p.objective(r.state.recX) <= 0.0
  {
  }

  /**
   * With an interval in order and its split point inside it, the two
   * children split it at that point, and each child's own split point lies
   * inside the child.
   */
  lemma ChildrenCover(p: Problem, eps: real, st: State, n: Node)
    requires n.ival.lo <= n.ival.hi && (n.split.Some? ==> n.ival.lo <= n.split.value <= n.ival.hi)
    ensures var r := Step(p, eps, st, n);
            r.Done? ==> forall c :: c in r.children ==> n.ival.lo <= c.ival.lo <= c.ival.hi <= n.ival.hi
                                                        && c.ival.lo <= c.split.value <= c.ival.hi
  {
    var r := Step(p, eps, st, n);
    if r.Done? && r.children != [] {
      assert r == Expand(p, st, n);
      var left := SplitAndBounds(p, Fresh(n.level + 1, Ival(n.ival.lo, n.split.value)));
      var right := SplitAndBounds(p, Fresh(n.level + 1, Ival(n.split.value, n.ival.hi)));
      assert r.children == [right, left];
      SplitInside(p, Fresh(n.level + 1, Ival(n.ival.lo, n.split.value)));
      SplitInside(p, Fresh(n.level + 1, Ival(n.split.value, n.ival.hi)));
    }
  }

  /** The split point of an interval in order lies inside it. */
  lemma SplitInside(p: Problem, n: Node)
    requires n.ival.lo <= n.ival.hi
    ensures var r := SplitAndBounds(p, n); n.ival.lo <= r.split.value <= n.ival.hi
  {
    var r := SplitAndBounds(p, n);
    var w := n.ival.hi - n.ival.lo;
    if r.lower != r.upper {
      MulNonneg(0.33, w);
      MulNonneg(0.34, w);
    }
  }

  /** `CasProcessor` of FZCP/processor_Casado.py. */
  class CasProcessor {
    var resList: seq<Option<real>>
    var recX: real
    var running: bool
    const recV: real
    const problem: Problem
    const eps: real

    function Snapshot(): State
      reads this
    {
      State(resList, recX, running)
    }

    constructor (recV: real, recX: real, problem: Problem, eps: real)
      ensures Snapshot() == State([], recX, true) && this.recV == recV
      ensures this.problem == problem && this.eps == eps
    {
      this.resList := [];
      this.recX := recX;
      this.running := true;
      this.recV := recV;
      this.problem := problem;
      this.eps := eps;
    }

    /** `updateSplitAndBounds`. */
    method UpdateSplitAndBounds(sub: Subproblem)
      modifies sub
      ensures sub.Value() == SplitAndBounds(problem, old(sub.Value()))
    {
      var bounds := problem.objI(sub.ival);
      sub.upper := bounds.hi;
      sub.lower := bounds.lo;
      var widthX := sub.ival.hi - sub.ival.lo;
      var widthF := sub.upper - sub.lower;
      if widthF == 0.0 {
        sub.splitPoint := Some((sub.ival.lo + sub.ival.lo) / 2.0);
        return;
      }
      var ratio := sub.upper / widthF;
      var beta;
      if ratio <= 0.33 {
        beta := 0.33 * widthX;
      } else if ratio <= 0.66 {
        beta := ratio * widthX;
      } else {
        var fx2 := problem.objective(sub.ival.hi);
        if sub.upper - fx2 <= fx2 - sub.lower {
          beta := 0.33 * widthX;
        } else {
          beta := 0.66 * widthX;
        }
      }
      assert beta == Offset(widthX, ratio, sub.upper - problem.objective(sub.ival.hi) <= problem.objective(sub.ival.hi) - sub.lower);
      sub.splitPoint := Some(beta + sub.ival.lo);
    }

    /** A child `Sub` on `ival` with `updateSplitAndBounds` applied. */
    method NewChild(level: int, ival: Ival) returns (c: Subproblem)
      ensures fresh(c) && c.Value() == SplitAndBounds(problem, Fresh(level, ival))
    {
      c := new Subproblem(Fresh(level, ival));
      UpdateSplitAndBounds(c);
    }

    /** Lines 82-91: the two halves of `sub`; `ok` is false where the source raises. */
    method Divide(sub: Subproblem) returns (lst: seq<Subproblem>, ok: bool)
      modifies this`recX
      ensures var r := Expand(problem, old(Snapshot()), sub.Value());
              ok == r.Done?
              && (ok ==> Snapshot() == r.state && |lst| == |r.children|
                         && forall i :: 0 <= i < |lst| ==> fresh(lst[i]) && lst[i].Value() == r.children[i])
    {
      if sub.splitPoint.None? {
        return [], false;
      }
      var sub1 := NewChild(sub.level + 1, Ival(sub.ival.lo, sub.splitPoint.value));
      var sub2 := NewChild(sub.level + 1, Ival(sub.splitPoint.value, sub.ival.hi));
      if problem.objective(sub1.ival.hi) <= 0.0 && sub1.ival.hi < recX {
        recX := sub1.ival.hi;
      }
      lst, ok := [sub2, sub1], true;
    }

    /**
     * `fzcp_process`: one step on `sub`.  `ok` is false where the source
     * raises; otherwise the new state and the children are those of `Step`.
     */
    method FzcpProcess(sub: Subproblem) returns (lst: seq<Subproblem>, ok: bool)
      modifies this`resList, this`recX, this`running
      ensures var r := Step(problem, eps, old(Snapshot()), sub.Value());
              ok == r.Done?
              && (ok ==> Snapshot() == r.state && |lst| == |r.children|
                         && forall i :: 0 <= i < |lst| ==> fresh(lst[i]) && lst[i].Value() == r.children[i])
    {
      lst, ok := [], true;
      if sub.lower <= 0.0 <= sub.upper && sub.ival.lo < recX {
        if sub.ival.hi - sub.ival.lo < eps && problem.objective(sub.ival.hi) < 0.0 {
          resList := resList + [sub.splitPoint];
          running := false;
          return;
        } else {
          lst, ok := Divide(sub);
        }
      }
    }
  }
}
