/**
 * The decimal step policy of FZCP/processor_correctly.py, `ProcessorNew`.
 *
 * One call of `FzcpProcess` handles one subproblem `[a, b]`: it prunes it
 * when it lies beyond the record point `rec_x`, certifies the result when
 * `[a, rec_x]` is already narrow, refreshes the enclosure of the
 * derivative, builds the lower estimator (falling back once and for all
 * from the quadratic to the linear one when the breakpoints are not
 * interior), narrows `[a, b]` to the estimator's ends and either records
 * the narrowed interval or splits it.
 *
 * The processor and the subproblem data are objects whose fields the step
 * updates in place; `Step` is the same computation on values, and the
 * method's contract ties the two together.  The objective and its
 * derivatives are interval oracles of the `Problem`; the square root of
 * the adaptive period formula is an oracle too.
 */
module ProcessorCorrectly {
  import opened Common
  import opened IntervalArithmetics
  import opened RealFacts
  import PslBoundsCorrectly
  import PsqeBoundsCorrectly

  /** The problem: the search interval and enclosures of `f`, `f'` and `f''` over intervals. */
  datatype Problem = Problem(a: real, b: real, objective: Interval -> Interval,
                             df: Interval -> Interval, ddf: Interval -> Interval)

  /**
   * The settings the constructor fixes; `signB` is "f(b) may be positive".
   * `periodOf(w)` is the adaptive period `int(512 / math.sqrt(w))` of an
   * enclosure of positive width `w`, and `sqrt` the square root the
   * quadratic estimator's roots use; both are oracles.
   */
  datatype Settings = Settings(problem: Problem, eps: real, globalLipint: bool, useSymmLipint: bool,
                               reduction: int, adaptive: bool, signB: bool, periodOf: real -> nat,
                               sqrt: real -> real)

  /** The fields of a `ProcData`, as a value. */
  datatype Data = Data(sub: Interval, lip: Interval, counter: int, period: int, quadratic: bool)

  /** The fields of the processor that the step updates, as a value. */
  datatype State = State(resList: seq<Interval>, recX: real, estimator: int, running: bool)

  /**
   * The outcome of one step: the source raises (or computes with an
   * infinite endpoint, which the model leaves out), or the new processor
   * state, the new value of the processed data, and the returned children.
   */
  datatype Outcome = Raises | Done(state: State, data: Data, children: seq<Data>)

  /**
   * The lower (or upper) estimator of the active kind.  `QuadraticUnbounded`
   * is a quadratic estimator whose breakpoint enclosures reach an infinity
   * (a zero-width curvature enclosure): its `normal_cd` is false.  It keeps
   * the right end `b` of its interval and whether `c` reaches minus infinity.
   */
  datatype Bounds = Linear(psl: PslBoundsCorrectly.Psl) | Quadratic(psqe: PsqeBoundsCorrectly.Est)
                  | QuadraticUnbounded(b: real, lowC: bool)

  // ---------------------------------------------------------------------
  // The pieces of a step, on values
  // ---------------------------------------------------------------------

  /** `[-L, L]` with `L = max(-lo, hi)`: the symmetric enclosure. */
  function Symmetric(X: Interval): (r: Interval)
    ensures r.lo == -r.hi
    ensures r.lo <= X.lo && X.hi <= r.hi
    ensures forall Y: Interval :: Y.lo == -Y.hi && Y.lo <= X.lo && X.hi <= Y.hi ==> Y.lo <= r.lo
  {
    var L := Max2(-X.lo, X.hi);
    Interval(-L, L)
  }

  /**
   * `update_lipschitz`: the enclosure of `f'` over the subinterval for the
   * linear estimator (kind 1) and of `f''` otherwise, made symmetric when
   * the processor is asked to.
   */
  function Enclosure(s: Settings, estimator: int, sub: Interval): (r: Interval)
    ensures var raw := if estimator == 1 then s.problem.df(sub) else s.problem.ddf(sub);
            r.lo <= raw.lo && raw.hi <= r.hi && (s.useSymmLipint ==> r.lo == -r.hi)
            && (!s.useSymmLipint ==> r == raw)
  {
    var raw := if estimator == 1 then s.problem.df(sub) else s.problem.ddf(sub);
    if s.useSymmLipint then Symmetric(raw) else raw
  }

  /**
   * Lines 114-124: the refresh of the enclosure.  Skipped with a global
   * enclosure; in adaptive mode the counter counts up to the period, and
   * then the enclosure and the period are recomputed and the counter
   * restarts.  A non-positive enclosure width makes the period formula
   * raise.
   */
  function Refresh(s: Settings, estimator: int, d: Data): (r: Option<Data>)
    ensures r.Some? ==> r.value.sub == d.sub && r.value.quadratic == d.quadratic
    ensures r.Some? && 0 <= d.counter <= d.period ==> 0 <= r.value.counter <= r.value.period
    ensures r.None? <==> !s.globalLipint && s.adaptive && d.counter >= d.period
                         && Enclosure(s, estimator, d.sub).hi - Enclosure(s, estimator, d.sub).lo <= 0.0
  {
    if s.globalLipint then Some(d)
    else if s.adaptive then
      if d.counter < d.period then Some(d.(counter := d.counter + 1))
      else
        var lip := Enclosure(s, estimator, d.sub);
        if lip.hi - lip.lo <= 0.0 then None
        else Some(d.(lip := lip, period := s.periodOf(lip.hi - lip.lo), counter := 0))
    else Some(d.(lip := Enclosure(s, estimator, d.sub)))
  }

  /**
   * `compute_bounds`: the linear estimator for kind 1, the quadratic one
   * for kind 2, built on the ends of the subinterval, the enclosure `lip`
   * and the oracle enclosures at the ends; any other kind fails the
   * source's assertion, and so does a quadratic construction that adds a
   * missing or two-ray quotient.
   */
  function ComputeBounds(p: Problem, estimator: int, sub: Interval, lip: Interval, under: bool): (r: Option<Bounds>)
    ensures r.Some? ==> (estimator == 1 && r.value.Linear?) || (estimator == 2 && !r.value.Linear?)
    ensures r.Some? && r.value.Linear? ==> r.value.psl.a == sub.lo && r.value.psl.b == sub.hi && r.value.psl.under == under
    ensures r.Some? && r.value.Quadratic? ==> r.value.psqe.a == sub.lo && r.value.psqe.b == sub.hi && r.value.psqe.under == under
    ensures r.Some? && r.value.QuadraticUnbounded? ==> r.value.b == sub.hi
    ensures estimator == 1 ==> r.Some?
    ensures r.None? ==> estimator != 1
  {
    var A, B := Point(sub.lo), Point(sub.hi);
    if estimator == 1 then
      Some(Linear(PslBoundsCorrectly.Build(sub.lo, sub.hi, lip.lo, lip.hi, p.objective(A), p.objective(B), under)))
    else if estimator == 2 then
      match PsqeBoundsCorrectly.Build(sub.lo, sub.hi, lip.lo, lip.hi, p.objective(A), p.objective(B),
                                      p.df(A), p.df(B), under)
      case Ready(e) => Some(Quadratic(e))
      case Unbounded(lowC) => Some(QuadraticUnbounded(sub.hi, lowC))
      case Raises => None
    else None
  }

  /**
   * `normal_cd` of the active estimator; an unbounded quadratic estimator
   * has `c.a` at minus infinity or `d.b` at plus infinity
   * (`PsqeBoundsCorrectly.UnboundedIsNotNormal`), so the test fails.
   */
  function NormalCd(e: Bounds): bool
  {
    match e
    case Linear(p) => PslBoundsCorrectly.NormalCd(p)
    case Quadratic(q) => PsqeBoundsCorrectly.NormalCd(q)
    case QuadraticUnbounded(_, _) => false
  }

  /**
   * The query functions.  On an unbounded quadratic estimator
   * `get_right_end_upper_bound` first tests `c.a < a`, which holds when `c`
   * reaches minus infinity, and answers `b`; the other queries are left
   * undetermined there.
   */
  function LeftEnd(e: Bounds, sqrt: real -> real): Answer
  {
    match e
    case Linear(p) => PslBoundsCorrectly.GetLeftEnd(p)
    case Quadratic(q) => PsqeBoundsCorrectly.GetLeftEnd(q, sqrt)
    case QuadraticUnbounded(_, _) => Undefined
  }

  function RightEndUnder(e: Bounds, sqrt: real -> real): Answer
  {
    match e
    case Linear(p) => PslBoundsCorrectly.GetRightEndUnderBound(p)
    case Quadratic(q) => PsqeBoundsCorrectly.GetRightEndUnderBound(q, sqrt)
    case QuadraticUnbounded(_, _) => Undefined
  }

  function RightEndUpper(e: Bounds, sqrt: real -> real): Answer
  {
    match e
    case Linear(p) => PslBoundsCorrectly.GetRightEndUpperBound(p)
    case Quadratic(q) => PsqeBoundsCorrectly.GetRightEndUpperBound(q, sqrt)
    case QuadraticUnbounded(b, lowC) => if lowC then Root(b) else Undefined
  }

  /**
   * Lines 125-133: a linear processor drops the quadratic flag of the data
   * and refreshes its enclosure; a lower estimator whose breakpoints are not
   * interior switches the processor to the linear estimator for good.  The
   * result is the estimator kind, the data and the lower estimator.
   */
  function Demote(s: Settings, estimator: int, d: Data): (r: Option<(int, Data, Bounds)>)
    ensures r.Some? ==> r.value.0 == estimator || r.value.0 == 1
    ensures r.Some? ==> r.value.1.sub == d.sub && r.value.1.counter == d.counter && r.value.1.period == d.period
    ensures r.Some? && !d.quadratic ==> !r.value.1.quadratic
    ensures r.Some? && r.value.0 == 1 ==> !r.value.1.quadratic || r.value.1 == d
    ensures r.Some? ==> r.value.2.Linear? == (r.value.0 == 1)
    ensures r.Some? ==> NormalCd(r.value.2)
    ensures estimator == 1 ==> r.Some?
  {
    var d1 := if estimator == 1 && d.quadratic then d.(quadratic := false, lip := Enclosure(s, 1, d.sub)) else d;
    match ComputeBounds(s.problem, estimator, d1.sub, d1.lip, true)
    case None => None
    case Some(lower) =>
      if NormalCd(lower) then Some((estimator, d1, lower))
      else
        var d2 := d1.(quadratic := false, lip := Enclosure(s, 1, d1.sub));
        match ComputeBounds(s.problem, 1, d2.sub, d2.lip, true)
        case None => None
        case Some(lower2) => Some((1, d2, lower2))
  }

  /**
   * Lines 137-161: the ends `(left, right)` of the narrowed interval and the
   * new record point, given the left end of the lower estimator.  Reduction
   * level 1 takes the right end from the lower estimator away from the
   * record, and from the upper estimator (clipped to `b`, and becoming the
   * record) at the record; reduction level 0 keeps `[a, b]`.  The other
   * levels and the cases that leave `right_end` `None` or unassigned raise.
   */
  function Reduce(s: Settings, st: State, d: Data, lower: Bounds, left: real): (r: Option<(real, real, real)>)
    ensures r.Some? ==> r.value.2 == st.recX || (r.value.2 == r.value.1 && r.value.1 <= d.sub.hi)
    ensures r.Some? ==> s.reduction == 0 || s.reduction == 1
    ensures r.Some? && s.reduction == 0 ==> r.value == (d.sub.lo, d.sub.hi, st.recX)
  {
    var b := d.sub.hi;
    if s.reduction > 0 then
      if s.reduction == 1 then
        if (b < s.problem.b && b < st.recX) || (b == s.problem.b && s.signB) then
          match RightEndUnder(lower, s.sqrt)
          case Root(right) => Some((left, right, st.recX))
          case _ => None
        else if b == st.recX then
          match ComputeBounds(s.problem, st.estimator, d.sub, d.lip, false)
          case None => None
          case Some(upper) =>
            (match RightEndUpper(upper, s.sqrt)
             case Root(x) => var right := if x > b then b else x; Some((left, right, right))
             case _ => None)
        else None
      else None
    else if s.reduction == 0 then Some((d.sub.lo, d.sub.hi, st.recX))
    else None
  }

  /**
   * Lines 150-155 with an upper estimator whose `c` reaches minus infinity:
   * `get_right_end_upper_bound` answers `b` (psqe_bounds_correctly.py:379-381),
   * so the interval keeps its right end and the record moves to `b`.
   */
  lemma UnboundedUpperKeepsB(s: Settings, st: State, d: Data, lower: Bounds, left: real)
    requires s.reduction == 1 && d.sub.hi == st.recX
    requires !((d.sub.hi < s.problem.b && d.sub.hi < st.recX) || (d.sub.hi == s.problem.b && s.signB))
    requires ComputeBounds(s.problem, st.estimator, d.sub, d.lip, false).Some?
    requires ComputeBounds(s.problem, st.estimator, d.sub, d.lip, false).value.QuadraticUnbounded?
    requires ComputeBounds(s.problem, st.estimator, d.sub, d.lip, false).value.lowC
    ensures Reduce(s, st, d, lower, left) == Some((left, d.sub.hi, d.sub.hi))
  {
  }

  /**
   * Lines 162-188: a narrowed interval shorter than `eps` is recorded;
   * otherwise a narrowing that keeps more than 70% of the width splits the
   * interval at its midpoint (the right half is dropped when `f` is
   * certainly non-positive at the midpoint, which becomes the record), and
   * a stronger narrowing keeps the data with the narrowed interval.
   */
  function Split(s: Settings, st: State, d: Data, left: real, right: real): (r: Outcome)
    ensures r.Done? ==> r.state.estimator == st.estimator && r.state.running == st.running
    ensures r.Done? ==> |r.children| <= 2 && (r.children == [] || r.children[|r.children| - 1] == r.data)
    ensures r.Done? ==> r.data.lip == d.lip && r.data.counter == d.counter && r.data.period == d.period
                        && r.data.quadratic == d.quadratic
    ensures r.Done? ==> forall c :: c in r.children ==>
                          c.lip == d.lip && c.counter == d.counter && c.period == d.period && c.quadratic == d.quadratic
    ensures r.Done? && r.children == [] ==> r.state.resList == st.resList + [Interval(left, right)] && right - left < s.eps
    ensures r.Done? && r.children != [] ==> r.state.resList == st.resList && right - left >= s.eps
    ensures r.Done? && r.state.recX != st.recX ==> r.state.recX == left + (right - left) / 2.0 && |r.children| == 1
    ensures r.Done? && |r.children| == 2 ==> r.children[0].sub == Interval(left + (right - left) / 2.0, right)
                                             && r.children[1].sub == Interval(left, left + (right - left) / 2.0)
    ensures r.Done? && |r.children| == 1 ==> r.children[0].sub.lo == left
    ensures r.Done? && (|r.children| == 2 || r.state.recX != st.recX) && d.sub.lo <= d.sub.hi ==>
              left < left + (right - left) / 2.0 < right
    ensures r.Raises? <==> right - left >= s.eps && d.sub.hi - d.sub.lo == 0.0
  {
    var split := left + (right - left) / 2.0;
    if right - left < s.eps then Done(st.(resList := st.resList + [Interval(left, right)]), d, [])
    else
      var width := d.sub.hi - d.sub.lo;
      if width == 0.0 then Raises
      else if (right - left) / width > 0.7 then
        assert 0.0 < width ==> 0.0 < right - left by {
          if 0.0 < width && right - left <= 0.0 { QuotientNonpos(right - left, width); }
        }
        var d1 := d.(sub := Interval(left, split));
        if s.problem.objective(Point(split)).hi <= 0.0 then Done(st.(recX := split), d1, [d1])
        else Done(st, d1, [d.(sub := Interval(split, right)), d1])
      else
        var d1 := d.(sub := Interval(left, right));
        Done(st, d1, [d1])
  }

  /** Lines 134-188, after the lower estimator is built. */
  function Narrow(s: Settings, st: State, d: Data, lower: Bounds): (r: Outcome)
    ensures r.Done? ==> r.state.estimator == st.estimator && r.state.running == st.running
    ensures r.Done? ==> st.resList <= r.state.resList && |r.state.resList| <= |st.resList| + 1
    ensures r.Done? && r.children != [] ==> r.state.resList == st.resList
    ensures r.Done? ==> |r.children| <= 2 && (r.children == [] || r.children[|r.children| - 1] == r.data)
    ensures r.Done? ==> r.data.counter == d.counter && r.data.period == d.period && r.data.quadratic == d.quadratic
    ensures r.Done? ==> forall c :: c in r.children ==>
                          c.counter == d.counter && c.period == d.period && c.quadratic == d.quadratic
  {
    match LeftEnd(lower, s.sqrt)
    case Undefined => Raises
    case NoRoot => Done(st, d, [])
    case Root(x) =>
      match Reduce(s, st, d, lower, x)
      case None => Raises
      case Some((left, right, recX)) => Split(s, st.(recX := recX), d, left, right)
  }

  /** Lines 112-133: the refreshed data, the estimator kind and the lower estimator. */
  function Prepare(s: Settings, st: State, d: Data): (r: Option<(int, Data, Bounds)>)
  {
    match Refresh(s, st.estimator, d)
    case None => None
    case Some(d1) => Demote(s, st.estimator, d1)
  }

  /** `fzcp_process`, on values. */
  function Step(s: Settings, st: State, d: Data): (r: Outcome)
  {
    if d.sub.hi > st.recX then Done(st, d, [])
    else if st.recX - d.sub.lo <= s.eps then
      Done(st.(resList := st.resList + [Interval(d.sub.lo, st.recX)], running := false), d, [])
    else
      match Prepare(s, st, d)
      case None => Raises
      case Some((estimator, d1, lower)) => Narrow(s, st.(estimator := estimator), d1, lower)
  }

  // ---------------------------------------------------------------------
  // What a step keeps
  // ---------------------------------------------------------------------

  /**
   * The estimator kind only ever falls back to the linear one, the
   * processor never starts running again, results are only appended (at
   * most one per step, and only by a step without children), at most two
   * children are returned and the last one is the processed data, and a
   * counter within its period stays within it.
   */
  lemma StepKeeps(s: Settings, st: State, d: Data)
    ensures var r := Step(s, st, d);
            r.Done? ==>
              (r.state.estimator == st.estimator || r.state.estimator == 1)
              && (r.state.running ==> st.running)
              && st.resList <= r.state.resList && |r.state.resList| <= |st.resList| + 1
              && (r.children != [] ==> r.state.resList == st.resList && r.state.running == st.running)
              && |r.children| <= 2 && (r.children != [] ==> r.children[|r.children| - 1] == r.data)
              && (!d.quadratic ==> !r.data.quadratic && forall c :: c in r.children ==> !c.quadratic)
              && (0 <= d.counter <= d.period ==>
                    0 <= r.data.counter <= r.data.period
                    && forall c :: c in r.children ==> 0 <= c.counter <= c.period)
  {
    if d.sub.hi <= st.recX && st.recX - d.sub.lo > s.eps {
      match Refresh(s, st.estimator, d)
      case None =>
      case Some(d1) =>
        match Demote(s, st.estimator, d1)
        case None =>
        case Some((estimator, d2, lower)) =>
          assert Step(s, st, d) == Narrow(s, st.(estimator := estimator), d2, lower);
    }
  }

  /** Once the processor runs the linear estimator, it keeps running it. */
  lemma LinearStaysLinear(s: Settings, st: State, d: Data)
    requires st.estimator == 1
    ensures Step(s, st, d).Done? ==> Step(s, st, d).state.estimator == 1
  {
    StepKeeps(s, st, d);
  }

  /** The under-bound right end the step would use does not lie beyond `b`. */
  predicate UnderEndWithin(s: Settings, st: State, d: Data)
  {
    match Prepare(s, st, d)
    case None => true
    case Some((_, _, lower)) =>
      RightEndUnder(lower, s.sqrt).Root? ==> RightEndUnder(lower, s.sqrt).x <= d.sub.hi
  }

  /**
   * The record point never increases, provided the subinterval is proper
   * and the lower estimator's under-bound right end does not lie beyond `b`.
   */
  lemma RecordNeverIncreases(s: Settings, st: State, d: Data)
    requires d.sub.lo <= d.sub.hi && UnderEndWithin(s, st, d)
    ensures Step(s, st, d).Done? ==> Step(s, st, d).state.recX <= st.recX
  {
    var r := Step(s, st, d);
    if r.Done? && d.sub.hi <= st.recX && st.recX - d.sub.lo > s.eps {
      var (estimator, d1, lower) := Prepare(s, st, d).value;
      var st1 := st.(estimator := estimator);
      match LeftEnd(lower, s.sqrt)
      case NoRoot =>
      case Root(x) =>
        var (left, right, recX) := Reduce(s, st1, d1, lower, x).value;
        assert r == Split(s, st1.(recX := recX), d1, left, right);
    }
  }

  /**
   * A split returns the two halves of the narrowed interval, the right half
   * first, meeting at the midpoint, which lies strictly inside.
   */
  lemma SplitHalves(s: Settings, st: State, d: Data)
    requires d.sub.lo <= d.sub.hi
    ensures var r := Step(s, st, d);
            r.Done? && |r.children| == 2 ==>
              r.children[0].sub.lo == r.children[1].sub.hi
              && r.children[1].sub.lo < r.children[1].sub.hi < r.children[0].sub.hi
              && r.children[1].sub.hi - r.children[1].sub.lo == r.children[0].sub.hi - r.children[0].sub.lo
  {
    var r := Step(s, st, d);
    if r.Done? && |r.children| == 2 {
      var (estimator, d1, lower) := Prepare(s, st, d).value;
      var st1 := st.(estimator := estimator);
      var x := LeftEnd(lower, s.sqrt).x;
      var (left, right, recX) := Reduce(s, st1, d1, lower, x).value;
      assert r == Split(s, st1.(recX := recX), d1, left, right);
    }
  }

  // ---------------------------------------------------------------------
  // The objects
  // ---------------------------------------------------------------------

  /** `ProcData`: a subproblem, updated in place by the processor. */
  class ProcData {
    var subInterval: Interval
    var lip: Interval
    var counter: int
    var periodCompLip: int
    var quadratic: bool

    function Value(): Data
      reads this
    {
      Data(subInterval, lip, counter, periodCompLip, quadratic)
    }

    constructor (subInterval: Interval, lip: Interval, quadratic: bool, counter: int, periodCompLip: int)
      ensures Value() == Data(subInterval, lip, counter, periodCompLip, quadratic)
    {
      this.subInterval := subInterval;
      this.lip := lip;
      this.counter := counter;
      this.periodCompLip := periodCompLip;
      this.quadratic := quadratic;
    }
  }

  /** `ProcessorNew` of FZCP/processor_correctly.py. */
  class ProcessorNew {
    var resList: seq<Interval>
    var recX: real
    var estimator: int
    var running: bool
    const recV: real
    const problem: Problem
    const eps: real
    const globalLipint: bool
    const useSymmLipint: bool
    const reduction: int
    const adaptive: bool
    const signB: bool
    const periodOf: real -> nat
    const sqrt: real -> real

    function Snapshot(): State
      reads this
    {
      State(resList, recX, estimator, running)
    }

    function Config(): Settings
    {
      Settings(problem, eps, globalLipint, useSymmLipint, reduction, adaptive, signB, periodOf, sqrt)
    }

    constructor (recV: real, recX: real, problem: Problem, eps: real, globalLipint: bool, useSymmLipint: bool,
                 estimator: int, reduction: int, adaptive: bool, periodOf: real -> nat, sqrt: real -> real)
      ensures Snapshot() == State([], recX, estimator, true)
      ensures Config() == Settings(problem, eps, globalLipint, useSymmLipint, reduction, adaptive,
                                     problem.objective(Point(problem.b)).hi > 0.0, periodOf, sqrt)
      ensures this.recV == recV
    {
      this.resList := [];
      this.recV := recV;
      this.recX := recX;
      this.problem := problem;
      this.eps := eps;
      this.globalLipint := globalLipint;
      this.useSymmLipint := useSymmLipint;
      this.estimator := estimator;
      this.reduction := reduction;
      this.running := true;
      this.adaptive := adaptive;
      this.signB := problem.objective(Point(problem.b)).hi > 0.0;
      this.periodOf := periodOf;
      this.sqrt := sqrt;
    }

    /** `update_lipschitz`: the data's enclosure for the current estimator kind. */
    method UpdateLipschitz(data: ProcData)
      modifies data
      ensures data.Value() == old(data.Value()).(lip := Enclosure(Config(), estimator, data.subInterval))
    {
      if estimator == 1 {
        data.lip := problem.df(data.subInterval);
        if useSymmLipint {
          var L := Max2(-data.lip.lo, data.lip.hi);
          data.lip := Interval(-L, L);
        }
      } else {
        data.lip := problem.ddf(data.subInterval);
        if useSymmLipint {
          var L := Max2(-data.lip.lo, data.lip.hi);
          data.lip := Interval(-L, L);
        }
      }
    }

    /** Lines 114-124: the refresh of the enclosure; `ok` is false where the period formula raises. */
    method RefreshLipschitz(data: ProcData) returns (ok: bool)
      modifies data
      ensures var r := Refresh(Config(), estimator, old(data.Value()));
              ok == r.Some? && (ok ==> data.Value() == r.value)
    {
      ok := true;
      if !globalLipint {
        if adaptive {
          if data.counter < data.periodCompLip {
            data.counter := data.counter + 1;
          } else {
            UpdateLipschitz(data);
            var w := data.lip.hi - data.lip.lo;
            if w <= 0.0 {
              ok := false;
              return;
            }
            data.periodCompLip := periodOf(w);
            data.counter := 0;
          }
        } else {
          UpdateLipschitz(data);
        }
      }
    }

    /**
     * Lines 125-133: the lower estimator, after the demotion rules;
     * `ok` is false where it cannot be built.
     */
    method LowerEstimator(data: ProcData) returns (lower: Bounds, ok: bool)
      modifies this`estimator, data
      ensures var r := Demote(Config(), old(estimator), old(data.Value()));
              ok == r.Some? && (ok ==> estimator == r.value.0 && data.Value() == r.value.1 && lower == r.value.2)
    {
      if estimator == 1 && data.quadratic {
        data.quadratic := false;
        UpdateLipschitz(data);
      }
      var built := ComputeBounds(problem, estimator, data.subInterval, data.lip, true);
      if built.None? {
        return Linear(PslBoundsCorrectly.Psl(0.0, 0.0, true, 0.0, 0.0, Point(0.0), Point(0.0), Bounded(Point(0.0)))), false;
      }
      lower, ok := built.value, true;
      if !NormalCd(lower) {
        estimator := 1;
        data.quadratic := false;
        UpdateLipschitz(data);
        built := ComputeBounds(problem, estimator, data.subInterval, data.lip, true);
        if built.None? {
          return lower, false;
        }
        lower := built.value;
      }
    }

    /**
     * Lines 137-161: the ends of the narrowed interval, from the left end of
     * the lower estimator; at the record, the clipped right end becomes the
     * record.  `ok` is false where `right_end` is left `None` or unassigned.
     */
    method NarrowedEnds(data: ProcData, lower: Bounds, leftEnd: real) returns (left: real, right: real, ok: bool)
      modifies this`recX
      ensures var r := Reduce(Config(), old(Snapshot()), data.Value(), lower, leftEnd);
              ok == r.Some? && (ok ==> (left, right, recX) == r.value)
    {
      ghost var st0, d0 := Snapshot(), data.Value();
      var subInterval := data.subInterval;
      left, right, ok := leftEnd, 0.0, false;
      if reduction > 0 {
        if reduction == 1 {
          if (subInterval.hi < problem.b && subInterval.hi < recX) || (subInterval.hi == problem.b && signB) {
            var end := RightEndUnder(lower, sqrt);
            if end.Root? {
              right, ok := end.x, true;
            }
          } else if subInterval.hi == recX {
            var upper := ComputeBounds(problem, estimator, data.subInterval, data.lip, false);
            if upper.Some? {
              var end := RightEndUpper(upper.value, sqrt);
              if end.Root? {
                right, ok := end.x, true;
                if right > subInterval.hi {
                  right := subInterval.hi;
                }
                recX := right;
                assert Reduce(Config(), st0, d0, lower, leftEnd) == Some((left, right, recX));
              }
            }
          }
        }
      } else if reduction == 0 {
        left, right, ok := subInterval.lo, subInterval.hi, true;
      }
    }

    /**
     * Lines 162-188: record the narrowed interval `[left, right]` when it is
     * narrow, otherwise split it at its midpoint or narrow `data` to it.
     */
    method Divide(data: ProcData, left: real, right: real) returns (lst: seq<ProcData>, ok: bool)
      modifies this`recX, this`resList, data
      ensures var r := Split(Config(), old(Snapshot()), old(data.Value()), left, right);
              ok == r.Done?
              && (ok ==> Snapshot() == r.state && data.Value() == r.data && |lst| == |r.children|
                         && forall i :: 0 <= i < |lst| ==> lst[i].Value() == r.children[i])
      ensures forall c :: c in lst ==> c == data || fresh(c)
    {
      lst, ok := [], true;
      var widthOfInterval := data.subInterval.hi - data.subInterval.lo;
      var splitPoint := left + (right - left) / 2.0;
      if right - left < eps {
        resList := resList + [Interval(left, right)];
      } else {
        var newWidth := right - left;
        if widthOfInterval == 0.0 {
          return [], false;
        }
        if newWidth / widthOfInterval > 0.7 {
          var sub1 := Interval(left, splitPoint);
          if problem.objective(Point(sub1.hi)).hi <= 0.0 {
            recX := sub1.hi;
          } else {
            var data2 := new ProcData(Interval(splitPoint, right), data.lip, data.quadratic,
                                      data.counter, data.periodCompLip);
            lst := lst + [data2];
          }
          data.subInterval := sub1;
          lst := lst + [data];
        } else {
          data.subInterval := Interval(left, right);
          lst := lst + [data];
        }
      }
    }

    /**
     * `fzcp_process`: one step on `data`.  `ok` is false where the source
     * raises; otherwise the new state of the processor and of `data`, and
     * the values of the returned children, are those of `Step`.
     */
    method FzcpProcess(data: ProcData) returns (lst: seq<ProcData>, ok: bool)
      modifies this, data
      ensures var r := Step(Config(), old(Snapshot()), old(data.Value()));
              ok == r.Done?
              && (ok ==> Snapshot() == r.state && data.Value() == r.data && |lst| == |r.children|
                         && forall i :: 0 <= i < |lst| ==> lst[i].Value() == r.children[i])
      ensures forall c :: c in lst ==> c == data || fresh(c)
      ensures old(data.subInterval.hi) > old(recX) ==>
                ok && lst == [] && Snapshot() == old(Snapshot()) && data.Value() == old(data.Value())
      ensures old(data.subInterval.hi) <= old(recX) && old(recX) - old(data.subInterval.lo) <= eps ==>
                ok && lst == [] && !running && data.Value() == old(data.Value())
                && resList == old(resList) + [Interval(old(data.subInterval.lo), old(recX))]
    {
      var subInterval := data.subInterval;
      lst := [];
      if subInterval.hi > recX {
        return [], true;
      }
      if recX - subInterval.lo <= eps {
        resList := resList + [Interval(subInterval.lo, recX)];
        running := false;
        return [], true;
      }
      ok := RefreshLipschitz(data);
      if !ok {
        return;
      }
      var lower;
      lower, ok := LowerEstimator(data);
      if !ok {
        return;
      }
      var leftEnd := LeftEnd(lower, sqrt);
      if leftEnd.Undefined? {
        return [], false;
      }
      if leftEnd.Root? {
        var left, right;
        left, right, ok := NarrowedEnds(data, lower, leftEnd.x);
        if !ok {
          return;
        }
        lst, ok := Divide(data, left, right);
      }
    }
  }
}
