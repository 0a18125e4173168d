/**
 * The record-shifted step policy of processor_reduction.py,
 * `ProcessorReduction`.
 *
 * The estimator is built on `f - recV`, so its minimum says whether the
 * subinterval can still hold a value below the record.  A subproblem whose
 * minimum exceeds `-eps` is dropped; otherwise the estimator's argmin
 * becomes a record candidate and the interval is narrowed to the
 * estimator's zero set and split there.  Level 2 first narrows the
 * interval to where the derivative may vanish (`reduction2`).
 *
 * The estimator classes are called here with arguments that do not match
 * their constructors, so their answers are an oracle `bounds` of the
 * settings; `include_zero`, a method the float interval class lacks, is
 * the oracle `includeZero`.
 *
 * `reduction2` tests the truth value of the derivative estimator's left
 * end, so an end at exactly 0.0 discards the subproblem; `zeroEndDiscards`
 * selects that reading (`true`, as the processor runs) or the evidently
 * intended test for a missing end (`false`).
 */
module ProcessorReductionFloat {
  import opened Common
  import opened RealFacts
  import opened FloatInterval

  /** The problem: `f` and `f'` at points, and enclosures of `f'` and `f''` over intervals. */
  datatype Problem = Problem(a: real, b: real, objective: real -> real, dfAt: real -> real,
                             df: Ival -> Ival, ddf: Ival -> Ival)

  /**
   * The arguments an estimator is built from: kind (1 linear, else
   * quadratic), interval, bounds `alp`, `bet`, the values at the ends, the
   * slopes at the ends (0 for the linear kind, which takes none) and mode.
   */
  datatype Query = Query(estimator: int, sub: Ival, alp: real, bet: real, fa: real, fb: real,
                         dfa: real, dfb: real, under: bool)

  /** The answers: `lower_bound_and_point` as (point, value), and the three end queries. */
  datatype Answers = Answers(lowerBoundAndPoint: (real, real), leftEnd: Option<real>,
                             rightEndUnder: Option<real>, rightEndUpper: Option<real>)

  /** The settings the constructor fixes; `periodOf(w)` is `int(512 / math.sqrt(w))` for `w > 0`. */
  datatype Settings = Settings(problem: Problem, eps: real, globalLipint: bool, useSymmLipint: bool,
                               estimator: int, reduction: int, adaptive: bool,
                               bounds: Query -> Answers, includeZero: Ival -> bool, periodOf: real -> nat,
                               zeroEndDiscards: bool)

  /** The fields of a `ProcData`, as a value. */
  datatype Data = Data(sub: Ival, lip: Ival, counter: int, period: int)

  /** The record value and point. */
  datatype State = State(recV: real, recX: real)

  /** The outcome of one step: the source raises, or the new record, the new data and the children. */
  datatype Outcome = Raises | Done(state: State, data: Data, children: seq<Data>)

  /** Every point an estimator returns lies in the interval it was built on. */
  ghost predicate AnswersWithin(bounds: Query -> Answers)
  {
    forall q: Query :: Contains(q.sub, bounds(q).lowerBoundAndPoint.0)
                       && (bounds(q).leftEnd.Some? ==> Contains(q.sub, bounds(q).leftEnd.value))
                       && (bounds(q).rightEndUnder.Some? ==> Contains(q.sub, bounds(q).rightEndUnder.value))
                       && (bounds(q).rightEndUpper.Some? ==> Contains(q.sub, bounds(q).rightEndUpper.value))
  }

  // ---------------------------------------------------------------------
  // The pieces of a step, on values
  // ---------------------------------------------------------------------

  /** `update_lipschitz`: the enclosure of `f'` (kind 1) or `f''`, made symmetric on request. */
  function Enclosure(s: Settings, sub: Ival): (r: Ival)
    ensures var raw := if s.estimator == 1 then s.problem.df(sub) else s.problem.ddf(sub);
            r.lo <= raw.lo && raw.hi <= r.hi && (s.useSymmLipint ==> r.lo == -r.hi)
            && (!s.useSymmLipint ==> r == raw)
  {
    var raw := if s.estimator == 1 then s.problem.df(sub) else s.problem.ddf(sub);
    if s.useSymmLipint then
      var L := Max2(-raw.lo, raw.hi);
      Ival(-L, L)
    else raw
  }

  /**
   * Lines 130-140: in adaptive mode the counter counts up to the data's
   * period and then the enclosure and the period are recomputed (the
   * period formula raises on a non-positive width); otherwise the
   * enclosure is recomputed every step, unless it is global.
   */
  function Refresh(s: Settings, d: Data): (r: Option<Data>)
    ensures r.Some? ==> r.value.sub == d.sub
    ensures r.Some? && 0 <= d.counter <= d.period ==> 0 <= r.value.counter <= r.value.period
    ensures r.Some? && !s.globalLipint && !s.adaptive ==> r.value == d.(lip := Enclosure(s, d.sub))
    ensures r.None? <==> !s.globalLipint && s.adaptive && d.counter >= d.period
                         && Enclosure(s, d.sub).hi - Enclosure(s, d.sub).lo <= 0.0
  {
    if s.globalLipint then Some(d)
    else if s.adaptive then
      if d.counter < d.period then Some(d.(counter := d.counter + 1))
      else
        var lip := Enclosure(s, d.sub);
        if lip.hi - lip.lo <= 0.0 then None
        else Some(d.(lip := lip, period := s.periodOf(lip.hi - lip.lo), counter := 0))
    else Some(d.(lip := Enclosure(s, d.sub)))
  }

  /**
   * The linear estimator `reduction2` builds on the derivative: the slopes
   * at the ends as values and the enclosure of `f''` as slope bounds, all
   * negated when `f'(a) < 0`.
   */
  function DerivativeQuery(d: Data, dfa: real, dfb: real, under: bool): (q: Query)
    ensures q.estimator == 1 && q.sub == d.sub && q.fa >= 0.0 && q.alp - q.bet == d.lip.lo - d.lip.hi
    ensures dfa < 0.0 ==> q.fa == -dfa && q.fb == -dfb && q.alp == -d.lip.hi && q.bet == -d.lip.lo
  {
    if dfa < 0.0 then Query(1, d.sub, -d.lip.hi, -d.lip.lo, -dfa, -dfb, 0.0, 0.0, under)
    else Query(1, d.sub, d.lip.lo, d.lip.hi, dfa, dfb, 0.0, 0.0, under)
  }

  /**
   * Lines 84-117, with the test on the left end chosen by `zeroIsFalse`:
   * the source tests the end's truth value, so an end at exactly 0.0
   * counts as missing (`zeroIsFalse`); the evident intent is a test for
   * a missing end.  The first component says whether to discard; `None`
   * is a missing right end, on which the next step raises.
   */
  function Reduction2Rule(s: Settings, d: Data, dfa: real, dfb: real, zeroIsFalse: bool): (r: Option<(bool, Data)>)
    ensures s.estimator == 1 ==> r == Some((!s.includeZero(d.lip), d))
    ensures var le := s.bounds(DerivativeQuery(d, dfa, dfb, true)).leftEnd;
            s.estimator != 1 ==> (r.Some? && r.value.0 <==> le.None? || (zeroIsFalse && le.value == 0.0))
                                 && (r.Some? && !r.value.0 ==> r.value.1 == d.(sub := Ival(le.value, r.value.1.sub.hi)))
    ensures r.Some? && r.value.0 ==> r.value.1 == d
  {
    if s.estimator == 1 then Some((!s.includeZero(d.lip), d))
    else
      var q := DerivativeQuery(d, dfa, dfb, true);
      match s.bounds(q).leftEnd
      case None => Some((true, d))
      case Some(l) =>
        if zeroIsFalse && l == 0.0 then Some((true, d))
        else
          var right := if q.fb > 0.0 then s.bounds(q).rightEndUnder else s.bounds(q.(under := false)).rightEndUpper;
          if right.None? then None else Some((false, d.(sub := Ival(l, right.value))))
  }

  /** `reduction2` as written. */
  function Reduction2AsWritten(s: Settings, d: Data, dfa: real, dfb: real): (r: Option<(bool, Data)>)
    ensures s.estimator != 1 ==>
              var le := s.bounds(DerivativeQuery(d, dfa, dfb, true)).leftEnd;
              (r.Some? && r.value.0 <==> le.None? || le.value == 0.0)
  {
    Reduction2Rule(s, d, dfa, dfb, true)
  }

  /**
   * `reduction2` with the evidently intended test: for the quadratic
   * kind the subproblem is discarded exactly when the derivative's
   * estimator has no left end, and otherwise it is kept, narrowed to the
   * estimator's ends; for the linear kind it is discarded exactly when the
   * enclosure misses 0.
   */
  function Reduction2(s: Settings, d: Data, dfa: real, dfb: real): (r: Option<(bool, Data)>)
    ensures s.estimator == 1 ==> r == Some((!s.includeZero(d.lip), d))
    ensures var le := s.bounds(DerivativeQuery(d, dfa, dfb, true)).leftEnd;
            s.estimator != 1 ==> (r.Some? && r.value.0 <==> le.None?)
                                 && (r.Some? && !r.value.0 ==> r.value.1 == d.(sub := Ival(le.value, r.value.1.sub.hi)))
    ensures r.Some? && r.value.0 ==> r.value.1 == d
  {
    Reduction2Rule(s, d, dfa, dfb, false)
  }

  /** The record-shifted estimator of lines 71-82 on the data's interval. */
  function EstimatorQuery(s: Settings, st: State, d: Data, dfa: real, dfb: real): (q: Query)
    ensures q.sub == d.sub && q.under && q.alp == d.lip.lo && q.bet == d.lip.hi
    ensures q.fa == s.problem.objective(d.sub.lo) - st.recV && q.fb == s.problem.objective(d.sub.hi) - st.recV
  {
    var f := s.problem.objective;
    if s.estimator == 1 then
      Query(1, d.sub, d.lip.lo, d.lip.hi, f(d.sub.lo) - st.recV, f(d.sub.hi) - st.recV, 0.0, 0.0, true)
    else
      Query(s.estimator, d.sub, d.lip.lo, d.lip.hi, f(d.sub.lo) - st.recV, f(d.sub.hi) - st.recV, dfa, dfb, true)
  }

  /**
   * Lines 146-178: drop the subproblem when the shifted estimator stays
   * above `-eps`; otherwise take its argmin as a record candidate and
   * split there, after narrowing to the estimator's ends at level 1 and
   * above.  `width` is the width the interval had when the step began.
   */
  function Branch(s: Settings, st: State, d: Data, width: real, dfa: real, dfb: real): (r: Outcome)
    ensures var ans := s.bounds(EstimatorQuery(s, st, d, dfa, dfb));
            ans.lowerBoundAndPoint.1 > -s.eps ==> r == Done(st, d, [])
    ensures r.Done? ==> r.state.recV <= st.recV
    ensures r.Done? && r.state != st ==>
              r.state.recV < st.recV && r.state.recV == s.problem.objective(r.state.recX)
              && r.state.recX == s.bounds(EstimatorQuery(s, st, d, dfa, dfb)).lowerBoundAndPoint.0
    ensures r.Done? ==> |r.children| <= 2 && (r.children == [] || r.children[|r.children| - 1] == r.data)
    ensures r.Done? ==> forall c :: c in r.children ==> c.lip == d.lip && c.counter == d.counter && c.period == d.period
    ensures r.Done? && |r.children| == 2 ==>
              r.children[0].sub.lo == r.children[1].sub.hi
              == s.bounds(EstimatorQuery(s, st, d, dfa, dfb)).lowerBoundAndPoint.0
    ensures r.Done? && s.reduction < 1 && r.children != [] ==>
              |r.children| == 2 && r.children[1].sub.lo == d.sub.lo && r.children[0].sub.hi == d.sub.hi
    ensures r.Raises? <==> s.bounds(EstimatorQuery(s, st, d, dfa, dfb)).lowerBoundAndPoint.1 <= -s.eps
                           && s.reduction >= 1
                           && (s.bounds(EstimatorQuery(s, st, d, dfa, dfb)).leftEnd.None?
                               || s.bounds(EstimatorQuery(s, st, d, dfa, dfb)).rightEndUnder.None?
                               || width == 0.0)
  {
    var ans := s.bounds(EstimatorQuery(s, st, d, dfa, dfb));
    var (split, boundY) := ans.lowerBoundAndPoint;
    if boundY > -s.eps then Done(st, d, [])
    else
      var fSplit := s.problem.objective(split);
      var st1 := if fSplit < st.recV then State(fSplit, split) else st;
      if s.reduction >= 1 then
        if ans.rightEndUnder.None? || ans.leftEnd.None? || width == 0.0 then Raises
        else
          var left, right := ans.leftEnd.value, ans.rightEndUnder.value;
          if (right - left) / width > 0.7 then
            var d1 := d.(sub := Ival(left, split));
            Done(st1, d1, [d.(sub := Ival(split, right)), d1])
          else
            var d1 := d.(sub := Ival(left, right));
            Done(st1, d1, [d1])
      else
        var d1 := d.(sub := Ival(d.sub.lo, split));
        Done(st1, d1, [d.(sub := Ival(split, d.sub.hi)), d1])
  }

  /**
   * Lines 130-145: the refresh, then, at level 2, `reduction2` with the
   * slopes at the ends of the interval; the first component says whether
   * the subproblem is discarded.
   */
  function Prepare(s: Settings, d: Data): (r: Option<(bool, Data)>)
    ensures r.Some? && r.value.0 ==> s.reduction == 2
    ensures r.Some? && s.reduction != 2 ==> r.value.1.sub == d.sub
    ensures r.Some? ==> Refresh(s, d).Some? && r.value.1.counter == Refresh(s, d).value.counter
                        && r.value.1.period == Refresh(s, d).value.period
                        && r.value.1.lip == Refresh(s, d).value.lip
  {
    match Refresh(s, d)
    case None => None
    case Some(d1) =>
      if s.reduction == 2 then Reduction2Rule(s, d1, s.problem.dfAt(d.sub.lo), s.problem.dfAt(d.sub.hi), s.zeroEndDiscards)
      else Some((false, d1))
  }

  /** `fzcp_process`, on values, with the test of `reduction2` the settings choose. */
  function Step(s: Settings, st: State, d: Data): (r: Outcome)
  {
    match Prepare(s, d)
    case None => Raises
    case Some((discard, d2)) =>
      if discard then Done(st, d2, [])
      else Branch(s, st, d2, d.sub.hi - d.sub.lo, s.problem.dfAt(d.sub.lo), s.problem.dfAt(d.sub.hi))
  }

  // ---------------------------------------------------------------------
  // What a step keeps
  // ---------------------------------------------------------------------

  /**
   * The record value never increases, and a new record is a strictly
   * smaller value of `f` taken at the new record point; so a record that
   * is a value of `f` at its point stays one.
   */
  lemma RecordNeverIncreases(s: Settings, st: State, d: Data)
    ensures var r := Step(s, st, d);
            r.Done? ==> r.state.recV <= st.recV
                        && (r.state != st ==> r.state.recV < st.recV && r.state.recV == s.problem.objective(r.state.recX))
  {
  }

  /**
   * With estimators whose points lie in the interval they are built on,
   * every child of a step lies in the subinterval it came from, and a
   * counter within its period stays within it.
   */
  lemma ChildrenInside(s: Settings, st: State, d: Data)
    requires AnswersWithin(s.bounds)
    ensures var r := Step(s, st, d);
            r.Done? ==> forall c :: c in r.children ==> d.sub.lo <= c.sub.lo && c.sub.hi <= d.sub.hi
    ensures var r := Step(s, st, d);
            r.Done? && 0 <= d.counter <= d.period ==>
              forall c :: c in r.children ==> 0 <= c.counter <= c.period
  {
    var r := Step(s, st, d);
    if r.Done? {
      var d1 := Refresh(s, d).value;
      var dfa, dfb := s.problem.dfAt(d.sub.lo), s.problem.dfAt(d.sub.hi);
      var (discard, d2) := Prepare(s, d).value;
      if s.reduction == 2 && !discard && s.estimator != 1 {
        var q := DerivativeQuery(d1, dfa, dfb, true);
        assert Contains(d1.sub, s.bounds(q).leftEnd.value);
        if q.fb > 0.0 {
          assert Contains(d1.sub, s.bounds(q).rightEndUnder.value);
        } else {
          assert Contains(d1.sub, s.bounds(q.(under := false)).rightEndUpper.value);
        }
      }
      if !discard {
        assert r == Branch(s, st, d2, d.sub.hi - d.sub.lo, dfa, dfb);
        var q := EstimatorQuery(s, st, d2, dfa, dfb);
        assert Contains(d2.sub, s.bounds(q).lowerBoundAndPoint.0);
      }
    }
  }

  /** The source's test keeps a derivative end at 0.0 away, where the intended test keeps the subproblem. */
  lemma Reduction2DropsZeroEnd()
    ensures var s := Settings(Problem(-1.0, 1.0, x => x, x => x, I => I, I => I), 0.001, false, false, 2, 2, false,
                              q => Answers((0.0, -1.0), Some(0.0), Some(0.5), Some(0.5)), I => true, w => 0, true);
            var d := Data(Ival(-1.0, 1.0), Ival(-1.0, 1.0), 0, 0);
            Reduction2AsWritten(s, d, 1.0, 1.0) == Some((true, d))
            && Reduction2(s, d, 1.0, 1.0) == Some((false, d.(sub := Ival(0.0, 0.5))))
  {
  }

  // ---------------------------------------------------------------------
  // The objects
  // ---------------------------------------------------------------------

  /** `ProcData`: a subproblem, updated in place by the processor. */
  class ProcData {
    var subInterval: Ival
    var lip: Ival
    var counter: int
    var periodCompLip: int

    function Value(): Data
      reads this
    {
      Data(subInterval, lip, counter, periodCompLip)
    }

    constructor (subInterval: Ival, lip: Ival, counter: int, periodCompLip: int)
      ensures Value() == Data(subInterval, lip, counter, periodCompLip)
    {
      this.subInterval := subInterval;
      this.lip := lip;
      this.counter := counter;
      this.periodCompLip := periodCompLip;
    }
  }

  /** `ProcessorReduction` of processor_reduction.py. */
  class ProcessorReduction {
    var recV: real
    var recX: real
    var running: bool
    const problem: Problem
    const eps: real
    const globalLipint: bool
    const useSymmLipint: bool
    const estimator: int
    const reduction: int
    const adaptive: bool
    const bounds: Query -> Answers
    const includeZero: Ival -> bool
    const periodOf: real -> nat

    function Snapshot(): State
      reads this
    {
      State(recV, recX)
    }

    /** The constants a step reads; `reduction2` tests the left end as written. */
    function Config(): Settings
    {
      Settings(problem, eps, globalLipint, useSymmLipint, estimator, reduction, adaptive, bounds, includeZero, periodOf, true)
    }

    constructor (recV: real, recX: real, problem: Problem, eps: real, globalLipint: bool, useSymmLipint: bool,
                 estimator: int, reduction: int, adaptive: bool,
                 bounds: Query -> Answers, includeZero: Ival -> bool, periodOf: real -> nat)
      ensures Snapshot() == State(recV, recX) && running
      ensures Config() == Settings(problem, eps, globalLipint, useSymmLipint, estimator, reduction, adaptive,
                                   bounds, includeZero, periodOf, true)
    {
      this.recV := recV;
      this.recX := recX;
      this.problem := problem;
      this.eps := eps;
      this.globalLipint := globalLipint;
      this.useSymmLipint := useSymmLipint;
      this.estimator := estimator;
      this.reduction := reduction;
      this.running := true;
      this.adaptive := adaptive;
      this.bounds := bounds;
      this.includeZero := includeZero;
      this.periodOf := periodOf;
    }

    /** `update_lipschitz`. */
    method UpdateLipschitz(data: ProcData)
      modifies data
      ensures data.Value() == old(data.Value()).(lip := Enclosure(Config(), data.subInterval))
    {
      if estimator == 1 {
        data.lip := problem.df(data.subInterval);
        if useSymmLipint {
          var L := Max2(-data.lip.lo, data.lip.hi);
          data.lip := Ival(-L, L);
        }
      } else {
        data.lip := problem.ddf(data.subInterval);
        if useSymmLipint {
          var L := Max2(-data.lip.lo, data.lip.hi);
          data.lip := Ival(-L, L);
        }
      }
    }

    /** Lines 130-140; `ok` is false where the period formula raises. */
    method RefreshLipschitz(data: ProcData) returns (ok: bool)
      modifies data
      ensures var r := Refresh(Config(), old(data.Value()));
              ok == r.Some? && (ok ==> data.Value() == r.value)
    {
      ok := true;
      if !globalLipint {
        if adaptive {
          if data.counter < data.periodCompLip {
            data.counter := data.counter + 1;
          } else {
            UpdateLipschitz(data);
            var w := data.lip.hi - data.lip.lo;
            if w <= 0.0 {
              return false;
            }
            data.periodCompLip := periodOf(w);
            data.counter := 0;
          }
        } else {
          UpdateLipschitz(data);
        }
      }
    }

    /**
     * `reduction2` as written; `ok` is false where a missing right end
     * makes the next step raise.
     */
    method Reduction2Step(data: ProcData, dfa: real, dfb: real) returns (discard: bool, ok: bool)
      modifies data
      ensures var r := Reduction2AsWritten(Config(), old(data.Value()), dfa, dfb);
              ok == r.Some? && (ok ==> discard == r.value.0 && data.Value() == r.value.1)
    {
      if estimator == 1 {
        return !includeZero(data.lip), true;
      }
      var lipLeft, lipRight := data.lip.lo, data.lip.hi;
      var fa, fb := dfa, dfb;
      if fa < 0.0 {
        fa, fb := -fa, -fb;
        lipLeft, lipRight := -data.lip.hi, -data.lip.lo;
      }
      var q := Query(1, data.subInterval, lipLeft, lipRight, fa, fb, 0.0, 0.0, true);
      var leftEnd := bounds(q).leftEnd;
      if leftEnd.None? || leftEnd.value == 0.0 {
        return true, true;
      }
      var rightEnd;
      if fb > 0.0 {
        rightEnd := bounds(q).rightEndUnder;
      } else {
        rightEnd := bounds(q.(under := false)).rightEndUpper;
      }
      if rightEnd.None? {
        return false, false;
      }
      data.subInterval := Ival(leftEnd.value, rightEnd.value);
      return false, true;
    }

    /** Lines 130-145: refresh, then `reduction2` at level 2; `ok` is false where the step raises. */
    method PrepareData(data: ProcData) returns (discard: bool, ok: bool)
      modifies data
      ensures var r := Prepare(Config(), old(data.Value()));
              ok == r.Some? && (ok ==> discard == r.value.0 && data.Value() == r.value.1)
    {
      var dfa := problem.dfAt(data.subInterval.lo);
      var dfb := problem.dfAt(data.subInterval.hi);
      discard := false;
      ok := RefreshLipschitz(data);
      if ok && reduction == 2 {
        discard, ok := Reduction2Step(data, dfa, dfb);
      }
    }

    /** Lines 146-178: drop, or record and split. */
    method Divide(data: ProcData, width: real, dfa: real, dfb: real) returns (lst: seq<ProcData>, ok: bool)
      modifies this`recV, this`recX, data
      ensures var r := Branch(Config(), old(Snapshot()), old(data.Value()), width, dfa, dfb);
              ok == r.Done?
              && (ok ==> Snapshot() == r.state && data.Value() == r.data && |lst| == |r.children|
                         && forall i :: 0 <= i < |lst| ==> lst[i].Value() == r.children[i])
      ensures forall c :: c in lst ==> c == data || fresh(c)
    {
      var sub := data.subInterval;
      var q := EstimatorQuery(Config(), Snapshot(), data.Value(), dfa, dfb);
      var lower := bounds(q);
      var (splitPoint, boundY) := lower.lowerBoundAndPoint;
      if boundY > -eps {
        return [], true;
      }
      var fSplit := problem.objective(splitPoint);
      if fSplit < recV {
        recV := fSplit;
        recX := splitPoint;
      }
      if reduction >= 1 {
        if lower.rightEndUnder.None? || lower.leftEnd.None? || width == 0.0 {
          return [], false;
        }
        var rightEnd, leftEnd := lower.rightEndUnder.value, lower.leftEnd.value;
        if (rightEnd - leftEnd) / width > 0.7 {
          var data2 := new ProcData(Ival(splitPoint, rightEnd), data.lip, data.counter, data.periodCompLip);
          data.subInterval := Ival(leftEnd, splitPoint);
          lst := [data2, data];
        } else {
          data.subInterval := Ival(leftEnd, rightEnd);
          lst := [data];
        }
      } else {
        var data2 := new ProcData(Ival(splitPoint, sub.hi), data.lip, data.counter, data.periodCompLip);
        data.subInterval := Ival(sub.lo, splitPoint);
        lst := [data2, data];
      }
      ok := true;
    }

    /**
     * `fzcp_process`: one step on `data`.  `ok` is false where the source
     * raises; otherwise the new record, the data and the children are
     * those of `Step`.
     */
    method FzcpProcess(data: ProcData) returns (lst: seq<ProcData>, ok: bool)
      modifies this`recV, this`recX, data
      ensures var r := Step(Config(), old(Snapshot()), old(data.Value()));
              ok == r.Done?
              && (ok ==> Snapshot() == r.state && data.Value() == r.data && |lst| == |r.children|
                         && forall i :: 0 <= i < |lst| ==> lst[i].Value() == r.children[i])
      ensures forall c :: c in lst ==> c == data || fresh(c)
      ensures ok ==> recV <= old(recV)
    {
      var width := data.subInterval.hi - data.subInterval.lo;
      var dfa := problem.dfAt(data.subInterval.lo);
      var dfb := problem.dfAt(data.subInterval.hi);
      lst := [];
      var discard;
      discard, ok := PrepareData(data);
      if !ok || discard {
        return;
      }
      lst, ok := Divide(data, width, dfa, dfb);
    }
  }
}
