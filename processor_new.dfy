/**
 * The floating-point step policy of FZCP/processor_new.py, `ProcessorNew`.
 *
 * The step has the shape of the decimal one (prune, certify, refresh,
 * narrow, record or split) with three differences: the refresh period is a
 * field of the processor rather than of the data, there is no fallback
 * from the quadratic to the linear estimator, and results carry a verdict,
 * 'certain' when the record point closes the interval and 'uncertain' when
 * only the narrowing made it short.
 *
 * The estimators the source builds here are called with arguments that
 * the float estimator classes do not accept, so their end-point queries
 * are an oracle `bounds` of the settings.
 */
module ProcessorNewFloat {
  import opened Common
  import opened RealFacts
  import opened FloatInterval

  /** The problem: the search interval, `f` at points, and enclosures of `f'` and `f''` over intervals. */
  datatype Problem = Problem(a: real, b: real, objective: real -> real, df: Ival -> Ival, ddf: Ival -> Ival)

  /** What an estimator is asked to answer: kind (1 linear, else quadratic), interval, enclosure, mode. */
  datatype Query = Query(estimator: int, sub: Ival, lip: Ival, under: bool)

  /** The answers of an estimator: `get_left_end`, `get_right_end_under_bound`, `get_right_end_upper_bound`. */
  datatype Ends = Ends(leftEnd: Option<real>, rightEndUnder: Option<real>, rightEndUpper: Option<real>)

  /**
   * The settings the constructor fixes.  `periodOf(w)` is the period
   * `int(128 / math.sqrt(w))` of an enclosure of positive width `w`.
   */
  datatype Settings = Settings(problem: Problem, eps: real, globalLipint: bool, useSymmLipint: bool,
                               estimator: int, reduction: int, bounds: Query -> Ends, periodOf: real -> nat)

  datatype Verdict = Certain | Uncertain

  /** The fields of a `ProcData`, as a value. */
  datatype Data = Data(sub: Ival, lip: Ival, counter: int)

  /** The fields of the processor that the step updates, as a value. */
  datatype State = State(resList: seq<(Ival, Verdict)>, recX: real, running: bool, period: int)

  /** The outcome of one step: the source raises, or the new state, the new data and the children. */
  datatype Outcome = Raises | Done(state: State, data: Data, children: seq<Data>)

  /** Every end an estimator returns lies in the interval it was built on. */
  ghost predicate EndsWithin(bounds: Query -> Ends)
  {
    forall q: Query :: (bounds(q).leftEnd.Some? ==> Contains(q.sub, bounds(q).leftEnd.value))
                       && (bounds(q).rightEndUnder.Some? ==> Contains(q.sub, bounds(q).rightEndUnder.value))
                       && (bounds(q).rightEndUpper.Some? ==> Contains(q.sub, bounds(q).rightEndUpper.value))
  }

  // ---------------------------------------------------------------------
  // The pieces of a step, on values
  // ---------------------------------------------------------------------

  /** `update_lipschitz`: the enclosure of `f'` (kind 1) or `f''`, made symmetric on request. */
  function Enclosure(s: Settings, sub: Ival): (r: Ival)
    ensures var raw := if s.estimator == 1 then s.problem.df(sub) else s.problem.ddf(sub);
            r.lo <= raw.lo && raw.hi <= r.hi && (s.useSymmLipint ==> r.lo == -r.hi)
            && (!s.useSymmLipint ==> r == raw)
  {
    var raw := if s.estimator == 1 then s.problem.df(sub) else s.problem.ddf(sub);
    if s.useSymmLipint then
      var L := Max2(-raw.lo, raw.hi);
      Ival(-L, L)
    else raw
  }

  /**
   * Lines 103-110: without a global enclosure the counter counts up to the
   * processor's period, and then the enclosure and the period are
   * recomputed and the counter restarts; a non-positive enclosure width
   * makes the period formula raise.
   */
  function Refresh(s: Settings, period: int, d: Data): (r: Option<(int, Data)>)
    ensures r.Some? ==> r.value.1.sub == d.sub
    ensures r.Some? && d.counter <= period ==> r.value.1.counter <= r.value.0
    ensures r.Some? && 0 <= d.counter ==> 0 <= r.value.1.counter
    ensures r.Some? && r.value.0 != period ==> r.value.1.counter == 0
  {
    if s.globalLipint then Some((period, d))
    else if d.counter < period then Some((period, d.(counter := d.counter + 1)))
    else
      var lip := Enclosure(s, d.sub);
      if lip.hi - lip.lo <= 0.0 then None
      else Some((s.periodOf(lip.hi - lip.lo), d.(lip := lip, counter := 0)))
  }

  /**
   * Lines 115-139: the ends of the narrowed interval and the new record
   * point.  Away from the record the right end is the lower estimator's;
   * at the record it is the upper estimator's, clipped to `b`, and becomes
   * the record.  Reduction level 0 keeps `[a, b]`; the other levels, and a
   * missing right end, raise.
   */
  function Reduce(s: Settings, recX: real, d: Data, left: real): (r: Option<(real, real, real)>)
    ensures r.Some? ==> r.value.2 == recX || (r.value.2 == r.value.1 && r.value.1 <= d.sub.hi)
    ensures r.Some? ==> s.reduction == 0 || s.reduction == 1
    ensures r.Some? && s.reduction == 0 ==> r.value == (d.sub.lo, d.sub.hi, recX)
    ensures r.Some? && s.reduction == 1 ==> r.value.0 == left
  {
    var b := d.sub.hi;
    if s.reduction > 0 then
      if s.reduction == 1 then
        if b < recX then
          match s.bounds(Query(s.estimator, d.sub, d.lip, true)).rightEndUnder
          case Some(right) => Some((left, right, recX))
          case None => None
        else if b == recX then
          match s.bounds(Query(s.estimator, d.sub, d.lip, false)).rightEndUpper
          case Some(x) => var right := if x > b then b else x; Some((left, right, right))
          case None => None
        else None
      else None
    else if s.reduction == 0 then Some((d.sub.lo, d.sub.hi, recX))
    else None
  }

  /**
   * Lines 131-134 and 140-163: at the record, a short interval is certain
   * and stops the run; otherwise a short interval is recorded as uncertain,
   * a weak narrowing splits at the midpoint (dropping the right half and
   * moving the record there when `f(mid) <= 0`), and a strong one keeps the
   * data with the narrowed interval.
   */
  function Split(s: Settings, st: State, atRecord: bool, d: Data, left: real, right: real): (r: Outcome)
    ensures r.Done? ==> r.state.period == st.period
    ensures r.Done? ==> |r.children| <= 2 && (r.children == [] || r.children[|r.children| - 1] == r.data)
    ensures r.Done? ==> r.data.lip == d.lip && r.data.counter == d.counter
    ensures r.Done? ==> forall c :: c in r.children ==> c.lip == d.lip && c.counter == d.counter
    ensures r.Done? && r.children == [] ==>
              right - left < s.eps
              && r.state.resList == st.resList + [(Ival(left, right), if atRecord then Certain else Uncertain)]
              && r.state.running == (!atRecord && st.running)
    ensures r.Done? && r.children != [] ==> r.state.resList == st.resList && r.state.running == st.running
    ensures r.Done? && r.state.recX != st.recX ==> r.state.recX == left + (right - left) / 2.0 && |r.children| == 1
    ensures r.Done? && |r.children| == 2 ==> r.children[0].sub == Ival(left + (right - left) / 2.0, right)
                                             && r.children[1].sub == Ival(left, left + (right - left) / 2.0)
    ensures r.Done? && (|r.children| == 2 || r.state.recX != st.recX) && d.sub.lo <= d.sub.hi ==>
              left < left + (right - left) / 2.0 < right
    ensures r.Raises? <==> right - left >= s.eps && d.sub.hi - d.sub.lo == 0.0
  {
    var split := left + (right - left) / 2.0;
    if right - left < s.eps then
      if atRecord then Done(st.(resList := st.resList + [(Ival(left, right), Certain)], running := false), d, [])
      else Done(st.(resList := st.resList + [(Ival(left, right), Uncertain)]), d, [])
    else
      var width := d.sub.hi - d.sub.lo;
      if width == 0.0 then Raises
      else if (right - left) / width > 0.7 then
        assert 0.0 < width ==> 0.0 < right - left by {
          if 0.0 < width && right - left <= 0.0 { QuotientNonpos(right - left, width); }
        }
        var d1 := d.(sub := Ival(left, split));
        if s.problem.objective(split) <= 0.0 then Done(st.(recX := split), d1, [d1])
        else Done(st, d1, [d.(sub := Ival(split, right)), d1])
      else
        var d1 := d.(sub := Ival(left, right));
        Done(st, d1, [d1])
  }

  /** Lines 111-163, after the refresh. */
  function Narrow(s: Settings, st: State, d: Data): (r: Outcome)
    ensures r.Done? ==> r.state.period == st.period && (r.state.running ==> st.running)
    ensures r.Done? ==> st.resList <= r.state.resList && |r.state.resList| <= |st.resList| + 1
    ensures r.Done? && r.children != [] ==> r.state.resList == st.resList && r.state.running == st.running
    ensures r.Done? ==> |r.children| <= 2 && (r.children == [] || r.children[|r.children| - 1] == r.data)
    ensures r.Done? ==> r.data.counter == d.counter && forall c :: c in r.children ==> c.counter == d.counter
    ensures r.Done? && s.bounds(Query(s.estimator, d.sub, d.lip, true)).leftEnd.None? ==> r == Done(st, d, [])
  {
    match s.bounds(Query(s.estimator, d.sub, d.lip, true)).leftEnd
    case None => Done(st, d, [])
    case Some(x) =>
      match Reduce(s, st.recX, d, x)
      case None => Raises
      case Some((left, right, recX)) => Split(s, st.(recX := recX), s.reduction == 1 && d.sub.hi == st.recX, d, left, right)
  }

  /** `fzcp_process`, on values. */
  function Step(s: Settings, st: State, d: Data): (r: Outcome)
  {
    if d.sub.hi > st.recX then Done(st, d, [])
    else if st.recX - d.sub.lo <= s.eps then
      Done(st.(resList := st.resList + [(Ival(d.sub.lo, st.recX), Certain)], running := false), d, [])
    else
      match Refresh(s, st.period, d)
      case None => Raises
      case Some((period, d1)) => Narrow(s, st.(period := period), d1)
  }

  // ---------------------------------------------------------------------
  // What a step keeps
  // ---------------------------------------------------------------------

  /**
   * The processor never starts running again, results are only appended,
   * at most one per step and only by a step without children, at most two
   * children are returned with the processed data last, and a counter
   * within the period stays within it.
   */
  lemma StepKeeps(s: Settings, st: State, d: Data)
    ensures var r := Step(s, st, d);
            r.Done? ==>
              (r.state.running ==> st.running)
              && st.resList <= r.state.resList && |r.state.resList| <= |st.resList| + 1
              && (r.children != [] ==> r.state.resList == st.resList && r.state.running == st.running)
              && |r.children| <= 2 && (r.children != [] ==> r.children[|r.children| - 1] == r.data)
              && (0 <= d.counter <= st.period ==>
                    0 <= r.data.counter <= r.state.period
                    && forall c :: c in r.children ==> 0 <= c.counter <= r.state.period)
  {
  }

  /**
   * With estimators whose ends lie in the interval they are asked about,
   * the record point never increases on a proper subinterval.
   */
  lemma RecordNeverIncreases(s: Settings, st: State, d: Data)
    requires EndsWithin(s.bounds) && d.sub.lo <= d.sub.hi
    ensures Step(s, st, d).Done? ==> Step(s, st, d).state.recX <= st.recX
  {
    var r := Step(s, st, d);
    if r.Done? && d.sub.hi <= st.recX && st.recX - d.sub.lo > s.eps {
      var (period, d1) := Refresh(s, st.period, d).value;
      var st1 := st.(period := period);
      var q := Query(s.estimator, d1.sub, d1.lip, true);
      match s.bounds(q).leftEnd
      case None =>
      case Some(x) =>
        var (left, right, recX) := Reduce(s, st1.recX, d1, x).value;
        if d1.sub.hi < st.recX && s.reduction == 1 {
          assert Contains(q.sub, right);
        }
        assert r == Split(s, st1.(recX := recX), s.reduction == 1 && d1.sub.hi == st1.recX, d1, left, right);
    }
  }

  /**
   * With such estimators, every child lies in the subinterval, and the two
   * children of a split are its halves, the right one first.
   */
  lemma ChildrenInside(s: Settings, st: State, d: Data)
    requires EndsWithin(s.bounds) && d.sub.lo <= d.sub.hi
    ensures var r := Step(s, st, d);
            r.Done? ==> forall c :: c in r.children ==> d.sub.lo <= c.sub.lo && c.sub.hi <= d.sub.hi
    ensures var r := Step(s, st, d);
            r.Done? && |r.children| == 2 ==>
              r.children[0].sub.lo == r.children[1].sub.hi
              && r.children[1].sub.lo < r.children[1].sub.hi < r.children[0].sub.hi
  {
    var r := Step(s, st, d);
    if r.Done? && d.sub.hi <= st.recX && st.recX - d.sub.lo > s.eps {
      var (period, d1) := Refresh(s, st.period, d).value;
      var st1 := st.(period := period);
      var q := Query(s.estimator, d1.sub, d1.lip, true);
      match s.bounds(q).leftEnd
      case None =>
      case Some(x) =>
        assert Contains(q.sub, x);
        var (left, right, recX) := Reduce(s, st1.recX, d1, x).value;
        if s.reduction == 1 {
          if d1.sub.hi < st.recX {
            assert Contains(q.sub, right);
          } else {
            var u := s.bounds(Query(s.estimator, d1.sub, d1.lip, false)).rightEndUpper.value;
            assert Contains(d1.sub, u);
          }
        }
        assert r == Split(s, st1.(recX := recX), s.reduction == 1 && d1.sub.hi == st1.recX, d1, left, right);
    }
  }

  // ---------------------------------------------------------------------
  // The objects
  // ---------------------------------------------------------------------

  /** `ProcData`: a subproblem, updated in place by the processor. */
  class ProcData {
    var subInterval: Ival
    var lip: Ival
    var counter: int

    function Value(): Data
      reads this
    {
      Data(subInterval, lip, counter)
    }

    constructor (subInterval: Ival, lip: Ival, counter: int)
      ensures Value() == Data(subInterval, lip, counter)
    {
      this.subInterval := subInterval;
      this.lip := lip;
      this.counter := counter;
    }
  }

  /** `ProcessorNew` of FZCP/processor_new.py. */
  class ProcessorNew {
    var resList: seq<(Ival, Verdict)>
    var recX: real
    var running: bool
    var periodCompLip: int
    const recV: real
    const problem: Problem
    const eps: real
    const globalLipint: bool
    const useSymmLipint: bool
    const estimator: int
    const reduction: int
    const bounds: Query -> Ends
    const periodOf: real -> nat

    function Snapshot(): State
      reads this
    {
      State(resList, recX, running, periodCompLip)
    }

    function Config(): Settings
    {
      Settings(problem, eps, globalLipint, useSymmLipint, estimator, reduction, bounds, periodOf)
    }

    constructor (recV: real, recX: real, problem: Problem, eps: real, globalLipint: bool, useSymmLipint: bool,
                 estimator: int, reduction: int, periodCompLip: int, bounds: Query -> Ends, periodOf: real -> nat)
      ensures Snapshot() == State([], recX, true, periodCompLip)
      ensures Config() == Settings(problem, eps, globalLipint, useSymmLipint, estimator, reduction, bounds, periodOf)
      ensures this.recV == recV
    {
      this.resList := [];
      this.recV := recV;
      this.recX := recX;
      this.problem := problem;
      this.eps := eps;
      this.globalLipint := globalLipint;
      this.useSymmLipint := useSymmLipint;
      this.estimator := estimator;
      this.reduction := reduction;
      this.running := true;
      this.periodCompLip := periodCompLip;
      this.bounds := bounds;
      this.periodOf := periodOf;
    }

    /** `update_lipschitz`. */
    method UpdateLipschitz(data: ProcData)
      modifies data
      ensures data.Value() == old(data.Value()).(lip := Enclosure(Config(), data.subInterval))
    {
      if estimator == 1 {
        data.lip := problem.df(data.subInterval);
        if useSymmLipint {
          var L := Max2(-data.lip.lo, data.lip.hi);
          data.lip := Ival(-L, L);
        }
      } else {
        data.lip := problem.ddf(data.subInterval);
        if useSymmLipint {
          var L := Max2(-data.lip.lo, data.lip.hi);
          data.lip := Ival(-L, L);
        }
      }
    }

    /** Lines 103-110; `ok` is false where the period formula raises. */
    method RefreshLipschitz(data: ProcData) returns (ok: bool)
      modifies this`periodCompLip, data
      ensures var r := Refresh(Config(), old(periodCompLip), old(data.Value()));
              ok == r.Some? && (ok ==> periodCompLip == r.value.0 && data.Value() == r.value.1)
    {
      ok := true;
      if !globalLipint {
        if data.counter < periodCompLip {
          data.counter := data.counter + 1;
        } else {
          UpdateLipschitz(data);
          var w := data.lip.hi - data.lip.lo;
          if w <= 0.0 {
            return false;
          }
          periodCompLip := periodOf(w);
          data.counter := 0;
        }
      }
    }

    /** Lines 115-139: the ends of the narrowed interval; `ok` is false where a right end is missing. */
    method NarrowedEnds(data: ProcData, leftEnd: real) returns (left: real, right: real, ok: bool)
      modifies this`recX
      ensures var r := Reduce(Config(), old(recX), data.Value(), leftEnd);
              ok == r.Some? && (ok ==> (left, right, recX) == r.value)
    {
      var subInterval := data.subInterval;
      left, right, ok := leftEnd, 0.0, false;
      if reduction > 0 {
        if reduction == 1 {
          if subInterval.hi < recX {
            var end := bounds(Query(estimator, data.subInterval, data.lip, true)).rightEndUnder;
            if end.Some? {
              right, ok := end.value, true;
            }
          } else if subInterval.hi == recX {
            var end := bounds(Query(estimator, data.subInterval, data.lip, false)).rightEndUpper;
            if end.Some? {
              right, ok := end.value, true;
              if right > subInterval.hi {
                right := subInterval.hi;
              }
              recX := right;
            }
          }
        }
      } else if reduction == 0 {
        left, right, ok := subInterval.lo, subInterval.hi, true;
      }
    }

    /** Lines 131-134 and 140-163: record, split or narrow. */
    method Divide(data: ProcData, atRecord: bool, left: real, right: real) returns (lst: seq<ProcData>, ok: bool)
      modifies this`resList, this`running, this`recX, data
      ensures var r := Split(Config(), old(Snapshot()), atRecord, old(data.Value()), left, right);
              ok == r.Done?
              && (ok ==> Snapshot() == r.state && data.Value() == r.data && |lst| == |r.children|
                         && forall i :: 0 <= i < |lst| ==> lst[i].Value() == r.children[i])
      ensures forall c :: c in lst ==> c == data || fresh(c)
    {
      lst, ok := [], true;
      var widthOfInterval := data.subInterval.hi - data.subInterval.lo;
      if atRecord && right - left < eps {
        resList := resList + [(Ival(left, right), Certain)];
        running := false;
        return;
      }
      var splitPoint := left + (right - left) / 2.0;
      if right - left < eps {
        resList := resList + [(Ival(left, right), Uncertain)];
      } else {
        var newWidth := right - left;
        if widthOfInterval == 0.0 {
          return [], false;
        }
        if newWidth / widthOfInterval > 0.7 {
          var sub1 := Ival(left, splitPoint);
          if problem.objective(sub1.hi) <= 0.0 {
            recX := sub1.hi;
          } else {
            var data2 := new ProcData(Ival(splitPoint, right), data.lip, data.counter);
            lst := lst + [data2];
          }
          data.subInterval := sub1;
          lst := lst + [data];
        } else {
          data.subInterval := Ival(left, right);
          lst := lst + [data];
        }
      }
    }

    /**
     * `fzcp_process`: one step on `data`.  `ok` is false where the source
     * raises; otherwise the new state and the children are those of `Step`.
     */
    method FzcpProcess(data: ProcData) returns (lst: seq<ProcData>, ok: bool)
      modifies this, data
      ensures var r := Step(Config(), old(Snapshot()), old(data.Value()));
              ok == r.Done?
              && (ok ==> Snapshot() == r.state && data.Value() == r.data && |lst| == |r.children|
                         && forall i :: 0 <= i < |lst| ==> lst[i].Value() == r.children[i])
      ensures forall c :: c in lst ==> c == data || fresh(c)
      ensures old(data.subInterval.hi) > old(recX) ==>
                ok && lst == [] && Snapshot() == old(Snapshot()) && data.Value() == old(data.Value())
      ensures old(data.subInterval.hi) <= old(recX) && old(recX) - old(data.subInterval.lo) <= eps ==>
                ok && lst == [] && !running && data.Value() == old(data.Value())
                && resList == old(resList) + [(Ival(old(data.subInterval.lo), old(recX)), Certain)]
    {
      var subInterval := data.subInterval;
      lst := [];
      if subInterval.hi > recX {
        return [], true;
      }
      if recX - subInterval.lo <= eps {
        resList := resList + [(Ival(subInterval.lo, recX), Certain)];
        running := false;
        return [], true;
      }
      ok := RefreshLipschitz(data);
      if !ok {
        return;
      }
      var leftEnd := bounds(Query(estimator, data.subInterval, data.lip, true)).leftEnd;
      if leftEnd.Some? {
        var atRecord := reduction == 1 && subInterval.hi == recX;
        var left, right;
        left, right, ok := NarrowedEnds(data, leftEnd.value);
        if !ok {
          return;
        }
        lst, ok := Divide(data, atRecord, left, right);
      }
    }
  }
}
