/**
 * The generic branch-and-bound driver of bnb.py.
 *
 * The driver pops one subproblem at a time from a work list, hands it to
 * the processor, adds every subproblem the processor returns to the list
 * and counts the step, while the list is not empty and the count has not
 * passed `max_steps`.  The work list is a Python set or a sorted list whose
 * `pop` order the driver does not control; here it is a multiset with the
 * container's choice `pick`.  The processor is a function of its own state
 * and the subproblem, which either raises or returns its new state and the
 * children.
 */
module Bnb {
  import opened Common

  /** `Sub` of bnb.py: the level, the bound and the processor's data, kept as given. */
  datatype Sub<B, D> = Sub(level: int, bound: B, data: D)

  /** Where a run of the driver stops: the step count, the work list left and the processor's state. */
  datatype Run<S, T> = Run(steps: int, subs: multiset<T>, state: S)

  /**
   * The loop of lines 17-21 from step `steps` on: `Fail` where the
   * processor raises, otherwise where the loop stops.
   */
  function Drive<S, T>(pick: multiset<T> -> T, process: (S, T) -> Result<(S, seq<T>)>,
                       subs: multiset<T>, st: S, steps: int, maxSteps: int): (r: Result<Run<S, T>>)
    decreases maxSteps + 1 - steps
    ensures r.Ok? ==> steps <= r.value.steps
    ensures r.Ok? ==> r.value.subs == multiset{} || maxSteps < r.value.steps
    ensures r.Ok? && steps <= maxSteps + 1 ==> r.value.steps <= maxSteps + 1
    ensures subs == multiset{} || maxSteps < steps ==> r == Ok(Run(steps, subs, st))
  {
    if subs != multiset{} && steps <= maxSteps then
      var s := pick(subs);
      match process(st, s)
      case Fail(e) => Fail(e)
      case Ok((st', children)) =>
        Drive(pick, process, (subs - multiset{s}) + multiset(children), st', steps + 1, maxSteps)
    else Ok(Run(steps, subs, st))
  }

  /**
   * One turn of the loop removes exactly the popped subproblem and adds
   * exactly the processor's children.
   */
  lemma OneStep<S, T>(pick: multiset<T> -> T, process: (S, T) -> Result<(S, seq<T>)>,
                      subs: multiset<T>, st: S)
    requires forall m: multiset<T> :: m != multiset{} ==> pick(m) in m
    requires subs != multiset{}
    requires process(st, pick(subs)).Ok?
    ensures var next := (subs - multiset{pick(subs)}) + multiset(process(st, pick(subs)).value.1);
            |next| + 1 == |subs| + |process(st, pick(subs)).value.1|
            && next[pick(subs)] + 1 == subs[pick(subs)] + multiset(process(st, pick(subs)).value.1)[pick(subs)]
  {
    var s := pick(subs);
    assert s in subs;
    assert |subs - multiset{s}| + 1 == |subs| by {
      assert (subs - multiset{s}) + multiset{s} == subs;
    }
  }

  /**
   * Anything the processor keeps true of its state and the work list on
   * every step holds where the driver stops.  With the state a processor's
   * record this gives, for instance, that the record never gets worse over
   * a whole run.
   */
  lemma {:induction false} DrivePreserves<S, T>(pick: multiset<T> -> T, process: (S, T) -> Result<(S, seq<T>)>,
                                                inv: (S, multiset<T>) -> bool,
                                                subs: multiset<T>, st: S, steps: int, maxSteps: int)
    requires forall st': S, m: multiset<T> ::
               inv(st', m) && m != multiset{} && process(st', pick(m)).Ok? ==>
                 inv(process(st', pick(m)).value.0, (m - multiset{pick(m)}) + multiset(process(st', pick(m)).value.1))
    requires inv(st, subs)
    ensures var r := Drive(pick, process, subs, st, steps, maxSteps);
            r.Ok? ==> inv(r.value.state, r.value.subs)
    decreases maxSteps + 1 - steps
  {
    if subs != multiset{} && steps <= maxSteps {
      var s := pick(subs);
      if process(st, s).Ok? {
        var (st', children) := process(st, s).value;
        DrivePreserves(pick, process, inv, (subs - multiset{s}) + multiset(children), st', steps + 1, maxSteps);
      }
    }
  }

  /**
   * A processor that never returns children empties any list of at most
   * `max_steps + 1` subproblems, one step each.
   */
  lemma {:induction false} LeafProcessorDrains<S, T>(pick: multiset<T> -> T, process: (S, T) -> Result<(S, seq<T>)>,
                                                     subs: multiset<T>, st: S, steps: int, maxSteps: int)
    requires forall m: multiset<T> :: m != multiset{} ==> pick(m) in m
    requires forall st': S, s: T :: process(st', s).Ok? ==> process(st', s).value.1 == []
    requires steps + |subs| <= maxSteps + 1
    ensures var r := Drive(pick, process, subs, st, steps, maxSteps);
            r.Ok? ==> r.value.subs == multiset{} && r.value.steps == steps + |subs|
    decreases |subs|
  {
    if subs != multiset{} && steps <= maxSteps {
      var s := pick(subs);
      if process(st, s).Ok? {
        var (st', children) := process(st, s).value;
        OneStep(pick, process, subs, st);
        assert multiset(children) == multiset{};
        LeafProcessorDrains(pick, process, (subs - multiset{s}) + multiset(children), st', steps + 1, maxSteps);
      }
    }
  }

  /** The work list the driver is given and updates in place; `pop` follows the container's own order. */
  class WorkList<T(==)> {
    var items: multiset<T>
    const pick: multiset<T> -> T

    constructor (items: multiset<T>, pick: multiset<T> -> T)
      ensures this.items == items && this.pick == pick
    {
      this.items := items;
      this.pick := pick;
    }

    /** `subs.pop()`: the container's choice, taken off the list. */
    method Pop() returns (s: T)
      modifies this`items
      ensures s == pick(old(items)) && items == old(items) - multiset{s}
    {
      s := pick(items);
      items := items - multiset{s};
    }

    /** `subs.update(new_subs)`: every child joins the list. */
    method Update(children: seq<T>)
      modifies this`items
      ensures items == old(items) + multiset(children)
    {
      items := items + multiset(children);
    }
  }

  /**
   * `bnb` (lines 14-22).  `ok` is false where the processor raises;
   * otherwise the step count, the list left in `subs` and the processor's
   * final state are those of `Drive` from step 0.
   */
  method BranchAndBound<S, T(==)>(subs: WorkList<T>, maxSteps: int, st: S, process: (S, T) -> Result<(S, seq<T>)>)
    returns (steps: int, st': S, ok: bool)
    modifies subs`items
    ensures var r := Drive(subs.pick, process, old(subs.items), st, 0, maxSteps);
            ok == r.Ok? && (ok ==> steps == r.value.steps && subs.items == r.value.subs && st' == r.value.state)
  {
    steps, st' := 0, st;
    while subs.items != multiset{} && steps <= maxSteps
      invariant 0 <= steps
      invariant Drive(subs.pick, process, old(subs.items), st, 0, maxSteps)
                == Drive(subs.pick, process, subs.items, st', steps, maxSteps)
      decreases maxSteps + 1 - steps
    {
      var s := subs.Pop();
      var out := process(st', s);
      if out.Fail? {
        return steps, st', false;
      }
      st' := out.value.0;
      subs.Update(out.value.1);
      steps := steps + 1;
    }
    ok := true;
  }
}
