/**
 * The step shared by the minimisation processors of psqeprocessor.py,
 * pslprocessor.py and ivalprocessor.py, on values.
 *
 * `compute_bounds` asks an estimator for a lower bound of `f` on the
 * subproblem's interval (and, for the estimator processors, the point
 * where it is reached, which becomes the split point) and for a point with
 * its value, which replaces the record when that value is strictly
 * smaller.  `process` splits a subproblem whose bound is below
 * `rec_v - eps`, bounds both halves, and keeps the halves whose bound is
 * still below `rec_v - eps` once both have been bounded.
 */
module MinProcess {
  import opened Common
  import opened FloatInterval

  /** `Sub` of sub.py with its data: level, the scalar `bound`, the interval and the split point. */
  datatype Node = Node(level: int, bound: real, ival: Ival, split: Option<real>)

  /** A child as the processors create it: bound 0 and no split point yet. */
  function Fresh(level: int, ival: Ival): Node
  {
    Node(level, 0.0, ival, None)
  }

  /**
   * What an estimator reports on an interval: the split point and the
   * bound of `lower_bound_and_point` (no split point for the interval
   * processor), and the candidate record point `x` with its value `v`.
   */
  datatype Bounding = Bounding(split: Option<real>, bound: real, x: real, v: real)

  /** The record: the best value found and where. */
  datatype Record = Record(recV: real, recX: real)

  /** The outcome of `process`: the source raises, or the new record and the kept children. */
  datatype Outcome = Raises | Done(rec: Record, children: seq<Node>)

  /** The tolerance and the estimator as a function of the interval; `Fail` where building it raises. */
  datatype Settings = Settings(eps: real, bounding: Ival -> Result<Bounding>)

  /**
   * `compute_bounds`: the node takes the estimator's bound and split
   * point, and the record becomes the candidate exactly when the
   * candidate's value is strictly smaller.
   */
  function ComputeBounds(s: Settings, rec: Record, n: Node): (r: Result<(Record, Node)>)
    ensures r.Ok? <==> s.bounding(n.ival).Ok?
    ensures r.Ok? ==> var b := s.bounding(n.ival).value;
                      r.value.1.level == n.level && r.value.1.ival == n.ival
                      && r.value.1.bound == b.bound && r.value.1.split == b.split
                      && r.value.0.recV <= rec.recV && r.value.0.recV <= b.v
                      && (b.v < rec.recV ==> r.value.0 == Record(b.v, b.x))
                      && (!(b.v < rec.recV) ==> r.value.0 == rec)
  {
    match s.bounding(n.ival)
    case Fail(e) => Fail(e)
    case Ok(b) =>
      var rec' := if b.v < rec.recV then Record(b.v, b.x) else rec;
      Ok((rec', n.(bound := b.bound, split := b.split)))
  }

  /** The children kept: those whose bound is below `recV - eps`, in order. */
  function Keep(cs: seq<Node>, recV: real, eps: real): (r: seq<Node>)
    ensures forall c :: c in r <==> c in cs && c.bound < recV - eps
    ensures |r| <= |cs|
  {
    if cs == [] then []
    else (if cs[0].bound < recV - eps then [cs[0]] else []) + Keep(cs[1..], recV, eps)
  }

  /** Keeping from two children tests each in turn. */
  lemma KeepPair(c1: Node, c2: Node, recV: real, eps: real)
    ensures Keep([c1, c2], recV, eps)
            == (if c1.bound < recV - eps then [c1] else []) + (if c2.bound < recV - eps then [c2] else [])
  {
    assert [c1, c2][1..] == [c2];
    assert [c2][1..] == [];
  }

  /**
   * The split at `at`: both halves bounded in turn (the second against the
   * record the first may have improved), then filtered by the final record.
   */
  function Split(s: Settings, rec: Record, n: Node, at: real): (r: Outcome)
    ensures r.Raises? <==> s.bounding(Ival(n.ival.lo, at)).Fail? || s.bounding(Ival(at, n.ival.hi)).Fail?
    ensures r.Done? ==>
              r.rec.recV <= rec.recV
              && (forall c :: c in r.children ==>
                    c.level == n.level + 1 && c.bound < r.rec.recV - s.eps
                    && (c.ival == Ival(n.ival.lo, at) || c.ival == Ival(at, n.ival.hi)))
              && |r.children| <= 2
  {
    match ComputeBounds(s, rec, Fresh(n.level + 1, Ival(n.ival.lo, at)))
    case Fail(_) => Raises
    case Ok((rec1, sub1)) =>
      match ComputeBounds(s, rec1, Fresh(n.level + 1, Ival(at, n.ival.hi)))
      case Fail(_) => Raises
      case Ok((rec2, sub2)) => Done(rec2, Keep([sub1, sub2], rec2.recV, s.eps))
  }

  /** `Split` once both halves are bounded: the second record and the kept halves. */
  lemma SplitOf(s: Settings, rec: Record, n: Node, at: real, rec1: Record, n1: Node, rec2: Record, n2: Node)
    requires ComputeBounds(s, rec, Fresh(n.level + 1, Ival(n.ival.lo, at))) == Ok((rec1, n1))
    requires ComputeBounds(s, rec1, Fresh(n.level + 1, Ival(at, n.ival.hi))) == Ok((rec2, n2))
    ensures Split(s, rec, n, at) == Done(rec2, Keep([n1, n2], rec2.recV, s.eps))
  {
  }

  /**
   * `process` of psqeprocessor.py and pslprocessor.py (lines 58-78): a
   * subproblem whose bound is not below `rec_v - eps` has no children;
   * otherwise it is split at its split point.
   */
  function Process(s: Settings, rec: Record, n: Node): (r: Outcome)
    ensures !(n.bound < rec.recV - s.eps) ==> r == Done(rec, [])
    ensures n.bound < rec.recV - s.eps ==> r == (if n.split.None? then Raises else Split(s, rec, n, n.split.value))
    ensures r.Done? ==> r.rec.recV <= rec.recV
  {
    if n.bound < rec.recV - s.eps then
      if n.split.None? then Raises else Split(s, rec, n, n.split.value)
    else Done(rec, [])
  }

  /**
   * `process` of ivalprocessor.py (lines 29-54): the split is at the
   * midpoint, and a subproblem whose bound is not below `rec_v - eps`
   * reaches `return lst` with `lst` unbound, which raises.
   */
  function ProcessAtMid(s: Settings, rec: Record, n: Node): (r: Outcome)
    ensures r.Done? <==> n.bound < rec.recV - s.eps && Split(s, rec, n, Mid(n.ival)).Done?
    ensures r.Done? ==> r == Split(s, rec, n, Mid(n.ival))
  {
    if n.bound < rec.recV - s.eps then Split(s, rec, n, Mid(n.ival)) else Raises
  }

  /** The estimator's bound is a lower bound of `f` on every interval it is built on. */
  ghost predicate SoundBounds(s: Settings, f: real -> real)
  {
    forall ival, x :: s.bounding(ival).Ok? && ival.lo <= x <= ival.hi ==> s.bounding(ival).value.bound <= f(x)
  }

  /** Every candidate record point carries the value of `f` there. */
  ghost predicate TrueCandidates(s: Settings, f: real -> real)
  {
    forall ival :: s.bounding(ival).Ok? ==> f(s.bounding(ival).value.x) == s.bounding(ival).value.v
  }

  /**
   * Pruning loses nothing worth `eps`: with sound bounds, every point of a
   * half that `Split` drops has `f` at least the new record minus `eps`.
   */
  lemma {:induction false} DroppedHalvesHoldNothingBetter(s: Settings, f: real -> real, rec: Record, n: Node,
                                                          at: real, x: real)
    requires SoundBounds(s, f)
    requires Split(s, rec, n, at).Done?
    requires n.ival.lo <= x <= n.ival.hi
    ensures var r := Split(s, rec, n, at);
            (x <= at && forall c :: c in r.children ==> c.ival != Ival(n.ival.lo, at)) ==> r.rec.recV - s.eps <= f(x)
    ensures var r := Split(s, rec, n, at);
            (at <= x && forall c :: c in r.children ==> c.ival != Ival(at, n.ival.hi)) ==> r.rec.recV - s.eps <= f(x)
  {
    var r := Split(s, rec, n, at);
    var rec1 := ComputeBounds(s, rec, Fresh(n.level + 1, Ival(n.ival.lo, at))).value.0;
    var sub1 := ComputeBounds(s, rec, Fresh(n.level + 1, Ival(n.ival.lo, at))).value.1;
    var sub2 := ComputeBounds(s, rec1, Fresh(n.level + 1, Ival(at, n.ival.hi))).value.1;
    assert r.children == Keep([sub1, sub2], r.rec.recV, s.eps);
    if x <= at && sub1.bound < r.rec.recV - s.eps {
      assert sub1 in r.children;
    }
    if at <= x && sub2.bound < r.rec.recV - s.eps {
      assert sub2 in r.children;
    }
  }

  /** With true candidates, a record that holds the value of `f` at its point keeps doing so. */
  lemma RecordStaysAttained(s: Settings, f: real -> real, rec: Record, n: Node)
    requires TrueCandidates(s, f) && f(rec.recX) == rec.recV
    ensures var r := Process(s, rec, n); r.Done? ==> f(r.rec.recX) == r.rec.recV
    ensures var r := ProcessAtMid(s, rec, n); r.Done? ==> f(r.rec.recX) == r.rec.recV
  {
    var r := Process(s, rec, n);
    if r.Done? && n.bound < rec.recV - s.eps {
      SplitKeepsAttained(s, f, rec, n, n.split.value);
    }
    SplitKeepsAttained(s, f, rec, n, Mid(n.ival));
  }

  /** `Split` keeps a record that holds the value of `f` at its point. */
  lemma SplitKeepsAttained(s: Settings, f: real -> real, rec: Record, n: Node, at: real)
    requires TrueCandidates(s, f) && f(rec.recX) == rec.recV
    ensures var r := Split(s, rec, n, at); r.Done? ==> f(r.rec.recX) == r.rec.recV
  {
    var r := Split(s, rec, n, at);
    if r.Done? {
      var b1 := s.bounding(Ival(n.ival.lo, at)).value;
      var rec1 := ComputeBounds(s, rec, Fresh(n.level + 1, Ival(n.ival.lo, at))).value.0;
      assert f(rec1.recX) == rec1.recV;
    }
  }

  /** The two halves of a split that pass the record test, in order: `Keep` over the objects. */
  method KeepSubs(c1: MinSub, c2: MinSub, recV: real, eps: real) returns (lst: seq<MinSub>)
    ensures var r := Keep([c1.Value(), c2.Value()], recV, eps);
            |lst| == |r| && forall i :: 0 <= i < |lst| ==> (lst[i] == c1 || lst[i] == c2) && lst[i].Value() == r[i]
  {
    KeepPair(c1.Value(), c2.Value(), recV, eps);
    lst := [];
    if c1.bound < recV - eps {
      lst := lst + [c1];
    }
    if c2.bound < recV - eps {
      lst := lst + [c2];
    }
  }

  /** `Sub` of sub.py, updated in place by the minimisation processors. */
  class MinSub {
    var level: int
    var bound: real
    var ival: Ival
    var splitPoint: Option<real>

    function Value(): Node
      reads this
    {
      Node(level, bound, ival, splitPoint)
    }

    constructor (n: Node)
      ensures Value() == n
    {
      level := n.level;
      bound := n.bound;
      ival := n.ival;
      splitPoint := n.split;
    }
  }
}
