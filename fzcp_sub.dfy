/**
 * The subproblem the bisection processors of FZCP work on: a `Sub` of
 * sub.py (level and a two-element `bound` list) holding a data object
 * with an interval `ival` and a `split_point` (`PSQEData`, `PSLData`,
 * `CasData`).  The two bounds become the fields `lower` (`bound[0]`) and
 * `upper` (`bound[1]`), and the data's fields are the subproblem's own.
 */
module FzcpSub {
  import opened Common
  import opened FloatInterval

  /** A subproblem as a value: level, `bound[0]`, `bound[1]`, interval, split point (`None` until computed). */
  datatype Node = Node(level: int, lower: real, upper: real, ival: Ival, split: Option<real>)

  /** A child as the processors create it: bounds `[0, 0]` and no split point yet. */
  function Fresh(level: int, ival: Ival): Node
  {
    Node(level, 0.0, 0.0, ival, None)
  }

  /** `Sub` with its data object, updated in place by the processors. */
  class Subproblem {
    var level: int
    var lower: real
    var upper: real
    var ival: Ival
    var splitPoint: Option<real>

    function Value(): Node
      reads this
    {
      Node(level, lower, upper, ival, splitPoint)
    }

    constructor (n: Node)
      ensures Value() == n
    {
      level := n.level;
      lower := n.lower;
      upper := n.upper;
      ival := n.ival;
      splitPoint := n.split;
    }
  }
}
