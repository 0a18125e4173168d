# univarsolver, modelled in Dafny

This project models the core of univarsolver: a branch-and-bound solver for
one-variable problems over intervals. It covers two problem families:

- **FZCP**, the first zero crossing. Find the leftmost point of `[a, b]`
  where `f` drops to zero or below.
- **Minimisation.** Find the smallest value of `f` on `[a, b]`.

The model covers these parts of the solver:

- **Interval arithmetic.** The decimal kernel (`interval_arithmetics.py`),
  the float interval class (`interval.py`) and the factorial and term-count
  settings of `ia_math_fun.py`. Every modelled operation is proved to
  enclose the real result. The float power is modelled for natural
  exponents only, and `abs` is not modelled: neither encloses in general.
- **Estimator builders.** These build piecewise-linear (PSL) and piecewise
  quadratic (PSQE) under- and over-estimators from the ends of an interval,
  their values there and bounds on the derivatives. The files are
  `FZCP/psl_bounds*.py`, `psqe.py`, `psqe_under.py` and
  `FZCP/psqe_bounds*.py`. The model proves that the real-valued linear
  and quadratic estimators lie below every function whose values meet the
  bounds that the derivative bounds imply. Those bounds are stated without
  derivatives, as hypotheses on the values of the function. The interval
  builders are proved to enclose those real estimators. The model also
  proves that the estimators' roots, bounds and minima are correct.
- **Subproblem processors.** These reject, reduce, split or record the
  interval they are given (`FZCP/processor_*.py`, `FZCP/*processor_fzcp.py`,
  `processor_reduction.py`, `psqeprocessor.py`, `pslprocessor.py`,
  `ivalprocessor.py`). Each processor is a class whose fields are the
  source's record and parameters. Each method is proved against a
  specification function of the old state. The lemmas beside them show
  that every processor keeps the invariants the solver relies on:
  - the record never gets worse;
  - every child lies inside its parent;
  - no discarded piece holds the answer.
- **The generic driver** of `bnb.py`, the grid search of `gridsearch.py` and
  the column statistics of `FZCP/test.py`.

Numbers are exact reals. Decimal and float rounding are not modelled, and
each enclosure is stated over the reals. Where the source calls something
that is not shown, or that is numerics rather than logic, the model takes
it as a function-valued parameter with the contract the callers rely on
("oracle"). This covers the objective and its derivatives, the estimator
queries handed to the processors, square roots and the adaptive period.
A raising path in the source becomes a `Fail` result, or `ok == false` in
a method.

Where the documented design and the code disagree, the model follows the
code. Some examples:

- Casado's processor splits at `(ival[0] + ival[0]) / 2`, which is the left
  end, not the midpoint.
- In `FZCP/processor_correctly.py`, reduction level 2 and the `'err'` path
  raise.
- The PSL processor compares `bound[1]` without negating it.

Where the code is evidently wrong, "## Findings" models both the code as
written and the corrected rule.

## Model

| member | source | states |
|---|---|---|
| IntervalArithmetics.MyMul | interval_arithmetics.py:63-68 | The zero guard gives exactly the product. |
| IntervalArithmetics.Mul | interval_arithmetics.py:132-146 | The product interval is proper: its lower end is at most its upper end. |
| IntervalArithmetics.Sqrt | interval_arithmetics.py:181-186 | The square root succeeds exactly when both ends are non-negative; a negative end makes the decimal square root raise. |
| IntervalArithmetics.Pow | interval_arithmetics.py:148-179 | An integer power succeeds exactly for a positive exponent, and the power 1 gives the interval itself. |
| IntervalArithmetics.Div | interval_arithmetics.py:188-232 | No quotient exactly when dividing a zero-free interval by the point 0. A bounded quotient exactly when the source's test `a > 0 or b < 0` holds for the divisor and neither of its ends is 0. Division by zero is reported only for a reversed divisor. |
| IntervalArithmetics.Intersect | interval_arithmetics.py:323-342 | `None` exactly when the intervals are disjoint. |
| IntervalArithmetics.Mid | interval_arithmetics.py:284-294 | The midpoint is equidistant from both ends, and it lies in a proper interval. |
| IntervalArithmetics.MidInterval | interval_arithmetics.py:296-309 | A point interval at the midpoint. |
| IntervalArithmetics.Wid | interval_arithmetics.py:311-321 | The width is non-negative exactly for a proper interval. |
| IntervalArithmetics.IntersectExact | interval_arithmetics.py:323-342 | Disjoint intervals share no point. Otherwise a point lies in the intersection exactly when it lies in both intervals. |
| IntervalArithmetics.NegEncloses | interval_arithmetics.py:106-111 | `x` lies in `X` exactly when `-x` lies in `-X`. |
| IntervalArithmetics.AddEncloses | interval_arithmetics.py:116-122 | The sum of points of the operands lies in the sum. |
| IntervalArithmetics.SubEncloses | interval_arithmetics.py:124-130 | The difference of points of the operands lies in the difference. |
| IntervalArithmetics.MulIsCornerRange | interval_arithmetics.py:132-146 | The product is exactly the range of the four corner products; the zero guard changes nothing. |
| IntervalArithmetics.MulEncloses | interval_arithmetics.py:132-146 | The product of points of the operands lies in the product. |
| IntervalArithmetics.MulEnclosesProduct | interval_arithmetics.py:132-146 | Any value equal to such a product lies in the product. |
| IntervalArithmetics.PowIntEncloses | interval_arithmetics.py:152-172 | The `n`-th power of a point lies in the integer power, for `n >= 2`. |
| IntervalArithmetics.PowEncloses | interval_arithmetics.py:148-179 | A positive integer power succeeds and encloses the powers of the points. |
| IntervalArithmetics.SqrtEncloses | interval_arithmetics.py:181-186 | On a non-negative interval, the square root succeeds and encloses the square roots of the points. |
| IntervalArithmetics.ThreeHalvesEncloses | interval_arithmetics.py:175-176 | On a non-negative interval, the power `3/2` succeeds and encloses `sqrt(x^3)`. |
| IntervalArithmetics.ReciprocalEncloses | interval_arithmetics.py:197-201 | `1/y` lies in `[1/hi, 1/lo]` for a zero-free divisor. |
| IntervalArithmetics.DivBoundedEncloses | interval_arithmetics.py:197-202 | Dividing by a zero-free interval encloses the quotients of the points. |
| IntervalArithmetics.QuotientInProduct | interval_arithmetics.py:197-202 | The quotient of points lies in `X` times the reciprocal interval. |
| IntervalArithmetics.DivBoundedForm | interval_arithmetics.py:197-202 | Dividing by a zero-free interval is multiplication by `[1/hi, 1/lo]`. |
| IntervalArithmetics.DivRaysEnclose | interval_arithmetics.py:203-232 | A zero-free dividend over a divisor containing 0 gives rays that contain every quotient of points. |
| IntervalArithmetics.DivEncloses | interval_arithmetics.py:188-232 | Every quotient of points with a non-zero divisor point lies in the set that division describes. |
| IntervalArithmetics.NegInvolution | interval_arithmetics.py:106-111 | Negating twice gives the interval back. |
| IntervalArithmetics.MulByPoint | interval_arithmetics.py:132-146 | Multiplying by a point scales both ends, swapping them for a negative factor. |
| IntervalArithmetics.MulPoints | interval_arithmetics.py:132-146 | The product of two point intervals is the point interval of the product. |
| IntervalArithmetics.DivByPoint | interval_arithmetics.py:188-202 | Dividing by a non-zero point divides both ends, swapping them for a negative divisor. |
| FloatInterval.Mid | interval.py:16-17 | The midpoint is equidistant from both ends, and it lies in a proper interval. |
| FloatInterval.Intersec | interval.py:34-37 | Succeeds exactly when the interval itself is in order. |
| FloatInterval.Hull4 | interval.py:93-94 | The hull `[min(v), max(v)]` of the corner list is in order. |
| FloatInterval.Corner | interval.py:93 | One entry of the corner list is the product of its two ends. |
| FloatInterval.Div | interval.py:97-137 | A bounded quotient only for a divisor strictly on one side of 0. IEEE division by zero exactly for the point divisor 0, or for a zero end of a divisor that the `isIn` test calls zero-free. |
| FloatInterval.IntersecExact | interval.py:34-37 | For an interval in order, the intersection succeeds and holds exactly the common points. |
| FloatInterval.ValueToIntervalIsPoint | interval.py:154-161 | A number made an interval holds that number and no other, has width 0 and that number as its midpoint. |
| FloatInterval.AddSubNegEnclose | interval.py:45-67 | Sum, difference and negation hold the sum, difference and negation of any points of their operands. A difference is the sum with the negation, and sum and difference both have the summed widths. |
| FloatInterval.NegMirrors | interval.py:45-49 | `-I` holds `x` exactly when `I` holds `-x`, and negating twice gives back `I`. |
| FloatInterval.IsInIsSubset | interval.py:28-29 | `isIn` makes every point of the first interval a point of the second. When it fails for an interval in order, one of that interval's ends lies outside the second. |
| FloatInterval.IsNoIntersecIsDisjoint | interval.py:31-37 | For two intervals in order, `isNoIntersec` holds exactly when no point lies in both: when it fails, the larger lower end lies in both. It also holds exactly when `intersec` gives a reversed interval. |
| FloatInterval.MulEncloses | interval.py:91-95 | The product of points of the operands lies in the product. |
| FloatInterval.MulCorners | interval.py:91-95 | The product's ends are the least and the greatest corner product. |
| FloatInterval.PowEncloses | interval.py:73-89 | A natural power encloses the powers of the points. |
| FloatInterval.DivBoundedForm | interval.py:103-107 | Dividing by a divisor away from 0 gives the hull of the four corner quotients. |
| FloatInterval.DivBoundedEncloses | interval.py:103-107 | Dividing by a divisor away from 0 encloses the quotients of the points. |
| FloatInterval.DivLeftZeroForm | interval.py:114-115 | A divisor `[0, b2]` multiplies by the ray `[1/b2, inf]`. |
| FloatInterval.DivRightZeroForm | interval.py:112-113 | A divisor `[b1, 0]` multiplies by the ray `[-inf, 1/b1]`. |
| FloatInterval.TimesRayEncloses | interval.py:112-115 | A one-signed dividend times a ray encloses every quotient by a divisor point between 0 and the ray's end. |
| FloatInterval.UpperRayEncloses | interval.py:114-115 | The finite end of the product with `[1/e, inf]` bounds the quotients on the correct side. |
| FloatInterval.LowerRayEncloses | interval.py:112-113 | The finite end of the product with `[-inf, 1/e]` bounds the quotients on the correct side. |
| FloatInterval.DivRayEncloses | interval.py:108-137 | A divisor with a zero end gives rays that contain every quotient of points. |
| FloatInterval.DivEncloses | interval.py:97-137 | Every quotient of points, with a non-zero divisor point, lies in the set that division describes. A quotient the model marks `Undetermined` (a zero end times an infinite one, NaN in IEEE arithmetic) or `DivisionByZero` counts as enclosing, since the source's result there is not a set of numbers. |
| FloatInterval.Interval.constructor | interval.py:7-8 | The interval keeps a copy of the caller's end list. |
| FloatInterval.Interval.SetItem | interval.py:42-43 | `interval[k] = v` overwrites exactly entry `k`. |
| FloatInterval.Interval.Scale | interval.py:22-26 | Scaling keeps the centre and multiplies the width by the factor. |
| IaMathFun.Trunc | ia_math_fun.py:25 | Python's `int()` truncates toward zero. The result is the integer just below a non-negative number, and just above a negative one. |
| IaMathFun.ProductUpTo | ia_math_fun.py:23-26 | The product loop `a = a * i` for `i` in `2..k` computes the factorial of `k`, or 1 for `k < 2`. |
| IaMathFun.Factorial | ia_math_fun.py:11-31 | The result's ends are the factorials of the truncated ends of `n`. |
| IaMathFun.FactAtLeastOne | ia_math_fun.py:23-26 | Every factorial is at least 1, and it is exactly 1 below 2. |
| IaMathFun.FactMonotone | ia_math_fun.py:23-30 | The product grows with its bound. |
| IaMathFun.FactorialProper | ia_math_fun.py:11-31 | For an interval in order, the result is in order. |
| IaMathFun.FactorialEncloses | ia_math_fun.py:11-31 | The factorial of every whole number in `n` lies in the result. |
| IaMathFun.TaylorTerms.constructor | ia_math_fun.py:39 | The term counts start at 5 for exp and log, and 9 for sin and cos. |
| IaMathFun.TaylorTerms.SetExp | ia_math_fun.py:57-75 | Returns the previous exp count and sets the new one. The other counts are unchanged. |
| IaMathFun.TaylorTerms.SetLog | ia_math_fun.py:219-236 | Returns the previous log count and sets the new one. The other counts are unchanged. |
| IaMathFun.TaylorTerms.SetSin | ia_math_fun.py:409-426 | Returns the previous sin count and sets the new one. The other counts are unchanged. |
| IaMathFun.TaylorTerms.SetCos | ia_math_fun.py:523-540 | Returns the previous cos count and sets the new one. The other counts are unchanged. |
| PslBoundsCorrectly.Build | FZCP/psl_bounds_correctly.py:17-51 | Never raises, and keeps `a`, `b` and the mode. The breakpoint enclosure is bounded exactly when the slope bounds differ. Equal bounds divide by the point 0: the breakpoint is the whole line when the numerator holds 0, and `None` otherwise. |
| PslBoundsCorrectly.BuildFrom | FZCP/psl_bounds_correctly.py:43-51 | Stores the given data with the quotient of the breakpoint numerator by `bet - alp`. It is bounded exactly when the slopes differ; for equal slopes it is the whole line or `None`, as the numerator holds 0 or not. |
| PslBoundsCorrectly.Estimator | FZCP/psl_bounds_correctly.py:70-84 | Answers exactly at points outside a bounded breakpoint enclosure. Inside it `max` compares two intervals and raises; with the whole line or `None` as breakpoint every call raises. |
| PslBoundsCorrectly.NEstimator | FZCP/psl_bounds_correctly.py:89-90 | Defined exactly where `estimator` is, with the negated interval. |
| PslBoundsCorrectly.BoundCrossZero | FZCP/psl_bounds_correctly.py:111-130 | Succeeds exactly for `alp < 0 < bet`; the other branches read `.b` of a number and raise. Then it is true exactly when the right line's upper end at the breakpoint is at most 0. |
| PslBoundsCorrectly.RecordAndPoint | FZCP/psl_bounds_correctly.py:132-136 | The end of the interval with the smaller lower `f` value, `a` on a tie. Its value is at most both. |
| PslBoundsCorrectly.EnvelopeBelowAllowedValues | FZCP/psl_bounds_correctly.py:17-28 | The piecewise linear envelope is below every value that the end enclosures and the slope bounds allow. |
| PslBoundsCorrectly.OverIsNegatedUnder | FZCP/psl_bounds_correctly.py:38-42 | The over mode is the under mode on the negated data, with slopes `-bet` and `-alp`. |
| PslBoundsCorrectly.NumeratorForm | FZCP/psl_bounds_correctly.py:50 | The numerator of the breakpoint is `[fa.lo - fb.hi + bet*b - alp*a, fa.hi - fb.lo + bet*b - alp*a]`. |
| PslBoundsCorrectly.BreakpointEnclosesCrossings | FZCP/psl_bounds_correctly.py:50-51 | For any end values in their enclosures, the crossing of the two lines lies in the breakpoint enclosure. |
| PslBoundsCorrectly.LinesCross | FZCP/psl_bounds_correctly.py:50-51 | The breakpoint formula is where the left and the right line meet. |
| PslBoundsCorrectly.BuildForm | FZCP/psl_bounds_correctly.py:50-51 | For proper enclosures and `alp < bet`, the breakpoint enclosure has the closed form `BreakpointForm`. |
| PslBoundsCorrectly.BreakpointFormBuilt | FZCP/psl_bounds_correctly.py:50-51 | The closed form satisfies the invariant `Built` of a constructed estimator. |
| PslBoundsCorrectly.BuildIsBuilt | FZCP/psl_bounds_correctly.py:17-51 | Every estimator the constructor builds from proper data satisfies `Built`. |
| PslBoundsCorrectly.EstimatorL1Form | FZCP/psl_bounds_correctly.py:60-63 | The left line is `[fa.lo + alp*(x - a), fa.hi + alp*(x - a)]`. |
| PslBoundsCorrectly.EstimatorL2Form | FZCP/psl_bounds_correctly.py:65-68 | The right line is `[fb.lo + bet*(x - b), fb.hi + bet*(x - b)]`. |
| PslBoundsCorrectly.LinesOrder | FZCP/psl_bounds_correctly.py:78-83 | Left of the crossing the left line is the larger, and right of it the right line is. |
| PslBoundsCorrectly.EstimatorIsEnvelope | FZCP/psl_bounds_correctly.py:70-84 | Where `estimator` is defined, its lower end is the envelope. |
| PslBoundsCorrectly.WholeLineBreakpoint | FZCP/psl_bounds_correctly.py:138-172 | With the whole line as breakpoint, `estimator` raises everywhere. For `alp < 0`, `get_left_end` goes on to the right line: its zero when `bet < 0` and that zero is at most `b`, otherwise None. For `bet > 0`, the right end under the bound is the zero of the left line. |
| PslBoundsCorrectly.MissingBreakpoint | FZCP/psl_bounds_correctly.py:138-148 | With no breakpoint (`None`), `estimator` raises, and `get_left_end` answers None for `alp >= 0` and raises otherwise, where it reads the missing breakpoint. |
| PslBoundsCorrectly.LinearObjective | FZCP/psl_bounds_correctly.py:43-51 | A linear objective with slope `k > 0` and its exact slope enclosure `[k, k]` has the whole line as breakpoint, and the right end under the bound is the objective's zero. |
| PslBoundsCorrectly.CounterexampleBuild | FZCP/psl_bounds_correctly.py:50-51 | On `a=0`, `b=2`, `alp=-1`, `bet=1`, `fa=[0,1]`, `fb=0`, the breakpoint enclosure is `[1, 1.5]`. |
| PslBoundsCorrectly.LowerBoundAndPointMissesMinimum | FZCP/psl_bounds_correctly.py:104-106 | As written, the bound at `c.hi` is -0.5 on that estimator, but the envelope reaches -1 at `x = 1`. The corrected bound is -1. |
| PslBoundsCorrectly.CorrectedValue | FZCP/psl_bounds_correctly.py:92-109 | The corrected bound is `fa` for `alp >= 0` and `fb` for `bet <= 0`; otherwise it is the right line's lower end at `c.lo`, negated in the over mode. |
| PslBoundsCorrectly.CorrectedLowerBound | FZCP/psl_bounds_correctly.py:92-109 | The corrected bound is at most the envelope at every point of `[a, b]`, in the estimator's orientation. |
| PslBoundsCorrectly.MiddleCaseBound | FZCP/psl_bounds_correctly.py:104-106 | For `alp < 0 < bet`, the right line's lower end at `c.lo` is below the envelope everywhere. |
| PslBoundsCorrectly.LineZero | FZCP/psl_bounds_correctly.py:141 | The point where the line through `(e, v)` with slope `s` is zero. |
| PslBoundsCorrectly.LineRootForm | FZCP/psl_bounds_correctly.py:141 | `e - F/s` for a non-zero slope is the interval between the zeros of the lines through the ends of `F`. |
| PslBoundsCorrectly.LineRootFlat | FZCP/psl_bounds_correctly.py:141 | A zero slope gives everything when `F` contains 0, and raises otherwise. |
| PslBoundsCorrectly.GetLeftEndForm | FZCP/psl_bounds_correctly.py:138-149 | None for `alp >= 0`. Otherwise the left line's zero when it is at most `c.lo`; otherwise, for `bet < 0`, the right line's zero when it is at most `b`; None in the remaining cases. |
| PslBoundsCorrectly.GetRightEndUnderBoundForm | FZCP/psl_bounds_correctly.py:163-172 | None for `bet < 0`. Otherwise the right line's zero when it is at least `c.hi`; otherwise the left line's upper zero when it is at most `c.hi`; None in the remaining cases. |
| PslBoundsCorrectly.GetRightEndUnderBoundFlat | FZCP/psl_bounds_correctly.py:163-172 | A zero slope `bet` gives `Undefined`. The source returns `+inf` there when the enclosure of `f(b)` contains 0, and raises otherwise. A zero slope `alp`, after a right zero left of `c.hi`, gives None when the enclosure of `f(a)` contains 0 and raises otherwise. |
| PslBoundsCorrectly.GetRightEndUpperBoundForm | FZCP/psl_bounds_correctly.py:151-161 | The left line's zero when `alp > 0` and it is at most `c.hi`. Otherwise the right line's zero when it lies in `[c.lo, b]`. Otherwise `b` when that zero is past `b`, and None when it is before `c.lo`. |
| PslBoundsCorrectly.GetRightEndUpperBoundFlat | FZCP/psl_bounds_correctly.py:151-161 | With `bet = 0`, the result is `b` when the right end's enclosure contains 0, and it raises otherwise. |
| PslBounds.Build | FZCP/psl_bounds.py:11-36 | Succeeds exactly when the slope bounds differ; otherwise the division by `bet - alp` raises. Keeps `a` and `b`. |
| PslBounds.NEstimator | FZCP/psl_bounds.py:56-57 | The negated estimator. |
| PslBounds.RecordAndPoint | FZCP/psl_bounds.py:71-75 | The end of the interval with the smaller value, `a` on a tie. Its value is at most both end values. |
| PslBounds.BuildIsBuilt | FZCP/psl_bounds.py:11-36 | A constructed estimator has `c` where the two lines meet. |
| PslBounds.LinesMeetAtBreakpoint | FZCP/psl_bounds.py:36 | The left and the right line take the same value at `c`. |
| PslBounds.OverIsNegatedUnder | FZCP/psl_bounds.py:25-34 | The over-estimator is the under-estimator of `-f`, with slopes `-bet` and `-alp`. |
| PslBounds.EstimatorIsUpperEnvelope | FZCP/psl_bounds.py:43-54 | For `alp < bet`, the estimator is the larger of the two lines at every point. |
| PslBounds.EstimatorBelowAllowedValues | FZCP/psl_bounds.py:43-54 | The estimator at `x` lies below every value `y` with `y - fa >= alp (x - a)` and `y - fb >= bet (x - b)`. These are the values that `alp <= f' <= bet` allows `f(x)` to take. |
| PslBounds.LowerBoundBelowEstimator | FZCP/psl_bounds.py:59-69 | For `alp < bet`, the bound is at most the estimator everywhere on `[a, b]`. |
| PslBounds.LowerBoundPoint | FZCP/psl_bounds.py:59-69 | The bound's point is `a`, `b` or `c`. For `alp < 0 < bet` it is `c`, with the estimator's value there. |
| Psqe.Delt | psqe.py:30 | `delt` is the width of the middle piece: `delt * (bet - alp)` equals `dfb - dfa - alp*(b - a)`. |
| Psqe.Build | psqe.py:10-33 | Succeeds exactly when `bet != alp` and `delt != 0`, where the two float divisions would raise. Keeps the endpoint data, and the breakpoints satisfy `Joined`. |
| Psqe.FirstPieceFrom | psqe.py:46-47 | The first piece, seen from any point, is the parabola with its value there, its slope `D1` and curvature `alp`. |
| Psqe.SecondPieceFrom | psqe.py:48-49 | The second piece, seen from any point, is the parabola with its slope `D2` and curvature `bet`. |
| Psqe.ThirdPieceFrom | psqe.py:50-51 | The third piece, seen from any point, is the parabola with its slope `D3` and curvature `alp`. |
| Psqe.EndpointsMatch | psqe.py:46-51 | The first piece takes `f(a)` and `f'(a)` at `a`, and the third takes `f(b)` and `f'(b)` at `b`. So does the estimator where those pieces apply. |
| Psqe.SmoothAtC | psqe.py:48-49 | The second piece continues the first at `c` with the same value and slope. |
| Psqe.SlopesMeetAtD | psqe.py:30-33 | For the constructor's breakpoints, the second and third pieces have the same slope at `d`. |
| Psqe.ValuesMeetAtD | psqe.py:30-33 | For the constructor's breakpoints, the second and third pieces have the same value at `d`. |
| Psqe.BuildIsSmooth | psqe.py:10-51 | Every estimator the constructor builds is continuous with a continuous slope at `c` and `d`. |
| Psqe.UnderestimatorBelow | psqe.py:38-51 | The estimator lies below `f` on `[a, b]` when both breakpoints lie in `[a, b]`, under two hypotheses. First, `f` lies above `q1` and `q3`, the parabolas with curvature `alp` through the data at `a` and `b`. Second, on `[c, d]` the gap `f - q2` lies above its chord. These are what `alp <= f'' <= bet` gives. |
| PsqeUnder.NEstimator | psqe_under.py:58-59 | The negated estimator: the two sum to zero at every point. |
| PsqeUnder.RecordAndPoint | psqe_under.py:96-100 | The end of the interval with the smaller `f` value, `a` on a tie. Its value is at most both. |
| PsqeUnder.FindArgmin | psqe_under.py:102-109 | A point exactly when the slope changes sign from non-positive to non-negative. The point is where the linear slope between the two points is zero, and it lies between them. |
| PsqeUnder.DfList | psqe_under.py:61-74 | Four slopes, each the estimator's slope at `a`, `c`, `d` and `b`. |
| PsqeUnder.FirstLowestIsFirstMinimum | psqe_under.py:90-93 | The chosen point is in the list and carries the estimator's value there. That value is at most the estimator at every listed point, and strictly below it at every earlier listed point. |
| PsqeUnder.LowerBoundAndPoint | psqe_under.py:76-94 | The result is the first lowest checked point with its value. On an estimator whose breakpoints are in order, the value is at most the estimator everywhere on `[a, b]`. |
| PsqeUnder.ScanLowest | psqe_under.py:90-93 | The scan loop finds `FirstLowest` of the list. |
| PsqeUnder.OnPieces | psqe_under.py:42-74 | On `[a, c]`, `[c, d]` and `[d, b]`, the estimator and its slope are those of the first, second and third piece. |
| PsqeUnder.CheckListHolds | psqe_under.py:80-88 | The check list holds `a`, `b` and every argmin that `find_argmin` finds between neighbouring breakpoints. |
| PsqeUnder.ArgminsChecked | psqe_under.py:85-88 | Each argmin found on a piece is checked, and the estimator there is that piece's value. |
| PsqeUnder.CandidatesReachMinimum | psqe_under.py:76-94 | On an ordered estimator, every point of `[a, b]` has an estimator value at least that of some checked point. |
| PsqeUnder.ParabRoot | psqe_under.py:122-138 | A root exactly for a non-negative discriminant and a non-zero curvature; a complex square root or a division by zero otherwise. At the root, `k*(x - e) + s` is `-sqrt(disc)` for the left root and `+sqrt(disc)` for the right. |
| PsqeUnder.ParabRootZeroes | psqe_under.py:122-138 | With the piece's own discriminant, the root formula gives a zero of the parabola. |
| PsqeUnder.RootsBracket | psqe_under.py:122-138 | For `k > 0`, every point where the parabola is not above zero lies between its left and its right root. |
| PsqeUnder.FirstRootsZeroQ1 | psqe_under.py:111-112 | Both roots computed from `delta_first` are zeros of the first piece. |
| PsqeUnder.SecondRootsZeroQ2 | psqe_under.py:114-117 | Both roots computed from `delta_second` are zeros of the second piece. |
| PsqeUnder.ThirdRootsZeroQ3 | psqe_under.py:119-120 | Both roots computed from `delta_third` are zeros of the third piece. |
| PsqeUnder.GetLeftEnd | psqe_under.py:140-170 | None exactly when no piece is non-positive at its right end, and no piece is accepted by `under_est_der_le_0` with a real root. |
| PsqeUnder.GetLeftEndIsZero | psqe_under.py:140-170 | Every number returned is a zero of one of the pieces. |
| PsqeUnder.GetLeftEndFindsFirstRoot | psqe_under.py:142-144 | On an ordered estimator with `alp > 0` that is not above 0 at `c`, the result is a zero of the first piece. |
| PsqeUnder.FirstLeftRootIsFirst | psqe_under.py:142-144 | In that case, the left root of the first piece is at or before every point where the estimator is not above 0. |
| PsqeUnder.ThirdRightRootIsLast | psqe_under.py:175-177 | With `alp > 0`, `c <= d` and the third piece not above 0 at `d`, its right root is at or after every point where the estimator is not above 0. |
| PsqeUnder.GetRightEnd2 | psqe_under.py:172-200 | As written: None exactly when no piece qualifies, with the first piece's root taken from `delta_third`. |
| PsqeUnder.GetRightEnd2Corrected | psqe_under.py:172-200 | With `delta_first` for the first piece: None exactly when no piece qualifies. |
| PsqeUnder.GetRightEnd2CorrectedIsZero | psqe_under.py:172-200 | Every number the corrected scan returns is a zero of one of the pieces. |
| PsqeUnder.GetRightEnd2ReturnsNonZero | psqe_under.py:193-195 | On a concrete estimator, the code as written returns 0.25, where no piece vanishes and the estimator is 0.1875. The corrected scan returns None. |
| PsqeBounds.BuildAsWritten | FZCP/psqe_bounds.py:9-45 | As written: keeps `a`, `b` and the mode. The over mode stores the negated data with slopes `-bet` and `-alp`, but computes `delt` and `c` from the raw `alp` and `bet`. |
| PsqeBounds.UnderIsPsqe | FZCP/psqe_bounds.py:24-45 | In the under mode, the estimator is exactly that of psqe.py, and the corrected construction agrees with the code as written. |
| PsqeBounds.OverSlopesMissAtD | FZCP/psqe_bounds.py:41-45 | As written, in the over mode the slopes of the second and third pieces differ at `d` by `(alp + bet)*(b - a)`, so the estimator is not smooth. |
| PsqeBounds.OverSlopesMissExample | FZCP/psqe_bounds.py:41-45 | On `[0, 1]` with `alp = 0`, `bet = 2`, `f(0) = f(1) = 0`, `f'(0) = -1` and `f'(1) = 3`, the over-mode slopes jump by 2 at `d`, while the corrected construction succeeds. |
| PsqeBounds.Build | FZCP/psqe_bounds.py:9-45 | Corrected construction, with the breakpoints from the stored slopes. Keeps the mode, `a` and `b`. The breakpoints satisfy `Joined`, and the over mode stores the negated data. |
| PsqeBounds.OverIsNegatedUnder | FZCP/psqe_bounds.py:31-37 | The corrected over-estimator is the under-estimator of the negated data with slopes `-bet` and `-alp`. |
| PsqeBounds.BuildIsSmooth | FZCP/psqe_bounds.py:9-66 | Every corrected estimator is continuous with a continuous slope at `c` and `d`, in both modes. |
| PsqeBounds.Estimator | FZCP/psqe_bounds.py:52-66 | The first piece left of `c`, the second on `[c, d)`, and the third from `d` on. |
| PsqeBounds.NEstimator | FZCP/psqe_bounds.py:68-69 | The negated estimator: the two sum to zero. |
| PsqeBounds.EstimatorsDerivative | FZCP/psqe_bounds.py:71-84 | The slope of the piece that applies at each point. |
| PsqeBounds.LowerBound | FZCP/psqe_bounds.py:86-108 | The point is a checked point. In the under mode the bound is at most the estimator at every checked point; in the over mode it is at least the negated estimator there. |
| PsqeBounds.LowerBoundAndPoint | FZCP/psqe_bounds.py:86-108 | The loop computes `LowerBound`: a checked point with the estimator's value there, negated in the over mode. On an ordered estimator, it bounds the estimator on all of `[a, b]`. |
| PsqeBounds.RecordAndPoint | FZCP/psqe_bounds.py:110-114 | The end of the interval with the smaller value, `a` on a tie. Its value is at most both. |
| PsqeBoundsCorrectly.Build | FZCP/psqe_bounds_correctly.py:11-68 | The mode is applied to the data. Under mode keeps it; over mode stores slopes `-bet` and `-alp` and negated enclosures. A built estimator with bounded breakpoints always has `alp != bet`. |
| PsqeBoundsCorrectly.BuildFrom | FZCP/psqe_bounds_correctly.py:50-68 | The breakpoints `C` and `D` computed from the data as given, which it keeps unchanged; bounded breakpoints need `alp != bet`. The constructor raises exactly when one of the three quotients is `None` or a pair of rays, which `+` cannot add. Otherwise a quotient that is a ray or the whole line leaves `c` or `d` unbounded. The result records whether `c` reaches minus infinity, which holds exactly when a term of `c` does. |
| PsqeBoundsCorrectly.UnboundedIsNotNormal | FZCP/psqe_bounds_correctly.py:59-90 | When the construction leaves `c` or `d` unbounded, a term of `c` reaches minus infinity or a term of `c` or `delt` reaches plus infinity, so `normal_cd` is false. |
| PsqeBoundsCorrectly.OverIsNegatedUnder | FZCP/psqe_bounds_correctly.py:38-48 | The over mode is the under mode on the negated enclosures with slopes `-bet` and `-alp`: the same outcome (bounded, unbounded or raising), and the same estimator except for the mode flag. |
| PsqeBoundsCorrectly.BuildFromEncloses | FZCP/psqe_bounds_correctly.py:50-68 | When the interval estimator exists, every choice of numbers inside the enclosures gives a point estimator with no division by zero. Its breakpoints lie in `C` and `D`. |
| PsqeBoundsCorrectly.BuildEncloses | FZCP/psqe_bounds_correctly.py:11-68 | In either mode, the interval estimator encloses the corrected float estimator built from any numbers inside the enclosures. |
| PsqeBoundsCorrectly.UnderEncloses | FZCP/psqe_bounds_correctly.py:27-37 | Under mode: the float estimator exists and is enclosed. |
| PsqeBoundsCorrectly.OverEncloses | FZCP/psqe_bounds_correctly.py:38-48 | Over mode: the float estimator of the negated data exists and is enclosed. |
| PsqeBoundsCorrectly.Estimator | FZCP/psqe_bounds_correctly.py:106-125 | Answers exactly for `x <= c.a`, with the first piece. Past `c.a` the source compares a number with the interval `ival_d` and raises. |
| PsqeBoundsCorrectly.NEstimator | FZCP/psqe_bounds_correctly.py:130-131 | Answers exactly where `estimator` does, with the negated interval. |
| PsqeBoundsCorrectly.EstimatorEncloses | FZCP/psqe_bounds_correctly.py:106-131 | Where `estimator` answers, it encloses the first piece of every enclosed point estimator, and that estimator's value left of `c.a`. `nestimator` encloses the negated value. |
| PsqeBoundsCorrectly.RecordAndPoint | FZCP/psqe_bounds_correctly.py:198-202 | The end with the smaller stored value `fa` or `fb`, `a` on a tie; the value is at most both. In over mode `fa` is minus the lower end of the caller's enclosure. |
| PsqeBoundsCorrectly.RecordBelowPointRecord | FZCP/psqe_bounds_correctly.py:198-202 | In under mode the record is at most the record of every enclosed point estimator. |
| PsqeBoundsCorrectly.RightEndUnderWithinB | FZCP/psqe_bounds_correctly.py:430-480 | When `c` stays left of `b`, the right end under the bound is at most `b`. |
| PsqeBoundsCorrectly.FirstPieceEncloses | FZCP/psqe_bounds_correctly.py:91-93 | `estimator_q1` on `X` encloses the first piece at every point of `X`. |
| PsqeBoundsCorrectly.SecondPieceEncloses | FZCP/psqe_bounds_correctly.py:95-100 | `estimator_q2` on `X` encloses the middle piece at every point of `X`. |
| PsqeBoundsCorrectly.ThirdPieceEncloses | FZCP/psqe_bounds_correctly.py:102-104 | `estimator_q3` on `X` encloses the third piece at every point of `X`. |
| PsqeBoundsCorrectly.FirstSlopeEncloses | FZCP/psqe_bounds_correctly.py:133-134 | `estd_q1` encloses the slope of the first piece. |
| PsqeBoundsCorrectly.SecondSlopeEncloses | FZCP/psqe_bounds_correctly.py:136-137 | `estd_q2` encloses the slope of the middle piece. |
| PsqeBoundsCorrectly.ThirdSlopeEncloses | FZCP/psqe_bounds_correctly.py:139-140 | `estd_q3` encloses the slope of the third piece. |
| PsqeBoundsCorrectly.EstimatorsDerivative | FZCP/psqe_bounds_correctly.py:142-157 | The piece is chosen by the upper end of `X`: the first piece before `C`, the second before `D`, the third after. |
| PsqeBoundsCorrectly.DerivativeEncloses | FZCP/psqe_bounds_correctly.py:142-157 | `estimators_derivative` on `X` encloses the slope of every enclosed estimator at every point of `X`. |
| PsqeBoundsCorrectly.DeltaFirstEncloses | FZCP/psqe_bounds_correctly.py:289-290 | `delta_first` encloses the discriminant of the first piece. |
| PsqeBoundsCorrectly.DeltaSecondEncloses | FZCP/psqe_bounds_correctly.py:292-296 | `delta_second` encloses the discriminant of the middle piece. |
| PsqeBoundsCorrectly.DeltaThirdEncloses | FZCP/psqe_bounds_correctly.py:298-299 | `delta_third` encloses the discriminant of the third piece. |
| PsqeBoundsCorrectly.ClampLow | FZCP/psqe_bounds_correctly.py:328 | Setting a negative lower end to zero keeps the upper end, leaves the lower end non-negative, and changes nothing when it is already non-negative. |
| PsqeBoundsCorrectly.RootOf | FZCP/psqe_bounds_correctly.py:301-317 | The decimal root formula raises only where a discriminant end is negative or the curvature is zero. |
| PsqeBoundsCorrectly.RootOfEncloses | FZCP/psqe_bounds_correctly.py:301-317 | With a non-negative discriminant enclosed in `D` and a non-zero curvature, the interval root is finite and encloses the point root. |
| PsqeBoundsCorrectly.FirstRootEncloses | FZCP/psqe_bounds_correctly.py:301-302 | `root_first_left` and `root_first_right` enclose the corresponding roots of the first piece. |
| PsqeBoundsCorrectly.ThirdRootEncloses | FZCP/psqe_bounds_correctly.py:307-308 | `root_third_left` and `root_third_right` enclose the corresponding roots of the third piece. |
| PsqeBoundsCorrectly.LiftLow | FZCP/psqe_bounds_correctly.py:328-333 | Takes the lower end of the root and raises it to the floor when below. The answer is never below the floor. Where the source asserts a ceiling, the answer is at most the ceiling or equals the floor; a failing assert gives `Undefined`. |
| PsqeBoundsCorrectly.CutHigh | FZCP/psqe_bounds_correctly.py:383-390 | Takes the upper end of the root and cuts it to the ceiling when above. The answer is never above the ceiling and is below the floor only when it equals the ceiling; a failing `assert floor <= res` gives `Undefined`. |
| PsqeBoundsCorrectly.Accept | FZCP/psqe_bounds_correctly.py:335-339 | A root end is returned only when it lies in `[lo, hi]`. A crash of the decimal root is the only source of `Undefined`. |
| PsqeBoundsCorrectly.GetLeftEndBelowFirstRoot | FZCP/psqe_bounds_correctly.py:319-333 | When the first piece is not above zero at `C`, `get_left_end` answers, at most at the left root of the first piece of every enclosed estimator, or at `a`. |
| PsqeBoundsCorrectly.GetLeftEndSound | FZCP/psqe_bounds_correctly.py:319-333 | Soundness: with `alp > 0` and the first piece not above zero at `c`, the answer is at most every point of `[a, b]` where the estimator is at or below zero. |
| PsqeBoundsCorrectly.GetRightEndUnderBoundAboveThirdRoot | FZCP/psqe_bounds_correctly.py:430-448 | When the third piece is not above zero at `D`, `get_right_end_under_bound` answers at least at the right root of the third piece, or at `b`. |
| PsqeBoundsCorrectly.GetRightEndUnderBoundSound | FZCP/psqe_bounds_correctly.py:430-448 | Soundness: with `alp > 0` and the third piece not above zero at `d`, the answer is at least every point of `[a, b]` where the estimator is at or below zero. |
| PsqeBoundsCorrectly.GetRightEndUpperBoundAboveFirstRoot | FZCP/psqe_bounds_correctly.py:377-390 | When the first piece is not below zero at `C`, `get_right_end_upper_bound` answers at least at the right root of the first piece, or at `C`'s upper end. |
| ProcessorCorrectly.Symmetric | FZCP/processor_correctly.py:69-71 | `[-L, L]` with `L = max(-lo, hi)`: symmetric about zero, containing `X`, and the smallest such interval. |
| ProcessorCorrectly.Enclosure | FZCP/processor_correctly.py:62-76 | The enclosure of `f'` (linear estimator) or `f''` (quadratic estimator) on the subinterval, made symmetric when requested, and otherwise unchanged. |
| ProcessorCorrectly.Refresh | FZCP/processor_correctly.py:114-124 | Keeps the subinterval and the flag, and keeps the counter within its period. Fails exactly where the adaptive period would divide by the square root of a zero width. |
| ProcessorCorrectly.ComputeBounds | FZCP/processor_correctly.py:78-91 | The linear estimator for kind 1, which always exists, and the quadratic one for kind 2, over the subinterval's ends in the requested mode. Only kind 2 can raise, when the quadratic construction adds an unaddable quotient. An unbounded quadratic estimator keeps the subinterval's right end. |
| ProcessorCorrectly.Demote | FZCP/processor_correctly.py:125-133 | The kind stays or falls back to linear, and the subinterval and counters are kept. A linear result clears the quadratic flag, and the returned estimator's kind matches. The returned estimator always passes `normal_cd`, and a linear processor never raises here. |
| ProcessorCorrectly.Reduce | FZCP/processor_correctly.py:137-161 | Reduction level 0 keeps `[a, b]` and the record. Level 1 keeps the record or moves it to the new right end, which is at most `b`. Other levels raise. |
| ProcessorCorrectly.UnboundedUpperKeepsB | FZCP/processor_correctly.py:150-155 | At the record, with an unbounded quadratic upper estimator whose `c` reaches minus infinity, level 1 keeps the right end `b` and moves the record there. This is because `get_right_end_upper_bound` answers `b` when `c.a < a`. |
| ProcessorCorrectly.Split | FZCP/processor_correctly.py:162-188 | Below `eps` the narrowed interval is a result and no child is returned. Otherwise it is bisected into the right half and then the left half, or kept whole. The record moves to the midpoint only when the right half is dropped. A zero-width subinterval with a wide narrowed interval raises. |
| ProcessorCorrectly.Narrow | FZCP/processor_correctly.py:134-188 | After the lower estimator: results are only appended, at most one of them, and only when there are no children. At most two children, the last being the processed data. |
| ProcessorCorrectly.StepKeeps | FZCP/processor_correctly.py:93-189 | One `fzcp_process` step: the kind only falls back to linear, running never restarts, results are only appended, at most two children with the data last, a linear subproblem stays linear, and a counter within its period stays within it. |
| ProcessorCorrectly.LinearStaysLinear | FZCP/processor_correctly.py:125-133 | Once linear, the processor stays linear. |
| ProcessorCorrectly.RecordNeverIncreases | FZCP/processor_correctly.py:143-175 | On a proper subinterval whose under-bound right end stays within `b`, the record point never increases. |
| ProcessorCorrectly.SplitHalves | FZCP/processor_correctly.py:172-184 | Two children are the halves of the narrowed interval, right half first. They meet at the midpoint, which lies strictly inside, and have equal widths. |
| ProcessorCorrectly.ProcData.constructor | FZCP/processor_correctly.py:17-28 | The new subproblem holds the given interval, enclosure, flag, counter and period. |
| ProcessorCorrectly.ProcessorNew.constructor | FZCP/processor_correctly.py:33-60 | Empty results, the given record point and estimator, running. `signB` is whether `f(b)` may be positive. |
| ProcessorCorrectly.ProcessorNew.UpdateLipschitz | FZCP/processor_correctly.py:62-76 | Replaces only the enclosure of the data by `Enclosure` for the current estimator kind. |
| ProcessorCorrectly.ProcessorNew.RefreshLipschitz | FZCP/processor_correctly.py:114-124 | The in-place refresh agrees with `Refresh`, and fails exactly where the source raises. |
| ProcessorCorrectly.ProcessorNew.LowerEstimator | FZCP/processor_correctly.py:125-133 | The in-place demotion agrees with `Demote` on the estimator kind, the data and the lower estimator, and raises exactly where it does. |
| ProcessorCorrectly.ProcessorNew.NarrowedEnds | FZCP/processor_correctly.py:137-161 | The ends and the new record point agree with `Reduce`. |
| ProcessorCorrectly.ProcessorNew.Divide | FZCP/processor_correctly.py:162-188 | The results, the record, the data and the returned subproblems agree with `Split`. Each returned subproblem is the data itself or new. |
| ProcessorCorrectly.ProcessorNew.FzcpProcess | FZCP/processor_correctly.py:93-189 | The new state, data and children agree with `Step`. A subinterval right of the record is dropped with nothing changed. One within `eps` of the record ends the run with `[a, rec_x]` appended. |
| ProcessorNewFloat.Enclosure | FZCP/processor_new.py:60-74 | The enclosure of `f'` (kind 1) or `f''` on the subinterval. It is made symmetric when requested and otherwise left unchanged. |
| ProcessorNewFloat.Refresh | FZCP/processor_new.py:103-110 | Keeps the subinterval. A counter below the processor's period is counted up; otherwise the enclosure is refreshed, the period recomputed and the counter reset. The counter stays within the period and is reset whenever the period changes. |
| ProcessorNewFloat.Reduce | FZCP/processor_new.py:114-139 | Level 0 keeps `[a, b]` and the record. Level 1 starts at the left end and keeps the record or moves it to the new right end, which is at most `b`. Other levels raise. |
| ProcessorNewFloat.Split | FZCP/processor_new.py:131-163 | Below `eps` the interval is a result: certain at the record, where the run stops, and uncertain otherwise. Wider intervals are bisected (right half first) or kept whole. The record moves to the midpoint only when the right half is dropped. A zero-width subinterval with a wide narrowed interval raises. |
| ProcessorNewFloat.Narrow | FZCP/processor_new.py:111-163 | At most one result is appended, and only when there are no children. At most two children, the data last. No left end means nothing changes. |
| ProcessorNewFloat.StepKeeps | FZCP/processor_new.py:87-164 | One `fzcp_process` step: running never restarts, results are only appended, at most two children with the data last, and counters stay within the period. |
| ProcessorNewFloat.RecordNeverIncreases | FZCP/processor_new.py:121-152 | With estimators whose ends lie in their interval, the record point never increases. |
| ProcessorNewFloat.ChildrenInside | FZCP/processor_new.py:140-163 | With such estimators, every child lies inside the subinterval. Two children are its halves, right first, meeting at the midpoint. |
| ProcessorNewFloat.ProcData.constructor | FZCP/processor_new.py:19-28 | The subproblem holds the given interval, enclosure and counter. |
| ProcessorNewFloat.ProcessorNew.constructor | FZCP/processor_new.py:33-58 | Empty results, the given record point and period, running, and the given settings. |
| ProcessorNewFloat.ProcessorNew.UpdateLipschitz | FZCP/processor_new.py:60-74 | Replaces only the data's enclosure, by `Enclosure`. |
| ProcessorNewFloat.ProcessorNew.RefreshLipschitz | FZCP/processor_new.py:103-110 | The in-place refresh of the counter, the enclosure and the processor's period agrees with `Refresh`. |
| ProcessorNewFloat.ProcessorNew.NarrowedEnds | FZCP/processor_new.py:114-139 | The ends and the new record agree with `Reduce`. |
| ProcessorNewFloat.ProcessorNew.Divide | FZCP/processor_new.py:131-163 | The results, the record, the running flag, the data and the returned subproblems agree with `Split`. Each returned subproblem is the data itself or new. |
| ProcessorNewFloat.ProcessorNew.FzcpProcess | FZCP/processor_new.py:87-164 | The new state, data and children agree with `Step`. A subinterval right of the record changes nothing. One within `eps` of the record ends the run with a certain result. |
| ProcessorReductionFloat.Enclosure | processor_reduction.py:55-69 | The enclosure of `f'` (kind 1) or `f''` on the subinterval. It is made symmetric when requested and otherwise left unchanged. |
| ProcessorReductionFloat.Refresh | processor_reduction.py:130-140 | Keeps the subinterval and keeps the counter within its period. Without adaptivity it always refreshes the enclosure. Fails exactly where the adaptive period would divide by the square root of a zero width. |
| ProcessorReductionFloat.DerivativeQuery | processor_reduction.py:94-103 | The linear estimator of `f'` on the subinterval, with bounds `[alp, bet]` on `f''`. When `f'(a) < 0` it is built on the negated derivative and the negated, swapped bounds, so the value at `a` is never negative. |
| ProcessorReductionFloat.Reduction2AsWritten | processor_reduction.py:84-117 | As written (the truthiness test `if left_end:`): the subproblem is discarded when no left end exists, and also when the left end is exactly `0`. |
| ProcessorReductionFloat.Reduction2 | processor_reduction.py:84-117 | Corrected: the linear kind discards when the enclosure excludes zero. The quadratic kind discards exactly when no left end exists, and otherwise narrows the subinterval to start at the left end. |
| ProcessorReductionFloat.Reduction2Rule | processor_reduction.py:84-117 | The linear kind discards exactly when the enclosure excludes 0. The quadratic kind discards exactly when there is no left end, or, with the as-written test, when it is 0; otherwise it narrows to `[left end, right end]`. Discarding leaves the data unchanged. |
| ProcessorReductionFloat.Reduction2DropsZeroEnd | processor_reduction.py:105 | A concrete input where the left end is `0`: the code as written discards the subproblem, while the corrected rule narrows it to `[0, 0.5]`. |
| ProcessorReductionFloat.EstimatorQuery | processor_reduction.py:71-82 | The lower estimator on the subinterval, with curvature or slope bounds from the enclosure, and end values shifted by the record value. |
| ProcessorReductionFloat.Branch | processor_reduction.py:146-177 | A lower bound above `-eps` discards the subproblem. The record value only decreases: a change takes the split point and `f` there. Two children meet at the split point; without reduction they are `[split, b]` and `[a, split]`. A missing end or a zero width raises. |
| ProcessorReductionFloat.Prepare | processor_reduction.py:130-145 | Only reduction level 2 can discard, with the test on the left end that the settings choose. Other levels keep the subinterval. The counter, period and enclosure are those of `Refresh`. |
| ProcessorReductionFloat.RecordNeverIncreases | processor_reduction.py:150-153 | Over a whole step the record value never increases. A changed record is strictly smaller and is `f` at the new record point. |
| ProcessorReductionFloat.ChildrenInside | processor_reduction.py:155-177 | With estimators whose answers lie in their interval, every child lies inside the subinterval, and counters stay within their period. |
| ProcessorReductionFloat.ProcData.constructor | processor_reduction.py:14-24 | The subproblem holds the given interval, enclosure, counter and period. |
| ProcessorReductionFloat.ProcessorReduction.constructor | processor_reduction.py:29-53 | The given record and settings, running, with `reduction2` testing the left end as written. |
| ProcessorReductionFloat.ProcessorReduction.UpdateLipschitz | processor_reduction.py:55-69 | Replaces only the data's enclosure, by `Enclosure`. |
| ProcessorReductionFloat.ProcessorReduction.RefreshLipschitz | processor_reduction.py:130-140 | The in-place refresh agrees with `Refresh`. |
| ProcessorReductionFloat.ProcessorReduction.Reduction2Step | processor_reduction.py:84-117 | The in-place `reduction2` agrees with `Reduction2AsWritten`, on the verdict and on the narrowed data: a left end at exactly 0 discards the subproblem. |
| ProcessorReductionFloat.ProcessorReduction.PrepareData | processor_reduction.py:130-145 | Agrees with `Prepare` under the processor's settings, which test the left end as written. |
| ProcessorReductionFloat.ProcessorReduction.Divide | processor_reduction.py:146-177 | The record and the children agree with `Branch`. Each returned subproblem is the data itself or new. |
| ProcessorReductionFloat.ProcessorReduction.FzcpProcess | processor_reduction.py:119-178 | The new record, data and children agree with `Step` under the processor's settings, with `reduction2` as written. The record value never increases. |
| PsqeProcessorFzcp.Enclosure | FZCP/psqeprocessor_fzcp.py:55-61 | The global enclosure of `f''` or the one over the interval. The symmetric option gives `[-L, L]` around the global enclosure, whichever was chosen. |
| PsqeProcessorFzcp.Estimator | FZCP/psqeprocessor_fzcp.py:50-63 | The quadratic estimator on the interval in the requested mode, built by the constructor of module `PsqeBounds` as written or by the corrected one. The two agree on the under-estimator. |
| PsqeProcessorFzcp.SplitPoint | FZCP/psqeprocessor_fzcp.py:69-77 | The split point lies between a third and two thirds of the interval, and is `lo + beta * width` when `beta` is in `[0.33, 0.66)`. |
| PsqeProcessorFzcp.SplitAndBounds | FZCP/psqeprocessor_fzcp.py:65-77 | `bound[0]` is the under-estimator's minimum, `bound[1]` the value reported for the over-estimator. The split point lies in the interval. Fails exactly when an estimator fails or the two bounds are equal, which makes `widthF` zero. |
| PsqeProcessorFzcp.BoundsEncloseEstimators | FZCP/psqeprocessor_fzcp.py:65-68 | `bound[0]` is at most the under-estimator at every checked point, and `bound[1]` is at least the over-estimator there. |
| PsqeProcessorFzcp.Expand | FZCP/psqeprocessor_fzcp.py:90-100 | The left half is always returned, last. The right half is returned first unless the left half's right end has `f <= 0` left of the record, in which case the record moves there. |
| PsqeProcessorFzcp.Step | FZCP/psqeprocessor_fzcp.py:79-101 | A subproblem whose bounds do not straddle 0, or that starts at or after the record, is dropped. A narrow one with `f(b) <= 0` appends its split point. Otherwise it is expanded, and the record only moves left to a point where `f <= 0`. |
| PsqeProcessorFzcp.IntervalUpdate | FZCP/psqeprocessor_fzcp.py:103-117 | Recomputes both bounds. When they straddle 0 the interval starts at the under-estimator's trial point and ends at the over-estimator's trial point, if that is smaller. Fails when an estimator fails. |
| PsqeProcessorFzcp.RecordMovesLeft | FZCP/psqeprocessor_fzcp.py:93-94 | The record point never moves right, and `f <= 0` at any record it sets. |
| PsqeProcessorFzcp.ChildrenCover | FZCP/psqeprocessor_fzcp.py:90-100 | Every child lies inside the parent interval and carries a split point within itself. |
| PsqeProcessorFzcp.PsqeProcessorFzcp.constructor | FZCP/psqeprocessor_fzcp.py:30-48 | No results, the given record and settings, and `ddi` the enclosure over `[a, b]`. The estimators are `Estimator` of those settings with the constructor of module `PsqeBounds` as written. |
| PsqeProcessorFzcp.PsqeProcessorFzcp.UpdateSplitAndBounds | FZCP/psqeprocessor_fzcp.py:65-77 | The in-place update agrees with `SplitAndBounds`. |
| PsqeProcessorFzcp.PsqeProcessorFzcp.NewChild | FZCP/psqeprocessor_fzcp.py:90-92 | A new child of the given level and interval, with its bounds and split point from `SplitAndBounds`. |
| PsqeProcessorFzcp.PsqeProcessorFzcp.Divide | FZCP/psqeprocessor_fzcp.py:90-100 | The record and the new children agree with `Expand`. |
| PsqeProcessorFzcp.PsqeProcessorFzcp.FzcpProcess | FZCP/psqeprocessor_fzcp.py:79-101 | The results, the record and the new children agree with `Step`. |
| PsqeProcessorFzcp.PsqeProcessorFzcp.UpdateInterval | FZCP/psqeprocessor_fzcp.py:103-117 | The in-place narrowing agrees with `IntervalUpdate`. |
| PslProcessorFzcp.Enclosure | FZCP/pslprocessor_fzcp.py:51-57 | The global enclosure of `f'` or the one over the interval, widened to `[-L, L]` on request. |
| PslProcessorFzcp.Estimator | FZCP/pslprocessor_fzcp.py:50-59 | The linear estimator on the interval. It exists exactly when the enclosure has positive width, and then its slopes are ordered. |
| PslProcessorFzcp.SplitPoint | FZCP/pslprocessor_fzcp.py:65-73 | The split point lies between a third and two thirds of the interval, and is `lo + beta * width` when `beta` is in `(0.33, 0.66]`. |
| PslProcessorFzcp.SplitAndBounds | FZCP/pslprocessor_fzcp.py:61-73 | The bounds are the under-estimator's minimum and the over-estimator's reported value, and the split point lies in the interval. Fails exactly when the enclosure is degenerate or the bounds are equal. |
| PslProcessorFzcp.BoundsEncloseEstimators | FZCP/pslprocessor_fzcp.py:61-64 | `bound[0]` is at most the under-estimator everywhere. With the corrected reading, `bound[1]` is at least the over-estimator of `f` everywhere. As written it is only a lower bound of the estimator of `-f`. |
| PslProcessorFzcp.Expand | FZCP/pslprocessor_fzcp.py:83-92 | Both halves are returned, the right half first, one level down. The record moves to the split point only when `f <= 0` there. |
| PslProcessorFzcp.Step | FZCP/pslprocessor_fzcp.py:75-93 | A subproblem whose bounds do not straddle 0, or that starts at or after the record, is dropped. A narrow one with `f(b) <= 0` appends its split point. Otherwise it is split in two, and the record only moves left to a point where `f <= 0`. |
| PslProcessorFzcp.RecordMovesLeft | FZCP/pslprocessor_fzcp.py:90-91 | The record point never moves right, and `f <= 0` at any record it sets. |
| PslProcessorFzcp.ChildrenCover | FZCP/pslprocessor_fzcp.py:83-92 | Every child lies inside the parent interval and carries a split point within itself. |
| PslProcessorFzcp.DropsCrossingAsWritten | FZCP/pslprocessor_fzcp.py:63 | As written, for `f(x) = 1 - 3x` on `[0, 1]` with `f'` in `[-4, -2]`, `f` changes sign but `bound[1]` is `-1`, so the root subproblem is dropped with no result. |
| PslProcessorFzcp.CorrectedKeepsCrossing | FZCP/pslprocessor_fzcp.py:63 | With `bound[1]` negated as intended, the same subproblem has bounds `-2` and `1` and is split in two. |
| PslProcessorFzcp.PslProcessorFzcp.constructor | FZCP/pslprocessor_fzcp.py:30-48 | No results, the given record and settings, and `di` the enclosure of `f'` over `[a, b]`. |
| PslProcessorFzcp.PslProcessorFzcp.ComputeBounds | FZCP/pslprocessor_fzcp.py:50-59 | Agrees with `Estimator`. |
| PslProcessorFzcp.PslProcessorFzcp.UpdateSplitAndBounds | FZCP/pslprocessor_fzcp.py:61-73 | The in-place update agrees with `SplitAndBounds`. |
| PslProcessorFzcp.PslProcessorFzcp.NewChild | FZCP/pslprocessor_fzcp.py:83-88 | A new child with its bounds from `SplitAndBounds`. |
| PslProcessorFzcp.PslProcessorFzcp.Divide | FZCP/pslprocessor_fzcp.py:83-92 | The record and the two new children agree with `Expand`. |
| PslProcessorFzcp.PslProcessorFzcp.FzcpProcess | FZCP/pslprocessor_fzcp.py:75-93 | The results, the record and the children agree with `Step`. |
| ProcessorCasado.Offset | FZCP/processor_Casado.py:57-68 | The offset is between a third and two thirds of the width. It is `ratio` of the width in the middle band, a third below it, and above it a third or two thirds depending on which bound `f(b)` lies nearer. |
| ProcessorCasado.SplitPoint | FZCP/processor_Casado.py:52-70 | Equal bounds put the split at the left end (the source's `(ival[0] + ival[0]) / 2`). Otherwise the split lies between a third and two thirds of the interval. |
| ProcessorCasado.SplitAndBounds | FZCP/processor_Casado.py:48-70 | The bounds are the ends of the objective's enclosure over the interval, and the split point is set as above. Level and interval are kept. |
| ProcessorCasado.SplitInside | FZCP/processor_Casado.py:52-70 | The split point of an interval in order lies inside it. |
| ProcessorCasado.ZeroKeepsBounds | FZCP/processor_Casado.py:49-51 | When the enclosure holds `f` on the interval, a subproblem containing a zero of `f` has bounds that straddle 0, so pruning never drops it. |
| ProcessorCasado.Expand | FZCP/processor_Casado.py:82-91 | Raises when no split point was computed. Otherwise both halves are returned, right first, one level down, and the record moves to the split point only when `f <= 0` there. |
| ProcessorCasado.Step | FZCP/processor_Casado.py:72-92 | A subproblem whose bounds do not straddle 0, or that starts at or after the record, is dropped. A narrow one with `f(b) < 0` appends its split point and stops the run. Otherwise both halves are returned. |
| ProcessorCasado.RecordMovesLeft | FZCP/processor_Casado.py:89-90 | The record point only moves left, and a record with `f <= 0` stays one. |
| ProcessorCasado.ChildrenCover | FZCP/processor_Casado.py:82-91 | With an ordered interval and an inside split point, the children split it there, and each child's split point lies inside the child. |
| ProcessorCasado.CasProcessor.constructor | FZCP/processor_Casado.py:29-45 | No results, the given record point, problem and tolerance, running. |
| ProcessorCasado.CasProcessor.UpdateSplitAndBounds | FZCP/processor_Casado.py:48-70 | The in-place update agrees with `SplitAndBounds`. |
| ProcessorCasado.CasProcessor.NewChild | FZCP/processor_Casado.py:82-87 | A new child whose bounds and split point are those of `SplitAndBounds`. |
| ProcessorCasado.CasProcessor.Divide | FZCP/processor_Casado.py:82-91 | The record and the two new children agree with `Expand`. |
| ProcessorCasado.CasProcessor.FzcpProcess | FZCP/processor_Casado.py:72-92 | The results, the record, the running flag and the children agree with `Step`. |
| ProcessorBnbSerg.Update | FZCP/processor_bnb_serg.py:85-96 | The narrowing agrees with `IntervalUpdate`: the same bounds and interval, never past the old right end. When the bounds straddle 0 the split point is the middle of the narrowed interval; otherwise the interval and split point are kept. |
| ProcessorBnbSerg.SplitInside | FZCP/processor_bnb_serg.py:96 | The midpoint split of an ordered interval lies inside it. |
| ProcessorBnbSerg.Expand | FZCP/processor_bnb_serg.py:69-81 | The narrowed left half is returned last, and it ends at or before the split point. The right half comes first unless the left half's right end has `f <= 0` left of the record, in which case the record moves there. |
| ProcessorBnbSerg.Step | FZCP/processor_bnb_serg.py:62-83 | A subproblem whose bounds do not straddle 0, or that starts at or after the record, is dropped. A narrow one with `f(b) <= 0` appends its split point. Otherwise at most two children are returned, one level down. |
| ProcessorBnbSerg.RecordMovesLeft | FZCP/processor_bnb_serg.py:73-74 | The record point only moves left, and a record with `f <= 0` stays one. |
| ProcessorBnbSerg.ProcessorBnbSerg.constructor | FZCP/processor_bnb_serg.py:27-45 | No results, the given record and settings, and `ddi` the enclosure over `[a, b]`. The estimators are those of module `PsqeProcessorFzcp` with the constructor of module `PsqeBounds` as written. |
| ProcessorBnbSerg.ProcessorBnbSerg.UpdateInterval | FZCP/processor_bnb_serg.py:85-96 | The in-place narrowing agrees with `Update`. |
| ProcessorBnbSerg.ProcessorBnbSerg.NewChild | FZCP/processor_bnb_serg.py:69-72 | A new child, narrowed by `Update`. |
| ProcessorBnbSerg.ProcessorBnbSerg.Divide | FZCP/processor_bnb_serg.py:69-81 | The record and the new children agree with `Expand`. |
| ProcessorBnbSerg.ProcessorBnbSerg.FzcpProcess | FZCP/processor_bnb_serg.py:62-83 | The results, the record and the children agree with `Step`. |
| FzcpSub.Subproblem.constructor | sub.py:12-24 | The new subproblem holds the given level, bounds, interval and split point. |
| MinProcess.ComputeBounds | psqeprocessor.py:43-56 | Fails exactly where the estimator cannot be built; otherwise the node takes the estimator's bound and split point and keeps its level and interval. The record becomes the candidate exactly when the candidate's value is strictly below it, and otherwise stays the same. The new record value is at most both the old one and the candidate's. |
| MinProcess.Keep | psqeprocessor.py:74-77 | A child is kept exactly when its bound is below `rec_v - eps`. There are never more kept children than candidates. |
| MinProcess.KeepPair | psqeprocessor.py:74-77 | Filtering two halves tests the first half, then the second, in that order. |
| MinProcess.Split | psqeprocessor.py:70-77 | Raises exactly when bounding either half raises. Otherwise the record never gets worse, at most two children are kept, and each is one level deeper. Each kept child lies on the left or the right half of the split and has its bound below the final `rec_v - eps`. |
| MinProcess.KeepSubs | psqeprocessor.py:74-77 | The kept sub-objects are the two candidates in order, filtered as `Keep` filters their values: the same number, each one of the two candidates, with the value `Keep` keeps at that position. |
| MinProcess.Process | psqeprocessor.py:58-78 | A subproblem whose bound is not below `rec_v - eps` yields no children and leaves the record alone. Otherwise it raises without a split point, or it is split at its split point. The record never gets worse. |
| MinProcess.ProcessAtMid | ivalprocessor.py:29-54 | Succeeds exactly when the bound is below `rec_v - eps` and splitting at the midpoint succeeds, and the result is then that split. A subproblem that is not below raises, because `lst` is unbound at `return lst`. |
| MinProcess.DroppedHalvesHoldNothingBetter | psqeprocessor.py:74-77 | With sound bounds, every point of a dropped half has `f` at least the final record minus `eps`. Pruning loses no better minimum. |
| MinProcess.RecordStaysAttained | psqeprocessor.py:53-56 | With true candidates, a record that holds the value of `f` at its point still does so after `process`, for both the split-point and the midpoint processors. |
| MinProcess.SplitKeepsAttained | psqeprocessor.py:70-73 | Bounding both halves keeps a record that holds the value of `f` at its point. |
| MinProcess.MinSub.constructor | sub.py:1-28 | The subproblem holds exactly the level, bound, interval and split point it is given. |
| PsqeProcessor.Enclosure | psqeprocessor.py:44-50 | Without the symmetric option it is the global or the local enclosure of `f''`, as chosen. With it, the result is symmetric about 0 and contains the chosen enclosure. |
| PsqeProcessor.Bounds | psqeprocessor.py:51-53 | Succeeds exactly when the estimator can be built. The split point is one of the estimator's checked points, and the bound is the estimator's value there and at most its value at every checked point. The candidate is the end of the interval with the smaller `f`, and its value is at most `f` at both ends. |
| PsqeProcessor.BoundBelowEstimator | psqeprocessor.py:51-52 | On an estimator whose breakpoints are in order, the bound is at most the estimator anywhere on the interval. |
| PsqeProcessor.PsqeProcessor.constructor | psqeprocessor.py:24-41 | Stores the record, the problem, the tolerance and the options. Computes the global enclosure `ddi` of `f''` on `[a, b]`. Fixes the estimator that `compute_bounds` uses. |
| PsqeProcessor.PsqeProcessor.ComputeBounds | psqeprocessor.py:43-56 | The record and the subproblem become those of `MinProcess.ComputeBounds`. `ok` is false exactly where the source raises. |
| PsqeProcessor.PsqeProcessor.NewChild | psqeprocessor.py:70-73 | A fresh child on the interval, with bound 0 and no split point, then bounded as `MinProcess.ComputeBounds` says. |
| PsqeProcessor.PsqeProcessor.Divide | psqeprocessor.py:70-77 | The new record and the fresh kept children are exactly those of `MinProcess.Split` at the given point. |
| PsqeProcessor.PsqeProcessor.Process | psqeprocessor.py:58-78 | The new record and the fresh children are exactly those of `MinProcess.Process`, and `ok` is false exactly where that raises. |
| PslProcessor.Enclosure | pslprocessor.py:44-50 | Without the symmetric option it is the global or the local enclosure of `f'`, as chosen. With it, the result is symmetric about 0 and contains the chosen enclosure. |
| PslProcessor.PslProcessor.constructor | pslprocessor.py:24-41 | Stores the record, the problem, the tolerance and the options. Computes the global enclosure `di` of `f'` on `[a, b]`. Fixes the estimator as the under-estimator on the enclosure of `f'`. |
| PslProcessor.PslProcessor.ComputeBounds | pslprocessor.py:43-56 | The record and the subproblem become those of `MinProcess.ComputeBounds`. `ok` is false exactly where the source raises. |
| PslProcessor.PslProcessor.NewChild | pslprocessor.py:70-73 | A fresh child on the interval, then bounded as `MinProcess.ComputeBounds` says. |
| PslProcessor.PslProcessor.Divide | pslprocessor.py:70-77 | The new record and the kept children are exactly those of `MinProcess.Split`. |
| PslProcessor.PslProcessor.Process | pslprocessor.py:58-78 | The new record and the children are exactly those of `MinProcess.Process`. |
| IvalProcessor.Bounds | ivalprocessor.py:21-24 | Never fails and gives no split point. The bound is the lower end of the objective's enclosure over the interval. The candidate is the interval's midpoint, carrying the value of `f` there. |
| IvalProcessor.BoundsSound | ivalprocessor.py:22 | When the objective's interval extension encloses `f`, the bound is at most `f` everywhere on the interval. |
| IvalProcessor.CandidatesTrue | ivalprocessor.py:23-24 | Every candidate carries the value of `f` at its point. |
| IvalProcessor.IntervalProcessor.constructor | ivalprocessor.py:7-19 | Stores the record, the problem and the tolerance. |
| IvalProcessor.IntervalProcessor.ComputeBounds | ivalprocessor.py:21-27 | The record and the subproblem become those of `MinProcess.ComputeBounds`. |
| IvalProcessor.IntervalProcessor.NewChild | ivalprocessor.py:42-46 | A fresh child on the interval, then bounded as `MinProcess.ComputeBounds` says. |
| IvalProcessor.IntervalProcessor.Divide | ivalprocessor.py:42-53 | The new record and the kept children are exactly those of `MinProcess.Split` at the midpoint. |
| IvalProcessor.IntervalProcessor.Process | ivalprocessor.py:29-54 | The new record and the children are exactly those of `MinProcess.ProcessAtMid`, and `ok` is false exactly where the source raises. |
| Bnb.Drive | bnb.py:16-22 | The loop never takes fewer steps than it starts with, and never more than `max_steps + 1`. When it stops, the list is empty or the count has passed `max_steps`. An empty list, or a count already past, stops at once without calling the processor. A raise of the processor is passed on. |
| Bnb.OneStep | bnb.py:18-20 | One turn removes exactly one occurrence of the popped subproblem and adds exactly the processor's children, so the list's size grows by the number of children minus one. |
| Bnb.DrivePreserves | bnb.py:17-21 | Any property of the processor's state and the list that every step keeps holds where the driver stops. |
| Bnb.LeafProcessorDrains | bnb.py:17-21 | A processor that returns no children empties a list of at most `max_steps + 1` subproblems in exactly as many steps as the list has entries. |
| Bnb.WorkList.constructor | bnb.py:14 | The list holds the caller's subproblems and uses the container's own pop order. |
| Bnb.WorkList.Pop | bnb.py:18 | `pop` returns the container's choice and takes one occurrence of it off the list. |
| Bnb.WorkList.Update | bnb.py:20 | `update` adds every child to the list. |
| Bnb.BranchAndBound | bnb.py:14-22 | The step count, the list left in `subs` and the processor's final state are exactly those of `Drive` from step 0. `ok` is false exactly where the processor raises. |
| GridSearch.Grid | gridsearch.py:15 | Fails exactly for a zero step. Point `k` is `a + k*s`. Every point is strictly before `b` in the step's direction, and the next point would not be, so the grid is exactly the points before `b`. |
| GridSearch.GridFacts | gridsearch.py:15 | With `numpy.arange`'s count `ceil((b - a) / s)`, every point lies before `b` and the next one does not. |
| GridSearch.Search | gridsearch.py:3-23 | Raises exactly for a zero step, and gives nothing exactly when the grid is empty. Otherwise the result is a grid point with its value of `f`. That value is at most `f` at every grid point, and strictly below it at every earlier grid point, so a tie keeps the first minimiser. |
| MatrixStats.Ratios | FZCP/test.py:39-48 | Entry `[i][j]` is the ratio of `matrix[i][j]` to the row's entry in the last column of the first row's width. The last column is all ones, and the result keeps the matrix's shape. |
| MatrixStats.SumBetween | FZCP/test.py:74-82 | A column whose entries lie in `[lo, hi]` sums to between `n*lo` and `n*hi`. |
| MatrixStats.SumOfOnes | FZCP/test.py:85-94 | A column of ones sums to the number of rows. |
| MatrixStats.ColumnMax | FZCP/test.py:28-36 | Raises exactly when the matrix is empty or a row is shorter than the first. Otherwise there is one value per column of the first row, each at least every entry of its column and equal to one of them. |
| MatrixStats.ColumnMin | FZCP/test.py:51-59 | Raises exactly when the matrix is empty or a row is shorter than the first. Otherwise there is one value per column, each at most every entry of its column and equal to one of them. |
| MatrixStats.ColumnAvg | FZCP/test.py:74-82 | Raises under the same conditions. Otherwise each value times the number of rows is the column's sum. |
| MatrixStats.AvgBetweenMinAndMax | FZCP/test.py:74-82 | Each column's average lies between any lower and upper bound of its entries, so between its minimum and its maximum. |
| MatrixStats.ColumnMaxRatio | FZCP/test.py:39-48 | Raises exactly when the matrix is empty, a row is short, or a divisor is 0. Otherwise each value is the maximum of the ratios in its column, and the last column's value is 1. |
| MatrixStats.ColumnMinRatio | FZCP/test.py:62-71 | Raises under the same conditions. Otherwise each value is the minimum of the ratios in its column, and the last column's value is 1. |
| MatrixStats.ColumnAvgRatio | FZCP/test.py:85-94 | Raises under the same conditions. Otherwise each value is the average of the ratios in its column, and the last column's value is 1. |

## Left out

- Under- and over-estimation: Dafny has no derivatives. So `Psqe.UnderestimatorBelow`, `PslBounds.EstimatorBelowAllowedValues` and `PslBoundsCorrectly.EnvelopeBelowAllowedValues` take, as hypotheses, the bounds on `f` that the derivative bounds give by Taylor's and the mean value theorem. That step of calculus is not modelled. For the interval builders (`PsqeBoundsCorrectly`, `PslBoundsCorrectly`) the model proves enclosure of a real estimator built from enclosed data. For the minimisation processors, the lower bound that `MinProcess.SoundBounds` asks for is therefore not proved of the PSL and PSQE estimators themselves. It is a hypothesis of `MinProcess.DroppedHalvesHoldNothingBetter`.
- Decimal rounding modes and precision (`interval_arithmetics.py:31-60`, `ia_math_fun.py:24-28`): endpoints are exact reals and enclosure is stated over the reals; the global rounding context has no counterpart.
- Infinite endpoints (`interval_arithmetics.py:10-13`, `interval.py:112-119`): the unbounded results of division are explicit datatype variants (rays, the whole line) rather than values with `inf` in them; a PSL whose two slope bounds coincide keeps that whole-line quotient as its breakpoint, and a PSQE whose construction would need an infinite breakpoint is the `Unbounded` variant, on which the processors fall back to PSL.
- FloatInterval.Pow: only natural exponents are modelled. `__pow__` (`interval.py:73-89`) also accepts negative and fractional exponents, and those results need not enclose. For example, `[1, 2] ** -1` is the inverted interval `[1, 0.5]`, because `-1 % 2` is 1 and the odd branch keeps the ends in place. No claim is made for them.
- The transcendental functions (the Taylor series for exp, log, sin and cos in `ia_math_fun.py:79-610` and the float sin, cos, exp and log of `interval.py:164-224`): floating-point series numerics with range reduction by a float pi; only their term-count settings are modelled.
- `is_dot_interval` (`interval_arithmetics.py:360-373`) calls `dec.compare`, which the decimal module does not define, so every call raises `AttributeError`. It is not modelled; `IntervalArithmetics.IsDot` is only the point-interval test it means, used in specifications.
- `abs` of `interval.py:208-217`: it can return an inverted or non-enclosing interval, so no enclosure is claimed for it and it is not modelled.
- `lower_bound_and_point` (`FZCP/psqe_bounds_correctly.py:161-182`) reads `self.c`, which the class never sets, so every call raises. `find_min_under_zero`, `find_max_above_zero` (213-265) and `upper_est_der_le_0` (278-287) compare an interval with 0, which the kernel's interval does not support, so every call raises too. None of the three is modelled.
- `lower_bound_and_point2` (`FZCP/psqe_bounds_correctly.py:184-196`) returns 0 when `fb <= 0` and otherwise reads `self.c` and raises; it is not modelled, and neither is the getter `get_fb` (127-128).
- `find_argmin` (`FZCP/psqe_bounds_correctly.py:204-211`) is the same code as `find_argmin` of `psqe_under.py:102-109`, which is modelled as `PsqeUnder.FindArgmin`.
- `under_est_der_le_0` is called at `psqe_under.py:147-163` and `psqe_under.py:180-194`, but `PSQE_Under` does not define it; only `FZCP/psqe_bounds_correctly.py:267` does. So as shipped, every call of `get_left_end` or `get_right_end2` that reaches it raises `AttributeError`. The model takes the method as if it existed: it is the parameter `derLe0` of `PsqeUnder.GetLeftEnd` and `PsqeUnder.GetRightEnd2` (lines 140-200), with no contract.
- The objective and its derivatives (built with sympy in `uvarprob.py`) are function parameters; `uvarprob.py` is not part of this model.
- `getNewTrialPoint` (`FZCP/psqeprocessor_fzcp.py:112`, `FZCP/processor_bnb_serg.py:91`) is called on a `PSQE_Bounds` of `FZCP/psqe_bounds.py`, which does not define it, and it is defined in no file of the repository's core. So every call raises `AttributeError` as shipped. The model takes it as the oracle `trialPoint`, a function of the estimator's bounds with no contract, so no claim depends on where it lands.
- `psl_under` (`pslprocessor.py:3`) is an oracle; its source module is not part of this model.
- `include_zero` (`processor_reduction.py:89`) is defined nowhere in the repository: the float interval class has no such method, so the call would raise. The model takes it as the oracle `includeZero`.
- Every estimator construction of `FZCP/processor_new.py:76-85` and `processor_reduction.py:70-82` raises `TypeError` as shipped. So does the quadratic branch of `reduction2` (`processor_reduction.py:101-111`). The reason is that the imported builders of `FZCP/psl_bounds.py:11` and `FZCP/psqe_bounds.py:9` take `f` and `df`, not `fa`, `fb`, `dfa` and `dfb`, nor seven positional arguments. The processors take the estimator's queries as oracle fields, as they would behave once a matching builder exists. The builders are modelled and proved on their own.
- The square root in the adaptive period formulas (`FZCP/processor_correctly.py:120`, `FZCP/processor_new.py:108`, `processor_reduction.py:136`) is the oracle `periodOf`, a non-negative integer function of the enclosure's width.
- Square roots in the kernels are an oracle `sqrt` constrained to return the non-negative root, since the reals of the verifier have no square root function.
- Reduction level 2 and the `'err'` path of `FZCP/processor_correctly.py:149-162` raise in the source; the model returns the raise (`ok == false`) instead of computing anything for them.
- In-place writes to interval endpoints (`d1.a = c_zero` in `FZCP/psqe_bounds_correctly.py`, the `ival[0] = ...` narrowing in the processors) are modelled by building a new interval value and reassigning it; aliasing of one interval object between two owners is not modelled.
- The state a processor leaves behind when it raises part way through a step is not modelled: a raising step reports only that it raised.
- Every `print` call and the stray `obj(1)` at `FZCP/pslprocessor_fzcp.py:78`: output and a discarded evaluation with no effect on the result.
- The `bound` list of a subproblem is flattened into the fields the processors read (a lower and an upper bound).
- Bnb.BranchAndBound: the order in which a Python set or a sorted list pops is the work list's `pick` function, so the model proves what holds for every pop order rather than for CPython's one.
- Bnb.Drive: the processor is a pure function of its own state and the subproblem; any other side effect of a processor object is not modelled.
- MatrixStats.ColumnMaxRatio, MatrixStats.ColumnMinRatio and MatrixStats.ColumnAvgRatio: each is computed by the plain column statistic over the ratio matrix instead of its own loop; the results agree, but the loops of `FZCP/test.py:39-94` are not mirrored one by one.
- GridSearch.Search: the source's `(nan, nan)` for an empty grid is `None`, and `numpy.arange`'s floating-point count is the exact ceiling.
- PslBoundsCorrectly.GetRightEndUnderBound: in two cases the source returns `+inf` (`FZCP/psl_bounds_correctly.py:163-172`), and the model answers `Undefined`. The first is a flat right line (`bet = 0`) whose end enclosure contains 0, where the right root is the whole line (lines 166-168). The second is a whole-line left root under a whole-line breakpoint (lines 169-171). An answer has no infinite root. The caller `FZCP/processor_correctly.py:147-175` would go on to split at `+inf`. So `ProcessorCorrectly.Reduce` and the processor step report a raise where the source goes on with an infinite right end.
- ProcessorCorrectly.RecordNeverIncreases: holds only when the under-bound right end of the lower estimator lies inside the subinterval (`UnderEndWithin`), and the lemma requires it. `PsqeBoundsCorrectly.RightEndUnderWithinB` proves it for the quadratic estimator when `c` stays left of `b`; a root of the first piece is cut only at `c.hi`, so a wider `c` is not covered.
- ProcessorCorrectly.Reduce: the model follows an unbounded quadratic upper estimator (`QuadraticUnbounded`) only when `c` reaches minus infinity. There `get_right_end_upper_bound` answers `b` (`FZCP/psqe_bounds_correctly.py:379-381`). When only `d` is unbounded, or `c` is a right ray, the source goes on to evaluate the parabolas at infinite ends, and the model reports a raise.
- ProcessorNewFloat.RecordNeverIncreases: assumes the estimator oracle returns ends inside the interval it is asked about, which the source never checks.
- Wiring and driver scripts: `FZCP/solv_fzcp.py` and `solvutil.py` (they only wire processors to the driver), `FZCP/run.py`, everything in `FZCP/test.py` except the matrix statistics (timing loops, LaTeX and CSV output), the `main.py` demo, the `shekgen.py` generator, the `uniplot.py` plots and the `FZCP/setup.py` build. `sub.py` is a bare record and is the datatype `Bnb.Sub`.

## Findings

| source | as written | input that shows it | evidently intended | confidence | as-written member | corrected member |
|---|---|---|---|---|---|---|
| FZCP/psl_bounds_correctly.py:104-106 | `lower_bound_and_point` takes the minimum candidate from the upper end `c.hi` of the enclosure of `f(a)` | `[0, 2]`, slopes `[-1, 1]`, `f(a)` in `[0, 1]`, `f(b)` in `[0, 0]`: the reported bound is `-0.5`, but the envelope reaches `-1` at `x = 1` | a lower bound of the under-envelope, taken from `c.lo` | not executed | PslBoundsCorrectly.LowerBoundAndPointMissesMinimum | PslBoundsCorrectly.LowerBoundAndPointCorrected, PslBoundsCorrectly.CorrectedLowerBound |
| FZCP/psqe_bounds.py:41-45 | in over mode, `delt` and `c` are computed from the raw `alp` and `bet` before they are negated | `[0, 1]`, `alp = 0`, `bet = 2`, `f = 0` at both ends, `f'(0) = -1`, `f'(1) = 3`: the slopes of the middle and last pieces differ by 2 at `d` | an over-estimator whose pieces join smoothly, built from the negated constants | not executed | PsqeBounds.OverSlopesMissAtD, PsqeBounds.OverSlopesMissExample | PsqeBounds.Build, PsqeBounds.BuildIsSmooth |
| psqe_under.py:193 | `get_right_end2` uses `delta_third` for the root of the first piece. This slip is latent: as shipped, line 180 first calls the missing `under_est_der_le_0` and raises `AttributeError`, so it shows only once that method exists | `[0, 1]`, `alp = 2`, `bet = 4`, `fa = 1/4`, `fb = 1`, `dfa = -1/2`, `dfb = 2`: with `under_est_der_le_0` accepting only `[a, c]` it returns `0.25`, where the estimator is `0.1875`, not zero | the discriminant of the first piece, `delta_first` | not executed | PsqeUnder.GetRightEnd2ReturnsNonZero | PsqeUnder.GetRightEnd2Corrected, PsqeUnder.GetRightEnd2CorrectedIsZero |
| processor_reduction.py:105 | `if left_end:` tests the left end for truth, so a left end of `0.0` counts as missing. This slip is latent: as shipped, the `PSL_Bounds(..., fa=dfa, fb=dfb, ...)` call at line 101 first raises `TypeError` against `FZCP/psl_bounds.py:11`, so it shows only once a builder taking `fa` and `fb` is used | a quadratic estimator on `[-1, 1]` whose left end is exactly `0.0` and whose right end is `0.5`: the subproblem is discarded, where narrowing keeps `[0, 0.5]` | `if left_end is not None:` | not executed | ProcessorReductionFloat.Reduction2AsWritten, ProcessorReductionFloat.Reduction2DropsZeroEnd | ProcessorReductionFloat.Reduction2 |
| FZCP/pslprocessor_fzcp.py:63 | `bound[1]` is the over-estimator's `lower_bound_and_point` (`FZCP/psl_bounds.py:59-69`), which is minus the estimator's maximum, and is used without negation as the upper bound | `f(x) = 1 - 3x` on `[0, 1]` with `f'` in `[-4, -2]`: `bound[1] = -1`, so the subproblem that holds the crossing is dropped | `bound[1]` negated, an upper bound of `f` on the interval | not executed | PslProcessorFzcp.DropsCrossingAsWritten | PslProcessorFzcp.CorrectedKeepsCrossing, PslProcessorFzcp.BoundsEncloseEstimators |
