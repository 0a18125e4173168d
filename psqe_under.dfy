/**
 * The queries of psqe_under.py on the smooth piecewise quadratic
 * under-estimator of module `Psqe` (whose construction and `estimator` are
 * the same as psqe.py's): the minimum of the estimator, the record among
 * the ends, and the zeros of the pieces that bound the first sign change.
 */
module PsqeUnder {
  import opened Common
  import opened Psqe
  import RealFacts

  /** `nestimator`: the negated estimator. */
  function NEstimator(p: Psqe, x: real): (v: real)
    ensures v + Underestimator(p, x) == 0.0
  {
    -Underestimator(p, x)
  }

  /** `record_and_point`: the end with the smaller value, `a` on a tie. */
  function RecordAndPoint(p: Psqe): (r: (real, real))
    ensures r.1 <= p.fa && r.1 <= p.fb
    ensures r == (p.a, p.fa) || r == (p.b, p.fb)
    ensures p.fa == p.fb ==> r.0 == p.a
  {
    if p.fa <= p.fb then (p.a, p.fa) else (p.b, p.fb)
  }

  /**
   * `find_argmin`: where the slope, interpolated linearly between `df1` at
   * `x1` and `df2` at `x2`, vanishes; the midpoint when both slopes are 0.
   */
  function FindArgmin(x1: real, df1: real, x2: real, df2: real): (r: Option<real>)
    ensures r.Some? <==> df1 <= 0.0 <= df2
    ensures r.Some? ==> df1 * (x2 - x1) + (df2 - df1) * (r.value - x1) == 0.0
    ensures r.Some? && x1 <= x2 ==> x1 <= r.value <= x2
  {
    if df1 == 0.0 && df2 == 0.0 then Some(0.5 * (x1 + x2))
    else if df1 <= 0.0 <= df2 then
      var q := (-df1) * (x2 - x1) / (df2 - df1);
      ArgminShare(x1, df1, x2, df2);
      Some(x1 + q)
    else None
  }

  /** The points `a, c, d, b` that `lower_bound_and_point` scans in order. */
  function XList(p: Psqe): seq<real> { [p.a, p.c, p.d, p.b] }

  /** The estimator's slopes at those points. */
  function DfList(p: Psqe): (r: seq<real>)
    ensures |r| == 4 && forall i :: 0 <= i < 4 ==> r[i] == Derivative(p, XList(p)[i])
  {
    [Derivative(p, p.a), Derivative(p, p.c), Derivative(p, p.d), Derivative(p, p.b)]
  }

  /** An optional point as a list of zero or one point. */
  function Listed(o: Option<real>): seq<real>
  {
    if o.Some? then [o.value] else []
  }

  /** The argmins found between the first `n + 1` points of `xs`. */
  function ArgminsUpTo(xs: seq<real>, dfs: seq<real>, n: nat): seq<real>
    requires n < |xs| && |xs| == |dfs|
  {
    if n == 0 then []
    else ArgminsUpTo(xs, dfs, n - 1) + Listed(FindArgmin(xs[n - 1], dfs[n - 1], xs[n], dfs[n]))
  }

  /** `check_list`: the two ends followed by every argmin that exists. */
  function CheckList(p: Psqe): seq<real>
  {
    [p.a, p.b] + ArgminsUpTo(XList(p), DfList(p), 3)
  }

  /** The ordering `lower_bound_and_point` needs, and that the breakpoints are built. */
  predicate Ordered(p: Psqe)
  {
    Joined(p) && p.a <= p.c <= p.d <= p.b
  }

  /** The first point of `xs` with the smallest estimator value, with that value. */
  function FirstLowest(p: Psqe, xs: seq<real>): (real, real)
    requires |xs| > 0
  {
    if |xs| == 1 then (xs[0], Underestimator(p, xs[0]))
    else
      var r := FirstLowest(p, xs[..|xs| - 1]);
      var w := Underestimator(p, xs[|xs| - 1]);
      if w < r.1 then (xs[|xs| - 1], w) else r
  }

  /**
   * `FirstLowest` is the first strict minimum: a listed point with its
   * estimator value, at most the value at every listed point and below the
   * value at every earlier one.
   */
  lemma FirstLowestIsFirstMinimum(p: Psqe, xs: seq<real>)
    requires |xs| > 0
    ensures var r := FirstLowest(p, xs);
            r.0 in xs && r.1 == Underestimator(p, r.0)
            && (forall y :: y in xs ==> r.1 <= Underestimator(p, y))
            && exists i :: 0 <= i < |xs| && xs[i] == r.0 && forall j :: 0 <= j < i ==> r.1 < Underestimator(p, xs[j])
  {
    var i := FirstLowestListed(p, xs);
    FirstLowestBelowAll(p, xs);
  }

  /** The point `FirstLowest` picks, its index `i` and its value, below every earlier value. */
  lemma {:induction false} FirstLowestListed(p: Psqe, xs: seq<real>) returns (i: nat)
    requires |xs| > 0
    ensures i < |xs| && xs[i] == FirstLowest(p, xs).0 && FirstLowest(p, xs).1 == Underestimator(p, xs[i])
    ensures forall j :: 0 <= j < i ==> FirstLowest(p, xs).1 < Underestimator(p, xs[j])
  {
    if |xs| == 1 {
      i := 0;
    } else {
      var ys := xs[..|xs| - 1];
      var k := FirstLowestListed(p, ys);
      var r, w := FirstLowest(p, ys), Underestimator(p, xs[|xs| - 1]);
      if w < r.1 {
        i := |xs| - 1;
        FirstLowestBelowAll(p, ys);
        forall j | 0 <= j < i
          ensures w < Underestimator(p, xs[j])
        {
          assert xs[j] == ys[j] && ys[j] in ys;
        }
      } else {
        i := k;
        assert forall j :: 0 <= j < i ==> xs[j] == ys[j];
      }
    }
  }

  /** The value `FirstLowest` picks is at most the value at every listed point. */
  lemma {:induction false} FirstLowestBelowAll(p: Psqe, xs: seq<real>)
    requires |xs| > 0
    ensures forall y :: y in xs ==> FirstLowest(p, xs).1 <= Underestimator(p, y)
  {
    if |xs| > 1 {
      var ys := xs[..|xs| - 1];
      assert xs == ys + [xs[|xs| - 1]];
      FirstLowestBelowAll(p, ys);
    }
  }

  /** `FirstLowest` of one more point: that point where it is strictly lower. */
  lemma FirstLowestStep(p: Psqe, xs: seq<real>, k: nat)
    requires k < |xs|
    ensures k == 0 ==> FirstLowest(p, xs[..k + 1]) == (xs[k], Underestimator(p, xs[k]))
    ensures k > 0 ==> FirstLowest(p, xs[..k + 1])
                      == if Underestimator(p, xs[k]) < FirstLowest(p, xs[..k]).1 then (xs[k], Underestimator(p, xs[k]))
                         else FirstLowest(p, xs[..k])
  {
    assert xs[..k + 1][..k] == xs[..k];
  }

  /**
   * `lower_bound_and_point`: the first checked point of smallest estimator
   * value.  On an ordered estimator that value is the minimum of the
   * estimator over all of `[a, b]`.
   */
  method LowerBoundAndPoint(p: Psqe) returns (x: real, v: real)
    ensures (x, v) == FirstLowest(p, CheckList(p))
    ensures x in CheckList(p) && v == Underestimator(p, x)
    ensures forall y :: y in CheckList(p) ==> v <= Underestimator(p, y)
    ensures exists i :: 0 <= i < |CheckList(p)| && CheckList(p)[i] == x
                        && forall j :: 0 <= j < i ==> v < Underestimator(p, CheckList(p)[j])
    ensures Ordered(p) ==> forall y :: p.a <= y <= p.b ==> v <= Underestimator(p, y)
  {
    var xList := [p.a, p.c, p.d, p.b];
    var dfList := [Derivative(p, p.a), Derivative(p, p.c), Derivative(p, p.d), Derivative(p, p.b)];
    var checkList := [p.a, p.b];
    for i := 0 to 3
      invariant checkList == [p.a, p.b] + ArgminsUpTo(xList, dfList, i)
    {
      var m := FindArgmin(xList[i], dfList[i], xList[i + 1], dfList[i + 1]);
      if m.Some? {
        checkList := checkList + [m.value];
      }
    }
    assert checkList == CheckList(p);
    x, v := ScanLowest(p, checkList);
    FirstLowestIsFirstMinimum(p, checkList);
    forall y | p.a <= y <= p.b && Ordered(p)
      ensures v <= Underestimator(p, y)
    {
      var z := CandidatesReachMinimum(p, y);
    }
  }

  /** The scan of `lower_bound_and_point` over the checked points, keeping the first strict minimum. */
  method ScanLowest(p: Psqe, xs: seq<real>) returns (x: real, v: real)
    requires |xs| > 0
    ensures (x, v) == FirstLowest(p, xs)
  {
    var found := false;
    x, v := 0.0, 0.0;
    for k := 0 to |xs|
      invariant found <==> k > 0
      invariant found ==> (x, v) == FirstLowest(p, xs[..k])
    {
      FirstLowestStep(p, xs, k);
      var w := Underestimator(p, xs[k]);
      if !found || w < v {
        x, v, found := xs[k], w, true;
      }
    }
    assert xs[..|xs|] == xs;
  }

  /** The offset of the argmin from `x1` zeroes the interpolated slope and stays within the segment. */
  lemma ArgminShare(x1: real, df1: real, x2: real, df2: real)
    requires df1 <= 0.0 <= df2 && df1 < df2
    ensures var q := (-df1) * (x2 - x1) / (df2 - df1);
      df1 * (x2 - x1) + (df2 - df1) * q == 0.0 && (x1 <= x2 ==> 0.0 <= q <= x2 - x1)
  {
    if x1 <= x2 { ShareOfSegment(-df1, df2 - df1, x2 - x1); }
  }

  /** `n w / d` is a share of `w` when `0 <= n <= d`. */
  lemma ShareOfSegment(n: real, d: real, w: real)
    requires 0.0 <= n <= d && 0.0 < d && 0.0 <= w
    ensures 0.0 <= n * w / d <= w
  {
    var q := n * w / d;
    assert q * d == n * w;
    RealFacts.MulNonneg(n, w);
    RealFacts.MulNonneg(d - n, w);
    assert 0.0 <= q by {
      if q < 0.0 { RealFacts.MulNonneg(-q, d); }
    }
    assert q <= w by {
      if q > w { RealFacts.MulPos(q - w, d); }
    }
  }

  // ---------------------------------------------------------------------
  // The checked points reach the minimum
  // ---------------------------------------------------------------------

  /** A square is never negative. */
  lemma SquareNonneg(z: real)
    ensures 0.0 <= z * z
  {
    if z < 0.0 { RealFacts.MulNonneg(-z, -z); } else { RealFacts.MulNonneg(z, z); }
  }

  /** Non-negative slopes at both ends of a segment: the parabola rises. */
  lemma RisingSegment(v: real, s1: real, k: real, x1: real, x2: real, x: real)
    requires x1 <= x <= x2
    requires 0.0 <= s1 && 0.0 <= s1 + k * (x2 - x1)
    ensures Parab(v, s1, k, x1, x) >= Parab(v, s1, k, x1, x1)
  {
    var h, len := x - x1, x2 - x1;
    if h > 0.0 {
      var g := s1 + 0.5 * k * h;
      // len * g is a non-negative combination of the two end slopes.
      assert len * g == s1 * (len - 0.5 * h) + (s1 + k * len) * (0.5 * h);
      RealFacts.MulNonneg(s1, len - 0.5 * h);
      RealFacts.MulNonneg(s1 + k * len, 0.5 * h);
      assert 0.0 <= g by {
        if g < 0.0 { RealFacts.MulPos(len, -g); }
      }
      RealFacts.MulNonneg(h, g);
      assert Parab(v, s1, k, x1, x) - v == h * g;
    }
  }

  /** Non-positive slopes at both ends of a segment: the parabola falls. */
  lemma FallingSegment(v: real, s1: real, k: real, x1: real, x2: real, x: real)
    requires x1 <= x <= x2
    requires s1 <= 0.0 && s1 + k * (x2 - x1) <= 0.0
    ensures Parab(v, s1, k, x1, x) >= Parab(v, s1, k, x1, x2)
  {
    // Seen from `x2` with the direction reversed, the parabola rises.
    var s2 := s1 + k * (x2 - x1);
    var w := Parab(v, s1, k, x1, x2);
    RisingSegment(w, -s2, k, -x2, -x1, -x);
    assert Parab(v, s1, k, x1, x) == Parab(w, -s2, k, -x2, -x);
  }

  /** With end slopes `s1 <= 0 <= s2`, the argmin is the lowest point of the segment. */
  lemma ValleySegment(v: real, s1: real, k: real, x1: real, x2: real, x: real)
    requires x1 <= x <= x2
    requires s1 <= 0.0 <= s1 + k * (x2 - x1)
    ensures FindArgmin(x1, s1, x2, s1 + k * (x2 - x1)).Some?
    ensures Parab(v, s1, k, x1, x) >= Parab(v, s1, k, x1, FindArgmin(x1, s1, x2, s1 + k * (x2 - x1)).value)
  {
    var s2 := s1 + k * (x2 - x1);
    var m := FindArgmin(x1, s1, x2, s2).value;
    // The slope of the parabola vanishes at `m`.
    assert (s2 - s1) * (m - x1) == -s1 * (x2 - x1);
    if k * (x2 - x1) == 0.0 {
      // A flat segment, or a single point.
      assert s1 == 0.0;
      if x2 - x1 != 0.0 {
        assert k == 0.0;
      }
    } else {
      assert (k * (m - x1)) * (x2 - x1) == -s1 * (x2 - x1);
      RealFacts.CancelFactor(k * (m - x1), -s1, x2 - x1);
      var w := Parab(v, s1, k, x1, m);
      assert Parab(v, s1, k, x1, x) == w + 0.5 * k * ((x - m) * (x - m));
      assert 0.0 < k by {
        if k < 0.0 {
          RealFacts.MulNonneg(-k, x2 - x1);
        }
      }
      SquareNonneg(x - m);
      RealFacts.MulNonneg(k, (x - m) * (x - m));
    }
  }

  /** With curvature `k <= 0` the parabola is concave on the segment:
    * its values stay above the lower of its two ends. */
  lemma RidgeSegment(v: real, s1: real, k: real, x1: real, x2: real, x: real)
    requires x1 <= x <= x2
    requires k <= 0.0
    ensures Parab(v, s1, k, x1, x) >= Parab(v, s1, k, x1, x1) || Parab(v, s1, k, x1, x) >= Parab(v, s1, k, x1, x2)
  {
    var h, len := x - x1, x2 - x1;
    var q1, q2, q := Parab(v, s1, k, x1, x1), Parab(v, s1, k, x1, x2), Parab(v, s1, k, x1, x);
    ConcaveChord(v, s1, k, h, len, q1, q2, q);
    if len == 0.0 {
      assert x == x1;
    } else {
      AboveChord(len, h, q1, q2, q);
    }
  }

  /** A concave parabola lies above its chord between `0` and `len`. */
  lemma ConcaveChord(v: real, s1: real, k: real, h: real, len: real, q1: real, q2: real, q: real)
    requires k <= 0.0 && 0.0 <= h <= len
    requires q1 == v && q2 == v + s1 * len + 0.5 * k * len * len && q == v + s1 * h + 0.5 * k * h * h
    ensures (len - h) * q1 + h * q2 <= len * q
  {
    assert len * (v + s1 * h + 0.5 * k * h * h) - ((len - h) * v + h * (v + s1 * len + 0.5 * k * len * len))
        == -0.5 * k * (len * h * (len - h));
    RealFacts.MulNonneg(len, h);
    RealFacts.MulNonneg(len * h, len - h);
    RealFacts.MulNonneg(-0.5 * k, len * h * (len - h));
  }

  /** A value above the chord between `q1` and `q2` is above one of them. */
  lemma AboveChord(len: real, h: real, q1: real, q2: real, q: real)
    requires 0.0 < len && 0.0 <= h <= len
    requires (len - h) * q1 + h * q2 <= len * q
    ensures q1 <= q || q2 <= q
  {
    if q1 <= q2 {
      RealFacts.MulNonneg(h, q2 - q1);
      assert len * q1 <= len * q;
      if q < q1 { RealFacts.MulPos(len, q1 - q); }
    } else {
      RealFacts.MulNonneg(len - h, q1 - q2);
      assert len * q2 <= len * q;
      if q < q2 { RealFacts.MulPos(len, q2 - q); }
    }
  }

  /** A parabola centred anywhere, seen from the left end `x1` of a segment. */
  lemma FromLeftEnd(v: real, s: real, k: real, e: real, x1: real, x2: real, x: real)
    ensures s + k * (x2 - e) == (s + k * (x1 - e)) + k * (x2 - x1)
    ensures Parab(v, s, k, e, x) == Parab(Parab(v, s, k, e, x1), s + k * (x1 - e), k, x1, x)
  {
    Recentre(v, s, k, e, x1, x);
  }

  /** Non-negative slopes at both ends: no point of the segment is below its left end. */
  lemma SegmentRises(v: real, s: real, k: real, e: real, x1: real, x2: real, x: real)
    requires x1 <= x <= x2
    requires 0.0 <= s + k * (x1 - e) && 0.0 <= s + k * (x2 - e)
    ensures Parab(v, s, k, e, x) >= Parab(v, s, k, e, x1)
  {
    FromLeftEnd(v, s, k, e, x1, x2, x);
    FromLeftEnd(v, s, k, e, x1, x2, x1);
    RisingSegment(Parab(v, s, k, e, x1), s + k * (x1 - e), k, x1, x2, x);
  }

  /** Non-positive slopes at both ends: no point of the segment is below its right end. */
  lemma SegmentFalls(v: real, s: real, k: real, e: real, x1: real, x2: real, x: real)
    requires x1 <= x <= x2
    requires s + k * (x1 - e) <= 0.0 && s + k * (x2 - e) <= 0.0
    ensures Parab(v, s, k, e, x) >= Parab(v, s, k, e, x2)
  {
    FromLeftEnd(v, s, k, e, x1, x2, x);
    FromLeftEnd(v, s, k, e, x1, x2, x2);
    FallingSegment(Parab(v, s, k, e, x1), s + k * (x1 - e), k, x1, x2, x);
  }

  /** End slopes `s1 <= 0 <= s2`: no point of the segment is below the argmin. */
  lemma SegmentValley(v: real, s: real, k: real, e: real, x1: real, x2: real, s1: real, s2: real, x: real)
    requires x1 <= x <= x2
    requires s1 == s + k * (x1 - e) && s2 == s + k * (x2 - e)
    requires s1 <= 0.0 <= s2
    ensures FindArgmin(x1, s1, x2, s2).Some?
    ensures Parab(v, s, k, e, x) >= Parab(v, s, k, e, FindArgmin(x1, s1, x2, s2).value)
  {
    var m := FindArgmin(x1, s1, x2, s2);
    FromLeftEnd(v, s, k, e, x1, x2, x);
    ValleySegment(Parab(v, s, k, e, x1), s1, k, x1, x2, x);
    FromLeftEnd(v, s, k, e, x1, x2, m.value);
  }

  /** Every point of a segment lies above one of its ends or above its argmin. */
  lemma SegmentAny(v: real, s: real, k: real, e: real, x1: real, x2: real, s1: real, s2: real, x: real)
    requires x1 <= x <= x2
    requires s1 == s + k * (x1 - e) && s2 == s + k * (x2 - e)
    ensures var m := FindArgmin(x1, s1, x2, s2);
      Parab(v, s, k, e, x) >= Parab(v, s, k, e, x1) || Parab(v, s, k, e, x) >= Parab(v, s, k, e, x2)
      || (m.Some? && Parab(v, s, k, e, x) >= Parab(v, s, k, e, m.value))
  {
    if 0.0 <= s1 && 0.0 <= s2 {
      SegmentRises(v, s, k, e, x1, x2, x);
    } else if s1 <= 0.0 && s2 <= 0.0 {
      SegmentFalls(v, s, k, e, x1, x2, x);
    } else if s1 <= 0.0 <= s2 {
      SegmentValley(v, s, k, e, x1, x2, s1, s2, x);
    } else {
      SegmentRidge(v, s, k, e, x1, x2, s1, s2, x);
    }
  }

  /** End slopes `s1 > 0 > s2`: the parabola is concave and no point is below both ends. */
  lemma SegmentRidge(v: real, s: real, k: real, e: real, x1: real, x2: real, s1: real, s2: real, x: real)
    requires x1 <= x <= x2
    requires s1 == s + k * (x1 - e) && s2 == s + k * (x2 - e)
    requires s2 < 0.0 < s1
    ensures Parab(v, s, k, e, x) >= Parab(v, s, k, e, x1) || Parab(v, s, k, e, x) >= Parab(v, s, k, e, x2)
  {
    FromLeftEnd(v, s, k, e, x1, x2, x);
    FromLeftEnd(v, s, k, e, x1, x2, x1);
    FromLeftEnd(v, s, k, e, x1, x2, x2);
    assert k <= 0.0 by {
      if k > 0.0 { RealFacts.MulNonneg(k, x2 - x1); }
    }
    RidgeSegment(Parab(v, s, k, e, x1), s1, k, x1, x2, x);
  }

  /** On an ordered estimator each closed piece is evaluated by its own parabola. */
  lemma OnPieces(p: Psqe, x: real)
    requires Ordered(p)
    ensures p.a <= x <= p.c ==> Underestimator(p, x) == Q1(p, x) && Derivative(p, x) == D1(p, x)
    ensures p.c <= x <= p.d ==> Underestimator(p, x) == Q2(p, x) && Derivative(p, x) == D2(p, x)
    ensures p.d <= x <= p.b ==> Underestimator(p, x) == Q3(p, x) && Derivative(p, x) == D3(p, x)
  {
    SmoothAtC(p);
    SlopesMeetAtD(p);
    ValuesMeetAtD(p);
  }

  /** The argmins in the check list, named by segment. */
  lemma CheckListHolds(p: Psqe)
    ensures p.a in CheckList(p) && p.b in CheckList(p)
    ensures FindArgmin(p.a, Derivative(p, p.a), p.c, Derivative(p, p.c)).Some? ==>
      FindArgmin(p.a, Derivative(p, p.a), p.c, Derivative(p, p.c)).value in CheckList(p)
    ensures FindArgmin(p.c, Derivative(p, p.c), p.d, Derivative(p, p.d)).Some? ==>
      FindArgmin(p.c, Derivative(p, p.c), p.d, Derivative(p, p.d)).value in CheckList(p)
    ensures FindArgmin(p.d, Derivative(p, p.d), p.b, Derivative(p, p.b)).Some? ==>
      FindArgmin(p.d, Derivative(p, p.d), p.b, Derivative(p, p.b)).value in CheckList(p)
  {
    var xs, dfs := XList(p), DfList(p);
    assert CheckList(p) == [p.a, p.b] + ArgminsUpTo(xs, dfs, 2)
      + Listed(FindArgmin(p.d, Derivative(p, p.d), p.b, Derivative(p, p.b)));
    assert ArgminsUpTo(xs, dfs, 2) == ArgminsUpTo(xs, dfs, 1)
      + Listed(FindArgmin(p.c, Derivative(p, p.c), p.d, Derivative(p, p.d)));
    assert ArgminsUpTo(xs, dfs, 1) == Listed(FindArgmin(p.a, Derivative(p, p.a), p.c, Derivative(p, p.c)));
  }

  /** Some checked point has an estimator value at most `t`. */
  ghost predicate Reached(p: Psqe, t: real)
  {
    exists z :: z in CheckList(p) && Underestimator(p, z) <= t
  }

  /** The three slopes as the lines they are. */
  lemma SlopeForms(p: Psqe, x: real)
    ensures D1(p, x) == p.dfa + p.alp * (x - p.a)
    ensures D2(p, x) == D1(p, p.c) + p.bet * (x - p.c)
    ensures D3(p, x) == p.dfb + p.alp * (x - p.b)
  {
  }

  /** The first piece on `[a, c]` rises when both end slopes are non-negative. */
  lemma FirstRises(p: Psqe, x: real)
    requires p.a <= x <= p.c && 0.0 <= D1(p, p.a) && 0.0 <= D1(p, p.c)
    ensures Q1(p, x) >= Q1(p, p.a)
  {
    SlopeForms(p, p.a);
    SlopeForms(p, p.c);
    SegmentRises(p.fa, p.dfa, p.alp, p.a, p.a, p.c, x);
  }

  /** On the first piece on `[a, c]` with end slopes of opposite signs, the argmin is lowest. */
  lemma FirstValley(p: Psqe, x: real)
    requires p.a <= x <= p.c && D1(p, p.a) <= 0.0 <= D1(p, p.c)
    ensures FindArgmin(p.a, D1(p, p.a), p.c, D1(p, p.c)).Some? && Q1(p, x) >= Q1(p, FindArgmin(p.a, D1(p, p.a), p.c, D1(p, p.c)).value)
  {
    SlopeForms(p, p.a);
    SlopeForms(p, p.c);
    SegmentValley(p.fa, p.dfa, p.alp, p.a, p.a, p.c, D1(p, p.a), D1(p, p.c), x);
  }

  /** Each point of the first piece on `[a, c]` lies above an end or the argmin. */
  lemma FirstAny(p: Psqe, x: real)
    requires p.a <= x <= p.c
    ensures Q1(p, x) >= Q1(p, p.a) || Q1(p, x) >= Q1(p, p.c)
      || (FindArgmin(p.a, D1(p, p.a), p.c, D1(p, p.c)).Some? && Q1(p, x) >= Q1(p, FindArgmin(p.a, D1(p, p.a), p.c, D1(p, p.c)).value))
  {
    SlopeForms(p, p.a);
    SlopeForms(p, p.c);
    SegmentAny(p.fa, p.dfa, p.alp, p.a, p.a, p.c, D1(p, p.a), D1(p, p.c), x);
  }

  /** The middle piece on `[c, d]` rises when both end slopes are non-negative. */
  lemma SecondRises(p: Psqe, x: real)
    requires p.c <= x <= p.d && 0.0 <= D2(p, p.c) && 0.0 <= D2(p, p.d)
    ensures Q2(p, x) >= Q2(p, p.c)
  {
    SlopeForms(p, p.c);
    SlopeForms(p, p.d);
    SegmentRises(Q1(p, p.c), D1(p, p.c), p.bet, p.c, p.c, p.d, x);
  }

  /** The middle piece on `[c, d]` falls when both end slopes are non-positive. */
  lemma SecondFalls(p: Psqe, x: real)
    requires p.c <= x <= p.d && D2(p, p.c) <= 0.0 && D2(p, p.d) <= 0.0
    ensures Q2(p, x) >= Q2(p, p.d)
  {
    SlopeForms(p, p.c);
    SlopeForms(p, p.d);
    SegmentFalls(Q1(p, p.c), D1(p, p.c), p.bet, p.c, p.c, p.d, x);
  }

  /** On the middle piece on `[c, d]` with end slopes of opposite signs, the argmin is lowest. */
  lemma SecondValley(p: Psqe, x: real)
    requires p.c <= x <= p.d && D2(p, p.c) <= 0.0 <= D2(p, p.d)
    ensures FindArgmin(p.c, D2(p, p.c), p.d, D2(p, p.d)).Some? && Q2(p, x) >= Q2(p, FindArgmin(p.c, D2(p, p.c), p.d, D2(p, p.d)).value)
  {
    SlopeForms(p, p.c);
    SlopeForms(p, p.d);
    SegmentValley(Q1(p, p.c), D1(p, p.c), p.bet, p.c, p.c, p.d, D2(p, p.c), D2(p, p.d), x);
  }

  /** Each point of the middle piece on `[c, d]` lies above an end or the argmin. */
  lemma SecondAny(p: Psqe, x: real)
    requires p.c <= x <= p.d
    ensures Q2(p, x) >= Q2(p, p.c) || Q2(p, x) >= Q2(p, p.d)
      || (FindArgmin(p.c, D2(p, p.c), p.d, D2(p, p.d)).Some? && Q2(p, x) >= Q2(p, FindArgmin(p.c, D2(p, p.c), p.d, D2(p, p.d)).value))
  {
    SlopeForms(p, p.c);
    SlopeForms(p, p.d);
    SegmentAny(Q1(p, p.c), D1(p, p.c), p.bet, p.c, p.c, p.d, D2(p, p.c), D2(p, p.d), x);
  }

  /** The third piece on `[d, b]` falls when both end slopes are non-positive. */
  lemma ThirdFalls(p: Psqe, x: real)
    requires p.d <= x <= p.b && D3(p, p.d) <= 0.0 && D3(p, p.b) <= 0.0
    ensures Q3(p, x) >= Q3(p, p.b)
  {
    SlopeForms(p, p.d);
    SlopeForms(p, p.b);
    SegmentFalls(p.fb, p.dfb, p.alp, p.b, p.d, p.b, x);
  }

  /** On the third piece on `[d, b]` with end slopes of opposite signs, the argmin is lowest. */
  lemma ThirdValley(p: Psqe, x: real)
    requires p.d <= x <= p.b && D3(p, p.d) <= 0.0 <= D3(p, p.b)
    ensures FindArgmin(p.d, D3(p, p.d), p.b, D3(p, p.b)).Some? && Q3(p, x) >= Q3(p, FindArgmin(p.d, D3(p, p.d), p.b, D3(p, p.b)).value)
  {
    SlopeForms(p, p.d);
    SlopeForms(p, p.b);
    SegmentValley(p.fb, p.dfb, p.alp, p.b, p.d, p.b, D3(p, p.d), D3(p, p.b), x);
  }

  /** Each point of the third piece on `[d, b]` lies above an end or the argmin. */
  lemma ThirdAny(p: Psqe, x: real)
    requires p.d <= x <= p.b
    ensures Q3(p, x) >= Q3(p, p.d) || Q3(p, x) >= Q3(p, p.b)
      || (FindArgmin(p.d, D3(p, p.d), p.b, D3(p, p.b)).Some? && Q3(p, x) >= Q3(p, FindArgmin(p.d, D3(p, p.d), p.b, D3(p, p.b)).value))
  {
    SlopeForms(p, p.d);
    SlopeForms(p, p.b);
    SegmentAny(p.fb, p.dfb, p.alp, p.b, p.d, p.b, D3(p, p.d), D3(p, p.b), x);
  }

  /** The slopes `lower_bound_and_point` passes to `find_argmin`, on an ordered estimator. */
  lemma SlopesAtPoints(p: Psqe)
    requires Ordered(p)
    ensures Derivative(p, p.a) == D1(p, p.a) && Derivative(p, p.c) == D1(p, p.c)
    ensures Derivative(p, p.c) == D2(p, p.c) && Derivative(p, p.d) == D2(p, p.d)
    ensures Derivative(p, p.d) == D3(p, p.d) && Derivative(p, p.b) == D3(p, p.b)
  {
    OnPieces(p, p.a);
    OnPieces(p, p.c);
    OnPieces(p, p.d);
    OnPieces(p, p.b);
  }

  /** The argmin of each segment is a checked point, on its own piece. */
  lemma ArgminsChecked(p: Psqe)
    requires Ordered(p)
    ensures var m := FindArgmin(p.a, D1(p, p.a), p.c, D1(p, p.c));
      m.Some? ==> m.value in CheckList(p) && Underestimator(p, m.value) == Q1(p, m.value)
    ensures var m := FindArgmin(p.c, D2(p, p.c), p.d, D2(p, p.d));
      m.Some? ==> m.value in CheckList(p) && Underestimator(p, m.value) == Q2(p, m.value)
    ensures var m := FindArgmin(p.d, D3(p, p.d), p.b, D3(p, p.b));
      m.Some? ==> m.value in CheckList(p) && Underestimator(p, m.value) == Q3(p, m.value)
  {
    SlopesAtPoints(p);
    CheckListHolds(p);
    var m1 := FindArgmin(p.a, D1(p, p.a), p.c, D1(p, p.c));
    var m2 := FindArgmin(p.c, D2(p, p.c), p.d, D2(p, p.d));
    var m3 := FindArgmin(p.d, D3(p, p.d), p.b, D3(p, p.b));
    if m1.Some? { OnPieces(p, m1.value); }
    if m2.Some? { OnPieces(p, m2.value); }
    if m3.Some? { OnPieces(p, m3.value); }
  }

  /** The value at `d` is reached when the slope there is not positive. */
  lemma ReachedAtDFalling(p: Psqe)
    requires Ordered(p) && D3(p, p.d) <= 0.0
    ensures Reached(p, Q3(p, p.d))
  {
    ArgminsChecked(p);
    CheckListHolds(p);
    OnPieces(p, p.b);
    if D3(p, p.b) <= 0.0 {
      ThirdFalls(p, p.d);
    } else {
      ThirdValley(p, p.d);
    }
  }

  /** The value at `c` is reached when the slope there is not negative. */
  lemma ReachedAtCRising(p: Psqe)
    requires Ordered(p) && 0.0 <= D1(p, p.c)
    ensures Reached(p, Q1(p, p.c))
  {
    ArgminsChecked(p);
    CheckListHolds(p);
    OnPieces(p, p.a);
    if 0.0 <= D1(p, p.a) {
      FirstRises(p, p.c);
    } else {
      FirstValley(p, p.c);
    }
  }

  /** The value at `c` is reached. */
  lemma ReachedAtC(p: Psqe)
    requires Ordered(p)
    ensures Reached(p, Q1(p, p.c))
  {
    SmoothAtC(p);
    SlopesMeetAtD(p);
    ValuesMeetAtD(p);
    if 0.0 <= D1(p, p.c) {
      ReachedAtCRising(p);
    } else if D2(p, p.d) <= 0.0 {
      SecondFalls(p, p.c);
      ReachedAtDFalling(p);
    } else {
      ArgminsChecked(p);
      SecondValley(p, p.c);
    }
  }

  /** The value at `d` is reached. */
  lemma ReachedAtD(p: Psqe)
    requires Ordered(p)
    ensures Reached(p, Q3(p, p.d))
  {
    SmoothAtC(p);
    SlopesMeetAtD(p);
    ValuesMeetAtD(p);
    if D3(p, p.d) <= 0.0 {
      ReachedAtDFalling(p);
    } else if D2(p, p.c) <= 0.0 {
      ArgminsChecked(p);
      SecondValley(p, p.d);
    } else {
      SecondRises(p, p.d);
      ReachedAtCRising(p);
    }
  }

  /**
   * For an ordered estimator, the estimator's value anywhere on `[a, b]` is
   * at least its value at some checked point: the scan of `check_list`
   * finds the minimum of the estimator over the whole interval.
   */
  lemma CandidatesReachMinimum(p: Psqe, y: real) returns (z: real)
    requires Ordered(p) && p.a <= y <= p.b
    ensures z in CheckList(p) && Underestimator(p, z) <= Underestimator(p, y)
  {
    assert Reached(p, Underestimator(p, y)) by {
      SmoothAtC(p);
      SlopesMeetAtD(p);
      ValuesMeetAtD(p);
      ArgminsChecked(p);
      CheckListHolds(p);
      OnPieces(p, y);
      OnPieces(p, p.a);
      OnPieces(p, p.b);
      ReachedAtC(p);
      ReachedAtD(p);
      if y <= p.c {
        FirstAny(p, y);
      } else if y <= p.d {
        SecondAny(p, y);
      } else {
        ThirdAny(p, y);
      }
    }
    z :| z in CheckList(p) && Underestimator(p, z) <= Underestimator(p, y);
  }

  // ---------------------------------------------------------------------
  // Discriminants and roots of the pieces
  // ---------------------------------------------------------------------

  /** The discriminant `s^2 - 2 k v` of the parabola with value `v`, slope `s` and curvature `k`. */
  function Disc(v: real, s: real, k: real): real { s * s - 2.0 * k * v }

  /** `delta_first`: the discriminant of `q1` in the offset `x - a`. */
  function DeltaFirst(p: Psqe): real { Disc(p.fa, p.dfa, p.alp) }

  /** `delta_second`: the discriminant of `q2` in the offset `x - c`. */
  function DeltaSecond(p: Psqe): real { Disc(Q1(p, p.c), D1(p, p.c), p.bet) }

  /** `delta_third`: the discriminant of `q3` in the offset `x - b`. */
  function DeltaThird(p: Psqe): real { Disc(p.fb, p.dfb, p.alp) }

  /**
   * The root formula `e + (-s -/+ sqrt(disc)) / k` of the parabola with
   * slope `s` and curvature `k` at `e`, the smaller offset when `left`.
   * A negative `disc` makes `disc ** 0.5` complex and `k == 0` raises, so
   * neither gives a root.
   */
  function ParabRoot(e: real, s: real, k: real, disc: real, left: bool, sqrt: real -> real): (r: Answer)
    ensures r.Root? <==> 0.0 <= disc && k != 0.0
    ensures !r.NoRoot?
    ensures r.Root? && left ==> k * (r.x - e) + s == -sqrt(disc)
    ensures r.Root? && !left ==> k * (r.x - e) + s == sqrt(disc)
  {
    if disc < 0.0 || k == 0.0 then Undefined
    else
      var w := if left then -sqrt(disc) else sqrt(disc);
      Root(e + Ratio(-s + w, k))
  }

  /** `root_first_left`. */
  function RootFirstLeft(p: Psqe, d1: real, sqrt: real -> real): Answer { ParabRoot(p.a, p.dfa, p.alp, d1, true, sqrt) }

  /** `root_second_left`: its `-dfa - alp (c - a)` is minus the slope `D1` at `c`. */
  function RootSecondLeft(p: Psqe, d2: real, sqrt: real -> real): Answer { ParabRoot(p.c, D1(p, p.c), p.bet, d2, true, sqrt) }

  /** `root_third_left`. */
  function RootThirdLeft(p: Psqe, d3: real, sqrt: real -> real): Answer { ParabRoot(p.b, p.dfb, p.alp, d3, true, sqrt) }

  /** `root_first_right`. */
  function RootFirstRight(p: Psqe, d1: real, sqrt: real -> real): Answer { ParabRoot(p.a, p.dfa, p.alp, d1, false, sqrt) }

  /** `root_second_right`. */
  function RootSecondRight(p: Psqe, d2: real, sqrt: real -> real): Answer { ParabRoot(p.c, D1(p, p.c), p.bet, d2, false, sqrt) }

  /** `root_third_right`. */
  function RootThirdRight(p: Psqe, d3: real, sqrt: real -> real): Answer { ParabRoot(p.b, p.dfb, p.alp, d3, false, sqrt) }

  /** Completing the square: `k` times twice the parabola's value at offset `t`. */
  lemma CompletedSquare(v: real, s: real, k: real, t: real)
    ensures 2.0 * k * (v + s * t + 0.5 * k * t * t) == (k * t + s) * (k * t + s) - (s * s - 2.0 * k * v)
  {
  }

  /** A point whose slope `k (x - e) + s` squares to the discriminant is a zero of the parabola. */
  lemma ZeroAtOffset(v: real, s: real, k: real, e: real, x: real, w: real)
    requires k != 0.0 && k * (x - e) + s == w && w * w == Disc(v, s, k)
    ensures Parab(v, s, k, e, x) == 0.0
  {
    var t := x - e;
    CompletedSquare(v, s, k, t);
    var q := v + s * t + 0.5 * k * t * t;
    assert (2.0 * k) * q == 0.0;
    RealFacts.CancelFactor(q, 0.0, 2.0 * k);
  }

  /** With the parabola's own discriminant, the root formula gives a zero of the parabola. */
  lemma ParabRootZeroes(v: real, s: real, k: real, e: real, disc: real, left: bool, sqrt: real -> real)
    requires disc == Disc(v, s, k) && RealFacts.SqrtAt(sqrt, disc)
    requires ParabRoot(e, s, k, disc, left, sqrt).Root?
    ensures Parab(v, s, k, e, ParabRoot(e, s, k, disc, left, sqrt).x) == 0.0
  {
    RootSlopes(e, s, k, disc, sqrt);
    var r := sqrt(disc);
    if left {
      assert (-r) * (-r) == r * r;
      ZeroAtOffset(v, s, k, e, ParabRoot(e, s, k, disc, true, sqrt).x, -r);
    } else {
      ZeroAtOffset(v, s, k, e, ParabRoot(e, s, k, disc, false, sqrt).x, r);
    }
  }

  /**
   * A parabola that somewhere takes a value of sign opposite to its
   * curvature (or zero) has a non-negative discriminant: its roots are real.
   */
  lemma RealRoots(v: real, s: real, k: real, e: real, x: real)
    requires k * Parab(v, s, k, e, x) <= 0.0
    ensures 0.0 <= Disc(v, s, k)
  {
    var t := x - e;
    CompletedSquare(v, s, k, t);
    assert Parab(v, s, k, e, x) == v + s * t + 0.5 * k * t * t;
    SquareNonneg(k * t + s);
  }

  /**
   * With a positive curvature, every point where the parabola is not above
   * zero lies between its left and its right root.
   */
  lemma RootsBracket(v: real, s: real, k: real, e: real, z: real, disc: real, sqrt: real -> real)
    requires RealFacts.SqrtAt(sqrt, disc)
    requires 0.0 < k && Parab(v, s, k, e, z) <= 0.0 && disc == Disc(v, s, k)
    ensures ParabRoot(e, s, k, disc, true, sqrt).Root?
    ensures ParabRoot(e, s, k, disc, false, sqrt).Root?
    ensures ParabRoot(e, s, k, disc, true, sqrt).x <= z
    ensures z <= ParabRoot(e, s, k, disc, false, sqrt).x
  {
    SlopeWithinRoot(v, s, k, e, z, disc, sqrt);
    RootSlopes(e, s, k, disc, sqrt);
    BracketOffsets(k, s, e, k * (z - e) + s, sqrt(disc),
                   ParabRoot(e, s, k, disc, true, sqrt).x, ParabRoot(e, s, k, disc, false, sqrt).x, z);
  }

  /** Where the parabola is not above zero, its slope lies within the square root of the discriminant. */
  lemma SlopeWithinRoot(v: real, s: real, k: real, e: real, z: real, disc: real, sqrt: real -> real)
    requires RealFacts.SqrtAt(sqrt, disc)
    requires 0.0 < k && Parab(v, s, k, e, z) <= 0.0 && disc == Disc(v, s, k)
    ensures 0.0 <= disc && -sqrt(disc) <= k * (z - e) + s <= sqrt(disc)
  {
    var u := k * (z - e) + s;
    SquareBelowDiscriminant(v, s, k, e, z, z - e, disc, u);
    SquareNonneg(u);
    WithinSquareRoot(u, sqrt(disc));
  }

  /**
   * With a positive curvature and the parabola not above zero at `c`, its
   * left root lies at or before any `z` that is past `c` or where the
   * parabola is not above zero either.
   */
  lemma LeftRootFirst(v: real, s: real, k: real, e: real, c: real, z: real, disc: real, sqrt: real -> real)
    requires RealFacts.SqrtAt(sqrt, disc) && disc == Disc(v, s, k)
    requires 0.0 < k && Parab(v, s, k, e, c) <= 0.0
    requires z < c ==> Parab(v, s, k, e, z) <= 0.0
    ensures ParabRoot(e, s, k, disc, true, sqrt).Root? && ParabRoot(e, s, k, disc, true, sqrt).x <= z
  {
    RootsBracket(v, s, k, e, c, disc, sqrt);
    if z < c {
      RootsBracket(v, s, k, e, z, disc, sqrt);
    }
  }

  /** The mirror image: the right root lies at or after any `z` before `d` or where the parabola is not above zero. */
  lemma RightRootLast(v: real, s: real, k: real, e: real, d: real, z: real, disc: real, sqrt: real -> real)
    requires RealFacts.SqrtAt(sqrt, disc) && disc == Disc(v, s, k)
    requires 0.0 < k && Parab(v, s, k, e, d) <= 0.0
    requires d <= z ==> Parab(v, s, k, e, z) <= 0.0
    ensures ParabRoot(e, s, k, disc, false, sqrt).Root? && z <= ParabRoot(e, s, k, disc, false, sqrt).x
  {
    RootsBracket(v, s, k, e, d, disc, sqrt);
    if d <= z {
      RootsBracket(v, s, k, e, z, disc, sqrt);
    }
  }

  /** The slope of the parabola at its left root is `-sqrt(disc)`, at its right root `sqrt(disc)`. */
  lemma RootSlopes(e: real, s: real, k: real, disc: real, sqrt: real -> real)
    requires 0.0 <= disc && k != 0.0
    ensures ParabRoot(e, s, k, disc, true, sqrt).Root? && ParabRoot(e, s, k, disc, false, sqrt).Root?
    ensures k * (ParabRoot(e, s, k, disc, true, sqrt).x - e) + s == -sqrt(disc)
    ensures k * (ParabRoot(e, s, k, disc, false, sqrt).x - e) + s == sqrt(disc)
  {
  }

  /** The two roots bracket a point `z` whose slope `u` lies in `[-w, w]`. */
  lemma BracketOffsets(k: real, s: real, e: real, u: real, w: real, lx: real, rx: real, z: real)
    requires 0.0 < k && -w <= u <= w
    requires k * (lx - e) + s == -w && k * (rx - e) + s == w && u == k * (z - e) + s
    ensures lx <= z <= rx
  {
    OffsetOrder(k, lx - e, z - e);
    OffsetOrder(k, z - e, rx - e);
  }


  /** Where the parabola is not above zero, its slope squared is at most the discriminant. */
  lemma SquareBelowDiscriminant(v: real, s: real, k: real, e: real, z: real, t: real, disc: real, u: real)
    requires 0.0 < k && Parab(v, s, k, e, z) <= 0.0 && t == z - e
    requires disc == Disc(v, s, k) && u == k * t + s
    ensures u * u <= disc
  {
    assert Parab(v, s, k, e, z) == v + s * t + 0.5 * k * t * t;
    CompletedSquare(v, s, k, t);
    RealFacts.MulNonneg(2.0 * k, -(v + s * t + 0.5 * k * t * t));
  }

  /** A number whose square is at most `w * w`, for `w >= 0`, lies in `[-w, w]`. */
  lemma WithinSquareRoot(u: real, w: real)
    requires 0.0 <= w && u * u <= w * w
    ensures -w <= u <= w
  {
    var m := if u < 0.0 then -u else u;
    assert m * m == u * u;
    RealFacts.SquaresOrdered(m, w);
  }

  /** A positive curvature keeps the order of offsets. */
  lemma OffsetOrder(k: real, t1: real, t2: real)
    requires 0.0 < k && k * t1 <= k * t2
    ensures t1 <= t2
  {
    if t2 < t1 { RealFacts.MulPos(k, t1 - t2); }
  }

  /** The first piece's root formulas with `delta_first` give zeros of `q1`. */
  lemma FirstRootsZeroQ1(p: Psqe, left: bool, sqrt: real -> real)
    requires RealFacts.IsSqrt(sqrt)
    requires ParabRoot(p.a, p.dfa, p.alp, DeltaFirst(p), left, sqrt).Root?
    ensures Q1(p, ParabRoot(p.a, p.dfa, p.alp, DeltaFirst(p), left, sqrt).x) == 0.0
  {
    RealFacts.SqrtAtEach(sqrt, DeltaFirst(p));
    ParabRootZeroes(p.fa, p.dfa, p.alp, p.a, DeltaFirst(p), left, sqrt);
  }

  /** The second piece's root formulas with `delta_second` give zeros of `q2`. */
  lemma SecondRootsZeroQ2(p: Psqe, left: bool, sqrt: real -> real)
    requires RealFacts.IsSqrt(sqrt)
    requires ParabRoot(p.c, D1(p, p.c), p.bet, DeltaSecond(p), left, sqrt).Root?
    ensures Q2(p, ParabRoot(p.c, D1(p, p.c), p.bet, DeltaSecond(p), left, sqrt).x) == 0.0
  {
    RealFacts.SqrtAtEach(sqrt, DeltaSecond(p));
    ParabRootZeroes(Q1(p, p.c), D1(p, p.c), p.bet, p.c, DeltaSecond(p), left, sqrt);
  }

  /** The third piece's root formulas with `delta_third` give zeros of `q3`. */
  lemma ThirdRootsZeroQ3(p: Psqe, left: bool, sqrt: real -> real)
    requires RealFacts.IsSqrt(sqrt)
    requires ParabRoot(p.b, p.dfb, p.alp, DeltaThird(p), left, sqrt).Root?
    ensures Q3(p, ParabRoot(p.b, p.dfb, p.alp, DeltaThird(p), left, sqrt).x) == 0.0
  {
    RealFacts.SqrtAtEach(sqrt, DeltaThird(p));
    ParabRootZeroes(p.fb, p.dfb, p.alp, p.b, DeltaThird(p), left, sqrt);
  }

  /** Some piece of the estimator vanishes at `x`. */
  predicate ZeroOfPiece(p: Psqe, x: real)
  {
    Q1(p, x) == 0.0 || Q2(p, x) == 0.0 || Q3(p, x) == 0.0
  }

  /**
   * `get_left_end`: scanning the pieces from the left, the left root of the
   * first piece whose right end is not above zero, or of the first piece
   * that `under_est_der_le_0` accepts with a real root.  The class calls an
   * `under_est_der_le_0` it does not define; here it is the parameter `derLe0`.
   */
  function GetLeftEnd(p: Psqe, derLe0: (real, real) -> bool, sqrt: real -> real): (r: Answer)
    ensures r.NoRoot? <==>
      0.0 < Underestimator(p, p.c) && !(derLe0(p.a, p.c) && DeltaFirst(p) >= 0.0)
      && 0.0 < Underestimator(p, p.d) && !(derLe0(p.c, p.d) && DeltaSecond(p) >= 0.0)
      && 0.0 < Underestimator(p, p.b) && !(derLe0(p.d, p.b) && DeltaThird(p) >= 0.0)
  {
    if Underestimator(p, p.c) <= 0.0 then RootFirstLeft(p, DeltaFirst(p), sqrt)
    else if derLe0(p.a, p.c) && DeltaFirst(p) >= 0.0 then RootFirstLeft(p, DeltaFirst(p), sqrt)
    else if Underestimator(p, p.d) <= 0.0 then RootSecondLeft(p, DeltaSecond(p), sqrt)
    else if derLe0(p.c, p.d) && DeltaSecond(p) >= 0.0 then RootSecondLeft(p, DeltaSecond(p), sqrt)
    else if Underestimator(p, p.b) <= 0.0 then RootThirdLeft(p, DeltaThird(p), sqrt)
    else if derLe0(p.d, p.b) && DeltaThird(p) >= 0.0 then RootThirdLeft(p, DeltaThird(p), sqrt)
    else NoRoot
  }

  /** Every point `get_left_end` returns is a zero of one of the pieces. */
  lemma GetLeftEndIsZero(p: Psqe, derLe0: (real, real) -> bool, sqrt: real -> real)
    requires RealFacts.IsSqrt(sqrt)
    ensures GetLeftEnd(p, derLe0, sqrt).Root? ==> ZeroOfPiece(p, GetLeftEnd(p, derLe0, sqrt).x)
  {
    if Underestimator(p, p.c) <= 0.0 || (derLe0(p.a, p.c) && DeltaFirst(p) >= 0.0) {
      if RootFirstLeft(p, DeltaFirst(p), sqrt).Root? { FirstRootsZeroQ1(p, true, sqrt); }
    } else if Underestimator(p, p.d) <= 0.0 || (derLe0(p.c, p.d) && DeltaSecond(p) >= 0.0) {
      if RootSecondLeft(p, DeltaSecond(p), sqrt).Root? { SecondRootsZeroQ2(p, true, sqrt); }
    } else if Underestimator(p, p.b) <= 0.0 || (derLe0(p.d, p.b) && DeltaThird(p) >= 0.0) {
      if RootThirdLeft(p, DeltaThird(p), sqrt).Root? { ThirdRootsZeroQ3(p, true, sqrt); }
    }
  }

  /**
   * On an ordered estimator with `alp > 0`, a first piece that is not above
   * zero at `c` always yields a real root of `q1`: the answer is a number.
   */
  lemma GetLeftEndFindsFirstRoot(p: Psqe, derLe0: (real, real) -> bool, sqrt: real -> real)
    requires RealFacts.IsSqrt(sqrt)
    requires Ordered(p) && 0.0 < p.alp && Underestimator(p, p.c) <= 0.0
    ensures GetLeftEnd(p, derLe0, sqrt).Root? && Q1(p, GetLeftEnd(p, derLe0, sqrt).x) == 0.0
  {
    OnPieces(p, p.c);
    RealFacts.MulNonneg(p.alp, -Q1(p, p.c));
    RealRoots(p.fa, p.dfa, p.alp, p.a, p.c);
    FirstRootsZeroQ1(p, true, sqrt);
  }

  /**
   * With `alp > 0` and the first piece not above zero at `c`, the left root
   * of `q1` is the first point where the estimator is not above zero: every
   * such point lies at or after it.
   */
  lemma FirstLeftRootIsFirst(p: Psqe, sqrt: real -> real, z: real)
    requires RealFacts.IsSqrt(sqrt)
    requires 0.0 < p.alp && Q1(p, p.c) <= 0.0 && Underestimator(p, z) <= 0.0
    ensures RootFirstLeft(p, DeltaFirst(p), sqrt).Root?
    ensures RootFirstLeft(p, DeltaFirst(p), sqrt).x <= z
  {
    var disc := DeltaFirst(p);
    RealFacts.SqrtAtEach(sqrt, disc);
    LeftRootFirst(p.fa, p.dfa, p.alp, p.a, p.c, z, disc, sqrt);
  }

  /**
   * With `alp > 0`, `c <= d` and the third piece not above zero at `d`, the
   * right root of `q3` is the last point where the estimator is not above
   * zero: every such point lies at or before it.
   */
  lemma ThirdRightRootIsLast(p: Psqe, sqrt: real -> real, z: real)
    requires RealFacts.IsSqrt(sqrt)
    requires 0.0 < p.alp && p.c <= p.d && Q3(p, p.d) <= 0.0 && Underestimator(p, z) <= 0.0
    ensures RootThirdRight(p, DeltaThird(p), sqrt).Root?
    ensures z <= RootThirdRight(p, DeltaThird(p), sqrt).x
  {
    var disc := DeltaThird(p);
    RealFacts.SqrtAtEach(sqrt, disc);
    RightRootLast(p.fb, p.dfb, p.alp, p.b, p.d, z, disc, sqrt);
  }

  /**
   * `get_right_end2` as written: scanning the pieces from the right.  In its
   * last branch it tests and uses `delta_third` for the first piece.
   */
  function GetRightEnd2(p: Psqe, derLe0: (real, real) -> bool, sqrt: real -> real): (r: Answer)
    ensures r.NoRoot? <==>
      0.0 < Underestimator(p, p.d) && !(derLe0(p.d, p.b) && DeltaThird(p) >= 0.0)
      && 0.0 < Underestimator(p, p.c) && !(derLe0(p.c, p.d) && DeltaSecond(p) >= 0.0)
      && 0.0 < Underestimator(p, p.a) && !(derLe0(p.a, p.c) && DeltaThird(p) >= 0.0)
  {
    if Underestimator(p, p.d) <= 0.0 then RootThirdRight(p, DeltaThird(p), sqrt)
    else if derLe0(p.d, p.b) && DeltaThird(p) >= 0.0 then RootThirdRight(p, DeltaThird(p), sqrt)
    else if Underestimator(p, p.c) <= 0.0 then RootSecondRight(p, DeltaSecond(p), sqrt)
    else if derLe0(p.c, p.d) && DeltaSecond(p) >= 0.0 then RootSecondRight(p, DeltaSecond(p), sqrt)
    else if Underestimator(p, p.a) <= 0.0 then RootFirstRight(p, DeltaFirst(p), sqrt)
    else if derLe0(p.a, p.c) && DeltaThird(p) >= 0.0 then RootFirstRight(p, DeltaThird(p), sqrt)
    else NoRoot
  }

  /** `get_right_end2` with `delta_first` in its last branch, as the first piece needs. */
  function GetRightEnd2Corrected(p: Psqe, derLe0: (real, real) -> bool, sqrt: real -> real): (r: Answer)
    ensures r.NoRoot? <==>
      0.0 < Underestimator(p, p.d) && !(derLe0(p.d, p.b) && DeltaThird(p) >= 0.0)
      && 0.0 < Underestimator(p, p.c) && !(derLe0(p.c, p.d) && DeltaSecond(p) >= 0.0)
      && 0.0 < Underestimator(p, p.a) && !(derLe0(p.a, p.c) && DeltaFirst(p) >= 0.0)
  {
    if Underestimator(p, p.d) <= 0.0 then RootThirdRight(p, DeltaThird(p), sqrt)
    else if derLe0(p.d, p.b) && DeltaThird(p) >= 0.0 then RootThirdRight(p, DeltaThird(p), sqrt)
    else if Underestimator(p, p.c) <= 0.0 then RootSecondRight(p, DeltaSecond(p), sqrt)
    else if derLe0(p.c, p.d) && DeltaSecond(p) >= 0.0 then RootSecondRight(p, DeltaSecond(p), sqrt)
    else if Underestimator(p, p.a) <= 0.0 then RootFirstRight(p, DeltaFirst(p), sqrt)
    else if derLe0(p.a, p.c) && DeltaFirst(p) >= 0.0 then RootFirstRight(p, DeltaFirst(p), sqrt)
    else NoRoot
  }

  /** Every point the corrected `get_right_end2` returns is a zero of one of the pieces. */
  lemma GetRightEnd2CorrectedIsZero(p: Psqe, derLe0: (real, real) -> bool, sqrt: real -> real)
    requires RealFacts.IsSqrt(sqrt)
    ensures GetRightEnd2Corrected(p, derLe0, sqrt).Root? ==> ZeroOfPiece(p, GetRightEnd2Corrected(p, derLe0, sqrt).x)
  {
    if Underestimator(p, p.d) <= 0.0 || (derLe0(p.d, p.b) && DeltaThird(p) >= 0.0) {
      if RootThirdRight(p, DeltaThird(p), sqrt).Root? { ThirdRootsZeroQ3(p, false, sqrt); }
    } else if Underestimator(p, p.c) <= 0.0 || (derLe0(p.c, p.d) && DeltaSecond(p) >= 0.0) {
      if RootSecondRight(p, DeltaSecond(p), sqrt).Root? { SecondRootsZeroQ2(p, false, sqrt); }
    } else if Underestimator(p, p.a) <= 0.0 || (derLe0(p.a, p.c) && DeltaFirst(p) >= 0.0) {
      if RootFirstRight(p, DeltaFirst(p), sqrt).Root? { FirstRootsZeroQ1(p, false, sqrt); }
    }
  }

  /**
   * The estimator built on `[0, 1]` from `alp = 2, bet = 4` and the data
   * `f(0) = 1/4, f(1) = 1, f'(0) = -1/2, f'(1) = 2` (so `c = 3/8`,
   * `d = 5/8`), with `under_est_der_le_0` accepting only `[a, c]`: as
   * written, `get_right_end2` answers `1/4`, where no piece vanishes and the
   * estimator is `3/16`; the corrected query answers `None`.  Of the
   * square root only its value at 0 matters here.
   */
  lemma GetRightEnd2ReturnsNonZero(p: Psqe, derLe0: (real, real) -> bool, sqrt: real -> real)
    requires sqrt(0.0) == 0.0
    requires p.a == 0.0 && p.b == 1.0 && p.alp == 2.0 && p.bet == 4.0
    requires p.fa == 0.25 && p.fb == 1.0 && p.dfa == -0.5 && p.dfb == 2.0
    requires p.c == 0.375 && p.d == 0.625
    requires derLe0(0.0, 0.375) && !derLe0(0.375, 0.625) && !derLe0(0.625, 1.0)
    ensures Joined(p)
    ensures GetRightEnd2(p, derLe0, sqrt) == Root(0.25)
    ensures !ZeroOfPiece(p, 0.25) && Underestimator(p, 0.25) == 0.1875
    ensures GetRightEnd2Corrected(p, derLe0, sqrt) == NoRoot
  {
    ExampleAsWritten(p, derLe0, sqrt);
    ExampleCorrected(p, derLe0, sqrt);
    ExampleValues(p);
    ExampleJoined(p);
  }

  /** On that estimator, `get_right_end2` as written answers `1/4`. */
  lemma ExampleAsWritten(p: Psqe, derLe0: (real, real) -> bool, sqrt: real -> real)
    requires sqrt(0.0) == 0.0
    requires p.a == 0.0 && p.b == 1.0 && p.alp == 2.0 && p.bet == 4.0
    requires p.fa == 0.25 && p.fb == 1.0 && p.dfa == -0.5 && p.dfb == 2.0
    requires p.c == 0.375 && p.d == 0.625
    requires derLe0(0.0, 0.375) && !derLe0(0.375, 0.625) && !derLe0(0.625, 1.0)
    ensures GetRightEnd2(p, derLe0, sqrt) == Root(0.25)
  {
    ExampleValues(p);
    assert !derLe0(p.d, p.b) && !derLe0(p.c, p.d) && derLe0(p.a, p.c);
    RightEnd2TakesFirstPiece(p, derLe0, sqrt);
    ExampleRoot(p, sqrt);
  }

  /** On that estimator, the corrected query answers `None`. */
  lemma ExampleCorrected(p: Psqe, derLe0: (real, real) -> bool, sqrt: real -> real)
    requires p.a == 0.0 && p.b == 1.0 && p.alp == 2.0 && p.bet == 4.0
    requires p.fa == 0.25 && p.fb == 1.0 && p.dfa == -0.5 && p.dfb == 2.0
    requires p.c == 0.375 && p.d == 0.625
    requires !derLe0(0.375, 0.625) && !derLe0(0.625, 1.0)
    ensures GetRightEnd2Corrected(p, derLe0, sqrt) == NoRoot
  {
    ExampleValues(p);
    assert !derLe0(p.d, p.b) && !derLe0(p.c, p.d);
    RightEnd2CorrectedFindsNothing(p, derLe0, sqrt);
  }

  /** Where only the first piece is accepted, `get_right_end2` takes its right root with `delta_third`. */
  lemma RightEnd2TakesFirstPiece(p: Psqe, derLe0: (real, real) -> bool, sqrt: real -> real)
    requires 0.0 < Underestimator(p, p.a) && 0.0 < Underestimator(p, p.c) && 0.0 < Underestimator(p, p.d)
    requires !derLe0(p.d, p.b) && !derLe0(p.c, p.d) && derLe0(p.a, p.c) && DeltaThird(p) >= 0.0
    ensures GetRightEnd2(p, derLe0, sqrt) == RootFirstRight(p, DeltaThird(p), sqrt)
  {
  }

  /** There the corrected query finds nothing when `delta_first` is negative. */
  lemma RightEnd2CorrectedFindsNothing(p: Psqe, derLe0: (real, real) -> bool, sqrt: real -> real)
    requires 0.0 < Underestimator(p, p.a) && 0.0 < Underestimator(p, p.c) && 0.0 < Underestimator(p, p.d)
    requires !derLe0(p.d, p.b) && !derLe0(p.c, p.d) && DeltaFirst(p) < 0.0
    ensures GetRightEnd2Corrected(p, derLe0, sqrt) == NoRoot
  {
  }

  /** The right root of the first piece of that estimator, taken with `delta_third = 0`. */
  lemma ExampleRoot(p: Psqe, sqrt: real -> real)
    requires p.a == 0.0 && p.alp == 2.0 && p.dfa == -0.5
    requires DeltaThird(p) == 0.0 && sqrt(0.0) == 0.0
    ensures RootFirstRight(p, DeltaThird(p), sqrt) == Root(0.25)
  {
    var r := RootFirstRight(p, DeltaThird(p), sqrt);
    assert r.Root? && p.alp * (r.x - p.a) + p.dfa == 0.0;
  }

  /** The estimator of `GetRightEnd2ReturnsNonZero` is a joined one. */
  lemma ExampleJoined(p: Psqe)
    requires p.a == 0.0 && p.b == 1.0 && p.alp == 2.0 && p.bet == 4.0
    requires p.fa == 0.25 && p.fb == 1.0 && p.dfa == -0.5 && p.dfb == 2.0
    requires p.c == 0.375 && p.d == 0.625
    ensures Joined(p)
  {
    assert p == Psqe(0.0, 1.0, 2.0, 4.0, 0.25, 1.0, -0.5, 2.0, 0.375, 0.625);
  }

  /** The values of the estimator of `GetRightEnd2ReturnsNonZero` at its breakpoints and at `1/4`. */
  lemma ExampleValues(p: Psqe)
    requires p.a == 0.0 && p.b == 1.0 && p.alp == 2.0 && p.bet == 4.0
    requires p.fa == 0.25 && p.fb == 1.0 && p.dfa == -0.5 && p.dfb == 2.0
    requires p.c == 0.375 && p.d == 0.625
    ensures DeltaThird(p) == 0.0 && DeltaFirst(p) == -0.75
    ensures Underestimator(p, p.a) == 0.25 && Underestimator(p, p.c) == 0.203125 && Underestimator(p, p.d) == 0.390625
    ensures !ZeroOfPiece(p, 0.25) && Underestimator(p, 0.25) == 0.1875
  {
    assert p == Psqe(0.0, 1.0, 2.0, 4.0, 0.25, 1.0, -0.5, 2.0, 0.375, 0.625);
  }
}
