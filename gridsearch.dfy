/**
 * `grid_search` of gridsearch.py: the smallest value of `f` over the
 * uniform grid `numpy.arange(a, b, s)`.
 */
module GridSearch {
  import opened Common

  /**
   * The number of grid points `numpy.arange` produces: `ceil((b - a) / s)`,
   * or none when that is not positive.
   */
  function PointCount(a: real, b: real, s: real): (n: nat)
    requires s != 0.0
  {
    var q := (b - a) / s;
    if q <= 0.0 then 0 else -((-q).Floor)
  }

  /** `q * s` is below `b - a` exactly when `q` is below `(b - a) / s`, for a positive step. */
  lemma ScaleBelow(q: real, a: real, b: real, s: real)
    requires 0.0 < s
    ensures q < (b - a) / s <==> a + q * s < b
  {
    var d := (b - a) / s;
    assert d * s == b - a;
    if q < d {
      assert q * s < d * s;
    }
    if a + q * s < b {
      assert q * s < d * s;
    }
  }

  /** The same for a negative step, with the comparison reversed. */
  lemma ScaleAbove(q: real, a: real, b: real, s: real)
    requires s < 0.0
    ensures q < (b - a) / s <==> a + q * s > b
  {
    var d := (b - a) / s;
    assert d * s == b - a;
    if q < d {
      assert q * s > d * s;
    }
    if a + q * s > b {
      assert q * s > d * s;
    }
  }

  /**
   * `numpy.arange(a, b, s)` (line 15): `a, a + s, a + 2s, ...` while
   * strictly before `b` in the direction of `s`; a zero step raises.
   */
  function Grid(a: real, b: real, s: real): (r: Result<seq<real>>)
    ensures r.Ok? <==> s != 0.0
    ensures r.Ok? ==> forall k :: 0 <= k < |r.value| ==> r.value[k] == a + k as real * s
    ensures r.Ok? && 0.0 < s ==> (forall k :: 0 <= k < |r.value| ==> r.value[k] < b) && b <= a + |r.value| as real * s
    ensures r.Ok? && s < 0.0 ==> (forall k :: 0 <= k < |r.value| ==> r.value[k] > b) && b >= a + |r.value| as real * s
  {
    if s == 0.0 then Fail("ZeroDivisionError")
    else
      var n := PointCount(a, b, s);
      var pts := seq(n, k requires 0 <= k < n => a + k as real * s);
      GridFacts(a, b, s, pts);
      Ok(pts)
  }

  /** The grid's points lie before `b` and the next point would not. */
  lemma GridFacts(a: real, b: real, s: real, pts: seq<real>)
    requires s != 0.0
    requires |pts| == PointCount(a, b, s)
    requires forall k :: 0 <= k < |pts| ==> pts[k] == a + k as real * s
    ensures 0.0 < s ==> (forall k :: 0 <= k < |pts| ==> pts[k] < b) && b <= a + |pts| as real * s
    ensures s < 0.0 ==> (forall k :: 0 <= k < |pts| ==> pts[k] > b) && b >= a + |pts| as real * s
  {
    var q := (b - a) / s;
    var n := |pts|;
    // n is the least natural number at least q.
    assert n as real >= q;
    forall k | 0 <= k < n
      ensures 0.0 < s ==> pts[k] < b
      ensures s < 0.0 ==> pts[k] > b
    {
      if 0.0 < s {
        ScaleBelow(k as real, a, b, s);
      } else {
        ScaleAbove(k as real, a, b, s);
      }
    }
    if 0.0 < s {
      ScaleBelow(n as real, a, b, s);
    } else {
      ScaleAbove(n as real, a, b, s);
    }
  }

  /**
   * `grid_search` (lines 3-23): `None` where the grid is empty (the
   * source's `(nan, nan)`), otherwise a grid point `x` with `f(x)` the
   * smallest value on the grid, the first such point when values tie; a
   * zero step raises.
   */
  method Search(f: real -> real, a: real, b: real, s: real) returns (r: Result<Option<(real, real)>>)
    ensures r.Ok? <==> s != 0.0
    ensures r.Ok? ==> var pts := Grid(a, b, s).value;
                      (r.value.None? <==> |pts| == 0)
                      && (r.value.Some? ==>
                            var (xr, fr) := r.value.value;
                            fr == f(xr)
                            && (exists i :: 0 <= i < |pts| && pts[i] == xr
                                            && forall j :: 0 <= j < i ==> fr < f(pts[j]))
                            && forall j :: 0 <= j < |pts| ==> fr <= f(pts[j]))
  {
    var points := Grid(a, b, s);
    if points.Fail? {
      return Fail(points.error);
    }
    var pts := points.value;
    var best: Option<(real, real)> := None;
    ghost var at := 0;
    for k := 0 to |pts|
      invariant best.None? <==> k == 0
      invariant best.Some? ==> 0 <= at < k && best.value.0 == pts[at] && best.value.1 == f(pts[at])
                               && (forall j :: 0 <= j < at ==> best.value.1 < f(pts[j]))
                               && forall j :: 0 <= j < k ==> best.value.1 <= f(pts[j])
    {
      var x := pts[k];
      var fn := f(x);
      if best.None? || fn < best.value.1 {
        best := Some((x, fn));
        at := k;
      }
    }
    return Ok(best);
  }
}
