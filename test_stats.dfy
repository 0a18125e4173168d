/**
 * The column statistics FZCP/test.py reports over its result matrices
 * (one row per test problem, one column per method): the largest, the
 * smallest and the average entry of each column, and the same over the
 * ratios of each entry to the row's entry in the last column of the first
 * row's width.
 *
 * The source indexes `matrix[0]` and every `matrix[i][j]` for `j` below the
 * first row's width, so an empty matrix or a shorter row raises, and so
 * does a zero in the ratio column.
 */
module MatrixStats {
  import opened Common
  import RealFacts

  /** Every index the statistics read exists: a first row, and no row shorter than it. */
  predicate Rectangular(m: seq<seq<real>>)
  {
    |m| > 0 && forall i :: 0 <= i < |m| ==> |m[0]| <= |m[i]|
  }

  /** The ratio variants can divide: no zero in the last column of the first row's width. */
  predicate RatiosDefined(m: seq<seq<real>>)
  {
    Rectangular(m) && (|m[0]| > 0 ==> forall i :: 0 <= i < |m| ==> m[i][|m[0]| - 1] != 0.0)
  }

  /**
   * `matrix[i][j] / matrix[i][end]` for every row and every column of the
   * first row's width; the last column is all ones.
   */
  function Ratios(m: seq<seq<real>>): (q: seq<seq<real>>)
    requires RatiosDefined(m)
    ensures |q| == |m| && Rectangular(q)
    ensures forall i :: 0 <= i < |q| ==> |q[i]| == |m[0]|
    ensures forall i, j :: 0 <= i < |q| && 0 <= j < |m[0]| ==> q[i][j] * m[i][|m[0]| - 1] == m[i][j]
    ensures |m[0]| > 0 ==> forall i :: 0 <= i < |q| ==> q[i][|m[0]| - 1] == 1.0
  {
    var w := |m[0]|;
    seq(|m|, i requires 0 <= i < |m| => seq(w, j requires 0 <= j < w => m[i][j] / m[i][w - 1]))
  }

  /** The sum of column `j` over the first `n` rows. */
  function ColumnSum(m: seq<seq<real>>, j: nat, n: nat): real
    requires n <= |m| && forall i :: 0 <= i < n ==> j < |m[i]|
  {
    if n == 0 then 0.0 else ColumnSum(m, j, n - 1) + m[n - 1][j]
  }

  /** The column average lies between any bounds of the column's entries. */
  lemma {:induction false} SumBetween(m: seq<seq<real>>, j: nat, n: nat, lo: real, hi: real)
    requires n <= |m| && forall i :: 0 <= i < n ==> j < |m[i]|
    requires forall i :: 0 <= i < n ==> lo <= m[i][j] <= hi
    ensures n as real * lo <= ColumnSum(m, j, n) <= n as real * hi
  {
    if n > 0 {
      SumBetween(m, j, n - 1, lo, hi);
    }
  }

  /** A column of ones sums to the number of rows. */
  lemma {:induction false} SumOfOnes(m: seq<seq<real>>, j: nat, n: nat)
    requires n <= |m| && forall i :: 0 <= i < n ==> j < |m[i]| && m[i][j] == 1.0
    ensures ColumnSum(m, j, n) == n as real
  {
    if n > 0 {
      SumOfOnes(m, j, n - 1);
    }
  }

  /**
   * `getMax` (lines 28-36): per column, an entry of the column that no
   * entry exceeds.
   */
  method ColumnMax(m: seq<seq<real>>) returns (r: Result<seq<real>>)
    ensures r.Ok? <==> Rectangular(m)
    ensures r.Ok? ==> |r.value| == |m[0]|
                      && forall j :: 0 <= j < |r.value| ==>
                           (forall i :: 0 <= i < |m| ==> m[i][j] <= r.value[j])
                           && exists i :: 0 <= i < |m| && m[i][j] == r.value[j]
  {
    if !Rectangular(m) {
      return Fail("IndexError");
    }
    var maxValues := [];
    for j := 0 to |m[0]|
      invariant |maxValues| == j
      invariant forall c :: 0 <= c < j ==>
                  (forall i :: 0 <= i < |m| ==> m[i][c] <= maxValues[c])
                  && exists i :: 0 <= i < |m| && m[i][c] == maxValues[c]
    {
      var maxValue := m[0][j];
      ghost var at := 0;
      for i := 0 to |m|
        invariant 0 <= at < |m| && m[at][j] == maxValue
        invariant forall k :: 0 <= k < i ==> m[k][j] <= maxValue
        invariant m[0][j] <= maxValue
      {
        if m[i][j] > maxValue {
          maxValue := m[i][j];
          at := i;
        }
      }
      maxValues := maxValues + [maxValue];
    }
    return Ok(maxValues);
  }

  /**
   * `getMin` (lines 51-59): per column, an entry of the column that no
   * entry is below.
   */
  method ColumnMin(m: seq<seq<real>>) returns (r: Result<seq<real>>)
    ensures r.Ok? <==> Rectangular(m)
    ensures r.Ok? ==> |r.value| == |m[0]|
                      && forall j :: 0 <= j < |r.value| ==>
                           (forall i :: 0 <= i < |m| ==> r.value[j] <= m[i][j])
                           && exists i :: 0 <= i < |m| && m[i][j] == r.value[j]
  {
    if !Rectangular(m) {
      return Fail("IndexError");
    }
    var minValues := [];
    for j := 0 to |m[0]|
      invariant |minValues| == j
      invariant forall c :: 0 <= c < j ==>
                  (forall i :: 0 <= i < |m| ==> minValues[c] <= m[i][c])
                  && exists i :: 0 <= i < |m| && m[i][c] == minValues[c]
    {
      var minValue := m[0][j];
      ghost var at := 0;
      for i := 0 to |m|
        invariant 0 <= at < |m| && m[at][j] == minValue
        invariant forall k :: 0 <= k < i ==> minValue <= m[k][j]
        invariant minValue <= m[0][j]
      {
        if m[i][j] < minValue {
          minValue := m[i][j];
          at := i;
        }
      }
      minValues := minValues + [minValue];
    }
    return Ok(minValues);
  }

  /** `getAvg` (lines 74-82): per column, the sum of the column over the number of rows. */
  method ColumnAvg(m: seq<seq<real>>) returns (r: Result<seq<real>>)
    ensures r.Ok? <==> Rectangular(m)
    ensures r.Ok? ==> |r.value| == |m[0]|
                      && forall j :: 0 <= j < |r.value| ==> r.value[j] * |m| as real == ColumnSum(m, j, |m|)
  {
    if !Rectangular(m) {
      return Fail("IndexError");
    }
    var avgValues := [];
    for j := 0 to |m[0]|
      invariant |avgValues| == j
      invariant forall c :: 0 <= c < j ==> avgValues[c] * |m| as real == ColumnSum(m, c, |m|)
    {
      var sumValue := 0.0;
      for i := 0 to |m|
        invariant sumValue == ColumnSum(m, j, i)
      {
        sumValue := sumValue + m[i][j];
      }
      avgValues := avgValues + [sumValue / |m| as real];
    }
    return Ok(avgValues);
  }

  /** Each column's average lies between its smallest and its largest entry. */
  lemma AvgBetweenMinAndMax(m: seq<seq<real>>, j: nat, lo: real, avg: real, hi: real)
    requires Rectangular(m) && j < |m[0]|
    requires forall i :: 0 <= i < |m| ==> lo <= m[i][j] <= hi
    requires avg * |m| as real == ColumnSum(m, j, |m|)
    ensures lo <= avg <= hi
  {
    SumBetween(m, j, |m|, lo, hi);
    var n := |m| as real;
    assert n * (avg - lo) == avg * n - n * lo;
    RealFacts.NonnegFactor(n, avg - lo);
    assert n * (hi - avg) == n * hi - avg * n;
    RealFacts.NonnegFactor(n, hi - avg);
  }

  /**
   * `getMaxRatio` (lines 39-48): `getMax` over the ratios; the ratio
   * column's maximum is 1.
   */
  method ColumnMaxRatio(m: seq<seq<real>>) returns (r: Result<seq<real>>)
    ensures r.Ok? <==> RatiosDefined(m)
    ensures r.Ok? ==> var q := Ratios(m);
                      |r.value| == |m[0]|
                      && forall j :: 0 <= j < |r.value| ==>
                           (forall i :: 0 <= i < |m| ==> q[i][j] <= r.value[j])
                           && exists i :: 0 <= i < |m| && q[i][j] == r.value[j]
    ensures r.Ok? && |m[0]| > 0 ==> r.value[|m[0]| - 1] == 1.0
  {
    if !RatiosDefined(m) {
      return Fail(if Rectangular(m) then "ZeroDivisionError" else "IndexError");
    }
    r := ColumnMax(Ratios(m));
  }

  /**
   * `getMinRatio` (lines 62-71): `getMin` over the ratios; the ratio
   * column's minimum is 1.
   */
  method ColumnMinRatio(m: seq<seq<real>>) returns (r: Result<seq<real>>)
    ensures r.Ok? <==> RatiosDefined(m)
    ensures r.Ok? ==> var q := Ratios(m);
                      |r.value| == |m[0]|
                      && forall j :: 0 <= j < |r.value| ==>
                           (forall i :: 0 <= i < |m| ==> r.value[j] <= q[i][j])
                           && exists i :: 0 <= i < |m| && q[i][j] == r.value[j]
    ensures r.Ok? && |m[0]| > 0 ==> r.value[|m[0]| - 1] == 1.0
  {
    if !RatiosDefined(m) {
      return Fail(if Rectangular(m) then "ZeroDivisionError" else "IndexError");
    }
    r := ColumnMin(Ratios(m));
  }

  /**
   * `getAvgRatio` (lines 85-94): `getAvg` over the ratios; the ratio
   * column's average is 1.
   */
  method ColumnAvgRatio(m: seq<seq<real>>) returns (r: Result<seq<real>>)
    ensures r.Ok? <==> RatiosDefined(m)
    ensures r.Ok? ==> var q := Ratios(m);
                      |r.value| == |m[0]|
                      && forall j :: 0 <= j < |r.value| ==> r.value[j] * |m| as real == ColumnSum(q, j, |m|)
    ensures r.Ok? && |m[0]| > 0 ==> r.value[|m[0]| - 1] == 1.0
  {
    if !RatiosDefined(m) {
      return Fail(if Rectangular(m) then "ZeroDivisionError" else "IndexError");
    }
    var q := Ratios(m);
    r := ColumnAvg(q);
    if |m[0]| > 0 {
      SumOfOnes(q, |m[0]| - 1, |m|);
    }
  }
}
