/** Outlier suppression (caseStudy6/FLO_CLTV_Prediction.py:61-83).

    `outlier_thresholds` fences a column at 1.5 times the spread between its
    1st and 99th percentiles and rounds both fences with Python's `round`;
    `replace_with_thresholds` then caps the column in place at the upper
    fence. The lower fence is computed and never applied. The percentiles
    come from pandas' interpolating `quantile` and are parameters here;
    arithmetic is exact on reals where the source uses binary floats. */
module Outliers {
  import opened Flo

  /** Python's `round(x)` on a float: the nearest integer, ties to the even one. */
  function RoundHalfEven(x: real): (n: int)
    ensures -(1.0 / 2.0) <= x - n as real <= 1.0 / 2.0
    ensures (x - n as real == 1.0 / 2.0 || n as real - x == 1.0 / 2.0) ==> n % 2 == 0
  {
    var f := x.Floor;
    var d := x - f as real;
    if d < 1.0 / 2.0 then f
    else if d > 1.0 / 2.0 then f + 1
    else if f % 2 == 0 then f
    else f + 1
  }

  /** Rounding never reverses the order of two values. */
  lemma RoundMonotone(x: real, y: real)
    requires x <= y
    ensures RoundHalfEven(x) <= RoundHalfEven(y)
  {
    var a, b := RoundHalfEven(x), RoundHalfEven(y);
    if a > b {
      assert a == b + 1;
      assert x == y;
    }
  }

  /** `outlier_thresholds`: `(round(low_limit), round(up_limit))` for the
      fences low_limit = q01 - 1.5 * (q99 - q01) and up_limit = q99 + 1.5 * (q99 - q01).
      Each rounded fence is within a half of its exact value; with ordered
      percentiles the fences are ordered and the upper one is no lower than
      the rounded 99th percentile. */
  function OutlierThresholds(q01: real, q99: real): (limits: (int, int))
    ensures -(1.0 / 2.0) <= limits.0 as real - (q01 - 3.0 / 2.0 * (q99 - q01)) <= 1.0 / 2.0
    ensures -(1.0 / 2.0) <= limits.1 as real - (q99 + 3.0 / 2.0 * (q99 - q01)) <= 1.0 / 2.0
    ensures q01 <= q99 ==> limits.0 <= limits.1 && RoundHalfEven(q99) <= limits.1
  {
    var iqr := q99 - q01;
    var limits := (RoundHalfEven(q01 - 3.0 / 2.0 * iqr), RoundHalfEven(q99 + 3.0 / 2.0 * iqr));
    if q01 <= q99 then
      RoundMonotone(q01 - 3.0 / 2.0 * iqr, q99 + 3.0 / 2.0 * iqr);
      RoundMonotone(q99, q99 + 3.0 / 2.0 * iqr);
      limits
    else
      limits
  }

  /** The column after `dataframe.loc[dataframe[variable] > up_limit, variable] = up_limit`. */
  function Clip(s: seq<real>, up: real): (r: seq<real>)
    ensures |r| == |s|
    ensures forall i :: 0 <= i < |s| ==> r[i] <= up
    ensures forall i :: 0 <= i < |s| ==> (if s[i] > up then r[i] == up else r[i] == s[i])
  {
    seq(|s|, i requires 0 <= i < |s| => if s[i] > up then up else s[i])
  }

  /** Capping a capped column again changes nothing. */
  lemma ClipIdempotent(s: seq<real>, up: real)
    ensures Clip(Clip(s, up), up) == Clip(s, up)
  {
  }

  /** Values below the lower fence are kept as they are: only the upper fence applies. */
  lemma ClipKeepsLowValues(s: seq<real>, q01: real, q99: real, i: int)
    requires q01 <= q99 && 0 <= i < |s|
    requires s[i] < OutlierThresholds(q01, q99).0 as real
    ensures Clip(s, OutlierThresholds(q01, q99).1 as real)[i] == s[i]
  {
  }

  /** The masked assignment, cell by cell, on the column's own storage. */
  method ClipAbove(a: array<real>, up: real)
    modifies a
    ensures a[..] == Clip(old(a[..]), up)
  {
    var i := 0;
    while i < a.Length
      invariant 0 <= i <= a.Length
      invariant a[..i] == Clip(old(a[..]), up)[..i]
      invariant a[i..] == old(a[..])[i..]
    {
      if a[i] > up {
        a[i] := up;
      }
      assert a[..i + 1] == a[..i] + [a[i]];
      i := i + 1;
    }
  }

  /** `replace_with_thresholds(dataframe, variable)`: caps the named column
      at the rounded upper fence of its own 1st and 99th percentiles
      (`quantile01`, `quantile99` stand for pandas' `quantile`); no other
      column, and no other field of the table, changes. */
  method ReplaceWithThresholds(df: Frame, variable: NumericColumn,
                               quantile01: seq<real> -> real, quantile99: seq<real> -> real)
    requires df.Valid()
    modifies df.Column(variable)
    ensures df.Valid()
    ensures df.Column(variable)[..] == Clip(old(df.Column(variable)[..]), UpLimit(old(df.Column(variable)[..]), quantile01, quantile99))
    ensures forall c :: c != variable ==> df.Column(c)[..] == old(df.Column(c)[..])
  {
    var (lowLimit, upLimit) := OutlierThresholds(quantile01(df.Column(variable)[..]), quantile99(df.Column(variable)[..]));
    ClipAbove(df.Column(variable), upLimit as real);
  }

  /** The upper fence `replace_with_thresholds` applies to a column. */
  function UpLimit(col: seq<real>, quantile01: seq<real> -> real, quantile99: seq<real> -> real): real {
    OutlierThresholds(quantile01(col), quantile99(col)).1 as real
  }
}
