/** RFM scoring (caseStudy5/FLO_RFM.py:156-163, 273-278): quantile-bin
    labelling as `pd.qcut` does it once the bin edges are known, the stable
    ranking `rank(method="first")`, and the score codes built by string
    concatenation. The edges themselves are quantiles computed by floating
    point interpolation inside pandas; they are parameters here. */
module Scoring {
  import opened Wrappers

  /** `qcut` raises "Bin edges must be unique" when two quantile edges
      coincide and there is more than one bin. */
  datatype QcutError = NonUniqueEdges(edges: seq<real>)

  predicate StrictlyIncreasing(e: seq<real>) {
    forall i, j :: 0 <= i < j < |e| ==> e[i] < e[j]
  }

  /** Value `x` lies in bin `k`: the interval (e[k], e[k+1]], the lowest
      bin also holding e[0] itself (`include_lowest=True`). */
  predicate InBin(e: seq<real>, k: int, x: real) {
    0 <= k < |e| - 1 && (e[k] < x || (k == 0 && e[0] == x)) && x <= e[k + 1]
  }

  /** The edges span `x`: true of every value of a column for edges that are
      its quantiles, since the 0- and 1-quantiles are its minimum and maximum. */
  predicate Covers(e: seq<real>, x: real) {
    |e| >= 2 && e[0] <= x <= e[|e| - 1]
  }

  /** `searchsorted(x, side="left")` on the edges, started at position `i`:
      the first edge at or above `x`. */
  function FirstEdgeAtLeast(e: seq<real>, x: real, i: nat): (k: nat)
    requires StrictlyIncreasing(e) && 1 <= i < |e| && x <= e[|e| - 1]
    requires i == 1 || e[i - 1] < x
    ensures i <= k < |e| && x <= e[k] && (k == 1 || e[k - 1] < x)
    decreases |e| - i
  {
    if x <= e[i] then i else FirstEdgeAtLeast(e, x, i + 1)
  }

  /** The bin `qcut` gives `x`; `None` (NaN) outside the edges. */
  function BinOf(e: seq<real>, x: real): (b: Option<nat>)
    requires |e| >= 2 && StrictlyIncreasing(e)
    ensures b.Some? <==> Covers(e, x)
    ensures b.Some? ==> InBin(e, b.value, x)
  {
    if x < e[0] || e[|e| - 1] < x then None
    else Some(FirstEdgeAtLeast(e, x, 1) - 1)
  }

  /** Bins do not overlap: a value lies in at most one. */
  lemma BinUnique(e: seq<real>, k: int, l: int, x: real)
    requires StrictlyIncreasing(e) && InBin(e, k, x) && InBin(e, l, x)
    ensures k == l
  {
  }

  /** A larger value never lands in a lower bin. */
  lemma {:induction false} BinMonotone(e: seq<real>, x: real, y: real)
    requires |e| >= 2 && StrictlyIncreasing(e) && Covers(e, x) && Covers(e, y) && x <= y
    ensures BinOf(e, x).value <= BinOf(e, y).value
  {
  }

  /** `pd.qcut(xs, q, labels)` with the given quantile edges: each value gets
      the label of its bin, values outside the edges get NaN, and coinciding
      edges raise unless there is a single bin. With one bin pandas skips the
      uniqueness test, and a value is labelled exactly when it lies between
      the two edges. */
  function Qcut<T>(xs: seq<real>, e: seq<real>, labels: seq<T>): (r: Result<seq<Option<T>>, QcutError>)
    requires |labels| >= 1 && |e| == |labels| + 1
    ensures r.Failure? <==> |e| > 2 && !StrictlyIncreasing(e)
    ensures r.Success? ==> |r.value| == |xs|
    ensures r.Success? ==> forall i :: 0 <= i < |xs| ==> (r.value[i].Some? <==> Covers(e, xs[i]))
    ensures r.Success? ==> forall i, k :: 0 <= i < |xs| && InBin(e, k, xs[i]) ==> r.value[i] == Some(labels[k])
  {
    if |e| > 2 && !StrictlyIncreasing(e) then Failure(NonUniqueEdges(e))
    else if |e| == 2 then
      Success(seq(|xs|, i requires 0 <= i < |xs| => if Covers(e, xs[i]) then Some(labels[0]) else None))
    else
      var v := seq(|xs|, i requires 0 <= i < |xs| =>
                 match BinOf(e, xs[i]) case None => None case Some(k) => Some(labels[k]));
      assert forall i, k :: 0 <= i < |xs| && InBin(e, k, xs[i]) ==> v[i] == Some(labels[k]) by {
        forall i, k | 0 <= i < |xs| && InBin(e, k, xs[i]) ensures v[i] == Some(labels[k]) {
          BinUnique(e, k, BinOf(e, xs[i]).value, xs[i]);
        }
      }
      Success(v)
  }

  /** A recency, frequency or monetary score. */
  type Score = s: int | 1 <= s <= 5 witness 1

  /** `labels=[5, 4, 3, 2, 1]`: the most recent customers score 5. */
  const RecencyLabels: seq<Score> := [5, 4, 3, 2, 1]

  /** `labels=[1, 2, 3, 4, 5]`, used for frequency and monetary. */
  const ScoreLabels: seq<Score> := [1, 2, 3, 4, 5]

  /** Within one strictly increasing set of edges, a larger value never lies in a lower bin. */
  lemma InBinMonotone(e: seq<real>, k: int, l: int, x: real, y: real)
    requires StrictlyIncreasing(e) && InBin(e, k, x) && InBin(e, l, y) && x <= y
    ensures k <= l
  {
  }

  /** A covered value's recency label names its bin: bin k is labelled 5 - k. */
  lemma {:induction false} RecencyLabelBin(xs: seq<real>, e: seq<real>, i: int)
    requires |e| == 6 && Qcut(xs, e, RecencyLabels).Success?
    requires 0 <= i < |xs| && Covers(e, xs[i])
    ensures Qcut(xs, e, RecencyLabels).value[i].Some?
    ensures InBin(e, 5 - Qcut(xs, e, RecencyLabels).value[i].value as int, xs[i])
  {
    var k := BinOf(e, xs[i]).value;
    assert Qcut(xs, e, RecencyLabels).value[i] == Some(RecencyLabels[k]);
  }

  /** A covered value's frequency or monetary label names its bin: bin k is labelled k + 1. */
  lemma {:induction false} ScoreLabelBin(xs: seq<real>, e: seq<real>, i: int)
    requires |e| == 6 && Qcut(xs, e, ScoreLabels).Success?
    requires 0 <= i < |xs| && Covers(e, xs[i])
    ensures Qcut(xs, e, ScoreLabels).value[i].Some?
    ensures InBin(e, Qcut(xs, e, ScoreLabels).value[i].value as int - 1, xs[i])
  {
    var k := BinOf(e, xs[i]).value;
    assert Qcut(xs, e, ScoreLabels).value[i] == Some(ScoreLabels[k]);
  }

  /** The recency score is antitone: a smaller recency never gets a smaller score. */
  lemma {:induction false} RecencyScoreAntitone(xs: seq<real>, e: seq<real>, i: int, j: int)
    requires |e| == 6 && Qcut(xs, e, RecencyLabels).Success?
    requires 0 <= i < |xs| && 0 <= j < |xs| && Covers(e, xs[i]) && Covers(e, xs[j])
    requires xs[i] <= xs[j]
    ensures Qcut(xs, e, RecencyLabels).value[j].value <= Qcut(xs, e, RecencyLabels).value[i].value
  {
    BinMonotone(e, xs[i], xs[j]);
    var r := Qcut(xs, e, RecencyLabels).value;
    assert r[i] == Some(RecencyLabels[BinOf(e, xs[i]).value]);
    assert r[j] == Some(RecencyLabels[BinOf(e, xs[j]).value]);
  }

  /** Frequency and monetary scores are monotone: a larger value never gets a smaller score. */
  lemma {:induction false} ScoreMonotone(xs: seq<real>, e: seq<real>, i: int, j: int)
    requires |e| == 6 && Qcut(xs, e, ScoreLabels).Success?
    requires 0 <= i < |xs| && 0 <= j < |xs| && Covers(e, xs[i]) && Covers(e, xs[j])
    requires xs[i] <= xs[j]
    ensures Qcut(xs, e, ScoreLabels).value[i].value <= Qcut(xs, e, ScoreLabels).value[j].value
  {
    BinMonotone(e, xs[i], xs[j]);
    var r := Qcut(xs, e, ScoreLabels).value;
    assert r[i] == Some(ScoreLabels[BinOf(e, xs[i]).value]);
    assert r[j] == Some(ScoreLabels[BinOf(e, xs[j]).value]);
  }

  // ---------------------------------------------------------------------
  // rank(method="first")

  /** Row `j` is ranked before row `i`: a smaller value, or an equal value
      met earlier in the column. */
  predicate Precedes(xs: seq<real>, j: int, i: int)
    requires 0 <= j < |xs| && 0 <= i < |xs|
  {
    xs[j] < xs[i] || (xs[j] == xs[i] && j < i)
  }

  /** The number of rows among the first `m` that are ranked before row `i`. */
  function CountPreceding(xs: seq<real>, i: int, m: int): nat
    requires 0 <= i < |xs| && 0 <= m <= |xs|
    decreases m
  {
    if m == 0 then 0
    else CountPreceding(xs, i, m - 1) + (if Precedes(xs, m - 1, i) then 1 else 0)
  }

  lemma {:induction false} CountPrecedingBound(xs: seq<real>, i: int, m: int)
    requires 0 <= i < |xs| && 0 <= m <= |xs|
    ensures CountPreceding(xs, i, m) + (if i < m then 1 else 0) <= m
    decreases m
  {
    if m > 0 {
      CountPrecedingBound(xs, i, m - 1);
    }
  }

  /** Whatever is ranked before `j` is ranked before `i` too, and so is `j` itself. */
  lemma {:induction false} CountPrecedingGrows(xs: seq<real>, j: int, i: int, m: int)
    requires 0 <= j < |xs| && 0 <= i < |xs| && 0 <= m <= |xs| && Precedes(xs, j, i)
    ensures CountPreceding(xs, j, m) + (if j < m then 1 else 0) <= CountPreceding(xs, i, m)
    decreases m
  {
    if m > 0 {
      CountPrecedingGrows(xs, j, i, m - 1);
    }
  }

  /** `rank(method="first")`: ranks 1..n, ties broken by order of appearance. */
  function RankFirst(xs: seq<real>): (r: seq<int>)
    ensures |r| == |xs|
    ensures forall i :: 0 <= i < |xs| ==> 1 <= r[i] <= |xs|
  {
    var r := seq(|xs|, i requires 0 <= i < |xs| => 1 + CountPreceding(xs, i, |xs|));
    assert forall i :: 0 <= i < |xs| ==> 1 <= r[i] <= |xs| by {
      forall i | 0 <= i < |xs| ensures r[i] <= |xs| {
        CountPrecedingBound(xs, i, |xs|);
      }
    }
    r
  }

  /** Row `j` gets a smaller rank than row `i` exactly when it has a smaller
      value, or the same value and comes first. */
  lemma {:induction false} RankOrder(xs: seq<real>, i: int, j: int)
    requires 0 <= i < |xs| && 0 <= j < |xs| && i != j
    ensures RankFirst(xs)[j] < RankFirst(xs)[i] <==> (xs[j] < xs[i] || (xs[j] == xs[i] && j < i))
  {
    if Precedes(xs, j, i) {
      CountPrecedingGrows(xs, j, i, |xs|);
    } else {
      CountPrecedingGrows(xs, i, j, |xs|);
    }
  }

  /** Ranks are pairwise distinct. */
  lemma {:induction false} RankInjective(xs: seq<real>, i: int, j: int)
    requires 0 <= i < |xs| && 0 <= j < |xs| && i != j
    ensures RankFirst(xs)[i] != RankFirst(xs)[j]
  {
    RankOrder(xs, i, j);
    RankOrder(xs, j, i);
  }

  /** The values at the first `m` positions of `r`. */
  function Image(r: seq<int>, m: nat): set<int>
    requires m <= |r|
  {
    set i | 0 <= i < m :: r[i]
  }

  lemma {:induction false} ImageSize(xs: seq<real>, m: nat)
    requires m <= |xs|
    ensures |Image(RankFirst(xs), m)| == m
    decreases m
  {
    var r := RankFirst(xs);
    if m > 0 {
      ImageSize(xs, m - 1);
      assert Image(r, m) == Image(r, m - 1) + {r[m - 1]};
      forall i | 0 <= i < m - 1 ensures r[i] != r[m - 1] {
        RankInjective(xs, i, m - 1);
      }
    }
  }

  /** The set {1, ..., n}. */
  function UpTo(n: nat): (s: set<int>)
    ensures forall k :: k in s <==> 1 <= k <= n
    ensures |s| == n
  {
    if n == 0 then {} else UpTo(n - 1) + {n}
  }

  /** The ranks of n rows are a permutation of 1..n. */
  lemma {:induction false} RankIsPermutation(xs: seq<real>)
    ensures Image(RankFirst(xs), |xs|) == UpTo(|xs|)
    ensures forall i, j :: 0 <= i < j < |xs| ==> RankFirst(xs)[i] != RankFirst(xs)[j]
  {
    var r, n := RankFirst(xs), |xs|;
    var s := Image(r, n);
    ImageSize(xs, n);
    assert s <= UpTo(n);
    assert |UpTo(n) - s| == 0 by {
      assert |UpTo(n)| == |s| + |UpTo(n) - s|;
    }
    assert UpTo(n) - s == {};
    forall i, j | 0 <= i < j < n ensures r[i] != r[j] {
      RankInjective(xs, i, j);
    }
  }

  // ---------------------------------------------------------------------
  // Score codes

  /** The character `astype(str)` writes for a score. */
  function Digit(s: Score): char {
    ('0' as int + s) as char
  }

  /** The score a digit character stands for. */
  function DigitValue(c: char): int {
    c as int - '0' as int
  }

  /** `RF_Score`: the recency score's text followed by the frequency score's. */
  function RfScore(r: Score, f: Score): (code: string)
    ensures |code| == 2 && DigitValue(code[0]) == r && DigitValue(code[1]) == f
    ensures forall c :: c in code ==> '1' <= c <= '5'
  {
    [Digit(r)] + [Digit(f)]
  }

  /** `RFM_Score`: `RF_Score` followed by the monetary score's text. */
  function RfmScore(r: Score, f: Score, m: Score): (code: string)
    ensures |code| == 3 && RfScore(r, f) <= code && DigitValue(code[2]) == m
  {
    RfScore(r, f) + [Digit(m)]
  }

  /** Different score pairs give different codes. */
  lemma RfScoreInjective(r: Score, f: Score, r': Score, f': Score)
    requires RfScore(r, f) == RfScore(r', f')
    ensures r == r' && f == f'
  {
    assert RfScore(r, f)[0] == RfScore(r', f')[0];
    assert RfScore(r, f)[1] == RfScore(r', f')[1];
  }
}
