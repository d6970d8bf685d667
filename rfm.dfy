/** The RFM analysis of the FLO customers (caseStudy5/FLO_RFM.py:136-218, and
    the same steps gathered in `create_rfm_analysis`, lines 223-318):
    per-customer recency, frequency and monetary value, their scores and RF
    segment, the merge with each customer's category interests, and the two
    campaign target lists. */
module Rfm {
  import opened Wrappers
  import opened Strings
  import opened Selection
  import opened Scoring
  import opened Segmentation
  import opened Flo

  /** One row of `rfm`: a customer and its three metrics. */
  datatype RfmRow = RfmRow(masterId: string, recency: int, frequency: real, monetary: real)

  // ---------------------------------------------------------------------
  // groupby("master_id").agg(...)

  /** `date.max()` over the rows of customer `k`. */
  function LatestOrder(ids: seq<string>, days: seq<int>, k: string): (d: int)
    requires |ids| == |days| && k in ids
    ensures exists j :: 0 <= j < |ids| && ids[j] == k && days[j] == d
    ensures forall j :: 0 <= j < |ids| && ids[j] == k ==> days[j] <= d
    decreases |ids|
  {
    var n := |ids| - 1;
    if k !in ids[..n] then
      assert ids[n] == k by { assert ids == ids[..n] + [ids[n]]; }
      days[n]
    else
      var m := LatestOrder(ids[..n], days[..n], k);
      if ids[n] == k && days[n] > m then days[n] else m
  }

  /** `.sum()` of `vals` over the rows of customer `k`. */
  function GroupSum(ids: seq<string>, vals: seq<real>, k: string): (sum: real)
    requires |ids| == |vals|
    ensures k !in ids ==> sum == 0.0
    ensures (forall i :: 0 <= i < |vals| ==> vals[i] >= 0.0) ==> sum >= 0.0
    decreases |ids|
  {
    if |ids| == 0 then 0.0
    else
      var n := |ids| - 1;
      GroupSum(ids[..n], vals[..n], k) + (if ids[n] == k then vals[n] else 0.0)
  }

  /** `rfm`: one row per customer, in ascending `master_id` order, with
      recency = days from the customer's latest order to `today`,
      frequency = the sum of its `TotalOrder`, monetary = the sum of its `TotalPrice`. */
  function Aggregate(ids: seq<string>, lastDays: seq<int>, orders: seq<real>, prices: seq<real>, today: int): (rfm: seq<RfmRow>)
    requires |lastDays| == |ids| && |orders| == |ids| && |prices| == |ids|
    ensures |rfm| == |SortedDistinct(ids)|
    ensures StrictlySorted(seq(|rfm|, i requires 0 <= i < |rfm| => rfm[i].masterId))
    ensures forall x :: x in ids <==> exists i :: 0 <= i < |rfm| && rfm[i].masterId == x
  {
    var keys := SortedDistinct(ids);
    var rfm := seq(|keys|, i requires 0 <= i < |keys| =>
      RfmRow(keys[i], today - LatestOrder(ids, lastDays, keys[i]),
             GroupSum(ids, orders, keys[i]), GroupSum(ids, prices, keys[i])));
    assert seq(|rfm|, i requires 0 <= i < |rfm| => rfm[i].masterId) == keys;
    assert forall x :: x in keys ==> exists i :: 0 <= i < |rfm| && rfm[i].masterId == x by {
      forall x | x in keys ensures exists i :: 0 <= i < |rfm| && rfm[i].masterId == x {
        var i :| 0 <= i < |keys| && keys[i] == x;
        assert rfm[i].masterId == x;
      }
    }
    rfm
  }

  /** A customer's recency counts the days since its latest order: it is
      reached by one of its rows and no row of it is more recent. */
  lemma {:induction false} RecencyIsFromLatestOrder(ids: seq<string>, lastDays: seq<int>, orders: seq<real>, prices: seq<real>, today: int, i: int)
    requires |lastDays| == |ids| && |orders| == |ids| && |prices| == |ids|
    requires 0 <= i < |Aggregate(ids, lastDays, orders, prices, today)|
    ensures var row := Aggregate(ids, lastDays, orders, prices, today)[i];
      && (exists j :: 0 <= j < |ids| && ids[j] == row.masterId && row.recency == today - lastDays[j])
      && (forall j :: 0 <= j < |ids| && ids[j] == row.masterId ==> row.recency <= today - lastDays[j])
  {
    var keys := SortedDistinct(ids);
    assert keys[i] in ids;
  }

  /** Sum of a column, row by row. */
  function Total(xs: seq<real>): real
    decreases |xs|
  {
    if |xs| == 0 then 0.0 else Total(xs[..|xs| - 1]) + xs[|xs| - 1]
  }

  /** The group sums of `vals` over the customers `keys`, added up. */
  function KeyTotal(keys: seq<string>, ids: seq<string>, vals: seq<real>): real
    requires |ids| == |vals|
    decreases |keys|
  {
    if |keys| == 0 then 0.0
    else KeyTotal(keys[..|keys| - 1], ids, vals) + GroupSum(ids, vals, keys[|keys| - 1])
  }

  /** The total of an omnichannel column is the sum of its two channel
      totals: `TotalOrder` and `TotalPrice` neither lose nor invent orders or spend. */
  lemma {:induction false} TotalOfPlus(a: seq<real>, b: seq<real>)
    requires |a| == |b|
    ensures Total(Plus(a, b)) == Total(a) + Total(b)
    decreases |a|
  {
    if |a| > 0 {
      var n := |a| - 1;
      assert Plus(a, b)[..n] == Plus(a[..n], b[..n]);
      TotalOfPlus(a[..n], b[..n]);
    }
  }

  predicate Distinct(keys: seq<string>) {
    forall i, j :: 0 <= i < j < |keys| ==> keys[i] != keys[j]
  }

  /** One more row adds its value to the total of its own group only. */
  lemma {:induction false} KeyTotalAppend(keys: seq<string>, ids: seq<string>, vals: seq<real>, x: string, v: real)
    requires |ids| == |vals| && Distinct(keys)
    ensures KeyTotal(keys, ids + [x], vals + [v]) == KeyTotal(keys, ids, vals) + (if x in keys then v else 0.0)
    decreases |keys|
  {
    if |keys| > 0 {
      var n := |keys| - 1;
      assert (ids + [x])[..|ids|] == ids && (vals + [v])[..|vals|] == vals;
      KeyTotalAppend(keys[..n], ids, vals, x, v);
      assert x in keys <==> x in keys[..n] || x == keys[n] by {
        assert keys == keys[..n] + [keys[n]];
      }
    }
  }

  /** The groups partition the rows: summing the group sums over all
      customers gives the column's total. */
  lemma {:induction false} GroupsPartitionTotal(keys: seq<string>, ids: seq<string>, vals: seq<real>)
    requires |ids| == |vals| && Distinct(keys)
    requires forall x :: x in ids ==> x in keys
    ensures KeyTotal(keys, ids, vals) == Total(vals)
    decreases |ids|
  {
    if |ids| == 0 {
      KeyTotalOfEmpty(keys, ids, vals);
    } else {
      var n := |ids| - 1;
      assert ids == ids[..n] + [ids[n]] && vals == vals[..n] + [vals[n]];
      KeyTotalAppend(keys, ids[..n], vals[..n], ids[n], vals[n]);
      GroupsPartitionTotal(keys, ids[..n], vals[..n]);
    }
  }

  lemma {:induction false} KeyTotalOfEmpty(keys: seq<string>, ids: seq<string>, vals: seq<real>)
    requires |ids| == |vals| == 0
    ensures KeyTotal(keys, ids, vals) == 0.0
    decreases |keys|
  {
    if |keys| > 0 {
      KeyTotalOfEmpty(keys[..|keys| - 1], ids, vals);
    }
  }

  /** A column holding the group sums of `keys` in order totals to `KeyTotal`. */
  lemma {:induction false} TotalOfGroupSums(xs: seq<real>, keys: seq<string>, ids: seq<string>, vals: seq<real>)
    requires |ids| == |vals| && |xs| == |keys|
    requires forall i :: 0 <= i < |xs| ==> xs[i] == GroupSum(ids, vals, keys[i])
    ensures Total(xs) == KeyTotal(keys, ids, vals)
    decreases |xs|
  {
    if |xs| > 0 {
      TotalOfGroupSums(xs[..|xs| - 1], keys[..|keys| - 1], ids, vals);
    }
  }

  function Frequencies(rfm: seq<RfmRow>): (r: seq<real>)
    ensures |r| == |rfm|
  {
    seq(|rfm|, i requires 0 <= i < |rfm| => rfm[i].frequency)
  }

  function Monetaries(rfm: seq<RfmRow>): (r: seq<real>)
    ensures |r| == |rfm|
  {
    seq(|rfm|, i requires 0 <= i < |rfm| => rfm[i].monetary)
  }

  function Recencies(rfm: seq<RfmRow>): (r: seq<real>)
    ensures |r| == |rfm|
  {
    seq(|rfm|, i requires 0 <= i < |rfm| => rfm[i].recency as real)
  }

  /** No order and no spend is lost or counted twice by the grouping: the
      frequencies add up to the table's `TotalOrder` and the monetary values
      to its `TotalPrice`. */
  lemma {:induction false} AggregateKeepsTotals(ids: seq<string>, lastDays: seq<int>, orders: seq<real>, prices: seq<real>, today: int)
    requires |lastDays| == |ids| && |orders| == |ids| && |prices| == |ids|
    ensures Total(Frequencies(Aggregate(ids, lastDays, orders, prices, today))) == Total(orders)
    ensures Total(Monetaries(Aggregate(ids, lastDays, orders, prices, today))) == Total(prices)
  {
    var keys := SortedDistinct(ids);
    var rfm := Aggregate(ids, lastDays, orders, prices, today);
    assert Distinct(keys) by {
      forall i, j | 0 <= i < j < |keys| ensures keys[i] != keys[j] {
        SortedIsDistinct(keys, i, j);
      }
    }
    TotalOfGroupSums(Frequencies(rfm), keys, ids, orders);
    TotalOfGroupSums(Monetaries(rfm), keys, ids, prices);
    GroupsPartitionTotal(keys, ids, orders);
    GroupsPartitionTotal(keys, ids, prices);
  }

  // ---------------------------------------------------------------------
  // Scores and segments

  /** One row of the scored `rfm`: the metrics, the three scores, `RF_Score`
      and `segment`. */
  datatype ScoredRow = ScoredRow(rfm: RfmRow, recencyScore: Score, frequencyScore: Score,
                                 monetaryScore: Score, rfScore: string, segment: string)

  /** The quantile edges of each cut span the column they cut (as quantile
      edges of that column do), five bins each. */
  predicate EdgesFit(rfm: seq<RfmRow>, eR: seq<real>, eF: seq<real>, eM: seq<real>) {
    && |eR| == 6 && |eF| == 6 && |eM| == 6
    && (forall i :: 0 <= i < |rfm| ==> Covers(eR, rfm[i].recency as real))
    && (forall i :: 0 <= i < |rfm| ==> Covers(eF, RankFirst(Frequencies(rfm))[i] as real))
    && (forall i :: 0 <= i < |rfm| ==> Covers(eM, rfm[i].monetary))
  }

  function RanksAsReal(rfm: seq<RfmRow>): (r: seq<real>)
    ensures |r| == |rfm|
  {
    var ranks := RankFirst(Frequencies(rfm));
    seq(|rfm|, i requires 0 <= i < |rfm| => ranks[i] as real)
  }

  /** A scored row whose code and segment come from its scores. */
  function Scored(row: RfmRow, r: Score, f: Score, m: Score): (s: ScoredRow)
    ensures s.rfScore == RfScore(r, f)
    ensures s.segment == Label(SegmentOf(r, f))
  {
    SegmentationIsLookup(r, f);
    ScoredRow(row, r, f, m, RfScore(r, f), ReplaceAll(SegMap, RfScore(r, f)))
  }

  /** The label a cut gave row `i`; rows the edges cover always have one. */
  function LabelAt(cut: seq<Option<Score>>, i: int): Score
    requires 0 <= i < |cut|
  {
    match cut[i] case Some(s) => s case None => 1
  }

  /** Scored row `s` belongs to metrics `row` whose frequency has rank `rank`:
      each score is the bin its value falls in under the edges, and the code
      and segment follow from the recency and frequency scores. */
  predicate RowScored(row: RfmRow, rank: int, eR: seq<real>, eF: seq<real>, eM: seq<real>, s: ScoredRow) {
    && s.rfm == row
    && InBin(eR, 5 - s.recencyScore, row.recency as real)
    && InBin(eF, s.frequencyScore - 1, rank as real)
    && InBin(eM, s.monetaryScore - 1, row.monetary)
    && s.rfScore == RfScore(s.recencyScore, s.frequencyScore)
    && s.segment == Label(SegmentOf(s.recencyScore, s.frequencyScore))
  }

  /** `scored` is `rfm` with every row scored as `RowScored` says. */
  predicate ScoredFrom(rfm: seq<RfmRow>, eR: seq<real>, eF: seq<real>, eM: seq<real>, scored: seq<ScoredRow>) {
    |scored| == |rfm| &&
    forall i :: 0 <= i < |rfm| ==> RowScored(rfm[i], RankFirst(Frequencies(rfm))[i], eR, eF, eM, scored[i])
  }

  /** Row `i` as the three successful cuts score it. */
  function ScoreRow(rfm: seq<RfmRow>, eR: seq<real>, eF: seq<real>, eM: seq<real>, i: int): ScoredRow
    requires EdgesFit(rfm, eR, eF, eM)
    requires StrictlyIncreasing(eR) && StrictlyIncreasing(eF) && StrictlyIncreasing(eM)
    requires 0 <= i < |rfm|
  {
    Scored(rfm[i], LabelAt(Qcut(Recencies(rfm), eR, RecencyLabels).value, i),
           LabelAt(Qcut(RanksAsReal(rfm), eF, ScoreLabels).value, i),
           LabelAt(Qcut(Monetaries(rfm), eM, ScoreLabels).value, i))
  }

  lemma {:induction false} RecencyScoreAt(rfm: seq<RfmRow>, eR: seq<real>, i: int)
    requires |eR| == 6 && StrictlyIncreasing(eR) && 0 <= i < |rfm| && Covers(eR, rfm[i].recency as real)
    ensures InBin(eR, 5 - LabelAt(Qcut(Recencies(rfm), eR, RecencyLabels).value, i), rfm[i].recency as real)
  {
    RecencyLabelBin(Recencies(rfm), eR, i);
  }

  lemma {:induction false} FrequencyScoreAt(rfm: seq<RfmRow>, eF: seq<real>, i: int)
    requires |eF| == 6 && StrictlyIncreasing(eF) && 0 <= i < |rfm|
    requires Covers(eF, RankFirst(Frequencies(rfm))[i] as real)
    ensures InBin(eF, LabelAt(Qcut(RanksAsReal(rfm), eF, ScoreLabels).value, i) - 1, RankFirst(Frequencies(rfm))[i] as real)
  {
    assert RanksAsReal(rfm)[i] == RankFirst(Frequencies(rfm))[i] as real;
    ScoreLabelBin(RanksAsReal(rfm), eF, i);
  }

  lemma {:induction false} MonetaryScoreAt(rfm: seq<RfmRow>, eM: seq<real>, i: int)
    requires |eM| == 6 && StrictlyIncreasing(eM) && 0 <= i < |rfm| && Covers(eM, rfm[i].monetary)
    ensures InBin(eM, LabelAt(Qcut(Monetaries(rfm), eM, ScoreLabels).value, i) - 1, rfm[i].monetary)
  {
    ScoreLabelBin(Monetaries(rfm), eM, i);
  }

  lemma {:induction false} ScoreRowIsScored(rfm: seq<RfmRow>, eR: seq<real>, eF: seq<real>, eM: seq<real>, i: int)
    requires EdgesFit(rfm, eR, eF, eM)
    requires StrictlyIncreasing(eR) && StrictlyIncreasing(eF) && StrictlyIncreasing(eM)
    requires 0 <= i < |rfm|
    ensures RowScored(rfm[i], RankFirst(Frequencies(rfm))[i], eR, eF, eM, ScoreRow(rfm, eR, eF, eM, i))
  {
    var r := LabelAt(Qcut(Recencies(rfm), eR, RecencyLabels).value, i);
    var f := LabelAt(Qcut(RanksAsReal(rfm), eF, ScoreLabels).value, i);
    var m := LabelAt(Qcut(Monetaries(rfm), eM, ScoreLabels).value, i);
    RecencyScoreAt(rfm, eR, i);
    FrequencyScoreAt(rfm, eF, i);
    MonetaryScoreAt(rfm, eM, i);
    assert ScoreRow(rfm, eR, eF, eM, i) == Scored(rfm[i], r, f, m);
  }

  /** Scoring `rfm` (caseStudy5/FLO_RFM.py:273-294): recency cut with labels
      5..1, the first-rank of frequency and monetary cut with labels 1..5,
      `RF_Score` concatenated and `segment` from `seg_map`. A cut whose
      edges coincide raises, recency first. */
  function ScoreRfm(rfm: seq<RfmRow>, eR: seq<real>, eF: seq<real>, eM: seq<real>): (r: Result<seq<ScoredRow>, QcutError>)
    requires EdgesFit(rfm, eR, eF, eM)
    ensures r.Failure? <==> !(StrictlyIncreasing(eR) && StrictlyIncreasing(eF) && StrictlyIncreasing(eM))
    ensures r.Success? ==> ScoredFrom(rfm, eR, eF, eM, r.value)
  {
    var rs :- Qcut(Recencies(rfm), eR, RecencyLabels);
    var fs :- Qcut(RanksAsReal(rfm), eF, ScoreLabels);
    var ms :- Qcut(Monetaries(rfm), eM, ScoreLabels);
    var scored := seq(|rfm|, i requires 0 <= i < |rfm| => ScoreRow(rfm, eR, eF, eM, i));
    assert ScoredFrom(rfm, eR, eF, eM, scored) by {
      forall i | 0 <= i < |rfm|
        ensures RowScored(rfm[i], RankFirst(Frequencies(rfm))[i], eR, eF, eM, scored[i])
      {
        ScoreRowIsScored(rfm, eR, eF, eM, i);
      }
    }
    Success(scored)
  }

  /** In a scored table, a customer who bought more recently never gets a
      lower recency score. */
  lemma {:induction false} RecencyScoreOrder(rfm: seq<RfmRow>, eR: seq<real>, eF: seq<real>, eM: seq<real>,
                                             scored: seq<ScoredRow>, i: int, j: int)
    requires StrictlyIncreasing(eR) && ScoredFrom(rfm, eR, eF, eM, scored)
    requires 0 <= i < |rfm| && 0 <= j < |rfm| && rfm[i].recency <= rfm[j].recency
    ensures scored[j].recencyScore <= scored[i].recencyScore
  {
    var ranks := RankFirst(Frequencies(rfm));
    assert RowScored(rfm[i], ranks[i], eR, eF, eM, scored[i]);
    assert RowScored(rfm[j], ranks[j], eR, eF, eM, scored[j]);
    InBinMonotone(eR, 5 - scored[i].recencyScore, 5 - scored[j].recencyScore, rfm[i].recency as real, rfm[j].recency as real);
  }

  /** In a scored table, a customer who ordered strictly more often never gets
      a lower frequency score, and of two with equal frequency the one listed
      first never gets the higher score. */
  lemma {:induction false} FrequencyScoreOrder(rfm: seq<RfmRow>, eR: seq<real>, eF: seq<real>, eM: seq<real>,
                                               scored: seq<ScoredRow>, i: int, j: int)
    requires StrictlyIncreasing(eF) && ScoredFrom(rfm, eR, eF, eM, scored)
    requires 0 <= i < |rfm| && 0 <= j < |rfm| && i != j
    requires rfm[i].frequency < rfm[j].frequency || (rfm[i].frequency == rfm[j].frequency && i < j)
    ensures scored[i].frequencyScore <= scored[j].frequencyScore
  {
    var ranks := RankFirst(Frequencies(rfm));
    assert RowScored(rfm[i], ranks[i], eR, eF, eM, scored[i]);
    assert RowScored(rfm[j], ranks[j], eR, eF, eM, scored[j]);
    RankOrder(Frequencies(rfm), j, i);
    InBinMonotone(eF, scored[i].frequencyScore - 1, scored[j].frequencyScore - 1, ranks[i] as real, ranks[j] as real);
  }

  /** In a scored table, a customer who spent more never gets a lower monetary score. */
  lemma {:induction false} MonetaryScoreOrder(rfm: seq<RfmRow>, eR: seq<real>, eF: seq<real>, eM: seq<real>,
                                              scored: seq<ScoredRow>, i: int, j: int)
    requires StrictlyIncreasing(eM) && ScoredFrom(rfm, eR, eF, eM, scored)
    requires 0 <= i < |rfm| && 0 <= j < |rfm| && rfm[i].monetary <= rfm[j].monetary
    ensures scored[i].monetaryScore <= scored[j].monetaryScore
  {
    var ranks := RankFirst(Frequencies(rfm));
    assert RowScored(rfm[i], ranks[i], eR, eF, eM, scored[i]);
    assert RowScored(rfm[j], ranks[j], eR, eF, eM, scored[j]);
    InBinMonotone(eM, scored[i].monetaryScore - 1, scored[j].monetaryScore - 1, rfm[i].monetary, rfm[j].monetary);
  }

  // ---------------------------------------------------------------------
  // merge with the category interests

  /** One row of `rfm_final`. */
  datatype FinalRow = FinalRow(scored: ScoredRow, categories: Option<string>)

  function IdOf(x: FinalRow): string {
    x.scored.rfm.masterId
  }

  /** The table rows of one scored customer, in table order, joined to it. */
  function Matches(row: ScoredRow, ids: seq<string>, cats: seq<Option<string>>): seq<FinalRow>
    requires |ids| == |cats|
    decreases |ids|
  {
    if |ids| == 0 then []
    else
      var n := |ids| - 1;
      Matches(row, ids[..n], cats[..n]) + (if ids[n] == row.rfm.masterId then [FinalRow(row, cats[n])] else [])
  }

  /** The rows a left join makes of one scored row: its matches, or the row
      alone with missing categories when the table has none. */
  function LeftJoinRow(row: ScoredRow, ids: seq<string>, cats: seq<Option<string>>): (r: seq<FinalRow>)
    requires |ids| == |cats|
    ensures |r| >= 1
  {
    var m := Matches(row, ids, cats);
    if m == [] then [FinalRow(row, None)] else m
  }

  /** `rfm.merge(df[["master_id", "interested_in_categories_12"]], on="master_id", how="left")`:
      the scored rows in their order, each followed by the categories of every
      table row of the same customer. */
  function Merge(scored: seq<ScoredRow>, ids: seq<string>, cats: seq<Option<string>>): (r: seq<FinalRow>)
    requires |ids| == |cats|
    ensures |r| >= |scored|
    decreases |scored|
  {
    if |scored| == 0 then []
    else
      var n := |scored| - 1;
      Merge(scored[..n], ids, cats) + LeftJoinRow(scored[n], ids, cats)
  }

  /** A customer has no matches exactly when the table holds no row of it. */
  lemma {:induction false} MatchesEmptyIff(row: ScoredRow, ids: seq<string>, cats: seq<Option<string>>)
    requires |ids| == |cats|
    ensures Matches(row, ids, cats) == [] <==> row.rfm.masterId !in ids
    decreases |ids|
  {
    if |ids| > 0 {
      var n := |ids| - 1;
      MatchesEmptyIff(row, ids[..n], cats[..n]);
      assert ids == ids[..n] + [ids[n]];
    }
  }

  /** Every row a customer's matches produce carries that customer's scores
      and the categories of one of its table rows. */
  lemma {:induction false} MatchesJoin(row: ScoredRow, ids: seq<string>, cats: seq<Option<string>>)
    requires |ids| == |cats|
    ensures forall x :: x in Matches(row, ids, cats) ==> (x.scored == row &&
      exists j :: 0 <= j < |ids| && ids[j] == row.rfm.masterId && cats[j] == x.categories)
    decreases |ids|
  {
    if |ids| > 0 {
      var n := |ids| - 1;
      MatchesJoin(row, ids[..n], cats[..n]);
      forall x | x in Matches(row, ids[..n], cats[..n])
        ensures exists j :: 0 <= j < |ids| && ids[j] == row.rfm.masterId && cats[j] == x.categories
      {
        var j :| 0 <= j < n && ids[..n][j] == row.rfm.masterId && cats[..n][j] == x.categories;
        assert ids[j] == row.rfm.masterId && cats[j] == x.categories;
      }
    }
  }

  /** Every merged row is a scored row joined to the categories of a table row
      of the same customer, or, for a customer the table lacks, to missing
      categories. */
  lemma {:induction false} MergeJoin(scored: seq<ScoredRow>, ids: seq<string>, cats: seq<Option<string>>)
    requires |ids| == |cats|
    ensures forall x :: x in Merge(scored, ids, cats) ==> (x.scored in scored &&
      ((exists j :: 0 <= j < |ids| && ids[j] == IdOf(x) && cats[j] == x.categories) ||
       (IdOf(x) !in ids && x.categories == None)))
    decreases |scored|
  {
    if |scored| > 0 {
      var n := |scored| - 1;
      MergeJoin(scored[..n], ids, cats);
      MatchesJoin(scored[n], ids, cats);
      MatchesEmptyIff(scored[n], ids, cats);
      forall x | x in Merge(scored[..n], ids, cats) ensures x.scored in scored {
        var i :| 0 <= i < n && scored[..n][i] == x.scored;
        assert scored[i] == x.scored;
      }
    }
  }

  /** With one table row per customer (as `master_id` is in this data set),
      the merge pairs each scored row with that row's categories, row for row. */
  lemma {:induction false} MatchesOfUniqueId(row: ScoredRow, ids: seq<string>, cats: seq<Option<string>>, j: int)
    requires |ids| == |cats| && 0 <= j < |ids| && ids[j] == row.rfm.masterId
    requires forall l :: 0 <= l < |ids| && l != j ==> ids[l] != ids[j]
    ensures Matches(row, ids, cats) == [FinalRow(row, cats[j])]
    decreases |ids|
  {
    var n := |ids| - 1;
    if j == n {
      MatchesOfAbsent(row, ids[..n], cats[..n]);
    } else {
      MatchesOfUniqueId(row, ids[..n], cats[..n], j);
    }
  }

  lemma {:induction false} MatchesOfAbsent(row: ScoredRow, ids: seq<string>, cats: seq<Option<string>>)
    requires |ids| == |cats| && row.rfm.masterId !in ids
    ensures Matches(row, ids, cats) == []
    decreases |ids|
  {
    if |ids| > 0 {
      var n := |ids| - 1;
      MatchesOfAbsent(row, ids[..n], cats[..n]);
    }
  }

  /** `x` joins scored row `s` to the categories of its customer's table row. */
  predicate JoinedTo(x: FinalRow, s: ScoredRow, ids: seq<string>, cats: seq<Option<string>>)
    requires |ids| == |cats|
  {
    x.scored == s && forall j :: 0 <= j < |ids| && ids[j] == s.rfm.masterId ==> x.categories == cats[j]
  }

  /** The last scored row, found at the single table row `j` of its customer. */
  lemma {:induction false} MergeLast(scored: seq<ScoredRow>, ids: seq<string>, cats: seq<Option<string>>, j: int)
    requires |ids| == |cats| && Distinct(ids) && |scored| > 0
    requires 0 <= j < |ids| && ids[j] == scored[|scored| - 1].rfm.masterId
    ensures Merge(scored, ids, cats) == Merge(scored[..|scored| - 1], ids, cats) + [FinalRow(scored[|scored| - 1], cats[j])]
    ensures JoinedTo(FinalRow(scored[|scored| - 1], cats[j]), scored[|scored| - 1], ids, cats)
  {
    var row := scored[|scored| - 1];
    forall l | 0 <= l < |ids| && ids[l] == row.rfm.masterId ensures cats[l] == cats[j] {
      assert l == j;
    }
    MatchesOfUniqueId(row, ids, cats, j);
  }

  lemma {:induction false} MergeOfUniqueIds(scored: seq<ScoredRow>, ids: seq<string>, cats: seq<Option<string>>)
    requires |ids| == |cats| && Distinct(ids)
    requires forall i :: 0 <= i < |scored| ==> scored[i].rfm.masterId in ids
    ensures |Merge(scored, ids, cats)| == |scored|
    ensures forall i :: 0 <= i < |scored| ==> JoinedTo(Merge(scored, ids, cats)[i], scored[i], ids, cats)
    decreases |scored|
  {
    if |scored| > 0 {
      var n := |scored| - 1;
      var prefix := Merge(scored[..n], ids, cats);
      MergeOfUniqueIds(scored[..n], ids, cats);
      var j :| 0 <= j < |ids| && ids[j] == scored[n].rfm.masterId;
      MergeLast(scored, ids, cats, j);
      AppendJoined(prefix, scored, FinalRow(scored[n], cats[j]), ids, cats);
    }
  }

  lemma {:induction false} AppendJoined(rows: seq<FinalRow>, scored: seq<ScoredRow>, last: FinalRow,
                                        ids: seq<string>, cats: seq<Option<string>>)
    requires |ids| == |cats| && |rows| + 1 == |scored|
    requires forall i :: 0 <= i < |rows| ==> JoinedTo(rows[i], scored[..|rows|][i], ids, cats)
    requires JoinedTo(last, scored[|rows|], ids, cats)
    ensures forall i :: 0 <= i < |scored| ==> JoinedTo((rows + [last])[i], scored[i], ids, cats)
  {
    forall i | 0 <= i < |scored| ensures JoinedTo((rows + [last])[i], scored[i], ids, cats) {
      if i < |rows| {
        assert (rows + [last])[i] == rows[i] && scored[..|rows|][i] == scored[i];
      }
    }
  }

  // ---------------------------------------------------------------------
  // Campaign target lists

  /** The new women's shoe brand (caseStudy5/FLO_RFM.py:302-305): loyal
      customers and champions interested in KADIN. A missing category is not a
      match. */
  predicate NewBrandRow(x: FinalRow) {
    x.scored.segment in ["loyal_customers", "champions"]
    && x.categories.Some? && Contains(x.categories.value, "KADIN")
  }

  /** The men's and children's discount (caseStudy5/FLO_RFM.py:308-311):
      can't-lose, hibernating and new customers whose categories match
      `ERKEK|COCUK|AKTIFCOCUK`; `na=False` makes a missing category no match. */
  predicate DiscountRow(x: FinalRow) {
    x.scored.segment in ["cant_loose", "hibernating", "new_customers"]
    && x.categories.Some?
    && (Contains(x.categories.value, "ERKEK") || Contains(x.categories.value, "COCUK")
        || Contains(x.categories.value, "AKTIFCOCUK"))
  }

  /** `new_brand_targets`: the `master_id` of every row passing the mask, in
      table order; each belongs to a qualifying row. */
  function NewBrandTargets(final: seq<FinalRow>): (r: seq<string>)
    ensures |r| == |Kept(final, NewBrandRow)| <= |final|
    ensures forall k :: 0 <= k < |r| ==>
      var i := Kept(final, NewBrandRow)[k];
      0 <= i < |final| && NewBrandRow(final[i]) && r[k] == IdOf(final[i])
  {
    Project(Where(final, NewBrandRow), IdOf)
  }

  /** `discount_targets`: the `master_id` of every row passing the mask, in
      table order; each belongs to a qualifying row. */
  function DiscountTargets(final: seq<FinalRow>): (r: seq<string>)
    ensures |r| == |Kept(final, DiscountRow)| <= |final|
    ensures forall k :: 0 <= k < |r| ==>
      var i := Kept(final, DiscountRow)[k];
      0 <= i < |final| && DiscountRow(final[i]) && r[k] == IdOf(final[i])
  {
    Project(Where(final, DiscountRow), IdOf)
  }

  /** The row's `segment` is the label of its scores' segment. */
  predicate SegmentConsistent(x: FinalRow) {
    x.scored.segment == Label(SegmentOf(x.scored.recencyScore, x.scored.frequencyScore))
  }

  /** The k-th new-brand target is the customer of the k-th qualifying row, in
      table order: its RF segment is loyal_customers or champions and its
      categories contain KADIN. */
  lemma {:induction false} NewBrandTargetsQualify(final: seq<FinalRow>, k: int)
    requires forall i :: 0 <= i < |final| ==> SegmentConsistent(final[i])
    requires 0 <= k < |NewBrandTargets(final)|
    ensures var i := Kept(final, NewBrandRow)[k];
      && NewBrandTargets(final)[k] == IdOf(final[i])
      && SegmentOf(final[i].scored.recencyScore, final[i].scored.frequencyScore) in {LoyalCustomers, Champions}
      && final[i].categories.Some? && Contains(final[i].categories.value, "KADIN")
  {
    var i := Kept(final, NewBrandRow)[k];
    var s := SegmentOf(final[i].scored.recencyScore, final[i].scored.frequencyScore);
    if Label(s) == "loyal_customers" {
      LabelInjective(s, LoyalCustomers);
    } else {
      LabelInjective(s, Champions);
    }
  }

  /** The k-th discount target is the customer of the k-th qualifying row, in
      table order: its RF segment is cant_loose, hibernating or new_customers
      and its categories contain ERKEK or COCUK. */
  lemma {:induction false} DiscountTargetsQualify(final: seq<FinalRow>, k: int)
    requires forall i :: 0 <= i < |final| ==> SegmentConsistent(final[i])
    requires 0 <= k < |DiscountTargets(final)|
    ensures var i := Kept(final, DiscountRow)[k];
      && DiscountTargets(final)[k] == IdOf(final[i])
      && SegmentOf(final[i].scored.recencyScore, final[i].scored.frequencyScore) in {CantLoose, Hibernating, NewCustomers}
      && final[i].categories.Some?
      && (Contains(final[i].categories.value, "ERKEK") || Contains(final[i].categories.value, "COCUK"))
  {
    var i := Kept(final, DiscountRow)[k];
    var s := SegmentOf(final[i].scored.recencyScore, final[i].scored.frequencyScore);
    if Label(s) == "cant_loose" {
      LabelInjective(s, CantLoose);
    } else if Label(s) == "hibernating" {
      LabelInjective(s, Hibernating);
    } else {
      LabelInjective(s, NewCustomers);
    }
    if Contains(final[i].categories.value, "AKTIFCOCUK") {
      AktifCocukMatchesCocuk(final[i].categories.value);
    }
  }

  /** The third alternative of `ERKEK|COCUK|AKTIFCOCUK` adds nothing: any
      text containing AKTIFCOCUK contains COCUK. */
  lemma {:induction false} AktifCocukMatchesCocuk(s: string)
    requires Contains(s, "AKTIFCOCUK")
    ensures Contains(s, "COCUK")
  {
    ContainsIffOccurs(s, "AKTIFCOCUK");
    var i :| OccursAt(s, "AKTIFCOCUK", i);
    assert s[i + 5..i + 10] == s[i..i + 10][5..10];
    assert OccursAt(s, "COCUK", i + 5);
    ContainsIffOccurs(s, "COCUK");
  }

  // ---------------------------------------------------------------------
  // create_rfm_analysis

  /** What `create_rfm_analysis` returns besides the processed table. */
  datatype RfmAnalysis = RfmAnalysis(final: seq<FinalRow>, newBrand: seq<string>, discount: seq<string>)

  /** Steps 2 to 6 of `create_rfm_analysis` on the preprocessed columns. */
  function AnalyzeRfm(ids: seq<string>, lastDays: seq<int>, orders: seq<real>, prices: seq<real>,
                      cats: seq<Option<string>>, eR: seq<real>, eF: seq<real>, eM: seq<real>): (r: Result<RfmAnalysis, QcutError>)
    requires |lastDays| == |ids| && |orders| == |ids| && |prices| == |ids| && |cats| == |ids|
    requires EdgesFit(Aggregate(ids, lastDays, orders, prices, Today), eR, eF, eM)
    ensures r.Failure? <==> !(StrictlyIncreasing(eR) && StrictlyIncreasing(eF) && StrictlyIncreasing(eM))
    ensures r.Success? ==> forall i :: 0 <= i < |r.value.final| ==> SegmentConsistent(r.value.final[i])
  {
    var rfm := Aggregate(ids, lastDays, orders, prices, Today);
    var scored :- ScoreRfm(rfm, eR, eF, eM);
    var final := Merge(scored, ids, cats);
    assert forall i :: 0 <= i < |final| ==> SegmentConsistent(final[i]) by {
      MergeJoin(scored, ids, cats);
      forall i | 0 <= i < |final| ensures SegmentConsistent(final[i]) {
        assert final[i] in final;
        var j :| 0 <= j < |scored| && scored[j] == final[i].scored;
      }
    }
    Success(RfmAnalysis(final, NewBrandTargets(final), DiscountTargets(final)))
  }

  /** A merged row the new-brand campaign is meant for: RF segment
      loyal_customers or champions, and categories containing KADIN. */
  predicate NewBrandQualified(x: FinalRow) {
    && SegmentOf(x.scored.recencyScore, x.scored.frequencyScore) in {LoyalCustomers, Champions}
    && x.categories.Some? && Contains(x.categories.value, "KADIN")
  }

  /** A merged row the discount is meant for: RF segment cant_loose,
      hibernating or new_customers, and categories containing ERKEK or COCUK. */
  predicate DiscountQualified(x: FinalRow) {
    && SegmentOf(x.scored.recencyScore, x.scored.frequencyScore) in {CantLoose, Hibernating, NewCustomers}
    && x.categories.Some?
    && (Contains(x.categories.value, "ERKEK") || Contains(x.categories.value, "COCUK"))
  }

  /** End to end: the k-th id `create_rfm_analysis` puts on the new-brand list
      is the customer of the k-th qualifying merged row, which the campaign is
      meant for. */
  lemma {:induction false} AnalyzeRfmNewBrandQualifies(ids: seq<string>, lastDays: seq<int>, orders: seq<real>, prices: seq<real>,
                                                       cats: seq<Option<string>>, eR: seq<real>, eF: seq<real>, eM: seq<real>, k: int)
    requires |lastDays| == |ids| && |orders| == |ids| && |prices| == |ids| && |cats| == |ids|
    requires EdgesFit(Aggregate(ids, lastDays, orders, prices, Today), eR, eF, eM)
    requires AnalyzeRfm(ids, lastDays, orders, prices, cats, eR, eF, eM).Success?
    requires 0 <= k < |AnalyzeRfm(ids, lastDays, orders, prices, cats, eR, eF, eM).value.newBrand|
    ensures var a := AnalyzeRfm(ids, lastDays, orders, prices, cats, eR, eF, eM).value;
      var i := Kept(a.final, NewBrandRow)[k];
      0 <= i < |a.final| && a.newBrand[k] == IdOf(a.final[i]) && NewBrandQualified(a.final[i])
  {
    var a := AnalyzeRfm(ids, lastDays, orders, prices, cats, eR, eF, eM).value;
    assert a.newBrand == NewBrandTargets(a.final);
    NewBrandTargetsQualify(a.final, k);
  }

  /** End to end: the k-th id on the discount list is the customer of the
      k-th qualifying merged row, which the discount is meant for. */
  lemma {:induction false} AnalyzeRfmDiscountQualifies(ids: seq<string>, lastDays: seq<int>, orders: seq<real>, prices: seq<real>,
                                                       cats: seq<Option<string>>, eR: seq<real>, eF: seq<real>, eM: seq<real>, k: int)
    requires |lastDays| == |ids| && |orders| == |ids| && |prices| == |ids| && |cats| == |ids|
    requires EdgesFit(Aggregate(ids, lastDays, orders, prices, Today), eR, eF, eM)
    requires AnalyzeRfm(ids, lastDays, orders, prices, cats, eR, eF, eM).Success?
    requires 0 <= k < |AnalyzeRfm(ids, lastDays, orders, prices, cats, eR, eF, eM).value.discount|
    ensures var a := AnalyzeRfm(ids, lastDays, orders, prices, cats, eR, eF, eM).value;
      var i := Kept(a.final, DiscountRow)[k];
      0 <= i < |a.final| && a.discount[k] == IdOf(a.final[i]) && DiscountQualified(a.final[i])
  {
    var a := AnalyzeRfm(ids, lastDays, orders, prices, cats, eR, eF, eM).value;
    assert a.discount == DiscountTargets(a.final);
    DiscountTargetsQualify(a.final, k);
  }

  /** The metrics `create_rfm_analysis` computes from a table before preprocessing. */
  function RfmOf(dataframe: Frame, parse: string -> int): seq<RfmRow>
    reads dataframe, dataframe.orderNumOnline, dataframe.orderNumOffline
    reads dataframe.valueOffline, dataframe.valueOnline
    requires dataframe.Valid()
  {
    Aggregate(dataframe.masterId, Days(ToDatetimeColumn(parse, dataframe.dates[LastOrderDate])),
              Plus(dataframe.orderNumOffline[..], dataframe.orderNumOnline[..]),
              Plus(dataframe.valueOffline[..], dataframe.valueOnline[..]), Today)
  }

  /** The first two steps of `create_rfm_analysis` (caseStudy5/FLO_RFM.py:248-259):
      `dataframe.copy()`, with arrays of its own, then the totals and the date
      conversion on the copy. The caller's table is not touched. */
  method PreprocessedCopy(dataframe: Frame, parse: string -> int) returns (df: Frame)
    requires dataframe.Valid()
    ensures fresh(df) && fresh(df.orderNumOnline) && fresh(df.orderNumOffline)
    ensures fresh(df.valueOffline) && fresh(df.valueOnline)
    ensures df.Valid() && df.masterId == dataframe.masterId && df.categories == dataframe.categories
    ensures df.orderNumOnline[..] == dataframe.orderNumOnline[..] && df.orderNumOffline[..] == dataframe.orderNumOffline[..]
    ensures df.valueOffline[..] == dataframe.valueOffline[..] && df.valueOnline[..] == dataframe.valueOnline[..]
    ensures df.added == dataframe.added
      ["TotalPrice" := Plus(dataframe.valueOffline[..], dataframe.valueOnline[..])]
      ["TotalOrder" := Plus(dataframe.orderNumOffline[..], dataframe.orderNumOnline[..])]
    ensures df.dates.Keys == dataframe.dates.Keys
    ensures forall c :: c in df.dates ==>
      df.dates[c] == if c in DateColumns then ToDatetimeColumn(parse, dataframe.dates[c]) else dataframe.dates[c]
  {
    df := dataframe.Copy();
    assert df.valueOffline[..] == dataframe.valueOffline[..] by { assert df.Column(ValueOffline)[..] == dataframe.Column(ValueOffline)[..]; }
    assert df.valueOnline[..] == dataframe.valueOnline[..] by { assert df.Column(ValueOnline)[..] == dataframe.Column(ValueOnline)[..]; }
    assert df.orderNumOffline[..] == dataframe.orderNumOffline[..] by { assert df.Column(OrderNumOffline)[..] == dataframe.Column(OrderNumOffline)[..]; }
    assert df.orderNumOnline[..] == dataframe.orderNumOnline[..] by { assert df.Column(OrderNumOnline)[..] == dataframe.Column(OrderNumOnline)[..]; }
    PreprocessFloData(df, parse);
    assert df.valueOffline == df.Column(ValueOffline) && df.valueOnline == df.Column(ValueOnline);
    assert df.orderNumOffline == df.Column(OrderNumOffline) && df.orderNumOnline == df.Column(OrderNumOnline);
  }

  /** `create_rfm_analysis(dataframe)` (caseStudy5/FLO_RFM.py:223-318): works
      on a copy, which it preprocesses as `preprocess_flo_data` does, then
      scores, segments, merges and selects the two target lists. The caller's
      table is left unchanged. Writing the lists to CSV files is not modelled. */
  method CreateRfmAnalysis(dataframe: Frame, parse: string -> int, eR: seq<real>, eF: seq<real>, eM: seq<real>)
    returns (df: Frame, result: Result<RfmAnalysis, QcutError>)
    requires dataframe.Valid()
    requires EdgesFit(RfmOf(dataframe, parse), eR, eF, eM)
    ensures unchanged(dataframe) && unchanged(dataframe.orderNumOnline) && unchanged(dataframe.orderNumOffline)
    ensures unchanged(dataframe.valueOffline) && unchanged(dataframe.valueOnline)
    ensures fresh(df) && fresh(df.orderNumOnline) && fresh(df.orderNumOffline)
    ensures fresh(df.valueOffline) && fresh(df.valueOnline)
    ensures df.Valid() && df.masterId == dataframe.masterId && df.categories == dataframe.categories
    ensures df.orderNumOnline[..] == dataframe.orderNumOnline[..] && df.orderNumOffline[..] == dataframe.orderNumOffline[..]
    ensures df.valueOffline[..] == dataframe.valueOffline[..] && df.valueOnline[..] == dataframe.valueOnline[..]
    ensures df.added == dataframe.added
      ["TotalPrice" := Plus(dataframe.valueOffline[..], dataframe.valueOnline[..])]
      ["TotalOrder" := Plus(dataframe.orderNumOffline[..], dataframe.orderNumOnline[..])]
    ensures df.dates.Keys == dataframe.dates.Keys
    ensures forall c :: c in df.dates ==>
      df.dates[c] == if c in DateColumns then ToDatetimeColumn(parse, dataframe.dates[c]) else dataframe.dates[c]
    ensures result == AnalyzeRfm(dataframe.masterId, Days(ToDatetimeColumn(parse, dataframe.dates[LastOrderDate])),
                                 Plus(dataframe.orderNumOffline[..], dataframe.orderNumOnline[..]),
                                 Plus(dataframe.valueOffline[..], dataframe.valueOnline[..]),
                                 dataframe.categories, eR, eF, eM)
  {
    df := PreprocessedCopy(dataframe, parse);
    assert LastOrderDate in DateColumns;
    var lastDays := Days(df.dates[LastOrderDate]);
    result := AnalyzeRfm(df.masterId, lastDays, df.added["TotalOrder"], df.added["TotalPrice"], df.categories, eR, eF, eM);
  }
}
