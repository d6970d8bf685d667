/** The CLTV preparation and campaign selection of the FLO customers
    (caseStudy6/FLO_CLTV_Prediction.py): outlier capping, the omnichannel
    totals and date conversion, the `cltv_df` columns, the D/C/B/A quartile
    segments of the predicted CLTV, and the VIP and welcome-campaign lists.
    The predicted CLTV itself comes from the BG/NBD and Gamma-Gamma models of
    the `lifetimes` library and is a parameter here. */
module Cltv {
  import opened Wrappers
  import opened Scoring
  import opened Selection
  import opened Flo
  import opened Outliers

  // ---------------------------------------------------------------------
  // Data preparation (lines 80-98)

  /** The four `replace_with_thresholds` calls, the two total columns and the
      conversion of every column whose name contains "date", all in place on
      the script's table. Each column is capped at the fence of its own
      percentiles, and the totals add the capped values. */
  method PrepareCltvData(df: Frame, quantile01: seq<real> -> real, quantile99: seq<real> -> real, parse: string -> int)
    requires df.Valid()
    modifies df, df.orderNumOnline, df.orderNumOffline, df.valueOffline, df.valueOnline
    ensures df.Valid()
    ensures forall c :: df.Column(c) == old(df.Column(c))
    ensures forall c :: df.Column(c)[..] == Clip(old(df.Column(c)[..]), UpLimit(old(df.Column(c)[..]), quantile01, quantile99))
    ensures df.added == old(df.added)
      ["total_customer_value" := Plus(df.valueOffline[..], df.valueOnline[..])]
      ["total_customer_order" := Plus(df.orderNumOffline[..], df.orderNumOnline[..])]
    ensures df.dates.Keys == old(df.dates).Keys
    ensures forall c :: c in df.dates ==>
      df.dates[c] == if c in DateColumns then ToDatetimeColumn(parse, old(df.dates)[c]) else old(df.dates)[c]
    ensures df.masterId == old(df.masterId) && df.categories == old(df.categories)
  {
    ReplaceWithThresholds(df, OrderNumOnline, quantile01, quantile99);
    ReplaceWithThresholds(df, OrderNumOffline, quantile01, quantile99);
    ReplaceWithThresholds(df, ValueOffline, quantile01, quantile99);
    ReplaceWithThresholds(df, ValueOnline, quantile01, quantile99);
    df.SetColumn("total_customer_value", Plus(df.valueOffline[..], df.valueOnline[..]));
    df.SetColumn("total_customer_order", Plus(df.orderNumOffline[..], df.orderNumOnline[..]));
    df.ToDatetimeColumns(DateColumns, parse);
  }

  // ---------------------------------------------------------------------
  // cltv_df (lines 116-122)

  /** A float64 quotient: a number, or what division by zero gives. */
  datatype Ratio = Finite(v: real) | PosInf | NegInf | NaN

  /** `a / b` on float64 columns: the exact quotient when `b` is not zero;
      otherwise +inf, -inf or NaN by the sign of `a`. */
  function Divide(a: real, b: real): (q: Ratio)
    ensures q.Finite? <==> b != 0.0
    ensures q.Finite? ==> q.v * b == a
    ensures b == 0.0 ==> (q == PosInf <==> a > 0.0) && (q == NegInf <==> a < 0.0) && (q == NaN <==> a == 0.0)
  {
    if b != 0.0 then Finite(a / b)
    else if a > 0.0 then PosInf
    else if a < 0.0 then NegInf
    else NaN
  }

  /** One row of `cltv_df`. */
  datatype CltvRow = CltvRow(customerId: string, recencyWeekly: real, tWeekly: real,
                             frequency: real, monetaryAvg: Ratio)

  /** `cltv_df`: per table row, the customer, the weeks from its first to its
      last order, the weeks from its first order to `today`, its order count and
      its average order value. */
  function CltvTable(ids: seq<string>, firstDays: seq<int>, lastDays: seq<int>,
                     values: seq<real>, orders: seq<real>, today: int): (t: seq<CltvRow>)
    requires |firstDays| == |ids| && |lastDays| == |ids| && |values| == |ids| && |orders| == |ids|
    ensures |t| == |ids|
    ensures forall i :: 0 <= i < |ids| ==>
      && t[i].customerId == ids[i]
      && t[i].recencyWeekly * 7.0 == (lastDays[i] - firstDays[i]) as real
      && t[i].tWeekly * 7.0 == (today - firstDays[i]) as real
      && t[i].frequency == orders[i]
      && t[i].monetaryAvg == Divide(values[i], orders[i])
  {
    seq(|ids|, i requires 0 <= i < |ids| =>
      CltvRow(ids[i], (lastDays[i] - firstDays[i]) as real / 7.0, (today - firstDays[i]) as real / 7.0,
              orders[i], Divide(values[i], orders[i])))
  }

  /** A customer's recency never exceeds its tenure exactly when its last
      order is not after `today`. */
  lemma {:induction false} RecencyWithinTenure(ids: seq<string>, firstDays: seq<int>, lastDays: seq<int>,
                            values: seq<real>, orders: seq<real>, today: int, i: int)
    requires |firstDays| == |ids| && |lastDays| == |ids| && |values| == |ids| && |orders| == |ids|
    requires 0 <= i < |ids|
    ensures var row := CltvTable(ids, firstDays, lastDays, values, orders, today)[i];
      row.recencyWeekly <= row.tWeekly <==> lastDays[i] <= today
  {
    var row := CltvTable(ids, firstDays, lastDays, values, orders, today)[i];
    assert (row.tWeekly - row.recencyWeekly) * 7.0 == (today - lastDays[i]) as real;
  }

  /** For a customer with orders, average order value times order count gives
      back the total value. */
  lemma AverageRecoversTotal(ids: seq<string>, firstDays: seq<int>, lastDays: seq<int>,
                             values: seq<real>, orders: seq<real>, today: int, i: int)
    requires |firstDays| == |ids| && |lastDays| == |ids| && |values| == |ids| && |orders| == |ids|
    requires 0 <= i < |ids| && orders[i] > 0.0
    ensures var row := CltvTable(ids, firstDays, lastDays, values, orders, today)[i];
      row.monetaryAvg.Finite? && row.monetaryAvg.v * row.frequency == values[i]
  {
  }

  // ---------------------------------------------------------------------
  // cltv_segment (line 174)

  datatype ValueSegment = D | C | B | A

  /** `["D", "C", "B", "A"]`: the lowest quartile is D. */
  const QuartileLabels: seq<ValueSegment> := [D, C, B, A]

  /** A segment's rank among the quartiles, D lowest. */
  function Quartile(s: ValueSegment): nat {
    match s case D => 0 case C => 1 case B => 2 case A => 3
  }

  /** `pd.qcut(cltv_df["cltv"], 4, ["D", "C", "B", "A"])` with the quartile
      edges given: each covered value gets the segment whose rank is its bin,
      an uncovered one none, and coinciding edges raise. */
  function CltvSegments(cltv: seq<real>, e: seq<real>): (r: Result<seq<Option<ValueSegment>>, QcutError>)
    requires |e| == 5
    ensures r.Failure? <==> !StrictlyIncreasing(e)
    ensures r.Success? ==> |r.value| == |cltv|
    ensures r.Success? ==> forall i :: 0 <= i < |cltv| ==> (r.value[i].Some? <==> Covers(e, cltv[i]))
    ensures r.Success? ==> forall i :: 0 <= i < |cltv| && r.value[i].Some? ==>
      InBin(e, Quartile(r.value[i].value), cltv[i])
  {
    var r := Qcut(cltv, e, QuartileLabels);
    if r.Success? then
      assert forall i :: 0 <= i < |cltv| && r.value[i].Some? ==> InBin(e, Quartile(r.value[i].value), cltv[i]) by {
        forall i | 0 <= i < |cltv| && r.value[i].Some? ensures InBin(e, Quartile(r.value[i].value), cltv[i]) {
          var k := BinOf(e, cltv[i]).value;
          assert r.value[i] == Some(QuartileLabels[k]);
        }
      }
      r
    else r
  }

  /** The labels rise with the value: a higher CLTV never gets a lower segment. */
  lemma {:induction false} CltvSegmentMonotone(cltv: seq<real>, e: seq<real>, i: int, j: int)
    requires |e| == 5 && CltvSegments(cltv, e).Success?
    requires 0 <= i < |cltv| && 0 <= j < |cltv| && Covers(e, cltv[i]) && Covers(e, cltv[j])
    requires cltv[i] <= cltv[j]
    ensures Quartile(CltvSegments(cltv, e).value[i].value) <= Quartile(CltvSegments(cltv, e).value[j].value)
  {
    var s := CltvSegments(cltv, e).value;
    InBinMonotone(e, Quartile(s[i].value), Quartile(s[j].value), cltv[i], cltv[j]);
  }

  // ---------------------------------------------------------------------
  // Campaign lists (lines 192-194, 210-217)

  /** A row of `cltv_df` with its `cltv_segment`, missing when the cut left it NaN. */
  datatype CltvCustomer = CltvCustomer(row: CltvRow, segment: Option<ValueSegment>)

  function WithSegments(t: seq<CltvRow>, segs: seq<Option<ValueSegment>>): seq<CltvCustomer>
    requires |segs| == |t|
  {
    seq(|t|, i requires 0 <= i < |t| => CltvCustomer(t[i], segs[i]))
  }

  /** The 75th percentile of `monetary_cltv_avg`, 182.45, as the script hard-codes it. */
  const VipMonetaryFloor: real := 182.45

  /** `x > t` for a float64: true of +inf, false of -inf and NaN. */
  predicate Above(x: Ratio, t: real) {
    x.PosInf? || (x.Finite? && x.v > t)
  }

  /** The VIP mask: segment A, more orders than the median, and an average
      order value above the floor. A missing segment is not A. */
  predicate IsVip(x: CltvCustomer, median: real) {
    x.segment == Some(A) && x.row.frequency > median && Above(x.row.monetaryAvg, VipMonetaryFloor)
  }

  /** `recent_threshold`, `frequency_threshold` and `loyal_segment`. */
  const RecentThreshold: real := 30.0
  const FrequencyThreshold: real := 2.0
  const LoyalSegments: seq<ValueSegment> := [A, B]

  /** The welcome mask: recency of at most 30 weeks, at least 2 orders, and a
      segment outside A and B; `isin` is false for a missing segment, so such a
      row passes. */
  predicate IsNewCustomer(x: CltvCustomer) {
    && x.row.recencyWeekly <= RecentThreshold
    && x.row.frequency >= FrequencyThreshold
    && !(x.segment.Some? && x.segment.value in LoyalSegments)
  }

  function CustomerId(x: CltvCustomer): string {
    x.row.customerId
  }

  /** `vip_customers['customer_id']`: the customer of every row passing the
      VIP mask, in table order. */
  function VipCustomers(customers: seq<CltvCustomer>, median: real): (r: seq<string>)
    ensures |r| == |Kept(customers, x => IsVip(x, median))| <= |customers|
    ensures forall k :: 0 <= k < |r| ==>
      var i := Kept(customers, x => IsVip(x, median))[k];
      0 <= i < |customers| && IsVip(customers[i], median) && r[k] == CustomerId(customers[i])
  {
    Project(Where(customers, x => IsVip(x, median)), CustomerId)
  }

  /** `new_customers['customer_id']`: the customer of every row passing the
      welcome mask, in table order. */
  function NewCustomers(customers: seq<CltvCustomer>): (r: seq<string>)
    ensures |r| == |Kept(customers, IsNewCustomer)| <= |customers|
    ensures forall k :: 0 <= k < |r| ==>
      var i := Kept(customers, IsNewCustomer)[k];
      0 <= i < |customers| && IsNewCustomer(customers[i]) && r[k] == CustomerId(customers[i])
  {
    Project(Where(customers, IsNewCustomer), CustomerId)
  }

  /** The k-th VIP is the customer of the k-th row passing the mask, in table
      order: segment A, more orders than the median, and an average above
      182.45 (or infinite, from a positive value over zero orders). */
  lemma VipCustomersQualify(customers: seq<CltvCustomer>, median: real, k: int)
    requires 0 <= k < |VipCustomers(customers, median)|
    ensures var i := Kept(customers, x => IsVip(x, median))[k];
      && VipCustomers(customers, median)[k] == customers[i].row.customerId
      && customers[i].segment == Some(A)
      && customers[i].row.frequency > median
      && (customers[i].row.monetaryAvg.PosInf? ||
          (customers[i].row.monetaryAvg.Finite? && customers[i].row.monetaryAvg.v > 182.45))
  {
  }

  /** The k-th welcome-campaign customer is the customer of the k-th row
      passing the mask, in table order: recency at most 30 weeks, at least two
      orders, and a segment that is neither A nor B. */
  lemma NewCustomersQualify(customers: seq<CltvCustomer>, k: int)
    requires 0 <= k < |NewCustomers(customers)|
    ensures var i := Kept(customers, IsNewCustomer)[k];
      && NewCustomers(customers)[k] == customers[i].row.customerId
      && customers[i].row.recencyWeekly <= 30.0
      && customers[i].row.frequency >= 2.0
      && customers[i].segment != Some(A) && customers[i].segment != Some(B)
  {
  }

  /** With one row per customer, no customer is on both lists: a VIP is in
      segment A, which the welcome campaign excludes. */
  lemma {:induction false} CampaignsDisjoint(customers: seq<CltvCustomer>, median: real, id: string)
    requires forall i, j :: 0 <= i < j < |customers| ==> customers[i].row.customerId != customers[j].row.customerId
    requires id in VipCustomers(customers, median)
    ensures id !in NewCustomers(customers)
  {
    var vipIdx := Kept(customers, x => IsVip(x, median));
    var newIdx := Kept(customers, IsNewCustomer);
    var k :| 0 <= k < |VipCustomers(customers, median)| && VipCustomers(customers, median)[k] == id;
    var i := vipIdx[k];
    assert customers[i].row.customerId == id;
    forall l | 0 <= l < |NewCustomers(customers)| ensures NewCustomers(customers)[l] != id {
      var i2 := newIdx[l];
      assert customers[i2].segment != customers[i].segment;
      assert i2 != i;
      assert NewCustomers(customers)[l] == customers[i2].row.customerId;
    }
  }

  /** What the campaign section of the script produces. */
  datatype Campaigns = Campaigns(vip: seq<string>, welcome: seq<string>)

  /** Segmenting `cltv_df` by the predicted `cltv` and selecting both lists. */
  function CltvCampaigns(t: seq<CltvRow>, cltv: seq<real>, e: seq<real>, median: real): (r: Result<Campaigns, QcutError>)
    requires |cltv| == |t| && |e| == 5
    ensures r.Failure? <==> !StrictlyIncreasing(e)
  {
    var segs :- CltvSegments(cltv, e);
    var customers := WithSegments(t, segs);
    Success(Campaigns(VipCustomers(customers, median), NewCustomers(customers)))
  }

  /** End to end: the k-th VIP is the customer of a `cltv_df` row whose
      predicted CLTV lies in the top quartile bin, with more orders than the
      median and an average order value above 182.45 (or infinite). */
  lemma {:induction false} CltvVipQualifies(t: seq<CltvRow>, cltv: seq<real>, e: seq<real>, median: real, k: int)
    requires |cltv| == |t| && |e| == 5 && CltvCampaigns(t, cltv, e, median).Success?
    requires 0 <= k < |CltvCampaigns(t, cltv, e, median).value.vip|
    ensures exists i :: (0 <= i < |t| && CltvCampaigns(t, cltv, e, median).value.vip[k] == t[i].customerId
                         && InBin(e, 3, cltv[i]) && t[i].frequency > median && Above(t[i].monetaryAvg, VipMonetaryFloor))
  {
    var segs := CltvSegments(cltv, e).value;
    var customers := WithSegments(t, segs);
    assert CltvCampaigns(t, cltv, e, median).value.vip == VipCustomers(customers, median);
    var i := Kept(customers, x => IsVip(x, median))[k];
    assert customers[i] == CltvCustomer(t[i], segs[i]) && segs[i] == Some(A);
  }

  /** End to end: the k-th welcome customer is the customer of a `cltv_df`
      row with recency of at most 30 weeks and at least 2 orders whose
      predicted CLTV lies in neither of the two top quartile bins. */
  lemma {:induction false} CltvWelcomeQualifies(t: seq<CltvRow>, cltv: seq<real>, e: seq<real>, median: real, k: int)
    requires |cltv| == |t| && |e| == 5 && CltvCampaigns(t, cltv, e, median).Success?
    requires 0 <= k < |CltvCampaigns(t, cltv, e, median).value.welcome|
    ensures exists i :: (0 <= i < |t| && CltvCampaigns(t, cltv, e, median).value.welcome[k] == t[i].customerId
                         && t[i].recencyWeekly <= RecentThreshold && t[i].frequency >= FrequencyThreshold
                         && !InBin(e, 2, cltv[i]) && !InBin(e, 3, cltv[i]))
  {
    var segs := CltvSegments(cltv, e).value;
    var customers := WithSegments(t, segs);
    assert CltvCampaigns(t, cltv, e, median).value.welcome == NewCustomers(customers);
    var i := Kept(customers, IsNewCustomer)[k];
    assert customers[i] == CltvCustomer(t[i], segs[i]);
    assert segs[i] != Some(A) && segs[i] != Some(B);
    if InBin(e, 2, cltv[i]) || InBin(e, 3, cltv[i]) {
      assert Covers(e, cltv[i]);
      var q := if InBin(e, 2, cltv[i]) then 2 else 3;
      BinUnique(e, q, Quartile(segs[i].value), cltv[i]);
      assert false;
    }
  }

  /** The script end to end on its table: preparation in place, then
      `cltv_df` on the prepared columns, then segments and campaign lists.
      `cltv` stands for the predicted 6-month CLTV of each row and `median`
      for the median order count; writing the lists to CSV files is not
      modelled. */
  method CltvPrediction(df: Frame, quantile01: seq<real> -> real, quantile99: seq<real> -> real,
                        parse: string -> int, cltv: seq<real>, e: seq<real>, median: real)
    returns (result: Result<Campaigns, QcutError>)
    requires df.Valid() && |cltv| == |df.masterId| && |e| == 5
    modifies df, df.orderNumOnline, df.orderNumOffline, df.valueOffline, df.valueOnline
    ensures df.Valid()
    ensures forall c :: df.Column(c)[..] == Clip(old(df.Column(c)[..]), UpLimit(old(df.Column(c)[..]), quantile01, quantile99))
    ensures df.added == old(df.added)
      ["total_customer_value" := Plus(df.valueOffline[..], df.valueOnline[..])]
      ["total_customer_order" := Plus(df.orderNumOffline[..], df.orderNumOnline[..])]
    ensures forall c :: df.Column(c) == old(df.Column(c))
    ensures df.dates.Keys == old(df.dates).Keys
    ensures forall c :: c in df.dates ==>
      df.dates[c] == if c in DateColumns then ToDatetimeColumn(parse, old(df.dates)[c]) else old(df.dates)[c]
    ensures df.masterId == old(df.masterId) && df.categories == old(df.categories)
    ensures FirstOrderDate in df.dates && LastOrderDate in df.dates
    ensures df.dates[FirstOrderDate] == ToDatetimeColumn(parse, old(df.dates)[FirstOrderDate])
    ensures df.dates[LastOrderDate] == ToDatetimeColumn(parse, old(df.dates)[LastOrderDate])
    ensures result == CltvCampaigns(
      CltvTable(df.masterId, Days(df.dates[FirstOrderDate]), Days(df.dates[LastOrderDate]),
                df.added["total_customer_value"], df.added["total_customer_order"], Today),
      cltv, e, median)
  {
    PrepareCltvData(df, quantile01, quantile99, parse);
    assert FirstOrderDate in DateColumns && LastOrderDate in DateColumns;
    var t := CltvTable(df.masterId, Days(df.dates[FirstOrderDate]), Days(df.dates[LastOrderDate]),
                       df.added["total_customer_value"], df.added["total_customer_order"], Today);
    result := CltvCampaigns(t, cltv, e, median);
  }
}
