# FLO customer analytics: RFM segmentation and CLTV campaign selection

This project models the two FLO case studies in Dafny.

- **RFM analysis** (`caseStudy5/FLO_RFM.py`):
  - It builds omnichannel totals and converts the date columns of the FLO customer table (`flo_data_20k`).
  - It aggregates the table per `master_id` into recency, frequency and monetary values.
  - It scores these with `pd.qcut` into 1-5 scores; frequency is ranked first with `rank(method="first")`.
  - It builds the two-digit `RF_Score`; the script's module-level section also builds the three-digit `RFM_Score`.
  - It maps `RF_Score` to a segment name through the regular-expression table `seg_map`.
  - It left-merges the interest categories back in.
  - It selects the target customers for a new women's brand and for a men's and children's discount.
  - `create_rfm_analysis` repeats these steps, except `RFM_Score`, on a copy of the caller's table.
- **CLTV preparation and campaigns** (`caseStudy6/FLO_CLTV_Prediction.py`):
  - It caps the four channel columns in place at a rounded upper fence (`outlier_thresholds`, `replace_with_thresholds`).
  - It adds the totals and converts the dates.
  - It builds `cltv_df` with weekly recency and tenure, frequency and average order value.
  - It cuts the predicted CLTV into quartile segments D/C/B/A.
  - It selects the VIP list and the welcome-campaign list.

Modelling conventions:

- The customer table is a `class Frame` that the scripts change in place. Its four channel columns are `array<real>`; the date columns and added columns are maps of sequences.
- Pure steps are functions over sequences: grouping, scoring, segmentation, merge and selection.
- Dates are day numbers since 1970-01-01. The analysis date 2021-06-01 is day 18779.
- Library values that the model cannot compute are parameters:
  - the `qcut` bin edges,
  - pandas' interpolating `quantile`,
  - `pd.to_datetime`'s parser,
  - the predicted CLTV,
  - the median order count.
- `pd.qcut` raising on duplicate edges is modelled as a `Failure`. pandas does not raise when there is a single bin, and neither does the model; the scripts always cut into 4 or 5 bins.
- A division by zero in `monetary_cltv_avg` gives `PosInf`, `NegInf` or `NaN`, as float64 does.

Points where the code's behaviour is easy to misread; the model follows the code:

- `seg_map` spells the label `at_Risk`, with a capital R.
- Frequency is the sum of `TotalOrder` per customer.
- Only the upper fence of `outlier_thresholds` is applied.
- The welcome campaign lets a row with a missing CLTV segment through, because `~isin` is true for a missing value.

## Model

| member | source | states |
|---|---|---|
| Strings.SortedDistinct | caseStudy5/FLO_RFM.py:264-268 | groupby keys: strictly ascending in code-point order and exactly the ids present in the column |
| Strings.Insert | caseStudy5/FLO_RFM.py:264 | inserting a key keeps the key list strictly sorted and adds exactly that key |
| Strings.LexTransitive | caseStudy5/FLO_RFM.py:264 | the string order groupby sorts by is transitive |
| Strings.LexTotal | caseStudy5/FLO_RFM.py:264 | any two different strings are ordered one way or the other |
| Strings.LexIrreflexive | caseStudy5/FLO_RFM.py:264 | no string precedes itself |
| Strings.SortedIsDistinct | caseStudy5/FLO_RFM.py:264 | a strictly sorted key list holds no key twice (one group per customer) |
| Strings.ContainsIffOccurs | caseStudy5/FLO_RFM.py:304 | `str.contains` with a literal holds exactly when the pattern occurs at some position |
| Strings.Contains | caseStudy5/FLO_RFM.py:304 | `str.contains` with a literal pattern: a text contains a pattern only if it is at least as long |
| Scoring.BinOf | caseStudy5/FLO_RFM.py:273 | a value gets a bin exactly when the edges cover it, and the value lies in that bin (first bin closed, others half-open on the left) |
| Scoring.BinUnique | caseStudy5/FLO_RFM.py:273 | with strictly increasing edges a value lies in at most one bin |
| Scoring.BinMonotone | caseStudy5/FLO_RFM.py:273 | a larger value never falls in a lower bin |
| Scoring.InBinMonotone | caseStudy5/FLO_RFM.py:273 | two values in bins k and l with x <= y have k <= l |
| Scoring.Qcut | caseStudy5/FLO_RFM.py:273-275 | fails exactly when there is more than one bin and the edges are not unique; otherwise one entry per value, defined exactly for covered values, and equal to the label of the value's bin |
| Scoring.RecencyLabelBin | caseStudy5/FLO_RFM.py:273 | with labels [5,4,3,2,1], a covered recency scored s lies in bin 5 - s |
| Scoring.ScoreLabelBin | caseStudy5/FLO_RFM.py:274-275 | with labels [1..5], a covered value scored s lies in bin s - 1 |
| Scoring.RecencyScoreAntitone | caseStudy5/FLO_RFM.py:273 | a more recent customer (smaller recency) never gets a lower recency score |
| Scoring.ScoreMonotone | caseStudy5/FLO_RFM.py:274-275 | a larger frequency rank or monetary value never gets a lower score |
| Scoring.CountPrecedingBound | caseStudy5/FLO_RFM.py:274 | among the first m rows, fewer than m precede a row that is itself among them |
| Scoring.CountPrecedingGrows | caseStudy5/FLO_RFM.py:274 | a row preceding another has strictly fewer predecessors |
| Scoring.RankFirst | caseStudy5/FLO_RFM.py:274 | `rank(method="first")`: one rank per value, each in 1..n |
| Scoring.RankOrder | caseStudy5/FLO_RFM.py:274 | row j ranks below row i exactly when its value is smaller, or equal and earlier in the table |
| Scoring.RankInjective | caseStudy5/FLO_RFM.py:274 | no two rows share a rank |
| Scoring.ImageSize | caseStudy5/FLO_RFM.py:274 | the first m rows receive m different ranks |
| Scoring.UpTo | caseStudy5/FLO_RFM.py:274 | the set 1..n, of size n |
| Scoring.RankIsPermutation | caseStudy5/FLO_RFM.py:274 | the ranks are exactly 1..n, all different |
| Scoring.RfScore | caseStudy5/FLO_RFM.py:277-278 | `RF_Score` is two digits whose values are the recency and frequency scores |
| Scoring.RfmScore | caseStudy5/FLO_RFM.py:163 | `RFM_Score` is `RF_Score` followed by the digit of the monetary score |
| Scoring.RfScoreInjective | caseStudy5/FLO_RFM.py:277-278 | the RF code determines both scores |
| Segmentation.SegmentOf | caseStudy5/FLO_RFM.py:281-292 | each score pair has exactly one segment in the decision table |
| Segmentation.Sub | caseStudy5/FLO_RFM.py:294 | `re.sub` with one `seg_map` rule: introduces no character outside the text and the replacement, and leaves a text with no match unchanged |
| Segmentation.ReplaceAll | caseStudy5/FLO_RFM.py:294 | `replace(seg_map, regex=True)` on a cell: every character of the result comes from the cell or from some rule's replacement |
| Segmentation.SubKeepsDigitFree | caseStudy5/FLO_RFM.py:294 | a digit rule leaves a digit-free text unchanged |
| Segmentation.ReplaceKeepsDigitFree | caseStudy5/FLO_RFM.py:294 | once a code is replaced by a name, the later rules change nothing |
| Segmentation.ReplaceIsFirstMatch | caseStudy5/FLO_RFM.py:294 | `replace(seg_map, regex=True)` on a code yields the replacement of the first matching rule, or the code itself when none matches |
| Segmentation.SegMapIsDigitRules | caseStudy5/FLO_RFM.py:281-292 | every `seg_map` pattern starts with a digit class and every name is digit-free |
| Segmentation.ExactlyOneRuleMatches | caseStudy5/FLO_RFM.py:281-292 | every code "rf" with r, f in 1..5 matches exactly one `seg_map` pattern, the one of its segment |
| Segmentation.SegmentationIsLookup | caseStudy5/FLO_RFM.py:294 | the regex replacement gives every score pair the name of its segment |
| Segmentation.KnownEntries | caseStudy5/FLO_RFM.py:170-181 | sample codes get the expected names (11 hibernating, 15 cant_loose, 33 need_attention, 41 promising, 51 new_customers, 55 champions, 43 potential_loyalists, 35 loyal_customers) |
| Segmentation.LabelInjective | caseStudy5/FLO_RFM.py:281-292 | different segments carry different names |
| Selection.Kept | caseStudy5/FLO_RFM.py:302-305 | a boolean mask keeps exactly the accepted rows, in increasing position |
| Selection.Where | caseStudy5/FLO_RFM.py:302-305 | `df[mask]` is the accepted rows in table order |
| Selection.WhereMembers | caseStudy5/FLO_RFM.py:308-311 | a row is selected exactly when it is in the table and passes the mask |
| Flo.ToDatetime | caseStudy5/FLO_RFM.py:259 | converts a cell to a day and leaves a converted cell alone |
| Flo.ToDatetimeColumn | caseStudy5/FLO_RFM.py:259 | converts every cell of a column and keeps cells that are already days |
| Flo.ToDatetimeColumnIdempotent | caseStudy5/FLO_RFM.py:258-259 | converting a converted column again changes nothing |
| Flo.Days | caseStudy5/FLO_RFM.py:265 | the day numbers of a converted column |
| Flo.Frame.constructor | caseStudy5/FLO_RFM.py:47-48 | a table holding the given columns and no added ones |
| Flo.Frame.Copy | caseStudy5/FLO_RFM.py:248 | `dataframe.copy()`: a fresh table with fresh arrays holding the same values |
| Flo.Frame.SetColumn | caseStudy5/FLO_RFM.py:252-253 | `df[name] = values` adds or replaces exactly that column |
| Flo.Frame.ToDatetimeColumns | caseStudy5/FLO_RFM.py:256-259 | converts exactly the listed date columns, each once, and nothing else |
| Flo.PreprocessFloData | caseStudy5/FLO_RFM.py:94-132 | adds TotalPrice = offline + online value and TotalOrder = offline + online orders, and converts the four date columns, in place |
| Outliers.RoundHalfEven | caseStudy6/FLO_CLTV_Prediction.py:69 | Python `round`: within 1/2 of x, and the even integer on a tie |
| Outliers.RoundMonotone | caseStudy6/FLO_CLTV_Prediction.py:69 | rounding preserves order |
| Outliers.OutlierThresholds | caseStudy6/FLO_CLTV_Prediction.py:61-69 | each rounded fence is within 1/2 of its exact value q01 - 1.5 (q99 - q01) or q99 + 1.5 (q99 - q01); with q01 <= q99 the low fence is at most the up fence, and the up fence is at least round(q99) |
| Outliers.Clip | caseStudy6/FLO_CLTV_Prediction.py:74 | values above the fence become the fence and the others stay; no value exceeds the fence |
| Outliers.ClipIdempotent | caseStudy6/FLO_CLTV_Prediction.py:74 | capping twice is capping once |
| Outliers.ClipKeepsLowValues | caseStudy6/FLO_CLTV_Prediction.py:72-74 | values below the low fence are not changed, since only the up fence is applied |
| Outliers.ClipAbove | caseStudy6/FLO_CLTV_Prediction.py:74 | the masked assignment on the column's array leaves exactly the capped column |
| Outliers.ReplaceWithThresholds | caseStudy6/FLO_CLTV_Prediction.py:72-74 | caps the named column at the up fence of its own percentiles and leaves every other column unchanged |
| Rfm.LatestOrder | caseStudy5/FLO_RFM.py:265 | `date.max()` of a group: attained by one of its rows and no smaller than any of them |
| Rfm.GroupSum | caseStudy5/FLO_RFM.py:266-267 | `.sum()` over a customer's rows: 0 for a customer without rows, and never negative over a non-negative column |
| Rfm.Aggregate | caseStudy5/FLO_RFM.py:264-270 | one row per distinct `master_id`, in sorted order, covering exactly the ids of the table |
| Rfm.RecencyIsFromLatestOrder | caseStudy5/FLO_RFM.py:265 | recency is today minus the group's latest order day: attained by a row and the smallest over the group |
| Rfm.KeyTotalAppend | caseStudy5/FLO_RFM.py:266-267 | adding a row adds its value to the grouped total exactly when its key is a group |
| Rfm.GroupsPartitionTotal | caseStudy5/FLO_RFM.py:266-267 | group sums over distinct keys covering every id add up to the column total |
| Rfm.KeyTotalOfEmpty | caseStudy5/FLO_RFM.py:266-267 | no rows, no total |
| Rfm.TotalOfGroupSums | caseStudy5/FLO_RFM.py:266-267 | the total of the per-group sums is the grouped total |
| Rfm.AggregateKeepsTotals | caseStudy5/FLO_RFM.py:264-270 | summed frequency equals total TotalOrder, and summed monetary equals total TotalPrice |
| Rfm.TotalOfPlus | caseStudy5/FLO_RFM.py:252-253 | the total of `TotalOrder` or `TotalPrice` (Flo.Plus of the two channel columns) is the sum of the two channel totals |
| Rfm.Scored | caseStudy5/FLO_RFM.py:277-294 | a scored row's RF code is the two score digits and its segment is the name of the pair's segment |
| Rfm.RecencyScoreAt | caseStudy5/FLO_RFM.py:273 | a customer's recency lies in bin 5 - recency_score |
| Rfm.FrequencyScoreAt | caseStudy5/FLO_RFM.py:274 | a customer's frequency rank lies in bin frequency_score - 1 |
| Rfm.MonetaryScoreAt | caseStudy5/FLO_RFM.py:275 | a customer's monetary value lies in bin monetary_score - 1 |
| Rfm.ScoreRowIsScored | caseStudy5/FLO_RFM.py:273-294 | each scored row carries its aggregate row, the three scores of its bins, its RF code and its segment |
| Rfm.ScoreRfm | caseStudy5/FLO_RFM.py:273-294 | fails exactly when some edges are not unique; otherwise every row is scored from its own bins |
| Rfm.RecencyScoreOrder | caseStudy5/FLO_RFM.py:273 | a customer with smaller recency never has a lower recency score |
| Rfm.FrequencyScoreOrder | caseStudy5/FLO_RFM.py:274 | a customer with smaller frequency (or equal and earlier) never has a higher frequency score |
| Rfm.MonetaryScoreOrder | caseStudy5/FLO_RFM.py:275 | a customer who spent less never has a higher monetary score |
| Rfm.LeftJoinRow | caseStudy5/FLO_RFM.py:297-298 | `how="left"`: every scored row yields at least one merged row |
| Rfm.Merge | caseStudy5/FLO_RFM.py:297-298 | the left merge keeps at least one row per scored row (characterised row by row by MergeJoin and MergeOfUniqueIds) |
| Rfm.MatchesEmptyIff | caseStudy5/FLO_RFM.py:297-298 | a row finds no partner exactly when its id is absent from the right table |
| Rfm.MatchesJoin | caseStudy5/FLO_RFM.py:297-298 | every joined row pairs the scored row with the categories of a right-table row with the same id |
| Rfm.MergeJoin | caseStudy5/FLO_RFM.py:297-298 | every merged row comes from a scored row, with the categories of a matching row, or None when its id is absent |
| Rfm.MatchesOfUniqueId | caseStudy5/FLO_RFM.py:297-298 | an id that occurs once yields exactly one joined row, with that row's categories |
| Rfm.MatchesOfAbsent | caseStudy5/FLO_RFM.py:297-298 | an absent id yields no partner |
| Rfm.MergeLast | caseStudy5/FLO_RFM.py:297-298 | the left merge appends, for the last scored row, its single joined row |
| Rfm.AppendJoined | caseStudy5/FLO_RFM.py:297-298 | appending a joined row to a row-by-row join of a prefix joins the whole sequence |
| Rfm.MergeOfUniqueIds | caseStudy5/FLO_RFM.py:297-298 | with unique ids on the right, the merge keeps one row per scored row, in the left order, each joined to its own categories |
| Rfm.NewBrandTargets | caseStudy5/FLO_RFM.py:302-305 | one id per row passing the mask, in table order, each the `master_id` of a passing row, and no more ids than merged rows |
| Rfm.DiscountTargets | caseStudy5/FLO_RFM.py:308-311 | one id per row passing the mask (missing categories fail it), in table order, each the `master_id` of a passing row |
| Rfm.NewBrandTargetsQualify | caseStudy5/FLO_RFM.py:302-305 | each new-brand target is the id of a row in segment loyal_customers or champions whose categories contain KADIN |
| Rfm.DiscountTargetsQualify | caseStudy5/FLO_RFM.py:308-311 | each discount target is the id of a row in cant_loose, hibernating or new_customers whose categories contain ERKEK or COCUK |
| Rfm.AktifCocukMatchesCocuk | caseStudy5/FLO_RFM.py:310 | the AKTIFCOCUK alternative adds nothing, since it contains COCUK |
| Rfm.AnalyzeRfm | caseStudy5/FLO_RFM.py:262-311 | fails exactly when a `qcut` would raise; otherwise every final row's segment is the name of its scores' segment |
| Rfm.AnalyzeRfmNewBrandQualifies | caseStudy5/FLO_RFM.py:262-305 | end to end: the k-th new-brand id is the customer of a merged row in segment loyal_customers or champions whose categories contain KADIN |
| Rfm.AnalyzeRfmDiscountQualifies | caseStudy5/FLO_RFM.py:262-311 | end to end: the k-th discount id is the customer of a merged row in cant_loose, hibernating or new_customers whose categories contain ERKEK or COCUK |
| Rfm.PreprocessedCopy | caseStudy5/FLO_RFM.py:248-259 | a fresh table with fresh arrays holding the caller's values, plus TotalPrice and TotalOrder, with the four date columns converted and the others kept; the caller's table is not modified |
| Rfm.CreateRfmAnalysis | caseStudy5/FLO_RFM.py:223-318 | leaves the caller's table and its arrays unchanged; returns a fresh copy with fresh arrays, the same channel values, TotalPrice, TotalOrder and the four date columns converted (others kept), and the analysis of those columns |
| Cltv.PrepareCltvData | caseStudy6/FLO_CLTV_Prediction.py:80-98 | caps each channel column in place at its own fence, adds the totals of the capped columns, and converts the date columns |
| Cltv.Divide | caseStudy6/FLO_CLTV_Prediction.py:122 | a finite quotient exactly when the divisor is non-zero, with q * b = a; otherwise +inf, -inf or NaN by the sign of a |
| Cltv.CltvTable | caseStudy6/FLO_CLTV_Prediction.py:116-122 | per row: the id, 7 * recency_weekly = last - first, 7 * T_weekly = today - first, the order total, and value / orders |
| Cltv.RecencyWithinTenure | caseStudy6/FLO_CLTV_Prediction.py:118-120 | recency_weekly <= T_weekly exactly when the last order is not after the analysis date |
| Cltv.AverageRecoversTotal | caseStudy6/FLO_CLTV_Prediction.py:122 | with orders > 0, the average times the frequency is the total value |
| Cltv.CltvSegments | caseStudy6/FLO_CLTV_Prediction.py:174 | fails exactly on non-unique edges; otherwise a segment exactly for covered values, D/C/B/A by quartile bin |
| Cltv.CltvSegmentMonotone | caseStudy6/FLO_CLTV_Prediction.py:174 | a higher CLTV never gets a lower segment |
| Cltv.VipCustomers | caseStudy6/FLO_CLTV_Prediction.py:192-194 | one id per row passing the VIP mask, in table order, each the `customer_id` of a passing row |
| Cltv.NewCustomers | caseStudy6/FLO_CLTV_Prediction.py:215-217 | one id per row passing the welcome mask, in table order, each the `customer_id` of a passing row |
| Cltv.VipCustomersQualify | caseStudy6/FLO_CLTV_Prediction.py:192-194 | each VIP is the id of a row in segment A with frequency above the median and average above 182.45 (or +inf) |
| Cltv.NewCustomersQualify | caseStudy6/FLO_CLTV_Prediction.py:210-217 | each welcome customer has recency <= 30 weeks, at least 2 orders, and a segment that is neither A nor B |
| Cltv.CampaignsDisjoint | caseStudy6/FLO_CLTV_Prediction.py:192-217 | with one row per customer, no VIP is on the welcome list |
| Cltv.CltvCampaigns | caseStudy6/FLO_CLTV_Prediction.py:174-217 | fails exactly when the quartile edges are not unique |
| Cltv.CltvVipQualifies | caseStudy6/FLO_CLTV_Prediction.py:174-194 | end to end: each VIP is the customer of a row whose predicted CLTV lies in the top quartile bin, with frequency above the median and average above 182.45 (or +inf) |
| Cltv.CltvWelcomeQualifies | caseStudy6/FLO_CLTV_Prediction.py:174-217 | end to end: each welcome customer has recency <= 30 weeks, at least 2 orders, and a predicted CLTV in neither of the two top quartile bins |
| Cltv.CltvPrediction | caseStudy6/FLO_CLTV_Prediction.py:80-217 | the table after in-place preparation (capped channel columns in the same arrays, totals added, the four date columns converted and the others kept, ids and categories unchanged), and the campaigns computed from `cltv_df` of the prepared columns and the analysis date |

## Left out

- Reading the CSV file, writing the target lists to CSV (including the `csv_path` switch), and the display-only reports: `head`, `describe`, `dtypes`, the channel `groupby` report, the top-10 listings, the segment means, and the top-20 CLTV listing.
- Flo.PreprocessFloData: it does not return the channel distribution or the top-10 customer tables, because these are reports only.
- The BG/NBD and Gamma-Gamma fitting and predictions of the `lifetimes` library (`exp_sales_3_month`, `exp_sales_6_month`, `exp_average_value`, the 6-month `cltv`). Foreign numerical code; the predicted CLTV is a parameter.
- pandas' interpolating `quantile` and the `qcut` edge computation. Both are parameters, and the callers must supply edges that cover every value (`EdgesFit`), as quantile edges from the minimum to the maximum do.
- `pd.to_datetime` text parsing is a parameter; dates are whole days.
- Floating point: values are exact reals, so rounding error in sums, quotients and the fences is not modelled.
- The median of `frequency` is a parameter.
- Cltv.PrepareCltvData: the script converts every column whose name contains "date". The model converts the four known date columns, which are the only such columns of the table.
- Flo.Frame: the `order_channel` and `last_order_channel` columns are not modelled, because no modelled step reads them.
- The module-level RFM statements (caseStudy5/FLO_RFM.py:64-73, 139-218) are modelled through the model of `create_rfm_analysis`, which repeats them. The module-level version differs in three ways that the model does not follow:
  - it scores monetary before frequency, which changes only which `qcut` error is raised first;
  - it adds `RFM_Score` (line 163), modelled on its own by Scoring.RfmScore;
  - it keeps only `segment`, `recency`, `frequency` and `monetary` (line 182) before the merge at line 198, so its merged table has no score or `RF_Score` columns. The function's merged table (lines 297-298), which Rfm.Merge models, keeps them.
- Rfm.ScoreRfm: it requires edges that cover every value (`EdgesFit`), so the NaN that `qcut` gives for a value outside the edges is not modelled for RFM scores. Scoring.Qcut and Cltv.CltvSegments do model it, as `None`.
- Rfm.MergeOfUniqueIds: a customer repeated in the right-hand table yields several merged rows. Only the unique-id case is characterised row by row; MergeJoin covers the general case.
