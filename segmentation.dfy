/** The RF segment map (caseStudy5/FLO_RFM.py:170-181, again at 281-294).

    The source writes `seg_map` as ten two-character regular expressions and
    applies them to the `RF_Score` column with `replace(seg_map, regex=True)`,
    one substitution per rule in dict order. It is modelled twice: as a
    decision table over the two scores (`SegmentOf`), and as that ordered list
    of substitutions over the code string (`SegMap`, `ReplaceAll`); the two are
    proved to agree on every one of the 25 codes. */
module Segmentation {
  import opened Scoring

  datatype Segment =
    | Hibernating | AtRisk | CantLoose | AboutToSleep | NeedAttention
    | LoyalCustomers | Promising | NewCustomers | PotentialLoyalists | Champions

  /** The label the source writes into the `segment` column, spelled as it
      spells it (note `at_Risk`). */
  function Label(s: Segment): string {
    match s
    case Hibernating => "hibernating"
    case AtRisk => "at_Risk"
    case CantLoose => "cant_loose"
    case AboutToSleep => "about_to_sleep"
    case NeedAttention => "need_attention"
    case LoyalCustomers => "loyal_customers"
    case Promising => "promising"
    case NewCustomers => "new_customers"
    case PotentialLoyalists => "potential_loyalists"
    case Champions => "champions"
  }

  /** The position of a segment's rule in `seg_map`. */
  function Index(s: Segment): nat {
    match s
    case Hibernating => 0
    case AtRisk => 1
    case CantLoose => 2
    case AboutToSleep => 3
    case NeedAttention => 4
    case LoyalCustomers => 5
    case Promising => 6
    case NewCustomers => 7
    case PotentialLoyalists => 8
    case Champions => 9
  }

  /** The score pairs a segment's pattern accepts, pattern by pattern:
      `[1-2][1-2]`, `[1-2][3-4]`, `[1-2]5`, `3[1-2]`, `33`, `[3-4][4-5]`,
      `41`, `51`, `[4-5][2-3]`, `5[4-5]`. */
  predicate Accepts(s: Segment, r: Score, f: Score) {
    match s
    case Hibernating => r <= 2 && f <= 2
    case AtRisk => r <= 2 && 3 <= f <= 4
    case CantLoose => r <= 2 && f == 5
    case AboutToSleep => r == 3 && f <= 2
    case NeedAttention => r == 3 && f == 3
    case LoyalCustomers => 3 <= r <= 4 && 4 <= f
    case Promising => r == 4 && f == 1
    case NewCustomers => r == 5 && f == 1
    case PotentialLoyalists => 4 <= r && 2 <= f <= 3
    case Champions => r == 5 && 4 <= f
  }

  /** The segment of a recency/frequency score pair: the table is total (the
      result's pattern accepts the pair) and unambiguous (no other does). */
  function SegmentOf(r: Score, f: Score): (s: Segment)
    ensures Accepts(s, r, f)
    ensures forall t: Segment :: Accepts(t, r, f) ==> t == s
  {
    if r <= 2 then
      if f <= 2 then Hibernating else if f <= 4 then AtRisk else CantLoose
    else if r == 3 then
      if f <= 2 then AboutToSleep else if f == 3 then NeedAttention else LoyalCustomers
    else if f == 1 then
      if r == 4 then Promising else NewCustomers
    else if f <= 3 then PotentialLoyalists
    else if r == 4 then LoyalCustomers
    else Champions
  }

  // ---------------------------------------------------------------------
  // seg_map as regular-expression substitutions

  /** A bracket expression `[lo-hi]`; a literal digit `d` is `[d-d]`. */
  datatype CharClass = Range(lo: char, hi: char)

  /** One `seg_map` entry: a pattern of two character classes and its label. */
  datatype Rule = Rule(first: CharClass, second: CharClass, replacement: string)

  /** `seg_map`, in its dict (insertion) order. */
  const SegMap: seq<Rule> := [
    Rule(Range('1', '2'), Range('1', '2'), "hibernating"),
    Rule(Range('1', '2'), Range('3', '4'), "at_Risk"),
    Rule(Range('1', '2'), Range('5', '5'), "cant_loose"),
    Rule(Range('3', '3'), Range('1', '2'), "about_to_sleep"),
    Rule(Range('3', '3'), Range('3', '3'), "need_attention"),
    Rule(Range('3', '4'), Range('4', '5'), "loyal_customers"),
    Rule(Range('4', '4'), Range('1', '1'), "promising"),
    Rule(Range('5', '5'), Range('1', '1'), "new_customers"),
    Rule(Range('4', '5'), Range('2', '3'), "potential_loyalists"),
    Rule(Range('5', '5'), Range('4', '5'), "champions")
  ]

  predicate InClass(c: char, k: CharClass) {
    k.lo <= c <= k.hi
  }

  /** The rule's pattern matches `s` at position `i`. */
  predicate MatchesAt(rule: Rule, s: string, i: int) {
    0 <= i && i + 1 < |s| && InClass(s[i], rule.first) && InClass(s[i + 1], rule.second)
  }

  /** `re.sub(pattern, label, s)` for a two-character pattern: scanning left
      to right, every match that does not overlap an earlier one is replaced. */
  function Sub(rule: Rule, s: string): (r: string)
    ensures forall c :: c in r ==> c in s || c in rule.replacement
    ensures (forall i :: !MatchesAt(rule, s, i)) ==> r == s
    decreases |s|
  {
    if |s| < 2 then s
    else if MatchesAt(rule, s, 0) then rule.replacement + Sub(rule, s[2..])
    else
      assert forall i :: MatchesAt(rule, s[1..], i) ==> MatchesAt(rule, s, i + 1);
      [s[0]] + Sub(rule, s[1..])
  }

  /** `Series.replace(rules, regex=True)` on one cell: each rule's
      substitution in turn, each on the result of the one before. */
  function ReplaceAll(rules: seq<Rule>, s: string): (r: string)
    ensures forall c :: c in r ==> c in s || exists k :: 0 <= k < |rules| && c in rules[k].replacement
    decreases |rules|
  {
    if rules == [] then s else ReplaceAll(rules[1..], Sub(rules[0], s))
  }

  predicate IsDigit(c: char) {
    '0' <= c <= '9'
  }

  predicate DigitFree(s: string) {
    forall i :: 0 <= i < |s| ==> !IsDigit(s[i])
  }

  /** Every pattern of the list matches digits only, and no label holds a digit. */
  predicate DigitRules(rules: seq<Rule>) {
    forall k :: 0 <= k < |rules| ==>
      '0' <= rules[k].first.lo && rules[k].first.hi <= '9' && DigitFree(rules[k].replacement)
  }

  /** A substitution with a digit pattern leaves a digit-free text alone. */
  lemma {:induction false} SubKeepsDigitFree(rule: Rule, s: string)
    requires '0' <= rule.first.lo && rule.first.hi <= '9' && DigitFree(s)
    ensures Sub(rule, s) == s
    decreases |s|
  {
    if |s| >= 2 {
      assert !MatchesAt(rule, s, 0);
      SubKeepsDigitFree(rule, s[1..]);
      assert s == [s[0]] + s[1..];
    }
  }

  /** Once a cell holds a label, the remaining rules leave it alone: later
      rules never rewrite an earlier result. */
  lemma {:induction false} ReplaceKeepsDigitFree(rules: seq<Rule>, s: string)
    requires DigitRules(rules) && DigitFree(s)
    ensures ReplaceAll(rules, s) == s
    decreases |rules|
  {
    if rules != [] {
      SubKeepsDigitFree(rules[0], s);
      assert DigitRules(rules[1..]) by {
        forall k | 0 <= k < |rules| - 1
          ensures '0' <= rules[1..][k].first.lo && rules[1..][k].first.hi <= '9' && DigitFree(rules[1..][k].replacement)
        {
          assert rules[1..][k] == rules[k + 1];
        }
      }
      ReplaceKeepsDigitFree(rules[1..], s);
    }
  }

  /** On a two-character code the substitutions act as a first-match lookup:
      the label of the first rule that matches, the code itself if none does. */
  lemma {:induction false} ReplaceIsFirstMatch(rules: seq<Rule>, code: string, k: int)
    requires |code| == 2 && DigitRules(rules)
    requires 0 <= k <= |rules|
    requires forall j :: 0 <= j < k ==> !MatchesAt(rules[j], code, 0)
    requires k < |rules| ==> MatchesAt(rules[k], code, 0)
    ensures ReplaceAll(rules, code) == if k < |rules| then rules[k].replacement else code
    decreases |rules|
  {
    if rules == [] {
    } else {
      assert DigitRules(rules[1..]) by {
        forall j | 0 <= j < |rules| - 1
          ensures '0' <= rules[1..][j].first.lo && rules[1..][j].first.hi <= '9' && DigitFree(rules[1..][j].replacement)
        {
          assert rules[1..][j] == rules[j + 1];
        }
      }
      if k == 0 {
        assert Sub(rules[0], code) == rules[0].replacement;
        ReplaceKeepsDigitFree(rules[1..], rules[0].replacement);
      } else {
        assert Sub(rules[0], code) == code by {
          assert Sub(rules[0], code[1..]) == code[1..];
          assert code == [code[0]] + code[1..];
        }
        ReplaceIsFirstMatch(rules[1..], code, k - 1);
      }
    }
  }

  lemma SegMapIsDigitRules()
    ensures DigitRules(SegMap)
  {
    forall k | 0 <= k < |SegMap|
      ensures '0' <= SegMap[k].first.lo && SegMap[k].first.hi <= '9' && DigitFree(SegMap[k].replacement)
    {
      assert k in {0, 1, 2, 3, 4, 5, 6, 7, 8, 9};
    }
  }

  /** Each code "rf" with r, f in 1..5 is matched by exactly one rule of
      `seg_map`: the one of its segment in the decision table. */
  lemma {:induction false} ExactlyOneRuleMatches(r: Score, f: Score)
    ensures forall k :: 0 <= k < |SegMap| ==> (MatchesAt(SegMap[k], RfScore(r, f), 0) <==> k == Index(SegmentOf(r, f)))
    ensures SegMap[Index(SegmentOf(r, f))].replacement == Label(SegmentOf(r, f))
  {
    var code := RfScore(r, f);
    assert code[0] == Digit(r) && code[1] == Digit(f);
  }

  /** `rfm["RF_Score"].replace(seg_map, regex=True)` writes, for every score
      pair, the label of the pair's segment in the decision table. */
  lemma {:induction false} SegmentationIsLookup(r: Score, f: Score)
    ensures ReplaceAll(SegMap, RfScore(r, f)) == Label(SegmentOf(r, f))
  {
    ExactlyOneRuleMatches(r, f);
    SegMapIsDigitRules();
    ReplaceIsFirstMatch(SegMap, RfScore(r, f), Index(SegmentOf(r, f)));
  }

  /** Entries of the table as the analysis reads them: code "rf" and the label it gets. */
  const KnownCodes: seq<(Score, Score, string)> := [
    (1, 1, "hibernating"), (1, 5, "cant_loose"), (3, 3, "need_attention"),
    (4, 1, "promising"), (5, 1, "new_customers"), (5, 5, "champions"),
    (4, 3, "potential_loyalists"), (3, 5, "loyal_customers")
  ]

  lemma {:induction false} KnownEntries(k: int)
    requires 0 <= k < |KnownCodes|
    ensures ReplaceAll(SegMap, RfScore(KnownCodes[k].0, KnownCodes[k].1)) == KnownCodes[k].2
  {
    var (r, f, text) := KnownCodes[k];
    assert Label(SegmentOf(r, f)) == text by {
      assert k in {0, 1, 2, 3, 4, 5, 6, 7};
    }
    SegmentationIsLookup(r, f);
  }

  /** Distinct segments carry distinct labels, so the label column determines the segment. */
  lemma LabelInjective(s: Segment, t: Segment)
    requires Label(s) == Label(t)
    ensures s == t
  {
  }
}
