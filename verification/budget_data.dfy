/**
 * The metrics engine: the fixed table of eight budget categories and six city
 * metrics, the mapping from an allocation record to new metric values, and the
 * overall city score.
 */
module BudgetData {
  import opened JsCore
  import opened Allocations

  datatype BudgetCategory = BudgetCategory(
    id: string, name: string, description: string, icon: string, color: string,
    defaultAllocation: real)

  datatype CityMetric = CityMetric(
    id: string, name: string, description: string, icon: string,
    value: int, maxValue: int, unit: string)

  const BudgetCategories: seq<BudgetCategory> := [
    BudgetCategory("education", "Education", "Schools, teachers, educational programs",
      "\U{1F393}", "bg-blue-500", 25.0),
    BudgetCategory("healthcare", "Healthcare", "Hospitals, clinics, public health programs",
      "\U{1F3E5}", "bg-red-500", 20.0),
    BudgetCategory("infrastructure", "Infrastructure", "Roads, bridges, public transportation",
      "\U{1F3D7}\U{FE0F}", "bg-gray-500", 15.0),
    BudgetCategory("public-safety", "Public Safety", "Police, fire department, emergency services",
      "\U{1F694}", "bg-yellow-500", 12.0),
    BudgetCategory("environment", "Environment", "Parks, waste management, sustainability",
      "\U{1F333}", "bg-green-500", 10.0),
    BudgetCategory("housing", "Housing", "Affordable housing, homeless services",
      "\U{1F3E0}", "bg-purple-500", 8.0),
    BudgetCategory("arts-culture", "Arts & Culture", "Museums, libraries, cultural programs",
      "\U{1F3A8}", "bg-pink-500", 5.0),
    BudgetCategory("economic-development", "Economic Development", "Business support, job training, tourism",
      "\U{1F4BC}", "bg-indigo-500", 5.0)
  ]

  /** The metric table; `value` here is only the placeholder shown before the first computation. */
  const CityMetrics: seq<CityMetric> := [
    CityMetric("education-quality", "Education Quality", "School performance and graduation rates",
      "\U{1F4DA}", 75, 100, "%"),
    CityMetric("public-health", "Public Health", "Healthcare access and population health",
      "\U{2764}\U{FE0F}", 80, 100, "%"),
    CityMetric("infrastructure-quality", "Infrastructure Quality", "Road conditions and public transit",
      "\U{1F6E3}\U{FE0F}", 65, 100, "%"),
    CityMetric("crime-rate", "Safety Index", "Public safety and crime prevention",
      "\U{1F6E1}\U{FE0F}", 70, 100, "%"),
    CityMetric("environmental-quality", "Environmental Quality", "Air quality and green spaces",
      "\U{1F33F}", 85, 100, "%"),
    CityMetric("housing-affordability", "Housing Affordability", "Affordable housing availability",
      "\U{1F3D8}\U{FE0F}", 60, 100, "%")
  ]

  /** The allocation record that holds every category at its default amount, in table order. */
  function Defaults(): Allocation
  {
    seq(|BudgetCategories|, i requires 0 <= i < |BudgetCategories| =>
      Entry(BudgetCategories[i].id, BudgetCategories[i].defaultAllocation))
  }

  /** The unrounded value `calculateCityMetrics` computes for one metric (its `switch`). */
  function NewValue(m: CityMetric, a: Allocation): real
  {
    if m.id == "education-quality" then Min(100.0, 30.0 + Get(a, "education") * 2.5)
    else if m.id == "public-health" then Min(100.0, 40.0 + Get(a, "healthcare") * 2.2)
    else if m.id == "infrastructure-quality" then Min(100.0, 20.0 + Get(a, "infrastructure") * 4.0)
    else if m.id == "crime-rate" then Min(100.0, 35.0 + Get(a, "public-safety") * 4.5)
    else if m.id == "environmental-quality" then Min(100.0, 50.0 + Get(a, "environment") * 4.0)
    else if m.id == "housing-affordability" then Min(100.0, 20.0 + Get(a, "housing") * 8.0)
    else m.value as real
  }

  /** `calculateCityMetrics`: one output per table metric, in table order, only `value` replaced. */
  function CalculateCityMetrics(a: Allocation): (r: seq<CityMetric>)
    ensures |r| == |CityMetrics|
    ensures forall i :: 0 <= i < |r| ==> r[i] == CityMetrics[i].(value := r[i].value)
    ensures forall i :: 0 <= i < |r| ==> r[i].value <= 100
  {
    seq(|CityMetrics|, i requires 0 <= i < |CityMetrics| =>
      CityMetrics[i].(value := Round(NewValue(CityMetrics[i], a))))
  }

  function MetricValue(m: CityMetric): int
  {
    m.value
  }

  /** `calculateCityScore`: the mean of the metric values, rounded; an empty list would divide by zero. */
  function CalculateCityScore(ms: seq<CityMetric>): (r: int)
    requires |ms| > 0
    ensures r as real - 0.5 <= SumOf(ms, MetricValue) as real / |ms| as real < r as real + 0.5
  {
    Round(SumOf(ms, MetricValue) as real / |ms| as real)
  }

  // ---------------------------------------------------------------------------
  // The formula table, written independently of the `switch` above.

  /** Metric `metricId` is `round(min(100, intercept + slope * a))` of category `category`'s amount `a`. */
  datatype Rule = Rule(metricId: string, intercept: int, slope: real, category: string)

  const Rules: seq<Rule> := [
    Rule("education-quality", 30, 2.5, "education"),
    Rule("public-health", 40, 2.2, "healthcare"),
    Rule("infrastructure-quality", 20, 4.0, "infrastructure"),
    Rule("crime-rate", 35, 4.5, "public-safety"),
    Rule("environmental-quality", 50, 4.0, "environment"),
    Rule("housing-affordability", 20, 8.0, "housing")
  ]

  function RuleValue(rule: Rule, a: Allocation): real
  {
    Min(100.0, rule.intercept as real + rule.slope * Get(a, rule.category))
  }

  /** Every computed metric is exactly its rule: the right id, the right category, the right line. */
  lemma MetricsFollowRules(a: Allocation, i: nat)
    requires i < |CityMetrics|
    ensures |Rules| == |CityMetrics| && CityMetrics[i].id == Rules[i].metricId
    ensures CalculateCityMetrics(a)[i].value == Round(RuleValue(Rules[i], a))
  {
    var m := CityMetrics[i];
    assert CalculateCityMetrics(a)[i].value == Round(NewValue(m, a));
    if i == 0 {
      assert m.id == "education-quality";
    } else if i == 1 {
      assert m.id == "public-health";
    } else if i == 2 {
      assert m.id == "infrastructure-quality";
    } else if i == 3 {
      assert m.id == "crime-rate";
    } else if i == 4 {
      assert m.id == "environmental-quality";
    } else {
      assert m.id == "housing-affordability";
    }
    assert NewValue(m, a) == RuleValue(Rules[i], a);
  }

  /** With non-negative amounts every metric lies between its intercept and 100. */
  lemma MetricBounds(a: Allocation, i: nat)
    requires NonNegative(a) && i < |CityMetrics|
    ensures Rules[i].intercept <= CalculateCityMetrics(a)[i].value <= 100
  {
    MetricsFollowRules(a, i);
    var x := Get(a, Rules[i].category);
    assert x >= 0.0;
    assert Rules[i].slope * x >= 0.0;
    RoundMonotone(Rules[i].intercept as real, RuleValue(Rules[i], a));
    RoundOfInteger(Rules[i].intercept);
  }

  /** There is no lower clamp: a negative amount drives its metric below zero. */
  lemma NoLowerClamp()
    ensures CalculateCityMetrics([Entry("education", -20.0)])[0].value == -20
  {
    MetricsFollowRules([Entry("education", -20.0)], 0);
  }

  /** Each metric is non-decreasing in the amount of its own category. */
  lemma MetricMonotone(a: Allocation, b: Allocation, i: nat)
    requires i < |CityMetrics|
    requires Get(a, Rules[i].category) <= Get(b, Rules[i].category)
    ensures CalculateCityMetrics(a)[i].value <= CalculateCityMetrics(b)[i].value
  {
    MetricsFollowRules(a, i);
    MetricsFollowRules(b, i);
    var rule, x, y := Rules[i], Get(a, Rules[i].category), Get(b, Rules[i].category);
    assert rule.slope > 0.0;
    assert rule.slope * y - rule.slope * x == rule.slope * (y - x);
    RoundMonotone(RuleValue(rule, a), RuleValue(rule, b));
  }

  /** Only the six mapped categories matter: records that agree on them give the same metrics. */
  lemma OnlyMappedCategoriesMatter(a: Allocation, b: Allocation)
    requires forall i :: 0 <= i < |Rules| ==> Get(a, Rules[i].category) == Get(b, Rules[i].category)
    ensures CalculateCityMetrics(a) == CalculateCityMetrics(b)
  {
    var ra, rb := CalculateCityMetrics(a), CalculateCityMetrics(b);
    forall i | 0 <= i < |CityMetrics|
      ensures ra[i] == rb[i]
    {
      MetricsFollowRules(a, i);
      MetricsFollowRules(b, i);
    }
  }

  /** Changing `arts-culture`, `economic-development` or any unknown key changes no metric. */
  lemma UnmappedKeyHasNoEffect(a: Allocation, k: string, v: real)
    requires DistinctKeys(a)
    requires forall i :: 0 <= i < |Rules| ==> Rules[i].category != k
    ensures CalculateCityMetrics(Put(a, k, v)) == CalculateCityMetrics(a)
  {
    forall i | 0 <= i < |Rules|
      ensures Get(Put(a, k, v), Rules[i].category) == Get(a, Rules[i].category)
    {
      GetAfterPut(a, k, v, Rules[i].category);
    }
    OnlyMappedCategoriesMatter(Put(a, k, v), a);
  }

  function MetricValues(ms: seq<CityMetric>): seq<int>
  {
    seq(|ms|, i requires 0 <= i < |ms| => ms[i].value)
  }

  /** An empty record reads every category as 0: the six intercepts, and score round(32.5) = 33. */
  lemma EmptyAllocationBaseline()
    ensures MetricValues(CalculateCityMetrics([])) == [30, 40, 20, 35, 50, 20]
    ensures CalculateCityScore(CalculateCityMetrics([])) == 33
  {
    var r := CalculateCityMetrics([]);
    forall i | 0 <= i < 6
      ensures r[i].value == Rules[i].intercept
    {
      MetricsFollowRules([], i);
    }
    assert SumOf(r, MetricValue) == 195 by {
      SumOfSix(r);
    }
  }

  /** The eight category ids are distinct, so the default record is a valid JavaScript object. */
  lemma DefaultsDistinct()
    ensures DistinctKeys(Defaults())
  {
    var d := Defaults();
    forall i, j | 0 <= i < j < |d|
      ensures d[i].key != d[j].key
    {
      assert d[i].key[0] != d[j].key[0] || d[i].key[1] != d[j].key[1];
    }
  }

  /** The eight default amounts add up to the 100M budget. */
  lemma DefaultsTotal()
    ensures Total(Defaults()) == 100.0
  {
    var d := Defaults();
    assert d[7..] == [Entry("economic-development", 5.0)];
    assert Total(d[7..]) == 5.0;
    assert Total(d[6..]) == 10.0;
    assert Total(d[5..]) == 18.0;
    assert Total(d[4..]) == 28.0;
    assert Total(d[3..]) == 40.0;
    assert Total(d[2..]) == 55.0;
    assert Total(d[1..]) == 75.0;
  }

  /** In the default record each of the six mapped categories holds its default amount. */
  lemma DefaultAmount(i: nat)
    requires i < |Rules|
    ensures Get(Defaults(), Rules[i].category) == BudgetCategories[i].defaultAllocation
    ensures Get(Defaults(), Rules[i].category) == [25.0, 20.0, 15.0, 12.0, 10.0, 8.0][i]
  {
    DefaultsDistinct();
    assert Defaults()[i].key == Rules[i].category;
  }

  /** Any record holding 25, 20, 15, 12, 10, 8 in the six mapped categories gives these metrics. */
  lemma ScenarioFromAmounts(a: Allocation)
    requires forall i :: 0 <= i < |Rules| ==> Get(a, Rules[i].category) == [25.0, 20.0, 15.0, 12.0, 10.0, 8.0][i]
    ensures MetricValues(CalculateCityMetrics(a)) == [93, 84, 80, 89, 90, 84]
  {
    var r := CalculateCityMetrics(a);
    forall i | 0 <= i < 6
      ensures r[i].value == [93, 84, 80, 89, 90, 84][i]
    {
      ScenarioMetric(a, i);
    }
  }

  lemma ScenarioMetric(a: Allocation, i: nat)
    requires i < |Rules| && Get(a, Rules[i].category) == [25.0, 20.0, 15.0, 12.0, 10.0, 8.0][i]
    ensures CalculateCityMetrics(a)[i].value == [93, 84, 80, 89, 90, 84][i]
  {
    MetricsFollowRules(a, i);
    if i == 0 {
    } else if i == 1 {
    } else if i == 2 {
    } else if i == 3 {
    } else if i == 4 {
    } else {
    }
  }

  /** The score of six metric values is the rounded mean of the six. */
  lemma ScoreOfSix(ms: seq<CityMetric>, values: seq<int>, score: int)
    requires |ms| == 6 && MetricValues(ms) == values
    requires Round((values[0] + values[1] + values[2] + values[3] + values[4] + values[5]) as real / 6.0) == score
    ensures CalculateCityScore(ms) == score
  {
    SumOfSix(ms);
  }

  /** The default record gives 93, 84, 80, 89, 90, 84 and score 87. */
  lemma DefaultAllocationScenario()
    ensures MetricValues(CalculateCityMetrics(Defaults())) == [93, 84, 80, 89, 90, 84]
    ensures CalculateCityScore(CalculateCityMetrics(Defaults())) == 87
  {
    forall i | 0 <= i < |Rules|
      ensures Get(Defaults(), Rules[i].category) == [25.0, 20.0, 15.0, 12.0, 10.0, 8.0][i]
    {
      DefaultAmount(i);
    }
    ScenarioFromAmounts(Defaults());
    ScoreOfSix(CalculateCityMetrics(Defaults()), [93, 84, 80, 89, 90, 84], 87);
  }

  /** An amount of 1000 for education is clamped to 100, not 2530. */
  lemma OverClamp()
    ensures CalculateCityMetrics([Entry("education", 1000.0)])[0].value == 100
  {
    MetricsFollowRules([Entry("education", 1000.0)], 0);
  }

  lemma SumOfSix(ms: seq<CityMetric>)
    requires |ms| == 6
    ensures SumOf(ms, MetricValue) == ms[0].value + ms[1].value + ms[2].value + ms[3].value + ms[4].value + ms[5].value
  {
    assert ms[1..][1..] == ms[2..] && ms[2..][1..] == ms[3..] && ms[3..][1..] == ms[4..];
    assert ms[4..][1..] == ms[5..] && ms[5..][1..] == [];
    assert SumOf(ms[5..], MetricValue) == ms[5].value;
    assert SumOf(ms[4..], MetricValue) == ms[4].value + ms[5].value;
    assert SumOf(ms[3..], MetricValue) == ms[3].value + ms[4].value + ms[5].value;
    assert SumOf(ms[2..], MetricValue) == ms[2].value + ms[3].value + ms[4].value + ms[5].value;
  }

  /** The score does not depend on the order of the metrics. */
  lemma CityScorePermutation(ms: seq<CityMetric>, ns: seq<CityMetric>)
    requires |ms| > 0 && multiset(ms) == multiset(ns)
    ensures |ns| == |ms| && CalculateCityScore(ms) == CalculateCityScore(ns)
  {
    assert |ms| == |multiset(ms)| == |multiset(ns)| == |ns|;
    SumOfPermutation(ms, ns, MetricValue);
  }

  /** Metric values in [0, 100] give a score in [0, 100]. */
  lemma CityScoreBounds(ms: seq<CityMetric>)
    requires |ms| > 0
    requires forall i :: 0 <= i < |ms| ==> 0 <= ms[i].value <= 100
    ensures 0 <= CalculateCityScore(ms) <= 100
  {
    SumOfBounds(ms, MetricValue, 0, 100);
    RoundedMeanBounds(SumOf(ms, MetricValue), |ms|, 0, 100);
  }

  /** For non-negative amounts the computed metrics, and so the score, lie in [20, 100]. */
  lemma ComputedScoreBounds(a: Allocation)
    requires NonNegative(a)
    ensures 20 <= CalculateCityScore(CalculateCityMetrics(a)) <= 100
  {
    var r := CalculateCityMetrics(a);
    forall i | 0 <= i < |r|
      ensures 20 <= MetricValue(r[i]) <= 100
    {
      MetricBounds(a, i);
    }
    SumOfBounds(r, MetricValue, 20, 100);
    RoundedMeanBounds(SumOf(r, MetricValue), |r|, 20, 100);
  }
}
