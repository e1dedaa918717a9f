/**
 * The city metrics panel: the overall-score badge and status text, and one card per
 * metric with the change since the previous metrics, matched by metric id.
 */
module CityMetricsDisplay {
  import opened JsCore
  import opened Allocations
  import opened BudgetData

  datatype ScoreBand = GreenBand | YellowBand | RedBand

  /** `getScoreColor`: green from 80, yellow from 60, red below. */
  function ScoreColor(score: int): (band: ScoreBand)
    ensures band == GreenBand <==> score >= 80
    ensures band == YellowBand <==> 60 <= score < 80
    ensures band == RedBand <==> score < 60
  {
    if score >= 80 then GreenBand
    else if score >= 60 then YellowBand
    else RedBand
  }

  /** A higher score never gets a worse band. */
  lemma ScoreColorMonotone(s: int, t: int)
    requires s <= t
    ensures ScoreColor(s) == GreenBand ==> ScoreColor(t) == GreenBand
    ensures ScoreColor(t) == RedBand ==> ScoreColor(s) == RedBand
  {
  }

  /** The three conditional texts under the overall score, in the order they are written. */
  function StatusMessages(overallScore: int): (shown: seq<string>)
    ensures |shown| == 1
    ensures shown[0] == "Excellent! Your city is thriving across all metrics." <==> overallScore >= 80
    ensures shown[0] == "Good progress! Some areas need attention." <==> 60 <= overallScore < 80
    ensures shown[0] == "Your city faces challenges. Consider reallocating resources." <==> overallScore < 60
  {
    (if overallScore >= 80 then ["Excellent! Your city is thriving across all metrics."] else []) +
    (if overallScore >= 60 && overallScore < 80 then ["Good progress! Some areas need attention."] else []) +
    (if overallScore < 60 then ["Your city faces challenges. Consider reallocating resources."] else [])
  }

  /** `previousMetrics?.find(p => p.id === id)`: the first metric with the id, if any. */
  function FindById(previous: Option<seq<CityMetric>>, id: string): (found: Option<CityMetric>)
    ensures found.None? <==>
      previous.None? || forall i :: 0 <= i < |previous.value| ==> previous.value[i].id != id
    ensures found.Some? ==>
      (exists i :: 0 <= i < |previous.value| && previous.value[i] == found.value &&
        found.value.id == id && forall j :: 0 <= j < i ==> previous.value[j].id != id)
  {
    match previous
    case None => None
    case Some(ms) => FindIn(ms, id)
  }

  function FindIn(ms: seq<CityMetric>, id: string): (found: Option<CityMetric>)
    ensures found.None? <==> forall i :: 0 <= i < |ms| ==> ms[i].id != id
    ensures found.Some? ==>
      (exists i :: 0 <= i < |ms| && ms[i] == found.value && found.value.id == id &&
        forall j :: 0 <= j < i ==> ms[j].id != id)
  {
    if ms == [] then None
    else if ms[0].id == id then Some(ms[0])
    else
      var found := FindIn(ms[1..], id);
      if found.Some? then
        var k :| 0 <= k < |ms[1..]| && ms[1..][k] == found.value && found.value.id == id &&
          forall j :: 0 <= j < k ==> ms[1..][j].id != id;
        assert ms[k + 1] == found.value;
        assert forall j :: 1 <= j < k + 1 ==> ms[j] == ms[1..][j - 1];
        found
      else
        assert forall i :: 1 <= i < |ms| ==> ms[i] == ms[1..][i - 1];
        found
  }

  /** With distinct ids the lookup finds the metric wherever it sits in the list. */
  lemma FindByIdAnyPosition(ms: seq<CityMetric>, i: nat)
    requires i < |ms|
    requires forall j, k :: 0 <= j < k < |ms| ==> ms[j].id != ms[k].id
    ensures FindById(Some(ms), ms[i].id) == Some(ms[i])
  {
  }

  /** `getMetricChange`: 0 with no previous metric, otherwise the difference of the values. */
  function MetricChange(current: CityMetric, previous: Option<CityMetric>): (change: int)
    ensures previous.None? ==> change == 0
    ensures previous.Some? ==> current.value == previous.value.value + change
  {
    match previous
    case None => 0
    case Some(p) => current.value - p.value
  }

  datatype ChangeIcon = TrendingUp | TrendingDown | Flat

  /** `getChangeIcon`. */
  function ChangeIconOf(change: int): (icon: ChangeIcon)
    ensures icon == TrendingUp <==> change > 0
    ensures icon == TrendingDown <==> change < 0
    ensures icon == Flat <==> change == 0
  {
    if change > 0 then TrendingUp
    else if change < 0 then TrendingDown
    else Flat
  }

  /** The indicator next to a metric's value: hidden for no change, else an icon and a signed number. */
  datatype ChangeIndicator = Hidden | Shown(icon: ChangeIcon, plusSign: bool, change: int)

  function IndicatorOf(change: int): (ind: ChangeIndicator)
    ensures ind.Hidden? <==> change == 0
    ensures ind.Shown? ==> ind.change == change && ind.icon == ChangeIconOf(change)
    ensures ind.Shown? ==> (ind.plusSign <==> change > 0)
  {
    if change != 0 then Shown(ChangeIconOf(change), change > 0, change) else Hidden
  }

  datatype MetricCard = MetricCard(metric: CityMetric, indicator: ChangeIndicator)

  /** One card per metric in the given order, each compared with the previous metric of the same id. */
  function MetricCards(metrics: seq<CityMetric>, previous: Option<seq<CityMetric>>): (cards: seq<MetricCard>)
    ensures |cards| == |metrics|
    ensures forall i :: 0 <= i < |metrics| ==>
      cards[i].metric == metrics[i] &&
      cards[i].indicator == IndicatorOf(MetricChange(metrics[i], FindById(previous, metrics[i].id)))
  {
    seq(|metrics|, i requires 0 <= i < |metrics| =>
      MetricCard(metrics[i], IndicatorOf(MetricChange(metrics[i], FindById(previous, metrics[i].id)))))
  }

  /** The six metric ids are distinct. */
  lemma MetricIdsDistinct(a: Allocation)
    ensures forall j, k :: 0 <= j < k < |CalculateCityMetrics(a)| ==>
      CalculateCityMetrics(a)[j].id != CalculateCityMetrics(a)[k].id
  {
    var r := CalculateCityMetrics(a);
    forall j, k | 0 <= j < k < |r|
      ensures r[j].id != r[k].id
    {
      assert r[j].id == CityMetrics[j].id && r[k].id == CityMetrics[k].id;
      assert CityMetrics[j].id[0] != CityMetrics[k].id[0] || CityMetrics[j].id[1] != CityMetrics[k].id[1];
    }
  }

  /** When the amount of a metric's own category does not fall, that metric's card never shows a drop. */
  lemma RaiseShowsNoDrop(a: Allocation, b: Allocation, i: nat)
    requires i < |CityMetrics|
    requires Get(a, Rules[i].category) <= Get(b, Rules[i].category)
    ensures var cards := MetricCards(CalculateCityMetrics(b), Some(CalculateCityMetrics(a)));
      cards[i].indicator.Hidden? || cards[i].indicator.icon == TrendingUp
  {
    var before := CalculateCityMetrics(a);
    var after := CalculateCityMetrics(b);
    MetricIdsDistinct(a);
    assert after[i].id == before[i].id;
    FindByIdAnyPosition(before, i);
    MetricMonotone(a, b, i);
  }
}
