/**
 * The simulator page: the allocation record the sliders edit, the metrics
 * recomputed after every edit, and saving or downloading a snapshot.
 */
module Simulator {
  import opened JsCore
  import opened Allocations
  import opened BudgetData
  import opened Storage
  import opened BudgetSummary

  /** The budget the summary compares the allocations with. */
  const TotalBudget: real := 100.0

  /** The single-simulation download: the fields of a saved record, without an `id`. */
  datatype SimulationDownload = SimulationDownload(
    name: string, allocations: Allocation, totalScore: int,
    cityMetrics: seq<CityMetric>, createdAt: string)

  /** The `forEach` over the category table that builds the initial, and the reset, allocation record. */
  method DefaultAllocations() returns (a: Allocation)
    ensures a == Defaults() && DistinctKeys(a)
  {
    DefaultsDistinct();
    ghost var d := Defaults();
    a := [];
    var i := 0;
    while i < |BudgetCategories|
      invariant 0 <= i <= |BudgetCategories|
      invariant a == d[..i]
    {
      var category := BudgetCategories[i];
      assert d[i] == Entry(category.id, category.defaultAllocation);
      PrefixFresh(d, i);
      a := Put(a, category.id, category.defaultAllocation);
      assert d[..i + 1] == d[..i] + [d[i]];
      i := i + 1;
    }
    assert a == d;
  }

  class SimulatorPage {
    var allocations: Allocation
    var currentMetrics: seq<CityMetric>
    /** `undefined` until the metric effect first runs. */
    var previousMetrics: Option<seq<CityMetric>>

    /** Between events the shown metrics are always those of the current allocations. */
    ghost predicate Valid()
      reads this
    {
      DistinctKeys(allocations) && currentMetrics == CalculateCityMetrics(allocations)
    }

    /**
     * Mounting the page: defaults and the table's placeholder metrics, then the
     * metric effect runs once, so the placeholders become the previous metrics.
     */
    constructor ()
      ensures Valid()
      ensures allocations == Defaults()
      ensures previousMetrics == Some(CityMetrics)
    {
      var initial := DefaultAllocations();
      allocations := initial;
      currentMetrics := CityMetrics;
      previousMetrics := None;
      new;
      RecomputeMetrics();
    }

    /** The effect on `allocations`: the metrics shown so far become the previous ones. */
    method RecomputeMetrics()
      requires DistinctKeys(allocations)
      modifies this
      ensures Valid()
      ensures allocations == old(allocations)
      ensures previousMetrics == Some(old(currentMetrics))
    {
      previousMetrics := Some(currentMetrics);
      currentMetrics := CalculateCityMetrics(allocations);
    }

    /** A slider moved: that one key takes the new amount, every other key keeps its amount. */
    method HandleAllocationChange(categoryId: string, value: real)
      requires Valid()
      modifies this
      ensures Valid()
      ensures allocations == Put(old(allocations), categoryId, value)
      ensures Get(allocations, categoryId) == value
      ensures forall k :: k != categoryId ==> Get(allocations, k) == Get(old(allocations), k)
      ensures Keys(allocations) == Keys(old(allocations)) + {categoryId}
      ensures previousMetrics == Some(old(currentMetrics))
    {
      forall k | true
        ensures Get(Put(allocations, categoryId, value), categoryId) == value
        ensures k != categoryId ==> Get(Put(allocations, categoryId, value), k) == Get(allocations, k)
      {
        GetAfterPut(allocations, categoryId, value, k);
      }
      allocations := Put(allocations, categoryId, value);
      RecomputeMetrics();
    }

    /** "Reset to Defaults": the record is rebuilt from the category table. */
    method ResetToDefaults()
      modifies this
      ensures Valid()
      ensures allocations == Defaults()
      ensures previousMetrics == Some(old(currentMetrics))
    {
      var defaults := DefaultAllocations();
      allocations := defaults;
      RecomputeMetrics();
    }

    /** The amount a slider shows: `allocations[id] || 0`. */
    function SliderValue(categoryId: string): (v: real)
      reads this
      ensures categoryId !in Keys(allocations) ==> v == 0.0
      ensures NonNegative(allocations) ==> v >= 0.0
    {
      Get(allocations, categoryId)
    }

    /** The overall score shown next to the metrics. */
    function OverallScore(): (score: int)
      requires Valid()
      reads this
      ensures NonNegative(allocations) ==> 20 <= score <= 100
    {
      assert NonNegative(allocations) ==> 20 <= CalculateCityScore(currentMetrics) <= 100 by {
        if NonNegative(allocations) {
          ComputedScoreBounds(allocations);
        }
      }
      CalculateCityScore(currentMetrics)
    }

    /**
     * "Save Locally": the stored list gains exactly one record, at its end, carrying
     * the current allocations, metrics and score.
     */
    method SaveSimulation(store: LocalStorage, id: string, name: string, createdAt: string)
      returns (record: SimRecord)
      requires Valid()
      modifies store
      ensures record == SimRecord(id, name, allocations, OverallScore(), currentMetrics, createdAt)
      ensures record.totalScore == CalculateCityScore(CalculateCityMetrics(allocations))
      ensures store.Load() == old(store.Load()) + [record]
    {
      var overallScore := CalculateCityScore(currentMetrics);
      record := SimRecord(id, name, allocations, overallScore, currentMetrics, createdAt);
      var savedSimulations := store.Load();
      savedSimulations := savedSimulations + [record];
      store.Store(savedSimulations);
    }

    /**
     * The budget summary card beside the sliders, drawn against the page's fixed budget:
     * it opens complete and green, and any edit moves its remainder by exactly the change.
     */
    function BudgetCard(): (card: Summary)
      reads this
      ensures card.totalAllocated + card.remaining == TotalBudget
      ensures allocations == Defaults() ==> card.isComplete && !card.isOverBudget && card.tone == GreenTone
      ensures DistinctKeys(allocations) ==> forall k: string, v: real ::
        Summarize(Put(allocations, k, v), TotalBudget).remaining == card.remaining + Get(allocations, k) - v
    {
      DefaultsUseWholeBudget();
      assert DistinctKeys(allocations) ==> forall k: string, v: real ::
        Summarize(Put(allocations, k, v), TotalBudget).remaining ==
        Summarize(allocations, TotalBudget).remaining + Get(allocations, k) - v by {
        if DistinctKeys(allocations) {
          forall k: string, v: real {
            SummaryAfterSlider(allocations, k, v, TotalBudget);
          }
        }
      }
      Summarize(allocations, TotalBudget)
    }

    /** "Download": the same fields without an id; the stored list is not touched. */
    method DownloadSimulation(name: string, createdAt: string) returns (download: SimulationDownload)
      requires Valid()
      ensures download == SimulationDownload(name, allocations, OverallScore(), currentMetrics, createdAt)
      ensures download.totalScore == CalculateCityScore(CalculateCityMetrics(allocations))
    {
      var overallScore := CalculateCityScore(currentMetrics);
      download := SimulationDownload(name, allocations, overallScore, currentMetrics, createdAt);
    }
  }

  lemma DefaultHealthcare()
    ensures Get(Defaults(), "healthcare") == 20.0
  {
    DefaultAmount(1);
    assert Rules[1].category == "healthcare";
  }

  lemma EducationAtForty(a: Allocation)
    requires Get(a, "education") == 40.0
    ensures CalculateCityMetrics(a)[0].value == 100
  {
    MetricsFollowRules(a, 0);
    assert RuleValue(Rules[0], a) == 100.0;
    RoundOfInteger(100);
  }

  /** A session: mount, move a slider, save. The saved record holds the metrics of the edited record. */
  method EditAndSave(store: LocalStorage, id: string, name: string, createdAt: string)
    modifies store
    ensures |store.Load()| == |old(store.Load())| + 1
    ensures store.Load()[..|old(store.Load())|] == old(store.Load())
    ensures var saved := store.Load()[|old(store.Load())|];
      saved.id == id && Get(saved.allocations, "education") == 40.0 &&
      Get(saved.allocations, "healthcare") == 20.0 && |saved.cityMetrics| == 6 &&
      saved.cityMetrics[0].value == 100
  {
    var page := new SimulatorPage();
    DefaultHealthcare();
    page.HandleAllocationChange("education", 40.0);
    EducationAtForty(page.allocations);
    var record := page.SaveSimulation(store, id, name, createdAt);
  }
}
