/**
 * The budget summary card: the allocated total, what remains of the budget, the
 * over-budget and complete flags, and everything the card derives from them.
 */
module BudgetSummary {
  import opened JsCore
  import opened Allocations
  import opened BudgetData

  /** A currency badge `$x.xM` of a non-negative magnitude, with or without a leading "-". */
  datatype Amount = Amount(negative: bool, magnitude: real)

  /** `formatCurrency`: always prints the absolute value. */
  function FormatCurrency(amount: real): (shown: Amount)
    ensures !shown.negative && shown.magnitude >= 0.0
    ensures shown.magnitude == amount || shown.magnitude == -amount
  {
    Amount(false, Abs(amount))
  }

  /** The number a badge reads as. */
  function AmountValue(a: Amount): real
  {
    if a.negative then -a.magnitude else a.magnitude
  }

  datatype Tone = RedTone | GreenTone | YellowTone

  datatype StatusIcon = CheckIcon | AlertRed | AlertYellow

  datatype Summary = Summary(
    totalAllocated: real, remaining: real, isOverBudget: bool, isComplete: bool,
    tone: Tone, icon: StatusIcon, remainingLabel: string, remainingBadge: Amount,
    overMessage: bool, completeMessage: bool, leftToAllocateHint: bool)

  /** The card for the given allocations and budget. */
  function Summarize(allocations: Allocation, totalBudget: real): (s: Summary)
    ensures s.totalAllocated == Total(allocations)
    ensures s.totalAllocated + s.remaining == totalBudget
    ensures s.isOverBudget <==> s.remaining < 0.0
    ensures s.isComplete <==> -0.1 < s.remaining < 0.1
    ensures s.tone == RedTone <==> s.isOverBudget
    ensures s.tone == GreenTone <==> s.isComplete && !s.isOverBudget
    ensures s.icon == CheckIcon <==> s.isComplete
    ensures s.icon == AlertRed <==> s.isOverBudget && !s.isComplete
    ensures s.remainingLabel == "Remaining:" <==> !s.isOverBudget
    ensures s.remainingLabel == "Over Budget:" <==> s.isOverBudget
    ensures AmountValue(s.remainingBadge) == s.remaining && s.remainingBadge.magnitude >= 0.0
    ensures s.overMessage == s.isOverBudget && s.completeMessage == s.isComplete
    ensures s.leftToAllocateHint <==> s.remaining > 0.1
  {
    var totalAllocated := Total(allocations);
    var remaining := totalBudget - totalAllocated;
    var isOverBudget := totalAllocated > totalBudget;
    var isComplete := Abs(remaining) < 0.1;
    Summary(
      totalAllocated, remaining, isOverBudget, isComplete,
      if isOverBudget then RedTone else if isComplete then GreenTone else YellowTone,
      if isComplete then CheckIcon else if isOverBudget then AlertRed else AlertYellow,
      if remaining >= 0.0 then "Remaining:" else "Over Budget:",
      if remaining >= 0.0 then FormatCurrency(remaining)
      else FormatCurrency(remaining).(negative := true),
      isOverBudget, isComplete,
      !isComplete && !isOverBudget && remaining > 0.1)
  }

  /** Both flags hold at once exactly when the allocations exceed the budget by less than 0.1; the card is then red. */
  lemma OverAndComplete(allocations: Allocation, totalBudget: real)
    ensures var s := Summarize(allocations, totalBudget);
      (s.isOverBudget && s.isComplete <==>
        totalBudget < Total(allocations) < totalBudget + 0.1) &&
      (s.isOverBudget && s.isComplete ==> s.tone == RedTone && s.icon == CheckIcon)
  {
  }

  /** Moving one slider moves the allocated total, and the remainder, by exactly the change of that amount. */
  lemma SummaryAfterSlider(allocations: Allocation, k: string, v: real, totalBudget: real)
    requires DistinctKeys(allocations)
    ensures Summarize(Put(allocations, k, v), totalBudget).remaining ==
      Summarize(allocations, totalBudget).remaining + Get(allocations, k) - v
  {
    TotalAfterPut(allocations, k, v);
  }

  /** `Math.min((allocated / budget) * 100, 100)`: never above 100, and 100 exactly when the budget is used up. */
  function Progress(totalAllocated: real, totalBudget: real): (p: real)
    requires totalBudget > 0.0
    ensures p <= 100.0
    ensures p == 100.0 <==> totalAllocated >= totalBudget
    ensures totalAllocated >= 0.0 ==> p >= 0.0
  {
    var ratio := totalAllocated / totalBudget;
    assert ratio * totalBudget == totalAllocated;
    Min(ratio * 100.0, 100.0)
  }

  /** The eight default amounts use the whole 100M budget: the card opens green and complete. */
  lemma DefaultsUseWholeBudget()
    ensures var s := Summarize(Defaults(), 100.0);
      s.isComplete && !s.isOverBudget && s.tone == GreenTone && !s.leftToAllocateHint
  {
    DefaultsTotal();
  }
}
