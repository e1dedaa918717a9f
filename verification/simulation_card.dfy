/**
 * The simulation card: the score badge, the allocated total, and the edit and
 * delete buttons, over the card's own declared record shape.
 */
module SimulationCard {
  import opened JsCore
  import opened Allocations
  import opened BudgetData
  import opened CityMetricsDisplay

  /** The record shape the card declares (its `simulation_name`, `total_score`, `created_at` fields). */
  datatype CardSimulation = CardSimulation(
    id: string, simulationName: string, totalScore: int, createdAt: string,
    allocations: Allocation, cityMetrics: seq<CityMetric>)

  /** A button the card renders; clicking it calls the callback with the argument it carries. */
  datatype CardButton = EditButton(editId: string) | DeleteButton(deleteId: string)

  datatype Card = Card(badge: ScoreBand, totalAllocated: real, buttons: seq<CardButton>)

  /**
   * The card: the badge uses the same three bands as the overall score, the total counts every
   * amount, and each button is present exactly when its callback is, carrying the record's id.
   */
  function CardOf(sim: CardSimulation, hasOnEdit: bool, hasOnDelete: bool): (card: Card)
    ensures card.badge == GreenBand <==> sim.totalScore >= 80
    ensures card.badge == YellowBand <==> 60 <= sim.totalScore < 80
    ensures card.badge == RedBand <==> sim.totalScore < 60
    ensures card.totalAllocated == Total(sim.allocations)
    ensures EditButton(sim.id) in card.buttons <==> hasOnEdit
    ensures DeleteButton(sim.id) in card.buttons <==> hasOnDelete
    ensures forall b :: b in card.buttons ==> b == EditButton(sim.id) || b == DeleteButton(sim.id)
    ensures |card.buttons| <= 2 && (|card.buttons| == 2 ==> card.buttons[0].EditButton?)
  {
    Card(ScoreColor(sim.totalScore), Total(sim.allocations),
      (if hasOnEdit then [EditButton(sim.id)] else []) +
      (if hasOnDelete then [DeleteButton(sim.id)] else []))
  }

  /** A card for a default-allocation record shows the whole 100M allocated. */
  lemma DefaultCardTotal(sim: CardSimulation)
    requires sim.allocations == Defaults()
    ensures CardOf(sim, true, true).totalAllocated == 100.0
  {
    DefaultsTotal();
  }
}
