/**
 * The saved-simulation record and the one browser storage entry,
 * `civicsim-simulations`, that holds the list of them as JSON.
 */
module Storage {
  import opened JsCore
  import opened Allocations
  import opened BudgetData

  /** One saved simulation; `id` and `createdAt` are opaque strings chosen by the caller. */
  datatype SimRecord = SimRecord(
    id: string, name: string, allocations: Allocation, totalScore: int,
    cityMetrics: seq<CityMetric>, createdAt: string)

  /** A decoded JSON document, as far as the pages inspect it: an array of records, or anything else. */
  datatype JsonValue = JArray(records: seq<SimRecord>) | JOther

  /** The `civicsim-simulations` entry of the browser's local storage. */
  class LocalStorage {
    /** The list last written under the key; `None` while the key has never been written. */
    var saved: Option<seq<SimRecord>>

    constructor ()
      ensures saved == None && Load() == []
    {
      saved := None;
    }

    /** `JSON.parse(localStorage.getItem(key) || "[]")`: an absent key reads as the empty list. */
    function Load(): (rs: seq<SimRecord>)
      reads this
      ensures saved.None? ==> rs == []
      ensures saved.Some? ==> rs == saved.value
    {
      match saved
      case None => []
      case Some(list) => list
    }

    /** `localStorage.setItem(key, JSON.stringify(rs))`: the next load returns exactly `rs`. */
    method Store(rs: seq<SimRecord>)
      modifies this
      ensures saved == Some(rs) && Load() == rs
    {
      saved := Some(rs);
    }
  }
}
