/**
 * The dashboard page: the saved simulations loaded from storage, deleting by id,
 * importing a JSON file, exporting the list, and the statistics shown above the cards.
 */
module Dashboard {
  import opened JsCore
  import opened Storage
  import opened ScoreStats

  /** What the file input delivers: no file chosen, text `JSON.parse` rejects, or a parsed value. */
  datatype ImportFile = NoFile | Unparseable | Parsed(value: JsonValue)

  /** `rs.filter(sim => sim.id !== id)`. */
  function WithoutId(rs: seq<SimRecord>, id: string): (kept: seq<SimRecord>)
    ensures forall i :: 0 <= i < |kept| ==> kept[i].id != id
    ensures (forall i :: 0 <= i < |rs| ==> rs[i].id != id) ==> kept == rs
  {
    if rs == [] then []
    else
      var rest := WithoutId(rs[1..], id);
      if rs[0].id == id then rest else [rs[0]] + rest
  }

  /** Each record without the id occurs as often as before; each record with it is gone. */
  lemma {:induction false} WithoutIdCounts(rs: seq<SimRecord>, id: string, r: SimRecord)
    ensures r.id != id ==> multiset(WithoutId(rs, id))[r] == multiset(rs)[r]
    ensures r.id == id ==> multiset(WithoutId(rs, id))[r] == 0
  {
    if rs != [] {
      WithoutIdCounts(rs[1..], id, r);
      assert rs == [rs[0]] + rs[1..];
      assert multiset(rs) == multiset{rs[0]} + multiset(rs[1..]);
      if rs[0].id != id {
        assert WithoutId(rs, id) == [rs[0]] + WithoutId(rs[1..], id);
        assert multiset(WithoutId(rs, id)) == multiset{rs[0]} + multiset(WithoutId(rs[1..], id));
      }
    }
  }

  /** Filtering distributes over concatenation: the records kept stay in their original order. */
  lemma {:induction false} WithoutIdConcat(xs: seq<SimRecord>, ys: seq<SimRecord>, id: string)
    ensures WithoutId(xs + ys, id) == WithoutId(xs, id) + WithoutId(ys, id)
  {
    if xs == [] {
      assert xs + ys == ys;
    } else {
      assert (xs + ys)[1..] == xs[1..] + ys;
      WithoutIdConcat(xs[1..], ys, id);
    }
  }

  /** `simulations[0]`: the first record in the list, which is the oldest save since saves append. */
  function LatestSimulation(rs: seq<SimRecord>): (latest: Option<SimRecord>)
    ensures latest.None? <==> rs == []
    ensures latest.Some? ==> latest.value == rs[0]
  {
    if rs == [] then None else Some(rs[0])
  }

  /** Appending a save does not change the record the dashboard calls the latest, once one exists. */
  lemma LatestIsOldest(rs: seq<SimRecord>, r: SimRecord)
    ensures rs != [] ==> LatestSimulation(rs + [r]) == LatestSimulation(rs)
    ensures rs == [] ==> LatestSimulation(rs + [r]) == Some(r)
  {
  }

  /** `simulations.slice(0, 6)`: the cards listed, at most six, from the front of the list. */
  function ShownCards(rs: seq<SimRecord>): (shown: seq<SimRecord>)
    ensures |shown| <= 6 && |shown| <= |rs|
    ensures shown == rs[..|shown|]
    ensures |rs| <= 6 ==> shown == rs
    ensures |rs| > 6 ==> |shown| == 6
  {
    if |rs| <= 6 then rs else rs[..6]
  }

  class DashboardPage {
    var simulations: seq<SimRecord>
    const storage: LocalStorage

    /** Mounting the page: the stored list is loaded as it is, an absent key as the empty list. */
    constructor (storage: LocalStorage)
      ensures this.storage == storage
      ensures simulations == storage.Load()
      ensures storage.saved.None? ==> simulations == []
    {
      this.storage := storage;
      simulations := storage.Load();
    }

    /** Delete: every record with the id goes, the others stay in order, and storage holds the new list. */
    method DeleteSimulation(id: string)
      modifies this, storage
      ensures simulations == WithoutId(old(simulations), id)
      ensures storage.Load() == simulations
    {
      var updatedSimulations := WithoutId(simulations, id);
      simulations := updatedSimulations;
      storage.Store(updatedSimulations);
    }

    /**
     * Import: an array is appended after the current list, with no check on ids, and stored;
     * no file, unparseable text or a non-array leaves the list and storage as they were.
     */
    method ImportData(file: ImportFile)
      modifies this, storage
      ensures file.Parsed? && file.value.JArray? ==>
        simulations == old(simulations) + file.value.records && storage.Load() == simulations
      ensures !(file.Parsed? && file.value.JArray?) ==>
        simulations == old(simulations) && storage.saved == old(storage.saved)
    {
      match file
      case NoFile =>
      case Unparseable =>
      case Parsed(importedData) =>
        if importedData.JArray? {
          var mergedSimulations := simulations + importedData.records;
          simulations := mergedSimulations;
          storage.Store(mergedSimulations);
        }
    }

    /** Export: the whole current list, as one JSON array; nothing changes. */
    method ExportData() returns (payload: JsonValue)
      ensures payload == JArray(simulations)
    {
      payload := JArray(simulations);
    }
  }

  /** Exporting a dashboard and importing the file into an empty one reproduces the same list. */
  method ExportImportRoundTrip(source: DashboardPage) returns (copy: DashboardPage)
    ensures copy.simulations == source.simulations
    ensures copy.storage.Load() == source.simulations
  {
    var payload := source.ExportData();
    var emptyStorage := new LocalStorage();
    copy := new DashboardPage(emptyStorage);
    copy.ImportData(Parsed(payload));
  }

  /** The delete button of a listed card removes that card's record and every other with its id. */
  method DeleteFromCard(page: DashboardPage, k: nat)
    requires k < |ShownCards(page.simulations)|
    modifies page, page.storage
    ensures forall i :: 0 <= i < |page.simulations| ==> page.simulations[i].id != old(page.simulations[k].id)
    ensures |page.simulations| < |old(page.simulations)|
  {
    var id := page.simulations[k].id;
    ghost var before := page.simulations;
    assert before == before[..k] + [before[k]] + before[k + 1..];
    WithoutIdConcat(before[..k] + [before[k]], before[k + 1..], id);
    WithoutIdConcat(before[..k], [before[k]], id);
    WithoutIdShrinks(before[..k], id);
    WithoutIdShrinks(before[k + 1..], id);
    page.DeleteSimulation(id);
  }

  lemma {:induction false} WithoutIdShrinks(rs: seq<SimRecord>, id: string)
    ensures |WithoutId(rs, id)| <= |rs|
  {
    if rs != [] {
      WithoutIdShrinks(rs[1..], id);
    }
  }
}
