/**
 * The zones store (`useZonesStore`): an ordered list of zone records keyed by
 * `id`, the selected zone, and loading and error flags that callers set
 * themselves around their network calls.
 */
module Zones {
  import opened Js
  import opened Records

  class ZonesStore {
    var zones: seq<Obj>
    var selectedZone: Option<Obj>
    var isLoading: bool
    var error: Value

    /** An empty store: no zones, nothing selected, not loading, no error. */
    constructor ()
      ensures zones == [] && selectedZone == None && !isLoading && error == Null
    {
      zones, selectedZone, isLoading, error := [], None, false, Null;
    }

    /** `setZones`: the list is replaced wholesale, in the given order. */
    method SetZones(list: seq<Obj>)
      modifies this
      ensures zones == list
      ensures selectedZone == old(selectedZone) && isLoading == old(isLoading) && error == old(error)
    {
      zones := list;
    }

    /** `setSelectedZone`: only the selection changes. */
    method SetSelectedZone(zone: Option<Obj>)
      modifies this
      ensures selectedZone == zone
      ensures zones == old(zones) && isLoading == old(isLoading) && error == old(error)
    {
      selectedZone := zone;
    }

    /** `addZone`: appended at the end, with no check for an existing id. */
    method AddZone(zone: Obj)
      modifies this
      ensures zones == old(zones) + [zone]
      ensures selectedZone == old(selectedZone) && isLoading == old(isLoading) && error == old(error)
    {
      zones := zones + [zone];
    }

    /** `updateZone`: every zone with the id is merged with `data`; the others stay. */
    method UpdateZone(id: Value, data: Obj)
      modifies this
      ensures zones == MergeWhereId(old(zones), id, data)
      ensures selectedZone == old(selectedZone) && isLoading == old(isLoading) && error == old(error)
    {
      zones := MergeWhereId(zones, id, data);
    }

    /** `removeZone`: every zone with the id is dropped; the rest keep their order. */
    method RemoveZone(id: Value)
      modifies this
      ensures zones == WithoutId(old(zones), id)
      ensures selectedZone == old(selectedZone) && isLoading == old(isLoading) && error == old(error)
    {
      zones := WithoutId(zones, id);
    }

    /** `setLoading`: only the loading flag changes. */
    method SetLoading(loading: bool)
      modifies this
      ensures isLoading == loading
      ensures zones == old(zones) && selectedZone == old(selectedZone) && error == old(error)
    {
      isLoading := loading;
    }

    /** `setError`: only the error value changes. */
    method SetError(e: Value)
      modifies this
      ensures error == e
      ensures zones == old(zones) && selectedZone == old(selectedZone) && isLoading == old(isLoading)
    {
      error := e;
    }
  }

  /** Appending grows the list by one and never deduplicates: a second add of the same zone repeats its id. */
  lemma AddDuplicates(list: seq<Obj>, zone: Obj)
    requires zone in list
    ensures |list + [zone]| == |list| + 1
    ensures !UniqueIds(list + [zone])
  {
    var i :| 0 <= i < |list| && list[i] == zone;
    assert (list + [zone])[i] == zone && (list + [zone])[|list|] == zone;
  }

  /**
   * Adding a zone, updating it by its id with data that keeps its id, and
   * removing it by that id leaves the list as it was before the add; from an
   * empty list, empty again.
   */
  lemma AddUpdateRemove(list: seq<Obj>, zone: Obj, id: Value, data: Obj)
    requires IdOf(zone) == id
    requires "id" in data ==> data["id"] == id
    requires forall i :: 0 <= i < |list| ==> IdOf(list[i]) != id
    ensures WithoutId(MergeWhereId(list + [zone], id, data), id) == list
  {
    var merged := Spread(zone, data);
    assert IdOf(merged) == id;
    MergeWhereIdAppend(list, [zone], id, data);
    MergeAbsentId(list, id, data);
    assert MergeWhereId([zone], id, data) == [merged];
    WithoutIdAppend(list, [merged], id);
    WithoutAbsentId(list, id);
    assert WithoutId([merged], id) == [];
  }

  /** The scenario from empty: add zone 1, rename it, remove zone 1. */
  lemma AddUpdateRemoveFromEmpty()
    ensures WithoutId(MergeWhereId([] + [map["id" := Num(1), "name" := Str("example.com")]], Num(1),
                                   map["name" := Str("example.org")]), Num(1)) == []
  {
    AddUpdateRemove([], map["id" := Num(1), "name" := Str("example.com")], Num(1), map["name" := Str("example.org")]);
  }
}
