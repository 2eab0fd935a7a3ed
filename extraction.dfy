/**
 * The response extraction of `QueryDeviceData` (services/iot_service.go): the
 * platform answers {data: [{point: {identifier}, dataList: [{time, value}]}]},
 * and the client keeps, in order, the time and value of every object-shaped
 * `dataList` item of every entry whose identifier is the requested point.
 */
module Extraction {

  import opened Values
  import opened Normalize

  /** The raw item read from one object-shaped element of a `dataList`. */
  function ItemOf(di: map<string, Value>): DataItem {
    DataItem(Lookup(di, "time"), Lookup(di, "value"))
  }

  /** The items of a `dataList`: one per element that is a JSON object, in order; other elements are skipped. */
  function ObjectItems(dataList: seq<Value>): seq<DataItem>
  {
    if dataList == [] then []
    else
      var last := dataList[|dataList| - 1];
      ObjectItems(dataList[..|dataList| - 1]) + (if last.Object? then [ItemOf(last.fields)] else [])
  }

  /** An element of `data` that is an object whose `point.identifier` is the string `dataPoint`. */
  predicate MatchesPoint(entry: Value, dataPoint: string) {
    && entry.Object?
    && Lookup(entry.fields, "point").Object?
    && Lookup(Lookup(entry.fields, "point").fields, "identifier") == Str(dataPoint)
  }

  /** What one element of `data` contributes: its `dataList` items when it matches and its `dataList` is an array. */
  function EntryItems(entry: Value, dataPoint: string): seq<DataItem> {
    if MatchesPoint(entry, dataPoint) && Lookup(entry.fields, "dataList").List? then
      ObjectItems(Lookup(entry.fields, "dataList").items)
    else []
  }

  /** What a list of `data` elements contributes, entry after entry. */
  function EntriesItems(entries: seq<Value>, dataPoint: string): seq<DataItem>
  {
    if entries == [] then []
    else EntriesItems(entries[..|entries| - 1], dataPoint) + EntryItems(entries[|entries| - 1], dataPoint)
  }

  /** The list `QueryDeviceData` returns for a decoded response: empty unless `data` is an array. */
  function Extracted(dataResp: map<string, Value>, dataPoint: string): seq<DataItem> {
    match Lookup(dataResp, "data")
    case List(entries) => EntriesItems(entries, dataPoint)
    case _ => []
  }

  /** The extraction loop of `QueryDeviceData` (result.Data.List grown by two nested loops). */
  method ExtractDataList(dataResp: map<string, Value>, dataPoint: string) returns (list: seq<DataItem>)
    ensures list == Extracted(dataResp, dataPoint)
    ensures !Lookup(dataResp, "data").List? ==> list == []
  {
    list := [];
    var data := Lookup(dataResp, "data");
    if data.List? {
      var entries := data.items;
      var i := 0;
      while i < |entries|
        invariant 0 <= i <= |entries|
        invariant list == EntriesItems(entries[..i], dataPoint)
      {
        var item := entries[i];
        assert entries[..i + 1][..i] == entries[..i];
        if item.Object? {
          var point := Lookup(item.fields, "point");
          if point.Object? {
            var identifier := Lookup(point.fields, "identifier");
            if identifier.Str? && identifier.s == dataPoint {
              var dataList := Lookup(item.fields, "dataList");
              if dataList.List? {
                var dl := dataList.items;
                var j := 0;
                while j < |dl|
                  invariant 0 <= j <= |dl|
                  invariant list == EntriesItems(entries[..i], dataPoint) + ObjectItems(dl[..j])
                {
                  assert dl[..j + 1][..j] == dl[..j];
                  if dl[j].Object? {
                    list := list + [ItemOf(dl[j].fields)];
                  }
                  j := j + 1;
                }
                assert dl[..j] == dl;
              }
            }
          }
        }
        i := i + 1;
      }
      assert entries[..i] == entries;
    }
  }

  // ---------------------------------------------------------------------------
  // Properties of the extraction

  /** Items of a `dataList` keep their order across a split of the list. */
  lemma {:induction false} ObjectItemsAppend(a: seq<Value>, b: seq<Value>)
    ensures ObjectItems(a + b) == ObjectItems(a) + ObjectItems(b)
  {
    if b == [] {
      assert a + b == a;
    } else {
      assert (a + b)[..|a + b| - 1] == a + b[..|b| - 1];
      ObjectItemsAppend(a, b[..|b| - 1]);
    }
  }

  /** Entries contribute in their order: the items of a then the items of b. */
  lemma {:induction false} EntriesItemsAppend(a: seq<Value>, b: seq<Value>, dataPoint: string)
    ensures EntriesItems(a + b, dataPoint) == EntriesItems(a, dataPoint) + EntriesItems(b, dataPoint)
  {
    if b == [] {
      assert a + b == a;
    } else {
      var init, last := b[..|b| - 1], b[|b| - 1];
      assert (a + b)[..|a + b| - 1] == a + init;
      assert (a + b)[|a + b| - 1] == last;
      assert EntriesItems(a + b, dataPoint) == EntriesItems(a + init, dataPoint) + EntryItems(last, dataPoint);
      assert EntriesItems(b, dataPoint) == EntriesItems(init, dataPoint) + EntryItems(last, dataPoint);
      EntriesItemsAppend(a, init, dataPoint);
    }
  }

  /** An item is extracted from a `dataList` exactly when some object element of the list yields it. */
  lemma {:induction false} ObjectItemsMembership(dataList: seq<Value>, x: DataItem)
    ensures x in ObjectItems(dataList) <==>
              exists j :: 0 <= j < |dataList| && dataList[j].Object? && x == ItemOf(dataList[j].fields)
  {
    if dataList != [] {
      var init := dataList[..|dataList| - 1];
      ObjectItemsMembership(init, x);
      assert forall j :: 0 <= j < |init| ==> init[j] == dataList[j];
    }
  }

  /** An item is extracted from `data` exactly when some entry of it contributes that item. */
  lemma {:induction false} EntriesItemsMembership(entries: seq<Value>, dataPoint: string, x: DataItem)
    ensures x in EntriesItems(entries, dataPoint) <==>
              exists i :: 0 <= i < |entries| && x in EntryItems(entries[i], dataPoint)
  {
    if entries != [] {
      var init := entries[..|entries| - 1];
      EntriesItemsMembership(init, dataPoint, x);
      assert forall i :: 0 <= i < |init| ==> init[i] == entries[i];
    }
  }

  /**
   * Every extracted item comes from an object-shaped `dataList` element of an
   * entry for the requested point, and every such element is extracted.
   */
  lemma ExtractedMembership(entries: seq<Value>, dataPoint: string, x: DataItem)
    ensures x in EntriesItems(entries, dataPoint) <==>
              exists i, j :: 0 <= i < |entries| && MatchesPoint(entries[i], dataPoint)
                && Lookup(entries[i].fields, "dataList").List?
                && 0 <= j < |Lookup(entries[i].fields, "dataList").items|
                && Lookup(entries[i].fields, "dataList").items[j].Object?
                && x == ItemOf(Lookup(entries[i].fields, "dataList").items[j].fields)
  {
    EntriesItemsMembership(entries, dataPoint, x);
    forall i | 0 <= i < |entries| && MatchesPoint(entries[i], dataPoint)
                && Lookup(entries[i].fields, "dataList").List?
    {
      ObjectItemsMembership(Lookup(entries[i].fields, "dataList").items, x);
    }
  }

  /** When exactly one entry is for the requested point, the result is that entry's items. */
  lemma SingleMatchingEntry(entries: seq<Value>, dataPoint: string, k: nat)
    requires k < |entries| && MatchesPoint(entries[k], dataPoint)
    requires forall i :: 0 <= i < |entries| && i != k ==> !MatchesPoint(entries[i], dataPoint)
    ensures EntriesItems(entries, dataPoint) == EntryItems(entries[k], dataPoint)
  {
    NoMatchNoItems(entries[..k], dataPoint);
    NoMatchNoItems(entries[k + 1..], dataPoint);
    assert entries == entries[..k] + [entries[k]] + entries[k + 1..];
    EntriesItemsAppend(entries[..k] + [entries[k]], entries[k + 1..], dataPoint);
    EntriesItemsAppend(entries[..k], [entries[k]], dataPoint);
    assert [entries[k]][..0] == [];
  }

  /** Entries none of which is for the requested point contribute nothing. */
  lemma {:induction false} NoMatchNoItems(entries: seq<Value>, dataPoint: string)
    requires forall i :: 0 <= i < |entries| ==> !MatchesPoint(entries[i], dataPoint)
    ensures EntriesItems(entries, dataPoint) == []
  {
    if entries != [] {
      NoMatchNoItems(entries[..|entries| - 1], dataPoint);
    }
  }
}
