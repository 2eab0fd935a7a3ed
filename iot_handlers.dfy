/**
 * The IoT handlers of api/handlers/iot.go: `POST /api/iot/sync/:sessionId`
 * syncs one session and flattens the per-point results into rows for the
 * frontend; the other handlers report the data-point registry, the outcome of
 * a connection test and a fixed list of device points.
 *
 * Go ranges over a map in an unspecified order; the flattening loop picks the
 * keys in an arbitrary order too, and reports the order it used as a ghost
 * result.
 */
module IotHandlers {

  import opened Values
  import opened Registry
  import opened Sessions
  import opened IotService
  import opened SessionHandlers

  // ---------------------------------------------------------------------------
  // Flattening the sync results

  /** One element of the response's `data` array. */
  datatype FlatRow = FlatRow(pointName: string, pointValue: Value, timestamp: Value, unit: Value)

  /**
   * The rows one entry contributes: one per element of its `data`, in order,
   * with the entry's unit, when the entry is an object whose `data` is a list
   * of rows; none otherwise.
   */
  function PointRows(pointName: string, pointData: Value): (rows: seq<FlatRow>)
    ensures !(pointData.Object? && Lookup(pointData.fields, "data").Rows?) ==> rows == []
    ensures pointData.Object? && Lookup(pointData.fields, "data").Rows? ==>
              var list := Lookup(pointData.fields, "data").rows;
              && |rows| == |list|
              && forall i :: 0 <= i < |list| ==>
                   rows[i] == FlatRow(pointName, Lookup(list[i], "value"), Lookup(list[i], "time"),
                                      Lookup(pointData.fields, "unit"))
  {
    if pointData.Object? && Lookup(pointData.fields, "data").Rows? then
      var list := Lookup(pointData.fields, "data").rows;
      seq(|list|, i requires 0 <= i < |list| =>
        FlatRow(pointName, Lookup(list[i], "value"), Lookup(list[i], "time"), Lookup(pointData.fields, "unit")))
    else []
  }

  /** Every key of `order` is a key of `iotData`. */
  predicate KeysOf(iotData: map<string, Value>, order: seq<string>) {
    forall i :: 0 <= i < |order| ==> order[i] in iotData
  }

  /** `order` lists every key of `iotData` exactly once. */
  ghost predicate Enumerates(iotData: map<string, Value>, order: seq<string>) {
    && (forall k :: k in order <==> k in iotData)
    && Distinct(order)
  }

  /** The rows of the entries visited in `order`, entry after entry. */
  function Flattened(iotData: map<string, Value>, order: seq<string>): seq<FlatRow>
    requires KeysOf(iotData, order)
  {
    if order == [] then []
    else
      var k := order[|order| - 1];
      Flattened(iotData, order[..|order| - 1]) + PointRows(k, iotData[k])
  }

  /**
   * The flattening loop of `SyncIotData`: the rows of every entry, the
   * entries visited in the order `order`, and `dataCount` counting them.
   */
  method FlattenSyncData(iotData: map<string, Value>)
    returns (dataArray: seq<FlatRow>, dataCount: int, ghost order: seq<string>)
    ensures Enumerates(iotData, order)
    ensures dataArray == Flattened(iotData, order)
    ensures dataCount == |dataArray|
  {
    dataArray, dataCount, order := [], 0, [];
    var pending := iotData.Keys;
    while pending != {}
      invariant pending <= iotData.Keys
      invariant forall k :: k in order <==> k in iotData && k !in pending
      invariant Distinct(order)
      invariant KeysOf(iotData, order)
      invariant dataArray == Flattened(iotData, order)
      invariant dataCount == |dataArray|
      decreases pending
    {
      var pointName :| pointName in pending;
      dataArray, dataCount := AppendPointRows(dataArray, dataCount, pointName, iotData[pointName]);
      ghost var visited := order;
      order := order + [pointName];
      assert order[..|order| - 1] == visited && order[|order| - 1] == pointName;
      assert KeysOf(iotData, order);
      assert Flattened(iotData, order) == Flattened(iotData, visited) + PointRows(pointName, iotData[pointName]);
      pending := pending - {pointName};
    }
  }

  /** The inner loop of the flattening: one entry's rows appended, and counted. */
  method AppendPointRows(dataArray: seq<FlatRow>, dataCount: int, pointName: string, pointData: Value)
    returns (rows: seq<FlatRow>, count: int)
    requires dataCount == |dataArray|
    ensures rows == dataArray + PointRows(pointName, pointData)
    ensures count == |rows|
  {
    rows, count := dataArray, dataCount;
    if pointData.Object? {
      var dataMap := pointData.fields;
      var data := Lookup(dataMap, "data");
      if data.Rows? {
        var dataList := data.rows;
        ghost var added := PointRows(pointName, pointData);
        var j := 0;
        while j < |dataList|
          invariant 0 <= j <= |dataList|
          invariant rows == dataArray + added[..j]
          invariant count == |rows|
        {
          var item := dataList[j];
          rows := rows + [FlatRow(pointName, Lookup(item, "value"), Lookup(item, "time"), Lookup(dataMap, "unit"))];
          count := count + 1;
          assert added[..j + 1] == added[..j] + [added[j]];
          j := j + 1;
        }
        assert added[..j] == added;
      }
    }
  }

  /** A row is in the response exactly when some visited entry contributes it. */
  lemma {:induction false} FlattenedMembership(iotData: map<string, Value>, order: seq<string>, r: FlatRow)
    requires KeysOf(iotData, order)
    ensures r in Flattened(iotData, order) <==>
              exists i :: 0 <= i < |order| && r in PointRows(order[i], iotData[order[i]])
  {
    if order != [] {
      var init := order[..|order| - 1];
      FlattenedMembership(iotData, init, r);
      assert forall i :: 0 <= i < |init| ==> init[i] == order[i];
    }
  }

  /** The number of rows an order of entries contributes. */
  function RowCount(iotData: map<string, Value>, order: seq<string>): nat
    requires KeysOf(iotData, order)
  {
    if order == [] then 0
    else
      var k := order[|order| - 1];
      RowCount(iotData, order[..|order| - 1]) + |PointRows(k, iotData[k])|
  }

  /** The response's length is its number of rows, entry by entry. */
  lemma {:induction false} FlattenedLength(iotData: map<string, Value>, order: seq<string>)
    requires KeysOf(iotData, order)
    ensures |Flattened(iotData, order)| == RowCount(iotData, order)
  {
    if order != [] {
      FlattenedLength(iotData, order[..|order| - 1]);
    }
  }

  /** Counting rows over a concatenation of orders. */
  lemma {:induction false} RowCountAppend(iotData: map<string, Value>, a: seq<string>, b: seq<string>)
    requires KeysOf(iotData, a) && KeysOf(iotData, b)
    ensures KeysOf(iotData, a + b)
    ensures RowCount(iotData, a + b) == RowCount(iotData, a) + RowCount(iotData, b)
  {
    if b != [] {
      var init := b[..|b| - 1];
      assert KeysOf(iotData, init);
      assert (a + b)[|a + b| - 1] == b[|b| - 1];
      assert (a + b)[..|a + b| - 1] == a + init;
      RowCountAppend(iotData, a, init);
    } else {
      assert a + b == a;
    }
  }

  /** No key is listed twice. */
  predicate Distinct(order: seq<string>) {
    forall i, j :: 0 <= i < j < |order| ==> order[i] != order[j]
  }

  /** A list is the part before p, the element at p and the part after it. */
  lemma SplitAt(s: seq<string>, p: nat)
    requires p < |s|
    ensures s == s[..p] + [s[p]] + s[p + 1..]
  {
  }

  /** Dropping the element at p from a list without repeats leaves the other keys, still without repeats. */
  lemma DropAt(s: seq<string>, p: nat)
    requires Distinct(s) && p < |s|
    ensures Distinct(s[..p] + s[p + 1..])
    ensures forall k :: k in s[..p] + s[p + 1..] <==> k in s && k != s[p]
  {
    var rest := s[..p] + s[p + 1..];
    forall i, j | 0 <= i < j < |rest| ensures rest[i] != rest[j] {
      var i' := if i < p then i else i + 1;
      var j' := if j < p then j else j + 1;
      assert rest[i] == s[i'] && rest[j] == s[j'] && i' < j';
    }
    forall k ensures k in rest <==> k in s && k != s[p] {
      if k in rest {
        var i :| 0 <= i < |rest| && rest[i] == k;
        var i' := if i < p then i else i + 1;
        assert s[i'] == k && i' != p;
      }
      if k in s && k != s[p] {
        var i :| 0 <= i < |s| && s[i] == k;
        assert i != p;
        assert rest[if i < p then i else i - 1] == k;
      }
    }
  }

  /** A non-empty list holds its first element. */
  lemma FirstIsMember(s: seq<string>)
    ensures s != [] ==> s[0] in s
  {
  }

  /**
   * The row count does not depend on the order the entries are visited in:
   * any two orders that list the same keys once each count the same rows.
   */
  lemma {:induction false} RowCountOrderFree(iotData: map<string, Value>, o1: seq<string>, o2: seq<string>)
    requires KeysOf(iotData, o1) && KeysOf(iotData, o2)
    requires forall k :: k in o1 <==> k in o2
    requires Distinct(o1) && Distinct(o2)
    ensures RowCount(iotData, o1) == RowCount(iotData, o2)
    decreases |o1|
  {
    if o1 == [] {
      FirstIsMember(o2);
      assert o2 == [];
    } else {
      var n := |o1| - 1;
      var x := o1[n];
      assert x in o2;
      var p :| 0 <= p < |o2| && o2[p] == x;
      DropAt(o1, n);
      DropAt(o2, p);
      assert o1[..n] + o1[n + 1..] == o1[..n];
      var rest := o2[..p] + o2[p + 1..];
      forall k ensures k in o1[..n] <==> k in rest {
        assert k in o1[..n] <==> k in o1[..n] + o1[n + 1..];
        assert k in o1[..n] + o1[n + 1..] <==> k in o1 && k != x;
        assert k in rest <==> k in o2 && k != x;
        assert k in o1 <==> k in o2;
      }
      RowCountOrderFree(iotData, o1[..n], rest);
      SplitAt(o2, p);
      RowCountAppend(iotData, o2[..p], [x]);
      RowCountAppend(iotData, o2[..p] + [x], o2[p + 1..]);
      RowCountAppend(iotData, o2[..p], o2[p + 1..]);
      assert [x][..0] == [];
    }
  }

  /** So `dataCount` is the same whichever order the map is ranged over. */
  lemma CountOrderFree(iotData: map<string, Value>, o1: seq<string>, o2: seq<string>)
    requires Enumerates(iotData, o1) && Enumerates(iotData, o2)
    ensures |Flattened(iotData, o1)| == |Flattened(iotData, o2)|
  {
    FlattenedLength(iotData, o1);
    FlattenedLength(iotData, o2);
    RowCountOrderFree(iotData, o1, o2);
  }

  /**
   * On a sync's results every registry point contributes one row per
   * normalised sample, carrying the point's name and unit.
   */
  lemma SyncedPointRows(c: TokenCache, x: SyncContext, i: nat)
    requires i < |GetIotDataPoints()|
    ensures var m := SyncOver(c, GetIotDataPoints(), x).results;
            var dp := GetIotDataPoints()[i];
            && dp.name in m && EntryFor(m[dp.name], dp)
            && |PointRows(dp.name, m[dp.name])| == |Lookup(m[dp.name].fields, "data").rows|
            && forall r :: r in PointRows(dp.name, m[dp.name]) ==> r.pointName == dp.name && r.unit == Str(dp.unit)
  {
    SyncCoversRegistry(c, x);
  }

  // ---------------------------------------------------------------------------
  // POST /api/iot/sync/:sessionId

  datatype SyncResponse =
    | SyncNotFound              // 404 "Session not found"
    | SyncFailed(error: string) // 500
    | Synced(data: seq<FlatRow>, dataCount: int)

  /** The response to a failed session lookup: 404 for the no-rows error, 500 with the error text otherwise. */
  function SyncLookupFailure(e: SessionError): (r: SyncResponse)
    ensures r == SyncNotFound <==> e.Message() == NoRowsText
    ensures r != SyncNotFound ==> r == SyncFailed("Failed to get session: " + e.Message())
  {
    if e.Message() == NoRowsText then SyncNotFound else SyncFailed("Failed to get session: " + e.Message())
  }

  /**
   * `SyncIotData`: an unknown session is a 404; otherwise the session is
   * synced and every row of every entry is returned, with `dataCount` rows.
   */
  method SyncIotData(store: SessionStore, iot: IotService, sessionId: string, configuredDeviceCode: string,
                     now: int, auth: AuthReply, platform: QueryRequest -> QueryReply,
                     parseFloat: string -> Option<real>)
    returns (resp: SyncResponse, ghost order: seq<string>)
    modifies iot
    ensures FindSession(store.rows, sessionId).None? ==> resp == SyncNotFound && iot.Cache() == old(iot.Cache())
    ensures FindSession(store.rows, sessionId).Some? ==>
              var row := store.rows[FindSession(store.rows, sessionId).value];
              var sync := SessionSync(row, configuredDeviceCode, old(iot.Cache()), now, auth, platform, parseFloat);
              && iot.Cache() == sync.cache
              && Enumerates(sync.results, order)
              && resp == Synced(Flattened(sync.results, order), |Flattened(sync.results, order)|)
  {
    order := [];
    var lookup := store.GetSessionByID(sessionId);
    if lookup.Err? {
      return SyncLookupFailure(lookup.error), order;
    }
    var session := lookup.value;
    ghost var row := store.rows[FindSession(store.rows, sessionId).value];
    assert session.Row() == row;
    var iotData := iot.SyncSessionData(session, configuredDeviceCode, now, auth, platform, parseFloat);
    var dataArray, dataCount;
    dataArray, dataCount, order := FlattenSyncData(iotData);
    resp := Synced(dataArray, dataCount);
  }

  // ---------------------------------------------------------------------------
  // GET /api/iot/test-connection

  datatype ConnectionReply = ConnectionReply(status: int, success: bool, failure: Option<IotError>)

  /** The reply to a connection test: 200 and success exactly when a token was obtained; 500 with the error otherwise. */
  function ConnectionReplyOf(err: Option<IotError>): (r: ConnectionReply)
    ensures r.success <==> err.None?
    ensures r.status == (if err.None? then 200 else 500)
    ensures r.failure == err
  {
    match err
    case None => ConnectionReply(200, true, None)
    case Some(e) => ConnectionReply(500, false, Some(e))
  }

  /** `TestIotConnection` */
  method TestIotConnection(iot: IotService, now: int, auth: AuthReply) returns (reply: ConnectionReply)
    modifies iot
    ensures iot.Cache() == TokenStep(old(iot.Cache()), now, auth).cache
    ensures reply.success <==> TokenStep(old(iot.Cache()), now, auth).result.Ok?
    ensures !reply.success ==> reply.status == 500 && reply.failure.Some? && Err(reply.failure.value) == TokenStep(old(iot.Cache()), now, auth).result
  {
    var err := iot.TestConnection(now, auth);
    reply := ConnectionReplyOf(err);
  }

  // ---------------------------------------------------------------------------
  // GET /api/iot/data-points and GET /api/iot/device/:deviceId/points

  /** `GetIotDataPoints` (the handler): the registry, in registry order. */
  function DataPointsReply(): (points: seq<DataPointSpec>)
    ensures |points| == 7
    ensures forall i :: 0 <= i < 7 ==> points[i].name == GetIotDataPoints()[i].name
  {
    GetIotDataPoints()
  }

  /** One element of the fixed device-point list. */
  datatype DevicePoint = DevicePoint(name: string, displayName: string, unit: string)

  /** `GetDevicePoints`: the same fixed list whatever the device. */
  function GetDevicePoints(deviceId: string): seq<DevicePoint> {
    [ DevicePoint("volume", "噪音", "dB"),
      DevicePoint("shake", "振动", "g"),
      DevicePoint("temperature", "温度", "°C"),
      DevicePoint("feature_speed_1_speed", "转速", "rpm"),
      DevicePoint("controlledvariable", "是否在运行", ""),
      DevicePoint("controlledvolume", "音量是否监控", ""),
      DevicePoint(HilbertPoint, HilbertDeviceName, "") ]
  }

  /** The display name the device-point list gives the Hilbert envelope. */
  const HilbertDeviceName: string := "希尔伯特值"

  /** A registry point as the device-point list shows it: its name and unit, and its display name except for the Hilbert envelope. */
  function AsDevicePoint(q: DataPointSpec): DevicePoint {
    DevicePoint(q.name, if q.name == HilbertPoint then HilbertDeviceName else q.displayName, q.unit)
  }

  /**
   * The device points are the registry's points in another order (the
   * Hilbert envelope moved to the end), each with its registry name and
   * unit; the display names agree except the Hilbert envelope's, which is
   * not the registry's.
   */
  lemma DevicePointsMatchRegistry(deviceId: string)
    ensures var r := GetIotDataPoints();
            GetDevicePoints(deviceId)
              == [AsDevicePoint(r[0]), AsDevicePoint(r[1]), AsDevicePoint(r[2]), AsDevicePoint(r[3]),
                  AsDevicePoint(r[5]), AsDevicePoint(r[6]), AsDevicePoint(r[4])]
    ensures GetIotDataPoints()[4].name == HilbertPoint
    ensures GetIotDataPoints()[4].displayName != HilbertDeviceName
  {
  }

  /** Whatever the device, the list is the same. */
  lemma DevicePointsIgnoreDevice(a: string, b: string)
    ensures GetDevicePoints(a) == GetDevicePoints(b)
  {
  }
}
