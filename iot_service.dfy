/**
 * The IoT platform client of services/iot_service.go: an access-token cache
 * refreshed through the platform's authentication endpoint, the per-point
 * property query (with its 401 handling and response extraction) and the
 * session sync that queries every registry point over the session's window.
 *
 * The platform is abstract: the authentication endpoint answers `auth`
 * whenever it is asked within one call, and the query endpoint answers
 * `platform(request)`.  Clock readings are the parameter `now`.  The
 * concurrent fan-out of the sync is taken in registry order.
 */
module IotService {

  import opened Values
  import opened Registry
  import opened Normalize
  import opened Extraction
  import opened Sessions

  /** A refreshed token is trusted for 24 hours. */
  const TokenLifetimeMs: int := 24 * 60 * 60 * 1000
  const StatusOK: int := 200
  const StatusUnauthorized: int := 401

  /** `IotAuthResponse`: the decoded body of the authentication reply. */
  datatype AuthBody = AuthBody(success: bool, code: int, data: string, errorMessage: string)

  /** The authentication reply: no answer at all, or a status with the body, decoded when it is valid JSON. */
  datatype AuthReply = AuthUnreachable | AuthAnswered(status: int, body: Option<AuthBody>)

  /** The query request: the device, the one requested identifier and the window (milliseconds). */
  datatype QueryRequest = QueryRequest(deviceName: string, identifier: string, startTime: int, endTime: int)

  /**
   * The query reply: no answer at all, or a status with the body, decoded when
   * it is a JSON object.  A body that is the JSON literal `null` decodes too, to
   * an empty map (Go's `json.Unmarshal` leaves the map nil, and reading a nil
   * map yields nil); any other body that is not an object is `None`.
   */
  datatype QueryReply = QueryUnreachable | QueryAnswered(status: int, body: Option<map<string, Value>>)

  /** The errors of the client; the text Go wraps around each is not modelled. */
  datatype IotError =
    | AuthUnreachableError             // the authentication request got no reply
    | TokenStatus(status: int)         // "token request failed with status %d"
    | TokenUnparsable                  // "failed to parse token response"
    | AuthRejected(message: string)    // "authentication failed: <errorMessage>"
    | NoToken(cause: IotError)         // QueryDeviceData's "failed to get access token: %w"
    | QueryUnreachableError            // the query request got no reply
    | Unauthorized(message: string)    // a 401 reply: "authentication failed: <message>"
    | QueryStatus(status: int)         // "query failed with status %d"
    | QueryUnparsable                  // "failed to parse query response"

  /** The fields `accessToken` and `tokenExpiry`. */
  datatype TokenCache = TokenCache(accessToken: string, tokenExpiry: int)

  /** The cache after an operation, and what the operation returned. */
  datatype Step<+T> = Step(cache: TokenCache, result: Result<T, IotError>)

  /** The cached token may be returned as it is: it is set and has not expired. */
  predicate Usable(c: TokenCache, now: int) {
    c.accessToken != "" && now < c.tokenExpiry
  }

  /**
   * The refresh branch of `getAccessToken`: the token is replaced only by an
   * accepted reply (status 200, decodable, success and code 200), with a
   * 24-hour expiry; any other reply is an error and the cache is kept.
   */
  function Refresh(c: TokenCache, now: int, auth: AuthReply): (s: Step<string>)
    ensures s.result.Err? ==> s.cache == c
    ensures s.result.Ok? ==> s.cache == TokenCache(s.result.value, now + TokenLifetimeMs)
    ensures s.result.Ok? <==>
              auth.AuthAnswered? && auth.status == StatusOK && auth.body.Some?
              && auth.body.value.success && auth.body.value.code == 200
  {
    match auth
    case AuthUnreachable => Step(c, Err(AuthUnreachableError))
    case AuthAnswered(status, body) =>
      if status != StatusOK then Step(c, Err(TokenStatus(status)))
      else if body.None? then Step(c, Err(TokenUnparsable))
      else if !body.value.success || body.value.code != 200 then Step(c, Err(AuthRejected(body.value.errorMessage)))
      else Step(TokenCache(body.value.data, now + TokenLifetimeMs), Ok(body.value.data))
  }

  /**
   * `getAccessToken` at `now`: a usable cached token is returned and the
   * cache kept; otherwise the token is refreshed.  Both checks of the source
   * (before and after taking the write lock) read the same cache here.
   */
  function TokenStep(c: TokenCache, now: int, auth: AuthReply): (s: Step<string>)
    ensures s.result.Ok? ==> s.result.value == s.cache.accessToken
    ensures s.result.Err? ==> s.cache == c
  {
    if Usable(c, now) then Step(c, Ok(c.accessToken)) else Refresh(c, now, auth)
  }

  /**
   * `c` matches the lower-case letter `lower` under Unicode case folding, as
   * Go's JSON decoding compares object keys with struct field names: the
   * letter itself, its upper case, and for 's' also the long s U+017F.
   */
  predicate FoldsTo(c: char, lower: char)
    requires 'a' <= lower <= 'z'
  {
    c == lower || c as int == lower as int - 32 || (lower == 's' && c == '\U{017F}')
  }

  /** A key that decodes into the `Message` field of `IotErrorResponse`: "message" in any case. */
  predicate FoldsToMessage(k: string) {
    |k| == 7 && forall i :: 0 <= i < 7 ==> FoldsTo(k[i], "message"[i])
  }

  /** The strings stored under keys that decode into `Message`; keys with other values leave the field alone. */
  function MessageTexts(fields: map<string, Value>): set<string> {
    set k | k in fields && FoldsToMessage(k) && fields[k].Str? :: fields[k].s
  }

  /**
   * The `message` that `json.Unmarshal` leaves in an `IotErrorResponse` decoded
   * from a 401 body: "" when the body does not decode or no key of it decodes
   * into the field, and the one string stored under such keys otherwise.
   */
  function ErrorMessageOf(body: Option<map<string, Value>>): (m: string)
    ensures body.None? ==> m == ""
    ensures body.Some? && MessageTexts(body.value) == {} ==> m == ""
    ensures body.Some? && |MessageTexts(body.value)| == 1 ==> MessageTexts(body.value) == {m}
    ensures body.Some? && m != "" ==> m in MessageTexts(body.value)
  {
    if body.None? then ""
    else
      var texts := MessageTexts(body.value);
      assert Lookup(body.value, "message").Str? ==> Lookup(body.value, "message").s in texts by {
        assert FoldsToMessage("message");
      }
      if |texts| == 1 then SingletonElement(texts)
      else if Lookup(body.value, "message").Str? then Lookup(body.value, "message").s
      else ""
  }

  /** The element of a one-element set. */
  function SingletonElement(s: set<string>): (x: string)
    requires |s| == 1
    ensures s == {x}
  {
    var x :| x in s;
    assert s - {x} == {} by { assert |s - {x}| == 0; }
    x
  }

  /**
   * `QueryDeviceData` for one point: a token is obtained first; a 401 reply
   * clears the cached token and is an error without a retry; any other
   * status but 200, and an undecodable body, are errors; a decoded body
   * yields the items extracted for the point.
   */
  function QueryStep(c: TokenCache, now: int, auth: AuthReply, reply: QueryReply, dataPoint: string)
    : (s: Step<seq<DataItem>>)
    ensures s.result.Ok? ==> TokenStep(c, now, auth).result.Ok?
    ensures s.result.Ok? ==> reply.QueryAnswered? && reply.status == StatusOK && reply.body.Some?
    ensures s.result.Ok? ==> s.result.value == Extracted(reply.body.value, dataPoint)
    ensures (TokenStep(c, now, auth).result.Ok? && reply.QueryAnswered? && reply.status == StatusOK && reply.body.Some?)
              ==> s == Step(TokenStep(c, now, auth).cache, Ok(Extracted(reply.body.value, dataPoint)))
    ensures !(reply.QueryAnswered? && reply.status == StatusUnauthorized) ==> s.cache == TokenStep(c, now, auth).cache
    ensures (TokenStep(c, now, auth).result.Ok? && reply.QueryAnswered? && reply.status == StatusUnauthorized)
              ==> s.cache == TokenStep(c, now, auth).cache.(accessToken := "") && s.result.Err?
  {
    var t := TokenStep(c, now, auth);
    if t.result.Err? then Step(t.cache, Err(NoToken(t.result.error)))
    else
      match reply
      case QueryUnreachable => Step(t.cache, Err(QueryUnreachableError))
      case QueryAnswered(status, body) =>
        if status == StatusUnauthorized then Step(t.cache.(accessToken := ""), Err(Unauthorized(ErrorMessageOf(body))))
        else if status != StatusOK then Step(t.cache, Err(QueryStatus(status)))
        else if body.None? then Step(t.cache, Err(QueryUnparsable))
        else Step(t.cache, Ok(Extracted(body.value, dataPoint)))
  }

  // ---------------------------------------------------------------------------
  // Session sync

  /** The device code a sync queries: the session's device, or the configured one when it has none. */
  function DeviceCodeFor(deviceId: string, configured: string): string {
    if deviceId == "" then configured else deviceId
  }

  /** The end of the sync window: the end time of a completed session that has one, otherwise now. */
  function WindowEnd(status: string, endTime: Option<int>, now: int): int {
    if status == Completed && endTime.Some? then endTime.value else now
  }

  /** The rows a point's entry carries: its normalised items, or none when its query failed. */
  function PointData(r: Result<seq<DataItem>, IotError>, dp: DataPointSpec, parseFloat: string -> Option<real>)
    : seq<map<string, Value>>
  {
    if r.Ok? then ProcessedRows(r.value, dp, parseFloat) else []
  }

  /** The result entry of one point: its display name, unit and kind, and its rows. */
  function PointEntry(dp: DataPointSpec, data: seq<map<string, Value>>): Value {
    Object(map["displayName" := Str(dp.displayName), "unit" := Str(dp.unit), "type" := Str(dp.kind),
               "data" := Rows(data)])
  }

  /** The shape of an entry: it describes `dp` and carries a list of rows. */
  predicate EntryFor(v: Value, dp: DataPointSpec) {
    && v.Object?
    && Lookup(v.fields, "displayName") == Str(dp.displayName)
    && Lookup(v.fields, "unit") == Str(dp.unit)
    && Lookup(v.fields, "type") == Str(dp.kind)
    && Lookup(v.fields, "data").Rows?
  }

  /** The cache and the results map of a sync. */
  datatype SyncState = SyncState(cache: TokenCache, results: map<string, Value>)

  /** What stays fixed during one sync: the device, the window, the clock and the platform's answers. */
  datatype SyncContext = SyncContext(
    deviceCode: string, startTime: int, endTime: int, now: int, auth: AuthReply,
    platform: QueryRequest -> QueryReply, parseFloat: string -> Option<real>)

  /** One point of a sync: it is queried with the current cache and its entry stored under its name. */
  function SyncStep(st: SyncState, dp: DataPointSpec, x: SyncContext): SyncState {
    var s := QueryStep(st.cache, x.now, x.auth, x.platform(QueryRequest(x.deviceCode, dp.name, x.startTime, x.endTime)), dp.name);
    SyncState(s.cache, st.results[dp.name := PointEntry(dp, PointData(s.result, dp, x.parseFloat))])
  }

  /** The sync over a list of points, taken in order, each with the cache the previous queries left. */
  function SyncOver(c: TokenCache, points: seq<DataPointSpec>, x: SyncContext): SyncState
  {
    if points == [] then SyncState(c, map[])
    else SyncStep(SyncOver(c, points[..|points| - 1], x), points[|points| - 1], x)
  }

  class IotService {
    var accessToken: string
    var tokenExpiry: int

    function Cache(): TokenCache
      reads this
    {
      TokenCache(accessToken, tokenExpiry)
    }

    /** The singleton starts with no token and the zero expiry. */
    constructor ()
      ensures Cache() == TokenCache("", ZeroTimeMs)
    {
      accessToken, tokenExpiry := "", ZeroTimeMs;
    }

    /** `getAccessToken` */
    method GetAccessToken(now: int, auth: AuthReply) returns (r: Result<string, IotError>)
      modifies this
      ensures Step(Cache(), r) == TokenStep(old(Cache()), now, auth)
    {
      if accessToken != "" && now < tokenExpiry {
        return Ok(accessToken);
      }
      if accessToken != "" && now < tokenExpiry {
        return Ok(accessToken);
      }
      match auth {
        case AuthUnreachable =>
          return Err(AuthUnreachableError);
        case AuthAnswered(status, body) =>
          if status != StatusOK {
            return Err(TokenStatus(status));
          }
          if body.None? {
            return Err(TokenUnparsable);
          }
          var authResp := body.value;
          if !authResp.success || authResp.code != 200 {
            return Err(AuthRejected(authResp.errorMessage));
          }
          accessToken := authResp.data;
          tokenExpiry := now + TokenLifetimeMs;
          return Ok(accessToken);
      }
    }

    /** `QueryDeviceData`: the platform answers the request built from the arguments. */
    method QueryDeviceData(deviceCode: string, dataPoint: string, startTime: int, endTime: int, now: int,
                           auth: AuthReply, platform: QueryRequest -> QueryReply)
      returns (r: Result<seq<DataItem>, IotError>)
      modifies this
      ensures Step(Cache(), r) ==
                QueryStep(old(Cache()), now, auth, platform(QueryRequest(deviceCode, dataPoint, startTime, endTime)), dataPoint)
    {
      var token := GetAccessToken(now, auth);
      if token.Err? {
        return Err(NoToken(token.error));
      }
      var resp := platform(QueryRequest(deviceCode, dataPoint, startTime, endTime));
      if resp.QueryUnreachable? {
        return Err(QueryUnreachableError);
      }
      if resp.status == StatusUnauthorized {
        accessToken := "";
        return Err(Unauthorized(ErrorMessageOf(resp.body)));
      }
      if resp.status != StatusOK {
        return Err(QueryStatus(resp.status));
      }
      if resp.body.None? {
        return Err(QueryUnparsable);
      }
      var list := ExtractDataList(resp.body.value, dataPoint);
      return Ok(list);
    }

    /**
     * `SyncSessionData`: one entry per registry point, queried in registry
     * order over the session's window; it never reports an error, a failed
     * point only getting an empty list of rows.
     */
    method SyncSessionData(session: DeviceSession, configuredDeviceCode: string, now: int, auth: AuthReply,
                           platform: QueryRequest -> QueryReply, parseFloat: string -> Option<real>)
      returns (results: map<string, Value>)
      modifies this
      ensures SyncState(Cache(), results) ==
                SyncOver(old(Cache()), GetIotDataPoints(),
                         SyncContext(DeviceCodeFor(session.deviceId, configuredDeviceCode), session.startTime,
                                     WindowEnd(session.status, session.endTime, now), now, auth, platform, parseFloat))
    {
      var deviceCode := session.deviceId;
      if deviceCode == "" {
        deviceCode := configuredDeviceCode;
      }
      var endTime := now;
      if session.status == Completed && session.endTime.Some? {
        endTime := session.endTime.value;
      }
      ghost var x := SyncContext(deviceCode, session.startTime, endTime, now, auth, platform, parseFloat);
      var dataPoints := GetIotDataPoints();
      results := map[];
      var i := 0;
      while i < |dataPoints|
        invariant 0 <= i <= |dataPoints|
        invariant SyncState(Cache(), results) == SyncOver(old(Cache()), dataPoints[..i], x)
      {
        var dp := dataPoints[i];
        ghost var before := SyncState(Cache(), results);
        assert dataPoints[..i + 1][..i] == dataPoints[..i];
        var resp := QueryDeviceData(deviceCode, dp.name, session.startTime, endTime, now, auth, platform);
        if resp.Err? {
          results := results[dp.name := PointEntry(dp, [])];
        } else {
          var processedData := ProcessDataPoints(resp.value, dp, parseFloat);
          assert processedData == ProcessedRows(resp.value, dp, parseFloat);
          results := results[dp.name := PointEntry(dp, processedData)];
        }
        assert SyncState(Cache(), results) == SyncStep(before, dp, x);
        i := i + 1;
      }
      assert dataPoints[..i] == dataPoints;
    }

    /** `TestConnection`: the error of obtaining a token, if any. */
    method TestConnection(now: int, auth: AuthReply) returns (err: Option<IotError>)
      modifies this
      ensures Cache() == TokenStep(old(Cache()), now, auth).cache
      ensures err.None? <==> TokenStep(old(Cache()), now, auth).result.Ok?
      ensures err.Some? ==> TokenStep(old(Cache()), now, auth).result == Err(err.value)
    {
      var token := GetAccessToken(now, auth);
      if token.Err? {
        return Some(token.error);
      }
      return None;
    }
  }

  // ---------------------------------------------------------------------------
  // Properties of the token cache

  /** A usable token is returned as cached, whatever the authentication endpoint would answer. */
  lemma UsableTokenReturned(c: TokenCache, now: int, auth: AuthReply)
    requires Usable(c, now)
    ensures TokenStep(c, now, auth) == Step(c, Ok(c.accessToken))
  {
  }

  /**
   * Once a token is obtained, every later call before its expiry returns the
   * same token without asking the endpoint again (a non-empty token).
   */
  lemma TokenReusedUntilExpiry(c: TokenCache, now: int, auth: AuthReply, later: int, auth2: AuthReply)
    requires TokenStep(c, now, auth).result.Ok? && TokenStep(c, now, auth).result.value != ""
    requires now <= later < TokenStep(c, now, auth).cache.tokenExpiry
    ensures var s := TokenStep(c, now, auth);
            TokenStep(s.cache, later, auth2) == Step(s.cache, Ok(s.result.value))
  {
  }

  /** A refresh that succeeds stores the token it returns, valid for 24 hours from now. */
  lemma RefreshStoresToken(c: TokenCache, now: int, auth: AuthReply)
    requires !Usable(c, now) && TokenStep(c, now, auth).result.Ok?
    ensures TokenStep(c, now, auth).cache == TokenCache(TokenStep(c, now, auth).result.value, now + TokenLifetimeMs)
    ensures auth.AuthAnswered? && TokenStep(c, now, auth).result.value == auth.body.value.data
  {
  }

  /** A refresh fails, keeping the cache, exactly when the reply is missing, not 200, undecodable, or rejected. */
  lemma RefreshFailureKeepsCache(c: TokenCache, now: int, auth: AuthReply)
    requires !Usable(c, now)
    ensures TokenStep(c, now, auth).result.Err? <==>
              || auth.AuthUnreachable?
              || auth.status != StatusOK || auth.body.None?
              || !auth.body.value.success || auth.body.value.code != 200
    ensures TokenStep(c, now, auth).result.Err? ==> TokenStep(c, now, auth).cache == c
  {
  }

  /**
   * A 401 reply leaves no usable token, so the next `getAccessToken` goes to
   * the endpoint whatever the time; the query returns the error at once.
   */
  lemma UnauthorizedForcesRefresh(c: TokenCache, now: int, auth: AuthReply, body: Option<map<string, Value>>,
                                  dataPoint: string, later: int, auth2: AuthReply)
    requires TokenStep(c, now, auth).result.Ok?
    ensures var s := QueryStep(c, now, auth, QueryAnswered(StatusUnauthorized, body), dataPoint);
            && s.result == Err(Unauthorized(ErrorMessageOf(body)))
            && s.cache.accessToken == ""
            && !Usable(s.cache, later)
            && TokenStep(s.cache, later, auth2) == Refresh(s.cache, later, auth2)
  {
  }

  /** A 401 body whose key is `Message` still yields its text, as Go's case-insensitive decoding does. */
  lemma UnauthorizedMessageAnyCase(c: TokenCache, now: int, auth: AuthReply, dataPoint: string)
    requires TokenStep(c, now, auth).result.Ok?
    ensures QueryStep(c, now, auth, QueryAnswered(StatusUnauthorized, Some(map["Message" := Str("token expired")])),
                      dataPoint).result
            == Err(Unauthorized("token expired"))
  {
    var fields := map["Message" := Str("token expired")];
    assert FoldsToMessage("Message");
    assert MessageTexts(fields) == {"token expired"};
  }

  /** A query that cannot obtain a token fails with that error and leaves the cache as it was. */
  lemma NoTokenNoQuery(c: TokenCache, now: int, auth: AuthReply, reply: QueryReply, dataPoint: string)
    requires TokenStep(c, now, auth).result.Err?
    ensures QueryStep(c, now, auth, reply, dataPoint) == Step(c, Err(NoToken(TokenStep(c, now, auth).result.error)))
  {
  }

  /** A decoded 200 reply whose `data` is not an array yields no items and no error. */
  lemma NonArrayDataIsEmpty(c: TokenCache, now: int, auth: AuthReply, body: map<string, Value>, dataPoint: string)
    requires TokenStep(c, now, auth).result.Ok? && !Lookup(body, "data").List?
    ensures QueryStep(c, now, auth, QueryAnswered(StatusOK, Some(body)), dataPoint).result == Ok([])
  {
  }

  // ---------------------------------------------------------------------------
  // Properties of the sync

  /** The window ends at the session's end time exactly when it is a completed session with one. */
  lemma WindowEndCases(status: string, endTime: Option<int>, now: int)
    ensures status == Completed && endTime.Some? ==> WindowEnd(status, endTime, now) == endTime.value
    ensures !(status == Completed && endTime.Some?) ==> WindowEnd(status, endTime, now) == now
  {
  }

  /** The device queried is the session's own unless it has none, and then the configured one. */
  lemma DeviceCodeFallback(deviceId: string, configured: string)
    ensures deviceId != "" ==> DeviceCodeFor(deviceId, configured) == deviceId
    ensures deviceId == "" ==> DeviceCodeFor(deviceId, configured) == configured
  {
  }

  /** A failed point carries no rows; a successful one carries one row per extracted item, in order. */
  lemma PointDataCases(r: Result<seq<DataItem>, IotError>, dp: DataPointSpec, parseFloat: string -> Option<real>)
    ensures r.Err? ==> PointData(r, dp, parseFloat) == []
    ensures r.Ok? ==> |PointData(r, dp, parseFloat)| == |r.value|
    ensures r.Ok? ==> forall i :: 0 <= i < |r.value| ==>
              PointData(r, dp, parseFloat)[i] == NormalizedRow(r.value[i], dp, parseFloat)
  {
  }

  /** The names of a list of points, as a set. */
  function NameSet(points: seq<DataPointSpec>): set<string> {
    set i | 0 <= i < |points| :: points[i].name
  }

  /** The results of a sync are keyed by exactly the names of the points queried. */
  lemma {:induction false} SyncKeys(c: TokenCache, points: seq<DataPointSpec>, x: SyncContext)
    ensures SyncOver(c, points, x).results.Keys == NameSet(points)
  {
    if points != [] {
      var init := points[..|points| - 1];
      SyncKeys(c, init, x);
      forall k | k in NameSet(points) ensures k in NameSet(init) + {points[|points| - 1].name} {
        var i :| 0 <= i < |points| && points[i].name == k;
        if i < |init| {
          assert init[i] == points[i];
        }
      }
      forall k | k in NameSet(init) ensures k in NameSet(points) {
        var i :| 0 <= i < |init| && init[i].name == k;
        assert points[i] == init[i];
      }
    }
  }

  /** Over points with distinct names, a sync has exactly one entry per point. */
  lemma {:induction false} SyncSize(c: TokenCache, points: seq<DataPointSpec>, x: SyncContext)
    requires forall i, j :: 0 <= i < j < |points| ==> points[i].name != points[j].name
    ensures |SyncOver(c, points, x).results| == |points|
  {
    if points != [] {
      var init := points[..|points| - 1];
      var dp := points[|points| - 1];
      SyncSize(c, init, x);
      SyncKeys(c, init, x);
      assert forall i :: 0 <= i < |init| ==> init[i].name != dp.name;
    }
  }

  /** Over points with distinct names, each point's entry describes that point. */
  lemma {:induction false} SyncEntryShapes(c: TokenCache, points: seq<DataPointSpec>, x: SyncContext)
    requires forall i, j :: 0 <= i < j < |points| ==> points[i].name != points[j].name
    ensures forall i :: 0 <= i < |points| ==>
              points[i].name in SyncOver(c, points, x).results
              && EntryFor(SyncOver(c, points, x).results[points[i].name], points[i])
  {
    if points != [] {
      var init := points[..|points| - 1];
      SyncEntryShapes(c, init, x);
      var m := SyncOver(c, points, x).results;
      forall i | 0 <= i < |points| ensures points[i].name in m && EntryFor(m[points[i].name], points[i]) {
        if i < |init| {
          assert init[i] == points[i];
        }
      }
    }
  }

  /** A session sync yields exactly seven entries, one per registry point, each describing its point. */
  lemma SyncCoversRegistry(c: TokenCache, x: SyncContext)
    ensures var m := SyncOver(c, GetIotDataPoints(), x).results;
            && |m| == 7
            && forall i :: 0 <= i < 7 ==>
                 GetIotDataPoints()[i].name in m && EntryFor(m[GetIotDataPoints()[i].name], GetIotDataPoints()[i])
  {
    SyncSize(c, GetIotDataPoints(), x);
    SyncEntryShapes(c, GetIotDataPoints(), x);
  }
}
