/**
 * The webhook handlers of api/handlers/webhook.go: a smart plug reports
 * power on (a session starts) and power off (the latest running session of
 * the device, or the one named, ends).  Each handler is specified by a pure
 * outcome function of the session rows before the call (the reply and the
 * rows after it), and is a method over the session store that meets it.
 */
module Webhook {

  import opened Values
  import opened Sessions

  const StatusOK: int := 200
  const StatusBadRequest: int := 400
  const StatusNotFound: int := 404
  const StatusInternalServerError: int := 500

  /** `WebhookRequest`: the JSON body; a missing or null `metadata` is None. */
  datatype WebhookRequest = WebhookRequest(
    power: string, deviceId: string, sessionId: string, timestamp: string,
    metadata: Option<map<string, Value>>)

  /** A handler's answer: an error with its status, or a 200 with the fields the handler writes. */
  datatype Reply =
    | Refused(status: int, error: string)
    | Accepted(message: string, sessionId: string, deviceId: Option<string>, time: Option<int>)

  /** What a handler answers and the session rows it leaves behind. */
  datatype Outcome = Outcome(reply: Reply, rows: seq<SessionRow>)

  /** The metadata the test handlers attach. */
  const TestMetadata: map<string, Value> := map["test" := Bool(true)]

  // ---------------------------------------------------------------------------
  // Decision rules

  /** The device: the `deviceName` query parameter, else the body's `deviceId`, else the configured device code. */
  function ResolveDeviceId(queryDeviceName: string, bodyDeviceId: string, configured: string): (d: string)
    ensures queryDeviceName != "" ==> d == queryDeviceName
    ensures queryDeviceName == "" && bodyDeviceId != "" ==> d == bodyDeviceId
    ensures queryDeviceName == "" && bodyDeviceId == "" ==> d == configured
  {
    if queryDeviceName != "" then queryDeviceName
    else if bodyDeviceId != "" then bodyDeviceId
    else configured
  }

  /**
   * The instant of the event: the body's timestamp when it is non-empty and
   * parses as RFC 3339 (`parseTime`), the current time otherwise.
   */
  function ResolveTime(timestamp: string, now: int, parseTime: string -> Option<int>): (t: int)
    ensures timestamp != "" && parseTime(timestamp).Some? ==> t == parseTime(timestamp).value
    ensures timestamp == "" || parseTime(timestamp).None? ==> t == now
  {
    if timestamp != "" then
      match parseTime(timestamp)
      case Some(parsed) => parsed
      case None => now
    else now
  }

  /**
   * The session an end event closes: the one named, without any lookup;
   * otherwise the first of the device's running sessions (latest start first),
   * or none when the device has no running session.
   */
  function EndTarget(rows: seq<SessionRow>, sessionId: string, deviceId: string): Option<string> {
    if sessionId != "" then Some(sessionId)
    else
      var running := RunningSessions(rows, deviceId);
      if |running| == 0 then None else Some(running[0].sessionId)
  }

  /** The outcome of creating a session, as the start handlers report it. */
  function CreateOutcome(rows: seq<SessionRow>, lastId: int, deviceId: string, startTime: int,
                         metadata: Option<map<string, Value>>, newSessionId: string,
                         failurePrefix: string, accepted: Reply): Outcome
  {
    if FindSession(rows, newSessionId).Some? then
      Outcome(Refused(StatusInternalServerError, failurePrefix + UniqueViolation.Message()), rows)
    else
      Outcome(accepted, rows + [InsertedRow(lastId + 1, deviceId, newSessionId, startTime, metadata)])
  }

  /** The outcome of ending a chosen session, as the end handlers report it. */
  function EndOutcome(rows: seq<SessionRow>, sessionId: string, endTime: int,
                      metadata: Option<map<string, Value>>, failurePrefix: string, accepted: Reply): Outcome
  {
    match EndRefusal(rows, sessionId)
    case Some(e) => Outcome(Refused(StatusInternalServerError, failurePrefix + e.Message()), rows)
    case None =>
      var i := FindSession(rows, sessionId).value;
      Outcome(accepted, rows[i := EndedRow(rows[i], endTime, metadata)])
  }

  // ---------------------------------------------------------------------------
  // The handlers' specifications

  /** `DeviceStart`, given the new session ID the store would generate. */
  function StartOutcome(rows: seq<SessionRow>, lastId: int, body: Option<WebhookRequest>, queryDeviceName: string,
                        configured: string, now: int, parseTime: string -> Option<int>, newSessionId: string)
    : Outcome
  {
    match body
    case None => Outcome(Refused(StatusBadRequest, "Invalid request body"), rows)
    case Some(req) =>
      if req.power != "on" then Outcome(Refused(StatusBadRequest, "Invalid power status"), rows)
      else
        var deviceId := ResolveDeviceId(queryDeviceName, req.deviceId, configured);
        var startTime := ResolveTime(req.timestamp, now, parseTime);
        CreateOutcome(rows, lastId, deviceId, startTime, req.metadata, newSessionId, "Failed to create session: ",
                      Accepted("Device started successfully", newSessionId, Some(deviceId), Some(startTime)))
  }

  /** `DeviceEnd` */
  function StopOutcome(rows: seq<SessionRow>, body: Option<WebhookRequest>, queryDeviceName: string,
                       configured: string, now: int, parseTime: string -> Option<int>): Outcome
  {
    match body
    case None => Outcome(Refused(StatusBadRequest, "Invalid request body"), rows)
    case Some(req) =>
      if req.power != "off" then Outcome(Refused(StatusBadRequest, "Invalid power status"), rows)
      else
        var deviceId := ResolveDeviceId(queryDeviceName, req.deviceId, configured);
        var endTime := ResolveTime(req.timestamp, now, parseTime);
        match EndTarget(rows, req.sessionId, deviceId)
        case None => Outcome(Refused(StatusNotFound, "No running session found for device"), rows)
        case Some(sessionId) =>
          EndOutcome(rows, sessionId, endTime, req.metadata, "Failed to end session: ",
                     Accepted("Device stopped successfully", sessionId, Some(deviceId), Some(endTime)))
  }

  /** `TestWebhookStart`: a test session of the `deviceId` query parameter, or of the configured device. */
  function TestStartOutcome(rows: seq<SessionRow>, lastId: int, queryDeviceId: string, configured: string,
                            now: int, newSessionId: string): Outcome
  {
    var deviceId := if queryDeviceId != "" then queryDeviceId else configured;
    CreateOutcome(rows, lastId, deviceId, now, Some(TestMetadata), newSessionId, "Failed to create test session: ",
                  Accepted("Test device started successfully", newSessionId, Some(deviceId), None))
  }

  /** `TestWebhookEnd`: the named session, or the latest running one of the named device. */
  function TestStopOutcome(rows: seq<SessionRow>, querySessionId: string, queryDeviceId: string, now: int)
    : Outcome
  {
    if querySessionId == "" && queryDeviceId == "" then
      Outcome(Refused(StatusBadRequest, "Either sessionId or deviceId is required"), rows)
    else
      match EndTarget(rows, querySessionId, queryDeviceId)
      case None => Outcome(Refused(StatusNotFound, "No running session found for device"), rows)
      case Some(sessionId) =>
        EndOutcome(rows, sessionId, now, Some(TestMetadata), "Failed to end test session: ",
                   Accepted("Test device stopped successfully", sessionId, None, None))
  }

  // ---------------------------------------------------------------------------
  // The handlers

  /** Creates the session and reports it as `accepted`, or reports the store's error after `failurePrefix`. */
  method CreateAndReply(store: SessionStore, deviceId: string, startTime: int, metadata: Option<map<string, Value>>,
                        newSessionId: string, failurePrefix: string, accepted: Reply)
    returns (reply: Reply)
    requires store.Valid()
    modifies store
    ensures store.Valid()
    ensures Outcome(reply, store.rows) ==
              CreateOutcome(old(store.rows), old(store.lastId), deviceId, startTime, metadata, newSessionId,
                            failurePrefix, accepted)
    ensures store.lastId == old(store.lastId) + (if FindSession(old(store.rows), newSessionId).None? then 1 else 0)
  {
    var session := store.CreateSession(deviceId, startTime, metadata, newSessionId);
    if session.Err? {
      return Refused(StatusInternalServerError, failurePrefix + session.error.Message());
    }
    return accepted;
  }

  /** Ends the session and reports it as `accepted`, or reports the store's error after `failurePrefix`. */
  method EndAndReply(store: SessionStore, sessionId: string, endTime: int, metadata: Option<map<string, Value>>,
                     failurePrefix: string, accepted: Reply)
    returns (reply: Reply)
    requires store.Valid()
    modifies store
    ensures store.Valid() && store.lastId == old(store.lastId)
    ensures Outcome(reply, store.rows) ==
              EndOutcome(old(store.rows), sessionId, endTime, metadata, failurePrefix, accepted)
  {
    var err := store.EndSession(sessionId, endTime, metadata);
    if err.Some? {
      return Refused(StatusInternalServerError, failurePrefix + err.value.Message());
    }
    return accepted;
  }

  /** The session an end event closes, looked up in the store as `EndTarget` says. */
  method FindEndTarget(store: SessionStore, sessionId: string, deviceId: string) returns (target: Option<string>)
    ensures target == EndTarget(store.rows, sessionId, deviceId)
  {
    if sessionId != "" {
      return Some(sessionId);
    }
    var sessions := store.GetRunningSessions(deviceId);
    if |sessions| == 0 {
      return None;
    }
    assert sessions[0].Row() == RunningSessions(store.rows, deviceId)[0];
    return Some(sessions[0].sessionId);
  }

  /**
   * `DeviceStart`: `body` is the decoded request (None when it does not
   * bind), `now` the current time and `newSessionId` the generated UUID.
   */
  method DeviceStart(store: SessionStore, body: Option<WebhookRequest>, queryDeviceName: string,
                     configured: string, now: int, parseTime: string -> Option<int>, newSessionId: string)
    returns (reply: Reply)
    requires store.Valid()
    modifies store
    ensures store.Valid()
    ensures Outcome(reply, store.rows) ==
              StartOutcome(old(store.rows), old(store.lastId), body, queryDeviceName, configured, now, parseTime,
                           newSessionId)
  {
    if body.None? {
      return Refused(StatusBadRequest, "Invalid request body");
    }
    var req := body.value;
    if req.power != "on" {
      return Refused(StatusBadRequest, "Invalid power status");
    }
    var deviceId := queryDeviceName;
    if deviceId == "" {
      deviceId := req.deviceId;
    }
    if deviceId == "" {
      deviceId := configured;
    }
    var startTime := now;
    if req.timestamp != "" {
      var parsed := parseTime(req.timestamp);
      if parsed.Some? {
        startTime := parsed.value;
      }
    }
    reply := CreateAndReply(store, deviceId, startTime, req.metadata, newSessionId, "Failed to create session: ",
                            Accepted("Device started successfully", newSessionId, Some(deviceId), Some(startTime)));
  }

  /** `DeviceEnd` */
  method DeviceEnd(store: SessionStore, body: Option<WebhookRequest>, queryDeviceName: string,
                   configured: string, now: int, parseTime: string -> Option<int>)
    returns (reply: Reply)
    requires store.Valid()
    modifies store
    ensures store.Valid() && store.lastId == old(store.lastId)
    ensures Outcome(reply, store.rows) ==
              StopOutcome(old(store.rows), body, queryDeviceName, configured, now, parseTime)
  {
    if body.None? {
      return Refused(StatusBadRequest, "Invalid request body");
    }
    var req := body.value;
    if req.power != "off" {
      return Refused(StatusBadRequest, "Invalid power status");
    }
    var deviceId := queryDeviceName;
    if deviceId == "" {
      deviceId := req.deviceId;
    }
    if deviceId == "" {
      deviceId := configured;
    }
    var endTime := now;
    if req.timestamp != "" {
      var parsed := parseTime(req.timestamp);
      if parsed.Some? {
        endTime := parsed.value;
      }
    }
    var target := FindEndTarget(store, req.sessionId, deviceId);
    if target.None? {
      return Refused(StatusNotFound, "No running session found for device");
    }
    var sessionId := target.value;
    reply := EndAndReply(store, sessionId, endTime, req.metadata, "Failed to end session: ",
                         Accepted("Device stopped successfully", sessionId, Some(deviceId), Some(endTime)));
  }

  /** `TestWebhookStart` */
  method TestWebhookStart(store: SessionStore, queryDeviceId: string, configured: string, now: int,
                          newSessionId: string)
    returns (reply: Reply)
    requires store.Valid()
    modifies store
    ensures store.Valid()
    ensures Outcome(reply, store.rows) ==
              TestStartOutcome(old(store.rows), old(store.lastId), queryDeviceId, configured, now, newSessionId)
  {
    var deviceId := queryDeviceId;
    if deviceId == "" {
      deviceId := configured;
    }
    reply := CreateAndReply(store, deviceId, now, Some(TestMetadata), newSessionId, "Failed to create test session: ",
                            Accepted("Test device started successfully", newSessionId, Some(deviceId), None));
  }

  /** `TestWebhookEnd` */
  method TestWebhookEnd(store: SessionStore, querySessionId: string, queryDeviceId: string, now: int)
    returns (reply: Reply)
    requires store.Valid()
    modifies store
    ensures store.Valid() && store.lastId == old(store.lastId)
    ensures Outcome(reply, store.rows) == TestStopOutcome(old(store.rows), querySessionId, queryDeviceId, now)
  {
    if querySessionId == "" && queryDeviceId == "" {
      return Refused(StatusBadRequest, "Either sessionId or deviceId is required");
    }
    var target := FindEndTarget(store, querySessionId, queryDeviceId);
    if target.None? {
      return Refused(StatusNotFound, "No running session found for device");
    }
    var sessionId := target.value;
    reply := EndAndReply(store, sessionId, now, Some(TestMetadata), "Failed to end test session: ",
                         Accepted("Test device stopped successfully", sessionId, None, None));
  }

  // ---------------------------------------------------------------------------
  // Properties of the handlers

  /** A start event is refused with 400 exactly when its body does not bind or its power is not "on". */
  lemma StartBadRequest(rows: seq<SessionRow>, lastId: int, body: Option<WebhookRequest>, queryDeviceName: string,
                        configured: string, now: int, parseTime: string -> Option<int>, newSessionId: string)
    ensures var o := StartOutcome(rows, lastId, body, queryDeviceName, configured, now, parseTime, newSessionId);
            (o.reply.Refused? && o.reply.status == StatusBadRequest) <==> (body.None? || body.value.power != "on")
  {
  }

  /**
   * An accepted start event adds exactly one row: a running session of the
   * resolved device at the resolved instant, under the new ID, which is then
   * among the device's running sessions.  A refused one changes nothing.
   */
  lemma StartAddsRunningSession(rows: seq<SessionRow>, lastId: int, body: Option<WebhookRequest>,
                                queryDeviceName: string, configured: string, now: int,
                                parseTime: string -> Option<int>, newSessionId: string)
    ensures var o := StartOutcome(rows, lastId, body, queryDeviceName, configured, now, parseTime, newSessionId);
            o.reply.Refused? ==> o.rows == rows
    ensures var o := StartOutcome(rows, lastId, body, queryDeviceName, configured, now, parseTime, newSessionId);
            o.reply.Accepted? ==>
              var req := body.value;
              var deviceId := ResolveDeviceId(queryDeviceName, req.deviceId, configured);
              && o.rows[..|rows|] == rows && |o.rows| == |rows| + 1
              && o.rows[|rows|].sessionId == newSessionId && o.rows[|rows|].deviceId == deviceId
              && o.rows[|rows|].status == Running && o.rows[|rows|].endTime.None?
              && o.rows[|rows|].startTime == ResolveTime(req.timestamp, now, parseTime)
              && o.rows[|rows|] in RunningSessions(o.rows, deviceId)
              && o.reply == Accepted("Device started successfully", newSessionId, Some(deviceId),
                                     Some(ResolveTime(req.timestamp, now, parseTime)))
  {
    var o := StartOutcome(rows, lastId, body, queryDeviceName, configured, now, parseTime, newSessionId);
    if o.reply.Accepted? {
      var deviceId := ResolveDeviceId(queryDeviceName, body.value.deviceId, configured);
      assert o.rows[..|rows|] == rows;
      RunningSessionsSelection(o.rows, deviceId);
      assert o.rows[|rows|] in o.rows;
    }
  }

  /** An end event is refused with 400 exactly when its body does not bind or its power is not "off". */
  lemma StopBadRequest(rows: seq<SessionRow>, body: Option<WebhookRequest>, queryDeviceName: string,
                       configured: string, now: int, parseTime: string -> Option<int>)
    ensures var o := StopOutcome(rows, body, queryDeviceName, configured, now, parseTime);
            (o.reply.Refused? && o.reply.status == StatusBadRequest) <==> (body.None? || body.value.power != "off")
  {
  }

  /**
   * An end outcome that picks the latest running session of a device: a 404
   * exactly when the device has no running row, and otherwise a success that
   * ends a running row of the device started no earlier than any other one.
   */
  predicate EndsLatestRunning(o: Outcome, rows: seq<SessionRow>, deviceId: string, endTime: int,
                              metadata: Option<map<string, Value>>) {
    && (o.reply == Refused(StatusNotFound, "No running session found for device") <==>
          forall i :: 0 <= i < |rows| ==> !(rows[i].deviceId == deviceId && rows[i].status == Running))
    && (o.reply.Accepted? || o.reply == Refused(StatusNotFound, "No running session found for device"))
    && (o.reply.Accepted? ==>
          exists k :: 0 <= k < |rows| && rows[k].sessionId == o.reply.sessionId
            && rows[k].deviceId == deviceId && rows[k].status == Running
            && (forall j :: 0 <= j < |rows| && rows[j].deviceId == deviceId && rows[j].status == Running ==>
                  rows[j].startTime <= rows[k].startTime)
            && o.rows == rows[k := EndedRow(rows[k], endTime, metadata)])
  }

  /**
   * Without a session ID, an end event is a 404 exactly when the resolved
   * device has no running session; otherwise it ends one of the device's
   * running sessions that started no earlier than any other, and succeeds.
   */
  lemma StopEndsLatestRunning(rows: seq<SessionRow>, req: WebhookRequest, queryDeviceName: string,
                              configured: string, now: int, parseTime: string -> Option<int>)
    requires UniqueSessionIds(rows)
    requires req.power == "off" && req.sessionId == ""
    ensures EndsLatestRunning(StopOutcome(rows, Some(req), queryDeviceName, configured, now, parseTime), rows,
                              ResolveDeviceId(queryDeviceName, req.deviceId, configured),
                              ResolveTime(req.timestamp, now, parseTime), req.metadata)
  {
    var deviceId := ResolveDeviceId(queryDeviceName, req.deviceId, configured);
    LatestRunningTarget(rows, deviceId);
    var target := EndTarget(rows, "", deviceId);
    if target.Some? {
      var k := FindSession(rows, target.value).value;
      var o := StopOutcome(rows, Some(req), queryDeviceName, configured, now, parseTime);
      assert o.rows == rows[k := EndedRow(rows[k], ResolveTime(req.timestamp, now, parseTime), req.metadata)];
    }
  }

  /**
   * Without a session ID the end handlers target a session exactly when the
   * device has a running one; the target is then a running session of the
   * device, started no earlier than any other, that `EndSession` accepts.
   */
  lemma LatestRunningTarget(rows: seq<SessionRow>, deviceId: string)
    requires UniqueSessionIds(rows)
    ensures EndTarget(rows, "", deviceId).None? <==>
              forall i :: 0 <= i < |rows| ==> !(rows[i].deviceId == deviceId && rows[i].status == Running)
    ensures EndTarget(rows, "", deviceId).Some? ==>
              var sessionId := EndTarget(rows, "", deviceId).value;
              && EndRefusal(rows, sessionId).None?
              && FindSession(rows, sessionId).Some?
              && var k := FindSession(rows, sessionId).value;
                 && rows[k].deviceId == deviceId && rows[k].status == Running
                 && forall j :: 0 <= j < |rows| && rows[j].deviceId == deviceId && rows[j].status == Running ==>
                      rows[j].startTime <= rows[k].startTime
  {
    var running := RunningSessions(rows, deviceId);
    RunningSessionsSelection(rows, deviceId);
    if |running| > 0 {
      var first := running[0];
      assert first in running;
      var k :| 0 <= k < |rows| && rows[k] == first;
      EndAcceptsOnlyRunning(rows, first.sessionId);
      var f := FindSession(rows, first.sessionId);
      assert f == Some(k);
    }
  }

  /**
   * With a session ID, an end event closes that session whatever the device
   * resolves to: it is accepted exactly when a running session has that ID,
   * and otherwise fails with 500 and changes nothing.
   */
  lemma StopByIdIgnoresDevice(rows: seq<SessionRow>, req: WebhookRequest, queryDeviceName: string,
                              configured: string, now: int, parseTime: string -> Option<int>)
    requires UniqueSessionIds(rows)
    requires req.power == "off" && req.sessionId != ""
    ensures var o := StopOutcome(rows, Some(req), queryDeviceName, configured, now, parseTime);
            && (o.reply.Accepted? <==>
                  exists i :: 0 <= i < |rows| && rows[i].sessionId == req.sessionId && rows[i].status == Running)
            && (o.reply.Accepted? ==> o.reply.sessionId == req.sessionId)
            && (o.reply.Refused? ==> o.reply.status == StatusInternalServerError && o.rows == rows)
  {
    EndAcceptsOnlyRunning(rows, req.sessionId);
  }

  /** The test end handler needs a session ID or a device ID; with one of them it never answers 400. */
  lemma TestStopNeedsTarget(rows: seq<SessionRow>, querySessionId: string, queryDeviceId: string, now: int)
    ensures var o := TestStopOutcome(rows, querySessionId, queryDeviceId, now);
            (o.reply.Refused? && o.reply.status == StatusBadRequest) <==> (querySessionId == "" && queryDeviceId == "")
  {
  }

  /** A session the test start handler creates carries the metadata {test: true}. */
  lemma TestStartMarksSession(rows: seq<SessionRow>, lastId: int, queryDeviceId: string, configured: string,
                              now: int, newSessionId: string)
    ensures var o := TestStartOutcome(rows, lastId, queryDeviceId, configured, now, newSessionId);
            o.reply.Accepted? ==>
              && |o.rows| == |rows| + 1 && o.rows[..|rows|] == rows
              && o.rows[|rows|].metadata == Some(TestMetadata) && o.rows[|rows|].startTime == now
              && o.rows[|rows|].deviceId == (if queryDeviceId != "" then queryDeviceId else configured)
  {
    var o := TestStartOutcome(rows, lastId, queryDeviceId, configured, now, newSessionId);
    if o.reply.Accepted? {
      assert o.rows[..|rows|] == rows;
    }
  }

  /** A session the test end handler closes is completed at `now` and its metadata then says test: true. */
  lemma TestStopMarksSession(rows: seq<SessionRow>, querySessionId: string, queryDeviceId: string, now: int)
    ensures var o := TestStopOutcome(rows, querySessionId, queryDeviceId, now);
            o.reply.Accepted? ==>
              var i := FindSession(rows, o.reply.sessionId).value;
              && FindSession(rows, o.reply.sessionId).Some?
              && o.rows[i].status == Completed && o.rows[i].endTime == Some(now)
              && o.rows[i].metadata.Some? && "test" in o.rows[i].metadata.value
              && o.rows[i].metadata.value["test"] == Bool(true)
  {
  }
}
