/**
 * The session model of models/session.go.  A device session is a row of the
 * table device_sessions; the database is the store below, a list of rows in
 * insertion order whose session IDs are pairwise distinct (the UNIQUE
 * constraint of the schema).  `DeviceSession` is the Go struct the functions
 * load, change and write back.  The SQL text that `GetSessions` and
 * `GetStatistics` build is modelled as a string together with its argument
 * list; executing it is not.
 */
module Sessions {

  import opened Values

  const Running: string := "running"
  const Completed: string := "completed"

  /**
   * One row of device_sessions.  `endTime`, `duration` and `metadata` are the
   * nullable columns (None is NULL); the metadata column holds the JSON text of
   * an object and is modelled by that object.  Instants are milliseconds.
   */
  datatype SessionRow = SessionRow(
    id: int, deviceId: string, sessionId: string, startTime: int,
    endTime: Option<int>, duration: Option<int>, status: string,
    metadata: Option<map<string, Value>>)

  /** The errors the session functions return. */
  datatype SessionError =
    | NoRows            // sql.ErrNoRows from a lookup that matched no row
    | UniqueViolation   // the INSERT of a session ID already present
    | NotRunning        // EndSession on a session whose status is not "running"
    | DbFailure(message: string)
  {
    /** `err.Error()` */
    function Message(): string {
      match this
      case NoRows => "sql: no rows in result set"
      case UniqueViolation => "UNIQUE constraint failed: device_sessions.session_id"
      case NotRunning => "session is not running"
      case DbFailure(m) => m
    }
  }

  predicate UniqueSessionIds(rows: seq<SessionRow>) {
    forall i, j :: 0 <= i < j < |rows| ==> rows[i].sessionId != rows[j].sessionId
  }

  /** The position of the row `WHERE session_id = ?` selects, if any. */
  function FindSession(rows: seq<SessionRow>, sessionId: string): (r: Option<nat>)
    ensures r.Some? ==> r.value < |rows| && rows[r.value].sessionId == sessionId
    ensures r.None? ==> forall i :: 0 <= i < |rows| ==> rows[i].sessionId != sessionId
  {
    if rows == [] then None
    else if rows[|rows| - 1].sessionId == sessionId then Some(|rows| - 1)
    else FindSession(rows[..|rows| - 1], sessionId)
  }

  /** The row the INSERT of `CreateSession` adds: end_time NULL and duration 0 are the column defaults. */
  function InsertedRow(id: int, deviceId: string, sessionId: string, startTime: int,
                       metadata: Option<map<string, Value>>): SessionRow
  {
    SessionRow(id, deviceId, sessionId, startTime, None, Some(0), Running, metadata)
  }

  /**
   * The metadata after `EndSession`'s merge: with no incoming metadata it is
   * unchanged; otherwise every incoming key takes its incoming value and
   * every other existing key keeps its value.
   */
  function Merged(existing: Option<map<string, Value>>, incoming: Option<map<string, Value>>)
    : (m: Option<map<string, Value>>)
    ensures incoming.None? ==> m == existing
    ensures incoming.Some? ==> m.Some?
    ensures incoming.Some? ==> forall k :: k in m.value <==>
              (k in incoming.value || (existing.Some? && k in existing.value))
    ensures incoming.Some? ==> forall k :: k in incoming.value ==> m.value[k] == incoming.value[k]
    ensures incoming.Some? && existing.Some? ==>
              forall k :: k in existing.value && k !in incoming.value ==> m.value[k] == existing.value[k]
  {
    if incoming.None? then existing else Some(existing.GetOr(map[]) + incoming.value)
  }

  /**
   * The row after a successful `EndSession`: completed, ended at `endTime`,
   * lasting the whole seconds from start to end (rounded toward zero, and
   * saturated as `time.Time.Sub` saturates), with merged metadata; its
   * identity and start are unchanged.
   */
  function EndedRow(row: SessionRow, endTime: int, incoming: Option<map<string, Value>>): (r: SessionRow)
    ensures r.id == row.id && r.deviceId == row.deviceId && r.sessionId == row.sessionId
    ensures r.startTime == row.startTime
    ensures r.status == Completed && r.endTime == Some(endTime) && r.duration.Some?
    ensures row.startTime <= endTime <= row.startTime + MaxSpanMs ==>
              0 <= (endTime - row.startTime) - r.duration.value * 1000 < 1000
    ensures row.startTime - MaxSpanMs <= endTime < row.startTime ==>
              -1000 < (endTime - row.startTime) - r.duration.value * 1000 <= 0
    ensures endTime > row.startTime + MaxSpanMs ==> r.duration == Some(MaxSpanSeconds)
    ensures endTime < row.startTime - MaxSpanMs ==> r.duration == Some(-MaxSpanSeconds)
    ensures r.metadata == Merged(row.metadata, incoming)
  {
    row.(endTime := Some(endTime), duration := Some(SpanSeconds(endTime - row.startTime)),
         status := Completed, metadata := Merged(row.metadata, incoming))
  }

  /**
   * A session started at Go's zero time (0001-01-01T00:00:00Z) and ended in
   * 2023 lasts the saturated span of about 292 years, not the 2022 years
   * between the two instants.
   */
  lemma EndedFromZeroTimeSaturates(row: SessionRow, incoming: Option<map<string, Value>>)
    requires row.startTime == -62_135_596_800_000
    ensures EndedRow(row, 1700000000000, incoming).duration == Some(MaxSpanSeconds)
    ensures WholeSeconds(1700000000000 - row.startTime) == 63835596800
  {
  }

  /** Why `EndSession` refuses a session ID, or None when it ends that session. */
  function EndRefusal(rows: seq<SessionRow>, sessionId: string): (e: Option<SessionError>)
    ensures e.None? || e == Some(NoRows) || e == Some(NotRunning)
  {
    match FindSession(rows, sessionId)
    case None => Some(NoRows)
    case Some(i) => if rows[i].status != Running then Some(NotRunning) else None
  }

  /** `EndSession` accepts a session ID exactly when a running session has it. */
  lemma EndAcceptsOnlyRunning(rows: seq<SessionRow>, sessionId: string)
    requires UniqueSessionIds(rows)
    ensures EndRefusal(rows, sessionId).None? <==>
              exists i :: 0 <= i < |rows| && rows[i].sessionId == sessionId && rows[i].status == Running
    ensures EndRefusal(rows, sessionId) == Some(NoRows) <==>
              forall i :: 0 <= i < |rows| ==> rows[i].sessionId != sessionId
  {
    var f := FindSession(rows, sessionId);
    if f.Some? {
      forall i | 0 <= i < |rows| && rows[i].sessionId == sessionId
        ensures i == f.value
      {
      }
    }
  }

  class DeviceSession {
    var id: int
    var deviceId: string
    var sessionId: string
    var startTime: int
    var endTime: Option<int>
    /** `Duration`, the nullable column. */
    var duration: Option<int>
    /** `DurationInt`, the pointer the JSON view exposes; None is nil. */
    var durationInt: Option<int>
    var status: string
    /** `Metadata`, the nullable column, modelled by the object its text encodes. */
    var metadata: Option<map<string, Value>>
    /** `MetadataObj`; None is a nil map. */
    var metadataObj: Option<map<string, Value>>

    /** The columns of this record. */
    function Row(): SessionRow
      reads this
    {
      SessionRow(id, deviceId, sessionId, startTime, endTime, duration, status, metadata)
    }

    /** This record is what a lookup of `row` followed by `AfterFind` yields. */
    predicate LoadedFrom(row: SessionRow)
      reads this
    {
      Row() == row && durationInt == row.duration && metadataObj == row.metadata
    }

    /** The record `DB.Get` fills from a row; the fields without a column keep their zero value. */
    constructor FromRow(row: SessionRow)
      ensures Row() == row && durationInt == None && metadataObj == None
    {
      id, deviceId, sessionId, startTime := row.id, row.deviceId, row.sessionId, row.startTime;
      endTime, duration, status, metadata := row.endTime, row.duration, row.status, row.metadata;
      durationInt, metadataObj := None, None;
    }

    /** The record `CreateSession` builds before its INSERT. */
    constructor Draft(deviceId: string, sessionId: string, startTime: int, metadataObj: Option<map<string, Value>>)
      ensures Row() == SessionRow(0, deviceId, sessionId, startTime, None, None, Running, None)
      ensures durationInt == None && this.metadataObj == metadataObj
    {
      this.id, this.deviceId, this.sessionId, this.startTime := 0, deviceId, sessionId, startTime;
      this.endTime, this.duration, this.status, this.metadata := None, None, Running, None;
      this.durationInt, this.metadataObj := None, metadataObj;
    }

    /** `BeforeSave`: a non-nil metadata object replaces the metadata column; nothing else changes. */
    method BeforeSave()
      modifies this
      ensures metadata == if old(metadataObj).Some? then old(metadataObj) else old(metadata)
      ensures Row() == old(Row()).(metadata := metadata)
      ensures durationInt == old(durationInt) && metadataObj == old(metadataObj)
    {
      if metadataObj.Some? {
        metadata := metadataObj;
      }
    }

    /**
     * `AfterFind`: a non-NULL metadata column is decoded into the metadata
     * object, and `DurationInt` is nil exactly when the duration column is
     * NULL and its value otherwise; the columns do not change.
     */
    method AfterFind()
      modifies this
      ensures metadataObj == if old(metadata).Some? then old(metadata) else old(metadataObj)
      ensures durationInt.None? <==> duration.None?
      ensures duration.Some? ==> durationInt == duration
      ensures Row() == old(Row())
    {
      if metadata.Some? {
        metadataObj := metadata;
      }
      if duration.Some? {
        durationInt := Some(duration.value);
      } else {
        durationInt := None;
      }
    }
  }

  /** The merge loop of `EndSession`: the incoming keys are copied one by one into the existing object. */
  method MergeMetadata(existing: Option<map<string, Value>>, incoming: Option<map<string, Value>>)
    returns (merged: Option<map<string, Value>>)
    ensures merged == Merged(existing, incoming)
  {
    merged := existing;
    if incoming.Some? {
      var obj := existing.GetOr(map[]);
      var pending := incoming.value.Keys;
      while pending != {}
        invariant pending <= incoming.value.Keys
        invariant obj == existing.GetOr(map[]) + (incoming.value - pending)
        decreases pending
      {
        var k :| k in pending;
        obj := obj[k := incoming.value[k]];
        pending := pending - {k};
      }
      assert incoming.value - pending == incoming.value;
      merged := Some(obj);
    }
  }

  // ---------------------------------------------------------------------------
  // Running sessions, latest first

  /** The running sessions of a device, in row order. */
  function RunningOf(rows: seq<SessionRow>, deviceId: string): (r: seq<SessionRow>)
    ensures forall x :: x in r <==> x in rows && x.deviceId == deviceId && x.status == Running
  {
    if rows == [] then []
    else
      var last := rows[|rows| - 1];
      RunningOf(rows[..|rows| - 1], deviceId)
        + (if last.deviceId == deviceId && last.status == Running then [last] else [])
  }

  predicate SortedByStartDesc(s: seq<SessionRow>) {
    forall i, j :: 0 <= i < j < |s| ==> s[i].startTime >= s[j].startTime
  }

  function InsertByStart(x: SessionRow, s: seq<SessionRow>): (r: seq<SessionRow>)
    requires SortedByStartDesc(s)
    ensures SortedByStartDesc(r)
    ensures multiset(r) == multiset(s) + multiset{x}
    ensures |r| > 0 && (r[0] == x || (|s| > 0 && r[0] == s[0]))
  {
    if s == [] || x.startTime >= s[0].startTime then [x] + s
    else
      var rest := InsertByStart(x, s[1..]);
      assert s == [s[0]] + s[1..];
      assert forall j :: 0 <= j < |rest| ==> rest[j].startTime <= rest[0].startTime;
      [s[0]] + rest
  }

  function SortByStartDesc(s: seq<SessionRow>): (r: seq<SessionRow>)
    ensures SortedByStartDesc(r)
    ensures multiset(r) == multiset(s)
  {
    if s == [] then []
    else
      assert s == [s[0]] + s[1..];
      InsertByStart(s[0], SortByStartDesc(s[1..]))
  }

  /** What `GetRunningSessions` selects: `device_id = ? AND status = 'running' ORDER BY start_time DESC`. */
  function RunningSessions(rows: seq<SessionRow>, deviceId: string): seq<SessionRow> {
    SortByStartDesc(RunningOf(rows, deviceId))
  }

  /**
   * The running sessions of a device are exactly its running rows, latest
   * start first; in particular the first one is a running session of the
   * device that started no earlier than any other, and there is none exactly
   * when the device has no running row.
   */
  lemma RunningSessionsSelection(rows: seq<SessionRow>, deviceId: string)
    ensures SortedByStartDesc(RunningSessions(rows, deviceId))
    ensures multiset(RunningSessions(rows, deviceId)) == multiset(RunningOf(rows, deviceId))
    ensures forall x :: x in RunningSessions(rows, deviceId) <==>
              x in rows && x.deviceId == deviceId && x.status == Running
    ensures |RunningSessions(rows, deviceId)| == 0 <==>
              forall i :: 0 <= i < |rows| ==> !(rows[i].deviceId == deviceId && rows[i].status == Running)
    ensures |RunningSessions(rows, deviceId)| > 0 ==>
              forall i :: 0 <= i < |rows| && rows[i].deviceId == deviceId && rows[i].status == Running ==>
                rows[i].startTime <= RunningSessions(rows, deviceId)[0].startTime
  {
    var rs := RunningSessions(rows, deviceId);
    forall x ensures x in rs <==> x in RunningOf(rows, deviceId) {
      assert x in rs <==> x in multiset(rs);
      assert x in RunningOf(rows, deviceId) <==> x in multiset(RunningOf(rows, deviceId));
    }
    if |rs| > 0 {
      forall i | 0 <= i < |rows| && rows[i].deviceId == deviceId && rows[i].status == Running
        ensures rows[i].startTime <= rs[0].startTime
      {
        assert rows[i] in rs;
        var j :| 0 <= j < |rs| && rs[j] == rows[i];
        if j > 0 {
          assert rs[0].startTime >= rs[j].startTime;
        }
      }
    } else {
      forall i | 0 <= i < |rows|
        ensures !(rows[i].deviceId == deviceId && rows[i].status == Running)
      {
        assert rows[i] in rows;
      }
    }
  }

  // ---------------------------------------------------------------------------
  // The store

  class SessionStore {
    /** The rows of device_sessions, in insertion order. */
    var rows: seq<SessionRow>
    /** The last AUTOINCREMENT id handed out. */
    var lastId: int

    predicate Valid()
      reads this
    {
      UniqueSessionIds(rows)
    }

    constructor ()
      ensures rows == [] && lastId == 0 && Valid()
    {
      rows, lastId := [], 0;
    }

    /**
     * `CreateSession` with the generated session ID `newSessionId`: a new
     * running session without end time, starting at `startTime`, with the
     * given metadata.  An ID already present violates the UNIQUE constraint
     * and leaves the store as it was.
     */
    method CreateSession(deviceId: string, startTime: int, metadata: Option<map<string, Value>>,
                         newSessionId: string)
      returns (r: Result<DeviceSession, SessionError>)
      requires Valid()
      modifies this
      ensures Valid()
      ensures FindSession(old(rows), newSessionId).Some? ==>
                r == Err(UniqueViolation) && rows == old(rows) && lastId == old(lastId)
      ensures FindSession(old(rows), newSessionId).None? ==>
                && lastId == old(lastId) + 1
                && rows == old(rows) + [InsertedRow(lastId, deviceId, newSessionId, startTime, metadata)]
                && r.Ok? && fresh(r.value)
                && r.value.Row() == SessionRow(lastId, deviceId, newSessionId, startTime, None, None, Running, metadata)
                && r.value.durationInt == None && r.value.metadataObj == metadata
    {
      var session := new DeviceSession.Draft(deviceId, newSessionId, startTime, metadata);
      session.BeforeSave();
      if FindSession(rows, newSessionId).Some? {
        return Err(UniqueViolation);
      }
      rows := rows + [InsertedRow(lastId + 1, session.deviceId, session.sessionId, session.startTime, session.metadata)];
      lastId := lastId + 1;
      session.id := lastId;
      return Ok(session);
    }

    /** `GetSessionByID`: the loaded record of the row with that session ID, or the no-rows error. */
    method GetSessionByID(sessionId: string) returns (r: Result<DeviceSession, SessionError>)
      ensures FindSession(rows, sessionId).None? ==> r == Err(NoRows)
      ensures FindSession(rows, sessionId).Some? ==>
                r.Ok? && fresh(r.value) && r.value.LoadedFrom(rows[FindSession(rows, sessionId).value])
    {
      var found := FindSession(rows, sessionId);
      if found.None? {
        return Err(NoRows);
      }
      var session := new DeviceSession.FromRow(rows[found.value]);
      session.AfterFind();
      return Ok(session);
    }

    /** `GetRunningSessions`: one loaded record per running session of the device, latest start first. */
    method GetRunningSessions(deviceId: string) returns (sessions: seq<DeviceSession>)
      ensures |sessions| == |RunningSessions(rows, deviceId)|
      ensures forall i :: 0 <= i < |sessions| ==>
                fresh(sessions[i]) && sessions[i].LoadedFrom(RunningSessions(rows, deviceId)[i])
    {
      var found := RunningSessions(rows, deviceId);
      sessions := [];
      var i := 0;
      while i < |found|
        invariant 0 <= i <= |found| && |sessions| == i
        invariant forall j :: 0 <= j < i ==> fresh(sessions[j]) && sessions[j].LoadedFrom(found[j])
      {
        var session := new DeviceSession.FromRow(found[i]);
        session.AfterFind();
        sessions := sessions + [session];
        i := i + 1;
      }
    }

    /**
     * `EndSession`: a missing session gives the no-rows error and one that is
     * not running gives "session is not running", both leaving the store
     * unchanged; otherwise exactly that session's row becomes `EndedRow`.
     */
    method EndSession(sessionId: string, endTime: int, metadata: Option<map<string, Value>>)
      returns (err: Option<SessionError>)
      requires Valid()
      modifies this
      ensures Valid() && lastId == old(lastId)
      ensures err == EndRefusal(old(rows), sessionId)
      ensures err.Some? ==> rows == old(rows)
      ensures err.None? ==>
                var i := FindSession(old(rows), sessionId).value;
                rows == old(rows)[i := EndedRow(old(rows)[i], endTime, metadata)]
    {
      var lookup := GetSessionByID(sessionId);
      if lookup.Err? {
        return Some(lookup.error);
      }
      var session := lookup.value;
      if session.status != Running {
        return Some(NotRunning);
      }
      var duration := SpanSeconds(endTime - session.startTime);
      var merged := MergeMetadata(session.metadataObj, metadata);
      session.metadataObj := merged;
      session.endTime := Some(endTime);
      session.duration := Some(duration);
      session.durationInt := Some(duration);
      session.status := Completed;
      session.BeforeSave();
      var i := FindSession(rows, sessionId).value;
      rows := rows[i := rows[i].(endTime := Some(endTime), duration := Some(duration),
                                 status := session.status, metadata := session.metadata)];
      assert forall j :: 0 <= j < |rows| ==> rows[j].sessionId == old(rows)[j].sessionId;
      return None;
    }
  }

  // ---------------------------------------------------------------------------
  // Query building

  /** `SessionFilter` */
  datatype SessionFilter = SessionFilter(
    deviceId: string, status: string, startDate: string, endDate: string, limit: int, offset: int)

  /** One filter condition: the SQL text appended and the argument it binds. */
  datatype Clause = Clause(sql: string, arg: Value)

  /** The statement `GetSessions` runs, the statement counting its rows, and their arguments. */
  datatype SessionsQuery = SessionsQuery(query: string, countQuery: string, args: seq<Value>, countArgs: seq<Value>)

  const FromSessions: string := " FROM device_sessions WHERE 1=1"
  const SelectSessions: string := "SELECT *" + FromSessions
  const CountSessions: string := "SELECT " + "COUNT(*)" + FromSessions
  const OrderByStartDesc: string := " ORDER BY start_time DESC"
  const DeviceCondition: string := " AND device_id = " + "?"
  const StatusCondition: string := " AND status = " + "?"
  const StartDateCondition: string := " AND DATE(start_time) >= " + "?"
  const EndDateCondition: string := " AND DATE(start_time) <= " + "?"
  const LimitSql: string := " LIMIT " + "?"
  const OffsetSql: string := " OFFSET " + "?"

  /** The number of `?` placeholders in a statement. */
  function Placeholders(s: string): nat {
    if s == [] then 0 else Placeholders(s[..|s| - 1]) + (if s[|s| - 1] == '?' then 1 else 0)
  }

  predicate NoPlaceholder(s: string) {
    forall i :: 0 <= i < |s| ==> s[i] != '?'
  }

  lemma {:induction false} PlaceholdersConcat(a: string, b: string)
    ensures Placeholders(a + b) == Placeholders(a) + Placeholders(b)
  {
    if b == [] {
      assert a + b == a;
    } else {
      assert (a + b)[..|a + b| - 1] == a + b[..|b| - 1];
      PlaceholdersConcat(a, b[..|b| - 1]);
    }
  }

  lemma {:induction false} NoPlaceholderCount(s: string)
    requires NoPlaceholder(s)
    ensures Placeholders(s) == 0
  {
    if s != [] {
      NoPlaceholderCount(s[..|s| - 1]);
    }
  }

  lemma NoPlaceholderConcat(a: string, b: string)
    requires NoPlaceholder(a) && NoPlaceholder(b)
    ensures NoPlaceholder(a + b)
  {
    forall i | 0 <= i < |a + b| ensures (a + b)[i] != '?' {
      if i >= |a| {
        assert (a + b)[i] == b[i - |a|];
      }
    }
  }

  /** A text without placeholders followed by one `?` has exactly one. */
  lemma OnePlaceholder(s: string)
    requires NoPlaceholder(s)
    ensures Placeholders(s + "?") == 1
  {
    NoPlaceholderCount(s);
    assert (s + "?")[..|s + "?"| - 1] == s;
  }

  /** Each condition text, and each page text, holds exactly one placeholder. */
  lemma ConditionPlaceholders()
    ensures Placeholders(DeviceCondition) == 1 && Placeholders(StatusCondition) == 1
    ensures Placeholders(StartDateCondition) == 1 && Placeholders(EndDateCondition) == 1
    ensures Placeholders(LimitSql) == 1 && Placeholders(OffsetSql) == 1
  {
    OnePlaceholder(" AND device_id = ");
    OnePlaceholder(" AND status = ");
    OnePlaceholder(" AND DATE(start_time) >= ");
    OnePlaceholder(" AND DATE(start_time) <= ");
    OnePlaceholder(" LIMIT ");
    OnePlaceholder(" OFFSET ");
  }

  function Present(s: string): nat {
    if s != "" then 1 else 0
  }

  /** The conditions cs, followed by c when `present` holds. */
  function WithClause(cs: seq<Clause>, present: bool, c: Clause): (r: seq<Clause>)
    ensures |r| == |cs| + (if present then 1 else 0)
    ensures forall i :: 0 <= i < |cs| ==> r[i] == cs[i]
    ensures present ==> r[|cs|] == c
  {
    if present then cs + [c] else cs
  }

  /**
   * The conditions a filter contributes: one per non-empty field, in the
   * order device ID, status, start date, end date, each bound to that field.
   */
  function FilterClauses(f: SessionFilter): (cs: seq<Clause>)
    ensures |cs| == Present(f.deviceId) + Present(f.status) + Present(f.startDate) + Present(f.endDate)
    ensures f.deviceId != "" ==> cs[0] == Clause(DeviceCondition, Str(f.deviceId))
    ensures f.endDate != "" ==> cs[|cs| - 1] == Clause(EndDateCondition, Str(f.endDate))
  {
    var c1 := WithClause([], f.deviceId != "", Clause(DeviceCondition, Str(f.deviceId)));
    var c2 := WithClause(c1, f.status != "", Clause(StatusCondition, Str(f.status)));
    var c3 := WithClause(c2, f.startDate != "", Clause(StartDateCondition, Str(f.startDate)));
    WithClause(c3, f.endDate != "", Clause(EndDateCondition, Str(f.endDate)))
  }

  function ClausesSql(cs: seq<Clause>): string {
    if cs == [] then "" else ClausesSql(cs[..|cs| - 1]) + cs[|cs| - 1].sql
  }

  function ClausesArgs(cs: seq<Clause>): (args: seq<Value>)
    ensures |args| == |cs|
    ensures forall i :: 0 <= i < |cs| ==> args[i] == cs[i].arg
  {
    if cs == [] then [] else ClausesArgs(cs[..|cs| - 1]) + [cs[|cs| - 1].arg]
  }

  /** Conditions whose texts each hold one placeholder hold as many as they bind arguments. */
  lemma {:induction false} ClausesPlaceholders(cs: seq<Clause>)
    requires forall i :: 0 <= i < |cs| ==> Placeholders(cs[i].sql) == 1
    ensures Placeholders(ClausesSql(cs)) == |cs|
  {
    if cs != [] {
      ClausesPlaceholders(cs[..|cs| - 1]);
      PlaceholdersConcat(ClausesSql(cs[..|cs| - 1]), cs[|cs| - 1].sql);
    }
  }

  lemma ConcatAssoc(a: string, b: string, c: string)
    ensures a + b + c == a + (b + c)
  {
  }

  /** Appending the text of one more condition to a statement made of a head and some conditions. */
  lemma AppendClause(s: string, head: string, cs: seq<Clause>, c: Clause)
    requires s == head + ClausesSql(cs)
    ensures s + c.sql == head + ClausesSql(cs + [c])
    ensures ClausesArgs(cs + [c]) == ClausesArgs(cs) + [c.arg]
  {
    assert (cs + [c])[..|cs + [c]| - 1] == cs;
    ConcatAssoc(head, ClausesSql(cs), c.sql);
  }

  /** A statement made of a placeholder-free head, a filter's conditions and a tail. */
  lemma FramedPlaceholders(head: string, f: SessionFilter, tail: string)
    requires NoPlaceholder(head)
    ensures Placeholders(head + ClausesSql(FilterClauses(f)) + tail)
            == |FilterClauses(f)| + Placeholders(tail)
  {
    ConditionPlaceholders();
    ClausesPlaceholders(FilterClauses(f));
    NoPlaceholderCount(head);
    PlaceholdersConcat(head, ClausesSql(FilterClauses(f)));
    PlaceholdersConcat(head + ClausesSql(FilterClauses(f)), tail);
  }

  /**
   * The row query of `GetSessions` built from its filtered part: ordered by
   * start time, latest first, then `LIMIT ?` when the limit is positive, then
   * `OFFSET ?` when the offset is positive.
   */
  function Paged(filtered: string, limit: int, offset: int): string {
    var ordered := filtered + OrderByStartDesc;
    var limited := if limit > 0 then ordered + LimitSql else ordered;
    if offset > 0 then limited + OffsetSql else limited
  }

  /** The arguments of the row query: the filter's, then the limit and the offset when they are bound. */
  function PagedArgs(args: seq<Value>, limit: int, offset: int): seq<Value> {
    var limited := if limit > 0 then args + [Int(limit)] else args;
    if offset > 0 then limited + [Int(offset)] else limited
  }

  /** Paging adds one placeholder per argument it adds. */
  lemma PagedPlaceholders(filtered: string, args: seq<Value>, limit: int, offset: int)
    ensures Placeholders(Paged(filtered, limit, offset)) - Placeholders(filtered)
            == |PagedArgs(args, limit, offset)| - |args|
  {
    assert NoPlaceholder(OrderByStartDesc);
    NoPlaceholderCount(OrderByStartDesc);
    ConditionPlaceholders();
    var ordered := filtered + OrderByStartDesc;
    PlaceholdersConcat(filtered, OrderByStartDesc);
    PlaceholdersConcat(ordered, LimitSql);
    var limited := if limit > 0 then ordered + LimitSql else ordered;
    PlaceholdersConcat(limited, OffsetSql);
  }

  /**
   * The statements of `GetSessions` for a filter: both carry the filter's
   * conditions; only the row query is ordered by start time (latest first)
   * and, with a positive limit or offset, gets `LIMIT ?` and then `OFFSET ?`,
   * whose values are bound after the conditions' arguments.
   */
  function SessionsQueryOf(filter: SessionFilter): SessionsQuery {
    var cs := FilterClauses(filter);
    SessionsQuery(Paged(SelectSessions + ClausesSql(cs), filter.limit, filter.offset),
                  CountSessions + ClausesSql(cs),
                  PagedArgs(ClausesArgs(cs), filter.limit, filter.offset), ClausesArgs(cs))
  }

  /** Both statements of `GetSessions` have exactly as many placeholders as they bind arguments. */
  lemma SessionsQueryPlaceholders(filter: SessionFilter)
    ensures var q := SessionsQueryOf(filter);
            Placeholders(q.query) == |q.args| && Placeholders(q.countQuery) == |q.countArgs|
  {
    var cs := FilterClauses(filter);
    var w := ClausesSql(cs);
    SessionsHeadsHaveNoPlaceholder();
    FramedAlone(SelectSessions, filter);
    FramedAlone(CountSessions, filter);
    PagedPlaceholders(SelectSessions + w, ClausesArgs(cs), filter.limit, filter.offset);
  }

  lemma SessionsHeadsHaveNoPlaceholder()
    ensures NoPlaceholder(SelectSessions) && NoPlaceholder(CountSessions)
  {
  }

  /** A placeholder-free head followed by a filter's conditions binds one argument per condition. */
  lemma FramedAlone(head: string, f: SessionFilter)
    requires NoPlaceholder(head)
    ensures Placeholders(head + ClausesSql(FilterClauses(f))) == |FilterClauses(f)|
  {
    FramedPlaceholders(head, f, "");
    assert head + ClausesSql(FilterClauses(f)) + "" == head + ClausesSql(FilterClauses(f));
  }

  /**
   * The arguments of `GetSessions`: one per non-empty filter field for the
   * count; the row query binds the same ones first, then the limit when it is
   * positive, then the offset when it is positive.
   */
  lemma SessionsQueryArgs(filter: SessionFilter)
    ensures var q := SessionsQueryOf(filter);
      && |q.countArgs| == Present(filter.deviceId) + Present(filter.status)
                          + Present(filter.startDate) + Present(filter.endDate)
      && |q.args| == |q.countArgs| + (if filter.limit > 0 then 1 else 0) + (if filter.offset > 0 then 1 else 0)
      && q.args[..|q.countArgs|] == q.countArgs
      && (filter.limit > 0 ==> q.args[|q.countArgs|] == Int(filter.limit))
      && (filter.offset > 0 ==> q.args[|q.args| - 1] == Int(filter.offset))
  {
    PagedArgsShape(ClausesArgs(FilterClauses(filter)), filter.limit, filter.offset);
  }

  /** Paging keeps the arguments and binds the limit, then the offset, after them when they are positive. */
  lemma PagedArgsShape(args: seq<Value>, limit: int, offset: int)
    ensures var paged := PagedArgs(args, limit, offset);
      && |paged| == |args| + (if limit > 0 then 1 else 0) + (if offset > 0 then 1 else 0)
      && paged[..|args|] == args
      && (limit > 0 ==> paged[|args|] == Int(limit))
      && (offset > 0 ==> paged[|paged| - 1] == Int(offset))
  {
    var limited := if limit > 0 then args + [Int(limit)] else args;
    assert limited[..|args|] == args;
    var paged := if offset > 0 then limited + [Int(offset)] else limited;
    assert paged[..|limited|] == limited;
    assert paged[..|args|] == limited[..|args|];
  }

  /**
   * One `if field != ""` step of the statement building: when the field is
   * present, a statement made of a head and some conditions gets one more
   * condition and its argument is bound after the others.
   */
  method AddCondition(stmt: string, args: seq<Value>, ghost head: string, ghost cs: seq<Clause>,
                      present: bool, c: Clause)
    returns (stmt': string, args': seq<Value>)
    requires stmt == head + ClausesSql(cs) && args == ClausesArgs(cs)
    ensures stmt' == head + ClausesSql(WithClause(cs, present, c))
    ensures args' == ClausesArgs(WithClause(cs, present, c))
  {
    stmt', args' := stmt, args;
    if present {
      AppendClause(stmt, head, cs, c);
      stmt', args' := stmt + c.sql, args + [c.arg];
    }
  }

  /** The two statements of `GetSessions` and their arguments after the conditions cs. */
  predicate BuiltFrom(query: string, countQuery: string, args: seq<Value>,
                      selectHead: string, countHead: string, cs: seq<Clause>) {
    && query == selectHead + ClausesSql(cs)
    && countQuery == countHead + ClausesSql(cs)
    && args == ClausesArgs(cs)
  }

  /** One `if field != ""` step of `GetSessions`: the condition goes to both statements, its argument is bound once. */
  method AddConditionToBoth(query: string, countQuery: string, args: seq<Value>,
                            ghost selectHead: string, ghost countHead: string, ghost cs: seq<Clause>,
                            present: bool, c: Clause)
    returns (query': string, countQuery': string, args': seq<Value>)
    requires BuiltFrom(query, countQuery, args, selectHead, countHead, cs)
    ensures BuiltFrom(query', countQuery', args', selectHead, countHead, WithClause(cs, present, c))
  {
    query', countQuery', args' := query, countQuery, args;
    if present {
      AppendClause(query, selectHead, cs, c);
      AppendClause(countQuery, countHead, cs, c);
      query', countQuery', args' := query + c.sql, countQuery + c.sql, args + [c.arg];
    }
  }

  /** The statement building of `GetSessions`: conditions appended one by one, then ordering and paging. */
  method BuildSessionsQuery(filter: SessionFilter) returns (q: SessionsQuery)
    ensures q == SessionsQueryOf(filter)
  {
    var query, countQuery, args := AddFilterConditions(SelectSessions, CountSessions, filter);
    var countArgs := args;
    query, args := AddPaging(query, args, filter.limit, filter.offset);
    q := SessionsQuery(query, countQuery, args, countArgs);
  }

  /**
   * The `if field != ""` steps of `GetSessions`: each present field adds its
   * condition to both statements and binds its value once.
   */
  method AddFilterConditions(selectHead: string, countHead: string, filter: SessionFilter)
    returns (query: string, countQuery: string, args: seq<Value>)
    ensures query == selectHead + ClausesSql(FilterClauses(filter))
    ensures countQuery == countHead + ClausesSql(FilterClauses(filter))
    ensures args == ClausesArgs(FilterClauses(filter))
  {
    query, countQuery, args := selectHead, countHead, [];
    ghost var cs: seq<Clause> := [];
    assert BuiltFrom(query, countQuery, args, selectHead, countHead, cs);
    var c := Clause(DeviceCondition, Str(filter.deviceId));
    query, countQuery, args := AddConditionToBoth(query, countQuery, args, selectHead, countHead, cs, filter.deviceId != "", c);
    cs := WithClause(cs, filter.deviceId != "", c);
    c := Clause(StatusCondition, Str(filter.status));
    query, countQuery, args := AddConditionToBoth(query, countQuery, args, selectHead, countHead, cs, filter.status != "", c);
    cs := WithClause(cs, filter.status != "", c);
    c := Clause(StartDateCondition, Str(filter.startDate));
    query, countQuery, args := AddConditionToBoth(query, countQuery, args, selectHead, countHead, cs, filter.startDate != "", c);
    cs := WithClause(cs, filter.startDate != "", c);
    c := Clause(EndDateCondition, Str(filter.endDate));
    query, countQuery, args := AddConditionToBoth(query, countQuery, args, selectHead, countHead, cs, filter.endDate != "", c);
    cs := WithClause(cs, filter.endDate != "", c);
    assert cs == FilterClauses(filter);
    assert BuiltFrom(query, countQuery, args, selectHead, countHead, FilterClauses(filter));
  }

  /** The ordering and paging `GetSessions` appends to the row query, binding the limit and offset it uses. */
  method AddPaging(filtered: string, args: seq<Value>, limit: int, offset: int)
    returns (query: string, args': seq<Value>)
    ensures query == Paged(filtered, limit, offset)
    ensures args' == PagedArgs(args, limit, offset)
  {
    query, args' := filtered + OrderByStartDesc, args;
    if limit > 0 {
      query := query + LimitSql;
      args' := args' + [Int(limit)];
    }
    if offset > 0 {
      query := query + OffsetSql;
      args' := args' + [Int(offset)];
    }
  }

  // ---------------------------------------------------------------------------
  // Statistics

  /** `strings.Replace(s, pat, rep, 1)` for a non-empty pattern: the first occurrence is replaced. */
  function ReplaceFirst(s: string, pat: string, rep: string): string
    requires |pat| > 0
    decreases |s|
  {
    if |s| < |pat| then s
    else if s[..|pat|] == pat then rep + s[|pat|..]
    else [s[0]] + ReplaceFirst(s[1..], pat, rep)
  }

  /** No occurrence of `pat` starts at position i of p, whatever follows p. */
  predicate CannotStartAt(p: string, i: nat, pat: string)
    requires i < |p| && |pat| > 1
  {
    p[i] != pat[0] || (i + 1 < |p| && p[i + 1] != pat[1])
  }

  /** A character that cannot start an occurrence is kept and the search moves on. */
  lemma ReplaceSkip(c: char, s: string, pat: string, rep: string)
    requires |pat| > 1 && |s| + 1 >= |pat|
    requires c != pat[0] || s[0] != pat[1]
    ensures ReplaceFirst([c] + s, pat, rep) == [c] + ReplaceFirst(s, pat, rep)
  {
    var t := [c] + s;
    assert t[..|pat|][0] == c && t[..|pat|][1] == s[0];
    assert t[1..] == s;
  }

  /** The first character of such a prefix is kept and the search goes on with the rest of the prefix. */
  lemma ReplaceAfterFirst(p: string, s: string, pat: string, rep: string)
    requires |pat| > 1 && |s| >= |pat| && p != []
    requires CannotStartAt(p, 0, pat)
    ensures ReplaceFirst(p + s, pat, rep) == [p[0]] + ReplaceFirst(p[1..] + s, pat, rep)
  {
    var t := p[1..] + s;
    assert p + s == [p[0]] + t;
    if |p| > 1 { assert t[0] == p[1]; }
    ReplaceSkip(p[0], t, pat, rep);
  }

  /** The rest of such a prefix is such a prefix too. */
  lemma CannotStartInRest(p: string, pat: string)
    requires |pat| > 1 && p != []
    requires forall i :: 0 <= i < |p| ==> CannotStartAt(p, i, pat)
    ensures forall i :: 0 <= i < |p| - 1 ==> CannotStartAt(p[1..], i, pat)
  {
    forall i | 0 <= i < |p| - 1
      ensures CannotStartAt(p[1..], i, pat)
    {
      assert CannotStartAt(p, i + 1, pat);
    }
  }

  /** A prefix in which no occurrence of the pattern can start is kept and the search moves past it. */
  lemma {:induction false} ReplaceAfter(p: string, s: string, pat: string, rep: string)
    requires |pat| > 1 && |s| >= |pat|
    requires forall i :: 0 <= i < |p| ==> CannotStartAt(p, i, pat)
    ensures ReplaceFirst(p + s, pat, rep) == p + ReplaceFirst(s, pat, rep)
  {
    if p != [] {
      var r := ReplaceFirst(s, pat, rep);
      assert ReplaceFirst(p + s, pat, rep) == [p[0]] + ReplaceFirst(p[1..] + s, pat, rep) by {
        ReplaceAfterFirst(p, s, pat, rep);
      }
      assert ReplaceFirst(p[1..] + s, pat, rep) == p[1..] + r by {
        CannotStartInRest(p, pat);
        ReplaceAfter(p[1..], s, pat, rep);
      }
      assert [p[0]] + (p[1..] + r) == p + r;
    } else {
      assert p + s == s;
    }
  }

  /** The head of a statement selecting one aggregate over the sessions table. */
  function AggregateOf(aggregate: string): string {
    "SELECT " + aggregate + FromSessions
  }

  /** Replacing `COUNT(*)` in a statement that starts like the count statement puts the aggregate in its place. */
  lemma ReplaceCount(rest: string, aggregate: string)
    ensures ReplaceFirst(CountSessions + rest, "COUNT(*)", aggregate) == AggregateOf(aggregate) + rest
  {
    var pat := "COUNT(*)";
    var tail := FromSessions + rest;
    ConcatAssoc("SELECT " + pat, FromSessions, rest);
    ConcatAssoc("SELECT ", pat, tail);
    forall i | 0 <= i < |"SELECT "| ensures CannotStartAt("SELECT ", i, pat) {
    }
    ReplaceAfter("SELECT ", pat + tail, pat, aggregate);
    assert (pat + tail)[..|pat|] == pat && (pat + tail)[|pat|..] == tail;
    ConcatAssoc("SELECT ", aggregate, tail);
    ConcatAssoc("SELECT " + aggregate, FromSessions, rest);
  }

  /** The eight statements `GetStatistics` runs and the arguments all of them bind. */
  datatype StatisticsQueries = StatisticsQueries(
    query: string, completedQuery: string, runningQuery: string, durationQuery: string,
    avgQuery: string, maxQuery: string, minQuery: string, dailyQuery: string, args: seq<Value>)

  const DailySelect: string :=
    "\n\t\tSELECT DATE(start_time) as date," + " COUNT(*) as count," + " SUM(duration) as total_duration"
    + "\n\t\tFROM device_sessions" + "\n\t\tWHERE 1=1\n\t"
  const DailyGrouping: string := " GROUP BY DATE(start_time) ORDER BY date"
  const OnlyCompleted: string := " AND status = 'completed'"
  const OnlyRunning: string := " AND status = 'running'"
  const OnlyPositive: string := " AND duration > 0"

  /** The filter whose conditions `GetStatistics` applies: device, start date and end date. */
  function StatisticsFilter(deviceId: string, startDate: string, endDate: string): (f: SessionFilter)
    ensures f.status == "" && f.limit == 0 && f.offset == 0
  {
    SessionFilter(deviceId, "", startDate, endDate, 0, 0)
  }

  lemma DailySelectHasNoPlaceholder()
    ensures NoPlaceholder(DailySelect)
  {
    var a, b, c := "\n\t\tSELECT DATE(start_time) as date,", " COUNT(*) as count,", " SUM(duration) as total_duration";
    var d, e := "\n\t\tFROM device_sessions", "\n\t\tWHERE 1=1\n\t";
    assert NoPlaceholder(a) && NoPlaceholder(b) && NoPlaceholder(c) && NoPlaceholder(d) && NoPlaceholder(e);
    NoPlaceholderConcat(a, b);
    NoPlaceholderConcat(a + b, c);
    NoPlaceholderConcat(a + b + c, d);
    NoPlaceholderConcat(a + b + c + d, e);
  }

  lemma AggregateHasNoPlaceholder(aggregate: string)
    requires NoPlaceholder(aggregate)
    ensures NoPlaceholder(AggregateOf(aggregate))
  {
    assert NoPlaceholder("SELECT ") && NoPlaceholder(FromSessions);
    NoPlaceholderConcat("SELECT ", aggregate);
    NoPlaceholderConcat("SELECT " + aggregate, FromSessions);
  }

  /**
   * The statements of `GetStatistics`: the count statement with the device
   * and date conditions; the completed and running counts restrict it by
   * status; the four aggregates replace `COUNT(*)` by the aggregate, the
   * average, maximum and minimum over completed sessions only and the minimum
   * also over positive durations only; the daily statement groups the same
   * conditions by date.  All of them bind the conditions' arguments.
   */
  function StatisticsQueriesOf(deviceId: string, startDate: string, endDate: string): StatisticsQueries {
    var cs := FilterClauses(StatisticsFilter(deviceId, startDate, endDate));
    var where := ClausesSql(cs);
    StatisticsQueries(
      CountSessions + where, CountSessions + where + OnlyCompleted, CountSessions + where + OnlyRunning,
      AggregateOf("SUM(duration)") + where, AggregateOf("AVG(duration)") + where + OnlyCompleted,
      AggregateOf("MAX(duration)") + where + OnlyCompleted,
      AggregateOf("MIN(duration)") + where + OnlyCompleted + OnlyPositive,
      DailySelect + where + DailyGrouping, ClausesArgs(cs))
  }

  /** The fixed texts of the statistics statements bind nothing. */
  lemma StatisticsTextsHaveNoPlaceholder()
    ensures NoPlaceholder(CountSessions) && NoPlaceholder(DailySelect)
    ensures NoPlaceholder(OnlyCompleted) && NoPlaceholder(OnlyRunning) && NoPlaceholder(DailyGrouping)
    ensures NoPlaceholder(OnlyCompleted + OnlyPositive)
    ensures NoPlaceholder(AggregateOf("SUM(duration)")) && NoPlaceholder(AggregateOf("AVG(duration)"))
    ensures NoPlaceholder(AggregateOf("MAX(duration)")) && NoPlaceholder(AggregateOf("MIN(duration)"))
  {
    StatusTextsHaveNoPlaceholder();
    AggregatesHaveNoPlaceholder();
  }

  /** The count, daily and status texts bind nothing. */
  lemma StatusTextsHaveNoPlaceholder()
    ensures NoPlaceholder(CountSessions) && NoPlaceholder(DailySelect)
    ensures NoPlaceholder(OnlyCompleted) && NoPlaceholder(OnlyRunning) && NoPlaceholder(DailyGrouping)
    ensures NoPlaceholder(OnlyCompleted + OnlyPositive)
  {
    assert NoPlaceholder(CountSessions);
    DailySelectHasNoPlaceholder();
    assert NoPlaceholder(OnlyCompleted);
    assert NoPlaceholder(OnlyRunning);
    assert NoPlaceholder(DailyGrouping);
    assert NoPlaceholder(OnlyPositive);
    NoPlaceholderConcat(OnlyCompleted, OnlyPositive);
  }

  /** The four aggregate heads bind nothing. */
  lemma AggregatesHaveNoPlaceholder()
    ensures NoPlaceholder(AggregateOf("SUM(duration)")) && NoPlaceholder(AggregateOf("AVG(duration)"))
    ensures NoPlaceholder(AggregateOf("MAX(duration)")) && NoPlaceholder(AggregateOf("MIN(duration)"))
  {
    assert NoPlaceholder("SUM(duration)");
    AggregateHasNoPlaceholder("SUM(duration)");
    assert NoPlaceholder("AVG(duration)");
    AggregateHasNoPlaceholder("AVG(duration)");
    assert NoPlaceholder("MAX(duration)");
    AggregateHasNoPlaceholder("MAX(duration)");
    assert NoPlaceholder("MIN(duration)");
    AggregateHasNoPlaceholder("MIN(duration)");
  }

  /** A placeholder-free head, a filter's conditions and a placeholder-free tail bind one argument per condition. */
  lemma FramedCount(head: string, f: SessionFilter, tail: string)
    requires NoPlaceholder(head) && NoPlaceholder(tail)
    ensures Placeholders(head + ClausesSql(FilterClauses(f)) + tail) == |FilterClauses(f)|
  {
    NoPlaceholderCount(tail);
    FramedPlaceholders(head, f, tail);
  }

  /** Every statement of `GetStatistics` has exactly as many placeholders as the arguments bound to it. */
  lemma StatisticsPlaceholders(deviceId: string, startDate: string, endDate: string)
    ensures var q := StatisticsQueriesOf(deviceId, startDate, endDate);
      var n := |q.args|;
      && Placeholders(q.query) == n && Placeholders(q.completedQuery) == n
      && Placeholders(q.runningQuery) == n && Placeholders(q.durationQuery) == n
      && Placeholders(q.avgQuery) == n && Placeholders(q.maxQuery) == n
      && Placeholders(q.minQuery) == n && Placeholders(q.dailyQuery) == n
  {
    var f := StatisticsFilter(deviceId, startDate, endDate);
    var q := StatisticsQueriesOf(deviceId, startDate, endDate);
    var where := ClausesSql(FilterClauses(f));
    var n := |q.args|;
    StatisticsTextsHaveNoPlaceholder();
    assert NoPlaceholder("");
    assert Placeholders(q.query) == n by {
      FramedCount(CountSessions, f, "");
      assert CountSessions + where + "" == CountSessions + where;
    }
    assert Placeholders(q.completedQuery) == n by {
      FramedCount(CountSessions, f, OnlyCompleted);
    }
    assert Placeholders(q.runningQuery) == n by {
      FramedCount(CountSessions, f, OnlyRunning);
    }
    assert Placeholders(q.durationQuery) == n by {
      FramedCount(AggregateOf("SUM(duration)"), f, "");
      assert AggregateOf("SUM(duration)") + where + "" == AggregateOf("SUM(duration)") + where;
    }
    assert Placeholders(q.avgQuery) == n by {
      FramedCount(AggregateOf("AVG(duration)"), f, OnlyCompleted);
    }
    assert Placeholders(q.maxQuery) == n by {
      FramedCount(AggregateOf("MAX(duration)"), f, OnlyCompleted);
    }
    assert Placeholders(q.minQuery) == n by {
      FramedCount(AggregateOf("MIN(duration)"), f, OnlyCompleted + OnlyPositive);
      ConcatAssoc(AggregateOf("MIN(duration)") + where, OnlyCompleted, OnlyPositive);
    }
    assert Placeholders(q.dailyQuery) == n by {
      FramedCount(DailySelect, f, DailyGrouping);
    }
  }

  /**
   * `GetStatistics` counts the same sessions `GetSessions` counts for an
   * unpaged filter on the same device and dates: its total statement and its
   * arguments are that count statement and its arguments.
   */
  lemma StatisticsCountsLikeSessions(deviceId: string, startDate: string, endDate: string)
    ensures var q := StatisticsQueriesOf(deviceId, startDate, endDate);
      var s := SessionsQueryOf(SessionFilter(deviceId, "", startDate, endDate, 0, 0));
      q.query == s.countQuery && q.args == s.countArgs && s.args == s.countArgs
  {
  }

  /**
   * The statement building of `GetStatistics`: the conditions are appended to
   * the count statement, the other statements derived from it, and the daily
   * statement built with the same conditions.
   */
  method BuildStatisticsQueries(deviceId: string, startDate: string, endDate: string)
    returns (q: StatisticsQueries)
    ensures q == StatisticsQueriesOf(deviceId, startDate, endDate)
  {
    var query, args := AddDateConditions(CountSessions, deviceId, startDate, endDate);
    ghost var where := ClausesSql(FilterClauses(StatisticsFilter(deviceId, startDate, endDate)));

    var completedQuery := query + OnlyCompleted;
    var runningQuery := query + OnlyRunning;
    ReplaceCount(where, "SUM(duration)");
    ReplaceCount(where, "AVG(duration)");
    ReplaceCount(where, "MAX(duration)");
    ReplaceCount(where, "MIN(duration)");
    var durationQuery := ReplaceFirst(query, "COUNT(*)", "SUM(duration)");
    var avgQuery := ReplaceFirst(query, "COUNT(*)", "AVG(duration)") + OnlyCompleted;
    var maxQuery := ReplaceFirst(query, "COUNT(*)", "MAX(duration)") + OnlyCompleted;
    var minQuery := ReplaceFirst(query, "COUNT(*)", "MIN(duration)") + OnlyCompleted + OnlyPositive;

    // The daily statement appends the same conditions; it binds the arguments gathered above.
    var dailyQuery, _ := AddDateConditions(DailySelect, deviceId, startDate, endDate);
    dailyQuery := dailyQuery + DailyGrouping;

    q := StatisticsQueries(query, completedQuery, runningQuery, durationQuery, avgQuery, maxQuery,
                           minQuery, dailyQuery, args);
  }

  /** The device and date conditions of `GetStatistics`, each appended when its field is non-empty. */
  method AddDateConditions(head: string, deviceId: string, startDate: string, endDate: string)
    returns (stmt: string, args: seq<Value>)
    ensures stmt == head + ClausesSql(FilterClauses(StatisticsFilter(deviceId, startDate, endDate)))
    ensures args == ClausesArgs(FilterClauses(StatisticsFilter(deviceId, startDate, endDate)))
  {
    stmt, args := head, [];
    ghost var cs: seq<Clause> := [];
    assert head + ClausesSql(cs) == stmt;
    var c := Clause(DeviceCondition, Str(deviceId));
    stmt, args := AddCondition(stmt, args, head, cs, deviceId != "", c);
    cs := WithClause(cs, deviceId != "", c);
    cs := WithClause(cs, false, Clause(StatusCondition, Str("")));
    c := Clause(StartDateCondition, Str(startDate));
    stmt, args := AddCondition(stmt, args, head, cs, startDate != "", c);
    cs := WithClause(cs, startDate != "", c);
    c := Clause(EndDateCondition, Str(endDate));
    stmt, args := AddCondition(stmt, args, head, cs, endDate != "", c);
    cs := WithClause(cs, endDate != "", c);
    assert cs == FilterClauses(StatisticsFilter(deviceId, startDate, endDate));
  }

  /** One row of the daily statement: the date, its session count and its summed duration (None is NULL). */
  datatype DailyRow = DailyRow(date: string, count: int, totalDuration: Option<int>)

  /** What the database answers to the statistics statements; None is a NULL aggregate. */
  datatype StatisticsAnswers = StatisticsAnswers(
    total: int, completed: int, running: int, sumDuration: Option<int>, avgDuration: Option<real>,
    maxDuration: Option<int>, minDuration: Option<int>, daily: seq<DailyRow>)

  datatype DailyStat = DailyStat(date: string, count: int, totalDuration: int)

  /** The statistics object `GetStatistics` returns. */
  datatype Statistics = Statistics(
    totalSessions: int, completedSessions: int, runningSessions: int, totalDuration: int,
    avgDuration: real, maxDuration: int, minDuration: int, dailyDistribution: seq<DailyStat>)

  /**
   * The statistics `GetStatistics` assembles from the answers: every NULL
   * aggregate becomes 0 and every other one is reported as answered; the
   * daily distribution has one entry per answered row, in order.
   */
  method CollectStatistics(a: StatisticsAnswers) returns (stats: Statistics)
    ensures stats.totalSessions == a.total && stats.completedSessions == a.completed
    ensures stats.runningSessions == a.running
    ensures a.sumDuration.None? ==> stats.totalDuration == 0
    ensures a.sumDuration.Some? ==> stats.totalDuration == a.sumDuration.value
    ensures a.avgDuration.None? ==> stats.avgDuration == 0.0
    ensures a.avgDuration.Some? ==> stats.avgDuration == a.avgDuration.value
    ensures a.maxDuration.None? ==> stats.maxDuration == 0
    ensures a.maxDuration.Some? ==> stats.maxDuration == a.maxDuration.value
    ensures a.minDuration.None? ==> stats.minDuration == 0
    ensures a.minDuration.Some? ==> stats.minDuration == a.minDuration.value
    ensures |stats.dailyDistribution| == |a.daily|
    ensures forall i :: 0 <= i < |a.daily| ==>
              && stats.dailyDistribution[i].date == a.daily[i].date
              && stats.dailyDistribution[i].count == a.daily[i].count
              && (a.daily[i].totalDuration.None? ==> stats.dailyDistribution[i].totalDuration == 0)
              && (a.daily[i].totalDuration.Some? ==>
                    stats.dailyDistribution[i].totalDuration == a.daily[i].totalDuration.value)
  {
    var totalDuration := if a.sumDuration.Some? then a.sumDuration.value else 0;
    var avgDuration := if a.avgDuration.Some? then a.avgDuration.value else 0.0;
    var maxDuration := if a.maxDuration.Some? then a.maxDuration.value else 0;
    var minDuration := if a.minDuration.Some? then a.minDuration.value else 0;
    var dailyStats: seq<DailyStat> := [];
    var i := 0;
    while i < |a.daily|
      invariant 0 <= i <= |a.daily| && |dailyStats| == i
      invariant forall j :: 0 <= j < i ==>
                  && dailyStats[j].date == a.daily[j].date && dailyStats[j].count == a.daily[j].count
                  && dailyStats[j].totalDuration == a.daily[j].totalDuration.GetOr(0)
    {
      var row := a.daily[i];
      var stat := DailyStat(row.date, row.count, 0);
      if row.totalDuration.Some? {
        stat := stat.(totalDuration := row.totalDuration.value);
      }
      dailyStats := dailyStats + [stat];
      i := i + 1;
    }
    stats := Statistics(a.total, a.completed, a.running, totalDuration, avgDuration, maxDuration,
                        minDuration, dailyStats);
  }
}
