/** The transcript store: the `session_metadata` table (one row per
    `create_session`, rows matched by session id) and the append-only
    `event_log` table. The hosted database is replaced by these two
    in-memory tables; each call takes the current time in whole seconds and
    an abstract fault standing for the client call raising. */
module Database {
  import opened Wrappers
  import opened PyJson

  /** The four `event_type` values the relay and the processor write. */
  datatype EventType = UserMessage | AiResponse | FunctionCall | SystemEvent

  /** The `metadata` column. `NoMetadata` is the `{}` stored when the caller
      passes none. */
  datatype Metadata =
    | NoMetadata
    | UserMeta(userId: string)
    | CallMeta(functionName: string, parameters: Json)
    | CompletionMeta(durationSeconds: int, eventCount: nat)

  /** One `event_log` row. */
  datatype Event = Event(sessionId: string, eventType: EventType, content: string, metadata: Metadata, timestamp: int)

  /** One `session_metadata` row. `startTime` is `None` when the stored start
      time is missing or cannot be parsed back. */
  datatype SessionRecord = SessionRecord(
    sessionId: string,
    userId: string,
    startTime: Option<int>,
    endTime: Option<int>,
    durationSeconds: Option<int>,
    summary: Option<string>)

  /** The row `create_session` inserts: id, user and start time only. */
  function NewRecord(userId: string, sessionId: string, now: int): SessionRecord {
    SessionRecord(sessionId, userId, Some(now), None, None, None)
  }

  /** The position of the first row with the given session id, or `|rows|`. */
  function FirstIndex(rows: seq<SessionRecord>, sessionId: string): (i: nat)
    ensures i <= |rows|
    ensures i < |rows| ==> rows[i].sessionId == sessionId
    ensures forall j :: 0 <= j < i ==> rows[j].sessionId != sessionId
  {
    if rows == [] then 0
    else if rows[0].sessionId == sessionId then 0
    else 1 + FirstIndex(rows[1..], sessionId)
  }

  /** What a select by session id returns first: `response.data[0]`, or
      `None` when no row matches. */
  function Lookup(rows: seq<SessionRecord>, sessionId: string): (r: Option<SessionRecord>)
    ensures r.None? <==> forall i :: 0 <= i < |rows| ==> rows[i].sessionId != sessionId
    ensures r.Some? ==> r.value in rows && r.value.sessionId == sessionId
  {
    var i := FirstIndex(rows, sessionId);
    if i < |rows| then Some(rows[i]) else None
  }

  /** The field rule of `update_session`, applied to one matching row:
      `end_time` when given, `duration_seconds` when given (0 included),
      `session_summary` only when given and non-empty; everything else kept. */
  function Patch(row: SessionRecord, endTime: Option<int>, duration: Option<int>, summary: Option<string>): (r: SessionRecord)
    ensures r.sessionId == row.sessionId && r.userId == row.userId && r.startTime == row.startTime
    ensures r.endTime == (if endTime.Some? then endTime else row.endTime)
    ensures r.durationSeconds == (if duration.Some? then duration else row.durationSeconds)
    ensures r.summary == (if summary.Some? && summary.value != "" then summary else row.summary)
  {
    var withEnd := if endTime.Some? then row.(endTime := endTime) else row;
    var withDuration := if duration.Some? then withEnd.(durationSeconds := duration) else withEnd;
    if summary.Some? && summary.value != "" then withDuration.(summary := summary) else withDuration
  }

  /** The table after `update_session`: every row of the session patched,
      every other row untouched. */
  function UpdateRows(rows: seq<SessionRecord>, sessionId: string, endTime: Option<int>, duration: Option<int>, summary: Option<string>): (r: seq<SessionRecord>)
    ensures |r| == |rows|
    ensures forall i :: 0 <= i < |rows| && rows[i].sessionId != sessionId ==> r[i] == rows[i]
    ensures forall i :: 0 <= i < |rows| && rows[i].sessionId == sessionId ==> r[i] == Patch(rows[i], endTime, duration, summary)
  {
    seq(|rows|, i requires 0 <= i < |rows| =>
      if rows[i].sessionId == sessionId then Patch(rows[i], endTime, duration, summary) else rows[i])
  }

  /** The events of one session, in log order. */
  function EventsOf(log: seq<Event>, sessionId: string): (r: seq<Event>)
    ensures forall e :: e in r <==> e in log && e.sessionId == sessionId
    ensures |r| <= |log|
  {
    if log == [] then []
    else
      var last := log[|log| - 1];
      EventsOf(log[..|log| - 1], sessionId) + (if last.sessionId == sessionId then [last] else [])
  }

  /** Non-decreasing in timestamp. */
  predicate SortedByTime(es: seq<Event>) {
    forall i, j :: 0 <= i < j < |es| ==> es[i].timestamp <= es[j].timestamp
  }

  /** Places `e` after every element of `s` whose timestamp is not later. */
  function InsertByTime(s: seq<Event>, e: Event): (r: seq<Event>)
    ensures multiset(r) == multiset(s) + multiset{e}
  {
    if s == [] || s[|s| - 1].timestamp <= e.timestamp then s + [e]
    else
      assert s == s[..|s| - 1] + [s[|s| - 1]];
      InsertByTime(s[..|s| - 1], e) + [s[|s| - 1]]
  }

  /** A sorted log stays sorted when an event no earlier than all of it is
      appended. */
  lemma {:induction false} SortedSnoc(s: seq<Event>, e: Event)
    requires SortedByTime(s)
    requires forall x | x in s :: x.timestamp <= e.timestamp
    ensures SortedByTime(s + [e])
  {
    var r := s + [e];
    forall i, j | 0 <= i < j < |r| ensures r[i].timestamp <= r[j].timestamp {
      if j == |s| {
        assert r[i] in s;
      }
    }
  }

  /** Inserting into a sorted log keeps it sorted. */
  lemma {:induction false} InsertByTimeSorted(s: seq<Event>, e: Event)
    requires SortedByTime(s)
    ensures SortedByTime(InsertByTime(s, e))
  {
    if s == [] || s[|s| - 1].timestamp <= e.timestamp {
      forall x | x in s ensures x.timestamp <= e.timestamp {
        var i :| 0 <= i < |s| && s[i] == x;
        assert s[i].timestamp <= s[|s| - 1].timestamp;
      }
      SortedSnoc(s, e);
    } else {
      var init, last := s[..|s| - 1], s[|s| - 1];
      assert SortedByTime(init) by {
        forall i, j | 0 <= i < j < |init| ensures init[i].timestamp <= init[j].timestamp {
          assert init[i] == s[i] && init[j] == s[j];
        }
      }
      InsertByTimeSorted(init, e);
      var r := InsertByTime(init, e);
      forall x | x in r ensures x.timestamp <= last.timestamp {
        assert x in multiset(r);
        if x != e {
          assert x in multiset(init);
          var i :| 0 <= i < |init| && init[i] == x;
          assert s[i] == x;
        }
      }
      SortedSnoc(r, last);
    }
  }

  /** `order("timestamp", desc=False)`: a stable sort by timestamp. */
  function SortByTime(es: seq<Event>): (r: seq<Event>)
    ensures SortedByTime(r)
    ensures multiset(r) == multiset(es)
  {
    if es == [] then []
    else
      var init, last := es[..|es| - 1], es[|es| - 1];
      assert es == init + [last];
      InsertByTimeSorted(SortByTime(init), last);
      InsertByTime(SortByTime(init), last)
  }

  /** What `get_session_events` returns for a session. */
  function SessionEvents(log: seq<Event>, sessionId: string): seq<Event> {
    SortByTime(EventsOf(log, sessionId))
  }

  class DatabaseService {
    var sessions: seq<SessionRecord>
    var events: seq<Event>

    constructor()
      ensures sessions == [] && events == []
    {
      sessions := [];
      events := [];
    }

    /** `create_session`: inserts the new row and returns it. */
    method CreateSession(userId: string, sessionId: string, now: int, fault: Fault) returns (r: Result<SessionRecord, string>)
      modifies this`sessions
      ensures fault.Some? ==> r == Failure(fault.value) && sessions == old(sessions)
      ensures fault.None? ==> r == Success(NewRecord(userId, sessionId, now)) && sessions == old(sessions) + [r.value]
    {
      if fault.Some? {
        return Failure(fault.value);
      }
      var row := NewRecord(userId, sessionId, now);
      sessions := sessions + [row];
      return Success(row);
    }

    /** `log_event`: appends exactly one event and returns it. */
    method LogEvent(sessionId: string, eventType: EventType, content: string, metadata: Metadata, now: int, fault: Fault)
      returns (r: Result<Event, string>)
      modifies this`events
      ensures fault.Some? ==> r == Failure(fault.value) && events == old(events)
      ensures fault.None? ==> r == Success(Event(sessionId, eventType, content, metadata, now)) && events == old(events) + [r.value]
    {
      if fault.Some? {
        return Failure(fault.value);
      }
      var e := Event(sessionId, eventType, content, metadata, now);
      events := events + [e];
      return Success(e);
    }

    /** `get_session_events`: the session's events in ascending timestamp
        order. */
    method GetSessionEvents(sessionId: string, fault: Fault) returns (r: Result<seq<Event>, string>)
      ensures fault.Some? ==> r == Failure(fault.value)
      ensures fault.None? ==> r.Success? && SortedByTime(r.value)
      ensures fault.None? ==> multiset(r.value) == multiset(EventsOf(events, sessionId))
      ensures fault.None? ==> forall e :: e in r.value ==> e.sessionId == sessionId
      ensures fault.None? ==> r.value == SessionEvents(events, sessionId)
    {
      if fault.Some? {
        return Failure(fault.value);
      }
      var es := SessionEvents(events, sessionId);
      assert forall e :: e in es ==> e in multiset(EventsOf(events, sessionId));
      return Success(es);
    }

    /** `update_session`: patches every row of the session and returns the
        first patched row, if any. */
    method UpdateSession(sessionId: string, endTime: Option<int>, duration: Option<int>, summary: Option<string>, fault: Fault)
      returns (r: Result<Option<SessionRecord>, string>)
      modifies this`sessions
      ensures fault.Some? ==> r == Failure(fault.value) && sessions == old(sessions)
      ensures fault.None? ==> sessions == UpdateRows(old(sessions), sessionId, endTime, duration, summary)
      ensures fault.None? ==> r == Success(Lookup(sessions, sessionId))
    {
      if fault.Some? {
        return Failure(fault.value);
      }
      sessions := UpdateRows(sessions, sessionId, endTime, duration, summary);
      return Success(Lookup(sessions, sessionId));
    }

    /** `get_session`: the first row of the session, or `None`. */
    method GetSession(sessionId: string, fault: Fault) returns (r: Result<Option<SessionRecord>, string>)
      ensures fault.Some? ==> r == Failure(fault.value)
      ensures fault.None? ==> r.Success?
      ensures fault.None? ==> (r.value.None? <==> forall i :: 0 <= i < |sessions| ==> sessions[i].sessionId != sessionId)
      ensures fault.None? ==> r.value == Lookup(sessions, sessionId)
    {
      if fault.Some? {
        return Failure(fault.value);
      }
      return Success(Lookup(sessions, sessionId));
    }
  }

  // -----------------------------------------------------------------------
  // Properties of the store
  // -----------------------------------------------------------------------

  /** A second `create_session` for an id already present does not change
      what `get_session` returns: the first row wins. */
  lemma {:induction false} LookupAfterInsert(rows: seq<SessionRecord>, row: SessionRecord, sessionId: string)
    ensures Lookup(rows + [row], sessionId)
         == (if Lookup(rows, sessionId).Some? then Lookup(rows, sessionId)
             else if row.sessionId == sessionId then Some(row) else None)
  {
    FirstIndexAfterInsert(rows, row, sessionId);
  }

  lemma {:induction false} FirstIndexAfterInsert(rows: seq<SessionRecord>, row: SessionRecord, sessionId: string)
    ensures FirstIndex(rows + [row], sessionId)
         == if FirstIndex(rows, sessionId) < |rows| || row.sessionId == sessionId then FirstIndex(rows, sessionId) else |rows| + 1
  {
    if rows == [] {
      assert [row][1..] == [];
    } else {
      assert (rows + [row])[1..] == rows[1..] + [row];
      FirstIndexAfterInsert(rows[1..], row, sessionId);
    }
  }

  /** After an update, `get_session` of that session returns its old first
      row patched by the field rule, and of any other session what it
      returned before. */
  lemma {:induction false} LookupAfterUpdate(rows: seq<SessionRecord>, sessionId: string, endTime: Option<int>, duration: Option<int>, summary: Option<string>, other: string)
    ensures var updated := UpdateRows(rows, sessionId, endTime, duration, summary);
      Lookup(updated, other)
        == (if other == sessionId && Lookup(rows, other).Some?
            then Some(Patch(Lookup(rows, other).value, endTime, duration, summary))
            else Lookup(rows, other))
  {
    var updated := UpdateRows(rows, sessionId, endTime, duration, summary);
    FirstIndexAfterUpdate(rows, sessionId, endTime, duration, summary, other);
  }

  lemma {:induction false} FirstIndexAfterUpdate(rows: seq<SessionRecord>, sessionId: string, endTime: Option<int>, duration: Option<int>, summary: Option<string>, other: string)
    ensures FirstIndex(UpdateRows(rows, sessionId, endTime, duration, summary), other) == FirstIndex(rows, other)
  {
    var updated := UpdateRows(rows, sessionId, endTime, duration, summary);
    if rows != [] {
      assert updated[0].sessionId == rows[0].sessionId;
      assert updated[1..] == UpdateRows(rows[1..], sessionId, endTime, duration, summary);
      FirstIndexAfterUpdate(rows[1..], sessionId, endTime, duration, summary, other);
    } else {
      assert updated == [];
    }
  }

  /** Repeating an update with the same arguments changes nothing more. */
  lemma {:induction false} UpdateIdempotent(rows: seq<SessionRecord>, sessionId: string, endTime: Option<int>, duration: Option<int>, summary: Option<string>)
    ensures var once := UpdateRows(rows, sessionId, endTime, duration, summary);
      UpdateRows(once, sessionId, endTime, duration, summary) == once
  {
  }

  /** Logging an event extends the session's event list by that event and
      leaves every other session's list as it was. */
  lemma {:induction false} EventsOfAppend(log: seq<Event>, e: Event, sessionId: string)
    ensures EventsOf(log + [e], sessionId) == EventsOf(log, sessionId) + (if e.sessionId == sessionId then [e] else [])
  {
    assert (log + [e])[..|log|] == log;
  }

  /** A log already in timestamp order comes back in log order. */
  lemma {:induction false} SortByTimeOfSorted(es: seq<Event>)
    requires SortedByTime(es)
    ensures SortByTime(es) == es
  {
    if es != [] {
      var init, last := es[..|es| - 1], es[|es| - 1];
      assert es == init + [last];
      assert SortedByTime(init) by {
        forall i, j | 0 <= i < j < |init| ensures init[i].timestamp <= init[j].timestamp {
          assert init[i] == es[i] && init[j] == es[j];
        }
      }
      SortByTimeOfSorted(init);
      assert init != [] ==> init[|init| - 1].timestamp <= last.timestamp by {
        if init != [] {
          assert init[|init| - 1] == es[|es| - 2];
        }
      }
      calc {
        SortByTime(es);
        InsertByTime(SortByTime(init), last);
        InsertByTime(init, last);
        init + [last];
      }
    }
  }
}
