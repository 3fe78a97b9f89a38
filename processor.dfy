/** Post-session processing: after a disconnect, the session's record is
    closed with an end time, a duration and a summary, and a completion event
    is logged. The decision procedure is the pure `Teardown`; the method
    `ProcessSession` performs the same steps on the store. Times are whole
    seconds; every store call and the summary request take their outcome
    from a `TeardownEnv`. */
module Processor {
  import opened Wrappers
  import opened Database
  import opened Llm

  /** The two tables of the store, as values. */
  datatype Store = Store(sessions: seq<SessionRecord>, events: seq<Event>)

  /** The outcome of each remote call one run makes: the record lookup, the
      event listing, the summary request, the record update, the completion
      log and the fallback update. */
  datatype TeardownEnv = TeardownEnv(
    lookup: Fault,
    listing: Fault,
    summary: Result<string, string>,
    update: Fault,
    completion: Fault,
    fallback: Fault)

  const NoConversationSummary := "No conversation occurred in this session."
  const CompletionNote := "Session ended and summary generated"

  /** The session's duration in whole seconds at time `now`: a start time
      that is missing or unreadable counts as `now`, and a start after `now`
      gives a negative duration. */
  function Duration(rec: SessionRecord, now: int): (d: int)
    ensures rec.startTime.None? ==> d == 0
    ensures rec.startTime.Some? ==> d == now - rec.startTime.value
  {
    now - rec.startTime.GetOr(now)
  }

  /** The `except` path: one more update writing the end time and the
      failure text, with no duration; its own failure is swallowed. */
  function Fallback(s: Store, sessionId: string, now: int, error: string, fault: Fault): Store {
    if fault.Some? then s
    else s.(sessions := UpdateRows(s.sessions, sessionId, Some(now), None, Some("Summary generation failed: " + error)))
  }

  /** The store after `process_session(sessionId)` at time `now`. */
  function Teardown(s: Store, sessionId: string, now: int, env: TeardownEnv): Store {
    if env.lookup.Some? then Fallback(s, sessionId, now, env.lookup.value, env.fallback)
    else
      match Lookup(s.sessions, sessionId)
      case None => s
      case Some(rec) =>
        if env.listing.Some? then Fallback(s, sessionId, now, env.listing.value, env.fallback)
        else Close(s, sessionId, now, env, rec, SessionEvents(s.events, sessionId))
  }

  /** The steps after the record `rec` and the session's events `evs` were
      read: close the record, with the fixed summary when there was no
      conversation and a requested one otherwise. */
  function Close(s: Store, sessionId: string, now: int, env: TeardownEnv, rec: SessionRecord, evs: seq<Event>): Store {
    var duration := Duration(rec, now);
    if evs == [] then
      if env.update.Some? then Fallback(s, sessionId, now, env.update.value, env.fallback)
      else s.(sessions := UpdateRows(s.sessions, sessionId, Some(now), Some(duration), Some(NoConversationSummary)))
    else Summarised(s, sessionId, now, env, duration, SummaryText(env.summary), |evs|)
  }

  /** A session with a conversation: update the record with end time,
      duration and summary, then log the completion event carrying the
      duration and the event count. */
  function Summarised(s: Store, sessionId: string, now: int, env: TeardownEnv, duration: int, summary: string, count: nat): Store {
    if env.update.Some? then Fallback(s, sessionId, now, env.update.value, env.fallback)
    else
      var updated := s.(sessions := UpdateRows(s.sessions, sessionId, Some(now), Some(duration), Some(summary)));
      if env.completion.Some? then Fallback(updated, sessionId, now, env.completion.value, env.fallback)
      else updated.(events := s.events + [Event(sessionId, SystemEvent, CompletionNote, CompletionMeta(duration, count), now)])
  }

  /** The store as a value. */
  function StateOf(db: DatabaseService): Store
    reads db
  {
    Store(db.sessions, db.events)
  }

  /** `process_session`: looks the session up, lists its events, closes the
      record and logs completion, falling back to a failure summary when a
      step raises; nothing is raised to the caller. */
  method ProcessSession(sessionId: string, db: DatabaseService, llm: LLMService, now: int, env: TeardownEnv)
    modifies db
    ensures StateOf(db) == Teardown(old(StateOf(db)), sessionId, now, env)
  {
    var session := db.GetSession(sessionId, env.lookup);
    if session.Failure? {
      Recover(sessionId, db, now, session.error, env.fallback);
      return;
    }
    if session.value.None? {
      return;
    }
    var rec := session.value.value;
    var events := db.GetSessionEvents(sessionId, env.listing);
    if events.Failure? {
      Recover(sessionId, db, now, events.error, env.fallback);
      return;
    }
    CloseSession(sessionId, db, llm, now, env, rec, events.value);
  }

  /** The `try` block of `process_session` after the reads: `events` are
      the session's events as the store returned them. */
  method CloseSession(sessionId: string, db: DatabaseService, llm: LLMService, now: int, env: TeardownEnv,
                      rec: SessionRecord, events: seq<Event>)
    modifies db
    ensures StateOf(db) == Close(old(StateOf(db)), sessionId, now, env, rec, events)
  {
    var duration := now - rec.startTime.GetOr(now);
    if events == [] {
      var updated := db.UpdateSession(sessionId, Some(now), Some(duration), Some(NoConversationSummary), env.update);
      if updated.Failure? {
        Recover(sessionId, db, now, updated.error, env.fallback);
      }
    } else {
      var _, summary := llm.AnalyzeConversation(events, env.summary);
      Summarise(sessionId, db, now, env, duration, summary, |events|);
    }
  }

  /** The update and the completion log of a session that had a
      conversation, given its duration, its summary and its event count. */
  method Summarise(sessionId: string, db: DatabaseService, now: int, env: TeardownEnv,
                   duration: int, summary: string, count: nat)
    modifies db
    ensures StateOf(db) == Summarised(old(StateOf(db)), sessionId, now, env, duration, summary, count)
  {
    var updated := db.UpdateSession(sessionId, Some(now), Some(duration), Some(summary), env.update);
    if updated.Failure? {
      Recover(sessionId, db, now, updated.error, env.fallback);
      return;
    }
    var logged := db.LogEvent(sessionId, SystemEvent, CompletionNote, CompletionMeta(duration, count), now, env.completion);
    if logged.Failure? {
      Recover(sessionId, db, now, logged.error, env.fallback);
    }
  }

  /** The `except` block of `process_session`. */
  method Recover(sessionId: string, db: DatabaseService, now: int, error: string, fault: Fault)
    modifies db
    ensures StateOf(db) == Fallback(old(StateOf(db)), sessionId, now, error, fault)
  {
    var _ := db.UpdateSession(sessionId, Some(now), None, Some("Summary generation failed: " + error), fault);
  }

  // -----------------------------------------------------------------------
  // Properties of post-session processing
  // -----------------------------------------------------------------------

  lemma {:induction false} UpdateRowsNoMatch(rows: seq<SessionRecord>, sessionId: string, endTime: Option<int>, duration: Option<int>, summary: Option<string>)
    requires forall i :: 0 <= i < |rows| ==> rows[i].sessionId != sessionId
    ensures UpdateRows(rows, sessionId, endTime, duration, summary) == rows
  {
  }

  /** A session that was never created leaves the store as it was, whatever
      fails along the way. */
  lemma {:induction false} AbsentSessionUnchanged(s: Store, sessionId: string, now: int, env: TeardownEnv)
    requires forall i :: 0 <= i < |s.sessions| ==> s.sessions[i].sessionId != sessionId
    ensures Teardown(s, sessionId, now, env) == s
  {
    UpdateRowsNoMatch(s.sessions, sessionId, Some(now), None, Some("Summary generation failed: " + env.lookup.GetOr("")));
  }

  /** With no events, the record is closed with the fixed "no conversation"
      summary and the duration, no summary is requested and nothing is
      logged. */
  lemma {:induction false} NoConversationBranch(s: Store, sessionId: string, now: int, env: TeardownEnv, rec: SessionRecord)
    requires env.lookup.None? && env.listing.None? && env.update.None?
    requires Lookup(s.sessions, sessionId) == Some(rec)
    requires SessionEvents(s.events, sessionId) == []
    ensures Teardown(s, sessionId, now, env).events == s.events
    ensures Lookup(Teardown(s, sessionId, now, env).sessions, sessionId)
         == Some(rec.(endTime := Some(now), durationSeconds := Some(Duration(rec, now)), summary := Some(NoConversationSummary)))
  {
    LookupAfterUpdate(s.sessions, sessionId, Some(now), Some(Duration(rec, now)), Some(NoConversationSummary), sessionId);
  }

  /** With events and no failure, the record gets the summary (unless the
      reply is empty), the end time and the duration, and exactly one
      completion event with the event count is appended. */
  lemma {:induction false} SummarisedBranch(s: Store, sessionId: string, now: int, env: TeardownEnv, rec: SessionRecord)
    requires env.lookup.None? && env.listing.None? && env.update.None? && env.completion.None?
    requires Lookup(s.sessions, sessionId) == Some(rec)
    requires SessionEvents(s.events, sessionId) != []
    ensures Teardown(s, sessionId, now, env).events
         == s.events + [Event(sessionId, SystemEvent, CompletionNote,
                              CompletionMeta(Duration(rec, now), |EventsOf(s.events, sessionId)|), now)]
    ensures Lookup(Teardown(s, sessionId, now, env).sessions, sessionId)
         == Some(Patch(rec, Some(now), Some(Duration(rec, now)), Some(SummaryText(env.summary))))
  {
    var evs := SessionEvents(s.events, sessionId);
    assert |evs| == |multiset(evs)| == |EventsOf(s.events, sessionId)|;
    LookupAfterUpdate(s.sessions, sessionId, Some(now), Some(Duration(rec, now)), Some(SummaryText(env.summary)), sessionId);
  }

  /** When logging completion fails, the fallback overwrites the summary
      just written with the failure text; the duration already written
      stays and no completion event exists. */
  lemma {:induction false} FallbackOverwritesSummary(s: Store, sessionId: string, now: int, env: TeardownEnv, rec: SessionRecord)
    requires env.lookup.None? && env.listing.None? && env.update.None? && env.fallback.None?
    requires env.completion.Some?
    requires Lookup(s.sessions, sessionId) == Some(rec)
    requires SessionEvents(s.events, sessionId) != []
    ensures Teardown(s, sessionId, now, env).events == s.events
    ensures var after := Lookup(Teardown(s, sessionId, now, env).sessions, sessionId);
      after.Some?
      && after.value.summary == Some("Summary generation failed: " + env.completion.value)
      && after.value.durationSeconds == Some(Duration(rec, now))
      && after.value.endTime == Some(now)
  {
    var summary := SummaryText(env.summary);
    var once := UpdateRows(s.sessions, sessionId, Some(now), Some(Duration(rec, now)), Some(summary));
    var failure := "Summary generation failed: " + env.completion.value;
    LookupAfterUpdate(s.sessions, sessionId, Some(now), Some(Duration(rec, now)), Some(summary), sessionId);
    LookupAfterUpdate(once, sessionId, Some(now), None, Some(failure), sessionId);
  }

  /** `after` is `before`, or `before` with one completion event of
      `sessionId` at time `now` appended. */
  predicate AppendsCompletion(before: seq<Event>, after: seq<Event>, sessionId: string, now: int) {
    || after == before
    || (&& |after| == |before| + 1
        && after[..|before|] == before
        && after[|before|].sessionId == sessionId
        && after[|before|].eventType == SystemEvent
        && after[|before|].content == CompletionNote
        && after[|before|].timestamp == now)
  }

  lemma {:induction false} CloseEvents(s: Store, sessionId: string, now: int, env: TeardownEnv, rec: SessionRecord, evs: seq<Event>)
    ensures AppendsCompletion(s.events, Close(s, sessionId, now, env, rec, evs).events, sessionId, now)
  {
    var t := Close(s, sessionId, now, env, rec, evs);
    if evs != [] && env.update.None? && env.completion.None? {
      var e := Event(sessionId, SystemEvent, CompletionNote, CompletionMeta(Duration(rec, now), |evs|), now);
      assert t.events == s.events + [e];
      assert t.events[..|s.events|] == s.events;
    }
  }

  /** Processing only ever appends to the event log, and at most one event:
      the session's completion event, stamped `now`. */
  lemma {:induction false} AtMostOneCompletionEvent(s: Store, sessionId: string, now: int, env: TeardownEnv)
    ensures AppendsCompletion(s.events, Teardown(s, sessionId, now, env).events, sessionId, now)
  {
    if env.lookup.None? && Lookup(s.sessions, sessionId).Some? && env.listing.None? {
      CloseEvents(s, sessionId, now, env, Lookup(s.sessions, sessionId).value, SessionEvents(s.events, sessionId));
    }
  }

  /** Processing one session changes no other session's record or events. */
  lemma {:induction false} OtherSessionsUntouched(s: Store, sessionId: string, now: int, env: TeardownEnv, other: string)
    requires other != sessionId
    ensures Lookup(Teardown(s, sessionId, now, env).sessions, other) == Lookup(s.sessions, other)
    ensures EventsOf(Teardown(s, sessionId, now, env).events, other) == EventsOf(s.events, other)
  {
    var t := Teardown(s, sessionId, now, env);
    assert EventsOf(t.events, other) == EventsOf(s.events, other) by {
      AtMostOneCompletionEvent(s, sessionId, now, env);
      CompletionKeepsOthers(s.events, t.events, sessionId, now, other);
    }
    OtherRecordsUntouched(s, sessionId, now, env, other);
  }

  /** Appending one session's completion event leaves every other
      session's events as they were. */
  lemma {:induction false} CompletionKeepsOthers(before: seq<Event>, after: seq<Event>, sessionId: string, now: int, other: string)
    requires AppendsCompletion(before, after, sessionId, now)
    requires other != sessionId
    ensures EventsOf(after, other) == EventsOf(before, other)
  {
    if after != before {
      var e := after[|before|];
      assert after == before + [e];
      EventsOfAppend(before, e, other);
    }
  }

  lemma {:induction false} FallbackKeepsOthers(s: Store, sessionId: string, now: int, error: string, fault: Fault, other: string)
    requires other != sessionId
    ensures Lookup(Fallback(s, sessionId, now, error, fault).sessions, other) == Lookup(s.sessions, other)
    ensures Fallback(s, sessionId, now, error, fault).events == s.events
  {
    LookupAfterUpdate(s.sessions, sessionId, Some(now), None, Some("Summary generation failed: " + error), other);
  }

  lemma {:induction false} OtherRecordsUntouched(s: Store, sessionId: string, now: int, env: TeardownEnv, other: string)
    requires other != sessionId
    ensures Lookup(Teardown(s, sessionId, now, env).sessions, other) == Lookup(s.sessions, other)
  {
    if env.lookup.Some? {
      FallbackKeepsOthers(s, sessionId, now, env.lookup.value, env.fallback, other);
    } else if Lookup(s.sessions, sessionId).Some? {
      var rec := Lookup(s.sessions, sessionId).value;
      if env.listing.Some? {
        FallbackKeepsOthers(s, sessionId, now, env.listing.value, env.fallback, other);
      } else if env.update.Some? {
        FallbackKeepsOthers(s, sessionId, now, env.update.value, env.fallback, other);
      } else {
        var evs := SessionEvents(s.events, sessionId);
        var summary := if evs == [] then NoConversationSummary else SummaryText(env.summary);
        var updated := s.(sessions := UpdateRows(s.sessions, sessionId, Some(now), Some(Duration(rec, now)), Some(summary)));
        LookupAfterUpdate(s.sessions, sessionId, Some(now), Some(Duration(rec, now)), Some(summary), other);
        if evs != [] && env.completion.Some? {
          FallbackKeepsOthers(updated, sessionId, now, env.completion.value, env.fallback, other);
        }
      }
    }
  }
}
