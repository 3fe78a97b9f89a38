/** The web application: the health check, the WebSocket endpoint that
    drives one session from connection to post-session processing, and the
    two read endpoints over the store.

    A WebSocket session is given by what happens on the socket: whether the
    path's session id parses as a UUID, the `user_id` query parameter, the
    text frames received before the client goes away (each with its clock
    reading and the outcome of the remote calls it causes), and the outcome
    of the calls made at connection and at disconnection. */
module App {
  import opened Wrappers
  import opened Database
  import opened Llm
  import opened Relay
  import Processor

  /** The body of `GET /health`. */
  datatype Health = Health(status: string, service: string, version: string)

  const HealthReport := Health("healthy", "EchoSession", "1.0.0")

  /** The close code for a session id that is not a UUID: policy violation,
      section 7.4.1 of RFC 6455. */
  const PolicyViolation := 1008
  const InvalidSessionId := "Invalid session_id format. Must be a valid UUID."
  const Anonymous := "anonymous"
  const SessionNotFound := "Session not found"

  /** How the endpoint ends: the socket is closed with a code and a reason
      before it is accepted, or the session ran until the client left. */
  datatype Closing = Rejected(code: int, reason: string) | Ended

  /** One text frame received on the socket, with the clock reading of its
      handling and the outcome of the calls it causes. */
  datatype Incoming = Incoming(text: string, now: int, env: MessageEnv)

  /** What happens at connection: the clock reading and the outcome of
      `create_session` and of the start log. */
  datatype Opening = Opening(now: int, create: Fault, startLog: Fault)

  /** What happens at disconnection: the clock reading and the outcome of
      the calls post-session processing makes. */
  datatype Ending = Ending(now: int, teardown: Processor.TeardownEnv)

  /** `user_id` from the query string, "anonymous" when absent. */
  function UserId(query: map<string, string>): (r: string)
    ensures "user_id" in query ==> r == query["user_id"]
    ensures "user_id" !in query ==> r == Anonymous
  {
    if "user_id" in query then query["user_id"] else Anonymous
  }

  // -----------------------------------------------------------------------
  // A run of incoming messages
  // -----------------------------------------------------------------------

  /** The last frame of a non-empty run, as a handler call. */
  function LastEffect(sessionId: string, inbox: seq<Incoming>): Effect
    requires inbox != []
  {
    var m := inbox[|inbox| - 1];
    MessageEffect(sessionId, m.text, m.now, m.env)
  }

  /** The messages sent in answer to `inbox`, in order. */
  function Replies(sessionId: string, inbox: seq<Incoming>): seq<ServerMessage> {
    if inbox == [] then [] else Replies(sessionId, inbox[..|inbox| - 1]) + LastEffect(sessionId, inbox).replies
  }

  /** The events logged while handling `inbox`, in order. */
  function Logged(sessionId: string, inbox: seq<Incoming>): seq<Event> {
    if inbox == [] then [] else Logged(sessionId, inbox[..|inbox| - 1]) + LastEffect(sessionId, inbox).logged
  }

  /** The chat-history registry after handling `inbox`. */
  function ChatsAfterAll(chats: map<string, seq<Turn>>, sessionId: string, inbox: seq<Incoming>): map<string, seq<Turn>> {
    if inbox == [] then chats
    else ChatsAfter(ChatsAfterAll(chats, sessionId, inbox[..|inbox| - 1]), sessionId, LastEffect(sessionId, inbox), inbox[|inbox| - 1].env.completion)
  }

  /** The texts logged as `user_message` for `inbox`, one per frame whose
      content resolved and whose log went through, in order. */
  function ReceivedTexts(sessionId: string, inbox: seq<Incoming>): seq<string> {
    if inbox == [] then []
    else
      var m := inbox[|inbox| - 1];
      var t := LoggedText(m.text, m.env);
      ReceivedTexts(sessionId, inbox[..|inbox| - 1]) + (if t.Some? then [t.value] else [])
  }

  /** The store after a whole accepted session: connection, every frame of
      `inbox`, then post-session processing. */
  function SessionStore(s: Processor.Store, sessionId: string, userId: string, opening: Opening, inbox: seq<Incoming>, ending: Ending): Processor.Store {
    var connect := ConnectEffect(sessionId, userId, opening.now, opening.create, opening.startLog);
    var created := if opening.create.None? then [NewRecord(userId, sessionId, opening.now)] else [];
    Processor.Teardown(Processor.Store(s.sessions + created, s.events + connect.logged + Logged(sessionId, inbox)),
                       sessionId, ending.now, ending.teardown)
  }

  // -----------------------------------------------------------------------
  // Endpoints
  // -----------------------------------------------------------------------

  /** `GET /health`. */
  method HealthCheck() returns (h: Health)
    ensures h.status == "healthy" && h.service == "EchoSession" && h.version == "1.0.0"
  {
    h := HealthReport;
  }

  /** `/ws/session/{session_id}`: a session id that is not a UUID closes the
      socket with 1008 before anything else happens; otherwise the socket
      is connected, every received text is handled in order, and when the
      client goes away (or receiving fails) the session is disconnected
      exactly once. */
  method WebsocketEndpoint(manager: ConnectionManager, socket: Handle, sessionId: string, isUuid: bool,
                           query: map<string, string>, opening: Opening, inbox: seq<Incoming>, ending: Ending)
    returns (closing: Closing)
    modifies manager, manager.db, manager.llm
    ensures !isUuid ==> closing == Rejected(PolicyViolation, InvalidSessionId)
    ensures !isUuid ==> unchanged(manager) && unchanged(manager.db) && unchanged(manager.llm)
    ensures isUuid ==>
      && closing == Ended
      && manager.active == old(manager.active) - {sessionId}
      && manager.trace == old(manager.trace)
           + Deliver(old(manager.active)[sessionId := socket], sessionId,
                     ConnectEffect(sessionId, UserId(query), opening.now, opening.create, opening.startLog).replies
                     + Replies(sessionId, inbox))
      && Processor.StateOf(manager.db)
           == SessionStore(old(Processor.StateOf(manager.db)), sessionId, UserId(query), opening, inbox, ending)
      && manager.llm.chats == old(manager.llm.chats) - {sessionId}
  {
    if !isUuid {
      return Rejected(PolicyViolation, InvalidSessionId);
    }
    var userId := UserId(query);
    manager.Connect(socket, sessionId, userId, opening.now, opening.create, opening.startLog);
    ghost var chats := manager.llm.chats;
    Converse(manager, sessionId, inbox);
    ghost var replies := ConnectEffect(sessionId, userId, opening.now, opening.create, opening.startLog).replies;
    DeliverAfter(old(manager.trace), manager.active, sessionId, replies, Replies(sessionId, inbox));
    manager.Disconnect(sessionId, ending.now, ending.teardown);
    assert manager.active == old(manager.active) - {sessionId};
    assert manager.llm.chats == old(manager.llm.chats) - {sessionId} by {
      ChatsOnlyForSession(chats, sessionId, inbox);
    }
    closing := Ended;
  }

  /** The receive loop: every text received is handled, in order. */
  method Converse(manager: ConnectionManager, sessionId: string, inbox: seq<Incoming>)
    modifies manager`trace, manager.db`events, manager.llm
    ensures manager.trace == old(manager.trace) + Deliver(manager.active, sessionId, Replies(sessionId, inbox))
    ensures manager.db.events == old(manager.db.events) + Logged(sessionId, inbox)
    ensures manager.llm.chats == ChatsAfterAll(old(manager.llm.chats), sessionId, inbox)
  {
    for i := 0 to |inbox|
      invariant manager.trace == old(manager.trace) + Deliver(manager.active, sessionId, Replies(sessionId, inbox[..i]))
      invariant manager.db.events == old(manager.db.events) + Logged(sessionId, inbox[..i])
      invariant manager.llm.chats == ChatsAfterAll(old(manager.llm.chats), sessionId, inbox[..i])
    {
      var m := inbox[i];
      manager.HandleMessage(sessionId, m.text, m.now, m.env);
      ReceiveStep(old(manager.trace), old(manager.db.events), manager.active, sessionId, inbox, i);
      assert inbox[..i + 1][..i] == inbox[..i];
    }
    assert inbox[..|inbox|] == inbox;
  }

  /** One turn of the receive loop extends the replies, the log and the
      chat registry by the effect of the next frame. */
  lemma {:induction false} ReceiveStep(trace: seq<Outbound>, log: seq<Event>, active: map<string, Handle>, sessionId: string, inbox: seq<Incoming>, i: nat)
    requires i < |inbox|
    ensures var e := MessageEffect(sessionId, inbox[i].text, inbox[i].now, inbox[i].env);
      && trace + Deliver(active, sessionId, Replies(sessionId, inbox[..i])) + Deliver(active, sessionId, e.replies)
           == trace + Deliver(active, sessionId, Replies(sessionId, inbox[..i + 1]))
      && log + Logged(sessionId, inbox[..i]) + e.logged == log + Logged(sessionId, inbox[..i + 1])
  {
    var e := MessageEffect(sessionId, inbox[i].text, inbox[i].now, inbox[i].env);
    assert inbox[..i + 1][..i] == inbox[..i];
    assert LastEffect(sessionId, inbox[..i + 1]) == e;
    DeliverAfter(trace, active, sessionId, Replies(sessionId, inbox[..i]), e.replies);
  }

  /** The body of `GET /api/session/{session_id}` or the HTTP error raised. */
  datatype SessionReply = SessionFound(record: SessionRecord) | SessionError(status: int, detail: string)

  /** `GET /api/session/{session_id}`: the session's record, 404 when there
      is none, 500 with the error text when the store fails. */
  method GetSession(manager: ConnectionManager, sessionId: string, fault: Fault) returns (r: SessionReply)
    ensures fault.Some? ==> r == SessionError(500, fault.value)
    ensures fault.None? ==> (r == SessionError(404, SessionNotFound) <==> forall i :: 0 <= i < |manager.db.sessions| ==> manager.db.sessions[i].sessionId != sessionId)
    ensures fault.None? && r.SessionFound? ==> r.record.sessionId == sessionId && r.record in manager.db.sessions
    ensures fault.None? ==> r.SessionFound? || r == SessionError(404, SessionNotFound)
  {
    var session := manager.db.GetSession(sessionId, fault);
    match session {
      case Failure(error) => r := SessionError(500, error);
      case Success(None) => r := SessionError(404, SessionNotFound);
      case Success(Some(record)) => r := SessionFound(record);
    }
  }

  /** The body of `GET /api/session/{session_id}/events` or the HTTP error raised. */
  datatype EventsReply = EventList(sessionId: string, events: seq<Event>) | EventsError(status: int, detail: string)

  /** `GET /api/session/{session_id}/events`: the session id and its events
      in time order, 500 with the error text when the store fails. */
  method GetSessionEvents(manager: ConnectionManager, sessionId: string, fault: Fault) returns (r: EventsReply)
    ensures fault.Some? ==> r == EventsError(500, fault.value)
    ensures fault.None? ==> r.EventList? && r.sessionId == sessionId
    ensures fault.None? ==> SortedByTime(r.events) && multiset(r.events) == multiset(EventsOf(manager.db.events, sessionId))
  {
    var events := manager.db.GetSessionEvents(sessionId, fault);
    match events {
      case Failure(error) => r := EventsError(500, error);
      case Success(list) => r := EventList(sessionId, list);
    }
  }

  // -----------------------------------------------------------------------
  // Properties of a session
  // -----------------------------------------------------------------------

  /** Handling messages only ever changes this session's chat history, so
      clearing it at disconnection leaves the registry as it was for every
      other session. */
  lemma {:induction false} ChatsOnlyForSession(chats: map<string, seq<Turn>>, sessionId: string, inbox: seq<Incoming>)
    ensures ChatsAfterAll(chats, sessionId, inbox) - {sessionId} == chats - {sessionId}
  {
    if inbox != [] {
      var init := inbox[..|inbox| - 1];
      ChatsOnlyForSession(chats, sessionId, init);
      var c := ChatsAfterAll(chats, sessionId, init);
      var after := ChatsAfterAll(chats, sessionId, inbox);
      assert after.Keys - {sessionId} == c.Keys - {sessionId};
      assert forall k :: k in after && k != sessionId ==> after[k] == c[k];
    }
  }

  /** Exactly one `user_message` per received text whose content resolves
      and whose log goes through, in the order received, holding the text. */
  lemma {:induction false} UserMessagesInOrder(sessionId: string, inbox: seq<Incoming>)
    ensures Contents(Logged(sessionId, inbox), UserMessage) == ReceivedTexts(sessionId, inbox)
  {
    if inbox != [] {
      var init := inbox[..|inbox| - 1];
      var m := inbox[|inbox| - 1];
      UserMessagesInOrder(sessionId, init);
      ContentsAppend(Logged(sessionId, init), LastEffect(sessionId, inbox).logged, UserMessage);
      OneUserMessage(sessionId, m.text, m.now, m.env);
    }
  }

  /** Every event a session logs while connected belongs to it. */
  lemma {:induction false} LoggedForThisSession(sessionId: string, inbox: seq<Incoming>)
    ensures ForSession(Logged(sessionId, inbox), sessionId)
  {
    if inbox != [] {
      var init := inbox[..|inbox| - 1];
      var m := inbox[|inbox| - 1];
      LoggedForThisSession(sessionId, init);
      LoggedForSession(sessionId, m.text, m.now, m.env);
    }
  }

  /** A session that disconnects without sending anything still has its
      "Session started" event, so it is summarised rather than closed with
      the "no conversation" text: the record gets the summary, the end time
      and the duration since connection, and the completion event counts
      that one event. */
  lemma {:induction false} ImmediateDisconnectIsSummarised(s: Processor.Store, sessionId: string, userId: string, opening: Opening, ending: Ending)
    requires opening.create.None? && opening.startLog.None?
    requires Lookup(s.sessions, sessionId).None? && EventsOf(s.events, sessionId) == []
    requires ending.teardown.lookup.None? && ending.teardown.listing.None?
    requires ending.teardown.update.None? && ending.teardown.completion.None?
    ensures var t := SessionStore(s, sessionId, userId, opening, [], ending);
      var rec := NewRecord(userId, sessionId, opening.now);
      var duration := Processor.Duration(rec, ending.now);
      && duration == ending.now - opening.now
      && Lookup(t.sessions, sessionId) == Some(Patch(rec, Some(ending.now), Some(duration), Some(SummaryText(ending.teardown.summary))))
      && t.events == s.events
           + [Event(sessionId, SystemEvent, SessionStarted, UserMeta(userId), opening.now)]
           + [Event(sessionId, SystemEvent, Processor.CompletionNote, CompletionMeta(duration, 1), ending.now)]
  {
    var start := Event(sessionId, SystemEvent, SessionStarted, UserMeta(userId), opening.now);
    StartedStore(s, sessionId, userId, opening, ending);
    FreshSessionSummarised(s, NewRecord(userId, sessionId, opening.now), start, ending);
  }

  /** The store a silent session hands to post-session processing. */
  lemma {:induction false} StartedStore(s: Processor.Store, sessionId: string, userId: string, opening: Opening, ending: Ending)
    requires opening.create.None? && opening.startLog.None?
    ensures SessionStore(s, sessionId, userId, opening, [], ending)
         == Processor.Teardown(Processor.Store(s.sessions + [NewRecord(userId, sessionId, opening.now)],
                                               s.events + [Event(sessionId, SystemEvent, SessionStarted, UserMeta(userId), opening.now)]),
                               sessionId, ending.now, ending.teardown)
  {
    var start := Event(sessionId, SystemEvent, SessionStarted, UserMeta(userId), opening.now);
    assert ConnectEffect(sessionId, userId, opening.now, opening.create, opening.startLog).logged == [start];
    assert s.events + [start] + Logged(sessionId, []) == s.events + [start];
  }

  /** Post-session processing of a session whose only record is `rec` and
      whose only event is `start`. */
  lemma {:induction false} FreshSessionSummarised(s: Processor.Store, rec: SessionRecord, start: Event, ending: Ending)
    requires start.sessionId == rec.sessionId
    requires Lookup(s.sessions, rec.sessionId).None? && EventsOf(s.events, rec.sessionId) == []
    requires ending.teardown.lookup.None? && ending.teardown.listing.None?
    requires ending.teardown.update.None? && ending.teardown.completion.None?
    ensures var t := Processor.Teardown(Processor.Store(s.sessions + [rec], s.events + [start]), rec.sessionId, ending.now, ending.teardown);
      var duration := Processor.Duration(rec, ending.now);
      && Lookup(t.sessions, rec.sessionId) == Some(Patch(rec, Some(ending.now), Some(duration), Some(SummaryText(ending.teardown.summary))))
      && t.events == s.events + [start]
           + [Event(rec.sessionId, SystemEvent, Processor.CompletionNote, CompletionMeta(duration, 1), ending.now)]
  {
    var sessionId := rec.sessionId;
    var before := Processor.Store(s.sessions + [rec], s.events + [start]);
    assert Lookup(before.sessions, sessionId) == Some(rec) by {
      LookupAfterInsert(s.sessions, rec, sessionId);
    }
    assert EventsOf(before.events, sessionId) == [start] by {
      EventsOfAppend(s.events, start, sessionId);
    }
    assert SessionEvents(before.events, sessionId) != [] by {
      assert multiset(SessionEvents(before.events, sessionId)) == multiset([start]);
    }
    Processor.SummarisedBranch(before, sessionId, ending.now, ending.teardown, rec);
  }
}
