/** The session relay: the `ConnectionManager` that keeps one client socket
    per session id, answers each incoming text with an ordered run of JSON
    messages, and writes the conversation to the transcript store.

    What one handler call sends and logs is stated by a pure `Effect`
    (the replies, the events appended to the log, and the text handed to the
    completion service, if any); the methods perform the same steps on the
    store, the chat-history registry and the outbound trace, and their
    postconditions equate the two. The trace records every message that
    reached a socket, in order. */
module Relay {
  import opened Wrappers
  import opened PyStr
  import opened PyJson
  import opened Database
  import opened Llm
  import Processor

  /** A client socket. Sending on a socket that is no longer open raises,
      and the relay swallows that. */
  datatype Handle = Handle(id: nat, open: bool)

  /** The JSON messages the relay sends, one constructor per `"type"`. */
  datatype ServerMessage =
    | SystemMsg(content: string)                                      // "system"
    | ErrorMsg(content: string)                                       // "error"
    | Typing(on: bool)                                                // "typing"
    | ChunkMsg(content: string)                                       // "ai_response_chunk"
    | CompleteMsg                                                     // "ai_response_complete", content true
    | FunctionResultMsg(functionName: string, result: FunctionOutput) // "function_result"
  {
    function Kind(): Kind {
      match this
      case SystemMsg(_) => SystemKind
      case ErrorMsg(_) => ErrorKind
      case Typing(_) => TypingKind
      case ChunkMsg(_) => ChunkKind
      case CompleteMsg => CompleteKind
      case FunctionResultMsg(_, _) => ResultKind
    }
  }

  /** The `"type"` of a message. */
  datatype Kind = SystemKind | ErrorKind | TypingKind | ChunkKind | CompleteKind | ResultKind

  /** One message that reached the socket registered for `session`. */
  datatype Outbound = Outbound(session: string, socket: Handle, message: ServerMessage)

  const Welcome := "Connected to AI assistant. How can I help you today?"
  const SessionStarted := "Session started"
  const FunctionPrefix := "/function"
  const Usage := "Usage: /function <function_name> [parameters]\nAvailable functions: get_weather, get_user_info, search_database"

  // -----------------------------------------------------------------------
  // Delivery
  // -----------------------------------------------------------------------

  /** What the trace gains when `messages` are sent, in order, to the session
      `sessionId`: one entry per message when a socket is registered and
      open, nothing otherwise. */
  function Deliver(active: map<string, Handle>, sessionId: string, messages: seq<ServerMessage>): seq<Outbound> {
    if messages == [] || sessionId !in active || !active[sessionId].open then []
    else Deliver(active, sessionId, messages[..|messages| - 1]) + [Outbound(sessionId, active[sessionId], messages[|messages| - 1])]
  }

  /** The messages of a stretch of trace. */
  function Messages(trace: seq<Outbound>): (r: seq<ServerMessage>)
    ensures |r| == |trace|
  {
    seq(|trace|, i requires 0 <= i < |trace| => trace[i].message)
  }

  // -----------------------------------------------------------------------
  // The effect of one handler call
  // -----------------------------------------------------------------------

  /** The messages a call sends, the events it appends to the log, and the
      user message it hands to `stream_response`, if any. */
  datatype Effect = Effect(replies: seq<ServerMessage>, logged: seq<Event>, prompt: Option<string>)

  /** The outcome of each remote call one incoming message can cause:
      `json.loads` (used on the message and on the function parameters), the
      `user_message` log, the `function_call` log, the `ai_response` log,
      and the completion stream. */
  datatype MessageEnv = MessageEnv(
    decode: string -> Decoded,
    userLog: Fault,
    callLog: Fault,
    replyLog: Fault,
    completion: Completion)

  /** One `ai_response_chunk` per fragment, in order. */
  function Chunks(fragments: seq<string>): seq<ServerMessage> {
    if fragments == [] then [] else Chunks(fragments[..|fragments| - 1]) + [ChunkMsg(fragments[|fragments| - 1])]
  }

  /** `stream_llm_response(sessionId, userMessage)`: typing on, one chunk per
      fragment the completion service yields, typing off, complete, then the
      `ai_response` event holding the concatenated fragments; a failing log
      adds one error message instead. */
  function StreamEffect(sessionId: string, userMessage: string, now: int, completion: Completion, replyLog: Fault): Effect {
    var fragments := Yielded(completion);
    var replies := [Typing(true)] + Chunks(fragments) + [Typing(false), CompleteMsg];
    if replyLog.Some? then
      Effect(replies + [ErrorMsg("Error generating response: " + replyLog.value)], [], Some(userMessage))
    else
      Effect(replies, [Event(sessionId, AiResponse, Concat(fragments), NoMetadata, now)], Some(userMessage))
  }

  /** The `"result"` text fed back to the model after a function call. */
  function CallContext(name: string, result: FunctionOutput): string {
    "Function " + name + " returned: " + result.result
  }

  /** `handle_function_call(sessionId, message)`: split into at most three
      parts; without a function name only the usage text is sent; otherwise
      the parameters (default `{}`) are decoded and the named function is
      called. */
  function FunctionCallEffect(sessionId: string, message: string, now: int, env: MessageEnv): Effect {
    var parts := SplitMax(message, 2);
    if |parts| < 2 then Effect([SystemMsg(Usage)], [], None)
    else
      var parameters := if |parts| > 2 then env.decode(parts[2]) else Value(EmptyObject);
      if parameters.Malformed? then Effect([ErrorMsg("Function call failed: " + parameters.error)], [], None)
      else CallEffect(sessionId, parts[1], parameters.v, now, env)
  }

  /** The call itself: it is logged, the simulated result is sent and then
      fed to the model; a failing log gives one "Function call failed"
      error instead. */
  function CallEffect(sessionId: string, name: string, parameters: Json, now: int, env: MessageEnv): Effect {
    if env.callLog.Some? then Effect([ErrorMsg("Function call failed: " + env.callLog.value)], [], None)
    else
      var result := SimulateFunctionCall(name, parameters);
      var call := Event(sessionId, FunctionCall, "Calling function: " + name, CallMeta(name, parameters), now);
      var streamed := StreamEffect(sessionId, CallContext(name, result), now, env.completion, env.replyLog);
      Effect([FunctionResultMsg(name, result)] + streamed.replies, [call] + streamed.logged, streamed.prompt)
  }

  /** The message text `handle_message` works with: the raw text when it is
      not JSON, the `"content"` member of a JSON object (the raw text when
      absent), and the AttributeError of `.get` on any other JSON value. */
  function MessageContent(message: string, decoded: Decoded): Result<Json, string> {
    match decoded
    case Malformed(_) => Success(JStr(message))
    case Value(JObj(fields, _)) => Success(Get(fields, "content", JStr(message)))
    case Value(v) => Failure(NoAttribute(v.PyType(), "get"))
  }

  /** `handle_message(sessionId, message)`: resolve the text, log it as a
      `user_message`, then route a "/function" command (any case) to the
      function path and everything else to the model. A failure before
      routing, including `.lower()` on a content that is not a string, is
      answered by one error message. */
  function MessageEffect(sessionId: string, message: string, now: int, env: MessageEnv): Effect {
    var content := MessageContent(message, env.decode(message));
    if content.Failure? then Effect([ErrorMsg("Error processing message: " + content.error)], [], None)
    else TextEffect(sessionId, content.value, now, env)
  }

  /** `handle_message` once the text is resolved: log it, then go on with
      the logged text. */
  function TextEffect(sessionId: string, text: Json, now: int, env: MessageEnv): Effect {
    if env.userLog.Some? then Effect([ErrorMsg("Error processing message: " + env.userLog.value)], [], None)
    else
      var after := LoggedEffect(sessionId, text, now, env);
      Effect(after.replies, [Event(sessionId, UserMessage, text.Stored(), NoMetadata, now)] + after.logged, after.prompt)
  }

  /** `handle_message` after the log: `.lower()` fails on a content that is
      not a string; a string is routed. */
  function LoggedEffect(sessionId: string, text: Json, now: int, env: MessageEnv): Effect {
    if !text.JStr? then Effect([ErrorMsg("Error processing message: " + NoAttribute(text.PyType(), "lower"))], [], None)
    else RouteEffect(sessionId, text.s, now, env)
  }

  /** Routing a logged text: a "/function" command (any case) to the
      function path, everything else to the model. */
  function RouteEffect(sessionId: string, text: string, now: int, env: MessageEnv): Effect {
    if LowerStartsWith(text, FunctionPrefix) then FunctionCallEffect(sessionId, text, now, env)
    else StreamEffect(sessionId, text, now, env.completion, env.replyLog)
  }

  /** `connect`: the welcome when the record is created and the start is
      logged, otherwise one error naming the first failure. */
  function ConnectEffect(sessionId: string, userId: string, now: int, create: Fault, startLog: Fault): Effect {
    if create.Some? then Effect([ErrorMsg("Session initialization failed: " + create.value)], [], None)
    else if startLog.Some? then Effect([ErrorMsg("Session initialization failed: " + startLog.value)], [], None)
    else Effect([SystemMsg(Welcome)], [Event(sessionId, SystemEvent, SessionStarted, UserMeta(userId), now)], None)
  }

  /** The chat-history registry after a call with effect `e`: a call that
      reached the model has the user turn, and on completion the assistant
      turn, appended to the session's history. */
  function ChatsAfter(chats: map<string, seq<Turn>>, sessionId: string, e: Effect, completion: Completion): map<string, seq<Turn>> {
    if e.prompt.Some? then chats[sessionId := History(chats, sessionId, None) + StreamTurns(e.prompt.value, completion)]
    else chats
  }

  // -----------------------------------------------------------------------
  // The connection manager
  // -----------------------------------------------------------------------

  class ConnectionManager {
    /** `active_connections`. */
    var active: map<string, Handle>
    /** Every message that reached a socket, in order. */
    var trace: seq<Outbound>
    const db: DatabaseService
    const llm: LLMService

    constructor()
      ensures active == map[] && trace == []
      ensures fresh(db) && fresh(llm)
      ensures db.sessions == [] && db.events == [] && llm.chats == map[]
    {
      active := map[];
      trace := [];
      db := new DatabaseService();
      llm := new LLMService();
    }

    /** `send_message`: sends only to a registered socket; a send that
        raises is swallowed. */
    method SendMessage(sessionId: string, message: ServerMessage)
      modifies this`trace
      ensures trace == old(trace) + Deliver(active, sessionId, [message])
    {
      if sessionId in active {
        var socket := active[sessionId];
        if socket.open {
          trace := trace + [Outbound(sessionId, socket, message)];
        }
      }
    }

    /** `connect`: registers the socket (replacing any socket under the same
        id), creates the record, logs the start and sends the welcome; a
        failure replaces the remaining steps by one error, and the socket
        stays registered. */
    method Connect(socket: Handle, sessionId: string, userId: string, now: int, create: Fault, startLog: Fault)
      modifies this`active, this`trace, db
      ensures active == old(active)[sessionId := socket]
      ensures db.sessions == old(db.sessions) + (if create.None? then [NewRecord(userId, sessionId, now)] else [])
      ensures var e := ConnectEffect(sessionId, userId, now, create, startLog);
        && db.events == old(db.events) + e.logged
        && trace == old(trace) + Deliver(active, sessionId, e.replies)
    {
      active := active[sessionId := socket];
      var created := db.CreateSession(userId, sessionId, now, create);
      if created.Failure? {
        SendMessage(sessionId, ErrorMsg("Session initialization failed: " + created.error));
        return;
      }
      var logged := db.LogEvent(sessionId, SystemEvent, SessionStarted, UserMeta(userId), now, startLog);
      if logged.Failure? {
        SendMessage(sessionId, ErrorMsg("Session initialization failed: " + logged.error));
        return;
      }
      SendMessage(sessionId, SystemMsg(Welcome));
    }

    /** `disconnect`: unregisters the socket, runs post-session processing
        (which raises nothing) and clears the session's chat history. */
    method Disconnect(sessionId: string, now: int, env: Processor.TeardownEnv)
      modifies this`active, db, llm
      ensures active == old(active) - {sessionId}
      ensures Processor.StateOf(db) == Processor.Teardown(old(Processor.StateOf(db)), sessionId, now, env)
      ensures llm.chats == old(llm.chats) - {sessionId}
    {
      if sessionId in active {
        active := active - {sessionId};
      }
      Processor.ProcessSession(sessionId, db, llm, now, env);
      llm.ClearSession(sessionId);
    }

    /** The loop of `stream_llm_response`: one chunk per fragment, in
        order, while the full response accumulates. */
    method SendChunks(sessionId: string, fragments: seq<string>) returns (fullResponse: string)
      modifies this`trace
      ensures trace == old(trace) + Deliver(active, sessionId, Chunks(fragments))
      ensures fullResponse == Concat(fragments)
    {
      fullResponse := "";
      for i := 0 to |fragments|
        invariant trace == old(trace) + Deliver(active, sessionId, Chunks(fragments[..i]))
        invariant fullResponse == Concat(fragments[..i])
      {
        assert fragments[..i + 1] == fragments[..i] + [fragments[i]];
        fullResponse := fullResponse + fragments[i];
        SendMessage(sessionId, ChunkMsg(fragments[i]));
        assert trace == old(trace) + Deliver(active, sessionId, Chunks(fragments[..i]) + [ChunkMsg(fragments[i])]) by {
          DeliverAppend(active, sessionId, Chunks(fragments[..i]), [ChunkMsg(fragments[i])]);
        }
      }
      assert fragments[..|fragments|] == fragments;
    }

    /** `stream_llm_response`. */
    method StreamLlmResponse(sessionId: string, userMessage: string, now: int, completion: Completion, replyLog: Fault)
      modifies this`trace, db`events, llm
      ensures var e := StreamEffect(sessionId, userMessage, now, completion, replyLog);
        && trace == old(trace) + Deliver(active, sessionId, e.replies)
        && db.events == old(db.events) + e.logged
        && llm.chats == ChatsAfter(old(llm.chats), sessionId, e, completion)
    {
      SendMessage(sessionId, Typing(true));
      var fragments := llm.StreamResponse(sessionId, userMessage, None, completion);
      var fullResponse := SendChunks(sessionId, fragments);
      SendMessage(sessionId, Typing(false));
      SendMessage(sessionId, CompleteMsg);
      var logged := db.LogEvent(sessionId, AiResponse, fullResponse, NoMetadata, now, replyLog);
      ghost var err: seq<ServerMessage> := [];
      if logged.Failure? {
        SendMessage(sessionId, ErrorMsg("Error generating response: " + logged.error));
        err := [ErrorMsg("Error generating response: " + logged.error)];
      }
      assert fragments == Yielded(completion);
      assert err == if replyLog.Some? then [ErrorMsg("Error generating response: " + replyLog.value)] else [];
      DeliverStream(old(trace), active, sessionId, Chunks(fragments), err);
      assert [Typing(true)] + Chunks(fragments) + [Typing(false), CompleteMsg] + err
          == StreamEffect(sessionId, userMessage, now, completion, replyLog).replies;
    }

    /** `handle_function_call`. */
    method HandleFunctionCall(sessionId: string, message: string, now: int, env: MessageEnv)
      modifies this`trace, db`events, llm
      ensures var e := FunctionCallEffect(sessionId, message, now, env);
        && trace == old(trace) + Deliver(active, sessionId, e.replies)
        && db.events == old(db.events) + e.logged
        && llm.chats == ChatsAfter(old(llm.chats), sessionId, e, env.completion)
    {
      var parts := SplitMax(message, 2);
      if |parts| < 2 {
        SendMessage(sessionId, SystemMsg(Usage));
        return;
      }
      var name := parts[1];
      var parameters := EmptyObject;
      if |parts| > 2 {
        match env.decode(parts[2]) {
          case Malformed(error) =>
            SendMessage(sessionId, ErrorMsg("Function call failed: " + error));
            return;
          case Value(v) =>
            parameters := v;
        }
      }
      CallFunction(sessionId, name, parameters, now, env);
    }

    /** The part of `handle_function_call` after the parameters are known. */
    method CallFunction(sessionId: string, name: string, parameters: Json, now: int, env: MessageEnv)
      modifies this`trace, db`events, llm
      ensures var e := CallEffect(sessionId, name, parameters, now, env);
        && trace == old(trace) + Deliver(active, sessionId, e.replies)
        && db.events == old(db.events) + e.logged
        && llm.chats == ChatsAfter(old(llm.chats), sessionId, e, env.completion)
    {
      var logged := db.LogEvent(sessionId, FunctionCall, "Calling function: " + name, CallMeta(name, parameters), now, env.callLog);
      if logged.Failure? {
        SendMessage(sessionId, ErrorMsg("Function call failed: " + logged.error));
        return;
      }
      var result := SimulateFunctionCall(name, parameters);
      SendMessage(sessionId, FunctionResultMsg(name, result));
      StreamLlmResponse(sessionId, CallContext(name, result), now, env.completion, env.replyLog);
      ghost var streamed := StreamEffect(sessionId, CallContext(name, result), now, env.completion, env.replyLog);
      DeliverAfter(old(trace), active, sessionId, [FunctionResultMsg(name, result)], streamed.replies);
      assert db.events == old(db.events) + ([logged.value] + streamed.logged);
    }

    /** `handle_message`. */
    method HandleMessage(sessionId: string, message: string, now: int, env: MessageEnv)
      modifies this`trace, db`events, llm
      ensures var e := MessageEffect(sessionId, message, now, env);
        && trace == old(trace) + Deliver(active, sessionId, e.replies)
        && db.events == old(db.events) + e.logged
        && llm.chats == ChatsAfter(old(llm.chats), sessionId, e, env.completion)
    {
      var content := MessageContent(message, env.decode(message));
      if content.Failure? {
        SendMessage(sessionId, ErrorMsg("Error processing message: " + content.error));
        return;
      }
      HandleText(sessionId, content.value, now, env);
    }

    /** The logging and routing steps of `handle_message`. */
    method HandleText(sessionId: string, text: Json, now: int, env: MessageEnv)
      modifies this`trace, db`events, llm
      ensures var e := TextEffect(sessionId, text, now, env);
        && trace == old(trace) + Deliver(active, sessionId, e.replies)
        && db.events == old(db.events) + e.logged
        && llm.chats == ChatsAfter(old(llm.chats), sessionId, e, env.completion)
    {
      var logged := db.LogEvent(sessionId, UserMessage, text.Stored(), NoMetadata, now, env.userLog);
      if logged.Failure? {
        SendMessage(sessionId, ErrorMsg("Error processing message: " + logged.error));
        return;
      }
      HandleLogged(sessionId, text, now, env);
      ghost var after := LoggedEffect(sessionId, text, now, env);
      assert db.events == old(db.events) + ([logged.value] + after.logged);
    }

    /** The steps of `handle_message` after the log. */
    method HandleLogged(sessionId: string, text: Json, now: int, env: MessageEnv)
      modifies this`trace, db`events, llm
      ensures var e := LoggedEffect(sessionId, text, now, env);
        && trace == old(trace) + Deliver(active, sessionId, e.replies)
        && db.events == old(db.events) + e.logged
        && llm.chats == ChatsAfter(old(llm.chats), sessionId, e, env.completion)
    {
      if !text.JStr? {
        SendMessage(sessionId, ErrorMsg("Error processing message: " + NoAttribute(text.PyType(), "lower")));
        return;
      }
      Route(sessionId, text.s, now, env);
    }

    /** The routing step of `handle_message`. */
    method Route(sessionId: string, text: string, now: int, env: MessageEnv)
      modifies this`trace, db`events, llm
      ensures var e := RouteEffect(sessionId, text, now, env);
        && trace == old(trace) + Deliver(active, sessionId, e.replies)
        && db.events == old(db.events) + e.logged
        && llm.chats == ChatsAfter(old(llm.chats), sessionId, e, env.completion)
    {
      if LowerStartsWith(text, FunctionPrefix) {
        HandleFunctionCall(sessionId, text, now, env);
      } else {
        StreamLlmResponse(sessionId, text, now, env.completion, env.replyLog);
      }
    }
  }

  // -----------------------------------------------------------------------
  // Lemmas about delivery
  // -----------------------------------------------------------------------

  /** Sending two runs of messages one after the other delivers their
      concatenation. */
  lemma {:induction false} DeliverAppend(active: map<string, Handle>, sessionId: string, a: seq<ServerMessage>, b: seq<ServerMessage>)
    ensures Deliver(active, sessionId, a + b) == Deliver(active, sessionId, a) + Deliver(active, sessionId, b)
    decreases |b|
  {
    if b == [] {
      assert a + b == a;
    } else if sessionId in active && active[sessionId].open {
      assert (a + b)[..|a + b| - 1] == a + b[..|b| - 1];
      DeliverAppend(active, sessionId, a, b[..|b| - 1]);
    }
  }

  /** A registered, open socket receives exactly the messages sent, in
      order, all tagged with the session and its socket; a missing or closed
      one receives nothing and the send does not fail. */
  lemma {:induction false} DeliveredMessages(active: map<string, Handle>, sessionId: string, messages: seq<ServerMessage>)
    ensures sessionId in active && active[sessionId].open ==> Messages(Deliver(active, sessionId, messages)) == messages
    ensures !(sessionId in active && active[sessionId].open) ==> Deliver(active, sessionId, messages) == []
    ensures forall o :: o in Deliver(active, sessionId, messages) ==> o.session == sessionId && o.socket == active[sessionId]
  {
    if messages != [] && sessionId in active && active[sessionId].open {
      var init := messages[..|messages| - 1];
      DeliveredMessages(active, sessionId, init);
      var d := Deliver(active, sessionId, messages);
      assert d == Deliver(active, sessionId, init) + [Outbound(sessionId, active[sessionId], messages[|messages| - 1])];
      assert Messages(d) == Messages(Deliver(active, sessionId, init)) + [messages[|messages| - 1]];
    }
  }

  /** Sending two runs one after the other after a trace `t`. */
  lemma {:induction false} DeliverAfter(t: seq<Outbound>, active: map<string, Handle>, sessionId: string, a: seq<ServerMessage>, b: seq<ServerMessage>)
    ensures t + Deliver(active, sessionId, a) + Deliver(active, sessionId, b) == t + Deliver(active, sessionId, a + b)
  {
    DeliverAppend(active, sessionId, a, b);
  }

  /** Delivering a stream after a trace `t` delivers its parts one after
      the other. */
  lemma {:induction false} DeliverStream(t: seq<Outbound>, active: map<string, Handle>, sessionId: string, chunks: seq<ServerMessage>, err: seq<ServerMessage>)
    ensures t + Deliver(active, sessionId, [Typing(true)] + chunks + [Typing(false), CompleteMsg] + err)
         == t + Deliver(active, sessionId, [Typing(true)]) + Deliver(active, sessionId, chunks)
          + Deliver(active, sessionId, [Typing(false)]) + Deliver(active, sessionId, [CompleteMsg])
          + Deliver(active, sessionId, err)
  {
    var on, off, done: seq<ServerMessage> := [Typing(true)], [Typing(false)], [CompleteMsg];
    assert [Typing(true)] + chunks + [Typing(false), CompleteMsg] + err == on + chunks + off + done + err;
    assert Deliver(active, sessionId, on + chunks) == Deliver(active, sessionId, on) + Deliver(active, sessionId, chunks) by {
      DeliverAppend(active, sessionId, on, chunks);
    }
    assert Deliver(active, sessionId, on + chunks + off) == Deliver(active, sessionId, on + chunks) + Deliver(active, sessionId, off) by {
      DeliverAppend(active, sessionId, on + chunks, off);
    }
    assert Deliver(active, sessionId, on + chunks + off + done) == Deliver(active, sessionId, on + chunks + off) + Deliver(active, sessionId, done) by {
      DeliverAppend(active, sessionId, on + chunks + off, done);
    }
    assert Deliver(active, sessionId, on + chunks + off + done + err) == Deliver(active, sessionId, on + chunks + off + done) + Deliver(active, sessionId, err) by {
      DeliverAppend(active, sessionId, on + chunks + off + done, err);
    }
  }

  // -----------------------------------------------------------------------
  // Selecting messages and events by kind
  // -----------------------------------------------------------------------

  /** The messages of kind `k`, in order. */
  function OfKind(ms: seq<ServerMessage>, k: Kind): seq<ServerMessage> {
    if ms == [] then []
    else OfKind(ms[..|ms| - 1], k) + (if ms[|ms| - 1].Kind() == k then [ms[|ms| - 1]] else [])
  }

  /** The contents of the events of type `t`, in order. */
  function Contents(es: seq<Event>, t: EventType): seq<string> {
    if es == [] then []
    else Contents(es[..|es| - 1], t) + (if es[|es| - 1].eventType == t then [es[|es| - 1].content] else [])
  }

  lemma {:induction false} OfKindAppend(a: seq<ServerMessage>, b: seq<ServerMessage>, k: Kind)
    ensures OfKind(a + b, k) == OfKind(a, k) + OfKind(b, k)
    decreases |b|
  {
    if b == [] {
      assert a + b == a;
    } else {
      assert (a + b)[..|a + b| - 1] == a + b[..|b| - 1];
      OfKindAppend(a, b[..|b| - 1], k);
    }
  }

  lemma {:induction false} ContentsAppend(a: seq<Event>, b: seq<Event>, t: EventType)
    ensures Contents(a + b, t) == Contents(a, t) + Contents(b, t)
    decreases |b|
  {
    if b == [] {
      assert a + b == a;
    } else {
      assert (a + b)[..|a + b| - 1] == a + b[..|b| - 1];
      ContentsAppend(a, b[..|b| - 1], t);
    }
  }

  /** The chunks of a stream are all of kind "ai_response_chunk". */
  lemma {:induction false} OfKindChunks(fragments: seq<string>, k: Kind)
    ensures OfKind(Chunks(fragments), k) == if k == ChunkKind then Chunks(fragments) else []
  {
    if fragments != [] {
      var init := fragments[..|fragments| - 1];
      var c := Chunks(fragments);
      assert c == Chunks(init) + [ChunkMsg(fragments[|fragments| - 1])];
      assert c[..|c| - 1] == Chunks(init);
      OfKindChunks(init, k);
    }
  }

  /** Selecting from a single message. */
  lemma {:induction false} OfKindOne(m: ServerMessage, k: Kind)
    ensures OfKind([m], k) == if m.Kind() == k then [m] else []
  {
    assert [m][..0] == [];
  }

  // -----------------------------------------------------------------------
  // Lemmas about streaming
  // -----------------------------------------------------------------------

  /** Selecting from a message followed by more. */
  lemma {:induction false} OfKindCons(m: ServerMessage, rest: seq<ServerMessage>, k: Kind)
    ensures OfKind([m] + rest, k) == (if m.Kind() == k then [m] else []) + OfKind(rest, k)
  {
    OfKindAppend([m], rest, k);
    OfKindOne(m, k);
  }

  /** The trace of `stream_llm_response`: the chunks are the fragments the
      completion service yielded, in order; typing is switched on and then
      off exactly once; the `ai_response` event, logged exactly once when
      the log succeeds, holds the concatenation of the chunks; an error
      message is sent exactly when the log fails. */
  lemma {:induction false} StreamTrace(sessionId: string, userMessage: string, now: int, completion: Completion, replyLog: Fault)
    ensures var e := StreamEffect(sessionId, userMessage, now, completion, replyLog);
      && OfKind(e.replies, ChunkKind) == Chunks(Yielded(completion))
      && OfKind(e.replies, TypingKind) == [Typing(true), Typing(false)]
      && OfKind(e.replies, CompleteKind) == [CompleteMsg]
      && e.replies[0] == Typing(true)
      && (replyLog.None? ==>
            && OfKind(e.replies, ErrorKind) == []
            && e.logged == [Event(sessionId, AiResponse, Concat(Yielded(completion)), NoMetadata, now)])
      && (replyLog.Some? ==>
            && OfKind(e.replies, ErrorKind) == [ErrorMsg("Error generating response: " + replyLog.value)]
            && e.logged == [])
      && e.prompt == Some(userMessage)
  {
    var chunks := Chunks(Yielded(completion));
    var err: seq<ServerMessage> := if replyLog.Some? then [ErrorMsg("Error generating response: " + replyLog.value)] else [];
    var replies := StreamEffect(sessionId, userMessage, now, completion, replyLog).replies;
    assert replies == [Typing(true)] + chunks + [Typing(false), CompleteMsg] + err;
    assert OfKind(replies, ChunkKind) == chunks by {
      OfKindStreamOf(Yielded(completion), err, ChunkKind);
    }
    assert OfKind(replies, TypingKind) == [Typing(true), Typing(false)] by {
      OfKindStreamOf(Yielded(completion), err, TypingKind);
    }
    assert OfKind(replies, CompleteKind) == [CompleteMsg] by {
      OfKindStreamOf(Yielded(completion), err, CompleteKind);
    }
    assert OfKind(replies, ErrorKind) == err by {
      OfKindStreamOf(Yielded(completion), err, ErrorKind);
    }
  }

  /** `OfKindStream` for the chunks of `fragments` and an optional error. */
  lemma {:induction false} OfKindStreamOf(fragments: seq<string>, err: seq<ServerMessage>, k: Kind)
    requires err == [] || (|err| == 1 && err[0].ErrorMsg?)
    ensures OfKind([Typing(true)] + Chunks(fragments) + [Typing(false), CompleteMsg] + err, k)
         == if k == TypingKind then [Typing(true), Typing(false)]
            else if k == CompleteKind then [CompleteMsg]
            else if k == ChunkKind then Chunks(fragments)
            else if k == ErrorKind then err
            else []
  {
    assert OfKind(Chunks(fragments), k) == if k == ChunkKind then Chunks(fragments) else [] by {
      OfKindChunks(fragments, k);
    }
    assert OfKind(err, k) == if k == ErrorKind then err else [] by {
      if err != [] {
        assert err == [err[0]];
        OfKindOne(err[0], k);
      }
    }
    OfKindStream(Chunks(fragments), err, k);
  }

  /** The messages of each kind in a stream made of typing on, `chunks`,
      typing off, complete, and `err`. */
  lemma {:induction false} OfKindStream(chunks: seq<ServerMessage>, err: seq<ServerMessage>, k: Kind)
    requires OfKind(chunks, k) == if k == ChunkKind then chunks else []
    requires OfKind(err, k) == if k == ErrorKind then err else []
    ensures OfKind([Typing(true)] + chunks + [Typing(false), CompleteMsg] + err, k)
         == if k == TypingKind then [Typing(true), Typing(false)]
            else if k == CompleteKind then [CompleteMsg]
            else if k == ChunkKind then chunks
            else if k == ErrorKind then err
            else []
  {
    OfKindStreamParts(chunks, err, k);
    StreamKindCases(chunks, err, k, OfKind([Typing(true)] + chunks + [Typing(false), CompleteMsg] + err, k), OfKind(chunks, k), OfKind(err, k));
  }

  /** The messages of kind `k` in the stream, collected piece by piece. */
  lemma {:induction false} OfKindStreamParts(chunks: seq<ServerMessage>, err: seq<ServerMessage>, k: Kind)
    ensures OfKind([Typing(true)] + chunks + [Typing(false), CompleteMsg] + err, k)
         == (if k == TypingKind then [Typing(true)] else [])
            + (OfKind(chunks, k) + ((if k == TypingKind then [Typing(false)] else [])
            + ((if k == CompleteKind then [CompleteMsg] else []) + OfKind(err, k))))
  {
    var tail := [CompleteMsg] + err;
    var tail2 := [Typing(false)] + tail;
    var rest := chunks + tail2;
    StreamShape(chunks, err);
    assert OfKind(tail, k) == (if k == CompleteKind then [CompleteMsg] else []) + OfKind(err, k) by {
      OfKindCons(CompleteMsg, err, k);
    }
    assert OfKind(tail2, k) == (if k == TypingKind then [Typing(false)] else []) + OfKind(tail, k) by {
      OfKindCons(Typing(false), tail, k);
    }
    assert OfKind(rest, k) == OfKind(chunks, k) + OfKind(tail2, k) by {
      OfKindAppend(chunks, tail2, k);
    }
    OfKindCons(Typing(true), rest, k);
  }

  /** The case analysis of `OfKindStream`, on the collected pieces. */
  lemma {:induction false} StreamKindCases(chunks: seq<ServerMessage>, err: seq<ServerMessage>, k: Kind,
                        whole: seq<ServerMessage>, ofChunks: seq<ServerMessage>, ofErr: seq<ServerMessage>)
    requires ofChunks == if k == ChunkKind then chunks else []
    requires ofErr == if k == ErrorKind then err else []
    requires whole == (if k == TypingKind then [Typing(true)] else [])
                      + (ofChunks + ((if k == TypingKind then [Typing(false)] else [])
                      + ((if k == CompleteKind then [CompleteMsg] else []) + ofErr)))
    ensures whole == if k == TypingKind then [Typing(true), Typing(false)]
                     else if k == CompleteKind then [CompleteMsg]
                     else if k == ChunkKind then chunks
                     else if k == ErrorKind then err
                     else []
  {
    if k == TypingKind {
      assert whole == [Typing(true)] + ([] + ([Typing(false)] + ([] + [])));
    } else if k == CompleteKind {
      assert whole == [] + ([] + ([] + ([CompleteMsg] + [])));
    } else if k == ChunkKind {
      assert whole == [] + (chunks + ([] + ([] + [])));
    } else if k == ErrorKind {
      assert whole == [] + ([] + ([] + ([] + err)));
    }
  }

  /** The stream regrouped from the front. */
  lemma {:induction false} StreamShape(chunks: seq<ServerMessage>, err: seq<ServerMessage>)
    ensures [Typing(true)] + chunks + [Typing(false), CompleteMsg] + err
         == [Typing(true)] + (chunks + ([Typing(false)] + ([CompleteMsg] + err)))
  {
    assert [Typing(false), CompleteMsg] == [Typing(false)] + [CompleteMsg];
  }

  /** A failure of the completion service is not an error for the relay:
      it arrives as the last chunk "Error: <message>" and, when the log
      succeeds, ends the logged `ai_response`; a completed stream logs the
      concatenation of all deltas, empty ones included. */
  lemma {:induction false} ModelFailureIsAChunk(sessionId: string, userMessage: string, now: int, completion: Completion, replyLog: Fault)
    ensures var e := StreamEffect(sessionId, userMessage, now, completion, replyLog);
      var chunks := OfKind(e.replies, ChunkKind);
      && (completion.Broken? ==>
            && chunks != []
            && chunks[|chunks| - 1] == ChunkMsg("Error: " + completion.error)
            && (replyLog.None? ==> e.logged[0].content == Concat(NonEmpty(completion.deltas)) + ("Error: " + completion.error)))
      && (completion.Finished? && replyLog.None? ==> e.logged[0].content == Concat(completion.deltas))
  {
    StreamTrace(sessionId, userMessage, now, completion, replyLog);
    YieldedFragments(completion);
    if completion.Broken? {
      ConcatAppend(NonEmpty(completion.deltas), ["Error: " + completion.error]);
      ConcatSingle("Error: " + completion.error);
    }
  }

  // -----------------------------------------------------------------------
  // Lemmas about function calls
  // -----------------------------------------------------------------------

  /** A command with fewer than two words gets only the usage text: nothing
      is logged and the model is not asked. */
  lemma {:induction false} UsageWithoutName(sessionId: string, message: string, now: int, env: MessageEnv)
    requires |Split(message)| < 2
    ensures FunctionCallEffect(sessionId, message, now, env) == Effect([SystemMsg(Usage)], [], None)
  {
    SplitMaxLength(message, 2);
  }

  /** The function name is the second word of the command, and the
      parameters are the decoded rest of it after the second word, whose
      words are the command's words from the third on. */
  lemma {:induction false} FunctionNameIsSecondWord(message: string)
    requires |Split(message)| >= 2
    ensures |SplitMax(message, 2)| >= 2 && SplitMax(message, 2)[1] == Split(message)[1]
    ensures |SplitMax(message, 2)| > 2 <==> |Split(message)| > 2
    ensures |Split(message)| > 2 ==> Split(SplitMax(message, 2)[2]) == Split(message)[2..]
  {
    SplitMaxLength(message, 2);
    SplitMaxAgrees(message, 2, 1);
    if |Split(message)| > 2 {
      SplitMaxRemainder(message, 2);
    }
  }

  /** Unreadable parameters give one "Function call failed" error: no
      `function_call` event and no model request. */
  lemma {:induction false} MalformedParameters(sessionId: string, message: string, now: int, env: MessageEnv)
    requires |SplitMax(message, 2)| > 2 && env.decode(SplitMax(message, 2)[2]).Malformed?
    ensures FunctionCallEffect(sessionId, message, now, env)
         == Effect([ErrorMsg("Function call failed: " + env.decode(SplitMax(message, 2)[2]).error)], [], None)
  {
  }

  /** A command with a function name and readable parameters calls the
      function named by its second word, with `{}` when the command has no
      third word. */
  lemma {:induction false} FunctionCallDispatch(sessionId: string, message: string, now: int, env: MessageEnv)
    requires |Split(message)| >= 2
    requires |SplitMax(message, 2)| > 2 ==> env.decode(SplitMax(message, 2)[2]).Value?
    ensures var parameters := if |SplitMax(message, 2)| > 2 then env.decode(SplitMax(message, 2)[2]).v else EmptyObject;
      FunctionCallEffect(sessionId, message, now, env) == CallEffect(sessionId, Split(message)[1], parameters, now, env)
  {
    FunctionNameIsSecondWord(message);
  }

  /** A call whose log succeeds: one `function_call` event carrying the
      name and the parameters is logged before the model's answer, the
      `function_result` is sent before the stream, the model is asked about
      the result text, and no `user_message` is logged. */
  lemma {:induction false} CallLogged(sessionId: string, name: string, parameters: Json, now: int, env: MessageEnv)
    requires env.callLog.None?
    ensures var result := SimulateFunctionCall(name, parameters);
      var e := CallEffect(sessionId, name, parameters, now, env);
      && e.logged[0] == Event(sessionId, FunctionCall, "Calling function: " + name, CallMeta(name, parameters), now)
      && e.replies[0] == FunctionResultMsg(name, result)
      && e.prompt == Some("Function " + name + " returned: " + result.result)
      && Contents(e.logged, UserMessage) == []
  {
    var result := SimulateFunctionCall(name, parameters);
    var s := StreamEffect(sessionId, CallContext(name, result), now, env.completion, env.replyLog);
    var call := Event(sessionId, FunctionCall, "Calling function: " + name, CallMeta(name, parameters), now);
    assert Contents([call] + s.logged, UserMessage) == Contents([call], UserMessage) + Contents(s.logged, UserMessage) by {
      ContentsAppend([call], s.logged, UserMessage);
    }
    assert Contents([call], UserMessage) == [] by {
      assert [call][..0] == [];
    }
    assert Contents(s.logged, UserMessage) == [] by {
      if s.logged != [] {
        assert s.logged == [s.logged[0]] && s.logged[0].eventType == AiResponse;
        assert s.logged[..0] == [];
      }
    }
  }

  // -----------------------------------------------------------------------
  // Lemmas about incoming messages
  // -----------------------------------------------------------------------

  /** A JSON value that is not an object fails at `.get`: one error, nothing
      logged, nothing routed. */
  lemma {:induction false} NonObjectRejected(sessionId: string, message: string, now: int, env: MessageEnv)
    requires env.decode(message).Value? && !env.decode(message).v.JObj?
    ensures MessageEffect(sessionId, message, now, env)
         == Effect([ErrorMsg("Error processing message: " + NoAttribute(env.decode(message).v.PyType(), "get"))], [], None)
  {
  }

  /** A `"content"` that is not a string is logged as it is and then fails
      at `.lower()`: one error, nothing routed. */
  lemma {:induction false} NonStringContent(sessionId: string, message: string, now: int, env: MessageEnv)
    requires env.decode(message).Value? && env.decode(message).v.JObj?
    requires "content" in env.decode(message).v.fields && !env.decode(message).v.fields["content"].JStr?
    requires env.userLog.None?
    ensures var c := env.decode(message).v.fields["content"];
      MessageEffect(sessionId, message, now, env)
        == Effect([ErrorMsg("Error processing message: " + NoAttribute(c.PyType(), "lower"))],
                  [Event(sessionId, UserMessage, c.Stored(), NoMetadata, now)], None)
  {
  }

  /** The text `handle_message` logs for an incoming message, when its
      `user_message` log goes through: the message itself when it is not
      JSON, the object's `"content"` (or the message when there is none). */
  function LoggedText(message: string, env: MessageEnv): Option<string> {
    var content := MessageContent(message, env.decode(message));
    if content.Success? && env.userLog.None? then Some(content.value.Stored()) else None
  }

  /** Exactly one `user_message` is logged per incoming message whose
      content resolves and whose log succeeds, holding its text, and it is
      the first event of the call; otherwise the call sends one error and
      logs nothing. */
  lemma {:induction false} OneUserMessage(sessionId: string, message: string, now: int, env: MessageEnv)
    ensures var e := MessageEffect(sessionId, message, now, env);
      && (LoggedText(message, env).Some? ==>
            && Contents(e.logged, UserMessage) == [LoggedText(message, env).value]
            && e.logged[0] == Event(sessionId, UserMessage, LoggedText(message, env).value, NoMetadata, now))
      && (LoggedText(message, env).None? ==>
            && e.logged == [] && e.prompt.None?
            && |e.replies| == 1 && e.replies[0].ErrorMsg?)
  {
    var content := MessageContent(message, env.decode(message));
    if content.Success? && env.userLog.None? {
      var text := content.value;
      var logged := Event(sessionId, UserMessage, text.Stored(), NoMetadata, now);
      assert Contents([logged], UserMessage) == [text.Stored()] by {
        assert [logged][..0] == [];
      }
      if text.JStr? {
        var routed := RouteEffect(sessionId, text.s, now, env);
        assert Contents([logged] + routed.logged, UserMessage) == [text.Stored()] by {
          ContentsAppend([logged], routed.logged, UserMessage);
          RoutedLogsNoUserMessage(sessionId, text.s, now, env);
        }
      }
    }
  }

  /** Neither path after routing logs a `user_message`. */
  lemma {:induction false} RoutedLogsNoUserMessage(sessionId: string, text: string, now: int, env: MessageEnv)
    ensures Contents(RouteEffect(sessionId, text, now, env).logged, UserMessage) == []
  {
    var s := StreamEffect(sessionId, text, now, env.completion, env.replyLog);
    assert Contents(s.logged, UserMessage) == [] by {
      if s.logged != [] {
        assert s.logged[..0] == [];
      }
    }
    var parts := SplitMax(text, 2);
    if LowerStartsWith(text, FunctionPrefix) && |parts| >= 2 {
      var parameters := if |parts| > 2 then env.decode(parts[2]) else Value(EmptyObject);
      if parameters.Value? && env.callLog.None? {
        CallLogged(sessionId, parts[1], parameters.v, now, env);
      }
    }
  }

  /** Routing: a text that starts with "/function" in any case goes to the
      function path, whose model request (if any) is the function's result
      text; any other text is itself handed to the model. */
  lemma {:induction false} Routing(sessionId: string, message: string, now: int, env: MessageEnv)
    requires LoggedText(message, env).Some?
    requires MessageContent(message, env.decode(message)).value.JStr?
    ensures var text := LoggedText(message, env).value;
      var e := MessageEffect(sessionId, message, now, env);
      && (e.prompt == Some(text) <==> !LowerStartsWith(text, FunctionPrefix))
      && (LowerStartsWith(text, FunctionPrefix) ==> e.replies == FunctionCallEffect(sessionId, text, now, env).replies)
      && (!LowerStartsWith(text, FunctionPrefix) ==> e.replies == StreamEffect(sessionId, text, now, env.completion, env.replyLog).replies)
  {
    var text := LoggedText(message, env).value;
    if LowerStartsWith(text, FunctionPrefix) {
      var f := FunctionCallEffect(sessionId, text, now, env);
      assert f.prompt != Some(text) by {
        if f.prompt.Some? {
          // the prompt starts with "F", the text with "/"
          assert AsciiLower(text[0]) == '/';
          assert f.prompt.value[0] == 'F';
        }
      }
    }
  }

  /** All of `events` belong to the session `sessionId`. */
  predicate ForSession(events: seq<Event>, sessionId: string) {
    forall i :: 0 <= i < |events| ==> events[i].sessionId == sessionId
  }

  /** Every event a handler logs belongs to the handler's session. */
  lemma {:induction false} LoggedForSession(sessionId: string, message: string, now: int, env: MessageEnv)
    ensures ForSession(MessageEffect(sessionId, message, now, env).logged, sessionId)
  {
    var content := MessageContent(message, env.decode(message));
    if content.Success? && env.userLog.None? && content.value.JStr? {
      RouteForSession(sessionId, content.value.s, now, env);
    }
  }

  /** The routing step logs only for its session. */
  lemma {:induction false} RouteForSession(sessionId: string, text: string, now: int, env: MessageEnv)
    ensures ForSession(RouteEffect(sessionId, text, now, env).logged, sessionId)
  {
    if LowerStartsWith(text, FunctionPrefix) {
      var parts := SplitMax(text, 2);
      if |parts| >= 2 {
        var parameters := if |parts| > 2 then env.decode(parts[2]) else Value(EmptyObject);
        if parameters.Value? {
          CallForSession(sessionId, parts[1], parameters.v, now, env);
        }
      }
    } else {
      assert ForSession(StreamEffect(sessionId, text, now, env.completion, env.replyLog).logged, sessionId);
    }
  }

  /** A function call logs only for its session. */
  lemma {:induction false} CallForSession(sessionId: string, name: string, parameters: Json, now: int, env: MessageEnv)
    ensures ForSession(CallEffect(sessionId, name, parameters, now, env).logged, sessionId)
  {
    if env.callLog.None? {
      var result := SimulateFunctionCall(name, parameters);
      assert ForSession(StreamEffect(sessionId, CallContext(name, result), now, env.completion, env.replyLog).logged, sessionId);
    }
  }

  /** `connect` sends exactly one message: the welcome exactly when the
      record was created and "Session started" was logged, otherwise an
      error naming the first failure, with nothing logged. */
  lemma {:induction false} ConnectOutcome(sessionId: string, userId: string, now: int, create: Fault, startLog: Fault)
    ensures var e := ConnectEffect(sessionId, userId, now, create, startLog);
      && |e.replies| == 1
      && (e.replies[0] == SystemMsg(Welcome) <==> e.logged != [])
      && (e.logged != [] ==> e.logged == [Event(sessionId, SystemEvent, SessionStarted, UserMeta(userId), now)])
      && (create.Some? ==> e.replies[0] == ErrorMsg("Session initialization failed: " + create.value))
      && (create.None? && startLog.Some? ==> e.replies[0] == ErrorMsg("Session initialization failed: " + startLog.value))
  {
  }
}
