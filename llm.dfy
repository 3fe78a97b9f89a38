/** The chat-history registry kept for each session, the effects of the
    streaming and non-streaming completion calls on that history, the
    transcript rendered for the end-of-session summary, and the fixed table
    of simulated function results. The completion service is not modelled:
    each call receives what the service delivers as a parameter. */
module Llm {
  import opened Wrappers
  import opened PyStr
  import opened PyJson
  import opened Database

  datatype Role = SystemRole | UserRole | AssistantRole

  /** One `{"role": ..., "content": ...}` entry of a chat history. */
  datatype Turn = Turn(role: Role, content: string)

  /** What one streaming completion request delivers: the `delta.content`
      of each received chunk (empty when the chunk carries none), and
      whether the request ran to exhaustion or raised with a message after
      the deltas listed. */
  datatype Completion = Finished(deltas: seq<string>) | Broken(deltas: seq<string>, error: string)

  /** The deltas that are forwarded: the non-empty ones, in order. */
  function NonEmpty(deltas: seq<string>): (r: seq<string>)
    ensures forall i :: 0 <= i < |r| ==> r[i] != ""
    ensures forall d :: d in r <==> d in deltas && d != ""
    ensures |r| <= |deltas|
  {
    if deltas == [] then []
    else
      var init, last := deltas[..|deltas| - 1], deltas[|deltas| - 1];
      assert deltas == init + [last];
      NonEmpty(init) + (if last != "" then [last] else [])
  }

  /** Filtering a run of deltas is filtering its two parts in turn: the
      forwarded deltas keep the order in which they arrived. */
  lemma {:induction false} NonEmptyAppend(a: seq<string>, b: seq<string>)
    ensures NonEmpty(a + b) == NonEmpty(a) + NonEmpty(b)
    decreases |b|
  {
    if b == [] {
      assert a + b == a;
    } else {
      var init, last := b[..|b| - 1], b[|b| - 1];
      assert a + b == (a + init) + [last];
      assert (a + b)[..|a + b| - 1] == a + init;
      NonEmptyAppend(a, init);
    }
  }

  /** Everything `stream_response` yields: the non-empty deltas and, when
      the request raised, one more fragment "Error: <message>". */
  function Yielded(c: Completion): seq<string> {
    NonEmpty(c.deltas) + (if c.Broken? then ["Error: " + c.error] else [])
  }

  /** The history a session starts with: the system prompt when one is
      given and non-empty, otherwise nothing. */
  function InitialHistory(systemPrompt: Option<string>): (r: seq<Turn>)
    ensures r == [] <==> !(systemPrompt.Some? && systemPrompt.value != "")
    ensures r != [] ==> r == [Turn(SystemRole, systemPrompt.value)]
  {
    if systemPrompt.Some? && systemPrompt.value != "" then [Turn(SystemRole, systemPrompt.value)] else []
  }

  /** The history `get_or_create_chat` returns for a registry. */
  function History(chats: map<string, seq<Turn>>, sessionId: string, systemPrompt: Option<string>): seq<Turn> {
    if sessionId in chats then chats[sessionId] else InitialHistory(systemPrompt)
  }

  /** The turns one streaming request appends: the user turn, and the
      assistant turn holding the whole reply when the request completed. */
  function StreamTurns(userMessage: string, c: Completion): (r: seq<Turn>)
    ensures |r| == (if c.Finished? then 2 else 1)
    ensures r[0] == Turn(UserRole, userMessage)
    ensures c.Finished? ==> r[1] == Turn(AssistantRole, Concat(c.deltas))
  {
    SkipEmptyKeepsText(c.deltas);
    [Turn(UserRole, userMessage)]
      + (if c.Finished? then [Turn(AssistantRole, Concat(NonEmpty(c.deltas)))] else [])
  }

  /** The summary `analyze_conversation` returns for the completion
      service's reply. */
  function SummaryText(reply: Result<string, string>): string {
    match reply
    case Success(text) => text
    case Failure(e) => "Summary generation failed: " + e
  }

  const TranscriptHeader := "Conversation History:\n\n"

  const SummaryInstructions :=
    "\n\nPlease provide a concise summary of this conversation session. Include:\n"
    + "1. Main topics discussed\n2. Key questions asked by the user\n"
    + "3. Important information provided\n4. Overall conversation outcome\n\n"
    + "Keep the summary brief (3-5 sentences)."

  /** The transcript line of one event; system events have none. */
  function RenderEvent(e: Event): string {
    match e.eventType
    case UserMessage => "User: " + e.content + "\n"
    case AiResponse => "AI: " + e.content + "\n"
    case FunctionCall => "[Function Call: " + e.content + "]\n"
    case SystemEvent => ""
  }

  /** The transcript lines of a list of events, one per event. */
  function Lines(events: seq<Event>): (r: seq<string>)
    ensures |r| == |events|
  {
    seq(|events|, i requires 0 <= i < |events| => RenderEvent(events[i]))
  }

  /** The transcript text of a list of events, in order. */
  function RenderEvents(events: seq<Event>): string {
    Concat(Lines(events))
  }

  /** The prompt of the summary request. */
  function SummaryPrompt(events: seq<Event>): string {
    TranscriptHeader + RenderEvents(events) + SummaryInstructions
  }

  /** The events that appear in the transcript. */
  function Conversational(events: seq<Event>): (r: seq<Event>)
    ensures forall i :: 0 <= i < |r| ==> r[i].eventType != SystemEvent
  {
    if events == [] then []
    else
      var last := events[|events| - 1];
      Conversational(events[..|events| - 1]) + (if last.eventType != SystemEvent then [last] else [])
  }

  class LLMService {
    /** `chat_sessions`: the history of each session. */
    var chats: map<string, seq<Turn>>

    constructor()
      ensures chats == map[]
    {
      chats := map[];
    }

    /** `get_or_create_chat`: the existing history, unchanged, or a fresh one
        stored under the id. */
    method GetOrCreateChat(sessionId: string, systemPrompt: Option<string>) returns (h: seq<Turn>)
      modifies this
      ensures h == History(old(chats), sessionId, systemPrompt)
      ensures chats == old(chats)[sessionId := h]
    {
      if sessionId !in chats {
        chats := chats[sessionId := InitialHistory(systemPrompt)];
      }
      h := chats[sessionId];
    }

    /** The streaming loop of `stream_response`: each non-empty delta is
        forwarded, in order, and added to the accumulated response. */
    method ForwardDeltas(deltas: seq<string>) returns (yielded: seq<string>, fullResponse: string)
      ensures yielded == NonEmpty(deltas)
      ensures fullResponse == Concat(yielded)
    {
      fullResponse := "";
      yielded := [];
      for i := 0 to |deltas|
        invariant yielded == NonEmpty(deltas[..i])
        invariant fullResponse == Concat(yielded)
      {
        assert deltas[..i + 1][..i] == deltas[..i];
        if deltas[i] != "" {
          assert (yielded + [deltas[i]])[..|yielded|] == yielded;
          fullResponse := fullResponse + deltas[i];
          yielded := yielded + [deltas[i]];
        }
      }
      assert deltas[..|deltas|] == deltas;
    }

    /** `stream_response`: appends the user turn, forwards the non-empty
        deltas in order and, when the request completes, appends the
        assistant turn holding their concatenation; a failure becomes one
        last fragment "Error: <message>" and is not raised. */
    method StreamResponse(sessionId: string, userMessage: string, systemPrompt: Option<string>, completion: Completion)
      returns (yielded: seq<string>)
      modifies this
      ensures yielded == Yielded(completion)
      ensures chats == old(chats)[sessionId := History(old(chats), sessionId, systemPrompt) + StreamTurns(userMessage, completion)]
    {
      var history := GetOrCreateChat(sessionId, systemPrompt);
      ghost var start := history;
      history := history + [Turn(UserRole, userMessage)];
      chats := chats[sessionId := history];
      var fullResponse;
      yielded, fullResponse := ForwardDeltas(completion.deltas);
      if completion.Broken? {
        yielded := yielded + ["Error: " + completion.error];
        assert history == start + StreamTurns(userMessage, completion);
      } else {
        history := history + [Turn(AssistantRole, fullResponse)];
        chats := chats[sessionId := history];
        assert history == start + StreamTurns(userMessage, completion);
      }
    }

    /** `get_full_response`: the user turn and then the assistant turn are
        appended and the reply returned; on failure only the user turn
        stays and "Error: <message>" is returned. */
    method GetFullResponse(sessionId: string, userMessage: string, systemPrompt: Option<string>, reply: Result<string, string>)
      returns (text: string)
      modifies this
      ensures reply.Success? ==> text == reply.value
      ensures reply.Failure? ==> text == "Error: " + reply.error
      ensures chats == old(chats)[sessionId := History(old(chats), sessionId, systemPrompt)
                                  + [Turn(UserRole, userMessage)]
                                  + (if reply.Success? then [Turn(AssistantRole, reply.value)] else [])]
    {
      var history := GetOrCreateChat(sessionId, systemPrompt);
      ghost var start := history;
      history := history + [Turn(UserRole, userMessage)];
      chats := chats[sessionId := history];
      match reply {
        case Success(content) =>
          history := history + [Turn(AssistantRole, content)];
          chats := chats[sessionId := history];
          text := content;
          assert history == start + [Turn(UserRole, userMessage)] + [Turn(AssistantRole, content)];
        case Failure(e) =>
          text := "Error: " + e;
          assert history == start + [Turn(UserRole, userMessage)] + [];
      }
    }

    /** `analyze_conversation`: renders the events into the summary prompt
        and returns the reply, or "Summary generation failed: <message>";
        it never raises. */
    method AnalyzeConversation(events: seq<Event>, reply: Result<string, string>) returns (prompt: string, summary: string)
      ensures prompt == SummaryPrompt(Conversational(events))
      ensures reply.Success? ==> summary == reply.value
      ensures reply.Failure? ==> summary == "Summary generation failed: " + reply.error
    {
      var conversationText := TranscriptHeader;
      for i := 0 to |events|
        invariant conversationText == TranscriptHeader + RenderEvents(events[..i])
      {
        assert events[..i + 1][..i] == events[..i];
        var e := events[i];
        ghost var before := conversationText;
        match e.eventType {
          case UserMessage => conversationText := conversationText + ("User: " + e.content + "\n");
          case AiResponse => conversationText := conversationText + ("AI: " + e.content + "\n");
          case FunctionCall => conversationText := conversationText + ("[Function Call: " + e.content + "]\n");
          case SystemEvent =>
        }
        assert conversationText == before + RenderEvent(e);
        assert Lines(events[..i + 1]) == Lines(events[..i]) + [RenderEvent(e)];
        ConcatAppend(Lines(events[..i]), [RenderEvent(e)]);
        ConcatSingle(RenderEvent(e));
        AppendAssoc(TranscriptHeader, RenderEvents(events[..i]), RenderEvent(e));
      }
      assert events[..|events|] == events;
      RenderOmitsSystemEvents(events);
      prompt := conversationText + SummaryInstructions;
      summary := SummaryText(reply);
    }

    /** `clear_session`: forgets one session's history. */
    method ClearSession(sessionId: string)
      modifies this
      ensures chats == old(chats) - {sessionId}
    {
      if sessionId in chats {
        chats := chats - {sessionId};
      }
    }
  }

  // -----------------------------------------------------------------------
  // Properties of the history and of the transcript
  // -----------------------------------------------------------------------

  /** Dropping the empty deltas does not change the reply text. */
  lemma {:induction false} SkipEmptyKeepsText(deltas: seq<string>)
    ensures Concat(NonEmpty(deltas)) == Concat(deltas)
  {
    if deltas != [] {
      var init, last := deltas[..|deltas| - 1], deltas[|deltas| - 1];
      SkipEmptyKeepsText(init);
      if last != "" {
        assert (NonEmpty(init) + [last])[..|NonEmpty(init)|] == NonEmpty(init);
      } else {
        assert NonEmpty(init) + [] == NonEmpty(init);
      }
    }
  }

  /** Nothing `stream_response` yields is empty, and a failure is always
      reported as its last fragment. */
  lemma {:induction false} YieldedFragments(c: Completion)
    ensures forall i :: 0 <= i < |Yielded(c)| ==> Yielded(c)[i] != ""
    ensures c.Broken? ==> |Yielded(c)| > 0 && Yielded(c)[|Yielded(c)| - 1] == "Error: " + c.error
    ensures c.Finished? ==> Concat(Yielded(c)) == Concat(c.deltas)
  {
    SkipEmptyKeepsText(c.deltas);
    assert c.Finished? ==> Yielded(c) == NonEmpty(c.deltas);
  }

  /** Rendering distributes over concatenation of event lists. */
  lemma {:induction false} RenderEventsAppend(a: seq<Event>, b: seq<Event>)
    ensures RenderEvents(a + b) == RenderEvents(a) + RenderEvents(b)
  {
    assert Lines(a + b) == Lines(a) + Lines(b);
    ConcatAppend(Lines(a), Lines(b));
  }

  /** Only user messages, AI responses and function calls are rendered:
      dropping the system events leaves the transcript as it was. */
  lemma {:induction false} RenderOmitsSystemEvents(events: seq<Event>)
    ensures RenderEvents(Conversational(events)) == RenderEvents(events)
  {
    if events != [] {
      var init, last := events[..|events| - 1], events[|events| - 1];
      RenderOmitsSystemEvents(init);
      assert events == init + [last];
      RenderEventsAppend(init, [last]);
      var kept := if last.eventType != SystemEvent then [last] else [];
      RenderEventsAppend(Conversational(init), kept);
      assert Lines([last]) == [RenderEvent(last)];
      assert Concat([RenderEvent(last)]) == Concat([]) + RenderEvent(last);
      assert Lines([]) == [];
    }
  }

  // -----------------------------------------------------------------------
  // Simulated function calls
  // -----------------------------------------------------------------------

  /** The `"data"` part of a simulated function result. */
  datatype FunctionData =
    | Weather(temperature: int, condition: string)
    | UserInfo(name: string, email: string)
    | Search(count: int, records: seq<string>)
    | Echo(parameters: Json)

  /** A simulated function result: its `"result"` text and its `"data"`. */
  datatype FunctionOutput = FunctionOutput(result: string, data: FunctionData)

  /** The names with a fixed simulated result, in table order. */
  const KnownFunctions: seq<string> := ["get_weather", "get_user_info", "search_database"]

  /** The weather text, including the two characters U+00C2 U+00B0 that the
      degree sign has become in the table. */
  const WeatherText := "The weather is sunny with a temperature of 72\U{00C2}\U{00B0}F"

  /** `simulated_functions.get(name)`. */
  function SimulatedTable(name: string): (r: Option<FunctionOutput>)
    ensures r.Some? <==> name in KnownFunctions
  {
    if name == "get_weather" then Some(FunctionOutput(WeatherText, Weather(72, "sunny")))
    else if name == "get_user_info" then
      Some(FunctionOutput("User information retrieved successfully", UserInfo("Test User", "user@example.com")))
    else if name == "search_database" then
      Some(FunctionOutput("Found 5 matching records", Search(5, ["Record 1", "Record 2", "Record 3"])))
    else None
  }

  /** `simulate_function_call`: the fixed entry of a known name, otherwise
      "Function <name> executed" with the parameters echoed as data. */
  function SimulateFunctionCall(name: string, parameters: Json): (r: FunctionOutput)
    ensures name in KnownFunctions <==> !r.data.Echo?
    ensures name in KnownFunctions ==> SimulatedTable(name) == Some(r)
    ensures name !in KnownFunctions ==> r == FunctionOutput("Function " + name + " executed", Echo(parameters))
    ensures r.result != ""
  {
    match SimulatedTable(name)
    case Some(entry) => entry
    case None => FunctionOutput("Function " + name + " executed", Echo(parameters))
  }
}
