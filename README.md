# EchoSession in Dafny

EchoSession is a WebSocket conversation service. A client connects under a
session id and sends text frames. The server logs each message in a
transcript store, streams the completion engine's reply back in chunks, and
runs a `/function <name> [json]` command through a table of simulated
functions. When the client leaves, the server writes a summary of the
session and closes its record. Beside that runs a small retrieval service,
which cuts an uploaded document into chunks of words and stores them.

This project models the core of the service:

- `Config`: the required environment variables and the server's host and
  port.
- `Database.DatabaseService`: the session table and the event log. Session
  rows are a `seq` of records; the event log is a `seq` that inserts
  append to.
- `Llm.LLMService`: the per-session chat histories, the stream of reply
  fragments, transcript rendering for the summary request, and the
  simulated function table.
- `Processor`: post-session processing, which closes the record with an
  end time, a duration and a summary, and logs one completion event.
- `Rag.RAGService`: document text extraction, word chunking and storage,
  and the context string built from matched documents.
- `Relay.ConnectionManager`: the socket registry, message handling,
  streaming and the function-call path.
- `App`: the health check, the WebSocket endpoint that drives one session
  from connection to teardown, and the two read endpoints.

Two helper modules, `PyStr` and `PyJson`, state the Python behaviour these
operations rely on. `PyStr` covers `str.split()` with and without
`maxsplit`, `" ".join`, `str.strip` emptiness and `lower().startswith`.
`PyJson` covers the value `json.loads` returns and the `AttributeError`
text of a missing method.

How remote calls are modelled:

- Every store call, completion call and decode is a parameter giving its
  outcome (`Fault = Option<string>`, `Completion`, `Decoded`).
- The clock is a parameter `now`, one reading per handler call.
- Each handler's observable effect is a pure `Effect`: the messages it
  sends, the events it logs, and the text it hands to the model, if any.
- Each method has a postcondition that ties the new state of the store,
  the chat registry and the outbound trace to that effect.
- The outbound trace records every message that reached an open socket, in
  order.

Behaviour of the code worth knowing, which the model keeps:

- A failure of the completion stream is not reported as an error message.
  `stream_response` catches it and yields one more fragment, `"Error: …"`,
  which the relay sends as an ordinary chunk. `typing` is then cleared as
  usual, and an `ai_response` is still logged, holding the partial text
  followed by that fragment (`services/llm.py:89-91`,
  `temp_submission/services/websocket.py:150-168`).
- Durations are not clamped. A start time after `now` gives a negative
  duration, and a missing start time gives 0 (`services/processor.py:43-53` and `:68-81`).
- A disconnect straight after a successful connect does not take the "no
  conversation" branch. The connect already logged a `system_event`, so
  the session has one event and is summarised (`App.ImmediateDisconnectIsSummarised`).
- `typing=false` is always sent after a streamed turn. `send_message`
  swallows every exception of a send (`temp_submission/services/websocket.py:90-93`),
  and `stream_response` catches its own failures (`services/llm.py:89-91`),
  so nothing before line 161 of `temp_submission/services/websocket.py` can
  raise. The `except` at line 170 is reached only when logging the
  `ai_response` (line 164) fails, and then one error follows the completion
  marker (`Relay.StreamTrace`).
- A JSON `content` that is not a string is logged as its JSON text. Then
  `.lower()` fails on it, and the handler answers with one error message.
- A second connection under the same session id replaces the first in the
  registry. Whichever disconnects first removes the entry.
- The `get_weather` result text keeps the source's mis-encoded degree sign
  (`72Â°F`).

## Model

| member | source | states |
|---|---|---|
| Config.ValidateConfig | temp_submission/config.py:22-38 | succeeds (with `True`) exactly when SUPABASE_URL, SUPABASE_KEY and GROQ_API_KEY are all set and non-empty; otherwise the error is the fixed message listing the missing names joined by ", " |
| Config.Missing | temp_submission/config.py:30 | at most one name per variable |
| Config.MissingNames | temp_submission/config.py:30 | a name is listed as missing exactly when some variable of that name has an empty or absent value |
| Config.MissingOfRequired | temp_submission/config.py:24-30 | the missing names are the unset ones among URL, key and Groq key, in that order |
| Config.Host | temp_submission/config.py:18 | HOST when set, "0.0.0.0" otherwise |
| Config.Port | temp_submission/config.py:19 | 8000 when PORT is unset, otherwise the outcome of parsing its text as an integer |
| PyJson.Get | services/llm.py:151-152 | `dict.get`: the member when the key is present, the default otherwise |
| PyStr.Split | services/rag.py:76 | reference definition of `str.split()`: the maximal runs of non-whitespace, in order |
| PyStr.SplitMax | temp_submission/services/websocket.py:187 | reference definition of `str.split(maxsplit=k)`: the first k words, then the rest of the text after the whitespace that follows them, when anything remains |
| PyStr.LowerStartsWith | temp_submission/services/websocket.py:121 | reference definition of `text.lower().startswith(prefix)` for an ASCII prefix |
| PyStr.SplitWords | services/rag.py:76 | every piece `str.split()` returns is non-empty and holds no whitespace |
| PyStr.SplitEmptyIffBlank | services/rag.py:45 | `split()` is empty exactly when the text is all whitespace, that is when `strip()` is empty |
| PyStr.SplitJoinSpace | services/rag.py:32 | splitting a space-join of words gives the words back |
| PyStr.JoinSpaceOfWords | services/rag.py:86 | a space-join of a non-empty run of words has no leading or trailing whitespace |
| PyStr.SplitAppend | services/rag.py:33 | splitting two texts joined at whitespace gives the concatenation of their splits |
| PyStr.SplitConcat | services/rag.py:27-33 | splitting a concatenation of whitespace-terminated texts gives the concatenation of their splits |
| PyStr.SplitMaxLength | temp_submission/services/websocket.py:187 | `split(maxsplit=k)` has as many parts as `split()` up to k, and k+1 parts beyond that |
| PyStr.SplitMaxAgrees | temp_submission/services/websocket.py:187 | the first k parts of `split(maxsplit=k)` are the first k words |
| PyStr.SplitMaxRemainder | temp_submission/services/websocket.py:187 | with more than k words, the last part of `split(maxsplit=k)` splits into exactly the remaining words |
| PyStr.ConcatAppend | temp_submission/services/websocket.py:151 | the accumulated text of two runs of fragments is the concatenation of the two accumulations |
| Database.NewRecord | services/database.py:16-38 | reference definition of the inserted session row: the user, the session id and `now` as start time, no end, duration or summary |
| Database.SessionEvents | services/database.py:74-95 | reference definition of the events query: the session's events in timestamp order |
| Database.FirstIndex | services/database.py:137-158 | the position of the first row of the session, or the table length when no row matches; no earlier row matches |
| Database.Lookup | services/database.py:137-158 | `get_session`: absent exactly when no row has the id; otherwise a row of the table with that id |
| Database.Patch | services/database.py:117-124 | update applies end time and duration when given and the summary only when given and non-empty; id, user and start time are kept |
| Database.UpdateRows | services/database.py:97-135 | every row of the session is patched, every other row is kept, and the table length is unchanged |
| Database.EventsOf | services/database.py:74-95 | the filter keeps exactly the events of the session |
| Database.SortByTime | services/database.py:74-95 | the result is ordered by timestamp and is a permutation of its input |
| Database.InsertByTime | services/database.py:74-95 | inserting adds exactly the one event to the multiset |
| Database.InsertByTimeSorted | services/database.py:74-95 | inserting into an ordered run keeps it ordered |
| Database.SortByTimeOfSorted | services/database.py:74-95 | a log already in timestamp order is returned as it is |
| Database.DatabaseService.constructor | services/database.py:12-14 | the table and the log start empty |
| Database.DatabaseService.CreateSession | services/database.py:16-38 | on success exactly one new record is appended, with the user, the session id and `now` as start time, and it is returned; on failure the table is unchanged and the error is returned |
| Database.DatabaseService.LogEvent | services/database.py:40-72 | on success exactly the given event, stamped with `now`, is appended and returned; on failure the log is unchanged |
| Database.DatabaseService.GetSessionEvents | services/database.py:74-95 | exactly the session's events, as a permutation in timestamp order; the error on failure |
| Database.DatabaseService.UpdateSession | services/database.py:97-135 | every row of the session is patched by the field rule; the returned row is the first updated one, or none when the session is absent; failure leaves the table unchanged |
| Database.DatabaseService.GetSession | services/database.py:137-158 | none exactly when no row has the id, else the first row with it; the error on failure |
| Database.LookupAfterInsert | services/database.py:16-38 | after an insert, a session already present still reads its first row, and a new one reads the inserted row |
| Database.LookupAfterUpdate | services/database.py:97-158 | after an update, the session reads its old first row patched, and every other session reads what it read before |
| Database.FirstIndexAfterUpdate | services/database.py:97-135 | an update never moves the first row of any session |
| Database.UpdateIdempotent | services/database.py:97-135 | repeating an update with the same arguments changes nothing more |
| Database.EventsOfAppend | services/database.py:40-95 | logging an event adds it to the end of its own session's events and leaves every other session's events as they were |
| Llm.Yielded | services/llm.py:77-91 | reference definition of what `stream_response` yields: the non-empty deltas, then "Error: …" when the stream failed |
| Llm.RenderEvent | services/llm.py:150-159 | reference definition of one transcript line: "User: …", "AI: …" or "[Function Call: …]", and nothing for other event types |
| Llm.NonEmpty | services/llm.py:77-81 | a delta is forwarded exactly when it is non-empty, and never more deltas than the stream produced |
| Llm.NonEmptyAppend | services/llm.py:77-81 | filtering a run of deltas is filtering its two parts in turn, so forwarded deltas keep their arrival order |
| Llm.InitialHistory | services/llm.py:19-39 | a new history is empty unless a non-empty system prompt is given, and then holds just that system turn |
| Llm.StreamTurns | services/llm.py:68-87 | the user turn is always appended, and the assistant turn with the whole reply only when the stream completes |
| Llm.Lines | services/llm.py:149-159 | one rendered line per event |
| Llm.Conversational | services/llm.py:149-159 | no system event is kept |
| Llm.LLMService.constructor | services/llm.py:14-17 | no chat histories at start |
| Llm.LLMService.GetOrCreateChat | services/llm.py:19-39 | an existing history is returned unchanged; otherwise a fresh one is stored under the session and returned |
| Llm.LLMService.ForwardDeltas | services/llm.py:77-81 | exactly the non-empty deltas are yielded, in order, and the full response is their concatenation |
| Llm.LLMService.StreamResponse | services/llm.py:41-91 | yields the non-empty deltas, plus one `"Error: …"` fragment when the stream fails; the history gains the user turn, plus the assistant turn holding the whole reply on completion |
| Llm.LLMService.GetFullResponse | services/llm.py:93-135 | the reply text, or `"Error: "` and the failure; the history gains the user turn, plus the assistant turn on success |
| Llm.LLMService.AnalyzeConversation | services/llm.py:137-183 | the prompt is `SummaryPrompt` of the user, AI and function-call events: the header, their rendered lines and the instructions; the summary is the reply, or `"Summary generation failed: "` and the failure |
| Llm.LLMService.ClearSession | services/llm.py:185-193 | the session's history is removed and every other history is kept |
| Llm.SkipEmptyKeepsText | services/llm.py:77-81 | skipping empty deltas does not change the concatenated reply |
| Llm.YieldedFragments | services/llm.py:77-91 | no yielded fragment is empty; a failed stream ends with its error fragment; a completed one concatenates to the whole reply |
| Llm.RenderEventsAppend | services/llm.py:149-159 | the transcript of two runs of events is the concatenation of their transcripts |
| Llm.RenderOmitsSystemEvents | services/llm.py:149-159 | dropping system events does not change the transcript |
| Llm.SimulatedTable | services/llm.py:206-219 | exactly the three known function names have a table entry |
| Llm.SimulateFunctionCall | services/llm.py:195-224 | a known name gets exactly its `SimulatedTable` entry (never an echo); any other name gets "Function <name> executed" with the parameters echoed as data; the result text is never empty |
| Processor.Teardown | services/processor.py:14-115 | reference definition of `process_session`: no record leaves the store unchanged; a failed lookup or listing goes to `Fallback`; otherwise `Close` |
| Processor.Close | services/processor.py:38-100 | reference definition of the steps after the lookup: without events the record gets the end time, the duration and the fixed summary; with events `Summarised`; a failed update goes to `Fallback` |
| Processor.Summarised | services/processor.py:65-100 | reference definition of the summarised branch: update with end time, duration and summary, then one completion event with the duration and the event count; either failure goes to `Fallback` |
| Processor.Fallback | services/processor.py:104-115 | reference definition of the outer `except`: one update with the end time and "Summary generation failed: …", no duration; its own failure leaves the store as it was |
| Processor.Duration | services/processor.py:68-81 | `now` minus the start time, and 0 when the start time is missing |
| Processor.ProcessSession | services/processor.py:14-115 | the store after the call is `Teardown` of the store before it |
| Processor.CloseSession | services/processor.py:38-100 | the store after the steps that follow the lookup is `Close` of the store before them |
| Processor.Summarise | services/processor.py:65-100 | the store after summarising is `Summarised` of the store before it |
| Processor.Recover | services/processor.py:104-115 | the store after the failure path is `Fallback` of the store before it |
| Processor.UpdateRowsNoMatch | services/database.py:97-135 | an update of an absent session changes no row |
| Processor.AbsentSessionUnchanged | services/processor.py:32-35 | teardown of a session with no record leaves the store unchanged |
| Processor.NoConversationBranch | services/processor.py:40-61 | a session without events gets the end time, the duration and the fixed "No conversation occurred" summary, and no event is logged |
| Processor.SummarisedBranch | services/processor.py:65-100 | a session with events gets the end time, the duration and the summary, and exactly one completion event carrying the duration and the event count is logged |
| Processor.FallbackOverwritesSummary | services/processor.py:92-115 | when logging the completion fails, the summary already written is overwritten with the failure text, and no event is logged |
| Processor.CloseEvents | services/processor.py:38-100 | the steps after the lookup append at most one event, the completion event of this session |
| Processor.AtMostOneCompletionEvent | services/processor.py:14-115 | teardown appends at most one event, the completion event of this session at `now` |
| Processor.CompletionKeepsOthers | services/processor.py:92-100 | appending the completion event leaves every other session's events unchanged |
| Processor.FallbackKeepsOthers | services/processor.py:104-115 | the failure path changes no other session's record and logs nothing |
| Processor.OtherRecordsUntouched | services/processor.py:14-115 | teardown leaves every other session's record unchanged |
| Processor.OtherSessionsUntouched | services/processor.py:14-115 | teardown leaves every other session's record and events unchanged |
| Rag.DocumentText | services/rag.py:20-37 | reference definition of the document text: the PDF pages' text for a `.pdf` name, the decoded upload otherwise, or the reader's or decoder's error |
| Rag.Greedy | services/rag.py:76-93 | reference definition of the chunking loop: words are added to the current chunk until its length count reaches the size, and a non-empty remainder forms the last chunk |
| Rag.Groups | services/rag.py:74-93 | reference definition of the word groups of `_chunk_text`, starting from an empty chunk |
| Rag.Context | services/rag.py:122-126 | reference definition of the context: each matched content followed by "\n---\n", in result order |
| Rag.JoinEach | services/rag.py:86-91 | one chunk per group, each the space-join of its group |
| Rag.GreedyKeepsWords | services/rag.py:76-93 | the groups cut from the words, read in order, are exactly the words |
| Rag.GreedyWellCut | services/rag.py:81-91 | every group is a non-empty run of words; every group but the last reaches the chunk size; no group would reach the size without its last word, unless it has only one word |
| Rag.ChunkText | services/rag.py:74-93 | the chunks are the space-joins of the greedy groups; their words, read in order, are the text's words; there are none exactly when the text is blank |
| Rag.JoinedGroups | services/rag.py:86-91 | splitting the chunks gives the groups back, and each chunk is trimmed |
| Rag.ChunksOfText | services/rag.py:74-93 | chunks keep every word in order, are trimmed, every chunk but the last reaches the size, none would reach it without its last word unless it has one word, and there are none exactly for a blank text |
| Rag.PageText | services/rag.py:29-33 | a page contributes either nothing or a line ending in a newline |
| Rag.PdfText | services/rag.py:27-33 | the extracted text is empty or ends with a newline |
| Rag.PageTextWords | services/rag.py:32-33 | whitespace normalisation keeps a page's words |
| Rag.PdfTextWords | services/rag.py:24-33 | the extracted text's words are the pages' words in page order |
| Rag.StoredRows | services/rag.py:53-66 | never more rows than chunks |
| Rag.ExtractText | services/rag.py:24-37 | the document text is the normalised PDF pages, or the decoded upload, or the read or decode error |
| Rag.RAGService.constructor | services/rag.py:12-14 | the document table starts empty |
| Rag.FirstFault | services/rag.py:53-54 | the first chunk whose embedding fails, or the chunk count when none fails: every earlier embedding succeeded |
| Rag.RAGService.IngestDocument | services/rag.py:16-72 | a read error or a blank text stores nothing and reports the error; otherwise the chunks before the first failed embedding whose insert succeeded are appended; a failed embedding ends the call with its error, else the report counts the stored chunks |
| Rag.RAGService.StoreChunks | services/rag.py:51-66 | appends exactly the rows whose insert succeeds, in chunk order, up to the first chunk whose embedding fails, counts them, and returns that failure if any |
| Rag.ContextIsJoin | services/rag.py:122-124 | the context is the matched contents joined by the separator, with a final separator |
| Rag.QueryKnowledgeBase | services/rag.py:95-130 | an embedding failure raises; a failed match gives ""; otherwise the context built from the matched contents |
| Relay.ConnectEffect | temp_submission/services/websocket.py:35-59 | reference definition of `connect` after registration: the welcome and the start event, or one "Session initialization failed" error naming the first failure |
| Relay.StreamEffect | temp_submission/services/websocket.py:135-175 | reference definition of `stream_llm_response`: typing on, one chunk per yielded fragment, typing off, complete, then the `ai_response` event with the concatenation, or one error when that log fails |
| Relay.MessageEffect | temp_submission/services/websocket.py:95-133 | reference definition of `handle_message`: the content resolution (raw text, `content` member, or the `.get` error), then `TextEffect` |
| Relay.TextEffect | temp_submission/services/websocket.py:113-133 | reference definition of the `user_message` log: its failure gives one error; otherwise the event precedes what `LoggedEffect` does |
| Relay.LoggedEffect | temp_submission/services/websocket.py:120-133 | reference definition of the step after the log: `.lower()` fails on a non-string content with one error; a string is routed |
| Relay.RouteEffect | temp_submission/services/websocket.py:120-126 | reference definition of routing: a "/function" prefix in any case goes to `FunctionCallEffect`, anything else to `StreamEffect` |
| Relay.FunctionCallEffect | temp_submission/services/websocket.py:177-232 | reference definition of `handle_function_call`: the usage text for fewer than two words, one error for undecodable parameters, else `CallEffect` with the second word and the parameters or `{}` |
| Relay.CallEffect | temp_submission/services/websocket.py:199-232 | reference definition of the call: the `function_call` event, the `function_result` message, then the result streamed to the model; a failed log gives one error |
| Relay.ChatsAfter | services/llm.py:58-87 | reference definition of the history update: a call that reached the model appends the user turn, and on completion the assistant turn |
| Relay.Messages | temp_submission/services/websocket.py:80-93 | one message per trace entry |
| Relay.ConnectionManager.constructor | temp_submission/services/websocket.py:15-20 | no socket registered, nothing sent, an empty store and no chat histories |
| Relay.ConnectionManager.SendMessage | temp_submission/services/websocket.py:80-93 | the message reaches the trace exactly when the session has an open registered socket |
| Relay.ConnectionManager.Connect | temp_submission/services/websocket.py:22-59 | the socket is registered; a record is created unless creation fails; then the welcome and the start event, or one error naming the first failure |
| Relay.ConnectionManager.Disconnect | temp_submission/services/websocket.py:61-78 | the socket is removed, the store goes through `Teardown`, and the chat history is cleared |
| Relay.ConnectionManager.SendChunks | temp_submission/services/websocket.py:150-157 | one chunk message per fragment, in order, and the full response is their concatenation |
| Relay.ConnectionManager.StreamLlmResponse | temp_submission/services/websocket.py:135-175 | sends and logs exactly `StreamEffect`, and updates the history as `ChatsAfter` says |
| Relay.ConnectionManager.HandleFunctionCall | temp_submission/services/websocket.py:177-232 | sends and logs exactly `FunctionCallEffect` |
| Relay.ConnectionManager.CallFunction | temp_submission/services/websocket.py:199-225 | sends and logs exactly `CallEffect` |
| Relay.ConnectionManager.HandleMessage | temp_submission/services/websocket.py:95-133 | sends and logs exactly `MessageEffect`, and updates the history as `ChatsAfter` says |
| Relay.ConnectionManager.HandleText | temp_submission/services/websocket.py:113-133 | sends and logs exactly `TextEffect` |
| Relay.ConnectionManager.HandleLogged | temp_submission/services/websocket.py:120-133 | sends and logs exactly `LoggedEffect` |
| Relay.ConnectionManager.Route | temp_submission/services/websocket.py:120-126 | sends and logs exactly `RouteEffect` |
| Relay.DeliverAppend | temp_submission/services/websocket.py:80-93 | sending two runs of messages is sending their concatenation |
| Relay.DeliveredMessages | temp_submission/services/websocket.py:80-93 | on an open registered socket every message arrives, in order, on that socket; otherwise none does |
| Relay.OfKindAppend | temp_submission/services/websocket.py:80-93 | the messages of one type in two runs are those of each run, concatenated |
| Relay.ContentsAppend | services/database.py:40-72 | the logged contents of one event type in two runs are those of each run, concatenated |
| Relay.StreamTrace | temp_submission/services/websocket.py:135-175 | a streamed turn sends typing on first, then one chunk per yielded fragment, typing on and off exactly once, and one completion marker; with the log working it logs one `ai_response` holding the concatenated chunks and sends no error; with a failing log it logs nothing and sends exactly one error |
| Relay.OfKindStreamOf | temp_submission/services/websocket.py:147-175 | the messages of each type in a streamed turn |
| Relay.ModelFailureIsAChunk | services/llm.py:89-91 | a failing completion's error arrives as the last chunk, and the logged reply holds the partial text followed by it |
| Relay.UsageWithoutName | temp_submission/services/websocket.py:187-197 | a command with no function name sends only the usage text and logs nothing |
| Relay.FunctionNameIsSecondWord | temp_submission/services/websocket.py:187-200 | the function name is the command's second word; there are parameters exactly when there is a third word, and they hold all the remaining words |
| Relay.MalformedParameters | temp_submission/services/websocket.py:200-232 | unparsable parameters send one "Function call failed" error and log nothing |
| Relay.FunctionCallDispatch | temp_submission/services/websocket.py:187-225 | a well-formed command calls the function named by its second word, with `{}` when there are no parameters |
| Relay.CallLogged | temp_submission/services/websocket.py:203-225 | a call logs its `function_call` event first, sends the result first, hands "Function <name> returned: <result>" to the model, and logs no `user_message` |
| Relay.NonObjectRejected | temp_submission/services/websocket.py:105-133 | JSON that is not an object gets one error naming the missing `get` and logs nothing |
| Relay.NonStringContent | temp_submission/services/websocket.py:107-133 | a non-string `content` is logged as its JSON text and then gets one error naming the missing `lower` |
| Relay.OneUserMessage | temp_submission/services/websocket.py:105-133 | a message whose text resolves and logs gets exactly one `user_message` event, first, holding that text; otherwise nothing is logged, nothing reaches the model, and one error is sent |
| Relay.RoutedLogsNoUserMessage | temp_submission/services/websocket.py:120-126 | routing, including the function path, logs no further `user_message` |
| Relay.Routing | temp_submission/services/websocket.py:120-126 | the text reaches the model unchanged exactly when it does not start with "/function" in any case; a command goes to the function path and everything else is streamed |
| Relay.LoggedForSession | temp_submission/services/websocket.py:95-133 | every event a message causes belongs to its session |
| Relay.RouteForSession | temp_submission/services/websocket.py:120-126 | every event routing logs belongs to the session |
| Relay.CallForSession | temp_submission/services/websocket.py:203-225 | every event a function call logs belongs to the session |
| Relay.ConnectOutcome | temp_submission/services/websocket.py:22-59 | connect sends exactly one message: the welcome exactly when the start event was logged, otherwise an error naming the first failure |
| App.SessionStore | main.py:39-74 | reference definition of the store after one accepted session: the connect's record and events, every frame's events in order, then `Teardown` |
| App.UserId | main.py:56 | the `user_id` query parameter, or "anonymous" when it is absent |
| App.HealthCheck | main.py:30-37 | healthy, EchoSession, 1.0.0 |
| App.WebsocketEndpoint | main.py:39-74 | a non-UUID id is closed with 1008 and nothing changes; otherwise the connect effect and every frame's replies reach the socket in order, the store ends as connect, the frames and teardown make it, the socket is deregistered and the chat history is cleared |
| App.Converse | main.py:60-66 | handling the frames in order sends every frame's replies and logs every frame's events in order |
| App.ReceiveStep | main.py:60-66 | handling one more frame extends the replies and the log by that frame's effect |
| App.GetSession | main.py:76-95 | a store failure gives 500 with its text; otherwise 404 "Session not found" exactly when no row has the id, else a row with that id |
| App.GetSessionEvents | main.py:97-112 | a store failure gives 500 with its text; otherwise the session's events, as a permutation in timestamp order |
| App.ChatsOnlyForSession | main.py:60-66 | a session's frames change no other session's chat history |
| App.UserMessagesInOrder | main.py:60-66 | the `user_message` events logged are exactly the received texts that resolved and logged, in order |
| App.LoggedForThisSession | main.py:60-66 | every event logged while handling the frames belongs to the session |
| App.StartedStore | main.py:58-74 | a connect with no failures and no frames leaves the new record and the start event for teardown |
| App.FreshSessionSummarised | services/processor.py:38-100 | a new session whose only event is its start event is summarised, with one completion event counting one event |
| App.ImmediateDisconnectIsSummarised | main.py:58-74 | connecting and leaving at once ends with the record closed after the disconnect-minus-connect duration and the summary, and with the start event and one completion event logged |

## Left out

- Network I/O, `async` scheduling and concurrency are not modelled. Handlers run one at a time, and each is one step on the store. Interleaved sessions are not modelled.
- The Supabase client, the Groq client and the sentence-transformer embedder are outside the model. Each call is a parameter giving its outcome: success or the error it raises. The embedding vectors themselves are not modelled, only whether each embedding succeeds.
- The vector search done by `match_documents` is a parameter. Only its threshold and count are fixed.
- PDF parsing (`PdfReader`, `extract_text`) and UTF-8 decoding are inputs: the page texts and the decode outcome.
- UUID parsing in the WebSocket endpoint is an `isUuid` input.
- `json.loads` is an abstract `decode` parameter. JSON values are modelled only as far as the handlers inspect them: string, object, and other values with their text.
- Timestamps are integers. One clock reading is taken per handler call. Timezone handling and ISO parsing of `start_time` are not modelled, and an unreadable start time is treated as missing. A NULL `start_time` column would make `.endswith` raise an `AttributeError` (`services/processor.py:47`, `:74`), which the `except (ValueError, KeyError)` does not catch, so it would take the failure path of lines 104-115 instead; `create_session` always stores a start time, so the model does not represent a NULL one.
- `websocket.accept()` failing is not modelled.
- The `"type"` member read from an incoming JSON message is never used by the source, so it is not modelled.
- The root HTML page, static file mounting and the uvicorn entry point serve files or start the server. They are not modelled.
- Console logging (`print`) is not modelled.
- The call to `validate_config` at import time of `main.py` is not modelled. `Config.ValidateConfig` states its outcome.
- The model name, temperature and token limits of the completion requests are not modelled. They only shape the remote call.
- Exceptions that escape a service method (the embedding failure in `query_knowledge_base`, the `ValueError` of `validate_config` and of an empty document) are returned as `Failure` values.
