# Realtime education assistant: a Dafny model of its client core

This project models the core of a voice assistant. A Chainlit chat app (`app.py`) talks to a realtime speech API through a websocket client (`realtime_client.py`). The speech model's tool calls are answered by four college-administration tools:
- course-material search;
- student mark summary;
- grievance status;
- grievance registration.

The tools are in `tools.py`, with an older copy in `functions.py`. Audio is carried as base64 text (`utils.py`).

The modules follow the source files:

- `Common`: bytes, options, and Python's `str()` of an integer.
- `Values`: Python/JSON values, exceptions, and Python's semantics for `v[k]`, `v[i]`, `v.get`, `str + v` and truthiness. Every failure the source would raise is an `Err`, not a precondition.
- `Base64`: the encoding of section 4 of RFC 4648, with its round trip.
- `Utils` (utils.py): `base64_to_array_buffer`, `array_buffer_to_base64` and `merge_int16_arrays`.
- `ToolFormat` (`tools.py` and `functions.py`): the code the two tool files share.
  - Keyword binding of `f(**kwargs)`.
  - The string building of each tool, with backend replies taken as inputs (`Backend`).
  - The search loop and the table-row loop, as methods proved equal to reference functions.
- `Tools` (tools.py):
  - the `tools_list` schemas and the `available_functions` table;
  - the mark-status tool as written and as intended;
  - the callable table the client holds, with the tool as written, and a second table with the intended tool.
- `Functions` (functions.py): its mark-status tool and its table, compared with tools.py.
- `RealtimeClient` (realtime_client.py):
  - `React` is a pure specification of one received message, with the tag dispatch table and the `response.done` tool-call path.
  - `Run` is the receive loop as a fold.
  - The class `RTWSClient` has the fields:
    - `ws`;
    - the `event_handlers` defaultdict;
    - a log of the frames sent;
    - a log of the handler calls `dispatch` makes.
  - Each method is proved to change those exactly as the specification functions say.
- `App` (app.py): a `HostSession` class holding the session state and a log of the calls made on the chat UI.
  - The session state is the realtime client, the audio track id, and the two `[id, text]` transcript slots.
  - It has the four handlers `init_rtclient` registers, and the gating of `on_message`, `on_audio_start`, `on_audio_chunk` and `on_end`.

Tools can fail without producing a reply:
- the search tool has no `try`;
- the tools.py mark-status tool raises on its error path (see Findings);
- an unreachable issue tracker or database calls `exit(1)`. That is a `SystemExit`, which the client's `except Exception` does not catch.

The model therefore keeps three tool outcomes: `Returned`, `Raised` and `ProcessExit`. `response.done` sends nothing back when a tool raises.

## Model

| member | source | states |
|---|---|---|
| Common.DecimalTextInjective | tools.py:121-126 | `str()` of an integer is one-to-one: equal renderings come from equal integers (proved by reading the digits back) |
| Common.ParseNatText | tools.py:125 | reading the decimal digits of `str(n)` back gives `n` |
| Common.DecimalTextSign | tools.py:125 | `str(i)` starts with a minus sign exactly when `i` is negative |
| Base64.Encode | utils.py:37 | the encoding has 4 characters per started group of 3 bytes, all from the alphabet or `=` |
| Base64.DecodeEncode | utils.py:14-37 | decoding the base64 encoding of any byte sequence gives back exactly those bytes (section 4 of RFC 4648) |
| Base64.EncodeInjective | utils.py:24-37 | distinct buffers never share a base64 text |
| Utils.Base64ToArrayBuffer | utils.py:14-21 | for a `str` argument: a uint8 array of exactly the decoded bytes, or an error exactly when the text is not valid base64; any argument other than `str` or `bytes` raises `TypeError` |
| Utils.ArrayBufferToBase64 | utils.py:24-37 | the text decodes to the raw bytes of an int16 or other non-float32 buffer, and to the `float_to_16bit_pcm` bytes of a float32 buffer |
| Utils.TransportRoundTrip | utils.py:14-37 | a uint8 buffer encoded and then decoded by the two helpers is the same buffer |
| Utils.MergeInt16Arrays | utils.py:40-55 | succeeds exactly when both operands are int16 ndarrays, giving their concatenation; otherwise `ValueError` |
| Utils.MergeSamples | utils.py:47-53 | the merged int16 samples are the left samples followed by the right ones, with the summed length |
| Utils.SamplesAppend | utils.py:53 | the samples of concatenated raw bytes are the concatenated samples |
| ToolFormat.BindArguments | realtime_client.py:230 | `f(**kwargs)` binds exactly when the keys are the parameter names, each argument in parameter order, else `TypeError` |
| ToolFormat.JoinAllAppend | tools.py:222-233 | accumulating pieces over two runs is accumulating each and concatenating; a failure in the first run is the failure of the whole |
| ToolFormat.JoinAllOk | tools.py:260-261 | the accumulation succeeds exactly when every piece does |
| ToolFormat.SearchContext | tools.py:217-237 | the `counter`/`break` loop computes exactly the joined contexts of the first two results |
| ToolFormat.SearchNoResults | tools.py:217-237 | zero results give the empty context |
| ToolFormat.SearchFirstTwo | tools.py:222-233 | for two results that each have a `title` and a string `chunk`, whatever else they hold, the context is the first chunk and then the second, each between the fixed markers |
| ToolFormat.SearchOne | tools.py:222-233 | a single such result gives its chunk between the markers |
| ToolFormat.SearchIgnoresLater | tools.py:231-233 | results after the second neither add text nor cause a failure |
| ToolFormat.SearchTool | tools.py:201-237 | a search backend failure propagates as an exception; a result among the first two without `title` or `chunk`, or with a non-string chunk, makes the tool raise that error; otherwise the tool returns the context |
| ToolFormat.TableRows | tools.py:258-263 | the `table_rows +=` loop over the cursor computes exactly one line per row, in cursor order, or the `IndexError` of a short row |
| ToolFormat.RowsTextOk | tools.py:260-261 | the rows text succeeds exactly when every row has all eight columns |
| ToolFormat.GrievanceJqlInjective | tools.py:121-126 | two integer grievance ids give the same query only if they are equal |
| ToolFormat.GrievanceToolQueriesId | tools.py:118-130 | with the tracker reachable, an integer id is queried as `project = <name> AND id = <decimal id>`, and the status text of that reply is returned |
| ToolFormat.GrievanceFound | tools.py:133-157 | a found issue is reported as id, priority, status and description in that order; the due-date line carries the due date when it is non-empty, else the fallback text |
| ToolFormat.GrievanceMissing | tools.py:158-159 | an empty issue list gives the fixed "could not locate" text |
| ToolFormat.GrievanceOutcomes | tools.py:129-166 | every reply ends in the retrieval apology, the "could not locate" text, or a report starting with the status introduction |
| ToolFormat.RegisterToolCreates | tools.py:169-183 | with the tracker reachable, the issue is created with the category as summary and the description as description |
| ToolFormat.RegistrationOutcomes | tools.py:183-198 | a created issue with a string id is acknowledged with that id between the fixed texts; any failure gives the registration apology |
| Tools.RegistryConsistent | tools.py:9-75 | every schema name in `tools_list` is a key of `available_functions` mapping to the function of that name, its `required` list is that function's parameters and its declared properties; every key has a schema |
| Tools.EntryConsistent | tools.py:274-279 | the consistency of one schema entry with its callable |
| Tools.ToolsListJson | tools.py:9-75 | the advertised JSON list has one entry per schema, each carrying the schema's name |
| Tools.MarkStatusErrorPathRaises | tools.py:246-271 | as written, once connected: the table when the query, every row and the cursor's iteration succeed, even if `close()` then fails; `UnboundLocalError` on every other failure; never the apology |
| Tools.MarkStatusSummaryOutcomes | tools.py:247-270 | the intended tool, once connected, never raises: header, separator and rows when everything succeeds, the apology otherwise |
| Tools.Registry | tools.py:274-279 | the callable table has exactly the names of `available_functions` |
| Tools.IntendedRegistry | tools.py:274-279 | the table with the corrected mark-status tool has the same names |
| Tools.IntendedRegistryAgrees | tools.py:201-279 | the two tables give the same result for every name but the mark-status tool, and for that one whenever its query succeeds throughout |
| Tools.RegistryCalls | tools.py:274-279 | looking a name up in either table and calling the result is a call of that tool, as written or as intended |
| Tools.MarkCall | tools.py:246-279 | a mark-status call keyed `user_name` runs the tool, as written or as intended, on that user's database session |
| Tools.CallChecksKeywords | realtime_client.py:228-230 | a keyword set other than the tool's parameters raises `TypeError` before the tool runs |
| Tools.GrievanceCall | tools.py:118-166 | a grievance-status call with an integer id through the table queries the tracker for that id |
| Tools.RegistryCoversSchemas | tools.py:9-75 | every advertised tool name resolves in the table the client calls through |
| Functions.MarkStatusSummaryOutcomes | functions.py:115-145 | this copy never raises and never ends the process: the table when connection, query, every row and close succeed, else the apology |
| Functions.AgreesWithTools | functions.py:115-145 | against tools.py as written: the same table when everything succeeds; when only `close()` fails functions.py apologises and tools.py returns the table; when the query, a row or the cursor fails functions.py apologises and tools.py raises `UnboundLocalError`; on a connection failure functions.py apologises and tools.py calls `exit(1)` |
| Functions.AgreesWithIntendedTools | functions.py:115-145 | against the intended tools.py tool: the copies agree whenever the database is reachable, and differ only on a connection failure |
| Functions.CallAgreesWithTools | functions.py:8-113 | the search, grievance-status and registration calls of functions.py behave exactly as those of tools.py |
| Functions.MarkStatusCallNeverRaises | functions.py:169-174 | a correctly keyed mark-status call through this table always returns a string |
| RealtimeClient.SessionConfigContents | realtime_client.py:29-47 | the session configuration carries the system prompt, the tools of `tools_list` and automatic tool choice |
| RealtimeClient.SendPayload | realtime_client.py:102-104 | falsy data becomes `{}`; truthy data that is not a dict raises; a dict is used as given |
| RealtimeClient.OutboundFrame | realtime_client.py:96-106 | `send` raises when disconnected and for truthy non-dict data; its frame otherwise holds every field of `data`, and `event_id` and `type` wherever `data` does not override them |
| RealtimeClient.OneFieldFrame | realtime_client.py:105 | a frame with one field of the client's own holds exactly that field, `event_id` and `type` |
| RealtimeClient.CommittedRequestsResponse | realtime_client.py:167-170 | `input_audio_buffer.committed` sends exactly one `response.create` with the response configuration and dispatches nothing |
| RealtimeClient.SpeechStartedInterrupts | realtime_client.py:171-176 | `speech_started` sends nothing and dispatches one `conversation.interrupted` |
| RealtimeClient.TranscriptDeltaRelayed | realtime_client.py:177-184 | a transcript delta is relayed as `conversation.text.delta` with its text and item id; a missing field raises `KeyError` and ends the loop |
| RealtimeClient.InputTranscriptRelayed | realtime_client.py:185-193 | a completed input transcription is relayed as `conversation.input.text.done` with the transcript; a missing one ends the loop |
| RealtimeClient.AudioDeltaRelayed | realtime_client.py:154-162 | an audio delta is relayed as `conversation.updated` carrying exactly the decoded bytes; invalid base64 ends the loop |
| RealtimeClient.AudioDoneRelayed | realtime_client.py:163-166 | `response.audio.done` is relayed as `conversation.updated` carrying the event itself |
| RealtimeClient.OtherTypesIgnored | realtime_client.py:151-153 | `error` and every unknown type send nothing and dispatch nothing |
| RealtimeClient.UntypedEventCrashes | realtime_client.py:148-151 | a message that is not a dict with a `type` ends the loop without sending or dispatching |
| RealtimeClient.CallRequestRead | realtime_client.py:200-226 | the `.get` chain of a completed function call reads the name, the decoded arguments and the call id of the first output item, with `None` for absent fields |
| RealtimeClient.ToolCallReplies | realtime_client.py:194-249 | a completed function call naming a tool, with dict arguments and a returned result, sends exactly the `function_call_output` item with the same call id and the JSON text of the result, then one `response.create` |
| RealtimeClient.ResponseDoneOnlyReplies | realtime_client.py:200-253 | `response.done` never dispatches, and only a tool's `exit` ends the loop; it sends something only on the tool-call path with a returned result, and then exactly those two frames |
| RealtimeClient.GrievanceCallAnswered | realtime_client.py:228-249 | end to end with the tools.py table: a grievance-status call with an integer id is answered with the status text for that id |
| RealtimeClient.FailingMarkQuerySilent | realtime_client.py:228-253 | end to end with the tools.py table as written: a mark-status call whose query, rows or cursor fail sends nothing, dispatches nothing and does not end the loop |
| RealtimeClient.IntendedMarkFailureAnswered | realtime_client.py:228-249 | with the intended table the same failing call is answered with the apology, then `response.create` |
| RealtimeClient.ReactToSent | realtime_client.py:154-256 | the frames one event sends: the `response.create` of a commit when connected, the tool reply of `response.done`, and none for any other type |
| RealtimeClient.SendsOnlyOnCommitOrDone | realtime_client.py:148-256 | only `input_audio_buffer.committed` and `response.done` make the client send |
| RealtimeClient.RepliesOnly | realtime_client.py:148-256 | every frame sent while handling a message is a `response.create` or a `conversation.item.create` |
| RealtimeClient.RunStops | realtime_client.py:148 | nothing after the message that ends the loop is handled |
| RealtimeClient.RunRepliesOnly | realtime_client.py:148-256 | every frame the receive loop sends is a `response.create` or a `conversation.item.create` |
| RealtimeClient.RunDisconnectedSilent | realtime_client.py:100-101 | a loop whose client is disconnected sends nothing |
| RealtimeClient.Deliveries | realtime_client.py:57-61 | dispatch calls every handler of the list, in order, each with the same event |
| RealtimeClient.FanoutAppend | realtime_client.py:57-61 | the handler calls for two batches of dispatched events are the calls for each batch, in order |
| RealtimeClient.FanoutSameHandlers | realtime_client.py:57 | dispatch reads the table only through its handler lists |
| RealtimeClient.TouchAllKeepsHandlers | realtime_client.py:28-57 | the defaultdict insertions made by `dispatch` change no handler list |
| RealtimeClient.LogsStep | realtime_client.py:57-61 | dispatching two batches in turn makes the same calls and insertions as dispatching them together |
| RealtimeClient.AudioTextDecodes | realtime_client.py:271-277 | the audio sent for a chunk decodes to the chunk's bytes exactly |
| RealtimeClient.RTWSClient.constructor | realtime_client.py:25-48 | a new client is disconnected with an empty handler table and the session and response configurations |
| RealtimeClient.RTWSClient.On | realtime_client.py:50-51 | appends the handler to that name's list and changes no other list |
| RealtimeClient.RTWSClient.Dispatch | realtime_client.py:53-61 | the call log grows by every handler under the name, in registration order, with the event; the name gets an empty list if it had none |
| RealtimeClient.RTWSClient.Send | realtime_client.py:96-106 | appends exactly the frame `Outbound` defines, or raises and appends nothing |
| RealtimeClient.RTWSClient.UpdateSession | realtime_client.py:133-139 | sends one `session.update` with the session configuration when connected, nothing otherwise |
| RealtimeClient.RTWSClient.Connect | realtime_client.py:69-84 | a successful handshake leaves the client connected (replacing any old socket) and sends `session.update`; a failed one raises and changes nothing |
| RealtimeClient.RTWSClient.Disconnect | realtime_client.py:86-91 | afterwards the client is disconnected; nothing is sent or dispatched |
| RealtimeClient.RTWSClient.SendUserMessageContent | realtime_client.py:108-131 | empty content does nothing; otherwise, when connected, the user message item and then `response.create` are sent and one `conversation.interrupted` is dispatched; when disconnected it raises before anything |
| RealtimeClient.RTWSClient.AppendInputAudio | realtime_client.py:261-277 | an empty buffer sends nothing; otherwise exactly one `input_audio_buffer.append` with the base64 of the buffer's bytes |
| RealtimeClient.RTWSClient.Relay | realtime_client.py:154-193 | one dispatch of the loop adds exactly the calls and the defaultdict insertion the fold over published events records |
| RealtimeClient.RTWSClient.SendToolReply | realtime_client.py:236-249 | sends the `function_call_output` item and then `response.create`, stopping quietly when a send fails |
| RealtimeClient.RTWSClient.HandleResponseDone | realtime_client.py:194-253 | the frames sent and the outcome are exactly those of the `response.done` specification |
| RealtimeClient.RTWSClient.HandleCommitted | realtime_client.py:167-170 | sends exactly the `response.create` of a commit, or ends the loop with the exception of a failing `send` |
| RealtimeClient.RTWSClient.HandleAudioDelta | realtime_client.py:154-162 | relays exactly the decoded audio bytes, or ends the loop on a missing field or invalid base64 |
| RealtimeClient.RTWSClient.HandleTranscriptDelta | realtime_client.py:177-184 | relays exactly the transcript delta and its item id, or ends the loop on a missing field |
| RealtimeClient.RTWSClient.HandleInputTranscriptDone | realtime_client.py:185-193 | relays exactly the completed input transcript, or ends the loop on a missing field |
| RealtimeClient.RTWSClient.HandleEvent | realtime_client.py:150-256 | the frames, dispatched calls, handler table and outcome for a decoded event are those `ReactTo` specifies |
| RealtimeClient.RTWSClient.HandleMessage | realtime_client.py:149-256 | the frames, dispatched calls and handler table are those `React` specifies for the message, and undecodable text ends the loop |
| RealtimeClient.RTWSClient.Receive | realtime_client.py:141-256 | the loop's frames, calls, handler table and stop are those of the fold `Run` over the messages; a client without a socket fails at once |
| App.HostRouting | app.py:86-91 | with the host's table, each client event reaches exactly its one handler, and other names reach none |
| App.PlusValue | app.py:39 | `text + delta` as Python's `+`: two strings, lists or byte strings concatenate, two ints or bools add as integers, a float with a number adds as a float, and every other pair raises `TypeError` |
| App.EmptyDeltasKeep | app.py:32-33 | empty deltas leave the transcript slot unchanged |
| App.NewItemDeltas | app.py:38-65 | a run of deltas for a new item leaves the slot holding that item and the concatenation of the deltas, in arrival order |
| App.SameItemDeltas | app.py:38-41 | deltas for the item already in the slot append to its text |
| App.HostSession.constructor | app.py:7-11 | a chat before `init_rtclient` has no client and no UI calls |
| App.HostSession.InitRtClient | app.py:7-92 | a new disconnected client holding exactly the four handlers, the tools.py table as written, the given clock, codec and `float_to_16bit_pcm`; a fresh track id, and the slots `["1","-"]` and `["1",""]` |
| App.HostSession.RegisterHandlers | app.py:86-91 | the four `on` calls give the handler table one handler per event name |
| App.HostSession.HandleConversationUpdated | app.py:13-21 | truthy `audio` is played on the current track and nothing else happens; a non-dict event raises |
| App.HostSession.HandleConversationInterrupt | app.py:23-27 | the track id becomes a fresh one and playback is interrupted |
| App.HostSession.HandleConversationThreadUpdated | app.py:29-71 | an empty delta changes nothing; the same item id appends to the slot and updates its message; a new item id replaces the slot's text, resets the user-input slot to a fresh id, and sends the placeholder and the assistant message |
| App.HostSession.HandleUserInputTranscriptDone | app.py:73-84 | the message with the placeholder id gets the transcript, then the slot gets a fresh id with empty text |
| App.HostSession.Deliver | app.py:86-91 | an invocation has exactly the effect of the handler it names, as that handler's own contract states it, and an unknown handler changes nothing |
| App.HostSession.OnMessage | app.py:115-125 | typed text is forwarded as one `input_text` content list only when connected, with the one `conversation.interrupted` dispatch and its key insertion; otherwise only the voice-mode warning is shown and the client is untouched; the socket and clock never change |
| App.HostSession.OnAudioStart | app.py:128-139 | answers true exactly when a client exists and the handshake succeeds, and then the client holds the new socket and has sent exactly one `session.update`; any failure is reported in the chat and leaves socket and frames alone; nothing is dispatched and the handler table and clock are unchanged |
| App.HostSession.OnAudioChunk | app.py:142-155 | a chunk is sent as one `input_audio_buffer.append` only when a client is connected; nothing is dispatched, and the socket, handler table and clock are unchanged |
| App.HostSession.OnEnd | app.py:159-166 | afterwards the client is disconnected; nothing is sent or dispatched, and the handler table, the clock and the session are unchanged; a disconnected client is left alone |

## Left out

- The websocket transport, `asyncio` and task scheduling are not modelled:
  - The socket is a list of the frames sent, plus the messages the host feeds to `Receive`.
  - `connect` starts `receive` as a task; in the model the host calls `Receive` itself.
  - Coroutine handlers run as `create_task` rather than inline. The model records each call in order and does not tell the two apart, so the `inspect.iscoroutinefunction` split is not modelled.
- The websocket URL, the headers and `envconfig.py` only read configuration; `envconfig.py` is not part of this model.
- `json.loads` and `json.dumps` are parameters. A frame is the dict handed to `json.dumps`, and `json.loads` of `bytes` arguments is not modelled.
- RealtimeClient.EventId: the id is built from a clock reading the host supplies, and no uniqueness is claimed, since two sends in one millisecond collide. The clock does not move during one call: all frames one `Receive` run or one `SendUserMessageContent` call sends share one id, where `_generate_id` reads the clock at every send.
- `float_to_16bit_pcm` (floating-point clipping and casting) is the parameter `pcm16Of`.
- Base64.Decode: strict. Python's `b64decode` without `validate=True` silently discards non-alphabet characters, skips a misplaced `=` before the third character of a group (`"=QUJD"` decodes to `b"ABC"`), and ignores data after a complete padded group (`"QQ==QQ=="` decodes to `b"A"`); the model rejects all three.
- `close()` is not modelled: it closes the socket without clearing `ws`.
- Logging, `print`, `traceback`, and the welcome message of `start()` are not modelled.
- App.PlusValue: a `float` is a Dafny `real`, so float addition is exact and does not round.
- The session's `[id, text]` slots compare ids with structural equality. Python's `==` across `int` and `float` (`1 == 1.0`) is not modelled.
- Each `except` handler in the tools logs `e.args[0]`, which raises again for an exception without arguments. The model assumes every exception carries a message.
- ToolFormat.PyStr: `str()` of floats, lists and dicts is the parameter `strOf`; only integers, strings, booleans and `None` are rendered by the model.
- The search service, the SQL database and the issue tracker are inputs (`Backend`):
  - search results;
  - the outcome of connecting, executing, iterating rows and closing;
  - whether the tracker is reachable, and its replies.
- `init_jira_connection` and `init_database_connection` are modelled only by their outcome: `exit(1)` when unreachable.
- `uuid4()` is a fresh id the caller passes in.
- Chainlit's UI is a log of the calls made on it (`UiEffect`), and its message rendering is not modelled.
- `on_audio_chunk`'s `except` branch is not modelled: a send from a connected client cannot fail in the model.

## Findings

| source | as written | input that shows it | evidently intended | confidence | as-written member | corrected member |
|---|---|---|---|---|---|---|
| tools.py:246-271 | the `except` branch sets `response_message` to the apology, but the function returns `markdown_table`, which is unbound when the failure came before line 263 | a database that connects but whose `cursor.execute` raises (`DbOutcome(connects := true, executes := false, ...)`) makes the tool raise `UnboundLocalError`; the client then sends no `function_call_output` (RealtimeClient.FailingMarkQuerySilent) | return the apology on any exception inside the `try`, as functions.py:142-145 does | not executed | Tools.MarkStatusSummaryAsWritten (Tools.MarkStatusErrorPathRaises) | Tools.MarkStatusSummary (Tools.MarkStatusSummaryOutcomes), used by Tools.IntendedRegistry and RealtimeClient.IntendedMarkFailureAnswered |
