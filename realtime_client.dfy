/**
 * realtime_client.py: `RTWSClient`, the client of the realtime speech API.
 *
 * The websocket is modelled by a log of the frames the client sends (each frame
 * the dict handed to `json.dumps`) and the host side by a log of handler
 * invocations. The per-message body of `receive` is specified by the pure
 * function `React`, and the receive loop by the fold `Run`; the class's
 * methods are proved to change the two logs exactly as those functions say.
 */
module RealtimeClient {
  import opened Common
  import opened Values
  import Utils
  import Base64
  import ToolFormat
  import Tools

  /** An outbound frame: the dict one `send` serialises. */
  type Frame = map<string, Value>

  /** `json.loads` on text and `json.dumps` of a `str`, given as parameters. */
  datatype JsonCodec = JsonCodec(loads: string -> Option<Value>, dumps: string -> string)

  /** The tool table: a tool name to the call `function_to_call(**arguments)`. */
  type ToolTable = map<string, map<string, Value> -> ToolResult>

  /** A host callback, identified by name. */
  datatype Handler = Handler(name: string)

  /** One call of a registered handler with an event. */
  datatype Invocation = Invocation(handler: Handler, event: Value)

  /** A `dispatch(event_name, event)` the receive loop asks for. */
  datatype Publish = Publish(eventName: string, event: Value)

  /** Why the receive loop ended: an uncaught exception, or `exit(status)` inside a tool. */
  datatype Stop = Crashed(exc: Exc) | Exited(status: int)

  /** The outcome of a command that may raise. */
  datatype Status = Done | Failed(exc: Exc)

  /** The handle of an open websocket. */
  datatype Socket = Socket(id: nat)

  // ---------------------------------------------------------------------------
  // Event and frame names

  const AudioDelta := "response.audio.delta"
  const AudioDone := "response.audio.done"
  const Committed := "input_audio_buffer.committed"
  const SpeechStarted := "input_audio_buffer.speech_started"
  const TranscriptDelta := "response.audio_transcript.delta"
  const InputTranscriptDone := "conversation.item.input_audio_transcription.completed"
  const ResponseDoneType := "response.done"

  const ConversationUpdated := "conversation.updated"
  const ConversationInterrupted := "conversation.interrupted"
  const ConversationTextDelta := "conversation.text.delta"
  const ConversationInputTextDone := "conversation.input.text.done"

  const ItemCreate := "conversation.item.create"
  const ResponseCreate := "response.create"
  const SessionUpdate := "session.update"
  const AudioAppend := "input_audio_buffer.append"

  predicate HandledType(t: Value) {
    t in {Str(AudioDelta), Str(AudioDone), Str(Committed), Str(SpeechStarted),
          Str(TranscriptDelta), Str(InputTranscriptDone), Str(ResponseDoneType)}
  }

  // ---------------------------------------------------------------------------
  // Configuration

  /** `session_config`. */
  function SessionConfig(systemPrompt: string): Value {
    Object(map[
      "modalities" := List([Str("text"), Str("audio")]),
      "instructions" := Str(systemPrompt),
      "voice" := Str("shimmer"),
      "input_audio_format" := Str("pcm16"),
      "output_audio_format" := Str("pcm16"),
      "input_audio_transcription" := Object(map["model" := Str("whisper-1")]),
      "turn_detection" := Object(map[
        "type" := Str("server_vad"),
        "threshold" := Real(0.5),
        "prefix_padding_ms" := Int(300),
        "silence_duration_ms" := Int(500)]),
      "tools" := List(Tools.ToolsListJson()),
      "tool_choice" := Str("auto"),
      "temperature" := Real(0.8),
      "max_response_output_tokens" := Int(4096)])
  }

  /** `response_config`. */
  function ResponseConfig(): Value {
    Object(map["modalities" := List([Str("text"), Str("audio")])])
  }

  /** The session configuration carries the system prompt and the tools of tools.py. */
  lemma SessionConfigContents(systemPrompt: string)
    ensures Subscript(SessionConfig(systemPrompt), "instructions") == Ok(Str(systemPrompt))
    ensures Subscript(SessionConfig(systemPrompt), "tools") == Ok(List(Tools.ToolsListJson()))
    ensures Subscript(SessionConfig(systemPrompt), "tool_choice") == Ok(Str("auto"))
  {
  }

  // ---------------------------------------------------------------------------
  // send

  /** `_generate_id("evt_")` for a clock reading in milliseconds. */
  function EventId(clock: int): string {
    "evt_" + DecimalText(clock)
  }

  /** `data or {}` followed by the dict check. */
  function SendPayload(data: Value): (r: Result<map<string, Value>>)
    ensures !Truthy(data) ==> r == Ok(map[])
    ensures Truthy(data) ==> (r.Ok? <==> data.Object?)
    ensures Truthy(data) && data.Object? ==> r.value == data.fields
    ensures r.Err? ==> r.exc == NotADictionary
  {
    if !Truthy(data) then Ok(map[])
    else if data.Object? then Ok(data.fields)
    else Err(NotADictionary)
  }

  /** `{"event_id": ..., "type": event_name, **data}`: the fields of `data` come last and win. */
  function Envelope(eventId: string, eventName: string, fields: map<string, Value>): Frame {
    map["event_id" := Str(eventId), "type" := Str(eventName)] + fields
  }

  /** The frame one `send(event_name, data)` puts on the wire, or what it raises. */
  function Outbound(connected: bool, eventId: string, eventName: string, data: Value): Result<Frame> {
    if !connected then Err(NotConnected)
    else
      var fields :- SendPayload(data);
      Ok(Envelope(eventId, eventName, fields))
  }

  /**
   * `send` raises when disconnected and when `data` is truthy but not a dict;
   * otherwise its frame holds every field of `data`, and `event_id` and `type`
   * wherever `data` does not give them.
   */
  lemma OutboundFrame(connected: bool, eventId: string, eventName: string, data: Value)
    ensures !connected ==> Outbound(connected, eventId, eventName, data) == Err(NotConnected)
    ensures connected && Truthy(data) && !data.Object? ==>
      Outbound(connected, eventId, eventName, data) == Err(NotADictionary)
    ensures connected && (data.Object? || !Truthy(data)) ==>
      var f := Outbound(connected, eventId, eventName, data);
      var fields := if data.Object? then data.fields else map[];
      && f.Ok?
      && f.value.Keys == {"event_id", "type"} + fields.Keys
      && (forall k :: k in fields ==> f.value[k] == fields[k])
      && ("type" !in fields ==> f.value["type"] == Str(eventName))
      && ("event_id" !in fields ==> f.value["event_id"] == Str(eventId))
  {
  }

  /** The frames the client builds itself. */
  function ResponseCreateData(): Value {
    Object(map["response" := ResponseConfig()])
  }

  function InterruptEvent(): Value {
    Object(map["type" := Str("conversation_interrupted")])
  }

  function UserMessageData(content: Value): Value {
    Object(map["item" := Object(map["type" := Str("message"), "role" := Str("user"), "content" := content])])
  }

  function FunctionOutputData(callId: Value, output: string): Value {
    Object(map["item" := Object(map["type" := Str("function_call_output"), "call_id" := callId, "output" := Str(output)])])
  }

  function AudioAppendData(audio: string): Value {
    Object(map["audio" := Str(audio)])
  }

  /**
   * A frame with one field of the client's own: that field beside `event_id`
   * and `type`, since it is neither of them.
   */
  lemma OneFieldFrame(eventId: string, eventName: string, key: string, v: Value)
    requires key != "event_id" && key != "type"
    ensures Outbound(true, eventId, eventName, Object(map[key := v])) ==
      Ok(map["event_id" := Str(eventId), "type" := Str(eventName), key := v])
  {
    assert key in map[key := v];
    assert SendPayload(Object(map[key := v])) == Ok(map[key := v]);
    var lhs := Envelope(eventId, eventName, map[key := v]);
    var rhs := map["event_id" := Str(eventId), "type" := Str(eventName), key := v];
    assert lhs.Keys == rhs.Keys;
    assert forall k | k in lhs :: lhs[k] == rhs[k];
    assert lhs == rhs;
    assert Outbound(true, eventId, eventName, Object(map[key := v])) == Ok(lhs);
  }

  // ---------------------------------------------------------------------------
  // One received message

  /** What the receive loop knows while it handles a message. */
  datatype Context = Context(connected: bool, eventId: string, tools: ToolTable, codec: JsonCodec)

  /** The frames sent, the dispatches requested and, if the loop ends, why. */
  datatype Reaction = Reaction(sent: seq<Frame>, published: seq<Publish>, stop: Option<Stop>)

  function Quiet(): Reaction {
    Reaction([], [], None)
  }

  function Crash(e: Exc): Reaction {
    Reaction([], [], Some(Crashed(e)))
  }

  function Publishes(p: Publish): Reaction {
    Reaction([], [p], None)
  }

  /** The function call a `response.done` event asks for. */
  datatype CallRequest = CallRequest(name: Value, arguments: Value, callId: Value)

  /** `json.loads` of the `arguments` field: only a `str` is accepted. */
  function LoadArguments(text: Value, codec: JsonCodec): (r: Result<Value>)
    ensures !text.Str? ==> r == Err(TypeError)
  {
    match text
    case Str(s) =>
      (match codec.loads(s)
       case None => Err(JsonDecodeError)
       case Some(v) => Ok(v))
    case _ => Err(TypeError)
  }

  /**
   * The chain of `.get` calls inside the `try` of the `response.done` branch:
   * None when the status is not `"completed"` or the first output item is not
   * a function call, an exception when a step fails.
   */
  function CallRequestOf(event: Value, codec: JsonCodec): Result<Option<CallRequest>> {
    var response :- Get(event, "response", Object(map[]));
    var status :- Get(response, "status", Null);
    if status != Str("completed") then Ok(None)
    else
      var output :- Get(response, "output", List([Object(map[])]));
      var first :- Index(output, 0);
      var outputType :- Get(first, "type", Null);
      if outputType != Str("function_call") then Ok(None)
      else
        var name :- Get(first, "name", Null);
        var argText :- Get(first, "arguments", Null);
        var arguments :- LoadArguments(argText, codec);
        var callId :- Get(first, "call_id", Null);
        Ok(Some(CallRequest(name, arguments, callId)))
  }

  /**
   * The `try` of the `response.done` branch. Every `Exception` is caught and
   * ends the branch with nothing sent; only the `SystemExit` of a tool's
   * `exit(status)` gets through.
   */
  function ResponseDone(event: Value, ctx: Context): Reaction {
    match CallRequestOf(event, ctx.codec)
    case Err(_) => Quiet()
    case Ok(None) => Quiet()
    case Ok(Some(req)) =>
      if !(req.name.Str? && req.name.s in ctx.tools) then Quiet()  // KeyError or TypeError
      else if !req.arguments.Object? then Quiet()                    // `**` needs a mapping
      else
        match ctx.tools[req.name.s](req.arguments.fields)
        case Raised(_) => Quiet()
        case ProcessExit(status) => Reaction([], [], Some(Exited(status)))
        case Returned(text) => ToolReply(req.callId, text, ctx)
  }

  /** The two sends that answer a tool call: the `function_call_output` item, then `response.create`. */
  function ToolReply(callId: Value, text: string, ctx: Context): Reaction {
    match Outbound(ctx.connected, ctx.eventId, ItemCreate, FunctionOutputData(callId, ctx.codec.dumps(text)))
    case Err(_) => Quiet()
    case Ok(item) =>
      match Outbound(ctx.connected, ctx.eventId, ResponseCreate, ResponseCreateData())
      case Err(_) => Reaction([item], [], None)
      case Ok(create) => Reaction([item, create], [], None)
  }

  /** `response.audio.delta`: the base64 audio is decoded and its bytes relayed. */
  function AudioDeltaReaction(event: Value): Reaction {
    match Subscript(event, "delta")
    case Err(e) => Crash(e)
    case Ok(delta) =>
      match Utils.Base64ToArrayBuffer(delta)
      case Err(e) => Crash(e)
      case Ok(buffer) => Publishes(Publish(ConversationUpdated, Object(map["audio" := Bytes(buffer.raw)])))
  }

  /** `input_audio_buffer.committed`: the server is asked to respond. */
  function CommitReaction(ctx: Context): Reaction {
    match Outbound(ctx.connected, ctx.eventId, ResponseCreate, ResponseCreateData())
    case Err(e) => Crash(e)
    case Ok(frame) => Reaction([frame], [], None)
  }

  /** `response.audio_transcript.delta`: the text and its item id are relayed. */
  function TranscriptDeltaReaction(event: Value): Reaction {
    match Subscript(event, "delta")
    case Err(e) => Crash(e)
    case Ok(delta) =>
      match Subscript(event, "item_id")
      case Err(e) => Crash(e)
      case Ok(itemId) => Publishes(Publish(ConversationTextDelta, Object(map["transcript" := delta, "item_id" := itemId])))
  }

  /** `conversation.item.input_audio_transcription.completed`: the transcript is relayed. */
  function InputTranscriptReaction(event: Value): Reaction {
    match Subscript(event, "transcript")
    case Err(e) => Crash(e)
    case Ok(transcript) => Publishes(Publish(ConversationInputTextDone, Object(map["transcript" := transcript])))
  }

  /** The body of the `async for` loop for one decoded event: the `if`/`elif` chain on its type. */
  function ReactTo(event: Value, ctx: Context): Reaction {
    match Subscript(event, "type")
    case Err(e) => Crash(e)
    case Ok(t) =>
      if t == Str(AudioDelta) then AudioDeltaReaction(event)
      else if t == Str(AudioDone) then Publishes(Publish(ConversationUpdated, event))
      else if t == Str(Committed) then CommitReaction(ctx)
      else if t == Str(SpeechStarted) then Publishes(Publish(ConversationInterrupted, InterruptEvent()))
      else if t == Str(TranscriptDelta) then TranscriptDeltaReaction(event)
      else if t == Str(InputTranscriptDone) then InputTranscriptReaction(event)
      else if t == Str(ResponseDoneType) then ResponseDone(event, ctx)
      else Quiet()
  }

  /** One message of the loop: `json.loads(message)`, then the dispatch table. */
  function React(message: string, ctx: Context): Reaction {
    match ctx.codec.loads(message)
    case None => Crash(JsonDecodeError)
    case Some(event) => ReactTo(event, ctx)
  }

  // The rows of the dispatch table

  lemma CommittedRequestsResponse(event: Value, ctx: Context)
    requires Subscript(event, "type") == Ok(Str(Committed))
    ensures ctx.connected ==>
      ReactTo(event, ctx) == Reaction([map["event_id" := Str(ctx.eventId), "type" := Str(ResponseCreate), "response" := ResponseConfig()]], [], None)
    ensures !ctx.connected ==> ReactTo(event, ctx) == Crash(NotConnected)
  {
    OneFieldFrame(ctx.eventId, ResponseCreate, "response", ResponseConfig());
  }

  lemma SpeechStartedInterrupts(event: Value, ctx: Context)
    requires Subscript(event, "type") == Ok(Str(SpeechStarted))
    ensures ReactTo(event, ctx) ==
      Reaction([], [Publish(ConversationInterrupted, Object(map["type" := Str("conversation_interrupted")]))], None)
  {
  }

  /** A transcript delta is relayed with its text and item id; a missing field ends the loop. */
  lemma TranscriptDeltaRelayed(event: Value, ctx: Context)
    requires Subscript(event, "type") == Ok(Str(TranscriptDelta))
    ensures var f := event.fields;
      "delta" in f && "item_id" in f ==>
        ReactTo(event, ctx) == Reaction([], [Publish(ConversationTextDelta, Object(map["transcript" := f["delta"], "item_id" := f["item_id"]]))], None)
    ensures "delta" !in event.fields || "item_id" !in event.fields ==> ReactTo(event, ctx) == Crash(KeyError)
  {
  }

  lemma InputTranscriptRelayed(event: Value, ctx: Context)
    requires Subscript(event, "type") == Ok(Str(InputTranscriptDone))
    ensures "transcript" in event.fields ==>
      ReactTo(event, ctx) == Reaction([], [Publish(ConversationInputTextDone, Object(map["transcript" := event.fields["transcript"]]))], None)
    ensures "transcript" !in event.fields ==> ReactTo(event, ctx) == Crash(KeyError)
  {
  }

  /** An audio delta is relayed as the bytes its base64 text decodes to; bad text ends the loop. */
  lemma AudioDeltaRelayed(event: Value, ctx: Context, text: string)
    requires Subscript(event, "type") == Ok(Str(AudioDelta))
    requires Subscript(event, "delta") == Ok(Str(text))
    ensures Base64.Decode(text).Some? ==>
      ReactTo(event, ctx) == Reaction([], [Publish(ConversationUpdated, Object(map["audio" := Bytes(Base64.Decode(text).value)]))], None)
    ensures Base64.Decode(text).None? ==> ReactTo(event, ctx) == Crash(Base64Error)
  {
  }

  lemma AudioDoneRelayed(event: Value, ctx: Context)
    requires Subscript(event, "type") == Ok(Str(AudioDone))
    ensures ReactTo(event, ctx) == Reaction([], [Publish(ConversationUpdated, event)], None)
  {
  }

  /** `error` and every unknown type are ignored. */
  lemma OtherTypesIgnored(event: Value, ctx: Context, t: Value)
    requires Subscript(event, "type") == Ok(t)
    requires !HandledType(t)
    ensures ReactTo(event, ctx) == Quiet()
  {
  }

  /** An event that is not a dict with a `type` ends the loop. */
  lemma UntypedEventCrashes(event: Value, ctx: Context)
    requires !(event.Object? && "type" in event.fields)
    ensures ReactTo(event, ctx).stop.Some? && ReactTo(event, ctx).sent == [] && ReactTo(event, ctx).published == []
  {
  }

  // The function-call path

  /** The request read from a well-formed function call event. */
  lemma CallRequestRead(event: Value, codec: JsonCodec, response: Value, output: Value, first: Value, argText: string)
    requires Subscript(event, "response") == Ok(response)
    requires Subscript(response, "status") == Ok(Str("completed"))
    requires Subscript(response, "output") == Ok(output)
    requires Index(output, 0) == Ok(first)
    requires Subscript(first, "type") == Ok(Str("function_call"))
    requires Subscript(first, "arguments") == Ok(Str(argText))
    requires codec.loads(argText).Some?
    ensures CallRequestOf(event, codec) == Ok(Some(CallRequest(
      if "name" in first.fields then first.fields["name"] else Null,
      codec.loads(argText).value,
      if "call_id" in first.fields then first.fields["call_id"] else Null)))
  {
  }

  /**
   * The tool-call path, forwards: a completed function call naming a tool in
   * the table, with dict arguments, whose tool returns `text`, sends the
   * `function_call_output` item with the same `call_id` and the JSON text of
   * the result, then one `response.create`.
   */
  lemma ToolCallReplies(event: Value, ctx: Context, name: string, arguments: map<string, Value>, callId: Value, text: string)
    requires ctx.connected
    requires CallRequestOf(event, ctx.codec) == Ok(Some(CallRequest(Str(name), Object(arguments), callId)))
    requires name in ctx.tools && ctx.tools[name](arguments) == Returned(text)
    ensures ResponseDone(event, ctx) == Reaction([
      map["event_id" := Str(ctx.eventId), "type" := Str(ItemCreate),
          "item" := Object(map["type" := Str("function_call_output"), "call_id" := callId, "output" := Str(ctx.codec.dumps(text))])],
      map["event_id" := Str(ctx.eventId), "type" := Str(ResponseCreate), "response" := ResponseConfig()]], [], None)
  {
    OneFieldFrame(ctx.eventId, ItemCreate, "item", FunctionOutputData(callId, ctx.codec.dumps(text)).fields["item"]);
    OneFieldFrame(ctx.eventId, ResponseCreate, "response", ResponseConfig());
  }

  /**
   * The tool-call path, backwards: `response.done` sends something only along
   * that path, and then exactly those two frames; it never dispatches to the
   * host and no exception ends the loop, only a tool's `exit`.
   */
  lemma ResponseDoneOnlyReplies(event: Value, ctx: Context)
    ensures ResponseDone(event, ctx).published == []
    ensures ResponseDone(event, ctx).stop.None? || ResponseDone(event, ctx).stop.value.Exited?
    ensures ResponseDone(event, ctx).sent != [] ==>
      var req := CallRequestOf(event, ctx.codec);
      && ctx.connected
      && req.Ok? && req.value.Some?
      && req.value.value.name.Str? && req.value.value.name.s in ctx.tools
      && req.value.value.arguments.Object?
      && var result := ctx.tools[req.value.value.name.s](req.value.value.arguments.fields);
      && result.Returned?
      && ResponseDone(event, ctx).sent == [
           Envelope(ctx.eventId, ItemCreate, FunctionOutputData(req.value.value.callId, ctx.codec.dumps(result.text)).fields),
           Envelope(ctx.eventId, ResponseCreate, ResponseCreateData().fields)]
  {
    var req := CallRequestOf(event, ctx.codec);
    if req.Ok? && req.value.Some? {
      if req.value.value.name.Str? && req.value.value.name.s in ctx.tools && req.value.value.arguments.Object? {
        var result := ctx.tools[req.value.value.name.s](req.value.value.arguments.fields);
        if result.Returned? {
          ToolReplyFrames(req.value.value.callId, result.text, ctx);
        }
      }
    }
  }

  /** The tool reply never dispatches or stops, and sends something only when connected, then both frames. */
  lemma ToolReplyFrames(callId: Value, text: string, ctx: Context)
    ensures ToolReply(callId, text, ctx).published == [] && ToolReply(callId, text, ctx).stop.None?
    ensures ToolReply(callId, text, ctx).sent != [] ==>
      && ctx.connected
      && ToolReply(callId, text, ctx).sent == [
           Envelope(ctx.eventId, ItemCreate, FunctionOutputData(callId, ctx.codec.dumps(text)).fields),
           Envelope(ctx.eventId, ResponseCreate, ResponseCreateData().fields)]
  {
    if ctx.connected {
      var data := FunctionOutputData(callId, ctx.codec.dumps(text));
      OneFieldFrame(ctx.eventId, ItemCreate, "item", data.fields["item"]);
      OneFieldFrame(ctx.eventId, ResponseCreate, "response", ResponseConfig());
    }
  }


  /**
   * End to end with the tools.py table: a completed call of
   * `get_grievance_status_def` with an integer id answers the model with the
   * status text for that id.
   */
  lemma GrievanceCallAnswered(event: Value, ctx: Context, env: ToolFormat.Backend, id: int, callId: Value)
    requires ctx.connected && ctx.tools == Tools.Registry(env) && env.jiraReachable
    requires CallRequestOf(event, ctx.codec) ==
      Ok(Some(CallRequest(Str("get_grievance_status_def"), Object(map["grievance_id" := Int(id)]), callId)))
    ensures var status := ToolFormat.GrievanceStatus(env.jql(ToolFormat.GrievanceJql(env.grievanceProjectName, DecimalText(id))));
      ResponseDone(event, ctx).sent == [
        map["event_id" := Str(ctx.eventId), "type" := Str(ItemCreate),
            "item" := Object(map["type" := Str("function_call_output"), "call_id" := callId, "output" := Str(ctx.codec.dumps(status))])],
        map["event_id" := Str(ctx.eventId), "type" := Str(ResponseCreate), "response" := ResponseConfig()]]
  {
    Tools.GrievanceCall(env, id);
    var status := ToolFormat.GrievanceStatus(env.jql(ToolFormat.GrievanceJql(env.grievanceProjectName, DecimalText(id))));
    ToolCallReplies(event, ctx, "get_grievance_status_def", map["grievance_id" := Int(id)], callId, status);
  }

  /**
   * End to end with the tools.py table as written: a completed call of
   * `get_mark_status_summary` whose query, rows or cursor fail makes the tool
   * raise `UnboundLocalError`, which the `try` swallows, so the model's call is
   * never answered and the loop goes on.
   */
  lemma FailingMarkQuerySilent(event: Value, ctx: Context, env: ToolFormat.Backend, user: Value, callId: Value)
    requires ctx.tools == Tools.Registry(env)
    requires CallRequestOf(event, ctx.codec) ==
      Ok(Some(CallRequest(Str("get_mark_status_summary"), Object(map["user_name" := user]), callId)))
    requires var db := env.database(user);
      db.connects && !(db.executes && ToolFormat.RowsText(db.rows).Ok? && !db.fetchFails)
    ensures ResponseDone(event, ctx) == Quiet()
  {
    Tools.MarkCall(env, user);
    Tools.MarkStatusErrorPathRaises(env.database(user));
  }

  /**
   * With the corrected tool the same failing query is answered: the model gets
   * the apology as the call's output, then a `response.create`.
   */
  lemma IntendedMarkFailureAnswered(event: Value, ctx: Context, env: ToolFormat.Backend, user: Value, callId: Value)
    requires ctx.connected && ctx.tools == Tools.IntendedRegistry(env)
    requires CallRequestOf(event, ctx.codec) ==
      Ok(Some(CallRequest(Str("get_mark_status_summary"), Object(map["user_name" := user]), callId)))
    requires var db := env.database(user);
      db.connects && !(db.executes && ToolFormat.RowsText(db.rows).Ok? && !db.fetchFails)
    ensures ResponseDone(event, ctx).sent == [
      map["event_id" := Str(ctx.eventId), "type" := Str(ItemCreate),
          "item" := Object(map["type" := Str("function_call_output"), "call_id" := callId,
                               "output" := Str(ctx.codec.dumps(ToolFormat.MarkApology))])],
      map["event_id" := Str(ctx.eventId), "type" := Str(ResponseCreate), "response" := ResponseConfig()]]
  {
    Tools.MarkCall(env, user);
    Tools.MarkStatusSummaryOutcomes(env.database(user));
    ToolCallReplies(event, ctx, "get_mark_status_summary", map["user_name" := user], callId, ToolFormat.MarkApology);
  }

  /** The only events that make the client send are `input_audio_buffer.committed` and `response.done`. */
  lemma SendsOnlyOnCommitOrDone(event: Value, ctx: Context)
    requires ReactTo(event, ctx).sent != []
    ensures Subscript(event, "type") in {Ok(Str(Committed)), Ok(Str(ResponseDoneType))}
  {
  }

  /** The frames one event sends: a `response.create` on commit, the tool reply on `response.done`, else none. */
  lemma ReactToSent(event: Value, ctx: Context)
    ensures ReactTo(event, ctx).sent ==
      if Subscript(event, "type") == Ok(Str(Committed)) then
        (if ctx.connected then [Envelope(ctx.eventId, ResponseCreate, ResponseCreateData().fields)] else [])
      else if Subscript(event, "type") == Ok(Str(ResponseDoneType)) then ResponseDone(event, ctx).sent
      else []
  {
  }

  /** Every frame sent while handling an event is a `response.create` or a `conversation.item.create`. */
  lemma RepliesOnly(event: Value, ctx: Context)
    ensures forall f :: f in ReactTo(event, ctx).sent ==>
      "type" in f && f["type"] in {Str(ResponseCreate), Str(ItemCreate)}
  {
    ReactToSent(event, ctx);
    if Subscript(event, "type") == Ok(Str(Committed)) {
      OneFieldFrame(ctx.eventId, ResponseCreate, "response", ResponseConfig());
    } else if Subscript(event, "type") == Ok(Str(ResponseDoneType)) {
      ResponseDoneOnlyReplies(event, ctx);
    }
  }

  // ---------------------------------------------------------------------------
  // The receive loop

  function Then(a: Reaction, b: Reaction): Reaction {
    Reaction(a.sent + b.sent, a.published + b.published, b.stop)
  }

  /** The loop over the received messages: it ends at the first message that stops it. */
  function Run(messages: seq<string>, ctx: Context): Reaction
    decreases |messages|
  {
    if messages == [] then Quiet()
    else
      var before := Run(messages[..|messages| - 1], ctx);
      if before.stop.Some? then before else Then(before, React(messages[|messages| - 1], ctx))
  }

  /** Nothing after the message that ends the loop is handled. */
  lemma {:induction false} RunStops(messages: seq<string>, later: seq<string>, ctx: Context)
    requires Run(messages, ctx).stop.Some?
    ensures Run(messages + later, ctx) == Run(messages, ctx)
    decreases |later|
  {
    if later != [] {
      var init := later[..|later| - 1];
      assert (messages + later)[..|messages + later| - 1] == messages + init;
      RunStops(messages, init, ctx);
    } else {
      assert messages + later == messages;
    }
  }

  /** Every frame the loop sends is a `response.create` or a `conversation.item.create`. */
  lemma {:induction false} RunRepliesOnly(messages: seq<string>, ctx: Context)
    ensures forall f :: f in Run(messages, ctx).sent ==>
      "type" in f && f["type"] in {Str(ResponseCreate), Str(ItemCreate)}
    decreases |messages|
  {
    if messages != [] {
      RunRepliesOnly(messages[..|messages| - 1], ctx);
      match ctx.codec.loads(messages[|messages| - 1])
      case None =>
      case Some(event) => RepliesOnly(event, ctx);
    }
  }

  /**
   * Messages handled in a context without a socket send nothing. `Receive`
   * itself never runs disconnected (a client without a socket fails at once);
   * this covers the per-message `Handle*` methods called on a disconnected
   * client, whose every `send` raises.
   */
  lemma {:induction false} RunDisconnectedSilent(messages: seq<string>, ctx: Context)
    requires !ctx.connected
    ensures Run(messages, ctx).sent == []
    decreases |messages|
  {
    if messages != [] {
      RunDisconnectedSilent(messages[..|messages| - 1], ctx);
      match ctx.codec.loads(messages[|messages| - 1])
      case None =>
      case Some(event) =>
        if ReactTo(event, ctx).sent != [] {
          SendsOnlyOnCommitOrDone(event, ctx);
          ResponseDoneOnlyReplies(event, ctx);
        }
    }
  }

  // ---------------------------------------------------------------------------
  // The handler table

  /** `event_handlers[name]` read without inserting. */
  function HandlersOf(table: map<string, seq<Handler>>, name: string): seq<Handler> {
    if name in table then table[name] else []
  }

  /** What reading `event_handlers[name]` on the defaultdict does to it. */
  function Touch(table: map<string, seq<Handler>>, name: string): map<string, seq<Handler>> {
    if name in table then table else table[name := []]
  }

  function TouchAll(table: map<string, seq<Handler>>, ps: seq<Publish>): map<string, seq<Handler>>
    decreases |ps|
  {
    if ps == [] then table else Touch(TouchAll(table, ps[..|ps| - 1]), ps[|ps| - 1].eventName)
  }

  /** The calls `dispatch` makes: each handler of the list, in order, with the same event. */
  function Deliveries(handlers: seq<Handler>, event: Value): (r: seq<Invocation>)
    ensures |r| == |handlers|
    ensures forall i :: 0 <= i < |r| ==> r[i] == Invocation(handlers[i], event)
  {
    seq(|handlers|, i requires 0 <= i < |handlers| => Invocation(handlers[i], event))
  }

  function Fanout(table: map<string, seq<Handler>>, ps: seq<Publish>): seq<Invocation>
    decreases |ps|
  {
    if ps == [] then []
    else Fanout(table, ps[..|ps| - 1]) + Deliveries(HandlersOf(table, ps[|ps| - 1].eventName), ps[|ps| - 1].event)
  }

  /** The defaultdict insertions change no handler list. */
  lemma {:induction false} TouchAllKeepsHandlers(table: map<string, seq<Handler>>, ps: seq<Publish>, name: string)
    ensures HandlersOf(TouchAll(table, ps), name) == HandlersOf(table, name)
    decreases |ps|
  {
    if ps != [] {
      TouchAllKeepsHandlers(table, ps[..|ps| - 1], name);
    }
  }

  lemma {:induction false} TouchAllAppend(table: map<string, seq<Handler>>, a: seq<Publish>, b: seq<Publish>)
    ensures TouchAll(table, a + b) == TouchAll(TouchAll(table, a), b)
    decreases |b|
  {
    if b == [] {
      assert a + b == a;
    } else {
      assert (a + b)[..|a + b| - 1] == a + b[..|b| - 1];
      TouchAllAppend(table, a, b[..|b| - 1]);
    }
  }

  /** Fanout reads a table only through its handler lists. */
  lemma {:induction false} FanoutSameHandlers(table: map<string, seq<Handler>>, touched: map<string, seq<Handler>>, ps: seq<Publish>)
    requires forall n :: HandlersOf(touched, n) == HandlersOf(table, n)
    ensures Fanout(touched, ps) == Fanout(table, ps)
    decreases |ps|
  {
    if ps != [] {
      FanoutSameHandlers(table, touched, ps[..|ps| - 1]);
      assert HandlersOf(touched, ps[|ps| - 1].eventName) == HandlersOf(table, ps[|ps| - 1].eventName);
    }
  }

  /** The calls for two batches of events are the calls for each, in order. */
  lemma {:induction false} FanoutAppend(table: map<string, seq<Handler>>, a: seq<Publish>, b: seq<Publish>)
    ensures Fanout(table, a + b) == Fanout(table, a) + Fanout(table, b)
    decreases |b|
  {
    if b == [] {
      assert a + b == a;
    } else {
      var init, last := b[..|b| - 1], b[|b| - 1];
      assert (a + b)[..|a + b| - 1] == a + init;
      assert (a + b)[|a + b| - 1] == last;
      FanoutAppend(table, a, init);
      LogGrows(Fanout(table, a), Fanout(table, a + init), Fanout(table, a + b), Fanout(table, init),
               Deliveries(HandlersOf(table, last.eventName), last.event));
    }
  }

  lemma RunStep(messages: seq<string>, i: nat, ctx: Context)
    requires i < |messages|
    requires Run(messages[..i], ctx).stop.None?
    ensures Run(messages[..i + 1], ctx) == Then(Run(messages[..i], ctx), React(messages[i], ctx))
  {
    assert messages[..i + 1][..i] == messages[..i];
  }

  /** Dispatching two batches in turn makes the calls and insertions of dispatching them together. */
  lemma LogsStep(table: map<string, seq<Handler>>, before: seq<Publish>, next: seq<Publish>)
    ensures Fanout(table, before + next) == Fanout(table, before) + Fanout(TouchAll(table, before), next)
    ensures TouchAll(table, before + next) == TouchAll(TouchAll(table, before), next)
  {
    forall n | true
      ensures HandlersOf(TouchAll(table, before), n) == HandlersOf(table, n)
    {
      TouchAllKeepsHandlers(table, before, n);
    }
    FanoutAppend(table, before, next);
    FanoutSameHandlers(table, TouchAll(table, before), next);
    TouchAllAppend(table, before, next);
  }

  // ---------------------------------------------------------------------------
  // The client

  class RTWSClient {
    /** `self.ws`: the open socket, if any. */
    var ws: Option<Socket>
    /** `self.event_handlers`. */
    var eventHandlers: map<string, seq<Handler>>
    /** Every frame sent on any socket, in order. */
    var frames: seq<Frame>
    /** Every handler call made by `dispatch`, in order. */
    var dispatched: seq<Invocation>
    /** The wall clock in milliseconds, which event ids are made from. */
    var clock: int

    const systemPrompt: string
    const sessionConfig: Value
    const responseConfig: Value
    const tools: ToolTable
    const codec: JsonCodec
    /** `float_to_16bit_pcm` on raw float32 bytes. */
    const pcm16Of: seq<byte> -> seq<byte>

    /** The loop's view of the client. */
    function Ctx(): Context
      reads this
    {
      Context(ws.Some?, EventId(clock), tools, codec)
    }

    predicate IsConnected()
      reads this
    {
      ws.Some?
    }

    /** `RTWSClient(system_prompt)`, with the tool table of tools.py over `env`. */
    constructor (systemPrompt: string, env: ToolFormat.Backend, codec: JsonCodec, pcm16Of: seq<byte> -> seq<byte>, clock: int)
      ensures ws.None? && eventHandlers == map[] && frames == [] && dispatched == []
      ensures this.clock == clock && this.systemPrompt == systemPrompt
      ensures sessionConfig == SessionConfig(systemPrompt) && responseConfig == ResponseConfig()
      ensures tools == Tools.Registry(env) && this.codec == codec && this.pcm16Of == pcm16Of
    {
      ws := None;
      eventHandlers := map[];
      frames := [];
      dispatched := [];
      this.clock := clock;
      this.systemPrompt := systemPrompt;
      sessionConfig := SessionConfig(systemPrompt);
      responseConfig := ResponseConfig();
      tools := Tools.Registry(env);
      this.codec := codec;
      this.pcm16Of := pcm16Of;
    }

    /** The host's clock moves on. */
    method SetClock(now: int)
      modifies this
      ensures clock == now
      ensures ws == old(ws) && eventHandlers == old(eventHandlers) && frames == old(frames) && dispatched == old(dispatched)
    {
      clock := now;
    }

    /** `on(event_name, handler)`: appends to that name's list and to no other. */
    method On(eventName: string, handler: Handler)
      modifies this
      ensures eventHandlers == old(eventHandlers)[eventName := HandlersOf(old(eventHandlers), eventName) + [handler]]
      ensures HandlersOf(eventHandlers, eventName) == HandlersOf(old(eventHandlers), eventName) + [handler]
      ensures forall n :: n != eventName ==> HandlersOf(eventHandlers, n) == HandlersOf(old(eventHandlers), n)
      ensures eventHandlers.Keys == old(eventHandlers.Keys) + {eventName}
      ensures ws == old(ws) && frames == old(frames) && dispatched == old(dispatched) && clock == old(clock)
    {
      eventHandlers := eventHandlers[eventName := HandlersOf(eventHandlers, eventName) + [handler]];
    }

    /** `dispatch(event_name, event)`: every handler under that name, in registration order. */
    method Dispatch(eventName: string, event: Value)
      modifies this
      ensures dispatched == old(dispatched) + Deliveries(HandlersOf(old(eventHandlers), eventName), event)
      ensures eventHandlers == Touch(old(eventHandlers), eventName)
      ensures ws == old(ws) && frames == old(frames) && clock == old(clock)
    {
      if eventName !in eventHandlers {
        eventHandlers := eventHandlers[eventName := []];
      }
      var handlers := eventHandlers[eventName];
      for i := 0 to |handlers|
        invariant dispatched == old(dispatched) + Deliveries(handlers[..i], event)
        invariant eventHandlers == Touch(old(eventHandlers), eventName)
        invariant ws == old(ws) && frames == old(frames) && clock == old(clock)
      {
        dispatched := dispatched + [Invocation(handlers[i], event)];
      }
      assert handlers[..|handlers|] == handlers;
    }

    /** `send(event_name, data)`. */
    method Send(eventName: string, data: Value) returns (st: Status)
      modifies this
      ensures var o := Outbound(old(ws).Some?, EventId(old(clock)), eventName, data);
        && (o.Ok? ==> st == Done && frames == old(frames) + [o.value])
        && (o.Err? ==> st == Failed(o.exc) && frames == old(frames))
      ensures ws == old(ws) && eventHandlers == old(eventHandlers) && dispatched == old(dispatched) && clock == old(clock)
    {
      if ws.None? {
        return Failed(NotConnected);
      }
      var fields := SendPayload(data);
      if fields.Err? {
        return Failed(fields.exc);
      }
      frames := frames + [Envelope(EventId(clock), eventName, fields.value)];
      st := Done;
    }

    /** `update_session`: sends the session configuration when connected, nothing otherwise. */
    method UpdateSession()
      modifies this
      ensures frames == old(frames) +
        if old(ws).Some? then [map["event_id" := Str(EventId(clock)), "type" := Str(SessionUpdate), "session" := sessionConfig]] else []
      ensures ws == old(ws) && eventHandlers == old(eventHandlers) && dispatched == old(dispatched) && clock == old(clock)
    {
      if ws.Some? {
        OneFieldFrame(EventId(clock), SessionUpdate, "session", sessionConfig);
        var _ := Send(SessionUpdate, Object(map["session" := sessionConfig]));
      }
    }

    /**
     * `connect`: the handshake gives a socket or raises. It does not return
     * early when already connected; the old socket is replaced.
     */
    method Connect(handshake: Option<Socket>) returns (st: Status)
      modifies this
      ensures handshake.None? ==> st == Failed(ConnectionFailed) && ws == old(ws) && frames == old(frames)
      ensures handshake.Some? ==>
        st == Done && ws == handshake && IsConnected()
        && frames == old(frames) + [map["event_id" := Str(EventId(clock)), "type" := Str(SessionUpdate), "session" := sessionConfig]]
      ensures eventHandlers == old(eventHandlers) && dispatched == old(dispatched) && clock == old(clock)
    {
      if handshake.None? {
        return Failed(ConnectionFailed);
      }
      ws := handshake;
      UpdateSession();
      st := Done;
    }

    /** `disconnect`: a no-op when disconnected; afterwards the client is disconnected. */
    method Disconnect()
      modifies this
      ensures ws.None? && !IsConnected()
      ensures eventHandlers == old(eventHandlers) && frames == old(frames) && dispatched == old(dispatched) && clock == old(clock)
    {
      if ws.Some? {
        ws := None;
      }
    }

    /**
     * `send_user_message_content(content)`: for truthy content a user message
     * item, then `response.create`, then one `conversation.interrupted` to the
     * host; nothing at all for empty content.
     */
    method SendUserMessageContent(content: Value) returns (st: Status)
      modifies this
      ensures !Truthy(content) ==>
        st == Done && frames == old(frames) && dispatched == old(dispatched)
        && eventHandlers == old(eventHandlers)
      ensures Truthy(content) && old(ws).None? ==>
        st == Failed(NotConnected) && frames == old(frames)
        && dispatched == old(dispatched) && eventHandlers == old(eventHandlers)
      ensures Truthy(content) && old(ws).Some? ==>
        st == Done
        && frames == old(frames) + [
             map["event_id" := Str(EventId(clock)), "type" := Str(ItemCreate), "item" := UserMessageData(content).fields["item"]],
             map["event_id" := Str(EventId(clock)), "type" := Str(ResponseCreate), "response" := ResponseConfig()]]
        && dispatched == old(dispatched) + Deliveries(HandlersOf(old(eventHandlers), ConversationInterrupted), InterruptEvent())
        && eventHandlers == Touch(old(eventHandlers), ConversationInterrupted)
      ensures ws == old(ws) && clock == old(clock)
    {
      if !Truthy(content) {
        return Done;
      }
      OneFieldFrame(EventId(clock), ItemCreate, "item", UserMessageData(content).fields["item"]);
      OneFieldFrame(EventId(clock), ResponseCreate, "response", ResponseConfig());
      st := Send(ItemCreate, UserMessageData(content));
      if st.Failed? {
        return;
      }
      st := Send(ResponseCreate, ResponseCreateData());
      Dispatch(ConversationInterrupted, InterruptEvent());
    }

    /**
     * `append_input_audio(array_buffer)` for the `bytes` of an audio chunk:
     * numpy makes a byte-string array of it, which is encoded from its raw bytes.
     */
    method AppendInputAudio(buffer: seq<byte>) returns (st: Status)
      modifies this
      ensures |buffer| == 0 ==> st == Done && frames == old(frames)
      ensures |buffer| > 0 && old(ws).None? ==> st == Failed(NotConnected) && frames == old(frames)
      ensures |buffer| > 0 && old(ws).Some? ==>
        st == Done
        && frames == old(frames) + [map["event_id" := Str(EventId(clock)), "type" := Str(AudioAppend),
                                        "audio" := Str(AudioText(buffer, pcm16Of))]]
      ensures ws == old(ws) && eventHandlers == old(eventHandlers) && dispatched == old(dispatched) && clock == old(clock)
    {
      if |buffer| == 0 {
        return Done;
      }
      var audio := AudioText(buffer, pcm16Of);
      OneFieldFrame(EventId(clock), AudioAppend, "audio", Str(audio));
      st := Send(AudioAppend, AudioAppendData(audio));
    }

    /** The `response.done` branch, with its `try`. */
    method HandleResponseDone(event: Value) returns (stop: Option<Stop>)
      modifies this
      ensures var r := ResponseDone(event, old(Ctx()));
        stop == r.stop && frames == old(frames) + r.sent
      ensures ws == old(ws) && eventHandlers == old(eventHandlers) && dispatched == old(dispatched) && clock == old(clock)
    {
      var req := CallRequestOf(event, codec);
      if req.Err? || req.value.None? {
        return None;
      }
      var call := req.value.value;
      if !(call.name.Str? && call.name.s in tools) || !call.arguments.Object? {
        return None;
      }
      var result := tools[call.name.s](call.arguments.fields);
      match result {
        case Raised(_) =>
          return None;
        case ProcessExit(status) =>
          return Some(Exited(status));
        case Returned(text) =>
          SendToolReply(call.callId, text);
          return None;
      }
    }

    /** The reply to a tool call, inside the `try`: a failing send ends it quietly. */
    method SendToolReply(callId: Value, text: string)
      modifies this
      ensures frames == old(frames) + ToolReply(callId, text, old(Ctx())).sent
      ensures ws == old(ws) && eventHandlers == old(eventHandlers) && dispatched == old(dispatched) && clock == old(clock)
    {
      var st := Send(ItemCreate, FunctionOutputData(callId, codec.dumps(text)));
      if st.Failed? {
        return;
      }
      st := Send(ResponseCreate, ResponseCreateData());
    }

    /** One `dispatch` the loop asks for, as the fold over published events records it. */
    method Relay(p: Publish)
      modifies this
      ensures dispatched == old(dispatched) + Fanout(old(eventHandlers), [p])
      ensures eventHandlers == TouchAll(old(eventHandlers), [p])
      ensures ws == old(ws) && frames == old(frames) && clock == old(clock)
    {
      assert [p][..0] == [];
      Dispatch(p.eventName, p.event);
    }

    /** The body of the receive loop for one message. */
    method HandleMessage(message: string) returns (stop: Option<Stop>)
      modifies this
      ensures var r := React(message, old(Ctx()));
        && stop == r.stop
        && frames == old(frames) + r.sent
        && dispatched == old(dispatched) + Fanout(old(eventHandlers), r.published)
        && eventHandlers == TouchAll(old(eventHandlers), r.published)
      ensures ws == old(ws) && clock == old(clock)
    {
      var decoded := codec.loads(message);
      if decoded.None? {
        return Some(Crashed(JsonDecodeError));
      }
      stop := HandleEvent(decoded.value);
    }

    /** The dispatch table for one decoded event. */
    method HandleEvent(event: Value) returns (stop: Option<Stop>)
      modifies this
      ensures var r := ReactTo(event, old(Ctx()));
        && stop == r.stop
        && frames == old(frames) + r.sent
        && dispatched == old(dispatched) + Fanout(old(eventHandlers), r.published)
        && eventHandlers == TouchAll(old(eventHandlers), r.published)
      ensures ws == old(ws) && clock == old(clock)
    {
      var typ := Subscript(event, "type");
      if typ.Err? {
        return Some(Crashed(typ.exc));
      }
      var t := typ.value;
      if t == Str(AudioDelta) {
        stop := HandleAudioDelta(event);
      } else if t == Str(AudioDone) {
        Relay(Publish(ConversationUpdated, event));
        return None;
      } else if t == Str(Committed) {
        stop := HandleCommitted();
      } else if t == Str(SpeechStarted) {
        Relay(Publish(ConversationInterrupted, InterruptEvent()));
        return None;
      } else if t == Str(TranscriptDelta) {
        stop := HandleTranscriptDelta(event);
      } else if t == Str(InputTranscriptDone) {
        stop := HandleInputTranscriptDone(event);
      } else if t == Str(ResponseDoneType) {
        stop := HandleResponseDone(event);
      } else {
        return None;
      }
    }

    /** The `input_audio_buffer.committed` branch: `send` outside the `try`, so a failure ends the loop. */
    method HandleCommitted() returns (stop: Option<Stop>)
      modifies this
      ensures var r := CommitReaction(old(Ctx()));
        && stop == r.stop
        && frames == old(frames) + r.sent
        && dispatched == old(dispatched) + Fanout(old(eventHandlers), r.published)
        && eventHandlers == TouchAll(old(eventHandlers), r.published)
      ensures ws == old(ws) && clock == old(clock)
    {
      var st := Send(ResponseCreate, ResponseCreateData());
      if st.Failed? {
        return Some(Crashed(st.exc));
      }
      return None;
    }

    /** The `response.audio.delta` branch: decode the base64 audio and relay its bytes. */
    method HandleAudioDelta(event: Value) returns (stop: Option<Stop>)
      modifies this
      ensures var r := AudioDeltaReaction(event);
        && stop == r.stop
        && frames == old(frames) + r.sent
        && dispatched == old(dispatched) + Fanout(old(eventHandlers), r.published)
        && eventHandlers == TouchAll(old(eventHandlers), r.published)
      ensures ws == old(ws) && clock == old(clock)
    {
      var delta := Subscript(event, "delta");
      if delta.Err? {
        return Some(Crashed(delta.exc));
      }
      var buffer := Utils.Base64ToArrayBuffer(delta.value);
      if buffer.Err? {
        return Some(Crashed(buffer.exc));
      }
      Relay(Publish(ConversationUpdated, Object(map["audio" := Bytes(buffer.value.raw)])));
      return None;
    }

    /** The `response.audio_transcript.delta` branch. */
    method HandleTranscriptDelta(event: Value) returns (stop: Option<Stop>)
      modifies this
      ensures var r := TranscriptDeltaReaction(event);
        && stop == r.stop
        && frames == old(frames) + r.sent
        && dispatched == old(dispatched) + Fanout(old(eventHandlers), r.published)
        && eventHandlers == TouchAll(old(eventHandlers), r.published)
      ensures ws == old(ws) && clock == old(clock)
    {
      var delta := Subscript(event, "delta");
      if delta.Err? {
        return Some(Crashed(delta.exc));
      }
      var itemId := Subscript(event, "item_id");
      if itemId.Err? {
        return Some(Crashed(itemId.exc));
      }
      Relay(Publish(ConversationTextDelta, Object(map["transcript" := delta.value, "item_id" := itemId.value])));
      return None;
    }

    /** The `conversation.item.input_audio_transcription.completed` branch. */
    method HandleInputTranscriptDone(event: Value) returns (stop: Option<Stop>)
      modifies this
      ensures var r := InputTranscriptReaction(event);
        && stop == r.stop
        && frames == old(frames) + r.sent
        && dispatched == old(dispatched) + Fanout(old(eventHandlers), r.published)
        && eventHandlers == TouchAll(old(eventHandlers), r.published)
      ensures ws == old(ws) && clock == old(clock)
    {
      var transcript := Subscript(event, "transcript");
      if transcript.Err? {
        return Some(Crashed(transcript.exc));
      }
      Relay(Publish(ConversationInputTextDone, Object(map["transcript" := transcript.value])));
      return None;
    }

    /**
     * `receive`: handles the messages in order until one ends the loop. A
     * client without a socket fails at once (`async for` over `None`).
     */
    method Receive(messages: seq<string>) returns (stop: Option<Stop>)
      modifies this
      ensures old(ws).None? ==>
        stop == Some(Crashed(TypeError)) && frames == old(frames)
        && dispatched == old(dispatched) && eventHandlers == old(eventHandlers)
      ensures old(ws).Some? ==>
        var r := Run(messages, old(Ctx()));
        && stop == r.stop
        && frames == old(frames) + r.sent
        && dispatched == old(dispatched) + Fanout(old(eventHandlers), r.published)
        && eventHandlers == TouchAll(old(eventHandlers), r.published)
      ensures ws == old(ws) && clock == old(clock)
    {
      if ws.None? {
        return Some(Crashed(TypeError));
      }
      ghost var ctx := Ctx();
      ghost var table := eventHandlers;
      ghost var acc := Quiet();
      var i := 0;
      stop := None;
      while i < |messages| && stop.None?
        invariant 0 <= i <= |messages|
        invariant ws == old(ws) && clock == old(clock) && ctx == Ctx()
        invariant acc == Run(messages[..i], ctx)
        invariant stop == acc.stop
        invariant frames == old(frames) + acc.sent
        invariant dispatched == old(dispatched) + Fanout(table, acc.published)
        invariant eventHandlers == TouchAll(table, acc.published)
        decreases |messages| - i
      {
        ghost var r := React(messages[i], ctx);
        ghost var framesBefore, dispatchedBefore := frames, dispatched;
        var s := HandleMessage(messages[i]);
        RunStep(messages, i, ctx);
        LogsStep(table, acc.published, r.published);
        LogGrows(old(frames), framesBefore, frames, acc.sent, r.sent);
        LogGrows(old(dispatched), dispatchedBefore, dispatched,
                 Fanout(table, acc.published), Fanout(TouchAll(table, acc.published), r.published));
        acc := Then(acc, r);
        stop := s;
        i := i + 1;
      }
      RunFinish(messages, i, ctx);
    }
  }

  /** A log that held `base + done` and then grew by `step`. */
  lemma LogGrows<T>(base: seq<T>, before: seq<T>, now: seq<T>, done: seq<T>, step: seq<T>)
    requires before == base + done
    requires now == before + step
    ensures now == base + (done + step)
  {
  }

  lemma RunFinish(messages: seq<string>, i: nat, ctx: Context)
    requires i <= |messages|
    requires i == |messages| || Run(messages[..i], ctx).stop.Some?
    ensures Run(messages, ctx) == Run(messages[..i], ctx)
  {
    if i < |messages| {
      RunStops(messages[..i], messages[i..], ctx);
      assert messages[..i] + messages[i..] == messages;
    } else {
      assert messages[..i] == messages;
    }
  }

  /** The base64 text of an audio chunk of raw bytes. */
  function AudioText(buffer: seq<byte>, pcm16Of: seq<byte> -> seq<byte>): string {
    Utils.ArrayBufferToBase64(Utils.NdArray(Utils.ByteString(|buffer|), buffer), pcm16Of)
  }

  /** The audio sent for a chunk decodes to the chunk's bytes exactly. */
  lemma AudioTextDecodes(buffer: seq<byte>, pcm16Of: seq<byte> -> seq<byte>)
    ensures Base64.Decode(AudioText(buffer, pcm16Of)) == Some(buffer)
  {
  }
}
