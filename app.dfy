/**
 * app.py: the host session. It keeps two `[id, text]` transcript slots and an
 * audio track id in the user session, reacts to the events the realtime client
 * dispatches, and gates the user's input on the client being connected. The
 * chat UI is modelled by a log of the calls made on it; `uuid4()` by a fresh
 * id the caller supplies.
 */
module App {
  import opened Common
  import opened Values
  import ToolFormat
  import Tools
  import RC = RealtimeClient

  /** One `[id, text]` pair of the user session. */
  datatype Slot = Slot(id: Value, text: Value)

  const InitialTranscript := Slot(Str("1"), Str("-"))
  const InitialUserInput := Slot(Str("1"), Str(""))

  /** A call on the chat UI. */
  datatype UiEffect =
    | AudioChunk(data: Value, track: string)       // `send_audio_chunk` of a pcm16 chunk
    | AudioInterrupt                               // `send_audio_interrupt`
    | MessageSent(content: Value, author: string, kind: string, id: Value)
    | MessageUpdated(content: Value, author: string, kind: string, id: Value)
    | Notice(text: string)                         // a plain message without an id
    | ErrorNotice(exc: Exc)                        // an `ErrorMessage` naming the exception

  const VoiceModeWarning := "Please activate voice mode before sending messages!"

  /** The handlers `init_rtclient` registers, by the names of their functions. */
  const OnUpdated := RC.Handler("handle_conversation_updated")
  const OnInterrupt := RC.Handler("handle_conversation_interrupt")
  const OnThreadUpdated := RC.Handler("handle_conversation_thread_updated")
  const OnInputDone := RC.Handler("handle_user_input_transcript_done")

  /** The host's handler table: one handler per event name. */
  const HandlerTable: map<string, seq<RC.Handler>> := map[
    RC.ConversationUpdated := [OnUpdated],
    RC.ConversationInterrupted := [OnInterrupt],
    RC.ConversationTextDelta := [OnThreadUpdated],
    RC.ConversationInputTextDone := [OnInputDone]]

  /**
   * With the host's table, each event the client dispatches reaches exactly
   * the one handler for it, and any other name reaches none.
   */
  lemma HostRouting(e: Value, name: string)
    ensures RC.Fanout(HandlerTable, [RC.Publish(RC.ConversationUpdated, e)]) == [RC.Invocation(OnUpdated, e)]
    ensures RC.Fanout(HandlerTable, [RC.Publish(RC.ConversationInterrupted, e)]) == [RC.Invocation(OnInterrupt, e)]
    ensures RC.Fanout(HandlerTable, [RC.Publish(RC.ConversationTextDelta, e)]) == [RC.Invocation(OnThreadUpdated, e)]
    ensures RC.Fanout(HandlerTable, [RC.Publish(RC.ConversationInputTextDone, e)]) == [RC.Invocation(OnInputDone, e)]
    ensures name !in HandlerTable ==> RC.Fanout(HandlerTable, [RC.Publish(name, e)]) == []
  {
    var ps := [RC.Publish(RC.ConversationUpdated, e)];
    assert ps[..0] == [];
    var qs := [RC.Publish(RC.ConversationInterrupted, e)];
    assert qs[..0] == [];
    var ts := [RC.Publish(RC.ConversationTextDelta, e)];
    assert ts[..0] == [];
    var ds := [RC.Publish(RC.ConversationInputTextDone, e)];
    assert ds[..0] == [];
    var ns := [RC.Publish(name, e)];
    assert ns[..0] == [];
  }

  // ---------------------------------------------------------------------------
  // The merge rule of the response transcript

  /** An `int` or a `bool` (a subclass of `int` in Python). */
  predicate Integral(v: Value) {
    v.Int? || v.Bool?
  }

  predicate Numeric(v: Value) {
    Integral(v) || v.Real?
  }

  function IntegralValue(v: Value): int
    requires Integral(v)
  {
    if v.Int? then v.i else if v.b then 1 else 0
  }

  function RealValue(v: Value): real
    requires Numeric(v)
  {
    if v.Real? then v.r else IntegralValue(v) as real
  }

  /**
   * Python's `a + b` for the values a transcript can hold: two `str`, two
   * lists or two `bytes` concatenate; two of `int` and `bool` add as integers;
   * a `float` with any number adds as a float; every other pair raises `TypeError`.
   */
  function PlusValue(a: Value, b: Value): (r: Result<Value>)
    ensures r.Ok? <==> (a.Str? && b.Str?) || (a.List? && b.List?) || (a.Bytes? && b.Bytes?) || (Numeric(a) && Numeric(b))
    ensures a.Str? && b.Str? ==> r == Ok(Str(a.s + b.s))
    ensures a.List? && b.List? ==> r == Ok(List(a.items + b.items))
    ensures a.Bytes? && b.Bytes? ==> r == Ok(Bytes(a.data + b.data))
    ensures Integral(a) && Integral(b) ==> r == Ok(Int(IntegralValue(a) + IntegralValue(b)))
    ensures Numeric(a) && Numeric(b) && (a.Real? || b.Real?) ==> r == Ok(Real(RealValue(a) + RealValue(b)))
  {
    if a.Str? && b.Str? then Ok(Str(a.s + b.s))
    else if a.List? && b.List? then Ok(List(a.items + b.items))
    else if a.Bytes? && b.Bytes? then Ok(Bytes(a.data + b.data))
    else if Integral(a) && Integral(b) then Ok(Int(IntegralValue(a) + IntegralValue(b)))
    else if Numeric(a) && Numeric(b) then Ok(Real(RealValue(a) + RealValue(b)))
    else Err(TypeError)
  }

  /**
   * The response-transcript slot after a text delta: an empty delta changes
   * nothing, the same item id appends, a new item id replaces.
   */
  function MergeDelta(slot: Slot, itemId: Value, delta: Value): Result<Slot> {
    if !Truthy(delta) then Ok(slot)
    else if slot.id == itemId then
      var text :- PlusValue(slot.text, delta);
      Ok(Slot(itemId, text))
    else Ok(Slot(itemId, delta))
  }

  /** The slot after a run of string deltas for one item, in arrival order. */
  function MergeDeltas(slot: Slot, itemId: Value, deltas: seq<string>): Result<Slot>
    decreases |deltas|
  {
    if deltas == [] then Ok(slot)
    else
      var before :- MergeDeltas(slot, itemId, deltas[..|deltas| - 1]);
      MergeDelta(before, itemId, Str(deltas[|deltas| - 1]))
  }

  function Concat(deltas: seq<string>): string
    decreases |deltas|
  {
    if deltas == [] then "" else Concat(deltas[..|deltas| - 1]) + deltas[|deltas| - 1]
  }

  /** Deltas that are all empty leave the slot as it was. */
  lemma {:induction false} EmptyDeltasKeep(slot: Slot, itemId: Value, deltas: seq<string>)
    requires Concat(deltas) == ""
    ensures MergeDeltas(slot, itemId, deltas) == Ok(slot)
    decreases |deltas|
  {
    if deltas != [] {
      EmptyDeltasKeep(slot, itemId, deltas[..|deltas| - 1]);
    }
  }

  /**
   * A run of deltas for a new item ends with the slot holding that item and
   * the concatenation of the deltas: the first non-empty one replaces the old
   * text and the rest append.
   */
  lemma {:induction false} NewItemDeltas(slot: Slot, itemId: Value, deltas: seq<string>)
    requires slot.id != itemId
    requires Concat(deltas) != ""
    ensures MergeDeltas(slot, itemId, deltas) == Ok(Slot(itemId, Str(Concat(deltas))))
    decreases |deltas|
  {
    var init, last := deltas[..|deltas| - 1], deltas[|deltas| - 1];
    assert Concat(deltas) == Concat(init) + last;
    if Concat(init) == "" {
      EmptyDeltasKeep(slot, itemId, init);
      assert Concat(deltas) == last;
    } else {
      NewItemDeltas(slot, itemId, init);
      if last == "" {
        assert Concat(deltas) == Concat(init);
      }
    }
  }

  /** Deltas for the item already in the slot append to its text. */
  lemma {:induction false} SameItemDeltas(itemId: Value, text: string, deltas: seq<string>)
    ensures MergeDeltas(Slot(itemId, Str(text)), itemId, deltas) == Ok(Slot(itemId, Str(text + Concat(deltas))))
    decreases |deltas|
  {
    if deltas == [] {
      assert text + Concat(deltas) == text;
    } else {
      var init, last := deltas[..|deltas| - 1], deltas[|deltas| - 1];
      SameItemDeltas(itemId, text, init);
      assert text + Concat(deltas) == (text + Concat(init)) + last;
      if last == "" {
        assert text + Concat(deltas) == text + Concat(init);
      }
    }
  }

  /** The content list `on_message` forwards for typed text. */
  function InputText(text: string): Value {
    List([Object(map["type" := Str("input_text"), "text" := Str(text)])])
  }

  // ---------------------------------------------------------------------------
  // The session

  class HostSession {
    /** `openai_realtime` of the user session; null before `init_rtclient`. */
    var client: RC.RTWSClient?
    var trackId: string
    var transcript: Slot
    var userInputTranscript: Slot
    /** Every call made on the chat UI, in order. */
    var effects: seq<UiEffect>

    /** A chat that has not run `init_rtclient` yet. */
    constructor ()
      ensures client == null && effects == []
    {
      client := null;
      trackId := "";
      transcript := InitialTranscript;
      userInputTranscript := InitialUserInput;
      effects := [];
    }

    /**
     * `init_rtclient`: a new client holding the four handlers, a fresh track id,
     * and the initial transcript slots.
     */
    method InitRtClient(systemPrompt: string, env: ToolFormat.Backend, codec: RC.JsonCodec,
                        pcm16Of: seq<byte> -> seq<byte>, clock: int, freshTrack: string)
      modifies this
      ensures client != null && fresh(client)
      ensures trackId == freshTrack && transcript == InitialTranscript && userInputTranscript == InitialUserInput
      ensures effects == old(effects)
      ensures !client.IsConnected() && client.frames == [] && client.dispatched == []
      ensures client.sessionConfig == RC.SessionConfig(systemPrompt)
      ensures client.eventHandlers == HandlerTable
      ensures client.tools == Tools.Registry(env) && client.clock == clock
      ensures client.codec == codec && client.pcm16Of == pcm16Of
    {
      var c := new RC.RTWSClient(systemPrompt, env, codec, pcm16Of, clock);
      trackId := freshTrack;
      transcript := InitialTranscript;
      userInputTranscript := InitialUserInput;
      RegisterHandlers(c);
      client := c;
    }

    /** The four `on` calls of `init_rtclient` on a new client. */
    static method RegisterHandlers(c: RC.RTWSClient)
      modifies c
      requires c.eventHandlers == map[]
      ensures c.eventHandlers == HandlerTable
      ensures c.ws == old(c.ws) && c.frames == old(c.frames) && c.dispatched == old(c.dispatched) && c.clock == old(c.clock)
    {
      ghost var none: seq<RC.Handler> := [];
      assert none + [OnUpdated] == [OnUpdated] && none + [OnInterrupt] == [OnInterrupt];
      assert none + [OnThreadUpdated] == [OnThreadUpdated] && none + [OnInputDone] == [OnInputDone];
      c.On(RC.ConversationUpdated, OnUpdated);
      c.On(RC.ConversationInterrupted, OnInterrupt);
      c.On(RC.ConversationTextDelta, OnThreadUpdated);
      c.On(RC.ConversationInputTextDone, OnInputDone);
    }

    /** What `handle_conversation_updated` does to the session, ending with `st`. */
    twostate predicate UpdatedHandled(event: Value, st: RC.Status)
      reads this
    {
      && (!event.Object? ==> st == RC.Failed(AttributeError) && effects == old(effects))
      && (event.Object? ==>
          var audio := if "audio" in event.fields then event.fields["audio"] else Null;
          && st == RC.Done
          && effects == old(effects) + if Truthy(audio) then [AudioChunk(audio, trackId)] else [])
      && client == old(client) && trackId == old(trackId)
      && transcript == old(transcript) && userInputTranscript == old(userInputTranscript)
    }

    /** What `handle_conversation_interrupt` does to the session. */
    twostate predicate InterruptHandled(freshTrack: string)
      reads this
    {
      && trackId == freshTrack
      && effects == old(effects) + [AudioInterrupt]
      && client == old(client) && transcript == old(transcript) && userInputTranscript == old(userInputTranscript)
    }

    /** What `handle_conversation_thread_updated` does to the session, ending with `st`. */
    twostate predicate ThreadUpdateHandled(event: Value, freshMessage: string, st: RC.Status)
      reads this
    {
      && (!event.Object? ==>
          st == RC.Failed(AttributeError) && effects == old(effects)
          && transcript == old(transcript) && userInputTranscript == old(userInputTranscript))
      && (event.Object? ==>
          var itemId := if "item_id" in event.fields then event.fields["item_id"] else Null;
          var delta := if "transcript" in event.fields then event.fields["transcript"] else Null;
          var merged := MergeDelta(old(transcript), itemId, delta);
          && (merged.Err? ==>
                st == RC.Failed(merged.exc) && transcript == old(transcript)
                && userInputTranscript == old(userInputTranscript) && effects == old(effects))
          && (merged.Ok? ==> st == RC.Done && transcript == merged.value)
          && (!Truthy(delta) ==> userInputTranscript == old(userInputTranscript) && effects == old(effects))
          && (Truthy(delta) && old(transcript).id == itemId && merged.Ok? ==>
                userInputTranscript == old(userInputTranscript)
                && effects == old(effects) + [MessageUpdated(merged.value.text, "assistant", "assistant_message", itemId)])
          && (Truthy(delta) && old(transcript).id != itemId ==>
                userInputTranscript == Slot(Str(freshMessage), Str(""))
                && effects == old(effects) + [
                     MessageSent(Str(""), "user", "user_message", Str(freshMessage)),
                     MessageSent(delta, "assistant", "assistant_message", itemId)]))
      && client == old(client) && trackId == old(trackId)
    }

    /** What `handle_user_input_transcript_done` does to the session, ending with `st`. */
    twostate predicate InputDoneHandled(event: Value, freshMessage: string, st: RC.Status)
      reads this
    {
      && (!event.Object? ==>
          st == RC.Failed(AttributeError) && effects == old(effects) && userInputTranscript == old(userInputTranscript))
      && (event.Object? ==>
          var text := if "transcript" in event.fields then event.fields["transcript"] else Null;
          && st == RC.Done
          && effects == old(effects) + [MessageUpdated(text, "user", "user_message", old(userInputTranscript).id)]
          && userInputTranscript == Slot(Str(freshMessage), Str("")))
      && client == old(client) && trackId == old(trackId) && transcript == old(transcript)
    }

    /** `handle_conversation_updated`: plays truthy `audio` on the current track. */
    method HandleConversationUpdated(event: Value) returns (st: RC.Status)
      modifies this
      ensures UpdatedHandled(event, st)
    {
      var audio := Get(event, "audio", Null);
      if audio.Err? {
        return RC.Failed(audio.exc);
      }
      if Truthy(audio.value) {
        effects := effects + [AudioChunk(audio.value, trackId)];
      }
      st := RC.Done;
    }

    /** `handle_conversation_interrupt`: a fresh track id, then the UI stops playback. */
    method HandleConversationInterrupt(event: Value, freshTrack: string)
      modifies this
      ensures InterruptHandled(freshTrack)
    {
      trackId := freshTrack;
      effects := effects + [AudioInterrupt];
    }

    /**
     * `handle_conversation_thread_updated`: merges a response-transcript delta.
     * A new item id also puts a fresh empty placeholder in the user-input slot.
     */
    method HandleConversationThreadUpdated(event: Value, freshMessage: string) returns (st: RC.Status)
      modifies this
      ensures ThreadUpdateHandled(event, freshMessage, st)
    {
      var itemId := Get(event, "item_id", Null);
      if itemId.Err? {
        return RC.Failed(itemId.exc);
      }
      var delta := Get(event, "transcript", Null);
      if !Truthy(delta.value) {
        return RC.Done;
      }
      if transcript.id == itemId.value {
        var text := PlusValue(transcript.text, delta.value);
        if text.Err? {
          return RC.Failed(text.exc);
        }
        transcript := Slot(itemId.value, text.value);
        effects := effects + [MessageUpdated(text.value, "assistant", "assistant_message", itemId.value)];
      } else {
        var slot := Slot(itemId.value, delta.value);
        userInputTranscript := Slot(Str(freshMessage), Str(""));
        effects := effects + [MessageSent(Str(""), "user", "user_message", Str(freshMessage))];
        transcript := slot;
        effects := effects + [MessageSent(delta.value, "assistant", "assistant_message", itemId.value)];
      }
      st := RC.Done;
    }

    /**
     * `handle_user_input_transcript_done`: the placeholder message gets the
     * transcript, and the slot gets a fresh id with empty text.
     */
    method HandleUserInputTranscriptDone(event: Value, freshMessage: string) returns (st: RC.Status)
      modifies this
      ensures InputDoneHandled(event, freshMessage, st)
    {
      var text := Get(event, "transcript", Null);
      if text.Err? {
        return RC.Failed(text.exc);
      }
      effects := effects + [MessageUpdated(text.value, "user", "user_message", userInputTranscript.id)];
      userInputTranscript := Slot(Str(freshMessage), Str(""));
      st := RC.Done;
    }

    /** Runs the handler an invocation names; `freshId` stands for the `uuid4()` it may draw. */
    method Deliver(call: RC.Invocation, freshId: string) returns (st: RC.Status)
      modifies this
      ensures call.handler == OnUpdated ==> UpdatedHandled(call.event, st)
      ensures call.handler == OnInterrupt ==> InterruptHandled(freshId) && st == RC.Done
      ensures call.handler == OnThreadUpdated ==> ThreadUpdateHandled(call.event, freshId, st)
      ensures call.handler == OnInputDone ==> InputDoneHandled(call.event, freshId, st)
      ensures call.handler !in {OnUpdated, OnInterrupt, OnThreadUpdated, OnInputDone} ==>
        st == RC.Done && effects == old(effects) && trackId == old(trackId)
        && transcript == old(transcript) && userInputTranscript == old(userInputTranscript)
      ensures client == old(client)
    {
      st := RC.Done;
      if call.handler == OnUpdated {
        st := HandleConversationUpdated(call.event);
      } else if call.handler == OnInterrupt {
        HandleConversationInterrupt(call.event, freshId);
      } else if call.handler == OnThreadUpdated {
        st := HandleConversationThreadUpdated(call.event, freshId);
      } else if call.handler == OnInputDone {
        st := HandleUserInputTranscriptDone(call.event, freshId);
      }
    }

    /**
     * `on_message`: typed text goes to the client as one `input_text` content
     * list only when connected; otherwise the user is told to start voice mode.
     */
    method OnMessage(text: string)
      modifies this, client
      ensures client == old(client)
      ensures old(client) != null && old(client.ws).Some? ==>
        && effects == old(effects)
        && client.frames == old(client.frames) + [
             map["event_id" := Str(RC.EventId(client.clock)), "type" := Str(RC.ItemCreate),
                 "item" := RC.UserMessageData(InputText(text)).fields["item"]],
             map["event_id" := Str(RC.EventId(client.clock)), "type" := Str(RC.ResponseCreate),
                 "response" := RC.ResponseConfig()]]
        && client.dispatched == old(client.dispatched) +
             RC.Deliveries(RC.HandlersOf(old(client.eventHandlers), RC.ConversationInterrupted), RC.InterruptEvent())
        && client.eventHandlers == RC.Touch(old(client.eventHandlers), RC.ConversationInterrupted)
      ensures !(old(client) != null && old(client.ws).Some?) ==>
        && effects == old(effects) + [Notice(VoiceModeWarning)]
        && (client != null ==>
              && client.frames == old(client.frames) && client.dispatched == old(client.dispatched)
              && client.eventHandlers == old(client.eventHandlers))
      ensures client != null ==> client.ws == old(client.ws) && client.clock == old(client.clock)
      ensures trackId == old(trackId) && transcript == old(transcript) && userInputTranscript == old(userInputTranscript)
    {
      if client != null && client.IsConnected() {
        var content := InputText(text);
        assert Truthy(content);
        var _ := client.SendUserMessageContent(content);
      } else {
        effects := effects + [Notice(VoiceModeWarning)];
      }
    }

    /**
     * `on_audio_start`: connects the client; any exception, a missing client
     * included, is reported in the chat and answered with false.
     */
    method OnAudioStart(handshake: Option<RC.Socket>) returns (started: bool)
      modifies this, client
      ensures client == old(client)
      ensures started <==> old(client) != null && handshake.Some?
      ensures started ==>
        && client.IsConnected() && client.ws == handshake && effects == old(effects)
        && client.frames == old(client.frames) + [
             map["event_id" := Str(RC.EventId(client.clock)), "type" := Str(RC.SessionUpdate),
                 "session" := client.sessionConfig]]
      ensures old(client) != null && !started ==> client.ws == old(client.ws) && client.frames == old(client.frames)
      ensures client != null ==>
        && client.dispatched == old(client.dispatched) && client.eventHandlers == old(client.eventHandlers)
        && client.clock == old(client.clock) && client.sessionConfig == old(client.sessionConfig)
      ensures old(client) == null ==> effects == old(effects) + [ErrorNotice(AttributeError)]
      ensures old(client) != null && handshake.None? ==> effects == old(effects) + [ErrorNotice(ConnectionFailed)]
      ensures trackId == old(trackId) && transcript == old(transcript) && userInputTranscript == old(userInputTranscript)
    {
      if client == null {
        effects := effects + [ErrorNotice(AttributeError)];
        return false;
      }
      var st := client.Connect(handshake);
      if st.Failed? {
        effects := effects + [ErrorNotice(st.exc)];
        return false;
      }
      started := true;
    }

    /** `on_audio_chunk`: forwards the chunk's bytes only when connected. */
    method OnAudioChunk(data: seq<byte>)
      modifies client
      ensures old(client) != null && old(client.ws).Some? && |data| > 0 ==>
        client.frames == old(client.frames) + [
          map["event_id" := Str(RC.EventId(client.clock)), "type" := Str(RC.AudioAppend),
              "audio" := Str(RC.AudioText(data, client.pcm16Of))]]
      ensures !(old(client) != null && old(client.ws).Some? && |data| > 0) && client != null ==>
        client.frames == old(client.frames)
      ensures client != null ==>
        && client.ws == old(client.ws) && client.dispatched == old(client.dispatched)
        && client.eventHandlers == old(client.eventHandlers) && client.clock == old(client.clock)
    {
      if client != null && client.IsConnected() {
        var _ := client.AppendInputAudio(data);
      }
    }

    /** `on_end`: disconnects only a connected client. */
    method OnEnd()
      modifies client
      ensures client != null ==>
        && !client.IsConnected()
        && client.frames == old(client.frames) && client.dispatched == old(client.dispatched)
        && client.eventHandlers == old(client.eventHandlers) && client.clock == old(client.clock)
      ensures client != null && old(client.ws).None? ==> client.ws == old(client.ws)
      ensures effects == old(effects) && trackId == old(trackId)
      ensures transcript == old(transcript) && userInputTranscript == old(userInputTranscript)
    {
      if client != null && client.IsConnected() {
        client.Disconnect();
      }
    }
  }
}
