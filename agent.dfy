/** `GeminiAgent` (script.js:418-596): owns one websocket client per
    connection, answers the model's tool calls through the `ToolManager`,
    and re-emits part of what the client receives. The audio components
    (`audioStreamer`, `audioRecorder`) are fields the source declares and
    tears down but never assigns; they are kept as state so that the handlers
    that use them keep their branches. */
module Agent {
  import opened Wrappers
  import opened Wire
  import opened Transport
  import opened Tools
  import Base64

  /** The events the agent can emit under the names its subscribers use. */
  datatype AgentEvent =
    | AgentAudio(data: seq<Base64.Byte>)
    | AgentInterrupted
    | AgentTurnComplete
    | AgentTextSent(text: string)
    | AgentContent(parts: seq<Part>)
    | AgentTranscription(text: string)

  /** The constructor's two checks. */
  datatype AgentError = UrlRequired | ConfigRequired

  /** A throw or a rejected promise inside the agent. */
  datatype AgentFault =
    | StreamerMissing                   // `this.audioStreamer` is null in a client-event handler
    | NoFunctionCall                    // `toolCall.functionCalls[0]` is undefined
    | NoToolManager                     // the agent was built without a tool manager
    | ToolCallRejected(rejection: Rejection)
    | ToolResponseRejected(failure: SendFailure)
    | NoClient                          // `this.client` is null
    | TextRejected(cause: SendError)
    | ConnectionFailed
    | NotConnected

  // ----- Tool declarations in the setup configuration -----

  /** The declarations an entry of `tools` carries, if it is `{functionDeclarations: [...]}`. */
  function DeclarationsIn(e: Json): Option<seq<Json>>
  {
    if e.JObj? && |e.fields| == 1 && e.fields[0].0 == "functionDeclarations" && e.fields[0].1.JArr?
    then Some(e.fields[0].1.items)
    else None
  }

  /** The function declarations a serialised `tools` array offers the model: those of its first such entry. */
  function OfferedDeclarations(entries: seq<Json>): (r: Option<seq<Json>>)
    ensures r.None? <==> forall i :: 0 <= i < |entries| ==> DeclarationsIn(entries[i]).None?
    ensures r.Some? ==> exists i :: 0 <= i < |entries| && DeclarationsIn(entries[i]) == r
  {
    if entries == [] then None
    else if DeclarationsIn(entries[0]).Some? then DeclarationsIn(entries[0])
    else OfferedDeclarations(entries[1..])
  }

  /** Appending an entry changes the offer only when nothing was offered
      before: the first declarations entry wins. */
  lemma {:induction false} OfferedAfterAppend(entries: seq<Json>, e: Json)
    ensures OfferedDeclarations(entries + [e]) ==
      if OfferedDeclarations(entries).Some? then OfferedDeclarations(entries) else DeclarationsIn(e)
  {
    if entries == [] {
      assert entries + [e] == [e];
      assert [e][1..] == [];
    } else {
      assert (entries + [e])[0] == entries[0];
      assert (entries + [e])[1..] == entries[1..] + [e];
      OfferedAfterAppend(entries[1..], e);
    }
  }

  /** The constructor as written: `config.tools.functionDeclarations = ...`
      hangs the declarations on the `tools` array object as a named property. */
  function WithDeclarationsAsWritten(config: Config, declarations: seq<Json>): (c: Config)
    ensures c.tools.functionDeclarations == Some(declarations)
    ensures WireTools(c.tools) == WireTools(config.tools)
    ensures c.model == config.model && c.systemInstruction == config.systemInstruction
  {
    config.(tools := config.tools.(functionDeclarations := Some(declarations)))
  }

  /** As written, what the setup frame offers the model does not depend on the
      declarations at all: `JSON.stringify` writes an array's elements only. */
  lemma DeclarationsNeverSent(config: Config, declarations: seq<Json>)
    ensures WireTools(WithDeclarationsAsWritten(config, declarations).tools) == WireTools(config.tools)
    ensures OfferedDeclarations(WireTools(WithDeclarationsAsWritten(config, declarations).tools))
         == OfferedDeclarations(WireTools(config.tools))
  {
  }

  /** The declarations as the service expects them: one more entry of `tools`. */
  function WithDeclarations(config: Config, declarations: seq<Json>): (c: Config)
    ensures |c.tools.entries| == |config.tools.entries| + 1
    ensures c.tools.entries[..|config.tools.entries|] == config.tools.entries
    ensures c.model == config.model && c.systemInstruction == config.systemInstruction
  {
    config.(tools := config.tools.(entries := config.tools.entries + [JObj([("functionDeclarations", JArr(declarations))])]))
  }

  /** The corrected constructor delivers exactly the registered declarations,
      unless the configuration already offered some of its own. */
  lemma DeclarationsReachSetup(config: Config, declarations: seq<Json>)
    ensures OfferedDeclarations(WireTools(WithDeclarations(config, declarations).tools)) ==
      if OfferedDeclarations(config.tools.entries).Some? then OfferedDeclarations(config.tools.entries)
      else Some(declarations)
  {
    OfferedAfterAppend(config.tools.entries, JObj([("functionDeclarations", JArr(declarations))]));
  }

  // ----- Reactions to client events -----

  /** What the agent emits for a client event other than a tool call, given
      its streamer (None is null; Some(b) is a streamer with `isInitialized == b`). */
  function Reaction(streamer: Option<bool>, ev: ClientEvent): (r: (seq<AgentEvent>, Option<AgentFault>))
    ensures |r.0| <= 1
    ensures r.1.Some? ==> r.0 == [] && r.1 == Some(StreamerMissing)
    ensures r.1.Some? <==> streamer.None? && (ev.AudioEvent? || ev.InterruptedEvent?)
  {
    match ev
    case AudioEvent(_) => if streamer.None? then ([], Some(StreamerMissing)) else ([], None)
    case InterruptedEvent => if streamer.None? then ([], Some(StreamerMissing)) else ([AgentInterrupted], None)
    case TurnCompleteEvent => ([AgentTurnComplete], None)
    case _ => ([], None)
  }

  /** The agent events one frame leads to. Only `interrupted` can throw
      synchronously, and it is always the only event of its frame. */
  function FrameEmissions(streamer: Option<bool>, evs: seq<ClientEvent>): (r: seq<AgentEvent>)
    ensures |r| <= |evs|
  {
    if evs == [] then [] else Reaction(streamer, evs[0]).0 + FrameEmissions(streamer, evs[1..])
  }

  /** Audio and content are never re-emitted by the agent, whatever the frame:
      they stop at the client. Without a streamer, `turn_complete` is the only
      event that gets through, and it gets through exactly when the frame has it. */
  lemma {:induction false} FrameReachesAgentListeners(streamer: Option<bool>, evs: seq<ClientEvent>)
    ensures forall e :: e in FrameEmissions(streamer, evs) ==> e == AgentTurnComplete || e == AgentInterrupted
    ensures streamer.None? ==> forall e :: e in FrameEmissions(streamer, evs) ==> e == AgentTurnComplete
    ensures AgentTurnComplete in FrameEmissions(streamer, evs) <==> TurnCompleteEvent in evs
  {
    if evs != [] {
      FrameReachesAgentListeners(streamer, evs[1..]);
      assert evs == [evs[0]] + evs[1..];
    }
  }

  /** For a whole received frame: a streamer-less agent passes on `turn_complete`
      when the frame completes the turn and nothing else. */
  lemma ReceivedFrameThroughAgent(f: Frame)
    ensures forall e :: e in FrameEmissions(None, Receive(f)) ==> e == AgentTurnComplete
    ensures AgentTurnComplete in FrameEmissions(None, Receive(f)) <==>
      f.toolCall.None? && !(f.toolCallCancellation.Some? && Truthy(f.toolCallCancellation.value))
      && f.serverContent.Some? && !f.serverContent.value.interrupted && f.serverContent.value.turnComplete
  {
    FrameReachesAgentListeners(None, Receive(f));
    if f.toolCall.None? && !(f.toolCallCancellation.Some? && Truthy(f.toolCallCancellation.value))
      && f.serverContent.Some? && !f.serverContent.value.interrupted {
      if f.serverContent.value.turnComplete {
        TurnCompleteFirst(f);
      } else {
        var evs := ModelTurnEvents(f.serverContent.value.modelTurn);
        assert Receive(f) == [] + evs;
        ModelTurnHasNoTurnComplete(f.serverContent.value.modelTurn);
      }
    }
  }

  lemma ModelTurnHasNoTurnComplete(mt: Option<ModelTurn>)
    ensures TurnCompleteEvent !in ModelTurnEvents(mt)
  {
    if mt.Some? && mt.value.parts.Some? {
      var parts := mt.value.parts.value;
      var r := AudioEmissions(AudioParts(parts));
      assert forall e :: e in r.0 ==> e.AudioEvent?;
    }
  }

  class GeminiAgent {
    const url: string
    const config: Config
    const toolManager: ToolManager?
    var client: GeminiWebsocketClient?
    var connected: bool
    var audioStreamer: Option<bool>
    var audioRecorder: Option<bool>

    ghost predicate Valid()
      reads this, client, toolManager
    {
      && (client != null ==> client.Valid())
      && (toolManager != null ==> toolManager.Valid())
    }

    constructor Init(url: string, config: Config, toolManager: ToolManager?)
      requires toolManager != null ==> toolManager.Valid()
      ensures Valid()
      ensures this.url == url && this.config == config && this.toolManager == toolManager
      ensures client == null && !connected && audioStreamer.None? && audioRecorder.None?
    {
      this.url := url;
      this.config := config;
      this.toolManager := toolManager;
      client := null;
      connected := false;
      audioStreamer := None;
      audioRecorder := None;
    }

    /** `new GeminiAgent({url, config, toolManager})`: both checks, then the
        registered tools' declarations are hung on the `tools` array as a named
        property, which the setup frame never carries. */
    static method Create(url: string, config: Option<Config>, toolManager: ToolManager?) returns (r: Result<GeminiAgent, AgentError>)
      requires toolManager != null ==> toolManager.Valid()
      ensures url == "" ==> r == Err(UrlRequired)
      ensures url != "" && config.None? ==> r == Err(ConfigRequired)
      ensures url != "" && config.Some? ==> r.Ok?
      ensures r.Ok? ==>
        && fresh(r.value) && r.value.Valid()
        && r.value.url == url && r.value.toolManager == toolManager
        && r.value.config == (if toolManager != null then WithDeclarationsAsWritten(config.value, toolManager.GetToolDeclarations()) else config.value)
        && WireTools(r.value.config.tools) == WireTools(config.value.tools)
        && r.value.client == null && !r.value.connected
        && r.value.audioStreamer.None? && r.value.audioRecorder.None?
    {
      if url == "" {
        return Err(UrlRequired);
      }
      if config.None? {
        return Err(ConfigRequired);
      }
      var c := config.value;
      if toolManager != null {
        c := WithDeclarationsAsWritten(c, toolManager.GetToolDeclarations());
      }
      var a := new GeminiAgent.Init(url, c, toolManager);
      r := Ok(a);
    }

    /** `connect()`: a new client on every call, then its connection attempt;
        `opens` says whether the socket opens or fails. On failure `connected`
        keeps its value and the new client is left connecting. */
    method Connect(opens: bool) returns (r: Outcome<AgentFault>)
      requires Valid()
      modifies this
      ensures Valid()
      ensures client != null && fresh(client) && client.url == url && client.config == config
      ensures audioStreamer == old(audioStreamer) && audioRecorder == old(audioRecorder)
      ensures opens ==>
        r == Pass && connected && client.IsOpen() && client.sockets == [Open]
        && client.sent == [(0, Setup(config))] && client.promises == [Resolved]
      ensures !opens ==>
        r == Fail(ConnectionFailed) && connected == old(connected)
        && client.ws.None? && client.isConnecting && client.sockets == [Closed]
        && client.sent == [] && client.promises == [Rejected]
    {
      var c := new GeminiWebsocketClient(url, config);
      client := c;
      var p := c.Connect();
      if opens {
        c.SocketOpened(0);
        connected := true;
        r := Pass;
      } else {
        c.SocketFailed(0);
        r := Fail(ConnectionFailed);
      }
    }

    /** The `tool_call` handler: only the first function call is answered, by
        the tool manager, and its result goes back through the client. A missing
        tool manager fails before the first call is looked at. */
    method HandleToolCall(tc: ToolCall) returns (fault: Option<AgentFault>)
      requires Valid()
      modifies client
      ensures Valid()
      ensures client != null ==> client.ws == old(client.ws) && client.sockets == old(client.sockets)
      ensures toolManager == null ==> fault == Some(NoToolManager)
      ensures toolManager != null && tc.functionCalls == [] ==> fault == Some(NoFunctionCall)
      ensures toolManager != null && tc.functionCalls != [] ==>
        var res := ToolCallResultAsWritten(toolManager.tools, tc.functionCalls[0]);
        && (res.Err? ==> fault == Some(ToolCallRejected(res.error)))
        && (res.Ok? && client == null ==> fault == Some(NoClient))
        && (res.Ok? && client != null ==>
             var env := ToolResponseEnvelope(res.value);
             && (fault.None? <==> env.Ok? && client.ws.Some? && client.sockets[client.ws.value] != Connecting)
             && (env.Ok? && old(client.IsOpen()) ==> client.sent == old(client.sent) + [(client.ws.value, env.value)]))
      ensures client != null && (fault.Some? || !old(client.IsOpen())) ==> client.sent == old(client.sent)
    {
      if toolManager == null {
        return Some(NoToolManager);
      }
      if tc.functionCalls == [] {
        return Some(NoFunctionCall);
      }
      var res := toolManager.HandleToolCall(tc.functionCalls[0]);
      if res.Err? {
        return Some(ToolCallRejected(res.error));
      }
      if client == null {
        return Some(NoClient);
      }
      var sent := client.SendToolResponse(res.value);
      if sent.Err? {
        return Some(ToolResponseRejected(sent.error));
      }
      fault := None;
    }

    /** The handlers `setupEventListeners` attaches to the client, for one event. */
    method OnClientEvent(ev: ClientEvent) returns (emitted: seq<AgentEvent>, fault: Option<AgentFault>)
      requires Valid()
      modifies this`audioStreamer, client
      ensures Valid()
      ensures !ev.ToolCallEvent? ==> (emitted, fault) == Reaction(old(audioStreamer), ev)
      ensures !ev.ToolCallEvent? && client != null ==> client.sent == old(client.sent)
      ensures ev.ToolCallEvent? ==> emitted == [] && audioStreamer == old(audioStreamer)
      ensures ev.ToolCallEvent? && client != null ==> client.ws == old(client.ws) && client.sockets == old(client.sockets)
      ensures ev.ToolCallEvent? && toolManager == null ==> fault == Some(NoToolManager)
      ensures ev.ToolCallEvent? && toolManager != null && ev.toolCall.functionCalls == [] ==> fault == Some(NoFunctionCall)
      ensures ev.ToolCallEvent? && toolManager != null && ev.toolCall.functionCalls != [] ==>
        var res := ToolCallResultAsWritten(toolManager.tools, ev.toolCall.functionCalls[0]);
        && (res.Err? ==> fault == Some(ToolCallRejected(res.error)))
        && (res.Ok? && client == null ==> fault == Some(NoClient))
        && (res.Ok? && client != null ==>
             var env := ToolResponseEnvelope(res.value);
             && (fault.None? <==> env.Ok? && client.ws.Some? && client.sockets[client.ws.value] != Connecting)
             && (env.Ok? && old(client.IsOpen()) ==> client.sent == old(client.sent) + [(client.ws.value, env.value)]))
      ensures ev.ToolCallEvent? && client != null && (fault.Some? || !old(client.IsOpen())) ==> client.sent == old(client.sent)
      ensures ev.AudioEvent? && old(audioStreamer).Some? ==> audioStreamer == Some(true)
      ensures ev.InterruptedEvent? && old(audioStreamer).Some? ==> audioStreamer == Some(false)
      ensures !ev.AudioEvent? && !ev.InterruptedEvent? ==> audioStreamer == old(audioStreamer)
      ensures old(audioStreamer).None? ==> audioStreamer.None?
    {
      emitted, fault := [], None;
      match ev {
        case AudioEvent(_) =>
          if audioStreamer.None? {
            fault := Some(StreamerMissing);
          } else {
            audioStreamer := Some(true);
          }
        case InterruptedEvent =>
          if audioStreamer.None? {
            fault := Some(StreamerMissing);
          } else {
            audioStreamer := Some(false);
            emitted := [AgentInterrupted];
          }
        case TurnCompleteEvent =>
          emitted := [AgentTurnComplete];
        case ToolCallEvent(tc) =>
          fault := HandleToolCall(tc);
        case _ =>
      }
    }

    /** `sendText`: the text goes out as a complete user turn, then `text_sent`
        is emitted. A throw from the client skips the emit. A socket that is
        already closing drops the text without a throw, so `text_sent` is
        still emitted. */
    method SendText(text: string) returns (emitted: seq<AgentEvent>, fault: Option<AgentFault>)
      requires Valid()
      modifies client
      ensures Valid()
      ensures client == null ==> fault == Some(NoClient)
      ensures client != null ==>
        && (fault.None? <==> client.ws.Some? && client.sockets[client.ws.value] != Connecting)
        && client.ws == old(client.ws) && client.sockets == old(client.sockets)
        && client.sent == (if old(client.IsOpen()) then old(client.sent) + [(client.ws.value, TextEnvelope(text, true))] else old(client.sent))
      ensures emitted == if fault.None? then [AgentTextSent(text)] else []
      ensures fault.Some? ==> fault.value.NoClient? || fault.value.TextRejected?
    {
      if client == null {
        return [], Some(NoClient);
      }
      var r := client.SendText(text, true);
      if r.Fail? {
        return [], Some(TextRejected(r.error));
      }
      emitted, fault := [AgentTextSent(text)], None;
    }

    /** `startCameraCapture` and `startScreenShare` refuse to start unless connected. */
    method StartCameraCapture() returns (r: Outcome<AgentFault>)
      ensures r.Pass? <==> connected
      ensures r.Fail? ==> r.error == NotConnected
    {
      if !connected {
        return Fail(NotConnected);
      }
      r := Pass;
    }

    method StartScreenShare() returns (r: Outcome<AgentFault>)
      ensures r.Pass? <==> connected
      ensures r.Fail? ==> r.error == NotConnected
    {
      if !connected {
        return Fail(NotConnected);
      }
      r := Pass;
    }

    /** `disconnect()`: the audio components are released, the client is
        disconnected and dropped, and the agent is no longer connected. */
    method Disconnect()
      requires Valid()
      modifies this, client
      ensures Valid()
      ensures client == null && !connected && audioStreamer.None? && audioRecorder.None?
      ensures old(client) != null ==> old(client).ws.None? && old(client).sent == old(client.sent)
      ensures old(client) != null ==> old(client).promises == old(client.promises)
      ensures old(client) != null && old(client.ws).Some? ==>
        old(client).sockets == old(client.sockets)[old(client.ws).value := CloseState(old(client.sockets)[old(client.ws).value])]
      ensures old(client) != null && old(client.ws).None? ==> old(client).sockets == old(client.sockets)
      ensures old(client) != null && old(client.ws).Some? ==>
        !old(client).isConnecting && old(client).connectionPromise.None?
      ensures old(client) != null && old(client.ws).None? ==>
        old(client).isConnecting == old(client.isConnecting) && old(client).connectionPromise == old(client.connectionPromise)
    {
      if audioRecorder.Some? {
        audioRecorder := None;
      }
      if audioStreamer.Some? {
        audioStreamer := None;
      }
      if client != null {
        client.Disconnect();
        client := null;
      }
      connected := false;
    }
  }
}
