/** `GeminiService` (services/GeminiService.ts): the singleton the React pages
    use. It loads the page script at most `MaxLoadAttempts` times, builds one
    agent, subscribes to it, and turns its calls into events of its own. The
    browser is a parameter: whether `window.GeminiAgent` and
    `window.ToolManager` are defined, and whether an injected script loads. */
module Service {
  import opened Wrappers
  import opened Wire
  import opened Transport
  import opened Tools
  import opened Agent
  import Setup

  const MaxLoadAttempts: nat := 5

  /** The events the service emits. The random `intensity` of `speaking` is not modelled. */
  datatype ServiceEvent =
    | Speaking
    | Interrupted
    | TurnComplete
    | TextSent(text: string)
    | Response(text: string)
    | Connected
    | ConnectionError(fault: AgentFault)
    | Disconnected
    | ErrorEvent(fault: AgentFault)
    | MicOn
    | MicOff
    | CameraOn
    | CameraOff

  datatype ServiceError = NotInitialized | ConnectFailed(fault: AgentFault)

  /** What the browser answers during `initialize`. */
  datatype Environment = Environment(
    agentDefined: bool,        // `window.GeminiAgent` is defined when `initialize` starts
    scriptLoads: bool,         // an injected script fires `onload` (else `onerror`)
    definedAfterLoad: bool,    // `window.GeminiAgent` is defined a second after `onload`
    toolManagerDefined: bool)  // `window.ToolManager` is defined

  // ----- The `content` listener -----

  /** The text of every part, joined in order; parts without text add nothing. */
  function ResponseText(parts: seq<Part>): (r: string)
    ensures forall i :: 0 <= i < |parts| ==> |parts[i].text| <= |r|
    ensures (forall i :: 0 <= i < |parts| ==> parts[i].text == "") ==> r == ""
  {
    if parts == [] then "" else parts[0].text + ResponseText(parts[1..])
  }

  lemma {:induction false} ResponseTextAppend(a: seq<Part>, b: seq<Part>)
    ensures ResponseText(a + b) == ResponseText(a) + ResponseText(b)
  {
    if a == [] {
      assert a + b == b;
    } else {
      assert (a + b)[0] == a[0] && (a + b)[1..] == a[1..] + b;
      ResponseTextAppend(a[1..], b);
    }
  }

  /** A `response` is emitted exactly when some part carries text. */
  lemma {:induction false} ResponseTextEmpty(parts: seq<Part>)
    ensures ResponseText(parts) == "" <==> forall p :: p in parts ==> p.text == ""
  {
    if parts != [] {
      ResponseTextEmpty(parts[1..]);
      assert forall p :: p in parts ==> p == parts[0] || p in parts[1..];
    }
  }

  /** The service's listeners on the agent, for one agent event. */
  function Reaction(ev: AgentEvent): (r: seq<ServiceEvent>)
    ensures |r| <= 1
  {
    match ev
    case AgentAudio(_) => [Speaking]
    case AgentInterrupted => [Interrupted]
    case AgentTurnComplete => [TurnComplete]
    case AgentTextSent(text) => [TextSent(text)]
    case AgentContent(parts) => if ResponseText(parts) != "" then [Response(ResponseText(parts))] else []
    case AgentTranscription(_) => []
  }

  /** The service's events for a run of agent events: at most one each, and
      only the kinds the listeners forward (never a connection or media event). */
  function Reactions(evs: seq<AgentEvent>): (r: seq<ServiceEvent>)
    ensures |r| <= |evs|
    ensures forall e :: e in r ==> e.Speaking? || e.Interrupted? || e.TurnComplete? || e.TextSent? || e.Response?
  {
    if evs == [] then [] else Reaction(evs[0]) + Reactions(evs[1..])
  }

  /** Although the service subscribes to `audio` and `content`, no frame ever
      makes it emit `speaking` or `response`: with the agent as the page script
      builds it (no streamer), `turn_complete` is all that reaches it. */
  lemma FrameThroughService(f: Frame)
    ensures forall e :: e in Reactions(FrameEmissions(None, Receive(f))) ==> e == TurnComplete
  {
    ReceivedFrameThroughAgent(f);
    OnlyTurnCompletes(FrameEmissions(None, Receive(f)));
  }

  lemma {:induction false} OnlyTurnCompletes(evs: seq<AgentEvent>)
    requires forall e :: e in evs ==> e == AgentTurnComplete
    ensures forall e :: e in Reactions(evs) ==> e == TurnComplete
  {
    if evs != [] {
      assert evs[0] in evs;
      assert forall e :: e in evs[1..] ==> e in evs;
      OnlyTurnCompletes(evs[1..]);
    }
  }

  function Min(a: nat, b: nat): nat
  {
    if a <= b then a else b
  }

  class GeminiService {
    var agent: GeminiAgent?
    var isInitialized: bool
    var scriptLoaded: bool
    var scriptLoadAttempts: nat
    /** `localStorage.getItem('apiKey')`; "" when absent. */
    var storedApiKey: string
    /** How many script elements were injected. */
    ghost var injections: nat

    ghost predicate Valid()
      reads this, agent, if agent != null then {agent.client} else {}, if agent != null then {agent.toolManager} else {}
    {
      && (isInitialized <==> agent != null)
      && (agent != null ==> agent.Valid())
      && injections == Min(scriptLoadAttempts, MaxLoadAttempts)
    }

    constructor ()
      ensures Valid() && agent == null && !isInitialized && !scriptLoaded && scriptLoadAttempts == 0
    {
      agent := null;
      isInitialized := false;
      scriptLoaded := false;
      scriptLoadAttempts := 0;
      storedApiKey := "";
      injections := 0;
    }

    /** `loadScript`: use the global when present; otherwise count an attempt
        and, within the limit, inject the script and wait for it. A script
        is never injected more than `MaxLoadAttempts` times. */
    method LoadScript(env: Environment) returns (loaded: bool)
      requires Valid()
      modifies this`scriptLoaded, this`scriptLoadAttempts, this`injections
      ensures Valid()
      ensures loaded == scriptLoaded
      ensures env.agentDefined ==> loaded && scriptLoadAttempts == old(scriptLoadAttempts)
      ensures !env.agentDefined ==> scriptLoadAttempts == old(scriptLoadAttempts) + 1
      ensures !env.agentDefined ==>
        (loaded <==> old(scriptLoadAttempts) < MaxLoadAttempts && env.scriptLoads && storedApiKey != "" && env.definedAfterLoad)
      ensures injections <= MaxLoadAttempts
    {
      scriptLoaded := env.agentDefined;
      if scriptLoaded {
        return true;
      }
      scriptLoadAttempts := scriptLoadAttempts + 1;
      if scriptLoadAttempts > MaxLoadAttempts {
        return false;
      }
      injections := injections + 1;
      if !env.scriptLoads {
        return false;
      }
      if storedApiKey == "" {
        return false;
      }
      scriptLoaded := env.definedAfterLoad;
      loaded := scriptLoaded;
    }

    /** `initialize(apiKey)`: succeeds at once when already initialized; refuses
        an empty key; otherwise stores the key, makes sure the page script is
        there, and builds the agent for the service configuration. */
    method Initialize(apiKey: string, env: Environment) returns (ok: bool)
      requires Valid()
      modifies this
      ensures Valid()
      ensures ok <==> isInitialized
      ensures old(isInitialized) ==> ok && agent == old(agent) && storedApiKey == old(storedApiKey)
      ensures !old(isInitialized) && apiKey == "" ==>
        !ok && storedApiKey == old(storedApiKey) && scriptLoadAttempts == old(scriptLoadAttempts)
      ensures !old(isInitialized) && apiKey != "" ==> storedApiKey == apiKey
      ensures !old(isInitialized) && apiKey != "" ==>
        (ok <==> if old(scriptLoaded) then env.agentDefined
                 else env.agentDefined || (old(scriptLoadAttempts) < MaxLoadAttempts && env.scriptLoads && env.definedAfterLoad))
      ensures !old(isInitialized) && ok ==>
        && fresh(agent) && agent.url == Setup.Endpoint + apiKey
        && agent.config == (if env.toolManagerDefined then WithDeclarationsAsWritten(Setup.ServiceConfig(), []) else Setup.ServiceConfig())
        && WireTools(agent.config.tools) == WireTools(Setup.ServiceConfig().tools)
        && agent.client == null && !agent.connected && agent.audioStreamer.None? && agent.audioRecorder.None?
        && (agent.toolManager != null <==> env.toolManagerDefined)
    {
      if isInitialized {
        return true;
      }
      if apiKey == "" {
        return false;
      }
      storedApiKey := apiKey;
      var definedNow := env.agentDefined;
      if !scriptLoaded {
        var loaded := LoadScript(env);
        if !loaded {
          return false;
        }
        definedNow := true;
      }
      if !definedNow {
        return false;
      }
      var toolManager: ToolManager? := null;
      if env.toolManagerDefined {
        toolManager := new ToolManager();
      }
      var created := GeminiAgent.Create(Setup.Endpoint + apiKey, Some(Setup.ServiceConfig()), toolManager);
      agent := created.value;
      isInitialized := true;
      ok := true;
    }

    /** `connect()`: refused before initialization; otherwise the agent
        connects and the outcome is announced. */
    method Connect(opens: bool) returns (events: seq<ServiceEvent>, r: Outcome<ServiceError>)
      requires Valid()
      modifies agent
      ensures Valid()
      ensures !isInitialized ==> r == Fail(NotInitialized) && events == []
      ensures isInitialized && opens ==> r == Pass && events == [Connected] && agent.connected
      ensures isInitialized && !opens ==>
        r == Fail(ConnectFailed(ConnectionFailed)) && events == [ConnectionError(ConnectionFailed)]
        && agent.connected == old(agent.connected)
    {
      if !isInitialized {
        return [], Fail(NotInitialized);
      }
      var c := agent.Connect(opens);
      if c.Fail? {
        return [ConnectionError(c.error)], Fail(ConnectFailed(c.error));
      }
      events, r := [Connected], Pass;
    }

    /** `disconnect()`: only with an agent, which is torn down. */
    method Disconnect() returns (events: seq<ServiceEvent>)
      requires Valid()
      modifies agent, if agent != null then {agent.client} else {}
      ensures Valid()
      ensures events == if agent == null then [] else [Disconnected]
      ensures agent != null ==> agent.client == null && !agent.connected
    {
      if agent == null {
        return [];
      }
      agent.Disconnect();
      events := [Disconnected];
    }

    /** `sendText(text)`: nothing without an agent; the agent's `text_sent` is
        passed on; a failure becomes an `error` event. */
    method SendText(text: string) returns (events: seq<ServiceEvent>)
      requires Valid()
      modifies if agent != null then {agent.client} else {}
      ensures Valid()
      ensures agent == null ==> events == []
      ensures agent != null && agent.client == null ==> events == [ErrorEvent(NoClient)]
      ensures agent != null && agent.client != null ==>
        && (events == [TextSent(text)] <==> agent.client.ws.Some? && agent.client.sockets[agent.client.ws.value] != Connecting)
        && (events != [TextSent(text)] ==> |events| == 1 && events[0].ErrorEvent?)
        && agent.client.sent == (if old(agent.client.IsOpen()) then old(agent.client.sent) + [(old(agent.client.ws).value, TextEnvelope(text, true))] else old(agent.client.sent))
    {
      if agent == null {
        return [];
      }
      var emitted, fault := agent.SendText(text);
      assert Reactions([]) == [];
      assert Reactions([AgentTextSent(text)]) == [TextSent(text)] + Reactions([]);
      events := Reactions(emitted);
      if fault.Some? {
        events := events + [ErrorEvent(fault.value)];
      }
    }

    /** `toggleMic()`: nothing without an agent or a recorder; otherwise the
        recorder flips and `mic_on`/`mic_off` says which way. */
    method ToggleMic() returns (events: seq<ServiceEvent>)
      requires Valid()
      modifies agent
      ensures Valid()
      ensures agent == null || old(agent.audioRecorder).None? ==> events == [] && (agent != null ==> agent.audioRecorder == old(agent.audioRecorder))
      ensures agent != null && old(agent.audioRecorder) == Some(true) ==> events == [MicOff] && agent.audioRecorder == Some(false)
      ensures agent != null && old(agent.audioRecorder) == Some(false) ==> events == [MicOn] && agent.audioRecorder == Some(true)
      ensures agent != null ==> agent.client == old(agent.client) && agent.connected == old(agent.connected)
    {
      if agent == null || agent.audioRecorder.None? {
        return [];
      }
      if agent.audioRecorder.value {
        agent.audioRecorder := Some(false);
        events := [MicOff];
      } else {
        agent.audioRecorder := Some(true);
        events := [MicOn];
      }
    }

    /** `toggleCamera(enable)`: `startCameraCapture` is not awaited, so
        `camera_on` is announced even when the agent refuses to start; the
        refusal is an unhandled rejection. */
    method ToggleCamera(enable: bool) returns (events: seq<ServiceEvent>, unhandled: Option<AgentFault>)
      requires Valid()
      ensures agent == null ==> events == [] && unhandled.None?
      ensures agent != null ==> events == (if enable then [CameraOn] else [CameraOff])
      ensures unhandled.Some? <==> agent != null && enable && !agent.connected
    {
      if agent == null {
        return [], None;
      }
      if enable {
        var r := agent.StartCameraCapture();
        unhandled := if r.Fail? then Some(r.error) else None;
        events := [CameraOn];
      } else {
        events, unhandled := [CameraOff], None;
      }
    }
  }
}
