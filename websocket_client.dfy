/** `GeminiWebsocketClient` (script.js:244-412): the connection state machine
    over `ws`, `isConnecting` and `connectionPromise`, the dispatch of inbound
    frames to typed events (`receive`), and the outbound envelope builders.
    The browser's WebSocket objects and the promises `connect` creates are
    kept in the client as explicit state: `sockets[k]` and `promises[k]` are
    the socket and the promise of the k-th connection attempt, and `sent`
    records every envelope a socket accepted, in order. */
module Transport {
  import opened Wrappers
  import opened Wire
  import Base64

  // ----- Inbound dispatch -----

  /** The events the client emits to its listeners. */
  datatype ClientEvent =
    | ToolCallEvent(toolCall: ToolCall)
    | ToolCallCancellationEvent(cancellation: Json)
    | InterruptedEvent
    | TurnCompleteEvent
    | AudioEvent(data: seq<Base64.Byte>)
    | ContentEvent(parts: seq<Part>)

  const AudioPcm: string := "audio/pcm"

  predicate StartsWith(s: string, prefix: string)
  {
    |prefix| <= |s| && s[..|prefix|] == prefix
  }

  /** `p.inlineData && p.inlineData.mimeType.startsWith('audio/pcm')`. */
  predicate IsAudio(p: Part)
  {
    p.inlineData.Some? && StartsWith(p.inlineData.value.mimeType, AudioPcm)
  }

  /** `parts.filter(isAudio)`. */
  function AudioParts(parts: seq<Part>): (r: seq<Part>)
    ensures forall p :: p in r ==> p in parts && IsAudio(p)
  {
    if parts == [] then []
    else (if IsAudio(parts[0]) then [parts[0]] else []) + AudioParts(parts[1..])
  }

  /** `parts.filter(p => !audioParts.includes(p))`: parsed parts are distinct
      objects, so this is the complement of the audio filter. */
  function OtherParts(parts: seq<Part>): (r: seq<Part>)
    ensures forall p :: p in r ==> p in parts && !IsAudio(p)
  {
    if parts == [] then []
    else (if IsAudio(parts[0]) then [] else [parts[0]]) + OtherParts(parts[1..])
  }

  /** `base64s.forEach(b64 => { if (b64) emit('audio', base64ToArrayBuffer(b64)) })`:
      an empty payload is skipped; a payload that is not base64 makes the decoder
      throw, which ends `receive` (the flag is false). */
  function AudioEmissions(audio: seq<Part>): (r: (seq<ClientEvent>, bool))
    requires forall p :: p in audio ==> IsAudio(p)
    ensures forall e :: e in r.0 ==> e.AudioEvent?
  {
    if audio == [] then ([], true)
    else
      assert audio[0] in audio && IsAudio(audio[0]);
      var data := audio[0].inlineData.value.data;
      var (rest, ok) := AudioEmissions(audio[1..]);
      if data == "" then (rest, ok)
      else match Base64.Decode(data)
        case None => ([], false)
        case Some(bytes) => ([AudioEvent(bytes)] + rest, ok)
  }

  /** The events for `serverContent.modelTurn`. A `modelTurn` without `parts`
      makes `parts.filter` throw: nothing further is emitted. */
  function ModelTurnEvents(mt: Option<ModelTurn>): (r: seq<ClientEvent>)
    ensures forall i :: 0 <= i < |r| ==> r[i].AudioEvent? || r[i].ContentEvent?
    ensures forall i :: 0 <= i < |r| - 1 ==> r[i].AudioEvent?
  {
    match mt
    case None => []
    case Some(ModelTurn(None)) => []
    case Some(ModelTurn(Some(parts))) =>
      var (audio, ok) := AudioEmissions(AudioParts(parts));
      var others := OtherParts(parts);
      audio + (if ok && |others| > 0 then [ContentEvent(others)] else [])
  }

  /** `receive`: the events emitted for one parsed frame, in order. */
  function Receive(f: Frame): (r: seq<ClientEvent>)
    ensures forall i :: 1 <= i < |r| ==> r[i].AudioEvent? || r[i].ContentEvent?
    ensures forall i :: 0 <= i < |r| - 1 ==> !r[i].ContentEvent?
  {
    if f.toolCall.Some? then [ToolCallEvent(f.toolCall.value)]
    else if f.toolCallCancellation.Some? && Truthy(f.toolCallCancellation.value) then
      [ToolCallCancellationEvent(f.toolCallCancellation.value)]
    else if f.serverContent.None? then []
    else
      var sc := f.serverContent.value;
      if sc.interrupted then [InterruptedEvent]
      else (if sc.turnComplete then [TurnCompleteEvent] else []) + ModelTurnEvents(sc.modelTurn)
  }

  // ----- Properties of the dispatch -----

  /** A `toolCall` frame emits only `tool_call`, whatever else it carries. */
  lemma ToolCallTakesPrecedence(f: Frame)
    requires f.toolCall.Some?
    ensures Receive(f) == [ToolCallEvent(f.toolCall.value)]
  {
  }

  /** Otherwise a (truthy) `toolCallCancellation` emits only `tool_call_cancellation`. */
  lemma CancellationComesNext(f: Frame)
    requires f.toolCall.None? && f.toolCallCancellation.Some? && Truthy(f.toolCallCancellation.value)
    ensures Receive(f) == [ToolCallCancellationEvent(f.toolCallCancellation.value)]
  {
  }

  /** Otherwise `serverContent.interrupted` emits only `interrupted`: the same
      frame's `turnComplete` and `modelTurn` are suppressed. */
  lemma InterruptedSuppressesTurn(f: Frame)
    requires f.toolCall.None? && !(f.toolCallCancellation.Some? && Truthy(f.toolCallCancellation.value))
    requires f.serverContent.Some? && f.serverContent.value.interrupted
    ensures Receive(f) == [InterruptedEvent]
  {
  }

  /** A frame with none of the recognised payloads emits nothing. */
  lemma UnmatchedFrameEmitsNothing(f: Frame)
    requires f.toolCall.None? && !(f.toolCallCancellation.Some? && Truthy(f.toolCallCancellation.value))
    requires f.serverContent.None?
    ensures Receive(f) == []
  {
  }

  /** `turn_complete` comes first, before the frame's audio and content, and only once. */
  lemma TurnCompleteFirst(f: Frame)
    requires f.toolCall.None? && !(f.toolCallCancellation.Some? && Truthy(f.toolCallCancellation.value))
    requires f.serverContent.Some? && !f.serverContent.value.interrupted && f.serverContent.value.turnComplete
    ensures |Receive(f)| >= 1 && Receive(f)[0] == TurnCompleteEvent
    ensures forall i :: 1 <= i < |Receive(f)| ==> Receive(f)[i] != TurnCompleteEvent
  {
    var evs := ModelTurnEvents(f.serverContent.value.modelTurn);
    assert Receive(f) == [TurnCompleteEvent] + evs;
    forall i | 1 <= i < |Receive(f)|
      ensures Receive(f)[i] != TurnCompleteEvent
    {
      assert Receive(f)[i] == evs[i - 1];
      assert evs[i - 1] in evs;
    }
  }

  /** The two filters split the parts: every part lands in exactly one batch. */
  lemma {:induction false} PartitionCounts(parts: seq<Part>)
    ensures |AudioParts(parts)| + |OtherParts(parts)| == |parts|
    ensures forall p :: p in parts ==> (p in AudioParts(parts) <==> IsAudio(p)) && (p in OtherParts(parts) <==> !IsAudio(p))
  {
    if parts != [] {
      PartitionCounts(parts[1..]);
      assert forall p :: p in parts ==> p == parts[0] || p in parts[1..];
    }
  }

  /** Each filter keeps arrival order: filtering a concatenation concatenates the filtered halves. */
  lemma PartitionKeepsOrder(a: seq<Part>, b: seq<Part>)
    ensures AudioParts(a + b) == AudioParts(a) + AudioParts(b)
    ensures OtherParts(a + b) == OtherParts(a) + OtherParts(b)
  {
    AudioPartsAppend(a, b);
    OtherPartsAppend(a, b);
  }

  lemma AudioPartsCons(x: Part, rest: seq<Part>)
    ensures AudioParts([x] + rest) == (if IsAudio(x) then [x] else []) + AudioParts(rest)
  {
    assert ([x] + rest)[0] == x && ([x] + rest)[1..] == rest;
  }

  lemma OtherPartsCons(x: Part, rest: seq<Part>)
    ensures OtherParts([x] + rest) == (if IsAudio(x) then [] else [x]) + OtherParts(rest)
  {
    assert ([x] + rest)[0] == x && ([x] + rest)[1..] == rest;
  }

  /** A non-empty sequence is its head followed by its tail, also after appending. */
  lemma SplitHead<T>(a: seq<T>, b: seq<T>)
    requires a != []
    ensures a == [a[0]] + a[1..] && a + b == [a[0]] + (a[1..] + b)
  {
  }

  lemma AppendAssoc<T>(k: seq<T>, u: seq<T>, v: seq<T>)
    ensures k + (u + v) == (k + u) + v
  {
  }

  lemma {:induction false} AudioPartsAppend(a: seq<Part>, b: seq<Part>)
    ensures AudioParts(a + b) == AudioParts(a) + AudioParts(b)
  {
    if a == [] {
      assert a + b == b;
    } else {
      SplitHead(a, b);
      var x, t := a[0], a[1..];
      AudioPartsCons(x, t + b);
      AudioPartsCons(x, t);
      AudioPartsAppend(t, b);
      AppendAssoc(if IsAudio(x) then [x] else [], AudioParts(t), AudioParts(b));
    }
  }

  lemma {:induction false} OtherPartsAppend(a: seq<Part>, b: seq<Part>)
    ensures OtherParts(a + b) == OtherParts(a) + OtherParts(b)
  {
    if a == [] {
      assert a + b == b;
    } else {
      SplitHead(a, b);
      var x, t := a[0], a[1..];
      OtherPartsCons(x, t + b);
      OtherPartsCons(x, t);
      OtherPartsAppend(t, b);
      AppendAssoc(if IsAudio(x) then [] else [x], OtherParts(t), OtherParts(b));
    }
  }

  /** The payloads of the parts that carry audio, in order; None if one is not base64. */
  function DecodedAudio(audio: seq<Part>): Option<seq<seq<Base64.Byte>>>
    requires forall p :: p in audio ==> IsAudio(p)
  {
    if audio == [] then Some([])
    else
      assert audio[0] in audio && IsAudio(audio[0]);
      var data := audio[0].inlineData.value.data;
      match DecodedAudio(audio[1..])
      case None => None
      case Some(rest) =>
        if data == "" then Some(rest)
        else match Base64.Decode(data)
          case None => None
          case Some(bytes) => Some([bytes] + rest)
  }

  /** The audio events of a batch are one per non-empty payload, in order, each
      carrying the decoded bytes. */
  lemma {:induction false} AudioEventsMatchPayloads(audio: seq<Part>)
    requires forall p :: p in audio ==> IsAudio(p)
    requires DecodedAudio(audio).Some?
    ensures AudioEmissions(audio).1
    ensures |AudioEmissions(audio).0| == |DecodedAudio(audio).value|
    ensures forall i :: 0 <= i < |AudioEmissions(audio).0| ==> AudioEmissions(audio).0[i] == AudioEvent(DecodedAudio(audio).value[i])
  {
    if audio != [] {
      AudioEventsMatchPayloads(audio[1..]);
    }
  }

  /** A `modelTurn` frame whose audio payloads all decode: `turn_complete` first
      if the frame completes the turn, then one `audio` event per audio part with
      a non-empty payload, in order, then exactly one `content` event with the
      non-audio parts, in order, if there are any. Audio parts with an empty
      payload produce neither. */
  lemma ModelTurnPartition(f: Frame, parts: seq<Part>)
    requires f.toolCall.None? && !(f.toolCallCancellation.Some? && Truthy(f.toolCallCancellation.value))
    requires f.serverContent.Some? && !f.serverContent.value.interrupted
    requires f.serverContent.value.modelTurn == Some(ModelTurn(Some(parts)))
    requires DecodedAudio(AudioParts(parts)).Some?
    ensures Receive(f) ==
      (if f.serverContent.value.turnComplete then [TurnCompleteEvent] else [])
      + AudioEventsOf(DecodedAudio(AudioParts(parts)).value)
      + (if OtherParts(parts) == [] then [] else [ContentEvent(OtherParts(parts))])
  {
    var mt := f.serverContent.value.modelTurn;
    var audio := DecodedAudio(AudioParts(parts)).value;
    var (emitted, ok) := AudioEmissions(AudioParts(parts));
    AudioEventsMatchPayloads(AudioParts(parts));
    assert emitted == AudioEventsOf(audio);
    var head := if f.serverContent.value.turnComplete then [TurnCompleteEvent] else [];
    var tail := if |OtherParts(parts)| > 0 then [ContentEvent(OtherParts(parts))] else [];
    assert ModelTurnEvents(mt) == emitted + tail;
    assert Receive(f) == head + ModelTurnEvents(mt);
  }

  /** One `audio` event per decoded payload, in order. */
  function AudioEventsOf(payloads: seq<seq<Base64.Byte>>): (r: seq<ClientEvent>)
    ensures |r| == |payloads| && forall i :: 0 <= i < |r| ==> r[i] == AudioEvent(payloads[i])
  {
    seq(|payloads|, i requires 0 <= i < |payloads| => AudioEvent(payloads[i]))
  }

  /** A part carrying `bytes`, base64-encoded, as inline data. */
  function AudioPart(mimeType: string, bytes: seq<Base64.Byte>): Part
  {
    Part("", Some(InlineData(mimeType, Base64.Encode(bytes))))
  }

  /** A chunk that the peer encoded from `bytes` reaches the listeners as exactly
      those bytes. */
  lemma AudioRoundTrip(f: Frame, mimeType: string, bytes: seq<Base64.Byte>)
    requires f.toolCall.None? && f.toolCallCancellation.None?
    requires StartsWith(mimeType, AudioPcm) && bytes != []
    requires f.serverContent == Some(ServerContent(false, false, Some(ModelTurn(Some([AudioPart(mimeType, bytes)])))))
    ensures Receive(f) == [AudioEvent(bytes)]
  {
    SingleAudioPart(mimeType, bytes);
    assert Receive(f) == [] + ModelTurnEvents(Some(ModelTurn(Some([AudioPart(mimeType, bytes)]))));
  }

  lemma SingleAudioPart(mimeType: string, bytes: seq<Base64.Byte>)
    requires StartsWith(mimeType, AudioPcm) && bytes != []
    ensures ModelTurnEvents(Some(ModelTurn(Some([AudioPart(mimeType, bytes)])))) == [AudioEvent(bytes)]
  {
    var p := AudioPart(mimeType, bytes);
    assert IsAudio(p);
    assert [p][1..] == [];
    assert AudioParts([p]) == [p];
    assert OtherParts([p]) == [];
    Base64.DecodeEncode(bytes);
    assert |Base64.Encode(bytes)| >= 4;
    assert AudioEmissions([]) == ([], true);
    assert [p][0].inlineData.value.data == Base64.Encode(bytes);
    assert Base64.Decode(Base64.Encode(bytes)) == Some(bytes);
    assert AudioEmissions([p]) == ([AudioEvent(bytes)] + [], true);
  }

  // ----- Outbound envelopes -----

  /** `sendAudio`: one PCM chunk. */
  function AudioEnvelope(base64audio: string): Envelope
  {
    RealtimeInput([MediaChunk(AudioPcm, base64audio)])
  }

  /** `sendImage`: one JPEG chunk. */
  function ImageEnvelope(base64image: string): Envelope
  {
    RealtimeInput([MediaChunk("image/jpeg", base64image)])
  }

  /** `sendText`: one user turn; `endOfTurn` (true by default in the source) becomes `turnComplete`. */
  function TextEnvelope(text: string, endOfTurn: bool): Envelope
  {
    ClientContent([Turn("user", text)], endOfTurn)
  }

  /** An audio chunk the client sends is one the receiving side classifies as
      audio, and its payload decodes back to the bytes that were encoded. */
  lemma SentAudioIsAudio(bytes: seq<Base64.Byte>)
    ensures var chunk := AudioEnvelope(Base64.Encode(bytes)).mediaChunks[0];
      && IsAudio(Part("", Some(InlineData(chunk.mimeType, chunk.data))))
      && Base64.Decode(chunk.data) == Some(bytes)
  {
    Base64.DecodeEncode(bytes);
  }

  /** Why `sendToolResponse` throws before sending. */
  datatype ToolResponseError = MissingId | MissingOutput

  /** The object handed to `sendToolResponse`: `{id, output}` or `{id, error}`;
      None is `undefined`, an empty `id` is a missing or empty one. */
  datatype ToolResult = ToolResult(id: string, output: Option<Json>, error: Option<Json>)

  predicate HasError(r: ToolResult)
  {
    r.error.Some? && Truthy(r.error.value)
  }

  /** The validation and envelope of `sendToolResponse`. */
  function ToolResponseEnvelope(r: ToolResult): (e: Result<Envelope, ToolResponseError>)
    ensures e.Err? <==> r.id == "" || (!HasError(r) && r.output.None?)
    ensures e == Err(MissingId) <==> r.id == ""
    ensures e.Ok? ==> e.value.ToolResponse? && |e.value.functionResponses| == 1
                      && e.value.functionResponses[0].id == r.id
    ensures e.Ok? && HasError(r) ==> e.value.functionResponses[0].response == ErrorBody(r.error.value)
    ensures e.Ok? && !HasError(r) ==> e.value.functionResponses[0].response == OutputBody(r.output.value)
  {
    if r.id == "" then Err(MissingId)
    else if HasError(r) then Ok(ToolResponse([FunctionResponse(r.id, ErrorBody(r.error.value))]))
    else if r.output.None? then Err(MissingOutput)
    else Ok(ToolResponse([FunctionResponse(r.id, OutputBody(r.output.value))]))
  }

  // ----- The connection state machine -----

  /** `WebSocket.readyState`. */
  datatype ReadyState = Connecting | Open | Closing | Closed

  /** The settlement of the promise a `connect` created. */
  datatype PromiseState = Pending | Resolved | Rejected

  /** Why `sendJSON` throws: no socket (`this.ws` is null), or a socket still
      connecting (the browser's InvalidStateError). */
  datatype SendError = NoSocket | NotYetOpen

  /** Settling a promise that is already settled changes nothing. */
  function Settle(p: PromiseState, to: PromiseState): PromiseState
  {
    if p == Pending then to else p
  }

  class GeminiWebsocketClient {
    const url: string
    const config: Config
    var ws: Option<nat>
    var isConnecting: bool
    var connectionPromise: Option<nat>
    var sockets: seq<ReadyState>
    var promises: seq<PromiseState>
    var sent: seq<(nat, Envelope)>

    ghost predicate Valid()
      reads this
    {
      && |sockets| == |promises|
      && (ws.Some? ==> ws.value < |sockets|)
      && (connectionPromise.Some? ==> connectionPromise.value < |promises|)
      && (isConnecting ==> connectionPromise == Some(|sockets| - 1))
      && forall i :: 0 <= i < |sent| ==> sent[i].0 < |sockets|
    }

    /** True when `this.ws?.readyState === WebSocket.OPEN`. */
    predicate IsOpen()
      reads this
      requires Valid()
    {
      ws.Some? && sockets[ws.value] == Open
    }

    constructor (url: string, config: Config)
      ensures Valid() && this.url == url && this.config == config
      ensures ws == None && !isConnecting && connectionPromise == None
      ensures sockets == [] && promises == [] && sent == []
    {
      this.url := url;
      this.config := config;
      ws := None;
      isConnecting := false;
      connectionPromise := None;
      sockets, promises, sent := [], [], [];
    }

    /** `connect()`: while a socket is open or a connection is under way, the
        existing promise is returned and no socket is created; otherwise a new
        socket and a new pending promise are made. */
    method Connect() returns (p: Option<nat>)
      requires Valid()
      modifies this
      ensures Valid()
      ensures old(IsOpen() || isConnecting) ==>
        p == old(connectionPromise) && ws == old(ws) && isConnecting == old(isConnecting)
        && connectionPromise == old(connectionPromise)
        && sockets == old(sockets) && promises == old(promises) && sent == old(sent)
      ensures !old(IsOpen() || isConnecting) ==>
        p == Some(|old(sockets)|) && connectionPromise == p && isConnecting && ws == old(ws)
        && sockets == old(sockets) + [Connecting] && promises == old(promises) + [Pending] && sent == old(sent)
    {
      if IsOpen() {
        return connectionPromise;
      }
      if isConnecting {
        return connectionPromise;
      }
      isConnecting := true;
      p := Some(|sockets|);
      sockets := sockets + [Connecting];
      promises := promises + [Pending];
      connectionPromise := p;
    }

    /** `disconnect()`: close the current socket and forget it; with no socket,
        nothing at all happens. */
    method Disconnect()
      requires Valid()
      modifies this
      ensures Valid()
      ensures old(ws).None? ==>
        ws == old(ws) && isConnecting == old(isConnecting) && connectionPromise == old(connectionPromise)
        && sockets == old(sockets) && promises == old(promises) && sent == old(sent)
      ensures old(ws).Some? ==>
        ws == None && !isConnecting && connectionPromise == None
        && sockets == old(sockets)[old(ws).value := CloseState(old(sockets)[old(ws).value])]
        && promises == old(promises) && sent == old(sent)
    {
      if ws.Some? {
        sockets := sockets[ws.value := CloseState(sockets[ws.value])];
        ws := None;
        isConnecting := false;
        connectionPromise := None;
      }
    }

    /** The socket `k` fires `open`: it becomes `ws`, the connection is no longer
        under way, `{setup: config}` is sent on it and only then is the promise
        resolved. */
    method SocketOpened(k: nat)
      requires Valid() && k < |sockets| && sockets[k] == Connecting
      modifies this
      ensures Valid()
      ensures ws == Some(k) && !isConnecting && connectionPromise == old(connectionPromise)
      ensures sockets == old(sockets)[k := Open]
      ensures sent == old(sent) + [(k, Setup(config))]
      ensures promises == old(promises)[k := Settle(old(promises)[k], Resolved)]
    {
      sockets := sockets[k := Open];
      ws := Some(k);
      isConnecting := false;
      var r := SendJson(Setup(config));
      assert r == Pass;
      promises := promises[k := Settle(promises[k], Resolved)];
    }

    /** The socket `k` fires `error`: `disconnect()` (which acts on `this.ws`,
        whatever socket that is), then the promise of `k` is rejected. A socket
        that fails before opening was never stored in `ws`, so when no other
        socket is current `isConnecting` stays true. */
    method SocketFailed(k: nat)
      requires Valid() && k < |sockets| && sockets[k] != Closed
      modifies this
      ensures Valid()
      ensures old(ws).None? ==> isConnecting == old(isConnecting) && connectionPromise == old(connectionPromise)
      ensures old(ws).Some? ==> !isConnecting && connectionPromise == None
      ensures ws == None && sent == old(sent)
      ensures promises == old(promises)[k := Settle(old(promises)[k], Rejected)]
      ensures old(ws).None? ==> sockets == old(sockets)[k := Closed]
      ensures old(ws).Some? ==>
        sockets == old(sockets)[old(ws).value := CloseState(old(sockets)[old(ws).value])][k := Closed]
    {
      Disconnect();
      sockets := sockets[k := Closed];
      promises := promises[k := Settle(promises[k], Rejected)];
    }

    /** The socket `k` is closed by the peer or the network. The client has no
        `close` listener: its fields stay as they are. */
    method SocketClosed(k: nat)
      requires Valid() && k < |sockets|
      modifies this`sockets
      ensures Valid()
      ensures sockets == old(sockets)[k := Closed]
    {
      sockets := sockets[k := Closed];
    }

    /** `sendJSON`: `ws.send` appends to the socket's output when it is open,
        throws when there is no socket or it is still connecting, and (as the
        browser does) silently discards the data once the socket is closing. */
    method SendJson(e: Envelope) returns (r: Outcome<SendError>)
      requires Valid()
      modifies this`sent
      ensures Valid()
      ensures old(ws).None? ==> r == Fail(NoSocket) && sent == old(sent)
      ensures ws.Some? && sockets[ws.value] == Connecting ==> r == Fail(NotYetOpen) && sent == old(sent)
      ensures IsOpen() ==> r == Pass && sent == old(sent) + [(ws.value, e)]
      ensures ws.Some? && sockets[ws.value] in {Closing, Closed} ==> r == Pass && sent == old(sent)
    {
      if ws.None? {
        return Fail(NoSocket);
      }
      match sockets[ws.value]
      case Connecting => r := Fail(NotYetOpen);
      case Open =>
        sent := sent + [(ws.value, e)];
        r := Pass;
      case _ => r := Pass;
    }

    method SendAudio(base64audio: string) returns (r: Outcome<SendError>)
      requires Valid()
      modifies this`sent
      ensures Valid()
      ensures r == Pass <==> ws.Some? && sockets[ws.value] != Connecting
      ensures IsOpen() ==> sent == old(sent) + [(ws.value, AudioEnvelope(base64audio))]
      ensures !IsOpen() ==> sent == old(sent)
    {
      r := SendJson(AudioEnvelope(base64audio));
    }

    method SendImage(base64image: string) returns (r: Outcome<SendError>)
      requires Valid()
      modifies this`sent
      ensures Valid()
      ensures r == Pass <==> ws.Some? && sockets[ws.value] != Connecting
      ensures IsOpen() ==> sent == old(sent) + [(ws.value, ImageEnvelope(base64image))]
      ensures !IsOpen() ==> sent == old(sent)
    {
      r := SendJson(ImageEnvelope(base64image));
    }

    method SendText(text: string, endOfTurn: bool) returns (r: Outcome<SendError>)
      requires Valid()
      modifies this`sent
      ensures Valid()
      ensures r == Pass <==> ws.Some? && sockets[ws.value] != Connecting
      ensures IsOpen() ==> sent == old(sent) + [(ws.value, TextEnvelope(text, endOfTurn))]
      ensures !IsOpen() ==> sent == old(sent)
    {
      r := SendJson(TextEnvelope(text, endOfTurn));
    }

    /** `sendToolResponse`: an invalid result throws before anything is sent;
        a valid one is sent as one `functionResponses` entry with its id. */
    method SendToolResponse(t: ToolResult) returns (r: Result<(), SendFailure>)
      requires Valid()
      modifies this`sent
      ensures Valid()
      ensures ToolResponseEnvelope(t).Err? ==> r == Err(Invalid(ToolResponseEnvelope(t).error)) && sent == old(sent)
      ensures ToolResponseEnvelope(t).Ok? && IsOpen() ==> r.Ok? && sent == old(sent) + [(ws.value, ToolResponseEnvelope(t).value)]
      ensures ToolResponseEnvelope(t).Ok? && !IsOpen() ==> sent == old(sent)
      ensures ToolResponseEnvelope(t).Ok? ==> (r.Ok? <==> ws.Some? && sockets[ws.value] != Connecting)
    {
      var e := ToolResponseEnvelope(t);
      if e.Err? {
        return Err(Invalid(e.error));
      }
      var s := SendJson(e.value);
      if s.Fail? {
        return Err(Unsent(s.error));
      }
      r := Ok(());
    }
  }

  /** What a `sendToolResponse` can throw. */
  datatype SendFailure = Invalid(reason: ToolResponseError) | Unsent(cause: SendError)

  /** `ws.close()`: a socket that is not yet closed starts closing. */
  function CloseState(s: ReadyState): ReadyState
  {
    if s == Closed then Closed else Closing
  }
}
