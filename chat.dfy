/** `ChatManager` (script.js:644-696) and the handlers that `init` attaches to
    the agent for it (script.js:749-767). The DOM is abstracted to the list of
    message elements in `#messages` and the text of `#streaming-message`;
    scrolling is not modelled. */
module Chat {
  import opened Wrappers
  import Agent

  datatype UserMessageType = TextMessage | AudioMessage

  /** A message element: `user-message`, `user-message audio-message` or `bot-message`. */
  datatype Message = UserMessage(text: string) | UserAudioMessage | BotMessage(text: string)

  /** The visible state of the chat. */
  datatype Transcript = Transcript(messages: seq<Message>, streaming: string, lastUserMessageType: Option<UserMessageType>)

  /** `finalizeStreamingMessage` on a page with a streaming container: a
      non-empty streamed text becomes a bot message and the stream is cleared. */
  function Finalized(t: Transcript): (r: Transcript)
    ensures r.streaming == ""
    ensures r.lastUserMessageType == t.lastUserMessageType
    ensures t.streaming == "" ==> r == t
    ensures t.streaming != "" ==> r.messages == t.messages + [BotMessage(t.streaming)]
  {
    if t.streaming != "" then t.(messages := t.messages + [BotMessage(t.streaming)], streaming := "") else t
  }

  /** The chat's reaction to one agent event. Without a streaming container,
      transcriptions are ignored and the stream stays empty. */
  function Handle(t: Transcript, hasStreamingContainer: bool, ev: Agent.AgentEvent): (r: Transcript)
    ensures |t.messages| <= |r.messages| <= |t.messages| + 2
    ensures r.messages[..|t.messages|] == t.messages
    ensures t.lastUserMessageType.Some? ==> r.lastUserMessageType.Some?
    ensures ev.AgentTextSent? ==> |r.messages| > 0 && r.messages[|r.messages| - 1] == UserMessage(ev.text) && r.lastUserMessageType == Some(TextMessage)
    ensures ev.AgentTranscription? ==> r.messages == t.messages && r.streaming == (if hasStreamingContainer then ev.text else t.streaming)
  {
    match ev
    case AgentTranscription(text) => if hasStreamingContainer then t.(streaming := text) else t
    case AgentTextSent(text) =>
      var f := Finalized(t);
      f.(messages := f.messages + [UserMessage(text)], lastUserMessageType := Some(TextMessage))
    case AgentInterrupted =>
      var f := Finalized(t);
      if f.lastUserMessageType.None? then f.(messages := f.messages + [UserAudioMessage], lastUserMessageType := Some(AudioMessage))
      else f
    case AgentTurnComplete => Finalized(t)
    case _ => t
  }

  /** The chat after a run of agent events, one `Handle` each. Once a user
      message has been shown it stays recorded, and each event adds at most two
      messages. */
  function Replay(t: Transcript, hasStreamingContainer: bool, evs: seq<Agent.AgentEvent>): (r: Transcript)
    ensures t.lastUserMessageType.Some? ==> r.lastUserMessageType.Some?
    ensures |r.messages| <= |t.messages| + 2 * |evs|
    decreases |evs|
  {
    if evs == [] then t else Replay(Handle(t, hasStreamingContainer, evs[0]), hasStreamingContainer, evs[1..])
  }

  function AudioCount(ms: seq<Message>): nat
  {
    if ms == [] then 0 else (if ms[0] == UserAudioMessage then 1 else 0) + AudioCount(ms[1..])
  }

  lemma {:induction false} AudioCountAppend(a: seq<Message>, b: seq<Message>)
    ensures AudioCount(a + b) == AudioCount(a) + AudioCount(b)
  {
    if a == [] {
      assert a + b == b;
    } else {
      assert (a + b)[0] == a[0] && (a + b)[1..] == a[1..] + b;
      AudioCountAppend(a[1..], b);
    }
  }

  /** The placeholder "Audio message" appears only while no user message has been shown. */
  predicate PlaceholderInvariant(t: Transcript)
  {
    AudioCount(t.messages) <= 1 && (t.lastUserMessageType.None? ==> AudioCount(t.messages) == 0)
  }

  lemma HandleKeepsPlaceholderInvariant(t: Transcript, c: bool, ev: Agent.AgentEvent)
    requires PlaceholderInvariant(t)
    ensures PlaceholderInvariant(Handle(t, c, ev))
  {
    var f := Finalized(t);
    if t.streaming != "" {
      AudioCountAppend(t.messages, [BotMessage(t.streaming)]);
    }
    assert AudioCount(f.messages) == AudioCount(t.messages);
    match ev {
      case AgentTextSent(text) => AudioCountAppend(f.messages, [UserMessage(text)]);
      case AgentInterrupted => AudioCountAppend(f.messages, [UserAudioMessage]);
      case _ =>
    }
  }

  /** However the agent's events arrive, the chat shows at most one audio
      placeholder: it is added on an interruption only before any user message. */
  lemma {:induction false} AtMostOneAudioPlaceholder(t: Transcript, c: bool, evs: seq<Agent.AgentEvent>)
    requires PlaceholderInvariant(t)
    ensures PlaceholderInvariant(Replay(t, c, evs))
    ensures AudioCount(Replay(t, c, evs).messages) <= 1
    decreases |evs|
  {
    if evs != [] {
      HandleKeepsPlaceholderInvariant(t, c, evs[0]);
      AtMostOneAudioPlaceholder(Handle(t, c, evs[0]), c, evs[1..]);
    }
  }

  /** Messages are only ever appended: the transcript so far is a prefix of every later one. */
  lemma {:induction false} TranscriptOnlyGrows(t: Transcript, c: bool, evs: seq<Agent.AgentEvent>)
    ensures |t.messages| <= |Replay(t, c, evs).messages|
    ensures Replay(t, c, evs).messages[..|t.messages|] == t.messages
    decreases |evs|
  {
    if evs != [] {
      var h := Handle(t, c, evs[0]);
      assert h.messages[..|t.messages|] == t.messages;
      TranscriptOnlyGrows(h, c, evs[1..]);
      var r := Replay(h, c, evs[1..]);
      assert r.messages[..|t.messages|] == r.messages[..|h.messages|][..|t.messages|];
    }
  }

  /** A streamed transcription is kept as one bot message once the turn
      completes, and the stream is then empty. */
  lemma StreamedTextIsKept(t: Transcript, text: string)
    requires text != ""
    ensures var r := Replay(t, true, [Agent.AgentTranscription(text), Agent.AgentTurnComplete]);
      r.messages == t.messages + [BotMessage(text)] && r.streaming == ""
  {
    var evs := [Agent.AgentTranscription(text), Agent.AgentTurnComplete];
    var h := t.(streaming := text);
    assert Handle(t, true, evs[0]) == h;
    assert evs[1..] == [Agent.AgentTurnComplete];
    assert evs[1..][1..] == [];
    calc {
      Replay(t, true, evs);
      Replay(h, true, evs[1..]);
      Replay(Finalized(h), true, evs[1..][1..]);
      Finalized(h);
    }
  }

  /** Without a streaming container no bot message is ever added. */
  lemma {:induction false} NoContainerNoBotMessages(t: Transcript, evs: seq<Agent.AgentEvent>)
    requires t.streaming == ""
    ensures Replay(t, false, evs).streaming == ""
    ensures forall i :: |t.messages| <= i < |Replay(t, false, evs).messages| ==> !Replay(t, false, evs).messages[i].BotMessage?
    decreases |evs|
  {
    if evs != [] {
      var h := Handle(t, false, evs[0]);
      assert h.streaming == "";
      assert forall i :: |t.messages| <= i < |h.messages| ==> !h.messages[i].BotMessage?;
      NoContainerNoBotMessages(h, evs[1..]);
      TranscriptOnlyGrows(h, false, evs[1..]);
      TranscriptOnlyGrows(t, false, [evs[0]]);
      var r := Replay(h, false, evs[1..]);
      forall i | |t.messages| <= i < |r.messages|
        ensures !r.messages[i].BotMessage?
      {
        if i < |h.messages| {
          assert r.messages[i] == r.messages[..|h.messages|][i] == h.messages[i];
        }
      }
    }
  }

  class ChatManager {
    var messages: seq<Message>
    var streaming: string
    var streamingShown: bool
    var lastUserMessageType: Option<UserMessageType>
    const hasStreamingContainer: bool

    ghost predicate Valid()
      reads this
    {
      && (!hasStreamingContainer ==> streaming == "")
      && (streamingShown <==> streaming != "")
    }

    function State(): Transcript
      reads this
    {
      Transcript(messages, streaming, lastUserMessageType)
    }

    constructor (hasStreamingContainer: bool)
      ensures Valid() && this.hasStreamingContainer == hasStreamingContainer
      ensures messages == [] && streaming == "" && lastUserMessageType.None?
    {
      this.hasStreamingContainer := hasStreamingContainer;
      messages := [];
      streaming := "";
      streamingShown := false;
      lastUserMessageType := None;
    }

    method AddUserMessage(text: string)
      modifies this`messages, this`lastUserMessageType
      ensures messages == old(messages) + [UserMessage(text)] && lastUserMessageType == Some(TextMessage)
    {
      messages := messages + [UserMessage(text)];
      lastUserMessageType := Some(TextMessage);
    }

    method AddUserAudioMessage()
      modifies this`messages, this`lastUserMessageType
      ensures messages == old(messages) + [UserAudioMessage] && lastUserMessageType == Some(AudioMessage)
    {
      messages := messages + [UserAudioMessage];
      lastUserMessageType := Some(AudioMessage);
    }

    method AddBotMessage(text: string)
      modifies this`messages
      ensures messages == old(messages) + [BotMessage(text)]
    {
      messages := messages + [BotMessage(text)];
    }

    /** `updateStreamingMessage`: shows the text, hidden when empty; nothing
        without a container. */
    method UpdateStreamingMessage(text: string)
      requires Valid()
      modifies this`streaming, this`streamingShown
      ensures Valid()
      ensures streaming == if hasStreamingContainer then text else old(streaming)
    {
      if hasStreamingContainer {
        streaming := text;
        streamingShown := text != "";
      }
    }

    method FinalizeStreamingMessage()
      requires Valid()
      modifies this`messages, this`streaming, this`streamingShown
      ensures Valid()
      ensures State() == Finalized(old(State()))
    {
      if hasStreamingContainer && streaming != "" {
        AddBotMessage(streaming);
        UpdateStreamingMessage("");
      }
    }

    /** The agent listeners registered in `init`. */
    method OnAgentEvent(ev: Agent.AgentEvent)
      requires Valid()
      modifies this`messages, this`streaming, this`streamingShown, this`lastUserMessageType
      ensures Valid()
      ensures State() == Handle(old(State()), hasStreamingContainer, ev)
    {
      match ev {
        case AgentTranscription(text) =>
          UpdateStreamingMessage(text);
        case AgentTextSent(text) =>
          FinalizeStreamingMessage();
          AddUserMessage(text);
        case AgentInterrupted =>
          FinalizeStreamingMessage();
          if lastUserMessageType.None? {
            AddUserAudioMessage();
          }
        case AgentTurnComplete =>
          FinalizeStreamingMessage();
        case _ =>
      }
    }
  }
}
