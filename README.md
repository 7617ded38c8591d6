# Gemini Live mobile UI — a Dafny model of its client core

This project models the client side of a voice-and-text chat with Google's
Gemini Live service. The model covers:

- the page script `src/script.js`:
  - the base64 helpers;
  - the event emitter;
  - the websocket client (`GeminiWebsocketClient`);
  - the agent (`GeminiAgent`);
  - the tool manager;
  - the chat transcript;
  - the endpoint URL and the configurations;
- the React side's emitter (`src/utils/eventEmitter.ts`);
- the service singleton (`src/services/GeminiService.ts`);
- the state logic of the conversation page (`src/pages/ConversationScreen.tsx`).

The modules follow the program's structure, one per file:

| file | module | what it holds |
|---|---|---|
| `wrappers.dfy` | `Wrappers` | `Option`, `Result`, `Outcome`: `undefined`, a throw, a rejected promise |
| `wire.dfy` | `Wire` | the JSON exchanged with the service: outbound envelopes, inbound parsed frames, JavaScript truthiness |
| `base64.dfy` | `Base64` | RFC 4648 base64, `btoa`/`atob`, and the two conversion loops of the source |
| `event_emitter.dfy` | `Events` | `on`/`off`/`emit`/`once`, as a class over the `events` record, with a specification of a whole `emit` |
| `websocket_client.dfy` | `Transport` | the dispatch of a received frame, the envelope builders, and the client's connection state machine |
| `tool_manager.dfy` | `Tools` | tool registration, declarations and the answer to one function call |
| `setup.dfy` | `Setup` | `getWebsocketUrl` and the two session configurations |
| `agent.dfy` | `Agent` | the agent: construction, connect/disconnect, its handlers on the client, `sendText`, the capture guards |
| `chat.dfy` | `Chat` | `ChatManager` and the handlers the page script attaches to the agent for it |
| `service.dfy` | `Service` | `GeminiService`: script loading with its attempt limit, initialisation, and the commands |
| `conversation.dfy` | `Screen` | the conversation page: `formatDuration`, the duration counter, the toggles, the service listeners |

Asynchronous steps become explicit inputs:

- what a socket does becomes a method per browser event (`SocketOpened`,
  `SocketFailed`, `SocketClosed`);
- whether a connection attempt opens becomes a flag of `Agent.GeminiAgent.Connect`;
- what a tool's `execute` settles to becomes a function carried by the tool;
- what the browser answers during script loading becomes an `Environment` value.

Emitting is modelled as returning the list of events emitted, or the log of
calls made.

Some of the source's behaviour is surprising. The classes and methods keep
it as the code has it; where a fix is evident, the corrected definition is
proved separately (see "## Findings"):

- The agent's `audioStreamer` and `audioRecorder` are never assigned.
  - The agent's `interrupted` handler therefore throws on `null`, and the
    agent never passes `interrupted` on.
  - `toggleMic` never does anything.
  - The service subscribes to the agent's `audio` and `content` events, but
    the agent never emits them. `Service.FrameThroughService` proves that no
    frame makes the service emit `speaking` or `response`.
- `tool_call_cancellation` is emitted by the client, but nothing listens to it.
- The emitter's `events` and the tool manager's `tools` are plain `{}` records,
  so a name inherited from `Object.prototype` (such as `toString`) already
  finds a member there. `on`, `off` and `emit` with such a name throw a
  `TypeError`; a function call with such a name is answered with the
  `TypeError`'s message rather than "not found".
- The tool declarations the agent's constructor attaches never reach the
  service (see "## Findings").
- When a socket fails before it opens, the client's `isConnecting` stays true
  and its `connectionPromise` stays set. `Transport.GeminiWebsocketClient.SocketFailed`
  shows this. It does not matter in practice because the agent builds a new
  client on every `connect`.
- `sendText` emits `text_sent` even when the socket is already closing and
  the browser drops the text.
- `toggleCamera(true)` announces `camera_on` even when the agent refuses to
  start the capture. The start is not awaited, so the refusal is an unhandled
  rejection.
- The duration counter keeps counting while the conversation is paused.

## Model

| member | source | states |
|---|---|---|
| Base64.DigitRoundTrip | src/script.js:53-64 | every 6-bit value maps to an alphabet character that maps back to it |
| Base64.Encode | src/script.js:53-64 | the encoding of n bytes has 4·⌈n/3⌉ characters |
| Base64.Decode | src/script.js:37-48 | only text whose length is a multiple of four is accepted |
| Base64.DecodeEncode | src/script.js:37-64 | decoding the encoding of any bytes gives back exactly those bytes |
| Base64.EncodeInjective | src/script.js:53-64 | different byte sequences encode to different text |
| Base64.BinaryString | src/script.js:56-59 | the binary string has one character per byte, whose code is the byte |
| Base64.Btoa | src/script.js:60 | `btoa` fails exactly when some character code is above 255 |
| Base64.Atob | src/script.js:38 | `atob` succeeds exactly on base64 text and yields the decoded bytes as characters |
| Base64.BtoaOfBinaryString | src/script.js:53-64 | `btoa` of a byte sequence's binary string is the sequence's encoding, so the catch branch is unreachable |
| Base64.ArrayBufferToBase64 | src/script.js:53-64 | the character-building loop plus `btoa` returns the base64 encoding of the buffer |
| Base64.Base64ToArrayBuffer | src/script.js:37-48 | the byte-filling loop returns exactly the decoded bytes, and fails on text that is not base64 |
| Events.Without | src/utils/eventEmitter.ts:12-15 | `filter(l => l !== listener)` removes every copy of the listener, keeps the others in order, never grows |
| Events.Added | src/utils/eventEmitter.ts:5-10 | `on` creates the event's array when missing and appends the listener; other events unchanged |
| Events.Removed | src/utils/eventEmitter.ts:12-15 | `off` on an unknown event changes nothing; otherwise only that event's array loses the listener |
| Events.Run | src/utils/eventEmitter.ts:17-29 | a run over a snapshot makes at most one call per listener, all of them unless a callback throws, and that callback is a throwing one; it adds and removes no event name |
| Events.Emitted | src/utils/eventEmitter.ts:17-21 | `emit` on a name that is not inherited fires exactly for a registered event, changes no event name, and does nothing for an unknown one |
| Events.RunAll | src/utils/eventEmitter.ts:17-29 | a run over a snapshot with no throwing callback calls every listener in order and drops exactly the `once` wrappers it ran |
| Events.EmitResult | src/utils/eventEmitter.ts:2-21 | `emit` throws a `TypeError` exactly for an unregistered name inherited from `Object.prototype`; otherwise it returns false exactly when `on` was never called for the event, and an emptied array still gives true, with no calls |
| Events.EmitCallsAllInOrder | src/utils/eventEmitter.ts:17-29 | every listener is called once, in registration order, with the same arguments, even while `once` wrappers remove themselves; afterwards only the `on` listeners remain |
| Events.OnceRunsOnce | src/utils/eventEmitter.ts:23-29 | a `once` listener runs on the next emit and never again |
| Events.OnceThrowStaysRegistered | src/utils/eventEmitter.ts:17-29 | when the run reaches a `once` wrapper whose callback throws, no earlier callback having thrown, the emit ends with that throw and the wrapper is still registered for the event |
| Events.ThrowStopsEmit | src/utils/eventEmitter.ts:17-21 | a throwing listener stops the emit: no later listener is called |
| Events.EventEmitter.constructor | src/utils/eventEmitter.ts:2 | a new emitter has no events |
| Events.EventEmitter.On | src/utils/eventEmitter.ts:2-10 | throws a `TypeError` (no `push`) exactly for an inherited name, changing nothing; otherwise the registry becomes `Added(old, event, Fn(callback))`; no inherited name ever becomes an event |
| Events.EventEmitter.Off | src/utils/eventEmitter.ts:2-15 | throws a `TypeError` (no `filter`) exactly for an inherited name, changing nothing; otherwise the registry becomes `Removed(old, event, listener)` |
| Events.EventEmitter.Once | src/utils/eventEmitter.ts:23-29 | registers a new wrapper that was not yet among the event's listeners; throws like `on` for an inherited name |
| Events.EventEmitter.Emit | src/utils/eventEmitter.ts:17-21 | the loop over the snapshot yields the `TypeError`, or the result, calls, throw and registry of the specification `EmitOutcome`; it returns true exactly for a known event |
| Transport.AudioParts | src/script.js:337 | the audio batch holds only parts of the frame whose inline data is `audio/pcm…` |
| Transport.OtherParts | src/script.js:339 | the other batch holds only parts of the frame that are not audio |
| Transport.AudioEmissions | src/script.js:341-346 | the audio step emits only `audio` events |
| Transport.ModelTurnEvents | src/script.js:334-351 | a `modelTurn` yields only `audio` and `content` events, and only the last can be `content` |
| Transport.Receive | src/script.js:308-355 | a frame yields events of which only the first can be something other than `audio` or `content`, and a `content` event only comes last |
| Transport.ToolCallTakesPrecedence | src/script.js:311-315 | a frame with `toolCall` emits `tool_call` alone, whatever else it carries |
| Transport.CancellationComesNext | src/script.js:317-321 | otherwise a truthy `toolCallCancellation` emits `tool_call_cancellation` alone |
| Transport.InterruptedSuppressesTurn | src/script.js:323-329 | otherwise `interrupted` is emitted alone; the frame's turn end and content are dropped |
| Transport.UnmatchedFrameEmitsNothing | src/script.js:350-352 | a frame with none of the three payloads emits nothing |
| Transport.TurnCompleteFirst | src/script.js:330-333 | `turn_complete` is emitted first and only once |
| Transport.PartitionCounts | src/script.js:337-339 | each part is in exactly one of the audio and other batches |
| Transport.PartitionKeepsOrder | src/script.js:337-339 | both filters keep arrival order |
| Transport.AudioEventsMatchPayloads | src/script.js:341-346 | one `audio` event per non-empty payload, in order, with the decoded bytes |
| Transport.ModelTurnPartition | src/script.js:330-351 | `turn_complete` first when the frame completes the turn, then one `audio` event per non-empty payload in order, then exactly one `content` event with the non-audio parts in order when there are any |
| Transport.AudioRoundTrip | src/script.js:334-346 | bytes the peer encodes into a PCM part reach the `audio` listeners unchanged |
| Transport.SentAudioIsAudio | src/script.js:357-360 | a chunk `sendAudio` builds is classified as audio on receipt and its payload decodes back |
| Transport.ToolResponseEnvelope | src/script.js:380-403 | refuses a missing id, or no error and no output; a truthy error wins over output; the id is carried |
| Transport.GeminiWebsocketClient.constructor | src/script.js:245-253 | no socket, not connecting, no promise |
| Transport.GeminiWebsocketClient.Connect | src/script.js:255-296 | while open or connecting, returns the existing promise and changes nothing; otherwise one new socket and one new pending promise |
| Transport.GeminiWebsocketClient.Disconnect | src/script.js:298-306 | with a socket, closes it and clears all three fields; without one, nothing changes |
| Transport.GeminiWebsocketClient.SocketOpened | src/script.js:269-276 | the socket becomes current, connecting ends, `{setup}` is sent on it, then the promise resolves |
| Transport.GeminiWebsocketClient.SocketFailed | src/script.js:278-284 | disconnects whatever socket is current, which moves to closing, marks the failed socket closed, and rejects its promise; no other socket changes; with no current socket, `isConnecting` stays true |
| Transport.GeminiWebsocketClient.SocketClosed | src/script.js:266-291 | the client has no `close` listener: only the socket's state changes |
| Transport.GeminiWebsocketClient.SendJson | src/script.js:405-411 | appends to an open socket's output; throws with no socket or while connecting; a closing socket drops silently |
| Transport.GeminiWebsocketClient.SendAudio | src/script.js:357-360 | sends one `audio/pcm` chunk when open; fails exactly when there is no usable socket |
| Transport.GeminiWebsocketClient.SendImage | src/script.js:362-365 | sends one `image/jpeg` chunk when open; fails exactly when there is no usable socket |
| Transport.GeminiWebsocketClient.SendText | src/script.js:367-378 | sends one user turn whose completion flag is `endOfTurn` |
| Transport.GeminiWebsocketClient.SendToolResponse | src/script.js:380-403 | an invalid response throws before sending; a valid one is sent when open |
| Tools.ToolCallResult | src/script.js:615-637 | the call's id is kept; an unknown name yields `Tool '<name>' not found`; a resolved tool yields its output; rejects exactly when the tool throws `null`/`undefined` |
| Tools.ToolResultIsSendable | src/script.js:615-637 | a result for a call with an id is accepted by `sendToolResponse` exactly when it reports something |
| Tools.DeclarationsOf | src/script.js:611-613 | one declaration per name, in order |
| Tools.ErrorText | src/script.js:631-636 | a thrown value's non-empty `message`, else its `String()` form; reading `message` of `null`/`undefined` rejects |
| Tools.ToolCallResultAsWritten | src/script.js:618-623 | the lookup as written agrees with the corrected one except on inherited names |
| Tools.InheritedNameIsNotReportedMissing | src/script.js:618-623 | as written, an unregistered `toString` is not reported as not found |
| Tools.ToolManager.constructor | src/script.js:603-605 | no tools |
| Tools.ToolManager.RegisterTool | src/script.js:607-609 | a new name is appended; a known one keeps its place and gets the new tool |
| Tools.ToolManager.GetToolDeclarations | src/script.js:611-613 | one declaration per registered tool, in registration order |
| Tools.ToolManager.HandleToolCall | src/script.js:615-637 | resolves to `ToolCallResultAsWritten`, so an inherited name gets the `TypeError`'s message, and changes nothing |
| Setup.WebsocketUrl | src/script.js:725-731 | throws exactly when no key is stored; otherwise the endpoint followed by the key |
| Setup.UrlCarriesKey | src/script.js:730 | the key can be read back from the URL |
| Setup.UrlInjective | src/script.js:730 | different keys give different URLs |
| Setup.PageConfig | src/script.js:702-723 | the page script offers Google Search as its only tool |
| Setup.ServiceConfig | src/services/GeminiService.ts:132-148 | the service offers no tools |
| Agent.DeclarationsNeverSent | src/script.js:453-457 | as written, the setup frame's tools do not depend on the declarations |
| Agent.WithDeclarationsAsWritten | src/script.js:453-457 | as written, the declarations are a named property of the `tools` array: serialised `tools`, model and instruction are unchanged |
| Agent.OfferedDeclarations | src/script.js:453-457 | the setup frame offers declarations exactly when some `tools` entry is `{functionDeclarations: [...]}`, and then those of such an entry |
| Agent.OfferedAfterAppend | src/script.js:453-457 | appending a `tools` entry changes the offer only when nothing was offered before |
| Agent.WithDeclarations | src/script.js:453-457 | corrected: the declarations become one more `tools` entry; existing entries are kept |
| Agent.DeclarationsReachSetup | src/script.js:453-457 | corrected: the setup frame offers exactly the registered declarations |
| Agent.Reaction | src/script.js:467-497 | at most one event per client event; a fault exactly for audio or interruption without a streamer |
| Agent.FrameReachesAgentListeners | src/script.js:467-497 | the agent re-emits neither audio nor content; `turn_complete` passes exactly when the client emitted it |
| Agent.ReceivedFrameThroughAgent | src/script.js:467-497 | for a received frame, a streamer-less agent emits `turn_complete` exactly for a turn-completing frame, and nothing else |
| Agent.FrameEmissions | src/script.js:467-497 | a frame's client events lead to at most as many agent events |
| Agent.GeminiAgent.Create | src/script.js:419-465 | throws on a missing url, then on a missing config; otherwise an unconnected agent whose config carries the declarations as a named property that is never sent |
| Agent.GeminiAgent.Connect | src/script.js:505-510 | a fresh client each time; on open, connected with `{setup}` sent; on failure, `connected` unchanged and the new client stuck connecting |
| Agent.GeminiAgent.HandleToolCall | src/script.js:499-503 | with no tool manager the call fails first; then an empty `functionCalls` fails; otherwise only the first function call is answered, as `ToolCallResultAsWritten` resolves, and the result is sent through the client or the failure is reported |
| Agent.GeminiAgent.OnClientEvent | src/script.js:467-503 | follows `Reaction` for everything but tool calls; a tool call has the faults, the answer and the sending of `HandleToolCall`, and changes no socket; the streamer's state changes as the handlers say |
| Agent.GeminiAgent.SendText | src/script.js:512-515 | `text_sent` is emitted exactly when the client did not throw; the text is sent when the socket is open |
| Agent.GeminiAgent.StartCameraCapture | src/script.js:517-530 | refuses exactly when not connected |
| Agent.GeminiAgent.StartScreenShare | src/script.js:537-550 | refuses exactly when not connected |
| Agent.GeminiAgent.Disconnect | src/script.js:557-595 | releases recorder and streamer; the old client's current socket moves to closing and its other sockets and promises are unchanged; the client is dropped and the agent is no longer connected |
| Chat.Finalized | src/script.js:685-691 | a non-empty stream becomes one bot message and is cleared; an empty one changes nothing |
| Chat.Handle | src/script.js:749-767 | each agent event keeps the messages shown, adds at most two, keeps a recorded user message type, shows a sent text last, and a transcription only replaces the stream |
| Chat.Replay | src/script.js:749-767 | over a run of events a recorded user message type is kept and at most two messages per event are added |
| Chat.HandleKeepsPlaceholderInvariant | src/script.js:749-767 | every handler keeps "at most one audio placeholder, and none before a user message" |
| Chat.AtMostOneAudioPlaceholder | src/script.js:758-763 | whatever the agent emits, the chat shows at most one "Audio message" |
| Chat.TranscriptOnlyGrows | src/script.js:651-691 | messages are only appended |
| Chat.StreamedTextIsKept | src/script.js:749-767 | a transcription followed by the end of the turn becomes exactly one bot message |
| Chat.NoContainerNoBotMessages | src/script.js:677-691 | without a streaming container no bot message is ever added |
| Chat.ChatManager.constructor | src/script.js:645-649 | empty transcript, empty stream, no last user message type |
| Chat.ChatManager.AddUserMessage | src/script.js:651-658 | appends the user message and records a text message |
| Chat.ChatManager.AddUserAudioMessage | src/script.js:660-667 | appends the audio placeholder and records an audio message |
| Chat.ChatManager.AddBotMessage | src/script.js:669-675 | appends the bot message |
| Chat.ChatManager.UpdateStreamingMessage | src/script.js:677-683 | replaces the stream when the container exists; it is shown exactly when non-empty |
| Chat.ChatManager.FinalizeStreamingMessage | src/script.js:685-691 | the state becomes `Finalized` of the old state |
| Chat.ChatManager.OnAgentEvent | src/script.js:749-767 | the state becomes `Handle` of the old state and the event |
| Service.ResponseTextAppend | src/services/GeminiService.ts:183-194 | the response text of joined parts is the joined response texts, in order |
| Service.ResponseTextEmpty | src/services/GeminiService.ts:183-194 | `response` is emitted exactly when some part carries text |
| Service.Reaction | src/services/GeminiService.ts:167-194 | each agent event leads to at most one service event |
| Service.FrameThroughService | src/services/GeminiService.ts:167-194 | no received frame makes the service emit anything but `turn_complete` |
| Service.OnlyTurnCompletes | src/services/GeminiService.ts:175-177 | agent `turn_complete` events lead only to service `turn_complete` events |
| Service.ResponseText | src/services/GeminiService.ts:183-190 | the response text contains every part's text, and is empty when no part has text |
| Service.Reactions | src/services/GeminiService.ts:167-194 | at most one service event per agent event, and only `speaking`, `interrupted`, `turn_complete`, `text_sent` or `response` |
| Service.GeminiService.constructor | src/services/GeminiService.ts:24-33 | no agent, not initialised, nothing loaded, no attempts |
| Service.GeminiService.LoadScript | src/services/GeminiService.ts:45-100 | the global is used when present; otherwise one attempt is counted, and loading succeeds only within five attempts with a script that loads and defines the agent; at most five injections ever |
| Service.GeminiService.Initialize | src/services/GeminiService.ts:102-202 | already initialised gives true; an empty key gives false and stores nothing; otherwise succeeds exactly when the agent class is found, and then builds the agent for the service configuration, whose declarations, with a tool manager, are attached as written and never sent |
| Service.GeminiService.Connect | src/services/GeminiService.ts:204-217 | refused before initialisation; otherwise `connected` or `connection_error` with the failure |
| Service.GeminiService.Disconnect | src/services/GeminiService.ts:219-224 | with an agent, tears it down and emits `disconnected`; otherwise nothing |
| Service.GeminiService.SendText | src/services/GeminiService.ts:226-235 | nothing without an agent; `text_sent` exactly when the agent sent, otherwise one `error` |
| Service.GeminiService.ToggleMic | src/services/GeminiService.ts:237-252 | nothing without a recorder; otherwise the recorder flips and `mic_on`/`mic_off` says which way |
| Service.GeminiService.ToggleCamera | src/services/GeminiService.ts:254-269 | announces `camera_on`/`camera_off` whenever there is an agent; an unhandled refusal exactly when enabling while not connected |
| Screen.Decimal | src/pages/ConversationScreen.tsx:153-157 | `toString` of a whole number is a non-empty run of digits, one digit exactly below ten |
| Screen.PadTwo | src/pages/ConversationScreen.tsx:156 | `padStart(2, '0')` gives length two for shorter input and keeps longer input |
| Screen.FormatDuration | src/pages/ConversationScreen.tsx:153-157 | the rendering is digits with one colon before the last two digits |
| Screen.DecimalValue | src/pages/ConversationScreen.tsx:153-157 | the digits of a number read back as that number |
| Screen.LeadingZero | src/pages/ConversationScreen.tsx:156 | a padding zero does not change the value |
| Screen.PadTwoValue | src/pages/ConversationScreen.tsx:156 | padded digits read back as the number |
| Screen.FormatDurationRoundTrip | src/pages/ConversationScreen.tsx:153-157 | the duration can be read back from its rendering |
| Screen.FormatDurationInjective | src/pages/ConversationScreen.tsx:153-157 | different durations render differently |
| Screen.FiveCharactersUpToHundredMinutes | src/pages/ConversationScreen.tsx:153-157 | the rendering is exactly five characters, `mm:ss`, up to 99:59 and longer from a hundred minutes on |
| Screen.ConversationScreen.constructor | src/pages/ConversationScreen.tsx:23-36 | the page's initial state |
| Screen.ConversationScreen.ConversationStarted | src/pages/ConversationScreen.tsx:59-80 | connected, greeted with the ready message, counter at zero and running |
| Screen.ConversationScreen.Tick | src/pages/ConversationScreen.tsx:73-80 | the duration grows by one second, paused or not |
| Screen.ConversationScreen.TogglePause | src/pages/ConversationScreen.tsx:144-148 | only the pause flag flips |
| Screen.ConversationScreen.ToggleCamera | src/pages/ConversationScreen.tsx:135-142 | the camera flag flips and the service is told the new state |
| Screen.ConversationScreen.OnServiceEvent | src/pages/ConversationScreen.tsx:92-120 | `response` sets the text; `speaking` and `turn_complete` set and clear speaking; `mic_on`/`mic_off` set recording |

## Left out

- Parsing (`blobToJSON`, src/script.js:16-30) and the `message` listener's Blob check: frames arrive already parsed.
- Logging (`console.*`), scrolling, toasts, JSX rendering, and the `AudioVisualizer` class (src/script.js:107-238): none of it affects the modelled state.
- The page's `init` and its DOM wiring (src/script.js:733-829), apart from the chat handlers modelled in `Chat`.
- Floating point: `temperature` and the random `intensity` of `speaking` are not modelled.
- Base64.Decode: accepts only canonical, padded RFC 4648 text. The browser's `atob` also skips ASCII whitespace and accepts missing padding. Those inputs are treated as failures here.
- Base64.Atob: inherits the strict `Decode`, so it fails on whitespace or missing padding where the browser's `atob` succeeds.
- Base64.Base64ToArrayBuffer: inherits the strict `Decode` through `Atob`, so it fails on the same inputs.
- Transport.Receive: a `modelTurn` part whose `inlineData` has no `mimeType` makes the source's filter throw. The model assumes every `inlineData` has a mime type. It also assumes that listeners return normally. The only listener that throws synchronously, the agent's `interrupted` handler, always handles the last event of its frame.
- Transport.GeminiWebsocketClient.Disconnect: `close()` is modelled as an immediate move to closing; the move to closed arrives through `SocketClosed`.
- Tools.ToolManager.GetToolDeclarations: `Object.values` lists integer-like names first, in numeric order. The model lists every name in registration order.
- Tools.ToolManager.RegisterTool: registering a tool named `__proto__` replaces the record's prototype in the source instead of adding an entry. The model adds an entry.
- Tools.ToolCallResult: a thrown value is reduced to its `message` (if any) and its `String()` form.
- Agent.GeminiAgent.Connect: the wait between the socket opening and the listeners being attached is collapsed into one step. Frames arriving in that gap are not modelled.
- Agent.GeminiAgent.Create: the unused constructor settings are not modelled. These are `name`, the transcription flags, the Deepgram key, the sample rate and the `localStorage` capture settings.
- Agent.GeminiAgent.OnClientEvent: `streamAudio` and the streamer's playback are not modelled. Only its `isInitialized` flag is kept.
- `stopCameraCapture` and `stopScreenShare` only log. They are no-ops inside `Disconnect` and `ToggleCamera`.
- Service.GeminiService.LoadScript: removing an earlier script element is not modelled, and the one-second wait is collapsed into one step.
- Service.GeminiService.Initialize: the `catch` branch is not modelled. Building the agent cannot throw, because the URL and the configuration are always present.
- Screen.ConversationScreen.ConversationStarted: only the success path of `startConversation` is modelled. The failure paths (missing key, failed initialisation or connection) only show a toast or navigate. The effect's cleanup (`clearInterval`, `disconnect`) is not modelled.
- Screen.FormatDuration: only non-negative whole seconds are modelled, which is all the counter produces.

## Findings

| source | as written | input that shows it | evidently intended | confidence | as-written member | corrected member |
|---|---|---|---|---|---|---|
| src/script.js:453-457 | the declarations are set as a named property of the `tools` array, and `JSON.stringify` writes only an array's elements | any agent built with a tool manager: the `{setup}` frame's `tools` are the configuration's entries alone | send the declarations as a `tools` entry `{functionDeclarations: [...]}` | high; not executed | Agent.DeclarationsNeverSent | Agent.DeclarationsReachSetup |
| src/script.js:618 | `!this.tools[name]` on a plain object also finds members inherited from `Object.prototype` | a function call named `toString` with no such tool yields the error "this.tools[name].execute is not a function" | report every unregistered name as `Tool '<name>' not found` | medium; not executed | Tools.InheritedNameIsNotReportedMissing | Tools.ToolCallResult |
