/** The conversation page (pages/ConversationScreen.tsx): its React state, the
    one-second duration counter, the pause and camera toggles, the listeners
    on the service, and the `mm:ss` rendering of the duration. */
module Screen {
  import opened Wrappers
  import Service

  // ----- formatDuration -----

  predicate IsDigit(c: char)
  {
    '0' <= c <= '9'
  }

  function DigitChar(d: nat): (c: char)
    requires d < 10
    ensures IsDigit(c)
  {
    ('0' as int + d) as char
  }

  /** `n.toString()` for a whole number. */
  function Decimal(n: nat): (s: string)
    ensures |s| >= 1 && forall i :: 0 <= i < |s| ==> IsDigit(s[i])
    ensures n < 10 <==> |s| == 1
  {
    if n < 10 then [DigitChar(n)] else Decimal(n / 10) + [DigitChar(n % 10)]
  }

  /** `s.padStart(2, '0')`. */
  function PadTwo(s: string): (r: string)
    ensures |r| == if |s| < 2 then 2 else |s|
  {
    if |s| == 0 then "00" else if |s| == 1 then "0" + s else s
  }

  /** `formatDuration(seconds)`: zero-padded minutes, a colon, zero-padded seconds. */
  function FormatDuration(seconds: nat): (r: string)
    ensures |r| >= 5 && r[|r| - 3] == ':'
    ensures forall i :: 0 <= i < |r| && i != |r| - 3 ==> IsDigit(r[i])
  {
    PadTwo(Decimal(seconds / 60)) + ":" + PadTwo(Decimal(seconds % 60))
  }

  /** The value of a string of digits. */
  function DigitsValue(s: string): nat
    requires forall i :: 0 <= i < |s| ==> IsDigit(s[i])
  {
    if s == [] then 0
    else
      assert IsDigit(s[|s| - 1]);
      DigitsValue(s[..|s| - 1]) * 10 + (s[|s| - 1] as int - '0' as int)
  }

  /** Reads a rendered duration back into seconds. */
  function ParseDuration(s: string): Option<nat>
  {
    if |s| >= 5 && s[|s| - 3] == ':' && (forall i :: 0 <= i < |s| && i != |s| - 3 ==> IsDigit(s[i])) then
      var minutes := s[..|s| - 3];
      var secs := s[|s| - 2..];
      if DigitsValue(secs) < 60 then Some(DigitsValue(minutes) * 60 + DigitsValue(secs)) else None
    else None
  }

  lemma {:induction false} DecimalValue(n: nat)
    ensures DigitsValue(Decimal(n)) == n
  {
    var s := Decimal(n);
    if n >= 10 {
      DecimalValue(n / 10);
      assert s[..|s| - 1] == Decimal(n / 10);
    }
  }

  lemma LeadingZero(s: string)
    requires forall i :: 0 <= i < |s| ==> IsDigit(s[i])
    ensures forall i :: 0 <= i < |"0" + s| ==> IsDigit(("0" + s)[i])
    ensures DigitsValue("0" + s) == DigitsValue(s)
    decreases |s|
  {
    var z := "0" + s;
    assert forall i :: 0 <= i < |z| ==> IsDigit(z[i]) by {
      forall i | 0 <= i < |z| ensures IsDigit(z[i]) {
        if i > 0 { assert z[i] == s[i - 1]; }
      }
    }
    if s != [] {
      assert z[..|z| - 1] == "0" + s[..|s| - 1];
      LeadingZero(s[..|s| - 1]);
    }
  }

  lemma PadTwoValue(n: nat)
    ensures forall i :: 0 <= i < |PadTwo(Decimal(n))| ==> IsDigit(PadTwo(Decimal(n))[i])
    ensures DigitsValue(PadTwo(Decimal(n))) == n
  {
    DecimalValue(n);
    if |Decimal(n)| == 1 {
      LeadingZero(Decimal(n));
    }
  }

  /** The rendering loses nothing: the duration can be read back from it. */
  lemma FormatDurationRoundTrip(seconds: nat)
    ensures ParseDuration(FormatDuration(seconds)) == Some(seconds)
  {
    var m := PadTwo(Decimal(seconds / 60));
    var sec := PadTwo(Decimal(seconds % 60));
    var r := FormatDuration(seconds);
    PadTwoValue(seconds / 60);
    PadTwoValue(seconds % 60);
    assert |sec| == 2;
    assert r[..|r| - 3] == m;
    assert r[|r| - 2..] == sec;
  }

  /** Hence two different durations never render alike. */
  lemma FormatDurationInjective(a: nat, b: nat)
    requires FormatDuration(a) == FormatDuration(b)
    ensures a == b
  {
    FormatDurationRoundTrip(a);
    FormatDurationRoundTrip(b);
  }

  /** At most two digits exactly below one hundred. */
  lemma DecimalTwoDigits(n: nat)
    ensures |Decimal(n)| <= 2 <==> n < 100
  {
    if n >= 10 {
      assert |Decimal(n)| == |Decimal(n / 10)| + 1;
    }
  }

  /** The rendering is exactly five characters, `mm:ss`, up to 99:59; from a
      hundred minutes on the minutes take three or more digits. */
  lemma FiveCharactersUpToHundredMinutes(seconds: nat)
    ensures |FormatDuration(seconds)| == 5 <==> seconds < 6000
  {
    DecimalTwoDigits(seconds / 60);
    DecimalTwoDigits(seconds % 60);
  }

  const ReadyMessage: string := "Gemini is ready to chat. Say something or toggle the microphone to start."

  class ConversationScreen {
    var isConnected: bool
    var isRecording: bool
    var isPaused: bool
    var conversationDuration: nat
    var aiResponse: string
    var isCameraOn: bool
    var aiSpeaking: bool
    /** The `seconds` counter of the interval's closure. */
    var timerSeconds: nat
    var timerRunning: bool

    ghost predicate Valid()
      reads this
    {
      && (timerRunning ==> conversationDuration == timerSeconds)
      && (!timerRunning ==> conversationDuration == 0 && timerSeconds == 0)
    }

    constructor ()
      ensures Valid()
      ensures !isConnected && !isRecording && !isPaused && conversationDuration == 0 && aiResponse == ""
      ensures !isCameraOn && !aiSpeaking && !timerRunning
    {
      isConnected, isRecording, isPaused := false, false, false;
      conversationDuration := 0;
      aiResponse := "";
      isCameraOn, aiSpeaking := false, false;
      timerSeconds, timerRunning := 0, false;
    }

    /** The success path of `startConversation`: connected, greeted, and the
        counter starts from zero. */
    method ConversationStarted()
      requires Valid() && !timerRunning
      modifies this
      ensures Valid()
      ensures isConnected && aiResponse == ReadyMessage && timerRunning && conversationDuration == 0
      ensures isRecording == old(isRecording) && isPaused == old(isPaused)
      ensures isCameraOn == old(isCameraOn) && aiSpeaking == old(aiSpeaking)
    {
      isConnected := true;
      aiResponse := ReadyMessage;
      timerSeconds := 0;
      timerRunning := true;
    }

    /** One interval tick: the duration counts on whether or not the
        conversation is paused. */
    method Tick()
      requires Valid() && timerRunning
      modifies this`timerSeconds, this`conversationDuration
      ensures Valid()
      ensures conversationDuration == old(conversationDuration) + 1
    {
      timerSeconds := timerSeconds + 1;
      conversationDuration := timerSeconds;
    }

    /** `togglePause`: only the flag changes. */
    method TogglePause()
      modifies this`isPaused
      ensures isPaused == !old(isPaused)
    {
      isPaused := !isPaused;
    }

    /** `toggleCamera`: the new state is shown and passed to the service. */
    method ToggleCamera(service: Service.GeminiService) returns (events: seq<Service.ServiceEvent>)
      requires service.Valid()
      modifies this`isCameraOn
      ensures isCameraOn == !old(isCameraOn)
      ensures service.agent != null ==> events == (if isCameraOn then [Service.CameraOn] else [Service.CameraOff])
      ensures service.agent == null ==> events == []
    {
      var newCameraState := !isCameraOn;
      isCameraOn := newCameraState;
      var unhandled;
      events, unhandled := service.ToggleCamera(newCameraState);
    }

    /** The listeners registered on the service. */
    method OnServiceEvent(ev: Service.ServiceEvent)
      modifies this`aiResponse, this`aiSpeaking, this`isRecording
      ensures aiResponse == if ev.Response? then ev.text else old(aiResponse)
      ensures aiSpeaking == if ev.Speaking? then true else if ev.TurnComplete? then false else old(aiSpeaking)
      ensures isRecording == if ev.MicOn? then true else if ev.MicOff? then false else old(isRecording)
    {
      match ev {
        case Response(text) => aiResponse := text;
        case Speaking => aiSpeaking := true;
        case TurnComplete => aiSpeaking := false;
        case MicOn => isRecording := true;
        case MicOff => isRecording := false;
        case _ =>
      }
    }
  }
}
