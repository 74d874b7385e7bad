/**
 * The microphone button: a recording timer shown as mm:ss, a click that starts or stops a
 * recording, a transcription step that reports exactly one result, and an idle demo animation.
 */
module VoiceInput {
  import opened Wrappers

  /** `permissionStatus`; `Prompt` is the browser's third answer, which the component stores unchecked. */
  datatype Permission = Unknown | Granted | Denied | Prompt

  /** The optional callbacks the component calls, in the order it calls them. */
  datatype Callback = OnStart | OnStop(duration: nat) | OnTranscription(text: string) | OnError(message: string)

  /** Whether `getUserMedia` handed over a stream or threw. */
  datatype MicAccess = MicGranted | MicRefused

  /** How the upload to the transcription route ended: a thrown error or a non-OK reply, or a JSON body with its `text`. */
  datatype TranscribeOutcome = RequestFailed | Transcribed(text: Option<string>)

  const MicrophoneErrorMessage := "Failed to access microphone. Please check permissions."
  const NoTranscriptionMessage := "No transcription received"
  const TranscribeErrorMessage := "Failed to transcribe audio"

  predicate IsDigit(c: char) {
    '0' <= c <= '9'
  }

  predicate AllDigits(s: string) {
    forall i :: 0 <= i < |s| ==> IsDigit(s[i])
  }

  function DigitChar(d: nat): (c: char)
    requires d < 10
    ensures IsDigit(c) && c as int - '0' as int == d
  {
    ('0' as int + d) as char
  }

  /** `n.toString()` for a non-negative integer: its decimal digits, without leading zeros. */
  function Digits(n: nat): (r: string)
    ensures |r| >= 1 && AllDigits(r)
    ensures n < 10 ==> |r| == 1
    ensures 10 <= n < 100 ==> |r| == 2
    ensures |r| > 1 ==> r[0] != '0'
    decreases n
  {
    if n < 10 then [DigitChar(n)] else Digits(n / 10) + [DigitChar(n % 10)]
  }

  /** The value of one decimal digit (0 for any other character). */
  function DigitValue(c: char): (d: nat)
    ensures d < 10
    ensures IsDigit(c) ==> DigitChar(d) == c
  {
    if IsDigit(c) then c as int - '0' as int else 0
  }

  /** The number a string of decimal digits denotes, read left to right. */
  function DecimalValue(s: string): nat
    decreases |s|
  {
    if s == [] then 0 else DecimalValue(s[..|s| - 1]) * 10 + DigitValue(s[|s| - 1])
  }

  /** Reading back the digits of `n` gives `n`. */
  lemma {:induction false} DigitsRoundTrip(n: nat)
    ensures DecimalValue(Digits(n)) == n
    decreases n
  {
    if n >= 10 {
      DigitsRoundTrip(n / 10);
      var r := Digits(n);
      assert r[..|r| - 1] == Digits(n / 10);
    }
  }

  /** A leading zero does not change the value. */
  lemma {:induction false} LeadingZeroValue(s: string)
    ensures DecimalValue("0" + s) == DecimalValue(s)
    decreases |s|
  {
    if s != [] {
      var t := "0" + s;
      assert t[..|t| - 1] == "0" + s[..|s| - 1];
      LeadingZeroValue(s[..|s| - 1]);
    }
  }

  /** `padStart(2, "0")`: at least two characters, zeros added on the left. */
  function PadStart2(s: string): (r: string)
    ensures |r| == if |s| < 2 then 2 else |s|
    ensures r[|r| - |s|..] == s
    ensures forall i :: 0 <= i < |r| - |s| ==> r[i] == '0'
  {
    if |s| == 0 then "00" else if |s| == 1 then "0" + s else s
  }

  /** Padding keeps the value of a digit string. */
  lemma PadKeepsValue(s: string)
    ensures DecimalValue(PadStart2(s)) == DecimalValue(s)
    ensures AllDigits(s) ==> AllDigits(PadStart2(s))
  {
    if |s| == 1 {
      LeadingZeroValue(s);
    }
  }

  /** `n.toString().padStart(2, "0")`: a two-digit field (wider from 100 on) that reads back as `n`. */
  function Field2(n: nat): (f: string)
    ensures AllDigits(f) && |f| >= 2
    ensures n < 100 ==> |f| == 2
    ensures |f| == 2 || f[0] != '0'
    ensures DecimalValue(f) == n
  {
    PadKeepsValue(Digits(n));
    DigitsRoundTrip(n);
    PadStart2(Digits(n))
  }

  /** The two fields of `a + ":" + b`, with a two-character `b`, are `a` and `b` again. */
  lemma ClockFields(a: string, b: string)
    requires |b| == 2
    ensures var r := a + ":" + b; r[..|r| - 3] == a && r[|r| - 2..] == b
  {
    var r := a + ":" + b;
    assert r[..|r| - 3] == a;
    assert r[|r| - 2..] == b;
  }

  /** A clock face: the minutes and the seconds, each zero-padded to two digits, around a colon. */
  function Clock(mins: nat, secs: nat): (r: string)
    requires secs < 60
    ensures |r| >= 5 && r[|r| - 3] == ':'
    ensures mins < 100 ==> |r| == 5
    ensures AllDigits(r[..|r| - 3]) && AllDigits(r[|r| - 2..])
    ensures |r| == 5 || r[0] != '0'
  {
    ClockFields(Field2(mins), Field2(secs));
    Field2(mins) + ":" + Field2(secs)
  }

  /** Reads a clock face back: the number before the colon and the two digits after it. */
  function ParseClock(r: string): (nat, nat)
    requires |r| >= 3
  {
    (DecimalValue(r[..|r| - 3]), DecimalValue(r[|r| - 2..]))
  }

  /** Reading `a + ":" + b` back, with a two-character `b`, recovers the values of `a` and `b`. */
  lemma ParseSplit(a: string, b: string)
    requires |b| == 2
    ensures ParseClock(a + ":" + b) == (DecimalValue(a), DecimalValue(b))
  {
    ClockFields(a, b);
  }

  /** A clock face reads back as the minutes and seconds it was made from. */
  lemma ClockRoundTrip(mins: nat, secs: nat)
    requires secs < 60
    ensures ParseClock(Clock(mins, secs)) == (mins, secs)
  {
    ParseSplit(Field2(mins), Field2(secs));
  }

  /** `formatTime(seconds)`: whole minutes, then the remaining seconds, both fields decimal digits. */
  function FormatTime(seconds: nat): (r: string)
    ensures |r| >= 5 && r[|r| - 3] == ':'
    ensures seconds < 6000 ==> |r| == 5
    ensures AllDigits(r[..|r| - 3]) && AllDigits(r[|r| - 2..])
    ensures |r| == 5 || r[0] != '0'
  {
    Clock(seconds / 60, seconds % 60)
  }

  /** The duration a formatted time shows: minutes times 60 plus seconds. */
  function ParseTime(r: string): nat
    requires |r| >= 3
  {
    ParseClock(r).0 * 60 + ParseClock(r).1
  }

  /** Formatting loses nothing: the shown minutes and seconds add back up to the input. */
  lemma FormatTimeRoundTrip(seconds: nat)
    ensures ParseTime(FormatTime(seconds)) == seconds
    ensures ParseClock(FormatTime(seconds)).1 < 60
  {
    ClockRoundTrip(seconds / 60, seconds % 60);
  }

  /** No two durations share a formatted time. */
  lemma FormatTimeInjective(a: nat, b: nat)
    requires FormatTime(a) == FormatTime(b)
    ensures a == b
  {
    FormatTimeRoundTrip(a);
    FormatTimeRoundTrip(b);
  }

  /** `getStatusText()`: processing first, then recording, then a denied microphone, else the invitation. */
  function StatusText(isProcessing: bool, isRecording: bool, permission: Permission): (r: string)
    ensures r == "Processing..." <==> isProcessing
    ensures r == "Listening..." <==> !isProcessing && isRecording
    ensures r == "Microphone access denied" <==> !isProcessing && !isRecording && permission == Denied
    ensures r == "Click to speak" <==> !isProcessing && !isRecording && permission != Denied
  {
    if isProcessing then "Processing..."
    else if isRecording then "Listening..."
    else if permission == Denied then "Microphone access denied"
    else "Click to speak"
  }

  /** The component's state; `timerRunning` stands for a live interval in `timerRef`. */
  class VoiceButton {
    var isRecording: bool
    var time: nat
    var isDemo: bool
    var permission: Permission
    var isProcessing: bool
    var timerRunning: bool

    /**
     * Recording and processing never overlap, the demo never processes, and the timer runs
     * exactly while a real (non-demo) recording is on.
     */
    ghost predicate Valid()
      reads this
    {
      !(isRecording && isProcessing)
      && (isDemo ==> !isProcessing)
      && (timerRunning <==> isRecording && !isDemo)
    }

    constructor (demoMode: bool)
      ensures Valid() && isDemo == demoMode
      ensures !isRecording && time == 0 && permission == Unknown && !isProcessing && !timerRunning
    {
      isRecording, time, isDemo := false, 0, demoMode;
      permission, isProcessing, timerRunning := Unknown, false, false;
    }

    /** The answer of the permission query, or a later change of it. */
    method PermissionQueried(state: Permission)
      requires Valid()
      modifies this`permission
      ensures Valid() && permission == state
    {
      permission := state;
    }

    /** One step of the demo animation: the bars turn on or off while the demo runs. */
    method DemoStep(on: bool)
      requires Valid() && isDemo
      modifies this`isRecording
      ensures Valid() && isRecording == on
    {
      isRecording := on;
    }

    /**
     * `startRecording`: with a stream, record from zero, start the timer and call `onStart`;
     * without one, remember the denial and report it.
     */
    method StartRecording(access: MicAccess) returns (calls: seq<Callback>)
      requires Valid() && !isProcessing && !isRecording && !isDemo
      modifies this`isRecording, this`time, this`permission, this`timerRunning
      ensures Valid()
      ensures access == MicGranted ==>
        isRecording && time == 0 && permission == Granted && timerRunning && calls == [OnStart]
      ensures access == MicRefused ==>
        !isRecording && time == old(time) && permission == Denied && !timerRunning
        && calls == [OnError(MicrophoneErrorMessage)]
    {
      match access
      case MicGranted =>
        permission := Granted;
        isRecording, time := true, 0;
        timerRunning := true;
        calls := [OnStart];
      case MicRefused =>
        permission := Denied;
        calls := [OnError(MicrophoneErrorMessage)];
    }

    /** One tick of the one-second interval. */
    method Tick()
      requires Valid() && timerRunning
      modifies this`time
      ensures Valid() && time == old(time) + 1
    {
      time := time + 1;
    }

    /** `stopRecording`: stop the timer, report the elapsed seconds, and wait for the transcription. */
    method StopRecording() returns (calls: seq<Callback>)
      requires Valid() && isRecording && !isDemo
      modifies this`isRecording, this`isProcessing, this`timerRunning
      ensures Valid()
      ensures !isRecording && isProcessing && !timerRunning
      ensures calls == [OnStop(old(time))]
    {
      timerRunning := false;
      isRecording := false;
      calls := [OnStop(time)];
      isProcessing := true;
    }

    /**
     * The end of `transcribeAudio`: a non-empty text goes to `onTranscription`, anything else to
     * `onError`; either way processing ends and the clock returns to zero.
     */
    method FinishTranscription(outcome: TranscribeOutcome) returns (calls: seq<Callback>)
      requires Valid() && isProcessing
      modifies this`isProcessing, this`time
      ensures Valid() && !isProcessing && time == 0
      ensures |calls| == 1 && (calls[0].OnTranscription? || calls[0].OnError?)
      ensures calls[0].OnTranscription? <==> outcome.Transcribed? && outcome.text.Some? && outcome.text.value != ""
      ensures calls[0].OnTranscription? ==> calls[0].text == outcome.text.value
      ensures calls[0].OnError? ==>
        calls[0].message == if outcome.RequestFailed? then TranscribeErrorMessage else NoTranscriptionMessage
    {
      isProcessing := false;
      time := 0;
      match outcome
      case RequestFailed =>
        calls := [OnError(TranscribeErrorMessage)];
      case Transcribed(text) =>
        if text.Some? && text.value != "" {
          calls := [OnTranscription(text.value)];
        } else {
          calls := [OnError(NoTranscriptionMessage)];
        }
    }

    /**
     * `handleClick`, behind the button's `disabled` attribute: a click does nothing while
     * permission is denied; otherwise it leaves the demo if it runs, is ignored while processing,
     * stops a recording, or starts one.
     */
    method HandleClick(access: MicAccess) returns (calls: seq<Callback>)
      requires Valid()
      modifies this`isDemo, this`isRecording, this`time, this`permission, this`isProcessing, this`timerRunning
      ensures Valid()
      ensures old(permission) == Denied || (!old(isDemo) && old(isProcessing)) ==>
        calls == [] && isDemo == old(isDemo) && isRecording == old(isRecording) && time == old(time)
        && permission == old(permission) && isProcessing == old(isProcessing) && timerRunning == old(timerRunning)
      ensures old(permission) != Denied && old(isDemo) ==>
        calls == [] && !isDemo && !isRecording && time == old(time)
        && permission == old(permission) && isProcessing == old(isProcessing) && !timerRunning
      ensures old(permission) != Denied && !old(isDemo) && !old(isProcessing) && old(isRecording) ==>
        calls == [OnStop(old(time))] && !isDemo && !isRecording && time == old(time)
        && permission == old(permission) && isProcessing && !timerRunning
      ensures old(permission) != Denied && !old(isDemo) && !old(isProcessing) && !old(isRecording) ==>
        !isDemo && !isProcessing
        && (access == MicGranted ==> calls == [OnStart] && isRecording && time == 0 && permission == Granted && timerRunning)
        && (access == MicRefused ==>
              calls == [OnError(MicrophoneErrorMessage)] && !isRecording && time == old(time)
              && permission == Denied && !timerRunning)
    {
      calls := [];
      if permission == Denied {
        return;
      }
      if isDemo {
        isDemo := false;
        isRecording := false;
        return;
      }
      if isProcessing {
        return;
      }
      if isRecording {
        calls := StopRecording();
      } else {
        calls := StartRecording(access);
      }
    }
  }

  /** A record-stop-transcribe cycle leaves the button idle with the clock at zero, whatever the outcome. */
  method RecordingCycle(button: VoiceButton, ticks: nat, outcome: TranscribeOutcome) returns (calls: seq<Callback>)
    requires button.Valid() && !button.isDemo && !button.isProcessing && !button.isRecording
    requires button.permission != Denied
    modifies button
    ensures button.Valid() && !button.isRecording && !button.isProcessing && button.time == 0
    ensures |calls| == 3 && calls[0] == OnStart && calls[1] == OnStop(ticks)
    ensures calls[2].OnTranscription? || calls[2].OnError?
    ensures calls[2].OnTranscription? <==> outcome.Transcribed? && outcome.text.Some? && outcome.text.value != ""
    ensures calls[2].OnTranscription? ==> calls[2].text == outcome.text.value
    ensures calls[2].OnError? ==>
      calls[2].message == if outcome.RequestFailed? then TranscribeErrorMessage else NoTranscriptionMessage
  {
    calls := button.HandleClick(MicGranted);
    var n := 0;
    while n < ticks
      invariant 0 <= n <= ticks
      invariant button.Valid() && button.timerRunning && button.isRecording && !button.isDemo
      invariant button.time == n && calls == [OnStart] && button.permission == Granted
    {
      button.Tick();
      n := n + 1;
    }
    var stopped := button.HandleClick(MicGranted);
    var result := button.FinishTranscription(outcome);
    calls := calls + stopped + result;
  }
}
