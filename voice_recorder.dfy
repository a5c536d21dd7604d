/** The voice recorder: the `m:ss` clock text and the recording / playback
    flags. The media objects are reduced to whether each handle is set. */
module VoiceRecorder {
  import opened Text

  /** `formatTime`: whole minutes, a colon, and the seconds padded to two digits. */
  function FormatTime(seconds: nat): (r: string)
    ensures |r| >= 4 && r[|r| - 3] == ':'
  {
    var mins := seconds / 60;
    var secs := seconds % 60;
    NatToString(mins) + ":" + PadStart(NatToString(secs), 2, '0')
  }

  /** The minutes and seconds fields split `seconds` exactly, with the seconds
      below 60. */
  lemma MinutesSecondsSplit(seconds: nat)
    ensures (seconds / 60) * 60 + seconds % 60 == seconds && seconds % 60 < 60
  {
  }

  /** Padding a one- or two-digit string to two digits keeps its value. */
  lemma PadKeepsValue(s: string)
    requires 1 <= |s| <= 2 && AllDigits(s)
    ensures var p := PadStart(s, 2, '0');
      |p| == 2 && AllDigits(p) && DecimalValue(p) == DecimalValue(s)
  {
    var p := PadStart(s, 2, '0');
    if |s| == 1 {
      assert p == ['0', s[0]];
      assert p[..1] == ['0'] && s[..0] == [];
    }
  }

  /** `r` is a clock text whose field before the colon is the number `mins`
      and whose two-digit field after it is the number `secs`. */
  predicate ClockReads(r: string, mins: nat, secs: nat) {
    && |r| >= 4 && r[|r| - 3] == ':'
    && AllDigits(r[..|r| - 3]) && AllDigits(r[|r| - 2..])
    && DecimalValue(r[..|r| - 3]) == mins && DecimalValue(r[|r| - 2..]) == secs
  }

  /** Joining a minutes text and a two-digit seconds text with a colon gives a
      clock text that reads back as the two numbers. */
  lemma ClockParts(m: string, p: string)
    requires m != [] && AllDigits(m)
    requires |p| == 2 && AllDigits(p)
    ensures ClockReads(m + ":" + p, DecimalValue(m), DecimalValue(p))
  {
    var r := m + ":" + p;
    assert r[..|r| - 3] == m;
    assert r[|r| - 2..] == p;
  }

  /** Reading the text back: the part before the colon is the minutes and the
      two digits after it are the seconds. */
  lemma {:induction false} FormatTimeRoundTrip(seconds: nat)
    ensures ClockReads(FormatTime(seconds), seconds / 60, seconds % 60)
  {
    var secs := seconds % 60;
    var s := NatToString(secs);
    if secs >= 10 {
      assert |NatToString(secs / 10)| == 1;
    }
    PadKeepsValue(s);
    NatToStringRoundTrip(seconds / 60);
    NatToStringRoundTrip(secs);
    ClockParts(NatToString(seconds / 60), PadStart(s, 2, '0'));
  }

  /** A clock text that reads as the minutes and seconds of a count gives the
      count back. */
  lemma ClockReadsCount(r: string, seconds: nat)
    requires ClockReads(r, seconds / 60, seconds % 60)
    ensures DecimalValue(r[..|r| - 3]) * 60 + DecimalValue(r[|r| - 2..]) == seconds
  {
    MinutesSecondsSplit(seconds);
  }

  /** Different counts give different texts: the two fields determine the count. */
  lemma FormatTimeInjective(a: nat, b: nat)
    ensures FormatTime(a) == FormatTime(b) ==> a == b
  {
    FormatTimeRoundTrip(a);
    ClockReadsCount(FormatTime(a), a);
    FormatTimeRoundTrip(b);
    ClockReadsCount(FormatTime(b), b);
  }

  /** The seconds field is always exactly two digits, with a leading '0' below
      ten seconds. */
  lemma SecondsFieldTwoDigits(seconds: nat)
    ensures var r := FormatTime(seconds);
      && AllDigits(r[|r| - 2..]) && DecimalValue(r[|r| - 2..]) == seconds % 60
      && (seconds % 60 < 10 ==> r[|r| - 2] == '0')
  {
    FormatTimeRoundTrip(seconds);
    var r := FormatTime(seconds);
    if seconds % 60 < 10 {
      var p := PadStart(NatToString(seconds % 60), 2, '0');
      assert r[|r| - 2..] == p;
    }
  }

  /** Padding one digit gives a leading '0' before it. */
  lemma PadOneDigit(d: nat)
    requires d < 10
    ensures PadStart(NatToString(d), 2, '0') == ['0', DigitChar(d)]
  {
    assert NatToString(d) == [DigitChar(d)];
    assert seq(1, _ => '0') == ['0'];
  }

  lemma FormatTimeZero()
    ensures FormatTime(0) == "0:00"
  {
    PadOneDigit(0);
    assert NatToString(0) == "0";
  }

  lemma FormatTimeOneMinuteFive()
    ensures FormatTime(65) == "1:05"
  {
    assert 65 / 60 == 1 && 65 % 60 == 5;
    PadOneDigit(5);
    assert NatToString(1) == "1";
  }

  lemma FormatTimeTenMinutes()
    ensures FormatTime(600) == "10:00"
  {
    assert 600 / 60 == 10 && 600 % 60 == 0;
    PadOneDigit(0);
    assert NatToString(1) == "1";
    assert NatToString(10) == NatToString(1) + [DigitChar(0)] == "10";
  }

  /** How far `startRecording`'s `try` block gets before it finishes or
      throws: `FailedAfterContext(true)` is a throw from `start()`,
      `FailedAfterContext(false)` one from the analyser set-up or from
      `new MediaRecorder`. */
  datatype StartOutcome = Started | MicrophoneRefused | FailedAfterContext(recorderCreated: bool)

  /** The recorder's state flags. Each `has...` flag says whether the
      corresponding ref (`mediaRecorderRef`, `audioBlob`, `audioRef`,
      `intervalRef`, `animationRef`, `audioContextRef`) is set. */
  class RecorderState {
    var isRecording: bool
    var recordingTime: nat
    var isPlaying: bool
    var hasRecorder: bool
    var hasBlob: bool
    var hasAudio: bool
    var timerActive: bool
    var animationActive: bool
    var audioContextOpen: bool

    /** The timer and the level monitor live exactly as long as a recording;
        a recording has a recorder and an open audio context; playback needs
        an audio element. An open context without a recording is possible:
        a start that fails after creating the context leaves it open. */
    ghost predicate Valid()
      reads this
    {
      && timerActive == isRecording
      && animationActive == isRecording
      && (isRecording ==> audioContextOpen && hasRecorder)
      && (isPlaying ==> hasAudio)
    }

    constructor ()
      ensures Valid()
      ensures !isRecording && recordingTime == 0 && !isPlaying
      ensures !hasRecorder && !hasBlob && !hasAudio && !audioContextOpen
    {
      isRecording, recordingTime, isPlaying := false, 0, false;
      hasRecorder, hasBlob, hasAudio := false, false, false;
      timerActive, animationActive, audioContextOpen := false, false, false;
    }

    /** `startRecording`, by how far its `try` block gets: to the end, not
        past the microphone request, or past `new AudioContext()` but not
        past `start()` (the recorder itself set or not). Every failure is
        caught and leaves the recording flag, the time and the timer alone. */
    method StartRecording(outcome: StartOutcome)
      requires Valid()
      modifies this
      ensures Valid()
      ensures outcome == Started ==>
        && isRecording && recordingTime == 0 && hasRecorder && audioContextOpen
      ensures outcome != Started ==>
        && isRecording == old(isRecording) && recordingTime == old(recordingTime)
        && timerActive == old(timerActive) && animationActive == old(animationActive)
      ensures outcome == MicrophoneRefused ==>
        hasRecorder == old(hasRecorder) && audioContextOpen == old(audioContextOpen)
      ensures outcome.FailedAfterContext? ==>
        && audioContextOpen
        && hasRecorder == (old(hasRecorder) || outcome.recorderCreated)
      ensures isPlaying == old(isPlaying) && hasBlob == old(hasBlob) && hasAudio == old(hasAudio)
    {
      match outcome {
        case Started =>
          audioContextOpen := true;
          hasRecorder := true;
          isRecording := true;
          recordingTime := 0;
          timerActive := true;
          animationActive := true;
        case MicrophoneRefused =>
        case FailedAfterContext(recorderCreated) =>
          audioContextOpen := true;
          if recorderCreated {
            hasRecorder := true;
          }
      }
    }

    /** One firing of the one-second interval: adds exactly one second. */
    method Tick()
      requires Valid()
      requires timerActive
      modifies this
      ensures Valid() && recordingTime == old(recordingTime) + 1
      ensures isRecording == old(isRecording) && isPlaying == old(isPlaying)
      ensures hasRecorder == old(hasRecorder) && hasBlob == old(hasBlob) && hasAudio == old(hasAudio)
      ensures audioContextOpen == old(audioContextOpen)
    {
      recordingTime := recordingTime + 1;
    }

    /** `stopRecording`: acts only with a recorder while recording, then clears
        the flag, the timer, the monitor and the audio context. */
    method StopRecording()
      requires Valid()
      modifies this
      ensures Valid()
      ensures old(hasRecorder && isRecording) ==> !isRecording && !timerActive && !animationActive && !audioContextOpen
      ensures !old(hasRecorder && isRecording) ==>
        isRecording == old(isRecording) && timerActive == old(timerActive) && audioContextOpen == old(audioContextOpen)
      ensures recordingTime == old(recordingTime) && isPlaying == old(isPlaying)
      ensures hasRecorder == old(hasRecorder) && hasBlob == old(hasBlob) && hasAudio == old(hasAudio)
    {
      if hasRecorder && isRecording {
        isRecording := false;
        timerActive := false;
        animationActive := false;
        audioContextOpen := false;
      }
    }

    /** The recorder's `onstop` callback stores the recorded blob. */
    method RecorderStopped()
      requires Valid()
      modifies this
      ensures Valid() && hasBlob
      ensures isRecording == old(isRecording) && recordingTime == old(recordingTime) && isPlaying == old(isPlaying)
      ensures hasRecorder == old(hasRecorder) && hasAudio == old(hasAudio) && audioContextOpen == old(audioContextOpen)
    {
      hasBlob := true;
    }

    /** `playRecording`: acts only with a blob and while not playing. */
    method PlayRecording()
      requires Valid()
      modifies this
      ensures Valid()
      ensures old(hasBlob && !isPlaying) ==> isPlaying && hasAudio
      ensures !old(hasBlob && !isPlaying) ==> isPlaying == old(isPlaying) && hasAudio == old(hasAudio)
      ensures isRecording == old(isRecording) && recordingTime == old(recordingTime)
      ensures hasRecorder == old(hasRecorder) && hasBlob == old(hasBlob) && audioContextOpen == old(audioContextOpen)
    {
      if hasBlob && !isPlaying {
        hasAudio := true;
        isPlaying := true;
      }
    }

    /** `pausePlayback`: acts only while playing. */
    method PausePlayback()
      requires Valid()
      modifies this
      ensures Valid() && !isPlaying
      ensures isRecording == old(isRecording) && recordingTime == old(recordingTime)
      ensures hasRecorder == old(hasRecorder) && hasBlob == old(hasBlob) && hasAudio == old(hasAudio)
      ensures audioContextOpen == old(audioContextOpen)
    {
      if hasAudio && isPlaying {
        isPlaying := false;
      }
    }

    /** The audio element's `onended` callback. */
    method PlaybackEnded()
      requires Valid()
      modifies this
      ensures Valid() && !isPlaying
      ensures isRecording == old(isRecording) && recordingTime == old(recordingTime)
      ensures hasRecorder == old(hasRecorder) && hasBlob == old(hasBlob) && hasAudio == old(hasAudio)
      ensures audioContextOpen == old(audioContextOpen)
    {
      isPlaying := false;
    }
  }
}
