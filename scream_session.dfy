/** The scream session screen: a start/stop button driving the recorder, a
    running maximum of the intensity, a once-per-second counter while
    recording, and the small pure helpers that render those statistics. */
module Session {
  import opened Options
  import opened Recorder
  import TimeFormat

  /** What the session hands to its parent when a scream ends. */
  datatype ScreamReport = ScreamReport(maxPitch: real, duration: nat, blob: Option<Blob>)

  /** `formatTime`: whole minutes, a colon, and the seconds padded to two
      digits. The text reads back as the same number of seconds. */
  function FormatTime(seconds: nat): (r: string)
    ensures TimeFormat.ParseMinSec(r) == Some(seconds)
    ensures seconds < 60 ==> |r| == 4 && r[..2] == "0:"
  {
    TimeFormat.MinSecRoundTrip(seconds);
    if seconds < 60 then TimeFormat.UnderAMinute(seconds); TimeFormat.MinSec(seconds)
    else TimeFormat.MinSec(seconds)
  }

  /** The text colours of the live intensity readout. */
  datatype Color = CalmBlueTint | PrimaryPurple | AccentPink

  /** `getIntensityColor`: blue below 15, purple up to 30, pink from 30 up to
      50 (the source's two pink branches, at 40 and at 50, give the same
      colour), and purple again from 50. */
  function IntensityColor(pitch: real): (c: Color)
    ensures c == CalmBlueTint <==> pitch < 15.0
    ensures c == AccentPink <==> 30.0 <= pitch < 50.0
    ensures c == PrimaryPurple <==> (15.0 <= pitch < 30.0 || 50.0 <= pitch)
  {
    if pitch < 15.0 then CalmBlueTint
    else if pitch < 30.0 then PrimaryPurple
    else if pitch < 40.0 then AccentPink
    else if pitch < 50.0 then AccentPink
    else PrimaryPurple
  }

  /** The width, in per cent, of the live intensity bar: full at 50. */
  function IntensityBarWidth(pitch: real): (w: real)
    ensures w <= 100.0
    ensures w == 100.0 <==> pitch >= 50.0
    ensures pitch >= 0.0 ==> w >= 0.0
    ensures pitch <= 50.0 ==> w == pitch * 2.0
  {
    var scaled := pitch / 50.0 * 100.0;
    if scaled <= 100.0 then scaled else 100.0
  }

  /** The live feedback line under the button. */
  datatype Feedback = NoFeedback | Praise | SpeakUp

  /** The two feedback panels are guarded by `pitch > 5` and `pitch <= 5`
      under the same `isRecording`: exactly one shows while recording and
      none otherwise. */
  function FeedbackPanel(isRecording: bool, pitch: real): (p: Feedback)
    ensures p == NoFeedback <==> !isRecording
    ensures p == Praise <==> isRecording && pitch > 5.0
    ensures p == SpeakUp <==> isRecording && pitch <= 5.0
  {
    if !isRecording then NoFeedback
    else if pitch > 5.0 then Praise
    else SpeakUp
  }

  /** The session component and the recorder hook it owns. React effects
      that depend on the state a handler changes are run at the end of that
      handler: the max-pitch effect after every change of the intensity and
      the timer effect after every change of `isRecording`. */
  class ScreamSession {
    const recorder: AudioRecorder
    var isRecording: bool
    var sessionTime: nat
    var maxPitchReached: real
    /** Whether the one-second interval exists (`sessionTimerRef`). */
    var timerRunning: bool
    var mounted: bool

    ghost predicate Valid()
      reads this, recorder
    {
      && recorder.Valid()
      && 0.0 <= maxPitchReached <= MaxIntensity
      && (isRecording ==>
            && recorder.encoder == Some(Recording) && recorder.hasAnalyser
            && recorder.currentPitch <= maxPitchReached)
      && (timerRunning <==> mounted && isRecording)
    }

    constructor ()
      ensures Valid() && fresh(recorder) && mounted
      ensures !isRecording && sessionTime == 0 && maxPitchReached == 0.0 && !timerRunning
      ensures recorder.recordedBlob == None && recorder.pendingStops == 0
      ensures recorder.encoder == None && recorder.chunks == []
    {
      recorder := new AudioRecorder();
      isRecording, sessionTime, maxPitchReached := false, 0, 0.0;
      timerRunning, mounted := false, true;
    }

    /** The max-pitch effect: the maximum moves only to a strictly larger
        current intensity. */
    method TrackMaxPitch()
      requires recorder.Valid() && 0.0 <= maxPitchReached <= MaxIntensity
      modifies this
      ensures maxPitchReached == if recorder.currentPitch > old(maxPitchReached) then recorder.currentPitch else old(maxPitchReached)
      ensures old(maxPitchReached) <= maxPitchReached <= MaxIntensity
      ensures recorder.currentPitch <= maxPitchReached
      ensures isRecording == old(isRecording) && sessionTime == old(sessionTime)
      ensures timerRunning == old(timerRunning) && mounted == old(mounted)
    {
      if recorder.currentPitch > maxPitchReached {
        maxPitchReached := recorder.currentPitch;
      }
    }

    /** One analyser frame delivered to the hook, followed by the max-pitch
        effect. */
    method OnFrame(frame: seq<Byte>)
      requires Valid() && mounted
      requires |frame| == FrequencyBinCount
      modifies this, recorder
      ensures Valid() && mounted
      ensures old(recorder.hasAnalyser) ==> recorder.currentPitch == PitchOf(frame)
      ensures old(maxPitchReached) <= maxPitchReached
      ensures maxPitchReached == if recorder.currentPitch > old(maxPitchReached) then recorder.currentPitch else old(maxPitchReached)
      ensures isRecording == old(isRecording) && sessionTime == old(sessionTime)
      ensures timerRunning == old(timerRunning)
      ensures recorder.chunks == old(recorder.chunks) && recorder.recordedBlob == old(recorder.recordedBlob)
      ensures recorder.pendingStops == old(recorder.pendingStops)
    {
      recorder.Tick(frame);
      TrackMaxPitch();
    }

    /** The encoder delivering a chunk. */
    method OnChunk(c: Chunk)
      requires Valid() && recorder.encoder.Some?
      modifies recorder
      ensures Valid()
      ensures recorder.chunks == old(recorder.chunks) + Collected([c])
      ensures recorder.encoder == old(recorder.encoder) && recorder.pendingStops == old(recorder.pendingStops)
      ensures recorder.recordedBlob == old(recorder.recordedBlob)
    {
      recorder.OnDataAvailable(c);
    }

    /** The encoder's `stop` event reaching the hook. */
    method OnEncoderStop()
      requires Valid() && recorder.pendingStops > 0
      modifies recorder
      ensures Valid()
      ensures recorder.recordedBlob == Some(Blob(recorder.chunks))
      ensures recorder.chunks == old(recorder.chunks)
      ensures recorder.pendingStops == old(recorder.pendingStops) - 1
    {
      recorder.OnStop();
    }

    /** The timer effect: while recording a one-second interval exists;
        otherwise it is cleared. */
    method TimerEffect()
      requires recorder.Valid() && mounted
      modifies this
      ensures timerRunning == isRecording
      ensures isRecording == old(isRecording) && sessionTime == old(sessionTime)
      ensures maxPitchReached == old(maxPitchReached) && mounted
    {
      timerRunning := isRecording;
    }

    /** One firing of the one-second interval: adds exactly one second when
        the interval exists and nothing otherwise. */
    method SecondElapsed()
      requires Valid()
      modifies this
      ensures Valid()
      ensures old(timerRunning) ==> sessionTime == old(sessionTime) + 1
      ensures !old(timerRunning) ==> sessionTime == old(sessionTime)
      ensures isRecording == old(isRecording) && maxPitchReached == old(maxPitchReached)
      ensures timerRunning == old(timerRunning) && mounted == old(mounted)
    {
      if timerRunning {
        sessionTime := sessionTime + 1;
      }
    }

    /** Unmounting clears the interval. The recorder is not stopped: the
        hook has no cleanup of its own. */
    method Unmount()
      requires Valid()
      modifies this
      ensures Valid() && !mounted && !timerRunning
      ensures isRecording == old(isRecording) && sessionTime == old(sessionTime)
      ensures maxPitchReached == old(maxPitchReached)
    {
      timerRunning, mounted := false, false;
    }

    /** `handleStartRecording`. While recording: stop the recorder, drop
        `isRecording` and report the maximum, the elapsed seconds and the
        hook's `recordedBlob` as they stand at that moment (the encoder's
        `stop` event, which sets a new blob, comes later). Otherwise: try to
        start; on success reset both statistics, on failure change nothing
        of the session's own state. */
    method HandleStartRecording(micGranted: bool, encoderSupported: bool, firstFrame: seq<Byte>)
      returns (report: Option<ScreamReport>)
      requires Valid() && mounted
      requires |firstFrame| == FrequencyBinCount
      modifies this, recorder
      ensures Valid() && mounted
      ensures old(isRecording) ==>
        && report == Some(ScreamReport(old(maxPitchReached), old(sessionTime), old(recorder.recordedBlob)))
        && !isRecording && !timerRunning
        && sessionTime == old(sessionTime) && maxPitchReached == old(maxPitchReached)
        && recorder.encoder == Some(Inactive) && recorder.pendingStops == old(recorder.pendingStops) + 1
        && recorder.chunks == old(recorder.chunks) && recorder.recordedBlob == old(recorder.recordedBlob)
      ensures !old(isRecording) ==> report == None
      ensures !old(isRecording) && micGranted && encoderSupported ==>
        && isRecording && timerRunning && sessionTime == 0
        && recorder.currentPitch == PitchOf(firstFrame) && maxPitchReached == PitchOf(firstFrame)
        && recorder.chunks == [] && recorder.recordedBlob == old(recorder.recordedBlob)
        && recorder.pendingStops == old(recorder.pendingStops)
      ensures !old(isRecording) && !(micGranted && encoderSupported) ==>
        && !isRecording && !timerRunning
        && sessionTime == old(sessionTime) && maxPitchReached == old(maxPitchReached)
    {
      if isRecording {
        recorder.StopRecording();
        isRecording := false;
        report := Some(ScreamReport(maxPitchReached, sessionTime, recorder.recordedBlob));
      } else {
        report := None;
        var started := recorder.StartRecording(micGranted, encoderSupported, firstFrame);
        if started {
          isRecording, sessionTime, maxPitchReached := true, 0, 0.0;
          TrackMaxPitch();
          PitchRange(firstFrame);
        }
      }
      TimerEffect();
    }

    /** A stop that waits for the encoder's `stop` event before reporting,
        so that the report carries the recording just made: the chunks
        collected so far and the remaining data (`final`) that the encoder
        hands over when stopped. */
    method StopAwaitingRecording(final: seq<Chunk>) returns (report: ScreamReport)
      requires Valid() && mounted && isRecording
      modifies this, recorder
      ensures Valid() && mounted && !isRecording && !timerRunning
      ensures report == ScreamReport(old(maxPitchReached), old(sessionTime),
        Some(Blob(old(recorder.chunks) + Collected(final))))
      ensures recorder.recordedBlob == report.blob
      ensures recorder.pendingStops == old(recorder.pendingStops)
    {
      recorder.StopRecording();
      isRecording := false;
      TimerEffect();
      DeliverChunks(recorder, final);
      recorder.OnStop();
      report := ScreamReport(maxPitchReached, sessionTime, recorder.recordedBlob);
    }
  }

  /** A freshly mounted session: start, let the encoder deliver `deliveries`,
      press stop. The report's blob is always absent, however much audio was
      captured, because the hook's `recordedBlob` is only set by the
      encoder's later `stop` event. */
  method FreshSessionReportsNoBlob(firstFrame: seq<Byte>, deliveries: seq<Chunk>)
    returns (report: Option<ScreamReport>)
    requires |firstFrame| == FrequencyBinCount
    ensures report == Some(ScreamReport(PitchOf(firstFrame), 0, None))
  {
    var s := new ScreamSession();
    var r0 := s.HandleStartRecording(true, true, firstFrame);
    DeliverChunks(s.recorder, deliveries);
    report := s.HandleStartRecording(true, true, firstFrame);
  }

  /** The same session with the waiting stop: the report carries exactly the
      non-empty deliveries, those made while recording and those the
      encoder hands over when stopped, in order. */
  method FreshSessionReportsRecording(firstFrame: seq<Byte>, deliveries: seq<Chunk>, final: seq<Chunk>)
    returns (report: ScreamReport)
    requires |firstFrame| == FrequencyBinCount
    ensures report == ScreamReport(PitchOf(firstFrame), 0, Some(Blob(Collected(deliveries + final))))
  {
    var s := new ScreamSession();
    var r0 := s.HandleStartRecording(true, true, firstFrame);
    DeliverChunks(s.recorder, deliveries);
    assert [] + Collected(deliveries) == Collected(deliveries);
    CollectedAppend(deliveries, final);
    report := s.StopAwaitingRecording(final);
  }
}
