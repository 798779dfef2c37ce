/** The voice-gated sign-in meter: while listening, each new intensity value
    moves a progress counter up (a scream above the threshold), down (quiet
    below half the threshold) or leaves it; reaching 100 signs in. A
    fallback for users without a microphone fills the counter by a fixed
    step on a timer. */
module Auth {
  import opened Options
  import opened Recorder

  /** The sensitivity slider's bounds and initial value. */
  const MinThreshold: int := 20
  const MaxThreshold: int := 60
  const DefaultThreshold: int := 40
  /** The progress at which the user is signed in. */
  const Goal: real := 100.0
  const LoudStep: real := 2.0
  const QuietStep: real := 0.5
  const FallbackStep: real := 5.0

  function MaxReal(a: real, b: real): real {
    if a >= b then a else b
  }

  /** The progress counter after one run of the progress effect while
      listening (ignoring the sign-in that a result of 100 or more starts). */
  function NextProgress(p: real, pitch: real, threshold: int): (r: real)
    ensures p - QuietStep <= r
    ensures p >= 0.0 ==> 0.0 <= r <= p + LoudStep
    ensures p >= 0.0 ==> (r > p <==> pitch > threshold as real)
    ensures p >= 0.0 ==> (r < p <==> pitch <= threshold as real && pitch < threshold as real * 0.5 && p > 0.0)
  {
    if pitch > threshold as real then p + LoudStep
    else if pitch < threshold as real * 0.5 then MaxReal(0.0, p - QuietStep)
    else p
  }

  /** The counter after the effect has run once for each intensity value in
      `pitches`, in order. */
  function Progressed(p: real, pitches: seq<real>, threshold: int): real
    decreases |pitches|
  {
    if |pitches| == 0 then p
    else Progressed(NextProgress(p, pitches[0], threshold), pitches[1..], threshold)
  }

  lemma {:induction false} ProgressedAppend(p: real, a: seq<real>, b: seq<real>, threshold: int)
    ensures Progressed(p, a + b, threshold) == Progressed(Progressed(p, a, threshold), b, threshold)
    decreases |a|
  {
    if |a| > 0 {
      assert (a + b)[0] == a[0];
      assert (a + b)[1..] == a[1..] + b;
      ProgressedAppend(NextProgress(p, a[0], threshold), a[1..], b, threshold);
    } else {
      assert a + b == b;
    }
  }

  /** The counter never goes negative. */
  lemma {:induction false} ProgressedNonNegative(p: real, pitches: seq<real>, threshold: int)
    requires p >= 0.0
    ensures Progressed(p, pitches, threshold) >= 0.0
    decreases |pitches|
  {
    if |pitches| > 0 {
      ProgressedNonNegative(NextProgress(p, pitches[0], threshold), pitches[1..], threshold);
    }
  }

  /** More progress before a run means at least as much after it. */
  lemma {:induction false} ProgressedMonotone(p: real, q: real, pitches: seq<real>, threshold: int)
    requires p <= q
    ensures Progressed(p, pitches, threshold) <= Progressed(q, pitches, threshold)
    decreases |pitches|
  {
    if |pitches| > 0 {
      ProgressedMonotone(NextProgress(p, pitches[0], threshold), NextProgress(q, pitches[0], threshold),
        pitches[1..], threshold);
    }
  }

  /** Every value above the threshold adds exactly 2. */
  lemma {:induction false} LoudRunAdds(p: real, pitches: seq<real>, threshold: int)
    requires forall i :: 0 <= i < |pitches| ==> pitches[i] > threshold as real
    ensures Progressed(p, pitches, threshold) == p + LoudStep * |pitches| as real
    decreases |pitches|
  {
    if |pitches| > 0 {
      LoudRunAdds(p + LoudStep, pitches[1..], threshold);
    }
  }

  /** Every value below half the threshold takes off 0.5, stopping at 0. */
  lemma {:induction false} QuietRunDecays(p: real, pitches: seq<real>, threshold: int)
    requires p >= 0.0 && threshold >= 0
    requires forall i :: 0 <= i < |pitches| ==> pitches[i] < threshold as real * 0.5
    ensures Progressed(p, pitches, threshold) == MaxReal(0.0, p - QuietStep * |pitches| as real)
    decreases |pitches|
  {
    if |pitches| > 0 {
      var q, n := MaxReal(0.0, p - QuietStep), |pitches| as real;
      assert pitches[0] < threshold as real * 0.5;
      assert NextProgress(p, pitches[0], threshold) == q;
      QuietRunDecays(q, pitches[1..], threshold);
      assert |pitches[1..]| as real == n - 1.0;
      assert Progressed(p, pitches, threshold) == MaxReal(0.0, q - QuietStep * (n - 1.0));
      assert MaxReal(0.0, q - QuietStep * (n - 1.0)) == MaxReal(0.0, p - QuietStep * n);
    }
  }

  /** Values from half the threshold up to the threshold leave the counter
      alone. */
  lemma {:induction false} NeutralRunKeeps(p: real, pitches: seq<real>, threshold: int)
    requires forall i :: 0 <= i < |pitches| ==>
      threshold as real * 0.5 <= pitches[i] <= threshold as real
    ensures Progressed(p, pitches, threshold) == p
    decreases |pitches|
  {
    if |pitches| > 0 {
      NeutralRunKeeps(p, pitches[1..], threshold);
    }
  }

  /** From a fresh start, loud effect runs reach the goal on exactly the
      fiftieth. */
  lemma FiftyLoudValuesSignIn(pitches: seq<real>, threshold: int)
    requires forall i :: 0 <= i < |pitches| ==> pitches[i] > threshold as real
    ensures Progressed(0.0, pitches, threshold) >= Goal <==> |pitches| >= 50
  {
    LoudRunAdds(0.0, pitches, threshold);
  }

  /** With the corrected meter, where every frame is an effect run, thirty
      frames at 50 then ten at 0, at the default threshold, leave 55. */
  lemma ScreamThenSilence(pitches: seq<real>)
    requires |pitches| == 40
    requires forall i :: 0 <= i < 30 ==> pitches[i] == 50.0
    requires forall i :: 30 <= i < 40 ==> pitches[i] == 0.0
    ensures Progressed(0.0, pitches, DefaultThreshold) == 55.0
  {
    var loud, quiet := pitches[..30], pitches[30..];
    assert pitches == loud + quiet;
    ProgressedAppend(0.0, loud, quiet, DefaultThreshold);
    LoudRunAdds(0.0, loud, DefaultThreshold);
    QuietRunDecays(60.0, quiet, DefaultThreshold);
  }

  /** With the corrected meter, silence empties a counter of 60 after
      exactly 120 frames. */
  lemma SilenceEmptiesSixty(pitches: seq<real>, threshold: int)
    requires threshold >= MinThreshold
    requires forall i :: 0 <= i < |pitches| ==> pitches[i] == 0.0
    ensures Progressed(60.0, pitches, threshold) == 0.0 <==> |pitches| >= 120
  {
    QuietRunDecays(60.0, pitches, threshold);
  }

  /** One more effect run at the end: the fold takes one more step. */
  lemma ProgressedSnoc(p: real, a: seq<real>, x: real, threshold: int)
    ensures Progressed(p, a + [x], threshold) == NextProgress(Progressed(p, a, threshold), x, threshold)
  {
    ProgressedAppend(p, a, [x], threshold);
    assert [x][1..] == [];
  }

  /** The intensity after a run of frames: the last one's, or `last` when
      there are none. */
  function LastOr(last: real, pitches: seq<real>): real {
    if |pitches| == 0 then last else pitches[|pitches| - 1]
  }

  /** The intensities at which the progress effect actually runs while
      listening, given the intensity before the first frame: React re-runs
      the effect only for a frame whose intensity differs from the one
      before it, so each run of equal values counts once. */
  function EffectRuns(last: real, pitches: seq<real>): (runs: seq<real>)
    ensures |runs| <= |pitches|
    ensures |runs| > 0 ==> runs[0] != last
    ensures forall k :: 0 < k < |runs| ==> runs[k] != runs[k - 1]
    decreases |pitches|
  {
    if |pitches| == 0 then []
    else if pitches[0] == last then EffectRuns(last, pitches[1..])
    else [pitches[0]] + EffectRuns(pitches[0], pitches[1..])
  }

  /** One more frame adds an effect run exactly when its intensity differs
      from the one before. */
  lemma {:induction false} EffectRunsSnoc(last: real, pitches: seq<real>, x: real)
    ensures EffectRuns(last, pitches + [x]) ==
      EffectRuns(last, pitches) + (if x == LastOr(last, pitches) then [] else [x])
    decreases |pitches|
  {
    if |pitches| == 0 {
      assert [x][1..] == [];
      assert pitches + [x] == [x];
    } else {
      var next := if pitches[0] == last then last else pitches[0];
      assert (pitches + [x])[0] == pitches[0];
      assert (pitches + [x])[1..] == pitches[1..] + [x];
      EffectRunsSnoc(next, pitches[1..], x);
      assert LastOr(next, pitches[1..]) == LastOr(last, pitches);
    }
  }

  /** Frames that all read `v` give one effect run when the intensity before
      them differs from `v`, and none when it is already `v`. */
  lemma {:induction false} EffectRunsOfConstant(last: real, pitches: seq<real>, v: real)
    requires |pitches| > 0
    requires forall i :: 0 <= i < |pitches| ==> pitches[i] == v
    ensures EffectRuns(last, pitches) == if last == v then [] else [v]
    decreases |pitches|
  {
    if |pitches| > 1 {
      EffectRunsOfConstant(v, pitches[1..], v);
    }
  }

  /** As written, steady silence after any sound lowers the counter once, by
      0.5, however many silent frames follow. */
  lemma SteadySilenceDecaysOnce(p: real, last: real, pitches: seq<real>, threshold: int)
    requires p >= 0.0 && threshold >= MinThreshold && last != 0.0 && |pitches| > 0
    requires forall i :: 0 <= i < |pitches| ==> pitches[i] == 0.0
    ensures Progressed(p, EffectRuns(last, pitches), threshold) == MaxReal(0.0, p - QuietStep)
  {
    EffectRunsOfConstant(last, pitches, 0.0);
    assert [0.0][1..] == [];
  }

  /** As written, thirty frames at 50 then ten at 0, after a silent room and
      at the default threshold, are two effect runs and leave 1.5. */
  lemma ScreamThenSilenceAsWritten(pitches: seq<real>)
    requires |pitches| == 40
    requires forall i :: 0 <= i < 30 ==> pitches[i] == 50.0
    requires forall i :: 30 <= i < 40 ==> pitches[i] == 0.0
    ensures EffectRuns(0.0, pitches) == [50.0, 0.0]
    ensures Progressed(0.0, EffectRuns(0.0, pitches), DefaultThreshold) == 1.5
  {
    var loud, quiet := pitches[..30], pitches[30..];
    assert pitches == loud + quiet;
    EffectRunsOfConstant(0.0, loud, 50.0);
    EffectRunsOfConstant(50.0, quiet, 0.0);
    EffectRunsAppend(0.0, loud, quiet);
    assert [50.0, 0.0][1..] == [0.0];
    assert [0.0][1..] == [];
  }

  /** Frames split anywhere: the runs of the second part start from the
      intensity the first part ends on. */
  lemma {:induction false} EffectRunsAppend(last: real, a: seq<real>, b: seq<real>)
    ensures EffectRuns(last, a + b) == EffectRuns(last, a) + EffectRuns(LastOr(last, a), b)
    decreases |a|
  {
    if |a| == 0 {
      assert a + b == b;
    } else {
      var next := if a[0] == last then last else a[0];
      assert (a + b)[0] == a[0];
      assert (a + b)[1..] == a[1..] + b;
      EffectRunsAppend(next, a[1..], b);
      assert LastOr(next, a[1..]) == LastOr(last, a);
    }
  }

  /** Every prefix of `pitches` up to length `n` keeps the fold of its effect
      runs from `p` below 100. */
  ghost predicate RunsStayBelow(p: real, last: real, pitches: seq<real>, threshold: int, n: nat)
    requires n <= |pitches|
  {
    forall j :: 0 <= j <= n ==> Progressed(p, EffectRuns(last, pitches[..j]), threshold) < Goal
  }

  lemma RunsStayBelowSnoc(p: real, last: real, pitches: seq<real>, threshold: int, n: nat)
    requires n < |pitches|
    ensures RunsStayBelow(p, last, pitches, threshold, n + 1) <==>
      RunsStayBelow(p, last, pitches, threshold, n)
      && Progressed(p, EffectRuns(last, pitches[..n + 1]), threshold) < Goal
  {
  }

  /** Every prefix of `pitches` up to length `n` keeps the fold from `p`
      below 100. */
  ghost predicate FoldStaysBelow(p: real, pitches: seq<real>, threshold: int, n: nat)
    requires n <= |pitches|
  {
    forall j :: 0 <= j <= n ==> Progressed(p, pitches[..j], threshold) < Goal
  }

  lemma FoldStaysBelowSnoc(p: real, pitches: seq<real>, threshold: int, n: nat)
    requires n < |pitches|
    ensures FoldStaysBelow(p, pitches, threshold, n + 1) <==>
      FoldStaysBelow(p, pitches, threshold, n) && Progressed(p, pitches[..n + 1], threshold) < Goal
  {
  }

  /** The intensity of each frame, in order. */
  function Intensities(frames: seq<seq<Byte>>): (pitches: seq<real>)
    requires forall k :: 0 <= k < |frames| ==> |frames[k]| > 0
    ensures |pitches| == |frames|
    ensures forall k :: 0 <= k < |frames| ==> pitches[k] == PitchOf(frames[k])
  {
    seq(|frames|, k requires 0 <= k < |frames| => PitchOf(frames[k]))
  }

  /** `intensityNormalized`: the intensity as a fraction of 60, capped at 1. */
  function IntensityNormalized(pitch: real): (x: real)
    ensures x <= 1.0
    ensures x == 1.0 <==> pitch >= 60.0
    ensures pitch >= 0.0 ==> 0.0 <= x
    ensures pitch <= 60.0 ==> x * 60.0 == pitch
  {
    if pitch / 60.0 <= 1.0 then pitch / 60.0 else 1.0
  }

  /** The sign-in component and the recorder hook it owns. The sign-in call
      itself is external: its outcome is the `signInOk` parameter. */
  class VoiceAuth {
    const recorder: AudioRecorder
    var isListening: bool
    var screamThreshold: int
    /** The displayed progress (`authProgress`). */
    var authProgress: real
    /** The counter itself (`progressRef`). */
    var progress: real
    var canUseMic: bool
    /** The 30-second timeouts started and not yet fired: nothing clears them. */
    var pendingTimeouts: nat
    /** The fallback intervals still running. */
    var fallbackIntervals: nat
    var signInAttempts: nat

    /** What holds between any two statements of the handlers. */
    ghost predicate Core()
      reads this, recorder
    {
      && recorder.Valid()
      && MinThreshold <= screamThreshold <= MaxThreshold
      && progress >= 0.0
      && (progress < Goal ==> authProgress == progress)
      && (progress >= Goal ==> Goal <= authProgress <= progress)
      && (fallbackIntervals > 0 ==> !canUseMic)
    }

    /** The displayed progress follows the counter (capped at 100 only by the
        listening path); a listening meter is below its goal with the
        analyser attached. */
    ghost predicate Valid()
      reads this, recorder
    {
      && Core()
      && (isListening ==> canUseMic && progress < Goal && recorder.hasAnalyser)
    }

    constructor ()
      ensures Valid() && fresh(recorder)
      ensures !isListening && screamThreshold == DefaultThreshold && canUseMic
      ensures progress == 0.0 && authProgress == 0.0
      ensures pendingTimeouts == 0 && fallbackIntervals == 0 && signInAttempts == 0
    {
      recorder := new AudioRecorder();
      isListening, screamThreshold, canUseMic := false, DefaultThreshold, true;
      progress, authProgress := 0.0, 0.0;
      pendingTimeouts, fallbackIntervals, signInAttempts := 0, 0, 0;
    }

    /** `resetAuth`: counter and display to 0, stop listening and recording. */
    method ResetAuth()
      requires Core()
      modifies this, recorder
      ensures Valid()
      ensures progress == 0.0 && authProgress == 0.0 && !isListening && !recorder.isActive
      ensures screamThreshold == old(screamThreshold) && canUseMic == old(canUseMic)
      ensures pendingTimeouts == old(pendingTimeouts) && fallbackIntervals == old(fallbackIntervals)
      ensures signInAttempts == old(signInAttempts)
    {
      authProgress, progress := 0.0, 0.0;
      isListening := false;
      recorder.StopRecording();
    }

    /** `handleAuthSuccess`: stop listening and recording, then sign in; a
        failed sign-in resets the meter. */
    method HandleAuthSuccess(signInOk: bool)
      requires Core()
      modifies this, recorder
      ensures Valid()
      ensures !isListening && !recorder.isActive
      ensures signInAttempts == old(signInAttempts) + 1
      ensures signInOk ==> progress == old(progress) && authProgress == old(authProgress)
      ensures !signInOk ==> progress == 0.0 && authProgress == 0.0
      ensures screamThreshold == old(screamThreshold) && canUseMic == old(canUseMic)
      ensures pendingTimeouts == old(pendingTimeouts) && fallbackIntervals == old(fallbackIntervals)
    {
      isListening := false;
      recorder.StopRecording();
      signInAttempts := signInAttempts + 1;
      if !signInOk {
        ResetAuth();
      }
    }

    /** The progress effect, run whenever the intensity, the threshold or
        `isListening` has changed. While listening the counter moves to
        `NextProgress`; reaching 100 starts the sign-in. Otherwise nothing
        happens. */
    method ProgressEffect(signInOk: bool)
      requires Valid()
      modifies this, recorder
      ensures Valid()
      ensures screamThreshold == old(screamThreshold) && canUseMic == old(canUseMic)
      ensures pendingTimeouts == old(pendingTimeouts) && fallbackIntervals == old(fallbackIntervals)
      ensures !old(isListening) ==>
        && isListening == old(isListening) && progress == old(progress)
        && authProgress == old(authProgress) && signInAttempts == old(signInAttempts)
        && recorder.currentPitch == old(recorder.currentPitch)
      ensures old(isListening) && NextProgress(old(progress), old(recorder.currentPitch), screamThreshold) < Goal ==>
        && isListening && progress == NextProgress(old(progress), old(recorder.currentPitch), screamThreshold)
        && authProgress == progress && signInAttempts == old(signInAttempts)
        && recorder.currentPitch == old(recorder.currentPitch) && recorder.isActive == old(recorder.isActive)
      ensures old(isListening) && NextProgress(old(progress), old(recorder.currentPitch), screamThreshold) >= Goal ==>
        && !isListening && signInAttempts == old(signInAttempts) + 1 && !recorder.isActive
        && progress == (if signInOk then NextProgress(old(progress), old(recorder.currentPitch), screamThreshold) else 0.0)
        && authProgress == (if signInOk then Goal else 0.0)
    {
      var pitch := recorder.currentPitch;
      if isListening && pitch > screamThreshold as real {
        progress := progress + LoudStep;
        authProgress := if progress <= Goal then progress else Goal;
        if progress >= Goal {
          HandleAuthSuccess(signInOk);
        }
      } else if isListening && pitch < screamThreshold as real * 0.5 {
        progress := MaxReal(0.0, progress - QuietStep);
        authProgress := progress;
      }
    }

    /** One analyser frame. React re-runs the progress effect only when the
        intensity value actually changed, so a run of identical values
        counts once. */
    method OnFrame(frame: seq<Byte>, signInOk: bool)
      requires Valid()
      requires |frame| == FrequencyBinCount
      modifies this, recorder
      ensures Valid()
      ensures old(recorder.hasAnalyser) && isListening ==> recorder.currentPitch == PitchOf(frame)
      ensures screamThreshold == old(screamThreshold) && canUseMic == old(canUseMic)
      ensures pendingTimeouts == old(pendingTimeouts) && fallbackIntervals == old(fallbackIntervals)
      ensures !old(isListening) || PitchOf(frame) == old(recorder.currentPitch) ==>
        && progress == old(progress) && authProgress == old(authProgress)
        && isListening == old(isListening) && signInAttempts == old(signInAttempts)
      ensures old(isListening) && PitchOf(frame) != old(recorder.currentPitch) ==>
        (NextProgress(old(progress), PitchOf(frame), screamThreshold) < Goal ==>
          && isListening && signInAttempts == old(signInAttempts)
          && progress == NextProgress(old(progress), PitchOf(frame), screamThreshold))
      ensures old(isListening) && PitchOf(frame) != old(recorder.currentPitch) ==>
        (NextProgress(old(progress), PitchOf(frame), screamThreshold) >= Goal ==>
          !isListening && signInAttempts == old(signInAttempts) + 1)
    {
      var before := recorder.currentPitch;
      recorder.Tick(frame);
      if recorder.currentPitch != before {
        ProgressEffect(signInOk);
      }
    }

    /** The meter as the comment on its decay branch intends ("slowly
        decrease progress if not screaming"): the progress effect runs on
        every analyser frame, whether or not the intensity changed. */
    method OnFrameEachRun(frame: seq<Byte>, signInOk: bool)
      requires Valid()
      requires |frame| == FrequencyBinCount
      modifies this, recorder
      ensures Valid()
      ensures old(recorder.hasAnalyser) && isListening ==> recorder.currentPitch == PitchOf(frame)
      ensures screamThreshold == old(screamThreshold) && canUseMic == old(canUseMic)
      ensures pendingTimeouts == old(pendingTimeouts) && fallbackIntervals == old(fallbackIntervals)
      ensures !old(isListening) ==>
        && progress == old(progress) && authProgress == old(authProgress)
        && isListening == old(isListening) && signInAttempts == old(signInAttempts)
      ensures old(isListening) && NextProgress(old(progress), PitchOf(frame), screamThreshold) < Goal ==>
        && isListening && signInAttempts == old(signInAttempts)
        && progress == NextProgress(old(progress), PitchOf(frame), screamThreshold)
      ensures old(isListening) && NextProgress(old(progress), PitchOf(frame), screamThreshold) >= Goal ==>
        !isListening && signInAttempts == old(signInAttempts) + 1
    {
      recorder.Tick(frame);
      ProgressEffect(signInOk);
    }

    /** `handleStartListening` (the button while not listening): on success
        listen from 0 and start a 30-second timeout; the change of
        `isListening` then runs the progress effect on the first frame's
        intensity. On failure switch to the fallback button. */
    method HandleStartListening(micGranted: bool, encoderSupported: bool, firstFrame: seq<Byte>)
      requires Valid() && canUseMic && !isListening
      requires |firstFrame| == FrequencyBinCount
      modifies this, recorder
      ensures Valid()
      ensures micGranted && encoderSupported ==>
        && isListening && canUseMic
        && progress == NextProgress(0.0, PitchOf(firstFrame), screamThreshold) && authProgress == progress
        && pendingTimeouts == old(pendingTimeouts) + 1
        && recorder.currentPitch == PitchOf(firstFrame)
      ensures !(micGranted && encoderSupported) ==>
        && !isListening && !canUseMic && progress == old(progress) && authProgress == old(authProgress)
        && pendingTimeouts == old(pendingTimeouts)
      ensures screamThreshold == old(screamThreshold) && fallbackIntervals == old(fallbackIntervals)
      ensures signInAttempts == old(signInAttempts)
    {
      var started := recorder.StartRecording(micGranted, encoderSupported, firstFrame);
      if started {
        isListening := true;
        authProgress, progress := 0.0, 0.0;
        pendingTimeouts := pendingTimeouts + 1;
        ProgressEffect(false);
      } else {
        canUseMic := false;
      }
    }

    /** A 30-second timeout firing: it resets the meter, whichever attempt
        started it. */
    method TimeoutFires()
      requires Valid() && pendingTimeouts > 0
      modifies this, recorder
      ensures Valid()
      ensures pendingTimeouts == old(pendingTimeouts) - 1
      ensures progress == 0.0 && authProgress == 0.0 && !isListening
      ensures signInAttempts == old(signInAttempts) && fallbackIntervals == old(fallbackIntervals)
    {
      pendingTimeouts := pendingTimeouts - 1;
      ResetAuth();
    }

    /** Moving the sensitivity slider. A new value re-runs the progress
        effect with the current intensity; the same value changes nothing. */
    method SetThreshold(t: int, signInOk: bool)
      requires Valid() && MinThreshold <= t <= MaxThreshold
      modifies this, recorder
      ensures Valid() && screamThreshold == t
      ensures !old(isListening) || t == old(screamThreshold) ==>
        progress == old(progress) && isListening == old(isListening)
        && signInAttempts == old(signInAttempts)
      ensures old(isListening) && t != old(screamThreshold) ==>
        (NextProgress(old(progress), old(recorder.currentPitch), t) < Goal ==>
          isListening && progress == NextProgress(old(progress), old(recorder.currentPitch), t))
      ensures old(isListening) && t != old(screamThreshold) ==>
        (NextProgress(old(progress), old(recorder.currentPitch), t) >= Goal ==>
          !isListening && signInAttempts == old(signInAttempts) + 1)
      ensures pendingTimeouts == old(pendingTimeouts) && fallbackIntervals == old(fallbackIntervals)
    {
      if t != screamThreshold {
        screamThreshold := t;
        ProgressEffect(signInOk);
      }
    }

    /** `handleFakeScream` (offered only once the microphone was refused):
        reset the counter and start an interval adding 5 per tick. */
    method HandleFakeScream()
      requires Valid() && !canUseMic
      modifies this
      ensures Valid()
      ensures progress == 0.0 && authProgress == 0.0
      ensures fallbackIntervals == old(fallbackIntervals) + 1
      ensures !isListening && !canUseMic
      ensures signInAttempts == old(signInAttempts) && pendingTimeouts == old(pendingTimeouts)
    {
      authProgress, progress := 0.0, 0.0;
      fallbackIntervals := fallbackIntervals + 1;
    }

    /** One tick of a fallback interval: add 5 and show it; at 100 or more
        the interval clears itself and the sign-in starts. */
    method FallbackTick(signInOk: bool)
      requires Valid() && fallbackIntervals > 0
      modifies this, recorder
      ensures Valid() && !canUseMic && !isListening
      ensures old(progress) + FallbackStep < Goal ==>
        && progress == old(progress) + FallbackStep && authProgress == progress
        && fallbackIntervals == old(fallbackIntervals) && signInAttempts == old(signInAttempts)
      ensures old(progress) + FallbackStep >= Goal ==>
        && fallbackIntervals == old(fallbackIntervals) - 1
        && signInAttempts == old(signInAttempts) + 1
        && progress == (if signInOk then old(progress) + FallbackStep else 0.0)
      ensures pendingTimeouts == old(pendingTimeouts)
    {
      progress := progress + FallbackStep;
      authProgress := progress;
      if progress >= Goal {
        fallbackIntervals := fallbackIntervals - 1;
        HandleAuthSuccess(signInOk);
      }
    }
  }

  /** The fallback from a click to its end, with no other interval running:
      exactly twenty ticks, one sign-in attempt, and the interval gone. */
  method RunFakeScream(v: VoiceAuth, signInOk: bool) returns (ticks: nat)
    requires v.Valid() && !v.canUseMic && v.fallbackIntervals == 0
    modifies v, v.recorder
    ensures v.Valid()
    ensures ticks == 20 && v.fallbackIntervals == 0
    ensures v.signInAttempts == old(v.signInAttempts) + 1
    ensures v.progress == if signInOk then Goal else 0.0
  {
    v.HandleFakeScream();
    ticks := 0;
    while v.fallbackIntervals > 0
      invariant v.Valid() && !v.canUseMic
      invariant ticks <= 20
      invariant v.fallbackIntervals == if ticks < 20 then 1 else 0
      invariant ticks < 20 ==>
        v.progress == FallbackStep * ticks as real && v.signInAttempts == old(v.signInAttempts)
      invariant ticks == 20 ==>
        && v.signInAttempts == old(v.signInAttempts) + 1
        && v.progress == if signInOk then Goal else 0.0
      decreases 20 - ticks
    {
      v.FallbackTick(signInOk);
      ticks := ticks + 1;
    }
  }

  /** A timeout left over from an earlier, cancelled attempt ends a later
      attempt: start, cancel, start again, and the first timeout fires. */
  method StaleTimeoutEndsLaterAttempt(firstFrame: seq<Byte>) returns (v: VoiceAuth)
    requires |firstFrame| == FrequencyBinCount
    ensures v.Valid() && !v.isListening && v.progress == 0.0 && v.authProgress == 0.0
    ensures v.pendingTimeouts == 1 && v.signInAttempts == 0
  {
    v := new VoiceAuth();
    v.HandleStartListening(true, true, firstFrame);
    v.ResetAuth();
    v.HandleStartListening(true, true, firstFrame);
    assert v.isListening && v.pendingTimeouts == 2;
    v.TimeoutFires();
  }

  /** Frames arriving while listening, as written. While the meter is still
      listening, the counter is the fold of `NextProgress` over the effect
      runs (each change of intensity), and the intensity is the last
      frame's. It is still listening exactly when every prefix of that fold
      stays below 100; otherwise listening ended after exactly one sign-in
      attempt. */
  method ListenToFrames(v: VoiceAuth, frames: seq<seq<Byte>>, signInOk: bool)
    requires v.Valid() && v.isListening
    requires forall k :: 0 <= k < |frames| ==> |frames[k]| == FrequencyBinCount
    modifies v, v.recorder
    ensures v.Valid() && v.screamThreshold == old(v.screamThreshold)
    ensures v.isListening ==>
      && v.signInAttempts == old(v.signInAttempts)
      && v.recorder.currentPitch == LastOr(old(v.recorder.currentPitch), Intensities(frames))
      && v.progress == Progressed(old(v.progress),
           EffectRuns(old(v.recorder.currentPitch), Intensities(frames)), v.screamThreshold)
    ensures !v.isListening ==> v.signInAttempts == old(v.signInAttempts) + 1
    ensures v.isListening <==> forall j :: 0 <= j <= |frames| ==>
      Progressed(old(v.progress), EffectRuns(old(v.recorder.currentPitch), Intensities(frames)[..j]),
        old(v.screamThreshold)) < Goal
  {
    ghost var p0, c0, a0, t := v.progress, v.recorder.currentPitch, v.signInAttempts, v.screamThreshold;
    ghost var pitches := Intensities(frames);
    for i := 0 to |frames|
      invariant v.Valid() && v.screamThreshold == t
      invariant v.isListening ==>
        && v.signInAttempts == a0
        && v.recorder.currentPitch == LastOr(c0, pitches[..i])
        && v.progress == Progressed(p0, EffectRuns(c0, pitches[..i]), t)
      invariant !v.isListening ==> v.signInAttempts == a0 + 1
      invariant v.isListening <==> RunsStayBelow(p0, c0, pitches, t, i)
    {
      ghost var runs, x := EffectRuns(c0, pitches[..i]), pitches[i];
      assert pitches[..i + 1] == pitches[..i] + [x];
      EffectRunsSnoc(c0, pitches[..i], x);
      ProgressedSnoc(p0, runs, x, t);
      ghost var wasListening, q, c := v.isListening, v.progress, v.recorder.currentPitch;
      v.OnFrame(frames[i], signInOk);
      RunsStayBelowSnoc(p0, c0, pitches, t, i);
      if v.isListening {
        assert wasListening && c == LastOr(c0, pitches[..i]);
        if x == c {
          assert runs + [] == runs;
          assert v.progress == q;
        } else {
          assert v.progress == NextProgress(q, x, t);
        }
        assert Progressed(p0, EffectRuns(c0, pitches[..i + 1]), t) < Goal;
      } else if wasListening {
        assert x != c && NextProgress(q, x, t) >= Goal;
        assert Progressed(p0, EffectRuns(c0, pitches[..i + 1]), t) >= Goal;
      }
    }
    assert pitches[..|frames|] == pitches;
  }

  /** The same frames with the corrected meter: while listening, the
      counter is the fold of `NextProgress` over every frame's intensity,
      and it is still listening exactly when every prefix of that fold
      stays below 100. */
  method ListenToFramesEachRun(v: VoiceAuth, frames: seq<seq<Byte>>, signInOk: bool)
    requires v.Valid() && v.isListening
    requires forall k :: 0 <= k < |frames| ==> |frames[k]| == FrequencyBinCount
    modifies v, v.recorder
    ensures v.Valid() && v.screamThreshold == old(v.screamThreshold)
    ensures v.isListening ==>
      && v.signInAttempts == old(v.signInAttempts)
      && v.progress == Progressed(old(v.progress), Intensities(frames), v.screamThreshold)
    ensures !v.isListening ==> v.signInAttempts == old(v.signInAttempts) + 1
    ensures v.isListening <==> forall j :: 0 <= j <= |frames| ==>
      Progressed(old(v.progress), Intensities(frames)[..j], old(v.screamThreshold)) < Goal
  {
    ghost var p0, a0, t := v.progress, v.signInAttempts, v.screamThreshold;
    ghost var pitches := Intensities(frames);
    for i := 0 to |frames|
      invariant v.Valid() && v.screamThreshold == t
      invariant v.isListening ==>
        v.signInAttempts == a0 && v.progress == Progressed(p0, pitches[..i], t)
      invariant !v.isListening ==> v.signInAttempts == a0 + 1
      invariant v.isListening <==> FoldStaysBelow(p0, pitches, t, i)
    {
      ghost var x := pitches[i];
      assert pitches[..i + 1] == pitches[..i] + [x];
      ProgressedSnoc(p0, pitches[..i], x, t);
      ghost var wasListening, q := v.isListening, v.progress;
      v.OnFrameEachRun(frames[i], signInOk);
      FoldStaysBelowSnoc(p0, pitches, t, i);
      if v.isListening {
        assert wasListening && v.progress == NextProgress(q, x, t);
        assert Progressed(p0, pitches[..i + 1], t) < Goal;
      } else if wasListening {
        assert NextProgress(q, x, t) >= Goal;
        assert Progressed(p0, pitches[..i + 1], t) >= Goal;
      }
    }
    assert pitches[..|frames|] == pitches;
  }

  /** As written: after a sound, any number of silent frames lower the
      counter by 0.5 once and then leave it, and the meter keeps listening. */
  method SilenceAfterSoundDecaysOnce(v: VoiceAuth, frames: seq<seq<Byte>>, signInOk: bool)
    requires v.Valid() && v.isListening && v.recorder.currentPitch != 0.0
    requires |frames| > 0
    requires forall k :: 0 <= k < |frames| ==> |frames[k]| == FrequencyBinCount && PitchOf(frames[k]) == 0.0
    modifies v, v.recorder
    ensures v.Valid() && v.isListening
    ensures v.progress == MaxReal(0.0, old(v.progress) - QuietStep)
  {
    ghost var p0, c0, t := v.progress, v.recorder.currentPitch, v.screamThreshold;
    ghost var pitches := Intensities(frames);
    forall j | 0 <= j <= |frames|
      ensures Progressed(p0, EffectRuns(c0, pitches[..j]), t) < Goal
    {
      if j > 0 {
        SteadySilenceDecaysOnce(p0, c0, pitches[..j], t);
      }
    }
    ListenToFrames(v, frames, signInOk);
    SteadySilenceDecaysOnce(p0, c0, pitches, t);
  }

  /** The corrected meter: silence takes 0.5 off per frame, down to 0, and
      the meter keeps listening. */
  method SilenceDrainsMeter(v: VoiceAuth, frames: seq<seq<Byte>>, signInOk: bool)
    requires v.Valid() && v.isListening
    requires forall k :: 0 <= k < |frames| ==> |frames[k]| == FrequencyBinCount && PitchOf(frames[k]) == 0.0
    modifies v, v.recorder
    ensures v.Valid() && v.isListening
    ensures v.progress == MaxReal(0.0, old(v.progress) - QuietStep * |frames| as real)
  {
    ghost var p0, t := v.progress, v.screamThreshold;
    ghost var pitches := Intensities(frames);
    forall j | 0 <= j <= |frames|
      ensures Progressed(p0, pitches[..j], t) < Goal
    {
      QuietRunDecays(p0, pitches[..j], t);
    }
    ListenToFramesEachRun(v, frames, signInOk);
    QuietRunDecays(p0, pitches, t);
  }
}
