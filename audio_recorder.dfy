/** The audio-recorder hook: it turns each frame of frequency bytes from the
    analyser into a filtered frame for the visualiser and a scalar intensity
    (the "pitch"), and it collects the encoder's chunks into one recording.
    The browser's audio objects are replaced by booleans saying whether each
    reference is held, and each animation frame is an explicit `Tick`. */
module Recorder {
  import opened Options

  /** One element of a `Uint8Array`. */
  type Byte = b: int | 0 <= b < 256

  /** Mean bin value below which a frame counts as silence. */
  const NoiseThreshold: nat := 10
  /** Mean bin value above which a frame is shown amplified. */
  const VisualizationThreshold: nat := 15
  const FftSize: nat := 256
  /** The analyser yields half as many bins as its FFT size. */
  const FrequencyBinCount: nat := FftSize / 2
  /** The largest intensity: the value of a saturated byte. */
  const MaxIntensity: real := 255.0

  function Min(a: real, b: real): real {
    if a <= b then a else b
  }

  /** Sum of the bins, accumulated from the front as the source's loop does. */
  function Sum(s: seq<Byte>): nat {
    if |s| == 0 then 0 else Sum(s[..|s| - 1]) + s[|s| - 1]
  }

  function Mean(frame: seq<Byte>): real
    requires |frame| > 0
  {
    Sum(frame) as real / |frame| as real
  }

  /** Intensity as a function of the frame's mean bin value: silence below the
      noise floor, otherwise twice the mean, capped at a full byte. */
  function PitchOfMean(mean: real): real {
    if mean < NoiseThreshold as real then 0.0 else Min(mean * 2.0, MaxIntensity)
  }

  /** The intensity `calculatePitch` computes for a frame. */
  function PitchOf(frame: seq<Byte>): real
    requires |frame| > 0
  {
    PitchOfMean(Mean(frame))
  }

  /** `calculatePitch`: one pass accumulating the sum of the bins, then the
      noise floor and the doubled, capped mean. */
  method CalculatePitch(frame: seq<Byte>) returns (pitch: real)
    requires |frame| > 0
    ensures pitch == PitchOf(frame)
  {
    var sum: nat := 0;
    for i := 0 to |frame|
      invariant sum == Sum(frame[..i])
    {
      assert frame[..i + 1][..i] == frame[..i];
      sum := sum + frame[i];
    }
    assert frame[..|frame|] == frame;
    var averageVolume := sum as real / |frame| as real;
    if averageVolume < NoiseThreshold as real {
      return 0.0;
    }
    pitch := Min(averageVolume * 2.0, MaxIntensity);
  }

  lemma {:induction false} SumConstant(s: seq<Byte>, v: Byte)
    requires forall i :: 0 <= i < |s| ==> s[i] == v
    ensures Sum(s) == v * |s|
  {
    if |s| > 0 {
      SumConstant(s[..|s| - 1], v);
    }
  }

  /** A frame is silent exactly when its bins sum to less than ten per bin. */
  lemma PitchSilentIff(frame: seq<Byte>)
    requires |frame| > 0
    ensures PitchOf(frame) == 0.0 <==> Sum(frame) < NoiseThreshold * |frame|
  {
    MeanBelow(frame, NoiseThreshold);
  }

  /** The mean is below `c` exactly when the sum is below `c` per bin. */
  lemma MeanBelow(frame: seq<Byte>, c: nat)
    requires |frame| > 0
    ensures Mean(frame) < c as real <==> Sum(frame) < c * |frame|
  {
    var n := |frame| as real;
    QuotientBelow(Sum(frame) as real, n, c as real);
    assert (c * |frame|) as real == c as real * n;
  }

  /** Dividing by a positive number keeps a strict bound, in both directions. */
  lemma QuotientBelow(x: real, n: real, c: real)
    requires n > 0.0
    ensures x / n < c <==> x < c * n
  {
    var m := x / n;
    assert m * n == x;
    if m < c {
      assert m * n < c * n;
    } else {
      assert m * n >= c * n;
    }
  }

  /** Every intensity is a byte-range value, and a non-silent frame reads at
      least twice the noise floor. */
  lemma PitchRange(frame: seq<Byte>)
    requires |frame| > 0
    ensures 0.0 <= PitchOf(frame) <= MaxIntensity
    ensures PitchOf(frame) != 0.0 ==> PitchOf(frame) >= 20.0
  {
  }

  /** More average energy never reads as a lower intensity. */
  lemma PitchMonotone(a: seq<Byte>, b: seq<Byte>)
    requires |a| > 0 && |b| > 0
    requires Mean(a) <= Mean(b)
    ensures PitchOf(a) <= PitchOf(b)
  {
  }

  /** A single saturated bin among 127 silent ones stays below the noise floor:
      the intensity follows sustained broadband energy, not a lone peak. */
  lemma SingleSpikeIsSilent(frame: seq<Byte>)
    requires |frame| == FrequencyBinCount
    requires frame[0] == 255
    requires forall i :: 1 <= i < |frame| ==> frame[i] == 0
    ensures PitchOf(frame) == 0.0
  {
    SumSplitFirst(frame);
    SumConstant(frame[1..], 0);
    PitchSilentIff(frame);
  }

  /** A frame with every bin saturated reads exactly the maximum intensity. */
  lemma SaturatedFrameIsMax(frame: seq<Byte>)
    requires |frame| > 0
    requires forall i :: 0 <= i < |frame| ==> frame[i] == 255
    ensures PitchOf(frame) == MaxIntensity
  {
    SumConstant(frame, 255);
    var n := |frame| as real;
    assert Sum(frame) as real == 255.0 * n;
    assert Mean(frame) * n == 255.0 * n;
    assert Mean(frame) == 255.0;
  }

  lemma {:induction false} SumSplitFirst(s: seq<Byte>)
    requires |s| > 0
    ensures Sum(s) == s[0] + Sum(s[1..])
  {
    if |s| > 1 {
      SumSplitFirst(s[..|s| - 1]);
      assert s[..|s| - 1][1..] == s[1..][..|s| - 2];
    }
  }

  /** The visual gain for a loud frame: `Math.min(v * 1.5, 255)` stored back
      into a byte, which truncates. */
  function AmplifyBin(v: Byte): Byte {
    if 3 * v / 2 < 255 then 3 * v / 2 else 255
  }

  /** The visual damping for a quiet frame: `v > 10 ? v * 0.5 : 0` stored back
      into a byte. */
  function AttenuateBin(v: Byte): Byte {
    if v > NoiseThreshold then v / 2 else 0
  }

  /** `processAudioData`: when the mean bin value exceeds the visualisation
      threshold every bin is amplified by half again (saturating), otherwise
      bins at the noise floor or below are blanked and the rest halved. An
      empty frame has a NaN mean, fails the comparison and maps to empty. */
  function ProcessAudioData(frame: seq<Byte>): (out: seq<Byte>)
    ensures |out| == |frame|
    ensures Sum(frame) > VisualizationThreshold * |frame| ==>
      forall i :: 0 <= i < |frame| ==>
        frame[i] <= out[i] && (out[i] == 255 <==> frame[i] >= 170)
    ensures Sum(frame) <= VisualizationThreshold * |frame| ==>
      forall i :: 0 <= i < |frame| ==>
        out[i] as int * 2 <= frame[i] && (out[i] == 0 <==> frame[i] <= NoiseThreshold)
  {
    if Sum(frame) > VisualizationThreshold * |frame| then
      seq(|frame|, i requires 0 <= i < |frame| => AmplifyBin(frame[i]))
    else
      seq(|frame|, i requires 0 <= i < |frame| => AttenuateBin(frame[i]))
  }

  /** Both filters keep the order of bin values. */
  lemma FiltersAreMonotone(v: Byte, w: Byte)
    requires v <= w
    ensures AmplifyBin(v) <= AmplifyBin(w)
    ensures AttenuateBin(v) <= AttenuateBin(w)
  {
  }

  /** A piece of encoded audio delivered by the encoder's `dataavailable` event. */
  datatype Chunk = Chunk(data: seq<Byte>)

  /** A finished recording: the chunks it was built from, in order. */
  datatype Blob = Blob(chunks: seq<Chunk>)

  /** The encoder's state as the hook inspects it. */
  datatype EncoderState = Inactive | Recording

  /** The chunks the hook keeps out of a stream of deliveries: the non-empty ones. */
  function Collected(deliveries: seq<Chunk>): (kept: seq<Chunk>)
    ensures |kept| <= |deliveries|
    ensures forall k :: 0 <= k < |kept| ==> |kept[k].data| > 0
  {
    if |deliveries| == 0 then []
    else
      var last := deliveries[|deliveries| - 1];
      Collected(deliveries[..|deliveries| - 1]) + (if |last.data| > 0 then [last] else [])
  }

  /** Collecting two runs of deliveries is collecting each in turn: order is kept. */
  lemma {:induction false} CollectedAppend(a: seq<Chunk>, b: seq<Chunk>)
    ensures Collected(a + b) == Collected(a) + Collected(b)
    decreases |b|
  {
    if |b| > 0 {
      var b' := b[..|b| - 1];
      assert (a + b)[..|a + b| - 1] == a + b';
      CollectedAppend(a, b');
    } else {
      assert a + b == a;
    }
  }

  /** A chunk with data survives collection; an empty one disappears. */
  lemma CollectedOne(c: Chunk)
    ensures Collected([c]) == if |c.data| > 0 then [c] else []
  {
    assert [c][..0] == [];
  }

  /** The state the hook keeps across renders: React state (`audioData`,
      `isActive`, `currentPitch`, `recordedBlob`) and the refs (`chunksRef`,
      the encoder, and whether the context, analyser and stream are held). */
  class AudioRecorder {
    var audioData: seq<Byte>
    var isActive: bool
    var currentPitch: real
    var recordedBlob: Option<Blob>
    var chunks: seq<Chunk>
    var encoder: Option<EncoderState>
    var hasAudioContext: bool
    var hasAnalyser: bool
    var hasStream: bool
    /** `stop` events the encoder still owes after `stop()` was called. */
    var pendingStops: nat

    ghost predicate Valid()
      reads this
    {
      && (forall k :: 0 <= k < |chunks| ==> |chunks[k].data| > 0)
      && 0.0 <= currentPitch <= MaxIntensity
      && (hasAnalyser ==> hasAudioContext && hasStream && encoder.Some?)
      && (isActive ==> hasAnalyser)
    }

    constructor ()
      ensures Valid()
      ensures audioData == [] && !isActive && currentPitch == 0.0 && recordedBlob == None
      ensures chunks == [] && encoder == None && pendingStops == 0
      ensures !hasAudioContext && !hasAnalyser && !hasStream
    {
      audioData, isActive, currentPitch, recordedBlob := [], false, 0.0, None;
      chunks, encoder, pendingStops := [], None, 0;
      hasAudioContext, hasAnalyser, hasStream := false, false, false;
    }

    /** One run of `updateAudioData`: while the analyser is held, read a frame,
        publish its filtered form and its intensity; once it is released the
        loop has stopped and nothing changes. */
    method Tick(frame: seq<Byte>)
      requires Valid()
      requires |frame| == FrequencyBinCount
      modifies this
      ensures Valid()
      ensures old(hasAnalyser) ==> audioData == ProcessAudioData(frame) && currentPitch == PitchOf(frame)
      ensures !old(hasAnalyser) ==> audioData == old(audioData) && currentPitch == old(currentPitch)
      ensures isActive == old(isActive) && recordedBlob == old(recordedBlob) && chunks == old(chunks)
      ensures encoder == old(encoder) && pendingStops == old(pendingStops)
      ensures hasAudioContext == old(hasAudioContext) && hasAnalyser == old(hasAnalyser)
      ensures hasStream == old(hasStream)
    {
      if hasAnalyser {
        audioData := ProcessAudioData(frame);
        var pitch := CalculatePitch(frame);
        PitchRange(frame);
        currentPitch := pitch;
      }
    }

    /** `startRecording`. A refused microphone throws before anything is
        touched. A refused encoder throws after the stream is held and the
        chunk list emptied. Otherwise the encoder starts with an empty chunk
        list, the analyser is attached, the first frame is processed at once
        and the hook becomes active. */
    method StartRecording(micGranted: bool, encoderSupported: bool, firstFrame: seq<Byte>)
      returns (started: bool)
      requires Valid()
      requires |firstFrame| == FrequencyBinCount
      modifies this
      ensures Valid()
      ensures started == (micGranted && encoderSupported)
      ensures !micGranted ==>
        && audioData == old(audioData) && isActive == old(isActive)
        && currentPitch == old(currentPitch) && chunks == old(chunks) && encoder == old(encoder)
        && hasStream == old(hasStream) && hasAudioContext == old(hasAudioContext)
        && hasAnalyser == old(hasAnalyser)
      ensures micGranted && !encoderSupported ==>
        && hasStream && chunks == []
        && audioData == old(audioData) && isActive == old(isActive)
        && currentPitch == old(currentPitch) && encoder == old(encoder)
        && hasAudioContext == old(hasAudioContext) && hasAnalyser == old(hasAnalyser)
      ensures started ==>
        && chunks == [] && encoder == Some(Recording)
        && hasStream && hasAudioContext && hasAnalyser && isActive
        && audioData == ProcessAudioData(firstFrame) && currentPitch == PitchOf(firstFrame)
      ensures recordedBlob == old(recordedBlob) && pendingStops == old(pendingStops)
    {
      if !micGranted {
        return false;
      }
      hasStream := true;
      chunks := [];
      if !encoderSupported {
        return false;
      }
      encoder := Some(Recording);
      hasAudioContext, hasAnalyser := true, true;
      Tick(firstFrame);
      isActive := true;
      started := true;
    }

    /** The encoder's `dataavailable` handler: only chunks with data are kept. */
    method OnDataAvailable(c: Chunk)
      requires Valid()
      requires encoder.Some?
      modifies this
      ensures Valid()
      ensures chunks == old(chunks) + Collected([c])
      ensures audioData == old(audioData) && isActive == old(isActive)
      ensures currentPitch == old(currentPitch) && recordedBlob == old(recordedBlob)
      ensures encoder == old(encoder) && pendingStops == old(pendingStops)
      ensures hasAudioContext == old(hasAudioContext) && hasAnalyser == old(hasAnalyser)
      ensures hasStream == old(hasStream)
    {
      CollectedOne(c);
      if |c.data| > 0 {
        chunks := chunks + [c];
      }
    }

    /** The encoder's `stop` handler: the recording is built from the chunk
        list as it stands. */
    method OnStop()
      requires Valid()
      requires pendingStops > 0
      modifies this
      ensures Valid()
      ensures recordedBlob == Some(Blob(chunks))
      ensures pendingStops == old(pendingStops) - 1
      ensures chunks == old(chunks) && audioData == old(audioData) && isActive == old(isActive)
      ensures currentPitch == old(currentPitch) && encoder == old(encoder)
      ensures hasAudioContext == old(hasAudioContext) && hasAnalyser == old(hasAnalyser)
      ensures hasStream == old(hasStream)
    {
      recordedBlob := Some(Blob(chunks));
      pendingStops := pendingStops - 1;
    }

    /** `stopRecording`, safe from any state: the encoder is stopped only if
        it is recording (its `stop` event then follows later), every
        reference is released and the published state is cleared. */
    method StopRecording()
      requires Valid()
      modifies this
      ensures Valid()
      ensures !isActive && audioData == [] && currentPitch == 0.0
      ensures !hasAudioContext && !hasAnalyser && !hasStream
      ensures old(encoder) == Some(Recording) ==>
        encoder == Some(Inactive) && pendingStops == old(pendingStops) + 1
      ensures old(encoder) != Some(Recording) ==>
        encoder == old(encoder) && pendingStops == old(pendingStops)
      ensures chunks == old(chunks) && recordedBlob == old(recordedBlob)
    {
      if encoder == Some(Recording) {
        encoder := Some(Inactive);
        pendingStops := pendingStops + 1;
      }
      isActive := false;
      audioData := [];
      currentPitch := 0.0;
      hasAudioContext, hasAnalyser, hasStream := false, false, false;
    }

    /** `clearRecording`: forget the recording and its chunks. */
    method ClearRecording()
      requires Valid()
      modifies this
      ensures Valid()
      ensures recordedBlob == None && chunks == []
      ensures audioData == old(audioData) && isActive == old(isActive)
      ensures currentPitch == old(currentPitch) && encoder == old(encoder)
      ensures pendingStops == old(pendingStops)
      ensures hasAudioContext == old(hasAudioContext) && hasAnalyser == old(hasAnalyser)
      ensures hasStream == old(hasStream)
    {
      recordedBlob := None;
      chunks := [];
    }
  }

  /** A whole capture: after a successful start, the encoder delivers
      `deliveries` in order, the hook is stopped, the encoder hands over its
      remaining data (`final`: the `dataavailable` events that `stop()`
      fires before `stop`), and the encoder's `stop` event arrives. The
      recording holds exactly the non-empty deliveries of both runs, in
      arrival order. */
  method CaptureRecording(r: AudioRecorder, firstFrame: seq<Byte>, deliveries: seq<Chunk>, final: seq<Chunk>)
    returns (started: bool)
    requires r.Valid() && r.pendingStops == 0
    requires |firstFrame| == FrequencyBinCount
    modifies r
    ensures r.Valid() && started
    ensures r.recordedBlob == Some(Blob(Collected(deliveries + final)))
  {
    started := r.StartRecording(true, true, firstFrame);
    DeliverChunks(r, deliveries);
    assert r.chunks == Collected(deliveries) by {
      assert [] + Collected(deliveries) == Collected(deliveries);
    }
    r.StopRecording();
    DeliverChunks(r, final);
    CollectedAppend(deliveries, final);
    r.OnStop();
  }

  /** The encoder delivering `deliveries` in order: exactly their collected
      form is appended to the chunks. */
  method DeliverChunks(r: AudioRecorder, deliveries: seq<Chunk>)
    requires r.Valid() && r.encoder.Some?
    modifies r
    ensures r.Valid()
    ensures r.chunks == old(r.chunks) + Collected(deliveries)
    ensures r.encoder == old(r.encoder) && r.pendingStops == old(r.pendingStops)
    ensures r.recordedBlob == old(r.recordedBlob) && r.isActive == old(r.isActive)
    ensures r.hasAnalyser == old(r.hasAnalyser) && r.currentPitch == old(r.currentPitch)
  {
    var i := 0;
    while i < |deliveries|
      invariant 0 <= i <= |deliveries|
      invariant r.Valid() && r.encoder == old(r.encoder) && r.pendingStops == old(r.pendingStops)
      invariant r.recordedBlob == old(r.recordedBlob) && r.isActive == old(r.isActive)
      invariant r.hasAnalyser == old(r.hasAnalyser) && r.currentPitch == old(r.currentPitch)
      invariant r.chunks == old(r.chunks) + Collected(deliveries[..i])
    {
      r.OnDataAvailable(deliveries[i]);
      CollectedAppend(deliveries[..i], [deliveries[i]]);
      assert deliveries[..i + 1] == deliveries[..i] + [deliveries[i]];
      i := i + 1;
    }
    assert deliveries[..i] == deliveries;
  }
}
