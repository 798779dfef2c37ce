/** The visualiser's numeric core: the exponential smoothing buffer that
    persists across animation frames, the choice between the idle and the
    active picture, and the integer bounds of the active picture (how many
    bars, how many rings). Canvas drawing itself is not modelled. */
module Visualizer {

  /** The blend factor the active drawing path passes. */
  const DrawSmoothing: real := 0.8
  /** The most bars the active picture draws. */
  const MaxBars: nat := 64

  function Abs(x: real): real {
    if x < 0.0 then -x else x
  }

  function MaxNat(a: nat, b: nat): nat {
    if a <= b then b else a
  }

  /** One bin's update: keep a fraction `f` of the old value and take the rest
      from the new one. */
  function Blend(previous: real, next: real, f: real): real {
    previous * f + next * (1.0 - f)
  }

  /** The buffer after one `smoothData` call. The first call (empty buffer)
      copies the frame; afterwards every index of the frame is blended where
      the buffer has a value and copied where it has none, and indices past
      the frame's end are left alone. */
  function Smoothed(buffer: seq<real>, frame: seq<real>, f: real): seq<real> {
    if |buffer| == 0 then frame
    else
      seq(MaxNat(|buffer|, |frame|), i requires 0 <= i < MaxNat(|buffer|, |frame|) =>
        if i < |frame| then (if i < |buffer| then Blend(buffer[i], frame[i], f) else frame[i])
        else buffer[i])
  }

  /** The buffer after `n` calls with the same frame. */
  function SmoothedTimes(buffer: seq<real>, frame: seq<real>, f: real, n: nat): seq<real> {
    if n == 0 then buffer else Smoothed(SmoothedTimes(buffer, frame, f, n - 1), frame, f)
  }

  function Pow(f: real, n: nat): real {
    if n == 0 then 1.0 else f * Pow(f, n - 1)
  }

  /** The buffer never shrinks: it grows to the longer of itself and the frame. */
  lemma SmoothedLength(buffer: seq<real>, frame: seq<real>, f: real)
    ensures |Smoothed(buffer, frame, f)| == MaxNat(|buffer|, |frame|)
  {
  }

  /** For a blend factor in [0, 1] the blended value lies between the old and
      the new value. */
  lemma BlendBetween(previous: real, next: real, f: real)
    requires 0.0 <= f <= 1.0
    ensures previous <= next ==> previous <= Blend(previous, next, f) <= next
    ensures next <= previous ==> next <= Blend(previous, next, f) <= previous
  {
    var b, d := Blend(previous, next, f), previous - next;
    var t := f * d;
    BlendOffset(previous, next, f);
    assert b == next + t;
    ScaleWithin(f, d);
    assert 0.0 <= d ==> 0.0 <= t <= d;
    assert d <= 0.0 ==> d <= t <= 0.0;
  }

  /** A blend is the new value moved `f` of the way back to the old one. */
  lemma BlendOffset(previous: real, next: real, f: real)
    ensures Blend(previous, next, f) == next + f * (previous - next)
  {
  }

  /** Scaling by a factor in [0, 1] keeps a difference's sign and shrinks it. */
  lemma ScaleWithin(f: real, d: real)
    requires 0.0 <= f <= 1.0
    ensures 0.0 <= d ==> 0.0 <= f * d <= d
    ensures d <= 0.0 ==> d <= f * d <= 0.0
  {
  }

  predicate AllWithin(s: seq<real>, lo: real, hi: real) {
    forall i :: 0 <= i < |s| ==> lo <= s[i] <= hi
  }

  /** A buffer and frames within a range (bytes: [0, 255]) keep the buffer
      within that range. */
  lemma SmoothedStaysWithin(buffer: seq<real>, frame: seq<real>, f: real, lo: real, hi: real)
    requires 0.0 <= f <= 1.0
    requires AllWithin(buffer, lo, hi) && AllWithin(frame, lo, hi)
    ensures AllWithin(Smoothed(buffer, frame, f), lo, hi)
  {
    var r := Smoothed(buffer, frame, f);
    forall i | 0 <= i < |r|
      ensures lo <= r[i] <= hi
    {
      if 0 < |buffer| && i < |frame| && i < |buffer| {
        BlendBetween(buffer[i], frame[i], f);
      }
    }
  }

  /** Against a fixed target, one blend scales the signed distance by exactly `f`. */
  lemma BlendContracts(previous: real, target: real, f: real)
    ensures Blend(previous, target, f) - target == f * (previous - target)
  {
    BlendOffset(previous, target, f);
  }

  /** Scaling by a factor in [0, 1) strictly shrinks a non-zero distance. */
  lemma ScaledCloser(f: real, d: real)
    requires 0.0 <= f < 1.0 && d != 0.0
    ensures Abs(f * d) < Abs(d)
  {
    if d > 0.0 {
      assert f * d < d;
    } else {
      assert f * -d < -d;
    }
  }

  lemma {:induction false} SmoothedTimesLength(buffer: seq<real>, frame: seq<real>, f: real, n: nat)
    requires |buffer| > 0
    ensures |SmoothedTimes(buffer, frame, f, n)| == if n == 0 then |buffer| else MaxNat(|buffer|, |frame|)
  {
    if n > 0 {
      SmoothedTimesLength(buffer, frame, f, n - 1);
      var prev := SmoothedTimes(buffer, frame, f, n - 1);
      assert SmoothedTimes(buffer, frame, f, n) == Smoothed(prev, frame, f);
      SmoothedLength(prev, frame, f);
    }
  }

  /** Where both the buffer and the frame have bin `i`, one call blends it. */
  lemma SmoothedAt(buffer: seq<real>, frame: seq<real>, f: real, i: nat)
    requires i < |buffer| && i < |frame|
    ensures i < |Smoothed(buffer, frame, f)|
    ensures Smoothed(buffer, frame, f)[i] == Blend(buffer[i], frame[i], f)
  {
  }

  /** Fed the same frame `n` times, a bin that already held a value ends
      `f^n` times its initial (signed) distance from the frame: the buffer
      converges geometrically to a constant input. */
  lemma {:induction false} ConstantInputConverges(buffer: seq<real>, frame: seq<real>, f: real, n: nat, i: nat)
    requires i < |buffer| && i < |frame|
    ensures i < |SmoothedTimes(buffer, frame, f, n)|
    ensures SmoothedTimes(buffer, frame, f, n)[i] - frame[i] == Pow(f, n) * (buffer[i] - frame[i])
  {
    SmoothedTimesLength(buffer, frame, f, n);
    if n > 0 {
      ConstantInputConverges(buffer, frame, f, n - 1, i);
      var prev := SmoothedTimes(buffer, frame, f, n - 1);
      assert SmoothedTimes(buffer, frame, f, n) == Smoothed(prev, frame, f);
      SmoothedAt(prev, frame, f, i);
      BlendContracts(prev[i], frame[i], f);
      var p, d0 := Pow(f, n - 1), buffer[i] - frame[i];
      assert prev[i] - frame[i] == p * d0;
      assert Pow(f, n) == f * p;
      assert f * (p * d0) == (f * p) * d0;
    }
  }

  /** With a blend factor in [0, 1), each call with a constant frame brings
      every bin that differs from the frame strictly closer to it. */
  lemma ConstantInputGetsCloser(buffer: seq<real>, frame: seq<real>, f: real, i: nat)
    requires 0.0 <= f < 1.0
    requires i < |buffer| && i < |frame| && buffer[i] != frame[i]
    ensures i < |Smoothed(buffer, frame, f)|
    ensures Abs(Smoothed(buffer, frame, f)[i] - frame[i]) < Abs(buffer[i] - frame[i])
  {
    SmoothedAt(buffer, frame, f, i);
    BlendContracts(buffer[i], frame[i], f);
    ScaledCloser(f, buffer[i] - frame[i]);
  }

  /** With the drawing path's factor 0.8, twenty-one calls leave less than one
      per cent of the initial distance. */
  lemma DrawSmoothingWithinOnePercent()
    ensures Pow(DrawSmoothing, 21) < 0.01
  {
    assert Pow(DrawSmoothing, 3) == 0.512;
    PowAdd(DrawSmoothing, 3, 3);
    assert Pow(DrawSmoothing, 6) == 0.262144;
    PowAdd(DrawSmoothing, 6, 6);
    assert Pow(DrawSmoothing, 12) < 0.0688;
    PowAdd(DrawSmoothing, 12, 6);
    assert Pow(DrawSmoothing, 18) < 0.0181;
    PowAdd(DrawSmoothing, 18, 3);
  }

  lemma {:induction false} PowAdd(f: real, m: nat, n: nat)
    ensures Pow(f, m + n) == Pow(f, m) * Pow(f, n)
  {
    if m > 0 {
      PowAdd(f, m - 1, n);
      assert Pow(f, m + n) == f * Pow(f, m - 1 + n);
    }
  }

  /** How many bars the active picture draws for a frame of `len` bins. */
  function BarCount(len: nat): (bars: nat)
    ensures bars <= MaxBars && bars <= len
    ensures bars == len || bars == MaxBars
  {
    if len <= MaxBars then len else MaxBars
  }

  /** How many pitch rings the active picture draws: two always, plus one per
      third of the way to a pitch of 75. */
  function RingCount(pitch: real): (rings: int)
    requires pitch >= 0.0
    ensures 2 <= rings <= 5
    ensures rings == 5 <==> pitch >= 75.0
    ensures rings == 2 <==> pitch < 25.0
  {
    var normalized := if pitch / 75.0 <= 1.0 then pitch / 75.0 else 1.0;
    2 + (normalized * 3.0).Floor
  }

  /** What one animation frame draws. */
  datatype Picture =
    | Idle
      /** The active picture: its bar count, its ring count, and the smoothed
          levels of the bins it draws. */
    | Active(bars: nat, rings: int, levels: seq<real>)

  /** The component's persistent state: the smoothing buffer (`smoothedDataRef`). */
  class AudioVisualizer {
    var smoothed: seq<real>

    constructor ()
      ensures smoothed == []
    {
      smoothed := [];
    }

    /** `smoothData`: updates the buffer in place and returns it. */
    method SmoothData(newData: seq<real>, f: real) returns (r: seq<real>)
      modifies this
      ensures smoothed == Smoothed(old(smoothed), newData, f)
      ensures r == smoothed
    {
      if |smoothed| == 0 {
        smoothed := newData;
        return smoothed;
      }
      ghost var s0 := smoothed;
      for i := 0 to |newData|
        invariant |smoothed| == MaxNat(|s0|, i)
        invariant forall k :: 0 <= k < i ==> smoothed[k] == Smoothed(s0, newData, f)[k]
        invariant forall k :: i <= k < |s0| ==> smoothed[k] == s0[k]
      {
        if i < |smoothed| {
          smoothed := smoothed[i := Blend(smoothed[i], newData[i], f)];
        } else {
          smoothed := smoothed + [newData[i]];
        }
      }
      r := smoothed;
    }

    /** One run of `draw`: idle (buffer untouched) when the visualiser is
        inactive or the frame is empty; otherwise smooth the frame with factor
        0.8 and draw the first `BarCount` smoothed levels and the pitch rings. */
    method Draw(isActive: bool, audioData: seq<real>, pitch: real) returns (p: Picture)
      requires pitch >= 0.0
      modifies this
      ensures !isActive || |audioData| == 0 ==> p == Idle && smoothed == old(smoothed)
      ensures isActive && |audioData| > 0 ==>
        && smoothed == Smoothed(old(smoothed), audioData, DrawSmoothing)
        && p == Active(BarCount(|audioData|), RingCount(pitch), smoothed[..BarCount(|audioData|)])
    {
      if !isActive || |audioData| == 0 {
        return Idle;
      }
      var bars := BarCount(|audioData|);
      var levels := SmoothData(audioData, DrawSmoothing);
      SmoothedLength(old(smoothed), audioData, DrawSmoothing);
      p := Active(bars, RingCount(pitch), levels[..bars]);
    }
  }
}
