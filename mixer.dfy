/** mixAudioOffline: two decoded tracks played at their own rates through
    equal gains and a limiter into one 44.1 kHz stereo render with no tail.
    What is modelled is the planning around the render (rates, gains,
    limiter, duration, frame count, progress), that every failure after the
    live audio context exists ends in the one "Mixing failed" error, and
    that a failure to create that context escapes unwrapped. */
module Mixer {
  import opened Numbers
  import opened Params
  import opened Pcm
  import Wav

  /** The mix renders at 44.1 kHz. */
  const MixRate: nat := 44100
  /** Both tracks pass through a gain of 0.8 ... */
  const TrackGain: real := 0.8
  /** ... into a limiter at -2 dB with ratio 10. */
  const LimiterThreshold: real := -2.0
  const LimiterRatio: real := 10.0

  /** The one error message the mixer throws for whatever goes wrong once
      the live audio context exists. */
  const MixFailed: string := "Mixing failed. Please check audio files."

  /** shiftFactor = 2^((key + shift) / 12) */
  function ShiftFactor(r: RemixParams, m: MathLib): (f: real)
    requires m.Sound()
    ensures f > 0.0
  {
    m.pow(2.0, (r.key + r.shift) / 12.0)
  }

  /** srcA.playbackRate = tempo */
  function RateA(r: RemixParams): real
  {
    r.tempo
  }

  /** srcB.playbackRate = tempo * shiftFactor */
  function RateB(r: RemixParams, m: MathLib): real
    requires m.Sound()
  {
    r.tempo * ShiftFactor(r, m)
  }

  /** How long each track plays at its rate. */
  function DurationA(durA: real, r: RemixParams): real
    requires r.tempo > 0.0
  {
    durA / r.tempo
  }

  function DurationB(durB: real, r: RemixParams, m: MathLib): real
    requires m.Sound() && r.tempo > 0.0
  {
    MulPositive(r.tempo, ShiftFactor(r, m));
    durB / (r.tempo * ShiftFactor(r, m))
  }

  lemma MulPositive(a: real, b: real)
    requires a > 0.0 && b > 0.0
    ensures a * b > 0.0
  {
  }

  /** The render lasts as long as the longer of the two. */
  function MixDuration(durA: real, durB: real, r: RemixParams, m: MathLib): real
    requires m.Sound() && r.tempo > 0.0
  {
    MaxReal(DurationA(durA, r), DurationB(durB, r, m))
  }

  /** Math.ceil(duration * 44100): the frame count of the offline context. */
  function MixFrames(durA: real, durB: real, r: RemixParams, m: MathLib): int
    requires m.Sound() && r.tempo > 0.0
  {
    Ceil(MixDuration(durA, durB, r, m) * MixRate as real)
  }

  /** Each track's playing time, multiplied back by its rate, is its own
      duration: every track is played through exactly once. */
  lemma TracksPlayedWhole(durA: real, durB: real, r: RemixParams, m: MathLib)
    requires m.Sound() && r.tempo > 0.0
    ensures DurationA(durA, r) * RateA(r) == durA
    ensures DurationB(durB, r, m) * RateB(r, m) == durB
  {
    MulPositive(r.tempo, ShiftFactor(r, m));
  }

  /** With no key change and no fine shift both tracks run at the tempo. */
  lemma UnshiftedRatesAgree(r: RemixParams, m: MathLib)
    requires m.Sound() && r.key + r.shift == 0.0
    ensures RateB(r, m) == RateA(r)
  {
    assert (r.key + r.shift) / 12.0 == 0.0;
  }

  /** The render covers the longer track, rounded up to a whole frame, and
      nothing more: no tail is added. */
  lemma FramesCoverLongerTrack(durA: real, durB: real, r: RemixParams, m: MathLib)
    requires m.Sound() && r.tempo > 0.0
    ensures var frames := MixFrames(durA, durB, r, m) as real;
      var d := MixDuration(durA, durB, r, m);
      && d >= DurationA(durA, r) && d >= DurationB(durB, r, m)
      && (d == DurationA(durA, r) || d == DurationB(durB, r, m))
      && d * 44100.0 <= frames < d * 44100.0 + 1.0
  {
  }

  /** The balance slider plays no part in the mix. */
  lemma BalanceUnused(durA: real, durB: real, r: RemixParams, m: MathLib, b: real)
    requires m.Sound() && r.tempo > 0.0
    ensures MixFrames(durA, durB, r.(balance := b), m) == MixFrames(durA, durB, r, m)
    ensures RateB(r.(balance := b), m) == RateB(r, m)
  {
    var q := r.(balance := b);
    assert q.key == r.key && q.shift == r.shift && q.tempo == r.tempo;
    assert ShiftFactor(q, m) == ShiftFactor(r, m);
    assert DurationA(durA, q) == DurationA(durA, r);
    assert DurationB(durB, q, m) == DurationB(durB, r, m);
    assert MixDuration(durA, durB, q, m) == MixDuration(durA, durB, r, m);
  }

  /** The offline context's shape, the rates of the two sources, the gains
      they pass through and the limiter both gains feed; the limiter's
      other settings are left at their defaults. */
  datatype MixPlan = MixPlan(channels: nat, frames: nat, sampleRate: nat, rateA: real, rateB: real,
                             gainA: real, gainB: real, limiterThreshold: real, limiterRatio: real)

  /** A mix, the wrapped "Mixing failed" error, or the error of creating
      the live audio context, which is thrown before the `try` and so
      reaches the caller as it is. */
  datatype MixResult = Mixed(plan: MixPlan, blob: seq<byte>) | Failed(message: string) | Uncaught

  /** The offline context and graph of a renderable mix: two channels at
      44.1 kHz for the longer track, source A at the tempo and source B at
      the shifted tempo, both at the same gain of 0.8 into a limiter at
      -2 dB with ratio 10. */
  function PlanFor(a: AudioBuffer, b: AudioBuffer, r: RemixParams, m: MathLib): (plan: MixPlan)
    requires a.WellFormed() && b.WellFormed() && m.Sound() && Renderable(a, b, r, m)
    ensures plan.channels == 2 && plan.sampleRate == MixRate
    ensures plan.frames as int == MixFrames(a.Duration(), b.Duration(), r, m) > 0
    ensures plan.rateA == RateA(r) && plan.rateB == RateB(r, m)
    ensures plan.gainA == plan.gainB == TrackGain
    ensures plan.limiterThreshold == LimiterThreshold && plan.limiterRatio == LimiterRatio
  {
    MixPlan(2, MixFrames(a.Duration(), b.Duration(), r, m), MixRate, RateA(r), RateB(r, m),
            TrackGain, TrackGain, LimiterThreshold, LimiterRatio)
  }

  /** The balance slider changes nothing in the plan: a mix that can be
      rendered at one balance can be at every other, with the same context,
      rates, gains and limiter. */
  lemma BalanceIgnored(a: AudioBuffer, b: AudioBuffer, r: RemixParams, m: MathLib, bal: real)
    requires a.WellFormed() && b.WellFormed() && m.Sound()
    ensures Renderable(a, b, r.(balance := bal), m) <==> Renderable(a, b, r, m)
    ensures Renderable(a, b, r, m) ==> PlanFor(a, b, r.(balance := bal), m) == PlanFor(a, b, r, m)
  {
    if r.tempo > 0.0 {
      BalanceUnused(a.Duration(), b.Duration(), r, m, bal);
    }
  }

  /** Whether the offline context can be created: a tempo of 0 makes the
      durations infinite (or NaN), which becomes a length of 0; any length
      below one frame is refused. */
  predicate Renderable(a: AudioBuffer, b: AudioBuffer, r: RemixParams, m: MathLib)
    requires a.WellFormed() && b.WellFormed() && m.Sound()
  {
    r.tempo > 0.0 && MixFrames(a.Duration(), b.Duration(), r, m) > 0
  }

  /** What startRendering gives back for a plan: a buffer of the context's
      channel count, rate and length. */
  predicate RenderedFor(buf: AudioBuffer, plan: MixPlan)
  {
    buf.NumberOfChannels() == plan.channels && buf.sampleRate == plan.sampleRate && buf.Length() == plan.frames
  }

  /** Creating the offline context and its two sources: refused when the
      tempo is 0 or the length is under one frame. */
  method PlanMix(a: AudioBuffer, b: AudioBuffer, r: RemixParams, m: MathLib) returns (plan: Option<MixPlan>)
    requires a.WellFormed() && b.WellFormed() && m.Sound() && r.tempo >= 0.0
    ensures plan.Some? <==> Renderable(a, b, r, m)
    ensures plan.Some? ==> plan.value == PlanFor(a, b, r, m)
  {
    if r.tempo == 0.0 {
      return None;
    }
    var frames := MixFrames(a.Duration(), b.Duration(), r, m);
    if frames <= 0 {
      return None;
    }
    plan := Some(PlanFor(a, b, r, m));
  }

  /** mixAudioOffline. Whether `new AudioContextClass()` succeeds is given
      as `liveContext`; it fails when the browser has no AudioContext class
      or its constructor throws. The decoded tracks are given as `decodedA`
      and `decodedB` (None when decodeAudioData rejects the file), and the
      browser's render as `rendered`: two channels at 44.1 kHz of the
      planned length, as the offline context was built. Progress is
      reported as 10, 40, 60, 90, and stops at the step that fails. */
  method MixAudioOffline(liveContext: bool, decodedA: Option<AudioBuffer>, decodedB: Option<AudioBuffer>,
                         r: RemixParams, m: MathLib, rendered: AudioBuffer)
    returns (result: MixResult, progress: seq<nat>)
    requires decodedA.Some? ==> decodedA.value.WellFormed()
    requires decodedB.Some? ==> decodedB.value.WellFormed()
    requires rendered.WellFormed() && m.Sound() && r.tempo >= 0.0
    requires decodedA.Some? && decodedB.Some? && Renderable(decodedA.value, decodedB.value, r, m) ==>
      RenderedFor(rendered, PlanFor(decodedA.value, decodedB.value, r, m))
    ensures result.Uncaught? <==> !liveContext
    ensures result.Uncaught? ==> progress == []
    ensures result.Mixed? <==>
      liveContext && decodedA.Some? && decodedB.Some? && Renderable(decodedA.value, decodedB.value, r, m)
    ensures result.Failed? ==> result.message == MixFailed
    ensures liveContext && (decodedA.None? || decodedB.None?) ==> progress == [10]
    ensures decodedA.Some? && decodedB.Some? && result.Failed? ==> progress == [10, 40]
    ensures result.Mixed? ==>
      && progress == [10, 40, 60, 90]
      && result.plan == PlanFor(decodedA.value, decodedB.value, r, m)
      && result.blob == Wav.WavFile(rendered)
      && Wav.StereoPcm16(result.blob, MixRate, result.plan.frames)
  {
    progress := [];
    if !liveContext {
      return Uncaught, progress;
    }
    progress := progress + [10];
    if decodedA.None? || decodedB.None? {
      return Failed(MixFailed), progress;
    }
    var bufA, bufB := decodedA.value, decodedB.value;
    progress := progress + [40];
    var planned := PlanMix(bufA, bufB, r, m);
    if planned.None? {
      return Failed(MixFailed), progress;
    }
    var plan := planned.value;
    progress := progress + [60];
    progress := progress + [90];
    var blob := Wav.BufferToWav(rendered);
    result := Mixed(plan, blob);
  }
}
