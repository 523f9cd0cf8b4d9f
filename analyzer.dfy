/** analyzeAudioBuffer: a strided pass over channel 0 of a decoded buffer that
    measures loudness (RMS) and brightness (zero-crossing rate) and turns them
    into suggested enhancer settings. */
module Analyzer {
  import opened Numbers
  import opened Params
  import opened Pcm

  /** Only every tenth sample is read. */
  const Step: nat := 10

  /** Math.min(data.length, sampleRate * 30): at most the first 30 seconds. */
  function SampleLimit(buf: AudioBuffer): (n: nat)
    requires |buf.channels| >= 1
    ensures n <= |buf.channels[0]| && n <= buf.sampleRate * 30
    ensures n == |buf.channels[0]| || n == buf.sampleRate * 30
  {
    if |buf.channels[0]| <= buf.sampleRate * 30 then |buf.channels[0]| else buf.sampleRate * 30
  }

  /** How many of the indices 0, 10, 20, ... lie below limit. */
  function Visits(limit: nat): (k: nat)
    ensures limit <= Step * k <= limit + 9
    ensures k == 0 <==> limit == 0
  {
    (limit + 9) / Step
  }

  /** The j-th index the loop reads. */
  function Visited(j: nat): nat { Step * j }

  /** The running sumSquares after the first k visited samples. */
  function SumSquares(data: seq<real>, k: nat): (s: real)
    requires Step * k <= |data| + 9
    ensures s >= 0.0
  {
    if k == 0 then 0.0
    else
      var x := data[Visited(k - 1)];
      SumSquares(data, k - 1) + x * x
  }

  /** Whether the j-th visited sample has the opposite sign to the one before
      it: `i > 0 && data[i] * data[i - step] < 0`. */
  predicate IsCrossing(data: seq<real>, j: nat)
    requires Visited(j) < |data|
  {
    j > 0 && data[Visited(j)] * data[Visited(j - 1)] < 0.0
  }

  /** The running zeroCrossings after the first k visited samples: never more
      than one per visited sample after the first. */
  function Crossings(data: seq<real>, k: nat): (n: nat)
    requires Step * k <= |data| + 9
    ensures k == 0 ==> n == 0
    ensures k > 0 ==> n <= k - 1
  {
    if k == 0 then 0
    else Crossings(data, k - 1) + (if IsCrossing(data, k - 1) then 1 else 0)
  }

  /** count = sampleLimit / step, a real quotient, not a floor. */
  function Count(limit: nat): (c: real)
    ensures c * Step as real == limit as real
  {
    limit as real / Step as real
  }

  /** Math.sqrt(sumSquares / count): NaN when no sample was read (0 / 0). */
  function Rms(sumSquares: real, limit: nat, m: MathLib): Number
  {
    if limit == 0 then NaN else Num(m.sqrt(sumSquares / Count(limit)))
  }

  /** zeroCrossings / count: NaN when no sample was read. */
  function Zcr(crossings: nat, limit: nat): Number
  {
    if limit == 0 then NaN else Num(crossings as real / Count(limit))
  }

  /** The gain towards a target RMS of 0.15, in decibels, kept within [0, 9];
      `rms || 0.001` stands in for a zero or NaN rms. */
  function SuggestedMaster(rms: Number, m: MathLib): (r: real)
    ensures 0.0 <= r <= 9.0
  {
    var gainRatio := 0.15 / rms.Or(0.001);
    var gainDb := 20.0 * m.log10(gainRatio);
    Clamp(0.0, 9.0, gainDb)
  }

  /** The fields every analysis suggests, whatever the input. */
  function Defaults(): Partial
  {
    map[Pitch := 0.0, Stretch := 1.0, Drive := 0.0, VibratoDepth := 0.0, VibratoSpeed := 6.0,
        RingMod := 0.0, BackingVocals := 0.0, DelayTime := 0.3, DelayFeedback := 0.3,
        ReverbDecay := 1.5]
  }

  /** The suggestion record built from the measurements: the defaults, the tone
      rule on the zero-crossing rate, the normalising gain, the stereo width
      by channel count and the fixed reverb amounts. */
  function Suggestions(zcr: Number, rms: Number, numberOfChannels: nat, m: MathLib): Partial
  {
    var s := Defaults();
    var toned :=
      if zcr.Lt(0.02) then s[EqAir := 5.0][EqMid := 2.0][EqBass := -2.0][Denoise := 0.1][Drive := 0.3]
      else if zcr.Gt(0.15) then s[EqAir := -2.0][Denoise := 0.4][Deess := 0.5]
      else s[EqAir := 2.5][Denoise := 0.2][Drive := 0.1];
    toned[Master := SuggestedMaster(rms, m)]
         [Stereo := if numberOfChannels == 1 then 0.5 else 0.25]
         [Reverb := 0.2][MasterReverb := 1.0]
  }

  /** The measurements of a buffer with at least one channel. */
  function BufferRms(buf: AudioBuffer, m: MathLib): Number
    requires |buf.channels| >= 1
  {
    var limit := SampleLimit(buf);
    Rms(SumSquares(buf.channels[0], Visits(limit)), limit, m)
  }

  function BufferZcr(buf: AudioBuffer): Number
    requires |buf.channels| >= 1
  {
    var limit := SampleLimit(buf);
    Zcr(Crossings(buf.channels[0], Visits(limit)), limit)
  }

  /** What analyzeAudioBuffer returns: the suggestions, or the empty record
      when reading channel 0 throws because there is none. */
  function Analysis(buf: AudioBuffer, m: MathLib): Partial
  {
    if |buf.channels| == 0 then map[]
    else Suggestions(BufferZcr(buf), BufferRms(buf, m), |buf.channels|, m)
  }

  /** analyzeAudioBuffer: the strided accumulation loop, then the rule. */
  method AnalyzeAudioBuffer(buf: AudioBuffer, m: MathLib) returns (suggestions: Partial)
    ensures suggestions == Analysis(buf, m)
  {
    if |buf.channels| == 0 {
      return map[];
    }
    var data := buf.channels[0];
    var sumSquares := 0.0;
    var zeroCrossings := 0;
    var sampleLimit := if |data| <= buf.sampleRate * 30 then |data| else buf.sampleRate * 30;
    var step := Step;
    var i := 0;
    ghost var k := 0;
    while i < sampleLimit
      invariant i == Visited(k) && Step * k <= sampleLimit + 9
      invariant sumSquares == SumSquares(data, k)
      invariant zeroCrossings == Crossings(data, k)
    {
      var val := data[i];
      sumSquares := sumSquares + val * val;
      if i > 0 && data[i] * data[i - step] < 0.0 {
        zeroCrossings := zeroCrossings + 1;
      }
      i := i + step;
      k := k + 1;
    }
    assert k == Visits(sampleLimit);
    var rms := Rms(sumSquares, sampleLimit, m);
    var zcr := Zcr(zeroCrossings, sampleLimit);
    suggestions := Suggestions(zcr, rms, buf.NumberOfChannels(), m);
  }

  // ---- Properties of the analysis ----

  /** A buffer without channels yields the empty record. */
  lemma NoChannels(buf: AudioBuffer, m: MathLib)
    requires |buf.channels| == 0
    ensures Analysis(buf, m) == map[]
  {
  }

  /** Whether an analysis whose zero-crossing rate is zcr suggests field f:
      the defaults, the tone fields of the branch taken, and master, stereo,
      reverb and masterReverb; shift and delay never. */
  predicate IsSuggested(f: Field, zcr: Number)
  {
    && f != Shift && f != Delay
    && ((f == EqMid || f == EqBass) ==> zcr.Lt(0.02))
    && (f == Deess ==> !zcr.Lt(0.02) && zcr.Gt(0.15))
  }

  /** The suggestion record has exactly the fields IsSuggested names. */
  lemma SuggestedFields(zcr: Number, rms: Number, n: nat, m: MathLib)
    ensures forall f :: f in Suggestions(zcr, rms, n, m) <==> IsSuggested(f, zcr)
  {
    if zcr.Lt(0.02) {
      DullFields(zcr, rms, n, m);
    } else if zcr.Gt(0.15) {
      BrightFields(zcr, rms, n, m);
    } else {
      MiddleFields(zcr, rms, n, m);
    }
  }

  lemma DullFields(zcr: Number, rms: Number, n: nat, m: MathLib)
    requires zcr.Lt(0.02)
    ensures forall f :: f in Suggestions(zcr, rms, n, m) <==> IsSuggested(f, zcr)
  {
  }

  lemma BrightFields(zcr: Number, rms: Number, n: nat, m: MathLib)
    requires !zcr.Lt(0.02) && zcr.Gt(0.15)
    ensures forall f :: f in Suggestions(zcr, rms, n, m) <==> IsSuggested(f, zcr)
  {
  }

  lemma MiddleFields(zcr: Number, rms: Number, n: nat, m: MathLib)
    requires !zcr.Lt(0.02) && !zcr.Gt(0.15)
    ensures forall f :: f in Suggestions(zcr, rms, n, m) <==> IsSuggested(f, zcr)
  {
  }

  /** The tone rule, dull branch: zcr < 0.02 gets air, mid, a bass cut,
      light denoising and drive 0.3, and no de-essing. */
  lemma DullTone(zcr: Number, rms: Number, n: nat, m: MathLib)
    requires zcr.Lt(0.02)
    ensures var s := Suggestions(zcr, rms, n, m);
      && s[EqAir] == 5.0 && s[EqMid] == 2.0 && s[EqBass] == -2.0
      && s[Denoise] == 0.1 && s[Drive] == 0.3 && Deess !in s
  {
  }

  /** The tone rule, bright branch: zcr > 0.15 gets an air cut, more
      denoising and de-essing, while drive keeps its default 0. */
  lemma BrightTone(zcr: Number, rms: Number, n: nat, m: MathLib)
    requires zcr.Gt(0.15)
    ensures var s := Suggestions(zcr, rms, n, m);
      && s[EqAir] == -2.0 && s[Denoise] == 0.4 && s[Deess] == 0.5
      && s[Drive] == 0.0 && EqMid !in s && EqBass !in s
  {
  }

  /** The tone rule, otherwise (NaN included): moderate air, denoising and
      drive 0.1, nothing on mid, bass or de-essing. */
  lemma MiddleTone(zcr: Number, rms: Number, n: nat, m: MathLib)
    requires !zcr.Lt(0.02) && !zcr.Gt(0.15)
    ensures var s := Suggestions(zcr, rms, n, m);
      && s[EqAir] == 2.5 && s[Denoise] == 0.2 && s[Drive] == 0.1
      && EqMid !in s && EqBass !in s && Deess !in s
  {
  }

  /** The fixed part: stereo is 0.5 exactly for a mono buffer and 0.25
      otherwise; reverb 0.2, masterReverb 1.0; master within [0, 9]. */
  lemma FixedSuggestions(zcr: Number, rms: Number, n: nat, m: MathLib)
    ensures var s := Suggestions(zcr, rms, n, m);
      && (s[Stereo] == 0.5 <==> n == 1) && (n != 1 ==> s[Stereo] == 0.25)
      && s[Reverb] == 0.2 && s[MasterReverb] == 1.0
      && 0.0 <= s[Master] <= 9.0
  {
  }

  /** A louder signal never gets a larger gain suggestion. */
  lemma MasterMonotone(r1: real, r2: real, m: MathLib)
    requires m.Sound() && 0.0 < r1 <= r2
    ensures SuggestedMaster(Num(r1), m) >= SuggestedMaster(Num(r2), m)
  {
    QuotientAntitone(0.15, r1, r2);
    assert m.log10(0.15 / r2) <= m.log10(0.15 / r1);
  }

  /** Dividing a positive number by a larger divisor gives a smaller result. */
  lemma QuotientAntitone(a: real, r1: real, r2: real)
    requires a > 0.0 && 0.0 < r1 <= r2
    ensures 0.0 < a / r2 <= a / r1
  {
    assert a / r2 * r2 == a;
    assert a / r1 * r1 == a;
    assert a / r1 * r2 >= a / r1 * r1;
  }

  /** Silence, or a segment with no samples at all (rms NaN), gets the full
      9 dB: `rms || 0.001` makes the ratio 150, whose log is above 1. */
  lemma SilenceGetsFullGain(m: MathLib)
    requires m.Sound()
    ensures SuggestedMaster(NaN, m) == 9.0
    ensures SuggestedMaster(Num(0.0), m) == 9.0
  {
    assert 0.15 / 0.001 == 150.0;
    assert m.log10(10.0) <= m.log10(150.0);
  }

  /** An empty channel 0 is read as NaN for both measurements: the middle tone
      branch is taken and master is 9. */
  lemma EmptySegment(buf: AudioBuffer, m: MathLib)
    requires m.Sound() && |buf.channels| >= 1 && |buf.channels[0]| == 0
    ensures var s := Analysis(buf, m);
      s[EqAir] == 2.5 && s[Drive] == 0.1 && s[Master] == 9.0
  {
    SilenceGetsFullGain(m);
  }

  /** Only the visited samples matter: two channel-0 signals of one length
      that agree at every index 0, 10, 20, ... below the limit are analysed
      alike. */
  lemma ReadsOnlyVisited(a: AudioBuffer, b: AudioBuffer, m: MathLib)
    requires |a.channels| >= 1 && |a.channels| == |b.channels| && a.sampleRate == b.sampleRate
    requires |a.channels[0]| == |b.channels[0]|
    requires forall j :: 0 <= j < Visits(SampleLimit(a)) ==> a.channels[0][Visited(j)] == b.channels[0][Visited(j)]
    ensures Analysis(a, m) == Analysis(b, m)
  {
    var k := Visits(SampleLimit(a));
    SumSquaresAgree(a.channels[0], b.channels[0], k);
    CrossingsAgree(a.channels[0], b.channels[0], k);
  }

  lemma {:induction false} SumSquaresAgree(d: seq<real>, e: seq<real>, k: nat)
    requires Step * k <= |d| + 9 && |d| == |e|
    requires forall j :: 0 <= j < k ==> d[Visited(j)] == e[Visited(j)]
    ensures SumSquares(d, k) == SumSquares(e, k)
  {
    if k > 0 {
      SumSquaresAgree(d, e, k - 1);
    }
  }

  lemma {:induction false} CrossingsAgree(d: seq<real>, e: seq<real>, k: nat)
    requires Step * k <= |d| + 9 && |d| == |e|
    requires forall j :: 0 <= j < k ==> d[Visited(j)] == e[Visited(j)]
    ensures Crossings(d, k) == Crossings(e, k)
  {
    if k > 0 {
      CrossingsAgree(d, e, k - 1);
      if k > 1 {
        assert d[Visited(k - 2)] == e[Visited(k - 2)];
      }
    }
  }
}
