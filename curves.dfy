/** The two tables the renderer fills in loops before any audio is processed:
    the soft-clipping waveshaper curve (makeDistortionCurve) and the decaying
    noise burst used as the reverb's impulse response (impulse). */
module Curves {
  import opened Numbers
  import opened Pcm

  // ---- makeDistortionCurve ----

  /** n_samples: the length of the waveshaper table. */
  const CurveSamples: nat := 44100

  /** `typeof amount === 'number' ? amount : 50`; absence stands for a value
      that is not a number. */
  function Steepness(amount: Option<real>): real
  {
    if amount.Some? then amount.value else 50.0
  }

  /** The input level of table entry i, `(i * 2) / n_samples - 1`: from -1 up
      to just below 1. */
  function CurveInput(i: nat): (x: real)
    requires i < CurveSamples
    ensures -1.0 <= x < 1.0
  {
    (i * 2) as real / CurveSamples as real - 1.0
  }

  function Abs(x: real): (r: real)
    ensures r >= 0.0 && (r == x || r == -x)
  {
    if x < 0.0 then -x else x
  }

  /** The steepness values for which the formula's denominator
      `Math.PI + k * Math.abs(x)` stays positive on [-1, 1]. */
  predicate CurveDefined(k: real, pi: real)
  {
    pi > 0.0 && k > -pi
  }

  lemma DenominatorPositive(k: real, pi: real, x: real)
    requires CurveDefined(k, pi) && -1.0 <= x <= 1.0
    ensures pi + k * Abs(x) > 0.0
  {
    var a := Abs(x);
    if k < 0.0 {
      assert (1.0 - a) * (-k) >= 0.0;
      assert k * a - k == (1.0 - a) * (-k);
      assert k * a >= k;
    } else {
      assert k * a >= 0.0;
    }
  }

  /** The soft-clipping formula `((3 + k) * x * 20 * deg) / (Math.PI + k * |x|)`
      with deg = PI / 180. */
  function Shape(k: real, pi: real, x: real): real
    requires CurveDefined(k, pi) && -1.0 <= x <= 1.0
  {
    DenominatorPositive(k, pi, x);
    var deg := pi / 180.0;
    ((3.0 + k) * x * 20.0 * deg) / (pi + k * Abs(x))
  }

  /** makeDistortionCurve: a fresh 44100-entry table, entry i holding the
      formula at CurveInput(i). */
  method MakeDistortionCurve(amount: Option<real>, m: MathLib) returns (curve: array<real>)
    requires CurveDefined(Steepness(amount), m.pi)
    ensures fresh(curve) && curve.Length == CurveSamples
    ensures forall i :: 0 <= i < CurveSamples ==> curve[i] == Shape(Steepness(amount), m.pi, CurveInput(i))
  {
    var k := Steepness(amount);
    var nSamples := CurveSamples;
    curve := new real[nSamples];
    for i := 0 to nSamples
      invariant forall j :: 0 <= j < i ==> curve[j] == Shape(k, m.pi, CurveInput(j))
    {
      var x := (i * 2) as real / nSamples as real - 1.0;
      assert x == CurveInput(i);
      curve[i] := Shape(k, m.pi, x);
    }
  }

  /** Entries i and n - i are mirror images about the middle entry, whose
      input is exactly 0. */
  lemma TableMirror(i: nat)
    requires 0 < i < CurveSamples
    ensures CurveInput(CurveSamples - i) == -CurveInput(i)
    ensures CurveInput(CurveSamples / 2) == 0.0
  {
  }

  /** The table's inputs increase with the index. */
  lemma InputIncreasing(i: nat, j: nat)
    requires i <= j < CurveSamples
    ensures CurveInput(i) <= CurveInput(j)
  {
  }

  /** The curve is odd: it bends negative inputs exactly as positive ones. */
  lemma ShapeOdd(k: real, pi: real, x: real)
    requires CurveDefined(k, pi) && -1.0 <= x <= 1.0
    ensures Shape(k, pi, -x) == -Shape(k, pi, x)
  {
    DenominatorPositive(k, pi, x);
    var deg := pi / 180.0;
    var d := pi + k * Abs(x);
    assert Abs(-x) == Abs(x);
    assert (3.0 + k) * (-x) * 20.0 * deg == -((3.0 + k) * x * 20.0 * deg);
    NegateQuotient((3.0 + k) * x * 20.0 * deg, d);
  }

  lemma NegateQuotient(a: real, d: real)
    requires d > 0.0
    ensures (-a) / d == -(a / d)
  {
  }

  /** For a steepness of at least -3 the output has the sign of the input. */
  lemma ShapeSign(k: real, pi: real, x: real)
    requires CurveDefined(k, pi) && k > -3.0 && -1.0 <= x <= 1.0
    ensures x > 0.0 ==> Shape(k, pi, x) > 0.0
    ensures x == 0.0 ==> Shape(k, pi, x) == 0.0
    ensures x < 0.0 ==> Shape(k, pi, x) < 0.0
  {
    ShapeFactored(k, pi, x);
    var d := pi + k * Abs(x);
    if x > 0.0 {
      MulLt(0.0, x / d, Gain(k, pi));
    } else if x < 0.0 {
      MulLt(x / d, 0.0, Gain(k, pi));
    }
  }

  /** (3 + k) * 20 * deg, the factor the formula scales x / (PI + k |x|) by. */
  function Gain(k: real, pi: real): (c: real)
    ensures pi > 0.0 && k > -3.0 ==> c > 0.0
  {
    var deg := pi / 180.0;
    if pi > 0.0 && k > -3.0 then
      MulLt(0.0, 3.0 + k, 20.0 * deg);
      (3.0 + k) * 20.0 * deg
    else
      (3.0 + k) * 20.0 * deg
  }

  /** The formula is Gain times x / (PI + k |x|). */
  lemma ShapeFactored(k: real, pi: real, x: real)
    requires CurveDefined(k, pi) && -1.0 <= x <= 1.0
    ensures pi + k * Abs(x) > 0.0
    ensures Shape(k, pi, x) == Gain(k, pi) * (x / (pi + k * Abs(x)))
  {
    DenominatorPositive(k, pi, x);
    var deg := pi / 180.0;
    var d := pi + k * Abs(x);
    assert (3.0 + k) * x * 20.0 * deg == Gain(k, pi) * x;
    assert Gain(k, pi) * x / d == Gain(k, pi) * (x / d);
  }

  /** a <= b scaled by e >= 0 keeps its order. */
  lemma MulLe(a: real, b: real, e: real)
    requires a <= b && e >= 0.0
    ensures a * e <= b * e
  {
    assert b * e - a * e == (b - a) * e;
  }

  /** a < b scaled by e > 0 keeps its strict order. */
  lemma MulLt(a: real, b: real, e: real)
    requires a < b && e > 0.0
    ensures a * e < b * e
  {
    assert b * e - a * e == (b - a) * e;
  }

  /** x / (pi + k x) grows with x >= 0 when the denominators are positive. */
  lemma RatioGrows(k: real, pi: real, x: real, y: real)
    requires pi > 0.0 && 0.0 <= x <= y && pi + k * x > 0.0 && pi + k * y > 0.0
    ensures x / (pi + k * Abs(x)) <= y / (pi + k * Abs(y))
  {
    assert Abs(x) == x && Abs(y) == y;
    var a, b := pi + k * x, pi + k * y;
    assert x * b - y * a == pi * (x - y);
    MulLe(x, y, pi);
    QuotientLe(x, a, y, b);
  }

  /** Cross-multiplication: with positive denominators, p * b <= q * a gives
      p / a <= q / b. */
  lemma QuotientLe(p: real, a: real, q: real, b: real)
    requires a > 0.0 && b > 0.0 && p * b <= q * a
    ensures p / a <= q / b
  {
    var u, v := p / a, q / b;
    assert u * a == p;
    assert v * b == q;
    assert u * a * b <= v * b * a;
    MulPos(a, b);
    if u > v {
      MulLt(v, u, a * b);
      assert false;
    }
  }

  lemma MulPos(a: real, b: real)
    requires a > 0.0 && b > 0.0
    ensures a * b > 0.0
  {
    MulLt(0.0, a, b);
  }

  /** For a nonnegative steepness the curve never decreases. */
  lemma ShapeMonotone(k: real, pi: real, x: real, y: real)
    requires pi > 0.0 && k >= 0.0 && -1.0 <= x <= y <= 1.0
    ensures Shape(k, pi, x) <= Shape(k, pi, y)
  {
    if 0.0 <= x {
      ShapeNonnegMonotone(k, pi, x, y);
    } else if y <= 0.0 {
      ShapeNonnegMonotone(k, pi, -y, -x);
      ShapeOdd(k, pi, x);
      ShapeOdd(k, pi, y);
    } else {
      ShapeSign(k, pi, x);
      ShapeSign(k, pi, y);
    }
  }

  lemma ShapeNonnegMonotone(k: real, pi: real, x: real, y: real)
    requires pi > 0.0 && k >= 0.0 && 0.0 <= x <= y <= 1.0
    ensures Shape(k, pi, x) <= Shape(k, pi, y)
  {
    ShapeFactored(k, pi, x);
    ShapeFactored(k, pi, y);
    RatioGrows(k, pi, x, y);
    MulLe(x / (pi + k * Abs(x)), y / (pi + k * Abs(y)), Gain(k, pi));
  }

  /** The table of a nonnegative steepness is sorted, and every entry is
      bounded by the value the formula takes at full scale. */
  lemma TableSortedAndBounded(k: real, pi: real, i: nat, j: nat)
    requires pi > 0.0 && k >= 0.0 && i <= j < CurveSamples
    ensures Shape(k, pi, CurveInput(i)) <= Shape(k, pi, CurveInput(j))
    ensures Shape(k, pi, -1.0) <= Shape(k, pi, CurveInput(i)) <= Shape(k, pi, 1.0)
    ensures Shape(k, pi, -1.0) == -Shape(k, pi, 1.0)
  {
    InputIncreasing(i, j);
    ShapeMonotone(k, pi, CurveInput(i), CurveInput(j));
    ShapeMonotone(k, pi, -1.0, CurveInput(i));
    ShapeMonotone(k, pi, CurveInput(i), 1.0);
    ShapeOdd(k, pi, 1.0);
  }

  // ---- impulse ----

  /** The number of frames createBuffer allocates for `ctx.sampleRate * duration`:
      its integral part. */
  function ImpulseFrames(length: real): (n: nat)
    requires length >= 0.0
    ensures n as real <= length < n as real + 1.0
  {
    Floor(length)
  }

  /** `Math.pow(1 - i / length, decay)`: the envelope at frame i. */
  function Envelope(i: nat, length: real, decay: real, m: MathLib): real
    requires length > 0.0
  {
    m.pow(1.0 - i as real / length, decay)
  }

  /** `Math.random() * 2 - 1`: a draw r in [0, 1) moved to [-1, 1). */
  function Centered(r: real): real
  {
    r * 2.0 - 1.0
  }

  /** `(Math.random() * 2 - 1) * envelope`, r being the random draw. */
  function ImpulseSample(r: real, envelope: real): real
  {
    Centered(r) * envelope
  }

  /** impulse: two channels of enveloped noise. noise[c][i] is the i-th value
      Math.random returns for channel c. createBuffer refuses a buffer of no
      frames, which is the None result; the loop runs while i < length, so a
      fractional length makes one last write past the end, which a typed
      array drops. */
  method Impulse(sampleRate: nat, duration: real, decay: real, noise: seq<seq<real>>, m: MathLib)
    returns (result: Option<AudioBuffer>)
    requires sampleRate as real * duration >= 0.0
    requires |noise| == 2 && forall c :: 0 <= c < 2 ==> |noise[c]| >= ImpulseFrames(sampleRate as real * duration)
    ensures var length := sampleRate as real * duration;
      var frames := ImpulseFrames(length);
      && (result.Some? <==> frames > 0)
      && (result.Some? ==>
           && result.value.sampleRate == sampleRate
           && |result.value.channels| == 2
           && (forall c :: 0 <= c < 2 ==> |result.value.channels[c]| == frames)
           && (forall c, i :: 0 <= c < 2 && 0 <= i < frames ==>
                result.value.channels[c][i] == ImpulseSample(noise[c][i], Envelope(i, length, decay, m))))
  {
    var length := sampleRate as real * duration;
    var frames := ImpulseFrames(length);
    if frames == 0 {
      return None;
    }
    var channels: seq<seq<real>> := [];
    for channel := 0 to 2
      invariant |channels| == channel
      invariant forall c :: 0 <= c < channel ==> |channels[c]| == frames
      invariant forall c, i :: 0 <= c < channel && 0 <= i < frames ==>
        channels[c][i] == ImpulseSample(noise[c][i], Envelope(i, length, decay, m))
    {
      var impulseData := FillChannel(noise[channel], length, frames, decay, m);
      channels := channels + [impulseData[..]];
    }
    result := Some(AudioBuffer(sampleRate, channels));
  }

  /** The inner loop of impulse for one channel. */
  method FillChannel(noise: seq<real>, length: real, frames: nat, decay: real, m: MathLib)
    returns (impulseData: array<real>)
    requires frames > 0 && length >= 0.0 && frames == ImpulseFrames(length) && |noise| >= frames
    ensures fresh(impulseData) && impulseData.Length == frames
    ensures forall i :: 0 <= i < frames ==> impulseData[i] == ImpulseSample(noise[i], Envelope(i, length, decay, m))
  {
    impulseData := new real[frames];
    var i := 0;
    while (i as real) < length
      invariant i <= frames + 1
      invariant i as real < length + 1.0
      invariant forall j :: 0 <= j < i && j < frames ==> impulseData[j] == ImpulseSample(noise[j], Envelope(j, length, decay, m))
      decreases frames + 1 - i
    {
      if i < frames {
        impulseData[i] := ImpulseSample(noise[i], Envelope(i, length, decay, m));
      }
      i := i + 1;
    }
  }

  /** The envelope starts at 1, stays within (0, 1] and decays: a later frame
      is never louder than an earlier one. */
  lemma EnvelopeDecays(i: nat, j: nat, length: real, decay: real, m: MathLib)
    requires m.Sound() && decay >= 0.0 && i <= j && j as real < length
    ensures Envelope(0, length, decay, m) == 1.0
    ensures 0.0 < Envelope(j, length, decay, m) <= Envelope(i, length, decay, m) <= 1.0
  {
    var bi, bj := 1.0 - i as real / length, 1.0 - j as real / length;
    assert i as real / length <= j as real / length;
    assert j as real / length < 1.0;
    assert 0.0 < bj <= bi <= 1.0;
    assert m.pow(bj, decay) <= m.pow(bi, decay);
    assert m.pow(bi, decay) <= m.pow(1.0, decay);
  }

  /** A sample is the random draw, moved to [-1, 1), scaled by the
      envelope: it never exceeds the envelope. */
  lemma ImpulseSampleBound(r: real, e: real)
    requires 0.0 <= r < 1.0 && e > 0.0
    ensures -e <= ImpulseSample(r, e) < e
  {
    MulLe(-1.0, Centered(r), e);
    MulLt(Centered(r), 1.0, e);
  }

  /** Under a positive envelope a sample is negative exactly for a draw below
      1/2 and positive exactly for one above. */
  lemma ImpulseSampleSign(r: real, e: real)
    requires e > 0.0
    ensures ImpulseSample(r, e) < 0.0 <==> r < 0.5
    ensures ImpulseSample(r, e) > 0.0 <==> r > 0.5
  {
    var a := Centered(r);
    if r < 0.5 {
      MulLt(a, 0.0, e);
    } else if r > 0.5 {
      MulLt(0.0, a, e);
    } else {
      assert a == 0.0;
    }
  }

  lemma EnvelopePositive(i: nat, length: real, decay: real, m: MathLib)
    requires m.Sound() && i as real < length
    ensures Envelope(i, length, decay, m) > 0.0
  {
    assert i as real / length < 1.0;
  }
}
