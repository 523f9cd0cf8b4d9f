/** The records of types.ts: the enhancer's parameter set, the remix alignment
    and a named preset, with keyed access (`params[key]`), the keyed update
    `{ ...params, [key]: value }` and the spread merge `{ ...params, ...partial }`. */
module Params {

  /** AudioProcessParams: every field is a number (types.ts:18-44). */
  datatype AudioProcessParams = AudioProcessParams(
    pitch: real,
    stretch: real,
    denoise: real,
    deess: real,
    reverb: real,
    reverbDecay: real,
    masterReverb: real,
    stereo: real,
    drive: real,
    shift: real,
    delay: real,
    delayTime: real,
    delayFeedback: real,
    eqBass: real,
    eqMid: real,
    eqAir: real,
    master: real,
    vibratoDepth: real,
    vibratoSpeed: real,
    ringMod: real,
    backingVocals: real)

  /** keyof AudioProcessParams */
  datatype Field =
    | Pitch | Stretch | Denoise | Deess | Reverb | ReverbDecay | MasterReverb | Stereo
    | Drive | Shift | Delay | DelayTime | DelayFeedback | EqBass | EqMid | EqAir
    | Master | VibratoDepth | VibratoSpeed | RingMod | BackingVocals

  /** Partial<AudioProcessParams>: the fields present and their values. */
  type Partial = map<Field, real>

  /** RemixParams (types.ts:46-51). */
  datatype RemixParams = RemixParams(key: real, tempo: real, shift: real, balance: real)

  /** Preset (types.ts:61-64). */
  datatype Preset = Preset(name: string, params: AudioProcessParams)

  /** params[key] */
  function Get(p: AudioProcessParams, f: Field): real
  {
    match f
    case Pitch => p.pitch
    case Stretch => p.stretch
    case Denoise => p.denoise
    case Deess => p.deess
    case Reverb => p.reverb
    case ReverbDecay => p.reverbDecay
    case MasterReverb => p.masterReverb
    case Stereo => p.stereo
    case Drive => p.drive
    case Shift => p.shift
    case Delay => p.delay
    case DelayTime => p.delayTime
    case DelayFeedback => p.delayFeedback
    case EqBass => p.eqBass
    case EqMid => p.eqMid
    case EqAir => p.eqAir
    case Master => p.master
    case VibratoDepth => p.vibratoDepth
    case VibratoSpeed => p.vibratoSpeed
    case RingMod => p.ringMod
    case BackingVocals => p.backingVocals
  }

  /** A record is determined by its fields. */
  lemma Extensionality(p: AudioProcessParams, q: AudioProcessParams)
    requires forall f :: Get(p, f) == Get(q, f)
    ensures p == q
  {
    assert Get(p, Pitch) == Get(q, Pitch) && Get(p, Stretch) == Get(q, Stretch);
    assert Get(p, Denoise) == Get(q, Denoise) && Get(p, Deess) == Get(q, Deess);
    assert Get(p, Reverb) == Get(q, Reverb) && Get(p, ReverbDecay) == Get(q, ReverbDecay);
    assert Get(p, MasterReverb) == Get(q, MasterReverb) && Get(p, Stereo) == Get(q, Stereo);
    assert Get(p, Drive) == Get(q, Drive) && Get(p, Shift) == Get(q, Shift);
    assert Get(p, Delay) == Get(q, Delay) && Get(p, DelayTime) == Get(q, DelayTime);
    assert Get(p, DelayFeedback) == Get(q, DelayFeedback) && Get(p, EqBass) == Get(q, EqBass);
    assert Get(p, EqMid) == Get(q, EqMid) && Get(p, EqAir) == Get(q, EqAir);
    assert Get(p, Master) == Get(q, Master) && Get(p, VibratoDepth) == Get(q, VibratoDepth);
    assert Get(p, VibratoSpeed) == Get(q, VibratoSpeed) && Get(p, RingMod) == Get(q, RingMod);
    assert Get(p, BackingVocals) == Get(q, BackingVocals);
  }

  /** `{ ...p, [f]: v }`: the named field takes the value, every other field is kept. */
  function With(p: AudioProcessParams, f: Field, v: real): (r: AudioProcessParams)
    ensures Get(r, f) == v
    ensures forall g :: g != f ==> Get(r, g) == Get(p, g)
  {
    match f
    case Pitch => p.(pitch := v)
    case Stretch => p.(stretch := v)
    case Denoise => p.(denoise := v)
    case Deess => p.(deess := v)
    case Reverb => p.(reverb := v)
    case ReverbDecay => p.(reverbDecay := v)
    case MasterReverb => p.(masterReverb := v)
    case Stereo => p.(stereo := v)
    case Drive => p.(drive := v)
    case Shift => p.(shift := v)
    case Delay => p.(delay := v)
    case DelayTime => p.(delayTime := v)
    case DelayFeedback => p.(delayFeedback := v)
    case EqBass => p.(eqBass := v)
    case EqMid => p.(eqMid := v)
    case EqAir => p.(eqAir := v)
    case Master => p.(master := v)
    case VibratoDepth => p.(vibratoDepth := v)
    case VibratoSpeed => p.(vibratoSpeed := v)
    case RingMod => p.(ringMod := v)
    case BackingVocals => p.(backingVocals := v)
  }

  /** The value of field f after the spread: the partial's if present, else p's. */
  function Pick(p: AudioProcessParams, s: Partial, f: Field): real
  {
    if f in s then s[f] else Get(p, f)
  }

  /** `{ ...p, ...s }`: each field from the partial when present there,
      from p otherwise. */
  function Merge(p: AudioProcessParams, s: Partial): AudioProcessParams
  {
    AudioProcessParams(
      Pick(p, s, Pitch), Pick(p, s, Stretch), Pick(p, s, Denoise), Pick(p, s, Deess),
      Pick(p, s, Reverb), Pick(p, s, ReverbDecay), Pick(p, s, MasterReverb), Pick(p, s, Stereo),
      Pick(p, s, Drive), Pick(p, s, Shift), Pick(p, s, Delay), Pick(p, s, DelayTime),
      Pick(p, s, DelayFeedback), Pick(p, s, EqBass), Pick(p, s, EqMid), Pick(p, s, EqAir),
      Pick(p, s, Master), Pick(p, s, VibratoDepth), Pick(p, s, VibratoSpeed), Pick(p, s, RingMod),
      Pick(p, s, BackingVocals))
  }

  /** The spread overrides exactly the fields present in s. */
  lemma MergeFields(p: AudioProcessParams, s: Partial)
    ensures forall f :: f in s ==> Get(Merge(p, s), f) == s[f]
    ensures forall f :: f !in s ==> Get(Merge(p, s), f) == Get(p, f)
  {
    forall f ensures Get(Merge(p, s), f) == Pick(p, s, f) {
      match f {
        case Pitch =>
        case Stretch =>
        case Denoise =>
        case Deess =>
        case Reverb =>
        case ReverbDecay =>
        case MasterReverb =>
        case Stereo =>
        case Drive =>
        case Shift =>
        case Delay =>
        case DelayTime =>
        case DelayFeedback =>
        case EqBass =>
        case EqMid =>
        case EqAir =>
        case Master =>
        case VibratoDepth =>
        case VibratoSpeed =>
        case RingMod =>
        case BackingVocals =>
      }
    }
  }

  /** Spreading an empty partial changes nothing. */
  lemma MergeEmpty(p: AudioProcessParams)
    ensures Merge(p, map[]) == p
  {
    MergeFields(p, map[]);
    Extensionality(Merge(p, map[]), p);
  }

  /** A one-field spread is the keyed update. */
  lemma MergeSingleton(p: AudioProcessParams, f: Field, v: real)
    ensures Merge(p, map[f := v]) == With(p, f, v)
  {
    var m, w := Merge(p, map[f := v]), With(p, f, v);
    MergeFields(p, map[f := v]);
    forall g ensures Get(m, g) == Get(w, g) {
      if g == f {
        assert g in map[f := v];
      } else {
        assert g !in map[f := v];
      }
    }
    Extensionality(m, w);
  }
}
