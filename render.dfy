/** renderAudioFromBuffer, without the audio: the length of the offline
    render, the settings every Web Audio node receives, and the routing graph,
    which the code builds as a walk that moves `currentLastNode` forward and
    wires or skips each optional stage. The nodes' signal processing belongs
    to the browser and is not modelled. */
module Render {
  import opened Numbers
  import opened Params
  import opened Pcm
  import Wav
  import Curves

  // ---- Render length ----

  /** The offline context renders at 48 kHz ... */
  const RenderRate: nat := 48000
  /** ... for the stretched duration plus two seconds of tail. */
  const TailSeconds: nat := 2

  /** pitchFactor = 2^(pitch / 12): semitones to a frequency ratio. */
  function PitchFactor(p: AudioProcessParams, m: MathLib): real
  {
    m.pow(2.0, p.pitch / 12.0)
  }

  /** effectivePlaybackRate = speed * (pitchFactor / stretch), with speed 1. */
  function PlaybackRate(p: AudioProcessParams, m: MathLib): (r: real)
    requires m.Sound() && p.stretch > 0.0
    ensures r > 0.0
  {
    var f := PitchFactor(p, m);
    assert f > 0.0;
    QuotientPositive(f, p.stretch);
    1.0 * (f / p.stretch)
  }

  lemma QuotientPositive(a: real, b: real)
    requires a > 0.0 && b > 0.0
    ensures a / b > 0.0
  {
    assert a / b * b == a;
  }

  /** newDuration = originalDuration / effectivePlaybackRate */
  function NewDuration(duration: real, p: AudioProcessParams, m: MathLib): real
    requires m.Sound() && p.stretch > 0.0
  {
    duration / PlaybackRate(p, m)
  }

  /** The frame count the offline context is created with:
      Math.ceil(newDuration * sampleRate) + sampleRate * 2. */
  function OutputFrames(duration: real, p: AudioProcessParams, m: MathLib): int
    requires m.Sound() && p.stretch > 0.0
  {
    Ceil(NewDuration(duration, p, m) * RenderRate as real) + RenderRate * TailSeconds
  }

  /** The render holds the whole stretched input, rounded up to a frame, and
      exactly two seconds more. */
  lemma FramesCoverDuration(duration: real, p: AudioProcessParams, m: MathLib)
    requires m.Sound() && p.stretch > 0.0
    ensures var tail := RenderRate * TailSeconds;
      var body := OutputFrames(duration, p, m) - tail;
      && tail == 96000
      && NewDuration(duration, p, m) * 48000.0 <= body as real < NewDuration(duration, p, m) * 48000.0 + 1.0
  {
  }

  /** Without a pitch shift the output lasts the input's duration times the
      stretch factor. */
  lemma UnpitchedDuration(duration: real, p: AudioProcessParams, m: MathLib)
    requires m.Sound() && p.stretch > 0.0 && p.pitch == 0.0
    ensures NewDuration(duration, p, m) == duration * p.stretch
  {
    assert PitchFactor(p, m) == 1.0;
    var r := PlaybackRate(p, m);
    assert r == 1.0 / p.stretch;
    assert r * p.stretch == 1.0;
    assert duration / r * r == duration;
    assert duration * p.stretch * r == duration;
  }

  // ---- Node settings ----

  /** A dynamics compressor's settings; a knee of None is left at the
      node's default. */
  datatype Dynamics = Dynamics(threshold: real, knee: Option<real>, ratio: real, attack: real, release: real)

  /** The settings that do not depend on the parameters: the biquad
      filters' types, the oscillators given the type 'sine', and every
      constant frequency, delay, gain and dynamics setting. */
  datatype FixedSettings = FixedSettings(
    filterTypes: map<Node, string>,
    sineOscillators: set<Node>,
    deesserFrequency: real,
    bassFrequency: real,
    midFrequency: real,
    midQ: real,
    airFrequency: real,
    vibratoBaseDelay: real,
    chorusDelayTime: real,
    chorusLfoFrequency: real,
    chorusLfoDepth: real,
    backingEqFrequency: real,
    ringCarrierFrequency: real,
    ringModBaseGain: real,
    pan: real,
    compressor: Dynamics,
    limiter: Dynamics)

  /** The fixed settings of renderAudioFromBuffer. The vibrato delay's
      base time is what its LFO modulates; the ring modulator's base gain
      is what its carrier modulates. */
  const Fixed: FixedSettings := FixedSettings(
    filterTypes := map[Highpass := "highpass", Lowpass := "lowpass", Deesser := "peaking",
                       Bass := "lowshelf", Mid := "peaking", Air := "highshelf",
                       BackingEq := "highpass"],
    sineOscillators := {RingOsc, VibratoOsc},
    deesserFrequency := 7000.0,
    bassFrequency := 200.0,
    midFrequency := 1500.0,
    midQ := 1.0,
    airFrequency := 8000.0,
    vibratoBaseDelay := 0.005,
    chorusDelayTime := 0.025,
    chorusLfoFrequency := 0.5,
    chorusLfoDepth := 0.002,
    backingEqFrequency := 300.0,
    ringCarrierFrequency := 30.0,
    ringModBaseGain := 0.0,
    pan := 0.0,
    compressor := Dynamics(-24.0, Some(30.0), 3.0, 0.01, 0.25),
    limiter := Dynamics(-1.0, None, 20.0, 0.001, 0.1))

  /** The impulse's decay exponent: impulse(ctx, rDecay, 2.0) */
  const ImpulseDecay: real := 2.0

  /** The settings that depend on the parameters. The ring-modulator gains
      and the vibrato oscillator are only used when their stage is wired. */
  datatype Settings = Settings(
    playbackRate: real,
    highpassFrequency: real,
    lowpassFrequency: real,
    deesserQ: real,
    deesserGain: real,
    shaperAmount: Option<real>,
    shaperOversample: Option<string>,
    bassGain: real,
    midGain: real,
    airGain: real,
    chorusGain: real,
    delayTime: real,
    delayFeedback: real,
    delayGain: real,
    reverbSeconds: real,
    reverbGain: real,
    masterGain: real,
    ringDryGain: real,
    ringWetGain: real,
    vibratoFrequency: real,
    vibratoGain: real)

  /** The node settings of renderAudioFromBuffer. */
  function NodeSettings(p: AudioProcessParams, m: MathLib): Settings
    requires m.Sound() && p.stretch > 0.0
  {
    Settings(
      playbackRate := PlaybackRate(p, m),
      highpassFrequency := 70.0 + 200.0 * p.denoise,
      lowpassFrequency := 19000.0 - 5000.0 * p.denoise,
      deesserQ := 1.0 + p.deess,
      deesserGain := -12.0 * p.deess,
      shaperAmount := if p.drive > 0.0 then Some(p.drive * 100.0) else None,
      shaperOversample := if p.drive > 0.0 then Some("4x") else None,
      bassGain := p.eqBass,
      midGain := p.eqMid,
      airGain := p.eqAir,
      chorusGain := p.backingVocals,
      delayTime := OrElse(p.delayTime, 0.3),
      delayFeedback := OrElse(p.delayFeedback, 0.3),
      delayGain := p.delay,
      reverbSeconds := OrElse(p.reverbDecay, 1.5),
      reverbGain := p.reverb,
      masterGain := m.pow(10.0, p.master / 20.0),
      ringDryGain := 1.0 - p.ringMod * 0.5,
      ringWetGain := p.ringMod,
      vibratoFrequency := OrElse(p.vibratoSpeed, 6.0),
      vibratoGain := p.vibratoDepth * 0.003)
  }

  /** `x || d`: a zero delay time, feedback or reverb decay is silently
      replaced by its default, any other value is kept as it is; in
      particular the feedback is not capped at 1. */
  lemma ZeroMeansDefault(p: AudioProcessParams, m: MathLib)
    requires m.Sound() && p.stretch > 0.0
    ensures var s := NodeSettings(p, m);
      && s.delayTime == (if p.delayTime == 0.0 then 0.3 else p.delayTime)
      && s.delayFeedback == (if p.delayFeedback == 0.0 then 0.3 else p.delayFeedback)
      && s.reverbSeconds == (if p.reverbDecay == 0.0 then 1.5 else p.reverbDecay)
      && s.vibratoFrequency == (if p.vibratoSpeed == 0.0 then 6.0 else p.vibratoSpeed)
  {
  }

  /** Over the denoise slider's range [0, 1] the highpass corner rises from
      70 to 270 Hz and the lowpass corner falls from 19 to 14 kHz, so the
      band never closes. */
  lemma FilterBand(p: AudioProcessParams, m: MathLib)
    requires m.Sound() && p.stretch > 0.0 && 0.0 <= p.denoise <= 1.0
    ensures var s := NodeSettings(p, m);
      && 70.0 <= s.highpassFrequency <= 270.0
      && 14000.0 <= s.lowpassFrequency <= 19000.0
      && s.highpassFrequency < s.lowpassFrequency
  {
  }

  /** A nonnegative de-ess amount widens the peak (Q at least 1) and cuts
      (gain at most 0 dB), 12 dB per unit. */
  lemma DeesserCuts(p: AudioProcessParams, m: MathLib)
    requires m.Sound() && p.stretch > 0.0 && p.deess >= 0.0
    ensures var s := NodeSettings(p, m);
      s.deesserQ >= 1.0 && s.deesserGain <= 0.0 && s.deesserGain == -12.0 * (s.deesserQ - 1.0)
  {
  }

  /** The master gain is 10^(master / 20): always positive, unity at 0 dB. */
  lemma MasterGainPositive(p: AudioProcessParams, m: MathLib)
    requires m.Sound() && p.stretch > 0.0
    ensures NodeSettings(p, m).masterGain > 0.0
    ensures p.master == 0.0 ==> NodeSettings(p, m).masterGain == 1.0
  {
  }

  /** With the ring modulator on (0 < ringMod <= 1) the dry path keeps
      between half and all of the signal and the wet path gets ringMod. */
  lemma RingModGains(p: AudioProcessParams, m: MathLib)
    requires m.Sound() && p.stretch > 0.0 && 0.0 < p.ringMod <= 1.0
    ensures var s := NodeSettings(p, m);
      0.5 <= s.ringDryGain < 1.0 && s.ringWetGain == p.ringMod
      && s.ringDryGain + s.ringWetGain / 2.0 == 1.0
  {
  }

  // ---- Routing graph ----

  /** The nodes renderAudioFromBuffer creates, and the destination, named
      by number: a node is told apart from another by its number alone. */
  type Node = n: nat | n < 31

  const Source: Node := 0
  const Highpass: Node := 1
  const Lowpass: Node := 2
  const Deesser: Node := 3
  const RingOsc: Node := 4
  const DryGain: Node := 5
  const RingModulator: Node := 6
  const MixNode: Node := 7
  const Merger: Node := 8
  const Shaper: Node := 9
  const Bass: Node := 10
  const Mid: Node := 11
  const Air: Node := 12
  const VibratoOsc: Node := 13
  const VibratoGain: Node := 14
  const VibratoDelay: Node := 15
  const ChorusOsc: Node := 16
  const ChorusOscGain: Node := 17
  const ChorusDelay: Node := 18
  const BackingEq: Node := 19
  const ChorusGain: Node := 20
  const DelayNode: Node := 21
  const Feedback: Node := 22
  const DelayGain: Node := 23
  const Convolver: Node := 24
  const ReverbGain: Node := 25
  const Compressor: Node := 26
  const Panner: Node := 27
  const MasterGain: Node := 28
  const Limiter: Node := 29
  const Destination: Node := 30

  /** What a connection feeds: a node's input, or one of its parameters. */
  datatype Target = Input(node: Node) | GainParam(node: Node) | DelayTimeParam(node: Node)

  /** `from.connect(to)` */
  datatype Edge = Edge(from: Node, to: Target)

  /** A connection touches a node when it leaves it or feeds it. */
  predicate Touches(e: Edge, n: Node)
  {
    e.from == n || e.to.node == n
  }

  /** A node is wired into a graph when some connection touches it. */
  predicate Wired(w: seq<Edge>, n: Node)
  {
    exists e :: e in w && Touches(e, n)
  }

  /** A node is wired into two joined lists of connections exactly when it
      is wired into one of them. */
  lemma WiredConcat(a: seq<Edge>, b: seq<Edge>, n: Node)
    ensures Wired(a + b, n) <==> Wired(a, n) || Wired(b, n)
  {
    if Wired(a + b, n) {
      var e :| e in a + b && Touches(e, n);
      assert e in a || e in b;
    }
    if Wired(a, n) {
      var e :| e in a && Touches(e, n);
      assert e in a + b;
    }
    if Wired(b, n) {
      var e :| e in b && Touches(e, n);
      assert e in a + b;
    }
  }

  /** Connections made while the nodes are created: the chorus LFO drives the
      chorus delay's time, and the echo delay feeds back into itself. */
  function ChorusLfoEdges(): seq<Edge>
  {
    [Edge(ChorusOsc, Input(ChorusOscGain)), Edge(ChorusOscGain, DelayTimeParam(ChorusDelay))]
  }

  function FeedbackEdges(): seq<Edge>
  {
    [Edge(DelayNode, Input(Feedback)), Edge(Feedback, Input(DelayNode))]
  }

  function FilterEdges(): seq<Edge>
  {
    [Edge(Source, Input(Highpass)), Edge(Highpass, Input(Lowpass)), Edge(Lowpass, Input(Deesser))]
  }

  /** The ring-modulator split after `last`: a dry path and a path through a
      gain whose gain the 30 Hz carrier modulates, merged again. */
  function RingModEdges(last: Node): seq<Edge>
  {
    [Edge(RingOsc, GainParam(RingModulator)), Edge(last, Input(DryGain)), Edge(last, Input(RingModulator)),
     Edge(RingModulator, Input(MixNode)), Edge(DryGain, Input(Merger)), Edge(MixNode, Input(Merger))]
  }

  function DriveEdges(last: Node): seq<Edge>
  {
    [Edge(last, Input(Shaper))]
  }

  function EqEdges(last: Node): seq<Edge>
  {
    [Edge(last, Input(Bass)), Edge(Bass, Input(Mid)), Edge(Mid, Input(Air))]
  }

  /** The vibrato LFO drives the vibrato delay's time; the EQ feeds the delay. */
  function VibratoEdges(): seq<Edge>
  {
    [Edge(VibratoOsc, Input(VibratoGain)), Edge(VibratoGain, DelayTimeParam(VibratoDelay)),
     Edge(Air, Input(VibratoDelay))]
  }

  function ChorusEdges(last: Node): seq<Edge>
  {
    [Edge(last, Input(ChorusDelay)), Edge(ChorusDelay, Input(BackingEq)),
     Edge(BackingEq, Input(ChorusGain)), Edge(ChorusGain, Input(Compressor))]
  }

  /** The dry signal and the two effect sends leave the end of the chain. */
  function SendEdges(last: Node): seq<Edge>
  {
    [Edge(last, Input(Compressor)), Edge(last, Input(DelayNode)), Edge(last, Input(Convolver))]
  }

  function ReturnEdges(): seq<Edge>
  {
    [Edge(DelayNode, Input(DelayGain)), Edge(DelayGain, Input(Compressor)),
     Edge(Convolver, Input(ReverbGain)), Edge(ReverbGain, Input(Compressor))]
  }

  function FinalEdges(): seq<Edge>
  {
    [Edge(Compressor, Input(Panner)), Edge(Panner, Input(MasterGain)),
     Edge(MasterGain, Input(Limiter)), Edge(Limiter, Input(Destination))]
  }

  /** Where the chain ends after the ring modulator, after the drive, and
      after the vibrato stage. */
  function AfterRingMod(p: AudioProcessParams): Node
  {
    if p.ringMod > 0.0 then Merger else Deesser
  }

  function AfterDrive(p: AudioProcessParams): Node
  {
    if p.drive > 0.0 then Shaper else AfterRingMod(p)
  }

  function SendPoint(p: AudioProcessParams): Node
  {
    if p.vibratoDepth > 0.0 then VibratoDelay else Air
  }

  /** The whole graph, stage by stage in the order the code connects them:
      each optional stage is spliced in after the node the chain has reached. */
  function Wiring(p: AudioProcessParams): seq<Edge>
  {
    ChorusLfoEdges() + FeedbackEdges() + FilterEdges()
    + (if p.ringMod > 0.0 then RingModEdges(Deesser) else [])
    + (if p.drive > 0.0 then DriveEdges(AfterRingMod(p)) else [])
    + EqEdges(AfterDrive(p))
    + (if p.vibratoDepth > 0.0 then VibratoEdges() else [])
    + (if p.backingVocals > 0.0 then ChorusEdges(SendPoint(p)) else [])
    + SendEdges(SendPoint(p)) + ReturnEdges() + FinalEdges()
  }

  /** The oscillators and the source, in the order they are started. The
      chorus LFO is connected in every graph but started only when backing
      vocals are on. */
  function Started(p: AudioProcessParams): seq<Node>
  {
    (if p.backingVocals > 0.0 then [ChorusOsc] else [])
    + (if p.ringMod > 0.0 then [RingOsc] else [])
    + (if p.vibratoDepth > 0.0 then [VibratoOsc] else [])
    + [Source]
  }

  /** The routing walk of renderAudioFromBuffer: `currentLastNode` starts at
      the de-esser and moves past each stage that is wired. */
  method Route(p: AudioProcessParams) returns (edges: seq<Edge>, started: seq<Node>)
    ensures edges == Wiring(p)
    ensures started == Started(p)
  {
    edges := ChorusLfoEdges();
    started := [];
    if p.backingVocals > 0.0 {
      started := started + [ChorusOsc];
    }
    edges := edges + FeedbackEdges();
    edges := edges + FilterEdges();
    var currentLastNode := Deesser;
    if p.ringMod > 0.0 {
      edges := edges + RingModEdges(currentLastNode);
      started := started + [RingOsc];
      currentLastNode := Merger;
    }
    assert edges == ChorusLfoEdges() + FeedbackEdges() + FilterEdges()
      + (if p.ringMod > 0.0 then RingModEdges(Deesser) else []);
    if p.drive > 0.0 {
      edges := edges + DriveEdges(currentLastNode);
      currentLastNode := Shaper;
    }
    ghost var front := edges;
    assert front == ChorusLfoEdges() + FeedbackEdges() + FilterEdges()
      + (if p.ringMod > 0.0 then RingModEdges(Deesser) else [])
      + (if p.drive > 0.0 then DriveEdges(AfterRingMod(p)) else []);
    assert currentLastNode == AfterDrive(p);
    edges := edges + EqEdges(currentLastNode);
    if p.vibratoDepth > 0.0 {
      edges := edges + VibratoEdges();
      started := started + [VibratoOsc];
      currentLastNode := VibratoDelay;
    } else {
      currentLastNode := Air;
    }
    assert edges == front + EqEdges(AfterDrive(p)) + (if p.vibratoDepth > 0.0 then VibratoEdges() else []);
    if p.backingVocals > 0.0 {
      edges := edges + ChorusEdges(currentLastNode);
    }
    assert edges == front + EqEdges(AfterDrive(p)) + (if p.vibratoDepth > 0.0 then VibratoEdges() else [])
      + (if p.backingVocals > 0.0 then ChorusEdges(SendPoint(p)) else []);
    edges := edges + SendEdges(currentLastNode);
    edges := edges + ReturnEdges();
    edges := edges + FinalEdges();
    started := started + [Source];
  }

  /** The main signal path: every stage in a fixed order, the optional ones
      (the ring modulator's dry path, the shaper, the vibrato delay) present
      only when wired. */
  function Trunk(p: AudioProcessParams): seq<Node>
  {
    [Source, Highpass, Lowpass, Deesser]
    + (if p.ringMod > 0.0 then [DryGain, Merger] else [])
    + (if p.drive > 0.0 then [Shaper] else [])
    + [Bass, Mid, Air]
    + (if p.vibratoDepth > 0.0 then [VibratoDelay] else [])
    + [Compressor, Panner, MasterGain, Limiter, Destination]
  }

  /** A path: each node of the list feeds the next. */
  predicate IsPath(w: seq<Edge>, nodes: seq<Node>)
  {
    forall i :: 0 <= i < |nodes| - 1 ==> Edge(nodes[i], Input(nodes[i + 1])) in w
  }

  /** Two paths joined by a connection from the first one's end to the
      second one's start form a path. */
  lemma PathJoin(w: seq<Edge>, a: seq<Node>, b: seq<Node>)
    requires IsPath(w, a) && IsPath(w, b) && a != [] && b != []
    requires Edge(a[|a| - 1], Input(b[0])) in w
    ensures IsPath(w, a + b)
  {
    var ab := a + b;
    forall i | 0 <= i < |ab| - 1
      ensures Edge(ab[i], Input(ab[i + 1])) in w
    {
      if i < |a| - 1 {
        assert ab[i] == a[i] && ab[i + 1] == a[i + 1];
      } else if i == |a| - 1 {
        assert ab[i] == a[i] && ab[i + 1] == b[0];
      } else {
        assert ab[i] == b[i - |a|] && ab[i + 1] == b[i - |a| + 1];
      }
    }
  }

  /** The first part of the trunk, up to the EQ's input. */
  function FrontTrunk(p: AudioProcessParams): seq<Node>
  {
    [Source, Highpass, Lowpass, Deesser]
    + (if p.ringMod > 0.0 then [DryGain, Merger] else [])
    + (if p.drive > 0.0 then [Shaper] else [])
  }

  /** The rest, from the EQ to the destination. */
  function BackTrunk(p: AudioProcessParams): seq<Node>
  {
    [Bass, Mid, Air]
    + (if p.vibratoDepth > 0.0 then [VibratoDelay] else [])
    + [Compressor, Panner, MasterGain, Limiter, Destination]
  }

  lemma FiltersArePath(p: AudioProcessParams)
    ensures IsPath(Wiring(p), [Source, Highpass, Lowpass, Deesser])
  {
    assert Edge(Source, Input(Highpass)) in FilterEdges();
    assert Edge(Highpass, Input(Lowpass)) in FilterEdges();
    assert Edge(Lowpass, Input(Deesser)) in FilterEdges();
  }

  lemma DynamicsArePath(p: AudioProcessParams)
    ensures IsPath(Wiring(p), [Compressor, Panner, MasterGain, Limiter, Destination])
  {
    assert Edge(Compressor, Input(Panner)) in FinalEdges();
    assert Edge(Panner, Input(MasterGain)) in FinalEdges();
    assert Edge(MasterGain, Input(Limiter)) in FinalEdges();
    assert Edge(Limiter, Input(Destination)) in FinalEdges();
  }

  lemma FrontTrunkIsPath(p: AudioProcessParams)
    ensures FrontTrunk(p) != [] && FrontTrunk(p)[|FrontTrunk(p)| - 1] == AfterDrive(p)
    ensures IsPath(Wiring(p), FrontTrunk(p))
  {
    var w := Wiring(p);
    var f := [Source, Highpass, Lowpass, Deesser];
    FiltersArePath(p);
    if p.ringMod > 0.0 {
      assert Edge(Deesser, Input(DryGain)) in w && Edge(DryGain, Input(Merger)) in w;
      PathJoin(w, f, [DryGain, Merger]);
      f := f + [DryGain, Merger];
    }
    if p.drive > 0.0 {
      assert Edge(AfterRingMod(p), Input(Shaper)) in w;
      PathJoin(w, f, [Shaper]);
      f := f + [Shaper];
    }
    assert f == FrontTrunk(p);
  }

  lemma BackTrunkIsPath(p: AudioProcessParams)
    ensures BackTrunk(p) != [] && BackTrunk(p)[0] == Bass
    ensures IsPath(Wiring(p), BackTrunk(p))
  {
    var w := Wiring(p);
    var f := [Bass, Mid, Air];
    assert IsPath(w, f) by {
      assert Edge(Bass, Input(Mid)) in EqEdges(AfterDrive(p));
      assert Edge(Mid, Input(Air)) in EqEdges(AfterDrive(p));
    }
    if p.vibratoDepth > 0.0 {
      assert Edge(Air, Input(VibratoDelay)) in w;
      PathJoin(w, f, [VibratoDelay]);
      f := f + [VibratoDelay];
    }
    var g := [Compressor, Panner, MasterGain, Limiter, Destination];
    DynamicsArePath(p);
    assert Edge(SendPoint(p), Input(Compressor)) in SendEdges(SendPoint(p));
    PathJoin(w, f, g);
    assert f + g == BackTrunk(p);
  }

  /** The trunk is a path of the graph: filters, ring modulator, drive, EQ,
      vibrato, compressor, panner, master gain and limiter always follow one
      another in this order, whatever is switched on. */
  lemma TrunkIsPath(p: AudioProcessParams)
    ensures IsPath(Wiring(p), Trunk(p))
  {
    FrontTrunkIsPath(p);
    BackTrunkIsPath(p);
    assert Edge(AfterDrive(p), Input(Bass)) in EqEdges(AfterDrive(p));
    PathJoin(Wiring(p), FrontTrunk(p), BackTrunk(p));
    assert FrontTrunk(p) + BackTrunk(p) == Trunk(p);
  }

  /** The switch each optional node hangs on: the parameter that must be
      positive for it to be wired. */
  function GateOf(n: Node): Option<Field>
  {
    if n == RingOsc || n == DryGain || n == RingModulator || n == MixNode || n == Merger then Some(RingMod)
    else if n == Shaper then Some(Drive)
    else if n == VibratoOsc || n == VibratoGain || n == VibratoDelay then Some(VibratoDepth)
    else if n == BackingEq || n == ChorusGain then Some(BackingVocals)
    else None
  }

  predicate Gated(p: AudioProcessParams, n: Node)
  {
    GateOf(n).None? || Get(p, GateOf(n).value) > 0.0
  }

  // The nodes each stage touches.

  lemma ChorusLfoNodes(n: Node)
    ensures Wired(ChorusLfoEdges(), n) <==> n == ChorusOsc || n == ChorusOscGain || n == ChorusDelay
  {
    var s := ChorusLfoEdges();
    if n == ChorusOsc { assert Touches(s[0], n); }
    if n == ChorusOscGain || n == ChorusDelay { assert Touches(s[1], n); }
  }

  lemma FeedbackNodes(n: Node)
    ensures Wired(FeedbackEdges(), n) <==> n == DelayNode || n == Feedback
  {
    var s := FeedbackEdges();
    if n == DelayNode || n == Feedback { assert Touches(s[0], n); }
  }

  lemma FilterNodes(n: Node)
    ensures Wired(FilterEdges(), n) <==> n == Source || n == Highpass || n == Lowpass || n == Deesser
  {
    var s := FilterEdges();
    if n == Source || n == Highpass { assert Touches(s[0], n); }
    if n == Lowpass || n == Deesser { assert Touches(s[2], n); }
  }

  lemma RingModNodes(last: Node, n: Node)
    ensures Wired(RingModEdges(last), n) <==>
      n == RingOsc || n == RingModulator || n == last || n == DryGain || n == MixNode || n == Merger
  {
    var s := RingModEdges(last);
    if n == RingOsc || n == RingModulator { assert Touches(s[0], n); }
    if n == last || n == DryGain { assert Touches(s[1], n); }
    if n == MixNode || n == Merger { assert Touches(s[5], n); }
  }

  lemma DriveNodes(last: Node, n: Node)
    ensures Wired(DriveEdges(last), n) <==> n == last || n == Shaper
  {
    var s := DriveEdges(last);
    if n == last || n == Shaper { assert Touches(s[0], n); }
  }

  lemma EqNodes(last: Node, n: Node)
    ensures Wired(EqEdges(last), n) <==> n == last || n == Bass || n == Mid || n == Air
  {
    var s := EqEdges(last);
    if n == last || n == Bass { assert Touches(s[0], n); }
    if n == Mid || n == Air { assert Touches(s[2], n); }
  }

  lemma VibratoNodes(n: Node)
    ensures Wired(VibratoEdges(), n) <==> n == VibratoOsc || n == VibratoGain || n == VibratoDelay || n == Air
  {
    var s := VibratoEdges();
    if n == VibratoOsc || n == VibratoGain { assert Touches(s[0], n); }
    if n == VibratoDelay || n == Air { assert Touches(s[2], n); }
  }

  lemma ChorusNodes(last: Node, n: Node)
    ensures Wired(ChorusEdges(last), n) <==>
      n == last || n == ChorusDelay || n == BackingEq || n == ChorusGain || n == Compressor
  {
    var s := ChorusEdges(last);
    if n == last || n == ChorusDelay { assert Touches(s[0], n); }
    if n == BackingEq { assert Touches(s[1], n); }
    if n == ChorusGain || n == Compressor { assert Touches(s[3], n); }
  }

  lemma SendNodes(last: Node, n: Node)
    ensures Wired(SendEdges(last), n) <==> n == last || n == Compressor || n == DelayNode || n == Convolver
  {
    var s := SendEdges(last);
    if n == last || n == Compressor { assert Touches(s[0], n); }
    if n == DelayNode { assert Touches(s[1], n); }
    if n == Convolver { assert Touches(s[2], n); }
  }

  lemma ReturnNodes(n: Node)
    ensures Wired(ReturnEdges(), n) <==>
      n == DelayNode || n == DelayGain || n == Compressor || n == Convolver || n == ReverbGain
  {
    var s := ReturnEdges();
    if n == DelayNode || n == DelayGain { assert Touches(s[0], n); }
    if n == Compressor || n == Convolver || n == ReverbGain { assert Touches(s[3], n) || Touches(s[2], n); }
  }

  lemma FinalNodes(n: Node)
    ensures Wired(FinalEdges(), n) <==>
      n == Compressor || n == Panner || n == MasterGain || n == Limiter || n == Destination
  {
    var s := FinalEdges();
    if n == Compressor || n == Panner { assert Touches(s[0], n); }
    if n == MasterGain { assert Touches(s[1], n); }
    if n == Limiter || n == Destination { assert Touches(s[3], n); }
  }

  /** A node is wired into the graph exactly when it is wired into one of
      the stages that are switched on. */
  lemma WiringStages(p: AudioProcessParams, n: Node)
    ensures Wired(Wiring(p), n) <==>
      || Wired(ChorusLfoEdges(), n) || Wired(FeedbackEdges(), n) || Wired(FilterEdges(), n)
      || (p.ringMod > 0.0 && Wired(RingModEdges(Deesser), n))
      || (p.drive > 0.0 && Wired(DriveEdges(AfterRingMod(p)), n))
      || Wired(EqEdges(AfterDrive(p)), n)
      || (p.vibratoDepth > 0.0 && Wired(VibratoEdges(), n))
      || (p.backingVocals > 0.0 && Wired(ChorusEdges(SendPoint(p)), n))
      || Wired(SendEdges(SendPoint(p)), n) || Wired(ReturnEdges(), n) || Wired(FinalEdges(), n)
  {
    var s1 := ChorusLfoEdges();
    var s2 := FeedbackEdges();
    var s3 := FilterEdges();
    var s4 := if p.ringMod > 0.0 then RingModEdges(Deesser) else [];
    var s5 := if p.drive > 0.0 then DriveEdges(AfterRingMod(p)) else [];
    var s6 := EqEdges(AfterDrive(p));
    var s7 := if p.vibratoDepth > 0.0 then VibratoEdges() else [];
    var s8 := if p.backingVocals > 0.0 then ChorusEdges(SendPoint(p)) else [];
    var s9 := SendEdges(SendPoint(p));
    var s10 := ReturnEdges();
    var s11 := FinalEdges();
    assert !Wired([], n);
    WiredConcat(s1, s2, n);
    WiredConcat(s1 + s2, s3, n);
    WiredConcat(s1 + s2 + s3, s4, n);
    WiredConcat(s1 + s2 + s3 + s4, s5, n);
    WiredConcat(s1 + s2 + s3 + s4 + s5, s6, n);
    WiredConcat(s1 + s2 + s3 + s4 + s5 + s6, s7, n);
    WiredConcat(s1 + s2 + s3 + s4 + s5 + s6 + s7, s8, n);
    WiredConcat(s1 + s2 + s3 + s4 + s5 + s6 + s7 + s8, s9, n);
    WiredConcat(s1 + s2 + s3 + s4 + s5 + s6 + s7 + s8 + s9, s10, n);
    WiredConcat(s1 + s2 + s3 + s4 + s5 + s6 + s7 + s8 + s9 + s10, s11, n);
  }

  /** Exactly the nodes whose switch is on are wired: the ring modulator,
      waveshaper, vibrato and backing-vocal stages each appear precisely
      when their amount is positive, and every other node, the delay and
      reverb sends included, is wired in every graph. */
  lemma WiredIff(p: AudioProcessParams, n: Node)
    ensures Wired(Wiring(p), n) <==> Gated(p, n)
  {
    StageNodes(p, n);
    if GateOf(n).None? {
      assert Gated(p, n);
    } else {
      assert Gated(p, n) <==> Get(p, GateOf(n).value) > 0.0;
    }
  }

  /** Every stage lemma at once, for one node. */
  lemma StageNodes(p: AudioProcessParams, n: Node)
    ensures Wired(Wiring(p), n) <==>
      || n == ChorusOsc || n == ChorusOscGain || n == ChorusDelay || n == DelayNode || n == Feedback
      || n == Source || n == Highpass || n == Lowpass || n == Deesser
      || (p.ringMod > 0.0 && (n == RingOsc || n == RingModulator || n == DryGain || n == MixNode || n == Merger))
      || (p.drive > 0.0 && n == Shaper)
      || n == Bass || n == Mid || n == Air
      || (p.vibratoDepth > 0.0 && (n == VibratoOsc || n == VibratoGain || n == VibratoDelay))
      || (p.backingVocals > 0.0 && (n == BackingEq || n == ChorusGain))
      || n == Compressor || n == Convolver || n == DelayGain || n == ReverbGain
      || n == Panner || n == MasterGain || n == Limiter || n == Destination
  {
    WiringStages(p, n);
    ChorusLfoNodes(n);
    FeedbackNodes(n);
    FilterNodes(n);
    RingModNodes(Deesser, n);
    DriveNodes(AfterRingMod(p), n);
    EqNodes(AfterDrive(p), n);
    VibratoNodes(n);
    ChorusNodes(SendPoint(p), n);
    SendNodes(SendPoint(p), n);
    ReturnNodes(n);
    FinalNodes(n);
  }

  /** The delay and reverb sends and returns are wired in every graph, even
      when their mix amounts are 0. */
  lemma SendsAlwaysWired(p: AudioProcessParams)
    ensures var w, last := Wiring(p), SendPoint(p);
      && Edge(last, Input(DelayNode)) in w && Edge(DelayNode, Input(DelayGain)) in w
      && Edge(DelayGain, Input(Compressor)) in w
      && Edge(last, Input(Convolver)) in w && Edge(Convolver, Input(ReverbGain)) in w
      && Edge(ReverbGain, Input(Compressor)) in w
  {
  }

  /** masterReverb and stereo are read nowhere: changing them changes no
      setting, no connection and no length. */
  lemma UnusedFields(p: AudioProcessParams, m: MathLib, duration: real, v: real, w: real)
    requires m.Sound() && p.stretch > 0.0
    ensures var q := p.(masterReverb := v, stereo := w);
      && NodeSettings(q, m) == NodeSettings(p, m)
      && Wiring(q) == Wiring(p) && Started(q) == Started(p)
      && OutputFrames(duration, q, m) == OutputFrames(duration, p, m)
  {
  }

  /** The waveshaper is oversampled 4x exactly when it is wired into the
      graph, and then it also has its curve amount. */
  lemma ShaperOversampled(p: AudioProcessParams, m: MathLib)
    requires m.Sound() && p.stretch > 0.0
    ensures var s := NodeSettings(p, m);
      && (s.shaperOversample.Some? <==> Wired(Wiring(p), Shaper))
      && (s.shaperOversample.Some? ==> s.shaperOversample.value == "4x" && s.shaperAmount.Some?)
  {
    WiredIff(p, Shaper);
  }

  /** The types of the biquad filters met along a list of nodes, in order. */
  function FilterTypesAlong(nodes: seq<Node>): seq<string>
  {
    if nodes == [] then []
    else (if nodes[0] in Fixed.filterTypes then [Fixed.filterTypes[nodes[0]]] else [])
         + FilterTypesAlong(nodes[1..])
  }

  lemma {:induction false} FilterTypesConcat(a: seq<Node>, b: seq<Node>)
    ensures FilterTypesAlong(a + b) == FilterTypesAlong(a) + FilterTypesAlong(b)
  {
    if a == [] {
      assert a + b == b;
    } else {
      assert (a + b)[0] == a[0] && (a + b)[1..] == a[1..] + b;
      FilterTypesConcat(a[1..], b);
    }
  }

  /** A list of nodes none of which is a biquad filter meets no filter type. */
  lemma {:induction false} NoFilterTypes(nodes: seq<Node>)
    requires forall i :: 0 <= i < |nodes| ==> nodes[i] !in Fixed.filterTypes
    ensures FilterTypesAlong(nodes) == []
  {
    if nodes != [] {
      NoFilterTypes(nodes[1..]);
    }
  }

  /** Up to the EQ the signal meets highpass, lowpass, then the de-esser's peak. */
  lemma FrontTrunkTypes(p: AudioProcessParams)
    ensures FilterTypesAlong(FrontTrunk(p)) == ["highpass", "lowpass", "peaking"]
  {
    var ring: seq<Node> := if p.ringMod > 0.0 then [DryGain, Merger] else [];
    var drive: seq<Node> := if p.drive > 0.0 then [Shaper] else [];
    assert FilterTypesAlong([Deesser]) == ["peaking"];
    assert FilterTypesAlong([Lowpass, Deesser]) == ["lowpass", "peaking"] by {
      assert [Lowpass, Deesser][1..] == [Deesser];
    }
    assert FilterTypesAlong([Highpass, Lowpass, Deesser]) == ["highpass", "lowpass", "peaking"] by {
      assert [Highpass, Lowpass, Deesser][1..] == [Lowpass, Deesser];
    }
    assert FilterTypesAlong([Source, Highpass, Lowpass, Deesser]) == ["highpass", "lowpass", "peaking"] by {
      assert [Source, Highpass, Lowpass, Deesser][1..] == [Highpass, Lowpass, Deesser];
    }
    NoFilterTypes(ring);
    NoFilterTypes(drive);
    FilterTypesConcat([Source, Highpass, Lowpass, Deesser], ring);
    FilterTypesConcat([Source, Highpass, Lowpass, Deesser] + ring, drive);
  }

  /** From the EQ on it meets the lowshelf, peak and highshelf, and no more. */
  lemma BackTrunkTypes(p: AudioProcessParams)
    ensures FilterTypesAlong(BackTrunk(p)) == ["lowshelf", "peaking", "highshelf"]
  {
    var vibrato: seq<Node> := if p.vibratoDepth > 0.0 then [VibratoDelay] else [];
    var dynamics: seq<Node> := [Compressor, Panner, MasterGain, Limiter, Destination];
    assert FilterTypesAlong([Air]) == ["highshelf"];
    assert FilterTypesAlong([Mid, Air]) == ["peaking", "highshelf"] by {
      assert [Mid, Air][1..] == [Air];
    }
    assert FilterTypesAlong([Bass, Mid, Air]) == ["lowshelf", "peaking", "highshelf"] by {
      assert [Bass, Mid, Air][1..] == [Mid, Air];
    }
    NoFilterTypes(vibrato);
    NoFilterTypes(dynamics);
    FilterTypesConcat([Bass, Mid, Air], vibrato);
    FilterTypesConcat([Bass, Mid, Air] + vibrato, dynamics);
  }

  /** Whatever is switched on, the signal meets the same filters in the
      same order: highpass, lowpass and the de-esser's peak, then the
      lowshelf, peak and highshelf of the EQ. */
  lemma TrunkFilterTypes(p: AudioProcessParams)
    ensures FilterTypesAlong(Trunk(p)) == ["highpass", "lowpass", "peaking", "lowshelf", "peaking", "highshelf"]
  {
    FrontTrunkTypes(p);
    BackTrunkTypes(p);
    assert Trunk(p) == FrontTrunk(p) + BackTrunk(p);
    FilterTypesConcat(FrontTrunk(p), BackTrunk(p));
  }

  /** No stage before the EQ but the ring modulator's connects into the
      ring modulator's gain. */
  lemma FrontStagesSpareRingGain(last: Node, e: Edge)
    requires e.to == GainParam(RingModulator)
    ensures e !in ChorusLfoEdges() && e !in FeedbackEdges() && e !in FilterEdges() && e !in DriveEdges(last)
  {
  }

  /** Nor does any stage from the EQ on. */
  lemma BackStagesSpareRingGain(last: Node, e: Edge)
    requires e.to == GainParam(RingModulator)
    ensures && e !in EqEdges(last) && e !in VibratoEdges() && e !in ChorusEdges(last)
            && e !in SendEdges(last) && e !in ReturnEdges() && e !in FinalEdges()
  {
  }

  /** Only the carrier feeds the ring modulator's gain. */
  lemma RingGainFeeder(p: AudioProcessParams, e: Edge)
    requires e in Wiring(p) && e.to == GainParam(RingModulator)
    ensures e.from == RingOsc
  {
    FrontStagesSpareRingGain(AfterRingMod(p), e);
    BackStagesSpareRingGain(AfterDrive(p), e);
    BackStagesSpareRingGain(SendPoint(p), e);
    assert e in RingModEdges(Deesser);
  }

  /** The ring modulator's gain is its carrier alone: the base gain is 0,
      the only connection into that gain is from the 30 Hz sine
      oscillator, and it is made whenever the stage is on. */
  lemma RingModCarrierOnly(p: AudioProcessParams)
    ensures Fixed.ringModBaseGain == 0.0
    ensures RingOsc in Fixed.sineOscillators && Fixed.ringCarrierFrequency == 30.0
    ensures p.ringMod > 0.0 ==> Edge(RingOsc, GainParam(RingModulator)) in Wiring(p)
    ensures forall e :: e in Wiring(p) && e.to == GainParam(RingModulator) ==> e.from == RingOsc
  {
    forall e | e in Wiring(p) && e.to == GainParam(RingModulator)
      ensures e.from == RingOsc
    {
      RingGainFeeder(p, e);
    }
    if p.ringMod > 0.0 {
      assert Edge(RingOsc, GainParam(RingModulator)) in RingModEdges(Deesser);
    }
  }

  /** The limiter after the master gain only catches what the compressor
      lets through: its threshold is higher, its ratio steeper, and it
      attacks and releases faster. */
  lemma LimiterAfterCompressor()
    ensures var c, l := Fixed.compressor, Fixed.limiter;
      && c.threshold < l.threshold && c.ratio < l.ratio
      && l.attack < c.attack && l.release < c.release
  {
  }

  // ---- The render ----

  /** What the render sets up before the browser renders: the context's
      shape, every node's settings (those that depend on the parameters
      and the fixed ones), the waveshaper table when drive is on,
      the reverb impulse, and the graph. */
  datatype RenderPlan = RenderPlan(
    channels: nat,
    frames: int,
    sampleRate: nat,
    settings: Settings,
    fixed: FixedSettings,
    shaperCurve: Option<seq<real>>,
    impulse: AudioBuffer,
    edges: seq<Edge>,
    started: seq<Node>)

  /** The reverb impulse's length in frames before truncation: the sample
      rate times `reverbDecay || 1.5` seconds. */
  function ImpulseLength(p: AudioProcessParams): real
  {
    RenderRate as real * OrElse(p.reverbDecay, 1.5)
  }

  /** The waveshaper table: present exactly when drive is on, and then
      makeDistortionCurve(drive * 100). */
  ghost predicate ShaperCurveFor(p: AudioProcessParams, m: MathLib, c: Option<seq<real>>)
    requires m.Sound()
  {
    && (c.Some? <==> p.drive > 0.0)
    && (c.Some? ==>
         && |c.value| == Curves.CurveSamples
         && forall i :: 0 <= i < Curves.CurveSamples ==>
              c.value[i] == Curves.Shape(p.drive * 100.0, m.pi, Curves.CurveInput(i)))
  }

  /** The convolver's buffer: impulse(ctx, rDecay, 2.0) at 48 kHz. */
  ghost predicate ReverbImpulseFor(p: AudioProcessParams, m: MathLib, noise: seq<seq<real>>, imp: AudioBuffer)
    requires p.reverbDecay >= 0.0
  {
    var length := ImpulseLength(p);
    var frames := Curves.ImpulseFrames(length);
    && imp.sampleRate == RenderRate && |imp.channels| == 2
    && (forall c :: 0 <= c < 2 ==> |imp.channels[c]| == frames)
    && |noise| == 2 && (forall c :: 0 <= c < 2 ==> |noise[c]| >= frames)
    && (forall c, i :: 0 <= c < 2 && 0 <= i < frames ==>
          imp.channels[c][i] == Curves.ImpulseSample(noise[c][i], Curves.Envelope(i, length, ImpulseDecay, m)))
  }

  /** Everything the render sets up, as renderAudioFromBuffer sets it up. */
  ghost predicate PlanFor(input: AudioBuffer, p: AudioProcessParams, m: MathLib, noise: seq<seq<real>>, r: RenderPlan)
    requires input.WellFormed() && m.Sound() && p.stretch > 0.0 && p.reverbDecay >= 0.0
  {
    && r.channels == 2 && r.sampleRate == RenderRate
    && r.frames == OutputFrames(input.Duration(), p, m)
    && r.settings == NodeSettings(p, m) && r.fixed == Fixed
    && r.edges == Wiring(p) && r.started == Started(p)
    && ShaperCurveFor(p, m, r.shaperCurve)
    && ReverbImpulseFor(p, m, noise, r.impulse)
  }

  /** `if (params.drive > 0) shaper.curve = makeDistortionCurve(params.drive * 100)` */
  method ShaperCurve(p: AudioProcessParams, m: MathLib) returns (c: Option<seq<real>>)
    requires m.Sound()
    ensures ShaperCurveFor(p, m, c)
  {
    c := None;
    if p.drive > 0.0 {
      var curve := Curves.MakeDistortionCurve(Some(p.drive * 100.0), m);
      c := Some(curve[..]);
    }
  }

  /** `convolver.buffer = impulse(offlineCtx, rDecay, 2.0)`: fails when the
      impulse would be shorter than one frame. */
  method ReverbImpulse(p: AudioProcessParams, m: MathLib, noise: seq<seq<real>>) returns (imp: Option<AudioBuffer>)
    requires p.reverbDecay >= 0.0
    requires |noise| == 2 && forall c :: 0 <= c < 2 ==> |noise[c]| >= Curves.ImpulseFrames(ImpulseLength(p))
    ensures imp.Some? <==> Curves.ImpulseFrames(ImpulseLength(p)) > 0
    ensures imp.Some? ==> ReverbImpulseFor(p, m, noise, imp.value)
  {
    var rDecay := OrElse(p.reverbDecay, 1.5);
    imp := Curves.Impulse(RenderRate, rDecay, ImpulseDecay, noise, m);
  }

  /** renderAudioFromBuffer. The rendering itself is done by the browser:
      its result is the parameter `rendered`, and noise holds the values
      Math.random returns while the impulse is filled. The progress reports
      are returned in order. The browser renders what the offline context
      was built for: two channels at 48 kHz of the planned length. An
      impulse shorter than one frame makes
      createBuffer throw: the render then fails after its first report. */
  method RenderAudioFromBuffer(input: AudioBuffer, p: AudioProcessParams, m: MathLib,
                               noise: seq<seq<real>>, rendered: AudioBuffer)
    returns (plan: Option<RenderPlan>, blob: Option<seq<byte>>, progress: seq<nat>)
    requires input.WellFormed() && rendered.WellFormed()
    requires m.Sound() && p.stretch > 0.0 && p.reverbDecay >= 0.0
    requires |noise| == 2 && forall c :: 0 <= c < 2 ==> |noise[c]| >= Curves.ImpulseFrames(ImpulseLength(p))
    requires rendered.NumberOfChannels() == 2 && rendered.sampleRate == RenderRate
    requires rendered.Length() == OutputFrames(input.Duration(), p, m)
    ensures plan.Some? <==> Curves.ImpulseFrames(ImpulseLength(p)) > 0
    ensures blob.Some? <==> plan.Some?
    ensures plan.None? ==> progress == [10]
    ensures plan.Some? ==> progress == [10, 50, 90] && PlanFor(input, p, m, noise, plan.value)
    ensures blob.Some? ==> blob.value == Wav.WavFile(rendered)
    ensures blob.Some? ==> Wav.StereoPcm16(blob.value, RenderRate, rendered.Length())
  {
    progress := [10];
    var settings := NodeSettings(p, m);
    var frames := OutputFrames(input.Duration(), p, m);
    var shaperCurve := ShaperCurve(p, m);
    var impulse := ReverbImpulse(p, m, noise);
    if impulse.None? {
      return None, None, progress;
    }
    var edges, started := Route(p);
    progress := progress + [50];
    progress := progress + [90];
    var wav := Wav.BufferToWav(rendered);
    plan := Some(RenderPlan(2, frames, RenderRate, settings, Fixed, shaperCurve, impulse.value, edges, started));
    blob := Some(wav);
  }
}
