/** The enhancer view's parameter editor: the current parameters, the undo
    history with its index, the saved presets, and the rules that change
    them (commit, undo, redo, reset, presets, auto-enhance). Also the
    10-second preview slice and the download of the processed file. React's
    state setters are taken as synchronous updates. */
module Enhancer {
  import opened Numbers
  import opened Params
  import opened Pcm
  import Analyzer
  import Knobs

  /** INITIAL_PARAMS */
  const InitialParams: AudioProcessParams := AudioProcessParams(
    pitch := 0.0, stretch := 1.0, denoise := 0.1, deess := 0.2, reverb := 0.1,
    reverbDecay := 1.5, masterReverb := 1.0, stereo := 0.1, drive := 0.0, shift := 0.0,
    delay := 0.0, delayTime := 0.3, delayFeedback := 0.3, eqBass := 0.0, eqMid := 0.0,
    eqAir := 0.0, master := 0.0, vibratoDepth := 0.0, vibratoSpeed := 0.0, ringMod := 0.0,
    backingVocals := 0.0)

  // ---- The editor state and its transitions, as values ----

  /** The state the view keeps: params, history, historyIndex, savedPresets. */
  datatype EditorState = EditorState(
    params: AudioProcessParams,
    history: seq<AudioProcessParams>,
    historyIndex: nat,
    presets: seq<Preset>)
  {
    /** The history is never empty and its index always names an entry. */
    predicate Valid()
    {
      |history| > 0 && historyIndex < |history|
    }

    /** The parameters shown are the history entry the index names. */
    predicate Synced()
      requires Valid()
    {
      params == history[historyIndex]
    }
  }

  /** The state on mount (presets read from storage are not modelled). */
  function Start(): (s: EditorState)
    ensures s.Valid() && s.Synced() && s.historyIndex == 0
  {
    EditorState(InitialParams, [InitialParams], 0, [])
  }

  /** addToHistory: the entries up to the index are kept, the new one is
      appended, and the index moves to it; anything that could be redone is
      dropped. */
  function Committed(s: EditorState, p: AudioProcessParams): (t: EditorState)
    requires s.Valid()
    ensures t.Valid() && t.historyIndex == s.historyIndex + 1 == |t.history| - 1
    ensures t.history[t.historyIndex] == p
    ensures forall j :: 0 <= j <= s.historyIndex ==> t.history[j] == s.history[j]
    ensures t.params == s.params && t.presets == s.presets
  {
    var h := s.history[..s.historyIndex + 1] + [p];
    s.(history := h, historyIndex := |h| - 1)
  }

  /** updateParam: the keyed update, committed only when asked. */
  function Updated(s: EditorState, key: Field, value: real, commit: bool): (t: EditorState)
    requires s.Valid()
    ensures t.Valid()
  {
    var np := With(s.params, key, value);
    if commit then Committed(s.(params := np), np) else s.(params := np)
  }

  /** handleUndo */
  function Undone(s: EditorState): (t: EditorState)
    requires s.Valid()
    ensures t.Valid() && t.history == s.history && t.presets == s.presets
    ensures s.historyIndex == 0 ==> t == s
    ensures s.historyIndex > 0 ==>
      t.historyIndex == s.historyIndex - 1 && t.params == s.history[t.historyIndex]
  {
    if s.historyIndex > 0 then
      s.(historyIndex := s.historyIndex - 1, params := s.history[s.historyIndex - 1])
    else s
  }

  /** handleRedo */
  function Redone(s: EditorState): (t: EditorState)
    requires s.Valid()
    ensures t.Valid() && t.history == s.history && t.presets == s.presets
    ensures s.historyIndex == |s.history| - 1 ==> t == s
    ensures s.historyIndex < |s.history| - 1 ==>
      t.historyIndex == s.historyIndex + 1 && t.params == s.history[t.historyIndex]
  {
    if s.historyIndex < |s.history| - 1 then
      s.(historyIndex := s.historyIndex + 1, params := s.history[s.historyIndex + 1])
    else s
  }

  /** Setting params and committing them, the shared tail of reset, load
      preset, apply preset and auto-enhance. */
  function SetAndCommit(s: EditorState, p: AudioProcessParams): (t: EditorState)
    requires s.Valid()
    ensures t.Valid() && t.Synced() && t.params == p
  {
    Committed(s.(params := p), p)
  }

  /** handleSavePreset: `prompt` gives `name` (None when cancelled); an
      empty name saves nothing. */
  function Saved(s: EditorState, name: Option<string>): (t: EditorState)
    ensures t.params == s.params && t.history == s.history && t.historyIndex == s.historyIndex
  {
    if name.Some? && name.value != "" then s.(presets := s.presets + [Preset(name.value, s.params)])
    else s
  }

  // ---- applyPreset ----

  /** `{ ...params, ringMod: 0, vibratoDepth: 0, backingVocals: 0 }`: the
      effects every preset first switches off. */
  function ResetFx(p: AudioProcessParams): AudioProcessParams
  {
    p.(ringMod := 0.0, vibratoDepth := 0.0, backingVocals := 0.0)
  }

  /** The effects fields the reset touches. */
  predicate IsFx(f: Field)
  {
    f == RingMod || f == VibratoDepth || f == BackingVocals
  }

  /** The fields a named preset sets, and their values. */
  function PresetFields(name: string): Partial
  {
    if name == "Child" then map[Pitch := 6.0, Stretch := 1.0, EqBass := -5.0, EqAir := 5.0]
    else if name == "Giant" then map[Pitch := -4.0, Stretch := 1.0, EqBass := 8.0, EqAir := -5.0, Drive := 0.2]
    else if name == "Robot" then map[Pitch := 0.0, RingMod := 0.6, Drive := 0.4]
    else if name == "Alien" then map[Pitch := 0.0, VibratoDepth := 8.0, VibratoSpeed := 10.0, Delay := 0.2]
    else if name == "Chorus" then map[BackingVocals := 0.6, Reverb := 0.3, Stereo := 0.8]
    else if name == "Nightcore" then map[Pitch := 3.0, Stretch := 0.88, EqAir := 3.0, Denoise := 0.0]
    else if name == "Slowed" then
      map[Pitch := -3.0, Stretch := 1.15, Reverb := 0.5, ReverbDecay := 2.5, EqBass := 4.0]
    else if name == "CopyrightBypass" then
      map[Pitch := 0.7, Stretch := 0.97, Drive := 0.15, EqMid := 1.5, Stereo := 0.6]
    else map[]
  }

  /** The parameters a preset produces: the effects reset, then the
      preset's own fields spread over them. */
  function AppliedPreset(p: AudioProcessParams, name: string): AudioProcessParams
  {
    Merge(ResetFx(p), PresetFields(name))
  }

  /** The names applyPreset knows. */
  predicate KnownPreset(name: string)
  {
    name in {"Child", "Giant", "Robot", "Alien", "Chorus", "Nightcore", "Slowed", "CopyrightBypass"}
  }

  lemma ResetFxFields(p: AudioProcessParams, f: Field)
    ensures Get(ResetFx(p), f) == if IsFx(f) then 0.0 else Get(p, f)
  {
    match f {
      case RingMod =>
      case VibratoDepth =>
      case BackingVocals =>
      case _ =>
    }
  }

  /** A preset changes only the effects it resets and the fields it names;
      each named field gets the preset's value, each reset effect not
      named is 0, and every other field keeps its value. */
  lemma PresetChangesOnlyItsFields(p: AudioProcessParams, name: string, f: Field)
    ensures f in PresetFields(name) ==> Get(AppliedPreset(p, name), f) == PresetFields(name)[f]
    ensures f !in PresetFields(name) && IsFx(f) ==> Get(AppliedPreset(p, name), f) == 0.0
    ensures f !in PresetFields(name) && !IsFx(f) ==> Get(AppliedPreset(p, name), f) == Get(p, f)
  {
    MergeFields(ResetFx(p), PresetFields(name));
    ResetFxFields(p, f);
  }

  lemma PresetIs(p: AudioProcessParams, name: string, fields: Partial)
    requires PresetFields(name) == fields
    ensures AppliedPreset(p, name) == Merge(ResetFx(p), fields)
  {
  }

  /** An unknown name only switches the effects off. */
  lemma UnknownPreset(p: AudioProcessParams, name: string)
    requires !KnownPreset(name)
    ensures AppliedPreset(p, name) == ResetFx(p)
  {
    assert PresetFields(name) == map[];
    MergeEmpty(ResetFx(p));
  }

  /** The Child voice: pitch up six semitones, less bass, more air; the other effects are off and every other
      field is kept. */
  lemma ChildPreset(p: AudioProcessParams)
    ensures AppliedPreset(p, "Child") ==
      p.(ringMod := 0.0, vibratoDepth := 0.0, backingVocals := 0.0, pitch := 6.0, stretch := 1.0, eqBass := -5.0, eqAir := 5.0)
  {
    ChildValues(p);
    PresetIs(p, "Child", map[Pitch := 6.0, Stretch := 1.0, EqBass := -5.0, EqAir := 5.0]);
  }

  lemma ChildValues(p: AudioProcessParams)
    ensures Merge(ResetFx(p), map[Pitch := 6.0, Stretch := 1.0, EqBass := -5.0, EqAir := 5.0]) ==
      p.(ringMod := 0.0, vibratoDepth := 0.0, backingVocals := 0.0, pitch := 6.0, stretch := 1.0, eqBass := -5.0, eqAir := 5.0)
  {
  }

  /** The Giant voice: pitch down four semitones, more bass, less air, some drive; the other effects are off and every other
      field is kept. */
  lemma GiantPreset(p: AudioProcessParams)
    ensures AppliedPreset(p, "Giant") ==
      p.(ringMod := 0.0, vibratoDepth := 0.0, backingVocals := 0.0, pitch := -4.0, stretch := 1.0, eqBass := 8.0, eqAir := -5.0, drive := 0.2)
  {
    GiantValues(p);
    PresetIs(p, "Giant", map[Pitch := -4.0, Stretch := 1.0, EqBass := 8.0, EqAir := -5.0, Drive := 0.2]);
  }

  lemma GiantValues(p: AudioProcessParams)
    ensures Merge(ResetFx(p), map[Pitch := -4.0, Stretch := 1.0, EqBass := 8.0, EqAir := -5.0, Drive := 0.2]) ==
      p.(ringMod := 0.0, vibratoDepth := 0.0, backingVocals := 0.0, pitch := -4.0, stretch := 1.0, eqBass := 8.0, eqAir := -5.0, drive := 0.2)
  {
  }

  /** The Robot voice: ring modulation 0.6 with drive 0.4 at the original pitch; the other effects are off and every other
      field is kept. */
  lemma RobotPreset(p: AudioProcessParams)
    ensures AppliedPreset(p, "Robot") ==
      p.(ringMod := 0.6, vibratoDepth := 0.0, backingVocals := 0.0, pitch := 0.0, drive := 0.4)
  {
    RobotValues(p);
    PresetIs(p, "Robot", map[Pitch := 0.0, RingMod := 0.6, Drive := 0.4]);
  }

  lemma RobotValues(p: AudioProcessParams)
    ensures Merge(ResetFx(p), map[Pitch := 0.0, RingMod := 0.6, Drive := 0.4]) ==
      p.(ringMod := 0.6, vibratoDepth := 0.0, backingVocals := 0.0, pitch := 0.0, drive := 0.4)
  {
  }

  /** The Alien voice: deep fast vibrato and a delay send; the other effects are off and every other
      field is kept. */
  lemma AlienPreset(p: AudioProcessParams)
    ensures AppliedPreset(p, "Alien") ==
      p.(ringMod := 0.0, vibratoDepth := 8.0, backingVocals := 0.0, pitch := 0.0, vibratoSpeed := 10.0, delay := 0.2)
  {
    AlienValues(p);
    PresetIs(p, "Alien", map[Pitch := 0.0, VibratoDepth := 8.0, VibratoSpeed := 10.0, Delay := 0.2]);
  }

  lemma AlienValues(p: AudioProcessParams)
    ensures Merge(ResetFx(p), map[Pitch := 0.0, VibratoDepth := 8.0, VibratoSpeed := 10.0, Delay := 0.2]) ==
      p.(ringMod := 0.0, vibratoDepth := 8.0, backingVocals := 0.0, pitch := 0.0, vibratoSpeed := 10.0, delay := 0.2)
  {
  }

  /** The Chorus voice: backing vocals on, more reverb and width; the other effects are off and every other
      field is kept. */
  lemma ChorusPreset(p: AudioProcessParams)
    ensures AppliedPreset(p, "Chorus") ==
      p.(ringMod := 0.0, vibratoDepth := 0.0, backingVocals := 0.6, reverb := 0.3, stereo := 0.8)
  {
    ChorusValues(p);
    PresetIs(p, "Chorus", map[BackingVocals := 0.6, Reverb := 0.3, Stereo := 0.8]);
  }

  lemma ChorusValues(p: AudioProcessParams)
    ensures Merge(ResetFx(p), map[BackingVocals := 0.6, Reverb := 0.3, Stereo := 0.8]) ==
      p.(ringMod := 0.0, vibratoDepth := 0.0, backingVocals := 0.6, reverb := 0.3, stereo := 0.8)
  {
  }

  /** The Nightcore style: three semitones up, faster, brighter, no denoise; the other effects are off and every other
      field is kept. */
  lemma NightcorePreset(p: AudioProcessParams)
    ensures AppliedPreset(p, "Nightcore") ==
      p.(ringMod := 0.0, vibratoDepth := 0.0, backingVocals := 0.0, pitch := 3.0, stretch := 0.88, eqAir := 3.0, denoise := 0.0)
  {
    NightcoreValues(p);
    PresetIs(p, "Nightcore", map[Pitch := 3.0, Stretch := 0.88, EqAir := 3.0, Denoise := 0.0]);
  }

  lemma NightcoreValues(p: AudioProcessParams)
    ensures Merge(ResetFx(p), map[Pitch := 3.0, Stretch := 0.88, EqAir := 3.0, Denoise := 0.0]) ==
      p.(ringMod := 0.0, vibratoDepth := 0.0, backingVocals := 0.0, pitch := 3.0, stretch := 0.88, eqAir := 3.0, denoise := 0.0)
  {
  }

  /** The Slowed style: three semitones down, slower, a longer and wetter reverb, more bass; the other effects are off and every other
      field is kept. */
  lemma SlowedPreset(p: AudioProcessParams)
    ensures AppliedPreset(p, "Slowed") ==
      p.(ringMod := 0.0, vibratoDepth := 0.0, backingVocals := 0.0, pitch := -3.0, stretch := 1.15, reverb := 0.5, reverbDecay := 2.5, eqBass := 4.0)
  {
    SlowedValues(p);
    PresetIs(p, "Slowed", map[Pitch := -3.0, Stretch := 1.15, Reverb := 0.5, ReverbDecay := 2.5, EqBass := 4.0]);
  }

  lemma SlowedValues(p: AudioProcessParams)
    ensures Merge(ResetFx(p), map[Pitch := -3.0, Stretch := 1.15, Reverb := 0.5, ReverbDecay := 2.5, EqBass := 4.0]) ==
      p.(ringMod := 0.0, vibratoDepth := 0.0, backingVocals := 0.0, pitch := -3.0, stretch := 1.15, reverb := 0.5, reverbDecay := 2.5, eqBass := 4.0)
  {
  }

  /** The CopyrightBypass style: a slight pitch and tempo change with drive, mid boost and width; the other effects are off and every other
      field is kept. */
  lemma CopyrightBypassPreset(p: AudioProcessParams)
    ensures AppliedPreset(p, "CopyrightBypass") ==
      p.(ringMod := 0.0, vibratoDepth := 0.0, backingVocals := 0.0, pitch := 0.7, stretch := 0.97, drive := 0.15, eqMid := 1.5, stereo := 0.6)
  {
    CopyrightBypassValues(p);
    PresetIs(p, "CopyrightBypass", map[Pitch := 0.7, Stretch := 0.97, Drive := 0.15, EqMid := 1.5, Stereo := 0.6]);
  }

  lemma CopyrightBypassValues(p: AudioProcessParams)
    ensures Merge(ResetFx(p), map[Pitch := 0.7, Stretch := 0.97, Drive := 0.15, EqMid := 1.5, Stereo := 0.6]) ==
      p.(ringMod := 0.0, vibratoDepth := 0.0, backingVocals := 0.0, pitch := 0.7, stretch := 0.97, drive := 0.15, eqMid := 1.5, stereo := 0.6)
  {
  }

  /** applyPreset's sequential assignments on newParams. */
  method ApplyPresetTo(p: AudioProcessParams, name: string) returns (newParams: AudioProcessParams)
    ensures newParams == AppliedPreset(p, name)
  {
    newParams := p.(ringMod := 0.0, vibratoDepth := 0.0, backingVocals := 0.0);
    if name == "Child" {
      newParams := newParams.(pitch := 6.0); newParams := newParams.(stretch := 1.0);
      newParams := newParams.(eqBass := -5.0); newParams := newParams.(eqAir := 5.0);
      ChildPreset(p);
    }
    if name == "Giant" {
      newParams := newParams.(pitch := -4.0); newParams := newParams.(stretch := 1.0);
      newParams := newParams.(eqBass := 8.0); newParams := newParams.(eqAir := -5.0);
      newParams := newParams.(drive := 0.2);
      GiantPreset(p);
    }
    if name == "Robot" {
      newParams := newParams.(pitch := 0.0); newParams := newParams.(ringMod := 0.6);
      newParams := newParams.(drive := 0.4);
      RobotPreset(p);
    }
    if name == "Alien" {
      newParams := newParams.(pitch := 0.0); newParams := newParams.(vibratoDepth := 8.0);
      newParams := newParams.(vibratoSpeed := 10.0); newParams := newParams.(delay := 0.2);
      AlienPreset(p);
    }
    if name == "Chorus" {
      newParams := newParams.(backingVocals := 0.6); newParams := newParams.(reverb := 0.3);
      newParams := newParams.(stereo := 0.8);
      ChorusPreset(p);
    }
    if name == "Nightcore" {
      newParams := newParams.(pitch := 3.0); newParams := newParams.(stretch := 0.88);
      newParams := newParams.(eqAir := 3.0); newParams := newParams.(denoise := 0.0);
      NightcorePreset(p);
    }
    if name == "Slowed" {
      newParams := newParams.(pitch := -3.0); newParams := newParams.(stretch := 1.15);
      newParams := newParams.(reverb := 0.5); newParams := newParams.(reverbDecay := 2.5);
      newParams := newParams.(eqBass := 4.0);
      SlowedPreset(p);
    }
    if name == "CopyrightBypass" {
      newParams := newParams.(pitch := 0.7);
      newParams := newParams.(stretch := 0.97);
      newParams := newParams.(drive := 0.15);
      newParams := newParams.(eqMid := 1.5);
      newParams := newParams.(stereo := 0.6);
      CopyrightBypassPreset(p);
    }
    if !KnownPreset(name) {
      UnknownPreset(p, name);
    }
  }

  // ---- Properties of the editor's transitions ----

  /** After a commit nothing can be redone. */
  lemma CommitLeavesNothingToRedo(s: EditorState, p: AudioProcessParams)
    requires s.Valid()
    ensures Redone(Committed(s, p)) == Committed(s, p)
  {
  }

  /** Undoing a commit goes back to the entry the index named before it,
      with the committed entry still there to redo. */
  lemma UndoAfterCommit(s: EditorState, p: AudioProcessParams)
    requires s.Valid()
    ensures var t := Undone(Committed(s, p));
      && t.historyIndex == s.historyIndex && t.params == s.history[s.historyIndex]
      && Redone(t) == Committed(s, p).(params := p)
  {
  }

  /** Undo then redo returns to a synced state exactly. */
  lemma UndoThenRedo(s: EditorState)
    requires s.Valid() && s.Synced() && s.historyIndex > 0
    ensures Redone(Undone(s)) == s
  {
  }

  /** Redo then undo returns to a synced state exactly. */
  lemma RedoThenUndo(s: EditorState)
    requires s.Valid() && s.Synced() && s.historyIndex < |s.history| - 1
    ensures Undone(Redone(s)) == s
  {
  }

  /** Undo and redo keep the parameters in step with the history. */
  lemma UndoRedoSync(s: EditorState)
    requires s.Valid() && s.Synced()
    ensures Undone(s).Valid() && Undone(s).Synced()
    ensures Redone(s).Valid() && Redone(s).Synced()
  {
  }

  /** updateParam changes only the named field, and touches the history
      only when it commits. */
  lemma UpdateChangesOneField(s: EditorState, key: Field, value: real, commit: bool)
    requires s.Valid()
    ensures var t := Updated(s, key, value, commit);
      && Get(t.params, key) == value
      && (forall g :: g != key ==> Get(t.params, g) == Get(s.params, g))
      && t.presets == s.presets
      && (!commit ==> t.history == s.history && t.historyIndex == s.historyIndex)
      && (commit ==> t == SetAndCommit(s, t.params))
  {
  }

  /** A slider drag reports its position through onChange, an uncommitted
      updateParam, and the release reports the same position through
      onCommit, a committed one. With onCommit wired the history gains
      exactly one entry, the dragged parameters; without it the drag is
      never recorded. */
  lemma DragThenRelease(s: EditorState, key: Field, v: real, hasOnCommit: bool)
    requires s.Valid()
    ensures var dragged := Updated(s, key, v, false);
      var released := Knobs.OnRelease(hasOnCommit, v);
      var t := if released.Some? then Updated(dragged, key, released.value, true) else dragged;
      && t.params == With(s.params, key, v)
      && (hasOnCommit ==>
           && t.historyIndex == s.historyIndex + 1 == |t.history| - 1
           && t.history == s.history[..s.historyIndex + 1] + [t.params])
      && (!hasOnCommit ==> t.history == s.history && t.historyIndex == s.historyIndex)
  {
    var np := With(s.params, key, v);
    var again := With(np, key, v);
    Extensionality(again, np);
  }

  /** A preset is saved exactly when a non-empty name is given, and it
      holds the parameters shown. */
  lemma SaveIff(s: EditorState, name: Option<string>)
    ensures var t := Saved(s, name);
      && (t.presets != s.presets <==> name.Some? && name.value != "")
      && (t.presets != s.presets ==> t.presets == s.presets + [Preset(name.value, s.params)])
  {
    var t := Saved(s, name);
    if name.Some? && name.value != "" {
      assert |t.presets| == |s.presets| + 1;
    }
  }

  /** A saved preset loads back the parameters it was saved with. */
  lemma SaveThenLoad(s: EditorState, name: string)
    requires s.Valid() && name != ""
    ensures var t := Saved(s, Some(name));
      && t.Valid() && t.presets[|t.presets| - 1] == Preset(name, s.params)
      && SetAndCommit(t, t.presets[|t.presets| - 1].params).params == s.params
  {
  }

  /** Auto-enhance with no suggestions commits the parameters unchanged. */
  lemma EnhanceWithNothing(s: EditorState)
    requires s.Valid()
    ensures SetAndCommit(s, Merge(s.params, map[])).params == s.params
  {
    MergeEmpty(s.params);
  }

  /** Auto-enhance overrides exactly the suggested fields. */
  lemma EnhanceOverridesSuggested(p: AudioProcessParams, suggestions: Partial, f: Field)
    ensures Get(Merge(p, suggestions), f) == if f in suggestions then suggestions[f] else Get(p, f)
  {
    MergeFields(p, suggestions);
  }

  // ---- The editor as the view runs it ----

  /** The view's state, updated in place by its handlers. */
  class Editor {
    var params: AudioProcessParams
    var history: seq<AudioProcessParams>
    var historyIndex: nat
    var savedPresets: seq<Preset>

    function State(): EditorState
      reads this
    {
      EditorState(params, history, historyIndex, savedPresets)
    }

    predicate Valid()
      reads this
    {
      State().Valid()
    }

    constructor ()
      ensures Valid() && State() == Start()
    {
      params := InitialParams;
      history := [InitialParams];
      historyIndex := 0;
      savedPresets := [];
    }

    /** addToHistory: slice up to the index, push, move the index. */
    method AddToHistory(newParams: AudioProcessParams)
      requires Valid()
      modifies this
      ensures Valid() && State() == Committed(old(State()), newParams)
    {
      var newHistory := history[..historyIndex + 1];
      newHistory := newHistory + [newParams];
      history := newHistory;
      historyIndex := |newHistory| - 1;
    }

    /** updateParam(key, value, commit) */
    method UpdateParam(key: Field, value: real, commit: bool)
      requires Valid()
      modifies this
      ensures Valid() && State() == Updated(old(State()), key, value, commit)
    {
      var newParams := With(params, key, value);
      params := newParams;
      if commit {
        AddToHistory(newParams);
      }
    }

    /** handleUndo */
    method Undo()
      requires Valid()
      modifies this
      ensures Valid() && State() == Undone(old(State()))
    {
      if historyIndex > 0 {
        var newIndex := historyIndex - 1;
        historyIndex := newIndex;
        params := history[newIndex];
      }
    }

    /** handleRedo */
    method Redo()
      requires Valid()
      modifies this
      ensures Valid() && State() == Redone(old(State()))
    {
      if historyIndex < |history| - 1 {
        var newIndex := historyIndex + 1;
        historyIndex := newIndex;
        params := history[newIndex];
      }
    }

    /** handleReset */
    method Reset()
      requires Valid()
      modifies this
      ensures Valid() && State() == SetAndCommit(old(State()), InitialParams)
    {
      params := InitialParams;
      AddToHistory(InitialParams);
    }

    /** handleSavePreset, with the answer of `prompt` as `name`; writing
        the list to storage is not modelled. */
    method SavePreset(name: Option<string>)
      requires Valid()
      modifies this
      ensures Valid() && State() == Saved(old(State()), name)
    {
      if name.Some? && name.value != "" {
        savedPresets := savedPresets + [Preset(name.value, params)];
      }
    }

    /** handleLoadPreset */
    method LoadPreset(preset: Preset)
      requires Valid()
      modifies this
      ensures Valid() && State() == SetAndCommit(old(State()), preset.params)
    {
      params := preset.params;
      AddToHistory(preset.params);
    }

    /** applyPreset(name) */
    method ApplyPreset(name: string)
      requires Valid()
      modifies this
      ensures Valid() && State() == SetAndCommit(old(State()), AppliedPreset(old(params), name))
    {
      var newParams := ApplyPresetTo(params, name);
      params := newParams;
      AddToHistory(newParams);
    }

    /** handleAutoEnhance: nothing without a decoded source; otherwise the
        analyzer's suggestions are spread over the parameters and committed. */
    method AutoEnhance(source: Option<AudioBuffer>, m: MathLib)
      requires Valid()
      modifies this
      ensures Valid()
      ensures source.None? ==> State() == old(State())
      ensures source.Some? ==>
        State() == SetAndCommit(old(State()), Merge(old(params), Analyzer.Analysis(source.value, m)))
    {
      if source.None? {
        return;
      }
      var suggestions := Analyzer.AnalyzeAudioBuffer(source.value, m);
      var newParams := Merge(params, suggestions);
      params := newParams;
      AddToHistory(newParams);
    }
  }

  // ---- The preview slice ----

  /** The preview renders at most the first 10 seconds. */
  const PreviewSeconds: real := 10.0

  /** Math.floor(Math.min(10, duration) * sampleRate) */
  function PreviewLength(buf: AudioBuffer): int
    requires buf.sampleRate > 0
  {
    PreviewFrames(buf.Duration(), buf.sampleRate as real)
  }

  function PreviewFrames(duration: real, rate: real): int
  {
    Floor(MinReal(PreviewSeconds, duration) * rate)
  }

  /** The preview never reads past the end of the source or past 10
      seconds, and a source of 10 seconds or less is previewed whole. */
  lemma PreviewLengthBounds(buf: AudioBuffer)
    requires buf.WellFormed()
    ensures 0 <= PreviewLength(buf) <= buf.Length()
    ensures PreviewLength(buf) <= 10 * buf.sampleRate
    ensures buf.Duration() <= PreviewSeconds ==> PreviewLength(buf) == buf.Length()
  {
    DurationScaled(buf);
    PreviewFramesBounds(buf.Duration(), buf.sampleRate as real, buf.Length());
    assert (10 * buf.sampleRate) as real == 10.0 * buf.sampleRate as real;
  }

  /** duration * sampleRate is the length again. */
  lemma DurationScaled(buf: AudioBuffer)
    requires buf.sampleRate > 0
    ensures buf.Duration() >= 0.0 && buf.Duration() * buf.sampleRate as real == buf.Length() as real
  {
  }

  lemma PreviewFramesBounds(duration: real, rate: real, length: nat)
    requires duration >= 0.0 && rate > 0.0 && duration * rate == length as real
    ensures 0 <= PreviewFrames(duration, rate) <= length
    ensures PreviewFrames(duration, rate) as real <= 10.0 * rate
    ensures duration <= 10.0 ==> PreviewFrames(duration, rate) == length
  {
    var d := MinReal(PreviewSeconds, duration);
    ScaleWithin(d, duration, rate, length as real);
    ScaleBelow(d, 10.0, rate);
    ScaleBelow(0.0, d, rate);
    if duration <= 10.0 {
      assert d == duration;
    }
  }

  lemma ScaleWithin(a: real, b: real, c: real, bc: real)
    requires a <= b && c >= 0.0 && b * c == bc
    ensures a * c <= bc
  {
    ScaleBelow(a, b, c);
  }

  lemma ScaleBelow(a: real, b: real, c: real)
    requires a <= b && c >= 0.0
    ensures a * c <= b * c
  {
    assert b * c - a * c == (b - a) * c;
  }

  /** The slice handlePreview builds: a buffer of the source's channel
      count and rate, each channel the first PreviewLength samples of the
      source's. createBuffer refuses a length of 0, which ends in the
      "Preview failed" alert, given here as None. */
  method PreviewSlice(source: AudioBuffer) returns (slice: Option<AudioBuffer>)
    requires source.WellFormed()
    ensures slice.Some? <==> PreviewLength(source) > 0
    ensures slice.Some? ==>
      && slice.value.sampleRate == source.sampleRate
      && |slice.value.channels| == |source.channels|
      && (forall c :: 0 <= c < |source.channels| ==>
            slice.value.channels[c] == source.channels[c][..PreviewLength(source)])
    ensures slice.Some? ==>
      slice.value.WellFormed() && slice.value.Length() == PreviewLength(source) <= 10 * source.sampleRate
  {
    var length := PreviewLength(source);
    PreviewLengthBounds(source);
    if length <= 0 {
      return None;
    }
    var channels: seq<seq<real>> := [];
    for i := 0 to |source.channels|
      invariant |channels| == i
      invariant forall c :: 0 <= c < i ==> channels[c] == source.channels[c][..length]
    {
      channels := channels + [source.channels[i][..length]];
    }
    slice := Some(AudioBuffer(source.sampleRate, channels));
  }

  // ---- Download ----

  /** The file the browser saves: its name and its bytes. */
  datatype DownloadFile = DownloadFile(fileName: string, bytes: seq<byte>)

  /** `RaïWave_${bitrateLabel}.wav` */
  function DownloadName(bitrate: string): string
  {
    "Ra\U{EF}Wave_" + bitrate + ".wav"
  }

  /** download(bitrateLabel): a visitor who is not signed in is sent to
      log in and gets nothing unless the login is stored; without a
      processed file there is nothing to save. The processed WAV is saved
      as it is, whatever the label. */
  function Download(signedIn: bool, loginStored: bool, processed: Option<seq<byte>>, bitrate: string)
    : (d: Option<DownloadFile>)
    ensures d.Some? <==> (signedIn || loginStored) && processed.Some?
    ensures d.Some? ==> d.value.bytes == processed.value
  {
    if !signedIn && !loginStored then None
    else if processed.None? then None
    else Some(DownloadFile(DownloadName(bitrate), processed.value))
  }

  /** The "MP3 320kbps" and "WAV Master" buttons save the same bytes,
      under names that differ only in the label. */
  lemma SameBytesForEveryLabel(signedIn: bool, loginStored: bool, processed: Option<seq<byte>>)
    requires (signedIn || loginStored) && processed.Some?
    ensures var hq := Download(signedIn, loginStored, processed, "HQ");
      var mp3 := Download(signedIn, loginStored, processed, "320k");
      && hq.Some? && mp3.Some? && hq.value.bytes == mp3.value.bytes
      && hq.value.fileName != mp3.value.fileName
      && mp3.value.fileName[|mp3.value.fileName| - 4..] == ".wav"
  {
    var a, b := DownloadName("HQ"), DownloadName("320k");
    assert |a| != |b|;
  }

  /** Different labels give different file names. */
  lemma DownloadNameInjective(a: string, b: string)
    requires DownloadName(a) == DownloadName(b)
    ensures a == b
  {
    var x, y := DownloadName(a), DownloadName(b);
    assert |a| == |b|;
    assert a == x[8..|x| - 4];
    assert b == y[8..|y| - 4];
  }
}
