# RaïWave audio engine and editor, modelled in Dafny

This project models the parts of the RaïWave web app that are logic rather than browser plumbing:

- **The offline audio engine** (`services/audioUtils.ts`):
  - the WAV encoder `bufferToWav`, written as the byte-by-byte `DataView` writes of the source, then proved to produce the canonical 44-byte RIFF/WAVE header followed by interleaved little-endian 16-bit samples;
  - the loudness and brightness analyser `analyzeAudioBuffer`, a strided loop over channel 0 followed by the suggestion rule;
  - the two table fillers, `makeDistortionCurve` and `impulse`;
  - the planning half of `renderAudioFromBuffer`: output length, every node setting, and the routing walk that moves `currentLastNode` past each optional stage. The settings are both kinds: those computed from the parameters, and the fixed ones (filter and oscillator types, constant frequencies and delays, the ring modulator's base gain, compressor and limiter);
  - the planning half of `mixAudioOffline`: its rates, gains, limiter and length, and its two ways to fail. A failure once the live audio context exists becomes the single "Mixing failed" error. A failure to create that context escapes as it is.
- **The enhancer view's parameter editor** (`views/Enhancer.tsx`):
  - a class `Editor` whose fields are the React state (`params`, `history`, `historyIndex`, `savedPresets`) and whose methods are the handlers: commit, update, undo, redo, reset, save and load preset, apply preset, auto-enhance;
  - each method is specified by a function on an `EditorState` value, and the properties of the history are proved about those functions;
  - also the 10-second preview slice and the download of the processed file.
- **The player's visualiser** (`components/Waveform.tsx`): `formatTime`, the bass and treble levels, the emoji choice, the spectrum bars and seeking.
- **The slider's value label** (`components/Knobs.tsx`) and what the slider reports on release.
- **The records of `types.ts`:** `AudioProcessParams`, `RemixParams` and `Preset`, with keyed update and the object spread.

## How the model is built

- **Numbers.** JavaScript numbers are Dafny `real`s.
  - Where the code can meet NaN, a `Number` datatype (`NaN | Num(v)`) is used: `0 / 0` in the analyser and the band levels, and the time passed to `formatTime`.
  - `x || d` replaces exactly 0 and NaN.
  - `%` is the truncating remainder, and `Math.floor`, `Math.ceil` and `Math.trunc` are written out.
  - `setUint16` and `setUint32` wrap their argument modulo 2^16 and 2^32; `setInt16` truncates toward zero.
- **Math functions.** `Math.pow`, `Math.log10`, `Math.sqrt` and `Math.PI` are supplied by the caller as a `MathLib` record. Its predicate `Sound()` states the only facts used:
  - powers of a positive base are positive;
  - `b^0 = 1` and `1^e = 1`;
  - a power with a nonnegative exponent grows with its base;
  - `log10` is monotone and `log10(10) = 1`;
  - `sqrt` is nonnegative;
  - 3 < π < 3.2.
- **Browser input.** The work the browser does is a parameter:
  - the decoded buffer;
  - the rendered buffer;
  - the values `Math.random` returns while the impulse is filled;
  - whether a user is signed in.
- **Editor state.** The view's state is one class whose methods update its fields. The React setters are taken as synchronous updates.
- **`rms || 0.001` (`services/audioUtils.ts:138`).** This replaces only a zero or NaN rms; a small positive rms is kept as it is, so it is not a floor of 0.001 (`Analyzer.SuggestedMaster`, `Numbers.Number.Or`).
- **Delay feedback (`services/audioUtils.ts:256`).** No bound is applied to the delay feedback: only a 0 is replaced by 0.3, and a feedback of 1 or more is kept (`Render.ZeroMeansDefault`).
- **Impulse noise (`services/audioUtils.ts:11`).** `Math.random() * 2 - 1` lies in [-1, 1): `Curves.ImpulseSampleBound` takes a draw in [0, 1) and bounds the sample to [-envelope, envelope).

## Model

| member | source | states |
|---|---|---|
| Numbers.Number.Or | services/audioUtils.ts:138 | `x \|\| d` yields one of its two operands, and never 0 when the default is nonzero, so the gain division that uses it is defined |
| Numbers.OrIdempotent | services/audioUtils.ts:138 | defaulting twice with the same default is defaulting once |
| Numbers.OrElse | services/audioUtils.ts:252-267 | definition of `x \|\| d` on a number that cannot be NaN; the defaults it yields are stated by Render.ZeroMeansDefault |
| Numbers.Div | components/Waveform.tsx:141-144 | JavaScript division: a number exactly when the divisor is nonzero, and then the quotient times the divisor is the dividend; 0/0 is NaN |
| Numbers.Floor | components/Waveform.tsx:107-109 | Math.floor: the integer r with r <= x < r + 1 |
| Numbers.Ceil | services/audioUtils.ts:184 | Math.ceil: the integer r with r - 1 < x <= r |
| Numbers.TruncBounds | services/audioUtils.ts:65 | truncation toward zero is the floor of a nonnegative number and the ceiling of a negative one; it is within 1 of x, on x's side of zero, and no further from zero |
| Numbers.JsRem | components/Waveform.tsx:108-109 | `a % b` for a >= 0 and b > 0 lies in [0, b) and is b times the fractional part of a / b |
| Numbers.Clamp | services/audioUtils.ts:140 | Math.max(lo, Math.min(hi, x)) lies in [lo, hi]; it is x inside the range and the nearer bound outside it |
| Numbers.MinReal | views/Enhancer.tsx:216 | Math.min: at most both arguments, and one of them |
| Numbers.MaxReal | services/audioUtils.ts:430 | Math.max: at least both arguments, and one of them |
| Numbers.ToUint32 | services/audioUtils.ts:45-56 | the value setUint32 stores lies in [0, 2^32), and equals the argument when the argument fits |
| Numbers.ToUint16 | services/audioUtils.ts:49-54 | the value setUint16 stores lies in [0, 2^16), and equals the argument when the argument fits |
| Text.NatStr | components/Waveform.tsx:110 | toString of a natural number: at least one character, all decimal digits, and exactly one digit for n < 10 |
| Text.IntStr | components/Waveform.tsx:110 | toString of an integer is non-empty, starts with '-' exactly when the integer is negative, and the rest are digits that read back as its magnitude |
| Text.NatStrRoundTrip | components/Waveform.tsx:110 | reading back the printed digits gives the number printed |
| Text.NatStrInjective | components/Waveform.tsx:110 | two numbers print alike only when they are equal |
| Text.NatStrTwoDigits | components/Waveform.tsx:110 | the numbers 10 to 99 print as exactly two digits |
| Text.PadStart | components/Waveform.tsx:110 | padStart: a string at least len long is unchanged; a shorter one gets exactly len characters, ending in the original, with the pad character before it |
| Params.Extensionality | types.ts:18-44 | a parameter record is determined by its 21 fields |
| Params.With | views/Enhancer.tsx:92 | `{ ...p, [key]: value }`: the named field holds the value and every other field is kept |
| Params.MergeFields | views/Enhancer.tsx:201 | `{ ...p, ...s }`: every field present in s takes s's value, every absent field keeps p's |
| Params.MergeEmpty | views/Enhancer.tsx:201 | spreading an empty partial record changes nothing |
| Params.MergeSingleton | views/Enhancer.tsx:92 | spreading a one-field partial record is the keyed update |
| Wav.LE16 | services/audioUtils.ts:49-54 | a 16-bit field is two bytes |
| Wav.LE32 | services/audioUtils.ts:45-56 | a 32-bit field is four bytes |
| Wav.Ascii | services/audioUtils.ts:38-42 | writeString writes one byte per character, the character code modulo 256 |
| Wav.Int16Bytes | services/audioUtils.ts:65 | setInt16 writes two bytes |
| Wav.Int16BytesAsUint16 | services/audioUtils.ts:65 | setInt16 writes the bytes of the truncated value modulo 2^16, low byte first |
| Wav.Scaled | services/audioUtils.ts:63-65 | the clamped, scaled sample lies in [-32768, 32767] |
| Wav.Header | services/audioUtils.ts:44-56 | the header is 44 bytes |
| Wav.RiffDescriptor | services/audioUtils.ts:44-46 | the RIFF descriptor is 12 bytes |
| Wav.FmtChunk | services/audioUtils.ts:47-54 | the `fmt ` chunk is 24 bytes |
| Wav.DataChunkHeader | services/audioUtils.ts:55-56 | the `data` chunk header is 8 bytes |
| Wav.FrameBytes | services/audioUtils.ts:59-67 | the first c samples of a frame take 2c bytes |
| Wav.LE16RoundTrip | services/audioUtils.ts:49-54 | a 16-bit little-endian field reads back as the value written |
| Wav.LE32RoundTrip | services/audioUtils.ts:45-56 | a 32-bit little-endian field reads back as the value written |
| Wav.Int16RoundTrip | services/audioUtils.ts:65 | an int16 value written by setInt16 reads back, as two's complement, as itself |
| Wav.QuantizeRange | services/audioUtils.ts:61-65 | every stored sample fits int16 and has the input's sign; it lies within one step of the clamped, scaled value; a sample >= 1 stores 32767 and a sample <= -1 stores -32768 |
| Wav.FramesLength | services/audioUtils.ts:59-68 | n frames take 2 bytes per channel per frame |
| Wav.WavLength | services/audioUtils.ts:34-35 | the file is length * channels * 2 + 44 bytes long and begins with the header |
| Wav.WavRiffFields | services/audioUtils.ts:44-46 | "RIFF" at 0, the RIFF size total - 8 at 4, "WAVE" at 8 |
| Wav.WavFmtFields | services/audioUtils.ts:47-54 | "fmt " at 12, then size 16, format 1, the channel count, the sample rate, byte rate sr*ch*2, block align ch*2 and 16 bits, each little-endian and wrapped to its width |
| Wav.WavDataFields | services/audioUtils.ts:55-56 | "data" at 36 and the data size total - 44 at 40 |
| Wav.WavHeaderFields | services/audioUtils.ts:44-56 | the whole header as read back from the file: the four tags at 0, 8, 12 and 36, and every numeric field equal to the value written, modulo its width |
| Wav.WavSizesExact | services/audioUtils.ts:45-56 | under 4 GiB the size fields hold the file's true size - 8 and size - 44 |
| Wav.WavFormatExact | services/audioUtils.ts:50-53 | when they fit their fields, channel count, byte rate and block align are exact |
| Wav.FrameBytesAt | services/audioUtils.ts:59-67 | channel k of a frame occupies bytes 2k and 2k + 1 of that frame, holding the setInt16 bytes of its scaled sample |
| Wav.FramesAt | services/audioUtils.ts:58-68 | within the sample data, frame i, channel c sits at sample index i * ch + c and holds the bytes of its scaled sample |
| Wav.WavBytesAt | services/audioUtils.ts:58-68 | frame i, channel c occupies bytes 44 + 2(i*ch + c) and the next one of the file, holding the setInt16 bytes of its scaled sample |
| Wav.WavSampleAt | services/audioUtils.ts:58-68 | the int16 read back at 44 + 2(i*ch + c) is the quantized sample |
| Wav.WavBody | services/audioUtils.ts:58-68 | after the 44-byte header come all frames and nothing else |
| Wav.SetUint8 | services/audioUtils.ts:40 | setUint8 appends the byte modulo 256 to what has been written |
| Wav.SetUint16 | services/audioUtils.ts:49 | setUint16 appends the little-endian bytes of the value modulo 2^16 |
| Wav.SetUint32 | services/audioUtils.ts:45 | setUint32 appends the little-endian bytes of the value modulo 2^32 |
| Wav.SetInt16 | services/audioUtils.ts:65 | setInt16 appends the two bytes of the truncated value |
| Wav.WriteSample | services/audioUtils.ts:61-65 | one inner-loop pass appends the bytes of the clamped, scaled sample |
| Wav.WriteString | services/audioUtils.ts:38-42 | writeString appends the tag's bytes |
| Wav.WriteRiffDescriptor | services/audioUtils.ts:44-46 | the first three writes lay down the RIFF descriptor |
| Wav.WriteFmtChunk | services/audioUtils.ts:47-54 | the next eight writes append the `fmt ` chunk |
| Wav.WriteDataChunkHeader | services/audioUtils.ts:55-56 | the next two writes append the `data` chunk header |
| Wav.WriteHeader | services/audioUtils.ts:44-56 | the header writes lay down exactly the 44-byte header |
| Wav.WriteFrame | services/audioUtils.ts:60-67 | the inner loop appends frame i, channel after channel, and advances the offset by 2 per channel |
| Wav.WriteNextFrame | services/audioUtils.ts:59-67 | one outer-loop pass extends the header and frames 0 .. i-1 by frame i |
| Wav.WriteFrames | services/audioUtils.ts:58-68 | the outer loop fills everything after the header with the frames in order |
| Wav.FramesFill | services/audioUtils.ts:34 | the header and all frames fill the allocated length exactly |
| Wav.StereoLayout | services/audioUtils.ts:32-56 | the WAV of a stereo buffer at a rate below 2^30 is 44 + 4 bytes per frame long and reads back as PCM format 1, 2 channels, that rate, byte rate rate * 4, block align 4, 16 bits, and a data size of 4 bytes per frame modulo 2^32 |
| Wav.BufferToWav | services/audioUtils.ts:32-70 | bufferToWav returns exactly WavFile(buffer), whose layout the lemmas above state; for a stereo buffer at a rate below 2^30 that file reads back as stated by Wav.StereoLayout |
| Analyzer.SampleLimit | services/audioUtils.ts:92 | the segment read is the channel length or 30 seconds of samples, whichever is smaller |
| Analyzer.Visits | services/audioUtils.ts:95 | the number of indices 0, 10, 20, ... below the limit; 0 exactly for an empty segment |
| Analyzer.SumSquares | services/audioUtils.ts:95-97 | the running sum of squares is nonnegative |
| Analyzer.Crossings | services/audioUtils.ts:98 | at most one crossing per visited index after the first |
| Analyzer.Count | services/audioUtils.ts:101 | count is the real quotient limit / 10, not a floor |
| Analyzer.SuggestedMaster | services/audioUtils.ts:137-140 | the master suggestion always lies in [0, 9] |
| Analyzer.AnalyzeAudioBuffer | services/audioUtils.ts:85-157 | the strided loop accumulates exactly SumSquares and Crossings over the visited indices, and the result is the suggestion rule applied to them, or the empty record when there is no channel 0 |
| Analyzer.NoChannels | services/audioUtils.ts:153-156 | a buffer with no channel 0 (getChannelData throws) yields the empty record |
| Analyzer.SuggestedFields | services/audioUtils.ts:106-150 | the record holds exactly the defaults, the tone fields of the branch taken, master, stereo, reverb and masterReverb; never shift or delay |
| Analyzer.DullTone | services/audioUtils.ts:120-125 | zcr < 0.02: eqAir 5, eqMid 2, eqBass -2, denoise 0.1, drive 0.3, no deess |
| Analyzer.BrightTone | services/audioUtils.ts:126-129 | zcr > 0.15: eqAir -2, denoise 0.4, deess 0.5, drive keeps its default 0, no eqMid or eqBass |
| Analyzer.MiddleTone | services/audioUtils.ts:130-134 | otherwise, NaN included: eqAir 2.5, denoise 0.2, drive 0.1, no eqMid, eqBass or deess |
| Analyzer.FixedSuggestions | services/audioUtils.ts:140-150 | stereo is 0.5 exactly for a mono buffer, else 0.25; reverb 0.2; masterReverb 1.0; master within [0, 9] |
| Analyzer.MasterMonotone | services/audioUtils.ts:137-140 | a louder signal never gets a larger gain suggestion |
| Analyzer.SilenceGetsFullGain | services/audioUtils.ts:138-140 | rms 0 or NaN gets the full 9 dB |
| Analyzer.EmptySegment | services/audioUtils.ts:101-140 | an empty channel 0 measures NaN and gets the middle tone and a master of 9 |
| Analyzer.ReadsOnlyVisited | services/audioUtils.ts:95-99 | two signals agreeing at every visited index are analysed alike: only indices 0, 10, 20, ... are read |
| Analyzer.SumSquaresAgree | services/audioUtils.ts:95-97 | the sum of squares depends only on the visited samples |
| Analyzer.CrossingsAgree | services/audioUtils.ts:98 | the crossing count depends only on the visited samples |
| Curves.Steepness | services/audioUtils.ts:19 | definition of k, the amount when it is a number and 50 otherwise; Curves.MakeDistortionCurve states the table built with it |
| Curves.CurveInput | services/audioUtils.ts:24 | table inputs run from -1 up to just below 1 |
| Curves.Abs | services/audioUtils.ts:26 | Math.abs: nonnegative, and x or -x |
| Curves.DenominatorPositive | services/audioUtils.ts:26 | for k > -π the formula's denominator is positive on [-1, 1] |
| Curves.MakeDistortionCurve | services/audioUtils.ts:18-29 | a fresh 44100-entry table whose entry i is the soft-clipping formula at input 2i/44100 - 1 |
| Curves.TableMirror | services/audioUtils.ts:24 | entries i and 44100 - i have opposite inputs; the middle entry's input is 0 |
| Curves.InputIncreasing | services/audioUtils.ts:23-24 | the table inputs increase with the index |
| Curves.ShapeOdd | services/audioUtils.ts:26 | the curve is odd: f(-x) = -f(x) |
| Curves.ShapeSign | services/audioUtils.ts:26 | for k > -3 the output has the input's sign |
| Curves.Gain | services/audioUtils.ts:26 | the scale factor (3 + k) * 20 * π/180 is positive for k > -3 |
| Curves.ShapeFactored | services/audioUtils.ts:26 | the formula is that factor times x / (π + k\|x\|) |
| Curves.ShapeMonotone | services/audioUtils.ts:26 | for k >= 0 the curve never decreases |
| Curves.ShapeNonnegMonotone | services/audioUtils.ts:26 | for k >= 0 the curve never decreases on [0, 1] |
| Curves.TableSortedAndBounded | services/audioUtils.ts:21-28 | for k >= 0 the table is sorted and bounded by ±f(1) |
| Curves.ImpulseFrames | services/audioUtils.ts:6-7 | createBuffer allocates the integral part of sampleRate * duration frames |
| Curves.Impulse | services/audioUtils.ts:5-15 | two channels at the context rate, each of the integral length, sample i of channel c being noise[c][i] moved to [-1, 1) times (1 - i/length)^decay; no buffer for a length under one frame |
| Curves.FillChannel | services/audioUtils.ts:10-12 | the inner loop fills every frame with its enveloped noise, dropping the write past the end that a fractional length makes |
| Curves.EnvelopeDecays | services/audioUtils.ts:11 | the envelope starts at 1, stays in (0, 1] and never grows |
| Curves.EnvelopePositive | services/audioUtils.ts:11 | the envelope is positive before the end of the buffer |
| Curves.ImpulseSampleBound | services/audioUtils.ts:11 | for a draw in [0, 1) the sample lies in [-envelope, envelope) |
| Curves.ImpulseSampleSign | services/audioUtils.ts:11 | under a positive envelope a sample is negative exactly for draws below 1/2 and positive exactly for draws above |
| Render.PlaybackRate | services/audioUtils.ts:175-176 | the effective rate 2^(pitch/12) / stretch is positive |
| Render.FramesCoverDuration | services/audioUtils.ts:177-186 | the context holds the stretched duration rounded up to a frame at 48 kHz, plus exactly 96000 frames of tail |
| Render.UnpitchedDuration | services/audioUtils.ts:175-177 | without pitch shift the new duration is the duration times stretch |
| Render.ZeroMeansDefault | services/audioUtils.ts:252-267 | a delay time, feedback or reverb decay of 0 (and a vibrato speed of 0, line 342) becomes its default; any other value, a feedback above 1 included, is kept |
| Render.FilterBand | services/audioUtils.ts:195-201 | for denoise in [0, 1] the highpass is 70..270 Hz, the lowpass 14..19 kHz, and the band never closes |
| Render.DeesserCuts | services/audioUtils.ts:203-207 | for deess >= 0: Q >= 1, gain <= 0, 12 dB of cut per unit of Q above 1 |
| Render.MasterGainPositive | services/audioUtils.ts:284-285 | the master gain 10^(master/20) is positive, and unity at 0 dB |
| Render.RingModGains | services/audioUtils.ts:305-315 | with 0 < ringMod <= 1, dry gain is in [0.5, 1), wet gain is ringMod, and dry + wet/2 = 1 |
| Render.Route | services/audioUtils.ts:293-381 | the routing walk produces the wiring function's edges, and starts the oscillators and source in order |
| Render.FiltersArePath | services/audioUtils.ts:294-296 | source, highpass, lowpass and de-esser feed one another in order |
| Render.DynamicsArePath | services/audioUtils.ts:377-381 | compressor, panner, master gain, limiter and destination feed one another in order |
| Render.FrontTrunkIsPath | services/audioUtils.ts:294-330 | the chain through the filters, ring modulator and drive is a path ending where the EQ starts |
| Render.BackTrunkIsPath | services/audioUtils.ts:332-381 | the chain from the EQ through vibrato and the dynamics to the destination is a path |
| Render.TrunkIsPath | services/audioUtils.ts:293-381 | whatever is switched on, filters, ring modulator, drive, EQ, vibrato, compressor, panner, master gain and limiter follow one another in this fixed order |
| Render.ChorusLfoNodes | services/audioUtils.ts:246-247 | the chorus LFO connections touch exactly its oscillator, its gain and the chorus delay |
| Render.FeedbackNodes | services/audioUtils.ts:258-259 | the feedback loop touches exactly the delay and its feedback gain |
| Render.FilterNodes | services/audioUtils.ts:294-296 | the filter chain touches exactly the source and the three filters |
| Render.RingModNodes | services/audioUtils.ts:301-324 | the ring-modulator stage touches exactly its five nodes and the node before it |
| Render.DriveNodes | services/audioUtils.ts:327-330 | the drive stage touches exactly the shaper and the node before it |
| Render.EqNodes | services/audioUtils.ts:333-335 | the EQ stage touches exactly the three shelves and the node before it |
| Render.VibratoNodes | services/audioUtils.ts:338-352 | the vibrato stage touches exactly its oscillator, gain and delay, and the air shelf |
| Render.ChorusNodes | services/audioUtils.ts:355-363 | the backing-vocal branch touches exactly the send point, chorus delay, backing EQ, chorus gain and compressor |
| Render.SendNodes | services/audioUtils.ts:366-368 | the sends touch exactly the send point, compressor, delay and convolver |
| Render.ReturnNodes | services/audioUtils.ts:371-375 | the returns touch exactly the delay, delay gain, convolver, reverb gain and compressor |
| Render.FinalNodes | services/audioUtils.ts:378-381 | the final chain touches exactly compressor, panner, master gain, limiter and destination |
| Render.WiringStages | services/audioUtils.ts:293-381 | a node is wired exactly when a stage that is switched on touches it |
| Render.StageNodes | services/audioUtils.ts:293-381 | the wired nodes, listed: the fixed ones always, and each optional group exactly when its amount is positive |
| Render.WiredIff | services/audioUtils.ts:293-381 | a node is wired exactly when its switch is on: ring modulator, shaper, vibrato and backing-vocal nodes only for positive ringMod, drive, vibratoDepth and backingVocals; every other node always |
| Render.SendsAlwaysWired | services/audioUtils.ts:365-375 | the delay and reverb sends and returns are wired in every graph, even with their mix at 0 |
| Render.UnusedFields | services/audioUtils.ts:166-390 | masterReverb and stereo change no setting, no connection, no started node and no length |
| Render.ShaperCurve | services/audioUtils.ts:210-214 | a waveshaper table exists exactly when drive > 0, and is then makeDistortionCurve(drive * 100) |
| Render.ShaperOversampled | services/audioUtils.ts:210-214 | the waveshaper is oversampled "4x" exactly when it is wired into the graph, and then it also has its curve amount |
| Render.FrontTrunkTypes | services/audioUtils.ts:194-214 | up to the EQ the main path meets the filter types highpass, lowpass and peaking, in that order, whatever is switched on |
| Render.BackTrunkTypes | services/audioUtils.ts:216-230 | from the EQ on the main path meets lowshelf, peaking and highshelf, in that order, and no other filter |
| Render.TrunkFilterTypes | services/audioUtils.ts:194-381 | whatever is switched on, the main path meets highpass, lowpass, peaking, lowshelf, peaking, highshelf, in that order |
| Render.FrontStagesSpareRingGain | services/audioUtils.ts:194-325 | no connection made before the EQ, other than the ring modulator's, goes into the ring modulator's gain |
| Render.BackStagesSpareRingGain | services/audioUtils.ts:216-381 | no connection from the EQ on goes into the ring modulator's gain |
| Render.RingGainFeeder | services/audioUtils.ts:242-381 | any connection into the ring modulator's gain comes from the ring carrier |
| Render.RingModCarrierOnly | services/audioUtils.ts:301-322 | the ring modulator's base gain is 0 and its carrier, a 30 Hz sine, is the only connection into that gain, made whenever ringMod > 0 |
| Render.LimiterAfterCompressor | services/audioUtils.ts:277-291 | the limiter's threshold is above the compressor's, its ratio steeper, its attack and release faster |
| Render.ReverbImpulse | services/audioUtils.ts:265-268 | the convolver's impulse is 48 kHz stereo noise of `reverbDecay \|\| 1.5` seconds with decay exponent 2; none when that is under one frame |
| Render.RenderAudioFromBuffer | services/audioUtils.ts:166-390 | progress 10, 50, 90; a 2-channel 48 kHz context of OutputFrames frames; every parameter-dependent node setting (NodeSettings, the shaper oversampled "4x" exactly when drive > 0) and every fixed one (Render.Fixed: filter and oscillator types, constant frequencies and delays, ring-modulator base gain 0, compressor and limiter); the shaper table, the impulse and the routing graph as stated above; the blob is the WAV of the rendered buffer, a stereo 16-bit file at 48 kHz of 44 + 4 bytes per planned frame; failure after 10 when the impulse cannot be created |
| Mixer.ShiftFactor | services/audioUtils.ts:428 | the key and fine-shift factor 2^((key + shift)/12) is positive |
| Mixer.TracksPlayedWhole | services/audioUtils.ts:427-441 | each track's playing time times its playback rate is its own duration: both are played through once |
| Mixer.UnshiftedRatesAgree | services/audioUtils.ts:428-441 | with key + shift = 0 both tracks play at the tempo |
| Mixer.FramesCoverLongerTrack | services/audioUtils.ts:427-433 | the render lasts as long as the longer track, rounded up to a 44.1 kHz frame, with no tail |
| Mixer.BalanceUnused | services/audioUtils.ts:427-451 | the balance slider changes neither the length nor the rates |
| Mixer.PlanFor | services/audioUtils.ts:427-459 | a renderable mix is 2 channels at 44.1 kHz for the longer track's frames; source A runs at the tempo and B at tempo * shift factor; both tracks pass through the same gain of 0.8 into a limiter at -2 dB with ratio 10 |
| Mixer.BalanceIgnored | services/audioUtils.ts:427-459 | the balance slider changes nothing: renderable at one balance exactly when at another, with the same plan |
| Mixer.PlanMix | services/audioUtils.ts:427-441 | the offline context and its two sources are created exactly when the mix is renderable, and are then PlanFor's |
| Mixer.MixAudioOffline | services/audioUtils.ts:409-475 | when the live AudioContext cannot be created (no class, or its constructor throws) the error escapes unwrapped before any progress; otherwise success exactly when both files decode and the length is at least one frame, and every failure is the single "Mixing failed" error; progress 10, 40, 60, 90 on success, stopping at the failing step; the blob is the WAV of the render, a stereo 16-bit file at 44.1 kHz of 44 + 4 bytes per planned frame |
| Knobs.Hundredths | components/Knobs.tsx:21 | toFixed(2)'s rounding: the nearest hundredth, ties upward |
| Knobs.StripZeroFraction | components/Knobs.tsx:21 | `.replace(/[.,]00$/, '')` returns a prefix of the text: the whole text exactly when it does not end in ".00" or ",00", and otherwise the text three characters shorter, the removed ending being ".00" or ",00" |
| Knobs.TwoDigits | components/Knobs.tsx:21 | the two fraction digits are two decimal digits |
| Knobs.TwoDigitsZero | components/Knobs.tsx:21 | the fraction digits are "00" exactly for a multiple of 100 hundredths |
| Knobs.TwoDigitsValue | components/Knobs.tsx:21 | the fraction digits read back as n mod 100 |
| Knobs.PointedDigitsShape | components/Knobs.tsx:21 | the rounded magnitude prints as its whole part, a point and two digits |
| Knobs.PointedDigitsRoundTrip | components/Knobs.tsx:21 | reading back the whole part and the two decimals gives the hundredths printed |
| Knobs.ToFixedShape | components/Knobs.tsx:21 | toFixed(2) is the sign, the whole part, a point and two digits |
| Knobs.PlusSignIff | components/Knobs.tsx:21 | the label starts with '+' exactly when value > 0 and the unit is neither 'x' nor 's' |
| Knobs.UnitLast | components/Knobs.tsx:21 | the unit always ends the label |
| Knobs.NumberText | components/Knobs.tsx:21 | the number shows its two decimals unless both are zero; only an exact "00" is removed, so 0.5 shows "0.50" |
| Knobs.WholeNumberLabel | components/Knobs.tsx:21 | a whole number shows with no fraction at all |
| Knobs.OnRelease | components/Knobs.tsx:30-31 | definition of what mouse-up and touch-end report: the slider's value, to onCommit when one is supplied; Enhancer.DragThenRelease states what the editor records from it |
| Waveform.FormatTimeNaN | components/Waveform.tsx:106 | NaN shows as "0:00" |
| Waveform.FormatTimeFields | components/Waveform.tsx:107-109 | for t >= 0: seconds in [0, 60), tenths in [0, 10), and together with the minutes they are t cut down to a tenth, never ahead of t, less than 0.1 s behind |
| Waveform.FormatTimeText | components/Waveform.tsx:105-111 | for t >= 0 the text is M:SS.d, the seconds exactly two digits reading back as the seconds |
| Waveform.FormatTimeOf | components/Waveform.tsx:110 | the clock text of natural minutes, seconds and one tenth digit |
| Waveform.SecondsTextValue | components/Waveform.tsx:110 | padStart(2, '0') of seconds below 60 is two digits reading back as the seconds |
| Waveform.Sum | components/Waveform.tsx:140 | the sum of byte bins is at most 255 per bin |
| Waveform.Mean | components/Waveform.tsx:139-144 | NaN exactly for an empty range, otherwise a level in [0, 255] |
| Waveform.BassLimit | components/Waveform.tsx:139 | the bass range ends within the bins |
| Waveform.TrebleStart | components/Waveform.tsx:142 | the treble range starts within the bins, before the end when there is any bin |
| Waveform.BinSum | components/Waveform.tsx:140 | the accumulation loop computes the sum of bins lo .. hi-1 |
| Waveform.BandLevels | components/Waveform.tsx:135-149 | bass is the mean of bins [0, floor(0.1n)) and treble of [floor(0.7n), n); both 0 without an analyser |
| Waveform.BandLevelsDefined | components/Waveform.tsx:139-144 | bass is NaN exactly with fewer than 10 bins, treble exactly with none |
| Waveform.PulseBounds | components/Waveform.tsx:182-183 | for a byte-range bass, beat is in [0, 1] and the scale in [1, 1.8], growing with the bass |
| Waveform.ChooseEmoji | components/Waveform.tsx:191-194 | the sequence of overwrites picks ✨ for treble > 150, else 🤯 for beat > 0.8, else 🔥 for beat > 0.6, else 🎵 |
| Waveform.OverlayAlpha | components/Waveform.tsx:160-163 | a NaN bass never glows and every bass above 100 does; every glow is brighter than 0.2, and a byte-range bass never makes it brighter than 0.51 |
| Waveform.OverlayMonotone | components/Waveform.tsx:160-163 | a louder bass glows whenever a quieter one does, and at least as brightly |
| Waveform.SilentEmoji | components/Waveform.tsx:181-194 | NaN levels give the default 🎵 |
| Waveform.DataIndex | components/Waveform.tsx:215 | the bin a bar reads lies within the data |
| Waveform.BarHeight | components/Waveform.tsx:217 | a bar is between 0 and 80% of the canvas height |
| Waveform.DrawBars | components/Waveform.tsx:212-226 | the loop draws 64 bars, bar i being BarAt(i) |
| Waveform.BarGeometry | components/Waveform.tsx:213-225 | every bar lies in the middle 80% of the canvas; red in [66, 193], green in [114, 165], blue 245, alpha in [0, 1] |
| Waveform.BarMonotone | components/Waveform.tsx:216-222 | a louder bin draws a taller, redder and less green bar |
| Waveform.Seek | components/Waveform.tsx:293-300 | nothing without an audio element or with a zero or NaN duration; otherwise a new time |
| Waveform.SeekInRange | components/Waveform.tsx:296-299 | a click inside the bar seeks into [0, duration], and the click position is recovered from the time |
| Enhancer.Start | views/Enhancer.tsx:60-62 | the mount state is valid and synced at index 0 |
| Enhancer.Committed | views/Enhancer.tsx:84-89 | addToHistory keeps entries 0 .. index, appends the new one, moves the index to it as the last entry, and touches neither params nor presets |
| Enhancer.Updated | views/Enhancer.tsx:91-97 | updateParam keeps the history invariant |
| Enhancer.Undone | views/Enhancer.tsx:99-105 | undo at index 0 changes nothing; otherwise the index drops by one and params become that entry; history and presets are unchanged |
| Enhancer.Redone | views/Enhancer.tsx:107-113 | redo at the last index changes nothing; otherwise the index rises by one and params become that entry; history and presets are unchanged |
| Enhancer.SetAndCommit | views/Enhancer.tsx:115-118 | setting and committing parameters leaves a valid state showing exactly those parameters, in step with the history |
| Enhancer.Saved | views/Enhancer.tsx:120-128 | saving a preset leaves params and history untouched |
| Enhancer.ResetFxFields | views/Enhancer.tsx:261 | the reset zeroes ringMod, vibratoDepth and backingVocals and keeps every other field |
| Enhancer.PresetChangesOnlyItsFields | views/Enhancer.tsx:260-278 | a preset sets each field it names to its value, zeroes the reset effects it does not name, and keeps every other field |
| Enhancer.UnknownPreset | views/Enhancer.tsx:260-282 | an unknown name only switches the three effects off |
| Enhancer.ChildPreset | views/Enhancer.tsx:263 | Child: pitch 6, stretch 1, eqBass -5, eqAir 5, effects off, the rest kept |
| Enhancer.GiantPreset | views/Enhancer.tsx:264 | Giant: pitch -4, stretch 1, eqBass 8, eqAir -5, drive 0.2, effects off, the rest kept |
| Enhancer.RobotPreset | views/Enhancer.tsx:265 | Robot: pitch 0, ringMod 0.6, drive 0.4, the other effects off, the rest kept |
| Enhancer.AlienPreset | views/Enhancer.tsx:266 | Alien: pitch 0, vibratoDepth 8, vibratoSpeed 10, delay 0.2, the other effects off, the rest kept |
| Enhancer.ChorusPreset | views/Enhancer.tsx:267 | Chorus: backingVocals 0.6, reverb 0.3, stereo 0.8, the other effects off, the rest kept |
| Enhancer.NightcorePreset | views/Enhancer.tsx:270 | Nightcore: pitch 3, stretch 0.88, eqAir 3, denoise 0, effects off, the rest kept |
| Enhancer.SlowedPreset | views/Enhancer.tsx:271 | Slowed: pitch -3, stretch 1.15, reverb 0.5, reverbDecay 2.5, eqBass 4, effects off, the rest kept |
| Enhancer.CopyrightBypassPreset | views/Enhancer.tsx:272-278 | CopyrightBypass: pitch 0.7, stretch 0.97, drive 0.15, eqMid 1.5, stereo 0.6, effects off, the rest kept |
| Enhancer.ApplyPresetTo | views/Enhancer.tsx:261-278 | the sequence of field assignments yields the reset followed by the named preset's fields |
| Enhancer.CommitLeavesNothingToRedo | views/Enhancer.tsx:84-113 | after a commit, redo changes nothing |
| Enhancer.UndoAfterCommit | views/Enhancer.tsx:84-113 | undoing a commit returns to the previous entry, and redo brings the committed entry back |
| Enhancer.UndoThenRedo | views/Enhancer.tsx:99-113 | in a synced state, undo then redo restores the state exactly |
| Enhancer.RedoThenUndo | views/Enhancer.tsx:99-113 | in a synced state, redo then undo restores the state exactly |
| Enhancer.UndoRedoSync | views/Enhancer.tsx:99-113 | undo and redo keep params equal to the history entry at the index |
| Enhancer.UpdateChangesOneField | views/Enhancer.tsx:91-97 | updateParam changes only the named field; without commit the history is untouched, with commit it is the set-and-commit of the new params |
| Enhancer.DragThenRelease | views/Enhancer.tsx:434-450 | dragging a slider (onChange, an uncommitted update) and releasing it (onCommit, a committed update of the same value) sets that field and adds exactly one history entry, the new parameters, after the current index; without onCommit the history is untouched |
| Enhancer.SaveIff | views/Enhancer.tsx:120-128 | the preset list grows exactly when a non-empty name is given, by {name, params} |
| Enhancer.SaveThenLoad | views/Enhancer.tsx:120-134 | loading the preset just saved brings back the parameters it was saved with |
| Enhancer.EnhanceWithNothing | views/Enhancer.tsx:200-203 | auto-enhance with an empty suggestion record commits the parameters unchanged |
| Enhancer.EnhanceOverridesSuggested | views/Enhancer.tsx:201 | auto-enhance overrides exactly the suggested fields |
| Enhancer.Editor.constructor | views/Enhancer.tsx:60-66 | the editor starts valid, at INITIAL_PARAMS with a one-entry history and no presets |
| Enhancer.Editor.AddToHistory | views/Enhancer.tsx:84-89 | the slice-and-push update gives the Committed state and keeps the invariant |
| Enhancer.Editor.UpdateParam | views/Enhancer.tsx:91-97 | the handler's new state is Updated of the old, and keeps the invariant |
| Enhancer.Editor.Undo | views/Enhancer.tsx:99-105 | the handler's new state is Undone of the old, and keeps the invariant |
| Enhancer.Editor.Redo | views/Enhancer.tsx:107-113 | the handler's new state is Redone of the old, and keeps the invariant |
| Enhancer.Editor.Reset | views/Enhancer.tsx:115-118 | reset sets and commits INITIAL_PARAMS |
| Enhancer.Editor.SavePreset | views/Enhancer.tsx:120-128 | the handler's new state is Saved of the old |
| Enhancer.Editor.LoadPreset | views/Enhancer.tsx:130-134 | load sets and commits the preset's params |
| Enhancer.Editor.ApplyPreset | views/Enhancer.tsx:260-282 | apply sets and commits the preset result of the current params |
| Enhancer.Editor.AutoEnhance | views/Enhancer.tsx:195-209 | nothing without a decoded source; otherwise the analysis is spread over the params and committed |
| Enhancer.PreviewLengthBounds | views/Enhancer.tsx:216-217 | the preview length is within the source, at most 10 seconds of frames, and the whole source when it lasts 10 seconds or less |
| Enhancer.PreviewFramesBounds | views/Enhancer.tsx:216-217 | floor(min(10, duration) * rate) is within the length, at most 10 * rate, and the whole length for duration <= 10 |
| Enhancer.PreviewSlice | views/Enhancer.tsx:216-224 | a slice exists exactly when the length is positive; it has the source's rate and channel count, each channel the first PreviewLength samples of the source's |
| Enhancer.Download | views/Enhancer.tsx:284-294 | a file is saved exactly when a user is signed in (or the login is stored) and a processed file exists; its bytes are the processed WAV |
| Enhancer.SameBytesForEveryLabel | views/Enhancer.tsx:476-482 | the "WAV Master" and "MP3 320kbps" buttons save the same bytes under different `.wav` names |
| Enhancer.DownloadNameInjective | views/Enhancer.tsx:292 | different labels give different file names |
| Waveform.FormatTime | components/Waveform.tsx:105-111 | definition of formatTime; its text is stated by Waveform.FormatTimeNaN, Waveform.FormatTimeFields and Waveform.FormatTimeText |
| Knobs.ToFixed2 | components/Knobs.tsx:21 | definition of toFixed(2); its shape and value are stated by Knobs.ToFixedShape and Knobs.PointedDigitsRoundTrip |
| Knobs.ValueLabel | components/Knobs.tsx:21 | definition of the slider's value text; stated by Knobs.PlusSignIff, Knobs.UnitLast, Knobs.NumberText and Knobs.WholeNumberLabel |
| Analyzer.Analysis | services/audioUtils.ts:85-157 | definition of the analyser's result; stated by Analyzer.AnalyzeAudioBuffer, Analyzer.SuggestedFields, the three tone lemmas and Analyzer.FixedSuggestions |
| Render.NodeSettings | services/audioUtils.ts:175-285 | definition of every parameter-dependent node setting, including the shaper's oversampling; the fixed settings are the constant Render.Fixed; stated by Render.ZeroMeansDefault, Render.FilterBand, Render.DeesserCuts, Render.MasterGainPositive, Render.RingModGains and Render.ShaperOversampled |
| Render.Wiring | services/audioUtils.ts:293-381 | definition of the routing graph; stated by Render.Route, Render.WiringStages, Render.WiredIff and Render.TrunkIsPath |
| Enhancer.AppliedPreset | views/Enhancer.tsx:260-279 | definition of a preset's result; stated by Enhancer.PresetChangesOnlyItsFields, the eight preset lemmas and Enhancer.ApplyPresetTo |
| Enhancer.PreviewLength | views/Enhancer.tsx:216-217 | definition of the preview's frame count; stated by Enhancer.PreviewLengthBounds |
| Wav.WavFile | services/audioUtils.ts:32-70 | definition of the encoded file; stated by Wav.WavLength, Wav.WavHeaderFields, Wav.WavSampleAt, Wav.WavBody, Wav.StereoLayout and Wav.BufferToWav |
| Curves.Shape | services/audioUtils.ts:26 | definition of the soft-clipping formula; stated by Curves.ShapeOdd, Curves.ShapeSign, Curves.ShapeFactored and Curves.ShapeMonotone |
| Mixer.MixFrames | services/audioUtils.ts:427-433 | definition of the mix's frame count; stated by Mixer.FramesCoverLongerTrack |
| Waveform.EmojiFor | components/Waveform.tsx:191-194 | definition of the emoji rule; stated by Waveform.ChooseEmoji and Waveform.SilentEmoji |

## Left out

- The signal processing inside the Web Audio nodes is the browser's, and the repository does not contain it: filters, waveshaping, convolution, delay, compression, limiting, oscillators and playback-rate resampling. The model stops at each node's settings and the connections between nodes. Each render's output is a parameter.
- `decodeAudio`, `analyzeAudio` and `processAudioOffline` only wrap file reading and decoding. The decoded buffer, or its absence, is a parameter.
- `Math.random` is nondeterministic, so the impulse takes the values it would return as the input `noise`.
- `Math.pow`, `Math.log10`, `Math.sqrt` and `Math.PI` are not defined. Only the facts listed under `MathLib.Sound` are assumed about them.
- `Render.RenderAudioFromBuffer` handles only stretch > 0 and reverb decay >= 0. The sliders keep stretch in [0.5, 1.5] and decay in [0.5, 5]. A zero or negative stretch and a negative decay are not modelled.
- `Mixer.MixAudioOffline` handles only tempo >= 0 (its slider is [0.5, 1.5]). Tempo 0 is modelled as the failure it causes. Negative tempo is not modelled.
- `Waveform.Seek` requires a positive bar width. A zero-width element is not modelled.
- The chorus LFO's oscillator type is not set by the code (services/audioUtils.ts:242-243), so it keeps the Web Audio default; `Render.Fixed` lists as sine only the two oscillators the code sets. The render's limiter knee and the mixer limiter's knee, attack and release are also node defaults, and are not modelled.
- The mixer's connections (each source into its gain, both gains into the limiter, the limiter into the destination) are the same in every mix and are not modelled as a graph. `Mixer.MixPlan` holds the gains and the limiter settings.
- Some creation failures are modelled as `None`: createBuffer's refusal of a length of 0 in the impulse and the preview slice, and the offline context's in the mixer. Sample-rate range errors and out-of-memory failures are not modelled.
- IEEE floating point is not modelled: numbers are exact reals. Rounding, infinities, overflow to Infinity and the float32 storage of typed arrays are out. NaN is modelled only where the code can produce it from a 0/0 or a missing value.
- `Knobs.ToFixed2` covers |value| < 10^21 only. Above that, toFixed switches to exponent notation, a range no slider reaches.
- Recording, object URLs, `localStorage` (saving the preset list, and loading it on mount), `prompt` and `alert`, and the download anchor's click are browser I/O. Only their effect on the editor state and on the file saved is modelled.
- Login (contexts/AuthContext.tsx is not part of this model) is reduced to two booleans in `Enhancer.Download`: signed in, and login stored.
- Auto-enhance's 500 ms delay and the loading flags (`isAnalyzing`, `isPreviewing`, `isProcessing`) are not modelled.
- The preview's render and playback are not modelled. `Enhancer.PreviewSlice` models the slice it renders.
- React's asynchronous state updates are modelled as synchronous assignments. The model does not capture stale closure values between rapid events.
- The canvas drawing and the background grid are not modelled. The idle and paused waveform (sines and `Date.now`), the playhead, the animation loop and the audio element's events are also out. Only the values the bars, emoji and time display are computed from are modelled.
