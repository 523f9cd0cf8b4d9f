/** The WAV encoder `bufferToWav`: a 44-byte RIFF/WAVE header (a `fmt ` chunk
    for 16-bit PCM, then the `data` chunk header) followed by the interleaved,
    clamped and quantized little-endian 16-bit samples. The bytes are written
    into a Uint8Array through DataView setters and returned as an immutable blob. */
module Wav {
  import opened Numbers
  import opened Pcm

  // ---------------------------------------------------------------------------
  // Byte layout (the specification of the encoder)

  /** Little-endian bytes of a 16-bit unsigned value. */
  function LE16(v: int): (b: seq<byte>)
    requires 0 <= v < TWO16
    ensures |b| == 2
  {
    [v % 256, v / 256]
  }

  /** Little-endian bytes of a 32-bit unsigned value. */
  function LE32(v: int): (b: seq<byte>)
    requires 0 <= v < TWO32
    ensures |b| == 4
  {
    [v % 256, (v / 256) % 256, (v / 0x1_0000) % 256, v / 0x100_0000]
  }

  /** The bytes `setUint8` writes for each character code of an ASCII tag. */
  function Ascii(s: string): (b: seq<byte>)
    ensures |b| == |s|
    ensures forall i :: 0 <= i < |s| ==> b[i] == (s[i] as int) % 256
  {
    if s == [] then [] else [(s[0] as int) % 256] + Ascii(s[1..])
  }

  /** setInt16(offset, v, true): ToInt16 truncates toward zero and keeps the low
      16 bits, stored low byte first. */
  function Int16Bytes(v: real): (b: seq<byte>)
    ensures |b| == 2
  {
    var t := Trunc(v);
    [t % 256, (t / 256) % 256]
  }

  /** Those are the bytes of the truncated value taken modulo 2^16 as unsigned,
      which is what setInt16 shares with setUint16. */
  lemma Int16BytesAsUint16(v: real)
    ensures Int16Bytes(v) == LE16(ToUint16(Trunc(v)))
  {
    var t := Trunc(v);
    var u := ToUint16(t);
    assert t == TWO16 * (t / TWO16) + u;
    assert u % 256 == t % 256;
    assert u / 256 == (t / 256) % 256;
  }

  /** The clamp and scale applied to one sample before setInt16. */
  function Scaled(sample: real): (v: real)
    ensures -32768.0 <= v <= 32767.0
  {
    var s := Clamp(-1.0, 1.0, sample);
    if s < 0.0 then s * 32768.0 else s * 32767.0
  }

  /** The integer that ends up stored for a sample. */
  function Quantize(sample: real): int
  {
    Trunc(Scaled(sample))
  }

  function TotalLength(buf: AudioBuffer): int
  {
    buf.Length() * buf.NumberOfChannels() * 2 + 44
  }

  /** The 44-byte header: the RIFF chunk descriptor, the `fmt ` sub-chunk and
      the header of the `data` sub-chunk, each field in the order it is written. */
  function Header(buf: AudioBuffer): (h: seq<byte>)
    ensures |h| == 44
  {
    RiffDescriptor(buf) + FmtChunk(buf) + DataChunkHeader(buf)
  }

  /** "RIFF", the size of the rest of the file (total - 8), "WAVE". */
  function RiffDescriptor(buf: AudioBuffer): (b: seq<byte>)
    ensures |b| == 12
  {
    Ascii("RIFF") + LE32(ToUint32(TotalLength(buf) - 8)) + Ascii("WAVE")
  }

  /** "fmt ", chunk size 16, format 1 (PCM), channel count, sample rate,
      byte rate (sampleRate * channels * 2), block align (channels * 2), 16 bits. */
  function FmtChunk(buf: AudioBuffer): (b: seq<byte>)
    ensures |b| == 24
  {
    var ch := buf.NumberOfChannels();
    Ascii("fmt ") + LE32(16) + LE16(1) + LE16(ToUint16(ch))
    + LE32(ToUint32(buf.sampleRate)) + LE32(ToUint32(buf.sampleRate * ch * 2))
    + LE16(ToUint16(ch * 2)) + LE16(16)
  }

  /** "data" and the size of the sample data (total - 44). */
  function DataChunkHeader(buf: AudioBuffer): (b: seq<byte>)
    ensures |b| == 8
  {
    Ascii("data") + LE32(ToUint32(TotalLength(buf) - 44))
  }

  /** The bytes of channels 0 .. c-1 of frame i. */
  function FrameBytes(buf: AudioBuffer, i: nat, c: nat): (b: seq<byte>)
    requires buf.WellFormed() && i < buf.Length() && c <= buf.NumberOfChannels()
    ensures |b| == 2 * c
  {
    if c == 0 then [] else FrameBytes(buf, i, c - 1) + Int16Bytes(Scaled(buf.channels[c - 1][i]))
  }

  /** The bytes of frames 0 .. n-1, channels interleaved within each frame. */
  function Frames(buf: AudioBuffer, n: nat): (b: seq<byte>)
    requires buf.WellFormed() && n <= buf.Length()
  {
    if n == 0 then [] else Frames(buf, n - 1) + FrameBytes(buf, n - 1, buf.NumberOfChannels())
  }

  /** The whole file. */
  function WavFile(buf: AudioBuffer): seq<byte>
    requires buf.WellFormed()
  {
    Header(buf) + Frames(buf, buf.Length())
  }

  // ---------------------------------------------------------------------------
  // Reading the layout back

  function ReadU16(s: seq<byte>, off: nat): int
    requires off + 2 <= |s|
  {
    s[off] as int + 256 * (s[off + 1] as int)
  }

  function ReadU32(s: seq<byte>, off: nat): int
    requires off + 4 <= |s|
  {
    s[off] as int + 256 * (s[off + 1] as int) + 0x1_0000 * (s[off + 2] as int) + 0x100_0000 * (s[off + 3] as int)
  }

  /** A little-endian two's-complement 16-bit value. */
  function ReadI16(s: seq<byte>, off: nat): int
    requires off + 2 <= |s|
  {
    var u := ReadU16(s, off);
    if u >= 0x8000 then u - TWO16 else u
  }

  lemma LE16RoundTrip(v: int)
    requires 0 <= v < TWO16
    ensures ReadU16(LE16(v), 0) == v
  {
  }

  lemma LE32RoundTrip(v: int)
    requires 0 <= v < TWO32
    ensures ReadU32(LE32(v), 0) == v
  {
    var b := LE32(v);
    var q1, q2 := v / 256, v / 0x1_0000;
    assert q2 == q1 / 256;
    assert v == b[0] + 256 * q1;
    assert q1 == b[1] + 256 * q2;
    assert q2 == b[2] as int + 256 * (b[3] as int);
  }

  /** The bytes setInt16 writes for an in-range integer read back as that integer. */
  lemma Int16RoundTrip(q: int)
    requires -0x8000 <= q < 0x8000
    ensures ReadI16(LE16(ToUint16(q)), 0) == q
  {
    LE16RoundTrip(ToUint16(q));
  }

  // ---------------------------------------------------------------------------
  // Properties of the file

  /** Every stored sample is the clamped, scaled sample truncated toward zero:
      it fits in int16, keeps the sign, and lies within one step of the scaled value. */
  lemma QuantizeRange(sample: real)
    ensures -0x8000 <= Quantize(sample) <= 0x7FFF
    ensures sample >= 0.0 ==> 0 <= Quantize(sample)
    ensures sample <= 0.0 ==> Quantize(sample) <= 0
    ensures -1.0 < Scaled(sample) - Quantize(sample) as real < 1.0
    ensures sample >= 1.0 ==> Quantize(sample) == 0x7FFF
    ensures sample <= -1.0 ==> Quantize(sample) == -0x8000
  {
    TruncBounds(Scaled(sample));
  }

  /** Two bytes per sample per channel. */
  lemma {:induction false} FramesLength(buf: AudioBuffer, n: nat)
    requires buf.WellFormed() && n <= buf.Length()
    ensures |Frames(buf, n)| == 2 * (n * buf.NumberOfChannels())
    decreases n
  {
    if n > 0 {
      FramesLength(buf, n - 1);
      var ch := buf.NumberOfChannels();
      assert (n - 1) * ch + ch == n * ch;
    }
  }

  /** The file is the header followed by two bytes per sample per channel. */
  lemma WavLength(buf: AudioBuffer)
    requires buf.WellFormed()
    ensures |WavFile(buf)| == buf.Length() * buf.NumberOfChannels() * 2 + 44
    ensures WavFile(buf)[..44] == Header(buf)
  {
    var n, ch := buf.Length(), buf.NumberOfChannels();
    FramesLength(buf, n);
    assert 2 * (n * ch) == n * ch * 2;
  }

  /** The bytes of LE16(v), wherever they sit, read back as v. */
  lemma ReadU16Of(a: seq<byte>, v: int, b: seq<byte>)
    requires 0 <= v < TWO16
    ensures ReadU16(a + LE16(v) + b, |a|) == v
  {
    LE16RoundTrip(v);
    var s := a + LE16(v) + b;
    assert s[|a|] == LE16(v)[0] && s[|a| + 1] == LE16(v)[1];
  }

  /** The bytes of LE32(v), wherever they sit, read back as v. */
  lemma ReadU32Of(a: seq<byte>, v: int, b: seq<byte>)
    requires 0 <= v < TWO32
    ensures ReadU32(a + LE32(v) + b, |a|) == v
  {
    LE32RoundTrip(v);
    var s := a + LE32(v) + b;
    assert s[|a|] == LE32(v)[0] && s[|a| + 1] == LE32(v)[1];
    assert s[|a| + 2] == LE32(v)[2] && s[|a| + 3] == LE32(v)[3];
  }

  /** Reading at j in x is reading at |a| + j in a + x + b. */
  lemma Window(a: seq<byte>, x: seq<byte>, b: seq<byte>, j: nat)
    requires j + 4 <= |x|
    ensures ReadU32(a + x + b, |a| + j) == ReadU32(x, j)
    ensures (a + x + b)[|a| + j .. |a| + j + 4] == x[j .. j + 4]
  {
    var s := a + x + b;
    assert s[|a| + j] == x[j] && s[|a| + j + 1] == x[j + 1];
    assert s[|a| + j + 2] == x[j + 2] && s[|a| + j + 3] == x[j + 3];
  }

  lemma Window16(a: seq<byte>, x: seq<byte>, b: seq<byte>, j: nat)
    requires j + 2 <= |x|
    ensures ReadU16(a + x + b, |a| + j) == ReadU16(x, j)
  {
    var s := a + x + b;
    assert s[|a| + j] == x[j] && s[|a| + j + 1] == x[j + 1];
  }

  lemma RiffFields(buf: AudioBuffer)
    ensures var r := RiffDescriptor(buf);
      r[0..4] == Ascii("RIFF") && ReadU32(r, 4) == ToUint32(TotalLength(buf) - 8) && r[8..12] == Ascii("WAVE")
  {
    ReadU32Of(Ascii("RIFF"), ToUint32(TotalLength(buf) - 8), Ascii("WAVE"));
  }

  lemma FmtFields(buf: AudioBuffer)
    ensures var f, sr, ch := FmtChunk(buf), buf.sampleRate, buf.NumberOfChannels();
      && f[0..4] == Ascii("fmt ")
      && ReadU32(f, 4) == 16 && ReadU16(f, 8) == 1 && ReadU16(f, 10) == ToUint16(ch)
      && ReadU32(f, 12) == ToUint32(sr) && ReadU32(f, 16) == ToUint32(sr * ch * 2)
      && ReadU16(f, 20) == ToUint16(ch * 2) && ReadU16(f, 22) == 16
  {
    var sr, ch := buf.sampleRate, buf.NumberOfChannels();
    var t, a, b, c := Ascii("fmt "), LE32(16), LE16(1), LE16(ToUint16(ch));
    var d, e, g, k := LE32(ToUint32(sr)), LE32(ToUint32(sr * ch * 2)), LE16(ToUint16(ch * 2)), LE16(16);
    assert FmtChunk(buf) == t + a + (b + c + d + e + g + k);
    ReadU32Of(t, 16, b + c + d + e + g + k);
    assert FmtChunk(buf) == t + a + b + (c + d + e + g + k);
    ReadU16Of(t + a, 1, c + d + e + g + k);
    assert FmtChunk(buf) == t + a + b + c + (d + e + g + k);
    ReadU16Of(t + a + b, ToUint16(ch), d + e + g + k);
    assert FmtChunk(buf) == t + a + b + c + d + (e + g + k);
    ReadU32Of(t + a + b + c, ToUint32(sr), e + g + k);
    assert FmtChunk(buf) == t + a + b + c + d + e + (g + k);
    ReadU32Of(t + a + b + c + d, ToUint32(sr * ch * 2), g + k);
    assert FmtChunk(buf) == t + a + b + c + d + e + g + k;
    ReadU16Of(t + a + b + c + d + e, ToUint16(ch * 2), k);
    ReadU16Of(t + a + b + c + d + e + g, 16, []);
    assert t + a + b + c + d + e + g + k + [] == FmtChunk(buf);
  }

  lemma DataFields(buf: AudioBuffer)
    ensures var d := DataChunkHeader(buf);
      d[0..4] == Ascii("data") && ReadU32(d, 4) == ToUint32(TotalLength(buf) - 44)
  {
    ReadU32Of(Ascii("data"), ToUint32(TotalLength(buf) - 44), []);
    assert Ascii("data") + LE32(ToUint32(TotalLength(buf) - 44)) + [] == DataChunkHeader(buf);
  }

  /** The tags sit at offsets 0, 8, 12 and 36, and every numeric field reads back
      (little-endian) as the value written: RIFF size = total - 8, fmt size 16,
      format 1 (PCM), the channel count, the sample rate, byte rate sr*ch*2,
      block align ch*2, 16 bits per sample, data size = total - 44, each taken
      modulo the field's width as DataView does. */
  lemma WavHeaderFields(buf: AudioBuffer)
    requires buf.WellFormed()
    ensures var w, total, ch := WavFile(buf), TotalLength(buf), buf.NumberOfChannels();
      && |w| >= 44
      && w[0..4] == Ascii("RIFF") && w[8..12] == Ascii("WAVE")
      && w[12..16] == Ascii("fmt ") && w[36..40] == Ascii("data")
      && ReadU32(w, 4) == ToUint32(total - 8)
      && ReadU32(w, 16) == 16
      && ReadU16(w, 20) == 1
      && ReadU16(w, 22) == ToUint16(ch)
      && ReadU32(w, 24) == ToUint32(buf.sampleRate)
      && ReadU32(w, 28) == ToUint32(buf.sampleRate * ch * 2)
      && ReadU16(w, 32) == ToUint16(ch * 2)
      && ReadU16(w, 34) == 16
      && ReadU32(w, 40) == ToUint32(total - 44)
  {
    WavRiffFields(buf);
    WavFmtFields(buf);
    WavDataFields(buf);
  }

  lemma WavRiffFields(buf: AudioBuffer)
    requires buf.WellFormed()
    ensures var w := WavFile(buf);
      && |w| >= 44
      && w[0..4] == Ascii("RIFF") && ReadU32(w, 4) == ToUint32(TotalLength(buf) - 8) && w[8..12] == Ascii("WAVE")
  {
    var r, rest := RiffDescriptor(buf), FmtChunk(buf) + DataChunkHeader(buf) + Frames(buf, buf.Length());
    RiffFields(buf);
    assert WavFile(buf) == [] + r + rest;
    Window([], r, rest, 0);
    Window([], r, rest, 4);
    Window([], r, rest, 8);
  }

  lemma WavFmtFields(buf: AudioBuffer)
    requires buf.WellFormed()
    ensures var w, sr, ch := WavFile(buf), buf.sampleRate, buf.NumberOfChannels();
      && |w| >= 44
      && w[12..16] == Ascii("fmt ")
      && ReadU32(w, 16) == 16 && ReadU16(w, 20) == 1 && ReadU16(w, 22) == ToUint16(ch)
      && ReadU32(w, 24) == ToUint32(sr) && ReadU32(w, 28) == ToUint32(sr * ch * 2)
      && ReadU16(w, 32) == ToUint16(ch * 2) && ReadU16(w, 34) == 16
  {
    var r, f, rest := RiffDescriptor(buf), FmtChunk(buf), DataChunkHeader(buf) + Frames(buf, buf.Length());
    FmtFields(buf);
    assert WavFile(buf) == r + f + rest;
    Window(r, f, rest, 0);
    Window(r, f, rest, 4);
    Window16(r, f, rest, 8);
    Window16(r, f, rest, 10);
    Window(r, f, rest, 12);
    Window(r, f, rest, 16);
    Window16(r, f, rest, 20);
    Window16(r, f, rest, 22);
  }

  lemma WavDataFields(buf: AudioBuffer)
    requires buf.WellFormed()
    ensures var w := WavFile(buf);
      |w| >= 44 && w[36..40] == Ascii("data") && ReadU32(w, 40) == ToUint32(TotalLength(buf) - 44)
  {
    var front, d, body := RiffDescriptor(buf) + FmtChunk(buf), DataChunkHeader(buf), Frames(buf, buf.Length());
    DataFields(buf);
    assert WavFile(buf) == front + d + body;
    Window(front, d, body, 0);
    Window(front, d, body, 4);
  }

  /** When the file is under 4 GiB, the two size fields hold the sizes exactly. */
  lemma WavSizesExact(buf: AudioBuffer)
    requires buf.WellFormed()
    requires TotalLength(buf) < TWO32
    ensures var w := WavFile(buf);
      ReadU32(w, 4) == |w| - 8 && ReadU32(w, 40) == |w| - 44
  {
    WavLength(buf);
    WavRiffFields(buf);
    WavDataFields(buf);
  }

  /** When they fit their fields, channel count, byte rate and block align are exact. */
  lemma WavFormatExact(buf: AudioBuffer)
    requires buf.WellFormed()
    requires buf.sampleRate * buf.NumberOfChannels() * 2 < TWO32
    requires buf.NumberOfChannels() * 2 < TWO16
    ensures var w, ch := WavFile(buf), buf.NumberOfChannels();
      && ReadU16(w, 22) == ch
      && ReadU32(w, 28) == buf.sampleRate * ch * 2
      && ReadU16(w, 32) == ch * 2
  {
    FieldsFit(buf.sampleRate, buf.NumberOfChannels());
    WavFmtFields(buf);
  }

  /** What a file of `frames` stereo 16-bit frames at `rate` reads as: its
      length, its two channels, its rate, byte rate and block align, and the
      size of its sample data. */
  ghost predicate StereoPcm16(w: seq<byte>, rate: nat, frames: nat)
  {
    && |w| == 44 + 4 * frames
    && ReadU16(w, 20) == 1 && ReadU16(w, 22) == 2
    && ReadU32(w, 24) == rate && ReadU32(w, 28) == rate * 4
    && ReadU16(w, 32) == 4 && ReadU16(w, 34) == 16
    && ReadU32(w, 40) == ToUint32(4 * frames)
  }

  /** The WAV of a stereo buffer at a rate below 2^30 is a stereo 16-bit file
      of that rate and of the buffer's length. */
  lemma StereoLayout(buf: AudioBuffer)
    requires buf.WellFormed() && buf.NumberOfChannels() == 2 && buf.sampleRate < 0x4000_0000
    ensures StereoPcm16(WavFile(buf), buf.sampleRate, buf.Length())
  {
    var n := buf.Length();
    WavLength(buf);
    WavFormatExact(buf);
    WavFmtFields(buf);
    WavDataFields(buf);
    assert TotalLength(buf) - 44 == 4 * n;
  }

  lemma FieldsFit(sr: nat, ch: nat)
    requires sr * ch * 2 < TWO32 && ch * 2 < TWO16
    ensures ToUint16(ch) == ch && ToUint32(sr * ch * 2) == sr * ch * 2 && ToUint16(ch * 2) == ch * 2
  {
    var rate := sr * ch;
    assert rate >= 0;
  }

  lemma {:induction false} FrameBytesAt(buf: AudioBuffer, i: nat, c: nat, k: nat)
    requires buf.WellFormed() && i < buf.Length() && k < c <= buf.NumberOfChannels()
    ensures FrameBytes(buf, i, c)[2 * k .. 2 * k + 2] == Int16Bytes(Scaled(buf.channels[k][i]))
    decreases c
  {
    if k < c - 1 {
      FrameBytesAt(buf, i, c - 1, k);
      assert FrameBytes(buf, i, c)[2 * k .. 2 * k + 2] == FrameBytes(buf, i, c - 1)[2 * k .. 2 * k + 2];
    }
  }

  lemma {:induction false} FramesAt(buf: AudioBuffer, n: nat, i: nat, c: nat)
    requires buf.WellFormed() && i < n <= buf.Length() && c < buf.NumberOfChannels()
    ensures var k := SampleIndex(buf, i, c);
      2 * k + 2 <= |Frames(buf, n)| &&
      Frames(buf, n)[2 * k .. 2 * k + 2] == Int16Bytes(Scaled(buf.channels[c][i]))
    decreases n
  {
    var ch := buf.NumberOfChannels();
    var k := SampleIndex(buf, i, c);
    assert k == i * ch + c;
    MulStep(i, ch, c);
    var pre := Frames(buf, n - 1);
    var last := FrameBytes(buf, n - 1, ch);
    assert Frames(buf, n) == pre + last;
    FramesLength(buf, n - 1);
    if i < n - 1 {
      MulMono(i + 1, n - 1, ch);
      FramesAt(buf, n - 1, i, c);
      SliceBefore(pre, last, 2 * k);
    } else {
      assert |pre| == 2 * (i * ch);
      FrameBytesAt(buf, i, ch, c);
      SliceAfter(pre, last, 2 * c);
    }
  }

  lemma MulStep(i: nat, ch: nat, c: nat)
    requires c < ch
    ensures i * ch + c < (i + 1) * ch
  {
  }

  lemma MulMono(a: nat, b: nat, ch: nat)
    requires a <= b
    ensures a * ch <= b * ch
  {
  }

  /** Where the sample of frame i, channel c starts: after the header and the
      i * ch + c samples before it. */
  function SampleOffset(buf: AudioBuffer, i: nat, c: nat): nat
  {
    44 + 2 * SampleIndex(buf, i, c)
  }

  /** The position of that sample in the interleaved sample sequence. */
  function SampleIndex(buf: AudioBuffer, i: nat, c: nat): nat
  {
    var before: nat := i * buf.NumberOfChannels();
    before + c
  }

  /** The sample of frame i, channel c is stored at byte 44 + 2*(i*ch + c), and
      reads back as the quantized sample. */
  lemma WavSampleAt(buf: AudioBuffer, i: nat, c: nat)
    requires buf.WellFormed() && i < buf.Length() && c < buf.NumberOfChannels()
    ensures var off := SampleOffset(buf, i, c);
      off + 2 <= |WavFile(buf)| &&
      ReadI16(WavFile(buf), off) == Quantize(buf.channels[c][i])
  {
    var off := SampleOffset(buf, i, c);
    var x := buf.channels[c][i];
    WavBytesAt(buf, i, c);
    Int16BytesAsUint16(Scaled(x));
    QuantizeRange(x);
    SampleReadBack(WavFile(buf), off, Quantize(x));
  }

  /** The two bytes of frame i, channel c in the file. */
  lemma WavBytesAt(buf: AudioBuffer, i: nat, c: nat)
    requires buf.WellFormed() && i < buf.Length() && c < buf.NumberOfChannels()
    ensures var off, w := SampleOffset(buf, i, c), WavFile(buf);
      off + 2 <= |w| && w[off .. off + 2] == Int16Bytes(Scaled(buf.channels[c][i]))
  {
    var k := SampleIndex(buf, i, c);
    var body := Frames(buf, buf.Length());
    FramesAt(buf, buf.Length(), i, c);
    SliceAfter(Header(buf), body, 2 * k);
  }

  lemma SliceBefore(a: seq<byte>, b: seq<byte>, j: nat)
    requires j + 2 <= |a|
    ensures (a + b)[j .. j + 2] == a[j .. j + 2]
  {
  }

  lemma SliceAfter(h: seq<byte>, body: seq<byte>, j: nat)
    requires j + 2 <= |body|
    ensures |h| + j + 2 <= |h + body|
    ensures (h + body)[|h| + j .. |h| + j + 2] == body[j .. j + 2]
  {
  }

  lemma SampleReadBack(s: seq<byte>, off: nat, q: int)
    requires -0x8000 <= q < 0x8000
    requires off + 2 <= |s| && s[off .. off + 2] == LE16(ToUint16(q))
    ensures ReadI16(s, off) == q
  {
    Int16RoundTrip(q);
    assert s[off] == s[off .. off + 2][0] && s[off + 1] == s[off .. off + 2][1];
  }

  lemma WavBody(buf: AudioBuffer)
    requires buf.WellFormed()
    ensures |WavFile(buf)| == 44 + |Frames(buf, buf.Length())|
    ensures WavFile(buf)[44..] == Frames(buf, buf.Length())
  {
    assert |Header(buf)| == 44;
  }

  // ---------------------------------------------------------------------------
  // The encoder, as the source writes it

  /** view.setUint8(offset, v) at the current end of what has been written. */
  method SetUint8(view: array<byte>, offset: nat, v: int)
    requires offset < view.Length
    modifies view
    ensures view[..offset + 1] == old(view[..offset]) + [v % 256]
  {
    view[offset] := v % 256;
  }

  /** view.setUint16(offset, v, true) */
  method SetUint16(view: array<byte>, offset: nat, v: int)
    requires offset + 2 <= view.Length
    modifies view
    ensures view[..offset + 2] == old(view[..offset]) + LE16(ToUint16(v))
  {
    var u := ToUint16(v);
    view[offset] := u % 256;
    view[offset + 1] := u / 256;
  }

  /** view.setUint32(offset, v, true) */
  method SetUint32(view: array<byte>, offset: nat, v: int)
    requires offset + 4 <= view.Length
    modifies view
    ensures view[..offset + 4] == old(view[..offset]) + LE32(ToUint32(v))
  {
    var u := ToUint32(v);
    view[offset] := u % 256;
    view[offset + 1] := (u / 256) % 256;
    view[offset + 2] := (u / 0x1_0000) % 256;
    view[offset + 3] := u / 0x100_0000;
  }

  /** view.setInt16(offset, v, true) */
  method SetInt16(view: array<byte>, offset: nat, v: real)
    requires offset + 2 <= view.Length
    modifies view
    ensures view[..offset + 2] == old(view[..offset]) + Int16Bytes(v)
  {
    SetUint16(view, offset, Trunc(v));
    Int16BytesAsUint16(v);
  }

  /** The body of the inner loop of bufferToWav: clamp the sample to [-1, 1],
      scale it by 32768 (negative) or 32767 and store it with setInt16. */
  method WriteSample(view: array<byte>, offset: nat, sample0: real)
    requires offset + 2 <= view.Length
    modifies view
    ensures view[..offset + 2] == old(view[..offset]) + Int16Bytes(Scaled(sample0))
  {
    var sample := Clamp(-1.0, 1.0, sample0);
    SetInt16(view, offset, if sample < 0.0 then sample * 32768.0 else sample * 32767.0);
  }

  /** writeString: one setUint8 per character code. */
  method WriteString(view: array<byte>, offset: nat, s: string)
    requires offset + |s| <= view.Length
    modifies view
    ensures view[..offset + |s|] == old(view[..offset]) + Ascii(s)
  {
    for i := 0 to |s|
      invariant view[..offset + i] == old(view[..offset]) + Ascii(s)[..i]
    {
      SetUint8(view, offset + i, s[i] as int);
      assert Ascii(s)[..i + 1] == Ascii(s)[..i] + [(s[i] as int) % 256];
    }
  }

  /** The header writes of bufferToWav, in the order the source makes them. */
  method WriteHeader(view: array<byte>, buf: AudioBuffer)
    requires view.Length == TotalLength(buf)
    modifies view
    ensures view[..44] == Header(buf)
  {
    var length := view.Length;
    WriteRiffDescriptor(view, buf, length);
    WriteFmtChunk(view, buf);
    WriteDataChunkHeader(view, buf, length);
    AppendAssoc(RiffDescriptor(buf), FmtChunk(buf), DataChunkHeader(buf));
  }

  method WriteRiffDescriptor(view: array<byte>, buf: AudioBuffer, length: int)
    requires length == view.Length == TotalLength(buf)
    modifies view
    ensures view[..12] == RiffDescriptor(buf)
  {
    WriteString(view, 0, "RIFF");
    SetUint32(view, 4, length - 8);
    WriteString(view, 8, "WAVE");
  }

  method WriteFmtChunk(view: array<byte>, buf: AudioBuffer)
    requires 36 <= view.Length
    modifies view
    ensures view[..36] == old(view[..12]) + FmtChunk(buf)
  {
    var numOfChan := buf.NumberOfChannels();
    WriteString(view, 12, "fmt ");
    SetUint32(view, 16, 16);
    SetUint16(view, 20, 1);
    SetUint16(view, 22, numOfChan);
    SetUint32(view, 24, buf.sampleRate);
    SetUint32(view, 28, buf.sampleRate * numOfChan * 2);
    SetUint16(view, 32, numOfChan * 2);
    SetUint16(view, 34, 16);
  }

  method WriteDataChunkHeader(view: array<byte>, buf: AudioBuffer, length: int)
    requires length == view.Length == TotalLength(buf)
    modifies view
    ensures view[..44] == old(view[..36]) + DataChunkHeader(buf)
  {
    WriteString(view, 36, "data");
    SetUint32(view, 40, length - 44);
  }

  /** One pass of the inner loop of bufferToWav: the samples of frame i, channel
      after channel, clamped to [-1, 1], scaled and written with setInt16 after
      the header and the frames before it. */
  method WriteFrame(view: array<byte>, buf: AudioBuffer, i: nat, offset0: nat, ghost prefix: seq<byte>)
    returns (offset: nat)
    requires buf.WellFormed() && i < buf.Length()
    requires offset0 + 2 * buf.NumberOfChannels() <= view.Length && view[..offset0] == prefix
    modifies view
    ensures offset == offset0 + 2 * buf.NumberOfChannels()
    ensures view[..offset] == prefix + FrameBytes(buf, i, buf.NumberOfChannels())
  {
    var numOfChan := buf.NumberOfChannels();
    offset := offset0;
    var channel := 0;
    while channel < numOfChan
      invariant 0 <= channel <= numOfChan
      invariant offset == offset0 + 2 * channel
      invariant view[..offset] == prefix + FrameBytes(buf, i, channel)
    {
      ghost var bytes := Int16Bytes(Scaled(buf.channels[channel][i]));
      assert FrameBytes(buf, i, channel + 1) == FrameBytes(buf, i, channel) + bytes;
      AppendAssoc(prefix, FrameBytes(buf, i, channel), bytes);
      WriteSample(view, offset, buf.channels[channel][i]);
      offset := offset + 2;
      channel := channel + 1;
    }
  }

  /** bufferToWav */
  method BufferToWav(buf: AudioBuffer) returns (blob: seq<byte>)
    requires buf.WellFormed()
    ensures blob == WavFile(buf)
    ensures buf.NumberOfChannels() == 2 && buf.sampleRate < 0x4000_0000 ==>
      StereoPcm16(blob, buf.sampleRate, buf.Length())
  {
    var length := TotalLength(buf);
    FramesFill(buf);
    var view := new byte[length];
    WriteHeader(view, buf);
    WriteFrames(view, buf);
    blob := view[..];
    if buf.NumberOfChannels() == 2 && buf.sampleRate < 0x4000_0000 {
      StereoLayout(buf);
    }
  }

  /** The outer loop of bufferToWav: frame after frame from offset 44 on. */
  method WriteFrames(view: array<byte>, buf: AudioBuffer)
    requires buf.WellFormed() && view.Length == 44 + |Frames(buf, buf.Length())|
    modifies view
    ensures view[..] == old(view[..44]) + Frames(buf, buf.Length())
  {
    var frames := buf.Length();
    ghost var header := view[..44];
    var offset := 44;
    var i := 0;
    while i < frames
      invariant FramesWritten(view[..], buf, header, i, offset)
    {
      offset := WriteNextFrame(view, buf, i, offset, header);
      i := i + 1;
    }
    FullSlice(view[..], offset);
  }

  /** The state between two passes of the outer loop: the header and the
      first i frames are in place, and offset is where the next frame goes. */
  ghost predicate FramesWritten(s: seq<byte>, buf: AudioBuffer, header: seq<byte>, i: nat, offset: nat)
  {
    && buf.WellFormed() && i <= buf.Length() && |header| == 44
    && |s| == 44 + |Frames(buf, buf.Length())|
    && offset == 44 + |Frames(buf, i)| <= |s|
    && s[..offset] == header + Frames(buf, i)
  }

  lemma FullSlice(s: seq<byte>, n: nat)
    requires n == |s|
    ensures s[..n] == s
  {
  }

  /** One pass of the outer loop: frame i goes after the header and frames 0 .. i-1. */
  method WriteNextFrame(view: array<byte>, buf: AudioBuffer, i: nat, offset0: nat, ghost header: seq<byte>)
    returns (offset: nat)
    requires i < buf.Length() && FramesWritten(view[..], buf, header, i, offset0)
    modifies view
    ensures i + 1 <= buf.Length() && FramesWritten(view[..], buf, header, i + 1, offset)
  {
    ghost var done := header + Frames(buf, i);
    FramesAdvance(buf, header, i);
    assert view[..offset0] == view[..][..offset0];
    offset := WriteFrame(view, buf, i, offset0, done);
    assert view[..offset] == view[..][..offset];
  }

  /** The header and all the frames fill the buffer exactly. */
  lemma FramesFill(buf: AudioBuffer)
    requires buf.WellFormed()
    ensures TotalLength(buf) == 44 + |Frames(buf, buf.Length())|
  {
    var n, ch := buf.Length(), buf.NumberOfChannels();
    FramesLength(buf, n);
    assert n * ch * 2 == 2 * (n * ch);
  }

  lemma AppendAssoc(a: seq<byte>, b: seq<byte>, c: seq<byte>)
    ensures a + b + c == a + (b + c)
  {
  }

  /** What one pass of the outer loop needs: the next frame fits and extends
      the bytes written so far to those of one more frame. */
  lemma FramesAdvance(buf: AudioBuffer, h: seq<byte>, i: nat)
    requires buf.WellFormed() && i < buf.Length()
    ensures |h| + |Frames(buf, i)| + 2 * buf.NumberOfChannels() == |h| + |Frames(buf, i + 1)|
    ensures |Frames(buf, i + 1)| <= |Frames(buf, buf.Length())|
    ensures h + Frames(buf, i) + FrameBytes(buf, i, buf.NumberOfChannels()) == h + Frames(buf, i + 1)
  {
    FramesGrow(buf, i + 1, buf.Length());
    FramesStep(buf, h, i);
  }

  lemma FramesStep(buf: AudioBuffer, h: seq<byte>, i: nat)
    requires buf.WellFormed() && i < buf.Length()
    ensures h + Frames(buf, i + 1) == h + Frames(buf, i) + FrameBytes(buf, i, buf.NumberOfChannels())
    ensures |Frames(buf, i + 1)| == |Frames(buf, i)| + 2 * buf.NumberOfChannels()
  {
    AppendAssoc(h, Frames(buf, i), FrameBytes(buf, i, buf.NumberOfChannels()));
  }

  /** Fewer frames take fewer bytes. */
  lemma FramesGrow(buf: AudioBuffer, m: nat, n: nat)
    requires buf.WellFormed() && m <= n <= buf.Length()
    ensures |Frames(buf, m)| <= |Frames(buf, n)|
  {
    FramesLength(buf, m);
    FramesLength(buf, n);
    MulMono(m, n, buf.NumberOfChannels());
  }
}
