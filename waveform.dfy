/** The player's visualiser (Waveform): the time display, the bass and
    treble levels read from the analyser's byte spectrum, the emoji and its
    pulse, the 64 spectrum bars, and seeking by clicking the bar. The canvas
    drawing itself is not modelled. */
module Waveform {
  import opened Numbers
  import opened Text

  // ---- formatTime ----

  /** The minutes, seconds and tenths formatTime shows:
      Math.floor(t / 60), Math.floor(t % 60), Math.floor((t % 1) * 10). */
  function Minutes(t: real): int { Floor(t / 60.0) }
  function Seconds(t: real): int { Floor(JsRem(t, 60.0)) }
  function Tenths(t: real): int { Floor(JsRem(t, 1.0) * 10.0) }

  /** `${mins}:${secs.toString().padStart(2, '0')}.${ms}` */
  function Clock(mins: int, secs: int, ms: int): string
  {
    IntStr(mins) + ":" + PadStart(IntStr(secs), 2, '0') + "." + IntStr(ms)
  }

  /** formatTime: "0:00" for NaN, otherwise the clock text of t. */
  function FormatTime(t: Number): string
  {
    if t.NaN? then "0:00" else Clock(Minutes(t.v), Seconds(t.v), Tenths(t.v))
  }

  lemma FormatTimeNaN()
    ensures FormatTime(NaN) == "0:00"
  {
  }

  /** For t >= 0, the seconds lie in [0, 60) and the tenths in [0, 10), and
      together with the minutes they are t cut down to a tenth of a second:
      the display is never ahead of t and less than 0.1 s behind. */
  lemma {:induction false} FormatTimeFields(t: real)
    requires t >= 0.0
    ensures var m, s, d := Minutes(t), Seconds(t), Tenths(t);
      && m >= 0 && 0 <= s < 60 && 0 <= d < 10
      && (60 * m + s) as real + d as real / 10.0 <= t
      && t < (60 * m + s) as real + d as real / 10.0 + 0.1
  {
    var m := Minutes(t);
    var r := JsRem(t, 60.0);
    assert r == 60.0 * (t / 60.0 - m as real);
    assert t == 60.0 * m as real + r;
    var s := Seconds(t);
    var f := JsRem(t, 1.0);
    assert f == t - Floor(t) as real;
    FloorShift(60 * m, r);
    assert Floor(t) == 60 * m + s;
    var d := Tenths(t);
    assert 0.0 <= f < 1.0;
    assert d as real <= f * 10.0 < d as real + 1.0;
  }

  /** The floor of an integer plus x is the integer plus the floor of x. */
  lemma FloorShift(k: int, x: real)
    ensures Floor(k as real + x) == k + Floor(x)
  {
  }

  /** The text of a time t >= 0 is the minutes, a colon, the seconds as
      exactly two digits, a point and one digit of tenths. */
  lemma FormatTimeText(t: real)
    requires t >= 0.0
    ensures var s := Seconds(t);
      && 0 <= Minutes(t) && 0 <= s < 60 && 0 <= Tenths(t) < 10
      && FormatTime(Num(t)) ==
           NatStr(Minutes(t)) + ":" + SecondsText(s) + "." + [DigitChar(Tenths(t))]
      && |SecondsText(s)| == 2 && AllDigits(SecondsText(s)) && DigitsValue(SecondsText(s)) == s
  {
    FormatTimeFields(t);
    var m, s, d := Minutes(t), Seconds(t), Tenths(t);
    SecondsTextValue(s);
    FormatTimeOf(t, m, s, d);
  }

  lemma FormatTimeOf(t: real, m: nat, s: nat, d: nat)
    requires m == Minutes(t) && s == Seconds(t) && d == Tenths(t) && d < 10
    ensures FormatTime(Num(t)) == NatStr(m) + ":" + SecondsText(s) + "." + [DigitChar(d)]
  {
    assert FormatTime(Num(t)) == Clock(m, s, d);
    assert IntStr(m) == NatStr(m) && IntStr(s) == NatStr(s) && IntStr(d) == NatStr(d);
    assert NatStr(d) == [DigitChar(d)];
  }

  /** secs.toString().padStart(2, '0') for 0 <= secs < 60. */
  function SecondsText(s: nat): string
  {
    PadStart(NatStr(s), 2, '0')
  }

  lemma SecondsTextValue(s: nat)
    requires s < 60
    ensures |SecondsText(s)| == 2 && AllDigits(SecondsText(s)) && DigitsValue(SecondsText(s)) == s
  {
    var p := SecondsText(s);
    NatStrRoundTrip(s);
    if s < 10 {
      assert p == "0" + NatStr(s);
      assert p[..1] == "0";
      assert DigitsValue(p[..1]) == 0 by {
        assert p[..1][..0] == [];
      }
    } else {
      NatStrTwoDigits(s);
    }
  }

  // ---- Bass and treble ----

  /** The sum of a run of byte levels. */
  function Sum(s: seq<byte>): (n: nat)
    ensures n <= 255 * |s|
  {
    if s == [] then 0 else Sum(s[..|s| - 1]) + s[|s| - 1]
  }

  /** The mean level of bins [lo, hi), NaN (0 / 0) for an empty range. */
  function Mean(data: seq<byte>, lo: nat, hi: nat): (r: Number)
    requires lo <= hi <= |data|
    ensures r.NaN? <==> lo == hi
    ensures r.Num? ==> 0.0 <= r.v <= 255.0
  {
    var total := Sum(data[lo..hi]);
    if lo == hi then NaN
    else
      MeanBound(total, hi - lo);
      Num(total as real / (hi - lo) as real)
  }

  lemma MeanBound(total: nat, k: nat)
    requires k > 0 && total <= 255 * k
    ensures 0.0 <= total as real / k as real <= 255.0
  {
    assert (total as real / k as real) * k as real == total as real;
    if total as real / k as real > 255.0 {
      assert (total as real / k as real) * k as real > 255.0 * k as real;
    }
  }

  /** bassLimit = floor(n * 0.1): the first tenth of the bins. */
  function BassLimit(n: nat): (k: nat)
    ensures k <= n
  {
    Floor(n as real * 0.1)
  }

  /** trebleStart = floor(n * 0.7): the top three tenths of the bins. */
  function TrebleStart(n: nat): (k: nat)
    ensures k <= n
    ensures n > 0 ==> k < n
  {
    Floor(n as real * 0.7)
  }

  /** The loops of the render callback: sum the bass bins and the treble
      bins and divide each by its count; with no analyser both stay 0. */
  method BandLevels(analyser: Option<seq<byte>>) returns (bass: Number, treble: Number)
    ensures analyser.None? ==> bass == Num(0.0) && treble == Num(0.0)
    ensures analyser.Some? ==>
      var data := analyser.value;
      bass == Mean(data, 0, BassLimit(|data|)) && treble == Mean(data, TrebleStart(|data|), |data|)
  {
    if analyser.None? {
      return Num(0.0), Num(0.0);
    }
    var data := analyser.value;
    var bufferLength := |data|;
    var bassLimit := BassLimit(bufferLength);
    var bassSum := BinSum(data, 0, bassLimit);
    bass := Div(bassSum as real, bassLimit as real);
    var trebleStart := TrebleStart(bufferLength);
    var trebleSum := BinSum(data, trebleStart, bufferLength);
    treble := Div(trebleSum as real, (bufferLength - trebleStart) as real);
  }

  /** One of the two accumulation loops: the sum of bins lo .. hi-1. */
  method BinSum(data: seq<byte>, lo: nat, hi: nat) returns (sum: nat)
    requires lo <= hi <= |data|
    ensures sum == Sum(data[lo..hi])
  {
    sum := 0;
    for i := lo to hi
      invariant sum == Sum(data[lo..i])
    {
      assert data[lo..i + 1][..i - lo] == data[lo..i];
      sum := sum + data[i];
    }
  }

  /** The bass level is NaN exactly when there are fewer than 10 bins, the
      treble level exactly when there are none; otherwise both are byte
      levels in [0, 255]. */
  lemma BandLevelsDefined(data: seq<byte>)
    ensures Mean(data, 0, BassLimit(|data|)).NaN? <==> |data| < 10
    ensures Mean(data, TrebleStart(|data|), |data|).NaN? <==> |data| == 0
  {
    if |data| >= 10 {
      assert |data| as real * 0.1 >= 1.0;
    }
  }

  // ---- Emoji and pulse ----

  const Music: string := "\U{1F3B5}"
  const Fire: string := "\U{1F525}"
  const MindBlown: string := "\U{1F92F}"
  const Sparkles: string := "\U{2728}"

  /** beat = bass / 255 */
  function Beat(bass: Number): Number
  {
    if bass.NaN? then NaN else Num(bass.v / 255.0)
  }

  /** scale = 1 + beat * 0.8 */
  function Scale(beat: Number): Number
  {
    if beat.NaN? then NaN else Num(1.0 + beat.v * 0.8)
  }

  /** A byte-range bass level gives a beat in [0, 1] and an emoji scaled by
      a factor in [1, 1.8], growing with the bass. */
  lemma PulseBounds(b1: real, b2: real)
    requires 0.0 <= b1 <= b2 <= 255.0
    ensures 0.0 <= Beat(Num(b1)).v <= 1.0
    ensures 1.0 <= Scale(Beat(Num(b1))).v <= 1.8
    ensures Scale(Beat(Num(b1))).v <= Scale(Beat(Num(b2))).v
  {
  }

  /** The emoji the code picks, as one rule: sparkles for strong treble,
      whatever the beat; otherwise by the beat, the strongest first. */
  function EmojiFor(beat: Number, treble: Number): string
  {
    if treble.Gt(150.0) then Sparkles
    else if beat.Gt(0.8) then MindBlown
    else if beat.Gt(0.6) then Fire
    else Music
  }

  /** The emoji selection: a default, overwritten in turn by each test that
      passes. */
  method ChooseEmoji(beat: Number, treble: Number) returns (emoji: string)
    ensures emoji == EmojiFor(beat, treble)
  {
    emoji := Music;
    if beat.Gt(0.6) {
      emoji := Fire;
    }
    if beat.Gt(0.8) {
      emoji := MindBlown;
    }
    if treble.Gt(150.0) {
      emoji := Sparkles;
    }
  }

  /** The emoji's canvas glow: overlaid only when the bass exceeds 100,
      with opacity bass / 500. Every glow is brighter than 0.2, a byte-range
      bass never makes it brighter than 0.51, and a NaN level never glows. */
  function OverlayAlpha(bass: Number): (a: Option<real>)
    ensures bass.NaN? ==> a.None?
    ensures bass.Num? && bass.v > 100.0 ==> a.Some?
    ensures a.Some? ==> 0.2 < a.value
    ensures a.Some? && bass.v <= 255.0 ==> a.value <= 0.51
  {
    if bass.Gt(100.0) then Some(bass.v / 500.0) else None
  }

  /** A louder bass glows whenever a quieter one does, and at least as
      brightly. */
  lemma OverlayMonotone(b1: real, b2: real)
    requires b1 <= b2
    ensures OverlayAlpha(Num(b1)).Some? ==>
      OverlayAlpha(Num(b2)).Some? && OverlayAlpha(Num(b1)).value <= OverlayAlpha(Num(b2)).value
  {
  }

  /** Without analyser data (NaN levels) the emoji is the default note. */
  lemma SilentEmoji()
    ensures EmojiFor(NaN, NaN) == Music
    ensures EmojiFor(Beat(NaN), NaN) == Music
  {
  }

  // ---- Bars ----

  /** The number of bars drawn. */
  const Bars: nat := 64

  datatype Bar = Bar(x: real, y: real, width: real, height: real, red: int, green: int, blue: int, alpha: real)

  /** `dataIndex = Math.floor((i / bars) * frequencyBinCount)` */
  function DataIndex(i: nat, n: nat): (k: nat)
    requires i < Bars
    ensures n > 0 ==> k < n
  {
    assert i as real / Bars as real < 1.0;
    StrideBelow(i as real / Bars as real, n);
    Floor((i as real / Bars as real) * n as real)
  }

  lemma StrideBelow(f: real, n: nat)
    requires 0.0 <= f < 1.0
    ensures 0.0 <= f * n as real
    ensures n > 0 ==> f * n as real < n as real
  {
  }

  /** `dataArray[dataIndex] || 0` */
  function BarValue(data: seq<byte>, i: nat): byte
    requires i < Bars
  {
    var k := DataIndex(i, |data|);
    if k < |data| then data[k] else 0
  }

  /** Bar i of a canvas width x height: its height (val / 255) * 0.8 * height,
      centred on the middle line, and its colour. */
  function BarAt(data: seq<byte>, i: nat, canvasWidth: real, canvasHeight: real): Bar
    requires i < Bars
  {
    var val := BarValue(data, i) as real;
    var barWidth := canvasWidth / Bars as real;
    var h := BarHeight(BarValue(data, i), canvasHeight);
    Bar(i as real * barWidth, canvasHeight / 2.0 - h / 2.0, barWidth - 2.0, h,
        66 + Floor(val * 0.5), 165 - Floor(val * 0.2), 245, val / 255.0)
  }

  /** (val / 255) * (height * 0.8): a bar is at most 80% of the canvas. */
  function BarHeight(v: byte, canvasHeight: real): (h: real)
    ensures canvasHeight >= 0.0 ==> 0.0 <= h <= canvasHeight * 0.8
  {
    var f := v as real / 255.0;
    var full := canvasHeight * 0.8;
    if full >= 0.0 then BarHeightBound(f, full); f * full else f * full
  }

  /** The bar loop: one bar per step, drawn left to right. */
  method DrawBars(data: seq<byte>, canvasWidth: real, canvasHeight: real) returns (bars: seq<Bar>)
    ensures |bars| == Bars
    ensures forall i :: 0 <= i < Bars ==> bars[i] == BarAt(data, i, canvasWidth, canvasHeight)
  {
    bars := [];
    for i := 0 to Bars
      invariant |bars| == i
      invariant forall j :: 0 <= j < i ==> bars[j] == BarAt(data, j, canvasWidth, canvasHeight)
    {
      bars := bars + [BarAt(data, i, canvasWidth, canvasHeight)];
    }
  }

  /** Every bar stays inside the middle 80% of the canvas, and its colour
      components are valid: red in [66, 193], green in [114, 165]. */
  lemma BarGeometry(data: seq<byte>, i: nat, canvasWidth: real, canvasHeight: real)
    requires i < Bars && canvasHeight >= 0.0
    ensures 0.0 <= BarAt(data, i, canvasWidth, canvasHeight).height <= 0.8 * canvasHeight
    ensures var b := BarAt(data, i, canvasWidth, canvasHeight);
      0.1 * canvasHeight <= b.y && b.y + b.height <= 0.9 * canvasHeight
    ensures var b := BarAt(data, i, canvasWidth, canvasHeight);
      66 <= b.red <= 193 && 114 <= b.green <= 165 && b.blue == 245 && 0.0 <= b.alpha <= 1.0
  {
  }

  lemma BarHeightBound(f: real, full: real)
    requires 0.0 <= f <= 1.0 && full >= 0.0
    ensures 0.0 <= f * full <= full
  {
    MulMonotone(0.0, f, full);
    MulMonotone(f, 1.0, full);
  }

  /** A louder bin draws a taller, redder and less green bar. */
  lemma BarMonotone(v: byte, w: byte, canvasHeight: real)
    requires v <= w && canvasHeight >= 0.0
    ensures (v as real / 255.0) * (canvasHeight * 0.8) <= (w as real / 255.0) * (canvasHeight * 0.8)
    ensures 66 + Floor(v as real * 0.5) <= 66 + Floor(w as real * 0.5)
    ensures 165 - Floor(v as real * 0.2) >= 165 - Floor(w as real * 0.2)
  {
    BarHeightBound(v as real / 255.0, canvasHeight * 0.8);
    MulMonotone(v as real / 255.0, w as real / 255.0, canvasHeight * 0.8);
  }

  lemma MulMonotone(a: real, b: real, c: real)
    requires a <= b && c >= 0.0
    ensures a * c <= b * c
  {
  }

  // ---- Seeking ----

  /** handleSeek: nothing when there is no audio element or the duration is
      0 or NaN; otherwise the new playback time (x / width) * duration,
      given to the audio element and to the time display alike. */
  function Seek(hasAudio: bool, duration: Number, x: real, width: real): (t: Option<real>)
    requires width > 0.0
    ensures t.Some? <==> hasAudio && duration.Num? && duration.v != 0.0
  {
    if !hasAudio || duration.NaN? || duration.v == 0.0 then None
    else Some((x / width) * duration.v)
  }

  /** A click inside the bar seeks to the matching point of the track, and
      the click position can be recovered from the time. */
  lemma SeekInRange(duration: real, x: real, width: real)
    requires width > 0.0 && duration > 0.0 && 0.0 <= x <= width
    ensures var t := Seek(true, Num(duration), x, width).value;
      && 0.0 <= t <= duration
      && t / duration * width == x
  {
    var f := x / width;
    assert f * width == x;
    BarHeightBound(f, duration);
  }
}
