/** The slider of the parameter panels (SliderControl): the text shown next
    to its label, and what the slider reports when it is released. */
module Knobs {
  import opened Numbers
  import opened Text

  /** `value > 0 && unit !== 'x' && unit !== 's' ? '+' : ''` */
  function SignPrefix(value: real, unit: string): string
  {
    if value > 0.0 && unit != "x" && unit != "s" then "+" else ""
  }

  /** The integer n for which n / 100 is nearest to x >= 0, the larger one
      on a tie: the rounding of Number.prototype.toFixed(2). */
  function Hundredths(x: real): (n: nat)
    requires x >= 0.0
    ensures n as real - 0.5 <= x * 100.0 < n as real + 0.5
  {
    Floor(x * 100.0 + 0.5)
  }

  /** The digits of n padded with zeros on the left to at least three,
      with the point put before the last two: toFixed's steps for two
      fraction digits. */
  function PointedDigits(n: nat): string
  {
    var m := NatStr(n);
    var padded := if |m| == 1 then "00" + m else if |m| == 2 then "0" + m else m;
    padded[..|padded| - 2] + "." + padded[|padded| - 2..]
  }

  /** value.toFixed(2) for |value| < 10^21: a sign for negative numbers,
      then the rounded magnitude with two decimals. */
  function ToFixed2(x: real): string
    requires -1.0e21 < x < 1.0e21
  {
    if x < 0.0 then "-" + PointedDigits(Hundredths(-x)) else PointedDigits(Hundredths(x))
  }

  /** What `/[.,]00$/` matches: a point or a comma, then two zeros. */
  predicate ZeroFraction(t: string)
  {
    |t| == 3 && (t[0] == '.' || t[0] == ',') && t[1..] == "00"
  }

  /** `.replace(/[.,]00$/, '')`: the result is a prefix of the text, which
      is kept whole exactly when it does not end in ".00" or ",00", and
      otherwise loses exactly that ending. */
  function StripZeroFraction(s: string): (r: string)
    ensures r <= s
    ensures r == s <==> !(|s| >= 3 && ZeroFraction(s[|s| - 3..]))
    ensures r != s ==> |r| == |s| - 3 && ZeroFraction(s[|r|..])
  {
    if |s| >= 3 && (s[|s| - 3] == '.' || s[|s| - 3] == ',') && s[|s| - 2..] == "00" then s[..|s| - 3] else s
  }

  /** The value text of a slider. */
  function ValueLabel(value: real, unit: string): string
    requires -1.0e21 < value < 1.0e21
  {
    SignPrefix(value, unit) + StripZeroFraction(ToFixed2(value)) + unit
  }

  /** The two digits of n's last two decimal places. */
  function TwoDigits(n: nat): (s: string)
    ensures |s| == 2 && AllDigits(s)
  {
    [DigitChar(n / 10 % 10), DigitChar(n % 10)]
  }

  /** The last two decimal digits of n are both zero exactly when n is a
      multiple of 100. */
  lemma TwoDigitsZero(n: nat)
    ensures TwoDigits(n) == "00" <==> n % 100 == 0
  {
    var t := TwoDigits(n);
    if t == "00" {
      assert DigitValue(t[0]) == n / 10 % 10 && DigitValue(t[1]) == n % 10;
    }
  }

  /** Reading back two digits. */
  lemma TwoDigitsValue(n: nat)
    ensures DigitsValue(TwoDigits(n)) == n % 100
  {
    var t := TwoDigits(n);
    var head := t[..|t| - 1];
    assert head == [t[0]];
    assert DigitsValue(head) == DigitValue(t[0]) by {
      assert head[..|head| - 1] == [];
    }
    assert DigitsValue(t) == DigitsValue(head) * 10 + DigitValue(t[1]);
  }

  /** Splitting "a.t" at its point. */
  lemma PointSplit(a: string, t: string)
    requires |t| == 2
    ensures var s := a + "." + t;
      && |s| == |a| + 3 && s[|s| - 3] == '.' && s[|s| - 2..] == t && s[..|s| - 3] == a
  {
  }

  lemma PointedDigitsShapeLarge(n: nat)
    requires n >= 100
    ensures NatStr(n) == NatStr(n / 100) + TwoDigits(n)
  {
    assert NatStr(n) == NatStr(n / 10) + [DigitChar(n % 10)];
    assert NatStr(n / 10) == NatStr(n / 10 / 10) + [DigitChar(n / 10 % 10)];
    assert n / 10 / 10 == n / 100;
  }

  lemma PointedDigitsShapeSmall(n: nat)
    requires n < 100
    ensures (if |NatStr(n)| == 1 then "00" + NatStr(n) else "0" + NatStr(n)) == "0" + TwoDigits(n)
  {
    if n >= 10 {
      TwoDigitPad(n);
    } else {
      OneDigitPad(n);
    }
  }

  lemma OneDigitPad(n: nat)
    requires n < 10
    ensures "00" + NatStr(n) == "0" + TwoDigits(n)
  {
    var z, d := DigitChar(0), DigitChar(n);
    assert z == '0';
    assert NatStr(n) == [d];
    assert TwoDigits(n) == [z, d];
  }

  lemma TwoDigitPad(n: nat)
    requires 10 <= n < 100
    ensures "0" + NatStr(n) == "0" + TwoDigits(n)
  {
    var hi, lo := DigitChar(n / 10), DigitChar(n % 10);
    assert NatStr(n / 10) == [hi];
    assert NatStr(n) == [hi, lo];
    assert TwoDigits(n) == [hi, lo];
  }

  /** toFixed's pointed form is the whole hundreds of n, a point, and the
      remaining two digits. */
  lemma PointedDigitsShape(n: nat)
    ensures PointedDigits(n) == NatStr(n / 100) + "." + TwoDigits(n)
  {
    var m := NatStr(n);
    var padded := if |m| == 1 then "00" + m else if |m| == 2 then "0" + m else m;
    var w := NatStr(n / 100);
    if n >= 100 {
      PointedDigitsShapeLarge(n);
      assert padded == w + TwoDigits(n);
    } else {
      PointedDigitsShapeSmall(n);
      assert padded == "0" + TwoDigits(n);
      assert w == "0";
    }
    assert padded[..|padded| - 2] == w;
    assert padded[|padded| - 2..] == TwoDigits(n);
  }

  /** The magnitude's text names exactly the hundredths it was rounded to:
      reading the whole part and the two fraction digits back gives n. */
  lemma PointedDigitsRoundTrip(n: nat)
    ensures var s := PointedDigits(n);
      && |s| >= 4 && s[|s| - 3] == '.'
      && AllDigits(s[..|s| - 3]) && AllDigits(s[|s| - 2..])
      && DigitsValue(s[..|s| - 3]) * 100 + DigitsValue(s[|s| - 2..]) == n
  {
    PointedDigitsShape(n);
    PointSplit(NatStr(n / 100), TwoDigits(n));
    NatStrRoundTrip(n / 100);
    TwoDigitsValue(n);
  }

  /** A '+' is shown exactly for positive values whose unit is neither
      'x' nor 's'. */
  lemma PlusSignIff(value: real, unit: string)
    requires -1.0e21 < value < 1.0e21
    ensures |ValueLabel(value, unit)| > 0 && (ValueLabel(value, unit)[0] == '+' <==>
      value > 0.0 && unit != "x" && unit != "s")
  {
    var t := StripZeroFraction(ToFixed2(value));
    var n := Hundredths(if value < 0.0 then -value else value);
    PointedDigitsShape(n);
    assert |t| > 0;
    if value < 0.0 {
      assert ToFixed2(value)[0] == '-';
      assert t[0] == '-';
    } else {
      assert IsDigit(PointedDigits(n)[0]);
      assert IsDigit(t[0]);
    }
  }

  /** The unit is always the end of the text. */
  lemma UnitLast(value: real, unit: string)
    requires -1.0e21 < value < 1.0e21
    ensures var s := ValueLabel(value, unit);
      |s| >= |unit| && s[|s| - |unit|..] == unit
  {
  }

  /** The text between the sign and the unit: a '-' for negative values,
      the whole hundreds of the rounded magnitude, and its two decimals
      unless both are zero. Only an exact "00" is removed: 0.5 shows as
      "0.50" and 1.25 as "1.25", while 2 shows as "2". */
  lemma NumberText(value: real)
    requires -1.0e21 < value < 1.0e21
    ensures var n := Hundredths(if value < 0.0 then -value else value);
      var sign := if value < 0.0 then "-" else "";
      StripZeroFraction(ToFixed2(value)) ==
        if n % 100 == 0 then sign + NatStr(n / 100) else sign + NatStr(n / 100) + "." + TwoDigits(n)
  {
    var n := Hundredths(if value < 0.0 then -value else value);
    var sign := if value < 0.0 then "-" else "";
    var a := sign + NatStr(n / 100);
    ToFixedShape(value);
    TwoDigitsZero(n);
    PointSplit(a, TwoDigits(n));
  }

  /** toFixed(2) is the sign, the whole hundreds, a point and two digits. */
  lemma ToFixedShape(value: real)
    requires -1.0e21 < value < 1.0e21
    ensures var n := Hundredths(if value < 0.0 then -value else value);
      ToFixed2(value) == (if value < 0.0 then "-" else "") + NatStr(n / 100) + "." + TwoDigits(n)
  {
    var n := Hundredths(if value < 0.0 then -value else value);
    PointedDigitsShape(n);
    if value < 0.0 {
      assert ToFixed2(value) == "-" + PointedDigits(n);
      assert "-" + (NatStr(n / 100) + "." + TwoDigits(n)) == "-" + NatStr(n / 100) + "." + TwoDigits(n);
    } else {
      assert ToFixed2(value) == PointedDigits(n);
      assert "" + NatStr(n / 100) == NatStr(n / 100);
    }
  }

  /** A whole number shows without any fraction. */
  lemma WholeNumberLabel(k: int, unit: string)
    requires -1000000 <= k <= 1000000
    ensures ValueLabel(k as real, unit) ==
      SignPrefix(k as real, unit) + (if k < 0 then "-" + NatStr(-k) else NatStr(k)) + unit
  {
    NumberText(k as real);
    var j := if k < 0 then -k else k;
    assert (if k < 0 then -k as real else k as real) == j as real;
    assert j as real * 100.0 + 0.5 == (j * 100) as real + 0.5;
    assert Hundredths(j as real) == j * 100;
    assert (j * 100) / 100 == j && (j * 100) % 100 == 0;
  }

  /** What the slider reports on mouse-up and touch-end: the current value,
      to the onCommit callback when one is supplied, and nothing otherwise.
      Enhancer.DragThenRelease states what the editor makes of it. */
  function OnRelease(hasOnCommit: bool, sliderValue: real): Option<real>
  {
    if hasOnCommit then Some(sliderValue) else None
  }
}
