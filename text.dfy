/** Decimal text of integers, as JavaScript's Number.prototype.toString prints
    an integral number, and String.prototype.padStart. */
module Text {

  predicate IsDigit(c: char) { '0' <= c <= '9' }

  function DigitChar(d: nat): (c: char)
    requires d < 10
    ensures IsDigit(c) && DigitValue(c) == d
  {
    "0123456789"[d]
  }

  function DigitValue(c: char): (d: nat)
    requires IsDigit(c)
    ensures d < 10
  {
    (c as int) - ('0' as int)
  }

  /** Decimal digits of n, without leading zeros. */
  function NatStr(n: nat): (s: string)
    ensures 1 <= |s|
    ensures forall i :: 0 <= i < |s| ==> IsDigit(s[i])
    ensures |s| == 1 <==> n < 10
    decreases n
  {
    if n < 10 then [DigitChar(n)] else NatStr(n / 10) + [DigitChar(n % 10)]
  }

  /** An integral number as JavaScript prints it. */
  function IntStr(n: int): (s: string)
    ensures |s| > 0 && (s[0] == '-' <==> n < 0)
    ensures var digits := if n < 0 then s[1..] else s;
      AllDigits(digits) && DigitsValue(digits) == if n < 0 then -n else n
  {
    var magnitude := NatStr(if n < 0 then -n else n);
    NatStrRoundTrip(if n < 0 then -n else n);
    assert ("-" + magnitude)[1..] == magnitude;
    if n < 0 then "-" + magnitude else magnitude
  }

  predicate AllDigits(s: string) { forall i :: 0 <= i < |s| ==> IsDigit(s[i]) }

  /** The number a string of decimal digits denotes (the partner of NatStr). */
  function DigitsValue(s: string): (n: nat)
    requires AllDigits(s)
  {
    if s == [] then 0 else DigitsValue(s[..|s| - 1]) * 10 + DigitValue(s[|s| - 1])
  }

  /** Reading back the digits NatStr prints gives the number printed. */
  lemma {:induction false} NatStrRoundTrip(n: nat)
    ensures DigitsValue(NatStr(n)) == n
    decreases n
  {
    if n >= 10 {
      var s := NatStr(n);
      assert s[..|s| - 1] == NatStr(n / 10);
      NatStrRoundTrip(n / 10);
    }
  }

  /** Two numbers print alike only if they are equal. */
  lemma NatStrInjective(a: nat, b: nat)
    requires NatStr(a) == NatStr(b)
    ensures a == b
  {
    NatStrRoundTrip(a);
    NatStrRoundTrip(b);
  }

  /** Numbers from 10 to 99 print as exactly two digits. */
  lemma {:induction false} NatStrTwoDigits(n: nat)
    requires 10 <= n < 100
    ensures |NatStr(n)| == 2
  {
    assert NatStr(n) == NatStr(n / 10) + [DigitChar(n % 10)];
  }

  /** s.padStart(len, c) for a one-character pad string. */
  function PadStart(s: string, len: nat, c: char): (r: string)
    ensures |s| >= len ==> r == s
    ensures |s| < len ==> |r| == len && r[len - |s|..] == s
    ensures forall i :: 0 <= i < |r| - |s| ==> r[i] == c
    decreases len - |s|
  {
    if |s| >= len then s else PadStart([c] + s, len, c)
  }
}
