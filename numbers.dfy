/** JavaScript number semantics that the audio engine and its views rely on:
    NaN, the `||` default, Math.floor/ceil/trunc, the `%` remainder, DataView's
    integer conversions, and the transcendental functions of `Math`, which are
    not defined here but passed in as a record whose known facts are stated. */
module Numbers {

  datatype Option<+T> = None | Some(value: T)

  /** A byte of a Uint8Array. */
  type byte = x: int | 0 <= x < 256

  /** A JavaScript number that may be NaN (infinities are not modelled). */
  datatype Number = NaN | Num(v: real)
  {
    /** `this > c`: false for NaN, as every comparison with NaN is. */
    predicate Gt(c: real) { Num? && v > c }

    /** `this < c`: false for NaN. */
    predicate Lt(c: real) { Num? && v < c }

    /** `this || d`: the falsy numbers 0 and NaN are replaced by `d`. The
        result is one of the two operands, and it is never 0 when `d` is
        not, so dividing by it is defined. */
    function Or(d: real): (r: real)
      ensures r == d || (Num? && r == v)
      ensures d != 0.0 ==> r != 0.0
    {
      if NaN? || v == 0.0 then d else v
    }
  }

  /** Defaulting twice with the same value is defaulting once: the result
      of `x || d` is already truthy unless `d` itself is falsy. */
  lemma OrIdempotent(x: Number, d: real)
    ensures Num(x.Or(d)).Or(d) == x.Or(d)
  {
  }

  /** `x || d` for a number known not to be NaN. */
  function OrElse(x: real, d: real): real
  {
    Num(x).Or(d)
  }

  /** `a / b` in JavaScript: 0/0 is NaN. Only called with b == 0 ==> a == 0. */
  function Div(a: real, b: real): (r: Number)
    requires b == 0.0 ==> a == 0.0
    ensures b != 0.0 <==> r.Num?
    ensures b != 0.0 ==> r.v * b == a
  {
    if b == 0.0 then NaN else Num(a / b)
  }

  /** Math.floor */
  function Floor(x: real): (r: int)
    ensures r as real <= x < r as real + 1.0
  {
    x.Floor
  }

  /** Math.ceil */
  function Ceil(x: real): (r: int)
    ensures r as real - 1.0 < x <= r as real
  {
    -((-x).Floor)
  }

  /** Math.trunc, the rounding of ToInt16/ToUint32 and of `%`: toward zero. */
  function Trunc(x: real): int
  {
    if x >= 0.0 then x.Floor else -((-x).Floor)
  }

  /** Truncation is the floor of a nonnegative number and the ceiling of a
      negative one: it lies within one of x, on x's side of zero, and no
      further from zero than x. */
  lemma TruncBounds(x: real)
    ensures x >= 0.0 ==> Trunc(x) == Floor(x)
    ensures x < 0.0 ==> Trunc(x) == Ceil(x)
    ensures -1.0 < x - Trunc(x) as real < 1.0
    ensures x >= 0.0 ==> 0 <= Trunc(x) && Trunc(x) as real <= x
    ensures x <= 0.0 ==> Trunc(x) <= 0 && x <= Trunc(x) as real
  {
  }

  /** `a % b` on numbers: the remainder of truncated division, sign of the
      dividend; written as b * (a/b - trunc(a/b)), which equals a - b * trunc(a/b). */
  function JsRem(a: real, b: real): (r: real)
    requires b != 0.0
    ensures a >= 0.0 && b > 0.0 ==> 0.0 <= r < b
    ensures a >= 0.0 && b > 0.0 ==> r == b * (a / b - Floor(a / b) as real)
  {
    var q := a / b;
    var f := q - Trunc(q) as real;
    if a >= 0.0 && b > 0.0 then
      assert q >= 0.0;
      TruncBounds(q);
      ScaleFraction(b, f);
      b * f
    else
      b * f
  }

  /** Scaling a fraction in [0, 1) by a positive factor stays below the factor. */
  lemma ScaleFraction(b: real, x: real)
    requires b > 0.0 && 0.0 <= x < 1.0
    ensures 0.0 <= b * x < b
  {
    assert b - b * x == b * (1.0 - x);
    assert b * (1.0 - x) > 0.0;
  }

  /** Math.max(lo, Math.min(hi, x)) */
  function Clamp(lo: real, hi: real, x: real): (r: real)
    requires lo <= hi
    ensures lo <= r <= hi
    ensures lo <= x <= hi ==> r == x
    ensures x < lo ==> r == lo
    ensures x > hi ==> r == hi
  {
    if x < lo then lo else if x > hi then hi else x
  }

  function MinReal(a: real, b: real): (r: real)
    ensures r <= a && r <= b && (r == a || r == b)
  {
    if a <= b then a else b
  }

  function MaxReal(a: real, b: real): (r: real)
    ensures r >= a && r >= b && (r == a || r == b)
  {
    if a >= b then a else b
  }

  const TWO32: int := 0x1_0000_0000
  const TWO16: int := 0x1_0000

  /** ToUint32 of an integral number, as DataView.setUint32 applies it. */
  function ToUint32(x: int): (r: int)
    ensures 0 <= r < TWO32
    ensures 0 <= x < TWO32 ==> r == x
  {
    x % TWO32
  }

  /** ToUint16 of an integral number, as DataView.setUint16 applies it. */
  function ToUint16(x: int): (r: int)
    ensures 0 <= r < TWO16
    ensures 0 <= x < TWO16 ==> r == x
  {
    x % TWO16
  }

  /** The functions of `Math` the code calls, supplied by the host. */
  datatype MathLib = MathLib(pow: (real, real) -> real, log10: real -> real, sqrt: real -> real, pi: real)
  {
    /** The facts about them that the model relies on. */
    ghost predicate Sound()
    {
      && 3.0 < pi < 3.2
      && (forall b, e :: b > 0.0 ==> pow(b, e) > 0.0)
      && (forall b :: b > 0.0 ==> pow(b, 0.0) == 1.0)
      && (forall e :: pow(1.0, e) == 1.0)
      && (forall a, b, e :: 0.0 < a <= b && e >= 0.0 ==> pow(a, e) <= pow(b, e))
      && (forall x, y :: 0.0 < x <= y ==> log10(x) <= log10(y))
      && log10(10.0) == 1.0
      && (forall x :: x >= 0.0 ==> sqrt(x) >= 0.0)
    }
  }
}
