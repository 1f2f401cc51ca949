/** Real-valued stand-ins for the f32 operations the DSP code is written with.
    Samples are exact reals: f32 rounding, NaN and infinities are not modelled. */
module Numerics {

  /** std::f32::consts::PI: the f32 nearest to pi, written out as an exact real. */
  const PI: real := 3.1415927410125732421875

  /** The f32 methods sin, cos, exp, powf and sqrt. Their code is not visible, so they
      stay uninterpreted: a member that needs a fact about one of them states it as a
      hypothesis (SinBounded, CosBounded). */
  datatype MathLib = MathLib(
    sin: real -> real,
    cos: real -> real,
    exp: real -> real,
    powf: (real, real) -> real,
    sqrt: real -> real)

  ghost predicate SinBounded(m: MathLib) {
    forall x :: -1.0 <= m.sin(x) <= 1.0
  }

  ghost predicate CosBounded(m: MathLib) {
    forall x :: -1.0 <= m.cos(x) <= 1.0
  }

  /** f32::abs. */
  function Abs(x: real): (r: real)
    ensures r >= 0.0 && (r == x || r == -x)
  {
    if x < 0.0 then -x else x
  }

  /** `x as usize` for an f32 `x`: truncation toward zero, saturating at 0 below.
      (Saturation at usize::MAX is not modelled.) */
  function TruncToNat(x: real): (n: nat)
    ensures x <= 0.0 ==> n == 0
    ensures 0.0 < x ==> n as real <= x < n as real + 1.0
  {
    if x <= 0.0 then 0 else x.Floor
  }

  /** `x.round() as usize`: rounding half away from zero, then the saturating cast. */
  function RoundToNat(x: real): (n: nat)
    ensures x <= 0.0 ==> n == 0
    ensures 0.0 < x ==> x - 0.5 < n as real <= x + 0.5
  {
    if x <= 0.0 then 0 else (x + 0.5).Floor
  }

  /** f32::trunc, as an integer. */
  function Trunc(x: real): (n: int)
    ensures 0.0 <= x ==> n as real <= x < n as real + 1.0
    ensures x < 0.0 ==> n as real - 1.0 < x <= n as real
  {
    if x >= 0.0 then x.Floor else -((-x).Floor)
  }

  /** The f32 remainder `x % y`: x - y * trunc(x / y), with the sign of x. */
  function FMod(x: real, y: real): (r: real)
    requires y != 0.0
    ensures 0.0 < y && 0.0 <= x ==> 0.0 <= r < y
  {
    var t := Trunc(x / y);
    if 0.0 < y && 0.0 <= x then
      FModBounds(x, y, t);
      x - y * t as real
    else
      x - y * t as real
  }

  lemma FModBounds(x: real, y: real, t: int)
    requires 0.0 < y && 0.0 <= x
    requires t as real <= x / y < t as real + 1.0
    ensures 0.0 <= x - y * t as real < y
  {
    var q, tr := x / y, t as real;
    var d := q - tr;
    assert 0.0 <= d < 1.0;
    var yd := y * d;
    assert 0.0 <= yd < y;
    assert x == y * q == y * tr + yd;
  }

  /** x raised to a natural power. */
  function Pow(x: real, n: nat): real
  {
    if n == 0 then 1.0 else x * Pow(x, n - 1)
  }

  /** `iter().sum()`: the samples added from the first to the last. */
  function Sum(s: seq<real>): real
  {
    if |s| == 0 then 0.0 else Sum(s[..|s| - 1]) + s[|s| - 1]
  }
}

/** The panics the core can reach, and the values that carry them. */
module Outcomes {

  datatype Error =
    | IndexOutOfBounds   // a slice or Vec indexed past its end
    | RemainderByZero    // `%` on usize with a zero divisor
    | SubtractOverflow   // usize arithmetic below zero

  /** The end of an operation that works in place: it ran to completion or panicked. */
  datatype Outcome = Pass | Fail(error: Error)

  /** The end of an operation that returns a value. */
  datatype Result<T> = Ok(value: T) | Err(error: Error)

  datatype Option<T> = None | Some(value: T)
}
