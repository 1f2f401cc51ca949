/** The filters of src/filters.rs: two first-order IIR filters that rewrite a slice in
    place, and the biquad filter with its five Audio EQ Cookbook constructors. */
module Filters {
  import opened Numerics
  import opened Outcomes

  // ------------------------------------------------------------------ first order

  /** The sample rate and cutoff for which rc = 1/(2 pi f), dt = 1/rate and their sum
      are finite and non-zero, so that the smoothing factors below are defined. */
  predicate FirstOrderDefined(sampleRate: real, cutoffFreq: real) {
    sampleRate != 0.0 && cutoffFreq != 0.0 &&
    1.0 / (2.0 * PI * cutoffFreq) + 1.0 / sampleRate != 0.0
  }

  /** Smoothing factor of the one-pole low-pass, dt / (rc + dt). */
  function LowPassAlpha(sampleRate: real, cutoffFreq: real): (alpha: real)
    requires FirstOrderDefined(sampleRate, cutoffFreq)
    ensures 0.0 < sampleRate && 0.0 < cutoffFreq ==> 0.0 < alpha < 1.0
  {
    var rc := 1.0 / (2.0 * PI * cutoffFreq);
    var dt := 1.0 / sampleRate;
    if 0.0 < sampleRate && 0.0 < cutoffFreq then
      UnitFraction(dt, rc);
      dt / (rc + dt)
    else
      dt / (rc + dt)
  }

  /** Smoothing factor of the one-pole high-pass, rc / (rc + dt). */
  function HighPassAlpha(sampleRate: real, cutoffFreq: real): (alpha: real)
    requires FirstOrderDefined(sampleRate, cutoffFreq)
    ensures 0.0 < sampleRate && 0.0 < cutoffFreq ==> 0.0 < alpha < 1.0
    ensures alpha == 1.0 - LowPassAlpha(sampleRate, cutoffFreq)
  {
    var rc := 1.0 / (2.0 * PI * cutoffFreq);
    var dt := 1.0 / sampleRate;
    if 0.0 < sampleRate && 0.0 < cutoffFreq then
      UnitFraction(rc, dt);
      rc / (rc + dt)
    else
      rc / (rc + dt)
  }

  lemma UnitFraction(p: real, q: real)
    requires 0.0 < p && 0.0 < q
    ensures 0.0 < p / (q + p) < 1.0
  {
    assert p / (q + p) * (q + p) == p;
  }

  /** One step of low_pass_filter: previous + alpha * (x - previous). */
  function LowPassStep(previous: real, alpha: real, x: real): real {
    previous + alpha * (x - previous)
  }

  /** The value of `previous` once low_pass_filter has consumed the first k samples of s;
      before the first sample it is s[0]. */
  function LowPassPrevious(s: seq<real>, alpha: real, k: nat): real
    requires 0 < |s| && k <= |s|
  {
    if k == 0 then s[0] else LowPassStep(LowPassPrevious(s, alpha, k - 1), alpha, s[k - 1])
  }

  /** What low_pass_filter leaves in the slice: sample k becomes `previous` after sample k. */
  function LowPassOutputs(s: seq<real>, alpha: real): (r: seq<real>)
    ensures |r| == |s|
  {
    if |s| == 0 then [] else seq(|s|, k requires 0 <= k < |s| => LowPassPrevious(s, alpha, k + 1))
  }

  /** low_pass_filter: y[k] = y[k-1] + alpha * (x[k] - y[k-1]), in place, with y[-1] = x[0].
      An empty slice panics on `samples[0]` before anything is written. */
  method LowPassFilter(samples: array<real>, sampleRate: real, cutoffFreq: real) returns (r: Outcome)
    requires FirstOrderDefined(sampleRate, cutoffFreq)
    modifies samples
    ensures r == if samples.Length == 0 then Fail(IndexOutOfBounds) else Pass
    ensures samples[..] == LowPassOutputs(old(samples[..]), LowPassAlpha(sampleRate, cutoffFreq))
  {
    var alpha := LowPassAlpha(sampleRate, cutoffFreq);
    if samples.Length == 0 {
      return Fail(IndexOutOfBounds);
    }
    ghost var s := samples[..];
    var previous := samples[0];
    var i := 0;
    while i < samples.Length
      invariant 0 <= i <= samples.Length
      invariant previous == LowPassPrevious(s, alpha, i)
      invariant forall k :: 0 <= k < i ==> samples[k] == LowPassPrevious(s, alpha, k + 1)
      invariant forall k :: i <= k < samples.Length ==> samples[k] == s[k]
    {
      previous := LowPassStep(previous, alpha, samples[i]);
      samples[i] := previous;
      i := i + 1;
    }
    return Pass;
  }

  /** With alpha in [0, 1] each output lies between the previous output and the input. */
  lemma LowPassOutputBetween(s: seq<real>, alpha: real, k: nat)
    requires 0.0 <= alpha <= 1.0 && k < |s|
    ensures var p, y := LowPassPrevious(s, alpha, k), LowPassOutputs(s, alpha)[k];
      (p <= s[k] ==> p <= y <= s[k]) && (s[k] <= p ==> s[k] <= y <= p)
  {
    assert LowPassOutputs(s, alpha)[k] == LowPassStep(LowPassPrevious(s, alpha, k), alpha, s[k]);
    LowPassStepBetween(LowPassPrevious(s, alpha, k), alpha, s[k]);
  }

  lemma LowPassStepBetween(previous: real, alpha: real, x: real)
    requires 0.0 <= alpha <= 1.0
    ensures previous <= x ==> previous <= LowPassStep(previous, alpha, x) <= x
    ensures x <= previous ==> x <= LowPassStep(previous, alpha, x) <= previous
  {
    var d := x - previous;
    var moved, rest := alpha * d, (1.0 - alpha) * d;
    assert moved + rest == d;
    if 0.0 <= d {
      assert 0.0 <= moved && 0.0 <= rest;
    } else {
      assert moved <= 0.0 && rest <= 0.0;
    }
    assert LowPassStep(previous, alpha, x) == previous + moved;
  }

  /** A constant buffer passes the low-pass unchanged. */
  lemma LowPassKeepsConstant(s: seq<real>, alpha: real, c: real)
    requires forall k :: 0 <= k < |s| ==> s[k] == c
    ensures LowPassOutputs(s, alpha) == s
  {
    forall k | 0 <= k < |s|
      ensures LowPassOutputs(s, alpha)[k] == s[k]
    {
      LowPassPreviousConstant(s, alpha, c, k + 1);
    }
  }

  lemma {:induction false} LowPassPreviousConstant(s: seq<real>, alpha: real, c: real, k: nat)
    requires 0 < |s| && k <= |s|
    requires forall k :: 0 <= k < |s| ==> s[k] == c
    ensures LowPassPrevious(s, alpha, k) == c
  {
    if k > 0 {
      LowPassPreviousConstant(s, alpha, c, k - 1);
    }
  }

  /** Output k of high_pass_filter: alpha * (previous output + x[k] - previous input),
      where both "previous" values start at s[0]. */
  function HighPassOutput(s: seq<real>, alpha: real, k: nat): real
    requires k < |s|
  {
    var previousOutput := if k == 0 then s[0] else HighPassOutput(s, alpha, k - 1);
    var previousInput := if k == 0 then s[0] else s[k - 1];
    HighPassStep(alpha, previousOutput, s[k], previousInput)
  }

  /** One step of high_pass_filter: alpha * (previous output + x - previous input). */
  function HighPassStep(alpha: real, previousOutput: real, x: real, previousInput: real): real {
    alpha * (previousOutput + x - previousInput)
  }

  function HighPassOutputs(s: seq<real>, alpha: real): (r: seq<real>)
    ensures |r| == |s|
  {
    seq(|s|, k requires 0 <= k < |s| => HighPassOutput(s, alpha, k))
  }

  /** high_pass_filter, in place. An empty slice panics on `samples[0]`. */
  method HighPassFilter(samples: array<real>, sampleRate: real, cutoffFreq: real) returns (r: Outcome)
    requires FirstOrderDefined(sampleRate, cutoffFreq)
    modifies samples
    ensures r == if samples.Length == 0 then Fail(IndexOutOfBounds) else Pass
    ensures samples[..] == HighPassOutputs(old(samples[..]), HighPassAlpha(sampleRate, cutoffFreq))
  {
    var alpha := HighPassAlpha(sampleRate, cutoffFreq);
    if samples.Length == 0 {
      return Fail(IndexOutOfBounds);
    }
    ghost var s := samples[..];
    var previousInput := samples[0];
    var previousOutput := samples[0];
    var i := 0;
    while i < samples.Length
      invariant 0 <= i <= samples.Length
      invariant previousInput == if i == 0 then s[0] else s[i - 1]
      invariant previousOutput == if i == 0 then s[0] else HighPassOutput(s, alpha, i - 1)
      invariant forall k :: 0 <= k < i ==> samples[k] == HighPassOutput(s, alpha, k)
      invariant forall k :: i <= k < samples.Length ==> samples[k] == s[k]
    {
      var currentInput := samples[i];
      samples[i] := HighPassStep(alpha, previousOutput, currentInput, previousInput);
      previousOutput := samples[i];
      previousInput := currentInput;
      i := i + 1;
    }
    return Pass;
  }

  /** A constant buffer of value c becomes c * alpha^(k+1) at index k. */
  lemma {:induction false} HighPassOfConstant(s: seq<real>, alpha: real, c: real, k: nat)
    requires k < |s|
    requires forall k :: 0 <= k < |s| ==> s[k] == c
    ensures HighPassOutput(s, alpha, k) == c * Pow(alpha, k + 1)
  {
    if k > 0 {
      HighPassOfConstant(s, alpha, c, k - 1);
      calc {
        HighPassOutput(s, alpha, k);
        alpha * (HighPassOutput(s, alpha, k - 1) + c - c);
        alpha * (c * Pow(alpha, k));
        c * (alpha * Pow(alpha, k));
      }
    }
  }

  // ------------------------------------------------------------------ biquad

  /** The five normalised coefficients of a BiquadFilter (a0 divided out). */
  datatype Coefficients = Coefficients(b0: real, b1: real, b2: real, a1: real, a2: real)

  /** The two registers of a BiquadFilter: z1 is the last output, z2 the one before. */
  datatype Registers = Registers(z1: real, z2: real)

  const Silent := Registers(0.0, 0.0)

  /** What process_sample returns. Both registers hold earlier OUTPUTS, and each is
      used by a feedforward and a feedback term. */
  function Response(c: Coefficients, z: Registers, x: real): real {
    c.b0 * x + c.b1 * z.z1 + c.b2 * z.z2 - c.a1 * z.z1 - c.a2 * z.z2
  }

  /** The registers after process_sample has returned y. */
  function Shift(z: Registers, y: real): Registers {
    Registers(y, z.z1)
  }

  /** Silence in, from silent registers: silence out, and the registers stay silent. */
  lemma SilenceStaysSilent(c: Coefficients)
    ensures Response(c, Silent, 0.0) == 0.0
    ensures Shift(Silent, Response(c, Silent, 0.0)) == Silent
  {
  }

  /** Coefficients for which the filter passes every input unchanged, whatever its
      registers hold: b0 = 1 and the feedforward and feedback terms cancel. */
  predicate IsUnity(c: Coefficients) {
    c.b0 == 1.0 && c.b1 == c.a1 && c.b2 == c.a2
  }

  lemma UnityPassesThrough(c: Coefficients, z: Registers, x: real)
    requires IsUnity(c)
    ensures Response(c, z, x) == x
  {
  }

  /** omega = 2 pi f / rate. */
  function Omega(sampleRate: real, freq: real): real
    requires sampleRate != 0.0
  {
    2.0 * PI * freq / sampleRate
  }

  /** alpha = sin(omega) / (2 Q), used by the lowpass, highpass and peaking formulas. */
  function QAlpha(m: MathLib, sampleRate: real, freq: real, q: real): real
    requires sampleRate != 0.0 && q != 0.0
  {
    m.sin(Omega(sampleRate, freq)) / (2.0 * q)
  }

  /** A = 10^(gain_db / 40). */
  function Amplitude(m: MathLib, gainDb: real): real {
    m.powf(10.0, gainDb / 40.0)
  }

  /** The parameters for which new_lowpass and new_highpass divide by a non-zero a0. */
  predicate PassDefined(m: MathLib, sampleRate: real, freq: real, q: real) {
    sampleRate != 0.0 && q != 0.0 && 1.0 + QAlpha(m, sampleRate, freq, q) != 0.0
  }

  /** new_lowpass's coefficients. */
  function LowpassCoefficients(m: MathLib, sampleRate: real, cutoffFreq: real, q: real): (c: Coefficients)
    requires PassDefined(m, sampleRate, cutoffFreq, q)
    ensures c.b2 == c.b0 && c.b1 == 2.0 * c.b0
  {
    var cosOmega := m.cos(Omega(sampleRate, cutoffFreq));
    var alpha := QAlpha(m, sampleRate, cutoffFreq, q);
    var a0 := 1.0 + alpha;
    var b0 := (1.0 - cosOmega) / 2.0;
    var b1 := 1.0 - cosOmega;
    var b2 := (1.0 - cosOmega) / 2.0;
    assert b1 / a0 == 2.0 * (b0 / a0);
    Normalise(b0, b1, b2, a0, -2.0 * cosOmega, 1.0 - alpha)
  }

  /** new_highpass's coefficients. */
  function HighpassCoefficients(m: MathLib, sampleRate: real, cutoffFreq: real, q: real): (c: Coefficients)
    requires PassDefined(m, sampleRate, cutoffFreq, q)
    ensures c.b2 == c.b0 && c.b1 == -2.0 * c.b0
  {
    var cosOmega := m.cos(Omega(sampleRate, cutoffFreq));
    var alpha := QAlpha(m, sampleRate, cutoffFreq, q);
    var a0 := 1.0 + alpha;
    var b0 := (1.0 + cosOmega) / 2.0;
    var b1 := -(1.0 + cosOmega);
    var b2 := (1.0 + cosOmega) / 2.0;
    assert b1 / a0 == -2.0 * (b0 / a0);
    Normalise(b0, b1, b2, a0, -2.0 * cosOmega, 1.0 - alpha)
  }

  /** alpha of the shelf formulas: sin(omega)/2 * sqrt((A + 1/A)(1/S - 1) + 2). */
  function ShelfAlpha(m: MathLib, sampleRate: real, freq: real, a: real, slope: real): real
    requires sampleRate != 0.0 && a != 0.0 && slope != 0.0
  {
    m.sin(Omega(sampleRate, freq)) / 2.0 * m.sqrt((a + 1.0 / a) * (1.0 / slope - 1.0) + 2.0)
  }

  /** beta = 2 sqrt(A) alpha. */
  function ShelfBeta(m: MathLib, sampleRate: real, freq: real, a: real, slope: real): real
    requires sampleRate != 0.0 && a != 0.0 && slope != 0.0
  {
    2.0 * m.sqrt(a) * ShelfAlpha(m, sampleRate, freq, a, slope)
  }

  /** The parameters for which the shelf formulas are finite: A and S non-zero, the
      square roots taken of non-negative numbers, and a0 non-zero. `lowShelf` picks
      the sign of (A - 1) cos(omega) in a0. */
  predicate ShelfDefined(m: MathLib, sampleRate: real, freq: real, gainDb: real, slope: real, lowShelf: bool) {
    var a := Amplitude(m, gainDb);
    sampleRate != 0.0 && slope != 0.0 && 0.0 < a &&
    0.0 <= (a + 1.0 / a) * (1.0 / slope - 1.0) + 2.0 &&
    var cosOmega := m.cos(Omega(sampleRate, freq));
    var beta := ShelfBeta(m, sampleRate, freq, a, slope);
    (if lowShelf then (a + 1.0) + (a - 1.0) * cosOmega + beta
     else (a + 1.0) - (a - 1.0) * cosOmega + beta) != 0.0
  }

  /** Divides a0 out of the six cookbook coefficients. */
  function Normalise(b0: real, b1: real, b2: real, a0: real, a1: real, a2: real): (c: Coefficients)
    requires a0 != 0.0
    ensures b0 == a0 && b1 == a1 && b2 == a2 ==> IsUnity(c)
  {
    Coefficients(b0 / a0, b1 / a0, b2 / a0, a1 / a0, a2 / a0)
  }

  /** new_lowshelf's coefficients; at A = 1 (a gain of 0 dB) the filter is the identity. */
  function LowshelfCoefficients(m: MathLib, sampleRate: real, cutoffFreq: real, gainDb: real, slope: real): (c: Coefficients)
    requires ShelfDefined(m, sampleRate, cutoffFreq, gainDb, slope, true)
    ensures Amplitude(m, gainDb) == 1.0 ==> IsUnity(c)
  {
    var a := Amplitude(m, gainDb);
    var cosOmega := m.cos(Omega(sampleRate, cutoffFreq));
    var beta := ShelfBeta(m, sampleRate, cutoffFreq, a, slope);
    var b0 := a * ((a + 1.0) - (a - 1.0) * cosOmega + beta);
    var b1 := 2.0 * a * ((a - 1.0) - (a + 1.0) * cosOmega);
    var b2 := a * ((a + 1.0) - (a - 1.0) * cosOmega - beta);
    var a0 := (a + 1.0) + (a - 1.0) * cosOmega + beta;
    var a1 := -2.0 * ((a - 1.0) + (a + 1.0) * cosOmega);
    var a2 := (a + 1.0) + (a - 1.0) * cosOmega - beta;
    assert a == 1.0 ==> (a - 1.0) * cosOmega == 0.0 && (a + 1.0) * cosOmega == 2.0 * cosOmega;
    Normalise(b0, b1, b2, a0, a1, a2)
  }

  /** new_highshelf's coefficients; at A = 1 the filter is the identity. */
  function HighshelfCoefficients(m: MathLib, sampleRate: real, cutoffFreq: real, gainDb: real, slope: real): (c: Coefficients)
    requires ShelfDefined(m, sampleRate, cutoffFreq, gainDb, slope, false)
    ensures Amplitude(m, gainDb) == 1.0 ==> IsUnity(c)
  {
    var a := Amplitude(m, gainDb);
    var cosOmega := m.cos(Omega(sampleRate, cutoffFreq));
    var beta := ShelfBeta(m, sampleRate, cutoffFreq, a, slope);
    var b0 := a * ((a + 1.0) + (a - 1.0) * cosOmega + beta);
    var b1 := -2.0 * a * ((a - 1.0) + (a + 1.0) * cosOmega);
    var b2 := a * ((a + 1.0) + (a - 1.0) * cosOmega - beta);
    var a0 := (a + 1.0) - (a - 1.0) * cosOmega + beta;
    var a1 := 2.0 * ((a - 1.0) - (a + 1.0) * cosOmega);
    var a2 := (a + 1.0) - (a - 1.0) * cosOmega - beta;
    assert a == 1.0 ==> (a - 1.0) * cosOmega == 0.0 && (a + 1.0) * cosOmega == 2.0 * cosOmega;
    Normalise(b0, b1, b2, a0, a1, a2)
  }

  /** The parameters for which new_peaking_eq is finite: A non-zero and a0 = 1 + alpha/A
      non-zero. */
  predicate PeakingDefined(m: MathLib, sampleRate: real, freq: real, q: real, gainDb: real) {
    var a := Amplitude(m, gainDb);
    sampleRate != 0.0 && q != 0.0 && a != 0.0 && 1.0 + QAlpha(m, sampleRate, freq, q) / a != 0.0
  }

  /** new_peaking_eq's coefficients (src/filters.rs): b1 = a1 always, and at A = 1 the
      filter is the identity. */
  function PeakingCoefficients(m: MathLib, sampleRate: real, freq: real, q: real, gainDb: real): (c: Coefficients)
    requires PeakingDefined(m, sampleRate, freq, q, gainDb)
    ensures c.b1 == c.a1
    ensures Amplitude(m, gainDb) == 1.0 ==> IsUnity(c)
  {
    var a := Amplitude(m, gainDb);
    var cosOmega := m.cos(Omega(sampleRate, freq));
    var alpha := QAlpha(m, sampleRate, freq, q);
    assert a == 1.0 ==> alpha * a == alpha / a;
    Normalise(1.0 + alpha * a, -2.0 * cosOmega, 1.0 - alpha * a, 1.0 + alpha / a, -2.0 * cosOmega, 1.0 - alpha / a)
  }

  /** BiquadFilter: normalised coefficients and two registers, updated once per sample. */
  class BiquadFilter {
    var b0: real
    var b1: real
    var b2: real
    var a1: real
    var a2: real
    var z1: real
    var z2: real

    function Coeffs(): Coefficients
      reads this
    {
      Coefficients(b0, b1, b2, a1, a2)
    }

    function State(): Registers
      reads this
    {
      Registers(z1, z2)
    }

    constructor NewLowpass(m: MathLib, sampleRate: real, cutoffFreq: real, q: real)
      requires PassDefined(m, sampleRate, cutoffFreq, q)
      ensures Coeffs() == LowpassCoefficients(m, sampleRate, cutoffFreq, q)
      ensures State() == Silent
    {
      var c := LowpassCoefficients(m, sampleRate, cutoffFreq, q);
      b0, b1, b2, a1, a2 := c.b0, c.b1, c.b2, c.a1, c.a2;
      z1, z2 := 0.0, 0.0;
    }

    constructor NewHighpass(m: MathLib, sampleRate: real, cutoffFreq: real, q: real)
      requires PassDefined(m, sampleRate, cutoffFreq, q)
      ensures Coeffs() == HighpassCoefficients(m, sampleRate, cutoffFreq, q)
      ensures State() == Silent
    {
      var c := HighpassCoefficients(m, sampleRate, cutoffFreq, q);
      b0, b1, b2, a1, a2 := c.b0, c.b1, c.b2, c.a1, c.a2;
      z1, z2 := 0.0, 0.0;
    }

    constructor NewLowshelf(m: MathLib, sampleRate: real, cutoffFreq: real, gainDb: real, slope: real)
      requires ShelfDefined(m, sampleRate, cutoffFreq, gainDb, slope, true)
      ensures Coeffs() == LowshelfCoefficients(m, sampleRate, cutoffFreq, gainDb, slope)
      ensures State() == Silent
    {
      var c := LowshelfCoefficients(m, sampleRate, cutoffFreq, gainDb, slope);
      b0, b1, b2, a1, a2 := c.b0, c.b1, c.b2, c.a1, c.a2;
      z1, z2 := 0.0, 0.0;
    }

    constructor NewHighshelf(m: MathLib, sampleRate: real, cutoffFreq: real, gainDb: real, slope: real)
      requires ShelfDefined(m, sampleRate, cutoffFreq, gainDb, slope, false)
      ensures Coeffs() == HighshelfCoefficients(m, sampleRate, cutoffFreq, gainDb, slope)
      ensures State() == Silent
    {
      var c := HighshelfCoefficients(m, sampleRate, cutoffFreq, gainDb, slope);
      b0, b1, b2, a1, a2 := c.b0, c.b1, c.b2, c.a1, c.a2;
      z1, z2 := 0.0, 0.0;
    }

    constructor NewPeakingEq(m: MathLib, sampleRate: real, freq: real, q: real, gainDb: real)
      requires PeakingDefined(m, sampleRate, freq, q, gainDb)
      ensures Coeffs() == PeakingCoefficients(m, sampleRate, freq, q, gainDb)
      ensures State() == Silent
    {
      var c := PeakingCoefficients(m, sampleRate, freq, q, gainDb);
      b0, b1, b2, a1, a2 := c.b0, c.b1, c.b2, c.a1, c.a2;
      z1, z2 := 0.0, 0.0;
    }

    /** process_sample: returns b0*x + b1*z1 + b2*z2 - a1*z1 - a2*z2, then z2 takes the
        old z1 and z1 the output. The coefficients are not touched. */
    method ProcessSample(input: real) returns (output: real)
      modifies this`z1, this`z2
      ensures output == Response(Coeffs(), old(State()), input)
      ensures State() == Shift(old(State()), output)
      ensures Coeffs() == old(Coeffs())
    {
      output := b0 * input + b1 * z1 + b2 * z2 - a1 * z1 - a2 * z2;
      z2 := z1;
      z1 := output;
    }
  }
}
