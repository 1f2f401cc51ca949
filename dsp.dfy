/** The buffer transforms of src/dsp.rs: the dereverb pipeline, convolution, windowing,
    envelope and peak measurement, resampling and mid/side coding. */
module Dsp {
  import opened Numerics
  import opened Outcomes
  import Filters
  import Fx

  /** SAMPLE_RATE and HPF_CUTOFF_FREQ, the fixed parameters of dereverb. */
  const SAMPLE_RATE: real := 44100.0
  const HPF_CUTOFF_FREQ: real := 100.0

  /** The magnitude below which early_reflection_suppression attenuates, and by how much. */
  const REFLECTION_THRESHOLD: real := 0.05
  const ATTENUATION_FACTOR: real := 0.8

  // ----------------------------------------------------------------------------------
  // early_reflection_suppression and dereverb

  /** early_reflection_suppression: quiet samples are scaled by 0.8, the rest pass. */
  function EarlyReflectionSuppression(s: real): (r: real)
    ensures Abs(r) <= Abs(s)
    ensures (0.0 < s <==> 0.0 < r) && (s < 0.0 <==> r < 0.0)
    ensures REFLECTION_THRESHOLD <= Abs(s) ==> r == s
    ensures Abs(s) < REFLECTION_THRESHOLD ==> Abs(r) < REFLECTION_THRESHOLD
  {
    if Abs(s) < REFLECTION_THRESHOLD then s * ATTENUATION_FACTOR else s
  }

  /** dereverb's coefficient `dt / (rc + dt)` with rc = 1 / (100 * 2 * PI) and
      dt = 1 / 44100. */
  function DereverbAlpha(): (alpha: real)
    ensures 0.0 < alpha < 1.0
  {
    var rc := 1.0 / (HPF_CUTOFF_FREQ * 2.0 * PI);
    var dt := 1.0 / SAMPLE_RATE;
    assert 0.0 < rc && 0.0 < dt;
    var alpha := dt / (rc + dt);
    assert alpha * (rc + dt) == dt;
    alpha
  }

  /** The coefficient is the one low_pass_filter derives for 100 Hz at 44.1 kHz, which
      high_pass_filter would replace by its complement. */
  lemma DereverbAlphaIsLowPassAlpha()
    ensures Filters.FirstOrderDefined(SAMPLE_RATE, HPF_CUTOFF_FREQ)
    ensures DereverbAlpha() == Filters.LowPassAlpha(SAMPLE_RATE, HPF_CUTOFF_FREQ)
    ensures DereverbAlpha() == 1.0 - Filters.HighPassAlpha(SAMPLE_RATE, HPF_CUTOFF_FREQ)
  {
    assert HPF_CUTOFF_FREQ * 2.0 * PI == 2.0 * PI * HPF_CUTOFF_FREQ;
  }

  /** The high-pass stage of dereverb at sample k: `alpha * (prev_output + x - prev_input)`
      with both state variables 0.0 before the first sample. */
  function DereverbFiltered(xs: seq<real>, alpha: real, k: nat): real
    requires k < |xs|
  {
    var previousOutput := if k == 0 then 0.0 else DereverbFiltered(xs, alpha, k - 1);
    var previousInput := if k == 0 then 0.0 else xs[k - 1];
    Filters.HighPassStep(alpha, previousOutput, xs[k], previousInput)
  }

  /** The first k samples dereverb pushes: each filtered sample through the suppressor. */
  function DereverbPrefix(xs: seq<real>, alpha: real, k: nat): (ys: seq<real>)
    requires k <= |xs|
    ensures |ys| == k
  {
    if k == 0 then []
    else DereverbPrefix(xs, alpha, k - 1) + [EarlyReflectionSuppression(DereverbFiltered(xs, alpha, k - 1))]
  }

  /** What dereverb returns. */
  function DereverbOutputs(xs: seq<real>): (ys: seq<real>)
    ensures |ys| == |xs|
  {
    DereverbPrefix(xs, DereverbAlpha(), |xs|)
  }

  /** dereverb. */
  method Dereverb(input: seq<real>) returns (output: seq<real>)
    ensures output == DereverbOutputs(input)
  {
    output := [];
    var previousInput := 0.0;
    var previousOutput := 0.0;
    var alpha := DereverbAlpha();
    var k := 0;
    while k < |input|
      invariant 0 <= k <= |input|
      invariant output == DereverbPrefix(input, alpha, k)
      invariant previousInput == if k == 0 then 0.0 else input[k - 1]
      invariant previousOutput == if k == 0 then 0.0 else DereverbFiltered(input, alpha, k - 1)
    {
      var sample := input[k];
      var filtered := Filters.HighPassStep(alpha, previousOutput, sample, previousInput);
      previousInput := sample;
      previousOutput := filtered;
      var attenuation := EarlyReflectionSuppression(filtered);
      output := output + [attenuation];
      k := k + 1;
    }
  }

  /** For a signal that starts at 0.0 the filter stage of dereverb is exactly
      high_pass_filter's recurrence (whose state starts at the first sample). */
  lemma {:induction false} DereverbFilterIsHighPass(xs: seq<real>, alpha: real, k: nat)
    requires k < |xs| && xs[0] == 0.0
    ensures DereverbFiltered(xs, alpha, k) == Filters.HighPassOutput(xs, alpha, k)
  {
    if k > 0 {
      DereverbFilterIsHighPass(xs, alpha, k - 1);
    }
  }

  /** Every output of dereverb is at most as loud as the filtered sample it comes from. */
  lemma {:induction false} DereverbSuppresses(xs: seq<real>, alpha: real, k: nat)
    requires k <= |xs|
    ensures forall t :: 0 <= t < k ==> Abs(DereverbPrefix(xs, alpha, k)[t]) <= Abs(DereverbFiltered(xs, alpha, t))
  {
    if k > 0 {
      DereverbSuppresses(xs, alpha, k - 1);
    }
  }

  // ----------------------------------------------------------------------------------
  // mid_side_encode and mid_side_decode

  /** mid_side_encode: `((l + r) * 0.5, (l - r) * 0.5)` over the zipped channels. */
  function MidSideEncode(left: seq<real>, right: seq<real>): (r: (seq<real>, seq<real>))
    ensures |r.0| == |r.1| == if |left| <= |right| then |left| else |right|
  {
    var n := if |left| <= |right| then |left| else |right|;
    (seq(n, i requires 0 <= i < n => (left[i] + right[i]) * 0.5),
     seq(n, i requires 0 <= i < n => (left[i] - right[i]) * 0.5))
  }

  /** mid_side_decode: `(m + s, m - s)` over the zipped channels. */
  function MidSideDecode(mid: seq<real>, side: seq<real>): (r: (seq<real>, seq<real>))
    ensures |r.0| == |r.1| == if |mid| <= |side| then |mid| else |side|
  {
    var n := if |mid| <= |side| then |mid| else |side|;
    (seq(n, i requires 0 <= i < n => mid[i] + side[i]),
     seq(n, i requires 0 <= i < n => mid[i] - side[i]))
  }

  /** Decoding what was encoded gives back both channels. */
  lemma DecodeEncode(left: seq<real>, right: seq<real>)
    requires |left| == |right|
    ensures MidSideDecode(MidSideEncode(left, right).0, MidSideEncode(left, right).1) == (left, right)
  {
    var (mid, side) := MidSideEncode(left, right);
    var (l, r) := MidSideDecode(mid, side);
    assert l == left;
    assert r == right;
  }

  /** Encoding what was decoded gives back mid and side. */
  lemma EncodeDecode(mid: seq<real>, side: seq<real>)
    requires |mid| == |side|
    ensures MidSideEncode(MidSideDecode(mid, side).0, MidSideDecode(mid, side).1) == (mid, side)
  {
    var (left, right) := MidSideDecode(mid, side);
    var (m, s) := MidSideEncode(left, right);
    assert m == mid;
    assert s == side;
  }

  /** mid_side_encode([1, -1], [1, 1]) is ([1, 0], [0, -1]). */
  lemma EncodeExample()
    ensures MidSideEncode([1.0, -1.0], [1.0, 1.0]) == ([1.0, 0.0], [0.0, -1.0])
  {
    var (mid, side) := MidSideEncode([1.0, -1.0], [1.0, 1.0]);
    assert mid == [1.0, 0.0];
    assert side == [0.0, -1.0];
  }

  // ----------------------------------------------------------------------------------
  // peak_detection and envelope_detection

  /** f32::max on two ordinary numbers. */
  function Max(a: real, b: real): real {
    if a < b then b else a
  }

  /** peak_detection: `fold(0.0, f32::max)` over the magnitudes. */
  function PeakDetection(xs: seq<real>): (peak: real)
    ensures 0.0 <= peak
    ensures forall i :: 0 <= i < |xs| ==> Abs(xs[i]) <= peak
    ensures |xs| == 0 ==> peak == 0.0
    ensures peak == 0.0 || exists i :: 0 <= i < |xs| && Abs(xs[i]) == peak
  {
    if |xs| == 0 then 0.0
    else
      var n := |xs| - 1;
      var front := PeakDetection(xs[..n]);
      assert forall i :: 0 <= i < n ==> xs[..n][i] == xs[i];
      Max(front, Abs(xs[n]))
  }

  /** peak_detection and the Option fold of normalize agree: 0.0 for an empty slice,
      otherwise the largest magnitude. */
  lemma PeakIsMaxAbs(xs: seq<real>)
    ensures Fx.MaxAbs(xs) == if |xs| == 0 then None else Some(PeakDetection(xs))
  {
    if |xs| > 0 {
      var peak := PeakDetection(xs);
      if peak == 0.0 {
        assert Abs(xs[0]) == 0.0;
        Fx.MaxAbsIsTheBound(xs, peak, 0);
      } else {
        var j :| 0 <= j < |xs| && Abs(xs[j]) == peak;
        Fx.MaxAbsIsTheBound(xs, peak, j);
      }
    }
  }

  /** One step of envelope_detection: `0.1 * |x| + 0.9 * previous`. */
  function EnvelopeStep(previous: real, x: real): real {
    0.1 * Abs(x) + (1.0 - 0.1) * previous
  }

  /** What envelope_detection returns: the smoothed rectified signal, starting from 0.0. */
  function Envelope(xs: seq<real>): (env: seq<real>)
    ensures |env| == |xs|
  {
    if |xs| == 0 then []
    else
      var n := |xs| - 1;
      var front := Envelope(xs[..n]);
      front + [EnvelopeStep(if n == 0 then 0.0 else front[n - 1], xs[n])]
  }

  /** envelope_detection. */
  method EnvelopeDetection(samples: seq<real>) returns (envelope: seq<real>)
    ensures envelope == Envelope(samples)
  {
    envelope := [];
    var previous := 0.0;
    var k := 0;
    while k < |samples|
      invariant 0 <= k <= |samples|
      invariant envelope == Envelope(samples[..k])
      invariant previous == if k == 0 then 0.0 else envelope[k - 1]
    {
      assert samples[..k + 1][..k] == samples[..k];
      var current := EnvelopeStep(previous, samples[k]);
      envelope := envelope + [current];
      previous := current;
      k := k + 1;
    }
    assert samples[..k] == samples;
  }

  /** The envelope is never negative and never above the peak of the signal. */
  lemma {:induction false} EnvelopeBounded(xs: seq<real>)
    ensures forall k :: 0 <= k < |xs| ==> 0.0 <= Envelope(xs)[k] <= PeakDetection(xs)
  {
    if |xs| > 0 {
      var n := |xs| - 1;
      EnvelopeBounded(xs[..n]);
      var peak := PeakDetection(xs);
      var front := Envelope(xs[..n]);
      assert PeakDetection(xs[..n]) <= peak;
      var previous := if n == 0 then 0.0 else front[n - 1];
      assert 0.0 <= previous <= peak;
      assert Abs(xs[n]) <= peak;
      assert 0.1 * Abs(xs[n]) + 0.9 * previous <= 0.1 * peak + 0.9 * peak;
    }
  }

  // ----------------------------------------------------------------------------------
  // apply_window

  datatype WindowType = Hamming | Hann | Blackman

  /** The multiplier apply_window gives sample i of n (n >= 2). */
  function WindowFactor(m: MathLib, window: WindowType, i: nat, n: nat): real
    requires 2 <= n
  {
    var x := 2.0 * PI * i as real / (n - 1) as real;
    match window
    case Hamming => 0.54 - 0.46 * m.cos(x)
    case Hann => 0.5 * (1.0 - m.cos(x))
    case Blackman => 0.42 - 0.5 * m.cos(x) + 0.08 * m.cos(4.0 * PI * i as real / (n - 1) as real)
  }

  /** With cos in [-1, 1]: Hann in [0, 1], Hamming in [0.08, 1], Blackman in [-0.16, 1];
      so no window makes a sample louder. */
  lemma WindowFactorBounded(m: MathLib, window: WindowType, i: nat, n: nat)
    requires CosBounded(m) && 2 <= n
    ensures window == Hann ==> 0.0 <= WindowFactor(m, window, i, n) <= 1.0
    ensures window == Hamming ==> 0.08 <= WindowFactor(m, window, i, n) <= 1.0
    ensures window == Blackman ==> -0.16 <= WindowFactor(m, window, i, n) <= 1.0
  {
    var x := 2.0 * PI * i as real / (n - 1) as real;
    var y := 4.0 * PI * i as real / (n - 1) as real;
    assert -1.0 <= m.cos(x) <= 1.0 && -1.0 <= m.cos(y) <= 1.0;
  }

  /** What apply_window leaves in the slice. */
  function WindowOutputs(m: MathLib, xs: seq<real>, window: WindowType): (ys: seq<real>)
    requires |xs| != 1
    ensures |ys| == |xs|
  {
    seq(|xs|, i requires 0 <= i < |xs| && |xs| != 1 => Fx.Gained(xs[i], WindowFactor(m, window, i, |xs|)))
  }

  /** apply_window. A one-sample slice would divide by n - 1 = 0 and turn the sample into
      NaN, which the reals cannot express. */
  method ApplyWindow(m: MathLib, samples: array<real>, window: WindowType)
    requires samples.Length != 1
    modifies samples
    ensures samples[..] == WindowOutputs(m, old(samples[..]), window)
  {
    ghost var xs := samples[..];
    var n := samples.Length;
    var i := 0;
    while i < n
      invariant 0 <= i <= n == |xs|
      invariant forall t :: 0 <= t < i ==> samples[t] == Fx.Gained(xs[t], WindowFactor(m, window, t, n))
      invariant forall t :: i <= t < n ==> samples[t] == xs[t]
    {
      var multiplier := WindowFactor(m, window, i, n);
      samples[i] := Fx.Gained(samples[i], multiplier);
      i := i + 1;
    }
  }

  /** With cos in [-1, 1] windowing never makes a sample louder. */
  lemma WindowNeverAmplifies(m: MathLib, xs: seq<real>, window: WindowType)
    requires CosBounded(m) && |xs| != 1
    ensures forall i :: 0 <= i < |xs| ==> Abs(WindowOutputs(m, xs, window)[i]) <= Abs(xs[i])
  {
    forall i | 0 <= i < |xs|
      ensures Abs(WindowOutputs(m, xs, window)[i]) <= Abs(xs[i])
    {
      var f := WindowFactor(m, window, i, |xs|);
      WindowFactorBounded(m, window, i, |xs|);
      if 0.0 <= f {
        Fx.ShrinkingScale(xs[i], f);
      } else {
        Fx.ShrinkingScale(xs[i], -f);
        assert Fx.Gained(xs[i], f) == -Fx.Gained(xs[i], -f);
      }
    }
  }

  // ----------------------------------------------------------------------------------
  // convolve

  /** The contribution of signal[i] to output k: `signal[i] * impulse[k - i]` when that
      impulse index exists. */
  function ConvTerm(signal: seq<real>, impulse: seq<real>, i: nat, k: nat): real
    requires i < |signal|
  {
    if i <= k && k - i < |impulse| then Fx.Gained(signal[i], impulse[k - i]) else 0.0
  }

  /** Output k after the first `rows` signal samples have been accumulated. */
  function ConvRows(signal: seq<real>, impulse: seq<real>, k: nat, rows: nat): real
    requires rows <= |signal|
  {
    if rows == 0 then 0.0
    else ConvRows(signal, impulse, k, rows - 1) + ConvTerm(signal, impulse, rows - 1, k)
  }

  /** The full linear convolution: n + m - 1 outputs, output k summing
      signal[i] * impulse[j] over every i + j == k. */
  function Convolution(signal: seq<real>, impulse: seq<real>): (ys: seq<real>)
    requires 0 < |signal| + |impulse|
    ensures |ys| == |signal| + |impulse| - 1
  {
    seq(|signal| + |impulse| - 1,
        k requires 0 <= k < |signal| + |impulse| - 1 => ConvRows(signal, impulse, k, |signal|))
  }

  /** convolve. `n + m - 1` underflows when both inputs are empty. */
  method Convolve(signal: seq<real>, impulse: seq<real>) returns (r: Result<seq<real>>)
    ensures r.Err? <==> |signal| == 0 && |impulse| == 0
    ensures r.Err? ==> r.error == SubtractOverflow
    ensures r.Ok? ==> r.value == Convolution(signal, impulse)
  {
    var n := |signal|;
    var m := |impulse|;
    if n + m == 0 {
      return Err(SubtractOverflow);
    }
    var output := new real[n + m - 1](_ => 0.0);
    var i := 0;
    while i < n
      invariant 0 <= i <= n
      invariant forall t :: 0 <= t < output.Length ==> output[t] == ConvRows(signal, impulse, t, i)
    {
      var j := 0;
      while j < m
        invariant 0 <= j <= m
        invariant forall t :: 0 <= t < output.Length ==>
          output[t] == ConvRows(signal, impulse, t, i) + (if i <= t < i + j then ConvTerm(signal, impulse, i, t) else 0.0)
      {
        output[i + j] := output[i + j] + Fx.Gained(signal[i], impulse[j]);
        j := j + 1;
      }
      i := i + 1;
    }
    return Ok(output[..]);
  }

  /** Accumulating the rows of a one-sample unit impulse picks out one signal sample. */
  lemma {:induction false} UnitImpulseRows(signal: seq<real>, k: nat, rows: nat)
    requires rows <= |signal|
    ensures ConvRows(signal, [1.0], k, rows) == if k < rows then signal[k] else 0.0
  {
    if rows > 0 {
      UnitImpulseRows(signal, k, rows - 1);
    }
  }

  /** Convolving with the unit impulse [1.0] returns the signal. */
  lemma UnitImpulse(signal: seq<real>)
    ensures Convolution(signal, [1.0]) == signal
  {
    forall k | 0 <= k < |signal|
      ensures Convolution(signal, [1.0])[k] == signal[k]
    {
      UnitImpulseRows(signal, k, |signal|);
    }
  }

  /** convolve([1, 2], [1, 1]) is [1, 3, 2]. */
  lemma ConvolveExample()
    ensures Convolution([1.0, 2.0], [1.0, 1.0]) == [1.0, 3.0, 2.0]
  {
    var ys := Convolution([1.0, 2.0], [1.0, 1.0]);
    assert ys[0] == 1.0 && ys[1] == 3.0 && ys[2] == 2.0;
  }

  /** A sequence read with zeros outside its indices. */
  function Ext(s: seq<real>, i: int): real {
    if 0 <= i < |s| then s[i] else 0.0
  }

  /** `f(lo) + ... + f(hi - 1)`. */
  function SumOver(f: int -> real, lo: int, hi: int): real
    decreases hi - lo
  {
    if hi <= lo then 0.0 else SumOver(f, lo, hi - 1) + f(hi - 1)
  }

  lemma {:induction false} SumSplit(f: int -> real, lo: int, mid: int, hi: int)
    requires lo <= mid <= hi
    ensures SumOver(f, lo, hi) == SumOver(f, lo, mid) + SumOver(f, mid, hi)
    decreases hi - mid
  {
    if mid < hi {
      SumSplit(f, lo, mid, hi - 1);
    }
  }

  lemma {:induction false} SumZero(f: int -> real, lo: int, hi: int)
    requires forall i :: lo <= i < hi ==> f(i) == 0.0
    ensures SumOver(f, lo, hi) == 0.0
    decreases hi - lo
  {
    if lo < hi {
      SumZero(f, lo, hi - 1);
    }
  }

  /** Summing g(i) == f(c - i) over [lo, hi) is summing f over the mirrored range. */
  lemma {:induction false} SumReflect(f: int -> real, g: int -> real, c: int, lo: int, hi: int)
    requires lo <= hi
    requires forall i :: lo <= i < hi ==> g(i) == f(c - i)
    ensures SumOver(g, lo, hi) == SumOver(f, c - hi + 1, c - lo + 1)
    decreases hi - lo
  {
    if lo < hi {
      SumReflect(f, g, c, lo, hi - 1);
      SumSplit(f, c - hi + 1, c - hi + 2, c - lo + 1);
    }
  }

  /** The summand of output k as a function of the signal index. */
  function ConvSummand(signal: seq<real>, impulse: seq<real>, k: int): int -> real {
    i => Fx.Gained(Ext(signal, i), Ext(impulse, k - i))
  }

  lemma {:induction false} ConvRowsAsSum(signal: seq<real>, impulse: seq<real>, k: nat, rows: nat)
    requires rows <= |signal|
    ensures ConvRows(signal, impulse, k, rows) == SumOver(ConvSummand(signal, impulse, k), 0, rows)
  {
    if rows > 0 {
      ConvRowsAsSum(signal, impulse, k, rows - 1);
      var i := rows - 1;
      assert ConvTerm(signal, impulse, i, k) == ConvSummand(signal, impulse, k)(i);
    }
  }

  /** Output k is the sum of its summand over [0, k + 1). */
  lemma ConvolutionAsSum(signal: seq<real>, impulse: seq<real>, k: nat)
    requires k < |signal| + |impulse| - 1
    ensures ConvRows(signal, impulse, k, |signal|) == SumOver(ConvSummand(signal, impulse, k), 0, k + 1)
  {
    var f := ConvSummand(signal, impulse, k);
    var n := |signal| + |impulse|;
    ConvRowsAsSum(signal, impulse, k, |signal|);
    SumSplit(f, 0, |signal|, n);
    SumZero(f, |signal|, n);
    SumSplit(f, 0, k + 1, n);
    SumZero(f, k + 1, n);
  }

  /** Convolution is commutative: signal and impulse response can trade places. */
  lemma ConvolutionCommutes(signal: seq<real>, impulse: seq<real>)
    requires 0 < |signal| + |impulse|
    ensures Convolution(signal, impulse) == Convolution(impulse, signal)
  {
    forall k | 0 <= k < |signal| + |impulse| - 1
      ensures Convolution(signal, impulse)[k] == Convolution(impulse, signal)[k]
    {
      var f := ConvSummand(signal, impulse, k);
      var g := ConvSummand(impulse, signal, k);
      ConvolutionAsSum(signal, impulse, k);
      ConvolutionAsSum(impulse, signal, k);
      forall i | 0 <= i < k + 1
        ensures g(i) == f(k - i)
      {
        assert k - (k - i) == i;
      }
      SumReflect(f, g, k, 0, k + 1);
    }
  }

  // ----------------------------------------------------------------------------------
  // resample

  /** `target_rate / original_rate`. */
  function ResampleRatio(originalRate: real, targetRate: real): real
    requires originalRate != 0.0
  {
    targetRate / originalRate
  }

  /** `((len as f32) * ratio).round() as usize`. */
  function ResampleLength(len: nat, ratio: real): nat {
    RoundToNat(len as real * ratio)
  }

  /** For every output index the source position lies inside the input: the ratio is
      positive, `index_floor <= len - 1`, and the interpolation weight is in [0, 1). */
  lemma ResampleIndexBounds(len: nat, ratio: real, i: nat)
    requires i < ResampleLength(len, ratio)
    ensures 0.0 < ratio && 0 < len
    ensures TruncToNat(i as real / ratio) < len
    ensures 0.0 <= i as real / ratio - TruncToNat(i as real / ratio) as real < 1.0
  {
    var x := len as real * ratio;
    assert 0.0 < x;
    assert i as real + 1.0 <= x + 0.5;
    var src := i as real / ratio;
    assert src * ratio == i as real;
    if len as real <= src {
      assert len as real * ratio <= src * ratio;
    }
  }

  /** Output i of resample: linear interpolation between `index_floor` and the clamped
      `index_ceil = min(index_floor + 1, len - 1)`. */
  function ResampleAt(xs: seq<real>, ratio: real, i: nat): real
    requires i < ResampleLength(|xs|, ratio)
  {
    ResampleIndexBounds(|xs|, ratio, i);
    var src := i as real / ratio;
    var lo := TruncToNat(src);
    var hi := if lo + 1 <= |xs| - 1 then lo + 1 else |xs| - 1;
    var weight := src - lo as real;
    Fx.Gained(xs[lo], 1.0 - weight) + Fx.Gained(xs[hi], weight)
  }

  /** The first k outputs of resample. */
  function ResamplePrefix(xs: seq<real>, ratio: real, k: nat): (ys: seq<real>)
    requires k <= ResampleLength(|xs|, ratio)
    ensures |ys| == k
  {
    if k == 0 then [] else ResamplePrefix(xs, ratio, k - 1) + [ResampleAt(xs, ratio, k - 1)]
  }

  /** What resample returns: `round(len * ratio)` interpolated samples. */
  function ResampleOutputs(xs: seq<real>, ratio: real): (ys: seq<real>)
    ensures |ys| == ResampleLength(|xs|, ratio)
  {
    ResamplePrefix(xs, ratio, ResampleLength(|xs|, ratio))
  }

  /** resample. A zero original rate would make the ratio infinite, which the reals
      cannot express. */
  method Resample(samples: seq<real>, originalRate: real, targetRate: real) returns (resampled: seq<real>)
    requires originalRate != 0.0
    ensures resampled == ResampleOutputs(samples, ResampleRatio(originalRate, targetRate))
  {
    var ratio := ResampleRatio(originalRate, targetRate);
    var newLength := ResampleLength(|samples|, ratio);
    resampled := [];
    var i := 0;
    while i < newLength
      invariant 0 <= i <= newLength
      invariant resampled == ResamplePrefix(samples, ratio, i)
    {
      ResampleIndexBounds(|samples|, ratio, i);
      var srcIndex := i as real / ratio;
      var indexFloor := TruncToNat(srcIndex);
      var indexCeil := if indexFloor + 1 <= |samples| - 1 then indexFloor + 1 else |samples| - 1;
      var weight := srcIndex - indexFloor as real;
      var interpolated := Fx.Gained(samples[indexFloor], 1.0 - weight) + Fx.Gained(samples[indexCeil], weight);
      resampled := resampled + [interpolated];
      i := i + 1;
    }
  }

  /** With ratio 1 resample returns its input. */
  lemma {:induction false} ResampleIdentityPrefix(xs: seq<real>, k: nat)
    requires k <= |xs|
    ensures k <= ResampleLength(|xs|, 1.0)
    ensures ResamplePrefix(xs, 1.0, k) == xs[..k]
  {
    assert ResampleLength(|xs|, 1.0) == |xs|;
    if k > 0 {
      ResampleIdentityPrefix(xs, k - 1);
      var i := k - 1;
      assert i as real / 1.0 == i as real;
      assert ResampleAt(xs, 1.0, i) == xs[i];
      assert xs[..k] == xs[..i] + [xs[i]];
    }
  }

  /** Resampling at equal rates changes nothing. */
  lemma ResampleIdentity(xs: seq<real>, rate: real)
    requires rate != 0.0
    ensures ResampleOutputs(xs, ResampleRatio(rate, rate)) == xs
  {
    assert ResampleRatio(rate, rate) == 1.0;
    ResampleIdentityPrefix(xs, |xs|);
    assert xs[..|xs|] == xs;
  }

  /** Interpolation never leaves the range of the input: every output is at most the
      peak of the input in magnitude. */
  lemma ResampleWithinPeak(xs: seq<real>, ratio: real, i: nat)
    requires i < ResampleLength(|xs|, ratio)
    ensures Abs(ResampleAt(xs, ratio, i)) <= PeakDetection(xs)
  {
    ResampleIndexBounds(|xs|, ratio, i);
    var src := i as real / ratio;
    var lo := TruncToNat(src);
    var hi := if lo + 1 <= |xs| - 1 then lo + 1 else |xs| - 1;
    Interpolated(xs[lo], xs[hi], src - lo as real, PeakDetection(xs));
  }

  /** A weighted mix of two values bounded by `peak` is bounded by `peak`. */
  lemma Interpolated(a: real, b: real, weight: real, peak: real)
    requires 0.0 <= weight <= 1.0 && Abs(a) <= peak && Abs(b) <= peak
    ensures Abs(Fx.Gained(a, 1.0 - weight) + Fx.Gained(b, weight)) <= peak
  {
    var u := Fx.Gained(a, 1.0 - weight);
    var v := Fx.Gained(b, weight);
    ScaledBound(a, 1.0 - weight, peak);
    ScaledBound(b, weight, peak);
    assert peak * (1.0 - weight) + peak * weight == peak;
    assert Abs(u + v) <= Abs(u) + Abs(v);
  }

  /** Scaling by c >= 0 scales a bound on the magnitude by c. */
  lemma ScaledBound(x: real, c: real, peak: real)
    requires Abs(x) <= peak && 0.0 <= c
    ensures Abs(Fx.Gained(x, c)) <= peak * c
  {
    Fx.ScaledMagnitude(x, c);
    assert 0.0 <= (peak - Abs(x)) * c == peak * c - Abs(x) * c;
  }

  /** resample([0, 1, 2, 3], 2, 4) doubles the length; the last output reads the clamped
      upper index and repeats the final sample. */
  lemma ResampleExample()
    ensures ResampleOutputs([0.0, 1.0, 2.0, 3.0], ResampleRatio(2.0, 4.0))
         == [0.0, 0.5, 1.0, 1.5, 2.0, 2.5, 3.0, 3.0]
  {
    var xs := [0.0, 1.0, 2.0, 3.0];
    assert ResampleRatio(2.0, 4.0) == 2.0;
    assert ResampleLength(4, 2.0) == 8;
    var ys := ResampleOutputs(xs, 2.0);
    forall i | 0 <= i < 8
      ensures ys[i] == i as real / 2.0 - if i == 7 then 0.5 else 0.0
    {
      ResamplePrefixAt(xs, 2.0, 8, i);
      ResampleRampAt(i);
    }
  }

  lemma ResampleRampAt(i: nat)
    requires i < 8
    ensures ResampleLength(4, 2.0) == 8
    ensures ResampleAt([0.0, 1.0, 2.0, 3.0], 2.0, i) == i as real / 2.0 - if i == 7 then 0.5 else 0.0
  {
    assert ResampleLength(4, 2.0) == 8;
    var src := i as real / 2.0;
    var lo := i / 2;
    assert lo as real <= src < lo as real + 1.0;
    assert TruncToNat(src) == lo;
    var weight := src - lo as real;
    assert weight == if i % 2 == 0 then 0.0 else 0.5;
  }

  lemma {:induction false} ResamplePrefixAt(xs: seq<real>, ratio: real, k: nat, i: nat)
    requires i < k <= ResampleLength(|xs|, ratio)
    ensures ResamplePrefix(xs, ratio, k)[i] == ResampleAt(xs, ratio, i)
  {
    if i < k - 1 {
      ResamplePrefixAt(xs, ratio, k - 1, i);
    }
  }
}
