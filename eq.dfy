/** The equalizer of src/eq.rs: one peaking BiquadFilter per band, and every sample
    passed through all of them in band order, in place. */
module Eq {
  import opened Numerics
  import opened Filters

  /** EQBand: the centre frequency, gain in dB and Q of one band. */
  datatype EQBand = EQBand(frequency: real, gainDb: real, qFactor: real)

  predicate BandDefined(m: MathLib, sampleRate: real, b: EQBand) {
    PeakingDefined(m, sampleRate, b.frequency, b.qFactor, b.gainDb)
  }

  /** The filters equalizer builds: new_peaking_eq(sample_rate, frequency, q_factor,
      gain_db) for each band, in band order. */
  function Bank(m: MathLib, sampleRate: real, bands: seq<EQBand>): (cs: seq<Coefficients>)
    requires forall j :: 0 <= j < |bands| ==> BandDefined(m, sampleRate, bands[j])
    ensures |cs| == |bands|
  {
    seq(|bands|, j requires 0 <= j < |bands| && BandDefined(m, sampleRate, bands[j]) =>
      PeakingCoefficients(m, sampleRate, bands[j].frequency, bands[j].qFactor, bands[j].gainDb))
  }

  function Silence(n: nat): (ss: seq<Registers>)
    ensures |ss| == n
  {
    seq(n, _ => Silent)
  }

  /** One sample x through the chain cs whose registers are ss: each filter's output is the
      next filter's input. Gives the last filter's output and the chain's new registers. */
  function Cascade(cs: seq<Coefficients>, ss: seq<Registers>, x: real): (r: (real, seq<Registers>))
    requires |ss| == |cs|
    ensures |r.1| == |cs|
  {
    if |cs| == 0 then (x, [])
    else
      var n := |cs| - 1;
      var (y, front) := Cascade(cs[..n], ss[..n], x);
      var out := Response(cs[n], ss[n], y);
      (out, front + [Shift(ss[n], out)])
  }

  /** The samples xs, one after the other, through the chain cs starting from registers ss:
      the outputs and the registers left behind. */
  function Run(cs: seq<Coefficients>, ss: seq<Registers>, xs: seq<real>): (r: (seq<real>, seq<Registers>))
    requires |ss| == |cs|
    ensures |r.0| == |xs| && |r.1| == |cs|
  {
    if |xs| == 0 then ([], ss)
    else
      var (ys, regs) := Run(cs, ss, xs[..|xs| - 1]);
      var (y, next) := Cascade(cs, regs, xs[|xs| - 1]);
      (ys + [y], next)
  }

  /** What equalizer leaves in the slice for the chain cs: every filter starts silent. */
  function EqualizerOutputs(cs: seq<Coefficients>, xs: seq<real>): (ys: seq<real>)
    ensures |ys| == |xs|
  {
    Run(cs, Silence(|cs|), xs).0
  }

  /** The first loop of equalizer: a new peaking filter for each band, in band order,
      each with silent registers. */
  method NewBank(m: MathLib, sampleRate: real, bands: seq<EQBand>) returns (filters: seq<BiquadFilter>)
    requires forall j :: 0 <= j < |bands| ==> BandDefined(m, sampleRate, bands[j])
    ensures |filters| == |bands|
    ensures forall j :: 0 <= j < |bands| ==> fresh(filters[j])
    ensures forall j, j' :: 0 <= j < j' < |bands| ==> filters[j] != filters[j']
    ensures forall j :: 0 <= j < |bands| ==>
      filters[j].Coeffs() == Bank(m, sampleRate, bands)[j] && filters[j].State() == Silent
  {
    filters := [];
    var b := 0;
    while b < |bands|
      invariant 0 <= b <= |bands| && |filters| == b
      invariant forall j :: 0 <= j < b ==> fresh(filters[j])
      invariant forall j, j' :: 0 <= j < j' < b ==> filters[j] != filters[j']
      invariant forall j :: 0 <= j < b ==>
        filters[j].Coeffs() == Bank(m, sampleRate, bands)[j] && filters[j].State() == Silent
    {
      var band := bands[b];
      var filter := new BiquadFilter.NewPeakingEq(m, sampleRate, band.frequency, band.qFactor, band.gainDb);
      filters := filters + [filter];
      b := b + 1;
    }
  }

  /** The inner loop of equalizer: one sample through every filter, in band order. */
  method ProcessChain(filters: seq<BiquadFilter>, ghost cs: seq<Coefficients>, ghost regs: seq<Registers>, x: real)
      returns (y: real)
    requires |filters| == |cs| == |regs|
    requires forall i, i' :: 0 <= i < i' < |filters| ==> filters[i] != filters[i']
    requires forall i :: 0 <= i < |filters| ==> filters[i].Coeffs() == cs[i] && filters[i].State() == regs[i]
    modifies set i | 0 <= i < |filters| :: filters[i]
    ensures y == Cascade(cs, regs, x).0
    ensures forall i :: 0 <= i < |filters| ==>
      filters[i].Coeffs() == cs[i] && filters[i].State() == Cascade(cs, regs, x).1[i]
  {
    var n := |filters|;
    y := x;
    var j := 0;
    while j < n
      invariant 0 <= j <= n
      invariant forall i :: 0 <= i < n ==> filters[i].Coeffs() == cs[i]
      invariant y == Cascade(cs[..j], regs[..j], x).0
      invariant forall i :: 0 <= i < j ==> filters[i].State() == Cascade(cs[..j], regs[..j], x).1[i]
      invariant forall i :: j <= i < n ==> filters[i].State() == regs[i]
    {
      assert cs[..j + 1][..j] == cs[..j] && regs[..j + 1][..j] == regs[..j];
      y := filters[j].ProcessSample(y);
      j := j + 1;
    }
    assert cs[..n] == cs && regs[..n] == regs;
  }

  /** The sample loop of equalizer: every sample, first to last, through the chain of
      filters, the last filter's output written back in place. */
  method ProcessSlice(filters: seq<BiquadFilter>, ghost cs: seq<Coefficients>, samples: array<real>)
    requires |filters| == |cs|
    requires forall j, j' :: 0 <= j < j' < |filters| ==> filters[j] != filters[j']
    requires forall j :: 0 <= j < |filters| ==> filters[j] as object != samples
    requires forall j :: 0 <= j < |filters| ==> filters[j].Coeffs() == cs[j] && filters[j].State() == Silent
    modifies samples, set j | 0 <= j < |filters| :: filters[j]
    ensures samples[..] == EqualizerOutputs(cs, old(samples[..]))
  {
    ghost var xs := samples[..];
    var n := |filters|;
    ghost var silence := Silence(n);
    ghost var done, regs := [], silence;
    var k := 0;
    while k < samples.Length
      invariant 0 <= k <= samples.Length == |xs|
      invariant forall j :: 0 <= j < n ==> filters[j].Coeffs() == cs[j]
      invariant (done, regs) == Run(cs, silence, xs[..k])
      invariant forall j :: 0 <= j < n ==> filters[j].State() == regs[j]
      invariant forall t :: 0 <= t < k ==> samples[t] == done[t]
      invariant forall t :: k <= t < |xs| ==> samples[t] == xs[t]
    {
      var processed := ProcessChain(filters, cs, regs, samples[k]);
      assert xs[..k + 1][..k] == xs[..k];
      done, regs := done + [processed], Cascade(cs, regs, xs[k]).1;
      samples[k] := processed;
      k := k + 1;
    }
    assert xs[..k] == xs;
  }

  /** equalizer: builds one peaking filter per band, then runs the slice through them. */
  method Equalizer(m: MathLib, samples: array<real>, sampleRate: real, bands: seq<EQBand>)
    requires forall j :: 0 <= j < |bands| ==> BandDefined(m, sampleRate, bands[j])
    modifies samples
    ensures samples[..] == EqualizerOutputs(Bank(m, sampleRate, bands), old(samples[..]))
  {
    var filters := NewBank(m, sampleRate, bands);
    ProcessSlice(filters, Bank(m, sampleRate, bands), samples);
  }

  /** With no bands the slice is left as it was. */
  lemma {:induction false} NoBandsIsIdentity(xs: seq<real>)
    ensures EqualizerOutputs([], xs) == xs
  {
    UnityRunPassesThrough([], [], xs);
  }

  /** A chain of unity filters passes its input through, whatever its registers hold. */
  lemma {:induction false} UnityCascadePassesThrough(cs: seq<Coefficients>, ss: seq<Registers>, x: real)
    requires |ss| == |cs|
    requires forall i :: 0 <= i < |cs| ==> IsUnity(cs[i])
    ensures Cascade(cs, ss, x).0 == x
  {
    if |cs| > 0 {
      var n := |cs| - 1;
      UnityCascadePassesThrough(cs[..n], ss[..n], x);
      UnityPassesThrough(cs[n], ss[n], x);
    }
  }

  lemma {:induction false} UnityRunPassesThrough(cs: seq<Coefficients>, ss: seq<Registers>, xs: seq<real>)
    requires |ss| == |cs|
    requires forall i :: 0 <= i < |cs| ==> IsUnity(cs[i])
    ensures Run(cs, ss, xs).0 == xs
  {
    if |xs| > 0 {
      var front := xs[..|xs| - 1];
      UnityRunPassesThrough(cs, ss, front);
      UnityCascadePassesThrough(cs, Run(cs, ss, front).1, xs[|xs| - 1]);
      assert front + [xs[|xs| - 1]] == xs;
    }
  }

  /** An equalizer whose every band has A = 10^(gain_db/40) = 1 leaves the slice as it was. */
  lemma FlatBandsAreIdentity(m: MathLib, sampleRate: real, bands: seq<EQBand>, xs: seq<real>)
    requires forall j :: 0 <= j < |bands| ==> BandDefined(m, sampleRate, bands[j])
    requires forall j :: 0 <= j < |bands| ==> Amplitude(m, bands[j].gainDb) == 1.0
    ensures EqualizerOutputs(Bank(m, sampleRate, bands), xs) == xs
  {
    var cs := Bank(m, sampleRate, bands);
    UnityRunPassesThrough(cs, Silence(|cs|), xs);
  }

  /** A sample through cs1 + cs2 is the sample through cs1 and then through cs2. */
  lemma {:induction false} CascadeSplit(cs1: seq<Coefficients>, cs2: seq<Coefficients>,
                                        ss1: seq<Registers>, ss2: seq<Registers>, x: real)
    requires |ss1| == |cs1| && |ss2| == |cs2|
    ensures var (y1, r1) := Cascade(cs1, ss1, x);
            var (y2, r2) := Cascade(cs2, ss2, y1);
            Cascade(cs1 + cs2, ss1 + ss2, x) == (y2, r1 + r2)
  {
    if |cs2| == 0 {
      assert cs1 + cs2 == cs1 && ss1 + ss2 == ss1;
      var r1 := Cascade(cs1, ss1, x);
      assert Cascade(cs2, ss2, r1.0) == (r1.0, []);
      assert r1.1 + [] == r1.1;
    } else {
      var n := |cs2| - 1;
      var m := |cs1| + n;
      assert (cs1 + cs2)[..m] == cs1 + cs2[..n];
      assert (ss1 + ss2)[..m] == ss1 + ss2[..n];
      assert (cs1 + cs2)[m] == cs2[n] && (ss1 + ss2)[m] == ss2[n];
      CascadeSplit(cs1, cs2[..n], ss1, ss2[..n], x);
      var r1 := Cascade(cs1, ss1, x);
      var r2 := Cascade(cs2[..n], ss2[..n], r1.0);
      assert Cascade(cs1 + cs2[..n], ss1 + ss2[..n], x) == (r2.0, r1.1 + r2.1);
      var out := Response(cs2[n], ss2[n], r2.0);
      assert Cascade(cs2, ss2, r1.0) == (out, r2.1 + [Shift(ss2[n], out)]);
      assert Cascade(cs1 + cs2, ss1 + ss2, x) == (out, r1.1 + r2.1 + [Shift(ss2[n], out)]);
      assert r1.1 + r2.1 + [Shift(ss2[n], out)] == r1.1 + (r2.1 + [Shift(ss2[n], out)]);
    }
  }

  /** Samples through cs1 + cs2 are the samples through cs1 and then the results through cs2. */
  lemma {:induction false} RunSplit(cs1: seq<Coefficients>, cs2: seq<Coefficients>,
                                    ss1: seq<Registers>, ss2: seq<Registers>, xs: seq<real>)
    requires |ss1| == |cs1| && |ss2| == |cs2|
    ensures var (ys1, r1) := Run(cs1, ss1, xs);
            var (ys2, r2) := Run(cs2, ss2, ys1);
            Run(cs1 + cs2, ss1 + ss2, xs) == (ys2, r1 + r2)
  {
    if |xs| > 0 {
      var front, x := xs[..|xs| - 1], xs[|xs| - 1];
      RunSplit(cs1, cs2, ss1, ss2, front);
      var (ys1, r1) := Run(cs1, ss1, front);
      var (ys2, r2) := Run(cs2, ss2, ys1);
      CascadeSplit(cs1, cs2, r1, r2, x);
      var (y1, _) := Cascade(cs1, r1, x);
      assert (ys1 + [y1])[..|ys1|] == ys1;
    }
  }

  /** Running the cascade cs1 + cs2 sample by sample, as equalizer does, is the same as
      running the whole slice through cs1 and then the result through cs2. */
  lemma CascadeComposes(cs1: seq<Coefficients>, cs2: seq<Coefficients>, xs: seq<real>)
    ensures EqualizerOutputs(cs1 + cs2, xs) == EqualizerOutputs(cs2, EqualizerOutputs(cs1, xs))
  {
    assert Silence(|cs1 + cs2|) == Silence(|cs1|) + Silence(|cs2|);
    RunSplit(cs1, cs2, Silence(|cs1|), Silence(|cs2|), xs);
  }

  /** The first k outputs depend on the first k inputs only: the equalizer is causal. */
  lemma {:induction false} EqualizerIsCausal(cs: seq<Coefficients>, xs: seq<real>, k: nat)
    requires k <= |xs|
    ensures EqualizerOutputs(cs, xs)[..k] == EqualizerOutputs(cs, xs[..k])
  {
    if k < |xs| {
      var front := xs[..|xs| - 1];
      EqualizerIsCausal(cs, front, k);
      assert front[..k] == xs[..k];
    } else {
      assert xs[..k] == xs;
    }
  }
}
