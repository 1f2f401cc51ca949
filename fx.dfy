/** The effects of src/fx.rs. Each rewrites the caller's slice in place, sample by sample,
    carrying a delay buffer with its cursor, a gain envelope or an LFO phase. */
module Fx {
  import opened Numerics
  import opened Outcomes
  import opened DelayLines

  // ----------------------------------------------------------------------------------
  // Shared per-sample formulas

  /** `dry * (1.0 - amount) + wet * amount`: the output mix of reverb_effect and
      flanger_effect. */
  function WetDry(dry: real, wet: real, amount: real): (r: real)
    ensures amount == 0.0 ==> r == dry
    ensures amount == 1.0 ==> r == wet
  {
    dry * (1.0 - amount) + wet * amount
  }

  /** A sample times a gain: `*sample *= gain` and its kin. */
  function Gained(x: real, g: real): real {
    x * g
  }

  /** A delay in whole samples: `(sample_rate * ms / 1000.0) as usize`. */
  function DelayLength(sampleRate: real, ms: real): nat {
    TruncToNat(sampleRate * ms / 1000.0)
  }

  lemma UnitScale(a: real, b: real)
    requires 0.0 <= a <= 1.0 && 0.0 <= b
    ensures 0.0 <= a * b <= b
  {
    var rest := (1.0 - a) * b;
    assert 0.0 <= rest;
    assert a * b + rest == b;
  }

  /** A gain in [0, 1] never makes a sample louder. */
  lemma ShrinkingScale(x: real, g: real)
    requires 0.0 <= g <= 1.0
    ensures Abs(Gained(x, g)) <= Abs(x)
  {
    if x < 0.0 {
      UnitScale(g, -x);
      assert x * g == -(g * -x);
    } else {
      UnitScale(g, x);
    }
  }

  // ----------------------------------------------------------------------------------
  // delay_effect

  /** What delay_effect leaves in the slice: every sample replaced by the comb line's
      output, the input N samples earlier plus feedback times the output then. */
  function DelayOutputs(xs: seq<real>, n: nat, feedback: real): (ys: seq<real>)
    requires 0 < n || |xs| == 0
    ensures |ys| == |xs|
  {
    seq(|xs|, k requires 0 <= k < |xs| && (0 < n || |xs| == 0) => CombTap(xs, n, feedback, k))
  }

  /** One comb line handling sample k: read the slot under the cursor, store the input
      plus feedback times what was read there, move the cursor on by one modulo the line's
      length. This is the loop body of delay_effect and of reverb_effect's inner loop. */
  method CombLineStep(line: array<real>, index: nat, ghost xs: seq<real>, ghost k: nat, x: real, feedback: real)
      returns (delayed: real, next: nat)
    requires 0 < line.Length && k < |xs| && x == xs[k] && index == k % line.Length
    requires line[..] == Ring(line.Length, CombStored(xs, line.Length, feedback, k))
    modifies line
    ensures delayed == CombTap(xs, line.Length, feedback, k)
    ensures next == (k + 1) % line.Length
    ensures line[..] == Ring(line.Length, CombStored(xs, line.Length, feedback, k + 1))
  {
    CombRead(xs, line.Length, feedback, k);
    delayed := line[index];
    var newSample := Feedback(x, delayed, feedback);
    line[index] := newSample;
    RingWrite(line.Length, CombStored(xs, line.Length, feedback, k), newSample);
    ModOfSum(k, 1, line.Length);
    next := (index + 1) % line.Length;
  }

  /** delay_effect. A zero-sample delay makes the first sample index an empty buffer: the
      slice is then left as it was. */
  method DelayEffect(samples: array<real>, sampleRate: real, delayMs: real, feedback: real) returns (r: Outcome)
    modifies samples
    ensures var n := DelayLength(sampleRate, delayMs);
      r == if n == 0 && samples.Length > 0 then Fail(IndexOutOfBounds) else Pass
    ensures r.Fail? ==> samples[..] == old(samples[..])
    ensures r.Pass? ==> samples[..] == DelayOutputs(old(samples[..]), DelayLength(sampleRate, delayMs), feedback)
  {
    var n := DelayLength(sampleRate, delayMs);
    if samples.Length == 0 {
      return Pass;
    }
    if n == 0 {
      return Fail(IndexOutOfBounds);
    }
    ghost var xs := samples[..];
    var buffer := new real[n](_ => 0.0);
    assert buffer[..] == Ring(n, []);
    var index := 0;
    var k := 0;
    while k < samples.Length
      invariant 0 <= k <= samples.Length == |xs| && index == k % n
      invariant buffer[..] == Ring(n, CombStored(xs, n, feedback, k))
      invariant forall t :: 0 <= t < k ==> samples[t] == CombTap(xs, n, feedback, t)
      invariant forall t :: k <= t < |xs| ==> samples[t] == xs[t]
    {
      var delayed;
      delayed, index := CombLineStep(buffer, index, xs, k, samples[k], feedback);
      samples[k] := delayed;
      k := k + 1;
    }
    return Pass;
  }

  /** The first N outputs are silence, and without feedback output k is input k - N. */
  lemma DelayWithoutFeedback(xs: seq<real>, n: nat)
    requires 0 < n
    ensures forall k :: 0 <= k < |xs| ==>
      DelayOutputs(xs, n, 0.0)[k] == if k < n then 0.0 else xs[k - n]
  {
  }

  /** A four-sample delay line fed 1, 2, 3, 4, 5 hands out 0, 0, 0, 0, 1. */
  lemma DelayOfFiveSamples()
    ensures DelayOutputs([1.0, 2.0, 3.0, 4.0, 5.0], 4, 0.0) == [0.0, 0.0, 0.0, 0.0, 1.0]
  {
    var xs := [1.0, 2.0, 3.0, 4.0, 5.0];
    assert CombTap(xs, 4, 0.0, 4) == Feedback(xs[0], CombTap(xs, 4, 0.0, 0), 0.0) == 1.0;
  }

  // ----------------------------------------------------------------------------------
  // reverb_effect

  /** The delay times of reverb_effect's four comb lines, in milliseconds. */
  const REVERB_TIMES_MS: seq<nat> := [29, 37, 41, 43]

  /** The lengths of the four lines at a sample rate. */
  function ReverbLengths(sampleRate: real): (lens: seq<nat>)
    ensures |lens| == |REVERB_TIMES_MS|
  {
    seq(|REVERB_TIMES_MS|, i requires 0 <= i < |REVERB_TIMES_MS| => DelayLength(sampleRate, REVERB_TIMES_MS[i] as real))
  }

  predicate AllPositive(lens: seq<nat>) {
    forall i :: 0 <= i < |lens| ==> lens[i] > 0
  }

  /** `reverberated` after the first i lines have handed out their sample k: the sum of
      their comb taps, added in line order. */
  function TapSum(xs: seq<real>, lens: seq<nat>, damping: real, k: nat, i: nat): real
    requires AllPositive(lens) && k < |xs| && i <= |lens|
  {
    if i == 0 then 0.0 else TapSum(xs, lens, damping, k, i - 1) + CombTap(xs, lens[i - 1], damping, k)
  }

  /** What reverb_effect leaves in the slice: each dry sample mixed with the sum of what
      the lines hand out, in line order. */
  function ReverbOutputs(xs: seq<real>, lens: seq<nat>, roomSize: real, damping: real): (ys: seq<real>)
    requires AllPositive(lens) || |xs| == 0
    ensures |ys| == |xs|
  {
    ReverbPrefix(xs, lens, roomSize, damping, |xs|)
  }

  /** The first k samples of ReverbOutputs. */
  function ReverbPrefix(xs: seq<real>, lens: seq<nat>, roomSize: real, damping: real, k: nat): (ys: seq<real>)
    requires (AllPositive(lens) || |xs| == 0) && k <= |xs|
    ensures |ys| == k
  {
    if k == 0 then []
    else ReverbPrefix(xs, lens, roomSize, damping, k - 1) + [WetDry(xs[k - 1], TapSum(xs, lens, damping, k - 1, |lens|), roomSize)]
  }

  /** Four new all-zero lines, one per delay time, as reverb_effect's map/collect builds them. */
  method NewReverbLines(sampleRate: real) returns (lines: seq<array<real>>)
    ensures |lines| == |REVERB_TIMES_MS|
    ensures forall i :: 0 <= i < |lines| ==> fresh(lines[i])
    ensures forall i, j :: 0 <= i < j < |lines| ==> lines[i] != lines[j]
    ensures forall i :: 0 <= i < |lines| ==> lines[i].Length == ReverbLengths(sampleRate)[i]
    ensures forall i :: 0 <= i < |lines| ==> lines[i].Length == 0 || lines[i][..] == Ring(lines[i].Length, [])
  {
    var lens := ReverbLengths(sampleRate);
    lines := [];
    var i := 0;
    while i < |REVERB_TIMES_MS|
      invariant 0 <= i <= |REVERB_TIMES_MS| && |lines| == i
      invariant forall j :: 0 <= j < i ==> fresh(lines[j])
      invariant forall j, j' :: 0 <= j < j' < i ==> lines[j] != lines[j']
      invariant forall j :: 0 <= j < i ==> lines[j].Length == lens[j]
      invariant forall j :: 0 <= j < i ==> lines[j].Length == 0 || lines[j][..] == Ring(lines[j].Length, [])
    {
      var line := new real[DelayLength(sampleRate, REVERB_TIMES_MS[i] as real)](_ => 0.0);
      assert line.Length == 0 || line[..] == Ring(line.Length, []);
      lines := lines + [line];
      i := i + 1;
    }
  }

  /** One comb line of length len before sample k: its cursor at k modulo len and its
      slots holding what it has stored while the first k samples went in. */
  ghost predicate LineHolds(slots: seq<real>, cursor: nat, len: nat, xs: seq<real>, damping: real, k: nat) {
    0 < len == |slots| && k <= |xs| && cursor == k % len &&
    slots == Ring(len, CombStored(xs, len, damping, k))
  }

  /** The first n lines part-way through sample k: those before line `done` have taken
      sample k and stand at sample k + 1, the others still stand at sample k. */
  ghost predicate LinesHold(slots: seq<seq<real>>, cursors: seq<nat>, lens: seq<nat>, xs: seq<real>,
                            damping: real, k: nat, done: nat, n: nat)
    decreases n
  {
    n <= |slots| == |lens| == |cursors| && done <= |slots| &&
    (n == 0 ||
     (LinesHold(slots, cursors, lens, xs, damping, k, done, n - 1) &&
      LineHolds(slots[n - 1], cursors[n - 1], lens[n - 1], xs, damping, if n - 1 < done then k + 1 else k)))
  }

  /** LinesHold, line by line. */
  ghost predicate EachLineHolds(slots: seq<seq<real>>, cursors: seq<nat>, lens: seq<nat>, xs: seq<real>,
                          damping: real, k: nat, done: nat, n: nat)
    requires n <= |slots| == |lens| == |cursors|
  {
    forall j :: 0 <= j < n ==>
      LineHolds(slots[j], cursors[j], lens[j], xs, damping, if j < done then k + 1 else k)
  }

  lemma {:induction false} LinesHoldEach(slots: seq<seq<real>>, cursors: seq<nat>, lens: seq<nat>, xs: seq<real>,
                                         damping: real, k: nat, done: nat, n: nat)
    requires n <= |slots| == |lens| == |cursors| && done <= |slots|
    ensures LinesHold(slots, cursors, lens, xs, damping, k, done, n) <==>
            EachLineHolds(slots, cursors, lens, xs, damping, k, done, n)
  {
    if n > 0 {
      LinesHoldEach(slots, cursors, lens, xs, damping, k, done, n - 1);
    }
  }

  /** The slots of every line. */
  ghost function Contents(lines: seq<array<real>>): (slots: seq<seq<real>>)
    reads lines
    ensures |slots| == |lines|
    ensures forall i :: 0 <= i < |lines| ==> slots[i] == lines[i][..]
  {
    seq(|lines|, i requires 0 <= i < |lines| reads lines => lines[i][..])
  }

  ghost predicate LinesAt(lines: seq<array<real>>, indices: array<nat>, lens: seq<nat>, xs: seq<real>,
                          damping: real, k: nat, done: nat)
    reads lines, indices
  {
    AllPositive(lens) && LinesHold(Contents(lines), indices[..], lens, xs, damping, k, done, |lines|)
  }

  /** Line `done` taking sample k moves the boundary one line on. */
  lemma LinesHoldStep(slots: seq<seq<real>>, cursors: seq<nat>, lens: seq<nat>, xs: seq<real>,
                      damping: real, k: nat, done: nat, line: seq<real>, cursor: nat)
    requires LinesHold(slots, cursors, lens, xs, damping, k, done, |slots|) && done < |slots|
    requires LineHolds(line, cursor, lens[done], xs, damping, k + 1)
    ensures LinesHold(slots[done := line], cursors[done := cursor], lens, xs, damping, k, done + 1, |slots|)
  {
    LinesHoldEach(slots, cursors, lens, xs, damping, k, done, |slots|);
    LinesHoldEach(slots[done := line], cursors[done := cursor], lens, xs, damping, k, done + 1, |slots|);
  }

  /** All lines having taken sample k is all lines standing at sample k + 1. */
  lemma LinesAdvance(slots: seq<seq<real>>, cursors: seq<nat>, lens: seq<nat>, xs: seq<real>, damping: real, k: nat)
    requires LinesHold(slots, cursors, lens, xs, damping, k, |slots|, |slots|)
    ensures LinesHold(slots, cursors, lens, xs, damping, k + 1, 0, |slots|)
  {
    LinesHoldEach(slots, cursors, lens, xs, damping, k, |slots|, |slots|);
    LinesHoldEach(slots, cursors, lens, xs, damping, k + 1, 0, |slots|);
  }

  predicate Distinct(lines: seq<array<real>>) {
    forall i, j :: 0 <= i < j < |lines| ==> lines[i] != lines[j]
  }

  /** The inner loop of reverb_effect: sample k through every line in order, summing what
      they hand out. */
  method ReverbStep(lines: seq<array<real>>, indices: array<nat>, ghost lens: seq<nat>,
                    ghost xs: seq<real>, k: nat, x: real, damping: real)
      returns (reverberated: real)
    requires Distinct(lines) && k < |xs| && x == xs[k]
    requires LinesAt(lines, indices, lens, xs, damping, k, 0)
    modifies indices, lines
    ensures reverberated == TapSum(xs, lens, damping, k, |lens|)
    ensures LinesAt(lines, indices, lens, xs, damping, k, |lines|)
  {
    reverberated := 0.0;
    var i := 0;
    while i < |lines|
      invariant 0 <= i <= |lines| && reverberated == TapSum(xs, lens, damping, k, i)
      invariant LinesAt(lines, indices, lens, xs, damping, k, i)
    {
      reverberated := ReverbLineStep(lines, indices, lens, xs, k, i, x, damping, reverberated);
      i := i + 1;
    }
  }

  /** Line i of reverb_effect's inner loop: one comb line step, its cursor stored back and
      its tap added to the running sum. */
  method ReverbLineStep(lines: seq<array<real>>, indices: array<nat>, ghost lens: seq<nat>,
                        ghost xs: seq<real>, k: nat, i: nat, x: real, damping: real, reverberated: real)
      returns (sum: real)
    requires Distinct(lines) && k < |xs| && x == xs[k] && i < |lines|
    requires LinesAt(lines, indices, lens, xs, damping, k, i)
    requires reverberated == TapSum(xs, lens, damping, k, i)
    modifies indices, lines[i]
    ensures sum == TapSum(xs, lens, damping, k, i + 1)
    ensures LinesAt(lines, indices, lens, xs, damping, k, i + 1)
  {
    ghost var slots, cursors := Contents(lines), indices[..];
    LinesHoldEach(slots, cursors, lens, xs, damping, k, i, |lines|);
    var delayed, next := CombLineStep(lines[i], indices[i], xs, k, x, damping);
    sum := reverberated + delayed;
    indices[i] := next;
    LinesHoldStep(slots, cursors, lens, xs, damping, k, i, lines[i][..], next);
    assert Contents(lines) == slots[i := lines[i][..]];
    assert indices[..] == cursors[i := next];
  }

  /** reverb_effect. A line of zero length makes the first sample index an empty buffer:
      the slice is then left as it was. */
  method ReverbEffect(samples: array<real>, sampleRate: real, roomSize: real, damping: real) returns (r: Outcome)
    modifies samples
    ensures var lens := ReverbLengths(sampleRate);
      r == if !AllPositive(lens) && samples.Length > 0 then Fail(IndexOutOfBounds) else Pass
    ensures r.Fail? ==> samples[..] == old(samples[..])
    ensures r.Pass? ==> samples[..] == ReverbOutputs(old(samples[..]), ReverbLengths(sampleRate), roomSize, damping)
  {
    var lines := NewReverbLines(sampleRate);
    var indices := new nat[|lines|](_ => 0);
    if samples.Length == 0 {
      return Pass;
    }
    var lens := ReverbLengths(sampleRate);
    if !AllPositive(lens) {
      return Fail(IndexOutOfBounds);
    }
    ghost var xs := samples[..];
    LinesHoldEach(Contents(lines), indices[..], lens, xs, damping, 0, 0, |lines|);
    var k := 0;
    while k < samples.Length
      invariant k <= samples.Length
      invariant ReverbInvariant(samples, lines, indices, lens, xs, roomSize, damping, k)
    {
      ReverbSample(samples, lines, indices, lens, xs, roomSize, damping, k);
      k := k + 1;
    }
    assert samples[..k] == samples[..];
    return Pass;
  }

  /** The state of reverb_effect's loop before sample k: the lines and cursors at sample k,
      the first k samples rewritten and the rest untouched. */
  ghost predicate ReverbInvariant(samples: array<real>, lines: seq<array<real>>, indices: array<nat>, lens: seq<nat>,
                                  xs: seq<real>, roomSize: real, damping: real, k: nat)
    reads samples, indices, lines
  {
    k <= samples.Length == |xs| && Distinct(lines) && (forall i :: 0 <= i < |lines| ==> lines[i] != samples) &&
    LinesAt(lines, indices, lens, xs, damping, k, 0) &&
    samples[..k] == ReverbPrefix(xs, lens, roomSize, damping, k) &&
    samples[k..] == xs[k..]
  }

  /** One pass of reverb_effect's outer loop. */
  method ReverbSample(samples: array<real>, lines: seq<array<real>>, indices: array<nat>, ghost lens: seq<nat>,
                      ghost xs: seq<real>, roomSize: real, damping: real, k: nat)
    requires k < samples.Length
    requires ReverbInvariant(samples, lines, indices, lens, xs, roomSize, damping, k)
    modifies samples, indices, lines
    ensures ReverbInvariant(samples, lines, indices, lens, xs, roomSize, damping, k + 1)
  {
    assert samples[k] == xs[k];
    var reverberated := ReverbStep(lines, indices, lens, xs, k, samples[k], damping);
    samples[k] := WetDry(samples[k], reverberated, roomSize);
    LinesAdvance(Contents(lines), indices[..], lens, xs, damping, k);
  }

  /** room_size 0 keeps the dry signal only. */
  lemma ReverbWithoutRoom(xs: seq<real>, lens: seq<nat>, damping: real)
    requires AllPositive(lens)
    ensures ReverbOutputs(xs, lens, 0.0, damping) == xs
  {
    ReverbDryPrefix(xs, lens, damping, |xs|);
  }

  lemma {:induction false} ReverbDryPrefix(xs: seq<real>, lens: seq<nat>, damping: real, k: nat)
    requires AllPositive(lens) && k <= |xs|
    ensures ReverbPrefix(xs, lens, 0.0, damping, k) == xs[..k]
  {
    if k > 0 {
      ReverbDryPrefix(xs, lens, damping, k - 1);
      assert xs[..k] == xs[..k - 1] + [xs[k - 1]];
    }
  }

  /** Each of reverb_effect's lines is the comb line delay_effect runs, with damping as
      its feedback. It holds by definition: both effects are proved against CombTap. */
  lemma ReverbLinesAreDelays(xs: seq<real>, lens: seq<nat>, damping: real, k: nat)
    requires AllPositive(lens) && k < |xs|
    ensures forall i :: 0 <= i < |lens| ==>
      CombTap(xs, lens[i], damping, k) == DelayOutputs(xs, lens[i], damping)[k]
  {
  }

  // ----------------------------------------------------------------------------------
  // LFO shared by tremolo_effect and flanger_effect

  /** lfo_increment: `2 * PI * rate_hz / sample_rate`. */
  function LfoIncrement(sampleRate: real, rateHz: real): real
    requires sampleRate != 0.0
  {
    2.0 * PI * rateHz / sampleRate
  }

  /** lfo_phase at sample k: 0.0, then advanced by inc and wrapped with `% (2 * PI)`
      once per sample. */
  function LfoPhase(inc: real, k: nat): (phase: real)
    ensures 0.0 <= inc ==> 0.0 <= phase < 2.0 * PI
  {
    if k == 0 then 0.0 else FMod(LfoPhase(inc, k - 1) + inc, 2.0 * PI)
  }

  // ----------------------------------------------------------------------------------
  // flanger_effect

  /** current_delay: the LFO, moved into [0, 1], times the buffer length, truncated. */
  function FlangerDelay(m: MathLib, maxDelay: nat, phase: real): nat {
    TruncToNat((m.sin(phase) * 0.5 + 0.5) * maxDelay as real)
  }

  /** With sin in [-1, 1] the delay never exceeds the buffer length. */
  lemma FlangerDelayBounded(m: MathLib, maxDelay: nat, phase: real)
    requires SinBounded(m)
    ensures FlangerDelay(m, maxDelay, phase) <= maxDelay
  {
    var lfo := m.sin(phase) * 0.5 + 0.5;
    assert -1.0 <= m.sin(phase) <= 1.0;
    UnitScale(lfo, maxDelay as real);
    assert FlangerDelay(m, maxDelay, phase) == TruncToNat(lfo * maxDelay as real);
  }

  /** The read position `(delay_index + max - current_delay) % max`. It is a valid slot,
      and it is the write position itself when the delay is 0 or the whole buffer. */
  function FlangerReadIndex(index: nat, maxDelay: nat, cd: nat): (r: nat)
    requires index < maxDelay && cd <= maxDelay
    ensures r < maxDelay
    ensures cd == 0 || cd == maxDelay ==> r == index
  {
    ModUnique(index, maxDelay, 0, index);
    ModAddPeriod(index, maxDelay);
    (index + maxDelay - cd) % maxDelay
  }

  /** How many samples back the read position lies: cd, or the whole buffer when cd is 0. */
  function ReadDistance(cd: nat, maxDelay: nat): (d: nat)
    requires maxDelay > 0
    ensures 1 <= d && (cd <= maxDelay ==> d <= maxDelay)
  {
    if cd == 0 then maxDelay else cd
  }

  /** Reading at FlangerReadIndex on the cursor of sample k reads d samples back. */
  lemma FlangerReadPosition(k: nat, maxDelay: nat, cd: nat)
    requires 0 < maxDelay && cd <= maxDelay
    ensures FlangerReadIndex(k % maxDelay, maxDelay, cd) == (k + maxDelay - ReadDistance(cd, maxDelay)) % maxDelay
  {
    if cd == 0 {
      ModUnique(k % maxDelay, maxDelay, 0, k % maxDelay);
      assert k + maxDelay - maxDelay == k;
    } else {
      ModOfSum(k, maxDelay - cd, maxDelay);
    }
  }

  /** What the flanger's buffer hands out at sample k: the value stored the current
      distance back (input plus feedback times what was handed out then), or 0.0 before
      that much has been stored. */
  function FlangerTap(m: MathLib, xs: seq<real>, maxDelay: nat, inc: real, feedback: real, k: nat): real
    requires 0 < maxDelay && k < |xs|
    decreases k
  {
    var d := ReadDistance(FlangerDelay(m, maxDelay, LfoPhase(inc, k)), maxDelay);
    if k < d then 0.0 else Feedback(xs[k - d], FlangerTap(m, xs, maxDelay, inc, feedback, k - d), feedback)
  }

  /** The values the flanger has stored in its buffer while the first k samples went in. */
  function FlangerStored(m: MathLib, xs: seq<real>, maxDelay: nat, inc: real, feedback: real, k: nat): (ws: seq<real>)
    requires 0 < maxDelay && k <= |xs|
    ensures |ws| == k
  {
    if k == 0 then []
    else FlangerStored(m, xs, maxDelay, inc, feedback, k - 1) + [Feedback(xs[k - 1], FlangerTap(m, xs, maxDelay, inc, feedback, k - 1), feedback)]
  }

  lemma {:induction false} FlangerStoredAt(m: MathLib, xs: seq<real>, maxDelay: nat, inc: real, feedback: real, k: nat, t: nat)
    requires 0 < maxDelay && t < k <= |xs|
    ensures FlangerStored(m, xs, maxDelay, inc, feedback, k)[t] == Feedback(xs[t], FlangerTap(m, xs, maxDelay, inc, feedback, t), feedback)
  {
    if t < k - 1 {
      FlangerStoredAt(m, xs, maxDelay, inc, feedback, k - 1, t);
    }
  }

  /** The slot the flanger reads holds exactly FlangerTap. */
  lemma FlangerRead(m: MathLib, xs: seq<real>, maxDelay: nat, inc: real, feedback: real, k: nat)
    requires 0 < maxDelay && k < |xs| && FlangerDelay(m, maxDelay, LfoPhase(inc, k)) <= maxDelay
    ensures var cd := FlangerDelay(m, maxDelay, LfoPhase(inc, k));
      Ring(maxDelay, FlangerStored(m, xs, maxDelay, inc, feedback, k))[FlangerReadIndex(k % maxDelay, maxDelay, cd)]
        == FlangerTap(m, xs, maxDelay, inc, feedback, k)
  {
    var ws := FlangerStored(m, xs, maxDelay, inc, feedback, k);
    var cd := FlangerDelay(m, maxDelay, LfoPhase(inc, k));
    var d := ReadDistance(cd, maxDelay);
    FlangerReadPosition(k, maxDelay, cd);
    RingRead(maxDelay, ws, d);
    if d <= k {
      FlangerStoredAt(m, xs, maxDelay, inc, feedback, k, k - d);
    }
  }

  /** What flanger_effect leaves in the slice: each dry sample mixed with what the
      buffer hands out. */
  function FlangerOutputs(m: MathLib, xs: seq<real>, maxDelay: nat, inc: real, feedback: real, mix: real): (ys: seq<real>)
    requires 0 < maxDelay || |xs| == 0
    ensures |ys| == |xs|
  {
    FlangerPrefix(m, xs, maxDelay, inc, feedback, mix, |xs|)
  }

  /** The first k samples of FlangerOutputs. */
  function FlangerPrefix(m: MathLib, xs: seq<real>, maxDelay: nat, inc: real, feedback: real, mix: real, k: nat): (ys: seq<real>)
    requires (0 < maxDelay || |xs| == 0) && k <= |xs|
    ensures |ys| == k
  {
    if k == 0 then []
    else FlangerPrefix(m, xs, maxDelay, inc, feedback, mix, k - 1) + [WetDry(xs[k - 1], FlangerTap(m, xs, maxDelay, inc, feedback, k - 1), mix)]
  }

  /** flanger_effect. With a zero-length buffer the first read position is taken modulo 0:
      the slice is then left as it was. */
  method FlangerEffect(m: MathLib, samples: array<real>, sampleRate: real, depthMs: real, rateHz: real,
                       feedback: real, mix: real) returns (r: Outcome)
    requires SinBounded(m)
    modifies samples
    ensures var maxDelay := DelayLength(sampleRate, depthMs);
      r == if maxDelay == 0 && samples.Length > 0 then Fail(RemainderByZero) else Pass
    ensures r.Fail? || samples.Length == 0 ==> samples[..] == old(samples[..])
    ensures r.Pass? && samples.Length > 0 ==>
      sampleRate != 0.0 &&
      samples[..] == FlangerOutputs(m, old(samples[..]), DelayLength(sampleRate, depthMs),
                                    LfoIncrement(sampleRate, rateHz), feedback, mix)
  {
    var maxDelay := DelayLength(sampleRate, depthMs);
    if samples.Length == 0 {
      return Pass;
    }
    if maxDelay == 0 {
      return Fail(RemainderByZero);
    }
    // A buffer of at least one slot needs sample_rate * depth_ms > 0.
    assert sampleRate != 0.0;
    var inc := LfoIncrement(sampleRate, rateHz);
    FlangerRun(m, samples, maxDelay, inc, feedback, mix);
    return Pass;
  }

  /** flanger_effect's loop over the samples, once its buffer has at least one slot. */
  method FlangerRun(m: MathLib, samples: array<real>, maxDelay: nat, inc: real, feedback: real, mix: real)
    requires SinBounded(m) && 0 < maxDelay
    modifies samples
    ensures samples[..] == FlangerOutputs(m, old(samples[..]), maxDelay, inc, feedback, mix)
  {
    ghost var xs := samples[..];
    var buffer := new real[maxDelay](_ => 0.0);
    assert buffer[..] == Ring(maxDelay, []);
    var index := 0;
    var phase := 0.0;
    var k := 0;
    while k < samples.Length
      invariant 0 <= k <= samples.Length == |xs| && buffer.Length == maxDelay
      invariant FlangerInvariant(m, samples, buffer, xs, inc, feedback, mix, k, index, phase)
    {
      index, phase := FlangerSample(m, samples, buffer, xs, inc, feedback, mix, k, index, phase);
      k := k + 1;
    }
  }

  /** The state of flanger_effect's loop before sample k: the cursor and the LFO phase of
      sample k, the buffer holding what has been stored so far, the first k samples
      rewritten and the rest untouched. */
  ghost predicate FlangerInvariant(m: MathLib, samples: array<real>, buffer: array<real>, xs: seq<real>, inc: real,
                                   feedback: real, mix: real, k: nat, index: nat, phase: real)
    reads samples, buffer
  {
    0 < buffer.Length && k <= samples.Length == |xs| &&
    index == k % buffer.Length && phase == LfoPhase(inc, k) &&
    buffer[..] == Ring(buffer.Length, FlangerStored(m, xs, buffer.Length, inc, feedback, k)) &&
    samples[..k] == FlangerPrefix(m, xs, buffer.Length, inc, feedback, mix, k) &&
    samples[k..] == xs[k..]
  }

  /** One pass of flanger_effect's loop. */
  method FlangerSample(m: MathLib, samples: array<real>, buffer: array<real>, ghost xs: seq<real>, inc: real,
                       feedback: real, mix: real, k: nat, index: nat, phase: real)
      returns (index': nat, phase': real)
    requires SinBounded(m) && samples != buffer && k < samples.Length
    requires FlangerInvariant(m, samples, buffer, xs, inc, feedback, mix, k, index, phase)
    modifies samples, buffer
    ensures FlangerInvariant(m, samples, buffer, xs, inc, feedback, mix, k + 1, index', phase')
  {
    var cd := FlangerDelay(m, buffer.Length, phase);
    FlangerDelayBounded(m, buffer.Length, phase);
    var delayed;
    delayed, index' := FlangerLineStep(m, buffer, index, cd, xs, k, samples[k], inc, feedback);
    samples[k] := WetDry(samples[k], delayed, mix);
    phase' := FMod(phase + inc, 2.0 * PI);
  }

  /** The flanger's buffer handling sample k: read current_delay slots behind the cursor,
      store the input plus feedback times what was read at the cursor, move the cursor on. */
  method FlangerLineStep(m: MathLib, buffer: array<real>, index: nat, cd: nat, ghost xs: seq<real>,
                         ghost k: nat, x: real, inc: real, feedback: real)
      returns (delayed: real, next: nat)
    requires 0 < buffer.Length && k < |xs| && x == xs[k] && index == k % buffer.Length
    requires cd == FlangerDelay(m, buffer.Length, LfoPhase(inc, k)) && cd <= buffer.Length
    requires buffer[..] == Ring(buffer.Length, FlangerStored(m, xs, buffer.Length, inc, feedback, k))
    modifies buffer
    ensures delayed == FlangerTap(m, xs, buffer.Length, inc, feedback, k)
    ensures next == (k + 1) % buffer.Length
    ensures buffer[..] == Ring(buffer.Length, FlangerStored(m, xs, buffer.Length, inc, feedback, k + 1))
  {
    var maxDelay := buffer.Length;
    FlangerRead(m, xs, maxDelay, inc, feedback, k);
    delayed := buffer[FlangerReadIndex(index, maxDelay, cd)];
    var newSample := Feedback(x, delayed, feedback);
    buffer[index] := newSample;
    RingWrite(maxDelay, FlangerStored(m, xs, maxDelay, inc, feedback, k), newSample);
    ModOfSum(k, 1, maxDelay);
    next := (index + 1) % maxDelay;
  }

  /** mix 0 leaves the dry signal. */
  lemma FlangerWithoutMix(m: MathLib, xs: seq<real>, maxDelay: nat, inc: real, feedback: real)
    requires 0 < maxDelay
    ensures FlangerOutputs(m, xs, maxDelay, inc, feedback, 0.0) == xs
  {
    FlangerDryPrefix(m, xs, maxDelay, inc, feedback, |xs|);
  }

  lemma {:induction false} FlangerDryPrefix(m: MathLib, xs: seq<real>, maxDelay: nat, inc: real, feedback: real, k: nat)
    requires 0 < maxDelay && k <= |xs|
    ensures FlangerPrefix(m, xs, maxDelay, inc, feedback, 0.0, k) == xs[..k]
  {
    if k > 0 {
      FlangerDryPrefix(m, xs, maxDelay, inc, feedback, k - 1);
      assert xs[..k] == xs[..k - 1] + [xs[k - 1]];
    }
  }

  // ----------------------------------------------------------------------------------
  // tremolo_effect

  /** The tremolo multiplier: the LFO moved into [0, 1], scaled by depth, plus 1 - depth. */
  function TremoloGain(m: MathLib, depth: real, phase: real): (g: real)
    ensures depth == 0.0 ==> g == 1.0
  {
    var lfo := m.sin(phase) * 0.5 + 0.5;
    lfo * depth + (1.0 - depth)
  }

  /** With sin in [-1, 1] and depth in [0, 1] the multiplier lies in [1 - depth, 1]. */
  lemma TremoloGainBounded(m: MathLib, depth: real, phase: real)
    requires SinBounded(m) && 0.0 <= depth <= 1.0
    ensures 1.0 - depth <= TremoloGain(m, depth, phase) <= 1.0
  {
    UnitScale(m.sin(phase) * 0.5 + 0.5, depth);
  }

  /** What tremolo_effect leaves in the slice: sample k times the multiplier at the LFO
      phase of sample k. */
  function TremoloOutputs(m: MathLib, xs: seq<real>, inc: real, depth: real): (ys: seq<real>)
    ensures |ys| == |xs|
  {
    if |xs| == 0 then []
    else
      var n := |xs| - 1;
      TremoloOutputs(m, xs[..n], inc, depth) + [Gained(xs[n], TremoloGain(m, depth, LfoPhase(inc, n)))]
  }

  /** tremolo_effect. */
  method TremoloEffect(m: MathLib, samples: array<real>, sampleRate: real, rateHz: real, depth: real)
    requires sampleRate != 0.0
    modifies samples
    ensures samples[..] == TremoloOutputs(m, old(samples[..]), LfoIncrement(sampleRate, rateHz), depth)
  {
    var inc := LfoIncrement(sampleRate, rateHz);
    var phase := 0.0;
    ghost var xs := samples[..];
    var k := 0;
    while k < samples.Length
      invariant 0 <= k <= samples.Length == |xs|
      invariant phase == LfoPhase(inc, k)
      invariant samples[..k] == TremoloOutputs(m, xs[..k], inc, depth)
      invariant samples[k..] == xs[k..]
    {
      assert xs[..k + 1][..k] == xs[..k];
      samples[k] := Gained(samples[k], TremoloGain(m, depth, phase));
      phase := FMod(phase + inc, 2.0 * PI);
      k := k + 1;
    }
    assert xs[..k] == xs;
  }

  /** depth 0 leaves the slice as it was. */
  lemma {:induction false} TremoloWithoutDepth(m: MathLib, xs: seq<real>, inc: real)
    ensures TremoloOutputs(m, xs, inc, 0.0) == xs
  {
    if |xs| > 0 {
      var n := |xs| - 1;
      TremoloWithoutDepth(m, xs[..n], inc);
      assert xs == xs[..n] + [xs[n]];
    }
  }

  /** With depth in [0, 1] the tremolo never makes a sample louder. */
  lemma {:induction false} TremoloNeverAmplifies(m: MathLib, xs: seq<real>, inc: real, depth: real)
    requires SinBounded(m) && 0.0 <= depth <= 1.0
    ensures forall k :: 0 <= k < |xs| ==> Abs(TremoloOutputs(m, xs, inc, depth)[k]) <= Abs(xs[k])
  {
    if |xs| > 0 {
      var n := |xs| - 1;
      TremoloNeverAmplifies(m, xs[..n], inc, depth);
      TremoloGainBounded(m, depth, LfoPhase(inc, n));
      ShrinkingScale(xs[n], TremoloGain(m, depth, LfoPhase(inc, n)));
    }
  }

  // ----------------------------------------------------------------------------------
  // compressor and noise_gate

  /** attack_coeff and release_coeff: `exp(-1 / (ms * 0.001 * sample_rate))`. */
  function TimeCoefficient(m: MathLib, ms: real, sampleRate: real): real
    requires ms * 0.001 * sampleRate != 0.0
  {
    m.exp(-1.0 / (ms * 0.001 * sampleRate))
  }

  /** One step of a gain envelope: `coeff * (gain - target) + target`. */
  function GainStep(coeff: real, gain: real, target: real): real {
    coeff * (gain - target) + target
  }

  /** With coeff in [0, 1] the new gain lies between the old gain and the target. */
  lemma GainStepBetween(coeff: real, gain: real, target: real)
    requires 0.0 <= coeff <= 1.0
    ensures gain <= target ==> gain <= GainStep(coeff, gain, target) <= target
    ensures target <= gain ==> target <= GainStep(coeff, gain, target) <= gain
  {
    var d := gain - target;
    var kept, rest := coeff * d, (1.0 - coeff) * d;
    assert kept + rest == d;
    if 0.0 <= d {
      assert 0.0 <= kept && 0.0 <= rest;
    } else {
      assert kept <= 0.0 && rest <= 0.0;
    }
    assert GainStep(coeff, gain, target) == target + kept;
  }

  /** compressed_gain: the threshold plus the excess level divided by the ratio. */
  function CompressedLevel(threshold: real, ratio: real, level: real): (c: real)
    requires ratio != 0.0
    ensures 0.0 <= threshold < level && 1.0 <= ratio ==> threshold < c <= level
  {
    var excess := level - threshold;
    var q := excess / ratio;
    if 0.0 <= threshold < level && 1.0 <= ratio then
      assert q * ratio == excess;
      assert q * (ratio - 1.0) >= 0.0;
      threshold + q
    else
      threshold + q
  }

  /** The compressor's gain after one sample. */
  function CompressorStep(threshold: real, ratio: real, attack: real, release: real, gain: real, x: real): real
    requires ratio != 0.0
  {
    var level := Abs(x);
    if level > threshold then GainStep(attack, gain, CompressedLevel(threshold, ratio, level))
    else GainStep(release, gain, 1.0)
  }

  /** The compressor's gain once the samples xs have gone through: 1.0 at first. */
  function CompressorGain(xs: seq<real>, threshold: real, ratio: real, attack: real, release: real): real
    requires ratio != 0.0
  {
    if |xs| == 0 then 1.0
    else
      var n := |xs| - 1;
      CompressorStep(threshold, ratio, attack, release, CompressorGain(xs[..n], threshold, ratio, attack, release), xs[n])
  }

  /** What compressor leaves in the slice: each sample times the gain updated on it. */
  function CompressorOutputs(xs: seq<real>, threshold: real, ratio: real, attack: real, release: real): (ys: seq<real>)
    requires ratio != 0.0
    ensures |ys| == |xs|
  {
    if |xs| == 0 then []
    else
      var n := |xs| - 1;
      CompressorOutputs(xs[..n], threshold, ratio, attack, release)
        + [Gained(xs[n], CompressorGain(xs, threshold, ratio, attack, release))]
  }

  /** compressor. */
  method Compressor(m: MathLib, samples: array<real>, threshold: real, ratio: real, attackMs: real,
                    releaseMs: real, sampleRate: real)
    requires ratio != 0.0 && attackMs * 0.001 * sampleRate != 0.0 && releaseMs * 0.001 * sampleRate != 0.0
    modifies samples
    ensures samples[..] == CompressorOutputs(old(samples[..]), threshold, ratio,
      TimeCoefficient(m, attackMs, sampleRate), TimeCoefficient(m, releaseMs, sampleRate))
  {
    var attack := TimeCoefficient(m, attackMs, sampleRate);
    var release := TimeCoefficient(m, releaseMs, sampleRate);
    ghost var xs := samples[..];
    var gain := 1.0;
    var k := 0;
    while k < samples.Length
      invariant 0 <= k <= samples.Length == |xs|
      invariant gain == CompressorGain(xs[..k], threshold, ratio, attack, release)
      invariant samples[..k] == CompressorOutputs(xs[..k], threshold, ratio, attack, release)
      invariant samples[k..] == xs[k..]
    {
      assert xs[..k + 1][..k] == xs[..k];
      gain := CompressorStep(threshold, ratio, attack, release, gain, samples[k]);
      samples[k] := Gained(samples[k], gain);
      k := k + 1;
    }
    assert xs[..k] == xs;
  }

  /** While no sample is louder than the threshold the gain stays exactly 1 and the
      compressor leaves the slice as it was. */
  lemma {:induction false} CompressorIdle(xs: seq<real>, threshold: real, ratio: real, attack: real, release: real)
    requires ratio != 0.0
    requires forall i :: 0 <= i < |xs| ==> Abs(xs[i]) <= threshold
    ensures CompressorGain(xs, threshold, ratio, attack, release) == 1.0
    ensures CompressorOutputs(xs, threshold, ratio, attack, release) == xs
  {
    if |xs| > 0 {
      var n := |xs| - 1;
      var front := xs[..n];
      assert forall i :: 0 <= i < n ==> front[i] == xs[i];
      CompressorIdle(front, threshold, ratio, attack, release);
      assert CompressorStep(threshold, ratio, attack, release, 1.0, xs[n]) == 1.0;
      assert Gained(xs[n], 1.0) == xs[n];
      assert xs == front + [xs[n]];
    }
  }

  /** With coefficients in [0, 1], a threshold of at least 0 and a ratio of at least 1,
      the compressor's gain stays in [0, 1]. */
  lemma {:induction false} CompressorGainBounded(xs: seq<real>, threshold: real, ratio: real, attack: real, release: real)
    requires 1.0 <= ratio && 0.0 <= threshold
    requires 0.0 <= attack <= 1.0 && 0.0 <= release <= 1.0
    requires forall i :: 0 <= i < |xs| ==> Abs(xs[i]) <= 1.0
    ensures 0.0 <= CompressorGain(xs, threshold, ratio, attack, release) <= 1.0
  {
    if |xs| > 0 {
      var n := |xs| - 1;
      CompressorGainBounded(xs[..n], threshold, ratio, attack, release);
      var gain := CompressorGain(xs[..n], threshold, ratio, attack, release);
      var level := Abs(xs[n]);
      if level > threshold {
        GainStepBetween(attack, gain, CompressedLevel(threshold, ratio, level));
      } else {
        GainStepBetween(release, gain, 1.0);
      }
    }
  }

  /** Under the same conditions the compressor never makes a sample louder. */
  lemma {:induction false} CompressorNeverAmplifies(xs: seq<real>, threshold: real, ratio: real, attack: real, release: real)
    requires 1.0 <= ratio && 0.0 <= threshold
    requires 0.0 <= attack <= 1.0 && 0.0 <= release <= 1.0
    requires forall i :: 0 <= i < |xs| ==> Abs(xs[i]) <= 1.0
    ensures forall k :: 0 <= k < |xs| ==> Abs(CompressorOutputs(xs, threshold, ratio, attack, release)[k]) <= Abs(xs[k])
  {
    if |xs| > 0 {
      var n := |xs| - 1;
      CompressorNeverAmplifies(xs[..n], threshold, ratio, attack, release);
      CompressorGainBounded(xs, threshold, ratio, attack, release);
      ShrinkingScale(xs[n], CompressorGain(xs, threshold, ratio, attack, release));
    }
  }

  /** The noise gate's gain after one sample: towards 0 below the threshold, towards 1
      otherwise. */
  function NoiseGateStep(threshold: real, attack: real, release: real, gain: real, x: real): real {
    if Abs(x) < threshold then GainStep(attack, gain, 0.0) else GainStep(release, gain, 1.0)
  }

  /** The noise gate's gain once the samples xs have gone through: 1.0 at first. */
  function NoiseGateGain(xs: seq<real>, threshold: real, attack: real, release: real): real {
    if |xs| == 0 then 1.0
    else
      var n := |xs| - 1;
      NoiseGateStep(threshold, attack, release, NoiseGateGain(xs[..n], threshold, attack, release), xs[n])
  }

  /** What noise_gate leaves in the slice: each sample times the gain updated on it. */
  function NoiseGateOutputs(xs: seq<real>, threshold: real, attack: real, release: real): (ys: seq<real>)
    ensures |ys| == |xs|
  {
    if |xs| == 0 then []
    else
      var n := |xs| - 1;
      NoiseGateOutputs(xs[..n], threshold, attack, release) + [Gained(xs[n], NoiseGateGain(xs, threshold, attack, release))]
  }

  /** noise_gate. */
  method NoiseGate(m: MathLib, samples: array<real>, threshold: real, sampleRate: real, attackMs: real, releaseMs: real)
    requires attackMs * 0.001 * sampleRate != 0.0 && releaseMs * 0.001 * sampleRate != 0.0
    modifies samples
    ensures samples[..] == NoiseGateOutputs(old(samples[..]), threshold,
      TimeCoefficient(m, attackMs, sampleRate), TimeCoefficient(m, releaseMs, sampleRate))
  {
    var attack := TimeCoefficient(m, attackMs, sampleRate);
    var release := TimeCoefficient(m, releaseMs, sampleRate);
    ghost var xs := samples[..];
    var gain := 1.0;
    var k := 0;
    while k < samples.Length
      invariant 0 <= k <= samples.Length == |xs|
      invariant gain == NoiseGateGain(xs[..k], threshold, attack, release)
      invariant samples[..k] == NoiseGateOutputs(xs[..k], threshold, attack, release)
      invariant samples[k..] == xs[k..]
    {
      assert xs[..k + 1][..k] == xs[..k];
      gain := NoiseGateStep(threshold, attack, release, gain, samples[k]);
      samples[k] := Gained(samples[k], gain);
      k := k + 1;
    }
    assert xs[..k] == xs;
  }

  /** With both coefficients in [0, 1] the gate's gain stays in [0, 1]. */
  lemma {:induction false} NoiseGateGainBounded(xs: seq<real>, threshold: real, attack: real, release: real)
    requires 0.0 <= attack <= 1.0 && 0.0 <= release <= 1.0
    ensures 0.0 <= NoiseGateGain(xs, threshold, attack, release) <= 1.0
  {
    if |xs| > 0 {
      var n := |xs| - 1;
      NoiseGateGainBounded(xs[..n], threshold, attack, release);
      var gain := NoiseGateGain(xs[..n], threshold, attack, release);
      GainStepBetween(attack, gain, 0.0);
      GainStepBetween(release, gain, 1.0);
    }
  }

  /** With both coefficients in [0, 1] the gate never makes a sample louder. */
  lemma {:induction false} NoiseGateNeverAmplifies(xs: seq<real>, threshold: real, attack: real, release: real)
    requires 0.0 <= attack <= 1.0 && 0.0 <= release <= 1.0
    ensures forall k :: 0 <= k < |xs| ==> Abs(NoiseGateOutputs(xs, threshold, attack, release)[k]) <= Abs(xs[k])
  {
    if |xs| > 0 {
      var n := |xs| - 1;
      NoiseGateNeverAmplifies(xs[..n], threshold, attack, release);
      NoiseGateGainBounded(xs, threshold, attack, release);
      ShrinkingScale(xs[n], NoiseGateGain(xs, threshold, attack, release));
    }
  }

  // ----------------------------------------------------------------------------------
  // normalize

  /** The fold of normalize over |x|: None for an empty slice, otherwise the largest
      magnitude, kept when a later one only ties it. */
  function MaxAbs(xs: seq<real>): (r: Option<real>)
    ensures r.None? <==> |xs| == 0
    ensures r.Some? ==> forall i :: 0 <= i < |xs| ==> Abs(xs[i]) <= r.value
    ensures r.Some? ==> exists i :: 0 <= i < |xs| && Abs(xs[i]) == r.value
  {
    if |xs| == 0 then None
    else
      var front, x := xs[..|xs| - 1], Abs(xs[|xs| - 1]);
      assert forall i :: 0 <= i < |front| ==> front[i] == xs[i];
      match MaxAbs(front)
      case None => Some(x)
      case Some(currentMax) => Some(if x > currentMax then x else currentMax)
  }

  /** A bound on every magnitude that one sample reaches is the value of the fold. */
  lemma MaxAbsIsTheBound(xs: seq<real>, v: real, j: nat)
    requires j < |xs| && Abs(xs[j]) == v
    requires forall i :: 0 <= i < |xs| ==> Abs(xs[i]) <= v
    ensures MaxAbs(xs) == Some(v)
  {
  }

  /** Every sample times c. */
  function Scaled(xs: seq<real>, c: real): (ys: seq<real>)
    ensures |ys| == |xs|
  {
    seq(|xs|, i requires 0 <= i < |xs| => Gained(xs[i], c))
  }

  /** What normalize leaves in the slice: unchanged when empty or silent, otherwise every
      sample times 1 / max|x|. */
  function NormalizeOutputs(xs: seq<real>): (ys: seq<real>)
    ensures |ys| == |xs|
  {
    match MaxAbs(xs)
    case Some(maxAmplitude) => if maxAmplitude > 0.0 then Scaled(xs, 1.0 / maxAmplitude) else xs
    case None => xs
  }

  /** normalize (the same code appears in src/fx.rs and src/dsp.rs). */
  method Normalize(samples: array<real>)
    modifies samples
    ensures samples[..] == NormalizeOutputs(old(samples[..]))
  {
    var maxAmplitude := MaxAbs(samples[..]);
    if maxAmplitude.Some? && maxAmplitude.value > 0.0 {
      var factor := 1.0 / maxAmplitude.value;
      ghost var xs := samples[..];
      var k := 0;
      while k < samples.Length
        invariant 0 <= k <= samples.Length == |xs|
        invariant forall t :: 0 <= t < k ==> samples[t] == Gained(xs[t], factor)
        invariant forall t :: k <= t < |xs| ==> samples[t] == xs[t]
      {
        samples[k] := Gained(samples[k], factor);
        k := k + 1;
      }
    }
  }

  /** A silent slice is left as it was. */
  lemma NormalizeKeepsSilence(xs: seq<real>)
    requires forall i :: 0 <= i < |xs| ==> xs[i] == 0.0
    ensures NormalizeOutputs(xs) == xs
  {
  }

  /** After normalize the largest magnitude of a slice that was not silent is exactly 1. */
  lemma NormalizedPeakIsOne(xs: seq<real>)
    requires exists i :: 0 <= i < |xs| && xs[i] != 0.0
    ensures MaxAbs(NormalizeOutputs(xs)) == Some(1.0)
  {
    var j :| 0 <= j < |xs| && xs[j] != 0.0;
    var peak := MaxAbs(xs).value;
    assert 0.0 < Abs(xs[j]) <= peak;
    var top :| 0 <= top < |xs| && Abs(xs[top]) == peak;
    var ys := Scaled(xs, 1.0 / peak);
    assert NormalizeOutputs(xs) == ys;
    ScaledByPeak(xs, peak, 1.0 / peak, top);
    MaxAbsIsTheBound(ys, 1.0, top);
  }

  /** Dividing every sample by the largest magnitude puts every magnitude in [0, 1] and
      the largest at exactly 1. */
  lemma ScaledByPeak(xs: seq<real>, peak: real, c: real, top: nat)
    requires 0.0 < peak && c == 1.0 / peak && top < |xs| && Abs(xs[top]) == peak
    requires forall i :: 0 <= i < |xs| ==> Abs(xs[i]) <= peak
    ensures forall i :: 0 <= i < |xs| ==> Abs(Scaled(xs, c)[i]) <= 1.0
    ensures Abs(Scaled(xs, c)[top]) == 1.0
  {
    forall i | 0 <= i < |xs|
      ensures Abs(Scaled(xs, c)[i]) <= 1.0
    {
      ScaledMagnitude(xs[i], c);
      DividedByPeak(Abs(xs[i]), peak);
    }
    ScaledMagnitude(xs[top], c);
    DividedByPeak(peak, peak);
  }

  lemma DividedByPeak(a: real, peak: real)
    requires 0.0 <= a <= peak && 0.0 < peak
    ensures a * (1.0 / peak) <= 1.0
    ensures a == peak ==> a * (1.0 / peak) == 1.0
  {
    assert a * (1.0 / peak) == a / peak;
  }

  lemma ScaledMagnitude(x: real, c: real)
    requires 0.0 <= c
    ensures Abs(Gained(x, c)) == Abs(x) * c
  {
    if x < 0.0 {
      assert x * c == -((-x) * c);
    }
  }

  // ----------------------------------------------------------------------------------
  // remove_dc_offset

  /** Every sample minus c. */
  function Offset(xs: seq<real>, c: real): (ys: seq<real>)
    ensures |ys| == |xs|
  {
    seq(|xs|, i requires 0 <= i < |xs| => xs[i] - c)
  }

  /** What remove_dc_offset leaves in the slice: every sample minus the mean. */
  function RemoveDcOutputs(xs: seq<real>): (ys: seq<real>)
    ensures |ys| == |xs|
  {
    if |xs| == 0 then xs else Offset(xs, Sum(xs) / |xs| as real)
  }

  /** remove_dc_offset. For an empty slice the mean is 0 / 0 but no sample uses it. */
  method RemoveDcOffset(samples: array<real>)
    modifies samples
    ensures samples[..] == RemoveDcOutputs(old(samples[..]))
  {
    if samples.Length == 0 {
      return;
    }
    var mean := Sum(samples[..]) / samples.Length as real;
    ghost var xs := samples[..];
    var k := 0;
    while k < samples.Length
      invariant 0 <= k <= samples.Length == |xs|
      invariant forall t :: 0 <= t < k ==> samples[t] == xs[t] - mean
      invariant forall t :: k <= t < |xs| ==> samples[t] == xs[t]
    {
      samples[k] := samples[k] - mean;
      k := k + 1;
    }
  }

  /** Subtracting c from every sample subtracts |xs| * c from the sum. */
  lemma {:induction false} SumOffset(xs: seq<real>, c: real)
    ensures Sum(Offset(xs, c)) == Sum(xs) - |xs| as real * c
  {
    if |xs| > 0 {
      var n := |xs| - 1;
      SumOffset(xs[..n], c);
      assert Offset(xs, c)[..n] == Offset(xs[..n], c);
    }
  }

  /** A slice that was not empty sums to 0 after remove_dc_offset. */
  lemma RemoveDcCentres(xs: seq<real>)
    requires |xs| > 0
    ensures Sum(RemoveDcOutputs(xs)) == 0.0
  {
    SumOffset(xs, Sum(xs) / |xs| as real);
  }
}
