# cpal_playbook audio DSP core in Dafny

This project models the signal-processing layer of cpal_playbook, a Rust playground for audio
I/O, and proves properties of it. The layer has four parts:

- `src/filters.rs`: one-pole low-pass and high-pass filters that rewrite a slice in place, and
  the `BiquadFilter` with its five RBJ-cookbook constructors and its per-sample `process_sample`.
- `src/eq.rs`: `equalizer`, which builds one peaking filter per `EQBand` and passes every
  sample through the filters in band order.
- `src/fx.rs`: in-place effects. `delay_effect`, `reverb_effect` (four comb lines) and
  `flanger_effect` run circular delay buffers. `compressor` and `noise_gate` are one-pole gain
  followers. The buffer utilities are `tremolo_effect`, `normalize` and `remove_dc_offset`.
- `src/dsp.rs`: buffer transforms. They are `dereverb` with `early_reflection_suppression`,
  `convolve`, `apply_window`, `envelope_detection`, `peak_detection`, `resample`, `normalize`,
  and `mid_side_encode`/`mid_side_decode`. Its `normalize` (src/dsp.rs:153-172) has the same code as
  the one in src/fx.rs:65-84, so `Fx.Normalize` models both.

Samples are mathematical reals. `sin`, `cos`, `exp`, `powf` and `sqrt` are uninterpreted
functions, carried in a `MathLib` value. Where a property needs one of them to stay in
[-1, 1], the lemma says so as a hypothesis (`SinBounded`, `CosBounded`).

A Rust `as usize` cast is `TruncToNat`, which saturates at 0. `.round() as usize` is
`RoundToNat`, and the f32 `%` is `FMod`, a truncated remainder. A panic becomes an error
value: `Outcome.Fail` or `Result.Err`. Every panic in the core happens before the first write
to the caller's slice, so a failing call leaves the slice as it was.

Functions that rewrite a caller's slice in place are methods on arrays. Functions that
return a new `Vec` (`dereverb`, `envelope_detection`, `convolve`, `resample`) are methods
that take a `seq` and return one, building it in a loop as the source does. Both keep the
loop, its state variables and the delay buffers of the source. Each is proved against a specification
function over sequences, and the properties the code promises are lemmas about those
functions.

Files:

- `numerics.dfy`: the numeric model (modules `Numerics` and `Outcomes`).
- `filters.dfy`: module `Filters`.
- `eq.dfy`: module `Eq`.
- `delay_lines.dfy`: module `DelayLines`. It holds the history model shared by the delay,
  reverb and flanger lines: a ring buffer as a function of everything written into it.
- `fx.dfy`: module `Fx`.
- `dsp.dfy`: module `Dsp`.

Three behaviours of the code are easy to misread; the model follows the code:

- dereverb's coefficient. The comments call this stage a high-pass filter (src/dsp.rs:2, 4,
  22, 28), but line 25 computes `dt / (rc + dt)`, which is `low_pass_filter`'s coefficient
  (`Dsp.DereverbAlphaIsLowPassAlpha`).
- Delay length. It is truncated, with no minimum (src/fx.rs:2, 20, 125), so a zero length
  panics on the first sample.
- The flanger at `current_delay == 0`. The read slot is then the write cursor itself, read
  before the write, so the tap is `max_delay` samples old (`Fx.ReadDistance`,
  `Fx.FlangerRead`).

## Model

| member | source | states |
|---|---|---|
| Numerics.TruncToNat | src/fx.rs:2 | `x as usize`: 0 for x <= 0, otherwise the integer n with n <= x < n + 1 |
| Numerics.RoundToNat | src/dsp.rs:137 | `x.round() as usize`: 0 for x <= 0, otherwise within half a unit of x, with halves rounded up |
| Numerics.FMod | src/fx.rs:112 | the f32 `%` on a non-negative phase stays in [0, period) |
| Filters.LowPassAlpha | src/filters.rs:4-7 | `dt / (rc + dt)` lies strictly between 0 and 1 for positive rate and cutoff |
| Filters.HighPassAlpha | src/filters.rs:21-23 | `rc / (rc + dt)` lies in (0, 1) and is the complement of the low-pass coefficient |
| Filters.LowPassFilter | src/filters.rs:3-16 | an empty slice is the out-of-bounds panic; otherwise the slice becomes the recurrence `previous + alpha * (x - previous)` started at samples[0] |
| Filters.LowPassOutputBetween | src/filters.rs:10-14 | with alpha in [0, 1] each output lies between the previous output and the current input |
| Filters.LowPassStepBetween | src/filters.rs:11 | one low-pass step with alpha in [0, 1] lands between the previous value and the input |
| Filters.LowPassKeepsConstant | src/filters.rs:9-14 | a constant buffer is left unchanged |
| Filters.LowPassPreviousConstant | src/filters.rs:9-14 | on a constant buffer the filter state stays at the constant |
| Filters.HighPassFilter | src/filters.rs:20-34 | an empty slice is the out-of-bounds panic; otherwise the slice becomes `alpha * (prev_out + x - prev_in)`, both states starting at samples[0] |
| Filters.HighPassOfConstant | src/filters.rs:25-32 | a constant buffer c becomes `c * alpha^(k+1)` at index k |
| Filters.SilenceStaysSilent | src/filters.rs:61-67 | zero input on silent registers gives zero output and leaves the registers silent |
| Filters.UnityPassesThrough | src/filters.rs:62-63 | coefficients with b0 = 1, b1 = a1 and b2 = a2 pass every input unchanged, whatever the registers hold |
| Filters.LowpassCoefficients | src/filters.rs:70-92 | the normalised new_lowpass coefficients have b2 = b0 and b1 = 2 * b0 |
| Filters.HighpassCoefficients | src/filters.rs:95-117 | the normalised new_highpass coefficients have b2 = b0 and b1 = -2 * b0 |
| Filters.Normalise | src/filters.rs:84-88 | dividing the five coefficients by a0, as every constructor does (src/filters.rs:84-88, 109-113, 136-140, 163-167, 189-193), turns equal numerator and denominator into a unity filter |
| Filters.LowshelfCoefficients | src/filters.rs:120-144 | a 0 dB low shelf (A = 1) is a unity filter |
| Filters.HighshelfCoefficients | src/filters.rs:147-171 | a 0 dB high shelf (A = 1) is a unity filter |
| Filters.PeakingCoefficients | src/filters.rs:174-197 | b1 = a1 always; a 0 dB peak (A = 1) is a unity filter |
| Filters.BiquadFilter.NewLowpass | src/filters.rs:70-92 | the filter holds new_lowpass's coefficients and z1 = z2 = 0 |
| Filters.BiquadFilter.NewHighpass | src/filters.rs:95-117 | the filter holds new_highpass's coefficients and z1 = z2 = 0 |
| Filters.BiquadFilter.NewLowshelf | src/filters.rs:120-144 | the filter holds new_lowshelf's coefficients and z1 = z2 = 0 |
| Filters.BiquadFilter.NewHighshelf | src/filters.rs:147-171 | the filter holds new_highshelf's coefficients and z1 = z2 = 0 |
| Filters.BiquadFilter.NewPeakingEq | src/filters.rs:174-197 | the filter holds new_peaking_eq's coefficients and z1 = z2 = 0 |
| Filters.BiquadFilter.ProcessSample | src/filters.rs:61-67 | returns `b0*x + b1*z1 + b2*z2 - a1*z1 - a2*z2`, the previous outputs feeding both terms; z2 takes the old z1, z1 the output; coefficients unchanged |
| Eq.Bank | src/eq.rs:8-11 | one peaking-filter coefficient set per band, in band order |
| Eq.Cascade | src/eq.rs:14-17 | a sample passes through the filters in order and each filter's registers advance once |
| Eq.Run | src/eq.rs:13-19 | running a slice keeps its length and advances every filter once per sample |
| Eq.EqualizerOutputs | src/eq.rs:13-19 | the equalised buffer has the input's length |
| Eq.NewBank | src/eq.rs:8-11 | builds one fresh, distinct filter per band, with the band's coefficients and silent registers |
| Eq.ProcessChain | src/eq.rs:14-17 | feeds filter k's output to filter k + 1 and advances each filter's state exactly once |
| Eq.ProcessSlice | src/eq.rs:13-19 | rewrites the slice in place with the cascade's outputs |
| Eq.Equalizer | src/eq.rs:7-20 | the slice becomes the cascade of the bands' peaking filters applied to the old samples |
| Eq.NoBandsIsIdentity | src/eq.rs:14-18 | with no bands every sample is unchanged |
| Eq.UnityCascadePassesThrough | src/eq.rs:14-17 | a chain of unity filters returns its input |
| Eq.UnityRunPassesThrough | src/eq.rs:13-19 | a chain of unity filters leaves a whole slice unchanged |
| Eq.FlatBandsAreIdentity | src/eq.rs:7-20 | bands of 0 dB gain leave the buffer unchanged |
| Eq.CascadeSplit | src/eq.rs:15-17 | one sample through bands A ++ B equals A then B on A's output |
| Eq.RunSplit | src/eq.rs:13-19 | a slice through bands A ++ B equals running A, then B on A's outputs |
| Eq.CascadeComposes | src/eq.rs:13-19 | equalising with A ++ B equals equalising with B the result of A |
| Eq.EqualizerIsCausal | src/eq.rs:13-19 | the first k outputs depend only on the first k inputs |
| DelayLines.Ring | src/fx.rs:3-11 | the buffer after a sequence of writes at a cursor that wraps modulo n has length n |
| DelayLines.RingWrite | src/fx.rs:9 | one more write changes exactly the slot at the cursor |
| DelayLines.RingRead | src/fx.rs:136 | the slot d places behind the cursor holds the value written d steps ago, or 0 before that |
| DelayLines.RingReadOldest | src/fx.rs:7 | the slot at the cursor holds the value written n steps ago, or 0 in the first n steps |
| DelayLines.CombStored | src/fx.rs:8-9 | the comb line's write history has one entry per sample |
| DelayLines.CombStoredAt | src/fx.rs:8 | entry t of the history is `input[t] + delayed[t] * feedback` |
| DelayLines.CombRead | src/fx.rs:7 | before sample k the slot at the cursor holds the comb's tap for sample k |
| DelayLines.RingHoldsOldest | src/fx.rs:7 | if the value written n steps ago is v (0 before n writes), the slot at the cursor holds v |
| DelayLines.CombOldest | src/fx.rs:7-9 | the value a comb line stored n samples ago is its tap now, and the tap is 0 in the first n samples |
| Fx.WetDry | src/fx.rs:140 | mix 0 gives the dry sample and mix 1 the delayed one |
| Fx.DelayOutputs | src/fx.rs:6-11 | the delay effect's output has the input's length |
| Fx.CombLineStep | src/fx.rs:7-11 | reads the value written N steps ago, writes `x + delayed * feedback` at the cursor and advances the cursor modulo N |
| Fx.DelayEffect | src/fx.rs:1-13 | a zero delay length on a non-empty slice is the out-of-bounds panic and changes nothing; otherwise output i is the value stored at step i - N, 0 for i < N |
| Fx.DelayWithoutFeedback | src/fx.rs:7-10 | with feedback 0 output i is input[i - N], and 0 for the first N samples |
| Fx.DelayOfFiveSamples | src/fx.rs:6-11 | delaying [1, 2, 3, 4, 5] by 4 gives [0, 0, 0, 0, 1] |
| Fx.ReverbLengths | src/fx.rs:17-21 | one line length per delay time 29, 37, 41 and 43 ms |
| Fx.ReverbOutputs | src/fx.rs:24-34 | the reverb's output has the input's length |
| Fx.ReverbPrefix | src/fx.rs:24-34 | the first k outputs, each `x * (1 - room) + sum_of_taps * room` |
| Fx.NewReverbLines | src/fx.rs:18-22 | four fresh, distinct, zero-filled lines of the computed lengths |
| Fx.LinesHoldEach | src/fx.rs:26-32 | the lines' state, stated line after line, is each line being the comb at its own sample |
| Fx.LinesHoldStep | src/fx.rs:26-31 | when line i takes sample k, the lines before it and line i stand at sample k + 1 and the rest at sample k |
| Fx.LinesAdvance | src/fx.rs:24-32 | once every line has taken sample k, all lines stand at sample k + 1 |
| Fx.ReverbLineStep | src/fx.rs:27-31 | line i reads the tap it stored len samples ago, stores `x + delayed * damping`, advances its cursor modulo its length and adds the tap to the running sum |
| Fx.ReverbStep | src/fx.rs:25-32 | the inner loop sums the four lines' comb taps for sample k and leaves every line at sample k + 1 |
| Fx.ReverbSample | src/fx.rs:24-34 | one outer step keeps the loop state: the first k + 1 samples are rewritten, the rest untouched, every line at sample k + 1 |
| Fx.ReverbEffect | src/fx.rs:16-35 | a zero-length line on a non-empty slice panics and changes nothing; otherwise every line is a comb of its own length and the slice becomes the mix of dry and reverberated signal |
| Fx.ReverbWithoutRoom | src/fx.rs:33 | room size 0 leaves the buffer unchanged |
| Fx.ReverbDryPrefix | src/fx.rs:33 | with room size 0 every prefix of the output is the input's prefix |
| Fx.ReverbLinesAreDelays | src/fx.rs:26-32 | each reverb line's tap equals delay_effect's output for that length with damping as feedback |
| Fx.LfoPhase | src/fx.rs:106-112 | with a non-negative increment the wrapped LFO phase stays in [0, 2 * PI) |
| Fx.FlangerDelayBounded | src/fx.rs:133-134 | with sin in [-1, 1] the current delay is at most max_delay |
| Fx.FlangerReadIndex | src/fx.rs:136 | `(idx + max - current_delay) % max` lies in [0, max) and equals the write index when the delay is 0 or max |
| Fx.ReadDistance | src/fx.rs:136 | the read slot holds the value written d samples ago, 1 <= d <= max, with d = max when current_delay is 0 |
| Fx.FlangerReadPosition | src/fx.rs:136 | the read index is the slot ReadDistance steps behind the cursor |
| Fx.FlangerStored | src/fx.rs:137-139 | the flanger line's write history has one entry per sample |
| Fx.FlangerStoredAt | src/fx.rs:137 | entry t of the history is `input[t] + delayed[t] * feedback` |
| Fx.FlangerRead | src/fx.rs:136 | the slot read at sample k holds the flanger's tap for sample k |
| Fx.FlangerOutputs | src/fx.rs:132-144 | the flanger's output has the input's length |
| Fx.FlangerPrefix | src/fx.rs:132-144 | the first k outputs, each `x * (1 - mix) + delayed * mix` |
| Fx.FlangerEffect | src/fx.rs:117-145 | a zero max delay (which includes a zero sample rate) on a non-empty slice is the modulo-by-zero panic and changes nothing; an empty slice is unchanged; otherwise the rate is non-zero and the slice becomes the flanger's outputs |
| Fx.FlangerRun | src/fx.rs:125-144 | the loop leaves the flanger's outputs in the slice |
| Fx.FlangerSample | src/fx.rs:133-143 | one iteration keeps the buffer, cursor, phase and outputs in step with the history |
| Fx.FlangerWithoutMix | src/fx.rs:140 | mix 0 leaves the dry signal unchanged |
| Fx.FlangerDryPrefix | src/fx.rs:140 | with mix 0 every prefix of the output is the input's prefix |
| Fx.TremoloGain | src/fx.rs:110 | depth 0 gives a multiplier of exactly 1 |
| Fx.TremoloGainBounded | src/fx.rs:110 | with sin in [-1, 1] and depth in [0, 1] the multiplier lies in [1 - depth, 1] |
| Fx.TremoloOutputs | src/fx.rs:109-113 | the tremolo's output has the input's length |
| Fx.TremoloEffect | src/fx.rs:105-114 | the slice becomes every sample times the LFO multiplier of its phase |
| Fx.TremoloWithoutDepth | src/fx.rs:110-111 | depth 0 leaves the buffer unchanged |
| Fx.TremoloNeverAmplifies | src/fx.rs:110-111 | with depth in [0, 1] no sample gets louder |
| Fx.GainStepBetween | src/fx.rs:56-58 | with a coefficient in [0, 1] the new gain lies between the old gain and the target |
| Fx.CompressedLevel | src/fx.rs:55 | above a non-negative threshold with ratio >= 1 the target gain lies in (threshold, level] |
| Fx.CompressorOutputs | src/fx.rs:50-62 | the compressor's output has the input's length |
| Fx.Compressor | src/fx.rs:37-63 | the slice becomes each sample times the gain after that sample's attack or release step, starting from gain 1 |
| Fx.CompressorIdle | src/fx.rs:48-61 | if no sample exceeds the threshold the gain stays exactly 1 and the buffer is unchanged |
| Fx.CompressorGainBounded | src/fx.rs:48-61 | with coefficients in [0, 1], ratio >= 1 and samples in [-1, 1] the gain stays in [0, 1] |
| Fx.CompressorNeverAmplifies | src/fx.rs:50-62 | under the same conditions no sample gets louder |
| Fx.NoiseGateOutputs | src/fx.rs:169-179 | the gate's output has the input's length |
| Fx.NoiseGate | src/fx.rs:157-180 | the slice becomes each sample times the gain after that sample's attack or release step, starting from gain 1 |
| Fx.NoiseGateGainBounded | src/fx.rs:167-178 | with both coefficients in [0, 1] the gain stays in [0, 1] |
| Fx.NoiseGateNeverAmplifies | src/fx.rs:167-178 | with both coefficients in [0, 1] no sample gets louder |
| Fx.MaxAbs | src/fx.rs:66-76 | the fold is None exactly for an empty slice, and otherwise a magnitude that bounds all others |
| Fx.MaxAbsIsTheBound | src/fx.rs:66-76 | a magnitude that occurs and bounds all others is the fold's result |
| Fx.Scaled | src/fx.rs:79-81 | scaling keeps the length |
| Fx.NormalizeOutputs | src/fx.rs:65-84 | normalising keeps the length |
| Fx.Normalize | src/fx.rs:65-84 | the slice becomes the normalised buffer |
| Fx.NormalizeKeepsSilence | src/fx.rs:77 | an empty or all-zero buffer is unchanged |
| Fx.NormalizedPeakIsOne | src/fx.rs:77-82 | otherwise the largest magnitude of the result is exactly 1 |
| Fx.ScaledByPeak | src/fx.rs:78-81 | scaling by 1 / peak keeps every magnitude at most 1 and makes the peak sample exactly 1 |
| Fx.Offset | src/fx.rs:88-90 | subtracting a constant keeps the length |
| Fx.RemoveDcOutputs | src/fx.rs:86-91 | removing the offset keeps the length |
| Fx.RemoveDcOffset | src/fx.rs:86-91 | the slice becomes every sample minus the mean |
| Fx.SumOffset | src/fx.rs:88-90 | subtracting c from n samples lowers their sum by n * c |
| Fx.RemoveDcCentres | src/fx.rs:86-91 | a non-empty buffer sums to 0 afterwards |
| Dsp.EarlyReflectionSuppression | src/dsp.rs:57-67 | never louder and never changes sign; samples at or above 0.05 in magnitude pass unchanged, quieter ones stay below 0.05 |
| Dsp.DereverbAlpha | src/dsp.rs:23-25 | the coefficient lies strictly between 0 and 1 |
| Dsp.DereverbAlphaIsLowPassAlpha | src/dsp.rs:23-25 | the coefficient is low_pass_filter's for 100 Hz at 44.1 kHz, the complement of high_pass_filter's |
| Dsp.DereverbPrefix | src/dsp.rs:27-40 | the first k outputs, one per input sample |
| Dsp.DereverbOutputs | src/dsp.rs:15-43 | the output has the input's length |
| Dsp.Dereverb | src/dsp.rs:15-43 | output k is the suppressor applied to `alpha * (prev_out + x - prev_in)`, both states starting at 0 |
| Dsp.DereverbFilterIsHighPass | src/dsp.rs:29 | for a signal starting at 0 the filter stage equals high_pass_filter's recurrence |
| Dsp.DereverbSuppresses | src/dsp.rs:36 | every output is at most as loud as the filtered sample it comes from |
| Dsp.MidSideEncode | src/dsp.rs:176-188 | mid and side have the length of the shorter channel |
| Dsp.MidSideDecode | src/dsp.rs:190-194 | left and right have the length of the shorter input |
| Dsp.DecodeEncode | src/dsp.rs:176-194 | decoding what was encoded returns both equal-length channels |
| Dsp.EncodeDecode | src/dsp.rs:176-194 | encoding what was decoded returns mid and side |
| Dsp.EncodeExample | src/dsp.rs:176-188 | encoding [1, -1] and [1, 1] gives mid [1, 0] and side [0, -1] |
| Dsp.PeakDetection | src/dsp.rs:130-132 | at least 0, at least every magnitude, 0 for an empty slice, and otherwise a magnitude that occurs |
| Dsp.PeakIsMaxAbs | src/dsp.rs:130-132 | peak_detection agrees with normalize's fold: 0 for an empty slice, else the same maximum |
| Dsp.Envelope | src/dsp.rs:109-122 | the envelope has the input's length |
| Dsp.EnvelopeDetection | src/dsp.rs:109-122 | env[k] = 0.1 * abs(x[k]) + 0.9 * env[k - 1], with env[-1] = 0 |
| Dsp.EnvelopeBounded | src/dsp.rs:114-119 | every envelope value is non-negative and at most the peak magnitude |
| Dsp.WindowFactorBounded | src/dsp.rs:93-104 | with cos in [-1, 1]: Hann in [0, 1], Hamming in [0.08, 1], Blackman in [-0.16, 1] |
| Dsp.WindowOutputs | src/dsp.rs:90-107 | windowing keeps the length |
| Dsp.ApplyWindow | src/dsp.rs:90-107 | sample i is multiplied by a factor that depends only on i, n and the window type |
| Dsp.WindowNeverAmplifies | src/dsp.rs:92-105 | with cos in [-1, 1] no window makes a sample louder |
| Dsp.Convolution | src/dsp.rs:69-82 | the convolution has n + m - 1 outputs |
| Dsp.Convolve | src/dsp.rs:69-82 | both inputs empty is the subtraction underflow; otherwise output k sums signal[i] * impulse[j] over i + j = k |
| Dsp.UnitImpulseRows | src/dsp.rs:74-78 | accumulating the unit impulse's rows picks out one signal sample |
| Dsp.UnitImpulse | src/dsp.rs:69-82 | convolving with [1] returns the signal |
| Dsp.ConvolveExample | src/dsp.rs:69-82 | convolving [1, 2] with [1, 1] gives [1, 3, 2] |
| Dsp.ConvRowsAsSum | src/dsp.rs:74-78 | the accumulated rows are a sum over the signal index of zero-extended products |
| Dsp.ConvolutionAsSum | src/dsp.rs:74-78 | output k is that sum over indices 0..k |
| Dsp.ConvolutionCommutes | src/dsp.rs:69-82 | swapping signal and impulse response gives the same output |
| Dsp.ResampleIndexBounds | src/dsp.rs:140-144 | for every output index the ratio is positive, index_floor <= len - 1, and the weight lies in [0, 1) |
| Dsp.ResamplePrefix | src/dsp.rs:140-148 | the first k interpolated outputs |
| Dsp.ResampleOutputs | src/dsp.rs:136-150 | resample returns `round(len * target / original)` samples |
| Dsp.Resample | src/dsp.rs:135-151 | output i interpolates between index_floor and the upper index, clamped to len - 1 |
| Dsp.ResampleIdentityPrefix | src/dsp.rs:140-148 | at ratio 1 every prefix of the output is the input's prefix |
| Dsp.ResampleIdentity | src/dsp.rs:135-151 | resampling between equal rates returns the input |
| Dsp.ResampleWithinPeak | src/dsp.rs:146 | no interpolated sample exceeds the input's peak magnitude |
| Dsp.ResampleExample | src/dsp.rs:135-151 | resampling [0, 1, 2, 3] from 2 to 4 gives [0, .5, 1, 1.5, 2, 2.5, 3, 3]; the last output uses the clamped upper index |
| Dsp.ResampleRampAt | src/dsp.rs:141-146 | the interpolation for each index of that example |
| Dsp.ResamplePrefixAt | src/dsp.rs:147 | output i of any longer prefix is the i-th interpolated sample |

## Left out

- src/devices.rs, src/stream.rs and src/main.rs are not part of this model. They are cpal
  device enumeration, stream callbacks and console output.
- src/read_wav.rs is not part of this model: it wraps the `hound` WAV reader.
- src/fft.rs is not part of this model: it wraps `rustfft`, whose transform is not visible.
- `distortion` and `stereo_panning` in src/fx.rs and `calculate_rms` in src/dsp.rs are left
  out. They are pure floating-point formulas over `tanh`, `cos` and `sqrt`, with no discrete
  behaviour to check.
- The second `new_peaking_eq` in src/eq.rs:22-45 is left out. It assigns a field `a0` that
  `BiquadFilter` does not declare, leaves `b0` unset and permutes the coefficient names, so it
  does not compile against src/filters.rs:46-57. The model uses the constructor at
  src/filters.rs:174-197.
- f32 rounding is left out: samples are reals and every sum is exact. So is the order of
  summation; convolve's accumulation order, for example, does not change a real result.
- NaN and infinities are left out. A `requires` rules out each division by zero that would
  produce them:
  - the cutoff and rate terms of the filters (`FirstOrderDefined`, `PassDefined`,
    `ShelfDefined`, `PeakingDefined`);
  - the sample rate in `Fx.TremoloEffect` (in `Fx.FlangerEffect` a zero rate gives a zero-length
    buffer, so the modulo-by-zero panic comes first, and the increment is never used);
  - the time constants and ratio in `Fx.Compressor` and `Fx.NoiseGate`.
- Dsp.ApplyWindow: requires a length other than 1. For one sample the source divides 0 by 0
  and writes NaN into the slice, which reals cannot express.
- Dsp.Resample: requires a non-zero original rate. A zero rate makes the ratio infinite, and
  the length computation would then saturate.
- Fx.FlangerEffect, Fx.FlangerRun: require `SinBounded`, a sine that stays in [-1, 1]. With
  an arbitrary function the delay could exceed `max_delay` and the read index would
  underflow, which a real sine never does.
- `SinBounded` and `CosBounded` are the only facts assumed about the math functions. The
  bound lemmas (`Fx.TremoloGainBounded`, `Fx.FlangerDelayBounded`,
  `Dsp.WindowFactorBounded`) take them as hypotheses.
- usize overflow is left out. Cursor increments and `n + m - 1` are unbounded integers, since
  slices can never be long enough to overflow; the one usize underflow the source can reach,
  `n + m - 1` with both inputs empty, is an error value.
- Fx.CompressorGainBounded, Fx.CompressorNeverAmplifies: assume samples in [-1, 1]. Louder
  samples can give a compressed target above 1, and the gain can then exceed 1.
- The register-level behaviour of `BiquadFilter` over whole runs is stated through `Eq`'s
  cascade. No frequency response or convergence property is modelled.
