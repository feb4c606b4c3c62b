# Delay and phase alignment of two complex IQ streams

The script `main.py` simulates two receivers that sample the same binary
signal. The second receiver sees the signal rotated by a complex phase
factor and delayed circularly by a whole number of samples (line 37). The
script then estimates the delay and removes it:

- it centres both receivers and takes their full cross-correlation (line 71);
- it reads the lag from the first correlation peak (line 72);
- it rolls the first receiver by that lag (line 78).

Next it estimates the phase from the means of the two receivers (lines
81-82). Last, it rotates the first receiver by the phase correction factor
(line 93).

This project models those steps as pure Dafny functions over exact complex
numbers, `Complex(re: real, im: real)`, and proves what they guarantee. The modules are:

- `Complex`: exact complex arithmetic, plus the lexicographic order numpy
  uses to compare complex values.
- `Samples`: sum, mean, centring (`x - np.mean(x)`), DC offsets and scaling
  by a complex constant.
- `Rotation`: `np.roll`, including the reduction of the shift modulo N.
- `Correlate`: `np.correlate(a, v, mode='full')`. It conjugates its second
  operand: c[k] = Σ a[n+k]·conj(v[n]). r_2 carries the phase factor
  (line 37), so the conjugation matters at line 71.
- `Peak`: `argmax`, which returns the first index of a greatest value.
- `Pipeline`: the delay estimate, and the delay and phase corrections, both
  as written and corrected.
- `DelaySign`: a three-sample input on which the correction as written fails.

Empty inputs follow numpy:
- `np.correlate` and `argmax` raise an error on an empty array. The model
  returns `Failure(EmptyArray)`.
- Centring an empty array gives an empty array.
- `np.mean` of an empty array is NaN. The model's `Mean` requires at least
  one sample.

## Model

| member | source | states |
|---|---|---|
| Samples.Mean | main.py:81-82 | the mean times the number of samples is the sum of the samples |
| Samples.Center | main.py:71 | centring keeps the length, and the centred samples sum to zero |
| Samples.CenterAt | main.py:71 | each centred sample is the input sample minus the input's mean |
| Samples.MeanOffset | main.py:71 | adding a constant to every sample adds that constant to the mean |
| Samples.CenterOffsetInvariant | main.py:71 | adding the same constant to every sample leaves the centred sequence unchanged |
| Samples.CenterIdempotent | main.py:71 | centring an already centred sequence changes nothing |
| Samples.CenterConstant | main.py:71 | a flat sequence centres to all zeros |
| Samples.Scale | main.py:93 | scaling keeps the length and multiplies every sample by the constant |
| Samples.ScaleOne | main.py:93 | scaling by 1 is the identity |
| Samples.ScaleCompose | main.py:37 | two successive rotations equal one rotation by the product of the factors |
| Samples.SumScale | main.py:93 | the sum of the scaled sequence is the sum times the constant |
| Samples.MeanScale | main.py:81-82 | the mean of the scaled sequence is the mean times the constant |
| Rotation.Roll | main.py:78 | rolling keeps the length |
| Rotation.RollAt | main.py:78 | position j of `np.roll(x, k)` holds x[(j - k) mod N] |
| Rotation.RollMoves | main.py:37 | sample i moves to position (i + k) mod N |
| Rotation.RollPermutation | main.py:78 | the rolled sequence is a permutation of the input (equal multisets) |
| Rotation.RollZero | main.py:78 | rolling by 0 is the identity |
| Rotation.RollPeriodic | main.py:78 | rolling by k + N is the same as rolling by k |
| Rotation.RollCompose | main.py:78 | rolling by a and then by b is rolling by a + b |
| Rotation.RollCongruent | main.py:78 | shifts that are congruent mod N give the same roll |
| Rotation.RollInverse | main.py:78 | rolling by k and then by -k restores the input |
| Rotation.SumRoll | main.py:78 | rolling does not change the sum |
| Rotation.MeanRoll | main.py:81 | rolling does not change the mean |
| Rotation.RollScaleCommute | main.py:37 | rolling and scaling commute |
| Rotation.Wrap | main.py:78 | the reduced shift lies in [0, N) |
| Rotation.WrapIsMod | main.py:78 | the reduced shift is k mod N, as Python computes it for N > 0 |
| Correlate.CorrelateFull | main.py:71 | the result is an error exactly when an operand is empty; otherwise it has length abs(a) + abs(v) - 1, and entry j is the correlation at lag j - (abs(v) - 1) |
| Correlate.CorrAtOutside | main.py:71 | a lag outside [-(abs(v)-1), abs(a)-1] has no overlap and a zero correlation, so the full output covers every lag with a nonzero value |
| Correlate.CorrAtScaleLeft | main.py:71 | rotating the first operand by c rotates every correlation value by c |
| Correlate.CorrAtScaleRight | main.py:71 | rotating the second operand by c rotates every correlation value by conj(c) |
| Correlate.CorrelateZero | main.py:71 | correlating with an all-zero sequence gives an all-zero profile |
| Peak.ArgMax | main.py:72 | fails exactly on an empty array; otherwise returns an index of a greatest value in lexicographic order, with every earlier value strictly smaller |
| Peak.FirstMaxUnique | main.py:72 | the first greatest index is unique, so `argmax` is fully determined |
| Peak.ArgMaxFlat | main.py:72 | a flat profile has its argmax at index 0 |
| Complex.LessIsStrictTotalOrder | main.py:72 | numpy's lexicographic order on complex values is a strict total order |
| Pipeline.EstimateDelay | main.py:71-72 | fails exactly when a receiver is empty; otherwise the lag lies in [-(abs(r1)-1), abs(r2)-1] |
| Pipeline.EstimateDelayIsBestLag | main.py:71-72 | the estimated lag, shifted by abs(r1) - abs(r2), is the first lag of greatest centred correlation |
| Pipeline.DelayOffsetInvariant | main.py:71-72 | adding a constant to either receiver does not change the estimated lag |
| Pipeline.FlatProfile | main.py:71 | a flat receiver gives an all-zero correlation profile |
| Pipeline.FlatProfileLag | main.py:72 | a flat receiver gives the lag -(abs(r1) - 1) |
| Pipeline.Received | main.py:37 | the noise-free second receiver: the source scaled by c, then rolled by d; its length is kept |
| Pipeline.ReceivedMoves | main.py:37 | source sample i, rotated by c, arrives at position (i + d) mod N of the second receiver |
| Pipeline.NoiseFreeMeans | main.py:81-82 | without noise, the mean of the second receiver is the source mean times the injected factor |
| Pipeline.Correct | main.py:78-93 | the delay correction rolls the first receiver; the means are those of the rolled first receiver and of the second; the phase correction scales the rolled receiver by the factor the means give |
| Pipeline.CorrectKeepsSamples | main.py:78-93 | the rolled receiver is a permutation of the first receiver; the corrections commute; the corrected mean is the first mean times the factor |
| Pipeline.AlignAsWritten | main.py:71-93 | fails exactly on an empty receiver; otherwise it rolls the first receiver by +lag, the estimated delay, and then scales it by the phase factor |
| Pipeline.Align | main.py:71-93 | the same pipeline, but it rolls by -lag |
| Pipeline.CorrectedRolls | main.py:37 | rolling by a shift congruent to d and scaling by c reproduces the noise-free second receiver |
| Pipeline.OvershotRolls | main.py:78 | when lag = -d mod N, rolling by lag lands 2d samples short of the second receiver |
| Pipeline.AlignUndoesInjection | main.py:78 | if the peak is at lag -d mod N and the phase factor is the injected one, the corrected pipeline returns the second receiver exactly |
| Pipeline.AsWrittenOvershoots | main.py:78 | under the same conditions, the pipeline as written leaves the first receiver rolled by -2d against the second |
| DelaySign.PulseLag | main.py:71-72 | for the pulse [1, -1, 0] delayed by one sample, the estimated lag is -1 |
| DelaySign.AsWrittenMisaligns | main.py:78 | on that input the pipeline as written yields [-1, 0, 1], not the second receiver [0, 1, -1] |
| DelaySign.CorrectedAligns | main.py:78 | on that input the corrected pipeline yields the second receiver |

## Left out

- Random draws: the delay, the phase, the bits and the noise (main.py:19-33). The delay, the phase factor and the samples are parameters of the model instead.
- Additive noise and the SNR figures (main.py:36-41). These are floating-point statistics over random data.
- The angles from `np.arctan2` and the correction factor from `np.cos`/`np.sin` (main.py:83-85, 92). These are transcendental functions. The factor enters `Align` and `AlignAsWritten` as a function `phase` of the two means.
- Floating-point rounding. All arithmetic is exact real arithmetic.
- Plotting and console output (main.py:43-51, 55-68, 73-75, 86-90, 95-98).
- solution.py is not part of this model. It only draws random bits and plots them.
- Samples.Mean: requires a nonempty input. For an empty array numpy returns NaN with a warning, and the model has no NaN.
- Pipeline.AlignUndoesInjection: takes two hypotheses and does not derive them. First, the correlation peak falls at lag -d mod N. With linear correlation, a circular roll and noise, the script does not guarantee that. Second, the phase factor computed from the two means equals the injected factor c: `phase(Mean(s), Mean(Received(s, d, c))) == c`. The script's arctan2/cos/sin factor has that property when abs(c) = 1 and Mean(s) is not zero, but the model leaves the factor abstract. Pipeline.AsWrittenOvershoots takes the same two hypotheses.

## Findings

| source | as written | input that shows it | evidently intended | confidence | as-written member | corrected member |
|---|---|---|---|---|---|---|
| main.py:78 | `r_1 = np.roll(r_1, lag)` rolls the first receiver by +lag. The peak sits at lag -d, so this moves r_1 a further d samples away from r_2. | s = [1, -1, 0], d = 1, no phase rotation: r_2 = [0, 1, -1] and lag = -1. The corrected r_1 is [-1, 0, 1], which is not r_2. | `r_1 = np.roll(r_1, -lag)`, which moves r_1 onto r_2 | not executed | DelaySign.AsWrittenMisaligns | DelaySign.CorrectedAligns |
