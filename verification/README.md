# A 3D Signal Journey — a Dafny model of its signal core

A-3D-Signal-Journey is a browser visualisation of a digital signal's path:
- a bit string is generated;
- it is line-coded (NRZ, Manchester, differential Manchester) or modulated onto a carrier (ASK, FSK, PSK, 4-QAM);
- it is sent through a medium (coaxial cable, twisted pair, optical fibre, wireless) that attenuates, adds noise and distorts it;
- it is measured (SNR, BER, eye diagram).

This project models the program's logic as pure Dafny functions and a few methods, and proves properties of them:

- **signal maths** — time and frequency axes, complex arithmetic, the radix-2 FFT, attenuation, the first-order low-pass filter, SNR and BER;
- **waveform generators** — sine, cosine and square waves; the three line encoders; the four modulators; plot-point conversion and downsampling;
- **transmission scene logic** — packets in flight, per-frame channel impairment, arrival, error counting, the 50-trace eye diagram and statistics;
- **modulation panel logic** — spectral and power efficiency, constellation minimum distance, symbol error rate, click-to-edit constellation points, reset and optimise;
- **transmission-medium panel logic** — the medium characteristics table, distance clamping, the 5-dot indicators, configuration validation, the optimise and reset presets, cost, utilisation, propagation delay;
- **signal-generator panel logic** — input filtering, the bit array handed to the encoders, random bit strings, play, pause and reset, and the info panel's sample count.

Modelling conventions:

- JavaScript numbers are `real`. Floating-point rounding is not modelled.
- Where the source can produce `NaN` or `±Infinity`, `Numbers.Number` stands for the JavaScript value:
  - `0/0` gives NaN;
  - `x/0` gives Infinity;
  - `log10(0)` gives -Infinity.
- `Math.sin`, `Math.cos`, `Math.exp`, `Math.log10`, `Math.log2`, `Math.sqrt` and `Math.pow(10, ·)` are function-valued parameters.
  - A lemma that needs a fact about one of them (such as `cos(0) = 1`) states it as a precondition.
- `Math.random()` draws are parameters too. A random draw per packet or per bit is a function from the index to the draw.
- A `throw` is a `Result` failure. An `undefined` read (past the end of an array) is an `Option`.
- The live packet `Map` iterates in insertion order. It is modelled as a sequence of packets with strictly increasing ids.

Modules:

| module | file | covers |
|---|---|---|
| `Wrappers` | wrappers.dfy | `Option`, `Result` |
| `Numbers` | numbers.dfy | JavaScript special values, division, `Math.floor`, min and max |
| `SignalMath` | signal_math.dfy | `src/utils/signalMath.ts` |
| `Sampling` | sampling.dfy | the sampling frame shared by the generators of `src/utils/waveforms.ts` |
| `LineCoding` | line_coding.dfy | `DigitalEncoder` of `src/utils/waveforms.ts` |
| `Modulation` | modulation.dfy | `Modulator` of `src/utils/waveforms.ts` |
| `WaveformTools` | waveform_tools.dfy | `WaveformGenerator` and `WaveformProcessor` of `src/utils/waveforms.ts` |
| `TransmissionScene` | transmission_scene.dfy | the logic of `src/scenes/TransmissionScene.ts` |
| `ModulationSystem` | modulation_system.dfy | the logic of `src/components/ModulationSystem.ts` |
| `TransmissionMedium` | transmission_medium.dfy | the logic of `src/components/TransmissionMedium.ts` |
| `SignalGenerator` | signal_generator.dfy | the logic of `src/components/SignalGenerator.ts` |

## Model

| member | source | states |
|---|---|---|
| `Numbers.Div` | src/utils/signalMath.ts:150 | JavaScript division: finite exactly when the divisor is non-zero, and then `value * b == a`; NaN exactly for `0/0` |
| `Numbers.FloorCount` | src/utils/signalMath.ts:44-46 | a loop bound `floor(x)` clipped at zero: a positive count `n` satisfies `n <= x < n + 1`, and the count is 0 exactly when `x < 1` |
| `SignalMath.TimeAxis` | src/utils/signalMath.ts:43-47 | `floor(sampleRate * duration)` samples, sample `i` at `i * (1 / sampleRate)` |
| `SignalMath.TimeAxisWithinDuration` | src/utils/signalMath.ts:43-47 | with a positive rate the axis starts at 0, increases strictly and stays below the duration |
| `SignalMath.FrequencyAxis` | src/utils/signalMath.ts:50-53 | `floor(samples)` bins, as `Array.from` truncates the length (none below 1), bin `i` at `i * sampleRate / samples` with the untruncated count |
| `SignalMath.FrequencyAxisBelowRate` | src/utils/signalMath.ts:50-53 | with a positive rate the bins start at 0, increase strictly and stay below the sample rate |
| `SignalMath.Add` | src/utils/signalMath.ts:22-24 | complex addition is undone by subtracting either addend |
| `SignalMath.Mul` | src/utils/signalMath.ts:26-31 | complex multiplication has `1 + 0i` as identity on both sides and `-1 + 0i` negates |
| `SignalMath.Evens` | src/utils/signalMath.ts:61 | the even-indexed elements: `ceil(n/2)` of them, element `i` is input `2i` |
| `SignalMath.Odds` | src/utils/signalMath.ts:62 | the odd-indexed elements: `floor(n/2)` of them, element `i` is input `2i+1` |
| `SignalMath.Fft` | src/utils/signalMath.ts:56-80 | the transform keeps the length, and a signal of length 0 or 1 is its own transform |
| `SignalMath.FftButterfly` | src/utils/signalMath.ts:69-77 | output `k` is `E[k] + W^k O[k]` and output `k + N/2` is `E[k] - W^k O[k]`, where E and O are the transforms of the even and odd halves |
| `SignalMath.FftDcBin` | src/utils/signalMath.ts:56-80 | given `cos 0 = 1` and `sin 0 = 0`, bin 0 of the transform is the sum of all inputs |
| `SignalMath.SumOfHalves` | src/utils/signalMath.ts:61-65 | the sum of a sequence is the sum of its even-indexed half plus the sum of its odd-indexed half |
| `SignalMath.ApplyAttenuation` | src/utils/signalMath.ts:100-102 | every sample is scaled by the factor; a factor of 1 changes nothing |
| `SignalMath.AttenuationComposes` | src/utils/signalMath.ts:100-102 | attenuating by `a` and then by `b` is attenuating once by `a * b` |
| `SignalMath.LowPassFilter` | src/utils/signalMath.ts:105-114 | an empty signal gives `[undefined]`; otherwise one output per input, the first equal to the input and each next `α·x[i] + (1 − α)·y[i-1]` with `α = cutoff / (cutoff + sampleRate)`; a constant signal passes unchanged |
| `SignalMath.MismatchesBounds` | src/utils/signalMath.ts:143-148 | the count of differing positions is at most the length, and 0 for equal sequences |
| `SignalMath.NonNegSumSquares` | src/utils/signalMath.ts:125-131 | a signal's power is never negative |
| `SignalMath.NoErrorAgainstItself` | src/utils/signalMath.ts:125-129 | the noise power of a signal against itself is zero |
| `SignalMath.PerfectCopySnr` | src/utils/signalMath.ts:117-135 | an unaltered copy has no finite SNR: +Infinity, or NaN when the original is silent |
| `SignalMath.CalculateSNR` | src/utils/signalMath.ts:117-135 | throws exactly on a length mismatch, otherwise returns `10 log10(Psignal / Pnoise)` with JavaScript's division |
| `SignalMath.CalculateBER` | src/utils/signalMath.ts:138-150 | throws exactly on a length mismatch; NaN for empty inputs; otherwise a rate in [0, 1] that is 0 for identical bits |
| `Sampling.SamplesPerBit` | src/utils/waveforms.ts:54-55 | `floor(bitDuration * sampleRate)`: positive only for a non-zero rate and then at most the product; 0 exactly when the product is below 1 |
| `Sampling.FirstHalf` | src/utils/waveforms.ts:78-87 | the test `positionInBit < 0.5` holds exactly for the offsets in the first half of a bit |
| `Sampling.SynthesizedAt` | src/utils/waveforms.ts:59-65 | sample `i` of a generator's loop lies at `i / sampleRate` and takes the level of bit `floor(i / samplesPerBit)` at its position in that bit |
| `Sampling.SynthesizedSample` | src/utils/waveforms.ts:59-65 | sample `k * samplesPerBit + j` is sample `j` of bit `k` |
| `LineCoding.EncodeNrz` | src/utils/waveforms.ts:53-69 | one `samplesPerBit` block of samples per bit, each sample +1 or -1 |
| `LineCoding.NrzSample` | src/utils/waveforms.ts:53-69 | every sample of a 1 bit is +1, every sample of any other bit is -1 |
| `LineCoding.NrzRoundTrip` | src/utils/waveforms.ts:53-69 | reading each bit's first sample gives back a binary bit string whenever a bit gets at least one sample |
| `LineCoding.EncodeManchester` | src/utils/waveforms.ts:70-94 | one `samplesPerBit` block of samples per bit, each sample +1 or -1 |
| `LineCoding.ManchesterSample` | src/utils/waveforms.ts:70-94 | a 0 is high in the first half of its bit and low in the second; any other bit is the reverse |
| `LineCoding.ManchesterMidBitTransition` | src/utils/waveforms.ts:70-94 | with two or more samples per bit, every bit's first and last samples differ |
| `LineCoding.ManchesterRoundTrip` | src/utils/waveforms.ts:70-94 | decoding a Manchester waveform gives back the binary bits |
| `LineCoding.PhaseParity` | src/utils/waveforms.ts:101-114 | the phase starts at +1 and is -1 exactly after an odd number of zeros |
| `LineCoding.DifferentialSample` | src/utils/waveforms.ts:95-124 | sample `j` of bit `k` is the phase after bits `0..k` in the bit's first half and its negation in the second |
| `LineCoding.DifferentialManchesterLoop` | src/utils/waveforms.ts:95-124 | the stateful loop, which flips `lastPhase` at the start of each 0 bit, produces exactly the waveform defined per bit from the phase sequence |
| `LineCoding.DifferentialManchesterRoundTrip` | src/utils/waveforms.ts:95-124 | comparing each bit's first sample with the previous bit's gives back the binary bits |
| `Modulation.AskSample` | src/utils/waveforms.ts:128-147 | a sample of bit `k` is the carrier scaled by 1 for a 1 and by 0.1 otherwise; with a carrier in [-1, 1] a non-1 bit stays within ±0.1 |
| `Modulation.FskSample` | src/utils/waveforms.ts:148-167 | a 1 is sent at `freq1` and any other bit at `freq0` |
| `Modulation.FskEqualFrequenciesIgnoreBits` | src/utils/waveforms.ts:148-167 | with equal frequencies, any two bit strings of the same length give the same waveform |
| `Modulation.PskIsNrzTimesCarrier` | src/utils/waveforms.ts:168-187 | given `cos(x + π) = -cos x`, PSK is the carrier multiplied by the NRZ level of the bit |
| `Modulation.QamSymbols` | src/utils/waveforms.ts:189-195 | `ceil(n/2)` symbols; symbol `k` is `2 * bits[2k] + bits[2k+1]`, with a missing last bit read as 0 |
| `Modulation.QamGroupingRoundTrip` | src/utils/waveforms.ts:189-195 | splitting the symbols back into two bits each gives the bit string, padded with one 0 when its length is odd |
| `Modulation.ModulateQam` | src/utils/waveforms.ts:188-226 | fails, naming a symbol outside 0..3, exactly when some symbol is off the constellation and at least one sample is produced; otherwise `ceil(n/2) * samplesPerSymbol` samples |
| `Modulation.BinaryQamSucceeds` | src/utils/waveforms.ts:188-226 | 0/1 bits never index outside the constellation |
| `Modulation.QamPointOfBits` | src/utils/waveforms.ts:203-208 | for 0/1 bits, symbol `k` sits at `(2 bits[2k] - 1, 2 bits[2k+1] - 1)`: I carries the first bit and Q the second |
| `Modulation.QamSample` | src/utils/waveforms.ts:210-221 | a sample of symbol `k` is `I cos(ωt) + Q sin(ωt)` for that symbol's point |
| `WaveformTools.Sinusoid` | src/utils/waveforms.ts:22-38 | the sine and cosine generators: one sample per time-axis instant, equal to `A sin(2πft + φ)` or `A cos(2πft + φ)` |
| `WaveformTools.CosineIsShiftedSine` | src/utils/waveforms.ts:31-39 | given `cos x = sin(x + π/2)`, the cosine wave is the sine wave with its phase advanced by π/2 |
| `WaveformTools.SquareWave` | src/utils/waveforms.ts:40-47 | one sample per time-axis instant, the amplitude times the sign of the sine |
| `WaveformTools.SquareFollowsSine` | src/utils/waveforms.ts:40-47 | with a positive amplitude the square wave is `+A` exactly where the sine is positive, `-A` exactly where it is negative, and 0 exactly where it is zero |
| `WaveformTools.ToPoints` | src/utils/waveforms.ts:230-236 | one `z = 0` point per time value; `y` is a number exactly where an amplitude exists |
| `WaveformTools.ToPointsUnproject` | src/utils/waveforms.ts:230-236 | with non-zero scales, dividing a point by the scales gives back the time and the amplitude |
| `WaveformTools.Downsample` | src/utils/waveforms.ts:239-254 | a signal within the limit is returned as it is; above it the first sample is kept and the result is no longer than the input |
| `WaveformTools.DownsampleStride` | src/utils/waveforms.ts:245-251 | above the limit the kept samples are those at the multiples of `floor(len / maxPoints)` |
| `WaveformTools.DownsampleExceedsLimit` | src/utils/waveforms.ts:245 | 1999 samples with a limit of 1000 come back as 1999 points |
| `WaveformTools.DownsampleWithin` | src/utils/waveforms.ts:239-254 | the corrected downsampling never returns more points than the limit |
| `TransmissionScene.UpdateConfig` | src/scenes/TransmissionScene.ts:562-572 | every field given in the patch is taken and every other field is kept |
| `TransmissionScene.Init` | src/scenes/TransmissionScene.ts:43-64 | a fresh scene is idle, has no packets and satisfies the scene invariant |
| `TransmissionScene.Transmit` | src/scenes/TransmissionScene.ts:531-543 | appends one packet with the next id at position 0 and amplitude 1, counts it as transmitted, and keeps the invariant |
| `TransmissionScene.Start` | src/scenes/TransmissionScene.ts:545-547 | sets the transmitting flag and changes nothing else |
| `TransmissionScene.Stop` | src/scenes/TransmissionScene.ts:549-560 | stops and drops every packet in flight, keeping the counters, the id counter, the eye diagram and the configuration |
| `TransmissionScene.StopIdempotent` | src/scenes/TransmissionScene.ts:549-560 | stopping twice is stopping once, and stopping after a start is just stopping |
| `TransmissionScene.ResetStats` | src/scenes/TransmissionScene.ts:600-605 | zeroes the three counters and clears the eye diagram; packets in flight, the flag and the configuration stay |
| `TransmissionScene.Configure` | src/scenes/TransmissionScene.ts:562-572 | merges the patch into the configuration; packets in flight stay |
| `TransmissionScene.Impairment` | src/scenes/TransmissionScene.ts:452-469 | `Math.max(0.01, ·)`: the impaired amplitude is at least the 0.01 floor and at least path loss plus noise times distortion, and equal to one of the two |
| `TransmissionScene.CleanChannel` | src/scenes/TransmissionScene.ts:452-469 | without noise or distortion only the path loss remains, floored at 0.01 |
| `TransmissionScene.IdealChannel` | src/scenes/TransmissionScene.ts:452-469 | with no attenuation, noise or distortion the amplitude stays 1 |
| `TransmissionScene.Advance` | src/scenes/TransmissionScene.ts:357-373 | every packet either stays in flight (position below 1, amplitude at least the floor) or arrives (position at least 1); none is lost |
| `TransmissionScene.AdvanceSplits` | src/scenes/TransmissionScene.ts:357-373 | a packet arrives exactly when its advanced position reaches 1; otherwise it is advanced and re-impaired |
| `TransmissionScene.AdvanceIdsIncreasing` | src/scenes/TransmissionScene.ts:357-373 | removing arrived packets keeps the remaining ids in insertion order |
| `TransmissionScene.NoErrorsIffAllStrong` | src/scenes/TransmissionScene.ts:498-516 | no error is counted exactly when every arrived packet has an amplitude of at least 0.1 |
| `TransmissionScene.CountErrorsAppend` | src/scenes/TransmissionScene.ts:498-516 | error counts add up over consecutive batches of arrivals |
| `TransmissionScene.PushAllKeepsLatest` | src/scenes/TransmissionScene.ts:518-528 | the eye diagram holds exactly the 50 most recent traces |
| `TransmissionScene.Tick` | src/scenes/TransmissionScene.ts:348-373 | a frame does nothing while stopped; otherwise it keeps the invariant, conserves received plus in-flight packets, and adds no more errors than arrivals |
| `TransmissionScene.TickEffect` | src/scenes/TransmissionScene.ts:498-528 | a frame adds the arrivals to `received`, their weak ones to `errors`, and their traces to the eye diagram |
| `TransmissionScene.FreshPacketArrivingIsNotAnError` | src/scenes/TransmissionScene.ts:498-516 | a packet delivered within one frame arrives at full amplitude and is not an error |
| `TransmissionScene.NoisePower` | src/scenes/TransmissionScene.ts:593-598 | the noise power is the squared noise level, floored at 0.001 |
| `TransmissionScene.SnrCapped` | src/scenes/TransmissionScene.ts:593-598 | the displayed SNR never exceeds 30 dB, and is exactly 30 dB for a noise level with square at most 0.001 |
| `TransmissionScene.SceneSnr` | src/scenes/TransmissionScene.ts:593-598 | `10·log10(1 / max(0.001, noise²))`: 30 dB's `10·log10(1000)` once the noise power is at the floor, `10·log10(1/noise²)` above it |
| `TransmissionScene.GetStats` | src/scenes/TransmissionScene.ts:574-591 | the counters as kept; the BER lies in [0, 1], is 0 exactly when there are no errors, and times `received` equals `errors`; the SNR is the scene's `calculateSNR` |
| `TransmissionScene.AverageAmplitude` | src/scenes/TransmissionScene.ts:487-496 | 0 with no packets in flight, otherwise the mean amplitude |
| `TransmissionScene.AverageAboveFloor` | src/scenes/TransmissionScene.ts:487-496 | the mean amplitude of the packets in flight is at least the 0.01 floor |
| `ModulationSystem.UpdateConfig` | src/components/ModulationSystem.ts:578-581 | every field given in the patch is taken and every other field is kept |
| `ModulationSystem.SpectralEfficiency` | src/components/ModulationSystem.ts:493-504 | 1 bit/symbol for ASK, FSK and PSK; `log2` of the point count for QAM, with -Infinity for an empty constellation |
| `ModulationSystem.PowerEfficiency` | src/components/ModulationSystem.ts:506-522 | 0 dB for FSK and PSK; +Infinity for ASK with no power; NaN for an empty QAM constellation |
| `ModulationSystem.PowerEfficiencyOfPositivePower` | src/components/ModulationSystem.ts:506-522 | with a positive average power the efficiency is `10 log10(1 / P)` |
| `ModulationSystem.MinimumDistance` | src/components/ModulationSystem.ts:524-538 | 2 outside QAM; +Infinity for fewer than two points; otherwise a finite value that is the least distance over all pairs of points |
| `ModulationSystem.SymbolErrorRate` | src/components/ModulationSystem.ts:540-545 | finite exactly when the distance is not NaN; 0 for an infinite distance |
| `ModulationSystem.SymbolErrorRateAtMostHalf` | src/components/ModulationSystem.ts:540-545 | for an `exp` mapping non-positive reals into [0, 1], the rate lies in [0, 0.5] |
| `ModulationSystem.SymbolErrorRateAntitone` | src/components/ModulationSystem.ts:540-545 | for a monotone `exp`, points further apart never raise the rate |
| `ModulationSystem.Snap` | src/components/ModulationSystem.ts:468 | snapping to the half-grid moves a coordinate by at most a quarter |
| `ModulationSystem.SnapIdempotent` | src/components/ModulationSystem.ts:468 | a snapped coordinate snaps to itself |
| `ModulationSystem.ClickPoint` | src/components/ModulationSystem.ts:446-452 | 80 pixels per unit with the y axis flipped: `I·80 = x − width/2` and `Q·80 = height/2 − y`, so the canvas centre is the origin |
| `ModulationSystem.Nearest` | src/components/ModulationSystem.ts:455-464 | returns the first point at minimum distance from the click, with that distance; +Infinity when there are no points |
| `ModulationSystem.HandleClick` | src/components/ModulationSystem.ts:442-473 | only the constellation changes and it keeps its size; a click at least 0.5 from every point changes nothing; otherwise exactly the first nearest point is replaced by the snapped click |
| `ModulationSystem.ResetConstellation` | src/components/ModulationSystem.ts:414-425 | the constellation becomes the standard 4-QAM one that the modulator uses, and nothing else changes |
| `ModulationSystem.OptimizeConstellation` | src/components/ModulationSystem.ts:427-440 | the constellation becomes the standard 4-QAM one, and nothing else changes |
| `ModulationSystem.StandardSpectralEfficiency` | src/components/ModulationSystem.ts:493-504 | the standard constellation carries 2 bits per symbol |
| `ModulationSystem.StandardPowerEfficiency` | src/components/ModulationSystem.ts:506-522 | the standard constellation (average power 2) has power efficiency `10 log10(0.5)` |
| `ModulationSystem.StandardMinimumDistance` | src/components/ModulationSystem.ts:524-538 | given `sqrt 4 = 2` and `sqrt 8 >= 2`, the standard constellation's minimum distance is 2 |
| `TransmissionMedium.Table` | src/components/TransmissionMedium.ts:39-76 | every medium has positive reach, attenuation and bandwidth, and cost and complexity between 1 and 5 |
| `TransmissionMedium.Indicator` | src/components/TransmissionMedium.ts:409-416 | a level from 0 to 5 renders as 5 dots, the first `level` of them filled; other levels make `repeat` throw |
| `TransmissionMedium.IndicatorRoundTrip` | src/components/TransmissionMedium.ts:409-416 | counting the filled dots gives back the level |
| `TransmissionMedium.IndicatorsRender` | src/components/TransmissionMedium.ts:39-76 | every medium's cost and complexity render without a throw, showing that many filled dots |
| `TransmissionMedium.Clamp` | src/components/TransmissionMedium.ts:394-399 | the distance is capped at the medium's reach, and a distance within reach is kept |
| `TransmissionMedium.ChangeMedium` | src/components/TransmissionMedium.ts:277-283 | the new medium is taken and the distance is capped at its reach; every other field is kept |
| `TransmissionMedium.UpdateConfig` | src/components/TransmissionMedium.ts:559-562 | every field given in the patch is taken and every other field is kept, with the distance then capped at the new medium's reach |
| `TransmissionMedium.Validate` | src/components/TransmissionMedium.ts:576-614 | valid exactly when there are no errors; the only error is a distance beyond reach, raised exactly then |
| `TransmissionMedium.WarningRules` | src/components/TransmissionMedium.ts:586-607 | each of the five warnings is listed exactly when its condition holds |
| `TransmissionMedium.ErrorImpliesWarning` | src/components/TransmissionMedium.ts:576-614 | an invalid configuration also warns about the distance, and a clamped configuration is always valid |
| `TransmissionMedium.Optimize` | src/components/TransmissionMedium.ts:470-483 | typical attenuation, noise 0.05, distortion 0.02, bandwidth `floor(0.8·bw)`, the distance clamped to the medium's maximum; medium and display flags kept |
| `TransmissionMedium.OptimizedIsValid` | src/components/TransmissionMedium.ts:470-483 | an optimised configuration is valid, and only the near-limit distance warning can fire |
| `TransmissionMedium.Reset` | src/components/TransmissionMedium.ts:485-499 | the defaults: 100 m and 1 MHz, each capped by the medium, typical attenuation, noise and distortion 0.1, the display flags off |
| `TransmissionMedium.ResetIsValid` | src/components/TransmissionMedium.ts:485-499 | a reset configuration is valid, and warns only for twisted pair, whose 100 m default is its full reach |
| `TransmissionMedium.ResetForgets` | src/components/TransmissionMedium.ts:485-499 | the reset configuration depends only on the medium, and resetting twice is resetting once |
| `TransmissionMedium.TotalCost` | src/components/TransmissionMedium.ts:616-623 | at least the 150 fixed cost for a non-negative distance |
| `TransmissionMedium.CostMonotone` | src/components/TransmissionMedium.ts:616-623 | a longer link never costs less, and costs exactly the per-metre cost times the extra length more |
| `TransmissionMedium.Utilization` | src/components/TransmissionMedium.ts:441-444 | never above 100%, and non-negative for a bandwidth within the medium's |
| `TransmissionMedium.PropagationSpeed` | src/components/TransmissionMedium.ts:447-457 | 3·10⁸ m/s for wireless, 2·10⁸ m/s for optical fibre and every other medium |
| `TransmissionMedium.Delay` | src/components/TransmissionMedium.ts:446-458 | the delay in microseconds times the propagation speed is the distance |
| `TransmissionMedium.WirelessIsFastest` | src/components/TransmissionMedium.ts:446-458 | over a positive distance wireless has a strictly smaller delay than any cable |
| `SignalGenerator.ValidateBitString` | src/components/SignalGenerator.ts:215-218 | the filtered string holds only `0` and `1` and is no longer than the input |
| `SignalGenerator.ValidateIdentity` | src/components/SignalGenerator.ts:215-218 | filtering leaves a string as it is exactly when it already holds only `0`s and `1`s |
| `SignalGenerator.ValidateIdempotent` | src/components/SignalGenerator.ts:215-218 | filtering twice is filtering once |
| `SignalGenerator.ValidateConcat` | src/components/SignalGenerator.ts:215-218 | filtering distributes over concatenation |
| `SignalGenerator.ValidateKeepsDigits` | src/components/SignalGenerator.ts:215-218 | filtering keeps every `0` and `1` and drops everything else |
| `SignalGenerator.OnBitInput` | src/components/SignalGenerator.ts:149-154 | typing stores the filtered input and changes nothing else |
| `SignalGenerator.TypedInputValid` | src/components/SignalGenerator.ts:325-339 | typed input passes validation exactly when it contains at least one `0` or `1` |
| `SignalGenerator.GetBitArray` | src/components/SignalGenerator.ts:312-323 | a non-empty 0/1 array that spells the configured string when it is a bit string and `10110100` otherwise |
| `SignalGenerator.ValidateInput` | src/components/SignalGenerator.ts:325-339 | true exactly for a non-empty string of `0`s and `1`s |
| `SignalGenerator.GenerateRandomBits` | src/components/SignalGenerator.ts:282-294 | `floor(8r) + 4` bits, bit `i` is `1` exactly when its draw exceeds 0.5; for a draw in [0, 1), between 4 and 11 bits |
| `SignalGenerator.Play` | src/components/SignalGenerator.ts:258-268 | refused while the bit string is empty, otherwise sets playing and nothing else |
| `SignalGenerator.Pause` | src/components/SignalGenerator.ts:270-275 | clears the playing flag and changes nothing else |
| `SignalGenerator.Reset` | src/components/SignalGenerator.ts:277-280 | stops playing and keeps the bit string |
| `SignalGenerator.SampleCount` | src/components/SignalGenerator.ts:227-230 | `Math.floor(length · bitDuration · sampleRate)`: the largest integer not above the signal's sample total |
| `SignalGenerator.SampleCountCoversEncoders` | src/components/SignalGenerator.ts:227-239 | the info panel never shows fewer samples than the line encoders produce |

## Left out

- `addNoise` (src/utils/signalMath.ts:83-97) is not modelled: it is Gaussian noise from `Math.random` via Box–Muller. The scene's per-packet noise draw is a parameter instead.
- `Complex.magnitude` and `Complex.phase` need `sqrt` and `atan2` and say nothing beyond them.
- Rendering is not modelled: Three.js meshes, lines and materials, the canvas drawing, the DOM, alerts, event wiring and callbacks. Only the state changes and values they show are modelled.
  - This covers the packets' 3D path and colour (`updatePacketVisualization`), the scene's animation loop and its camera, and the comparison table.
- Display formatting is not modelled: `toFixed`, `toExponential`, `formatBandwidth` and the medium names and descriptions. The values formatted are modelled.
- The medium panel's text estimates of path loss, SNR, BER and total attenuation are not modelled. They are `log10`/`Math.pow` arithmetic shown as text.
- `src/scenes/EncodingScene.ts` and `src/main.ts` are not part of this model. They are drawing and wiring.
- `setPlayingState` and the generator's `updateConfig` are not modelled. They only copy fields and update buttons.
- Floating-point rounding, overflow to Infinity and `-0` are not modelled: numbers are exact reals. Special values are modelled only where the source's own arithmetic produces them from exact inputs (division by zero, `log10(0)`, the initial `Infinity`).
- SignalMath.FrequencyAxis: a count of `NaN` (no bins) and a count above 2³² − 1 (a `RangeError` from `Array.from`) are not modelled, since the count is an exact real.
- SignalMath.LowPassFilter: requires `cutoffFreq + sampleRate != 0`. JavaScript would instead divide by zero and fill the output with NaN or Infinity.
- SignalMath.Fft: requires a power-of-two length (or 0). On other lengths the source recurses into halves of unequal size, reads an `undefined` entry of the odd half and throws a `TypeError`; that error path is not modelled.
- SignalGenerator.SampleCountCoversEncoders: requires `bitDuration * sampleRate >= 0`. With a negative product the panel shows a negative count while the encoders produce no samples.
- WaveformTools.Downsample: models `maxPoints` as an integer that is non-negative when there are samples. A fractional or negative limit is not modelled.
- ModulationSystem.SymbolErrorRateAtMostHalf: the bound holds for any `exp` that maps non-positive reals into [0, 1], which is assumed rather than derived from `Math.exp`.
- TransmissionScene.SnrCapped: relies on `log10` being monotone and `log10(1000) = 3`, stated as preconditions.
- Bits are JavaScript numbers: the encoders treat every value other than 1 (or 0, where the source tests for 0) as the other symbol, and the round trips are stated for 0/1 bit strings.

## Findings

| source | as written | input that shows it | evidently intended | confidence | as-written member | corrected member |
|---|---|---|---|---|---|---|
| src/utils/waveforms.ts:245 | the stride is `Math.floor(length / maxPoints)`, so a signal just under twice the limit keeps every sample | 1999 samples with `maxPoints = 1000` give a stride of 1 and 1999 points | at most `maxPoints` points, e.g. with the stride `ceil(length / maxPoints)` | not executed | `WaveformTools.DownsampleExceedsLimit` | `WaveformTools.DownsampleWithin` |
