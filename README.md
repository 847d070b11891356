# fundsp unit machinery and filters, in Dafny

A model of two parts of the fundsp audio engine:

- **The object-safe unit interface** (`src/audiounit.rs`).
  - A boxed unit has a fixed number of inputs and outputs and processes one frame (`tick`) or a block of at most `MAX_BUFFER_SIZE = 64` frames (`process`).
  - It has a default `ping` rule and the analyses derived from `route` and `tick`: `response`, `latency`, `get_mono`, `get_stereo`, `filter_mono` and `filter_stereo`.
  - There are two adapters around a unit:
    - The **big block adapter** accepts `process` calls of any size by cutting them into chunks of at most 64 frames, passed through scratch vectors.
    - The **block rate adapter** pulls full 64-frame blocks from a generator and hands them out through a cursor `index`, at whatever rate the caller asks.
- **The filter nodes** (`src/filter.rs`), with samples as reals:
  - the normalized Direct Form I biquad and its coefficient designs (Butterworth lowpass, constant-gain resonator, arbitrary);
  - the one-pole lowpass (`Lowpole`) and the one-pole, one-zero highpass (`Highpole`);
  - the DC blocker, the pinking filter and the first-order allpass (`Allpole`).

The wrapped unit is abstract.
- It is a `class Unit` whose state is the input history since the last reset.
- Its outputs are given by a function `respond(history, channel)`, fixed when the unit is built. So every unit is causal and deterministic. Beyond that the abstraction assumes that the outputs do not depend on the sample rate, that a rate change never resets the unit, and that `process` is exactly a run of ticks (see "Left out").
- `route` is a function `router(frame, frequency, channel)`.
- The two operations of the hash accumulator (`hash`, `state`) are parameters.

The transcendental functions of the coefficient designs (`tan`, `exp`, `cos`, `sqrt`) are parameters too (`Filter.Math`). Every property proved holds for any choice of them.

What is proved, in brief:
- **Big block adapter.** A `process` of any size gives the source's own output for the same frames and consumes exactly those frames. The chunks are `ChunkPlan(size)`: they cover the request in order, each is between 1 and 64 frames, every chunk but the last is full, and there are `ceil(size / 64)` of them.
- **Block rate adapter.** Its output depends only on how many frames it has handed out before, not on how the calls were sized. `0 <= index <= 64` is kept, and the generator is pulled only when the block is used up.
- **Latency fold.** It returns the least latency among the outputs, or nothing exactly when no output carries a latency.
- **Direct Form I.** The Direct Form I biquad agrees with the transposed Direct Form II noted in the source, and it is linear (superposition).
- **Stability of the designs.**
  - The Butterworth design is stable and has unit DC gain, with both zeros at Nyquist.
  - The resonator is stable whenever its pole radius is below one.
- **Allpass.**
  - Its coefficient lies in `(-1, 1)` for every positive delay.
  - It is lossless: it obeys an exact energy balance, and from rest it never outputs more energy than it receives.
- **One-pole filters and the DC blocker.**
  - Under a constant input, `k` steps scale the lowpass's distance to the input, and the DC blocker's and the highpass's output, by `c^k`, for any coefficient `c`.
  - For a coefficient in `[0, 1)` this is a decay to zero: the distance after `k` steps is at most the initial one divided by `1 + k (1 - c)` (Bernoulli's inequality).
  - The designs give such coefficients. The one-pole coefficient `exp(-2 pi cutoff / rate)` lies in `(0, 1)` for a positive cutoff, and so does the resonator's pole radius for a positive bandwidth, given only that `exp` maps negative numbers into `(0, 1)`. The DC blocker's pole `1 - 2 pi cutoff / rate` lies in `(0, 1)` when `0 < cutoff < rate / 2 pi`. The source does not enforce that range.
- **Pinking filter.** It has a steady state whose DC gain is computed exactly.

Files:
- `signal.dfy`, module `Signals`: shared values. These are signals as seen by `route`, the hash accumulator, `Option` and `Outcome` (`Panic` stands for a Rust panic), and the default sample rate of 44100 Hz.
- `audiounit.dfy`, module `AudioUnit`: the unit class, the frame helpers and the analyses.
- `blockadapter.dfy`, module `BlockAdapter`: the two adapters. A caller's output buffer is an `array2<real>` indexed by (channel, sample). Scratch vectors are `seq<seq<real>>` fields.
- `filter.dfy`, module `Filter`: the coefficient designs and their lemmas, and one class per filter node.

## Model

| member | source | states |
|---|---|---|
| AudioUnit.Unit.Reset | src/audiounit.rs:23-25 | the unit returns to the state where it has processed nothing |
| AudioUnit.Unit.SetSampleRate | src/audiounit.rs:27-31 | the new sample rate is stored |
| AudioUnit.Unit.Tick | src/audiounit.rs:33-35 | one frame is appended to the history and the output is the unit's response to the extended history |
| AudioUnit.Unit.OutputFrame | src/audiounit.rs:33-35 | the frame a tick writes: one value per output, each the unit's response to the history |
| AudioUnit.Unit.Process | src/audiounit.rs:37-41 | a block of at most 64 frames gives, at each position `j`, exactly what `j + 1` ticks on the same frames give, and leaves the same history |
| AudioUnit.Unit.Render | src/audiounit.rs:37-41 | the block `process` writes: one vector per output, as long as the block, holding at position `j` the response to the history extended by the first `j + 1` frames |
| AudioUnit.Unit.Route | src/audiounit.rs:55 | one routed signal per output, each given by the unit's router |
| AudioUnit.Unit.SetHash | src/audiounit.rs:60-64 | the default `set_hash` ignores the seed; a unit that uses it stores it |
| AudioUnit.Unit.Ping | src/audiounit.rs:73-78 | the result is the incoming hash combined with the unit's id, whether or not probing; a seed derived from the incoming hash is installed only when not probing |
| AudioUnit.Unit.Response | src/audiounit.rs:99-110 | `Some` exactly when the routed output, with every input seeded by the unit response, is a response; then its value is that response's gain; `output < outputs()` is required as the source asserts |
| AudioUnit.Unit.Latency | src/audiounit.rs:138-159 | `None` for a unit without outputs; otherwise the fold of the routed latency frame (zero latency on every input), computed by the loop |
| AudioUnit.MinLatencyIsMinimum | src/audiounit.rs:149-158 | the fold is `None` exactly when no output carries a latency; otherwise its value is carried by some output and is at most every output latency |
| AudioUnit.MinStep | src/audiounit.rs:152-156 | one step of the latency fold: a latency replaces nothing or is combined by `min`; any other signal leaves the accumulator |
| AudioUnit.MinLatency | src/audiounit.rs:151-157 | the fold of `MinStep` over the output frame from `None`; its properties are `MinLatencyIsMinimum` |
| AudioUnit.Unit.GetMono | src/audiounit.rs:172-187 | for 1 or 2 outputs, one tick on the empty frame and the single output or the average of two; any other count panics without ticking |
| AudioUnit.Unit.GetStereo | src/audiounit.rs:200-215 | for 1 or 2 outputs, one tick and the output duplicated or the pair; any other count panics without ticking |
| AudioUnit.MonoIsStereoAverage | src/audiounit.rs:172-215 | the mono pull is the average of the stereo pull, for one output as well as for two |
| AudioUnit.Unit.FilterMono | src/audiounit.rs:226-231 | one tick on `[x]`, returning output 0 |
| AudioUnit.Unit.FilterStereo | src/audiounit.rs:242-247 | one tick on `[x, y]`, returning outputs 0 and 1 |
| AudioUnit.PassThroughAnalysis | src/audiounit.rs:93-159 | a unit that routes each input to the output of the same index has response exactly `1 + 0i` and latency `Some(0)` |
| BlockAdapter.BigBlockAdapter.constructor | src/audiounit.rs:458-468 | one empty scratch vector per source input and per source output |
| BlockAdapter.BigBlockAdapter.Inputs | src/audiounit.rs:518-520 | the adapter has its source's inputs |
| BlockAdapter.BigBlockAdapter.Outputs | src/audiounit.rs:521-523 | the adapter has its source's outputs |
| BlockAdapter.Resized | src/audiounit.rs:488-493 | a vector resized to `n`: its first elements kept, zeros after, length exactly `n` |
| BlockAdapter.BigBlockAdapter.ResizeScratch | src/audiounit.rs:488-493 | every scratch vector becomes its resized self, of length 64; the number of vectors is kept |
| BlockAdapter.BigBlockAdapter.LoadChunk | src/audiounit.rs:497-501 | samples `i .. i+n` of every input channel land at the front of its scratch vector; positions `n ..` keep their old values |
| BlockAdapter.BigBlockAdapter.StoreBlock | src/audiounit.rs:502-506 | the source's block lands at the front of the output scratch vectors, which stay 64 long; positions `n ..` keep their old values |
| BlockAdapter.CopyBlock | src/audiounit.rs:507-511 | the `n` samples of every channel are copied to positions `dstStart ..` of the caller's buffer and nothing else changes |
| BlockAdapter.ChunkFrames | src/audiounit.rs:497-511 | the frames a chunk's source sees up to sample `j` are the caller's frames up to sample `i + j` |
| BlockAdapter.RenderChunk | src/audiounit.rs:497-511 | what the source renders from the scratch vectors is, at each position, its output for the caller's frames so far |
| BlockAdapter.BigBlockAdapter.RenderChunkToScratch | src/audiounit.rs:497-506 | after one chunk the source has consumed the caller's frames up to `i + n`, and the output scratch holds its outputs for them |
| BlockAdapter.BigBlockAdapter.ProcessChunk | src/audiounit.rs:495-512 | positions `i .. i+n` of the caller's output get the source's outputs for the caller's frames up to each position; every other position is untouched |
| BlockAdapter.ChunkPlanCovers | src/audiounit.rs:494-513 | the chunk lengths sum to `size`, each is in `[1, 64]`, all but the last are 64, and there are `ceil(size / 64)` |
| BlockAdapter.BigBlockAdapter.ProcessChunked | src/audiounit.rs:487-513 | an oversized request is served chunk by chunk along `ChunkPlan(size)`, with the same outputs and history as the source alone would give, and the scratch vectors left at length 64 |
| BlockAdapter.BigBlockAdapter.ProcessDirect | src/audiounit.rs:514-516 | a request of at most 64 frames goes straight to the source |
| BlockAdapter.BigBlockAdapter.Process | src/audiounit.rs:486-517 | for any `size`, the outputs are the source's outputs for the caller's frames, the source consumes exactly those frames, and the caller's buffer beyond `size` is untouched; the scratch vectors change only for an oversized request |
| BlockAdapter.BigBlockAdapter.Allocate | src/audiounit.rs:536-544 | every scratch vector becomes its resized self, of length 64 |
| BlockAdapter.BlockRateAdapter.constructor | src/audiounit.rs:570-579 | a generator without inputs is required; the adapter starts with the block used up (`index == 64`) and has delivered nothing |
| BlockAdapter.BlockRateAdapter.Inputs | src/audiounit.rs:623-625 | the adapter has no inputs |
| BlockAdapter.BlockRateAdapter.Outputs | src/audiounit.rs:626-628 | the adapter has the generator's outputs |
| BlockAdapter.RenderSilence | src/audiounit.rs:596-599 | a block pulled after `d` frames holds the generator's stream from position `d` on |
| BlockAdapter.BlockRateAdapter.Refill | src/audiounit.rs:596-599 | only a used-up block is refilled: the generator advances by 64 frames and the cursor goes to 0, keeping the adapter's invariant |
| BlockAdapter.BlockRateAdapter.Take | src/audiounit.rs:601-604 | the frame at the cursor is the next frame of the generator's stream, and the cursor advances by one |
| BlockAdapter.BlockRateAdapter.Tick | src/audiounit.rs:595-605 | the output is the next frame of the generator's stream; the generator is pulled only when the block was used up |
| BlockAdapter.BlockRateAdapter.Serve | src/audiounit.rs:614-620 | `n` unread samples go to positions `i .. i+n` of the caller's output and are the next `n` samples of the stream |
| BlockAdapter.BlockRateAdapter.Advance | src/audiounit.rs:619-620 | the cursor advances by `n`, and the delivered frames grow by `n` while the invariant is kept |
| BlockAdapter.BlockRateAdapter.Process | src/audiounit.rs:606-622 | the caller receives the next `size` samples of the generator's stream, whatever the earlier calls' sizes; positions beyond `size` are untouched |
| BlockAdapter.BlockRateAdapter.Reset | src/audiounit.rs:588-591 | the generator is reset and the block is marked used up |
| BlockAdapter.BlockRateAdapter.SetSampleRate | src/audiounit.rs:592-594 | the rate is forwarded to the generator, and the adapter's invariant is kept |
| BlockAdapter.BlockRateAdapter.Allocate | src/audiounit.rs:641-644 | the block buffer has one 64-sample vector per channel; a block in use is kept |
| Filter.ArbitraryCoefs | src/filter.rs:51-53 | the five given coefficients, unchanged |
| Filter.ArbitraryCoefsRoundTrip | src/filter.rs:51-53 | every coefficient set is the arbitrary design of its own fields |
| Filter.ButterDenominatorPositive | src/filter.rs:26-28 | the Butterworth denominators `1 ± sqrt2 f + f^2` are positive for every `f`, so `a0r` is defined |
| Filter.ButterCoefsOf | src/filter.rs:24-32 | for a positive prewarped frequency the gain `b0` is positive |
| Filter.ButterZeros | src/filter.rs:29-31 | `b1 = 2 b0` and `b2 = b0`: both zeros at Nyquist |
| Filter.ButterUnitDCGain | src/filter.rs:26-31 | numerator and denominator agree at `z = 1`: gain one at DC |
| Filter.ButterPoleProduct | src/filter.rs:26-28 | the pole product `a2` is below one for positive `f` |
| Filter.ButterNyquistMargin | src/filter.rs:26-28 | `1 + a2 - a1 > 0` for positive `f` |
| Filter.ButterStable | src/filter.rs:24-33 | both poles strictly inside the unit circle for every positive prewarped frequency |
| Filter.ButterLowpassStable | src/filter.rs:23-33 | the installed Butterworth biquad is stable whenever `tan(pi cutoff / sampleRate) > 0` |
| Filter.ButterLowpassCoefs | src/filter.rs:23-33 | the Butterworth design at the prewarped frequency `tan(pi cutoff / rate)`; its properties are the `Butter*` lemmas |
| Filter.ResonatorCoefs | src/filter.rs:39-47 | `b1 = 0`, `b2 = -b0`, `a2 = r^2`: zeros at DC and Nyquist |
| Filter.PoleRadius | src/filter.rs:41 | the resonator's pole radius `exp(-pi bandwidth / rate)` |
| Filter.PoleRadiusRange | src/filter.rs:41 | for a positive bandwidth and rate the pole radius lies strictly inside `(0, 1)`, whenever `exp` maps negative numbers into `(0, 1)` |
| Filter.PolesInside | src/filter.rs:42-43 | `1 - 2 r k z^-1 + r^2 z^-2` is stable for `0 <= r < 1`, `|k| <= 1` |
| Filter.ResonatorStable | src/filter.rs:39-47 | the resonator is stable whenever its pole radius is in `[0, 1)` and the cosine in `[-1, 1]` |
| Filter.TransposedOfRest | src/filter.rs:142-145 | a filter at rest has a transposed state at rest |
| Filter.BiquadOutput | src/filter.rs:134-136 | the Direct Form I output over the history; its properties are `BiquadOutputLinear` and `BiquadTransposedAgrees` |
| Filter.BiquadShift | src/filter.rs:137-140 | the history shift after one sample |
| Filter.TransposedStepOutput | src/filter.rs:134-145 | from corresponding states both forms give the same output |
| Filter.TransposedStepNext | src/filter.rs:134-145 | from corresponding states one step leads to corresponding states |
| Filter.BiquadTransposedAgrees | src/filter.rs:134-145 | Direct Form I and transposed Direct Form II give the same outputs for every input sequence |
| Filter.BiquadOutputLinear | src/filter.rs:134-136 | the difference equation is linear in history and input together |
| Filter.BiquadSuperposition | src/filter.rs:128-140 | mixing starting histories and inputs mixes the output sequences the same way |
| Filter.BiquadSilence | src/filter.rs:128-140 | at rest with silent input the biquad stays silent |
| Filter.Biquad.constructor | src/filter.rs:83-88 | all coefficients and history zero, default sample rate |
| Filter.Biquad.WithCoefs | src/filter.rs:90-96 | the given coefficients, history zero, default sample rate |
| Filter.Biquad.SetCoefs | src/filter.rs:100-102 | the coefficients are replaced; nothing else changes |
| Filter.Biquad.Set | src/filter.rs:112-114 | the setting is installed unchanged as the coefficients |
| Filter.Biquad.Reset | src/filter.rs:116-121 | the history is cleared; coefficients and rate are kept |
| Filter.Biquad.SetSampleRate | src/filter.rs:123-125 | only the rate changes |
| Filter.Biquad.Tick | src/filter.rs:128-140 | the output is the difference equation over the old history, which then shifts; coefficients are kept |
| Filter.ButterLowpass.constructor | src/filter.rs:173-183 | a rested biquad carrying the Butterworth design for the cutoff at the default rate |
| Filter.ButterLowpass.SetCutoff | src/filter.rs:184-188 | the cutoff is stored and the biquad carries its design |
| Filter.ButterLowpass.Set | src/filter.rs:198-200 | the setting becomes the cutoff and the design follows |
| Filter.ButterLowpass.Reset | src/filter.rs:202-204 | only the biquad's history is cleared |
| Filter.ButterLowpass.SetSampleRate | src/filter.rs:206-210 | the rate reaches node and biquad; the cutoff is kept and the design rederived from it |
| Filter.ButterLowpass.Tick | src/filter.rs:213-224 | with a cutoff input the stored cutoff becomes that input; when the input equals the stored cutoff, or there is none, the coefficients are kept; then one biquad step |
| Filter.Resonator.constructor | src/filter.rs:257-268 | a rested biquad carrying the resonator design for center and bandwidth |
| Filter.Resonator.SetCenterBandwidth | src/filter.rs:269-274 | center and bandwidth stored, the biquad carries their design |
| Filter.Resonator.Set | src/filter.rs:284-286 | the setting becomes center and bandwidth |
| Filter.Resonator.Reset | src/filter.rs:288-290 | only the biquad's history is cleared |
| Filter.Resonator.SetSampleRate | src/filter.rs:292-295 | the rate is stored; center and bandwidth are kept and the design rederived; the inner biquad's own rate is left alone |
| Filter.Resonator.Tick | src/filter.rs:298-313 | with modulation inputs the stored pair becomes them; when both equal the stored pair, or there are none, the coefficients are kept; then one biquad step |
| Filter.LowpoleStep | src/filter.rs:396 | the distance to the input shrinks by the factor `c`; an input equal to the state leaves it |
| Filter.LowpoleConverges | src/filter.rs:396 | after `k` steps of a constant input the distance to it is `c^k` times the initial distance, for any `c` |
| Filter.PoleCoeff | src/filter.rs:360 | the one-pole coefficient `exp(-2 pi cutoff / rate)`, shared by the lowpass and the highpass (src/filter.rs:696) |
| Filter.PoleCoeffRange | src/filter.rs:360 | for a positive cutoff and rate the coefficient lies strictly inside `(0, 1)`, whenever `exp` maps negative numbers into `(0, 1)` |
| Filter.LowpoleDecays | src/filter.rs:396 | with `0 <= c < 1`, after `k` steps of a constant input the distance to it is at most the initial distance divided by `1 + k (1 - c)`: the lowpass converges to the input |
| Filter.Lowpole.constructor | src/filter.rs:344-354 | state zero, coefficient `exp(-2 pi cutoff / rate)` at the default rate |
| Filter.Lowpole.SetCutoff | src/filter.rs:358-361 | cutoff and coefficient stored together |
| Filter.Lowpole.Set | src/filter.rs:371-373 | the setting becomes the cutoff |
| Filter.Lowpole.Reset | src/filter.rs:375-377 | only the state is cleared |
| Filter.Lowpole.SetSampleRate | src/filter.rs:379-382 | rate stored, cutoff kept, coefficient rederived |
| Filter.Lowpole.Tick | src/filter.rs:385-398 | the modulation rule as for the Butterworth filter, then one lowpass step whose new state is the output |
| Filter.DCBlockCutoffRoundTrip | src/filter.rs:439-442 | the cutoff is recovered from the pole `1 - 2 pi cutoff / rate` |
| Filter.DCBlockCoeff | src/filter.rs:441 | the DC blocker's pole `1 - 2 pi cutoff / rate` |
| Filter.DCBlockCoeffRange | src/filter.rs:441 | for `0 < cutoff < rate / 2 pi` the pole lies strictly inside `(0, 1)` |
| Filter.DCBlockStep | src/filter.rs:472 | a differentiator followed by a leaky integrator with pole `coeff` |
| Filter.DCBlockRejectsConstant | src/filter.rs:467-476 | under a constant input the output after `k` steps is `coeff^k` times the last output, for any `coeff` |
| Filter.DCBlockDecays | src/filter.rs:467-476 | with `0 <= coeff < 1`, after `k` steps of a constant input the output is at most `|y1| / (1 + k (1 - coeff))`: the constant is blocked |
| Filter.DCBlock.constructor | src/filter.rs:428-436 | history zero, coefficient for the cutoff at the default rate |
| Filter.DCBlock.SetCutoff | src/filter.rs:439-442 | cutoff and pole stored together |
| Filter.DCBlock.Set | src/filter.rs:452-454 | the setting becomes the cutoff |
| Filter.DCBlock.Reset | src/filter.rs:456-459 | only the history is cleared |
| Filter.DCBlock.SetSampleRate | src/filter.rs:461-464 | rate stored, cutoff kept, pole rederived |
| Filter.DCBlock.Tick | src/filter.rs:467-476 | one step of the recurrence, then the history shift |
| Filter.PinkSteadyState | src/filter.rs:543-560 | a constant input has a fixed state of the seven poles, where the output is `PINK_DC_GAIN` times the input |
| Filter.PinkNext | src/filter.rs:544-549 | the six pole updates of one pinking step |
| Filter.PinkOutput | src/filter.rs:550-558 | the pinking output: the updated poles, the previous delay term and the weighted input, scaled |
| Filter.Pinkpass.constructor | src/filter.rs:509-514 | state zero, default rate |
| Filter.Pinkpass.Reset | src/filter.rs:524-532 | all seven state variables cleared; the rate is kept |
| Filter.Pinkpass.SetSampleRate | src/filter.rs:534-536 | only the rate changes |
| Filter.Pinkpass.Tick | src/filter.rs:539-561 | six poles updated, the output mixes them with the previous delay term, then the delay term is replaced |
| Filter.EtaRange | src/filter.rs:599-615 | a positive delay gives a coefficient strictly inside `(-1, 1)` |
| Filter.EtaInvolution | src/filter.rs:613-615 | the delay is recovered from the coefficient by the same formula |
| Filter.EtaOf | src/filter.rs:614 | the allpass coefficient `(1 - d) / (1 + d)` for delay `d`; its properties are `EtaRange` and `EtaInvolution` |
| Filter.AllpoleLossless | src/filter.rs:647 | one step changes the state energy by `1 - eta^2` times the energy taken from the signal |
| Filter.AllpoleStep | src/filter.rs:647 | one allpass step `eta (x0 - y1) + x1`; its properties are the energy lemmas |
| Filter.AllpoleEnergyBalance | src/filter.rs:639-651 | the same balance over a whole run |
| Filter.AllpoleNoGain | src/filter.rs:639-651 | from rest, with `|eta| < 1`, the output energy never exceeds the input energy |
| Filter.Allpole.constructor | src/filter.rs:598-609 | a positive delay is required; history zero and coefficient inside `(-1, 1)` |
| Filter.Allpole.SetDelay | src/filter.rs:613-615 | the coefficient becomes `(1 - d) / (1 + d)` |
| Filter.Allpole.Set | src/filter.rs:625-627 | the setting becomes the delay |
| Filter.Allpole.Reset | src/filter.rs:629-632 | only the history is cleared |
| Filter.Allpole.SetSampleRate | src/filter.rs:634-636 | only the rate changes |
| Filter.Allpole.Tick | src/filter.rs:639-651 | with a delay input the coefficient follows it on every sample; then one allpass step and the history shift |
| Filter.HighpoleStep | src/filter.rs:733 | a differentiator scaled by the pole |
| Filter.HighpoleRejectsConstant | src/filter.rs:722-737 | under a constant input the output after `k` steps is `coeff^k` times the last output, for any `coeff` |
| Filter.HighpoleDecays | src/filter.rs:722-737 | with `0 <= coeff < 1`, after `k` steps of a constant input the output is at most `|y1| / (1 + k (1 - coeff))`: the constant is blocked |
| Filter.Highpole.constructor | src/filter.rs:682-693 | history zero, coefficient for the cutoff at the default rate |
| Filter.Highpole.SetCutoff | src/filter.rs:694-697 | cutoff and coefficient stored together |
| Filter.Highpole.Set | src/filter.rs:707-709 | the setting becomes the cutoff |
| Filter.Highpole.Reset | src/filter.rs:711-714 | only the history is cleared |
| Filter.Highpole.SetSampleRate | src/filter.rs:716-719 | rate stored, cutoff kept, coefficient rederived |
| Filter.Highpole.Tick | src/filter.rs:722-737 | the modulation rule, then one highpass step and the history shift |

## Left out

- `display` and `response_db` (src/audiounit.rs:112-125, 249-354): string formatting and decibel values, which are floating-point presentation.
- Floating point: samples and coefficients are reals, with no rounding. For example, `b0 = f * f * a0r` is computed as `f * (f * a0r)`, which is the same in reals. Non-finite values do not arise.
- The sample rate is required to be nonzero wherever a filter divides by it, and an allpass delay of `-1` is excluded. In the source these give infinities or NaNs rather than a panic.
- `tan`, `exp`, `cos` and `sqrt` are the parameters of `Filter.Math`. Properties that need their values (the resonator's stability, the Butterworth cutoff range) take the needed facts as preconditions.
- `BiquadCoefs::response` and every filter's `route` closure: complex evaluation of transfer functions.
- `Signal::filter`, `new_signal_frame`, `Buffer`, `rsor::Slice` and the `AttoHash` mixing functions are defined in files that are not part of this model. Only the interfaces used here are modelled.
- The concrete unit inside an adapter: its outputs are an arbitrary causal function of its input history. Its internal state and `footprint` are not modelled.
- The methods of the adapters and of `An<X>` (src/audiounit.rs:369-417, 477-485, 524-535, 629-640) that forward unchanged to the wrapped unit: the big block adapter's `reset`, `set_sample_rate` and `tick`, and both adapters' `get_id`, `ping`, `route` and `footprint`.
- The f32/f64 duplication (`duplicate_item`), `DynClone`, `Send` and `Sync`: language plumbing. One sample type is modelled.
- `AudioUnit.Unit.Allocate` has no observable effect on an abstract unit, so it states nothing.
- BlockAdapter.BlockRateAdapter.Allocate: `Buffer::resize` is not part of this model. The model makes a zero block of the right shape when the buffer does not have one, and keeps a block in use.
- BlockAdapter.BlockRateAdapter.Refill: the source passes the caller's (empty) input list to the generator, and the model passes the empty list. They are the same, because the generator has no inputs.
- AudioUnit.Unit.SetSampleRate: the abstract unit only stores the rate. src/audiounit.rs:29 also allows a unit to reset itself on a rate change, and the model does not. Its outputs (`respond`) do not depend on the rate either. So the block rate adapter's stream continues across a rate change in the model, which for a unit that does reset the source does not promise.
- AudioUnit.Unit.Process: it is defined as the run of ticks on the same frames (src/audiounit.rs:37-41 states this consistency as a requirement on every unit). A unit whose `process` differs from its ticks is not modelled.
- Panics that the source raises with `assert!`, `assert_eq!` or `debug_assert!` are preconditions in the model, not `Panic` outcomes. They are `output < outputs()` in `response` (src/audiounit.rs:100), a generator without inputs in `BlockRateAdapter::new` (src/audiounit.rs:571), a positive delay in `Allpole::new` (src/filter.rs:599), and the channel-count checks of `get_mono`, `get_stereo`, `filter_mono` and `filter_stereo`.
- The unit's `route` is modelled as a pure function of frame and frequency, although the source lets it take `&mut self`.
- examples/keys.rs: the GUI, audio device and keyboard front end, which only uses the engine.
