# Ambient synth DSP core in Dafny

This project models the DSP core of the WebAssembly audio engine behind
react-ambient-synth and proves properties of the model. The engine is written in
Rust and lives in `src/audio/wasm/src`. The model covers:

- the static memory arena and its engine-state record (`memory.rs`);
- the SIMD buffer kernels, with their scalar fallbacks as the reference (`simd_utils.rs`);
- the partitioned FFT convolution reverb (`convolution.rs`);
- the granular synthesiser (`granular.rs`);
- the spectral freeze / pitch-shift engine (`spectral.rs`);
- the delay-line family: delay, comb, all-pass, ping-pong and modulated delay (`delay.rs`);
- the biquad and one-pole filters (`filters.rs`);
- `lerp` and `hard_clip` from `utils.rs`.

Each source file becomes one module: `Memory`, `SimdUtils`, `Convolution`, `Granular`,
`Spectral`, `Delay`, `Filters` and `Utils`. Two helper modules support them:

- `Ints` holds `u32` wrap-around, wrapping subtraction and a Euclidean division lemma.
- `Foreign` holds complex numbers, transforms treated as uninterpreted length-preserving
  functions, and a libm bundle with sqrt, atan2, cos, sin, round and exp2 as one
  uninterpreted function.

How the model represents the source:

- **Samples.** Samples are `real`.
- **Memory regions.** The arena's I/O regions are Dafny arrays owned by the `Memory.Arena`
  object. An engine's `process` takes an attached arena and reads the block size and sample
  rate stored in it. That is the corrected arena of "## Findings". In the program as
  written, `memory::buffer_size()` and `memory::sample_rate()` always return 128 and 44100,
  but the I/O slices take the size `init_engine` stored. The model with an arena
  initialised by `Memory.Arena.Init(44100.0, 128)` therefore matches the program as written
  only where that stored size is 128, and for convolution and spectral also where it is
  larger (see "## Left out").
- **Engines as classes.** The engines whose state Rust keeps in `static mut` values or in
  structs updated in place are classes: `ConvolutionState`, `SpectralState`,
  `GranularEngine`, the five delay structs, `Biquad`, `OnePole` and `StereoBiquad`.
- **Specification by functions.** Every state-changing method is proved against a
  function on values:
  - `Convolution.Feed`, `Drained` and `WetMix`;
  - `Spectral.Block`, `Hop` and `Frame`;
  - `Granular.Block` and `SampleStep`;
  - `Delay.Written` and `RingHolds` (ring buffer against history);
  - `Filters.Run`.

  The lemmas beside those functions state what the source promises.
- **Loops.** Each loop in the source is a `while` loop with invariants. The four-lane SIMD
  loops are modelled chunk by chunk, followed by the scalar remainder loop. Each is proved
  equal to the scalar fallback's reference function.

## Model

| member | source | states |
|---|---|---|
| Utils.Lerp | src/audio/wasm/src/utils.rs:16-18 | t = 0 gives a, t = 1 gives b, equal end points give that point |
| Utils.LerpBetween | src/audio/wasm/src/utils.rs:16-18 | for t in [0, 1] the result lies between the two end points |
| Utils.HardClip | src/audio/wasm/src/utils.rs:62-64 | the result lies in [-limit, limit]; values inside are kept; a negative limit yields the limit itself (max, then min, in the written order) |
| Utils.HardClipIdempotent | src/audio/wasm/src/utils.rs:62-64 | clipping twice equals clipping once |
| Utils.HardClipIsClamp | src/audio/wasm/src/utils.rs:62-64 | for a non-negative limit hard_clip is the clamp to [-limit, limit] |
| Utils.DryWet | src/audio/wasm/src/delay.rs:114 | mix 0 is the dry signal, mix 1 the wet one |
| Utils.DryWetBetween | src/audio/wasm/src/convolution.rs:249-250 | `dry*(1-m) + wet*m` is lerp(dry, wet, m) and for m in [0, 1] lies between the two |
| Ints.Wrap | src/audio/wasm/src/granular.rs:115 | the u32 wrap keeps values below 2^32 and differs from its argument by a multiple of 2^32 |
| Ints.WrappingSub | src/audio/wasm/src/granular.rs:261 | `usize` subtraction on wasm32: exact when no borrow, else 2^32 + a - b |
| Memory.IoRegionsDisjointIff | src/audio/wasm/src/memory.rs:34-46 | the four I/O slices of buffer_size floats at their fixed offsets are pairwise disjoint exactly when buffer_size <= 128 |
| Memory.StaticRegionsOrdered | src/audio/wasm/src/memory.rs:29-64 | the two work buffers, the largest granular source and the largest IR are ascending and pairwise disjoint; the state record ends before the first input block; the IR region ends at or before the FFT region |
| Memory.CorrectedLayoutDisjoint | src/audio/wasm/src/memory.rs:8-20 | a layout with the I/O blocks BUFFER_BYTES apart is disjoint for every accepted buffer size and ends before the FFT region |
| Memory.InputBufferOffset | src/audio/wasm/src/memory.rs:193-199 | non-null exactly for channels 0 and 1, word-aligned, inside the input block |
| Memory.OutputBufferOffset | src/audio/wasm/src/memory.rs:215-221 | non-null exactly for channels 0 and 1, word-aligned, inside the output block |
| Memory.ChannelOffsetsDistinct | src/audio/wasm/src/memory.rs:193-221 | no input offset equals an output offset; different channels give different offsets |
| Memory.InitOutcome | src/audio/wasm/src/memory.rs:129-135 | Ok exactly when the sample rate is in [8000, 192000] and the buffer size in [32, 512]; a bad sample rate is reported first |
| Memory.WithFlag | src/audio/wasm/src/memory.rs:288-294 | ORing a flag sets that bit and keeps every other flag bit |
| Memory.InitEngine | src/audio/wasm/src/memory.rs:125-163 | as written: returns 0 always; rejected arguments change nothing; accepted ones store the rate, size and INITIALIZED flag at STATE_OFFSET and leave ENGINE at that (null) address |
| Memory.InitReturnCodeAmbiguous | src/audio/wasm/src/memory.rs:125-163 | an accepted and a rejected call return the same code |
| Memory.InitLeavesEngineNull | src/audio/wasm/src/memory.rs:355-381 | after a successful init the getters still report the defaults 44100 and 128 and not-initialised |
| Memory.InitAcceptsOverlappingSlices | src/audio/wasm/src/memory.rs:133-135 | init accepts buffer size 256 although its I/O slices overlap |
| Memory.ZeroBuffer | src/audio/wasm/src/memory.rs:170-172 | every element of the buffer is zero |
| Memory.Arena.constructor | src/audio/wasm/src/memory.rs:94 | no engine attached, all flags and lengths zero, fresh region arrays |
| Memory.Arena.Init | src/audio/wasm/src/memory.rs:125-163 | corrected init: returns InitOutcome; on failure nothing changes; on success the engine is attached with rate, size and the INITIALIZED flag and all six buffers are zeroed |
| Memory.Arena.SampleRate | src/audio/wasm/src/memory.rs:355-360 | the default 44100 when detached, otherwise the stored rate in [8000, 192000] |
| Memory.Arena.BufferSize | src/audio/wasm/src/memory.rs:367-372 | the default 128 when detached, otherwise the stored size in [32, 512] |
| Memory.Arena.SliceLen | src/audio/wasm/src/memory.rs:231-248 | the slice length is buffer_size and fits every I/O array |
| Memory.Arena.SetGranularSourceLen | src/audio/wasm/src/memory.rs:288-294 | when attached, stores the length and sets GRANULAR_READY keeping other flags; otherwise nothing changes |
| Memory.Arena.SetIrLen | src/audio/wasm/src/memory.rs:327-333 | when attached, stores the length and sets IR_READY keeping other flags; otherwise nothing changes |
| Memory.Arena.Cleanup | src/audio/wasm/src/memory.rs:409-420 | clears flags and both lengths and detaches; afterwards every is_* query is false |
| Filters.Run | src/audio/wasm/src/filters.rs:256-268 | running a biquad over a signal yields one output per input |
| Filters.PassThroughOutput | src/audio/wasm/src/filters.rs:71-83 | the default coefficients pass a sample unchanged whatever the taps hold |
| Filters.PassThroughRun | src/audio/wasm/src/filters.rs:71-83 | a default biquad passes any signal unchanged |
| Filters.RunSplit | src/audio/wasm/src/filters.rs:256-268 | filtering a concatenation equals filtering the first part and continuing from its final taps |
| Filters.RunTaps | src/audio/wasm/src/filters.rs:262-265 | after two or more samples the taps hold the last two inputs and the last two outputs |
| Filters.Normalized | src/audio/wasm/src/filters.rs:242-250 | the stored coefficients times a0 are the given ones |
| Filters.Biquad.constructor | src/audio/wasm/src/filters.rs:71-83 | pass-through coefficients and cleared taps |
| Filters.Biquad.SetCoefficients | src/audio/wasm/src/filters.rs:242-250 | stores the coefficients divided by a0 and keeps the taps |
| Filters.Biquad.Process | src/audio/wasm/src/filters.rs:256-268 | returns the Direct Form I difference equation and shifts the taps by the new input and output |
| Filters.Biquad.Reset | src/audio/wasm/src/filters.rs:271-276 | clears the taps and keeps the coefficients |
| Filters.OnePolePassThrough | src/audio/wasm/src/filters.rs:301-307 | with the default a0 = 1, b1 = 0 the filter passes its input |
| Filters.OnePole.constructor | src/audio/wasm/src/filters.rs:301-307 | a0 = 1, b1 = 0, y1 = 0 |
| Filters.OnePole.Process | src/audio/wasm/src/filters.rs:330-333 | returns a0 x + b1 y1, remembers it, keeps the coefficients |
| Filters.OnePole.Reset | src/audio/wasm/src/filters.rs:336-338 | zeroes the memory and keeps the coefficients |
| Filters.StereoBiquad.constructor | src/audio/wasm/src/filters.rs:360-365 | two separate pass-through biquads with cleared taps |
| Filters.StereoBiquad.Process | src/audio/wasm/src/filters.rs:381-383 | each side is its own biquad step on its own state; neither channel affects the other |
| Filters.StereoBiquad.Reset | src/audio/wasm/src/filters.rs:386-389 | clears both taps and keeps both coefficient sets |
| SimdUtils.ScaleBuffer | src/audio/wasm/src/simd_utils.rs:48-61 | the chunked loop leaves every sample times the gain, as the scalar fallback does |
| SimdUtils.ScaleExample | src/audio/wasm/src/simd_utils.rs:689-693 | scaling 1..9 by 2 gives 2..18 |
| SimdUtils.AddBuffers | src/audio/wasm/src/simd_utils.rs:89-101 | out[i] = a[i] + b[i] below the shortest length, the rest of out unchanged |
| SimdUtils.AddExample | src/audio/wasm/src/simd_utils.rs:696-702 | the test vectors add to all sixes |
| SimdUtils.MixBuffer | src/audio/wasm/src/simd_utils.rs:124-139 | a[i] += b[i] * gain below the shorter length, the rest of a unchanged |
| SimdUtils.CopyBuffer | src/audio/wasm/src/simd_utils.rs:159-169 | dst takes src below the shorter length, the rest of dst unchanged |
| SimdUtils.ClearBuffer | src/audio/wasm/src/simd_utils.rs:187-196 | every element becomes zero |
| SimdUtils.ApplyGainRamp | src/audio/wasm/src/simd_utils.rs:220-247 | the four-lane gains and the remainder give sample k the gain start + k*step, as the scalar ramp does |
| SimdUtils.RampGainAdvance4 | src/audio/wasm/src/simd_utils.rs:240-241 | advancing a lane by 4 steps adds step * 4 |
| SimdUtils.RampGainClosedForm | src/audio/wasm/src/simd_utils.rs:260-270 | the accumulated gain after k samples is start + k*step |
| SimdUtils.RampEnds | src/audio/wasm/src/simd_utils.rs:260-270 | the ramp starts at the start gain and reaches the end gain one sample past the buffer |
| SimdUtils.SoftClipBounds | src/audio/wasm/src/simd_utils.rs:304-308 | x/(1+abs x) lies strictly inside (-1, 1) and keeps the sign of x |
| SimdUtils.SoftClipBuffer | src/audio/wasm/src/simd_utils.rs:279-293 | every sample becomes its soft clip |
| SimdUtils.HardClipBuffer | src/audio/wasm/src/simd_utils.rs:314-326 | every sample becomes hard_clip(x, limit) |
| SimdUtils.LaneClip | src/audio/wasm/src/simd_utils.rs:314-339 | the lane max(min(x, limit), -limit) and the scalar clamp both equal hard_clip |
| SimdUtils.HardClippedBounds | src/audio/wasm/src/simd_utils.rs:336-339 | a clipped buffer lies within the limit and samples already inside are kept |
| SimdUtils.InterleaveStereo | src/audio/wasm/src/simd_utils.rs:347-372 | out[2i], out[2i+1] take left[i], right[i] for every frame that fits, the rest kept |
| SimdUtils.DeinterleaveStereo | src/audio/wasm/src/simd_utils.rs:395-418 | left[i], right[i] take interleaved[2i], interleaved[2i+1] for every frame that fits, the rest kept |
| SimdUtils.InterleaveRoundTrip | src/audio/wasm/src/simd_utils.rs:347-435 | deinterleaving an interleaved buffer gives back both channels over the frames that fit |
| SimdUtils.InterleaveRoundTripWhole | src/audio/wasm/src/simd_utils.rs:347-435 | with matching lengths the round trip returns both channels whole |
| SimdUtils.DeinterleaveRoundTrip | src/audio/wasm/src/simd_utils.rs:347-435 | interleaving deinterleaved channels gives back an exactly sized interleaved buffer |
| SimdUtils.BiquadProcessBuffer | src/audio/wasm/src/simd_utils.rs:454-476 | the buffer and the returned state are the biquad run over the buffer from the given state |
| SimdUtils.BufferSum | src/audio/wasm/src/simd_utils.rs:490-503 | the four-lane sum plus remainder is the sum of the buffer |
| SimdUtils.RemoveDcOffset | src/audio/wasm/src/simd_utils.rs:490-503 | every sample minus the buffer's mean; an empty buffer is left alone |
| SimdUtils.SubtractMean | src/audio/wasm/src/simd_utils.rs:540-548 | every sample minus the given mean |
| SimdUtils.SumMinusConstant | src/audio/wasm/src/simd_utils.rs:540-548 | subtracting m from each of n samples lowers the sum by n*m |
| SimdUtils.CenteredSumsToZero | src/audio/wasm/src/simd_utils.rs:540-548 | after DC removal the buffer sums to zero |
| SimdUtils.Peak | src/audio/wasm/src/simd_utils.rs:592-594 | the peak is non-negative, bounds every abs value, and is attained (or 0 for an empty buffer) |
| SimdUtils.FindPeak | src/audio/wasm/src/simd_utils.rs:558-571 | the four-lane maximum plus remainder is the peak absolute value |
| SimdUtils.PeakStep | src/audio/wasm/src/simd_utils.rs:592-594 | one more sample raises the peak to the max with its abs value |
| SimdUtils.PeakExample | src/audio/wasm/src/simd_utils.rs:705-708 | the peak of [-3, 1, 5, -2, 4] is 5 |
| SimdUtils.EnvelopeIndex | src/audio/wasm/src/simd_utils.rs:636-640 | the index is inside the 1024-entry table; phase <= 0 gives 0, phase >= 0.9999 gives 1023 |
| SimdUtils.EnvelopeLookup | src/audio/wasm/src/simd_utils.rs:636-640 | the result is an entry of the table |
| Convolution.PartitionCount | src/audio/wasm/src/convolution.rs:132-134 | at most MAX_PARTITIONS; without 32-bit wrap it is ceil(length / 256) capped at 937 |
| Convolution.PartitionsCover | src/audio/wasm/src/convolution.rs:132-134 | for lengths up to the cap the partitions cover length samples and the last one starts inside it |
| Convolution.PartitionsCapped | src/audio/wasm/src/convolution.rs:132-134 | a response longer than 937 partitions is cut to 937 |
| Convolution.PartitionSamples | src/audio/wasm/src/convolution.rs:142-158 | partition p holds IR sample p*256+i (stereo averaged) where it exists, zeros elsewhere and in the upper half |
| Convolution.ZeroSpectra | src/audio/wasm/src/convolution.rs:168-174 | n all-zero spectra of FFT_SIZE bins |
| Convolution.FdlSlot | src/audio/wasm/src/convolution.rs:346 | the delay-line slot for partition p is in range and is the newest slot for p = 0 |
| Convolution.FdlSlotIsMod | src/audio/wasm/src/convolution.rs:346 | the slot equals (pos + n - p) % n |
| Convolution.FdlSlotInjective | src/audio/wasm/src/convolution.rs:345-354 | different partitions read different slots |
| Convolution.NextSlotIsMod | src/audio/wasm/src/convolution.rs:305 | the advance equals (pos + 1) % n |
| Convolution.AdvanceIsMod | src/audio/wasm/src/convolution.rs:305 | k advances equal (pos + k) % n |
| Convolution.FdlSlotAdvance | src/audio/wasm/src/convolution.rs:305 | after an advance, partition p + 1 reads the spectrum partition p read before: the delay line ages by one block |
| Convolution.PartialSpectrumStep | src/audio/wasm/src/convolution.rs:351-353 | unfolding step for the accumulate loop: PartialSpectrum's recursive case, one more partition adds its pointwise product |
| Convolution.PartialSpectrumSingle | src/audio/wasm/src/convolution.rs:345-354 | with one partition the sum is the newest spectrum times the only IR spectrum |
| Convolution.Padded | src/audio/wasm/src/convolution.rs:325-331 | the block in the lower half as real parts, zeros in the upper half |
| Convolution.ChannelBlock | src/audio/wasm/src/convolution.rs:310-331 | a block stores the forward transform of the padded input in the current slot and keeps the input |
| Convolution.ChannelBlockParts | src/audio/wasm/src/convolution.rs:310-365 | unfolding step for ProcessChannelBlock: ChannelBlock with its intermediate values named (stored spectrum, partition sum, inverse transform, overlap-add) |
| Convolution.Flush | src/audio/wasm/src/convolution.rs:237-241 | a full block is processed, the input position rewinds and the slot advances |
| Convolution.Settled | src/audio/wasm/src/convolution.rs:237-241 | a partially filled block is untouched; a full one is flushed |
| Convolution.SettledPosition | src/audio/wasm/src/convolution.rs:228-242 | one sample moves the input position to (a + 1) % 256 and advances the slot once per completed block |
| Convolution.FeedPosition | src/audio/wasm/src/convolution.rs:228-242 | after m samples the input position is (a + m) % 256 and the slot has advanced (a + m) / 256 times |
| Convolution.FeedSlot | src/audio/wasm/src/convolution.rs:305 | the slot after m samples is (f + (a + m)/256) % n |
| Convolution.SettledBuffered | src/audio/wasm/src/convolution.rs:230-235 | the input buffer's live prefix stays the samples fed since the last flush |
| Convolution.FeedBuffered | src/audio/wasm/src/convolution.rs:228-242 | after feeding, the live prefix of each input buffer is the tail of the history since the last flush |
| Convolution.ShiftedTwice | src/audio/wasm/src/convolution.rs:253-262 | two shifts equal one by the sum; a zero shift keeps the buffer |
| Convolution.WetMix | src/audio/wasm/src/convolution.rs:245-251 | wet 0 outputs the input and wet 1 the overlap head |
| Convolution.CopySlice | src/audio/wasm/src/convolution.rs:207-208 | the first n samples copied, the rest unchanged |
| Convolution.PadBlock | src/audio/wasm/src/convolution.rs:325-331 | fills the FFT input with the padded block |
| Convolution.AccumulatePartition | src/audio/wasm/src/convolution.rs:351-353 | adds one partition's pointwise product to the accumulator |
| Convolution.SumPartitions | src/audio/wasm/src/convolution.rs:340-354 | the accumulator is the sum over all partitions of the IR spectrum times its slot's spectrum |
| Convolution.AddOverlap | src/audio/wasm/src/convolution.rs:361-364 | the overlap buffer plus the scaled real part of the inverse transform |
| Convolution.ProcessChannelBlock | src/audio/wasm/src/convolution.rs:310-365 | the channel's new delay line and overlap are exactly the block function |
| Convolution.BuildPartition | src/audio/wasm/src/convolution.rs:142-158 | the partition is the complexified sample block |
| Convolution.TransformPartitions | src/audio/wasm/src/convolution.rs:142-163 | one transformed partition per counted partition, each the FFT of its sample block |
| Convolution.NewFdls | src/audio/wasm/src/convolution.rs:168-173 | both delay lines become n zero spectra |
| Convolution.ClearSlots | src/audio/wasm/src/convolution.rs:378-383 | every slot zeroed, the count kept |
| Convolution.ConvolutionState.constructor | src/audio/wasm/src/convolution.rs:81-105 | no IR, zero partitions, zeroed input and overlap buffers, empty delay lines, positions 0 |
| Convolution.ConvolutionState.LoadIr | src/audio/wasm/src/convolution.rs:122-186 | stores the counted transformed partitions, fresh zero delay lines, cleared overlaps, positions 0, the loaded flag, and the IR length in the arena |
| Convolution.ConvolutionState.ProcessBlock | src/audio/wasm/src/convolution.rs:267-306 | both channels run the block and the slot advances modulo the partition count |
| Convolution.ConvolutionState.WriteFrame | src/audio/wasm/src/convolution.rs:231-234 | one input sample per channel is appended to the block |
| Convolution.ConvolutionState.FeedStep | src/audio/wasm/src/convolution.rs:230-241 | feeding one more sample keeps the state equal to Feed over the longer prefix |
| Convolution.ConvolutionState.FillBlock | src/audio/wasm/src/convolution.rs:230-235 | the inner loop stops at a full block or the end of input and the state is Feed over what it consumed |
| Convolution.ConvolutionState.Gather | src/audio/wasm/src/convolution.rs:227-242 | the state becomes Feed over the whole block of input |
| Convolution.ConvolutionState.MixOutput | src/audio/wasm/src/convolution.rs:245-251 | both output slices are the wet/dry mix of input and overlap head; samples past the slice kept |
| Convolution.ConvolutionState.ShiftOverlap | src/audio/wasm/src/convolution.rs:253-262 | both overlaps shifted by the block size and zero-filled |
| Convolution.ConvolutionState.Process | src/audio/wasm/src/convolution.rs:196-264 | without an IR the input is copied; otherwise output is WetMix over Feed with the clamped dry/wet, then Drained |
| Convolution.ConvolutionState.Reset | src/audio/wasm/src/convolution.rs:372-386 | zero overlaps and delay lines, positions 0, partitions and input blocks kept |
| Granular.WrappingStepIsLcg | src/audio/wasm/src/granular.rs:115 | the two wrapping operations compose to the LCG step modulo 2^32 |
| Granular.DrawsAdd | src/audio/wasm/src/granular.rs:113-118 | a draws then b draws is a + b draws |
| Granular.Unit | src/audio/wasm/src/granular.rs:113-118 | random_f32 lies in [0, 1] and is 0 at state 0 |
| Granular.Bipolar | src/audio/wasm/src/granular.rs:122-124 | random_bipolar is 2u - 1, in [-1, 1] |
| Granular.ClampParams | src/audio/wasm/src/granular.rs:183-187 | every parameter lands in its range and parameters in range are kept |
| Granular.Frames | src/audio/wasm/src/granular.rs:199 | the frame count is SOURCE_LEN / SOURCE_CHANNELS |
| Granular.IntervalBounds | src/audio/wasm/src/granular.rs:202 | the spawn interval lies in [80, 192000] samples |
| Granular.FirstFreeIsFirst | src/audio/wasm/src/granular.rs:216-217 | the chosen slot is the first inactive one: all before it are active |
| Granular.GrainFrom | src/audio/wasm/src/granular.rs:219-240 | a spawned grain is active at phase 0 with the grain size, position in [0, 1], amp in [0.8, 1], pan in [-0.7, 0.7] |
| Granular.Spawn | src/audio/wasm/src/granular.rs:219-240 | the grain's properties above, and the generator advanced by exactly four draws |
| Granular.ActiveCountUpdate | src/audio/wasm/src/granular.rs:234 | replacing one grain changes the active count by the change at that slot |
| Granular.SpawnIntoEffect | src/audio/wasm/src/granular.rs:216-244 | with no free slot nothing changes; otherwise only the first free slot is set, one more grain is active and four draws are used |
| Granular.GuardAgrees | src/audio/wasm/src/granular.rs:261 | with at least one frame the wrapped guard is `idx + 1 < frames` |
| Granular.GuardAsWrittenOverreads | src/audio/wasm/src/granular.rs:261 | with no frame the guard as written passes for index 0 |
| Granular.WrappedLoadHasNoFrame | src/audio/wasm/src/granular.rs:336-337 | load_source(_, 2863311531, 3) stores a one-sample stereo source with zero frames |
| Granular.ReadsInBounds | src/audio/wasm/src/granular.rs:261-275 | a guarded read touches only indices inside the source |
| Granular.ReadAtBetween | src/audio/wasm/src/granular.rs:257-278 | the interpolated read lies between the two neighbouring frames, or is 0 past the end |
| Granular.Envelope | src/audio/wasm/src/granular.rs:139-143 | the raised cosine lies in [0, 1] |
| Granular.PhaseStep | src/audio/wasm/src/granular.rs:298 | the phase step is positive and size steps make one |
| Granular.Aged | src/audio/wasm/src/granular.rs:295-303 | an inactive grain is untouched; an active one advances its phase and position and stays active only while both are below 1 |
| Granular.RenderGrain | src/audio/wasm/src/granular.rs:251-303 | the grain ages as above and an inactive grain contributes nothing |
| Granular.RenderPoolAges | src/audio/wasm/src/granular.rs:251-304 | after rendering each grain of the pool is its aged self |
| Granular.ElapsedReachesOne | src/audio/wasm/src/granular.rs:298 | size_samples phase steps add up to at least one |
| Granular.GrainPhase | src/audio/wasm/src/granular.rs:298 | a grain still active after k samples has phase start + k/size |
| Granular.GrainLifetime | src/audio/wasm/src/granular.rs:301-303 | a grain spawned at phase 0 is inactive after size_samples samples |
| Granular.Tick | src/audio/wasm/src/granular.rs:210-213 | the accumulator gains one, loses an interval exactly when it reaches it, and stays in [0, interval) |
| Granular.SampleStepDraws | src/audio/wasm/src/granular.rs:205-245 | per sample the generator moves by zero or four draws |
| Granular.TickSpawnAddsAtMostOne | src/audio/wasm/src/granular.rs:242 | at most one grain becomes active per sample |
| Granular.Block | src/audio/wasm/src/granular.rs:205-305 | a block keeps the pool size, yields n samples per channel and keeps the accumulator non-negative |
| Granular.BlockDraws | src/audio/wasm/src/granular.rs:205-245 | over n samples the generator advances by four draws per spawn, at most n spawns |
| Granular.ClearSlice | src/audio/wasm/src/granular.rs:194-195 | the first n samples zeroed, the rest kept |
| Granular.GranularEngine.constructor | src/audio/wasm/src/granular.rs:84-104 | 100 idle grains, generator 12345, no source, mono, accumulator 0 |
| Granular.GranularEngine.RandomUnit | src/audio/wasm/src/granular.rs:113-118 | one LCG step and its unit value |
| Granular.GranularEngine.RandomBipolar | src/audio/wasm/src/granular.rs:122-124 | one LCG step and its bipolar value |
| Granular.GranularEngine.NewGrain | src/audio/wasm/src/granular.rs:219-231 | the grain and generator Spawn describes |
| Granular.GranularEngine.SpawnGrain | src/audio/wasm/src/granular.rs:216-244 | the pool and generator SpawnInto describes |
| Granular.GranularEngine.RenderGrains | src/audio/wasm/src/granular.rs:251-304 | the pool and both contributions RenderPool describes |
| Granular.GranularEngine.Step | src/audio/wasm/src/granular.rs:205-305 | one sample: the state is SampleStep's and its contributions are added at the sample index |
| Granular.GranularEngine.RunBlock | src/audio/wasm/src/granular.rs:205-305 | the state and both output slices are Block's; samples past the slice kept |
| Granular.GranularEngine.Process | src/audio/wasm/src/granular.rs:161-305 | without a source both slices are cleared and nothing else changes; otherwise the clamped parameters drive Block over a cleared slice |
| Granular.GranularEngine.LoadSource | src/audio/wasm/src/granular.rs:333-349 | wrapped length, clamped channels, all grains inactive, accumulator 0, the generator kept, and the length stored in the arena |
| Granular.GranularEngine.Reset | src/audio/wasm/src/granular.rs:370-376 | all grains inactive and the accumulator 0; source and generator kept |
| Spectral.Hann | src/audio/wasm/src/spectral.rs:87-90 | the window has FFT_SIZE coefficients |
| Spectral.HannBounds | src/audio/wasm/src/spectral.rs:87-90 | with a bounded cosine every coefficient lies in [0, 1] |
| Spectral.HeldSnapshot | src/audio/wasm/src/spectral.rs:252-258 | over a run of frames with freeze on, the snapshot is the one held, or the first frame's if not yet frozen, and the flag stays set |
| Spectral.ReleasedSnapshot | src/audio/wasm/src/spectral.rs:267-269 | over a run of frames with freeze off, the snapshot is kept and the flag is clear |
| Spectral.BlendBetween | src/audio/wasm/src/spectral.rs:260-266 | for freeze in [0, 1] each blended magnitude and phase lies between current and snapshot; full freeze gives the snapshot's magnitudes |
| Spectral.Remap | src/audio/wasm/src/spectral.rs:272-299 | without a shift the bins are copied through |
| Spectral.RemapUnshifted | src/audio/wasm/src/spectral.rs:134 | zero semitones gives ratio 1 and no remapping |
| Spectral.RemapBetween | src/audio/wasm/src/spectral.rs:282-290 | an interpolated bin lies between its two source bins |
| Spectral.RemapUpward | src/audio/wasm/src/spectral.rs:278-279 | with ratio > 1 every bin reads a source bin at or below itself |
| Spectral.RemapDownward | src/audio/wasm/src/spectral.rs:278-294 | with ratio < 1 bins whose source is past the top are silent |
| Spectral.RemapSilent | src/audio/wasm/src/spectral.rs:272-299 | a silent spectrum stays silent under any shift |
| Spectral.Vocoder | src/audio/wasm/src/spectral.rs:304-321 | the previous phase becomes the shifted phase, one synthesis phase per bin |
| Spectral.AdvanceIsIncrement | src/audio/wasm/src/spectral.rs:306-318 | the synthesis phase grows by (i * hop phase + wrapped deviation) times the ratio |
| Spectral.MirroredSymmetric | src/audio/wasm/src/spectral.rs:324-333 | the upper bins are the conjugates of the lower ones; zero magnitudes give a zero spectrum |
| Spectral.OverlapAdded | src/audio/wasm/src/spectral.rs:339-342 | only the first FFT_SIZE output samples change |
| Spectral.Synthesise | src/audio/wasm/src/spectral.rs:251-336 | shapes kept; the frozen flag is freeze > 0; the snapshot changes only when freezing starts |
| Spectral.Frame | src/audio/wasm/src/spectral.rs:214-343 | a frame keeps the input and the output tail, sets the flag to freeze > 0, captures the current frame when freezing starts |
| Spectral.Hop | src/audio/wasm/src/spectral.rs:152-192 | a hop keeps the shapes and the input position |
| Spectral.RightSnapshotKept | src/audio/wasm/src/spectral.rs:176-192 | the right channel never captures: its snapshot stays what it was, because its flag copy is taken after the left frame |
| Spectral.RightSilentAtFullFreeze | src/audio/wasm/src/spectral.rs:176-192 | at full freeze the right channel then synthesises silence from its zero snapshot |
| Spectral.Slid | src/audio/wasm/src/spectral.rs:153-156 | the input buffer moves left by one hop; the last hop is kept |
| Spectral.Sample | src/audio/wasm/src/spectral.rs:146-157 | the position is reset to 1536 once a hop is reached, else advances by one |
| Spectral.SampleStages | src/audio/wasm/src/spectral.rs:146-197 | before the first hop a sample only writes the input; once parked, each frame sees the new sample at both 1024 and 1536 |
| Spectral.BlockPosition | src/audio/wasm/src/spectral.rs:144-157 | after the first hop every sample triggers a frame, so the position after n samples follows PositionAfter |
| Spectral.Silence | src/audio/wasm/src/spectral.rs:205-208 | n zero samples |
| Spectral.Fresh | src/audio/wasm/src/spectral.rs:81-115 | a fresh engine is well shaped and unfrozen |
| Spectral.HannWindow | src/audio/wasm/src/spectral.rs:87-90 | the loop builds the Hann window |
| Spectral.WindowInto | src/audio/wasm/src/spectral.rs:233-235 | the FFT buffer holds input times window as real parts |
| Spectral.Analyse | src/audio/wasm/src/spectral.rs:244-249 | magnitude and phase of the 1025 bins |
| Spectral.Hold | src/audio/wasm/src/spectral.rs:252-269 | the loop computes the freeze step and the blend |
| Spectral.Shift | src/audio/wasm/src/spectral.rs:272-299 | the loop computes Remap |
| Spectral.Accumulate | src/audio/wasm/src/spectral.rs:302-321 | the loop computes the phase vocoder |
| Spectral.Reconstruct | src/audio/wasm/src/spectral.rs:324-333 | the loop computes the mirrored spectrum |
| Spectral.AddFrame | src/audio/wasm/src/spectral.rs:339-342 | the loop computes the windowed overlap-add |
| Spectral.ProcessFrame | src/audio/wasm/src/spectral.rs:214-343 | the channel state and flag become those of Frame |
| Spectral.ShiftRings | src/audio/wasm/src/spectral.rs:200-208 | both output buffers shifted by the block size and zero-filled |
| Spectral.SpectralState.constructor | src/audio/wasm/src/spectral.rs:81-115 | a fresh state with the Hann window and zeroed scratch buffers |
| Spectral.SpectralState.Slide | src/audio/wasm/src/spectral.rs:153-156 | both input buffers slid, all else kept |
| Spectral.SpectralState.RunHop | src/audio/wasm/src/spectral.rs:153-192 | the state becomes Hop's |
| Spectral.SpectralState.Receive | src/audio/wasm/src/spectral.rs:146-197 | the state becomes Sample's |
| Spectral.SpectralState.RunBlock | src/audio/wasm/src/spectral.rs:144-198 | the state and both output slices are Block's; samples past the slice kept |
| Spectral.SpectralState.DrainOutput | src/audio/wasm/src/spectral.rs:200-208 | the state becomes Drained's |
| Spectral.SpectralState.Process | src/audio/wasm/src/spectral.rs:127-209 | the clamped freeze and shift ratio drive Block over the input slices, then the output drains |
| Spectral.SpectralState.Reset | src/audio/wasm/src/spectral.rs:350-368 | the engine returns to its fresh state |
| Delay.Slot | src/audio/wasm/src/delay.rs:97 | the read slot for an age is in range, is w - age without wrap, and is w exactly for the full age |
| Delay.SlotInjective | src/audio/wasm/src/delay.rs:97 | different ages within the buffer read different slots |
| Delay.SlotOlder | src/audio/wasm/src/delay.rs:98 | the slot one step back is the slot of the next older sample |
| Delay.Written | src/audio/wasm/src/delay.rs:100-101 | the sample age steps back, or 0 before anything was written |
| Delay.RingRead | src/audio/wasm/src/delay.rs:97-101 | reading the ring at an age gives that sample of the history |
| Delay.RingWrite | src/audio/wasm/src/delay.rs:108-111 | a write and advance extend the history by the written value |
| Delay.RingClear | src/audio/wasm/src/delay.rs:118-121 | a zeroed ring holds an empty history |
| Delay.Push | src/audio/wasm/src/delay.rs:108-111 | one write at the write position and the advanced position |
| Delay.Fill | src/audio/wasm/src/delay.rs:119 | all slots zero, an empty history |
| Delay.FractionalReadExact | src/audio/wasm/src/delay.rs:94-102 | a whole delay reads exactly that sample |
| Delay.FractionalReadBetween | src/audio/wasm/src/delay.rs:94-102 | a fractional read lies between its two neighbours |
| Delay.FractionalReadContinuous | src/audio/wasm/src/delay.rs:94-102 | the read is continuous as the delay crosses a whole sample |
| Delay.DelayLine.constructor | src/audio/wasm/src/delay.rs:53-62 | empty history, delay 1000, feedback 0.5, mix 0.5, pass-through damping |
| Delay.DelayLine.SetDelayTime | src/audio/wasm/src/delay.rs:65-68 | seconds times rate, clamped to [1, M - 1] |
| Delay.DelayLine.SetDelaySamples | src/audio/wasm/src/delay.rs:71-73 | samples clamped to [1, M - 1] |
| Delay.DelayLine.SetFeedback | src/audio/wasm/src/delay.rs:76-78 | feedback clamped to [0, 0.99] |
| Delay.DelayLine.SetMix | src/audio/wasm/src/delay.rs:81-83 | mix clamped to [0, 1] |
| Delay.DelayLine.Process | src/audio/wasm/src/delay.rs:92-115 | the output mixes input and the fractional read; the damped read times feedback plus input is appended to the history |
| Delay.DelayLine.Clear | src/audio/wasm/src/delay.rs:118-121 | empty history and reset damping memory, settings kept |
| Delay.DelayClamp | src/audio/wasm/src/delay.rs:159-161 | the clamped delay lies in [1, size - 1], in-range values kept |
| Delay.CombFilter.constructor | src/audio/wasm/src/delay.rs:148-156 | empty history, delay 1000, feedback 0.5, pass-through damping |
| Delay.CombFilter.SetDelaySamples | src/audio/wasm/src/delay.rs:159-161 | delay clamped to [1, M - 1] |
| Delay.CombFilter.SetFeedback | src/audio/wasm/src/delay.rs:164-166 | feedback clamped to [-0.99, 0.99] |
| Delay.CombFilter.Process | src/audio/wasm/src/delay.rs:175-187 | returns the delayed sample; appends input plus damped feedback |
| Delay.CombFilter.Clear | src/audio/wasm/src/delay.rs:190-193 | empty history and reset damping memory |
| Delay.AllPassRecurrence | src/audio/wasm/src/delay.rs:241-251 | over a history recording each call's input, output and coefficient, the next output is -g x[n] + x[n-d] + g' y[n-d] (g' the coefficient at call n - d), and -g x[n] before d calls |
| Delay.AllPassFilter.constructor | src/audio/wasm/src/delay.rs:220-227 | empty history, delay 500, coefficient 0.5 |
| Delay.AllPassFilter.SetDelaySamples | src/audio/wasm/src/delay.rs:230-232 | delay clamped to [1, 4095] |
| Delay.AllPassFilter.SetCoefficient | src/audio/wasm/src/delay.rs:235-237 | coefficient clamped to [-0.9, 0.9] |
| Delay.AllPassFilter.Process | src/audio/wasm/src/delay.rs:241-251 | the all-pass output from the stored sample; appends input plus g times output; records input, output and coefficient, and the output obeys y[n] = -g x[n] + x[n-d] + g' y[n-d] for n >= d and -g x[n] before |
| Delay.AllPassFilter.Clear | src/audio/wasm/src/delay.rs:254-256 | empty history |
| Delay.PingPongDelaySamples | src/audio/wasm/src/delay.rs:299-302 | the truncated delay clamped to [1, M - 1] |
| Delay.PingPongDelay.constructor | src/audio/wasm/src/delay.rs:285-296 | empty histories, delay 22050, its feedback and mix defaults |
| Delay.PingPongDelay.SetDelayTime | src/audio/wasm/src/delay.rs:299-302 | the delay is PingPongDelaySamples |
| Delay.PingPongDelay.SetFeedback | src/audio/wasm/src/delay.rs:305-307 | feedback clamped to [0, 0.95] |
| Delay.PingPongDelay.SetMix | src/audio/wasm/src/delay.rs:310-312 | mix clamped to [0, 1] |
| Delay.PingPongDelay.Process | src/audio/wasm/src/delay.rs:322-345 | each output mixes its input with its own delayed sample; each damped sample is fed into the other channel's line |
| Delay.PingPongDelay.Clear | src/audio/wasm/src/delay.rs:348-353 | both histories empty and both damping memories reset |
| Delay.CatmullRomEnds | src/audio/wasm/src/delay.rs:425-431 | the segment passes through y1 at 0 and y2 at 1 |
| Delay.CatmullRomLinear | src/audio/wasm/src/delay.rs:425-431 | points on a line are reproduced exactly |
| Delay.Wrapped | src/audio/wasm/src/delay.rs:415-418 | an age one step out of range wraps into [1, M] congruently |
| Delay.SlotOfWrapped | src/audio/wasm/src/delay.rs:415-418 | the source's modular index equals the slot of the wrapped age |
| Delay.ModulatedDelayTime | src/audio/wasm/src/delay.rs:408-409 | base plus modulation times depth, within [1, M - 1] |
| Delay.ModulatedTapsAsWrittenAges | src/audio/wasm/src/delay.rs:415-418 | the taps as written read ages d + 1, d, d - 1, d - 2 |
| Delay.ModulatedTapsJump | src/audio/wasm/src/delay.rs:415-418 | as written, the end tap of delay d is not the start tap of delay d + 1 |
| Delay.ModulatedTapsContinuous | src/audio/wasm/src/delay.rs:415-418 | corrected taps shift by one between consecutive delays |
| Delay.ModulatedReadExact | src/audio/wasm/src/delay.rs:406-431 | the corrected read at a whole delay reads exactly that sample |
| Delay.ModulatedReadContinuous | src/audio/wasm/src/delay.rs:406-431 | the corrected read is continuous across whole samples |
| Delay.ModulatedReadAsWrittenEnds | src/audio/wasm/src/delay.rs:406-431 | as written, the segment for d ends at age d - 1 while delay d + 1 reads age d + 1 |
| Delay.ModulatedReadAsWrittenJump | src/audio/wasm/src/delay.rs:406-431 | as written, sweeping the delay up to 3 jumps when the newest sample differs from the one two older |
| Delay.ModulatedDelay.constructor | src/audio/wasm/src/delay.rs:379-387 | empty history, base delay 500, depth 100, feedback 0 |
| Delay.ModulatedDelay.SetBaseDelay | src/audio/wasm/src/delay.rs:390-392 | base delay clamped to [1, M - 100] |
| Delay.ModulatedDelay.SetModDepth | src/audio/wasm/src/delay.rs:395-397 | depth clamped to [0, 1000] |
| Delay.ModulatedDelay.SetFeedback | src/audio/wasm/src/delay.rs:400-402 | feedback clamped to [-0.95, 0.95] |
| Delay.ModulatedDelay.Process | src/audio/wasm/src/delay.rs:406-438 | reads the taps idx0..idx3 at ages d + 1, d, d - 1, d - 2 and returns their cubic interpolation, ModulatedReadAsWritten at the modulated delay; appends input plus feedback times it |
| Delay.ModulatedDelay.Clear | src/audio/wasm/src/delay.rs:441-443 | empty history, settings kept |

## Left out

- The transforms (rustfft's planner and plans) and the libm functions (sqrt, atan2, cos,
  sin, round, powf) are uninterpreted parameters. Properties that depend on their values
  are stated under explicit hypotheses; an example is `Spectral.HannBounds` on a bounded
  cosine.
- f32 rounding, NaN and infinity are not modelled; samples are exact reals.
- SIMD intrinsics, raw pointers, the linear-memory addresses behind the slices, heap
  allocation, and single-threaded `static mut` access are not modelled. Regions and
  buffers are Dafny arrays and sequences.
- The lazily created `STATE` of the convolution and spectral engines is modelled as
  created at construction. The first `ensure_state` has no other visible effect.
- `Convolution.ConvolutionState.Process`, `Granular.GranularEngine.Process` and
  `Spectral.SpectralState.Process`: require an attached arena and use its stored block
  size and sample rate, the corrected `init_engine`. As written, the getters fall back to
  128 and 44100 (memory.rs:355-371, ENGINE stays null). `input_slice` and
  `output_slice_mut` (memory.rs:231-248) read the size that `init_engine` stored at
  address 0, so the slices are that long.
  - With a stored size of 128, the program matches the model with the arena initialised by
    `Memory.Arena.Init(44100.0, 128)`.
  - With a larger stored size, convolution's IR path (convolution.rs:217-263) and spectral
    (spectral.rs:137-208) still touch only the first 128 samples, which also matches that
    model.
  - Without an IR (or with no partitions), convolution's pass-through copies the whole
    stored-size slices (convolution.rs:199-208). That matches the model with the arena
    initialised to the stored size, not the `Init(44100.0, 128)` instance: for a larger
    stored size that instance copies 128 samples and keeps the rest of the outputs.
  - With a stored size below 128, convolution's IR path, spectral and granular index past
    their slices and panic (convolution.rs:218-231, spectral.rs:137-144, granular.rs:205
    and 290). The model does not capture that panic. The no-IR pass-through copies the
    shorter slices and does not panic.
  - With a larger stored size, granular's `clear_buffer` zeroes the whole stored-size
    output slices (granular.rs:172-175, 189-194) but renders only 128 samples. The model
    clears and renders the same block size and keeps the rest of each output array, so
    it does not capture the zeroed samples from 128 up to the stored size.
- `Convolution.ConvolutionState.LoadIr`: requires the IR slice to hold every sample the
  partitions read (`IrReadable`). It excludes the inputs on which `load_ir` indexes past
  `ir_samples` and panics, such as `load_ir(_, 1, 0)` (an empty slice) or
  `load_ir(_, 2^31, 2)` (the length wraps to 0); the panic is not modelled.
- `SimdUtils.HardClipBuffer`: requires a non-negative limit. For a negative limit the
  scalar `clamp` of the remainder panics, while a buffer whose length is a multiple of
  four goes through the SIMD lanes only and becomes -limit everywhere; neither outcome is
  modelled.
- `Granular.GranularEngine.Process`: does not apply the output gain
  `1/sqrt(max(density*grain_size/sample_rate, 1))`. This is the scale after the block,
  granular.rs:309-314, which needs sqrt on reals.
- `Granular.GranularEngine.LoadSource`: requires a wrapped source length of zero or at
  least one frame. That excludes the wrapping inputs under "## Findings", where `process`
  reads past the source.
- `Granular.Unit`: is stated on [0, 1]. The f32 division can round up to exactly 1.0,
  which the real model also allows at state 2^32 - 1.
- `Spectral.SpectralState.Process`: requires that the pitch ratio from `powf` be positive.
  For every shift -24..24, 2^(s/12) is.
- The spectral scratch FFT buffers: their contents after a frame are not stated, since
  nothing reads them before they are rewritten.
- The contents of `ENVELOPE_TABLE` (built by a Taylor series at compile time) are not
  modelled. `SimdUtils.EnvelopeLookup` takes any 1024-entry table.
- `lerp_4_simd` and `envelope_4_simd` in simd_utils.rs are not modelled. They are
  four-lane wrappers with no state over `lerp` and the envelope lookup.
- The cookbook filter setters (filters.rs:112-239), the one-pole setters
  (filters.rs:314-326) and `DelayLine::set_damping` are not modelled. They compute
  coefficients with trigonometry; the filters take their coefficients as given.
- The dB/MIDI helpers and soft_clip of utils.rs are not modelled.
- lib.rs (the exported wrappers), oscillators.rs, envelopes.rs and the benches are not
  part of this model.

## Findings

| source | as written | input that shows it | evidently intended | confidence | as-written member | corrected member |
|---|---|---|---|---|---|---|
| src/audio/wasm/src/memory.rs:125-163 | `init_engine` returns 0 on success and on each rejection | init_engine(48000, 256) and init_engine(1, 256) both return 0 | distinct codes for success and failure | not executed | Memory.InitReturnCodeAmbiguous | Memory.Arena.Init |
| src/audio/wasm/src/memory.rs:140-141 | ENGINE is set to the address STATE_OFFSET, which is 0, so it stays null | after init_engine(48000, 256), sample_rate() returns 44100 and buffer_size() 128 | a non-null engine pointer, so the getters see the stored state | not executed | Memory.InitLeavesEngineNull | Memory.Arena.Init |
| src/audio/wasm/src/memory.rs:34-46 | the I/O regions are 0x200 bytes apart, but init accepts slices of up to 512 floats (2048 bytes) | init_engine(48000, 256): input_slice(0) overlaps input_slice(1) | regions sized for MAX_BUFFER_SIZE floats | not executed | Memory.InitAcceptsOverlappingSlices | Memory.CorrectedLayoutDisjoint |
| src/audio/wasm/src/delay.rs:415-418 | the cubic taps read ages d+1, d, d-1, d-2, so frac moves toward the newer sample | history ending in an impulse, delay swept from just under 3.0 to 3.0 | taps at ages d-1, d, d+1, d+2, continuous in the delay | not executed | Delay.ModulatedReadAsWrittenJump | Delay.ModulatedReadContinuous |
| src/audio/wasm/src/granular.rs:261 | `source_idx < source_frames - 1` wraps when there are no frames | load_source(_, 2863311531, 3), then process: one sample, zero frames, the guard passes for index 0 | a guard that fails when no next frame exists | not executed | Granular.GuardAsWrittenOverreads | Granular.ReadsInBounds |

`Delay.ModulatedDelay.Process` keeps the tap order as written, so the class behaves like
the source. `Delay.ModulatedRead` is the corrected read that `Delay.ModulatedReadExact` and
`Delay.ModulatedReadContinuous` are about.
