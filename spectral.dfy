/** The spectral freeze and pitch-shift engine of spectral.rs. Each channel
    keeps a 2048-sample input buffer and a 4096-sample overlap-add output
    buffer. A hop runs one frame per channel: Hann window, forward FFT,
    magnitude and phase of the 1025 non-negative bins, the freeze blend, the
    bin remapping by the pitch ratio, phase-vocoder phase accumulation, a
    conjugate-symmetric spectrum, the inverse FFT and overlap-add. The
    transforms and the libm functions are uninterpreted parameters. */
module Spectral {
  import opened Utils
  import opened Foreign
  import Memory
  import Convolution

  const FFT_SIZE: nat := 2048
  /** `FFT_SIZE / 4`: an overlap factor of four. */
  const HOP_SIZE: nat := 512
  /** `FFT_SIZE / 2 + 1`. */
  const NUM_BINS: nat := 1025
  /** The output buffers hold `FFT_SIZE * 2` samples. */
  const RING_SIZE: nat := 4096
  /** How far the pitch ratio must be from 1 before bins are remapped. */
  const SHIFT_TOLERANCE: real := 0.001
  /** The phase that bin 1 advances over one hop: `2π · HOP_SIZE / FFT_SIZE`. */
  const HOP_PHASE: real := 2.0 * PI * 512.0 / 2048.0
  /** The overlap-add normalisation `1 / FFT_SIZE`. */
  const SCALE: real := 1.0 / 2048.0

  // ---------------------------------------------------------------------------
  // One frame
  // ---------------------------------------------------------------------------

  /** The Hann window `0.5 - 0.5 cos(2π i / FFT_SIZE)` built by `ensure_state`. */
  function Hann(libm: Libm): (w: seq<real>)
    ensures |w| == FFT_SIZE
  {
    seq(FFT_SIZE, i => 0.5 - 0.5 * libm.cos(2.0 * PI * i as real / FFT_SIZE as real))
  }

  /** With a cosine bounded by one, every window coefficient lies in [0, 1]. */
  lemma HannBounds(libm: Libm)
    requires forall x :: -1.0 <= libm.cos(x) <= 1.0
    ensures forall i :: 0 <= i < FFT_SIZE ==> 0.0 <= Hann(libm)[i] <= 1.0
  {
    forall i | 0 <= i < FFT_SIZE
      ensures 0.0 <= Hann(libm)[i] <= 1.0
    {
      var c := libm.cos(2.0 * PI * i as real / FFT_SIZE as real);
      assert Hann(libm)[i] == 0.5 - 0.5 * c;
    }
  }

  /** What every frame of a channel reads and never changes: the window, the
      planner's forward and inverse transforms, and libm. */
  datatype Config = Config(window: seq<real>, fft: Transform, ifft: Transform, libm: Libm)

  predicate ConfigOk(cfg: Config) {
    |cfg.window| == FFT_SIZE
  }

  /** The input times the window, as the real parts of the FFT buffer. */
  function Windowed(input: seq<real>, window: seq<real>): (r: seq<Complex>)
    requires |input| == FFT_SIZE && |window| == FFT_SIZE
    ensures |r| == FFT_SIZE
  {
    seq(FFT_SIZE, i requires 0 <= i < FFT_SIZE => Complex(input[i] * window[i], 0.0))
  }

  /** A spectrum of `NUM_BINS` bins as magnitude and phase. */
  datatype Polar = Polar(mag: seq<real>, phase: seq<real>)

  predicate Bins(x: Polar) {
    |x.mag| == NUM_BINS && |x.phase| == NUM_BINS
  }

  /** The magnitude `sqrt(re² + im²)` of a bin. */
  function Magnitude(libm: Libm, z: Complex): real {
    libm.sqrt(z.re * z.re + z.im * z.im)
  }

  /** Magnitude and phase `atan2(im, re)` of each non-negative bin. */
  function Analysed(libm: Libm, spectrum: seq<Complex>): (x: Polar)
    requires |spectrum| >= NUM_BINS
    ensures Bins(x)
  {
    Polar(seq(NUM_BINS, i requires 0 <= i < NUM_BINS => Magnitude(libm, spectrum[i])),
          seq(NUM_BINS, i requires 0 <= i < NUM_BINS => libm.atan2(spectrum[i].im, spectrum[i].re)))
  }

  /** The spectrum of a frame's input: windowed, then the forward transform. */
  function Current(cfg: Config, input: seq<real>): (x: Polar)
    requires ConfigOk(cfg) && |input| == FFT_SIZE
    ensures Bins(x)
  {
    Analysed(cfg.libm, Run(cfg.fft, Windowed(input, cfg.window)))
  }

  /** The freeze state machine of one frame, as (snapshot, flag). A positive
      amount arms the flag, and an unarmed flag first captures the current
      spectrum; otherwise the flag is cleared. */
  function Freeze(f: real, frozen: bool, snapshot: Polar, current: Polar): (Polar, bool) {
    if f > 0.0 then (if frozen then snapshot else current, true) else (snapshot, false)
  }

  /** The state machine over a run of frames with one freeze amount. */
  function Frozen(f: real, frozen: bool, snapshot: Polar, frames: seq<Polar>): (Polar, bool)
    decreases |frames|
  {
    if frames == [] then (snapshot, frozen)
    else
      var before := Frozen(f, frozen, snapshot, frames[..|frames| - 1]);
      Freeze(f, before.1, before.0, frames[|frames| - 1])
  }

  /** While the amount stays positive the snapshot is the spectrum of the frame
      that armed the flag (or the one held already), and the flag stays armed. */
  lemma {:induction false} HeldSnapshot(f: real, frozen: bool, snapshot: Polar, frames: seq<Polar>)
    requires f > 0.0 && frames != []
    ensures Frozen(f, frozen, snapshot, frames) == (if frozen then snapshot else frames[0], true)
    decreases |frames|
  {
    var init := frames[..|frames| - 1];
    if init != [] {
      HeldSnapshot(f, frozen, snapshot, init);
      assert init[0] == frames[0];
    }
  }

  /** A zero amount clears the flag and never changes the snapshot. */
  lemma {:induction false} ReleasedSnapshot(f: real, frozen: bool, snapshot: Polar, frames: seq<Polar>)
    requires f <= 0.0 && frames != []
    ensures Frozen(f, frozen, snapshot, frames) == (snapshot, false)
    decreases |frames|
  {
    var init := frames[..|frames| - 1];
    if init != [] {
      ReleasedSnapshot(f, frozen, snapshot, init);
    }
  }

  /** The freeze blend: magnitudes crossfade from the current to the frozen
      spectrum by `f`; phases by `0.9 f`. */
  function Blend(f: real, current: Polar, snapshot: Polar): (r: Polar)
    requires Bins(current) && Bins(snapshot)
    ensures Bins(r)
  {
    Polar(seq(NUM_BINS, i requires 0 <= i < NUM_BINS => DryWet(current.mag[i], snapshot.mag[i], f)),
          seq(NUM_BINS, i requires 0 <= i < NUM_BINS =>
            current.phase[i] * (1.0 - f * 0.9) + snapshot.phase[i] * f * 0.9))
  }

  /** For an amount in [0, 1] each blended bin lies between the current and
      the frozen one, in magnitude and in phase; the full amount gives the
      frozen magnitudes, and blending a spectrum with itself keeps it. */
  lemma BlendBetween(f: real, current: Polar, snapshot: Polar)
    requires Bins(current) && Bins(snapshot) && 0.0 <= f <= 1.0
    ensures forall i :: 0 <= i < NUM_BINS ==>
      Min(current.mag[i], snapshot.mag[i]) <= Blend(f, current, snapshot).mag[i] <= Max(current.mag[i], snapshot.mag[i])
    ensures forall i :: 0 <= i < NUM_BINS ==>
      Min(current.phase[i], snapshot.phase[i]) <= Blend(f, current, snapshot).phase[i] <= Max(current.phase[i], snapshot.phase[i])
    ensures f == 1.0 ==> Blend(f, current, snapshot).mag == snapshot.mag
    ensures current == snapshot ==> Blend(f, current, snapshot) == current
  {
    var r := Blend(f, current, snapshot);
    forall i | 0 <= i < NUM_BINS
      ensures Min(current.mag[i], snapshot.mag[i]) <= r.mag[i] <= Max(current.mag[i], snapshot.mag[i])
      ensures Min(current.phase[i], snapshot.phase[i]) <= r.phase[i] <= Max(current.phase[i], snapshot.phase[i])
      ensures current == snapshot ==> r.mag[i] == current.mag[i] && r.phase[i] == current.phase[i]
    {
      DryWetBetween(current.mag[i], snapshot.mag[i], f);
      var g := f * 0.9;
      assert r.phase[i] == DryWet(current.phase[i], snapshot.phase[i], g);
      DryWetBetween(current.phase[i], snapshot.phase[i], g);
    }
  }

  /** Whether the pitch ratio is far enough from 1 to remap bins. */
  predicate Shifting(ratio: real) {
    Abs(ratio - 1.0) > SHIFT_TOLERANCE
  }

  /** Destination bin `i` reads source position `i / ratio`: interpolated
      between two bins below the last, copied from the last, silent beyond. */
  function RemapBin(x: Polar, ratio: real, i: nat): (real, real)
    requires Bins(x) && ratio > 0.0
  {
    var src := i as real / ratio;
    var k := AsIndex(src);
    var frac := src - k as real;
    if k < NUM_BINS - 1 then (DryWet(x.mag[k], x.mag[k + 1], frac), Lerp(x.phase[k], x.phase[k + 1], frac))
    else if k < NUM_BINS then (x.mag[k], x.phase[k])
    else (0.0, 0.0)
  }

  /** The frequency shift: bins remapped when the ratio is shifting, the
      spectrum copied otherwise. */
  function Remap(x: Polar, ratio: real): (r: Polar)
    requires Bins(x) && ratio > 0.0
    ensures Bins(r)
    ensures !Shifting(ratio) ==> r == x
  {
    if Shifting(ratio) then
      Polar(seq(NUM_BINS, i requires 0 <= i < NUM_BINS => RemapBin(x, ratio, i).0),
            seq(NUM_BINS, i requires 0 <= i < NUM_BINS => RemapBin(x, ratio, i).1))
    else x
  }

  /** A shift of zero semitones is the ratio `2^0`; when libm's `powf` gives
      exactly 1 there, the spectrum is passed through unchanged. */
  lemma RemapUnshifted(libm: Libm, x: Polar)
    requires Bins(x) && libm.exp2(0.0) == 1.0
    ensures Remap(x, ShiftRatio(libm, 0.0)) == x
  {
    assert Clamp(0.0, -24.0, 24.0) / 12.0 == 0.0;
  }

  /** A remapped bin whose source lies below the last bin is between the two
      source bins it interpolates. */
  lemma RemapBetween(x: Polar, ratio: real, i: nat)
    requires Bins(x) && ratio > 0.0 && i < NUM_BINS && Shifting(ratio)
    requires AsIndex(i as real / ratio) < NUM_BINS - 1
    ensures var k := AsIndex(i as real / ratio);
      Min(x.mag[k], x.mag[k + 1]) <= Remap(x, ratio).mag[i] <= Max(x.mag[k], x.mag[k + 1]) &&
      Min(x.phase[k], x.phase[k + 1]) <= Remap(x, ratio).phase[i] <= Max(x.phase[k], x.phase[k + 1])
  {
    var src := i as real / ratio;
    var k := AsIndex(src);
    assert 0.0 <= src;
    var frac := src - k as real;
    assert 0.0 <= frac <= 1.0;
    DryWetBetween(x.mag[k], x.mag[k + 1], frac);
    LerpBetween(x.phase[k], x.phase[k + 1], frac);
  }

  /** A shift up reads every destination bin at or below itself, so no bin
      falls silent. */
  lemma RemapUpward(ratio: real, i: nat)
    requires ratio >= 1.0
    ensures AsIndex(i as real / ratio) <= i
  {
    var src := i as real / ratio;
    QuotientAtMost(i as real, ratio);
    assert AsIndex(src) as real <= i as real;
  }

  /** A shift down silences each destination bin `i` with
      `i >= NUM_BINS · ratio`: its source lies past the last bin. */
  lemma RemapDownward(x: Polar, ratio: real, i: nat)
    requires Bins(x) && ratio > 0.0 && i < NUM_BINS && Shifting(ratio)
    requires i as real >= NUM_BINS as real * ratio
    ensures Remap(x, ratio).mag[i] == 0.0 && Remap(x, ratio).phase[i] == 0.0
  {
    var src := i as real / ratio;
    QuotientAtLeast(i as real, ratio, NUM_BINS as real);
    assert AsIndex(src) >= NUM_BINS;
    assert Remap(x, ratio).mag[i] == RemapBin(x, ratio, i).0;
    assert Remap(x, ratio).phase[i] == RemapBin(x, ratio, i).1;
  }

  /** A spectrum with zero magnitudes keeps them through the remap. */
  lemma RemapSilent(x: Polar, ratio: real)
    requires Bins(x) && ratio > 0.0
    requires forall i :: 0 <= i < NUM_BINS ==> x.mag[i] == 0.0
    ensures forall i :: 0 <= i < NUM_BINS ==> Remap(x, ratio).mag[i] == 0.0
  {
    if Shifting(ratio) {
      forall i | 0 <= i < NUM_BINS
        ensures Remap(x, ratio).mag[i] == 0.0
      {
        assert Remap(x, ratio).mag[i] == RemapBin(x, ratio, i).0;
      }
    }
  }

  /** `2.0.powf(shift / 12.0)` for the shift clamped to two octaves each way,
      with `powf(2, x)` as libm's `exp2`. */
  function ShiftRatio(libm: Libm, shift: real): real {
    libm.exp2(Clamp(shift, -24.0, 24.0) / 12.0)
  }

  /** The synthesis phase of bin `i` after one frame: the deviation of the
      measured phase from the expected advance, wrapped by whole turns, gives
      the true frequency, whose advance over a hop is scaled by the ratio. */
  function Advance(libm: Libm, prev: real, synth: real, phase: real, i: nat, ratio: real): real {
    var expected := prev + i as real * HOP_PHASE;
    var diff := phase - expected;
    var wrapped := diff - libm.round(diff / (2.0 * PI)) * 2.0 * PI;
    var trueFreq := i as real + wrapped / HOP_PHASE;
    synth + trueFreq * HOP_PHASE * ratio
  }

  /** The phase vocoder: (new previous phases, new synthesis phases). */
  function Vocoder(libm: Libm, prev: seq<real>, synth: seq<real>, phase: seq<real>, ratio: real): (r: (seq<real>, seq<real>))
    requires |prev| == NUM_BINS && |synth| == NUM_BINS && |phase| == NUM_BINS
    ensures r.0 == phase && |r.1| == NUM_BINS
  {
    (phase, seq(NUM_BINS, i requires 0 <= i < NUM_BINS => Advance(libm, prev[i], synth[i], phase[i], i, ratio)))
  }

  /** The expected advance cancels: the synthesis phase moves by the measured
      phase increment, less the whole turns `round` removed, times the ratio.
      Unshifted, the synthesis phase follows the analysis phase turn for turn. */
  lemma AdvanceIsIncrement(libm: Libm, prev: real, synth: real, phase: real, i: nat, ratio: real)
    ensures var turns := libm.round((phase - (prev + i as real * HOP_PHASE)) / (2.0 * PI));
      Advance(libm, prev, synth, phase, i, ratio) == synth + (phase - prev - turns * 2.0 * PI) * ratio
  {
    var diff := phase - (prev + i as real * HOP_PHASE);
    var turns := libm.round(diff / (2.0 * PI));
    var wrapped := diff - turns * 2.0 * PI;
    var trueFreq := i as real + wrapped / HOP_PHASE;
    assert trueFreq * HOP_PHASE == phase - prev - turns * 2.0 * PI;
  }

  /** Bin `i` of the resynthesis spectrum, `mag · (cos φ, sin φ)`. */
  function BinValue(libm: Libm, mag: seq<real>, phase: seq<real>, i: nat): Complex
    requires |mag| == NUM_BINS && |phase| == NUM_BINS && i < NUM_BINS
  {
    Complex(mag[i] * libm.cos(phase[i]), mag[i] * libm.sin(phase[i]))
  }

  /** The full spectrum handed to the inverse transform: the non-negative bins,
      and each bin strictly between DC and Nyquist mirrored as its conjugate. */
  function Mirrored(libm: Libm, mag: seq<real>, phase: seq<real>): (r: seq<Complex>)
    requires |mag| == NUM_BINS && |phase| == NUM_BINS
    ensures |r| == FFT_SIZE
  {
    seq(FFT_SIZE, j requires 0 <= j < FFT_SIZE =>
      if j < NUM_BINS then BinValue(libm, mag, phase, j) else BinValue(libm, mag, phase, FFT_SIZE - j).Conj())
  }

  /** The spectrum is conjugate-symmetric, so a linear inverse transform of it
      is real; zero magnitudes give the zero spectrum. */
  lemma MirroredSymmetric(libm: Libm, mag: seq<real>, phase: seq<real>)
    requires |mag| == NUM_BINS && |phase| == NUM_BINS
    ensures forall j :: 0 < j < NUM_BINS - 1 ==> Mirrored(libm, mag, phase)[FFT_SIZE - j] == Mirrored(libm, mag, phase)[j].Conj()
    ensures (forall i :: 0 <= i < NUM_BINS ==> mag[i] == 0.0) ==> Mirrored(libm, mag, phase) == Zeros(FFT_SIZE)
  {
    var r := Mirrored(libm, mag, phase);
    if forall i :: 0 <= i < NUM_BINS ==> mag[i] == 0.0 {
      forall j | 0 <= j < FFT_SIZE
        ensures r[j] == ZERO
      {
        if j < NUM_BINS {
          assert r[j] == BinValue(libm, mag, phase, j);
        } else {
          assert r[j] == BinValue(libm, mag, phase, FFT_SIZE - j).Conj();
        }
      }
    }
  }

  /** Overlap-add: the first `FFT_SIZE` output samples gain the windowed,
      scaled real part of the inverse transform; the rest are kept. */
  function OverlapAdded(output: seq<real>, time: seq<Complex>, window: seq<real>): (r: seq<real>)
    requires |output| == RING_SIZE && |time| == FFT_SIZE && |window| == FFT_SIZE
    ensures |r| == RING_SIZE
    ensures r[FFT_SIZE..] == output[FFT_SIZE..]
  {
    var r := seq(RING_SIZE, j requires 0 <= j < RING_SIZE =>
      if j < FFT_SIZE then output[j] + time[j].re * window[j] * SCALE else output[j]);
    assert r[FFT_SIZE..] == output[FFT_SIZE..];
    r
  }

  /** The per-channel buffers a frame reads and updates. */
  datatype Channel = Channel(input: seq<real>, output: seq<real>, snapshot: Polar, prevPhase: seq<real>, synthPhase: seq<real>)

  predicate ChannelShaped(c: Channel) {
    |c.input| == FFT_SIZE && |c.output| == RING_SIZE && Bins(c.snapshot) &&
    |c.prevPhase| == NUM_BINS && |c.synthPhase| == NUM_BINS
  }

  /** A frame up to the inverse transform: the new snapshot and flag, the new
      vocoder phases and the spectrum to resynthesise. */
  datatype Synthesis = Synthesis(snapshot: Polar, frozen: bool, prevPhase: seq<real>, synthPhase: seq<real>, spectrum: seq<Complex>)

  function Synthesise(cfg: Config, c: Channel, frozen: bool, f: real, ratio: real): (r: Synthesis)
    requires ConfigOk(cfg) && ChannelShaped(c) && ratio > 0.0
    ensures Bins(r.snapshot) && |r.prevPhase| == NUM_BINS && |r.synthPhase| == NUM_BINS && |r.spectrum| == FFT_SIZE
    ensures r.frozen <==> f > 0.0
    ensures frozen || f <= 0.0 ==> r.snapshot == c.snapshot
    ensures f > 0.0 && !frozen ==> r.snapshot == Current(cfg, c.input)
  {
    var current := Current(cfg, c.input);
    var held := Freeze(f, frozen, c.snapshot, current);
    var blended := if f > 0.0 then Blend(f, current, held.0) else current;
    var shifted := Remap(blended, ratio);
    var phases := Vocoder(cfg.libm, c.prevPhase, c.synthPhase, shifted.phase, ratio);
    Synthesis(held.0, held.1, phases.0, phases.1, Mirrored(cfg.libm, shifted.mag, phases.1))
  }

  /** `process_frame`: the channel after one frame, and the new freeze flag.
      The input buffer is only read, and output samples from `FFT_SIZE` on
      are untouched. */
  function Frame(cfg: Config, c: Channel, frozen: bool, f: real, ratio: real): (r: (Channel, bool))
    requires ConfigOk(cfg) && ChannelShaped(c) && ratio > 0.0
    ensures ChannelShaped(r.0) && r.0.input == c.input
    ensures r.0.output[FFT_SIZE..] == c.output[FFT_SIZE..]
    ensures r.1 <==> f > 0.0
    ensures frozen || f <= 0.0 ==> r.0.snapshot == c.snapshot
    ensures f > 0.0 && !frozen ==> r.0.snapshot == Current(cfg, c.input)
  {
    var y := Synthesise(cfg, c, frozen, f, ratio);
    (Channel(c.input, OverlapAdded(c.output, Run(cfg.ifft, y.spectrum), cfg.window), y.snapshot, y.prevPhase, y.synthPhase),
     y.frozen)
  }

  // ---------------------------------------------------------------------------
  // The stream
  // ---------------------------------------------------------------------------

  /** Both channels, the input position and the shared freeze flag. */
  datatype Engine = Engine(left: Channel, right: Channel, inputPos: nat, frozen: bool)

  /** Between samples the position is either still filling the first hop or
      parked at `FFT_SIZE - HOP_SIZE`. */
  predicate EngineShaped(e: Engine) {
    ChannelShaped(e.left) && ChannelShaped(e.right) &&
    (e.inputPos < HOP_SIZE || e.inputPos == FFT_SIZE - HOP_SIZE)
  }

  /** The two frames of a hop. The left frame updates the engine's flag; the
      right one gets a copy of the flag taken after the left frame, and its
      own update is discarded. */
  function Hop(cfg: Config, e: Engine, f: real, ratio: real): (r: Engine)
    requires ConfigOk(cfg) && EngineShaped(e) && ratio > 0.0
    ensures EngineShaped(r) && r.inputPos == e.inputPos
  {
    var l := Frame(cfg, e.left, e.frozen, f, ratio);
    var r := Frame(cfg, e.right, l.1, f, ratio);
    Engine(l.0, r.0, e.inputPos, l.1)
  }

  /** The left channel captures its snapshot on the frame that arms the flag,
      but the right frame always sees the flag armed or the amount zero, so
      the right snapshot never changes. */
  lemma RightSnapshotKept(cfg: Config, e: Engine, f: real, ratio: real)
    requires ConfigOk(cfg) && EngineShaped(e) && ratio > 0.0
    ensures Hop(cfg, e, f, ratio).frozen <==> f > 0.0
    ensures f > 0.0 && !e.frozen ==> Hop(cfg, e, f, ratio).left.snapshot == Current(cfg, e.left.input)
    ensures Hop(cfg, e, f, ratio).right.snapshot == e.right.snapshot
  {
  }

  /** So with the right snapshot all zero, as `ensure_state` and `reset` leave
      it, a full freeze resynthesises silence on the right channel. */
  lemma RightSilentAtFullFreeze(cfg: Config, e: Engine, ratio: real)
    requires ConfigOk(cfg) && EngineShaped(e) && ratio > 0.0
    requires forall i :: 0 <= i < NUM_BINS ==> e.right.snapshot.mag[i] == 0.0
    ensures Synthesise(cfg, e.right, Frame(cfg, e.left, e.frozen, 1.0, ratio).1, 1.0, ratio).spectrum == Zeros(FFT_SIZE)
  {
    var c := e.right;
    var current := Current(cfg, c.input);
    var blended := Blend(1.0, current, c.snapshot);
    BlendBetween(1.0, current, c.snapshot);
    RemapSilent(blended, ratio);
    var shifted := Remap(blended, ratio);
    var phases := Vocoder(cfg.libm, c.prevPhase, c.synthPhase, shifted.phase, ratio);
    MirroredSymmetric(cfg.libm, shifted.mag, phases.1);
  }

  /** The input shift of a hop: `HOP_SIZE` samples out at the front; the last
      `HOP_SIZE` samples stay where they were. */
  function Slid(buffer: seq<real>): (r: seq<real>)
    requires |buffer| == FFT_SIZE
    ensures |r| == FFT_SIZE
    ensures r[..FFT_SIZE - HOP_SIZE] == buffer[HOP_SIZE..]
    ensures r[FFT_SIZE - HOP_SIZE..] == buffer[FFT_SIZE - HOP_SIZE..]
  {
    var r := seq(FFT_SIZE, j requires 0 <= j < FFT_SIZE => if j < FFT_SIZE - HOP_SIZE then buffer[j + HOP_SIZE] else buffer[j]);
    assert r[..FFT_SIZE - HOP_SIZE] == buffer[HOP_SIZE..];
    assert r[FFT_SIZE - HOP_SIZE..] == buffer[FFT_SIZE - HOP_SIZE..];
    r
  }

  /** One input sample: stored at the position, which advances; once a full
      hop is in, the input slides, the position parks at `FFT_SIZE - HOP_SIZE`
      and both frames run. */
  function Sample(cfg: Config, e: Engine, xl: real, xr: real, f: real, ratio: real): (r: Engine)
    requires ConfigOk(cfg) && EngineShaped(e) && ratio > 0.0
    ensures EngineShaped(r)
    ensures r.inputPos == if e.inputPos + 1 >= HOP_SIZE then FFT_SIZE - HOP_SIZE else e.inputPos + 1
  {
    var pos := e.inputPos;
    var l := e.left.(input := e.left.input[pos := xl]);
    var r := e.right.(input := e.right.input[pos := xr]);
    if pos + 1 >= HOP_SIZE then
      Hop(cfg, Engine(l.(input := Slid(l.input)), r.(input := Slid(r.input)), FFT_SIZE - HOP_SIZE, e.frozen), f, ratio)
    else Engine(l, r, pos + 1, e.frozen)
  }

  /** Before the first hop a sample only fills the input; once the position is
      parked every sample runs a frame, and the frame sees the new sample twice,
      at `FFT_SIZE - 2 · HOP_SIZE` and at `FFT_SIZE - HOP_SIZE`. */
  lemma SampleStages(cfg: Config, e: Engine, xl: real, xr: real, f: real, ratio: real)
    requires ConfigOk(cfg) && EngineShaped(e) && ratio > 0.0
    ensures e.inputPos + 1 < HOP_SIZE ==>
      Sample(cfg, e, xl, xr, f, ratio).left == e.left.(input := e.left.input[e.inputPos := xl]) &&
      Sample(cfg, e, xl, xr, f, ratio).right == e.right.(input := e.right.input[e.inputPos := xr])
    ensures e.inputPos == FFT_SIZE - HOP_SIZE ==>
      var input := Sample(cfg, e, xl, xr, f, ratio).left.input;
      input[FFT_SIZE - 2 * HOP_SIZE] == xl && input[FFT_SIZE - HOP_SIZE] == xl
  {
    if e.inputPos == FFT_SIZE - HOP_SIZE {
      var written := e.left.input[e.inputPos := xl];
      assert Slid(written)[FFT_SIZE - 2 * HOP_SIZE] == written[FFT_SIZE - HOP_SIZE];
      assert Slid(written)[FFT_SIZE - HOP_SIZE] == written[FFT_SIZE - HOP_SIZE];
    }
  }

  /** The per-sample loop of `process` over `n` samples: the engine after it,
      and the output samples, sample `i` read at index `i` of each output
      buffer after the step that received input `i`. */
  function Block(cfg: Config, e: Engine, xl: seq<real>, xr: seq<real>, f: real, ratio: real, n: nat): (r: (Engine, seq<real>, seq<real>))
    requires ConfigOk(cfg) && EngineShaped(e) && ratio > 0.0
    requires n <= |xl| && n <= |xr| && n <= RING_SIZE
    ensures EngineShaped(r.0) && |r.1| == n && |r.2| == n
    decreases n
  {
    if n == 0 then (e, [], [])
    else
      var b := Block(cfg, e, xl, xr, f, ratio, n - 1);
      var s := Sample(cfg, b.0, xl[n - 1], xr[n - 1], f, ratio);
      (s, b.1 + [s.left.output[n - 1]], b.2 + [s.right.output[n - 1]])
  }

  /** Where the input position is after `n` samples from `pos`. */
  function PositionAfter(pos: nat, n: nat): nat {
    if n == 0 then pos else if pos + n < HOP_SIZE then pos + n else FFT_SIZE - HOP_SIZE
  }

  /** The position counts up through the first hop and then stays parked,
      so every sample after the first `HOP_SIZE` runs a frame. */
  lemma {:induction false} BlockPosition(cfg: Config, e: Engine, xl: seq<real>, xr: seq<real>, f: real, ratio: real, n: nat)
    requires ConfigOk(cfg) && EngineShaped(e) && ratio > 0.0
    requires n <= |xl| && n <= |xr| && n <= RING_SIZE
    ensures Block(cfg, e, xl, xr, f, ratio, n).0.inputPos == PositionAfter(e.inputPos, n)
    decreases n
  {
    if n > 0 {
      BlockPosition(cfg, e, xl, xr, f, ratio, n - 1);
    }
  }

  /** The output shift after a block of `shift` samples, on both channels. */
  function Drained(e: Engine, shift: nat): (r: Engine)
    requires EngineShaped(e) && shift <= RING_SIZE
    ensures EngineShaped(r)
  {
    e.(left := e.left.(output := Convolution.Shifted(e.left.output, shift)),
       right := e.right.(output := Convolution.Shifted(e.right.output, shift)))
  }

  /** A zeroed buffer, as `vec![0.0; n]` and `fill(0.0)` leave it. */
  function Silence(n: nat): (r: seq<real>)
    ensures |r| == n && forall i :: 0 <= i < n ==> r[i] == 0.0
  {
    seq(n, _ => 0.0)
  }

  /** The state `ensure_state` creates and `reset` restores. */
  function Fresh(): (e: Engine)
    ensures EngineShaped(e) && !e.frozen
  {
    var silent := Channel(Silence(FFT_SIZE), Silence(RING_SIZE), Polar(Silence(NUM_BINS), Silence(NUM_BINS)),
                          Silence(NUM_BINS), Silence(NUM_BINS));
    Engine(silent, silent, 0, false)
  }

  // ---------------------------------------------------------------------------
  // Imperative state
  // ---------------------------------------------------------------------------

  /** The window loop of `ensure_state`. */
  method HannWindow(libm: Libm) returns (window: seq<real>)
    ensures window == Hann(libm)
  {
    window := Silence(FFT_SIZE);
    var i := 0;
    while i < FFT_SIZE
      invariant 0 <= i <= FFT_SIZE && |window| == FFT_SIZE
      invariant forall k :: 0 <= k < i ==> window[k] == Hann(libm)[k]
    {
      window := window[i := 0.5 - 0.5 * libm.cos(2.0 * PI * i as real / FFT_SIZE as real)];
      i := i + 1;
    }
  }

  /** The windowing loop of `process_frame`, over the old FFT buffer. */
  method WindowInto(input: seq<real>, window: seq<real>, buffer: seq<Complex>) returns (r: seq<Complex>)
    requires |input| == FFT_SIZE && |window| == FFT_SIZE && |buffer| == FFT_SIZE
    ensures r == Windowed(input, window)
  {
    r := buffer;
    var i := 0;
    while i < FFT_SIZE
      invariant 0 <= i <= FFT_SIZE && |r| == FFT_SIZE
      invariant forall k :: 0 <= k < i ==> r[k] == Windowed(input, window)[k]
    {
      r := r[i := Complex(input[i] * window[i], 0.0)];
      i := i + 1;
    }
  }

  /** The magnitude and phase loop of `process_frame`. */
  method Analyse(libm: Libm, spectrum: seq<Complex>) returns (current: Polar)
    requires |spectrum| == FFT_SIZE
    ensures current == Analysed(libm, spectrum)
  {
    var mag := Silence(NUM_BINS);
    var phase := Silence(NUM_BINS);
    var i := 0;
    while i < NUM_BINS
      invariant 0 <= i <= NUM_BINS && |mag| == NUM_BINS && |phase| == NUM_BINS
      invariant forall k :: 0 <= k < i ==> mag[k] == Analysed(libm, spectrum).mag[k]
      invariant forall k :: 0 <= k < i ==> phase[k] == Analysed(libm, spectrum).phase[k]
    {
      mag := mag[i := Magnitude(libm, spectrum[i])];
      phase := phase[i := libm.atan2(spectrum[i].im, spectrum[i].re)];
      i := i + 1;
    }
    current := Polar(mag, phase);
  }

  /** The freeze step of `process_frame`: the snapshot and flag it leaves,
      and the spectrum it hands on, blended while the amount is positive. */
  method Hold(f: real, frozen: bool, snapshot: Polar, current: Polar) returns (held: Polar, armed: bool, blended: Polar)
    requires Bins(snapshot) && Bins(current)
    ensures (held, armed) == Freeze(f, frozen, snapshot, current)
    ensures blended == if f > 0.0 then Blend(f, current, held) else current
  {
    held, armed, blended := snapshot, frozen, current;
    if f > 0.0 {
      if !armed {
        held := current;
        armed := true;
      }
      var mag, phase := current.mag, current.phase;
      var i := 0;
      while i < NUM_BINS
        invariant 0 <= i <= NUM_BINS && |mag| == NUM_BINS && |phase| == NUM_BINS
        invariant forall k :: 0 <= k < i ==> mag[k] == Blend(f, current, held).mag[k]
        invariant forall k :: 0 <= k < i ==> phase[k] == Blend(f, current, held).phase[k]
        invariant forall k :: i <= k < NUM_BINS ==> mag[k] == current.mag[k] && phase[k] == current.phase[k]
      {
        mag := mag[i := mag[i] * (1.0 - f) + held.mag[i] * f];
        phase := phase[i := phase[i] * (1.0 - f * 0.9) + held.phase[i] * f * 0.9];
        i := i + 1;
      }
      blended := Polar(mag, phase);
    } else {
      armed := false;
    }
  }

  /** The frequency-shift step of `process_frame`. */
  method Shift(x: Polar, ratio: real) returns (r: Polar)
    requires Bins(x) && ratio > 0.0
    ensures r == Remap(x, ratio)
  {
    if Abs(ratio - 1.0) > SHIFT_TOLERANCE {
      var mag := Silence(NUM_BINS);
      var phase := Silence(NUM_BINS);
      var i := 0;
      while i < NUM_BINS
        invariant 0 <= i <= NUM_BINS && |mag| == NUM_BINS && |phase| == NUM_BINS
        invariant forall k :: 0 <= k < i ==> mag[k] == RemapBin(x, ratio, k).0 && phase[k] == RemapBin(x, ratio, k).1
        invariant forall k :: i <= k < NUM_BINS ==> mag[k] == 0.0 && phase[k] == 0.0
      {
        var src := i as real / ratio;
        var k := AsIndex(src);
        var frac := src - k as real;
        if k < NUM_BINS - 1 {
          mag := mag[i := x.mag[k] * (1.0 - frac) + x.mag[k + 1] * frac];
          var p1 := x.phase[k];
          var p2 := x.phase[k + 1];
          phase := phase[i := p1 + (p2 - p1) * frac];
        } else if k < NUM_BINS {
          mag := mag[i := x.mag[k]];
          phase := phase[i := x.phase[k]];
        }
        i := i + 1;
      }
      r := Polar(mag, phase);
    } else {
      r := x;
    }
  }

  /** The phase-vocoder loop of `process_frame`. */
  method Accumulate(libm: Libm, prev: seq<real>, synth: seq<real>, phase: seq<real>, ratio: real)
    returns (newPrev: seq<real>, newSynth: seq<real>)
    requires |prev| == NUM_BINS && |synth| == NUM_BINS && |phase| == NUM_BINS
    ensures (newPrev, newSynth) == Vocoder(libm, prev, synth, phase, ratio)
  {
    newPrev, newSynth := prev, synth;
    var i := 0;
    while i < NUM_BINS
      invariant 0 <= i <= NUM_BINS && |newPrev| == NUM_BINS && |newSynth| == NUM_BINS
      invariant forall k :: 0 <= k < i ==> newPrev[k] == phase[k]
      invariant forall k :: 0 <= k < i ==> newSynth[k] == Advance(libm, prev[k], synth[k], phase[k], k, ratio)
      invariant forall k :: i <= k < NUM_BINS ==> newPrev[k] == prev[k] && newSynth[k] == synth[k]
    {
      var expected := newPrev[i] + i as real * HOP_PHASE;
      var diff := phase[i] - expected;
      var wrapped := diff - libm.round(diff / (2.0 * PI)) * 2.0 * PI;
      var trueFreq := i as real + wrapped / HOP_PHASE;
      newSynth := newSynth[i := newSynth[i] + trueFreq * HOP_PHASE * ratio];
      newPrev := newPrev[i := phase[i]];
      i := i + 1;
    }
    assert newPrev == phase;
    assert newSynth == Vocoder(libm, prev, synth, phase, ratio).1;
  }

  /** The reconstruction loop of `process_frame`: every slot of the IFFT
      buffer is written, so the old contents do not matter. */
  method Reconstruct(libm: Libm, mag: seq<real>, phase: seq<real>, buffer: seq<Complex>) returns (r: seq<Complex>)
    requires |mag| == NUM_BINS && |phase| == NUM_BINS && |buffer| == FFT_SIZE
    ensures r == Mirrored(libm, mag, phase)
  {
    r := buffer;
    var i := 0;
    while i < NUM_BINS
      invariant 0 <= i <= NUM_BINS && |r| == FFT_SIZE
      invariant forall k :: 0 <= k < i ==> r[k] == Mirrored(libm, mag, phase)[k]
      invariant forall j :: FFT_SIZE - MinNat(i, NUM_BINS - 1) < j < FFT_SIZE ==> r[j] == Mirrored(libm, mag, phase)[j]
    {
      r := r[i := Complex(mag[i] * libm.cos(phase[i]), mag[i] * libm.sin(phase[i]))];
      assert r[i] == Mirrored(libm, mag, phase)[i];
      if i > 0 && i < NUM_BINS - 1 {
        r := r[FFT_SIZE - i := r[i].Conj()];
        assert r[FFT_SIZE - i] == Mirrored(libm, mag, phase)[FFT_SIZE - i];
      }
      i := i + 1;
    }
  }

  /** The overlap-add loop of `process_frame`. */
  method AddFrame(output: seq<real>, time: seq<Complex>, window: seq<real>) returns (r: seq<real>)
    requires |output| == RING_SIZE && |time| == FFT_SIZE && |window| == FFT_SIZE
    ensures r == OverlapAdded(output, time, window)
  {
    r := output;
    var i := 0;
    while i < FFT_SIZE
      invariant 0 <= i <= FFT_SIZE && |r| == RING_SIZE
      invariant forall k :: 0 <= k < i ==> r[k] == OverlapAdded(output, time, window)[k]
      invariant forall k :: i <= k < RING_SIZE ==> r[k] == output[k]
    {
      r := r[i := r[i] + time[i].re * window[i] * SCALE];
      i := i + 1;
    }
  }

  /** `process_frame` on one channel's buffers. The FFT and IFFT buffers are
      scratch: they come back with the transforms' outputs, which nothing
      reads before the next frame overwrites them. */
  method ProcessFrame(cfg: Config, c: Channel, fftBuffer: seq<Complex>, ifftBuffer: seq<Complex>, frozen: bool, f: real, ratio: real)
    returns (next: Channel, fftOut: seq<Complex>, ifftOut: seq<Complex>, armed: bool)
    requires ConfigOk(cfg) && ChannelShaped(c) && ratio > 0.0
    requires |fftBuffer| == FFT_SIZE && |ifftBuffer| == FFT_SIZE
    ensures (next, armed) == Frame(cfg, c, frozen, f, ratio)
    ensures |fftOut| == FFT_SIZE && |ifftOut| == FFT_SIZE
  {
    var windowed := WindowInto(c.input, cfg.window, fftBuffer);
    fftOut := Run(cfg.fft, windowed);
    var current := Analyse(cfg.libm, fftOut);
    var held, blended;
    held, armed, blended := Hold(f, frozen, c.snapshot, current);
    var shifted := Shift(blended, ratio);
    var prev, synth := Accumulate(cfg.libm, c.prevPhase, c.synthPhase, shifted.phase, ratio);
    var spectrum := Reconstruct(cfg.libm, shifted.mag, synth, ifftBuffer);
    ifftOut := Run(cfg.ifft, spectrum);
    var output := AddFrame(c.output, ifftOut, cfg.window);
    next := Channel(c.input, output, held, prev, synth);
  }

  /** The output-shift loops of `process`: both buffers move left by
      `shift` and their last `shift` samples are zeroed. */
  method ShiftRings(ringL: seq<real>, ringR: seq<real>, shift: nat) returns (l: seq<real>, r: seq<real>)
    requires |ringL| == RING_SIZE && |ringR| == RING_SIZE && shift <= RING_SIZE
    ensures l == Convolution.Shifted(ringL, shift) && r == Convolution.Shifted(ringR, shift)
  {
    l, r := ringL, ringR;
    var j := 0;
    while j < |l| - shift
      invariant 0 <= j <= RING_SIZE - shift && |l| == RING_SIZE && |r| == RING_SIZE
      invariant forall k :: 0 <= k < j ==> l[k] == ringL[k + shift] && r[k] == ringR[k + shift]
      invariant forall k :: j <= k < RING_SIZE ==> l[k] == ringL[k] && r[k] == ringR[k]
    {
      l := l[j := l[j + shift]];
      r := r[j := r[j + shift]];
      j := j + 1;
    }
    while j < |l|
      invariant RING_SIZE - shift <= j <= RING_SIZE && |l| == RING_SIZE && |r| == RING_SIZE
      invariant forall k :: 0 <= k < RING_SIZE - shift ==> l[k] == ringL[k + shift] && r[k] == ringR[k + shift]
      invariant forall k :: RING_SIZE - shift <= k < j ==> l[k] == 0.0 && r[k] == 0.0
    {
      l := l[j := 0.0];
      r := r[j := 0.0];
      j := j + 1;
    }
    assert l == Convolution.Shifted(ringL, shift);
    assert r == Convolution.Shifted(ringR, shift);
  }

  /** The engine's state. The `Vec` buffers are sequences the methods
      reassign; the transforms are those the planner returns for `FFT_SIZE`,
      and `initialized` is set on creation and never read. */
  class SpectralState {
    var inputBufferL: seq<real>
    var inputBufferR: seq<real>
    var outputBufferL: seq<real>
    var outputBufferR: seq<real>
    var inputPos: nat
    var fftBuffer: seq<Complex>
    var ifftBuffer: seq<Complex>
    var frozenMagL: seq<real>
    var frozenMagR: seq<real>
    var frozenPhaseL: seq<real>
    var frozenPhaseR: seq<real>
    var prevPhaseL: seq<real>
    var prevPhaseR: seq<real>
    var synthPhaseL: seq<real>
    var synthPhaseR: seq<real>
    const window: seq<real>
    var isFrozen: bool
    var initialized: bool
    const fft: Transform
    const ifft: Transform
    const libm: Libm

    function Left(): Channel
      reads this
    {
      Channel(inputBufferL, outputBufferL, Polar(frozenMagL, frozenPhaseL), prevPhaseL, synthPhaseL)
    }

    function Right(): Channel
      reads this
    {
      Channel(inputBufferR, outputBufferR, Polar(frozenMagR, frozenPhaseR), prevPhaseR, synthPhaseR)
    }

    function Abstract(): Engine
      reads this
    {
      Engine(Left(), Right(), inputPos, isFrozen)
    }

    function Cfg(): Config {
      Config(window, fft, ifft, libm)
    }

    /** The buffer sizes; `input_pos` may momentarily be past its range
        inside `process`. */
    ghost predicate Shaped()
      reads this
    {
      ChannelShaped(Left()) && ChannelShaped(Right()) && ConfigOk(Cfg()) &&
      |fftBuffer| == FFT_SIZE && |ifftBuffer| == FFT_SIZE && initialized
    }

    ghost predicate Valid()
      reads this
    {
      Shaped() && EngineShaped(Abstract())
    }

    /** The left channel's buffers set to `c`; nothing else changes. */
    method StoreLeft(c: Channel)
      modifies this
      ensures Left() == c
      ensures unchanged(`inputBufferR, `outputBufferR, `frozenMagR, `frozenPhaseR, `prevPhaseR, `synthPhaseR)
      ensures unchanged(`inputPos, `isFrozen, `fftBuffer, `ifftBuffer, `initialized)
    {
      inputBufferL, outputBufferL, frozenMagL, frozenPhaseL, prevPhaseL, synthPhaseL :=
        c.input, c.output, c.snapshot.mag, c.snapshot.phase, c.prevPhase, c.synthPhase;
    }

    /** The right channel's buffers set to `c`; nothing else changes. */
    method StoreRight(c: Channel)
      modifies this
      ensures Right() == c
      ensures unchanged(`inputBufferL, `outputBufferL, `frozenMagL, `frozenPhaseL, `prevPhaseL, `synthPhaseL)
      ensures unchanged(`inputPos, `isFrozen, `fftBuffer, `ifftBuffer, `initialized)
    {
      inputBufferR, outputBufferR, frozenMagR, frozenPhaseR, prevPhaseR, synthPhaseR :=
        c.input, c.output, c.snapshot.mag, c.snapshot.phase, c.prevPhase, c.synthPhase;
    }

    /** What `ensure_state` creates: the Hann window and zeroed buffers. */
    constructor (forward: Transform, inverse: Transform, functions: Libm)
      ensures Valid() && Abstract() == Fresh()
      ensures window == Hann(functions) && fft == forward && ifft == inverse && libm == functions
      ensures fftBuffer == Zeros(FFT_SIZE) && ifftBuffer == Zeros(FFT_SIZE)
    {
      var w := HannWindow(functions);
      inputBufferL := Silence(FFT_SIZE);
      inputBufferR := Silence(FFT_SIZE);
      outputBufferL := Silence(RING_SIZE);
      outputBufferR := Silence(RING_SIZE);
      inputPos := 0;
      fftBuffer := Zeros(FFT_SIZE);
      ifftBuffer := Zeros(FFT_SIZE);
      frozenMagL := Silence(NUM_BINS);
      frozenMagR := Silence(NUM_BINS);
      frozenPhaseL := Silence(NUM_BINS);
      frozenPhaseR := Silence(NUM_BINS);
      prevPhaseL := Silence(NUM_BINS);
      prevPhaseR := Silence(NUM_BINS);
      synthPhaseL := Silence(NUM_BINS);
      synthPhaseR := Silence(NUM_BINS);
      window := w;
      isFrozen := false;
      initialized := true;
      fft := forward;
      ifft := inverse;
      libm := functions;
    }

    /** The input shift of a hop, on both channels. */
    method Slide()
      requires Shaped()
      modifies this
      ensures Shaped()
      ensures Abstract() == old(Abstract()).(left := old(Left()).(input := Slid(old(inputBufferL))),
                                             right := old(Right()).(input := Slid(old(inputBufferR))))
      ensures fftBuffer == old(fftBuffer) && ifftBuffer == old(ifftBuffer)
    {
      ghost var bufferL, bufferR := inputBufferL, inputBufferR;
      var j := 0;
      while j < FFT_SIZE - HOP_SIZE
        invariant 0 <= j <= FFT_SIZE - HOP_SIZE && |inputBufferL| == FFT_SIZE && |inputBufferR| == FFT_SIZE
        invariant forall k :: 0 <= k < j ==> inputBufferL[k] == bufferL[k + HOP_SIZE] && inputBufferR[k] == bufferR[k + HOP_SIZE]
        invariant forall k :: j <= k < FFT_SIZE ==> inputBufferL[k] == bufferL[k] && inputBufferR[k] == bufferR[k]
        invariant unchanged(`outputBufferL, `outputBufferR, `inputPos, `fftBuffer, `ifftBuffer, `isFrozen, `initialized)
        invariant unchanged(`frozenMagL, `frozenMagR, `frozenPhaseL, `frozenPhaseR)
        invariant unchanged(`prevPhaseL, `prevPhaseR, `synthPhaseL, `synthPhaseR)
      {
        inputBufferL := inputBufferL[j := inputBufferL[j + HOP_SIZE]];
        inputBufferR := inputBufferR[j := inputBufferR[j + HOP_SIZE]];
        j := j + 1;
      }
      assert inputBufferL == Slid(bufferL);
      assert inputBufferR == Slid(bufferR);
    }

    /** The frames of a hop: the left one with the engine's flag, the right
        one with `is_frozen_dummy`, a copy taken after the left frame. */
    method RunHop(f: real, ratio: real)
      requires Valid() && ratio > 0.0
      modifies this
      ensures Valid() && Abstract() == Hop(Cfg(), old(Abstract()), f, ratio)
    {
      var cfg := Cfg();
      var l, fb, ib, armed := ProcessFrame(cfg, Left(), fftBuffer, ifftBuffer, isFrozen, f, ratio);
      StoreLeft(l);
      fftBuffer, ifftBuffer, isFrozen := fb, ib, armed;
      var isFrozenDummy := isFrozen;
      var r, fb', ib', _ := ProcessFrame(cfg, Right(), fftBuffer, ifftBuffer, isFrozenDummy, f, ratio);
      StoreRight(r);
      fftBuffer, ifftBuffer := fb', ib';
    }

    /** One pass of the per-sample loop of `process` before the output read:
        store the sample, advance, and run a hop once a full hop is in. */
    method Receive(xl: real, xr: real, f: real, ratio: real)
      requires Valid() && ratio > 0.0
      modifies this
      ensures Valid() && Abstract() == Sample(Cfg(), old(Abstract()), xl, xr, f, ratio)
    {
      inputBufferL := inputBufferL[inputPos := xl];
      inputBufferR := inputBufferR[inputPos := xr];
      inputPos := inputPos + 1;
      if inputPos >= HOP_SIZE {
        Slide();
        inputPos := FFT_SIZE - HOP_SIZE;
        RunHop(f, ratio);
      }
    }

    /** One whole pass of the per-sample loop: `Receive`, then output sample
        `idx` read from index `idx` of each output buffer. */
    method AdvanceBlock(inputL: array<real>, inputR: array<real>, outputL: array<real>, outputR: array<real>,
                        n: nat, idx: nat, f: real, ratio: real, ghost e0: Engine)
      requires Valid() && ratio > 0.0 && EngineShaped(e0)
      requires outputL != outputR && inputL != outputL && inputL != outputR && inputR != outputL && inputR != outputR
      requires idx < n <= RING_SIZE && n <= inputL.Length && n <= inputR.Length && n <= outputL.Length && n <= outputR.Length
      requires var b := Block(Cfg(), e0, inputL[..n], inputR[..n], f, ratio, idx);
        Abstract() == b.0 && outputL[..idx] == b.1 && outputR[..idx] == b.2
      modifies this, outputL, outputR
      ensures Valid()
      ensures var b := Block(Cfg(), e0, inputL[..n], inputR[..n], f, ratio, idx + 1);
        Abstract() == b.0 && outputL[..idx + 1] == b.1 && outputR[..idx + 1] == b.2
      ensures forall k :: 0 <= k < outputL.Length && k != idx ==> outputL[k] == old(outputL[k])
      ensures forall k :: 0 <= k < outputR.Length && k != idx ==> outputR[k] == old(outputR[k])
    {
      ghost var beforeL, beforeR := outputL[..idx], outputR[..idx];
      Receive(inputL[idx], inputR[idx], f, ratio);
      outputL[idx] := outputBufferL[idx];
      outputR[idx] := outputBufferR[idx];
      assert outputL[..idx + 1] == beforeL + [outputBufferL[idx]];
      assert outputR[..idx + 1] == beforeR + [outputBufferR[idx]];
    }

    /** The per-sample loop of `process` over a block of `n` samples. */
    method RunBlock(inputL: array<real>, inputR: array<real>, outputL: array<real>, outputR: array<real>,
                    n: nat, f: real, ratio: real)
      requires Valid() && ratio > 0.0
      requires outputL != outputR && inputL != outputL && inputL != outputR && inputR != outputL && inputR != outputR
      requires n <= RING_SIZE && n <= inputL.Length && n <= inputR.Length && n <= outputL.Length && n <= outputR.Length
      modifies this, outputL, outputR
      ensures Valid()
      ensures var b := Block(Cfg(), old(Abstract()), inputL[..n], inputR[..n], f, ratio, n);
        Abstract() == b.0 && outputL[..n] == b.1 && outputR[..n] == b.2
      ensures forall k :: n <= k < outputL.Length ==> outputL[k] == old(outputL[k])
      ensures forall k :: n <= k < outputR.Length ==> outputR[k] == old(outputR[k])
    {
      ghost var e0 := Abstract();
      var idx := 0;
      while idx < n
        invariant 0 <= idx <= n && Valid()
        invariant var b := Block(Cfg(), e0, inputL[..n], inputR[..n], f, ratio, idx);
          Abstract() == b.0 && outputL[..idx] == b.1 && outputR[..idx] == b.2
        invariant forall k :: n <= k < outputL.Length ==> outputL[k] == old(outputL[k])
        invariant forall k :: n <= k < outputR.Length ==> outputR[k] == old(outputR[k])
      {
        AdvanceBlock(inputL, inputR, outputL, outputR, n, idx, f, ratio, e0);
        idx := idx + 1;
      }
    }

    /** The output shift at the end of `process`. */
    method DrainOutput(shift: nat)
      requires Valid() && shift <= RING_SIZE
      modifies this
      ensures Valid() && Abstract() == Drained(old(Abstract()), shift)
    {
      var ringL, ringR := ShiftRings(outputBufferL, outputBufferR, shift);
      outputBufferL, outputBufferR := ringL, ringR;
    }

    /** `process`: the amount is clamped to [0, 1] and the shift to two
        octaves; every sample of the block is received and read back, then
        the output buffers shift by the block size. Output samples past the
        block are kept. */
    method Process(arena: Memory.Arena, freezeAmount: real, shift: real)
      requires Valid() && arena.Valid() && arena.attached
      requires ShiftRatio(libm, shift) > 0.0
      modifies this, arena.outputL, arena.outputR
      ensures Valid()
      ensures var n := arena.SliceLen();
        var b := Block(Cfg(), old(Abstract()), arena.inputL[..n], arena.inputR[..n],
                       Clamp(freezeAmount, 0.0, 1.0), ShiftRatio(libm, shift), n);
        Abstract() == Drained(b.0, n) && arena.outputL[..n] == b.1 && arena.outputR[..n] == b.2
      ensures forall k :: arena.SliceLen() <= k < arena.outputL.Length ==> arena.outputL[k] == old(arena.outputL[k])
      ensures forall k :: arena.SliceLen() <= k < arena.outputR.Length ==> arena.outputR[k] == old(arena.outputR[k])
    {
      var f := Clamp(freezeAmount, 0.0, 1.0);
      var clamped := Clamp(shift, -24.0, 24.0);
      var ratio := libm.exp2(clamped / 12.0);
      var bufferSize := arena.BufferSize() as nat;
      RunBlock(arena.inputL, arena.inputR, arena.outputL, arena.outputR, bufferSize, f, ratio);
      DrainOutput(bufferSize);
    }

    /** `reset`: every buffer except the window and the FFT scratch is
        zeroed, the position rewinds and the flag clears, which is the state
        `ensure_state` creates. */
    method Reset()
      requires Valid()
      modifies this
      ensures Valid() && Abstract() == Fresh()
      ensures fftBuffer == old(fftBuffer) && ifftBuffer == old(ifftBuffer)
    {
      var zero := Fresh();
      StoreLeft(zero.left);
      StoreRight(zero.right);
      inputPos := 0;
      isFrozen := false;
    }
  }
}
