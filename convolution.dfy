/** The partitioned overlap-add convolution reverb of convolution.rs.

    The impulse response is cut into partitions of `BLOCK` samples, each
    zero-padded to `FFT_SIZE` and transformed once at load time. Input is
    gathered block by block; every full block is transformed, stored in a
    frequency-domain delay line (FDL, a ring of spectra indexed modulo the
    partition count), multiplied with every partition against the matching
    older spectrum, summed, transformed back and added into an overlap
    buffer. The forward and inverse FFTs are uninterpreted functions.

    The per-sample behaviour is specified on values: `Stream` is the state of
    both channels, `Feed` consumes input samples, and `ConvolutionState.Process`
    is proved to compute `Feed` followed by the output mix and the overlap
    shift. */
module Convolution {
  import opened Ints
  import opened Utils
  import opened Foreign
  import Memory

  const FFT_SIZE: nat := 512

  /** `FFT_SIZE / 2`: the input block and partition length. */
  const BLOCK: nat := 256

  /** `48000 * 5`: at most five seconds of impulse response at 48 kHz. */
  const MAX_IR_SAMPLES: nat := 240000

  /** `MAX_IR_SAMPLES / BLOCK`, rounded down. */
  const MAX_PARTITIONS: nat := 937

  /** `1.0 / FFT_SIZE`: the inverse transform's normalisation. */
  const SCALE: real := 1.0 / 512.0

  // ---------------------------------------------------------------------------
  // Partitions
  // ---------------------------------------------------------------------------

  /** `((length as usize) + BLOCK - 1) / BLOCK` capped at `MAX_PARTITIONS`, with
      the 32-bit addition wrapping as it does on wasm32. */
  function PartitionCount(length: u32): (n: nat)
    ensures n <= MAX_PARTITIONS
    ensures length + BLOCK - 1 < U32_MODULUS ==> n == MinNat((length + BLOCK - 1) / BLOCK, MAX_PARTITIONS)
  {
    MinNat(Wrap(length + BLOCK - 1) / BLOCK, MAX_PARTITIONS)
  }

  /** Below the cap the partitions cover the response exactly: the last one
      starts before its end and the count is the least that reaches it. */
  lemma {:induction false} PartitionsCover(length: u32)
    requires 0 < length <= MAX_PARTITIONS * BLOCK
    ensures var n := PartitionCount(length);
      n >= 1 && (n - 1) * BLOCK < length <= n * BLOCK
  {
  }

  /** Past the cap only the first `MAX_PARTITIONS` blocks are used. */
  lemma {:induction false} PartitionsCapped(length: u32)
    requires MAX_PARTITIONS * BLOCK < length <= U32_MODULUS - BLOCK
    ensures PartitionCount(length) == MAX_PARTITIONS
  {
  }

  /** How many response frames the partitions read. */
  function ReadFrames(length: u32): (r: nat)
    ensures r <= length && r <= MAX_PARTITIONS * BLOCK
  {
    MinNat(length, PartitionCount(length) * BLOCK)
  }

  /** The reads of `load_ir` stay inside the response slice: two samples per
      frame for stereo, one otherwise. */
  predicate IrReadable(irLen: nat, length: u32, channels: u32) {
    if channels == 2 then 2 * ReadFrames(length) <= irLen else ReadFrames(length) <= irLen
  }

  /** Response frame `idx`: the average of both channels for stereo, the sample
      itself for any other channel count. */
  function IrSample(ir: seq<real>, length: u32, channels: u32, idx: nat): real
    requires IrReadable(|ir|, length, channels) && idx < ReadFrames(length)
  {
    if channels == 2 then (ir[idx * 2] + ir[idx * 2 + 1]) * 0.5 else ir[idx]
  }

  /** The time-domain content of partition `p` before its transform: frames
      `[p * BLOCK, p * BLOCK + BLOCK)` that lie inside the response, then zeros
      up to `FFT_SIZE`. */
  function PartitionSamples(ir: seq<real>, length: u32, channels: u32, p: nat): (r: seq<real>)
    requires IrReadable(|ir|, length, channels) && p < PartitionCount(length)
    ensures |r| == FFT_SIZE
    ensures forall i :: BLOCK <= i < FFT_SIZE ==> r[i] == 0.0
    ensures forall i :: 0 <= i < BLOCK && p * BLOCK + i >= length ==> r[i] == 0.0
    ensures forall i :: 0 <= i < BLOCK && p * BLOCK + i < length ==>
      r[i] == IrSample(ir, length, channels, p * BLOCK + i)
  {
    seq(FFT_SIZE, i requires 0 <= i < FFT_SIZE =>
      if i < BLOCK && p * BLOCK + i < length then IrSample(ir, length, channels, p * BLOCK + i) else 0.0)
  }

  /** Real samples as complex values with zero imaginary part. */
  function Complexified(xs: seq<real>): (r: seq<Complex>)
    ensures |r| == |xs| && forall i :: 0 <= i < |xs| ==> r[i] == Complex(xs[i], 0.0)
  {
    seq(|xs|, i requires 0 <= i < |xs| => Complex(xs[i], 0.0))
  }

  /** Every spectrum in `xs` has `FFT_SIZE` bins. */
  predicate Spectra(xs: seq<seq<Complex>>) {
    forall k :: 0 <= k < |xs| ==> |xs[k]| == FFT_SIZE
  }

  function ZeroSpectra(n: nat): (r: seq<seq<Complex>>)
    ensures |r| == n && Spectra(r)
    ensures forall k :: 0 <= k < n ==> r[k] == Zeros(FFT_SIZE)
  {
    seq(n, _ => Zeros(FFT_SIZE))
  }

  // ---------------------------------------------------------------------------
  // The frequency-domain delay line
  // ---------------------------------------------------------------------------

  /** The FDL slot partition `p` is paired with: `p` slots behind `pos`,
      wrapping around the ring. */
  function FdlSlot(pos: nat, n: nat, p: nat): (k: nat)
    requires pos < n && p < n
    ensures k < n
    ensures p == 0 ==> k == pos
  {
    if p <= pos then pos - p else pos + n - p
  }

  /** It is the index `(fdl_pos + num_partitions - p) % num_partitions` the
      source computes. */
  lemma {:induction false} FdlSlotIsMod(pos: nat, n: nat, p: nat)
    requires pos < n && p < n
    ensures FdlSlot(pos, n, p) == (pos + n - p) % n
  {
    if p <= pos {
      DivModUnique(pos + n - p, n, 1, pos - p);
    } else {
      DivModUnique(pos + n - p, n, 0, pos + n - p);
    }
  }

  /** Different partitions read different slots, so each partition meets
      exactly one stored spectrum. */
  lemma {:induction false} FdlSlotInjective(pos: nat, n: nat, p: nat, q: nat)
    requires pos < n && p < n && q < n && FdlSlot(pos, n, p) == FdlSlot(pos, n, q)
    ensures p == q
  {
  }

  /** The FDL position after a block: one further round the ring. */
  function NextSlot(pos: nat, n: nat): (r: nat)
    requires pos < n
    ensures r < n
  {
    if pos + 1 < n then pos + 1 else 0
  }

  /** It is `(fdl_pos + 1) % num_partitions`, as the source computes it. */
  lemma {:induction false} NextSlotIsMod(pos: nat, n: nat)
    requires pos < n
    ensures NextSlot(pos, n) == (pos + 1) % n
  {
    if pos + 1 < n {
      DivModUnique(pos + 1, n, 0, pos + 1);
    } else {
      DivModUnique(pos + 1, n, 1, 0);
    }
  }

  /** The FDL position after `k` blocks. */
  function Advance(pos: nat, k: nat, n: nat): (r: nat)
    requires pos < n
    ensures r < n
    decreases k
  {
    if k == 0 then pos else NextSlot(Advance(pos, k - 1, n), n)
  }

  /** After `k` blocks the position is `(pos + k) % n`. */
  lemma {:induction false} AdvanceIsMod(pos: nat, k: nat, n: nat)
    requires pos < n
    ensures Advance(pos, k, n) == (pos + k) % n
    decreases k
  {
    if k == 0 {
      DivModUnique(pos, n, 0, pos);
    } else {
      AdvanceIsMod(pos, k - 1, n);
      var prev := Advance(pos, k - 1, n);
      NextSlotIsMod(prev, n);
      ModSucc(pos + k - 1, n);
    }
  }

  /** With `fdl_pos` advancing by one per block, the spectrum partition `p`
      meets in this block is the one partition `p + 1` meets in the next: a
      spectrum written p blocks ago always meets partition p. */
  lemma {:induction false} FdlSlotAdvance(pos: nat, n: nat, p: nat)
    requires pos < n && p + 1 < n
    ensures FdlSlot(NextSlot(pos, n), n, p + 1) == FdlSlot(pos, n, p)
  {
  }

  /** The spectrum accumulated over partitions `0 .. p`: bin by bin the sum of
      partition spectrum times the FDL spectrum it is paired with. */
  function PartialSpectrum(irs: seq<seq<Complex>>, fdl: seq<seq<Complex>>, pos: nat, n: nat, p: nat): (r: seq<Complex>)
    requires p <= n && |irs| == n && |fdl| == n && pos < n && Spectra(irs) && Spectra(fdl)
    ensures |r| == FFT_SIZE
    decreases p
  {
    if p == 0 then Zeros(FFT_SIZE)
    else
      var prev := PartialSpectrum(irs, fdl, pos, n, p - 1);
      var spectrum := fdl[FdlSlot(pos, n, p - 1)];
      seq(FFT_SIZE, i requires 0 <= i < FFT_SIZE => prev[i].Plus(spectrum[i].Times(irs[p - 1][i])))
  }

  /** One more partition adds, bin by bin, its product with the spectrum it is
      paired with. */
  lemma {:induction false} PartialSpectrumStep(irs: seq<seq<Complex>>, fdl: seq<seq<Complex>>, pos: nat, n: nat, p: nat, acc: seq<Complex>)
    requires p < n && |irs| == n && |fdl| == n && pos < n && Spectra(irs) && Spectra(fdl)
    requires |acc| == FFT_SIZE
    requires forall k :: 0 <= k < FFT_SIZE ==>
      acc[k] == PartialSpectrum(irs, fdl, pos, n, p)[k].Plus(fdl[FdlSlot(pos, n, p)][k].Times(irs[p][k]))
    ensures acc == PartialSpectrum(irs, fdl, pos, n, p + 1)
  {
  }

  /** With one partition the sum is that partition times the spectrum just
      stored. */
  lemma {:induction false} PartialSpectrumSingle(irs: seq<seq<Complex>>, fdl: seq<seq<Complex>>, pos: nat)
    requires |irs| == 1 && |fdl| == 1 && pos == 0 && Spectra(irs) && Spectra(fdl)
    ensures forall i :: 0 <= i < FFT_SIZE ==>
      PartialSpectrum(irs, fdl, pos, 1, 1)[i] == ZERO.Plus(fdl[0][i].Times(irs[0][i]))
  {
  }

  /** `overlap[i] += ifft_out[i].re * SCALE` over the whole overlap buffer. */
  function OverlapAdded(overlap: seq<real>, y: seq<Complex>): (r: seq<real>)
    requires |overlap| == FFT_SIZE && |y| == FFT_SIZE
    ensures |r| == FFT_SIZE
  {
    seq(FFT_SIZE, i requires 0 <= i < FFT_SIZE => overlap[i] + y[i].re * SCALE)
  }

  /** An input block, zero-padded to `FFT_SIZE` as complex values. */
  function Padded(block: seq<real>): (r: seq<Complex>)
    requires |block| == BLOCK
    ensures |r| == FFT_SIZE
    ensures forall i :: 0 <= i < BLOCK ==> r[i] == Complex(block[i], 0.0)
    ensures forall i :: BLOCK <= i < FFT_SIZE ==> r[i] == ZERO
  {
    seq(FFT_SIZE, i requires 0 <= i < FFT_SIZE => if i < BLOCK then Complex(block[i], 0.0) else ZERO)
  }

  // ---------------------------------------------------------------------------
  // The state on values
  // ---------------------------------------------------------------------------

  /** One channel: its input block, overlap buffer and FDL. */
  datatype Channel = Channel(buffer: seq<real>, overlap: seq<real>, fdl: seq<seq<Complex>>)

  /** Both channels with the shared input and FDL positions. */
  datatype Stream = Stream(left: Channel, right: Channel, inputPos: nat, fdlPos: nat)

  /** What processing reads but never changes: the transformed partitions, their
      count and the two transforms. */
  datatype Config = Config(irs: seq<seq<Complex>>, n: nat, fft: Transform, ifft: Transform)

  predicate ChannelShaped(c: Channel, n: nat) {
    |c.buffer| == BLOCK && |c.overlap| == FFT_SIZE && |c.fdl| == n && Spectra(c.fdl)
  }

  /** A loaded, non-empty response and a state that fits it. */
  predicate StreamShaped(cfg: Config, s: Stream) {
    1 <= cfg.n && |cfg.irs| == cfg.n && Spectra(cfg.irs) &&
    ChannelShaped(s.left, cfg.n) && ChannelShaped(s.right, cfg.n) &&
    s.inputPos <= BLOCK && s.fdlPos < cfg.n
  }

  /** `process_channel_block`: store the transformed block in the FDL at `pos`,
      accumulate every partition against its slot, transform back and add into
      the overlap buffer. The input block is left as it is. */
  function ChannelBlock(cfg: Config, c: Channel, pos: nat): (r: Channel)
    requires 1 <= cfg.n && |cfg.irs| == cfg.n && Spectra(cfg.irs) && ChannelShaped(c, cfg.n) && pos < cfg.n
    ensures ChannelShaped(r, cfg.n) && r.buffer == c.buffer
    ensures r.fdl == c.fdl[pos := Run(cfg.fft, Padded(c.buffer))]
  {
    var spectrum := Run(cfg.fft, Padded(c.buffer));
    assert |spectrum| == FFT_SIZE;
    var fdl := c.fdl[pos := spectrum];
    assert Spectra(fdl);
    var acc := PartialSpectrum(cfg.irs, fdl, pos, cfg.n, cfg.n);
    var y := Run(cfg.ifft, acc);
    assert |y| == FFT_SIZE;
    Channel(c.buffer, OverlapAdded(c.overlap, y), fdl)
  }

  /** `ChannelBlock` from its intermediate values: the updated FDL and the
      accumulated spectrum. */
  lemma {:induction false} ChannelBlockParts(cfg: Config, c: Channel, pos: nat, fdl: seq<seq<Complex>>, acc: seq<Complex>)
    requires 1 <= cfg.n && |cfg.irs| == cfg.n && Spectra(cfg.irs) && ChannelShaped(c, cfg.n) && pos < cfg.n
    requires fdl == c.fdl[pos := Run(cfg.fft, Padded(c.buffer))] && Spectra(fdl)
    requires acc == PartialSpectrum(cfg.irs, fdl, pos, cfg.n, cfg.n)
    ensures ChannelBlock(cfg, c, pos) == Channel(c.buffer, OverlapAdded(c.overlap, Run(cfg.ifft, acc)), fdl)
  {
  }

  /** `process_block` and the reset of `input_pos` after it: both channels
      processed against the same FDL slot, which then advances. */
  function Flush(cfg: Config, s: Stream): (r: Stream)
    requires StreamShaped(cfg, s)
    ensures StreamShaped(cfg, r) && r.inputPos == 0 && r.fdlPos == NextSlot(s.fdlPos, cfg.n)
  {
    Stream(ChannelBlock(cfg, s.left, s.fdlPos), ChannelBlock(cfg, s.right, s.fdlPos), 0, NextSlot(s.fdlPos, cfg.n))
  }

  /** One input frame stored at `input_pos`. */
  function Write(s: Stream, xl: real, xr: real): (r: Stream)
    requires s.inputPos < |s.left.buffer| && s.inputPos < |s.right.buffer|
    ensures r.inputPos == s.inputPos + 1 && r.fdlPos == s.fdlPos
  {
    Stream(s.left.(buffer := s.left.buffer[s.inputPos := xl]),
           s.right.(buffer := s.right.buffer[s.inputPos := xr]),
           s.inputPos + 1, s.fdlPos)
  }

  /** Storing a frame keeps the state's shape. */
  lemma {:induction false} WriteShaped(cfg: Config, s: Stream, xl: real, xr: real)
    requires StreamShaped(cfg, s) && s.inputPos < BLOCK
    ensures StreamShaped(cfg, Write(s, xl, xr))
  {
  }

  /** A full input block is processed before anything else happens. */
  function Settled(cfg: Config, s: Stream): (r: Stream)
    requires StreamShaped(cfg, s)
    ensures StreamShaped(cfg, r) && r.inputPos < BLOCK
    ensures s.inputPos < BLOCK ==> r == s
    ensures s.inputPos == BLOCK ==> r.inputPos == 0 && r.fdlPos == NextSlot(s.fdlPos, cfg.n)
  {
    if s.inputPos == BLOCK then Flush(cfg, s) else s
  }

  /** The state after consuming the frames `xl`, `xr` one by one. */
  function Feed(cfg: Config, s: Stream, xl: seq<real>, xr: seq<real>): (r: Stream)
    requires StreamShaped(cfg, s) && s.inputPos < BLOCK && |xl| == |xr|
    ensures StreamShaped(cfg, r) && r.inputPos < BLOCK
    decreases |xl|
  {
    if xl == [] then s
    else
      var k := |xl| - 1;
      Settled(cfg, Write(Feed(cfg, s, xl[..k], xr[..k]), xl[k], xr[k]))
  }

  /** One frame advances the input position by one modulo `BLOCK`, and the
      FDL position by one slot when the block completes. `a` counts the frames
      since a state at input position 0 and FDL position `f`. */
  lemma {:induction false} SettledPosition(cfg: Config, s: Stream, xl: real, xr: real, a: nat, f: nat)
    requires StreamShaped(cfg, s) && s.inputPos < BLOCK && f < cfg.n
    requires s.inputPos == a % BLOCK && s.fdlPos == Advance(f, a / BLOCK, cfg.n)
    ensures var r := Settled(cfg, Write(s, xl, xr));
      r.inputPos == (a + 1) % BLOCK && r.fdlPos == Advance(f, (a + 1) / BLOCK, cfg.n)
  {
    WriteShaped(cfg, s, xl, xr);
    var w := Write(s, xl, xr);
    ModSucc(a, BLOCK);
    if w.inputPos < BLOCK {
      assert Settled(cfg, w) == w;
    } else {
      assert Settled(cfg, w).fdlPos == NextSlot(s.fdlPos, cfg.n);
    }
  }

  /** Input accumulation: after |xl| frames the input position has advanced by
      |xl| modulo the block size, and the FDL position by one slot for every
      block completed. */
  lemma {:induction false} FeedPosition(cfg: Config, s: Stream, xl: seq<real>, xr: seq<real>)
    requires StreamShaped(cfg, s) && s.inputPos < BLOCK && |xl| == |xr|
    ensures Feed(cfg, s, xl, xr).inputPos == (s.inputPos + |xl|) % BLOCK
    ensures Feed(cfg, s, xl, xr).fdlPos == Advance(s.fdlPos, (s.inputPos + |xl|) / BLOCK, cfg.n)
    decreases |xl|
  {
    if xl == [] {
      DivModUnique(s.inputPos, BLOCK, 0, s.inputPos);
    } else {
      var k := |xl| - 1;
      FeedPosition(cfg, s, xl[..k], xr[..k]);
      SettledPosition(cfg, Feed(cfg, s, xl[..k], xr[..k]), xl[k], xr[k], s.inputPos + k, s.fdlPos);
    }
  }

  /** Hence, in the source's terms, the FDL position is
      `(fdl_pos + blocks) % num_partitions`. */
  lemma {:induction false} FeedSlot(cfg: Config, s: Stream, xl: seq<real>, xr: seq<real>)
    requires StreamShaped(cfg, s) && s.inputPos < BLOCK && |xl| == |xr|
    ensures Feed(cfg, s, xl, xr).fdlPos == (s.fdlPos + (s.inputPos + |xl|) / BLOCK) % cfg.n
  {
    FeedPosition(cfg, s, xl, xr);
    AdvanceIsMod(s.fdlPos, (s.inputPos + |xl|) / BLOCK, cfg.n);
  }

  /** The first `pos` samples of `buffer` are the last `pos` of `history`. */
  predicate Buffered(buffer: seq<real>, pos: nat, history: seq<real>) {
    pos <= |buffer| && pos <= |history| && buffer[..pos] == history[|history| - pos..]
  }

  /** Storing the next sample at `pos` keeps the block in step with the
      history. */
  lemma {:induction false} BufferedWrite(buffer: seq<real>, pos: nat, history: seq<real>, x: real)
    requires pos < |buffer| && Buffered(buffer, pos, history)
    ensures Buffered(buffer[pos := x], pos + 1, history + [x])
  {
    var h := history + [x];
    assert buffer[pos := x][..pos + 1] == buffer[..pos] + [x];
    assert h[|h| - (pos + 1)..] == history[|history| - pos..] + [x];
  }

  /** One frame, and the block processing it may complete, keep the input
      block in step with the history. */
  lemma {:induction false} SettledBuffered(cfg: Config, s: Stream, xl: real, xr: real, hl: seq<real>, hr: seq<real>)
    requires StreamShaped(cfg, s) && s.inputPos < BLOCK
    requires Buffered(s.left.buffer, s.inputPos, hl) && Buffered(s.right.buffer, s.inputPos, hr)
    ensures var r := Settled(cfg, Write(s, xl, xr));
      Buffered(r.left.buffer, r.inputPos, hl + [xl]) && Buffered(r.right.buffer, r.inputPos, hr + [xr])
  {
    WriteShaped(cfg, s, xl, xr);
    var w := Write(s, xl, xr);
    BufferedWrite(s.left.buffer, s.inputPos, hl, xl);
    BufferedWrite(s.right.buffer, s.inputPos, hr, xr);
    if w.inputPos == BLOCK {
      var r := Settled(cfg, w);
      assert r.left.buffer[..0] == [] && r.right.buffer[..0] == [];
    }
  }

  /** The input block always holds the most recent `input_pos` frames. */
  lemma {:induction false} FeedBuffered(cfg: Config, s: Stream, xl: seq<real>, xr: seq<real>)
    requires StreamShaped(cfg, s) && s.inputPos < BLOCK && |xl| == |xr|
    ensures var r := Feed(cfg, s, xl, xr);
      Buffered(r.left.buffer, r.inputPos, s.left.buffer[..s.inputPos] + xl) &&
      Buffered(r.right.buffer, r.inputPos, s.right.buffer[..s.inputPos] + xr)
    decreases |xl|
  {
    var start, startR := s.left.buffer[..s.inputPos], s.right.buffer[..s.inputPos];
    if xl == [] {
      assert start + xl == start && startR + xr == startR;
    } else {
      var k := |xl| - 1;
      FeedBuffered(cfg, s, xl[..k], xr[..k]);
      assert start + xl == (start + xl[..k]) + [xl[k]] by {
        assert xl == xl[..k] + [xl[k]];
      }
      assert startR + xr == (startR + xr[..k]) + [xr[k]] by {
        assert xr == xr[..k] + [xr[k]];
      }
      SettledBuffered(cfg, Feed(cfg, s, xl[..k], xr[..k]), xl[k], xr[k], start + xl[..k], startR + xr[..k]);
    }
  }

  /** The overlap buffer after reading `shift` output samples: shifted left,
      zero-filled at the end. */
  function Shifted(overlap: seq<real>, shift: nat): (r: seq<real>)
    requires shift <= |overlap|
    ensures |r| == |overlap|
  {
    overlap[shift..] + seq(shift, _ => 0.0)
  }

  /** Shifting twice is shifting by the sum, and shifting by nothing keeps the
      buffer. */
  lemma {:induction false} ShiftedTwice(overlap: seq<real>, a: nat, b: nat)
    requires a + b <= |overlap|
    ensures Shifted(Shifted(overlap, a), b) == Shifted(overlap, a + b)
    ensures Shifted(overlap, 0) == overlap
  {
    var lhs := Shifted(Shifted(overlap, a), b);
    var rhs := Shifted(overlap, a + b);
    forall i | 0 <= i < |overlap|
      ensures lhs[i] == rhs[i]
    {
      if i + b < |overlap| {
        assert lhs[i] == Shifted(overlap, a)[i + b];
      }
    }
    assert lhs == rhs;
  }

  /** Both overlap buffers shifted after a block of `shift` output samples. */
  function Drained(s: Stream, shift: nat): (r: Stream)
    requires shift <= |s.left.overlap| && shift <= |s.right.overlap|
  {
    Stream(s.left.(overlap := Shifted(s.left.overlap, shift)),
           s.right.(overlap := Shifted(s.right.overlap, shift)),
           s.inputPos, s.fdlPos)
  }

  /** The output mix `input * (1 - w) + tail * w`, sample by sample: w = 0 is
      the dry input and w = 1 the reverb tail. */
  function WetMix(input: seq<real>, tail: seq<real>, w: real): (r: seq<real>)
    requires |input| <= |tail|
    ensures |r| == |input|
    ensures w == 0.0 ==> r == input
    ensures w == 1.0 ==> r == tail[..|input|]
  {
    seq(|input|, i requires 0 <= i < |input| => DryWet(input[i], tail[i], w))
  }

  // ---------------------------------------------------------------------------
  // Imperative state
  // ---------------------------------------------------------------------------

  /** `simd_utils::copy_buffer` on two `n`-sample slices of the I/O regions. */
  method CopySlice(src: array<real>, dst: array<real>, n: nat)
    requires src != dst && n <= src.Length && n <= dst.Length
    modifies dst
    ensures dst[..n] == src[..n]
    ensures forall i :: n <= i < dst.Length ==> dst[i] == old(dst[i])
  {
    var i := 0;
    while i < n
      invariant 0 <= i <= n
      invariant forall k :: 0 <= k < i ==> dst[k] == src[k]
      invariant forall k :: n <= k < dst.Length ==> dst[k] == old(dst[k])
    {
      dst[i] := src[i];
      i := i + 1;
    }
  }

  /** The zero-padding loop of `process_channel_block`. */
  method PadBlock(input: seq<real>) returns (fftInput: seq<Complex>)
    requires |input| == BLOCK
    ensures fftInput == Padded(input)
  {
    fftInput := Zeros(FFT_SIZE);
    var i := 0;
    while i < FFT_SIZE
      invariant 0 <= i <= FFT_SIZE && |fftInput| == FFT_SIZE
      invariant forall k :: 0 <= k < i ==> fftInput[k] == Padded(input)[k]
    {
      fftInput := fftInput[i := if i < BLOCK then Complex(input[i], 0.0) else ZERO];
      i := i + 1;
    }
  }

  /** The multiply-accumulate loop for one partition: every bin of `acc` gains
      the product of the stored spectrum and the partition's spectrum. */
  method AccumulatePartition(acc: seq<Complex>, spectrum: seq<Complex>, ir: seq<Complex>) returns (r: seq<Complex>)
    requires |acc| == FFT_SIZE && |spectrum| == FFT_SIZE && |ir| == FFT_SIZE
    ensures |r| == FFT_SIZE
    ensures forall k :: 0 <= k < FFT_SIZE ==> r[k] == acc[k].Plus(spectrum[k].Times(ir[k]))
  {
    r := acc;
    var i := 0;
    while i < FFT_SIZE
      invariant 0 <= i <= FFT_SIZE && |r| == FFT_SIZE
      invariant forall k :: 0 <= k < i ==> r[k] == acc[k].Plus(spectrum[k].Times(ir[k]))
      invariant forall k :: i <= k < FFT_SIZE ==> r[k] == acc[k]
    {
      r := r[i := r[i].Plus(spectrum[i].Times(ir[i]))];
      i := i + 1;
    }
  }

  /** The loop over partitions: the stored spectrum `p` blocks old times
      partition `p`, summed over every partition. */
  method SumPartitions(irs: seq<seq<Complex>>, fdl: seq<seq<Complex>>, pos: nat, n: nat) returns (acc: seq<Complex>)
    requires |irs| == n && |fdl| == n && pos < n && Spectra(irs) && Spectra(fdl)
    ensures acc == PartialSpectrum(irs, fdl, pos, n, n)
  {
    acc := Zeros(FFT_SIZE);
    var p := 0;
    while p < n
      invariant 0 <= p <= n
      invariant acc == PartialSpectrum(irs, fdl, pos, n, p)
    {
      var slot := FdlSlot(pos, n, p);
      acc := AccumulatePartition(acc, fdl[slot], irs[p]);
      PartialSpectrumStep(irs, fdl, pos, n, p, acc);
      p := p + 1;
    }
  }

  /** The normalise-and-overlap-add loop. */
  method AddOverlap(overlap: seq<real>, y: seq<Complex>) returns (r: seq<real>)
    requires |overlap| == FFT_SIZE && |y| == FFT_SIZE
    ensures r == OverlapAdded(overlap, y)
  {
    r := overlap;
    var i := 0;
    while i < FFT_SIZE
      invariant 0 <= i <= FFT_SIZE && |r| == FFT_SIZE
      invariant forall k :: 0 <= k < i ==> r[k] == overlap[k] + y[k].re * SCALE
      invariant forall k :: i <= k < FFT_SIZE ==> r[k] == overlap[k]
    {
      r := r[i := r[i] + y[i].re * SCALE];
      i := i + 1;
    }
  }

  /** `process_channel_block` on values: its loops over the scratch buffers
      compute exactly `ChannelBlock`. */
  method ProcessChannelBlock(cfg: Config, input: seq<real>, fdl: seq<seq<Complex>>, fdlPos: nat, overlap: seq<real>)
    returns (newFdl: seq<seq<Complex>>, newOverlap: seq<real>)
    requires 1 <= cfg.n && |cfg.irs| == cfg.n && Spectra(cfg.irs)
    requires ChannelShaped(Channel(input, overlap, fdl), cfg.n) && fdlPos < cfg.n
    ensures Channel(input, newOverlap, newFdl) == ChannelBlock(cfg, Channel(input, overlap, fdl), fdlPos)
  {
    var fftInput := PadBlock(input);
    fftInput := Run(cfg.fft, fftInput);
    newFdl := fdl[fdlPos := fftInput];
    assert Spectra(newFdl);
    var acc := SumPartitions(cfg.irs, newFdl, fdlPos, cfg.n);
    var fftTemp := Run(cfg.ifft, acc);
    newOverlap := AddOverlap(overlap, fftTemp);
    ChannelBlockParts(cfg, Channel(input, overlap, fdl), fdlPos, newFdl, acc);
  }

  /** One partition of `load_ir` before its transform: the response frames
      of block `p` (stereo averaged) as complex values, zero-padded. */
  method BuildPartition(ir: seq<real>, length: u32, channels: u32, p: nat) returns (partition: seq<Complex>)
    requires IrReadable(|ir|, length, channels) && p < PartitionCount(length)
    ensures partition == Complexified(PartitionSamples(ir, length, channels, p))
  {
    ghost var target := Complexified(PartitionSamples(ir, length, channels, p));
    var start := p * BLOCK;
    partition := Zeros(FFT_SIZE);
    var i := 0;
    while i < BLOCK
      invariant 0 <= i <= BLOCK && |partition| == FFT_SIZE
      invariant forall k :: 0 <= k < i ==> partition[k] == target[k]
      invariant forall k :: i <= k < FFT_SIZE ==> partition[k] == ZERO
    {
      var idx := start + i;
      if idx < length {
        var sample := if channels == 2 then (ir[idx * 2] + ir[idx * 2 + 1]) * 0.5 else ir[idx];
        partition := partition[i := Complex(sample, 0.0)];
      }
      i := i + 1;
    }
  }

  /** The partition loop of `load_ir`: every partition built and transformed,
      in order. */
  method TransformPartitions(fft: Transform, ir: seq<real>, length: u32, channels: u32) returns (partitions: seq<seq<Complex>>)
    requires IrReadable(|ir|, length, channels)
    ensures |partitions| == PartitionCount(length)
    ensures forall p :: 0 <= p < |partitions| ==>
      partitions[p] == Run(fft, Complexified(PartitionSamples(ir, length, channels, p)))
  {
    var n := PartitionCount(length);
    partitions := [];
    var p := 0;
    while p < n
      invariant 0 <= p <= n && |partitions| == p
      invariant forall q :: 0 <= q < p ==> partitions[q] == Run(fft, Complexified(PartitionSamples(ir, length, channels, q)))
    {
      var partition := BuildPartition(ir, length, channels, p);
      partition := Run(fft, partition);
      partitions := partitions + [partition];
      p := p + 1;
    }
  }

  /** The FDL loop of `load_ir`: `n` zeroed slots for each channel. */
  method NewFdls(n: nat) returns (left: seq<seq<Complex>>, right: seq<seq<Complex>>)
    ensures left == ZeroSpectra(n) && right == ZeroSpectra(n)
  {
    left, right := [], [];
    var p := 0;
    while p < n
      invariant 0 <= p <= n
      invariant left == ZeroSpectra(p) && right == ZeroSpectra(p)
    {
      left := left + [Zeros(FFT_SIZE)];
      right := right + [Zeros(FFT_SIZE)];
      p := p + 1;
    }
  }

  /** `fdl.fill(0)` for every slot of an FDL. */
  method ClearSlots(fdl: seq<seq<Complex>>) returns (r: seq<seq<Complex>>)
    ensures r == ZeroSpectra(|fdl|)
  {
    r := fdl;
    var p := 0;
    while p < |r|
      invariant 0 <= p <= |r| == |fdl|
      invariant forall k :: 0 <= k < p ==> r[k] == Zeros(FFT_SIZE)
    {
      r := r[p := Zeros(FFT_SIZE)];
      p := p + 1;
    }
  }

  /** The reverb's state. The `Vec` buffers are sequences the methods
      reassign; the transforms are those the planner returns for `FFT_SIZE`. */
  class ConvolutionState {
    var irPartitions: seq<seq<Complex>>
    var numPartitions: nat
    var inputBufferL: seq<real>
    var inputBufferR: seq<real>
    var inputPos: nat
    var overlapL: seq<real>
    var overlapR: seq<real>
    var fdlL: seq<seq<Complex>>
    var fdlR: seq<seq<Complex>>
    var fdlPos: nat
    var irLoaded: bool
    const fft: Transform
    const ifft: Transform

    function Abstract(): Stream
      reads this
    {
      Stream(Channel(inputBufferL, overlapL, fdlL), Channel(inputBufferR, overlapR, fdlR), inputPos, fdlPos)
    }

    function Cfg(): Config
      reads this
    {
      Config(irPartitions, numPartitions, fft, ifft)
    }

    /** The buffer sizes, one FDL slot per partition and the position ranges;
        `input_pos` may momentarily equal `BLOCK` inside `process`. */
    ghost predicate Shaped()
      reads this
    {
      |inputBufferL| == BLOCK && |inputBufferR| == BLOCK &&
      |overlapL| == FFT_SIZE && |overlapR| == FFT_SIZE &&
      numPartitions <= MAX_PARTITIONS &&
      |irPartitions| == numPartitions && Spectra(irPartitions) &&
      |fdlL| == numPartitions && Spectra(fdlL) && |fdlR| == numPartitions && Spectra(fdlR) &&
      inputPos <= BLOCK &&
      (if numPartitions == 0 then fdlPos == 0 else fdlPos < numPartitions) &&
      (!irLoaded ==> numPartitions == 0)
    }

    /** Between calls a full block has always been processed. */
    ghost predicate Valid()
      reads this
    {
      Shaped() && inputPos < BLOCK
    }

    /** What `ensure_state` creates: zeroed buffers, no partitions, no IR. */
    constructor (forward: Transform, inverse: Transform)
      ensures Valid() && !irLoaded && numPartitions == 0 && irPartitions == []
      ensures inputBufferL == seq(BLOCK, _ => 0.0) && inputBufferR == seq(BLOCK, _ => 0.0)
      ensures overlapL == seq(FFT_SIZE, _ => 0.0) && overlapR == seq(FFT_SIZE, _ => 0.0)
      ensures fdlL == [] && fdlR == [] && inputPos == 0 && fdlPos == 0
      ensures fft == forward && ifft == inverse
    {
      irPartitions := [];
      numPartitions := 0;
      inputBufferL := seq(BLOCK, _ => 0.0);
      inputBufferR := seq(BLOCK, _ => 0.0);
      inputPos := 0;
      overlapL := seq(FFT_SIZE, _ => 0.0);
      overlapR := seq(FFT_SIZE, _ => 0.0);
      fdlL := [];
      fdlR := [];
      fdlPos := 0;
      irLoaded := false;
      fft := forward;
      ifft := inverse;
    }

    /** `load_ir`: transforms every partition of the response `ir` (the IR
        region, `length * channels` samples), gives each channel `n` zeroed
        FDL slots, clears the overlap buffers and positions, marks the IR
        loaded and records its length in the engine. */
    method LoadIr(arena: Memory.Arena, ir: seq<real>, length: u32, channels: u32)
      requires Valid()
      requires |ir| == Wrap(length * channels) && IrReadable(|ir|, length, channels)
      modifies this, arena
      ensures Valid() && irLoaded
      ensures numPartitions == PartitionCount(length) && |irPartitions| == numPartitions
      ensures forall p :: 0 <= p < numPartitions ==>
        irPartitions[p] == Run(fft, Complexified(PartitionSamples(ir, length, channels, p)))
      ensures fdlL == ZeroSpectra(numPartitions) && fdlR == ZeroSpectra(numPartitions)
      ensures fdlPos == 0 && inputPos == 0
      ensures overlapL == seq(FFT_SIZE, _ => 0.0) && overlapR == seq(FFT_SIZE, _ => 0.0)
      ensures inputBufferL == old(inputBufferL) && inputBufferR == old(inputBufferR)
      ensures arena.attached == old(arena.attached) && arena.sampleRate == old(arena.sampleRate)
      ensures arena.bufferSize == old(arena.bufferSize) && arena.granularSourceLen == old(arena.granularSourceLen)
      ensures old(arena.attached) ==> arena.irLen == length && arena.flags == Memory.WithFlag(old(arena.flags), Memory.FLAG_IR_READY)
      ensures !old(arena.attached) ==> arena.irLen == old(arena.irLen) && arena.flags == old(arena.flags)
    {
      var n := PartitionCount(length);
      var partitions := TransformPartitions(fft, ir, length, channels);
      var slotsL, slotsR := NewFdls(n);
      irPartitions, numPartitions := partitions, n;
      fdlL, fdlR := slotsL, slotsR;
      fdlPos := 0;
      overlapL := seq(FFT_SIZE, _ => 0.0);
      overlapR := seq(FFT_SIZE, _ => 0.0);
      inputPos := 0;
      irLoaded := true;
      arena.SetIrLen(length);
    }

    /** `process_block`: both channels against the current FDL slot, then the
        slot advances. `input_pos` is left to the caller. */
    method ProcessBlock()
      requires Shaped() && numPartitions >= 1
      modifies this
      ensures Shaped() && irLoaded == old(irLoaded)
      ensures irPartitions == old(irPartitions) && numPartitions == old(numPartitions)
      ensures Abstract() == Flush(Cfg(), old(Abstract())).(inputPos := old(inputPos))
    {
      var cfg := Cfg();
      ghost var s := Abstract();
      var newFdlL, newOverlapL := ProcessChannelBlock(cfg, inputBufferL, fdlL, fdlPos, overlapL);
      var newFdlR, newOverlapR := ProcessChannelBlock(cfg, inputBufferR, fdlR, fdlPos, overlapR);
      var next := (fdlPos + 1) % numPartitions;
      NextSlotIsMod(fdlPos, numPartitions);
      assert Flush(cfg, s).(inputPos := inputPos) ==
        Stream(Channel(inputBufferL, newOverlapL, newFdlL), Channel(inputBufferR, newOverlapR, newFdlR), inputPos, next);
      fdlL, overlapL, fdlR, overlapR, fdlPos := newFdlL, newOverlapL, newFdlR, newOverlapR, next;
    }

    /** One step of the inner loop of `process`: the frame is stored at
        `input_pos`, which advances. */
    method WriteFrame(xl: real, xr: real)
      requires Shaped() && inputPos < BLOCK
      modifies this
      ensures Shaped() && irLoaded == old(irLoaded)
      ensures irPartitions == old(irPartitions) && numPartitions == old(numPartitions)
      ensures Abstract() == Write(old(Abstract()), xl, xr)
    {
      inputBufferL := inputBufferL[inputPos := xl];
      inputBufferR := inputBufferR[inputPos := xr];
      inputPos := inputPos + 1;
    }

    /** Storing frame `k` of the input slices feeds it to the stream. */
    method FeedStep(inputL: array<real>, inputR: array<real>, k: nat, ghost s0: Stream)
      requires Shaped() && inputPos < BLOCK && k < inputL.Length && k < inputR.Length
      requires StreamShaped(Cfg(), s0) && s0.inputPos < BLOCK
      requires Abstract() == Feed(Cfg(), s0, inputL[..k], inputR[..k])
      modifies this
      ensures Shaped() && irLoaded == old(irLoaded)
      ensures irPartitions == old(irPartitions) && numPartitions == old(numPartitions)
      ensures Settled(Cfg(), Abstract()) == Feed(Cfg(), s0, inputL[..k + 1], inputR[..k + 1])
    {
      ghost var xl, xr := inputL[..k + 1], inputR[..k + 1];
      assert xl[..k] == inputL[..k] && xr[..k] == inputR[..k];
      WriteFrame(inputL[k], inputR[k]);
    }

    /** The inner loop of `process`: frames from `idx` on are stored until
        the block is full or the input slices are used up. `s0` is the state
        before the first frame of the slices. */
    method FillBlock(inputL: array<real>, inputR: array<real>, n: nat, idx: nat, ghost s0: Stream) returns (next: nat)
      requires Valid() && numPartitions >= 1 && idx <= n <= inputL.Length && n <= inputR.Length
      requires StreamShaped(Cfg(), s0) && s0.inputPos < BLOCK
      requires Abstract() == Feed(Cfg(), s0, inputL[..idx], inputR[..idx])
      modifies this
      ensures Shaped() && irLoaded == old(irLoaded)
      ensures irPartitions == old(irPartitions) && numPartitions == old(numPartitions)
      ensures idx <= next <= n && (idx < n ==> idx < next) && (next == n || inputPos == BLOCK)
      ensures Settled(Cfg(), Abstract()) == Feed(Cfg(), s0, inputL[..next], inputR[..next])
    {
      next := idx;
      while inputPos < BLOCK && next < n
        invariant idx <= next <= n
        invariant Shaped() && irLoaded == old(irLoaded)
        invariant irPartitions == old(irPartitions) && numPartitions == old(numPartitions)
        invariant next == idx ==> inputPos < BLOCK
        invariant Settled(Cfg(), Abstract()) == Feed(Cfg(), s0, inputL[..next], inputR[..next])
        decreases n - next
      {
        FeedStep(inputL, inputR, next, s0);
        next := next + 1;
      }
    }

    /** The sample-gathering loop of `process`: fills the input blocks from the
        `n`-sample input slices and processes every block that fills up. */
    method Gather(inputL: array<real>, inputR: array<real>, n: nat)
      requires Valid() && numPartitions >= 1 && n <= inputL.Length && n <= inputR.Length
      modifies this
      ensures Valid() && irLoaded == old(irLoaded)
      ensures irPartitions == old(irPartitions) && numPartitions == old(numPartitions)
      ensures Abstract() == Feed(Cfg(), old(Abstract()), inputL[..n], inputR[..n])
    {
      ghost var s0 := Abstract();
      var sampleIdx := 0;
      while sampleIdx < n
        invariant 0 <= sampleIdx <= n
        invariant Valid() && irLoaded == old(irLoaded)
        invariant irPartitions == old(irPartitions) && numPartitions == old(numPartitions)
        invariant Abstract() == Feed(Cfg(), s0, inputL[..sampleIdx], inputR[..sampleIdx])
        decreases n - sampleIdx
      {
        sampleIdx := FillBlock(inputL, inputR, n, sampleIdx, s0);
        if inputPos >= BLOCK {
          ProcessBlock();
          inputPos := 0;
        }
      }
      assert inputL[..n] == inputL[..sampleIdx];
    }

    /** The output loop of `process`: `input * (1 - w) + overlap * w` into the
        first `n` samples of each output region. */
    method MixOutput(inputL: array<real>, inputR: array<real>, outputL: array<real>, outputR: array<real>, n: nat, w: real)
      requires Valid()
      requires outputL != outputR && inputL != outputL && inputL != outputR && inputR != outputL && inputR != outputR
      requires n <= inputL.Length && n <= inputR.Length && n <= outputL.Length && n <= outputR.Length && n <= FFT_SIZE
      modifies outputL, outputR
      ensures outputL[..n] == WetMix(inputL[..n], overlapL, w)
      ensures outputR[..n] == WetMix(inputR[..n], overlapR, w)
      ensures forall i :: n <= i < outputL.Length ==> outputL[i] == old(outputL[i])
      ensures forall i :: n <= i < outputR.Length ==> outputR[i] == old(outputR[i])
    {
      var i := 0;
      while i < n
        invariant 0 <= i <= n
        invariant forall k :: 0 <= k < i ==> outputL[k] == DryWet(inputL[k], overlapL[k], w)
        invariant forall k :: 0 <= k < i ==> outputR[k] == DryWet(inputR[k], overlapR[k], w)
        invariant forall k :: i <= k < outputL.Length ==> outputL[k] == old(outputL[k])
        invariant forall k :: i <= k < outputR.Length ==> outputR[k] == old(outputR[k])
      {
        var wetL := overlapL[i];
        var wetR := overlapR[i];
        outputL[i] := DryWet(inputL[i], wetL, w);
        outputR[i] := DryWet(inputR[i], wetR, w);
        i := i + 1;
      }
      assert outputL[..n] == WetMix(inputL[..n], overlapL, w);
      assert outputR[..n] == WetMix(inputR[..n], overlapR, w);
    }

    /** The overlap shift of `process`: move everything left by `shift`, then
        zero the last `shift` samples. */
    method ShiftOverlap(shift: nat)
      requires Valid() && shift <= FFT_SIZE
      modifies this
      ensures Valid() && irLoaded == old(irLoaded)
      ensures irPartitions == old(irPartitions) && numPartitions == old(numPartitions)
      ensures Abstract() == Drained(old(Abstract()), shift)
    {
      ghost var tailL, tailR := overlapL, overlapR;
      var i := 0;
      while i < FFT_SIZE - shift
        invariant 0 <= i <= FFT_SIZE - shift && |overlapL| == FFT_SIZE && |overlapR| == FFT_SIZE
        invariant forall k :: 0 <= k < i ==> overlapL[k] == tailL[k + shift] && overlapR[k] == tailR[k + shift]
        invariant forall k :: i <= k < FFT_SIZE ==> overlapL[k] == tailL[k] && overlapR[k] == tailR[k]
        invariant unchanged(`inputBufferL, `inputBufferR, `inputPos, `fdlL, `fdlR, `fdlPos)
        invariant unchanged(`irPartitions, `numPartitions, `irLoaded)
      {
        overlapL := overlapL[i := overlapL[i + shift]];
        overlapR := overlapR[i := overlapR[i + shift]];
        i := i + 1;
      }
      while i < FFT_SIZE
        invariant FFT_SIZE - shift <= i <= FFT_SIZE && |overlapL| == FFT_SIZE && |overlapR| == FFT_SIZE
        invariant forall k :: 0 <= k < FFT_SIZE - shift ==> overlapL[k] == tailL[k + shift] && overlapR[k] == tailR[k + shift]
        invariant forall k :: FFT_SIZE - shift <= k < i ==> overlapL[k] == 0.0 && overlapR[k] == 0.0
        invariant unchanged(`inputBufferL, `inputBufferR, `inputPos, `fdlL, `fdlR, `fdlPos)
        invariant unchanged(`irPartitions, `numPartitions, `irLoaded)
      {
        overlapL := overlapL[i := 0.0];
        overlapR := overlapR[i := 0.0];
        i := i + 1;
      }
      assert overlapL == Shifted(tailL, shift);
      assert overlapR == Shifted(tailR, shift);
    }

    /** `process`: without a loaded, non-empty response the input is copied to
        the output and nothing else changes. Otherwise the input is fed through
        the partitioned convolution, each output sample mixes the input with the
        overlap buffer by the clamped dry/wet amount, and the overlap buffer is
        shifted by the block size. Output samples past the block are kept. */
    method Process(arena: Memory.Arena, dryWet: real)
      requires Valid() && arena.Valid() && arena.attached
      modifies this, arena.outputL, arena.outputR
      ensures Valid()
      ensures irPartitions == old(irPartitions) && numPartitions == old(numPartitions) && irLoaded == old(irLoaded)
      ensures forall i :: arena.SliceLen() <= i < arena.outputL.Length ==> arena.outputL[i] == old(arena.outputL[i])
      ensures forall i :: arena.SliceLen() <= i < arena.outputR.Length ==> arena.outputR[i] == old(arena.outputR[i])
      ensures !irLoaded || numPartitions == 0 ==>
        Abstract() == old(Abstract()) &&
        arena.outputL[..arena.SliceLen()] == arena.inputL[..arena.SliceLen()] &&
        arena.outputR[..arena.SliceLen()] == arena.inputR[..arena.SliceLen()]
      ensures irLoaded && numPartitions >= 1 ==>
        var n := arena.SliceLen();
        var fed := Feed(Cfg(), old(Abstract()), arena.inputL[..n], arena.inputR[..n]);
        arena.outputL[..n] == WetMix(arena.inputL[..n], fed.left.overlap, Clamp(dryWet, 0.0, 1.0)) &&
        arena.outputR[..n] == WetMix(arena.inputR[..n], fed.right.overlap, Clamp(dryWet, 0.0, 1.0)) &&
        Abstract() == Drained(fed, n)
    {
      var bufferSize := arena.BufferSize() as nat;
      if !irLoaded || numPartitions == 0 {
        CopySlice(arena.inputL, arena.outputL, bufferSize);
        CopySlice(arena.inputR, arena.outputR, bufferSize);
        return;
      }
      var wet := Clamp(dryWet, 0.0, 1.0);
      Gather(arena.inputL, arena.inputR, bufferSize);
      MixOutput(arena.inputL, arena.inputR, arena.outputL, arena.outputR, bufferSize, wet);
      ShiftOverlap(bufferSize);
    }

    /** `reset`: zeroes the overlap buffers and every FDL slot and rewinds
        both positions; the partitions and the input blocks are kept. */
    method Reset()
      requires Valid()
      modifies this
      ensures Valid()
      ensures overlapL == seq(FFT_SIZE, _ => 0.0) && overlapR == seq(FFT_SIZE, _ => 0.0)
      ensures fdlL == ZeroSpectra(numPartitions) && fdlR == ZeroSpectra(numPartitions)
      ensures inputPos == 0 && fdlPos == 0
      ensures irPartitions == old(irPartitions) && numPartitions == old(numPartitions) && irLoaded == old(irLoaded)
      ensures inputBufferL == old(inputBufferL) && inputBufferR == old(inputBufferR)
    {
      overlapL := seq(FFT_SIZE, _ => 0.0);
      overlapR := seq(FFT_SIZE, _ => 0.0);
      fdlL := ClearSlots(fdlL);
      fdlR := ClearSlots(fdlR);
      inputPos := 0;
      fdlPos := 0;
    }
  }
}
