/** Granular synthesis engine of granular.rs: a fixed pool of grains, a 32-bit
    linear congruential generator, a spawn accumulator, first-free spawning and
    bounds-safe interpolated reads of the loaded source. */
module Granular {
  import opened Ints
  import opened Utils
  import opened Foreign
  import Memory

  const MAX_GRAINS: nat := 100
  const MIN_GRAIN_SIZE: u32 := 64
  const MAX_GRAIN_SIZE: u32 := 4096

  /** Initial `RNG_STATE` and the Numerical Recipes LCG constants. */
  const RNG_SEED: u32 := 12345
  const LCG_MULTIPLIER: nat := 1664525
  const LCG_INCREMENT: nat := 1013904223
  /** `u32::MAX` (its f32 conversion rounds to 2^32; rounding is not modelled). */
  const U32_MAX: real := 4294967295.0

  /** A grain length in samples. Grains are only ever created with 256
      samples or a size clamped to [64, 4096], so it is never zero. */
  type GrainSize = n: u32 | 1 <= n witness 1

  datatype Grain = Grain(active: bool, sourcePos: real, phase: real, rate: real,
                         amp: real, sizeSamples: GrainSize, pan: real)

  /** The initial value of every `GRAINS` slot. */
  const IDLE_GRAIN: Grain := Grain(false, 0.0, 0.0, 1.0, 1.0, 256, 0.0)

  // ---------------------------------------------------------------------------
  // Random numbers
  // ---------------------------------------------------------------------------

  /** One step of the LCG modulo 2^32. */
  function NextRng(s: u32): u32 {
    (s * LCG_MULTIPLIER + LCG_INCREMENT) % U32_MODULUS
  }

  /** `RNG_STATE.wrapping_mul(1664525).wrapping_add(1013904223)` computes that
      step: wrapping after the product and again after the sum is wrapping
      once. */
  lemma WrappingStepIsLcg(s: u32)
    ensures Wrap(Wrap(s * LCG_MULTIPLIER) + LCG_INCREMENT) == NextRng(s)
  {
    var m := s * LCG_MULTIPLIER;
    var t := Wrap(m) + LCG_INCREMENT;
    assert m == (m / U32_MODULUS) * U32_MODULUS + Wrap(m);
    DivModUnique(m + LCG_INCREMENT, U32_MODULUS, m / U32_MODULUS + t / U32_MODULUS, t % U32_MODULUS);
  }

  /** The state after `k` draws. */
  function Draws(s: u32, k: nat): u32
    decreases k
  {
    if k == 0 then s else NextRng(Draws(s, k - 1))
  }

  lemma {:induction false} DrawsAdd(s: u32, a: nat, b: nat)
    ensures Draws(Draws(s, a), b) == Draws(s, a + b)
    decreases b
  {
    if b > 0 {
      DrawsAdd(s, a, b - 1);
    }
  }

  /** The generator after `k` spawns, each drawing four numbers. */
  function SpawnDraws(s: u32, k: nat): u32 {
    Draws(s, 4 * k)
  }

  lemma SpawnDrawsNext(s: u32, k: nat)
    ensures Draws(SpawnDraws(s, k), 4) == SpawnDraws(s, k + 1)
  {
    DrawsAdd(s, 4 * k, 4);
  }

  /** `random_f32`'s value for the new state: `state / u32::MAX`, which lies in
      [0, 1] (the upper end is reached by the state `u32::MAX`). */
  function Unit(s: u32): (u: real)
    ensures 0.0 <= u <= 1.0
    ensures s == 0 ==> u == 0.0
  {
    s as real / U32_MAX
  }

  /** `random_bipolar`: the unit draw stretched onto [-1, 1]. */
  function Bipolar(s: u32): (b: real)
    ensures -1.0 <= b <= 1.0
    ensures b == 2.0 * Unit(s) - 1.0
  {
    Unit(s) * 2.0 - 1.0
  }

  // ---------------------------------------------------------------------------
  // Parameters
  // ---------------------------------------------------------------------------

  datatype Params = Params(grainSize: GrainSize, density: real, pitchSpread: real, position: real, spray: real)

  predicate ParamsOk(p: Params) {
    MIN_GRAIN_SIZE <= p.grainSize <= MAX_GRAIN_SIZE && 1.0 <= p.density <= 100.0 &&
    0.0 <= p.pitchSpread <= 1.0 && 0.0 <= p.position <= 1.0 && 0.0 <= p.spray <= 1.0
  }

  /** The clamps at the top of `process`: every parameter lands in its range
      and parameters already in range are kept. */
  function ClampParams(grainSize: u32, density: real, pitchSpread: real, position: real, spray: real): (p: Params)
    ensures ParamsOk(p)
    ensures MIN_GRAIN_SIZE <= grainSize <= MAX_GRAIN_SIZE ==> p.grainSize == grainSize
    ensures 1.0 <= density <= 100.0 ==> p.density == density
    ensures 0.0 <= pitchSpread <= 1.0 ==> p.pitchSpread == pitchSpread
    ensures 0.0 <= position <= 1.0 ==> p.position == position
    ensures 0.0 <= spray <= 1.0 ==> p.spray == spray
  {
    Params(ClampInt(grainSize, MIN_GRAIN_SIZE, MAX_GRAIN_SIZE), Clamp(density, 1.0, 100.0),
           Clamp(pitchSpread, 0.0, 1.0), Clamp(position, 0.0, 1.0), Clamp(spray, 0.0, 1.0))
  }

  /** Everything one block of `process` reads but never changes: the clamped
      parameters, `spawn_interval = sample_rate / density`, the source slice,
      its channel count and frame count, and the transcendental functions. */
  datatype Setup = Setup(params: Params, interval: real, source: seq<real>, channels: nat,
                         frames: nat, libm: Libm)

  /** `SOURCE_LEN / SOURCE_CHANNELS` for one or two channels. */
  function Frames(len: nat, channels: nat): (f: nat)
    requires 1 <= channels <= 2
    ensures f == len / channels
  {
    if channels == 1 then len else len / 2
  }

  predicate SetupOk(s: Setup) {
    ParamsOk(s.params) && s.interval > 0.0 && 1 <= s.channels <= 2 &&
    s.frames == Frames(|s.source|, s.channels) && s.frames >= 1
  }

  /** With a sample rate `init_engine` accepts and a clamped density, grains
      are at least 80 samples apart. */
  lemma IntervalBounds(sampleRate: real, p: Params)
    requires 8000.0 <= sampleRate <= 192000.0 && ParamsOk(p)
    ensures 80.0 <= sampleRate / p.density <= 192000.0
  {
    var q := sampleRate / p.density;
    QuotientBounds(sampleRate, p.density, q);
  }

  /** `q = r / d` with `d` in [1, 100] lies between `r / 100` and `r`. */
  lemma QuotientBounds(r: real, d: real, q: real)
    requires r >= 0.0 && 1.0 <= d <= 100.0 && q * d == r
    ensures r / 100.0 <= q <= r
  {
    NonNegativeFactor(q, d);
    MulMonotone(q, d, 100.0);
    MulMonotone(q, 1.0, d);
    assert q * 1.0 <= q * d;
  }

  // ---------------------------------------------------------------------------
  // Spawning
  // ---------------------------------------------------------------------------

  /** The first inactive slot among the first `n`, or `n` when all of them
      are active. */
  function FreeBelow(pool: seq<Grain>, n: nat): (j: nat)
    requires n <= |pool|
    ensures j <= n
    decreases n
  {
    if n == 0 then 0
    else
      var j := FreeBelow(pool, n - 1);
      if j < n - 1 then j
      else if !pool[n - 1].active then n - 1
      else n
  }

  /** The first inactive slot, or the pool size for a full pool. */
  function FirstFree(pool: seq<Grain>): (i: nat)
    ensures i <= |pool|
  {
    FreeBelow(pool, |pool|)
  }

  /** Every slot below the one found is active, and the one found is
      inactive unless none is. */
  lemma {:induction false} FreeBelowIsFirst(pool: seq<Grain>, n: nat)
    requires n <= |pool|
    ensures forall j :: 0 <= j < FreeBelow(pool, n) ==> pool[j].active
    ensures FreeBelow(pool, n) < n ==> !pool[FreeBelow(pool, n)].active
    decreases n
  {
    if n > 0 {
      FreeBelowIsFirst(pool, n - 1);
    }
  }

  /** Once an inactive slot is found, looking at more slots finds the same. */
  lemma {:induction false} FreeBelowStable(pool: seq<Grain>, n: nat, m: nat)
    requires n <= m <= |pool| && FreeBelow(pool, n) < n
    ensures FreeBelow(pool, m) == FreeBelow(pool, n)
    decreases m
  {
    if m > n {
      FreeBelowStable(pool, n, m - 1);
    }
  }

  /** `FirstFree` finds the lowest inactive slot: all slots before it are
      active, and it is inactive unless the pool is full. */
  lemma FirstFreeIsFirst(pool: seq<Grain>)
    ensures forall j :: 0 <= j < FirstFree(pool) ==> pool[j].active
    ensures FirstFree(pool) < |pool| ==> !pool[FirstFree(pool)].active
  {
    FreeBelowIsFirst(pool, |pool|);
  }

  /** A new grain from its four draws: the position is scattered around
      `position` by `spray` and clamped to [0, 1], the rate is `2^(pitch draw *
      pitch_spread)`, the pan is the pan draw scaled to ±0.7 and the amplitude
      lies in [0.8, 1] for a unit draw. */
  function GrainFrom(p: Params, posDraw: real, pitchDraw: real, panDraw: real, ampDraw: real, libm: Libm): (g: Grain)
    ensures g.active && g.phase == 0.0 && g.sizeSamples == p.grainSize
    ensures 0.0 <= g.sourcePos <= 1.0
    ensures 0.0 <= ampDraw <= 1.0 ==> 0.8 <= g.amp <= 1.0
    ensures -1.0 <= panDraw <= 1.0 ==> -0.7 <= g.pan <= 0.7
    ensures posDraw == 0.0 || p.spray == 0.0 ==> g.sourcePos == Clamp(p.position, 0.0, 1.0)
    ensures pitchDraw == 0.0 || p.pitchSpread == 0.0 ==> g.rate == libm.exp2(0.0)
  {
    var pos := Clamp(p.position + posDraw * p.spray, 0.0, 1.0);
    var rate := libm.exp2(pitchDraw * p.pitchSpread);
    Grain(true, pos, 0.0, rate, 0.8 + ampDraw * 0.2, p.grainSize, panDraw * 0.7)
  }

  /** A new grain from four consecutive draws: position spray, pitch offset,
      pan and amplitude, in that order. It starts active at phase 0 with the
      clamped size, a position in [0, 1], an amplitude in [0.8, 1] and a pan
      within ±0.7; the generator has advanced exactly four times. */
  function Spawn(p: Params, rng: u32, libm: Libm): (r: (Grain, u32))
    ensures r.0.active && r.0.phase == 0.0 && r.0.sizeSamples == p.grainSize
    ensures 0.0 <= r.0.sourcePos <= 1.0
    ensures 0.8 <= r.0.amp <= 1.0 && -0.7 <= r.0.pan <= 0.7
    ensures r.1 == Draws(rng, 4)
  {
    var s1 := NextRng(rng);
    var s2 := NextRng(s1);
    var s3 := NextRng(s2);
    var s4 := NextRng(s3);
    (GrainFrom(p, Bipolar(s1), Bipolar(s2), Bipolar(s3), Unit(s4), libm), s4)
  }

  /** Spawning into the pool: the first inactive slot receives a new grain;
      a full pool draws nothing. */
  function SpawnInto(pool: seq<Grain>, p: Params, rng: u32, libm: Libm): (r: (seq<Grain>, u32))
    ensures |r.0| == |pool|
  {
    var i := FirstFree(pool);
    if i == |pool| then (pool, rng)
    else
      var g := Spawn(p, rng, libm);
      (pool[i := g.0], g.1)
  }

  /** The number of active grains. */
  function ActiveCount(pool: seq<Grain>): (n: nat)
    ensures n <= |pool|
    decreases |pool|
  {
    if pool == [] then 0
    else ActiveCount(pool[..|pool| - 1]) + (if pool[|pool| - 1].active then 1 else 0)
  }

  lemma {:induction false} ActiveCountUpdate(pool: seq<Grain>, i: nat, g: Grain)
    requires i < |pool|
    ensures ActiveCount(pool[i := g]) + (if pool[i].active then 1 else 0) ==
            ActiveCount(pool) + (if g.active then 1 else 0)
    decreases |pool|
  {
    var q := pool[i := g];
    var last := |pool| - 1;
    assert q[..last] == if i == last then pool[..last] else pool[..last][i := g];
    if i < last {
      ActiveCountUpdate(pool[..last], i, g);
    }
  }

  /** A full pool is unchanged and draws nothing. Otherwise exactly the lowest
      inactive slot changes, it becomes an active grain, the active count grows
      by one, and four numbers are drawn. */
  lemma SpawnIntoEffect(pool: seq<Grain>, p: Params, rng: u32, libm: Libm)
    ensures var r := SpawnInto(pool, p, rng, libm);
      (forall j :: 0 <= j < |pool| ==> pool[j].active) ==> r == (pool, rng)
    ensures var r := SpawnInto(pool, p, rng, libm);
      var i := FirstFree(pool);
      i < |pool| ==>
        r.0[i].active && r.0[i].phase == 0.0 && r.1 == Draws(rng, 4) &&
        ActiveCount(r.0) == ActiveCount(pool) + 1 &&
        (forall j :: 0 <= j < |pool| && j != i ==> r.0[j] == pool[j]) &&
        (forall j :: 0 <= j < i ==> pool[j].active) && !pool[i].active
  {
    var i := FirstFree(pool);
    FirstFreeIsFirst(pool);
    if i < |pool| {
      var g := Spawn(p, rng, libm);
      ActiveCountUpdate(pool, i, g.0);
    }
  }

  // ---------------------------------------------------------------------------
  // Rendering
  // ---------------------------------------------------------------------------

  /** The read guard as written, `source_idx < source_frames - 1` on `usize`:
      the subtraction wraps when there is no frame at all. */
  predicate GuardAsWritten(idx: u32, frames: u32) {
    idx < WrappingSub(frames, 1)
  }

  /** The read guard the model uses: a frame after `idx` exists. */
  predicate Guard(idx: nat, frames: nat) {
    idx + 1 < frames
  }

  /** Whenever the source holds a frame, the two guards agree. */
  lemma GuardAgrees(idx: u32, frames: u32)
    requires frames >= 1
    ensures GuardAsWritten(idx, frames) <==> Guard(idx, frames)
  {
  }

  /** With no frame the written guard passes for index 0, although no frame
      exists to read. */
  lemma GuardAsWrittenOverreads()
    ensures GuardAsWritten(0, 0) && !Guard(0, 0)
  {
  }

  /** A wrapping `length * channels` can leave a stereo source with a single
      sample, hence no frame: `load_source(_, 2863311531, 3)`. */
  lemma WrappedLoadHasNoFrame()
    ensures Wrap(2863311531 * 3) == 1 && ClampInt(3, 1, 2) == 2 && Wrap(2863311531 * 3) / ClampInt(3, 1, 2) == 0
  {
    DivModUnique(2863311531 * 3, U32_MODULUS, 2, 1);
  }

  /** Every index a guarded read touches lies inside the source: the mono
      read touches `idx, idx + 1` and the stereo read `2 idx .. 2 idx + 3`. */
  lemma ReadsInBounds(len: nat, channels: nat, idx: nat)
    requires 1 <= channels <= 2 && Guard(idx, len / channels)
    ensures channels == 1 ==> idx + 1 < len
    ensures channels == 2 ==> 2 * idx + 3 < len
  {
    var frames := len / channels;
    DivModUnique(len, channels, frames, len % channels);
    if channels == 2 {
      assert 2 * (idx + 2) <= 2 * frames;
    }
  }

  /** The downmixed frame `k`: the sample itself for mono, the mean of the two
      channels for stereo. */
  function Frame(s: Setup, k: nat): real
    requires SetupOk(s) && k < s.frames
  {
    if s.channels == 2 then
      assert 2 * k + 1 < |s.source| by { DivModUnique(|s.source|, 2, s.frames, |s.source| % 2); }
      (s.source[2 * k] + s.source[2 * k + 1]) * 0.5
    else s.source[k]
  }

  /** The source read at the fractional frame position `pos`: linear between
      frames `idx` and `idx + 1` when both exist, otherwise silence. */
  function ReadAt(s: Setup, pos: real): real
    requires SetupOk(s)
  {
    var idx := AsIndex(pos);
    if Guard(idx, s.frames) then Lerp(Frame(s, idx), Frame(s, idx + 1), pos - idx as real)
    else 0.0
  }

  /** A read at a non-negative position inside the source lies between the two
      neighbouring frames; outside it is silence. */
  lemma ReadAtBetween(s: Setup, pos: real)
    requires SetupOk(s) && pos >= 0.0
    ensures var idx := AsIndex(pos);
      Guard(idx, s.frames) ==> Min(Frame(s, idx), Frame(s, idx + 1)) <= ReadAt(s, pos) <= Max(Frame(s, idx), Frame(s, idx + 1))
    ensures !Guard(AsIndex(pos), s.frames) ==> ReadAt(s, pos) == 0.0
  {
    var idx := AsIndex(pos);
    if Guard(idx, s.frames) {
      LerpBetween(Frame(s, idx), Frame(s, idx + 1), pos - idx as real);
    }
  }

  /** The sample under a grain: the source read at `source_pos * frames`. */
  function GrainSample(s: Setup, g: Grain): real
    requires SetupOk(s)
  {
    ReadAt(s, g.sourcePos * s.frames as real)
  }

  /** The raised-cosine envelope `0.5 - 0.5 cos(2 pi phase)`; it lies in
      [0, 1] whenever the cosine does. */
  function Envelope(libm: Libm, phase: real): (e: real)
    ensures -1.0 <= libm.cos(phase * PI * 2.0) <= 1.0 ==> 0.0 <= e <= 1.0
  {
    0.5 - 0.5 * libm.cos(phase * PI * 2.0)
  }

  /** What an active grain adds to the two channels: its enveloped,
      amplitude-scaled sample under constant-power pan gains. */
  function Voice(s: Setup, g: Grain): (r: (real, real))
    requires SetupOk(s)
  {
    var out := GrainSample(s, g) * Envelope(s.libm, g.phase) * g.amp;
    var panNorm := (g.pan + 1.0) * 0.5;
    (out * s.libm.sqrt(1.0 - panNorm), out * s.libm.sqrt(panNorm))
  }

  /** `1 / size_samples`, the phase advance per sample. */
  function PhaseStep(size: u32): (d: real)
    requires size >= 1
    ensures d > 0.0 && d * size as real == 1.0
  {
    1.0 / size as real
  }

  /** A grain after one sample: an inactive grain is untouched; an active one
      moves by `rate / frames` through the source and by `1 / size_samples`
      through its envelope, and is deactivated once either reaches 1. */
  function Aged(s: Setup, g: Grain): (h: Grain)
    requires SetupOk(s)
    ensures !g.active ==> h == g
    ensures h == g.(active := h.active, sourcePos := h.sourcePos, phase := h.phase)
    ensures g.active ==> h.phase == g.phase + PhaseStep(g.sizeSamples)
    ensures h.active ==> h.phase < 1.0 && h.sourcePos < 1.0
    ensures g.active ==> (h.active <==> h.phase < 1.0 && h.sourcePos < 1.0)
  {
    if !g.active then g
    else
      var pos := g.sourcePos + g.rate / s.frames as real;
      var phase := g.phase + PhaseStep(g.sizeSamples);
      g.(sourcePos := pos, phase := phase, active := !(phase >= 1.0 || pos >= 1.0))
  }

  /** One grain for one sample: the aged grain and, for an active grain, its
      contribution to each channel (an inactive grain adds nothing). */
  function RenderGrain(s: Setup, g: Grain): (r: (Grain, real, real))
    requires SetupOk(s)
    ensures r.0 == Aged(s, g)
    ensures !g.active ==> r.1 == 0.0 && r.2 == 0.0
  {
    if !g.active then (g, 0.0, 0.0)
    else
      var v := Voice(s, g);
      (Aged(s, g), v.0, v.1)
  }

  /** The grain loop after its first `n` slots: each of them has been
      rendered in place, in index order, and its contributions summed. */
  function RenderUpTo(s: Setup, pool: seq<Grain>, n: nat): (r: (seq<Grain>, real, real))
    requires SetupOk(s) && n <= |pool|
    ensures |r.0| == |pool|
    decreases n
  {
    if n == 0 then (pool, 0.0, 0.0)
    else
      var front := RenderUpTo(s, pool, n - 1);
      var g := RenderGrain(s, pool[n - 1]);
      (front.0[n - 1 := g.0], front.1 + g.1, front.2 + g.2)
  }

  /** The whole pool for one sample: the updated pool and the two channel
      sums. */
  function RenderPool(s: Setup, pool: seq<Grain>): (r: (seq<Grain>, real, real))
    requires SetupOk(s)
    ensures |r.0| == |pool|
  {
    RenderUpTo(s, pool, |pool|)
  }

  /** After `n` slots, those are aged and the rest untouched. */
  lemma {:induction false} RenderUpToAges(s: Setup, pool: seq<Grain>, n: nat)
    requires SetupOk(s) && n <= |pool|
    ensures forall i :: 0 <= i < n ==> RenderUpTo(s, pool, n).0[i] == Aged(s, pool[i])
    ensures forall i :: n <= i < |pool| ==> RenderUpTo(s, pool, n).0[i] == pool[i]
    decreases n
  {
    if n > 0 {
      RenderUpToAges(s, pool, n - 1);
    }
  }

  /** Rendering ages every grain on its own: slot `i` of the new pool is
      slot `i` of the old one after one sample. */
  lemma RenderPoolAges(s: Setup, pool: seq<Grain>)
    requires SetupOk(s)
    ensures forall i :: 0 <= i < |pool| ==> RenderPool(s, pool).0[i] == Aged(s, pool[i])
  {
    RenderUpToAges(s, pool, |pool|);
  }

  /** A grain after `k` samples. */
  function Lived(s: Setup, g: Grain, k: nat): (h: Grain)
    requires SetupOk(s)
    ensures h.sizeSamples == g.sizeSamples
    decreases k
  {
    if k == 0 then g else Aged(s, Lived(s, g, k - 1))
  }

  /** `k` phase steps of size `d`, added one at a time. */
  function Elapsed(k: nat, d: real): real
    decreases k
  {
    if k == 0 then 0.0 else Elapsed(k - 1, d) + d
  }

  lemma {:induction false} ElapsedIsProduct(k: nat, d: real)
    ensures Elapsed(k, d) == k as real * d
    decreases k
  {
    if k > 0 {
      ElapsedIsProduct(k - 1, d);
      assert (k - 1) as real * d + d == k as real * d;
    }
  }

  /** `size` or more steps of `1 / size` add up to at least 1. */
  lemma ElapsedReachesOne(k: nat, size: nat, d: real)
    requires k >= size >= 1 && d > 0.0 && d * size as real == 1.0
    ensures Elapsed(k, d) >= 1.0
  {
    ElapsedIsProduct(k, d);
    assert (k as real - size as real) * d >= 0.0;
  }

  /** The phase of a grain after `k` samples while it stays active. */
  lemma {:induction false} LivedPhase(s: Setup, g: Grain, k: nat)
    requires SetupOk(s)
    ensures var h := Lived(s, g, k);
      h.active ==> h.phase == g.phase + Elapsed(k, PhaseStep(g.sizeSamples))
    decreases k
  {
    if k > 0 {
      LivedPhase(s, g, k - 1);
    }
  }

  /** An active grain's phase grows by `1 / size_samples` per sample. */
  lemma GrainPhase(s: Setup, g: Grain, k: nat)
    requires SetupOk(s)
    ensures var h := Lived(s, g, k);
      h.active ==> h.phase == g.phase + k as real * PhaseStep(g.sizeSamples)
  {
    LivedPhase(s, g, k);
    ElapsedIsProduct(k, PhaseStep(g.sizeSamples));
  }

  /** Hence a grain that starts at a non-negative phase is inactive after
      `size_samples` samples. */
  lemma GrainLifetime(s: Setup, g: Grain, k: nat)
    requires SetupOk(s) && g.phase >= 0.0 && k >= g.sizeSamples as nat
    ensures !Lived(s, g, k).active
  {
    LivedPhase(s, g, k);
    ElapsedReachesOne(k, g.sizeSamples as nat, PhaseStep(g.sizeSamples));
  }

  // ---------------------------------------------------------------------------
  // Samples and blocks
  // ---------------------------------------------------------------------------

  /** The state `process` changes: the pool, the generator and the accumulator. */
  datatype Voices = Voices(pool: seq<Grain>, rng: u32, accumulator: real)

  /** The accumulator gains one per sample; once it reaches the interval it
      loses one interval and a grain is spawned. */
  function Tick(accumulator: real, interval: real): (r: (real, bool))
    requires interval > 0.0
    ensures accumulator >= 0.0 ==> r.0 >= 0.0
    ensures 0.0 <= accumulator < interval && interval >= 1.0 ==> 0.0 <= r.0 < interval
    ensures r.1 <==> accumulator + 1.0 >= interval
    ensures r.0 == accumulator + 1.0 - (if r.1 then interval else 0.0)
  {
    var acc := accumulator + 1.0;
    if acc >= interval then (acc - interval, true) else (acc, false)
  }

  /** The first half of a sample: tick the accumulator and, when a grain is
      due, spawn it into the first free slot. */
  function TickSpawn(s: Setup, v: Voices): (w: Voices)
    requires SetupOk(s)
    ensures |w.pool| == |v.pool|
    ensures v.accumulator >= 0.0 ==> w.accumulator >= 0.0
  {
    var t := Tick(v.accumulator, s.interval);
    if t.1 then
      var spawned := SpawnInto(v.pool, s.params, v.rng, s.libm);
      Voices(spawned.0, spawned.1, t.0)
    else v.(accumulator := t.0)
  }

  /** One sample: tick, spawn if due, then render every grain. */
  function SampleStep(s: Setup, v: Voices): (r: (Voices, real, real))
    requires SetupOk(s)
    ensures |r.0.pool| == |v.pool|
    ensures v.accumulator >= 0.0 ==> r.0.accumulator >= 0.0
  {
    var w := TickSpawn(s, v);
    var rendered := RenderPool(s, w.pool);
    (w.(pool := rendered.0), rendered.1, rendered.2)
  }

  /** Per sample the generator advances by four draws when a grain spawns and
      not at all otherwise. */
  lemma SampleStepDraws(s: Setup, v: Voices)
    requires SetupOk(s)
    ensures SampleStep(s, v).0.rng == v.rng || SampleStep(s, v).0.rng == Draws(v.rng, 4)
  {
    SpawnIntoEffect(v.pool, s.params, v.rng, s.libm);
  }

  /** At most one grain becomes active per sample. */
  lemma TickSpawnAddsAtMostOne(s: Setup, v: Voices)
    requires SetupOk(s)
    ensures ActiveCount(TickSpawn(s, v).pool) <= ActiveCount(v.pool) + 1
  {
    SpawnIntoEffect(v.pool, s.params, v.rng, s.libm);
  }

  /** A block of `n` samples: the final state and both output channels. */
  function Block(s: Setup, v: Voices, n: nat): (r: (Voices, seq<real>, seq<real>))
    requires SetupOk(s)
    ensures |r.0.pool| == |v.pool|
    ensures |r.1| == n && |r.2| == n
    ensures v.accumulator >= 0.0 ==> r.0.accumulator >= 0.0
    decreases n
  {
    if n == 0 then (v, [], [])
    else
      var b := Block(s, v, n - 1);
      var step := SampleStep(s, b.0);
      (step.0, b.1 + [step.1], b.2 + [step.2])
  }

  /** The generator after `n` samples is the one after `n - 1` samples, or
      four draws further. */
  lemma BlockStepDraws(s: Setup, v: Voices, n: nat)
    requires SetupOk(s) && n > 0
    ensures var before := Block(s, v, n - 1).0.rng;
      Block(s, v, n).0.rng == before || Block(s, v, n).0.rng == Draws(before, 4)
  {
    SampleStepDraws(s, Block(s, v, n - 1).0);
  }

  /** Over a block the generator has advanced by four draws per spawn: some
      whole number of spawns, at most one per sample. */
  lemma {:induction false} BlockDraws(s: Setup, v: Voices, n: nat)
    requires SetupOk(s)
    ensures exists k :: 0 <= k <= n && Block(s, v, n).0.rng == SpawnDraws(v.rng, k)
    decreases n
  {
    if n == 0 {
      assert Block(s, v, 0).0.rng == SpawnDraws(v.rng, 0);
    } else {
      BlockDraws(s, v, n - 1);
      var k :| 0 <= k <= n - 1 && Block(s, v, n - 1).0.rng == SpawnDraws(v.rng, k);
      BlockStepDraws(s, v, n);
      SpawnDrawsNext(v.rng, k);
      if Block(s, v, n).0.rng != SpawnDraws(v.rng, k) {
        assert Block(s, v, n).0.rng == SpawnDraws(v.rng, k + 1);
      }
    }
  }

  // ---------------------------------------------------------------------------
  // The engine
  // ---------------------------------------------------------------------------

  /** `a[..n] := 0` for `clear_buffer` on an output slice of length `n`. */
  method ClearSlice(a: array<real>, n: nat)
    requires n <= a.Length
    modifies a
    ensures forall k :: 0 <= k < n ==> a[k] == 0.0
    ensures forall k :: n <= k < a.Length ==> a[k] == old(a[k])
  {
    var i := 0;
    while i < n
      invariant 0 <= i <= n
      invariant forall k :: 0 <= k < i ==> a[k] == 0.0
      invariant forall k :: n <= k < a.Length ==> a[k] == old(a[k])
    {
      a[i] := 0.0;
      i := i + 1;
    }
  }

  /** The statics of granular.rs: `GRAINS`, `RNG_STATE`, `SOURCE_LEN`,
      `SOURCE_CHANNELS` and `SPAWN_ACCUMULATOR`. */
  class GranularEngine {
    const grains: array<Grain>
    var rng: u32
    var sourceLen: u32
    var sourceChannels: u32
    var accumulator: real

    function State(): Voices
      reads this, grains
    {
      Voices(grains[..], rng, accumulator)
    }

    /** A stereo or mono source with at least one frame once loaded, and a
        non-negative accumulator. */
    ghost predicate Valid()
      reads this, grains
    {
      1 <= sourceChannels <= 2 && (sourceLen == 0 || sourceChannels <= sourceLen) &&
      accumulator >= 0.0
    }

    /** The statics' initial values: idle grains, the seed, no source. */
    constructor ()
      ensures Valid() && fresh(grains)
      ensures grains[..] == seq(MAX_GRAINS, _ => IDLE_GRAIN)
      ensures rng == RNG_SEED && sourceLen == 0 && sourceChannels == 1 && accumulator == 0.0
    {
      grains := new Grain[MAX_GRAINS](_ => IDLE_GRAIN);
      rng := RNG_SEED;
      sourceLen := 0;
      sourceChannels := 1;
      accumulator := 0.0;
      new;
      assert grains[..] == seq(MAX_GRAINS, _ => IDLE_GRAIN);
    }

    /** `random_f32`: one step of the generator and its unit value. */
    method RandomUnit() returns (u: real)
      modifies this
      ensures rng == NextRng(old(rng)) && u == Unit(rng)
      ensures sourceLen == old(sourceLen) && sourceChannels == old(sourceChannels)
      ensures accumulator == old(accumulator)
    {
      WrappingStepIsLcg(rng);
      rng := Wrap(Wrap(rng * LCG_MULTIPLIER) + LCG_INCREMENT);
      u := (rng as real) / U32_MAX;
    }

    /** `random_bipolar`. */
    method RandomBipolar() returns (b: real)
      modifies this
      ensures rng == NextRng(old(rng)) && b == Bipolar(rng)
      ensures sourceLen == old(sourceLen) && sourceChannels == old(sourceChannels)
      ensures accumulator == old(accumulator)
    {
      var u := RandomUnit();
      b := u * 2.0 - 1.0;
    }

    /** A fresh grain from four draws: position spray, pitch offset, pan and
        amplitude, in that order. */
    method NewGrain(p: Params, libm: Libm) returns (g: Grain)
      modifies this
      ensures (g, rng) == Spawn(p, old(rng), libm)
      ensures sourceLen == old(sourceLen) && sourceChannels == old(sourceChannels)
      ensures accumulator == old(accumulator)
    {
      var posDraw := RandomBipolar();
      var pitchDraw := RandomBipolar();
      var panDraw := RandomBipolar();
      var ampDraw := RandomUnit();
      g := GrainFrom(p, posDraw, pitchDraw, panDraw, ampDraw, libm);
    }

    /** The first-free scan of `process`: the first inactive grain is
        re-initialised from four draws and the scan stops. */
    method SpawnGrain(p: Params, libm: Libm)
      modifies this, grains
      ensures (grains[..], rng) == SpawnInto(old(grains[..]), p, old(rng), libm)
      ensures sourceLen == old(sourceLen) && sourceChannels == old(sourceChannels)
      ensures accumulator == old(accumulator)
    {
      ghost var pool := grains[..];
      var i := 0;
      while i < grains.Length
        invariant 0 <= i <= grains.Length
        invariant FreeBelow(pool, i) == i
        invariant grains[..] == pool && rng == old(rng)
        invariant sourceLen == old(sourceLen) && sourceChannels == old(sourceChannels)
        invariant accumulator == old(accumulator)
      {
        if !grains[i].active {
          FreeBelowStable(pool, i + 1, |pool|);
          var g := NewGrain(p, libm);
          grains[i] := g;
          return;
        }
        i := i + 1;
      }
    }

    /** The grain loop of `process` for one sample: every active grain is
        rendered in index order and its contributions are summed. */
    method RenderGrains(s: Setup) returns (left: real, right: real)
      requires SetupOk(s)
      modifies grains
      ensures (grains[..], left, right) == RenderPool(s, old(grains[..]))
    {
      ghost var pool := grains[..];
      left, right := 0.0, 0.0;
      var i := 0;
      while i < grains.Length
        invariant 0 <= i <= grains.Length
        invariant (grains[..], left, right) == RenderUpTo(s, pool, i)
      {
        RenderUpToAges(s, pool, i);
        var g := RenderGrain(s, grains[i]);
        grains[i] := g.0;
        left := left + g.1;
        right := right + g.2;
        i := i + 1;
      }
    }

    /** One sample `idx` of `process`: tick, spawn, render, and add the two
        channel sums to the output slots `idx`. */
    method Step(s: Setup, outputL: array<real>, outputR: array<real>, idx: nat)
      requires SetupOk(s) && Valid()
      requires outputL != outputR && idx < outputL.Length && idx < outputR.Length
      modifies this, grains, outputL, outputR
      ensures Valid()
      ensures var r := SampleStep(s, old(State()));
        State() == r.0 && outputL[..] == old(outputL[..])[idx := old(outputL[idx]) + r.1] &&
        outputR[..] == old(outputR[..])[idx := old(outputR[idx]) + r.2]
      ensures sourceLen == old(sourceLen) && sourceChannels == old(sourceChannels)
    {
      var t := Tick(accumulator, s.interval);
      accumulator := t.0;
      if t.1 {
        SpawnGrain(s.params, s.libm);
      }
      var left, right := RenderGrains(s);
      outputL[idx] := outputL[idx] + left;
      outputR[idx] := outputR[idx] + right;
    }

    /** One more sample of a block whose output slots are cleared: the state
        and the filled prefixes of both slices follow `Block`, and every other
        output slot is kept. */
    method AdvanceBlock(s: Setup, outputL: array<real>, outputR: array<real>, ghost v0: Voices, idx: nat)
      requires SetupOk(s) && Valid()
      requires outputL != outputR && idx < outputL.Length && idx < outputR.Length
      requires outputL[idx] == 0.0 && outputR[idx] == 0.0
      requires var b := Block(s, v0, idx);
        State() == b.0 && outputL[..idx] == b.1 && outputR[..idx] == b.2
      modifies this, grains, outputL, outputR
      ensures Valid()
      ensures var b := Block(s, v0, idx + 1);
        State() == b.0 && outputL[..idx + 1] == b.1 && outputR[..idx + 1] == b.2
      ensures forall k :: 0 <= k < outputL.Length && k != idx ==> outputL[k] == old(outputL[k])
      ensures forall k :: 0 <= k < outputR.Length && k != idx ==> outputR[k] == old(outputR[k])
      ensures sourceLen == old(sourceLen) && sourceChannels == old(sourceChannels)
    {
      ghost var r := SampleStep(s, State());
      ghost var beforeL, beforeR := outputL[..], outputR[..];
      Step(s, outputL, outputR, idx);
      AddToCleared(beforeL, outputL[..], idx, r.1);
      AddToCleared(beforeR, outputR[..], idx, r.2);
    }

    /** The per-sample loop of `process` over a block of `n` samples, summing
        into cleared output slices. */
    method RunBlock(s: Setup, outputL: array<real>, outputR: array<real>, n: nat)
      requires SetupOk(s) && Valid()
      requires outputL != outputR && n <= outputL.Length && n <= outputR.Length
      requires forall k :: 0 <= k < n ==> outputL[k] == 0.0 && outputR[k] == 0.0
      modifies this, grains, outputL, outputR
      ensures Valid()
      ensures var b := Block(s, old(State()), n);
        State() == b.0 && outputL[..n] == b.1 && outputR[..n] == b.2
      ensures forall k :: n <= k < outputL.Length ==> outputL[k] == old(outputL[k])
      ensures forall k :: n <= k < outputR.Length ==> outputR[k] == old(outputR[k])
      ensures sourceLen == old(sourceLen) && sourceChannels == old(sourceChannels)
    {
      ghost var v0 := State();
      var idx := 0;
      while idx < n
        invariant 0 <= idx <= n && Valid()
        invariant var b := Block(s, v0, idx);
          State() == b.0 && outputL[..idx] == b.1 && outputR[..idx] == b.2
        invariant forall k :: idx <= k < n ==> outputL[k] == 0.0 && outputR[k] == 0.0
        invariant forall k :: n <= k < outputL.Length ==> outputL[k] == old(outputL[k])
        invariant forall k :: n <= k < outputR.Length ==> outputR[k] == old(outputR[k])
        invariant sourceLen == old(sourceLen) && sourceChannels == old(sourceChannels)
      {
        AdvanceBlock(s, outputL, outputR, v0, idx);
        idx := idx + 1;
      }
    }

    /** `process`: without a source both output slices are cleared and no
        state changes. Otherwise the parameters are clamped, the slices are
        cleared and every sample of the block ticks the accumulator, spawns at
        most one grain into the first free slot and renders the pool. Output
        samples past the block are kept. */
    method Process(arena: Memory.Arena, source: seq<real>, libm: Libm, grainSize: u32, density: real,
                   pitchSpread: real, position: real, spray: real)
      requires Valid() && arena.Valid() && arena.attached && |source| == sourceLen
      modifies this, grains, arena.outputL, arena.outputR
      ensures Valid() && sourceLen == old(sourceLen) && sourceChannels == old(sourceChannels)
      ensures forall k :: arena.SliceLen() <= k < arena.outputL.Length ==> arena.outputL[k] == old(arena.outputL[k])
      ensures forall k :: arena.SliceLen() <= k < arena.outputR.Length ==> arena.outputR[k] == old(arena.outputR[k])
      ensures sourceLen == 0 ==>
        State() == old(State()) &&
        (forall k :: 0 <= k < arena.SliceLen() ==> arena.outputL[k] == 0.0 && arena.outputR[k] == 0.0)
      ensures sourceLen > 0 ==>
        var p := ClampParams(grainSize, density, pitchSpread, position, spray);
        var s := Setup(p, arena.SampleRate() / p.density, source, sourceChannels as nat,
                       sourceLen as nat / sourceChannels as nat, libm);
        var b := Block(s, old(State()), arena.SliceLen());
        State() == b.0 && arena.outputL[..arena.SliceLen()] == b.1 && arena.outputR[..arena.SliceLen()] == b.2
    {
      var n := arena.BufferSize() as nat;
      if sourceLen == 0 {
        ClearSlice(arena.outputL, n);
        ClearSlice(arena.outputR, n);
        return;
      }
      var sampleRate := arena.SampleRate();
      var p := ClampParams(grainSize, density, pitchSpread, position, spray);
      ClearSlice(arena.outputL, n);
      ClearSlice(arena.outputR, n);
      var frames := sourceLen as nat / sourceChannels as nat;
      IntervalBounds(sampleRate, p);
      var s := Setup(p, sampleRate / p.density, source, sourceChannels as nat, frames, libm);
      RunBlock(s, arena.outputL, arena.outputR, n);
    }

    /** Every grain deactivated, nothing else about it changed. */
    method DeactivateAll()
      modifies grains
      ensures forall i :: 0 <= i < grains.Length ==> grains[i] == old(grains[i]).(active := false)
    {
      var i := 0;
      while i < grains.Length
        invariant 0 <= i <= grains.Length
        invariant forall j :: 0 <= j < i ==> grains[j] == old(grains[j]).(active := false)
        invariant forall j :: i <= j < grains.Length ==> grains[j] == old(grains[j])
      {
        grains[i] := grains[i].(active := false);
        i := i + 1;
      }
    }

    /** `load_source`: records `length * channels` (wrapping) samples and the
        channel count clamped to [1, 2], deactivates every grain, zeroes the
        accumulator and reports the length to the arena. The generator keeps
        its state. */
    method LoadSource(arena: Memory.Arena, length: u32, channels: u32)
      requires Valid()
      requires Wrap(length * channels) == 0 || ClampInt(channels, 1, 2) <= Wrap(length * channels)
      modifies this, grains, arena
      ensures Valid()
      ensures sourceLen == Wrap(length * channels) && sourceChannels == ClampInt(channels, 1, 2)
      ensures accumulator == 0.0 && rng == old(rng) && ActiveCount(grains[..]) == 0
      ensures forall i :: 0 <= i < grains.Length ==> grains[i] == old(grains[i]).(active := false)
      ensures arena.attached == old(arena.attached) && arena.sampleRate == old(arena.sampleRate)
      ensures arena.bufferSize == old(arena.bufferSize) && arena.irLen == old(arena.irLen)
      ensures old(arena.attached) ==>
        arena.granularSourceLen == length && arena.flags == Memory.WithFlag(old(arena.flags), Memory.FLAG_GRANULAR_READY)
      ensures !old(arena.attached) ==>
        arena.granularSourceLen == old(arena.granularSourceLen) && arena.flags == old(arena.flags)
    {
      sourceLen := Wrap(length * channels);
      sourceChannels := ClampInt(channels, 1, 2);
      DeactivateAll();
      accumulator := 0.0;
      NoneActive(grains[..]);
      arena.SetGranularSourceLen(length);
    }

    /** `reset`: every grain deactivated and the accumulator zeroed; the
        source and the generator are kept. */
    method Reset()
      requires Valid()
      modifies this, grains
      ensures Valid()
      ensures accumulator == 0.0 && ActiveCount(grains[..]) == 0
      ensures forall i :: 0 <= i < grains.Length ==> grains[i] == old(grains[i]).(active := false)
      ensures rng == old(rng) && sourceLen == old(sourceLen) && sourceChannels == old(sourceChannels)
    {
      DeactivateAll();
      accumulator := 0.0;
      NoneActive(grains[..]);
    }
  }

  /** Adding `x` to a cleared slot `idx` extends the prefix before it by `x`. */
  lemma AddToCleared(before: seq<real>, after: seq<real>, idx: nat, x: real)
    requires idx < |before| && before[idx] == 0.0 && after == before[idx := before[idx] + x]
    ensures after[..idx + 1] == before[..idx] + [x]
  {
  }

  /** A pool without an active grain counts none. */
  lemma {:induction false} NoneActive(pool: seq<Grain>)
    requires forall i :: 0 <= i < |pool| ==> !pool[i].active
    ensures ActiveCount(pool) == 0
    decreases |pool|
  {
    if pool != [] {
      NoneActive(pool[..|pool| - 1]);
    }
  }
}
