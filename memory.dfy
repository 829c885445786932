/** The memory arena of memory.rs: the fixed region layout, the engine state
    record with its flag word, and the operations on it.

    The file holds two versions of the engine pointer. `InitEngine` and the
    `*AsWritten` getters follow the code exactly: the state lives at offset 0,
    so the pointer `init_engine` stores is the null pointer. `Arena` is the
    corrected engine that the rest of the model uses: it records whether an
    engine is attached, independently of where its state lives, and keeps each
    I/O region in its own array. */
module Memory {
  import opened Ints

  // ---------------------------------------------------------------------------
  // Layout constants (byte offsets into linear memory)
  // ---------------------------------------------------------------------------

  const NULL: nat := 0

  const STATE_OFFSET: nat := 0x0000
  const STATE_SIZE: nat := 256

  const INPUT_L_OFFSET: nat := 0x0100
  const INPUT_R_OFFSET: nat := 0x0300
  const OUTPUT_L_OFFSET: nat := 0x0500
  const OUTPUT_R_OFFSET: nat := 0x0700

  const MAX_BUFFER_SIZE: nat := 512
  const BUFFER_BYTES: nat := MAX_BUFFER_SIZE * 4

  const WORK1_OFFSET: nat := 0x0900
  const WORK2_OFFSET: nat := 0x1100
  const WORK_BUFFER_SIZE: nat := 512

  const GRANULAR_SOURCE_OFFSET: nat := 0x1900
  const MAX_GRANULAR_SOURCE_SAMPLES: nat := 44100 * 10 * 2

  const IR_OFFSET: nat := 0x380000
  const MAX_IR_SAMPLES: nat := 48000 * 5 * 2

  const FFT_OFFSET: nat := 0x560000
  const FFT_SIZE: nat := 4096

  const FLAG_INITIALIZED: bv32 := 1
  const FLAG_GRANULAR_READY: bv32 := 2
  const FLAG_IR_READY: bv32 := 4

  /** What the getters report when no engine is attached. */
  const DEFAULT_SAMPLE_RATE: real := 44100.0
  const DEFAULT_BUFFER_SIZE: u32 := 128

  // ---------------------------------------------------------------------------
  // Regions
  // ---------------------------------------------------------------------------

  /** A byte interval [start, start + size) of linear memory. */
  datatype Region = Region(start: nat, size: nat) {
    function End(): nat {
      start + size
    }
  }

  predicate Disjoint(a: Region, b: Region) {
    a.End() <= b.start || b.End() <= a.start
  }

  predicate PairwiseDisjoint(rs: seq<Region>) {
    forall i, j :: 0 <= i < j < |rs| ==> Disjoint(rs[i], rs[j])
  }

  /** Each region ends where or before the next begins. */
  predicate Ascending(rs: seq<Region>) {
    forall i :: 0 <= i < |rs| - 1 ==> rs[i].End() <= rs[i + 1].start
  }

  lemma {:induction false} AscendingIsPairwiseDisjoint(rs: seq<Region>)
    requires Ascending(rs)
    ensures PairwiseDisjoint(rs)
  {
    forall i, j | 0 <= i < j < |rs|
      ensures rs[i].End() <= rs[j].start
    {
      AscendingChain(rs, i, j);
    }
  }

  lemma {:induction false} AscendingChain(rs: seq<Region>, i: nat, j: nat)
    requires Ascending(rs) && i < j < |rs|
    ensures rs[i].End() <= rs[j].start
    decreases j - i
  {
    if i + 1 < j {
      AscendingChain(rs, i + 1, j);
    }
  }

  /** The regions the I/O slices of a `bufferSize`-sample block occupy, and the
      first work buffer that follows them. */
  function IoRegions(bufferSize: nat): seq<Region> {
    [Region(INPUT_L_OFFSET, 4 * bufferSize), Region(INPUT_R_OFFSET, 4 * bufferSize),
     Region(OUTPUT_L_OFFSET, 4 * bufferSize), Region(OUTPUT_R_OFFSET, 4 * bufferSize),
     Region(WORK1_OFFSET, WORK_BUFFER_SIZE * 4)]
  }

  /** The I/O slices are 0x200 bytes apart, so they are disjoint exactly when a
      block is at most 128 samples. */
  lemma IoRegionsDisjointIff(bufferSize: nat)
    ensures PairwiseDisjoint(IoRegions(bufferSize)) <==> bufferSize <= 128
  {
    var rs := IoRegions(bufferSize);
    if bufferSize <= 128 {
      assert Ascending(rs);
      AscendingIsPairwiseDisjoint(rs);
    } else {
      assert !Disjoint(rs[0], rs[1]);
    }
  }

  /** `StaticRegions`: the work buffers, the largest granular source and the
      largest impulse response, in memory order. */
  function StaticRegions(): seq<Region> {
    [Region(WORK1_OFFSET, WORK_BUFFER_SIZE * 4), Region(WORK2_OFFSET, WORK_BUFFER_SIZE * 4),
     Region(GRANULAR_SOURCE_OFFSET, MAX_GRANULAR_SOURCE_SAMPLES * 4), Region(IR_OFFSET, MAX_IR_SAMPLES * 4)]
  }

  /** The work, granular and IR regions are disjoint, in increasing order, and
      all lie between the state record and the FFT area. */
  lemma StaticRegionsOrdered()
    ensures Ascending(StaticRegions()) && PairwiseDisjoint(StaticRegions())
    ensures STATE_OFFSET + STATE_SIZE <= INPUT_L_OFFSET
    ensures StaticRegions()[3].End() <= FFT_OFFSET
  {
    AscendingIsPairwiseDisjoint(StaticRegions());
  }

  /** A layout with the I/O buffers `BUFFER_BYTES` apart and everything up to the
      granular source moved along accordingly. */
  function CorrectedLayout(bufferSize: nat): seq<Region> {
    var io := 0x0100;
    [Region(STATE_OFFSET, STATE_SIZE),
     Region(io, 4 * bufferSize), Region(io + BUFFER_BYTES, 4 * bufferSize),
     Region(io + 2 * BUFFER_BYTES, 4 * bufferSize), Region(io + 3 * BUFFER_BYTES, 4 * bufferSize),
     Region(io + 4 * BUFFER_BYTES, WORK_BUFFER_SIZE * 4), Region(io + 5 * BUFFER_BYTES, WORK_BUFFER_SIZE * 4),
     Region(io + 6 * BUFFER_BYTES, MAX_GRANULAR_SOURCE_SAMPLES * 4), Region(IR_OFFSET, MAX_IR_SAMPLES * 4)]
  }

  /** Every region of the corrected layout is disjoint from every other for each
      block size `init_engine` accepts. */
  lemma CorrectedLayoutDisjoint(bufferSize: nat)
    requires bufferSize <= MAX_BUFFER_SIZE
    ensures PairwiseDisjoint(CorrectedLayout(bufferSize))
    ensures CorrectedLayout(bufferSize)[8].End() <= FFT_OFFSET
  {
    assert Ascending(CorrectedLayout(bufferSize));
    AscendingIsPairwiseDisjoint(CorrectedLayout(bufferSize));
  }

  // ---------------------------------------------------------------------------
  // Channel to offset
  // ---------------------------------------------------------------------------

  /** `get_input_buffer`: channel 0 and 1 map to their fixed offsets, anything
      else to null. */
  function InputBufferOffset(channel: u32): (p: nat)
    ensures p != NULL <==> channel <= 1
    ensures p != NULL ==> p % 4 == 0 && STATE_OFFSET + STATE_SIZE <= p < OUTPUT_L_OFFSET
  {
    match channel
    case 0 => INPUT_L_OFFSET
    case 1 => INPUT_R_OFFSET
    case _ => NULL
  }

  /** `get_output_buffer`. */
  function OutputBufferOffset(channel: u32): (p: nat)
    ensures p != NULL <==> channel <= 1
    ensures p != NULL ==> p % 4 == 0 && INPUT_R_OFFSET < p < WORK1_OFFSET
  {
    match channel
    case 0 => OUTPUT_L_OFFSET
    case 1 => OUTPUT_R_OFFSET
    case _ => NULL
  }

  /** The four valid channel offsets are pairwise different. */
  lemma ChannelOffsetsDistinct(a: u32, b: u32)
    requires a <= 1 && b <= 1
    ensures InputBufferOffset(a) != OutputBufferOffset(b)
    ensures a != b ==> InputBufferOffset(a) != InputBufferOffset(b) && OutputBufferOffset(a) != OutputBufferOffset(b)
  {
  }

  // ---------------------------------------------------------------------------
  // Initialisation parameters and flags
  // ---------------------------------------------------------------------------

  /** What `init_engine` accepts. */
  predicate ValidInit(sampleRate: real, bufferSize: nat) {
    8000.0 <= sampleRate <= 192000.0 && 32 <= bufferSize <= MAX_BUFFER_SIZE
  }

  datatype InitStatus = Ok | BadSampleRate | BadBufferSize

  /** The check `init_engine` makes, sample rate first. */
  function InitOutcome(sampleRate: real, bufferSize: u32): (s: InitStatus)
    ensures s == Ok <==> ValidInit(sampleRate, bufferSize)
    ensures s == BadSampleRate <==> (sampleRate < 8000.0 || sampleRate > 192000.0)
  {
    if sampleRate < 8000.0 || sampleRate > 192000.0 then BadSampleRate
    else if bufferSize < 32 || bufferSize > MAX_BUFFER_SIZE then BadBufferSize
    else Ok
  }

  /** `flags |= bit` for one of the three flags: that bit is set afterwards and
      the other two are as they were. */
  function WithFlag(flags: bv32, bit: bv32): (r: bv32)
    requires bit == FLAG_INITIALIZED || bit == FLAG_GRANULAR_READY || bit == FLAG_IR_READY
    ensures r & bit == bit
    ensures bit != FLAG_INITIALIZED ==> r & FLAG_INITIALIZED == flags & FLAG_INITIALIZED
    ensures bit != FLAG_GRANULAR_READY ==> r & FLAG_GRANULAR_READY == flags & FLAG_GRANULAR_READY
    ensures bit != FLAG_IR_READY ==> r & FLAG_IR_READY == flags & FLAG_IR_READY
  {
    flags | bit
  }

  // ---------------------------------------------------------------------------
  // The engine pointer as written
  // ---------------------------------------------------------------------------

  /** The fields of `EngineState` (the reserved padding is not modelled). */
  datatype EngineState = EngineState(sampleRate: real, bufferSize: u32, flags: bv32,
                                     granularSourceLen: u32, irLen: u32)

  /** The `ENGINE` pointer (an address, `NULL` = 0) and the state record. */
  datatype Globals = Globals(engine: nat, state: EngineState)

  /** `init_engine` as written: on success the pointer is set to `STATE_OFFSET`
      and `STATE_OFFSET` is returned; on failure nothing changes and 0 is
      returned. Both outcomes return 0. */
  function InitEngine(g: Globals, sampleRate: real, bufferSize: u32): (r: (Globals, u32))
    ensures r.1 == 0
    ensures !ValidInit(sampleRate, bufferSize) ==> r.0 == g
    ensures ValidInit(sampleRate, bufferSize) ==>
      r.0.state == EngineState(sampleRate, bufferSize, FLAG_INITIALIZED, 0, 0) && r.0.engine == NULL
  {
    if sampleRate < 8000.0 || sampleRate > 192000.0 then (g, 0)
    else if bufferSize < 32 || bufferSize > MAX_BUFFER_SIZE as u32 then (g, 0)
    else (Globals(STATE_OFFSET, EngineState(sampleRate, bufferSize, FLAG_INITIALIZED, 0, 0)), STATE_OFFSET as u32)
  }

  /** `sample_rate()` as written. */
  function SampleRateAsWritten(g: Globals): real {
    if g.engine == NULL then DEFAULT_SAMPLE_RATE else g.state.sampleRate
  }

  /** `buffer_size()` as written. */
  function BufferSizeAsWritten(g: Globals): u32 {
    if g.engine == NULL then DEFAULT_BUFFER_SIZE else g.state.bufferSize
  }

  /** `is_initialized()` as written. */
  predicate IsInitializedAsWritten(g: Globals) {
    g.engine != NULL && g.state.flags & FLAG_INITIALIZED != 0
  }

  /** The caller cannot tell a successful initialisation from a rejected one:
      48 kHz with 256-sample blocks and a 1 Hz sample rate return the same code. */
  lemma InitReturnCodeAmbiguous(g: Globals)
    ensures ValidInit(48000.0, 256) && !ValidInit(1.0, 256)
    ensures InitEngine(g, 48000.0, 256).1 == InitEngine(g, 1.0, 256).1
  {
  }

  /** After a successful `init_engine` the stored pointer is null, so the getters
      ignore the stored state: 48 kHz with 256-sample blocks reads back as the
      44.1 kHz, 128-sample defaults and the engine reports itself uninitialised. */
  lemma InitLeavesEngineNull(g: Globals)
    ensures var g' := InitEngine(g, 48000.0, 256).0;
      g'.state.sampleRate == 48000.0 && g'.state.bufferSize == 256 &&
      SampleRateAsWritten(g') == 44100.0 && BufferSizeAsWritten(g') == 128 &&
      !IsInitializedAsWritten(g')
  {
  }

  /** Block sizes above 128 are accepted even though their I/O slices overlap. */
  lemma InitAcceptsOverlappingSlices()
    ensures InitOutcome(48000.0, 256) == Ok && !PairwiseDisjoint(IoRegions(256))
  {
    IoRegionsDisjointIff(256);
  }

  // ---------------------------------------------------------------------------
  // The corrected engine
  // ---------------------------------------------------------------------------

  /** `zero_buffer` over one region. */
  method ZeroBuffer(a: array<real>)
    modifies a
    ensures forall i :: 0 <= i < a.Length ==> a[i] == 0.0
  {
    var i := 0;
    while i < a.Length
      invariant 0 <= i <= a.Length
      invariant forall k :: 0 <= k < i ==> a[k] == 0.0
    {
      a[i] := 0.0;
      i := i + 1;
    }
  }

  predicate AllZero(a: array<real>)
    reads a
  {
    forall i :: 0 <= i < a.Length ==> a[i] == 0.0
  }

  /** The engine state and the I/O and work regions. `attached` stands for a
      non-null engine pointer. */
  class Arena {
    var attached: bool
    var sampleRate: real
    var bufferSize: u32
    var flags: bv32
    var granularSourceLen: u32
    var irLen: u32
    const inputL: array<real>
    const inputR: array<real>
    const outputL: array<real>
    const outputR: array<real>
    const work1: array<real>
    const work2: array<real>

    /** Every region holds `MAX_BUFFER_SIZE` samples and no two regions overlap;
        an attached engine holds parameters `init_engine` accepted. */
    ghost predicate Valid()
      reads this
    {
      inputL.Length == MAX_BUFFER_SIZE && inputR.Length == MAX_BUFFER_SIZE &&
      outputL.Length == MAX_BUFFER_SIZE && outputR.Length == MAX_BUFFER_SIZE &&
      work1.Length == WORK_BUFFER_SIZE && work2.Length == WORK_BUFFER_SIZE &&
      inputL != inputR && inputL != outputL && inputL != outputR && inputL != work1 && inputL != work2 &&
      inputR != outputL && inputR != outputR && inputR != work1 && inputR != work2 &&
      outputL != outputR && outputL != work1 && outputL != work2 &&
      outputR != work1 && outputR != work2 && work1 != work2 &&
      (attached ==> ValidInit(sampleRate, bufferSize))
    }

    /** Linear memory before `init_engine`: null pointer, zeroed memory. */
    constructor()
      ensures Valid() && !attached
      ensures flags == 0 && granularSourceLen == 0 && irLen == 0
      ensures fresh(inputL) && fresh(inputR) && fresh(outputL) && fresh(outputR) && fresh(work1) && fresh(work2)
    {
      attached := false;
      sampleRate := 0.0;
      bufferSize := 0;
      flags := 0;
      granularSourceLen := 0;
      irLen := 0;
      inputL := new real[MAX_BUFFER_SIZE](_ => 0.0);
      inputR := new real[MAX_BUFFER_SIZE](_ => 0.0);
      outputL := new real[MAX_BUFFER_SIZE](_ => 0.0);
      outputR := new real[MAX_BUFFER_SIZE](_ => 0.0);
      work1 := new real[WORK_BUFFER_SIZE](_ => 0.0);
      work2 := new real[WORK_BUFFER_SIZE](_ => 0.0);
    }

    /** `init_engine`: rejected parameters change nothing; accepted ones are
        stored with only the initialised flag set, and every I/O and work region
        is zeroed. The status tells success from failure. */
    method Init(sr: real, bs: u32) returns (status: InitStatus)
      requires Valid()
      modifies this, inputL, inputR, outputL, outputR, work1, work2
      ensures Valid()
      ensures status == InitOutcome(sr, bs)
      ensures status != Ok ==> unchanged(this) && unchanged(inputL, inputR, outputL, outputR, work1, work2)
      ensures status == Ok ==> (attached && sampleRate == sr && bufferSize == bs && flags == FLAG_INITIALIZED &&
                                granularSourceLen == 0 && irLen == 0)
      ensures status == Ok ==> (SampleRate() == sr && BufferSize() == bs && IsInitialized() &&
                                !IsGranularReady() && !IsIrReady())
      ensures status == Ok ==> (AllZero(inputL) && AllZero(inputR) && AllZero(outputL) && AllZero(outputR) &&
                                AllZero(work1) && AllZero(work2))
    {
      status := InitOutcome(sr, bs);
      if status != Ok {
        return;
      }
      attached := true;
      sampleRate := sr;
      bufferSize := bs;
      flags := FLAG_INITIALIZED;
      granularSourceLen := 0;
      irLen := 0;
      ZeroBuffer(inputL);
      ZeroBuffer(inputR);
      ZeroBuffer(outputL);
      ZeroBuffer(outputR);
      ZeroBuffer(work1);
      ZeroBuffer(work2);
    }

    /** `sample_rate()`: always a rate `init_engine` would accept. */
    function SampleRate(): (r: real)
      reads this
      ensures !attached ==> r == DEFAULT_SAMPLE_RATE
      ensures Valid() ==> 8000.0 <= r <= 192000.0
    {
      if attached then sampleRate else DEFAULT_SAMPLE_RATE
    }

    /** `buffer_size()`: always a block size `init_engine` would accept. */
    function BufferSize(): (r: u32)
      reads this
      ensures !attached ==> r == DEFAULT_BUFFER_SIZE
      ensures Valid() ==> 32 <= r <= MAX_BUFFER_SIZE
    {
      if attached then bufferSize else DEFAULT_BUFFER_SIZE
    }

    /** The length of `input_slice` and `output_slice_mut`, which the caller may
        only take from an initialised engine: it fits every I/O region. */
    function SliceLen(): (n: nat)
      requires Valid() && attached
      reads this
      ensures n == BufferSize() as nat
      ensures 32 <= n <= MAX_BUFFER_SIZE && n <= inputL.Length && n <= outputR.Length
    {
      bufferSize as nat
    }

    predicate IsInitialized()
      reads this
    {
      attached && flags & FLAG_INITIALIZED != 0
    }

    predicate IsGranularReady()
      reads this
    {
      attached && flags & FLAG_GRANULAR_READY != 0
    }

    predicate IsIrReady()
      reads this
    {
      attached && flags & FLAG_IR_READY != 0
    }

    /** `set_granular_source_len`: stores the length and sets only its own flag;
        a no-op without an engine. */
    method SetGranularSourceLen(length: u32)
      modifies this
      ensures attached == old(attached) && sampleRate == old(sampleRate) && bufferSize == old(bufferSize)
      ensures irLen == old(irLen)
      ensures old(attached) ==> granularSourceLen == length && flags == WithFlag(old(flags), FLAG_GRANULAR_READY)
      ensures !old(attached) ==> granularSourceLen == old(granularSourceLen) && flags == old(flags)
      ensures old(attached) ==> (IsGranularReady() && (IsInitialized() <==> old(IsInitialized())) &&
                                 (IsIrReady() <==> old(IsIrReady())))
    {
      if attached {
        granularSourceLen := length;
        flags := WithFlag(flags, FLAG_GRANULAR_READY);
      }
    }

    /** `set_ir_len`: stores the length and sets only its own flag; a no-op
        without an engine. */
    method SetIrLen(length: u32)
      modifies this
      ensures attached == old(attached) && sampleRate == old(sampleRate) && bufferSize == old(bufferSize)
      ensures granularSourceLen == old(granularSourceLen)
      ensures old(attached) ==> irLen == length && flags == WithFlag(old(flags), FLAG_IR_READY)
      ensures !old(attached) ==> irLen == old(irLen) && flags == old(flags)
      ensures old(attached) ==> (IsIrReady() && (IsInitialized() <==> old(IsInitialized())) &&
                                 (IsGranularReady() <==> old(IsGranularReady())))
    {
      if attached {
        irLen := length;
        flags := WithFlag(flags, FLAG_IR_READY);
      }
    }

    /** `cleanup`: an attached engine's flags and lengths are cleared, then the
        engine is detached; every query reports false afterwards. */
    method Cleanup()
      modifies this
      ensures !attached && !IsInitialized() && !IsGranularReady() && !IsIrReady()
      ensures old(attached) ==> flags == 0 && granularSourceLen == 0 && irLen == 0
      ensures !old(attached) ==> (flags == old(flags) && granularSourceLen == old(granularSourceLen) &&
                                  irLen == old(irLen))
      ensures sampleRate == old(sampleRate) && bufferSize == old(bufferSize)
      ensures SampleRate() == DEFAULT_SAMPLE_RATE && BufferSize() == DEFAULT_BUFFER_SIZE
    {
      if attached {
        flags := 0;
        granularSourceLen := 0;
        irLen := 0;
      }
      attached := false;
    }
  }
}
