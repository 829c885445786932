/** The buffer primitives of simd_utils.rs. Each operation that the source runs in
    place as 4-wide SIMD chunks plus a scalar remainder is a method with that loop
    shape (one parallel assignment stands for one v128 operation), proved equal to
    a function giving the scalar fallback's result element by element. */
module SimdUtils {
  import opened Utils
  import Filters

  /** Samples per v128 vector. */
  const LANES: nat := 4

  // ---------------------------------------------------------------------------
  // Reference results (the scalar fallbacks)
  // ---------------------------------------------------------------------------

  /** A sample times a gain. */
  function Gained(x: real, g: real): real {
    x * g
  }

  function Scaled(s: seq<real>, k: real): (r: seq<real>)
    ensures |r| == |s|
  {
    seq(|s|, i requires 0 <= i < |s| => Gained(s[i], k))
  }

  /** `add_buffers`: out[i] = a[i] + b[i] below the shortest length, the rest of
      `out` as it was. */
  function Added(a: seq<real>, b: seq<real>, out: seq<real>): (r: seq<real>)
    ensures |r| == |out|
  {
    var n := MinNat(MinNat(|a|, |b|), |out|);
    seq(|out|, i requires 0 <= i < |out| => if i < n then a[i] + b[i] else out[i])
  }

  /** `mix_buffer`: a[i] + b[i] * gain below min(|a|, |b|). */
  function Mixed(a: seq<real>, b: seq<real>, gain: real): (r: seq<real>)
    ensures |r| == |a|
  {
    var n := MinNat(|a|, |b|);
    seq(|a|, i requires 0 <= i < |a| => if i < n then a[i] + Gained(b[i], gain) else a[i])
  }

  /** `copy_buffer`: the first min(|src|, |dst|) samples of `src` over `dst`. */
  function Copied(src: seq<real>, dst: seq<real>): (r: seq<real>)
    ensures |r| == |dst|
  {
    var n := MinNat(|src|, |dst|);
    seq(|dst|, i requires 0 <= i < |dst| => if i < n then src[i] else dst[i])
  }

  /** `apply_gain_ramp`: sample i is multiplied by start + i * (end - start) / len. */
  function Ramped(s: seq<real>, start: real, end: real): (r: seq<real>)
    ensures |r| == |s|
  {
    if |s| == 0 then s
    else
      var step := (end - start) / (|s| as real);
      seq(|s|, i requires 0 <= i < |s| => Gained(s[i], RampGain(start, step, i)))
  }

  /** The gain applied to sample k of a ramp: the start gain with the step
      added k times. */
  function RampGain(start: real, step: real, k: nat): real {
    if k == 0 then start else RampGain(start, step, k - 1) + step
  }

  /** Four lanes on, the gain has grown by four steps. */
  lemma RampGainAdvance4(start: real, step: real, k: nat)
    ensures RampGain(start, step, k + 4) == RampGain(start, step, k) + step * 4.0
  {
    assert RampGain(start, step, k + 2) == RampGain(start, step, k + 1) + step;
    assert RampGain(start, step, k + 3) == RampGain(start, step, k + 2) + step;
  }

  /** The accumulated gain is start + k * step. */
  lemma {:induction false} RampGainClosedForm(start: real, step: real, k: nat)
    ensures RampGain(start, step, k) == start + (k as real) * step
  {
    if k > 0 {
      RampGainClosedForm(start, step, k - 1);
      assert (k as real) * step == ((k - 1) as real) * step + step;
    }
  }

  /** The ramp starts at the start gain and would reach the end gain one sample
      past the buffer's end. */
  lemma RampEnds(start: real, end: real, len: nat)
    requires len > 0
    ensures RampGain(start, (end - start) / (len as real), 0) == start
    ensures RampGain(start, (end - start) / (len as real), len) == end
  {
    RampGainClosedForm(start, (end - start) / (len as real), len);
  }

  /** `soft_clip_buffer`: x / (1 + |x|). */
  function SoftClip(x: real): real {
    x / (1.0 + Abs(x))
  }

  function SoftClipped(s: seq<real>): (r: seq<real>)
    ensures |r| == |s|
  {
    seq(|s|, i requires 0 <= i < |s| => SoftClip(s[i]))
  }

  function HardClipped(s: seq<real>, limit: real): (r: seq<real>)
    ensures |r| == |s|
  {
    seq(|s|, i requires 0 <= i < |s| => HardClip(s[i], limit))
  }

  /** Frames the stereo conversions handle: min(|left|, |right|, |interleaved| / 2). */
  function StereoLen(left: nat, right: nat, interleaved: nat): nat {
    MinNat(MinNat(left, right), interleaved / 2)
  }

  /** `interleave_stereo`: out[2i] = left[i], out[2i+1] = right[i] for each
      handled frame; the rest of `out` as it was. */
  function Interleaved(left: seq<real>, right: seq<real>, out: seq<real>): (r: seq<real>)
    ensures |r| == |out|
  {
    var n := StereoLen(|left|, |right|, |out|);
    seq(|out|, j requires 0 <= j < |out| =>
      if j < 2 * n then (if j % 2 == 0 then left[j / 2] else right[j / 2]) else out[j])
  }

  /** `deinterleave_stereo`, left output. */
  function DeinterleavedLeft(interleaved: seq<real>, left: seq<real>, rightLen: nat): (r: seq<real>)
    ensures |r| == |left|
  {
    var n := StereoLen(|left|, rightLen, |interleaved|);
    seq(|left|, i requires 0 <= i < |left| => if i < n then interleaved[2 * i] else left[i])
  }

  /** `deinterleave_stereo`, right output. */
  function DeinterleavedRight(interleaved: seq<real>, leftLen: nat, right: seq<real>): (r: seq<real>)
    ensures |r| == |right|
  {
    var n := StereoLen(leftLen, |right|, |interleaved|);
    seq(|right|, i requires 0 <= i < |right| => if i < n then interleaved[2 * i + 1] else right[i])
  }

  /** Sum of a sequence, accumulated left to right. */
  function Sum(s: seq<real>): real
    decreases |s|
  {
    if |s| == 0 then 0.0 else Sum(s[..|s| - 1]) + s[|s| - 1]
  }

  function Mean(s: seq<real>): real
    requires |s| > 0
  {
    Sum(s) / (|s| as real)
  }

  /** `remove_dc_offset`: the mean subtracted from every sample; an empty buffer
      is left alone. */
  function Centered(s: seq<real>): (r: seq<real>)
    ensures |r| == |s|
  {
    if |s| == 0 then s
    else
      var m := Mean(s);
      seq(|s|, i requires 0 <= i < |s| => s[i] - m)
  }

  /** `find_peak`'s scalar fallback, `fold(0.0, max)` over |x|: the largest
      magnitude, or 0 for an empty buffer. */
  function Peak(s: seq<real>): (r: real)
    ensures r >= 0.0
    ensures forall i :: 0 <= i < |s| ==> Abs(s[i]) <= r
    ensures r == 0.0 || exists i :: 0 <= i < |s| && Abs(s[i]) == r
    decreases |s|
  {
    if |s| == 0 then 0.0
    else
      var p := Peak(s[..|s| - 1]);
      assert forall i :: 0 <= i < |s| - 1 ==> s[..|s| - 1][i] == s[i];
      Max(p, Abs(s[|s| - 1]))
  }

  // ---------------------------------------------------------------------------
  // Buffer operations
  // ---------------------------------------------------------------------------

  method ScaleBuffer(buffer: array<real>, scale: real)
    modifies buffer
    ensures buffer[..] == Scaled(old(buffer[..]), scale)
  {
    ghost var xs := buffer[..];
    var chunks := buffer.Length / LANES;
    var c := 0;
    while c < chunks
      invariant 0 <= c <= chunks
      invariant forall k :: 0 <= k < 4 * c ==> buffer[k] == Gained(xs[k], scale)
      invariant forall k :: 4 * c <= k < buffer.Length ==> buffer[k] == xs[k]
    {
      var o := 4 * c;
      buffer[o], buffer[o + 1], buffer[o + 2], buffer[o + 3] :=
        Gained(buffer[o], scale), Gained(buffer[o + 1], scale), Gained(buffer[o + 2], scale), Gained(buffer[o + 3], scale);
      c := c + 1;
    }
    var i := 4 * chunks;
    while i < buffer.Length
      invariant 4 * chunks <= i <= buffer.Length
      invariant forall k :: 0 <= k < i ==> buffer[k] == Gained(xs[k], scale)
      invariant forall k :: i <= k < buffer.Length ==> buffer[k] == xs[k]
    {
      buffer[i] := Gained(buffer[i], scale);
      i := i + 1;
    }
    ScaledPointwise(xs, buffer[..], scale);
  }

  lemma ScaledPointwise(xs: seq<real>, ys: seq<real>, k: real)
    requires |ys| == |xs| && forall i :: 0 <= i < |xs| ==> ys[i] == Gained(xs[i], k)
    ensures ys == Scaled(xs, k)
  {
  }

  /** The unit test of simd_utils.rs: [1..9] scaled by 2 is [2, 4, ..., 18]. */
  lemma ScaleExample()
    ensures Scaled([1.0, 2.0, 3.0, 4.0, 5.0, 6.0, 7.0, 8.0, 9.0], 2.0)
         == [2.0, 4.0, 6.0, 8.0, 10.0, 12.0, 14.0, 16.0, 18.0]
  {
  }

  /** `out` may be `a` or `b`: each index is read before it is written. */
  method AddBuffers(a: array<real>, b: array<real>, out: array<real>)
    modifies out
    ensures out[..] == Added(old(a[..]), old(b[..]), old(out[..]))
  {
    ghost var xs, bs, os := a[..], b[..], out[..];
    var len := MinNat(MinNat(a.Length, b.Length), out.Length);
    var chunks := len / LANES;
    var c := 0;
    while c < chunks
      invariant 0 <= c <= chunks
      invariant forall k :: 0 <= k < 4 * c ==> out[k] == xs[k] + bs[k]
      invariant forall k :: 4 * c <= k < out.Length ==> out[k] == os[k]
      invariant forall k :: 4 * c <= k < a.Length ==> a[k] == xs[k]
      invariant forall k :: 4 * c <= k < b.Length ==> b[k] == bs[k]
    {
      AddChunk(a, b, out, 4 * c, xs, bs, os);
      c := c + 1;
    }
    var i := 4 * chunks;
    while i < len
      invariant 4 * chunks <= i <= len
      invariant forall k :: 0 <= k < i ==> out[k] == xs[k] + bs[k]
      invariant forall k :: i <= k < out.Length ==> out[k] == os[k]
      invariant forall k :: i <= k < a.Length ==> a[k] == xs[k]
      invariant forall k :: i <= k < b.Length ==> b[k] == bs[k]
    {
      out[i] := a[i] + b[i];
      i := i + 1;
    }
    AddedPointwise(xs, bs, os, out[..]);
  }

  /** One iteration of the SIMD loop of `add_buffers`: four sums stored at
      once, after all eight operands are loaded. */
  method AddChunk(a: array<real>, b: array<real>, out: array<real>, o: nat,
                  ghost xs: seq<real>, ghost bs: seq<real>, ghost os: seq<real>)
    requires o + 4 <= a.Length && o + 4 <= b.Length && o + 4 <= out.Length
    requires |xs| == a.Length && |bs| == b.Length && |os| == out.Length
    requires forall k :: 0 <= k < o ==> out[k] == xs[k] + bs[k]
    requires forall k :: o <= k < out.Length ==> out[k] == os[k]
    requires forall k :: o <= k < a.Length ==> a[k] == xs[k]
    requires forall k :: o <= k < b.Length ==> b[k] == bs[k]
    modifies out
    ensures forall k :: 0 <= k < o + 4 ==> out[k] == xs[k] + bs[k]
    ensures forall k :: o + 4 <= k < out.Length ==> out[k] == os[k]
    ensures forall k :: o + 4 <= k < a.Length ==> a[k] == xs[k]
    ensures forall k :: o + 4 <= k < b.Length ==> b[k] == bs[k]
  {
    out[o], out[o + 1], out[o + 2], out[o + 3] :=
      a[o] + b[o], a[o + 1] + b[o + 1], a[o + 2] + b[o + 2], a[o + 3] + b[o + 3];
  }

  lemma AddedPointwise(xs: seq<real>, bs: seq<real>, os: seq<real>, zs: seq<real>)
    requires |zs| == |os|
    requires forall i :: 0 <= i < MinNat(MinNat(|xs|, |bs|), |os|) ==> zs[i] == xs[i] + bs[i]
    requires forall i :: MinNat(MinNat(|xs|, |bs|), |os|) <= i < |os| ==> zs[i] == os[i]
    ensures zs == Added(xs, bs, os)
  {
  }

  /** The unit test: [1..5] + [5..1] is all sixes. */
  lemma AddExample()
    ensures Added([1.0, 2.0, 3.0, 4.0, 5.0], [5.0, 4.0, 3.0, 2.0, 1.0], [0.0, 0.0, 0.0, 0.0, 0.0])
         == [6.0, 6.0, 6.0, 6.0, 6.0]
  {
  }

  /** `a` is `&mut` and `b` is `&`, so the borrow rules keep them apart. */
  method MixBuffer(a: array<real>, b: array<real>, gain: real)
    requires a != b
    modifies a
    ensures a[..] == Mixed(old(a[..]), old(b[..]), gain)
  {
    ghost var xs, ys := a[..], b[..];
    var len := MinNat(a.Length, b.Length);
    var chunks := len / LANES;
    var c := 0;
    while c < chunks
      invariant 0 <= c <= chunks
      invariant forall k :: 0 <= k < 4 * c ==> a[k] == xs[k] + Gained(ys[k], gain)
      invariant forall k :: 4 * c <= k < a.Length ==> a[k] == xs[k]
    {
      var o := 4 * c;
      a[o], a[o + 1], a[o + 2], a[o + 3] :=
        a[o] + Gained(b[o], gain), a[o + 1] + Gained(b[o + 1], gain),
        a[o + 2] + Gained(b[o + 2], gain), a[o + 3] + Gained(b[o + 3], gain);
      c := c + 1;
    }
    var i := 4 * chunks;
    while i < len
      invariant 4 * chunks <= i <= len
      invariant forall k :: 0 <= k < i ==> a[k] == xs[k] + Gained(ys[k], gain)
      invariant forall k :: i <= k < a.Length ==> a[k] == xs[k]
    {
      a[i] := a[i] + Gained(b[i], gain);
      i := i + 1;
    }
    MixedPointwise(xs, ys, a[..], gain);
  }

  lemma MixedPointwise(xs: seq<real>, ys: seq<real>, zs: seq<real>, gain: real)
    requires |zs| == |xs|
    requires forall i :: 0 <= i < MinNat(|xs|, |ys|) ==> zs[i] == xs[i] + Gained(ys[i], gain)
    requires forall i :: MinNat(|xs|, |ys|) <= i < |xs| ==> zs[i] == xs[i]
    ensures zs == Mixed(xs, ys, gain)
  {
  }

  method CopyBuffer(src: array<real>, dst: array<real>)
    modifies dst
    ensures dst[..] == Copied(old(src[..]), old(dst[..]))
  {
    ghost var ss, ds := src[..], dst[..];
    var len := MinNat(src.Length, dst.Length);
    var chunks := len / LANES;
    var c := 0;
    while c < chunks
      invariant 0 <= c <= chunks
      invariant forall k :: 0 <= k < 4 * c ==> dst[k] == ss[k]
      invariant forall k :: 4 * c <= k < dst.Length ==> dst[k] == ds[k]
      invariant forall k :: 4 * c <= k < src.Length ==> src[k] == ss[k]
    {
      var o := 4 * c;
      dst[o], dst[o + 1], dst[o + 2], dst[o + 3] := src[o], src[o + 1], src[o + 2], src[o + 3];
      c := c + 1;
    }
    var i := 4 * chunks;
    while i < len
      invariant 4 * chunks <= i <= len
      invariant forall k :: 0 <= k < i ==> dst[k] == ss[k]
      invariant forall k :: i <= k < dst.Length ==> dst[k] == ds[k]
      invariant forall k :: i <= k < src.Length ==> src[k] == ss[k]
    {
      dst[i] := src[i];
      i := i + 1;
    }
    CopiedPointwise(ss, ds, dst[..]);
  }

  lemma CopiedPointwise(ss: seq<real>, ds: seq<real>, zs: seq<real>)
    requires |zs| == |ds|
    requires forall i :: 0 <= i < MinNat(|ss|, |ds|) ==> zs[i] == ss[i]
    requires forall i :: MinNat(|ss|, |ds|) <= i < |ds| ==> zs[i] == ds[i]
    ensures zs == Copied(ss, ds)
  {
  }

  method ClearBuffer(buffer: array<real>)
    modifies buffer
    ensures forall k :: 0 <= k < buffer.Length ==> buffer[k] == 0.0
  {
    var chunks := buffer.Length / LANES;
    var c := 0;
    while c < chunks
      invariant 0 <= c <= chunks
      invariant forall k :: 0 <= k < 4 * c ==> buffer[k] == 0.0
    {
      var o := 4 * c;
      buffer[o], buffer[o + 1], buffer[o + 2], buffer[o + 3] := 0.0, 0.0, 0.0, 0.0;
      c := c + 1;
    }
    var i := 4 * chunks;
    while i < buffer.Length
      invariant 4 * chunks <= i <= buffer.Length
      invariant forall k :: 0 <= k < i ==> buffer[k] == 0.0
    {
      buffer[i] := 0.0;
      i := i + 1;
    }
  }

  // ---------------------------------------------------------------------------
  // DSP operations
  // ---------------------------------------------------------------------------

  method ApplyGainRamp(buffer: array<real>, startGain: real, endGain: real)
    modifies buffer
    ensures buffer[..] == Ramped(old(buffer[..]), startGain, endGain)
  {
    var len := buffer.Length;
    if len == 0 {
      return;
    }
    ghost var xs := buffer[..];
    var step := (endGain - startGain) / (len as real);
    // the four lanes of gain_v
    var g0, g1, g2, g3 := startGain, startGain + step, startGain + step * 2.0, startGain + step * 3.0;
    RampLanesStart(startGain, step);
    var chunks := len / LANES;
    var c := 0;
    while c < chunks
      invariant 0 <= c <= chunks
      invariant RampLanes(startGain, step, 4 * c, g0, g1, g2, g3)
      invariant forall k :: 0 <= k < 4 * c ==> buffer[k] == RampedAt(xs, startGain, step, k)
      invariant forall k :: 4 * c <= k < len ==> buffer[k] == xs[k]
    {
      var o := 4 * c;
      RampChunk(buffer, o, g0, g1, g2, g3, xs, startGain, step);
      RampLanesAdvance(startGain, step, o, g0, g1, g2, g3);
      g0, g1, g2, g3 := g0 + step * 4.0, g1 + step * 4.0, g2 + step * 4.0, g3 + step * 4.0;
      c := c + 1;
    }
    var gain := startGain + ((chunks * 4) as real) * step;
    RampGainClosedForm(startGain, step, chunks * 4);
    var i := 4 * chunks;
    while i < len
      invariant 4 * chunks <= i <= len
      invariant gain == RampGain(startGain, step, i)
      invariant forall k :: 0 <= k < i ==> buffer[k] == RampedAt(xs, startGain, step, k)
      invariant forall k :: i <= k < len ==> buffer[k] == xs[k]
    {
      buffer[i] := Gained(buffer[i], gain);
      gain := gain + step;
      i := i + 1;
    }
    RampedPointwise(xs, buffer[..], startGain, endGain);
  }

  /** Sample k of a ramp with the given start and step. */
  ghost function RampedAt(xs: seq<real>, start: real, step: real, k: nat): real
    requires k < |xs|
  {
    Gained(xs[k], RampGain(start, step, k))
  }

  lemma RampedPointwise(xs: seq<real>, ys: seq<real>, start: real, end: real)
    requires |xs| > 0 && |ys| == |xs|
    requires forall k :: 0 <= k < |xs| ==> ys[k] == RampedAt(xs, start, (end - start) / (|xs| as real), k)
    ensures ys == Ramped(xs, start, end)
  {
  }

  /** One iteration of the SIMD loop of `apply_gain_ramp`: four samples
      multiplied by the four lanes of `gain_v` at once. */
  method RampChunk(buffer: array<real>, o: nat, g0: real, g1: real, g2: real, g3: real,
                   ghost xs: seq<real>, ghost start: real, ghost step: real)
    requires |xs| == buffer.Length && o + 4 <= buffer.Length
    requires RampLanes(start, step, o, g0, g1, g2, g3)
    requires forall k :: 0 <= k < o ==> buffer[k] == RampedAt(xs, start, step, k)
    requires forall k :: o <= k < |xs| ==> buffer[k] == xs[k]
    modifies buffer
    ensures forall k :: 0 <= k < o + 4 ==> buffer[k] == RampedAt(xs, start, step, k)
    ensures forall k :: o + 4 <= k < |xs| ==> buffer[k] == xs[k]
  {
    buffer[o], buffer[o + 1], buffer[o + 2], buffer[o + 3] :=
      Gained(buffer[o], g0), Gained(buffer[o + 1], g1), Gained(buffer[o + 2], g2), Gained(buffer[o + 3], g3);
  }

  /** The four lanes of `gain_v` hold the gains of samples k .. k + 3. */
  ghost predicate RampLanes(start: real, step: real, k: nat, g0: real, g1: real, g2: real, g3: real) {
    g0 == RampGain(start, step, k) && g1 == RampGain(start, step, k + 1) &&
    g2 == RampGain(start, step, k + 2) && g3 == RampGain(start, step, k + 3)
  }

  /** `gain_v` starts as [start, start + step, start + 2 step, start + 3 step]. */
  lemma RampLanesStart(start: real, step: real)
    ensures RampLanes(start, step, 0, start, start + step, start + step * 2.0, start + step * 3.0)
  {
    assert RampGain(start, step, 1) == start + step;
    assert RampGain(start, step, 2) == start + step * 2.0;
    assert RampGain(start, step, 3) == start + step * 3.0;
  }

  /** Adding `step * 4` to every lane moves the lanes one chunk on. */
  lemma RampLanesAdvance(start: real, step: real, k: nat, g0: real, g1: real, g2: real, g3: real)
    requires RampLanes(start, step, k, g0, g1, g2, g3)
    ensures RampLanes(start, step, k + 4, g0 + step * 4.0, g1 + step * 4.0, g2 + step * 4.0, g3 + step * 4.0)
  {
    RampGainAdvance4(start, step, k);
    RampGainAdvance4(start, step, k + 1);
    RampGainAdvance4(start, step, k + 2);
    RampGainAdvance4(start, step, k + 3);
  }

  /** Soft clipping keeps every sample strictly inside (-1, 1), keeps its sign
      and maps only 0 to 0. */
  lemma SoftClipBounds(x: real)
    ensures -1.0 < SoftClip(x) < 1.0
    ensures (SoftClip(x) > 0.0 <==> x > 0.0) && (SoftClip(x) == 0.0 <==> x == 0.0)
  {
    var d := 1.0 + Abs(x);
    var r := SoftClip(x);
    assert r * d == x;
    if x >= 0.0 {
      assert x < d;
    } else {
      assert -x < d;
    }
  }

  method SoftClipBuffer(buffer: array<real>)
    modifies buffer
    ensures buffer[..] == SoftClipped(old(buffer[..]))
  {
    ghost var xs := buffer[..];
    var chunks := buffer.Length / LANES;
    var c := 0;
    while c < chunks
      invariant 0 <= c <= chunks
      invariant forall k :: 0 <= k < 4 * c ==> buffer[k] == SoftClip(xs[k])
      invariant forall k :: 4 * c <= k < buffer.Length ==> buffer[k] == xs[k]
    {
      var o := 4 * c;
      buffer[o], buffer[o + 1], buffer[o + 2], buffer[o + 3] :=
        SoftClip(buffer[o]), SoftClip(buffer[o + 1]), SoftClip(buffer[o + 2]), SoftClip(buffer[o + 3]);
      c := c + 1;
    }
    var i := 4 * chunks;
    while i < buffer.Length
      invariant 4 * chunks <= i <= buffer.Length
      invariant forall k :: 0 <= k < i ==> buffer[k] == SoftClip(xs[k])
      invariant forall k :: i <= k < buffer.Length ==> buffer[k] == xs[k]
    {
      buffer[i] := SoftClip(buffer[i]);
      i := i + 1;
    }
    assert buffer[..] == SoftClipped(xs);
  }

  /** The SIMD lanes compute max(min(v, limit), -limit), the remainder
      `clamp(-limit, limit)`, which panics for a negative limit. */
  method HardClipBuffer(buffer: array<real>, limit: real)
    requires limit >= 0.0
    modifies buffer
    ensures buffer[..] == HardClipped(old(buffer[..]), limit)
  {
    ghost var xs := buffer[..];
    var chunks := buffer.Length / LANES;
    var c := 0;
    while c < chunks
      invariant 0 <= c <= chunks
      invariant forall k :: 0 <= k < 4 * c ==> buffer[k] == HardClip(xs[k], limit)
      invariant forall k :: 4 * c <= k < buffer.Length ==> buffer[k] == xs[k]
    {
      var o := 4 * c;
      LaneClip(buffer[o], limit);
      LaneClip(buffer[o + 1], limit);
      LaneClip(buffer[o + 2], limit);
      LaneClip(buffer[o + 3], limit);
      buffer[o], buffer[o + 1], buffer[o + 2], buffer[o + 3] :=
        Max(Min(buffer[o], limit), -limit), Max(Min(buffer[o + 1], limit), -limit),
        Max(Min(buffer[o + 2], limit), -limit), Max(Min(buffer[o + 3], limit), -limit);
      c := c + 1;
    }
    var i := 4 * chunks;
    while i < buffer.Length
      invariant 4 * chunks <= i <= buffer.Length
      invariant forall k :: 0 <= k < i ==> buffer[k] == HardClip(xs[k], limit)
      invariant forall k :: i <= k < buffer.Length ==> buffer[k] == xs[k]
    {
      LaneClip(buffer[i], limit);
      buffer[i] := Clamp(buffer[i], -limit, limit);
      i := i + 1;
    }
    assert buffer[..] == HardClipped(xs, limit);
  }

  /** For a non-negative limit the lanes' max(min(v, limit), -limit) and the
      remainder's clamp(-limit, limit) both are `hard_clip`. */
  lemma LaneClip(x: real, limit: real)
    requires limit >= 0.0
    ensures Max(Min(x, limit), -limit) == HardClip(x, limit)
    ensures Clamp(x, -limit, limit) == HardClip(x, limit)
  {
  }

  /** After `hard_clip_buffer` every sample is within [-limit, limit], and samples
      that already were are unchanged. */
  lemma HardClippedBounds(s: seq<real>, limit: real)
    requires limit >= 0.0
    ensures forall i :: 0 <= i < |s| ==> -limit <= HardClipped(s, limit)[i] <= limit
    ensures forall i :: 0 <= i < |s| && -limit <= s[i] <= limit ==> HardClipped(s, limit)[i] == s[i]
  {
  }

  /** `out` is a distinct slice from `left` and `right`: Rust's borrow rules
      forbid a `&mut` slice aliasing a `&` slice. */
  method InterleaveStereo(left: array<real>, right: array<real>, out: array<real>)
    requires out != left && out != right
    modifies out
    ensures out[..] == Interleaved(left[..], right[..], old(out[..]))
  {
    ghost var ls, rs, os := left[..], right[..], out[..];
    var len := StereoLen(left.Length, right.Length, out.Length);
    var chunks := len / LANES;
    var c := 0;
    while c < chunks
      invariant 0 <= c <= chunks
      invariant forall k :: 0 <= k < 4 * c ==> out[2 * k] == ls[k] && out[2 * k + 1] == rs[k]
      invariant forall j :: 8 * c <= j < out.Length ==> out[j] == os[j]
    {
      InterleaveChunk(left, right, out, 4 * c, ls, rs, os);
      c := c + 1;
    }
    var i := 4 * chunks;
    while i < len
      invariant 4 * chunks <= i <= len
      invariant forall k :: 0 <= k < i ==> out[2 * k] == ls[k] && out[2 * k + 1] == rs[k]
      invariant forall j :: 2 * i <= j < out.Length ==> out[j] == os[j]
    {
      out[i * 2] := left[i];
      out[i * 2 + 1] := right[i];
      i := i + 1;
    }
    InterleavedPointwise(ls, rs, os, out[..]);
  }

  /** One iteration of the SIMD loop of `interleave_stereo`: four frames of
      each channel shuffled into eight consecutive samples. */
  method InterleaveChunk(left: array<real>, right: array<real>, out: array<real>, i: nat,
                         ghost ls: seq<real>, ghost rs: seq<real>, ghost os: seq<real>)
    requires out != left && out != right && left[..] == ls && right[..] == rs && |os| == out.Length
    requires i + 4 <= left.Length && i + 4 <= right.Length && 2 * i + 8 <= out.Length
    requires forall k :: 0 <= k < i ==> out[2 * k] == ls[k] && out[2 * k + 1] == rs[k]
    requires forall j :: 2 * i <= j < out.Length ==> out[j] == os[j]
    modifies out
    ensures forall k :: 0 <= k < i + 4 ==> out[2 * k] == ls[k] && out[2 * k + 1] == rs[k]
    ensures forall j :: 2 * i + 8 <= j < out.Length ==> out[j] == os[j]
  {
    var o := 2 * i;
    out[o], out[o + 1], out[o + 2], out[o + 3] := left[i], right[i], left[i + 1], right[i + 1];
    out[o + 4], out[o + 5], out[o + 6], out[o + 7] := left[i + 2], right[i + 2], left[i + 3], right[i + 3];
  }

  lemma InterleavedPointwise(ls: seq<real>, rs: seq<real>, os: seq<real>, zs: seq<real>)
    requires |zs| == |os|
    requires forall k :: 0 <= k < StereoLen(|ls|, |rs|, |os|) ==> zs[2 * k] == ls[k] && zs[2 * k + 1] == rs[k]
    requires forall j :: 2 * StereoLen(|ls|, |rs|, |os|) <= j < |zs| ==> zs[j] == os[j]
    ensures zs == Interleaved(ls, rs, os)
  {
    var n := StereoLen(|ls|, |rs|, |os|);
    forall j | 0 <= j < 2 * n
      ensures zs[j] == Interleaved(ls, rs, os)[j]
    {
      var k := j / 2;
      if j % 2 == 0 {
        assert j == 2 * k;
      } else {
        assert j == 2 * k + 1;
      }
    }
  }

  method DeinterleaveStereo(interleaved: array<real>, left: array<real>, right: array<real>)
    requires left != right && interleaved != left && interleaved != right
    modifies left, right
    ensures left[..] == DeinterleavedLeft(interleaved[..], old(left[..]), right.Length)
    ensures right[..] == DeinterleavedRight(interleaved[..], left.Length, old(right[..]))
  {
    ghost var il, ls, rs := interleaved[..], left[..], right[..];
    var len := StereoLen(left.Length, right.Length, interleaved.Length);
    var chunks := len / LANES;
    var c := 0;
    while c < chunks
      invariant 0 <= c <= chunks
      invariant forall k :: 0 <= k < 4 * c ==> left[k] == il[2 * k] && right[k] == il[2 * k + 1]
      invariant forall k :: 4 * c <= k < left.Length ==> left[k] == ls[k]
      invariant forall k :: 4 * c <= k < right.Length ==> right[k] == rs[k]
    {
      DeinterleaveChunk(interleaved, left, right, 4 * c, il, ls, rs);
      c := c + 1;
    }
    var i := 4 * chunks;
    while i < len
      invariant 4 * chunks <= i <= len
      invariant forall k :: 0 <= k < i ==> left[k] == il[2 * k] && right[k] == il[2 * k + 1]
      invariant forall k :: i <= k < left.Length ==> left[k] == ls[k]
      invariant forall k :: i <= k < right.Length ==> right[k] == rs[k]
    {
      left[i] := interleaved[i * 2];
      right[i] := interleaved[i * 2 + 1];
      i := i + 1;
    }
    assert left[..] == DeinterleavedLeft(il, ls, |rs|);
    assert right[..] == DeinterleavedRight(il, |ls|, rs);
  }

  /** One iteration of the SIMD loop of `deinterleave_stereo`: eight
      consecutive samples split into four frames of each channel. */
  method DeinterleaveChunk(interleaved: array<real>, left: array<real>, right: array<real>, o: nat,
                           ghost il: seq<real>, ghost ls: seq<real>, ghost rs: seq<real>)
    requires left != right && interleaved != left && interleaved != right && interleaved[..] == il
    requires |ls| == left.Length && |rs| == right.Length
    requires o + 4 <= left.Length && o + 4 <= right.Length && 2 * o + 8 <= interleaved.Length
    requires forall k :: 0 <= k < o ==> left[k] == il[2 * k] && right[k] == il[2 * k + 1]
    requires forall k :: o <= k < left.Length ==> left[k] == ls[k]
    requires forall k :: o <= k < right.Length ==> right[k] == rs[k]
    modifies left, right
    ensures forall k :: 0 <= k < o + 4 ==> left[k] == il[2 * k] && right[k] == il[2 * k + 1]
    ensures forall k :: o + 4 <= k < left.Length ==> left[k] == ls[k]
    ensures forall k :: o + 4 <= k < right.Length ==> right[k] == rs[k]
  {
    var i := 2 * o;
    left[o], left[o + 1], left[o + 2], left[o + 3] :=
      interleaved[i], interleaved[i + 2], interleaved[i + 4], interleaved[i + 6];
    right[o], right[o + 1], right[o + 2], right[o + 3] :=
      interleaved[i + 1], interleaved[i + 3], interleaved[i + 5], interleaved[i + 7];
  }

  /** Deinterleaving what was interleaved returns both channels' handled frames. */
  lemma InterleaveRoundTrip(left: seq<real>, right: seq<real>, out: seq<real>, left0: seq<real>, right0: seq<real>)
    requires |left0| == |left| && |right0| == |right|
    ensures var n := StereoLen(|left|, |right|, |out|);
      var il := Interleaved(left, right, out);
      DeinterleavedLeft(il, left0, |right0|)[..n] == left[..n] &&
      DeinterleavedRight(il, |left0|, right0)[..n] == right[..n]
  {
    var n := StereoLen(|left|, |right|, |out|);
    var il := Interleaved(left, right, out);
    forall i | 0 <= i < n
      ensures DeinterleavedLeft(il, left0, |right0|)[i] == left[i]
      ensures DeinterleavedRight(il, |left0|, right0)[i] == right[i]
    {
      assert (2 * i) % 2 == 0 && (2 * i) / 2 == i;
      assert (2 * i + 1) % 2 == 1 && (2 * i + 1) / 2 == i;
    }
  }

  /** Channels of equal length that fit the interleaved buffer come back whole. */
  lemma InterleaveRoundTripWhole(left: seq<real>, right: seq<real>, out: seq<real>)
    requires |left| == |right| && 2 * |left| <= |out|
    ensures DeinterleavedLeft(Interleaved(left, right, out), left, |right|) == left
    ensures DeinterleavedRight(Interleaved(left, right, out), |left|, right) == right
  {
    InterleaveRoundTrip(left, right, out, left, right);
    assert left[..|left|] == left && right[..|right|] == right;
  }

  /** Interleaving what was deinterleaved restores the interleaved buffer. */
  lemma DeinterleaveRoundTrip(interleaved: seq<real>, left0: seq<real>, right0: seq<real>)
    ensures Interleaved(DeinterleavedLeft(interleaved, left0, |right0|),
                        DeinterleavedRight(interleaved, |left0|, right0), interleaved) == interleaved
  {
    var l := DeinterleavedLeft(interleaved, left0, |right0|);
    var r := DeinterleavedRight(interleaved, |left0|, right0);
    var n := StereoLen(|left0|, |right0|, |interleaved|);
    forall j | 0 <= j < 2 * n
      ensures Interleaved(l, r, interleaved)[j] == interleaved[j]
    {
      if j % 2 == 0 {
        assert 2 * (j / 2) == j;
      } else {
        assert 2 * (j / 2) + 1 == j;
      }
    }
  }

  // ---------------------------------------------------------------------------
  // Filter operations
  // ---------------------------------------------------------------------------

  /** `biquad_process_buffer`: the buffer filtered in place sample by sample;
      the state array `[x1, x2, y1, y2]` is passed in and returned. */
  method BiquadProcessBuffer(buffer: array<real>, b: (real, real, real), a: (real, real), state: Filters.Taps)
    returns (newState: Filters.Taps)
    modifies buffer
    ensures var c := Filters.Coefficients(b.0, b.1, b.2, a.0, a.1);
      (buffer[..], newState) == Filters.Run(c, state, old(buffer[..]))
  {
    var c := Filters.Coefficients(b.0, b.1, b.2, a.0, a.1);
    ghost var xs := buffer[..];
    var x1, x2, y1, y2 := state.x1, state.x2, state.y1, state.y2;
    assert xs[0..] == xs && buffer[..0] + Filters.Run(c, state, xs).0 == Filters.Run(c, state, xs).0;
    var i := 0;
    while i < buffer.Length
      invariant 0 <= i <= buffer.Length
      invariant buffer[i..] == xs[i..]
      invariant var rest := Filters.Run(c, Filters.Taps(x1, x2, y1, y2), xs[i..]);
        Filters.Run(c, state, xs) == (buffer[..i] + rest.0, rest.1)
    {
      var x := buffer[i];
      ghost var t := Filters.Taps(x1, x2, y1, y2);
      var y := Filters.Output(c, Filters.Taps(x1, x2, y1, y2), x);
      assert xs[i..][0] == x && xs[i..][1..] == xs[i + 1..];
      ghost var rest := Filters.Run(c, Filters.Shift(t, x, y), xs[i + 1..]);
      assert Filters.Run(c, t, xs[i..]) == ([y] + rest.0, rest.1);
      x2 := x1;
      x1 := x;
      y2 := y1;
      y1 := y;
      buffer[i] := y;
      assert buffer[..i + 1] == buffer[..i] + [y];
      assert buffer[..i + 1] + rest.0 == buffer[..i] + ([y] + rest.0);
      i := i + 1;
    }
    assert buffer[..i] == buffer[..] && xs[i..] == [];
    newState := Filters.Taps(x1, x2, y1, y2);
    assert Filters.Run(c, newState, xs[i..]) == ([], newState);
    assert buffer[..i] + [] == buffer[..i];
  }

  // ---------------------------------------------------------------------------
  // DC offset removal
  // ---------------------------------------------------------------------------

  lemma SumStep(s: seq<real>, n: nat)
    requires n < |s|
    ensures Sum(s[..n + 1]) == Sum(s[..n]) + s[n]
  {
    assert s[..n + 1][..n] == s[..n];
  }

  /** Subtracting a constant from every sample lowers the sum by |s| times it. */
  lemma {:induction false} SumMinusConstant(s: seq<real>, m: real)
    ensures Sum(seq(|s|, i requires 0 <= i < |s| => s[i] - m)) == Sum(s) - (|s| as real) * m
    decreases |s|
  {
    var t := seq(|s|, i requires 0 <= i < |s| => s[i] - m);
    if |s| > 0 {
      var p := s[..|s| - 1];
      assert t[..|t| - 1] == seq(|p|, i requires 0 <= i < |p| => p[i] - m);
      SumMinusConstant(p, m);
    }
  }

  /** After `remove_dc_offset` a non-empty buffer sums to zero. */
  lemma CenteredSumsToZero(s: seq<real>)
    requires |s| > 0
    ensures Sum(Centered(s)) == 0.0
  {
    SumMinusConstant(s, Mean(s));
  }

  /** The first half of `remove_dc_offset`: four lane sums, their horizontal
      sum, then the remainder. */
  method BufferSum(buffer: array<real>) returns (total: real)
    ensures total == Sum(buffer[..])
  {
    ghost var xs := buffer[..];
    var chunks := buffer.Length / LANES;
    // the four lanes of sum_v
    var s0, s1, s2, s3 := 0.0, 0.0, 0.0, 0.0;
    var c := 0;
    while c < chunks
      invariant 0 <= c <= chunks
      invariant s0 + s1 + s2 + s3 == Sum(xs[..4 * c])
    {
      var o := 4 * c;
      SumChunk(xs, o);
      s0, s1, s2, s3 := s0 + buffer[o], s1 + buffer[o + 1], s2 + buffer[o + 2], s3 + buffer[o + 3];
      c := c + 1;
    }
    total := s0 + s1 + s2 + s3;
    var i := 4 * chunks;
    while i < buffer.Length
      invariant 4 * chunks <= i <= buffer.Length
      invariant total == Sum(xs[..i])
    {
      SumStep(xs, i);
      total := total + buffer[i];
      i := i + 1;
    }
    assert xs[..i] == xs;
  }

  /** One chunk adds its four samples to the sum. */
  lemma SumChunk(s: seq<real>, n: nat)
    requires n + 4 <= |s|
    ensures Sum(s[..n + 4]) == Sum(s[..n]) + s[n] + s[n + 1] + s[n + 2] + s[n + 3]
  {
    SumStep(s, n);
    SumStep(s, n + 1);
    SumStep(s, n + 2);
    SumStep(s, n + 3);
  }

  method RemoveDcOffset(buffer: array<real>)
    modifies buffer
    ensures buffer[..] == Centered(old(buffer[..]))
  {
    var len := buffer.Length;
    if len == 0 {
      return;
    }
    var total := BufferSum(buffer);
    var mean := total / (len as real);
    SubtractMean(buffer, mean);
  }

  /** The second half of `remove_dc_offset`: the mean subtracted lane by lane,
      then from the remainder. */
  method SubtractMean(buffer: array<real>, mean: real)
    modifies buffer
    ensures buffer[..] == seq(buffer.Length, i requires 0 <= i < buffer.Length => old(buffer[i]) - mean)
  {
    ghost var xs := buffer[..];
    var chunks := buffer.Length / LANES;
    var c := 0;
    while c < chunks
      invariant 0 <= c <= chunks
      invariant forall k :: 0 <= k < 4 * c ==> buffer[k] == xs[k] - mean
      invariant forall k :: 4 * c <= k < buffer.Length ==> buffer[k] == xs[k]
    {
      var o := 4 * c;
      buffer[o], buffer[o + 1], buffer[o + 2], buffer[o + 3] :=
        buffer[o] - mean, buffer[o + 1] - mean, buffer[o + 2] - mean, buffer[o + 3] - mean;
      c := c + 1;
    }
    var i := 4 * chunks;
    while i < buffer.Length
      invariant 4 * chunks <= i <= buffer.Length
      invariant forall k :: 0 <= k < i ==> buffer[k] == xs[k] - mean
      invariant forall k :: i <= k < buffer.Length ==> buffer[k] == xs[k]
    {
      buffer[i] := buffer[i] - mean;
      i := i + 1;
    }
  }

  // ---------------------------------------------------------------------------
  // Peak detection
  // ---------------------------------------------------------------------------

  lemma PeakStep(s: seq<real>, n: nat)
    requires n < |s|
    ensures Peak(s[..n + 1]) == Max(Peak(s[..n]), Abs(s[n]))
  {
    assert s[..n + 1][..n] == s[..n];
  }

  /** The unit test: the peak of [-3, 1, 5, -2, 4] is 5. */
  lemma PeakExample()
    ensures Peak([-3.0, 1.0, 5.0, -2.0, 4.0]) == 5.0
  {
    var s := [-3.0, 1.0, 5.0, -2.0, 4.0];
    assert Abs(s[2]) == 5.0;
  }

  /** Updating four lane maxima and then taking their horizontal maximum is
      folding the four new values into the old horizontal maximum. */
  lemma LaneMaxStep(m0: real, m1: real, m2: real, m3: real, a: real, b: real, c: real, d: real)
    ensures Max(Max(Max(Max(m0, a), Max(m1, b)), Max(m2, c)), Max(m3, d))
         == Max(Max(Max(Max(Max(Max(Max(m0, m1), m2), m3), a), b), c), d)
  {
  }

  /** The SIMD `find_peak`: four running lane maxima, a horizontal maximum, then
      the remainder; it equals the scalar fold. */
  method FindPeak(buffer: array<real>) returns (peak: real)
    ensures peak == Peak(buffer[..])
  {
    if buffer.Length == 0 {
      return 0.0;
    }
    ghost var xs := buffer[..];
    var chunks := buffer.Length / LANES;
    var m0, m1, m2, m3 := 0.0, 0.0, 0.0, 0.0;
    var c := 0;
    while c < chunks
      invariant 0 <= c <= chunks
      invariant Max(Max(Max(m0, m1), m2), m3) == Peak(xs[..4 * c])
    {
      var o := 4 * c;
      PeakChunk(xs, o, m0, m1, m2, m3);
      m0, m1, m2, m3 := Max(m0, Abs(buffer[o])), Max(m1, Abs(buffer[o + 1])),
                        Max(m2, Abs(buffer[o + 2])), Max(m3, Abs(buffer[o + 3]));
      c := c + 1;
    }
    peak := Max(Max(Max(m0, m1), m2), m3);
    var i := 4 * chunks;
    while i < buffer.Length
      invariant 4 * chunks <= i <= buffer.Length
      invariant peak == Peak(xs[..i])
    {
      PeakStep(xs, i);
      peak := Max(peak, Abs(buffer[i]));
      i := i + 1;
    }
    assert xs[..i] == xs;
  }

  /** One chunk folded into the four lane maxima keeps their horizontal
      maximum equal to the peak of the prefix. */
  lemma PeakChunk(s: seq<real>, n: nat, m0: real, m1: real, m2: real, m3: real)
    requires n + 4 <= |s| && Max(Max(Max(m0, m1), m2), m3) == Peak(s[..n])
    ensures Max(Max(Max(Max(m0, Abs(s[n])), Max(m1, Abs(s[n + 1]))), Max(m2, Abs(s[n + 2]))), Max(m3, Abs(s[n + 3])))
         == Peak(s[..n + 4])
  {
    PeakStep(s, n);
    PeakStep(s, n + 1);
    PeakStep(s, n + 2);
    PeakStep(s, n + 3);
    LaneMaxStep(m0, m1, m2, m3, Abs(s[n]), Abs(s[n + 1]), Abs(s[n + 2]), Abs(s[n + 3]));
  }

  // ---------------------------------------------------------------------------
  // Envelope table
  // ---------------------------------------------------------------------------

  const ENVELOPE_TABLE_SIZE: nat := 1024

  /** The table index `envelope_lookup` computes: phase clamped to [0, 0.9999],
      scaled by the table size and truncated. It is always in bounds. */
  function EnvelopeIndex(phase: real): (i: nat)
    ensures i < ENVELOPE_TABLE_SIZE
    ensures phase <= 0.0 ==> i == 0
    ensures phase >= 0.9999 ==> i == ENVELOPE_TABLE_SIZE - 1
  {
    AsIndex(Clamp(phase, 0.0, 0.9999) * (ENVELOPE_TABLE_SIZE as real))
  }

  /** `envelope_lookup`; the table's contents (a Taylor-series raised cosine) are
      not modelled, so the table is a parameter. */
  function EnvelopeLookup(table: seq<real>, phase: real): (r: real)
    requires |table| == ENVELOPE_TABLE_SIZE
    ensures r in table
  {
    table[EnvelopeIndex(phase)]
  }
}
