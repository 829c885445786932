/** Scalar helpers of utils.rs (`lerp`, `hard_clip`) and the min/max/clamp
    primitives of Rust's `f32` and `Ord` that the rest of the model uses. */
module Utils {
  /** `core::f32::consts::PI`, to the precision an `f32` holds. */
  const PI: real := 3.1415927

  /** `f32::max` (NaN is out of scope). */
  function Max(a: real, b: real): (r: real)
    ensures r >= a && r >= b && (r == a || r == b)
  {
    if a >= b then a else b
  }

  /** `f32::min`. */
  function Min(a: real, b: real): (r: real)
    ensures r <= a && r <= b && (r == a || r == b)
  {
    if a <= b then a else b
  }

  /** `f32::abs`. */
  function Abs(x: real): (r: real)
    ensures r >= 0.0 && (r == x || r == -x)
  {
    if x >= 0.0 then x else -x
  }

  /** `f32::clamp`; Rust panics when `lo > hi`, hence the precondition. */
  function Clamp(x: real, lo: real, hi: real): (r: real)
    requires lo <= hi
    ensures lo <= r <= hi
    ensures lo <= x <= hi ==> r == x
    ensures x < lo ==> r == lo
    ensures x > hi ==> r == hi
  {
    if x < lo then lo else if x > hi then hi else x
  }

  /** `Ord::clamp` on integers; also panics when `lo > hi`. */
  function ClampInt(x: int, lo: int, hi: int): (r: int)
    requires lo <= hi
    ensures lo <= r <= hi
    ensures lo <= x <= hi ==> r == x
    ensures x < lo ==> r == lo
    ensures x > hi ==> r == hi
  {
    if x < lo then lo else if x > hi then hi else x
  }

  function MinNat(a: nat, b: nat): (r: nat)
    ensures r <= a && r <= b && (r == a || r == b)
  {
    if a <= b then a else b
  }

  /** `x as usize` for a non-NaN float: truncation toward zero, saturating at 0
      below (the upper saturation bound lies beyond every index the model uses). */
  function AsIndex(x: real): (r: nat)
    ensures x <= 0.0 ==> r == 0
    ensures x > 0.0 ==> r as real <= x < r as real + 1.0
  {
    if x <= 0.0 then 0 else x.Floor
  }

  /** `lerp(a, b, t) = a + (b - a) * t`: it starts at `a`, ends at `b`, and is
      constant when both ends agree. */
  function Lerp(a: real, b: real, t: real): (r: real)
    ensures t == 0.0 ==> r == a
    ensures t == 1.0 ==> r == b
    ensures a == b ==> r == a
  {
    a + (b - a) * t
  }

  /** For `t` in [0, 1] the interpolant stays between its two ends. */
  lemma LerpBetween(a: real, b: real, t: real)
    requires 0.0 <= t <= 1.0
    ensures Min(a, b) <= Lerp(a, b, t) <= Max(a, b)
  {
    var d := b - a;
    assert Lerp(a, b, t) == a + d * t;
    if d >= 0.0 {
      assert 0.0 <= d * t <= d * 1.0;
    } else {
      assert d * 1.0 <= d * t <= 0.0;
    }
  }

  /** `hard_clip(x, limit) = x.max(-limit).min(limit)`. For a non-negative limit
      the result lies in [-limit, limit] and values already there are kept; a
      negative limit always yields the limit itself. */
  function HardClip(x: real, limit: real): (r: real)
    ensures limit >= 0.0 ==> -limit <= r <= limit
    ensures -limit <= x <= limit ==> r == x
    ensures limit < 0.0 ==> r == limit
  {
    Min(Max(x, -limit), limit)
  }

  /** Clipping twice is clipping once. */
  lemma HardClipIdempotent(x: real, limit: real)
    ensures HardClip(HardClip(x, limit), limit) == HardClip(x, limit)
  {
  }

  /** For a non-negative limit `hard_clip` is `clamp(-limit, limit)`. */
  lemma HardClipIsClamp(x: real, limit: real)
    requires limit >= 0.0
    ensures HardClip(x, limit) == Clamp(x, -limit, limit)
  {
  }

  /** The dry/wet crossfade `dry * (1 - mix) + wet * mix` of the delay lines and
      the convolution reverb: mix 0 is fully dry and mix 1 fully wet. */
  function DryWet(dry: real, wet: real, mix: real): (r: real)
    ensures mix == 0.0 ==> r == dry
    ensures mix == 1.0 ==> r == wet
    ensures dry == wet ==> r == dry
  {
    dry * (1.0 - mix) + wet * mix
  }

  /** The crossfade is linear interpolation from dry to wet, so for a mix in
      [0, 1] it lies between the two signals. */
  lemma DryWetBetween(dry: real, wet: real, mix: real)
    requires 0.0 <= mix <= 1.0
    ensures DryWet(dry, wet, mix) == Lerp(dry, wet, mix)
    ensures Min(dry, wet) <= DryWet(dry, wet, mix) <= Max(dry, wet)
  {
    assert dry * (1.0 - mix) + wet * mix == dry + (wet - dry) * mix;
    LerpBetween(dry, wet, mix);
  }

  /** Two facts of real multiplication the solver needs spelled out. */
  lemma NonNegativeFactor(q: real, d: real)
    requires d > 0.0 && q * d >= 0.0
    ensures q >= 0.0
  {
  }

  lemma MulMonotone(a: real, b: real, c: real)
    requires a >= 0.0 && b <= c
    ensures a * b <= a * c
  {
  }

  lemma MulStrict(a: real, b: real, c: real)
    requires a > 0.0 && b < c
    ensures a * b < a * c
  {
  }

  /** Dividing by at least one does not increase a non-negative value. */
  lemma QuotientAtMost(a: real, d: real)
    requires a >= 0.0 && d >= 1.0
    ensures 0.0 <= a / d <= a
  {
    var q := a / d;
    assert q * d == a;
    NonNegativeFactor(q, d);
    MulMonotone(q, 1.0, d);
  }

  /** A quotient is at least `b` when the dividend is at least `b` times the divisor. */
  lemma QuotientAtLeast(a: real, d: real, b: real)
    requires d > 0.0 && a >= b * d
    ensures a / d >= b
  {
    var q := a / d;
    assert q * d == a;
    if q < b {
      MulStrict(d, q, b);
    }
  }
}
