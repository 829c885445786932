/** Filter state of filters.rs: the biquad (Direct Form I) and one-pole filters,
    their pass-through defaults, coefficient normalisation and state shifting.
    The Audio EQ Cookbook and one-pole coefficient setters are not modelled. */
module Filters {
  /** Biquad coefficients, already divided by a0. */
  datatype Coefficients = Coefficients(b0: real, b1: real, b2: real, a1: real, a2: real)

  /** The biquad's delay line: the last two inputs and the last two outputs. */
  datatype Taps = Taps(x1: real, x2: real, y1: real, y2: real)

  /** What `Biquad::new` sets: b0 = 1, everything else 0. */
  const PASS_THROUGH: Coefficients := Coefficients(1.0, 0.0, 0.0, 0.0, 0.0)

  const CLEAR_TAPS: Taps := Taps(0.0, 0.0, 0.0, 0.0)

  /** The difference equation y = b0 x + b1 x1 + b2 x2 - a1 y1 - a2 y2. */
  function Output(c: Coefficients, t: Taps, x: real): real {
    c.b0 * x + c.b1 * t.x1 + c.b2 * t.x2 - c.a1 * t.y1 - c.a2 * t.y2
  }

  /** After a sample: x1 = x, x2 = old x1, y1 = y, y2 = old y1. */
  function Shift(t: Taps, x: real, y: real): Taps {
    Taps(x, t.x1, y, t.y1)
  }

  /** Filtering a whole sequence sample by sample from taps `t`: the outputs and
      the final taps. */
  function Run(c: Coefficients, t: Taps, xs: seq<real>): (r: (seq<real>, Taps))
    ensures |r.0| == |xs|
    decreases |xs|
  {
    if xs == [] then ([], t)
    else
      var y := Output(c, t, xs[0]);
      var rest := Run(c, Shift(t, xs[0], y), xs[1..]);
      ([y] + rest.0, rest.1)
  }

  /** The pass-through filter returns its input whatever its taps hold. */
  lemma PassThroughOutput(t: Taps, x: real)
    ensures Output(PASS_THROUGH, t, x) == x
  {
  }

  /** Consequently a pass-through filter leaves any signal unchanged. */
  lemma {:induction false} PassThroughRun(t: Taps, xs: seq<real>)
    ensures Run(PASS_THROUGH, t, xs).0 == xs
    decreases |xs|
  {
    if xs != [] {
      PassThroughRun(Shift(t, xs[0], xs[0]), xs[1..]);
    }
  }

  /** Filtering a signal in two blocks, threading the taps, is filtering it in
      one block: block boundaries are invisible. */
  lemma {:induction false} RunSplit(c: Coefficients, t: Taps, xs: seq<real>, ys: seq<real>)
    ensures Run(c, t, xs + ys).0 == Run(c, t, xs).0 + Run(c, Run(c, t, xs).1, ys).0
    ensures Run(c, t, xs + ys).1 == Run(c, Run(c, t, xs).1, ys).1
    decreases |xs|
  {
    if xs != [] {
      var y := Output(c, t, xs[0]);
      assert (xs + ys)[0] == xs[0];
      assert (xs + ys)[1..] == xs[1..] + ys;
      RunSplit(c, Shift(t, xs[0], y), xs[1..], ys);
    } else {
      assert xs + ys == ys;
    }
  }

  /** After at least two samples the taps hold the last two inputs and outputs. */
  lemma {:induction false} RunTaps(c: Coefficients, t: Taps, xs: seq<real>)
    requires |xs| >= 2
    ensures var r := Run(c, t, xs);
      r.1 == Taps(xs[|xs| - 1], xs[|xs| - 2], r.0[|xs| - 1], r.0[|xs| - 2])
    decreases |xs|
  {
    var y := Output(c, t, xs[0]);
    var t' := Shift(t, xs[0], y);
    if |xs| > 2 {
      RunTaps(c, t', xs[1..]);
    } else {
      var zs := xs[1..];
      var y' := Output(c, t', zs[0]);
      assert zs[1..] == [];
      assert Run(c, t', zs) == ([y'] + [], Shift(t', zs[0], y'));
    }
  }

  /** `set_coefficients`: every coefficient divided by a0 (f32 division by zero
      yields infinities, which the model excludes). Multiplying back by a0
      recovers the raw coefficients. */
  function Normalized(b0: real, b1: real, b2: real, a0: real, a1: real, a2: real): (c: Coefficients)
    requires a0 != 0.0
    ensures c.b0 * a0 == b0 && c.b1 * a0 == b1 && c.b2 * a0 == b2
    ensures c.a1 * a0 == a1 && c.a2 * a0 == a2
  {
    var inv := 1.0 / a0;
    Coefficients(b0 * inv, b1 * inv, b2 * inv, a1 * inv, a2 * inv)
  }

  /** A 2-pole, 2-zero IIR filter evaluated in Direct Form I. */
  class Biquad {
    var b0: real
    var b1: real
    var b2: real
    var a1: real
    var a2: real
    var x1: real
    var x2: real
    var y1: real
    var y2: real

    function Coeffs(): Coefficients
      reads this
    {
      Coefficients(b0, b1, b2, a1, a2)
    }

    function State(): Taps
      reads this
    {
      Taps(x1, x2, y1, y2)
    }

    /** `Biquad::new`: a pass-through filter with a clear delay line. */
    constructor ()
      ensures Coeffs() == PASS_THROUGH && State() == CLEAR_TAPS
    {
      b0, b1, b2, a1, a2 := 1.0, 0.0, 0.0, 0.0, 0.0;
      x1, x2, y1, y2 := 0.0, 0.0, 0.0, 0.0;
    }

    method SetCoefficients(nb0: real, nb1: real, nb2: real, a0: real, na1: real, na2: real)
      requires a0 != 0.0
      modifies this
      ensures Coeffs() == Normalized(nb0, nb1, nb2, a0, na1, na2)
      ensures State() == old(State())
    {
      var inv := 1.0 / a0;
      b0 := nb0 * inv;
      b1 := nb1 * inv;
      b2 := nb2 * inv;
      a1 := na1 * inv;
      a2 := na2 * inv;
    }

    method Process(x: real) returns (y: real)
      modifies this
      ensures y == Output(old(Coeffs()), old(State()), x)
      ensures State() == Shift(old(State()), x, y)
      ensures Coeffs() == old(Coeffs())
    {
      y := b0 * x + b1 * x1 + b2 * x2 - a1 * y1 - a2 * y2;
      x2 := x1;
      x1 := x;
      y2 := y1;
      y1 := y;
    }

    method Reset()
      modifies this
      ensures State() == CLEAR_TAPS
      ensures Coeffs() == old(Coeffs())
    {
      x1, x2, y1, y2 := 0.0, 0.0, 0.0, 0.0;
    }
  }

  /** One output step of the one-pole filter y = a0 x + b1 y1. */
  function OnePoleOutput(a0: real, b1: real, y1: real, x: real): real {
    a0 * x + b1 * y1
  }

  /** With `OnePole::new`'s coefficients (a0 = 1, b1 = 0) the output is the input. */
  lemma OnePolePassThrough(y1: real, x: real)
    ensures OnePoleOutput(1.0, 0.0, y1, x) == x
  {
  }

  class OnePole {
    var a0: real
    var b1: real
    var y1: real

    /** `OnePole::new`: pass-through (a0 = 1, b1 = 0) with no memory. */
    constructor ()
      ensures a0 == 1.0 && b1 == 0.0 && y1 == 0.0
    {
      a0, b1, y1 := 1.0, 0.0, 0.0;
    }

    /** Returns the newly stored `y1`. */
    method Process(x: real) returns (y: real)
      modifies this
      ensures y == OnePoleOutput(old(a0), old(b1), old(y1), x)
      ensures y1 == y && a0 == old(a0) && b1 == old(b1)
    {
      y1 := a0 * x + b1 * y1;
      y := y1;
    }

    /** Zeroes the memory only. */
    method Reset()
      modifies this
      ensures y1 == 0.0 && a0 == old(a0) && b1 == old(b1)
    {
      y1 := 0.0;
    }
  }

  /** Two independent biquads, one per channel. */
  class StereoBiquad {
    const left: Biquad
    const right: Biquad

    ghost predicate Valid()
      reads this
    {
      left != right
    }

    constructor ()
      ensures Valid() && fresh(left) && fresh(right)
      ensures left.Coeffs() == PASS_THROUGH && left.State() == CLEAR_TAPS
      ensures right.Coeffs() == PASS_THROUGH && right.State() == CLEAR_TAPS
    {
      left := new Biquad();
      right := new Biquad();
    }

    /** Each output depends only on its own channel's input, state and coefficients. */
    method Process(l: real, r: real) returns (yl: real, yr: real)
      requires Valid()
      modifies left, right
      ensures yl == Output(old(left.Coeffs()), old(left.State()), l)
      ensures yr == Output(old(right.Coeffs()), old(right.State()), r)
      ensures left.State() == Shift(old(left.State()), l, yl)
      ensures right.State() == Shift(old(right.State()), r, yr)
      ensures left.Coeffs() == old(left.Coeffs()) && right.Coeffs() == old(right.Coeffs())
    {
      yl := left.Process(l);
      yr := right.Process(r);
    }

    method Reset()
      requires Valid()
      modifies left, right
      ensures left.State() == CLEAR_TAPS && right.State() == CLEAR_TAPS
      ensures left.Coeffs() == old(left.Coeffs()) && right.Coeffs() == old(right.Coeffs())
    {
      left.Reset();
      right.Reset();
    }
  }
}
