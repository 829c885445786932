/** The delay effects of delay.rs: a fractional delay line with damped
    feedback, the feedback comb and all-pass filters of reverb networks, the
    stereo ping-pong delay and the cubic-interpolated modulated delay.

    Every effect keeps a fixed circular buffer and a write position. The model
    adds a ghost `history` (every value ever written, oldest first) and keeps the
    invariant `RingHolds`: the slot `age` samples behind the write position holds
    the value written `age` calls ago, or 0 when nothing was written that long
    ago. Each `Process` is then specified by what it reads from the history. */
module Delay {
  import opened Utils
  import Ints
  import Filters

  /** Capacity of the delay buffers: two seconds at 48 kHz. */
  const MAX_DELAY_SAMPLES: nat := 96000

  /** Capacity of the all-pass buffer. */
  const MAX_ALLPASS_SAMPLES: nat := 4096

  // ---------------------------------------------------------------------------
  // Circular buffer theory
  // ---------------------------------------------------------------------------

  /** The read position `(write_pos + size - age) % size` of a sample written
      `age` calls ago. Age `size` is the write position itself: the oldest
      sample, about to be overwritten. */
  function Slot(w: nat, age: nat, size: nat): (i: nat)
    requires w < size && 1 <= age <= size
    ensures i < size
    ensures i == if age <= w then w - age else w + size - age
    ensures i == w <==> age == size
  {
    var x := w + size - age;
    if age <= w then
      Ints.DivModUnique(x, size, 1, w - age);
      x % size
    else
      Ints.DivModUnique(x, size, 0, x);
      x % size
  }

  /** Different ages within the capacity read different slots. */
  lemma SlotInjective(w: nat, a: nat, b: nat, size: nat)
    requires w < size && 1 <= a <= size && 1 <= b <= size
    requires Slot(w, a, size) == Slot(w, b, size)
    ensures a == b
  {
  }

  /** Stepping one slot back, `(pos + size - 1) % size`, reads one sample older. */
  lemma SlotOlder(w: nat, age: nat, size: nat)
    requires w < size && 1 <= age < size
    ensures Slot(w, age + 1, size) == (Slot(w, age, size) + size - 1) % size
  {
    var s := Slot(w, age, size);
    assert (s + size - 1) % size == Slot(s, 1, size);
  }

  /** The value a feedback delay stores: the input plus the feedback signal
      scaled by its gain. */
  function Fed(input: real, signal: real, gain: real): (r: real)
    ensures gain == 0.0 ==> r == input
  {
    input + signal * gain
  }

  /** The value written `age` calls ago, 0 before the first write. */
  function Written(h: seq<real>, age: nat): (r: real)
    ensures 1 <= age <= |h| ==> r == h[|h| - age]
    ensures age == 0 || age > |h| ==> r == 0.0
  {
    if 1 <= age <= |h| then h[|h| - age] else 0.0
  }

  /** The buffer `buf` with write position `w` holds the history `h`. */
  ghost predicate RingHolds(buf: seq<real>, w: nat, h: seq<real>) {
    w < |buf| && forall age :: 1 <= age <= |buf| ==> buf[Slot(w, age, |buf|)] == Written(h, age)
  }

  lemma RingRead(buf: seq<real>, w: nat, h: seq<real>, age: nat)
    requires RingHolds(buf, w, h) && 1 <= age <= |buf|
    ensures buf[Slot(w, age, |buf|)] == Written(h, age)
  {
  }

  /** Writing at the write position and advancing it records the value as the
      newest in the history and ages everything else by one. */
  lemma RingWrite(buf: seq<real>, w: nat, h: seq<real>, v: real)
    requires RingHolds(buf, w, h)
    ensures RingHolds(buf[w := v], (w + 1) % |buf|, h + [v])
  {
    var n := |buf|;
    var w' := (w + 1) % n;
    if w + 1 == n {
      Ints.DivModUnique(w + 1, n, 1, 0);
    } else {
      Ints.DivModUnique(w + 1, n, 0, w + 1);
    }
    assert w' == if w + 1 == n then 0 else w + 1;
    var b' := buf[w := v];
    var h' := h + [v];
    forall age | 1 <= age <= n
      ensures b'[Slot(w', age, n)] == Written(h', age)
    {
      if age == 1 {
        assert Slot(w', 1, n) == w;
        assert Written(h', 1) == v;
      } else {
        var s := Slot(w, age - 1, n);
        assert Slot(w', age, n) == s;
        assert s != w;
        assert b'[s] == buf[s];
        assert Written(h', age) == Written(h, age - 1);
      }
    }
  }

  /** A zeroed buffer holds the empty history, whatever the write position. */
  lemma RingClear(buf: seq<real>, w: nat)
    requires w < |buf| && forall i :: 0 <= i < |buf| ==> buf[i] == 0.0
    ensures RingHolds(buf, w, [])
  {
  }

  /** Stores `v` at the write position and returns the advanced position. */
  method Push(buffer: array<real>, w: nat, ghost h: seq<real>, v: real) returns (next: nat)
    requires RingHolds(buffer[..], w, h)
    modifies buffer
    ensures buffer[..] == old(buffer[..])[w := v]
    ensures next == (w + 1) % buffer.Length
    ensures RingHolds(buffer[..], next, h + [v])
  {
    RingWrite(buffer[..], w, h, v);
    buffer[w] := v;
    next := (w + 1) % buffer.Length;
  }

  /** `buffer.fill(0.0)`. */
  method Fill(buffer: array<real>, w: nat)
    requires w < buffer.Length
    modifies buffer
    ensures forall i :: 0 <= i < buffer.Length ==> buffer[i] == 0.0
    ensures RingHolds(buffer[..], w, [])
  {
    forall i | 0 <= i < buffer.Length {
      buffer[i] := 0.0;
    }
    RingClear(buffer[..], w);
  }

  // ---------------------------------------------------------------------------
  // Simple delay line
  // ---------------------------------------------------------------------------

  /** The linearly interpolated read of `DelayLine::process`: between the
      sample `floor(delay)` calls old and the one a call older. */
  function FractionalRead(h: seq<real>, delay: real): real {
    var d := AsIndex(delay);
    Lerp(Written(h, d), Written(h, d + 1), delay - d as real)
  }

  /** A whole-sample delay reads exactly the sample written that many calls ago,
      and a fractional one lies between its two neighbours. */
  lemma FractionalReadExact(h: seq<real>, d: nat)
    ensures FractionalRead(h, d as real) == Written(h, d)
  {
    assert AsIndex(d as real) == d;
  }

  lemma FractionalReadBetween(h: seq<real>, delay: real)
    requires delay >= 0.0
    ensures var d := AsIndex(delay);
      Min(Written(h, d), Written(h, d + 1)) <= FractionalRead(h, delay) <= Max(Written(h, d), Written(h, d + 1))
  {
    var d := AsIndex(delay);
    LerpBetween(Written(h, d), Written(h, d + 1), delay - d as real);
  }

  /** Sweeping the delay up to the next whole sample ends where the next
      interpolation segment starts: the read is continuous in the delay. */
  lemma FractionalReadContinuous(h: seq<real>, d: nat)
    ensures Lerp(Written(h, d), Written(h, d + 1), 1.0) == FractionalRead(h, (d + 1) as real)
  {
    FractionalReadExact(h, d + 1);
  }

  class DelayLine {
    const buffer: array<real>
    const damping: Filters.OnePole
    var writePos: nat
    var delaySamples: real
    var feedback: real
    var mix: real
    ghost var history: seq<real>

    ghost predicate Valid()
      reads this, buffer
    {
      buffer.Length == MAX_DELAY_SAMPLES &&
      1.0 <= delaySamples <= (MAX_DELAY_SAMPLES - 1) as real &&
      0.0 <= feedback <= 0.99 && 0.0 <= mix <= 1.0 &&
      RingHolds(buffer[..], writePos, history)
    }

    /** `DelayLine::new`: silent buffer, 1000-sample delay, feedback and mix 0.5,
        pass-through damping. */
    constructor ()
      ensures Valid() && fresh(buffer) && fresh(damping)
      ensures history == [] && writePos == 0
      ensures delaySamples == 1000.0 && feedback == 0.5 && mix == 0.5
      ensures damping.a0 == 1.0 && damping.b1 == 0.0 && damping.y1 == 0.0
    {
      buffer := new real[MAX_DELAY_SAMPLES](_ => 0.0);
      damping := new Filters.OnePole();
      writePos := 0;
      delaySamples := 1000.0;
      feedback := 0.5;
      mix := 0.5;
      history := [];
      new;
      RingClear(buffer[..], 0);
    }

    method SetDelayTime(timeSeconds: real, sampleRate: real)
      requires Valid()
      modifies this
      ensures Valid()
      ensures delaySamples == Clamp(timeSeconds * sampleRate, 1.0, (MAX_DELAY_SAMPLES - 1) as real)
      ensures writePos == old(writePos) && history == old(history)
      ensures feedback == old(feedback) && mix == old(mix)
    {
      var samples := timeSeconds * sampleRate;
      delaySamples := Clamp(samples, 1.0, (MAX_DELAY_SAMPLES - 1) as real);
    }

    method SetDelaySamples(samples: real)
      requires Valid()
      modifies this
      ensures Valid()
      ensures delaySamples == Clamp(samples, 1.0, (MAX_DELAY_SAMPLES - 1) as real)
      ensures writePos == old(writePos) && history == old(history)
      ensures feedback == old(feedback) && mix == old(mix)
    {
      delaySamples := Clamp(samples, 1.0, (MAX_DELAY_SAMPLES - 1) as real);
    }

    method SetFeedback(fb: real)
      requires Valid()
      modifies this
      ensures Valid()
      ensures feedback == Clamp(fb, 0.0, 0.99)
      ensures writePos == old(writePos) && history == old(history)
      ensures delaySamples == old(delaySamples) && mix == old(mix)
    {
      feedback := Clamp(fb, 0.0, 0.99);
    }

    method SetMix(m: real)
      requires Valid()
      modifies this
      ensures Valid()
      ensures mix == Clamp(m, 0.0, 1.0)
      ensures writePos == old(writePos) && history == old(history)
      ensures delaySamples == old(delaySamples) && feedback == old(feedback)
    {
      mix := Clamp(m, 0.0, 1.0);
    }

    /** Reads the interpolated delayed sample, damps it, writes input plus damped
        feedback, and returns the dry/wet mix of the input and the undamped
        delayed sample. */
    method Process(input: real) returns (out: real)
      requires Valid()
      modifies this, buffer, damping
      ensures Valid()
      ensures out == DryWet(input, FractionalRead(old(history), delaySamples), mix)
      ensures damping.y1 == Filters.OnePoleOutput(old(damping.a0), old(damping.b1), old(damping.y1),
                                                  FractionalRead(old(history), delaySamples))
      ensures damping.a0 == old(damping.a0) && damping.b1 == old(damping.b1)
      ensures history == old(history) + [Fed(input, damping.y1, feedback)]
      ensures writePos == (old(writePos) + 1) % MAX_DELAY_SAMPLES
      ensures delaySamples == old(delaySamples) && feedback == old(feedback) && mix == old(mix)
    {
      var d := AsIndex(delaySamples);
      var frac := delaySamples - d as real;
      var readPos1 := (writePos + MAX_DELAY_SAMPLES - d) % MAX_DELAY_SAMPLES;
      var readPos2 := (readPos1 + MAX_DELAY_SAMPLES - 1) % MAX_DELAY_SAMPLES;
      RingRead(buffer[..], writePos, history, d);
      SlotOlder(writePos, d, MAX_DELAY_SAMPLES);
      RingRead(buffer[..], writePos, history, d + 1);
      var sample1 := buffer[readPos1];
      var sample2 := buffer[readPos2];
      var delayed := Lerp(sample1, sample2, frac);
      var delayedDamped := damping.Process(delayed);
      var v := Fed(input, delayedDamped, feedback);
      writePos := Push(buffer, writePos, history, v);
      history := history + [v];
      out := DryWet(input, delayed, mix);
    }

    /** Zeroes the buffer and the damping memory; the write position stays. */
    method Clear()
      requires Valid()
      modifies this, buffer, damping
      ensures Valid() && history == []
      ensures damping.y1 == 0.0 && damping.a0 == old(damping.a0) && damping.b1 == old(damping.b1)
      ensures writePos == old(writePos)
      ensures delaySamples == old(delaySamples) && feedback == old(feedback) && mix == old(mix)
    {
      Fill(buffer, writePos);
      damping.Reset();
      history := [];
    }
  }

  // ---------------------------------------------------------------------------
  // Comb filter
  // ---------------------------------------------------------------------------

  /** `samples.min(size - 1).max(1)`: a whole-sample delay in [1, size - 1]. */
  function DelayClamp(samples: nat, size: nat): (r: nat)
    requires size >= 2
    ensures 1 <= r <= size - 1
    ensures 1 <= samples <= size - 1 ==> r == samples
    ensures samples == 0 ==> r == 1
    ensures samples >= size ==> r == size - 1
  {
    var capped := if samples <= size - 1 then samples else size - 1;
    if capped >= 1 then capped else 1
  }

  /** `min` then `max` is the integer clamp to [1, size - 1]. */
  lemma DelayClampIsClamp(samples: nat, size: nat)
    requires size >= 2
    ensures DelayClamp(samples, size) == ClampInt(samples, 1, size - 1)
  {
  }

  /** Feedback comb filter y[n] = x[n - M] + g * damp(y[n - M]): it returns the
      sample written M calls ago and writes the input plus damped feedback. */
  class CombFilter {
    const buffer: array<real>
    const damping: Filters.OnePole
    var writePos: nat
    var delaySamples: nat
    var feedback: real
    ghost var history: seq<real>

    ghost predicate Valid()
      reads this, buffer
    {
      buffer.Length == MAX_DELAY_SAMPLES &&
      1 <= delaySamples <= MAX_DELAY_SAMPLES - 1 &&
      -0.99 <= feedback <= 0.99 &&
      RingHolds(buffer[..], writePos, history)
    }

    constructor ()
      ensures Valid() && fresh(buffer) && fresh(damping)
      ensures history == [] && writePos == 0 && delaySamples == 1000 && feedback == 0.5
      ensures damping.a0 == 1.0 && damping.b1 == 0.0 && damping.y1 == 0.0
    {
      buffer := new real[MAX_DELAY_SAMPLES](_ => 0.0);
      damping := new Filters.OnePole();
      writePos := 0;
      delaySamples := 1000;
      feedback := 0.5;
      history := [];
      new;
      RingClear(buffer[..], 0);
    }

    method SetDelaySamples(samples: nat)
      requires Valid()
      modifies this
      ensures Valid()
      ensures delaySamples == DelayClamp(samples, MAX_DELAY_SAMPLES)
      ensures writePos == old(writePos) && history == old(history) && feedback == old(feedback)
    {
      delaySamples := DelayClamp(samples, MAX_DELAY_SAMPLES);
    }

    method SetFeedback(fb: real)
      requires Valid()
      modifies this
      ensures Valid()
      ensures feedback == Clamp(fb, -0.99, 0.99)
      ensures writePos == old(writePos) && history == old(history) && delaySamples == old(delaySamples)
    {
      feedback := Clamp(fb, -0.99, 0.99);
    }

    method Process(input: real) returns (delayed: real)
      requires Valid()
      modifies this, buffer, damping
      ensures Valid()
      ensures delayed == Written(old(history), delaySamples)
      ensures damping.y1 == Filters.OnePoleOutput(old(damping.a0), old(damping.b1), old(damping.y1), delayed)
      ensures damping.a0 == old(damping.a0) && damping.b1 == old(damping.b1)
      ensures history == old(history) + [Fed(input, damping.y1, feedback)]
      ensures writePos == (old(writePos) + 1) % MAX_DELAY_SAMPLES
      ensures delaySamples == old(delaySamples) && feedback == old(feedback)
    {
      var readPos := (writePos + MAX_DELAY_SAMPLES - delaySamples) % MAX_DELAY_SAMPLES;
      RingRead(buffer[..], writePos, history, delaySamples);
      delayed := buffer[readPos];
      var damped := damping.Process(delayed);
      var v := Fed(input, damped, feedback);
      writePos := Push(buffer, writePos, history, v);
      history := history + [v];
    }

    method Clear()
      requires Valid()
      modifies this, buffer, damping
      ensures Valid() && history == []
      ensures damping.y1 == 0.0 && damping.a0 == old(damping.a0) && damping.b1 == old(damping.b1)
      ensures writePos == old(writePos) && delaySamples == old(delaySamples) && feedback == old(feedback)
    {
      Fill(buffer, writePos);
      damping.Reset();
      history := [];
    }
  }

  // ---------------------------------------------------------------------------
  // All-pass filter
  // ---------------------------------------------------------------------------

  /** One step of the Schroeder all-pass: output -g x + delayed, stored value
      x + g output. */
  function AllPassOutput(g: real, x: real, delayed: real): real {
    -g * x + delayed
  }

  /** The all-pass history records, call by call, the input `xs[k]`, the
      output `ys[k]` and the coefficient `gs[k]` in force: the stored value is
      x + g y. */
  ghost predicate AllPassRecorded(h: seq<real>, xs: seq<real>, ys: seq<real>, gs: seq<real>) {
    |xs| == |h| && |ys| == |h| && |gs| == |h| &&
    forall k :: 0 <= k < |h| ==> h[k] == Fed(xs[k], ys[k], gs[k])
  }

  /** Over a recorded history the next output obeys the all-pass recurrence
      y[n] = -g x[n] + x[n-d] + g' y[n-d] (g' the coefficient at call n - d),
      and is -g x[n] before d calls have been made. */
  lemma AllPassRecurrence(h: seq<real>, xs: seq<real>, ys: seq<real>, gs: seq<real>, g: real, x: real, d: nat)
    requires AllPassRecorded(h, xs, ys, gs) && 1 <= d
    ensures d <= |h| ==> AllPassOutput(g, x, Written(h, d)) == -g * x + xs[|h| - d] + gs[|h| - d] * ys[|h| - d]
    ensures d > |h| ==> AllPassOutput(g, x, Written(h, d)) == -g * x
  {
    if d <= |h| {
      assert Written(h, d) == h[|h| - d];
    }
  }

  class AllPassFilter {
    const buffer: array<real>
    var writePos: nat
    var delaySamples: nat
    var coefficient: real
    ghost var history: seq<real>
    ghost var inputs: seq<real>
    ghost var outputs: seq<real>
    ghost var gains: seq<real>

    ghost predicate Valid()
      reads this, buffer
    {
      buffer.Length == MAX_ALLPASS_SAMPLES &&
      1 <= delaySamples <= MAX_ALLPASS_SAMPLES - 1 &&
      -0.9 <= coefficient <= 0.9 &&
      RingHolds(buffer[..], writePos, history) &&
      AllPassRecorded(history, inputs, outputs, gains)
    }

    constructor ()
      ensures Valid() && fresh(buffer)
      ensures history == [] && writePos == 0 && delaySamples == 500 && coefficient == 0.5
      ensures inputs == [] && outputs == [] && gains == []
    {
      buffer := new real[MAX_ALLPASS_SAMPLES](_ => 0.0);
      writePos := 0;
      delaySamples := 500;
      coefficient := 0.5;
      history := [];
      inputs, outputs, gains := [], [], [];
      new;
      RingClear(buffer[..], 0);
    }

    method SetDelaySamples(samples: nat)
      requires Valid()
      modifies this
      ensures Valid()
      ensures delaySamples == DelayClamp(samples, MAX_ALLPASS_SAMPLES)
      ensures writePos == old(writePos) && history == old(history) && coefficient == old(coefficient)
      ensures inputs == old(inputs) && outputs == old(outputs) && gains == old(gains)
    {
      delaySamples := DelayClamp(samples, MAX_ALLPASS_SAMPLES);
    }

    method SetCoefficient(coeff: real)
      requires Valid()
      modifies this
      ensures Valid()
      ensures coefficient == Clamp(coeff, -0.9, 0.9)
      ensures writePos == old(writePos) && history == old(history) && delaySamples == old(delaySamples)
      ensures inputs == old(inputs) && outputs == old(outputs) && gains == old(gains)
    {
      coefficient := Clamp(coeff, -0.9, 0.9);
    }

    method Process(input: real) returns (output: real)
      requires Valid()
      modifies this, buffer
      ensures Valid()
      ensures output == AllPassOutput(coefficient, input, Written(old(history), delaySamples))
      ensures history == old(history) + [Fed(input, output, coefficient)]
      ensures writePos == (old(writePos) + 1) % MAX_ALLPASS_SAMPLES
      ensures delaySamples == old(delaySamples) && coefficient == old(coefficient)
      ensures inputs == old(inputs) + [input] && outputs == old(outputs) + [output]
      ensures gains == old(gains) + [coefficient]
      ensures var n := |old(inputs)|; n >= delaySamples ==>
        output == -coefficient * input + old(inputs)[n - delaySamples] + old(gains)[n - delaySamples] * old(outputs)[n - delaySamples]
      ensures |old(inputs)| < delaySamples ==> output == -coefficient * input
    {
      AllPassRecurrence(history, inputs, outputs, gains, coefficient, input, delaySamples);
      var readPos := (writePos + MAX_ALLPASS_SAMPLES - delaySamples) % MAX_ALLPASS_SAMPLES;
      RingRead(buffer[..], writePos, history, delaySamples);
      var delayed := buffer[readPos];
      output := AllPassOutput(coefficient, input, delayed);
      var v := Fed(input, output, coefficient);
      writePos := Push(buffer, writePos, history, v);
      history := history + [v];
      inputs, outputs, gains := inputs + [input], outputs + [output], gains + [coefficient];
    }

    method Clear()
      requires Valid()
      modifies this, buffer
      ensures Valid() && history == []
      ensures inputs == [] && outputs == [] && gains == []
      ensures writePos == old(writePos) && delaySamples == old(delaySamples) && coefficient == old(coefficient)
    {
      Fill(buffer, writePos);
      history := [];
      inputs, outputs, gains := [], [], [];
    }
  }

  // ---------------------------------------------------------------------------
  // Stereo ping-pong delay
  // ---------------------------------------------------------------------------

  /** `set_delay_time`: seconds times rate, truncated, clamped to [1, M - 1]. */
  function PingPongDelaySamples(timeSeconds: real, sampleRate: real): (r: nat)
    ensures 1 <= r <= MAX_DELAY_SAMPLES - 1
    ensures var s := AsIndex(timeSeconds * sampleRate);
      1 <= s <= MAX_DELAY_SAMPLES - 1 ==> r == s
  {
    DelayClamp(AsIndex(timeSeconds * sampleRate), MAX_DELAY_SAMPLES)
  }

  /** Two delay lines sharing a write position and delay, each fed with its own
      input plus the other side's damped feedback. */
  class PingPongDelay {
    const leftBuffer: array<real>
    const rightBuffer: array<real>
    const dampingL: Filters.OnePole
    const dampingR: Filters.OnePole
    var writePos: nat
    var delaySamples: nat
    var feedback: real
    var mix: real
    ghost var historyL: seq<real>
    ghost var historyR: seq<real>

    ghost predicate Valid()
      reads this, leftBuffer, rightBuffer
    {
      leftBuffer.Length == MAX_DELAY_SAMPLES && rightBuffer.Length == MAX_DELAY_SAMPLES &&
      leftBuffer != rightBuffer && dampingL != dampingR &&
      1 <= delaySamples <= MAX_DELAY_SAMPLES - 1 &&
      0.0 <= feedback <= 0.95 && 0.0 <= mix <= 1.0 &&
      RingHolds(leftBuffer[..], writePos, historyL) &&
      RingHolds(rightBuffer[..], writePos, historyR)
    }

    constructor ()
      ensures Valid() && fresh(leftBuffer) && fresh(rightBuffer) && fresh(dampingL) && fresh(dampingR)
      ensures historyL == [] && historyR == [] && writePos == 0
      ensures delaySamples == 22050 && feedback == 0.5 && mix == 0.5
      ensures dampingL.a0 == 1.0 && dampingL.b1 == 0.0 && dampingL.y1 == 0.0
      ensures dampingR.a0 == 1.0 && dampingR.b1 == 0.0 && dampingR.y1 == 0.0
    {
      leftBuffer := new real[MAX_DELAY_SAMPLES](_ => 0.0);
      rightBuffer := new real[MAX_DELAY_SAMPLES](_ => 0.0);
      dampingL := new Filters.OnePole();
      dampingR := new Filters.OnePole();
      writePos := 0;
      delaySamples := 22050;
      feedback := 0.5;
      mix := 0.5;
      historyL := [];
      historyR := [];
      new;
      RingClear(leftBuffer[..], 0);
      RingClear(rightBuffer[..], 0);
    }

    method SetDelayTime(timeSeconds: real, sampleRate: real)
      requires Valid()
      modifies this
      ensures Valid()
      ensures delaySamples == PingPongDelaySamples(timeSeconds, sampleRate)
      ensures writePos == old(writePos) && historyL == old(historyL) && historyR == old(historyR)
      ensures feedback == old(feedback) && mix == old(mix)
    {
      var samples := AsIndex(timeSeconds * sampleRate);
      delaySamples := DelayClamp(samples, MAX_DELAY_SAMPLES);
    }

    method SetFeedback(fb: real)
      requires Valid()
      modifies this
      ensures Valid()
      ensures feedback == Clamp(fb, 0.0, 0.95)
      ensures writePos == old(writePos) && historyL == old(historyL) && historyR == old(historyR)
      ensures delaySamples == old(delaySamples) && mix == old(mix)
    {
      feedback := Clamp(fb, 0.0, 0.95);
    }

    method SetMix(m: real)
      requires Valid()
      modifies this
      ensures Valid()
      ensures mix == Clamp(m, 0.0, 1.0)
      ensures writePos == old(writePos) && historyL == old(historyL) && historyR == old(historyR)
      ensures delaySamples == old(delaySamples) && feedback == old(feedback)
    {
      mix := Clamp(m, 0.0, 1.0);
    }

    /** The left line is fed the left input plus the damped right echo, the
        right line the right input plus the damped left echo; each output mixes
        its input with its own channel's undamped echo. */
    method Process(leftIn: real, rightIn: real) returns (outL: real, outR: real)
      requires Valid()
      modifies this, leftBuffer, rightBuffer, dampingL, dampingR
      ensures Valid()
      ensures outL == DryWet(leftIn, Written(old(historyL), delaySamples), mix)
      ensures outR == DryWet(rightIn, Written(old(historyR), delaySamples), mix)
      ensures dampingL.y1 == Filters.OnePoleOutput(old(dampingL.a0), old(dampingL.b1), old(dampingL.y1),
                                                   Written(old(historyL), delaySamples))
      ensures dampingR.y1 == Filters.OnePoleOutput(old(dampingR.a0), old(dampingR.b1), old(dampingR.y1),
                                                   Written(old(historyR), delaySamples))
      ensures dampingL.a0 == old(dampingL.a0) && dampingL.b1 == old(dampingL.b1)
      ensures dampingR.a0 == old(dampingR.a0) && dampingR.b1 == old(dampingR.b1)
      ensures historyL == old(historyL) + [Fed(leftIn, dampingR.y1, feedback)]
      ensures historyR == old(historyR) + [Fed(rightIn, dampingL.y1, feedback)]
      ensures writePos == (old(writePos) + 1) % MAX_DELAY_SAMPLES
      ensures delaySamples == old(delaySamples) && feedback == old(feedback) && mix == old(mix)
    {
      var readPos := (writePos + MAX_DELAY_SAMPLES - delaySamples) % MAX_DELAY_SAMPLES;
      RingRead(leftBuffer[..], writePos, historyL, delaySamples);
      RingRead(rightBuffer[..], writePos, historyR, delaySamples);
      var delayedL := leftBuffer[readPos];
      var delayedR := rightBuffer[readPos];
      var dampedL := dampingL.Process(delayedL);
      var dampedR := dampingR.Process(delayedR);
      var vL := Fed(leftIn, dampedR, feedback);
      var vR := Fed(rightIn, dampedL, feedback);
      var next := Push(leftBuffer, writePos, historyL, vL);
      next := Push(rightBuffer, writePos, historyR, vR);
      writePos := next;
      historyL := historyL + [vL];
      historyR := historyR + [vR];
      outL := DryWet(leftIn, delayedL, mix);
      outR := DryWet(rightIn, delayedR, mix);
    }

    method Clear()
      requires Valid()
      modifies this, leftBuffer, rightBuffer, dampingL, dampingR
      ensures Valid() && historyL == [] && historyR == []
      ensures dampingL.y1 == 0.0 && dampingL.a0 == old(dampingL.a0) && dampingL.b1 == old(dampingL.b1)
      ensures dampingR.y1 == 0.0 && dampingR.a0 == old(dampingR.a0) && dampingR.b1 == old(dampingR.b1)
      ensures writePos == old(writePos) && delaySamples == old(delaySamples)
      ensures feedback == old(feedback) && mix == old(mix)
    {
      Fill(leftBuffer, writePos);
      Fill(rightBuffer, writePos);
      dampingL.Reset();
      dampingR.Reset();
      historyL := [];
      historyR := [];
    }
  }

  // ---------------------------------------------------------------------------
  // Modulated delay
  // ---------------------------------------------------------------------------

  /** The Catmull-Rom segment from `y1` (t = 0) to `y2` (t = 1) with outer
      neighbours `y0` and `y3`, evaluated in Horner form. */
  function CatmullRom(y0: real, y1: real, y2: real, y3: real, t: real): real {
    var c0 := y1;
    var c1 := 0.5 * (y2 - y0);
    var c2 := y0 - 2.5 * y1 + 2.0 * y2 - 0.5 * y3;
    var c3 := 0.5 * (y3 - y0) + 1.5 * (y1 - y2);
    ((c3 * t + c2) * t + c1) * t + c0
  }

  /** The segment interpolates its two inner points. */
  lemma CatmullRomEnds(y0: real, y1: real, y2: real, y3: real)
    ensures CatmullRom(y0, y1, y2, y3, 0.0) == y1
    ensures CatmullRom(y0, y1, y2, y3, 1.0) == y2
  {
  }

  /** On equally spaced points of a line it reproduces the line exactly. */
  lemma CatmullRomLinear(a: real, b: real, t: real)
    ensures CatmullRom(a, a + b, a + 2.0 * b, a + 3.0 * b, t) == a + b + b * t
  {
    var c1 := 0.5 * ((a + 2.0 * b) - a);
    var c2 := a - 2.5 * (a + b) + 2.0 * (a + 2.0 * b) - 0.5 * (a + 3.0 * b);
    var c3 := 0.5 * ((a + 3.0 * b) - a) + 1.5 * ((a + b) - (a + 2.0 * b));
    assert c1 == b && c2 == 0.0 && c3 == 0.0;
  }

  /** An age one step outside [1, size] taken modulo the buffer size. */
  function Wrapped(age: int, size: nat): (a: nat)
    requires size >= 2 && -1 <= age <= size + 1
    ensures 1 <= a <= size
    ensures (a - age) % size == 0
  {
    if age <= 0 then age + size else if age > size then age - size else age
  }

  /** `(write_pos + size - age) % size` for an age one step outside [1, size]
      reads the slot of its wrapped age. */
  lemma SlotOfWrapped(w: nat, age: int, size: nat)
    requires size >= 2 && w < size && -1 <= age <= size && w + size - age >= 0
    ensures Slot(w, Wrapped(age, size), size) == (w + size - age) % size
  {
    var i, x := Slot(w, Wrapped(age, size), size), w + size - age;
    if x - i == 0 {
      Ints.DivModUnique(x, size, 0, i);
    } else if x - i == size {
      Ints.DivModUnique(x, size, 1, i);
    } else {
      Ints.DivModUnique(x, size, 2, i);
    }
  }

  /** The modulated delay time: base plus modulation times depth, clamped to
      [1, M - 1]. */
  function ModulatedDelayTime(baseDelay: real, modDepth: real, modSignal: real): (r: real)
    ensures 1.0 <= r <= (MAX_DELAY_SAMPLES - 1) as real
  {
    Clamp(baseDelay + modSignal * modDepth, 1.0, (MAX_DELAY_SAMPLES - 1) as real)
  }

  /** The tap indices `ModulatedDelay::process` computes for write position `w`
      and whole delay `d`: `w + M - d - 1`, `w + M - d`, `w + M - d + 1`,
      `w + M - d + 2`, all modulo M. */
  function ModulatedTapsAsWritten(w: nat, d: nat): (taps: seq<nat>)
    requires w < MAX_DELAY_SAMPLES && 1 <= d <= MAX_DELAY_SAMPLES - 1
    ensures |taps| == 4 && forall k :: 0 <= k < 4 ==> taps[k] < MAX_DELAY_SAMPLES
  {
    var m := MAX_DELAY_SAMPLES;
    [(w + m - d - 1) % m, (w + m - d) % m, (w + m - d + 1) % m, (w + m - d + 2) % m]
  }

  /** In terms of ages those taps run from older to newer: d + 1, d, d - 1,
      d - 2. The segment meant to go from d to d + 1 samples back goes from d
      to d - 1 instead. */
  lemma ModulatedTapsAsWrittenAges(w: nat, d: nat)
    requires w < MAX_DELAY_SAMPLES && 1 <= d <= MAX_DELAY_SAMPLES - 1
    ensures ModulatedTapsAsWritten(w, d) ==
      [Slot(w, d + 1, MAX_DELAY_SAMPLES), Slot(w, d, MAX_DELAY_SAMPLES),
       Slot(w, Wrapped(d - 1, MAX_DELAY_SAMPLES), MAX_DELAY_SAMPLES),
       Slot(w, Wrapped(d - 2, MAX_DELAY_SAMPLES), MAX_DELAY_SAMPLES)]
  {
    var m := MAX_DELAY_SAMPLES;
    SlotOfWrapped(w, d - 1, m);
    SlotOfWrapped(w, d - 2, m);
    assert (w + m - d + 1) == w + m - (d - 1);
    assert (w + m - d + 2) == w + m - (d - 2);
  }

  /** As written, the end of the segment for delay d (tap 2) and the start of
      the segment for delay d + 1 (tap 1) are different slots, two samples apart
      in age: sweeping the delay across a whole sample jumps. */
  lemma ModulatedTapsJump(w: nat, d: nat)
    requires w < MAX_DELAY_SAMPLES && 2 <= d <= MAX_DELAY_SAMPLES - 2
    ensures ModulatedTapsAsWritten(w, d)[2] != ModulatedTapsAsWritten(w, d + 1)[1]
  {
    ModulatedTapsAsWrittenAges(w, d);
    ModulatedTapsAsWrittenAges(w, d + 1);
    if Slot(w, d - 1, MAX_DELAY_SAMPLES) == Slot(w, d + 1, MAX_DELAY_SAMPLES) {
      SlotInjective(w, d - 1, d + 1, MAX_DELAY_SAMPLES);
    }
  }

  /** The corrected taps: ages d - 1, d, d + 1, d + 2, so that the segment runs
      from d samples back (frac = 0) to d + 1 samples back (frac = 1). */
  function ModulatedTaps(w: nat, d: nat): (taps: seq<nat>)
    requires w < MAX_DELAY_SAMPLES && 1 <= d <= MAX_DELAY_SAMPLES - 1
    ensures |taps| == 4 && forall k :: 0 <= k < 4 ==> taps[k] < MAX_DELAY_SAMPLES
  {
    var m := MAX_DELAY_SAMPLES;
    [Slot(w, Wrapped(d - 1, m), m), Slot(w, d, m), Slot(w, d + 1, m), Slot(w, Wrapped(d + 2, m), m)]
  }

  /** Consecutive whole delays share their taps shifted by one, so the end of
      one segment is the start of the next. */
  lemma ModulatedTapsContinuous(w: nat, d: nat)
    requires w < MAX_DELAY_SAMPLES && 1 <= d <= MAX_DELAY_SAMPLES - 2
    ensures ModulatedTaps(w, d)[1] == ModulatedTaps(w, d + 1)[0]
    ensures ModulatedTaps(w, d)[2] == ModulatedTaps(w, d + 1)[1]
    ensures d + 2 <= MAX_DELAY_SAMPLES - 1 ==> ModulatedTaps(w, d)[3] == ModulatedTaps(w, d + 1)[2]
  {
  }

  /** The corrected read for whole delay `d` and fraction `frac`. */
  function ModulatedCubic(h: seq<real>, d: nat, frac: real): real
    requires 1 <= d <= MAX_DELAY_SAMPLES - 1
  {
    var m := MAX_DELAY_SAMPLES;
    CatmullRom(Written(h, Wrapped(d - 1, m)), Written(h, d), Written(h, d + 1), Written(h, Wrapped(d + 2, m)), frac)
  }

  /** The read for a delay as written in the source, for comparison. */
  function ModulatedCubicAsWritten(h: seq<real>, d: nat, frac: real): real
    requires 1 <= d <= MAX_DELAY_SAMPLES - 1
  {
    var m := MAX_DELAY_SAMPLES;
    CatmullRom(Written(h, d + 1), Written(h, d), Written(h, Wrapped(d - 1, m)), Written(h, Wrapped(d - 2, m)), frac)
  }

  function ModulatedRead(h: seq<real>, delay: real): real
    requires 1.0 <= delay <= (MAX_DELAY_SAMPLES - 1) as real
  {
    var d := AsIndex(delay);
    ModulatedCubic(h, d, delay - d as real)
  }

  function ModulatedReadAsWritten(h: seq<real>, delay: real): real
    requires 1.0 <= delay <= (MAX_DELAY_SAMPLES - 1) as real
  {
    var d := AsIndex(delay);
    ModulatedCubicAsWritten(h, d, delay - d as real)
  }

  /** A whole-sample delay reads exactly that sample, and the corrected read is
      continuous as the delay crosses a whole sample. */
  lemma ModulatedReadExact(h: seq<real>, d: nat)
    requires 1 <= d <= MAX_DELAY_SAMPLES - 1
    ensures ModulatedRead(h, d as real) == Written(h, d)
  {
    assert AsIndex(d as real) == d;
    var m := MAX_DELAY_SAMPLES;
    CatmullRomEnds(Written(h, Wrapped(d - 1, m)), Written(h, d), Written(h, d + 1), Written(h, Wrapped(d + 2, m)));
  }

  lemma ModulatedReadContinuous(h: seq<real>, d: nat)
    requires 1 <= d <= MAX_DELAY_SAMPLES - 2
    ensures ModulatedCubic(h, d, 1.0) == ModulatedRead(h, (d + 1) as real)
  {
    var m := MAX_DELAY_SAMPLES;
    CatmullRomEnds(Written(h, Wrapped(d - 1, m)), Written(h, d), Written(h, d + 1), Written(h, Wrapped(d + 2, m)));
    ModulatedReadExact(h, d + 1);
  }

  /** As written, the segment for whole delay d ends (frac = 1) at the sample
      d - 1 calls old, while delay d + 1 reads the sample d + 1 calls old. */
  lemma ModulatedReadAsWrittenEnds(h: seq<real>, d: nat)
    requires 2 <= d <= MAX_DELAY_SAMPLES - 2
    ensures ModulatedCubicAsWritten(h, d, 1.0) == Written(h, d - 1)
    ensures ModulatedReadAsWritten(h, (d + 1) as real) == Written(h, d + 1)
  {
    var m := MAX_DELAY_SAMPLES;
    assert Wrapped(d - 1, m) == d - 1;
    CatmullRomEnds(Written(h, d + 1), Written(h, d), Written(h, d - 1), Written(h, Wrapped(d - 2, m)));
    assert AsIndex((d + 1) as real) == d + 1;
    CatmullRomEnds(Written(h, d + 2), Written(h, d + 1), Written(h, Wrapped(d, m)), Written(h, Wrapped(d - 1, m)));
  }

  /** Hence, as written, whenever the latest sample differs from the one two
      calls older (a single impulse, say), sweeping the delay from just under 3
      samples to 3 makes the read jump, where the corrected read is continuous. */
  lemma ModulatedReadAsWrittenJump(h: seq<real>)
    requires |h| >= 3 && h[|h| - 1] != h[|h| - 3]
    ensures ModulatedCubicAsWritten(h, 2, 1.0) != ModulatedReadAsWritten(h, 3.0)
  {
    ModulatedReadAsWrittenEnds(h, 2);
  }

  /** Chorus/flanger delay line whose delay follows a modulation signal. */
  class ModulatedDelay {
    const buffer: array<real>
    var writePos: nat
    var baseDelay: real
    var modDepth: real
    var feedback: real
    ghost var history: seq<real>

    ghost predicate Valid()
      reads this, buffer
    {
      buffer.Length == MAX_DELAY_SAMPLES &&
      1.0 <= baseDelay <= (MAX_DELAY_SAMPLES - 100) as real &&
      0.0 <= modDepth <= 1000.0 &&
      -0.95 <= feedback <= 0.95 &&
      RingHolds(buffer[..], writePos, history)
    }

    constructor ()
      ensures Valid() && fresh(buffer)
      ensures history == [] && writePos == 0
      ensures baseDelay == 500.0 && modDepth == 100.0 && feedback == 0.0
    {
      buffer := new real[MAX_DELAY_SAMPLES](_ => 0.0);
      writePos := 0;
      baseDelay := 500.0;
      modDepth := 100.0;
      feedback := 0.0;
      history := [];
      new;
      RingClear(buffer[..], 0);
    }

    method SetBaseDelay(samples: real)
      requires Valid()
      modifies this
      ensures Valid()
      ensures baseDelay == Clamp(samples, 1.0, (MAX_DELAY_SAMPLES - 100) as real)
      ensures writePos == old(writePos) && history == old(history)
      ensures modDepth == old(modDepth) && feedback == old(feedback)
    {
      baseDelay := Clamp(samples, 1.0, (MAX_DELAY_SAMPLES - 100) as real);
    }

    method SetModDepth(samples: real)
      requires Valid()
      modifies this
      ensures Valid()
      ensures modDepth == Clamp(samples, 0.0, 1000.0)
      ensures writePos == old(writePos) && history == old(history)
      ensures baseDelay == old(baseDelay) && feedback == old(feedback)
    {
      modDepth := Clamp(samples, 0.0, 1000.0);
    }

    method SetFeedback(fb: real)
      requires Valid()
      modifies this
      ensures Valid()
      ensures feedback == Clamp(fb, -0.95, 0.95)
      ensures writePos == old(writePos) && history == old(history)
      ensures baseDelay == old(baseDelay) && modDepth == old(modDepth)
    {
      feedback := Clamp(fb, -0.95, 0.95);
    }

    /** Reads the cubic interpolation at the modulated delay with the source's
        tap order (ages d + 1, d, d - 1, d - 2), writes input plus feedback and
        returns the read. */
    method Process(input: real, modSignal: real) returns (delayed: real)
      requires Valid()
      modifies this, buffer
      ensures Valid()
      ensures delayed == ModulatedReadAsWritten(old(history), ModulatedDelayTime(baseDelay, modDepth, modSignal))
      ensures history == old(history) + [Fed(input, delayed, feedback)]
      ensures writePos == (old(writePos) + 1) % MAX_DELAY_SAMPLES
      ensures baseDelay == old(baseDelay) && modDepth == old(modDepth) && feedback == old(feedback)
    {
      var delay := ModulatedDelayTime(baseDelay, modDepth, modSignal);
      var d := AsIndex(delay);
      var frac := delay - d as real;
      var taps := ModulatedTapsAsWritten(writePos, d);
      var m := MAX_DELAY_SAMPLES;
      ModulatedTapsAsWrittenAges(writePos, d);
      RingRead(buffer[..], writePos, history, d + 1);
      RingRead(buffer[..], writePos, history, d);
      RingRead(buffer[..], writePos, history, Wrapped(d - 1, m));
      RingRead(buffer[..], writePos, history, Wrapped(d as int - 2, m));
      var y0 := buffer[taps[0]];
      var y1 := buffer[taps[1]];
      var y2 := buffer[taps[2]];
      var y3 := buffer[taps[3]];
      delayed := CatmullRom(y0, y1, y2, y3, frac);
      var v := Fed(input, delayed, feedback);
      writePos := Push(buffer, writePos, history, v);
      history := history + [v];
    }

    method Clear()
      requires Valid()
      modifies this, buffer
      ensures Valid() && history == []
      ensures writePos == old(writePos)
      ensures baseDelay == old(baseDelay) && modDepth == old(modDepth) && feedback == old(feedback)
    {
      Fill(buffer, writePos);
      history := [];
    }
  }
}
