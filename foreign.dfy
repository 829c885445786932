/** What the engine calls but does not implement: the `rustfft` transforms and the
    libm transcendental functions. The model takes them as parameters, so nothing
    is assumed about them beyond their shape. */
module Foreign {
  /** `num_complex::Complex<f32>`, with real components. */
  datatype Complex = Complex(re: real, im: real) {
    function Plus(other: Complex): Complex {
      Complex(re + other.re, im + other.im)
    }
    function Times(other: Complex): Complex {
      Complex(re * other.re - im * other.im, re * other.im + im * other.re)
    }
    function Conj(): Complex {
      Complex(re, -im)
    }
  }

  const ZERO: Complex := Complex(0.0, 0.0)

  /** An FFT or IFFT plan, uninterpreted: any function of the buffer. */
  type Transform = seq<Complex> -> seq<Complex>

  /** `Fft::process(buffer)`: the plan runs in place, so the buffer keeps its
      length and bin `i` receives bin `i` of the plan's output (bins the plan
      would not produce are zero). */
  function Run(plan: Transform, buffer: seq<Complex>): (r: seq<Complex>)
    ensures |r| == |buffer|
    ensures |plan(buffer)| == |buffer| ==> r == plan(buffer)
  {
    var y := plan(buffer);
    seq(|buffer|, i requires 0 <= i < |buffer| => if i < |y| then y[i] else ZERO)
  }

  /** A call into libm: which function, and its arguments. */
  datatype Call = Sqrt(x: real) | Atan2(y: real, x: real) | Cos(x: real) | Sin(x: real)
                | Round(x: real) | Exp2(x: real)

  /** The libm functions the spectral and granular engines use, as one
      uninterpreted function of the call; the members carry libm's names. */
  datatype Libm = Libm(eval: Call -> real) {
    function sqrt(x: real): real { eval(Sqrt(x)) }
    function atan2(y: real, x: real): real { eval(Atan2(y, x)) }
    function cos(x: real): real { eval(Cos(x)) }
    function sin(x: real): real { eval(Sin(x)) }
    function round(x: real): real { eval(Round(x)) }
    function exp2(x: real): real { eval(Exp2(x)) }
  }

  function Zeros(n: nat): (r: seq<Complex>)
    ensures |r| == n && forall i :: 0 <= i < n ==> r[i] == ZERO
  {
    seq(n, _ => ZERO)
  }
}
