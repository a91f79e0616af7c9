/** Values shared by every component: optional results and complex samples
    (HyScanComplexFloat, a pair of floats, modelled over `real`). */
module Common {

  datatype Option<+T> = None | Some(value: T)

  /** One complex sample. */
  datatype Complex = Complex(re: real, im: real)

  const Zero: Complex := Complex(0.0, 0.0)

  function Add(a: Complex, b: Complex): Complex
  {
    Complex(a.re + b.re, a.im + b.im)
  }

  function Neg(a: Complex): Complex
  {
    Complex(-a.re, -a.im)
  }

  function Conj(a: Complex): Complex
  {
    Complex(a.re, -a.im)
  }

  function Mul(a: Complex, b: Complex): Complex
  {
    Complex(a.re * b.re - a.im * b.im, a.re * b.im + a.im * b.re)
  }

  /** Squared magnitude re² + im². The library compares sqrtf of it; the square
      root is monotone, so it selects the same maximum. */
  function Norm2(a: Complex): real
  {
    a.re * a.re + a.im * a.im
  }

  /** n zero samples. */
  function Zeros(n: nat): (r: seq<Complex>)
    ensures |r| == n
    ensures forall i :: 0 <= i < n ==> r[i] == Zero
  {
    seq(n, _ => Zero)
  }

  /** n zero floats. */
  function RealZeros(n: nat): (r: seq<real>)
    ensures |r| == n
    ensures forall i :: 0 <= i < n ==> r[i] == 0.0
  {
    seq(n, _ => 0.0)
  }

  /** s cut or zero-padded to exactly n samples: what a fixed-size buffer holds
      after a foreign routine has written s into it. */
  function Resize(s: seq<Complex>, n: nat): (r: seq<Complex>)
    ensures |r| == n
    ensures forall i :: 0 <= i < n ==> r[i] == if i < |s| then s[i] else Zero
  {
    if |s| >= n then s[..n] else s + Zeros(n - |s|)
  }

  /** Float counterpart of Resize. */
  function ResizeReal(s: seq<real>, n: nat): (r: seq<real>)
    ensures |r| == n
    ensures forall i :: 0 <= i < n ==> r[i] == if i < |s| then s[i] else 0.0
  {
    if |s| >= n then s[..n] else s + RealZeros(n - |s|)
  }

  /** Multiplying by a non-negative factor keeps the order. */
  lemma MulLe(a: int, b: int, c: int)
    requires a <= b && 0 <= c
    ensures a * c <= b * c
  {
  }
}
