/**
 * Complex numbers as pairs of reals: just the arithmetic the field
 * equations of the circuit elements need (negation, conjugation, products
 * and squared magnitudes). Magnitudes are kept squared so that no square
 * root is ever taken.
 */
module Complex {

  datatype Complex = Complex(re: real, im: real)

  const ZERO: Complex := Complex(0.0, 0.0)
  const ONE: Complex := Complex(1.0, 0.0)
  const MINUS_ONE: Complex := Complex(-1.0, 0.0)
  /** The imaginary unit, which is also exp(i·π/2). */
  const I: Complex := Complex(0.0, 1.0)

  function Neg(z: Complex): Complex {
    Complex(-z.re, -z.im)
  }

  /** Complex conjugate, as numpy's conj. */
  function Conj(z: Complex): Complex {
    Complex(z.re, -z.im)
  }

  function Add(a: Complex, b: Complex): Complex {
    Complex(a.re + b.re, a.im + b.im)
  }

  function Sub(a: Complex, b: Complex): Complex {
    Complex(a.re - b.re, a.im - b.im)
  }

  function Mul(a: Complex, b: Complex): Complex {
    Complex(a.re * b.re - a.im * b.im, a.re * b.im + a.im * b.re)
  }

  /** A real number times a complex one. */
  function Scale(r: real, z: Complex): Complex {
    Complex(r * z.re, r * z.im)
  }

  /** Squared magnitude |z|², never negative. */
  function Abs2(z: Complex): (m: real)
    ensures m >= 0.0
  {
    z.re * z.re + z.im * z.im
  }

  /** A phase factor exp(i·φ) is a complex number of unit magnitude. */
  predicate IsUnitPhase(u: Complex) {
    Abs2(u) == 1.0
  }

  /** Conjugation undoes itself. */
  lemma ConjInvolution(z: Complex)
    ensures Conj(Conj(z)) == z
  {
  }

  /** Scaling by a real multiplies the squared magnitude by its square. */
  lemma Abs2Scale(r: real, z: Complex)
    ensures Abs2(Scale(r, z)) == r * r * Abs2(z)
  {
  }

  /** The default coupler phases exp(i·0) and exp(i·π/2) are unit phases. */
  lemma DefaultPhasesAreUnit()
    ensures IsUnitPhase(ONE) && IsUnitPhase(I)
  {
  }
}
