/** Exact complex arithmetic on pairs of reals, and the lexicographic order
    numpy uses to compare complex values (real part first, then imaginary
    part). Floating point is not modelled: every operation here is exact. */
module Complex {

  datatype Complex = Complex(re: real, im: real)

  const Zero: Complex := Complex(0.0, 0.0)
  const One: Complex := Complex(1.0, 0.0)

  function Add(a: Complex, b: Complex): Complex {
    Complex(a.re + b.re, a.im + b.im)
  }

  function Neg(a: Complex): Complex {
    Complex(-a.re, -a.im)
  }

  function Sub(a: Complex, b: Complex): Complex {
    Complex(a.re - b.re, a.im - b.im)
  }

  function Mul(a: Complex, b: Complex): Complex {
    Complex(a.re * b.re - a.im * b.im, a.re * b.im + a.im * b.re)
  }

  function Conj(a: Complex): Complex {
    Complex(a.re, -a.im)
  }

  /** The complex number n·a for a real factor n. */
  function Times(n: real, a: Complex): Complex {
    Complex(n * a.re, n * a.im)
  }

  /** The complex number a/d for a non-zero real divisor d. */
  function DivReal(a: Complex, d: real): (q: Complex)
    requires d != 0.0
    ensures Times(d, q) == a
  {
    Complex(a.re / d, a.im / d)
  }

  /** A non-zero real factor can be cancelled. */
  lemma TimesCancel(n: real, a: Complex, b: Complex)
    requires n != 0.0 && Times(n, a) == Times(n, b)
    ensures a == b
  {
    assert n * (a.re - b.re) == 0.0 && n * (a.im - b.im) == 0.0;
  }

  lemma MulAddDistrib(a: Complex, b: Complex, c: Complex)
    ensures Mul(Add(a, b), c) == Add(Mul(a, c), Mul(b, c))
  {
  }

  lemma MulComm(a: Complex, b: Complex)
    ensures Mul(a, b) == Mul(b, a)
  {
  }

  lemma MulAssoc(a: Complex, b: Complex, c: Complex)
    ensures Mul(a, Mul(b, c)) == Mul(Mul(a, b), c)
  {
    var ab := Mul(a, b);
    var bc := Mul(b, c);
    assert ab.re * c.re == a.re * b.re * c.re - a.im * b.im * c.re;
    assert ab.im * c.im == a.re * b.im * c.im + a.im * b.re * c.im;
    assert ab.re * c.im == a.re * b.re * c.im - a.im * b.im * c.im;
    assert ab.im * c.re == a.re * b.im * c.re + a.im * b.re * c.re;
    assert a.re * bc.re == a.re * b.re * c.re - a.re * b.im * c.im;
    assert a.im * bc.im == a.im * b.re * c.im + a.im * b.im * c.re;
    assert a.re * bc.im == a.re * b.re * c.im + a.re * b.im * c.re;
    assert a.im * bc.re == a.im * b.re * c.re - a.im * b.im * c.im;
  }

  lemma MulAssocComm(a: Complex, b: Complex, c: Complex)
    ensures Mul(Mul(a, c), b) == Mul(Mul(a, b), c)
  {
    MulAssoc(a, c, b);
    MulComm(c, b);
    MulAssoc(a, b, c);
  }

  lemma MulZero(a: Complex)
    ensures Mul(a, Zero) == Zero && Mul(Zero, a) == Zero
  {
  }

  /** Strict lexicographic order: real parts first, imaginary parts break ties. */
  predicate Less(a: Complex, b: Complex) {
    a.re < b.re || (a.re == b.re && a.im < b.im)
  }

  predicate LessEq(a: Complex, b: Complex) {
    Less(a, b) || a == b
  }

  /** The lexicographic order is a strict total order. */
  lemma LessIsStrictTotalOrder(a: Complex, b: Complex, c: Complex)
    ensures !Less(a, a)
    ensures Less(a, b) ==> !Less(b, a)
    ensures Less(a, b) && Less(b, c) ==> Less(a, c)
    ensures Less(a, b) || a == b || Less(b, a)
  {
  }
}
