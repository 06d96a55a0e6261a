/** Complex numbers as pairs of reals; the fixed gate kernels are exact in this field. */
module ComplexNum {
  datatype Complex = Complex(re: real, im: real)

  /** A unitary as rows of entries; the decomposers only pass it to their oracles. */
  type Matrix = seq<seq<Complex>>

  const Zero: Complex := Complex(0.0, 0.0)
  const One: Complex := Complex(1.0, 0.0)

  function Add(x: Complex, y: Complex): Complex
  {
    Complex(x.re + y.re, x.im + y.im)
  }

  function Neg(x: Complex): Complex
  {
    Complex(-x.re, -x.im)
  }

  function Mul(x: Complex, y: Complex): Complex
  {
    Complex(x.re * y.re - x.im * y.im, x.re * y.im + x.im * y.re)
  }

  /** p*x + q*y: one entry of a 2x2 kernel applied to a pair of entries. */
  function Lin(p: Complex, x: Complex, q: Complex, y: Complex): Complex
  {
    Add(Mul(p, x), Mul(q, y))
  }

  lemma MulUnits(x: Complex)
    ensures Mul(One, x) == x && Mul(Zero, x) == Zero && Mul(Complex(-1.0, 0.0), x) == Neg(x)
    ensures Add(Zero, x) == x && Add(x, Zero) == x
  {
    assert 1.0 * x.re - 0.0 * x.im == x.re;
    assert 1.0 * x.im + 0.0 * x.re == x.im;
    assert 0.0 * x.re - 0.0 * x.im == 0.0;
    assert 0.0 * x.im + 0.0 * x.re == 0.0;
    assert -1.0 * x.re - 0.0 * x.im == -x.re;
    assert -1.0 * x.im + 0.0 * x.re == -x.im;
  }

  /** Lin with unit coefficients picks out or negates one operand. */
  lemma LinSelects(x: Complex, y: Complex)
    ensures Lin(One, x, Zero, y) == x && Lin(Zero, x, One, y) == y
    ensures Lin(Zero, x, Complex(-1.0, 0.0), y) == Neg(y)
  {
    MulUnits(x);
    MulUnits(y);
  }

  lemma MulDistributes(p: Complex, u: Complex, v: Complex)
    ensures Mul(p, Add(u, v)) == Add(Mul(p, u), Mul(p, v))
  {
    assert p.re * (u.re + v.re) == p.re * u.re + p.re * v.re;
    assert p.im * (u.im + v.im) == p.im * u.im + p.im * v.im;
    assert p.re * (u.im + v.im) == p.re * u.im + p.re * v.im;
    assert p.im * (u.re + v.re) == p.im * u.re + p.im * v.re;
  }

  lemma MulAssociates(p: Complex, a: Complex, x: Complex)
    ensures Mul(p, Mul(a, x)) == Mul(Mul(p, a), x)
  {
    assert p.re * (a.re * x.re - a.im * x.im) == (p.re * a.re) * x.re - (p.re * a.im) * x.im;
    assert p.im * (a.re * x.im + a.im * x.re) == (p.im * a.re) * x.im + (p.im * a.im) * x.re;
    assert p.re * (a.re * x.im + a.im * x.re) == (p.re * a.re) * x.im + (p.re * a.im) * x.re;
    assert p.im * (a.re * x.re - a.im * x.im) == (p.im * a.re) * x.re - (p.im * a.im) * x.im;
  }

  lemma MulAddLeft(u: Complex, v: Complex, x: Complex)
    ensures Mul(Add(u, v), x) == Add(Mul(u, x), Mul(v, x))
  {
    assert (u.re + v.re) * x.re == u.re * x.re + v.re * x.re;
    assert (u.im + v.im) * x.im == u.im * x.im + v.im * x.im;
    assert (u.re + v.re) * x.im == u.re * x.im + v.re * x.im;
    assert (u.im + v.im) * x.re == u.im * x.re + v.im * x.re;
  }

  lemma LinCompose(p: Complex, q: Complex, a: Complex, b: Complex, c: Complex, d: Complex, x: Complex, y: Complex)
    ensures Lin(p, Lin(a, x, b, y), q, Lin(c, x, d, y))
         == Lin(Add(Mul(p, a), Mul(q, c)), x, Add(Mul(p, b), Mul(q, d)), y)
  {
    MulDistributes(p, Mul(a, x), Mul(b, y));
    MulDistributes(q, Mul(c, x), Mul(d, y));
    MulAssociates(p, a, x);
    MulAssociates(p, b, y);
    MulAssociates(q, c, x);
    MulAssociates(q, d, y);
    MulAddLeft(Mul(p, a), Mul(q, c), x);
    MulAddLeft(Mul(p, b), Mul(q, d), y);
  }

  /** The composition law with the coefficients of each inner pair taken column-wise. */
  lemma LinComposeRight(p: Complex, q: Complex, a: Complex, b: Complex, c: Complex, d: Complex, x: Complex, y: Complex)
    ensures Lin(p, Lin(a, x, c, y), q, Lin(b, x, d, y))
         == Lin(Add(Mul(a, p), Mul(b, q)), x, Add(Mul(c, p), Mul(d, q)), y)
  {
    LinCompose(p, q, a, c, b, d, x, y);
    MulCommutes(p, a);
    MulCommutes(q, b);
    MulCommutes(p, c);
    MulCommutes(q, d);
  }

  lemma MulCommutes(x: Complex, y: Complex)
    ensures Mul(x, y) == Mul(y, x)
  {
  }
}
