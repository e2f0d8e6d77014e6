/** Complex numbers as the New Zealand Map Grid code spells them out by
    hand: a real and an imaginary part, with addition, multiplication
    (a+bi)(c+di) = (ac-bd) + (bc+ad)i, division by the squared modulus,
    integer powers and truncated power series. */
module ComplexArith {
  import opened RealArith

  datatype Complex = Complex(re: real, im: real)

  const Zero: Complex := Complex(0.0, 0.0)
  const One: Complex := Complex(1.0, 0.0)

  function Add(u: Complex, v: Complex): Complex {
    Complex(u.re + v.re, u.im + v.im)
  }

  function Sub(u: Complex, v: Complex): Complex {
    Complex(u.re - v.re, u.im - v.im)
  }

  /** A real multiple. */
  function Scale(k: real, u: Complex): Complex {
    Complex(k * u.re, k * u.im)
  }

  function Mul(u: Complex, v: Complex): Complex {
    Complex(u.re * v.re - u.im * v.im, u.im * v.re + u.re * v.im)
  }

  /** The squared modulus, the denominator of a division. */
  function Norm(d: Complex): real {
    d.re * d.re + d.im * d.im
  }

  /** A nonzero number has a positive squared modulus. */
  lemma NormPositive(d: Complex)
    requires d != Zero
    ensures Norm(d) > 0.0
  {
    assert Norm(d) == Times(d.re, d.re) + Times(d.im, d.im);
    SquareNonNegative(d.re);
    SquareNonNegative(d.im);
    if d.re != 0.0 {
      SquarePositive(d.re);
    } else {
      SquarePositive(d.im);
    }
  }

  /** Division, (a+bi)/(c+di) = ((ac+bd) + (bc-ad)i)/(cc+dd); multiplying
      the quotient back by the divisor gives the dividend. */
  function Div(n: Complex, d: Complex): (q: Complex)
    requires d != Zero
    ensures Mul(q, d) == n
  {
    NormPositive(d);
    var den := Norm(d);
    var q := Complex((n.re * d.re + n.im * d.im) / den, (n.im * d.re - n.re * d.im) / den);
    DivisionInverts(n, d, den, q);
    q
  }

  lemma DivisionInverts(n: Complex, d: Complex, den: real, q: Complex)
    requires den == Norm(d) && den > 0.0
    requires q == Complex((n.re * d.re + n.im * d.im) / den, (n.im * d.re - n.re * d.im) / den)
    ensures Mul(q, d) == n
  {
    var x := n.re * d.re + n.im * d.im;
    var y := n.im * d.re - n.re * d.im;
    assert q.re * den == x;
    assert q.im * den == y;
    var r := Mul(q, d);
    assert r.re * den == x * d.re - y * d.im;
    assert x * d.re - y * d.im == n.re * den;
    assert (r.re - n.re) * den == 0.0;
    ProductZero(r.re - n.re, den);
    assert r.im * den == y * d.re + x * d.im;
    assert y * d.re + x * d.im == n.im * den;
    assert (r.im - n.im) * den == 0.0;
    ProductZero(r.im - n.im, den);
  }

  /** z^k, built as the code builds it: one more factor z per step.  Every
      power of one is one, and every positive power of zero is zero. */
  function Pow(z: Complex, k: nat): (r: Complex)
    ensures z == One ==> r == One
    ensures z == Zero && k > 0 ==> r == Zero
  {
    if k == 0 then One else Mul(Pow(z, k - 1), z)
  }

  /** The truncated series c[0]·z + c[1]·z² + ... + c[n-1]·zⁿ, which is
      zero at zero. */
  function Series(c: seq<Complex>, z: Complex, n: nat): (r: Complex)
    requires n <= |c|
    ensures z == Zero ==> r == Zero
  {
    if n == 0 then Zero
    else
      MulByZero(c[n - 1]);
      Add(Series(c, z, n - 1), Mul(c[n - 1], Pow(z, n)))
  }

  /** Pairs real and imaginary parts listed separately. */
  function Coefs(re: seq<real>, im: seq<real>): (c: seq<Complex>)
    requires |re| == |im|
    ensures |c| == |re| && forall k :: 0 <= k < |c| ==> c[k] == Complex(re[k], im[k])
  {
    seq(|re|, k requires 0 <= k < |re| => Complex(re[k], im[k]))
  }

  // ------------------------------------------------------------ algebra

  /** Multiplication in the code's own terms. */
  lemma MulParts(a: real, b: real, x: real, y: real)
    ensures Mul(Complex(a, b), Complex(x, y)) == Complex(a * x - b * y, b * x + a * y)
  {
  }

  /** One more factor of the running power. */
  lemma PowStep(th: Complex, n: nat, p: Complex)
    requires 1 <= n && p == Pow(th, n - 1)
    ensures Mul(p, th) == Pow(th, n)
  {
  }

  /** One more term of the series. */
  lemma SeriesStep(c: seq<Complex>, th: Complex, n: nat, s: Complex, p: Complex)
    requires 1 <= n <= |c| && s == Series(c, th, n - 1) && p == Pow(th, n)
    ensures Add(s, Mul(c[n - 1], p)) == Series(c, th, n)
  {
  }

  lemma MulCommutes(u: Complex, v: Complex)
    ensures Mul(u, v) == Mul(v, u)
  {
  }

  /** u·(v·w) = v·(w·u). */
  lemma MulRotates(u: Complex, v: Complex, w: Complex)
    ensures Mul(u, Mul(v, w)) == Mul(v, Mul(w, u))
  {
    MulAssociates(u, v, w);
    MulCommutes(u, Mul(v, w));
    MulAssociates(v, w, u);
  }

  lemma MulDistributes(u: Complex, v: Complex, w: Complex)
    ensures Mul(u, Add(v, w)) == Add(Mul(u, v), Mul(u, w))
  {
  }

  lemma MulDistributesSub(u: Complex, v: Complex, w: Complex)
    ensures Mul(Sub(v, w), u) == Sub(Mul(v, u), Mul(w, u))
  {
  }

  lemma MulScales(k: real, u: Complex, v: Complex)
    ensures Mul(u, Scale(k, v)) == Scale(k, Mul(u, v))
  {
  }

  lemma MulByOne(u: Complex)
    ensures Mul(u, One) == u
  {
  }

  lemma MulByZero(u: Complex)
    ensures Mul(u, Zero) == Zero
  {
  }

  lemma MulAssociates(u: Complex, v: Complex, w: Complex)
    ensures Mul(Mul(u, v), w) == Mul(u, Mul(v, w))
  {
    var (a, b, c, d, e, f) := (u.re, u.im, v.re, v.im, w.re, w.im);
    assert (a * c - b * d) * e == a * c * e - b * d * e;
    assert (b * c + a * d) * f == b * c * f + a * d * f;
    assert a * (c * e - d * f) == a * c * e - a * d * f;
    assert b * (d * e + c * f) == b * d * e + b * c * f;
    assert (b * c + a * d) * e == b * c * e + a * d * e;
    assert (a * c - b * d) * f == a * c * f - b * d * f;
    assert b * (c * e - d * f) == b * c * e - b * d * f;
    assert a * (d * e + c * f) == a * d * e + a * c * f;
  }

  /** The exponent law z^(j+k) = z^j·z^k. */
  lemma {:induction false} PowAdd(z: Complex, j: nat, k: nat)
    ensures Pow(z, j + k) == Mul(Pow(z, j), Pow(z, k))
    decreases k
  {
    if k == 0 {
      MulByOne(Pow(z, j));
    } else {
      PowAdd(z, j, k - 1);
      MulAssociates(Pow(z, j), Pow(z, k - 1), z);
    }
  }

  /** z¹ = z. */
  lemma PowFirst(z: Complex)
    ensures Pow(z, 1) == z
  {
    assert Pow(z, 0) == One;
  }

  /** A quotient is zero exactly when its dividend is. */
  lemma DivZero(n: Complex, d: Complex)
    requires d != Zero
    ensures Div(n, d) == Zero <==> n == Zero
  {
    var q := Div(n, d);
    if q == Zero {
      assert Mul(q, d) == Zero;
    }
    if n == Zero {
      NormPositive(d);
    }
  }
}
