/** Real products and quotients stated through named functions, so that a
    square is a term that lemmas can speak about. */
module RealArith {

  function Times(x: real, y: real): real {
    x * y
  }

  lemma TimesPositive(u: real, v: real)
    requires u > 0.0 && v > 0.0
    ensures Times(u, v) > 0.0
  {
  }

  lemma TimesNegated(u: real, v: real)
    ensures Times(-u, -v) == Times(u, v)
  {
  }

  /** No square is negative. */
  lemma SquareNonNegative(x: real)
    ensures Times(x, x) >= 0.0
  {
    if x != 0.0 {
      SquarePositive(x);
    }
  }

  /** The square of a nonzero number is positive. */
  lemma SquarePositive(x: real)
    requires x != 0.0
    ensures Times(x, x) > 0.0
  {
    if x > 0.0 {
      TimesPositive(x, x);
    } else {
      TimesPositive(-x, -x);
      TimesNegated(x, x);
    }
  }

  /** A product with a positive factor is zero only when the other factor
      is. */
  lemma ProductZero(u: real, v: real)
    requires v > 0.0 && u * v == 0.0
    ensures u == 0.0
  {
  }

  /** The quotient, characterised by multiplying back. */
  function Quotient(n: real, d: real): (r: real)
    requires d != 0.0
    ensures r * d == n
  {
    n / d
  }
}
