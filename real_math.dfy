/**
 * Exact real arithmetic standing for JavaScript's floating-point `Math` calls.
 *
 * The transcendental functions are not defined here: a `Math` value carries
 * them as function-valued fields, and `Lawful` states the few facts the
 * proofs rely on.  A division whose divisor may be zero at run time goes
 * through `Div`: its value at a zero divisor is left unspecified, standing
 * for the IEEE infinity or NaN the source would compute there.
 */
module RealMath {

  datatype Math = Math(
    exp: real -> real,
    log: real -> real,
    sqrt: real -> real,
    sin: real -> real,
    cos: real -> real,
    sinh: real -> real,
    pi: real,
    divZero: real -> real)
  {
    /** JavaScript `a / b`; unspecified (infinite or NaN in the source) when `b == 0`. */
    function Div(a: real, b: real): (q: real)
      ensures b != 0.0 ==> q * b == a
    {
      if b == 0.0 then divZero(a) else a * (1.0 / b)
    }
  }

  /** The facts about `Math.exp`, `Math.log`, `Math.sqrt`, `Math.sin` and `Math.sinh` used by the proofs. */
  ghost predicate Lawful(m: Math) {
    && m.exp(0.0) == 1.0
    && m.log(1.0) == 0.0
    && m.sqrt(0.0) == 0.0
    && (forall x: real :: x >= 0.0 ==> m.sqrt(x) >= 0.0 && m.sqrt(x) * m.sqrt(x) == x)
    && m.sin(0.0) == 0.0
    && m.sinh(0.0) == 0.0
  }

  function Sq(x: real): real { x * x }
  function Cube(x: real): real { x * x * x }
  function Pow4(x: real): real { x * x * x * x }

  function Abs(x: real): (r: real)
    ensures r >= 0.0 && (r == x || r == -x)
  {
    if x < 0.0 then -x else x
  }

  /** `Math.sqrt(1) == 1`: the non-negative root of 1 is 1. */
  lemma SqrtOne(m: Math)
    requires Lawful(m)
    ensures m.sqrt(1.0) == 1.0
  {
    var s := m.sqrt(1.0);
    assert s >= 0.0 && s * s == 1.0;
    assert (s - 1.0) * (s + 1.0) == s * s - 1.0;
    ProductWithPositive(s - 1.0, s + 1.0);
  }

  /** A product with a positive factor has the sign of the other factor. */
  lemma ProductWithPositive(x: real, y: real)
    requires y > 0.0
    ensures x * y == 0.0 ==> x == 0.0
  {
    if x > 0.0 {
      assert x * y > 0.0;
    } else if x < 0.0 {
      assert (-x) * y > 0.0;
    }
  }

  /** A product with a non-zero factor vanishes only when the other factor does. */
  lemma ZeroProduct(x: real, y: real)
    requires y != 0.0
    ensures x * y == 0.0 ==> x == 0.0
  {
    if y > 0.0 {
      ProductWithPositive(x, y);
    } else {
      ProductWithPositive(x, -y);
      assert x * (-y) == -(x * y);
    }
  }

  /** The product of two non-zero numbers is non-zero, and a non-zero square is positive. */
  lemma NonZeroProduct(x: real, y: real)
    requires x != 0.0 && y != 0.0
    ensures x * y != 0.0
    ensures x * x > 0.0
  {
    ZeroProduct(x, y);
    if x > 0.0 {
      assert x * x > 0.0;
    } else {
      assert (-x) * (-x) > 0.0;
    }
  }

  lemma SqPositive(x: real)
    requires x != 0.0
    ensures Sq(x) > 0.0
  {
    if x > 0.0 {
      calc { Sq(x); == x * x; > 0.0; }
    } else {
      calc { Sq(x); == (-x) * (-x); > 0.0; }
    }
  }

  /** A non-negative argument gives a positive root exactly when it is positive. */
  lemma SqrtPositive(m: Math, x: real)
    requires Lawful(m) && x > 0.0
    ensures m.sqrt(x) > 0.0
  {
    assert m.sqrt(x) * m.sqrt(x) == x;
  }

  /** `Math.sqrt(y²) == y` for a non-negative `y`. */
  lemma SqrtOfSquare(m: Math, y: real)
    requires Lawful(m) && y >= 0.0
    ensures m.sqrt(y * y) == y
  {
    var s := m.sqrt(y * y);
    assert s >= 0.0 && s * s == y * y;
    assert (s - y) * (s + y) == s * s - y * y;
    if s + y != 0.0 {
      ZeroProduct(s - y, s + y);
    }
  }

  /** Four quotients by one divisor add up to the quotient of the sum. */
  lemma DivSum4(m: Math, a: real, b: real, c: real, d: real, e: real)
    requires e != 0.0
    ensures m.Div(a, e) + m.Div(b, e) + m.Div(c, e) + m.Div(d, e) == m.Div(a + b + c + d, e)
  {
    var ie := 1.0 / e;
    assert ie * e == 1.0;
    Quotient(a, e, ie);
    Quotient(b, e, ie);
    Quotient(c, e, ie);
    Quotient(d, e, ie);
    Quotient(a + b + c + d, e, ie);
  }

  /** Four quotients of multiples of `c` by one divisor add up to the quotient of the multiple of the sum. */
  lemma ScaledDivSum4(m: Math, a: real, b: real, c: real, d: real, k: real, e: real)
    requires e != 0.0
    ensures m.Div(a * k, e) + m.Div(b * k, e) + m.Div(c * k, e) + m.Div(d * k, e) == m.Div((a + b + c + d) * k, e)
  {
    DivSum4(m, a * k, b * k, c * k, d * k, e);
    Distribute4(a, b, c, d, k);
  }

  /** A quotient by a non-zero divisor is the only number that multiplies back. */
  lemma DivUnique(m: Math, a: real, b: real, q: real)
    requires b != 0.0 && q * b == a
    ensures m.Div(a, b) == q
  {
    assert (m.Div(a, b) - q) * b == 0.0;
    ZeroProduct(m.Div(a, b) - q, b);
  }

  /** A non-zero number over itself is 1. */
  lemma DivSelf(m: Math, e: real)
    requires e != 0.0
    ensures m.Div(e, e) == 1.0
  {
  }

  /** `(w + x + y + z)·c` expanded. */
  lemma Distribute4(w: real, x: real, y: real, z: real, c: real)
    ensures w * c + x * c + y * c + z * c == (w + x + y + z) * c
  {
  }

  /** Dividing by `a` is multiplying by any `ia` with `ia·a == 1`. */
  lemma Quotient(c: real, a: real, ia: real)
    requires ia * a == 1.0
    ensures c / a == c * ia
  {
    assert a != 0.0;
    assert (c / a) * a == c;
    assert (c / a - c * ia) * a == 0.0;
  }

  /** The chord of `x ↦ c/x` between `a` and `b` has slope `-c/(ab)`. */
  lemma InverseChord(c: real, a: real, b: real)
    requires a != 0.0 && b != 0.0
    ensures c / b - c / a == (b - a) * (-c / (a * b))
  {
    var ia := 1.0 / a;
    var ib := 1.0 / b;
    assert ia * a == 1.0;
    assert ib * b == 1.0;
    assert (ia * ib) * (a * b) == (ia * a) * (ib * b);
    Quotient(c, a, ia);
    Quotient(c, b, ib);
    Quotient(-c, a * b, ia * ib);
    assert (b - a) * (-c * (ia * ib)) == -c * ia * (ib * b) + c * ib * (ia * a);
  }

  /** The chord of `x ↦ c/x²` between `a` and `b` has slope `-c(a + b)/(a²b²)`. */
  lemma InverseSquareChord(c: real, a: real, b: real)
    requires a != 0.0 && b != 0.0
    ensures c / (b * b) - c / (a * a) == (b - a) * (-c * (a + b) / ((a * a) * (b * b)))
  {
    var aa, bb := a * a, b * b;
    ProductNonZero(a, a, aa);
    ProductNonZero(b, b, bb);
    InverseChord(c, aa, bb);
    var q := aa * bb;
    ProductNonZero(aa, bb, q);
    var t := -c / q;
    ScaledQuotient(a + b, -c, q);
    DifferenceOfSquares(a, b);
    Associate(b - a, a + b, t);
  }

  /** A product of non-zero factors, named `p`, is non-zero. */
  lemma ProductNonZero(x: real, y: real, p: real)
    requires x != 0.0 && y != 0.0 && p == x * y
    ensures p != 0.0
  {
    ZeroProduct(x, y);
  }

  lemma DifferenceOfSquares(a: real, b: real)
    ensures b * b - a * a == (b - a) * (a + b)
  {
  }

  lemma Associate(x: real, y: real, z: real)
    ensures (x * y) * z == x * (y * z)
  {
  }

  /** `(k·x)/q == k·(x/q)`. */
  lemma ScaledQuotient(k: real, x: real, q: real)
    requires q != 0.0
    ensures x * k / q == k * (x / q)
  {
    assert (x / q) * q == x;
    assert (k * (x / q)) * q == k * x;
  }
}
