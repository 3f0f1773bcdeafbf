/** The real-number functions the simulator takes from its numeric library: the constant pi,
    sine, cosine and the square root. They are passed in as a value, and every law the model
    relies on is stated in `Lawful`; the laws hold of the exact mathematical functions. */
module Trig {

  datatype RealMath = RealMath(pi: real, sin: real -> real, cos: real -> real, sqrt: real -> real)

  function Sq(x: real): (r: real) { x * x }

  ghost predicate UnitCircle(m: RealMath, x: real) {
    Sq(m.sin(x)) + Sq(m.cos(x)) == 1.0
  }

  /** Turning by pi negates both sine and cosine. */
  ghost predicate HalfTurn(m: RealMath, x: real) {
    m.sin(m.pi + x) == -m.sin(x) && m.cos(m.pi + x) == -m.cos(x)
  }

  /** Turning by pi/2 swaps sine and cosine, with a sign. */
  ghost predicate QuarterTurn(m: RealMath, x: real) {
    m.sin(m.pi / 2.0 + x) == m.cos(x) && m.cos(m.pi / 2.0 + x) == -m.sin(x)
  }

  ghost predicate RootOf(m: RealMath, x: real) {
    0.0 <= x ==> 0.0 <= m.sqrt(x) && m.sqrt(x) * m.sqrt(x) == x
  }

  /** The laws of exact trigonometry and of the square root that the model uses.
      Each quantifier fires only on its named predicate, so every use is explicit. */
  ghost predicate Lawful(m: RealMath) {
    && (forall x :: UnitCircle(m, x))
    && (forall x :: HalfTurn(m, x))
    && (forall x :: QuarterTurn(m, x))
    && (forall x :: RootOf(m, x))
    && m.sin(0.0) == 0.0
    && m.cos(0.0) == 1.0
    && m.sin(m.pi / 4.0) == m.cos(m.pi / 4.0)
    && 0.0 < m.pi
  }

  lemma SquareNonNegative(x: real)
    ensures 0.0 <= Sq(x)
  {
    if x < 0.0 {
      assert Sq(x) == (-x) * (-x);
    }
  }

  lemma SquarePositive(x: real)
    requires x != 0.0
    ensures 0.0 < Sq(x)
  {
    if 0.0 < x {
      calc { Sq(x); == x * x; > { assert 0.0 < x * x; } 0.0; }
    } else {
      calc { Sq(x); == (-x) * (-x); > { assert 0.0 < (-x) * (-x); } 0.0; }
    }
  }

  /** A square vanishes only at zero. */
  lemma SquareZeroIff(x: real)
    ensures Sq(x) == 0.0 <==> x == 0.0
  {
    if x != 0.0 {
      SquarePositive(x);
    }
  }

  lemma ProductPositive(p: real, q: real)
    requires 0.0 < p && 0.0 < q
    ensures 0.0 < p * q
  {
  }

  lemma ProductNonNegative(p: real, q: real)
    requires 0.0 <= p && 0.0 <= q
    ensures 0.0 <= p * q
  {
  }

  /** A fraction `f` in `[0, 1]` of a non-negative `d` lies between 0 and `d`. */
  lemma ScaledBetween(d: real, f: real)
    requires 0.0 <= d && 0.0 <= f <= 1.0
    ensures 0.0 <= d * f <= d
  {
    var e := 1.0 - f;
    ProductNonNegative(d, f);
    ProductNonNegative(d, e);
    assert d * e == d - d * f;
  }

  /** A fraction `f` in `[0, 1)` of a positive `d` lies in `[0, d)`. */
  lemma ScaledBelow(d: real, f: real)
    requires 0.0 < d && 0.0 <= f < 1.0
    ensures 0.0 <= d * f < d
  {
    var e := 1.0 - f;
    ProductNonNegative(d, f);
    ProductPositive(d, e);
    assert d * e == d - d * f;
  }

  /** The square root of a positive number is positive. */
  lemma SqrtPositive(m: RealMath, x: real)
    requires Lawful(m) && 0.0 < x
    ensures 0.0 < m.sqrt(x)
  {
    assert RootOf(m, x);
  }

  /** The square root of the square of a non-negative number is that number. */
  lemma SqrtOfSquare(m: RealMath, v: real)
    requires Lawful(m) && 0.0 <= v
    ensures m.sqrt(v * v) == v
  {
    var s := m.sqrt(v * v);
    assert RootOf(m, v * v);
    assert (s - v) * (s + v) == 0.0;
    if s + v == 0.0 {
      assert s == 0.0 && v == 0.0;
    } else {
      assert s - v == ((s - v) * (s + v)) / (s + v);
    }
  }

  /** sin pi = 0 and cos pi = -1. */
  lemma SinCosPi(m: RealMath)
    requires Lawful(m)
    ensures m.sin(m.pi) == 0.0 && m.cos(m.pi) == -1.0
  {
    assert HalfTurn(m, 0.0);
    assert m.pi + 0.0 == m.pi;
  }

  /** At pi/4 sine and cosine both square to one half. */
  lemma EighthTurnSquares(m: RealMath)
    requires Lawful(m)
    ensures Sq(m.sin(m.pi / 4.0)) == 0.5 && Sq(m.cos(m.pi / 4.0)) == 0.5
  {
    assert UnitCircle(m, m.pi / 4.0);
  }
}
