/** The elliptical cross-section of the electron beam at one optical plane
    (src/instamatic/simulation/beam.py). Semi-axes `a`, `b`, rotation `t`, centre `(x0, y0)`;
    the implicit-conic coefficients A..F are derived once, when the beam is built. */
module Beams {
  import opened Trig

  datatype Point = Point(x: real, y: real)

  /** Coefficients of `A x^2 + B x y + C y^2 + D x + E y + F`. */
  datatype Conic = Conic(A: real, B: real, C: real, D: real, E: real, F: real)

  datatype Beam = Beam(a: real, b: real, t: real, x0: real, y0: real, conic: Conic)

  /** Four corners, in the order the source returns them. */
  datatype Corners = Corners(p0: Point, p1: Point, p2: Point, p3: Point)

  /** The coefficients as the constructor computes them. The A and C lines differ from the
      textbook general ellipse: A adds `sin(t)^2` where it should multiply `a^2` by it, and C
      multiplies `a^2` by `cos(t)^2` where the textbook has `sin(t)^2`. Whatever A, B and C
      are, the linear terms centre the conic on `(x0, y0)`, where it takes the value
      `-a^2 b^2`; unrotated, A and C both come out as `a^2 + b^2` and B as zero. */
  function ConicOf(m: RealMath, a: real, b: real, t: real, x0: real, y0: real): (q: Conic)
    ensures q.D == -2.0 * q.A * x0 - q.B * y0 && q.E == -q.B * x0 - 2.0 * q.C * y0
    ensures q.A * x0 * x0 + q.B * x0 * y0 + q.C * y0 * y0 + q.D * x0 + q.E * y0 + q.F == -(a * a * (b * b))
    ensures Lawful(m) && t == 0.0 ==> q.A == a * a + b * b && q.B == 0.0 && q.C == a * a + b * b
    ensures q == Centred(q.A, q.B, q.C, x0, y0, a * a * (b * b))
  {
    var st, ct := m.sin(t), m.cos(t);
    var a2, b2 := a * a, b * b;
    var A, B, C := a2 + st * st + b2 * ct * ct, 2.0 * (b2 - a2) * st * ct, a2 * ct * ct + b2 * ct * ct;
    var q := Centred(A, B, C, x0, y0, a * a * (b * b));
    CentredExpansion(A, B, C, x0, y0, a * a * (b * b), x0, y0);
    assert q.A == A && q.B == B && q.C == C;
    q
  }

  /** The linear and constant coefficients that centre the quadratic part on `(x0, y0)`
      and compare it with `k`. */
  function Centred(A: real, B: real, C: real, x0: real, y0: real, k: real): (q: Conic)
  {
    var D := -2.0 * A * x0 - B * y0;
    var E := -B * x0 - 2.0 * C * y0;
    var F := A * x0 * x0 + B * x0 * y0 + C * y0 * y0 - k;
    Conic(A, B, C, D, E, F)
  }

  /** The cached coefficients are those of the beam's own parameters. */
  predicate WellFormed(m: RealMath, beam: Beam) {
    beam.conic == ConicOf(m, beam.a, beam.b, beam.t, beam.x0, beam.y0)
  }

  predicate SameParameters(u: Beam, v: Beam) {
    u.a == v.a && u.b == v.b && u.t == v.t && u.x0 == v.x0 && u.y0 == v.y0
  }

  /** The strict point-in-beam test on the cached coefficients. When the linear terms centre
      the conic on `(x0, y0)`, a point is inside exactly when the quadratic part at its offset
      from the centre stays below the level `A x0^2 + B x0 y0 + C y0^2 - F`. */
  predicate IsPointInBeam(beam: Beam, x: real, y: real)
    ensures var q := beam.conic;
      q.D == -2.0 * q.A * beam.x0 - q.B * beam.y0 && q.E == -q.B * beam.x0 - 2.0 * q.C * beam.y0 ==>
        (IsPointInBeam(beam, x, y) <==> OffsetForm(beam, x, y) < OffsetForm(beam, 0.0, 0.0) - q.F)
  {
    var k := beam.conic;
    CentredExpansion(k.A, k.B, k.C, beam.x0, beam.y0, OffsetForm(beam, 0.0, 0.0) - k.F, x, y);
    k.A * x * x + k.B * x * y + k.C * y * y + k.D * x + k.E * y < -k.F
  }

  /** The quadratic form of the offset from the centre that the test compares with `a^2 b^2`. */
  function OffsetForm(beam: Beam, x: real, y: real): (v: real) {
    var dx, dy := x - beam.x0, y - beam.y0;
    beam.conic.A * dx * dx + beam.conic.B * dx * dy + beam.conic.C * dy * dy
  }

  /** The expansion behind the membership test: a centred conic is below zero exactly where
      its quadratic part, taken at the offset from the centre, is below `k`. */
  lemma CentredExpansion(A: real, B: real, C: real, x0: real, y0: real, k: real, x: real, y: real)
    ensures var q := Centred(A, B, C, x0, y0, k);
      A * x * x + B * x * y + C * y * y + q.D * x + q.E * y + q.F
      == A * (x - x0) * (x - x0) + B * (x - x0) * (y - y0) + C * (y - y0) * (y - y0) - k
  {
    assert A * (x - x0) * (x - x0) == A * x * x - 2.0 * A * x0 * x + A * x0 * x0;
    assert C * (y - y0) * (y - y0) == C * y * y - 2.0 * C * y0 * y + C * y0 * y0;
    assert B * (x - x0) * (y - y0) == B * x * y - B * y0 * x - B * x0 * y + B * x0 * y0;
  }

  /** Membership depends only on the offset from the centre:
      inside iff `A dx^2 + B dx dy + C dy^2 < a^2 b^2`, whatever A, B and C are. */
  lemma InBeamIffOffsetForm(m: RealMath, beam: Beam, x: real, y: real)
    requires WellFormed(m, beam)
    ensures IsPointInBeam(beam, x, y) <==> OffsetForm(beam, x, y) < beam.a * beam.a * (beam.b * beam.b)
  {
    CentredBeamMembership(beam, beam.a * beam.a * (beam.b * beam.b), x, y);
  }

  /** For any beam whose cached conic is centred on `(x0, y0)` at level `lvl`, a point is
      inside iff the quadratic part at its offset from the centre is below `lvl`. */
  lemma CentredBeamMembership(beam: Beam, lvl: real, x: real, y: real)
    requires beam.conic == Centred(beam.conic.A, beam.conic.B, beam.conic.C, beam.x0, beam.y0, lvl)
    ensures IsPointInBeam(beam, x, y) <==> OffsetForm(beam, x, y) < lvl
  {
    var k := beam.conic;
    CentredExpansion(k.A, k.B, k.C, beam.x0, beam.y0, lvl, x, y);
  }

  /** Membership is strict: a point on the boundary quadratic is outside. */
  lemma BoundaryIsOutside(m: RealMath, beam: Beam, x: real, y: real)
    requires WellFormed(m, beam)
    requires OffsetForm(beam, x, y) == beam.a * beam.a * (beam.b * beam.b)
    ensures !IsPointInBeam(beam, x, y)
  {
    InBeamIffOffsetForm(m, beam, x, y);
  }

  /** The centre is inside iff `a b != 0`, for any A, B, C. */
  lemma CentreInBeamIff(m: RealMath, beam: Beam)
    requires WellFormed(m, beam)
    ensures IsPointInBeam(beam, beam.x0, beam.y0) <==> beam.a * beam.b != 0.0
  {
    CentreMembership(beam);
  }

  /** A conic centred on the beam's centre at level `a^2 b^2` holds the centre iff `a b != 0`. */
  lemma CentreMembership(beam: Beam)
    requires beam.conic == Centred(beam.conic.A, beam.conic.B, beam.conic.C, beam.x0, beam.y0, beam.a * beam.a * (beam.b * beam.b))
    ensures IsPointInBeam(beam, beam.x0, beam.y0) <==> beam.a * beam.b != 0.0
  {
    var lvl := beam.a * beam.a * (beam.b * beam.b);
    CentredBeamMembership(beam, lvl, beam.x0, beam.y0);
    assert OffsetForm(beam, beam.x0, beam.y0) == 0.0;
    LevelPositiveIff(beam.a, beam.b, lvl);
  }

  /** The level `a^2 b^2` is positive exactly when neither semi-axis is zero. */
  lemma LevelPositiveIff(a: real, b: real, lvl: real)
    requires lvl == a * a * (b * b)
    ensures 0.0 < lvl <==> a * b != 0.0
  {
    var ab := a * b;
    assert a * a * (b * b) == Sq(ab);
    if ab != 0.0 {
      SquarePositive(ab);
    }
  }

  /** With `t = 0` the coefficients the code computes describe the disc-like region
      `(a^2 + b^2)(dx^2 + dy^2) < a^2 b^2`, not the ellipse `dx^2/a^2 + dy^2/b^2 < 1`. */
  lemma UnrotatedMembership(m: RealMath, beam: Beam, x: real, y: real)
    requires Lawful(m) && WellFormed(m, beam) && beam.t == 0.0
    ensures var dx, dy := x - beam.x0, y - beam.y0;
      IsPointInBeam(beam, x, y) <==>
        (beam.a * beam.a + beam.b * beam.b) * (dx * dx + dy * dy) < beam.a * beam.a * (beam.b * beam.b)
  {
    InBeamIffOffsetForm(m, beam, x, y);
  }

  /** Building a beam: the parameters are stored and the coefficients derived from them. */
  function NewBeam(m: RealMath, a: real, b: real, t: real, x0: real, y0: real): (r: Beam)
    ensures r.a == a && r.b == b && r.t == t && r.x0 == x0 && r.y0 == y0
    ensures WellFormed(m, r)
    ensures IsPointInBeam(r, x0, y0) <==> a * b != 0.0
  {
    var r := Beam(a, b, t, x0, y0, ConicOf(m, a, b, t, x0, y0));
    CentreInBeamIff(m, r);
    r
  }

  /** A value copy: a beam built afresh from the same five parameters. */
  function Copy(m: RealMath, beam: Beam): (r: Beam)
    ensures SameParameters(r, beam) && WellFormed(m, r)
    ensures WellFormed(m, beam) ==> r == beam
  {
    NewBeam(m, beam.a, beam.b, beam.t, beam.x0, beam.y0)
  }

  /** The denominator under the square root in the polar radius:
      `(a sin(theta)^2)^2 + (b cos(theta)^2)^2`, with sine and cosine squared twice. */
  function PolarDenominator(m: RealMath, a: real, b: real, theta: real): (d: real) {
    Sq(a * Sq(m.sin(theta))) + Sq(b * Sq(m.cos(theta)))
  }

  /** With both semi-axes non-zero the denominator is positive at every angle. */
  lemma PolarDenominatorPositive(m: RealMath, a: real, b: real, theta: real)
    requires Lawful(m) && a != 0.0 && b != 0.0
    ensures 0.0 < PolarDenominator(m, a, b, theta)
  {
    assert UnitCircle(m, theta);
    var s2, c2 := Sq(m.sin(theta)), Sq(m.cos(theta));
    if s2 == 0.0 {
      assert c2 == 1.0;
      SquarePositive(b);
      SquareNonNegative(a * s2);
      assert Sq(b * c2) == Sq(b);
    } else {
      assert a * s2 != 0.0;
      SquarePositive(a * s2);
      SquareNonNegative(b * c2);
    }
  }

  /** At an angle where sine and cosine both square to one half the denominator is
      `(a/2)^2 + (b/2)^2`, positive unless both semi-axes are zero. */
  lemma DiagonalDenominator(m: RealMath, a: real, b: real, theta: real)
    requires Sq(m.sin(theta)) == 0.5 && Sq(m.cos(theta)) == 0.5
    ensures PolarDenominator(m, a, b, theta) == Sq(a * 0.5) + Sq(b * 0.5)
    ensures 0.0 < PolarDenominator(m, a, b, theta) <==> a != 0.0 || b != 0.0
  {
    SquareNonNegative(a * 0.5);
    SquareNonNegative(b * 0.5);
    SquareZeroIff(a * 0.5);
    SquareZeroIff(b * 0.5);
  }

  /** At 0 and at pi the denominator is `b^2`: the `a` term vanishes with the sine. */
  lemma EndDenominators(m: RealMath, a: real, b: real)
    requires Lawful(m)
    ensures PolarDenominator(m, a, b, 0.0) == Sq(b) && PolarDenominator(m, a, b, m.pi) == Sq(b)
  {
    SinCosPi(m);
  }

  /** The polar radius `r(theta) = a b / sqrt(denominator)`, defined wherever the denominator
      is positive: it squares, times the denominator, to `a^2 b^2`, and it is positive when
      `a b` is. */
  function PolarRadius(m: RealMath, beam: Beam, theta: real): (r: real)
    requires Lawful(m) && 0.0 < PolarDenominator(m, beam.a, beam.b, theta)
    ensures r * r * PolarDenominator(m, beam.a, beam.b, theta) == Sq(beam.a * beam.b)
    ensures 0.0 < beam.a * beam.b ==> 0.0 < r
  {
    var d := PolarDenominator(m, beam.a, beam.b, theta);
    assert RootOf(m, d);
    SqrtPositive(m, d);
    var q := m.sqrt(d);
    var r := beam.a * beam.b / q;
    assert r * q == beam.a * beam.b;
    assert r * r * d == (r * q) * (r * q);
    r
  }

  /** The point at polar angle `theta` in the beam's own frame, in absolute coordinates;
      its distance from the centre is `r(theta)`. */
  function CoordinatesFromPolar(m: RealMath, beam: Beam, theta: real): (p: Point)
    requires Lawful(m) && 0.0 < PolarDenominator(m, beam.a, beam.b, theta)
    ensures Sq(p.x - beam.x0) + Sq(p.y - beam.y0) == Sq(PolarRadius(m, beam, theta))
  {
    var r := PolarRadius(m, beam, theta);
    var st, ct := m.sin(theta + beam.t), m.cos(theta + beam.t);
    assert UnitCircle(m, theta + beam.t);
    assert Sq(r * ct) + Sq(r * st) == Sq(r) * (Sq(st) + Sq(ct));
    Point(r * ct + beam.x0, r * st + beam.y0)
  }

  /** The points at polar angles pi/4, 3pi/4, 5pi/4 and 7pi/4, in that order, defined unless
      both semi-axes are zero. All four lie at one distance from the centre, and opposite
      corners average to the centre. */
  function RectangularInternalBox(m: RealMath, beam: Beam): (box: Corners)
    requires Lawful(m) && (beam.a != 0.0 || beam.b != 0.0)
    ensures var d := Sq(box.p0.x - beam.x0) + Sq(box.p0.y - beam.y0);
      && Sq(box.p1.x - beam.x0) + Sq(box.p1.y - beam.y0) == d
      && Sq(box.p2.x - beam.x0) + Sq(box.p2.y - beam.y0) == d
      && Sq(box.p3.x - beam.x0) + Sq(box.p3.y - beam.y0) == d
    ensures box.p0.x + box.p2.x == 2.0 * beam.x0 && box.p0.y + box.p2.y == 2.0 * beam.y0
    ensures box.p1.x + box.p3.x == 2.0 * beam.x0 && box.p1.y + box.p3.y == 2.0 * beam.y0
  {
    InternalBoxSymmetric(m, beam);
    Corners(CoordinatesFromPolar(m, beam, 1.0 * m.pi / 4.0),
            CoordinatesFromPolar(m, beam, 3.0 * m.pi / 4.0),
            CoordinatesFromPolar(m, beam, 5.0 * m.pi / 4.0),
            CoordinatesFromPolar(m, beam, 7.0 * m.pi / 4.0))
  }

  /** The centre plus or minus `v0` plus or minus `v1`, where `v0` and `v1` lead from the
      centre to the polar points at 0 and at pi, in the order (+,+), (-,+), (-,-), (+,-);
      defined unless `b` is zero. Opposite corners average to the centre. */
  function RectangularExternalBox(m: RealMath, beam: Beam): (box: Corners)
    requires Lawful(m) && beam.b != 0.0
    ensures box.p0.x + box.p2.x == 2.0 * beam.x0 && box.p0.y + box.p2.y == 2.0 * beam.y0
    ensures box.p1.x + box.p3.x == 2.0 * beam.x0 && box.p1.y + box.p3.y == 2.0 * beam.y0
  {
    EndDenominators(m, beam.a, beam.b);
    SquarePositive(beam.b);
    var q0 := CoordinatesFromPolar(m, beam, 0.0);
    var q1 := CoordinatesFromPolar(m, beam, m.pi);
    var x0, y0 := q0.x - beam.x0, q0.y - beam.y0;
    var x1, y1 := q1.x - beam.x0, q1.y - beam.y0;
    Corners(Point(beam.x0 + x0 + x1, beam.y0 + y0 + y1),
            Point(beam.x0 - x0 + x1, beam.y0 - y0 + y1),
            Point(beam.x0 - x0 - x1, beam.y0 - y0 - y1),
            Point(beam.x0 + x0 - x1, beam.y0 + y0 - y1))
  }

  /** At 0 and at pi the polar radius is `a` (for `b > 0`), and the polar points lie on
      opposite sides of the centre along direction `t`. */
  lemma PolarEnds(m: RealMath, beam: Beam)
    requires Lawful(m) && 0.0 < beam.b
    ensures (EndDenominators(m, beam.a, beam.b); SquarePositive(beam.b);
      PolarRadius(m, beam, 0.0) == beam.a && PolarRadius(m, beam, m.pi) == beam.a)
    ensures (EndDenominators(m, beam.a, beam.b); SquarePositive(beam.b);
      CoordinatesFromPolar(m, beam, 0.0)
         == Point(beam.a * m.cos(beam.t) + beam.x0, beam.a * m.sin(beam.t) + beam.y0))
    ensures (EndDenominators(m, beam.a, beam.b); SquarePositive(beam.b);
      CoordinatesFromPolar(m, beam, m.pi)
         == Point(-beam.a * m.cos(beam.t) + beam.x0, -beam.a * m.sin(beam.t) + beam.y0))
  {
    var a, b := beam.a, beam.b;
    EndDenominators(m, a, b);
    SquarePositive(b);
    SinCosPi(m);
    SqrtOfSquare(m, b);
    assert PolarDenominator(m, a, b, 0.0) == b * b;
    assert PolarDenominator(m, a, b, m.pi) == b * b;
    assert a * b / b == a;
    assert 0.0 + beam.t == beam.t;
    assert HalfTurn(m, beam.t);
  }

  /** What the code computes for the external box: both "axis" vectors come out as `a` along
      direction `t` and its opposite, so `v1 = -v0`; corners 0 and 2 are the centre and the box
      is the segment from `centre - 2 v0` to `centre + 2 v0`. */
  lemma ExternalBoxDegenerate(m: RealMath, beam: Beam)
    requires Lawful(m) && 0.0 < beam.b
    ensures var box := RectangularExternalBox(m, beam);
      var vx, vy := beam.a * m.cos(beam.t), beam.a * m.sin(beam.t);
      && box.p0 == Point(beam.x0, beam.y0)
      && box.p2 == Point(beam.x0, beam.y0)
      && box.p1 == Point(beam.x0 - 2.0 * vx, beam.y0 - 2.0 * vy)
      && box.p3 == Point(beam.x0 + 2.0 * vx, beam.y0 + 2.0 * vy)
  {
    PolarEnds(m, beam);
  }

  /** Sine and cosine square to one half at each of the four diagonal angles. */
  lemma DiagonalSquares(m: RealMath)
    requires Lawful(m)
    ensures Sq(m.sin(1.0 * m.pi / 4.0)) == 0.5 && Sq(m.cos(1.0 * m.pi / 4.0)) == 0.5
    ensures Sq(m.sin(3.0 * m.pi / 4.0)) == 0.5 && Sq(m.cos(3.0 * m.pi / 4.0)) == 0.5
    ensures Sq(m.sin(5.0 * m.pi / 4.0)) == 0.5 && Sq(m.cos(5.0 * m.pi / 4.0)) == 0.5
    ensures Sq(m.sin(7.0 * m.pi / 4.0)) == 0.5 && Sq(m.cos(7.0 * m.pi / 4.0)) == 0.5
  {
    var q := m.pi / 4.0;
    EighthTurnSquares(m);
    assert 1.0 * m.pi / 4.0 == q;
    assert 3.0 * m.pi / 4.0 == m.pi / 2.0 + q;
    assert 5.0 * m.pi / 4.0 == m.pi + q;
    assert 7.0 * m.pi / 4.0 == m.pi + (m.pi / 2.0 + q);
    assert QuarterTurn(m, q);
    assert HalfTurn(m, q);
    assert HalfTurn(m, m.pi / 2.0 + q);
  }

  /** The polar point half a turn further on, at the same radius, is the reflection through
      the centre. */
  lemma HalfTurnReflects(m: RealMath, beam: Beam, theta: real, theta': real)
    requires Lawful(m) && 0.0 < PolarDenominator(m, beam.a, beam.b, theta)
    requires 0.0 < PolarDenominator(m, beam.a, beam.b, theta')
    requires theta' == m.pi + theta
    requires PolarRadius(m, beam, theta') == PolarRadius(m, beam, theta)
    ensures var p, p' := CoordinatesFromPolar(m, beam, theta), CoordinatesFromPolar(m, beam, theta');
      p.x + p'.x == 2.0 * beam.x0 && p.y + p'.y == 2.0 * beam.y0
  {
    assert theta' + beam.t == m.pi + (theta + beam.t);
    assert HalfTurn(m, theta + beam.t);
  }

  /** At the four diagonal angles the denominator is positive and the polar radius is one
      and the same, and the point at angle k+2 reflects the point at angle k through the
      centre. */
  lemma InternalBoxSymmetric(m: RealMath, beam: Beam)
    requires Lawful(m) && (beam.a != 0.0 || beam.b != 0.0)
    ensures 0.0 < PolarDenominator(m, beam.a, beam.b, 1.0 * m.pi / 4.0)
    ensures 0.0 < PolarDenominator(m, beam.a, beam.b, 3.0 * m.pi / 4.0)
    ensures 0.0 < PolarDenominator(m, beam.a, beam.b, 5.0 * m.pi / 4.0)
    ensures 0.0 < PolarDenominator(m, beam.a, beam.b, 7.0 * m.pi / 4.0)
    ensures var r := PolarRadius(m, beam, 1.0 * m.pi / 4.0);
      && PolarRadius(m, beam, 3.0 * m.pi / 4.0) == r
      && PolarRadius(m, beam, 5.0 * m.pi / 4.0) == r
      && PolarRadius(m, beam, 7.0 * m.pi / 4.0) == r
    ensures var p0, p2 := CoordinatesFromPolar(m, beam, 1.0 * m.pi / 4.0), CoordinatesFromPolar(m, beam, 5.0 * m.pi / 4.0);
      p0.x + p2.x == 2.0 * beam.x0 && p0.y + p2.y == 2.0 * beam.y0
    ensures var p1, p3 := CoordinatesFromPolar(m, beam, 3.0 * m.pi / 4.0), CoordinatesFromPolar(m, beam, 7.0 * m.pi / 4.0);
      p1.x + p3.x == 2.0 * beam.x0 && p1.y + p3.y == 2.0 * beam.y0
  {
    var a, b := beam.a, beam.b;
    DiagonalSquares(m);
    DiagonalDenominator(m, a, b, 1.0 * m.pi / 4.0);
    DiagonalDenominator(m, a, b, 3.0 * m.pi / 4.0);
    DiagonalDenominator(m, a, b, 5.0 * m.pi / 4.0);
    DiagonalDenominator(m, a, b, 7.0 * m.pi / 4.0);
    HalfTurnReflects(m, beam, 1.0 * m.pi / 4.0, 5.0 * m.pi / 4.0);
    HalfTurnReflects(m, beam, 3.0 * m.pi / 4.0, 7.0 * m.pi / 4.0);
  }
}
