/** A crystal on the sample grid (src/instamatic/camera/simulate/sample.py): a disc at
    `(x, y)` with radius `r`, oriented by three Euler angles. */
module Samples {
  import opened Trig
  import opened LinearAlgebra

  datatype Sample = Sample(
    x: real, y: real, r: real,
    eulerAnglePhi1: real, eulerAnglePsi: real, eulerAnglePhi2: real,
    crystalIndex: int,
    rotation: Matrix3)

  /** The orientation: an in-plane turn by `phi1`, a turn about the x axis by `psi`, and a
      second in-plane turn by `phi2`, multiplied in that order. The two in-plane turns leave
      the z axis alone, so the crystal's z axis makes the angle `psi` with the stage's; with
      lawful trigonometry the product is a rotation. */
  function RotationFromEuler(m: RealMath, phi1: real, psi: real, phi2: real): (r: Matrix3)
    ensures r.m22 == m.cos(psi)
    ensures Lawful(m) ==> Orthogonal(r)
  {
    WhenLawfulOrthogonal(m, phi1, psi, phi2);
    EulerProduct(m, phi1, psi, phi2)
  }

  /** The three elementary rotations multiplied out. */
  function EulerProduct(m: RealMath, phi1: real, psi: real, phi2: real): (r: Matrix3) {
    Mul(Mul(RotationXY(m.cos(phi1), m.sin(phi1)), RotationYZ(m.cos(psi), m.sin(psi))),
        RotationXY(m.cos(phi2), m.sin(phi2)))
  }

  /** Building a sample stores its parameters and its orientation; the crystal index
      defaults to 0 in the source and is passed explicitly here. */
  function NewSample(m: RealMath, x: real, y: real, r: real, phi1: real, psi: real, phi2: real,
                     crystalIndex: int): (s: Sample)
    ensures s.x == x && s.y == y && s.r == r && s.crystalIndex == crystalIndex
    ensures s.eulerAnglePhi1 == phi1 && s.eulerAnglePsi == psi && s.eulerAnglePhi2 == phi2
    ensures Lawful(m) ==> Orthogonal(s.rotation)
  {
    Sample(x, y, r, phi1, psi, phi2, crystalIndex, RotationFromEuler(m, phi1, psi, phi2))
  }

  lemma WhenLawfulOrthogonal(m: RealMath, phi1: real, psi: real, phi2: real)
    ensures Lawful(m) ==> Orthogonal(EulerProduct(m, phi1, psi, phi2))
  {
    if Lawful(m) {
      RotationOrthogonal(m, phi1, psi, phi2);
    }
  }

  /** With sine and cosine on the unit circle, each factor and so the product is orthogonal. */
  lemma RotationOrthogonal(m: RealMath, phi1: real, psi: real, phi2: real)
    requires Lawful(m)
    ensures Orthogonal(EulerProduct(m, phi1, psi, phi2))
  {
    var r1 := RotationXY(m.cos(phi1), m.sin(phi1));
    var r2 := RotationYZ(m.cos(psi), m.sin(psi));
    var r3 := RotationXY(m.cos(phi2), m.sin(phi2));
    assert UnitCircle(m, phi1) && UnitCircle(m, psi) && UnitCircle(m, phi2);
    RotationXYOrthogonal(m.cos(phi1), m.sin(phi1));
    RotationYZOrthogonal(m.cos(psi), m.sin(psi));
    RotationXYOrthogonal(m.cos(phi2), m.sin(phi2));
    ProductOrthogonal(r1, r2);
    ProductOrthogonal(Mul(r1, r2), r3);
  }

  /** Strict disc membership of one point: a contained point lies strictly inside the
      square of side `2 r` about the centre, so a disc of radius zero contains nothing. */
  predicate ContainsPoint(s: Sample, px: real, py: real)
    ensures ContainsPoint(s, px, py) ==> Sq(px - s.x) < Sq(s.r) && Sq(py - s.y) < Sq(s.r)
    ensures ContainsPoint(s, px, py) ==> s.r != 0.0
  {
    SquareNonNegative(px - s.x);
    SquareNonNegative(py - s.y);
    (px - s.x) * (px - s.x) + (py - s.y) * (py - s.y) < s.r * s.r
  }

  /** Elementwise membership over a coordinate grid: the mask has the grid's shape and is
      true exactly at the points strictly inside the disc. */
  function PixelContainsCrystal(s: Sample, xs: seq<seq<real>>, ys: seq<seq<real>>): (mask: seq<seq<bool>>)
    requires |xs| == |ys| && forall i :: 0 <= i < |xs| ==> |xs[i]| == |ys[i]|
    ensures |mask| == |xs|
    ensures forall i :: 0 <= i < |xs| ==> |mask[i]| == |xs[i]|
    ensures forall i, j :: 0 <= i < |xs| && 0 <= j < |xs[i]| ==>
      (mask[i][j] <==> Sq(xs[i][j] - s.x) + Sq(ys[i][j] - s.y) < Sq(s.r))
  {
    seq(|xs|, i requires 0 <= i < |xs| => seq(|xs[i]|, j requires 0 <= j < |xs[i]| => ContainsPoint(s, xs[i][j], ys[i][j])))
  }

  /** Containment is strict and says nothing of the crystal index: a point on the rim is
      outside, a disc of radius zero holds no point, and the centre is inside exactly when
      the radius is non-zero. */
  lemma ContainmentFacts(s: Sample, px: real, py: real, k: int)
    ensures Sq(px - s.x) + Sq(py - s.y) == Sq(s.r) ==> !ContainsPoint(s, px, py)
    ensures s.r == 0.0 ==> !ContainsPoint(s, px, py)
    ensures ContainsPoint(s, s.x, s.y) <==> s.r != 0.0
    ensures ContainsPoint(s.(crystalIndex := k), px, py) <==> ContainsPoint(s, px, py)
  {
    SquareNonNegative(px - s.x);
    SquareNonNegative(py - s.y);
    SquareZeroIff(s.r);
  }
}
