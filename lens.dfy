/** A frozen magnetic lens (src/instamatic/simulation/lens.py). Being a value, no
    operation can change one of its fields. */
module Lenses {
  import opened Trig
  import opened Beams
  import OpticalComponents

  datatype Lens = Lens(
    focalLength: real,          // [mm]
    collectionAngle: real,      // [rad]
    convergenceAngle: real,     // [rad]
    sphericalAberration: real,  // [mm]
    chromaticAberration: real,  // [mm]
    astigmatismX: real,
    astigmatismY: real)

  /** The lens every facade slot is built with. */
  function DefaultLens(): (lens: Lens) {
    Lens(0.1, 0.01, 0.01, 0.0, 0.0, 0.0, 0.0)
  }

  /** The astigmatism pair, x first. */
  function Astigmatism(lens: Lens): (r: (real, real))
    ensures r.0 == lens.astigmatismX && r.1 == lens.astigmatismY
  {
    (lens.astigmatismX, lens.astigmatismY)
  }

  /** The magnification (spelt `magnificaion` in the source): the ratio of collection to
      convergence angle, the number that scales the convergence angle up to the collection
      angle. The ratio is only defined for a non-zero convergence angle. */
  function Magnification(lens: Lens): (r: real)
    requires lens.convergenceAngle != 0.0
    ensures r * lens.convergenceAngle == lens.collectionAngle
  {
    lens.collectionAngle / lens.convergenceAngle
  }

  /** Equal angles give unit magnification; in particular every default lens magnifies by one. */
  lemma EqualAnglesUnitMagnification(lens: Lens)
    requires lens.convergenceAngle != 0.0 && lens.collectionAngle == lens.convergenceAngle
    ensures Magnification(lens) == 1.0
  {
    var r := Magnification(lens);
    assert (r - 1.0) * lens.convergenceAngle == 0.0;
  }

  lemma DefaultLensUnitMagnification()
    ensures Magnification(DefaultLens()) == 1.0
  {
    EqualAnglesUnitMagnification(DefaultLens());
  }

  /** A lens passes the beam on as the default copy, whatever its focal length or aberrations. */
  function PropagateBeam(m: RealMath, lens: Lens, beam: Beam): (r: Beam)
    ensures SameParameters(r, beam) && WellFormed(m, r)
    ensures WellFormed(m, beam) ==> r == beam
  {
    OpticalComponents.PropagateBeam(m, beam)
  }

  /** The output does not depend on the lens. */
  lemma PropagateIgnoresLens(m: RealMath, lens: Lens, lens': Lens, beam: Beam)
    ensures PropagateBeam(m, lens, beam) == PropagateBeam(m, lens', beam)
  {
  }
}
