/** A selectable aperture (src/instamatic/simulation/aperture.py): a position, a list of
    hole radii and the index of the hole in use. */
module Apertures {
  import opened Trig
  import opened Beams
  import opened Results
  import OpticalComponents

  datatype Aperture = Aperture(x: real, y: real, radii: seq<real>, index: int, inserted: bool)

  /** The dataclass constructor: the index defaults to the first hole, and the aperture
      starts retracted. */
  function NewAperture(x: real, y: real, radii: seq<real>): (ap: Aperture)
    ensures ap.x == x && ap.y == y && ap.radii == radii
    ensures ap.index == 0 && !ap.inserted
  {
    Aperture(x, y, radii, 0, false)
  }

  /** The radius of the selected hole, with list indexing as the source language does it: a
      negative index counts from the end, and an index outside `-|radii| .. |radii|-1` is an
      indexing error (`None`). */
  function Radius(ap: Aperture): (r: Option<real>)
    ensures r.Some? <==> -|ap.radii| <= ap.index < |ap.radii|
    ensures r.Some? && 0 <= ap.index ==> r.value == ap.radii[ap.index]
    ensures r.Some? && ap.index < 0 ==> r.value == ap.radii[|ap.radii| + ap.index]
    ensures r.Some? ==> r.value in ap.radii
  {
    if 0 <= ap.index < |ap.radii| then Some(ap.radii[ap.index])
    else if -|ap.radii| <= ap.index < 0 then Some(ap.radii[|ap.radii| + ap.index])
    else None
  }

  /** The facade's apertures select the larger of their two holes by default. */
  lemma DefaultApertureRadius()
    ensures Radius(NewAperture(0.0, 0.0, [0.1, 0.01])) == Some(0.1)
  {
  }

  /** An aperture passes the beam on as the default copy, whether inserted or not, whatever
      its hole and position. */
  function PropagateBeam(m: RealMath, ap: Aperture, beam: Beam): (r: Beam)
    ensures SameParameters(r, beam) && WellFormed(m, r)
    ensures WellFormed(m, beam) ==> r == beam
  {
    OpticalComponents.PropagateBeam(m, beam)
  }

  lemma PropagateIgnoresAperture(m: RealMath, ap: Aperture, ap': Aperture, beam: Beam)
    ensures PropagateBeam(m, ap, beam) == PropagateBeam(m, ap', beam)
  {
  }
}
