/** The base of every optical component (src/instamatic/simulation/optical_component.py):
    by default a component passes the beam on as a fresh copy. */
module OpticalComponents {
  import opened Trig
  import opened Beams

  /** The default `propagate_beam`: the output is a copy of the input, so it keeps the
      input's five parameters and carries coefficients derived from them. The result is
      a function of the beam alone, so no component state can influence it. */
  function PropagateBeam(m: RealMath, beam: Beam): (r: Beam)
    ensures SameParameters(r, beam) && WellFormed(m, r)
    ensures WellFormed(m, beam) ==> r == beam
  {
    Copy(m, beam)
  }

  /** Passing a beam through twice is the same as passing it through once. */
  lemma PropagateIdempotent(m: RealMath, beam: Beam)
    ensures PropagateBeam(m, PropagateBeam(m, beam)) == PropagateBeam(m, beam)
  {
  }
}
