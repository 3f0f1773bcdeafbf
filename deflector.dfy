/** A beam deflector (src/instamatic/simulation/deflector.py). The class itself has no
    fields; the facade's shift setters attach an `x, y` pair to it, so a deflector is
    modelled as the pair it was last given, if any. */
module Deflectors {
  import opened Trig
  import opened Beams
  import opened Results

  datatype Shift = Shift(x: int, y: int)

  datatype Deflector = Deflector(shift: Option<Shift>)

  /** A freshly built deflector carries no shift. */
  function NewDeflector(): (d: Deflector)
    ensures d.shift.None?
  {
    Deflector(None)
  }

  /** The deflector with its shift set to `(x, y)`. */
  function WithShift(d: Deflector, x: int, y: int): (d': Deflector)
    ensures d'.shift == Some(Shift(x, y))
  {
    d.(shift := Some(Shift(x, y)))
  }

  /** Passing a beam through a deflector copies it: semi-axes, rotation and centre are
      kept, so the stored shift does not move the beam. */
  function PropagateBeam(m: RealMath, d: Deflector, beam: Beam): (r: Beam)
    ensures SameParameters(r, beam) && WellFormed(m, r)
    ensures WellFormed(m, beam) ==> r == beam
  {
    Copy(m, beam)
  }

  /** Whatever shift the deflector holds, the beam's centre comes out where it went in. */
  lemma NoRecentring(m: RealMath, d: Deflector, x: int, y: int, beam: Beam)
    ensures var r := PropagateBeam(m, WithShift(d, x, y), beam);
      r.x0 == beam.x0 && r.y0 == beam.y0 && r == PropagateBeam(m, d, beam)
  {
  }

  /** Deflecting twice is deflecting once. */
  lemma PropagateIdempotent(m: RealMath, d: Deflector, beam: Beam)
    ensures PropagateBeam(m, d, PropagateBeam(m, d, beam)) == PropagateBeam(m, d, beam)
  {
  }
}
