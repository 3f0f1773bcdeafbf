/** A list of optical components of mixed kinds, and the left fold that passes a beam
    through them in order (the loops of src/instamatic/simulation/illumination.py and
    src/instamatic/simulation/tem.py). */
module OpticalChain {
  import opened Trig
  import opened Beams
  import Lenses
  import Apertures
  import Deflectors

  datatype Component =
    | LensPart(lens: Lenses.Lens)
    | AperturePart(aperture: Apertures.Aperture)
    | DeflectorPart(deflector: Deflectors.Deflector)

  /** Dispatch to the component's own `propagate_beam`. */
  function Propagate(m: RealMath, c: Component, beam: Beam): (r: Beam)
    ensures SameParameters(r, beam) && WellFormed(m, r)
  {
    match c
    case LensPart(lens) => Lenses.PropagateBeam(m, lens, beam)
    case AperturePart(ap) => Apertures.PropagateBeam(m, ap, beam)
    case DeflectorPart(d) => Deflectors.PropagateBeam(m, d, beam)
  }

  /** Each component applied once, first to last. */
  function Fold(m: RealMath, cs: seq<Component>, beam: Beam): (r: Beam)
    ensures SameParameters(r, beam)
    ensures |cs| > 0 ==> WellFormed(m, r)
    decreases |cs|
  {
    if cs == [] then beam else Fold(m, cs[1..], Propagate(m, cs[0], beam))
  }

  /** Folding over two lists one after the other is folding over their concatenation. */
  lemma {:induction false} FoldAppend(m: RealMath, cs: seq<Component>, ds: seq<Component>, beam: Beam)
    ensures Fold(m, cs + ds, beam) == Fold(m, ds, Fold(m, cs, beam))
    decreases |cs|
  {
    if cs == [] {
      assert cs + ds == ds;
    } else {
      assert (cs + ds)[1..] == cs[1..] + ds;
      FoldAppend(m, cs[1..], ds, Propagate(m, cs[0], beam));
    }
  }

  /** Every component is a pass-through copy, so a well-formed beam comes out of any chain
      unchanged. */
  lemma {:induction false} FoldPassThrough(m: RealMath, cs: seq<Component>, beam: Beam)
    requires WellFormed(m, beam)
    ensures Fold(m, cs, beam) == beam
    decreases |cs|
  {
    if cs != [] {
      var next := Propagate(m, cs[0], beam);
      assert next == beam;
      FoldPassThrough(m, cs[1..], next);
    }
  }

  /** The pass-through for every well-formed beam at once. */
  lemma ChainPassesThrough(m: RealMath, cs: seq<Component>)
    ensures forall beam :: WellFormed(m, beam) ==> Fold(m, cs, beam) == beam
  {
    forall beam | WellFormed(m, beam)
      ensures Fold(m, cs, beam) == beam
    {
      FoldPassThrough(m, cs, beam);
    }
  }
}
