/** The illumination system (src/instamatic/simulation/illumination.py): a gun and the
    components between it and the stage. */
module Illuminations {
  import opened Trig
  import opened Beams
  import opened Guns
  import opened OpticalChain

  datatype Illumination = Illumination(gun: Gun, opticalComponents: seq<Component>) {

    /** The beam that reaches the stage: the gun's seed beam passed through every component
        in list order. With only pass-through components it is the seed beam itself. */
    method GetBeamOnStage(m: RealMath) returns (beam: Beam)
      ensures beam == Fold(m, opticalComponents, GetBeam(m, gun))
      ensures beam == GetBeam(m, gun)
    {
      beam := GetBeam(m, gun);
      ghost var seed := beam;
      for i := 0 to |opticalComponents|
        invariant Fold(m, opticalComponents, seed) == Fold(m, opticalComponents[i..], beam)
        invariant beam == seed
      {
        beam := Propagate(m, opticalComponents[i], beam);
        assert opticalComponents[i..][1..] == opticalComponents[i + 1..];
      }
      assert opticalComponents[|opticalComponents|..] == [];
    }
  }
}
