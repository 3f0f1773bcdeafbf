/** The simulated microscope facade (src/instamatic/simulation/tem.py): a function-mode
    state machine, the two optical chains around the stage, image and diffraction rendering
    through the stage, and the microscope-control getters and setters it implements. */
module Tem {
  import opened Trig
  import opened LinearAlgebra
  import opened Results
  import opened Beams
  import opened Guns
  import opened Lenses
  import opened Deflectors
  import opened Apertures
  import opened OpticalChain
  import opened Stages

  /** The exceptions the facade raises. */
  datatype TemError =
    | TemValueError(message: string)
    | NotImplementedError
    | AttributeError(name: string)
    | FrozenInstanceError(name: string)
    | TypeError(message: string)

  const FunctionModes: seq<string> := ["mag1", "mag2", "lowmag", "samag", "diff"]

  /** The camera configuration the facade inherits: sensor size and defaults. */
  datatype CameraConfig = CameraConfig(width: nat, height: nat, defaultExposure: real, defaultBinsize: int)

  /** The smallest and largest x and y over the four corners of a box. */
  function BoxExtent(box: Corners): (e: Extent)
    ensures e.xMin <= e.xMax && e.yMin <= e.yMax
    ensures Within(box.p0, e) && Within(box.p1, e) && Within(box.p2, e) && Within(box.p3, e)
    ensures e.xMin in [box.p0.x, box.p1.x, box.p2.x, box.p3.x] && e.xMax in [box.p0.x, box.p1.x, box.p2.x, box.p3.x]
    ensures e.yMin in [box.p0.y, box.p1.y, box.p2.y, box.p3.y] && e.yMax in [box.p0.y, box.p1.y, box.p2.y, box.p3.y]
  {
    var xs := [box.p0.x, box.p1.x, box.p2.x, box.p3.x];
    var ys := [box.p0.y, box.p1.y, box.p2.y, box.p3.y];
    assert xs[0] in xs && xs[1] in xs && xs[2] in xs && xs[3] in xs;
    assert ys[0] in ys && ys[1] in ys && ys[2] in ys && ys[3] in ys;
    Extent(Min(xs), Max(xs), Min(ys), Max(ys))
  }

  predicate Within(p: Point, e: Extent) {
    e.xMin <= p.x <= e.xMax && e.yMin <= p.y <= e.yMax
  }

  function Min(xs: seq<real>): (r: real)
    requires |xs| > 0
    ensures r in xs && forall x :: x in xs ==> r <= x
  {
    if |xs| == 1 then xs[0]
    else
      var rest := Min(xs[1..]);
      assert forall x :: x in xs ==> x == xs[0] || x in xs[1..];
      if xs[0] <= rest then xs[0] else rest
  }

  function Max(xs: seq<real>): (r: real)
    requires |xs| > 0
    ensures r in xs && forall x :: x in xs ==> x <= r
  {
    if |xs| == 1 then xs[0]
    else
      var rest := Max(xs[1..]);
      assert forall x :: x in xs ==> x == xs[0] || x in xs[1..];
      if rest <= xs[0] then xs[0] else rest
  }

  /** The region a rendered frame covers: the extent of the beam's external box. */
  function BeamExtent(m: RealMath, beam: Beam): (e: Extent)
    requires Lawful(m) && beam.b != 0.0
    ensures e.xMin <= beam.x0 <= e.xMax && e.yMin <= beam.y0 <= e.yMax
  {
    BoxExtent(RectangularExternalBox(m, beam))
  }

  /** The frame's shape: the camera dimensions divided down by the binning, rounding down. */
  function RenderShape(camera: CameraConfig, binsize: int): (s: Shape)
    requires 0 < binsize
    ensures s.rows * binsize <= camera.width < (s.rows + 1) * binsize
    ensures s.cols * binsize <= camera.height < (s.cols + 1) * binsize
  {
    Shape(camera.width / binsize, camera.height / binsize)
  }

  /** What looking up an attribute of a beam yields: a number, or one of its methods bound
      to it. */
  datatype AttributeValue = Number(value: real) | BoundMethod(name: string)

  /** The five parameters of the dataclass and the six coefficients set after construction. */
  const BeamDataAttributes: seq<string> := ["a", "b", "t", "x0", "y0", "A", "B", "C", "D", "E", "F"]

  /** The methods the beam class defines. */
  const BeamMethods: seq<string> :=
    ["__post_init__", "is_point_in_beam", "get_rectangular_internal_box",
     "get_rectangular_external_box", "_get_coordinates_from_polar", "copy"]

  /** An attribute of a beam, looked up by name: a data attribute gives its number, a method
      name gives the bound method, and any other name of the class is an attribute error. */
  function BeamAttribute(beam: Beam, name: string): (r: Result<AttributeValue, TemError>)
    ensures r.Ok? && r.value.Number? <==> name in BeamDataAttributes
    ensures r.Ok? && r.value.BoundMethod? <==> name in BeamMethods
    ensures r.Err? ==> r.error == AttributeError(name)
    ensures name == "a" ==> r == Ok(Number(beam.a))
    ensures name == "b" ==> r == Ok(Number(beam.b))
  {
    match name
    case "a" => Ok(Number(beam.a))
    case "b" => Ok(Number(beam.b))
    case "t" => Ok(Number(beam.t))
    case "x0" => Ok(Number(beam.x0))
    case "y0" => Ok(Number(beam.y0))
    case "A" => Ok(Number(beam.conic.A))
    case "B" => Ok(Number(beam.conic.B))
    case "C" => Ok(Number(beam.conic.C))
    case "D" => Ok(Number(beam.conic.D))
    case "E" => Ok(Number(beam.conic.E))
    case "F" => Ok(Number(beam.conic.F))
    case _ => if name in BeamMethods then Ok(BoundMethod(name)) else Err(AttributeError(name))
  }

  /** `beam._a + beam._b`, attribute by attribute: the first lookup already fails. */
  function SpotSizeOf(beam: Beam): (r: Result<real, TemError>)
    ensures r == Err(AttributeError("_a"))
  {
    match BeamAttribute(beam, "_a")
    case Err(e) => Err(e)
    case Ok(BoundMethod(_)) => Err(TypeError("unsupported operand type for +"))
    case Ok(Number(a)) =>
      match BeamAttribute(beam, "_b")
      case Err(e) => Err(e)
      case Ok(BoundMethod(_)) => Err(TypeError("unsupported operand type for +"))
      case Ok(Number(b)) => Ok(a + b)
  }

  /** The frame every facade renders at rest covers `[-3e-9, 3e-9] x [0, 0]`: the gun beam's
      external box collapses to a segment along x of twice the crossover size. */
  lemma DefaultExtent(m: RealMath)
    requires Lawful(m)
    ensures var beam := GetBeam(m, ColdFEG(200000.0));
      BeamExtent(m, beam) == Extent(-0.000000003, 0.000000003, 0.0, 0.0)
  {
    var beam := GetBeam(m, ColdFEG(200000.0));
    ExternalBoxDegenerate(m, beam);
    var box := RectangularExternalBox(m, beam);
    assert box.p1 == Point(-0.000000003, 0.0) && box.p3 == Point(0.000000003, 0.0);
  }

  class TemSimulation {
    const math: RealMath
    const camera: CameraConfig
    var mode: string

    const gun: Gun := ColdFEG(200000.0)
    var gunShiftDeflector: Deflector
    const condenserLens1: Lens := DefaultLens()
    const condenserLens2: Lens := DefaultLens()
    const condenserAperture: Aperture := NewAperture(0.0, 0.0, [0.1, 0.01])
    var beamShiftDeflector: Deflector
    const stage: Stage
    const objectiveLens: Lens := DefaultLens()
    const objectiveAperture: Aperture := NewAperture(0.0, 0.0, [0.1, 0.01])
    var imageShiftDeflector: Deflector
    const selectedAreaAperture: Aperture := NewAperture(0.0, 0.0, [0.1, 0.01])
    const intermediateLens: Lens := DefaultLens()
    const projectorLens: Lens := DefaultLens()

    /** The mode is always one of the five function modes. */
    ghost predicate Valid()
      reads this
    {
      mode in FunctionModes
    }

    /** The three deflectors, which the shift setters write. */
    function ShiftDeflectors(): (ds: (Deflector, Deflector, Deflector))
      reads this
    {
      (gunShiftDeflector, beamShiftDeflector, imageShiftDeflector)
    }

    /** Gun shift, two condenser lenses, condenser aperture. The gun-shift deflector is the
        only deflector in the chain, so the beam-shift deflector is not part of it unless it
        equals the gun shift; the chain passes every well-formed beam through unchanged. */
    function PreSampleComponents(): (cs: seq<Component>)
      reads this
      ensures DeflectorPart(gunShiftDeflector) in cs
      ensures forall d :: DeflectorPart(d) in cs ==> d == gunShiftDeflector
      ensures DeflectorPart(beamShiftDeflector) in cs <==> beamShiftDeflector == gunShiftDeflector
      ensures forall beam :: WellFormed(math, beam) ==> Fold(math, cs, beam) == beam
    {
      var cs := [DeflectorPart(gunShiftDeflector), LensPart(condenserLens1), LensPart(condenserLens2),
                 AperturePart(condenserAperture)];
      ChainPassesThrough(math, cs);
      cs
    }

    /** Objective lens and aperture, image shift, selected-area aperture, intermediate and
        projector lenses. The image-shift deflector is the only deflector in the chain, and
        the chain passes every well-formed beam through unchanged. */
    function PostSampleComponents(): (cs: seq<Component>)
      reads this
      ensures DeflectorPart(imageShiftDeflector) in cs
      ensures forall d :: DeflectorPart(d) in cs ==> d == imageShiftDeflector
      ensures DeflectorPart(gunShiftDeflector) in cs <==> gunShiftDeflector == imageShiftDeflector
      ensures DeflectorPart(beamShiftDeflector) in cs <==> beamShiftDeflector == imageShiftDeflector
      ensures forall beam :: WellFormed(math, beam) ==> Fold(math, cs, beam) == beam
    {
      var cs := [LensPart(objectiveLens), AperturePart(objectiveAperture), DeflectorPart(imageShiftDeflector),
                 AperturePart(selectedAreaAperture), LensPart(intermediateLens), LensPart(projectorLens)];
      ChainPassesThrough(math, cs);
      cs
    }

    /** A fresh microscope in `mag1` mode, no deflector shifted, with a stage at rest and its
        default population. */
    constructor (math: RealMath, camera: CameraConfig, world: World)
      ensures this.math == math && this.camera == camera
      ensures mode == "mag1" && Valid()
      ensures gunShiftDeflector == NewDeflector() && beamShiftDeflector == NewDeflector()
      ensures imageShiftDeflector == NewDeflector()
      ensures fresh(stage) && stage.world == world && stage.seed == DefaultRandomSeed
      ensures stage.x == 0.0 && stage.y == 0.0 && stage.z == 0.0
      ensures stage.alphaTilt == 0.0 && stage.betaTilt == 0.0 && stage.inPlaneRotation == 0.0
      ensures stage.rotation == Identity() && stage.origin == Vec3(0.0, 0.0, 0.0)
      ensures stage.crystal == CrystalFromDraws(world, DefaultRandomSeed)
      ensures stage.samples == Population(world, DefaultRandomSeed, DefaultNumCrystals,
                                          DefaultMinCrystalSize, DefaultMaxCrystalSize)
    {
      this.math := math;
      this.camera := camera;
      mode := FunctionModes[0];
      gunShiftDeflector := NewDeflector();
      beamShiftDeflector := NewDeflector();
      imageShiftDeflector := NewDeflector();
      stage := new Stage(world, DefaultNumCrystals, DefaultMinCrystalSize, DefaultMaxCrystalSize, DefaultRandomSeed);
    }

    /** The gun's beam passed through the pre-sample chain; every component passes it on
        unchanged, so it is the gun's beam. */
    method GetBeamOnStage() returns (beam: Beam)
      ensures beam == Fold(math, PreSampleComponents(), GetBeam(math, gun))
      ensures beam == GetBeam(math, gun)
    {
      beam := GetBeam(math, gun);
      ghost var seed := beam;
      var components := PreSampleComponents();
      for i := 0 to |components|
        invariant Fold(math, components, seed) == Fold(math, components[i..], beam)
        invariant beam == seed
      {
        beam := Propagate(math, components[i], beam);
        assert components[i..][1..] == components[i + 1..];
      }
      assert components[|components|..] == [];
    }

    /** A beam passed through the post-sample chain keeps its parameters. */
    method GetBeamOnDetectorFromStage(beam: Beam) returns (r: Beam)
      ensures r == Fold(math, PostSampleComponents(), beam)
      ensures SameParameters(r, beam) && WellFormed(math, r)
    {
      r := beam;
      var components := PostSampleComponents();
      for i := 0 to |components|
        invariant Fold(math, components, beam) == Fold(math, components[i..], r)
        invariant SameParameters(r, beam)
        invariant 0 < i ==> WellFormed(math, r)
      {
        r := Propagate(math, components[i], r);
        assert components[i..][1..] == components[i + 1..];
      }
      assert components[|components|..] == [];
    }

    /** Both chains in turn; the detector sees the gun's beam. */
    method GetBeamOnDetector() returns (r: Beam)
      ensures r == Fold(math, PostSampleComponents(), Fold(math, PreSampleComponents(), GetBeam(math, gun)))
      ensures r == GetBeam(math, gun)
    {
      var onStage := GetBeamOnStage();
      r := GetBeamOnDetectorFromStage(onStage);
      FoldPassThrough(math, PostSampleComponents(), onStage);
    }

    /** The current mode, always one of the five while the facade is valid. */
    function GetFunctionMode(): (r: string)
      reads this
      ensures Valid() ==> r in FunctionModes
    {
      mode
    }

    /** Switch to one of the five modes; any other name is refused and leaves the mode as it
        was. Nothing else changes either way. */
    method SetFunctionMode(value: string) returns (err: Option<TemError>)
      requires Valid()
      modifies this
      ensures Valid()
      ensures value in FunctionModes ==> mode == value && err == None
      ensures value !in FunctionModes ==> mode == old(mode) && err.Some? && err.value.TemValueError?
      ensures ShiftDeflectors() == old(ShiftDeflectors())
    {
      if value !in FunctionModes {
        return Some(TemValueError("Mode " + value + " not available"));
      }
      mode := value;
      err := None;
    }

    /** Render a frame with the default exposure and binning filling in for absent ones: a
        diffraction pattern in `diff` mode, an image in the other four. Both cover the
        extent of the beam on the stage, at the camera size divided down by the binning. */
    method GetImage(exposure: Option<real>, binsize: Option<int>) returns (frame: array2<real>)
      requires Lawful(math) && Normal(stage.rotation).z != 0.0
      requires 0 < (if binsize.Some? then binsize.value else camera.defaultBinsize)
      ensures var shape := RenderShape(camera, if binsize.Some? then binsize.value else camera.defaultBinsize);
        var ext := BeamExtent(math, GetBeam(math, gun));
        var c := SampleCoordinates(stage.rotation, stage.origin, shape, ext);
        && frame.Length0 == shape.rows && frame.Length1 == shape.cols
        && forall i, j :: 0 <= i < shape.rows && 0 <= j < shape.cols ==>
             frame[i, j] == if mode == "diff"
               then DiffractionValue(stage.world, stage.crystal, stage.rotation, stage.samples, c, shape, ext, i, j)
               else ImageValue(stage.world, stage.samples, stage.x, stage.y, ext, c.X[i][j], c.Y[i][j])
    {
      var e := if exposure.Some? then exposure.value else camera.defaultExposure;
      var b := if binsize.Some? then binsize.value else camera.defaultBinsize;
      if GetFunctionMode() == "diff" {
        frame := RenderDiffractionPattern(e, b);
      } else {
        frame := RenderImage(e, b);
      }
    }

    /** `_get_diffraction_pattern`: the stage's pattern over the beam's extent. */
    method RenderDiffractionPattern(exposure: real, binsize: int) returns (frame: array2<real>)
      requires Lawful(math) && Normal(stage.rotation).z != 0.0 && 0 < binsize
      ensures var shape := RenderShape(camera, binsize);
        var ext := BeamExtent(math, GetBeam(math, gun));
        var c := SampleCoordinates(stage.rotation, stage.origin, shape, ext);
        && frame.Length0 == shape.rows && frame.Length1 == shape.cols
        && forall i, j :: 0 <= i < shape.rows && 0 <= j < shape.cols ==>
             frame[i, j] == DiffractionValue(stage.world, stage.crystal, stage.rotation, stage.samples, c, shape, ext, i, j)
    {
      var beam := GetBeamOnStage();
      var ext := BeamExtent(math, beam);
      frame := stage.GetDiffractionPattern(RenderShape(camera, binsize), ext);
    }

    /** `_get_image`: the stage's image over the beam's extent. */
    method RenderImage(exposure: real, binsize: int) returns (frame: array2<real>)
      requires Lawful(math) && Normal(stage.rotation).z != 0.0 && 0 < binsize
      ensures var shape := RenderShape(camera, binsize);
        var ext := BeamExtent(math, GetBeam(math, gun));
        var c := SampleCoordinates(stage.rotation, stage.origin, shape, ext);
        && frame.Length0 == shape.rows && frame.Length1 == shape.cols
        && forall i, j :: 0 <= i < shape.rows && 0 <= j < shape.cols ==>
             frame[i, j] == ImageValue(stage.world, stage.samples, stage.x, stage.y, ext, c.X[i][j], c.Y[i][j])
    {
      var beam := GetBeamOnStage();
      var ext := BeamExtent(math, beam);
      frame := stage.GetImage(RenderShape(camera, binsize), ext);
    }

    /** The spot size as the source computes it: it reads attributes `_a` and `_b`, which a
        beam does not have, so the call always fails with an attribute error. */
    method GetSpotSizeAsWritten() returns (r: Result<real, TemError>)
      ensures r == Err(AttributeError("_a"))
    {
      var beam := GetBeamOnStage();
      r := SpotSizeOf(beam);
    }

    /** The spot size as intended: the sum of the two semi-axes of the beam on the stage,
        which is the gun's crossover size. */
    method GetSpotSize() returns (size: real)
      ensures size == gun.crossoverSize
    {
      var beam := GetBeamOnStage();
      size := beam.a + beam.b;
    }

    /** The magnification reported is the objective lens's own, which is 1. */
    function GetMagnification(): (r: real)
      ensures r == 1.0
    {
      DefaultLensUnitMagnification();
      Magnification(objectiveLens)
    }

    /** Reading the diffraction focus: refused outside `diff` mode when the caller asks for
        the check, and otherwise failing on the projector lens, which has no focus. */
    function GetDiffFocus(confirmMode: bool): (r: Result<real, TemError>)
      reads this
      ensures r.Err?
      ensures r.error.TemValueError? <==> confirmMode && mode != "diff"
    {
      if confirmMode && GetFunctionMode() != "diff" then
        Err(TemValueError("TEM must be in diffraction mode when setting diffraction focus"))
      else
        Err(AttributeError("focus"))
    }

    /** Setting the diffraction focus: the same mode check, and otherwise failing on the
        frozen objective lens; no state changes. */
    function SetDiffFocus(value: real, confirmMode: bool): (r: Result<(), TemError>)
      reads this
      ensures r.Err?
      ensures r.error.TemValueError? <==> confirmMode && mode != "diff"
    {
      if confirmMode && GetFunctionMode() != "diff" then
        Err(TemValueError("TEM must be in diffraction mode to set diffraction focus"))
      else
        Err(FrozenInstanceError("focus"))
    }

    function GetMagnificationAbsoluteIndex(): (r: Result<int, TemError>)
      ensures r.Err? && r.error == NotImplementedError
    {
      Err(NotImplementedError)
    }

    function GetMagnificationRanges(): (r: Result<map<string, seq<int>>, TemError>)
      ensures r.Err? && r.error == NotImplementedError
    {
      Err(NotImplementedError)
    }

    /** Each shift setter stores `(x, y)` on exactly one deflector. */
    method SetBeamShift(x: int, y: int)
      modifies this
      ensures beamShiftDeflector == WithShift(old(beamShiftDeflector), x, y)
      ensures gunShiftDeflector == old(gunShiftDeflector) && imageShiftDeflector == old(imageShiftDeflector)
      ensures mode == old(mode)
    {
      beamShiftDeflector := WithShift(beamShiftDeflector, x, y);
    }

    method SetGunShift(x: int, y: int)
      modifies this
      ensures gunShiftDeflector == WithShift(old(gunShiftDeflector), x, y)
      ensures beamShiftDeflector == old(beamShiftDeflector) && imageShiftDeflector == old(imageShiftDeflector)
      ensures mode == old(mode)
    {
      gunShiftDeflector := WithShift(gunShiftDeflector, x, y);
    }

    /** Image shift 1 and diffraction shift both drive the image-shift deflector. */
    method SetImageShift1(x: int, y: int)
      modifies this
      ensures imageShiftDeflector == WithShift(old(imageShiftDeflector), x, y)
      ensures gunShiftDeflector == old(gunShiftDeflector) && beamShiftDeflector == old(beamShiftDeflector)
      ensures mode == old(mode)
    {
      imageShiftDeflector := WithShift(imageShiftDeflector, x, y);
    }

    method SetDiffShift(x: int, y: int)
      modifies this
      ensures imageShiftDeflector == WithShift(old(imageShiftDeflector), x, y)
      ensures gunShiftDeflector == old(gunShiftDeflector) && beamShiftDeflector == old(beamShiftDeflector)
      ensures mode == old(mode)
    {
      imageShiftDeflector := WithShift(imageShiftDeflector, x, y);
    }

    /** Forwarded to the stage as it is: an absent coordinate keeps its value, the
        orientation is recomputed, and the in-plane rotation, the origin, the crystal, the
        population and the generator's state are kept. The `wait` flag plays no part. */
    method SetStagePosition(x: Option<real>, y: Option<real>, z: Option<real>,
                            a: Option<real>, b: Option<real>, wait: bool)
      modifies stage
      ensures stage.x == Override(x, old(stage.x)) && stage.y == Override(y, old(stage.y))
      ensures stage.z == Override(z, old(stage.z))
      ensures stage.alphaTilt == Override(a, old(stage.alphaTilt))
      ensures stage.betaTilt == Override(b, old(stage.betaTilt))
      ensures stage.rotation == stage.world.fromEuler(stage.inPlaneRotation, stage.alphaTilt, stage.betaTilt)
      ensures stage.inPlaneRotation == old(stage.inPlaneRotation) && stage.origin == old(stage.origin)
      ensures stage.crystal == old(stage.crystal) && stage.drawn == old(stage.drawn)
      ensures stage.samples == old(stage.samples)
    {
      stage.SetPosition(x, y, z, a, b);
    }
  }

  /** Shifting a deflector never moves the beam: the detector still sees the gun's beam. A
      corollary of `GetBeamOnDetector`'s contract, kept to state the property on its own. */
  method ShiftedBeamUnchanged(tem: TemSimulation, x: int, y: int) returns (before: Beam, after: Beam)
    modifies tem
    ensures before == after
  {
    before := tem.GetBeamOnDetector();
    tem.SetGunShift(x, y);
    tem.SetImageShift1(x, y);
    after := tem.GetBeamOnDetector();
  }
}
