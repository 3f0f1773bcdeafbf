/** The simulated specimen stage (src/instamatic/camera/simulate/stage.py): a rigid-body
    position and orientation, a seeded population of crystals, the map from an image extent
    to stage coordinates, and the two renderers. */
module Stages {
  import opened Trig
  import opened LinearAlgebra
  import opened Samples
  import opened Results

  /** Lattice parameters of the one crystal structure every sample shares. */
  datatype Crystal = Crystal(a: real, b: real, c: real, alpha: real, beta: real, gamma: real)

  /** An output shape, `(shape[0], shape[1])`: rows, then columns. */
  datatype Shape = Shape(rows: nat, cols: nat)

  datatype Extent = Extent(xMin: real, xMax: real, yMin: real, yMax: real)

  /** The arguments of the crystal's diffraction-mask query. */
  datatype MaskQuery = MaskQuery(shape: Shape, dMin: real, rotation: Matrix3, wavelength: real,
                                 excitationError: real)

  /** Stage coordinates of every pixel, `X[i][j]` and `Y[i][j]`. */
  datatype Coordinates = Coordinates(X: seq<seq<real>>, Y: seq<seq<real>>)

  /** What the stage uses but does not define: trigonometry, the PCG64 stream (draw `k` of
      the stream seeded with `s`, a number in `[0, 1)`), the grid's radius and its support
      mask, the `ZXY` Euler-angle rotation in degrees, the crystal's rectangle test, and the
      crystal structure's diffraction mask, pixel by pixel. */
  datatype World = World(
    math: RealMath,
    pcg64: (int, nat) -> real,
    gridRadius: real,
    onSupport: (real, real) -> bool,
    fromEuler: (real, real, real) -> Matrix3,
    inRectangle: (Sample, Extent) -> bool,
    diffractionMask: (Crystal, MaskQuery, nat, nat) -> bool)

  ghost predicate UnitDraws(w: World) {
    forall s, k :: 0.0 <= w.pcg64(s, k) < 1.0
  }

  const DefaultNumCrystals := 10000
  const DefaultMinCrystalSize := 100.0
  const DefaultMaxCrystalSize := 1000.0
  const DefaultRandomSeed := 100

  // ---------------------------------------------------------------- the seeded population

  /** `uniform(lo, hi)` as draw number `k` of the stream. */
  function Draw(w: World, seed: int, k: nat, lo: real, hi: real): (v: real) {
    lo + (hi - lo) * w.pcg64(seed, k)
  }

  /** `lo + (hi - lo) u` lies in `[lo, hi)` for `u` in `[0, 1)`. */
  lemma UniformInRange(lo: real, hi: real, u: real)
    requires lo < hi && 0.0 <= u < 1.0
    ensures lo <= lo + (hi - lo) * u < hi
  {
    var d := hi - lo;
    ScaledBelow(d, u);
    calc { lo + (hi - lo) * u; == lo + d * u; < lo + d; == hi; }
    calc { lo; <= lo + d * u; == lo + (hi - lo) * u; }
  }

  /** A draw lands in `[lo, hi)`. */
  lemma DrawInRange(w: World, seed: int, k: nat, lo: real, hi: real)
    requires UnitDraws(w) && lo < hi
    ensures lo <= Draw(w, seed, k, lo, hi) < hi
  {
    var u := w.pcg64(seed, k);
    assert 0.0 <= u < 1.0;
    UniformInRange(lo, hi, u);
  }

  /** A draw lands in `[lo, hi)` whenever the stream yields unit draws. */
  lemma DrawInRangeWhenUnit(w: World, seed: int, k: nat, lo: real, hi: real)
    requires lo < hi
    ensures UnitDraws(w) ==> lo <= Draw(w, seed, k, lo, hi) < hi
  {
    if UnitDraws(w) {
      DrawInRange(w, seed, k, lo, hi);
    }
  }

  /** Draws 0..5: three lattice lengths in `[5, 25)`, then three angles in `[80, 110)`. */
  function CrystalFromDraws(w: World, seed: int): (c: Crystal)
    ensures UnitDraws(w) ==>
      && 5.0 <= c.a < 25.0 && 5.0 <= c.b < 25.0 && 5.0 <= c.c < 25.0
      && 80.0 <= c.alpha < 110.0 && 80.0 <= c.beta < 110.0 && 80.0 <= c.gamma < 110.0
  {
    DrawInRangeWhenUnit(w, seed, 0, 5.0, 25.0);
    DrawInRangeWhenUnit(w, seed, 1, 5.0, 25.0);
    DrawInRangeWhenUnit(w, seed, 2, 5.0, 25.0);
    DrawInRangeWhenUnit(w, seed, 3, 80.0, 110.0);
    DrawInRangeWhenUnit(w, seed, 4, 80.0, 110.0);
    DrawInRangeWhenUnit(w, seed, 5, 80.0, 110.0);
    Crystal(Draw(w, seed, 0, 5.0, 25.0), Draw(w, seed, 1, 5.0, 25.0), Draw(w, seed, 2, 5.0, 25.0),
            Draw(w, seed, 3, 80.0, 110.0), Draw(w, seed, 4, 80.0, 110.0), Draw(w, seed, 5, 80.0, 110.0))
  }

  /** Draws k..k+5 make one sample: x and y across the grid, the radius, then the Euler
      angles phi1 in `[0, 2 pi)`, psi in `[0, pi)` and phi2 in `[0, 2 pi)`. Its crystal
      index is the default 0 and, with lawful trigonometry, its orientation is a rotation. */
  function SampleFromDraws(w: World, seed: int, k: nat, minSize: real, maxSize: real): (s: Sample)
    ensures s.crystalIndex == 0
    ensures Lawful(w.math) ==> Orthogonal(s.rotation)
    ensures UnitDraws(w) && Lawful(w.math) && 0.0 < w.gridRadius && minSize < maxSize ==>
      && -w.gridRadius <= s.x < w.gridRadius && -w.gridRadius <= s.y < w.gridRadius
      && minSize <= s.r < maxSize
      && 0.0 <= s.eulerAnglePhi1 < 2.0 * w.math.pi
      && 0.0 <= s.eulerAnglePsi < w.math.pi
      && 0.0 <= s.eulerAnglePhi2 < 2.0 * w.math.pi
  {
    SampleDrawsInRange(w, seed, k, minSize, maxSize);
    SampleOfDraws(w, seed, k, minSize, maxSize)
  }

  lemma SampleDrawsInRange(w: World, seed: int, k: nat, minSize: real, maxSize: real)
    ensures var s := SampleOfDraws(w, seed, k, minSize, maxSize);
      UnitDraws(w) && Lawful(w.math) && 0.0 < w.gridRadius && minSize < maxSize ==>
      && -w.gridRadius <= s.x < w.gridRadius && -w.gridRadius <= s.y < w.gridRadius
      && minSize <= s.r < maxSize
      && 0.0 <= s.eulerAnglePhi1 < 2.0 * w.math.pi
      && 0.0 <= s.eulerAnglePsi < w.math.pi
      && 0.0 <= s.eulerAnglePhi2 < 2.0 * w.math.pi
  {
    var R, pi := w.gridRadius, w.math.pi;
    if UnitDraws(w) && Lawful(w.math) && 0.0 < R && minSize < maxSize {
      DrawInRange(w, seed, k, -R, R);
      DrawInRange(w, seed, k + 1, -R, R);
      DrawInRange(w, seed, k + 2, minSize, maxSize);
      DrawInRange(w, seed, k + 3, 0.0, 2.0 * pi);
      DrawInRange(w, seed, k + 4, 0.0, pi);
      DrawInRange(w, seed, k + 5, 0.0, 2.0 * pi);
    }
  }

  /** The sample built from draws k..k+5. */
  function SampleOfDraws(w: World, seed: int, k: nat, minSize: real, maxSize: real): (s: Sample) {
    var R, pi := w.gridRadius, w.math.pi;
    NewSample(w.math,
              Draw(w, seed, k, -R, R), Draw(w, seed, k + 1, -R, R), Draw(w, seed, k + 2, minSize, maxSize),
              Draw(w, seed, k + 3, 0.0, 2.0 * pi), Draw(w, seed, k + 4, 0.0, pi),
              Draw(w, seed, k + 5, 0.0, 2.0 * pi), 0)
  }

  /** Sample number `i` consumes draws `6 + 6 i` to `6 + 6 i + 5`. */
  function Population(w: World, seed: int, n: nat, minSize: real, maxSize: real): (ss: seq<Sample>)
    ensures |ss| == n
  {
    seq(n, i requires 0 <= i < n => SampleFromDraws(w, seed, 6 + 6 * i, minSize, maxSize))
  }

  /** Every sample of the population is drawn from its stated intervals, has the default
      crystal index and an orthogonal orientation. */
  lemma PopulationInRange(w: World, seed: int, n: nat, minSize: real, maxSize: real, i: nat)
    requires UnitDraws(w) && Lawful(w.math) && 0.0 < w.gridRadius && minSize < maxSize && i < n
    ensures var s := Population(w, seed, n, minSize, maxSize)[i];
      && -w.gridRadius <= s.x < w.gridRadius && -w.gridRadius <= s.y < w.gridRadius
      && minSize <= s.r < maxSize
      && 0.0 <= s.eulerAnglePhi1 < 2.0 * w.math.pi
      && 0.0 <= s.eulerAnglePsi < w.math.pi
      && 0.0 <= s.eulerAnglePhi2 < 2.0 * w.math.pi
      && s.crystalIndex == 0
      && Orthogonal(s.rotation)
  {
  }

  // ---------------------------------------------------- from an image extent to the stage

  /** `lo + (hi - lo) f` lies between `lo` and `hi` for `f` in `[0, 1]`. */
  lemma BetweenEnds(lo: real, hi: real, f: real)
    requires lo <= hi && 0.0 <= f <= 1.0
    ensures lo <= lo + (hi - lo) * f <= hi
  {
    var d := hi - lo;
    ScaledBetween(d, f);
    calc { lo + (hi - lo) * f; == lo + d * f; <= lo + d; == hi; }
    calc { lo; <= lo + d * f; == lo + (hi - lo) * f; }
  }

  /** `numpy.linspace(lo, hi, n)[k]`. */
  function Linspace(lo: real, hi: real, n: nat, k: nat): (r: real)
    requires k < n
    ensures k == 0 ==> r == lo
    ensures 1 < n && k == n - 1 ==> r == hi
    ensures lo <= hi ==> lo <= r <= hi
  {
    if n == 1 then lo
    else
      var f := (k as real) / ((n - 1) as real);
      assert 0.0 <= f <= 1.0 by {
        assert f * ((n - 1) as real) == k as real;
      }
      if lo <= hi then
        BetweenEnds(lo, hi, f);
        lo + (hi - lo) * f
      else
        lo + (hi - lo) * f
  }

  /** The plane normal `R e_z`. */
  function Normal(rotation: Matrix3): (n: Vec3) {
    Apply(rotation, Vec3(0.0, 0.0, 1.0))
  }

  /** Where the line through the grid point `(gx, gy, 0)` along `e_z` meets the plane through
      `origin` with normal `R e_z`: the point keeps `x` and `y`, and lies on the plane. A line
      parallel to the plane (normal with no `z` part) has no such point. */
  function Intersection(rotation: Matrix3, origin: Vec3, gx: real, gy: real): (p: Vec3)
    requires Normal(rotation).z != 0.0
    ensures p.x == gx && p.y == gy
    ensures Dot(Sub(p, origin), Normal(rotation)) == 0.0
  {
    var n := Normal(rotation);
    var l0 := Vec3(gx, gy, 0.0);
    var d := Dot(Sub(origin, l0), n) / Dot(Vec3(0.0, 0.0, 1.0), n);
    assert d * n.z == Dot(Sub(origin, l0), n);
    Vec3(gx, gy, 0.0 + d)
  }

  /** The stage coordinates of grid point `(gx, gy)`: the intersection, taken back through
      `R^T`. */
  function StagePoint(rotation: Matrix3, origin: Vec3, gx: real, gy: real): (p: Vec3)
    requires Normal(rotation).z != 0.0
  {
    Apply(Transpose(rotation), Intersection(rotation, origin, gx, gy))
  }

  predicate Shaped(c: Coordinates, rows: nat, cols: nat) {
    && |c.X| == rows && |c.Y| == rows
    && (forall i :: 0 <= i < rows ==> |c.X[i]| == cols && |c.Y[i]| == cols)
  }

  /** `image_extent_to_sample_coordinates`: pixel `(i, j)` sits at column `j` of the x range
      and row `i` of the y range. */
  function SampleCoordinates(rotation: Matrix3, origin: Vec3, shape: Shape, ext: Extent): (c: Coordinates)
    requires Normal(rotation).z != 0.0
    ensures Shaped(c, shape.rows, shape.cols)
    ensures forall i, j :: 0 <= i < shape.rows && 0 <= j < shape.cols ==>
      var p := StagePoint(rotation, origin, Linspace(ext.xMin, ext.xMax, shape.cols, j),
                          Linspace(ext.yMin, ext.yMax, shape.rows, i));
      c.X[i][j] == p.x && c.Y[i][j] == p.y
  {
    var P := (i: nat, j: nat) requires i < shape.rows && j < shape.cols =>
      StagePoint(rotation, origin, Linspace(ext.xMin, ext.xMax, shape.cols, j),
                 Linspace(ext.yMin, ext.yMax, shape.rows, i));
    Coordinates(seq(shape.rows, i requires 0 <= i < shape.rows => seq(shape.cols, j requires 0 <= j < shape.cols => P(i, j).x)),
                seq(shape.rows, i requires 0 <= i < shape.rows => seq(shape.cols, j requires 0 <= j < shape.cols => P(i, j).y)))
  }

  /** At the rest position (no rotation, origin at zero) the coordinates are the grid itself,
      so the first and last pixels hold the corners of the extent. */
  lemma RestCoordinatesAreGrid(shape: Shape, ext: Extent, i: nat, j: nat)
    requires i < shape.rows && j < shape.cols
    ensures var c := SampleCoordinates(Identity(), Vec3(0.0, 0.0, 0.0), shape, ext);
      && c.X[i][j] == Linspace(ext.xMin, ext.xMax, shape.cols, j)
      && c.Y[i][j] == Linspace(ext.yMin, ext.yMax, shape.rows, i)
      && c.X[0][0] == ext.xMin && c.Y[0][0] == ext.yMin
      && (1 < shape.rows && 1 < shape.cols ==>
           c.X[shape.rows - 1][shape.cols - 1] == ext.xMax && c.Y[shape.rows - 1][shape.cols - 1] == ext.yMax)
  {
    var c := SampleCoordinates(Identity(), Vec3(0.0, 0.0, 0.0), shape, ext);
    assert c.X[0][0] == StagePoint(Identity(), Vec3(0.0, 0.0, 0.0), Linspace(ext.xMin, ext.xMax, shape.cols, 0),
                                   Linspace(ext.yMin, ext.yMax, shape.rows, 0)).x;
  }

  // ------------------------------------------------------------------------ get_image

  /** The cheap distance prefilter: a sample further than `sqrt(1.5)` extent widths from the
      stage position is skipped. */
  predicate FarAway(s: Sample, sx: real, sy: real, ext: Extent) {
    (s.x - sx) * (s.x - sx) + (s.y - sy) * (s.y - sy) > 1.5 * ((ext.xMax - ext.xMin) * (ext.xMax - ext.xMin))
  }

  /** Sample `s` paints the point. */
  predicate Paints(s: Sample, sx: real, sy: real, ext: Extent, px: real, py: real) {
    !FarAway(s, sx, sy, ext) && ContainsPoint(s, px, py)
  }

  /** The index of the last of the first `n` samples that paints the point, or -1. */
  function LastPainter(ss: seq<Sample>, n: nat, sx: real, sy: real, ext: Extent, px: real, py: real): (r: int)
    requires n <= |ss|
    ensures -1 <= r < n
    ensures 0 <= r ==> Paints(ss[r], sx, sy, ext, px, py)
    ensures forall k :: r < k < n ==> !Paints(ss[k], sx, sy, ext, px, py)
  {
    if n == 0 then -1
    else if Paints(ss[n - 1], sx, sy, ext, px, py) then n - 1
    else LastPainter(ss, n - 1, sx, sy, ext, px, py)
  }

  /** The painted value after the first `n` samples: the painter's index, or the zero the
      image starts from. Sample 0 paints the same zero, so the value is zero exactly when no
      later sample paints the point. */
  function PaintedValue(ss: seq<Sample>, n: nat, sx: real, sy: real, ext: Extent, px: real, py: real): (v: real)
    requires n <= |ss|
    ensures 0.0 <= v && (0 < n ==> v < n as real)
    ensures v == 0.0 <==> forall k :: 0 < k < n ==> !Paints(ss[k], sx, sy, ext, px, py)
  {
    var r := LastPainter(ss, n, sx, sy, ext, px, py);
    if r < 0 then 0.0 else r as real
  }

  /** One pixel of `get_image`: the painted value, plus 1000 where the grid supports the point.
      A supported point reads at least 1000, and a pixel reads zero exactly when it is off
      the support and no sample after the first paints it. */
  function ImageValue(w: World, ss: seq<Sample>, sx: real, sy: real, ext: Extent, px: real, py: real): (v: real)
    ensures 0.0 <= v && (w.onSupport(px, py) ==> 1000.0 <= v)
    ensures v == 0.0 <==> !w.onSupport(px, py) && forall k :: 0 < k < |ss| ==> !Paints(ss[k], sx, sy, ext, px, py)
  {
    PaintedValue(ss, |ss|, sx, sy, ext, px, py) + if w.onSupport(px, py) then 1000.0 else 0.0
  }

  /** A sample the prefilter skips can be replaced by any other skipped sample without
      changing any pixel. */
  lemma {:induction false} FarSampleIgnored(ss: seq<Sample>, n: nat, k: nat, s': Sample,
                                            sx: real, sy: real, ext: Extent, px: real, py: real)
    requires n <= |ss| && k < |ss|
    requires FarAway(ss[k], sx, sy, ext) && FarAway(s', sx, sy, ext)
    ensures LastPainter(ss[k := s'], n, sx, sy, ext, px, py) == LastPainter(ss, n, sx, sy, ext, px, py)
    decreases n
  {
    if n > 0 {
      FarSampleIgnored(ss, n - 1, k, s', sx, sy, ext, px, py);
    }
  }

  /** With at most 1000 samples the encoding is unambiguous: the value is at least 1000 exactly
      on the grid's support, and what remains is the painter's index. */
  lemma ImageValueDecodes(w: World, ss: seq<Sample>, sx: real, sy: real, ext: Extent, px: real, py: real)
    requires |ss| <= 1000
    ensures var v := ImageValue(w, ss, sx, sy, ext, px, py);
      && (1000.0 <= v <==> w.onSupport(px, py))
      && (v - (if w.onSupport(px, py) then 1000.0 else 0.0) == PaintedValue(ss, |ss|, sx, sy, ext, px, py))
  {
    var r := LastPainter(ss, |ss|, sx, sy, ext, px, py);
    assert r < 1000;
  }

  /** With more than 1000 samples the encoding collides: a point off the support painted by
      sample 1000 reads the same as a point on the support painted by sample 0 or by none. */
  lemma ImageValueCollision(w: World, ss: seq<Sample>, sx: real, sy: real, ext: Extent,
                            px: real, py: real, qx: real, qy: real)
    requires 1000 < |ss|
    requires !w.onSupport(px, py) && LastPainter(ss, |ss|, sx, sy, ext, px, py) == 1000
    requires w.onSupport(qx, qy) && LastPainter(ss, |ss|, sx, sy, ext, qx, qy) <= 0
    ensures ImageValue(w, ss, sx, sy, ext, px, py) == ImageValue(w, ss, sx, sy, ext, qx, qy) == 1000.0
  {
  }

  // ---------------------------------------------------------- get_diffraction_pattern

  /** `np.all(grid_mask[pos])`: every pixel the sample covers is on the grid's support. It
      holds trivially for a sample that covers no pixel. */
  predicate WhollyOnGrid(w: World, s: Sample, c: Coordinates, shape: Shape)
    requires Shaped(c, shape.rows, shape.cols)
    ensures (forall i, j :: 0 <= i < shape.rows && 0 <= j < shape.cols ==> !ContainsPoint(s, c.X[i][j], c.Y[i][j]))
      ==> WhollyOnGrid(w, s, c, shape)
  {
    forall i, j :: 0 <= i < shape.rows && 0 <= j < shape.cols && ContainsPoint(s, c.X[i][j], c.Y[i][j]) ==>
      w.onSupport(c.X[i][j], c.Y[i][j])
  }

  /** A sample adds its reflections when it passes the rectangle test and is not wholly on
      the grid. */
  predicate Diffracts(w: World, s: Sample, c: Coordinates, shape: Shape, ext: Extent)
    requires Shaped(c, shape.rows, shape.cols)
  {
    w.inRectangle(s, ext) && !WhollyOnGrid(w, s, c, shape)
  }

  /** The mask query for one sample: `d_min = 1`, the stage orientation times the sample's,
      wavelength 0.02 and excitation error 0.01. */
  function Query(shape: Shape, stageRotation: Matrix3, s: Sample): (q: MaskQuery) {
    MaskQuery(shape, 1.0, Mul(stageRotation, s.rotation), 0.02, 0.01)
  }

  /** Pixel `(i, j)` of the reflections after the first `n` samples: once lit, a pixel stays
      lit, and only a sample that diffracts can light it. */
  predicate Reflected(w: World, crystal: Crystal, rotation: Matrix3, ss: seq<Sample>, n: nat,
                      c: Coordinates, shape: Shape, ext: Extent, i: nat, j: nat)
    requires n <= |ss| && Shaped(c, shape.rows, shape.cols)
    ensures Reflected(w, crystal, rotation, ss, n, c, shape, ext, i, j) ==>
      exists k :: 0 <= k < n && Diffracts(w, ss[k], c, shape, ext)
                  && w.diffractionMask(crystal, Query(shape, rotation, ss[k]), i, j)
    decreases n
  {
    n > 0 && (Reflected(w, crystal, rotation, ss, n - 1, c, shape, ext, i, j)
              || (Diffracts(w, ss[n - 1], c, shape, ext)
                  && w.diffractionMask(crystal, Query(shape, rotation, ss[n - 1]), i, j)))
  }

  /** The accumulated OR: some earlier sample diffracts and its mask is set at the pixel. */
  lemma {:induction false} ReflectedIff(w: World, crystal: Crystal, rotation: Matrix3, ss: seq<Sample>, n: nat,
                                        c: Coordinates, shape: Shape, ext: Extent, i: nat, j: nat)
    requires n <= |ss| && Shaped(c, shape.rows, shape.cols)
    ensures Reflected(w, crystal, rotation, ss, n, c, shape, ext, i, j) <==>
      exists k :: 0 <= k < n && Diffracts(w, ss[k], c, shape, ext)
                  && w.diffractionMask(crystal, Query(shape, rotation, ss[k]), i, j)
    decreases n
  {
    if n > 0 {
      ReflectedIff(w, crystal, rotation, ss, n - 1, c, shape, ext, i, j);
      if Diffracts(w, ss[n - 1], c, shape, ext) && w.diffractionMask(crystal, Query(shape, rotation, ss[n - 1]), i, j) {
        assert n - 1 < n;
      }
    }
  }

  /** The intensity scale `1 / (3 k^2 + 1)` at pixel `(i, j)` of the reciprocal grid that
      spans `[-1/d_min, 1/d_min]` both ways, with `d_min = 1`; it lies in `(0, 1]`. */
  function Scale(shape: Shape, i: nat, j: nat): (v: real)
    requires i < shape.rows && j < shape.cols
    ensures 0.0 < v <= 1.0
  {
    var dMin := 1.0;
    var kx := Linspace(-1.0 / dMin, 1.0 / dMin, shape.cols, j);
    var ky := Linspace(-1.0 / dMin, 1.0 / dMin, shape.rows, i);
    var k2 := kx * kx + ky * ky;
    SquareNonNegative(kx);
    SquareNonNegative(ky);
    var d := 3.0 * k2 + 1.0;
    assert 1.0 <= d;
    assert (1.0 / d) * d == 1.0;
    1.0 / d
  }

  /** One pixel of `get_diffraction_pattern`: the scale where reflected, zero elsewhere. */
  function DiffractionValue(w: World, crystal: Crystal, rotation: Matrix3, ss: seq<Sample>,
                            c: Coordinates, shape: Shape, ext: Extent, i: nat, j: nat): (v: real)
    requires Shaped(c, shape.rows, shape.cols) && i < shape.rows && j < shape.cols
    ensures v == 0.0 || v == Scale(shape, i, j)
    ensures v != 0.0 <==> Reflected(w, crystal, rotation, ss, |ss|, c, shape, ext, i, j)
  {
    if Reflected(w, crystal, rotation, ss, |ss|, c, shape, ext, i, j) then Scale(shape, i, j) else 0.0
  }

  // -------------------------------------------------------------------------- the class

  /** Keep `current` unless a new value is supplied. */
  function Override(value: Option<real>, current: real): (r: real) {
    if value.Some? then value.value else current
  }

  class Stage {
    const world: World
    var x: real
    var y: real
    var z: real
    var alphaTilt: real
    var betaTilt: real
    var inPlaneRotation: real
    var rotation: Matrix3
    var origin: Vec3
    /** The generator: its seed, and how many draws it has handed out. */
    const seed: int
    var drawn: nat
    var crystal: Crystal
    var samples: seq<Sample>

    /** The stage at rest, and a population drawn in a fixed order from the seeded stream:
        six draws for the crystal, then six for each sample. */
    constructor (world: World, numCrystals: int, minCrystalSize: real, maxCrystalSize: real, randomSeed: int)
      ensures this.world == world && seed == randomSeed
      ensures x == 0.0 && y == 0.0 && z == 0.0
      ensures alphaTilt == 0.0 && betaTilt == 0.0 && inPlaneRotation == 0.0
      ensures rotation == Identity() && origin == Vec3(0.0, 0.0, 0.0)
      ensures crystal == CrystalFromDraws(world, randomSeed)
      ensures |samples| == if numCrystals < 0 then 0 else numCrystals
      ensures samples == Population(world, randomSeed, |samples|, minCrystalSize, maxCrystalSize)
      ensures drawn == 6 + 6 * |samples|
    {
      this.world := world;
      x, y, z := 0.0, 0.0, 0.0;
      alphaTilt, betaTilt, inPlaneRotation := 0.0, 0.0, 0.0;
      rotation := Identity();
      origin := Vec3(0.0, 0.0, 0.0);
      seed := randomSeed;
      crystal := CrystalFromDraws(world, randomSeed);
      var n: nat := if numCrystals < 0 then 0 else numCrystals;
      var k: nat := 6;
      var ss: seq<Sample> := [];
      while |ss| < n
        invariant |ss| <= n && k == 6 + 6 * |ss|
        invariant ss == Population(world, randomSeed, |ss|, minCrystalSize, maxCrystalSize)
        decreases n - |ss|
      {
        ss := ss + [SampleFromDraws(world, randomSeed, k, minCrystalSize, maxCrystalSize)];
        k := k + 6;
      }
      samples := ss;
      drawn := k;
    }

    /** Move and tilt: each supplied coordinate is stored, the others are kept, and the
        orientation is recomputed from the in-plane rotation and the two tilts every time. */
    method SetPosition(x: Option<real>, y: Option<real>, z: Option<real>,
                       alphaTilt: Option<real>, betaTilt: Option<real>)
      modifies this
      ensures this.x == Override(x, old(this.x)) && this.y == Override(y, old(this.y))
      ensures this.z == Override(z, old(this.z))
      ensures this.alphaTilt == Override(alphaTilt, old(this.alphaTilt))
      ensures this.betaTilt == Override(betaTilt, old(this.betaTilt))
      ensures rotation == world.fromEuler(inPlaneRotation, this.alphaTilt, this.betaTilt)
      ensures inPlaneRotation == old(inPlaneRotation) && origin == old(origin)
      ensures drawn == old(drawn) && crystal == old(crystal) && samples == old(samples)
    {
      if x.Some? { this.x := x.value; }
      if y.Some? { this.y := y.value; }
      if z.Some? { this.z := z.value; }
      if alphaTilt.Some? { this.alphaTilt := alphaTilt.value; }
      if betaTilt.Some? { this.betaTilt := betaTilt.value; }
      rotation := world.fromEuler(inPlaneRotation, this.alphaTilt, this.betaTilt);
    }

    /** The stage coordinates of every pixel of an image of `shape` covering `ext`. */
    function ImageExtentToSampleCoordinates(shape: Shape, ext: Extent): (c: Coordinates)
      reads this
      requires Normal(rotation).z != 0.0
      ensures Shaped(c, shape.rows, shape.cols)
    {
      SampleCoordinates(rotation, origin, shape, ext)
    }

    /** The rendered image: pixel `(i, j)` holds the index of the last sample, in list order,
        that passes the distance prefilter and contains the pixel's stage point (0 if none),
        plus 1000 where the grid supports that point. */
    method GetImage(shape: Shape, ext: Extent) returns (img: array2<real>)
      requires Normal(rotation).z != 0.0
      ensures img.Length0 == shape.rows && img.Length1 == shape.cols
      ensures var c := SampleCoordinates(rotation, origin, shape, ext);
        forall i, j :: 0 <= i < shape.rows && 0 <= j < shape.cols ==>
          img[i, j] == ImageValue(world, samples, x, y, ext, c.X[i][j], c.Y[i][j])
    {
      var c := ImageExtentToSampleCoordinates(shape, ext);
      img := new real[shape.rows, shape.cols]((i, j) => 0.0);
      for k := 0 to |samples|
        invariant forall i, j :: 0 <= i < shape.rows && 0 <= j < shape.cols ==>
          img[i, j] == PaintedValue(samples, k, x, y, ext, c.X[i][j], c.Y[i][j])
      {
        if FarAway(samples[k], x, y, ext) {
          continue;
        }
        Paint(img, c, samples[k], k);
      }
      AddOnSupport(img, c, world.onSupport);
    }

    /** The rendered diffraction pattern: where some sample that passes the rectangle test
        and is not wholly on the grid has its reflection mask set, the pixel holds the scale
        `1 / (3 k^2 + 1)`; everywhere else it is 0. */
    method GetDiffractionPattern(shape: Shape, ext: Extent) returns (pattern: array2<real>)
      requires Normal(rotation).z != 0.0
      ensures pattern.Length0 == shape.rows && pattern.Length1 == shape.cols
      ensures var c := SampleCoordinates(rotation, origin, shape, ext);
        forall i, j :: 0 <= i < shape.rows && 0 <= j < shape.cols ==>
          pattern[i, j] == DiffractionValue(world, crystal, rotation, samples, c, shape, ext, i, j)
    {
      var c := ImageExtentToSampleCoordinates(shape, ext);
      var reflections := new bool[shape.rows, shape.cols]((i, j) => false);
      for k := 0 to |samples|
        invariant forall i, j :: 0 <= i < shape.rows && 0 <= j < shape.cols ==>
          reflections[i, j] == Reflected(world, crystal, rotation, samples, k, c, shape, ext, i, j)
      {
        if !world.inRectangle(samples[k], ext) {
          continue;
        }
        if WhollyOnGrid(world, samples[k], c, shape) {
          continue;
        }
        OrMask(reflections, world, crystal, Query(shape, rotation, samples[k]));
      }
      pattern := new real[shape.rows, shape.cols]((i, j) => if 0 <= i < shape.rows && 0 <= j < shape.cols then Scale(shape, i, j) else 0.0);
      ZeroWhereDark(pattern, reflections);
    }
  }

  /** `sample_data[pos] = k`: paint value `k` wherever the sample contains the pixel's point. */
  method Paint(img: array2<real>, c: Coordinates, s: Sample, k: nat)
    requires Shaped(c, img.Length0, img.Length1)
    modifies img
    ensures forall i, j :: 0 <= i < img.Length0 && 0 <= j < img.Length1 ==>
      img[i, j] == if ContainsPoint(s, c.X[i][j], c.Y[i][j]) then k as real else old(img[i, j])
  {
    for i := 0 to img.Length0
      invariant forall i', j :: 0 <= i' < i && 0 <= j < img.Length1 ==>
        img[i', j] == if ContainsPoint(s, c.X[i'][j], c.Y[i'][j]) then k as real else old(img[i', j])
      invariant forall i', j :: i <= i' < img.Length0 && 0 <= j < img.Length1 ==> img[i', j] == old(img[i', j])
    {
      for j := 0 to img.Length1
        invariant forall i', j' :: 0 <= i' < i && 0 <= j' < img.Length1 ==>
          img[i', j'] == if ContainsPoint(s, c.X[i'][j'], c.Y[i'][j']) then k as real else old(img[i', j'])
        invariant forall j' :: 0 <= j' < j ==>
          img[i, j'] == if ContainsPoint(s, c.X[i][j'], c.Y[i][j']) then k as real else old(img[i, j'])
        invariant forall i', j' :: i <= i' < img.Length0 && 0 <= j' < img.Length1 && (i' > i || j' >= j) ==>
          img[i', j'] == old(img[i', j'])
      {
        if ContainsPoint(s, c.X[i][j], c.Y[i][j]) {
          img[i, j] := k as real;
        }
      }
    }
  }

  /** `sample_data[grid_mask] += 1000`. */
  method AddOnSupport(img: array2<real>, c: Coordinates, onSupport: (real, real) -> bool)
    requires Shaped(c, img.Length0, img.Length1)
    modifies img
    ensures forall i, j :: 0 <= i < img.Length0 && 0 <= j < img.Length1 ==>
      img[i, j] == old(img[i, j]) + if onSupport(c.X[i][j], c.Y[i][j]) then 1000.0 else 0.0
  {
    for i := 0 to img.Length0
      invariant forall i', j :: 0 <= i' < i && 0 <= j < img.Length1 ==>
        img[i', j] == old(img[i', j]) + if onSupport(c.X[i'][j], c.Y[i'][j]) then 1000.0 else 0.0
      invariant forall i', j :: i <= i' < img.Length0 && 0 <= j < img.Length1 ==> img[i', j] == old(img[i', j])
    {
      for j := 0 to img.Length1
        invariant forall i', j' :: 0 <= i' < i && 0 <= j' < img.Length1 ==>
          img[i', j'] == old(img[i', j']) + if onSupport(c.X[i'][j'], c.Y[i'][j']) then 1000.0 else 0.0
        invariant forall j' :: 0 <= j' < j ==>
          img[i, j'] == old(img[i, j']) + if onSupport(c.X[i][j'], c.Y[i][j']) then 1000.0 else 0.0
        invariant forall i', j' :: i <= i' < img.Length0 && 0 <= j' < img.Length1 && (i' > i || j' >= j) ==>
          img[i', j'] == old(img[i', j'])
      {
        if onSupport(c.X[i][j], c.Y[i][j]) {
          img[i, j] := img[i, j] + 1000.0;
        }
      }
    }
  }

  /** `reflections |= mask`. */
  method OrMask(reflections: array2<bool>, w: World, crystal: Crystal, q: MaskQuery)
    modifies reflections
    ensures forall i, j :: 0 <= i < reflections.Length0 && 0 <= j < reflections.Length1 ==>
      reflections[i, j] == (old(reflections[i, j]) || w.diffractionMask(crystal, q, i, j))
  {
    for i := 0 to reflections.Length0
      invariant forall i', j :: 0 <= i' < i && 0 <= j < reflections.Length1 ==>
        reflections[i', j] == (old(reflections[i', j]) || w.diffractionMask(crystal, q, i', j))
      invariant forall i', j :: i <= i' < reflections.Length0 && 0 <= j < reflections.Length1 ==>
        reflections[i', j] == old(reflections[i', j])
    {
      for j := 0 to reflections.Length1
        invariant forall i', j' :: 0 <= i' < i && 0 <= j' < reflections.Length1 ==>
          reflections[i', j'] == (old(reflections[i', j']) || w.diffractionMask(crystal, q, i', j'))
        invariant forall j' :: 0 <= j' < j ==>
          reflections[i, j'] == (old(reflections[i, j']) || w.diffractionMask(crystal, q, i, j'))
        invariant forall i', j' :: i <= i' < reflections.Length0 && 0 <= j' < reflections.Length1 && (i' > i || j' >= j) ==>
          reflections[i', j'] == old(reflections[i', j'])
      {
        reflections[i, j] := reflections[i, j] || w.diffractionMask(crystal, q, i, j);
      }
    }
  }

  /** `scale[~reflections] = 0`. */
  method ZeroWhereDark(pattern: array2<real>, reflections: array2<bool>)
    requires reflections.Length0 == pattern.Length0 && reflections.Length1 == pattern.Length1
    modifies pattern
    ensures forall i, j :: 0 <= i < pattern.Length0 && 0 <= j < pattern.Length1 ==>
      pattern[i, j] == if reflections[i, j] then old(pattern[i, j]) else 0.0
  {
    for i := 0 to pattern.Length0
      invariant forall i', j :: 0 <= i' < i && 0 <= j < pattern.Length1 ==>
        pattern[i', j] == if reflections[i', j] then old(pattern[i', j]) else 0.0
      invariant forall i', j :: i <= i' < pattern.Length0 && 0 <= j < pattern.Length1 ==> pattern[i', j] == old(pattern[i', j])
    {
      for j := 0 to pattern.Length1
        invariant forall i', j' :: 0 <= i' < i && 0 <= j' < pattern.Length1 ==>
          pattern[i', j'] == if reflections[i', j'] then old(pattern[i', j']) else 0.0
        invariant forall j' :: 0 <= j' < j ==>
          pattern[i, j'] == if reflections[i, j'] then old(pattern[i, j']) else 0.0
        invariant forall i', j' :: i <= i' < pattern.Length0 && 0 <= j' < pattern.Length1 && (i' > i || j' >= j) ==>
          pattern[i', j'] == old(pattern[i', j'])
      {
        if !reflections[i, j] {
          pattern[i, j] := 0.0;
        }
      }
    }
  }
}
