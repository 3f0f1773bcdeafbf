# Instrument simulator of instamatic, modelled in Dafny

This project models the simulated transmission electron microscope of instamatic. It covers
the packages `src/instamatic/simulation/` and `src/instamatic/camera/simulate/` and proves
properties of the model.

- **Beam** (`beam.dfy`). An electron beam's cross-section is an ellipse: semi-axes `a`, `b`,
  rotation `t` and centre `(x0, y0)`. Conic coefficients A..F are derived from these once,
  when the beam is built.
  - The point-in-beam test is strict.
  - Points are built from polar angles. The "internal" and "external" boxes are built from
    those points.
  - Copying a beam builds a new one from the same five parameters.
- **Optical chain** (`optical_component.dfy`, `gun.dfy`, `lens.dfy`, `deflector.dfy`,
  `aperture.dfy`, `optical_chain.dfy`, `illumination.dfy`).
  - The gun produces the seed beam.
  - Lenses, deflectors and apertures each pass a beam on as a copy.
  - A chain is the left fold of these over the seed beam. The illumination system runs that
    fold as a loop.
- **Sample** (`sample.dfy`). A crystal is a disc with strict membership. Its orientation is
  the product of three elementary rotations.
- **Stage** (`stage.dfy`). A class with the following parts:
  - a rigid-body position;
  - a seeded population drawn in a fixed order from a random stream;
  - the line–plane intersection that maps image pixels to stage coordinates;
  - two renderers over `array2`. The image renderer paints sample indices and adds 1000 on
    the grid's support. The diffraction renderer ORs reflection masks and scales them by
    `1 / (3 k^2 + 1)`.
- **Facade** (`tem.dfy`). The `TEMSimulation` class holds the following:
  - a five-state function-mode machine;
  - the pre-sample and post-sample chains;
  - image/diffraction dispatch and the frame's extent and shape;
  - deflector setters, mode-guarded methods and not-implemented methods.

Support modules:
- `trig.dfy` treats `pi`, `sin`, `cos` and `sqrt` as a value `RealMath`. `Lawful` lists the
  identities the proofs use: the unit circle, the half-turn and quarter-turn identities, the
  values at 0 and at `pi/4`, and the square-root law.
- `linear_algebra.dfy` holds 3x3 matrices, with associativity and orthogonality proved.
- `results.dfy` holds `Option` and `Result`.

Where the code and the documented design of the simulator differ, the model follows the code:

- A deflector does not recentre the beam. It returns a copy with the input's centre,
  whatever offset the facade stored on it (`Deflectors.NoRecentring`).
- The gun's seed beam is not a unit ellipse. Its semi-axes are half the crossover size
  (`Guns.GetBeam`).
- The A and C coefficients do not match the textbook ellipse. A adds `sin(t)^2` instead of
  multiplying it in, and C uses `cos(t)^2` twice. With `t = 0` the test therefore accepts the
  disc `(a^2 + b^2)(dx^2 + dy^2) < a^2 b^2` (`Beams.UnrotatedMembership`).
- For the seed beam that disc has radius `crossoverSize / (2 sqrt 2)`, and all four
  "internal box" corners lie outside the beam (`Guns.InternalBoxOutsideSeedBeam`).
- The polar radius squares sine and cosine twice. The "external box" is built from the points
  at 0 and `pi`. Both are at distance `a` in opposite directions, so the box collapses to a
  segment through the centre (`Beams.ExternalBoxDegenerate`). For the facade's default gun it
  spans `[-3e-9, 3e-9] x [0, 0]` (`Tem.DefaultExtent`).
- The image adds 1000 on the grid's support to the painting sample's index. That code can be
  read back only while there are at most 1000 samples (`Stages.ImageValueDecodes`). The
  facade's default stage has 10000, so values collide: sample 1000 off the support reads the
  same as sample 0 on it (`Stages.ImageValueCollision`). Sample 0 also paints the same 0 as
  the background.

## Model

| member | source | states |
|---|---|---|
| `Beams.ConicOf` | src/instamatic/simulation/beam.py:28-39 | the linear terms centre the conic on `(x0, y0)` at level `a^2 b^2`, so it equals `-a^2 b^2` there; with `t = 0`, A and C are both `a^2 + b^2` and B is 0 |
| `Beams.IsPointInBeam` | src/instamatic/simulation/beam.py:41-44 | when the linear terms centre the conic, a point is inside iff the quadratic part at its offset from the centre is below `A x0^2 + B x0 y0 + C y0^2 - F` |
| `Beams.CentredExpansion` | src/instamatic/simulation/beam.py:35-39 | D, E and F built from A, B, C and the centre make the conic equal the quadratic part at the offset from the centre, minus `a^2 b^2` |
| `Beams.InBeamIffOffsetForm` | src/instamatic/simulation/beam.py:35-44 | a point is in the beam iff `A dx^2 + B dx dy + C dy^2 < a^2 b^2`, whatever A, B, C are |
| `Beams.CentredBeamMembership` | src/instamatic/simulation/beam.py:35-44 | for any cached conic whose D, E, F centre A, B, C on the beam's centre at a level, a point is inside iff the quadratic part at its offset is below that level |
| `Beams.BoundaryIsOutside` | src/instamatic/simulation/beam.py:41-44 | the test is strict: a point where that quadratic equals `a^2 b^2` is not in the beam |
| `Beams.CentreInBeamIff` | src/instamatic/simulation/beam.py:35-44 | the centre is in the beam iff `a b != 0` |
| `Beams.CentreMembership` | src/instamatic/simulation/beam.py:35-44 | for a conic centred at level `a^2 b^2`, whatever A, B, C are, the centre is inside iff `a b != 0` |
| `Beams.UnrotatedMembership` | src/instamatic/simulation/beam.py:28-44 | with `t = 0` the computed coefficients accept exactly `(a^2 + b^2)(dx^2 + dy^2) < a^2 b^2` |
| `Beams.NewBeam` | src/instamatic/simulation/beam.py:18-39 | a new beam stores its five parameters, its coefficients are those of the parameters, and its centre is inside iff `a b != 0` |
| `Beams.Copy` | src/instamatic/simulation/beam.py:110-117 | the copy has the same a, b, t, x0, y0 and matching coefficients; a well-formed beam copies to an equal value |
| `Beams.PolarDenominatorPositive` | src/instamatic/simulation/beam.py:99-103 | for non-zero semi-axes the sum `(a sin^2)^2 + (b cos^2)^2` under the root is positive at every angle |
| `Beams.DiagonalDenominator` | src/instamatic/simulation/beam.py:58-61 | at the diagonal angles the sum is `(a/2)^2 + (b/2)^2`, positive iff the semi-axes are not both zero |
| `Beams.EndDenominators` | src/instamatic/simulation/beam.py:81-82 | at 0 and at pi the sum is `b^2` |
| `Beams.PolarRadius` | src/instamatic/simulation/beam.py:99-103 | wherever the denominator is positive, `r^2` times it is `a^2 b^2`, and `r > 0` when `a b > 0` |
| `Beams.CoordinatesFromPolar` | src/instamatic/simulation/beam.py:98-108 | the polar point lies at distance `r(theta)` from the centre |
| `Beams.RectangularInternalBox` | src/instamatic/simulation/beam.py:46-67 | defined unless both semi-axes are zero; all four corners lie at one distance from the centre, and opposite corners average to the centre |
| `Beams.RectangularExternalBox` | src/instamatic/simulation/beam.py:69-96 | defined unless `b` is zero; the corners form a parallelogram centred on the beam: opposite corners average to the centre |
| `Beams.PolarEnds` | src/instamatic/simulation/beam.py:81-108 | for `b > 0`, `r(0) = r(pi) = a`, and the two polar points are the centre plus and minus `a (cos t, sin t)` |
| `Beams.ExternalBoxDegenerate` | src/instamatic/simulation/beam.py:81-96 | corners 0 and 2 coincide with the centre; corners 1 and 3 are the centre minus and plus `2a (cos t, sin t)` |
| `Beams.DiagonalSquares` | src/instamatic/simulation/beam.py:58-61 | sine and cosine square to 1/2 at pi/4, 3pi/4, 5pi/4 and 7pi/4 |
| `Beams.HalfTurnReflects` | src/instamatic/simulation/beam.py:104-108 | the polar point half a turn on, at the same radius, is the reflection through the centre |
| `Beams.InternalBoxSymmetric` | src/instamatic/simulation/beam.py:58-67 | unless both semi-axes are zero, the four diagonal polar points share one radius, and the point at angle k+2 reflects the point at angle k through the centre |
| `OpticalComponents.PropagateBeam` | src/instamatic/simulation/optical_component.py:9-11 | the default propagation keeps the beam's parameters and depends on nothing but the beam |
| `OpticalComponents.PropagateIdempotent` | src/instamatic/simulation/optical_component.py:11 | propagating twice equals propagating once |
| `Guns.GetBeam` | src/instamatic/simulation/gun.py:27-36 | the seed beam has `a = b`, `a + b = crossoverSize`, `t = 0`, centre at the origin, and the centre is inside iff the crossover size is non-zero |
| `Guns.VariantSeedBeams` | src/instamatic/simulation/gun.py:45-74 | each variant keeps the caller's voltage and its seed semi-axis is half its tabulated crossover size |
| `Guns.SeedBeamIsDisc` | src/instamatic/simulation/gun.py:36 | under the computed coefficients the seed beam is exactly the open disc `8 (x^2 + y^2) < crossoverSize^2` |
| `Guns.DiagonalCornerOutside` | src/instamatic/simulation/gun.py:36 | a polar point of the seed beam at a diagonal angle lies outside the beam |
| `Guns.InternalBoxOutsideSeedBeam` | src/instamatic/simulation/gun.py:36 | none of the four internal-box corners of a seed beam is in the beam |
| `Lenses.Astigmatism` | src/instamatic/simulation/lens.py:36-38 | the pair is (astigmatism x, astigmatism y) |
| `Lenses.Magnification` | src/instamatic/simulation/lens.py:40-44 | for a non-zero convergence angle, magnification times convergence angle is the collection angle |
| `Lenses.EqualAnglesUnitMagnification` | src/instamatic/simulation/lens.py:44 | equal angles give magnification exactly 1 |
| `Lenses.DefaultLensUnitMagnification` | src/instamatic/simulation/tem.py:32 | the lens `Lens(0.1, 0.01, 0.01, 0, 0, 0, 0)` magnifies by exactly 1 |
| `Lenses.PropagateBeam` | src/instamatic/simulation/lens.py:46-60 | a lens returns a copy with unchanged parameters, equal to a well-formed input |
| `Lenses.PropagateIgnoresLens` | src/instamatic/simulation/lens.py:59-60 | the output is the same for every lens: focal length and aberrations play no part |
| `Deflectors.NewDeflector` | src/instamatic/simulation/tem.py:31 | a new deflector carries no shift |
| `Deflectors.WithShift` | src/instamatic/simulation/tem.py:258-260 | storing a shift records exactly `(x, y)` |
| `Deflectors.PropagateBeam` | src/instamatic/simulation/deflector.py:8-22 | a deflector returns a copy with equal a, b, t and centre |
| `Deflectors.NoRecentring` | src/instamatic/simulation/deflector.py:22 | whatever shift is stored, the output centre is the input centre and the output is that of an unshifted deflector |
| `Deflectors.PropagateIdempotent` | src/instamatic/simulation/deflector.py:22 | deflecting twice equals deflecting once |
| `Apertures.NewAperture` | src/instamatic/simulation/aperture.py:9-22 | the index defaults to 0 and the aperture starts retracted |
| `Apertures.Radius` | src/instamatic/simulation/aperture.py:24-26 | the radius is `radii[index]`, counting from the end for a negative index, and an indexing error outside `-n..n-1`; a radius is always one of the radii |
| `Apertures.DefaultApertureRadius` | src/instamatic/simulation/aperture.py:20-26 | `Aperture(0, 0, [0.1, 0.01])` has radius 0.1 |
| `Apertures.PropagateBeam` | src/instamatic/simulation/aperture.py:28-42 | an aperture returns a copy with unchanged parameters, equal to a well-formed input |
| `Apertures.PropagateIgnoresAperture` | src/instamatic/simulation/aperture.py:41-42 | the output is the same whether the aperture is inserted or not, and whatever its hole or position |
| `OpticalChain.Propagate` | src/instamatic/simulation/illumination.py:25 | dispatch to any component keeps the beam's parameters and yields a well-formed beam |
| `OpticalChain.Fold` | src/instamatic/simulation/illumination.py:23-26 | the fold keeps the seed's parameters, and is well-formed after at least one component |
| `OpticalChain.FoldAppend` | src/instamatic/simulation/illumination.py:24-25 | folding over a concatenation is folding over the first list, then the second: each component once, in order |
| `OpticalChain.FoldPassThrough` | src/instamatic/simulation/illumination.py:23-26 | a well-formed beam comes out of any chain unchanged |
| `Illuminations.Illumination.GetBeamOnStage` | src/instamatic/simulation/illumination.py:13-26 | the loop computes the left fold over the components from the gun's seed beam, which equals the seed beam |
| `LinearAlgebra.RotationXYOrthogonal` | src/instamatic/camera/simulate/sample.py:25 | an in-plane rotation with `c^2 + s^2 = 1` satisfies `R^T R = I` |
| `LinearAlgebra.RotationYZOrthogonal` | src/instamatic/camera/simulate/sample.py:26 | a rotation about x with `c^2 + s^2 = 1` satisfies `R^T R = I` |
| `LinearAlgebra.ProductOrthogonal` | src/instamatic/camera/simulate/sample.py:28 | a product of orthogonal matrices is orthogonal |
| `Samples.RotationFromEuler` | src/instamatic/camera/simulate/sample.py:19-28 | the entry `R[2][2]` is `cos(psi)`: the in-plane turns leave the z axis alone; with lawful trigonometry the product is orthogonal |
| `Samples.NewSample` | src/instamatic/camera/simulate/sample.py:18-28 | a new sample stores its parameters, and under lawful trigonometry its orientation is orthogonal |
| `Samples.RotationOrthogonal` | src/instamatic/camera/simulate/sample.py:19-28 | the product `r1 r2 r3` of the three elementary rotations is orthogonal |
| `Samples.ContainsPoint` | src/instamatic/camera/simulate/sample.py:30-31 | a contained point lies strictly inside the square of side `2r` about the centre, and radius 0 contains nothing |
| `Samples.PixelContainsCrystal` | src/instamatic/camera/simulate/sample.py:30-31 | the mask has the grid's shape and is true exactly where `(x - sx)^2 + (y - sy)^2 < r^2` |
| `Samples.ContainmentFacts` | src/instamatic/camera/simulate/sample.py:30-31 | rim points are outside, radius 0 contains nothing, the centre is inside iff `r != 0`, and the crystal index plays no part |
| `Stages.UniformInRange` | src/instamatic/camera/simulate/stage.py:38-43 | `lo + (hi - lo) u` lies in `[lo, hi)` for `u` in `[0, 1)` |
| `Stages.DrawInRange` | src/instamatic/camera/simulate/stage.py:34-43 | every uniform draw lands in its stated interval |
| `Stages.CrystalFromDraws` | src/instamatic/camera/simulate/stage.py:34 | with unit draws, the three lattice lengths lie in `[5, 25)` and the three angles in `[80, 110)` |
| `Stages.SampleFromDraws` | src/instamatic/camera/simulate/stage.py:36-46 | the crystal index is 0; with lawful trigonometry the orientation is orthogonal; with unit draws, a positive grid radius R and `min < max`, x and y lie in `[-R, R)`, the radius in `[min, max)` and the Euler angles in `[0, 2 pi)`, `[0, pi)` and `[0, 2 pi)` |
| `Stages.SampleDrawsInRange` | src/instamatic/camera/simulate/stage.py:37-42 | each of the six draws of a sample lands in its interval |
| `Stages.Population` | src/instamatic/camera/simulate/stage.py:36-46 | the population has exactly `n` samples, one per requested crystal |
| `Stages.PopulationInRange` | src/instamatic/camera/simulate/stage.py:36-46 | each sample's x, y, radius and three Euler angles lie in their stated intervals; its crystal index is 0 and its orientation orthogonal |
| `Stages.BetweenEnds` | src/instamatic/camera/simulate/stage.py:89-90 | an interpolation between two ends stays between them |
| `Stages.Linspace` | src/instamatic/camera/simulate/stage.py:89-90 | the first point is `lo`, the last is `hi`, and every point lies between them |
| `Stages.Intersection` | src/instamatic/camera/simulate/stage.py:82-96 | for `n_z != 0` the intersection keeps the grid point's x and y and satisfies `dot(p - origin, n) = 0` |
| `Stages.SampleCoordinates` | src/instamatic/camera/simulate/stage.py:73-101 | the coordinates have the requested shape; pixel (i, j) is the intersection for column j of the x range and row i of the y range, taken back through `R^T` |
| `Stages.RestCoordinatesAreGrid` | src/instamatic/camera/simulate/stage.py:85-101 | with `R = I` and origin 0 the coordinates are the grid itself; the corner pixels hold the extent's corners |
| `Stages.LastPainter` | src/instamatic/camera/simulate/stage.py:139-144 | the result is the last sample index that passes the prefilter and contains the point, or -1 when none does |
| `Stages.PaintedValue` | src/instamatic/camera/simulate/stage.py:139-144 | the value lies in `[0, n)`, and it is 0 exactly when no sample after the first paints the point |
| `Stages.ImageValue` | src/instamatic/camera/simulate/stage.py:139-147 | a supported point reads at least 1000; a pixel reads 0 exactly when it is off the support and no sample after the first paints it |
| `Stages.FarSampleIgnored` | src/instamatic/camera/simulate/stage.py:141-142 | a sample the distance prefilter skips never affects a pixel |
| `Stages.ImageValueDecodes` | src/instamatic/camera/simulate/stage.py:144-147 | with at most 1000 samples a pixel is at least 1000 exactly on the grid's support, and the rest is the painter's index |
| `Stages.ImageValueCollision` | src/instamatic/camera/simulate/stage.py:144-147 | with more than 1000 samples, a point off the support painted by sample 1000 and a supported point painted by sample 0 or by none both read 1000 |
| `Stages.WhollyOnGrid` | src/instamatic/camera/simulate/stage.py:193-196 | a sample that covers no pixel counts as wholly on the grid |
| `Stages.Reflected` | src/instamatic/camera/simulate/stage.py:187-203 | a lit pixel was lit by some sample that diffracts and whose mask is set there |
| `Stages.ReflectedIff` | src/instamatic/camera/simulate/stage.py:187-203 | a pixel is reflected iff some sample passes the rectangle test, is not wholly on the grid, and has its mask set there |
| `Stages.Scale` | src/instamatic/camera/simulate/stage.py:207-212 | the scale `1 / (3 k^2 + 1)` lies in `(0, 1]` |
| `Stages.DiffractionValue` | src/instamatic/camera/simulate/stage.py:205-216 | a pixel is either 0 or its scale, and non-zero exactly where reflected |
| `Stages.Stage.constructor` | src/instamatic/camera/simulate/stage.py:12-46 | the stage starts at rest with identity orientation and origin 0; the crystal is draws 0..5 and the population is the seeded one, of size `max(numCrystals, 0)` |
| `Stages.Stage.SetPosition` | src/instamatic/camera/simulate/stage.py:48-71 | exactly the supplied coordinates change; the orientation is recomputed from (in-plane rotation, alpha, beta) on every call; nothing else changes |
| `Stages.Stage.ImageExtentToSampleCoordinates` | src/instamatic/camera/simulate/stage.py:73-101 | the stage coordinates of every pixel, of the requested shape |
| `Stages.Stage.GetImage` | src/instamatic/camera/simulate/stage.py:103-149 | the image has the requested shape; every pixel is the last painting sample's index, or 0, plus 1000 on the grid's support |
| `Stages.Stage.GetDiffractionPattern` | src/instamatic/camera/simulate/stage.py:151-216 | the pattern has the requested shape; every pixel is its scale where reflected and 0 elsewhere |
| `Stages.Paint` | src/instamatic/camera/simulate/stage.py:144 | pixels inside the sample take the index; the others keep their value |
| `Stages.AddOnSupport` | src/instamatic/camera/simulate/stage.py:147 | 1000 is added exactly where the grid supports the point |
| `Stages.OrMask` | src/instamatic/camera/simulate/stage.py:197-203 | each pixel becomes its old value OR the mask |
| `Stages.ZeroWhereDark` | src/instamatic/camera/simulate/stage.py:214 | pixels not reflected become 0; the others keep their value |
| `Tem.Min` | src/instamatic/simulation/tem.py:84 | the minimum is one of the values and no value is below it |
| `Tem.Max` | src/instamatic/simulation/tem.py:85 | the maximum is one of the values and no value is above it |
| `Tem.BoxExtent` | src/instamatic/simulation/tem.py:83-87 | the extent holds all four corners, each bound is attained by a corner, and min <= max on both axes |
| `Tem.BeamExtent` | src/instamatic/simulation/tem.py:98-102 | the frame's extent contains the beam's centre |
| `Tem.RenderShape` | src/instamatic/simulation/tem.py:103-104 | for a positive binning, each side is the camera side divided by the binning, rounded down |
| `Tem.BeamAttribute` | src/instamatic/simulation/tem.py:208 | a name gives a number iff it is one of a, b, t, x0, y0, A..F, a bound method iff it is one of the six methods of the beam class, and otherwise an attribute error; `a` and `b` give the semi-axes |
| `Tem.SpotSizeOf` | src/instamatic/simulation/tem.py:208 | `beam._a + beam._b` always fails with an attribute error on `_a` |
| `Tem.DefaultExtent` | src/instamatic/simulation/tem.py:97-102 | the default frame covers `[-3e-9, 3e-9] x [0, 0]` |
| `Tem.TemSimulation.constructor` | src/instamatic/simulation/tem.py:23-55 | a new facade is in mode mag1 with no deflector shifted, over a fresh stage at rest (all five coordinates, the in-plane rotation and the origin zero, identity orientation) with the crystal and population drawn from seed 100 |
| `Tem.TemSimulation.PreSampleComponents` | src/instamatic/simulation/tem.py:33-39 | the gun-shift deflector is in the chain and every deflector in it is the gun-shift deflector, so the beam-shift deflector is in it only if the two are equal; the chain passes every well-formed beam through unchanged |
| `Tem.TemSimulation.PostSampleComponents` | src/instamatic/simulation/tem.py:48-55 | the image-shift deflector is in the chain and every deflector in it is the image-shift deflector; the chain passes every well-formed beam through unchanged |
| `Tem.TemSimulation.GetFunctionMode` | src/instamatic/simulation/tem.py:156-157 | the mode read back is one of the five function modes |
| `Tem.TemSimulation.GetBeamOnStage` | src/instamatic/simulation/tem.py:59-63 | the loop computes the fold of the pre-sample chain over the gun's beam, which is the gun's beam |
| `Tem.TemSimulation.GetBeamOnDetectorFromStage` | src/instamatic/simulation/tem.py:69-72 | the loop computes the fold of the post-sample chain, which keeps the beam's parameters |
| `Tem.TemSimulation.GetBeamOnDetector` | src/instamatic/simulation/tem.py:65-67 | both chains in turn; the result is the gun's beam |
| `Tem.TemSimulation.SetFunctionMode` | src/instamatic/simulation/tem.py:253-256 | the mode becomes the value iff it is one of the five names; otherwise a value error and the mode is unchanged; the mode stays valid and the deflectors are untouched |
| `Tem.TemSimulation.GetImage` | src/instamatic/simulation/tem.py:107-115 | absent exposure and binning take the defaults; the frame is the diffraction pattern iff the mode is diff, else the image, over the beam's extent at the binned shape |
| `Tem.TemSimulation.RenderDiffractionPattern` | src/instamatic/simulation/tem.py:74-90 | the stage's diffraction pattern over the beam's extent at the binned shape |
| `Tem.TemSimulation.RenderImage` | src/instamatic/simulation/tem.py:92-105 | the stage's image over the beam's extent at the binned shape |
| `Tem.TemSimulation.GetSpotSizeAsWritten` | src/instamatic/simulation/tem.py:203-208 | as written, the spot size always fails with an attribute error |
| `Tem.TemSimulation.GetSpotSize` | src/instamatic/simulation/tem.py:203-208 | the spot size `a + b` of the beam on the stage equals the gun's crossover size |
| `Tem.TemSimulation.GetMagnification` | src/instamatic/simulation/tem.py:180-182 | the reported magnification is 1 |
| `Tem.TemSimulation.GetDiffFocus` | src/instamatic/simulation/tem.py:143-150 | always an error: a value error iff the mode is checked and not diff, otherwise a missing attribute |
| `Tem.TemSimulation.SetDiffFocus` | src/instamatic/simulation/tem.py:241-246 | always an error: a value error iff the mode is checked and not diff, otherwise the write to a frozen lens |
| `Tem.TemSimulation.GetMagnificationAbsoluteIndex` | src/instamatic/simulation/tem.py:184-186 | always not implemented |
| `Tem.TemSimulation.GetMagnificationRanges` | src/instamatic/simulation/tem.py:192-194 | always not implemented |
| `Tem.TemSimulation.SetBeamShift` | src/instamatic/simulation/tem.py:225-227 | only the beam-shift deflector changes, to the given shift |
| `Tem.TemSimulation.SetGunShift` | src/instamatic/simulation/tem.py:258-260 | only the gun-shift deflector changes, to the given shift |
| `Tem.TemSimulation.SetImageShift1` | src/instamatic/simulation/tem.py:266-268 | only the image-shift deflector changes, to the given shift |
| `Tem.TemSimulation.SetDiffShift` | src/instamatic/simulation/tem.py:248-251 | only the image-shift deflector changes, to the given shift |
| `Tem.TemSimulation.SetStagePosition` | src/instamatic/simulation/tem.py:297-298 | each supplied coordinate is set and each absent one kept; the orientation is recomputed; the in-plane rotation, origin, crystal, population and generator state are kept |
| `Tem.ShiftedBeamUnchanged` | src/instamatic/simulation/deflector.py:8-22 | shifting the gun-shift and image-shift deflectors does not change the beam the detector sees |

## Findings

| source | as written | input that shows it | evidently intended | confidence | as-written member | corrected member |
|---|---|---|---|---|---|---|
| src/instamatic/simulation/tem.py:208 | the spot size reads `beam._a + beam._b`, but a beam has attributes `a` and `b` and no `_a` or `_b` | any facade state: the lookup of `_a` on the beam on the stage raises an attribute error | the sum of the semi-axes, `beam.a + beam.b`, which is the gun's crossover size | high; not executed | `Tem.TemSimulation.GetSpotSizeAsWritten` | `Tem.TemSimulation.GetSpotSize` |

## Left out

- Floating point is not modelled; every quantity is an exact real. So `sin(pi)` is exactly 0, and rounding in the polar points, the extent and the scale is not captured.
- Trigonometry, `pi` and the square root are parameters (`RealMath`), constrained only by the laws in `Trig.Lawful`.
- Beams.PolarRadius: requires the denominator `(a sin^2)^2 + (b cos^2)^2` to be positive at the angle. Where it is zero the source divides zero by zero, and the resulting NaN is not modelled. `Beams.CoordinatesFromPolar` carries the same requirement. For the boxes it comes down to the exact domain at their fixed angles. `Beams.RectangularInternalBox` requires the semi-axes not both to be zero. `Beams.RectangularExternalBox` and `Tem.BeamExtent` require `b` to be non-zero.
- Tem.BeamAttribute: the attributes every Python object and every dataclass carries (`__class__`, `__eq__`, `__dataclass_fields__` and the like) are treated as attribute errors. The only lookups the core performs are `_a` and `_b`, which are not among them.
- Lenses.Magnification: requires a non-zero convergence angle; the division error is not modelled.
- Stages.Intersection: requires the normal's z component to be non-zero. The line parallel to the stage plane, which gives infinities or NaN in the source, is excluded. The same requirement is on `Stage.GetImage`, `Stage.GetDiffractionPattern` and the facade's rendering methods.
- Tem.RenderShape: requires a positive binning. A zero binning, which divides by zero in the source, and a negative one, for which `np.linspace` in stage.py refuses the negative number of samples, are not modelled. The same requirement is on `Tem.TemSimulation.GetImage`.
- Object identity is not modelled. Beams, lenses, apertures and deflectors are values, so "the result is a new object, not the argument" has no counterpart. Nothing in the core mutates a beam, a lens or an aperture.
- The facade's chains hold shared references to its deflectors. The model rebuilds each chain from the facade's current fields whenever a chain is used, which observes the same live state.
- The PCG64 generator, the grid's support mask and radius, the crystal's diffraction mask, the sample rectangle test and `Rotation.from_euler` are parameters of `Stages.World`. The generator is modelled as the seed plus the number of draws taken; its draws are assumed to lie in `[0, 1)`.
- The camera's dimensions, default exposure and default binning are the parameter `Tem.CameraConfig`. The exposure is accepted and, as in the source, never used.
- The unused beam-membership loop in the diffraction path (src/instamatic/simulation/tem.py:77-80) computes nothing and is left out.
- Getters that read the undefined attribute `position` of a deflector (beam shift, diff shift, gun shift, image shift 1) and `getStagePosition`, which calls a stage method the stage lacks, are left out.
- Constant and pass-through getters and setters are left out: beam tilt, gun tilt, image shift 2, brightness, current density, HT value, stigmators, screen position, blanking, stage moving, magnification index, and the setters that only `pass`. So are `establish_connection` and `release_connection`.
- The simulated camera stream and the package wiring around it are not part of this model.
- Tem.TemSimulation.SetStagePosition: the source declares the coordinates as integers and passes them on unchanged; the model takes them as optional reals.
- The stage's constructor arguments keep the source's defaults as constants (`Stages.DefaultNumCrystals` and the others). The sample's crystal index, which defaults to 0 in the source, is passed explicitly.
