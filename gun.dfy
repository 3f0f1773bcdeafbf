/** The electron gun (src/instamatic/simulation/gun.py): a frozen record of source
    parameters, and the seed beam of every optical chain. */
module Guns {
  import opened Trig
  import opened Beams

  datatype Gun = Gun(
    accelerationVoltage: real,  // [V]
    energySpread: real,         // [eV]
    crossoverSize: real,        // [m]
    brightness: real,           // [A/m^2sr]
    currentDensity: real)       // [A/m^2]

  /** The four variants fix every parameter except the acceleration voltage
      (values of Table 5.1 in Williams and Carter, Transmission Electron Microscopy). */
  function TungstenGun(accelerationVoltage: real): (g: Gun) {
    Gun(accelerationVoltage, 3.0, 0.0001, 10000000000.0, 5.0)
  }

  function LaB6Gun(accelerationVoltage: real): (g: Gun) {
    Gun(accelerationVoltage, 1.5, 0.00001, 500000000000.0, 100.0)
  }

  function SchottkyFEG(accelerationVoltage: real): (g: Gun) {
    Gun(accelerationVoltage, 0.7, 0.000000015, 5000000000000.0, 100000.0)
  }

  function ColdFEG(accelerationVoltage: real): (g: Gun) {
    Gun(accelerationVoltage, 0.3, 0.000000003, 10000000000000.0, 1000000.0)
  }

  /** The seed beam: an unrotated beam at the origin whose two semi-axes are half the
      crossover size, so together they span the crossover; its centre is inside it
      exactly when the crossover size is non-zero. */
  function GetBeam(m: RealMath, gun: Gun): (beam: Beam)
    ensures beam.a == beam.b && beam.a + beam.b == gun.crossoverSize
    ensures beam.t == 0.0 && beam.x0 == 0.0 && beam.y0 == 0.0
    ensures WellFormed(m, beam)
    ensures IsPointInBeam(beam, 0.0, 0.0) <==> gun.crossoverSize != 0.0
  {
    var half := gun.crossoverSize / 2.0;
    SquareZeroIff(half);
    NewBeam(m, half, half, 0.0, 0.0, 0.0)
  }

  /** Each variant keeps the caller's voltage, and its seed beam has semi-axes of half the
      tabulated crossover size. */
  lemma VariantSeedBeams(m: RealMath, v: real)
    ensures TungstenGun(v).accelerationVoltage == v && GetBeam(m, TungstenGun(v)).a == 0.00005
    ensures LaB6Gun(v).accelerationVoltage == v && GetBeam(m, LaB6Gun(v)).a == 0.000005
    ensures SchottkyFEG(v).accelerationVoltage == v && GetBeam(m, SchottkyFEG(v)).a == 0.0000000075
    ensures ColdFEG(v).accelerationVoltage == v && GetBeam(m, ColdFEG(v)).a == 0.0000000015
  {
  }

  /** Dividing both sides of `2 q d < q q` by the positive `q`. */
  lemma HalveBothSides(q: real, d: real)
    requires 0.0 < q
    ensures 2.0 * q * d < q * q <==> 2.0 * d < q
  {
    if 2.0 * d < q {
      assert 2.0 * q * d == q * (2.0 * d);
      assert q * (2.0 * d) < q * q;
    } else {
      assert q * (2.0 * d) >= q * q;
    }
  }

  /** Under the computed coefficients the seed beam is the open disc of radius
      `crossoverSize / (2 sqrt 2)` about the origin, not the disc of radius `crossoverSize / 2`. */
  lemma SeedBeamIsDisc(m: RealMath, gun: Gun, x: real, y: real)
    requires Lawful(m)
    ensures IsPointInBeam(GetBeam(m, gun), x, y)
        <==> 8.0 * (x * x + y * y) < gun.crossoverSize * gun.crossoverSize
  {
    var beam := GetBeam(m, gun);
    var c, a := gun.crossoverSize, beam.a;
    UnrotatedMembership(m, beam, x, y);
    var q, d := a * a, x * x + y * y;
    assert (x - 0.0) * (x - 0.0) + (y - 0.0) * (y - 0.0) == d;
    assert (a * a + a * a) * d == 2.0 * q * d;
    assert a * a * (a * a) == q * q;
    assert c * c == 4.0 * q;
    if a == 0.0 {
      assert q == 0.0;
      SquareNonNegative(x);
      SquareNonNegative(y);
    } else {
      SquarePositive(a);
      HalveBothSides(q, d);
    }
  }

  /** Every corner of the internal box of a seed beam lies at squared distance
      `2 a^2 = crossoverSize^2 / 2` from the centre, which puts it outside the beam. */
  lemma InternalBoxOutsideSeedBeam(m: RealMath, gun: Gun)
    requires Lawful(m) && 0.0 < gun.crossoverSize
    ensures var box := RectangularInternalBox(m, GetBeam(m, gun));
      && !IsPointInBeam(GetBeam(m, gun), box.p0.x, box.p0.y)
      && !IsPointInBeam(GetBeam(m, gun), box.p1.x, box.p1.y)
      && !IsPointInBeam(GetBeam(m, gun), box.p2.x, box.p2.y)
      && !IsPointInBeam(GetBeam(m, gun), box.p3.x, box.p3.y)
  {
    var beam := GetBeam(m, gun);
    var box := RectangularInternalBox(m, beam);
    DiagonalSquares(m);
    DiagonalCornerOutside(m, gun, 1.0 * m.pi / 4.0);
    DiagonalCornerOutside(m, gun, 3.0 * m.pi / 4.0);
    DiagonalCornerOutside(m, gun, 5.0 * m.pi / 4.0);
    DiagonalCornerOutside(m, gun, 7.0 * m.pi / 4.0);
  }

  /** One diagonal corner of the seed beam's internal box lies outside the beam. */
  lemma DiagonalCornerOutside(m: RealMath, gun: Gun, theta: real)
    requires Lawful(m) && 0.0 < gun.crossoverSize
    requires Sq(m.sin(theta)) == 0.5 && Sq(m.cos(theta)) == 0.5
    ensures (DiagonalDenominator(m, GetBeam(m, gun).a, GetBeam(m, gun).b, theta);
      var p := CoordinatesFromPolar(m, GetBeam(m, gun), theta);
      !IsPointInBeam(GetBeam(m, gun), p.x, p.y))
  {
    var beam := GetBeam(m, gun);
    var a, c := beam.a, gun.crossoverSize;
    DiagonalDenominator(m, a, a, theta);
    var p := CoordinatesFromPolar(m, beam, theta);
    var r := PolarRadius(m, beam, theta);
    assert PolarDenominator(m, a, a, theta) == Sq(a * 0.5) + Sq(a * 0.5);
    assert r * r * (a * a * 0.5) == Sq(a * a);
    SquarePositive(a);
    assert r * r * (a * a * 0.5) == (a * a) * (a * a);
    assert r * r == 2.0 * (a * a) by {
      var q := a * a;
      assert (r * r) * (q * 0.5) == q * q;
      assert (r * r) * 0.5 == q;
    }
    SeedBeamIsDisc(m, gun, p.x, p.y);
    assert Sq(p.x) + Sq(p.y) == r * r;
    assert c * c == 4.0 * (a * a);
  }
}
