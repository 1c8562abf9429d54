/**
 * The Mach number calculator of tools/mach_tool.py: altitude and airspeed in
 * a chosen unit, the ISA speed of sound at that altitude, the Mach number and
 * the flow regime it falls in.
 */
module MachTool {
  import opened Wrappers
  import opened Elementary
  import opened Utils

  datatype SpeedUnit = MetresPerSecond | FeetPerSecond | Knots

  const FeetPerMetre: real := 3.28084
  const MpsPerKnot: real := 0.514444

  /** The airspeed in m/s: it is positive, zero or growing exactly when the entered speed is. */
  function SpeedInMps(v: real, u: SpeedUnit): (r: real)
    ensures r == 0.0 <==> v == 0.0
    ensures r > 0.0 <==> v > 0.0
    ensures u == MetresPerSecond ==> r == v
    ensures u == FeetPerSecond ==> r * FeetPerMetre == v
    ensures u == Knots ==> r / MpsPerKnot == v
  {
    match u
    case MetresPerSecond => v
    case FeetPerSecond => v / FeetPerMetre
    case Knots => v * MpsPerKnot
  }

  lemma SpeedInMpsMonotone(v: real, v': real, u: SpeedUnit)
    requires v <= v'
    ensures SpeedInMps(v, u) <= SpeedInMps(v', u)
  {
  }

  datatype FlowRegime = Incompressible | Subsonic | Transonic | Supersonic | Hypersonic

  /** The regimes in the order the thresholds list them. */
  function Rank(r: FlowRegime): nat {
    match r
    case Incompressible => 0
    case Subsonic => 1
    case Transonic => 2
    case Supersonic => 3
    case Hypersonic => 4
  }

  /** The lower limit of each regime: a regime holds the Mach numbers from its own limit up to the next one's. */
  function LowerLimit(r: FlowRegime): real {
    match r
    case Incompressible => 0.0
    case Subsonic => 0.3
    case Transonic => 0.8
    case Supersonic => 1.2
    case Hypersonic => 5.0
  }

  /** The flow regime of a Mach number (lines 51-60). */
  function Classify(mach: real): (r: FlowRegime)
    ensures r != Incompressible ==> LowerLimit(r) <= mach
    ensures forall q: FlowRegime :: Rank(r) < Rank(q) ==> mach < LowerLimit(q)
  {
    if mach < 0.3 then Incompressible
    else if mach < 0.8 then Subsonic
    else if mach < 1.2 then Transonic
    else if mach < 5.0 then Supersonic
    else Hypersonic
  }

  /** Each regime is exactly one half-open band of Mach numbers. */
  lemma ClassifyBands(mach: real, r: FlowRegime)
    ensures Classify(mach) == r <==>
              (r == Incompressible || LowerLimit(r) <= mach) &&
              (forall q: FlowRegime :: Rank(r) < Rank(q) ==> mach < LowerLimit(q))
  {
    var c := Classify(mach);
    if (r == Incompressible || LowerLimit(r) <= mach) && (forall q: FlowRegime :: Rank(r) < Rank(q) ==> mach < LowerLimit(q)) {
      assert Rank(r) < Rank(c) ==> mach < LowerLimit(c);
      assert Rank(c) < Rank(r) ==> mach < LowerLimit(r);
      RankInjective(c, r);
    }
  }

  lemma RankInjective(a: FlowRegime, b: FlowRegime)
    requires Rank(a) == Rank(b)
    ensures a == b
  {
  }

  /** A faster flow never falls into a lower regime. */
  lemma ClassifyMonotone(mach: real, mach': real)
    requires mach <= mach'
    ensures Rank(Classify(mach)) <= Rank(Classify(mach'))
  {
    var c, c' := Classify(mach), Classify(mach');
    assert Rank(c') < Rank(c) ==> mach' < LowerLimit(c);
  }

  datatype MachReading = MachReading(speedOfSound: real, mach: real, regime: FlowRegime)

  /** The page: None where it shows the altitude error (the kilometre input reaches 47000 km). */
  function MachPage(m: MathLib, altUnit: AltitudeUnit, altitude: real, speedUnit: SpeedUnit, speed: real): (r: Option<MachReading>)
    requires 0.0 <= altitude <= 47000.0 && speed >= 0.0
    ensures r.None? <==> ToMetres(altitude, altUnit) > 47000.0
    ensures r.Some? ==> && r.value.speedOfSound == IsaAtmosphere(m, ToMetres(altitude, altUnit)).value.speedOfSound
                        && (r.value.speedOfSound > 0.0 ==> r.value.mach * r.value.speedOfSound == SpeedInMps(speed, speedUnit))
                        && (r.value.speedOfSound <= 0.0 ==> r.value.mach == 0.0)
                        && r.value.regime == Classify(r.value.mach)
  {
    var altM := ToMetres(altitude, altUnit);
    var v := SpeedInMps(speed, speedUnit);
    match IsaAtmosphere(m, altM)
    case None => None
    case Some(atm) =>
      var a := atm.speedOfSound;
      var mach := if a > 0.0 then v / a else 0.0;
      Some(MachReading(a, mach, Classify(mach)))
  }

  /** Only kilometres can exceed the model: 47000 m and 47000 ft are both inside it. */
  lemma OnlyKilometresExceedTheModel(m: MathLib, altUnit: AltitudeUnit, altitude: real, speedUnit: SpeedUnit, speed: real)
    requires 0.0 <= altitude <= 47000.0 && speed >= 0.0
    ensures altUnit != Kilometers ==> MachPage(m, altUnit, altitude, speedUnit, speed).Some?
    ensures altUnit == Kilometers ==> (MachPage(m, altUnit, altitude, speedUnit, speed).None? <==> altitude > 47.0)
  {
  }

  /** With a lawful sqrt the speed of sound is positive, so Mach = V / a is never negative and 0 only at rest. */
  lemma MachIsSpeedOverSoundSpeed(m: MathLib, altUnit: AltitudeUnit, altitude: real, speedUnit: SpeedUnit, speed: real)
    requires Lawful(m)
    requires 0.0 <= altitude <= 47000.0 && speed >= 0.0
    requires MachPage(m, altUnit, altitude, speedUnit, speed).Some?
    ensures var r := MachPage(m, altUnit, altitude, speedUnit, speed).value;
            && r.speedOfSound > 0.0
            && r.mach >= 0.0
            && (r.mach == 0.0 <==> speed == 0.0)
            && (speed == 0.0 ==> r.regime == Incompressible)
  {
    var altM := ToMetres(altitude, altUnit);
    AtmospherePositive(m, altM, TroposphereExponent);
    var r := MachPage(m, altUnit, altitude, speedUnit, speed).value;
    var v := SpeedInMps(speed, speedUnit);
    assert r.mach == v / r.speedOfSound;
  }

  /** At one altitude a faster airspeed never gives a lower flow regime. */
  lemma RegimeMonotoneInSpeed(m: MathLib, altUnit: AltitudeUnit, altitude: real, speedUnit: SpeedUnit, speed: real, speed': real)
    requires Lawful(m)
    requires 0.0 <= altitude <= 47000.0 && 0.0 <= speed <= speed'
    requires MachPage(m, altUnit, altitude, speedUnit, speed).Some?
    ensures MachPage(m, altUnit, altitude, speedUnit, speed').Some?
    ensures Rank(MachPage(m, altUnit, altitude, speedUnit, speed).value.regime)
            <= Rank(MachPage(m, altUnit, altitude, speedUnit, speed').value.regime)
  {
    var altM := ToMetres(altitude, altUnit);
    AtmospherePositive(m, altM, TroposphereExponent);
    var a := IsaAtmosphere(m, altM).value.speedOfSound;
    var v, v' := SpeedInMps(speed, speedUnit), SpeedInMps(speed', speedUnit);
    SpeedInMpsMonotone(speed, speed', speedUnit);
    QuotientMonotone(v, v', a);
    ClassifyMonotone(v / a, v' / a);
  }

  lemma QuotientMonotone(x: real, x': real, d: real)
    requires x <= x' && d > 0.0
    ensures x / d <= x' / d
  {
    assert x / d * d == x && x' / d * d == x';
  }
}
