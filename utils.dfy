/**
 * utils.py: the International Standard Atmosphere as the repository simplifies
 * it (geometric altitude, R = 287.0, rounded layer-base pressures, four layers
 * up to 47 km), and altitude unit conversion.
 */
module Utils {
  import opened Wrappers
  import opened Elementary
  import opened PyStr

  // ---------------------------------------------------------------------------
  // ISA atmosphere model
  // ---------------------------------------------------------------------------

  /** Specific gas constant of air, J/(kg K). */
  const R: real := 287.0
  /** Standard gravity, m/s^2. */
  const G: real := 9.80665
  /** Ratio of specific heats. */
  const Gamma: real := 1.4

  /** Temperature, pressure, density and speed of sound at one altitude. */
  datatype Atmosphere = Atmosphere(temperature: real, pressure: real, density: real, speedOfSound: real)

  /** The altitudes, in metres, the model accepts. */
  predicate InDomain(h: real) {
    0.0 <= h <= 47000.0
  }

  /** The piecewise-linear temperature profile, K. */
  function Temperature(h: real): (t: real)
    requires InDomain(h)
    ensures 216.65 <= t <= 288.15
  {
    if h <= 11000.0 then 288.15 - 0.0065 * h
    else if h <= 20000.0 then 216.65
    else if h <= 32000.0 then 216.65 + 0.001 * (h - 20000.0)
    else 228.65 + 0.0028 * (h - 32000.0)
  }

  /** The troposphere exponent as utils.py writes it: g / (-0.0065 R), which is negative. */
  const TroposphereExponentAsWritten: real := G / (-0.0065 * R)
  /** The barometric troposphere exponent g / (L R) for the lapse rate L = 0.0065 K/m. */
  const TroposphereExponent: real := G / (0.0065 * R)
  const MidStratosphereExponent: real := -G / (0.001 * R)
  const UpperStratosphereExponent: real := -G / (0.0028 * R)

  /**
   * Pressure, Pa, with the troposphere exponent as a parameter (the only point
   * where the two versions differ). Under lawful exp and ln every layer's
   * pressure is positive, whatever the exponent.
   */
  function PressureWith(m: MathLib, h: real, troposphereExponent: real): (p: real)
    requires InDomain(h)
    ensures Lawful(m) ==> p > 0.0
  {
    var t := Temperature(h);
    if h <= 11000.0 then
      assert Lawful(m) ==> Pow(m, t / 288.15, troposphereExponent) > 0.0 by {
        if Lawful(m) { PowPositive(m, t / 288.15, troposphereExponent); }
      }
      101325.0 * Pow(m, t / 288.15, troposphereExponent)
    else if h <= 20000.0 then 22632.06 * m.exp(-G * (h - 11000.0) / (R * t))
    else if h <= 32000.0 then
      assert Lawful(m) ==> Pow(m, t / 216.65, MidStratosphereExponent) > 0.0 by {
        if Lawful(m) { PowPositive(m, t / 216.65, MidStratosphereExponent); }
      }
      5474.89 * Pow(m, t / 216.65, MidStratosphereExponent)
    else
      assert Lawful(m) ==> Pow(m, t / 228.65, UpperStratosphereExponent) > 0.0 by {
        if Lawful(m) { PowPositive(m, t / 228.65, UpperStratosphereExponent); }
      }
      868.02 * Pow(m, t / 228.65, UpperStratosphereExponent)
  }

  function AtmosphereWith(m: MathLib, h: real, troposphereExponent: real): (r: Option<Atmosphere>)
    ensures r.None? <==> h < 0.0 || h > 47000.0
    ensures r.Some? ==> && r.value.temperature == Temperature(h)
                        && r.value.pressure == PressureWith(m, h, troposphereExponent)
                        && r.value.density * (R * r.value.temperature) == r.value.pressure
                        && r.value.speedOfSound == m.sqrt(Gamma * R * r.value.temperature)
  {
    if h < 0.0 || h > 47000.0 then None
    else
      var t := Temperature(h);
      var p := PressureWith(m, h, troposphereExponent);
      Some(Atmosphere(t, p, p / (R * t), m.sqrt(Gamma * R * t)))
  }

  /** `isa_atmosphere` exactly as written, including the sign of the troposphere exponent. */
  function IsaAtmosphereAsWritten(m: MathLib, h: real): (r: Option<Atmosphere>)
    ensures r.None? <==> h < 0.0 || h > 47000.0
  {
    AtmosphereWith(m, h, TroposphereExponentAsWritten)
  }

  /**
   * `isa_atmosphere` with the troposphere exponent's sign corrected; every
   * other branch, constant and check is the one utils.py has. The pages that
   * show pressure or density take the exponent as a parameter, so that both
   * versions can be stated about them; the speed of sound does not depend on it.
   */
  function IsaAtmosphere(m: MathLib, h: real): (r: Option<Atmosphere>)
    ensures r.None? <==> h < 0.0 || h > 47000.0
    ensures r.Some? ==> && r.value.temperature == Temperature(h)
                        && r.value.pressure == PressureWith(m, h, TroposphereExponent)
                        && r.value.density * (R * r.value.temperature) == r.value.pressure
                        && r.value.speedOfSound == m.sqrt(Gamma * R * r.value.temperature)
  {
    AtmosphereWith(m, h, TroposphereExponent)
  }

  // --- temperature ---

  /** Temperature changes by at most 0.0065 K per metre, so it is continuous, in particular at 11, 20 and 32 km. */
  lemma TemperatureLipschitz(h1: real, h2: real)
    requires InDomain(h1) && InDomain(h2) && h1 <= h2
    ensures -0.0065 * (h2 - h1) <= Temperature(h2) - Temperature(h1) <= 0.0065 * (h2 - h1)
  {
  }

  /** The layer formulas meet at the layer boundaries: 216.65 K, 216.65 K and 228.65 K. */
  lemma TemperatureAtBoundaries()
    ensures Temperature(11000.0) == 216.65 && 288.15 - 0.0065 * 11000.0 == 216.65
    ensures Temperature(20000.0) == 216.65 && 216.65 + 0.001 * (20000.0 - 20000.0) == 216.65
    ensures Temperature(32000.0) == 228.65 && 228.65 + 0.0028 * (32000.0 - 32000.0) == 228.65
  {
  }

  /** Temperature falls strictly through the troposphere and never falls above it. */
  lemma TemperatureMonotone(h1: real, h2: real)
    requires InDomain(h1) && InDomain(h2) && h1 < h2
    ensures h2 <= 11000.0 ==> Temperature(h2) < Temperature(h1)
    ensures 11000.0 <= h1 ==> Temperature(h1) <= Temperature(h2)
  {
  }

  // --- the state as a whole ---

  /** Every accepted altitude gives positive pressure, density and speed of sound, whatever the troposphere exponent. */
  lemma AtmospherePositive(m: MathLib, h: real, troposphereExponent: real)
    requires Lawful(m) && InDomain(h)
    ensures AtmosphereWith(m, h, troposphereExponent).Some?
    ensures var s := AtmosphereWith(m, h, troposphereExponent).value;
            216.65 <= s.temperature <= 288.15 && s.pressure > 0.0 && s.density > 0.0 && s.speedOfSound > 0.0
  {
    var s := AtmosphereWith(m, h, troposphereExponent).value;
    PositiveQuotient(s.pressure, R * s.temperature);
  }

  /** At sea level the model gives 288.15 K and 101325 Pa, because the base ratio is 1, whatever the exponent. */
  lemma SeaLevel(m: MathLib, troposphereExponent: real)
    requires Lawful(m)
    ensures AtmosphereWith(m, 0.0, troposphereExponent)
            == Some(Atmosphere(288.15, 101325.0, 101325.0 / (R * 288.15), m.sqrt(Gamma * R * 288.15)))
  {
    PowOfOne(m, troposphereExponent);
    assert Temperature(0.0) / 288.15 == 1.0;
  }

  /** Within each layer the (corrected) pressure falls strictly with altitude. */
  lemma PressureFallsWithinLayer(m: MathLib, h1: real, h2: real)
    requires Lawful(m)
    requires InDomain(h1) && InDomain(h2) && h1 < h2
    requires SameLayer(h1, h2)
    ensures PressureWith(m, h2, TroposphereExponent) < PressureWith(m, h1, TroposphereExponent)
  {
    var t1, t2 := Temperature(h1), Temperature(h2);
    if h2 <= 11000.0 {
      PowIncreasing(m, t2 / 288.15, t1 / 288.15, TroposphereExponent);
    } else if h2 <= 20000.0 {
      assert t1 == t2 == 216.65;
      ExpIncreasing(m, -G * (h2 - 11000.0) / (R * 216.65), -G * (h1 - 11000.0) / (R * 216.65));
    } else if h2 <= 32000.0 {
      PowDecreasing(m, t1 / 216.65, t2 / 216.65, MidStratosphereExponent);
    } else {
      PowDecreasing(m, t1 / 228.65, t2 / 228.65, UpperStratosphereExponent);
    }
  }

  predicate SameLayer(h1: real, h2: real) {
    || (h1 <= 11000.0 && h2 <= 11000.0)
    || (11000.0 < h1 <= 20000.0 && 11000.0 < h2 <= 20000.0)
    || (20000.0 < h1 <= 32000.0 && 20000.0 < h2 <= 32000.0)
    || (32000.0 < h1 && 32000.0 < h2)
  }

  /**
   * As written, the troposphere pressure rises above the sea-level value at
   * every altitude above the ground, and goes on rising up to 11 km.
   */
  lemma AsWrittenTropospherePressureRises(m: MathLib, h1: real, h2: real)
    requires Lawful(m)
    requires 0.0 <= h1 < h2 <= 11000.0
    ensures IsaAtmosphereAsWritten(m, h2).value.pressure > 101325.0
    ensures IsaAtmosphereAsWritten(m, h1).value.pressure < IsaAtmosphereAsWritten(m, h2).value.pressure
  {
    var t1, t2 := Temperature(h1), Temperature(h2);
    assert TroposphereExponentAsWritten < 0.0;
    PowOfFraction(m, t2 / 288.15, TroposphereExponentAsWritten);
    PowDecreasing(m, t2 / 288.15, t1 / 288.15, TroposphereExponentAsWritten);
  }

  /** With the exponent corrected, the troposphere pressure stays below the sea-level value above the ground. */
  lemma TropospherePressureBelowSeaLevel(m: MathLib, h: real)
    requires Lawful(m)
    requires 0.0 < h <= 11000.0
    ensures 0.0 < IsaAtmosphere(m, h).value.pressure < 101325.0
  {
    var t := Temperature(h);
    assert TroposphereExponent > 0.0;
    PowOfFraction(m, t / 288.15, TroposphereExponent);
    PowPositive(m, t / 288.15, TroposphereExponent);
  }

  /** As written, the troposphere air is denser than with the corrected exponent: same temperature, higher pressure. */
  lemma AsWrittenTroposphereTooDense(m: MathLib, h: real)
    requires Lawful(m)
    requires 0.0 < h <= 11000.0
    ensures AtmosphereWith(m, h, TroposphereExponent).value.density
            < AtmosphereWith(m, h, TroposphereExponentAsWritten).value.density
  {
    AsWrittenTropospherePressureRises(m, 0.0, h);
    TropospherePressureBelowSeaLevel(m, h);
    var written := AtmosphereWith(m, h, TroposphereExponentAsWritten).value;
    var corrected := AtmosphereWith(m, h, TroposphereExponent).value;
    DensityOrder(corrected.density, written.density, R * Temperature(h), corrected.pressure, written.pressure);
  }

  /** At one temperature the denser air is the one at the higher pressure. */
  lemma DensityOrder(a: real, b: real, k: real, p: real, q: real)
    requires k > 0.0 && a * k == p && b * k == q && p < q
    ensures a < b
  {
  }

  /** The speed of sound falls strictly through the troposphere. */
  lemma SpeedOfSoundFallsInTroposphere(m: MathLib, h1: real, h2: real)
    requires Lawful(m)
    requires 0.0 <= h1 < h2 <= 11000.0
    ensures IsaAtmosphere(m, h2).value.speedOfSound < IsaAtmosphere(m, h1).value.speedOfSound
  {
    var t1, t2 := Temperature(h1), Temperature(h2);
    SqrtIncreasing(m, Gamma * R * t2, Gamma * R * t1);
  }

  // ---------------------------------------------------------------------------
  // Altitude conversion
  // ---------------------------------------------------------------------------

  datatype UnitError = InvalidFromUnit | InvalidToUnit

  /** The unit names `convert_altitude` accepts once lower-cased. */
  predicate IsAltitudeUnit(u: string) {
    u in ["meters", "m", "feet", "ft", "kilometers", "km"]
  }

  /** Metres in one of the unit. */
  function MetresPer(u: string): (f: real)
    requires IsAltitudeUnit(u)
    ensures f > 0.0
  {
    if u in ["meters", "m"] then 1.0
    else if u in ["feet", "ft"] then 0.3048
    else 1000.0
  }

  /** `convert_altitude(value, from_unit, to_unit)`; the ValueErrors become `Err`. */
  function ConvertAltitude(value: real, fromUnit: string, toUnit: string): (r: Result<real, UnitError>)
    ensures r == Err(InvalidFromUnit) <==> !IsAltitudeUnit(Lower(fromUnit))
    ensures r == Err(InvalidToUnit) <==> IsAltitudeUnit(Lower(fromUnit)) && !IsAltitudeUnit(Lower(toUnit))
    ensures r.Ok? ==> r.value * MetresPer(Lower(toUnit)) == value * MetresPer(Lower(fromUnit))
  {
    var from := Lower(fromUnit);
    var to := Lower(toUnit);
    if !(from in ["meters", "m"] || from in ["feet", "ft"] || from in ["kilometers", "km"]) then
      Err(InvalidFromUnit)
    else
      var valueM :=
        if from in ["meters", "m"] then value
        else if from in ["feet", "ft"] then value * 0.3048
        else value * 1000.0;
      if to in ["meters", "m"] then Ok(valueM)
      else if to in ["feet", "ft"] then Ok(valueM / 0.3048)
      else if to in ["kilometers", "km"] then Ok(valueM / 1000.0)
      else Err(InvalidToUnit)
  }

  /** Converting to the unit one starts from changes nothing. */
  lemma ConvertToSameUnit(value: real, unit: string)
    requires IsAltitudeUnit(Lower(unit))
    ensures ConvertAltitude(value, unit, unit) == Ok(value)
  {
    var r := ConvertAltitude(value, unit, unit);
    assert r.value * MetresPer(Lower(unit)) == value * MetresPer(Lower(unit));
  }

  /** metres -> u -> metres gives the value back, for every accepted unit u. */
  lemma ConvertRoundTrip(value: real, unit: string)
    requires IsAltitudeUnit(Lower(unit))
    ensures ConvertAltitude(value, "meters", unit).Ok?
    ensures ConvertAltitude(ConvertAltitude(value, "meters", unit).value, unit, "meters") == Ok(value)
  {
    assert Lower("meters") == "meters";
    var there := ConvertAltitude(value, "meters", unit).value;
    var back := ConvertAltitude(there, unit, "meters");
    assert back.value * 1.0 == there * MetresPer(Lower(unit));
    assert there * MetresPer(Lower(unit)) == value * 1.0;
  }

  /** The three entries of the altitude unit drop-downs. */
  datatype AltitudeUnit = Meters | Feet | Kilometers

  function UnitName(u: AltitudeUnit): string {
    match u
    case Meters => "meters"
    case Feet => "feet"
    case Kilometers => "kilometers"
  }

  /** `convert_altitude(value, unit, "meters")` for a drop-down unit: it never raises. */
  function ToMetres(value: real, u: AltitudeUnit): (r: real)
    ensures ConvertAltitude(value, UnitName(u), "meters") == Ok(r)
    ensures value >= 0.0 ==> r >= 0.0
  {
    assert Lower(UnitName(u)) == UnitName(u);
    assert Lower("meters") == "meters";
    ConvertAltitude(value, UnitName(u), "meters").value
  }
}
