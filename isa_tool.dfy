/**
 * The ISA air properties page of tools/isa_tool.py: an altitude entered in
 * metres, feet or kilometres (each with its own maximum), converted to metres,
 * run through the atmosphere model, and shown in metric or imperial units.
 * The page takes the troposphere exponent as a parameter:
 * `TroposphereExponentAsWritten` gives the page as the program shows it,
 * `TroposphereExponent` the page with the sign corrected.
 */
module IsaTool {
  import opened Wrappers
  import opened Elementary
  import opened Utils

  datatype UnitSystem = Metric | Imperial

  /** The largest altitude each unit's number input accepts. */
  function AltitudeCap(u: AltitudeUnit): real {
    match u
    case Meters => 47000.0
    case Feet => 154200.0
    case Kilometers => 47.0
  }

  /** The four readings in the chosen units, with the unit labels. */
  datatype Readings = Readings(
    temperature: real,
    pressure: real,
    density: real,
    speedOfSound: real,
    temperatureUnit: string,
    pressureUnit: string,
    densityUnit: string,
    speedUnit: string)

  const PascalPerPsi: real := 6894.76
  const KgPerM3PerSlugPerFt3: real := 515.3788
  const FeetPerMetre: real := 3.28084

  /**
   * The readings in the chosen system. The imperial ones convert back to the
   * SI values: Fahrenheit to kelvin, psi to pascal, slug/ft^3 to kg/m^3 and
   * ft/s to m/s.
   */
  function Show(a: Atmosphere, system: UnitSystem): (r: Readings)
    ensures system == Metric ==> r == Readings(a.temperature, a.pressure, a.density, a.speedOfSound, "K", "Pa", "kg/m³", "m/s")
    ensures system == Imperial ==> && (r.temperature - 32.0) * 5.0 / 9.0 + 273.15 == a.temperature
                                   && r.pressure * PascalPerPsi == a.pressure
                                   && r.density * KgPerM3PerSlugPerFt3 == a.density
                                   && r.speedOfSound / FeetPerMetre == a.speedOfSound
                                   && r.temperatureUnit == "°F" && r.pressureUnit == "psi"
                                   && r.densityUnit == "slug/ft³" && r.speedUnit == "ft/s"
  {
    match system
    case Imperial =>
      Readings((a.temperature - 273.15) * 9.0 / 5.0 + 32.0, a.pressure / PascalPerPsi,
               a.density / KgPerM3PerSlugPerFt3, a.speedOfSound * FeetPerMetre,
               "°F", "psi", "slug/ft³", "ft/s")
    case Metric =>
      Readings(a.temperature, a.pressure, a.density, a.speedOfSound, "K", "Pa", "kg/m³", "m/s")
  }

  /** The converted altitude and the readings, or None where the page shows its altitude error. */
  datatype Page = Page(altitudeM: real, readings: Readings)

  function IsaPage(m: MathLib, troposphereExponent: real, u: AltitudeUnit, altitude: real, system: UnitSystem): (r: Option<Page>)
    requires 0.0 <= altitude <= AltitudeCap(u)
    ensures r.None? <==> ToMetres(altitude, u) > 47000.0
    ensures r.Some? ==> && r.value.altitudeM == ToMetres(altitude, u)
                        && r.value.readings == Show(AtmosphereWith(m, ToMetres(altitude, u), troposphereExponent).value, system)
  {
    var altM := ToMetres(altitude, u);
    match AtmosphereWith(m, altM, troposphereExponent)
    case None => None
    case Some(a) => Some(Page(altM, Show(a, system)))
  }

  /**
   * Only the feet input can reach past the model: its maximum, 154200 ft, is
   * 47000.16 m, so the last half foot below it shows the altitude error.
   */
  lemma OnlyFeetExceedTheModel(m: MathLib, troposphereExponent: real, u: AltitudeUnit, altitude: real)
    requires 0.0 <= altitude <= AltitudeCap(u)
    ensures u != Feet ==> IsaPage(m, troposphereExponent, u, altitude, Metric).Some?
    ensures u == Feet ==> (IsaPage(m, troposphereExponent, u, altitude, Metric).None? <==> altitude * 0.3048 > 47000.0)
    ensures IsaPage(m, troposphereExponent, Feet, 154200.0, Metric).None?
  {
    assert ToMetres(154200.0, Feet) == 154200.0 * 0.3048;
  }

  /** Sea level, in either version: 288.15 K shows as 59 °F and 101325 Pa as about 14.696 psi. */
  lemma SeaLevelInImperial(m: MathLib, troposphereExponent: real)
    requires Lawful(m)
    ensures var r := IsaPage(m, troposphereExponent, Meters, 0.0, Imperial).value.readings;
            r.temperature == 59.0 && 14.69594 < r.pressure < 14.69596
  {
    SeaLevel(m, troposphereExponent);
    assert ToMetres(0.0, Meters) == 0.0;
  }

  /**
   * Between the ground and 11 km the page as the program shows it reports a
   * pressure above the sea-level 101325 Pa; with the corrected exponent it
   * reports a positive pressure below it.
   */
  lemma TropospherePressureShown(m: MathLib, h: real)
    requires Lawful(m)
    requires 0.0 < h <= 11000.0
    ensures IsaPage(m, TroposphereExponentAsWritten, Meters, h, Metric).value.readings.pressure > 101325.0
    ensures 0.0 < IsaPage(m, TroposphereExponent, Meters, h, Metric).value.readings.pressure < 101325.0
  {
    assert ToMetres(h, Meters) == h;
    AsWrittenTropospherePressureRises(m, 0.0, h);
    TropospherePressureBelowSeaLevel(m, h);
  }
}
