/**
 * The jet fuel consumption and range estimator of tools/fuel_range_tool.py:
 * the form's entries (each in the unit its label shows), the weight check,
 * the Breguet range and endurance, the drag-based fuel burn time at sea level,
 * and the numbers the summary shows in the chosen unit system.
 */
module FuelRangeTool {
  import opened Wrappers
  import opened Elementary
  import Aero
  import Breguet

  datatype UnitSystem = Metric | Imperial

  /** The form as entered: speed in m/s or ft/s, masses in kg or lb. */
  datatype Form = Form(
    system: UnitSystem,
    speed: real,
    passengers: int,
    passengerWeight: real,
    emptyWeight: real,
    fuelWeight: real,
    sfc: real,
    liftToDrag: real,
    wingArea: real,
    span: real,
    cd0: real,
    oswald: real)

  /** The minimum and maximum values the number inputs enforce. */
  predicate WithinWidgetBounds(f: Form) {
    && (f.system == Metric ==> f.speed >= 10.0 && f.passengerWeight >= 50.0)
    && (f.system == Imperial ==> f.speed >= 30.0 && f.passengerWeight >= 110.0)
    && f.passengers >= 0
    && f.emptyWeight >= 0.0
    && f.fuelWeight >= 0.0
    && f.sfc >= 0.1
    && f.liftToDrag >= 5.0
    && f.wingArea >= 5.0
    && f.span >= 5.0
    && f.cd0 >= 0.0
    && 0.1 <= f.oswald <= 1.0
  }

  const FeetPerMetre: real := 3.28084
  const KgPerPound: real := 0.453592
  const Gravity: real := 9.81
  const SeaLevelDensity: real := 1.225
  const NauticalMilesPerKm: real := 0.539957
  const MilesPerKm: real := 0.621371

  /** Speed in m/s and masses in kg, whichever system the form uses. */
  datatype SiInputs = SiInputs(speed: real, passengerWeight: real, emptyWeight: real, fuelWeight: real)

  function ToSi(f: Form): (si: SiInputs)
    ensures f.system == Imperial ==> && si.speed * FeetPerMetre == f.speed
                                     && si.passengerWeight / KgPerPound == f.passengerWeight
                                     && si.emptyWeight / KgPerPound == f.emptyWeight
                                     && si.fuelWeight / KgPerPound == f.fuelWeight
    ensures f.system == Metric ==> si == SiInputs(f.speed, f.passengerWeight, f.emptyWeight, f.fuelWeight)
    ensures WithinWidgetBounds(f) ==> si.speed > 0.0 && si.emptyWeight >= 0.0 && si.fuelWeight >= 0.0 && si.passengerWeight > 0.0
  {
    match f.system
    case Metric => SiInputs(f.speed, f.passengerWeight, f.emptyWeight, f.fuelWeight)
    case Imperial =>
      SiInputs(f.speed / FeetPerMetre, f.passengerWeight * KgPerPound, f.emptyWeight * KgPerPound, f.fuelWeight * KgPerPound)
  }

  /** What the summary shows: masses in kg or lb, range in km or mi (and nmi), speed in m/s or ft/s. */
  datatype Display = Display(
    initialWeight: real,
    finalWeight: real,
    passengerWeight: real,
    weightUnit: string,
    range: real,
    rangeUnit: string,
    rangeNm: real,
    speed: real,
    speedUnit: string)

  datatype Estimate = Estimate(
    initialMass: real,
    finalMass: real,
    passengerMass: real,
    rangeM: real,
    rangeKm: real,
    rangeNm: real,
    enduranceHr: real,
    drag: real,
    burnTimeS: real,
    burnTimeMin: real,
    burnTimeHr: real,
    display: Display)

  /** The one error the page reports before computing anything. */
  datatype Failure = InvalidWeightCombination

  /** The masses the page derives from the form (lines 47-49). */
  function PassengerMass(f: Form): real {
    f.passengers as real * ToSi(f).passengerWeight
  }

  /** Wi in kg: the entered empty, fuel and passenger weights added up, in kg or converted from lb. */
  function InitialMass(f: Form): (wi: real)
    ensures f.system == Metric ==> wi == f.emptyWeight + f.fuelWeight + f.passengers as real * f.passengerWeight
    ensures f.system == Imperial ==> wi / KgPerPound == f.emptyWeight + f.fuelWeight + f.passengers as real * f.passengerWeight
  {
    assert f.system == Imperial ==> PassengerMass(f) == (f.passengers as real * f.passengerWeight) * KgPerPound;
    ToSi(f).emptyWeight + ToSi(f).fuelWeight + PassengerMass(f)
  }

  function FinalMass(f: Form): real {
    InitialMass(f) - ToSi(f).fuelWeight
  }

  /** The page's computation, from the form to the summary or the weight error. */
  function Run(m: MathLib, f: Form): (r: Result<Estimate, Failure>)
    requires Lawful(m)
    requires WithinWidgetBounds(f)
    ensures r.Err? <==> ToSi(f).fuelWeight <= 0.0 || ToSi(f).emptyWeight + PassengerMass(f) <= 0.0
    ensures r.Ok? ==> && r.value.initialMass - r.value.finalMass == ToSi(f).fuelWeight
                      && r.value.finalMass == ToSi(f).emptyWeight + r.value.passengerMass
                      && r.value.rangeM > 0.0 && r.value.enduranceHr > 0.0
                      && r.value.rangeM == 3600.0 * ToSi(f).speed * r.value.enduranceHr
                      && r.value.rangeKm * 1000.0 == r.value.rangeM
                      && !Aero.DividesByZero(SeaLevelDensity, ToSi(f).speed, f.wingArea, f.span, f.oswald)
                      && r.value.drag == Aero.LevelFlight(SeaLevelDensity, ToSi(f).speed, r.value.initialMass * Gravity,
                                                          f.wingArea, f.span, f.cd0, f.oswald).drag
                      && r.value.drag > 0.0
                      && r.value.burnTimeS * (f.sfc / 3600.0) * r.value.drag == ToSi(f).fuelWeight
                      && r.value.burnTimeMin * 60.0 == r.value.burnTimeS
                      && r.value.burnTimeHr * 3600.0 == r.value.burnTimeS
  {
    var si := ToSi(f);
    var wPax := PassengerMass(f);
    var wi := InitialMass(f);
    var wf := FinalMass(f);
    if wf <= 0.0 || wi <= wf then
      Err(InvalidWeightCombination)
    else
      var cruise := CruiseFor(m, f, wi, wf);
      var rangeM := cruise.rangeM;
      var rangeKm := rangeM / 1000.0;
      var rangeNm := rangeKm * NauticalMilesPerKm;
      var endurance := cruise.enduranceHr;
      var burn := FuelBurn(f, wi);
      var tSec := burn.seconds;
      var display := DisplayFor(f.system, wi, wf, wPax, rangeKm, rangeNm, si.speed);
      Ok(Estimate(wi, wf, wPax, rangeM, rangeKm, rangeNm, endurance, burn.drag, tSec, tSec / 60.0, tSec / 3600.0, display))
  }

  /** Lines 105-119: the summary in the form's unit system. */
  function DisplayFor(system: UnitSystem, wi: real, wf: real, wPax: real, rangeKm: real, rangeNm: real, speed: real): (d: Display)
    ensures system == Imperial ==> && d.initialWeight * KgPerPound == wi && d.finalWeight * KgPerPound == wf
                                   && d.passengerWeight * KgPerPound == wPax && d.weightUnit == "lb"
                                   && d.range == rangeKm * MilesPerKm && d.rangeUnit == "mi"
                                   && d.speed == speed * FeetPerMetre && d.speedUnit == "ft/s"
    ensures system == Metric ==> && d.initialWeight == wi && d.finalWeight == wf && d.passengerWeight == wPax
                                 && d.weightUnit == "kg" && d.range == rangeKm && d.rangeUnit == "km"
                                 && d.speed == speed && d.speedUnit == "m/s"
    ensures d.rangeNm == rangeNm
  {
    match system
    case Imperial =>
      Display(wi / KgPerPound, wf / KgPerPound, wPax / KgPerPound, "lb",
              rangeKm * MilesPerKm, "mi", rangeNm, speed * FeetPerMetre, "ft/s")
    case Metric =>
      Display(wi, wf, wPax, "kg", rangeKm, "km", rangeNm, speed, "m/s")
  }

  /** The range and endurance the page shows are the Breguet values from the initial down to the final mass. */
  lemma RunIsBreguet(m: MathLib, f: Form)
    requires Lawful(m)
    requires WithinWidgetBounds(f) && Run(m, f).Ok?
    ensures var e := Run(m, f).value;
            && e.initialMass > e.finalMass > 0.0
            && e.initialMass / e.finalMass > 0.0
            && e.rangeM == Breguet.Range(m, ToSi(f).speed, f.sfc, f.liftToDrag, e.initialMass, e.finalMass)
            && e.enduranceHr == Breguet.Endurance(m, f.sfc, f.liftToDrag, e.initialMass, e.finalMass)
  {
    var wi, wf := InitialMass(f), FinalMass(f);
    var c := CruiseFor(m, f, wi, wf);
    assert Run(m, f).value.rangeM == c.rangeM && Run(m, f).value.enduranceHr == c.enduranceHr;
  }

  /** The Breguet range (m) and endurance (hr) from the initial to the final mass. */
  datatype Cruise = Cruise(rangeM: real, enduranceHr: real)

  /**
   * Lines 83-88: the Breguet range and endurance of the form's aircraft from
   * Wi down to Wf. Both are positive, and the range is the cruise speed times
   * the endurance.
   */
  function CruiseFor(m: MathLib, f: Form, wi: real, wf: real): (c: Cruise)
    requires Lawful(m) && WithinWidgetBounds(f) && wi > wf > 0.0
    ensures c.rangeM > 0.0 && c.enduranceHr > 0.0
    ensures c.rangeM == 3600.0 * ToSi(f).speed * c.enduranceHr
    ensures wi / wf > 0.0
    ensures c.rangeM == Breguet.Range(m, ToSi(f).speed, f.sfc, f.liftToDrag, wi, wf)
    ensures c.enduranceHr == Breguet.Endurance(m, f.sfc, f.liftToDrag, wi, wf)
  {
    var v := ToSi(f).speed;
    Breguet.RatioAboveOne(wi, wf);
    Breguet.RangePositive(m, v, f.sfc, f.liftToDrag, wi, wf);
    Breguet.RangeIsSpeedTimesEndurance(m, v, f.sfc, f.liftToDrag, wi, wf);
    Cruise(Breguet.Range(m, v, f.sfc, f.liftToDrag, wi, wf), Breguet.Endurance(m, f.sfc, f.liftToDrag, wi, wf))
  }

  /** The drag in level flight at sea level and the time the fuel lasts burning against it. */
  datatype Burn = Burn(drag: real, seconds: real)

  /**
   * Lines 91-103: the drag at sea-level density with lift equal to the
   * initial weight, and the time the fuel lasts when the engines burn
   * (c / 3600) per second of that drag. The drag is positive and burning at
   * that rate for that long uses up exactly the fuel.
   */
  function FuelBurn(f: Form, wi: real): (b: Burn)
    requires WithinWidgetBounds(f) && wi > 0.0
    ensures !Aero.DividesByZero(SeaLevelDensity, ToSi(f).speed, f.wingArea, f.span, f.oswald)
    ensures b.drag == Aero.LevelFlight(SeaLevelDensity, ToSi(f).speed, wi * Gravity, f.wingArea, f.span, f.cd0, f.oswald).drag
    ensures b.drag > 0.0
    ensures b.seconds * (f.sfc / 3600.0) * b.drag == ToSi(f).fuelWeight
  {
    var si := ToSi(f);
    var lift := wi * Gravity;
    Aero.DragPositive(SeaLevelDensity, si.speed, lift, f.wingArea, f.span, f.cd0, f.oswald);
    var flight := Aero.LevelFlight(SeaLevelDensity, si.speed, lift, f.wingArea, f.span, f.cd0, f.oswald);
    var cSec := f.sfc / 3600.0;
    var burnRate := cSec * flight.drag;
    assert burnRate > 0.0 by {
      PositiveProduct(cSec, flight.drag);
    }
    var tSec := BurnTime(si.fuelWeight, burnRate);
    assert tSec * cSec * flight.drag == tSec * burnRate;
    Burn(flight.drag, tSec)
  }

  /**
   * Line 101: t = (W_fuel g) / (rate g). g cancels, so the time is the fuel
   * mass over the burn rate: burning at that rate for that long uses up the fuel.
   */
  function BurnTime(fuel: real, rate: real): (t: real)
    requires rate > 0.0
    ensures t * rate == fuel
  {
    var t := (fuel * Gravity) / (rate * Gravity);
    assert t * (rate * Gravity) == fuel * Gravity;
    assert t * rate * Gravity == fuel * Gravity;
    t
  }

  /**
   * Within the widget bounds the weight check fails exactly when no fuel is
   * entered or when the aircraft has neither empty mass nor passengers.
   */
  lemma RejectsExactly(m: MathLib, f: Form)
    requires Lawful(m)
    requires WithinWidgetBounds(f)
    ensures Run(m, f).Err? <==> f.fuelWeight == 0.0 || (f.emptyWeight == 0.0 && f.passengers == 0)
  {
    var si := ToSi(f);
    assert si.fuelWeight == 0.0 <==> f.fuelWeight == 0.0;
    assert si.emptyWeight == 0.0 <==> f.emptyWeight == 0.0;
    NonnegativeProduct(f.passengers as real, si.passengerWeight);
    if PassengerMass(f) == 0.0 {
      Aero.ZeroProduct(f.passengers as real, si.passengerWeight);
    }
  }

  lemma NonnegativeProduct(a: real, b: real)
    requires a >= 0.0 && b >= 0.0
    ensures a * b >= 0.0
  {
  }

  /** In imperial units the summary gives back the entered pounds and feet per second. */
  lemma ImperialSummaryInEnteredUnits(m: MathLib, f: Form)
    requires Lawful(m)
    requires WithinWidgetBounds(f) && f.system == Imperial && Run(m, f).Ok?
    ensures var d := Run(m, f).value.display;
            && d.initialWeight == f.emptyWeight + f.fuelWeight + f.passengers as real * f.passengerWeight
            && d.finalWeight == f.emptyWeight + f.passengers as real * f.passengerWeight
            && d.passengerWeight == f.passengers as real * f.passengerWeight
            && d.weightUnit == "lb"
            && d.speed == f.speed
            && Run(m, f).value.rangeNm == Run(m, f).value.rangeKm * NauticalMilesPerKm
            && d.range == Run(m, f).value.rangeKm * MilesPerKm && d.rangeUnit == "mi"
            && d.rangeNm == Run(m, f).value.rangeNm
  {
    var n := f.passengers as real;
    var pax := n * (f.passengerWeight * KgPerPound);
    assert pax == (n * f.passengerWeight) * KgPerPound;
    var wi := f.emptyWeight * KgPerPound + f.fuelWeight * KgPerPound + pax;
    assert wi == (f.emptyWeight + f.fuelWeight + n * f.passengerWeight) * KgPerPound;
  }

  /** In metric units the summary shows the masses in kilograms and the entered speed. */
  lemma MetricSummaryInEnteredUnits(m: MathLib, f: Form)
    requires Lawful(m)
    requires WithinWidgetBounds(f) && f.system == Metric && Run(m, f).Ok?
    ensures var d := Run(m, f).value.display;
            && d.initialWeight == f.emptyWeight + f.fuelWeight + f.passengers as real * f.passengerWeight
            && d.finalWeight == f.emptyWeight + f.passengers as real * f.passengerWeight
            && d.weightUnit == "kg"
            && d.speed == f.speed
            && Run(m, f).value.rangeNm == Run(m, f).value.rangeKm * NauticalMilesPerKm
            && d.range == Run(m, f).value.rangeKm && d.rangeUnit == "km"
            && d.rangeNm == Run(m, f).value.rangeNm
  {
  }
}
