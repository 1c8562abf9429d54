/**
 * The simple mission planner of tools/mission_planner_tool.py: the unit
 * helpers, the weight check, the Breguet range and the flight time, and what
 * the page shows. The page as written divides by the cruise speed, which the
 * form lets be 0, inside a handler that only catches ValueError;
 * `MissionPlanAsWritten` keeps that crash and `MissionPlan` reports it.
 */
module MissionPlannerTool {
  import opened Elementary
  import Breguet

  const KgPerPound: real := 0.453592
  const MpsPerKnot: real := 0.514444
  const KmPerNauticalMile: real := 1.852
  const NauticalMilesPerKm: real := 0.539957
  const MilesPerKm: real := 0.621371

  /** `to_kg`: pounds to kilograms. */
  function ToKg(lb: real): (kg: real)
    ensures kg / KgPerPound == lb
  {
    lb * KgPerPound
  }

  /** `from_kg`: kilograms to pounds. */
  function FromKg(kg: real): (lb: real)
    ensures lb * KgPerPound == kg
  {
    kg / KgPerPound
  }

  /** `to_mps`: knots to metres per second. */
  function ToMps(knots: real): (v: real)
    ensures v / MpsPerKnot == knots
  {
    knots * MpsPerKnot
  }

  /** `from_km`: kilometres to nautical miles. The page defines it but never calls it. */
  function FromKm(km: real): (nm: real)
    ensures nm * KmPerNauticalMile == km
  {
    km / KmPerNauticalMile
  }

  /** Pounds to kilograms and back, and kilograms to pounds and back, give the value back. */
  lemma MassConversionsInverse(x: real)
    ensures FromKg(ToKg(x)) == x
    ensures ToKg(FromKg(x)) == x
  {
    assert FromKg(ToKg(x)) * KgPerPound == ToKg(x);
    assert ToKg(FromKg(x)) / KgPerPound == FromKg(x);
  }

  datatype UnitSystem = Metric | Imperial

  /** The form as entered: masses in kg or lb, cruise speed in m/s or knots. */
  datatype Form = Form(system: UnitSystem, totalWeight: real, fuelWeight: real, cruiseSpeed: real, sfc: real, liftToDrag: real)

  /** The minimum values the number inputs enforce; the cruise speed may be 0. */
  predicate WithinWidgetBounds(f: Form) {
    f.totalWeight >= 0.0 && f.fuelWeight >= 0.0 && f.cruiseSpeed >= 0.0 && f.sfc >= 0.01 && f.liftToDrag >= 1.0
  }

  /** Initial mass, fuel mass (kg) and cruise speed (m/s) after the unit helpers. */
  datatype SiInputs = SiInputs(totalMass: real, fuelMass: real, speed: real)

  function ToSi(f: Form): SiInputs {
    match f.system
    case Metric => SiInputs(f.totalWeight, f.fuelWeight, f.cruiseSpeed)
    case Imperial => SiInputs(ToKg(f.totalWeight), ToKg(f.fuelWeight), ToMps(f.cruiseSpeed))
  }

  /** The metrics: fuel used in kg or lb, the flight time, and the range in km or in mi and nmi. */
  datatype Plan = Plan(
    rangeM: real,
    rangeKm: real,
    rangeNm: real,
    rangeMi: real,
    timeHr: real,
    fuelShown: real,
    fuelUnit: string)

  datatype Outcome =
    | InvalidWeightCombination
    | InvalidInput
    | Crash
    | Planned(plan: Plan)

  predicate WeightsRejected(si: SiInputs) {
    var wf := si.totalMass - si.fuelMass;
    wf <= 0.0 || si.totalMass <= wf
  }

  /** The plan once the weights passed the check and the speed is not 0 (lines 74-97). */
  function PlanFor(m: MathLib, f: Form): (p: Plan)
    requires WithinWidgetBounds(f)
    requires !WeightsRejected(ToSi(f)) && ToSi(f).speed != 0.0
    ensures var si := ToSi(f);
            && si.totalMass / (si.totalMass - si.fuelMass) > 0.0
            && p.rangeM == Breguet.Range(m, si.speed, f.sfc, f.liftToDrag, si.totalMass, si.totalMass - si.fuelMass)
            && p.rangeKm * 1000.0 == p.rangeM
            && p.rangeNm == p.rangeKm * NauticalMilesPerKm && p.rangeMi == p.rangeKm * MilesPerKm
            && p.timeHr * 3600.0 * si.speed == p.rangeM
    ensures f.system == Metric ==> p.fuelShown == ToSi(f).fuelMass && p.fuelUnit == "kg"
    ensures f.system == Imperial ==> p.fuelShown * KgPerPound == ToSi(f).fuelMass && p.fuelUnit == "lb"
  {
    var si := ToSi(f);
    var wi := si.totalMass;
    var wf := wi - si.fuelMass;
    assert wi / wf > 0.0 by {
      Breguet.RatioAboveOne(wi, wf);
    }
    var rangeM := Breguet.Range(m, si.speed, f.sfc, f.liftToDrag, wi, wf);
    var rangeKm := rangeM / 1000.0;
    var timeHr := rangeM / si.speed / 3600.0;
    var fuelShown := if f.system == Metric then si.fuelMass else FromKg(si.fuelMass);
    var fuelUnit := if f.system == Metric then "kg" else "lb";
    Plan(rangeM, rangeKm, rangeKm * NauticalMilesPerKm, rangeKm * MilesPerKm, timeHr, fuelShown, fuelUnit)
  }

  /**
   * The page as written: a cruise speed of 0 makes line 80 divide 0.0 by 0.0,
   * and the ZeroDivisionError escapes the `except ValueError` at line 99.
   */
  function MissionPlanAsWritten(m: MathLib, f: Form): (o: Outcome)
    requires WithinWidgetBounds(f)
    ensures o == InvalidWeightCombination <==> WeightsRejected(ToSi(f))
    ensures o == Crash <==> !WeightsRejected(ToSi(f)) && f.cruiseSpeed == 0.0
    ensures o != InvalidInput
  {
    var si := ToSi(f);
    if WeightsRejected(si) then InvalidWeightCombination
    else if si.speed == 0.0 then Crash
    else Planned(PlanFor(m, f))
  }

  /**
   * The page with the zero cruise speed reported through the page's own
   * "Invalid input combination" error instead of crashing.
   */
  function MissionPlan(m: MathLib, f: Form): (o: Outcome)
    requires WithinWidgetBounds(f)
    ensures o == InvalidWeightCombination <==> WeightsRejected(ToSi(f))
    ensures o == InvalidInput <==> !WeightsRejected(ToSi(f)) && f.cruiseSpeed == 0.0
    ensures o != Crash
    ensures o.Planned? ==> o == MissionPlanAsWritten(m, f)
  {
    var si := ToSi(f);
    if WeightsRejected(si) then InvalidWeightCombination
    else if si.speed == 0.0 then InvalidInput
    else Planned(PlanFor(m, f))
  }

  /** The weight check fails exactly when the fuel is not positive or is not less than the total mass. */
  lemma WeightsRejectedIff(f: Form)
    ensures WeightsRejected(ToSi(f)) <==> f.fuelWeight <= 0.0 || f.fuelWeight >= f.totalWeight
  {
  }

  /** The metric default form with the cruise speed set to 0 crashes as written and is reported once corrected. */
  lemma ZeroCruiseSpeedCrashes(m: MathLib)
    ensures MissionPlanAsWritten(m, Form(Metric, 35000.0, 10000.0, 0.0, 0.6, 15.0)) == Crash
    ensures MissionPlan(m, Form(Metric, 35000.0, 10000.0, 0.0, 0.6, 15.0)) == InvalidInput
  {
  }

  /**
   * A planned mission: a positive range, a flight time equal to the Breguet
   * endurance (the range over the speed), the range in every unit shown,
   * and the fuel used shown as entered.
   */
  lemma PlannedMission(m: MathLib, f: Form)
    requires Lawful(m)
    requires WithinWidgetBounds(f) && MissionPlan(m, f).Planned?
    ensures var p := MissionPlan(m, f).plan;
            var si := ToSi(f);
            && p.rangeM > 0.0
            && p.timeHr == Breguet.Endurance(m, f.sfc, f.liftToDrag, si.totalMass, si.totalMass - si.fuelMass)
            && p.rangeM == 3600.0 * si.speed * p.timeHr
            && p.rangeKm * 1000.0 == p.rangeM
            && p.fuelShown == f.fuelWeight
            && p.rangeNm == p.rangeKm * NauticalMilesPerKm && p.rangeMi == p.rangeKm * MilesPerKm
  {
    var si := ToSi(f);
    var wi := si.totalMass;
    var wf := wi - si.fuelMass;
    assert si.speed > 0.0;
    Breguet.RatioAboveOne(wi, wf);
    Breguet.RangePositive(m, si.speed, f.sfc, f.liftToDrag, wi, wf);
    Breguet.RangeIsSpeedTimesEndurance(m, si.speed, f.sfc, f.liftToDrag, wi, wf);
    var r := Breguet.Range(m, si.speed, f.sfc, f.liftToDrag, wi, wf);
    var e := Breguet.Endurance(m, f.sfc, f.liftToDrag, wi, wf);
    OverSpeed(r, si.speed, e);
    MassConversionsInverse(f.fuelWeight);
  }

  lemma OverSpeed(r: real, v: real, e: real)
    requires v != 0.0 && r == 3600.0 * v * e
    ensures r / v / 3600.0 == e
  {
    assert r / v == 3600.0 * e;
  }
}
