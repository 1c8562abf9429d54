/**
 * The lift and drag calculator of tools/lift_drag_tool.py: the form in metric
 * or imperial units, the density from the atmosphere model, the level-flight
 * coefficients and forces, and the dashboard in the chosen units. The airspeed,
 * weight, wing area and span inputs have no minimum, so a zero among them makes
 * the page divide by zero; that crash is an outcome of its own here. The
 * density depends on the atmosphere's troposphere exponent, which is a
 * parameter: `TroposphereExponentAsWritten` gives the page as the program
 * shows it, `TroposphereExponent` the page with the sign corrected.
 */
module LiftDragTool {
  import opened Elementary
  import opened Utils
  import Aero

  datatype UnitSystem = Metric | Imperial

  /**
   * The form as entered. Metric: airspeed m/s, mass kg, area m^2, span m.
   * Imperial: airspeed ft/s, weight lb, area ft^2, span ft.
   */
  datatype Form = Form(
    system: UnitSystem,
    altitudeUnit: AltitudeUnit,
    altitude: real,
    speed: real,
    weight: real,
    wingArea: real,
    span: real,
    cd0: real,
    oswald: real)

  /** The bounds the number inputs enforce; the aircraft inputs have none. */
  predicate WithinWidgetBounds(f: Form) {
    0.0 <= f.altitude <= 47000.0 && f.cd0 >= 0.0 && 0.1 <= f.oswald <= 1.0
  }

  const FeetPerMetre: real := 3.28084
  const NewtonsPerPound: real := 4.44822
  const SquareMetresPerSquareFoot: real := 0.092903
  const MetresPerFoot: real := 0.3048
  const Gravity: real := 9.81
  const KgPerM3PerSlugPerFt3: real := 515.3788

  /** Airspeed m/s, weight N, wing area m^2 and span m (lines 28-46). */
  datatype SiInputs = SiInputs(speed: real, weight: real, wingArea: real, span: real)

  function ToSi(f: Form): (si: SiInputs)
    ensures f.system == Imperial ==> && si.speed * FeetPerMetre == f.speed
                                     && si.weight / NewtonsPerPound == f.weight
                                     && si.wingArea / SquareMetresPerSquareFoot == f.wingArea
                                     && si.span / MetresPerFoot == f.span
    ensures f.system == Metric ==> && si.speed == f.speed && si.weight / Gravity == f.weight
                                   && si.wingArea == f.wingArea && si.span == f.span
    ensures si.speed == 0.0 <==> f.speed == 0.0
    ensures si.weight == 0.0 <==> f.weight == 0.0
    ensures si.wingArea == 0.0 <==> f.wingArea == 0.0
    ensures si.span == 0.0 <==> f.span == 0.0
  {
    match f.system
    case Imperial =>
      SiInputs(f.speed / FeetPerMetre, f.weight * NewtonsPerPound, f.wingArea * SquareMetresPerSquareFoot, f.span * MetresPerFoot)
    case Metric =>
      SiInputs(f.speed, f.weight * Gravity, f.wingArea, f.span)
  }

  /** The dashboard: lift, drag, airspeed and density in the chosen units, and the coefficients. */
  datatype Dashboard = Dashboard(
    lift: real,
    drag: real,
    speed: real,
    density: real,
    forceUnit: string,
    densityUnit: string,
    speedUnit: string,
    cl: real,
    cd: real,
    aspectRatio: real,
    k: real)

  datatype Outcome =
    | AltitudeError
    | DivisionByZero
    | Shown(dashboard: Dashboard)

  /** The page's computation from the form to what it shows. */
  function LiftDragPage(m: MathLib, troposphereExponent: real, f: Form): (o: Outcome)
    requires WithinWidgetBounds(f)
    ensures o == AltitudeError <==> ToMetres(f.altitude, f.altitudeUnit) > 47000.0
    ensures o == DivisionByZero <==>
              && ToMetres(f.altitude, f.altitudeUnit) <= 47000.0
              && Aero.DividesByZero(AtmosphereWith(m, ToMetres(f.altitude, f.altitudeUnit), troposphereExponent).value.density,
                                    ToSi(f).speed, ToSi(f).wingArea, ToSi(f).span, f.oswald)
    ensures o.Shown? ==> o.dashboard.cd >= f.cd0 || o.dashboard.k <= 0.0
    ensures o.Shown? ==>
              && AtmosphereWith(m, ToMetres(f.altitude, f.altitudeUnit), troposphereExponent).Some?
              && var rho := AtmosphereWith(m, ToMetres(f.altitude, f.altitudeUnit), troposphereExponent).value.density;
                 && !Aero.DividesByZero(rho, ToSi(f).speed, ToSi(f).wingArea, ToSi(f).span, f.oswald)
                 && var c := Aero.LevelFlight(rho, ToSi(f).speed, ToSi(f).weight, ToSi(f).wingArea, ToSi(f).span, f.cd0, f.oswald);
                    && o.dashboard.cl == c.cl && o.dashboard.cd == c.cd
                    && o.dashboard.aspectRatio == c.ar && o.dashboard.k == c.k
                    && (f.system == Metric ==> o.dashboard.drag == c.drag)
                    && (f.system == Imperial ==> o.dashboard.drag * NewtonsPerPound == c.drag)
  {
    var altM := ToMetres(f.altitude, f.altitudeUnit);
    match AtmosphereWith(m, altM, troposphereExponent)
    case None => AltitudeError
    case Some(atm) =>
      var rho := atm.density;
      var si := ToSi(f);
      if Aero.DividesByZero(rho, si.speed, si.wingArea, si.span, f.oswald) then DivisionByZero
      else
        var c := Aero.LevelFlight(rho, si.speed, si.weight, si.wingArea, si.span, f.cd0, f.oswald);
        assert c.cd >= f.cd0 || c.k <= 0.0 by {
          if c.k > 0.0 {
            NonnegativeSquareTimes(c.k, c.cl);
          }
        }
        match f.system
        case Imperial =>
          Shown(Dashboard(si.weight / NewtonsPerPound, c.drag / NewtonsPerPound, si.speed * FeetPerMetre,
                          rho / KgPerM3PerSlugPerFt3, "lb", "slug/ft³", "ft/s", c.cl, c.cd, c.ar, c.k))
        case Metric =>
          Shown(Dashboard(si.weight, c.drag, si.speed, rho, "N", "kg/m³", "m/s", c.cl, c.cd, c.ar, c.k))
  }

  lemma NonnegativeSquareTimes(k: real, x: real)
    requires k > 0.0
    ensures k * (x * x) >= 0.0
  {
    assert x * x >= 0.0;
  }

  /**
   * With a lawful atmosphere the page crashes exactly when the entered airspeed,
   * wing area or span is 0; otherwise it shows lift equal to the weight entered
   * (in lb, or mass times 9.81 in N), the entered airspeed, and a drag
   * coefficient no smaller than CD0 when the wing area is positive.
   */
  lemma DashboardFacts(m: MathLib, troposphereExponent: real, f: Form)
    requires Lawful(m)
    requires WithinWidgetBounds(f)
    requires ToMetres(f.altitude, f.altitudeUnit) <= 47000.0
    ensures LiftDragPage(m, troposphereExponent, f) == DivisionByZero <==> f.speed == 0.0 || f.wingArea == 0.0 || f.span == 0.0
    ensures LiftDragPage(m, troposphereExponent, f).Shown? ==>
              var d := LiftDragPage(m, troposphereExponent, f).dashboard;
              && d.lift == (if f.system == Imperial then f.weight else f.weight * Gravity)
              && d.speed == f.speed
              && (f.wingArea > 0.0 ==> d.cd >= f.cd0)
  {
    var altM := ToMetres(f.altitude, f.altitudeUnit);
    AtmospherePositive(m, altM, troposphereExponent);
    var rho := AtmosphereWith(m, altM, troposphereExponent).value.density;
    var si := ToSi(f);
    Aero.DividesByZeroIff(rho, si.speed, si.wingArea, si.span, f.oswald);
    if LiftDragPage(m, troposphereExponent, f).Shown? && si.wingArea > 0.0 {
      Aero.DragCoefficientAtLeastParasitic(rho, si.speed, si.weight, si.wingArea, si.span, f.cd0, f.oswald);
    }
  }

  /** The page in imperial units shows the drag in pounds and the density in slug/ft^3 of the SI values it computed. */
  lemma ImperialDashboardConverts(m: MathLib, troposphereExponent: real, f: Form)
    requires WithinWidgetBounds(f) && f.system == Imperial && LiftDragPage(m, troposphereExponent, f).Shown?
    ensures var d := LiftDragPage(m, troposphereExponent, f).dashboard;
            var rho := AtmosphereWith(m, ToMetres(f.altitude, f.altitudeUnit), troposphereExponent).value.density;
            var si := ToSi(f);
            && d.drag * NewtonsPerPound == Aero.LevelFlight(rho, si.speed, si.weight, si.wingArea, si.span, f.cd0, f.oswald).drag
            && d.density * KgPerM3PerSlugPerFt3 == rho
            && d.forceUnit == "lb" && d.densityUnit == "slug/ft³" && d.speedUnit == "ft/s"
  {
  }

  /**
   * Between the ground and 11 km the page as the program shows it computes its
   * forces with denser air than the corrected atmosphere gives: the
   * temperature is the same, but the pressure is above 101325 Pa instead of below it.
   */
  lemma AsWrittenDensityTooHigh(m: MathLib, f: Form)
    requires Lawful(m)
    requires WithinWidgetBounds(f) && f.system == Metric && f.altitudeUnit == Meters
    requires 0.0 < f.altitude <= 11000.0
    requires f.speed != 0.0 && f.wingArea != 0.0 && f.span != 0.0
    ensures LiftDragPage(m, TroposphereExponentAsWritten, f).Shown?
    ensures LiftDragPage(m, TroposphereExponent, f).Shown?
    ensures LiftDragPage(m, TroposphereExponent, f).dashboard.density
            < LiftDragPage(m, TroposphereExponentAsWritten, f).dashboard.density
  {
    var h := f.altitude;
    assert ToMetres(h, Meters) == h;
    MetricDensityShown(m, TroposphereExponentAsWritten, f);
    MetricDensityShown(m, TroposphereExponent, f);
    AsWrittenTroposphereTooDense(m, h);
  }

  /** A metric page whose inputs are all nonzero shows the density of the atmosphere it was given. */
  lemma MetricDensityShown(m: MathLib, troposphereExponent: real, f: Form)
    requires Lawful(m)
    requires WithinWidgetBounds(f) && f.system == Metric && ToMetres(f.altitude, f.altitudeUnit) <= 47000.0
    requires f.speed != 0.0 && f.wingArea != 0.0 && f.span != 0.0
    ensures LiftDragPage(m, troposphereExponent, f).Shown?
    ensures LiftDragPage(m, troposphereExponent, f).dashboard.density
            == AtmosphereWith(m, ToMetres(f.altitude, f.altitudeUnit), troposphereExponent).value.density
  {
    DashboardFacts(m, troposphereExponent, f);
  }
}
