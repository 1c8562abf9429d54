/**
 * The Breguet jet range and endurance equations in the mass form that
 * tools/fuel_range_tool.py (lines 83-88) and tools/mission_planner_tool.py
 * (line 74) evaluate: with a thrust-specific fuel consumption c in 1/hr,
 *   range     = (V / (c / 3600)) * L/D * ln(Wi / Wf)   metres,
 *   endurance = (1 / c) * L/D * ln(Wi / Wf)             hours.
 * g cancels from the weight ratio, so masses stand in for weights.
 */
module Breguet {
  import opened Elementary

  /** Breguet range in metres for a speed in m/s and a consumption in 1/hr. */
  function Range(m: MathLib, v: real, c: real, ld: real, wi: real, wf: real): (r: real)
    requires c != 0.0 && wf != 0.0 && wi / wf > 0.0
    ensures r * (c / 3600.0) == v * ld * m.ln(wi / wf)
  {
    var k := c / 3600.0;
    var r := (v / k) * ld * m.ln(wi / wf);
    Regroup(v / k, ld, m.ln(wi / wf));
    assert (v / k) * k == v;
    r
  }

  /** Breguet endurance in hours. */
  function Endurance(m: MathLib, c: real, ld: real, wi: real, wf: real): (e: real)
    requires c != 0.0 && wf != 0.0 && wi / wf > 0.0
    ensures e * c == ld * m.ln(wi / wf)
  {
    var e := (1.0 / c) * ld * m.ln(wi / wf);
    Regroup(1.0 / c, ld, m.ln(wi / wf));
    e
  }

  /** The range is the distance covered at speed V during the endurance: R = 3600 V E. */
  lemma RangeIsSpeedTimesEndurance(m: MathLib, v: real, c: real, ld: real, wi: real, wf: real)
    requires c != 0.0 && wf != 0.0 && wi / wf > 0.0
    ensures Range(m, v, c, ld, wi, wf) == 3600.0 * v * Endurance(m, c, ld, wi, wf)
  {
    var l := m.ln(wi / wf);
    assert v / (c / 3600.0) == 3600.0 * v * (1.0 / c);
    Regroup(3600.0 * v, 1.0 / c, ld * l);
  }

  /** (a b) (c) with the factors regrouped: the shape both Breguet formulas share. */
  lemma Regroup(a: real, b: real, x: real)
    ensures a * b * x == a * (b * x)
  {
  }

  /** Burning fuel (Wi > Wf > 0) at a positive speed, consumption and L/D gives a positive range and endurance. */
  lemma RangePositive(m: MathLib, v: real, c: real, ld: real, wi: real, wf: real)
    requires Lawful(m)
    requires v > 0.0 && c > 0.0 && ld > 0.0 && wi > wf > 0.0
    ensures Range(m, v, c, ld, wi, wf) > 0.0
    ensures Endurance(m, c, ld, wi, wf) > 0.0
  {
    RatioAboveOne(wi, wf);
    LnSign(m, wi / wf);
    var l := m.ln(wi / wf);
    PositiveTriple(v / (c / 3600.0), ld, l);
    PositiveTriple(1.0 / c, ld, l);
  }

  /** With nothing burnt (Wi = Wf) the aircraft goes nowhere. */
  lemma NoFuelNoRange(m: MathLib, v: real, c: real, ld: real, w: real)
    requires Lawful(m)
    requires c != 0.0 && w > 0.0
    ensures Range(m, v, c, ld, w, w) == 0.0
    ensures Endurance(m, c, ld, w, w) == 0.0
  {
    assert w / w == 1.0;
    LnOne(m);
  }

  /** More fuel on the same dry mass goes further: the range grows strictly with Wi. */
  lemma RangeGrowsWithFuel(m: MathLib, v: real, c: real, ld: real, wi: real, wi': real, wf: real)
    requires Lawful(m)
    requires v > 0.0 && c > 0.0 && ld > 0.0 && 0.0 < wf && wf <= wi < wi'
    ensures Range(m, v, c, ld, wi, wf) < Range(m, v, c, ld, wi', wf)
  {
    RatioAboveOne(wi', wf);
    assert wi / wf >= 1.0 by {
      if wi > wf {
        RatioAboveOne(wi, wf);
      }
    }
    RatioIncreasing(wi, wi', wf);
    LnIncreasing(m, wi / wf, wi' / wf);
    var a := v / (c / 3600.0);
    PositiveTriple(a, ld, 1.0);
    ScaleStrict(a * ld, m.ln(wi / wf), m.ln(wi' / wf));
  }

  lemma RatioAboveOne(x: real, y: real)
    requires x > y > 0.0
    ensures x / y > 1.0
  {
    assert x / y * y == x;
  }

  lemma RatioIncreasing(x: real, x': real, y: real)
    requires x < x' && y > 0.0
    ensures x / y < x' / y
  {
    assert x / y * y == x && x' / y * y == x';
  }

  lemma PositiveTriple(a: real, b: real, x: real)
    requires a > 0.0 && b > 0.0 && x > 0.0
    ensures a * b > 0.0 && a * b * x > 0.0
  {
  }

  /**
   * The final mass after flying a distance d from Wi: the Breguet range
   * equation solved for Wf, Wf = Wi / exp((c / 3600) d / (V L/D)).
   */
  function FinalMassAfter(m: MathLib, v: real, c: real, ld: real, wi: real, d: real): (wf: real)
    requires Lawful(m)
    requires v * ld != 0.0
    ensures wf * m.exp((c / 3600.0) * d / (v * ld)) == wi
    ensures wf > 0.0 <==> wi > 0.0
  {
    var ey := m.exp((c / 3600.0) * d / (v * ld));
    assert ey > 0.0;
    wi / ey
  }

  /** Flying the distance that `FinalMassAfter` predicts gives that distance back as the Breguet range. */
  lemma RangeOfFinalMass(m: MathLib, v: real, c: real, ld: real, wi: real, d: real)
    requires Lawful(m)
    requires v * ld != 0.0 && c != 0.0 && wi > 0.0
    ensures FinalMassAfter(m, v, c, ld, wi, d) > 0.0
    ensures Range(m, v, c, ld, wi, FinalMassAfter(m, v, c, ld, wi, d)) == d
  {
    var k := c / 3600.0;
    var y := k * d / (v * ld);
    var ey := m.exp(y);
    assert ey > 0.0;
    DivideBack(wi, ey);
    var wf := wi / ey;
    LnExp(m, y);
    assert FinalMassAfter(m, v, c, ld, wi, d) == wi / m.exp((c / 3600.0) * d / (v * ld));
    assert (c / 3600.0) * d / (v * ld) == y;
    assert FinalMassAfter(m, v, c, ld, wi, d) == wf;
    assert m.ln(wi / wf) == y;
    assert Range(m, v, c, ld, wi, wf) == (v / k) * ld * y;
    Cancel(v, ld, k, d, y);
  }

  lemma DivideBack(x: real, y: real)
    requires x > 0.0 && y > 0.0
    ensures x / y > 0.0 && x / (x / y) == y
  {
    var q := x / y;
    assert q * y == x;
  }

  lemma Cancel(v: real, ld: real, k: real, d: real, y: real)
    requires v * ld != 0.0 && k != 0.0 && y == k * d / (v * ld)
    ensures (v / k) * ld * y == d
  {
    var p := v * ld;
    assert (v / k) * ld == p / k;
    assert y * p == k * d;
    assert p / k * y == d;
  }

  /** A heavier final mass for the same initial mass means a shorter range. */
  lemma RangeFallsWithFinalMass(m: MathLib, v: real, c: real, ld: real, wi: real, wf: real, wf': real)
    requires Lawful(m)
    requires v > 0.0 && c > 0.0 && ld > 0.0 && wi > 0.0 && 0.0 < wf < wf'
    ensures Range(m, v, c, ld, wi, wf') < Range(m, v, c, ld, wi, wf)
  {
    PositiveQuotient(wi, wf');
    ReciprocalFalls(wi, wf, wf');
    LnIncreasing(m, wi / wf', wi / wf);
    var a := v / (c / 3600.0);
    PositiveTriple(a, ld, 1.0);
    ScaleStrict(a * ld, m.ln(wi / wf'), m.ln(wi / wf));
  }

  lemma ReciprocalFalls(x: real, y: real, y': real)
    requires x > 0.0 && 0.0 < y < y'
    ensures x / y' < x / y
  {
    assert x / y * y == x && x / y' * y' == x;
    assert x / y' * y < x / y' * y';
  }
}
