/**
 * The aircraft screening of tools/city_to_city_tool.py: for a route distance
 * (the great-circle distance between two geocoded cities, an input here), each
 * aircraft of a fixed catalog is listed with its flight time and fuel needed
 * when the distance is within its Breguet maximum range, skipped when its
 * arithmetic raises, and the listed rows are sorted by fuel needed.
 */
module CityToCityTool {
  import opened Elementary
  import Breguet

  /** One entry of the catalog: speed m/s, SFC 1/hr, L/D, fuel capacity kg, MTOW kg. */
  datatype Aircraft = Aircraft(
    name: string,
    cruiseSpeed: real,
    sfc: real,
    liftToDrag: real,
    fuelCapacity: real,
    maxTakeoffWeight: real)

  /** The catalog, in the dictionary's order (lines 73-151): 11 aircraft, keyed by distinct names. */
  function Catalog(): (c: seq<Aircraft>)
    ensures |c| == 11
    ensures forall i, j :: 0 <= i < j < |c| ==> c[i].name != c[j].name
  {
    [ Aircraft("Boeing 737-800", 230.0, 0.58, 15.0, 26000.0, 79015.0),
      Aircraft("Boeing 787-9", 250.0, 0.52, 19.0, 101000.0, 254000.0),
      Aircraft("Airbus A320neo", 230.0, 0.57, 16.0, 24210.0, 79000.0),
      Aircraft("Airbus A350-900", 250.0, 0.50, 20.0, 140000.0, 280000.0),
      Aircraft("Airbus A330-300", 240.0, 0.55, 18.0, 97530.0, 242000.0),
      Aircraft("Embraer E190", 220.0, 0.60, 14.0, 13000.0, 51000.0),
      Aircraft("Bombardier CRJ900", 220.0, 0.62, 13.0, 12000.0, 38400.0),
      Aircraft("Gulfstream G650", 250.0, 0.54, 18.0, 18300.0, 45000.0),
      Aircraft("Cessna Citation X", 260.0, 0.65, 15.0, 5600.0, 16000.0),
      Aircraft("F-16 Fighting Falcon", 270.0, 1.2, 6.0, 3000.0, 12000.0),
      Aircraft("C-130 Hercules", 180.0, 0.75, 11.0, 19000.0, 70300.0) ]
  }

  /** Positive speed, SFC and L/D, and a fuel capacity below the MTOW, so no formula raises. */
  predicate WellFormed(ac: Aircraft) {
    ac.cruiseSpeed > 0.0 && ac.sfc > 0.0 && ac.liftToDrag > 0.0 && 0.0 < ac.fuelCapacity < ac.maxTakeoffWeight
  }

  /** Every catalog entry is well formed. */
  lemma CatalogWellFormed()
    ensures forall i :: 0 <= i < |Catalog()| ==> WellFormed(Catalog()[i])
  {
  }

  /** One line of the results table. */
  datatype Row = Row(aircraft: string, flightTimeHr: real, fuelNeededKg: real)

  /** What the loop does with one aircraft: skip it (an exception), leave it out, or list it. */
  datatype Screening = Raises | OutOfRange | Listed(row: Row)

  /** The share of the nominal cruise speed flown on average. */
  const EffectiveSpeedFactor: real := 0.85

  /**
   * The body of the loop (lines 181-209): the maximum range from MTOW to
   * MTOW - fuel capacity, and for a distance within it the final mass that the
   * inverted range equation gives, the fuel needed and the flight time at 85%
   * of cruise speed. ZeroDivisionError and ValueError (log of a non-positive
   * ratio) become `Raises`.
   */
  function Evaluate(m: MathLib, ac: Aircraft, distanceKm: real): (s: Screening)
    requires Lawful(m)
    ensures s.Listed? ==> s.row.aircraft == ac.name
  {
    var cSec := ac.sfc / 3600.0;
    var mtow := ac.maxTakeoffWeight;
    var dry := mtow - ac.fuelCapacity;
    if cSec == 0.0 || dry == 0.0 || mtow / dry <= 0.0 then Raises
    else
      var maxRangeM := Breguet.Range(m, ac.cruiseSpeed, ac.sfc, ac.liftToDrag, mtow, dry);
      var distanceM := distanceKm * 1000.0;
      if distanceM <= maxRangeM then
        if ac.cruiseSpeed * ac.liftToDrag == 0.0 then Raises
        else
          var wf := Breguet.FinalMassAfter(m, ac.cruiseSpeed, ac.sfc, ac.liftToDrag, mtow, distanceM);
          var fuelNeeded := mtow - wf;
          var effectiveSpeed := ac.cruiseSpeed * EffectiveSpeedFactor;
          var timeHr := distanceKm * 1000.0 / effectiveSpeed / 3600.0;
          Listed(Row(ac.name, timeHr, fuelNeeded))
      else OutOfRange
  }

  /** The Breguet maximum range of a well-formed aircraft, metres. */
  function MaxRange(m: MathLib, ac: Aircraft): (r: real)
    requires Lawful(m) && WellFormed(ac)
    ensures r > 0.0
  {
    var mtow := ac.maxTakeoffWeight;
    Breguet.RangePositive(m, ac.cruiseSpeed, ac.sfc, ac.liftToDrag, mtow, mtow - ac.fuelCapacity);
    Breguet.Range(m, ac.cruiseSpeed, ac.sfc, ac.liftToDrag, mtow, mtow - ac.fuelCapacity)
  }

  /**
   * A well-formed aircraft never raises; it is listed exactly when the route is
   * within its maximum range, and then it needs between 0 and its whole fuel
   * capacity, and flies the route at 85% of its cruise speed.
   */
  lemma EvaluateWellFormed(m: MathLib, ac: Aircraft, distanceKm: real)
    requires Lawful(m) && WellFormed(ac) && distanceKm >= 0.0
    ensures Evaluate(m, ac, distanceKm) != Raises
    ensures Evaluate(m, ac, distanceKm).Listed? <==> distanceKm * 1000.0 <= MaxRange(m, ac)
    ensures Evaluate(m, ac, distanceKm).Listed? ==>
              var row := Evaluate(m, ac, distanceKm).row;
              && 0.0 <= row.fuelNeededKg <= ac.fuelCapacity
              && row.flightTimeHr * (EffectiveSpeedFactor * ac.cruiseSpeed) * 3600.0 == distanceKm * 1000.0
  {
    var mtow := ac.maxTakeoffWeight;
    var dry := mtow - ac.fuelCapacity;
    Breguet.RatioAboveOne(mtow, dry);
    var d := distanceKm * 1000.0;
    var v, c, ld := ac.cruiseSpeed, ac.sfc, ac.liftToDrag;
    PositiveProduct(v, ld);
    if d <= MaxRange(m, ac) {
      var wf := Breguet.FinalMassAfter(m, v, c, ld, mtow, d);
      Breguet.RangeOfFinalMass(m, v, c, ld, mtow, d);
      assert Breguet.Range(m, v, c, ld, mtow, wf) == d;
      if wf > mtow {
        Breguet.NoFuelNoRange(m, v, c, ld, mtow);
        Breguet.RangeFallsWithFinalMass(m, v, c, ld, mtow, mtow, wf);
      }
      if wf < dry {
        Breguet.RangeFallsWithFinalMass(m, v, c, ld, mtow, wf, dry);
      }
      FlightTime(distanceKm, v);
    }
  }

  lemma FlightTime(distanceKm: real, v: real)
    requires v > 0.0
    ensures distanceKm * 1000.0 / (v * EffectiveSpeedFactor) / 3600.0 * (EffectiveSpeedFactor * v) * 3600.0 == distanceKm * 1000.0
  {
    var e := v * EffectiveSpeedFactor;
    assert EffectiveSpeedFactor * v == e;
    var d := distanceKm * 1000.0;
    assert d / e / 3600.0 * e * 3600.0 == d / e * e;
  }

  /** Every aircraft of the list is well formed. */
  predicate AllWellFormed(cat: seq<Aircraft>) {
    forall i :: 0 <= i < |cat| ==> WellFormed(cat[i])
  }

  /** The rows the loop appends, in the order of the list (lines 179-211). */
  function ListedRows(m: MathLib, cat: seq<Aircraft>, distanceKm: real): (rows: seq<Row>)
    requires Lawful(m)
    ensures |rows| <= |cat|
  {
    if cat == [] then []
    else
      var rows := ListedRows(m, cat[..|cat| - 1], distanceKm);
      match Evaluate(m, cat[|cat| - 1], distanceKm)
      case Listed(row) => rows + [row]
      case _ => rows
  }

  /** The loop over the aircraft: the rows appended, one aircraft at a time. */
  method ScreenAircraft(m: MathLib, cat: seq<Aircraft>, distanceKm: real) returns (rows: seq<Row>)
    requires Lawful(m)
    ensures rows == ListedRows(m, cat, distanceKm)
  {
    rows := [];
    var i := 0;
    while i < |cat|
      invariant 0 <= i <= |cat|
      invariant rows == ListedRows(m, cat[..i], distanceKm)
    {
      assert cat[..i + 1][..i] == cat[..i];
      match Evaluate(m, cat[i], distanceKm) {
        case Listed(row) =>
          rows := rows + [row];
        case _ =>
      }
      i := i + 1;
    }
    assert cat[..|cat|] == cat;
  }

  /** The aircraft whose maximum range covers the route, in the order of the list. */
  function InRange(m: MathLib, cat: seq<Aircraft>, distanceKm: real): (r: seq<Aircraft>)
    requires Lawful(m) && AllWellFormed(cat)
    ensures forall ac :: ac in r <==> ac in cat && distanceKm * 1000.0 <= MaxRange(m, ac)
  {
    if cat == [] then []
    else
      var init, last := cat[..|cat| - 1], cat[|cat| - 1];
      assert cat == init + [last];
      InRange(m, init, distanceKm) + (if distanceKm * 1000.0 <= MaxRange(m, last) then [last] else [])
  }

  /** `row` is the one Evaluate lists for `ac`: its name, a fuel need within capacity, the time at 85% cruise. */
  predicate ListsAs(m: MathLib, ac: Aircraft, distanceKm: real, row: Row)
    requires Lawful(m)
  {
    && Evaluate(m, ac, distanceKm) == Listed(row)
    && row.aircraft == ac.name
    && 0.0 <= row.fuelNeededKg <= ac.fuelCapacity
    && row.flightTimeHr * (EffectiveSpeedFactor * ac.cruiseSpeed) * 3600.0 == distanceKm * 1000.0
  }

  /**
   * The table lists, in order, one row for each aircraft whose maximum range
   * covers the route: named after it, needing between 0 and its whole fuel
   * capacity, and flying the route at 85% of its cruise speed.
   */
  lemma ListedRowsAreInRange(m: MathLib, cat: seq<Aircraft>, distanceKm: real)
    requires Lawful(m) && AllWellFormed(cat) && distanceKm >= 0.0
    ensures var rows, r := ListedRows(m, cat, distanceKm), InRange(m, cat, distanceKm);
            && |rows| == |r|
            && forall k :: 0 <= k < |r| ==> ListsAs(m, r[k], distanceKm, rows[k])
  {
    var rows, r := ListedRows(m, cat, distanceKm), InRange(m, cat, distanceKm);
    RowsMatchInRange(m, cat, distanceKm);
    forall k | 0 <= k < |r|
      ensures ListsAs(m, r[k], distanceKm, rows[k])
    {
      assert r[k] in r && r[k] in cat;
      ListedFacts(m, r[k], distanceKm, rows[k]);
    }
  }

  lemma ListedFacts(m: MathLib, ac: Aircraft, distanceKm: real, row: Row)
    requires Lawful(m) && WellFormed(ac) && distanceKm >= 0.0
    requires Evaluate(m, ac, distanceKm) == Listed(row)
    ensures ListsAs(m, ac, distanceKm, row)
  {
    EvaluateWellFormed(m, ac, distanceKm);
  }

  /** The induction behind `ListedRowsAreInRange`: row k is what Evaluate lists for the k-th aircraft in range. */
  lemma {:induction false} RowsMatchInRange(m: MathLib, cat: seq<Aircraft>, distanceKm: real)
    requires Lawful(m) && AllWellFormed(cat) && distanceKm >= 0.0
    ensures var rows, r := ListedRows(m, cat, distanceKm), InRange(m, cat, distanceKm);
            && |rows| == |r|
            && forall k :: 0 <= k < |r| ==> Evaluate(m, r[k], distanceKm) == Listed(rows[k])
  {
    if cat != [] {
      var init, last := cat[..|cat| - 1], cat[|cat| - 1];
      RowsMatchInRange(m, init, distanceKm);
      EvaluateWellFormed(m, last, distanceKm);
      var rows0, r0 := ListedRows(m, init, distanceKm), InRange(m, init, distanceKm);
      if distanceKm * 1000.0 <= MaxRange(m, last) {
        var row := Evaluate(m, last, distanceKm).row;
        assert ListedRows(m, cat, distanceKm) == rows0 + [row];
        assert InRange(m, cat, distanceKm) == r0 + [last];
      } else {
        assert ListedRows(m, cat, distanceKm) == rows0;
        assert InRange(m, cat, distanceKm) == r0;
      }
    }
  }

  /** A longer route never lists more aircraft. */
  lemma {:induction false} FewerRowsFarther(m: MathLib, cat: seq<Aircraft>, distanceKm: real, distanceKm': real)
    requires Lawful(m) && AllWellFormed(cat) && 0.0 <= distanceKm <= distanceKm'
    ensures |ListedRows(m, cat, distanceKm')| <= |ListedRows(m, cat, distanceKm)|
  {
    if cat != [] {
      var last := cat[|cat| - 1];
      FewerRowsFarther(m, cat[..|cat| - 1], distanceKm, distanceKm');
      EvaluateWellFormed(m, last, distanceKm);
      EvaluateWellFormed(m, last, distanceKm');
    }
  }

  /** A route of length 0 lists every aircraft, needing no fuel and no time. */
  lemma {:induction false} ZeroDistanceListsAll(m: MathLib, cat: seq<Aircraft>)
    requires Lawful(m) && AllWellFormed(cat)
    ensures var rows := ListedRows(m, cat, 0.0);
            && |rows| == |cat|
            && forall k :: 0 <= k < |cat| ==> rows[k] == Row(cat[k].name, 0.0, 0.0)
  {
    if cat != [] {
      var last := cat[|cat| - 1];
      ZeroDistanceListsAll(m, cat[..|cat| - 1]);
      assert MaxRange(m, last) > 0.0;
      PositiveProduct(last.cruiseSpeed, last.liftToDrag);
      assert (last.sfc / 3600.0) * 0.0 / (last.cruiseSpeed * last.liftToDrag) == 0.0;
      assert Evaluate(m, last, 0.0) == Listed(Row(last.name, 0.0, 0.0));
    }
  }

  /** No aircraft of the catalog ever makes the loop skip it through an exception. */
  lemma CatalogNeverRaises(m: MathLib, distanceKm: real)
    requires Lawful(m) && distanceKm >= 0.0
    ensures forall i :: 0 <= i < |Catalog()| ==> Evaluate(m, Catalog()[i], distanceKm) != Raises
  {
    CatalogWellFormed();
    forall i | 0 <= i < |Catalog()|
      ensures Evaluate(m, Catalog()[i], distanceKm) != Raises
    {
      EvaluateWellFormed(m, Catalog()[i], distanceKm);
    }
  }

  /** An upper bound on the maximum range from ln(x) <= x - 1: (V / c) (L/D) (MTOW / (MTOW - fuel) - 1). */
  function RangeBound(ac: Aircraft): real
    requires WellFormed(ac)
  {
    (ac.cruiseSpeed / (ac.sfc / 3600.0)) * ac.liftToDrag * (ac.maxTakeoffWeight / (ac.maxTakeoffWeight - ac.fuelCapacity) - 1.0)
  }

  lemma MaxRangeBelowBound(m: MathLib, ac: Aircraft)
    requires Lawful(m) && AboveTangent(m) && WellFormed(ac)
    ensures MaxRange(m, ac) <= RangeBound(ac)
  {
    var mtow := ac.maxTakeoffWeight;
    var x := mtow / (mtow - ac.fuelCapacity);
    Breguet.RatioAboveOne(mtow, mtow - ac.fuelCapacity);
    LnBelowLine(m, x);
    var a := (ac.cruiseSpeed / (ac.sfc / 3600.0)) * ac.liftToDrag;
    Breguet.PositiveTriple(ac.cruiseSpeed / (ac.sfc / 3600.0), ac.liftToDrag, 1.0);
    ScaleAtMost(a, m.ln(x), x - 1.0);
  }

  lemma ScaleAtMost(a: real, p: real, q: real)
    requires a > 0.0 && p <= q
    ensures a * p <= a * q
  {
  }

  /** The largest bound in the catalog is the A350-900's, 36000 km. */
  lemma CatalogRangeBound()
    ensures forall i :: 0 <= i < |Catalog()| ==> WellFormed(Catalog()[i]) && RangeBound(Catalog()[i]) <= 36000000.0
  {
    CatalogWellFormed();
    forall i | 0 <= i < |Catalog()|
      ensures RangeBound(Catalog()[i]) <= 36000000.0
    {
      AircraftRangeBound(i);
    }
  }

  lemma AircraftRangeBound(i: nat)
    requires i < |Catalog()| && WellFormed(Catalog()[i])
    ensures RangeBound(Catalog()[i]) <= 36000000.0
  {
    // splitting the catalog keeps each query to a few aircraft
    if i < 4 {
    } else if i < 8 {
    } else {
    }
  }

  /** Aircraft that all fall short of the route list nothing. */
  lemma {:induction false} NoneInRangeListsNothing(m: MathLib, cat: seq<Aircraft>, distanceKm: real)
    requires Lawful(m) && distanceKm >= 0.0
    requires forall i :: 0 <= i < |cat| ==> WellFormed(cat[i]) && MaxRange(m, cat[i]) < distanceKm * 1000.0
    ensures ListedRows(m, cat, distanceKm) == []
  {
    if cat != [] {
      NoneInRangeListsNothing(m, cat[..|cat| - 1], distanceKm);
      EvaluateWellFormed(m, cat[|cat| - 1], distanceKm);
    }
  }

  /** With exp above its tangent, no aircraft of the catalog can fly a route longer than 36000 km. */
  lemma FarRouteListsNothing(m: MathLib, distanceKm: real)
    requires Lawful(m) && AboveTangent(m) && distanceKm > 36000.0
    ensures ListedRows(m, Catalog(), distanceKm) == []
  {
    CatalogRangeBound();
    forall i | 0 <= i < |Catalog()|
      ensures MaxRange(m, Catalog()[i]) < distanceKm * 1000.0
    {
      MaxRangeBelowBound(m, Catalog()[i]);
    }
    NoneInRangeListsNothing(m, Catalog(), distanceKm);
  }

  // ---------------------------------------------------------------------------
  // The table: the mean flight time and the rows sorted by fuel needed
  // ---------------------------------------------------------------------------

  predicate SortedByFuel(rows: seq<Row>) {
    forall i, j :: 0 <= i < j < |rows| ==> rows[i].fuelNeededKg <= rows[j].fuelNeededKg
  }

  function InsertByFuel(row: Row, rows: seq<Row>): (r: seq<Row>)
    requires SortedByFuel(rows)
    ensures SortedByFuel(r)
    ensures multiset(r) == multiset(rows) + multiset{row}
    ensures |r| == |rows| + 1 && (r[0] == row || (rows != [] && r[0] == rows[0]))
  {
    if rows == [] then [row]
    else if row.fuelNeededKg <= rows[0].fuelNeededKg then [row] + rows
    else
      TailSorted(rows);
      var rest := InsertByFuel(row, rows[1..]);
      InsertStep(row, rows, rest);
      [rows[0]] + rest
  }

  lemma TailSorted(rows: seq<Row>)
    requires rows != [] && SortedByFuel(rows)
    ensures SortedByFuel(rows[1..])
  {
  }

  /** The recursive step of the insertion: the head stays in front of the sorted insertion into the tail. */
  lemma InsertStep(row: Row, rows: seq<Row>, rest: seq<Row>)
    requires rows != [] && SortedByFuel(rows) && row.fuelNeededKg > rows[0].fuelNeededKg
    requires SortedByFuel(rest) && multiset(rest) == multiset(rows[1..]) + multiset{row}
    requires |rest| == |rows| && (rest[0] == row || (rows[1..] != [] && rest[0] == rows[1..][0]))
    ensures SortedByFuel([rows[0]] + rest)
    ensures multiset([rows[0]] + rest) == multiset(rows) + multiset{row}
  {
    assert rows == [rows[0]] + rows[1..];
    PrependKeepsSorted(rows[0], rest);
  }

  /** A row no heavier than the head of a sorted list extends it sorted. */
  lemma PrependKeepsSorted(row: Row, rows: seq<Row>)
    requires SortedByFuel(rows)
    requires rows == [] || row.fuelNeededKg <= rows[0].fuelNeededKg
    ensures SortedByFuel([row] + rows)
  {
  }

  /** `sort_values("Fuel Needed (kg)")`: the same rows, in increasing order of fuel needed. */
  function SortByFuel(rows: seq<Row>): (r: seq<Row>)
    ensures SortedByFuel(r)
    ensures multiset(r) == multiset(rows)
  {
    if rows == [] then []
    else
      assert rows == [rows[0]] + rows[1..];
      InsertByFuel(rows[0], SortByFuel(rows[1..]))
  }

  function TotalTime(rows: seq<Row>): real {
    if rows == [] then 0.0 else TotalTime(rows[..|rows| - 1]) + rows[|rows| - 1].flightTimeHr
  }

  /** The mean of the flight-time column. */
  function AverageTime(rows: seq<Row>): real
    requires rows != []
  {
    TotalTime(rows) / (|rows| as real)
  }

  lemma {:induction false} TotalTimeBounds(rows: seq<Row>, lo: real, hi: real)
    requires forall k :: 0 <= k < |rows| ==> lo <= rows[k].flightTimeHr <= hi
    ensures (|rows| as real) * lo <= TotalTime(rows) <= (|rows| as real) * hi
  {
    if rows != [] {
      TotalTimeBounds(rows[..|rows| - 1], lo, hi);
    }
  }

  /** The mean flight time lies between the shortest and the longest one listed. */
  lemma AverageWithinBounds(rows: seq<Row>, lo: real, hi: real)
    requires rows != []
    requires forall k :: 0 <= k < |rows| ==> lo <= rows[k].flightTimeHr <= hi
    ensures lo <= AverageTime(rows) <= hi
  {
    TotalTimeBounds(rows, lo, hi);
    var n := |rows| as real;
    assert AverageTime(rows) * n == TotalTime(rows);
  }

  datatype RouteTable = NoAircraft | Table(averageTimeHr: real, rows: seq<Row>)

  /**
   * The comparison for a route (lines 178-235): the warning when no aircraft is
   * listed, otherwise the mean flight time of the listed rows and the rows
   * sorted by fuel needed.
   */
  method CompareAircraft(m: MathLib, distanceKm: real) returns (t: RouteTable)
    requires Lawful(m)
    ensures t.NoAircraft? <==> ListedRows(m, Catalog(), distanceKm) == []
    ensures t.Table? ==> && t.averageTimeHr == AverageTime(ListedRows(m, Catalog(), distanceKm))
                         && SortedByFuel(t.rows)
                         && multiset(t.rows) == multiset(ListedRows(m, Catalog(), distanceKm))
  {
    var rows := ScreenAircraft(m, Catalog(), distanceKm);
    if rows == [] {
      return NoAircraft;
    }
    t := Table(AverageTime(rows), SortByFuel(rows));
  }
}
