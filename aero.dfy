/**
 * The level-flight lift/drag algebra that tools/lift_drag_tool.py (lines 66-71)
 * and tools/fuel_range_tool.py (lines 92-98) both write out: dynamic pressure,
 * lift coefficient with lift equal to weight, aspect ratio, induced-drag factor,
 * drag coefficient and drag force.
 */
module Aero {
  import opened Elementary

  /** Python's `math.pi`. */
  const Pi: real := 3.141592653589793

  datatype Coefficients = Coefficients(q: real, cl: real, ar: real, k: real, cd: real, drag: real)

  /** q = rho V^2 / 2: for a positive density it is positive exactly when the airspeed is not 0. */
  function DynamicPressure(rho: real, v: real): (q: real)
    ensures rho > 0.0 ==> (q > 0.0 <==> v != 0.0)
  {
    var q := 0.5 * rho * (v * v);
    HalfProductSign(rho, v, q);
    q
  }

  lemma HalfProductSign(rho: real, v: real, q: real)
    requires q == 0.5 * rho * (v * v)
    ensures rho > 0.0 ==> (q > 0.0 <==> v != 0.0)
  {
    if rho > 0.0 && v != 0.0 {
      assert q >= 0.0;
      if q == 0.0 {
        ZeroProduct(0.5 * rho, v * v);
        ZeroProduct(v, v);
      }
    }
  }

  /**
   * The float divisions the formulas perform raise ZeroDivisionError: W / (q S)
   * when q S is 0, b^2 / S when S is 0, and 1 / (pi e AR) when that product is 0.
   */
  predicate DividesByZero(rho: real, v: real, s: real, b: real, e: real) {
    DynamicPressure(rho, v) * s == 0.0 || Pi * e * (b * b / s) == 0.0
  }

  /** Dynamic pressure vanishes only when the density or the speed does. */
  lemma DynamicPressureZero(rho: real, v: real)
    requires DynamicPressure(rho, v) == 0.0
    ensures rho == 0.0 || v == 0.0
  {
    ZeroProduct(0.5 * rho, v * v);
    if v * v == 0.0 {
      ZeroProduct(v, v);
    }
  }

  lemma ZeroProduct(x: real, y: real)
    requires x * y == 0.0
    ensures x == 0.0 || y == 0.0
  {
  }

  lemma ZeroQuotient(x: real, y: real)
    requires y != 0.0 && x / y == 0.0
    ensures x == 0.0
  {
    assert x == (x / y) * y;
  }

  /** With positive density and Oswald factor, the formulas fail exactly when V, S or b is zero. */
  lemma DividesByZeroIff(rho: real, v: real, s: real, b: real, e: real)
    requires rho > 0.0 && e > 0.0
    ensures DividesByZero(rho, v, s, b, e) <==> v == 0.0 || s == 0.0 || b == 0.0
  {
    var q := DynamicPressure(rho, v);
    if DividesByZero(rho, v, s, b, e) {
      if q * s == 0.0 {
        ZeroProduct(q, s);
        if q == 0.0 {
          DynamicPressureZero(rho, v);
        }
      } else {
        ZeroProduct(Pi * e, b * b / s);
        ZeroQuotient(b * b, s);
        ZeroProduct(b, b);
      }
    }
    if v == 0.0 {
      assert q == 0.0;
    }
  }

  /** q, CL, AR, k, CD and D for level flight at density rho, speed V and weight W. */
  function LevelFlight(rho: real, v: real, w: real, s: real, b: real, cd0: real, e: real): (c: Coefficients)
    requires !DividesByZero(rho, v, s, b, e)
    ensures c.q * s * c.cl == w
    ensures c.ar * s == b * b
    ensures c.k * (Pi * e * c.ar) == 1.0
  {
    var q := DynamicPressure(rho, v);
    var cl := w / (q * s);
    var ar := b * b / s;
    var k := 1.0 / (Pi * e * ar);
    var cd := cd0 + k * (cl * cl);
    Coefficients(q, cl, ar, k, cd, q * s * cd)
  }

  /** With a positive wing area and Oswald factor the induced-drag factor is positive, so CD >= CD0. */
  lemma DragCoefficientAtLeastParasitic(rho: real, v: real, w: real, s: real, b: real, cd0: real, e: real)
    requires !DividesByZero(rho, v, s, b, e)
    requires s > 0.0 && e > 0.0
    ensures LevelFlight(rho, v, w, s, b, cd0, e).k > 0.0
    ensures LevelFlight(rho, v, w, s, b, cd0, e).cd >= cd0
  {
    var c := LevelFlight(rho, v, w, s, b, cd0, e);
    assert b * b != 0.0;
    assert b * b > 0.0;
    assert c.ar > 0.0;
    assert Pi * e * c.ar > 0.0;
    assert c.k > 0.0;
    assert c.cl * c.cl >= 0.0;
    assert c.k * (c.cl * c.cl) >= 0.0;
  }

  /**
   * The drag polar: D = q S CD0 + k W^2 / (q S), the parasitic part plus the
   * induced part, which only the weight carried decides.
   */
  lemma DragPolar(rho: real, v: real, w: real, s: real, b: real, cd0: real, e: real)
    requires !DividesByZero(rho, v, s, b, e)
    ensures var c := LevelFlight(rho, v, w, s, b, cd0, e);
            c.drag == c.q * s * cd0 + c.k * w * w / (c.q * s)
  {
    var c := LevelFlight(rho, v, w, s, b, cd0, e);
    var qs := c.q * s;
    assert c.cl == w / qs;
    assert c.drag == qs * cd0 + qs * (c.k * (c.cl * c.cl));
    assert qs * (c.cl * c.cl) == w * w / qs;
  }

  /** With non-negative density and a positive wing area, drag is at least the parasitic drag q S CD0. */
  lemma DragAtLeastParasitic(rho: real, v: real, w: real, s: real, b: real, cd0: real, e: real)
    requires !DividesByZero(rho, v, s, b, e)
    requires rho >= 0.0 && s > 0.0 && e > 0.0
    ensures var c := LevelFlight(rho, v, w, s, b, cd0, e);
            c.drag >= c.q * s * cd0
  {
    var c := LevelFlight(rho, v, w, s, b, cd0, e);
    DragCoefficientAtLeastParasitic(rho, v, w, s, b, cd0, e);
    assert v * v >= 0.0;
    assert c.q >= 0.0;
    assert c.q * s >= 0.0;
    assert c.q * s * (c.cd - cd0) >= 0.0;
  }

  /**
   * With every input on the physical side of zero the drag is positive, so a
   * fuel burn rate proportional to it is positive too.
   */
  lemma DragPositive(rho: real, v: real, w: real, s: real, b: real, cd0: real, e: real)
    requires rho > 0.0 && v != 0.0 && w != 0.0 && s > 0.0 && b != 0.0 && cd0 >= 0.0 && e > 0.0
    ensures !DividesByZero(rho, v, s, b, e)
    ensures LevelFlight(rho, v, w, s, b, cd0, e).drag > 0.0
  {
    DividesByZeroIff(rho, v, s, b, e);
    var c := LevelFlight(rho, v, w, s, b, cd0, e);
    DragCoefficientAtLeastParasitic(rho, v, w, s, b, cd0, e);
    assert c.cl != 0.0;
    SquarePositive(c.cl);
    PositiveProduct(c.k, c.cl * c.cl);
    assert c.cd > 0.0;
    PositiveProduct(c.q, s);
    PositiveProduct(c.q * s, c.cd);
  }

  lemma SquarePositive(x: real)
    requires x != 0.0
    ensures x * x > 0.0
  {
  }
}
