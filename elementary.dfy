/**
 * The transcendental functions of Python's `math` module (`log`, `exp`,
 * `sqrt`) and the float power operator `**`.
 *
 * Their exact values are not modelled: a `MathLib` carries the three functions
 * as values and `Lawful` states the laws the proofs rely on. Every member that
 * needs a law takes the library as a parameter and requires `Lawful`.
 * `Pow(x, y)` for a positive base is `exp(y * ln x)`, as for real numbers.
 */
module Elementary {

  datatype MathLib = MathLib(ln: real -> real, exp: real -> real, sqrt: real -> real)

  /**
   * `y < z`, named so that the two order-preserving laws below fire only where
   * a proof asks for them (through `ExpIncreasing` and `SqrtIncreasing`).
   */
  predicate Below(y: real, z: real) {
    y < z
  }

  /** The laws of exp, ln and sqrt used by the proofs. */
  ghost predicate Lawful(m: MathLib) {
    && (forall y :: m.exp(y) > 0.0)
    && (forall y, z {:trigger Below(y, z)} :: Below(y, z) ==> m.exp(y) < m.exp(z))
    && m.exp(0.0) == 1.0
    && (forall x :: x > 0.0 ==> m.exp(m.ln(x)) == x)
    && (forall x :: x > 0.0 ==> m.sqrt(x) > 0.0)
    && (forall x, x' {:trigger Below(x, x')} :: 0.0 <= x && Below(x, x') ==> m.sqrt(x) < m.sqrt(x'))
  }

  /**
   * exp lies above its tangent at 0. Kept apart from `Lawful` and required only
   * by the bounds that need it, so that the other proofs see fewer quantifiers.
   */
  ghost predicate AboveTangent(m: MathLib) {
    forall y :: m.exp(y) >= 1.0 + y
  }

  /** `x ** y` for a positive float base. */
  function Pow(m: MathLib, x: real, y: real): real
    requires x > 0.0
  {
    m.exp(Times(y, m.ln(x)))
  }

  /** A product kept behind a name, so that the solver does not expand every power into nonlinear arithmetic. */
  function Times(a: real, b: real): real {
    a * b
  }

  // ---------------------------------------------------------------------------
  // Consequences of the laws
  // ---------------------------------------------------------------------------

  lemma ExpInjective(m: MathLib, y: real, z: real)
    requires Lawful(m)
    requires m.exp(y) == m.exp(z)
    ensures y == z
  {
    assert !Below(y, z) && !Below(z, y);
  }

  lemma LnExp(m: MathLib, y: real)
    requires Lawful(m)
    ensures m.ln(m.exp(y)) == y
  {
    var x := m.exp(y);
    assert x > 0.0;
    assert m.exp(m.ln(x)) == x;
    ExpInjective(m, m.ln(x), y);
  }

  lemma LnOne(m: MathLib)
    requires Lawful(m)
    ensures m.ln(1.0) == 0.0
  {
    LnExp(m, 0.0);
  }

  /** ln is strictly increasing on the positive reals. */
  lemma LnIncreasing(m: MathLib, x: real, x': real)
    requires Lawful(m)
    requires 0.0 < x < x'
    ensures m.ln(x) < m.ln(x')
  {
    assert m.exp(m.ln(x)) == x && m.exp(m.ln(x')) == x';
    assert !Below(m.ln(x'), m.ln(x));
    if m.ln(x) == m.ln(x') {
      assert false;
    }
  }

  /** The sign of ln x follows the side of 1 that x lies on. */
  lemma LnSign(m: MathLib, x: real)
    requires Lawful(m)
    requires x > 0.0
    ensures x > 1.0 ==> m.ln(x) > 0.0
    ensures x < 1.0 ==> m.ln(x) < 0.0
  {
    LnOne(m);
    if x > 1.0 {
      LnIncreasing(m, 1.0, x);
    } else if x < 1.0 {
      LnIncreasing(m, x, 1.0);
    }
  }

  /** ln x <= x - 1, from exp(y) >= 1 + y. */
  lemma LnBelowLine(m: MathLib, x: real)
    requires Lawful(m) && AboveTangent(m)
    requires x > 0.0
    ensures m.ln(x) <= x - 1.0
  {
    assert m.exp(m.ln(x)) >= 1.0 + m.ln(x);
  }

  lemma ExpAtLeastOne(m: MathLib, y: real)
    requires Lawful(m)
    requires y >= 0.0
    ensures m.exp(y) >= 1.0
  {
    if y > 0.0 {
      ExpIncreasing(m, 0.0, y);
    }
  }

  lemma PowPositive(m: MathLib, x: real, y: real)
    requires Lawful(m)
    requires x > 0.0
    ensures Pow(m, x, y) > 0.0
  {
  }

  lemma PowOfOne(m: MathLib, y: real)
    requires Lawful(m)
    ensures Pow(m, 1.0, y) == 1.0
  {
    LnOne(m);
    assert Times(y, m.ln(1.0)) == 0.0;
  }

  /** A power of a base below one is above one when the exponent is negative and below one when it is positive. */
  lemma PowOfFraction(m: MathLib, x: real, y: real)
    requires Lawful(m)
    requires 0.0 < x < 1.0
    ensures y < 0.0 ==> Pow(m, x, y) > 1.0
    ensures y > 0.0 ==> Pow(m, x, y) < 1.0
  {
    LnSign(m, x);
    var l := m.ln(x);
    assert l < 0.0;
    if y < 0.0 {
      assert Times(y, l) > 0.0;
      ExpIncreasing(m, 0.0, Times(y, l));
    } else if y > 0.0 {
      assert Times(y, l) < 0.0;
      ExpIncreasing(m, Times(y, l), 0.0);
    }
  }

  /** x ** y is strictly increasing in x for a positive exponent. */
  lemma PowIncreasing(m: MathLib, x: real, x': real, y: real)
    requires Lawful(m)
    requires 0.0 < x < x' && y > 0.0
    ensures Pow(m, x, y) < Pow(m, x', y)
  {
    LnIncreasing(m, x, x');
    ExpOfScaled(m, y, m.ln(x), m.ln(x'));
  }

  /** x ** y is strictly decreasing in x for a negative exponent. */
  lemma PowDecreasing(m: MathLib, x: real, x': real, y: real)
    requires Lawful(m)
    requires 0.0 < x < x' && y < 0.0
    ensures Pow(m, x', y) < Pow(m, x, y)
  {
    LnIncreasing(m, x, x');
    ExpOfScaled(m, -y, -m.ln(x'), -m.ln(x));
    assert Times(-y, -m.ln(x')) == Times(y, m.ln(x'));
    assert Times(-y, -m.ln(x)) == Times(y, m.ln(x));
  }

  /** exp(c a) < exp(c b) for a positive factor c and a < b. */
  lemma ExpOfScaled(m: MathLib, c: real, a: real, b: real)
    requires Lawful(m)
    requires c > 0.0 && a < b
    ensures m.exp(Times(c, a)) < m.exp(Times(c, b))
  {
    ScaleStrict(c, a, b);
    ExpIncreasing(m, Times(c, a), Times(c, b));
  }

  lemma ExpIncreasing(m: MathLib, y: real, z: real)
    requires Lawful(m)
    requires y < z
    ensures m.exp(y) < m.exp(z)
  {
    assert Below(y, z);
  }

  lemma SqrtIncreasing(m: MathLib, x: real, x': real)
    requires Lawful(m)
    requires 0.0 <= x < x'
    ensures m.sqrt(x) < m.sqrt(x')
  {
    assert Below(x, x');
  }

  lemma ScaleStrict(c: real, a: real, b: real)
    requires c > 0.0 && a < b
    ensures Times(c, a) < Times(c, b)
  {
  }

  // --- signs of products and quotients, shared by the modules below ---

  lemma PositiveProduct(a: real, b: real)
    requires a > 0.0 && b > 0.0
    ensures a * b > 0.0
  {
  }

  lemma PositiveQuotient(x: real, y: real)
    requires x > 0.0 && y > 0.0
    ensures x / y > 0.0
  {
  }

  // ---------------------------------------------------------------------------
  // The laws are consistent: a rational surrogate satisfies all of them.
  // ---------------------------------------------------------------------------

  function SurrogateExp(y: real): real {
    if y >= 0.0 then 1.0 + y else 1.0 / (1.0 - y)
  }

  function SurrogateLn(x: real): real {
    if x >= 1.0 then x - 1.0 else if x > 0.0 then 1.0 - 1.0 / x else 0.0
  }

  function SurrogateSqrt(x: real): real {
    if x >= 0.0 then x else 0.0
  }

  lemma BelowReciprocal(a: real, b: real)
    requires b > 0.0 && a * b <= 1.0
    ensures a <= 1.0 / b
  {
    assert a == (a * b) / b;
  }

  lemma SurrogateExpPositiveAboveTangent(y: real)
    ensures SurrogateExp(y) > 0.0 && SurrogateExp(y) >= 1.0 + y
  {
    if y < 0.0 {
      var t := -y;
      assert (1.0 - t) * (1.0 + t) <= 1.0;
      BelowReciprocal(1.0 - t, 1.0 + t);
    }
  }

  lemma SurrogateExpIncreasing(y: real, z: real)
    requires y < z
    ensures SurrogateExp(y) < SurrogateExp(z)
  {
    if z < 0.0 {
      assert 1.0 / (1.0 - y) < 1.0 / (1.0 - z);
    } else if y < 0.0 {
      assert 1.0 / (1.0 - y) < 1.0;
    }
  }

  lemma SurrogateExpLn(x: real)
    requires x > 0.0
    ensures SurrogateExp(SurrogateLn(x)) == x
  {
    if x < 1.0 {
      assert 1.0 - (1.0 - 1.0 / x) == 1.0 / x;
    }
  }

  lemma LawsAreSatisfiable()
    ensures Lawful(MathLib(SurrogateLn, SurrogateExp, SurrogateSqrt))
    ensures AboveTangent(MathLib(SurrogateLn, SurrogateExp, SurrogateSqrt))
  {
    forall y ensures SurrogateExp(y) > 0.0 && SurrogateExp(y) >= 1.0 + y {
      SurrogateExpPositiveAboveTangent(y);
    }
    forall y, z | Below(y, z) ensures SurrogateExp(y) < SurrogateExp(z) {
      SurrogateExpIncreasing(y, z);
    }
    forall x | x > 0.0 ensures SurrogateExp(SurrogateLn(x)) == x {
      SurrogateExpLn(x);
    }
  }
}
