/**
 * The four java.lang.Math functions the library calls (sqrt, acos, cos, sin).
 *
 * They are passed around as a record of functions. Every lemma that needs
 * their algebra asks for `Lawful(m)`. The laws idealise the real functions
 * to the double value of PI in `Angles`, which differs from the true
 * constant by rounding; they are:
 * - sqrt is the non-negative square root;
 * - sin and cos lie on the unit circle and repeat every TAU (twice that
 *   double PI);
 * - acos inverts cos on [0, PI], and reflects it on (PI, TAU);
 * - sin is non-negative on [0, PI] and negative on (PI, TAU).
 * Rounding is not modelled. Math.min and Math.max are exact, so they are
 * plain functions here.
 *
 * The laws are quantified over the named predicates `IsRoot` and `TrigAt`,
 * so the solver only uses them where a proof asks for them through `Root`
 * and `Trig`.
 */
module JavaMath {
  import opened Angles

  datatype Library = Library(sqrt: real -> real, acos: real -> real, cos: real -> real, sin: real -> real)

  ghost predicate IsRoot(m: Library, q: real) {
    0.0 <= q ==> 0.0 <= m.sqrt(q) && m.sqrt(q) * m.sqrt(q) == q
  }

  ghost predicate TrigAt(m: Library, t: real) {
    && m.sin(t) * m.sin(t) + m.cos(t) * m.cos(t) == 1.0
    && m.cos(WrapInto(t, 0.0, TAU)) == m.cos(t)
    && m.sin(WrapInto(t, 0.0, TAU)) == m.sin(t)
    && (0.0 <= t <= PI ==> m.acos(m.cos(t)) == t && m.sin(t) >= 0.0)
    && (PI < t < TAU ==> m.acos(m.cos(t)) == TAU - t && m.sin(t) < 0.0)
  }

  ghost predicate Lawful(m: Library) {
    && (forall q :: IsRoot(m, q))
    && (forall t :: TrigAt(m, t))
  }

  /** The square-root law at one point. */
  lemma Root(m: Library, q: real)
    requires Lawful(m)
    requires 0.0 <= q
    ensures 0.0 <= m.sqrt(q) && m.sqrt(q) * m.sqrt(q) == q
  {
    assert IsRoot(m, q);
  }

  /** The trigonometric laws at one angle. */
  lemma Trig(m: Library, t: real)
    requires Lawful(m)
    ensures m.sin(t) * m.sin(t) + m.cos(t) * m.cos(t) == 1.0
    ensures m.cos(WrapInto(t, 0.0, TAU)) == m.cos(t)
    ensures m.sin(WrapInto(t, 0.0, TAU)) == m.sin(t)
    ensures 0.0 <= t <= PI ==> m.acos(m.cos(t)) == t && m.sin(t) >= 0.0
    ensures PI < t < TAU ==> m.acos(m.cos(t)) == TAU - t && m.sin(t) < 0.0
  {
    assert TrigAt(m, t);
  }

  /** Math.min and Math.max on doubles (no NaN, no signed zero). */
  function Min(a: real, b: real): real {
    if a <= b then a else b
  }

  function Max(a: real, b: real): real {
    if a >= b then a else b
  }

  // ---------------------------------------------------------------------
  // Squares. The facts are stated directly on the products the library
  // writes, and strict bounds on squares are derived from `CancelFactor`,
  // a product of two factors, rather than left to the solver.
  // ---------------------------------------------------------------------

  lemma SquareNonNegative(x: real)
    ensures 0.0 <= x * x
  {
  }

  lemma SquareZero(x: real)
    requires x * x == 0.0
    ensures x == 0.0
  {
    if x > 0.0 {
      CancelFactor(x, x);
    } else if x < 0.0 {
      assert (-x) * (-x) == x * x;
      CancelFactor(-x, -x);
    }
  }

  /** A sum of two squares is non-negative, and zero only at the origin. */
  lemma SumOfSquares(x: real, y: real)
    ensures 0.0 <= x * x + y * y
    ensures x * x + y * y == 0.0 <==> x == 0.0 && y == 0.0
  {
    SquareNonNegative(x);
    SquareNonNegative(y);
    if x * x + y * y == 0.0 {
      SquareZero(x);
      SquareZero(y);
    }
  }

  lemma EqualSquares(s: real, r: real)
    requires 0.0 <= s && 0.0 <= r && s * s == r * r
    ensures s == r
  {
    assert (s - r) * (s + r) == s * s - r * r;
    if s + r > 0.0 {
      CancelFactor(s - r, s + r);
    }
  }

  /** The square root is the only non-negative number whose square is `q`. */
  lemma SqrtUnique(m: Library, q: real, r: real)
    requires Lawful(m)
    requires 0.0 <= r && r * r == q
    ensures m.sqrt(q) == r
  {
    Root(m, q);
    EqualSquares(m.sqrt(q), r);
  }

  lemma SqrtOfSquare(m: Library, x: real)
    requires Lawful(m)
    ensures m.sqrt(x * x) == Abs(x)
  {
    assert Abs(x) * Abs(x) == x * x;
    SqrtUnique(m, x * x, Abs(x));
  }

  /** The square root is zero exactly at zero. */
  lemma SqrtZeroIff(m: Library, q: real)
    requires Lawful(m)
    requires 0.0 <= q
    ensures 0.0 <= m.sqrt(q)
    ensures m.sqrt(q) == 0.0 <==> q == 0.0
  {
    Root(m, q);
    if q == 0.0 {
      SqrtUnique(m, 0.0, 0.0);
    }
  }

  /** Dividing a product by one of its non-zero factors gives the other. */
  lemma DivCancel(d: real, c: real)
    requires d != 0.0
    ensures (d * c) / d == c
    ensures (c * d) / d == c
  {
  }

  /** Multiplying a quotient by its divisor gives the dividend back. */
  lemma DivMul(c: real, d: real)
    requires d != 0.0
    ensures (c / d) * d == c
  {
  }

  /** A ratio is unchanged when both sides are scaled by the same non-zero factor. */
  lemma DivScaled(a: real, d: real, k: real)
    requires d != 0.0 && k != 0.0
    ensures (a * k) / (k * d) == a / d
  {
    assert (a * k) / (k * d) * (k * d) == a * k;
    assert (a / d) * (k * d) == a * k;
  }

  /** A part of a positive whole, divided by the whole, lies on [0, 1]. */
  lemma RatioBounds(a: real, p: real)
    requires p > 0.0 && 0.0 <= a <= p
    ensures 0.0 <= a / p <= 1.0
  {
    assert a / p * p == a;
  }

  /** Dividing by a positive number keeps the order. */
  lemma RatioMonotone(a: real, b: real, p: real)
    requires p > 0.0 && a <= b
    ensures a / p <= b / p
  {
    assert (b / p - a / p) * p == b - a;
  }

  /** A number whose square is at most one lies in [-1, 1]. */
  lemma UnitSquareBound(c: real, s: real)
    requires s * s + c * c == 1.0
    ensures -1.0 <= c <= 1.0
  {
  }

  /** sin and cos lie on [-1, 1]. */
  lemma SinCosBounded(m: Library, t: real)
    requires Lawful(m)
    ensures -1.0 <= m.cos(t) <= 1.0 && -1.0 <= m.sin(t) <= 1.0
  {
    Trig(m, t);
    UnitSquareBound(m.cos(t), m.sin(t));
    UnitSquareBound(m.sin(t), m.cos(t));
  }

  // ---------------------------------------------------------------------
  // Math.sqrt(x*x + y*y), the length the vector classes compute
  // ---------------------------------------------------------------------

  function Norm(m: Library, x: real, y: real): real {
    m.sqrt(x * x + y * y)
  }

  /** The length is non-negative and zero only at the origin. */
  lemma NormZeroIff(m: Library, x: real, y: real)
    requires Lawful(m)
    ensures 0.0 <= Norm(m, x, y)
    ensures Norm(m, x, y) == 0.0 <==> x == 0.0 && y == 0.0
  {
    SumOfSquares(x, y);
    SqrtZeroIff(m, x * x + y * y);
  }

  /** Negating either coordinate keeps the length. */
  lemma NormReflect(m: Library, x: real, y: real)
    ensures Norm(m, x, -y) == Norm(m, x, y)
    ensures Norm(m, -x, y) == Norm(m, x, y)
  {
    assert x * x + (-y) * (-y) == x * x + y * y;
    assert (-x) * (-x) + y * y == x * x + y * y;
  }

  /** Scaling both coordinates by `s` scales the length by `|s|`. */
  lemma NormScaled(m: Library, x: real, y: real, s: real)
    requires Lawful(m)
    ensures Norm(m, x * s, y * s) == Abs(s) * Norm(m, x, y)
  {
    var q := x * x + y * y;
    SquareNonNegative(x);
    SquareNonNegative(y);
    Root(m, q);
    var n := m.sqrt(q);
    var a := Abs(s);
    assert a * a == s * s;
    assert (a * n) * (a * n) == (a * a) * (n * n);
    assert (x * s) * (x * s) + (y * s) * (y * s) == (s * s) * q;
    SqrtUnique(m, (x * s) * (x * s) + (y * s) * (y * s), a * n);
  }

  lemma AbsSquare(x: real)
    ensures Abs(x) * Abs(x) == x * x
  {
  }

  lemma ScaledUnitSquares(r: real, c: real, s: real)
    requires s * s + c * c == 1.0
    ensures (r * c) * (r * c) + (r * s) * (r * s) == r * r
  {
    assert (r * c) * (r * c) + (r * s) * (r * s) == (r * r) * (s * s + c * c);
  }

  /** A point at distance `r` on the ray of angle `t` has length `|r|`. */
  lemma NormPolar(m: Library, r: real, t: real)
    requires Lawful(m)
    ensures Norm(m, r * m.cos(t), r * m.sin(t)) == Abs(r)
  {
    Trig(m, t);
    ScaledUnitSquares(r, m.cos(t), m.sin(t));
    AbsSquare(r);
    SqrtUnique(m, (r * m.cos(t)) * (r * m.cos(t)) + (r * m.sin(t)) * (r * m.sin(t)), Abs(r));
  }
}
