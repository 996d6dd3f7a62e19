/**
 * Angle utilities of the library (util/Angles.java): the circle constants,
 * the four wrapping loops and the conversions between the two angle
 * conventions the library uses.
 *
 * Radians are mathematical: zero points along +x and they grow
 * counterclockwise. Degrees are a compass: zero points along +y and they grow
 * clockwise.
 *
 * Each wrapping loop is a method proved equal to one closed form,
 * `WrapInto(value, low, period)`. That closed form is what the pure parts of
 * the model use.
 */
module Angles {

  /** java.lang.Math.PI, the double nearest to pi. */
  const PI: real := 3.141592653589793

  /** One full revolution in radians. */
  const TAU: real := PI * 2.0

  function Abs(x: real): (r: real)
    ensures r >= 0.0
    ensures r == x || r == -x
  {
    if x < 0.0 then -x else x
  }

  // ---------------------------------------------------------------------
  // Congruence modulo a period, without existential quantifiers
  // ---------------------------------------------------------------------

  /** `x` is a whole number. */
  predicate IsInteger(x: real) {
    x.Floor as real == x
  }

  /** `a` and `b` differ by a whole number of periods. */
  predicate Congruent(a: real, b: real, period: real)
    requires period > 0.0
  {
    IsInteger((a - b) / period)
  }

  lemma FloorOfInteger(n: int)
    ensures (n as real).Floor == n
  {
  }

  lemma IntegerSum(x: real, y: real)
    requires IsInteger(x) && IsInteger(y)
    ensures IsInteger(x + y) && IsInteger(x - y) && IsInteger(-x)
  {
    var i, j := x.Floor, y.Floor;
    FloorOfInteger(i + j);
    FloorOfInteger(i - j);
    FloorOfInteger(-i);
  }

  lemma CancelFactor(d: real, p: real)
    requires p > 0.0 && d * p == 0.0
    ensures d == 0.0
  {
  }

  /** Removing or adding one period moves the quotient by one. */
  lemma DivStep(x: real, p: real)
    requires p > 0.0
    ensures (x - p) / p == x / p - 1.0
    ensures (x + p) / p == x / p + 1.0
  {
    var q, w, v := x / p, (x - p) / p, (x + p) / p;
    assert q * p == x && w * p == x - p && v * p == x + p;
    assert (w - q + 1.0) * p == w * p - q * p + p;
    CancelFactor(w - q + 1.0, p);
    assert (v - q - 1.0) * p == v * p - q * p - p;
    CancelFactor(v - q - 1.0, p);
  }

  /**
   * If the fractional part `f` of the quotient is on [0, 1), the value minus
   * the whole periods lies in the window.
   */
  lemma FractionInWindow(value: real, low: real, p: real, f: real, wholes: real)
    requires 0.0 <= f < 1.0 && p > 0.0
    requires value - wholes - low == f * p
    ensures low <= value - wholes < low + p
  {
    assert 0.0 <= f * p < p;
  }

  lemma CongruentReflexive(a: real, period: real)
    requires period > 0.0
    ensures Congruent(a, a, period)
  {
    assert (a - a) / period == 0.0;
  }

  lemma CongruentSymmetric(a: real, b: real, period: real)
    requires period > 0.0
    requires Congruent(a, b, period)
    ensures Congruent(b, a, period)
  {
    assert (b - a) / period == -((a - b) / period);
    IntegerSum((a - b) / period, 0.0);
  }

  lemma CongruentTransitive(a: real, b: real, c: real, period: real)
    requires period > 0.0
    requires Congruent(a, b, period) && Congruent(b, c, period)
    ensures Congruent(a, c, period)
  {
    assert (a - c) / period == (a - b) / period + (b - c) / period;
    IntegerSum((a - b) / period, (b - c) / period);
  }

  /** Adding or removing one period keeps congruence. */
  lemma CongruentStep(a: real, b: real, period: real)
    requires period > 0.0
    requires Congruent(a, b, period)
    ensures Congruent(a - period, b, period)
    ensures Congruent(a + period, b, period)
  {
    var q := (a - b) / period;
    DivStep(a - b, period);
    assert (a - period - b) / period == q - 1.0;
    assert (a + period - b) / period == q + 1.0;
    FloorOfInteger(1);
    IntegerSum(q, 1.0);
  }

  /** Adding the same amount to both sides keeps congruence. */
  lemma CongruentShift(a: real, b: real, c: real, period: real)
    requires period > 0.0
    requires Congruent(a, b, period)
    ensures Congruent(a + c, b + c, period)
    ensures Congruent(-a, -b, period)
  {
    assert (a + c - (b + c)) / period == (a - b) / period;
    assert (-a - -b) / period == -((a - b) / period);
    IntegerSum((a - b) / period, 0.0);
  }

  /** Two values of one half-open window of width `period` that are congruent are equal. */
  lemma WindowUnique(a: real, b: real, low: real, period: real)
    requires period > 0.0
    requires low <= a < low + period && low <= b < low + period
    requires Congruent(a, b, period)
    ensures a == b
  {
    var q := (a - b) / period;
    var k := q.Floor;
    assert a - b == q * period;
    if k >= 1 {
      assert false;
    } else if k <= -1 {
      assert false;
    }
    assert q == 0.0;
  }

  // ---------------------------------------------------------------------
  // The closed form of every wrapping loop
  // ---------------------------------------------------------------------

  /**
   * The only value of the window [low, low + period) that is congruent to
   * `value` modulo `period`.
   */
  function WrapInto(value: real, low: real, period: real): (r: real)
    requires period > 0.0
    ensures low <= r < low + period
    ensures Congruent(r, value, period)
  {
    var q := (value - low) / period;
    var k := (q.Floor) as real;
    assert value - low == q * period;
    assert value - period * k - low == (q - k) * period;
    FractionInWindow(value, low, period, q - k, period * k);
    assert (value - period * k - value) / period == -k;
    IntegerSum(k, 0.0);
    value - period * k
  }

  /** Wrapping keeps exactly the congruence class: equal results iff congruent inputs. */
  lemma WrapIntoEqualIff(a: real, b: real, low: real, period: real)
    requires period > 0.0
    ensures WrapInto(a, low, period) == WrapInto(b, low, period) <==> Congruent(a, b, period)
  {
    var wa, wb := WrapInto(a, low, period), WrapInto(b, low, period);
    CongruentSymmetric(wa, a, period);
    CongruentSymmetric(wb, b, period);
    if Congruent(a, b, period) {
      CongruentTransitive(wa, a, b, period);
      CongruentTransitive(wa, b, wb, period);
      WindowUnique(wa, wb, low, period);
    }
    if wa == wb {
      CongruentTransitive(a, wa, b, period);
    }
  }

  /** A value of the window that is congruent to `value` is its wrapped form. */
  lemma WrapIntoCharacterized(r: real, value: real, low: real, period: real)
    requires period > 0.0
    requires low <= r < low + period
    requires Congruent(r, value, period)
    ensures r == WrapInto(value, low, period)
  {
    CongruentSymmetric(WrapInto(value, low, period), value, period);
    CongruentTransitive(r, value, WrapInto(value, low, period), period);
    WindowUnique(r, WrapInto(value, low, period), low, period);
  }

  /** A value already inside the window is left as it is. */
  lemma WrapIntoInside(value: real, low: real, period: real)
    requires period > 0.0
    requires low <= value < low + period
    ensures WrapInto(value, low, period) == value
  {
    WindowUnique(WrapInto(value, low, period), value, low, period);
  }

  /** Wrapping twice is wrapping once. */
  lemma WrapIntoIdempotent(value: real, low: real, period: real)
    requires period > 0.0
    ensures WrapInto(WrapInto(value, low, period), low, period) == WrapInto(value, low, period)
  {
    WrapIntoInside(WrapInto(value, low, period), low, period);
  }

  /** Whole turns added to the input do not change the result. */
  lemma WrapIntoPeriodic(value: real, low: real, period: real, turns: int)
    requires period > 0.0
    ensures WrapInto(value + turns as real * period, low, period) == WrapInto(value, low, period)
  {
    assert (value + turns as real * period - value) / period == turns as real;
    WrapIntoEqualIff(value + turns as real * period, value, low, period);
  }

  // ---------------------------------------------------------------------
  // The four wrapping loops
  // ---------------------------------------------------------------------

  /** wrapDegrees: the result is on [0, 360) and a whole number of turns from the input. */
  method WrapDegrees(degrees: real) returns (r: real)
    ensures r == WrapInto(degrees, 0.0, 360.0)
  {
    r := degrees;
    CongruentReflexive(r, 360.0);
    while r >= 360.0
      invariant Congruent(r, degrees, 360.0)
      decreases r.Floor
    {
      CongruentStep(r, degrees, 360.0);
      r := r - 360.0;
    }
    while r < 0.0
      invariant r < 360.0
      invariant Congruent(r, degrees, 360.0)
      decreases (-r).Floor
    {
      CongruentStep(r, degrees, 360.0);
      r := r + 360.0;
    }
    WrapIntoCharacterized(r, degrees, 0.0, 360.0);
  }

  /** wrapDegreesZeroCenter: the result is on [-180, 180). */
  method WrapDegreesZeroCenter(degrees: real) returns (r: real)
    ensures r == WrapInto(degrees, -180.0, 360.0)
  {
    r := degrees;
    CongruentReflexive(r, 360.0);
    while r >= 180.0
      invariant Congruent(r, degrees, 360.0)
      decreases r.Floor
    {
      CongruentStep(r, degrees, 360.0);
      r := r - 360.0;
    }
    while r < -180.0
      invariant r < 180.0
      invariant Congruent(r, degrees, 360.0)
      decreases (-r).Floor
    {
      CongruentStep(r, degrees, 360.0);
      r := r + 360.0;
    }
    WrapIntoCharacterized(r, degrees, -180.0, 360.0);
  }

  /** wrapRadians: the result is on [0, TAU). */
  method WrapRadians(radians: real) returns (r: real)
    ensures r == WrapInto(radians, 0.0, TAU)
  {
    r := radians;
    CongruentReflexive(r, TAU);
    while r >= TAU
      invariant Congruent(r, radians, TAU)
      decreases r.Floor
    {
      CongruentStep(r, radians, TAU);
      r := r - TAU;
    }
    while r < 0.0
      invariant r < TAU
      invariant Congruent(r, radians, TAU)
      decreases (-r).Floor
    {
      CongruentStep(r, radians, TAU);
      r := r + TAU;
    }
    WrapIntoCharacterized(r, radians, 0.0, TAU);
  }

  /** wrapRadiansZeroCenter: the result is on [-PI, PI). */
  method WrapRadiansZeroCenter(radians: real) returns (r: real)
    ensures r == WrapInto(radians, -PI, TAU)
  {
    r := radians;
    CongruentReflexive(r, TAU);
    while r >= PI
      invariant Congruent(r, radians, TAU)
      decreases r.Floor
    {
      CongruentStep(r, radians, TAU);
      r := r - TAU;
    }
    while r < -PI
      invariant r < PI
      invariant Congruent(r, radians, TAU)
      decreases (-r).Floor
    {
      CongruentStep(r, radians, TAU);
      r := r + TAU;
    }
    WrapIntoCharacterized(r, radians, -PI, TAU);
  }

  // ---------------------------------------------------------------------
  // Conversions between the two conventions (no wrapping)
  // ---------------------------------------------------------------------

  function RadiansToDegrees(radians: real): real {
    -(radians / PI * 180.0) + 90.0
  }

  function DegreesToRadians(degrees: real): real {
    -(degrees * PI / 180.0) + PI / 2.0
  }

  /** The conversions are inverse to each other; neither wraps its result. */
  lemma ConversionsInverse(degrees: real, radians: real)
    ensures RadiansToDegrees(DegreesToRadians(degrees)) == degrees
    ensures DegreesToRadians(RadiansToDegrees(radians)) == radians
  {
  }

  /** The compass origin (up, 0 degrees) is the mathematical PI/2, and clockwise is negative. */
  lemma ConversionOrigins()
    ensures DegreesToRadians(0.0) == PI / 2.0 && RadiansToDegrees(0.0) == 90.0
    ensures DegreesToRadians(90.0) == 0.0 && RadiansToDegrees(PI / 2.0) == 0.0
  {
  }

  /** Adding whole degree turns shifts the radians by whole radian turns, and back. */
  lemma ConversionsRespectTurns(degrees: real, radians: real, turns: int)
    ensures DegreesToRadians(degrees + turns as real * 360.0) == DegreesToRadians(degrees) - turns as real * TAU
    ensures RadiansToDegrees(radians + turns as real * TAU) == RadiansToDegrees(radians) - turns as real * 360.0
  {
  }

  /** Congruent radians convert to congruent degrees. */
  lemma RadiansToDegreesCongruent(a: real, b: real)
    requires Congruent(a, b, TAU)
    ensures Congruent(RadiansToDegrees(a), RadiansToDegrees(b), 360.0)
  {
    var q := (a - b) / TAU;
    assert (RadiansToDegrees(a) - RadiansToDegrees(b)) / 360.0 == -q;
    IntegerSum(q, 0.0);
  }
}
