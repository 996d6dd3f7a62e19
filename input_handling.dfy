/**
 * InputHandler (frc/team1711/swerve/util/InputHandler.java): turns a joystick
 * value into a drive input. The sign is set aside, the size is limited to 1,
 * a deadband is cut off and the rest stretched back onto [0, 1], a curve is
 * applied, and the sign is put back. Vectors are shaped by their length.
 *
 * A handler's two fields are final, so a handler is a value. A curve is any
 * function on the reals; the library's rule for curves is `IsCurve`.
 */
module InputHandling {
  import Angles
  import opened JavaMath
  import opened FrcVector

  type Curve = real -> real

  /** `Curve.linearCurve`. */
  const LinearCurve: Curve := x => x

  /** `Curve.squareCurve`. */
  const SquareCurve: Curve := x => x * x

  /** What the documentation asks of every curve: 0 to 0, 1 to 1, and [0, 1] into [0, 1]. */
  ghost predicate IsCurve(c: Curve) {
    && c(0.0) == 0.0
    && c(1.0) == 1.0
    && forall x :: 0.0 <= x <= 1.0 ==> 0.0 <= c(x) <= 1.0
  }

  datatype InputHandler = InputHandler(deadband: real, curve: Curve)

  /** The documented range of the deadband, [0, 1), with a curve that follows the rule. */
  ghost predicate Valid(h: InputHandler) {
    0.0 <= h.deadband < 1.0 && IsCurve(h.curve)
  }

  /** The one-argument constructor: the given deadband and the linear curve. */
  function WithDeadband(deadband: real): InputHandler {
    InputHandler(deadband, LinearCurve)
  }

  /** Both named curves follow the rule for curves. */
  lemma NamedCurves()
    ensures IsCurve(LinearCurve) && IsCurve(SquareCurve)
  {
    forall x | 0.0 <= x <= 1.0
      ensures 0.0 <= SquareCurve(x) <= 1.0
    {
      assert SquareCurve(x) == x * x;
      assert x * x <= x * 1.0;
    }
  }

  // ---------------------------------------------------------------------
  // The deadband
  // ---------------------------------------------------------------------

  /** applyDeadband: subtract the deadband, stop at zero, and divide by what is left of [0, 1]. */
  function Deadbanded(h: InputHandler, input: real): real
    requires h.deadband != 1.0
  {
    (if input - h.deadband < 0.0 then 0.0 else input - h.deadband) / (1.0 - h.deadband)
  }

  method ApplyDeadband(h: InputHandler, input: real) returns (output: real)
    requires h.deadband != 1.0
    ensures output == Deadbanded(h, input)
  {
    output := input - h.deadband;
    if output < 0.0 {
      output := 0.0;
    }
    output := output / (1.0 - h.deadband);
  }

  /**
   * For a deadband on [0, 1): inputs up to the deadband give 0, 1 gives 1,
   * [0, 1] is mapped into [0, 1], and the map does not decrease.
   */
  lemma DeadbandedSpec(h: InputHandler, x: real, y: real)
    requires 0.0 <= h.deadband < 1.0
    ensures x <= h.deadband ==> Deadbanded(h, x) == 0.0
    ensures Deadbanded(h, 1.0) == 1.0
    ensures 0.0 <= x <= 1.0 ==> 0.0 <= Deadbanded(h, x) <= 1.0
    ensures x <= y ==> Deadbanded(h, x) <= Deadbanded(h, y)
  {
    var p := 1.0 - h.deadband;
    if 0.0 <= x <= 1.0 && h.deadband < x {
      RatioBounds(x - h.deadband, p);
    }
    if x <= y && h.deadband < y {
      var a := if x - h.deadband < 0.0 then 0.0 else x - h.deadband;
      RatioMonotone(a, y - h.deadband, p);
    }
  }

  // ---------------------------------------------------------------------
  // apply(double)
  // ---------------------------------------------------------------------

  /** apply(double), in closed form. */
  function Output(h: InputHandler, input: real): real
    requires h.deadband != 1.0
  {
    var negative := input < 0.0;
    var size := if negative then -input else input;
    var limited := if size > 1.0 then 1.0 else size;
    var shaped := h.curve(Deadbanded(h, limited));
    if negative then -shaped else shaped
  }

  method Apply(h: InputHandler, input: real) returns (output: real)
    requires h.deadband != 1.0
    ensures output == Output(h, input)
  {
    var isNegative := input < 0.0;
    output := input;
    if isNegative {
      output := -output;
    }
    if output > 1.0 {
      output := 1.0;
    }
    var deadbanded := ApplyDeadband(h, output);
    output := h.curve(deadbanded);
    if isNegative {
      output := -output;
    }
  }

  /** Sizes above 1 behave exactly like 1, on either side. */
  lemma OutputSaturates(h: InputHandler, x: real)
    requires h.deadband != 1.0
    ensures x > 1.0 ==> Output(h, x) == Output(h, 1.0)
    ensures x < -1.0 ==> Output(h, x) == Output(h, -1.0)
  {
  }

  /** A valid handler maps 0 to 0. */
  lemma OutputOfZero(h: InputHandler)
    requires Valid(h)
    ensures Output(h, 0.0) == 0.0
  {
    DeadbandedSpec(h, 0.0, 0.0);
  }

  /** apply is odd: negating the input negates the output. */
  lemma OutputOdd(h: InputHandler, x: real)
    requires Valid(h)
    ensures Output(h, -x) == -Output(h, x)
  {
    if x == 0.0 {
      OutputOfZero(h);
    }
  }

  /**
   * For a valid handler the output lies on [-1, 1] with the sign of the
   * input, and the ends of the range are kept: 1 gives 1 and -1 gives -1.
   */
  lemma OutputRange(h: InputHandler, x: real)
    requires Valid(h)
    ensures -1.0 <= Output(h, x) <= 1.0
    ensures x >= 0.0 ==> Output(h, x) >= 0.0
    ensures x <= 0.0 ==> Output(h, x) <= 0.0
    ensures Output(h, 1.0) == 1.0 && Output(h, -1.0) == -1.0
  {
    var size := if x < 0.0 then -x else x;
    var limited := if size > 1.0 then 1.0 else size;
    DeadbandedSpec(h, limited, limited);
    DeadbandedSpec(h, 1.0, 1.0);
    assert 0.0 <= h.curve(Deadbanded(h, limited)) <= 1.0;
  }

  /** With the one-argument constructor, apply maps [-1, 1] onto itself, keeping -1, 0 and 1. */
  lemma LinearHandler(deadband: real, x: real)
    requires 0.0 <= deadband < 1.0
    ensures -1.0 <= Output(WithDeadband(deadband), x) <= 1.0
    ensures Output(WithDeadband(deadband), 1.0) == 1.0
    ensures Output(WithDeadband(deadband), -1.0) == -1.0
    ensures Output(WithDeadband(deadband), 0.0) == 0.0
  {
    NamedCurves();
    OutputRange(WithDeadband(deadband), x);
    OutputOfZero(WithDeadband(deadband));
  }

  // ---------------------------------------------------------------------
  // apply(Vector)
  // ---------------------------------------------------------------------

  /** apply(Vector): the zero vector for length 0, else the vector rescaled to the shaped length. */
  function ApplyVector(m: Library, h: InputHandler, v: Vector): Vector
    requires h.deadband != 1.0
  {
    if Magnitude(m, v) == 0.0 then Vector(0.0, 0.0)
    else Scale(v, Output(h, Magnitude(m, v)) / Magnitude(m, v))
  }

  /**
   * The shaped vector is zero for the zero vector; otherwise it is the input
   * scaled by a non-negative factor, its length is apply of the input's
   * length, and, unless that is 0, its direction is the input's.
   */
  lemma ApplyVectorSpec(m: Library, h: InputHandler, v: Vector)
    requires Lawful(m)
    requires Valid(h)
    ensures v == Zero ==> ApplyVector(m, h, v) == Zero
    ensures Magnitude(m, ApplyVector(m, h, v)) == Output(h, Magnitude(m, v))
    ensures Output(h, Magnitude(m, v)) != 0.0 ==>
      && RotationRadians(m, ApplyVector(m, h, v)) == RotationRadians(m, v)
      && RotationDegrees(m, ApplyVector(m, h, v)) == RotationDegrees(m, v)
  {
    var d := Magnitude(m, v);
    MagnitudeZeroIff(m, v);
    MagnitudeZeroIff(m, Zero);
    OutputOfZero(h);
    if d != 0.0 {
      var out := Output(h, d);
      OutputRange(h, d);
      var k := out / d;
      ShapedFactor(out, d);
      MagnitudeScaled(m, v, k);
      if out != 0.0 {
        RotationScaled(m, v, k);
      }
    }
  }

  lemma ShapedFactor(out: real, d: real)
    requires d > 0.0 && out >= 0.0
    ensures out / d >= 0.0
    ensures Angles.Abs(out / d) * d == out
  {
    DivMul(out, d);
  }
}
