/**
 * The immutable 2-D vector of the frc snapshot
 * (swervelib/src/main/java/frc/team1711/swerve/util/Vector.java).
 *
 * Two angle conventions meet here. Math radians start on the +x axis and
 * grow counterclockwise; compass degrees start on the +y axis and grow
 * clockwise. A vector is a value: every operation returns a new one.
 */
module FrcVector {
  import Angles
  import opened JavaMath

  datatype Vector = Vector(x: real, y: real)

  /** `Vector.ZERO`, used by `RobotMovement.NONE`; its declaration is not shown. */
  const Zero: Vector := Vector(0.0, 0.0)

  function Add(v: Vector, w: Vector): Vector {
    Vector(v.x + w.x, v.y + w.y)
  }

  function Scale(v: Vector, s: real): Vector {
    Vector(v.x * s, v.y * s)
  }

  function ReflectAcrossX(v: Vector): Vector {
    Vector(v.x, -v.y)
  }

  function ReflectAcrossY(v: Vector): Vector {
    Vector(-v.x, v.y)
  }

  /** `subtract`, used by `Position.movementTo`; its declaration is not shown. */
  function Subtract(v: Vector, w: Vector): Vector {
    Vector(v.x - w.x, v.y - w.y)
  }

  // ---------------------------------------------------------------------
  // Algebra
  // ---------------------------------------------------------------------

  /** Addition is componentwise, so the order of the operands does not matter. */
  lemma AddCommutative(v: Vector, w: Vector)
    ensures Add(v, w) == Add(w, v)
    ensures Add(v, Zero) == v
  {
  }

  /** Scaling by -1 negates both components; scaling by 1 changes nothing. */
  lemma ScaleMinusOne(v: Vector)
    ensures Scale(v, -1.0) == Vector(-v.x, -v.y)
    ensures Scale(v, 1.0) == v
  {
  }

  /** Each reflection undoes itself. */
  lemma ReflectionsInvolutive(v: Vector)
    ensures ReflectAcrossX(ReflectAcrossX(v)) == v
    ensures ReflectAcrossY(ReflectAcrossY(v)) == v
  {
  }

  /** Reflecting across both axes, in either order, is scaling by -1. */
  lemma ReflectionsCompose(v: Vector)
    ensures ReflectAcrossX(ReflectAcrossY(v)) == Scale(v, -1.0)
    ensures ReflectAcrossY(ReflectAcrossX(v)) == Scale(v, -1.0)
  {
  }

  /** `v - w` is the negation of `w - v`, and adding it to `w` gives `v`. */
  lemma SubtractAntisymmetric(v: Vector, w: Vector)
    ensures Subtract(v, w) == Scale(Subtract(w, v), -1.0)
    ensures Add(w, Subtract(v, w)) == v
    ensures Subtract(v, v) == Zero
  {
  }

  // ---------------------------------------------------------------------
  // Magnitude
  // ---------------------------------------------------------------------

  function Magnitude(m: Library, v: Vector): real {
    Norm(m, v.x, v.y)
  }

  /** The magnitude is non-negative and zero exactly for the zero vector. */
  lemma MagnitudeZeroIff(m: Library, v: Vector)
    requires Lawful(m)
    ensures 0.0 <= Magnitude(m, v)
    ensures Magnitude(m, v) == 0.0 <==> v == Zero
  {
    NormZeroIff(m, v.x, v.y);
  }

  /** Reflections keep the magnitude. */
  lemma MagnitudeReflections(m: Library, v: Vector)
    ensures Magnitude(m, ReflectAcrossX(v)) == Magnitude(m, v)
    ensures Magnitude(m, ReflectAcrossY(v)) == Magnitude(m, v)
  {
    NormReflect(m, v.x, v.y);
  }

  /** Scaling by `s` scales the magnitude by `|s|`. */
  lemma MagnitudeScaled(m: Library, v: Vector, s: real)
    requires Lawful(m)
    ensures Magnitude(m, Scale(v, s)) == Angles.Abs(s) * Magnitude(m, v)
  {
    MagnitudeOfScale(m, v, s);
    NormScaled(m, v.x, v.y, s);
  }

  lemma MagnitudeOfScale(m: Library, v: Vector, s: real)
    ensures Magnitude(m, Scale(v, s)) == Norm(m, v.x * s, v.y * s)
  {
    var w := Scale(v, s);
    assert w == Vector(v.x * s, v.y * s);
    assert Magnitude(m, w) == Norm(m, w.x, w.y);
  }

  // ---------------------------------------------------------------------
  // Direction
  // ---------------------------------------------------------------------

  /** `Math.min(Math.max(c, -1), 1)`, the guard against rounding before `acos`. */
  function Clamp(c: real): (r: real)
    ensures -1.0 <= r <= 1.0
    ensures -1.0 <= c <= 1.0 ==> r == c
  {
    Min(Max(c, -1.0), 1.0)
  }

  /**
   * getRotationRadians: the counterclockwise angle from the +x axis, on
   * [0, TAU), and 0 for a vector of length 0.
   */
  function RotationRadians(m: Library, v: Vector): (r: real)
    ensures 0.0 <= r < Angles.TAU
  {
    var dist := Magnitude(m, v);
    if dist == 0.0 then 0.0
    else
      var x, y := Clamp(v.x / dist), Clamp(v.y / dist);
      var rotation := if y < 0.0 then 2.0 * Angles.PI - m.acos(x) else m.acos(x);
      Angles.WrapInto(rotation, 0.0, Angles.TAU)
  }

  /** The static radiansToDegrees: the conversion, then a wrap into [0, 360). */
  function CompassDegrees(radians: real): (r: real)
    ensures 0.0 <= r < 360.0
    ensures Angles.Congruent(r, Angles.RadiansToDegrees(radians), 360.0)
  {
    Angles.WrapInto(Angles.RadiansToDegrees(radians), 0.0, 360.0)
  }

  /** getRotationDegrees: the clockwise compass angle from the +y axis, on [0, 360). */
  function RotationDegrees(m: Library, v: Vector): (r: real)
    ensures 0.0 <= r < 360.0
  {
    CompassDegrees(RotationRadians(m, v))
  }

  method GetRotationRadians(m: Library, v: Vector) returns (rotation: real)
    ensures rotation == RotationRadians(m, v)
  {
    var dist := Magnitude(m, v);
    if dist == 0.0 {
      return 0.0;
    }
    var x := Min(Max(v.x / dist, -1.0), 1.0);
    var y := Min(Max(v.y / dist, -1.0), 1.0);
    rotation := m.acos(x);
    if y < 0.0 {
      rotation := 2.0 * Angles.PI - rotation;
    }
    // the two loops that put the rotation on [0, TAU), the negative case first
    ghost var unwrapped := rotation;
    Angles.CongruentReflexive(rotation, Angles.TAU);
    while rotation < 0.0
      invariant Angles.Congruent(rotation, unwrapped, Angles.TAU)
      decreases (-rotation).Floor
    {
      Angles.CongruentStep(rotation, unwrapped, Angles.TAU);
      rotation := rotation + Angles.TAU;
    }
    while rotation >= Angles.TAU
      invariant 0.0 <= rotation
      invariant Angles.Congruent(rotation, unwrapped, Angles.TAU)
      decreases rotation.Floor
    {
      Angles.CongruentStep(rotation, unwrapped, Angles.TAU);
      rotation := rotation - Angles.TAU;
    }
    Angles.WrapIntoCharacterized(rotation, unwrapped, 0.0, Angles.TAU);
  }

  method RadiansToDegrees(radians: real) returns (degrees: real)
    ensures degrees == CompassDegrees(radians)
  {
    degrees := radians / Angles.PI * 180.0;
    degrees := -degrees;
    degrees := degrees + 90.0;
    // the two loops that put the degrees on [0, 360), the negative case first
    ghost var unwrapped := degrees;
    Angles.CongruentReflexive(degrees, 360.0);
    while degrees < 0.0
      invariant Angles.Congruent(degrees, unwrapped, 360.0)
      decreases (-degrees).Floor
    {
      Angles.CongruentStep(degrees, unwrapped, 360.0);
      degrees := degrees + 360.0;
    }
    while degrees >= 360.0
      invariant 0.0 <= degrees
      invariant Angles.Congruent(degrees, unwrapped, 360.0)
      decreases degrees.Floor
    {
      Angles.CongruentStep(degrees, unwrapped, 360.0);
      degrees := degrees - 360.0;
    }
    Angles.WrapIntoCharacterized(degrees, unwrapped, 0.0, 360.0);
  }

  method GetRotationDegrees(m: Library, v: Vector) returns (degrees: real)
    ensures degrees == RotationDegrees(m, v)
  {
    var radians := GetRotationRadians(m, v);
    degrees := RadiansToDegrees(radians);
  }

  /** The zero vector points along +x in radians, which is 90 compass degrees. */
  lemma ZeroDirection(m: Library)
    requires Lawful(m)
    ensures RotationRadians(m, Zero) == 0.0
    ensures RotationDegrees(m, Zero) == 90.0
  {
    MagnitudeZeroIff(m, Zero);
    Angles.WrapIntoInside(90.0, 0.0, 360.0);
  }

  // ---------------------------------------------------------------------
  // Vectors built from a length and an angle
  // ---------------------------------------------------------------------

  /** The vector of length `r` at `t` radians: `new Vector(r * Math.cos(t), r * Math.sin(t))`. */
  function Polar(m: Library, r: real, t: real): Vector {
    Vector(r * m.cos(t), r * m.sin(t))
  }

  /** toRotationRadians: the vector of the same length pointing at `radians`. */
  function ToRotationRadians(m: Library, v: Vector, radians: real): Vector {
    Polar(m, Magnitude(m, v), radians)
  }

  /**
   * toRotationDegrees, as its documentation describes it: the vector of the
   * same length pointing at compass `degrees`.
   */
  function ToRotationDegrees(m: Library, v: Vector, degrees: real): Vector {
    ToRotationRadians(m, v, Angles.DegreesToRadians(degrees))
  }

  /**
   * `fromPolarDegrees`: the vector of length `magnitude` at compass
   * `degrees`. Its declaration is not shown; this body is inferred from its
   * name and from its callers in AutonDriveSimple and Odometry.
   */
  function FromPolarDegrees(m: Library, degrees: real, magnitude: real): Vector {
    Polar(m, magnitude, Angles.DegreesToRadians(degrees))
  }

  lemma MagnitudeOfPolar(m: Library, r: real, t: real)
    ensures Magnitude(m, Polar(m, r, t)) == Norm(m, r * m.cos(t), r * m.sin(t))
  {
    var w := Polar(m, r, t);
    assert w == Vector(r * m.cos(t), r * m.sin(t));
    assert Magnitude(m, w) == Norm(m, w.x, w.y);
  }

  /** The vector of length `r` at any angle has magnitude |r|. */
  lemma PolarMagnitude(m: Library, r: real, t: real)
    requires Lawful(m)
    ensures Magnitude(m, Polar(m, r, t)) == Angles.Abs(r)
  {
    MagnitudeOfPolar(m, r, t);
    NormPolar(m, r, t);
  }

  /** A vector of length `r > 0` at angle `t` points at `t`, wrapped onto [0, TAU). */
  lemma PolarRadians(m: Library, r: real, t: real)
    requires Lawful(m)
    requires r > 0.0
    ensures RotationRadians(m, Polar(m, r, t)) == Angles.WrapInto(t, 0.0, Angles.TAU)
  {
    var v := Polar(m, r, t);
    assert v.x == r * m.cos(t) && v.y == r * m.sin(t);
    PolarMagnitude(m, r, t);
    SinCosBounded(m, t);
    ClampRatio(v.x, r, m.cos(t));
    ClampRatio(v.y, r, m.sin(t));
    RotationOfRatios(m, v, m.cos(t), m.sin(t));
    UnitDirection(m, t);
  }

  lemma ClampRatio(a: real, d: real, c: real)
    requires d > 0.0 && a == d * c && -1.0 <= c <= 1.0
    ensures Clamp(a / d) == c
  {
    DivCancel(d, c);
  }

  /** RotationRadians once the clamped ratios are known. */
  lemma RotationOfRatios(m: Library, v: Vector, c: real, s: real)
    requires Magnitude(m, v) != 0.0
    requires Clamp(v.x / Magnitude(m, v)) == c && Clamp(v.y / Magnitude(m, v)) == s
    ensures RotationRadians(m, v)
      == Angles.WrapInto(if s < 0.0 then 2.0 * Angles.PI - m.acos(c) else m.acos(c), 0.0, Angles.TAU)
  {
  }

  /** The angle that acos and the sign of sin recover from cos t and sin t. */
  lemma UnitDirection(m: Library, t: real)
    requires Lawful(m)
    ensures var a := m.acos(m.cos(t));
      Angles.WrapInto(if m.sin(t) < 0.0 then 2.0 * Angles.PI - a else a, 0.0, Angles.TAU)
        == Angles.WrapInto(t, 0.0, Angles.TAU)
  {
    var u := Angles.WrapInto(t, 0.0, Angles.TAU);
    Trig(m, t);
    Trig(m, u);
    var a := m.acos(m.cos(t));
    var rotation := if m.sin(t) < 0.0 then 2.0 * Angles.PI - a else a;
    assert rotation == u;
    Angles.WrapIntoInside(u, 0.0, Angles.TAU);
  }

  /** The compass degrees of the wrapped radians of `degrees` are `degrees`, wrapped. */
  lemma CompassOfRadians(degrees: real)
    ensures CompassDegrees(Angles.WrapInto(Angles.DegreesToRadians(degrees), 0.0, Angles.TAU))
      == Angles.WrapInto(degrees, 0.0, 360.0)
  {
    var t := Angles.DegreesToRadians(degrees);
    var u := Angles.WrapInto(t, 0.0, Angles.TAU);
    Angles.RadiansToDegreesCongruent(u, t);
    Angles.ConversionsInverse(degrees, t);
    Angles.WrapIntoEqualIff(Angles.RadiansToDegrees(u), degrees, 0.0, 360.0);
  }

  /** A vector of length `r > 0` at compass `degrees` points at `degrees`, wrapped onto [0, 360). */
  lemma PolarDegrees(m: Library, r: real, degrees: real)
    requires Lawful(m)
    requires r > 0.0
    ensures RotationDegrees(m, Polar(m, r, Angles.DegreesToRadians(degrees))) == Angles.WrapInto(degrees, 0.0, 360.0)
  {
    PolarRadians(m, r, Angles.DegreesToRadians(degrees));
    CompassOfRadians(degrees);
  }

  /** toRotationRadians keeps the length, and a non-zero vector then points at `radians`. */
  lemma ToRotationRadiansSpec(m: Library, v: Vector, radians: real)
    requires Lawful(m)
    ensures Magnitude(m, ToRotationRadians(m, v, radians)) == Magnitude(m, v)
    ensures v != Zero ==> RotationRadians(m, ToRotationRadians(m, v, radians)) == Angles.WrapInto(radians, 0.0, Angles.TAU)
  {
    var mag := Magnitude(m, v);
    MagnitudeZeroIff(m, v);
    PolarMagnitude(m, mag, radians);
    if v != Zero {
      PolarRadians(m, mag, radians);
    }
  }

  /** toRotationDegrees keeps the length, and a non-zero vector then points at compass `degrees`. */
  lemma ToRotationDegreesSpec(m: Library, v: Vector, degrees: real)
    requires Lawful(m)
    ensures Magnitude(m, ToRotationDegrees(m, v, degrees)) == Magnitude(m, v)
    ensures v != Zero ==> RotationDegrees(m, ToRotationDegrees(m, v, degrees)) == Angles.WrapInto(degrees, 0.0, 360.0)
  {
    ToRotationRadiansSpec(m, v, Angles.DegreesToRadians(degrees));
    if v != Zero {
      CompassOfRadians(degrees);
    }
  }

  /** fromPolarDegrees has length |magnitude|, and a positive length points at compass `degrees`. */
  lemma FromPolarDegreesSpec(m: Library, degrees: real, magnitude: real)
    requires Lawful(m)
    ensures Magnitude(m, FromPolarDegrees(m, degrees, magnitude)) == Angles.Abs(magnitude)
    ensures magnitude > 0.0 ==> RotationDegrees(m, FromPolarDegrees(m, degrees, magnitude)) == Angles.WrapInto(degrees, 0.0, 360.0)
  {
    PolarMagnitude(m, magnitude, Angles.DegreesToRadians(degrees));
    if magnitude > 0.0 {
      PolarDegrees(m, magnitude, degrees);
    }
  }

  // ---------------------------------------------------------------------
  // Scaling by a positive factor keeps the direction
  // ---------------------------------------------------------------------

  lemma SameRatiosSameRotation(m: Library, v: Vector, w: Vector)
    requires Magnitude(m, v) != 0.0 && Magnitude(m, w) != 0.0
    requires v.x / Magnitude(m, v) == w.x / Magnitude(m, w)
    requires v.y / Magnitude(m, v) == w.y / Magnitude(m, w)
    ensures RotationRadians(m, v) == RotationRadians(m, w)
  {
  }

  /** A positive factor changes neither the radian nor the compass direction. */
  lemma RotationScaled(m: Library, v: Vector, k: real)
    requires Lawful(m)
    requires k > 0.0
    ensures RotationRadians(m, Scale(v, k)) == RotationRadians(m, v)
    ensures RotationDegrees(m, Scale(v, k)) == RotationDegrees(m, v)
  {
    var d := Magnitude(m, v);
    var w := Scale(v, k);
    MagnitudeScaled(m, v, k);
    MagnitudeZeroIff(m, v);
    assert Magnitude(m, w) == k * d;
    if d != 0.0 {
      DivScaled(v.x, d, k);
      DivScaled(v.y, d, k);
      assert w.x / Magnitude(m, w) == (v.x * k) / (k * d);
      assert w.y / Magnitude(m, w) == (v.y * k) / (k * d);
      SameRatiosSameRotation(m, w, v);
    }
  }
}
