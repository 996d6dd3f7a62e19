/**
 * The vector of the swerve snapshot (swervelib/src/main/java/swerve/util/Vector.java).
 *
 * Its add, scale, reflectAcrossX, reflectAcrossY, getMagnitude and
 * getRotationRadians have the same bodies as the frc vector's, so the model
 * shares `FrcVector` for them. This class has no static radiansToDegrees:
 * getRotationDegrees converts and wraps inline, which is modelled here.
 */
module LibVector {
  import Angles
  import opened JavaMath
  import opened FrcVector

  /** getRotationDegrees, with its own conversion and wrapping loops. */
  method GetRotationDegrees(m: Library, v: Vector) returns (degrees: real)
    ensures degrees == RotationDegrees(m, v)
    ensures 0.0 <= degrees < 360.0
  {
    var radians := GetRotationRadians(m, v);
    degrees := radians / Angles.PI * 180.0;
    degrees := -degrees;
    degrees := degrees + 90.0;
    ghost var converted := degrees;
    assert converted == Angles.RadiansToDegrees(radians);
    Angles.CongruentReflexive(degrees, 360.0);
    while degrees < 0.0
      invariant Angles.Congruent(degrees, converted, 360.0)
      decreases (-degrees).Floor
    {
      Angles.CongruentStep(degrees, converted, 360.0);
      degrees := degrees + 360.0;
    }
    while degrees >= 360.0
      invariant 0.0 <= degrees
      invariant Angles.Congruent(degrees, converted, 360.0)
      decreases degrees.Floor
    {
      Angles.CongruentStep(degrees, converted, 360.0);
      degrees := degrees - 360.0;
    }
    Angles.WrapIntoCharacterized(degrees, converted, 0.0, 360.0);
  }
}
