/**
 * Field-relative driving of subsystems/GyroSwerveDrive.java. The joystick
 * strafe vector is shaped by an input handler and then turned by the gyro
 * angle, so that pushing forward drives away from the driver whichever way
 * the robot faces; steering is shaped but not turned.
 *
 * The class extends a SwerveDrive whose autoDrive method and
 * SwerveDrivingSpeeds settings are not part of this model: the two speed
 * scalars are constants of the class here and every autoDrive call is
 * recorded in `autoDriveCalls`. getGyroAngle is abstract, so the angle it
 * would return is a parameter.
 */
module GyroDrive {
  import opened Angles
  import opened JavaMath
  import opened FrcVector
  import opened InputHandling

  /** One call of autoDrive(strafeX, strafeY, steering). */
  datatype AutoDrive = AutoDrive(strafeX: real, strafeY: real, steering: real)

  /** fieldRelToRobotRel: a field rotation seen from a robot turned by the gyro angle. */
  function FieldRelToRobotRel(rotation: real, gyroAngle: real): (r: real)
    ensures 0.0 <= r < 360.0
    ensures Congruent(r, rotation - gyroAngle, 360.0)
  {
    WrapInto(rotation - gyroAngle, 0.0, 360.0)
  }

  /** Rotations that differ by whole turns, or gyro angles that do, give the same answer. */
  lemma FieldRelToRobotRelTurns(rotation: real, gyroAngle: real, turns: int)
    ensures FieldRelToRobotRel(rotation + turns as real * 360.0, gyroAngle) == FieldRelToRobotRel(rotation, gyroAngle)
    ensures FieldRelToRobotRel(rotation, gyroAngle + turns as real * 360.0) == FieldRelToRobotRel(rotation, gyroAngle)
  {
    WrapIntoPeriodic(rotation - gyroAngle, 0.0, 360.0, turns);
    WrapIntoPeriodic(rotation - gyroAngle, 0.0, 360.0, -turns);
    assert rotation + turns as real * 360.0 - gyroAngle == (rotation - gyroAngle) + turns as real * 360.0;
    assert rotation - (gyroAngle + turns as real * 360.0) == (rotation - gyroAngle) + (-turns) as real * 360.0;
  }

  /** The shaped strafe vector turned for the field. */
  function FieldStrafe(m: Library, h: InputHandler, strafeX: real, strafeY: real, gyroAngle: real): Vector
    requires h.deadband != 1.0
  {
    var strafe := ApplyVector(m, h, Vector(strafeX, strafeY));
    ToRotationDegrees(m, strafe, FieldRelToRobotRel(RotationDegrees(m, strafe), gyroAngle))
  }

  /**
   * The field strafe has the length the handler gives the joystick's
   * length, and a non-zero one points the shaped direction less the gyro
   * angle, modulo a whole turn.
   */
  lemma FieldStrafeSpec(m: Library, h: InputHandler, strafeX: real, strafeY: real, gyroAngle: real)
    requires Lawful(m) && InputHandling.Valid(h)
    ensures Magnitude(m, FieldStrafe(m, h, strafeX, strafeY, gyroAngle))
      == Output(h, Magnitude(m, Vector(strafeX, strafeY)))
    ensures var strafe := ApplyVector(m, h, Vector(strafeX, strafeY));
      strafe != Zero ==>
        Congruent(RotationDegrees(m, FieldStrafe(m, h, strafeX, strafeY, gyroAngle)),
          RotationDegrees(m, strafe) - gyroAngle, 360.0)
  {
    var strafe := ApplyVector(m, h, Vector(strafeX, strafeY));
    var target := FieldRelToRobotRel(RotationDegrees(m, strafe), gyroAngle);
    ApplyVectorSpec(m, h, Vector(strafeX, strafeY));
    ToRotationDegreesSpec(m, strafe, target);
    WrapIntoInside(target, 0.0, 360.0);
  }

  /** With the gyro at 0 a non-zero shaped strafe keeps its direction. */
  lemma FieldStrafeFacingForward(m: Library, h: InputHandler, strafeX: real, strafeY: real)
    requires Lawful(m) && InputHandling.Valid(h)
    requires ApplyVector(m, h, Vector(strafeX, strafeY)) != Zero
    ensures RotationDegrees(m, FieldStrafe(m, h, strafeX, strafeY, 0.0))
      == RotationDegrees(m, ApplyVector(m, h, Vector(strafeX, strafeY)))
  {
    var strafe := ApplyVector(m, h, Vector(strafeX, strafeY));
    WrapIntoInside(RotationDegrees(m, strafe), 0.0, 360.0);
    assert RotationDegrees(m, strafe) - 0.0 == RotationDegrees(m, strafe);
    ToRotationDegreesSpec(m, strafe, RotationDegrees(m, strafe));
  }

  /** The autoDrive call fieldRelativeUserInputDrive makes. */
  function UserInputCall(m: Library, h: InputHandler, strafeX: real, strafeY: real, steering: real,
    gyroAngle: real, strafeSpeed: real, steerSpeed: real): AutoDrive
    requires h.deadband != 1.0
  {
    Scaled(FieldStrafe(m, h, strafeX, strafeY, gyroAngle), Output(h, steering), strafeSpeed, steerSpeed)
  }

  /** The strafe scaled by strafeSpeed and the steering by steerSpeed. */
  function Scaled(strafe: Vector, steering: real, strafeSpeed: real, steerSpeed: real): AutoDrive {
    AutoDrive(strafe.x * strafeSpeed, strafe.y * strafeSpeed, steering * steerSpeed)
  }

  /** Steering reaches autoDrive shaped and scaled, whatever the gyro and the strafe say. */
  lemma SteeringNotTurned(m: Library, h: InputHandler, strafeX: real, strafeY: real, steering: real,
    gyroA: real, gyroB: real, otherX: real, otherY: real, strafeSpeed: real, steerSpeed: real)
    requires h.deadband != 1.0
    ensures UserInputCall(m, h, strafeX, strafeY, steering, gyroA, strafeSpeed, steerSpeed).steering
      == UserInputCall(m, h, otherX, otherY, steering, gyroB, strafeSpeed, steerSpeed).steering
  {
  }

  /**
   * With a non-negative steerSpeed the steering sent is on
   * [-steerSpeed, steerSpeed], has the sign of the stick and is 0 for a
   * centred stick.
   */
  lemma SteeringBounded(h: InputHandler, steering: real, steerSpeed: real)
    requires InputHandling.Valid(h) && 0.0 <= steerSpeed
    ensures -steerSpeed <= Output(h, steering) * steerSpeed <= steerSpeed
    ensures steering >= 0.0 ==> Output(h, steering) * steerSpeed >= 0.0
    ensures steering <= 0.0 ==> Output(h, steering) * steerSpeed <= 0.0
    ensures steering == 0.0 ==> Output(h, steering) * steerSpeed == 0.0
  {
    OutputOfZero(h);
    OutputRange(h, steering);
    var o := Output(h, steering);
    assert o * steerSpeed - steerSpeed == (o - 1.0) * steerSpeed;
    assert o * steerSpeed + steerSpeed == (o + 1.0) * steerSpeed;
  }

  class GyroSwerveDrive {
    /** SwerveDrivingSpeeds.strafeSpeed and steerSpeed. */
    const strafeSpeed: real
    const steerSpeed: real
    /** Every autoDrive call made so far. */
    var autoDriveCalls: seq<AutoDrive>

    constructor (strafeSpeed: real, steerSpeed: real)
      ensures this.strafeSpeed == strafeSpeed && this.steerSpeed == steerSpeed
      ensures autoDriveCalls == []
    {
      this.strafeSpeed, this.steerSpeed := strafeSpeed, steerSpeed;
      autoDriveCalls := [];
    }

    /**
     * fieldRelativeUserInputDrive: shape the strafe vector and the
     * steering, turn the strafe for the field, and drive.
     */
    method FieldRelativeUserInputDrive(m: Library, strafeX: real, strafeY: real, steering: real,
      h: InputHandler, gyroAngle: real)
      requires h.deadband != 1.0
      modifies this`autoDriveCalls
      ensures autoDriveCalls == old(autoDriveCalls)
        + [UserInputCall(m, h, strafeX, strafeY, steering, gyroAngle, strafeSpeed, steerSpeed)]
    {
      var strafeInput := Vector(strafeX, strafeY);
      strafeInput := ApplyVector(m, h, strafeInput);
      var shaped := Apply(h, steering);
      var rotation := GetRotationDegrees(m, strafeInput);
      var robotRotation := WrapDegrees(rotation - gyroAngle);
      var fieldStrafeInput := ToRotationDegrees(m, strafeInput, robotRotation);
      assert fieldStrafeInput == FieldStrafe(m, h, strafeX, strafeY, gyroAngle);
      autoDriveCalls := autoDriveCalls + [Scaled(fieldStrafeInput, shaped, strafeSpeed, steerSpeed)];
    }
  }
}
