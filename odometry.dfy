/**
 * The pose estimator of util/odometry/Odometry.java: it keeps the robot's
 * position on the field and a gyro offset, and dead-reckons the position
 * from the four wheels' directions and drive-encoder distances.
 *
 * The absolute gyro angle and the wheel readings come from hardware, so
 * every method that reads them takes them as parameters, one reading per
 * call. The inner Position class is `Position.Position` built with the
 * record constructor, which stores its yaw unwrapped as that class does.
 */
module Odometry {
  import opened Angles
  import opened JavaMath
  import opened FrcVector
  import opened DriveMath
  import opened Position

  /** One wheel's getDirection() and getEncoderDistance(). */
  datatype Reading = Reading(direction: real, encoderDistance: real)

  /**
   * getWheelMovement: the wheel's travel since `previous`, pointing at the
   * absolute gyro angle plus the wheel's own direction.
   */
  function WheelMovement(m: Library, absoluteGyro: real, r: Reading, previous: real): Vector {
    FromPolarDegrees(m, absoluteGyro + r.direction, r.encoderDistance - previous)
  }

  /** The mean of the four wheel movements. */
  function Movement(m: Library, absoluteGyro: real, readings: Quad<Reading>, previous: Speeds): Vector {
    Scale(Add(Add(Add(
      WheelMovement(m, absoluteGyro, readings.fl, previous.fl),
      WheelMovement(m, absoluteGyro, readings.fr, previous.fr)),
      WheelMovement(m, absoluteGyro, readings.rl, previous.rl)),
      WheelMovement(m, absoluteGyro, readings.rr, previous.rr)), 0.25)
  }

  /** The inner Position's getPositionFromMovement. */
  function PositionFromMovement(p: Position, movement: Vector, newYaw: real): Position {
    Position(Add(p.location, movement), WrapInto(newYaw, 0.0, 360.0))
  }

  /**
   * The new position has moved by the movement and its yaw is the new yaw
   * wrapped onto [0, 360).
   */
  lemma PositionFromMovementSpec(p: Position, movement: Vector, newYaw: real)
    ensures Subtract(PositionFromMovement(p, movement, newYaw).location, p.location) == movement
    ensures Wrapped(PositionFromMovement(p, movement, newYaw))
    ensures Congruent(PositionFromMovement(p, movement, newYaw).direction, newYaw, 360.0)
  {
  }

  /** A wheel whose encoder has not moved contributes nothing. */
  lemma StillWheel(m: Library, absoluteGyro: real, r: Reading, previous: real)
    requires r.encoderDistance == previous
    ensures WheelMovement(m, absoluteGyro, r, previous) == Zero
  {
  }

  /** When no encoder has moved, the location does not change. */
  lemma StillWheelsStayPut(m: Library, absoluteGyro: real, readings: Quad<Reading>, previous: Speeds)
    requires readings.fl.encoderDistance == previous.fl && readings.fr.encoderDistance == previous.fr
    requires readings.rl.encoderDistance == previous.rl && readings.rr.encoderDistance == previous.rr
    ensures Movement(m, absoluteGyro, readings, previous) == Zero
  {
    StillWheel(m, absoluteGyro, readings.fl, previous.fl);
    StillWheel(m, absoluteGyro, readings.fr, previous.fr);
    StillWheel(m, absoluteGyro, readings.rl, previous.rl);
    StillWheel(m, absoluteGyro, readings.rr, previous.rr);
  }

  /** Four equal wheel movements average to that movement. */
  lemma EqualWheelsMovement(m: Library, absoluteGyro: real, r: Reading, previous: real)
    ensures Movement(m, absoluteGyro, Uniform(r), Speeds(previous, previous, previous, previous))
      == WheelMovement(m, absoluteGyro, r, previous)
  {
    var w := WheelMovement(m, absoluteGyro, r, previous);
    assert Add(Add(Add(w, w), w), w) == Vector(4.0 * w.x, 4.0 * w.y);
  }

  /** After resetPosition, the yaw the next update computes. */
  function YawAfterReset(newPosition: Position, gyroAtReset: real, gyroAtUpdate: real): real {
    WrapInto(gyroAtUpdate - (gyroAtReset - newPosition.direction), 0.0, 360.0)
  }

  /**
   * After a reset, the next update's yaw is the reset yaw turned by what
   * the gyro turned since; with the gyro still, a wrapped yaw comes back as it was.
   */
  lemma YawAfterResetSpec(newPosition: Position, gyroAtReset: real, gyroAtUpdate: real)
    ensures Congruent(YawAfterReset(newPosition, gyroAtReset, gyroAtUpdate),
      newPosition.direction + (gyroAtUpdate - gyroAtReset), 360.0)
    ensures gyroAtUpdate == gyroAtReset && Wrapped(newPosition) ==>
      YawAfterReset(newPosition, gyroAtReset, gyroAtUpdate) == newPosition.direction
  {
    assert gyroAtUpdate - (gyroAtReset - newPosition.direction) == newPosition.direction + (gyroAtUpdate - gyroAtReset);
    if gyroAtUpdate == gyroAtReset && Wrapped(newPosition) {
      WrapIntoInside(newPosition.direction, 0.0, 360.0);
    }
  }

  class Odometry {
    /** The previous encoder distances; nothing ever writes them. */
    var frontLeftDistance: real
    var frontRightDistance: real
    var rearLeftDistance: real
    var rearRightDistance: real

    var gyroYawOffset: real
    var position: Position

    function Previous(): Speeds
      reads this
    {
      Speeds(frontLeftDistance, frontRightDistance, rearLeftDistance, rearRightDistance)
    }

    /** The position starts at the origin facing 0, the offset at the current gyro angle. */
    constructor (absoluteGyro: real)
      ensures position == Position(Zero, 0.0)
      ensures gyroYawOffset == absoluteGyro
      ensures Previous() == AllAt(0.0)
    {
      frontLeftDistance, frontRightDistance, rearLeftDistance, rearRightDistance := 0.0, 0.0, 0.0, 0.0;
      position := Position(Vector(0.0, 0.0), 0.0);
      gyroYawOffset := absoluteGyro;
    }

    /**
     * update: the position moves by the mean wheel movement and takes the
     * gyro angle less the offset, wrapped, as its yaw. Only the position
     * changes.
     */
    method Update(m: Library, absoluteGyro: real, readings: Quad<Reading>)
      modifies this`position
      ensures position == PositionFromMovement(old(position),
        Movement(m, absoluteGyro, readings, Previous()), absoluteGyro - gyroYawOffset)
    {
      var flMovement := WheelMovement(m, absoluteGyro, readings.fl, frontLeftDistance);
      var frMovement := WheelMovement(m, absoluteGyro, readings.fr, frontRightDistance);
      var rlMovement := WheelMovement(m, absoluteGyro, readings.rl, rearLeftDistance);
      var rrMovement := WheelMovement(m, absoluteGyro, readings.rr, rearRightDistance);
      var movement := Scale(Add(Add(Add(flMovement, frMovement), rlMovement), rrMovement), 0.25);
      var yaw := WrapDegrees(absoluteGyro - gyroYawOffset);
      position := Position(Add(position.location, movement), yaw);
    }

    /**
     * resetPosition: the position is the given one, and the offset is set
     * so that the gyro angle less the offset is that position's yaw.
     */
    method ResetPosition(newPosition: Position, absoluteGyro: real)
      modifies this`position, this`gyroYawOffset
      ensures position == newPosition
      ensures absoluteGyro - gyroYawOffset == newPosition.direction
    {
      position := newPosition;
      gyroYawOffset := absoluteGyro - position.direction;
    }

    /** getPosition: one update, then the position. */
    method GetPosition(m: Library, absoluteGyro: real, readings: Quad<Reading>) returns (p: Position)
      modifies this`position
      ensures p == position
      ensures p == PositionFromMovement(old(position),
        Movement(m, absoluteGyro, readings, Previous()), absoluteGyro - gyroYawOffset)
    {
      Update(m, absoluteGyro, readings);
      p := position;
    }
  }
}
