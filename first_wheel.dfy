/**
 * The first `swerve` module (swerve/SwerveWheel.java): rotation in raw
 * revolutions, set with setSpeedAndRotation, which accepts negative
 * speeds. The directional encoder that its SwerveDrive resets and reads
 * is not part of the shown wheel; it is modelled as that drive uses it.
 */
module FirstWheel {
  import opened Angles
  import opened Steering

  const SpeedMessage := "speed should be within range [-1, 1]"
  const RotationMessage := "targetRot should be within range [0, 360)"

  /** The argument checks of setSpeedAndRotation: speed on [-1, 1], target on [0, 360). */
  function Validate(targetRot: real, speed: real): (r: Outcome)
    ensures r.Done? <==> -1.0 <= speed <= 1.0 && 0.0 <= targetRot < 360.0
  {
    if speed < -1.0 || speed > 1.0 then Thrown(SpeedMessage)
    else if targetRot >= 360.0 || targetRot < 0.0 then Thrown(RotationMessage)
    else Done
  }

  /** What setSpeedAndRotation sends from a raw reading: nothing when it throws. */
  function Response(raw: real, targetRot: real, speed: real): seq<WheelCommand> {
    if Validate(targetRot, speed).Done? then RawIssued(raw, targetRot, speed) else []
  }

  class SwerveWheel {
    /** getRotation(): the steering rotation in revolutions, unwrapped. */
    var rotation: real
    /** getDirectionalDifference(): distance driven since the directional encoder was reset. */
    var directionalDifference: real
    /** Every call made on the hardware, oldest first. */
    var commands: seq<WheelCommand>

    constructor (rotation: real, directionalDifference: real)
      ensures this.rotation == rotation && this.directionalDifference == directionalDifference
      ensures commands == []
    {
      this.rotation := rotation;
      this.directionalDifference := directionalDifference;
      commands := [];
    }

    /**
     * setSpeedAndRotation: the new raw rotation is the planned move in
     * revolutions added to the reading; the speed, which may be negative,
     * is multiplied by the plan's sign.
     */
    method SetSpeedAndRotation(targetRot: real, speed: real) returns (outcome: Outcome)
      modifies this`commands
      ensures outcome == Validate(targetRot, speed)
      ensures commands == old(commands) + Response(rotation, targetRot, speed)
    {
      if speed < -1.0 || speed > 1.0 {
        return Thrown(SpeedMessage);
      }
      if targetRot >= 360.0 || targetRot < 0.0 {
        return Thrown(RotationMessage);
      }
      var currentRot := CurrentDegrees(rotation);
      var moveRot := ShortestDifference(targetRot - currentRot);
      var reverse := 1;
      if Abs(moveRot) > 90.0 {
        reverse := -1;
        if moveRot > 0.0 {
          moveRot := moveRot - 180.0;
        } else {
          moveRot := moveRot + 180.0;
        }
      }
      commands := commands + [SetDirection(moveRot / 360.0 + rotation)];
      commands := commands + [SetDriveSpeed(speed * reverse as real)];
      outcome := Done;
    }

    /** stop: speed zero, then rotational movement stopped. */
    method Stop()
      modifies this`commands
      ensures commands == old(commands) + [SetDriveSpeed(0.0), StopSteering]
    {
      commands := commands + [SetDriveSpeed(0.0), StopSteering];
    }

    /** resetEncoder: the steering encoder reads zero revolutions again. */
    method ResetEncoder()
      modifies this`commands, this`rotation
      ensures rotation == 0.0
      ensures commands == old(commands) + [ResetSteerEncoder]
    {
      rotation := 0.0;
      commands := commands + [ResetSteerEncoder];
    }

    /** resetDirectionalEncoder, as the first SwerveDrive calls it. */
    method ResetDirectionalEncoder()
      modifies this`commands, this`directionalDifference
      ensures directionalDifference == 0.0
      ensures commands == old(commands) + [ResetDriveEncoder]
    {
      directionalDifference := 0.0;
      commands := commands + [ResetDriveEncoder];
    }
  }
}
