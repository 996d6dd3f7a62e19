/**
 * The early `swerve.subsystems` module (the top-level `swerve` tree): the
 * same raw-revolution steering as the swervelib module, read through
 * getDirection, with an encoder reset when the wheel is created. The drive
 * encoder getters that its SwerveDrive calls are not part of the shown
 * wheel; they are modelled as that drive uses them.
 */
module EarlyWheel {
  import opened Angles
  import opened Steering

  const SpeedMessage := "speed should be within range [-1, 1]"
  const DirectionMessage := "targetDirection should be within range [0, 360)"

  /** The argument checks of steerAndDrive: speed on [0, 1], target on [0, 360). */
  function Validate(targetDirection: real, speed: real): (r: Outcome)
    ensures r.Done? <==> 0.0 <= speed <= 1.0 && 0.0 <= targetDirection < 360.0
  {
    if speed < 0.0 || speed > 1.0 then Thrown(SpeedMessage)
    else if targetDirection >= 360.0 || targetDirection < 0.0 then Thrown(DirectionMessage)
    else Done
  }

  /** What steerAndDrive sends from a raw reading: nothing when it throws. */
  function Response(raw: real, targetDirection: real, speed: real): seq<WheelCommand> {
    if Validate(targetDirection, speed).Done? then RawIssued(raw, targetDirection, speed) else []
  }

  class SwerveWheel {
    /** getDirection(): the steering direction in revolutions, unwrapped. */
    var rawDirection: real
    /** getPositionDifference(): distance driven since the last drive-encoder reset. */
    var positionDifference: real
    /** Every call made on the hardware, oldest first. */
    var commands: seq<WheelCommand>

    /** The constructor resets the steering encoder, so the wheel reads zero revolutions. */
    constructor (positionDifference: real)
      ensures rawDirection == 0.0 && this.positionDifference == positionDifference
      ensures commands == [ResetSteerEncoder]
    {
      this.positionDifference := positionDifference;
      rawDirection := 0.0;
      commands := [ResetSteerEncoder];
    }

    /**
     * steerAndDrive: speed on [0, 1] and target on [0, 360) or it throws;
     * then the new raw target is the planned move in revolutions added to
     * the unwrapped reading, and only a local copy of the reading is wrapped.
     */
    method SteerAndDrive(targetDirection: real, speed: real) returns (outcome: Outcome)
      modifies this`commands
      ensures outcome == Validate(targetDirection, speed)
      ensures commands == old(commands) + Response(rawDirection, targetDirection, speed)
    {
      if speed < 0.0 || speed > 1.0 {
        return Thrown(SpeedMessage);
      }
      if targetDirection >= 360.0 || targetDirection < 0.0 {
        return Thrown(DirectionMessage);
      }
      var currentDirection := CurrentDegrees(rawDirection);
      var moveDirection := ShortestDifference(targetDirection - currentDirection);
      var reverse := 1;
      if Abs(moveDirection) > 90.0 {
        reverse := -1;
        if moveDirection > 0.0 {
          moveDirection := moveDirection - 180.0;
        } else {
          moveDirection := moveDirection + 180.0;
        }
      }
      commands := commands + [SetDirection(moveDirection / 360.0 + rawDirection)];
      commands := commands + [SetDriveSpeed(speed * reverse as real)];
      outcome := Done;
    }

    /** stop: drive speed zero, then steering stopped. */
    method Stop()
      modifies this`commands
      ensures commands == old(commands) + [SetDriveSpeed(0.0), StopSteering]
    {
      commands := commands + [SetDriveSpeed(0.0), StopSteering];
    }

    /** resetDriveEncoder, as the early SwerveDrive calls it. */
    method ResetDriveEncoder()
      modifies this`commands, this`positionDifference
      ensures positionDifference == 0.0
      ensures commands == old(commands) + [WheelCommand.ResetDriveEncoder]
    {
      positionDifference := 0.0;
      commands := commands + [WheelCommand.ResetDriveEncoder];
    }
  }
}
