/**
 * The swervelib `swerve.subsystems` module (SwerveWheel, with the drive
 * encoder that FESwerveWheel adds). The steering encoder reads raw
 * revolutions that are never wrapped; the wheel is commanded in the same
 * unit, so it keeps counting whole turns.
 */
module LibWheel {
  import opened Angles
  import opened Steering

  /** The source's message says [-1, 1], but the check it guards is [0, 1]. */
  const SpeedMessage := "speed should be within range [-1, 1]"
  const DirectionMessage := "targetDirection should be within range [0, 360)"

  /** The argument checks of steerAndDrive, in the order the source makes them. */
  function Validate(targetDirection: real, speed: real): (r: Outcome)
    ensures r.Done? <==> 0.0 <= speed <= 1.0 && 0.0 <= targetDirection < 360.0
  {
    if speed < 0.0 || speed > 1.0 then Thrown(SpeedMessage)
    else if targetDirection >= 360.0 || targetDirection < 0.0 then Thrown(DirectionMessage)
    else Done
  }

  /** What steerAndDrive sends from a raw reading: nothing when it throws. */
  function Response(raw: real, targetDirection: real, speed: real): seq<WheelCommand> {
    if Validate(targetDirection, speed).Done? then RawIssued(raw, targetDirection, speed) else []
  }

  class SwerveWheel {
    /** getRawDirection(): the steering direction in revolutions, unwrapped. */
    var rawDirection: real
    /** getPositionDifference(): distance driven since the last drive-encoder reset. */
    var positionDifference: real
    /** Every call made on the hardware, oldest first. */
    var commands: seq<WheelCommand>

    constructor (rawDirection: real, positionDifference: real)
      ensures this.rawDirection == rawDirection && this.positionDifference == positionDifference
      ensures commands == []
    {
      this.rawDirection := rawDirection;
      this.positionDifference := positionDifference;
      commands := [];
    }

    /**
     * steerAndDrive: the same checks as the degree variant, then the current
     * direction is the raw reading in degrees wrapped onto [0, 360), and the
     * new raw target is the planned move in revolutions added to the raw
     * reading.
     */
    method SteerAndDrive(targetDirection: real, speed: real) returns (outcome: Outcome)
      modifies this`commands
      ensures outcome == Validate(targetDirection, speed)
      ensures commands == old(commands) + Response(rawDirection, targetDirection, speed)
    {
      if speed < 0.0 || speed > 1.0 {
        return Thrown(SpeedMessage);
      }
      if targetDirection >= 360.0 || targetDirection < 0.0 {
        return Thrown(DirectionMessage);
      }
      var currentDirection := CurrentDegrees(rawDirection);
      var moveDirection := ShortestDifference(targetDirection - currentDirection);
      var reverse := 1;
      if Abs(moveDirection) > 90.0 {
        reverse := -1;
        if moveDirection > 0.0 {
          moveDirection := moveDirection - 180.0;
        } else {
          moveDirection := moveDirection + 180.0;
        }
      }
      commands := commands + [SetDirection(moveDirection / 360.0 + rawDirection)];
      commands := commands + [SetDriveSpeed(speed * reverse as real)];
      outcome := Done;
    }

    /** getDirection: the raw reading in degrees, wrapped onto [0, 360) (loops in the other order). */
    method GetDirection() returns (degrees: real)
      ensures degrees == RawDirection(rawDirection)
    {
      degrees := WrapDegrees(rawDirection * 360.0);
    }

    /** checkWithinRange: the shortest turn to `target` lies on [-margin, margin]. */
    method CheckWithinRange(target: real, marginOfError: real) returns (within: bool)
      ensures within == WithinRange(target, RawDirection(rawDirection), marginOfError)
    {
      var current := GetDirection();
      var difference := ShortestDifference(target - current);
      within := difference >= -marginOfError && difference <= marginOfError;
    }

    /** checkWithin180Range: within range of the target or of its opposite. */
    method CheckWithin180Range(target: real, marginOfError: real) returns (within: bool)
      ensures within == Within180Range(target, RawDirection(rawDirection), marginOfError)
    {
      var target180 := target + 180.0;
      if target180 >= 360.0 {
        target180 := target180 - 360.0;
      }
      within := CheckWithinRange(target, marginOfError);
      if !within {
        within := CheckWithinRange(target180, marginOfError);
      }
    }

    /** stop: drive speed zero, then steering stopped. */
    method Stop()
      modifies this`commands
      ensures commands == old(commands) + [SetDriveSpeed(0.0), StopSteering]
    {
      commands := commands + [SetDriveSpeed(0.0), StopSteering];
    }

    /** resetDriveEncoder: the drive encoder counts from zero again. */
    method ResetDriveEncoder()
      modifies this`commands, this`positionDifference
      ensures positionDifference == 0.0
      ensures commands == old(commands) + [WheelCommand.ResetDriveEncoder]
    {
      positionDifference := 0.0;
      commands := commands + [WheelCommand.ResetDriveEncoder];
    }
  }
}
