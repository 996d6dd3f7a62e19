/**
 * The frc.team1711 swerve module (SwerveWheel, with the drive encoder that
 * AutoSwerveWheel adds). The hardware is the wheel's state: the direction
 * it reports in degrees, the distance its drive encoder has counted, and
 * the calls made on it so far.
 */
module FrcWheel {
  import opened Angles
  import opened Steering

  const SpeedMessage := "speed should be within range [0, 1]"
  const DirectionMessage := "targetDirection should be within range [0, 360)"

  /** The argument checks of steerAndDrive, in the order the source makes them. */
  function Validate(targetDirection: real, speed: real): (r: Outcome)
    ensures r.Done? <==> 0.0 <= speed <= 1.0 && 0.0 <= targetDirection < 360.0
  {
    if speed < 0.0 || speed > 1.0 then Thrown(SpeedMessage)
    else if targetDirection >= 360.0 || targetDirection < 0.0 then Thrown(DirectionMessage)
    else Done
  }

  /** The two calls steerAndDrive makes from `current` degrees: steer by the plan, then drive. */
  function Issued(current: real, targetDirection: real, speed: real): seq<WheelCommand> {
    var p := Steer(targetDirection, current);
    [SetDirection(p.move + current), SetDriveSpeed(speed * p.reverse as real)]
  }

  /** What steerAndDrive sends: nothing when it throws. */
  function Response(current: real, targetDirection: real, speed: real): seq<WheelCommand> {
    if Validate(targetDirection, speed).Done? then Issued(current, targetDirection, speed) else []
  }

  /**
   * The commanded direction is the current one moved by at most a quarter
   * turn, left unwrapped; the speed is reversed exactly when the shortest
   * turn exceeds 90 degrees; and the wheel then points at the target, or at
   * its opposite when reversed.
   */
  lemma IssuedSpec(current: real, targetDirection: real, speed: real)
    ensures var c := Issued(current, targetDirection, speed);
      var turn := Shortest(targetDirection - current);
      && |c| == 2 && c[0].SetDirection? && c[1].SetDriveSpeed?
      && -90.0 <= c[0].target - current <= 90.0
      && c[1].speed == (if Abs(turn) > 90.0 then -speed else speed)
      && (Abs(turn) <= 90.0 ==> Congruent(c[0].target, targetDirection, 360.0))
      && (Abs(turn) > 90.0 ==> Congruent(c[0].target, targetDirection + 180.0, 360.0))
  {
    var p := Steer(targetDirection, current);
    SteerSpec(targetDirection, current);
    assert p.move + current == current + p.move;
  }

  class SwerveWheel {
    /** getDirection(): the steering direction in degrees, on [0, 360). */
    var direction: real
    /** getPositionDifference(): inches driven since the last drive-encoder reset. */
    var positionDifference: real
    /** Every call made on the hardware, oldest first. */
    var commands: seq<WheelCommand>

    constructor (direction: real, positionDifference: real)
      ensures this.direction == direction && this.positionDifference == positionDifference
      ensures commands == []
    {
      this.direction := direction;
      this.positionDifference := positionDifference;
      commands := [];
    }

    /**
     * steerAndDrive: rejects a speed off [0, 1] or a target off [0, 360)
     * before touching the hardware; otherwise turns by the planned move from
     * the current direction (unwrapped) and drives at the speed times the
     * plan's sign. The wrapped target the source computes in between is
     * never used, and is not modelled.
     */
    method SteerAndDrive(targetDirection: real, speed: real) returns (outcome: Outcome)
      modifies this`commands
      ensures outcome == Validate(targetDirection, speed)
      ensures commands == old(commands) + Response(direction, targetDirection, speed)
    {
      if speed < 0.0 || speed > 1.0 {
        return Thrown(SpeedMessage);
      }
      if targetDirection >= 360.0 || targetDirection < 0.0 {
        return Thrown(DirectionMessage);
      }
      var moveDirection := ShortestDifference(targetDirection - direction);
      var reverse := 1;
      if Abs(moveDirection) > 90.0 {
        reverse := -1;
        if moveDirection > 0.0 {
          moveDirection := moveDirection - 180.0;
        } else {
          moveDirection := moveDirection + 180.0;
        }
      }
      commands := commands + [SetDirection(moveDirection + direction)];
      commands := commands + [SetDriveSpeed(speed * reverse as real)];
      outcome := Done;
    }

    /** checkWithinRange: the shortest turn to `target` is at most the margin, either way. */
    method CheckWithinRange(target: real, marginOfError: real) returns (within: bool)
      ensures within == WithinRange(target, direction, marginOfError)
    {
      within := CheckDifference(target, direction, marginOfError);
    }

    /** checkWithin180Range: within range of the target or of its opposite. */
    method CheckWithin180Range(target: real, marginOfError: real) returns (within: bool)
      ensures within == Within180Range(target, direction, marginOfError)
    {
      var target180 := target + 180.0;
      if target180 >= 360.0 {
        target180 := target180 - 360.0;
      }
      within := CheckWithinRange(target, marginOfError);
      if !within {
        within := CheckWithinRange(target180, marginOfError);
      }
    }

    /** stop: drive speed zero, then steering stopped. */
    method Stop()
      modifies this`commands
      ensures commands == old(commands) + [SetDriveSpeed(0.0), StopSteering]
    {
      commands := commands + [SetDriveSpeed(0.0), StopSteering];
    }

    /** resetDriveEncoder: the encoder counts from zero again. */
    method ResetDriveEncoder()
      modifies this`commands, this`positionDifference
      ensures positionDifference == 0.0
      ensures commands == old(commands) + [WheelCommand.ResetDriveEncoder]
    {
      positionDifference := 0.0;
      commands := commands + [WheelCommand.ResetDriveEncoder];
    }
  }
}
