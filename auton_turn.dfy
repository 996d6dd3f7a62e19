/**
 * The AutonTurn command (commands/AutonTurn.java): it turns the whole
 * robot body toward a direction at a fixed turning speed, and counts as
 * finished in any cycle that ends with the gyro within a margin of that
 * direction.
 *
 * The command calls a four-argument inputDrive and a getGyroAngle that the
 * modelled drive does not have: each turning request is recorded in
 * `turnRequests` (the strafe it asks for is always zero), and the gyro
 * angle is a parameter of the methods that read it.
 */
module AutonTurn {
  import opened Angles
  import opened Steering
  import opened RobotMovement
  import FrcDrive

  /** The constructor's check of turnSpeed. */
  function CheckTurnSpeed(turnSpeed: real): (r: Outcome)
    ensures r.Done? <==> 0.0 < turnSpeed <= 1.0
  {
    if turnSpeed > 1.0 || turnSpeed <= 0.0 then Thrown("turnSpeed must be on interval (0, 1]")
    else Done
  }

  /** The target direction initialize sets: relative to the gyro for the robot frame. */
  function Target(frame: FrameOfReference, directionInput: real, gyroAngle: real): real {
    if frame == Robot then directionInput + gyroAngle else directionInput
  }

  /** How far the robot still has to turn, on [-180, 180). */
  function TurnOffset(direction: real, gyroAngle: real): (r: real)
    ensures -180.0 <= r < 180.0
    ensures Congruent(r, direction - gyroAngle, 360.0)
  {
    WrapInto(direction - gyroAngle, -180.0, 360.0)
  }

  /** steerTowardsTarget's steering: turnSpeed toward the shorter way round. */
  function TurnRequest(direction: real, gyroAngle: real, turnSpeed: real): real {
    if TurnOffset(direction, gyroAngle) > 0.0 then turnSpeed else -turnSpeed
  }

  /** withinMargins. */
  predicate WithinMargins(direction: real, gyroAngle: real, marginOfError: real) {
    Abs(TurnOffset(direction, gyroAngle)) <= marginOfError
  }

  /**
   * The request has the size of turnSpeed and, for a positive turnSpeed,
   * is positive exactly when the target is less than half a turn clockwise.
   */
  lemma TurnRequestSpec(direction: real, gyroAngle: real, turnSpeed: real)
    requires 0.0 < turnSpeed
    ensures Abs(TurnRequest(direction, gyroAngle, turnSpeed)) == turnSpeed
    ensures TurnRequest(direction, gyroAngle, turnSpeed) > 0.0 <==> TurnOffset(direction, gyroAngle) > 0.0
  {
  }

  /** A gyro a whole number of turns from the target is within any non-negative margin. */
  lemma AtTargetWithinMargins(direction: real, turns: int, marginOfError: real)
    requires 0.0 <= marginOfError
    ensures WithinMargins(direction, direction + turns as real * 360.0, marginOfError)
  {
    assert direction - (direction + turns as real * 360.0) == 0.0 + (-turns) as real * 360.0;
    WrapIntoPeriodic(0.0, -180.0, 360.0, -turns);
    WrapIntoInside(0.0, -180.0, 360.0);
  }

  /** With a margin of 180 degrees or more every gyro angle counts as within it. */
  lemma WideMarginAlwaysWithin(direction: real, gyroAngle: real, marginOfError: real)
    requires 180.0 <= marginOfError
    ensures WithinMargins(direction, gyroAngle, marginOfError)
  {
  }

  /**
   * finished is not a latch: facing the target it is set, a quarter turn
   * away with a margin of 5 it is cleared again.
   */
  lemma FinishedCanRevert()
    ensures WithinMargins(0.0, 0.0, 5.0) && !WithinMargins(0.0, 90.0, 5.0)
  {
    WrapIntoInside(0.0, -180.0, 360.0);
    WrapIntoInside(-90.0, -180.0, 360.0);
  }

  class AutonTurn {
    const drive: FrcDrive.SwerveDrive
    const directionInput: real
    const marginOfError: real
    const turnSpeed: real
    const frame: FrameOfReference

    var finished: bool
    /** The target direction, set by initialize. */
    var direction: real
    /** The steering of every inputDrive(0, 0, steering, false) call so far. */
    var turnRequests: seq<real>

    /** The constructor once turnSpeed has passed its check. */
    constructor (drive: FrcDrive.SwerveDrive, direction: real, turnSpeed: real, marginOfError: real,
      frame: FrameOfReference)
      requires CheckTurnSpeed(turnSpeed).Done?
      ensures this.drive == drive && directionInput == direction && this.turnSpeed == turnSpeed
      ensures this.marginOfError == marginOfError && this.frame == frame
      ensures !finished && turnRequests == []
    {
      this.drive := drive;
      this.frame := frame;
      directionInput := direction;
      this.turnSpeed := turnSpeed;
      this.marginOfError := marginOfError;
      finished := false;
      turnRequests := [];
    }

    /** Stop the wheels, then fix the target for this run. */
    method Initialize(gyroAngle: real)
      requires drive.Valid()
      modifies drive.fl`commands, drive.fr`commands, drive.rl`commands, drive.rr`commands, this`direction
      ensures direction == Target(frame, directionInput, gyroAngle)
      ensures drive.fl.commands == old(drive.fl.commands) + [SetDriveSpeed(0.0), StopSteering]
      ensures drive.fr.commands == old(drive.fr.commands) + [SetDriveSpeed(0.0), StopSteering]
      ensures drive.rl.commands == old(drive.rl.commands) + [SetDriveSpeed(0.0), StopSteering]
      ensures drive.rr.commands == old(drive.rr.commands) + [SetDriveSpeed(0.0), StopSteering]
    {
      drive.Stop();
      if frame == Robot {
        direction := directionInput + gyroAngle;
      } else {
        direction := directionInput;
      }
    }

    /** One cycle: turn toward the target, then note whether it is within the margin. */
    method Execute(gyroAngle: real)
      modifies this`turnRequests, this`finished
      ensures turnRequests == old(turnRequests) + [TurnRequest(direction, gyroAngle, turnSpeed)]
      ensures finished == WithinMargins(direction, gyroAngle, marginOfError)
    {
      var turningChange := WrapDegreesZeroCenter(direction - gyroAngle);
      var currentTurnSpeed := if turningChange > 0.0 then turnSpeed else -turnSpeed;
      turnRequests := turnRequests + [currentTurnSpeed];
      var offset := WrapDegreesZeroCenter(direction - gyroAngle);
      finished := Abs(offset) <= marginOfError;
    }

    /** end: stop the wheels. */
    method End()
      requires drive.Valid()
      modifies drive.fl`commands, drive.fr`commands, drive.rl`commands, drive.rr`commands
      ensures drive.fl.commands == old(drive.fl.commands) + [SetDriveSpeed(0.0), StopSteering]
      ensures drive.fr.commands == old(drive.fr.commands) + [SetDriveSpeed(0.0), StopSteering]
      ensures drive.rl.commands == old(drive.rl.commands) + [SetDriveSpeed(0.0), StopSteering]
      ensures drive.rr.commands == old(drive.rr.commands) + [SetDriveSpeed(0.0), StopSteering]
    {
      drive.Stop();
    }

    /** isFinished: whether the last cycle ended within the margin. */
    method IsFinished() returns (r: bool)
      ensures r == finished
    {
      r := finished;
    }
  }

  /**
   * Creating the command: the turnSpeed check comes first and, when it
   * throws, no command exists.
   */
  method NewAutonTurn(drive: FrcDrive.SwerveDrive, direction: real, turnSpeed: real, marginOfError: real,
    frame: FrameOfReference) returns (outcome: Outcome, command: AutonTurn?)
    ensures outcome == CheckTurnSpeed(turnSpeed)
    ensures outcome.Done? <==> command != null
    ensures command != null ==>
      && fresh(command) && !command.finished && command.turnRequests == []
      && command.drive == drive && command.directionInput == direction && command.turnSpeed == turnSpeed
      && command.marginOfError == marginOfError && command.frame == frame
  {
    outcome := CheckTurnSpeed(turnSpeed);
    if outcome.Thrown? {
      return outcome, null;
    }
    command := new AutonTurn(drive, direction, turnSpeed, marginOfError, frame);
  }
}
