/**
 * The AutonDrive command (commands/AutonDrive.java): a three-phase machine
 * that strafes the drive in one direction at one speed until the wheels
 * report a given distance. The steering phase lines the wheels up first
 * and resets the distance reference; the constructor starts in the
 * driving phase, and nothing ever enters the steering phase.
 */
module AutonDrive {
  import opened Angles
  import opened Steering
  import opened DriveMath
  import FrcWheel
  import FrcDrive

  /** How far from the direction a wheel may point and still count as lined up. */
  const DirectionMarginOfError: real := 5.0

  datatype Phase = Steering | Driving | Ending

  /**
   * A direction on [0, 360) and a speed on [0, 1], as the constructor's
   * documentation asks for, make every driving cycle go through.
   */
  lemma DrivingAccepted(direction: real, speed: real)
    requires 0.0 <= direction < 360.0 && 0.0 <= speed <= 1.0
    ensures var o := FrcWheel.Validate(direction, speed); Then(o, Then(o, Then(o, o))).Done?
  {
  }

  class AutonDrive {
    const drive: FrcDrive.SwerveDrive
    const direction: real
    const distance: real
    const speed: real
    var phase: Phase

    constructor (drive: FrcDrive.SwerveDrive, direction: real, distance: real, speed: real)
      ensures this.drive == drive && this.direction == direction
      ensures this.distance == distance && this.speed == speed
      ensures phase == Driving
    {
      this.drive := drive;
      this.direction := direction;
      this.distance := distance;
      this.speed := speed;
      phase := Driving;
    }

    /**
     * Every wheel took the speed-0 steering toward the direction that
     * steerAllWithinRange sends, then had its drive encoder reset by
     * setDistanceReference; the wheels still point where they did.
     */
    twostate predicate AlignedThenReset()
      reads drive.fl, drive.fr, drive.rl, drive.rr
    {
      && drive.fl.commands == old(drive.fl.commands)
        + FrcWheel.Response(old(drive.fl.direction), direction, 0.0) + [WheelCommand.ResetDriveEncoder]
      && drive.fr.commands == old(drive.fr.commands)
        + FrcWheel.Response(old(drive.fr.direction), direction, 0.0) + [WheelCommand.ResetDriveEncoder]
      && drive.rl.commands == old(drive.rl.commands)
        + FrcWheel.Response(old(drive.rl.direction), direction, 0.0) + [WheelCommand.ResetDriveEncoder]
      && drive.rr.commands == old(drive.rr.commands)
        + FrcWheel.Response(old(drive.rr.direction), direction, 0.0) + [WheelCommand.ResetDriveEncoder]
      && drive.Directions() == old(drive.Directions())
      && drive.PositionDifferences() == AllAt(0.0)
    }

    /** initialize: stop the wheels. */
    method Initialize()
      requires drive.Valid()
      modifies drive.fl`commands, drive.fr`commands, drive.rl`commands, drive.rr`commands
      ensures drive.fl.commands == old(drive.fl.commands) + [SetDriveSpeed(0.0), StopSteering]
      ensures drive.fr.commands == old(drive.fr.commands) + [SetDriveSpeed(0.0), StopSteering]
      ensures drive.rl.commands == old(drive.rl.commands) + [SetDriveSpeed(0.0), StopSteering]
      ensures drive.rr.commands == old(drive.rr.commands) + [SetDriveSpeed(0.0), StopSteering]
    {
      drive.Stop();
    }

    /**
     * One cycle. Ending does nothing. Driving drives on while the distance
     * travelled is short of the goal and otherwise moves to Ending. Steering
     * moves to Driving, with the distance reference reset, once every
     * wheel is lined up; the steering phase can never come back.
     */
    method Execute() returns (outcome: Outcome)
      requires drive.Valid()
      modifies drive.fl, drive.fr, drive.rl, drive.rr, this`phase
      ensures old(phase) != Steering ==> phase != Steering
      ensures old(phase) == Ending ==>
        phase == Ending && outcome == Done && unchanged(drive.fl, drive.fr, drive.rl, drive.rr)
      ensures old(phase) == Driving && DistanceTraveled(old(drive.PositionDifferences())) < distance ==>
        phase == Driving && drive.Steered(Uniform(Order(direction, speed)), outcome)
        && drive.PositionDifferences() == old(drive.PositionDifferences())
        && drive.Directions() == old(drive.Directions())
      ensures old(phase) == Driving && DistanceTraveled(old(drive.PositionDifferences())) >= distance ==>
        phase == Ending && outcome == Done && unchanged(drive.fl, drive.fr, drive.rl, drive.rr)
      ensures old(phase) == Steering ==>
        && (phase == Driving <==> outcome.Done? && old(drive.AllWithin180Range(direction, DirectionMarginOfError)))
        && (phase == Driving ==> AlignedThenReset())
        && (phase != Driving ==>
              && phase == Steering && drive.Steered(Uniform(Order(direction, 0.0)), outcome)
              && drive.Directions() == old(drive.Directions())
              && drive.PositionDifferences() == old(drive.PositionDifferences()))
    {
      outcome := Done;
      if phase == Steering {
        outcome := ExecuteSteering();
      } else if phase == Driving {
        outcome := ExecuteDriving();
      }
    }

    method ExecuteSteering() returns (outcome: Outcome)
      requires drive.Valid() && phase == Steering
      modifies drive.fl, drive.fr, drive.rl, drive.rr, this`phase
      ensures phase == Driving <==> outcome.Done? && old(drive.AllWithin180Range(direction, DirectionMarginOfError))
      ensures phase == Driving ==> AlignedThenReset()
      ensures phase != Driving ==>
        && phase == Steering && drive.Steered(Uniform(Order(direction, 0.0)), outcome)
        && drive.Directions() == old(drive.Directions())
        && drive.PositionDifferences() == old(drive.PositionDifferences())
    {
      var within;
      outcome, within := drive.SteerAllWithinRange(direction, DirectionMarginOfError);
      if outcome.Thrown? {
        return;
      }
      if within {
        drive.SetDistanceReference();
        phase := Driving;
      }
    }

    method ExecuteDriving() returns (outcome: Outcome)
      requires drive.Valid() && phase == Driving
      modifies drive.fl`commands, drive.fr`commands, drive.rl`commands, drive.rr`commands, this`phase
      ensures DistanceTraveled(old(drive.PositionDifferences())) < distance ==>
        phase == Driving && drive.Steered(Uniform(Order(direction, speed)), outcome)
      ensures DistanceTraveled(old(drive.PositionDifferences())) >= distance ==>
        phase == Ending && outcome == Done && unchanged(drive.fl, drive.fr, drive.rl, drive.rr)
    {
      var traveled := drive.GetDistanceTraveled();
      if traveled < distance {
        outcome := drive.SteerAndDriveAll(direction, speed);
      } else {
        outcome := Done;
        phase := Ending;
      }
    }

    /** end: stop the wheels. */
    method End()
      requires drive.Valid()
      modifies drive.fl`commands, drive.fr`commands, drive.rl`commands, drive.rr`commands
      ensures drive.fl.commands == old(drive.fl.commands) + [SetDriveSpeed(0.0), StopSteering]
      ensures drive.fr.commands == old(drive.fr.commands) + [SetDriveSpeed(0.0), StopSteering]
      ensures drive.rl.commands == old(drive.rl.commands) + [SetDriveSpeed(0.0), StopSteering]
      ensures drive.rr.commands == old(drive.rr.commands) + [SetDriveSpeed(0.0), StopSteering]
    {
      drive.Stop();
    }

    /** isFinished: the command is over exactly in the ending phase. */
    method IsFinished() returns (r: bool)
      ensures r <==> phase == Ending
    {
      r := phase == Ending;
    }
  }
}
