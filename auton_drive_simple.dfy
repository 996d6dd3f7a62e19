/**
 * The AutonDriveSimple command (commands/AutonDriveSimple.java): it drives
 * in one direction at one speed until the wheels report a given distance,
 * and turns gently back toward the heading the gyro had when the command
 * was made. Once it has arrived it stays finished.
 *
 * getGyroAngle is not a method of the modelled drive, so the angle it
 * would return is a parameter of the constructor and of execute.
 */
module AutonDriveSimple {
  import opened Angles
  import opened JavaMath
  import opened FrcVector
  import opened Steering
  import opened DriveMath
  import FrcDrive

  const CorrectionTurnScalar: real := 0.08

  /** The heading error on [-180, 180). */
  function HeadingError(initialGyroAngle: real, gyroAngle: real): (r: real)
    ensures -180.0 <= r < 180.0
    ensures Congruent(r, initialGyroAngle - gyroAngle, 360.0)
  {
    WrapInto(initialGyroAngle - gyroAngle, -180.0, 360.0)
  }

  /** getCorrectionTurn: the scaled heading error, clamped to [-1, 1]. */
  function CorrectionTurn(initialGyroAngle: real, gyroAngle: real): (r: real)
    ensures -1.0 <= r <= 1.0
  {
    Max(Min(HeadingError(initialGyroAngle, gyroAngle) * CorrectionTurnScalar, 1.0), -1.0)
  }

  /**
   * The correction turns the way the heading error points, is zero exactly
   * when there is no error, and is the plain scaled error while that is
   * on [-1, 1].
   */
  lemma CorrectionTurnSpec(initialGyroAngle: real, gyroAngle: real)
    ensures CorrectionTurn(initialGyroAngle, gyroAngle) > 0.0 <==> HeadingError(initialGyroAngle, gyroAngle) > 0.0
    ensures CorrectionTurn(initialGyroAngle, gyroAngle) < 0.0 <==> HeadingError(initialGyroAngle, gyroAngle) < 0.0
    ensures -12.5 <= HeadingError(initialGyroAngle, gyroAngle) <= 12.5 ==>
      CorrectionTurn(initialGyroAngle, gyroAngle) == HeadingError(initialGyroAngle, gyroAngle) * CorrectionTurnScalar
  {
  }

  /** A gyro a whole number of turns from its initial angle needs no correction. */
  lemma NoCorrectionOnHeading(initialGyroAngle: real, turns: int)
    ensures CorrectionTurn(initialGyroAngle, initialGyroAngle + turns as real * 360.0) == 0.0
  {
    assert initialGyroAngle - (initialGyroAngle + turns as real * 360.0) == 0.0 + (-turns) as real * 360.0;
    WrapIntoPeriodic(0.0, -180.0, 360.0, -turns);
    WrapIntoInside(0.0, -180.0, 360.0);
  }

  class AutonDriveSimple {
    const drive: FrcDrive.SwerveDrive
    const initialGyroAngle: real
    const direction: real
    const distance: real
    const speed: real
    var finished: bool

    /** The gyro angle is read once, here. */
    constructor (drive: FrcDrive.SwerveDrive, direction: real, distance: real, speed: real, gyroAngle: real)
      ensures this.drive == drive && this.direction == direction
      ensures this.distance == distance && this.speed == speed
      ensures initialGyroAngle == gyroAngle && !finished
    {
      this.drive := drive;
      this.direction := direction;
      this.distance := distance;
      this.speed := speed;
      initialGyroAngle := gyroAngle;
      finished := false;
    }

    /** initialize: stop the wheels and reset the distance reference. */
    method Initialize()
      requires drive.Valid()
      modifies drive.fl, drive.fr, drive.rl, drive.rr
      ensures drive.PositionDifferences() == AllAt(0.0)
      ensures drive.Directions() == old(drive.Directions())
      ensures drive.fl.commands == old(drive.fl.commands) + [SetDriveSpeed(0.0), StopSteering, ResetDriveEncoder]
      ensures drive.fr.commands == old(drive.fr.commands) + [SetDriveSpeed(0.0), StopSteering, ResetDriveEncoder]
      ensures drive.rl.commands == old(drive.rl.commands) + [SetDriveSpeed(0.0), StopSteering, ResetDriveEncoder]
      ensures drive.rr.commands == old(drive.rr.commands) + [SetDriveSpeed(0.0), StopSteering, ResetDriveEncoder]
    {
      drive.Stop();
      drive.SetDistanceReference();
    }

    /** getCorrectionTurn, with its two wrapping loops. */
    method GetCorrectionTurn(gyroAngle: real) returns (turn: real)
      ensures turn == CorrectionTurn(initialGyroAngle, gyroAngle)
    {
      var correctionTurn := initialGyroAngle - gyroAngle;
      CongruentReflexive(correctionTurn, 360.0);
      while correctionTurn >= 180.0
        invariant Congruent(correctionTurn, initialGyroAngle - gyroAngle, 360.0)
        decreases correctionTurn.Floor
      {
        CongruentStep(correctionTurn, initialGyroAngle - gyroAngle, 360.0);
        correctionTurn := correctionTurn - 360.0;
      }
      while correctionTurn < -180.0
        invariant correctionTurn < 180.0
        invariant Congruent(correctionTurn, initialGyroAngle - gyroAngle, 360.0)
        decreases -correctionTurn.Floor
      {
        CongruentStep(correctionTurn, initialGyroAngle - gyroAngle, 360.0);
        correctionTurn := correctionTurn + 360.0;
      }
      WrapIntoCharacterized(correctionTurn, initialGyroAngle - gyroAngle, -180.0, 360.0);
      turn := Max(Min(correctionTurn * CorrectionTurnScalar, 1.0), -1.0);
    }

    /**
     * One cycle: short of the distance, drive toward the direction at the
     * speed with the heading correction as steering; otherwise finish.
     * finished is never cleared.
     */
    method Execute(m: Library, gyroAngle: real) returns (outcome: Outcome)
      requires drive.Valid()
      requires DistanceTraveled(drive.PositionDifferences()) < distance ==>
        var v := FromPolarDegrees(m, direction, speed);
        FrcDrive.Drivable(m, drive.Current(), v.x, v.y, CorrectionTurn(initialGyroAngle, gyroAngle))
      modifies drive.fl`commands, drive.fr`commands, drive.rl`commands, drive.rr`commands, this`finished
      ensures finished <==> old(finished) || DistanceTraveled(old(drive.PositionDifferences())) >= distance
      ensures DistanceTraveled(old(drive.PositionDifferences())) < distance ==>
        var v := FromPolarDegrees(m, direction, speed);
        drive.Steered(FrcDrive.InputOrders(m, drive.Current(), v.x, v.y,
          CorrectionTurn(initialGyroAngle, gyroAngle), old(drive.Directions())), outcome)
      ensures DistanceTraveled(old(drive.PositionDifferences())) >= distance ==>
        outcome == Done && unchanged(drive.fl, drive.fr, drive.rl, drive.rr)
    {
      var traveled := drive.GetDistanceTraveled();
      if traveled < distance {
        var driveVector := FromPolarDegrees(m, direction, speed);
        var turn := GetCorrectionTurn(gyroAngle);
        outcome := drive.InputDrive(m, driveVector.x, driveVector.y, turn);
      } else {
        outcome := Done;
        finished := true;
      }
    }

    /** end: stop the wheels. */
    method End()
      requires drive.Valid()
      modifies drive.fl`commands, drive.fr`commands, drive.rl`commands, drive.rr`commands
      ensures drive.fl.commands == old(drive.fl.commands) + [SetDriveSpeed(0.0), StopSteering]
      ensures drive.fr.commands == old(drive.fr.commands) + [SetDriveSpeed(0.0), StopSteering]
      ensures drive.rl.commands == old(drive.rl.commands) + [SetDriveSpeed(0.0), StopSteering]
      ensures drive.rr.commands == old(drive.rr.commands) + [SetDriveSpeed(0.0), StopSteering]
    {
      drive.Stop();
    }

    /** isFinished: whether the distance has been reached in some cycle. */
    method IsFinished() returns (r: bool)
      ensures r == finished
    {
      r := finished;
    }
  }
}
