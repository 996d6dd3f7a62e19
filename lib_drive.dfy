/**
 * The swervelib `swerve.drive` SwerveDrive, with the two distance methods
 * its subclass FESwerveDrive adds (the wheels of this model already carry
 * the drive encoder that FESwerveWheel adds).
 *
 * maxOutput and deadband are the m_maxOutput and m_deadband fields the
 * class inherits from WPILib's RobotDriveBase; their initial values come
 * from that class, so the constructors here take them as parameters.
 */
module LibDrive {
  import opened Angles
  import opened JavaMath
  import opened FrcVector
  import opened Steering
  import opened DriveMath
  import opened AxisDrive
  import opened LibWheel
  import LibVector

  /**
   * Every order passes the wheel's checks. Each snapshot has this
   * predicate and its `Steered` twin because each has its own wheel: here
   * the swervelib `swerve` wheel, whose `Validate` wants a speed on [0, 1]
   * and direction on [0, 360).
   */
  predicate Accepted(orders: Quad<Order>) {
    && Validate(orders.fl.direction, orders.fl.speed).Done?
    && Validate(orders.fr.direction, orders.fr.speed).Done?
    && Validate(orders.rl.direction, orders.rl.speed).Done?
    && Validate(orders.rr.direction, orders.rr.speed).Done?
  }

  /** With maxOutput on [0, 1], inputDrive never makes a wheel throw. */
  lemma InputOrdersAccepted(m: Library, s: Settings, strafeX: real, strafeY: real, steering: real)
    requires Lawful(m) && Usable(s) && 0.0 <= s.maxOutput <= 1.0
    ensures Accepted(InputOrders(m, s, strafeX, strafeY, steering))
  {
    InputOrdersBounded(m, s, strafeX, strafeY, steering);
  }

  /**
   * A negative maxOutput makes every moving wheel's speed negative, which
   * this snapshot's wheel refuses: once the front-left wheel has somewhere
   * to go, inputDrive throws and no wheel is driven.
   */
  lemma NegativeMaxOutputThrows(m: Library, s: Settings, strafeX: real, strafeY: real, steering: real)
    requires Lawful(m) && Usable(s) && s.maxOutput < 0.0
    requires InputVectors(s, strafeX, strafeY, steering).fl != Zero
    ensures Drivable(m, s, strafeX, strafeY, steering)
    ensures var o := InputOrders(m, s, strafeX, strafeY, steering);
      o.fl.speed < 0.0 && Validate(o.fl.direction, o.fl.speed).Thrown?
  {
    MagnitudeZeroIff(m, InputVectors(s, strafeX, strafeY, steering).fl);
    NegativeMaxOutputReversed(m, s, strafeX, strafeY, steering);
  }

  class SwerveDrive {
    const fl: LibWheel.SwerveWheel
    const fr: LibWheel.SwerveWheel
    const rl: LibWheel.SwerveWheel
    const rr: LibWheel.SwerveWheel

    var steerSpeed: real
    var driveSpeed: real
    /** RobotDriveBase's m_maxOutput. */
    var maxOutput: real
    /** RobotDriveBase's m_deadband. */
    var deadband: real
    const widthToHeightRatio: real

    /** Four different wheels, so that commanding one leaves the others alone. */
    predicate Valid() {
      fl != fr && fl != rl && fl != rr && fr != rl && fr != rr && rl != rr
    }

    function Current(): Settings
      reads this
    {
      Settings(driveSpeed, steerSpeed, maxOutput, deadband, widthToHeightRatio)
    }

    /** getRawDirection() of each wheel. */
    function RawDirections(): Quad<real>
      reads fl, fr, rl, rr
    {
      Quad(fl.rawDirection, fr.rawDirection, rl.rawDirection, rr.rawDirection)
    }

    /** getPositionDifference() of each wheel. */
    function PositionDifferences(): Speeds
      reads fl, fr, rl, rr
    {
      Speeds(fl.positionDifference, fr.positionDifference, rl.positionDifference, rr.positionDifference)
    }

    /** The four-wheel constructor: a width-to-height ratio of 1. */
    constructor (fl: LibWheel.SwerveWheel, fr: LibWheel.SwerveWheel, rl: LibWheel.SwerveWheel, rr: LibWheel.SwerveWheel,
      maxOutput: real, deadband: real)
      ensures this.fl == fl && this.fr == fr && this.rl == rl && this.rr == rr
      ensures Current() == Settings(0.5 * maxOutput, 0.5 * maxOutput, maxOutput, deadband, 1.0)
    {
      this.fl, this.fr, this.rl, this.rr := fl, fr, rl, rr;
      this.maxOutput, this.deadband := maxOutput, deadband;
      driveSpeed := 0.5 * maxOutput;
      steerSpeed := 0.5 * maxOutput;
      widthToHeightRatio := 1.0;
    }

    /** Both speeds start at half of the inherited maxOutput. */
    constructor WithRatio(fl: LibWheel.SwerveWheel, fr: LibWheel.SwerveWheel, rl: LibWheel.SwerveWheel, rr: LibWheel.SwerveWheel,
      maxOutput: real, deadband: real, widthToHeightRatio: real)
      ensures this.fl == fl && this.fr == fr && this.rl == rl && this.rr == rr
      ensures Current() == Settings(0.5 * maxOutput, 0.5 * maxOutput, maxOutput, deadband, widthToHeightRatio)
    {
      this.fl, this.fr, this.rl, this.rr := fl, fr, rl, rr;
      this.maxOutput, this.deadband := maxOutput, deadband;
      driveSpeed := 0.5 * maxOutput;
      steerSpeed := 0.5 * maxOutput;
      this.widthToHeightRatio := widthToHeightRatio;
    }

    /**
     * The four steerAndDrive calls in order front left, front right, rear
     * left, rear right; a call is made only when the ones before it ended
     * normally, and the outcome is that of the first that threw.
     */
    twostate predicate Steered(orders: Quad<Order>, outcome: Outcome)
      reads fl, fr, rl, rr
    {
      var o1 := Validate(orders.fl.direction, orders.fl.speed);
      var o2 := Validate(orders.fr.direction, orders.fr.speed);
      var o3 := Validate(orders.rl.direction, orders.rl.speed);
      var o4 := Validate(orders.rr.direction, orders.rr.speed);
      && fl.commands == old(fl.commands) + Response(old(fl.rawDirection), orders.fl.direction, orders.fl.speed)
      && fr.commands == old(fr.commands)
        + (if o1.Done? then Response(old(fr.rawDirection), orders.fr.direction, orders.fr.speed) else [])
      && rl.commands == old(rl.commands)
        + (if o1.Done? && o2.Done? then Response(old(rl.rawDirection), orders.rl.direction, orders.rl.speed) else [])
      && rr.commands == old(rr.commands)
        + (if o1.Done? && o2.Done? && o3.Done? then Response(old(rr.rawDirection), orders.rr.direction, orders.rr.speed) else [])
      && outcome == Then(o1, Then(o2, Then(o3, o4)))
    }

    method SteerEach(orders: Quad<Order>) returns (outcome: Outcome)
      requires Valid()
      modifies fl`commands, fr`commands, rl`commands, rr`commands
      ensures Steered(orders, outcome)
    {
      outcome := fl.SteerAndDrive(orders.fl.direction, orders.fl.speed);
      if outcome.Thrown? {
        return;
      }
      outcome := fr.SteerAndDrive(orders.fr.direction, orders.fr.speed);
      if outcome.Thrown? {
        return;
      }
      outcome := rl.SteerAndDrive(orders.rl.direction, orders.rl.speed);
      if outcome.Thrown? {
        return;
      }
      outcome := rr.SteerAndDrive(orders.rr.direction, orders.rr.speed);
    }

    /**
     * inputDrive: each axis deadbanded, the strafe scaled by driveSpeed, the
     * steering by steerSpeed and spread to the wheels by reflections, the
     * wheel speeds rescaled to maxOutput, each wheel steered to its vector's
     * rotation.
     */
    method InputDrive(m: Library, strafeX: real, strafeY: real, steering: real) returns (outcome: Outcome)
      requires Valid() && Drivable(m, Current(), strafeX, strafeY, steering)
      modifies fl`commands, fr`commands, rl`commands, rr`commands
      ensures Steered(InputOrders(m, Current(), strafeX, strafeY, steering), outcome)
    {
      var x := AccountForDeadband(strafeX, deadband);
      var y := AccountForDeadband(strafeY, deadband);
      var turn := AccountForDeadband(steering, deadband);
      var q := VectorsOf(Current(), x, y, turn);
      assert InputOrders(m, Current(), strafeX, strafeY, steering) == OrdersFromVectors(m, q, maxOutput);

      var speeds := Speeds(Magnitude(m, q.fl), Magnitude(m, q.fr), Magnitude(m, q.rl), Magnitude(m, q.rr));
      speeds := Rescale(speeds, maxOutput);

      var flDirection := LibVector.GetRotationDegrees(m, q.fl);
      var frDirection := LibVector.GetRotationDegrees(m, q.fr);
      var rlDirection := LibVector.GetRotationDegrees(m, q.rl);
      var rrDirection := LibVector.GetRotationDegrees(m, q.rr);
      outcome := SteerEach(Orders(Quad(flDirection, frDirection, rlDirection, rrDirection), speeds));
    }

    /** steerAndDriveAll: the same direction and speed for every wheel. */
    method SteerAndDriveAll(direction: real, speed: real) returns (outcome: Outcome)
      requires Valid()
      modifies fl`commands, fr`commands, rl`commands, rr`commands
      ensures Steered(Uniform(Order(direction, speed)), outcome)
    {
      outcome := SteerEach(Uniform(Order(direction, speed)));
    }

    /** Every wheel is within range of the direction or of its opposite. */
    predicate AllWithin180Range(direction: real, marginOfError: real)
      reads fl, fr, rl, rr
    {
      && Within180Range(direction, RawDirection(fl.rawDirection), marginOfError)
      && Within180Range(direction, RawDirection(fr.rawDirection), marginOfError)
      && Within180Range(direction, RawDirection(rl.rawDirection), marginOfError)
      && Within180Range(direction, RawDirection(rr.rawDirection), marginOfError)
    }

    /**
     * steerAllWithinRange: steers every wheel to the direction at speed 0,
     * then answers whether all four are within the margin of it or of its
     * opposite.
     */
    method SteerAllWithinRange(direction: real, marginOfError: real) returns (outcome: Outcome, within: bool)
      requires Valid()
      modifies fl`commands, fr`commands, rl`commands, rr`commands
      ensures Steered(Uniform(Order(direction, 0.0)), outcome)
      ensures outcome.Done? ==> (within <==> AllWithin180Range(direction, marginOfError))
    {
      outcome := SteerEach(Uniform(Order(direction, 0.0)));
      if outcome.Thrown? {
        return outcome, false;
      }
      within := fl.CheckWithin180Range(direction, marginOfError);
      if within {
        within := fr.CheckWithin180Range(direction, marginOfError);
      }
      if within {
        within := rl.CheckWithin180Range(direction, marginOfError);
      }
      if within {
        within := rr.CheckWithin180Range(direction, marginOfError);
      }
    }

    /** stopMotor: every wheel stops. */
    method StopMotor()
      requires Valid()
      modifies fl`commands, fr`commands, rl`commands, rr`commands
      ensures fl.commands == old(fl.commands) + [SetDriveSpeed(0.0), StopSteering]
      ensures fr.commands == old(fr.commands) + [SetDriveSpeed(0.0), StopSteering]
      ensures rl.commands == old(rl.commands) + [SetDriveSpeed(0.0), StopSteering]
      ensures rr.commands == old(rr.commands) + [SetDriveSpeed(0.0), StopSteering]
    {
      fl.Stop();
      fr.Stop();
      rl.Stop();
      rr.Stop();
    }

    /** setMaxOutput: the drive and steer speeds follow, at half of it. */
    method SetMaxOutput(maxOutput: real)
      modifies this`maxOutput, this`driveSpeed, this`steerSpeed
      ensures Current() == HalfSpeeds(old(Current()), maxOutput)
    {
      this.maxOutput := maxOutput;
      driveSpeed := 0.5 * this.maxOutput;
      steerSpeed := 0.5 * this.maxOutput;
    }

    /** setDistanceReference (FESwerveDrive): every wheel's drive encoder is reset. */
    method SetDistanceReference()
      requires Valid()
      modifies fl, fr, rl, rr
      ensures PositionDifferences() == AllAt(0.0)
      ensures RawDirections() == old(RawDirections())
      ensures fl.commands == old(fl.commands) + [WheelCommand.ResetDriveEncoder]
      ensures fr.commands == old(fr.commands) + [WheelCommand.ResetDriveEncoder]
      ensures rl.commands == old(rl.commands) + [WheelCommand.ResetDriveEncoder]
      ensures rr.commands == old(rr.commands) + [WheelCommand.ResetDriveEncoder]
    {
      fl.ResetDriveEncoder();
      fr.ResetDriveEncoder();
      rl.ResetDriveEncoder();
      rr.ResetDriveEncoder();
    }

    /** getDistanceTraveled (FESwerveDrive): the mean absolute position difference. */
    method GetDistanceTraveled() returns (distance: real)
      ensures distance == DistanceTraveled(PositionDifferences())
    {
      distance := (Abs(fl.positionDifference) + Abs(fr.positionDifference)
        + Abs(rl.positionDifference) + Abs(rr.positionDifference)) / 4.0;
    }
  }
}
