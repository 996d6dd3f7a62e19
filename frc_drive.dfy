/**
 * The frc.team1711 SwerveDrive, with the two distance methods its subclass
 * AutoSwerveDrive adds (the wheels of this model already carry the drive
 * encoder that AutoSwerveWheel declares).
 *
 * The drive owns four wheels. Each wheel call may throw; Java then abandons
 * the rest of the method, so a later wheel is only commanded when every
 * earlier call ended normally.
 */
module FrcDrive {
  import opened Angles
  import opened JavaMath
  import opened FrcVector
  import opened Steering
  import opened DriveMath
  import opened FrcWheel

  /** The static defaults of the two speed scalars. */
  const SteerRelativeSpeedDefault := 0.3
  const DriveRelativeSpeedDefault := 0.5

  /** The fields inputDrive reads. */
  datatype Settings = Settings(
    steerRelativeSpeed: real,
    driveRelativeSpeed: real,
    maxOutput: real,
    deadband: real,
    widthToHeightRatio: real)

  /** What accountForDeadband needs to avoid dividing by zero. */
  predicate Usable(s: Settings) {
    s.deadband != 1.0
  }

  /** The strafe input scaled by driveRelativeSpeed. */
  function StrafeVector(s: Settings, strafeX: real, strafeY: real): Vector {
    Vector(strafeX * s.driveRelativeSpeed, strafeY * s.driveRelativeSpeed)
  }

  /** A vector dropped when its deadbanded magnitude is 0. */
  function DropInsideDeadband(m: Library, v: Vector, deadband: real): Vector
    requires deadband != 1.0
  {
    if AccountForDeadband(Magnitude(m, v), deadband) == 0.0 then Zero else v
  }

  function BaseVector(m: Library, s: Settings, strafeX: real, strafeY: real): Vector
    requires s.deadband != 1.0
  {
    DropInsideDeadband(m, StrafeVector(s, strafeX, strafeY), s.deadband)
  }

  /** The four wheel vectors inputDrive builds. */
  function InputVectors(m: Library, s: Settings, strafeX: real, strafeY: real, steering: real): Quad<Vector>
    requires s.deadband != 1.0
  {
    var steer := AccountForDeadband(steering, s.deadband);
    WheelVectors(BaseVector(m, s, strafeX, strafeY), SteeringVector(steer, s.widthToHeightRatio, s.steerRelativeSpeed))
  }

  /**
   * What inputDrive tells each wheel. The speeds are the rescaled
   * magnitudes. The directions are the vectors' rotations, except that when
   * the front-left vector has no length every wheel is sent its current
   * direction `current`.
   */
  function InputOrders(m: Library, s: Settings, strafeX: real, strafeY: real, steering: real, current: Quad<real>): Quad<Order>
    requires Drivable(m, s, strafeX, strafeY, steering)
  {
    OrdersFromVectors(m, InputVectors(m, s, strafeX, strafeY, steering), s.maxOutput, current)
  }

  /**
   * What inputDrive needs to avoid dividing by zero: a deadband other than
   * 1, and wheel speeds the rescaling can divide by (which rules out only a
   * negative maxOutput with every wheel vector zero).
   */
  predicate Drivable(m: Library, s: Settings, strafeX: real, strafeY: real, steering: real) {
    Usable(s) && Rescalable(Magnitudes(m, InputVectors(m, s, strafeX, strafeY, steering)), s.maxOutput)
  }

  function OrdersFromVectors(m: Library, q: Quad<Vector>, maxOutput: real, current: Quad<real>): Quad<Order>
    requires Rescalable(Magnitudes(m, q), maxOutput)
  {
    var directions := if Magnitude(m, q.fl) > 0.0 then Rotations(m, q) else current;
    Orders(directions, Rescaled(Magnitudes(m, q), maxOutput))
  }

  /**
   * Every order passes the wheel's checks. Each snapshot has this
   * predicate and its `Steered` twin because each has its own wheel: here
   * the frc.team1711 wheel, whose `Validate` wants a speed on [0, 1] and
   * direction on [0, 360).
   */
  predicate Accepted(orders: Quad<Order>) {
    && Validate(orders.fl.direction, orders.fl.speed).Done?
    && Validate(orders.fr.direction, orders.fr.speed).Done?
    && Validate(orders.rl.direction, orders.rl.speed).Done?
    && Validate(orders.rr.direction, orders.rr.speed).Done?
  }

  /**
   * With a max output on [0, 1] and wheels that report directions on
   * [0, 360), inputDrive never makes a wheel throw: every speed lies on
   * [0, maxOutput] and every direction on [0, 360).
   */
  lemma InputOrdersAccepted(m: Library, s: Settings, strafeX: real, strafeY: real, steering: real, current: Quad<real>)
    requires Lawful(m) && Usable(s) && 0.0 <= s.maxOutput <= 1.0 && Compass(current)
    ensures Accepted(InputOrders(m, s, strafeX, strafeY, steering, current))
  {
    var q := InputVectors(m, s, strafeX, strafeY, steering);
    DriveSpeedsBounded(m, q, s.maxOutput);
  }

  /**
   * The strafe vector is dropped exactly when its length is at most the
   * deadband (for a deadband on [0, 1)).
   */
  lemma DropInsideDeadbandSpec(m: Library, v: Vector, deadband: real)
    requires Lawful(m) && 0.0 <= deadband < 1.0
    ensures DropInsideDeadband(m, v, deadband) == if Magnitude(m, v) <= deadband then Zero else v
  {
    MagnitudeZeroIff(m, v);
    DeadbandZeroIff(Magnitude(m, v), deadband);
  }

  /** A dropped strafe vector and no steering leave every wheel vector zero. */
  lemma InputVectorsAtRest(m: Library, s: Settings, strafeX: real, strafeY: real, steering: real)
    requires s.deadband != 1.0
    requires BaseVector(m, s, strafeX, strafeY) == Zero
    requires AccountForDeadband(steering, s.deadband) == 0.0
    ensures InputVectors(m, s, strafeX, strafeY, steering) == Uniform(Zero)
  {
    assert SteeringVector(0.0, s.widthToHeightRatio, s.steerRelativeSpeed) == Zero;
  }

  /** Zero vectors give speed 0 and, having no length, keep the current directions. */
  lemma StillOrders(m: Library, current: Quad<real>, maxOutput: real)
    requires Lawful(m) && 0.0 <= maxOutput
    ensures OrdersFromVectors(m, Uniform(Zero), maxOutput, current)
      == Quad(Order(current.fl, 0.0), Order(current.fr, 0.0), Order(current.rl, 0.0), Order(current.rr, 0.0))
  {
    MagnitudeZeroIff(m, Zero);
    assert Magnitudes(m, Uniform(Zero)) == AllAt(0.0);
  }

  /** Inside the deadband the four wheel vectors are all zero. */
  lemma VectorsInsideDeadband(m: Library, s: Settings, strafeX: real, strafeY: real, steering: real)
    requires Lawful(m) && 0.0 <= s.deadband < 1.0
    requires Magnitude(m, StrafeVector(s, strafeX, strafeY)) <= s.deadband
    requires Abs(steering) <= s.deadband
    ensures InputVectors(m, s, strafeX, strafeY, steering) == Uniform(Zero)
  {
    DropInsideDeadbandSpec(m, StrafeVector(s, strafeX, strafeY), s.deadband);
    DeadbandZeroIff(steering, s.deadband);
    InputVectorsAtRest(m, s, strafeX, strafeY, steering);
  }

  /** Four zero wheel vectors stop every wheel where it points. */
  lemma OrdersOfStillVectors(m: Library, s: Settings, strafeX: real, strafeY: real, steering: real, current: Quad<real>)
    requires Lawful(m) && Usable(s) && 0.0 <= s.maxOutput
    requires InputVectors(m, s, strafeX, strafeY, steering) == Uniform(Zero)
    ensures InputOrders(m, s, strafeX, strafeY, steering, current)
      == Quad(Order(current.fl, 0.0), Order(current.fr, 0.0), Order(current.rl, 0.0), Order(current.rr, 0.0))
  {
    StillOrders(m, current, s.maxOutput);
  }

  /**
   * With the strafe and the steering both inside the deadband, every wheel
   * is told to stop where it points now.
   */
  lemma InputOrdersAtRest(m: Library, s: Settings, strafeX: real, strafeY: real, steering: real, current: Quad<real>)
    requires Lawful(m) && 0.0 <= s.maxOutput && 0.0 <= s.deadband < 1.0
    requires Magnitude(m, StrafeVector(s, strafeX, strafeY)) <= s.deadband
    requires Abs(steering) <= s.deadband
    ensures InputOrders(m, s, strafeX, strafeY, steering, current)
      == Quad(Order(current.fl, 0.0), Order(current.fr, 0.0), Order(current.rl, 0.0), Order(current.rr, 0.0))
  {
    VectorsInsideDeadband(m, s, strafeX, strafeY, steering);
    OrdersOfStillVectors(m, s, strafeX, strafeY, steering, current);
  }

  /**
   * maxOutput starts at 0 and only setMaxOutput changes it: until then
   * every wheel is told speed 0, whatever the input.
   */
  lemma UnsetMaxOutputStops(m: Library, s: Settings, strafeX: real, strafeY: real, steering: real, current: Quad<real>)
    requires Lawful(m) && s.deadband != 1.0 && s.maxOutput == 0.0
    ensures var o := InputOrders(m, s, strafeX, strafeY, steering, current);
      o.fl.speed == 0.0 && o.fr.speed == 0.0 && o.rl.speed == 0.0 && o.rr.speed == 0.0
  {
    ZeroLimitStops(m, InputVectors(m, s, strafeX, strafeY, steering));
  }

  /**
   * setMaxOutput takes any value. A negative one turns every moving wheel's
   * speed negative, so once the front-left wheel has somewhere to go its
   * steerAndDrive throws and no wheel is driven.
   */
  lemma NegativeMaxOutputThrows(m: Library, s: Settings, strafeX: real, strafeY: real, steering: real, current: Quad<real>)
    requires Lawful(m) && Usable(s) && s.maxOutput < 0.0
    requires InputVectors(m, s, strafeX, strafeY, steering).fl != Zero
    ensures Drivable(m, s, strafeX, strafeY, steering)
    ensures var o := InputOrders(m, s, strafeX, strafeY, steering, current);
      && s.maxOutput <= o.fl.speed < 0.0
      && Validate(o.fl.direction, o.fl.speed).Thrown?
  {
    var q := InputVectors(m, s, strafeX, strafeY, steering);
    MagnitudeZeroIff(m, q.fl);
    DriveSpeedsReversed(m, q, s.maxOutput);
  }

  class SwerveDrive {
    const fl: FrcWheel.SwerveWheel
    const fr: FrcWheel.SwerveWheel
    const rl: FrcWheel.SwerveWheel
    const rr: FrcWheel.SwerveWheel

    var steerRelativeSpeed: real
    var driveRelativeSpeed: real
    /** Never set by a constructor, so Java's default 0 until setMaxOutput. */
    var maxOutput: real
    /** Never set by a constructor, so Java's default 0 until setDeadband. */
    var deadband: real
    const widthToHeightRatio: real

    /** Four different wheels, so that commanding one leaves the others alone. */
    predicate Valid() {
      fl != fr && fl != rl && fl != rr && fr != rl && fr != rr && rl != rr
    }

    function Current(): Settings
      reads this
    {
      Settings(steerRelativeSpeed, driveRelativeSpeed, maxOutput, deadband, widthToHeightRatio)
    }

    /** getDirection() of each wheel. */
    function Directions(): Quad<real>
      reads fl, fr, rl, rr
    {
      Quad(fl.direction, fr.direction, rl.direction, rr.direction)
    }

    /** getPositionDifference() of each wheel. */
    function PositionDifferences(): Speeds
      reads fl, fr, rl, rr
    {
      Speeds(fl.positionDifference, fr.positionDifference, rl.positionDifference, rr.positionDifference)
    }

    /** The four-wheel constructor: a width-to-height ratio of 1. */
    constructor (fl: FrcWheel.SwerveWheel, fr: FrcWheel.SwerveWheel, rl: FrcWheel.SwerveWheel, rr: FrcWheel.SwerveWheel)
      ensures this.fl == fl && this.fr == fr && this.rl == rl && this.rr == rr
      ensures Current() == Settings(SteerRelativeSpeedDefault, DriveRelativeSpeedDefault, 0.0, 0.0, 1.0)
    {
      this.fl, this.fr, this.rl, this.rr := fl, fr, rl, rr;
      driveRelativeSpeed := DriveRelativeSpeedDefault;
      steerRelativeSpeed := SteerRelativeSpeedDefault;
      maxOutput, deadband := 0.0, 0.0;
      widthToHeightRatio := 1.0;
    }

    constructor WithRatio(fl: FrcWheel.SwerveWheel, fr: FrcWheel.SwerveWheel, rl: FrcWheel.SwerveWheel, rr: FrcWheel.SwerveWheel, widthToHeightRatio: real)
      ensures this.fl == fl && this.fr == fr && this.rl == rl && this.rr == rr
      ensures Current() == Settings(SteerRelativeSpeedDefault, DriveRelativeSpeedDefault, 0.0, 0.0, widthToHeightRatio)
    {
      this.fl, this.fr, this.rl, this.rr := fl, fr, rl, rr;
      driveRelativeSpeed := DriveRelativeSpeedDefault;
      steerRelativeSpeed := SteerRelativeSpeedDefault;
      maxOutput, deadband := 0.0, 0.0;
      this.widthToHeightRatio := widthToHeightRatio;
    }

    /**
     * The four steerAndDrive calls in order front left, front right, rear
     * left, rear right; a call is made only when the ones before it ended
     * normally, and the outcome is that of the first that threw.
     */
    twostate predicate Steered(orders: Quad<Order>, outcome: Outcome)
      reads fl, fr, rl, rr
    {
      var o1 := Validate(orders.fl.direction, orders.fl.speed);
      var o2 := Validate(orders.fr.direction, orders.fr.speed);
      var o3 := Validate(orders.rl.direction, orders.rl.speed);
      var o4 := Validate(orders.rr.direction, orders.rr.speed);
      && fl.commands == old(fl.commands) + Response(old(fl.direction), orders.fl.direction, orders.fl.speed)
      && fr.commands == old(fr.commands)
        + (if o1.Done? then Response(old(fr.direction), orders.fr.direction, orders.fr.speed) else [])
      && rl.commands == old(rl.commands)
        + (if o1.Done? && o2.Done? then Response(old(rl.direction), orders.rl.direction, orders.rl.speed) else [])
      && rr.commands == old(rr.commands)
        + (if o1.Done? && o2.Done? && o3.Done? then Response(old(rr.direction), orders.rr.direction, orders.rr.speed) else [])
      && outcome == Then(o1, Then(o2, Then(o3, o4)))
    }

    method SteerEach(orders: Quad<Order>) returns (outcome: Outcome)
      requires Valid()
      modifies fl`commands, fr`commands, rl`commands, rr`commands
      ensures Steered(orders, outcome)
    {
      outcome := fl.SteerAndDrive(orders.fl.direction, orders.fl.speed);
      if outcome.Thrown? {
        return;
      }
      outcome := fr.SteerAndDrive(orders.fr.direction, orders.fr.speed);
      if outcome.Thrown? {
        return;
      }
      outcome := rl.SteerAndDrive(orders.rl.direction, orders.rl.speed);
      if outcome.Thrown? {
        return;
      }
      outcome := rr.SteerAndDrive(orders.rr.direction, orders.rr.speed);
    }

    /**
     * inputDrive: the strafe vector (dropped inside the deadband), the
     * deadbanded steering spread to the wheels by reflections, the wheel
     * speeds rescaled to maxOutput, then one steerAndDrive per wheel.
     */
    method InputDrive(m: Library, strafeX: real, strafeY: real, steering: real) returns (outcome: Outcome)
      requires Valid() && Drivable(m, Current(), strafeX, strafeY, steering)
      modifies fl`commands, fr`commands, rl`commands, rr`commands
      ensures Steered(InputOrders(m, Current(), strafeX, strafeY, steering, old(Directions())), outcome)
    {
      var q := InputVectors(m, Current(), strafeX, strafeY, steering);
      assert InputOrders(m, Current(), strafeX, strafeY, steering, old(Directions()))
        == OrdersFromVectors(m, q, maxOutput, Directions());
      var flVector, frVector, rlVector, rrVector := q.fl, q.fr, q.rl, q.rr;

      var speeds := Speeds(Magnitude(m, flVector), Magnitude(m, frVector), Magnitude(m, rlVector), Magnitude(m, rrVector));
      speeds := Rescale(speeds, maxOutput);

      var directions := Directions();
      if Magnitude(m, flVector) > 0.0 {
        var flDirection := GetRotationDegrees(m, flVector);
        var frDirection := GetRotationDegrees(m, frVector);
        var rlDirection := GetRotationDegrees(m, rlVector);
        var rrDirection := GetRotationDegrees(m, rrVector);
        directions := Quad(flDirection, frDirection, rlDirection, rrDirection);
      }
      outcome := SteerEach(Orders(directions, speeds));
    }

    /** steerAndDriveAll: the same direction and speed for every wheel. */
    method SteerAndDriveAll(direction: real, speed: real) returns (outcome: Outcome)
      requires Valid()
      modifies fl`commands, fr`commands, rl`commands, rr`commands
      ensures Steered(Uniform(Order(direction, speed)), outcome)
    {
      outcome := SteerEach(Uniform(Order(direction, speed)));
    }

    /** Every wheel is within range of the direction or of its opposite. */
    predicate AllWithin180Range(direction: real, marginOfError: real)
      reads fl, fr, rl, rr
    {
      && Within180Range(direction, fl.direction, marginOfError)
      && Within180Range(direction, fr.direction, marginOfError)
      && Within180Range(direction, rl.direction, marginOfError)
      && Within180Range(direction, rr.direction, marginOfError)
    }

    /**
     * steerAllWithinRange: steers every wheel to the direction at speed 0,
     * then answers whether all four are within the margin of it or of its
     * opposite (the answer is meaningless when a wheel threw).
     */
    method SteerAllWithinRange(direction: real, marginOfError: real) returns (outcome: Outcome, within: bool)
      requires Valid()
      modifies fl`commands, fr`commands, rl`commands, rr`commands
      ensures Steered(Uniform(Order(direction, 0.0)), outcome)
      ensures outcome.Done? ==> (within <==> AllWithin180Range(direction, marginOfError))
    {
      outcome := SteerEach(Uniform(Order(direction, 0.0)));
      if outcome.Thrown? {
        return outcome, false;
      }
      within := fl.CheckWithin180Range(direction, marginOfError);
      if within {
        within := fr.CheckWithin180Range(direction, marginOfError);
      }
      if within {
        within := rl.CheckWithin180Range(direction, marginOfError);
      }
      if within {
        within := rr.CheckWithin180Range(direction, marginOfError);
      }
    }

    /** stop: every wheel stops. */
    method Stop()
      requires Valid()
      modifies fl`commands, fr`commands, rl`commands, rr`commands
      ensures fl.commands == old(fl.commands) + [SetDriveSpeed(0.0), StopSteering]
      ensures fr.commands == old(fr.commands) + [SetDriveSpeed(0.0), StopSteering]
      ensures rl.commands == old(rl.commands) + [SetDriveSpeed(0.0), StopSteering]
      ensures rr.commands == old(rr.commands) + [SetDriveSpeed(0.0), StopSteering]
    {
      fl.Stop();
      fr.Stop();
      rl.Stop();
      rr.Stop();
    }

    method SetMaxOutput(maxOutput: real)
      modifies this`maxOutput
      ensures Current() == old(Current()).(maxOutput := maxOutput)
    {
      this.maxOutput := maxOutput;
    }

    method SetDeadband(deadband: real)
      modifies this`deadband
      ensures Current() == old(Current()).(deadband := deadband)
    {
      this.deadband := deadband;
    }

    method SetSteerRelativeSpeed(steerRelativeSpeed: real)
      modifies this`steerRelativeSpeed
      ensures Current() == old(Current()).(steerRelativeSpeed := steerRelativeSpeed)
    {
      this.steerRelativeSpeed := steerRelativeSpeed;
    }

    method SetDriveRelativeSpeed(driveRelativeSpeed: real)
      modifies this`driveRelativeSpeed
      ensures Current() == old(Current()).(driveRelativeSpeed := driveRelativeSpeed)
    {
      this.driveRelativeSpeed := driveRelativeSpeed;
    }

    /** setDistanceReference (AutoSwerveDrive): every wheel's drive encoder is reset. */
    method SetDistanceReference()
      requires Valid()
      modifies fl, fr, rl, rr
      ensures PositionDifferences() == AllAt(0.0)
      ensures Directions() == old(Directions())
      ensures fl.commands == old(fl.commands) + [WheelCommand.ResetDriveEncoder]
      ensures fr.commands == old(fr.commands) + [WheelCommand.ResetDriveEncoder]
      ensures rl.commands == old(rl.commands) + [WheelCommand.ResetDriveEncoder]
      ensures rr.commands == old(rr.commands) + [WheelCommand.ResetDriveEncoder]
    {
      fl.ResetDriveEncoder();
      fr.ResetDriveEncoder();
      rl.ResetDriveEncoder();
      rr.ResetDriveEncoder();
    }

    /** getDistanceTraveled (AutoSwerveDrive): the mean absolute position difference. */
    method GetDistanceTraveled() returns (distance: real)
      ensures distance == DistanceTraveled(PositionDifferences())
    {
      distance := (Abs(fl.positionDifference) + Abs(fr.positionDifference)
        + Abs(rl.positionDifference) + Abs(rr.positionDifference)) / 4.0;
    }
  }
}
