/**
 * The first `swerve` SwerveDrive: its speeds are fixed when it is built,
 * its drive method has no deadband, rescales the wheel speeds against
 * maxWheelSpeed, and steers each wheel with setSpeedAndRotation.
 *
 * The vector class of this snapshot is not part of this model; its
 * methods are taken to be those of `swerve.util.Vector`, whose bodies are
 * modelled in `FrcVector` and `LibVector`.
 */
module FirstDrive {
  import opened Angles
  import opened JavaMath
  import opened FrcVector
  import opened Steering
  import opened DriveMath
  import AxisDrive
  import opened FirstWheel
  import LibVector

  /** The final fields drive reads. */
  datatype Settings = Settings(
    maxWheelSpeed: real,
    turnSpeed: real,
    directMoveSpeed: real,
    widthToHeightRatio: real)

  /** The rotate vector added to the front-right wheel, in this class's factor order. */
  function RotateVector(s: Settings, rotate: real): Vector {
    Vector(rotate * s.turnSpeed * s.widthToHeightRatio, -rotate * s.turnSpeed)
  }

  /** The direct move scaled by directMoveSpeed. */
  function DirectMove(s: Settings, directMoveX: real, directMoveY: real): Vector {
    Vector(directMoveX * s.directMoveSpeed, directMoveY * s.directMoveSpeed)
  }

  /** The four wheel vectors drive builds. */
  function DriveVectors(s: Settings, directMoveX: real, directMoveY: real, rotate: real): Quad<Vector> {
    WheelVectors(DirectMove(s, directMoveX, directMoveY), RotateVector(s, rotate))
  }

  /**
   * What drive needs to avoid dividing by zero: wheel speeds the rescaling
   * can divide by, which rules out only a negative maxWheelSpeed with every
   * wheel vector zero.
   */
  predicate Drivable(m: Library, s: Settings, directMoveX: real, directMoveY: real, rotate: real) {
    Rescalable(Magnitudes(m, DriveVectors(s, directMoveX, directMoveY, rotate)), s.maxWheelSpeed)
  }

  /** What drive tells each wheel: its vector's rotation and its rescaled length. */
  function DriveOrders(m: Library, s: Settings, directMoveX: real, directMoveY: real, rotate: real): Quad<Order>
    requires Drivable(m, s, directMoveX, directMoveY, rotate)
  {
    AxisDrive.OrdersFromVectors(m, DriveVectors(s, directMoveX, directMoveY, rotate), s.maxWheelSpeed)
  }

  /**
   * Every order passes the wheel's checks. Each snapshot has this
   * predicate and its `Steered` twin because each has its own wheel: here
   * the first `swerve` wheel, whose `Validate` wants a speed on [-1, 1]
   * and direction on [0, 360).
   */
  predicate Accepted(orders: Quad<Order>) {
    && Validate(orders.fl.direction, orders.fl.speed).Done?
    && Validate(orders.fr.direction, orders.fr.speed).Done?
    && Validate(orders.rl.direction, orders.rl.speed).Done?
    && Validate(orders.rr.direction, orders.rr.speed).Done?
  }

  /**
   * With maxWheelSpeed on [-1, 1], drive never makes a wheel throw: this
   * snapshot's wheel takes speeds on [-1, 1], so even a negative
   * maxWheelSpeed, which drives every moving wheel backwards
   * (`NegativeMaxWheelSpeedReversed`), is accepted.
   */
  lemma DriveOrdersAccepted(m: Library, s: Settings, directMoveX: real, directMoveY: real, rotate: real)
    requires Lawful(m) && -1.0 <= s.maxWheelSpeed <= 1.0 && Drivable(m, s, directMoveX, directMoveY, rotate)
    ensures Accepted(DriveOrders(m, s, directMoveX, directMoveY, rotate))
  {
    var q := DriveVectors(s, directMoveX, directMoveY, rotate);
    if 0.0 <= s.maxWheelSpeed {
      DriveSpeedsBounded(m, q, s.maxWheelSpeed);
    } else {
      DriveSpeedsReversed(m, q, s.maxWheelSpeed);
    }
  }

  /**
   * The final maxWheelSpeed is not checked. A negative one puts every speed
   * on [maxWheelSpeed, 0], below 0 exactly for a wheel whose vector has a
   * length: every moving wheel is told to drive backwards.
   */
  lemma NegativeMaxWheelSpeedReversed(m: Library, s: Settings, directMoveX: real, directMoveY: real, rotate: real)
    requires Lawful(m) && s.maxWheelSpeed < 0.0 && Drivable(m, s, directMoveX, directMoveY, rotate)
    ensures var o := DriveOrders(m, s, directMoveX, directMoveY, rotate);
      && AtLeast(Speeds(o.fl.speed, o.fr.speed, o.rl.speed, o.rr.speed), s.maxWheelSpeed)
      && AtMost(Speeds(o.fl.speed, o.fr.speed, o.rl.speed, o.rr.speed), 0.0)
      && (o.fl.speed < 0.0 <==> DriveVectors(s, directMoveX, directMoveY, rotate).fl != Zero)
  {
    DriveSpeedsReversed(m, DriveVectors(s, directMoveX, directMoveY, rotate), s.maxWheelSpeed);
  }

  /** No input gives four zero vectors. */
  lemma VectorsOfNothing(s: Settings)
    ensures DriveVectors(s, 0.0, 0.0, 0.0) == Uniform(Zero)
  {
    assert RotateVector(s, 0.0) == Zero;
    assert DirectMove(s, 0.0, 0.0) == Zero;
  }

  /** With no input at all every wheel is steered to 90 degrees at speed 0. */
  lemma DriveOrdersAtRest(m: Library, s: Settings)
    requires Lawful(m) && 0.0 <= s.maxWheelSpeed
    ensures DriveOrders(m, s, 0.0, 0.0, 0.0) == Uniform(Order(90.0, 0.0))
  {
    VectorsOfNothing(s);
    AxisDrive.OrdersOfZero(m, s.maxWheelSpeed);
  }

  /** Without rotation every wheel vector is the direct move. */
  lemma VectorsWithoutRotation(s: Settings, directMoveX: real, directMoveY: real)
    ensures DriveVectors(s, directMoveX, directMoveY, 0.0) == Uniform(DirectMove(s, directMoveX, directMoveY))
  {
    assert RotateVector(s, 0.0) == Zero;
    WheelVectorsWithoutSteering(DirectMove(s, directMoveX, directMoveY));
  }

  /** A move without rotation steers every wheel the same way at the same speed. */
  lemma DirectMoveUniform(m: Library, s: Settings, directMoveX: real, directMoveY: real)
    requires Drivable(m, s, directMoveX, directMoveY, 0.0)
    ensures var o := DriveOrders(m, s, directMoveX, directMoveY, 0.0); o == Uniform(o.fl)
  {
    VectorsWithoutRotation(s, directMoveX, directMoveY);
    AxisDrive.OrdersOfUniform(m, DirectMove(s, directMoveX, directMoveY), s.maxWheelSpeed);
  }

  class SwerveDrive {
    const fl: FirstWheel.SwerveWheel
    const fr: FirstWheel.SwerveWheel
    const rl: FirstWheel.SwerveWheel
    const rr: FirstWheel.SwerveWheel

    const maxWheelSpeed: real
    const turnSpeed: real
    const directMoveSpeed: real
    const widthToHeightRatio: real

    /** Four different wheels, so that commanding one leaves the others alone. */
    predicate Valid() {
      fl != fr && fl != rl && fl != rr && fr != rl && fr != rr && rl != rr
    }

    function Current(): Settings {
      Settings(maxWheelSpeed, turnSpeed, directMoveSpeed, widthToHeightRatio)
    }

    /** getRotation() of each wheel, in raw revolutions. */
    function Rotations(): Quad<real>
      reads fl, fr, rl, rr
    {
      Quad(fl.rotation, fr.rotation, rl.rotation, rr.rotation)
    }

    /** getDirectionalDifference() of each wheel. */
    function DirectionalDifferences(): Speeds
      reads fl, fr, rl, rr
    {
      Speeds(fl.directionalDifference, fr.directionalDifference, rl.directionalDifference, rr.directionalDifference)
    }

    /** The constructor without a ratio: a width-to-height ratio of 1. */
    constructor (fl: FirstWheel.SwerveWheel, fr: FirstWheel.SwerveWheel, rl: FirstWheel.SwerveWheel, rr: FirstWheel.SwerveWheel,
      maxWheelSpeed: real, turnSpeed: real, directMoveSpeed: real)
      ensures this.fl == fl && this.fr == fr && this.rl == rl && this.rr == rr
      ensures Current() == Settings(maxWheelSpeed, turnSpeed, directMoveSpeed, 1.0)
    {
      this.fl, this.fr, this.rl, this.rr := fl, fr, rl, rr;
      this.maxWheelSpeed, this.turnSpeed, this.directMoveSpeed := maxWheelSpeed, turnSpeed, directMoveSpeed;
      widthToHeightRatio := 1.0;
    }

    constructor WithRatio(fl: FirstWheel.SwerveWheel, fr: FirstWheel.SwerveWheel, rl: FirstWheel.SwerveWheel, rr: FirstWheel.SwerveWheel,
      maxWheelSpeed: real, turnSpeed: real, directMoveSpeed: real, widthToHeightRatio: real)
      ensures this.fl == fl && this.fr == fr && this.rl == rl && this.rr == rr
      ensures Current() == Settings(maxWheelSpeed, turnSpeed, directMoveSpeed, widthToHeightRatio)
    {
      this.fl, this.fr, this.rl, this.rr := fl, fr, rl, rr;
      this.maxWheelSpeed, this.turnSpeed, this.directMoveSpeed := maxWheelSpeed, turnSpeed, directMoveSpeed;
      this.widthToHeightRatio := widthToHeightRatio;
    }

    /**
     * The four setSpeedAndRotation calls in order front left, front right,
     * rear left, rear right; a call is made only when the ones before it
     * ended normally, and the outcome is that of the first that threw.
     */
    twostate predicate Steered(orders: Quad<Order>, outcome: Outcome)
      reads fl, fr, rl, rr
    {
      var o1 := Validate(orders.fl.direction, orders.fl.speed);
      var o2 := Validate(orders.fr.direction, orders.fr.speed);
      var o3 := Validate(orders.rl.direction, orders.rl.speed);
      var o4 := Validate(orders.rr.direction, orders.rr.speed);
      && fl.commands == old(fl.commands) + Response(old(fl.rotation), orders.fl.direction, orders.fl.speed)
      && fr.commands == old(fr.commands)
        + (if o1.Done? then Response(old(fr.rotation), orders.fr.direction, orders.fr.speed) else [])
      && rl.commands == old(rl.commands)
        + (if o1.Done? && o2.Done? then Response(old(rl.rotation), orders.rl.direction, orders.rl.speed) else [])
      && rr.commands == old(rr.commands)
        + (if o1.Done? && o2.Done? && o3.Done? then Response(old(rr.rotation), orders.rr.direction, orders.rr.speed) else [])
      && outcome == Then(o1, Then(o2, Then(o3, o4)))
    }

    method SteerEach(orders: Quad<Order>) returns (outcome: Outcome)
      requires Valid()
      modifies fl`commands, fr`commands, rl`commands, rr`commands
      ensures Steered(orders, outcome)
    {
      outcome := fl.SetSpeedAndRotation(orders.fl.direction, orders.fl.speed);
      if outcome.Thrown? {
        return;
      }
      outcome := fr.SetSpeedAndRotation(orders.fr.direction, orders.fr.speed);
      if outcome.Thrown? {
        return;
      }
      outcome := rl.SetSpeedAndRotation(orders.rl.direction, orders.rl.speed);
      if outcome.Thrown? {
        return;
      }
      outcome := rr.SetSpeedAndRotation(orders.rr.direction, orders.rr.speed);
    }

    /**
     * drive: the direct move scaled by directMoveSpeed, the rotation by
     * turnSpeed and spread to the wheels by reflections, the wheel speeds
     * rescaled to maxWheelSpeed, each wheel steered to its vector's
     * rotation.
     */
    method Drive(m: Library, directMoveX: real, directMoveY: real, rotate: real) returns (outcome: Outcome)
      requires Valid() && Drivable(m, Current(), directMoveX, directMoveY, rotate)
      modifies fl`commands, fr`commands, rl`commands, rr`commands
      ensures Steered(DriveOrders(m, Current(), directMoveX, directMoveY, rotate), outcome)
    {
      var q := DriveVectors(Current(), directMoveX, directMoveY, rotate);

      var speeds := Speeds(Magnitude(m, q.fl), Magnitude(m, q.fr), Magnitude(m, q.rl), Magnitude(m, q.rr));
      speeds := Rescale(speeds, maxWheelSpeed);

      var flDirection := LibVector.GetRotationDegrees(m, q.fl);
      var frDirection := LibVector.GetRotationDegrees(m, q.fr);
      var rlDirection := LibVector.GetRotationDegrees(m, q.rl);
      var rrDirection := LibVector.GetRotationDegrees(m, q.rr);
      outcome := SteerEach(Orders(Quad(flDirection, frDirection, rlDirection, rrDirection), speeds));
    }

    /** setDistanceReference: every wheel's directional encoder is reset. */
    method SetDistanceReference()
      requires Valid()
      modifies fl, fr, rl, rr
      ensures DirectionalDifferences() == AllAt(0.0)
      ensures Rotations() == old(Rotations())
      ensures fl.commands == old(fl.commands) + [WheelCommand.ResetDriveEncoder]
      ensures fr.commands == old(fr.commands) + [WheelCommand.ResetDriveEncoder]
      ensures rl.commands == old(rl.commands) + [WheelCommand.ResetDriveEncoder]
      ensures rr.commands == old(rr.commands) + [WheelCommand.ResetDriveEncoder]
    {
      fl.ResetDirectionalEncoder();
      fr.ResetDirectionalEncoder();
      rl.ResetDirectionalEncoder();
      rr.ResetDirectionalEncoder();
    }

    /** getDistanceTraveled: the mean absolute directional difference. */
    method GetDistanceTraveled() returns (distance: real)
      ensures distance == DistanceTraveled(DirectionalDifferences())
    {
      distance := (Abs(fl.directionalDifference) + Abs(fr.directionalDifference)
        + Abs(rl.directionalDifference) + Abs(rr.directionalDifference)) / 4.0;
    }

    /** stopMotor: every wheel stops. */
    method StopMotor()
      requires Valid()
      modifies fl`commands, fr`commands, rl`commands, rr`commands
      ensures fl.commands == old(fl.commands) + [SetDriveSpeed(0.0), StopSteering]
      ensures fr.commands == old(fr.commands) + [SetDriveSpeed(0.0), StopSteering]
      ensures rl.commands == old(rl.commands) + [SetDriveSpeed(0.0), StopSteering]
      ensures rr.commands == old(rr.commands) + [SetDriveSpeed(0.0), StopSteering]
    {
      fl.Stop();
      fr.Stop();
      rl.Stop();
      rr.Stop();
    }
  }
}
