/**
 * The drive method of the two `swerve.drive.SwerveDrive` snapshots (the
 * swervelib one calls it inputDrive, the early one drive). Unlike the
 * frc.team1711 drive, it applies the deadband to each axis of the input
 * separately, scales the strafe and the steering by speeds that are half
 * of maxOutput, and always steers to each vector's rotation, even when
 * the vector has no length.
 */
module AxisDrive {
  import opened Angles
  import opened JavaMath
  import opened FrcVector
  import opened DriveMath

  /** The fields the drive method reads. */
  datatype Settings = Settings(
    driveSpeed: real,
    steerSpeed: real,
    maxOutput: real,
    deadband: real,
    widthToHeightRatio: real)

  /** What accountForDeadband needs to avoid dividing by zero. */
  predicate Usable(s: Settings) {
    s.deadband != 1.0
  }

  /** The strafe and the steering speeds are both half of maxOutput. */
  function HalfSpeeds(s: Settings, maxOutput: real): (r: Settings)
    ensures r.maxOutput == maxOutput && r.driveSpeed == r.steerSpeed
    ensures r.deadband == s.deadband && r.widthToHeightRatio == s.widthToHeightRatio
    ensures 0.0 <= maxOutput ==> 0.0 <= r.driveSpeed <= maxOutput
  {
    s.(maxOutput := maxOutput, driveSpeed := 0.5 * maxOutput, steerSpeed := 0.5 * maxOutput)
  }

  /** The four wheel vectors built from the already deadbanded axes. */
  function VectorsOf(s: Settings, strafeX: real, strafeY: real, steering: real): Quad<Vector> {
    WheelVectors(StrafeBase(s, strafeX, strafeY), SteeringVector(steering, s.widthToHeightRatio, s.steerSpeed))
  }

  /** The strafe axes scaled by driveSpeed. */
  function StrafeBase(s: Settings, strafeX: real, strafeY: real): Vector {
    Vector(strafeX * s.driveSpeed, strafeY * s.driveSpeed)
  }

  /** The four wheel vectors the drive method builds: each axis deadbanded first. */
  function InputVectors(s: Settings, strafeX: real, strafeY: real, steering: real): Quad<Vector>
    requires s.deadband != 1.0
  {
    VectorsOf(s, AccountForDeadband(strafeX, s.deadband), AccountForDeadband(strafeY, s.deadband),
      AccountForDeadband(steering, s.deadband))
  }

  /**
   * What the drive method needs to avoid dividing by zero: a deadband other
   * than 1, and wheel speeds the rescaling can divide by (which rules out
   * only a negative maxOutput with every wheel vector zero).
   */
  predicate Drivable(m: Library, s: Settings, strafeX: real, strafeY: real, steering: real) {
    Usable(s) && Rescalable(Magnitudes(m, InputVectors(s, strafeX, strafeY, steering)), s.maxOutput)
  }

  /** Each vector's rotation, with its magnitude rescaled to maxOutput. */
  function OrdersFromVectors(m: Library, q: Quad<Vector>, maxOutput: real): Quad<Order>
    requires Rescalable(Magnitudes(m, q), maxOutput)
  {
    Orders(Rotations(m, q), Rescaled(Magnitudes(m, q), maxOutput))
  }

  /** What the drive method tells each wheel. */
  function InputOrders(m: Library, s: Settings, strafeX: real, strafeY: real, steering: real): Quad<Order>
    requires Drivable(m, s, strafeX, strafeY, steering)
  {
    OrdersFromVectors(m, InputVectors(s, strafeX, strafeY, steering), s.maxOutput)
  }

  /** Every direction on [0, 360) and every speed on [0, limit]. */
  predicate Bounded(orders: Quad<Order>, limit: real) {
    && Compass(Quad(orders.fl.direction, orders.fr.direction, orders.rl.direction, orders.rr.direction))
    && NonNegative(Speeds(orders.fl.speed, orders.fr.speed, orders.rl.speed, orders.rr.speed))
    && AtMost(Speeds(orders.fl.speed, orders.fr.speed, orders.rl.speed, orders.rr.speed), limit)
  }

  /**
   * Every order is within what steerAndDrive accepts when maxOutput is on
   * [0, 1]: directions on [0, 360) and speeds on [0, maxOutput].
   */
  lemma InputOrdersBounded(m: Library, s: Settings, strafeX: real, strafeY: real, steering: real)
    requires Lawful(m) && Usable(s) && 0.0 <= s.maxOutput
    ensures Bounded(InputOrders(m, s, strafeX, strafeY, steering), s.maxOutput)
  {
    DriveSpeedsBounded(m, InputVectors(s, strafeX, strafeY, steering), s.maxOutput);
  }

  /** No input on any axis gives four zero vectors. */
  lemma VectorsOfNothing(s: Settings)
    ensures VectorsOf(s, 0.0, 0.0, 0.0) == Uniform(Zero)
  {
    assert SteeringVector(0.0, s.widthToHeightRatio, s.steerSpeed) == Zero;
  }

  /** Inputs inside the deadband on every axis leave every wheel vector zero. */
  lemma VectorsInsideDeadband(s: Settings, strafeX: real, strafeY: real, steering: real)
    requires 0.0 <= s.deadband < 1.0
    requires Abs(strafeX) <= s.deadband && Abs(strafeY) <= s.deadband && Abs(steering) <= s.deadband
    ensures InputVectors(s, strafeX, strafeY, steering) == Uniform(Zero)
  {
    AxesInsideDeadband(strafeX, strafeY, steering, s.deadband);
    VectorsOfZeroAxes(s, strafeX, strafeY, steering);
    VectorsOfNothing(s);
  }

  lemma AxesInsideDeadband(strafeX: real, strafeY: real, steering: real, deadband: real)
    requires 0.0 <= deadband < 1.0
    requires Abs(strafeX) <= deadband && Abs(strafeY) <= deadband && Abs(steering) <= deadband
    ensures AccountForDeadband(strafeX, deadband) == 0.0 && AccountForDeadband(strafeY, deadband) == 0.0
    ensures AccountForDeadband(steering, deadband) == 0.0
  {
    DeadbandZeroIff(strafeX, deadband);
    DeadbandZeroIff(strafeY, deadband);
    DeadbandZeroIff(steering, deadband);
  }

  lemma VectorsOfZeroAxes(s: Settings, strafeX: real, strafeY: real, steering: real)
    requires s.deadband != 1.0
    requires AccountForDeadband(strafeX, s.deadband) == 0.0 && AccountForDeadband(strafeY, s.deadband) == 0.0
    requires AccountForDeadband(steering, s.deadband) == 0.0
    ensures InputVectors(s, strafeX, strafeY, steering) == VectorsOf(s, 0.0, 0.0, 0.0)
  {
  }

  /** Zero vectors have speed 0 and the rotation of the zero vector, 90 degrees. */
  lemma OrdersOfZero(m: Library, maxOutput: real)
    requires Lawful(m) && 0.0 <= maxOutput
    ensures OrdersFromVectors(m, Uniform(Zero), maxOutput) == Uniform(Order(90.0, 0.0))
  {
    MagnitudeZeroIff(m, Zero);
    ZeroDirection(m);
    assert Magnitudes(m, Uniform(Zero)) == AllAt(0.0);
  }

  /**
   * With every axis inside the deadband the wheels are not left where they
   * point: each is steered to 90 degrees (the rotation of the zero vector)
   * at speed 0.
   */
  lemma InputOrdersAtRest(m: Library, s: Settings, strafeX: real, strafeY: real, steering: real)
    requires Lawful(m) && 0.0 <= s.maxOutput && 0.0 <= s.deadband < 1.0
    requires Abs(strafeX) <= s.deadband && Abs(strafeY) <= s.deadband && Abs(steering) <= s.deadband
    ensures InputOrders(m, s, strafeX, strafeY, steering) == Uniform(Order(90.0, 0.0))
  {
    VectorsInsideDeadband(s, strafeX, strafeY, steering);
    OrdersOfZero(m, s.maxOutput);
  }

  /** Equal vectors give every wheel the same order. */
  lemma OrdersOfUniform(m: Library, v: Vector, maxOutput: real)
    requires Rescalable(Magnitudes(m, Uniform(v)), maxOutput)
    ensures var o := OrdersFromVectors(m, Uniform(v), maxOutput); o == Uniform(o.fl)
  {
    assert Magnitudes(m, Uniform(v)) == AllAt(Magnitude(m, v));
  }

  /** Without steering every wheel vector is the strafe vector. */
  lemma VectorsWithoutSteering(s: Settings, strafeX: real, strafeY: real, steering: real)
    requires s.deadband != 1.0 && AccountForDeadband(steering, s.deadband) == 0.0
    ensures InputVectors(s, strafeX, strafeY, steering)
      == Uniform(StrafeBase(s, AccountForDeadband(strafeX, s.deadband), AccountForDeadband(strafeY, s.deadband)))
  {
    assert SteeringVector(0.0, s.widthToHeightRatio, s.steerSpeed) == Zero;
    WheelVectorsWithoutSteering(StrafeBase(s, AccountForDeadband(strafeX, s.deadband), AccountForDeadband(strafeY, s.deadband)));
  }

  /** Pure strafing steers every wheel the same way at the same speed. */
  lemma StrafeOnlyUniform(m: Library, s: Settings, strafeX: real, strafeY: real, steering: real)
    requires Drivable(m, s, strafeX, strafeY, steering) && AccountForDeadband(steering, s.deadband) == 0.0
    ensures var o := InputOrders(m, s, strafeX, strafeY, steering); o == Uniform(o.fl)
  {
    VectorsWithoutSteering(s, strafeX, strafeY, steering);
    UniformInputOrders(m, s, strafeX, strafeY, steering,
      StrafeBase(s, AccountForDeadband(strafeX, s.deadband), AccountForDeadband(strafeY, s.deadband)));
  }

  lemma UniformInputOrders(m: Library, s: Settings, strafeX: real, strafeY: real, steering: real, v: Vector)
    requires Drivable(m, s, strafeX, strafeY, steering) && InputVectors(s, strafeX, strafeY, steering) == Uniform(v)
    ensures var o := InputOrders(m, s, strafeX, strafeY, steering); o == Uniform(o.fl)
  {
    OrdersOfUniform(m, v, s.maxOutput);
  }

  /**
   * setMaxOutput takes any value. With a negative maxOutput every speed is
   * on [maxOutput, 0], and below 0 exactly for a wheel whose vector has a
   * length: every moving wheel is told to drive backwards.
   */
  lemma NegativeMaxOutputReversed(m: Library, s: Settings, strafeX: real, strafeY: real, steering: real)
    requires Lawful(m) && Drivable(m, s, strafeX, strafeY, steering) && s.maxOutput < 0.0
    ensures var o := InputOrders(m, s, strafeX, strafeY, steering);
      && AtLeast(Speeds(o.fl.speed, o.fr.speed, o.rl.speed, o.rr.speed), s.maxOutput)
      && AtMost(Speeds(o.fl.speed, o.fr.speed, o.rl.speed, o.rr.speed), 0.0)
      && (o.fl.speed < 0.0 <==> InputVectors(s, strafeX, strafeY, steering).fl != Zero)
  {
    DriveSpeedsReversed(m, InputVectors(s, strafeX, strafeY, steering), s.maxOutput);
  }
}
