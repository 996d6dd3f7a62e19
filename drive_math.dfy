/**
 * The arithmetic that every SwerveDrive variant writes out in its drive
 * method: the deadband, the strafe vector plus a steering vector spread to
 * the four wheels by reflections, the proportional rescaling of the wheel
 * speeds, and the averaged distance travelled.
 */
module DriveMath {
  import opened Angles
  import opened JavaMath
  import opened FrcVector

  /** One value per wheel: front left, front right, rear left, rear right. */
  datatype Quad<T> = Quad(fl: T, fr: T, rl: T, rr: T)

  /** What a drive asks of one wheel: a direction in degrees and a speed. */
  datatype Order = Order(direction: real, speed: real)

  /**
   * One real per wheel (a speed or a distance). It is its own record
   * rather than a `Quad<real>` so that its arithmetic stays unboxed.
   */
  datatype Speeds = Speeds(fl: real, fr: real, rl: real, rr: real)

  function Uniform<T>(x: T): Quad<T> {
    Quad(x, x, x, x)
  }

  function AllAt(x: real): Speeds {
    Speeds(x, x, x, x)
  }

  // ---------------------------------------------------------------------
  // accountForDeadband
  // ---------------------------------------------------------------------

  /**
   * Values closer to zero than the deadband become 0; the rest are moved
   * towards zero by the deadband and stretched so that 1 stays 1.
   */
  function AccountForDeadband(value: real, deadband: real): real
    requires deadband != 1.0
  {
    if Abs(value) < deadband then 0.0
    else (value + (if value > 0.0 then -deadband else deadband)) / (1.0 - deadband)
  }

  /** A size past the deadband, moved down by it and stretched back onto [0, 1]. */
  function Stretch(size: real, deadband: real): real
    requires deadband != 1.0
  {
    (size - deadband) / (1.0 - deadband)
  }

  lemma StretchBounds(size: real, deadband: real)
    requires 0.0 <= deadband < 1.0 && deadband <= size
    ensures 0.0 <= Stretch(size, deadband)
    ensures size <= 1.0 ==> Stretch(size, deadband) <= 1.0
    ensures Stretch(1.0, deadband) == 1.0
  {
    if size <= 1.0 {
      RatioBounds(size - deadband, 1.0 - deadband);
    } else {
      RatioMonotone(0.0, size - deadband, 1.0 - deadband);
    }
  }

  lemma QuotientNegated(a: real, p: real)
    requires p != 0.0
    ensures (-a) / p == -(a / p)
  {
    assert (-(a / p)) * p == -a;
  }

  /** The deadband works on the size, and the sign is put back afterwards. */
  lemma DeadbandBySize(value: real, deadband: real)
    requires deadband != 1.0
    ensures AccountForDeadband(value, deadband) ==
      if Abs(value) < deadband then 0.0
      else if value > 0.0 then Stretch(Abs(value), deadband)
      else -Stretch(Abs(value), deadband)
  {
    var p := 1.0 - deadband;
    if value <= 0.0 {
      QuotientNegated(value + deadband, p);
      assert -(value + deadband) == Abs(value) - deadband;
    }
  }

  /**
   * For a deadband on [0, 1): values inside it give 0, the sign is kept,
   * the map is odd, 1 and -1 are fixed, and [-1, 1] is mapped into itself.
   */
  lemma DeadbandSpec(value: real, deadband: real)
    requires 0.0 <= deadband < 1.0
    ensures Abs(value) < deadband ==> AccountForDeadband(value, deadband) == 0.0
    ensures value > 0.0 ==> AccountForDeadband(value, deadband) >= 0.0
    ensures value < 0.0 ==> AccountForDeadband(value, deadband) <= 0.0
    ensures AccountForDeadband(-value, deadband) == -AccountForDeadband(value, deadband)
    ensures AccountForDeadband(1.0, deadband) == 1.0 && AccountForDeadband(-1.0, deadband) == -1.0
    ensures Abs(value) <= 1.0 ==> -1.0 <= AccountForDeadband(value, deadband) <= 1.0
  {
    DeadbandBySize(value, deadband);
    DeadbandBySize(-value, deadband);
    DeadbandBySize(1.0, deadband);
    DeadbandBySize(-1.0, deadband);
    assert Abs(-value) == Abs(value);
    StretchBounds(1.0, deadband);
    if deadband <= Abs(value) {
      StretchBounds(Abs(value), deadband);
    }
    if value == 0.0 && deadband <= 0.0 {
      assert Stretch(0.0, deadband) == 0.0;
    }
  }

  /** With a deadband on [0, 1), exactly the values no larger than it give 0. */
  lemma DeadbandZeroIff(value: real, deadband: real)
    requires 0.0 <= deadband < 1.0
    ensures AccountForDeadband(value, deadband) == 0.0 <==> Abs(value) <= deadband
  {
    DeadbandBySize(value, deadband);
    if deadband <= Abs(value) {
      var p := 1.0 - deadband;
      if Abs(value) == deadband {
        assert Stretch(Abs(value), deadband) == 0.0;
      } else {
        RatioMonotone(0.0, Abs(value) - deadband, p);
        assert Stretch(Abs(value), deadband) * p == Abs(value) - deadband;
      }
    }
  }

  // ---------------------------------------------------------------------
  // The four wheel vectors
  // ---------------------------------------------------------------------

  /** The steering vector added to the front-right wheel for a clockwise turn. */
  function SteeringVector(steering: real, widthToHeightRatio: real, speed: real): Vector {
    Vector(steering * widthToHeightRatio * speed, -steering * speed)
  }

  /**
   * Each wheel drives the strafe vector plus the steering vector, reflected
   * to point around the robot: front right as it is, rear right reflected
   * across y, rear left negated, front left reflected across x.
   */
  function WheelVectors(base: Vector, steer: Vector): Quad<Vector> {
    Quad(
      Add(base, ReflectAcrossX(steer)),
      Add(base, steer),
      Add(base, Scale(steer, -1.0)),
      Add(base, ReflectAcrossY(steer)))
  }

  function Sum(q: Quad<Vector>): Vector {
    Add(Add(Add(q.fl, q.fr), q.rl), q.rr)
  }

  function Magnitudes(m: Library, q: Quad<Vector>): Speeds {
    Speeds(Magnitude(m, q.fl), Magnitude(m, q.fr), Magnitude(m, q.rl), Magnitude(m, q.rr))
  }

  /** The four steering terms cancel, so the wheels' mean is the strafe vector. */
  lemma WheelVectorsMean(base: Vector, steer: Vector)
    ensures Sum(WheelVectors(base, steer)) == Scale(base, 4.0)
  {
  }

  /** Without steering every wheel drives the strafe vector. */
  lemma WheelVectorsWithoutSteering(base: Vector)
    ensures WheelVectors(base, Zero) == Uniform(base)
  {
    var q := WheelVectors(base, Zero);
    assert q.fl == base && q.fr == base && q.rl == base && q.rr == base;
  }

  /** Without strafing every wheel is as fast as the steering vector is long. */
  lemma WheelVectorsWithoutStrafe(m: Library, steer: Vector)
    ensures Magnitudes(m, WheelVectors(Zero, steer)) == AllAt(Magnitude(m, steer))
  {
    var q := WheelVectors(Zero, steer);
    assert q.fl == ReflectAcrossX(steer);
    assert q.fr == steer;
    assert q.rr == ReflectAcrossY(steer);
    ReflectionsCompose(steer);
    assert q.rl == ReflectAcrossX(ReflectAcrossY(steer));
    MagnitudeReflections(m, steer);
    MagnitudeReflections(m, ReflectAcrossY(steer));
  }

  // ---------------------------------------------------------------------
  // Rescaling the wheel speeds
  // ---------------------------------------------------------------------

  /** The fastest wheel, found by the source's chain of Math.max. */
  function MaxSpeed(s: Speeds): real {
    Max(Max(s.fl, s.fr), Max(s.rl, s.rr))
  }

  predicate NonNegative(s: Speeds) {
    0.0 <= s.fl && 0.0 <= s.fr && 0.0 <= s.rl && 0.0 <= s.rr
  }

  predicate AtMost(s: Speeds, b: real) {
    s.fl <= b && s.fr <= b && s.rl <= b && s.rr <= b
  }

  predicate AtLeast(s: Speeds, b: real) {
    b <= s.fl && b <= s.fr && b <= s.rl && b <= s.rr
  }

  function ScaleAll(s: Speeds, k: real): Speeds {
    Speeds(s.fl * k, s.fr * k, s.rl * k, s.rr * k)
  }

  /** One speed divided by the fastest and multiplied by the limit, in the source's order. */
  function Shrink(x: real, top: real, limit: real): real
    requires top != 0.0
  {
    x / top * limit
  }

  /**
   * The rescaling step divides by the fastest speed only when that is over
   * the limit. The limit is not checked by any setter, so the division is
   * by zero exactly when the limit is negative and every speed is 0.
   */
  predicate Rescalable(s: Speeds, limit: real) {
    MaxSpeed(s) > limit ==> MaxSpeed(s) != 0.0
  }

  /**
   * When the fastest wheel is over the limit, every speed is shrunk by the
   * same divide-then-multiply; otherwise the speeds are kept.
   */
  function Rescaled(s: Speeds, limit: real): Speeds
    requires Rescalable(s, limit)
  {
    var top := MaxSpeed(s);
    if top > limit then Speeds(Shrink(s.fl, top, limit), Shrink(s.fr, top, limit), Shrink(s.rl, top, limit), Shrink(s.rr, top, limit))
    else s
  }

  /** The source's in-place steps on the four speed locals. */
  method Rescale(speeds: Speeds, limit: real) returns (r: Speeds)
    requires Rescalable(speeds, limit)
    ensures r == Rescaled(speeds, limit)
  {
    var fl, fr, rl, rr := speeds.fl, speeds.fr, speeds.rl, speeds.rr;
    var maxSpeed := Max(Max(fl, fr), Max(rl, rr));
    assert maxSpeed == MaxSpeed(speeds);
    if maxSpeed > limit {
      fl := fl / maxSpeed;
      fr := fr / maxSpeed;
      rl := rl / maxSpeed;
      rr := rr / maxSpeed;

      fl := fl * limit;
      fr := fr * limit;
      rl := rl * limit;
      rr := rr * limit;
      assert fl == Shrink(speeds.fl, maxSpeed, limit) && fr == Shrink(speeds.fr, maxSpeed, limit);
      assert rl == Shrink(speeds.rl, maxSpeed, limit) && rr == Shrink(speeds.rr, maxSpeed, limit);
    }
    r := Speeds(fl, fr, rl, rr);
  }

  lemma ShrinkFactor(x: real, top: real, limit: real)
    requires top != 0.0
    ensures Shrink(x, top, limit) == x * (limit / top)
  {
  }

  lemma ShrinkBounds(x: real, top: real, limit: real)
    requires 0.0 <= limit < top && 0.0 <= x <= top
    ensures 0.0 <= Shrink(x, top, limit) <= limit
  {
    assert x / top <= 1.0 by {
      assert x / top * top == x;
    }
    assert 0.0 <= x / top;
  }

  /** Shrinking to a negative limit lands on [limit, 0], below 0 exactly for a moving wheel. */
  lemma ShrinkBoundsNegative(x: real, top: real, limit: real)
    requires limit < 0.0 < top && 0.0 <= x <= top
    ensures limit <= Shrink(x, top, limit) <= 0.0
    ensures Shrink(x, top, limit) < 0.0 <==> 0.0 < x
  {
    assert x / top <= 1.0 by {
      assert x / top * top == x;
    }
    assert 0.0 <= x / top;
    assert 0.0 < x ==> 0.0 < x / top;
  }

  lemma ShrinkTop(top: real, limit: real)
    requires top != 0.0
    ensures Shrink(top, top, limit) == limit
  {
  }

  lemma ShrinkMonotone(x: real, y: real, top: real, limit: real)
    requires 0.0 <= limit && 0.0 < top && x <= y
    ensures Shrink(x, top, limit) <= Shrink(y, top, limit)
  {
    assert (y / top - x / top) * top == y - x;
  }

  lemma ShrinkMax(a: real, b: real, top: real, limit: real)
    requires 0.0 <= limit && 0.0 < top
    ensures Max(Shrink(a, top, limit), Shrink(b, top, limit)) == Shrink(Max(a, b), top, limit)
  {
    if a <= b {
      ShrinkMonotone(a, b, top, limit);
    } else {
      ShrinkMonotone(b, a, top, limit);
    }
  }

  /** The one factor every speed is multiplied by. */
  function Factor(s: Speeds, limit: real): real
    requires Rescalable(s, limit)
  {
    if MaxSpeed(s) > limit then limit / MaxSpeed(s) else 1.0
  }

  lemma FactorBounds(s: Speeds, limit: real)
    requires 0.0 <= limit
    ensures 0.0 <= Factor(s, limit) <= 1.0
  {
    var top := MaxSpeed(s);
    if top > limit {
      assert limit / top * top == limit;
    }
  }

  /**
   * Rescaling multiplies all four speeds by one factor, so their ratios are
   * kept (the factor is on [0, 1] by `FactorBounds`).
   */
  lemma RescaleKeepsRatios(s: Speeds, limit: real)
    requires 0.0 <= limit
    ensures Rescaled(s, limit) == ScaleAll(s, Factor(s, limit))
  {
    var top := MaxSpeed(s);
    if top > limit {
      ShrinkFactor(s.fl, top, limit);
      ShrinkFactor(s.fr, top, limit);
      ShrinkFactor(s.rl, top, limit);
      ShrinkFactor(s.rr, top, limit);
    } else {
      assert ScaleAll(s, 1.0) == s;
    }
  }

  /** Every speed is at most the fastest. */
  lemma MaxSpeedBounds(s: Speeds)
    ensures AtMost(s, MaxSpeed(s))
  {
  }

  /** Non-negative speeds stay non-negative and end at most the (non-negative) limit. */
  lemma RescaleWithinLimit(s: Speeds, limit: real)
    requires 0.0 <= limit && NonNegative(s)
    ensures NonNegative(Rescaled(s, limit)) && AtMost(Rescaled(s, limit), limit)
  {
    var top := MaxSpeed(s);
    MaxSpeedBounds(s);
    if top > limit {
      ShrinkBounds(s.fl, top, limit);
      ShrinkBounds(s.fr, top, limit);
      ShrinkBounds(s.rl, top, limit);
      ShrinkBounds(s.rr, top, limit);
    }
  }

  /** When the fastest wheel was over the limit, it ends exactly at the limit. */
  lemma RescaleReachesLimit(s: Speeds, limit: real)
    requires 0.0 <= limit < MaxSpeed(s)
    ensures MaxSpeed(Rescaled(s, limit)) == limit
  {
    var top := MaxSpeed(s);
    ShrinkMax(s.fl, s.fr, top, limit);
    ShrinkMax(s.rl, s.rr, top, limit);
    ShrinkMax(Max(s.fl, s.fr), Max(s.rl, s.rr), top, limit);
    ShrinkTop(top, limit);
  }

  /**
   * A negative limit turns the speeds around: non-negative speeds, not all
   * zero, end on [limit, 0], each below 0 exactly when it was above, and
   * the fastest ends exactly at the limit.
   */
  lemma RescaleNegativeLimit(s: Speeds, limit: real)
    requires limit < 0.0 && NonNegative(s) && MaxSpeed(s) != 0.0
    ensures AtLeast(Rescaled(s, limit), limit) && AtMost(Rescaled(s, limit), 0.0)
    ensures Rescaled(s, limit).fl < 0.0 <==> 0.0 < s.fl
    ensures Rescaled(s, limit).fr < 0.0 <==> 0.0 < s.fr
    ensures Rescaled(s, limit).rl < 0.0 <==> 0.0 < s.rl
    ensures Rescaled(s, limit).rr < 0.0 <==> 0.0 < s.rr
    ensures Min(Min(Rescaled(s, limit).fl, Rescaled(s, limit).fr), Min(Rescaled(s, limit).rl, Rescaled(s, limit).rr)) == limit
  {
    var top := MaxSpeed(s);
    MaxSpeedBounds(s);
    ShrinkBoundsNegative(s.fl, top, limit);
    ShrinkBoundsNegative(s.fr, top, limit);
    ShrinkBoundsNegative(s.rl, top, limit);
    ShrinkBoundsNegative(s.rr, top, limit);
    ShrinkTop(top, limit);
  }

  // ---------------------------------------------------------------------
  // From vectors to orders
  // ---------------------------------------------------------------------

  /** Each wheel vector's getRotationDegrees. */
  function Rotations(m: Library, q: Quad<Vector>): Quad<real> {
    Quad(RotationDegrees(m, q.fl), RotationDegrees(m, q.fr), RotationDegrees(m, q.rl), RotationDegrees(m, q.rr))
  }

  /** Every direction is on [0, 360), as steerAndDrive demands. */
  predicate Compass(d: Quad<real>) {
    && 0.0 <= d.fl < 360.0 && 0.0 <= d.fr < 360.0
    && 0.0 <= d.rl < 360.0 && 0.0 <= d.rr < 360.0
  }

  /** Pairs each wheel's direction with its speed. */
  function Orders(directions: Quad<real>, speeds: Speeds): Quad<Order> {
    Quad(
      Order(directions.fl, speeds.fl), Order(directions.fr, speeds.fr),
      Order(directions.rl, speeds.rl), Order(directions.rr, speeds.rr))
  }

  /**
   * The wheel speeds a drive method computes from its four vectors, the
   * magnitudes rescaled to a non-negative limit, are all on [0, limit].
   */
  lemma DriveSpeedsBounded(m: Library, q: Quad<Vector>, limit: real)
    requires Lawful(m) && 0.0 <= limit
    ensures NonNegative(Rescaled(Magnitudes(m, q), limit))
    ensures AtMost(Rescaled(Magnitudes(m, q), limit), limit)
  {
    MagnitudeZeroIff(m, q.fl);
    MagnitudeZeroIff(m, q.fr);
    MagnitudeZeroIff(m, q.rl);
    MagnitudeZeroIff(m, q.rr);
    RescaleWithinLimit(Magnitudes(m, q), limit);
  }

  /**
   * The wheel speeds a drive method computes for a negative limit are all
   * on [limit, 0], and a wheel's is below 0 exactly when its vector has a
   * length: every moving wheel is told to drive backwards.
   */
  lemma DriveSpeedsReversed(m: Library, q: Quad<Vector>, limit: real)
    requires Lawful(m) && limit < 0.0 && Rescalable(Magnitudes(m, q), limit)
    ensures AtLeast(Rescaled(Magnitudes(m, q), limit), limit)
    ensures AtMost(Rescaled(Magnitudes(m, q), limit), 0.0)
    ensures Rescaled(Magnitudes(m, q), limit).fl < 0.0 <==> q.fl != Zero
    ensures Rescaled(Magnitudes(m, q), limit).fr < 0.0 <==> q.fr != Zero
    ensures Rescaled(Magnitudes(m, q), limit).rl < 0.0 <==> q.rl != Zero
    ensures Rescaled(Magnitudes(m, q), limit).rr < 0.0 <==> q.rr != Zero
  {
    MagnitudeZeroIff(m, q.fl);
    MagnitudeZeroIff(m, q.fr);
    MagnitudeZeroIff(m, q.rl);
    MagnitudeZeroIff(m, q.rr);
    RescaleNegativeLimit(Magnitudes(m, q), limit);
  }

  /** With no limit at all (zero), every speed is zero. */
  lemma ZeroLimitStops(m: Library, q: Quad<Vector>)
    requires Lawful(m)
    ensures Rescaled(Magnitudes(m, q), 0.0) == AllAt(0.0)
  {
    DriveSpeedsBounded(m, q, 0.0);
  }

  // ---------------------------------------------------------------------
  // Distance travelled
  // ---------------------------------------------------------------------

  /** getDistanceTraveled: the mean of the four wheels' absolute distances. */
  function DistanceTraveled(d: Speeds): real {
    (Abs(d.fl) + Abs(d.fr) + Abs(d.rl) + Abs(d.rr)) / 4.0
  }

  /**
   * The distance is never negative, ignores the sign of each wheel's count,
   * is zero only when every wheel reads zero, and is the common size when
   * all four wheels agree.
   */
  lemma DistanceTraveledSpec(d: Speeds, e: Speeds)
    ensures 0.0 <= DistanceTraveled(d)
    ensures DistanceTraveled(d) == 0.0 <==> d == AllAt(0.0)
    ensures Abs(d.fl) == Abs(e.fl) && Abs(d.fr) == Abs(e.fr) && Abs(d.rl) == Abs(e.rl) && Abs(d.rr) == Abs(e.rr)
      ==> DistanceTraveled(d) == DistanceTraveled(e)
    ensures d == AllAt(d.fl) ==> DistanceTraveled(d) == Abs(d.fl)
  {
  }
}
