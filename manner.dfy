/**
 * How an autonomous activity is carried out (util/odometry/Manner.java): a
 * margin of error around its end point and a speed supplier, a function
 * from the amount still to be done to the speed to do it at.
 *
 * The supplier is one of the two the class offers, as a datatype; Manner
 * is abstract in the library and getSpeedSupplier is left to its
 * subclasses, so here the supplier is simply stored beside the margin.
 */
module Manner {
  import opened JavaMath

  datatype SpeedSupplier =
    | Constant(speed: real)
    | WithSlowdown(maxSpeed: real, slowdownOffset: real, minSpeed: real)

  /** getMarginOfError is the `marginOfError` field; getSpeedSupplier the `supplier` one. */
  datatype Manner = Manner(marginOfError: real, supplier: SpeedSupplier)

  /** The supplier never divides by zero. */
  predicate Defined(s: SpeedSupplier, remaining: real) {
    s.WithSlowdown? && remaining <= s.slowdownOffset ==> s.slowdownOffset != 0.0
  }

  /**
   * getSpeed: a constant supplier ignores `remaining`; the slowdown one
   * gives maxSpeed while more than slowdownOffset remains and slows in
   * proportion after that, but never below minSpeed.
   */
  function GetSpeed(s: SpeedSupplier, remaining: real): real
    requires Defined(s, remaining)
  {
    match s
    case Constant(speed) => speed
    case WithSlowdown(maxSpeed, slowdownOffset, minSpeed) =>
      if remaining > slowdownOffset then maxSpeed
      else Max(maxSpeed * remaining / slowdownOffset, minSpeed)
  }

  /** constantSpeed gives the same speed whatever remains. */
  lemma ConstantSpeedSpec(speed: real, a: real, b: real)
    ensures GetSpeed(Constant(speed), a) == speed
    ensures GetSpeed(Constant(speed), a) == GetSpeed(Constant(speed), b)
  {
  }

  /**
   * speedWithSlowdown: maxSpeed beyond the offset; at or before it the
   * proportional speed or minSpeed, whichever is larger, so never less
   * than minSpeed.
   */
  lemma SlowdownSpec(maxSpeed: real, slowdownOffset: real, minSpeed: real, remaining: real)
    requires slowdownOffset != 0.0
    ensures var speed := GetSpeed(WithSlowdown(maxSpeed, slowdownOffset, minSpeed), remaining);
      && (remaining > slowdownOffset ==> speed == maxSpeed)
      && (remaining <= slowdownOffset ==> speed >= minSpeed)
      && (remaining <= slowdownOffset ==>
            speed == minSpeed || speed == maxSpeed * remaining / slowdownOffset)
  {
  }

  /** The proportional part grows with what remains. */
  lemma ProportionalMonotone(maxSpeed: real, slowdownOffset: real, a: real, b: real)
    requires 0.0 <= maxSpeed && 0.0 < slowdownOffset && a <= b
    ensures maxSpeed * a / slowdownOffset <= maxSpeed * b / slowdownOffset
  {
    assert maxSpeed * a <= maxSpeed * b by {
      assert maxSpeed * b - maxSpeed * a == maxSpeed * (b - a);
    }
  }

  /** The proportional part is at most maxSpeed up to the offset. */
  lemma ProportionalAtMost(maxSpeed: real, slowdownOffset: real, remaining: real)
    requires 0.0 <= maxSpeed && 0.0 < slowdownOffset && remaining <= slowdownOffset
    ensures maxSpeed * remaining / slowdownOffset <= maxSpeed
  {
    ProportionalMonotone(maxSpeed, slowdownOffset, remaining, slowdownOffset);
    assert maxSpeed * slowdownOffset / slowdownOffset == maxSpeed;
  }

  /**
   * With a non-negative maxSpeed, a positive offset and minSpeed no larger
   * than maxSpeed, the supplied speed lies on [minSpeed, maxSpeed] and
   * never drops as more remains.
   */
  lemma SlowdownMonotone(maxSpeed: real, slowdownOffset: real, minSpeed: real, a: real, b: real)
    requires 0.0 <= maxSpeed && 0.0 < slowdownOffset && minSpeed <= maxSpeed && a <= b
    ensures var s := WithSlowdown(maxSpeed, slowdownOffset, minSpeed);
      minSpeed <= GetSpeed(s, a) <= GetSpeed(s, b) <= maxSpeed
  {
    var s := WithSlowdown(maxSpeed, slowdownOffset, minSpeed);
    if a <= slowdownOffset {
      ProportionalAtMost(maxSpeed, slowdownOffset, a);
    }
    if b <= slowdownOffset {
      ProportionalMonotone(maxSpeed, slowdownOffset, a, b);
      ProportionalAtMost(maxSpeed, slowdownOffset, b);
    }
  }

  /**
   * Without minSpeed <= maxSpeed the speed is not monotone: with maxSpeed 1,
   * minSpeed 2 and offset 1, the robot goes faster with one unit left than
   * with two.
   */
  lemma SlowdownNeedsOrderedSpeeds()
    ensures var s := WithSlowdown(1.0, 1.0, 2.0);
      GetSpeed(s, 1.0) == 2.0 && GetSpeed(s, 2.0) == 1.0
  {
  }
}
