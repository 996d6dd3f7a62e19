/**
 * The steering rule that every SwerveWheel variant shares: take the
 * shortest way round to the target and, when that is more than a quarter
 * turn, aim at the opposite direction and drive backwards. Also the
 * "within range" checks, and the commands a wheel sends to its hardware.
 *
 * Each variant writes the rule out with the same `while` loops; the
 * methods here are those loops, and each variant's class calls them.
 */
module Steering {
  import opened Angles

  /** What a Java method call ends with: normally, or with an IllegalArgumentException. */
  datatype Outcome = Done | Thrown(message: string)

  /** Two calls in a row: the second runs only when the first ends normally. */
  function Then(first: Outcome, next: Outcome): (r: Outcome)
    ensures r.Done? <==> first.Done? && next.Done?
  {
    if first.Done? then next else first
  }

  /**
   * A call on the wheel hardware. The variants name these differently:
   * setDirection, setRawDirection and setRotation are `SetDirection` (in the
   * variant's own unit); setDriveSpeed and setSpeed are `SetDriveSpeed`;
   * stopSteering and stopRotationalMovement are `StopSteering`; resetSteerEncoder
   * and resetEncoder are `ResetSteerEncoder`.
   */
  datatype WheelCommand =
    | SetDirection(target: real)
    | SetDriveSpeed(speed: real)
    | StopSteering
    | ResetSteerEncoder
    | ResetDriveEncoder

  // ---------------------------------------------------------------------
  // The shortest turn
  // ---------------------------------------------------------------------

  /**
   * The two loops `while (d > 180) d -= 360; while (d < -180) d += 360;`:
   * the value on [-180, 180] that is a whole number of turns from `x`. Both
   * ends are reachable: 180 and -180 are left as they are.
   */
  function Shortest(x: real): (r: real)
    ensures -180.0 <= r <= 180.0
    ensures Congruent(r, x, 360.0)
    ensures -180.0 <= x <= 180.0 ==> r == x
  {
    if x > 180.0 then
      var w := WrapInto(-x, -180.0, 360.0);
      CongruentShift(w, -x, 0.0, 360.0);
      -w
    else if x < -180.0 then
      WrapInto(x, -180.0, 360.0)
    else
      CongruentReflexive(x, 360.0);
      x
  }

  method ShortestDifference(x: real) returns (r: real)
    ensures r == Shortest(x)
  {
    r := x;
    CongruentReflexive(r, 360.0);
    while r > 180.0
      invariant Congruent(r, x, 360.0)
      invariant x <= 180.0 ==> r == x
      invariant x > 180.0 ==> r > -180.0
      decreases r.Floor
    {
      CongruentStep(r, x, 360.0);
      r := r - 360.0;
    }
    while r < -180.0
      invariant r <= 180.0
      invariant Congruent(r, x, 360.0)
      invariant -180.0 <= x <= 180.0 ==> r == x
      invariant x > 180.0 ==> r > -180.0
      invariant x < -180.0 ==> r < 180.0
      decreases (-r).Floor
    {
      CongruentStep(r, x, 360.0);
      r := r + 360.0;
    }
    ShortestCharacterized(r, x);
  }

  /** The value the loops stop at is the closed form. */
  lemma ShortestCharacterized(r: real, x: real)
    requires -180.0 <= r <= 180.0 && Congruent(r, x, 360.0)
    requires -180.0 <= x <= 180.0 ==> r == x
    requires x > 180.0 ==> r > -180.0
    requires x < -180.0 ==> r < 180.0
    ensures r == Shortest(x)
  {
    if x > 180.0 {
      CongruentShift(r, x, 0.0, 360.0);
      WrapIntoCharacterized(-r, -x, -180.0, 360.0);
    } else if x < -180.0 {
      WrapIntoCharacterized(r, x, -180.0, 360.0);
    }
  }

  lemma IntegerBetween(q: real)
    requires IsInteger(q) && -1.0 <= q <= 1.0
    ensures q == -1.0 || q == 0.0 || q == 1.0
  {
  }

  /** Two congruent values of [-180, 180] are equal or are 180 and -180: their sizes agree. */
  lemma SameSizeInHalfTurn(a: real, b: real)
    requires -180.0 <= a <= 180.0 && -180.0 <= b <= 180.0
    requires Congruent(a, b, 360.0)
    ensures Abs(a) == Abs(b)
  {
    IntegerBetween((a - b) / 360.0);
  }

  /** Congruent differences have shortest forms of the same size. */
  lemma ShortestSizeCongruent(a: real, b: real)
    requires Congruent(a, b, 360.0)
    ensures Abs(Shortest(a)) == Abs(Shortest(b))
  {
    CongruentTransitive(Shortest(a), a, b, 360.0);
    CongruentSymmetric(Shortest(b), b, 360.0);
    CongruentTransitive(Shortest(a), b, Shortest(b), 360.0);
    SameSizeInHalfTurn(Shortest(a), Shortest(b));
  }

  /** Turning from `a` to `b` is as far as turning from `b` to `a`. */
  lemma ShortestSizeSymmetric(x: real)
    ensures Abs(Shortest(-x)) == Abs(Shortest(x))
  {
    CongruentShift(Shortest(x), x, 0.0, 360.0);
    CongruentSymmetric(Shortest(-x), -x, 360.0);
    CongruentTransitive(-Shortest(x), -x, Shortest(-x), 360.0);
    SameSizeInHalfTurn(-Shortest(x), Shortest(-x));
  }

  // ---------------------------------------------------------------------
  // Shortest-path steering
  // ---------------------------------------------------------------------

  /** The turn a wheel makes and the sign (1 or -1) of its drive speed. */
  datatype Plan = Plan(move: real, reverse: int)

  /** Beyond a quarter turn either way, turn the other way by the rest and drive in reverse. */
  function Flip(move: real): Plan {
    if Abs(move) > 90.0 then
      Plan(if move > 0.0 then move - 180.0 else move + 180.0, -1)
    else
      Plan(move, 1)
  }

  /** The plan for reaching `target` from `current`, both in degrees. */
  function Steer(target: real, current: real): Plan {
    Flip(Shortest(target - current))
  }

  /**
   * The steering rule: the wheel never turns more than a quarter turn; it
   * drives in reverse exactly when the shortest turn is more than 90 degrees;
   * and it ends up pointing at the target, or at the target's opposite when
   * reversed.
   */
  lemma SteerSpec(target: real, current: real)
    ensures var p := Steer(target, current);
      && -90.0 <= p.move <= 90.0
      && (p.reverse == 1 || p.reverse == -1)
      && (p.reverse == -1 <==> Abs(Shortest(target - current)) > 90.0)
      && (p.reverse == 1 ==> Congruent(current + p.move, target, 360.0))
      && (p.reverse == -1 ==> Congruent(current + p.move, target + 180.0, 360.0))
  {
    var s := Shortest(target - current);
    var p := Steer(target, current);
    if p.reverse == 1 {
      CongruentShift(s, target - current, current, 360.0);
      assert current + p.move == s + current;
    } else {
      CongruentShift(s, target - current, 180.0, 360.0);
      if s > 0.0 {
        CongruentStep(s + 180.0, target - current + 180.0, 360.0);
        assert s + 180.0 - 360.0 == p.move;
      }
      CongruentShift(p.move, target - current + 180.0, current, 360.0);
      assert p.move + current == current + p.move;
      assert target - current + 180.0 + current == target + 180.0;
    }
  }

  // ---------------------------------------------------------------------
  // Raw directions, in unbounded revolutions
  // ---------------------------------------------------------------------

  /** A raw reading in revolutions, as degrees on [0, 360). */
  function RawDirection(raw: real): real {
    WrapInto(raw * 360.0, 0.0, 360.0)
  }

  /** Whole revolutions added to the raw reading do not change the direction in degrees. */
  lemma RawDirectionTurns(raw: real, turns: int)
    ensures 0.0 <= RawDirection(raw) < 360.0
    ensures RawDirection(raw + turns as real) == RawDirection(raw)
  {
    assert (raw + turns as real) * 360.0 == raw * 360.0 + turns as real * 360.0;
    WrapIntoPeriodic(raw * 360.0, 0.0, 360.0, turns);
  }

  /**
   * The loops `while (d < 0) d += 360; while (d >= 360) d -= 360;` that the
   * raw steerAndDrive variants run on the raw reading times 360.
   */
  method CurrentDegrees(raw: real) returns (d: real)
    ensures d == RawDirection(raw)
  {
    d := raw * 360.0;
    CongruentReflexive(d, 360.0);
    while d < 0.0
      invariant Congruent(d, raw * 360.0, 360.0)
      decreases (-d).Floor
    {
      CongruentStep(d, raw * 360.0, 360.0);
      d := d + 360.0;
    }
    while d >= 360.0
      invariant 0.0 <= d
      invariant Congruent(d, raw * 360.0, 360.0)
      decreases d.Floor
    {
      CongruentStep(d, raw * 360.0, 360.0);
      d := d - 360.0;
    }
    WrapIntoCharacterized(d, raw * 360.0, 0.0, 360.0);
  }

  /**
   * The raw variants work in revolutions: the current direction is the raw
   * reading times 360 wrapped onto [0, 360), and the command is the planned
   * move in revolutions added to the raw reading, never more than a quarter
   * revolution away, so the wheel keeps counting whole turns.
   */
  lemma RawSteerSpec(target: real, raw: real)
    ensures var p := Steer(target, RawDirection(raw));
      var commanded := p.move / 360.0 + raw;
      && -0.25 <= commanded - raw <= 0.25
      && (p.reverse == 1 ==> Congruent(commanded * 360.0, target, 360.0))
      && (p.reverse == -1 ==> Congruent(commanded * 360.0, target + 180.0, 360.0))
  {
    var current := RawDirection(raw);
    var p := Steer(target, current);
    var commanded := p.move / 360.0 + raw;
    SteerSpec(target, current);
    assert commanded * 360.0 == p.move + raw * 360.0;
    CongruentShift(current, raw * 360.0, p.move, 360.0);
    CongruentSymmetric(current + p.move, raw * 360.0 + p.move, 360.0);
    var aim := if p.reverse == 1 then target else target + 180.0;
    CongruentTransitive(raw * 360.0 + p.move, current + p.move, aim, 360.0);
    assert raw * 360.0 + p.move == commanded * 360.0;
  }

  /**
   * The two calls the raw variants make from a raw reading: steer to the
   * planned move in revolutions added to the raw reading, then drive.
   */
  function RawIssued(raw: real, targetDirection: real, speed: real): seq<WheelCommand> {
    var p := Steer(targetDirection, RawDirection(raw));
    [SetDirection(p.move / 360.0 + raw), SetDriveSpeed(speed * p.reverse as real)]
  }

  /**
   * The new raw target is at most a quarter revolution from the raw reading;
   * the speed is reversed exactly when the shortest turn exceeds 90 degrees;
   * and the target in degrees points at the requested direction, or at its
   * opposite when reversed.
   */
  lemma RawIssuedSpec(raw: real, targetDirection: real, speed: real)
    ensures var c := RawIssued(raw, targetDirection, speed);
      var turn := Shortest(targetDirection - RawDirection(raw));
      && |c| == 2 && c[0].SetDirection? && c[1].SetDriveSpeed?
      && -0.25 <= c[0].target - raw <= 0.25
      && c[1].speed == (if Abs(turn) > 90.0 then -speed else speed)
      && (Abs(turn) <= 90.0 ==> Congruent(c[0].target * 360.0, targetDirection, 360.0))
      && (Abs(turn) > 90.0 ==> Congruent(c[0].target * 360.0, targetDirection + 180.0, 360.0))
  {
    SteerSpec(targetDirection, RawDirection(raw));
    RawSteerSpec(targetDirection, raw);
  }

  // ---------------------------------------------------------------------
  // Within-range checks
  // ---------------------------------------------------------------------

  /** checkWithinRange: the shortest turn from `current` to `direction` is within the margin. */
  predicate WithinRange(direction: real, current: real, margin: real) {
    Abs(Shortest(direction - current)) <= margin
  }

  /** `direction + 180`, brought back below 360 once. */
  function Opposite(direction: real): real {
    if direction + 180.0 >= 360.0 then direction + 180.0 - 360.0 else direction + 180.0
  }

  /** checkWithin180Range: within range of the direction or of its opposite. */
  predicate Within180Range(direction: real, current: real, margin: real) {
    WithinRange(direction, current, margin) || WithinRange(Opposite(direction), current, margin)
  }

  method CheckDifference(direction: real, current: real, margin: real) returns (within: bool)
    ensures within == WithinRange(direction, current, margin)
  {
    var difference := ShortestDifference(direction - current);
    within := Abs(difference) <= margin;
  }

  /** Directions a whole turn apart, and either order of the two directions, give the same answer. */
  lemma WithinRangeInvariant(direction: real, other: real, current: real, margin: real)
    requires Congruent(direction, other, 360.0)
    ensures WithinRange(direction, current, margin) == WithinRange(other, current, margin)
    ensures WithinRange(direction, current, margin) == WithinRange(current, direction, margin)
  {
    CongruentShift(direction, other, -current, 360.0);
    assert direction + -current == direction - current && other + -current == other - current;
    ShortestSizeCongruent(direction - current, other - current);
    ShortestSizeSymmetric(direction - current);
    assert -(direction - current) == current - direction;
  }

  /**
   * checkWithin180Range accepts whatever checkWithinRange accepts, and
   * exactly adds the directions within range of the opposite direction
   * (the wrap below 360 changes nothing).
   */
  lemma Within180RangeSpec(direction: real, current: real, margin: real)
    ensures WithinRange(direction, current, margin) ==> Within180Range(direction, current, margin)
    ensures Within180Range(direction, current, margin)
      <==> WithinRange(direction, current, margin) || WithinRange(direction + 180.0, current, margin)
  {
    if direction + 180.0 >= 360.0 {
      CongruentReflexive(direction + 180.0, 360.0);
      CongruentStep(direction + 180.0, direction + 180.0, 360.0);
      WithinRangeInvariant(Opposite(direction), direction + 180.0, current, margin);
    }
  }
}
