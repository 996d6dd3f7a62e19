/**
 * The robot's place on the field (util/odometry/Position.java): a location
 * vector and a compass direction. Every operation returns a new value.
 *
 * The record's own constructor stores the direction as given; `Place` is
 * the class constructor, which wraps the direction onto [0, 360).
 * Odometry's inner Position class has the same two fields (its direction
 * is called yaw), the unwrapped constructor, and the same movementTo and
 * distanceFrom, so it is this record too.
 */
module Position {
  import opened Angles
  import opened JavaMath
  import opened FrcVector

  datatype Position = Position(location: Vector, direction: real)

  /** The direction lies on [0, 360), as the class constructor leaves it. */
  predicate Wrapped(p: Position) {
    0.0 <= p.direction < 360.0
  }

  /** `new Position(location, direction)`: the direction wrapped onto [0, 360). */
  function Place(location: Vector, direction: real): (r: Position)
    ensures Wrapped(r) && r.location == location
    ensures Congruent(r.direction, direction, 360.0)
  {
    Position(location, WrapInto(direction, 0.0, 360.0))
  }

  /** addMovementVector: moved by `movement`, facing the same way. */
  function AddMovementVector(p: Position, movement: Vector): Position {
    Place(Add(p.location, movement), p.direction)
  }

  /** withDirection: the same location, facing `newDirection`. */
  function WithDirection(p: Position, newDirection: real): Position {
    Place(p.location, newDirection)
  }

  /** movementTo: the vector from this location to the other one. */
  function MovementTo(p: Position, other: Position): Vector {
    Subtract(other.location, p.location)
  }

  /** distanceFrom: the length of movementTo. */
  function DistanceFrom(m: Library, p: Position, other: Position): real {
    Magnitude(m, MovementTo(p, other))
  }

  /** Two directions a whole number of turns apart make the same position. */
  lemma PlaceTurns(location: Vector, direction: real, turns: int)
    ensures Place(location, direction + turns as real * 360.0) == Place(location, direction)
  {
    WrapIntoPeriodic(direction, 0.0, 360.0, turns);
  }

  /** A position built by the class constructor keeps its direction when it moves. */
  lemma AddMovementVectorSpec(p: Position, movement: Vector)
    requires Wrapped(p)
    ensures AddMovementVector(p, movement) == Position(Add(p.location, movement), p.direction)
  {
    WrapIntoInside(p.direction, 0.0, 360.0);
  }

  /** Moving by the movement to another position arrives at its location. */
  lemma MovementToArrives(p: Position, other: Position)
    requires Wrapped(p)
    ensures AddMovementVector(p, MovementTo(p, other)) == Position(other.location, p.direction)
  {
    AddMovementVectorSpec(p, MovementTo(p, other));
    SubtractAntisymmetric(other.location, p.location);
  }

  /** withDirection keeps the location and only the direction's turn class counts. */
  lemma WithDirectionSpec(p: Position, a: real, b: real)
    ensures WithDirection(p, a).location == p.location
    ensures WithDirection(p, a) == WithDirection(p, b) <==> Congruent(a, b, 360.0)
  {
    WrapIntoEqualIff(a, b, 0.0, 360.0);
  }

  /** The movement one way is the negation of the movement the other way. */
  lemma MovementToAntisymmetric(p: Position, other: Position)
    ensures MovementTo(p, other) == Scale(MovementTo(other, p), -1.0)
    ensures MovementTo(p, p) == Zero
  {
    SubtractAntisymmetric(other.location, p.location);
    SubtractAntisymmetric(p.location, p.location);
  }

  /**
   * The distance is never negative, the same both ways, and zero exactly
   * between positions at the same location.
   */
  lemma DistanceFromSpec(m: Library, p: Position, other: Position)
    requires Lawful(m)
    ensures 0.0 <= DistanceFrom(m, p, other)
    ensures DistanceFrom(m, p, other) == DistanceFrom(m, other, p)
    ensures DistanceFrom(m, p, other) == 0.0 <==> p.location == other.location
  {
    MovementToAntisymmetric(p, other);
    MagnitudeScaled(m, MovementTo(other, p), -1.0);
    MagnitudeZeroIff(m, MovementTo(p, other));
    var d := MovementTo(p, other);
    assert d == Vector(other.location.x - p.location.x, other.location.y - p.location.y);
  }
}
