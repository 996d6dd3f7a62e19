/**
 * Autonomous goals and the frame they are given in: a strafe movement
 * (util/odometry/RobotMovement.java) or a turn (RobotTurn.java), each
 * either relative to the field or to the robot (commands/FrameOfReference.java).
 * Both are immutable; toFieldRel turns a goal into field terms given the
 * robot's position.
 */
module RobotMovement {
  import opened Angles
  import opened JavaMath
  import opened FrcVector
  import opened Position
  import Manner

  datatype FrameOfReference = Robot | Field

  /** getManner is the `manner` field. */
  datatype RobotMovement = RobotMovement(movement: Vector, frame: FrameOfReference, manner: Manner.Manner)

  datatype RobotTurn = RobotTurn(direction: real, frame: FrameOfReference, manner: Manner.Manner)

  /**
   * RobotMovement.toFieldRel: a field movement as it is; a robot movement
   * rotated to its own direction plus the way the robot faces.
   */
  function MovementToFieldRel(m: Library, g: RobotMovement, p: Position): Vector {
    if g.frame == Field then g.movement
    else ToRotationDegrees(m, g.movement, RotationDegrees(m, g.movement) + p.direction)
  }

  /** A field movement does not depend on where the robot is. */
  lemma FieldMovementUnchanged(m: Library, g: RobotMovement, p: Position)
    requires g.frame == Field
    ensures MovementToFieldRel(m, g, p) == g.movement
  {
  }

  /**
   * A robot movement keeps its length, and a non-zero one points the
   * robot's direction further round, modulo a whole turn.
   */
  lemma RobotMovementRotated(m: Library, g: RobotMovement, p: Position)
    requires Lawful(m) && g.frame == Robot
    ensures Magnitude(m, MovementToFieldRel(m, g, p)) == Magnitude(m, g.movement)
    ensures g.movement != Zero ==> Congruent(RotationDegrees(m, MovementToFieldRel(m, g, p)),
      RotationDegrees(m, g.movement) + p.direction, 360.0)
  {
    ToRotationDegreesSpec(m, g.movement, RotationDegrees(m, g.movement) + p.direction);
  }

  /** A robot facing 0 degrees sees a non-zero robot movement as a field movement. */
  lemma RobotMovementFacingForward(m: Library, g: RobotMovement, p: Position)
    requires Lawful(m) && g.frame == Robot && p.direction == 0.0 && g.movement != Zero
    ensures RotationDegrees(m, MovementToFieldRel(m, g, p)) == RotationDegrees(m, g.movement)
  {
    ToRotationDegreesSpec(m, g.movement, RotationDegrees(m, g.movement));
    WrapIntoInside(RotationDegrees(m, g.movement), 0.0, 360.0);
  }

  /**
   * RobotTurn.toFieldRel: a field direction as it is; a robot direction
   * added to the way the robot faces, without wrapping.
   */
  function TurnToFieldRel(t: RobotTurn, p: Position): real {
    if t.frame == Field then t.direction else t.direction + p.direction
  }

  /**
   * A field turn does not depend on the position; a robot turn from a
   * position whose direction is wrapped lands on [direction, direction + 360).
   */
  lemma TurnToFieldRelSpec(t: RobotTurn, p: Position, q: Position)
    ensures t.frame == Field ==> TurnToFieldRel(t, p) == t.direction == TurnToFieldRel(t, q)
    ensures t.frame == Robot && Wrapped(p) ==> t.direction <= TurnToFieldRel(t, p) < t.direction + 360.0
    ensures t.frame == Robot ==> TurnToFieldRel(t, p) - TurnToFieldRel(t, q) == p.direction - q.direction
  {
  }
}
