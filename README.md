# Swerve-drive library of FRC team 1711, modelled in Dafny

This project models the arithmetic core of team 1711's swerve-drive library
for FIRST Robotics Competition robots, and the small stateful pieces built on
it. A swerve robot has four wheel modules. Each module can steer its wheel to
any direction and drive it at any speed. The library turns joystick or
autonomous inputs into one (direction, speed) order per wheel. It also keeps
track of the robot's position on the field and runs three autonomous commands.

The repository holds several historical snapshots of the same classes. Each
snapshot is modelled as written, bugs included, except for the few methods
that "## Left out" names (frc `Vector.toRotationDegrees`, which never
returns, and `fromPolarDegrees`, whose declaration is not shown):

| snapshot | wheel module | drive module |
|---|---|---|
| `swervelib/src/main/java/frc/team1711/swerve` | `FrcWheel` | `FrcDrive` (SwerveDrive + AutoSwerveDrive) |
| `swervelib/src/main/java/swerve` | `LibWheel` | `LibDrive` (SwerveDrive + FESwerveDrive) |
| `swerve/subsystems`, `swerve/drive` | `EarlyWheel` | `EarlyDrive` |
| `swerve/SwerveWheel.java`, `swerve/SwerveDrive.java` | `FirstWheel` | `FirstDrive` |

What is shared between the snapshots is defined once:

- `Angles` holds the circle constants, the four wrapping loops and the two
  angle conventions. Math radians start on +x and grow counterclockwise.
  Compass degrees start on +y and grow clockwise.
- `FrcVector` is the immutable 2-D vector. `LibVector` adds the inline
  degree conversion of the swervelib vector.
- `Steering` is the shortest-path steering rule that every wheel variant
  writes out. It also holds the "within range" checks, the wheel command log
  and the `Outcome` of a Java call (normal, or an IllegalArgumentException).
- `DriveMath` is the drive arithmetic: deadband, wheel vectors, proportional
  rescaling and averaged distance.
- `AxisDrive` is the per-axis drive method shared by the two
  `swerve.drive.SwerveDrive` snapshots.
- `InputHandling` is the joystick shaping of `InputHandler`.

The frc snapshot adds:

- field-relative driving (`GyroDrive`);
- a pose estimator (`Odometry`, `Position`);
- movement and turn descriptions (`RobotMovement`, `Manner`);
- three autonomous commands (`AutonTurn`, `AutonDrive`, `AutonDriveSimple`).

How the Java is represented:

- **Numbers and maths.** `double` is `real`. `Math.sqrt`, `acos`, `cos` and
  `sin` are the fields of a `JavaMath.Library` record. Their algebraic laws
  are assumed only where a lemma requires `JavaMath.Lawful(m)`. The laws
  idealise the real functions to the double value of PI that `Angles`
  holds, which differs from the true constant by rounding:
  - a square root is non-negative and squares back;
  - cos² + sin² = 1;
  - cos and sin repeat every TAU, twice that double PI;
  - acos inverts cos on [0, PI] and returns TAU - t for t on (PI, TAU);
  - sin is non-negative on [0, PI] and negative on (PI, TAU).
- **Loops.** Every `while` loop that wraps an angle is a method. Each is
  proved equal to one closed form, `Angles.WrapInto(value, low, period)`: the
  only value of the window `[low, low + period)` that is a whole number of
  periods from `value`. The pure parts of the model use that closed form.
- **Wheels.** A wheel is a class. Its fields are its hardware readings
  (direction, raw revolutions, encoder distance). Its `commands` field logs
  every setter call made on it.
- **Drives.** A drive holds four distinct wheels. A drive method is proved to
  send each wheel the orders that a specification function computes from the
  inputs. Each wheel is called only if every earlier call returned normally,
  as a Java exception would abandon the method.
- **Subclasses.** AutoSwerveDrive and FESwerveDrive add two distance methods.
  These are methods of the drive they extend.
- **Commands.** A command holds the drive it commands. Gyro angles are method
  parameters.

Notable behaviours that the model states:

- **Deadband at rest.** The frc drive leaves every wheel pointing where it
  is when the input is inside the deadband. The two `swerve.drive` drives
  steer every wheel to 90 degrees (`AxisDrive.InputOrdersAtRest`).
- **Negative maxOutput.** No setter checks the limit. A negative one
  rescales every moving wheel to a negative speed: the frc, swervelib and
  early wheels then throw (`FrcDrive.NegativeMaxOutputThrows`), while the
  first wheel accepts it and drives in reverse
  (`FirstDrive.NegativeMaxWheelSpeedReversed`).
- **maxOutput starts at 0.** The frc drive never sets `maxOutput` before
  `setMaxOutput`, so until then every speed is 0
  (`FrcDrive.UnsetMaxOutputStops`).
- **Slowdown speed.** It is non-decreasing in the distance remaining only
  when `minSpeed <= maxSpeed` (`Manner.SlowdownMonotone`). A counterexample
  without that condition is `Manner.SlowdownNeedsOrderedSpeeds`.
- **AutonTurn finished flag.** It is recomputed each cycle and can become
  false again (`AutonTurn.FinishedCanRevert`).
- **AutonDrive phases.** AutonDrive starts in the driving phase, and nothing
  ever enters the steering phase (`AutonDrive.AutonDrive.Execute`).

## Model

Paths are relative to the repository root.

| member | source | states |
|---|---|---|
| Angles.WrapInto | swervelib/src/main/java/frc/team1711/swerve/util/Angles.java:33-70 | the result lies in [low, low + period) and is a whole number of periods from the input |
| Angles.WrapIntoEqualIff | swervelib/src/main/java/frc/team1711/swerve/util/Angles.java:33-37 | two inputs wrap to the same value if and only if they are a whole number of turns apart |
| Angles.WrapIntoCharacterized | swervelib/src/main/java/frc/team1711/swerve/util/Angles.java:33-37 | any value of the window congruent to the input is the wrapped input (the loops' stopping state is unique) |
| Angles.WrapIntoInside | swervelib/src/main/java/frc/team1711/swerve/util/Angles.java:33-37 | a value already inside the window is returned unchanged |
| Angles.WrapIntoIdempotent | swervelib/src/main/java/frc/team1711/swerve/util/Angles.java:33-37 | wrapping twice is wrapping once |
| Angles.WrapIntoPeriodic | swervelib/src/main/java/frc/team1711/swerve/util/Angles.java:33-37 | adding any whole number of turns to the input does not change the result |
| Angles.WrapDegrees | swervelib/src/main/java/frc/team1711/swerve/util/Angles.java:33-37 | the two loops end on [0, 360), a whole number of turns from the input |
| Angles.WrapDegreesZeroCenter | swervelib/src/main/java/frc/team1711/swerve/util/Angles.java:44-48 | the two loops end on [-180, 180), a whole number of turns from the input |
| Angles.WrapRadians | swervelib/src/main/java/frc/team1711/swerve/util/Angles.java:55-59 | the two loops end on [0, TAU), a whole number of TAU from the input |
| Angles.WrapRadiansZeroCenter | swervelib/src/main/java/frc/team1711/swerve/util/Angles.java:66-70 | the two loops end on [-PI, PI), a whole number of TAU from the input |
| Angles.ConversionsInverse | swervelib/src/main/java/frc/team1711/swerve/util/Angles.java:80-100 | radiansToDegrees and degreesToRadians undo each other exactly, since neither wraps |
| Angles.ConversionOrigins | swervelib/src/main/java/frc/team1711/swerve/util/Angles.java:80-100 | compass 0 is math PI/2 and compass 90 is math 0: the compass starts on +y and turns clockwise |
| Angles.ConversionsRespectTurns | swervelib/src/main/java/frc/team1711/swerve/util/Angles.java:80-100 | a whole degree turn converts to a whole radian turn in the opposite sense, and back |
| Angles.RadiansToDegreesCongruent | swervelib/src/main/java/frc/team1711/swerve/util/Angles.java:80-85 | radians a whole TAU apart convert to degrees a whole 360 apart |
| FrcVector.AddCommutative | swervelib/src/main/java/frc/team1711/swerve/util/Vector.java:104-106 | add is componentwise: commutative, with the zero vector as identity (same body at swervelib/src/main/java/swerve/util/Vector.java:30-32) |
| FrcVector.ScaleMinusOne | swervelib/src/main/java/frc/team1711/swerve/util/Vector.java:113-115 | scale(-1) negates both components and scale(1) changes nothing |
| FrcVector.ReflectionsInvolutive | swervelib/src/main/java/frc/team1711/swerve/util/Vector.java:121-131 | each reflection undoes itself |
| FrcVector.ReflectionsCompose | swervelib/src/main/java/frc/team1711/swerve/util/Vector.java:121-131 | reflecting across both axes, in either order, is scale(-1) |
| FrcVector.SubtractAntisymmetric | swervelib/src/main/java/frc/team1711/swerve/util/odometry/Position.java:81-83 | subtract (used by movementTo) is the negation of the reversed subtraction, and adding it back recovers the vector |
| FrcVector.MagnitudeZeroIff | swervelib/src/main/java/frc/team1711/swerve/util/Vector.java:172-174 | getMagnitude is non-negative and zero exactly for the zero vector |
| FrcVector.MagnitudeReflections | swervelib/src/main/java/frc/team1711/swerve/util/Vector.java:172-174 | getMagnitude is unchanged by either reflection |
| FrcVector.MagnitudeScaled | swervelib/src/main/java/frc/team1711/swerve/util/Vector.java:172-174 | the magnitude of scale(s) is abs(s) times the magnitude |
| FrcVector.Clamp | swervelib/src/main/java/frc/team1711/swerve/util/Vector.java:145-146 | the min/max guard lands on [-1, 1] and leaves values already there alone |
| FrcVector.RotationRadians | swervelib/src/main/java/frc/team1711/swerve/util/Vector.java:137-159 | getRotationRadians lies on [0, TAU) |
| FrcVector.GetRotationRadians | swervelib/src/main/java/frc/team1711/swerve/util/Vector.java:137-159 | the method's two wrapping loops, first adding TAU while negative and then subtracting it while at least TAU, return the specified rotation |
| FrcVector.CompassDegrees | swervelib/src/main/java/frc/team1711/swerve/util/Vector.java:69-78 | the static radiansToDegrees lies on [0, 360), a whole turn from the unwrapped conversion |
| FrcVector.RadiansToDegrees | swervelib/src/main/java/frc/team1711/swerve/util/Vector.java:69-78 | the method's two wrapping loops, first adding 360 while negative and then subtracting it while at least 360, return the specified compass angle |
| FrcVector.RotationDegrees | swervelib/src/main/java/frc/team1711/swerve/util/Vector.java:165-167 | getRotationDegrees lies on [0, 360) |
| FrcVector.GetRotationDegrees | swervelib/src/main/java/frc/team1711/swerve/util/Vector.java:165-167 | the method returns the specified compass rotation |
| FrcVector.ZeroDirection | swervelib/src/main/java/frc/team1711/swerve/util/Vector.java:137-167 | the zero vector has rotation 0 radians, which is 90 compass degrees |
| FrcVector.PolarMagnitude | swervelib/src/main/java/frc/team1711/swerve/util/Vector.java:46-49 | r times (cos t, sin t) has magnitude abs(r) |
| FrcVector.PolarRadians | swervelib/src/main/java/frc/team1711/swerve/util/Vector.java:46-49 | a positive length at angle t points at t wrapped onto [0, TAU) |
| FrcVector.CompassOfRadians | swervelib/src/main/java/frc/team1711/swerve/util/Vector.java:69-78 | converting degrees to radians, wrapping, and converting back gives the degrees wrapped onto [0, 360) |
| FrcVector.PolarDegrees | swervelib/src/main/java/frc/team1711/swerve/util/Vector.java:51-59 | a positive length at compass d points at d wrapped onto [0, 360) |
| FrcVector.ToRotationRadiansSpec | swervelib/src/main/java/frc/team1711/swerve/util/Vector.java:46-49 | toRotationRadians keeps the length, and a non-zero vector then points at the given angle |
| FrcVector.ToRotationDegreesSpec | swervelib/src/main/java/frc/team1711/swerve/util/Vector.java:51-56 | toRotationDegrees, as documented: same length, and a non-zero vector then points at the compass angle |
| FrcVector.FromPolarDegreesSpec | swervelib/src/main/java/frc/team1711/swerve/commands/AutonDriveSimple.java:63 | fromPolarDegrees has length abs(magnitude) and, for a positive one, the given compass direction |
| FrcVector.RotationScaled | swervelib/src/main/java/frc/team1711/swerve/util/Vector.java:137-167 | scaling by a positive factor keeps both the radian and the compass direction |
| LibVector.GetRotationDegrees | swervelib/src/main/java/swerve/util/Vector.java:91-103 | the inline conversion and loops give the compass rotation, on [0, 360) |
| InputHandling.NamedCurves | swervelib/src/main/java/frc/team1711/swerve/util/InputHandler.java:121-131 | linearCurve and squareCurve map 0 to 0 and 1 to 1, and [0, 1] into [0, 1] |
| InputHandling.ApplyDeadband | swervelib/src/main/java/frc/team1711/swerve/util/InputHandler.java:86-97 | the stepwise method computes the deadband function |
| InputHandling.DeadbandedSpec | swervelib/src/main/java/frc/team1711/swerve/util/InputHandler.java:86-97 | for a deadband on [0, 1): inputs up to it give 0, 1 gives 1, [0, 1] maps into [0, 1], and the map does not decrease |
| InputHandling.Apply | swervelib/src/main/java/frc/team1711/swerve/util/InputHandler.java:48-64 | the stepwise apply(double) computes the closed form `Output` |
| InputHandling.OutputSaturates | swervelib/src/main/java/frc/team1711/swerve/util/InputHandler.java:55 | inputs larger than 1 in size behave exactly like 1 or -1 |
| InputHandling.OutputOfZero | swervelib/src/main/java/frc/team1711/swerve/util/InputHandler.java:48-64 | a valid handler maps 0 to 0 |
| InputHandling.OutputOdd | swervelib/src/main/java/frc/team1711/swerve/util/InputHandler.java:48-64 | apply is odd: negating the input negates the output |
| InputHandling.OutputRange | swervelib/src/main/java/frc/team1711/swerve/util/InputHandler.java:48-64 | the output is on [-1, 1], has the input's sign, and 1 and -1 are fixed |
| InputHandling.LinearHandler | swervelib/src/main/java/frc/team1711/swerve/util/InputHandler.java:37-39 | with the one-argument constructor the output is on [-1, 1] and -1, 0, 1 are fixed |
| InputHandling.ApplyVectorSpec | swervelib/src/main/java/frc/team1711/swerve/util/InputHandler.java:72-82 | the zero vector stays zero; otherwise the length becomes apply(length) and a non-zero result keeps the direction |
| Steering.Then | swervelib/src/main/java/frc/team1711/swerve/subsystems/SwerveDrive.java:161-164 | two calls in a row end normally if and only if both do |
| Steering.Shortest | swervelib/src/main/java/frc/team1711/swerve/subsystems/SwerveWheel.java:46-48 | the turn lies on [-180, 180], is a whole number of turns from the difference, and a difference already there is kept |
| Steering.ShortestDifference | swervelib/src/main/java/frc/team1711/swerve/subsystems/SwerveWheel.java:46-48 | the two loops compute the shortest turn |
| Steering.ShortestSizeCongruent | swervelib/src/main/java/frc/team1711/swerve/subsystems/SwerveWheel.java:103-106 | differences a whole turn apart give shortest turns of the same size |
| Steering.ShortestSizeSymmetric | swervelib/src/main/java/frc/team1711/swerve/subsystems/SwerveWheel.java:103-106 | turning from a to b is as far as turning from b to a |
| Steering.SteerSpec | swervelib/src/main/java/frc/team1711/swerve/subsystems/SwerveWheel.java:46-57 | the wheel turns at most 90 degrees; it reverses exactly when the shortest turn exceeds 90; it then points at the target, or at the opposite when reversed |
| Steering.RawDirectionTurns | swervelib/src/main/java/swerve/subsystems/SwerveWheel.java:109-114 | the direction in degrees is on [0, 360), and whole revolutions added to the raw reading do not change it |
| Steering.CurrentDegrees | swervelib/src/main/java/swerve/subsystems/SwerveWheel.java:79-82 | the loops on the raw reading times 360 give that direction |
| Steering.RawSteerSpec | swervelib/src/main/java/swerve/subsystems/SwerveWheel.java:75-100 | the new raw target is within a quarter revolution of the reading, and times 360 points at the target or its opposite as the plan says |
| Steering.RawIssuedSpec | swervelib/src/main/java/swerve/subsystems/SwerveWheel.java:75-100 | the raw variants send a target within 0.25 revolutions of the reading and the speed reversed exactly when the turn exceeds 90 degrees, pointing at the target or its opposite |
| Steering.CheckDifference | swervelib/src/main/java/frc/team1711/swerve/subsystems/SwerveWheel.java:102-107 | the loops answer whether the shortest turn is within the margin |
| Steering.WithinRangeInvariant | swervelib/src/main/java/frc/team1711/swerve/subsystems/SwerveWheel.java:102-107 | the check ignores whole turns in the direction and is symmetric in the two directions |
| Steering.Within180RangeSpec | swervelib/src/main/java/frc/team1711/swerve/subsystems/SwerveWheel.java:118-122 | checkWithin180Range accepts whatever checkWithinRange accepts, plus exactly the directions within range of the opposite direction |
| FrcWheel.Validate | swervelib/src/main/java/frc/team1711/swerve/subsystems/SwerveWheel.java:42-43 | the checks pass if and only if the speed is on [0, 1] and the target on [0, 360) |
| FrcWheel.IssuedSpec | swervelib/src/main/java/frc/team1711/swerve/subsystems/SwerveWheel.java:46-67 | setDirection gets the current direction moved by at most 90 degrees, unwrapped; the speed is reversed exactly when the turn exceeds 90; the result points at the target or its opposite |
| FrcWheel.SwerveWheel.constructor | swervelib/src/main/java/frc/team1711/swerve/subsystems/SwerveWheel.java:78 | a wheel with the given readings and no calls yet |
| FrcWheel.SwerveWheel.SteerAndDrive | swervelib/src/main/java/frc/team1711/swerve/subsystems/SwerveWheel.java:41-68 | throws exactly when the checks fail, without touching the hardware; otherwise sends the two planned calls |
| FrcWheel.SwerveWheel.CheckWithinRange | swervelib/src/main/java/frc/team1711/swerve/subsystems/SwerveWheel.java:102-107 | true if and only if the shortest turn from the current direction is within the margin |
| FrcWheel.SwerveWheel.CheckWithin180Range | swervelib/src/main/java/frc/team1711/swerve/subsystems/SwerveWheel.java:118-122 | true if and only if within range of the direction or of its opposite |
| FrcWheel.SwerveWheel.Stop | swervelib/src/main/java/frc/team1711/swerve/subsystems/SwerveWheel.java:127-130 | drive speed 0, then steering stopped |
| FrcWheel.SwerveWheel.ResetDriveEncoder | swervelib/src/main/java/frc/team1711/swerve/subsystems/AutoSwerveWheel.java:20 | the position difference reads 0 afterwards |
| LibWheel.Validate | swervelib/src/main/java/swerve/subsystems/SwerveWheel.java:76-77 | passes if and only if the speed is on [0, 1] (the message says [-1, 1]) and the target on [0, 360) |
| LibWheel.SwerveWheel.constructor | swervelib/src/main/java/swerve/subsystems/SwerveWheel.java:28 | a wheel with the given raw reading and encoder, no calls yet |
| LibWheel.SwerveWheel.SteerAndDrive | swervelib/src/main/java/swerve/subsystems/SwerveWheel.java:75-100 | throws exactly when the checks fail, sending nothing; otherwise sends the raw target and the signed speed |
| LibWheel.SwerveWheel.GetDirection | swervelib/src/main/java/swerve/subsystems/SwerveWheel.java:109-114 | the raw reading times 360, wrapped onto [0, 360) |
| LibWheel.SwerveWheel.CheckWithinRange | swervelib/src/main/java/swerve/subsystems/SwerveWheel.java:129-134 | true if and only if the shortest turn from the wrapped direction is within the margin |
| LibWheel.SwerveWheel.CheckWithin180Range | swervelib/src/main/java/swerve/subsystems/SwerveWheel.java:145-149 | true if and only if within range of the direction or of its opposite |
| LibWheel.SwerveWheel.Stop | swervelib/src/main/java/swerve/subsystems/SwerveWheel.java:154-157 | drive speed 0, then steering stopped |
| LibWheel.SwerveWheel.ResetDriveEncoder | swervelib/src/main/java/swerve/subsystems/FESwerveWheel.java:22 | the position difference reads 0 afterwards |
| EarlyWheel.Validate | swerve/subsystems/SwerveWheel.java:81-82 | passes if and only if the speed is on [0, 1] and the target on [0, 360) |
| EarlyWheel.SwerveWheel.constructor | swerve/subsystems/SwerveWheel.java:22-24 | the steering encoder is reset, so the wheel reads 0 revolutions |
| EarlyWheel.SwerveWheel.SteerAndDrive | swerve/subsystems/SwerveWheel.java:80-105 | throws exactly when the checks fail; otherwise the target is the unwrapped reading plus the planned move in revolutions |
| EarlyWheel.SwerveWheel.Stop | swerve/subsystems/SwerveWheel.java:110-113 | drive speed 0, then steering stopped |
| EarlyWheel.SwerveWheel.ResetDriveEncoder | swerve/drive/SwerveDrive.java:151-156 | the position difference reads 0 afterwards |
| FirstWheel.Validate | swerve/SwerveWheel.java:73-74 | passes if and only if the speed is on [-1, 1] and the target on [0, 360) |
| FirstWheel.SwerveWheel.constructor | swerve/SwerveWheel.java:25 | a wheel with the given rotation and encoder readings, no calls yet |
| FirstWheel.SwerveWheel.SetSpeedAndRotation | swerve/SwerveWheel.java:72-97 | throws exactly when the checks fail; otherwise the raw rotation target and the speed times the plan's sign |
| FirstWheel.SwerveWheel.Stop | swerve/SwerveWheel.java:102-105 | speed 0, then rotational movement stopped |
| FirstWheel.SwerveWheel.ResetEncoder | swerve/SwerveWheel.java:58 | the rotation reads 0 revolutions afterwards |
| FirstWheel.SwerveWheel.ResetDirectionalEncoder | swerve/SwerveDrive.java:165-170 | the directional difference reads 0 afterwards |
| DriveMath.StretchBounds | swervelib/src/main/java/frc/team1711/swerve/subsystems/SwerveDrive.java:255-259 | a size past the deadband is stretched onto [0, 1] with 1 kept |
| DriveMath.DeadbandBySize | swervelib/src/main/java/frc/team1711/swerve/subsystems/SwerveDrive.java:255-259 | accountForDeadband works on the size and puts the sign back |
| DriveMath.DeadbandSpec | swervelib/src/main/java/frc/team1711/swerve/subsystems/SwerveDrive.java:255-259 | values inside the deadband give 0; the sign is kept; the map is odd; 1 and -1 are fixed; [-1, 1] maps into itself |
| DriveMath.DeadbandZeroIff | swervelib/src/main/java/frc/team1711/swerve/subsystems/SwerveDrive.java:255-259 | the result is 0 exactly for values no larger in size than the deadband |
| DriveMath.WheelVectorsMean | swervelib/src/main/java/frc/team1711/swerve/subsystems/SwerveDrive.java:123-126 | the four steering terms cancel: the wheel vectors sum to four times the strafe vector |
| DriveMath.WheelVectorsWithoutSteering | swervelib/src/main/java/frc/team1711/swerve/subsystems/SwerveDrive.java:123-126 | with no steering every wheel vector is the strafe vector |
| DriveMath.WheelVectorsWithoutStrafe | swervelib/src/main/java/frc/team1711/swerve/subsystems/SwerveDrive.java:123-133 | with no strafe all four wheel speeds equal the steering vector's length |
| DriveMath.Rescale | swervelib/src/main/java/frc/team1711/swerve/subsystems/SwerveDrive.java:140-152 | the in-place divide-then-multiply steps compute the rescaled speeds |
| DriveMath.FactorBounds | swervelib/src/main/java/frc/team1711/swerve/subsystems/SwerveDrive.java:140-152 | the common factor is on [0, 1] |
| DriveMath.RescaleKeepsRatios | swervelib/src/main/java/frc/team1711/swerve/subsystems/SwerveDrive.java:140-152 | every speed is multiplied by the same factor, so the ratios between wheels are kept |
| DriveMath.MaxSpeedBounds | swervelib/src/main/java/frc/team1711/swerve/subsystems/SwerveDrive.java:140 | the chain of Math.max bounds every speed |
| DriveMath.RescaleWithinLimit | swervelib/src/main/java/frc/team1711/swerve/subsystems/SwerveDrive.java:140-152 | non-negative speeds stay non-negative and end at most the limit |
| DriveMath.RescaleReachesLimit | swervelib/src/main/java/frc/team1711/swerve/subsystems/SwerveDrive.java:140-152 | when the fastest wheel was over the limit it ends exactly at the limit |
| DriveMath.DriveSpeedsBounded | swervelib/src/main/java/frc/team1711/swerve/subsystems/SwerveDrive.java:129-152 | the rescaled magnitudes are all on [0, limit] |
| DriveMath.ZeroLimitStops | swervelib/src/main/java/frc/team1711/swerve/subsystems/SwerveDrive.java:140-152 | a limit of 0 stops every wheel |
| DriveMath.RescaleNegativeLimit | swervelib/src/main/java/frc/team1711/swerve/subsystems/SwerveDrive.java:140-152 | a negative limit is under every non-zero fastest speed, so the speeds are rescaled onto [limit, 0]: each is negative exactly when it was positive, and the fastest ends at the limit |
| DriveMath.DriveSpeedsReversed | swervelib/src/main/java/frc/team1711/swerve/subsystems/SwerveDrive.java:129-152 | with a negative limit the rescaled magnitudes are on [limit, 0], and a wheel's is negative exactly when its vector is non-zero |
| DriveMath.DistanceTraveledSpec | swervelib/src/main/java/frc/team1711/swerve/subsystems/AutoSwerveDrive.java:71-76 | the distance is non-negative, ignores each wheel's sign, is 0 only when all read 0, and is the common size when all agree |
| AxisDrive.HalfSpeeds | swervelib/src/main/java/swerve/drive/SwerveDrive.java:212-216 | drive and steer speeds are equal, between 0 and maxOutput for a non-negative maxOutput; other settings are kept |
| AxisDrive.InputOrdersBounded | swervelib/src/main/java/swerve/drive/SwerveDrive.java:84-148 | with a non-negative maxOutput every direction is on [0, 360) and every speed on [0, maxOutput] |
| AxisDrive.NegativeMaxOutputReversed | swervelib/src/main/java/swerve/drive/SwerveDrive.java:84-148 | with a negative maxOutput every speed is on [maxOutput, 0], and the front-left one is negative exactly when its wheel vector is non-zero |
| AxisDrive.VectorsOfNothing | swervelib/src/main/java/swerve/drive/SwerveDrive.java:92-113 | no input gives four zero vectors |
| AxisDrive.VectorsInsideDeadband | swervelib/src/main/java/swerve/drive/SwerveDrive.java:87-113 | every axis inside the deadband gives four zero vectors |
| AxisDrive.AxesInsideDeadband | swervelib/src/main/java/swerve/drive/SwerveDrive.java:87-89 | each axis inside the deadband is deadbanded to 0 separately |
| AxisDrive.OrdersOfZero | swervelib/src/main/java/swerve/drive/SwerveDrive.java:142-145 | zero vectors give speed 0 at the zero vector's rotation, 90 degrees |
| AxisDrive.InputOrdersAtRest | swervelib/src/main/java/swerve/drive/SwerveDrive.java:84-148 | with every axis inside the deadband each wheel is steered to 90 degrees at speed 0 |
| AxisDrive.OrdersOfUniform | swervelib/src/main/java/swerve/drive/SwerveDrive.java:129-145 | four equal vectors give four equal orders |
| AxisDrive.VectorsWithoutSteering | swervelib/src/main/java/swerve/drive/SwerveDrive.java:92-113 | with deadbanded steering 0 every wheel vector is the deadbanded strafe vector |
| AxisDrive.StrafeOnlyUniform | swervelib/src/main/java/swerve/drive/SwerveDrive.java:84-148 | pure strafing gives every wheel the same order |
| FrcDrive.InputOrdersAccepted | swervelib/src/main/java/frc/team1711/swerve/subsystems/SwerveDrive.java:99-165 | with maxOutput on [0, 1] and wheels on [0, 360), no wheel throws |
| FrcDrive.NegativeMaxOutputThrows | swervelib/src/main/java/frc/team1711/swerve/subsystems/SwerveDrive.java:99-165 | a negative maxOutput, which setMaxOutput accepts, with a non-zero front-left wheel vector gives that wheel a speed on [maxOutput, 0), so its steerAndDrive throws |
| FrcDrive.DropInsideDeadbandSpec | swervelib/src/main/java/frc/team1711/swerve/subsystems/SwerveDrive.java:102-103 | the strafe vector is dropped exactly when its length is at most the deadband |
| FrcDrive.InputVectorsAtRest | swervelib/src/main/java/frc/team1711/swerve/subsystems/SwerveDrive.java:102-126 | a dropped strafe vector and no steering give four zero vectors |
| FrcDrive.StillOrders | swervelib/src/main/java/frc/team1711/swerve/subsystems/SwerveDrive.java:155-158 | zero vectors give speed 0 and keep each wheel's current direction |
| FrcDrive.VectorsInsideDeadband | swervelib/src/main/java/frc/team1711/swerve/subsystems/SwerveDrive.java:102-126 | strafe and steering inside the deadband give four zero vectors |
| FrcDrive.OrdersOfStillVectors | swervelib/src/main/java/frc/team1711/swerve/subsystems/SwerveDrive.java:129-158 | four zero vectors stop every wheel where it points |
| FrcDrive.InputOrdersAtRest | swervelib/src/main/java/frc/team1711/swerve/subsystems/SwerveDrive.java:99-165 | inputs inside the deadband stop every wheel where it points |
| FrcDrive.UnsetMaxOutputStops | swervelib/src/main/java/frc/team1711/swerve/subsystems/SwerveDrive.java:37-41 | while maxOutput is its default 0, every speed sent is 0 |
| FrcDrive.SwerveDrive.constructor | swervelib/src/main/java/frc/team1711/swerve/subsystems/SwerveDrive.java:54-61 | ratio 1 and the static default speeds; maxOutput and deadband 0 (AutoSwerveDrive passes ratio 1 the same way) |
| FrcDrive.SwerveDrive.WithRatio | swervelib/src/main/java/frc/team1711/swerve/subsystems/SwerveDrive.java:73-89 | the given ratio and the static default speeds |
| FrcDrive.SwerveDrive.SteerEach | swervelib/src/main/java/frc/team1711/swerve/subsystems/SwerveDrive.java:161-164 | four steerAndDrive calls in order, each only if the earlier ones ended normally |
| FrcDrive.SwerveDrive.InputDrive | swervelib/src/main/java/frc/team1711/swerve/subsystems/SwerveDrive.java:99-165 | each wheel gets the order the specification computes from the inputs, the settings and the wheels' directions |
| FrcDrive.SwerveDrive.SteerAndDriveAll | swervelib/src/main/java/frc/team1711/swerve/subsystems/SwerveDrive.java:177-182 | every wheel gets the same direction and speed |
| FrcDrive.SwerveDrive.SteerAllWithinRange | swervelib/src/main/java/frc/team1711/swerve/subsystems/SwerveDrive.java:194-206 | every wheel is steered at speed 0, and the answer is whether all four are within range of the direction or its opposite |
| FrcDrive.SwerveDrive.Stop | swervelib/src/main/java/frc/team1711/swerve/subsystems/SwerveDrive.java:211-216 | every wheel stops |
| FrcDrive.SwerveDrive.SetMaxOutput | swervelib/src/main/java/frc/team1711/swerve/subsystems/SwerveDrive.java:222-224 | only maxOutput changes |
| FrcDrive.SwerveDrive.SetDeadband | swervelib/src/main/java/frc/team1711/swerve/subsystems/SwerveDrive.java:231-233 | only the deadband changes |
| FrcDrive.SwerveDrive.SetSteerRelativeSpeed | swervelib/src/main/java/frc/team1711/swerve/subsystems/SwerveDrive.java:241-243 | only the steer speed changes |
| FrcDrive.SwerveDrive.SetDriveRelativeSpeed | swervelib/src/main/java/frc/team1711/swerve/subsystems/SwerveDrive.java:251-253 | only the drive speed changes |
| FrcDrive.SwerveDrive.SetDistanceReference | swervelib/src/main/java/frc/team1711/swerve/subsystems/AutoSwerveDrive.java:56-61 | exactly the four drive encoders are reset; directions are kept |
| FrcDrive.SwerveDrive.GetDistanceTraveled | swervelib/src/main/java/frc/team1711/swerve/subsystems/AutoSwerveDrive.java:71-76 | the mean absolute position difference |
| LibDrive.InputOrdersAccepted | swervelib/src/main/java/swerve/drive/SwerveDrive.java:84-148 | with maxOutput on [0, 1], no wheel throws |
| LibDrive.NegativeMaxOutputThrows | swervelib/src/main/java/swerve/drive/SwerveDrive.java:84-148 | a negative maxOutput with a non-zero front-left wheel vector gives that wheel a negative speed, so its steerAndDrive throws |
| LibDrive.SwerveDrive.constructor | swervelib/src/main/java/swerve/drive/SwerveDrive.java:39-46 | ratio 1 and both speeds half of maxOutput (FESwerveDrive passes ratio 1 the same way) |
| LibDrive.SwerveDrive.WithRatio | swervelib/src/main/java/swerve/drive/SwerveDrive.java:58-74 | the given ratio and both speeds half of maxOutput |
| LibDrive.SwerveDrive.SteerEach | swervelib/src/main/java/swerve/drive/SwerveDrive.java:142-145 | four steerAndDrive calls in order, each only if the earlier ones ended normally |
| LibDrive.SwerveDrive.InputDrive | swervelib/src/main/java/swerve/drive/SwerveDrive.java:84-148 | each wheel gets the order the per-axis specification computes |
| LibDrive.SwerveDrive.SteerAndDriveAll | swervelib/src/main/java/swerve/drive/SwerveDrive.java:160-167 | every wheel gets the same direction and speed |
| LibDrive.SwerveDrive.SteerAllWithinRange | swervelib/src/main/java/swerve/drive/SwerveDrive.java:179-191 | every wheel is steered at speed 0, and the answer is whether all four are within range of the direction or its opposite |
| LibDrive.SwerveDrive.StopMotor | swervelib/src/main/java/swerve/drive/SwerveDrive.java:197-204 | every wheel stops |
| LibDrive.SwerveDrive.SetMaxOutput | swervelib/src/main/java/swerve/drive/SwerveDrive.java:212-216 | maxOutput changes and both speeds follow at half of it |
| LibDrive.SwerveDrive.SetDistanceReference | swervelib/src/main/java/swerve/drive/FESwerveDrive.java:58-63 | exactly the four drive encoders are reset; raw directions are kept |
| LibDrive.SwerveDrive.GetDistanceTraveled | swervelib/src/main/java/swerve/drive/FESwerveDrive.java:73-78 | the mean absolute position difference |
| EarlyDrive.InputOrdersAccepted | swerve/drive/SwerveDrive.java:83-145 | with maxOutput on [0, 1], no wheel throws |
| EarlyDrive.NegativeMaxOutputThrows | swerve/drive/SwerveDrive.java:83-145 | a negative maxOutput with a non-zero front-left wheel vector gives that wheel a negative speed, so its steerAndDrive throws |
| EarlyDrive.SwerveDrive.constructor | swerve/drive/SwerveDrive.java:39-46 | ratio 1 and both speeds half of maxOutput |
| EarlyDrive.SwerveDrive.WithRatio | swerve/drive/SwerveDrive.java:58-74 | the given ratio and both speeds half of maxOutput |
| EarlyDrive.SwerveDrive.SteerEach | swerve/drive/SwerveDrive.java:141-144 | four steerAndDrive calls in order, each only if the earlier ones ended normally |
| EarlyDrive.SwerveDrive.Drive | swerve/drive/SwerveDrive.java:83-145 | each wheel gets the order the per-axis specification computes |
| EarlyDrive.SwerveDrive.StopMotor | swerve/drive/SwerveDrive.java:177-182 | every wheel stops |
| EarlyDrive.SwerveDrive.SetMaxOutput | swerve/drive/SwerveDrive.java:190-194 | maxOutput changes and both speeds follow at half of it |
| EarlyDrive.SwerveDrive.SetDistanceReference | swerve/drive/SwerveDrive.java:151-156 | all four drive encoders are reset; raw directions are kept |
| EarlyDrive.SwerveDrive.GetDistanceTraveled | swerve/drive/SwerveDrive.java:166-171 | the mean absolute position difference |
| FirstDrive.DriveOrdersAccepted | swerve/SwerveDrive.java:103-159 | with maxWheelSpeed on [-1, 1], no wheel throws, since this wheel takes speeds on [-1, 1] |
| FirstDrive.NegativeMaxWheelSpeedReversed | swerve/SwerveDrive.java:103-159 | a negative maxWheelSpeed puts every speed on [maxWheelSpeed, 0], the front-left one negative exactly when its vector is non-zero, so the robot drives in reverse |
| FirstDrive.VectorsOfNothing | swerve/SwerveDrive.java:105-126 | no input gives four zero vectors |
| FirstDrive.DriveOrdersAtRest | swerve/SwerveDrive.java:103-159 | no input steers every wheel to 90 degrees at speed 0 |
| FirstDrive.VectorsWithoutRotation | swerve/SwerveDrive.java:105-126 | without rotation every wheel vector is the direct move |
| FirstDrive.DirectMoveUniform | swerve/SwerveDrive.java:103-159 | a move without rotation gives every wheel the same order |
| FirstDrive.SwerveDrive.constructor | swerve/SwerveDrive.java:43-53 | the given final speeds and ratio 1 |
| FirstDrive.SwerveDrive.WithRatio | swerve/SwerveDrive.java:73-93 | the given final speeds and ratio |
| FirstDrive.SwerveDrive.SteerEach | swerve/SwerveDrive.java:155-158 | four setSpeedAndRotation calls in order, each only if the earlier ones ended normally |
| FirstDrive.SwerveDrive.Drive | swerve/SwerveDrive.java:103-159 | each wheel gets the order the specification computes: its vector's rotation and its rescaled length |
| FirstDrive.SwerveDrive.SetDistanceReference | swerve/SwerveDrive.java:165-170 | all four directional encoders are reset; rotations are kept |
| FirstDrive.SwerveDrive.GetDistanceTraveled | swerve/SwerveDrive.java:179-184 | the mean absolute directional difference |
| FirstDrive.SwerveDrive.StopMotor | swerve/SwerveDrive.java:190-195 | every wheel stops |
| GyroDrive.FieldRelToRobotRel | swervelib/src/main/java/frc/team1711/swerve/subsystems/GyroSwerveDrive.java:87-89 | the robot-relative rotation is on [0, 360), a whole turn from rotation minus gyro angle |
| GyroDrive.FieldRelToRobotRelTurns | swervelib/src/main/java/frc/team1711/swerve/subsystems/GyroSwerveDrive.java:87-89 | whole turns in the rotation or in the gyro angle change nothing |
| GyroDrive.FieldStrafeSpec | swervelib/src/main/java/frc/team1711/swerve/subsystems/GyroSwerveDrive.java:54-58 | the field strafe keeps the shaped length, and its direction is the shaped direction less the gyro angle, modulo 360 |
| GyroDrive.FieldStrafeFacingForward | swervelib/src/main/java/frc/team1711/swerve/subsystems/GyroSwerveDrive.java:58 | with the gyro at 0 the shaped strafe keeps its direction |
| GyroDrive.SteeringNotTurned | swervelib/src/main/java/frc/team1711/swerve/subsystems/GyroSwerveDrive.java:60-63 | the steering sent does not depend on the gyro angle or the strafe |
| GyroDrive.SteeringBounded | swervelib/src/main/java/frc/team1711/swerve/subsystems/GyroSwerveDrive.java:55-63 | the steering sent is on [-steerSpeed, steerSpeed], has the stick's sign, and is 0 for a centred stick |
| GyroDrive.GyroSwerveDrive.constructor | swervelib/src/main/java/frc/team1711/swerve/subsystems/GyroSwerveDrive.java:27-36 | the given speed settings and no autoDrive calls yet |
| GyroDrive.GyroSwerveDrive.FieldRelativeUserInputDrive | swervelib/src/main/java/frc/team1711/swerve/subsystems/GyroSwerveDrive.java:50-64 | exactly one autoDrive call is made: the field strafe scaled by strafeSpeed and the shaped steering scaled by steerSpeed |
| Position.Place | swervelib/src/main/java/frc/team1711/swerve/util/odometry/Position.java:30-33 | the stored direction is on [0, 360), a whole turn from the given one; the location is kept |
| Position.PlaceTurns | swervelib/src/main/java/frc/team1711/swerve/util/odometry/Position.java:32 | directions a whole number of turns apart give equal positions |
| Position.AddMovementVectorSpec | swervelib/src/main/java/frc/team1711/swerve/util/odometry/Position.java:40-42 | the location moves by the movement and the direction is kept |
| Position.WithDirectionSpec | swervelib/src/main/java/frc/team1711/swerve/util/odometry/Position.java:49-51 | the location is kept, and two new directions give the same position if and only if they are a whole turn apart |
| Position.MovementToArrives | swervelib/src/main/java/frc/team1711/swerve/util/odometry/Position.java:81-83 | adding movementTo(other) to the location reaches the other location |
| Position.MovementToAntisymmetric | swervelib/src/main/java/frc/team1711/swerve/util/odometry/Position.java:81-83 | a.movementTo(b) is the negation of b.movementTo(a), and zero from a position to itself |
| Position.DistanceFromSpec | swervelib/src/main/java/frc/team1711/swerve/util/odometry/Position.java:90-92 | the distance is non-negative, symmetric, and zero exactly between equal locations |
| Manner.ConstantSpeedSpec | swervelib/src/main/java/frc/team1711/swerve/util/odometry/Manner.java:69-71 | constantSpeed gives its speed whatever remains |
| Manner.SlowdownSpec | swervelib/src/main/java/frc/team1711/swerve/util/odometry/Manner.java:88-95 | maxSpeed beyond the offset; at or before it, never below minSpeed and either minSpeed or the proportional speed |
| Manner.ProportionalMonotone | swervelib/src/main/java/frc/team1711/swerve/util/odometry/Manner.java:93 | the proportional speed does not decrease with what remains |
| Manner.ProportionalAtMost | swervelib/src/main/java/frc/team1711/swerve/util/odometry/Manner.java:93 | at or before the offset the proportional speed is at most maxSpeed |
| Manner.SlowdownMonotone | swervelib/src/main/java/frc/team1711/swerve/util/odometry/Manner.java:88-95 | with minSpeed at most maxSpeed, the speed is on [minSpeed, maxSpeed] and does not decrease with what remains |
| Manner.SlowdownNeedsOrderedSpeeds | swervelib/src/main/java/frc/team1711/swerve/util/odometry/Manner.java:88-95 | with minSpeed above maxSpeed the speed drops as more remains |
| RobotMovement.FieldMovementUnchanged | swervelib/src/main/java/frc/team1711/swerve/util/odometry/RobotMovement.java:63 | a field-relative movement is returned as it is |
| RobotMovement.RobotMovementRotated | swervelib/src/main/java/frc/team1711/swerve/util/odometry/RobotMovement.java:60-71 | a robot-relative movement keeps its length, and a non-zero one points at its direction plus the position's, modulo 360 |
| RobotMovement.RobotMovementFacingForward | swervelib/src/main/java/frc/team1711/swerve/util/odometry/RobotMovement.java:67-70 | from a position facing 0 a non-zero robot movement keeps its direction |
| RobotMovement.TurnToFieldRelSpec | swervelib/src/main/java/frc/team1711/swerve/util/odometry/RobotTurn.java:56-62 | a field turn ignores the position; a robot turn from a wrapped position lies on [direction, direction + 360) and follows the position's direction |
| Odometry.PositionFromMovementSpec | swervelib/src/main/java/frc/team1711/swerve/util/odometry/Odometry.java:115-117 | the location moves by the movement and the yaw is the new yaw wrapped onto [0, 360) |
| Odometry.StillWheel | swervelib/src/main/java/frc/team1711/swerve/util/odometry/Odometry.java:95-99 | a wheel whose encoder has not moved contributes the zero vector |
| Odometry.StillWheelsStayPut | swervelib/src/main/java/frc/team1711/swerve/util/odometry/Odometry.java:63-71 | with no encoder moved the mean movement is zero |
| Odometry.EqualWheelsMovement | swervelib/src/main/java/frc/team1711/swerve/util/odometry/Odometry.java:64-68 | four equal wheel movements average to that movement |
| Odometry.YawAfterResetSpec | swervelib/src/main/java/frc/team1711/swerve/util/odometry/Odometry.java:77-84 | after a reset the next yaw is the reset yaw turned by what the gyro turned since, and the same yaw when the gyro is still |
| Odometry.Odometry.constructor | swervelib/src/main/java/frc/team1711/swerve/util/odometry/Odometry.java:44-57 | origin facing 0, the offset at the current gyro angle, previous distances 0 |
| Odometry.Odometry.Update | swervelib/src/main/java/frc/team1711/swerve/util/odometry/Odometry.java:63-71 | only the position changes: it moves by the mean wheel movement and takes the wrapped gyro angle less the offset as its yaw |
| Odometry.Odometry.ResetPosition | swervelib/src/main/java/frc/team1711/swerve/util/odometry/Odometry.java:77-84 | the position is the given one and the gyro angle less the new offset is its yaw |
| Odometry.Odometry.GetPosition | swervelib/src/main/java/frc/team1711/swerve/util/odometry/Odometry.java:90-93 | exactly one update, then the updated position |
| AutonTurn.CheckTurnSpeed | swervelib/src/main/java/frc/team1711/swerve/commands/AutonTurn.java:46 | passes if and only if turnSpeed is on (0, 1] |
| AutonTurn.TurnOffset | swervelib/src/main/java/frc/team1711/swerve/commands/AutonTurn.java:73 | the remaining turn is on [-180, 180), a whole turn from target minus gyro |
| AutonTurn.TurnRequestSpec | swervelib/src/main/java/frc/team1711/swerve/commands/AutonTurn.java:71-77 | the request has size turnSpeed and is positive exactly when the remaining turn is |
| AutonTurn.AtTargetWithinMargins | swervelib/src/main/java/frc/team1711/swerve/commands/AutonTurn.java:79-83 | a gyro a whole number of turns from the target is within any non-negative margin |
| AutonTurn.WideMarginAlwaysWithin | swervelib/src/main/java/frc/team1711/swerve/commands/AutonTurn.java:79-83 | a margin of 180 or more accepts every gyro angle |
| AutonTurn.FinishedCanRevert | swervelib/src/main/java/frc/team1711/swerve/commands/AutonTurn.java:66-69 | finished is not a latch: a later cycle can clear it |
| AutonTurn.AutonTurn.constructor | swervelib/src/main/java/frc/team1711/swerve/commands/AutonTurn.java:45-56 | the fields are stored and finished starts false |
| AutonTurn.AutonTurn.Initialize | swervelib/src/main/java/frc/team1711/swerve/commands/AutonTurn.java:59-63 | the drive stops; the target is the input plus the gyro for the robot frame, the input for the field frame |
| AutonTurn.AutonTurn.Execute | swervelib/src/main/java/frc/team1711/swerve/commands/AutonTurn.java:66-69 | one turning request toward the target, then finished is whether the gyro is within the margin |
| AutonTurn.AutonTurn.End | swervelib/src/main/java/frc/team1711/swerve/commands/AutonTurn.java:86-88 | the drive stops |
| AutonTurn.AutonTurn.IsFinished | swervelib/src/main/java/frc/team1711/swerve/commands/AutonTurn.java:91-93 | returns finished |
| AutonTurn.NewAutonTurn | swervelib/src/main/java/frc/team1711/swerve/commands/AutonTurn.java:45-56 | the constructor throws exactly when turnSpeed is off (0, 1], and otherwise yields a new, unfinished command holding every argument: drive, direction, turnSpeed, marginOfError and frame |
| AutonDrive.DrivingAccepted | swervelib/src/main/java/frc/team1711/swerve/commands/AutonDrive.java:72-75 | a direction on [0, 360) and a speed on [0, 1] pass all four wheels' checks |
| AutonDrive.AutonDrive.constructor | swervelib/src/main/java/frc/team1711/swerve/commands/AutonDrive.java:44-51 | the phase starts as driving |
| AutonDrive.AutonDrive.Initialize | swervelib/src/main/java/frc/team1711/swerve/commands/AutonDrive.java:54-56 | the drive stops |
| AutonDrive.AutonDrive.Execute | swervelib/src/main/java/frc/team1711/swerve/commands/AutonDrive.java:59-62 | steering is never re-entered; ending is absorbing and sends nothing; driving drives on until the distance is reached, then ends; steering moves to driving exactly when all wheels are lined up, after each wheel's speed-0 steering calls and an encoder reset; while it stays in steering, only the command logs change |
| AutonDrive.AutonDrive.ExecuteSteering | swervelib/src/main/java/frc/team1711/swerve/commands/AutonDrive.java:64-70 | wheels steered at speed 0; the phase becomes driving exactly when all four are within 5 degrees, and then each wheel's log is its speed-0 steering calls followed by one encoder reset; otherwise each wheel's log gains only the speed-0 steering calls, and directions and position differences are kept |
| AutonDrive.AutonDrive.ExecuteDriving | swervelib/src/main/java/frc/team1711/swerve/commands/AutonDrive.java:72-78 | short of the distance every wheel gets (direction, speed); otherwise the phase becomes ending and nothing is sent |
| AutonDrive.AutonDrive.End | swervelib/src/main/java/frc/team1711/swerve/commands/AutonDrive.java:81-83 | the drive stops |
| AutonDrive.AutonDrive.IsFinished | swervelib/src/main/java/frc/team1711/swerve/commands/AutonDrive.java:86-88 | true exactly in the ending phase |
| AutonDriveSimple.HeadingError | swervelib/src/main/java/frc/team1711/swerve/commands/AutonDriveSimple.java:71-73 | the error is on [-180, 180), a whole turn from initial gyro minus gyro |
| AutonDriveSimple.CorrectionTurn | swervelib/src/main/java/frc/team1711/swerve/commands/AutonDriveSimple.java:70-75 | the correction is on [-1, 1] |
| AutonDriveSimple.CorrectionTurnSpec | swervelib/src/main/java/frc/team1711/swerve/commands/AutonDriveSimple.java:70-75 | the correction has the error's sign, in both directions, and is 0.08 times the error while that is on [-1, 1] |
| AutonDriveSimple.NoCorrectionOnHeading | swervelib/src/main/java/frc/team1711/swerve/commands/AutonDriveSimple.java:71-74 | a gyro a whole number of turns from its initial angle gives no correction |
| AutonDriveSimple.AutonDriveSimple.constructor | swervelib/src/main/java/frc/team1711/swerve/commands/AutonDriveSimple.java:42-52 | the initial gyro angle is captured and finished starts false |
| AutonDriveSimple.AutonDriveSimple.Initialize | swervelib/src/main/java/frc/team1711/swerve/commands/AutonDriveSimple.java:55-58 | the drive stops and all four drive encoders are reset |
| AutonDriveSimple.AutonDriveSimple.GetCorrectionTurn | swervelib/src/main/java/frc/team1711/swerve/commands/AutonDriveSimple.java:70-75 | the wrapping loops and the clamp compute the specified correction |
| AutonDriveSimple.AutonDriveSimple.Execute | swervelib/src/main/java/frc/team1711/swerve/commands/AutonDriveSimple.java:61-68 | finished latches once the distance is reached; short of it the drive gets the polar drive vector with the correction as steering |
| AutonDriveSimple.AutonDriveSimple.End | swervelib/src/main/java/frc/team1711/swerve/commands/AutonDriveSimple.java:78-80 | the drive stops |
| AutonDriveSimple.AutonDriveSimple.IsFinished | swervelib/src/main/java/frc/team1711/swerve/commands/AutonDriveSimple.java:83-85 | returns finished |

## Left out

- Floating point: IEEE rounding, NaN and infinities are not modelled. Every `double` is a real.
- Division by zero becomes a `requires`. This applies to a deadband of exactly 1, to a zero slowdown offset at or before it, and to a negative `maxOutput` or `maxWheelSpeed` when every wheel vector is zero: the fastest speed, 0, is then over the limit and the Java divides 0 by 0. Any other negative limit is modelled, and the `NegativeMaxOutput` lemmas state its outcome.
- `Math.sqrt`, `acos`, `cos` and `sin` are a record of functions. Their laws are assumed where `JavaMath.Lawful` is required.
- `Math.pow` and `Curve.threeHalvesPowerCurve` are not modelled; the other two named curves are.
- frc `Vector.toRotationDegrees` calls itself and never returns. Its callers use the documented contract instead: same length, new compass direction.
- The frc `Vector.degreesToRadians` wraps radians by 360. It has no caller in the model once toRotationDegrees follows its documentation, so it is not modelled.
- `toString` methods are not modelled.
- The vector classes of the `swerve/SwerveDrive.java` snapshot (`FirstDrive`) and of the `swerve/drive/SwerveDrive.java` snapshot (`EarlyDrive`) are not part of this model. Their methods are taken to be those of the swervelib `swerve.util.Vector`.
- The declaration of `Vector.fromPolarDegrees` is not part of this model. `FrcVector.FromPolarDegrees` takes its body from its name and from its callers in AutonDriveSimple and Odometry: the magnitude times the unit vector at that compass direction.
- Hardware readings are model state or parameters, so one call reads each value once. The Java reads the gyro and `getDirection` several times within one call.
- The gyro angle (`getGyroAngle`, `getAbsoluteGyroAngle`) is always a parameter. `resetGyro` is not modelled.
- `autoDrive` and `SwerveDrivingSpeeds` are not part of the shown sources. GyroSwerveDrive records each autoDrive call and keeps the two speeds as constants.
- AutonTurn's four-argument `inputDrive` is recorded as its steering value only, because the strafe it asks for is always zero.
- AutonTurn.AutonTurn.constructor: requires the turnSpeed check to pass. The throwing path is modelled by `AutonTurn.NewAutonTurn`.
- WPILib framework pieces are not modelled:
  - `SubsystemBase`, `CommandBase` scheduling and `addRequirements`;
  - `SequentialCommandGroup`;
  - `RobotDriveBase.feed` and `getDescription`;
  - `SendableBuilder` and `initSendable`.
- `m_maxOutput` and `m_deadband` start at RobotDriveBase's values, which are not in the sources. The `swerve.drive` constructors take them as parameters.
- Odometry's `swerveDrive` and wheel fields are replaced by a reading per wheel, passed to each method.
- `MovementManner` and `TurnManner` are not modelled: they delegate to a `proportionalSpeed` that the shown Manner lacks. `RobotMovement.NONE` is not modelled either.
- Manner's abstract `getSpeedSupplier` is not modelled. A `Manner.Manner` stores its supplier beside its margin. `getMarginOfError` and `getManner` are field reads of the datatypes.
- `FrameOfReference` is the datatype `RobotMovement.FrameOfReference`.
- AutonTurnAbs is not modelled: it takes the square root of negative errors.
- The command groups AutonWheelTurn, AutonDriveRel, AutonDriveAbs and AutonBodyTurnRel are not modelled; AutonBodyTurnAbs is not part of the sources.
- The AutoSwerveWheel and FESwerveWheel abstract getters are folded into the wheel classes as fields.
