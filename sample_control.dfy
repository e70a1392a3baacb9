/**
 * The sample control system: it coordinates the linear slide, the arm and the
 * intake.  Discrete modes write fixed (slide, arm) target pairs; a reach
 * percentage is turned into slide, arm and wrist targets through the
 * geometry of a pivot at a fixed height with a telescoping link.
 *
 * LinearSlide, Arm and the wrist interface of the intake are classes that are
 * not part of this model.  Only their target and activity state is kept, and
 * their constants are symbolic.  Math.sqrt, Math.atan and Math.toDegrees are
 * floating-point library calls, kept uninterpreted.
 */
module SampleControl {
  import opened Wrappers
  import Intake

  type PositiveReal = r: real | r > 0.0 witness 1.0

  /** `LinearSlide.MAX_EXTENSION_DISTANCE`, in millimetres (the code divides by 10 for centimetres). */
  const MaxExtensionDistance: PositiveReal
  /** `LinearSlide.SLIDE_HEIGHT_MOVING`, `LinearSlide.SLIDE_HEIGHT_SCORING`. */
  const SlideHeightMoving: real
  const SlideHeightScoring: real
  /** `Arm.ARM_ROTATION_MOVING`, `ARM_ROTATION_SCORING`, `ARM_ROTATION_INTAKE` and the hang presets. */
  const ArmRotationMoving: real
  const ArmRotationScoring: real
  const ArmRotationIntake: real
  const ArmRotationHangSetup: real
  const ArmRotationHangGrab: real
  const ArmRotationHangPull: real
  /** `Intake.WRIST_POSITION_MOVING`, `Intake.WRIST_POSITION_DEACTIVATED`. */
  const WristPositionMoving: real
  const WristPositionDeactivated: real

  /** Height of the arm's axle above the ground, in centimetres. */
  const ArmBaseHeight: real := 31.2

  /** Math.sqrt, Math.atan, Math.toDegrees: uninterpreted. */
  const Sqrt: real -> real
  const Atan: real -> real
  const ToDegrees: real -> real

  /** The maximum extension in centimetres. */
  function MaxExtensionCm(): (r: real)
    ensures r > 0.0
  {
    MaxExtensionDistance / 10.0
  }

  /** `MAX_TARGET_DISTANCE`: the horizontal reach of the fully extended slide. */
  function MaxTargetDistance(): real
  {
    Sqrt(MaxExtensionCm() * MaxExtensionCm() - ArmBaseHeight * ArmBaseHeight)
  }

  /** `setSlideTarget`: the slide length reaching `distance`, as a fraction of the maximum extension. */
  function SlideTarget(distance: real): (r: real)
    ensures r * MaxExtensionCm() == Sqrt(ArmBaseHeight * ArmBaseHeight + distance * distance)
  {
    var length := Sqrt(ArmBaseHeight * ArmBaseHeight + distance * distance);
    var c := MaxExtensionCm();
    assert (length / c) * c == length;
    length / c
  }

  /** The elevation of the reach line seen from the axle's foot, in degrees. */
  function ReachAngle(distance: real): real
  {
    ToDegrees(Atan(distance / ArmBaseHeight))
  }

  /** `setArmAngle`: the arm rotation, measured from the upright position. */
  function ArmAngle(distance: real): (r: real)
    ensures r + 90.0 == ReachAngle(distance)
  {
    ReachAngle(distance) - 90.0
  }

  /** `setWristRotation`: the wrist rotation that keeps the intake pointing at the ground. */
  function WristRotation(distance: real): (r: real)
    ensures r + ReachAngle(distance) == 180.0
    ensures r + ArmAngle(distance) == 90.0
  {
    180.0 - ReachAngle(distance)
  }

  /** The three targets `setTargetDistance` writes for a reach percentage. */
  datatype KinematicTargets = KinematicTargets(slide: real, arm: real, wristDegrees: real)

  /**
   * `setTargetDistance`: the distance is the percentage of the maximum reach;
   * the slide target scaled back to centimetres is the hypotenuse over the
   * axle; arm and wrist angles are complementary to 90 degrees.
   */
  function TargetsFor(percent: real): (t: KinematicTargets)
    ensures var distance := MaxTargetDistance() * percent;
            t.slide * MaxExtensionCm() == Sqrt(ArmBaseHeight * ArmBaseHeight + distance * distance)
    ensures t.arm + t.wristDegrees == 90.0
    ensures t.arm + 90.0 == ReachAngle(MaxTargetDistance() * percent)
  {
    var distance := MaxTargetDistance() * percent;
    assert SlideTarget(distance) * MaxExtensionCm() == Sqrt(ArmBaseHeight * ArmBaseHeight + distance * distance);
    assert distance * distance == (MaxTargetDistance() * percent) * (MaxTargetDistance() * percent);
    KinematicTargets(SlideTarget(distance), ArmAngle(distance), WristRotation(distance))
  }

  /** An arm target: relative to the calibrated zero (`setTargetRotation`) or absolute. */
  datatype ArmTarget = Relative(degrees: real) | Absolute(degrees: real)

  /** The last wrist command given through the intake's wrist interface. */
  datatype WristCommand = NoWristCommand | MoveTo(position: real) | RotateToDegrees(degrees: real)

  /** The linear slide, as far as this model sees it: its target height. */
  class LinearSlide {
    var targetHeight: real

    constructor (targetHeight: real)
      ensures this.targetHeight == targetHeight
    {
      this.targetHeight := targetHeight;
    }

    method SetTargetHeight(height: real)
      modifies this
      ensures targetHeight == height
    {
      targetHeight := height;
    }
  }

  /** The arm, as far as this model sees it: its target and whether it is active. */
  class Arm {
    var target: ArmTarget
    var active: bool

    constructor (target: ArmTarget, active: bool)
      ensures this.target == target && this.active == active
    {
      this.target := target;
      this.active := active;
    }

    method SetTargetRotation(degrees: real)
      modifies this
      ensures target == Relative(degrees) && active == old(active)
    {
      target := Relative(degrees);
    }

    method SetTargetRotationAbsolute(degrees: real)
      modifies this
      ensures target == Absolute(degrees) && active == old(active)
    {
      target := Absolute(degrees);
    }

    method IsActive() returns (r: bool)
      ensures r == active
    {
      r := active;
    }

    method Activate()
      modifies this
      ensures active && target == old(target)
    {
      active := true;
    }

    method Deactivate()
      modifies this
      ensures !active && target == old(target)
    {
      active := false;
    }

    /** Reads the position switch; the reading itself comes from the hardware. */
    method MonitorPositionSwitch(switchReading: bool) returns (fired: bool)
      ensures fired == switchReading
    {
      fired := switchReading;
    }
  }

  /** The wrist interface of the intake: the last wrist command and whether wrist control is active. */
  class WristControl {
    var command: WristCommand
    var active: bool

    constructor (command: WristCommand, active: bool)
      ensures this.command == command && this.active == active
    {
      this.command := command;
      this.active := active;
    }

    method MoveWristTo(position: real)
      modifies this
      ensures command == MoveTo(position) && active == old(active)
    {
      command := MoveTo(position);
    }

    method RotateWristToDegrees(degrees: real)
      modifies this
      ensures command == RotateToDegrees(degrees) && active == old(active)
    {
      command := RotateToDegrees(degrees);
    }

    method SetWristActive(on: bool)
      modifies this
      ensures active == on && command == old(command)
    {
      active := on;
    }
  }

  /** Everything the coordinator and the tele-op program command. */
  datatype ControlState = ControlState(
    inIntakeMode: bool,
    slideTarget: real,
    armTarget: ArmTarget,
    armActive: bool,
    wrist: WristCommand,
    wristActive: bool,
    servos: Intake.ServoState)

  /** `setToIntakeMode` on the state. */
  function IntakeMode(s: ControlState): ControlState
  {
    s.(inIntakeMode := true, slideTarget := SlideHeightMoving, armTarget := Relative(ArmRotationMoving))
  }

  /** `setToMovingMode` on the state. */
  function MovingMode(s: ControlState): ControlState
  {
    s.(inIntakeMode := false, slideTarget := SlideHeightMoving, armTarget := Relative(ArmRotationMoving))
  }

  /** `setToScoringMode` on the state. */
  function ScoringMode(s: ControlState): ControlState
  {
    s.(inIntakeMode := false, slideTarget := SlideHeightScoring, armTarget := Relative(ArmRotationScoring))
  }

  /** `setTargetDistance` on the state. */
  function TargetDistance(s: ControlState, percent: real): ControlState
  {
    var t := TargetsFor(percent);
    s.(slideTarget := t.slide, armTarget := Relative(t.arm), wrist := RotateToDegrees(t.wristDegrees))
  }

  /** `startSystem` on the state. */
  function SystemStarted(s: ControlState): ControlState
  {
    s.(slideTarget := SlideHeightMoving, armTarget := Relative(ArmRotationMoving),
       servos := Intake.HoldingWrist(s.servos))
  }

  /** `intakeGrab`, `intakeEject`, `intakeSettle` on the state. */
  function IntakePower(s: ControlState, p: real): ControlState
  {
    s.(servos := Intake.WithIntakePower(s.servos, p))
  }

  class SampleControlSystem {
    const slide: LinearSlide
    const arm: Arm
    const intake: Intake.Intake
    const wrist: WristControl
    var inIntakeMode: bool

    ghost const Repr: set<object>

    ghost predicate Valid()
    {
      intake.Valid() &&
      Repr == {this, slide, arm, wrist} + intake.Repr
    }

    function State(): ControlState
      requires Valid()
      reads Repr
    {
      ControlState(inIntakeMode, slide.targetHeight, arm.target, arm.active,
                   wrist.command, wrist.active, intake.Servos())
    }

    /** The collaborators are given; the system starts outside intake mode. */
    constructor (slide: LinearSlide, arm: Arm, intake: Intake.Intake, wrist: WristControl)
      requires intake.Valid()
      ensures Valid() && !inIntakeMode
      ensures this.slide == slide && this.arm == arm && this.intake == intake && this.wrist == wrist
    {
      this.slide := slide;
      this.arm := arm;
      this.intake := intake;
      this.wrist := wrist;
      inIntakeMode := false;
      Repr := {this, slide, arm, wrist} + intake.Repr;
    }

    method SetToIntakeMode()
      requires Valid()
      modifies this, slide, arm
      ensures State() == IntakeMode(old(State()))
    {
      inIntakeMode := true;
      slide.SetTargetHeight(SlideHeightMoving);
      arm.SetTargetRotation(ArmRotationMoving);
    }

    method IsInIntakeMode() returns (r: bool)
      requires Valid()
      ensures r == State().inIntakeMode
    {
      r := inIntakeMode;
    }

    method SetToMovingMode()
      requires Valid()
      modifies this, slide, arm
      ensures State() == MovingMode(old(State()))
    {
      inIntakeMode := false;
      slide.SetTargetHeight(SlideHeightMoving);
      arm.SetTargetRotation(ArmRotationMoving);
    }

    method SetToScoringMode()
      requires Valid()
      modifies this, slide, arm
      ensures State() == ScoringMode(old(State()))
    {
      inIntakeMode := false;
      slide.SetTargetHeight(SlideHeightScoring);
      arm.SetTargetRotation(ArmRotationScoring);
    }

    method SetTargetDistance(distancePercent: real)
      requires Valid()
      modifies slide, arm, wrist
      ensures State() == TargetDistance(old(State()), distancePercent)
    {
      var distance := MaxTargetDistance() * distancePercent;
      slide.SetTargetHeight(SlideTarget(distance));
      arm.SetTargetRotation(ArmAngle(distance));
      wrist.RotateWristToDegrees(WristRotation(distance));
    }

    /** The backup wrist command for when wrist feedback is unreliable: a fixed 150 degrees. */
    method SetWristRotationOffset()
      requires Valid()
      modifies wrist
      ensures State() == old(State()).(wrist := RotateToDegrees(150.0))
    {
      wrist.RotateWristToDegrees(150.0);
    }

    method IntakeGrab()
      requires Valid()
      modifies intake.Repr
      ensures State() == IntakePower(old(State()), Intake.ServoSpeed)
    {
      intake.Grab();
    }

    method IntakeEject()
      requires Valid()
      modifies intake.Repr
      ensures State() == IntakePower(old(State()), -Intake.ServoSpeed)
    {
      intake.Eject();
    }

    method IntakeSettle()
      requires Valid()
      modifies intake.Repr
      ensures State() == IntakePower(old(State()), 0.0)
    {
      intake.Settle();
    }

    method StartSystem()
      requires Valid()
      modifies slide, arm, intake.Repr
      ensures State() == SystemStarted(old(State()))
    {
      slide.SetTargetHeight(SlideHeightMoving);
      arm.SetTargetRotation(ArmRotationMoving);
      intake.HoldWristRotation();
    }
  }

  /** Intake and moving mode write the same targets and differ only in the flag. */
  lemma IntakeAndMovingDifferOnlyInFlag(s: ControlState)
    ensures IntakeMode(s) == MovingMode(s).(inIntakeMode := true)
    ensures IntakeMode(s).inIntakeMode && !MovingMode(s).inIntakeMode
  {
  }

  /** Each preset setter is idempotent, and a later preset overrides an earlier one. */
  lemma PresetsIdempotent(s: ControlState)
    ensures IntakeMode(IntakeMode(s)) == IntakeMode(s)
    ensures MovingMode(MovingMode(s)) == MovingMode(s)
    ensures ScoringMode(ScoringMode(s)) == ScoringMode(s)
    ensures MovingMode(ScoringMode(s)) == MovingMode(s) && ScoringMode(MovingMode(s)) == ScoringMode(s)
    ensures MovingMode(IntakeMode(s)) == MovingMode(s) && IntakeMode(MovingMode(s)) == IntakeMode(s)
    ensures ScoringMode(IntakeMode(s)) == ScoringMode(s) && IntakeMode(ScoringMode(s)) == IntakeMode(s)
  {
  }

  /** The presets touch only the flag and the (slide, arm) targets. */
  lemma PresetsFrame(s: ControlState)
    ensures IntakeMode(s).(inIntakeMode := s.inIntakeMode, slideTarget := s.slideTarget, armTarget := s.armTarget) == s
    ensures MovingMode(s).(inIntakeMode := s.inIntakeMode, slideTarget := s.slideTarget, armTarget := s.armTarget) == s
    ensures ScoringMode(s).(inIntakeMode := s.inIntakeMode, slideTarget := s.slideTarget, armTarget := s.armTarget) == s
  {
  }

  /**
   * `setTargetDistance` keeps the mode, the activity flags and the intake
   * servos, and leaves arm and wrist complementary to 90 degrees.
   */
  lemma TargetDistanceKeepsMode(s: ControlState, percent: real)
    ensures TargetDistance(s, percent).inIntakeMode == s.inIntakeMode
    ensures TargetDistance(s, percent).armActive == s.armActive
    ensures TargetDistance(s, percent).wristActive == s.wristActive
    ensures TargetDistance(s, percent).servos == s.servos
    ensures TargetDistance(s, percent).armTarget.degrees + TargetDistance(s, percent).wrist.degrees == 90.0
  {
  }

  /** `startSystem` holds the wrist and sets the moving presets without touching the mode flag. */
  lemma StartSystemKeepsMode(s: ControlState)
    ensures SystemStarted(s).inIntakeMode == s.inIntakeMode
    ensures SystemStarted(s) == MovingMode(s).(inIntakeMode := s.inIntakeMode, servos := Intake.HoldingWrist(s.servos))
  {
  }
}
