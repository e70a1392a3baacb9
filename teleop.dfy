/**
 * The tele-op program's control tick.  Each tick reads both gamepads: the
 * driver's bumpers run the intake; the operator's face buttons choose a mode,
 * the stick sets the reach in intake mode, the dpad picks a hang preset
 * otherwise, and `y` parks the arm.  At the end of the tick the arm is
 * activated or deactivated.
 *
 * The program's `arm`, `slide` and `intake` are taken to be the arm, slide and
 * wrist interface that the SampleControlSystem drives.
 */
module TeleOp {
  import opened Wrappers
  import Intake
  import opened SampleControl

  /** The buttons and the stick axis a tick reads from one gamepad. */
  datatype Gamepad = Gamepad(a: bool, b: bool, x: bool, y: bool,
                             dpadUp: bool, dpadLeft: bool, dpadDown: bool,
                             leftBumper: bool, rightBumper: bool, leftStickY: real)

  /** One tick's input: driver gamepad, operator gamepad, and the arm's position switch. */
  datatype TickInput = TickInput(gamepad1: Gamepad, gamepad2: Gamepad, positionSwitch: bool)

  /** The mode setters the face buttons select. */
  datatype ModeRequest = ToMoving | ToScoring | ToIntake

  /** The hang presets the dpad selects. */
  datatype HangPreset = HangSetup | HangGrab | HangPull

  /** What the end of the tick does to the arm. */
  datatype ArmAction = Deactivate | Activate | Keep

  /** The mode setter that runs this tick: `a` over `x` over `b`, at most one. */
  function SelectedMode(g: Gamepad): Option<ModeRequest>
  {
    if g.a then Some(ToMoving)
    else if g.x then Some(ToScoring)
    else if g.b then Some(ToIntake)
    else None
  }

  /** The hang preset chosen this tick: up over left over down. */
  function SelectedPreset(g: Gamepad): Option<HangPreset>
  {
    if g.dpadUp then Some(HangSetup)
    else if g.dpadLeft then Some(HangGrab)
    else if g.dpadDown then Some(HangPull)
    else None
  }

  function HangRotation(p: HangPreset): real
  {
    match p
    case HangSetup => ArmRotationHangSetup
    case HangGrab => ArmRotationHangGrab
    case HangPull => ArmRotationHangPull
  }

  /** In intake mode the operator's stick gives the reach percentage. */
  function StickToPercent(stickY: real): (percent: real)
    ensures -1.0 <= stickY <= 1.0 ==> -1.0 <= percent <= 0.0
    ensures stickY == -1.0 ==> percent == 0.0
    ensures stickY == 1.0 ==> percent == -1.0
  {
    -(stickY + 1.0) * 0.5
  }

  /**
   * The end-of-tick rule: `y` deactivates whatever else happened; otherwise
   * the arm is activated when the targeting step asked for it or the
   * position switch fired.
   */
  function ArmDecision(y: bool, activateArm: bool, positionSwitch: bool): (act: ArmAction)
    ensures act == Deactivate <==> y
    ensures act == Activate <==> !y && (activateArm || positionSwitch)
  {
    if y then Deactivate
    else if activateArm || positionSwitch then Activate
    else Keep
  }

  /** `activateArm`: guarded, so it does nothing to an active arm. */
  function Activated(s: ControlState): ControlState
  {
    if s.armActive then s else s.(armActive := true, wristActive := true)
  }

  /** `deactivateArm`: parks slide, arm and wrist, then deactivates; nothing to an inactive arm. */
  function Deactivated(s: ControlState): ControlState
  {
    if !s.armActive then s
    else s.(slideTarget := SlideHeightMoving, armTarget := Relative(ArmRotationIntake),
            wrist := MoveTo(WristPositionDeactivated), armActive := false, wristActive := false)
  }

  /** The driver's bumpers: left grabs, else right ejects, else the intake settles. */
  function IntakeCommand(s: ControlState, g1: Gamepad): ControlState
  {
    if g1.leftBumper then IntakePower(s, Intake.ServoSpeed)
    else if g1.rightBumper then IntakePower(s, -Intake.ServoSpeed)
    else IntakePower(s, 0.0)
  }

  /** The operator's face buttons. */
  function ModeCommand(s: ControlState, g2: Gamepad): ControlState
  {
    match SelectedMode(g2)
    case None => s
    case Some(ToMoving) => MovingMode(s)
    case Some(ToScoring) => ScoringMode(s)
    case Some(ToIntake) => IntakeMode(s)
  }

  /** A hang preset: slide at moving height, wrist at its moving position, the preset's arm angle. */
  function ApplyPreset(s: ControlState, p: HangPreset): ControlState
  {
    s.(slideTarget := SlideHeightMoving, armTarget := Relative(HangRotation(p)),
       wrist := MoveTo(WristPositionMoving))
  }

  /** Intake mode follows the stick; otherwise the dpad may pick a hang preset. */
  function Targeting(s: ControlState, g2: Gamepad): ControlState
  {
    if s.inIntakeMode then TargetDistance(s, StickToPercent(g2.leftStickY))
    else match SelectedPreset(g2)
      case Some(p) => ApplyPreset(s, p)
      case None => s
  }

  /** The tick's `activateArm` flag: cleared only when neither intake mode nor a preset set targets. */
  function ActivationRequested(s: ControlState, g2: Gamepad): bool
  {
    s.inIntakeMode || SelectedPreset(g2).Some?
  }

  function ArmStep(s: ControlState, act: ArmAction): ControlState
  {
    match act
    case Deactivate => Deactivated(s)
    case Activate => Activated(s)
    case Keep => s
  }

  /** One call of `loop`, on the state it commands. */
  function Tick(s: ControlState, i: TickInput): ControlState
  {
    var moded := ModeCommand(IntakeCommand(s, i.gamepad1), i.gamepad2);
    var targeted := Targeting(moded, i.gamepad2);
    ArmStep(targeted, ArmDecision(i.gamepad2.y, ActivationRequested(moded, i.gamepad2), i.positionSwitch))
  }

  /** `start`, without the pause: start the system, moving mode, an absolute 20 degree lift, then park. */
  function Started(s: ControlState): ControlState
  {
    Deactivated(MovingMode(SystemStarted(s)).(armTarget := Absolute(20.0)))
  }

  /** The ticks the host runs, in order. */
  function RunTicks(s: ControlState, inputs: seq<TickInput>): ControlState
    decreases |inputs|
  {
    if inputs == [] then s else RunTicks(Tick(s, inputs[0]), inputs[1..])
  }

  /** The arm and the wrist are active together. */
  predicate ArmWristAgree(s: ControlState)
  {
    s.armActive == s.wristActive
  }

  class TeleOpMain {
    const scs: SampleControlSystem

    ghost predicate Valid()
    {
      scs.Valid()
    }

    function State(): ControlState
      requires Valid()
      reads scs.Repr
    {
      scs.State()
    }

    constructor (scs: SampleControlSystem)
      requires scs.Valid()
      ensures Valid() && this.scs == scs
    {
      this.scs := scs;
    }

    method ActivateArm()
      requires Valid()
      modifies scs.arm, scs.wrist
      ensures State() == Activated(old(State()))
    {
      var active := scs.arm.IsActive();
      if active {
        return;
      }
      scs.arm.Activate();
      scs.wrist.SetWristActive(true);
    }

    method DeactivateArm()
      requires Valid()
      modifies scs.slide, scs.arm, scs.wrist
      ensures State() == Deactivated(old(State()))
    {
      var active := scs.arm.IsActive();
      if !active {
        return;
      }
      scs.slide.SetTargetHeight(SlideHeightMoving);
      scs.arm.SetTargetRotation(ArmRotationIntake);
      scs.wrist.MoveWristTo(WristPositionDeactivated);
      scs.arm.Deactivate();
      scs.wrist.SetWristActive(false);
    }

    method Start()
      requires Valid()
      modifies scs.Repr
      ensures State() == Started(old(State()))
    {
      scs.StartSystem();
      scs.SetToMovingMode();
      scs.arm.SetTargetRotationAbsolute(20.0);
      DeactivateArm();
    }

    /** The driver's bumpers. */
    method IntakeButtons(g1: Gamepad)
      requires Valid()
      modifies scs.intake.Repr
      ensures State() == IntakeCommand(old(State()), g1)
    {
      if g1.leftBumper {
        scs.IntakeGrab();
      } else if g1.rightBumper {
        scs.IntakeEject();
      } else {
        scs.IntakeSettle();
      }
    }

    /** The operator's face buttons. */
    method ModeButtons(g2: Gamepad)
      requires Valid()
      modifies scs, scs.slide, scs.arm
      ensures State() == ModeCommand(old(State()), g2)
    {
      if g2.a {
        scs.SetToMovingMode();
      } else if g2.x {
        scs.SetToScoringMode();
      } else if g2.b {
        scs.SetToIntakeMode();
      }
    }

    /** The stick in intake mode, the dpad presets otherwise; reports the tick's `activateArm` flag. */
    method TargetingStep(g2: Gamepad) returns (activateArm: bool)
      requires Valid()
      modifies scs.slide, scs.arm, scs.wrist
      ensures State() == Targeting(old(State()), g2)
      ensures activateArm == ActivationRequested(old(State()), g2)
    {
      activateArm := true;
      var intakeMode := scs.IsInIntakeMode();
      if intakeMode {
        scs.SetTargetDistance(StickToPercent(g2.leftStickY));
      } else if g2.dpadUp {
        scs.slide.SetTargetHeight(SlideHeightMoving);
        scs.arm.SetTargetRotation(ArmRotationHangSetup);
        scs.wrist.MoveWristTo(WristPositionMoving);
      } else if g2.dpadLeft {
        scs.slide.SetTargetHeight(SlideHeightMoving);
        scs.arm.SetTargetRotation(ArmRotationHangGrab);
        scs.wrist.MoveWristTo(WristPositionMoving);
      } else if g2.dpadDown {
        scs.slide.SetTargetHeight(SlideHeightMoving);
        scs.arm.SetTargetRotation(ArmRotationHangPull);
        scs.wrist.MoveWristTo(WristPositionMoving);
      } else {
        activateArm := false;
      }
    }

    /** The end-of-tick rule; the position switch is read only when nothing else decided. */
    method ArmRule(y: bool, activateArm: bool, positionSwitch: bool)
      requires Valid()
      modifies scs.slide, scs.arm, scs.wrist
      ensures State() == ArmStep(old(State()), ArmDecision(y, activateArm, positionSwitch))
    {
      if y {
        DeactivateArm();
      } else {
        var fired := activateArm;
        if !fired {
          fired := scs.arm.MonitorPositionSwitch(positionSwitch);
        }
        if fired {
          ActivateArm();
        }
      }
    }

    /** `loop`: one control tick. */
    method Loop(input: TickInput)
      requires Valid()
      modifies scs.Repr
      ensures State() == Tick(old(State()), input)
    {
      IntakeButtons(input.gamepad1);
      ModeButtons(input.gamepad2);
      var activateArm := TargetingStep(input.gamepad2);
      ArmRule(input.gamepad2.y, activateArm, input.positionSwitch);
    }
  }

  /** Mode buttons: a pressed `a` hides `x` and `b`, a pressed `x` hides `b`; some setter runs iff a button is down. */
  lemma ModePriority(g: Gamepad, x': bool, b': bool)
    ensures g.a ==> SelectedMode(g) == SelectedMode(g.(x := x', b := b')) == Some(ToMoving)
    ensures !g.a && g.x ==> SelectedMode(g) == SelectedMode(g.(b := b')) == Some(ToScoring)
    ensures SelectedMode(g).Some? <==> g.a || g.x || g.b
  {
  }

  /** Dpad presets: up hides left and down, left hides down. */
  lemma PresetPriority(g: Gamepad, left': bool, down': bool)
    ensures g.dpadUp ==> SelectedPreset(g) == SelectedPreset(g.(dpadLeft := left', dpadDown := down')) == Some(HangSetup)
    ensures !g.dpadUp && g.dpadLeft ==> SelectedPreset(g) == SelectedPreset(g.(dpadDown := down')) == Some(HangGrab)
    ensures SelectedPreset(g).Some? <==> g.dpadUp || g.dpadLeft || g.dpadDown
  {
  }

  /** Each preset writes the moving slide height, the moving wrist position and its own arm angle. */
  lemma PresetTargets(s: ControlState, p: HangPreset)
    ensures ApplyPreset(s, p).slideTarget == SlideHeightMoving
    ensures ApplyPreset(s, p).wrist == MoveTo(WristPositionMoving)
    ensures ApplyPreset(s, p).armTarget == Relative(HangRotation(p))
    ensures ApplyPreset(s, p).inIntakeMode == s.inIntakeMode && ApplyPreset(s, p).armActive == s.armActive
    ensures ApplyPreset(s, p).wristActive == s.wristActive
  {
  }

  /** Activation is a no-op on an active arm, and otherwise activates arm and wrist and nothing else. */
  lemma ActivationRules(s: ControlState)
    ensures Activated(s).armActive && Activated(Activated(s)) == Activated(s)
    ensures s.armActive ==> Activated(s) == s
    ensures !s.armActive ==> Activated(s).(armActive := false, wristActive := s.wristActive) == s
    ensures !s.armActive ==> Activated(s).wristActive
  {
  }

  /** Deactivation is a no-op on an inactive arm, and otherwise parks everything and deactivates. */
  lemma DeactivationRules(s: ControlState)
    ensures !Deactivated(s).armActive && Deactivated(Deactivated(s)) == Deactivated(s)
    ensures !s.armActive ==> Deactivated(s) == s
    ensures s.armActive ==> Deactivated(s).slideTarget == SlideHeightMoving
                            && Deactivated(s).armTarget == Relative(ArmRotationIntake)
                            && Deactivated(s).wrist == MoveTo(WristPositionDeactivated)
                            && !Deactivated(s).wristActive
                            && Deactivated(s).inIntakeMode == s.inIntakeMode
                            && Deactivated(s).servos == s.servos
  {
  }

  /** `y` wins: whatever else is pressed, the arm ends the tick inactive, parked if it was active. */
  lemma YDeactivates(s: ControlState, i: TickInput)
    requires i.gamepad2.y
    ensures !Tick(s, i).armActive
    ensures ArmWristAgree(s) ==> !Tick(s, i).wristActive
    ensures s.armActive ==> Tick(s, i).armTarget == Relative(ArmRotationIntake)
                            && Tick(s, i).slideTarget == SlideHeightMoving
                            && Tick(s, i).wrist == MoveTo(WristPositionDeactivated)
  {
  }

  /**
   * Without `y`, the arm ends the tick active exactly when it was active, or
   * intake mode or a dpad preset set targets, or the position switch fired.
   */
  lemma ActivationRule(s: ControlState, i: TickInput)
    requires !i.gamepad2.y
    ensures var moded := ModeCommand(IntakeCommand(s, i.gamepad1), i.gamepad2);
            Tick(s, i).armActive
            <==> s.armActive || moded.inIntakeMode || SelectedPreset(i.gamepad2).Some? || i.positionSwitch
  {
  }

  /** The mode flag persists across a tick in which no mode button is pressed. */
  lemma ModePersists(s: ControlState, i: TickInput)
    requires !i.gamepad2.a && !i.gamepad2.x && !i.gamepad2.b
    ensures Tick(s, i).inIntakeMode == s.inIntakeMode
  {
  }

  /** In intake mode the dpad is ignored for the whole tick. */
  lemma IntakeModeIgnoresDpad(s: ControlState, i: TickInput, up: bool, left: bool, down: bool)
    requires ModeCommand(IntakeCommand(s, i.gamepad1), i.gamepad2).inIntakeMode
    ensures Tick(s, i) == Tick(s, i.(gamepad2 := i.gamepad2.(dpadUp := up, dpadLeft := left, dpadDown := down)))
  {
  }

  /** In intake mode without `y`, the stick sets the reach and the arm ends the tick active. */
  lemma IntakeModeFollowsStick(s: ControlState, i: TickInput)
    requires ModeCommand(IntakeCommand(s, i.gamepad1), i.gamepad2).inIntakeMode && !i.gamepad2.y
    ensures var t := TargetsFor(StickToPercent(i.gamepad2.leftStickY));
            Tick(s, i).armTarget == Relative(t.arm) && Tick(s, i).wrist == RotateToDegrees(t.wristDegrees)
            && Tick(s, i).slideTarget == t.slide && Tick(s, i).armActive
  {
  }

  /** Every tick keeps the arm and the wrist active together. */
  lemma TickPreservesAgreement(s: ControlState, i: TickInput)
    requires ArmWristAgree(s)
    ensures ArmWristAgree(Tick(s, i))
  {
  }

  /** Any run of ticks keeps the arm and the wrist active together. */
  lemma {:induction false} RunPreservesAgreement(s: ControlState, inputs: seq<TickInput>)
    requires ArmWristAgree(s)
    ensures ArmWristAgree(RunTicks(s, inputs))
    decreases |inputs|
  {
    if inputs != [] {
      TickPreservesAgreement(s, inputs[0]);
      RunPreservesAgreement(Tick(s, inputs[0]), inputs[1..]);
    }
  }

  /** A run of ticks that ends with `y` pressed leaves the arm inactive. */
  lemma {:induction false} RunEndingWithYParks(s: ControlState, inputs: seq<TickInput>)
    requires inputs != [] && inputs[|inputs| - 1].gamepad2.y
    ensures !RunTicks(s, inputs).armActive
    decreases |inputs|
  {
    if |inputs| == 1 {
      YDeactivates(s, inputs[0]);
    } else {
      RunEndingWithYParks(Tick(s, inputs[0]), inputs[1..]);
    }
  }

  /**
   * `start` leaves moving mode selected and a held wrist; an arm that was
   * active is parked with the wrist, one already inactive keeps the absolute
   * 20 degree target.
   */
  lemma StartParksArm(s: ControlState)
    ensures !Started(s).inIntakeMode && !Started(s).armActive
    ensures Started(s).servos == Intake.HoldingWrist(s.servos)
    ensures s.armActive ==> Started(s).armTarget == Relative(ArmRotationIntake)
                            && !Started(s).wristActive && ArmWristAgree(Started(s))
    ensures !s.armActive ==> Started(s).armTarget == Absolute(20.0)
  {
  }
}
