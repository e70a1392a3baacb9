# Arm and intake control of an FTC robot, modelled in Dafny

This project models the part of the robot's tele-op code that decides what
the slide, the arm, the wrist and the intake servos are told to do:

- **The availability wrapper** (`ConditionalHardwareDevice`, module
  `ConditionalHardware`, file `conditional_hardware.dfy`). It is an immutable
  value holding a device that may be absent and an `available` flag that
  always agrees with it. Acquisition goes through a registry lookup and a
  `getConnectionInfo` probe. A throwable whose class is exactly
  `IllegalArgumentException` becomes an unavailable wrapper. Every other
  throwable is passed on unchanged, subclasses included. `runIfAvailable`,
  `requireDevice`, `equals` and `hashCode` are modelled as functions. Java
  object identity, which `equals` and `hashCode` fall back on, is an explicit
  `ref` field. The side effects of `runIfAvailable` branches are modelled as
  transformations of a state.
- **The intake** (`Intake`, file `intake.dfy`). It is a class over three
  wrappers: two continuous-rotation servos and a wrist servo. The servos are
  heap objects whose power, direction and position the methods change in
  place. Each method is proved against a function on `ServoState`, the
  commanded state of the devices that are present. That function touches
  only present devices.
- **The sample control system** (`SampleControl`, file `sample_control.dfy`).
  It is a class with the `inIntakeMode` flag, and it holds the slide, the arm,
  the intake and the intake's wrist interface. The mode setters write fixed
  (slide, arm) targets. `setTargetDistance` turns a reach percentage into
  slide, arm and wrist targets. In that computation `Math.sqrt`, `Math.atan`
  and `Math.toDegrees` stay uninterpreted. Only algebraic facts are proved,
  for example arm angle + wrist angle = 90 degrees.
- **The tele-op control tick** (`TeleOp`, file `teleop.dfy`). `TeleOpMain`
  has methods for `loop`, `start`, `activateArm` and `deactivateArm`. Each
  one is proved against a pure function of the commanded state
  (`Tick`, `Started`, `Activated`, `Deactivated`). Lemmas then state the
  button priorities, the end-of-tick rule, and an invariant that every run of
  ticks keeps: the arm and the wrist are active together.

LinearSlide, Arm and the intake's wrist interface (`rotateWristToDegrees`,
`moveWristTo`, `setWristActive`) belong to classes that are not part of this
model. Here they are small classes that only record the last target and the
active flag. Their constants (`SLIDE_HEIGHT_MOVING`, `ARM_ROTATION_INTAKE`,
the hang presets, `WRIST_POSITION_*`, `MAX_EXTENSION_DISTANCE`) are symbolic.
`MAX_EXTENSION_DISTANCE` is only assumed to be positive.

Four facts about the code shape the model:

- In `loop`, the tick's `activateArm` flag starts out true. Only the final
  `else` clears it, the branch where neither intake mode nor a dpad preset
  applies. So a tick in intake mode also activates the arm unless `y` is
  pressed (`TeleOp.ActivationRule`).
- The stick mapping `-(stick_y + 1) * 0.5` gives reach percentages in
  [-1, 0]. `setTargetDistance` never checks that `distancePercent` lies in
  [0, 1].
- `setTargetDistance` neither rejects a reach above some limit nor clamps it
  to a minimum. The arm angle it computes is not checked against a range.
- `TeleOpMain` uses `arm`, `slide` and `intake` without declaring them. They
  are taken to be the arm, slide and wrist interface that the sample control
  system drives.

## Model

| member | source | states |
|---|---|---|
| ConditionalHardware.Make | TeamCode/src/main/java/org/firstinspires/ftc/teamcode/hardware/ConditionalHardwareDevice.java:30-33 | a wrapper is available exactly when it holds a device; the fields are fixed at construction |
| ConditionalHardware.Attempt | TeamCode/src/main/java/org/firstinspires/ftc/teamcode/hardware/ConditionalHardwareDevice.java:43-64 | the try block succeeds exactly when the lookup the device kind selects returns a device and its connection probe returns; a failing lookup is passed through, and so is the throwable of a failing probe |
| ConditionalHardware.TryGetHardwareDevice | TeamCode/src/main/java/org/firstinspires/ftc/teamcode/hardware/ConditionalHardwareDevice.java:43-75 | acquisition throws exactly when the attempt threw something whose class is not exactly IllegalArgumentException, and then throws that same throwable; otherwise the wrapper is valid, has the new identity, and is available holding the looked-up device exactly when the attempt succeeded; a probe that throws exactly IllegalArgumentException gives an unavailable wrapper and any other probe throwable escapes unchanged |
| ConditionalHardware.RequireDevice | TeamCode/src/main/java/org/firstinspires/ftc/teamcode/hardware/ConditionalHardwareDevice.java:90-92 | returns the held device exactly when the wrapper is available, and otherwise fails with a NullPointerException |
| ConditionalHardware.RunIfAvailable | TeamCode/src/main/java/org/firstinspires/ftc/teamcode/hardware/ConditionalHardwareDevice.java:107-114 | exactly one branch takes effect: the runnable on the device when available, the fallback when not |
| ConditionalHardware.RunIfAvailableOrSkip | TeamCode/src/main/java/org/firstinspires/ftc/teamcode/hardware/ConditionalHardwareDevice.java:98-100 | the one-argument form applies the consumer to the device when available and leaves the state unchanged otherwise |
| ConditionalHardware.UnavailableRunsOnlyFallback | TeamCode/src/main/java/org/firstinspires/ftc/teamcode/hardware/ConditionalHardwareDevice.java:107-114 | over any number of ticks, an unavailable wrapper gives the same state as running only the fallback; the primary branch never has an effect |
| ConditionalHardware.UnavailableSkipsForever | TeamCode/src/main/java/org/firstinspires/ftc/teamcode/hardware/ConditionalHardwareDevice.java:98-100 | over any number of ticks, the one-argument form on an unavailable wrapper leaves the state as it was |
| ConditionalHardware.Equals | TeamCode/src/main/java/org/firstinspires/ftc/teamcode/hardware/ConditionalHardwareDevice.java:116-132 | only another wrapper can be equal; a wrapper equals itself; a distinct wrapper is equal iff both are available and hold equal devices |
| ConditionalHardware.HashCode | TeamCode/src/main/java/org/firstinspires/ftc/teamcode/hardware/ConditionalHardwareDevice.java:134-140 | the identity hash of an unavailable wrapper, the device's hash of an available one |
| ConditionalHardware.EqualsRules | TeamCode/src/main/java/org/firstinspires/ftc/teamcode/hardware/ConditionalHardwareDevice.java:116-132 | a wrapper equals itself; two distinct wrappers are unequal if either is unavailable; two distinct available wrappers are equal iff their devices are; null and other classes are never equal |
| ConditionalHardware.EqualsConsistentWithHash | TeamCode/src/main/java/org/firstinspires/ftc/teamcode/hardware/ConditionalHardwareDevice.java:116-140 | when one identity means one wrapper, equals is symmetric and equal wrappers have equal hash codes (identity hash when unavailable, device hash when available) |
| Intake.Intake.constructor | TeamCode/src/main/java/org/firstinspires/ftc/teamcode/modules/Intake.java:42-51 | the right servo is reversed only if present; its power and the other devices are unchanged |
| Intake.Intake.IsConnected | TeamCode/src/main/java/org/firstinspires/ftc/teamcode/modules/Intake.java:58-61 | the intake is connected iff it commands at least one device, that is, iff some one of the three servos is available |
| Intake.Intake.EnsureSafety | TeamCode/src/main/java/org/firstinspires/ftc/teamcode/modules/Intake.java:69-73 | afterwards every present intake servo has power 0 and a present wrist is at 0.55 |
| Intake.Intake.Eject | TeamCode/src/main/java/org/firstinspires/ftc/teamcode/modules/Intake.java:79-86 | every present intake servo gets power -0.5; nothing else changes |
| Intake.Intake.Grab | TeamCode/src/main/java/org/firstinspires/ftc/teamcode/modules/Intake.java:92-99 | every present intake servo gets power +0.5; missing servos, directions and the wrist are unchanged |
| Intake.Intake.Settle | TeamCode/src/main/java/org/firstinspires/ftc/teamcode/modules/Intake.java:104-111 | every present intake servo gets power 0; nothing else changes |
| Intake.Intake.Turn | TeamCode/src/main/java/org/firstinspires/ftc/teamcode/modules/Intake.java:116-124 | a present wrist toggles between 0.0 and 0.5 and keeps any other position; the intake servos are unchanged |
| Intake.Intake.HoldWristRotation | TeamCode/src/main/java/org/firstinspires/ftc/teamcode/modules/Intake.java:129-131 | a present wrist goes to 0.55; nothing else changes |
| Intake.WithIntakePowerFrame | TeamCode/src/main/java/org/firstinspires/ftc/teamcode/modules/Intake.java:79-111 | a power command changes only the power of present intake servos: not their directions, not the wrist, not which devices are present |
| Intake.SettleIdempotent | TeamCode/src/main/java/org/firstinspires/ftc/teamcode/modules/Intake.java:104-111 | settling twice is settling once |
| Intake.LastPowerWins | TeamCode/src/main/java/org/firstinspires/ftc/teamcode/modules/Intake.java:79-111 | grab, eject and settle each override the previous power command |
| Intake.TurnPositionToggles | TeamCode/src/main/java/org/firstinspires/ftc/teamcode/modules/Intake.java:116-124 | 0.0 goes to 0.5, 0.5 goes to 0.0, every other position stays |
| Intake.TurnTwiceRestores | TeamCode/src/main/java/org/firstinspires/ftc/teamcode/modules/Intake.java:116-124 | two turns give back the original state, from any wrist position |
| Intake.HoldThenTurnStays | TeamCode/src/main/java/org/firstinspires/ftc/teamcode/modules/Intake.java:116-131 | a held wrist is at 0.55, and a following turn leaves it there |
| Intake.MadeSafeIsSafe | TeamCode/src/main/java/org/firstinspires/ftc/teamcode/modules/Intake.java:69-73 | ensureSafety reaches the safe state from any state and leaves a safe state as it is |
| SampleControl.SlideTarget | TeamCode/src/main/java/org/firstinspires/ftc/teamcode/modules/SampleControlSystem.java:67-70 | the slide target scaled back by the extension in centimetres is the hypotenuse sqrt(H^2 + distance^2) |
| SampleControl.ArmAngle | TeamCode/src/main/java/org/firstinspires/ftc/teamcode/modules/SampleControlSystem.java:72-75 | the arm target is the reach angle atanDeg(distance / H) less 90 degrees |
| SampleControl.WristRotation | TeamCode/src/main/java/org/firstinspires/ftc/teamcode/modules/SampleControlSystem.java:77-80 | the wrist angle and the reach angle sum to 180 degrees, so wrist and arm sum to 90 |
| SampleControl.TargetsFor | TeamCode/src/main/java/org/firstinspires/ftc/teamcode/modules/SampleControlSystem.java:58-80 | with distance = MAX_TARGET_DISTANCE * percent, the slide target times the extension in cm is sqrt(H^2 + distance^2); arm + wrist = 90 degrees; arm + 90 is the reach angle atanDeg(distance / H) |
| SampleControl.SampleControlSystem.constructor | TeamCode/src/main/java/org/firstinspires/ftc/teamcode/modules/SampleControlSystem.java:29-34 | the system holds its slide, arm and intake and starts outside intake mode |
| SampleControl.SampleControlSystem.SetToIntakeMode | TeamCode/src/main/java/org/firstinspires/ftc/teamcode/modules/SampleControlSystem.java:36-40 | sets the flag, the moving slide height and the moving arm rotation; nothing else changes |
| SampleControl.SampleControlSystem.IsInIntakeMode | TeamCode/src/main/java/org/firstinspires/ftc/teamcode/modules/SampleControlSystem.java:42-44 | returns the flag and changes nothing |
| SampleControl.SampleControlSystem.SetToMovingMode | TeamCode/src/main/java/org/firstinspires/ftc/teamcode/modules/SampleControlSystem.java:46-50 | clears the flag and sets the moving presets; nothing else changes |
| SampleControl.SampleControlSystem.SetToScoringMode | TeamCode/src/main/java/org/firstinspires/ftc/teamcode/modules/SampleControlSystem.java:52-56 | clears the flag and sets the scoring slide height and arm rotation; nothing else changes |
| SampleControl.SampleControlSystem.SetTargetDistance | TeamCode/src/main/java/org/firstinspires/ftc/teamcode/modules/SampleControlSystem.java:58-80 | writes the slide, arm and wrist targets computed from the percentage and leaves the mode flag, the activity flags and the intake servos alone |
| SampleControl.SampleControlSystem.SetWristRotationOffset | TeamCode/src/main/java/org/firstinspires/ftc/teamcode/modules/SampleControlSystem.java:85-87 | the backup wrist command is a fixed 150 degrees; nothing else changes |
| SampleControl.SampleControlSystem.IntakeGrab | TeamCode/src/main/java/org/firstinspires/ftc/teamcode/modules/SampleControlSystem.java:89-91 | only the intake servos change, to +0.5 where present |
| SampleControl.SampleControlSystem.IntakeEject | TeamCode/src/main/java/org/firstinspires/ftc/teamcode/modules/SampleControlSystem.java:93-95 | only the intake servos change, to -0.5 where present |
| SampleControl.SampleControlSystem.IntakeSettle | TeamCode/src/main/java/org/firstinspires/ftc/teamcode/modules/SampleControlSystem.java:97-99 | only the intake servos change, to 0 where present |
| SampleControl.SampleControlSystem.StartSystem | TeamCode/src/main/java/org/firstinspires/ftc/teamcode/modules/SampleControlSystem.java:105-109 | sets the moving presets and holds the wrist |
| SampleControl.IntakeAndMovingDifferOnlyInFlag | TeamCode/src/main/java/org/firstinspires/ftc/teamcode/modules/SampleControlSystem.java:36-50 | intake and moving mode write the same targets and differ only in the flag |
| SampleControl.PresetsIdempotent | TeamCode/src/main/java/org/firstinspires/ftc/teamcode/modules/SampleControlSystem.java:36-56 | each preset setter is idempotent, and for every pair of the three presets the later one decides the result |
| SampleControl.PresetsFrame | TeamCode/src/main/java/org/firstinspires/ftc/teamcode/modules/SampleControlSystem.java:36-56 | each of the three preset setters changes only the flag and the slide and arm targets |
| SampleControl.TargetDistanceKeepsMode | TeamCode/src/main/java/org/firstinspires/ftc/teamcode/modules/SampleControlSystem.java:58-80 | setTargetDistance keeps the mode flag, the activity flags and the servos, and the arm and wrist degrees it writes sum to 90 |
| SampleControl.StartSystemKeepsMode | TeamCode/src/main/java/org/firstinspires/ftc/teamcode/modules/SampleControlSystem.java:105-109 | startSystem is the moving preset plus a held wrist, with the mode flag unchanged |
| TeleOp.StickToPercent | TeamCode/src/main/java/org/firstinspires/ftc/teamcode/opmode/teleop/TeleOpMain.java:96-98 | a stick value in [-1, 1] gives a reach percentage in [-1, 0]; full forward gives 0, full back gives -1 |
| TeleOp.ArmDecision | TeamCode/src/main/java/org/firstinspires/ftc/teamcode/opmode/teleop/TeleOpMain.java:120-125 | deactivate iff y; activate iff not y and either the tick's activate flag is set or the position switch fired |
| TeleOp.TeleOpMain.ActivateArm | TeamCode/src/main/java/org/firstinspires/ftc/teamcode/opmode/teleop/TeleOpMain.java:132-138 | no-op on an active arm; otherwise arm and wrist become active |
| TeleOp.TeleOpMain.DeactivateArm | TeamCode/src/main/java/org/firstinspires/ftc/teamcode/opmode/teleop/TeleOpMain.java:139-148 | no-op on an inactive arm; otherwise moving slide height, intake arm rotation, deactivated wrist position, arm and wrist inactive |
| TeleOp.TeleOpMain.Start | TeamCode/src/main/java/org/firstinspires/ftc/teamcode/opmode/teleop/TeleOpMain.java:43-57 | start system, moving mode, absolute 20 degree arm target, then deactivate |
| TeleOp.TeleOpMain.IntakeButtons | TeamCode/src/main/java/org/firstinspires/ftc/teamcode/opmode/teleop/TeleOpMain.java:77-83 | left bumper grabs, else right bumper ejects, else the intake settles |
| TeleOp.TeleOpMain.ModeButtons | TeamCode/src/main/java/org/firstinspires/ftc/teamcode/opmode/teleop/TeleOpMain.java:86-94 | at most one mode setter runs, chosen by a over x over b |
| TeleOp.TeleOpMain.TargetingStep | TeamCode/src/main/java/org/firstinspires/ftc/teamcode/opmode/teleop/TeleOpMain.java:85-116 | intake mode follows the stick; otherwise the first dpad preset applies; the returned flag is false only when neither happened |
| TeleOp.TeleOpMain.ArmRule | TeamCode/src/main/java/org/firstinspires/ftc/teamcode/opmode/teleop/TeleOpMain.java:120-125 | applies the end-of-tick decision; the position switch is read only when y is up and the flag is clear |
| TeleOp.TeleOpMain.Loop | TeamCode/src/main/java/org/firstinspires/ftc/teamcode/opmode/teleop/TeleOpMain.java:60-130 | one tick changes the commanded state exactly as the tick function says |
| TeleOp.ModePriority | TeamCode/src/main/java/org/firstinspires/ftc/teamcode/opmode/teleop/TeleOpMain.java:86-94 | a pressed a hides x and b, a pressed x hides b, and a setter runs iff one of the three is pressed |
| TeleOp.PresetPriority | TeamCode/src/main/java/org/firstinspires/ftc/teamcode/opmode/teleop/TeleOpMain.java:99-113 | dpad up hides left and down, and left hides down |
| TeleOp.PresetTargets | TeamCode/src/main/java/org/firstinspires/ftc/teamcode/opmode/teleop/TeleOpMain.java:99-113 | each preset writes the moving slide height, the moving wrist position and its own hang arm angle, and keeps the mode flag and the arm and wrist activity flags |
| TeleOp.ActivationRules | TeamCode/src/main/java/org/firstinspires/ftc/teamcode/opmode/teleop/TeleOpMain.java:132-138 | activation is idempotent, does nothing to an active arm, and otherwise changes only the two activity flags, both to true |
| TeleOp.DeactivationRules | TeamCode/src/main/java/org/firstinspires/ftc/teamcode/opmode/teleop/TeleOpMain.java:139-148 | deactivation is idempotent, does nothing to an inactive arm, and otherwise parks slide, arm and wrist and clears both flags, keeping mode and servos |
| TeleOp.YDeactivates | TeamCode/src/main/java/org/firstinspires/ftc/teamcode/opmode/teleop/TeleOpMain.java:120-125 | with y pressed the arm ends the tick inactive whatever else is pressed, and parked if it was active |
| TeleOp.ActivationRule | TeamCode/src/main/java/org/firstinspires/ftc/teamcode/opmode/teleop/TeleOpMain.java:85-125 | without y the arm ends the tick active iff it was active, or the tick ends in intake mode, or a dpad preset was chosen, or the switch fired |
| TeleOp.ModePersists | TeamCode/src/main/java/org/firstinspires/ftc/teamcode/opmode/teleop/TeleOpMain.java:86-96 | without a mode button the intake-mode flag carries over to the next tick |
| TeleOp.IntakeModeIgnoresDpad | TeamCode/src/main/java/org/firstinspires/ftc/teamcode/opmode/teleop/TeleOpMain.java:96-116 | in intake mode the dpad buttons have no effect on the tick |
| TeleOp.IntakeModeFollowsStick | TeamCode/src/main/java/org/firstinspires/ftc/teamcode/opmode/teleop/TeleOpMain.java:96-125 | in intake mode without y the slide, arm and wrist targets are those of the stick's percentage and the arm ends active |
| TeleOp.TickPreservesAgreement | TeamCode/src/main/java/org/firstinspires/ftc/teamcode/opmode/teleop/TeleOpMain.java:132-148 | a tick keeps the arm and the wrist active together |
| TeleOp.RunPreservesAgreement | TeamCode/src/main/java/org/firstinspires/ftc/teamcode/opmode/teleop/TeleOpMain.java:60-148 | any run of ticks keeps the arm and the wrist active together |
| TeleOp.RunEndingWithYParks | TeamCode/src/main/java/org/firstinspires/ftc/teamcode/opmode/teleop/TeleOpMain.java:120-125 | any run of ticks whose last tick has y pressed leaves the arm inactive |
| TeleOp.StartParksArm | TeamCode/src/main/java/org/firstinspires/ftc/teamcode/opmode/teleop/TeleOpMain.java:43-57 | after start the mode is moving and the wrist held; an active arm is parked with the wrist, and an inactive one keeps the absolute 20 degree target |

## Left out

- The PIDF position controller and every `updateMotorPower(s)` call: they belong to the LinearSlide, Arm and PIDFDcMotor classes, which are not part of this model. Slide and arm targets are recorded, not driven.
- The Arm class's own behaviour: its queued and delayed transition, normalisation, and what `activate`, `deactivate` and `monitorPositionSwitch` do beyond the recorded flag. The Arm class is not part of this model. The position switch is an input of the tick. The first, discarded `monitorArmPositionSwitch` call at the top of `loop` is left out.
- The 40 ms `Thread.sleep` in `start` and the arm motor update before it: these are timing only.
- Opmode termination on guide/ps (`terminateOpModeNow`): it ends the op mode, so nothing after it in that tick or in later ticks would run. The model assumes termination is never requested in the ticks it models.
- Drivetrain calls, the gyro reset on back+start, and all telemetry and `log` methods: none of them change the modelled state.
- The division `LinearSlide.MAX_EXTENSION_DISTANCE / 10` is taken as exact real division. The constant's type is in a class that is not part of this model; an integer constant would truncate in Java.
- Numeric values of `Math.sqrt`, `Math.atan` and `Math.toDegrees`, and double rounding: these stay uninterpreted over unbounded reals, so no value, bound or monotonicity of the kinematics is proved.
- Reflection in acquisition (`PIDFDcMotor.class.isAssignableFrom`): it becomes the `DeviceKind` of the lookup. What `PIDFDcMotor.get` and `HardwareMap.get` return or throw is a parameter.
- The Java `assert device != null`: lookups return a device or throw, so a null device cannot arise in the model.
- Intake.Intake.constructor: requires the left and right servo wrappers, when both are available, to hold different devices. The Java constructor does not check this; it relies on the hardware map returning two devices for the two names. If both names gave one device, reversing the right servo would also reverse the left.
- Acquisition inside the Intake and SampleControlSystem constructors: the constructors take the acquired wrappers and collaborators as arguments. `TryGetHardwareDevice` models acquisition on its own.
- `ConditionalHardware.RunIfAvailable`: the Java consumers act on the heap; here their effect is a function on a state value, so aliasing between a consumer and the device is not modelled.
- The device `equals` is reference identity (Dafny `==` on the device value), the Java default for hardware devices.
- Servo range clipping in the FTC SDK: servo positions and powers are stored as commanded.
- The wrist interface that the sample control system and the tele-op program call (`rotateWristToDegrees`, `moveWristTo`, `setWristActive`) is not declared in the Intake class modelled here. It is a separate recorded command, so it is not connected to the wrist servo position that `turn` and `holdWristRotation` set.
