/**
 * The intake: two continuous-rotation servos that pull a game piece in or push
 * it out, and a positional wrist servo.  Each device sits behind a
 * ConditionalHardware wrapper, so every command reaches only the devices that
 * are present.
 */
module Intake {
  import opened Wrappers
  import opened ConditionalHardware

  /** Spin direction of a continuous-rotation servo. */
  datatype Direction = Forward | Reverse

  /** A continuous-rotation servo handle: the commanded power and direction. */
  class CRServo {
    var power: real
    var direction: Direction

    constructor (power: real, direction: Direction)
      ensures this.power == power && this.direction == direction
    {
      this.power := power;
      this.direction := direction;
    }
  }

  /** A positional servo handle: the commanded position. */
  class Servo {
    var position: real

    constructor (position: real)
      ensures this.position == position
    {
      this.position := position;
    }
  }

  /** Power of the intake servos (`SERVO_SPEED`). */
  const ServoSpeed: real := 0.5
  /** The wrist's default rotation, held when the intake is made safe. */
  const WristHoldPosition: real := 0.55

  /** The commanded state of one continuous-rotation servo. */
  datatype Spin = Spin(power: real, direction: Direction)

  /** The commanded state of every present intake device; None for a missing one. */
  datatype ServoState = ServoState(left: Option<Spin>, right: Option<Spin>, wrist: Option<real>)

  /** A present servo takes power `p`; a missing one stays missing. */
  function Powered(servo: Option<Spin>, p: real): Option<Spin>
  {
    match servo
    case Some(spin) => Some(spin.(power := p))
    case None => None
  }

  /** Every present intake servo runs at power `p`; directions and the wrist are untouched. */
  function WithIntakePower(s: ServoState, p: real): ServoState
  {
    s.(left := Powered(s.left, p), right := Powered(s.right, p))
  }

  /** The wrist toggle: 0.0 and 0.5 swap, every other position stays. */
  function TurnPosition(position: real): real
  {
    if position == 0.0 then 0.5
    else if position == 0.5 then 0.0
    else position
  }

  /** `turn` on the commanded state: only a present wrist moves. */
  function Turned(s: ServoState): ServoState
  {
    match s.wrist
    case Some(p) => s.(wrist := Some(TurnPosition(p)))
    case None => s
  }

  /** `holdWristRotation` on the commanded state. */
  function HoldingWrist(s: ServoState): ServoState
  {
    match s.wrist
    case Some(_) => s.(wrist := Some(WristHoldPosition))
    case None => s
  }

  /** The safe state: present intake servos stopped, a present wrist at its hold position. */
  predicate Safe(s: ServoState)
  {
    (s.left.Some? ==> s.left.value.power == 0.0) &&
    (s.right.Some? ==> s.right.value.power == 0.0) &&
    (s.wrist.Some? ==> s.wrist.value == WristHoldPosition)
  }

  /** `ensureSafety` on the commanded state. */
  function MadeSafe(s: ServoState): ServoState
  {
    HoldingWrist(WithIntakePower(s, 0.0))
  }

  /** The servo of a wrapper, as a set of zero or one heap objects. */
  function HeldSpin(w: Conditional<CRServo>): set<object>
  {
    if w.device.Some? then {w.device.value} else {}
  }

  function HeldServo(w: Conditional<Servo>): set<object>
  {
    if w.device.Some? then {w.device.value} else {}
  }

  class Intake {
    const intakeServoLeft: Conditional<CRServo>
    const intakeServoRight: Conditional<CRServo>
    const wristServo: Conditional<Servo>

    /** The device objects this module commands. */
    ghost const Repr: set<object>

    ghost predicate Valid()
    {
      intakeServoLeft.Valid() && intakeServoRight.Valid() && wristServo.Valid() &&
      (intakeServoLeft.available && intakeServoRight.available ==>
         intakeServoLeft.device.value != intakeServoRight.device.value) &&
      Repr == HeldSpin(intakeServoLeft) + HeldSpin(intakeServoRight) + HeldServo(wristServo)
    }

    /** The commanded state of the present devices. */
    function Servos(): ServoState
      requires Valid()
      reads Repr
    {
      ServoState(
        if intakeServoLeft.available then
          Some(Spin(intakeServoLeft.device.value.power, intakeServoLeft.device.value.direction))
        else None,
        if intakeServoRight.available then
          Some(Spin(intakeServoRight.device.value.power, intakeServoRight.device.value.direction))
        else None,
        if wristServo.available then Some(wristServo.device.value.position) else None)
    }

    /**
     * Takes the three acquired wrappers and reverses the right servo, when it
     * is present, so that both servos pull the same way.
     */
    constructor (left: Conditional<CRServo>, right: Conditional<CRServo>, wrist: Conditional<Servo>)
      requires left.Valid() && right.Valid() && wrist.Valid()
      requires left.available && right.available ==> left.device.value != right.device.value
      modifies HeldSpin(right)
      ensures Valid()
      ensures intakeServoLeft == left && intakeServoRight == right && wristServo == wrist
      ensures right.available ==> Servos().right == Some(old(Spin(right.device.value.power, Reverse)))
      ensures left.available ==> Servos().left == old(Some(Spin(left.device.value.power, left.device.value.direction)))
      ensures wrist.available ==> Servos().wrist == old(Some(wrist.device.value.position))
    {
      intakeServoLeft := left;
      intakeServoRight := right;
      wristServo := wrist;
      Repr := HeldSpin(left) + HeldSpin(right) + HeldServo(wrist);
      new;
      if right.available {
        right.device.value.direction := Reverse;
      }
    }

    /** `isConnected`: at least one of the three devices is present. */
    predicate IsConnected(): (r: bool)
      requires Valid()
      ensures r <==> Repr != {}
    {
      intakeServoLeft.available || intakeServoRight.available || wristServo.available
    }

    /** Sets every present intake servo to power `p`. */
    method SetIntakePower(p: real)
      requires Valid()
      modifies Repr
      ensures Servos() == WithIntakePower(old(Servos()), p)
    {
      if intakeServoLeft.available {
        intakeServoLeft.device.value.power := p;
      }
      if intakeServoRight.available {
        intakeServoRight.device.value.power := p;
      }
    }

    /** `eject`: push the held piece out. */
    method Eject()
      requires Valid()
      modifies Repr
      ensures Servos() == WithIntakePower(old(Servos()), -ServoSpeed)
    {
      SetIntakePower(-ServoSpeed);
    }

    /** `grab`: pull a piece in. */
    method Grab()
      requires Valid()
      modifies Repr
      ensures Servos() == WithIntakePower(old(Servos()), ServoSpeed)
    {
      SetIntakePower(ServoSpeed);
    }

    /** `settle`: stop both intake servos. */
    method Settle()
      requires Valid()
      modifies Repr
      ensures Servos() == WithIntakePower(old(Servos()), 0.0)
    {
      SetIntakePower(0.0);
    }

    /** `turn`: toggle the wrist between 0.0 and 0.5. */
    method Turn()
      requires Valid()
      modifies Repr
      ensures Servos() == Turned(old(Servos()))
    {
      if wristServo.available {
        var w := wristServo.device.value;
        if w.position == 0.0 {
          w.position := 0.5;
        } else if w.position == 0.5 {
          w.position := 0.0;
        }
      }
    }

    /** `holdWristRotation`: put the wrist at its default rotation. */
    method HoldWristRotation()
      requires Valid()
      modifies Repr
      ensures Servos() == HoldingWrist(old(Servos()))
    {
      if wristServo.available {
        wristServo.device.value.position := WristHoldPosition;
      }
    }

    /** `ensureSafety`: stop the intake and hold the wrist. */
    method EnsureSafety()
      requires Valid()
      modifies Repr
      ensures Servos() == MadeSafe(old(Servos()))
      ensures Safe(Servos())
    {
      Settle();
      HoldWristRotation();
      MadeSafeIsSafe(old(Servos()));
    }
  }

  /** Setting the intake power touches neither the wrist nor any missing servo, nor any direction. */
  lemma WithIntakePowerFrame(s: ServoState, p: real)
    ensures WithIntakePower(s, p).wrist == s.wrist
    ensures WithIntakePower(s, p).left.Some? == s.left.Some?
    ensures WithIntakePower(s, p).right.Some? == s.right.Some?
    ensures s.left.Some? ==> WithIntakePower(s, p).left == Some(Spin(p, s.left.value.direction))
    ensures s.right.Some? ==> WithIntakePower(s, p).right == Some(Spin(p, s.right.value.direction))
  {
  }

  /** `settle` twice is `settle` once. */
  lemma SettleIdempotent(s: ServoState)
    ensures WithIntakePower(WithIntakePower(s, 0.0), 0.0) == WithIntakePower(s, 0.0)
  {
  }

  /** The last power command wins: `grab` then `eject` is `eject`, and so on. */
  lemma LastPowerWins(s: ServoState, p: real, q: real)
    ensures WithIntakePower(WithIntakePower(s, p), q) == WithIntakePower(s, q)
  {
  }

  /** The toggle swaps 0.0 and 0.5 and fixes every other position. */
  lemma TurnPositionToggles(position: real)
    ensures position == 0.0 ==> TurnPosition(position) == 0.5
    ensures position == 0.5 ==> TurnPosition(position) == 0.0
    ensures position != 0.0 && position != 0.5 ==> TurnPosition(position) == position
  {
  }

  /** Two turns restore the wrist, whatever its position. */
  lemma TurnTwiceRestores(s: ServoState)
    ensures Turned(Turned(s)) == s
  {
  }

  /** A held wrist is outside the toggle, so a following `turn` leaves it at 0.55. */
  lemma HoldThenTurnStays(s: ServoState)
    ensures Turned(HoldingWrist(s)) == HoldingWrist(s)
    ensures s.wrist.Some? ==> HoldingWrist(s).wrist == Some(WristHoldPosition)
  {
  }

  /** `ensureSafety` reaches the safe state from any state, and a safe state is left as it is. */
  lemma MadeSafeIsSafe(s: ServoState)
    ensures Safe(MadeSafe(s))
    ensures Safe(s) ==> MadeSafe(s) == s
  {
  }
}
