/** The op mode itself: what one call of MainTeleOp.loop() sends to the motors
    and servos, and the object that keeps the arm-servo state between calls. */
module TeleOp {
  import opened InputScaler
  import opened ArmServos

  /** The gamepad snapshot loop() reads. */
  datatype Gamepad = Gamepad(leftStickY: real, rightStickY: real,
                             leftBumper: bool, rightBumper: bool, dpad: DPad)

  /** The values passed to setPower and setPosition in one call. */
  datatype Commands = Commands(
    leftMotor: real, rightMotor: real,
    armMotor1: real, armMotor2: real,
    lowerLeftServo: real, lowerRightServo: real,
    upperLeftServo: real, upperRightServo: real)

  /** Range.clip of the vendor library: `v` limited to [lo, hi]. */
  function Clip(v: real, lo: real, hi: real): (r: real)
    requires lo <= hi
    ensures lo <= r <= hi
    ensures lo <= v <= hi ==> r == v
    ensures v < lo ==> r == lo
    ensures hi < v ==> r == hi
  {
    if v < lo then lo else if v > hi then hi else v
  }

  /** A wheel's power: the stick clipped to [-1, 1], then scaled. */
  function WheelPower(stick: real): (p: real)
    ensures -1.0 <= p <= 1.0
    ensures -1.0 <= stick <= 1.0 ==> p == ScaleInput(stick)
  {
    ScaleInput(Clip(stick, -1.0, 1.0))
  }

  /** Past the ends of the axis the wheel gets full power in that direction. */
  lemma WheelPowerOutOfRange(stick: real)
    ensures 1.0 < stick ==> WheelPower(stick) == 1.0
    ensures stick < -1.0 ==> WheelPower(stick) == -1.0
  {
    ScaleInputExamples();
  }

  /** More stick never means less wheel power. */
  lemma WheelPowerMonotone(a: real, b: real)
    requires a <= b
    ensures WheelPower(a) <= WheelPower(b)
  {
    ScaleInputMonotone(Clip(a, -1.0, 1.0), Clip(b, -1.0, 1.0));
  }

  /** Lifter power: up for the left bumper (which wins when both are held),
      down for the right bumper alone, and off otherwise. */
  function LifterPower(leftBumper: bool, rightBumper: bool): (p: real)
    ensures (p == 1.0) <==> leftBumper
    ensures (p == -1.0) <==> !leftBumper && rightBumper
    ensures (p == 0.0) <==> !leftBumper && !rightBumper
  {
    if leftBumper then 1.0 else if rightBumper then -1.0 else 0.0
  }

  /** A position in hundredths as the servo's [0, 1] value. */
  function ServoValue(h: int): (v: real)
    ensures MinPos <= h <= MaxPos ==> 0.0 <= v <= 1.0
    ensures v * 100.0 == h as real
  {
    h as real / 100.0
  }

  /** The commands loop() sends for gamepad `pad` once the arm state is `s`. */
  function Outputs(pad: Gamepad, s: ArmState): (c: Commands)
    ensures c.leftMotor == WheelPower(pad.leftStickY) && c.rightMotor == WheelPower(pad.rightStickY)
    ensures -1.0 <= c.leftMotor <= 1.0 && -1.0 <= c.rightMotor <= 1.0
    ensures c.armMotor1 == c.armMotor2 == LifterPower(pad.leftBumper, pad.rightBumper)
    ensures c.lowerLeftServo == ServoValue(s.lowLeft) && c.upperLeftServo == ServoValue(s.upLeft)
    ensures c.lowerLeftServo + c.lowerRightServo == 1.0
    ensures c.upperLeftServo + c.upperRightServo == 1.0
    ensures InBounds(s) ==>
      0.0 <= c.lowerLeftServo <= 1.0 && 0.0 <= c.lowerRightServo <= 1.0 &&
      0.0 <= c.upperLeftServo <= 1.0 && 0.0 <= c.upperRightServo <= 1.0
  {
    var lifter := LifterPower(pad.leftBumper, pad.rightBumper);
    var low := ServoValue(s.lowLeft);
    var up := ServoValue(s.upLeft);
    Commands(WheelPower(pad.leftStickY), WheelPower(pad.rightStickY),
             lifter, lifter, low, 1.0 - low, up, 1.0 - up)
  }

  /** The op mode's state between calls of loop(). */
  class MainTeleOp {
    var lowLeftPosition: int
    var upLeftPosition: int
    var nextTick: int

    function State(): ArmState
      reads this
    {
      ArmState(lowLeftPosition, upLeftPosition, nextTick)
    }

    ghost predicate Valid()
      reads this
    {
      InBounds(State())
    }

    /** Both positions at the midpoint, the timer at the construction time. */
    constructor (now: int)
      ensures Valid()
      ensures State() == Initial(now)
    {
      lowLeftPosition := StartPos;
      upLeftPosition := StartPos;
      nextTick := now;
    }

    /** The four d-pad branches of loop(), tested one after another against
        the timer as each previous branch left it. */
    method Tick(now: int, pad: DPad)
      requires Valid()
      modifies this
      ensures Valid()
      ensures State() == Step(old(State()), now, pad)
    {
      if pad.down {
        if lowLeftPosition > MinPos && now >= nextTick {
          lowLeftPosition := lowLeftPosition - Increment;
          nextTick := now + TickInc;
        }
      }
      if pad.up {
        if lowLeftPosition < MaxPos && now >= nextTick {
          lowLeftPosition := lowLeftPosition + Increment;
          nextTick := now + TickInc;
        }
      }
      if pad.left {
        if upLeftPosition > MinPos && now >= nextTick {
          upLeftPosition := upLeftPosition - Increment;
          nextTick := now + TickInc;
        }
      }
      if pad.right {
        if upLeftPosition < MaxPos && now >= nextTick {
          upLeftPosition := upLeftPosition + Increment;
          nextTick := now + TickInc;
        }
      }
    }

    /** One call of loop(): steps the arm servos, then returns what is sent to
        the wheels, the lifter and the four servos. */
    method Loop(now: int, pad: Gamepad) returns (c: Commands)
      requires Valid()
      modifies this
      ensures Valid()
      ensures State() == Step(old(State()), now, pad.dpad)
      ensures c == Outputs(pad, State())
    {
      var left := WheelPower(pad.leftStickY);
      var right := WheelPower(pad.rightStickY);
      var lifter := LifterPower(pad.leftBumper, pad.rightBumper);
      Tick(now, pad.dpad);
      var low := ServoValue(lowLeftPosition);
      var up := ServoValue(upLeftPosition);
      c := Commands(left, right, lifter, lifter, low, 1.0 - low, up, 1.0 - up);
    }
  }
}
