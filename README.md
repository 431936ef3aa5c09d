# MainTeleOp: joystick scaling and rate-limited arm servos

A model of the teleoperated op mode `MainTeleOp` of an FTC robot. On every call
of `loop()` the op mode

- turns each vertical stick of the gamepad into a wheel power: the stick is
  clipped to [-1, 1] and passed through `scaleInput`, a 17-entry lookup curve
  that gives fine control near zero and full power near the ends;
- powers both lifter motors at 1.0 while the left bumper is held, otherwise at
  -1.0 while the right bumper is held, otherwise at 0.0;
- nudges two arm positions (the lower and the upper arm) by 0.01 while a d-pad
  direction is held (down/up for the lower arm, left/right for the upper one),
  never past 0 or 1 in exact arithmetic (see Floating point under Left out). After each nudge the next one has to wait 10 ms, and one
  timer is shared by all four directions;
- sends each arm position to one servo and its complement `1 - position` to the
  servo on the other side.

Modules:

- `JavaNumerics` (`java_numerics.dfy`): Java's `(int)` cast of a `double` and
  unary minus on `int`. Both are needed to model `scaleInput` as written.
- `InputScaler` (`input_scaler.dfy`): the curve, the index computation and
  `ScaleInput`, with its bounds, sign, odd symmetry, monotonicity and flat top.
  It also holds `SourceScaleInput`, the lookup in 32-bit arithmetic, and the
  finding below.
- `ArmServos` (`arm_servos.dfy`): the arm state (two positions in hundredths and
  the shared `nextTick`). `Step` is the specification of one call: the first
  enabled direction in the order down, up, left, right takes one step. `Run`
  applies a sequence of calls. The lemmas cover bounds, at most one step per
  call, the timer and the spacing of steps over a whole run.
- `TeleOp` (`teleop.dfy`): the per-call output mapping (`WheelPower`,
  `LifterPower`, `Outputs`) and the class `MainTeleOp`. Its fields
  `lowLeftPosition`, `upLeftPosition` and `nextTick` are updated in place by
  `Tick`, which is the four sequential d-pad branches of the source. `Tick` is
  proved equal to `Step`.

Modelling choices:

- Positions are integers counting hundredths: 0.5 is 50, `INCREMENT` is 1 and
  the bounds are 0 and 100. In exact arithmetic every reachable value is a
  whole number of hundredths.
- Axis values and powers are exact `real`s.
- The clock `System.currentTimeMillis()` becomes a parameter `now`, one value
  per call. The constructor takes the time at which the field `nextTick` is
  initialised.
- Range.clip comes from the vendor library and is not defined in this
  repository. `Clip` models it as clamping to [lo, hi].
- Holding down from 0.5 with calls at 0, 5, 10 and 20 ms steps at 0, 10 and
  20 ms, so the position ends at 0.47 (`ScenarioDownHeld`).

## Model

| member | source | states |
|---|---|---|
| JavaNumerics.TruncateTowardZero | ftc_app-2.2.1/TeamCode/src/main/java/org/firstinspires/ftc/teamcode/MainTeleOp.java:211 | the cast rounds toward zero: the result is within one of the input, on the same side of zero and not beyond it |
| JavaNumerics.DoubleToInt | ftc_app-2.2.1/TeamCode/src/main/java/org/firstinspires/ftc/teamcode/MainTeleOp.java:211 | `(int)` of a double always gives an int; inside the int range it truncates, below or above it saturates at the least or the greatest int |
| JavaNumerics.Negate | ftc_app-2.2.1/TeamCode/src/main/java/org/firstinspires/ftc/teamcode/MainTeleOp.java:214-216 | `-index` is an int congruent to minus the input modulo 2^32; it is negative only for a positive input or for the least int |
| InputScaler.CurveInUnit | ftc_app-2.2.1/TeamCode/src/main/java/org/firstinspires/ftc/teamcode/MainTeleOp.java:207-208 | the table has 17 entries, each in [0, 1] |
| InputScaler.CurveNonDecreasing | ftc_app-2.2.1/TeamCode/src/main/java/org/firstinspires/ftc/teamcode/MainTeleOp.java:207-208 | the table is non-decreasing for every pair of indices |
| InputScaler.ScaleIndex | ftc_app-2.2.1/TeamCode/src/main/java/org/firstinspires/ftc/teamcode/MainTeleOp.java:211-221 | truncating `x*16`, negating a negative result and clamping at 16 always gives an index in 0..16, and it equals min(floor(abs(x)*16), 16) |
| InputScaler.ScaleInput | ftc_app-2.2.1/TeamCode/src/main/java/org/firstinspires/ftc/teamcode/MainTeleOp.java:206-233 | every scaled value lies in [-1, 1] and has the sign of the input (non-negative for x >= 0, non-positive for x < 0) |
| InputScaler.ScaleInputExamples | ftc_app-2.2.1/TeamCode/src/main/java/org/firstinspires/ftc/teamcode/MainTeleOp.java:207-232 | 0 gives 0, 1 gives 1.00 (index 16), -1 gives -1.00, 0.5 gives 0.30 and -0.5 gives -0.30 |
| InputScaler.ScaleInputOdd | ftc_app-2.2.1/TeamCode/src/main/java/org/firstinspires/ftc/teamcode/MainTeleOp.java:211-229 | odd symmetry: scaling -x gives minus the scaling of x, for every x |
| InputScaler.ScaleIndexMonotone | ftc_app-2.2.1/TeamCode/src/main/java/org/firstinspires/ftc/teamcode/MainTeleOp.java:211-221 | a larger magnitude gets the same or a later index |
| InputScaler.ScaleInputMonotone | ftc_app-2.2.1/TeamCode/src/main/java/org/firstinspires/ftc/teamcode/MainTeleOp.java:207-229 | scaling is non-decreasing over all inputs, because the table is non-decreasing and the sign goes on after the lookup |
| InputScaler.ScaleInputSaturates | ftc_app-2.2.1/TeamCode/src/main/java/org/firstinspires/ftc/teamcode/MainTeleOp.java:207-221 | from magnitude 15/16 on the output is full power, 1 or -1 by sign, since the last two table entries are both 1.00 |
| InputScaler.SourceIndex | ftc_app-2.2.1/TeamCode/src/main/java/org/firstinspires/ftc/teamcode/MainTeleOp.java:211-221 | the index as written in 32-bit int arithmetic (saturating cast, wrapping negation, clamp at 16): never above 16, and negative only as the least int |
| InputScaler.SourceScaleInput | ftc_app-2.2.1/TeamCode/src/main/java/org/firstinspires/ftc/teamcode/MainTeleOp.java:206-233 | scaleInput as written: `Power` of the table entry, negated for a negative input, which lies in [-1, 1], or `IndexOutOfBounds(i)` (the ArrayIndexOutOfBoundsException), which happens only at the least int |
| InputScaler.SourceScaleInputAgrees | ftc_app-2.2.1/TeamCode/src/main/java/org/firstinspires/ftc/teamcode/MainTeleOp.java:211-232 | for every input above -2^27 the lookup in 32-bit int arithmetic yields exactly the value of ScaleInput |
| InputScaler.SourceScaleInputOverflows | ftc_app-2.2.1/TeamCode/src/main/java/org/firstinspires/ftc/teamcode/MainTeleOp.java:211-221 | for every input at or below -2^27 the 32-bit index is the least int, so the array access is out of bounds |
| InputScaler.SourceScaleInputCounterexample | ftc_app-2.2.1/TeamCode/src/main/java/org/firstinspires/ftc/teamcode/MainTeleOp.java:211-228 | the input -134217728.0 indexes out of bounds while its mirror image 134217728.0 gives 1.00 |
| ArmServos.Initial | ftc_app-2.2.1/TeamCode/src/main/java/org/firstinspires/ftc/teamcode/MainTeleOp.java:61-67 | both positions start equal, at the midpoint of [MINPOS, MAXPOS], and the timer starts at the construction time |
| ArmServos.Fired | ftc_app-2.2.1/TeamCode/src/main/java/org/firstinspires/ftc/teamcode/MainTeleOp.java:168-191 | the direction that steps in a call: when there is one it is enabled (its button held, its position short of the bound it moves toward, `now >= nextTick`); there is none exactly when no direction is enabled; the first enabled direction in the order down, up, left, right wins |
| ArmServos.Apply | ftc_app-2.2.1/TeamCode/src/main/java/org/firstinspires/ftc/teamcode/MainTeleOp.java:168-191 | one step: the moved position goes down (down, left) or up (up, right) by one hundredth, the other position is unchanged, and the timer restarts at `now + TICKINC` |
| ArmServos.Step | ftc_app-2.2.1/TeamCode/src/main/java/org/firstinspires/ftc/teamcode/MainTeleOp.java:168-191 | one call of the arm-servo part of loop(): the first enabled direction in the order down, up, left, right moves one hundredth and restarts the timer at `now + TICKINC`; so either nothing changes, or `now` had reached the timer and it becomes `now + TICKINC`, and at most one position changes |
| ArmServos.Run | ftc_app-2.2.1/TeamCode/src/main/java/org/firstinspires/ftc/teamcode/MainTeleOp.java:127-191 | successive loop() calls apply Step in order; the timer at the end is never earlier than at the start |
| ArmServos.StepInBounds | ftc_app-2.2.1/TeamCode/src/main/java/org/firstinspires/ftc/teamcode/MainTeleOp.java:168-191 | one call keeps both positions within [0, 100] hundredths |
| ArmServos.StepAtMostOne | ftc_app-2.2.1/TeamCode/src/main/java/org/firstinspires/ftc/teamcode/MainTeleOp.java:168-191 | a call changes the state exactly when some direction fires; then `now` had reached the timer, the timer becomes `now + TICKINC`, and exactly one position moves by exactly one increment while the other stays put |
| ArmServos.StepBlockedBeforeNextTick | ftc_app-2.2.1/TeamCode/src/main/java/org/firstinspires/ftc/teamcode/MainTeleOp.java:168-191 | when `now < nextTick` the call changes nothing, whatever is held |
| ArmServos.StepPriority | ftc_app-2.2.1/TeamCode/src/main/java/org/firstinspires/ftc/teamcode/MainTeleOp.java:168-191 | a direction fires if and only if it is enabled (held, room to move, timer elapsed) and no direction earlier in the order down, up, left, right is enabled |
| ArmServos.StepSuppressesOthers | ftc_app-2.2.1/TeamCode/src/main/java/org/firstinspires/ftc/teamcode/MainTeleOp.java:169-190 | after a step, a call less than TICKINC ms later changes nothing, for either position and any buttons: the timer is shared |
| ArmServos.StepNextTickGrows | ftc_app-2.2.1/TeamCode/src/main/java/org/firstinspires/ftc/teamcode/MainTeleOp.java:168-191 | a call never moves the timer backwards |
| ArmServos.RunInBounds | ftc_app-2.2.1/TeamCode/src/main/java/org/firstinspires/ftc/teamcode/MainTeleOp.java:168-191 | over any sequence of calls, positions that start within bounds stay within bounds |
| ArmServos.RunFromInitialInBounds | ftc_app-2.2.1/TeamCode/src/main/java/org/firstinspires/ftc/teamcode/MainTeleOp.java:61-66 | starting from the midpoint, both positions stay within [MINPOS, MAXPOS] over any sequence of calls |
| ArmServos.RunNextTickGrows | ftc_app-2.2.1/TeamCode/src/main/java/org/firstinspires/ftc/teamcode/MainTeleOp.java:168-191 | over a run, the timer after any prefix is no later than the timer at the end |
| ArmServos.FiringsSpaced | ftc_app-2.2.1/TeamCode/src/main/java/org/firstinspires/ftc/teamcode/MainTeleOp.java:64-191 | in any run, two calls that both step are at least TICKINC ms apart, even if the clock readings are not monotonic |
| ArmServos.ScenarioDownHeld | ftc_app-2.2.1/TeamCode/src/main/java/org/firstinspires/ftc/teamcode/MainTeleOp.java:168-173 | with down held from 0.5 and calls at 0, 5, 10 and 20 ms, the call at 5 is suppressed and the position ends at 0.47 with the timer at 30 |
| ArmServos.ScenarioAtLowerBound | ftc_app-2.2.1/TeamCode/src/main/java/org/firstinspires/ftc/teamcode/MainTeleOp.java:168-173 | at position 0, holding down changes nothing, not even the timer |
| TeleOp.Clip | ftc_app-2.2.1/TeamCode/src/main/java/org/firstinspires/ftc/teamcode/MainTeleOp.java:140 | the clipped stick lies in [lo, hi]: unchanged inside, the nearer bound outside |
| TeleOp.WheelPower | ftc_app-2.2.1/TeamCode/src/main/java/org/firstinspires/ftc/teamcode/MainTeleOp.java:139-146 | wheel power lies in [-1, 1] and, for a stick inside [-1, 1], equals scaleInput of the stick |
| TeleOp.WheelPowerOutOfRange | ftc_app-2.2.1/TeamCode/src/main/java/org/firstinspires/ftc/teamcode/MainTeleOp.java:139-146 | a stick beyond 1 gives full power 1, below -1 full power -1 |
| TeleOp.WheelPowerMonotone | ftc_app-2.2.1/TeamCode/src/main/java/org/firstinspires/ftc/teamcode/MainTeleOp.java:139-146 | wheel power never decreases as the stick value grows |
| TeleOp.LifterPower | ftc_app-2.2.1/TeamCode/src/main/java/org/firstinspires/ftc/teamcode/MainTeleOp.java:152-164 | power is 1.0 exactly when the left bumper is held (taking precedence), -1.0 exactly when only the right one is, 0.0 exactly when neither is |
| TeleOp.ServoValue | ftc_app-2.2.1/TeamCode/src/main/java/org/firstinspires/ftc/teamcode/MainTeleOp.java:192-195 | a position in hundredths is its value times 100, and an in-bounds position is a servo value in [0, 1] |
| TeleOp.Outputs | ftc_app-2.2.1/TeamCode/src/main/java/org/firstinspires/ftc/teamcode/MainTeleOp.java:139-195 | wheels get WheelPower of their sticks, both lifter motors get the same LifterPower, the left servos get the positions, and each servo pair sums to exactly 1, all servo values lying in [0, 1] when the state is in bounds |
| TeleOp.MainTeleOp.constructor | ftc_app-2.2.1/TeamCode/src/main/java/org/firstinspires/ftc/teamcode/MainTeleOp.java:65-67 | the fields start at the initial arm state for the construction time |
| TeleOp.MainTeleOp.Tick | ftc_app-2.2.1/TeamCode/src/main/java/org/firstinspires/ftc/teamcode/MainTeleOp.java:168-191 | the four sequential d-pad branches update the fields exactly as Step says (first enabled direction fires), and the positions stay in bounds |
| TeleOp.MainTeleOp.Loop | ftc_app-2.2.1/TeamCode/src/main/java/org/firstinspires/ftc/teamcode/MainTeleOp.java:127-197 | one call of loop() steps the arm state as Step says and returns exactly the commands Outputs gives for the new state |

## Left out

- Telemetry (`telemetry.addData`) in `init()` and `loop()`: display output only. `init()` also reads servo port numbers before the servos are looked up, which is a null dereference with no logic to model.
- Hardware handles: the `hardwareMap` lookups, `setDirection`, `setPower` and `setPosition` are calls into the vendor library. The model produces the values that would be passed to them (`Commands`).
- `ElapsedTime runtime` and `start()`: they only feed telemetry. `init_loop()` and `stop()` are empty.
- `System.currentTimeMillis()`: replaced by a parameter `now`, one value per call. The source reads the clock up to eight times per call; that drift is not modelled.
- Floating point: the source's `double` positions and `float` stick values are modelled as exact hundredths and exact reals. Repeated subtraction of 0.01 in binary floating point may not land exactly on 0.0, so the source's positions are not exact hundredths: 50 subtractions from 0.5 end just below 0 and 50 additions just above 1, and the steps taken are the same as in hundredths (the reachable doubles are one per hundredth); only the values sent to `setPosition` differ, slightly below 0 and above 1 at the bounds. NaN and infinite inputs to `scaleInput` are not modelled: in the source a +Infinity stick value gives index 16, and -Infinity throws, as inputs at or below -2^27 do.
- `long` overflow of `nextTick + TICKINC` is not modelled: clock values are unbounded integers.

## Findings

| source | as written | input that shows it | evidently intended | confidence | as-written member | corrected member |
|---|---|---|---|---|---|---|
| ftc_app-2.2.1/TeamCode/src/main/java/org/firstinspires/ftc/teamcode/MainTeleOp.java:211-226 | `(int)(dVal * 16.0)` saturates at `Integer.MIN_VALUE` for `dVal <= -2^27`; `index = -index` wraps back to `Integer.MIN_VALUE`, which passes the `> 16` check, and `scaleArray[index]` is then out of bounds | `scaleInput(-134217728.0)` (while `scaleInput(134217728.0)` returns 1.00) | the index is always the magnitude bucket clamped to 0..16, as the comment "index should be positive" says | not executed; unreachable from `loop()`, which clips the stick to [-1, 1] first | InputScaler.SourceScaleInputCounterexample | InputScaler.ScaleIndex |
