/** The rate-limited arm-servo stepper of MainTeleOp.loop(): two servo positions,
    each nudged down or up by one increment while a d-pad direction is held, with
    one "next eligible time" shared by all four directions. Positions are counted
    in hundredths of the servo range, so the start value 0.5 and the increment
    0.01 are exact. */
module ArmServos {

  const MinPos: int := 0
  const MaxPos: int := 100
  /** One hundredth of the range: INCREMENT = 0.01. */
  const Increment: int := 1
  /** Milliseconds to wait after a step before the next one. */
  const TickInc: int := 10
  /** The midpoint (MAXPOS - MINPOS) / 2. */
  const StartPos: int := (MaxPos - MinPos) / 2

  /** The d-pad buttons of the gamepad snapshot. */
  datatype DPad = DPad(down: bool, up: bool, left: bool, right: bool)

  /** Down and up move the lower position, left and right the upper one;
      the order of the constructors is the order the source tests them in. */
  datatype Direction = Down | Up | Left | Right

  datatype Option<T> = None | Some(value: T)

  /** lowleftposition, upleftposition (in hundredths) and nextTick (ms). */
  datatype ArmState = ArmState(lowLeft: int, upLeft: int, nextTick: int)

  /** One call of the control loop: the clock reading and the d-pad. */
  datatype TickInput = TickInput(now: int, pad: DPad)

  predicate InBounds(s: ArmState) {
    MinPos <= s.lowLeft <= MaxPos && MinPos <= s.upLeft <= MaxPos
  }

  /** The state when the op mode is constructed at time `now`. */
  function Initial(now: int): (s: ArmState)
    ensures InBounds(s)
    ensures s.lowLeft == s.upLeft && s.lowLeft - MinPos == MaxPos - s.lowLeft
    ensures s.nextTick == now
  {
    ArmState(StartPos, StartPos, now)
  }

  predicate Held(pad: DPad, d: Direction) {
    match d
    case Down => pad.down
    case Up => pad.up
    case Left => pad.left
    case Right => pad.right
  }

  /** The position a direction moves. */
  function PositionOf(s: ArmState, d: Direction): int {
    if d == Down || d == Up then s.lowLeft else s.upLeft
  }

  /** Whether the position `d` moves may still move that way. */
  predicate HasRoom(s: ArmState, d: Direction) {
    if d == Down || d == Left then PositionOf(s, d) > MinPos else PositionOf(s, d) < MaxPos
  }

  /** A direction may step: its button is held, its position is not at the
      bound it moves toward, and the shared timer has run out. */
  predicate Enabled(s: ArmState, now: int, pad: DPad, d: Direction) {
    Held(pad, d) && HasRoom(s, d) && now >= s.nextTick
  }

  /** The direction that steps in this call, if any: the first enabled one in
      the order down, up, left, right. */
  function Fired(s: ArmState, now: int, pad: DPad): (r: Option<Direction>)
    ensures r.Some? ==> Enabled(s, now, pad, r.value)
    ensures r.None? <==> forall d :: !Enabled(s, now, pad, d)
  {
    if Enabled(s, now, pad, Down) then Some(Down)
    else if Enabled(s, now, pad, Up) then Some(Up)
    else if Enabled(s, now, pad, Left) then Some(Left)
    else if Enabled(s, now, pad, Right) then Some(Right)
    else None
  }

  /** One step in direction `d` at time `now`, restarting the shared timer. */
  function Apply(s: ArmState, d: Direction, now: int): (t: ArmState)
    ensures t.nextTick == now + TickInc
    ensures PositionOf(t, d) == PositionOf(s, d) + (if d == Down || d == Left then -Increment else Increment)
    ensures d == Down || d == Up ==> t.upLeft == s.upLeft
    ensures d == Left || d == Right ==> t.lowLeft == s.lowLeft
  {
    var t := s.(nextTick := now + TickInc);
    match d
    case Down => t.(lowLeft := s.lowLeft - Increment)
    case Up => t.(lowLeft := s.lowLeft + Increment)
    case Left => t.(upLeft := s.upLeft - Increment)
    case Right => t.(upLeft := s.upLeft + Increment)
  }

  /** The effect of one call of the arm-servo part of loop(). */
  function Step(s: ArmState, now: int, pad: DPad): (t: ArmState)
    ensures t == s || (now >= s.nextTick && t.nextTick == now + TickInc)
    ensures t.lowLeft == s.lowLeft || t.upLeft == s.upLeft
  {
    match Fired(s, now, pad)
    case None => s
    case Some(d) => Apply(s, d, now)
  }

  /** The state after a sequence of calls, the last one applied last. */
  function Run(s: ArmState, ticks: seq<TickInput>): (t: ArmState)
    ensures s.nextTick <= t.nextTick
    decreases |ticks|
  {
    if ticks == [] then s
    else
      var last := ticks[|ticks| - 1];
      Step(Run(s, ticks[..|ticks| - 1]), last.now, last.pad)
  }

  /** A step never leaves the bounds: it decrements only above the lower bound
      and increments only below the upper one. */
  lemma StepInBounds(s: ArmState, now: int, pad: DPad)
    requires InBounds(s)
    ensures InBounds(Step(s, now, pad))
  {
  }

  predicate OneIncrementApart(a: int, b: int) {
    a - b == Increment || b - a == Increment
  }

  /** Each call moves at most one position, by exactly one increment, and only
      then restarts the timer at `now + TickInc`; otherwise nothing changes. */
  lemma StepAtMostOne(s: ArmState, now: int, pad: DPad)
    ensures var t := Step(s, now, pad);
      (t == s <==> Fired(s, now, pad) == None) &&
      (t != s ==>
        now >= s.nextTick && t.nextTick == now + TickInc &&
        ((OneIncrementApart(t.lowLeft, s.lowLeft) && t.upLeft == s.upLeft) ||
         (t.lowLeft == s.lowLeft && OneIncrementApart(t.upLeft, s.upLeft))))
  {
  }

  /** Before the timer runs out no button does anything. */
  lemma StepBlockedBeforeNextTick(s: ArmState, now: int, pad: DPad)
    requires now < s.nextTick
    ensures Step(s, now, pad) == s
  {
  }

  /** The priority order: a direction steps exactly when it is enabled and no
      direction tested before it is. */
  lemma StepPriority(s: ArmState, now: int, pad: DPad, d: Direction)
    ensures Fired(s, now, pad) == Some(d) <==>
      Enabled(s, now, pad, d) &&
      (d != Down ==> !Enabled(s, now, pad, Down)) &&
      (d == Left || d == Right ==> !Enabled(s, now, pad, Up)) &&
      (d == Right ==> !Enabled(s, now, pad, Left))
  {
  }

  /** The shared timer: once any direction has stepped, no direction (of either
      position) can step again until TickInc milliseconds have passed. */
  lemma StepSuppressesOthers(s: ArmState, now1: int, pad1: DPad, now2: int, pad2: DPad)
    requires Fired(s, now1, pad1) != None
    requires now2 < now1 + TickInc
    ensures Step(Step(s, now1, pad1), now2, pad2) == Step(s, now1, pad1)
  {
  }

  /** The timer only moves forward: it is restarted only by a step, which
      happens only when `now` has reached it. */
  lemma StepNextTickGrows(s: ArmState, now: int, pad: DPad)
    ensures s.nextTick <= Step(s, now, pad).nextTick
  {
  }

  /** Both positions stay within bounds over any sequence of calls. */
  lemma {:induction false} RunInBounds(s: ArmState, ticks: seq<TickInput>)
    requires InBounds(s)
    ensures InBounds(Run(s, ticks))
    decreases |ticks|
  {
    if ticks != [] {
      var last := ticks[|ticks| - 1];
      RunInBounds(s, ticks[..|ticks| - 1]);
      StepInBounds(Run(s, ticks[..|ticks| - 1]), last.now, last.pad);
    }
  }

  /** In particular from the start position. */
  lemma RunFromInitialInBounds(now0: int, ticks: seq<TickInput>)
    ensures InBounds(Run(Initial(now0), ticks))
  {
    RunInBounds(Initial(now0), ticks);
  }

  /** The timer after a prefix of the calls is no later than after all of them. */
  lemma {:induction false} RunNextTickGrows(s: ArmState, ticks: seq<TickInput>, k: nat)
    requires k <= |ticks|
    ensures Run(s, ticks[..k]).nextTick <= Run(s, ticks).nextTick
    decreases |ticks|
  {
    assert ticks[..|ticks|] == ticks;
    if k < |ticks| {
      var init := ticks[..|ticks| - 1];
      var last := ticks[|ticks| - 1];
      assert init[..k] == ticks[..k];
      RunNextTickGrows(s, init, k);
      StepNextTickGrows(Run(s, init), last.now, last.pad);
    }
  }

  /** Whether call `i` of a sequence steps. */
  predicate FiresAt(s: ArmState, ticks: seq<TickInput>, i: nat)
    requires i < |ticks|
  {
    Fired(Run(s, ticks[..i]), ticks[i].now, ticks[i].pad) != None
  }

  /** The rate limit over a whole run: any two calls that step are at least
      TickInc milliseconds apart, whatever happened in between. */
  lemma FiringsSpaced(s: ArmState, ticks: seq<TickInput>, i: nat, j: nat)
    requires i < j < |ticks|
    requires FiresAt(s, ticks, i) && FiresAt(s, ticks, j)
    ensures ticks[j].now >= ticks[i].now + TickInc
  {
    var upto := ticks[..i + 1];
    assert upto[..i] == ticks[..i];
    assert Run(s, upto).nextTick == ticks[i].now + TickInc;
    assert ticks[..j][..i + 1] == upto;
    RunNextTickGrows(s, ticks[..j], i + 1);
  }

  /** Holding "down" from 0.5 with calls at 0, 5, 10 and 20 ms: the call at 5
      is suppressed, the other three step, leaving 0.47. */
  lemma ScenarioDownHeld()
    ensures var down := DPad(true, false, false, false);
      Run(Initial(0), [TickInput(0, down), TickInput(5, down), TickInput(10, down), TickInput(20, down)])
        == ArmState(47, StartPos, 30)
  {
    var down := DPad(true, false, false, false);
    var p1 := [TickInput(0, down)];
    var p2 := p1 + [TickInput(5, down)];
    var p3 := p2 + [TickInput(10, down)];
    var p4 := p3 + [TickInput(20, down)];
    assert p1[..0] == [] && p2[..1] == p1 && p3[..2] == p2 && p4[..3] == p3;
    assert Run(Initial(0), p1) == ArmState(49, StartPos, 10);
    assert Run(Initial(0), p2) == ArmState(49, StartPos, 10);
    assert Run(Initial(0), p3) == ArmState(48, StartPos, 20);
    assert Run(Initial(0), p4) == ArmState(47, StartPos, 30);
    assert p4 == [TickInput(0, down), TickInput(5, down), TickInput(10, down), TickInput(20, down)];
  }

  /** At the lower bound "down" does nothing, not even restart the timer. */
  lemma ScenarioAtLowerBound(now: int, nextTick: int, upLeft: int)
    requires now >= nextTick
    ensures Step(ArmState(MinPos, upLeft, nextTick), now, DPad(true, false, false, false))
      == ArmState(MinPos, upLeft, nextTick)
  {
  }
}
