/** The motion tick `modulateStepper`: at most one step per call, kept within the
    travel `[0, maxPositionInt]`. Direction 1 is clockwise and counts the
    position up; direction 2 is counter-clockwise and counts it down. */
module Motion {

  /** The fields `modulateStepper` reads and writes. */
  datatype MotionState = MotionState(position: int, maxPosition: int, steps: int, direction: int, done: bool)

  /** The coil step a tick takes. */
  datatype Turn = NoTurn | Clockwise | CounterClockwise

  /** The three guards under which a tick may step: at zero heading up, at the
      maximum heading down, or strictly inside the travel. */
  predicate MayMove(m: MotionState) {
    (m.position == 0 && m.direction == 1)
    || (m.position == m.maxPosition && m.direction == 2)
    || (m.position < m.maxPosition && m.position > 0)
  }

  /** The step a tick takes: one step in the requested direction when it may move
      and steps remain; none otherwise, and none for a direction other than 1 or 2. */
  function TurnOf(m: MotionState): Turn {
    if MayMove(m) && m.steps > 0 then
      if m.direction == 1 then Clockwise
      else if m.direction == 2 then CounterClockwise
      else NoTurn
    else NoTurn
  }

  /** A tick finishes the motion: outside the three guards, or with no steps
      left. */
  predicate Stops(m: MotionState) {
    !MayMove(m) || m.steps <= 0
  }

  /** One `modulateStepper` call. With `stepsInt <= 0`, or outside the three
      guards, it finishes (`done` is set and Done goes HIGH); with an unknown
      direction and steps left it does nothing. */
  function Tick(m: MotionState): MotionState {
    if Stops(m) then m.(done := true)
    else if m.direction == 1 then m.(steps := m.steps - 1, position := m.position + 1)
    else if m.direction == 2 then m.(steps := m.steps - 1, position := m.position - 1)
    else m
  }

  /** `n` calls of `run()` while CmdReady reads HIGH: each one ticks unless the
      motion is already done, and then changes nothing. */
  function Drive(m: MotionState, n: nat): MotionState
    decreases n
  {
    if n == 0 || m.done then m else Drive(Tick(m), n - 1)
  }

  /** A tick with direction 1 or 2 does exactly one of two things, and never
      changes the maximum or the direction: it steps (one fewer step, the
      position one on in the direction of travel, `done` as before) or it
      finishes (only `done` changes, and it becomes true). */
  lemma TickOutcome(m: MotionState)
    requires m.direction == 1 || m.direction == 2
    ensures Tick(m).maxPosition == m.maxPosition && Tick(m).direction == m.direction
    ensures TurnOf(m) != NoTurn ==>
      Tick(m).steps == m.steps - 1 && Tick(m).done == m.done
      && Tick(m).position == m.position + (if m.direction == 1 then 1 else -1)
    ensures TurnOf(m) == NoTurn ==> Tick(m) == m.(done := true)
    ensures TurnOf(m) == Clockwise <==> MayMove(m) && m.steps > 0 && m.direction == 1
  {
  }

  /** With an unknown direction and steps left under one of the three guards,
      a tick neither steps nor finishes; so every later tick does the same, and
      the motion never becomes done however long `run()` is called. */
  lemma {:induction false} TickIdlesOnUnknownDirection(m: MotionState, n: nat)
    requires MayMove(m) && m.steps > 0 && m.direction != 1 && m.direction != 2
    ensures Tick(m) == m && !Stops(m) && TurnOf(m) == NoTurn
    ensures Drive(m, n) == m
    decreases n
  {
    if n > 0 && !m.done {
      TickIdlesOnUnknownDirection(m, n - 1);
    }
  }

  /** The travel of a tick within a range of at least one step. */
  predicate InRange(m: MotionState) {
    0 <= m.position <= m.maxPosition
  }

  /** With a travel of at least one step, a tick never leaves it. */
  lemma TickKeepsRange(m: MotionState)
    requires 1 <= m.maxPosition && InRange(m)
    ensures InRange(Tick(m))
  {
  }

  /** With `maxPositionInt == 0` the inward-step guards still let a tick move off
      zero, to 1 or to -1: the range is kept only for a travel of one step or more. */
  lemma ZeroTravelEscapes(m: MotionState)
    requires m.maxPosition == 0 && m.position == 0 && m.steps > 0
    requires m.direction == 1 || m.direction == 2
    ensures Tick(m).position == (if m.direction == 1 then 1 else -1)
    ensures !InRange(Tick(m))
  {
  }

  /** A position already outside a travel `[0, max]` with `max >= 0` only
      finishes the motion. */
  lemma TickOutsideRangeStops(m: MotionState)
    requires 0 <= m.maxPosition && !InRange(m)
    ensures Tick(m) == m.(done := true)
    ensures TurnOf(m) == NoTurn
  {
  }

  /** A motion a mark-2 command can start: inside a travel of at least one step,
      a non-negative step count, direction 1 or 2, and not done. */
  predicate Startable(m: MotionState) {
    1 <= m.maxPosition && InRange(m) && 0 <= m.steps
    && (m.direction == 1 || m.direction == 2) && !m.done
  }

  /** The number of steps the motion takes before it finishes: all requested
      steps, unless the end of the travel comes first. */
  function Limit(m: MotionState): int {
    if m.direction == 1 then Min(m.steps, m.maxPosition - m.position)
    else Min(m.steps, m.position)
  }

  /** Where the motion ends: `min(p + s, max)` going up, `max(p - s, 0)` going down. */
  function FinalPosition(m: MotionState): int {
    if m.direction == 1 then Min(m.position + m.steps, m.maxPosition)
    else Max(m.position - m.steps, 0)
  }

  function Min(a: int, b: int): int { if a <= b then a else b }

  function Max(a: int, b: int): int { if a <= b then b else a }

  /** One step of a startable motion that still has steps to go leaves it startable. */
  lemma TickStartable(m: MotionState)
    requires Startable(m) && 0 < Limit(m)
    ensures Startable(Tick(m))
    ensures Limit(Tick(m)) == Limit(m) - 1
    ensures FinalPosition(Tick(m)) == FinalPosition(m)
    ensures Tick(m) == m.(steps := m.steps - 1, position := m.position + (if m.direction == 1 then 1 else -1))
  {
  }

  /** A startable motion with no steps to go finishes at once, in place. */
  lemma TickFinishes(m: MotionState)
    requires Startable(m) && Limit(m) == 0
    ensures Tick(m) == m.(done := true)
    ensures FinalPosition(m) == m.position
  {
  }

  /** During the first `Limit` calls the motion is still running, one step on
      per call. */
  lemma {:induction false} DriveMoves(m: MotionState, j: nat)
    requires Startable(m) && j <= Limit(m)
    ensures Drive(m, j) == m.(steps := m.steps - j, position := m.position + (if m.direction == 1 then j as int else -(j as int)))
    decreases j
  {
    if j > 0 {
      TickStartable(m);
      DriveMoves(Tick(m), j - 1);
    }
  }

  /** The clamp theorem: once more than `Limit` calls have been made, the motion
      is done at `min(p + s, max)` (direction 1) or `max(p - s, 0)` (direction 2),
      with the steps not taken left over, and further calls change nothing. */
  lemma {:induction false} DriveClamps(m: MotionState, n: nat)
    requires Startable(m) && Limit(m) < n
    ensures Drive(m, n) == m.(position := FinalPosition(m), steps := m.steps - Limit(m), done := true)
    decreases n
  {
    if Limit(m) == 0 {
      TickFinishes(m);
    } else {
      TickStartable(m);
      DriveClamps(Tick(m), n - 1);
    }
  }

  /** Ten steps up from position 95 of 100 stop at 100 with five steps left over. */
  lemma DriveClampsExample()
    ensures Drive(MotionState(95, 100, 10, 1, false), 6) == MotionState(100, 100, 5, 1, true)
  {
    DriveClamps(MotionState(95, 100, 10, 1, false), 6);
  }
}
