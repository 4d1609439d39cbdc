/** The phase sequencer of the four-line unipolar coil driver. The coil state is
    the controller's mirror `isHigh_pin1..4` of the four driver lines. The next
    pattern is given here by an explicit table of the eight half-step patterns
    indexed by a phase counter; the class in lightning_stepper.dfy keeps the
    chain of conditionals of `stepCCW` and `stepCW` on the four lines and proves
    that it computes these functions. */
module Phase {

  datatype Coils = Coils(pin1: bool, pin2: bool, pin3: bool, pin4: bool)

  datatype Option<T> = None | Some(value: T)

  const A: Coils := Coils(true, false, false, false)
  const AB: Coils := Coils(true, true, false, false)
  const B: Coils := Coils(false, true, false, false)
  const BC: Coils := Coils(false, true, true, false)
  const C: Coils := Coils(false, false, true, false)
  const CD: Coils := Coils(false, false, true, true)
  const D: Coils := Coils(false, false, false, true)
  const DA: Coils := Coils(true, false, false, true)
  /** All four lines low: the state at power-up. */
  const Off: Coils := Coils(false, false, false, false)

  /** The half-step table `A, AB, B, BC, C, CD, D, DA`, in the order `stepCCW`
      visits it. The odd entries are the four double-coil patterns. */
  function Pattern(i: int): Coils
    requires 0 <= i < 8
  {
    if i == 0 then A else if i == 1 then AB else if i == 2 then B else if i == 3 then BC
    else if i == 4 then C else if i == 5 then CD else if i == 6 then D else DA
  }

  /** The phase counter of a pattern, when it is one of the table's. */
  function PhaseOf(c: Coils): (r: Option<nat>)
    ensures r.Some? ==> r.value < 8 && Pattern(r.value) == c
  {
    if c == A then Some(0)
    else if c == AB then Some(1)
    else if c == B then Some(2)
    else if c == BC then Some(3)
    else if c == C then Some(4)
    else if c == CD then Some(5)
    else if c == D then Some(6)
    else if c == DA then Some(7)
    else None
  }

  /** The counter reached by one counter-clockwise step from phase `i`: one place
      on for `stepKind == 8`; for `stepKind == 4`, the next double-coil entry
      after `i`. */
  function CcwIndex(i: nat, kind: int): (j: nat)
    requires i < 8
    ensures j < 8
  {
    if kind == 8 then (if i == 7 then 0 else i + 1)
    else if i == 7 then 1 else if i % 2 == 0 then i + 1 else i + 2
  }

  /** The counter reached by one clockwise step from phase `i`: one place back,
      or the double-coil entry before `i`. */
  function CwIndex(i: nat, kind: int): (j: nat)
    requires i < 8
    ensures j < 8
  {
    if kind == 8 then (if i == 0 then 7 else i - 1)
    else if i <= 1 then 7 else if i % 2 == 0 then i - 1 else i - 2
  }

  /** The pattern `stepCCW` leaves: the table entry after the current phase; an
      unrecognised pattern restarts at `A` (`stepKind == 8`) or `AB`
      (`stepKind == 4`); any other step kind writes nothing. */
  function NextCCW(c: Coils, kind: int): Coils {
    if kind == 8 || kind == 4 then
      match PhaseOf(c)
      case Some(i) => Pattern(CcwIndex(i, kind))
      case None => if kind == 8 then A else AB
    else c
  }

  /** The pattern `stepCW` leaves: the table entry before the current phase. */
  function NextCW(c: Coils, kind: int): Coils {
    if kind == 8 || kind == 4 then
      match PhaseOf(c)
      case Some(i) => Pattern(CwIndex(i, kind))
      case None => if kind == 8 then A else AB
    else c
  }

  /** The patterns one step kind cycles through: all eight for `stepKind == 8`,
      the double-coil ones for `stepKind == 4`. */
  predicate OnCycle(c: Coils, kind: int) {
    match PhaseOf(c)
    case Some(i) => kind == 8 || (kind == 4 && i % 2 == 1)
    case None => false
  }

  /** `n` successive counter-clockwise steps. */
  function CcwTimes(c: Coils, kind: int, n: nat): Coils
    decreases n
  {
    if n == 0 then c else CcwTimes(NextCCW(c, kind), kind, n - 1)
  }

  /** `n` successive clockwise steps. */
  function CwTimes(c: Coils, kind: int, n: nat): Coils
    decreases n
  {
    if n == 0 then c else CwTimes(NextCW(c, kind), kind, n - 1)
  }

  /** The pattern a single driver-line write leaves: `writePinHigh(pin)` when
      `level` holds, `writePinLow(pin)` otherwise; a pin outside 1..4 changes nothing. */
  function SetLine(c: Coils, pin: int, level: bool): Coils {
    if pin == 1 then c.(pin1 := level)
    else if pin == 2 then c.(pin2 := level)
    else if pin == 3 then c.(pin3 := level)
    else if pin == 4 then c.(pin4 := level)
    else c
  }

  function Energized(c: Coils): nat {
    (if c.pin1 then 1 else 0) + (if c.pin2 then 1 else 0) + (if c.pin3 then 1 else 0) + (if c.pin4 then 1 else 0)
  }

  /** Exactly two lines high and they are neighbours on the ring 1-2-3-4-1. */
  predicate AdjacentPair(c: Coils) {
    Energized(c) == 2 && ((c.pin1 && c.pin2) || (c.pin2 && c.pin3) || (c.pin3 && c.pin4) || (c.pin4 && c.pin1))
  }

  /** A legal stepping pattern: one line high, or two neighbouring lines high. */
  predicate StepPattern(c: Coils) {
    Energized(c) == 1 || AdjacentPair(c)
  }

  lemma PhaseOfPattern(i: nat)
    requires i < 8
    ensures PhaseOf(Pattern(i)) == Some(i)
  {
    if i == 0 {} else if i == 1 {} else if i == 2 {} else if i == 3 {}
    else if i == 4 {} else if i == 5 {} else if i == 6 {} else {}
  }

  /** The table holds exactly the legal stepping patterns, and its odd entries
      exactly the neighbouring pairs. */
  lemma TableIsStepPatterns(c: Coils)
    ensures StepPattern(c) <==> PhaseOf(c).Some?
    ensures AdjacentPair(c) <==> PhaseOf(c).Some? && PhaseOf(c).value % 2 == 1
  {
  }

  /** With `stepKind == 8`, `stepCCW` moves one place on round the half-step
      table and `stepCW` one place back. */
  lemma HalfStepCycle(i: nat)
    requires i < 8
    ensures NextCCW(Pattern(i), 8) == Pattern((i + 1) % 8)
    ensures NextCW(Pattern(i), 8) == Pattern((i + 7) % 8)
  {
    PhaseOfPattern(i);
  }

  /** With `stepKind == 4`, a step from a double-coil pattern goes to the
      neighbouring double-coil pattern, and a step from a single-coil pattern
      goes to the double-coil pattern on that side of it. */
  lemma FullStepCycle(i: nat)
    requires i < 8
    ensures NextCCW(Pattern(i), 4) == Pattern(if i % 2 == 1 then (i + 2) % 8 else i + 1)
    ensures NextCW(Pattern(i), 4) == Pattern(if i % 2 == 1 then (i + 6) % 8 else (i + 7) % 8)
  {
    PhaseOfPattern(i);
  }

  /** Undoing, phase by phase, for the two step kinds. */
  lemma CwUndoesCcwHalfAt(i: nat)
    requires i < 8
    ensures NextCW(NextCCW(Pattern(i), 8), 8) == Pattern(i)
  {
    if i == 0 {} else if i == 1 {} else if i == 2 {} else if i == 3 {}
    else if i == 4 {} else if i == 5 {} else if i == 6 {} else {}
  }

  lemma CcwUndoesCwHalfAt(i: nat)
    requires i < 8
    ensures NextCCW(NextCW(Pattern(i), 8), 8) == Pattern(i)
  {
    if i == 0 {} else if i == 1 {} else if i == 2 {} else if i == 3 {}
    else if i == 4 {} else if i == 5 {} else if i == 6 {} else {}
  }

  lemma CwUndoesCcwFullAt(i: nat)
    requires i < 8 && i % 2 == 1
    ensures NextCW(NextCCW(Pattern(i), 4), 4) == Pattern(i)
  {
    if i == 1 {} else if i == 3 {} else if i == 5 {} else {}
  }

  lemma CcwUndoesCwFullAt(i: nat)
    requires i < 8 && i % 2 == 1
    ensures NextCCW(NextCW(Pattern(i), 4), 4) == Pattern(i)
  {
    if i == 1 {} else if i == 3 {} else if i == 5 {} else {}
  }

  /** `stepCW` exactly undoes `stepCCW` on the cycle of the step kind in
      effect: the eight half-step patterns, or the four double-coil ones. */
  lemma CwUndoesCcw(c: Coils, kind: int)
    requires OnCycle(c, kind)
    ensures NextCW(NextCCW(c, kind), kind) == c
  {
    var i := PhaseOf(c).value;
    if kind == 8 { CwUndoesCcwHalfAt(i); } else { CwUndoesCcwFullAt(i); }
  }

  /** And `stepCCW` exactly undoes `stepCW`. */
  lemma CcwUndoesCw(c: Coils, kind: int)
    requires OnCycle(c, kind)
    ensures NextCCW(NextCW(c, kind), kind) == c
  {
    var i := PhaseOf(c).value;
    if kind == 8 { CcwUndoesCwHalfAt(i); } else { CcwUndoesCwFullAt(i); }
  }

  /** Any step with `stepKind` 4 or 8 lands on that kind's cycle. */
  lemma StepOnCycle(c: Coils, kind: int)
    requires kind == 4 || kind == 8
    ensures OnCycle(NextCCW(c, kind), kind) && OnCycle(NextCW(c, kind), kind)
  {
    match PhaseOf(c)
    case Some(i) =>
      PhaseOfPattern(CcwIndex(i, kind));
      PhaseOfPattern(CwIndex(i, kind));
    case None =>
      PhaseOfPattern(0);
      PhaseOfPattern(1);
  }

  /** `n + 1` counter-clockwise steps are `n` steps and then one more. */
  lemma {:induction false} CcwTimesSnoc(c: Coils, kind: int, n: nat)
    ensures CcwTimes(c, kind, n + 1) == NextCCW(CcwTimes(c, kind, n), kind)
    decreases n
  {
    if n > 0 {
      CcwTimesSnoc(NextCCW(c, kind), kind, n - 1);
    }
  }

  /** `n + 1` clockwise steps are `n` steps and then one more. */
  lemma {:induction false} CwTimesSnoc(c: Coils, kind: int, n: nat)
    ensures CwTimes(c, kind, n + 1) == NextCW(CwTimes(c, kind, n), kind)
    decreases n
  {
    if n > 0 {
      CwTimesSnoc(NextCW(c, kind), kind, n - 1);
    }
  }

  /** The end of the manual calibration: `n` clockwise steps and then one
      counter-clockwise step leave the coils where `n - 1` clockwise steps
      would have, once the first step has brought them onto the cycle. */
  lemma JogBack(c: Coils, kind: int, n: nat)
    requires kind == 4 || kind == 8
    requires 1 <= n && (OnCycle(c, kind) || 2 <= n)
    ensures NextCCW(CwTimes(c, kind, n), kind) == CwTimes(c, kind, n - 1)
  {
    var before := CwTimes(c, kind, n - 1);
    CwTimesSnoc(c, kind, n - 1);
    if n >= 2 {
      CwTimesSnoc(c, kind, n - 2);
      StepOnCycle(CwTimes(c, kind, n - 2), kind);
    }
    CcwUndoesCw(before, kind);
  }

  /** The phase counter after `n` counter-clockwise steps. */
  function CcwPhase(i: nat, kind: int, n: nat): (j: nat)
    requires i < 8
    ensures j < 8
    decreases n
  {
    if n == 0 then i else CcwPhase(CcwIndex(i, kind), kind, n - 1)
  }

  /** The phase counter after `n` clockwise steps. */
  function CwPhase(i: nat, kind: int, n: nat): (j: nat)
    requires i < 8
    ensures j < 8
    decreases n
  {
    if n == 0 then i else CwPhase(CwIndex(i, kind), kind, n - 1)
  }

  /** A step from a table pattern lands on the table entry its counter names. */
  lemma StepAt(i: nat, kind: int)
    requires i < 8 && (kind == 8 || kind == 4)
    ensures NextCCW(Pattern(i), kind) == Pattern(CcwIndex(i, kind))
    ensures NextCW(Pattern(i), kind) == Pattern(CwIndex(i, kind))
  {
    PhaseOfPattern(i);
  }

  /** `n` steps from a table pattern land on the entry `n` counter steps on. */
  lemma {:induction false} CcwTimesAt(i: nat, kind: int, n: nat)
    requires i < 8 && (kind == 8 || kind == 4)
    ensures CcwTimes(Pattern(i), kind, n) == Pattern(CcwPhase(i, kind, n))
    decreases n
  {
    if n > 0 {
      StepAt(i, kind);
      CcwTimesAt(CcwIndex(i, kind), kind, n - 1);
    }
  }

  lemma {:induction false} CwTimesAt(i: nat, kind: int, n: nat)
    requires i < 8 && (kind == 8 || kind == 4)
    ensures CwTimes(Pattern(i), kind, n) == Pattern(CwPhase(i, kind, n))
    decreases n
  {
    if n > 0 {
      StepAt(i, kind);
      CwTimesAt(CwIndex(i, kind), kind, n - 1);
    }
  }

  /** The counter arithmetic: one place per half step, two per full step. */
  lemma {:induction false} HalfCcwPhase(i: nat, n: nat)
    requires i < 8
    ensures CcwPhase(i, 8, n) == (i + n) % 8
    decreases n
  {
    if n > 0 {
      var j := CcwIndex(i, 8);
      HalfCcwPhase(j, n - 1);
      assert i + n == j + (n - 1) + (if i == 7 then 8 else 0);
    }
  }

  lemma {:induction false} HalfCwPhase(i: nat, n: nat)
    requires i < 8
    ensures CwPhase(i, 8, n) == (i - n) % 8
    decreases n
  {
    if n > 0 {
      var j := CwIndex(i, 8);
      HalfCwPhase(j, n - 1);
      assert j - (n - 1) == i - n + (if i == 0 then 8 else 0);
    }
  }

  lemma {:induction false} FullCcwPhase(i: nat, n: nat)
    requires i < 8 && i % 2 == 1
    ensures CcwPhase(i, 4, n) == (i + 2 * n) % 8
    decreases n
  {
    if n > 0 {
      var j := CcwIndex(i, 4);
      FullCcwPhase(j, n - 1);
      assert i + 2 * n == j + 2 * (n - 1) + (if i == 7 then 8 else 0);
    }
  }

  lemma {:induction false} FullCwPhase(i: nat, n: nat)
    requires i < 8 && i % 2 == 1
    ensures CwPhase(i, 4, n) == (i - 2 * n) % 8
    decreases n
  {
    if n > 0 {
      var j := CwIndex(i, 4);
      FullCwPhase(j, n - 1);
      assert j - 2 * (n - 1) == i - 2 * n + (if i == 1 then 8 else 0);
    }
  }

  /** `n` half steps from phase `i` reach phase `i + n` counter-clockwise and
      `i - n` clockwise (mod 8); `n` full steps from a double-coil phase reach
      `i + 2n` and `i - 2n`. */
  lemma HalfCcwTurns(i: nat, n: nat)
    requires i < 8
    ensures CcwTimes(Pattern(i), 8, n) == Pattern((i + n) % 8)
  {
    CcwTimesAt(i, 8, n);
    HalfCcwPhase(i, n);
  }

  lemma HalfCwTurns(i: nat, n: nat)
    requires i < 8
    ensures CwTimes(Pattern(i), 8, n) == Pattern((i - n) % 8)
  {
    CwTimesAt(i, 8, n);
    HalfCwPhase(i, n);
  }

  lemma FullCcwTurns(i: nat, n: nat)
    requires i < 8 && i % 2 == 1
    ensures CcwTimes(Pattern(i), 4, n) == Pattern((i + 2 * n) % 8)
  {
    CcwTimesAt(i, 4, n);
    FullCcwPhase(i, n);
  }

  lemma FullCwTurns(i: nat, n: nat)
    requires i < 8 && i % 2 == 1
    ensures CwTimes(Pattern(i), 4, n) == Pattern((i - 2 * n) % 8)
  {
    CwTimesAt(i, 4, n);
    FullCwPhase(i, n);
  }

  /** The half-step cycle has period exactly 8 in either direction and the
      double-coil cycle period exactly 4: `n` steps come back to the starting
      pattern if and only if `n` is a multiple of the period. */
  lemma HalfCcwPeriod(c: Coils, n: nat)
    requires OnCycle(c, 8) && 0 < n
    ensures CcwTimes(c, 8, n) == c <==> n % 8 == 0
  {
    var i := PhaseOf(c).value;
    HalfCcwTurns(i, n);
    PhaseOfPattern(i);
    PhaseOfPattern((i + n) % 8);
    ShiftReturns(i, n);
  }

  lemma HalfCwPeriod(c: Coils, n: nat)
    requires OnCycle(c, 8) && 0 < n
    ensures CwTimes(c, 8, n) == c <==> n % 8 == 0
  {
    var i := PhaseOf(c).value;
    HalfCwTurns(i, n);
    PhaseOfPattern(i);
    PhaseOfPattern((i - n) % 8);
    ShiftReturns(i, -(n as int));
    NegatedMultiple(n);
  }

  lemma FullCcwPeriod(c: Coils, n: nat)
    requires OnCycle(c, 4) && 0 < n
    ensures CcwTimes(c, 4, n) == c <==> n % 4 == 0
  {
    var i := PhaseOf(c).value;
    FullCcwTurns(i, n);
    PhaseOfPattern(i);
    PhaseOfPattern((i + 2 * n) % 8);
    ShiftReturns(i, 2 * n);
    DoubledMultiple(n);
  }

  lemma FullCwPeriod(c: Coils, n: nat)
    requires OnCycle(c, 4) && 0 < n
    ensures CwTimes(c, 4, n) == c <==> n % 4 == 0
  {
    var i := PhaseOf(c).value;
    FullCwTurns(i, n);
    PhaseOfPattern(i);
    PhaseOfPattern((i - 2 * n) % 8);
    ShiftReturns(i, -2 * n);
    NegatedMultiple(2 * n);
    DoubledMultiple(n);
  }

  /** A counter below 8 moved by `m` comes back to itself, modulo 8, exactly
      when `m` is a multiple of 8. */
  lemma ShiftReturns(i: int, m: int)
    requires 0 <= i < 8
    ensures (i + m) % 8 == i <==> m % 8 == 0
  {
    var q := (i + m) / 8;
    assert i + m == 8 * q + (i + m) % 8;
    var p := m / 8;
    assert m == 8 * p + m % 8;
  }

  lemma NegatedMultiple(m: int)
    ensures (-m) % 8 == 0 <==> m % 8 == 0
  {
    var p := m / 8;
    assert m == 8 * p + m % 8;
    var q := (-m) / 8;
    assert -m == 8 * q + (-m) % 8;
  }

  lemma DoubledMultiple(n: int)
    ensures (2 * n) % 8 == 0 <==> n % 4 == 0
  {
    var a := n / 4;
    assert n == 4 * a + n % 4;
    assert 2 * n == 8 * a + 2 * (n % 4);
    var q := (2 * n) / 8;
    assert 2 * n == 8 * q + (2 * n) % 8;
  }

  /** After any step with `stepKind` 4 or 8 the lines hold one coil or two
      neighbouring coils; with `stepKind == 4` always two. */
  lemma StepLandsOnPattern(c: Coils, kind: int)
    requires kind == 4 || kind == 8
    ensures StepPattern(NextCCW(c, kind)) && StepPattern(NextCW(c, kind))
    ensures kind == 4 ==> AdjacentPair(NextCCW(c, kind)) && AdjacentPair(NextCW(c, kind))
  {
    var ccw, cw := NextCCW(c, kind), NextCW(c, kind);
    match PhaseOf(c)
    case Some(i) =>
      PhaseOfPattern(CcwIndex(i, kind));
      PhaseOfPattern(CwIndex(i, kind));
      TableIsStepPatterns(ccw);
      TableIsStepPatterns(cw);
    case None =>
      TableIsStepPatterns(ccw);
      TableIsStepPatterns(cw);
  }

  /** An all-off or unrecognised pattern goes to `A` (`stepKind == 8`) or `AB`
      (`stepKind == 4`) whichever way the motor turns; in particular the first
      step after power-up does. */
  lemma UnrecognisedRestarts(c: Coils)
    requires !StepPattern(c)
    ensures NextCCW(c, 8) == A && NextCW(c, 8) == A
    ensures NextCCW(c, 4) == AB && NextCW(c, 4) == AB
  {
    TableIsStepPatterns(c);
  }

  /** The power-up state is not a stepping pattern. */
  lemma OffIsUnrecognised()
    ensures !StepPattern(Off)
  {
  }
}
