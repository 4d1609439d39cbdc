/** What each method of `LightningStepper` does to the object, as a function
    from the fields before the call to the fields after it. The fields are
    gathered in one value, `Snapshot`; the class in lightning_stepper.dfy proves
    of each method that it leaves `Spec(old(State()))`, and the lemmas here
    state what those functions promise.

    The world outside the object is part of the snapshot: the serial input is
    the sequence of fragments the coming reads return, the serial output the
    lines written so far, the CmdReady readings the sequence the coming
    `digitalRead`s return, the Done line the last level written to it, and the
    Processing line every level written to it so far. A reader that runs out of
    input is still blocked: it returns with `keepWaiting` true, and every caller
    returns at once in turn. */
module ControllerSpec {
  import opened ArduinoString
  import Phase
  import Motion
  import Framing
  import Commands

  /** A digital line; CmdReady is wired `INPUT_PULLUP`, so `Low` is its signal. */
  datatype Level = Low | High

  /** The fields of a `LightningStepper`, named as declared. The motion fields
      `currentPositionInt`, `maxPositionInt`, `stepsInt`, `directionInt` and
      `done` are the `Motion.MotionState` `motion`; the coil mirror
      `isHigh_pin1..4` is `coils`. */
  datatype Snapshot = Snapshot(
    coils: Phase.Coils, stepKind: int,
    msg: string, keepWaiting: bool, commaIndex: int,
    launchMode: int,
    minDelayString: string, maxDelayString: string, minDelayInt: int, maxDelayInt: int, currentDelayInt: int,
    directionString: string, stepsString: string, speedString: string, speedInt: int, cmdMarkString: string,
    currentPositionString: string, maxPositionString: string,
    motion: Motion.MotionState,
    serialIn: seq<string>, serialOut: seq<string>, cmdReadyIn: seq<Level>,
    doneLine: Level, processingWrites: seq<Level>)

  /** The object as its declarations leave it, before `runSetup`: coils off,
      `stepKind` 8, every number 0, every text empty, `done` true. */
  function Initial(serialIn: seq<string>, cmdReadyIn: seq<Level>): Snapshot {
    Snapshot(Phase.Off, 8, "", true, 0, 0, "", "", 0, 0, 0, "", "", "", 0, "", "", "",
             Motion.MotionState(0, 0, 0, 0, true), serialIn, [], cmdReadyIn, Low, [])
  }

  const PromptQuestion: string := "Motor Running. To manually setup a motor reply '1', to auto setup a motor reply '2'"
  const AutoQuestion: string := "Auto setup initiated. Please specify: minDelay,maxDelay,currentPosition,MaxPosition"
  const ManualQuestion: string := "Manual setup initiated. Please specify: minDelay,maxDelay"
  const ZeroPrompt: string := "Type 'Go' to move. To stop, drive the pin_CmdReady low thus setting the zero position"
  const ZeroSet: string := "The zero position has been set"
  const MaxPrompt: string := "Type 'Go' to move. To stop, drive the pin_CmdReady low thus setting the max position"
  const SetupDone: string := "Exiting the runSetup routine. Type Go to proceed to run"
  const SetupError: string := "SC Error: setup code wrong"

  /** The reply of `startUpAuto` (spelt as the controller spells it). */
  function AutoReceived(s: Snapshot): string {
    "Recieved minDelay: " + s.minDelayString + " maxDelay: " + s.maxDelayString + " currentPosition: "
    + s.currentPositionString + " maxPosition: " + s.maxPositionString
  }

  /** The reply of `startUpManually` to the delays. */
  function ManualReceived(minDelay: string, maxDelay: string): string {
    "Recieved minDelay: " + minDelay + " maxDelay: " + maxDelay
  }

  /** The reply to a mark-1 command: position, maximum, minimum delay and
      maximum delay, in that order. */
  function SettingsReport(position: int, maxPosition: int, minDelay: int, maxDelay: int): string {
    "Settings: " + IntToString(position) + "," + IntToString(maxPosition) + "," + IntToString(minDelay) + ","
    + IntToString(maxDelay)
  }

  /** `n` copies of one line. */
  function Copies(line: string, n: nat): (lines: seq<string>)
    ensures |lines| == n && forall i :: 0 <= i < n ==> lines[i] == line
  {
    if n == 0 then [] else Copies(line, n - 1) + [line]
  }

  /** The number of `High` readings before the first `Low` one. */
  function LeadingHigh(readings: seq<Level>): (n: nat)
    ensures n <= |readings|
    ensures forall i :: 0 <= i < n ==> readings[i] == High
    ensures n < |readings| ==> readings[n] == Low
  {
    if readings == [] || readings[0] == Low then 0
    else
      var m := LeadingHigh(readings[1..]);
      assert forall i :: 0 <= i < 1 + m ==> readings[i] == High by {
        forall i | 0 <= i < 1 + m
          ensures readings[i] == High
        {
          if 0 < i {
            assert readings[i] == readings[1..][i - 1];
          }
        }
      }
      1 + m
  }

  /** `digitalRead(pin_CmdReady)`: the next reading, or HIGH (the pull-up) once
      no readings remain; and the readings left after it. */
  function Reading(readings: seq<Level>): Level {
    if readings == [] then High else readings[0]
  }

  function AfterReading(readings: seq<Level>): seq<Level> {
    if readings == [] then [] else readings[1..]
  }

  /** The coils after the turn a tick takes. */
  function Turned(c: Phase.Coils, t: Motion.Turn, kind: int): Phase.Coils {
    match t
    case NoTurn => c
    case Clockwise => Phase.NextCW(c, kind)
    case CounterClockwise => Phase.NextCCW(c, kind)
  }

  /** `sendMessage(p)`: one line `Strike(p)` written. */
  function Send(s: Snapshot, p: string): Snapshot {
    s.(serialOut := s.serialOut + [Framing.Strike(p)])
  }

  // ---------------------------------------------------------------- motion

  /** `modulateStepper`: the motion as `Motion.Tick` leaves it, the coils turned
      the way it moved, and Done HIGH whenever the tick finishes. */
  function ModulateStepper(s: Snapshot): Snapshot {
    s.(motion := Motion.Tick(s.motion), coils := Turned(s.coils, Motion.TurnOf(s.motion), s.stepKind),
       doneLine := if Motion.Stops(s.motion) then High else s.doneLine)
  }

  // --------------------------------------------------------------- readers

  /** The reader loop of `processCmd` and `startUpManually` from an empty
      buffer: one frame gathered and, once complete, cleaned. */
  function ReceiveFrame(s: Snapshot): Snapshot {
    var g := Framing.Gather("", s.serialIn);
    s.(keepWaiting := true, msg := if g.complete then Framing.CleanMsg(g.buffer) else g.buffer, serialIn := g.rest)
  }

  /** Whether the reader loop finds a complete frame in the input. */
  predicate Receives(s: Snapshot) {
    Framing.Gather("", s.serialIn).complete
  }

  /** `waitForMessage(expected)`: frames until one whose cleaned payload starts
      with `expected`, each other one answered `Strike(SC Error: payload)`. */
  function WaitForMessage(s: Snapshot, expected: string): Snapshot {
    var w := Framing.WaitFor(expected, s.serialIn);
    s.(keepWaiting := !w.matched, msg := w.buffer, serialIn := w.rest,
       serialOut := s.serialOut + Framing.ErrorLines(w.rejected))
  }

  /** `preSetupPrompt`: the question, then frames until one chooses the launch
      mode, each other one answered `Error 1`, and the choice echoed. */
  function PreSetupPrompt(s: Snapshot): Snapshot {
    var r := Framing.Prompt(s.serialIn);
    var asked := s.serialOut + [Framing.Strike(PromptQuestion)] + Copies(Framing.Strike("Error 1"), r.errors);
    s.(keepWaiting := r.mode == 0, msg := r.buffer, serialIn := r.rest,
       launchMode := if r.mode == 0 then s.launchMode else r.mode,
       serialOut := if r.mode == 0 then asked else asked + [Framing.Strike("read: " + r.buffer)])
  }

  /** The wait of `runSetup` for CmdReady to read LOW. */
  function WaitReady(s: Snapshot): Snapshot {
    var n := LeadingHigh(s.cmdReadyIn);
    if n < |s.cmdReadyIn| then s.(keepWaiting := false, cmdReadyIn := s.cmdReadyIn[n + 1..])
    else s.(keepWaiting := true, cmdReadyIn := [])
  }

  // ------------------------------------------------------------- commands

  /** `processSettings`: four cuts of `msg`, each field read with `toInt`. */
  function ProcessSettings(s: Snapshot): Snapshot {
    var t := Commands.SplitSettings(s.msg);
    s.(minDelayString := t.minDelay, maxDelayString := t.maxDelay,
       currentPositionString := t.currentPosition, maxPositionString := t.maxPosition,
       minDelayInt := ToInt(t.minDelay), maxDelayInt := ToInt(t.maxDelay),
       motion := s.motion.(position := ToInt(t.currentPosition), maxPosition := ToInt(t.maxPosition)),
       msg := t.rest, commaIndex := t.comma)
  }

  /** The mark-1 branch of `processCmd`: the settings written back as text, the
      report sent, and the motion finished with Done HIGH. */
  function ReportCommand(s: Snapshot): Snapshot {
    var m := s.motion;
    s.(currentPositionString := IntToString(m.position), maxPositionString := IntToString(m.maxPosition),
       speedString := IntToString(s.speedInt), minDelayString := IntToString(s.minDelayInt),
       maxDelayString := IntToString(s.maxDelayInt),
       serialOut := s.serialOut + [Framing.Strike(SettingsReport(m.position, m.maxPosition, s.minDelayInt, s.maxDelayInt))],
       motion := m.(done := true), doneLine := High)
  }

  /** The cuts of the mark-2 branch of `processCmd`: the speed, the steps and
      the direction as text. */
  function CutMove(s: Snapshot): Snapshot {
    var t := Commands.SplitMove(s.msg, s.commaIndex);
    s.(msg := t.direction, commaIndex := t.comma,
       speedString := t.speed, stepsString := t.steps, directionString := t.direction)
  }

  /** The mark-2 branch of `processCmd`: the cuts, each field read with `toInt`,
      the delay of the speed, and the motion started with Done LOW. */
  function StartMove(s: Snapshot): Snapshot {
    var s1 := CutMove(s);
    var speed := ToInt(s1.speedString);
    s1.(speedInt := speed, currentDelayInt := Commands.Delay(s.minDelayInt, s.maxDelayInt, speed),
        motion := s.motion.(steps := ToInt(s1.stepsString), direction := ToInt(s1.directionString), done := false),
        doneLine := Low)
  }

  /** The dispatch of `processCmd` on the cleaned payload in `msg`. */
  function Dispatch(s: Snapshot): Snapshot {
    var (mark, comma) := Commands.MarkOf(s.msg, s.commaIndex);
    var s1 := s.(cmdMarkString := mark, commaIndex := comma);
    if mark == "3" then s1.(motion := s1.motion.(done := true), doneLine := High)
    else if mark == "1" then ReportCommand(s1)
    else if mark == "2" then StartMove(s1)
    else s1
  }

  /** `processCmd`: Processing HIGH, one frame received, the payload
      dispatched, Processing LOW. */
  function ProcessCmd(s: Snapshot): Snapshot {
    var s1 := ReceiveFrame(s.(processingWrites := s.processingWrites + [High]));
    if !Receives(s) then s1
    else
      var s2 := Dispatch(s1);
      s2.(keepWaiting := false, processingWrites := s2.processingWrites + [Low])
  }

  /** `run()`: one CmdReady reading; LOW processes a command, HIGH ticks the
      motion unless it is done. */
  function Run(s: Snapshot): Snapshot {
    var s1 := s.(cmdReadyIn := AfterReading(s.cmdReadyIn));
    if Reading(s.cmdReadyIn) == Low then ProcessCmd(s1)
    else if s.motion.done then s1
    else ModulateStepper(s1)
  }

  // ----------------------------------------------------------------- setup

  /** `startUpAuto`: the question, one frame of four settings, and the reply. */
  function StartUpAuto(s: Snapshot): Snapshot {
    var s1 := ReceiveFrame(Send(s, AutoQuestion));
    if !Receives(s) then s1
    else
      var s2 := ProcessSettings(s1).(keepWaiting := false);
      Send(s2, AutoReceived(s2))
  }

  /** The first part of `startUpManually`: the question, one frame whose first
      two fields are the minimum and maximum delay, and the reply. */
  function ReadDelays(s: Snapshot): Snapshot {
    var s1 := ReceiveFrame(Send(s, ManualQuestion));
    if !Receives(s) then s1
    else
      var d := Commands.SplitDelays(s1.msg);
      var s2 := s1.(msg := d.rest, commaIndex := d.comma, minDelayString := d.minDelay, maxDelayString := d.maxDelay,
                    minDelayInt := ToInt(d.minDelay), maxDelayInt := ToInt(d.maxDelay), keepWaiting := false);
      Send(s2, ManualReceived(d.minDelay, d.maxDelay))
  }

  /** `k` counter-clockwise steps of a jog, with `keepWaiting` still set. */
  function CcwJogged(s: Snapshot, k: nat): Snapshot {
    s.(coils := Phase.CcwTimes(s.coils, s.stepKind, k), keepWaiting := true)
  }

  /** The LOW reading that ends the zero jog: the position becomes zero and
      the maximum is asked for. */
  function ZeroReached(s: Snapshot): Snapshot {
    s.(keepWaiting := false, motion := s.motion.(position := 0),
       serialOut := s.serialOut + [Framing.Strike(ZeroSet)] + [Framing.Strike(MaxPrompt)])
  }

  /** The zero jog of `startUpManually`: a counter-clockwise step per HIGH
      reading; the first LOW one sets the position to zero. */
  function JogToZero(s: Snapshot): Snapshot {
    var n := LeadingHigh(s.cmdReadyIn);
    var jogged := CcwJogged(s, n);
    if n < |s.cmdReadyIn| then ZeroReached(jogged.(cmdReadyIn := s.cmdReadyIn[n + 1..]))
    else jogged.(cmdReadyIn := [])
  }

  /** `k` clockwise steps of a jog, each counted on the position, with
      `keepWaiting` still set. */
  function CwJogged(s: Snapshot, k: nat): Snapshot {
    s.(coils := Phase.CwTimes(s.coils, s.stepKind, k), keepWaiting := true,
       motion := s.motion.(position := s.motion.position + k))
  }

  /** The LOW reading that ends the maximum jog: the position reached becomes
      the maximum, is reported, and one counter-clockwise step moves back off
      it. */
  function MaxReached(s: Snapshot): Snapshot {
    var top := s.motion.position;
    s.(coils := Phase.NextCCW(s.coils, s.stepKind), keepWaiting := false,
       motion := s.motion.(maxPosition := top, position := top - 1), maxPositionString := IntToString(top),
       serialOut := s.serialOut + [Framing.Strike("Max position: " + IntToString(top))])
  }

  /** The maximum jog of `startUpManually`: a clockwise step per HIGH reading,
      each counted on the position, until the first LOW one. */
  function JogToMax(s: Snapshot): Snapshot {
    var n := LeadingHigh(s.cmdReadyIn);
    var jogged := CwJogged(s, n);
    if n < |s.cmdReadyIn| then MaxReached(jogged.(cmdReadyIn := s.cmdReadyIn[n + 1..]))
    else jogged.(cmdReadyIn := [])
  }

  /** `startUpManually`: the delays, then `Go`, the zero jog, `Go` and the
      maximum jog; each stage runs only once the one before it has finished. */
  function StartUpManually(s: Snapshot): Snapshot {
    var s1 := ReadDelays(s);
    if s1.keepWaiting then s1
    else
      var s2 := WaitForMessage(Send(s1, ZeroPrompt), "Go");
      if s2.keepWaiting then s2
      else
        var s3 := JogToZero(s2);
        if s3.keepWaiting then s3
        else
          var s4 := WaitForMessage(s3, "Go");
          if s4.keepWaiting then s4 else JogToMax(s4)
  }

  /** The launch branch of `runSetup`. */
  function Launch(s: Snapshot): Snapshot {
    if s.launchMode == 1 then StartUpManually(s)
    else if s.launchMode == 2 then StartUpAuto(s)
    else Send(s, SetupError)
  }

  /** `runSetup`: wait for CmdReady, prompt for the launch mode, set up, wait
      for `Go`, then Done HIGH and Processing LOW. */
  function RunSetup(s: Snapshot): Snapshot {
    var s1 := WaitReady(s);
    if s1.keepWaiting then s1
    else
      var s2 := PreSetupPrompt(s1);
      if s2.keepWaiting then s2
      else
        var s3 := Launch(s2);
        if s3.keepWaiting then s3
        else
          var s4 := WaitForMessage(Send(s3, SetupDone), "Go");
          if s4.keepWaiting then s4
          else s4.(doneLine := High, processingWrites := s4.processingWrites + [Low])
  }
}
