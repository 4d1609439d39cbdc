/** The `LightningStepper` object itself: its fields as declared in
    src/LightningStepper.h, and its methods, each updating those fields in
    place as `LightningStepper::runSetup`, `run` and the methods they call do.
    `State()` gathers the fields into a `ControllerSpec.Snapshot`, and every
    method is proved to leave the state the matching function of
    `ControllerSpec` gives for the state it found.

    `msgLength`, `indexOfP` and `pin_CmdReady_Value` are scratch the methods
    write and only the same method reads again; they are fields here, but not
    part of the snapshot, so no contract fixes their value after a call. */
module Controller {
  import opened ArduinoString
  import Phase
  import Motion
  import Framing
  import Commands
  import opened ControllerSpec

  /** The `--Stepper` fields: the mirror of the four driver lines and the step kind. */
  datatype StepperFields = StepperFields(isHighPin1: bool, isHighPin2: bool, isHighPin3: bool, isHighPin4: bool,
                                         stepKind: int)

  /** The `--Serial Reading` fields. */
  datatype SerialFields = SerialFields(pinCmdReadyValue: int, msg: string, keepWaiting: bool, msgLength: int,
                                       commaIndex: int, indexOfP: int)

  /** The `--Settings/Trackers` fields. */
  datatype SettingsFields = SettingsFields(
    launchMode: int,
    minDelayString: string, maxDelayString: string, minDelayInt: int, maxDelayInt: int, currentDelayInt: int,
    directionString: string, directionInt: int, stepsString: string, stepsInt: int,
    speedString: string, speedInt: int, cmdMarkString: string)

  /** The `--Postion/State` fields. */
  datatype PositionFields = PositionFields(currentPositionString: string, currentPositionInt: int,
                                           maxPositionString: string, maxPositionInt: int, done: bool)

  /** The world outside the object: serial fragments still to come, lines
      written, CmdReady readings still to come, the Done line, and every level
      written to the Processing line so far. */
  datatype World = World(serialIn: seq<string>, serialOut: seq<string>, cmdReadyIn: seq<Level>,
                         doneLine: Level, processingWrites: seq<Level>)

  class LightningStepper {
    const stepperPin1: int
    const stepperPin2: int
    const stepperPin3: int
    const stepperPin4: int
    const pinCmdReady: int
    const pinProcessing: int
    const pinDone: int

    var stepper: StepperFields
    var serial: SerialFields
    var settings: SettingsFields
    var position: PositionFields
    var io: World

    /** The fields, as one value. */
    function State(): Snapshot
      reads this
    {
      Snapshot(Phase.Coils(stepper.isHighPin1, stepper.isHighPin2, stepper.isHighPin3, stepper.isHighPin4),
               stepper.stepKind, serial.msg, serial.keepWaiting, serial.commaIndex, settings.launchMode,
               settings.minDelayString, settings.maxDelayString, settings.minDelayInt, settings.maxDelayInt,
               settings.currentDelayInt, settings.directionString, settings.stepsString, settings.speedString,
               settings.speedInt, settings.cmdMarkString, position.currentPositionString, position.maxPositionString,
               Motion.MotionState(position.currentPositionInt, position.maxPositionInt, settings.stepsInt,
                                  settings.directionInt, position.done),
               io.serialIn, io.serialOut, io.cmdReadyIn, io.doneLine, io.processingWrites)
    }

    /** The constructor: the seven pin numbers, and the input the object will
        see; every other field has the initial value of its declaration. */
    constructor (pinIn1: int, pinIn2: int, pinIn3: int, pinIn4: int, pinCmdReady: int, pinDone: int, pinProcessing: int,
                 serialIn: seq<string>, cmdReadyIn: seq<Level>)
      ensures stepperPin1 == pinIn1 && stepperPin2 == pinIn2 && stepperPin3 == pinIn3 && stepperPin4 == pinIn4
      ensures this.pinCmdReady == pinCmdReady && this.pinDone == pinDone && this.pinProcessing == pinProcessing
      ensures State() == Initial(serialIn, cmdReadyIn)
    {
      stepperPin1, stepperPin2, stepperPin3, stepperPin4 := pinIn1, pinIn2, pinIn3, pinIn4;
      this.pinCmdReady, this.pinDone, this.pinProcessing := pinCmdReady, pinDone, pinProcessing;
      stepper := StepperFields(false, false, false, false, 8);
      serial := SerialFields(0, "", true, 0, 0, 0);
      settings := SettingsFields(0, "", "", 0, 0, 0, "", 0, "", 0, "", 0, "");
      position := PositionFields("", 0, "", 0, true);
      io := World(serialIn, [], cmdReadyIn, Low, []);
    }

    // --------------------------------------------------------- phase sequencer

    /** `writePinHigh(pin)`: driver line `pin` (1 to 4) goes high, and so does
        its mirror; any other number writes nothing. */
    method WritePinHigh(pin: int)
      modifies this
      ensures State() == old(State()).(coils := Phase.SetLine(old(State()).coils, pin, true))
    {
      if pin == 1 {
        stepper := stepper.(isHighPin1 := true);
      } else if pin == 2 {
        stepper := stepper.(isHighPin2 := true);
      } else if pin == 3 {
        stepper := stepper.(isHighPin3 := true);
      } else if pin == 4 {
        stepper := stepper.(isHighPin4 := true);
      }
    }

    /** `writePinLow(pin)`: driver line `pin` (1 to 4) goes low, and so does its
        mirror. */
    method WritePinLow(pin: int)
      modifies this
      ensures State() == old(State()).(coils := Phase.SetLine(old(State()).coils, pin, false))
    {
      if pin == 1 {
        stepper := stepper.(isHighPin1 := false);
      } else if pin == 2 {
        stepper := stepper.(isHighPin2 := false);
      } else if pin == 3 {
        stepper := stepper.(isHighPin3 := false);
      } else if pin == 4 {
        stepper := stepper.(isHighPin4 := false);
      }
    }

    /** The four writes each branch of `stepCCW` and `stepCW` makes, lines 1 to
        4 in that order, each high or low as pattern `c` says. */
    method WriteCoils(c: Phase.Coils)
      modifies this
      ensures State() == old(State()).(coils := c)
    {
      if c.pin1 { WritePinHigh(1); } else { WritePinLow(1); }
      if c.pin2 { WritePinHigh(2); } else { WritePinLow(2); }
      if c.pin3 { WritePinHigh(3); } else { WritePinLow(3); }
      if c.pin4 { WritePinHigh(4); } else { WritePinLow(4); }
    }

    /** `stepCCW`: the chain of tests on the mirror, one branch per half-step
        pattern and a last one for any other state, each writing the next
        pattern for `stepKind` 4 or for `stepKind` 8; it computes `NextCCW`. */
    method StepCCW()
      modifies this
      ensures State() == old(State()).(coils := Phase.NextCCW(old(State()).coils, old(State()).stepKind))
    {
      var p1, p2, p3, p4, kind := stepper.isHighPin1, stepper.isHighPin2, stepper.isHighPin3, stepper.isHighPin4, stepper.stepKind;
      if !p4 && !p3 && !p2 && p1 {
        if kind == 4 { WriteCoils(Phase.AB); return; }
        if kind == 8 { WriteCoils(Phase.AB); return; }
      } else if !p4 && !p3 && p2 && p1 {
        if kind == 4 { WriteCoils(Phase.BC); return; }
        if kind == 8 { WriteCoils(Phase.B); return; }
      } else if !p4 && !p3 && p2 && !p1 {
        if kind == 4 { WriteCoils(Phase.BC); return; }
        if kind == 8 { WriteCoils(Phase.BC); return; }
      } else if !p4 && p3 && p2 && !p1 {
        if kind == 4 { WriteCoils(Phase.CD); return; }
        if kind == 8 { WriteCoils(Phase.C); return; }
      } else if !p4 && p3 && !p2 && !p1 {
        if kind == 4 { WriteCoils(Phase.CD); return; }
        if kind == 8 { WriteCoils(Phase.CD); return; }
      } else if p4 && p3 && !p2 && !p1 {
        if kind == 4 { WriteCoils(Phase.DA); return; }
        if kind == 8 { WriteCoils(Phase.D); return; }
      } else if p4 && !p3 && !p2 && !p1 {
        if kind == 4 { WriteCoils(Phase.DA); return; }
        if kind == 8 { WriteCoils(Phase.DA); return; }
      } else if p4 && !p3 && !p2 && p1 {
        if kind == 4 { WriteCoils(Phase.AB); return; }
        if kind == 8 { WriteCoils(Phase.A); return; }
      } else {
        if kind == 4 { WriteCoils(Phase.AB); return; }
        if kind == 8 { WriteCoils(Phase.A); return; }
      }
    }

    /** `stepCW`: the same chain, writing the previous pattern; it computes
        `NextCW`. */
    method StepCW()
      modifies this
      ensures State() == old(State()).(coils := Phase.NextCW(old(State()).coils, old(State()).stepKind))
    {
      var p1, p2, p3, p4, kind := stepper.isHighPin1, stepper.isHighPin2, stepper.isHighPin3, stepper.isHighPin4, stepper.stepKind;
      if !p4 && !p3 && !p2 && p1 {
        if kind == 4 { WriteCoils(Phase.DA); return; }
        if kind == 8 { WriteCoils(Phase.DA); return; }
      } else if !p4 && !p3 && p2 && p1 {
        if kind == 4 { WriteCoils(Phase.DA); return; }
        if kind == 8 { WriteCoils(Phase.A); return; }
      } else if !p4 && !p3 && p2 && !p1 {
        if kind == 4 { WriteCoils(Phase.AB); return; }
        if kind == 8 { WriteCoils(Phase.AB); return; }
      } else if !p4 && p3 && p2 && !p1 {
        if kind == 4 { WriteCoils(Phase.AB); return; }
        if kind == 8 { WriteCoils(Phase.B); return; }
      } else if !p4 && p3 && !p2 && !p1 {
        if kind == 4 { WriteCoils(Phase.BC); return; }
        if kind == 8 { WriteCoils(Phase.BC); return; }
      } else if p4 && p3 && !p2 && !p1 {
        if kind == 4 { WriteCoils(Phase.BC); return; }
        if kind == 8 { WriteCoils(Phase.C); return; }
      } else if p4 && !p3 && !p2 && !p1 {
        if kind == 4 { WriteCoils(Phase.CD); return; }
        if kind == 8 { WriteCoils(Phase.CD); return; }
      } else if p4 && !p3 && !p2 && p1 {
        if kind == 4 { WriteCoils(Phase.CD); return; }
        if kind == 8 { WriteCoils(Phase.D); return; }
      } else {
        if kind == 4 { WriteCoils(Phase.AB); return; }
        if kind == 8 { WriteCoils(Phase.A); return; }
      }
    }

    // ------------------------------------------------------------- motion tick

    /** `digitalWrite(pin_Done, HIGH)` after `done = true`: the motion finishes. */
    method Finish()
      modifies this
      ensures State() == old(State()).(motion := old(State()).motion.(done := true), doneLine := High)
    {
      position := position.(done := true);
      io := io.(doneLine := High);
    }

    /** The block `modulateStepper` repeats under each of its three guards:
        finish when no steps remain, otherwise step once in the direction asked
        for (none for an unknown direction). */
    method StepOrFinish()
      requires Motion.MayMove(State().motion)
      modifies this
      ensures State() == ControllerSpec.ModulateStepper(old(State()))
    {
      if settings.stepsInt <= 0 {
        Finish();
      } else {
        if settings.directionInt == 1 {
          StepCW();
          settings := settings.(stepsInt := settings.stepsInt - 1);
          position := position.(currentPositionInt := position.currentPositionInt + 1);
        } else if settings.directionInt == 2 {
          StepCCW();
          settings := settings.(stepsInt := settings.stepsInt - 1);
          position := position.(currentPositionInt := position.currentPositionInt - 1);
        }
      }
    }

    /** `modulateStepper`: one tick of the motion. The last of its four guards
        always holds once the first three fail. */
    method ModulateStepper()
      modifies this
      ensures State() == ControllerSpec.ModulateStepper(old(State()))
    {
      var current, max, direction := position.currentPositionInt, position.maxPositionInt, settings.directionInt;
      if current == 0 && direction == 1 {
        StepOrFinish();
      } else if current == max && direction == 2 {
        StepOrFinish();
      } else if current < max && current > 0 {
        StepOrFinish();
      } else {
        Finish();
      }
    }

    // -------------------------------------------------------------- the world

    /** `digitalRead(pin_CmdReady)`: the next reading, or HIGH (the pull-up)
        once no readings remain. */
    method ReadCmdReady() returns (v: Level)
      modifies this
      ensures v == Reading(old(State()).cmdReadyIn)
      ensures State() == old(State()).(cmdReadyIn := AfterReading(old(State()).cmdReadyIn))
      ensures serial.pinCmdReadyValue == if v == Low then 0 else 1
    {
      if io.cmdReadyIn == [] {
        v := High;
      } else {
        v := io.cmdReadyIn[0];
        io := io.(cmdReadyIn := io.cmdReadyIn[1..]);
      }
      serial := serial.(pinCmdReadyValue := if v == Low then 0 else 1);
    }

    /** `readSerial` (and the `Serial.readString` of `waitForMessage`): the
        next fragment, or the empty text of a timed-out read once none remain. */
    method ReadSerial() returns (fragment: string)
      modifies this
      ensures old(io.serialIn) == [] ==> fragment == "" && State() == old(State())
      ensures old(io.serialIn) != [] ==>
        fragment == old(io.serialIn)[0] && State() == old(State()).(serialIn := old(io.serialIn)[1..])
    {
      if io.serialIn == [] {
        fragment := "";
      } else {
        fragment := io.serialIn[0];
        io := io.(serialIn := io.serialIn[1..]);
      }
    }

    /** `sendMessage(p)`: one line `Strike(p)` is written. */
    method SendMessage(p: string)
      modifies this
      ensures State() == Send(old(State()), p)
    {
      io := io.(serialOut := io.serialOut + ["Strike(" + p + ")"]);
    }

    // ----------------------------------------------------------------- framing

    /** `cleanMsg(p)`, which also leaves in `indexOfP` the position of the first
        `)` after the prefix when it strips one. */
    method CleanMsg(p: string) returns (r: string)
      modifies this
      ensures r == Framing.CleanMsg(p) && State() == old(State())
      ensures StartsWith(p, Framing.FramePrefix) ==> serial.indexOfP == IndexOf(p[8..], ')')
    {
      r := p;
      if StartsWith(r, Framing.FramePrefix) {
        assert Remove(r, 0, 8) == p[8..];
        r := Remove(r, 0, 8);
        serial := serial.(indexOfP := IndexOf(r, ')'));
        r := Remove(r, serial.indexOfP, -1);
      }
    }

    /** The accumulate part of every reader loop: read a fragment, append it to
        `msg`, trim, and stop once the trimmed text holds a `(` and then a `)`
        past its first position; or stop when the input runs out. */
    method GatherFrame() returns (complete: bool)
      modifies this
      ensures var g := Framing.Gather(old(serial.msg), old(io.serialIn));
        complete == g.complete && State() == old(State()).(msg := g.buffer, serialIn := g.rest)
    {
      ghost var g0 := Framing.Gather(serial.msg, io.serialIn);
      complete := false;
      while io.serialIn != []
        invariant Framing.Gather(serial.msg, io.serialIn) == g0
        invariant State() == old(State()).(msg := serial.msg, serialIn := io.serialIn)
        decreases |io.serialIn|
      {
        var fragment := ReadSerial();
        var msg := serial.msg + fragment;
        serial := serial.(msg := msg, msgLength := |msg|);
        msg := Trim(msg);
        serial := serial.(msg := msg);
        if serial.msgLength > 2 {
          serial := serial.(indexOfP := IndexOf(msg, '('));
          if serial.indexOfP > 0 {
            serial := serial.(indexOfP := IndexOf(msg, ')'));
            if serial.indexOfP > 0 {
              complete := true;
              return;
            }
          }
        }
      }
    }

    /** The reader loop of `processCmd`, `startUpAuto` and `startUpManually`:
        from an empty buffer, one frame gathered and, once complete, cleaned. */
    method ReceiveFrame() returns (complete: bool)
      modifies this
      ensures complete == Receives(old(State())) && State() == ControllerSpec.ReceiveFrame(old(State()))
    {
      serial := serial.(keepWaiting := true, msg := "");
      complete := GatherFrame();
      if complete {
        var msg := CleanMsg(serial.msg);
        serial := serial.(msg := msg);
      }
    }

    /** One pass of the `waitForMessage` loop from an empty buffer: a frame is
        gathered and cleaned, then accepted (`keepWaiting` becomes false) or
        rejected (answered with an error line, and the buffer cleared). */
    method WaitRound(expected: string) returns (complete: bool)
      requires serial.msg == ""
      modifies this
      ensures var g := Framing.Gather("", old(io.serialIn));
        var p := Framing.CleanMsg(g.buffer);
        var s := old(State()).(serialIn := g.rest);
        && complete == g.complete
        && (!complete ==> State() == s.(msg := g.buffer))
        && (complete && StartsWith(p, expected) ==> State() == s.(msg := p, keepWaiting := false))
        && (complete && !StartsWith(p, expected) ==> State() == Send(s, "SC Error: " + p))
    {
      complete := GatherFrame();
      if complete {
        var msg := CleanMsg(serial.msg);
        serial := serial.(msg := msg);
        if StartsWith(msg, expected) {
          serial := serial.(keepWaiting := false);
        } else {
          SendMessage("SC Error: " + msg);
          serial := serial.(msg := "");
        }
      }
    }

    /** `waitForMessage(expected)`: frames are read until one whose cleaned
        payload starts with `expected`; each other one is answered
        `Strike(SC Error: payload)` and the buffer cleared. */
    method WaitForMessage(expected: string)
      modifies this
      ensures State() == ControllerSpec.WaitForMessage(old(State()), expected)
    {
      ghost var w0 := Framing.WaitFor(expected, io.serialIn);
      ghost var rejected: seq<string> := [];
      serial := serial.(keepWaiting := true, msg := "");
      while serial.keepWaiting
        invariant serial.keepWaiting ==> serial.msg == "" && Resumes(w0, rejected, Framing.WaitFor(expected, io.serialIn))
        invariant !serial.keepWaiting ==> w0 == Framing.Waited(true, serial.msg, rejected, io.serialIn)
        invariant io.serialOut == old(io.serialOut) + Framing.ErrorLines(rejected)
        invariant State() == old(State()).(keepWaiting := serial.keepWaiting, msg := serial.msg, serialIn := io.serialIn,
                                           serialOut := io.serialOut)
        decreases |io.serialIn|
      {
        ghost var before := io.serialIn;
        ghost var g := Framing.Gather("", before);
        ghost var p := Framing.CleanMsg(g.buffer);
        Framing.WaitForRound(expected, before);
        var complete := WaitRound(expected);
        if !complete {
          return;
        }
        if serial.keepWaiting {
          ghost var w1 := Framing.WaitFor(expected, g.rest);
          assert Framing.WaitFor(expected, before).rejected == [p] + w1.rejected;
          AppendAssoc(rejected, [p], w1.rejected);
          Framing.ErrorLinesSnoc(rejected, p);
          AppendAssoc(old(io.serialOut), Framing.ErrorLines(rejected), [Framing.Strike("SC Error: " + p)]);
          rejected := rejected + [p];
        }
      }
    }

    // ------------------------------------------------------------------- setup

    /** One pass of the `preSetupPrompt` loop from an empty buffer: a frame is
        gathered and cleaned; payload `1` or `2` chooses the launch mode and is
        echoed, any other payload is answered `Error 1` and cleared. */
    method PromptRound() returns (complete: bool)
      requires serial.msg == ""
      modifies this
      ensures var g := Framing.Gather("", old(io.serialIn));
        var p := Framing.CleanMsg(g.buffer);
        var s := old(State()).(serialIn := g.rest);
        && complete == g.complete
        && (!complete ==> State() == s.(msg := g.buffer))
        && (complete && (p == "1" || p == "2") ==>
              State() == Send(s.(msg := p, keepWaiting := false, launchMode := if p == "1" then 1 else 2), "read: " + p))
        && (complete && p != "1" && p != "2" ==> State() == Send(s, "Error 1"))
    {
      complete := GatherFrame();
      if complete {
        var msg := CleanMsg(serial.msg);
        serial := serial.(msg := msg);
        if msg == "1" {
          serial := serial.(keepWaiting := false);
          settings := settings.(launchMode := 1);
          SendMessage("read: " + msg);
        } else if msg == "2" {
          serial := serial.(keepWaiting := false);
          settings := settings.(launchMode := 2);
          SendMessage("read: " + msg);
        } else {
          SendMessage("Error 1");
          serial := serial.(msg := "");
        }
      }
    }

    /** `preSetupPrompt`: the question, then frames until one chooses the
        launch mode, each other one answered `Error 1`. */
    method PreSetupPrompt()
      modifies this
      ensures State() == ControllerSpec.PreSetupPrompt(old(State()))
    {
      SendMessage(PromptQuestion);
      ghost var r0 := Framing.Prompt(io.serialIn);
      ghost var start := io.serialOut;
      ghost var errors: nat := 0;
      serial := serial.(keepWaiting := true, msg := "");
      while serial.keepWaiting
        invariant serial.keepWaiting ==> io.serialOut == start + Copies(Framing.Strike("Error 1"), errors)
        invariant !serial.keepWaiting ==>
          io.serialOut == start + Copies(Framing.Strike("Error 1"), errors) + [Framing.Strike("read: " + serial.msg)]
        invariant serial.keepWaiting ==>
          serial.msg == "" && settings.launchMode == old(settings.launchMode) && PromptResumes(r0, errors, Framing.Prompt(io.serialIn))
        invariant !serial.keepWaiting ==> r0 == Framing.Prompted(settings.launchMode, serial.msg, errors, io.serialIn) && settings.launchMode != 0
        invariant State() == old(State()).(keepWaiting := serial.keepWaiting, msg := serial.msg, serialIn := io.serialIn,
                                           serialOut := io.serialOut, launchMode := settings.launchMode)
        decreases |io.serialIn|
      {
        ghost var before := io.serialIn;
        Framing.PromptRound(before);
        var complete := PromptRound();
        if !complete {
          return;
        }
        if serial.keepWaiting {
          AppendAssoc(start, Copies(Framing.Strike("Error 1"), errors), [Framing.Strike("Error 1")]);
          errors := errors + 1;
        }
      }
    }

    /** The cut every comma parser makes on `msg`: `commaIndex = msg.indexOf(",")`,
        the field `msg.substring(0, commaIndex)`, then `msg.remove(0, commaIndex + 1)`. */
    method CutMsg() returns (field: string)
      modifies this
      ensures var c := Commands.CutField(old(serial.msg));
        field == c.field && State() == old(State()).(msg := c.rest, commaIndex := c.comma)
    {
      Commands.CutFieldIsStringCut(serial.msg);
      var commaIndex := IndexOf(serial.msg, ',');
      field := Substring(serial.msg, commaIndex);
      serial := serial.(commaIndex := commaIndex, msg := Remove(serial.msg, 0, commaIndex + 1));
    }

    /** `processSettings`: four cuts of `msg`, then each field read with `toInt`. */
    method ProcessSettings()
      modifies this
      ensures State() == ControllerSpec.ProcessSettings(old(State()))
    {
      var minDelay := CutMsg();
      settings := settings.(minDelayString := minDelay);
      var maxDelay := CutMsg();
      settings := settings.(maxDelayString := maxDelay);
      var current := CutMsg();
      position := position.(currentPositionString := current);
      var max := CutMsg();
      position := position.(maxPositionString := max);
      settings := settings.(minDelayInt := ToInt(minDelay), maxDelayInt := ToInt(maxDelay));
      position := position.(currentPositionInt := ToInt(current), maxPositionInt := ToInt(max));
    }

    /** `startUpAuto`: the question, one frame gathered, its settings processed,
        and the reply. */
    method StartUpAuto()
      modifies this
      ensures State() == ControllerSpec.StartUpAuto(old(State()))
    {
      SendMessage(AutoQuestion);
      var complete := ReceiveFrame();
      if !complete {
        return;
      }
      ProcessSettings();
      serial := serial.(keepWaiting := false);
      SendMessage("Recieved minDelay: " + settings.minDelayString + " maxDelay: " + settings.maxDelayString
                  + " currentPosition: " + position.currentPositionString + " maxPosition: " + position.maxPositionString);
    }

    /** The first part of `startUpManually`: the question, one frame gathered
        and cleaned, two cuts for the minimum and the maximum delay, and the
        reply. */
    method ReadDelays()
      modifies this
      ensures State() == ControllerSpec.ReadDelays(old(State()))
    {
      SendMessage(ManualQuestion);
      var complete := ReceiveFrame();
      if !complete {
        return;
      }
      var minDelay := CutMsg();
      Commands.CutFieldIsStringCut(serial.msg);
      var commaIndex := IndexOf(serial.msg, ',');
      var maxDelay := Substring(serial.msg, commaIndex);
      serial := serial.(commaIndex := commaIndex);
      settings := settings.(minDelayString := minDelay, maxDelayString := maxDelay,
                            minDelayInt := ToInt(minDelay), maxDelayInt := ToInt(maxDelay));
      serial := serial.(keepWaiting := false);
      SendMessage("Recieved minDelay: " + minDelay + " maxDelay: " + maxDelay);
    }

    /** The zero jog of `startUpManually`: counter-clockwise steps until CmdReady
        reads LOW, which sets the position to zero. */
    method JogToZero()
      modifies this
      ensures State() == ControllerSpec.JogToZero(old(State()))
    {
      ghost var s0 := old(State());
      ghost var readings := io.cmdReadyIn;
      ghost var k: nat := 0;
      serial := serial.(keepWaiting := true);
      while serial.keepWaiting && io.cmdReadyIn != []
        invariant k <= LeadingHigh(readings)
        invariant serial.keepWaiting ==> State() == CcwJogged(s0, k).(cmdReadyIn := readings[k..])
        invariant !serial.keepWaiting ==>
          k == LeadingHigh(readings) < |readings|
          && State() == ControllerSpec.ZeroReached(CcwJogged(s0, k).(cmdReadyIn := readings[k + 1..]))
        decreases |io.cmdReadyIn|
      {
        var v := ReadCmdReady();
        if v == Low {
          ZeroReached();
        } else {
          Phase.CcwTimesSnoc(s0.coils, s0.stepKind, k);
          StepCCW();
          k := k + 1;
        }
      }
    }

    /** The LOW branch of the zero jog. */
    method ZeroReached()
      modifies this
      ensures State() == ControllerSpec.ZeroReached(old(State()))
    {
      SendMessage(ZeroSet);
      SendMessage(MaxPrompt);
      position := position.(currentPositionInt := 0);
      serial := serial.(keepWaiting := false);
    }

    /** The maximum jog of `startUpManually`: clockwise steps, each counted on the
        position, until CmdReady reads LOW. */
    method JogToMax()
      modifies this
      ensures State() == ControllerSpec.JogToMax(old(State()))
    {
      ghost var s0 := old(State());
      ghost var readings := io.cmdReadyIn;
      ghost var k: nat := 0;
      serial := serial.(keepWaiting := true);
      while serial.keepWaiting && io.cmdReadyIn != []
        invariant k <= LeadingHigh(readings)
        invariant serial.keepWaiting ==> State() == CwJogged(s0, k).(cmdReadyIn := readings[k..])
        invariant !serial.keepWaiting ==>
          k == LeadingHigh(readings) < |readings|
          && State() == ControllerSpec.MaxReached(CwJogged(s0, k).(cmdReadyIn := readings[k + 1..]))
        decreases |io.cmdReadyIn|
      {
        var v := ReadCmdReady();
        if v == Low {
          MaxReached();
        } else {
          Phase.CwTimesSnoc(s0.coils, s0.stepKind, k);
          StepCW();
          position := position.(currentPositionInt := position.currentPositionInt + 1);
          k := k + 1;
        }
      }
    }

    /** The LOW branch of the maximum jog: the maximum stored and reported, and
        one counter-clockwise step back off it. */
    method MaxReached()
      modifies this
      ensures State() == ControllerSpec.MaxReached(old(State()))
    {
      var max := position.currentPositionInt;
      position := position.(maxPositionInt := max, maxPositionString := IntToString(max));
      SendMessage("Max position: " + position.maxPositionString);
      StepCCW();
      position := position.(currentPositionInt := position.currentPositionInt - 1);
      serial := serial.(keepWaiting := false);
    }

    /** `startUpManually`: the delays, `Go`, the zero jog, `Go`, and the
        maximum jog. */
    method StartUpManually()
      modifies this
      ensures State() == ControllerSpec.StartUpManually(old(State()))
    {
      ReadDelays();
      if serial.keepWaiting {
        return;
      }
      SendMessage(ZeroPrompt);
      WaitForMessage("Go");
      if serial.keepWaiting {
        return;
      }
      JogToZero();
      if serial.keepWaiting {
        return;
      }
      WaitForMessage("Go");
      if serial.keepWaiting {
        return;
      }
      JogToMax();
    }

    /** The wait of `runSetup` for CmdReady to read LOW. */
    method WaitReady()
      modifies this
      ensures State() == ControllerSpec.WaitReady(old(State()))
    {
      ghost var readings := io.cmdReadyIn;
      ghost var k: nat := 0;
      serial := serial.(keepWaiting := true);
      while serial.keepWaiting && io.cmdReadyIn != []
        invariant k <= LeadingHigh(readings)
        invariant serial.keepWaiting ==> State() == old(State()).(keepWaiting := true, cmdReadyIn := readings[k..])
        invariant !serial.keepWaiting ==>
          k == LeadingHigh(readings) < |readings|
          && State() == old(State()).(keepWaiting := false, cmdReadyIn := readings[k + 1..])
        decreases |io.cmdReadyIn|
      {
        var v := ReadCmdReady();
        if v == Low {
          serial := serial.(keepWaiting := false);
        } else {
          k := k + 1;
        }
      }
    }

    /** The launch branch of `runSetup`: the setup the launch mode names, or
        the error line for any other mode. */
    method Launch()
      modifies this
      ensures State() == ControllerSpec.Launch(old(State()))
    {
      if settings.launchMode == 1 {
        StartUpManually();
      } else if settings.launchMode == 2 {
        StartUpAuto();
      } else {
        SendMessage(SetupError);
      }
    }

    /** `runSetup`: the ready wait, the prompt, the chosen setup, the wait for
        `Go`, then Done HIGH and Processing LOW. */
    method RunSetup()
      modifies this
      ensures State() == ControllerSpec.RunSetup(old(State()))
    {
      WaitReady();
      if serial.keepWaiting {
        return;
      }
      PreSetupPrompt();
      if serial.keepWaiting {
        return;
      }
      Launch();
      if serial.keepWaiting {
        return;
      }
      SendMessage(SetupDone);
      WaitForMessage("Go");
      if serial.keepWaiting {
        return;
      }
      io := io.(doneLine := High, processingWrites := io.processingWrites + [Low]);
    }

    // ---------------------------------------------------------------- commands

    /** `calculateDelay(speedVal)` over exact arithmetic. */
    method CalculateDelay(speedVal: int)
      modifies this
      ensures State() == old(State()).(currentDelayInt := Commands.Delay(old(settings.minDelayInt), old(settings.maxDelayInt), speedVal))
    {
      var num := 100 * settings.maxDelayInt + (settings.minDelayInt - settings.maxDelayInt) * speedVal;
      settings := settings.(currentDelayInt := Commands.RoundDiv100(num));
    }

    /** The cuts of the mark-2 branch of `processCmd`: the mark and its comma
        are removed, two cuts give the speed and the steps, the rest is the
        direction. */
    method CutMove()
      modifies this
      ensures State() == ControllerSpec.CutMove(old(State()))
    {
      serial := serial.(msg := Remove(serial.msg, 0, serial.commaIndex + 1));
      var speed := CutMsg();
      var steps := CutMsg();
      settings := settings.(speedString := speed, stepsString := steps, directionString := serial.msg);
    }

    /** The mark-2 branch of `processCmd`: the fields cut, each read with
        `toInt`, the delay computed and the motion started. */
    method StartMove()
      modifies this
      ensures State() == ControllerSpec.StartMove(old(State()))
    {
      CutMove();
      settings := settings.(speedInt := ToInt(settings.speedString), stepsInt := ToInt(settings.stepsString),
                            directionInt := ToInt(settings.directionString));
      CalculateDelay(settings.speedInt);
      position := position.(done := false);
      io := io.(doneLine := Low);
    }

    /** The mark-1 branch of `processCmd`. */
    method ReportCommand()
      modifies this
      ensures State() == ControllerSpec.ReportCommand(old(State()))
    {
      position := position.(currentPositionString := IntToString(position.currentPositionInt),
                            maxPositionString := IntToString(position.maxPositionInt));
      settings := settings.(speedString := IntToString(settings.speedInt),
                            minDelayString := IntToString(settings.minDelayInt),
                            maxDelayString := IntToString(settings.maxDelayInt));
      SendMessage("Settings: " + position.currentPositionString + "," + position.maxPositionString + ","
                  + settings.minDelayString + "," + settings.maxDelayString);
      Finish();
    }

    /** The dispatch of `processCmd` on the cleaned payload in `msg`: the mark
        is the text before the first comma of a payload longer than one
        character, or the whole payload. */
    method Dispatch()
      modifies this
      ensures State() == ControllerSpec.Dispatch(old(State()))
    {
      var msg := serial.msg;
      serial := serial.(msgLength := |msg|);
      if serial.msgLength > 1 {
        serial := serial.(commaIndex := IndexOf(msg, ','));
        settings := settings.(cmdMarkString := Substring(msg, serial.commaIndex));
      } else {
        settings := settings.(cmdMarkString := msg);
      }
      var mark := settings.cmdMarkString;
      if mark == "3" {
        Finish();
      } else if mark == "1" {
        ReportCommand();
      } else if mark == "2" {
        StartMove();
      }
    }

    /** `processCmd`. */
    method ProcessCmd()
      modifies this
      ensures State() == ControllerSpec.ProcessCmd(old(State()))
    {
      io := io.(processingWrites := io.processingWrites + [High]);
      var complete := ReceiveFrame();
      if !complete {
        return;
      }
      Dispatch();
      serial := serial.(keepWaiting := false);
      io := io.(processingWrites := io.processingWrites + [Low]);
    }

    /** `run()`: one CmdReady reading; LOW processes a command, HIGH ticks the
        motion unless it is done, and then changes nothing. */
    method Run()
      modifies this
      ensures State() == ControllerSpec.Run(old(State()))
    {
      var v := ReadCmdReady();
      if v == Low {
        ProcessCmd();
      } else if position.done {
      } else {
        ModulateStepper();
      }
    }
  }

  /** `w` is what is left of the outcome `w0` of a reader loop once the
      payloads `rejected` have been rejected. */
  predicate Resumes(w0: Framing.Waited, rejected: seq<string>, w: Framing.Waited) {
    w0.matched == w.matched && w0.buffer == w.buffer && w0.rest == w.rest
    && w0.rejected == rejected + w.rejected
  }

  /** `r` is what is left of the outcome `r0` of `preSetupPrompt`'s loop once
      `errors` frames have been answered with an error. */
  predicate PromptResumes(r0: Framing.Prompted, errors: nat, r: Framing.Prompted) {
    r0.mode == r.mode && r0.buffer == r.buffer && r0.rest == r.rest && r0.errors == errors + r.errors
  }

  lemma AppendAssoc<T>(a: seq<T>, b: seq<T>, c: seq<T>)
    ensures (a + b) + c == a + (b + c)
  {
  }
}
