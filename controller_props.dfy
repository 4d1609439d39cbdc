/** What the operations of `ControllerSpec` promise about the controller as a
    whole: the Processing handshake of `processCmd`, what each command mark
    does and leaves alone, `run()` at rest and in motion, the power-up state,
    manual calibration, and an automatic setup followed by a move, each from
    the frames and readings that arrive. */
module ControllerProps {
  import opened ArduinoString
  import Phase
  import Motion
  import Framing
  import Commands
  import opened ControllerSpec

  // ------------------------------------------------------------ processCmd

  /** Processing goes HIGH when `processCmd` starts and LOW once it has handled
      a complete frame; while the frame is incomplete it stays HIGH and the
      reader is still waiting. */
  lemma ProcessCmdSignals(s: Snapshot)
    ensures var r := ProcessCmd(s);
      && (Receives(s) ==> r.processingWrites == s.processingWrites + [High, Low] && !r.keepWaiting)
      && (!Receives(s) ==> r.processingWrites == s.processingWrites + [High] && r.keepWaiting)
  {
    var s1 := ReceiveFrame(s.(processingWrites := s.processingWrites + [High]));
    assert Dispatch(s1).processingWrites == s1.processingWrites;
  }

  /** What `processCmd` does with a cleaned payload, by its mark:
      - `3` sets `done` and Done HIGH and changes nothing else (the steps left
        are kept);
      - `1` writes the settings report and sets `done` and Done HIGH;
      - `2` takes speed, steps and direction from the payload, computes the
        delay, and starts the motion with Done LOW;
      - any other mark changes nothing but the mark and `commaIndex`.
      No mark touches the coils, the inputs or the Processing line, and only
      mark `2` clears `done`. */
  lemma DispatchOutcome(s: Snapshot)
    ensures var c, r := Commands.Parse(s.msg, s.commaIndex), Dispatch(s);
      && (c.Stop? ==> r == s.(cmdMarkString := r.cmdMarkString, commaIndex := r.commaIndex,
                              motion := s.motion.(done := true), doneLine := High))
      && (c.Report? ==>
            && r.serialOut == s.serialOut + [Framing.Strike(SettingsReport(s.motion.position, s.motion.maxPosition,
                                                                           s.minDelayInt, s.maxDelayInt))]
            && r.motion == s.motion.(done := true) && r.doneLine == High)
      && (c.Move? ==>
            && r.motion == s.motion.(steps := ToInt(c.text.steps), direction := ToInt(c.text.direction), done := false)
            && r.speedInt == ToInt(c.text.speed)
            && r.currentDelayInt == Commands.Delay(s.minDelayInt, s.maxDelayInt, ToInt(c.text.speed))
            && r.doneLine == Low && r.serialOut == s.serialOut)
      && (c.Ignored? ==> r == s.(cmdMarkString := r.cmdMarkString, commaIndex := r.commaIndex))
      && r.coils == s.coils && r.stepKind == s.stepKind && r.serialIn == s.serialIn
      && r.cmdReadyIn == s.cmdReadyIn && r.processingWrites == s.processingWrites
      && (s.motion.done && !r.motion.done ==> c.Move?)
  {
  }

  // ------------------------------------------------------------------ run

  /** `n` calls of `run()`. */
  function Runs(s: Snapshot, n: nat): Snapshot
    decreases n
  {
    if n == 0 then s else Runs(Run(s), n - 1)
  }

  /** While CmdReady reads HIGH, `n` calls of `run()` drive the motion exactly
      as `Motion.Drive` does, consume `n` readings, and write nothing to the
      serial line. */
  lemma {:induction false} RunsDrive(s: Snapshot, n: nat)
    requires n <= |s.cmdReadyIn|
    requires forall i :: 0 <= i < n ==> s.cmdReadyIn[i] == High
    ensures var r := Runs(s, n);
      r.motion == Motion.Drive(s.motion, n) && r.cmdReadyIn == s.cmdReadyIn[n..]
      && r.serialOut == s.serialOut && r.serialIn == s.serialIn
    decreases n
  {
    if n > 0 {
      var s1 := Run(s);
      assert s1.motion == (if s.motion.done then s.motion else Motion.Tick(s.motion));
      assert s1.cmdReadyIn == s.cmdReadyIn[1..];
      RunsDrive(s1, n - 1);
      assert s.cmdReadyIn[1..][n - 1..] == s.cmdReadyIn[n..];
      if s.motion.done {
        DoneDrive(s.motion, n);
      }
    }
  }

  /** A motion that is done stays where it is. */
  lemma DoneDrive(m: Motion.MotionState, n: nat)
    requires m.done
    ensures Motion.Drive(m, n) == m
  {
  }

  /** A move started inside the travel, followed by enough HIGH readings, ends
      done at `min(p + s, max)` going up or `max(p - s, 0)` going down. */
  lemma RunsClamp(s: Snapshot, n: nat)
    requires Motion.Startable(s.motion) && Motion.Limit(s.motion) < n
    requires n <= |s.cmdReadyIn|
    requires forall i :: 0 <= i < n ==> s.cmdReadyIn[i] == High
    ensures var r := Runs(s, n);
      r.motion.done && r.motion.position == Motion.FinalPosition(s.motion)
      && r.motion.maxPosition == s.motion.maxPosition
  {
    RunsDrive(s, n);
    Motion.DriveClamps(s.motion, n);
  }

  // -------------------------------------------------------------- power-up

  /** At power-up the coils are off, `stepKind` is 8, every number is 0 and
      `done` is set; so the first step lands on pattern `A` whichever way the
      motor turns, and `run()` with CmdReady HIGH changes nothing but the
      readings it consumes. */
  lemma PowerUp(serialIn: seq<string>, rest: seq<Level>)
    ensures var s := Initial(serialIn, [High] + rest);
      && s.coils == Phase.Off && s.stepKind == 8 && s.motion.done && s.launchMode == 0
      && s.motion == Motion.MotionState(0, 0, 0, 0, true)
      && s.minDelayInt == 0 && s.maxDelayInt == 0 && s.currentDelayInt == 0 && s.speedInt == 0
      && Phase.NextCCW(s.coils, s.stepKind) == Phase.A && Phase.NextCW(s.coils, s.stepKind) == Phase.A
      && Run(s) == Initial(serialIn, rest)
  {
    Phase.OffIsUnrecognised();
    Phase.UnrecognisedRestarts(Phase.Off);
  }

  /** At power-up, any number of `run()` calls while CmdReady reads HIGH (or
      no readings remain) change nothing but the readings they consume: the
      controller stays idle until a command arrives. */
  lemma {:induction false} PowerUpIdle(serialIn: seq<string>, levels: seq<Level>, n: nat)
    requires forall i :: 0 <= i < n && i < |levels| ==> levels[i] == High
    ensures Runs(Initial(serialIn, levels), n) == Initial(serialIn, if n <= |levels| then levels[n..] else [])
    decreases n
  {
    if n > 0 {
      var s := Initial(serialIn, levels);
      assert Run(s) == Initial(serialIn, AfterReading(levels));
      PowerUpIdle(serialIn, AfterReading(levels), n - 1);
      if levels != [] && n <= |levels| {
        assert levels[1..][n - 1..] == levels[n..];
      }
    }
  }

  /** A move whose direction is neither 1 nor 2 never finishes: while CmdReady
      reads HIGH, `run()` keeps calling `modulateStepper`, which neither steps
      nor sets `done`, and Done stays as it was. */
  lemma {:induction false} RunsIdleOnUnknownDirection(s: Snapshot, n: nat)
    requires Motion.MayMove(s.motion) && s.motion.steps > 0 && !s.motion.done
    requires s.motion.direction != 1 && s.motion.direction != 2
    requires forall i :: 0 <= i < n && i < |s.cmdReadyIn| ==> s.cmdReadyIn[i] == High
    ensures var r := Runs(s, n);
      r == s.(cmdReadyIn := if n <= |s.cmdReadyIn| then s.cmdReadyIn[n..] else [])
    decreases n
  {
    if n > 0 {
      Motion.TickIdlesOnUnknownDirection(s.motion, 0);
      var s1 := s.(cmdReadyIn := AfterReading(s.cmdReadyIn));
      assert Run(s) == s1;
      RunsIdleOnUnknownDirection(s1, n - 1);
      if s.cmdReadyIn != [] && n <= |s.cmdReadyIn| {
        assert s.cmdReadyIn[1..][n - 1..] == s.cmdReadyIn[n..];
      }
    }
  }

  /** No operation changes `stepKind`, so the half-step table of `stepKind`
      8 set at power-up stays in effect. */
  lemma StepKindFixed(s: Snapshot)
    ensures RunSetup(s).stepKind == s.stepKind && Run(s).stepKind == s.stepKind
  {
    SetupKeepsStepKind(s);
    RunKeepsStepKind(s);
  }

  lemma SetupKeepsStepKind(s: Snapshot)
    ensures RunSetup(s).stepKind == s.stepKind
  {
    var s1 := WaitReady(s);
    var s2 := PreSetupPrompt(s1);
    LaunchKeepsStepKind(s2);
  }

  lemma RunKeepsStepKind(s: Snapshot)
    ensures Run(s).stepKind == s.stepKind
  {
    var s1 := s.(cmdReadyIn := AfterReading(s.cmdReadyIn));
    var s2 := ReceiveFrame(s1.(processingWrites := s1.processingWrites + [High]));
    assert Dispatch(s2).stepKind == s2.stepKind;
  }

  lemma LaunchKeepsStepKind(s: Snapshot)
    ensures Launch(s).stepKind == s.stepKind
  {
    ManualKeepsStepKind(s);
  }

  lemma ManualKeepsStepKind(s: Snapshot)
    ensures StartUpManually(s).stepKind == s.stepKind
  {
    var s1 := ReadDelays(s);
    var s2 := WaitForMessage(Send(s1, ZeroPrompt), "Go");
    var s3 := JogToZero(s2);
    var s4 := WaitForMessage(s3, "Go");
    assert JogToMax(s4).stepKind == s4.stepKind;
  }

  // ------------------------------------------------------ frames of numbers

  /** Text made of digits, minus signs and commas: what the command controller
      sends as settings and moves. */
  predicate Plain(s: string) {
    forall i :: 0 <= i < |s| ==> IsDigit(s[i]) || s[i] == '-' || s[i] == ','
  }

  lemma NumberPlain(n: int)
    ensures Plain(IntToString(n))
  {
    var r := IntToString(n);
    IntToStringSign(n);
    if n < 0 {
      assert forall i :: 1 <= i < |r| ==> r[i] == r[1..][i - 1];
    }
  }

  lemma JoinPlain(a: string, b: string)
    requires Plain(a) && Plain(b)
    ensures Plain(a + "," + b)
  {
    var j := a + "," + b;
    assert forall i :: |a| + 1 <= i < |j| ==> j[i] == b[i - |a| - 1];
  }

  /** Plain text has neither white space nor parentheses, so it travels in a
      frame unchanged. */
  lemma PlainFrames(s: string)
    requires Plain(s)
    ensures Framing.NoParens(s) && NoSpace(s)
  {
    assert forall i :: 0 <= i < |s| ==> s[i] != '(' && s[i] != ')';
  }

  /** The payload of a move command. */
  function MovePayload(speed: int, steps: int, direction: int): string {
    "2," + IntToString(speed) + "," + IntToString(steps) + "," + IntToString(direction)
  }

  lemma MovePayloadPlain(speed: int, steps: int, direction: int)
    ensures Plain(MovePayload(speed, steps, direction))
  {
    NumberPlain(speed);
    NumberPlain(steps);
    NumberPlain(direction);
    var x := IntToString(speed) + "," + IntToString(steps);
    JoinPlain(IntToString(speed), IntToString(steps));
    JoinPlain(x, IntToString(direction));
    var y := x + "," + IntToString(direction);
    assert Plain("2");
    JoinPlain("2", y);
    assert MovePayload(speed, steps, direction) == "2" + "," + y;
  }

  /** A frame `Message(2,speed,steps,direction)` read by `processCmd` sets
      the speed, the delay for it, the steps and the direction, starts the
      motion with Done LOW, and leaves the fragments after it unread. */
  lemma MoveFrameStartsMotion(s: Snapshot, speed: int, steps: int, direction: int, more: seq<string>)
    requires s.serialIn == [Framing.FramePrefix + MovePayload(speed, steps, direction) + ")"] + more
    ensures var r := ProcessCmd(s);
      && r.motion == s.motion.(steps := steps, direction := direction, done := false)
      && r.speedInt == speed && r.currentDelayInt == Commands.Delay(s.minDelayInt, s.maxDelayInt, speed)
      && r.doneLine == Low && r.serialIn == more && r.serialOut == s.serialOut
      && r.processingWrites == s.processingWrites + [High, Low]
  {
    var p := MovePayload(speed, steps, direction);
    MovePayloadPlain(speed, steps, direction);
    PlainFrames(p);
    Framing.GatherOneFrame(p, more);
    Framing.CleanMsgUnwraps(p, "");
    assert Framing.FramePrefix + p + ")" == Framing.FramePrefix + p + ")" + "";
    var s1 := ReceiveFrame(s.(processingWrites := s.processingWrites + [High]));
    assert s1.msg == p;
    Commands.MoveCommandParses(speed, steps, direction, s1.commaIndex);
    DispatchOutcome(s1);
  }

  // --------------------------------------------------- manual calibration

  /** Manual calibration: once `startUpManually` has finished, the position
      counted from the zero stop to the maximum stop is the number of
      clockwise jog steps taken after the zero stop, the motor stands one step
      back from it, and the coils show the counter-clockwise jog, the clockwise
      jog and the step back. */
  lemma ManualCalibration(s: Snapshot)
    ensures var r, n0 := StartUpManually(s), LeadingHigh(s.cmdReadyIn);
      !r.keepWaiting ==>
        n0 < |s.cmdReadyIn| &&
        var n1 := LeadingHigh(s.cmdReadyIn[n0 + 1..]);
        && n1 < |s.cmdReadyIn[n0 + 1..]|
        && r.motion.maxPosition == n1 && r.motion.position == n1 - 1
        && r.maxPositionString == IntToString(n1)
        && r.cmdReadyIn == s.cmdReadyIn[n0 + 1..][n1 + 1..]
        && r.coils == Phase.NextCCW(Phase.CwTimes(Phase.CcwTimes(s.coils, s.stepKind, n0), s.stepKind, n1), s.stepKind)
  {
    ManualStages(s);
    if !StartUpManually(s).keepWaiting {
      var s1 := ReadDelays(s);
      var s2 := WaitForMessage(Send(s1, ZeroPrompt), "Go");
      ReadDelaysKeepsMotor(s);
      WaitKeepsMotor(Send(s1, ZeroPrompt), "Go");
      JogsCalibrate(s2, WaitForMessage(JogToZero(s2), "Go"));
    }
  }

  /** The stages of `startUpManually`, once it has finished: each one
      finished, and the maximum jog came last. */
  lemma ManualStages(s: Snapshot)
    ensures var s1 := ReadDelays(s);
      var s2 := WaitForMessage(Send(s1, ZeroPrompt), "Go");
      var s4 := WaitForMessage(JogToZero(s2), "Go");
      !StartUpManually(s).keepWaiting ==>
        StartUpManually(s) == JogToMax(s4) && !JogToZero(s2).keepWaiting && !JogToMax(s4).keepWaiting
  {
  }

  /** The two jogs of a manual calibration, with the wait for `Go` between
      them. */
  lemma JogsCalibrate(s2: Snapshot, s4: Snapshot)
    requires !JogToZero(s2).keepWaiting && !JogToMax(s4).keepWaiting
    requires s4 == WaitForMessage(JogToZero(s2), "Go")
    ensures var r, n0 := JogToMax(s4), LeadingHigh(s2.cmdReadyIn);
      n0 < |s2.cmdReadyIn| &&
      var n1 := LeadingHigh(s2.cmdReadyIn[n0 + 1..]);
      && n1 < |s2.cmdReadyIn[n0 + 1..]|
      && r.motion.maxPosition == n1 && r.motion.position == n1 - 1
      && r.maxPositionString == IntToString(n1)
      && r.cmdReadyIn == s2.cmdReadyIn[n0 + 1..][n1 + 1..]
      && r.coils == Phase.NextCCW(Phase.CwTimes(Phase.CcwTimes(s2.coils, s2.stepKind, n0), s2.stepKind, n1), s2.stepKind)
  {
    WaitKeepsMotor(JogToZero(s2), "Go");
    ZeroJogEnds(s2);
    MaxJogEnds(s4);
  }

  /** Reading the delays leaves the motor, its readings and its coils alone. */
  lemma ReadDelaysKeepsMotor(s: Snapshot)
    ensures var r := ReadDelays(s);
      r.cmdReadyIn == s.cmdReadyIn && r.coils == s.coils && r.stepKind == s.stepKind && r.motion == s.motion
  {
  }

  /** Waiting for a message leaves the motor, its readings and its coils alone. */
  lemma WaitKeepsMotor(s: Snapshot, expected: string)
    ensures var r := WaitForMessage(s, expected);
      r.cmdReadyIn == s.cmdReadyIn && r.coils == s.coils && r.stepKind == s.stepKind && r.motion == s.motion
  {
  }

  /** A zero jog that has ended stands at position 0, after the HIGH readings
      and the LOW one, with one counter-clockwise step per HIGH reading. */
  lemma ZeroJogEnds(s: Snapshot)
    requires !JogToZero(s).keepWaiting
    ensures var r, n := JogToZero(s), LeadingHigh(s.cmdReadyIn);
      && n < |s.cmdReadyIn| && r.motion.position == 0 && r.cmdReadyIn == s.cmdReadyIn[n + 1..]
      && r.coils == Phase.CcwTimes(s.coils, s.stepKind, n) && r.stepKind == s.stepKind
  {
  }

  /** A maximum jog that has ended has its maximum one clockwise step per HIGH
      reading past where it started, and stands one step back from it. */
  lemma MaxJogEnds(s: Snapshot)
    requires !JogToMax(s).keepWaiting
    ensures var r, n := JogToMax(s), LeadingHigh(s.cmdReadyIn);
      && n < |s.cmdReadyIn|
      && r.motion.maxPosition == s.motion.position + n && r.motion.position == s.motion.position + n - 1
      && r.maxPositionString == IntToString(s.motion.position + n) && r.cmdReadyIn == s.cmdReadyIn[n + 1..]
      && r.coils == Phase.NextCCW(Phase.CwTimes(s.coils, s.stepKind, n), s.stepKind)
  {
  }

  // ------------------------------------------------------------ auto setup

  /** The settings payload of an automatic setup. */
  function SettingsPayload(minDelay: int, maxDelay: int, position: int, maxPosition: int): string {
    IntToString(minDelay) + "," + IntToString(maxDelay) + "," + IntToString(position) + "," + IntToString(maxPosition)
  }

  lemma SettingsPayloadPlain(minDelay: int, maxDelay: int, position: int, maxPosition: int)
    ensures Plain(SettingsPayload(minDelay, maxDelay, position, maxPosition))
  {
    NumberPlain(minDelay);
    NumberPlain(maxDelay);
    NumberPlain(position);
    NumberPlain(maxPosition);
    JoinPlain(IntToString(minDelay), IntToString(maxDelay));
    var x := IntToString(minDelay) + "," + IntToString(maxDelay);
    JoinPlain(x, IntToString(position));
    JoinPlain(x + "," + IntToString(position), IntToString(maxPosition));
  }

  /** The frame carrying payload `p`. */
  function Frame(p: string): string {
    Framing.FramePrefix + p + ")"
  }

  /** An automatic setup end to end: CmdReady LOW, then the frames `2`, the
      four settings and `Go`, leave the controller set up with those settings,
      Done HIGH and Processing LOW, and the fragments after them unread. */
  lemma AutoSetup(s: Snapshot, minDelay: int, maxDelay: int, position: int, maxPosition: int,
                  rest: seq<Level>, more: seq<string>)
    requires s.cmdReadyIn == [Low] + rest
    requires s.serialIn == [Frame("2"), Frame(SettingsPayload(minDelay, maxDelay, position, maxPosition)), Frame("Go")] + more
    ensures var r := RunSetup(s);
      && !r.keepWaiting && r.launchMode == 2
      && r.minDelayInt == minDelay && r.maxDelayInt == maxDelay
      && r.motion == s.motion.(position := position, maxPosition := maxPosition)
      && r.doneLine == High && r.processingWrites == s.processingWrites + [Low]
      && r.cmdReadyIn == rest && r.serialIn == more && r.coils == s.coils
  {
    var settings := SettingsPayload(minDelay, maxDelay, position, maxPosition);
    var tail3 := [Frame("Go")] + more;
    var tail2 := [Frame(settings)] + tail3;
    assert s.serialIn == [Frame("2")] + tail2;
    var s1 := s.(keepWaiting := false, cmdReadyIn := rest);
    assert WaitReady(s) == s1;
    PromptChooses(s1, "2", tail2);
    var s2 := PreSetupPrompt(s1);
    AutoSettingsArrive(s2, minDelay, maxDelay, position, maxPosition, tail3);
    var s3 := StartUpAuto(s2);
    GoArrives(Send(s3, SetupDone), more);
    SetupStages(s);
  }

  /** The stages of `runSetup` once each has finished. */
  lemma SetupStages(s: Snapshot)
    ensures var s1 := WaitReady(s);
      var s2 := PreSetupPrompt(s1);
      var s3 := Launch(s2);
      var s4 := WaitForMessage(Send(s3, SetupDone), "Go");
      !s1.keepWaiting && !s2.keepWaiting && !s3.keepWaiting && !s4.keepWaiting ==>
        RunSetup(s) == s4.(doneLine := High, processingWrites := s4.processingWrites + [Low])
  {
  }

  /** A frame `1` or `2` answers the launch prompt. */
  lemma PromptChooses(s: Snapshot, p: string, more: seq<string>)
    requires p == "1" || p == "2"
    requires s.serialIn == [Frame(p)] + more
    ensures PreSetupPrompt(s) == s.(keepWaiting := false, msg := p, serialIn := more,
                                    launchMode := if p == "1" then 1 else 2,
                                    serialOut := s.serialOut + [Framing.Strike(PromptQuestion), Framing.Strike("read: " + p)])
  {
    Framing.PromptAccepts(p, more);
    assert Copies(Framing.Strike("Error 1"), 0) == [];
  }

  /** A frame `Go` ends a wait for `Go`. */
  lemma GoArrives(s: Snapshot, more: seq<string>)
    requires s.serialIn == [Frame("Go")] + more
    ensures WaitForMessage(s, "Go") == s.(keepWaiting := false, msg := "Go", serialIn := more)
  {
    Framing.WaitForAcceptsPrefix("Go", "Go", more);
    assert Framing.ErrorLines([]) == [];
  }

  /** `startUpAuto` with a frame of four numbers loads them. */
  lemma AutoSettingsArrive(s: Snapshot, minDelay: int, maxDelay: int, position: int, maxPosition: int,
                           more: seq<string>)
    requires s.serialIn == [Frame(SettingsPayload(minDelay, maxDelay, position, maxPosition))] + more
    ensures var r := StartUpAuto(s);
      && !r.keepWaiting && r.serialIn == more
      && r.minDelayInt == minDelay && r.maxDelayInt == maxDelay
      && r.motion == s.motion.(position := position, maxPosition := maxPosition)
      && r.serialOut == s.serialOut + [Framing.Strike(AutoQuestion), Framing.Strike(AutoReceived(r))]
      && r.coils == s.coils && r.cmdReadyIn == s.cmdReadyIn && r.processingWrites == s.processingWrites
      && r.doneLine == s.doneLine && r.launchMode == s.launchMode
  {
    var p := SettingsPayload(minDelay, maxDelay, position, maxPosition);
    SettingsPayloadPlain(minDelay, maxDelay, position, maxPosition);
    PlainFrames(p);
    Framing.GatherOneFrame(p, more);
    Framing.CleanMsgUnwraps(p, "");
    assert Frame(p) == Framing.FramePrefix + p + ")" + "";
    var s1 := ReceiveFrame(Send(s, AutoQuestion));
    assert s1.msg == p && s1.serialIn == more;
    Commands.AutoSettingsRoundTrip(minDelay, maxDelay, position, maxPosition);
  }

  /** The delays payload of a manual setup. */
  function DelaysPayload(minDelay: int, maxDelay: int): string {
    IntToString(minDelay) + "," + IntToString(maxDelay)
  }

  /** The first part of `startUpManually` with a frame of two numbers loads
      them as the minimum and maximum delay, and writes exactly the question
      and the reply that echoes them. */
  lemma ManualDelaysArrive(s: Snapshot, minDelay: int, maxDelay: int, more: seq<string>)
    requires s.serialIn == [Frame(DelaysPayload(minDelay, maxDelay))] + more
    ensures var r := ReadDelays(s);
      && !r.keepWaiting && r.serialIn == more
      && r.minDelayInt == minDelay && r.maxDelayInt == maxDelay
      && r.minDelayString == IntToString(minDelay) && r.maxDelayString == IntToString(maxDelay)
      && r.serialOut == s.serialOut + [Framing.Strike(ManualQuestion),
                                       Framing.Strike(ManualReceived(IntToString(minDelay), IntToString(maxDelay)))]
      && r.motion == s.motion && r.coils == s.coils && r.cmdReadyIn == s.cmdReadyIn
      && r.processingWrites == s.processingWrites && r.doneLine == s.doneLine && r.launchMode == s.launchMode
  {
    var p := DelaysPayload(minDelay, maxDelay);
    NumberPlain(minDelay);
    NumberPlain(maxDelay);
    JoinPlain(IntToString(minDelay), IntToString(maxDelay));
    PlainFrames(p);
    Framing.GatherOneFrame(p, more);
    Framing.CleanMsgUnwraps(p, "");
    assert Frame(p) == Framing.FramePrefix + p + ")" + "";
    var s1 := ReceiveFrame(Send(s, ManualQuestion));
    assert s1.msg == p && s1.serialIn == more;
    Commands.NoCommaInNumber(minDelay);
    Commands.NoCommaInNumber(maxDelay);
    Commands.SplitDelaysFields(IntToString(minDelay), IntToString(maxDelay));
    ToIntOfIntToString(minDelay);
    ToIntOfIntToString(maxDelay);
  }
}
