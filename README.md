# LightningStepper in Dafny

A model of `LightningStepper`, an Arduino library that drives a unipolar
stepper motor through a ULN2003 board (four driver lines `IN1..IN4`). The
controller talks to a command controller over the serial line and three
digital lines: CmdReady (an `INPUT_PULLUP` input, LOW means "a message is
ready"), Done and Processing.

The model covers the whole class:

- the **phase sequencer**: `stepCCW`, `stepCW`, `writePinHigh` and
  `writePinLow`, with the coil mirror `isHigh_pin1..4` and `stepKind`
  (8 for half steps, 4 for full steps);
- the **motion tick**: `modulateStepper` and the `run()` loop body;
- the **framing and command layer**: the `Message(...)` frame reader,
  `cleanMsg`, `waitForMessage`, `sendMessage` (appended to an output log),
  `processSettings`, `processCmd` with its three marks (`1` report, `2` move,
  `3` stop), and `calculateDelay`;
- the **setup state machine**: `runSetup`, `preSetupPrompt`, `startUpAuto`,
  and `startUpManually` with its two jog loops.

Files:

| file | module | contents |
|---|---|---|
| `arduino_string.dfy` | `ArduinoString` | the Arduino `String` operations the controller uses: `indexOf`, `substring(0, k)`, `remove`, `trim`, `startsWith`, `toInt`, `String(int)` |
| `phase.dfy` | `Phase` | the coil patterns, the half- and full-step cycles, what a step does to each pattern |
| `motion.dfy` | `Motion` | the motion fields and one tick of `modulateStepper`, as values |
| `framing.dfy` | `Framing` | gathering serial fragments into a frame, `cleanMsg`, `Strike(...)` lines, the loops of `waitForMessage` and `preSetupPrompt` |
| `commands.dfy` | `Commands` | the comma cuts of `processSettings`, `startUpManually` and `processCmd`, command marks, `calculateDelay` |
| `controller_spec.dfy` | `ControllerSpec` | the whole object as a value (`Snapshot`) and each method as a function on it |
| `lightning_stepper.dfy` | `Controller` | the class `LightningStepper`: its fields and methods, updated in place, each proved to leave the state its `ControllerSpec` function gives |
| `controller_props.dfy` | `ControllerProps` | what the controller as a whole promises: the Processing handshake, command outcomes, `run()` at rest and in motion, power-up, manual calibration, an automatic setup |

The class keeps the header's fields, grouped as the header groups them
(`--Stepper`, `--Serial Reading`, `--Settings/Trackers`, `--Postion/State`),
plus a `World` record for everything outside the object:

- the serial input, as the sequence of fragments the coming reads return;
- the serial output, as the lines written;
- the CmdReady readings still to come;
- the level of the Done line;
- every level written to the Processing line.

Each method has the contract
`ensures State() == ControllerSpec.X(old(State()))`.
The properties are then proved about those functions.

The model follows the code and not its comments or its documentation:

- **Message matching.** The documentation says `waitForMessage("Go")` waits for
  the message `Go`. The code accepts any payload that *starts with* `Go`, so
  `Goo` passes (`Framing.GooPassesForGo`).
- **Settings report.** The comment at `processCmd` lists `currentDelay` among
  the reported settings. The code sends only the position, the maximum and
  the two delays (`ControllerSpec.SettingsReport`).
- **CCW order.** Counter-clockwise steps go through the table in the order
  `A, AB, B, BC, C, CD, D, DA`.

## Model

| member | source | states |
|---|---|---|
| `Controller.LightningStepper.constructor` | src/LightningStepper.cpp:12-21 | The seven pins are stored. Every other field has its declared initial value: coils off, `stepKind` 8, numbers 0, texts empty, `done` true. |
| `Controller.LightningStepper.WritePinHigh` | src/LightningStepper.cpp:1106-1127 | Line `pin` (1 to 4) and its mirror go high. Any other pin number changes nothing. |
| `Controller.LightningStepper.WritePinLow` | src/LightningStepper.cpp:1130-1150 | Line `pin` (1 to 4) and its mirror go low. Any other pin number changes nothing. |
| `Controller.LightningStepper.StepCCW` | src/LightningStepper.cpp:736-919 | The branch chain on the mirror leaves exactly `Phase.NextCCW(coils, stepKind)`. Nothing else changes. |
| `Controller.LightningStepper.StepCW` | src/LightningStepper.cpp:922-1103 | The branch chain on the mirror leaves exactly `Phase.NextCW(coils, stepKind)`. Nothing else changes. |
| `Controller.LightningStepper.StepOrFinish` | src/LightningStepper.cpp:614-646 | Under any of the three "free to move" guards, the shared block finishes with Done HIGH when no steps remain. Otherwise it steps once in the requested direction. |
| `Controller.LightningStepper.ModulateStepper` | src/LightningStepper.cpp:607-733 | One tick: the motion becomes `Motion.Tick`, the coils turn the way the position moved, and Done goes HIGH when the tick finishes the move. |
| `Controller.LightningStepper.ReadCmdReady` | src/LightningStepper.cpp:408-409 | Consumes the next CmdReady reading, or reads HIGH (the pull-up) when none remain. `pin_CmdReady_Value` is 0 exactly when the reading is LOW. |
| `Controller.LightningStepper.ReadSerial` | src/LightningStepper.cpp:80-88 | Returns the next fragment and consumes it. A timed-out read returns the empty text. |
| `Controller.LightningStepper.SendMessage` | src/LightningStepper.cpp:64-78 | Exactly one line `Strike(p)` is appended to the output. |
| `Controller.LightningStepper.CleanMsg` | src/LightningStepper.cpp:90-103 | Returns `Framing.CleanMsg(p)` and leaves the state alone. For a framed text it records the position of `)` in `indexOfP`. |
| `Controller.LightningStepper.GatherFrame` | src/LightningStepper.cpp:312-327 | The read-append-trim loop stops exactly where `Framing.Gather` says. The buffer and the remaining input are the ones it computes. |
| `Controller.LightningStepper.ReceiveFrame` | src/LightningStepper.cpp:488-510 | From an empty buffer, one frame is gathered and cleaned once complete. Returns whether a complete frame arrived. |
| `Controller.LightningStepper.WaitRound` | src/LightningStepper.cpp:30-58 | One loop pass either: stops with the payload when it starts with `expected`; or writes `SC Error: payload` and clears `msg`; or runs out of input. |
| `Controller.LightningStepper.WaitForMessage` | src/LightningStepper.cpp:25-62 | Leaves `ControllerSpec.WaitForMessage`. It is proved with loop invariants against `Framing.WaitFor`. |
| `Controller.LightningStepper.PromptRound` | src/LightningStepper.cpp:217-259 | One loop pass either: takes payload `1` or `2` as the launch mode and echoes it; or answers `Error 1` and clears `msg`; or runs out of input. |
| `Controller.LightningStepper.PreSetupPrompt` | src/LightningStepper.cpp:210-262 | Leaves `ControllerSpec.PreSetupPrompt`: the question, one `Error 1` per rejected frame, then `read: 1` or `read: 2` and the launch mode. |
| `Controller.LightningStepper.CutMsg` | src/LightningStepper.cpp:432-435 | The `indexOf` / `substring` / `remove` cut on `msg` equals `Commands.CutField`: the field, the rest, and `commaIndex`. |
| `Controller.LightningStepper.ProcessSettings` | src/LightningStepper.cpp:429-460 | Four cuts, each field read with `toInt`, as `ControllerSpec.ProcessSettings` gives. |
| `Controller.LightningStepper.StartUpAuto` | src/LightningStepper.cpp:264-300 | Leaves `ControllerSpec.StartUpAuto`: the question, one settings frame, and the `Recieved ...` reply. |
| `Controller.LightningStepper.ReadDelays` | src/LightningStepper.cpp:305-349 | Leaves `ControllerSpec.ReadDelays`: two cuts give the minimum and maximum delay, which are then echoed. |
| `Controller.LightningStepper.JogToZero` | src/LightningStepper.cpp:358-375 | For each HIGH reading, one counter-clockwise step. The first LOW reading sets the position to 0 and sends the two prompts. |
| `Controller.LightningStepper.ZeroReached` | src/LightningStepper.cpp:362-368 | The LOW reading of the zero jog: the position becomes 0, the wait ends, and `The zero position has been set` and the maximum prompt are written. |
| `Controller.LightningStepper.JogToMax` | src/LightningStepper.cpp:381-402 | For each HIGH reading, one clockwise step counted on the position. The first LOW reading records the maximum. |
| `Controller.LightningStepper.MaxReached` | src/LightningStepper.cpp:385-395 | The maximum becomes the position reached and is reported. One counter-clockwise step then moves back off it. |
| `Controller.LightningStepper.StartUpManually` | src/LightningStepper.cpp:302-403 | Leaves `ControllerSpec.StartUpManually`: the delays, `Go`, the zero jog, `Go`, the maximum jog. |
| `Controller.LightningStepper.WaitReady` | src/LightningStepper.cpp:171-181 | Consumes CmdReady readings up to and including the first LOW one. |
| `Controller.LightningStepper.Launch` | src/LightningStepper.cpp:188-199 | Launch mode 1 starts manual setup and mode 2 starts automatic setup. Any other mode sends `SC Error: setup code wrong`. |
| `Controller.LightningStepper.RunSetup` | src/LightningStepper.cpp:117-208 | Leaves `ControllerSpec.RunSetup`: wait for CmdReady, prompt, set up, `Go`, then Done HIGH and Processing LOW. |
| `Controller.LightningStepper.CalculateDelay` | src/LightningStepper.cpp:105-111 | `currentDelayInt` becomes `Commands.Delay(minDelayInt, maxDelayInt, speed)`. Nothing else changes. |
| `Controller.LightningStepper.CutMove` | src/LightningStepper.cpp:558-573 | The cuts of mark 2 give the speed, steps and direction texts, as `Commands.SplitMove` does. |
| `Controller.LightningStepper.StartMove` | src/LightningStepper.cpp:552-586 | The fields are read with `toInt` and the delay is computed. The motion restarts (`done` false) with Done LOW. |
| `Controller.LightningStepper.ReportCommand` | src/LightningStepper.cpp:537-551 | The settings are written back as text and the report is sent. `done` is set and Done goes HIGH. |
| `Controller.LightningStepper.Dispatch` | src/LightningStepper.cpp:510-586 | The mark is taken from the payload and the matching branch runs, as `ControllerSpec.Dispatch` gives. |
| `Controller.LightningStepper.ProcessCmd` | src/LightningStepper.cpp:462-601 | Processing HIGH, one frame received and dispatched, then Processing LOW. |
| `Controller.LightningStepper.Run` | src/LightningStepper.cpp:406-427 | One CmdReady reading: LOW processes a command; HIGH ticks the motion unless `done` is set. |
| `ArduinoString.IndexOfFirst` | src/LightningStepper.cpp:432 | `indexOf(c)` is -1 exactly when `c` is absent. Otherwise it is the first position of `c`. |
| `ArduinoString.TrimKeepsMiddle` | src/LightningStepper.cpp:318 | `trim()` leaves a contiguous slice of the text. Only whitespace is dropped around it, and the result neither starts nor ends with whitespace. |
| `ArduinoString.TrimNoSpace` | src/LightningStepper.cpp:318 | `trim()` leaves a text without whitespace unchanged. |
| `ArduinoString.ToIntOfIntToString` | src/LightningStepper.cpp:541-546 | `toInt(String(n)) == n` for every integer: a round trip between the report and the parsers. |
| `ArduinoString.IntToStringSign` | src/LightningStepper.cpp:541-546 | `String(n)` is non-empty and all digits, after a `-` exactly when `n` is negative. |
| `ArduinoString.ToIntWithoutDigits` | src/LightningStepper.cpp:455-459 | `toInt` reads 0 from a text that does not start with a digit, a sign or whitespace. |
| `Phase.PhaseOf` | src/LightningStepper.cpp:738-919 | A recognised pattern is at that position of the eight-entry table. |
| `Phase.TableIsStepPatterns` | src/LightningStepper.cpp:736-919 | The patterns the chain recognises are exactly the legal ones: one line high, or two neighbouring lines high. The two-line ones are the odd entries. |
| `Phase.HalfStepCycle` | src/LightningStepper.cpp:736-919 | With `stepKind` 8, a CCW step moves one entry on, a CW step one entry back. |
| `Phase.FullStepCycle` | src/LightningStepper.cpp:736-919 | With `stepKind` 4, a CCW step moves to the next two-line entry and a CW step to the previous one. |
| `Phase.CwUndoesCcw` | src/LightningStepper.cpp:736-1103 | On the cycle of either step kind, a CW step undoes a CCW step. |
| `Phase.CcwUndoesCw` | src/LightningStepper.cpp:736-1103 | On the cycle of either step kind, a CCW step undoes a CW step. |
| `Phase.StepOnCycle` | src/LightningStepper.cpp:736-1103 | From any state, one step of kind 4 or 8 lands on that kind's cycle. |
| `Phase.JogBack` | src/LightningStepper.cpp:381-392 | A CCW step after `n` CW steps equals `n - 1` CW steps. This is the one-step backing-off of manual calibration. |
| `Phase.HalfCcwTurns` | src/LightningStepper.cpp:736-919 | `n` half steps CCW from entry `i` reach entry `(i + n) mod 8`. |
| `Phase.HalfCwTurns` | src/LightningStepper.cpp:922-1103 | `n` half steps CW from entry `i` reach entry `(i - n) mod 8`. |
| `Phase.FullCcwTurns` | src/LightningStepper.cpp:736-919 | `n` full steps CCW from a two-line entry `i` reach `(i + 2n) mod 8`. |
| `Phase.FullCwTurns` | src/LightningStepper.cpp:922-1103 | `n` full steps CW from a two-line entry `i` reach `(i - 2n) mod 8`. |
| `Phase.HalfCcwPeriod` | src/LightningStepper.cpp:736-919 | `n > 0` half steps CCW return to the start exactly when `n` is a multiple of 8. |
| `Phase.HalfCwPeriod` | src/LightningStepper.cpp:922-1103 | `n > 0` half steps CW return to the start exactly when `n` is a multiple of 8. |
| `Phase.FullCcwPeriod` | src/LightningStepper.cpp:736-919 | `n > 0` full steps CCW return to the start exactly when `n` is a multiple of 4. |
| `Phase.FullCwPeriod` | src/LightningStepper.cpp:922-1103 | `n > 0` full steps CW return to the start exactly when `n` is a multiple of 4. |
| `Phase.StepLandsOnPattern` | src/LightningStepper.cpp:736-1103 | Every step leaves a legal pattern. With `stepKind` 4 it is always a neighbouring pair. |
| `Phase.UnrecognisedRestarts` | src/LightningStepper.cpp:899-918 | From an unrecognised state, both directions restart at `A` (kind 8) or `AB` (kind 4). |
| `Phase.OffIsUnrecognised` | src/LightningStepper.h:23-26 | All lines low, the power-up state, is not a step pattern. |
| `Motion.TickOutcome` | src/LightningStepper.cpp:607-733 | A tick that turns decrements the steps and moves the position by one in its direction. A tick that does not turn only sets `done`. It turns CW exactly when it may move, steps remain and the direction is 1. |
| `Motion.TickIdlesOnUnknownDirection` | src/LightningStepper.cpp:614-646 | With steps left under a guard and a direction other than 1 or 2, a tick neither steps nor finishes. Any number of ticks therefore leaves the motion as it was, never done. |
| `Motion.TickKeepsRange` | src/LightningStepper.cpp:607-733 | With `maxPosition >= 1`, a tick keeps the position within `[0, maxPosition]`. |
| `Motion.ZeroTravelEscapes` | src/LightningStepper.cpp:610-646 | With `maxPosition == 0` at position 0, a tick still moves to 1 or -1, outside the travel. |
| `Motion.TickOutsideRangeStops` | src/LightningStepper.cpp:726-731 | A position outside the travel stops the motion without a step. |
| `Motion.TickStartable` | src/LightningStepper.cpp:687-724 | A tick of a startable move with travel left keeps the move startable. It shortens the remaining travel by one and keeps the final position. |
| `Motion.TickFinishes` | src/LightningStepper.cpp:610-731 | When no travel is left, the tick only sets `done`, at the final position. |
| `Motion.DriveMoves` | src/LightningStepper.cpp:607-733 | `j` ticks within the travel move the position by `j` and take `j` steps off. |
| `Motion.DriveClamps` | src/LightningStepper.cpp:607-733 | Enough ticks end the move done, at `min(p + steps, max)` going up or `max(p - steps, 0)` going down. |
| `Motion.DriveClampsExample` | src/LightningStepper.cpp:607-733 | 10 steps up from 95 with maximum 100 stop at 100 with 5 steps left. |
| `Framing.Gather` | src/LightningStepper.cpp:312-327 | The frame reader consumes at least one fragment when it completes. It runs out of input otherwise. |
| `Framing.GatherFindsParens` | src/LightningStepper.cpp:319-327 | A completed buffer has `(` and `)` past its first position. |
| `Framing.CleanMsgParts` | src/LightningStepper.cpp:90-103 | Without the `Message(` prefix the text is unchanged. With it, the result is what follows the prefix up to the first `)`. |
| `Framing.CleanMsgUnwraps` | src/LightningStepper.cpp:90-103 | `cleanMsg("Message(" + p + ")" + rest) == p` when `p` has no `)`. This also fixes `remove(0, 8)` as the length of `Message(`. |
| `Framing.GatherAnyFragmentation` | src/LightningStepper.cpp:312-327 | However a frame `name(p)` is split into fragments, the reader assembles exactly it, and later fragments stay unread. |
| `Framing.CompleteExactly` | src/LightningStepper.cpp:319-327 | A prefix of a frame counts as complete exactly when it is the whole frame. |
| `Framing.GatherOneFrame` | src/LightningStepper.cpp:312-327 | A frame sent in one fragment is read alone, leaving the rest of the input. |
| `Framing.FrameRoundTrip` | src/LightningStepper.cpp:90-103 | The payload of a frame comes back out of gather and `cleanMsg`. |
| `Framing.StrikeUnwraps` | src/LightningStepper.cpp:64-78 | `Strike(p)` is `p` between `Strike(` and `)`, 8 characters longer. |
| `Framing.ErrorLines` | src/LightningStepper.cpp:52-57 | One `Strike(SC Error: payload)` line per rejected payload, in order. |
| `Framing.WaitFor` | src/LightningStepper.cpp:25-62 | A matched buffer starts with the expected text. An unmatched wait has consumed all input. |
| `Framing.WaitForRound` | src/LightningStepper.cpp:30-58 | One pass of the loop either matches, rejects a frame and goes on with the rest, or runs out of input. |
| `Framing.RejectedDoNotMatch` | src/LightningStepper.cpp:48-57 | No rejected payload starts with the expected text. |
| `Framing.WaitForAcceptsPrefix` | src/LightningStepper.cpp:48-51 | Any payload that starts with the expected text is accepted at once. |
| `Framing.WaitForRejects` | src/LightningStepper.cpp:52-57 | Any other payload is reported as an error and the wait continues on the rest. |
| `Framing.GooPassesForGo` | src/LightningStepper.cpp:48-51 | `Goo` is accepted where `Go` is awaited. |
| `Framing.Prompt` | src/LightningStepper.cpp:210-262 | The launch mode is 1 or 2 only when the payload was exactly `1` or `2`. Otherwise the prompt has consumed all input. |
| `Framing.PromptRound` | src/LightningStepper.cpp:217-259 | One pass of the prompt loop: chooses, rejects and counts an error, or runs out of input. |
| `Framing.PromptAccepts` | src/LightningStepper.cpp:239-250 | Payload `1` or `2` chooses that mode at once. |
| `Framing.PromptRejects` | src/LightningStepper.cpp:251-257 | Any other payload adds one `Error 1` and the prompt goes on. |
| `Commands.CutFieldIsStringCut` | src/LightningStepper.cpp:432-435 | The field/rest/comma cut equals the `indexOf`, `substring(0, k)` and `remove(0, k + 1)` sequence, including when there is no comma. |
| `Commands.CutFieldParts` | src/LightningStepper.cpp:432-435 | With a comma, the text is field `,` rest, and the field has no comma. Without one, field and rest are both the whole text and the index is -1. |
| `Commands.SplitSettingsFields` | src/LightningStepper.cpp:429-454 | `a,b,c,d` without inner commas splits into exactly `a`, `b`, `c`, `d`. |
| `Commands.SplitSettingsWithoutComma` | src/LightningStepper.cpp:429-454 | A payload with no comma puts the whole text in all four fields. |
| `Commands.AutoSettingsRoundTrip` | src/LightningStepper.cpp:429-460 | Four numbers written as `String`s and joined by commas are read back as the same four numbers. |
| `Commands.SplitDelaysParts` | src/LightningStepper.cpp:334-340 | The minimum delay is the comma-free text before the first comma. The maximum delay is a comma-free prefix of what follows, and `msg` is left as that text. |
| `Commands.SplitDelaysFields` | src/LightningStepper.cpp:334-340 | `a,b` without inner commas gives exactly `a` and `b`, with `msg` left as `b` and `commaIndex` -1. |
| `Commands.ManualDelaysRoundTrip` | src/LightningStepper.cpp:334-342 | Two numbers written as `String`s and joined by a comma are read back as the same two numbers.
| `Commands.MarkOfParts` | src/LightningStepper.cpp:512-521 | A payload longer than one character has its mark cut at the first comma. Otherwise the mark is the payload and the earlier `commaIndex` is kept. |
| `Commands.ParseMove` | src/LightningStepper.cpp:552-573 | `2,speed,steps,direction` is a move with exactly those three fields. |
| `Commands.MoveCommandParses` | src/LightningStepper.cpp:552-578 | A move built from three integers is read back as those integers. |
| `Commands.StopAndReportMarks` | src/LightningStepper.cpp:528-551 | `3` and `3,...` stop; `1` and `1,...` report. |
| `Commands.LongMarkIgnored` | src/LightningStepper.cpp:510-588 | A payload longer than one character without a comma matches no mark and is ignored. |
| `Commands.BareMoveUsesStaleComma` | src/LightningStepper.cpp:510-573 | A bare `2` is cut with whatever `commaIndex` the last parse left, so its fields depend on history. |
| `Commands.RoundDiv100` | src/LightningStepper.cpp:107-109 | Divides by 100 and rounds to the nearest integer, halves away from zero, like `round()`. |
| `Commands.DelayEndpoints` | src/LightningStepper.cpp:105-111 | Speed 0 gives `maxDelay` and speed 100 gives `minDelay`. |
| `Commands.DelayBetween` | src/LightningStepper.cpp:105-111 | A speed in `[0, 100]` gives a delay between the two settings. |
| `Commands.DelayExample` | src/LightningStepper.cpp:105-111 | Delays 500 to 3000 at speed 50 give 1750. |
| `ControllerSpec.LeadingHigh` | src/LightningStepper.cpp:358-375 | The number of HIGH readings before the first LOW one. |
| `ControllerProps.ProcessCmdSignals` | src/LightningStepper.cpp:482-600 | Processing is written HIGH and then LOW once a frame was handled. While the frame is incomplete it stays HIGH and the reader keeps waiting. |
| `ControllerProps.DispatchOutcome` | src/LightningStepper.cpp:528-588 | `3` sets `done` and Done HIGH only. `1` sends the report, `done`, HIGH. `2` loads speed/steps/direction, the delay, `done` false, LOW. Other marks change only the mark. No mark changes coils, step kind, inputs or Processing. Only `2` clears `done`. |
| `ControllerProps.RunsDrive` | src/LightningStepper.cpp:406-427 | While CmdReady reads HIGH, `n` calls of `run()` drive the motion exactly like `n` ticks and write nothing. |
| `ControllerProps.RunsClamp` | src/LightningStepper.cpp:406-427 | A move started in range, run long enough, ends done at the clamped final position. |
| `ControllerProps.PowerUp` | src/LightningStepper.h:18-85 | At power-up the coils are off, `stepKind` is 8, numbers are 0 and `done` is set. The first step either way is `A`, and `run()` with CmdReady HIGH does nothing. |
| `ControllerProps.PowerUpIdle` | src/LightningStepper.h:84 | From power-up, any number of `run()` calls while CmdReady reads HIGH change nothing but the readings consumed, until a command arrives. |
| `ControllerProps.RunsIdleOnUnknownDirection` | src/LightningStepper.cpp:406-427 | A move with an unknown direction never finishes. While CmdReady reads HIGH, `run()` changes nothing but the readings it consumes, and Done stays as it was. |
| `ControllerProps.StepKindFixed` | src/LightningStepper.h:28 | Neither `runSetup` nor `run` ever changes `stepKind`. |
| `ControllerProps.MoveFrameStartsMotion` | src/LightningStepper.cpp:462-601 | A `Message(2,speed,steps,direction)` frame starts exactly that move, with the computed delay, Done LOW, nothing written, Processing HIGH then LOW. |
| `ControllerProps.ManualCalibration` | src/LightningStepper.cpp:302-403 | Once manual setup has finished, after `n0` HIGH readings, a LOW, `n1` HIGH readings and a LOW, the maximum is `n1`, the position `n1 - 1`, and the coils are `n0` CCW, `n1` CW and one CCW step on. |
| `ControllerProps.ManualDelaysArrive` | src/LightningStepper.cpp:305-349 | A frame `min,max` makes manual setup load both delays as numbers and as text. It writes exactly the question and `Recieved minDelay: min maxDelay: max`, and leaves the motor alone. |
| `ControllerProps.ZeroJogEnds` | src/LightningStepper.cpp:358-375 | A finished zero jog has taken one CCW step per HIGH reading and set the position to 0. |
| `ControllerProps.MaxJogEnds` | src/LightningStepper.cpp:381-402 | A finished maximum jog sets the maximum to the start plus one per HIGH reading, and backs off by one. |
| `ControllerProps.AutoSetup` | src/LightningStepper.cpp:117-300 | CmdReady LOW, then frames `2`, `min,max,pos,maxPos` and `Go`, leave exactly those settings, launch mode 2, Done HIGH, Processing LOW, the coils unchanged, and later input unread. |
| `ControllerProps.AutoSettingsArrive` | src/LightningStepper.cpp:264-300 | A settings frame loads the four numbers and adds exactly the question and the reply to the output. |
| `ControllerProps.PromptChooses` | src/LightningStepper.cpp:210-262 | A frame `1` or `2` sets that launch mode and writes the question and `read: p`. |
| `ControllerProps.GoArrives` | src/LightningStepper.cpp:25-62 | A `Go` frame ends the wait, with nothing written. |

## Left out

- Serial port set-up, `pinMode`, the initial `digitalWrite(..., LOW)` of the
  stepper pins in `runSetup`, and `Serial.flush`. None of them changes a
  modelled field. The four `digitalWrite(stepper_pinN, LOW)` calls write the
  pins directly and never update the mirror `isHigh_pin1..4`, which is what
  `coils` models.
- Timing: `delayMicroseconds` and the serial timeouts are left out. A
  timed-out read is modelled as an empty fragment once the input has run out.
- Blocking loops over a finite input: a reader that runs out of fragments
  returns with `keepWaiting` still true, where the device would wait forever.
  Every caller then returns at once. CmdReady readings that run out read
  HIGH, the pull-up level.
- The difference between `Serial.readString` (in `waitForMessage`) and
  `readStringUntil('\n')` (everywhere else): both are modelled as "the next
  fragment".
- Controller.LightningStepper.CalculateDelay: `calculateDelay` computes with
  `float` and `round()`. The model uses the exact value
  `maxDelay + (minDelay - maxDelay) * speed / 100`, rounded half away from
  zero, so float rounding error is not modelled.
- The 16-bit `int` of AVR boards: positions, steps and delays are unbounded
  integers, so overflow of `currentPositionInt++` is not modelled. `toInt`
  reads a sign and the leading digits, without the `long` overflow of the
  Arduino parser.
- `msgLength`, `indexOfP` and `pin_CmdReady_Value` are kept as fields. The
  contracts do not fix their value after a call, except `indexOfP` in
  `CleanMsg` and `pin_CmdReady_Value` in `ReadCmdReady`.
- `currentDelayString` and `cmdMarkInt` are declared but never used, so they
  are not modelled.
- The final `else` of `runSetup` (`SC Error: setup code wrong`) is modelled
  in `Launch`, but `RunSetup` never reaches it: `preSetupPrompt` returns only
  with launch mode 1 or 2, and when its input runs out `RunSetup` stops first.
- Physical limit switches: the library has none, and neither does the model.
