# ROV teleoperation bridges in Dafny

This project models the two controller-to-serial bridges of an underwater ROV. Each is a polling loop that turns one controller snapshot into actuator commands written as text lines to a microcontroller.

- **Claw bridge** (`Claw.py`, module `Claw`). The object `MainProgram` has three fields: `claw_position`, `roll_position` and `claw_opened`. Each tick of `handle_inputs` reads two trigger axes and two bumpers.
  - A trigger strictly above 0.9 closes (left) or opens (right) the claw.
  - A bumper steps the roll by one degree. The step is refused if it would leave 0..180.
  - Every real change is written as one line `servo:position\n`.
  - The model is the class `ClawController`. Its fields are updated in place, and it keeps a log `wire` of the lines the port accepted. Each method is proved to follow a pure function of the state: `Adjust`, `Rotate`, `ClawStage`, `RollStage` and `Handle`. The lemmas are stated about those functions.
- **Thruster bridge** (`thruster.py`, module `Thruster`). The mapper is pure:
  - a dead zone on three stick axes;
  - linear mixing around the 1500 midpoint, with gains 400 and 200;
  - truncation toward zero, as Python's `int()` does;
  - clamping to 1100..1900;
  - three-way button and d-pad policies.

  The result is a nine-field comma-separated line. The transmission gate is the class `ThrusterController`. Its field `prevCommand` holds the last computed line, and a line is written only when it differs from that one. Start-up, the interrupt handler and `close` all send the all-1500 neutral line without consulting the gate. A second field, `isOpen`, records whether the serial port is still open.
- **Shared text forms** (module `Text`). These cover Python's decimal rendering of integers and the joining of fields with a separator. A reference reader of the line format is used to prove that both line formats are unambiguous. For the thruster gate, this means comparing lines is the same as comparing commands.

Transport failures are modelled as a `delivered` flag on each write. The flag covers an exception from `write`, a closed port and a missing handle. A refused write is swallowed, as in the source: the model's state after a write never depends on the flag. Axis values are `real`.

`prev_command` is assigned whether or not the write succeeded (thruster.py:67-69, thruster.py:79-84), so after a refused write an unchanged input is not retried until it changes. The model does the same.

## Model

| member | source | states |
|---|---|---|
| Text.IntToString | thruster.py:65 | the decimal field of an f-string is non-empty, all digits, with a leading `-` exactly when the value is negative |
| Text.IntToStringRoundTrip | thruster.py:65 | reading a rendered integer back gives the same integer |
| Text.SplitJoin | thruster.py:65 | splitting a separator-joined line returns its fields, when no field holds the separator |
| Text.EncodeIntsRoundTrip | thruster.py:65 | a comma-separated, newline-terminated line of integers decodes to exactly those integers |
| Claw.Initial | Claw.py:55-57 | the start state: claw closed (90), not opened, roll 90; it satisfies the invariant |
| Claw.ServoLine | Claw.py:118 | a servo line is newline-terminated |
| Claw.ServoLineRoundTrip | Claw.py:118 | `servo:position\n` decodes to the same servo name and position |
| Claw.ServoLineInjective | Claw.py:118 | two servo lines are equal exactly when servo and position are equal |
| Claw.Adjust | Claw.py:101-105 | afterwards the claw is at the target and the roll is untouched; one `claw:` line is written exactly when the state changed; a 90/180 target keeps `claw_opened == (claw_position == 180)` |
| Claw.Rotate | Claw.py:108-112 | an in-range step moves the roll by exactly `direction` and writes one `roll:` line with the new position; a step leaving 0..180 changes nothing and writes nothing; the claw is untouched; the invariant is kept |
| Claw.ClawStage | Claw.py:91-94 | a left trigger above 0.9 closes a claw that is not closed, writing `claw:90`; failing that, a right trigger above 0.9 opens a claw that is not open, writing `claw:180`; otherwise nothing changes and nothing is written; the roll is untouched and the invariant kept |
| Claw.RollStage | Claw.py:96-99 | the left bumper steps a roll above 0 down by one; failing that, the right bumper steps a roll below 180 up by one; each step writes its `roll:` line; otherwise nothing changes and nothing is written; the claw is untouched and the invariant kept |
| Claw.Handle | Claw.py:86-99 | a tick keeps the invariant and moves the roll by at most one. Its lines are exactly one line per servo whose position changed, claw first |
| Claw.AdjustIdempotent | Claw.py:101-102 | adjusting to the current position is a no-op with no line; adjusting twice to the same target writes at most once |
| Claw.ClawMovesOnlyPastThreshold | Claw.py:91-94 | with both triggers at or below 0.9 (0.9 itself included), the claw does not move |
| Claw.TriggerPastThresholdMovesClaw | Claw.py:91-94 | left trigger above 0.9 closes an open claw; right trigger above 0.9, with the left not, opens a closed claw |
| Claw.LeftTriggerWins | Claw.py:91-92 | both triggers above 0.9 and the claw not closed: the claw closes and the trigger stage writes exactly the `claw:90` line |
| Claw.LeftBumperWins | Claw.py:96-97 | both bumpers pressed and roll above 0: the roll steps down by one |
| Claw.RollStopsAtBounds | Claw.py:96-99 | at roll 0 without the right bumper, or at 180 without the left, the roll stays and no roll line is written |
| Claw.SingleBumper | Claw.py:96-99 | a left bumper above roll 0 steps the roll down; a right bumper alone below 180 steps it up; no bumper leaves the roll and writes no roll line |
| Claw.HeldTriggerSendsOnce | Claw.py:91-94 | holding one trigger (not both) over two ticks: the second tick leaves the claw and writes no claw line |
| Claw.TickWritesAtMostOneLinePerServo | Claw.py:91-99 | a tick writes at most two lines, each `claw:p\n` or `roll:p\n` with p in 0..180 |
| Claw.CloseOnceScenario | Claw.py:91-105 | left trigger 1.0 on an open claw writes exactly `claw:90\n`; the same snapshot again writes nothing |
| Claw.BothTriggersHeldToggle | Claw.py:91-94 | as written: with both triggers held, every tick flips the claw and writes a claw line |
| Claw.BothBumpersHeldAtFloorOscillate | Claw.py:96-99 | as written: with both bumpers held at roll 0, the roll goes to 1 and back to 0 on the next tick |
| Claw.PrioritisedClawStage | Claw.py:91-94 | corrected trigger stage: a left trigger above 0.9 always leaves the claw closed; the invariant is kept |
| Claw.PrioritisedRollStage | Claw.py:96-99 | corrected bumper stage: a pressed left bumper never raises the roll; the invariant is kept |
| Claw.PrioritisedHandle | Claw.py:86-99 | corrected tick: keeps the invariant, writes one line per servo whose position changed, claw first; a left trigger leaves the claw closed and a left bumper never raises the roll |
| Claw.PrioritisedAgreesOutsideConflict | Claw.py:91-99 | the corrected stages equal the as-written ones except in the two conflicts: the trigger stage unless both triggers are past 0.9 on a closed claw, the bumper stage unless both bumpers are held at roll 0, and the whole tick unless either holds; so a lone right trigger still opens the claw and a lone right bumper still raises the roll |
| Claw.PrioritisedHoldIsQuiet | Claw.py:91-99 | with the corrected stages, a second tick with the same inputs writes no claw line, whatever the triggers |
| Claw.ClawController.constructor | Claw.py:55-57 | fields start at the initial state, which satisfies the invariant; nothing has been written |
| Claw.ClawController.SendServoCommand | Claw.py:115-123 | appends `servo:position\n` to the wire when the port accepts it; a refused write leaves the wire and never raises |
| Claw.ClawController.AdjustClaw | Claw.py:101-106 | the fields become `Adjust`'s state whether or not the write is delivered; the wire grows by `Adjust`'s line if delivered |
| Claw.ClawController.RotateRoll | Claw.py:108-113 | the fields become `Rotate`'s state whether or not the write is delivered; the wire grows by `Rotate`'s line if delivered |
| Claw.ClawController.HandleInputs | Claw.py:86-99 | keeps the invariant; the fields become `Handle`'s state independent of delivery; the wire grows by the trigger stage's then the bumper stage's delivered lines |
| Thruster.DeadZone | thruster.py:41-43 | an axis with magnitude strictly below 0.05 reads 0; at exactly 0.05 or above it passes unchanged |
| Thruster.Filter | thruster.py:37-43 | forward is minus left-stick Y, yaw is left-stick X, vertical is minus right-stick Y, each 0 strictly inside the dead zone; pushing a Y stick up (negative) past the dead zone gives a positive forward or vertical |
| Thruster.Trunc | thruster.py:45-50 | `int()` of a float: the integer part toward zero, never floor or rounding |
| Thruster.Clamp | thruster.py:52-54 | the result lies in 1100..1900, equals the input inside it, and saturates at the nearer bound outside it (never wraps) |
| Thruster.ButtonPulse | thruster.py:56-57 | 1300 exactly when the first button is pressed, 1700 exactly when only the second is, 1500 exactly when neither is |
| Thruster.CameraPulse | thruster.py:59-63 | 1700 exactly when a hat exists with y > 0, 1300 exactly when y < 0, 1500 when y is 0 or there is no hat |
| Thruster.Pulse | thruster.py:45-54 | a truncated, clamped mix lies in 1100..1900 |
| Thruster.Assemble | thruster.py:45-63 | every one of the nine channels lies in 1100..1900 |
| Thruster.ToCommand | thruster.py:37-63 | every channel of the command for any snapshot lies in 1100..1900 |
| Thruster.TruncOdd | thruster.py:47-50 | truncation is symmetric: `int(-x) == -int(x)` |
| Thruster.ClampMirror | thruster.py:52-54 | clamping commutes with mirroring about 1500, since the bounds are symmetric |
| Thruster.PulseMirror | thruster.py:47-54 | opposite mixes give pulses summing to 3000 |
| Thruster.AssembleSymmetry | thruster.py:45-54 | for any filtered axes, t1 == t6, t2 + t5 == 3000 and t3 + t4 == 3000 |
| Thruster.ThrusterSymmetry | thruster.py:45-54 | for every snapshot, t1 == t6, t2 + t5 == 3000 and t3 + t4 == 3000, saturated or not |
| Thruster.DeadAxisContributesNothing | thruster.py:41-43 | an axis inside the dead zone maps exactly as if it read 0 |
| Thruster.DeadZoneEdgeIsLive | thruster.py:41-48 | yaw exactly 0.05 is live: t3 == 1490 and t5 == 1510 |
| Thruster.RestIsNeutral | thruster.py:41-63 | sticks in the dead zone, no buttons, and no hat or y == 0 give the all-1500 command |
| Thruster.ForwardWithoutClamping | thruster.py:45-54 | forward 0.6 with no yaw: t3 == t5 == 1740, t2 == t4 == 1260, t1 == t6 == 1500 |
| Thruster.VerticalScenario | thruster.py:39-45 | right stick Y at -0.5 (up) drives both vertical thrusters to 1700, at 0.5 to 1300; the four horizontal thrusters stay at 1500 |
| Thruster.FullForwardFullYawSaturates | thruster.py:45-54 | full forward with full yaw overdrives a mix to 2100; t5 saturates at 1900 and t2 at 1100, while t3 == 1700 and t4 == 1300 |
| Thruster.Encode | thruster.py:65 | a command line is newline-terminated |
| Thruster.EncodeRoundTrip | thruster.py:65 | a command line decodes to exactly its nine channels |
| Thruster.EncodeInjective | thruster.py:65-67 | two command lines are equal exactly when the commands are, so the gate's text comparison is a command comparison |
| Thruster.NeutralLineEncodesNeutral | thruster.py:24 | the literal neutral line is the encoding of the all-1500 command |
| Thruster.LinesRoundTrip | thruster.py:37-65 | every tick's line decodes to that tick's command, so two ticks' lines are equal exactly when their commands are |
| Thruster.Transmit | thruster.py:67-69 | the gate writes at most one line per tick fed |
| Thruster.TransmitSnoc | thruster.py:67-69 | feeding one more line adds exactly that tick's write: the line, if it differs from the last line fed and is delivered |
| Thruster.TransmitNoRepeats | thruster.py:67-69 | with all writes accepted, no line is written twice in a row, and the first written differs from the gate's starting memory |
| Thruster.TransmitRepeatedLine | thruster.py:67-69 | a line fed any number of times is written at most once, and not at all if the gate already holds it |
| Thruster.TransmitChange | thruster.py:67-69 | two different lines in a row, both accepted, are both written in order |
| Thruster.FirstTickWrites | thruster.py:11 | the gate starts at the empty string, which no command line equals, so the first tick always writes |
| Thruster.ThrusterController.constructor | thruster.py:11-24 | the port is open, the gate's memory is empty, and the wire holds the neutral line if the write was accepted |
| Thruster.ThrusterController.SendCommand | thruster.py:79-84 | appends the line only if the port is open and accepts it; a failure is swallowed |
| Thruster.ThrusterController.Feed | thruster.py:67-69 | the memory becomes the fed line even if the write fails; the line reaches the wire only when it differs from the previous memory, the write is accepted and the port is open |
| Thruster.ThrusterController.Step | thruster.py:37-69 | the memory becomes this tick's encoded command; it is written only when it differs from the previous memory |
| Thruster.ThrusterController.Poll | thruster.py:34-69 | after feeding any sequence of lines, the memory is the last line fed and the wire grows by exactly `Transmit` of those lines |
| Thruster.ThrusterController.Run | thruster.py:34-71 | after a run of snapshots, the memory is the last snapshot's line and the wire grows by exactly `Transmit` of the per-tick lines |
| Thruster.ThrusterController.Interrupt | thruster.py:73-75 | the neutral line is sent regardless of the gate's memory |
| Thruster.ThrusterController.Close | thruster.py:86-90 | sends the neutral line regardless of the gate, then the port is closed |
| Thruster.ThrusterController.InterruptAndExit | thruster.py:73-100 | on interrupt, the handler and the first `close` each send the neutral line; the script's second `close` finds the port closed and writes nothing |

## Findings

| source | as written | input that shows it | evidently intended | confidence | as-written member | corrected member |
|---|---|---|---|---|---|---|
| Claw.py:91-94 | the left-trigger branch is taken only when the claw is not closed, so the `elif` on the right trigger is reached with a closed claw | both triggers above 0.9 held for two ticks: the claw opens, then closes, then opens, one line per tick | the left trigger takes priority: holding both keeps the claw closed and writes nothing after the first tick | medium, not executed | Claw.BothTriggersHeldToggle | Claw.PrioritisedClawStage |
| Claw.py:96-99 | the left-bumper branch is taken only above ROLL_MIN, so the `elif` on the right bumper is reached at roll 0 | both bumpers held with roll at 0: the roll goes 0, 1, 0, 1, writing a line every tick | the left bumper takes priority: holding both keeps the roll at 0 | medium, not executed | Claw.BothBumpersHeldAtFloorOscillate | Claw.PrioritisedRollStage |

The class `ClawController` follows the code as written, since it is the behaviour of the running program. The corrected stages and `PrioritisedHandle` sit beside it, with their priority properties proved in `PrioritisedHoldIsQuiet`.

## Left out

- pygame initialisation and event pumping are not modelled. Neither are the controller-wait loop, the environment-variable setup, `clock.tick` pacing or the claw's `run` loop (Claw.py:39-44, Claw.py:59-66, Claw.py:76-84, thruster.py:8-18). These are I/O and timing. A claw tick is `Handle`; the thruster loop is `Run`, over a finite run of snapshots.
- Opening and closing the serial port, its failure at start-up, `time.sleep`, `sys.exit`, `quit` and every `print` are left out. The only parts kept are the writes, as a log, and the port's open flag.
- Thruster.ThrusterController.constructor: does not model the exceptions for a missing controller or a failed port open (thruster.py:13-26). The model starts with the port open.
- `SEND_SERIAL` is the constant `True`, so the early return in `send_servo_command` is never taken and is not modelled. `self.arduino` is always set once start-up succeeds. A write that raises is covered by the `delivered` flag.
- `round(self.roll_position)` in `rotate_roll` is applied to an int, so it is the identity. The model writes the position itself.
- Thruster.Trunc: the products `fb * 400`, `yw * 200` and the rest are exact `real` arithmetic. IEEE-754 rounding of these products is not modelled, so results for inputs that sit exactly on an integer boundary after rounding may differ from the float program.
- Axis values are not assumed to lie in [-1, 1], and d-pad values not in {-1, 0, 1}. Every property holds for all inputs.
- Thruster.ThrusterController.Run: models any finite prefix of the `while True` loop, not its non-termination. It computes every tick's line first and then feeds them to the gate in order. The mapping is pure and the snapshots are given, so this writes the same lines as computing each one in its own tick.
- Distort_and_measure.py is not part of this model. It is the fisheye undistortion through OpenCV, a mouse-click buffer over globals, and floating-point `sqrt` ratio arithmetic fed by `input()`.
