/**
 The single-claw gripper bridge: each tick reads two analog triggers and two
 bumpers and drives two servos, the claw (closed at 90 degrees, open at 180)
 and the roll (a position stepped one degree at a time inside 0..180). Every
 real change of a servo position is written to the serial port as one line
 `servo:position\n`.

 The tick is specified by pure functions on a ClawState value (Adjust,
 Rotate, ClawStage, RollStage, Handle); ClawController is the object whose
 fields the program updates in place, and its methods are proved to follow
 those functions. `wire` is the log of lines the port accepted.
 */
module Claw {
  import opened Text

  const CLAW_CLOSED: int := 90
  const CLAW_OPEN: int := 180
  const ROLL_MIN: int := 0
  const ROLL_MAX: int := 180
  /** Roll position at start-up. */
  const ROLL_START: int := 90
  /** A trigger acts only when its value is strictly above this. */
  const TRIGGER_THRESHOLD: real := 0.9

  datatype ClawState = ClawState(clawPosition: int, rollPosition: int, clawOpened: bool)

  /** One poll of the controller: the two trigger axes and the two bumper buttons. */
  datatype Inputs = Inputs(leftTrigger: real, rightTrigger: real, leftBumper: bool, rightBumper: bool)

  /** The state after an operation and the servo lines it handed to the port, in order. */
  datatype Effect = Effect(state: ClawState, lines: seq<string>)

  /** A servo command as the receiving side reads it. */
  datatype ServoCommand = ServoCommand(servo: string, position: int)

  predicate IsClawTarget(p: int) { p == CLAW_CLOSED || p == CLAW_OPEN }

  /** What the program keeps true of its three fields. */
  predicate Invariant(s: ClawState)
  {
    && IsClawTarget(s.clawPosition)
    && s.clawOpened == (s.clawPosition == CLAW_OPEN)
    && ROLL_MIN <= s.rollPosition <= ROLL_MAX
  }

  function Initial(): (s: ClawState)
    ensures Invariant(s)
    ensures s.clawPosition == CLAW_CLOSED && !s.clawOpened && s.rollPosition == ROLL_START
  {
    ClawState(CLAW_CLOSED, ROLL_START, false)
  }

  // ---------------------------------------------------------------------------
  // Line format

  /** The text of one servo command: the servo's name, a colon, the position, a newline. */
  function ServoLine(servo: string, position: int): (line: string)
    ensures 0 < |line| && line[|line| - 1] == '\n'
  {
    servo + ":" + IntToString(position) + "\n"
  }

  function ParseServoLine(line: string): Option<ServoCommand>
  {
    if 0 < |line| && line[|line| - 1] == '\n' then
      var fields := Split(line[..|line| - 1], ':');
      if |fields| == 2 then
        match ParseInt(fields[1])
        case Some(p) => Some(ServoCommand(fields[0], p))
        case None => None
      else None
    else None
  }

  /** A servo line names its servo and position unambiguously. */
  lemma ServoLineRoundTrip(servo: string, position: int)
    requires ':' !in servo
    ensures ParseServoLine(ServoLine(servo, position)) == Some(ServoCommand(servo, position))
  {
    var line := ServoLine(servo, position);
    var fields := [servo, IntToString(position)];
    SeparatorNotInNumeral(position, ':');
    assert line[..|line| - 1] == Join(fields, ':');
    SplitJoin(fields, ':');
    IntToStringRoundTrip(position);
  }

  /** Two servo lines are the same text only when they command the same servo to the same position. */
  lemma ServoLineInjective(a: string, p: int, b: string, q: int)
    requires ':' !in a && ':' !in b
    ensures ServoLine(a, p) == ServoLine(b, q) <==> a == b && p == q
  {
    ServoLineRoundTrip(a, p);
    ServoLineRoundTrip(b, q);
  }

  // ---------------------------------------------------------------------------
  // The operations, as functions of the state

  /** Moves the claw to `position`; writes its line only when the position changes. */
  function Adjust(s: ClawState, position: int): (e: Effect)
    ensures e.state.clawPosition == position && e.state.rollPosition == s.rollPosition
    ensures e.lines == if e.state == s then [] else [ServoLine("claw", position)]
    ensures Invariant(s) && IsClawTarget(position) ==> Invariant(e.state)
  {
    if s.clawPosition != position then
      Effect(s.(clawPosition := position, clawOpened := position == CLAW_OPEN),
             [ServoLine("claw", position)])
    else
      Effect(s, [])
  }

  /** Steps the roll by `direction`; a step that would leave ROLL_MIN..ROLL_MAX does nothing. */
  function Rotate(s: ClawState, direction: int): (e: Effect)
    ensures e.state.clawPosition == s.clawPosition && e.state.clawOpened == s.clawOpened
    ensures ROLL_MIN <= s.rollPosition + direction <= ROLL_MAX ==> e.state.rollPosition == s.rollPosition + direction
    ensures !(ROLL_MIN <= s.rollPosition + direction <= ROLL_MAX) ==> e.state == s
    ensures e.lines == [] <==> !(ROLL_MIN <= s.rollPosition + direction <= ROLL_MAX)
    ensures e.lines != [] ==> e.lines == [ServoLine("roll", e.state.rollPosition)]
    ensures Invariant(s) ==> Invariant(e.state)
  {
    var newPos := s.rollPosition + direction;
    if ROLL_MIN <= newPos <= ROLL_MAX then
      Effect(s.(rollPosition := newPos), [ServoLine("roll", newPos)])
    else
      Effect(s, [])
  }

  /**
   The trigger half of a tick: a left trigger past the threshold closes a claw
   that is not closed; otherwise a right trigger past the threshold opens a
   claw that is not open; otherwise nothing happens. The roll is never touched.
   */
  function ClawStage(s: ClawState, inp: Inputs): (e: Effect)
    ensures e.state.rollPosition == s.rollPosition
    ensures inp.leftTrigger > TRIGGER_THRESHOLD && s.clawPosition != CLAW_CLOSED
            ==> e.state.clawPosition == CLAW_CLOSED && !e.state.clawOpened
                && e.lines == [ServoLine("claw", CLAW_CLOSED)]
    ensures !(inp.leftTrigger > TRIGGER_THRESHOLD && s.clawPosition != CLAW_CLOSED)
            && inp.rightTrigger > TRIGGER_THRESHOLD && s.clawPosition != CLAW_OPEN
            ==> e.state.clawPosition == CLAW_OPEN && e.state.clawOpened
                && e.lines == [ServoLine("claw", CLAW_OPEN)]
    ensures !(inp.leftTrigger > TRIGGER_THRESHOLD && s.clawPosition != CLAW_CLOSED)
            && !(inp.rightTrigger > TRIGGER_THRESHOLD && s.clawPosition != CLAW_OPEN)
            ==> e == Effect(s, [])
    ensures Invariant(s) ==> Invariant(e.state)
  {
    if inp.leftTrigger > TRIGGER_THRESHOLD && s.clawPosition != CLAW_CLOSED then Adjust(s, CLAW_CLOSED)
    else if inp.rightTrigger > TRIGGER_THRESHOLD && s.clawPosition != CLAW_OPEN then Adjust(s, CLAW_OPEN)
    else Effect(s, [])
  }

  /**
   The bumper half of a tick: on a roll within its range, the left bumper
   steps it down unless it is at the floor; otherwise the right bumper steps
   it up unless it is at the ceiling; otherwise nothing happens. The claw is
   never touched.
   */
  function RollStage(s: ClawState, inp: Inputs): (e: Effect)
    ensures e.state.clawPosition == s.clawPosition && e.state.clawOpened == s.clawOpened
    ensures Invariant(s) && inp.leftBumper && s.rollPosition > ROLL_MIN
            ==> e.state.rollPosition == s.rollPosition - 1
                && e.lines == [ServoLine("roll", s.rollPosition - 1)]
    ensures Invariant(s) && !(inp.leftBumper && s.rollPosition > ROLL_MIN)
            && inp.rightBumper && s.rollPosition < ROLL_MAX
            ==> e.state.rollPosition == s.rollPosition + 1
                && e.lines == [ServoLine("roll", s.rollPosition + 1)]
    ensures !(inp.leftBumper && s.rollPosition > ROLL_MIN)
            && !(inp.rightBumper && s.rollPosition < ROLL_MAX)
            ==> e == Effect(s, [])
    ensures Invariant(s) ==> Invariant(e.state)
  {
    if inp.leftBumper && s.rollPosition > ROLL_MIN then Rotate(s, -1)
    else if inp.rightBumper && s.rollPosition < ROLL_MAX then Rotate(s, 1)
    else Effect(s, [])
  }

  /** The lines that report exactly the servo positions that differ between two states. */
  function ChangeLines(before: ClawState, after: ClawState): seq<string>
  {
    (if after.clawPosition != before.clawPosition then [ServoLine("claw", after.clawPosition)] else [])
    + (if after.rollPosition != before.rollPosition then [ServoLine("roll", after.rollPosition)] else [])
  }

  /**
   One tick of the polling loop: the trigger stage, then the bumper stage on
   the state the first left. The invariant is kept, the roll moves by at most
   one step, and the tick writes one line per servo whose position changed,
   claw first, and nothing else.
   */
  function Handle(s: ClawState, inp: Inputs): (e: Effect)
    ensures Invariant(s) ==> Invariant(e.state)
    ensures s.rollPosition - 1 <= e.state.rollPosition <= s.rollPosition + 1
    ensures Invariant(s) ==> e.lines == ChangeLines(s, e.state)
    ensures Invariant(s) && e.state.clawPosition == s.clawPosition ==> e.state.clawOpened == s.clawOpened
  {
    var c := ClawStage(s, inp);
    var r := RollStage(c.state, inp);
    Effect(r.state, c.lines + r.lines)
  }

  // ---------------------------------------------------------------------------
  // Properties of a tick

  /** Re-applying a claw position that is already set changes nothing and writes nothing. */
  lemma AdjustIdempotent(s: ClawState, position: int)
    ensures Adjust(s, position) == Effect(s, []) <==> s.clawPosition == position
    ensures Adjust(Adjust(s, position).state, position) == Effect(Adjust(s, position).state, [])
  {
  }

  /** A trigger must be strictly above the threshold: at or below it, the claw never moves. */
  lemma ClawMovesOnlyPastThreshold(s: ClawState, inp: Inputs)
    requires inp.leftTrigger <= TRIGGER_THRESHOLD && inp.rightTrigger <= TRIGGER_THRESHOLD
    ensures Handle(s, inp).state.clawPosition == s.clawPosition
    ensures Handle(s, inp).state.clawOpened == s.clawOpened
  {
  }

  /** A trigger past the threshold closes or opens a claw that is not already there. */
  lemma TriggerPastThresholdMovesClaw(s: ClawState, inp: Inputs)
    requires Invariant(s)
    ensures inp.leftTrigger > TRIGGER_THRESHOLD && s.clawPosition == CLAW_OPEN
            ==> Handle(s, inp).state.clawPosition == CLAW_CLOSED && !Handle(s, inp).state.clawOpened
    ensures inp.leftTrigger <= TRIGGER_THRESHOLD && inp.rightTrigger > TRIGGER_THRESHOLD && s.clawPosition == CLAW_CLOSED
            ==> Handle(s, inp).state.clawPosition == CLAW_OPEN && Handle(s, inp).state.clawOpened
  {
  }

  /** With both triggers past the threshold and the claw not closed, the left trigger wins. */
  lemma LeftTriggerWins(s: ClawState, inp: Inputs)
    requires Invariant(s) && s.clawPosition != CLAW_CLOSED
    requires inp.leftTrigger > TRIGGER_THRESHOLD && inp.rightTrigger > TRIGGER_THRESHOLD
    ensures Handle(s, inp).state.clawPosition == CLAW_CLOSED
    ensures ClawStage(s, inp).lines == [ServoLine("claw", CLAW_CLOSED)]
  {
  }

  /** With both bumpers pressed and room below, the left bumper wins and the roll steps down. */
  lemma LeftBumperWins(s: ClawState, inp: Inputs)
    requires Invariant(s) && s.rollPosition > ROLL_MIN
    requires inp.leftBumper && inp.rightBumper
    ensures Handle(s, inp).state.rollPosition == s.rollPosition - 1
  {
  }

  /** A bumper at the end of the roll's range does nothing: the roll stays put and no roll line is written. */
  lemma RollStopsAtBounds(s: ClawState, inp: Inputs)
    requires Invariant(s)
    requires (s.rollPosition == ROLL_MIN && !inp.rightBumper) || (s.rollPosition == ROLL_MAX && !inp.leftBumper)
    ensures Handle(s, inp).state.rollPosition == s.rollPosition
    ensures RollStage(ClawStage(s, inp).state, inp).lines == []
  {
  }

  /**
   A single bumper, or none, does what its guard says: the left one steps a
   roll above the floor down, the right one alone steps a roll below the
   ceiling up, and with neither pressed the roll stays and no roll line is written.
   */
  lemma SingleBumper(s: ClawState, inp: Inputs)
    requires Invariant(s)
    ensures inp.leftBumper && s.rollPosition > ROLL_MIN
            ==> Handle(s, inp).state.rollPosition == s.rollPosition - 1
    ensures !inp.leftBumper && inp.rightBumper && s.rollPosition < ROLL_MAX
            ==> Handle(s, inp).state.rollPosition == s.rollPosition + 1
    ensures !inp.leftBumper && !inp.rightBumper
            ==> Handle(s, inp).state.rollPosition == s.rollPosition
                && RollStage(ClawStage(s, inp).state, inp).lines == []
  {
  }

  /**
   Holding one trigger across ticks writes exactly one claw line: the second
   tick with the same inputs leaves the claw where the first put it.
   */
  lemma HeldTriggerSendsOnce(s: ClawState, inp: Inputs)
    requires Invariant(s)
    requires !(inp.leftTrigger > TRIGGER_THRESHOLD && inp.rightTrigger > TRIGGER_THRESHOLD)
    ensures var s1 := Handle(s, inp).state;
            ClawStage(s1, inp).lines == [] && Handle(s1, inp).state.clawPosition == s1.clawPosition
  {
  }

  /** A tick writes at most one claw line and at most one roll line, each well formed. */
  lemma TickWritesAtMostOneLinePerServo(s: ClawState, inp: Inputs)
    requires Invariant(s)
    ensures |Handle(s, inp).lines| <= 2
    ensures forall line :: line in Handle(s, inp).lines ==>
              exists p :: ROLL_MIN <= p <= ROLL_MAX && (line == ServoLine("claw", p) || line == ServoLine("roll", p))
  {
    var e := Handle(s, inp);
    forall line | line in e.lines
      ensures exists p :: ROLL_MIN <= p <= ROLL_MAX && (line == ServoLine("claw", p) || line == ServoLine("roll", p))
    {
      if line == ServoLine("claw", e.state.clawPosition) {
        assert ROLL_MIN <= e.state.clawPosition <= ROLL_MAX;
      } else {
        assert line == ServoLine("roll", e.state.rollPosition);
      }
    }
  }

  /**
   Left trigger fully pressed on an open claw: the tick writes exactly
   `claw:90\n`, and the same snapshot on the next tick writes nothing.
   */
  lemma CloseOnceScenario(s: ClawState, inp: Inputs)
    requires Invariant(s) && s.clawPosition == CLAW_OPEN
    requires inp == Inputs(1.0, 0.0, false, false)
    ensures Handle(s, inp).lines == ["claw:90\n"]
    ensures Handle(Handle(s, inp).state, inp).lines == []
  {
    assert NatToString(9) == "9";
    assert IntToString(CLAW_CLOSED) == "90";
    assert ServoLine("claw", CLAW_CLOSED) == "claw:90\n";
    assert ClawStage(s, inp).lines == [ServoLine("claw", CLAW_CLOSED)];
  }

  // ---------------------------------------------------------------------------
  // Both controls of a pair held at once

  /**
   With both triggers held, every tick flips the claw and writes a line: from
   open the left trigger closes it, and from closed the elif branch opens it.
   */
  lemma BothTriggersHeldToggle(s: ClawState, inp: Inputs)
    requires Invariant(s)
    requires inp.leftTrigger > TRIGGER_THRESHOLD && inp.rightTrigger > TRIGGER_THRESHOLD
    ensures Handle(s, inp).state.clawPosition != s.clawPosition
    ensures Handle(Handle(s, inp).state, inp).state.clawPosition == s.clawPosition
    ensures |ClawStage(s, inp).lines| == 1
  {
  }

  /** With both bumpers held at ROLL_MIN, the roll swings 0, 1, 0, ... writing a line every tick. */
  lemma BothBumpersHeldAtFloorOscillate(s: ClawState, inp: Inputs)
    requires Invariant(s) && s.rollPosition == ROLL_MIN
    requires inp.leftBumper && inp.rightBumper
    ensures Handle(s, inp).state.rollPosition == ROLL_MIN + 1
    ensures Handle(Handle(s, inp).state, inp).state.rollPosition == ROLL_MIN
  {
  }

  /** The trigger stage with the left trigger taking priority whatever the claw's position. */
  function PrioritisedClawStage(s: ClawState, inp: Inputs): (e: Effect)
    ensures inp.leftTrigger > TRIGGER_THRESHOLD ==> e.state.clawPosition == CLAW_CLOSED
    ensures Invariant(s) ==> Invariant(e.state)
  {
    if inp.leftTrigger > TRIGGER_THRESHOLD then Adjust(s, CLAW_CLOSED)
    else if inp.rightTrigger > TRIGGER_THRESHOLD then Adjust(s, CLAW_OPEN)
    else Effect(s, [])
  }

  /** The bumper stage with the left bumper taking priority whatever the roll's position. */
  function PrioritisedRollStage(s: ClawState, inp: Inputs): (e: Effect)
    ensures inp.leftBumper ==> e.state.rollPosition <= s.rollPosition
    ensures Invariant(s) ==> Invariant(e.state)
  {
    if inp.leftBumper then Rotate(s, -1)
    else if inp.rightBumper then Rotate(s, 1)
    else Effect(s, [])
  }

  /**
   The corrected tick. It keeps the invariant and still writes exactly one line
   per servo whose position changed, claw first; a left trigger past the
   threshold always leaves the claw closed and a left bumper never raises the roll.
   */
  function PrioritisedHandle(s: ClawState, inp: Inputs): (e: Effect)
    ensures Invariant(s) ==> Invariant(e.state)
    ensures Invariant(s) ==> e.lines == ChangeLines(s, e.state)
    ensures inp.leftTrigger > TRIGGER_THRESHOLD ==> e.state.clawPosition == CLAW_CLOSED
    ensures inp.leftBumper ==> e.state.rollPosition <= s.rollPosition
  {
    var c := PrioritisedClawStage(s, inp);
    var r := PrioritisedRollStage(c.state, inp);
    Effect(r.state, c.lines + r.lines)
  }

  /**
   The corrected stages change only the two conflicts: outside "both triggers
   on a closed claw" the trigger stage is the as-written one, outside "both
   bumpers at the floor" the bumper stage is, and outside both the whole tick is.
   */
  lemma PrioritisedAgreesOutsideConflict(s: ClawState, inp: Inputs)
    requires Invariant(s)
    ensures !(inp.leftTrigger > TRIGGER_THRESHOLD && inp.rightTrigger > TRIGGER_THRESHOLD && s.clawPosition == CLAW_CLOSED)
            ==> PrioritisedClawStage(s, inp) == ClawStage(s, inp)
    ensures !(inp.leftBumper && inp.rightBumper && s.rollPosition == ROLL_MIN)
            ==> PrioritisedRollStage(s, inp) == RollStage(s, inp)
    ensures !(inp.leftTrigger > TRIGGER_THRESHOLD && inp.rightTrigger > TRIGGER_THRESHOLD && s.clawPosition == CLAW_CLOSED)
            && !(inp.leftBumper && inp.rightBumper && s.rollPosition == ROLL_MIN)
            ==> PrioritisedHandle(s, inp) == Handle(s, inp)
  {
  }

  /**
   In the prioritised tick, holding any combination of triggers writes at most
   one claw line over any two ticks, the left trigger always leaves the claw
   closed, and the left bumper never raises the roll.
   */
  lemma PrioritisedHoldIsQuiet(s: ClawState, inp: Inputs)
    requires Invariant(s)
    ensures var s1 := PrioritisedHandle(s, inp).state;
            && Invariant(s1)
            && PrioritisedClawStage(s1, inp).lines == []
            && (inp.leftTrigger > TRIGGER_THRESHOLD ==> s1.clawPosition == CLAW_CLOSED)
            && (inp.leftBumper ==> s1.rollPosition <= s.rollPosition)
  {
  }

  // ---------------------------------------------------------------------------
  // The program object

  class ClawController {
    var clawPosition: int
    var rollPosition: int
    var clawOpened: bool
    /** Lines the serial port accepted, oldest first. */
    var wire: seq<string>

    function State(): ClawState
      reads this
    {
      ClawState(clawPosition, rollPosition, clawOpened)
    }

    constructor ()
      ensures State() == Initial() && Invariant(State())
      ensures wire == []
    {
      clawPosition := CLAW_CLOSED;
      rollPosition := ROLL_START;
      clawOpened := false;
      wire := [];
    }

    /**
     Writes one servo line. `delivered` says whether the port accepted it; a
     refused write is swallowed, so the servo fields never depend on it.
     */
    method SendServoCommand(servo: string, position: int, delivered: bool)
      modifies this`wire
      ensures wire == old(wire) + Delivered([ServoLine(servo, position)], delivered)
    {
      if delivered {
        wire := wire + [ServoLine(servo, position)];
      }
    }

    method AdjustClaw(position: int, delivered: bool)
      modifies this
      ensures State() == Adjust(old(State()), position).state
      ensures wire == old(wire) + Delivered(Adjust(old(State()), position).lines, delivered)
    {
      if clawPosition != position {
        clawPosition := position;
        clawOpened := position == CLAW_OPEN;
        SendServoCommand("claw", clawPosition, delivered);
      }
    }

    method RotateRoll(direction: int, delivered: bool)
      modifies this
      ensures State() == Rotate(old(State()), direction).state
      ensures wire == old(wire) + Delivered(Rotate(old(State()), direction).lines, delivered)
    {
      var newPos := rollPosition + direction;
      if ROLL_MIN <= newPos <= ROLL_MAX {
        rollPosition := newPos;
        SendServoCommand("roll", rollPosition, delivered);
      }
    }

    /**
     One tick. `clawDelivered` and `rollDelivered` say whether the port
     accepted the claw and the roll line, if the tick writes them; the new
     state is the same whatever they are.
     */
    method HandleInputs(inp: Inputs, clawDelivered: bool, rollDelivered: bool)
      requires Invariant(State())
      modifies this
      ensures Invariant(State())
      ensures State() == Handle(old(State()), inp).state
      ensures wire == old(wire)
                      + Delivered(ClawStage(old(State()), inp).lines, clawDelivered)
                      + Delivered(RollStage(ClawStage(old(State()), inp).state, inp).lines, rollDelivered)
    {
      ghost var c := ClawStage(State(), inp);
      ghost var wire0 := wire;
      if inp.leftTrigger > TRIGGER_THRESHOLD && clawPosition != CLAW_CLOSED {
        AdjustClaw(CLAW_CLOSED, clawDelivered);
      } else if inp.rightTrigger > TRIGGER_THRESHOLD && clawPosition != CLAW_OPEN {
        AdjustClaw(CLAW_OPEN, clawDelivered);
      }
      assert State() == c.state && wire == wire0 + Delivered(c.lines, clawDelivered);
      ghost var r := RollStage(State(), inp);
      ghost var wire1 := wire;
      if inp.leftBumper && rollPosition > ROLL_MIN {
        RotateRoll(-1, rollDelivered);
      } else if inp.rightBumper && rollPosition < ROLL_MAX {
        RotateRoll(1, rollDelivered);
      }
      assert State() == r.state && wire == wire1 + Delivered(r.lines, rollDelivered);
    }
  }
}
