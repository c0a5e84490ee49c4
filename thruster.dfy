/**
 The ROV thruster bridge. Each tick maps one controller snapshot to nine
 pulse widths (six thrusters, a turn servo, a grip servo and a camera tilt),
 writes them as one comma-separated line, and sends that line only when it
 differs from the previous tick's line. Start-up and shutdown send the
 all-neutral line unconditionally.

 The mapping is pure (DeadZone, Trunc, Clamp, ButtonPulse, CameraPulse,
 ToCommand, Encode). The gate is the object ThrusterController, whose
 `prevCommand` and `isOpen` fields change in place; `wire` is the log of
 lines the serial port accepted.

 Axis values are `real`: the products `fb * 400` and the like are taken
 exactly, without IEEE-754 rounding, and Python's `int()` is truncation
 toward zero.
 */
module Thruster {
  import opened Text

  const DEAD_ZONE: real := 0.05
  const MIDPOINT: int := 1500
  const PULSE_MIN: int := 1100
  const PULSE_MAX: int := 1900
  const LOW_PULSE: int := 1300
  const HIGH_PULSE: int := 1700
  /** Gain of the forward/back and the vertical axis. */
  const THRUST_GAIN: real := 400.0
  /** Gain of the yaw axis. */
  const YAW_GAIN: real := 200.0
  /** The line sent at start-up, on interrupt and on close. */
  const NEUTRAL_LINE: string := "1500,1500,1500,1500,1500,1500,1500,1500,1500\n"

  /** A d-pad position; each coordinate is -1, 0 or 1 on the controller. */
  datatype Hat = Hat(x: int, y: int)

  /**
   One poll of the joystick: axis 0 (left stick X), axis 1 (left stick Y),
   axis 3 (right stick Y), buttons 4 to 7, and hat 0 when the controller has one.
   */
  datatype Snapshot = Snapshot(
    leftX: real, leftY: real, rightY: real,
    button4: bool, button5: bool, button6: bool, button7: bool,
    hat: Option<Hat>)

  /** The nine channels in wire order. */
  datatype Command = Command(
    t1: int, t2: int, t3: int, t4: int, t5: int, t6: int,
    turn: int, grip: int, cam: int)

  function Channels(c: Command): (xs: seq<int>)
    ensures |xs| == 9
  {
    [c.t1, c.t2, c.t3, c.t4, c.t5, c.t6, c.turn, c.grip, c.cam]
  }

  predicate InRange(c: Command)
  {
    forall i :: 0 <= i < |Channels(c)| ==> PULSE_MIN <= Channels(c)[i] <= PULSE_MAX
  }

  function Neutral(): Command
  {
    Command(MIDPOINT, MIDPOINT, MIDPOINT, MIDPOINT, MIDPOINT, MIDPOINT, MIDPOINT, MIDPOINT, MIDPOINT)
  }

  // ---------------------------------------------------------------------------
  // The mapping

  function Abs(x: real): real { if x < 0.0 then -x else x }

  /** An axis strictly inside the dead zone reads as 0; on its edge or beyond, it passes unchanged. */
  function DeadZone(v: real): (r: real)
    ensures Abs(v) < DEAD_ZONE ==> r == 0.0
    ensures DEAD_ZONE <= Abs(v) ==> r == v
  {
    if Abs(v) < DEAD_ZONE then 0.0 else v
  }

  /** Python's `int()` on a float: the integer part, rounding toward zero. */
  function Trunc(x: real): (r: int)
    ensures 0.0 <= x ==> 0 <= r && r as real <= x < r as real + 1.0
    ensures x < 0.0 ==> r <= 0 && r as real - 1.0 < x <= r as real
  {
    if 0.0 <= x then x.Floor else -((-x).Floor)
  }

  /** `max(1100, min(1900, v))`: saturates at the bounds, never wraps. */
  function Clamp(v: int): (r: int)
    ensures PULSE_MIN <= r <= PULSE_MAX
    ensures PULSE_MIN <= v <= PULSE_MAX ==> r == v
    ensures v < PULSE_MIN ==> r == PULSE_MIN
    ensures PULSE_MAX < v ==> r == PULSE_MAX
  {
    var upper := if PULSE_MAX < v then PULSE_MAX else v;
    if upper < PULSE_MIN then PULSE_MIN else upper
  }

  /** The three-way policy of a button pair: the first button pressed gives LOW, else the second gives HIGH. */
  function ButtonPulse(first: bool, second: bool): (r: int)
    ensures r == LOW_PULSE <==> first
    ensures r == HIGH_PULSE <==> !first && second
    ensures r == MIDPOINT <==> !first && !second
  {
    if first then LOW_PULSE else if second then HIGH_PULSE else MIDPOINT
  }

  /** Camera tilt from the d-pad's vertical coordinate; neutral without a hat. */
  function CameraPulse(hat: Option<Hat>): (r: int)
    ensures r == HIGH_PULSE <==> hat.Some? && hat.value.y > 0
    ensures r == LOW_PULSE <==> hat.Some? && hat.value.y < 0
    ensures r == MIDPOINT <==> hat.None? || hat.value.y == 0
  {
    match hat
    case None => MIDPOINT
    case Some(h) => if h.y > 0 then HIGH_PULSE else if h.y < 0 then LOW_PULSE else MIDPOINT
  }

  /** One pulse width: the midpoint plus the truncated mix, clamped. */
  function Pulse(mix: real): (r: int)
    ensures PULSE_MIN <= r <= PULSE_MAX
  {
    Clamp(MIDPOINT + Trunc(mix))
  }

  /** The three stick axes after sign correction and the dead zone. */
  datatype Axes = Axes(forward: real, yaw: real, vertical: real)

  /** Forward is minus axis 1, yaw is axis 0, vertical is minus axis 3, each through the dead zone. */
  function Filter(snap: Snapshot): (a: Axes)
    ensures Abs(snap.leftY) < DEAD_ZONE ==> a.forward == 0.0
    ensures DEAD_ZONE <= Abs(snap.leftY) ==> a.forward == -snap.leftY
    ensures Abs(snap.leftX) < DEAD_ZONE ==> a.yaw == 0.0
    ensures DEAD_ZONE <= Abs(snap.leftX) ==> a.yaw == snap.leftX
    ensures Abs(snap.rightY) < DEAD_ZONE ==> a.vertical == 0.0
    ensures DEAD_ZONE <= Abs(snap.rightY) ==> a.vertical == -snap.rightY
    ensures a.forward > 0.0 <==> snap.leftY <= -DEAD_ZONE
    ensures a.yaw > 0.0 <==> snap.leftX >= DEAD_ZONE
    ensures a.vertical > 0.0 <==> snap.rightY <= -DEAD_ZONE
  {
    Axes(DeadZone(-snap.leftY), DeadZone(snap.leftX), DeadZone(-snap.rightY))
  }

  /** The nine channels from the filtered axes, the two button pairs and the d-pad. */
  function Assemble(a: Axes, b4: bool, b5: bool, b6: bool, b7: bool, hat: Option<Hat>): (c: Command)
    ensures InRange(c)
  {
    var vertical := Pulse(a.vertical * THRUST_GAIN);
    Command(
      vertical,
      Pulse(-a.forward * THRUST_GAIN - a.yaw * YAW_GAIN),
      Pulse(a.forward * THRUST_GAIN - a.yaw * YAW_GAIN),
      Pulse(-a.forward * THRUST_GAIN + a.yaw * YAW_GAIN),
      Pulse(a.forward * THRUST_GAIN + a.yaw * YAW_GAIN),
      vertical,
      ButtonPulse(b4, b5),
      ButtonPulse(b6, b7),
      CameraPulse(hat))
  }

  /** The nine channels for one snapshot; every one lies within the pulse bounds. */
  function ToCommand(snap: Snapshot): (c: Command)
    ensures InRange(c)
  {
    Assemble(Filter(snap), snap.button4, snap.button5, snap.button6, snap.button7, snap.hat)
  }

  // ---------------------------------------------------------------------------
  // Properties of the mapping

  lemma TruncOdd(x: real)
    ensures Trunc(-x) == -Trunc(x)
  {
  }

  /** The bounds are symmetric about the midpoint, so clamping commutes with mirroring. */
  lemma ClampMirror(v: int)
    ensures Clamp(2 * MIDPOINT - v) == 2 * MIDPOINT - Clamp(v)
  {
  }

  /** Pulses of opposite mixes are mirror images about the midpoint. */
  lemma PulseMirror(mix: real)
    ensures Pulse(-mix) + Pulse(mix) == 2 * MIDPOINT
  {
    TruncOdd(mix);
    ClampMirror(MIDPOINT + Trunc(mix));
  }

  /** The mirror structure of the mixing, for any filtered axes. */
  lemma AssembleSymmetry(a: Axes, b4: bool, b5: bool, b6: bool, b7: bool, hat: Option<Hat>)
    ensures var c := Assemble(a, b4, b5, b6, b7, hat);
            && c.t1 == c.t6
            && c.t2 + c.t5 == 2 * MIDPOINT
            && c.t3 + c.t4 == 2 * MIDPOINT
  {
    var sum := a.forward * THRUST_GAIN + a.yaw * YAW_GAIN;
    var diff := a.forward * THRUST_GAIN - a.yaw * YAW_GAIN;
    assert -a.forward * THRUST_GAIN - a.yaw * YAW_GAIN == -sum;
    assert -a.forward * THRUST_GAIN + a.yaw * YAW_GAIN == -diff;
    PulseMirror(sum);
    PulseMirror(diff);
  }

  /**
   The two vertical thrusters agree, and each horizontal pair is driven in
   opposite directions by the same amount: t2 + t5 and t3 + t4 are twice the
   midpoint, however the channels saturate.
   */
  lemma ThrusterSymmetry(snap: Snapshot)
    ensures ToCommand(snap).t1 == ToCommand(snap).t6
    ensures ToCommand(snap).t2 + ToCommand(snap).t5 == 2 * MIDPOINT
    ensures ToCommand(snap).t3 + ToCommand(snap).t4 == 2 * MIDPOINT
  {
    AssembleSymmetry(Filter(snap), snap.button4, snap.button5, snap.button6, snap.button7, snap.hat);
  }

  /** An axis inside the dead zone contributes exactly nothing: it maps as if it read 0. */
  lemma DeadAxisContributesNothing(snap: Snapshot)
    ensures Abs(snap.leftX) < DEAD_ZONE ==> ToCommand(snap) == ToCommand(snap.(leftX := 0.0))
    ensures Abs(snap.leftY) < DEAD_ZONE ==> ToCommand(snap) == ToCommand(snap.(leftY := 0.0))
    ensures Abs(snap.rightY) < DEAD_ZONE ==> ToCommand(snap) == ToCommand(snap.(rightY := 0.0))
  {
    if Abs(snap.leftX) < DEAD_ZONE {
      assert Filter(snap) == Filter(snap.(leftX := 0.0));
    }
    if Abs(snap.leftY) < DEAD_ZONE {
      assert Abs(-snap.leftY) == Abs(snap.leftY);
      assert Filter(snap) == Filter(snap.(leftY := 0.0));
    }
    if Abs(snap.rightY) < DEAD_ZONE {
      assert Abs(-snap.rightY) == Abs(snap.rightY);
      assert Filter(snap) == Filter(snap.(rightY := 0.0));
    }
  }

  /** A stick exactly on the dead-zone edge is live: full left stick X of 0.05 moves the horizontal thrusters. */
  lemma DeadZoneEdgeIsLive(snap: Snapshot)
    requires snap.leftX == DEAD_ZONE && Abs(snap.leftY) < DEAD_ZONE
    ensures ToCommand(snap).t3 == MIDPOINT - 10 && ToCommand(snap).t5 == MIDPOINT + 10
  {
    assert DeadZone(-snap.leftY) == 0.0;
  }

  /** Sticks at rest, no button and a centred or absent d-pad give the neutral command. */
  lemma RestIsNeutral(snap: Snapshot)
    requires Abs(snap.leftX) < DEAD_ZONE && Abs(snap.leftY) < DEAD_ZONE && Abs(snap.rightY) < DEAD_ZONE
    requires !snap.button4 && !snap.button5 && !snap.button6 && !snap.button7
    requires snap.hat.None? || snap.hat.value.y == 0
    ensures ToCommand(snap) == Neutral()
  {
    assert DeadZone(-snap.leftY) == 0.0;
    assert DeadZone(-snap.rightY) == 0.0;
  }

  /** Forward 0.6 with no yaw: two thrusters at 1500 + 240, two at 1500 - 240, no clamping. */
  lemma ForwardWithoutClamping(snap: Snapshot)
    requires snap.leftY == -0.6 && snap.leftX == 0.0 && snap.rightY == 0.0
    ensures ToCommand(snap).t3 == 1740 && ToCommand(snap).t5 == 1740
    ensures ToCommand(snap).t2 == 1260 && ToCommand(snap).t4 == 1260
    ensures ToCommand(snap).t1 == MIDPOINT && ToCommand(snap).t6 == MIDPOINT
  {
    assert DeadZone(-snap.leftY) == 0.6;
  }

  /**
   The vertical channel: right stick Y is inverted and scaled by 400, and both
   vertical thrusters take it while the horizontal four stay at the midpoint.
   */
  lemma VerticalScenario(snap: Snapshot)
    requires snap.leftY == 0.0 && snap.leftX == 0.0
    ensures snap.rightY == -0.5 ==> ToCommand(snap).t1 == 1700 && ToCommand(snap).t6 == 1700
    ensures snap.rightY == 0.5 ==> ToCommand(snap).t1 == 1300 && ToCommand(snap).t6 == 1300
    ensures ToCommand(snap).t2 == MIDPOINT && ToCommand(snap).t3 == MIDPOINT
    ensures ToCommand(snap).t4 == MIDPOINT && ToCommand(snap).t5 == MIDPOINT
  {
  }

  /** Full forward with full yaw overdrives two channels; they saturate at the bounds instead of wrapping. */
  lemma FullForwardFullYawSaturates(snap: Snapshot)
    requires snap.leftY == -1.0 && snap.leftX == 1.0 && snap.rightY == 0.0
    ensures MIDPOINT + Trunc(1.0 * THRUST_GAIN + 1.0 * YAW_GAIN) > PULSE_MAX
    ensures ToCommand(snap).t5 == PULSE_MAX && ToCommand(snap).t2 == PULSE_MIN
    ensures ToCommand(snap).t3 == 1700 && ToCommand(snap).t4 == 1300
  {
    assert DeadZone(-snap.leftY) == 1.0;
    assert Trunc(600.0) == 600;
    assert Trunc(-600.0) == -600;
  }

  // ---------------------------------------------------------------------------
  // The line format

  /** The f-string of the nine channels: comma-separated decimal integers and a newline. */
  function Encode(c: Command): (line: string)
    ensures 0 < |line| && line[|line| - 1] == '\n'
  {
    EncodeInts(Channels(c))
  }

  function Decode(line: string): Option<Command>
  {
    match DecodeInts(line)
    case Some(xs) =>
      if |xs| == 9 then Some(Command(xs[0], xs[1], xs[2], xs[3], xs[4], xs[5], xs[6], xs[7], xs[8]))
      else None
    case None => None
  }

  /** Every command line reads back as the command it was written from. */
  lemma EncodeRoundTrip(c: Command)
    ensures Decode(Encode(c)) == Some(c)
  {
    EncodeIntsRoundTrip(Channels(c));
  }

  /** Comparing lines, as the gate does, is the same as comparing commands. */
  lemma EncodeInjective(a: Command, b: Command)
    ensures Encode(a) == Encode(b) <==> a == b
  {
    EncodeRoundTrip(a);
    EncodeRoundTrip(b);
  }

  /** The literal neutral line is the encoding of the all-midpoint command. */
  lemma NeutralLineEncodesNeutral()
    ensures Encode(Neutral()) == NEUTRAL_LINE
  {
    MidpointNumeral();
    var fields := Numerals(Channels(Neutral()));
    assert fields == seq(9, _ => "1500");
    JoinedMidpoints();
  }

  lemma MidpointNumeral()
    ensures IntToString(MIDPOINT) == "1500"
  {
    assert NatToString(1) == "1";
    assert NatToString(15) == "15";
    assert NatToString(150) == "150";
  }

  lemma JoinedThreeMidpoints()
    ensures Join(seq(3, _ => "1500"), ',') == "1500,1500,1500"
  {
    var fields := seq(3, _ => "1500");
    assert Join(fields[2..], ',') == "1500";
    assert Join(fields[1..], ',') == "1500,1500";
    assert fields[0..] == fields;
  }

  lemma NineMidpoints()
    ensures seq(9, _ => "1500") == seq(3, _ => "1500") + (seq(3, _ => "1500") + seq(3, _ => "1500"))
  {
  }

  lemma NeutralLineSpelled()
    ensures "1500,1500,1500" + [','] + ("1500,1500,1500" + [','] + "1500,1500,1500") + "\n" == NEUTRAL_LINE
  {
  }

  lemma JoinedMidpoints()
    ensures Join(seq(9, _ => "1500"), ',') + "\n" == NEUTRAL_LINE
  {
    var three := seq(3, _ => "1500");
    NineMidpoints();
    JoinAppend(three, three, ',');
    JoinAppend(three, three + three, ',');
    JoinedThreeMidpoints();
    NeutralLineSpelled();
  }

  // ---------------------------------------------------------------------------
  // The transmission gate, as a function of the lines it is fed

  /** The gate's memory after being fed `lines` starting from `prev`. */
  function LastLine<T>(prev: T, lines: seq<T>): T
  {
    if |lines| == 0 then prev else lines[|lines| - 1]
  }

  /**
   The lines that reach an open port when the gate, remembering `prev`, is fed
   `lines`: a line is written when it differs from the previous tick's line
   and the port accepts it (`delivered`). The memory moves on to each new line
   whether or not its write went through.
   */
  function Transmit<T(==)>(prev: T, lines: seq<T>, delivered: seq<bool>): (out: seq<T>)
    requires |delivered| == |lines|
    ensures |out| <= |lines|
    decreases |lines|
  {
    if |lines| == 0 then []
    else
      (if lines[0] != prev && delivered[0] then [lines[0]] else [])
      + Transmit(lines[0], lines[1..], delivered[1..])
  }

  lemma TailAppend<T>(s: seq<T>, x: T)
    requires 0 < |s|
    ensures (s + [x])[0] == s[0] && (s + [x])[1..] == s[1..] + [x]
  {
  }

  /** Feeding one more line extends the output by what the last step writes. */
  lemma {:induction false} TransmitSnoc<T>(prev: T, lines: seq<T>, delivered: seq<bool>, line: T, ok: bool)
    requires |delivered| == |lines|
    ensures Transmit(prev, lines + [line], delivered + [ok])
            == Transmit(prev, lines, delivered) + (if line != LastLine(prev, lines) && ok then [line] else [])
    decreases |lines|
  {
    if |lines| == 0 {
      assert lines + [line] == [line];
      assert delivered + [ok] == [ok];
    } else {
      TailAppend(lines, line);
      TailAppend(delivered, ok);
      TransmitSnoc(lines[0], lines[1..], delivered[1..], line, ok);
      assert LastLine(lines[0], lines[1..]) == LastLine(prev, lines);
    }
  }

  /**
   With every write accepted, the gate never writes the same line twice in a
   row, and never repeats the line it remembered at the start.
   */
  lemma {:induction false} TransmitNoRepeats<T>(prev: T, lines: seq<T>, delivered: seq<bool>)
    requires |delivered| == |lines|
    requires forall i :: 0 <= i < |delivered| ==> delivered[i]
    ensures var out := Transmit(prev, lines, delivered);
            && (0 < |out| ==> out[0] != prev)
            && forall i :: 0 <= i < |out| - 1 ==> out[i] != out[i + 1]
    decreases |lines|
  {
    if 0 < |lines| {
      TransmitNoRepeats(lines[0], lines[1..], delivered[1..]);
    }
  }

  /** A line fed over and over is written at most once, and not at all if the gate already holds it. */
  lemma {:induction false} TransmitRepeatedLine<T>(prev: T, line: T, n: nat, delivered: seq<bool>)
    requires |delivered| == n
    ensures Transmit(prev, seq(n, _ => line), delivered)
            == if 0 < n && line != prev && delivered[0] then [line] else []
    decreases n
  {
    if 0 < n {
      var lines := seq(n, _ => line);
      assert lines[1..] == seq(n - 1, _ => line);
      TransmitRepeatedLine(line, line, n - 1, delivered[1..]);
    }
  }

  /** Two different lines in a row, both accepted, are both written, in order. */
  lemma TransmitChange<T>(prev: T, a: T, b: T)
    requires a != prev && b != a
    ensures Transmit(prev, [a, b], [true, true]) == [a, b]
  {
    assert [a, b][1..] == [b];
  }

  /** A fresh gate remembers the empty string, which no command line equals: the first tick always writes. */
  lemma FirstTickWrites(snap: Snapshot)
    ensures Transmit("", [Encode(ToCommand(snap))], [true]) == [Encode(ToCommand(snap))]
  {
  }

  /** Appending what one tick delivers to what the earlier ticks delivered. */
  lemma DeliveredAppend<T>(wire0: seq<T>, wire1: seq<T>, wire2: seq<T>, written: seq<T>, step: seq<T>, open: bool)
    requires wire1 == wire0 + Delivered(written, open)
    requires wire2 == wire1 + Delivered(step, open)
    ensures wire2 == wire0 + Delivered(written + step, open)
  {
  }

  /** The line computed at each tick of a run of snapshots, in order. */
  function Lines(snaps: seq<Snapshot>): (lines: seq<string>)
    ensures |lines| == |snaps|
    ensures forall k :: 0 <= k < |snaps| ==> lines[k] == Encode(ToCommand(snaps[k]))
  {
    seq(|snaps|, k requires 0 <= k < |snaps| => Encode(ToCommand(snaps[k])))
  }

  /**
   Each tick's line reads back as that tick's command, so two ticks' lines are
   equal exactly when their commands are.
   */
  lemma LinesRoundTrip(snaps: seq<Snapshot>)
    ensures forall k :: 0 <= k < |snaps| ==> Decode(Lines(snaps)[k]) == Some(ToCommand(snaps[k]))
    ensures forall j, k :: 0 <= j < |snaps| && 0 <= k < |snaps| ==>
              (Lines(snaps)[j] == Lines(snaps)[k] <==> ToCommand(snaps[j]) == ToCommand(snaps[k]))
  {
    var lines := Lines(snaps);
    forall k | 0 <= k < |snaps|
      ensures Decode(lines[k]) == Some(ToCommand(snaps[k]))
    {
      EncodeRoundTrip(ToCommand(snaps[k]));
    }
    forall j, k | 0 <= j < |snaps| && 0 <= k < |snaps|
      ensures lines[j] == lines[k] <==> ToCommand(snaps[j]) == ToCommand(snaps[k])
    {
      EncodeInjective(ToCommand(snaps[j]), ToCommand(snaps[k]));
    }
  }

  lemma PrefixSnoc<T>(s: seq<T>, i: nat)
    requires i < |s|
    ensures s[..i + 1] == s[..i] + [s[i]]
  {
  }

  /** The gate's memory and the port's contents after one more line is fed. */
  lemma FeedTick<T>(start: T, fed: seq<T>, sent: seq<bool>, line: T, ok: bool,
                        wire0: seq<T>, wireBefore: seq<T>, wireAfter: seq<T>, before: T, open: bool)
    requires |sent| == |fed|
    requires before == LastLine(start, fed)
    requires wireBefore == wire0 + Delivered(Transmit(start, fed, sent), open)
    requires wireAfter == wireBefore + Delivered(if line != before && ok then [line] else [], open)
    ensures line == LastLine(start, fed + [line])
    ensures wireAfter == wire0 + Delivered(Transmit(start, fed + [line], sent + [ok]), open)
  {
    TransmitSnoc(start, fed, sent, line, ok);
    DeliveredAppend(wire0, wireBefore, wireAfter, Transmit(start, fed, sent),
                    if line != before && ok then [line] else [], open);
  }

  // ---------------------------------------------------------------------------
  // The program object

  class ThrusterController {
    /** The last computed line, whether or not its write went through. */
    var prevCommand: string
    var isOpen: bool
    /** Lines the serial port accepted, oldest first. */
    var wire: seq<string>

    /** Opens the port and sends the neutral line; the gate's memory stays empty. */
    constructor (delivered: bool)
      ensures prevCommand == "" && isOpen
      ensures wire == Delivered([NEUTRAL_LINE], delivered)
    {
      prevCommand := "";
      isOpen := true;
      wire := [];
      new;
      SendCommand(NEUTRAL_LINE, delivered);
    }

    /** Writes `line` if the port is open and accepts it; a refused write is swallowed. */
    method SendCommand(line: string, delivered: bool)
      modifies this`wire
      ensures wire == old(wire) + Delivered([line], isOpen && delivered)
    {
      if isOpen && delivered {
        wire := wire + [line];
      }
    }

    /** The gate: a computed line is written only if it differs from the remembered one, which it then replaces. */
    method Feed(command: string, delivered: bool)
      modifies this`prevCommand, this`wire
      ensures prevCommand == command
      ensures wire == old(wire) + Delivered(if command != old(prevCommand) && delivered then [command] else [], isOpen)
    {
      if command != prevCommand {
        SendCommand(command, delivered);
        prevCommand := command;
      }
    }

    /** One pass of the polling loop: map the snapshot, and write its line only if it changed. */
    method Step(snap: Snapshot, delivered: bool)
      modifies this`prevCommand, this`wire
      ensures prevCommand == Encode(ToCommand(snap))
      ensures wire == old(wire) + Delivered(if prevCommand != old(prevCommand) && delivered then [prevCommand] else [], isOpen)
    {
      var command := Encode(ToCommand(snap));
      Feed(command, delivered);
    }

    /** The gate fed a sequence of lines, `delivered[i]` saying whether write i went through. */
    method Poll(lines: seq<string>, delivered: seq<bool>)
      requires |delivered| == |lines|
      modifies this`prevCommand, this`wire
      ensures prevCommand == LastLine(old(prevCommand), lines)
      ensures wire == old(wire) + Delivered(Transmit(old(prevCommand), lines, delivered), isOpen)
    {
      ghost var start := prevCommand;
      ghost var wire0 := wire;
      var i := 0;
      while i < |lines|
        invariant 0 <= i <= |lines|
        invariant prevCommand == LastLine(start, lines[..i])
        invariant wire == wire0 + Delivered(Transmit(start, lines[..i], delivered[..i]), isOpen)
      {
        ghost var before := prevCommand;
        ghost var wireBefore := wire;
        Feed(lines[i], delivered[i]);
        PrefixSnoc(lines, i);
        PrefixSnoc(delivered, i);
        FeedTick(start, lines[..i], delivered[..i], lines[i], delivered[i], wire0, wireBefore, wire, before, isOpen);
        i := i + 1;
      }
      assert lines[..i] == lines;
      assert delivered[..i] == delivered;
    }

    /**
     The polling loop over a finite run of snapshots. The mapping is pure, so
     computing every tick's line first and then feeding the gate writes what
     the tick-by-tick loop writes.
     */
    method Run(snaps: seq<Snapshot>, delivered: seq<bool>)
      requires |delivered| == |snaps|
      modifies this`prevCommand, this`wire
      ensures prevCommand == LastLine(old(prevCommand), Lines(snaps))
      ensures wire == old(wire) + Delivered(Transmit(old(prevCommand), Lines(snaps), delivered), isOpen)
    {
      var lines := Lines(snaps);
      Poll(lines, delivered);
    }

    /** The interrupt handler: the neutral line, whatever the gate remembers. */
    method Interrupt(delivered: bool)
      modifies this`wire
      ensures wire == old(wire) + Delivered([NEUTRAL_LINE], isOpen && delivered)
    {
      SendCommand(NEUTRAL_LINE, delivered);
    }

    /** Sends the neutral line, bypassing the gate, then closes the port. */
    method Close(delivered: bool)
      modifies this`wire, this`isOpen
      ensures !isOpen
      ensures wire == old(wire) + Delivered([NEUTRAL_LINE], old(isOpen) && delivered)
    {
      SendCommand(NEUTRAL_LINE, delivered);
      isOpen := false;
    }

    /**
     Stopping by interrupt: the handler sends the neutral line, the loop's
     `finally` closes the controller, and the script's own `finally` closes it
     once more. The port is open for the first two sends only, so at most two
     neutral lines are written.
     */
    method InterruptAndExit(handlerDelivered: bool, closeDelivered: bool, secondCloseDelivered: bool)
      modifies this`wire, this`isOpen
      ensures !isOpen
      ensures wire == old(wire)
                      + Delivered([NEUTRAL_LINE], old(isOpen) && handlerDelivered)
                      + Delivered([NEUTRAL_LINE], old(isOpen) && closeDelivered)
    {
      Interrupt(handlerDelivered);
      Close(closeDelivered);
      Close(secondCloseDelivered);
    }
  }
}
