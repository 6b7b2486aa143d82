/**
 * The firmware of the ESP32 that drives the air conditioner over CAN.
 *
 * Four builders fill an 8-byte CAN frame in place and send it: a zone
 * open/close frame, a set-temperature frame (the temperature times 100 as a
 * little-endian 16-bit value), a fan-speed frame and a mode frame.  Each
 * clamps its argument to the range the unit accepts.  `loop` cycles through a
 * fixed test sequence of 31 steps, sending the frame of the current step and
 * moving to the next one whenever more than `delayTime` milliseconds have
 * passed since the last send.
 *
 * The CAN driver is abstract: every frame handed to it is appended to a ghost
 * log.  The millisecond clock is the parameter `now`.
 */
module Esp32Control {
  import opened Wrappers

  newtype uint8 = x: int | 0 <= x < 0x100
  newtype uint32 = x: int | 0 <= x < 0x1_0000_0000

  // ---------------------------------------------------------------------------
  // Frame identifiers.

  const FrameZone0: uint32 := 0x140C_0003
  const FrameZone1: uint32 := 0x140C_2003
  const FrameZone2: uint32 := 0x140C_4003
  const FrameZone3: uint32 := 0x140C_6003
  const FrameZone4: uint32 := 0x140C_8003
  const FrameZone5: uint32 := 0x140C_A003
  const FrameSetTemp: uint32 := 0x140C_0017
  const FrameFanSpeed: uint32 := 0x140C_0015
  const FrameMode: uint32 := 0x140C_0014

  /** The zone identifiers; position k is zone k. */
  const ZoneIdentifiers: seq<uint32> := [FrameZone0, FrameZone1, FrameZone2, FrameZone3, FrameZone4, FrameZone5]

  /** The identifiers of the frames the firmware sends are pairwise distinct, and none is the placeholder 0. */
  lemma IdentifiersDistinct()
    ensures forall i, j :: 0 <= i < j < 6 ==> ZoneIdentifiers[i] != ZoneIdentifiers[j]
    ensures forall i :: 0 <= i < 6 ==>
              (ZoneIdentifiers[i] != FrameSetTemp && ZoneIdentifiers[i] != FrameFanSpeed
               && ZoneIdentifiers[i] != FrameMode && ZoneIdentifiers[i] != 0)
    ensures FrameSetTemp != FrameFanSpeed && FrameSetTemp != FrameMode && FrameFanSpeed != FrameMode
    ensures FrameSetTemp != 0 && FrameFanSpeed != 0 && FrameMode != 0
  {
  }

  // ---------------------------------------------------------------------------
  // The frames, as values.

  /** A CAN frame's identifier and data bytes. */
  datatype Frame = Frame(identifier: uint32, data: seq<uint8>)

  /** Bytes 2 to 7 of an 8-byte payload are zero. */
  predicate ZeroPadded(data: seq<uint8>) {
    |data| == 8 && forall i :: 2 <= i < 8 ==> data[i] == 0
  }

  /** The argument raised to `lo` if below it, then lowered to `hi` if above it. */
  function Clamp(x: int, lo: int, hi: int): (r: int)
    requires lo <= hi
    ensures lo <= r <= hi
    ensures lo <= x <= hi ==> r == x
    ensures x < lo ==> r == lo
    ensures x > hi ==> r == hi
  {
    var raised := if x < lo then lo else x;
    if raised > hi then hi else raised
  }

  /** The identifier `setZone` uses: the zone's own for zones 0..5, otherwise 0. */
  function ZoneIdentifier(zone: uint8): uint32 {
    if zone == 0 then FrameZone0
    else if zone == 1 then FrameZone1
    else if zone == 2 then FrameZone2
    else if zone == 3 then FrameZone3
    else if zone == 4 then FrameZone4
    else if zone == 5 then FrameZone5
    else 0
  }

  /** The frame `setZone(zone, zoneOpen)` sends: 1 opens, 2 closes, then the marker 9. */
  function ZoneFrame(zone: uint8, zoneOpen: bool): (f: Frame)
    ensures zone < 6 ==> f.identifier == ZoneIdentifiers[zone]
    ensures zone >= 6 ==> f.identifier == 0
    ensures ZeroPadded(f.data) && f.data[1] == 9
    ensures f.data[0] == (if zoneOpen then 1 else 2)
  {
    Frame(ZoneIdentifier(zone), [if zoneOpen then 1 else 2, 9, 0, 0, 0, 0, 0, 0])
  }

  /** The frame `setTemperature(temperature)` sends: the clamped temperature times 100, low byte first. */
  function TemperatureFrame(temperature: uint8): (f: Frame)
    ensures f.identifier == FrameSetTemp && ZeroPadded(f.data)
    ensures f.data[0] as int + 0x100 * f.data[1] as int == Clamp(temperature as int, 15, 30) * 100
    ensures Clamp(temperature as int, 15, 30) * 100 <= 3000 < 0x1_0000
  {
    var longTemp := Clamp(temperature as int, 15, 30) * 100;
    Frame(FrameSetTemp, [(longTemp % 0x100) as uint8, (longTemp / 0x100 % 0x100) as uint8, 0, 0, 0, 0, 0, 0])
  }

  /** The frame `setFanSpeed(speed)` sends: the speed clamped to [1, 3], then the marker 9. */
  function FanSpeedFrame(speed: uint8): (f: Frame)
    ensures f.identifier == FrameFanSpeed && ZeroPadded(f.data) && f.data[1] == 9
    ensures 1 <= f.data[0] <= 3 && f.data[0] as int == Clamp(speed as int, 1, 3)
  {
    Frame(FrameFanSpeed, [Clamp(speed as int, 1, 3) as uint8, 9, 0, 0, 0, 0, 0, 0])
  }

  /** The frame `setMode(mode)` sends: the mode clamped to [1, 5], then the marker 9. */
  function ModeFrame(mode: uint8): (f: Frame)
    ensures f.identifier == FrameMode && ZeroPadded(f.data) && f.data[1] == 9
    ensures 1 <= f.data[0] <= 5 && f.data[0] as int == Clamp(mode as int, 1, 5)
  {
    Frame(FrameMode, [Clamp(mode as int, 1, 5) as uint8, 9, 0, 0, 0, 0, 0, 0])
  }

  // ---------------------------------------------------------------------------
  // Reading a frame back: what the unit is told.

  datatype Command =
    | ZoneCommand(zone: nat, open: bool)
    | TemperatureCommand(centiDegrees: int)
    | FanSpeedCommand(speed: int)
    | ModeCommand(mode: int)

  /** The zone whose identifier is `id`, if any. */
  function ZoneOf(id: uint32): (z: Option<nat>)
    ensures z.Some? ==> z.value < 6 && ZoneIdentifiers[z.value] == id
    ensures z.None? ==> id !in ZoneIdentifiers
  {
    if id == FrameZone0 then Some(0)
    else if id == FrameZone1 then Some(1)
    else if id == FrameZone2 then Some(2)
    else if id == FrameZone3 then Some(3)
    else if id == FrameZone4 then Some(4)
    else if id == FrameZone5 then Some(5)
    else None
  }

  /** The command a frame carries, read independently of the builders; None for anything else. */
  function Decode(f: Frame): Option<Command> {
    if !ZeroPadded(f.data) then None
    else if f.identifier == FrameSetTemp then Some(TemperatureCommand(f.data[0] as int + 0x100 * f.data[1] as int))
    else if f.data[1] != 9 then None
    else if f.identifier == FrameFanSpeed then Some(FanSpeedCommand(f.data[0] as int))
    else if f.identifier == FrameMode then Some(ModeCommand(f.data[0] as int))
    else match ZoneOf(f.identifier)
      case Some(z) =>
        if f.data[0] == 1 then Some(ZoneCommand(z, true))
        else if f.data[0] == 2 then Some(ZoneCommand(z, false))
        else None
      case None => None
  }

  /** A zone frame tells zone 0..5 to open or close; for any other zone number it carries identifier 0 and means nothing. */
  lemma ZoneFrameDecodes(zone: uint8, zoneOpen: bool)
    ensures zone < 6 ==> Decode(ZoneFrame(zone, zoneOpen)) == Some(ZoneCommand(zone as nat, zoneOpen))
    ensures zone >= 6 ==> ZoneFrame(zone, zoneOpen).identifier == 0 && Decode(ZoneFrame(zone, zoneOpen)) == None
  {
  }

  /** A set-temperature frame carries the temperature clamped to [15, 30], in hundredths of a degree. */
  lemma TemperatureFrameDecodes(temperature: uint8)
    ensures Decode(TemperatureFrame(temperature)) == Some(TemperatureCommand(Clamp(temperature as int, 15, 30) * 100))
  {
  }

  lemma FanSpeedFrameDecodes(speed: uint8)
    ensures Decode(FanSpeedFrame(speed)) == Some(FanSpeedCommand(Clamp(speed as int, 1, 3)))
  {
  }

  lemma ModeFrameDecodes(mode: uint8)
    ensures Decode(ModeFrame(mode)) == Some(ModeCommand(Clamp(mode as int, 1, 5)))
  {
  }

  // ---------------------------------------------------------------------------
  // The test sequence.

  /** The steps of `loop`'s test sequence, in declaration order. */
  datatype SendStep =
    | Zone0Closed
    | Zone0Open
    | Zone1Closed
    | Zone1Open
    | Zone2Closed
    | Zone2Open
    | Zone3Closed
    | Zone3Open
    | Zone4Closed
    | Zone4Open
    | Zone5Closed
    | Zone5Open
    | Temp20
    | Temp21
    | Temp22
    | Temp23
    | Temp24
    | Temp25
    | Temp26
    | Temp27
    | Temp28
    | Temp29
    | TempReset
    | FanHigh
    | FanMedium
    | FanLow
    | ModeHeat
    | ModeVent
    | ModeDry
    | ModeAuto
    | ModeCool

  /** All steps in declaration order. */
  const Steps: seq<SendStep> := [
      Zone0Closed, Zone0Open, Zone1Closed, Zone1Open, Zone2Closed, Zone2Open,
      Zone3Closed, Zone3Open, Zone4Closed, Zone4Open, Zone5Closed, Zone5Open,
      Temp20, Temp21, Temp22, Temp23, Temp24, Temp25,
      Temp26, Temp27, Temp28, Temp29, TempReset, FanHigh,
      FanMedium, FanLow, ModeHeat, ModeVent, ModeDry, ModeAuto,
      ModeCool]

  /** A step's position in declaration order. */
  function Index(s: SendStep): (i: nat)
    ensures i < 31
  {
    match s
    case Zone0Closed => 0
    case Zone0Open => 1
    case Zone1Closed => 2
    case Zone1Open => 3
    case Zone2Closed => 4
    case Zone2Open => 5
    case Zone3Closed => 6
    case Zone3Open => 7
    case Zone4Closed => 8
    case Zone4Open => 9
    case Zone5Closed => 10
    case Zone5Open => 11
    case Temp20 => 12
    case Temp21 => 13
    case Temp22 => 14
    case Temp23 => 15
    case Temp24 => 16
    case Temp25 => 17
    case Temp26 => 18
    case Temp27 => 19
    case Temp28 => 20
    case Temp29 => 21
    case TempReset => 22
    case FanHigh => 23
    case FanMedium => 24
    case FanLow => 25
    case ModeHeat => 26
    case ModeVent => 27
    case ModeDry => 28
    case ModeAuto => 29
    case ModeCool => 30
  }

  /** The step `loop` moves to after sending the frame of step `s`. */
  function Next(s: SendStep): SendStep {
    match s
    case Zone0Closed => Zone0Open
    case Zone0Open => Zone1Closed
    case Zone1Closed => Zone1Open
    case Zone1Open => Zone2Closed
    case Zone2Closed => Zone2Open
    case Zone2Open => Zone3Closed
    case Zone3Closed => Zone3Open
    case Zone3Open => Zone4Closed
    case Zone4Closed => Zone4Open
    case Zone4Open => Zone5Closed
    case Zone5Closed => Zone5Open
    case Zone5Open => Temp20
    case Temp20 => Temp21
    case Temp21 => Temp22
    case Temp22 => Temp23
    case Temp23 => Temp24
    case Temp24 => Temp25
    case Temp25 => Temp26
    case Temp26 => Temp27
    case Temp27 => Temp28
    case Temp28 => Temp29
    case Temp29 => TempReset
    case TempReset => FanHigh
    case FanHigh => FanMedium
    case FanMedium => FanLow
    case FanLow => ModeHeat
    case ModeHeat => ModeVent
    case ModeVent => ModeDry
    case ModeDry => ModeAuto
    case ModeAuto => ModeCool
    case ModeCool => Zone0Closed
  }

  /** The frame `loop` sends at step `s`; `StepCommand` says what it tells the unit. */
  function StepFrame(s: SendStep): Frame {
    match s
    case Zone0Closed => ZoneFrame(0, false)
    case Zone0Open => ZoneFrame(0, true)
    case Zone1Closed => ZoneFrame(1, false)
    case Zone1Open => ZoneFrame(1, true)
    case Zone2Closed => ZoneFrame(2, false)
    case Zone2Open => ZoneFrame(2, true)
    case Zone3Closed => ZoneFrame(3, false)
    case Zone3Open => ZoneFrame(3, true)
    case Zone4Closed => ZoneFrame(4, false)
    case Zone4Open => ZoneFrame(4, true)
    case Zone5Closed => ZoneFrame(5, false)
    case Zone5Open => ZoneFrame(5, true)
    case Temp20 => TemperatureFrame(20)
    case Temp21 => TemperatureFrame(21)
    case Temp22 => TemperatureFrame(22)
    case Temp23 => TemperatureFrame(23)
    case Temp24 => TemperatureFrame(24)
    case Temp25 => TemperatureFrame(25)
    case Temp26 => TemperatureFrame(26)
    case Temp27 => TemperatureFrame(27)
    case Temp28 => TemperatureFrame(28)
    case Temp29 => TemperatureFrame(29)
    case TempReset => TemperatureFrame(24)
    case FanHigh => FanSpeedFrame(3)
    case FanMedium => FanSpeedFrame(2)
    case FanLow => FanSpeedFrame(1)
    case ModeHeat => ModeFrame(2)
    case ModeVent => ModeFrame(3)
    case ModeDry => ModeFrame(4)
    case ModeAuto => ModeFrame(5)
    case ModeCool => ModeFrame(1)
  }

  /** A step's position is where the declaration-order list holds it, so each step has exactly one position. */
  lemma IndexListsStep(s: SendStep)
    ensures Steps[Index(s)] == s
  {
    match s
    case Zone0Closed =>
    case Zone0Open =>
    case Zone1Closed =>
    case Zone1Open =>
    case Zone2Closed =>
    case Zone2Open =>
    case Zone3Closed =>
    case Zone3Open =>
    case Zone4Closed =>
    case Zone4Open =>
    case Zone5Closed =>
    case Zone5Open =>
    case Temp20 =>
    case Temp21 =>
    case Temp22 =>
    case Temp23 =>
    case Temp24 =>
    case Temp25 =>
    case Temp26 =>
    case Temp27 =>
    case Temp28 =>
    case Temp29 =>
    case TempReset =>
    case FanHigh =>
    case FanMedium =>
    case FanLow =>
    case ModeHeat =>
    case ModeVent =>
    case ModeDry =>
    case ModeAuto =>
    case ModeCool =>
  }

  /** Each send moves to the next step in declaration order, and the last step wraps to the first. */
  lemma NextFollowsDeclarationOrder(s: SendStep)
    ensures Index(Next(s)) == (Index(s) + 1) % 31
  {
  }

  /** The step reached from `s` after `n` sends. */
  function Iterate(s: SendStep, n: nat): SendStep
    decreases n
  {
    if n == 0 then s else Iterate(Next(s), n - 1)
  }

  lemma ModSuccessor(a: int, n: int)
    requires 0 <= a < 31 && n >= 1
    ensures ((a + 1) % 31 + (n - 1)) % 31 == (a + n) % 31
  {
    if a == 30 {
      assert (a + n) % 31 == ((n - 1) + 31) % 31 == (n - 1) % 31;
    }
  }

  /** One send, then `n - 1` more, moves the position as far as `n` sends. */
  lemma StepIndex(s: SendStep, n: nat)
    requires n >= 1
    ensures (Index(Next(s)) + (n - 1)) % 31 == (Index(s) + n) % 31
  {
    NextFollowsDeclarationOrder(s);
    ModSuccessor(Index(s), n);
  }

  lemma {:induction false} IterateIndex(s: SendStep, n: nat)
    ensures Index(Iterate(s, n)) == (Index(s) + n) % 31
    decreases n
  {
    if n > 0 {
      var t := Next(s);
      IterateIndex(t, n - 1);
      StepIndex(s, n);
    }
  }

  /** Two steps at the same position are the same step. */
  lemma IndexInjective(a: SendStep, b: SendStep)
    requires Index(a) == Index(b)
    ensures a == b
  {
    IndexListsStep(a);
    IndexListsStep(b);
  }

  lemma {:induction false} ModWholeRounds(i: int, rounds: nat)
    requires 0 <= i < 31
    ensures (i + 31 * rounds) % 31 == i
  {
    if rounds > 0 {
      ModWholeRounds(i, rounds - 1);
      assert i + 31 * rounds == (i + 31 * (rounds - 1)) + 31;
    }
  }

  /** After any whole number of rounds of 31 sends the step is back where it started. */
  lemma CycleReturns(s: SendStep, rounds: nat)
    ensures Iterate(s, 31 * rounds) == s
  {
    IterateIndex(s, 31 * rounds);
    ModWholeRounds(Index(s), rounds);
    IndexInjective(Iterate(s, 31 * rounds), s);
  }

  /** ... and not before: the sequence has period exactly 31. */
  lemma CycleHasNoShorterPeriod(s: SendStep, k: nat)
    requires 0 < k < 31
    ensures Iterate(s, k) != s
  {
    IterateIndex(s, k);
    var i := Index(s);
    assert (i + k) % 31 == if i + k < 31 then i + k else i + k - 31;
  }

  /**
   * What the sequence tells the unit, by position: each zone closed then
   * opened (positions 0..11), 20 to 29 degrees (12..21), 24 degrees again
   * (22), fan high, medium, low (23..25), then modes heat, vent, dry, auto
   * (26..29) and cool (30).
   */
  lemma StepCommand(s: SendStep)
    ensures var i := Index(s);
      Decode(StepFrame(s)) == Some(
        if i < 12 then ZoneCommand(i / 2, i % 2 == 1)
        else if i < 22 then TemperatureCommand((i + 8) * 100)
        else if i == 22 then TemperatureCommand(2400)
        else if i < 26 then FanSpeedCommand(26 - i)
        else if i < 30 then ModeCommand(i - 24)
        else ModeCommand(1))
  {
    match s
    case Zone0Closed =>
    case Zone0Open =>
    case Zone1Closed =>
    case Zone1Open =>
    case Zone2Closed =>
    case Zone2Open =>
    case Zone3Closed =>
    case Zone3Open =>
    case Zone4Closed =>
    case Zone4Open =>
    case Zone5Closed =>
    case Zone5Open =>
    case Temp20 =>
    case Temp21 =>
    case Temp22 =>
    case Temp23 =>
    case Temp24 =>
    case Temp25 =>
    case Temp26 =>
    case Temp27 =>
    case Temp28 =>
    case Temp29 =>
    case TempReset =>
    case FanHigh =>
    case FanMedium =>
    case FanLow =>
    case ModeHeat =>
    case ModeVent =>
    case ModeDry =>
    case ModeAuto =>
    case ModeCool =>
  }

  // ---------------------------------------------------------------------------
  // Timing.

  /** The period between two sends, in milliseconds (`delayTime`). */
  const DelayTime: uint32 := 30000

  /** `now - lastSent` in 32-bit unsigned arithmetic, so the millisecond counter may wrap around between the two. */
  function Elapsed(now: uint32, lastSent: uint32): (e: uint32)
    ensures now >= lastSent ==> e as int == now as int - lastSent as int
    ensures now < lastSent ==> e as int == now as int + 0x1_0000_0000 - lastSent as int
  {
    ((now as int - lastSent as int) % 0x1_0000_0000) as uint32
  }

  /** The globals `loop` keeps between calls. */
  datatype Schedule = Schedule(step: SendStep, lastSent: uint32)

  /** One call of `loop` at time `now`: the next schedule, and the frame sent, if any. */
  function Tick(sch: Schedule, now: uint32): (r: (Schedule, Option<Frame>))
    ensures r.1.Some? <==>
      (if now >= sch.lastSent then now as int - sch.lastSent as int
       else now as int + 0x1_0000_0000 - sch.lastSent as int) > DelayTime as int
    ensures r.1.Some? ==> r == (Schedule(Next(sch.step), now), Some(StepFrame(sch.step)))
    ensures r.1.None? ==> r.0 == sch
  {
    if Elapsed(now, sch.lastSent) > DelayTime then (Schedule(Next(sch.step), now), Some(StepFrame(sch.step)))
    else (sch, None)
  }

  function OptionToSeq<T>(o: Option<T>): seq<T> {
    if o.Some? then [o.value] else []
  }

  /** Successive calls of `loop` at the times `nows`: the final schedule and the frames sent, in order. */
  function RunLoop(sch: Schedule, nows: seq<uint32>): (Schedule, seq<Frame>)
    decreases |nows|
  {
    if nows == [] then (sch, [])
    else
      var (next, frame) := Tick(sch, nows[0]);
      var (last, frames) := RunLoop(next, nows[1..]);
      (last, OptionToSeq(frame) + frames)
  }

  /**
   * However the calls are timed, the frames sent are the frames of the steps
   * of the sequence, in order, one per send, and the step reached is the
   * starting step advanced once per send.
   */
  lemma {:induction false} RunLoopFollowsSequence(sch: Schedule, nows: seq<uint32>)
    ensures RunLoop(sch, nows).0.step == Iterate(sch.step, |RunLoop(sch, nows).1|)
    ensures forall i :: 0 <= i < |RunLoop(sch, nows).1| ==> RunLoop(sch, nows).1[i] == StepFrame(Iterate(sch.step, i))
    decreases |nows|
  {
    if nows != [] {
      var (next, frame) := Tick(sch, nows[0]);
      RunLoopFollowsSequence(next, nows[1..]);
      var frames := RunLoop(next, nows[1..]).1;
      if frame.Some? {
        assert RunLoop(sch, nows).1 == [StepFrame(sch.step)] + frames;
        forall i | 1 <= i < |frames| + 1
          ensures RunLoop(sch, nows).1[i] == StepFrame(Iterate(sch.step, i))
        {
          assert Iterate(sch.step, i) == Iterate(Next(sch.step), i - 1);
        }
      } else {
        assert RunLoop(sch, nows).1 == frames;
      }
    }
  }

  /** After 31 sends, or any multiple of 31, however they were timed, the sequence is back at the step it started from. */
  lemma WholeRoundsReturnToStart(sch: Schedule, nows: seq<uint32>)
    requires |RunLoop(sch, nows).1| % 31 == 0
    ensures RunLoop(sch, nows).0.step == sch.step
  {
    RunLoopFollowsSequence(sch, nows);
    CycleReturns(sch.step, |RunLoop(sch, nows).1| / 31);
  }

  /** After a send at `sentAt`, the next call sends again only once more than `DelayTime` milliseconds have passed since `sentAt`. */
  lemma AtMostOneFramePerPeriod(sch: Schedule, sentAt: uint32, now: uint32)
    requires Tick(sch, sentAt).1.Some?
    ensures Tick(Tick(sch, sentAt).0, now).1.Some? <==> Elapsed(now, sentAt) > DelayTime
    ensures Tick(Tick(sch, sentAt).0, now).1.None? ==> Tick(Tick(sch, sentAt).0, now).0.step == Next(sch.step)
  {
  }

  // ---------------------------------------------------------------------------
  // The firmware's state.

  /** A CAN frame being filled in: its identifier and its 8 data bytes. */
  class CanFrame {
    var identifier: uint32
    const data: array<uint8>

    ghost predicate Valid()
      reads this
    {
      data.Length == 8
    }

    constructor ()
      ensures Valid() && fresh(data)
    {
      identifier := 0;
      data := new uint8[8](_ => 0);
    }

    /** The frame as it stands. */
    function Snapshot(): Frame
      reads this, data
    {
      Frame(identifier, data[..])
    }
  }

  /** The firmware's static state: the current step, the time of the last send, and the log of frames sent. */
  class Controller {
    var sendStep: SendStep
    var lastSent: uint32
    ghost var sent: seq<Frame>

    function Current(): Schedule
      reads this
    {
      Schedule(sendStep, lastSent)
    }

    /** `setup`, apart from the hardware: the sequence starts at its first step, timed from `now`. */
    constructor Setup(now: uint32)
      ensures Current() == Schedule(Zone0Closed, now) && sent == []
    {
      sendStep := Zone0Closed;
      lastSent := now;
      sent := [];
    }

    /** `sendFrame`: the frame as it stands goes on the bus. */
    method SendFrame(frame: CanFrame)
      modifies `sent
      ensures sent == old(sent) + [frame.Snapshot()]
    {
      sent := sent + [frame.Snapshot()];
    }

    method SetZone(frame: CanFrame, zone: uint8, zoneOpen: bool)
      requires frame.Valid()
      modifies `sent, frame, frame.data
      ensures frame.Snapshot() == ZoneFrame(zone, zoneOpen)
      ensures sent == old(sent) + [ZoneFrame(zone, zoneOpen)]
    {
      if zone == 0 {
        frame.identifier := FrameZone0;
      } else if zone == 1 {
        frame.identifier := FrameZone1;
      } else if zone == 2 {
        frame.identifier := FrameZone2;
      } else if zone == 3 {
        frame.identifier := FrameZone3;
      } else if zone == 4 {
        frame.identifier := FrameZone4;
      } else if zone == 5 {
        frame.identifier := FrameZone5;
      } else {
        frame.identifier := 0;
      }
      if zoneOpen {
        frame.data[0] := 1;
      } else {
        frame.data[0] := 2;
      }
      frame.data[1] := 9;
      frame.data[2] := 0;
      frame.data[3] := 0;
      frame.data[4] := 0;
      frame.data[5] := 0;
      frame.data[6] := 0;
      frame.data[7] := 0;
      assert frame.Snapshot() == ZoneFrame(zone, zoneOpen);
      SendFrame(frame);
    }

    method SetTemperature(frame: CanFrame, temperature: uint8)
      requires frame.Valid()
      modifies `sent, frame, frame.data
      ensures frame.Snapshot() == TemperatureFrame(temperature)
      ensures sent == old(sent) + [TemperatureFrame(temperature)]
    {
      var t := temperature;
      if t < 15 {
        t := 15;
      }
      if t > 30 {
        t := 30;
      }
      var longTemp: int := t as int * 100;
      var binTempL := (longTemp % 0x100) as uint8;
      var binTempH := (longTemp / 0x100 % 0x100) as uint8;
      frame.identifier := FrameSetTemp;
      frame.data[0] := binTempL;
      frame.data[1] := binTempH;
      frame.data[2] := 0;
      frame.data[3] := 0;
      frame.data[4] := 0;
      frame.data[5] := 0;
      frame.data[6] := 0;
      frame.data[7] := 0;
      SendFrame(frame);
    }

    method SetFanSpeed(frame: CanFrame, speed: uint8)
      requires frame.Valid()
      modifies `sent, frame, frame.data
      ensures frame.Snapshot() == FanSpeedFrame(speed)
      ensures sent == old(sent) + [FanSpeedFrame(speed)]
    {
      var s := speed;
      if s < 1 {
        s := 1;
      }
      if s > 3 {
        s := 3;
      }
      frame.identifier := FrameFanSpeed;
      frame.data[0] := s;
      frame.data[1] := 9;
      frame.data[2] := 0;
      frame.data[3] := 0;
      frame.data[4] := 0;
      frame.data[5] := 0;
      frame.data[6] := 0;
      frame.data[7] := 0;
      SendFrame(frame);
    }

    method SetMode(frame: CanFrame, mode: uint8)
      requires frame.Valid()
      modifies `sent, frame, frame.data
      ensures frame.Snapshot() == ModeFrame(mode)
      ensures sent == old(sent) + [ModeFrame(mode)]
    {
      var m := mode;
      if m < 1 {
        m := 1;
      }
      if m > 5 {
        m := 5;
      }
      frame.identifier := FrameMode;
      frame.data[0] := m;
      frame.data[1] := 9;
      frame.data[2] := 0;
      frame.data[3] := 0;
      frame.data[4] := 0;
      frame.data[5] := 0;
      frame.data[6] := 0;
      frame.data[7] := 0;
      SendFrame(frame);
    }

    /** One call of `loop` at time `now`. */
    method Loop(now: uint32)
      modifies this
      ensures Current() == Tick(old(Current()), now).0
      ensures sent == old(sent) + OptionToSeq(Tick(old(Current()), now).1)
    {
      if Elapsed(now, lastSent) > DelayTime {
        lastSent := now;
        var outgoingFrame := new CanFrame();
        match sendStep
          case Zone0Closed =>
            SetZone(outgoingFrame, 0, false);
            sendStep := Zone0Open;
          case Zone0Open =>
            SetZone(outgoingFrame, 0, true);
            sendStep := Zone1Closed;
          case Zone1Closed =>
            SetZone(outgoingFrame, 1, false);
            sendStep := Zone1Open;
          case Zone1Open =>
            SetZone(outgoingFrame, 1, true);
            sendStep := Zone2Closed;
          case Zone2Closed =>
            SetZone(outgoingFrame, 2, false);
            sendStep := Zone2Open;
          case Zone2Open =>
            SetZone(outgoingFrame, 2, true);
            sendStep := Zone3Closed;
          case Zone3Closed =>
            SetZone(outgoingFrame, 3, false);
            sendStep := Zone3Open;
          case Zone3Open =>
            SetZone(outgoingFrame, 3, true);
            sendStep := Zone4Closed;
          case Zone4Closed =>
            SetZone(outgoingFrame, 4, false);
            sendStep := Zone4Open;
          case Zone4Open =>
            SetZone(outgoingFrame, 4, true);
            sendStep := Zone5Closed;
          case Zone5Closed =>
            SetZone(outgoingFrame, 5, false);
            sendStep := Zone5Open;
          case Zone5Open =>
            SetZone(outgoingFrame, 5, true);
            sendStep := Temp20;
          case Temp20 =>
            SetTemperature(outgoingFrame, 20);
            sendStep := Temp21;
          case Temp21 =>
            SetTemperature(outgoingFrame, 21);
            sendStep := Temp22;
          case Temp22 =>
            SetTemperature(outgoingFrame, 22);
            sendStep := Temp23;
          case Temp23 =>
            SetTemperature(outgoingFrame, 23);
            sendStep := Temp24;
          case Temp24 =>
            SetTemperature(outgoingFrame, 24);
            sendStep := Temp25;
          case Temp25 =>
            SetTemperature(outgoingFrame, 25);
            sendStep := Temp26;
          case Temp26 =>
            SetTemperature(outgoingFrame, 26);
            sendStep := Temp27;
          case Temp27 =>
            SetTemperature(outgoingFrame, 27);
            sendStep := Temp28;
          case Temp28 =>
            SetTemperature(outgoingFrame, 28);
            sendStep := Temp29;
          case Temp29 =>
            SetTemperature(outgoingFrame, 29);
            sendStep := TempReset;
          case TempReset =>
            SetTemperature(outgoingFrame, 24);
            sendStep := FanHigh;
          case FanHigh =>
            SetFanSpeed(outgoingFrame, 3);
            sendStep := FanMedium;
          case FanMedium =>
            SetFanSpeed(outgoingFrame, 2);
            sendStep := FanLow;
          case FanLow =>
            SetFanSpeed(outgoingFrame, 1);
            sendStep := ModeHeat;
          case ModeHeat =>
            SetMode(outgoingFrame, 2);
            sendStep := ModeVent;
          case ModeVent =>
            SetMode(outgoingFrame, 3);
            sendStep := ModeDry;
          case ModeDry =>
            SetMode(outgoingFrame, 4);
            sendStep := ModeAuto;
          case ModeAuto =>
            SetMode(outgoingFrame, 5);
            sendStep := ModeCool;
          case ModeCool =>
            SetMode(outgoingFrame, 1);
            sendStep := Zone0Closed;
      }
    }
  }
}
