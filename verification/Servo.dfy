/**
  Servo positions and the PWM chip's registers. Byte writes can fail on the bus; a write that
  reports failure may still have reached the chip.
 */
module Servo {
  import opened EchoTypes

  const REG_BASE: nat := 6
  const TICKS_MIN: nat := 205
  const TICKS_MAX: nat := 410
  const NUM_REGS: nat := 256

  // Encoding ------------------------------------------------------------------------------

  function AngleToPwm(angle: nat): nat {
    TICKS_MIN + angle * (TICKS_MAX - TICKS_MIN) / 180
  }

  /** The four register bytes of a channel: on-time 0, off-time the ticks, low byte first. */
  function Encode(ticks: nat): (bytes: seq<nat>)
    ensures |bytes| == 4
  {
    [0, 0, ticks % U8, (ticks / U8) % 16]
  }

  /** The angle a channel's bytes stand for. */
  function Decode(bytes: seq<nat>): int
    requires |bytes| == 4
  {
    ((bytes[2] + U8 * bytes[3] - TICKS_MIN) * 180 + 204) / 205
  }

  /** More degrees, more ticks: no two angles share a pulse width. */
  lemma TicksAreStrict(a: nat, b: nat)
    requires a < b
    ensures AngleToPwm(a) < AngleToPwm(b)
  {
    assert a * 205 + 205 <= b * 205;
  }

  lemma TicksFit(a: nat)
    requires a <= ANGLE_MAX
    ensures TICKS_MIN <= AngleToPwm(a) <= TICKS_MAX
  {
    assert a * 205 <= 180 * 205;
  }

  /** Scaling an angle to ticks, rounded down, and back, rounded up, is the identity. */
  lemma ScaleBack(a: nat)
    ensures (a * 205 / 180 * 180 + 204) / 205 == a
  {
    var f := a * 205 / 180;
    assert 180 * f <= 205 * a < 180 * f + 180;
  }

  lemma BytesHold(ticks: nat)
    requires ticks <= TICKS_MAX
    ensures ticks % U8 + U8 * ((ticks / U8) % 16) == ticks
  {
  }

  /** The stored angle can be read back from the registers. */
  lemma DecodeEncode(a: nat)
    requires a <= ANGLE_MAX
    ensures Decode(Encode(AngleToPwm(a))) == a
  {
    TicksFit(a);
    BytesHold(AngleToPwm(a));
    ScaleBack(a);
  }

  // Specification -------------------------------------------------------------------------

  /** Fate of the four byte writes of one channel: how many were acknowledged, how many reached
      the chip. The writes stop at the first that is not acknowledged. */
  datatype Bus = Bus(acked: nat, landed: nat)

  predicate Fate(b: Bus) {
    b.acked <= 4 && b.acked <= b.landed <= 4 && b.landed <= b.acked + 1
  }

  datatype Ret = Ok | InvalidId | BusError

  datatype State = State(pos: seq<nat>, regs: seq<nat>)

  predicate Shaped(s: State) { |s.pos| == NUM_SERVOS && |s.regs| == NUM_REGS }

  function Base(ch: nat): nat { REG_BASE + 4 * ch }

  function Channel(regs: seq<nat>, ch: nat): seq<nat>
    requires ch < NUM_SERVOS && |regs| == NUM_REGS
  {
    regs[Base(ch)..Base(ch) + 4]
  }

  /** The first `n` elements of `bytes` written from index `b` on. */
  function Patched(regs: seq<nat>, b: nat, bytes: seq<nat>, n: nat): (r: seq<nat>)
    requires n <= |bytes| && b + n <= |regs|
    ensures |r| == |regs|
  {
    regs[..b] + bytes[..n] + regs[b + n..]
  }

  lemma PatchedAt(regs: seq<nat>, b: nat, bytes: seq<nat>, n: nat, r: seq<nat>)
    requires n <= |bytes| && b + n <= |regs| == |r|
    requires forall i :: 0 <= i < |r| ==> r[i] == if b <= i < b + n then bytes[i - b] else regs[i]
    ensures r == Patched(regs, b, bytes, n)
  {
  }

  /** The registers after the first `n` bytes of a channel were written. */
  function Written(regs: seq<nat>, ch: nat, ticks: nat, n: nat): seq<nat>
    requires ch < NUM_SERVOS && |regs| == NUM_REGS && n <= 4
  {
    Patched(regs, Base(ch), Encode(ticks), n)
  }

  function PosAfter(pos: seq<nat>, id: nat, angle: nat): seq<nat>
    requires |pos| == NUM_SERVOS && id < NUM_SERVOS
  {
    var a := Min(angle, ANGLE_MAX);
    if id == PAN then pos[PAN := a][TILT2 := a] else pos[id := a]
  }

  /** What echo_servo_set_angle does on real hardware. */
  function Set(s: State, id: nat, angle: nat, first: Bus, second: Bus): (State, Ret)
    requires Shaped(s) && Fate(first) && Fate(second)
  {
    if id >= NUM_SERVOS then (s, InvalidId)
    else
      var pos := PosAfter(s.pos, id, angle);
      var ticks := AngleToPwm(Min(angle, ANGLE_MAX));
      var regs := Written(s.regs, id, ticks, first.landed);
      if first.acked < 4 then (State(pos, regs), BusError)
      else if id != PAN then (State(pos, regs), Ok)
      else (State(pos, Written(regs, TILT2, ticks, second.landed)), if second.acked < 4 then BusError else Ok)
  }

  // Histories -----------------------------------------------------------------------------

  datatype Call = Call(id: nat, angle: nat, first: Bus, second: Bus)

  predicate Calls(cs: seq<Call>) {
    forall k :: 0 <= k < |cs| ==> Fate(cs[k].first) && Fate(cs[k].second)
  }

  function After(s: State, cs: seq<Call>): (r: State)
    requires Shaped(s) && Calls(cs)
    ensures Shaped(r)
  {
    if cs == [] then s
    else
      var c := cs[|cs| - 1];
      Set(After(s, cs[..|cs| - 1]), c.id, c.angle, c.first, c.second).0
  }

  /** Did the last call that touches a channel return an error? */
  predicate LastFailed(s: State, cs: seq<Call>, ch: nat)
    requires Shaped(s) && Calls(cs)
  {
    cs != [] &&
    var c := cs[|cs| - 1];
    var before := cs[..|cs| - 1];
    if Drives(c.id, ch) then Set(After(s, before), c.id, c.angle, c.first, c.second).1 != Ok
    else LastFailed(s, before, ch)
  }

  predicate InSync(s: State, ch: nat)
    requires Shaped(s) && ch < NUM_SERVOS
  {
    Channel(s.regs, ch) == Encode(AngleToPwm(s.pos[ch]))
  }

  lemma WrittenChannel(regs: seq<nat>, ch: nat, ticks: nat, n: nat, x: nat)
    requires ch < NUM_SERVOS && x < NUM_SERVOS && |regs| == NUM_REGS && n <= 4
    ensures |Written(regs, ch, ticks, n)| == NUM_REGS
    ensures x != ch ==> Channel(Written(regs, ch, ticks, n), x) == Channel(regs, x)
    ensures x == ch ==> Channel(Written(regs, ch, ticks, n), x) == Encode(ticks)[..n] + Channel(regs, x)[n..]
  {
  }

  /** One call: a channel it does not touch keeps bytes and angle; one it touches is in step
      with its angle if the call succeeds. */
  lemma SetChannel(s: State, id: nat, angle: nat, first: Bus, second: Bus, ch: nat)
    requires Shaped(s) && Fate(first) && Fate(second) && ch < NUM_SERVOS
    ensures var (s', ret) := Set(s, id, angle, first, second);
            && (!Drives(id, ch) ==> Channel(s'.regs, ch) == Channel(s.regs, ch) && s'.pos[ch] == s.pos[ch])
            && (Drives(id, ch) && ret == Ok ==> InSync(s', ch))
  {
    if id < NUM_SERVOS {
      var ticks := AngleToPwm(Min(angle, ANGLE_MAX));
      var regs := Written(s.regs, id, ticks, first.landed);
      WrittenChannel(s.regs, id, ticks, first.landed, ch);
      if id == PAN && first.acked == 4 { WrittenChannel(regs, TILT2, ticks, second.landed, ch); }
    }
  }

  /** Over every history of calls and bus failures that starts in step: a channel's bytes differ
      from the encoding of its angle only if the last call that touched it returned an error. */
  lemma {:induction false} RegistersFollowPositions(s: State, cs: seq<Call>, ch: nat)
    requires Shaped(s) && Calls(cs) && ch < NUM_SERVOS && InSync(s, ch)
    ensures InSync(After(s, cs), ch) || LastFailed(s, cs, ch)
    decreases |cs|
  {
    if cs != [] {
      var c := cs[|cs| - 1];
      RegistersFollowPositions(s, cs[..|cs| - 1], ch);
      SetChannel(After(s, cs[..|cs| - 1]), c.id, c.angle, c.first, c.second, ch);
    }
  }

  /** The bytes by which a channel gets the pulse for an angle. */
  function Pulse(angle: nat): (bytes: seq<nat>)
    ensures |bytes| == 4
  {
    var t := 205 + (if angle > 180 then 180 else angle) * 205 / 180;
    [0, 0, t % 256, t / 256]
  }

  /** What a call does, register by register. The channels of PAN, TILT and TILT2 begin at registers 6,
      10 and 14. A successful call puts the pulse into its own channel, and PAN's into TILT2's as well;
      if PAN's own channel fails, TILT2's is left alone; no call touches any other register. */
  lemma SetExactly(s: State, id: nat, angle: nat, first: Bus, second: Bus)
    requires Shaped(s) && Fate(first) && Fate(second)
    ensures var (s', ret) := Set(s, id, angle, first, second);
            var a: nat := if angle > 180 then 180 else angle;
            && |s'.regs| == 256 && |s'.pos| == 3
            && (id > 2 ==> s' == s && ret == InvalidId)
            && (id <= 2 ==>
                  && s'.pos == (if id == 0 then [a, s.pos[1], a] else if id == 1 then [s.pos[0], a, s.pos[2]] else [s.pos[0], s.pos[1], a])
                  && ret == (if first.acked == 4 && (id == 0 ==> second.acked == 4) then Ok else BusError)
                  && (ret == Ok ==> s'.regs[6 + 4 * id..10 + 4 * id] == Pulse(angle))
                  && (ret == Ok && id == 0 ==> s'.regs[14..18] == Pulse(angle))
                  && forall r :: 0 <= r < 256 && !(6 + 4 * id <= r < 10 + 4 * id) && !(id == 0 && first.acked == 4 && 14 <= r < 18) ==>
                       s'.regs[r] == s.regs[r])
  {
    if id < NUM_SERVOS {
      var ticks := AngleToPwm(Min(angle, ANGLE_MAX));
      TicksFit(Min(angle, ANGLE_MAX));
      assert Encode(ticks) == Pulse(angle);
      var regs := Written(s.regs, id, ticks, first.landed);
      WrittenChannel(s.regs, id, ticks, first.landed, id);
      if id == PAN && first.acked == 4 {
        WrittenChannel(regs, TILT2, ticks, second.landed, id);
        WrittenChannel(regs, TILT2, ticks, second.landed, TILT2);
      }
    }
  }

  /** The positions change as poses do everywhere else in the driver, whatever the bus does. */
  lemma PositionsArePoses(s: State, id: nat, angle: nat, first: Bus, second: Bus)
    requires Shaped(s) && Fate(first) && Fate(second)
    ensures PoseOf(Set(s, id, angle, first, second).0.pos) == SetServo(PoseOf(s.pos), id, angle)
  {
  }

  function PoseOf(pos: seq<nat>): Pose
    requires |pos| == NUM_SERVOS
  {
    Pose(pos[PAN], pos[TILT], pos[TILT2])
  }

  // The driver ----------------------------------------------------------------------------

  class Driver {
    const sim: bool
    const pos: array<nat>
    const regs: array<nat>

    ghost predicate Valid()
      reads this, pos, regs
    {
      pos.Length == NUM_SERVOS && regs.Length == NUM_REGS && pos != regs
    }

    ghost function View(): (s: State)
      requires Valid()
      reads this, pos, regs
      ensures Shaped(s)
    {
      State(pos[..], regs[..])
    }

    /** Positions start at the centre; on real hardware each channel is then written once, and
        the results are ignored. */
    constructor (sim: bool, pan: Bus, tilt: Bus, tilt2: Bus)
      requires Fate(pan) && Fate(tilt) && Fate(tilt2)
      ensures Valid() && fresh(pos) && fresh(regs) && this.sim == sim
      ensures pos[..] == [90, 90, 90]
      ensures !sim && pan.landed == 4 && tilt.landed == 4 && tilt2.landed == 4 ==>
                regs[6..18] == Pulse(90) + Pulse(90) + Pulse(90) && forall ch :: 0 <= ch < NUM_SERVOS ==> InSync(View(), ch)
    {
      this.sim := sim;
      pos := new nat[NUM_SERVOS](_ => CENTER);
      regs := new nat[NUM_REGS](_ => 0);
      new;
      if !sim {
        var ticks := AngleToPwm(CENTER);
        var before := regs[..];
        var ok := SetPwm(PAN, ticks, pan);
        ok := SetPwm(TILT, ticks, tilt);
        ok := SetPwm(TILT2, ticks, tilt2);
        ghost var r1 := Written(before, PAN, ticks, pan.landed);
        ghost var r2 := Written(r1, TILT, ticks, tilt.landed);
        forall ch | 0 <= ch < NUM_SERVOS
          ensures pan.landed == 4 && tilt.landed == 4 && tilt2.landed == 4 ==> InSync(View(), ch)
        {
          WrittenChannel(before, PAN, ticks, pan.landed, ch);
          WrittenChannel(r1, TILT, ticks, tilt.landed, ch);
          WrittenChannel(r2, TILT2, ticks, tilt2.landed, ch);
        }
      }
    }

    /** The four byte writes of pca9685_set_pwm, stopping at the first that fails. */
    method WriteChannel(base: nat, low: nat, high: nat, bus: Bus) returns (ok: bool)
      requires Valid() && base + 4 <= NUM_REGS && Fate(bus)
      modifies regs
      ensures forall i :: 0 <= i < NUM_REGS ==>
        regs[i] == if base <= i < base + bus.landed then [0, 0, low, high][i - base] else old(regs[i])
      ensures ok == (bus.acked == 4)
    {
      if bus.landed > 0 { regs[base] := 0; }
      if bus.acked == 0 { return false; }
      if bus.landed > 1 { regs[base + 1] := 0; }
      if bus.acked == 1 { return false; }
      if bus.landed > 2 { regs[base + 2] := low; }
      if bus.acked == 2 { return false; }
      if bus.landed > 3 { regs[base + 3] := high; }
      ok := bus.acked == 4;
    }

    /** pca9685_set_pwm */
    method SetPwm(ch: nat, off: nat, bus: Bus) returns (ok: bool)
      requires Valid() && ch < NUM_SERVOS && Fate(bus)
      modifies regs
      ensures regs[..] == Written(old(regs[..]), ch, off, bus.landed)
      ensures forall r :: 0 <= r < 256 ==>
        regs[r] == if 6 + 4 * ch <= r < 6 + 4 * ch + bus.landed then [0, 0, off % 256, off / 256 % 16][r - 6 - 4 * ch] else old(regs[r])
      ensures ok == (bus.acked == 4)
    {
      ghost var was := regs[..];
      ok := WriteChannel(Base(ch), off % U8, (off / U8) % 16, bus);
      PatchedAt(was, Base(ch), Encode(off), bus.landed, regs[..]);
    }

    /** echo_servo_set_angle */
    method SetAngle(id: nat, angle: nat, first: Bus, second: Bus) returns (ret: Ret)
      requires Valid() && Fate(first) && Fate(second)
      modifies pos, regs
      ensures !sim ==> (View(), ret) == Set(old(View()), id, angle, first, second)
      ensures sim ==> regs[..] == old(regs[..]) && ret == if id < NUM_SERVOS then Ok else InvalidId
      ensures PoseOf(pos[..]) == SetServo(PoseOf(old(pos[..])), id, angle)
      ensures !sim && ret == Ok ==> regs[6 + 4 * id..10 + 4 * id] == Pulse(angle) && (id == 0 ==> regs[14..18] == Pulse(angle))
    {
      if !sim { SetExactly(View(), id, angle, first, second); }
      if id >= NUM_SERVOS { return InvalidId; }
      var a := if angle > ANGLE_MAX then ANGLE_MAX else angle;
      pos[id] := a;
      if id == PAN { pos[TILT2] := a; }
      assert pos[..] == PosAfter(old(pos[..]), id, angle);
      if sim { return Ok; }
      var ticks := AngleToPwm(a);
      var ok := SetPwm(id, ticks, first);
      if id == PAN && ok { ok := SetPwm(TILT2, ticks, second); }
      ret := if ok then Ok else BusError;
    }

    /** echo_servo_get_angle */
    method GetAngle(id: nat) returns (angle: nat)
      requires Valid()
      ensures angle == AngleOf(PoseOf(pos[..]), id) == if id < 3 then pos[id] else 90
    {
      if id >= NUM_SERVOS { return CENTER; }
      angle := pos[id];
    }
  }

  /** A history of calls on the driver: positions and registers go through the specification's
      states, so channels that began in step are in step unless their last call failed. */
  method Operate(d: Driver, cs: seq<Call>)
    requires d.Valid() && !d.sim && Calls(cs)
    modifies d.pos, d.regs
    ensures d.Valid() && d.View() == After(old(d.View()), cs)
    ensures forall ch :: 0 <= ch < NUM_SERVOS && InSync(old(d.View()), ch) ==>
              InSync(d.View(), ch) || LastFailed(old(d.View()), cs, ch)
  {
    ghost var was := d.View();
    for k := 0 to |cs|
      invariant d.Valid() && d.View() == After(was, cs[..k])
    {
      assert cs[..k + 1][..k] == cs[..k];
      var ret := d.SetAngle(cs[k].id, cs[k].angle, cs[k].first, cs[k].second);
    }
    assert cs[..|cs|] == cs;
    forall ch | 0 <= ch < NUM_SERVOS && InSync(was, ch) ensures InSync(d.View(), ch) || LastFailed(was, cs, ch) {
      RegistersFollowPositions(was, cs, ch);
    }
  }
}
