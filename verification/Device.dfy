/**
  The driver's calls as they run when nothing interrupts them: recorder, replayer, RESET and
  direct MOVE over the ring and the servos. Module Machine says how they interleave.
 */
module Device {
  import opened EchoTypes
  import opened Motion
  import Buffer
  import Servo
  import Timing

  /** How the bus treats the two channel updates of one servo call. */
  datatype Bus = Bus(first: Servo.Bus, second: Servo.Bus)

  predicate Fates(b: Bus) { Servo.Fate(b.first) && Servo.Fate(b.second) }

  function DelaysOf(ms: seq<Move>): (ds: seq<nat>)
    ensures |ds| == |ms|
  {
    seq(|ms|, k requires 0 <= k < |ms| => ms[k].delay)
  }

  /** The presses of a lesson, with the delays the clock gave them. */
  function Presses(pans: seq<bool>, rights: seq<bool>, ds: seq<nat>): (es: seq<Event>)
    requires |pans| == |rights| == |ds|
    ensures |es| == |ds|
  {
    seq(|ds|, k requires 0 <= k < |ds| => Pressed(Press(pans[k], rights[k], ds[k])))
  }

  /** One more move of a replay: what it does to the pose, and how long it sleeps first. */
  lemma OneMorePlayed(p: Pose, ms: seq<Move>, speeds: seq<nat>, k: nat)
    requires k < |ms| && k < |speeds|
    ensures PlayAll(p, ms[..k + 1]) == PlayOne(PlayAll(p, ms[..k]), ms[k])
    ensures Timing.Slept(DelaysOf(ms[..k + 1]), speeds[..k + 1])
         == Timing.Slept(DelaysOf(ms[..k]), speeds[..k]) + Timing.SleepMs(ms[k].delay, speeds[k])
  {
    assert ms[..k + 1][..k] == ms[..k];
    assert DelaysOf(ms[..k + 1])[..k] == DelaysOf(ms[..k]);
    assert speeds[..k + 1][..k] == speeds[..k];
  }

  function NeverStop(): (stop: seq<bool>)
    ensures |stop| == FIFO_SIZE && forall k :: 0 <= k < FIFO_SIZE ==> !stop[k]
  {
    seq(FIFO_SIZE, _ => false)
  }

  lemma OneMorePress(s: Session, pans: seq<bool>, rights: seq<bool>, ts: seq<nat>, k: nat)
    requires Timing.Clock(ts) && |pans| == |rights| == |ts| - 1 && k < |pans|
    ensures var es := Presses(pans, rights, Timing.Delays(ts)); Run(s, es[..k + 1]) == Happens(Run(s, es[..k]), es[k])
    ensures Presses(pans, rights, Timing.Delays(ts))[k] == Pressed(Press(pans[k], rights[k], Timing.DelayMs(ts[k + 1] - ts[k])))
  {
    var es := Presses(pans, rights, Timing.Delays(ts));
    assert es[..k + 1][..k] == es[..k];
  }

  /** The recording `rec` kept the newest 256 of the delays `xs`. */
  predicate Kept(rec: seq<Move>, xs: seq<nat>) {
    |rec| <= FIFO_SIZE && DelaysOf(rec) == Newest(xs)
  }

  lemma PushKept(rec: seq<Move>, m: Move, xs: seq<nat>)
    requires Kept(rec, xs)
    ensures Kept(Push(rec, m), xs + [m.delay])
  {
    var ds := DelaysOf(rec);
    if |rec| == FIFO_SIZE {
      assert Push(rec, m) == rec[1..] + [m];
      assert Newest(ds + [m.delay]) == ds[1..] + [m.delay];
    } else {
      assert Newest(ds + [m.delay]) == ds + [m.delay];
    }
    NewestAppend(xs, [m.delay]);
  }

  lemma PressesPrefix(pans: seq<bool>, rights: seq<bool>, ds: seq<nat>, i: nat)
    requires |pans| == |rights| == |ds| && i <= |ds|
    ensures Presses(pans, rights, ds)[..i] == Presses(pans[..i], rights[..i], ds[..i])
  {
  }

  lemma {:induction false} PressesKept(s: Session, pans: seq<bool>, rights: seq<bool>, ds: seq<nat>, xs: seq<nat>)
    requires |pans| == |rights| == |ds| && Kept(s.rec, xs)
    ensures Kept(Run(s, Presses(pans, rights, ds)).rec, xs + ds)
    decreases |ds|
  {
    if ds == [] {
      assert xs + ds == xs;
    } else {
      var i := |ds| - 1;
      var es := Presses(pans, rights, ds);
      PressesPrefix(pans, rights, ds, i);
      PressesKept(s, pans[..i], rights[..i], ds[..i], xs);
      var r := Run(s, es[..i]);
      PushKept(r.rec, MoveOf(r.pose, es[i].press), xs + ds[..i]);
      assert (xs + ds[..i]) + [ds[i]] == xs + ds;
    }
  }

  /** What a lesson leaves of the recorded delays: the newest 256. */
  lemma PressesDelays(s: Session, pans: seq<bool>, rights: seq<bool>, ds: seq<nat>)
    requires |pans| == |rights| == |ds| && |s.rec| <= FIFO_SIZE
    ensures var r := Run(s, Presses(pans, rights, ds)).rec;
            |r| <= FIFO_SIZE && DelaysOf(r) == Newest(DelaysOf(s.rec) + ds)
  {
    PressesKept(s, pans, rights, ds, DelaysOf(s.rec));
  }

  class Echo {
    const buffer: Buffer.MoveBuffer
    const servo: Servo.Driver
    var mode: Mode
    var lastMove: nat      // nanoseconds
    var total: nat
    var armed: bool        // inactivity timer
    var newData: bool
    var finished: bool

    ghost predicate Valid()
      reads this, buffer, servo, servo.pos, servo.regs
    {
      buffer.Valid() && servo.Valid()
    }

    /** Pose and recording. */
    ghost function View(): Session
      requires Valid()
      reads this, buffer, buffer.data, servo, servo.pos, servo.regs
    {
      Session(Servo.PoseOf(servo.pos[..]), buffer.Contents())
    }

    constructor (buffer: Buffer.MoveBuffer, servo: Servo.Driver)
      requires buffer.Valid() && servo.Valid()
      ensures Valid() && this.buffer == buffer && this.servo == servo
      ensures mode == Idle && total == 0 && !armed && !newData && !finished
    {
      this.buffer, this.servo := buffer, servo;
      mode, lastMove, total, armed, newData, finished := Idle, 0, 0, false, false, false;
    }

    // Recorder ------------------------------------------------------------------------------

    /** The servo and buffer part of echo_state_handle_input. */
    method MoveAndRecord(b: Press, bus: Bus)
      requires Valid() && Fates(bus)
      modifies buffer.data, servo.pos, servo.regs, buffer`inp, buffer`out
      ensures Valid() && View() == Happens(old(View()), Pressed(b))
      ensures TakesStep(old(View()).pose, b, View().pose)
      ensures View().rec != [] && View().rec[|View().rec| - 1] == Move(if b.pan then 0 else 1, if b.pan then View().pose.pan else View().pose.tilt, b.delay)
    {
      PressedExactly(View(), b);
      var id := if b.pan then PAN else TILT;
      var current := servo.GetAngle(id);
      var tmp: int := current + if b.right then ANGLE_STEP else -ANGLE_STEP;
      if tmp < 0 { tmp := 0; }
      if tmp > ANGLE_MAX { tmp := ANGLE_MAX; }
      assert tmp == Stepped(AngleOf(old(View()).pose, ServoOf(b.pan)), DeltaOf(b.right));
      var ret := servo.SetAngle(id, tmp, bus.first, bus.second);
      buffer.Record(Move(id, tmp, b.delay));
    }

    /** echo_state_handle_input, called with what the joystick passes on. `entered` and `now` are
        the two clock readings. Input is ignored during a replay; from IDLE it enters TEACH,
        restarts the clock and keeps the old recording. */
    method HandleInput(pan: bool, right: bool, entered: nat, now: nat, bus: Bus)
      requires Valid() && Fates(bus) && lastMove <= entered <= now
      modifies this, buffer.data, servo.pos, servo.regs, buffer`inp, buffer`out
      ensures Valid()
      ensures old(mode) == Replay ==>
        View() == old(View()) && mode == Replay && total == old(total) && lastMove == old(lastMove)
        && armed == old(armed) && newData == old(newData)
      ensures finished == old(finished)
      ensures old(mode) != Replay ==>
        mode == Teach && total == old(total) + 1 && lastMove == now && armed && newData
      ensures old(mode) != Replay ==>
        View() == Happens(old(View()),
                          Pressed(Press(pan, right,
                                        Timing.DelayMs(now - (if old(mode) == Idle then entered else old(lastMove))))))
    {
      if mode == Replay { return; }
      if mode == Idle {
        mode := Teach;
        lastMove := entered;
      }
      var delay := Timing.DelayMs(now - lastMove);
      lastMove := now;
      MoveAndRecord(Press(pan, right, delay), bus);
      total := total + 1;
      armed := true;
      newData := true;
    }

    /** A lesson: presses handled one after the other. `ts` holds the time it begins, that is the last
        press before it, the explicit TEACH or the press that enters TEACH, and then the clock reading
        of each press; `entered` holds their earlier readings. */
    method HandleAll(pans: seq<bool>, rights: seq<bool>, entered: seq<nat>, ts: seq<nat>, bus: seq<Bus>)
      requires Valid() && mode != Replay && Timing.Clock(ts)
      requires |pans| == |rights| == |entered| == |bus| == |ts| - 1
      requires forall k :: 0 <= k < |bus| ==> Fates(bus[k])
      requires forall k :: 0 <= k < |entered| ==> ts[k] <= entered[k] <= ts[k + 1]
      requires if mode == Teach then lastMove == ts[0] else lastMove <= ts[0] && (entered != [] ==> entered[0] == ts[0])
      modifies this, buffer.data, servo.pos, servo.regs, buffer`inp, buffer`out
      ensures Valid() && (|ts| > 1 ==> mode == Teach && armed) && total == old(total) + |ts| - 1
      ensures View() == Run(old(View()), Presses(pans, rights, Timing.Delays(ts)))
    {
      ghost var was, es := View(), Presses(pans, rights, Timing.Delays(ts));
      for k := 0 to |pans|
        invariant Valid() && mode != Replay && total == old(total) + k
        invariant k > 0 ==> mode == Teach && armed && lastMove == ts[k]
        invariant k == 0 ==> mode == old(mode) && lastMove == old(lastMove)
        invariant View() == Run(was, es[..k])
      {
        OneMorePress(was, pans, rights, ts, k);
        ghost var before, from := View(), if mode == Idle then entered[k] else lastMove;
        assert from == ts[k] <= entered[k] <= ts[k + 1];
        HandleInput(pans[k], rights[k], entered[k], ts[k + 1], bus[k]);
        assert View() == Happens(before, Pressed(Press(pans[k], rights[k], Timing.DelayMs(ts[k + 1] - from))));
      }
      assert es[..|pans|] == es;
    }

    /** What it leaves of the recorded delays: the newest 256 of the old ones and the measured gaps. */
    method Lesson(pans: seq<bool>, rights: seq<bool>, entered: seq<nat>, ts: seq<nat>, bus: seq<Bus>)
      requires Valid() && mode != Replay && Timing.Clock(ts)
      requires |pans| == |rights| == |entered| == |bus| == |ts| - 1
      requires forall k :: 0 <= k < |bus| ==> Fates(bus[k])
      requires forall k :: 0 <= k < |entered| ==> ts[k] <= entered[k] <= ts[k + 1]
      requires if mode == Teach then lastMove == ts[0] else lastMove <= ts[0] && (entered != [] ==> entered[0] == ts[0])
      modifies this, buffer.data, servo.pos, servo.regs, buffer`inp, buffer`out
      ensures Valid() && (|ts| > 1 ==> mode == Teach && armed) && total == old(total) + |ts| - 1
      ensures View() == Run(old(View()), Presses(pans, rights, Timing.Delays(ts)))
      ensures DelaysOf(View().rec) == Newest(DelaysOf(old(View()).rec) + Timing.Delays(ts))
    {
      PressesDelays(View(), pans, rights, Timing.Delays(ts));
      HandleAll(pans, rights, entered, ts, bus);
    }

    /** The TEACH part of echo_state_set_mode */
    method SetTeach(now: nat)
      requires Valid()
      modifies this, buffer`inp, buffer`out
      ensures Valid() && View() == Happens(old(View()), TeachCall) == Session(old(View()).pose, [])
      ensures mode == Teach && total == 0 && lastMove == now && armed && newData
    {
      mode := Teach;
      lastMove := now;
      buffer.Clear();
      total := 0;
      armed := true;
      newData := true;
    }

    // Replayer ------------------------------------------------------------------------------

    /** buf_op_replay_done */
    method ReplayDone()
      modifies this`mode, this`finished, this`newData
      ensures mode == Idle && finished && newData
    {
      mode := Idle;
      finished := true;
      newData := true;
    }

    /** The playback loop. `stop` says what should_stop answers before each move, `speeds` what the
        replay speed is then. It plays the moves up to the first stop, in order, and sleeps for
        their delays. */
    method Play(moves: array<Move>, count: nat, stop: seq<bool>, speeds: seq<nat>, bus: seq<Bus>)
      returns (played: nat, slept: nat)
      requires Valid() && moves.Length == FIFO_SIZE && moves != buffer.data && count <= FIFO_SIZE
      requires |stop| == |speeds| == |bus| == FIFO_SIZE && forall k :: 0 <= k < FIFO_SIZE ==> Fates(bus[k])
      modifies this`newData, servo.pos, servo.regs
      ensures Valid() && played <= count
      ensures (forall k :: 0 <= k < played ==> !stop[k]) && (played < count ==> stop[played])
      ensures View().pose == PlayAll(old(View()).pose, moves[..played])
      ensures slept == Timing.Slept(DelaysOf(moves[..played]), speeds[..played])
      ensures newData == (old(newData) || played > 0)
    {
      played, slept := 0, 0;
      ghost var ms, start := moves[..], View().pose;
      while played < count
        invariant Valid() && played <= count && moves[..] == ms
        invariant forall k :: 0 <= k < played ==> !stop[k]
        invariant View().pose == PlayAll(start, ms[..played])
        invariant slept == Timing.Slept(DelaysOf(ms[..played]), speeds[..played])
        invariant newData == (old(newData) || played > 0)
      {
        if stop[played] { break; }
        OneMorePlayed(start, ms, speeds, played);
        var m := moves[played];
        var delay := m.delay;
        if speeds[played] > 0 { delay := delay / speeds[played]; }
        if delay < Timing.MIN_SLEEP { delay := Timing.MIN_SLEEP; }
        assert delay == Timing.SleepMs(m.delay, speeds[played]);
        slept := slept + delay;
        var ret := servo.SetAngle(m.servo, m.angle, bus[played].first, bus[played].second);
        newData := true;
        played := played + 1;
      }
      assert moves[..played] == ms[..played];
    }

    /** replay_worker. Without memory it only signals completion; otherwise it counts the run and
        plays a copy of the recording, which stays as it is. */
    method ReplayWorker(memory: bool, stop: seq<bool>, speeds: seq<nat>, bus: seq<Bus>)
      returns (played: nat, slept: nat)
      requires Valid()
      requires |stop| == |speeds| == |bus| == FIFO_SIZE && forall k :: 0 <= k < FIFO_SIZE ==> Fates(bus[k])
      modifies this`mode, this`finished, this`newData
      modifies buffer`inp, buffer`out, buffer`replays, buffer.data, servo.pos, servo.regs
      ensures Valid() && mode == Idle && finished && newData
      ensures View().rec == old(View()).rec && played <= |View().rec|
      ensures !memory ==> played == 0 && slept == 0 && buffer.replays == old(buffer.replays)
      ensures memory ==> buffer.replays == old(buffer.replays) + 1
      ensures memory && played < |View().rec| ==> stop[played]
      ensures forall k :: 0 <= k < played ==> !stop[k]
      ensures View().pose == PlayAll(old(View()).pose, View().rec[..played])
      ensures slept == Timing.Slept(DelaysOf(View().rec[..played]), speeds[..played])
      ensures memory ==> View() == Happens(old(View()), Stopped(played))
      ensures memory && (forall k :: 0 <= k < |View().rec| ==> !stop[k]) ==>
        View() == Happens(old(View()), Replayed) && slept == Timing.Slept(DelaysOf(View().rec), speeds[..|View().rec|])
    {
      if !memory {
        ReplayDone();
        return 0, 0;
      }
      var moves := new Move[FIFO_SIZE](_ => Move(0, 0, 0));
      var count := buffer.Snapshot(moves);
      buffer.replays := buffer.replays + 1;
      ghost var rec := View().rec;
      assert moves[..count] == rec;
      played, slept := Play(moves, count, stop, speeds, bus);
      assert View().rec == rec && moves[..played] == rec[..played];
      assert played == |rec| ==> rec[..played] == rec;
      ReplayDone();
    }

    /** An uninterrupted replay at the speed that is set. */
    method ReplayAll(bus: seq<Bus>) returns (slept: nat)
      requires Valid() && |bus| == FIFO_SIZE && forall k :: 0 <= k < FIFO_SIZE ==> Fates(bus[k])
      modifies this`mode, this`finished, this`newData
      modifies buffer`inp, buffer`out, buffer`replays, buffer.data, servo.pos, servo.regs
      ensures Valid() && View() == Happens(old(View()), Replayed)
      ensures slept == Timing.Slept(DelaysOf(old(View()).rec), Timing.Constant(|old(View()).rec|, buffer.speed))
    {
      ghost var rec := View().rec;
      assert Timing.Constant(FIFO_SIZE, buffer.speed)[..|rec|] == Timing.Constant(|rec|, buffer.speed);
      var played;
      played, slept := ReplayWorker(true, NeverStop(), Timing.Constant(FIFO_SIZE, buffer.speed), bus);
    }

    /** A lesson from an empty recording and an uninterrupted replay of it at the speed that is set: the
        requested sleeps keep the time of the surviving presses. */
    method TeachAndReplay(pans: seq<bool>, rights: seq<bool>, entered: seq<nat>, ts: seq<nat>,
                          taught: seq<Bus>, replayed: seq<Bus>)
      returns (slept: nat)
      requires Valid() && mode != Replay && Timing.Clock(ts) && View().rec == []
      requires |pans| == |rights| == |entered| == |taught| == |ts| - 1 && |replayed| == FIFO_SIZE
      requires (forall k :: 0 <= k < |taught| ==> Fates(taught[k])) && (forall k :: 0 <= k < FIFO_SIZE ==> Fates(replayed[k]))
      requires forall k :: 0 <= k < |entered| ==> ts[k] <= entered[k] <= ts[k + 1]
      requires if mode == Teach then lastMove == ts[0] else lastMove <= ts[0] && (entered != [] ==> entered[0] == ts[0])
      modifies this, buffer.data, servo.pos, servo.regs, buffer`inp, buffer`out, buffer`replays
      ensures Valid() && buffer.speed == old(buffer.speed) && slept == Timing.ReplayMs(ts, buffer.speed)
      ensures Timing.ShortGaps(ts) && |ts| > 1 ==> Timing.Keeps(Timing.Survivors(ts), slept, buffer.speed)
      ensures Timing.ShortGaps(ts) && |ts| > 1 && buffer.speed == 1 ==> Timing.KeepsAtOne(Timing.Survivors(ts), slept)
    {
      Lesson(pans, rights, entered, ts, taught);
      ghost var ds := DelaysOf(View().rec);
      assert DelaysOf([]) + Timing.Delays(ts) == Timing.Delays(ts);
      Timing.ReplaySleeps(ts, buffer.speed, ds, Timing.Constant(|ds|, buffer.speed));
      slept := ReplayAll(replayed);
    }

    // Stop, RESET, MOVE -----------------------------------------------------------------------

    /** echo_state_stop, with no worker running */
    method Stop()
      modifies this`mode, this`armed, this`finished, this`newData
      ensures mode == Idle && !armed && finished && newData
    {
      mode := Idle;
      armed := false;
      finished := true;
      newData := true;
    }

    /** The servo calls of ioctl RESET */
    method Centre(bus: seq<Bus>)
      requires Valid() && |bus| == NUM_SERVOS && forall k :: 0 <= k < NUM_SERVOS ==> Fates(bus[k])
      modifies servo.pos, servo.regs
      ensures Valid() && View() == Session(Pose(90, 90, 90), old(View()).rec)
    {
      var ret := servo.SetAngle(PAN, CENTER, bus[0].first, bus[0].second);
      ret := servo.SetAngle(TILT, CENTER, bus[1].first, bus[1].second);
      ret := servo.SetAngle(TILT2, CENTER, bus[2].first, bus[2].second);
    }

    /** ioctl RESET */
    method Reset(bus: seq<Bus>)
      requires Valid() && |bus| == NUM_SERVOS && forall k :: 0 <= k < NUM_SERVOS ==> Fates(bus[k])
      modifies this, buffer`inp, buffer`out, servo.pos, servo.regs
      ensures Valid() && View() == Happens(old(View()), ResetCall) == Session(Pose(90, 90, 90), [])
      ensures mode == Idle && !armed && finished && newData && total == old(total)
    {
      Stop();
      buffer.Clear();
      Centre(bus);
      newData := true;
    }

    /** write(MOVE): the fields are cut to 8 and 16 bits before anything looks at them. Readers are
        told only if the servo call succeeds. */
    method WriteMove(id: nat, angle: nat, bus: Bus) returns (ret: Servo.Ret)
      requires Valid() && id < U32 && angle < U32 && Fates(bus)
      modifies this`newData, servo.pos, servo.regs
      ensures Valid() && View() == Happens(old(View()), MoveCall(id, angle))
      ensures newData == (old(newData) || ret == Servo.Ok)
      ensures View().rec == old(View()).rec
      ensures var i, a: nat, p := id % 256, (if angle % 65536 > 180 then 180 else angle % 65536), old(View()).pose;
              View().pose == if i == 0 then Pose(a, p.tilt, a) else if i == 1 then Pose(p.pan, a, p.tilt2)
                             else if i == 2 then Pose(p.pan, p.tilt, a) else p
      ensures ret == if id % 256 > 2 then Servo.InvalidId
                     else if servo.sim || (bus.first.acked == 4 && (id % 256 == 0 ==> bus.second.acked == 4)) then Servo.Ok
                     else Servo.BusError
    {
      MovedExactly(View(), id, angle);
      ret := servo.SetAngle(id % U8, angle % U16, bus.first, bus.second);
      if ret != Servo.Ok { return; }
      newData := true;
    }

    /** ioctl SET_SPEED; None stands for -EINVAL. */
    method SetSpeed(speed: nat) returns (r: Option<()>)
      requires Valid() && speed < U16
      modifies buffer`speed
      ensures Valid() && View() == old(View())
      ensures r.None? == (speed == 0) && buffer.speed == if speed == 0 then old(buffer.speed) else speed
    {
      if speed == 0 { return None; }
      buffer.SetReplaySpeed(speed);
      r := Some(());
    }
  }
}
