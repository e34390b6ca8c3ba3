/**
  What each call does to the driver when nobody interrupts it, in the terms of the state's own
  fields: from every state in which it can go on, and with everything it leaves as it was.
 */
module Calls {
  import opened EchoTypes
  import opened Machine

  /** What a call is given: the delay its clock measures, and whether the servo bus works. */
  datatype Given = Given(delay: nat, bus: bool)

  /** queue_work sets a bit that is not set. */
  function Luck(s: State, pc: PC, g: Given): bool {
    if pc.Starting? && pc.start.StartQueue? then !s.pending else g.bus
  }

  predicate CanGoOn(s: State, t: Tid, g: Given) {
    ActEnabled(s, At(s, t), g.delay, Luck(s, At(s, t), g))
  }

  function GoesOn(s: State, t: Tid, g: Given): State
    requires CanGoOn(s, t, g)
  {
    var (s', pc) := Act(s, At(s, t), g.delay, Luck(s, At(s, t), g));
    Goto(s', t, pc)
  }

  /** The state after the thread `t` alone has taken up to `n` steps. */
  function After(s: State, t: Tid, g: Given, n: nat): State
    decreases n
  {
    if n == 0 || !CanGoOn(s, t, g) then s else After(GoesOn(s, t, g), t, g, n - 1)
  }

  /** The state after a call that comes in and runs alone for up to `n` steps. */
  function Called(s: State, t: Tid, call: Call, g: Given, n: nat): State {
    After(Goto(s, t, EntryPoint(call)), t, g, n)
  }

  /** It is a run of the step machine. */
  lemma {:induction false} AfterIsRun(sched: Schedule, s: State, t: Tid, g: Given, n: nat) returns (steps: seq<Step>)
    ensures Exec(sched, s, steps) == Some(After(s, t, g, n))
    ensures forall k :: 0 <= k < |steps| ==> steps[k].Advance?
    decreases n
  {
    if n == 0 || !CanGoOn(s, t, g) {
      steps := [];
    } else {
      var step := Advance(t, g.delay, Luck(s, At(s, t), g));
      var rest := AfterIsRun(sched, Next(sched, s, step), t, g, n - 1);
      steps := [step] + rest;
      assert steps[1..] == rest;
    }
  }

  /** Alone, `t` takes the driver from `s` to `e` and itself from `pc` to `pc'` in one step. */
  predicate Does(s: State, t: Tid, pc: PC, g: Given, e: State, pc': PC) {
    var at := Goto(s, t, pc);
    ActEnabled(at, pc, g.delay, Luck(at, pc, g)) && Act(at, pc, g.delay, Luck(at, pc, g)) == (Goto(e, t, pc), pc')
  }

  /** Alone, `t` goes from `pc` to `pc'` in `k` steps and takes the rest of the driver from `s` to `e`. */
  ghost predicate Leads(s: State, t: Tid, pc: PC, g: Given, k: nat, e: State, pc': PC) {
    forall n :: n >= k ==> After(Goto(s, t, pc), t, g, n) == After(Goto(e, t, pc'), t, g, n - k)
  }

  lemma One(s: State, t: Tid, pc: PC, g: Given, e: State, pc': PC)
    requires Does(s, t, pc, g, e, pc')
    ensures Leads(s, t, pc, g, 1, e, pc')
  {
    assert e.threads[t := pc][t := pc'] == e.threads[t := pc'];
  }

  lemma Join(s: State, t: Tid, pc: PC, g: Given, k: nat, s': State, pc': PC, k': nat, e: State, pc'': PC)
    requires Leads(s, t, pc, g, k, s', pc') && Leads(s', t, pc', g, k', e, pc'')
    ensures Leads(s, t, pc, g, k + k', e, pc'')
  {
    forall n | n >= k + k' ensures After(Goto(s, t, pc), t, g, n) == After(Goto(e, t, pc''), t, g, n - (k + k')) {
      assert After(Goto(s, t, pc), t, g, n) == After(Goto(s', t, pc'), t, g, n - k);
      assert (n - k) - k' == n - (k + k');
    }
  }

  /** One more step. */
  lemma Then(s: State, t: Tid, pc: PC, g: Given, k: nat, s': State, pc': PC, e: State, pc'': PC)
    requires Leads(s, t, pc, g, k, s', pc') && Does(s', t, pc', g, e, pc'')
    ensures Leads(s, t, pc, g, k + 1, e, pc'')
  {
    One(s', t, pc', g, e, pc'');
    Join(s, t, pc, g, k, s', pc', 1, e, pc'');
  }

  predicate Rests(s: State, pc: PC) {
    pc.Outside? || (pc.Asleep? && !s.finished) || (pc == Reading(ReadWait) && !s.newData)
  }

  lemma Stops(s: State, t: Tid, pc: PC, g: Given, k: nat, e: State, pc': PC, n: nat)
    requires Leads(s, t, pc, g, k, e, pc') && Rests(e, pc') && n >= k
    ensures After(Goto(s, t, pc), t, g, n) == Goto(e, t, pc')
  {
  }

  // Joystick input ------------------------------------------------------------------------

  lemma PressEnters(s: State, t: Tid, servo: nat, delta: int, g: Given)
    requires s.mode != Replay
    ensures Leads(s, t, Inputting(InputMode(servo, delta)), g, 1, s.(mode := Teach), Inputting(InputGet(servo, delta)))
  {
    One(s, t, Inputting(InputMode(servo, delta)), g, s.(mode := Teach), Inputting(InputGet(servo, delta)));
  }

  lemma PressGets(s: State, t: Tid, servo: nat, delta: int, g: Given)
    ensures Leads(s, t, Inputting(InputGet(servo, delta)), g, 1, s, Inputting(InputMove(servo, Stepped(AngleOf(s.pose, servo), delta))))
  {
    One(s, t, Inputting(InputGet(servo, delta)), g, s, Inputting(InputMove(servo, Stepped(AngleOf(s.pose, servo), delta))));
  }

  /** One joystick press works out where its servo is to go: one step of 5 degrees, but not below 0
      and not above 180. */
  lemma PressAims(s: State, t: Tid, right: bool, pan: bool, g: Given) returns (to: nat)
    requires s.mode != Replay
    ensures var was: int, step := if pan then s.pose.pan else s.pose.tilt, if right then 5 else -5;
            to == if was + step < 0 then 0 else if was + step > 180 then 180 else was + step
    ensures Leads(s, t, EntryPoint(Input(right, pan)), g, 2, s.(mode := Teach), Inputting(InputMove(if pan then 0 else 1, to)))
  {
    var servo, delta := ServoOf(pan), DeltaOf(right);
    to := Stepped(AngleOf(s.pose, servo), delta);
    PressEnters(s, t, servo, delta, g);
    PressGets(s.(mode := Teach), t, servo, delta, g);
    Join(s, t, Inputting(InputMode(servo, delta)), g, 1, s.(mode := Teach), Inputting(InputGet(servo, delta)),
         1, s.(mode := Teach), Inputting(InputMove(servo, to)));
  }

  function Moved(s: State, servo: nat, to: nat, delay: nat): State {
    s.(pose := SetServo(s.pose, servo, to), fifo := Push(s.fifo, Move(servo, to, delay)))
  }

  lemma MovedIs(s: State, pan: bool, to: nat, delay: nat)
    requires to <= 180
    ensures Moved(s, if pan then 0 else 1, to, delay) == s.(
              pose := if pan then Pose(to, s.pose.tilt, to) else Pose(s.pose.pan, to, s.pose.tilt2),
              fifo := (if |s.fifo| >= 256 then s.fifo[|s.fifo| - 255..] else s.fifo) + [Move(if pan then 0 else 1, to, delay)])
  {
  }

  lemma PressRecords(s: State, t: Tid, servo: nat, to: nat, g: Given)
    requires !FifoLocked(s.worker) && g.delay < 0x1_0000_0000
    ensures Leads(s, t, Inputting(InputMove(servo, to)), g, 2, Moved(s, servo, to, g.delay), Inputting(InputTotal))
  {
    var e := s.(pose := SetServo(s.pose, servo, to));
    One(s, t, Inputting(InputMove(servo, to)), g, e, Inputting(InputRecord(servo, to)));
    Then(s, t, Inputting(InputMove(servo, to)), g, 1, e, Inputting(InputRecord(servo, to)),
         Moved(s, servo, to, g.delay), Inputting(InputTotal));
  }

  lemma PressEnds(s: State, t: Tid, g: Given)
    ensures Leads(s, t, Inputting(InputTotal), g, 3, s.(total := s.total + 1, armed := true, newData := true), Outside)
  {
    var a := s.(total := s.total + 1);
    var b := a.(armed := true);
    One(s, t, Inputting(InputTotal), g, a, Inputting(InputTimer));
    Then(s, t, Inputting(InputTotal), g, 1, a, Inputting(InputTimer), b, Inputting(InputNotify));
    Then(s, t, Inputting(InputTotal), g, 2, b, Inputting(InputNotify), b.(newData := true), Outside);
  }

  /** The rest of a press: it moves the servo, records and counts the move, arms the timer and tells
      the readers. */
  lemma PressGoesOn(s: State, t: Tid, servo: nat, to: nat, g: Given)
    requires !FifoLocked(s.worker) && g.delay < 0x1_0000_0000
    ensures Leads(s, t, Inputting(InputMove(servo, to)), g, 5,
                  Moved(s, servo, to, g.delay).(total := s.total + 1, armed := true, newData := true), Outside)
  {
    var m := Moved(s, servo, to, g.delay);
    PressRecords(s, t, servo, to, g);
    PressEnds(m, t, g);
    Join(s, t, Inputting(InputMove(servo, to)), g, 2, m, Inputting(InputTotal), 3,
         m.(total := s.total + 1, armed := true, newData := true), Outside);
  }

  lemma PressLeads(s: State, t: Tid, right: bool, pan: bool, g: Given) returns (to: nat)
    requires s.mode != Replay && !FifoLocked(s.worker) && g.delay < 0x1_0000_0000
    ensures var was: int, step := if pan then s.pose.pan else s.pose.tilt, if right then 5 else -5;
            to == if was + step < 0 then 0 else if was + step > 180 then 180 else was + step
    ensures Leads(s, t, EntryPoint(Input(right, pan)), g, 7,
                  Moved(s.(mode := Teach), if pan then 0 else 1, to, g.delay).(total := s.total + 1, armed := true, newData := true), Outside)
  {
    to := PressAims(s, t, right, pan, g);
    var a, servo: nat := s.(mode := Teach), if pan then 0 else 1;
    PressGoesOn(a, t, servo, to, g);
    Join(s, t, EntryPoint(Input(right, pan)), g, 2, a, Inputting(InputMove(servo, to)),
         5, Moved(a, servo, to, g.delay).(total := s.total + 1, armed := true, newData := true), Outside);
  }

  /** A whole press outside REPLAY. PAN takes TILT2 with it; the move is recorded behind the others, a
      full recording losing its oldest; it is counted, the timer armed, the readers told. */
  lemma PressDoes(s: State, t: Tid, right: bool, pan: bool, g: Given, n: nat) returns (to: nat)
    requires s.mode != Replay && !FifoLocked(s.worker) && g.delay < 0x1_0000_0000 && n >= 7
    ensures var was: int, step := if pan then s.pose.pan else s.pose.tilt, if right then 5 else -5;
            to == if was + step < 0 then 0 else if was + step > 180 then 180 else was + step
    ensures Called(s, t, Input(right, pan), g, n) == Goto(s.(
              mode := Teach,
              pose := if pan then Pose(to, s.pose.tilt, to) else Pose(s.pose.pan, to, s.pose.tilt2),
              fifo := (if |s.fifo| >= 256 then s.fifo[|s.fifo| - 255..] else s.fifo) + [Move(if pan then 0 else 1, to, g.delay)],
              total := s.total + 1, armed := true, newData := true), t, Outside)
  {
    to := PressLeads(s, t, right, pan, g);
    var a := s.(mode := Teach);
    var e := Moved(a, if pan then 0 else 1, to, g.delay).(total := s.total + 1, armed := true, newData := true);
    MovedIs(a, pan, to, g.delay);
    Stops(s, t, EntryPoint(Input(right, pan)), g, 7, e, Outside, n);
  }

  /** During a replay a press does nothing. */
  lemma PressRefused(s: State, t: Tid, right: bool, pan: bool, g: Given, n: nat)
    requires s.mode == Replay && n > 0
    ensures Called(s, t, Input(right, pan), g, n) == Goto(s, t, Outside)
  {
    One(s, t, EntryPoint(Input(right, pan)), g, s, Outside);
    Stops(s, t, EntryPoint(Input(right, pan)), g, 1, s, Outside, n);
  }

  // Explicit TEACH ------------------------------------------------------------------------

  lemma TeachClears(s: State, t: Tid, g: Given)
    requires !FifoLocked(s.worker)
    ensures Leads(s, t, Teaching(TeachMode), g, 3, s.(mode := Teach, fifo := [], total := 0, h := s.h.(clean := true)), Teaching(TeachTimer))
  {
    var a := s.(mode := Teach);
    var b := a.(fifo := []);
    One(s, t, Teaching(TeachMode), g, a, Teaching(TeachClear));
    Then(s, t, Teaching(TeachMode), g, 1, a, Teaching(TeachClear), b, Teaching(TeachTotal));
    Then(s, t, Teaching(TeachMode), g, 2, b, Teaching(TeachTotal), b.(total := 0, h := s.h.(clean := true)), Teaching(TeachTimer));
  }

  /** From every mode: TEACH, with an empty recording, a reset counter and the timer armed; the robot
      stays where it is. */
  lemma TeachDoes(s: State, t: Tid, g: Given, n: nat)
    requires !FifoLocked(s.worker) && n >= 5
    ensures var e := Called(s, t, SetTeach, g, n);
            e == Goto(s.(mode := Teach, fifo := [], total := 0, armed := true, newData := true, h := e.h), t, Outside)
  {
    TeachClears(s, t, g);
    var a := s.(mode := Teach, fifo := [], total := 0, h := s.h.(clean := true));
    var b := a.(armed := true);
    Then(s, t, Teaching(TeachMode), g, 3, a, Teaching(TeachTimer), b, Teaching(TeachNotify));
    Then(s, t, Teaching(TeachMode), g, 4, b, Teaching(TeachNotify), b.(newData := true), Outside);
    Stops(s, t, Teaching(TeachMode), g, 5, b.(newData := true), Outside, n);
  }

  // Stop and RESET ------------------------------------------------------------------------

  function Cancelled(s: State): State {
    s.(armed := false, pending := false, h := s.h.(cancelled := s.h.cancelled + (if s.pending then 1 else 0), quiet := true))
  }

  /** The pending work is taken away and counted. */
  function Taken(s: State): State {
    s.(pending := false, h := s.h.(cancelled := s.h.cancelled + (if s.pending then 1 else 0)))
  }

  lemma StopTakes(s: State, t: Tid, reset: bool, g: Given)
    ensures Leads(s, t, Stopping(CancelPending, reset), g, 1, Taken(s), Stopping(CancelWait(s.h.begun), reset))
  {
    One(s, t, Stopping(CancelPending, reset), g, Taken(s), Stopping(CancelWait(s.h.begun), reset));
  }

  lemma StopWaits(s: State, t: Tid, reset: bool, g: Given)
    requires s.worker.Resting?
    ensures Leads(s, t, Stopping(CancelWait(s.h.begun), reset), g, 1, s.(h := s.h.(quiet := true)), Stopping(StopSignal, reset))
  {
    One(s, t, Stopping(CancelWait(s.h.begun), reset), g, s.(h := s.h.(quiet := true)), Stopping(StopSignal, reset));
  }

  lemma StopTakesAndWaits(s: State, t: Tid, reset: bool, g: Given)
    requires s.worker.Resting?
    ensures Leads(s, t, Stopping(CancelPending, reset), g, 2, Taken(s).(h := Taken(s).h.(quiet := true)), Stopping(StopSignal, reset))
  {
    StopTakes(s, t, reset, g);
    StopWaits(Taken(s), t, reset, g);
    Join(s, t, Stopping(CancelPending, reset), g, 1, Taken(s), Stopping(CancelWait(s.h.begun), reset),
         1, Taken(s).(h := Taken(s).h.(quiet := true)), Stopping(StopSignal, reset));
  }

  lemma StopDisarms(s: State, t: Tid, reset: bool, g: Given)
    requires s.timer.Quiet?
    ensures Leads(s, t, Stopping(StopTimer, reset), g, 1, s.(armed := false), Stopping(CancelPending, reset))
  {
    One(s, t, Stopping(StopTimer, reset), g, s.(armed := false), Stopping(CancelPending, reset));
  }

  lemma StopCancels(s: State, t: Tid, reset: bool, g: Given)
    requires s.timer.Quiet? && s.worker.Resting?
    ensures Leads(s, t, Stopping(StopTimer, reset), g, 3, Cancelled(s), Stopping(StopSignal, reset))
  {
    StopDisarms(s, t, reset, g);
    StopTakesAndWaits(s.(armed := false), t, reset, g);
    Join(s, t, Stopping(StopTimer, reset), g, 1, s.(armed := false), Stopping(CancelPending, reset),
         2, Cancelled(s), Stopping(StopSignal, reset));
  }

  lemma StopEnds(s: State, t: Tid, reset: bool, g: Given)
    ensures Leads(s, t, Stopping(StopSignal, reset), g, 3, s.(finished := true, newData := true, h := s.h.(answered := true)),
                  if reset then Resetting(ResetClear) else Outside)
  {
    var a := s.(finished := true, h := s.h.(answered := true));
    var b := a.(newData := true);
    One(s, t, Stopping(StopSignal, reset), g, a, Stopping(StopWake, reset));
    Then(s, t, Stopping(StopSignal, reset), g, 1, a, Stopping(StopWake, reset), b, Stopping(StopNotify, reset));
    Then(s, t, Stopping(StopSignal, reset), g, 2, b, Stopping(StopNotify, reset), b, if reset then Resetting(ResetClear) else Outside);
  }

  function Stopped(s: State): State {
    Cancelled(s).(finished := true, newData := true, h := Cancelled(s).h.(answered := true))
  }

  /** The rest of a stop that has written its mode: it keeps whatever mode it finds. */
  lemma StopGoesOn(s: State, t: Tid, reset: bool, g: Given)
    requires s.timer.Quiet? && s.worker.Resting?
    ensures Leads(s, t, Stopping(StopTimer, reset), g, 6, Stopped(s), if reset then Resetting(ResetClear) else Outside)
  {
    StopCancels(s, t, reset, g);
    StopEnds(Cancelled(s), t, reset, g);
    Join(s, t, Stopping(StopTimer, reset), g, 3, Cancelled(s), Stopping(StopSignal, reset), 3, Stopped(s),
         if reset then Resetting(ResetClear) else Outside);
  }

  lemma StopWrites(s: State, t: Tid, reset: bool, g: Given)
    requires s.timer.Quiet? && s.worker.Resting?
    ensures Leads(s, t, Stopping(StopMode, reset), g, 7, Stopped(s.(mode := Idle, h := s.h.(stopMoves := 0))),
                  if reset then Resetting(ResetClear) else Outside)
  {
    var a := s.(mode := Idle, h := s.h.(stopMoves := 0));
    One(s, t, Stopping(StopMode, reset), g, a, Stopping(StopTimer, reset));
    StopGoesOn(a, t, reset, g);
    Join(s, t, Stopping(StopMode, reset), g, 1, a, Stopping(StopTimer, reset), 6, Stopped(a),
         if reset then Resetting(ResetClear) else Outside);
  }

  /** A stop with no run and no callback under way: IDLE, no timer, no pending work, writers and
      readers told; recording, robot and counters as they were. */
  lemma StopDoes(s: State, t: Tid, g: Given, n: nat)
    requires s.timer.Quiet? && s.worker.Resting? && n >= 7
    ensures var e := Called(s, t, Stop, g, n);
            e == Goto(s.(mode := Idle, armed := false, pending := false, finished := true, newData := true, h := e.h), t, Outside)
    ensures Called(s, t, Stop, g, n).h.begun == s.h.begun
  {
    StopWrites(s, t, false, g);
    Stops(s, t, Stopping(StopMode, false), g, 7, Stopped(s.(mode := Idle, h := s.h.(stopMoves := 0))), Outside, n);
  }

  lemma ResetEmpties(s: State, t: Tid, g: Given)
    requires !FifoLocked(s.worker)
    ensures Leads(s, t, Resetting(ResetClear), g, 1, s.(fifo := [], h := s.h.(clean := false)), Resetting(ResetServo(0)))
  {
    One(s, t, Resetting(ResetClear), g, s.(fifo := [], h := s.h.(clean := false)), Resetting(ResetServo(0)));
  }

  lemma ResetClears(s: State, t: Tid, g: Given)
    requires !FifoLocked(s.worker)
    ensures Leads(s, t, Resetting(ResetClear), g, 2, s.(fifo := [], pose := Pose(90, s.pose.tilt, 90), h := s.h.(clean := false)),
                  Resetting(ResetServo(1)))
  {
    var a := s.(fifo := [], h := s.h.(clean := false));
    ResetEmpties(s, t, g);
    Then(s, t, Resetting(ResetClear), g, 1, a, Resetting(ResetServo(0)), a.(pose := Pose(90, s.pose.tilt, 90)), Resetting(ResetServo(1)));
  }

  lemma ResetEnds(s: State, t: Tid, g: Given)
    requires s.pose.pan == s.pose.tilt2 == 90
    ensures Leads(s, t, Resetting(ResetServo(1)), g, 3, s.(pose := Pose(90, 90, 90), newData := true), Outside)
  {
    var a := s.(pose := Pose(90, 90, 90));
    One(s, t, Resetting(ResetServo(1)), g, a, Resetting(ResetServo(2)));
    Then(s, t, Resetting(ResetServo(1)), g, 1, a, Resetting(ResetServo(2)), a, Resetting(ResetNotify));
    Then(s, t, Resetting(ResetServo(1)), g, 2, a, Resetting(ResetNotify), a.(newData := true), Outside);
  }

  lemma ResetGoesOn(s: State, t: Tid, g: Given)
    requires !FifoLocked(s.worker)
    ensures Leads(s, t, Resetting(ResetClear), g, 5,
                  s.(fifo := [], pose := Pose(90, 90, 90), newData := true, h := s.h.(clean := false)), Outside)
  {
    var a := s.(fifo := [], pose := Pose(90, s.pose.tilt, 90), h := s.h.(clean := false));
    ResetClears(s, t, g);
    ResetEnds(a, t, g);
    Join(s, t, Resetting(ResetClear), g, 2, a, Resetting(ResetServo(1)), 3, a.(pose := Pose(90, 90, 90), newData := true), Outside);
  }

  /** RESET: all that a stop does, and an empty recording and every servo at 90; the counters stay. */
  lemma ResetDoes(s: State, t: Tid, g: Given, n: nat)
    requires s.timer.Quiet? && s.worker.Resting? && n >= 12
    ensures var e := Called(s, t, Reset, g, n);
            e == Goto(s.(mode := Idle, armed := false, pending := false, finished := true, newData := true,
                         fifo := [], pose := Pose(90, 90, 90), h := e.h), t, Outside)
    ensures Called(s, t, Reset, g, n).h.begun == s.h.begun
  {
    var a := Stopped(s.(mode := Idle, h := s.h.(stopMoves := 0)));
    var b := a.(fifo := [], pose := Pose(90, 90, 90), newData := true, h := a.h.(clean := false));
    StopWrites(s, t, true, g);
    ResetGoesOn(a, t, g);
    Join(s, t, Stopping(StopMode, true), g, 7, a, Resetting(ResetClear), 5, b, Outside);
    Stops(s, t, Stopping(StopMode, true), g, 12, b, Outside, n);
  }

  // Direct MOVE ---------------------------------------------------------------------------

  /** What a direct MOVE does to the servos: an id past them changes nothing; otherwise the angle, cut
      to 180, goes to the servo, and PAN's to TILT2 too. */
  function MovedTo(p: Pose, id: nat, angle: nat): Pose {
    var i, a: nat := id % 256, if angle % 65536 > 180 then 180 else angle % 65536;
    if i == 0 then Pose(a, p.tilt, a) else if i == 1 then Pose(p.pan, a, p.tilt2)
    else if i == 2 then Pose(p.pan, p.tilt, a) else p
  }

  lemma MoveSets(s: State, t: Tid, id: nat, angle: nat, g: Given) returns (e: State)
    ensures e == s.(pose := MovedTo(s.pose, id, angle), h := e.h)
    ensures Leads(s, t, Moving(MoveSet(id, angle)), g, 1, e, if id % 256 <= 2 && g.bus then Moving(MoveNotify) else Outside)
  {
    var (a, pc) := ActMove(Goto(s, t, Moving(MoveSet(id, angle))), MoveSet(id, angle), g.bus);
    e := s.(pose := a.pose, h := a.h);
    One(s, t, Moving(MoveSet(id, angle)), g, e, pc);
  }

  /** The fields are cut to 8 and 16 bits. Readers are told unless the id is refused or the bus fails. */
  lemma MoveDoes(s: State, t: Tid, id: nat, angle: nat, g: Given, n: nat)
    requires n >= 2
    ensures var e := Called(s, t, DirectMove(id, angle), g, n);
            e == Goto(s.(pose := MovedTo(s.pose, id, angle), newData := s.newData || (id % 256 <= 2 && g.bus), h := e.h), t, Outside)
  {
    var a := MoveSets(s, t, id, angle, g);
    if id % 256 <= 2 && g.bus {
      Then(s, t, Moving(MoveSet(id, angle)), g, 1, a, Moving(MoveNotify), a.(newData := true), Outside);
      Stops(s, t, Moving(MoveSet(id, angle)), g, 2, a.(newData := true), Outside, n);
    } else {
      Stops(s, t, Moving(MoveSet(id, angle)), g, 1, a, Outside, n);
    }
  }

  // Starting a replay ---------------------------------------------------------------------

  function Started(s: State): State {
    s.(armed := false, pending := true, newData := true, h := Queued(s.h, !s.pending))
  }

  lemma StartQueues(s: State, t: Tid, w: bool, g: Given)
    requires s.timer.Quiet?
    ensures Leads(s, t, Starting(StartTimer, w), g, 2, s.(armed := false, pending := true, h := Queued(s.h, !s.pending)), Starting(StartNotify, w))
  {
    var a := s.(armed := false);
    One(s, t, Starting(StartTimer, w), g, a, Starting(StartQueue, w));
    Then(s, t, Starting(StartTimer, w), g, 1, a, Starting(StartQueue, w),
         a.(pending := true, h := Queued(s.h, !s.pending)), Starting(StartNotify, w));
  }

  lemma StartGoesOn(s: State, t: Tid, w: bool, g: Given)
    requires s.timer.Quiet?
    ensures Leads(s, t, Starting(StartTimer, w), g, 3, Started(s), if w then Asleep else Outside)
  {
    StartQueues(s, t, w, g);
    Then(s, t, Starting(StartTimer, w), g, 2, s.(armed := false, pending := true, h := Queued(s.h, !s.pending)), Starting(StartNotify, w),
         Started(s), if w then Asleep else Outside);
  }

  /** A writer puts the flag down before it looks at the mode. */
  lemma StartEnters(s: State, t: Tid, w: bool, g: Given)
    ensures Leads(s, t, EntryPoint(if w then WriteReplay else ModeReplay), g, if w then 1 else 0,
                  s.(finished := s.finished && !w), Starting(StartCheck, w))
  {
    if w { One(s, t, ClearFinished, g, s.(finished := false), Starting(StartCheck, true)); }
  }

  /** An accepted start: REPLAY, no timer, work pending, readers told. A writer has put the flag down
      and sleeps. */
  lemma StartDoes(s: State, t: Tid, w: bool, g: Given, n: nat)
    requires s.mode != Replay && s.timer.Quiet? && n >= 5
    ensures var e := Called(s, t, if w then WriteReplay else ModeReplay, g, n);
            e == Goto(s.(mode := Replay, armed := false, pending := true, newData := true, finished := s.finished && !w,
                         h := e.h), t, if w then Asleep else Outside)
    ensures Called(s, t, if w then WriteReplay else ModeReplay, g, n).h.begun == s.h.begun
  {
    var from, to, k: nat := EntryPoint(if w then WriteReplay else ModeReplay), if w then Asleep else Outside, if w then 1 else 0;
    var a := s.(finished := s.finished && !w);
    var b := a.(mode := Replay, h := Accepted(s.h));
    StartEnters(s, t, w, g);
    Then(s, t, from, g, k, a, Starting(StartCheck, w), b, Starting(StartTimer, w));
    StartGoesOn(b, t, w, g);
    Join(s, t, from, g, k + 1, b, Starting(StartTimer, w), 3, Started(b), to);
    Stops(s, t, from, g, k + 4, Started(b), to, n);
  }

  /** In REPLAY a start is refused and changes nothing, but a writer has put the flag down. */
  lemma StartRefused(s: State, t: Tid, w: bool, g: Given, n: nat)
    requires s.mode == Replay && n >= 2
    ensures Called(s, t, if w then WriteReplay else ModeReplay, g, n) == Goto(s.(finished := s.finished && !w), t, Outside)
  {
    var from, k: nat := EntryPoint(if w then WriteReplay else ModeReplay), if w then 1 else 0;
    var a := s.(finished := s.finished && !w);
    StartEnters(s, t, w, g);
    Then(s, t, from, g, k, a, Starting(StartCheck, w), a, Outside);
    Stops(s, t, from, g, k + 1, a, Outside, n);
  }

  // Reading -------------------------------------------------------------------------------

  /** A read with the flag down: refused if it must not block, asleep otherwise. */
  lemma ReadRefused(s: State, t: Tid, nonblock: bool, g: Given, n: nat)
    requires !s.newData && n > 0
    ensures Called(s, t, Read(nonblock), g, n) == Goto(s, t, if nonblock then Outside else Reading(ReadWait))
  {
    if nonblock {
      One(s, t, Reading(ReadTest), g, s, Outside);
      Stops(s, t, Reading(ReadTest), g, 1, s, Outside, n);
    } else {
      Stops(s, t, Reading(ReadWait), g, 0, s, Reading(ReadWait), n);
    }
  }

  lemma ReadField1(s: State, t: Tid, k: nat, snap: Snapshot, gen: nat, g: Given)
    requires k < 7
    ensures Leads(s, t, Reading(ReadField(k, snap, gen)), g, 1, s, Reading(ReadField(k + 1, ReadOne(snap, k, Observe(s)), gen)))
  {
    assert Observe(Goto(s, t, Reading(ReadField(k, snap, gen)))) == Observe(s);
    One(s, t, Reading(ReadField(k, snap, gen)), g, s, Reading(ReadField(k + 1, ReadOne(snap, k, Observe(s)), gen)));
  }

  lemma {:induction false} ReadFields(s: State, t: Tid, k: nat, snap: Snapshot, gen: nat, g: Given) returns (full: Snapshot)
    requires k <= 7
    ensures Leads(s, t, Reading(ReadField(k, snap, gen)), g, 7 - k, s, Reading(ReadField(7, full, gen)))
    ensures full == Snapshot(if k <= 0 then s.mode else snap.mode, if k <= 1 then s.pose.pan else snap.pan,
                             if k <= 2 then s.pose.tilt else snap.tilt, if k <= 3 then s.pose.tilt2 else snap.tilt2,
                             if k <= 4 then |s.fifo| else snap.count, if k <= 5 then s.total else snap.moves,
                             if k <= 6 then s.replays else snap.replays)
    decreases 7 - k
  {
    if k == 7 {
      full := snap;
    } else {
      var more := ReadOne(snap, k, Observe(s));
      ReadField1(s, t, k, snap, gen, g);
      full := ReadFields(s, t, k + 1, more, gen, g);
      Join(s, t, Reading(ReadField(k, snap, gen)), g, 1, s, Reading(ReadField(k + 1, more, gen)), 6 - k,
           s, Reading(ReadField(7, full, gen)));
    }
  }

  function Cleared(s: State): State {
    s.(newData := false, h := s.h.(clears := s.h.clears + 1, last := None, silent := false))
  }

  lemma ReadClears(s: State, t: Tid, nonblock: bool, g: Given)
    requires s.newData
    ensures Leads(s, t, EntryPoint(Read(nonblock)), g, if nonblock then 3 else 2,
                  Cleared(s), Reading(ReadField(0, BLANK, s.h.clears + 1)))
  {
    One(s, t, Reading(ReadWait), g, s, Reading(ReadClear));
    Then(s, t, Reading(ReadWait), g, 1, s, Reading(ReadClear), Cleared(s), Reading(ReadField(0, BLANK, s.h.clears + 1)));
    if nonblock {
      One(s, t, Reading(ReadTest), g, s, Reading(ReadWait));
      Join(s, t, Reading(ReadTest), g, 1, s, Reading(ReadWait), 2, Cleared(s), Reading(ReadField(0, BLANK, s.h.clears + 1)));
    }
  }

  /** A read with the flag up puts it down and returns each field of the state under its own name. */
  lemma ReadDoes(s: State, t: Tid, nonblock: bool, g: Given, n: nat)
    requires s.newData && n >= 11
    ensures var e := Called(s, t, Read(nonblock), g, n);
            && e == Goto(s.(newData := false, h := e.h), t, Outside)
            && e.h.last == Some(Snapshot(s.mode, s.pose.pan, s.pose.tilt, s.pose.tilt2, |s.fifo|, s.total, s.replays))
  {
    var from, k: nat, a, gen := EntryPoint(Read(nonblock)), if nonblock then 3 else 2, Cleared(s), s.h.clears + 1;
    ReadClears(s, t, nonblock, g);
    var full := ReadFields(a, t, 0, BLANK, gen, g);
    Join(s, t, from, g, k, a, Reading(ReadField(0, BLANK, gen)), 7, a, Reading(ReadField(7, full, gen)));
    var b := a.(h := a.h.(last := Some(full)));
    Then(s, t, from, g, k + 7, a, Reading(ReadField(7, full, gen)), b, Outside);
    Stops(s, t, from, g, k + 8, b, Outside, n);
  }
}
