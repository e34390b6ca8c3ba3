/**
  The driver as a step machine. Any number of threads call into the character device or
  deliver joystick input; one timer and one work item run beside them. One step is one lock
  section, one flag write, one wait, or one field read of a snapshot.

  What is assumed of the kernel:
   - a timer's callback never runs beside itself; timer_delete_sync succeeds only while the
     callback is not running, and disarms the timer;
   - a work item has a pending bit and at most one running instance; queueing an item that is
     not pending sets the bit, also while an instance runs; queueing a pending item does
     nothing; while a canceller is inside cancel_work_sync the call may also do nothing;
   - cancel_work_sync clears the pending bit and then waits for the instance it found running.
 */
module Machine {
  import opened EchoTypes

  type Tid = nat

  /** What a reader sees, without the interrupt counter. */
  datatype Snapshot = Snapshot(mode: Mode, pan: nat, tilt: nat, tilt2: nat, count: nat, moves: nat, replays: nat)

  const BLANK := Snapshot(Idle, 0, 0, 0, 0, 0, 0)
  const NUM_FIELDS: nat := 7

  datatype Call =
    | WriteReplay                       // write(REPLAY): blocks until a replay completes
    | ModeReplay                        // ioctl SET_MODE(REPLAY)
    | SetTeach                          // write(TEACH) and ioctl SET_MODE(TEACH)
    | Stop                              // write(STOP) and ioctl SET_MODE(IDLE)
    | Reset                             // ioctl RESET
    | DirectMove(id: nat, angle: nat)   // write(MOVE), fields as the u32 values received
    | Input(right: bool, pan: bool)     // one joystick press: +5 or -5 on PAN or TILT
    | Read(nonblock: bool)

  // Where a thread is, one datatype per routine; each name says what the thread does next.

  /** echo_state_start_replay */
  datatype StartAt = StartCheck | StartTimer | StartQueue | StartNotify

  /** echo_state_stop; `run` is the number of the worker run a canceller found */
  datatype StopAt = StopMode | StopTimer | CancelPending | CancelWait(run: nat) | StopSignal | StopWake | StopNotify

  /** the rest of ioctl RESET; `k` is the next servo to centre */
  datatype ResetAt = ResetClear | ResetServo(k: nat) | ResetNotify

  /** the TEACH part of echo_state_set_mode */
  datatype TeachAt = TeachMode | TeachClear | TeachTotal | TeachTimer | TeachNotify

  /** write(MOVE) */
  datatype MoveAt = MoveSet(id: nat, angle: nat) | MoveNotify

  /** echo_state_handle_input */
  datatype InputAt =
    | InputMode(servo: nat, delta: int)
    | InputGet(servo: nat, delta: int)
    | InputMove(servo: nat, to: nat)
    | InputRecord(servo: nat, to: nat)
    | InputTotal
    | InputTimer
    | InputNotify

  /** echo_read; `k` fields are read, after the `gen`-th clearing of the flag */
  datatype ReadAt = ReadTest | ReadWait | ReadClear | ReadField(k: nat, snap: Snapshot, gen: nat)

  datatype PC =
    | Outside
    | ClearFinished                           // write(REPLAY), before replay_finished := false
    | Starting(start: StartAt, writer: bool)
    | Asleep                                  // write(REPLAY), waiting for replay_finished
    | Stopping(stop: StopAt, reset: bool)
    | Resetting(rst: ResetAt)
    | Teaching(teach: TeachAt)
    | Moving(mv: MoveAt)
    | Inputting(inp: InputAt)
    | Reading(rd: ReadAt)

  datatype TimerPC = Quiet | Fired | TimerQueue | TimerNotify

  // Where the replay worker is.

  /** taking the recording out of the fifo and putting it back, inside fifo_lock */
  datatype SnapAt = Alloc | Drain(moves: seq<Move>, count: nat) | PutBack(moves: seq<Move>, k: nat) | CountRun(moves: seq<Move>)

  /** the playback loop: test, sleep and move, notify */
  datatype PlayAt = Check | PlayMove | PlayNotify

  /** buf_op_replay_done; `owes`: something changed since the last notify */
  datatype DoneAt = Complete(owes: bool) | Signal | Wake

  datatype WorkerPC =
    | Resting
    | Snapping(sn: SnapAt)
    | Playing(pl: PlayAt, plan: seq<Move>, i: nat)
    | Finishing(dn: DoneAt)

  /** What happened so far. Steps only record it; the one exception is that a canceller
      compares the number of the run it waits for with `begun`. */
  datatype History = History(
    accepted: nat,     // successful transitions to REPLAY
    begun: nat,        // worker runs begun
    oom: nat,          // runs that ended for lack of memory
    cancelled: nat,    // runs cancelled while pending
    coalesced: nat,    // queue_work calls that did nothing
    answered: bool,    // a completion was signalled since the last accepted start
    quiet: bool,       // a stop finished, and no start was accepted since
    stopMoves: nat,    // replayed moves since the last stop wrote IDLE
    clean: bool,       // no RESET since init or the last explicit TEACH
    clears: nat,       // how often a reader cleared new_data_avail
    last: Option<Snapshot>,  // the finished snapshot of the last reader to clear the flag
    silent: bool,      // a MOVE changed an angle but failed on the bus since that clear
    ctl: Tid           // the last thread to enter a control call
  )

  datatype State = State(
    mode: Mode, finished: bool, newData: bool,
    pending: bool, worker: WorkerPC,
    armed: bool, timer: TimerPC,
    fifo: seq<Move>, pose: Pose, total: nat, replays: nat, speed: nat,
    threads: map<Tid, PC>, h: History)

  /** The device as created: idle, centred, nothing recorded, nobody inside. */
  predicate Initial(s: State) {
    && s.mode == Idle && !s.finished && !s.newData
    && !s.pending && s.worker == Resting && !s.armed && s.timer == Quiet
    && s.fifo == [] && s.pose == CENTRED && s.total == 0 && s.replays == 0 && s.speed == 1
    && s.threads == map[]
    && s.h.accepted == 0 && s.h.begun == 0 && s.h.oom == 0 && s.h.cancelled == 0 && s.h.coalesced == 0
    && s.h.answered && s.h.quiet && s.h.stopMoves == 0 && s.h.clean
    && s.h.clears == 0 && s.h.last == None && !s.h.silent
  }

  datatype Step =
    | Enter(t: Tid, call: Call)
    | Advance(t: Tid, delay: nat, ok: bool)  // `delay`: the time a recorded move measured; `ok`: bus or queue outcome
    | Interrupt(t: Tid)                      // a signal ends a wait
    | SetSpeed(speed: nat)
    | Fire
    | TimerStep(ok: bool)
    | Begin
    | Work(ok: bool)                         // `ok`: the allocation outcome

  datatype Schedule = Serialised | Unrestricted

  function PlaceOf(m: map<Tid, PC>, t: Tid): PC {
    if t in m then m[t] else Outside
  }

  function At(s: State, t: Tid): PC { PlaceOf(s.threads, t) }

  function Goto(s: State, t: Tid, pc: PC): State {
    s.(threads := s.threads[t := pc])
  }

  // Places --------------------------------------------------------------------------------

  /** Inside a control call or a joystick input. Reads and sleeping writers are not. */
  predicate InControl(pc: PC) {
    !pc.Outside? && !pc.Asleep? && !pc.Reading?
  }

  /** Accepted a start, has not queued the work yet. */
  predicate PreQueue(pc: PC) {
    pc.Starting? && (pc.start.StartTimer? || pc.start.StartQueue?)
  }

  /** In TEACH, has not armed the inactivity timer yet. */
  predicate ArmsLater(pc: PC) {
    || (pc.Teaching? && !pc.teach.TeachMode? && !pc.teach.TeachNotify?)
    || (pc.Inputting? && !pc.inp.InputMode? && !pc.inp.InputNotify?)
  }

  predicate InCancel(pc: PC) {
    pc.Stopping? && pc.stop.CancelWait?
  }

  /** Took the pending work away, has not signalled completion yet. */
  predicate PreSignal(pc: PC) {
    pc.Stopping? && (pc.stop.CancelWait? || pc.stop.StopSignal?)
  }

  /** Changed something a reader can see and has not notified since. */
  predicate Owes(pc: PC) {
    match pc
    case Starting(at, _) => !at.StartCheck?
    case Stopping(at, _) => !at.StopMode? && !at.StopNotify?
    case Resetting(at) => !at.ResetClear?
    case Teaching(at) => !at.TeachMode?
    case Moving(at) => at.MoveNotify?
    case Inputting(at) => !at.InputMode?
    case _ => false
  }

  predicate TimerOwes(pc: TimerPC) { pc.TimerQueue? || pc.TimerNotify? }

  predicate WorkerOwes(w: WorkerPC) {
    match w
    case Resting => false
    case Snapping(at) => !at.Alloc?
    case Playing(at, _, i) => at.PlayNotify? || i == 0
    case Finishing(at) => at.Complete? ==> at.owes
  }

  predicate WorkerPreSignal(w: WorkerPC) { !w.Resting? && w != Finishing(Wake) }

  predicate WorkerPreComplete(w: WorkerPC) { WorkerPreSignal(w) && w != Finishing(Signal) }

  predicate FifoLocked(w: WorkerPC) { w.Snapping? && (w.sn.Drain? || w.sn.PutBack?) }

  // Counting threads ----------------------------------------------------------------------

  datatype Kind = BeforeQueue | BeforeSignal | Cancelling | Owing | Controlling | Arming

  predicate Is(kind: Kind, pc: PC) {
    match kind
    case BeforeQueue => PreQueue(pc)
    case BeforeSignal => PreSignal(pc)
    case Cancelling => InCancel(pc)
    case Owing => Owes(pc)
    case Controlling => InControl(pc)
    case Arming => ArmsLater(pc)
  }

  /** The threads that stand at a place of one kind, and how many they are. */
  function Placed(m: map<Tid, PC>, kind: Kind): set<Tid> {
    set t | t in m && Is(kind, m[t])
  }

  function Count(m: map<Tid, PC>, kind: Kind): nat {
    |Placed(m, kind)|
  }

  function One(b: bool): nat { if b then 1 else 0 }

  lemma OneChanges(here: set<Tid>, there: set<Tid>, t: Tid)
    requires here - {t} == there - {t}
    ensures |there| == |here| - One(t in here) + One(t in there)
    ensures One(t in here) <= |here|
  {
    var others := here - {t};
    assert here == if t in here then others + {t} else others;
    assert there == if t in there then others + {t} else others;
  }

  lemma CountGoto(m: map<Tid, PC>, t: Tid, pc: PC, kind: Kind)
    ensures Count(m[t := pc], kind) == Count(m, kind) - One(Is(kind, PlaceOf(m, t))) + One(Is(kind, pc))
    ensures One(Is(kind, PlaceOf(m, t))) <= Count(m, kind)
  {
    OneChanges(Placed(m, kind), Placed(m[t := pc], kind), t);
  }

  lemma CountZero(m: map<Tid, PC>, kind: Kind)
    ensures Count(m, kind) == 0 <==> forall t :: t in m ==> !Is(kind, m[t])
  {
    if Count(m, kind) == 0 {
      assert forall t :: t in m && Is(kind, m[t]) ==> t in Placed(m, kind);
    } else {
      var t :| t in Placed(m, kind);
    }
  }

  // Parts of steps ------------------------------------------------------------------------

  function Notify(s: State): State { s.(newData := true) }

  function Answered(h: History): History { h.(answered := true) }

  function Accepted(h: History): History {
    h.(accepted := h.accepted + 1, answered := false, quiet := false)
  }

  function Queued(h: History, sets: bool): History {
    if sets then h else h.(coalesced := h.coalesced + 1)
  }

  function Directed(h: History, unseen: bool): History {
    h.(silent := h.silent || unseen)
  }

  /** May a queue_work call leave the pending bit as it is? May it set it? */
  predicate QueueChoice(s: State, sets: bool) {
    if sets then !s.pending else s.pending || Count(s.threads, Cancelling) > 0
  }

  function Observe(s: State): Snapshot {
    Snapshot(s.mode, s.pose.pan, s.pose.tilt, s.pose.tilt2, |s.fifo|, s.total, s.replays)
  }

  /** One more field of a snapshot, in the order the driver reads them. */
  function ReadOne(snap: Snapshot, k: nat, now: Snapshot): Snapshot {
    if k == 0 then snap.(mode := now.mode)
    else if k == 1 then snap.(pan := now.pan)
    else if k == 2 then snap.(tilt := now.tilt)
    else if k == 3 then snap.(tilt2 := now.tilt2)
    else if k == 4 then snap.(count := now.count)
    else if k == 5 then snap.(moves := now.moves)
    else snap.(replays := now.replays)
  }

  // Threads -------------------------------------------------------------------------------

  function EntryPoint(call: Call): PC {
    match call
    case WriteReplay => ClearFinished
    case ModeReplay => Starting(StartCheck, false)
    case SetTeach => Teaching(TeachMode)
    case Stop => Stopping(StopMode, false)
    case Reset => Stopping(StopMode, true)
    case DirectMove(id, angle) => Moving(MoveSet(id, angle))
    case Input(right, pan) =>
      Inputting(InputMode(ServoOf(pan), DeltaOf(right)))
    case Read(nonblock) => Reading(if nonblock then ReadTest else ReadWait)
  }

  predicate ActEnabled(s: State, pc: PC, delay: nat, ok: bool) {
    match pc
    case Outside => false
    case ClearFinished => true
    case Starting(at, _) => (at.StartTimer? ==> s.timer.Quiet?) && (at.StartQueue? ==> QueueChoice(s, ok))
    case Asleep => s.finished
    case Stopping(at, _) =>
      && (at.StopTimer? ==> s.timer.Quiet?)
      && (at.CancelWait? ==> s.worker.Resting? || s.h.begun != at.run)
    case Resetting(at) => at.ResetClear? ==> !FifoLocked(s.worker)
    case Teaching(at) => at.TeachClear? ==> !FifoLocked(s.worker)
    case Moving(_) => true
    case Inputting(at) => at.InputRecord? ==> !FifoLocked(s.worker) && delay < U32
    case Reading(at) => at.ReadWait? ==> s.newData
  }

  // What a thread does to the shared state, and where it goes.

  function ActStart(s: State, at: StartAt, w: bool, ok: bool): (State, PC)
  {
    match at
    case StartCheck =>
      if s.mode == Replay then (s, Outside)               // -EBUSY
      else (s.(mode := Replay, h := Accepted(s.h)), Starting(StartTimer, w))
    case StartTimer => (s.(armed := false), Starting(StartQueue, w))
    case StartQueue => (s.(pending := s.pending || ok, h := Queued(s.h, ok)), Starting(StartNotify, w))
    case StartNotify => (Notify(s), if w then Asleep else Outside)
  }

  function ActStop(s: State, at: StopAt, reset: bool): (State, PC)
  {
    match at
    case StopMode => (s.(mode := Idle, h := s.h.(stopMoves := 0)), Stopping(StopTimer, reset))
    case StopTimer => (s.(armed := false), Stopping(CancelPending, reset))
    case CancelPending =>
      (s.(pending := false, h := s.h.(cancelled := s.h.cancelled + if s.pending then 1 else 0)),
       Stopping(CancelWait(s.h.begun), reset))
    case CancelWait(_) => (s.(h := s.h.(quiet := true)), Stopping(StopSignal, reset))
    case StopSignal => (s.(finished := true, h := Answered(s.h)), Stopping(StopWake, reset))
    case StopWake => (Notify(s), Stopping(StopNotify, reset))
    case StopNotify => (Notify(s), if reset then Resetting(ResetClear) else Outside)
  }

  function ActReset(s: State, at: ResetAt): (State, PC)
  {
    match at
    case ResetClear => (s.(fifo := [], h := s.h.(clean := false)), Resetting(ResetServo(0)))
    case ResetServo(k) => (s.(pose := SetServo(s.pose, k, CENTER)), Resetting(if k >= 2 then ResetNotify else ResetServo(k + 1)))
    case ResetNotify => (Notify(s), Outside)
  }

  function ActTeach(s: State, at: TeachAt): (State, PC)
  {
    match at
    case TeachMode => (s.(mode := Teach), Teaching(TeachClear))
    case TeachClear => (s.(fifo := []), Teaching(TeachTotal))
    case TeachTotal => (s.(total := 0, h := s.h.(clean := true)), Teaching(TeachTimer))
    case TeachTimer => (s.(armed := true), Teaching(TeachNotify))
    case TeachNotify => (Notify(s), Outside)
  }

  function ActMove(s: State, at: MoveAt, ok: bool): (State, PC)
  {
    match at
    case MoveSet(id, angle) =>
      if id % U8 >= NUM_SERVOS then (s, Outside)          // -EINVAL
      else
        var pose := SetServo(s.pose, id % U8, angle % U16);
        (s.(pose := pose, h := Directed(s.h, !ok && pose != s.pose)), if ok then Moving(MoveNotify) else Outside)
    case MoveNotify => (Notify(s), Outside)
  }

  function ActInput(s: State, at: InputAt, delay: nat): (State, PC)
  {
    match at
    case InputMode(servo, delta) =>
      if s.mode == Replay then (s, Outside)
      else (s.(mode := Teach), Inputting(InputGet(servo, delta)))
    case InputGet(servo, delta) => (s, Inputting(InputMove(servo, Stepped(AngleOf(s.pose, servo), delta))))
    case InputMove(servo, to) => (s.(pose := SetServo(s.pose, servo, to)), Inputting(InputRecord(servo, to)))
    case InputRecord(servo, to) => (s.(fifo := Push(s.fifo, Move(servo, to, delay))), Inputting(InputTotal))
    case InputTotal => (s.(total := s.total + 1), Inputting(InputTimer))
    case InputTimer => (s.(armed := true), Inputting(InputNotify))
    case InputNotify => (Notify(s), Outside)
  }

  function ActRead(s: State, at: ReadAt): (State, PC)
  {
    match at
    case ReadTest => (s, if s.newData then Reading(ReadWait) else Outside)   // -EAGAIN
    case ReadWait => (s, Reading(ReadClear))
    case ReadClear =>
      (s.(newData := false, h := s.h.(clears := s.h.clears + 1, last := None, silent := false)),
       Reading(ReadField(0, BLANK, s.h.clears + 1)))
    case ReadField(k, snap, gen) =>
      if k < NUM_FIELDS then (s, Reading(ReadField(k + 1, ReadOne(snap, k, Observe(s)), gen)))
      else if gen == s.h.clears then (s.(h := s.h.(last := Some(snap))), Outside)
      else (s, Outside)
  }

  function Act(s: State, pc: PC, delay: nat, ok: bool): (State, PC)
    requires ActEnabled(s, pc, delay, ok)
  {
    match pc
    case ClearFinished => (s.(finished := false), Starting(StartCheck, true))
    case Starting(at, w) => ActStart(s, at, w, ok)
    case Asleep => (s, Outside)
    case Stopping(at, r) => ActStop(s, at, r)
    case Resetting(at) => ActReset(s, at)
    case Teaching(at) => ActTeach(s, at)
    case Moving(at) => ActMove(s, at, ok)
    case Inputting(at) => ActInput(s, at, delay)
    case Reading(at) => ActRead(s, at)
  }

  // The timer callback --------------------------------------------------------------------

  predicate TimerEnabled(s: State, ok: bool) {
    !s.timer.Quiet? && (s.timer.TimerQueue? ==> QueueChoice(s, ok))
  }

  function TimerNext(s: State, ok: bool): State
    requires TimerEnabled(s, ok)
  {
    match s.timer
    case Fired => if s.mode != Teach then s.(timer := Quiet) else s.(mode := Replay, h := Accepted(s.h), timer := TimerQueue)
    case TimerQueue => s.(pending := s.pending || ok, h := Queued(s.h, ok), timer := TimerNotify)
    case TimerNotify => s.(newData := true, timer := Quiet)
  }

  // The replay worker ---------------------------------------------------------------------

  predicate WorkEnabled(s: State) {
    match s.worker
    case Resting => false
    case Snapping(Drain(moves, count)) => |moves| < count ==> |s.fifo| > 0
    case Playing(PlayMove, plan, i) => i < |plan|
    case _ => true
  }

  function WorkSnap(s: State, at: SnapAt, ok: bool): State
    requires at.Drain? && |at.moves| < at.count ==> |s.fifo| > 0
  {
    match at
    case Alloc =>
      if ok then s.(worker := Snapping(Drain([], |s.fifo|)))
      else s.(worker := Finishing(Complete(false)), h := s.h.(oom := s.h.oom + 1))
    case Drain(moves, count) =>
      if |moves| < count then s.(fifo := s.fifo[1..], worker := Snapping(Drain(moves + [s.fifo[0]], count)))
      else s.(worker := Snapping(PutBack(moves, 0)))
    case PutBack(moves, k) =>
      if k < |moves| then s.(fifo := s.fifo + [moves[k]], worker := Snapping(PutBack(moves, k + 1)))
      else s.(worker := Snapping(CountRun(moves)))
    case CountRun(moves) => s.(replays := s.replays + 1, worker := Playing(Check, moves, 0))
  }

  function WorkPlay(s: State, at: PlayAt, plan: seq<Move>, i: nat): State
    requires at.PlayMove? ==> i < |plan|
  {
    match at
    case Check =>
      if i < |plan| && s.mode == Replay then s.(worker := Playing(PlayMove, plan, i))
      else s.(worker := Finishing(Complete(i == 0)))
    case PlayMove =>
      s.(pose := SetServo(s.pose, plan[i].servo, plan[i].angle), worker := Playing(PlayNotify, plan, i),
         h := s.h.(stopMoves := s.h.stopMoves + 1))
    case PlayNotify => s.(newData := true, worker := Playing(Check, plan, i + 1))
  }

  function WorkDone(s: State, at: DoneAt): State
  {
    match at
    case Complete(_) => s.(mode := Idle, worker := Finishing(Signal))
    case Signal => s.(finished := true, worker := Finishing(Wake), h := Answered(s.h))
    case Wake => s.(newData := true, worker := Resting)
  }

  function WorkNext(s: State, ok: bool): State
    requires WorkEnabled(s)
  {
    match s.worker
    case Snapping(at) => WorkSnap(s, at, ok)
    case Playing(at, plan, i) => WorkPlay(s, at, plan, i)
    case Finishing(at) => WorkDone(s, at)
  }

  // The whole machine ---------------------------------------------------------------------

  predicate Enabled(sched: Schedule, s: State, step: Step) {
    match step
    case Enter(t, call) =>
      && At(s, t).Outside?
      && (sched.Serialised? && !call.Read? ==> Count(s.threads, Controlling) == 0)
    case Advance(t, delay, ok) => ActEnabled(s, At(s, t), delay, ok)
    case Interrupt(t) => At(s, t).Asleep? || At(s, t) == Reading(ReadWait)
    case SetSpeed(speed) => 0 < speed < U16
    case Fire => s.armed && s.timer.Quiet?
    case TimerStep(ok) => TimerEnabled(s, ok)
    case Begin => s.pending && s.worker.Resting?
    case Work(_) => WorkEnabled(s)
  }

  function Next(sched: Schedule, s: State, step: Step): State
    requires Enabled(sched, s, step)
  {
    match step
    case Enter(t, call) =>
      var s1 := Goto(s, t, EntryPoint(call));
      if call.Read? then s1 else s1.(h := s1.h.(ctl := t))
    case Advance(t, delay, ok) =>
      var (s1, pc) := Act(s, At(s, t), delay, ok);
      Goto(s1, t, pc)
    case Interrupt(t) => Goto(s, t, Outside)
    case SetSpeed(speed) => s.(speed := speed)
    case Fire => s.(armed := false, timer := Fired)
    case TimerStep(ok) => TimerNext(s, ok)
    case Begin => s.(pending := false, worker := Snapping(Alloc), h := s.h.(begun := s.h.begun + 1))
    case Work(ok) => WorkNext(s, ok)
  }

  /** The state a run reaches, if every step of it is enabled in turn. */
  function Exec(sched: Schedule, s: State, steps: seq<Step>): Option<State>
    decreases |steps|
  {
    if steps == [] then Some(s)
    else if Enabled(sched, s, steps[0]) then Exec(sched, Next(sched, s, steps[0]), steps[1..])
    else None
  }

  lemma {:induction false} ExecJoins(sched: Schedule, s0: State, a: seq<Step>, s: State, b: seq<Step>)
    requires Exec(sched, s0, a) == Some(s)
    ensures Exec(sched, s0, a + b) == Exec(sched, s, b)
    decreases |a|
  {
    if a == [] {
      assert a + b == b;
    } else {
      assert (a + b)[1..] == a[1..] + b;
      ExecJoins(sched, Next(sched, s0, a[0]), a[1..], s, b);
    }
  }

  /** `s` is reached by some run from an initial state. */
  ghost predicate Reachable(sched: Schedule, s: State) {
    exists s0, steps :: Initial(s0) && Exec(sched, s0, steps) == Some(s)
  }

  lemma StaysReachable(sched: Schedule, s: State, steps: seq<Step>, e: State)
    requires Reachable(sched, s) && Exec(sched, s, steps) == Some(e)
    ensures Reachable(sched, e)
  {
    var s0, before :| Initial(s0) && Exec(sched, s0, before) == Some(s);
    ExecJoins(sched, s0, before, s, steps);
  }
}
