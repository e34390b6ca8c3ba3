/**
  What a replay does to the robot while calls go on around it: the worker plays the recording as
  it was when it took the fifo's lock, and reproduces it move by move.
 */
module Replaying {
  import opened EchoTypes
  import opened Machine
  import M = Motion
  import U = Unrestricted

  /** About to set a servo. */
  predicate SetsServo(pc: PC) {
    || (pc.Moving? && pc.mv.MoveSet?)
    || (pc.Inputting? && pc.inp.InputMove?)
    || (pc.Resetting? && pc.rst.ResetServo?)
  }

  /** About to change the recording. */
  predicate SetsRecording(pc: PC) {
    || (pc.Inputting? && pc.inp.InputRecord?)
    || (pc.Resetting? && pc.rst.ResetClear?)
    || (pc.Teaching? && pc.teach.TeachClear?)
  }

  /** About to raise replay_finished. */
  predicate SignalsAt(pc: PC) { pc.Stopping? && pc.stop.StopSignal? }

  predicate Records(pc: PC) { pc.Inputting? && pc.inp.InputRecord? }

  /** A joystick press that was let in and has yet to move the robot. */
  predicate InFlight(pc: PC) { pc.Inputting? && (pc.inp.InputGet? || pc.inp.InputMove?) }

  predicate MakesMove(pc: PC) { pc.Moving? && pc.mv.MoveSet? }

  /** About to take the mode away from TEACH. */
  predicate LeavesTeach(pc: PC) {
    (pc.Starting? && pc.start.StartCheck?) || (pc.Stopping? && pc.stop.StopMode?)
  }

  /** From `h` to `h'` the mode becomes REPLAY only by an accepted start. */
  predicate StartsCount(h: History, mode: Mode, h': History, mode': Mode) {
    h'.accepted >= h.accepted && (mode != Replay && mode' == Replay ==> h'.accepted > h.accepted)
  }

  /** From `h` to `h'` a start is accepted and unanswered, or a signal, if there is one, answers. */
  predicate Answers(h: History, h': History, signals: bool) {
    h'.answered == if h'.accepted > h.accepted then false else h.answered || signals
  }

  /** A caller's step leaves the worker alone, the fifo while it is locked, and the servos and the
      recording unless it stands where it sets them. */
  predicate Still(s: State, pc: PC, s': State, pc': PC) {
    && s'.worker == s.worker && s'.h.begun == s.h.begun && s'.timer == s.timer && s'.threads == s.threads
    && (s'.pending ==> s.pending || PreQueue(pc)) && (PreQueue(pc') ==> PreQueue(pc) || LeavesTeach(pc))
    && (FifoLocked(s.worker) || !SetsRecording(pc) ==> s'.fifo == s.fifo)
    && (!SetsServo(pc) ==> s'.pose == s.pose)
    && (s'.finished ==> s.finished || SignalsAt(pc)) && (s.finished ==> s'.finished || pc.ClearFinished?)
    && StartsCount(s.h, s.mode, s'.h, s'.mode) && Answers(s.h, s'.h, SignalsAt(pc))
    && (s.mode == Teach ==> (s'.mode != Teach <==> LeavesTeach(pc)))
    && (InFlight(pc') && s.mode == Replay ==> InFlight(pc) && !SetsServo(pc))
    && !MakesMove(pc')
    && (pc.Resetting? || pc.Moving? || pc.Reading? ==> s'.mode == s.mode && s'.armed == s.armed && !ArmsLater(pc'))
    && (Records(pc') ==> pc.Inputting? && pc.inp == InputMove(pc'.inp.servo, pc'.inp.to))
  }

  lemma StartCheckStill(s: State, w: bool)
    ensures var (s', pc') := ActStart(s, StartCheck, w, true); Still(s, Starting(StartCheck, w), s', pc')
  {
  }

  lemma StartStill(s: State, at: StartAt, w: bool, ok: bool)
    requires ActEnabled(s, Starting(at, w), 0, ok)
    ensures var (s', pc') := ActStart(s, at, w, ok); Still(s, Starting(at, w), s', pc')
  {
    if at.StartCheck? {
      StartCheckStill(s, w);
    } else {
      assert ActStart(s, at, w, ok).0.h.accepted == s.h.accepted && ActStart(s, at, w, ok).0.mode == s.mode;
    }
  }

  lemma StopSignalStill(s: State, w: bool)
    ensures var (s', pc') := ActStop(s, StopSignal, w); Still(s, Stopping(StopSignal, w), s', pc')
  {
  }

  lemma StopModeStill(s: State, w: bool)
    ensures var (s', pc') := ActStop(s, StopMode, w); Still(s, Stopping(StopMode, w), s', pc')
  {
  }

  lemma StopStill(s: State, at: StopAt, w: bool)
    requires ActEnabled(s, Stopping(at, w), 0, true)
    ensures var (s', pc') := ActStop(s, at, w); Still(s, Stopping(at, w), s', pc')
  {
    if at.StopSignal? {
      StopSignalStill(s, w);
    } else if at.StopMode? {
      StopModeStill(s, w);
    } else {
      match at
      case StopTimer => case CancelPending => case CancelWait(_) => case StopWake => case StopNotify =>
    }
  }

  lemma ResetStill(s: State, at: ResetAt)
    requires ActEnabled(s, Resetting(at), 0, true)
    ensures var (s', pc') := ActReset(s, at); Still(s, Resetting(at), s', pc')
  {
    match at case ResetClear => case ResetServo(_) => case ResetNotify =>
  }

  lemma TeachStill(s: State, at: TeachAt)
    requires ActEnabled(s, Teaching(at), 0, true)
    ensures var (s', pc') := ActTeach(s, at); Still(s, Teaching(at), s', pc')
  {
    match at case TeachMode => case TeachClear => case TeachTotal => case TeachTimer => case TeachNotify =>
  }

  lemma MoveStill(s: State, at: MoveAt, ok: bool)
    requires ActEnabled(s, Moving(at), 0, ok)
    ensures var (s', pc') := ActMove(s, at, ok); Still(s, Moving(at), s', pc')
  {
    match at case MoveSet(_, _) => case MoveNotify =>
  }

  lemma InputStill(s: State, at: InputAt, delay: nat)
    requires ActEnabled(s, Inputting(at), delay, true)
    ensures var (s', pc') := ActInput(s, at, delay); Still(s, Inputting(at), s', pc')
  {
    match at
    case InputMode(_, _) => case InputGet(_, _) => case InputMove(_, _) => case InputRecord(_, _) =>
    case InputTotal => case InputTimer => case InputNotify =>
  }

  lemma ReadStill(s: State, at: ReadAt)
    requires ActEnabled(s, Reading(at), 0, true)
    ensures var (s', pc') := ActRead(s, at); Still(s, Reading(at), s', pc')
  {
    match at case ReadTest => case ReadWait => case ReadClear => case ReadField(_, _, _) =>
  }

  lemma ActStill(s: State, pc: PC, delay: nat, ok: bool)
    requires ActEnabled(s, pc, delay, ok)
    ensures var (s', pc') := Act(s, pc, delay, ok); Still(s, pc, s', pc')
  {
    match pc
    case Starting(at, w) => StartStill(s, at, w, ok);
    case Stopping(at, w) => StopStill(s, at, w);
    case Resetting(at) => ResetStill(s, at);
    case Teaching(at) => TeachStill(s, at);
    case Moving(at) => MoveStill(s, at, ok);
    case Inputting(at) => InputStill(s, at, delay);
    case Reading(at) => ReadStill(s, at);
    case ClearFinished =>
    case Asleep =>
  }

  /** The timer's step leaves the worker, the recording and the servos alone. */
  predicate TimerStill(s: State, s': State) {
    && s'.worker == s.worker && s'.h.begun == s.h.begun && s'.threads == s.threads
    && s'.fifo == s.fifo && s'.pose == s.pose && s'.finished == s.finished
    && StartsCount(s.h, s.mode, s'.h, s'.mode) && Answers(s.h, s'.h, false)
    && (s.mode == Teach ==> (s'.mode != Teach <==> s.timer.Fired?))
  }

  lemma TimerIsStill(s: State, ok: bool)
    requires TimerEnabled(s, ok)
    ensures TimerStill(s, TimerNext(s, ok))
  {
    match s.timer case Quiet => case Fired => case TimerQueue => case TimerNotify =>
  }

  /** The worker's step leaves callers, timer and queue alone; it enters no mode but IDLE, and that
      when it completes; it raises the flag when it signals. */
  predicate WorkStill(s: State, s': State) {
    && s'.threads == s.threads && s'.armed == s.armed && s'.timer == s.timer && s'.pending == s.pending
    && s'.h.accepted == s.h.accepted && s'.h.begun == s.h.begun && s'.h.quiet == s.h.quiet && s'.h.clean == s.h.clean
    && Answers(s.h, s'.h, s.worker == Finishing(Signal))
    && s'.h.stopMoves == s.h.stopMoves + One(s.worker.Playing? && s.worker.pl.PlayMove?)
    && s'.h.clears == s.h.clears && s'.h.last == s.h.last && (s.newData ==> s'.newData)
    && (WorkerPreComplete(s'.worker) <==> WorkerPreComplete(s.worker) && !(s.worker.Finishing? && s.worker.dn.Complete?))
    && s'.mode == (if s.worker.Finishing? && s.worker.dn.Complete? then Idle else s.mode)
    && s'.finished == (s.finished || s.worker == Finishing(Signal))
    && (WorkerPreSignal(s.worker) ==> WorkerPreSignal(s'.worker) || s'.finished)
  }

  lemma CopyIsStill(s: State, at: SnapAt)
    requires s.worker == Snapping(at) && WorkEnabled(s) && (at.Drain? || at.PutBack?)
    ensures WorkStill(s, WorkSnap(s, at, true))
  {
    match at case Drain(_, _) => case PutBack(_, _) =>
  }

  lemma SnapIsStill(s: State, at: SnapAt, ok: bool)
    requires s.worker == Snapping(at) && WorkEnabled(s)
    ensures WorkStill(s, WorkSnap(s, at, ok))
  {
    if at.Drain? || at.PutBack? { CopyIsStill(s, at); }
  }

  lemma PlayIsStill(s: State, at: PlayAt, plan: seq<Move>, i: nat)
    requires s.worker == Playing(at, plan, i) && WorkEnabled(s)
    ensures WorkStill(s, WorkPlay(s, at, plan, i))
  {
    match at case Check => case PlayMove => case PlayNotify =>
  }

  lemma WorkIsStill(s: State, ok: bool)
    requires WorkEnabled(s)
    ensures WorkStill(s, WorkNext(s, ok))
  {
    match s.worker {
      case Snapping(at) => SnapIsStill(s, at, ok);
      case Playing(at, plan, i) => PlayIsStill(s, at, plan, i);
      case Finishing(at) => match at { case Complete(_) => case Signal => case Wake => }
    }
  }

  /** The mode becomes REPLAY only by an accepted start. */
  lemma ReplayNeedsStart(sched: Schedule, s: State, step: Step)
    requires Enabled(sched, s, step)
    ensures var s' := Next(sched, s, step); StartsCount(s.h, s.mode, s'.h, s'.mode)
  {
    match step
    case Advance(t, delay, ok) => ActStill(s, At(s, t), delay, ok);
    case Work(ok) => WorkIsStill(s, ok);
    case TimerStep(ok) => TimerIsStill(s, ok);
    case Enter(_, _) => case Interrupt(_) => case SetSpeed(_) => case Fire => case Begin =>
  }

  // A write(REPLAY) returns only once signalled --------------------------------------------

  predicate IsSignal(s: State, step: Step) {
    (step.Work? && s.worker == Finishing(Signal)) || (step.Advance? && SignalsAt(At(s, step.t)))
  }

  /** How many completion signals a run gives. */
  function Signals(sched: Schedule, s: State, steps: seq<Step>): nat
    requires Exec(sched, s, steps).Some?
    decreases |steps|
  {
    if steps == [] then 0
    else One(IsSignal(s, steps[0])) + Signals(sched, Next(sched, s, steps[0]), steps[1..])
  }

  lemma FlagNeedsSignal(sched: Schedule, s: State, step: Step)
    requires Enabled(sched, s, step) && !s.finished && Next(sched, s, step).finished
    ensures IsSignal(s, step)
  {
    match step
    case Advance(t, delay, ok) => ActStill(s, At(s, t), delay, ok);
    case Work(ok) => WorkIsStill(s, ok);
    case TimerStep(ok) => TimerIsStill(s, ok);
    case Enter(_, _) => case Interrupt(_) => case SetSpeed(_) => case Fire => case Begin =>
  }

  lemma {:induction false} RaisedBySignal(sched: Schedule, s: State, steps: seq<Step>, e: State)
    requires Exec(sched, s, steps) == Some(e) && !s.finished && e.finished
    ensures Signals(sched, s, steps) > 0
    decreases |steps|
  {
    if steps != [] {
      var s' := Next(sched, s, steps[0]);
      if s'.finished { FlagNeedsSignal(sched, s, steps[0]); } else { RaisedBySignal(sched, s', steps[1..], e); }
    }
  }

  /** Under either schedule: in a run that begins with a writer clearing the flag and after which
      it may return from its wait, a completion was signalled. No signal from before the call
      lets it go. */
  lemma ReturnNeedsSignal(sched: Schedule, s: State, t: Tid, delay: nat, ok: bool, steps: seq<Step>, e: State)
    requires At(s, t).ClearFinished? && Exec(sched, s, [Advance(t, delay, ok)] + steps) == Some(e)
    requires At(e, t).Asleep? && Enabled(sched, e, Advance(t, 0, true))
    ensures Signals(sched, s, [Advance(t, delay, ok)] + steps) > 0
  {
    var all := [Advance(t, delay, ok)] + steps;
    assert all[0] == Advance(t, delay, ok) && all[1..] == steps;
    RaisedBySignal(sched, Next(sched, s, all[0]), steps, e);
  }

  // Following a run -------------------------------------------------------------------------

  /** Only the worker sets servos in the run. */
  predicate LeftAlone(sched: Schedule, s: State, steps: seq<Step>)
    requires Exec(sched, s, steps).Some?
    decreases |steps|
  {
    steps != [] ==>
      (steps[0].Advance? ==> !SetsServo(At(s, steps[0].t)))
      && LeftAlone(sched, Next(sched, s, steps[0]), steps[1..])
  }

  function Done(w: WorkerPC): nat
    requires w.Playing?
  {
    w.i + One(w.pl.PlayNotify?)
  }

  /** Run number `run` found the recording `rec` and the robot at `p`: it takes exactly `rec`, and
      while it plays, the robot stands where the moves played so far leave it. */
  predicate Follows(begun: nat, w: WorkerPC, fifo: seq<Move>, pose: Pose, run: nat, rec: seq<Move>, p: Pose) {
    begun > run
    || (begun == run && match w
          case Snapping(at) =>
            pose == p && !at.Alloc? && (if at.CountRun? then at.moves == rec else U.Recording(w, fifo) == rec)
          case Playing(_, plan, _) =>
            plan == rec && Done(w) <= |rec| && pose == M.PlayAll(p, rec[..Done(w)])
          case _ => true)
  }

  predicate Replays(s: State, run: nat, rec: seq<Move>, p: Pose) {
    Follows(s.h.begun, s.worker, s.fifo, s.pose, run, rec, p)
  }

  lemma PlayOneMore(p: Pose, plan: seq<Move>, i: nat)
    requires i < |plan|
    ensures M.PlayAll(p, plan[..i + 1]) == SetServo(M.PlayAll(p, plan[..i]), plan[i].servo, plan[i].angle)
  {
    assert plan[..i + 1][..i] == plan[..i];
  }

  lemma SnapReplays(s: State, run: nat, rec: seq<Move>, p: Pose, at: SnapAt, ok: bool)
    requires Replays(s, run, rec, p) && U.Data(s) && s.worker == Snapping(at) && WorkEnabled(s)
    ensures Replays(WorkSnap(s, at, ok), run, rec, p)
  {
    U.SnapKeepsRecording(s, at, ok);
    match at case Alloc => case Drain(_, _) => case PutBack(_, _) => case CountRun(_) =>
  }

  lemma PlayReplays(s: State, run: nat, rec: seq<Move>, p: Pose, at: PlayAt, plan: seq<Move>, i: nat)
    requires Replays(s, run, rec, p) && U.Data(s) && s.worker == Playing(at, plan, i) && WorkEnabled(s)
    ensures Replays(WorkPlay(s, at, plan, i), run, rec, p)
  {
    match at
    case Check =>
    case PlayMove => PlayOneMore(p, plan, i);
    case PlayNotify =>
  }

  lemma WorkReplays(s: State, run: nat, rec: seq<Move>, p: Pose, ok: bool)
    requires Replays(s, run, rec, p) && U.Data(s) && WorkEnabled(s)
    ensures Replays(WorkNext(s, ok), run, rec, p)
  {
    match s.worker
    case Snapping(at) => SnapReplays(s, run, rec, p, at, ok);
    case Playing(at, plan, i) => PlayReplays(s, run, rec, p, at, plan, i);
    case Finishing(at) => match at case Complete(_) => case Signal => case Wake =>
  }

  lemma CallReplays(s: State, t: Tid, delay: nat, ok: bool, run: nat, rec: seq<Move>, p: Pose)
    requires Replays(s, run, rec, p) && Enabled(Unrestricted, s, Advance(t, delay, ok)) && !SetsServo(At(s, t))
    ensures Replays(Next(Unrestricted, s, Advance(t, delay, ok)), run, rec, p)
  {
    ActStill(s, At(s, t), delay, ok);
  }

  lemma StepReplays(sched: Schedule, s: State, step: Step, run: nat, rec: seq<Move>, p: Pose)
    requires U.Inv(s) && Replays(s, run, rec, p) && Enabled(sched, s, step)
    requires step.Advance? ==> !SetsServo(At(s, step.t))
    ensures Replays(Next(sched, s, step), run, rec, p)
  {
    match step
    case Advance(t, delay, ok) => CallReplays(s, t, delay, ok, run, rec, p);
    case Work(ok) => WorkReplays(s, run, rec, p, ok);
    case TimerStep(ok) => TimerIsStill(s, ok);
    case Enter(_, _) => case Interrupt(_) => case SetSpeed(_) => case Fire => case Begin =>
  }

  lemma {:induction false} RunReplays(sched: Schedule, s: State, steps: seq<Step>, e: State, run: nat, rec: seq<Move>, p: Pose)
    requires U.Inv(s) && Replays(s, run, rec, p)
    requires Exec(sched, s, steps) == Some(e) && LeftAlone(sched, s, steps)
    ensures Replays(e, run, rec, p)
    decreases |steps|
  {
    if steps != [] {
      U.StepKeeps(sched, s, steps[0]);
      StepReplays(sched, s, steps[0], run, rec, p);
      RunReplays(sched, Next(sched, s, steps[0]), steps[1..], e, run, rec, p);
    }
  }

  /** In every run, under either schedule, from the moment a worker run takes the fifo's lock and
      as long as nobody else sets a servo: it plays the recording it found there, complete and in
      order, and after each move the robot stands where playing the moves so far from the pose it
      found leaves it. Records, clears, stops and starts in between change nothing about that. */
  lemma ReplayFollowsRecording(sched: Schedule, s: State, steps: seq<Step>, e: State)
    requires Reachable(sched, s) && s.worker == Snapping(Drain([], |s.fifo|))
    requires Exec(sched, s, steps) == Some(e) && LeftAlone(sched, s, steps)
    requires e.h.begun == s.h.begun && e.worker.Playing?
    ensures e.worker.plan == s.fifo && Done(e.worker) <= |s.fifo|
    ensures e.pose == M.PlayAll(s.pose, s.fifo[..Done(e.worker)])
  {
    U.ReachableInv(sched, s);
    assert [] + s.fifo == s.fifo;
    RunReplays(sched, s, steps, e, s.h.begun, s.fifo, s.pose);
  }
}
