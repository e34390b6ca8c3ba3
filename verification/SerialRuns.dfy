/** What a user of the driver may rely on in serialised runs. */
module SerialRuns {
  import opened EchoTypes
  import opened Machine
  import opened S = Serialised
  import R = Replaying
  import U = Unrestricted

  // What one step can do to what runs are judged by ------------------------------------------

  predicate IsPlay(s: State, step: Step) {
    step.Work? && s.worker.Playing? && s.worker.pl.PlayMove?
  }

  /** A stop wrote IDLE, and no start was accepted since. */
  predicate Halted(c: PC, quiet: bool) {
    quiet || (StopBegun(c) && !WorkStopped(c))
  }

  /** How many replayed moves may still reach a servo after a stop wrote IDLE. */
  function Allowance(quiet: bool, stopMoves: nat): int {
    if quiet then 0 else 1 - stopMoves
  }

  /** About to carry out a direct MOVE of TILT2. */
  predicate MovesTilt2(pc: PC) {
    pc.Moving? && pc.mv.MoveSet? && pc.mv.id % U8 == TILT2
  }

  predicate InReset(pc: PC) {
    pc.Resetting? || (pc.Stopping? && pc.reset)
  }

  predicate Traces(h: History, c: PC, h': History, c': PC, plays: bool) {
    && h'.accepted >= h.accepted
    && (Halted(c, h.quiet) && h'.accepted == h.accepted ==>
          Halted(c', h'.quiet)
          && Allowance(h'.quiet, h'.stopMoves) + One(plays) <= Allowance(h.quiet, h.stopMoves))
    && (h.quiet && h'.accepted == h.accepted ==> h'.quiet)
    && (h.clean && !InReset(c) ==> h'.clean)
    && (MovesTilt2(c') ==> c' == c)
    && (InReset(c') ==> InReset(c))
  }

  lemma StartTraces(s: State, at: StartAt, w: bool, ok: bool)
    requires ActEnabled(s, Starting(at, w), 0, ok)
    ensures var (s', pc') := ActStart(s, at, w, ok); Traces(s.h, Starting(at, w), s'.h, Focus(pc'), false)
  {
    match at case StartCheck => case StartTimer => case StartQueue => case StartNotify =>
  }

  /** A stop says in the history that it wrote IDLE, cancelled and signalled, and nothing else. */
  lemma StopHistory(s: State, at: StopAt, w: bool)
    ensures var h, h' := s.h, ActStop(s, at, w).0.h;
            && h'.accepted == h.accepted && h'.clean == h.clean
            && h'.quiet == (h.quiet || at.CancelWait?)
            && h'.stopMoves == if at.StopMode? then 0 else h.stopMoves
    ensures var c' := Focus(ActStop(s, at, w).1);
            && !MovesTilt2(c') && (InReset(c') ==> w)
            && (StopBegun(c') || c'.Outside?)
            && (WorkStopped(c') || c'.Outside? <==> at.CancelWait? || WorkStopped(Stopping(at, w)))
  {
    match at
    case StopMode => case StopTimer => case CancelPending => case CancelWait(_) =>
    case StopSignal => case StopWake => case StopNotify =>
  }

  lemma StopTraces(s: State, at: StopAt, w: bool)
    requires StopBarrier(Stopping(at, w), s.worker, s.h.quiet, s.h.stopMoves) && StopHolds(s, Stopping(at, w))
    ensures var (s', pc') := ActStop(s, at, w); Traces(s.h, Stopping(at, w), s'.h, Focus(pc'), false)
  {
    StopHistory(s, at, w);
  }

  lemma ActTraces(s: State, c: PC, delay: nat, ok: bool)
    requires Protocol(s, c) && StopBarrier(c, s.worker, s.h.quiet, s.h.stopMoves) && InControl(c) && ActEnabled(s, c, delay, ok)
    ensures var (s', pc') := Act(s, c, delay, ok); Traces(s.h, c, s'.h, Focus(pc'), false)
  {
    match c
    case Starting(at, w) => StartTraces(s, at, w, ok);
    case Stopping(at, w) => StopTraces(s, at, w);
    case ClearFinished =>
    case _ => U.AsideBooks(s, c, delay, ok);
  }

  lemma TimerHistory(s: State, ok: bool)
    requires TimerEnabled(s, ok)
    ensures var h' := TimerNext(s, ok).h; h' == s.h || h' == Accepted(s.h) || h' == Queued(s.h, ok)
  {
    match s.timer case Quiet => case Fired => case TimerQueue => case TimerNotify =>
  }

  lemma TimerTraces(s: State, c: PC, ok: bool)
    requires TimerEnabled(s, ok)
    ensures var s' := TimerNext(s, ok); Traces(s.h, c, s'.h, c, false)
  {
    TimerHistory(s, ok);
  }

  lemma WorkTraces(s: State, c: PC, ok: bool)
    requires Protocol(s, c) && StopBarrier(c, s.worker, s.h.quiet, s.h.stopMoves) && WorkEnabled(s)
    ensures var s' := WorkNext(s, ok); Traces(s.h, c, s'.h, c, IsPlay(s, Work(ok)))
  {
    R.WorkIsStill(s, ok);
    assert !s.worker.Resting?;
  }

  lemma ControlTraces(s: State, t: Tid, delay: nat, ok: bool)
    requires S.Inv(s) && Enabled(Serialised, s, Advance(t, delay, ok)) && InControl(At(s, t))
    ensures var s' := Next(Serialised, s, Advance(t, delay, ok)); Traces(s.h, Control(s), s'.h, Control(s'), false)
  {
    var c := At(s, t);
    var (s1, pc) := Act(s, c, delay, ok);
    ControlIsGood(s);
    U.ActData(s, c, delay, ok);
    AfterGoto(s, s1, t, pc);
    ActTraces(s, c, delay, ok);
  }

  lemma BystanderTraces(s: State, t: Tid, delay: nat, ok: bool)
    requires S.Inv(s) && Enabled(Serialised, s, Advance(t, delay, ok)) && !InControl(At(s, t))
    ensures var s' := Next(Serialised, s, Advance(t, delay, ok)); Traces(s.h, Control(s), s'.h, Control(s'), false)
  {
    var (s1, pc) := Act(s, At(s, t), delay, ok);
    BystanderActs(s, At(s, t), delay, ok);
    AfterGoto(s, s1, t, pc);
    SameTraces(s.h, Control(s), s1.h);
  }

  lemma EnterTraces(s: State, t: Tid, call: Call)
    requires S.Inv(s) && Enabled(Serialised, s, Enter(t, call))
    ensures var s' := Next(Serialised, s, Enter(t, call));
            var c := if !call.Read? then EntryPoint(call) else Control(s);
            Traces(s.h, c, s'.h, Control(s'), false)
  {
    if call.Read? {
      BystanderMoves(s, t, EntryPoint(call));
    } else {
      assert InControl(EntryPoint(call));
    }
  }

  lemma TimerStepTraces(s: State, ok: bool)
    requires S.Inv(s) && TimerEnabled(s, ok)
    ensures var s' := Next(Serialised, s, TimerStep(ok)); Traces(s.h, Control(s), s'.h, Control(s'), false)
  {
    U.TimerData(s, ok);
    SameFrameHolds(s, TimerNext(s, ok));
    TimerTraces(s, Control(s), ok);
  }

  lemma WorkStepTraces(s: State, ok: bool)
    requires S.Inv(s) && WorkEnabled(s)
    ensures var s' := Next(Serialised, s, Work(ok)); Traces(s.h, Control(s), s'.h, Control(s'), IsPlay(s, Work(ok)))
  {
    U.WorkData(s, ok);
    SameFrameHolds(s, WorkNext(s, ok));
    WorkTraces(s, Control(s), ok);
  }

  lemma SameTraces(h: History, c: PC, h': History)
    requires h'.accepted == h.accepted && h'.quiet == h.quiet && h'.stopMoves == h.stopMoves && h'.clean == h.clean
    ensures Traces(h, c, h', c, false)
  {
  }

  lemma OtherTraces(s: State, step: Step)
    requires S.Inv(s) && Enabled(Serialised, s, step) && (step.SetSpeed? || step.Fire? || step.Begin?)
    ensures var s' := Next(Serialised, s, step); Traces(s.h, Control(s), s'.h, Control(s'), false)
  {
    var s' := Next(Serialised, s, step);
    SameFrameHolds(s, s');
    SameTraces(s.h, Control(s), s'.h);
  }

  /** Where the caller in control stands when a step begins; an entering caller already counts. */
  function Acting(s: State, step: Step): PC {
    if step.Enter? && !step.call.Read? then EntryPoint(step.call) else Control(s)
  }

  lemma StepTraces(s: State, step: Step)
    requires S.Inv(s) && Enabled(Serialised, s, step)
    ensures var s' := Next(Serialised, s, step);
            Traces(s.h, Acting(s, step), s'.h, Control(s'), IsPlay(s, step))
  {
    match step
    case Advance(t, delay, ok) =>
      if InControl(At(s, t)) { ControlTraces(s, t, delay, ok); } else { BystanderTraces(s, t, delay, ok); }
    case Enter(t, call) => EnterTraces(s, t, call);
    case Interrupt(t) => BystanderMoves(s, t, Outside); SameTraces(s.h, Control(s), s.h);
    case TimerStep(ok) => TimerStepTraces(s, ok);
    case Work(ok) => WorkStepTraces(s, ok);
    case SetSpeed(_) => OtherTraces(s, step);
    case Fire => OtherTraces(s, step);
    case Begin => OtherTraces(s, step);
  }

  // Work owed -----------------------------------------------------------------------------

  /** Mode REPLAY means that work is owed: a starter or the timer callback has yet to queue it,
      it is pending, or the worker has not completed. */
  lemma NeverStuckInReplay(s: State)
    requires Reachable(Serialised, s) && s.mode == Replay
    ensures || s.pending
            || s.timer.TimerQueue?
            || WorkerPreComplete(s.worker)
            || exists t :: t in s.threads && PreQueue(s.threads[t])
  {
    S.ReachableInv(s);
  }

  /** Mode TEACH means that a replay will follow inactivity: the timer is armed or its callback has
      yet to look at the mode, or the caller that entered TEACH or moved the robot has yet to arm it. */
  lemma NeverStuckInTeach(s: State)
    requires Reachable(Serialised, s) && s.mode == Teach
    ensures || s.armed
            || s.timer.Fired?
            || exists t :: t in s.threads && ArmsLater(s.threads[t])
  {
    S.ReachableInv(s);
  }

  // Stop ----------------------------------------------------------------------------------

  /** How many replayed moves reach a servo in a run. */
  function Played(s: State, steps: seq<Step>): nat
    requires Exec(Serialised, s, steps).Some?
    decreases |steps|
  {
    if steps == [] then 0
    else One(IsPlay(s, steps[0])) + Played(Next(Serialised, s, steps[0]), steps[1..])
  }

  lemma {:induction false} AcceptedGrows(s: State, steps: seq<Step>)
    requires S.Inv(s) && Exec(Serialised, s, steps).Some?
    ensures Exec(Serialised, s, steps).value.h.accepted >= s.h.accepted
    decreases |steps|
  {
    if steps != [] {
      S.StepKeeps(s, steps[0]);
      StepTraces(s, steps[0]);
      AcceptedGrows(Next(Serialised, s, steps[0]), steps[1..]);
    }
  }

  lemma AllowanceBound(s: State)
    requires S.Inv(s) && Halted(Control(s), s.h.quiet)
    ensures Allowance(s.h.quiet, s.h.stopMoves) >= 0
  {
  }

  lemma NobodyInControl(s: State, step: Step)
    requires Enabled(Serialised, s, step) && step.Enter? && !step.call.Read?
    ensures Control(s) == Outside
  {
    CountZero(s.threads, Controlling);
  }

  lemma {:induction false} HaltedRun(s: State, steps: seq<Step>)
    requires S.Inv(s) && Halted(Control(s), s.h.quiet)
    requires Exec(Serialised, s, steps).Some? && Exec(Serialised, s, steps).value.h.accepted == s.h.accepted
    ensures Played(s, steps) <= Allowance(s.h.quiet, s.h.stopMoves)
    decreases |steps|
  {
    if steps == [] {
      AllowanceBound(s);
    } else {
      var s' := Next(Serialised, s, steps[0]);
      S.StepKeeps(s, steps[0]);
      StepTraces(s, steps[0]);
      if steps[0].Enter? && !steps[0].call.Read? { NobodyInControl(s, steps[0]); }
      AcceptedGrows(s', steps[1..]);
      HaltedRun(s', steps[1..]);
    }
  }

  /** After a stop wrote IDLE, every run in which no new start is accepted lets at most one more
      replayed move reach a servo. */
  lemma StopLetsOneMoveThrough(s: State, t: Tid, reset: bool, steps: seq<Step>)
    requires Reachable(Serialised, s) && At(s, t) == Stopping(StopTimer, reset)
    requires Exec(Serialised, s, steps).Some? && Exec(Serialised, s, steps).value.h.accepted == s.h.accepted
    ensures Played(s, steps) <= 1
  {
    S.ReachableInv(s);
    HaltedRun(s, steps);
  }

  /** After the stop has cancelled the work, none does; and until a new start is accepted there is
      nothing that could replay. */
  lemma StopIsABarrier(s: State, steps: seq<Step>)
    requires Reachable(Serialised, s) && s.h.quiet
    requires Exec(Serialised, s, steps).Some? && Exec(Serialised, s, steps).value.h.accepted == s.h.accepted
    ensures Played(s, steps) == 0
    ensures s.worker.Resting? && !s.pending && !s.timer.TimerQueue?
    ensures forall t :: t in s.threads ==> !PreQueue(s.threads[t])
  {
    S.ReachableInv(s);
    HaltedRun(s, steps);
  }

  /** A stop about to return has that barrier behind it, and leaves mode IDLE and the timer off. */
  lemma StopReturnsQuiet(s: State, t: Tid, reset: bool)
    requires Reachable(Serialised, s) && At(s, t) == Stopping(StopNotify, reset)
    ensures s.h.quiet && s.mode == Idle && !s.armed && s.timer.Quiet?
  {
    S.ReachableInv(s);
  }

  /** RESET ends with mode IDLE, an empty recording and all servos centred, and no worker, pending
      work or timer that could disturb them. */
  lemma ResetCentres(s: State, t: Tid)
    requires Reachable(Serialised, s) && At(s, t) == Resetting(ResetNotify)
    ensures s.mode == Idle && s.fifo == [] && s.pose == Pose(90, 90, 90)
    ensures s.h.quiet && s.worker.Resting? && !s.pending && s.timer.Quiet? && !s.armed
    ensures Next(Serialised, s, Advance(t, 0, true)) == Goto(s.(newData := true), t, Outside)
  {
    S.ReachableInv(s);
  }

  // The count of moves ------------------------------------------------

  predicate NoReset(steps: seq<Step>) {
    forall k :: 0 <= k < |steps| ==> !(steps[k].Enter? && steps[k].call.Reset?)
  }

  lemma InitTraces(s: State)
    requires Initial(s)
    ensures S.Inv(s) && s.h.clean && !MovesTilt2(Control(s)) && !InReset(Control(s))
  {
    S.InitInv(s);
    assert Control(s) == Outside;
  }

  predicate Settled(s: State) {
    !FifoLocked(s.worker)
    && forall t :: t in s.threads ==> s.threads[t] != Inputting(InputTotal) && s.threads[t] != Teaching(TeachTotal)
  }

  lemma CleanCount(s: State)
    requires S.Inv(s) && s.h.clean && Settled(s)
    ensures |s.fifo| == Min(s.total, FIFO_SIZE)
  {
  }

  lemma {:induction false} RunKeepsClean(s0: State, steps: seq<Step>, s: State)
    requires S.Inv(s0) && Exec(Serialised, s0, steps) == Some(s) && NoReset(steps)
    requires s0.h.clean && !InReset(Control(s0))
    ensures Settled(s) ==> |s.fifo| == Min(s.total, FIFO_SIZE)
    decreases |steps|
  {
    if steps == [] {
      if Settled(s) { CleanCount(s); }
    } else {
      S.StepKeeps(s0, steps[0]);
      StepTraces(s0, steps[0]);
      RunKeepsClean(Next(Serialised, s0, steps[0]), steps[1..], s);
    }
  }

  /** In every state the recording holds at most 256 moves and no more than were counted; the one
      move that a joystick input has recorded and is about to count comes on top. */
  lemma RecordingIsCounted(s: State)
    requires Reachable(Serialised, s)
    ensures |s.fifo| <= Min(s.total + 1, 256)
    ensures (forall t :: t in s.threads ==> s.threads[t] != Inputting(InputTotal)) ==> |s.fifo| <= Min(s.total, 256)
  {
    S.ReachableInv(s);
    assert |s.fifo| <= |U.Recording(s.worker, s.fifo)|;
    assert Accounted(Control(s), |U.Recording(s.worker, s.fifo)|, s.total, s.h.clean);
  }

  /** Without a RESET it holds exactly the counted moves, or the last 256 of them. */
  lemma RecordingIsComplete(steps: seq<Step>, s0: State, s: State)
    requires Initial(s0) && Exec(Serialised, s0, steps) == Some(s) && NoReset(steps) && Settled(s)
    ensures |s.fifo| == Min(s.total, 256)
  {
    InitTraces(s0);
    RunKeepsClean(s0, steps, s);
  }

  lemma TeachStartsClean(s: State, t: Tid, delay: nat, ok: bool)
    requires S.Inv(s) && At(s, t) == Teaching(TeachTotal)
    ensures var s' := Next(Serialised, s, Advance(t, delay, ok)); s'.h.clean && !InReset(Control(s'))
  {
    assert Control(s) == Teaching(TeachTotal);
  }

  /** The same holds from an explicit TEACH on, whatever came before: from the step that resets its
      counter, in every run without a RESET. */
  lemma RecordingIsCompleteSinceTeach(s0: State, t: Tid, delay: nat, ok: bool, steps: seq<Step>, s: State)
    requires Reachable(Serialised, s0) && At(s0, t) == Teaching(TeachTotal)
    requires Exec(Serialised, Next(Serialised, s0, Advance(t, delay, ok)), steps) == Some(s)
    requires NoReset(steps) && Settled(s)
    ensures |s.fifo| == Min(s.total, 256)
  {
    S.ReachableInv(s0);
    S.StepKeeps(s0, Advance(t, delay, ok));
    TeachStartsClean(s0, t, delay, ok);
    RunKeepsClean(Next(Serialised, s0, Advance(t, delay, ok)), steps, s);
  }
}
