/**
  A sleeping writer is woken. In a serialised run, as long as replay_finished stays down, one
  agent at a time is the helper: its next step is enabled, and it can take only so many steps
  before the flag goes up, whatever the other agents do in between.
 */
module Completion {
  import opened EchoTypes
  import opened Machine
  import opened Progress
  import opened S = Serialised
  import U = Unrestricted

  datatype Agent = Caller(t: Tid) | TheTimer | TheWorker | Nobody

  function AgentOf(step: Step): Agent {
    match step
    case Enter(t, _) => Nobody
    case Advance(t, _, _) => Caller(t)
    case Interrupt(t) => Nobody
    case SetSpeed(_) => Nobody
    case Fire => TheTimer
    case TimerStep(_) => TheTimer
    case Begin => TheWorker
    case Work(_) => TheWorker
  }

  // How far the signal is -----------------------------------------------------------------

  function TimerLeft(armed: bool, t: TimerPC): nat {
    (if armed then 4 else 0)
    + (match t case Quiet => 0 case Fired => 3 case TimerQueue => 2 case TimerNotify => 1)
  }

  /** Whose step brings the signal nearer. */
  function Helper(s: State, c: PC): Agent {
    if WorkerPreSignal(s.worker) || s.pending then TheWorker
    else if PreSignal(c) then
      if c.stop.CancelWait? && !s.worker.Resting? then TheWorker else Caller(s.h.ctl)
    else if s.timer.TimerQueue? then TheTimer
    else if c.Starting? && c.start.StartTimer? && !s.timer.Quiet? then TheTimer
    else Caller(s.h.ctl)
  }

  /** How many steps of helpers are left at most until the flag goes up. */
  function Distance(s: State, c: PC): int {
    var waking := One(s.worker == Finishing(Wake));
    if WorkerPreSignal(s.worker) then WorkLeft(s.worker)
    else if s.pending then waking + 1 + FULL
    else if PreSignal(c) then if c.stop.CancelWait? then waking + 2 else 1
    else if s.timer.TimerQueue? then FULL + 3
    else if c.Starting? && c.start.StartQueue? then FULL + 3
    else if c.Starting? && c.start.StartTimer? then FULL + 4 + TimerLeft(s.armed, s.timer)
    else FULL + 5 + TimerLeft(s.armed, s.timer)
  }

  /** Waiting for the flag, with a signal owed. */
  predicate Waiting(s: State) {
    S.Inv(s) && !s.finished && Owed(s, Control(s))
  }

  predicate Ready(s: State, c: PC) {
    Protocol(s, c) && CancelSeen(s, c) && U.GoodFifo(s.worker, s.fifo) && !s.finished && Owed(s, c)
  }

  /** A step brings the signal nearer, or at least no further away. */
  predicate Nearer(s: State, c: PC, s': State, c': PC, helps: bool) {
    s'.finished || (Distance(s', c') <= Distance(s, c) && (helps ==> Distance(s', c') < Distance(s, c)))
  }

  lemma DistanceBound(s: State, c: PC)
    requires U.GoodFifo(s.worker, s.fifo)
    ensures 0 <= Distance(s, c) <= FULL + 12
  {
    WorkLeftBound(s);
  }

  lemma DoneNearer(s: State, c: PC, at: DoneAt)
    requires Ready(s, c) && s.worker == Finishing(at)
    ensures Nearer(s, c, WorkDone(s, at), c, Helper(s, c) == TheWorker)
  {
    match at case Complete(_) => case Signal => case Wake =>
  }

  lemma WorkNearer(s: State, c: PC, ok: bool)
    requires Ready(s, c) && WorkEnabled(s)
    ensures Nearer(s, c, WorkNext(s, ok), c, Helper(s, c) == TheWorker)
  {
    match s.worker
    case Snapping(at) => SnapLeftDrops(s, at, ok);
    case Playing(at, plan, i) => PlayLeftDrops(s, at, plan, i);
    case Finishing(at) => DoneNearer(s, c, at);
  }

  lemma TimerNearer(s: State, c: PC, ok: bool)
    requires Ready(s, c) && TimerEnabled(s, ok)
    ensures Nearer(s, c, TimerNext(s, ok), c, Helper(s, c) == TheTimer)
  {
    match s.timer case Quiet => case Fired => case TimerQueue => case TimerNotify =>
  }

  lemma StartNearer(s: State, at: StartAt, w: bool, ok: bool)
    requires Ready(s, Starting(at, w)) && ActEnabled(s, Starting(at, w), 0, ok)
    ensures var (s', pc') := ActStart(s, at, w, ok);
            Nearer(s, Starting(at, w), s', Focus(pc'), Helper(s, Starting(at, w)) == Caller(s.h.ctl))
  {
    match at case StartCheck => case StartTimer => case StartQueue => case StartNotify =>
  }

  lemma StopNearer(s: State, at: StopAt, r: bool)
    requires Ready(s, Stopping(at, r)) && ActEnabled(s, Stopping(at, r), 0, true)
    ensures var (s', pc') := ActStop(s, at, r);
            Nearer(s, Stopping(at, r), s', Focus(pc'), Helper(s, Stopping(at, r)) == Caller(s.h.ctl))
  {
    match at
    case StopMode => case StopTimer => case CancelPending => case CancelWait(_) =>
    case StopSignal => case StopWake => case StopNotify =>
  }

  // One step ------------------------------------------------------------------------------

  /** Control calls that neither start nor stop leave the distance as it is. */
  predicate SameDistance(s: State, s': State) {
    && s'.worker == s.worker && s'.pending == s.pending && s'.timer == s.timer
  }

  lemma AsideNearer(s: State, c: PC, s': State, c': PC)
    requires Ready(s, c) && SameDistance(s, s')
    requires !c.Starting? && !PreSignal(c) && !PreSignal(c') && !PreQueue(c')
    ensures Distance(s', c') == Distance(s, c) && Helper(s, c) != Caller(s.h.ctl)
  {
  }

  lemma ActNearer(s: State, c: PC, delay: nat, ok: bool)
    requires Ready(s, c) && InControl(c) && ActEnabled(s, c, delay, ok)
    ensures var (s', pc') := Act(s, c, delay, ok); Nearer(s, c, s', Focus(pc'), Helper(s, c) == Caller(s.h.ctl))
  {
    var (s', pc') := Act(s, c, delay, ok);
    match c
    case Starting(at, w) => StartNearer(s, at, w, ok);
    case Stopping(at, r) => StopNearer(s, at, r);
    case Resetting(_) => U.AsideBooks(s, c, delay, ok); AsideNearer(s, c, s', Focus(pc'));
    case Teaching(_) => U.AsideBooks(s, c, delay, ok); AsideNearer(s, c, s', Focus(pc'));
    case Moving(_) => U.AsideBooks(s, c, delay, ok); AsideNearer(s, c, s', Focus(pc'));
    case Inputting(_) => U.AsideBooks(s, c, delay, ok); AsideNearer(s, c, s', Focus(pc'));
    case ClearFinished => AsideNearer(s, c, s', pc');
  }

  predicate StepIsNearer(s: State, step: Step)
    requires Enabled(Serialised, s, step)
  {
    var s' := Next(Serialised, s, step);
    Nearer(s, Control(s), s', Control(s'), AgentOf(step) == Helper(s, Control(s)))
  }

  lemma GotoNearer(s: State, c: PC, s1: State, t: Tid, pc: PC, c': PC, helps: bool)
    requires Nearer(s, c, s1, c', helps)
    ensures Nearer(s, c, Goto(s1, t, pc), c', helps)
  {
    assert Distance(Goto(s1, t, pc), c') == Distance(s1, c');
  }

  lemma CallerNearer(s: State, t: Tid, delay: nat, ok: bool)
    requires Waiting(s) && Enabled(Serialised, s, Advance(t, delay, ok))
    ensures StepIsNearer(s, Advance(t, delay, ok))
  {
    var c, pc := Control(s), At(s, t);
    var (s1, pc') := Act(s, pc, delay, ok);
    CancelIsSeen(s);
    ControlIsGood(s);
    U.ActData(s, pc, delay, ok);
    CallerIsControl(s, c);
    if InControl(pc) {
      AfterGoto(s, s1, t, pc');
      ActNearer(s, pc, delay, ok);
      GotoNearer(s, c, s1, t, pc', Focus(pc'), Helper(s, c) == Caller(s.h.ctl));
    } else {
      assert pc.Reading?;
      ReadsTouchReaders(s, pc.rd);
      AfterGoto(s, s1, t, pc');
      assert Nearer(s, c, s1, c, false);
      GotoNearer(s, c, s1, t, pc', c, false);
    }
  }

  lemma CallerIsControl(s: State, c: PC)
    requires Ready(s, c)
    ensures Helper(s, c).Caller? ==> Helper(s, c) == Caller(s.h.ctl) && InControl(c)
  {
  }

  lemma EnterNearer(s: State, t: Tid, call: Call)
    requires Waiting(s) && Enabled(Serialised, s, Enter(t, call))
    ensures StepIsNearer(s, Enter(t, call))
  {
    CancelIsSeen(s);
    CallerIsControl(s, Control(s));
    if call.Read? {
      BystanderMoves(s, t, EntryPoint(call));
    } else {
      CountZero(s.threads, Controlling);
      AsideNearer(s, Outside, Next(Serialised, s, Enter(t, call)), EntryPoint(call));
    }
  }

  lemma OthersNearer(s: State, step: Step)
    requires Waiting(s) && Enabled(Serialised, s, step) && (step.Interrupt? || step.SetSpeed? || step.Fire? || step.Begin?)
    ensures StepIsNearer(s, step)
  {
    CancelIsSeen(s);
    if step.Interrupt? {
      BystanderMoves(s, step.t, Outside);
    } else {
      SameFrameHolds(s, Next(Serialised, s, step));
    }
  }

  /** One step of the helper brings the flag nearer; a step of anybody else never moves it away. */
  lemma StepNearer(s: State, step: Step)
    requires Waiting(s) && Enabled(Serialised, s, step)
    ensures StepIsNearer(s, step)
    ensures Next(Serialised, s, step).finished || Waiting(Next(Serialised, s, step))
  {
    S.StepKeeps(s, step);
    StepHolds(s, step);
    match step
    case Advance(t, delay, ok) => CallerNearer(s, t, delay, ok);
    case Enter(t, call) => EnterNearer(s, t, call);
    case TimerStep(ok) =>
      CancelIsSeen(s); U.TimerData(s, ok); SameFrameHolds(s, TimerNext(s, ok)); TimerNearer(s, Control(s), ok);
    case Work(ok) =>
      CancelIsSeen(s); U.WorkData(s, ok); SameFrameHolds(s, WorkNext(s, ok)); WorkNearer(s, Control(s), ok);
    case _ => OthersNearer(s, step);
  }

  // Whole runs ----------------------------------------------------------------------------

  /** The step by which the helper goes on. */
  function HelpStep(s: State, c: PC): Step {
    match Helper(s, c)
    case TheWorker => if s.worker.Resting? then Begin else Work(true)
    case TheTimer => TimerStep(!s.pending)
    case Caller(t) => Advance(t, 0, !s.pending)
    case Nobody => Begin
  }

  /** The helper is never blocked. */
  lemma HelperCanMove(s: State)
    requires Waiting(s)
    ensures var step := HelpStep(s, Control(s));
            Enabled(Serialised, s, step) && AgentOf(step) == Helper(s, Control(s))
  {
    CancelIsSeen(s);
    CallerIsControl(s, Control(s));
  }

  /** The flag is down in every state of the run. */
  predicate FlagDown(s: State, steps: seq<Step>)
    requires Exec(Serialised, s, steps).Some?
    decreases |steps|
  {
    !s.finished && (steps != [] ==> FlagDown(Next(Serialised, s, steps[0]), steps[1..]))
  }

  /** How many steps of the run are taken by the helper of the moment. */
  function HelpGiven(s: State, steps: seq<Step>): nat
    requires Exec(Serialised, s, steps).Some?
    decreases |steps|
  {
    if steps == [] then 0
    else One(AgentOf(steps[0]) == Helper(s, Control(s))) + HelpGiven(Next(Serialised, s, steps[0]), steps[1..])
  }

  lemma {:induction false} HelpIsBounded(s: State, steps: seq<Step>)
    requires Waiting(s) && Exec(Serialised, s, steps).Some? && FlagDown(s, steps)
    ensures var e := Exec(Serialised, s, steps).value;
            Waiting(e) && HelpGiven(s, steps) + Distance(e, Control(e)) <= Distance(s, Control(s))
    decreases |steps|
  {
    if steps != [] {
      StepNearer(s, steps[0]);
      HelpIsBounded(Next(Serialised, s, steps[0]), steps[1..]);
    }
  }

  /** In every serialised run: while a writer sleeps and the flag is down, something is under
      way that will raise the flag. */
  lemma NoLostCompletion(s: State, t: Tid)
    requires Reachable(Serialised, s) && At(s, t).Asleep? && !s.finished
    ensures || s.pending
            || WorkerPreSignal(s.worker)
            || s.timer.TimerQueue?
            || exists u :: u in s.threads && (PreQueue(s.threads[u]) || PreSignal(s.threads[u])
                           || (s.threads[u].Starting? && s.threads[u].start.StartCheck? && s.mode != Replay))
    ensures Waiting(s)
  {
    S.ReachableInv(s);
  }

  /** In every serialised run from there on in which the flag stays down: at most FULL + 12
      steps are taken by helpers, and at its end the helper can still take its next step. So a
      schedule that always lets the helper of the moment go on raises the flag. */
  lemma SleepingWriterIsWoken(s: State, t: Tid, steps: seq<Step>)
    requires Reachable(Serialised, s) && At(s, t).Asleep? && !s.finished
    requires Exec(Serialised, s, steps).Some? && FlagDown(s, steps)
    ensures HelpGiven(s, steps) <= FULL + 12
    ensures var e := Exec(Serialised, s, steps).value;
            var step := HelpStep(e, Control(e));
            Enabled(Serialised, e, step) && AgentOf(step) == Helper(e, Control(e))
  {
    NoLostCompletion(s, t);
    HelpIsBounded(s, steps);
    var e := Exec(Serialised, s, steps).value;
    DistanceBound(s, Control(s));
    DistanceBound(e, Control(e));
    HelperCanMove(e);
  }
}
