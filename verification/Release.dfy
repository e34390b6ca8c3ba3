/**
  Which run releases a writer, and how long a TEACH lasts: what a caller can tell at the time of
  the call.
 */
module Release {
  import opened EchoTypes
  import opened Machine
  import opened R = Replaying
  import opened Progress
  import S = Serialised
  import U = Unrestricted
  import X = Exactly

  // Runs of the worker alone --------------------------------------------------------------

  /** The next step of a run that has yet to signal: it raises the flag, or comes nearer to that. */
  lemma WorkGoesOn(sched: Schedule, s: State) returns (s': State)
    requires U.Inv(s) && WorkerPreSignal(s.worker)
    ensures Enabled(sched, s, Work(true)) && s' == Next(sched, s, Work(true)) && U.Inv(s') && s'.h.begun == s.h.begun
    ensures if s.worker == Finishing(Signal) then s'.finished
            else WorkerPreSignal(s'.worker) && 0 <= WorkLeft(s'.worker) < WorkLeft(s.worker)
  {
    assert WorkEnabled(s);
    WorkIsStill(s, true);
    s' := Next(sched, s, Work(true));
    U.StepKeeps(sched, s, Work(true));
    match s.worker {
      case Snapping(at) => SnapLeftDrops(s, at, true);
      case Playing(at, plan, i) => PlayLeftDrops(s, at, plan, i);
      case Finishing(at) => match at { case Complete(_) => case Signal => case Wake => }
    }
    WorkLeftBound(s');
  }

  // Which run releases a writer -----------------------------------------------------------

  /** No stop signals completion in the run. */
  predicate NoStopSignal(sched: Schedule, s: State, steps: seq<Step>)
    requires Exec(sched, s, steps).Some?
    decreases |steps|
  {
    steps != [] ==>
      !(steps[0].Advance? && SignalsAt(At(s, steps[0].t)))
      && NoStopSignal(sched, Next(sched, s, steps[0]), steps[1..])
  }

  lemma {:induction false} RunSignals(sched: Schedule, s: State) returns (steps: seq<Step>, e: State)
    requires U.Inv(s) && WorkerPreSignal(s.worker)
    ensures Exec(sched, s, steps) == Some(e) && NoStopSignal(sched, s, steps)
    ensures e.finished && e.h.begun == s.h.begun
    decreases WorkLeft(s.worker)
  {
    WorkLeftBound(s);
    var s' := WorkGoesOn(sched, s);
    if s.worker == Finishing(Signal) {
      steps, e := [Work(true)], s';
    } else {
      var rest;
      rest, e := RunSignals(sched, s');
      steps := [Work(true)] + rest;
      assert steps[1..] == rest;
    }
  }

  /** No run under way has yet to signal, and the flag is down. */
  predicate NoOlderRun(s: State) { !WorkerPreSignal(s.worker) && !s.finished }

  lemma StepBegun(sched: Schedule, s: State, step: Step)
    requires NoOlderRun(s) && Enabled(sched, s, step) && !(step.Advance? && SignalsAt(At(s, step.t)))
    ensures var s' := Next(sched, s, step); s'.h.begun > s.h.begun || (s'.h.begun == s.h.begun && NoOlderRun(s'))
  {
    var s' := Next(sched, s, step);
    if s'.finished { FlagNeedsSignal(sched, s, step); }
    match step
    case Advance(t, delay, ok) => ActStill(s, At(s, t), delay, ok);
    case Work(ok) => WorkIsStill(s, ok);
    case TimerStep(ok) => TimerIsStill(s, ok);
    case Enter(_, _) => case Interrupt(_) => case SetSpeed(_) => case Fire => case Begin =>
  }

  lemma BegunStepGrows(sched: Schedule, s: State, step: Step)
    requires Enabled(sched, s, step)
    ensures Next(sched, s, step).h.begun >= s.h.begun
  {
    match step
    case Advance(t, delay, ok) => ActStill(s, At(s, t), delay, ok);
    case Work(ok) => WorkIsStill(s, ok);
    case TimerStep(ok) => TimerIsStill(s, ok);
    case Enter(_, _) => case Interrupt(_) => case SetSpeed(_) => case Fire => case Begin =>
  }

  lemma {:induction false} BegunGrows(sched: Schedule, s: State, steps: seq<Step>, e: State)
    requires Exec(sched, s, steps) == Some(e)
    ensures e.h.begun >= s.h.begun
    decreases |steps|
  {
    if steps != [] {
      BegunStepGrows(sched, s, steps[0]);
      BegunGrows(sched, Next(sched, s, steps[0]), steps[1..], e);
    }
  }

  lemma {:induction false} OnlyNewerRuns(sched: Schedule, s: State, steps: seq<Step>, e: State)
    requires NoOlderRun(s) && Exec(sched, s, steps) == Some(e) && NoStopSignal(sched, s, steps) && e.finished
    ensures e.h.begun > s.h.begun
    decreases |steps|
  {
    if steps != [] {
      var s' := Next(sched, s, steps[0]);
      StepBegun(sched, s, steps[0]);
      if s'.h.begun > s.h.begun { BegunGrows(sched, s', steps[1..], e); } else { OnlyNewerRuns(sched, s', steps[1..], e); }
    }
  }

  /** Under either schedule, once a writer has cleared the flag: only a stop or a run that begins
      later can let it go if and only if no run that has yet to signal is under way. */
  lemma OwnRunExactly(sched: Schedule, s: State)
    requires Reachable(sched, s) && !s.finished
    ensures (forall steps, e :: Exec(sched, s, steps) == Some(e) && NoStopSignal(sched, s, steps) && e.finished ==>
               e.h.begun > s.h.begun)
       <==> !WorkerPreSignal(s.worker)
  {
    if WorkerPreSignal(s.worker) {
      U.ReachableInv(sched, s);
      var steps, e := RunSignals(sched, s);
    } else {
      forall steps, e | Exec(sched, s, steps) == Some(e) && NoStopSignal(sched, s, steps) && e.finished
        ensures e.h.begun > s.h.begun
      {
        OnlyNewerRuns(sched, s, steps, e);
      }
    }
  }

  // How long TEACH lasts --------------------------------------------------------------------

  /** A run is owed or under way that will complete. */
  predicate RunOwed(s: State) { s.pending || WorkerPreComplete(s.worker) || s.timer.TimerQueue? }

  /** An accepted start, a stop, or the inactivity timer. */
  predicate EndsTeach(s: State, step: Step) {
    (step.Advance? && LeavesTeach(At(s, step.t))) || (step.TimerStep? && s.timer.Fired?)
  }

  predicate NobodyEndsTeach(sched: Schedule, s: State, steps: seq<Step>)
    requires Exec(sched, s, steps).Some?
    decreases |steps|
  {
    steps != [] ==> !EndsTeach(s, steps[0]) && NobodyEndsTeach(sched, Next(sched, s, steps[0]), steps[1..])
  }

  predicate NobodyQueues(m: map<Tid, PC>) {
    forall t :: t in m ==> !PreQueue(m[t])
  }

  predicate Lasting(s: State) { s.mode == Teach && !RunOwed(s) && NobodyQueues(s.threads) }

  lemma CallLasts(s: State, t: Tid, delay: nat, ok: bool)
    requires Lasting(s) && ActEnabled(s, At(s, t), delay, ok) && !LeavesTeach(At(s, t))
    ensures var (s', pc) := Act(s, At(s, t), delay, ok); Lasting(Goto(s', t, pc))
  {
    var (s', pc) := Act(s, At(s, t), delay, ok);
    ActStill(s, At(s, t), delay, ok);
    GotoLasts(s, s', t, pc);
  }

  lemma GotoLasts(s: State, s': State, t: Tid, pc: PC)
    requires Lasting(s) && s'.mode == Teach && !PreQueue(pc) && s'.threads == s.threads
    requires s'.worker == s.worker && s'.timer == s.timer && !s'.pending
    ensures Lasting(Goto(s', t, pc))
  {
  }

  lemma StepLasts(sched: Schedule, s: State, step: Step)
    requires Lasting(s) && Enabled(sched, s, step) && !EndsTeach(s, step)
    ensures Lasting(Next(sched, s, step))
  {
    match step
    case Advance(t, delay, ok) => CallLasts(s, t, delay, ok);
    case Work(ok) => assert s.worker == Finishing(Signal) || s.worker == Finishing(Wake);
    case TimerStep(ok) => assert s.timer.TimerNotify?;
    case Enter(_, _) => case Interrupt(_) => case SetSpeed(_) => case Fire => case Begin =>
  }

  lemma {:induction false} RunLasts(sched: Schedule, s: State, steps: seq<Step>, e: State)
    requires Lasting(s) && Exec(sched, s, steps) == Some(e) && NobodyEndsTeach(sched, s, steps)
    ensures e.mode == Teach
    decreases |steps|
  {
    if steps != [] {
      StepLasts(sched, s, steps[0]);
      RunLasts(sched, Next(sched, s, steps[0]), steps[1..], e);
    }
  }

  /** A run under way completes by its own steps, and takes TEACH with it. */
  lemma {:induction false} RunCompletes(sched: Schedule, s: State) returns (steps: seq<Step>, e: State)
    requires U.Inv(s) && s.mode == Teach && WorkerPreComplete(s.worker)
    ensures Exec(sched, s, steps) == Some(e) && NobodyEndsTeach(sched, s, steps) && e.mode != Teach
    decreases WorkLeft(s.worker)
  {
    WorkLeftBound(s);
    var s' := WorkGoesOn(sched, s);
    X.TeachEndsExactly(sched, s, Work(true));
    if s'.mode != Teach {
      steps, e := [Work(true)], s';
    } else {
      WorkIsStill(s, true);
      var rest;
      rest, e := RunCompletes(sched, s');
      steps := [Work(true)] + rest;
      assert steps[1..] == rest;
    }
  }

  function RestLeft(w: WorkerPC): nat {
    if w == Finishing(Signal) then 2 else if w == Finishing(Wake) then 1 else 0
  }

  /** The step by which pending work gets on while the worker has nothing left to complete. */
  function RestStep(w: WorkerPC): Step { if w.Resting? then Begin else Work(true) }

  lemma RestGoesOn(sched: Schedule, s: State) returns (s': State)
    requires U.Inv(s) && s.mode == Teach && s.pending && !WorkerPreComplete(s.worker)
    ensures var step := RestStep(s.worker);
            && Enabled(sched, s, step) && !EndsTeach(s, step) && s' == Next(sched, s, step)
            && U.Inv(s') && s'.mode == Teach
            && (WorkerPreComplete(s'.worker)
                || (s'.pending && !WorkerPreComplete(s'.worker) && RestLeft(s'.worker) < RestLeft(s.worker)))
  {
    assert s.worker == Resting || s.worker == Finishing(Signal) || s.worker == Finishing(Wake);
    s' := Next(sched, s, RestStep(s.worker));
    U.StepKeeps(sched, s, RestStep(s.worker));
  }

  lemma {:induction false} PendingCompletes(sched: Schedule, s: State) returns (steps: seq<Step>, e: State)
    requires U.Inv(s) && s.mode == Teach && s.pending && !WorkerPreComplete(s.worker)
    ensures Exec(sched, s, steps) == Some(e) && NobodyEndsTeach(sched, s, steps) && e.mode != Teach
    decreases RestLeft(s.worker)
  {
    var s' := RestGoesOn(sched, s);
    var rest;
    if WorkerPreComplete(s'.worker) { rest, e := RunCompletes(sched, s'); } else { rest, e := PendingCompletes(sched, s'); }
    steps := [RestStep(s.worker)] + rest;
    assert steps[1..] == rest;
  }

  lemma OwedCompletes(sched: Schedule, s: State) returns (steps: seq<Step>, e: State)
    requires U.Inv(s) && s.mode == Teach && RunOwed(s)
    ensures Exec(sched, s, steps) == Some(e) && NobodyEndsTeach(sched, s, steps) && e.mode != Teach
  {
    if WorkerPreComplete(s.worker) {
      steps, e := RunCompletes(sched, s);
    } else if s.pending {
      steps, e := PendingCompletes(sched, s);
    } else {
      var s' := Next(sched, s, TimerStep(!s.pending));
      U.StepKeeps(sched, s, TimerStep(!s.pending));
      var rest;
      if WorkerPreComplete(s'.worker) { rest, e := RunCompletes(sched, s'); } else { rest, e := PendingCompletes(sched, s'); }
      steps := [TimerStep(!s.pending)] + rest;
      assert steps[1..] == rest;
    }
  }

  /** Serialised, nobody stands between an accepted start and its queueing while the mode is TEACH. */
  lemma TeachMeansNoStart(s: State)
    requires Reachable(Serialised, s) && s.mode == Teach
    ensures NobodyQueues(s.threads)
  {
    S.ReachableInv(s);
    assert !PreQueue(S.Control(s));
  }

  /** TEACH lasts until somebody starts, stops or is inactive, through every continuation, if and
      only if no run is owed or under way that has yet to complete. Serialised this needs nothing
      else; unserialised, no thread may stand between an accepted start and its queueing. */
  lemma TeachLastsExactly(sched: Schedule, s: State)
    requires Reachable(sched, s) && s.mode == Teach && (sched == Serialised || NobodyQueues(s.threads))
    ensures (forall steps, e :: Exec(sched, s, steps) == Some(e) && NobodyEndsTeach(sched, s, steps) ==> e.mode == Teach)
       <==> !RunOwed(s)
  {
    if RunOwed(s) {
      U.ReachableInv(sched, s);
      var steps, e := OwedCompletes(sched, s);
    } else {
      if sched == Serialised { TeachMeansNoStart(s); }
      forall steps, e | Exec(sched, s, steps) == Some(e) && NobodyEndsTeach(sched, s, steps) ensures e.mode == Teach {
        RunLasts(sched, s, steps, e);
      }
    }
  }
}
