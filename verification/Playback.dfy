/**
  A replay that nobody stops plays its recording to the end, and every accepted start is answered
  by a signal that comes after it.
 */
module Playback {
  import opened EchoTypes
  import opened Machine
  import opened R = Replaying
  import M = Motion
  import U = Unrestricted
  import Release

  // When playback ends --------------------------------------------------------------------

  /** A test of should_stop with moves left to play that finds the mode other than REPLAY. */
  predicate Halts(s: State, step: Step) {
    step.Work? && s.worker.Playing? && s.worker.pl.Check? && s.worker.i < |s.worker.plan| && s.mode != Replay
  }

  predicate EndsPlayback(s: State, step: Step) {
    step.Work? && s.worker.Playing? && s.worker.pl.Check? && (s.worker.i == |s.worker.plan| || s.mode != Replay)
  }

  predicate Plays(s: State, step: Step) {
    step.Work? && s.worker.Playing? && s.worker.pl.PlayMove?
  }

  /** What a step leaves of a playback: it goes on at the same move or the next, or it ends. */
  predicate GoesOn(w: WorkerPC, w': WorkerPC, plays: bool, ends: bool)
    requires w.Playing?
  {
    if ends then w'.Finishing? && w'.dn.Complete?
    else w'.Playing? && w'.plan == w.plan && Done(w') == Done(w) + One(plays)
  }

  lemma PlayGoesOn(s: State, at: PlayAt, plan: seq<Move>, i: nat)
    requires s.worker == Playing(at, plan, i) && WorkEnabled(s) && U.Data(s)
    ensures GoesOn(s.worker, WorkPlay(s, at, plan, i).worker, at.PlayMove?, at.Check? && (i == |plan| || s.mode != Replay))
  {
    match at case Check => case PlayMove => case PlayNotify =>
  }

  lemma StepGoesOn(sched: Schedule, s: State, step: Step)
    requires U.Inv(s) && Enabled(sched, s, step) && s.worker.Playing?
    ensures GoesOn(s.worker, Next(sched, s, step).worker, Plays(s, step), EndsPlayback(s, step))
  {
    match step
    case Advance(t, delay, ok) => ActStill(s, At(s, t), delay, ok);
    case Work(ok) => PlayGoesOn(s, s.worker.pl, s.worker.plan, s.worker.i);
    case TimerStep(ok) => TimerIsStill(s, ok);
    case Enter(_, _) => case Interrupt(_) => case SetSpeed(_) => case Fire => case Begin =>
  }

  /** Under either schedule: a step takes a run out of its playback loop if and only if it tests
      whether to go on and finds all moves played or the mode other than REPLAY. */
  lemma PlaybackEndsExactly(sched: Schedule, s: State, step: Step)
    requires Reachable(sched, s) && Enabled(sched, s, step) && s.worker.Playing?
    ensures !Next(sched, s, step).worker.Playing? <==>
      step.Work? && s.worker.pl.Check? && (s.worker.i == |s.worker.plan| || s.mode != Replay)
  {
    U.ReachableInv(sched, s);
    StepGoesOn(sched, s, step);
  }

  // A run to its end ----------------------------------------------------------------------

  /** Nobody stops the run: each test with moves left finds REPLAY. */
  predicate NeverHalted(sched: Schedule, s: State, steps: seq<Step>)
    requires Exec(sched, s, steps).Some?
    decreases |steps|
  {
    steps != [] ==> !Halts(s, steps[0]) && NeverHalted(sched, Next(sched, s, steps[0]), steps[1..])
  }

  /** How many replayed moves reach a servo in a run. */
  function Played(sched: Schedule, s: State, steps: seq<Step>): nat
    requires Exec(sched, s, steps).Some?
    decreases |steps|
  {
    if steps == [] then 0
    else One(Plays(s, steps[0])) + Played(sched, Next(sched, s, steps[0]), steps[1..])
  }

  /** How many of the `n` moves a worker has yet to play; none once it is finishing. */
  function Left(w: WorkerPC, n: nat): int {
    if w.Snapping? then n else if w.Playing? then n - Done(w) else 0
  }

  /** The run took the recording `rec` and plays it. */
  predicate Holds(w: WorkerPC, fifo: seq<Move>, rec: seq<Move>) {
    match w
    case Snapping(at) => !at.Alloc? && (if at.CountRun? then at.moves == rec else U.Recording(w, fifo) == rec)
    case Playing(_, plan, _) => plan == rec && Done(w) <= |rec|
    case _ => true
  }

  lemma SnapHolds(s: State, at: SnapAt, ok: bool, rec: seq<Move>)
    requires Holds(s.worker, s.fifo, rec) && U.Data(s) && s.worker == Snapping(at) && WorkEnabled(s)
    ensures var s' := WorkSnap(s, at, ok); Holds(s'.worker, s'.fifo, rec) && Left(s'.worker, |rec|) == |rec| && !s'.worker.Finishing?
  {
    U.SnapKeepsRecording(s, at, ok);
    match at case Alloc => case Drain(_, _) => case PutBack(_, _) => case CountRun(_) =>
  }

  lemma PlayHolds(s: State, at: PlayAt, plan: seq<Move>, i: nat, rec: seq<Move>)
    requires Holds(s.worker, s.fifo, rec) && U.Data(s) && s.worker == Playing(at, plan, i) && WorkEnabled(s)
    ensures Counts(s, WorkPlay(s, at, plan, i), rec, at.PlayMove?, at.Check? && i < |plan| && s.mode != Replay)
  {
    PlayGoesOn(s, at, plan, i);
  }

  lemma WorkHolds(s: State, ok: bool, rec: seq<Move>)
    requires Holds(s.worker, s.fifo, rec) && U.Data(s) && WorkEnabled(s)
    ensures Counts(s, WorkNext(s, ok), rec, Plays(s, Work(ok)), Halts(s, Work(ok)))
  {
    match s.worker
    case Snapping(at) => SnapHolds(s, at, ok, rec);
    case Playing(at, plan, i) => PlayHolds(s, at, plan, i, rec);
    case Finishing(at) => match at case Complete(_) => case Signal => case Wake =>
  }

  /** From `s` to `s'` the run keeps its recording, and one move fewer is left if one was played; fewer
      still if, and only if, the run was halted. */
  predicate Counts(s: State, s': State, rec: seq<Move>, plays: bool, halts: bool) {
    && Holds(s'.worker, s'.fifo, rec)
    && Left(s'.worker, |rec|) + One(plays) <= Left(s.worker, |rec|)
    && (Left(s'.worker, |rec|) + One(plays) == Left(s.worker, |rec|) <==> !halts)
  }

  lemma CallCounts(s: State, t: Tid, delay: nat, ok: bool, rec: seq<Move>)
    requires Holds(s.worker, s.fifo, rec) && ActEnabled(s, At(s, t), delay, ok)
    ensures var (s', pc) := Act(s, At(s, t), delay, ok); Counts(s, Goto(s', t, pc), rec, false, false) && s'.h.begun == s.h.begun
  {
    ActStill(s, At(s, t), delay, ok);
  }

  lemma WorkCounts(s: State, ok: bool, rec: seq<Move>)
    requires U.Inv(s) && Holds(s.worker, s.fifo, rec) && WorkEnabled(s)
    ensures var s' := WorkNext(s, ok); Counts(s, s', rec, Plays(s, Work(ok)), Halts(s, Work(ok))) && s'.h.begun == s.h.begun
  {
    WorkIsStill(s, ok);
    WorkHolds(s, ok, rec);
  }

  lemma OthersCount(sched: Schedule, s: State, step: Step, rec: seq<Move>)
    requires Holds(s.worker, s.fifo, rec) && Enabled(sched, s, step) && !step.Advance? && !step.Work?
    ensures var s' := Next(sched, s, step); s'.h.begun > s.h.begun || (s'.h.begun == s.h.begun && Counts(s, s', rec, false, false))
  {
    if step.TimerStep? { TimerIsStill(s, step.ok); }
  }

  lemma StepCounts(sched: Schedule, s: State, step: Step, rec: seq<Move>)
    requires U.Inv(s) && Holds(s.worker, s.fifo, rec) && Enabled(sched, s, step)
    ensures var s' := Next(sched, s, step);
            s'.h.begun > s.h.begun || (s'.h.begun == s.h.begun && Counts(s, s', rec, Plays(s, step), Halts(s, step)))
  {
    match step
    case Advance(t, delay, ok) => CallCounts(s, t, delay, ok, rec);
    case Work(ok) => WorkCounts(s, ok, rec);
    case _ => OthersCount(sched, s, step, rec);
  }

  lemma {:induction false} RunCounts(sched: Schedule, s: State, steps: seq<Step>, e: State, rec: seq<Move>)
    requires U.Inv(s) && Holds(s.worker, s.fifo, rec) && Exec(sched, s, steps) == Some(e) && e.h.begun == s.h.begun
    ensures Played(sched, s, steps) + Left(e.worker, |rec|) <= Left(s.worker, |rec|)
    ensures Played(sched, s, steps) + Left(e.worker, |rec|) == Left(s.worker, |rec|) <==> NeverHalted(sched, s, steps)
    decreases |steps|
  {
    if steps != [] {
      var s' := Next(sched, s, steps[0]);
      U.StepKeeps(sched, s, steps[0]);
      StepCounts(sched, s, steps[0], rec);
      Release.BegunStepGrows(sched, s, steps[0]);
      Release.BegunGrows(sched, s', steps[1..], e);
      RunCounts(sched, s', steps[1..], e, rec);
    }
  }

  /** Under either schedule, from the moment a run takes the fifo's lock to its end: it plays at most
      the moves it found there, and all of them if and only if none of its tests, with moves left,
      finds the mode other than REPLAY. */
  lemma PlaysToTheEnd(sched: Schedule, s: State, steps: seq<Step>, e: State)
    requires Reachable(sched, s) && s.worker == Snapping(Drain([], |s.fifo|))
    requires Exec(sched, s, steps) == Some(e) && e.h.begun == s.h.begun && (e.worker.Finishing? || e.worker.Resting?)
    ensures Played(sched, s, steps) <= |s.fifo|
    ensures Played(sched, s, steps) == |s.fifo| <==> NeverHalted(sched, s, steps)
  {
    U.ReachableInv(sched, s);
    assert [] + s.fifo == s.fifo;
    RunCounts(sched, s, steps, e, s.fifo);
  }

  // Where the robot ends --------------------------------------------------------------------

  predicate Ended(s: State, rec: seq<Move>, p: Pose) {
    s.worker.Finishing? || s.worker.Resting? ==> s.pose == M.PlayAll(p, rec)
  }

  lemma PlayEnds(s: State, at: PlayAt, plan: seq<Move>, i: nat, p: Pose)
    requires s.worker == Playing(at, plan, i) && WorkEnabled(s) && i <= |plan| && (at.Check? ==> i == |plan| || s.mode == Replay)
    requires Done(s.worker) <= |plan| && s.pose == M.PlayAll(p, plan[..Done(s.worker)])
    ensures Ended(WorkPlay(s, at, plan, i), plan, p)
  {
    assert plan[..|plan|] == plan;
    match at case Check => case PlayMove => case PlayNotify =>
  }

  lemma WorkEnds(s: State, run: nat, rec: seq<Move>, p: Pose, ok: bool)
    requires U.Data(s) && Replays(s, run, rec, p) && s.h.begun == run && Ended(s, rec, p)
    requires WorkEnabled(s) && !Halts(s, Work(ok))
    ensures Ended(WorkNext(s, ok), rec, p)
  {
    match s.worker
    case Snapping(at) => SnapHolds(s, at, ok, rec);
    case Playing(at, plan, i) => PlayEnds(s, at, plan, i, p);
    case Finishing(at) => match at case Complete(_) => case Signal => case Wake =>
  }

  lemma StepEnds(sched: Schedule, s: State, step: Step, run: nat, rec: seq<Move>, p: Pose)
    requires U.Inv(s) && Replays(s, run, rec, p) && s.h.begun == run && Ended(s, rec, p)
    requires Enabled(sched, s, step) && !Halts(s, step) && (step.Advance? ==> !SetsServo(At(s, step.t)))
    ensures Next(sched, s, step).h.begun == run ==> Ended(Next(sched, s, step), rec, p)
  {
    match step
    case Advance(t, delay, ok) => ActStill(s, At(s, t), delay, ok);
    case Work(ok) => WorkEnds(s, run, rec, p, ok);
    case TimerStep(ok) => TimerIsStill(s, ok);
    case Enter(_, _) => case Interrupt(_) => case SetSpeed(_) => case Fire => case Begin =>
  }

  lemma {:induction false} RunEnds(sched: Schedule, s: State, steps: seq<Step>, e: State, rec: seq<Move>, p: Pose)
    requires U.Inv(s) && Replays(s, s.h.begun, rec, p) && Ended(s, rec, p)
    requires Exec(sched, s, steps) == Some(e) && e.h.begun == s.h.begun
    requires LeftAlone(sched, s, steps) && NeverHalted(sched, s, steps)
    ensures Ended(e, rec, p)
    decreases |steps|
  {
    if steps != [] {
      var s' := Next(sched, s, steps[0]);
      U.StepKeeps(sched, s, steps[0]);
      StepReplays(sched, s, steps[0], s.h.begun, rec, p);
      StepEnds(sched, s, steps[0], s.h.begun, rec, p);
      Release.BegunStepGrows(sched, s, steps[0]);
      Release.BegunGrows(sched, s', steps[1..], e);
      RunEnds(sched, s', steps[1..], e, rec, p);
    }
  }

  /** A run that is left alone and that nobody stops ends with every move of the recording it found
      played, and the robot where playing all of them from where it stood leaves it. */
  lemma ReplayIsComplete(sched: Schedule, s: State, steps: seq<Step>, e: State)
    requires Reachable(sched, s) && s.worker == Snapping(Drain([], |s.fifo|))
    requires Exec(sched, s, steps) == Some(e) && e.h.begun == s.h.begun && (e.worker.Finishing? || e.worker.Resting?)
    requires LeftAlone(sched, s, steps) && NeverHalted(sched, s, steps)
    ensures Played(sched, s, steps) == |s.fifo| && e.pose == M.PlayAll(s.pose, s.fifo)
  {
    PlaysToTheEnd(sched, s, steps, e);
    U.ReachableInv(sched, s);
    assert [] + s.fifo == s.fifo;
    RunEnds(sched, s, steps, e, s.fifo, s.pose);
  }

  // Answers -------------------------------------------------------------------------------

  lemma StepAnswers(sched: Schedule, s: State, step: Step)
    requires Enabled(sched, s, step)
    ensures Answers(s.h, Next(sched, s, step).h, IsSignal(s, step))
  {
    match step
    case Advance(t, delay, ok) => ActStill(s, At(s, t), delay, ok);
    case Work(ok) => WorkIsStill(s, ok);
    case TimerStep(ok) => TimerIsStill(s, ok);
    case Enter(_, _) => case Interrupt(_) => case SetSpeed(_) => case Fire => case Begin =>
  }

  lemma {:induction false} RunAnswers(sched: Schedule, s: State, steps: seq<Step>, e: State)
    requires Exec(sched, s, steps) == Some(e) && !s.h.answered && Signals(sched, s, steps) == 0
    ensures !e.h.answered
    decreases |steps|
  {
    if steps != [] {
      StepAnswers(sched, s, steps[0]);
      RunAnswers(sched, Next(sched, s, steps[0]), steps[1..], e);
    }
  }

  /** Under either schedule: from a step that accepts a start on, as long as no completion has been
      signalled, something is under way that will signal. */
  lemma AcceptedStartIsAnswered(sched: Schedule, s: State, step: Step, steps: seq<Step>, e: State)
    requires Reachable(sched, s) && Enabled(sched, s, step) && s.mode != Replay && Next(sched, s, step).mode == Replay
    requires Exec(sched, Next(sched, s, step), steps) == Some(e) && Signals(sched, Next(sched, s, step), steps) == 0
    ensures || e.pending
            || WorkerPreSignal(e.worker)
            || e.timer.TimerQueue?
            || exists t :: t in e.threads && (PreQueue(e.threads[t]) || PreSignal(e.threads[t]))
  {
    var s' := Next(sched, s, step);
    StepAnswers(sched, s, step);
    ReplayNeedsStart(sched, s, step);
    RunAnswers(sched, s', steps, e);
    assert ([step] + steps)[1..] == steps;
    StaysReachable(sched, s, [step] + steps, e);
    U.EveryStartIsAnswered(sched, e);
  }
}
