/** When exactly a single step takes away what would end mode REPLAY, or mode TEACH. */
module Exactly {
  import opened EchoTypes
  import opened Machine
  import R = Replaying
  import U = Unrestricted

  // Mode REPLAY ----------------------------------------------------------------------------

  /** Mode REPLAY with nothing left to end it. */
  predicate Stuck(s: State) {
    StuckWith(s, Count(s.threads, BeforeQueue))
  }

  // When a step leaves the mode stuck --------------------------------------------------------

  predicate StuckWith(s: State, n: nat) {
    s.mode == Replay && !s.pending && !WorkerPreComplete(s.worker) && !s.timer.TimerQueue? && n == 0
  }

  predicate PreQueues(n: nat, pc: PC) { One(PreQueue(pc)) <= n }

  function Starters(n: nat, pc: PC, pc': PC): nat
    requires PreQueues(n, pc)
  {
    n - One(PreQueue(pc)) + One(PreQueue(pc'))
  }

  /** A caller's step that takes the last work owed away while the mode is REPLAY: a stop that
      cancels pending work, or a start whose queue_work is lost inside somebody's cancel. */
  predicate Breaks(s: State, n: nat, pc: PC, ok: bool) {
    && s.mode == Replay && !WorkerPreComplete(s.worker) && !s.timer.TimerQueue?
    && ((pc.Stopping? && pc.stop.CancelPending? && s.pending && n == 0)
        || (pc.Starting? && pc.start.StartQueue? && !ok && !s.pending && n == 1))
  }

  lemma StartSticks(s: State, n: nat, at: StartAt, w: bool, ok: bool)
    requires !StuckWith(s, n) && PreQueues(n, Starting(at, w)) && ActEnabled(s, Starting(at, w), 0, ok)
    ensures var (s', pc') := ActStart(s, at, w, ok); s'.threads == s.threads && StuckWith(s', Starters(n, Starting(at, w), pc')) == Breaks(s, n, Starting(at, w), ok)
  {
    match at case StartCheck => case StartTimer => case StartQueue => case StartNotify =>
  }

  lemma StopSticks(s: State, n: nat, at: StopAt, w: bool)
    requires !StuckWith(s, n) && PreQueues(n, Stopping(at, w)) && ActEnabled(s, Stopping(at, w), 0, true)
    ensures var (s', pc') := ActStop(s, at, w); s'.threads == s.threads && StuckWith(s', Starters(n, Stopping(at, w), pc')) == Breaks(s, n, Stopping(at, w), true)
  {
    match at
    case StopMode => case StopTimer => case CancelPending => case CancelWait(_) =>
    case StopSignal => case StopWake => case StopNotify =>
  }

  lemma ActSticks(s: State, n: nat, pc: PC, delay: nat, ok: bool)
    requires !StuckWith(s, n) && PreQueues(n, pc) && ActEnabled(s, pc, delay, ok)
    ensures var (s', pc') := Act(s, pc, delay, ok); s'.threads == s.threads && StuckWith(s', Starters(n, pc, pc')) == Breaks(s, n, pc, ok)
  {
    match pc
    case Starting(at, w) => StartSticks(s, n, at, w, ok);
    case Stopping(at, w) => StopSticks(s, n, at, w);
    case ClearFinished =>
    case _ => R.ActStill(s, pc, delay, ok); U.AsideBooks(s, pc, delay, ok);
  }

  /** Unserialised, a step leaves the mode stuck in REPLAY if and only if it cancels the last work
      owed while the mode is REPLAY, or its queue_work is the last work owed and is lost. */
  lemma StuckExactly(s: State, step: Step)
    requires Enabled(Unrestricted, s, step) && !Stuck(s)
    ensures Stuck(Next(Unrestricted, s, step)) <==>
      var n := Count(s.threads, BeforeQueue);
      (step.Advance? && Breaks(s, n, At(s, step.t), step.ok))
      || (step.TimerStep? && s.timer.TimerQueue? && !step.ok
          && s.mode == Replay && !s.pending && !WorkerPreComplete(s.worker) && n == 0)
  {
    var n := Count(s.threads, BeforeQueue);
    match step
    case Advance(t, delay, ok) => CallSticks(s, t, delay, ok);
    case Enter(t, call) => CountGoto(s.threads, t, EntryPoint(call), BeforeQueue);
    case Interrupt(t) => CountGoto(s.threads, t, Outside, BeforeQueue);
    case TimerStep(ok) => TimerSticks(s, n, ok);
    case Work(ok) => R.WorkIsStill(s, ok);
    case SetSpeed(_) => case Fire => case Begin =>
  }

  lemma CallSticks(s: State, t: Tid, delay: nat, ok: bool)
    requires Enabled(Unrestricted, s, Advance(t, delay, ok)) && !Stuck(s)
    ensures Stuck(Next(Unrestricted, s, Advance(t, delay, ok))) == Breaks(s, Count(s.threads, BeforeQueue), At(s, t), ok)
  {
    var (s1, pc) := Act(s, At(s, t), delay, ok);
    CountGoto(s.threads, t, pc, BeforeQueue);
    ActSticks(s, Count(s.threads, BeforeQueue), At(s, t), delay, ok);
  }

  lemma TimerSticks(s: State, n: nat, ok: bool)
    requires !StuckWith(s, n) && TimerEnabled(s, ok)
    ensures StuckWith(TimerNext(s, ok), n) ==
            (s.timer.TimerQueue? && !ok && s.mode == Replay && !s.pending && !WorkerPreComplete(s.worker) && n == 0)
    ensures TimerNext(s, ok).threads == s.threads
  {
    match s.timer case Quiet => case Fired => case TimerQueue => case TimerNotify =>
  }

  // Mode TEACH with nothing left to end it ---------------------------------------------------

  /** Mode TEACH with the inactivity timer off and nobody about to arm it. */
  predicate Abandoned(s: State) {
    AbandonedWith(s.mode, s.armed, s.timer, Count(s.threads, Arming))
  }

  predicate AbandonedWith(mode: Mode, armed: bool, timer: TimerPC, n: nat) {
    mode == Teach && !armed && !timer.Fired? && n == 0
  }

  predicate Arms(n: nat, pc: PC) { One(ArmsLater(pc)) <= n }

  function Armers(n: nat, pc: PC, pc': PC): nat
    requires Arms(n, pc)
  {
    n - One(ArmsLater(pc)) + One(ArmsLater(pc'))
  }

  /** A start or a stop is about to switch the timer off although the mode is TEACH again. */
  predicate Disarms(mode: Mode, n: nat, pc: PC) {
    && mode == Teach && n == 0
    && ((pc.Starting? && pc.start.StartTimer?) || (pc.Stopping? && pc.stop.StopTimer?))
  }

  lemma StartAbandons(s: State, n: nat, at: StartAt, w: bool, ok: bool)
    requires !AbandonedWith(s.mode, s.armed, s.timer, n) && Arms(n, Starting(at, w)) && ActEnabled(s, Starting(at, w), 0, ok)
    ensures var (s', pc') := ActStart(s, at, w, ok);
            s'.threads == s.threads && AbandonedWith(s'.mode, s'.armed, s'.timer, Armers(n, Starting(at, w), pc')) == Disarms(s.mode, n, Starting(at, w))
  {
    match at case StartCheck => case StartTimer => case StartQueue => case StartNotify =>
  }

  lemma StopAbandons(s: State, n: nat, at: StopAt, w: bool)
    requires !AbandonedWith(s.mode, s.armed, s.timer, n) && Arms(n, Stopping(at, w)) && ActEnabled(s, Stopping(at, w), 0, true)
    ensures var (s', pc') := ActStop(s, at, w);
            s'.threads == s.threads && AbandonedWith(s'.mode, s'.armed, s'.timer, Armers(n, Stopping(at, w), pc')) == Disarms(s.mode, n, Stopping(at, w))
  {
    match at
    case StopMode => case StopTimer => case CancelPending => case CancelWait(_) =>
    case StopSignal => case StopWake => case StopNotify =>
  }

  lemma TeachAbandons(s: State, n: nat, at: TeachAt)
    requires !AbandonedWith(s.mode, s.armed, s.timer, n) && Arms(n, Teaching(at)) && ActEnabled(s, Teaching(at), 0, true)
    ensures var (s', pc') := ActTeach(s, at);
            s'.threads == s.threads && AbandonedWith(s'.mode, s'.armed, s'.timer, Armers(n, Teaching(at), pc')) == Disarms(s.mode, n, Teaching(at))
  {
    match at case TeachMode => case TeachClear => case TeachTotal => case TeachTimer => case TeachNotify =>
  }

  lemma InputAbandons(s: State, n: nat, at: InputAt, delay: nat)
    requires !AbandonedWith(s.mode, s.armed, s.timer, n) && Arms(n, Inputting(at)) && ActEnabled(s, Inputting(at), delay, true)
    ensures var (s', pc') := ActInput(s, at, delay);
            s'.threads == s.threads && AbandonedWith(s'.mode, s'.armed, s'.timer, Armers(n, Inputting(at), pc')) == Disarms(s.mode, n, Inputting(at))
  {
    match at
    case InputMode(_, _) => case InputGet(_, _) => case InputMove(_, _) => case InputRecord(_, _) =>
    case InputTotal => case InputTimer => case InputNotify =>
  }

  lemma ActAbandons(s: State, n: nat, pc: PC, delay: nat, ok: bool)
    requires !AbandonedWith(s.mode, s.armed, s.timer, n) && Arms(n, pc) && ActEnabled(s, pc, delay, ok)
    ensures var (s', pc') := Act(s, pc, delay, ok);
            s'.threads == s.threads && AbandonedWith(s'.mode, s'.armed, s'.timer, Armers(n, pc, pc')) == Disarms(s.mode, n, pc)
  {
    match pc
    case Starting(at, w) => StartAbandons(s, n, at, w, ok);
    case Stopping(at, w) => StopAbandons(s, n, at, w);
    case Teaching(at) => TeachAbandons(s, n, at);
    case Inputting(at) => InputAbandons(s, n, at, delay);
    case ClearFinished =>
    case Asleep =>
    case _ => R.ActStill(s, pc, delay, ok);
  }

  lemma CallAbandons(s: State, t: Tid, delay: nat, ok: bool)
    requires Enabled(Unrestricted, s, Advance(t, delay, ok)) && !Abandoned(s)
    ensures Abandoned(Next(Unrestricted, s, Advance(t, delay, ok))) == Disarms(s.mode, Count(s.threads, Arming), At(s, t))
  {
    var (s1, pc) := Act(s, At(s, t), delay, ok);
    CountGoto(s.threads, t, pc, Arming);
    ActAbandons(s, Count(s.threads, Arming), At(s, t), delay, ok);
  }

  lemma TimerAbandons(s: State, n: nat, ok: bool)
    requires !AbandonedWith(s.mode, s.armed, s.timer, n) && TimerEnabled(s, ok)
    ensures !AbandonedWith(TimerNext(s, ok).mode, TimerNext(s, ok).armed, TimerNext(s, ok).timer, n) && TimerNext(s, ok).threads == s.threads
  {
    match s.timer case Quiet => case Fired => case TimerQueue => case TimerNotify =>
  }

  /** Unserialised, a step abandons TEACH if and only if a start or a stop switches the timer off
      while the mode is TEACH again and nobody is about to arm it. */
  lemma AbandonedExactly(s: State, step: Step)
    requires Enabled(Unrestricted, s, step) && !Abandoned(s)
    ensures Abandoned(Next(Unrestricted, s, step)) <==>
      step.Advance? && Disarms(s.mode, Count(s.threads, Arming), At(s, step.t))
  {
    var n := Count(s.threads, Arming);
    match step
    case Advance(t, delay, ok) => CallAbandons(s, t, delay, ok);
    case Enter(t, call) => CountGoto(s.threads, t, EntryPoint(call), Arming);
    case Interrupt(t) => CountGoto(s.threads, t, Outside, Arming);
    case TimerStep(ok) => TimerAbandons(s, n, ok);
    case Work(ok) => R.WorkIsStill(s, ok);
    case SetSpeed(_) => case Fire => case Begin =>
  }

  // The end of TEACH ------------------------------------------------------------------------

  /** Under either schedule a step ends TEACH if and only if it is an accepted start, a stop, the
      timer, or the completion of a run that was under way all the while. */
  lemma TeachEndsExactly(sched: Schedule, s: State, step: Step)
    requires Enabled(sched, s, step) && s.mode == Teach
    ensures Next(sched, s, step).mode != Teach <==>
      || (step.Advance? && R.LeavesTeach(At(s, step.t)))
      || (step.TimerStep? && s.timer.Fired?)
      || (step.Work? && s.worker.Finishing? && s.worker.dn.Complete?)
  {
    match step
    case Advance(t, delay, ok) => R.ActStill(s, At(s, t), delay, ok);
    case Work(ok) => R.WorkIsStill(s, ok);
    case TimerStep(ok) => R.TimerIsStill(s, ok);
    case Enter(_, _) => case Interrupt(_) => case SetSpeed(_) => case Fire => case Begin =>
  }
}
