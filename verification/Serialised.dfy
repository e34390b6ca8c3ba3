/**
  What runs keep when control calls and joystick inputs do not overlap each other. The timer
  callback, the worker, readers and sleeping writers still interleave with them at every step.
 */
module Serialised {
  import opened EchoTypes
  import opened Machine
  import R = Replaying
  import U = Unrestricted

  // Who is in control ---------------------------------------------------------------------

  function Focus(pc: PC): PC {
    if InControl(pc) then pc else Outside
  }

  /** Where the one thread inside a control call stands; Outside if there is none. */
  function Control(s: State): PC {
    Focus(At(s, s.h.ctl))
  }

  predicate Sole(s: State) {
    forall t :: t in s.threads && InControl(s.threads[t]) ==> t == s.h.ctl
  }

  // The protocol --------------------------------------------------------------------------

  predicate StopBegun(c: PC) { (c.Stopping? && !c.stop.StopMode?) || c.Resetting? }

  predicate TimerStopped(c: PC) { (c.Stopping? && !c.stop.StopMode? && !c.stop.StopTimer?) || c.Resetting? }

  predicate WorkStopped(c: PC) {
    c.Resetting? || (c.Stopping? && (c.stop.StopSignal? || c.stop.StopWake? || c.stop.StopNotify?))
  }

  /** Mode REPLAY means that work is owed. */
  predicate NotStuck(s: State, c: PC) {
    s.mode == Replay ==> PreQueue(c) || s.timer.TimerQueue? || s.pending || WorkerPreComplete(s.worker)
  }

  predicate StopHolds(s: State, c: PC) {
    && (StopBegun(c) ==> s.mode == Idle)
    && (TimerStopped(c) ==> s.timer.Quiet? && !s.armed)
    && (InCancel(c) ==> !s.pending && s.h.begun == c.stop.run)
    && (WorkStopped(c) ==> s.h.quiet)
  }

  /** After a stop and before the next accepted start, nothing replays or is about to. */
  predicate QuietHolds(s: State, c: PC) {
    s.h.quiet ==> s.worker.Resting? && !s.pending && !s.timer.TimerQueue? && !PreQueue(c)
  }

  /** Mode TEACH means that the inactivity timer will end it. */
  predicate TeachHolds(s: State, c: PC) {
    && (s.mode == Teach ==> s.armed || s.timer.Fired? || ArmsLater(c))
    && (PreQueue(c) ==> s.mode != Teach)
  }

  predicate Protocol(s: State, c: PC) {
    NotStuck(s, c) && StopHolds(s, c) && QuietHolds(s, c) && TeachHolds(s, c)
  }

  predicate CancelSeen(s: State, c: PC) {
    Count(s.threads, Cancelling) > 0 ==> InCancel(c)
  }

  lemma StartProtocol(s: State, at: StartAt, w: bool, ok: bool)
    requires Protocol(s, Starting(at, w)) && CancelSeen(s, Starting(at, w)) && ActEnabled(s, Starting(at, w), 0, ok)
    ensures var (s', pc') := ActStart(s, at, w, ok); Protocol(s', Focus(pc'))
  {
    match at case StartCheck => case StartTimer => case StartQueue => case StartNotify =>
  }

  lemma StopProtocol(s: State, at: StopAt, w: bool)
    requires Protocol(s, Stopping(at, w)) && CancelSeen(s, Stopping(at, w)) && ActEnabled(s, Stopping(at, w), 0, true)
    ensures var (s', pc') := ActStop(s, at, w); Protocol(s', Focus(pc'))
  {
    match at
    case StopMode => case StopTimer => case CancelPending => case CancelWait(_) =>
    case StopSignal => case StopWake => case StopNotify =>
  }

  lemma ResetProtocol(s: State, at: ResetAt)
    requires Protocol(s, Resetting(at)) && CancelSeen(s, Resetting(at)) && ActEnabled(s, Resetting(at), 0, true)
    ensures var (s', pc') := ActReset(s, at); Protocol(s', Focus(pc'))
  {
    match at case ResetClear => case ResetServo(_) => case ResetNotify =>
  }

  lemma TeachProtocol(s: State, at: TeachAt)
    requires Protocol(s, Teaching(at)) && CancelSeen(s, Teaching(at)) && ActEnabled(s, Teaching(at), 0, true)
    ensures var (s', pc') := ActTeach(s, at); Protocol(s', Focus(pc'))
  {
    match at case TeachMode => case TeachClear => case TeachTotal => case TeachTimer => case TeachNotify =>
  }

  lemma MoveProtocol(s: State, at: MoveAt, ok: bool)
    requires Protocol(s, Moving(at)) && CancelSeen(s, Moving(at)) && ActEnabled(s, Moving(at), 0, ok)
    ensures var (s', pc') := ActMove(s, at, ok); Protocol(s', Focus(pc'))
  {
    match at case MoveSet(_, _) => case MoveNotify =>
  }

  lemma InputProtocol(s: State, at: InputAt, delay: nat)
    requires Protocol(s, Inputting(at)) && CancelSeen(s, Inputting(at)) && ActEnabled(s, Inputting(at), delay, true)
    ensures var (s', pc') := ActInput(s, at, delay); Protocol(s', Focus(pc'))
  {
    match at
    case InputMode(_, _) => case InputGet(_, _) => case InputMove(_, _) => case InputRecord(_, _) =>
    case InputTotal => case InputTimer => case InputNotify =>
  }

  lemma ActProtocol(s: State, c: PC, delay: nat, ok: bool)
    requires Protocol(s, c) && CancelSeen(s, c) && InControl(c) && ActEnabled(s, c, delay, ok)
    ensures var (s', pc') := Act(s, c, delay, ok); Protocol(s', Focus(pc'))
  {
    match c
    case Starting(at, w) => StartProtocol(s, at, w, ok);
    case Stopping(at, w) => StopProtocol(s, at, w);
    case Resetting(at) => ResetProtocol(s, at);
    case Teaching(at) => TeachProtocol(s, at);
    case Moving(at) => MoveProtocol(s, at, ok);
    case Inputting(at) => InputProtocol(s, at, delay);
    case ClearFinished =>
  }

  lemma TimerProtocol(s: State, c: PC, ok: bool)
    requires Protocol(s, c) && CancelSeen(s, c) && TimerEnabled(s, ok)
    ensures var s' := TimerNext(s, ok); Protocol(s', c)
  {
    match s.timer case Quiet => case Fired => case TimerQueue => case TimerNotify =>
  }

  lemma WorkProtocol(s: State, c: PC, ok: bool)
    requires Protocol(s, c) && CancelSeen(s, c) && WorkEnabled(s)
    ensures var s' := WorkNext(s, ok); Protocol(s', c)
  {
    R.WorkIsStill(s, ok);
  }

  // Completion ----------------------------------------------------------------------------

  /** Something is under way that will raise replay_finished. */
  predicate Owed(s: State, c: PC) {
    || s.pending
    || WorkerPreSignal(s.worker)
    || s.timer.TimerQueue?
    || PreQueue(c)
    || PreSignal(c)
    || (c.Starting? && c.start.StartCheck? && s.mode != Replay)
  }

  predicate Covered(s: State, c: PC) {
    s.finished || Owed(s, c)
  }

  /** A writer between clearing the flag and going to sleep is covered. */
  predicate WriterCovered(s: State, c: PC) {
    c.Starting? && c.writer ==> Covered(s, c)
  }

  predicate KeepsCovered(s: State, c: PC, s': State, c': PC) {
    (Covered(s, c) ==> Covered(s', c')) && (WriterCovered(s, c) ==> WriterCovered(s', c'))
  }

  lemma StartCovered(s: State, at: StartAt, w: bool, ok: bool)
    requires Protocol(s, Starting(at, w)) && CancelSeen(s, Starting(at, w)) && ActEnabled(s, Starting(at, w), 0, ok)
    ensures var (s', pc') := ActStart(s, at, w, ok); KeepsCovered(s, Starting(at, w), s', Focus(pc'))
  {
    match at case StartCheck => case StartTimer => case StartQueue => case StartNotify =>
  }

  lemma StopCovered(s: State, at: StopAt, w: bool)
    requires Protocol(s, Stopping(at, w)) && CancelSeen(s, Stopping(at, w)) && ActEnabled(s, Stopping(at, w), 0, true)
    ensures var (s', pc') := ActStop(s, at, w); KeepsCovered(s, Stopping(at, w), s', Focus(pc'))
  {
    match at
    case StopMode => case StopTimer => case CancelPending => case CancelWait(_) =>
    case StopSignal => case StopWake => case StopNotify =>
  }

  lemma ActCovered(s: State, c: PC, delay: nat, ok: bool)
    requires Protocol(s, c) && CancelSeen(s, c) && InControl(c) && ActEnabled(s, c, delay, ok)
    ensures var (s', pc') := Act(s, c, delay, ok); KeepsCovered(s, c, s', Focus(pc'))
  {
    match c
    case Starting(at, w) => StartCovered(s, at, w, ok);
    case Stopping(at, w) => StopCovered(s, at, w);
    case ClearFinished =>
    case _ => U.AsideBooks(s, c, delay, ok); R.ActStill(s, c, delay, ok);
  }

  lemma TimerCovered(s: State, c: PC, ok: bool)
    requires Protocol(s, c) && CancelSeen(s, c) && TimerEnabled(s, ok)
    ensures var s' := TimerNext(s, ok); KeepsCovered(s, c, s', c)
  {
    match s.timer case Quiet => case Fired => case TimerQueue => case TimerNotify =>
  }

  lemma WorkCovered(s: State, c: PC, ok: bool)
    requires Protocol(s, c) && CancelSeen(s, c) && WorkEnabled(s)
    ensures var s' := WorkNext(s, ok); KeepsCovered(s, c, s', c)
  {
    R.WorkIsStill(s, ok);
  }

  // What stop, reset and recording leave behind ---------------------------------------------

  /** Since the last stop wrote IDLE at most one move was replayed, and none is left to come. */
  predicate StopBarrier(c: PC, w: WorkerPC, quiet: bool, stopMoves: nat) {
    && (StopBegun(c) && !WorkStopped(c) ==>
          stopMoves == 0 || (stopMoves == 1 && !(w.Playing? && w.pl.PlayMove?)))
    && (quiet ==> stopMoves <= 1)
  }

  /** How far ioctl RESET has got. */
  predicate ResetHolds(c: PC, fifo: seq<Move>, pose: Pose) {
    c.Resetting? && !c.rst.ResetClear? ==>
      && fifo == []
      && (c.rst.ResetServo? && c.rst.k == 1 ==> pose.pan == CENTER && pose.tilt2 == CENTER)
      && (c.rst.ResetServo? && c.rst.k >= 2 ==> pose.pan == CENTER && pose.tilt == CENTER && pose.tilt2 == CENTER)
      && (c.rst.ResetNotify? ==> pose == CENTRED)
  }

  /** The recording holds the counted moves: all of them, as long as no RESET emptied it. */
  predicate Accounted(c: PC, kept: nat, total: nat, clean: bool) {
    var counted := total + One(c == Inputting(InputTotal));
    if c == Teaching(TeachTotal) then kept == 0
    else kept <= Min(counted, FIFO_SIZE) && (clean ==> kept == Min(counted, FIFO_SIZE))
  }

  predicate Effects(s: State, c: PC) {
    && StopBarrier(c, s.worker, s.h.quiet, s.h.stopMoves)
    && ResetHolds(c, s.fifo, s.pose)
    && Accounted(c, |U.Recording(s.worker, s.fifo)|, s.total, s.h.clean)
  }

  lemma StartEffects(s: State, at: StartAt, w: bool, ok: bool)
    requires Effects(s, Starting(at, w)) && Protocol(s, Starting(at, w)) && U.Data(s) && U.GoodPlace(Starting(at, w)) && ActEnabled(s, Starting(at, w), 0, ok)
    ensures var (s', pc') := ActStart(s, at, w, ok); Effects(s', Focus(pc'))
  {
    match at case StartCheck => case StartTimer => case StartQueue => case StartNotify =>
  }

  lemma StopEffects(s: State, at: StopAt, w: bool)
    requires Effects(s, Stopping(at, w)) && Protocol(s, Stopping(at, w)) && U.Data(s) && U.GoodPlace(Stopping(at, w)) && ActEnabled(s, Stopping(at, w), 0, true)
    ensures var (s', pc') := ActStop(s, at, w); Effects(s', Focus(pc'))
  {
    match at
    case StopMode => case StopTimer => case CancelPending => case CancelWait(_) =>
    case StopSignal => case StopWake => case StopNotify =>
  }

  lemma ResetEffects(s: State, at: ResetAt)
    requires Effects(s, Resetting(at)) && Protocol(s, Resetting(at)) && U.Data(s) && U.GoodPlace(Resetting(at)) && ActEnabled(s, Resetting(at), 0, true)
    ensures var (s', pc') := ActReset(s, at); Effects(s', Focus(pc'))
  {
    match at case ResetClear => case ResetServo(_) => case ResetNotify =>
  }

  lemma TeachEffects(s: State, at: TeachAt)
    requires Effects(s, Teaching(at)) && Protocol(s, Teaching(at)) && U.Data(s) && U.GoodPlace(Teaching(at)) && ActEnabled(s, Teaching(at), 0, true)
    ensures var (s', pc') := ActTeach(s, at); Effects(s', Focus(pc'))
  {
    match at case TeachMode => case TeachClear => case TeachTotal => case TeachTimer => case TeachNotify =>
  }

  lemma MoveEffects(s: State, at: MoveAt, ok: bool)
    requires Effects(s, Moving(at)) && Protocol(s, Moving(at)) && U.Data(s) && U.GoodPlace(Moving(at)) && ActEnabled(s, Moving(at), 0, ok)
    ensures var (s', pc') := ActMove(s, at, ok); Effects(s', Focus(pc'))
  {
    match at case MoveSet(_, _) => case MoveNotify =>
  }

  lemma InputEffects(s: State, at: InputAt, delay: nat)
    requires Effects(s, Inputting(at)) && Protocol(s, Inputting(at)) && U.Data(s) && U.GoodPlace(Inputting(at)) && ActEnabled(s, Inputting(at), delay, true)
    ensures var (s', pc') := ActInput(s, at, delay); Effects(s', Focus(pc'))
  {
    match at
    case InputMode(_, _) => case InputGet(_, _) => case InputMove(_, _) => case InputRecord(_, _) =>
    case InputTotal => case InputTimer => case InputNotify =>
  }

  lemma ActEffects(s: State, c: PC, delay: nat, ok: bool)
    requires Effects(s, c) && Protocol(s, c) && U.Data(s) && U.GoodPlace(c) && InControl(c) && ActEnabled(s, c, delay, ok)
    ensures var (s', pc') := Act(s, c, delay, ok); Effects(s', Focus(pc'))
  {
    match c
    case Starting(at, w) => StartEffects(s, at, w, ok);
    case Stopping(at, w) => StopEffects(s, at, w);
    case Resetting(at) => ResetEffects(s, at);
    case Teaching(at) => TeachEffects(s, at);
    case Moving(at) => MoveEffects(s, at, ok);
    case Inputting(at) => InputEffects(s, at, delay);
    case ClearFinished =>
  }

  /** A change that neither moves a servo nor adds to or takes from the recording. */
  predicate SameEffects(s: State, s': State) {
    && |U.Recording(s'.worker, s'.fifo)| == |U.Recording(s.worker, s.fifo)|
    && s'.pose == s.pose && s'.total == s.total
    && s'.h.clean == s.h.clean && s'.h.stopMoves == s.h.stopMoves
    && (s'.h.quiet ==> s.h.quiet)
    && (s'.worker == s.worker || !(s'.worker.Playing? && s'.worker.pl.PlayMove?))
  }

  lemma SameEffectsKeep(s: State, s': State, c: PC)
    requires Effects(s, c) && SameEffects(s, s') && (c.Resetting? ==> s'.fifo == s.fifo)
    ensures Effects(s', c)
  {
  }

  lemma TimerEffects(s: State, c: PC, ok: bool)
    requires Effects(s, c) && TimerEnabled(s, ok)
    ensures var s' := TimerNext(s, ok); Effects(s', c)
  {
    assert SameEffects(s, TimerNext(s, ok));
    SameEffectsKeep(s, TimerNext(s, ok), c);
  }

  lemma SnapHasNoEffects(s: State, at: SnapAt, ok: bool)
    requires U.Data(s) && s.worker == Snapping(at) && WorkEnabled(s)
    ensures SameEffects(s, WorkSnap(s, at, ok))
  {
    U.SnapKeepsRecording(s, at, ok);
  }

  lemma SnapEffects(s: State, c: PC, at: SnapAt, ok: bool)
    requires Effects(s, c) && Protocol(s, c) && U.Data(s) && s.worker == Snapping(at) && WorkEnabled(s)
    ensures var s' := WorkSnap(s, at, ok); Effects(s', c)
  {
    SnapHasNoEffects(s, at, ok);
    SameEffectsKeep(s, WorkSnap(s, at, ok), c);
  }

  lemma PlayEffects(s: State, c: PC, at: PlayAt, plan: seq<Move>, i: nat)
    requires Effects(s, c) && Protocol(s, c) && U.Data(s) && U.GoodPlace(c) && s.worker == Playing(at, plan, i) && WorkEnabled(s)
    ensures var s' := WorkPlay(s, at, plan, i); Effects(s', c)
  {
    var s' := WorkPlay(s, at, plan, i);
    assert s'.fifo == s.fifo && U.Recording(s'.worker, s'.fifo) == U.Recording(s.worker, s.fifo) == s.fifo;
    if at.PlayMove? { assert !c.Resetting? && GoodMove(plan[i]); }
  }

  lemma DoneEffects(s: State, c: PC, at: DoneAt)
    requires Effects(s, c) && Protocol(s, c) && U.Data(s) && U.GoodPlace(c) && s.worker == Finishing(at) && WorkEnabled(s)
    ensures var s' := WorkDone(s, at); Effects(s', c)
  {
    match at case Complete(_) => case Signal => case Wake =>
  }

  lemma WorkEffects(s: State, c: PC, ok: bool)
    requires Effects(s, c) && Protocol(s, c) && U.Data(s) && U.GoodPlace(c) && WorkEnabled(s)
    ensures var s' := WorkNext(s, ok); Effects(s', c)
  {
    match s.worker
    case Snapping(at) => SnapEffects(s, c, at, ok);
    case Playing(at, plan, i) => PlayEffects(s, c, at, plan, i);
    case Finishing(at) => DoneEffects(s, c, at);
  }

  // The invariant -------------------------------------------------------------------------

  predicate Awaited(s: State, c: PC) {
    && WriterCovered(s, c)
    && forall t :: t in s.threads && s.threads[t].Asleep? ==> Covered(s, c)
  }

  predicate Held(s: State, c: PC) {
    Protocol(s, c) && Awaited(s, c) && Effects(s, c)
  }

  predicate Inv(s: State) {
    U.Inv(s) && Sole(s) && Held(s, Control(s))
  }

  /** What a step has to show beside the invariant of unrestricted runs. */
  predicate HoldsAfter(s: State, step: Step)
    requires Enabled(Serialised, s, step)
  {
    var s' := Next(Serialised, s, step);
    && Sole(s')
    && Held(s', Control(s'))
    && (Covered(s, Control(s)) ==> Covered(s', Control(s')))
  }

  lemma CancelIsSeen(s: State)
    requires Sole(s)
    ensures CancelSeen(s, Control(s))
  {
    CountZero(s.threads, Cancelling);
  }

  lemma AfterGoto(s: State, s1: State, t: Tid, pc: PC)
    requires Sole(s) && s1.threads == s.threads && s1.h.ctl == s.h.ctl
    requires t == s.h.ctl || !InControl(pc)
    ensures var s' := Goto(s1, t, pc);
            Sole(s') && Control(s') == (if t == s.h.ctl then Focus(pc) else Control(s))
  {
  }

  lemma GotoHolds(s: State, t: Tid, pc: PC, c: PC)
    requires Protocol(s, c) && WriterCovered(s, c) && Effects(s, c)
    ensures var s' := Goto(s, t, pc); Protocol(s', c) && WriterCovered(s', c) && Effects(s', c)
    ensures Covered(Goto(s, t, pc), c) == Covered(s, c)
  {
  }

  lemma ControlActs(s: State, c: PC, delay: nat, ok: bool)
    requires U.Data(s) && U.GoodPlace(c) && Held(s, c) && CancelSeen(s, c) && InControl(c) && ActEnabled(s, c, delay, ok)
    ensures var (s', pc') := Act(s, c, delay, ok);
            && Protocol(s', Focus(pc')) && Effects(s', Focus(pc'))
            && KeepsCovered(s, c, s', Focus(pc'))
  {
    ActProtocol(s, c, delay, ok);
    ActCovered(s, c, delay, ok);
    ActEffects(s, c, delay, ok);
  }

  lemma OnlyCoveredSleep(s: State, c: PC, delay: nat, ok: bool)
    requires WriterCovered(s, c) && InControl(c) && ActEnabled(s, c, delay, ok)
    ensures Act(s, c, delay, ok).1.Asleep? ==> Covered(s, c)
  {
  }

  lemma ControlAdvances(s: State, t: Tid, delay: nat, ok: bool)
    requires Inv(s) && Enabled(Serialised, s, Advance(t, delay, ok)) && InControl(At(s, t))
    ensures HoldsAfter(s, Advance(t, delay, ok))
  {
    var c := At(s, t);
    var (s1, pc) := Act(s, c, delay, ok);
    U.ActData(s, c, delay, ok);
    CancelIsSeen(s);
    ControlIsGood(s);
    ControlActs(s, c, delay, ok);
    AfterGoto(s, s1, t, pc);
    GotoHolds(s1, t, pc, Focus(pc));
    OnlyCoveredSleep(s, c, delay, ok);
  }

  /** A change to nothing but the readers' flag and their bookkeeping. */
  predicate OnlyReaders(s: State, s': State) {
    s' == s.(newData := s'.newData, h := s.h.(clears := s'.h.clears, last := s'.h.last, silent := s'.h.silent))
  }

  lemma ReadsTouchReaders(s: State, at: ReadAt)
    ensures var (s', pc) := ActRead(s, at); OnlyReaders(s, s') && (pc.Outside? || pc.Reading?)
  {
    match at
    case ReadTest => assert OnlyReaders(s, s);
    case ReadWait => assert OnlyReaders(s, s);
    case ReadClear =>
    case ReadField(k, snap, gen) => assert OnlyReaders(s, s);
  }

  lemma BystanderActs(s: State, pc: PC, delay: nat, ok: bool)
    requires !InControl(pc) && ActEnabled(s, pc, delay, ok)
    ensures var (s', pc') := Act(s, pc, delay, ok);
            OnlyReaders(s, s') && U.SameFrame(s, s') && (pc'.Outside? || pc'.Reading?)
  {
    if pc.Reading? { ReadsTouchReaders(s, pc.rd); }
  }

  lemma OnlyReadersHold(s: State, s1: State, t: Tid, pc: PC, c: PC)
    requires Held(s, c) && OnlyReaders(s, s1) && !pc.Asleep?
    ensures Held(Goto(s1, t, pc), c)
    ensures Covered(Goto(s1, t, pc), c) == Covered(s, c)
  {
    var s' := Goto(s1, t, pc);
    assert Protocol(s', c) && Covered(s', c) == Covered(s, c) && Effects(s', c);
  }

  lemma BystanderAdvances(s: State, t: Tid, delay: nat, ok: bool)
    requires Inv(s) && Enabled(Serialised, s, Advance(t, delay, ok)) && !InControl(At(s, t))
    ensures HoldsAfter(s, Advance(t, delay, ok))
  {
    var (s1, pc) := Act(s, At(s, t), delay, ok);
    BystanderActs(s, At(s, t), delay, ok);
    AfterGoto(s, s1, t, pc);
    OnlyReadersHold(s, s1, t, pc, Control(s));
  }

  lemma EntryHolds(s: State, t: Tid, call: Call)
    requires Held(s, Outside) && !call.Read?
    ensures Held(Goto(s, t, EntryPoint(call)).(h := s.h.(ctl := t)), EntryPoint(call))
    ensures Covered(s, Outside) ==> Covered(Goto(s, t, EntryPoint(call)).(h := s.h.(ctl := t)), EntryPoint(call))
  {
    var s', c := Goto(s, t, EntryPoint(call)).(h := s.h.(ctl := t)), EntryPoint(call);
    assert Protocol(s', c) && WriterCovered(s', c) && (Covered(s, Outside) ==> Covered(s', c)) && Effects(s', c);
  }

  lemma ControlEnters(s: State, t: Tid, call: Call)
    requires Inv(s) && Enabled(Serialised, s, Enter(t, call)) && !call.Read?
    ensures HoldsAfter(s, Enter(t, call))
  {
    var s' := Next(Serialised, s, Enter(t, call));
    CountZero(s.threads, Controlling);
    assert InControl(EntryPoint(call)) && Control(s) == Outside;
    assert s' == Goto(s, t, EntryPoint(call)).(h := s.h.(ctl := t));
    EntryHolds(s, t, call);
  }

  lemma ReaderEnters(s: State, t: Tid, call: Call)
    requires Inv(s) && Enabled(Serialised, s, Enter(t, call)) && call.Read?
    ensures HoldsAfter(s, Enter(t, call))
  {
    BystanderMoves(s, t, EntryPoint(call));
  }

  lemma BystanderMoves(s: State, t: Tid, pc: PC)
    requires Inv(s) && !InControl(At(s, t)) && !InControl(pc) && !pc.Asleep?
    ensures var s' := Goto(s, t, pc);
            Sole(s') && Held(s', Control(s')) && Control(s') == Control(s)
            && Covered(s', Control(s)) == Covered(s, Control(s))
  {
    AfterGoto(s, s, t, pc);
    OnlyReadersHold(s, s, t, pc, Control(s));
  }

  lemma SameFrameHolds(s: State, s': State)
    requires Sole(s) && U.SameFrame(s, s')
    ensures Sole(s') && Control(s') == Control(s)
  {
  }

  lemma ControlIsGood(s: State)
    requires U.Inv(s)
    ensures U.GoodPlace(Control(s))
  {
  }

  lemma TimerHolds(s: State, ok: bool)
    requires Inv(s) && TimerEnabled(s, ok)
    ensures HoldsAfter(s, TimerStep(ok))
  {
    var c := Control(s);
    CancelIsSeen(s);
    U.TimerData(s, ok);
    TimerProtocol(s, c, ok);
    TimerCovered(s, c, ok);
    TimerEffects(s, c, ok);
    SameFrameHolds(s, TimerNext(s, ok));
  }

  lemma WorkHolds(s: State, ok: bool)
    requires Inv(s) && WorkEnabled(s)
    ensures HoldsAfter(s, Work(ok))
  {
    var c := Control(s);
    CancelIsSeen(s);
    ControlIsGood(s);
    U.WorkData(s, ok);
    WorkProtocol(s, c, ok);
    WorkCovered(s, c, ok);
    WorkEffects(s, c, ok);
    SameFrameHolds(s, WorkNext(s, ok));
  }

  lemma OthersHold(s: State, step: Step)
    requires Inv(s) && Enabled(Serialised, s, step) && (step.SetSpeed? || step.Fire? || step.Begin?)
    ensures HoldsAfter(s, step)
  {
    var s', c := Next(Serialised, s, step), Control(s);
    SameFrameHolds(s, s');
    assert Protocol(s', c) && (Covered(s, c) ==> Covered(s', c)) && Effects(s', c);
  }

  lemma StepHolds(s: State, step: Step)
    requires Inv(s) && Enabled(Serialised, s, step)
    ensures HoldsAfter(s, step)
  {
    match step
    case Enter(t, call) => if call.Read? { ReaderEnters(s, t, call); } else { ControlEnters(s, t, call); }
    case Advance(t, delay, ok) =>
      if InControl(At(s, t)) { ControlAdvances(s, t, delay, ok); } else { BystanderAdvances(s, t, delay, ok); }
    case Interrupt(t) => BystanderMoves(s, t, Outside);
    case SetSpeed(speed) => OthersHold(s, step);
    case Fire => OthersHold(s, step);
    case TimerStep(ok) => TimerHolds(s, ok);
    case Begin => OthersHold(s, step);
    case Work(ok) => WorkHolds(s, ok);
  }

  lemma StepKeeps(s: State, step: Step)
    requires Inv(s) && Enabled(Serialised, s, step)
    ensures Inv(Next(Serialised, s, step))
  {
    U.StepKeeps(Serialised, s, step);
    StepHolds(s, step);
  }

  lemma {:induction false} RunKeeps(s0: State, steps: seq<Step>, s: State)
    requires Inv(s0) && Exec(Serialised, s0, steps) == Some(s)
    ensures Inv(s)
    decreases |steps|
  {
    if steps != [] {
      StepKeeps(s0, steps[0]);
      RunKeeps(Next(Serialised, s0, steps[0]), steps[1..], s);
    }
  }

  lemma InitInv(s: State)
    requires Initial(s)
    ensures Inv(s)
  {
    U.InitInv(s);
    assert Control(s) == Outside;
    assert U.Recording(s.worker, s.fifo) == [];
  }

  lemma ReachableInv(s: State)
    requires Reachable(Serialised, s)
    ensures Inv(s)
  {
    var s0, steps :| Initial(s0) && Exec(Serialised, s0, steps) == Some(s);
    InitInv(s0);
    RunKeeps(s0, steps, s);
  }
}
