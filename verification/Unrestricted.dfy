/**
  What every run keeps when nothing is serialised: any number of control calls, joystick
  inputs and reads overlap each other, the timer callback and the worker.
 */
module Unrestricted {
  import opened EchoTypes
  import opened Machine

  // How the threads are spread ------------------------------------------------------------

  /** How many threads stand at each kind of place the invariants speak of. */
  datatype Tally = Tally(preQueue: int, preSignal: int, inCancel: int, owing: int)

  function TallyOf(m: map<Tid, PC>): Tally {
    Tally(Count(m, BeforeQueue), Count(m, BeforeSignal), Count(m, Cancelling), Count(m, Owing))
  }

  /** The tally after one thread goes from `a` to `b`. */
  function Moved(k: Tally, a: PC, b: PC): Tally {
    Tally(k.preQueue - One(PreQueue(a)) + One(PreQueue(b)),
          k.preSignal - One(PreSignal(a)) + One(PreSignal(b)),
          k.inCancel - One(InCancel(a)) + One(InCancel(b)),
          k.owing - One(Owes(a)) + One(Owes(b)))
  }

  /** `k` can be the tally of a system in which some thread stands at `pc`. */
  predicate Counts(k: Tally, pc: PC) {
    && One(PreQueue(pc)) <= k.preQueue
    && One(InCancel(pc)) <= k.inCancel
    && One(PreSignal(pc)) <= k.preSignal
    && One(Owes(pc)) <= k.owing
    && k.inCancel <= k.preSignal
  }

  lemma QueueGoto(m: map<Tid, PC>, t: Tid, pc: PC)
    ensures Count(m[t := pc], BeforeQueue) == Count(m, BeforeQueue) - One(PreQueue(PlaceOf(m, t))) + One(PreQueue(pc))
    ensures One(PreQueue(PlaceOf(m, t))) <= Count(m, BeforeQueue)
  {
    CountGoto(m, t, pc, BeforeQueue);
  }

  lemma SignalGoto(m: map<Tid, PC>, t: Tid, pc: PC)
    ensures Count(m[t := pc], BeforeSignal) == Count(m, BeforeSignal) - One(PreSignal(PlaceOf(m, t))) + One(PreSignal(pc))
    ensures One(PreSignal(PlaceOf(m, t))) <= Count(m, BeforeSignal)
  {
    CountGoto(m, t, pc, BeforeSignal);
  }

  lemma CancelGoto(m: map<Tid, PC>, t: Tid, pc: PC)
    ensures Count(m[t := pc], Cancelling) == Count(m, Cancelling) - One(InCancel(PlaceOf(m, t))) + One(InCancel(pc))
    ensures One(InCancel(PlaceOf(m, t))) <= Count(m, Cancelling)
  {
    CountGoto(m, t, pc, Cancelling);
  }

  lemma OwesGoto(m: map<Tid, PC>, t: Tid, pc: PC)
    ensures Count(m[t := pc], Owing) == Count(m, Owing) - One(Owes(PlaceOf(m, t))) + One(Owes(pc))
    ensures One(Owes(PlaceOf(m, t))) <= Count(m, Owing)
  {
    CountGoto(m, t, pc, Owing);
  }

  lemma TallyMoved(m: map<Tid, PC>, t: Tid, pc: PC)
    ensures TallyOf(m[t := pc]) == Moved(TallyOf(m), PlaceOf(m, t), pc)
  {
    QueueGoto(m, t, pc);
    SignalGoto(m, t, pc);
    CancelGoto(m, t, pc);
    OwesGoto(m, t, pc);
  }

  lemma TallyCounts(m: map<Tid, PC>, t: Tid, pc: PC)
    ensures Counts(TallyOf(m), PlaceOf(m, t))
  {
    QueueGoto(m, t, pc);
    SignalGoto(m, t, pc);
    CancelGoto(m, t, pc);
    OwesGoto(m, t, pc);
    CancelIsPreSignal(m);
  }

  lemma TallyGoto(m: map<Tid, PC>, t: Tid, pc: PC)
    ensures TallyOf(m[t := pc]) == Moved(TallyOf(m), PlaceOf(m, t), pc)
    ensures Counts(TallyOf(m), PlaceOf(m, t))
  {
    TallyMoved(m, t, pc);
    TallyCounts(m, t, pc);
  }

  lemma CancelIsPreSignal(m: map<Tid, PC>)
    ensures Count(m, Cancelling) <= Count(m, BeforeSignal)
  {
    assert Placed(m, Cancelling) <= Placed(m, BeforeSignal);
    var a, b := Placed(m, Cancelling), Placed(m, BeforeSignal);
    assert b == a + (b - a);
  }

  // Data ----------------------------------------------------------------------------------

  /** The recording, counting what the worker has taken out inside its lock section. */
  function Recording(w: WorkerPC, fifo: seq<Move>): seq<Move> {
    match w
    case Snapping(Drain(moves, _)) => moves + fifo
    case Snapping(PutBack(moves, k)) => if k <= |moves| then fifo + moves[k..] else fifo
    case _ => fifo
  }

  predicate GoodWorker(w: WorkerPC, fifo: seq<Move>) {
    match w
    case Snapping(Drain(moves, count)) => GoodMoves(moves) && |moves| + |fifo| == count
    case Snapping(PutBack(moves, k)) => GoodMoves(moves) && k <= |moves| && fifo == moves[..k]
    case Snapping(CountRun(moves)) => GoodMoves(moves) && |moves| <= FIFO_SIZE
    case Playing(at, plan, i) => GoodMoves(plan) && |plan| <= FIFO_SIZE && (if at.Check? then i <= |plan| else i < |plan|)
    case _ => true
  }

  predicate GoodFifo(w: WorkerPC, fifo: seq<Move>) {
    GoodMoves(fifo) && |Recording(w, fifo)| <= FIFO_SIZE && GoodWorker(w, fifo)
  }

  predicate GoodPlace(pc: PC) {
    match pc
    case Inputting(InputMode(servo, _)) => servo == PAN || servo == TILT
    case Inputting(InputGet(servo, _)) => servo == PAN || servo == TILT
    case Inputting(InputMove(servo, to)) => (servo == PAN || servo == TILT) && to <= ANGLE_MAX
    case Inputting(InputRecord(servo, to)) => (servo == PAN || servo == TILT) && to <= ANGLE_MAX
    case Resetting(ResetServo(k)) => k < NUM_SERVOS
    case _ => true
  }

  /** Angles in range, moves the joystick could have recorded, a usable replay speed. */
  predicate Data(s: State) {
    && InRange(s.pose)
    && 0 < s.speed < U16
    && GoodFifo(s.worker, s.fifo)
  }

  // Obligations ---------------------------------------------------------------------------

  /** Something is under way that ends in a completion signal. */
  predicate Outstanding(s: State, k: Tally) {
    || s.pending
    || WorkerPreSignal(s.worker)
    || s.timer.TimerQueue?
    || k.preQueue > 0
    || k.preSignal > 0
  }

  /** Where every accepted start has gone, and every begun run. */
  predicate Starts(s: State, k: Tally) {
    && s.h.accepted == k.preQueue + One(s.timer.TimerQueue?) + One(s.pending)
                     + s.h.begun + s.h.cancelled + s.h.coalesced
    && s.h.begun == s.replays + s.h.oom
                  + One(s.worker.Snapping?)
  }

  // Readers -------------------------------------------------------------------------------

  /** A reader may be out of date: it will be told, or a MOVE failed on the bus. */
  predicate Excused(s: State, k: Tally) {
    s.newData || k.owing > 0 || TimerOwes(s.timer) || WorkerOwes(s.worker) || s.h.silent
  }

  predicate AgreesUpTo(n: nat, snap: Snapshot, now: Snapshot) {
    && (n > 0 ==> snap.mode == now.mode)
    && (n > 1 ==> snap.pan == now.pan)
    && (n > 2 ==> snap.tilt == now.tilt)
    && (n > 3 ==> snap.tilt2 == now.tilt2)
    && (n > 4 ==> snap.count == now.count)
    && (n > 5 ==> snap.moves == now.moves)
    && (n > 6 ==> snap.replays == now.replays)
  }

  /** The reader that cleared the flag last has read nothing out of date unless excused. */
  predicate FreshPlace(s: State, k: Tally, pc: PC) {
    match pc
    case Reading(ReadField(n, snap, gen)) =>
      gen <= s.h.clears && (gen == s.h.clears ==> Excused(s, k) || AgreesUpTo(n, snap, Observe(s)))
    case _ => true
  }

  predicate FreshLast(s: State, k: Tally) {
    s.h.last.Some? ==> Excused(s, k) || s.h.last.value == Observe(s)
  }

  /** A change that leaves the other readers' parts of the invariant alone. */
  predicate KeepsReaders(s: State, k: Tally, s': State, k': Tally) {
    || s'.h.clears > s.h.clears
    || (s'.h.clears == s.h.clears
        && (Excused(s, k) || Observe(s') != Observe(s) ==> Excused(s', k')))
  }

  // Data, step by step --------------------------------------------------------------------

  /** Routines leave the map of threads to the step that runs them. */
  predicate SameFrame(s: State, s': State) {
    s'.threads == s.threads && s'.h.ctl == s.h.ctl
  }

  lemma StartData(s: State, at: StartAt, w: bool, ok: bool)
    requires Data(s) && GoodPlace(Starting(at, w)) && ActEnabled(s, Starting(at, w), 0, ok)
    ensures var (s', pc') := ActStart(s, at, w, ok); SameFrame(s, s') && Data(s') && GoodPlace(pc')
  {
    match at case StartCheck => case StartTimer => case StartQueue => case StartNotify =>
  }

  lemma StopData(s: State, at: StopAt, w: bool)
    requires Data(s) && GoodPlace(Stopping(at, w)) && ActEnabled(s, Stopping(at, w), 0, true)
    ensures var (s', pc') := ActStop(s, at, w); SameFrame(s, s') && Data(s') && GoodPlace(pc')
  {
    match at
    case StopMode => case StopTimer => case CancelPending => case CancelWait(_) =>
    case StopSignal => case StopWake => case StopNotify =>
  }

  lemma ResetData(s: State, at: ResetAt)
    requires Data(s) && GoodPlace(Resetting(at)) && ActEnabled(s, Resetting(at), 0, true)
    ensures var (s', pc') := ActReset(s, at); SameFrame(s, s') && Data(s') && GoodPlace(pc')
  {
    match at case ResetClear => case ResetServo(_) => case ResetNotify =>
  }

  lemma TeachData(s: State, at: TeachAt)
    requires Data(s) && GoodPlace(Teaching(at)) && ActEnabled(s, Teaching(at), 0, true)
    ensures var (s', pc') := ActTeach(s, at); SameFrame(s, s') && Data(s') && GoodPlace(pc')
  {
    match at case TeachMode => case TeachClear => case TeachTotal => case TeachTimer => case TeachNotify =>
  }

  lemma MoveData(s: State, at: MoveAt, ok: bool)
    requires Data(s) && GoodPlace(Moving(at)) && ActEnabled(s, Moving(at), 0, ok)
    ensures var (s', pc') := ActMove(s, at, ok); SameFrame(s, s') && Data(s') && GoodPlace(pc')
  {
    match at case MoveSet(_, _) => case MoveNotify =>
  }

  lemma InputData(s: State, at: InputAt, delay: nat)
    requires Data(s) && GoodPlace(Inputting(at)) && ActEnabled(s, Inputting(at), delay, true)
    ensures var (s', pc') := ActInput(s, at, delay); SameFrame(s, s') && Data(s') && GoodPlace(pc')
  {
    match at
    case InputMode(_, _) => case InputGet(_, _) => case InputMove(_, _) => case InputRecord(_, _) =>
    case InputTotal => case InputTimer => case InputNotify =>
  }

  lemma ReadData(s: State, at: ReadAt)
    requires Data(s) && GoodPlace(Reading(at)) && ActEnabled(s, Reading(at), 0, true)
    ensures var (s', pc') := ActRead(s, at); SameFrame(s, s') && Data(s') && GoodPlace(pc')
  {
    match at case ReadTest => case ReadWait => case ReadClear => case ReadField(_, _, _) =>
  }

  lemma ActData(s: State, pc: PC, delay: nat, ok: bool)
    requires Data(s) && GoodPlace(pc) && ActEnabled(s, pc, delay, ok)
    ensures var (s', pc') := Act(s, pc, delay, ok); SameFrame(s, s') && Data(s') && GoodPlace(pc')
  {
    match pc
    case Starting(at, w) => StartData(s, at, w, ok);
    case Stopping(at, w) => StopData(s, at, w);
    case Resetting(at) => ResetData(s, at);
    case Teaching(at) => TeachData(s, at);
    case Moving(at) => MoveData(s, at, ok);
    case Inputting(at) => InputData(s, at, delay);
    case Reading(at) => ReadData(s, at);
    case _ =>
  }

  // Bookkeeping, step by step -------------------------------------------------------------

  predicate Books(s: State, k: Tally) {
    && (s.h.answered || Outstanding(s, k))
    && Starts(s, k)
  }

  predicate Tallied(s: State, k: Tally, pc: PC) {
    Counts(k, pc) && k.inCancel == Count(s.threads, Cancelling)
  }

  /** A change the books do not notice. */
  predicate SameBooks(s: State, s': State, pc': PC) {
    && s'.pending == s.pending && s'.worker == s.worker && s'.timer == s.timer && s'.replays == s.replays
    && s'.h.answered == s.h.answered && s'.h.quiet == s.h.quiet
    && s'.h.accepted == s.h.accepted && s'.h.begun == s.h.begun && s'.h.oom == s.h.oom
    && s'.h.cancelled == s.h.cancelled && s'.h.coalesced == s.h.coalesced
    && !PreQueue(pc') && !PreSignal(pc') && (s.h.clean ==> s'.h.clean || pc'.Resetting?)
  }

  lemma SameBooksKeep(s: State, k: Tally, pc: PC, s': State, pc': PC)
    requires Books(s, k) && SameBooks(s, s', pc') && !PreQueue(pc) && !PreSignal(pc)
    ensures Books(s', Moved(k, pc, pc'))
  {
    var k' := Moved(k, pc, pc');
    assert k'.preQueue == k.preQueue && k'.preSignal == k.preSignal;
  }

  lemma StartQueueBooks(s: State, k: Tally, w: bool, ok: bool)
    requires Books(s, k) && Tallied(s, k, Starting(StartQueue, w)) && ActEnabled(s, Starting(StartQueue, w), 0, ok)
    ensures var (s', pc') := ActStart(s, StartQueue, w, ok); Books(s', Moved(k, Starting(StartQueue, w), pc'))
  {
    var (s', pc') := ActStart(s, StartQueue, w, ok);
    var k' := Moved(k, Starting(StartQueue, w), pc');
    assert k'.preQueue == k.preQueue - 1 && k'.preSignal == k.preSignal;
    assert s'.worker == s.worker && s'.timer == s.timer && s'.replays == s.replays;
    assert One(s'.pending) + s'.h.coalesced == One(s.pending) + s.h.coalesced + 1;
    assert s'.pending || k.preSignal > 0;
  }

  lemma StartAcceptedBooks(s: State, k: Tally, w: bool)
    requires Books(s, k) && Tallied(s, k, Starting(StartCheck, w)) && s.mode != Replay
    ensures var (s', pc') := ActStart(s, StartCheck, w, true); Books(s', Moved(k, Starting(StartCheck, w), pc'))
  {
    var (s', pc') := ActStart(s, StartCheck, w, true);
    assert Moved(k, Starting(StartCheck, w), pc').preQueue == k.preQueue + 1;
    assert s'.worker == s.worker && s'.timer == s.timer && s'.replays == s.replays && s'.pending == s.pending;
  }

  lemma StartTimerBooks(s: State, k: Tally, w: bool)
    requires Books(s, k) && Tallied(s, k, Starting(StartTimer, w))
    ensures var (s', pc') := ActStart(s, StartTimer, w, true); Books(s', Moved(k, Starting(StartTimer, w), pc'))
  {
    var (s', pc') := ActStart(s, StartTimer, w, true);
    assert Moved(k, Starting(StartTimer, w), pc').preQueue == k.preQueue;
    assert s'.worker == s.worker && s'.timer == s.timer && s'.replays == s.replays && s'.pending == s.pending;
  }

  lemma StartBooks(s: State, k: Tally, at: StartAt, w: bool, ok: bool)
    requires Books(s, k) && Tallied(s, k, Starting(at, w)) && ActEnabled(s, Starting(at, w), 0, ok)
    ensures var (s', pc') := ActStart(s, at, w, ok); Books(s', Moved(k, Starting(at, w), pc'))
  {
    if at.StartQueue? {
      StartQueueBooks(s, k, w, ok);
    } else if at.StartTimer? {
      StartTimerBooks(s, k, w);
    } else if at.StartCheck? && s.mode != Replay {
      StartAcceptedBooks(s, k, w);
    } else {
      var (s', pc') := ActStart(s, at, w, ok);
      assert SameBooks(s, s', pc');
      SameBooksKeep(s, k, Starting(at, w), s', pc');
    }
  }

  lemma StopAsideBooks(s: State, at: StopAt, w: bool)
    requires at.StopMode? || at.StopTimer? || at.StopWake? || at.StopNotify?
    ensures var (s', pc') := ActStop(s, at, w); SameBooks(s, s', pc')
  {
    match at case StopMode => case StopTimer => case StopWake => case StopNotify =>
  }

  lemma CancelBooks(s: State, k: Tally, w: bool)
    requires Books(s, k) && Tallied(s, k, Stopping(CancelPending, w))
    ensures var (s', pc') := ActStop(s, CancelPending, w); Books(s', Moved(k, Stopping(CancelPending, w), pc'))
  {
    var (s', pc') := ActStop(s, CancelPending, w);
    var k' := Moved(k, Stopping(CancelPending, w), pc');
    assert k'.preQueue == k.preQueue && k'.preSignal == k.preSignal + 1;
    assert s'.worker == s.worker && s'.timer == s.timer && s'.replays == s.replays && !s'.pending;
    assert s'.h.cancelled == s.h.cancelled + One(s.pending);
  }

  lemma CancelledBooks(s: State, k: Tally, run: nat, w: bool)
    requires Books(s, k) && Tallied(s, k, Stopping(CancelWait(run), w))
    ensures var (s', pc') := ActStop(s, CancelWait(run), w); Books(s', Moved(k, Stopping(CancelWait(run), w), pc'))
  {
    var (s', pc') := ActStop(s, CancelWait(run), w);
    var k' := Moved(k, Stopping(CancelWait(run), w), pc');
    assert k'.preQueue == k.preQueue && k'.preSignal == k.preSignal;
    assert s'.worker == s.worker && s'.timer == s.timer && s'.replays == s.replays && s'.pending == s.pending;
  }

  lemma StopSignalBooks(s: State, k: Tally, w: bool)
    requires Books(s, k) && Tallied(s, k, Stopping(StopSignal, w))
    ensures var (s', pc') := ActStop(s, StopSignal, w); Books(s', Moved(k, Stopping(StopSignal, w), pc'))
  {
    var (s', pc') := ActStop(s, StopSignal, w);
    assert Moved(k, Stopping(StopSignal, w), pc').preQueue == k.preQueue && s'.h.answered;
    assert s'.worker == s.worker && s'.timer == s.timer && s'.replays == s.replays && s'.pending == s.pending;
  }

  lemma StopBooks(s: State, k: Tally, at: StopAt, w: bool)
    requires Books(s, k) && Tallied(s, k, Stopping(at, w))
    ensures var (s', pc') := ActStop(s, at, w); Books(s', Moved(k, Stopping(at, w), pc'))
  {
    if at.CancelPending? {
      CancelBooks(s, k, w);
    } else if at.CancelWait? {
      CancelledBooks(s, k, at.run, w);
    } else if at.StopSignal? {
      StopSignalBooks(s, k, w);
    } else {
      var (s', pc') := ActStop(s, at, w);
      StopAsideBooks(s, at, w);
      SameBooksKeep(s, k, Stopping(at, w), s', pc');
    }
  }

  /** The step of a call that neither starts nor stops: it does not touch the books. */
  predicate Aside(s: State, pc: PC, s': State, pc': PC) {
    && SameBooks(s, s', pc') && s'.h.stopMoves == s.h.stopMoves
    && (pc'.Resetting? ==> pc.Resetting?) && !pc'.Stopping? && (pc'.Moving? ==> pc'.mv.MoveNotify?)
  }

  lemma ResetAside(s: State, at: ResetAt)
    ensures var (s', pc') := ActReset(s, at); Aside(s, Resetting(at), s', pc')
  {
    match at case ResetClear => case ResetServo(_) => case ResetNotify =>
  }

  lemma TeachAside(s: State, at: TeachAt)
    ensures var (s', pc') := ActTeach(s, at); Aside(s, Teaching(at), s', pc')
  {
    match at case TeachMode => case TeachClear => case TeachTotal => case TeachTimer => case TeachNotify =>
  }

  lemma MoveAside(s: State, at: MoveAt, ok: bool)
    ensures var (s', pc') := ActMove(s, at, ok); Aside(s, Moving(at), s', pc')
  {
    match at case MoveSet(_, _) => case MoveNotify =>
  }

  lemma InputAside(s: State, at: InputAt, delay: nat)
    ensures var (s', pc') := ActInput(s, at, delay); Aside(s, Inputting(at), s', pc')
  {
    match at
    case InputMode(_, _) => case InputGet(_, _) => case InputMove(_, _) => case InputRecord(_, _) =>
    case InputTotal => case InputTimer => case InputNotify =>
  }

  lemma ReadAside(s: State, at: ReadAt)
    ensures var (s', pc') := ActRead(s, at); Aside(s, Reading(at), s', pc')
  {
    match at case ReadTest => case ReadWait => case ReadClear => case ReadField(_, _, _) =>
  }

  lemma AsideBooks(s: State, pc: PC, delay: nat, ok: bool)
    requires ActEnabled(s, pc, delay, ok) && !pc.Starting? && !pc.Stopping?
    ensures var (s', pc') := Act(s, pc, delay, ok); Aside(s, pc, s', pc')
  {
    match pc
    case Resetting(at) => ResetAside(s, at);
    case Teaching(at) => TeachAside(s, at);
    case Moving(at) => MoveAside(s, at, ok);
    case Inputting(at) => InputAside(s, at, delay);
    case Reading(at) => ReadAside(s, at);
    case _ =>
  }

  lemma ActBooks(s: State, k: Tally, pc: PC, delay: nat, ok: bool)
    requires Books(s, k) && Tallied(s, k, pc) && GoodPlace(pc) && ActEnabled(s, pc, delay, ok)
    ensures var (s', pc') := Act(s, pc, delay, ok); Books(s', Moved(k, pc, pc'))
  {
    if pc.Starting? {
      StartBooks(s, k, pc.start, pc.writer, ok);
    } else if pc.Stopping? {
      StopBooks(s, k, pc.stop, pc.reset);
    } else {
      var (s', pc') := Act(s, pc, delay, ok);
      AsideBooks(s, pc, delay, ok);
      SameBooksKeep(s, k, pc, s', pc');
    }
  }

  // Readers, step by step -----------------------------------------------------------------

  lemma StartFresh(s: State, k: Tally, at: StartAt, w: bool, ok: bool)
    requires FreshLast(s, k) && FreshPlace(s, k, Starting(at, w)) && Counts(k, Starting(at, w)) && GoodPlace(Starting(at, w)) && ActEnabled(s, Starting(at, w), 0, ok)
    ensures var (s', pc') := ActStart(s, at, w, ok);
            var k' := Moved(k, Starting(at, w), pc');
            FreshLast(s', k') && FreshPlace(s', k', pc') && KeepsReaders(s, k, s', k')
  {
    match at case StartCheck => case StartTimer => case StartQueue => case StartNotify =>
  }

  lemma StopFresh(s: State, k: Tally, at: StopAt, w: bool)
    requires FreshLast(s, k) && FreshPlace(s, k, Stopping(at, w)) && Counts(k, Stopping(at, w)) && GoodPlace(Stopping(at, w)) && ActEnabled(s, Stopping(at, w), 0, true)
    ensures var (s', pc') := ActStop(s, at, w);
            var k' := Moved(k, Stopping(at, w), pc');
            FreshLast(s', k') && FreshPlace(s', k', pc') && KeepsReaders(s, k, s', k')
  {
    match at
    case StopMode => case StopTimer => case CancelPending => case CancelWait(_) =>
    case StopSignal => case StopWake => case StopNotify =>
  }

  lemma ResetFresh(s: State, k: Tally, at: ResetAt)
    requires FreshLast(s, k) && FreshPlace(s, k, Resetting(at)) && Counts(k, Resetting(at)) && GoodPlace(Resetting(at)) && ActEnabled(s, Resetting(at), 0, true)
    ensures var (s', pc') := ActReset(s, at);
            var k' := Moved(k, Resetting(at), pc');
            FreshLast(s', k') && FreshPlace(s', k', pc') && KeepsReaders(s, k, s', k')
  {
    match at case ResetClear => case ResetServo(_) => case ResetNotify =>
  }

  lemma TeachFresh(s: State, k: Tally, at: TeachAt)
    requires FreshLast(s, k) && FreshPlace(s, k, Teaching(at)) && Counts(k, Teaching(at)) && GoodPlace(Teaching(at)) && ActEnabled(s, Teaching(at), 0, true)
    ensures var (s', pc') := ActTeach(s, at);
            var k' := Moved(k, Teaching(at), pc');
            FreshLast(s', k') && FreshPlace(s', k', pc') && KeepsReaders(s, k, s', k')
  {
    match at case TeachMode => case TeachClear => case TeachTotal => case TeachTimer => case TeachNotify =>
  }

  lemma MoveFresh(s: State, k: Tally, at: MoveAt, ok: bool)
    requires FreshLast(s, k) && FreshPlace(s, k, Moving(at)) && Counts(k, Moving(at)) && GoodPlace(Moving(at)) && ActEnabled(s, Moving(at), 0, ok)
    ensures var (s', pc') := ActMove(s, at, ok);
            var k' := Moved(k, Moving(at), pc');
            FreshLast(s', k') && FreshPlace(s', k', pc') && KeepsReaders(s, k, s', k')
  {
    match at case MoveSet(_, _) => case MoveNotify =>
  }

  lemma InputFresh(s: State, k: Tally, at: InputAt, delay: nat)
    requires FreshLast(s, k) && FreshPlace(s, k, Inputting(at)) && Counts(k, Inputting(at)) && GoodPlace(Inputting(at)) && ActEnabled(s, Inputting(at), delay, true)
    ensures var (s', pc') := ActInput(s, at, delay);
            var k' := Moved(k, Inputting(at), pc');
            FreshLast(s', k') && FreshPlace(s', k', pc') && KeepsReaders(s, k, s', k')
  {
    match at
    case InputMode(_, _) => case InputGet(_, _) => case InputMove(_, _) => case InputRecord(_, _) =>
    case InputTotal => case InputTimer => case InputNotify =>
  }

  lemma ReadFresh(s: State, k: Tally, at: ReadAt)
    requires FreshLast(s, k) && FreshPlace(s, k, Reading(at)) && Counts(k, Reading(at)) && GoodPlace(Reading(at)) && ActEnabled(s, Reading(at), 0, true)
    ensures var (s', pc') := ActRead(s, at);
            var k' := Moved(k, Reading(at), pc');
            FreshLast(s', k') && FreshPlace(s', k', pc') && KeepsReaders(s, k, s', k')
  {
    match at case ReadTest => case ReadWait => case ReadClear => case ReadField(_, _, _) =>
  }

  lemma ActFresh(s: State, k: Tally, pc: PC, delay: nat, ok: bool)
    requires FreshLast(s, k) && FreshPlace(s, k, pc) && Counts(k, pc) && GoodPlace(pc) && ActEnabled(s, pc, delay, ok)
    ensures var (s', pc') := Act(s, pc, delay, ok);
            var k' := Moved(k, pc, pc');
            FreshLast(s', k') && FreshPlace(s', k', pc') && KeepsReaders(s, k, s', k')
  {
    match pc
    case Starting(at, w) => StartFresh(s, k, at, w, ok);
    case Stopping(at, w) => StopFresh(s, k, at, w);
    case Resetting(at) => ResetFresh(s, k, at);
    case Teaching(at) => TeachFresh(s, k, at);
    case Moving(at) => MoveFresh(s, k, at, ok);
    case Inputting(at) => InputFresh(s, k, at, delay);
    case Reading(at) => ReadFresh(s, k, at);
    case _ =>
  }

  // The timer, the worker and the steps around calls ---------------------------------------

  /** The parts of the invariant that do not look at single threads. */
  predicate Whole(s: State, k: Tally) {
    Data(s) && Books(s, k) && FreshLast(s, k)
  }

  lemma TimerData(s: State, ok: bool)
    requires Data(s) && TimerEnabled(s, ok)
    ensures var s' := TimerNext(s, ok); SameFrame(s, s') && Data(s')
  {
    var s' := TimerNext(s, ok);
    assert s'.pose == s.pose && s'.fifo == s.fifo && s'.worker == s.worker && s'.speed == s.speed;
  }

  lemma TimerBooks(s: State, k: Tally, ok: bool)
    requires Books(s, k) && Tallied(s, k, Outside) && TimerEnabled(s, ok)
    ensures Books(TimerNext(s, ok), k)
  {
    match s.timer case Quiet => case Fired => case TimerQueue => case TimerNotify =>
  }

  lemma TimerFresh(s: State, k: Tally, ok: bool)
    requires FreshLast(s, k) && TimerEnabled(s, ok)
    ensures FreshLast(TimerNext(s, ok), k) && KeepsReaders(s, k, TimerNext(s, ok), k)
  {
    match s.timer case Quiet => case Fired => case TimerQueue => case TimerNotify =>
  }

  /** From `s` to `s'` the recording as a whole is the same, and the fifo stays well formed. */
  predicate SameRecording(s: State, s': State) {
    Recording(s'.worker, s'.fifo) == Recording(s.worker, s.fifo) && GoodFifo(s'.worker, s'.fifo)
  }

  lemma AllocKeeps(s: State, ok: bool)
    requires GoodFifo(s.worker, s.fifo) && s.worker == Snapping(Alloc)
    ensures SameRecording(s, WorkSnap(s, Alloc, ok))
  {
    assert [] + s.fifo == s.fifo;
  }

  lemma DrainKeeps(s: State, moves: seq<Move>, count: nat)
    requires GoodFifo(s.worker, s.fifo) && s.worker == Snapping(Drain(moves, count)) && WorkEnabled(s)
    ensures SameRecording(s, WorkSnap(s, Drain(moves, count), true))
  {
    if |moves| < count {
      assert (moves + [s.fifo[0]]) + s.fifo[1..] == moves + s.fifo;
    } else {
      assert s.fifo == [] == moves[..0] && moves + [] == [] + moves[0..] == moves;
    }
  }

  lemma PutBackKeeps(s: State, moves: seq<Move>, k: nat)
    requires GoodFifo(s.worker, s.fifo) && s.worker == Snapping(PutBack(moves, k))
    ensures SameRecording(s, WorkSnap(s, PutBack(moves, k), true))
  {
    if k < |moves| {
      assert moves[k..] == [moves[k]] + moves[k + 1..];
      assert s.fifo + [moves[k]] == moves[..k + 1];
      assert (s.fifo + [moves[k]]) + moves[k + 1..] == s.fifo + moves[k..];
    } else {
      assert s.fifo == moves[..k] == moves && s.fifo + moves[k..] == s.fifo;
    }
  }

  /** Draining and putting back, entry by entry, never changes the recording as a whole. */
  lemma SnapKeepsRecording(s: State, at: SnapAt, ok: bool)
    requires GoodFifo(s.worker, s.fifo) && s.worker == Snapping(at) && WorkEnabled(s)
    ensures SameRecording(s, WorkSnap(s, at, ok))
  {
    match at
    case Alloc => AllocKeeps(s, ok);
    case Drain(moves, count) => DrainKeeps(s, moves, count);
    case PutBack(moves, k) => PutBackKeeps(s, moves, k);
    case CountRun(moves) =>
  }

  lemma SnapFrame(s: State, at: SnapAt, ok: bool)
    requires s.worker == Snapping(at) && WorkEnabled(s)
    ensures var s' := WorkSnap(s, at, ok); SameFrame(s, s') && s'.pose == s.pose && s'.speed == s.speed
  {
    match at case Alloc => case Drain(_, _) => case PutBack(_, _) => case CountRun(_) =>
  }

  lemma SnapData(s: State, at: SnapAt, ok: bool)
    requires Data(s) && s.worker == Snapping(at) && WorkEnabled(s)
    ensures var s' := WorkSnap(s, at, ok); SameFrame(s, s') && Data(s')
  {
    SnapFrame(s, at, ok);
    SnapKeepsRecording(s, at, ok);
  }

  lemma PlayData(s: State, at: PlayAt, plan: seq<Move>, i: nat)
    requires Data(s) && s.worker == Playing(at, plan, i) && WorkEnabled(s)
    ensures var s' := WorkPlay(s, at, plan, i); SameFrame(s, s') && Data(s')
  {
    match at case Check => case PlayMove => case PlayNotify =>
  }

  lemma WorkData(s: State, ok: bool)
    requires Data(s) && WorkEnabled(s)
    ensures var s' := WorkNext(s, ok); SameFrame(s, s') && Data(s')
  {
    match s.worker
    case Snapping(at) => SnapData(s, at, ok);
    case Playing(at, plan, i) => PlayData(s, at, plan, i);
    case Finishing(at) => match at case Complete(_) => case Signal => case Wake =>
  }

  lemma SnapBooks(s: State, k: Tally, at: SnapAt, ok: bool)
    requires Books(s, k) && Data(s) && s.worker == Snapping(at) && WorkEnabled(s)
    ensures var s' := WorkSnap(s, at, ok); Books(s', k)
  {
    var s' := WorkSnap(s, at, ok);
    assert WorkerPreSignal(s'.worker) && s'.pending == s.pending && s'.timer == s.timer;
    assert s'.replays + s'.h.oom + One(s'.worker.Snapping?) == s.replays + s.h.oom + 1;
  }

  lemma PlayBooks(s: State, k: Tally, at: PlayAt, plan: seq<Move>, i: nat)
    requires Books(s, k) && Data(s) && s.worker == Playing(at, plan, i) && WorkEnabled(s)
    ensures var s' := WorkPlay(s, at, plan, i); Books(s', k)
  {
    var s' := WorkPlay(s, at, plan, i);
    assert !s'.worker.Snapping? && WorkerPreSignal(s'.worker);
    assert s'.pending == s.pending && s'.timer == s.timer && s'.replays == s.replays;
  }

  lemma WorkBooks(s: State, k: Tally, ok: bool)
    requires Books(s, k) && Data(s) && WorkEnabled(s)
    ensures var s' := WorkNext(s, ok); Books(s', k)
  {
    match s.worker
    case Snapping(at) => SnapBooks(s, k, at, ok);
    case Playing(at, plan, i) => PlayBooks(s, k, at, plan, i);
    case Finishing(at) => match at case Complete(_) => case Signal => case Wake =>
  }

  lemma SnapFresh(s: State, k: Tally, at: SnapAt, ok: bool)
    requires FreshLast(s, k) && Data(s) && s.worker == Snapping(at) && WorkEnabled(s)
    ensures var s' := WorkSnap(s, at, ok); FreshLast(s', k) && KeepsReaders(s, k, s', k)
  {
    match at case Alloc => case Drain(_, _) => case PutBack(_, _) => case CountRun(_) =>
  }

  lemma PlayFresh(s: State, k: Tally, at: PlayAt, plan: seq<Move>, i: nat)
    requires FreshLast(s, k) && Data(s) && s.worker == Playing(at, plan, i) && WorkEnabled(s)
    ensures var s' := WorkPlay(s, at, plan, i); FreshLast(s', k) && KeepsReaders(s, k, s', k)
  {
    match at case Check => case PlayMove => case PlayNotify =>
  }

  lemma WorkFresh(s: State, k: Tally, ok: bool)
    requires FreshLast(s, k) && Data(s) && WorkEnabled(s)
    ensures var s' := WorkNext(s, ok); FreshLast(s', k) && KeepsReaders(s, k, s', k)
  {
    match s.worker
    case Snapping(at) => SnapFresh(s, k, at, ok);
    case Playing(at, plan, i) => PlayFresh(s, k, at, plan, i);
    case Finishing(at) => match at case Complete(_) => case Signal => case Wake =>
  }

  lemma BeginKeeps(s: State, k: Tally)
    requires Whole(s, k) && Enabled(Unrestricted, s, Begin)
    ensures var s' := Next(Unrestricted, s, Begin); Whole(s', k) && KeepsReaders(s, k, s', k)
  {
  }

  lemma FireKeeps(s: State, k: Tally)
    requires Whole(s, k) && Enabled(Unrestricted, s, Fire)
    ensures var s' := Next(Unrestricted, s, Fire); Whole(s', k) && KeepsReaders(s, k, s', k)
  {
  }

  // The invariant -------------------------------------------------------------------------

  predicate Places(s: State, k: Tally) {
    forall t :: t in s.threads ==> GoodPlace(s.threads[t]) && FreshPlace(s, k, s.threads[t])
  }

  predicate Inv(s: State) {
    Whole(s, TallyOf(s.threads)) && Places(s, TallyOf(s.threads))
  }

  lemma OtherReaders(s: State, k: Tally, s': State, k': Tally, pc: PC)
    requires FreshPlace(s, k, pc) && KeepsReaders(s, k, s', k')
    ensures FreshPlace(s', k', pc)
  {
  }

  lemma PlacesKept(s: State, k: Tally, s': State, k': Tally)
    requires Places(s, k) && KeepsReaders(s, k, s', k')
    requires forall t :: t in s'.threads ==>
      (t in s.threads && s'.threads[t] == s.threads[t]) || (GoodPlace(s'.threads[t]) && FreshPlace(s', k', s'.threads[t]))
    ensures Places(s', k')
  {
    forall t | t in s'.threads ensures GoodPlace(s'.threads[t]) && FreshPlace(s', k', s'.threads[t]) {
      if t in s.threads && s'.threads[t] == s.threads[t] { OtherReaders(s, k, s', k', s.threads[t]); }
    }
  }

  lemma AdvanceKeeps(s: State, t: Tid, delay: nat, ok: bool)
    requires Inv(s) && Enabled(Unrestricted, s, Advance(t, delay, ok))
    ensures Inv(Next(Unrestricted, s, Advance(t, delay, ok)))
  {
    var k, pc := TallyOf(s.threads), At(s, t);
    var (s1, pc') := Act(s, pc, delay, ok);
    var s' := Goto(s1, t, pc');
    TallyGoto(s.threads, t, pc');
    ActData(s, pc, delay, ok);
    ActBooks(s, k, pc, delay, ok);
    ActFresh(s, k, pc, delay, ok);
    var k' := Moved(k, pc, pc');
    assert Whole(s', k');
    PlacesKept(s, k, s', k');
  }

  /** A place that no part of the invariant speaks of. */
  predicate Plain(pc: PC) {
    GoodPlace(pc) && !PreQueue(pc) && !PreSignal(pc) && !Owes(pc) && (pc.Reading? ==> !pc.rd.ReadField?)
  }

  lemma PlainTally(s: State, t: Tid, pc: PC)
    requires Plain(At(s, t)) && Plain(pc)
    ensures TallyOf(s.threads[t := pc]) == TallyOf(s.threads)
  {
    TallyGoto(s.threads, t, pc);
  }

  lemma PlainWhole(s: State, k: Tally, s': State)
    requires Whole(s, k) && s' == s.(threads := s'.threads, h := s.h.(ctl := s'.h.ctl))
    ensures Whole(s', k) && KeepsReaders(s, k, s', k) && Observe(s') == Observe(s)
  {
    assert Data(s') && Books(s', k);
  }

  lemma PlainMoveKeeps(s: State, t: Tid, pc: PC, s': State)
    requires Inv(s) && Plain(At(s, t)) && Plain(pc)
    requires s' == s.(threads := s.threads[t := pc], h := s.h.(ctl := s'.h.ctl))
    ensures Inv(s')
  {
    var k := TallyOf(s.threads);
    PlainTally(s, t, pc);
    PlainWhole(s, k, s');
    assert FreshPlace(s', k, pc);
    PlacesKept(s, k, s', k);
  }
  lemma TimerKeeps(s: State, k: Tally, ok: bool)
    requires Whole(s, k) && Tallied(s, k, Outside) && TimerEnabled(s, ok)
    ensures var s' := TimerNext(s, ok); Whole(s', k) && KeepsReaders(s, k, s', k) && s'.threads == s.threads
  {
    TimerData(s, ok);
    TimerBooks(s, k, ok);
    TimerFresh(s, k, ok);
  }

  lemma WorkKeeps(s: State, k: Tally, ok: bool)
    requires Whole(s, k) && WorkEnabled(s)
    ensures var s' := WorkNext(s, ok); Whole(s', k) && KeepsReaders(s, k, s', k) && s'.threads == s.threads
  {
    WorkData(s, ok);
    WorkBooks(s, k, ok);
    WorkFresh(s, k, ok);
  }

  lemma OthersKeep(s: State, step: Step)
    requires Inv(s) && Enabled(Unrestricted, s, step)
    requires step.SetSpeed? || step.Fire? || step.TimerStep? || step.Begin? || step.Work?
    ensures Inv(Next(Unrestricted, s, step))
  {
    var s', k := Next(Unrestricted, s, step), TallyOf(s.threads);
    CancelIsPreSignal(s.threads);
    match step {
      case SetSpeed(speed) => assert Data(s') && Books(s', k) && Observe(s') == Observe(s);
      case Fire => FireKeeps(s, k);
      case TimerStep(ok) => TimerKeeps(s, k, ok);
      case Begin => BeginKeeps(s, k);
      case Work(ok) => WorkKeeps(s, k, ok);
    }
    assert s'.threads == s.threads && Whole(s', k) && KeepsReaders(s, k, s', k);
    PlacesKept(s, k, s', k);
  }

  lemma EnterKeeps(sched: Schedule, s: State, t: Tid, call: Call)
    requires Inv(s) && Enabled(sched, s, Enter(t, call))
    ensures Inv(Next(sched, s, Enter(t, call)))
  {
    assert Plain(EntryPoint(call));
    PlainMoveKeeps(s, t, EntryPoint(call), Next(sched, s, Enter(t, call)));
  }

  /** Every enabled step keeps the invariant, under either schedule. */
  lemma StepKeeps(sched: Schedule, s: State, step: Step)
    requires Inv(s) && Enabled(sched, s, step)
    ensures Inv(Next(sched, s, step))
  {
    match step
    case Advance(t, delay, ok) => AdvanceKeeps(s, t, delay, ok);
    case Enter(t, call) => EnterKeeps(sched, s, t, call);
    case Interrupt(t) => PlainMoveKeeps(s, t, Outside, Next(sched, s, step));
    case _ => OthersKeep(s, step);
  }

  lemma InitBooks(s: State)
    requires Initial(s)
    ensures Books(s, TallyOf(s.threads))
  {
    CountZero(s.threads, BeforeQueue);
  }

  lemma InitInv(s: State)
    requires Initial(s)
    ensures Inv(s)
  {
    InitBooks(s);
    assert Data(s) && FreshLast(s, TallyOf(s.threads)) && Places(s, TallyOf(s.threads));
  }

  lemma {:induction false} RunKeeps(sched: Schedule, s0: State, steps: seq<Step>, s: State)
    requires Inv(s0) && Exec(sched, s0, steps) == Some(s)
    ensures Inv(s)
    decreases |steps|
  {
    if steps != [] {
      StepKeeps(sched, s0, steps[0]);
      RunKeeps(sched, Next(sched, s0, steps[0]), steps[1..], s);
    }
  }

  lemma ReachableInv(sched: Schedule, s: State)
    requires Reachable(sched, s)
    ensures Inv(s)
  {
    var s0, steps :| Initial(s0) && Exec(sched, s0, steps) == Some(s);
    InitInv(s0);
    RunKeeps(sched, s0, steps, s);
  }

  // What a reader of the driver may rely on ------------------------------------------------

  /** In every run: after an accepted start with no completion signal since, something is
      under way that will signal. */
  lemma EveryStartIsAnswered(sched: Schedule, s: State)
    requires Reachable(sched, s) && !s.h.answered
    ensures || s.pending
            || WorkerPreSignal(s.worker)
            || s.timer.TimerQueue?
            || exists t :: t in s.threads && (PreQueue(s.threads[t]) || PreSignal(s.threads[t]))
  {
    ReachableInv(sched, s);
    CountZero(s.threads, BeforeQueue);
    CountZero(s.threads, BeforeSignal);
  }

  /** In every run: accepted starts are conserved, so no more replays are reported than starts
      were accepted. */
  lemma StartsAreConserved(sched: Schedule, s: State)
    requires Reachable(sched, s)
    ensures s.h.accepted == Count(s.threads, BeforeQueue) + One(s.timer.TimerQueue?) + One(s.pending)
                          + s.h.begun + s.h.cancelled + s.h.coalesced
    ensures s.h.begun == s.replays + s.h.oom + One(s.worker.Snapping?)
    ensures s.replays <= s.h.accepted
  {
    ReachableInv(sched, s);
  }

  /** In every run: stored angles lie in 0..180, every recorded move could have come from the
      joystick, at most 256 are kept, and the replay speed is usable. */
  lemma DataStaysGood(sched: Schedule, s: State)
    requires Reachable(sched, s)
    ensures s.pose.pan <= 180 && s.pose.tilt <= 180 && s.pose.tilt2 <= 180 && 0 < s.speed < 0x1_0000
    ensures |s.fifo| <= 256 && forall k :: 0 <= k < |s.fifo| ==>
      s.fifo[k].servo <= 1 && s.fifo[k].angle <= 180 && s.fifo[k].delay < 0x1_0000_0000
  {
    ReachableInv(sched, s);
    assert |s.fifo| <= |Recording(s.worker, s.fifo)|;
    assert GoodMoves(s.fifo);
  }

  /** In every run: the next move the worker plays is stored exactly as recorded: it is never
      cut, never refused, and its delay is divided by the speed. */
  lemma PlaybackIsExact(sched: Schedule, s: State, plan: seq<Move>, i: nat)
    requires Reachable(sched, s) && s.worker == Playing(PlayMove, plan, i)
    ensures i < |plan| <= FIFO_SIZE && s.speed > 0
    ensures var m := plan[i];
            AngleOf(SetServo(s.pose, m.servo, m.angle), m.servo) == m.angle && m.servo < NUM_SERVOS && m.servo != TILT2
  {
    ReachableInv(sched, s);
    assert GoodMove(plan[i]);
  }

  /** In every run: when the flag is down, nobody owes a notify, and no MOVE failed on the bus
      since, the snapshot of the reader that cleared the flag last is the present state. */
  lemma ReadersAreFresh(sched: Schedule, s: State)
    requires Reachable(sched, s) && !s.newData && s.h.last.Some?
    requires forall t :: t in s.threads ==> !Owes(s.threads[t])
    requires !TimerOwes(s.timer) && !WorkerOwes(s.worker) && !s.h.silent
    ensures s.h.last.value == Observe(s)
    ensures var v := s.h.last.value;
            && v.mode == s.mode && v.pan == s.pose.pan && v.tilt == s.pose.tilt && v.tilt2 == s.pose.tilt2
            && v.count == |s.fifo| && v.moves == s.total && v.replays == s.replays
  {
    ReachableInv(sched, s);
    CountZero(s.threads, Owing);
  }
}
