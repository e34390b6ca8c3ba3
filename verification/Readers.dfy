/**
  When exactly a reader that has been told everything comes to hold an outdated snapshot.
 */
module Readers {
  import opened EchoTypes
  import opened Machine
  import R = Replaying

  predicate IsField(pc: PC) { pc.Reading? && pc.rd.ReadField? }

  /** Each reader inside a snapshot has its own number; none has the newest one once the snapshot
      of that number is finished. */
  predicate Gens(s: State) {
    && (forall t :: t in s.threads && IsField(s.threads[t]) ==>
          s.threads[t].rd.gen <= s.h.clears && (s.h.last.Some? ==> s.threads[t].rd.gen < s.h.clears))
    && (forall t, u :: t in s.threads && u in s.threads && t != u && IsField(s.threads[t]) && IsField(s.threads[u]) ==>
          s.threads[t].rd.gen != s.threads[u].rd.gen)
  }

  /** No notify is due, and a snapshot has been finished since the flag was cleared. */
  predicate Calm(s: State) {
    && !s.newData && !TimerOwes(s.timer) && !WorkerOwes(s.worker) && s.h.last.Some?
    && forall t :: t in s.threads ==> !Owes(s.threads[t])
  }

  predicate UpToDate(s: State) { Calm(s) && s.h.last.value == Observe(s) }

  predicate OutOfDate(s: State) { Calm(s) && s.h.last.value != Observe(s) }

  /** A direct MOVE of a servo that there is, to another angle, that fails on the bus. */
  predicate FailsToMove(pose: Pose, pc: PC, ok: bool) {
    pc.Moving? && pc.mv.MoveSet? && !ok
    && pc.mv.id % U8 < NUM_SERVOS && SetServo(pose, pc.mv.id % U8, pc.mv.angle % U16) != pose
  }

  // One step ------------------------------------------------------------------------------

  predicate SameReads(s: State, s': State) { s'.h.clears == s.h.clears && s'.h.last == s.h.last }

  /** A caller other than a reader changes what readers see only if it owes a notify or has given
      it; the one exception is the MOVE that fails. */
  predicate Tells(s: State, pc: PC, s': State, pc': PC, ok: bool) {
    && SameReads(s, s') && !pc'.Reading? && s'.threads == s.threads && (s.newData ==> s'.newData)
    && s'.timer == s.timer && s'.worker == s.worker
    && (if FailsToMove(s.pose, pc, ok)
        then Observe(s') != Observe(s) && !Owes(pc') && s'.newData == s.newData
        else Observe(s') == Observe(s) || Owes(pc') || s'.newData)
  }

  lemma StartTells(s: State, at: StartAt, w: bool, ok: bool)
    ensures var (s', pc') := ActStart(s, at, w, ok); Tells(s, Starting(at, w), s', pc', ok)
  {
    match at case StartCheck => case StartTimer => case StartQueue => case StartNotify =>
  }

  lemma StopTells(s: State, at: StopAt, w: bool)
    ensures var (s', pc') := ActStop(s, at, w); Tells(s, Stopping(at, w), s', pc', true)
  {
    match at
    case StopMode => case StopTimer => case CancelPending => case CancelWait(_) =>
    case StopSignal => case StopWake => case StopNotify =>
  }

  lemma ResetTells(s: State, at: ResetAt)
    ensures var (s', pc') := ActReset(s, at); Tells(s, Resetting(at), s', pc', true)
  {
    match at case ResetClear => case ResetServo(_) => case ResetNotify =>
  }

  lemma TeachTells(s: State, at: TeachAt)
    ensures var (s', pc') := ActTeach(s, at); Tells(s, Teaching(at), s', pc', true)
  {
    match at case TeachMode => case TeachClear => case TeachTotal => case TeachTimer => case TeachNotify =>
  }

  lemma MoveTells(s: State, at: MoveAt, ok: bool)
    ensures var (s', pc') := ActMove(s, at, ok); Tells(s, Moving(at), s', pc', ok)
  {
    match at case MoveSet(_, _) => case MoveNotify =>
  }

  lemma InputTells(s: State, at: InputAt, delay: nat)
    ensures var (s', pc') := ActInput(s, at, delay); Tells(s, Inputting(at), s', pc', true)
  {
    match at
    case InputMode(_, _) => case InputGet(_, _) => case InputMove(_, _) => case InputRecord(_, _) =>
    case InputTotal => case InputTimer => case InputNotify =>
  }

  lemma ActTells(s: State, pc: PC, delay: nat, ok: bool)
    requires ActEnabled(s, pc, delay, ok) && !pc.Reading?
    ensures var (s', pc') := Act(s, pc, delay, ok); Tells(s, pc, s', pc', ok)
  {
    match pc
    case Starting(at, w) => StartTells(s, at, w, ok);
    case Stopping(at, w) => StopTells(s, at, w);
    case Resetting(at) => ResetTells(s, at);
    case Teaching(at) => TeachTells(s, at);
    case Moving(at) => MoveTells(s, at, ok);
    case Inputting(at) => InputTells(s, at, delay);
    case ClearFinished =>
    case Asleep =>
  }

  predicate Announces(s: State, s': State) {
    && SameReads(s, s') && s'.threads == s.threads && (s.newData ==> s'.newData)
    && (Observe(s') == Observe(s) || TimerOwes(s'.timer) || WorkerOwes(s'.worker) || s'.newData)
  }

  lemma TimerAnnounces(s: State, ok: bool)
    requires TimerEnabled(s, ok)
    ensures Announces(s, TimerNext(s, ok))
  {
    match s.timer case Quiet => case Fired => case TimerQueue => case TimerNotify =>
  }

  lemma SnapAnnounces(s: State, at: SnapAt, ok: bool)
    requires s.worker == Snapping(at) && WorkEnabled(s)
    ensures Announces(s, WorkSnap(s, at, ok))
  {
    match at case Alloc => case Drain(_, _) => case PutBack(_, _) => case CountRun(_) =>
  }

  lemma WorkAnnounces(s: State, ok: bool)
    requires WorkEnabled(s) && !WorkerOwes(s.worker)
    ensures Announces(s, WorkNext(s, ok))
  {
    match s.worker {
      case Snapping(at) => SnapAnnounces(s, at, ok);
      case Playing(at, plan, i) => match at { case Check => case PlayMove => case PlayNotify => }
      case Finishing(at) => match at { case Complete(_) => case Signal => case Wake => }
    }
  }

  // Numbers stay apart --------------------------------------------------------------------

  lemma FieldKeepsGens(s: State, t: Tid, k: nat, snap: Snapshot, gen: nat)
    requires Gens(s) && t in s.threads && s.threads[t] == Reading(ReadField(k, snap, gen))
    ensures var (s', pc') := ActRead(s, ReadField(k, snap, gen)); Gens(Goto(s', t, pc'))
  {
    assert IsField(s.threads[t]) && s.threads[t].rd.gen == gen;
    var (s', pc') := ActRead(s, ReadField(k, snap, gen));
    assert s'.h.clears == s.h.clears && (s'.h.last != s.h.last ==> gen == s.h.clears);
    assert IsField(pc') ==> pc'.rd.gen == gen && s'.h.last == s.h.last;
  }

  lemma ReaderKeepsGens(s: State, t: Tid, at: ReadAt)
    requires Gens(s) && t in s.threads && s.threads[t] == Reading(at)
    ensures var (s', pc') := ActRead(s, at); Gens(Goto(s', t, pc'))
  {
    match at
    case ReadTest => case ReadWait =>
    case ReadClear =>
    case ReadField(k, snap, gen) => FieldKeepsGens(s, t, k, snap, gen);
  }

  lemma GotoKeepsGens(s: State, s': State, t: Tid, pc: PC)
    requires Gens(s) && SameReads(s, s') && s'.threads == s.threads && !IsField(pc)
    ensures Gens(Goto(s', t, pc))
  {
  }

  lemma StepKeepsGens(sched: Schedule, s: State, step: Step)
    requires Gens(s) && Enabled(sched, s, step)
    ensures Gens(Next(sched, s, step))
  {
    match step
    case Advance(t, delay, ok) =>
      var (s', pc) := Act(s, At(s, t), delay, ok);
      if At(s, t).Reading? { ReaderKeepsGens(s, t, At(s, t).rd); }
      else { ActTells(s, At(s, t), delay, ok); GotoKeepsGens(s, s', t, pc); }
    case Work(ok) => R.WorkIsStill(s, ok);
    case TimerStep(ok) => TimerAnnounces(s, ok);
    case Enter(t, call) => GotoKeepsGens(s, s, t, EntryPoint(call));
    case Interrupt(t) => GotoKeepsGens(s, s, t, Outside);
    case SetSpeed(_) => case Fire => case Begin =>
  }

  lemma {:induction false} RunKeepsGens(sched: Schedule, s: State, steps: seq<Step>, e: State)
    requires Gens(s) && Exec(sched, s, steps) == Some(e)
    ensures Gens(e)
    decreases |steps|
  {
    if steps != [] {
      StepKeepsGens(sched, s, steps[0]);
      RunKeepsGens(sched, Next(sched, s, steps[0]), steps[1..], e);
    }
  }

  lemma ReachableGens(sched: Schedule, s: State)
    requires Reachable(sched, s)
    ensures Gens(s)
  {
    var s0, steps :| Initial(s0) && Exec(sched, s0, steps) == Some(s);
    RunKeepsGens(sched, s0, steps, s);
  }

  // Results -------------------------------------------------------------------------------

  lemma ReaderStays(s: State, t: Tid, delay: nat, ok: bool)
    requires Gens(s) && UpToDate(s) && ActEnabled(s, At(s, t), delay, ok) && At(s, t).Reading?
    ensures var (s', pc) := Act(s, At(s, t), delay, ok); !OutOfDate(Goto(s', t, pc))
  {
    var at := At(s, t).rd;
    assert t in s.threads;
    match at
    case ReadTest => case ReadWait => case ReadClear =>
    case ReadField(k, snap, gen) => assert gen < s.h.clears;
  }

  lemma CallerStays(s: State, t: Tid, delay: nat, ok: bool)
    requires UpToDate(s) && ActEnabled(s, At(s, t), delay, ok) && !At(s, t).Reading?
    ensures var (s', pc) := Act(s, At(s, t), delay, ok);
            OutOfDate(Goto(s', t, pc)) <==> FailsToMove(s.pose, At(s, t), ok)
  {
    var (s', pc) := Act(s, At(s, t), delay, ok);
    ActTells(s, At(s, t), delay, ok);
    var e := Goto(s', t, pc);
    assert Observe(e) == Observe(s') && e.threads[t] == pc;
  }

  lemma AnnouncedStays(s: State, s': State)
    requires UpToDate(s) && Announces(s, s')
    ensures !OutOfDate(s')
  {
  }

  lemma PlaceStays(s: State, s': State, t: Tid, pc: PC)
    requires UpToDate(s) && s' == s.(threads := s.threads[t := pc], h := s.h.(ctl := s'.h.ctl))
    ensures !OutOfDate(s')
  {
    assert Observe(s') == Observe(s);
  }

  /** Under either schedule: when every reader has been told everything, one step leaves the last
      snapshot out of date with no notify due if and only if it is a direct MOVE that changes an
      angle and fails on the bus. */
  lemma OutdatedExactly(sched: Schedule, s: State, step: Step)
    requires Reachable(sched, s) && UpToDate(s) && Enabled(sched, s, step)
    ensures OutOfDate(Next(sched, s, step)) <==> step.Advance? && FailsToMove(s.pose, At(s, step.t), step.ok)
  {
    ReachableGens(sched, s);
    match step
    case Advance(t, delay, ok) =>
      if At(s, t).Reading? { ReaderStays(s, t, delay, ok); } else { CallerStays(s, t, delay, ok); }
    case Work(ok) => WorkAnnounces(s, ok); AnnouncedStays(s, WorkNext(s, ok));
    case TimerStep(ok) => TimerAnnounces(s, ok); AnnouncedStays(s, TimerNext(s, ok));
    case Enter(t, call) => PlaceStays(s, Next(sched, s, step), t, EntryPoint(call));
    case Interrupt(t) => PlaceStays(s, Next(sched, s, step), t, Outside);
    case SetSpeed(_) => AnnouncedStays(s, Next(sched, s, step));
    case Fire => AnnouncedStays(s, Next(sched, s, step));
    case Begin => AnnouncedStays(s, Next(sched, s, step));
  }

  // The flag ------------------------------------------------------------------------------

  lemma ReadLowers(s: State, at: ReadAt)
    requires s.newData
    ensures !ActRead(s, at).0.newData <==> at.ReadClear?
  {
    match at case ReadTest => case ReadWait => case ReadClear => case ReadField(_, _, _) =>
  }

  /** Under either schedule a step takes the flag down if and only if a reader clears it. */
  lemma FlagFallsExactly(sched: Schedule, s: State, step: Step)
    requires Enabled(sched, s, step) && s.newData
    ensures !Next(sched, s, step).newData <==> step.Advance? && At(s, step.t) == Reading(ReadClear)
  {
    match step
    case Advance(t, delay, ok) =>
      if At(s, t).Reading? { ReadLowers(s, At(s, t).rd); } else { ActTells(s, At(s, t), delay, ok); }
    case Work(ok) => R.WorkIsStill(s, ok);
    case TimerStep(ok) => TimerAnnounces(s, ok);
    case Enter(_, _) => case Interrupt(_) => case SetSpeed(_) => case Fire => case Begin =>
  }

  /** A reader that has not cleared the flag yet. */
  predicate WillClear(pc: PC) { pc.Reading? && !pc.rd.ReadField? }

  predicate Alone(s: State, t: Tid) {
    forall u :: u in s.threads && u != t ==> !WillClear(s.threads[u])
  }

  /** While the reader `t` stands still, nobody begins a read. */
  predicate StandsStill(steps: seq<Step>, t: Tid) {
    forall k :: 0 <= k < |steps| ==>
      (steps[k].Enter? ==> !steps[k].call.Read?) && (steps[k].Advance? ==> steps[k].t != t)
      && (steps[k].Interrupt? ==> steps[k].t != t)
  }

  lemma CallStaysAlone(s: State, t: Tid, u: Tid, delay: nat, ok: bool)
    requires Alone(s, t) && u != t && u in s.threads && ActEnabled(s, At(s, u), delay, ok)
    ensures var (s', pc) := Act(s, At(s, u), delay, ok); Alone(Goto(s', u, pc), t)
  {
    if At(s, u).Reading? { assert !WillClear(At(s, u)); } else { ActTells(s, At(s, u), delay, ok); }
  }

  lemma StepStaysAlone(sched: Schedule, s: State, t: Tid, step: Step)
    requires Alone(s, t) && s.newData && Enabled(sched, s, step) && StandsStill([step], t)
    ensures Next(sched, s, step).newData && Alone(Next(sched, s, step), t)
  {
    assert [step][0] == step;
    FlagFallsExactly(sched, s, step);
    match step
    case Advance(u, delay, ok) => CallStaysAlone(s, t, u, delay, ok);
    case Work(ok) => R.WorkIsStill(s, ok);
    case TimerStep(ok) => TimerAnnounces(s, ok);
    case Enter(_, call) => assert !EntryPoint(call).Reading?;
    case Interrupt(_) => case SetSpeed(_) => case Fire => case Begin =>
  }

  lemma {:induction false} RunStaysAlone(sched: Schedule, s: State, t: Tid, steps: seq<Step>, e: State)
    requires Alone(s, t) && s.newData && Exec(sched, s, steps) == Some(e) && StandsStill(steps, t)
    ensures e.newData
    decreases |steps|
  {
    if steps != [] {
      assert [steps[0]][0] == steps[0];
      StepStaysAlone(sched, s, t, steps[0]);
      RunStaysAlone(sched, Next(sched, s, steps[0]), t, steps[1..], e);
    }
  }

  /** Another reader goes on until it has cleared the flag. */
  lemma {:induction false} OtherClears(sched: Schedule, s: State, t: Tid, u: Tid) returns (steps: seq<Step>, e: State)
    requires s.newData && u != t && u in s.threads && WillClear(s.threads[u])
    ensures Exec(sched, s, steps) == Some(e) && StandsStill(steps, t) && !e.newData
    decreases match s.threads[u].rd case ReadTest => 2 case ReadWait => 1 case _ => 0
  {
    var step := Advance(u, 0, true);
    var at := s.threads[u].rd;
    var s' := Next(sched, s, step);
    if at.ReadClear? {
      steps, e := [step], s';
    } else {
      assert s' == Goto(s, u, Reading(if at.ReadTest? then ReadWait else ReadClear));
      var rest;
      rest, e := OtherClears(sched, s', t, u);
      steps := [step] + rest;
      assert steps[1..] == rest;
    }
  }

  /** Under either schedule, for a reader past its O_NONBLOCK test with the flag up: it can go on
      however long it stands still while nobody begins a read, if and only if it is the only reader
      that has not cleared the flag. */
  lemma NeverSleepsExactly(sched: Schedule, s: State, t: Tid)
    requires s.newData && At(s, t) == Reading(ReadWait)
    ensures (forall steps, e :: Exec(sched, s, steps) == Some(e) && StandsStill(steps, t) ==> e.newData) <==> Alone(s, t)
  {
    if Alone(s, t) {
      forall steps, e | Exec(sched, s, steps) == Some(e) && StandsStill(steps, t) ensures e.newData {
        RunStaysAlone(sched, s, t, steps, e);
      }
    } else {
      var u :| u in s.threads && u != t && WillClear(s.threads[u]);
      var steps, e := OtherClears(sched, s, t, u);
    }
  }
}
