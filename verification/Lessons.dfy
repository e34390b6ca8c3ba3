/**
  Teaching and replaying the robot while calls go on around it: what a lesson leaves in the
  recording, and that a replay retraces the lesson move by move.
 */
module Lessons {
  import opened EchoTypes
  import opened Machine
  import opened S = Serialised
  import opened R = Replaying
  import M = Motion
  import U = Unrestricted

  // What a run teaches --------------------------------------------------------------------

  /** The step records a joystick press. */
  predicate IsRecord(s: State, step: Step) {
    step.Advance? && Records(At(s, step.t))
  }

  function RecordedBy(s: State, step: Step): Move
    requires IsRecord(s, step)
  {
    var at := At(s, step.t).inp;
    Move(at.servo, at.to, step.delay)
  }

  /** The moves recorded in a run, and the robot's pose just after each was made. */
  function MovesTaught(s: State, steps: seq<Step>): seq<Move>
    requires Exec(Serialised, s, steps).Some?
    decreases |steps|
  {
    if steps == [] then []
    else (if IsRecord(s, steps[0]) then [RecordedBy(s, steps[0])] else [])
         + MovesTaught(Next(Serialised, s, steps[0]), steps[1..])
  }

  function PosesTaught(s: State, steps: seq<Step>): seq<Pose>
    requires Exec(Serialised, s, steps).Some?
    decreases |steps|
  {
    if steps == [] then []
    else (if IsRecord(s, steps[0]) then [s.pose] else [])
         + PosesTaught(Next(Serialised, s, steps[0]), steps[1..])
  }

  /** Only joystick input moves the robot or changes the recording in this step: no direct MOVE,
      RESET, explicit TEACH or replayed move. */
  predicate InputOnly(s: State, step: Step) {
    && (step.Advance? ==> var pc := At(s, step.t); (SetsServo(pc) || SetsRecording(pc) ==> pc.Inputting?))
    && (step.Work? ==> !(s.worker.Playing? && s.worker.pl.PlayMove?))
  }

  predicate Lesson(s: State, steps: seq<Step>)
    requires Exec(Serialised, s, steps).Some?
    decreases |steps|
  {
    steps != [] ==> InputOnly(s, steps[0]) && Lesson(Next(Serialised, s, steps[0]), steps[1..])
  }

  // What every step of a lesson keeps -------------------------------------------------------

  /** The lesson began at pose `p` with the recording `prior`, and `ms` was taught since. */
  predicate Learnt(c: PC, rec: seq<Move>, pose: Pose, p: Pose, prior: seq<Move>, ms: seq<Move>) {
    && M.ValidMoves(ms) && rec == Newest(prior + ms)
    && pose == if Records(c) then SetServo(M.PlayAll(p, ms), c.inp.servo, c.inp.to) else M.PlayAll(p, ms)
  }

  predicate TaughtSince(s: State, c: PC, p: Pose, prior: seq<Move>, ms: seq<Move>) {
    Learnt(c, U.Recording(s.worker, s.fifo), s.pose, p, prior, ms)
  }

  /** The moves taught once a step is taken. */
  function Extended(s: State, step: Step, ms: seq<Move>): seq<Move> {
    if IsRecord(s, step) then ms + [RecordedBy(s, step)] else ms
  }

  lemma RecordTeaches(s: State, at: InputAt, delay: nat, p: Pose, prior: seq<Move>, ms: seq<Move>)
    requires TaughtSince(s, Inputting(at), p, prior, ms) && U.GoodPlace(Inputting(at)) && at.InputRecord?
    requires ActEnabled(s, Inputting(at), delay, true)
    ensures var (s', pc') := ActInput(s, at, delay); TaughtSince(s', pc', p, prior, ms + [Move(at.servo, at.to, delay)])
  {
    var m := Move(at.servo, at.to, delay);
    PushNewest(prior + ms, m);
    assert (prior + ms) + [m] == prior + (ms + [m]);
    assert (ms + [m])[..|ms|] == ms;
  }

  lemma ControlTeaches(s: State, c: PC, delay: nat, ok: bool, p: Pose, prior: seq<Move>, ms: seq<Move>)
    requires TaughtSince(s, c, p, prior, ms) && U.GoodPlace(c) && ActEnabled(s, c, delay, ok)
    requires SetsServo(c) || SetsRecording(c) ==> c.Inputting?
    ensures var (s', pc') := Act(s, c, delay, ok);
            TaughtSince(s', Focus(pc'), p, prior, if Records(c) then ms + [Move(c.inp.servo, c.inp.to, delay)] else ms)
  {
    if Records(c) {
      RecordTeaches(s, c.inp, delay, p, prior, ms);
    } else {
      ActStill(s, c, delay, ok);
    }
  }

  lemma WorkTeaches(s: State, c: PC, ok: bool, p: Pose, prior: seq<Move>, ms: seq<Move>)
    requires TaughtSince(s, c, p, prior, ms) && U.Data(s) && WorkEnabled(s)
    requires !(s.worker.Playing? && s.worker.pl.PlayMove?)
    ensures TaughtSince(WorkNext(s, ok), c, p, prior, ms)
  {
    match s.worker {
      case Snapping(at) => U.SnapKeepsRecording(s, at, ok); U.SnapFrame(s, at, ok);
      case Playing(at, plan, i) => match at { case Check => case PlayMove => case PlayNotify => }
      case Finishing(at) => match at { case Complete(_) => case Signal => case Wake => }
    }
  }

  lemma CallerTeaches(s: State, t: Tid, delay: nat, ok: bool, p: Pose, prior: seq<Move>, ms: seq<Move>)
    requires S.Inv(s) && TaughtSince(s, Control(s), p, prior, ms)
    requires Enabled(Serialised, s, Advance(t, delay, ok)) && InputOnly(s, Advance(t, delay, ok))
    ensures var s' := Next(Serialised, s, Advance(t, delay, ok));
            TaughtSince(s', Control(s'), p, prior, Extended(s, Advance(t, delay, ok), ms))
  {
    var pc := At(s, t);
    var (s1, pc') := Act(s, pc, delay, ok);
    if InControl(pc) {
      ControlIsGood(s);
      U.ActData(s, pc, delay, ok);
      AfterGoto(s, s1, t, pc');
      ControlTeaches(s, pc, delay, ok, p, prior, ms);
    } else {
      BystanderActs(s, pc, delay, ok);
      AfterGoto(s, s1, t, pc');
    }
  }

  lemma EntryTeaches(s: State, t: Tid, call: Call, p: Pose, prior: seq<Move>, ms: seq<Move>)
    requires S.Inv(s) && TaughtSince(s, Control(s), p, prior, ms) && Enabled(Serialised, s, Enter(t, call))
    ensures var s' := Next(Serialised, s, Enter(t, call)); TaughtSince(s', Control(s'), p, prior, ms)
  {
    if call.Read? {
      BystanderMoves(s, t, EntryPoint(call));
    } else {
      CountZero(s.threads, Controlling);
      assert !Records(EntryPoint(call)) && Control(s) == Outside;
    }
  }

  lemma OthersTeach(s: State, step: Step, p: Pose, prior: seq<Move>, ms: seq<Move>)
    requires S.Inv(s) && TaughtSince(s, Control(s), p, prior, ms) && Enabled(Serialised, s, step)
    requires step.SetSpeed? || step.Fire? || step.Begin?
    ensures var s' := Next(Serialised, s, step); TaughtSince(s', Control(s'), p, prior, ms)
  {
    SameFrameHolds(s, Next(Serialised, s, step));
  }

  lemma StepTeaches(s: State, step: Step, p: Pose, prior: seq<Move>, ms: seq<Move>)
    requires S.Inv(s) && TaughtSince(s, Control(s), p, prior, ms)
    requires Enabled(Serialised, s, step) && InputOnly(s, step)
    ensures var s' := Next(Serialised, s, step); TaughtSince(s', Control(s'), p, prior, Extended(s, step, ms))
  {
    match step
    case Advance(t, delay, ok) => CallerTeaches(s, t, delay, ok, p, prior, ms);
    case Enter(t, call) => EntryTeaches(s, t, call, p, prior, ms);
    case Interrupt(t) => BystanderMoves(s, t, Outside);
    case TimerStep(ok) =>
      U.TimerData(s, ok); SameFrameHolds(s, TimerNext(s, ok)); TimerIsStill(s, ok);
    case Work(ok) =>
      U.WorkData(s, ok); SameFrameHolds(s, WorkNext(s, ok)); WorkTeaches(s, Control(s), ok, p, prior, ms);
    case SetSpeed(_) => OthersTeach(s, step, p, prior, ms);
    case Fire => OthersTeach(s, step, p, prior, ms);
    case Begin => OthersTeach(s, step, p, prior, ms);
  }

  /** Just before a press is recorded, the robot stands where the recorded move puts it. */
  lemma PoseIsPlayed(s: State, step: Step, p: Pose, prior: seq<Move>, ms: seq<Move>)
    requires S.Inv(s) && TaughtSince(s, Control(s), p, prior, ms) && IsRecord(s, step)
    ensures s.pose == M.PlayAll(p, ms + [RecordedBy(s, step)])
  {
    assert Control(s) == At(s, step.t);
    assert (ms + [RecordedBy(s, step)])[..|ms|] == ms;
  }

  /** Each pose is where playing the moves up to it, after those of `ms`, leaves the robot. */
  predicate Stages(poses: seq<Pose>, moves: seq<Move>, p: Pose, ms: seq<Move>) {
    |poses| == |moves| && forall k :: 0 <= k < |poses| ==> poses[k] == M.PlayAll(p, ms + moves[..k + 1])
  }

  lemma StagesLater(poses: seq<Pose>, moves: seq<Move>, p: Pose, ms: seq<Move>, m: Move)
    requires Stages(poses, moves, p, ms + [m])
    ensures Stages([M.PlayAll(p, ms + [m])] + poses, [m] + moves, p, ms)
    ensures (ms + [m]) + moves == ms + ([m] + moves)
  {
    forall k | 0 <= k < |moves| + 1
      ensures ([M.PlayAll(p, ms + [m])] + poses)[k] == M.PlayAll(p, ms + ([m] + moves)[..k + 1])
    {
      assert ([m] + moves)[..k + 1] == [m] + moves[..k];
      assert ms + ([m] + moves[..k]) == (ms + [m]) + moves[..k];
    }
  }

  lemma {:induction false} RunTeaches(s: State, steps: seq<Step>, e: State, p: Pose, prior: seq<Move>, ms: seq<Move>)
    requires S.Inv(s) && TaughtSince(s, Control(s), p, prior, ms)
    requires Exec(Serialised, s, steps) == Some(e) && Lesson(s, steps)
    ensures TaughtSince(e, Control(e), p, prior, ms + MovesTaught(s, steps))
    ensures Stages(PosesTaught(s, steps), MovesTaught(s, steps), p, ms)
    decreases |steps|
  {
    if steps == [] {
      assert ms + [] == ms;
      assert Stages([], [], p, ms);
    } else {
      var s', ms' := Next(Serialised, s, steps[0]), Extended(s, steps[0], ms);
      S.StepKeeps(s, steps[0]);
      StepTeaches(s, steps[0], p, prior, ms);
      RunTeaches(s', steps[1..], e, p, prior, ms');
      if IsRecord(s, steps[0]) {
        PoseIsPlayed(s, steps[0], p, prior, ms);
        StagesLater(PosesTaught(s', steps[1..]), MovesTaught(s', steps[1..]), p, ms, RecordedBy(s, steps[0]));
      } else {
        assert [] + MovesTaught(s', steps[1..]) == MovesTaught(s', steps[1..]);
        assert [] + PosesTaught(s', steps[1..]) == PosesTaught(s', steps[1..]);
      }
    }
  }

  // Results -------------------------------------------------------------------------------

  /** In every serialised run, from any state in which no press is about to be recorded: as long as
      nothing but joystick input moves the robot or changes the recording, the recording is the
      newest 256 of the old moves and those made since, and after each of these the robot stood
      where playing them from the first pose leaves it. */
  lemma LessonIsRecorded(s0: State, steps: seq<Step>, s: State)
    requires Reachable(Serialised, s0) && !Records(Control(s0))
    requires Exec(Serialised, s0, steps) == Some(s) && Lesson(s0, steps)
    ensures U.Recording(s.worker, s.fifo) == Newest(U.Recording(s0.worker, s0.fifo) + MovesTaught(s0, steps))
    ensures Stages(PosesTaught(s0, steps), MovesTaught(s0, steps), s0.pose, [])
    ensures M.ValidMoves(MovesTaught(s0, steps))
    ensures !Records(Control(s)) ==> s.pose == M.PlayAll(s0.pose, MovesTaught(s0, steps))
  {
    S.ReachableInv(s0);
    var prior := U.Recording(s0.worker, s0.fifo);
    assert prior + [] == prior;
    RunTeaches(s0, steps, s, s0.pose, prior, []);
    assert [] + MovesTaught(s0, steps) == MovesTaught(s0, steps);
  }

  /** The recording is empty in the initial state, when an explicit TEACH has cleared it and when a
      RESET ends, and no press is about to be recorded there. */
  lemma LessonStartsEmpty(s: State, t: Tid)
    requires Reachable(Serialised, s)
    requires Initial(s) || At(s, t) == Teaching(TeachTotal) || At(s, t) == Resetting(ResetNotify)
    ensures U.Recording(s.worker, s.fifo) == [] && !Records(Control(s))
  {
    S.ReachableInv(s);
    if !Initial(s) { assert Control(s) == At(s, t); }
  }

  /** A recording `rec` of which the first `lead` moves are older than the lesson. After its first
      `k` moves every servo addressed by the lesson's moves so far stands where it stood after the
      corresponding move of the lesson; if `rest`, so does every servo addressed by any of them. */
  predicate Retraces(pose: Pose, rec: seq<Move>, lead: nat, k: nat, poses: seq<Pose>, rest: bool) {
    && k <= |rec| <= lead + |poses|
    && (lead < k ==> Agree(pose, poses[|poses| - |rec| + k - 1], if rest then rec[..k] else rec[lead..k]))
  }

  /** The two poses agree at every servo that `ms` addresses. */
  predicate Agree(p: Pose, q: Pose, ms: seq<Move>) {
    forall x :: 0 <= x < NUM_SERVOS && M.Addressed(ms, x) ==> AngleOf(p, x) == AngleOf(q, x)
  }

  /** How many of the surviving moves are older than the lesson's `ms`. */
  function Lead(rec: seq<Move>, ms: seq<Move>): nat {
    if |rec| >= |ms| then |rec| - |ms| else 0
  }

  lemma LessonPart(p: Pose, q: Pose, ms: seq<Move>, lost: nat, b: nat, x: nat)
    requires M.ValidMoves(ms) && lost <= b <= |ms| && x < NUM_SERVOS && M.Addressed(ms[lost..b], x)
    ensures AngleOf(M.PlayAll(q, ms[lost..b]), x) == AngleOf(M.PlayAll(p, ms[..b]), x)
  {
    assert ms[..b] == ms[..lost] + ms[lost..b];
    M.PlayAppend(p, ms[..lost], ms[lost..b]);
    M.PlayDetermines(q, M.PlayAll(p, ms[..lost]), ms[lost..b], x);
  }

  lemma LessonSlice(prior: seq<Move>, ms: seq<Move>, rec: seq<Move>, k: nat)
    requires rec == Newest(prior + ms) && Lead(rec, ms) <= k <= |rec|
    ensures var lead, lost := Lead(rec, ms), |ms| - |rec| + Lead(rec, ms);
            0 <= lost && rec[lead..k] == ms[lost..lost + k - lead]
  {
    var lead, lost := Lead(rec, ms), |ms| - |rec| + Lead(rec, ms);
    var d := |prior + ms| - |rec|;
    assert rec == (prior + ms)[d..];
    forall i | lead <= i < k ensures rec[i] == ms[lost + i - lead] {
      assert rec[i] == (prior + ms)[d + i];
    }
  }

  lemma SplitPlay(q: Pose, rec: seq<Move>, lead: nat, k: nat)
    requires lead <= k <= |rec|
    ensures M.PlayAll(q, rec[..k]) == M.PlayAll(M.PlayAll(q, rec[..lead]), rec[lead..k])
  {
    assert rec[..k] == rec[..lead] + rec[lead..k];
    M.PlayAppend(q, rec[..lead], rec[lead..k]);
  }

  lemma RetracedAt(p: Pose, q: Pose, prior: seq<Move>, ms: seq<Move>, rec: seq<Move>, k: nat, x: nat)
    requires M.ValidMoves(ms) && rec == Newest(prior + ms) && Lead(rec, ms) < k <= |rec|
    requires x < NUM_SERVOS && M.Addressed(rec[Lead(rec, ms)..k], x)
    ensures AngleOf(M.PlayAll(q, rec[..k]), x) == AngleOf(M.PlayAll(p, ms[..|ms| - |rec| + k]), x)
  {
    var lead := Lead(rec, ms);
    var lost, b := |ms| - |rec| + lead, |ms| - |rec| + k;
    SplitPlay(q, rec, lead, k);
    LessonSlice(prior, ms, rec, k);
    LessonPart(p, M.PlayAll(q, rec[..lead]), ms, lost, b, x);
  }

  lemma PriorThenLesson(o: Pose, p: Pose, prior: seq<Move>, ms: seq<Move>, b: nat)
    requires M.PlayAll(o, prior) == p && b <= |ms|
    ensures M.PlayAll(o, (prior + ms)[..|prior| + b]) == M.PlayAll(p, ms[..b])
  {
    assert (prior + ms)[..|prior| + b] == prior + ms[..b];
    M.PlayAppend(o, prior, ms[..b]);
  }

  lemma RestedAt(o: Pose, p: Pose, q: Pose, prior: seq<Move>, ms: seq<Move>, rec: seq<Move>, k: nat, x: nat)
    requires M.ValidMoves(prior) && M.ValidMoves(ms) && rec == Newest(prior + ms) && Lead(rec, ms) < k <= |rec|
    requires M.PlayAll(o, prior) == p && x < NUM_SERVOS && M.Addressed(rec[..k], x)
    ensures AngleOf(M.PlayAll(q, rec[..k]), x) == AngleOf(M.PlayAll(p, ms[..|ms| - |rec| + k]), x)
  {
    var b := |ms| - |rec| + k;
    PriorThenLesson(o, p, prior, ms, b);
    M.SurvivorsRetrace(o, q, prior + ms, k, x);
    assert |prior + ms| - |rec| + k == |prior| + b;
  }

  lemma RetracedAll(p: Pose, q: Pose, prior: seq<Move>, ms: seq<Move>, rec: seq<Move>, k: nat)
    requires M.ValidMoves(prior) && M.ValidMoves(ms) && rec == Newest(prior + ms) && Lead(rec, ms) < k <= |rec|
    ensures Agree(M.PlayAll(q, rec[..k]), M.PlayAll(p, ms[..|ms| - |rec| + k]),
                  if M.PlayAll(p, prior) == p then rec[..k] else rec[Lead(rec, ms)..k])
  {
    if M.PlayAll(p, prior) == p {
      forall x | 0 <= x < NUM_SERVOS && M.Addressed(rec[..k], x)
        ensures AngleOf(M.PlayAll(q, rec[..k]), x) == AngleOf(M.PlayAll(p, ms[..|ms| - |rec| + k]), x)
      {
        RestedAt(p, p, q, prior, ms, rec, k, x);
      }
    } else {
      forall x | 0 <= x < NUM_SERVOS && M.Addressed(rec[Lead(rec, ms)..k], x)
        ensures AngleOf(M.PlayAll(q, rec[..k]), x) == AngleOf(M.PlayAll(p, ms[..|ms| - |rec| + k]), x)
      {
        RetracedAt(p, q, prior, ms, rec, k, x);
      }
    }
  }

  lemma Retraced(p: Pose, q: Pose, prior: seq<Move>, ms: seq<Move>, poses: seq<Pose>, rec: seq<Move>, k: nat)
    requires M.ValidMoves(prior) && M.ValidMoves(ms) && Stages(poses, ms, p, [])
    requires rec == Newest(prior + ms) && k <= |rec|
    ensures Retraces(M.PlayAll(q, rec[..k]), rec, Lead(rec, ms), k, poses, M.PlayAll(p, prior) == p)
  {
    if Lead(rec, ms) < k {
      var b := |ms| - |rec| + k;
      assert [] + ms[..b] == ms[..b] && poses[b - 1] == M.PlayAll(p, ms[..b]);
      RetracedAll(p, q, prior, ms, rec, k);
    }
  }

  /** Replay reproduces teaching, over whole serialised runs. The robot is taught, by joystick input
      alone, until a worker run takes the fifo's lock, and nobody else sets a servo while that run
      plays. After its k-th move every servo that the lesson's moves have addressed so far stands
      exactly where it stood just after that move was taught, wherever the robot was when the replay
      began. If the lesson began where a replay of the old recording would have left the robot, the
      same holds of every servo that any move has addressed. */
  lemma ReplayRetracesLesson(s0: State, lesson: seq<Step>, s: State, replay: seq<Step>, e: State)
    requires Reachable(Serialised, s0) && !Records(Control(s0))
    requires Exec(Serialised, s0, lesson) == Some(s) && Lesson(s0, lesson)
    requires s.worker == Snapping(Drain([], |s.fifo|))
    requires Exec(Serialised, s, replay) == Some(e) && LeftAlone(Serialised, s, replay)
    requires e.h.begun == s.h.begun && e.worker.Playing?
    ensures var prior := U.Recording(s0.worker, s0.fifo);
            && s.fifo == Newest(prior + MovesTaught(s0, lesson))
            && Retraces(e.pose, s.fifo, Lead(s.fifo, MovesTaught(s0, lesson)), Done(e.worker), PosesTaught(s0, lesson),
                        M.PlayAll(s0.pose, prior) == s0.pose)
  {
    LessonIsRecorded(s0, lesson, s);
    assert U.Recording(s.worker, s.fifo) == [] + s.fifo == s.fifo;
    StaysReachable(Serialised, s0, lesson, s);
    ReplayFollowsRecording(Serialised, s, replay, e);
    OldIsValid(s0);
    Retraced(s0.pose, s.pose, U.Recording(s0.worker, s0.fifo), MovesTaught(s0, lesson), PosesTaught(s0, lesson),
             s.fifo, Done(e.worker));
  }

  lemma OldIsValid(s: State)
    requires Reachable(Serialised, s)
    ensures M.ValidMoves(U.Recording(s.worker, s.fifo))
  {
    S.ReachableInv(s);
  }

  /** A lesson that begins with an empty recording, as after loading, TEACH or RESET: the replay
      retraces it from the first surviving move on, at every servo addressed so far. */
  lemma ReplayRetracesFreshLesson(s0: State, t: Tid, lesson: seq<Step>, s: State, replay: seq<Step>, e: State)
    requires Reachable(Serialised, s0)
    requires Initial(s0) || At(s0, t) == Teaching(TeachTotal) || At(s0, t) == Resetting(ResetNotify)
    requires Exec(Serialised, s0, lesson) == Some(s) && Lesson(s0, lesson)
    requires s.worker == Snapping(Drain([], |s.fifo|))
    requires Exec(Serialised, s, replay) == Some(e) && LeftAlone(Serialised, s, replay)
    requires e.h.begun == s.h.begun && e.worker.Playing?
    ensures s.fifo == Newest(MovesTaught(s0, lesson))
    ensures Retraces(e.pose, s.fifo, 0, Done(e.worker), PosesTaught(s0, lesson), true)
  {
    LessonStartsEmpty(s0, t);
    ReplayRetracesLesson(s0, lesson, s, replay, e);
    assert [] + MovesTaught(s0, lesson) == MovesTaught(s0, lesson);
  }

  lemma RestedPose(o: Pose, p: Pose, prior: seq<Move>, ms: seq<Move>, q: Pose)
    requires M.ValidMoves(prior) && M.ValidMoves(ms) && M.PlayAll(o, prior) == p && q == M.PlayAll(p, ms)
    ensures M.PlayAll(q, Newest(prior + ms)) == q
  {
    var all := prior + ms;
    M.PlayAppend(o, prior, ms);
    M.PlayIsIdempotent(o, all);
    M.DropKeepsRest(q, all, |all| - |Newest(all)|);
    assert Newest(all) == all[|all| - |Newest(all)|..];
  }

  /** Replay is idempotent on the pose, over whole serialised runs: after a lesson that began at rest,
      a run that finds nobody about to record a press, is left alone and plays all it found ends in
      the pose in which it began. */
  lemma ReplayKeepsPose(s0: State, lesson: seq<Step>, s: State, replay: seq<Step>, e: State)
    requires Reachable(Serialised, s0) && !Records(Control(s0))
    requires M.PlayAll(s0.pose, U.Recording(s0.worker, s0.fifo)) == s0.pose
    requires Exec(Serialised, s0, lesson) == Some(s) && Lesson(s0, lesson)
    requires s.worker == Snapping(Drain([], |s.fifo|)) && !Records(Control(s))
    requires Exec(Serialised, s, replay) == Some(e) && LeftAlone(Serialised, s, replay)
    requires e.h.begun == s.h.begun && e.worker.Playing? && Done(e.worker) == |s.fifo|
    ensures e.pose == s.pose
  {
    LessonIsRecorded(s0, lesson, s);
    assert U.Recording(s.worker, s.fifo) == [] + s.fifo == s.fifo;
    StaysReachable(Serialised, s0, lesson, s);
    ReplayFollowsRecording(Serialised, s, replay, e);
    OldIsValid(s0);
    RestedPose(s0.pose, s0.pose, U.Recording(s0.worker, s0.fifo), MovesTaught(s0, lesson), s.pose);
    assert s.fifo[..|s.fifo|] == s.fifo;
  }
}
