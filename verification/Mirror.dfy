/**
  TILT2 mirrors PAN. Which steps break that, exactly, and which runs keep it.
 */
module Mirror {
  import opened EchoTypes
  import opened Machine
  import opened S = Serialised
  import opened SerialRuns
  import R = Replaying
  import U = Unrestricted

  predicate Mirrored(s: State) { s.pose.tilt2 == s.pose.pan }

  /** The step moves TILT2 away from PAN: a RESET that centres TILT2 although PAN has left the
      centre, or a direct MOVE of TILT2 to another angle. */
  predicate Separates(s: State, step: Step) {
    step.Advance? &&
    match At(s, step.t)
    case Resetting(at) => at == ResetServo(TILT2) && s.pose.pan != CENTER
    case Moving(MoveSet(id, angle)) => id % U8 == TILT2 && Min(angle % U16, ANGLE_MAX) != s.pose.pan
    case _ => false
  }

  // One step ------------------------------------------------------------------------------

  lemma ResetMirrors(s: State, at: ResetAt)
    requires Mirrored(s) && U.GoodPlace(Resetting(at))
    ensures Mirrored(ActReset(s, at).0) <==> !(at == ResetServo(TILT2) && s.pose.pan != CENTER)
  {
    match at case ResetClear => case ResetServo(_) => case ResetNotify =>
  }

  lemma MoveMirrors(s: State, at: MoveAt, ok: bool)
    requires Mirrored(s)
    ensures Mirrored(ActMove(s, at, ok).0) <==>
      !(at.MoveSet? && at.id % U8 == TILT2 && Min(at.angle % U16, ANGLE_MAX) != s.pose.pan)
  {
    match at case MoveSet(_, _) => case MoveNotify =>
  }

  lemma InputMirrors(s: State, at: InputAt, delay: nat)
    requires Mirrored(s) && U.GoodPlace(Inputting(at))
    ensures Mirrored(ActInput(s, at, delay).0)
  {
    match at
    case InputMode(_, _) => case InputGet(_, _) => case InputMove(_, _) => case InputRecord(_, _) =>
    case InputTotal => case InputTimer => case InputNotify =>
  }

  lemma CallMirrors(s: State, t: Tid, delay: nat, ok: bool)
    requires Mirrored(s) && U.GoodPlace(At(s, t)) && ActEnabled(s, At(s, t), delay, ok)
    ensures Mirrored(Act(s, At(s, t), delay, ok).0) <==> !Separates(s, Advance(t, delay, ok))
  {
    match At(s, t)
    case Starting(_, _) => R.ActStill(s, At(s, t), delay, ok);
    case Stopping(_, _) => R.ActStill(s, At(s, t), delay, ok);
    case Resetting(at) => ResetMirrors(s, at);
    case Teaching(_) => R.ActStill(s, At(s, t), delay, ok);
    case Moving(at) => MoveMirrors(s, at, ok);
    case Inputting(at) => InputMirrors(s, at, delay);
    case Reading(at) => ReadsTouchReaders(s, at);
    case ClearFinished =>
    case Asleep =>
  }

  lemma WorkMirrors(s: State, ok: bool)
    requires Mirrored(s) && U.Data(s) && WorkEnabled(s)
    ensures Mirrored(WorkNext(s, ok))
  {
    match s.worker {
      case Snapping(at) => U.SnapFrame(s, at, ok);
      case Playing(at, plan, i) => match at { case Check => case PlayMove => assert GoodMove(plan[i]); case PlayNotify => }
      case Finishing(at) => match at { case Complete(_) => case Signal => case Wake => }
    }
  }

  /** Under either schedule, a step breaks the mirror if and only if it is the part of a RESET that
      centres TILT2 when PAN has left the centre, or a direct MOVE of TILT2 to another angle.
      Joystick input and replays never do. */
  lemma UnmirroredExactly(sched: Schedule, s: State, step: Step)
    requires U.Inv(s) && Mirrored(s) && Enabled(sched, s, step)
    ensures !Mirrored(Next(sched, s, step)) <==> Separates(s, step)
  {
    match step
    case Advance(t, delay, ok) => CallMirrors(s, t, delay, ok);
    case Work(ok) => WorkMirrors(s, ok);
    case TimerStep(ok) => R.TimerIsStill(s, ok);
    case Enter(_, _) => case Interrupt(_) => case SetSpeed(_) => case Fire => case Begin =>
  }

  // Runs ----------------------------------------------------------------------------------

  predicate MirroredThroughout(sched: Schedule, s: State, steps: seq<Step>)
    requires Exec(sched, s, steps).Some?
    decreases |steps|
  {
    Mirrored(s) && (steps != [] ==> MirroredThroughout(sched, Next(sched, s, steps[0]), steps[1..]))
  }

  predicate NeverSeparates(sched: Schedule, s: State, steps: seq<Step>)
    requires Exec(sched, s, steps).Some?
    decreases |steps|
  {
    steps != [] ==> !Separates(s, steps[0]) && NeverSeparates(sched, Next(sched, s, steps[0]), steps[1..])
  }

  lemma {:induction false} RunMirrors(sched: Schedule, s: State, steps: seq<Step>)
    requires U.Inv(s) && Mirrored(s) && Exec(sched, s, steps).Some?
    ensures MirroredThroughout(sched, s, steps) <==> NeverSeparates(sched, s, steps)
    decreases |steps|
  {
    if steps != [] {
      U.StepKeeps(sched, s, steps[0]);
      UnmirroredExactly(sched, s, steps[0]);
      if !Separates(s, steps[0]) { RunMirrors(sched, Next(sched, s, steps[0]), steps[1..]); }
    }
  }

  /** Under either schedule, a run from a mirrored state stays mirrored if and only if none of its
      steps separates the two servos. */
  lemma MirrorLastsExactly(sched: Schedule, s: State, steps: seq<Step>)
    requires Reachable(sched, s) && Mirrored(s) && Exec(sched, s, steps).Some?
    ensures MirroredThroughout(sched, s, steps) <==> NeverSeparates(sched, s, steps)
  {
    U.ReachableInv(sched, s);
    RunMirrors(sched, s, steps);
  }

  /** No direct MOVE that names TILT2 is made in the run. */
  predicate NoTilt2Move(steps: seq<Step>) {
    forall k :: 0 <= k < |steps| ==>
      !(steps[k].Enter? && steps[k].call.DirectMove? && steps[k].call.id % U8 == TILT2)
  }

  /** Serialised, RESET finds PAN centred when it comes to TILT2. */
  lemma OnlyMovesSeparate(s: State, step: Step)
    requires S.Inv(s) && Enabled(Serialised, s, step) && !MovesTilt2(Control(s))
    ensures !Separates(s, step)
  {
    if step.Advance? && InControl(At(s, step.t)) {
      assert At(s, step.t) == Control(s);
      assert ResetHolds(Control(s), s.fifo, s.pose);
    }
  }

  lemma {:induction false} SerialRunMirrors(s: State, steps: seq<Step>)
    requires S.Inv(s) && Exec(Serialised, s, steps).Some? && NoTilt2Move(steps) && !MovesTilt2(Control(s))
    ensures NeverSeparates(Serialised, s, steps)
    decreases |steps|
  {
    if steps != [] {
      OnlyMovesSeparate(s, steps[0]);
      S.StepKeeps(s, steps[0]);
      StepTraces(s, steps[0]);
      SerialRunMirrors(Next(Serialised, s, steps[0]), steps[1..]);
    }
  }

  /** In every serialised run from a mirrored state, as long as no direct MOVE names TILT2, TILT2
      stands where PAN stands, through joystick input, replay and RESET. */
  lemma MirrorIsKept(s: State, steps: seq<Step>)
    requires Reachable(Serialised, s) && Mirrored(s) && !MovesTilt2(Control(s))
    requires Exec(Serialised, s, steps).Some? && NoTilt2Move(steps)
    ensures MirroredThroughout(Serialised, s, steps)
  {
    S.ReachableInv(s);
    SerialRunMirrors(s, steps);
    RunMirrors(Serialised, s, steps);
  }

  /** So it is from the start, and a RESET restores the mirror from then on, whatever went before. */
  lemma ResetRestoresMirror(s: State, t: Tid, steps: seq<Step>)
    requires Reachable(Serialised, s) && (Initial(s) || At(s, t) == Resetting(ResetNotify))
    requires Exec(Serialised, s, steps).Some? && NoTilt2Move(steps)
    ensures MirroredThroughout(Serialised, s, steps)
  {
    if Initial(s) {
      assert Control(s) == Outside;
    } else {
      S.ReachableInv(s);
      assert Control(s) == Resetting(ResetNotify);
    }
    MirrorIsKept(s, steps);
  }
}
