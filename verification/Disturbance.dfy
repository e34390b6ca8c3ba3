/**
  Who can set a servo while a replay runs: without a direct MOVE, at most one joystick press, and
  only if it was in flight when the start was accepted.
 */
module Disturbance {
  import opened EchoTypes
  import opened Machine
  import opened S = Serialised
  import opened R = Replaying
  import L = Lessons
  import M = Motion
  import U = Unrestricted

  // The mode stays REPLAY -----------------------------------------------------------------

  lemma {:induction false} RunNeedsStart(sched: Schedule, s: State, steps: seq<Step>, e: State)
    requires Exec(sched, s, steps) == Some(e)
    ensures StartsCount(s.h, s.mode, e.h, e.mode)
    decreases |steps|
  {
    if steps != [] {
      ReplayNeedsStart(sched, s, steps[0]);
      RunNeedsStart(sched, Next(sched, s, steps[0]), steps[1..], e);
    }
  }

  // Presses in flight ---------------------------------------------------------------------

  predicate NoMove(steps: seq<Step>) {
    forall k :: 0 <= k < |steps| ==> !(steps[k].Enter? && steps[k].call.DirectMove?)
  }

  predicate SetsNow(s: State, step: Step) {
    step.Advance? && SetsServo(At(s, step.t))
  }

  /** How often somebody other than the worker sets a servo in the run. */
  function Sets(s: State, steps: seq<Step>): nat
    requires Exec(Serialised, s, steps).Some?
    decreases |steps|
  {
    if steps == [] then 0
    else One(SetsNow(s, steps[0])) + Sets(Next(Serialised, s, steps[0]), steps[1..])
  }

  lemma CallLands(s: State, t: Tid, delay: nat, ok: bool)
    requires S.Inv(s) && s.mode == Replay && !MakesMove(Control(s))
    requires Enabled(Serialised, s, Advance(t, delay, ok))
    ensures var s' := Next(Serialised, s, Advance(t, delay, ok));
            && !MakesMove(Control(s'))
            && One(SetsServo(At(s, t))) + One(InFlight(Control(s'))) <= One(InFlight(Control(s)))
  {
    var pc := At(s, t);
    var (s1, pc') := Act(s, pc, delay, ok);
    if InControl(pc) {
      assert Control(s) == pc;
      ControlIsGood(s);
      U.ActData(s, pc, delay, ok);
      AfterGoto(s, s1, t, pc');
      ActStill(s, pc, delay, ok);
      assert !pc.Resetting?;
    } else {
      BystanderActs(s, pc, delay, ok);
      AfterGoto(s, s1, t, pc');
    }
  }

  lemma OtherStepsLand(s: State, step: Step)
    requires S.Inv(s) && Enabled(Serialised, s, step) && !step.Advance? && !step.Enter?
    ensures Control(Next(Serialised, s, step)) == Control(s)
  {
    match step
    case Interrupt(t) => BystanderMoves(s, t, Outside);
    case TimerStep(ok) => U.TimerData(s, ok); SameFrameHolds(s, TimerNext(s, ok));
    case Work(ok) => U.WorkData(s, ok); SameFrameHolds(s, WorkNext(s, ok));
    case SetSpeed(_) => SameFrameHolds(s, Next(Serialised, s, step));
    case Fire => SameFrameHolds(s, Next(Serialised, s, step));
    case Begin => SameFrameHolds(s, Next(Serialised, s, step));
  }

  lemma EntryLands(s: State, t: Tid, call: Call)
    requires S.Inv(s) && Enabled(Serialised, s, Enter(t, call)) && !call.DirectMove? && !MakesMove(Control(s))
    ensures var c' := Control(Next(Serialised, s, Enter(t, call)));
            !MakesMove(c') && (InFlight(c') ==> InFlight(Control(s)))
  {
    if call.Read? { BystanderMoves(s, t, EntryPoint(call)); } else { CountZero(s.threads, Controlling); }
  }

  /** In REPLAY no press is let in, and a press in flight sets its servo once. */
  lemma StepLands(s: State, step: Step)
    requires S.Inv(s) && s.mode == Replay && !MakesMove(Control(s))
    requires Enabled(Serialised, s, step) && !(step.Enter? && step.call.DirectMove?)
    ensures var s' := Next(Serialised, s, step);
            && !MakesMove(Control(s'))
            && One(SetsNow(s, step)) + One(InFlight(Control(s'))) <= One(InFlight(Control(s)))
  {
    match step
    case Advance(t, delay, ok) => CallLands(s, t, delay, ok);
    case Enter(t, call) => EntryLands(s, t, call);
    case _ => OtherStepsLand(s, step);
  }

  lemma {:induction false} RunLands(s: State, steps: seq<Step>, e: State)
    requires S.Inv(s) && s.mode == Replay && !MakesMove(Control(s))
    requires Exec(Serialised, s, steps) == Some(e) && NoMove(steps)
    requires e.mode == Replay && e.h.accepted == s.h.accepted
    ensures Sets(s, steps) + One(InFlight(Control(e))) <= One(InFlight(Control(s)))
    decreases |steps|
  {
    if steps != [] {
      var s' := Next(Serialised, s, steps[0]);
      S.StepKeeps(s, steps[0]);
      StepLands(s, steps[0]);
      ReplayNeedsStart(Serialised, s, steps[0]);
      RunNeedsStart(Serialised, s', steps[1..], e);
      RunLands(s', steps[1..], e);
    }
  }

  lemma {:induction false} LeftAloneExactly(s: State, steps: seq<Step>)
    requires Exec(Serialised, s, steps).Some?
    ensures LeftAlone(Serialised, s, steps) <==> Sets(s, steps) == 0
    decreases |steps|
  {
    if steps != [] { LeftAloneExactly(Next(Serialised, s, steps[0]), steps[1..]); }
  }

  // Results -------------------------------------------------------------------------------

  /** In every serialised run that begins and ends in REPLAY with no start accepted in between and
      no direct MOVE: at most one press sets a servo beside the worker, and only a press that was in
      flight when the run began; the fate of all other calls does not matter. */
  lemma OnlyOnePressDisturbs(s: State, steps: seq<Step>, e: State)
    requires Reachable(Serialised, s) && s.mode == Replay && !MakesMove(Control(s))
    requires Exec(Serialised, s, steps) == Some(e) && NoMove(steps)
    requires e.mode == Replay && e.h.accepted == s.h.accepted
    ensures Sets(s, steps) <= 1
    ensures Sets(s, steps) == 1 ==> exists t :: t in s.threads && InFlight(s.threads[t])
    ensures !InFlight(Control(s)) ==> LeftAlone(Serialised, s, steps)
  {
    S.ReachableInv(s);
    RunLands(s, steps, e);
    LeftAloneExactly(s, steps);
    if InFlight(Control(s)) { assert InFlight(s.threads[s.h.ctl]); }
  }

  /** The run goes on with the same replay: no direct MOVE, and no start accepted since. */
  predicate SameReplay(s: State, steps: seq<Step>, e: State) {
    Exec(Serialised, s, steps) == Some(e) && NoMove(steps) && e.mode == Replay && e.h.accepted == s.h.accepted
  }

  /** A press that has worked out its angle can set its servo at once. */
  lemma PressLands(s: State, t: Tid) returns (e: State)
    requires At(s, t).Inputting? && At(s, t).inp.InputMove? && s.mode == Replay
    ensures SameReplay(s, [Advance(t, 0, true)], e) && !LeftAlone(Serialised, s, [Advance(t, 0, true)])
  {
    var step := Advance(t, 0, true);
    e := Next(Serialised, s, step);
    assert [step][1..] == [];
  }

  lemma PressAims(s: State, t: Tid) returns (s': State)
    requires At(s, t).Inputting? && At(s, t).inp.InputGet? && s.mode == Replay
    ensures Enabled(Serialised, s, Advance(t, 0, true)) && s' == Next(Serialised, s, Advance(t, 0, true))
    ensures At(s', t).Inputting? && At(s', t).inp.InputMove? && s'.mode == Replay && s'.h.accepted == s.h.accepted
  {
    s' := Next(Serialised, s, Advance(t, 0, true));
  }

  /** A press in flight can set its servo at once, and the mode stays REPLAY. */
  lemma PressCanLand(s: State, t: Tid) returns (steps: seq<Step>, e: State)
    requires InFlight(At(s, t)) && s.mode == Replay
    ensures SameReplay(s, steps, e) && !LeftAlone(Serialised, s, steps)
  {
    var step := Advance(t, 0, true);
    if At(s, t).inp.InputMove? {
      e := PressLands(s, t);
      steps := [step];
    } else {
      var s' := PressAims(s, t);
      e := PressLands(s', t);
      steps := [step] + [step];
      assert steps[1..] == [step];
    }
  }

  /** In REPLAY, with no direct MOVE about to be made: every serialised continuation without one,
      and without a newly accepted start, leaves the servos to the worker if and only if no press is
      in flight. */
  lemma LeftAloneUnlessInFlight(s: State)
    requires Reachable(Serialised, s) && s.mode == Replay && !MakesMove(Control(s))
    ensures (forall steps, e :: SameReplay(s, steps, e) ==> LeftAlone(Serialised, s, steps)) <==> !InFlight(Control(s))
  {
    if InFlight(Control(s)) {
      var steps, e := PressCanLand(s, s.h.ctl);
    } else {
      forall steps, e | SameReplay(s, steps, e) ensures LeftAlone(Serialised, s, steps) {
        OnlyOnePressDisturbs(s, steps, e);
      }
    }
  }

  /** So without a direct MOVE, a replay retraces a lesson unless a press was in flight when the
      replay took the fifo's lock. */
  lemma ReplayRetracesUnlessInFlight(s0: State, lesson: seq<Step>, s: State, replay: seq<Step>, e: State)
    requires Reachable(Serialised, s0) && !Records(Control(s0))
    requires Exec(Serialised, s0, lesson) == Some(s) && L.Lesson(s0, lesson)
    requires s.worker == Snapping(Drain([], |s.fifo|)) && s.mode == Replay
    requires !InFlight(Control(s)) && !MakesMove(Control(s))
    requires Exec(Serialised, s, replay) == Some(e) && NoMove(replay)
    requires e.mode == Replay && e.h.accepted == s.h.accepted && e.h.begun == s.h.begun && e.worker.Playing?
    ensures var moves := L.MovesTaught(s0, lesson);
            var prior := U.Recording(s0.worker, s0.fifo);
            L.Retraces(e.pose, s.fifo, L.Lead(s.fifo, moves), Done(e.worker), L.PosesTaught(s0, lesson),
                       M.PlayAll(s0.pose, prior) == s0.pose)
  {
    StaysReachable(Serialised, s0, lesson, s);
    OnlyOnePressDisturbs(s, replay, e);
    L.ReplayRetracesLesson(s0, lesson, s, replay, e);
  }
}
