/**
  Concrete runs to states that a reader might think the driver avoids. Each result names the calls
  that are made in its run.
 */
module Limits {
  import opened EchoTypes
  import opened Machine
  import opened Calls
  import opened Exactly

  /** The run makes no call but these. */
  predicate Makes(steps: seq<Step>, calls: set<Call>) {
    forall k :: 0 <= k < |steps| && steps[k].Enter? ==> steps[k].call in calls
  }

  /** `s` is reached by a run from an initial state that makes no call but these. */
  ghost predicate Found(sched: Schedule, s: State, calls: set<Call>) {
    exists s0, steps :: Initial(s0) && Exec(sched, s0, steps) == Some(s) && Makes(steps, calls)
  }

  /** More steps of a run. */
  lemma Runs(sched: Schedule, calls: set<Call>, s: State, steps: seq<Step>, e: State)
    requires Found(sched, s, calls) && Exec(sched, s, steps) == Some(e) && Makes(steps, calls)
    ensures Found(sched, e, calls)
  {
    var s0, before :| Initial(s0) && Exec(sched, s0, before) == Some(s) && Makes(before, calls);
    ExecJoins(sched, s0, before, s, steps);
    assert Makes(before + steps, calls);
  }

  lemma Go(sched: Schedule, calls: set<Call>, s: State, step: Step) returns (s': State)
    requires Found(sched, s, calls) && Enabled(sched, s, step) && (step.Enter? ==> step.call in calls)
    ensures Found(sched, s', calls) && s' == Next(sched, s, step)
  {
    s' := Next(sched, s, step);
    assert [step][1..] == [] && Exec(sched, s, [step]) == Some(s') && Makes([step], calls);
    Runs(sched, calls, s, [step], s');
  }

  /** One more step of the thread `t`, which stands at `pc`. */
  lemma Do(sched: Schedule, calls: set<Call>, s: State, t: Tid, pc: PC) returns (s': State)
    requires Found(sched, s, calls) && t in s.threads && s.threads[t] == pc && ActEnabled(s, pc, 0, true)
    ensures Found(sched, s', calls)
    ensures var (s1, pc') := Act(s, pc, 0, true); s' == Goto(s1, t, pc')
  {
    s' := Go(sched, calls, s, Advance(t, 0, true));
  }

  /** A thread that is not inside comes in. */
  lemma Comes(sched: Schedule, calls: set<Call>, s: State, t: Tid, call: Call) returns (s': State)
    requires Found(sched, s, calls) && At(s, t).Outside? && call in calls
    requires sched == Serialised ==> forall u :: u in s.threads ==> !InControl(s.threads[u])
    ensures Found(sched, s', calls)
    ensures s' == s.(threads := s.threads[t := EntryPoint(call)], h := s.h.(ctl := s'.h.ctl))
  {
    CountZero(s.threads, Controlling);
    s' := Go(sched, calls, s, Enter(t, call));
  }

  lemma Begins(sched: Schedule, calls: set<Call>) returns (s: State)
    ensures Initial(s) && Found(sched, s, calls)
  {
    s := State(Idle, false, false, false, Resting, false, Quiet, [], CENTRED, 0, 0, 1, map[],
               History(0, 0, 0, 0, 0, true, true, 0, true, 0, None, false, 0));
    assert Exec(sched, s, []) == Some(s) && Makes([], calls);
  }

  const G := Given(0, true)

  /** The thread `t` goes on alone for `n` steps. */
  lemma Alone(sched: Schedule, calls: set<Call>, s: State, t: Tid, n: nat) returns (s': State)
    requires Found(sched, s, calls)
    ensures Found(sched, s', calls) && s' == After(s, t, G, n)
  {
    var steps := AfterIsRun(sched, s, t, G, n);
    s' := After(s, t, G, n);
    Runs(sched, calls, s, steps, s');
  }

  /** A thread that is not inside makes a call and goes on alone for `n` steps; `at` is the state in
      which it comes in. */
  lemma CallRuns(sched: Schedule, calls: set<Call>, s: State, t: Tid, call: Call, n: nat) returns (at: State, s': State)
    requires Found(sched, s, calls) && At(s, t).Outside? && call in calls
    requires sched == Serialised ==> forall u :: u in s.threads ==> !InControl(s.threads[u])
    ensures at == s.(h := s.h.(ctl := at.h.ctl)) && Found(sched, s', calls) && s' == Called(at, t, call, G, n)
  {
    var s1 := Comes(sched, calls, s, t, call);
    at := s.(h := s1.h);
    s' := Alone(sched, calls, s1, t, n);
    assert s1 == Goto(at, t, EntryPoint(call));
  }

  /** A stop that has written its mode goes on to its end. */
  lemma StopAlone(calls: set<Call>, s: State, t: Tid, reset: bool) returns (s': State)
    requires Found(Unrestricted, s, calls) && t in s.threads && s.threads[t] == Stopping(StopTimer, reset)
    requires s.worker.Resting? && s.timer.Quiet?
    ensures Found(Unrestricted, s', calls) && s' == Goto(Stopped(s), t, if reset then Resetting(ResetClear) else Outside)
  {
    StopGoesOn(s, t, reset, G);
    assert Goto(s, t, Stopping(StopTimer, reset)) == s;
    s' := Alone(Unrestricted, calls, s, t, 6);
  }

  // A start inside a stop -------------------------------------------------------------------

  const STOP_START: set<Call> := {Stop, ModeReplay}

  /** Thread 0 has written IDLE for a stop or a RESET. */
  lemma StopHasWritten(calls: set<Call>, call: Call) returns (s: State)
    requires call in calls && (call.Stop? || call.Reset?)
    ensures Found(Unrestricted, s, calls) && s.threads == map[0 := Stopping(StopTimer, call.Reset?)]
    ensures s.mode == Idle && s.worker.Resting? && s.timer.Quiet? && !s.pending && s.pose == CENTRED
  {
    s := Begins(Unrestricted, calls);
    s := Comes(Unrestricted, calls, s, 0, call);
    s := Do(Unrestricted, calls, s, 0, Stopping(StopMode, call.Reset?));
    assert s.threads == map[0 := Stopping(StopTimer, call.Reset?)];
  }

  lemma StartGetsIn() returns (s: State)
    ensures Found(Unrestricted, s, STOP_START) && s.threads == map[0 := Stopping(StopTimer, false), 1 := Outside]
    ensures s.mode == Replay && s.worker.Resting? && s.timer.Quiet? && s.pending
  {
    var a := StopHasWritten(STOP_START, Stop);
    var at;
    at, s := CallRuns(Unrestricted, STOP_START, a, 1, ModeReplay, 5);
    StartDoes(at, 1, false, G, 5);
    assert s.threads == map[0 := Stopping(StopTimer, false), 1 := Outside];
  }

  /** Unserialised, a start that lands inside a stop has its work cancelled while the mode stays
      REPLAY: a run to a state in which nobody is inside the driver and nothing is left to do. */
  lemma StuckWhenUnrestricted() returns (s: State)
    ensures Found(Unrestricted, s, STOP_START) && Stuck(s)
    ensures s.worker.Resting? && s.timer.Quiet? && s.threads == map[0 := Outside, 1 := Outside]
  {
    s := StartGetsIn();
    s := StopAlone(STOP_START, s, 0, false);
    assert s.threads == map[0 := Outside, 1 := Outside];
    CountZero(s.threads, BeforeQueue);
  }

  // A press inside a stop -------------------------------------------------------------------

  const STOP_PRESS: set<Call> := {Stop, Input(true, false)}

  lemma PressGetsIn() returns (s: State)
    ensures Found(Unrestricted, s, STOP_PRESS) && s.threads == map[0 := Stopping(StopTimer, false), 1 := Outside]
    ensures s.mode == Teach && s.worker.Resting? && s.timer.Quiet?
  {
    var a := StopHasWritten(STOP_PRESS, Stop);
    var at;
    at, s := CallRuns(Unrestricted, STOP_PRESS, a, 1, Input(true, false), 7);
    var to := PressDoes(at, 1, true, false, G, 7);
    assert s.threads == map[0 := Stopping(StopTimer, false), 1 := Outside];
  }

  /** Unserialised, a joystick press that lands inside a stop has its timer switched off while the
      mode stays TEACH: no inactivity will start a replay. */
  lemma AbandonedWhenUnrestricted() returns (s: State)
    ensures Found(Unrestricted, s, STOP_PRESS) && Abandoned(s)
    ensures s.worker.Resting? && s.timer.Quiet? && s.threads == map[0 := Outside, 1 := Outside]
  {
    s := PressGetsIn();
    s := StopAlone(STOP_PRESS, s, 0, false);
    assert s.threads == map[0 := Outside, 1 := Outside];
    CountZero(s.threads, Arming);
  }

  // A press inside a RESET ------------------------------------------------------------------

  const RESET_PRESS: set<Call> := {Reset, Input(true, true)}

  lemma ResetAtTilt2() returns (s: State)
    ensures Found(Unrestricted, s, RESET_PRESS) && s.threads == map[0 := Resetting(ResetServo(2))]
    ensures s.mode == Idle && s.worker.Resting? && s.pose == CENTRED
  {
    var a := StopHasWritten(RESET_PRESS, Reset);
    var b := StopAlone(RESET_PRESS, a, 0, true);
    ResetClears(Stopped(a), 0, G);
    s := Alone(Unrestricted, RESET_PRESS, b, 0, 2);
    s := Do(Unrestricted, RESET_PRESS, s, 0, Resetting(ResetServo(1)));
    assert s.threads == map[0 := Resetting(ResetServo(2))];
  }

  lemma PressIsInFlight() returns (s: State)
    ensures Found(Unrestricted, s, RESET_PRESS) && s.pose == CENTRED
    ensures s.threads == map[0 := Resetting(ResetServo(2)), 1 := Inputting(InputMove(PAN, 95))]
  {
    var a := ResetAtTilt2();
    var at;
    at, s := CallRuns(Unrestricted, RESET_PRESS, a, 1, Input(true, true), 2);
    var to := PressAims(at, 1, true, true, G);
    assert s.threads == map[0 := Resetting(ResetServo(2)), 1 := Inputting(InputMove(PAN, 95))];
  }

  /** Unserialised, a joystick press that lands inside a RESET separates TILT2 from PAN although
      nobody makes a direct MOVE. */
  lemma MirrorBreaksWhenUnrestricted() returns (s: State)
    ensures Found(Unrestricted, s, RESET_PRESS) && s.pose == Pose(95, 90, 90)
  {
    s := PressIsInFlight();
    s := Do(Unrestricted, RESET_PRESS, s, 1, Inputting(InputMove(PAN, 95)));
    s := Do(Unrestricted, RESET_PRESS, s, 0, Resetting(ResetServo(2)));
  }

  // A MOVE that fails on the bus --------------------------------------------------------------

  const MOVE_READ: set<Call> := {DirectMove(TILT, CENTER), DirectMove(TILT, 10), Read(false)}

  lemma MoveNotifies(sched: Schedule, calls: set<Call>) returns (s: State)
    requires DirectMove(TILT, CENTER) in calls
    ensures Found(sched, s, calls) && s.threads == map[0 := Outside] && s.newData && s.pose == CENTRED
  {
    var a := Begins(sched, calls);
    var at;
    at, s := CallRuns(sched, calls, a, 0, DirectMove(TILT, CENTER), 2);
    MoveDoes(at, 0, TILT, CENTER, G, 2);
    assert s.threads == map[0 := Outside];
  }

  lemma ReadEnds() returns (s: State)
    ensures Found(Unrestricted, s, MOVE_READ) && !s.newData && s.pose == CENTRED
    ensures s.threads == map[0 := Outside] && s.h.last.Some? && s.h.last.value.tilt == CENTER
  {
    var a := MoveNotifies(Unrestricted, MOVE_READ);
    var at;
    at, s := CallRuns(Unrestricted, MOVE_READ, a, 0, Read(false), 11);
    ReadDoes(at, 0, false, G, 11);
    assert s.threads == map[0 := Outside];
  }

  /** A direct MOVE whose bus write fails stores its angle but tells no reader: the flag stays down
      and the last snapshot is out of date. */
  lemma FailedMoveIsSilent() returns (s: State)
    ensures Found(Unrestricted, s, MOVE_READ) && !s.newData && s.threads == map[0 := Outside]
    ensures s.h.last.Some? && s.h.last.value != Observe(s) && s.h.silent
  {
    s := ReadEnds();
    s := Comes(Unrestricted, MOVE_READ, s, 0, DirectMove(TILT, 10));
    s := Go(Unrestricted, MOVE_READ, s, Advance(0, 0, false));
    assert s.threads == map[0 := Outside];
  }

  // A press inside a replay ------------------------------------------------------------------

  const PRESSES: set<Call> := {Input(true, true)}
  const PRESSED := Move(PAN, 95, 0)

  /** Thread 0 is outside or at `pc`, the robot has been taught one move, and no work is under way. */
  predicate OnePressTaught(s: State, pc: PC) {
    && s.threads == map[0 := pc] && s.mode == Teach && s.timer.Quiet? && !s.pending && s.worker.Resting?
    && s.fifo == [PRESSED] && s.pose == Pose(95, 90, 95)
  }

  lemma FirstPressIsOver() returns (s: State)
    ensures Found(Serialised, s, PRESSES) && OnePressTaught(s, Outside) && s.armed
  {
    var a := Begins(Serialised, PRESSES);
    var at;
    at, s := CallRuns(Serialised, PRESSES, a, 0, Input(true, true), 7);
    var to := PressDoes(at, 0, true, true, G, 7);
    assert s.threads == map[0 := Outside] && s.fifo == [PRESSED];
  }

  lemma SecondPressIsInFlight() returns (s: State)
    ensures Found(Serialised, s, PRESSES) && OnePressTaught(s, Inputting(InputMove(PAN, 100))) && s.armed
  {
    var a := FirstPressIsOver();
    var at;
    at, s := CallRuns(Serialised, PRESSES, a, 0, Input(true, true), 2);
    var to := PressAims(at, 0, true, true, G);
    assert s.threads == map[0 := Inputting(InputMove(PAN, 100))];
  }

  /** The timer has started a replay while the second press is about to move the robot. */
  predicate SecondInFlight(s: State) {
    s.threads == map[0 := Inputting(InputMove(PAN, 100))] && s.mode == Replay && s.pose == Pose(95, 90, 95)
  }

  lemma TimerStartsReplay() returns (s: State)
    ensures Found(Serialised, s, PRESSES) && SecondInFlight(s) && s.fifo == [PRESSED] && s.worker.Resting? && s.pending
  {
    s := SecondPressIsInFlight();
    s := Go(Serialised, PRESSES, s, Fire);
    s := Go(Serialised, PRESSES, s, TimerStep(true));
    s := Go(Serialised, PRESSES, s, TimerStep(true));
  }

  lemma ReplayDrains() returns (s: State)
    ensures Found(Serialised, s, PRESSES) && SecondInFlight(s) && s.fifo == [] && s.worker == Snapping(Drain([PRESSED], 1))
  {
    s := TimerStartsReplay();
    s := Go(Serialised, PRESSES, s, Begin);
    s := Go(Serialised, PRESSES, s, Work(true));
    s := Go(Serialised, PRESSES, s, Work(true));
    assert [] + [PRESSED] == [PRESSED];
  }

  lemma ReplayPutsBack() returns (s: State)
    ensures Found(Serialised, s, PRESSES) && SecondInFlight(s) && s.worker == Playing(Check, [PRESSED], 0)
  {
    s := ReplayDrains();
    s := Go(Serialised, PRESSES, s, Work(true));
    s := Go(Serialised, PRESSES, s, Work(true));
    s := Go(Serialised, PRESSES, s, Work(true));
    s := Go(Serialised, PRESSES, s, Work(true));
  }

  lemma ReplayMoves() returns (s: State)
    ensures Found(Serialised, s, PRESSES) && SecondInFlight(s) && s.worker == Playing(PlayNotify, [PRESSED], 0)
  {
    s := ReplayPutsBack();
    s := Go(Serialised, PRESSES, s, Work(true));
    s := Go(Serialised, PRESSES, s, Work(true));
  }

  /** Serialised, with no call but joystick presses: a press that was in flight when the timer
      started the replay moves PAN to 100 just after the replay has brought it to 95. */
  lemma PressDisturbsReplay() returns (s: State)
    ensures Found(Serialised, s, PRESSES) && s.mode == Replay
    ensures s.worker == Playing(PlayNotify, [PRESSED], 0) && s.pose.pan == 100 != PRESSED.angle
  {
    s := ReplayMoves();
    s := Do(Serialised, PRESSES, s, 0, Inputting(InputMove(PAN, 100)));
  }

  // The end of a replay ---------------------------------------------------------------------

  /** A replay of an empty recording, with nobody inside. */
  predicate Running(s: State, w: WorkerPC) {
    && s.threads == map[0 := Outside] && s.mode == Replay && !s.pending && s.timer.Quiet?
    && s.worker == w && s.fifo == [] && s.h.begun == 1
  }

  lemma RunBegins(calls: set<Call>) returns (s: State)
    requires ModeReplay in calls
    ensures Found(Serialised, s, calls) && Running(s, Snapping(Alloc))
  {
    var a := Begins(Serialised, calls);
    var at;
    at, s := CallRuns(Serialised, calls, a, 0, ModeReplay, 5);
    StartDoes(at, 0, false, G, 5);
    s := Go(Serialised, calls, s, Begin);
    assert s.threads == map[0 := Outside];
  }

  lemma RunIsPlayed(calls: set<Call>) returns (s: State)
    requires ModeReplay in calls
    ensures Found(Serialised, s, calls) && Running(s, Finishing(Complete(true)))
  {
    s := RunBegins(calls);
    s := Go(Serialised, calls, s, Work(true));
    s := Go(Serialised, calls, s, Work(true));
    s := Go(Serialised, calls, s, Work(true));
    s := Go(Serialised, calls, s, Work(true));
    s := Go(Serialised, calls, s, Work(true));
  }

  const REPLAY_TEACH: set<Call> := {ModeReplay, SetTeach}

  lemma TeachReturns() returns (s: State)
    ensures Found(Serialised, s, REPLAY_TEACH) && s.threads == map[0 := Outside]
    ensures s.mode == Teach && s.armed && s.worker == Finishing(Complete(true))
  {
    var a := RunIsPlayed(REPLAY_TEACH);
    var at;
    at, s := CallRuns(Serialised, REPLAY_TEACH, a, 0, SetTeach, 5);
    TeachDoes(at, 0, G, 5);
    assert s.threads == map[0 := Outside];
  }

  /** A TEACH that returned while a replay was running is undone by the replay's completion. */
  lemma TeachIsOverwritten() returns (before: State, after: State)
    ensures Found(Serialised, before, REPLAY_TEACH) && before.mode == Teach && before.threads == map[0 := Outside]
    ensures Enabled(Serialised, before, Work(true)) && after == Next(Serialised, before, Work(true))
    ensures after.mode == Idle && after.armed
  {
    before := TeachReturns();
    after := Go(Serialised, REPLAY_TEACH, before, Work(true));
  }

  const REPLAYS: set<Call> := {ModeReplay, WriteReplay}

  lemma RunIsComplete() returns (s: State)
    ensures Found(Serialised, s, REPLAYS) && s.threads == map[0 := Outside] && s.mode == Idle && !s.pending && s.timer.Quiet?
    ensures s.worker == Finishing(Signal) && s.h.begun == 1
  {
    s := RunIsPlayed(REPLAYS);
    s := Go(Serialised, REPLAYS, s, Work(true));
  }

  lemma WriterSleeps() returns (s: State)
    ensures Found(Serialised, s, REPLAYS) && s.threads == map[0 := Asleep]
    ensures s.worker == Finishing(Signal) && s.h.begun == 1 && s.pending
  {
    var a := RunIsComplete();
    var at;
    at, s := CallRuns(Serialised, REPLAYS, a, 0, WriteReplay, 5);
    StartDoes(at, 0, true, G, 5);
    assert s.threads == map[0 := Asleep];
  }

  /** An older run lets a writer go whose own run is still pending. */
  lemma OlderRunReleasesWriter() returns (s: State)
    ensures Found(Serialised, s, REPLAYS) && s.threads == map[0 := Asleep] && s.pending && s.h.begun == 1
    ensures Enabled(Serialised, s, Advance(0, 0, true))
  {
    s := WriterSleeps();
    s := Go(Serialised, REPLAYS, s, Work(true));
  }

  // Two readers -------------------------------------------------------------------------------

  const MOVE_POLL: set<Call> := {DirectMove(TILT, CENTER), Read(true)}

  /** A reader comes in, and its O_NONBLOCK test finds the flag up. */
  lemma ReaderPasses(s: State, t: Tid) returns (s': State)
    requires Found(Serialised, s, MOVE_POLL) && At(s, t).Outside? && s.newData
    ensures Found(Serialised, s', MOVE_POLL) && s'.newData && s'.threads == s.threads[t := Reading(ReadWait)]
  {
    s' := Go(Serialised, MOVE_POLL, s, Enter(t, Read(true)));
    s' := Do(Serialised, MOVE_POLL, s', t, Reading(ReadTest));
  }

  /** Both readers pass their O_NONBLOCK test; the one that clears the flag first leaves the other
      asleep. */
  lemma NonblockingReaderSleeps() returns (s: State)
    ensures Found(Serialised, s, MOVE_POLL) && At(s, 1) == Reading(ReadWait)
    ensures !Enabled(Serialised, s, Advance(1, 0, true))
  {
    s := MoveNotifies(Serialised, MOVE_POLL);
    s := ReaderPasses(s, 0);
    s := ReaderPasses(s, 1);
    s := Do(Serialised, MOVE_POLL, s, 0, Reading(ReadWait));
    s := Do(Serialised, MOVE_POLL, s, 0, Reading(ReadClear));
  }
}
