# Echo driver: model and proofs

Project Echo is a Linux driver for a pan/tilt robot that is taught with a joystick and then replays
what it was taught. Calls from processes, a joystick interrupt thread, an inactivity timer and a
replay work item all touch the same mode, flags, recording and servo positions; what the driver
promises depends on the order of single lines.

The project has three layers.

| module | layer | what it holds |
|---|---|---|
| `EchoTypes` | all | constants, moves, poses, how a servo request changes a pose |
| `Machine` | steps | the driver as a step machine: any number of callers, the timer callback, the worker |
| `Calls` | steps | what each call does when nobody interrupts it, field by field |
| `Unrestricted` | steps | what every run keeps when everything may overlap |
| `Serialised`, `SerialRuns` | steps | what runs keep when control calls and joystick inputs do not overlap each other |
| `Progress`, `Completion` | steps | a sleeping `write(REPLAY)` is woken: a measure that helpers' steps decrease |
| `Mirror` | steps | which steps take TILT2 away from PAN, exactly, and which runs never do |
| `Readers` | steps | when a reader comes to hold an outdated snapshot, or to sleep in spite of O_NONBLOCK, exactly |
| `Release` | steps | which run releases a writer, and how long TEACH lasts, exactly |
| `Replaying`, `Playback`, `Lessons`, `Disturbance` | steps and meaning | a replay plays the recording it found, to the end unless it is stopped, and retraces the lesson; who can disturb it |
| `Exactly` | steps | the exact steps that leave mode REPLAY or TEACH with nothing to end it, or end TEACH |
| `Limits` | steps | concrete runs that show what is not kept, each with the calls it makes |
| `Motion`, `Timing` | meaning | fold of moves over poses, sums of delays and sleeps |
| `Buffer`, `Servo`, `Joystick`, `Device` | objects | ring buffer, servo registers, debounce, recorder and replayer as classes with their loops |

`Device.Echo` is proved against the meaning in `Motion` and `Timing`; `Replaying` and `Lessons` prove
the same meaning of interleaved runs.

## How the step machine reads the driver

One step is one lock section, one flag write, one wait, or one field of a snapshot. Each constructor
names what the thread does next.

| steps | lines |
|---|---|
| `StartCheck` `StartTimer` `StartQueue` `StartNotify` | module/echo_state.c:162-179 |
| `StopMode` `StopTimer` `StopNotify` | module/echo_state.c:184-195 |
| `CancelPending` `CancelWait` `StopSignal` `StopWake` | module/echo_main.c:119-124, 49-54 |
| `ResetClear` `ResetServo` `ResetNotify` | module/echo_chardev.c:202-211 |
| `TeachMode` `TeachClear` `TeachTotal` `TeachTimer` `TeachNotify` | module/echo_state.c:212-224 |
| `MoveSet` `MoveNotify` | module/echo_chardev.c:165-172 |
| `InputMode` ... `InputNotify` | module/echo_state.c:103-155 |
| `ReadTest` `ReadWait` `ReadClear` `ReadField` | module/echo_chardev.c:97-127, 43-53 |
| `ClearFinished` `Asleep` | module/echo_chardev.c:150-159 |
| `Fired` `TimerQueue` `TimerNotify` | module/echo_state.c:42-60 |
| `Alloc` `Drain` `PutBack` `CountRun` `Check` `PlayMove` `PlayNotify` | module/echo_buffer.c:35-86 |
| `Complete` `Signal` `Wake` | module/echo_main.c:69-74, 49-54 |

The history `h` in the state records what happened; steps do not look at it, except that a canceller
compares the run it waits for with the number of runs begun.

Assumed of the kernel:

- A timer callback does not run beside itself. `timer_delete_sync` disarms the timer and succeeds only
  when no callback runs.
- A work item has a pending bit and at most one running instance. Queueing sets the bit unless it is
  set already. Queueing while a canceller is inside `cancel_work_sync` may be lost; the model allows
  both outcomes.
- `cancel_work_sync` clears the pending bit and waits for the instance it found running.
- The spinlock around the fifo keeps callers out while the worker drains and refills it. The count a
  reader takes is read without that lock, as in the driver.

Two schedules are used. `Unrestricted` lets everything overlap. `Serialised` keeps one control call or
joystick input from overlapping another; the timer, the worker, readers and sleeping writers still
interleave with it at every step. `Limits` shows by concrete runs why some results need the second.

## Where the text of the driver is read by its intent

- module/echo_joystick.c:66-69: the debounce test has no braces, so the return is unconditional.
  `Joystick.Pins.ThreadFn` has the braces that the indentation asks for;
  `Joystick.Pins.ThreadFnAsSpelt` is the text as it stands.
- module/echo_state.c:219-221: a call to `atomic_set` stands inside the arguments of `mod_timer`. The
  model resets the counter and then arms the timer.
- module/echo_joystick.c:39 and 154: the context has `pin_data`, the set-up uses `pins`. The model
  gives each pin its index and context.

Where code and documentation differ, the model follows the code:

- module/echo_ioctl.h:120 calls `total_moves` a count since module load; an explicit TEACH resets it
  (module/echo_state.c:220).
- module/echo_ioctl.h:152 says that RESET clears counters; the code keeps `total_moves` and the replay
  count (module/echo_chardev.c:202-211).
- module/echo_ioctl.h:145 calls the speed a servo movement speed; the code divides replay delays by it
  (module/echo_buffer.c:69-71).

## Model

| member | source | states |
|---|---|---|
| `Calls.PressDoes` | module/echo_state.c:103-155 | a press alone, from any state but REPLAY: TEACH; its servo one step of 5 degrees on, not below 0 nor above 180, PAN with TILT2; that move behind the recording, a full one losing its oldest; counted, timer armed, readers told; nothing else |
| `Calls.PressAims` | module/echo_state.c:128-133 | where the servo is to go: the old angle plus or minus 5, or 0, or 180 |
| `Calls.PressRefused` | module/echo_state.c:114-118 | in REPLAY a press changes nothing |
| `Calls.TeachDoes` | module/echo_state.c:212-224 | an explicit TEACH alone, from every mode: TEACH, empty recording, counter 0, timer armed, readers told; nothing else |
| `Calls.StopDoes` | module/echo_state.c:184-195 | a stop alone: IDLE, timer off, no pending work, writers and readers told; nothing else |
| `Calls.ResetDoes` | module/echo_chardev.c:202-211 | a RESET alone: that, and an empty recording and all servos at 90; the counters stay |
| `Calls.MoveDoes` | module/echo_chardev.c:165-172 | a direct MOVE alone: fields cut to 8 and 16 bits, an id past the servos refused, the angle cut to 180 and sent to its servo, PAN's to TILT2 too; readers told unless it fails; nothing else |
| `Calls.StartDoes` | module/echo_state.c:162-179 | an accepted start alone: REPLAY, timer off, work pending, readers told; a writer has put the flag down and sleeps |
| `Calls.StartRefused` | module/echo_chardev.c:150-154 | in REPLAY a start changes nothing, except that a writer has put the flag down |
| `Calls.ReadDoes` | module/echo_chardev.c:97-127 | a read alone with the flag up: the flag goes down, and each field of the snapshot is the state's field of that name |
| `Calls.ReadRefused` | module/echo_chardev.c:105-112 | with the flag down an O_NONBLOCK read returns at once, any other sleeps; nothing changes |
| `Calls.AfterIsRun` | module/echo_state.c:103-225 | a call alone is a run of the step machine |
| `Playback.AcceptedStartIsAnswered` | module/echo_main.c:69-74 | any schedule: from the step that accepts a start on, as long as no completion is signalled, a thread, the timer, pending work or the worker is under way that will signal |
| `Unrestricted.EveryStartIsAnswered` | module/echo_main.c:69-74 | any schedule: after an accepted start with no completion signal since, a thread, the timer, pending work or the worker is under way that will signal |
| `Unrestricted.StartsAreConserved` | module/echo_buffer.c:154-162 | any schedule: accepted starts = threads yet to queue + timer yet to queue + pending + begun + cancelled + coalesced; begun = reported replays + out-of-memory runs + a run still taking its snapshot; reported replays never exceed accepted starts |
| `Unrestricted.DataStaysGood` | module/echo_chardev.c:165-169 | any schedule: angles in 0..180, at most 256 recorded moves, each PAN or TILT with an angle in range and a 32-bit delay, speed usable |
| `Unrestricted.PlaybackIsExact` | module/echo_buffer.c:69-78 | any schedule: the move about to be played is stored as recorded, never cut or refused, and the speed it divides by is positive |
| `Unrestricted.ReadersAreFresh` | module/echo_chardev.c:105-117 | any schedule: flag down, nobody owes a notify, no MOVE failed on the bus since: the last snapshot has the present mode, angles, buffer count, total moves and replay count, each under its own name |
| `Readers.OutdatedExactly` | module/echo_chardev.c:165-172 | any schedule: when every reader has been told everything, a step leaves the last snapshot out of date with no notify due if and only if it is a direct MOVE of an existing servo that changes an angle and fails on the bus |
| `Unrestricted.SnapKeepsRecording` | module/echo_buffer.c:50-60 | each entry drained or put back leaves the recording as a whole unchanged, for every interleaving |
| `Unrestricted.StepKeeps` | module/echo_state.c:42-60 | the combined invariant of data, obligations, conservation and readers survives every enabled step of either schedule |
| `Serialised.StepKeeps` | module/echo_state.c:162-195 | the serialised invariant (work owed in REPLAY, timer armed in TEACH, stop barrier, writers covered, progress of RESET, recording count) survives every enabled step |
| `SerialRuns.NeverStuckInReplay` | module/echo_state.c:42-60 | serialised: mode REPLAY implies a starter or the timer has yet to queue, work is pending, or the worker has not completed |
| `SerialRuns.NeverStuckInTeach` | module/echo_state.c:150-152 | serialised: mode TEACH implies the inactivity timer is armed, its callback has yet to look at the mode, or the caller has yet to arm it, so inactivity ends in a replay |
| `SerialRuns.StopLetsOneMoveThrough` | module/echo_state.c:184-195 | serialised: after stop wrote IDLE, at most one replayed move reaches a servo in any run without a newly accepted start |
| `SerialRuns.StopIsABarrier` | module/echo_state.c:192-194 | serialised: once stop has cancelled the work none does, and no worker, pending work, queueing timer or starter is left |
| `SerialRuns.StopReturnsQuiet` | module/echo_state.c:184-195 | serialised: a stop about to return has that barrier behind it, mode IDLE and the timer off |
| `SerialRuns.ResetCentres` | module/echo_chardev.c:202-211 | serialised: RESET ends with mode IDLE, empty recording, all servos at 90, and nothing left that could disturb them |
| `Mirror.UnmirroredExactly` | module/echo_servo.c:371-375 | any schedule: a step takes TILT2 away from PAN if and only if it is the part of a RESET that centres TILT2 when PAN has left the centre, or a direct MOVE of TILT2 to another angle |
| `Mirror.MirrorLastsExactly` | module/echo_servo.c:371-375 | any schedule: a run from a mirrored state stays mirrored throughout if and only if it has no such step |
| `Mirror.MirrorIsKept` | module/echo_joystick.c:76-92 | serialised: from any mirrored state, every run without a direct MOVE of servo 2 modulo 256 stays mirrored throughout |
| `Mirror.ResetRestoresMirror` | module/echo_chardev.c:207-209 | serialised: from the initial state, and from the end of any RESET whatever went before, every such run stays mirrored throughout |
| `SerialRuns.RecordingIsCounted` | module/echo_state.c:147-148 | serialised, in every state, also inside the worker's locked section: the buffer count never exceeds 256 nor the total moves, counting the one move that an input has recorded and not yet counted |
| `SerialRuns.RecordingIsComplete` | module/echo_state.c:212-224 | serialised: without RESET the buffer count equals min(total moves, 256), also for TEACH entered from IDLE by input |
| `SerialRuns.RecordingIsCompleteSinceTeach` | module/echo_state.c:217-224 | serialised: the same equality from any explicit TEACH on, whatever RESETs came before it |
| `Completion.StepNearer` | module/echo_chardev.c:150-159 | serialised, flag down: the helper's step brings the completion signal nearer by the measure, no other step moves it away, and a signal stays owed |
| `Completion.HelperCanMove` | module/echo_buffer.c:154-162 | serialised: the agent whose step is needed next is never blocked |
| `Completion.HelpIsBounded` | module/echo_buffer.c:43-83 | serialised: over any run with the flag down, helpers' steps plus the distance left never exceed the distance at its start |
| `Completion.NoLostCompletion` | module/echo_chardev.c:157-158 | serialised: while a writer sleeps and the flag is down, a starter, pending work, a worker or a canceller that has yet to signal exists |
| `Completion.SleepingWriterIsWoken` | module/echo_main.c:49-54 | serialised: while the flag stays down only boundedly many helper steps can be taken, and the next one is always enabled, whatever other writers reset or are refused |
| `Replaying.ReturnNeedsSignal` | module/echo_chardev.c:151-158 | any schedule: between a writer clearing the flag and its being able to return, a completion was signalled |
| `Release.OwnRunExactly` | module/echo_chardev.c:151-158 | any schedule: once the flag is cleared, only a stop or a run that begins later can raise it, whatever happens, if and only if no run that has yet to signal is under way |
| `Release.TeachLastsExactly` | module/echo_state.c:245-252 | TEACH lasts through every continuation in which nobody starts or stops and the inactivity timer does not act, if and only if no run is pending, about to be queued by the timer, or under way and not complete |
| `Replaying.ReplayFollowsRecording` | module/echo_buffer.c:50-80 | any schedule: as long as nobody else sets a servo, a run plays exactly the recording it found when it locked the fifo, and the pose after each move is the fold so far, while clears, records, stops and starts go on |
| `Playback.PlaybackEndsExactly` | module/echo_buffer.c:65-67 | any schedule: a step takes a run out of its playback loop if and only if it tests whether to go on and finds all moves played or the mode other than REPLAY |
| `Playback.PlaysToTheEnd` | module/echo_buffer.c:65-83 | any schedule, from the fifo's lock to the end of the run: it plays at most the moves it found, and all of them if and only if no test with moves left finds the mode other than REPLAY |
| `Playback.ReplayIsComplete` | module/echo_buffer.c:65-83 | any schedule: a run that is left alone and not stopped ends with all its moves played and the robot where playing them from where it stood leaves it |
| `Lessons.LessonIsRecorded` | module/echo_state.c:120-148 | serialised, from any state in which no press is about to be recorded: with only joystick input moving the robot, the recording is the newest 256 of the old moves and those made since, and each pose of the lesson is the fold of its moves |
| `Lessons.LessonStartsEmpty` | module/echo_state.c:212-224 | the recording is empty after loading, when an explicit TEACH has cleared it, and when a RESET ends |
| `Lessons.ReplayRetracesLesson` | module/echo_buffer.c:65-80 | serialised, over any old recording, provided nobody else sets a servo while the run plays: after its k-th move every servo that the lesson's moves have addressed so far stands exactly where it stood after that move was taught, from any start pose; if the old recording was at rest, so does every servo addressed by any move |
| `Lessons.ReplayRetracesFreshLesson` | module/echo_buffer.c:65-80 | the same for a lesson after loading, TEACH or RESET: every servo addressed so far, from the first surviving move on |
| `Lessons.ReplayKeepsPose` | module/echo_buffer.c:65-80 | serialised, whole runs: after a lesson that began at rest, past the capacity too, a complete replay that is left alone ends in the pose in which it began |
| `Disturbance.OnlyOnePressDisturbs` | module/echo_state.c:112-126 | serialised, in REPLAY with no new start accepted and no direct MOVE: nobody but the worker sets a servo, except at most one press that was already let in when the run began |
| `Disturbance.LeftAloneUnlessInFlight` | module/echo_state.c:112-135 | serialised, in REPLAY with no direct MOVE about to be made: every continuation without a direct MOVE or a new start leaves the servos to the worker if and only if no press is in flight |
| `Disturbance.ReplayRetracesUnlessInFlight` | module/echo_state.c:112-135 | so without a direct MOVE a replay retraces its lesson if no press was in flight when it took the fifo's lock |
| `Exactly.StuckExactly` | module/echo_state.c:189-193 | unrestricted: a step leaves the mode stuck in REPLAY if and only if it cancels the last work owed while the mode is REPLAY, or it is the last queueing owed and is lost inside a cancel |
| `Exactly.AbandonedExactly` | module/echo_state.c:189-192 | unrestricted: a step leaves TEACH with the timer off and nobody to arm it if and only if a start or a stop switches the timer off although the mode is TEACH again |
| `Exactly.TeachEndsExactly` | module/echo_state.c:245-252 | any schedule: a step ends TEACH if and only if it is an accepted start, a stop, the timer, or the completion of a run that was under way |
| `Limits.StuckWhenUnrestricted` | module/echo_state.c:184-195 | a run, with a start inside a stop, to mode REPLAY with nobody inside the driver and nothing left to do |
| `Limits.AbandonedWhenUnrestricted` | module/echo_state.c:184-195 | a run, with a joystick press inside a stop, to mode TEACH with the timer off and nobody inside the driver |
| `Limits.MirrorBreaksWhenUnrestricted` | module/echo_chardev.c:207-209 | a run that only makes a RESET and a joystick press, after which PAN is 95 and TILT2 is 90 |
| `Limits.PressDisturbsReplay` | module/echo_state.c:126-135 | a serialised run with no call but joystick presses: a press let in before the timer started the replay moves PAN away from where the replay has just put it |
| `Limits.TeachIsOverwritten` | module/echo_state.c:245-252 | a serialised run in which a TEACH that has returned is undone by the completion of an older replay |
| `Limits.OlderRunReleasesWriter` | module/echo_main.c:69-74 | a serialised run in which a writer may return although its own run is still pending |
| `Limits.NonblockingReaderSleeps` | module/echo_chardev.c:105-115 | a run in which two readers pass the O_NONBLOCK test and one of them sleeps |
| `Readers.FlagFallsExactly` | module/echo_chardev.c:115 | any schedule: a step takes the flag down if and only if a reader clears it |
| `Readers.NeverSleepsExactly` | module/echo_chardev.c:105-115 | any schedule: a reader past its O_NONBLOCK test can go on however long it waits while nobody begins a read, if and only if it is the only reader that has yet to clear the flag |
| `Limits.FailedMoveIsSilent` | module/echo_chardev.c:166-171 | a run in which a MOVE that fails on the bus changes a stored angle and no reader is told |
| `Motion.PressedExactly` | module/echo_state.c:128-147 | a press moves its servo by 5 degrees towards its side, not below 0 nor above 180, PAN with TILT2, and records that move last, a full recording losing its oldest |
| `Motion.MovedExactly` | module/echo_servo.c:363-375 | a direct MOVE sets exactly the servo named, to the angle cut to 180, PAN with TILT2; an id past the servos and the recording are left as they are |
| `Motion.PlayDetermines` | module/echo_servo.c:358-375 | where a sequence of moves leaves a servo is independent of the start pose if a move drives it, and is the start angle otherwise |
| `Motion.TeachingIsPlaying` | module/echo_state.c:128-147 | teaching moves the robot exactly as playing the taught moves does |
| `Motion.SurvivorsRetrace` | module/echo_buffer.c:129-140 | replaying the surviving last 256 moves from any pose agrees, at every addressed servo, with playing them all from the first pose |
| `Motion.ReplayReproducesTeaching` | module/echo_state.c:128-147 | after the k-th replayed move every servo addressed so far has the angle it had after that press was taught |
| `Motion.PlayIsIdempotent` | module/echo_buffer.c:65-80 | replaying a recording a second time changes nothing, from any pose |
| `Motion.EventKeepsRest` | module/echo_buffer.c:65-80 | an event keeps a recording at rest in the pose if and only if it is no direct MOVE of an addressed servo to another angle and no stopped replay that has moved the robot; presses past the capacity, TEACH, RESET and full replays always do |
| `Motion.StoppedReplayMovesOn` | module/echo_buffer.c:66-67 | a concrete recording at rest that a replay stopped after one move leaves so that the next replay moves the robot |
| `Motion.ReplayIsIdempotent` | module/echo_buffer.c:129-140 | after any session in which every direct MOVE and stopped replay is followed by a full replay, TEACH or RESET, a replay of what survives leaves the pose as it is |
| `Motion.MoveCallAtRest` | module/echo_chardev.c:165-169 | a direct MOVE keeps that property if and only if it takes no servo that the recording addresses to another angle |
| `Timing.DelaysKeepTime` | module/echo_state.c:137-145 | the recorded delays sum to at most T, and to more than T - n exactly when every gap is below 2^32 ms |
| `Timing.LongGapLoses` | module/echo_state.c:143 | a gap of 2^32 ms or more loses at least 2^32 ms |
| `Timing.SleepBounds` | module/echo_buffer.c:69-73 | the sleep before a move is the delay divided by the speed, rounded down, unless that is below 10 ms; then 10 ms |
| `Timing.SleptBounds` | module/echo_buffer.c:69-73 | at constant speed s the sleeps lie above (sum of delays)/s - n and at most at (sum)/s + 10n |
| `Timing.SurvivingDelays` | module/echo_buffer.c:129-140 | the newest 256 delays of a session are the delays of its surviving presses |
| `Timing.ReplayKeepsTime` | module/echo_buffer.c:69-75 | end to end at speed s, for the n surviving presses made in T: the playback loop's sleeps lie above T/s - 2n and at most T/s + 10n |
| `Timing.ReplayKeepsTimeAtOne` | module/echo_buffer.c:69-75 | end to end at speed 1, for the surviving presses: sleeps above T - n and at most T + 10n |
| `Timing.OverflowingLosesTime` | module/echo_buffer.c:133-137 | for every n above 256 a session of n presses whose replay falls short of both bounds when T is the whole session, at every 16-bit speed |
| `Timing.WholeSessionsExactly` | module/echo_buffer.c:133-137 | both bounds hold of every whole session of n presses if and only if n is at most 256 |
| `Timing.FasterIsNotLonger` | module/echo_buffer.c:70-71 | raising the speed at any of the moves never lengthens a replay |
| `Servo.TicksAreStrict` | module/echo_servo.c:161-164 | different angles have different pulse widths, in order |
| `Servo.DecodeEncode` | module/echo_servo.c:178-196 | the stored angle can be recovered from a channel's four register bytes |
| `Servo.SetExactly` | module/echo_servo.c:358-402 | register by register: a successful call puts the pulse 205 + angle * 205 / 180 into registers 6, 10 or 14 and on, PAN's into TILT2's as well; TILT2's are left alone if PAN's fail; no other register changes; positions and result likewise |
| `Servo.SetChannel` | module/echo_servo.c:358-402 | a call leaves bytes and angle of channels it does not touch, and a touched channel in step if it succeeds |
| `Servo.RegistersFollowPositions` | module/echo_servo.c:358-402 | over every history of calls and bus failures, bytes differ from the encoding of the angle only if the last call touching the channel returned an error |
| `Servo.PositionsArePoses` | module/echo_servo.c:371-375 | positions change as the pose function says, whatever the bus does |
| `Servo.Operate` | module/echo_servo.c:358-402 | the driver, run on any history of calls and bus failures, goes through the specification's states, and channels that began in step are in step unless their last call failed |
| `Servo.Driver.constructor` | module/echo_servo.c:242-316 | positions at 90; if the centring writes land, registers 6 to 17 hold three times the pulse for 90 and all channels are in step |
| `Servo.Driver.SetPwm` | module/echo_servo.c:178-196 | the four byte writes from register 6 + 4 * channel on, stopping at the first that fails |
| `Servo.Driver.SetAngle` | module/echo_servo.c:358-402 | new positions, registers and result are those of the specification; positions follow the pose function |
| `Servo.Driver.GetAngle` | module/echo_servo.c:412-424 | the stored angle, 90 for an id out of range |
| `Buffer.WindowPut` | module/echo_buffer.c:137 | writing the slot after the window appends to it, also across the 32-bit wrap |
| `Buffer.WindowGet` | module/echo_buffer.c:56 | moving the out index removes the oldest entry, also across the wrap |
| `Buffer.Perform` | module/echo_buffer.c:50-147 | over all sequences of record, clear and snapshot, from any 32-bit indices and contents: the ring holds the last min(n, 256) moves since the last clear, in order |
| `Buffer.MoveBuffer.constructor` | module/echo_buffer.c:99-104 | an empty ring at speed 1 |
| `Buffer.MoveBuffer.Len` | module/echo_buffer.c:149-152 | the number of entries, from the wrapping indices |
| `Buffer.MoveBuffer.Put` | module/echo_buffer.c:59 | appends unless full, and says which |
| `Buffer.MoveBuffer.Get` | module/echo_buffer.c:56 | takes the oldest entry unless empty, and says which |
| `Buffer.MoveBuffer.Record` | module/echo_buffer.c:129-140 | appends; a full recording loses its oldest move |
| `Buffer.MoveBuffer.Clear` | module/echo_buffer.c:142-147 | empties the recording |
| `Buffer.MoveBuffer.SetReplaySpeed` | module/echo_buffer.c:164-168 | 0 is ignored |
| `Buffer.MoveBuffer.Drain` | module/echo_buffer.c:55-57 | copies exactly the recording, in order, and empties the ring |
| `Buffer.MoveBuffer.PutBack` | module/echo_buffer.c:58-59 | restores exactly the copied entries, never more than 256 |
| `Buffer.MoveBuffer.Snapshot` | module/echo_buffer.c:50-60 | the copy equals the recording, which ends as it began even when full, while both indices advance by its length |
| `Joystick.WrappingDiff` | module/echo_joystick.c:66 | the wrapping difference never exceeds the true one and equals it within one turn |
| `Joystick.AcceptedAreSpaced` | module/echo_joystick.c:64-72 | accepted presses lie at least one interval apart, from the second clock reading of one to the first of the next |
| `Joystick.RateIsLimited` | module/echo_joystick.c:64-72 | n accepted presses span at least n - 1 intervals of true time for every arrival sequence |
| `Joystick.Deliver` | module/echo_joystick.c:58-98 | the handler, run on any interleaving of presses on the four pins, accepts on each pin exactly the presses those results speak of and issues their directions in order, one counted callback each |
| `Joystick.TestIsExact` | module/echo_joystick.c:66-67 | within one turn of the counter a press passes if and only if the interval has passed |
| `Joystick.Pins.ThreadFn` | module/echo_joystick.c:58-98 | a press passes exactly when the interval has passed; then its direction (up, down: TILT by 5, -5; left, right: PAN by -5, 5) is issued once and counted; the lock is released |
| `Joystick.Pins.ThreadFnAsSpelt` | module/echo_joystick.c:64-69 | without braces nothing is ever dispatched, and the lock stays taken if and only if the press is not a bounce |
| `Device.Echo.MoveAndRecord` | module/echo_state.c:128-147 | moves the servo 5 degrees on, not below 0 nor above 180, and records that move last |
| `Device.Echo.HandleInput` | module/echo_state.c:103-155 | ignored in REPLAY; otherwise one press of the session with the measured delay, counted, timer armed; from IDLE the clock restarts and the recording stays |
| `Device.Echo.SetTeach` | module/echo_state.c:212-224 | TEACH with an empty recording and the pose kept, counter 0, timer armed |
| `Device.PressesDelays` | module/echo_state.c:143-147 | after any sequence of presses the recorded delays are the newest 256 of the old ones and theirs |
| `Device.Echo.HandleAll` | module/echo_state.c:103-155 | presses at any clock readings, from TEACH or IDLE: pose and recording are those of the session |
| `Device.Echo.Lesson` | module/echo_state.c:103-155 | the same, and the recorded delays are the newest 256 of the old ones and the measured gaps |
| `Device.Echo.ReplayAll` | module/echo_buffer.c:65-80 | an uninterrupted replay at the stored speed: the session's replay, and its requested sleep |
| `Device.Echo.TeachAndReplay` | module/echo_buffer.c:65-80 | a lesson and its uninterrupted replay at the stored speed s: the requested sleeps keep the time of the surviving presses, above T/s - 2n and at most T/s + 10n, at speed 1 above T - n |
| `Device.Echo.ReplayDone` | module/echo_main.c:69-74 | mode IDLE, writer and readers told |
| `Device.Echo.Play` | module/echo_buffer.c:65-80 | plays the moves in order up to the first stop; pose is their fold, requested sleep is theirs |
| `Device.Echo.ReplayWorker` | module/echo_buffer.c:35-86 | keeps the recording, plays it up to the first stop or out of memory not at all, counts the run, always completes; the session event is a stopped replay, or a full one |
| `Device.Echo.Stop` | module/echo_state.c:184-195 | mode IDLE, timer off, writer and readers told; with no worker to cancel |
| `Device.Echo.Centre` | module/echo_chardev.c:207-209 | the three servo calls of RESET centre the pose from anywhere, whatever the bus does, and keep the recording |
| `Device.Echo.Reset` | module/echo_chardev.c:202-211 | all servos at 90, empty recording, total moves kept |
| `Device.Echo.WriteMove` | module/echo_chardev.c:165-172 | fields cut to 8 and 16 bits, then the angle to 180; exactly the servo named moves, PAN with TILT2; success if the bus acknowledges every write, and readers told only then |
| `Device.Echo.SetSpeed` | module/echo_chardev.c:190-200 | 0 is refused and changes nothing |

## Left out

- app/: the user interface has no part in the driver's state.
- module/echo_proc.c: formats values that the snapshot already has.
- Module init and exit, device, GPIO, IRQ and I2C registration: foreign calls; the model starts at the created device.
- Module unload during a replay: destroying subsystems under a running worker is not modelled, and not safe.
- `copy_to_user`, `copy_from_user`, short reads and open counts: taken as successful; only the narrowing of the MOVE fields is kept.
- ioctl GET_STATE: the same snapshot as a read, without the flag.
- `irq_count` in snapshots: it changes during REPLAY without a notify; `Joystick.Pins.ThreadFn` ties it to the callbacks issued.
- Signals: a sleeper may leave at any time; nothing is proved about when.
- PCA9685 power-up, prescale and shutdown: constants and delays.
- Real sleeping time: only requested durations are summed.
- The joystick's clock in the step machine: a recorded move carries any 32-bit delay there; `Device.Echo.HandleInput` and `Timing` say which.
- Counters: `total_moves`, the replay count and `irq_count` are unbounded; the wrap of `atomic_t` is not modelled.
- A TEACH requested during a running replay: the worker's completion overwrites it with IDLE; `Limits.TeachIsOverwritten` has the run, `Release.TeachLastsExactly` the condition under which it does not happen.
- write(REPLAY) waiting for its own run: an older run can release it (`Limits.OlderRunReleasesWriter`), so only a signal is promised; `Release.OwnRunExactly` says when it is no older run's.
- O_NONBLOCK reads with several readers: one may still sleep (`Limits.NonblockingReaderSleeps`); `Readers.NeverSleepsExactly` says when it cannot.
- SerialRuns.NeverStuckInReplay: serialised runs only; `Exactly.StuckExactly` gives the exact condition for all others.
- SerialRuns.NeverStuckInTeach: serialised runs only; `Exactly.AbandonedExactly` gives the exact condition for all others.
- Mirror.MirrorIsKept: serialised runs only; `Mirror.MirrorLastsExactly` gives the exact condition for all others.
- Unrestricted.ReadersAreFresh: excludes a MOVE that failed on the bus since the flag was cleared; `Readers.OutdatedExactly` shows that nothing else needs excluding.
- Servo.RegistersFollowPositions: one direction, because a call that returns an error may still have written the right bytes.
- Lessons.ReplayRetracesLesson: provided nobody else sets a servo during the replay; `Disturbance.LeftAloneUnlessInFlight` gives the condition and `Limits.PressDisturbsReplay` a run that breaks it.
- Timing.ReplayKeepsTime: speaks of the surviving presses; `Timing.WholeSessionsExactly` says when these are all.
- Device.Echo.Stop: leaves out the cancel and the wait for the worker, because no worker runs beside a sequential call; `Machine` has both steps.
