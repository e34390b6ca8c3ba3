/**
  What recorded moves mean: a move is a change of the pose, a recording is the fold of its
  moves, teaching is the joystick's way to make both at once.
 */
module Motion {
  import opened EchoTypes

  function PlayOne(p: Pose, m: Move): Pose { SetServo(p, m.servo, m.angle) }

  /** The pose after playing `ms` in order. */
  function PlayAll(p: Pose, ms: seq<Move>): Pose {
    if ms == [] then p else PlayOne(PlayAll(p, ms[..|ms| - 1]), ms[|ms| - 1])
  }

  predicate Addressed(ms: seq<Move>, x: nat) {
    exists k :: 0 <= k < |ms| && Drives(ms[k].servo, x)
  }

  lemma OneMove(p: Pose, m: Move, x: nat)
    requires m.servo < NUM_SERVOS && x < NUM_SERVOS
    ensures AngleOf(PlayOne(p, m), x) == if Drives(m.servo, x) then Min(m.angle, ANGLE_MAX) else AngleOf(p, x)
  {
  }

  predicate ValidMoves(ms: seq<Move>) {
    forall k :: 0 <= k < |ms| ==> ms[k].servo < NUM_SERVOS
  }

  lemma PlayAppend(p: Pose, a: seq<Move>, b: seq<Move>)
    ensures PlayAll(p, a + b) == PlayAll(PlayAll(p, a), b)
    decreases |b|
  {
    if b == [] {
      assert a + b == a;
    } else {
      var i := |b| - 1;
      assert (a + b)[..|a + b| - 1] == a + b[..i];
      PlayAppend(p, a, b[..i]);
    }
  }

  /** What playing leaves at a servo depends on the starting pose only if no move drives it. */
  lemma {:induction false} PlayDetermines(p: Pose, q: Pose, ms: seq<Move>, x: nat)
    requires ValidMoves(ms) && x < NUM_SERVOS
    ensures Addressed(ms, x) ==> AngleOf(PlayAll(p, ms), x) == AngleOf(PlayAll(q, ms), x)
    ensures !Addressed(ms, x) ==> AngleOf(PlayAll(p, ms), x) == AngleOf(p, x)
    decreases |ms|
  {
    if ms != [] {
      var i := |ms| - 1;
      var init := ms[..i];
      PlayDetermines(p, q, init, x);
      OneMove(PlayAll(p, init), ms[i], x);
      OneMove(PlayAll(q, init), ms[i], x);
      if Addressed(ms, x) && !Drives(ms[i].servo, x) {
        var k :| 0 <= k < |ms| && Drives(ms[k].servo, x);
        assert init[k] == ms[k];
      }
      if Addressed(init, x) {
        var k :| 0 <= k < |init| && Drives(init[k].servo, x);
        assert ms[k] == init[k];
      }
    }
  }

  lemma SamePose(p: Pose, q: Pose)
    requires forall x :: 0 <= x < NUM_SERVOS ==> AngleOf(p, x) == AngleOf(q, x)
    ensures p == q
  {
    assert AngleOf(p, 0) == AngleOf(q, 0) && AngleOf(p, 1) == AngleOf(q, 1) && AngleOf(p, 2) == AngleOf(q, 2);
  }

  // Teaching ------------------------------------------------------------------------------

  /** One joystick press that reaches the recorder, and the delay the clock gave it. */
  datatype Press = Press(pan: bool, right: bool, delay: nat)

  /** The move a press records when it finds the robot at `p`. */
  function MoveOf(p: Pose, b: Press): Move {
    Move(ServoOf(b.pan), Stepped(AngleOf(p, ServoOf(b.pan)), DeltaOf(b.right)), b.delay)
  }

  /** The pose after teaching, and the moves taught, overflow left aside. */
  function TaughtPose(p: Pose, bs: seq<Press>): Pose {
    if bs == [] then p
    else var q := TaughtPose(p, bs[..|bs| - 1]); PlayOne(q, MoveOf(q, bs[|bs| - 1]))
  }

  function Taught(p: Pose, bs: seq<Press>): (ms: seq<Move>)
    ensures |ms| == |bs| && ValidMoves(ms)
  {
    if bs == [] then []
    else Taught(p, bs[..|bs| - 1]) + [MoveOf(TaughtPose(p, bs[..|bs| - 1]), bs[|bs| - 1])]
  }

  lemma {:induction false} TaughtPrefix(p: Pose, bs: seq<Press>, k: nat)
    requires k <= |bs|
    ensures Taught(p, bs)[..k] == Taught(p, bs[..k])
    decreases |bs|
  {
    if k < |bs| {
      var i := |bs| - 1;
      TaughtPrefix(p, bs[..i], k);
      assert bs[..i][..k] == bs[..k];
      assert Taught(p, bs)[..k] == Taught(p, bs[..i])[..k];
    } else {
      assert bs[..k] == bs;
    }
  }

  /** Teaching moves the robot exactly as playing the taught moves does. */
  lemma {:induction false} TeachingIsPlaying(p: Pose, bs: seq<Press>)
    ensures TaughtPose(p, bs) == PlayAll(p, Taught(p, bs))
    decreases |bs|
  {
    if bs != [] {
      var i := |bs| - 1;
      TeachingIsPlaying(p, bs[..i]);
      assert Taught(p, bs)[..i] == Taught(p, bs[..i]);
    }
  }

  /** Replaying the survivors of `ms` from any pose brings every servo addressed so far to where
      playing all of `ms` up to the same move brings it. */
  lemma SurvivorsRetrace(p: Pose, q: Pose, ms: seq<Move>, k: nat, x: nat)
    requires ValidMoves(ms) && k <= |Newest(ms)| && x < NUM_SERVOS && Addressed(Newest(ms)[..k], x)
    ensures AngleOf(PlayAll(q, Newest(ms)[..k]), x) == AngleOf(PlayAll(p, ms[..|ms| - |Newest(ms)| + k]), x)
  {
    var kept := Newest(ms);
    var lost := |ms| - |kept|;
    assert kept[..k] == ms[lost..lost + k];
    assert ms[..lost + k] == ms[..lost] + kept[..k];
    assert ValidMoves(kept[..k]);
    PlayAppend(p, ms[..lost], kept[..k]);
    PlayDetermines(q, PlayAll(p, ms[..lost]), kept[..k], x);
  }

  /** Replay reproduces teaching. `bs` was taught from pose `p`; what survives of it is replayed
      from any pose `q`. After the k-th replayed move every servo addressed so far has exactly the
      angle it had just after that move was taught. */
  lemma ReplayReproducesTeaching(p: Pose, q: Pose, bs: seq<Press>, k: nat, x: nat)
    requires k <= |Newest(Taught(p, bs))| && x < NUM_SERVOS
    requires Addressed(Newest(Taught(p, bs))[..k], x)
    ensures var j := |bs| - |Newest(Taught(p, bs))| + k;
            AngleOf(PlayAll(q, Newest(Taught(p, bs))[..k]), x) == AngleOf(TaughtPose(p, bs[..j]), x)
  {
    var j := |bs| - |Newest(Taught(p, bs))| + k;
    TaughtPrefix(p, bs, j);
    TeachingIsPlaying(p, bs[..j]);
    SurvivorsRetrace(p, q, Taught(p, bs), k, x);
  }

  // Whole sessions ------------------------------------------------------------------------

  /** What can happen to robot and recording when nothing overlaps. */
  datatype Event =
    | Pressed(press: Press)
    | TeachCall                          // explicit TEACH empties the recording
    | Replayed                           // a replay of the whole recording
    | Stopped(k: nat)                    // a replay that ends after its first k moves
    | ResetCall                          // RESET
    | MoveCall(id: nat, angle: nat)      // write(MOVE), the u32 fields as received

  datatype Session = Session(pose: Pose, rec: seq<Move>)

  function Happens(s: Session, e: Event): Session {
    match e
    case Pressed(b) => Session(PlayOne(s.pose, MoveOf(s.pose, b)), Push(s.rec, MoveOf(s.pose, b)))
    case TeachCall => Session(s.pose, [])
    case Replayed => Session(PlayAll(s.pose, s.rec), s.rec)
    case Stopped(k) => Session(PlayAll(s.pose, if k <= |s.rec| then s.rec[..k] else s.rec), s.rec)
    case ResetCall => Session(CENTRED, [])
    case MoveCall(id, angle) => Session(SetServo(s.pose, id % U8, angle % U16), s.rec)
  }

  function Run(s: Session, es: seq<Event>): Session {
    if es == [] then s else Happens(Run(s, es[..|es| - 1]), es[|es| - 1])
  }

  /** From `p` to `q` the servo of the press has gone 5 degrees to its side, but not below 0 and not
      above 180, and PAN has taken TILT2 with it. */
  predicate TakesStep(p: Pose, b: Press, q: Pose) {
    var was: int, now: int, step := if b.pan then p.pan else p.tilt, if b.pan then q.pan else q.tilt, if b.right then 5 else -5;
    && now == (if was + step < 0 then 0 else if was + step > 180 then 180 else was + step)
    && (if b.pan then q.tilt == p.tilt && q.tilt2 == q.pan else q.pan == p.pan && q.tilt2 == p.tilt2)
  }

  /** A press moves its servo by one step of 5 degrees, but not below 0 and not above 180, PAN taking
      TILT2 with it, and puts the move behind the recording, a full one losing its oldest. */
  lemma PressedExactly(s: Session, b: Press)
    ensures var was: int, step := if b.pan then s.pose.pan else s.pose.tilt, if b.right then 5 else -5;
            var to: nat := if was + step < 0 then 0 else if was + step > 180 then 180 else was + step;
            Happens(s, Pressed(b)) == Session(
              if b.pan then Pose(to, s.pose.tilt, to) else Pose(s.pose.pan, to, s.pose.tilt2),
              (if |s.rec| >= 256 then s.rec[|s.rec| - 255..] else s.rec) + [Move(if b.pan then 0 else 1, to, b.delay)])
    ensures var was, now := s.pose, Happens(s, Pressed(b)).pose;
            && (b.right && was.pan <= 180 && was.tilt <= 180 ==> was.pan <= now.pan <= was.pan + 5 && was.tilt <= now.tilt <= was.tilt + 5)
            && (!b.right && was.pan <= 180 && was.tilt <= 180 ==> was.pan - 5 <= now.pan <= was.pan && was.tilt - 5 <= now.tilt <= was.tilt)
  {
  }

  /** A direct MOVE: an id past the servos changes nothing; otherwise the angle, cut to 180, goes to the
      servo, and PAN's to TILT2 too. The recording stays. */
  lemma MovedExactly(s: Session, id: nat, angle: nat)
    ensures var i, a: nat := id % 256, if angle % 65536 > 180 then 180 else angle % 65536;
            Happens(s, MoveCall(id, angle)) == Session(
              if i == 0 then Pose(a, s.pose.tilt, a) else if i == 1 then Pose(s.pose.pan, a, s.pose.tilt2)
              else if i == 2 then Pose(s.pose.pan, s.pose.tilt, a) else s.pose, s.rec)
  {
  }

  /** Replaying would leave the robot where it stands. */
  predicate AtRest(s: Session) {
    PlayAll(s.pose, s.rec) == s.pose
  }

  /** Dropping the oldest moves does not matter for where a replay ends. */
  lemma DropKeepsRest(p: Pose, ms: seq<Move>, n: nat)
    requires ValidMoves(ms) && n <= |ms| && PlayAll(p, ms) == p
    ensures PlayAll(p, ms[n..]) == p
  {
    var r := PlayAll(p, ms[..n]);
    assert ms == ms[..n] + ms[n..];
    PlayAppend(p, ms[..n], ms[n..]);
    forall x | 0 <= x < NUM_SERVOS ensures AngleOf(PlayAll(p, ms[n..]), x) == AngleOf(p, x) {
      PlayDetermines(p, r, ms[n..], x);
    }
    SamePose(PlayAll(p, ms[n..]), p);
  }

  /** A taught move extends a recording at rest to one that is at rest in the new pose. */
  lemma PushKeepsRest(p: Pose, ms: seq<Move>, m: Move)
    requires ValidMoves(ms) && m.servo < NUM_SERVOS && PlayAll(p, ms) == p
    ensures PlayAll(PlayOne(p, m), ms + [m]) == PlayOne(p, m)
  {
    var p' := PlayOne(p, m);
    assert (ms + [m])[..|ms|] == ms;
    forall x | 0 <= x < NUM_SERVOS ensures AngleOf(PlayAll(p', ms + [m]), x) == AngleOf(p', x) {
      PlayDetermines(p', p, ms, x);
      OneMove(p, m, x);
      OneMove(PlayAll(p', ms), m, x);
    }
    SamePose(PlayAll(p', ms + [m]), p');
  }

  predicate Tidy(s: Session) {
    ValidMoves(s.rec) && |s.rec| <= FIFO_SIZE
  }

  /** Playing a recording a second time changes nothing, from any pose. */
  lemma PlayIsIdempotent(p: Pose, ms: seq<Move>)
    requires ValidMoves(ms)
    ensures PlayAll(PlayAll(p, ms), ms) == PlayAll(p, ms)
  {
    var q := PlayAll(p, ms);
    forall x | 0 <= x < NUM_SERVOS ensures AngleOf(PlayAll(q, ms), x) == AngleOf(q, x) {
      PlayDetermines(q, p, ms, x);
    }
    SamePose(PlayAll(q, ms), q);
  }

  lemma PressKeepsRest(s: Session, b: Press)
    requires Tidy(s) && AtRest(s)
    ensures AtRest(Happens(s, Pressed(b)))
  {
    var m := MoveOf(s.pose, b);
    if |s.rec| >= FIFO_SIZE {
      var n := |s.rec| - FIFO_SIZE + 1;
      DropKeepsRest(s.pose, s.rec, n);
      PushKeepsRest(s.pose, s.rec[n..], m);
    } else {
      PushKeepsRest(s.pose, s.rec, m);
    }
  }

  lemma MoveCallAtRest(s: Session, id: nat, angle: nat)
    requires Tidy(s) && AtRest(s)
    ensures var s' := Happens(s, MoveCall(id, angle));
            AtRest(s') <==> forall x :: 0 <= x < NUM_SERVOS && Addressed(s.rec, x) ==> AngleOf(s'.pose, x) == AngleOf(s.pose, x)
  {
    var s' := Happens(s, MoveCall(id, angle));
    forall x | 0 <= x < NUM_SERVOS
      ensures AngleOf(PlayAll(s'.pose, s.rec), x) == if Addressed(s.rec, x) then AngleOf(s.pose, x) else AngleOf(s'.pose, x)
    {
      PlayDetermines(s'.pose, s.pose, s.rec, x);
    }
    if forall x :: 0 <= x < NUM_SERVOS && Addressed(s.rec, x) ==> AngleOf(s'.pose, x) == AngleOf(s.pose, x) {
      SamePose(PlayAll(s'.pose, s.rec), s'.pose);
    }
  }

  lemma StoppedAtRest(s: Session, k: nat)
    requires Tidy(s) && AtRest(s)
    ensures var s' := Happens(s, Stopped(k)); AtRest(s') <==> s'.pose == s.pose
  {
    var s' := Happens(s, Stopped(k));
    var part := if k <= |s.rec| then s.rec[..k] else s.rec;
    if AtRest(s') {
      forall x | 0 <= x < NUM_SERVOS ensures AngleOf(s'.pose, x) == AngleOf(s.pose, x) {
        PlayDetermines(s'.pose, s.pose, s.rec, x);
        PlayDetermines(s.pose, s.pose, part, x);
        if Addressed(part, x) {
          var j :| 0 <= j < |part| && Drives(part[j].servo, x);
          assert s.rec[j] == part[j];
        }
      }
      SamePose(s'.pose, s.pose);
    }
  }

  /** When an event keeps a recording at rest: a direct MOVE unless it takes a servo that the
      recording addresses to another angle, a replay cut short unless it has moved the robot, every
      other event always. */
  predicate KeepsRest(s: Session, e: Event) {
    var s' := Happens(s, e);
    match e
    case MoveCall(_, _) =>
      forall x :: 0 <= x < NUM_SERVOS && Addressed(s.rec, x) ==> AngleOf(s'.pose, x) == AngleOf(s.pose, x)
    case Stopped(_) => s'.pose == s.pose
    case _ => true
  }

  lemma EventKeepsRest(s: Session, e: Event)
    requires Tidy(s) && AtRest(s)
    ensures Tidy(Happens(s, e))
    ensures AtRest(Happens(s, e)) <==> KeepsRest(s, e)
  {
    match e
    case Pressed(b) => PressKeepsRest(s, b);
    case MoveCall(id, angle) => MoveCallAtRest(s, id, angle);
    case Stopped(k) => StoppedAtRest(s, k);
    case TeachCall => case Replayed => case ResetCall =>
  }

  /** A replay stopped half-way leaves a robot that the next replay moves. */
  lemma StoppedReplayMovesOn()
    ensures var s := Session(Pose(100, 90, 100), [Move(PAN, 95, 0), Move(PAN, 100, 0)]);
            Tidy(s) && AtRest(s) && !AtRest(Happens(s, Stopped(1)))
  {
    var m, n := Move(PAN, 95, 0), Move(PAN, 100, 0);
    assert [m, n][..1] == [m];
    assert [m][..0] == [];
    assert PlayAll(Pose(100, 90, 100), [m, n]) == PlayOne(PlayAll(Pose(100, 90, 100), [m]), n);
    assert PlayAll(Pose(95, 90, 95), [m, n]) == PlayOne(PlayAll(Pose(95, 90, 95), [m]), n);
    assert PlayAll(Pose(100, 90, 100), [m]) == Pose(95, 90, 95);
  }

  lemma {:induction false} RunKeepsTidy(s: Session, es: seq<Event>)
    requires Tidy(s)
    ensures Tidy(Run(s, es))
    decreases |es|
  {
    if es != [] {
      RunKeepsTidy(s, es[..|es| - 1]);
    }
  }

  /** Every direct MOVE and every stopped replay is followed by a full replay, a TEACH or a RESET. */
  predicate Mended(es: seq<Event>) {
    es != [] ==>
      match es[|es| - 1]
      case Pressed(_) => Mended(es[..|es| - 1])
      case MoveCall(_, _) => false
      case Stopped(_) => false
      case _ => true
  }

  /** Replay is idempotent on the pose. However a session went (presses past the capacity, TEACH,
      RESET, replays, and also MOVEs and stopped replays if they were mended), replaying what
      survives of the recording leaves the pose as it is. */
  lemma {:induction false} ReplayIsIdempotent(s: Session, es: seq<Event>)
    requires Tidy(s) && AtRest(s) && Mended(es)
    ensures Tidy(Run(s, es)) && AtRest(Run(s, es))
    decreases |es|
  {
    RunKeepsTidy(s, es);
    if es != [] {
      var r, e := Run(s, es[..|es| - 1]), es[|es| - 1];
      RunKeepsTidy(s, es[..|es| - 1]);
      if e.Replayed? {
        PlayIsIdempotent(r.pose, r.rec);
      } else if e.Pressed? {
        ReplayIsIdempotent(s, es[..|es| - 1]);
        PressKeepsRest(r, e.press);
      }
    }
  }
}
