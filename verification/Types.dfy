/** Constants and value types shared by every part of the driver model. */
module EchoTypes {

  const FIFO_SIZE: nat := 256
  const PAN: nat := 0
  const TILT: nat := 1
  const TILT2: nat := 2
  const NUM_SERVOS: nat := 3
  const CENTER: nat := 90
  const ANGLE_MAX: nat := 180
  const ANGLE_STEP: int := 5
  const U8: nat := 0x100
  const U16: nat := 0x1_0000
  const U32: nat := 0x1_0000_0000

  datatype Option<+T> = None | Some(value: T)

  datatype Mode = Idle | Teach | Replay

  /** One recorded servo movement; `delay` is in milliseconds. */
  datatype Move = Move(servo: nat, angle: nat, delay: nat)

  /** The stored angles of the three servos. */
  datatype Pose = Pose(pan: nat, tilt: nat, tilt2: nat)

  const CENTRED := Pose(CENTER, CENTER, CENTER)

  predicate InRange(p: Pose) {
    p.pan <= ANGLE_MAX && p.tilt <= ANGLE_MAX && p.tilt2 <= ANGLE_MAX
  }

  /** A move the joystick path can record. */
  predicate GoodMove(m: Move) {
    (m.servo == PAN || m.servo == TILT) && m.angle <= ANGLE_MAX && m.delay < U32
  }

  predicate GoodMoves(ms: seq<Move>) {
    forall k :: 0 <= k < |ms| ==> GoodMove(ms[k])
  }

  function Min(a: int, b: int): int { if a <= b then a else b }

  /** The angle stored for servo `id`; the centre for an id out of range. */
  function AngleOf(p: Pose, id: nat): nat {
    if id == PAN then p.pan else if id == TILT then p.tilt else if id == TILT2 then p.tilt2 else CENTER
  }

  /** The stored angles after a request: angles above 180 are cut to 180, PAN also drives
      its mirror TILT2, and an id out of range changes nothing. */
  function SetServo(p: Pose, id: nat, angle: nat): Pose {
    var a := Min(angle, ANGLE_MAX);
    if id == PAN then Pose(a, p.tilt, a)
    else if id == TILT then p.(tilt := a)
    else if id == TILT2 then p.(tilt2 := a)
    else p
  }

  /** Does a request for servo `id` drive servo `x`? PAN drives its mirror TILT2 too. */
  predicate Drives(id: nat, x: nat) {
    id == x || (id == PAN && x == TILT2)
  }

  /** The servo and the step of a joystick direction: PAN is right and left, TILT up and down. */
  function ServoOf(pan: bool): nat { if pan then PAN else TILT }

  function DeltaOf(up: bool): int { if up then ANGLE_STEP else -ANGLE_STEP }

  /** The angle a joystick step asks for: current plus delta, clamped to 0..180. */
  function Stepped(angle: nat, delta: int): (a: nat)
    ensures a <= ANGLE_MAX
  {
    var t := angle + delta;
    if t < 0 then 0 else if t > ANGLE_MAX then ANGLE_MAX else t
  }

  /** Appending to a full recording drops its oldest move. */
  function Push(ms: seq<Move>, m: Move): seq<Move> {
    if |ms| >= FIFO_SIZE then ms[|ms| - FIFO_SIZE + 1..] + [m] else ms + [m]
  }

  /** What 256 slots keep of a sequence: its newest elements, in order. */
  function Newest<T>(xs: seq<T>): (r: seq<T>)
    ensures |r| == Min(|xs|, FIFO_SIZE)
  {
    if |xs| <= FIFO_SIZE then xs else xs[|xs| - FIFO_SIZE..]
  }

  lemma NewestAppend<T>(a: seq<T>, b: seq<T>)
    ensures Newest(Newest(a) + b) == Newest(a + b)
  {
  }

  lemma PushNewest(ms: seq<Move>, m: Move)
    ensures Push(Newest(ms), m) == Newest(ms + [m])
  {
  }
}
