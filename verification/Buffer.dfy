/**
  The recording in its ring of 256 slots. The two indices run freely over 32 bits and are
  reduced to a slot only when it is accessed.
 */
module Buffer {
  import opened EchoTypes

  // Index arithmetic ----------------------------------------------------------------------

  function Slot(index: nat): (k: nat)
    ensures k < FIFO_SIZE
  {
    index % FIFO_SIZE
  }

  function Next(index: nat): (k: nat)
    ensures k < U32
  {
    (index + 1) % U32
  }

  /** How far `inp` is ahead of `out`, counting through the wrap. */
  function Ahead(inp: nat, out: nat): (n: nat)
    requires inp < U32 && out < U32
    ensures n < U32
  {
    (inp + U32 - out) % U32
  }

  lemma WrapKeepsSlot(x: nat)
    ensures Slot(x % U32) == Slot(x)
  {
    var q := x / U32;
    assert x == FIFO_SIZE * (q * (U32 / FIFO_SIZE)) + x % U32;
  }

  lemma SlotsDiffer(i: nat, j: nat)
    requires i < j < i + FIFO_SIZE
    ensures Slot(i) != Slot(j)
  {
  }

  lemma AheadOf(inp: nat, out: nat)
    requires inp < U32 && out < U32
    ensures (out + Ahead(inp, out)) % U32 == inp
  {
  }

  lemma InpMoves(inp: nat, out: nat)
    requires inp < U32 && out < U32 && Ahead(inp, out) < U32 - 1
    ensures Ahead(Next(inp), out) == Ahead(inp, out) + 1
  {
  }

  lemma OutMoves(inp: nat, out: nat)
    requires inp < U32 && out < U32 && Ahead(inp, out) > 0
    ensures Ahead(inp, Next(out)) == Ahead(inp, out) - 1
  {
  }

  /** The `n` entries from index `out` on. */
  function Window(data: seq<Move>, out: nat, n: nat): (ms: seq<Move>)
    requires |data| == FIFO_SIZE
    ensures |ms| == n
  {
    seq(n, j requires 0 <= j < n => data[Slot(out + j)])
  }

  lemma WindowPut(data: seq<Move>, out: nat, n: nat, inp: nat, m: Move)
    requires |data| == FIFO_SIZE && n < FIFO_SIZE && out < U32 && inp == (out + n) % U32
    ensures Window(data[Slot(inp) := m], out, n + 1) == Window(data, out, n) + [m]
  {
    var now := Window(data[Slot(inp) := m], out, n + 1);
    WrapKeepsSlot(out + n);
    forall j | 0 <= j < n ensures now[j] == Window(data, out, n)[j] {
      SlotsDiffer(out + j, out + n);
    }
    assert now[n] == m;
  }

  lemma WindowGet(data: seq<Move>, out: nat, n: nat)
    requires |data| == FIFO_SIZE && n > 0 && out < U32
    ensures Window(data, Next(out), n - 1) == Window(data, out, n)[1..]
    ensures Window(data, out, n)[0] == data[Slot(out)]
  {
    WrapKeepsSlot(out + 1);
    forall j | 0 <= j < n - 1 ensures Window(data, Next(out), n - 1)[j] == Window(data, out, n)[1..][j] {
      SlotShift(Next(out), out + 1, j);
      assert Window(data, out, n)[1..][j] == Window(data, out, n)[j + 1] == data[Slot(out + (j + 1))];
    }
  }

  lemma SlotShift(a: nat, b: nat, j: nat)
    requires Slot(a) == Slot(b)
    ensures Slot(a + j) == Slot(b + j)
  {
  }

  lemma NextOf(x: nat, i: nat)
    ensures Next((x + i) % U32) == (x + (i + 1)) % U32
  {
  }

  // The driver's buffer -------------------------------------------------------------------

  class MoveBuffer {
    const data: array<Move>
    var inp: nat
    var out: nat
    var speed: nat
    var replays: nat

    ghost predicate Valid()
      reads this
    {
      data.Length == FIFO_SIZE && inp < U32 && out < U32 && Ahead(inp, out) <= FIFO_SIZE && 0 < speed < U16
    }

    /** The recorded moves, oldest first. */
    ghost function Contents(): (ms: seq<Move>)
      requires Valid()
      reads this, data
    {
      Window(data[..], out, Ahead(inp, out))
    }

    constructor ()
      ensures Valid() && fresh(data) && Contents() == [] && speed == 1 && replays == 0
    {
      data := new Move[FIFO_SIZE](_ => Move(0, 0, 0));
      inp, out, speed, replays := 0, 0, 1, 0;
    }

    // kfifo ---------------------------------------------------------------------------------

    /** kfifo_len, and echo_buffer_count */
    method Len() returns (n: nat)
      requires Valid()
      ensures n == |Contents()| == Ahead(inp, out)
    {
      n := Ahead(inp, out);
    }

    method Put(m: Move) returns (ok: bool)
      requires Valid()
      modifies this`inp, data
      ensures Valid() && ok == (|old(Contents())| < FIFO_SIZE)
      ensures Contents() == if ok then old(Contents()) + [m] else old(Contents())
      ensures inp == if ok then Next(old(inp)) else old(inp)
    {
      var n := Ahead(inp, out);
      if n >= FIFO_SIZE { return false; }
      AheadOf(inp, out);
      InpMoves(inp, out);
      WindowPut(data[..], out, n, inp, m);
      ghost var was := data[..];
      data[Slot(inp)] := m;
      assert data[..] == was[Slot(inp) := m];
      inp := Next(inp);
      ok := true;
    }

    method Get() returns (ok: bool, m: Move)
      requires Valid()
      modifies this`out
      ensures Valid() && ok == (old(Contents()) != [])
      ensures ok ==> m == old(Contents())[0] && Contents() == old(Contents())[1..] && out == Next(old(out))
      ensures !ok ==> Contents() == old(Contents()) && out == old(out)
    {
      m := data[Slot(out)];
      if Ahead(inp, out) == 0 { return false, m; }
      WindowGet(data[..], out, Ahead(inp, out));
      OutMoves(inp, out);
      out := Next(out);
      ok := true;
    }

    /** kfifo_skip, which does not test for an empty fifo */
    method Skip()
      requires Valid() && Contents() != []
      modifies this`out
      ensures Valid() && Contents() == old(Contents())[1..]
    {
      WindowGet(data[..], out, Ahead(inp, out));
      OutMoves(inp, out);
      out := Next(out);
    }

    // echo_buffer.c -------------------------------------------------------------------------

    /** echo_buffer_record: a full recording loses its oldest move */
    method Record(m: Move)
      requires Valid()
      modifies this`inp, this`out, data
      ensures Valid() && Contents() == Push(old(Contents()), m)
    {
      var n := Len();
      if n >= FIFO_SIZE { Skip(); }
      var ok := Put(m);
    }

    /** echo_buffer_clear */
    method Clear()
      requires Valid()
      modifies this`inp, this`out
      ensures Valid() && Contents() == []
    {
      inp, out := 0, 0;
    }

    /** echo_buffer_set_replay_speed ignores 0. */
    method SetReplaySpeed(s: nat)
      requires Valid() && s < U16
      modifies this`speed
      ensures Valid() && speed == (if s > 0 then s else old(speed)) && Contents() == old(Contents())
    {
      if s > 0 { speed := s; }
    }

    /** The first loop of the worker's snapshot: drain into `moves`. */
    method Drain(moves: array<Move>, count: nat)
      requires Valid() && moves.Length == FIFO_SIZE && moves != data && count == |Contents()|
      modifies this`out, moves
      ensures Valid() && Contents() == [] && moves[..count] == old(Contents())
      ensures out == (old(out) + count) % U32
    {
      ghost var all := Contents();
      var i := 0;
      while i < count
        invariant 0 <= i <= count && Valid()
        invariant Contents() == all[i..] && moves[..i] == all[..i]
        invariant out == (old(out) + i) % U32
      {
        var ok, m := Get();
        if !ok { break; }
        moves[i] := m;
        NextOf(old(out), i);
        i := i + 1;
      }
    }

    /** The second loop: put every entry back. */
    method PutBack(moves: array<Move>, count: nat)
      requires Valid() && moves.Length == FIFO_SIZE && moves != data && count <= FIFO_SIZE && Contents() == []
      modifies this`inp, data
      ensures Valid() && Contents() == moves[..count]
      ensures inp == (old(inp) + count) % U32
    {
      var i := 0;
      while i < count
        invariant 0 <= i <= count && Valid() && Contents() == moves[..i]
        invariant inp == (old(inp) + i) % U32
      {
        var ok := Put(moves[i]);
        NextOf(old(inp), i);
        i := i + 1;
      }
    }

    /** The whole snapshot, under the fifo's lock: the recording ends as it began, whether or not
        it is full, although both indices have moved on. */
    method Snapshot(moves: array<Move>) returns (count: nat)
      requires Valid() && moves.Length == FIFO_SIZE && moves != data
      modifies this`inp, this`out, data, moves
      ensures Valid() && Contents() == old(Contents())
      ensures count == |Contents()| && moves[..count] == Contents()
      ensures inp == (old(inp) + count) % U32 && out == (old(out) + count) % U32
    {
      count := Len();
      if count > FIFO_SIZE { count := FIFO_SIZE; }
      Drain(moves, count);
      PutBack(moves, count);
    }
  }

  // Histories -----------------------------------------------------------------------------

  datatype Op = Recorded(m: Move) | Cleared | Snapped

  /** All moves recorded since the last clear, after `ms` that were there before. */
  function SinceClear(ms: seq<Move>, ops: seq<Op>): seq<Move> {
    if ops == [] then ms
    else
      var before := SinceClear(ms, ops[..|ops| - 1]);
      match ops[|ops| - 1]
      case Recorded(m) => before + [m]
      case Cleared => []
      case Snapped => before
  }

  /** Over every sequence of records, clears and snapshots, from any indices and any contents: the
      ring holds exactly the last min(n, 256) moves since the last clear, in order. */
  method Perform(ring: MoveBuffer, ops: seq<Op>)
    requires ring.Valid()
    modifies ring`inp, ring`out, ring.data
    ensures ring.Valid()
    ensures ring.Contents() == Newest(SinceClear(old(ring.Contents()), ops))
    ensures |ring.Contents()| == Ahead(ring.inp, ring.out) <= FIFO_SIZE
  {
    ghost var was := ring.Contents();
    var moves := new Move[FIFO_SIZE](_ => Move(0, 0, 0));
    for i := 0 to |ops|
      invariant ring.Valid() && ring.Contents() == Newest(SinceClear(was, ops[..i]))
    {
      assert ops[..i + 1][..i] == ops[..i];
      match ops[i]
      case Recorded(m) =>
        PushNewest(SinceClear(was, ops[..i]), m);
        ring.Record(m);
      case Cleared => ring.Clear();
      case Snapped => var count := ring.Snapshot(moves);
    }
    assert ops[..|ops|] == ops;
  }
}
