/** How far a running worker is from its completion signal: every step it takes brings it nearer. */
module Progress {
  import opened EchoTypes
  import opened Machine
  import U = Unrestricted

  /** Steps a worker needs at most to take a full recording, play it and signal. */
  const FULL: nat := 5 * FIFO_SIZE + 8

  function SnapLeft(at: SnapAt): int {
    match at
    case Alloc => FULL
    case Drain(moves, count) => 7 + 4 * count + (count - |moves|)
    case PutBack(moves, k) => 6 + 3 * |moves| + (|moves| - k)
    case CountRun(moves) => 5 + 3 * |moves|
  }

  function PlayLeft(at: PlayAt, n: nat, i: nat): int {
    4 + 3 * (n - i) - (match at case Check => 0 case PlayMove => 1 case PlayNotify => 2)
  }

  /** Steps a running worker still needs at most until it signals. */
  function WorkLeft(w: WorkerPC): int {
    match w
    case Resting => 0
    case Snapping(at) => SnapLeft(at)
    case Playing(at, plan, i) => PlayLeft(at, |plan|, i)
    case Finishing(at) => if at.Complete? then 2 else if at.Signal? then 1 else 0
  }

  lemma WorkLeftBound(s: State)
    requires U.GoodFifo(s.worker, s.fifo)
    ensures 0 <= WorkLeft(s.worker) <= FULL
  {
  }

  lemma SnapLeftDrops(s: State, at: SnapAt, ok: bool)
    requires U.GoodFifo(s.worker, s.fifo) && s.worker == Snapping(at) && WorkEnabled(s)
    ensures var w := WorkSnap(s, at, ok).worker; WorkerPreSignal(w) && WorkLeft(w) < SnapLeft(at)
  {
    match at case Alloc => case Drain(_, _) => case PutBack(_, _) => case CountRun(_) =>
  }

  lemma PlayLeftDrops(s: State, at: PlayAt, plan: seq<Move>, i: nat)
    requires U.GoodFifo(s.worker, s.fifo) && s.worker == Playing(at, plan, i) && WorkEnabled(s)
    ensures var w := WorkPlay(s, at, plan, i).worker; WorkerPreSignal(w) && WorkLeft(w) < PlayLeft(at, |plan|, i)
  {
    match at case Check => case PlayMove => case PlayNotify =>
  }
}
