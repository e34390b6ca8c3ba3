/**
  The delays a session records and the sleeps a replay asks for. Times are nanoseconds of the
  monotonic clock; delays and sleeps are milliseconds.
 */
module Timing {
  import opened EchoTypes

  const NS_PER_MS: nat := 1_000_000
  const MIN_SLEEP: nat := 10

  /** Press times of a session, preceded by the time at which it began. */
  predicate Clock(ts: seq<nat>) {
    |ts| > 0 && forall k :: 0 < k < |ts| ==> ts[k - 1] <= ts[k]
  }

  /** Whole milliseconds of a gap, and what a press records of them: the low 32 bits. */
  function Ms(gap: nat): nat { gap / NS_PER_MS }

  function DelayMs(gap: nat): nat { Ms(gap) % U32 }

  /** The gaps of a session, the delays its presses record, and the whole milliseconds they
      stand for. */
  function Gaps(ts: seq<nat>): (gs: seq<nat>)
    requires Clock(ts)
    ensures |gs| == |ts| - 1
  {
    seq(|ts| - 1, k requires 0 <= k < |ts| - 1 => ts[k + 1] - ts[k])
  }

  function Each(f: nat -> nat, gs: seq<nat>): (ds: seq<nat>)
    ensures |ds| == |gs| && forall k :: 0 <= k < |gs| ==> ds[k] == f(gs[k])
  {
    seq(|gs|, k requires 0 <= k < |gs| => f(gs[k]))
  }

  function Delays(ts: seq<nat>): (ds: seq<nat>)
    requires Clock(ts)
    ensures |ds| == |ts| - 1
  {
    Each(DelayMs, Gaps(ts))
  }

  function Wholes(ts: seq<nat>): seq<nat>
    requires Clock(ts)
  {
    Each(Ms, Gaps(ts))
  }

  function Sum(ds: seq<nat>): nat {
    if ds == [] then 0 else Sum(ds[..|ds| - 1]) + ds[|ds| - 1]
  }

  /** Every gap is shorter than 2^32 milliseconds. */
  predicate ShortGaps(ts: seq<nat>) {
    forall k :: 0 < k < |ts| ==> ts[k] < ts[k - 1] + U32 * NS_PER_MS
  }

  /** How long the session took, in nanoseconds. */
  function Elapsed(ts: seq<nat>): int
    requires |ts| > 0
  {
    ts[|ts| - 1] as int - ts[0]
  }

  // Sums ----------------------------------------------------------------------------------

  predicate Below(a: seq<nat>, b: seq<nat>) {
    |a| == |b| && forall k :: 0 <= k < |a| ==> a[k] <= b[k]
  }

  lemma {:induction false} SumBelow(a: seq<nat>, b: seq<nat>)
    requires Below(a, b)
    ensures Sum(a) <= Sum(b)
    decreases |a|
  {
    if a != [] { SumBelow(a[..|a| - 1], b[..|a| - 1]); }
  }

  lemma {:induction false} SumLosing(a: seq<nat>, b: seq<nat>, k: nat, lost: nat)
    requires Below(a, b) && k < |a| && a[k] + lost <= b[k]
    ensures Sum(a) + lost <= Sum(b)
    decreases |a|
  {
    var i := |a| - 1;
    if k == i { SumBelow(a[..i], b[..i]); } else { SumLosing(a[..i], b[..i], k, lost); }
  }

  lemma {:induction false} GapsAddUp(ts: seq<nat>)
    requires Clock(ts)
    ensures Sum(Gaps(ts)) == Elapsed(ts)
    decreases |ts|
  {
    if |ts| > 1 {
      var i := |ts| - 1;
      GapsAddUp(ts[..i]);
      assert Gaps(ts)[..i - 1] == Gaps(ts[..i]);
    }
  }

  /** `ms` is `gap` rounded down to milliseconds. */
  predicate Rounds(gap: nat, ms: nat) {
    ms * NS_PER_MS <= gap < ms * NS_PER_MS + NS_PER_MS
  }

  /** Rounding each gap down loses less than a millisecond a gap. */
  lemma {:induction false} SumOfParts(gs: seq<nat>, ms: seq<nat>)
    requires |gs| == |ms| && forall k :: 0 <= k < |gs| ==> Rounds(gs[k], ms[k])
    ensures Sum(ms) * NS_PER_MS <= Sum(gs)
    ensures gs != [] ==> Sum(gs) < (Sum(ms) + |gs|) * NS_PER_MS
    decreases |gs|
  {
    if gs != [] {
      var i := |gs| - 1;
      SumOfParts(gs[..i], ms[..i]);
      assert Rounds(gs[i], ms[i]);
    }
  }

  lemma MsBounds(gap: nat)
    ensures Rounds(gap, Ms(gap))
  {
  }

  lemma DelayBounds(gap: nat)
    ensures DelayMs(gap) <= Ms(gap)
    ensures gap < U32 * NS_PER_MS ==> DelayMs(gap) == Ms(gap)
    ensures gap >= U32 * NS_PER_MS ==> DelayMs(gap) + U32 <= Ms(gap)
  {
    MsBounds(gap);
  }

  lemma WholeFits(ts: seq<nat>)
    requires Clock(ts)
    ensures Sum(Wholes(ts)) * NS_PER_MS <= Elapsed(ts)
    ensures |ts| > 1 ==> Elapsed(ts) < (Sum(Wholes(ts)) + |ts| - 1) * NS_PER_MS
  {
    var gs := Gaps(ts);
    forall k | 0 <= k < |gs| ensures Rounds(gs[k], Wholes(ts)[k]) {
      MsBounds(gs[k]);
    }
    SumOfParts(gs, Wholes(ts));
    GapsAddUp(ts);
  }

  lemma DelaysOfWhole(ts: seq<nat>)
    requires Clock(ts)
    ensures Below(Delays(ts), Wholes(ts))
    ensures ShortGaps(ts) ==> Delays(ts) == Wholes(ts)
  {
    var gs := Gaps(ts);
    forall k | 0 <= k < |gs|
      ensures Delays(ts)[k] <= Wholes(ts)[k] && (ShortGaps(ts) ==> Delays(ts)[k] == Wholes(ts)[k])
    {
      DelayBounds(gs[k]);
      assert ShortGaps(ts) ==> ts[k + 1] < ts[k + 1 - 1] + U32 * NS_PER_MS;
    }
  }

  /** One gap of 2^32 milliseconds or more loses at least that much. */
  lemma LongGapLoses(ts: seq<nat>)
    requires Clock(ts) && !ShortGaps(ts)
    ensures Sum(Delays(ts)) + U32 <= Sum(Wholes(ts))
  {
    var k :| 0 < k < |ts| && ts[k] >= ts[k - 1] + U32 * NS_PER_MS;
    DelaysOfWhole(ts);
    DelayBounds(Gaps(ts)[k - 1]);
    SumLosing(Delays(ts), Wholes(ts), k - 1, U32);
  }

  /** The recorded delays never add up to more than the session took. They keep its length to
      within one millisecond a move exactly when no gap reaches 2^32 milliseconds. */
  lemma DelaysKeepTime(ts: seq<nat>)
    requires Clock(ts) && 1 < |ts|
    ensures Sum(Delays(ts)) * NS_PER_MS <= Elapsed(ts)
    ensures ShortGaps(ts) ==> Elapsed(ts) < (Sum(Delays(ts)) + |ts| - 1) * NS_PER_MS
    ensures |ts| <= U32 && !ShortGaps(ts) ==> Elapsed(ts) >= (Sum(Delays(ts)) + |ts| - 1) * NS_PER_MS
  {
    WholeFits(ts);
    DelaysOfWhole(ts);
    SumBelow(Delays(ts), Wholes(ts));
    if !ShortGaps(ts) { LongGapLoses(ts); }
  }

  // Playback ------------------------------------------------------------------------------

  /** The sleep before one replayed move: the delay divided by the speed, but at least 10. */
  function SleepMs(delay: nat, speed: nat): nat {
    var d := if speed > 0 then delay / speed else delay;
    if d < MIN_SLEEP then MIN_SLEEP else d
  }

  /** All sleeps of a replay; the speed is read anew before each. */
  function Slept(ds: seq<nat>, speeds: seq<nat>): nat
    requires |ds| == |speeds|
  {
    if ds == [] then 0
    else Slept(ds[..|ds| - 1], speeds[..|ds| - 1]) + SleepMs(ds[|ds| - 1], speeds[|ds| - 1])
  }

  function SleptAt(ds: seq<nat>, speed: nat): nat {
    if ds == [] then 0 else SleptAt(ds[..|ds| - 1], speed) + SleepMs(ds[|ds| - 1], speed)
  }

  /** The sleep before a move is exactly the delay divided by the speed, rounded down, unless that is
      less than 10 ms; then it is 10 ms. */
  lemma SleepBounds(delay: nat, speed: nat)
    requires speed > 0
    ensures delay < speed * (SleepMs(delay, speed) + 1)
    ensures speed * SleepMs(delay, speed) <= delay + MIN_SLEEP * speed
    ensures delay >= 10 * speed ==> speed * SleepMs(delay, speed) <= delay < speed * SleepMs(delay, speed) + speed
    ensures delay < 10 * speed ==> SleepMs(delay, speed) == 10
  {
    var q := delay / speed;
    assert speed * q <= delay < speed * q + speed;
    var m := SleepMs(delay, speed);
    assert m == q || (q < MIN_SLEEP && m == MIN_SLEEP);
    MulLe(speed, q, m);
  }

  lemma MulLe(a: nat, b: int, c: int)
    requires b <= c
    ensures a * b <= a * c
  {
  }

  lemma SplitSum(speed: nat, a: nat, m: nat, n: nat)
    ensures speed * (a + m + (n + 1)) == speed * (a + n) + speed * (m + 1)
    ensures speed * (a + m) == speed * a + speed * m
    ensures MIN_SLEEP * (n + 1) * speed == MIN_SLEEP * n * speed + MIN_SLEEP * speed
  {
  }

  lemma {:induction false} SleptBounds(ds: seq<nat>, speed: nat)
    requires speed > 0
    ensures Sum(ds) <= speed * (SleptAt(ds, speed) + |ds|)
    ensures ds != [] ==> Sum(ds) < speed * (SleptAt(ds, speed) + |ds|)
    ensures speed * SleptAt(ds, speed) <= Sum(ds) + MIN_SLEEP * |ds| * speed
  {
    if ds != [] {
      var i := |ds| - 1;
      SleptBounds(ds[..i], speed);
      SleepBounds(ds[i], speed);
      SplitSum(speed, SleptAt(ds[..i], speed), SleepMs(ds[i], speed), i);
    }
  }

  lemma TimeBounds(e: int, d: nat, n: nat, total: nat, speed: nat)
    requires d * NS_PER_MS <= e < (d + n) * NS_PER_MS && speed > 0
    requires d <= speed * (total + n) && speed * total <= d + MIN_SLEEP * n * speed
    ensures e < speed * (total + 2 * n) * NS_PER_MS
    ensures speed * total * NS_PER_MS <= e + MIN_SLEEP * n * speed * NS_PER_MS
  {
    assert speed * (total + 2 * n) == speed * (total + n) + speed * n;
    MulLe(n, 1, speed);
    var a, b, c := speed * (total + 2 * n), speed * total, MIN_SLEEP * n * speed;
    assert d + n <= a && b <= d + c;
  }

  lemma {:induction false} SleptCovers(ds: seq<nat>)
    ensures Sum(ds) <= SleptAt(ds, 1)
  {
    if ds != [] { SleptCovers(ds[..|ds| - 1]); }
  }

  // A session and its replay --------------------------------------------------------------

  function Constant(n: nat, speed: nat): (speeds: seq<nat>)
    ensures |speeds| == n
  {
    seq(n, k requires 0 <= k < n => speed)
  }

  lemma {:induction false} SleptConstant(ds: seq<nat>, speed: nat)
    ensures Slept(ds, Constant(|ds|, speed)) == SleptAt(ds, speed)
    decreases |ds|
  {
    if ds != [] {
      SleptConstant(ds[..|ds| - 1], speed);
      assert Constant(|ds|, speed)[..|ds| - 1] == Constant(|ds| - 1, speed);
    }
  }

  /** The part of a session that the recording keeps: its last 256 presses, preceded by the time of
      the press before them. */
  function Survivors(ts: seq<nat>): (r: seq<nat>)
    requires |ts| > 0
    ensures |r| == Min(|ts| - 1, FIFO_SIZE) + 1
  {
    if |ts| <= FIFO_SIZE + 1 then ts else ts[|ts| - FIFO_SIZE - 1..]
  }

  lemma LaterClock(ts: seq<nat>, d: nat)
    requires Clock(ts) && d < |ts|
    ensures Clock(ts[d..]) && (ShortGaps(ts) ==> ShortGaps(ts[d..]))
  {
    forall k | 0 < k < |ts[d..]|
      ensures ts[d..][k - 1] <= ts[d..][k] && (ShortGaps(ts) ==> ts[d..][k] < ts[d..][k - 1] + U32 * NS_PER_MS)
    {
      assert ts[d..][k] == ts[d + k] && ts[d..][k - 1] == ts[d + k - 1];
    }
  }

  lemma LaterGaps(ts: seq<nat>, d: nat)
    requires Clock(ts) && d < |ts| && Clock(ts[d..])
    ensures Gaps(ts[d..]) == Gaps(ts)[d..]
  {
    forall k | 0 <= k < |ts| - d - 1 ensures Gaps(ts[d..])[k] == Gaps(ts)[d..][k] {
      assert Gaps(ts)[d..][k] == Gaps(ts)[d + k];
    }
  }

  lemma SurvivingGaps(ts: seq<nat>)
    requires Clock(ts)
    ensures Clock(Survivors(ts)) && (ShortGaps(ts) ==> ShortGaps(Survivors(ts)))
    ensures Newest(Gaps(ts)) == Gaps(Survivors(ts))
  {
    var gs := Gaps(ts);
    if |ts| > FIFO_SIZE + 1 {
      var d := |ts| - FIFO_SIZE - 1;
      LaterClock(ts, d);
      LaterGaps(ts, d);
      assert Survivors(ts) == ts[d..] && |gs| - FIFO_SIZE == d;
      assert Newest(gs) == gs[d..];
    } else {
      assert Survivors(ts) == ts && Newest(gs) == gs;
    }
  }

  lemma NewestEach(f: nat -> nat, gs: seq<nat>)
    ensures Newest(Each(f, gs)) == Each(f, Newest(gs))
  {
  }

  lemma SurvivingDelays(ts: seq<nat>)
    requires Clock(ts)
    ensures Clock(Survivors(ts)) && (ShortGaps(ts) ==> ShortGaps(Survivors(ts)))
    ensures Newest(Delays(ts)) == Delays(Survivors(ts))
  {
    SurvivingGaps(ts);
    NewestEach(DelayMs, Gaps(ts));
  }

  /** What a replay at constant speed sleeps after a session that began with an empty recording. */
  function ReplayMs(ts: seq<nat>, speed: nat): nat
    requires Clock(ts)
  {
    Slept(Newest(Delays(ts)), Constant(|Newest(Delays(ts))|, speed))
  }

  /** A replay that finds the newest delays of a session sleeps that long, and keeps their time. */
  lemma ReplaySleeps(ts: seq<nat>, speed: nat, ds: seq<nat>, speeds: seq<nat>)
    requires Clock(ts) && 0 < speed && ds == Newest(Delays(ts)) && speeds == Constant(|ds|, speed)
    ensures Slept(ds, speeds) == ReplayMs(ts, speed)
    ensures ShortGaps(ts) && |ts| > 1 ==> Keeps(Survivors(ts), Slept(ds, speeds), speed)
    ensures ShortGaps(ts) && |ts| > 1 && speed == 1 ==> KeepsAtOne(Survivors(ts), Slept(ds, speeds))
  {
    if ShortGaps(ts) && |ts| > 1 {
      ReplayKeepsTime(ts, speed);
      if speed == 1 { ReplayKeepsTimeAtOne(ts); }
    }
  }

  /** `total` ms at speed s lie above T/s - 2n and at or below T/s + 10n, for n moves made in T. */
  predicate Keeps(ts: seq<nat>, total: nat, speed: nat)
    requires |ts| > 0
  {
    var n := |ts| - 1;
    && Elapsed(ts) < speed * (total + 2 * n) * NS_PER_MS
    && speed * total * NS_PER_MS <= Elapsed(ts) + 10 * n * speed * NS_PER_MS
  }

  /** `total` ms lie above T - n and at or below T + 10n. */
  predicate KeepsAtOne(ts: seq<nat>, total: nat)
    requires |ts| > 0
  {
    var n := |ts| - 1;
    Elapsed(ts) < (total + n) * NS_PER_MS && total * NS_PER_MS <= Elapsed(ts) + 10 * n * NS_PER_MS
  }

  lemma SleepsKeepTime(ts: seq<nat>, speed: nat)
    requires Clock(ts) && ShortGaps(ts) && |ts| > 1 && speed > 0
    ensures Keeps(ts, SleptAt(Delays(ts), speed), speed) && (speed == 1 ==> KeepsAtOne(ts, SleptAt(Delays(ts), speed)))
  {
    DelaysKeepTime(ts);
    SleptBounds(Delays(ts), speed);
    TimeBounds(Elapsed(ts), Sum(Delays(ts)), |ts| - 1, SleptAt(Delays(ts), speed), speed);
    SleptCovers(Delays(ts));
  }

  /** End to end: the n surviving presses of a session, made in T, are replayed at constant speed s
      with sleeps that add up to more than T/s - 2n and at most T/s + 10n. */
  lemma ReplayKeepsTime(ts: seq<nat>, speed: nat)
    requires Clock(ts) && ShortGaps(ts) && |ts| > 1 && speed > 0
    ensures Keeps(Survivors(ts), ReplayMs(ts, speed), speed)
  {
    SurvivingDelays(ts);
    SleptConstant(Newest(Delays(ts)), speed);
    SleepsKeepTime(Survivors(ts), speed);
  }

  /** At normal speed the sleeps lie above T - n and at or below T + 10n. */
  lemma ReplayKeepsTimeAtOne(ts: seq<nat>)
    requires Clock(ts) && ShortGaps(ts) && |ts| > 1
    ensures KeepsAtOne(Survivors(ts), ReplayMs(ts, 1))
  {
    SurvivingDelays(ts);
    SleptConstant(Newest(Delays(ts)), 1);
    SleepsKeepTime(Survivors(ts), 1);
  }

  // Whole sessions ------------------------------------------------------------------------

  const LONG_GAP: nat := (U32 - 1) * NS_PER_MS

  /** A session of `n` presses past the capacity: long gaps before the presses that are lost, none
      between those that survive. */
  function Overflowing(n: nat): (ts: seq<nat>)
    requires n > FIFO_SIZE
    ensures |ts| == n + 1
  {
    seq(n + 1, k requires 0 <= k <= n => (if k <= n - FIFO_SIZE then k else n - FIFO_SIZE) * LONG_GAP)
  }

  lemma OverflowingGaps(n: nat, k: nat)
    requires n > FIFO_SIZE && 0 < k <= n
    ensures Overflowing(n)[k] == Overflowing(n)[k - 1] + if k <= n - FIFO_SIZE then LONG_GAP else 0
  {
    if k <= n - FIFO_SIZE { assert k * LONG_GAP == (k - 1) * LONG_GAP + LONG_GAP; }
  }

  lemma OverflowingIsShort(n: nat)
    requires n > FIFO_SIZE
    ensures Clock(Overflowing(n)) && ShortGaps(Overflowing(n))
    ensures Elapsed(Overflowing(n)) == (n - FIFO_SIZE) * LONG_GAP
  {
    forall k | 0 < k < n + 1 ensures Overflowing(n)[k - 1] <= Overflowing(n)[k] < Overflowing(n)[k - 1] + U32 * NS_PER_MS {
      OverflowingGaps(n, k);
    }
  }

  lemma OverflowingDelays(n: nat)
    requires n > FIFO_SIZE
    ensures Clock(Overflowing(n)) && Newest(Delays(Overflowing(n))) == Constant(FIFO_SIZE, 0)
  {
    OverflowingIsShort(n);
    var gs := Gaps(Overflowing(n));
    forall k | 0 <= k < FIFO_SIZE ensures Newest(gs)[k] == 0 {
      OverflowingGaps(n, n - FIFO_SIZE + k + 1);
    }
    NewestEach(DelayMs, gs);
    assert DelayMs(0) == 0;
  }

  lemma {:induction false} SleptZeros(n: nat, speed: nat)
    ensures SleptAt(Constant(n, 0), speed) == MIN_SLEEP * n
  {
    if n > 0 {
      assert Constant(n, 0)[..n - 1] == Constant(n - 1, 0);
      SleptZeros(n - 1, speed);
      assert SleepMs(0, speed) == MIN_SLEEP by { if speed > 0 { assert 0 / speed == 0; } }
    }
  }

  lemma OverflowingReplay(n: nat, speed: nat)
    requires n > FIFO_SIZE
    ensures Clock(Overflowing(n)) && ReplayMs(Overflowing(n), speed) == MIN_SLEEP * FIFO_SIZE
  {
    OverflowingDelays(n);
    SleptConstant(Constant(FIFO_SIZE, 0), speed);
    SleptZeros(FIFO_SIZE, speed);
  }

  lemma Outweighs(n: nat, speed: nat)
    requires n > FIFO_SIZE && speed < U16
    ensures speed * (MIN_SLEEP * FIFO_SIZE + 2 * n) <= (n - FIFO_SIZE) * (U32 - 1)
  {
    var slack := MIN_SLEEP * FIFO_SIZE + 2 * n;
    MulLe(slack, speed, U16);
    assert slack <= 3074 * (n - FIFO_SIZE);
  }

  lemma TooLong(ts: seq<nat>, e: nat, total: nat, speed: nat)
    requires |ts| > 0 && Elapsed(ts) == e * NS_PER_MS && speed * (total + 2 * (|ts| - 1)) <= e
    ensures !Keeps(ts, total, speed)
  {
  }

  lemma OverflowingAtSpeed(n: nat, speed: nat)
    requires n > FIFO_SIZE && 0 < speed < U16
    ensures Clock(Overflowing(n)) && !Keeps(Overflowing(n), ReplayMs(Overflowing(n), speed), speed)
  {
    OverflowingIsShort(n);
    OverflowingReplay(n, speed);
    Outweighs(n, speed);
    TooLong(Overflowing(n), (n - FIFO_SIZE) * (U32 - 1), MIN_SLEEP * FIFO_SIZE, speed);
  }

  /** Such a session is far longer than its replay, at every 16-bit speed. */
  lemma OverflowingLosesTime(n: nat, speed: nat)
    requires n > FIFO_SIZE && 0 < speed < U16
    ensures Clock(Overflowing(n)) && ShortGaps(Overflowing(n))
    ensures !Keeps(Overflowing(n), ReplayMs(Overflowing(n), speed), speed)
    ensures !KeepsAtOne(Overflowing(n), ReplayMs(Overflowing(n), 1))
  {
    OverflowingAtSpeed(n, speed);
    OverflowingIsShort(n);
    OverflowingReplay(n, 1);
    Outweighs(n, 1);
    assert Elapsed(Overflowing(n)) == (n - FIFO_SIZE) * (U32 - 1) * NS_PER_MS;
  }

  /** Every session of `n` presses is replayed within the bounds for its whole length. */
  ghost predicate WholeSessionsKept(n: nat, speed: nat) {
    forall ts: seq<nat> :: Clock(ts) && ShortGaps(ts) && |ts| == n + 1 ==> Keeps(ts, ReplayMs(ts, speed), speed)
  }

  ghost predicate WholeSessionsKeptAtOne(n: nat) {
    forall ts: seq<nat> :: Clock(ts) && ShortGaps(ts) && |ts| == n + 1 ==> KeepsAtOne(ts, ReplayMs(ts, 1))
  }

  /** The bounds hold of whole sessions, at any speed, exactly up to the capacity of the recording. */
  lemma WholeSessionsExactly(n: nat, speed: nat)
    requires 0 < n && 0 < speed < U16
    ensures WholeSessionsKept(n, speed) <==> n <= 256
    ensures WholeSessionsKeptAtOne(n) <==> n <= 256
  {
    if n > FIFO_SIZE {
      OverflowingLosesTime(n, speed);
    } else {
      forall ts: seq<nat> | Clock(ts) && ShortGaps(ts) && |ts| == n + 1
        ensures Keeps(ts, ReplayMs(ts, speed), speed) && KeepsAtOne(ts, ReplayMs(ts, 1))
      {
        ReplayKeepsTime(ts, speed);
        ReplayKeepsTimeAtOne(ts);
      }
    }
  }

  // Speed ---------------------------------------------------------------------------------

  predicate AtLeast(fast: seq<nat>, slow: seq<nat>) {
    |fast| == |slow| && forall k :: 0 <= k < |slow| ==> 0 < slow[k] <= fast[k]
  }

  lemma FasterSleep(delay: nat, slow: nat, fast: nat)
    requires 0 < slow <= fast
    ensures SleepMs(delay, fast) <= SleepMs(delay, slow)
  {
    var q, r := delay / fast, delay / slow;
    if q > r {
      MulLe(slow, r + 1, q);
      MulLe(q, slow, fast);
      assert slow * r + slow > delay;
      assert q * fast <= delay;
    }
  }

  /** A higher speed, at any of the moves, never makes a replay longer. */
  lemma {:induction false} FasterIsNotLonger(ds: seq<nat>, slow: seq<nat>, fast: seq<nat>)
    requires |ds| == |slow| && AtLeast(fast, slow)
    ensures Slept(ds, fast) <= Slept(ds, slow)
    decreases |ds|
  {
    if ds != [] {
      var i := |ds| - 1;
      FasterIsNotLonger(ds[..i], slow[..i], fast[..i]);
      FasterSleep(ds[i], slow[i], fast[i]);
    }
  }
}
