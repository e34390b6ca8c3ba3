/**
  Debouncing of the four joystick pins. The tick counter wraps; true time does not.
 */
module Joystick {
  import opened EchoTypes

  const NUM_PINS: nat := 4
  const UP: nat := 0
  const DOWN: nat := 1
  const LEFT: nat := 2
  const RIGHT: nat := 3

  datatype Direction = Direction(servo: nat, delta: int)

  function DirectionOf(pin: nat): Direction {
    Direction(ServoOf(pin == LEFT || pin == RIGHT), DeltaOf(pin == UP || pin == RIGHT))
  }

  /** The kernel's `a - b` on tick counters of `wrap` values. */
  function TickDiff(a: nat, b: nat, wrap: nat): nat
    requires a < wrap && b < wrap
  {
    if a >= b then a - b else a + wrap - b
  }

  /** The debounce test. */
  predicate Passes(now: nat, last: nat, wrap: nat, interval: nat)
    requires now < wrap && last < wrap
  {
    TickDiff(now, last, wrap) >= interval
  }

  class Pins {
    const wrap: nat            // number of values of the tick counter
    const interval: nat        // the debounce time in ticks
    const last: array<nat>     // the tick at which each pin was last accepted
    var irqCount: nat
    var calls: seq<Direction>  // the direction callbacks issued
    var locked: bool           // irq_lock

    ghost predicate Valid()
      reads this, last
    {
      && wrap > 0 && last.Length == NUM_PINS
      && (forall k :: 0 <= k < NUM_PINS ==> last[k] < wrap)
      && irqCount == |calls|
    }

    constructor (wrap: nat, interval: nat)
      requires wrap > 0
      ensures Valid() && fresh(last) && this.wrap == wrap && this.interval == interval
      ensures irqCount == 0 && calls == [] && !locked && forall k :: 0 <= k < NUM_PINS ==> last[k] == 0
    {
      this.wrap, this.interval := wrap, interval;
      last := new nat[NUM_PINS](_ => 0);
      irqCount, calls, locked := 0, [], false;
    }

    /** joystick_thread_fn with the braces its indentation asks for. `now` and `later` are its two
        readings of the tick counter. */
    method ThreadFn(pin: nat, now: nat, later: nat) returns (accepted: bool)
      requires Valid() && !locked && pin < NUM_PINS && now < wrap && later < wrap
      modifies this`irqCount, this`calls, this`locked, last
      ensures Valid() && !locked
      ensures accepted == Passes(now, old(last[pin]), wrap, interval)
      ensures calls == if accepted then old(calls) + [DirectionOf(pin)] else old(calls)
      ensures accepted ==> calls[|calls| - 1] == if pin == 0 then Direction(1, 5) else if pin == 1 then Direction(1, -5)
                                                 else if pin == 2 then Direction(0, -5) else Direction(0, 5)
      ensures last[..] == if accepted then old(last[..])[pin := later] else old(last[..])
    {
      locked := true;
      if TickDiff(now, last[pin], wrap) < interval {
        locked := false;
        return false;
      }
      last[pin] := later;
      locked := false;
      irqCount := irqCount + 1;
      if pin == UP {
        calls := calls + [Direction(TILT, ANGLE_STEP)];
      } else if pin == DOWN {
        calls := calls + [Direction(TILT, -ANGLE_STEP)];
      } else if pin == LEFT {
        calls := calls + [Direction(PAN, -ANGLE_STEP)];
      } else if pin == RIGHT {
        calls := calls + [Direction(PAN, ANGLE_STEP)];
      }
      accepted := true;
    }

    /** joystick_thread_fn as it is spelt: without braces the return belongs to no condition. No
        press is ever dispatched, and a press that is not a bounce leaves the lock taken. */
    method ThreadFnAsSpelt(pin: nat, now: nat)
      requires Valid() && !locked && pin < NUM_PINS && now < wrap
      modifies this`locked
      ensures Valid() && irqCount == old(irqCount) && calls == old(calls) && last[..] == old(last[..])
      ensures locked <==> Passes(now, last[pin], wrap, interval)
    {
      locked := true;
      if TickDiff(now, last[pin], wrap) < interval {
        locked := false;
      }
      return;
    }
  }

  // Arrivals in true time -----------------------------------------------------------------

  /** When a press was tested and when its time was noted, in true ticks. */
  datatype Arrival = Arrival(tested: nat, noted: nat)

  /** Presses on one pin, one after the other: the handler does not run beside itself. */
  predicate InOrder(xs: seq<Arrival>) {
    && (forall k :: 0 <= k < |xs| ==> xs[k].tested <= xs[k].noted)
    && forall k :: 0 < k < |xs| ==> xs[k - 1].noted <= xs[k].tested
  }

  /** The counter's reading at true time `t`; it starts anywhere. */
  function Reading(t: nat, boot: nat, wrap: nat): (r: nat)
    requires wrap > 0
    ensures r < wrap
  {
    (t + boot) % wrap
  }

  /** The pin's noted tick after the presses, and the presses that were accepted. */
  function Noted(xs: seq<Arrival>, boot: nat, wrap: nat, interval: nat): (r: (nat, seq<Arrival>))
    requires wrap > 0
    ensures r.0 < wrap
  {
    if xs == [] then (0, [])
    else
      var (last, acc) := Noted(xs[..|xs| - 1], boot, wrap, interval);
      var x := xs[|xs| - 1];
      if Passes(Reading(x.tested, boot, wrap), last, wrap, interval)
      then (Reading(x.noted, boot, wrap), acc + [x])
      else (last, acc)
  }

  /** A press on one of the pins. */
  datatype PinPress = PinPress(pin: nat, at: Arrival)

  /** The presses on one pin, in order. */
  function OnPin(es: seq<PinPress>, pin: nat): seq<Arrival> {
    if es == [] then []
    else OnPin(es[..|es| - 1], pin) + if es[|es| - 1].pin == pin then [es[|es| - 1].at] else []
  }

  lemma OnPinAppend(es: seq<PinPress>, e: PinPress, pin: nat)
    ensures OnPin(es + [e], pin) == OnPin(es, pin) + if e.pin == pin then [e.at] else []
  {
    assert (es + [e])[..|es|] == es;
  }

  /** The handler noted the tick `last` on a pin and accepted its presses in `acc`, as `Noted` says. */
  predicate PinAsNoted(last: nat, es: seq<PinPress>, acc: seq<PinPress>, pin: nat, boot: nat, wrap: nat, interval: nat)
    requires wrap > 0
  {
    (last, OnPin(acc, pin)) == Noted(OnPin(es, pin), boot, wrap, interval)
  }

  predicate AsNoted(last: seq<nat>, es: seq<PinPress>, acc: seq<PinPress>, boot: nat, wrap: nat, interval: nat)
    requires wrap > 0 && |last| == NUM_PINS
  {
    forall pin :: 0 <= pin < NUM_PINS ==> PinAsNoted(last[pin], es, acc, pin, boot, wrap, interval)
  }

  function Directions(es: seq<PinPress>): (ds: seq<Direction>)
    ensures |ds| == |es|
  {
    seq(|es|, k requires 0 <= k < |es| => DirectionOf(es[k].pin))
  }

  lemma NotedMore(xs: seq<Arrival>, x: Arrival, boot: nat, wrap: nat, interval: nat)
    requires wrap > 0
    ensures var (last, acc) := Noted(xs, boot, wrap, interval);
            var more := Noted(xs + [x], boot, wrap, interval);
            if Passes(Reading(x.tested, boot, wrap), last, wrap, interval)
            then more == (Reading(x.noted, boot, wrap), acc + [x])
            else more == (last, acc)
  {
    assert (xs + [x])[..|xs|] == xs;
  }

  lemma OtherPinNoted(last: nat, es: seq<PinPress>, acc: seq<PinPress>, e: PinPress, pin: nat, boot: nat, wrap: nat, interval: nat)
    requires wrap > 0 && pin != e.pin && PinAsNoted(last, es, acc, pin, boot, wrap, interval)
    ensures PinAsNoted(last, es + [e], acc, pin, boot, wrap, interval)
    ensures PinAsNoted(last, es + [e], acc + [e], pin, boot, wrap, interval)
  {
    OnPinAppend(es, e, pin);
    OnPinAppend(acc, e, pin);
    assert OnPin(es, pin) + [] == OnPin(es, pin) && OnPin(acc, pin) + [] == OnPin(acc, pin);
  }

  lemma ThisPinNoted(last: nat, es: seq<PinPress>, acc: seq<PinPress>, e: PinPress, boot: nat, wrap: nat, interval: nat)
    requires wrap > 0 && last < wrap && PinAsNoted(last, es, acc, e.pin, boot, wrap, interval)
    ensures if Passes(Reading(e.at.tested, boot, wrap), last, wrap, interval)
            then PinAsNoted(Reading(e.at.noted, boot, wrap), es + [e], acc + [e], e.pin, boot, wrap, interval)
            else PinAsNoted(last, es + [e], acc, e.pin, boot, wrap, interval)
  {
    OnPinAppend(es, e, e.pin);
    OnPinAppend(acc, e, e.pin);
    NotedMore(OnPin(es, e.pin), e.at, boot, wrap, interval);
  }

  lemma OneMoreNoted(last: seq<nat>, es: seq<PinPress>, acc: seq<PinPress>, e: PinPress, boot: nat, wrap: nat, interval: nat,
                     last': seq<nat>, acc': seq<PinPress>)
    requires wrap > 0 && |last| == NUM_PINS && e.pin < NUM_PINS && AsNoted(last, es, acc, boot, wrap, interval)
    requires last[e.pin] < wrap
    requires if Passes(Reading(e.at.tested, boot, wrap), last[e.pin], wrap, interval)
             then last' == last[e.pin := Reading(e.at.noted, boot, wrap)] && acc' == acc + [e]
             else last' == last && acc' == acc
    ensures AsNoted(last', es + [e], acc', boot, wrap, interval)
  {
    forall pin | 0 <= pin < NUM_PINS ensures PinAsNoted(last'[pin], es + [e], acc', pin, boot, wrap, interval) {
      if pin == e.pin {
        ThisPinNoted(last[pin], es, acc, e, boot, wrap, interval);
      } else {
        OtherPinNoted(last[pin], es, acc, e, pin, boot, wrap, interval);
      }
    }
  }

  /** One press is delivered, after `es` of which `acc` were accepted. */
  method DeliverOne(pins: Pins, e: PinPress, ghost es: seq<PinPress>, acc: seq<PinPress>, boot: nat) returns (acc': seq<PinPress>)
    requires pins.Valid() && !pins.locked && e.pin < NUM_PINS && pins.calls == Directions(acc)
    requires AsNoted(pins.last[..], es, acc, boot, pins.wrap, pins.interval)
    modifies pins, pins.last
    ensures pins.Valid() && !pins.locked && pins.calls == Directions(acc')
    ensures AsNoted(pins.last[..], es + [e], acc', boot, pins.wrap, pins.interval)
  {
    ghost var last := pins.last[..];
    var now, later := Reading(e.at.tested, boot, pins.wrap), Reading(e.at.noted, boot, pins.wrap);
    var accepted := pins.ThreadFn(e.pin, now, later);
    acc' := if accepted then acc + [e] else acc;
    OneMoreNoted(last, es, acc, e, boot, pins.wrap, pins.interval, pins.last[..], acc');
  }

  /** Presses on all four pins of a fresh joystick, in any order: on each pin exactly the presses that
      the results below speak of are accepted, and one callback is issued for each, in order. */
  method Deliver(pins: Pins, es: seq<PinPress>, boot: nat) returns (acc: seq<PinPress>)
    requires pins.Valid() && !pins.locked && pins.calls == [] && forall k :: 0 <= k < NUM_PINS ==> pins.last[k] == 0
    requires forall k :: 0 <= k < |es| ==> es[k].pin < NUM_PINS
    modifies pins, pins.last
    ensures pins.Valid() && !pins.locked && AsNoted(pins.last[..], es, acc, boot, pins.wrap, pins.interval)
    ensures pins.calls == Directions(acc) && pins.irqCount == |acc|
  {
    acc := [];
    for k := 0 to |es|
      invariant pins.Valid() && !pins.locked && pins.calls == Directions(acc)
      invariant AsNoted(pins.last[..], es[..k], acc, boot, pins.wrap, pins.interval)
    {
      acc := DeliverOne(pins, es[k], es[..k], acc, boot);
      assert es[..k + 1] == es[..k] + [es[k]];
    }
    assert es[..|es|] == es;
  }

  lemma OneMore(n: nat, interval: nat)
    ensures (n + 1) * interval == n * interval + interval
  {
  }

  lemma {:induction false} Multiples(w: nat, p: nat, q: nat)
    requires p < q
    ensures w * p + w <= w * q
    decreases q
  {
    OneMore(q - 1, w);
    if p < q - 1 { Multiples(w, p, q - 1); }
  }

  /** Differences of two numbers given by quotient and remainder. */
  lemma TurnDiff(w: nat, p: nat, r: nat, q: nat, u: nat)
    requires r < w && u < w && w * q + u <= w * p + r
    ensures TickDiff(r, u, w) <= w * p + r - (w * q + u)
    ensures w * p + r < w * q + u + w ==> TickDiff(r, u, w) == w * p + r - (w * q + u)
  {
    if p < q {
      Multiples(w, p, q);
    } else if p > q {
      Multiples(w, q, p);
      if p > q + 1 { Multiples(w, q + 1, p); assert w * (q + 1) == w * q + w; }
    }
  }

  lemma Parts(x: nat, w: nat)
    requires w > 0
    ensures w * (x / w) + x % w == x
  {
  }

  /** The wrapping difference never exceeds the true one, and is the true one within one turn. */
  lemma WrappingDiff(a: nat, b: nat, boot: nat, wrap: nat)
    requires wrap > 0 && b <= a
    ensures var d := TickDiff(Reading(a, boot, wrap), Reading(b, boot, wrap), wrap);
            d <= a - b && (a < b + wrap ==> d == a - b)
  {
    var x, y := a + boot, b + boot;
    Parts(x, wrap);
    Parts(y, wrap);
    TurnDiff(wrap, x / wrap, x % wrap, y / wrap, y % wrap);
  }

  /** Each press comes at least one interval after the one before was noted. */
  predicate Spaced(acc: seq<Arrival>, interval: nat) {
    && (forall k :: 0 <= k < |acc| ==> acc[k].tested <= acc[k].noted)
    && forall k :: 0 < k < |acc| ==> acc[k - 1].noted + interval <= acc[k].tested
  }

  lemma {:induction false} AcceptedAreSpaced(xs: seq<Arrival>, boot: nat, wrap: nat, interval: nat)
    requires wrap > 0 && InOrder(xs)
    ensures var (last, acc) := Noted(xs, boot, wrap, interval);
            && (acc != [] ==> last == Reading(acc[|acc| - 1].noted, boot, wrap) && acc[|acc| - 1].noted <= xs[|xs| - 1].noted)
            && (|acc| <= |xs|)
            && Spaced(acc, interval)
    decreases |xs|
  {
    if xs != [] {
      var i := |xs| - 1;
      AcceptedAreSpaced(xs[..i], boot, wrap, interval);
      var (last, acc) := Noted(xs[..i], boot, wrap, interval);
      if acc != [] { WrappingDiff(xs[i].tested, acc[|acc| - 1].noted, boot, wrap); }
    }
  }

  lemma {:induction false} SpacedSpan(acc: seq<Arrival>, interval: nat)
    requires acc != [] && Spaced(acc, interval)
    ensures acc[0].tested + (|acc| - 1) * interval <= acc[|acc| - 1].tested
    decreases |acc|
  {
    if |acc| > 1 {
      var i := |acc| - 1;
      SpacedSpan(acc[..i], interval);
      assert acc[..i][i - 1] == acc[i - 1] && acc[..i][0] == acc[0];
      OneMore(i - 1, interval);
    }
  }

  /** For every sequence of presses on a pin, however often the counter wraps: n accepted presses
      span at least n - 1 debounce intervals of true time. */
  lemma RateIsLimited(xs: seq<Arrival>, boot: nat, wrap: nat, interval: nat)
    requires wrap > 0 && InOrder(xs) && Noted(xs, boot, wrap, interval).1 != []
    ensures var acc := Noted(xs, boot, wrap, interval).1;
            acc[0].tested + (|acc| - 1) * interval <= acc[|acc| - 1].tested
  {
    AcceptedAreSpaced(xs, boot, wrap, interval);
    SpacedSpan(Noted(xs, boot, wrap, interval).1, interval);
  }

  /** Within one turn of the counter the test is exact: a press is accepted if and only if the
      interval has passed. */
  lemma TestIsExact(t: nat, last: nat, boot: nat, wrap: nat, interval: nat)
    requires wrap > 0 && last <= t < last + wrap
    ensures Passes(Reading(t, boot, wrap), Reading(last, boot, wrap), wrap, interval) <==> t - last >= interval
  {
    WrappingDiff(t, last, boot, wrap);
  }
}
