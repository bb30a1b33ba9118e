/** The hello announcement timer: drawn at random after every successful send and
    looked at once a second by the probe. Times are in nanoseconds. */
module Hello {
  import opened Bytes

  const SECOND: int := 1_000_000_000
  const BASE_INTERVAL: int := 2_500_000_000
  const JITTER_INTERVAL: int := 2_500_000_000
  const INT64_MAX: int := 0x7FFF_FFFF_FFFF_FFFF

  /** Two random bytes, or a random source that failed. */
  datatype Draw = Drawn(hi: byte, lo: byte) | Unavailable

  function Interval(d: Draw): int {
    match d
    case Unavailable => BASE_INTERVAL + JITTER_INTERVAL / 2
    case Drawn(hi, lo) => BASE_INTERVAL + (0x100 * hi + lo as int) * JITTER_INTERVAL / 65536
  }

  /** Every draw lies in [2.5s, 5s), and the product it is computed from fits the
      64-bit duration it is computed in. */
  lemma IntervalBounds(d: Draw)
    ensures BASE_INTERVAL <= Interval(d) < 2 * BASE_INTERVAL
    ensures d.Drawn? ==> 0 <= (0x100 * d.hi + d.lo as int) * JITTER_INTERVAL <= INT64_MAX
  {
  }

  /** The draw as a fraction of 65536, its first byte the high one, spreads evenly over the
      2.5s above the base, so that a later draw is a longer wait; without one the wait is
      3.75s. */
  lemma IntervalSpreads(d: Draw, e: Draw)
    ensures d.Drawn? ==> var k := 0x100 * d.hi + d.lo;
              0 <= 2_500_000_000 * (0x1_0000 + k) - 0x1_0000 * Interval(d) < 0x1_0000
    ensures d == Drawn(0, 0) ==> Interval(d) == 2_500_000_000
    ensures d == Unavailable ==> Interval(d) == 3_750_000_000
    ensures d.Drawn? && e.Drawn? && (d.hi < e.hi || (d.hi == e.hi && d.lo < e.lo)) ==> Interval(d) < Interval(e)
  {
    if d.Drawn? {
      var k := (0x100 * d.hi + d.lo) * 2_500_000_000;
      assert k == k / 65536 * 65536 + k % 65536;
    }
    if e.Drawn? {
      var k := (0x100 * e.hi + e.lo) * 2_500_000_000;
      assert k == k / 65536 * 65536 + k % 65536;
    }
  }

  /** What one tick of the probe finds: whether the client was told to close before
      it, how a send attempted on it fares, and the bytes drawn if it succeeds. */
  datatype Tick = Tick(close: bool, sent: bool, draw: Draw)

  datatype Outcome = Stopped | Idle | Failed | Sent

  datatype Timer = Timer(last: int, interval: int, closing: bool) {
    predicate Due(now: int) { !closing && now - last >= interval }

    function OnTick(now: int, tick: Tick): (Timer, Outcome) {
      var t := if tick.close then this.(closing := true) else this;
      if t.closing then (t, Stopped)
      else if !t.Due(now) then (t, Idle)
      else if !tick.sent then (t, Failed)
      else (t.(last := now, interval := Interval(tick.draw)), Sent)
    }
  }

  function TickTime(start: int, k: nat): int { start + k * SECOND }

  /** The timer before tick k. */
  function Before(t: Timer, start: int, ticks: seq<Tick>, k: nat): Timer
    requires k <= |ticks|
  {
    if k == 0 then t else Before(t, start, ticks, k - 1).OnTick(TickTime(start, k - 1), ticks[k - 1]).0
  }

  function OutcomeOf(t: Timer, start: int, ticks: seq<Tick>, k: nat): Outcome
    requires k < |ticks|
  {
    Before(t, start, ticks, k).OnTick(TickTime(start, k), ticks[k]).1
  }

  /** The fields the probe reads and txHello re-arms under the lock. */
  class HelloTimer {
    var lastHello: int
    var helloInterval: int
    var closing: bool

    function State(): Timer
      reads this
    {
      Timer(lastHello, helloInterval, closing)
    }

    constructor (draw: Draw)
      ensures State() == Timer(0, Interval(draw), false)
    {
      lastHello, helloInterval, closing := 0, Interval(draw), false;
    }

    /** Re-arms only once the frame is away. */
    method TxHello(now: int, sent: bool, draw: Draw)
      modifies this
      ensures State() == if sent then Timer(now, Interval(draw), old(closing)) else old(State())
    {
      if !sent {
        return;
      }
      lastHello := now;
      helloInterval := Interval(draw);
    }

    method ProbeTick(now: int, tick: Tick) returns (o: Outcome)
      modifies this
      ensures (State(), o) == old(State()).OnTick(now, tick)
    {
      if tick.close {
        closing := true;
      }
      if closing {
        return Stopped;
      }
      var due := !closing && now - lastHello >= helloInterval;
      if !due {
        return Idle;
      }
      TxHello(now, tick.sent, tick.draw);
      o := if tick.sent then Sent else Failed;
    }

    method Probe(start: int, ticks: seq<Tick>) returns (os: seq<Outcome>)
      modifies this
      ensures |os| == |ticks|
      ensures forall k :: 0 <= k < |os| ==> os[k] == OutcomeOf(old(State()), start, ticks, k)
    {
      os := [];
      for k := 0 to |ticks|
        invariant |os| == k && State() == Before(old(State()), start, ticks, k)
        invariant forall i :: 0 <= i < k ==> os[i] == OutcomeOf(old(State()), start, ticks, i)
      {
        var o := ProbeTick(TickTime(start, k), ticks[k]);
        os := os + [o];
      }
    }
  }

  /** A draw rounded up to whole ticks. */
  function Ticks(d: Draw): nat
    ensures 3 <= Ticks(d) <= 5
  {
    IntervalBounds(d);
    (Interval(d) + SECOND - 1) / SECOND
  }

  lemma {:induction false} HeldSince(t: Timer, start: int, ticks: seq<Tick>, i: nat, k: nat)
    requires i < k <= |ticks|
    requires OutcomeOf(t, start, ticks, i) == Sent
    requires forall m :: i < m < k ==> OutcomeOf(t, start, ticks, m) != Sent
    ensures var b := Before(t, start, ticks, k);
            b.last == TickTime(start, i) && b.interval == Interval(ticks[i].draw)
  {
    if k > i + 1 {
      HeldSince(t, start, ticks, i, k - 1);
      assert OutcomeOf(t, start, ticks, k - 1) != Sent;
    }
  }

  /** After a successful announcement at tick i the next attempt comes exactly 3, 4
      or 5 ticks later, and an attempt that fails is repeated on every tick until one
      succeeds or the client closes. Tick k is any later one before the next success,
      or that success itself. */
  lemma Cadence(t: Timer, start: int, ticks: seq<Tick>, i: nat, k: nat)
    requires i < k < |ticks|
    requires OutcomeOf(t, start, ticks, i) == Sent
    requires forall m :: i < m < k ==> OutcomeOf(t, start, ticks, m) != Sent
    ensures var o := OutcomeOf(t, start, ticks, k);
            o == Stopped || (if k - i < Ticks(ticks[i].draw) then o == Idle
                             else o == if ticks[k].sent then Sent else Failed)
  {
    HeldSince(t, start, ticks, i, k);
  }

  /** So two consecutive announcements are at least as far apart as the draw rounded
      up, which is 3, 4 or 5 ticks, and exactly that far apart precisely when the
      first attempt was not one that failed. */
  lemma ConsecutiveAnnouncements(t: Timer, start: int, ticks: seq<Tick>, i: nat, j: nat)
    requires i < j < |ticks|
    requires OutcomeOf(t, start, ticks, i) == Sent && OutcomeOf(t, start, ticks, j) == Sent
    requires forall m :: i < m < j ==> OutcomeOf(t, start, ticks, m) != Sent
    ensures var gap := Ticks(ticks[i].draw);
            && 3 <= gap <= 5 && j - i >= gap
            && (forall m :: i < m < i + gap ==> OutcomeOf(t, start, ticks, m) == Idle)
            && (forall m :: i + gap <= m < j ==> OutcomeOf(t, start, ticks, m) == Failed && !ticks[m].sent)
            && (j - i == gap <==> ticks[i + gap].sent)
  {
    Cadence(t, start, ticks, i, j);
    forall m | i < m < j
      ensures OutcomeOf(t, start, ticks, m)
           == if m - i < Ticks(ticks[i].draw) then Idle else Failed
    {
      Cadence(t, start, ticks, i, m);
      if OutcomeOf(t, start, ticks, m) == Stopped {
        StaysStopped(t, start, ticks, m, j);
      }
    }
  }

  lemma {:induction false} StaysStopped(t: Timer, start: int, ticks: seq<Tick>, m: nat, k: nat)
    requires m < k < |ticks| && OutcomeOf(t, start, ticks, m) == Stopped
    ensures OutcomeOf(t, start, ticks, k) == Stopped && Before(t, start, ticks, k).closing
  {
    if k > m + 1 {
      StaysStopped(t, start, ticks, m, k - 1);
    }
  }
}
