/** The adaptive rate controller over exact reals (src/rate_controller.cpp:10-65,
    src/rate_controller.hpp:17-46). */
module RateControl {
  import opened Types

  const WINDOW_SIZE: nat := 20
  const MIN_RATE: real := 50.0
  const MAX_RATE: real := 4000.0

  function Clamp(r: real): (c: real)
    ensures MIN_RATE <= c <= MAX_RATE
  {
    var upper := if r > MAX_RATE then MAX_RATE else r;
    if upper < MIN_RATE then MIN_RATE else upper
  }

  datatype Rate = Rate(current: real, smoothed: real, successes: nat, events: nat, window: seq<nat>)
  {
    predicate Valid() {
      && MIN_RATE <= current <= MAX_RATE && MIN_RATE <= smoothed <= MAX_RATE
      && successes <= 10 && |window| <= WINDOW_SIZE
    }

    function Adjusted(factor: real): Rate {
      var c := Clamp(current * factor);
      this.(current := c, smoothed := 0.7 * smoothed + 0.3 * c)
    }

    function Windowed(now: nat): seq<nat> {
      var w := window + [now];
      w[Max(0, |w| - WINDOW_SIZE)..]
    }

    function ChunkSent(now: nat): Rate {
      var r := this.(window := Windowed(now));
      if successes + 1 > 10 then r.Adjusted(1.1).(successes := 0) else r.(successes := successes + 1)
    }

    /** `recent`: the previous event is less than a second ago. */
    function Backpressure(recent: bool): Rate {
      this.(events := events + 1, successes := 0).Adjusted(if recent then 0.5 * 0.7 else 0.5)
    }

    function Reset(): Rate { Rate(MAX_RATE, MAX_RATE, 0, 0, []) }

    /** Microseconds, truncated. */
    function ChunkDelay(): int
      requires smoothed > 0.0
    {
      (1000.0 / smoothed * 1000.0).Floor
    }
  }

  /** The adjustment neither reads nor writes the run of successes. */
  lemma Commutes(r: Rate, n: nat)
    ensures r.(successes := n).Adjusted(1.1) == r.Adjusted(1.1).(successes := n)
    ensures forall m: nat :: r.(successes := m).Adjusted(1.1).(successes := n) == r.Adjusted(1.1).(successes := n)
  {
  }

  function Initial(): Rate { Rate(MAX_RATE, MAX_RATE, 0, 0, []) }

  // ---- the controller ------------------------------------------------------------------

  class AdaptiveRateController {
    var chunkSendTimes: seq<nat>
    var lastBackpressureMs: int
    var currentRate: real
    var smoothedRate: real
    var consecutiveSuccesses: nat
    var backpressureEvents: nat

    ghost function View(): Rate
      reads this
    {
      Rate(currentRate, smoothedRate, consecutiveSuccesses, backpressureEvents, chunkSendTimes)
    }

    constructor (nowMs: int)
      ensures View() == Initial() && lastBackpressureMs == nowMs - 10000
    {
      lastBackpressureMs := nowMs - 10000;
      chunkSendTimes, consecutiveSuccesses, backpressureEvents := [], 0, 0;
      currentRate, smoothedRate := MAX_RATE, MAX_RATE;
    }

    method AdjustRate(factor: real)
      modifies this`currentRate, this`smoothedRate
      ensures View() == old(View()).Adjusted(factor)
    {
      currentRate := currentRate * factor;
      currentRate := Clamp(currentRate);
      smoothedRate := 0.7 * smoothedRate + 0.3 * currentRate;
    }

    /** Append a send time and drop the oldest ones from the front. */
    method PushSendTime(now: nat)
      modifies this`chunkSendTimes
      ensures chunkSendTimes == old(View()).Windowed(now)
    {
      chunkSendTimes := chunkSendTimes + [now];
      ghost var all := chunkSendTimes;
      while |chunkSendTimes| > WINDOW_SIZE
        invariant |chunkSendTimes| <= |all| && chunkSendTimes == all[|all| - |chunkSendTimes|..]
        invariant |chunkSendTimes| >= Min(|all|, WINDOW_SIZE)
      {
        chunkSendTimes := chunkSendTimes[1..];
      }
    }

    method RecordChunkSent(now: nat)
      modifies this`chunkSendTimes, this`consecutiveSuccesses, this`currentRate, this`smoothedRate
      ensures View() == old(View()).ChunkSent(now)
    {
      hide Rate.Adjusted, Rate.Windowed;
      PushSendTime(now);
      consecutiveSuccesses := consecutiveSuccesses + 1;
      if consecutiveSuccesses > 10 {
        AdjustRate(1.1);
        consecutiveSuccesses := 0;
        Commutes(old(View()).(window := chunkSendTimes), consecutiveSuccesses);
      }
    }

    method RecordBackpressure(nowMs: int)
      modifies this
      ensures View() == old(View()).Backpressure(nowMs - old(lastBackpressureMs) < 1000)
      ensures lastBackpressureMs == nowMs
    {
      var since := nowMs - lastBackpressureMs;
      lastBackpressureMs := nowMs;
      backpressureEvents := backpressureEvents + 1;
      consecutiveSuccesses := 0;
      if since < 1000 { AdjustRate(0.5 * 0.7); } else { AdjustRate(0.5); }
    }

    method Reset()
      modifies this
      ensures View() == old(View()).Reset() && lastBackpressureMs == old(lastBackpressureMs)
    {
      chunkSendTimes := [];
      currentRate, smoothedRate := MAX_RATE, MAX_RATE;
      consecutiveSuccesses, backpressureEvents := 0, 0;
    }
  }

  // ---- runs ------------------------------------------------------------------------------

  datatype Event = Chunk(now: nat) | Pressure(recent: bool) | Restart

  function Step(r: Rate, e: Event): Rate {
    match e
    case Chunk(now) => r.ChunkSent(now)
    case Pressure(recent) => r.Backpressure(recent)
    case Restart => r.Reset()
  }

  function After(r: Rate, es: seq<Event>): Rate
    decreases |es|
  {
    if es == [] then r else After(Step(r, es[0]), es[1..])
  }

  lemma StepValid(r: Rate, e: Event)
    requires r.Valid()
    ensures Step(r, e).Valid()
  {
  }

  lemma {:induction false} RunValid(r: Rate, es: seq<Event>)
    requires r.Valid()
    ensures After(r, es).Valid()
    decreases |es|
  {
    hide Step, Rate.Valid;
    if es != [] {
      StepValid(r, es[0]);
      RunValid(Step(r, es[0]), es[1..]);
    }
  }

  lemma DelayBounds(s: real)
    requires 50.0 <= s <= 4000.0
    ensures 250.0 <= 1000.0 / s * 1000.0 <= 20000.0
  {
    var q := 1000.0 / s;
    assert q * s == 1000.0;
    if q < 0.25 { Less(q, 0.25, s); }
    if q > 20.0 { Less(20.0, q, s); }
  }

  lemma Less(a: real, b: real, s: real)
    requires a < b && s > 0.0
    ensures a * s < b * s
  {
  }

  /** After any events both rates are between 50 and 4000 chunks a second, the delay
      between 250 and 20000 microseconds, and at most 20 send times are kept. */
  lemma RatesStayInRange(es: seq<Event>)
    ensures var r := After(Initial(), es);
            && 50.0 <= r.current <= 4000.0 && 50.0 <= r.smoothed <= 4000.0
            && 250 <= r.ChunkDelay() <= 20000
            && |r.window| <= 20 && r.successes <= 10
  {
    RunValid(Initial(), es);
    DelayBounds(After(Initial(), es).smoothed);
  }

  // ---- recovery ------------------------------------------------------------------------------

  function Power(b: real, k: nat): real { if k == 0 then 1.0 else b * Power(b, k - 1) }

  lemma {:induction false} PowerSum(b: real, m: nat, n: nat)
    ensures Power(b, m + n) == Power(b, m) * Power(b, n)
  {
    if m > 0 { PowerSum(b, m - 1, n); }
  }

  lemma Product(a: real, b: real, x: real, y: real)
    requires 0.0 <= a <= x && 0.0 <= b <= y
    ensures a * b <= x * y
  {
    assert a * b <= x * b;
    assert x * b <= x * y;
  }

  /** Forty-six steps of ten percent are more than the factor 80 from 50 to 4000. */
  lemma TenPercent()
    ensures Power(1.1, 46) >= 80.0
  {
    assert Power(1.1, 2) == 1.21;
    AtLeast(2, 2, 1.21, 1.21, 1.4641);
    AtLeast(4, 4, 1.4641, 1.4641, 2.1435);
    AtLeast(8, 8, 2.1435, 2.1435, 4.5945);
    AtLeast(16, 16, 4.5945, 4.5945, 21.109);
    AtLeast(32, 8, 21.109, 2.1435, 45.24);
    AtLeast(40, 4, 45.24, 1.4641, 66.23);
    AtLeast(44, 2, 66.23, 1.21, 80.0);
  }

  lemma AtLeast(m: nat, n: nat, a: real, b: real, c: real)
    requires Power(1.1, m) >= a >= 0.0 && Power(1.1, n) >= b >= 0.0 && a * b >= c
    ensures Power(1.1, m + n) >= c
  {
    PowerSum(1.1, m, n);
    Product(a, b, Power(1.1, m), Power(1.1, n));
  }

  /** `k` increases in a row: what chunks without backpressure lead to. */
  function Increased(r: Rate, k: nat): Rate {
    if k == 0 then r else Increased(r, k - 1).Adjusted(1.1)
  }

  lemma {:induction false} IncreasedValid(r: Rate, k: nat)
    requires r.Valid()
    ensures Increased(r, k).Valid()
  {
    if k > 0 { IncreasedValid(r, k - 1); }
  }

  /** The target grows by ten percent each time until it reaches the maximum. */
  lemma {:induction false} TargetGrows(r: Rate, k: nat)
    requires r.Valid()
    ensures Increased(r, k).current >= (if 50.0 * Power(1.1, k) < 4000.0 then 50.0 * Power(1.1, k) else 4000.0)
  {
    if k > 0 {
      TargetGrows(r, k - 1);
      PowerPositive(k - 1);
    }
  }

  lemma {:induction false} PowerPositive(k: nat)
    ensures Power(1.1, k) >= 1.0
  {
    if k > 0 { PowerPositive(k - 1); }
  }

  /** How far the smoothed rate is from the maximum. */
  function Gap(r: Rate): real { 4000.0 - r.smoothed }

  /** From any reachable state the target is back at 4000 after 46 increases, and
      from then on each increase takes the smoothed rate's gap to 7/10. */
  lemma Recovers(es: seq<Event>, n: nat, k: nat)
    requires n >= 46
    ensures var r := After(Initial(), es);
            && Increased(r, n).current == 4000.0
            && Gap(Increased(r, n + k)) == Power(0.7, k) * Gap(Increased(r, n))
  {
    RunValid(Initial(), es);
    Reaches(After(Initial(), es), n);
    hide *;
    GapShrinks(After(Initial(), es), n, k);
  }

  lemma Reaches(r: Rate, n: nat)
    requires r.Valid() && n >= 46
    ensures Increased(r, n).current == 4000.0
  {
    PowerGrows(46, n);
    TenPercent();
    TargetGrows(r, n);
    IncreasedValid(r, n);
    hide Increased, Power;
  }

  lemma {:induction false} PowerGrows(m: nat, n: nat)
    requires m <= n
    ensures Power(1.1, m) <= Power(1.1, n)
    decreases n
  {
    if m < n {
      PowerGrows(m, n - 1);
      PowerPositive(n - 1);
    }
  }

  lemma Shrinks(r: Rate, k: nat)
    requires Increased(r, k).current == 4000.0
    ensures Gap(Increased(r, k + 1)) == 0.7 * Gap(Increased(r, k))
    ensures Increased(r, k + 1).current == 4000.0
  {
  }

  lemma {:induction false} GapShrinks(r: Rate, n: nat, k: nat)
    requires Increased(r, n).current == 4000.0
    ensures Gap(Increased(r, n + k)) == Power(0.7, k) * Gap(Increased(r, n))
    ensures Increased(r, n + k).current == 4000.0
  {
    hide Increased, Gap;
    if k > 0 {
      GapShrinks(r, n, k - 1);
      Shrinks(r, n + (k - 1));
      Times(0.7, Power(0.7, k - 1), Gap(Increased(r, n)));
    }
  }

  lemma Times(a: real, b: real, c: real)
    ensures a * (b * c) == (a * b) * c
  {
  }

  predicate AllChunks(es: seq<Event>) { forall i :: 0 <= i < |es| ==> es[i].Chunk? }

  /** Chunks without backpressure increase the rate at every eleventh success. */
  lemma {:induction false} ChunksIncrease(r: Rate, es: seq<Event>)
    requires r.Valid() && AllChunks(es)
    ensures var v := After(r, es);
            && v.current == Increased(r, (r.successes + |es|) / 11).current
            && v.smoothed == Increased(r, (r.successes + |es|) / 11).smoothed
    decreases |es|
  {
    if es != [] {
      var v := Step(r, es[0]);
      StepValid(r, es[0]);
      ChunksIncrease(v, es[1..]);
      if r.successes == 10 {
        SameRates(v, r.Adjusted(1.1), |es[1..]| / 11);
        IncreasedFirst(r, |es[1..]| / 11);
        assert (r.successes + |es|) / 11 == |es[1..]| / 11 + 1;
      } else {
        SameRates(v, r, (v.successes + |es[1..]|) / 11);
      }
    }
  }

  lemma {:induction false} SameRates(a: Rate, b: Rate, k: nat)
    requires a.current == b.current && a.smoothed == b.smoothed
    ensures Increased(a, k).current == Increased(b, k).current
    ensures Increased(a, k).smoothed == Increased(b, k).smoothed
  {
    if k > 0 { SameRates(a, b, k - 1); }
  }

  lemma {:induction false} IncreasedFirst(r: Rate, k: nat)
    ensures Increased(r.Adjusted(1.1), k) == Increased(r, k + 1)
  {
    if k > 0 { IncreasedFirst(r, k - 1); }
  }

  /** So 506 chunks in a row without backpressure bring the target back to 4000,
      whatever happened before. */
  lemma ChunksRecover(es: seq<Event>, chunks: seq<Event>)
    requires AllChunks(chunks) && |chunks| >= 506
    ensures After(After(Initial(), es), chunks).current == 4000.0
  {
    var r := After(Initial(), es);
    RunValid(Initial(), es);
    ChunksIncrease(r, chunks);
    Reaches(r, (r.successes + |chunks|) / 11);
  }

  // ---- the rates exactly -----------------------------------------------------------------------

  function Most(a: real, b: real): real { if a < b then b else a }

  function Least(a: real, b: real): real { if a < b then a else b }

  function Scaled(c: real, f: real): real { c * f }

  /** `k` increases in a row multiply the target by 1.1 to the power `k`, up to the maximum. */
  lemma {:induction false} IncreaseExactly(r: Rate, k: nat)
    requires r.Valid()
    ensures Increased(r, k).current == Least(4000.0, Scaled(r.current, Power(1.1, k)))
  {
    if k == 0 {
      assert Scaled(r.current, 1.0) == r.current;
    } else {
      IncreaseExactly(r, k - 1);
      PowerPositive(k - 1);
      IncreaseNext(r, k - 1);
      Capped(r.current, Power(1.1, k - 1));
      hide Scaled, Clamp, Least;
    }
  }

  lemma IncreaseNext(r: Rate, k: nat)
    ensures Increased(r, k + 1).current == Clamp(Scaled(1.1, Increased(r, k).current))
    ensures Power(1.1, k + 1) == Scaled(1.1, Power(1.1, k))
  {
  }

  lemma Capped(c: real, p: real)
    requires c >= 50.0 && p >= 1.0
    ensures Clamp(Scaled(1.1, Least(4000.0, Scaled(c, p)))) == Least(4000.0, Scaled(c, Scaled(1.1, p)))
  {
    Product(50.0, 1.0, c, p);
    Times(c, 1.1, p);
    assert c * (1.1 * p) == 1.1 * (c * p);
  }

  /** Backpressure events, each within a second of the one before or not. */
  function Pressures(recent: seq<bool>): (es: seq<Event>)
    ensures |es| == |recent|
  {
    seq(|recent|, i requires 0 <= i < |recent| => Pressure(recent[i]))
  }

  /** What they leave of the target: half of it each, or 35 percent. */
  function Share(recent: seq<bool>): (s: real)
    ensures 0.0 < s <= 1.0
  {
    if recent == [] then 1.0 else Cut(recent[0]) * Share(recent[1..])
  }

  lemma AtMostFifty(x: real, s: real)
    requires x <= 50.0 && 0.0 < s <= 1.0
    ensures x * s <= 50.0
  {
    AtMost(x, 50.0, s);
  }

  lemma FlooredTwice(x: real, s: real)
    requires 0.0 < s <= 1.0
    ensures Most(50.0, Scaled(Most(50.0, x), s)) == Most(50.0, Scaled(x, s))
  {
    if x < 50.0 {
      AtMostFifty(x, s);
      AtMostFifty(50.0, s);
    }
  }

  lemma Floored(c: real, f: real, s: real)
    requires 0.0 < s <= 1.0
    ensures Most(50.0, Scaled(Most(50.0, Scaled(c, f)), s)) == Most(50.0, Scaled(c, Scaled(f, s)))
  {
    Times(c, f, s);
    assert Scaled(c, Scaled(f, s)) == Scaled(Scaled(c, f), s);
    hide Scaled, Most;
    FlooredTwice(Scaled(c, f), s);
  }

  function Cut(recent: bool): real { if recent then 0.35 else 0.5 }

  lemma PressureOnce(r: Rate, recent: bool)
    requires r.Valid()
    ensures var v := Step(r, Pressure(recent));
            && v.Valid() && v.current == Most(50.0, Scaled(r.current, Cut(recent)))
            && v.events == r.events + 1 && v.successes == 0
  {
    StepValid(r, Pressure(recent));
  }

  lemma PressuresNext(r: Rate, recent: seq<bool>)
    ensures recent == [] ==> After(r, Pressures(recent)) == r && Share(recent) == 1.0
    ensures recent != [] ==>
              && After(r, Pressures(recent)) == After(Step(r, Pressure(recent[0])), Pressures(recent[1..]))
              && Share(recent) == Scaled(Cut(recent[0]), Share(recent[1..]))
  {
    hide Step;
    if recent != [] { assert Pressures(recent)[1..] == Pressures(recent[1..]); }
  }

  /** Any number of backpressure events in a row cut the target by these factors, down to
      the minimum, count as many events and end the run of successes. */
  lemma {:induction false} BackOffExactly(r: Rate, recent: seq<bool>)
    requires r.Valid()
    ensures var v := After(r, Pressures(recent));
            && v.current == Most(50.0, Scaled(r.current, Share(recent)))
            && v.events == r.events + |recent| && (recent != [] ==> v.successes == 0)
    decreases |recent|
  {
    PressuresNext(r, recent);
    if recent == [] {
      assert r.current >= 50.0 && Scaled(r.current, 1.0) == r.current;
    } else {
      var v := Step(r, Pressure(recent[0]));
      PressureOnce(r, recent[0]);
      BackOffExactly(v, recent[1..]);
      Floored(r.current, Cut(recent[0]), Share(recent[1..]));
      hide Step, Rate.Valid, After, Pressures, Share, Most, Cut, Scaled;
    }
  }

  /** Whatever changes the target takes the smoothed rate three tenths of the way to it. */
  lemma Smooths(r: Rate, e: Event)
    requires r.Valid() && !e.Restart?
    ensures var v := Step(r, e);
            if e.Pressure? || r.successes == 10
            then v.smoothed - v.current == 0.7 * (r.smoothed - v.current)
            else v.smoothed == r.smoothed && v.current == r.current
  {
  }

  /** The delay between two chunks is a million microseconds over the smoothed rate,
      rounded down. */
  lemma DelayExactly(r: Rate)
    requires r.smoothed > 0.0
    ensures var d := r.ChunkDelay() as real;
            d * r.smoothed <= 1000000.0 < (d + 1.0) * r.smoothed
  {
    var q := 1000.0 / r.smoothed;
    assert q * r.smoothed == 1000.0;
    var d := q * 1000.0;
    assert d * r.smoothed == 1000000.0;
    var n := r.ChunkDelay() as real;
    assert n <= d < n + 1.0;
    hide Rate.ChunkDelay;
    Under(n, d, r.smoothed, 1000000.0);
    Above(d, n + 1.0, r.smoothed, 1000000.0);
  }

  lemma Under(a: real, d: real, s: real, c: real)
    requires a <= d && s > 0.0 && d * s == c
    ensures a * s <= c
  {
    AtMost(a, d, s);
  }

  lemma Above(d: real, b: real, s: real, c: real)
    requires d < b && s > 0.0 && d * s == c
    ensures c < b * s
  {
    Less(d, b, s);
  }

  lemma AtMost(a: real, b: real, s: real)
    requires a <= b && s > 0.0
    ensures a * s <= b * s
  {
  }

  /** The send times since the last restart, and the backpressure events. */
  function SendTimes(before: seq<nat>, es: seq<Event>): seq<nat>
    decreases |es|
  {
    if es == [] then before
    else
      SendTimes(match es[0] { case Chunk(now) => before + [now] case Pressure(_) => before case Restart => [] },
                es[1..])
  }

  function Last(s: seq<nat>, n: nat): seq<nat> { if |s| <= n then s else s[|s| - n..] }

  lemma WindowStep(times: seq<nat>, r: Rate, e: Event)
    requires r.window == Last(times, 20)
    ensures Step(r, e).window ==
            Last(match e { case Chunk(now) => times + [now] case Pressure(_) => times case Restart => [] }, 20)
  {
  }

  lemma {:induction false} WindowFrom(times: seq<nat>, r: Rate, es: seq<Event>)
    requires r.window == Last(times, 20)
    ensures After(r, es).window == Last(SendTimes(times, es), 20)
    decreases |es|
  {
    hide Step, Last;
    if es != [] {
      WindowStep(times, r, es[0]);
      WindowFrom(match es[0] { case Chunk(now) => times + [now] case Pressure(_) => times case Restart => [] },
                 Step(r, es[0]), es[1..]);
    }
  }

  /** After any events the window holds the last twenty send times since the last restart. */
  lemma WindowExactly(es: seq<Event>)
    ensures After(Initial(), es).window == Last(SendTimes([], es), 20)
  {
    WindowFrom([], Initial(), es);
  }
}
