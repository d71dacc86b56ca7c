/** The capture watchdog (src/camera.cpp:318-322, 464-481, 706-761,
    src/camera_manager.cpp:153-164): the completion thread feeds it, the watchdog
    thread reads it, and neither waits for the other. Times are microseconds. */
module Watchdog {
  import opened Types

  const FLOOR_US: nat := 3_000_000
  const UNKNOWN_US: nat := 1_000_000

  datatype Watch = Watch(
    running: bool, lastFrame: nat, interval: nat, failed: bool,
    requested: int, aeAuto: bool, shutter: int)
  {
    function Started(now: nat): Watch {
      this.(running := true, lastFrame := now, interval := 0, failed := false)
    }

    /** The moving average after a frame that came `d` after the one before. */
    function Averaged(d: nat): nat { if interval == 0 then d else (interval * 3 + d) / 4 }

    function Expected(): nat {
      var e := interval;
      var f := if requested > 0 then Max(e, requested) else e;
      var g := if !aeAuto && shutter > 0 then Max(f, shutter) else f;
      if g == 0 then UNKNOWN_US else g
    }

    function Limit(): nat { Max(Expected() * 10, FLOOR_US) }

    /** `captureStalledForUs` with the frame time it loaded and the clock it read. */
    function StalledFor(last: nat, now: nat): nat {
      if !running || last == 0 || now <= last then 0
      else if now - last > Limit() then now - last else 0
    }
  }

  /** A silence counts exactly if it is longer than three seconds, than ten times
      the observed interval, than ten times the requested duration, than ten times a
      manual shutter, and than ten seconds if none of these is known. */
  lemma SilenceCounts(w: Watch, last: nat, now: nat)
    requires w.running && 0 < last <= now
    ensures w.StalledFor(last, now) > 0 <==>
              var silence := now - last;
              && silence > 3_000_000 && silence > 10 * w.interval
              && (w.requested > 0 ==> silence > 10 * w.requested)
              && (!w.aeAuto && w.shutter > 0 ==> silence > 10 * w.shutter)
              && (w.interval == 0 && w.requested <= 0 && (w.aeAuto || w.shutter <= 0) ==>
                    silence > 10_000_000)
    ensures w.StalledFor(last, now) > 0 ==> w.StalledFor(last, now) == now - last
  {
  }

  /** Once there is an average, each interval takes a quarter of the difference off it,
      rounded down: the average comes nearer and never passes the interval by. */
  lemma AverageApproaches(w: Watch, d: nat)
    requires w.interval > 0
    ensures var a := w.Averaged(d);
            && 4 * (a - d) <= 3 * (w.interval - d) < 4 * (a - d) + 4
            && (w.interval >= d ==> d <= a <= w.interval)
            && (w.interval < d ==> w.interval <= a < d)
  {
  }

  /** The average after `n` intervals of the same length. */
  function Steady(w: Watch, d: nat, n: nat): nat {
    if n == 0 then w.interval else w.(interval := Steady(w, d, n - 1)).Averaged(d)
  }

  /** A camera that turns slower is never taken for as slow as it is: its average stops
      below the new interval, for good. One that turns faster is, in time. */
  lemma {:induction false} SlowerIsUnderrated(w: Watch, d: nat, n: nat)
    requires w.interval > 0
    ensures w.interval < d ==> w.interval <= Steady(w, d, n) < d
    ensures w.interval >= d > 0 ==> d <= Steady(w, d, n) <= Max(d, w.interval - n)
    ensures Steady(w, d, n) > 0 || d == 0
  {
    if n > 0 {
      SlowerIsUnderrated(w, d, n - 1);
      if Steady(w, d, n - 1) > 0 { AverageApproaches(w.(interval := Steady(w, d, n - 1)), d); }
      hide Watch.Averaged;
    }
  }

  // ---- the fields of the camera ---------------------------------------------------------

  class CaptureWatch {
    var running: bool
    var lastFrameWallUs: nat
    var observedIntervalUs: nat
    var captureFailed: bool
    var frameDurationUs: int
    var aeAuto: bool
    var exposureTimeUs: int

    ghost function View(): Watch
      reads this
    {
      Watch(running, lastFrameWallUs, observedIntervalUs, captureFailed, frameDurationUs, aeAuto,
            exposureTimeUs)
    }

    constructor ()
      ensures View() == Watch(false, 0, 0, false, 0, true, 0)
    {
      running, lastFrameWallUs, observedIntervalUs, captureFailed := false, 0, 0, false;
      frameDurationUs, aeAuto, exposureTimeUs := 0, true, 0;
    }

    method Arm(now: nat)
      modifies this
      ensures View() == old(View()).Started(now)
    {
      lastFrameWallUs := now;
      observedIntervalUs := 0;
      captureFailed := false;
      running := true;
    }

    /** A frame, without another thread in between: its time is the newest, the latch is
        clear, and a quarter of what the average was off the new interval is taken off. */
    method OnFrame(now: nat)
      modifies this
      ensures lastFrameWallUs == now && !captureFailed
      ensures var d := now - old(lastFrameWallUs);
              if old(lastFrameWallUs) == 0 || d <= 0 then observedIntervalUs == old(observedIntervalUs)
              else if old(observedIntervalUs) == 0 then observedIntervalUs == d
              else 4 * (observedIntervalUs - d) <= 3 * (old(observedIntervalUs) - d)
                                                < 4 * (observedIntervalUs - d) + 4
      ensures var w := old(View());
              View() == w.(lastFrame := now, failed := false,
                           interval := if w.lastFrame > 0 && now > w.lastFrame
                                       then w.Averaged(now - w.lastFrame) else w.interval)
    {
      var previous := lastFrameWallUs;
      lastFrameWallUs := now;
      captureFailed := false;
      if previous > 0 && now > previous {
        var interval := now - previous;
        var ema := observedIntervalUs;
        observedIntervalUs := if ema == 0 then interval else (ema * 3 + interval) / 4;
      }
    }

    method CaptureStalledForUs(now: nat) returns (us: nat)
      ensures us == View().StalledFor(lastFrameWallUs, now)
    {
      if !running { return 0; }
      var last := lastFrameWallUs;
      if last == 0 { return 0; }
      if now <= last { return 0; }
      var elapsed := now - last;
      var expected := observedIntervalUs;
      if frameDurationUs > 0 { expected := Max(expected, frameDurationUs); }
      if !aeAuto {
        if exposureTimeUs > 0 { expected := Max(expected, exposureTimeUs); }
      }
      if expected == 0 { expected := UNKNOWN_US; }
      var limit := Max(expected * 10, FLOOR_US);
      return if elapsed > limit then elapsed else 0;
    }

    method MarkCaptureFailed() returns (first: bool)
      modifies this`captureFailed
      ensures first == !old(captureFailed) && captureFailed
    {
      first := !captureFailed;
      captureFailed := true;
    }
  }

  // ---- two threads ------------------------------------------------------------------------

  /** The completion thread between the exchange of the time stamp, the clearing of
      the latch and the update of the average. */
  datatype Arrival = Quiet | Exchanged(previous: nat, now: nat) | Cleared(previous: nat, now: nat)

  /** The check between its atomic reads: the time stamp, the clock, then the interval,
      the duration, the exposure mode and the shutter; `seen` holds what it has read,
      `left` how many reads are to come. */
  datatype Dog =
    | Resting
    | Loaded(last: nat)
    | Weighing(last: nat, now: nat, seen: Watch, left: nat)
    | Suspects(elapsed: nat)

  /** The next field the check reads. */
  function Look(seen: Watch, w: Watch, left: nat): Watch {
    if left == 4 then seen.(interval := w.interval)
    else if left == 3 then seen.(requested := w.requested)
    else if left == 2 then seen.(aeAuto := w.aeAuto)
    else seen.(shutter := w.shutter)
  }

  datatype Mark = Restarted | Delivered | Reported

  /** `log` is the life of the latch, `gaps` the intervals measured since the start. */
  datatype World = World(watch: Watch, clock: nat, arrival: Arrival, dog: Dog, log: seq<Mark>, gaps: seq<nat>)

  datatype Action =
    | Tick(elapsed: nat) | Start | Stop | SetDuration(us: int) | SetShutter(isAuto: bool, shutter: int)
    | Arrive | ClearLatch | Measure | Load | ReadClock | ReadLimit | Judge | MarkFailed

  predicate Enabled(w: World, a: Action) {
    match a
    case Tick(_) | SetDuration(_) | SetShutter(_, _) => true
    case Start => !w.watch.running && w.arrival.Quiet? && w.dog.Resting?
    case Stop => w.watch.running && w.arrival.Quiet? && w.dog.Resting?
    case Arrive => w.watch.running && w.arrival.Quiet?
    case ClearLatch => w.arrival.Exchanged?
    case Measure => w.arrival.Cleared?
    case Load => w.watch.running && w.dog.Resting?
    case ReadClock => w.dog.Loaded?
    case ReadLimit => w.dog.Weighing? && w.dog.left > 0
    case Judge => w.dog.Weighing? && w.dog.left == 0
    case MarkFailed => w.dog.Suspects?
  }

  function Step(w: World, a: Action): World
    requires Enabled(w, a)
  {
    match a
    case Tick(us) => w.(clock := w.clock + us)
    case Start => w.(watch := w.watch.Started(w.clock), log := w.log + [Restarted], gaps := [])
    case Stop => w.(watch := w.watch.(running := false))
    case SetDuration(us) => w.(watch := w.watch.(requested := us))
    case SetShutter(isAuto, us) => w.(watch := w.watch.(aeAuto := isAuto, shutter := us))
    case Arrive =>
      w.(arrival := Exchanged(w.watch.lastFrame, w.clock), watch := w.watch.(lastFrame := w.clock))
    case ClearLatch =>
      w.(arrival := Cleared(w.arrival.previous, w.arrival.now),
         watch := w.watch.(failed := false), log := w.log + [Delivered])
    case Measure =>
      var (p, n) := (w.arrival.previous, w.arrival.now);
      if p > 0 && n > p
      then w.(arrival := Quiet, watch := w.watch.(interval := w.watch.Averaged(n - p)),
              gaps := w.gaps + [n - p])
      else w.(arrival := Quiet)
    case Load => w.(dog := Loaded(w.watch.lastFrame))
    case ReadClock => w.(dog := Weighing(w.dog.last, w.clock, w.watch, 4))
    case ReadLimit =>
      w.(dog := Weighing(w.dog.last, w.dog.now, Look(w.dog.seen, w.watch, w.dog.left), w.dog.left - 1))
    case Judge =>
      var e := w.dog.seen.StalledFor(w.dog.last, w.dog.now);
      w.(dog := if e == 0 then Resting else Suspects(e))
    case MarkFailed =>
      if w.watch.failed then w.(dog := Resting)
      else w.(dog := Resting, watch := w.watch.(failed := true), log := w.log + [Reported])
  }

  predicate IsRun(w: World, acts: seq<Action>)
    decreases |acts|
  {
    acts == [] || (Enabled(w, acts[0]) && IsRun(Step(w, acts[0]), acts[1..]))
  }

  function After(w: World, acts: seq<Action>): World
    requires IsRun(w, acts)
    decreases |acts|
  {
    if acts == [] then w else After(Step(w, acts[0]), acts[1..])
  }

  function Init(): World {
    World(Watch(false, 0, 0, false, 0, true, 0), 0, Quiet, Resting, [], [])
  }

  // ---- the invariant ----------------------------------------------------------------------

  predicate Within(s: seq<nat>, lo: nat, hi: nat) { forall i :: 0 <= i < |s| ==> lo <= s[i] <= hi }

  /** The latch is set exactly if the last thing in its life was a report, and no
      report follows a report. */
  predicate LatchOk(w: World) {
    && (w.watch.failed <==> w.log != [] && w.log[|w.log| - 1].Reported?)
    && forall i :: 0 < i < |w.log| && w.log[i].Reported? ==> !w.log[i - 1].Reported?
  }

  ghost predicate AverageOk(w: World) {
    && (w.gaps == [] <==> w.watch.interval == 0)
    && (forall i :: 0 <= i < |w.gaps| ==> w.gaps[i] > 0)
    && forall lo: nat, hi: nat :: w.gaps != [] && Within(w.gaps, lo, hi) ==> lo <= w.watch.interval <= hi
  }

  ghost predicate TimesOk(w: World) {
    && w.watch.lastFrame <= w.clock
    && (w.dog.Loaded? || w.dog.Weighing? ==> w.dog.last <= w.watch.lastFrame)
    && (w.dog.Weighing? ==> w.dog.now <= w.clock)
  }

  ghost predicate Inv(w: World) { LatchOk(w) && AverageOk(w) && TimesOk(w) }

  lemma MeasureKeeps(w: World)
    requires AverageOk(w) && Enabled(w, Measure)
    ensures AverageOk(Step(w, Measure))
  {
    var v := Step(w, Measure);
    if v.gaps != w.gaps {
      var d := v.gaps[|v.gaps| - 1];
      forall lo: nat, hi: nat | Within(v.gaps, lo, hi) ensures lo <= v.watch.interval <= hi {
        assert lo <= v.gaps[|w.gaps|] <= hi;
        assert forall i :: 0 <= i < |w.gaps| ==> w.gaps[i] == v.gaps[i];
        assert Within(w.gaps, lo, hi);
      }
      if w.gaps != [] { Least(w); }
    }
  }

  lemma Least(w: World)
    requires AverageOk(w) && w.gaps != []
    ensures w.watch.interval >= 1
  {
  }

  lemma StepKeeps(w: World, a: Action)
    requires Inv(w) && Enabled(w, a)
    ensures Inv(Step(w, a))
  {
    if a.Measure? { MeasureKeeps(w); }
  }

  lemma {:induction false} RunKeeps(w: World, acts: seq<Action>)
    requires Inv(w) && IsRun(w, acts)
    ensures Inv(After(w, acts))
    decreases |acts|
  {
    hide Inv, Step, Enabled;
    if acts != [] {
      StepKeeps(w, acts[0]);
      RunKeeps(Step(w, acts[0]), acts[1..]);
    }
  }

  lemma InitHolds()
    ensures Inv(Init())
  {
  }

  /** Between two reports of a camera a frame was delivered or capture was
      restarted, in every interleaving of the two threads. */
  lemma OneReportPerEpisode(acts: seq<Action>, i: nat, j: nat)
    requires IsRun(Init(), acts)
    requires i < j < |After(Init(), acts).log|
    requires After(Init(), acts).log[i].Reported? && After(Init(), acts).log[j].Reported?
    ensures exists k :: i < k < j && !After(Init(), acts).log[k].Reported?
  {
    InitHolds();
    RunKeeps(Init(), acts);
    var log := After(Init(), acts).log;
    assert !log[j - 1].Reported?;
  }

  /** Since the last start the average lies between the smallest and the largest
      interval measured; it is 0 exactly until the first one. */
  lemma AverageWithinGaps(acts: seq<Action>, lo: nat, hi: nat)
    requires IsRun(Init(), acts) && Within(After(Init(), acts).gaps, lo, hi)
    ensures var w := After(Init(), acts);
            && (w.gaps == [] <==> w.watch.interval == 0)
            && (w.gaps != [] ==> lo <= w.watch.interval <= hi)
  {
    InitHolds();
    RunKeeps(Init(), acts);
  }

  /** A camera becomes a suspect only if the frame that was its newest when the
      check began was longer ago, when the check read the clock, than each limit it
      read after that. */
  lemma SuspectsWereSilent(acts: seq<Action>)
    requires IsRun(Init(), acts) && Enabled(After(Init(), acts), Judge)
    ensures var w := After(Init(), acts); var v := Step(w, Judge);
            && w.dog.last <= w.watch.lastFrame && w.dog.now <= w.clock
            && (v.dog.Suspects? ==>
                  && v.dog.elapsed == w.dog.now - w.dog.last
                  && v.dog.elapsed > 3_000_000
                  && v.dog.elapsed > 10 * w.dog.seen.interval
                  && v.dog.elapsed > 10 * w.dog.seen.requested
                  && (!w.dog.seen.aeAuto ==> v.dog.elapsed > 10 * w.dog.seen.shutter))
  {
    InitHolds();
    RunKeeps(Init(), acts);
  }

  // ---- a frame between the load and the judgement -------------------------------------------

  /** A check under way: everything but a second load or judgement. */
  predicate Meanwhile(acts: seq<Action>) { forall i :: 0 <= i < |acts| ==> !acts[i].Load? && !acts[i].Judge? }

  /** A frame arrives in step `i` of `acts`, at most `limit` before their end. */
  predicate ArrivesLate(w: World, acts: seq<Action>, i: nat, limit: nat)
    requires IsRun(w, acts)
  {
    && i < |acts| && acts[i].Arrive?
    && IsRun(w, acts[..i]) && After(w, acts).clock - After(w, acts[..i]).clock <= limit
  }

  /** The check has loaded the time stamp `last` and not judged yet. */
  predicate Checking(w: World, last: nat) {
    && (w.dog.Loaded? || w.dog.Weighing?) && w.dog.last == last
    && w.watch.running && w.watch.lastFrame <= w.clock
    && (w.dog.Weighing? ==> w.dog.now <= w.clock && w.dog.seen.running)
  }

  /** While a check is under way the time it loaded and the running flag stay, and
      the newest frame's time is that of the last arrival, if there was one. */
  lemma {:induction false} CheckUnderWay(w: World, acts: seq<Action>, last: nat)
    requires Checking(w, last) && IsRun(w, acts) && Meanwhile(acts)
    ensures var u := After(w, acts);
            Checking(u, last) && w.clock <= u.clock && w.watch.lastFrame <= u.watch.lastFrame
    decreases |acts|
  {
    hide Enabled, Step, Checking;
    if acts != [] {
      UnderWayStep(w, acts[0], last);
      CheckUnderWay(Step(w, acts[0]), acts[1..], last);
    }
  }

  lemma UnderWayStep(w: World, a: Action, last: nat)
    requires Checking(w, last) && Enabled(w, a) && !a.Load? && !a.Judge?
    ensures var v := Step(w, a);
            && Checking(v, last) && w.clock <= v.clock && w.watch.lastFrame <= v.watch.lastFrame
            && v.watch.lastFrame == (if a.Arrive? then w.clock else w.watch.lastFrame)
  {
  }

  lemma {:induction false} Prefixes(w: World, acts: seq<Action>, i: nat)
    requires IsRun(w, acts) && i <= |acts|
    ensures IsRun(w, acts[..i]) && IsRun(After(w, acts[..i]), acts[i..])
    ensures After(After(w, acts[..i]), acts[i..]) == After(w, acts)
    decreases i
  {
    hide Enabled, Step;
    if i == 0 {
      assert acts[..0] == [] && acts[0..] == acts;
    } else {
      assert acts[..i][1..] == acts[1..][..i - 1] && acts[i..] == acts[1..][i - 1..];
      Prefixes(Step(w, acts[0]), acts[1..], i - 1);
    }
  }

  /** The newest frame is as new as any that arrived. */
  lemma ArrivalCounts(w: World, acts: seq<Action>, i: nat, last: nat)
    requires Checking(w, last)
    requires IsRun(w, acts) && Meanwhile(acts) && i < |acts| && acts[i].Arrive?
    ensures IsRun(w, acts[..i]) && After(w, acts[..i]).clock <= After(w, acts).watch.lastFrame
  {
    hide Enabled, Step, Checking;
    Prefixes(w, acts, i);
    CheckUnderWay(w, acts[..i], last);
    var u := After(w, acts[..i]);
    UnderWayStep(u, acts[i..][0], last);
    assert acts[i..][1..] == acts[i + 1..];
    CheckUnderWay(Step(u, acts[i]), acts[i + 1..], last);
  }

  /** The newest frame is one that arrived, or still the one that was loaded. */
  lemma {:induction false} NewestArrived(w: World, acts: seq<Action>, last: nat) returns (i: nat)
    requires Checking(w, last) && IsRun(w, acts) && Meanwhile(acts)
    ensures i <= |acts|
    ensures i < |acts| ==>
              && acts[i].Arrive? && IsRun(w, acts[..i])
              && After(w, acts[..i]).clock == After(w, acts).watch.lastFrame
    ensures i == |acts| ==> After(w, acts).watch.lastFrame == w.watch.lastFrame
    decreases |acts|
  {
    hide Enabled, Step, Checking;
    i := 0;
    if acts != [] {
      UnderWayStep(w, acts[0], last);
      var v := Step(w, acts[0]);
      var j := NewestArrived(v, acts[1..], last);
      if j < |acts[1..]| || !acts[0].Arrive? {
        i := j + 1;
        assert i < |acts| ==> acts[..i][1..] == acts[1..][..j];
      } else {
        assert acts[..0] == [];
      }
    }
  }

  /** A check may suspect a camera that is within the limit it read: that happens if
      and only if the silence up to the frame loaded is too long and a frame that
      arrived between the load and the judgement is not longer ago than that limit. */
  lemma WrongSuspicionExactly(w: World, acts: seq<Action>)
    requires Inv(w) && w.dog.Loaded? && w.dog.last == w.watch.lastFrame && w.watch.running
    requires IsRun(w, acts) && Meanwhile(acts) && Enabled(After(w, acts), Judge)
    ensures var u := After(w, acts); var seen := u.dog.seen;
            Step(u, Judge).dog.Suspects? && seen.StalledFor(u.watch.lastFrame, u.clock) == 0 <==>
              && seen.StalledFor(w.watch.lastFrame, u.dog.now) > 0
              && exists i: nat :: ArrivesLate(w, acts, i, seen.Limit())
  {
    var u := After(w, acts);
    var last := w.dog.last;
    CheckUnderWay(w, acts, last);
    var i := NewestArrived(w, acts, last);
    forall j: nat | ArrivesLate(w, acts, j, u.dog.seen.Limit())
      ensures u.clock - u.watch.lastFrame <= u.dog.seen.Limit()
    {
      ArrivalCounts(w, acts, j, last);
    }
    hide IsRun, After, Inv, Watch.Expected;
    if i < |acts| && u.clock - u.watch.lastFrame <= u.dog.seen.Limit() {
      assert ArrivesLate(w, acts, i, u.dog.seen.Limit());
    }
  }

  /** It does happen: the frame comes at the last moment, the report goes out. */
  lemma WrongReport() returns (acts: seq<Action>)
    ensures IsRun(Init(), acts)
    ensures var w := After(Init(), acts);
            && w.watch.running && w.watch.failed && w.log == [Restarted, Reported]
            && w.watch.StalledFor(w.watch.lastFrame, w.clock) == 0
  {
    var limits := [ReadClock, ReadLimit, ReadLimit, ReadLimit, ReadLimit];
    acts := [Tick(1), Start, Load, Tick(10_000_001)] + (limits + [Arrive, Judge, MarkFailed]);
    var w1 := After4(Init(), Tick(1), Start, Load, Tick(10_000_001), limits + [Arrive, Judge, MarkFailed]);
    assert limits + [Arrive, Judge, MarkFailed]
        == [ReadClock, ReadLimit, ReadLimit, ReadLimit] + ([ReadLimit, Arrive, Judge, MarkFailed] + []);
    var w2 := After4(w1, ReadClock, ReadLimit, ReadLimit, ReadLimit, [ReadLimit, Arrive, Judge, MarkFailed] + []);
    var w3 := After4(w2, ReadLimit, Arrive, Judge, MarkFailed, []);
  }

  /** Four steps in front of others. */
  lemma After4(w: World, a: Action, b: Action, c: Action, d: Action, rest: seq<Action>) returns (v: World)
    requires Enabled(w, a) && Enabled(Step(w, a), b) && Enabled(Step(Step(w, a), b), c)
    requires Enabled(Step(Step(Step(w, a), b), c), d)
    ensures v == Step(Step(Step(Step(w, a), b), c), d)
    ensures IsRun(v, rest) ==>
              IsRun(w, [a, b, c, d] + rest) && After(w, [a, b, c, d] + rest) == After(v, rest)
  {
    hide Step, Enabled;
    var w1, w2, w3 := Step(w, a), Step(Step(w, a), b), Step(Step(Step(w, a), b), c);
    v := Step(w3, d);
    if IsRun(v, rest) {
      var all := [a, b, c, d] + rest;
      assert all[1..] == [b, c, d] + rest && all[1..][1..] == [c, d] + rest;
      assert all[1..][1..][1..] == [d] + rest && all[1..][1..][1..][1..] == rest;
      Front(w3, all[1..][1..][1..]);
      Front(w2, all[1..][1..]);
      Front(w1, all[1..]);
      Front(w, all);
    }
  }

  lemma Front(w: World, acts: seq<Action>)
    requires acts != [] && Enabled(w, acts[0]) && IsRun(Step(w, acts[0]), acts[1..])
    ensures IsRun(w, acts) && After(w, acts) == After(Step(w, acts[0]), acts[1..])
  {
  }
}
