/** In which order triggers are acknowledged (src/frame_processor.cpp:376-458): the
    slot of the pending trigger is free again before its callback runs, so the next
    one can be armed and completed in between. */
module TriggerOrder {
  import opened Types
  import opened Sums
  import M = ProcessorMemory
  import P = Pipeline
  import T = Triggers
  import TS = TriggerSafety
  import TT = TriggerTheorems
  import opened TriggerPool

  /** Results are delivered in the order in which their triggers were armed. */
  ghost predicate InOrder(w: T.World) {
    forall i, j :: 0 <= i < j < |w.fired| ==> w.fired[i].0 < w.fired[j].0
  }

  /** None is left out either. */
  ghost predicate Counted(w: T.World) { forall i :: 0 <= i < |w.fired| ==> w.fired[i].0 == i }

  predicate Carries(h: T.Hand) { TS.CarriesResult(h).Some? }

  predicate NoneCarries(w: T.World) { forall t :: 0 <= t < |w.threads| ==> !Carries(w.threads[t]) }

  // ---- what has been delivered so far ------------------------------------------------------

  lemma {:induction false} FiredOnce(fired: seq<(nat, T.TriggerResult)>, s: nat)
    requires Sum(TS.FiredAt(fired, s)) > 0
    ensures exists i :: 0 <= i < |fired| && fired[i].0 == s
  {
    if forall i :: 0 <= i < |fired| ==> fired[i].0 != s {
      SumZero(TS.FiredAt(fired, s));
    }
  }

  lemma FiredCounts(fired: seq<(nat, T.TriggerResult)>, i: nat)
    requires i < |fired|
    ensures Sum(TS.FiredAt(fired, fired[i].0)) >= 1
  {
    var s := TS.FiredAt(fired, fired[i].0);
    SumUpdate(s, i, 0);
  }

  lemma HandCounts(w: T.World, t: nat)
    requires t < |w.threads| && Carries(w.threads[t])
    ensures Sum(TS.HandsAt(w.threads, TS.CarriesResult(w.threads[t]).value.0)) >= 1
  {
    var s := TS.HandsAt(w.threads, TS.CarriesResult(w.threads[t]).value.0);
    SumUpdate(s, t, 0);
  }

  /** A trigger that is delivered, carried or pending is only that. */
  lemma OnlyPlace(w: T.World, s: nat)
    requires TS.Inv(w)
    ensures TS.Places(w, s) == if s < |w.armed| then 1 else 0
  {
    hide TS.Ids, TS.Content, TS.Places;
  }

  /** When no hand carries a result, the pending trigger is the next to be delivered. */
  lemma PendingIsNext(w: T.World)
    requires TS.Inv(w) && Counted(w) && NoneCarries(w) && w.mem.pending.Some?
    ensures |w.fired| + 1 == |w.armed|
  {
    assert TS.PendingContent(w);
    hide TS.Inv, TS.PendingContent;
    var s, n: nat := |w.fired|, |w.armed| - 1;
    OnlyPlace(w, s);
    OnlyPlace(w, n);
    SumZero(TS.HandsAt(w.threads, s));
    if s < n {
      FiredOnce(w.fired, s);
    } else if s > n {
      FiredCounts(w.fired, n);
    }
  }

  /** The result in a hand has not been delivered, and no other hand carries it. */
  lemma CarriedOnce(w: T.World, t: nat, u: nat)
    requires TS.Inv(w) && t < |w.threads| && u < |w.threads| && Carries(w.threads[t]) && Carries(w.threads[u])
    requires TS.CarriesResult(w.threads[t]).value.0 == TS.CarriesResult(w.threads[u]).value.0
    ensures t == u
  {
    var s := TS.CarriesResult(w.threads[t]).value.0;
    OnlyPlace(w, s);
    hide TS.Inv;
    if t != u {
      var hs := TS.HandsAt(w.threads, s);
      SumUpdate(hs, t, 0);
      SumUpdate(hs[t := 0], u, 0);
    }
  }

  // ---- a client that waits -----------------------------------------------------------------

  /** Every trigger is armed after all earlier ones have been acknowledged. */
  ghost predicate Awaited(w: T.World, acts: seq<T.Action>)
    decreases |acts|
  {
    acts == [] || (&& T.Enabled(w, acts[0]) && (acts[0].Arm? ==> |w.fired| == |w.armed|)
                   && Awaited(T.Apply(w, acts[0]), acts[1..]))
  }

  ghost predicate OneAtATime(w: T.World) { TS.Inv(w) && Counted(w) && |w.armed| <= |w.fired| + 1 }

  lemma NextDelivered(w: T.World, t: nat)
    requires OneAtATime(w) && t < |w.threads| && w.threads[t].Firing?
    ensures w.threads[t].serial == |w.fired|
  {
    var s := w.threads[t].serial;
    OnlyPlace(w, s);
    HandCounts(w, t);
    hide TS.Inv;
    if s < |w.fired| { FiredCounts(w.fired, s); }
  }

  lemma AwaitedStep(w: T.World, a: T.Action)
    requires OneAtATime(w) && T.Enabled(w, a) && (a.Arm? ==> |w.fired| == |w.armed|)
    ensures OneAtATime(T.Apply(w, a))
  {
    TS.StepKeeps(w, a);
    if a.Fire? { NextDelivered(w, a.thread); }
    hide TS.Inv;
  }

  lemma {:induction false} AwaitedRun(w: T.World, acts: seq<T.Action>)
    requires OneAtATime(w) && Awaited(w, acts)
    ensures T.IsRun(w, acts) && OneAtATime(T.After(w, acts))
    decreases |acts|
  {
    hide OneAtATime, T.Enabled, T.Apply;
    if acts != [] {
      AwaitedStep(w, acts[0]);
      AwaitedRun(T.Apply(w, acts[0]), acts[1..]);
    }
  }

  /** Whoever arms only after the acknowledgement of the trigger before gets them in
      order, each one, with any number of capture threads. */
  lemma WaitingKeepsOrder(n: nat, acts: seq<T.Action>)
    requires Awaited(T.Init(n), acts)
    ensures T.IsRun(T.Init(n), acts)
    ensures var w := T.After(T.Init(n), acts); Counted(w) && InOrder(w)
  {
    TS.InitHolds(n);
    AwaitedRun(T.Init(n), acts);
    hide TS.Inv;
  }

  // ---- one capture thread ------------------------------------------------------------------

  predicate Winding(c: P.Control) { c.Stopping? || c.Joining? || c.Stopped? }

  /** With one capture thread: results leave one at a time, in order. */
  ghost predicate Queue(x: World) {
    && |x.trig.threads| <= 2 && x.trig.threads != [] && Counted(x.trig)
    && (forall t :: 0 <= t < |x.trig.threads| && Carries(x.trig.threads[t]) ==>
          TS.CarriesResult(x.trig.threads[t]).value.0 == |x.trig.fired|)
    && (!x.pipe.camerasOn ==> AllFree(x.trig.threads))
    && (Carries(x.trig.threads[0]) ==> !x.pipe.camerasOn && Winding(x.pipe.control))
    && !x.trig.threads[0].Queueing?
  }

  /** A frame may put a result into its thread's hand: that of the pending trigger. */
  lemma TookQueue(x: World, y: World, t: nat, f: M.Frame)
    requires Queue(x) && Took(x, y, t, f) && x.pipe.camerasOn && y.pipe.control == x.pipe.control
    requires x.trig.mem.pending.Some? && NoneCarries(x.trig) ==> |x.trig.fired| + 1 == |x.trig.armed|
    requires x.trig.threads[t].Free?
    ensures Queue(y)
  {
    HandleFinishes(x.trig.mem, f.camera, f.frameId);
    hide Wanted, T.NextHand, T.TriggerMem.Handle;
  }

  lemma TakeQueue(x: World, t: nat, f: M.Frame)
    requires Inv(x) && Queue(x) && Enabled(x, Take(t, f))
    ensures Queue(Step(x, Take(t, f)))
  {
    hide Inv, TS.Inv, P.Inv, TT.HandedInv, TT.Apart, Enabled, Step, Took, TS.PendingContent, NoneCarries, AllFree;
    TakeOn(x, t, f);
    PartsOf(x);
    TakeShape(x, t, f);
    if x.trig.mem.pending.Some? && NoneCarries(x.trig) { PendingIsNext(x.trig); }
    TookQueue(x, Step(x, Take(t, f)), t, f);
  }

  lemma TakeOn(x: World, t: nat, f: M.Frame)
    requires Enabled(x, Take(t, f))
    ensures x.pipe.camerasOn && 0 < t < |x.trig.threads| && x.trig.threads[t].Free?
    ensures var y := Step(x, Take(t, f)); y.pipe.camerasOn && y.pipe.control == x.pipe.control
  {
    TakeIs(x, t, f);
    OfferEffect(x.pipe, t - 1, f, Wanted(x.trig, f));
    hide P.Apply, T.Apply, Wanted;
  }

  lemma HandleFinishes(m: T.TriggerMem, camera: u32, frameId: nat)
    ensures var h := m.Handle(camera, frameId).1;
            forall s: nat :: Carries(T.NextHand(s, h)) ==>
              m.pending.Some? && TS.CarriesResult(T.NextHand(s, h)).value.0 == s
  {
  }

  lemma ProducedQueue(x: World, y: World, t: nat, q: P.Producer)
    requires Queue(x) && Produced(x, y, t, q) && x.pipe.camerasOn && y.pipe.control == x.pipe.control
    ensures Queue(y)
  {
  }

  lemma ProduceQueue(x: World, t: nat, spurious: bool)
    requires Inv(x) && Queue(x) && Enabled(x, Produce(t, spurious))
    ensures Queue(Step(x, Produce(t, spurious)))
  {
    hide Inv, P.Inv, Enabled, Step, Queue, P.Apply, T.Apply, P.Advance, P.Enabled, T.Enabled, Produced;
    ProduceIs(x, t, spurious);
    ProduceEffect(x.pipe, t - 1, spurious);
    ProduceShape(x, t, spurious);
    InvPipe(x);
    BusyOn(x.pipe, t - 1);
    ProducedQueue(x, Step(x, Produce(t, spurious)), t, NextStage(x, t, spurious));
  }

  lemma BusyOn(w: P.World, t: nat)
    requires P.Inv(w) && t < |w.captures| && !w.captures[t].Idle?
    ensures w.camerasOn
  {
  }

  lemma FiredQueue(x: World, y: World, t: nat)
    requires Queue(x) && t < |x.trig.threads| && x.trig.threads[t].Firing? && y.pipe == x.pipe
    requires y.trig.threads == x.trig.threads[t := T.Free]
    requires y.trig.fired == x.trig.fired + [(x.trig.threads[t].serial, x.trig.threads[t].result)]
    requires forall u :: 0 <= u < |x.trig.threads| && u != t ==> !Carries(x.trig.threads[u])
    ensures Queue(y)
  {
  }

  lemma FireQueue(x: World, t: nat)
    requires Inv(x) && Queue(x) && Enabled(x, Fire(t))
    ensures Queue(Step(x, Fire(t)))
  {
    PartsOf(x);
    forall u | 0 <= u < |x.trig.threads| && u != t ensures !Carries(x.trig.threads[u]) {
      var v: nat := u;
      if Carries(x.trig.threads[v]) { CarriedOnce(x.trig, t, v); }
    }
    FiredQueue(x, Step(x, Fire(t)), t);
    hide Inv, P.Inv, TS.Inv, TT.HandedInv, TT.Apart, Queue;
  }

  /** Between sessions no hand but the control thread's can carry a result. */
  lemma StoppedQueue(x: World, y: World)
    requires x.trig.threads != [] && y.trig.threads != []
    requires Queue(x) && !x.pipe.camerasOn && x.trig.threads[0].Free?
    requires !y.pipe.camerasOn && y.pipe.control.Stopping? && y.trig.fired == x.trig.fired
    requires y.trig.threads == x.trig.threads[0 := y.trig.threads[0]] && !y.trig.threads[0].Queueing?
    requires Carries(y.trig.threads[0]) ==> TS.CarriesResult(y.trig.threads[0]).value.0 == |x.trig.fired|
    ensures Queue(y)
  {
  }

  lemma StopQueue(x: World)
    requires Inv(x) && Queue(x) && Enabled(x, Stop)
    ensures Queue(Step(x, Stop))
  {
    PartsOf(x);
    StopOff(x);
    StopShape(x);
    hide Inv, P.Inv, TS.Inv, TT.HandedInv, TT.Apart, P.Apply, P.Enabled, Step, Enabled, TS.PendingContent;
    assert NoneCarries(x.trig);
    if x.trig.mem.pending.Some? { PendingIsNext(x.trig); }
    StoppedQueue(x, Step(x, Stop));
  }

  lemma StopShape(x: World)
    requires Enabled(x, Stop)
    ensures var w := x.trig; var v := Step(x, Stop).trig;
            && w.threads != [] && v.fired == w.fired && |v.threads| == |w.threads|
            && v.threads == w.threads[0 := v.threads[0]] && !v.threads[0].Queueing?
            && (Carries(v.threads[0]) ==>
                  && w.mem.pending.Some?
                  && TS.CarriesResult(v.threads[0]).value.0 == Max(0, |w.armed| - 1))
  {
    hide P.Apply, P.Enabled;
  }

  lemma StopOff(x: World)
    requires Enabled(x, Stop)
    ensures !x.pipe.camerasOn && x.trig.threads != [] && x.trig.threads[0].Free?
    ensures var y := Step(x, Stop); !y.pipe.camerasOn && y.pipe.control.Stopping?
  {
    hide P.ApplyCapture, P.ApplyDetector, P.ApplyWriter, T.Apply;
  }

  lemma StartQueue(x: World, c: M.Config, b: nat)
    requires Inv(x) && Queue(x) && Enabled(x, Start(c, b))
    ensures Queue(Step(x, Start(c, b)))
  {
    StartIs(x, c, b);
    StartEffect(x.pipe, c, b);
    StartOff(x, c, b);
    hide Inv, Enabled, Step, P.Apply, P.Enabled;
  }

  lemma StartOff(x: World, c: M.Config, b: nat)
    requires Inv(x) && Enabled(x, Start(c, b))
    ensures x.trig.threads != [] && x.trig.threads[0].Free?
    ensures P.Apply(x.pipe, P.StartSession(c, b)).camerasOn == x.pipe.camerasOn
  {
    hide Inv, P.ApplyCapture, P.ApplyDetector, P.ApplyWriter;
  }

  lemma ArmQueue(x: World, cameras: seq<u32>, skip: int)
    requires Queue(x) && Enabled(x, Arm(cameras, skip))
    ensures Queue(Step(x, Arm(cameras, skip)))
  {
    hide P.Apply;
  }

  /** The cameras stop after the handlers, and start again in a new session only. */
  lemma OtherPhase(x: World, a: P.Action)
    requires Enabled(x, Other(a))
    ensures var v := P.Apply(x.pipe, a);
            && (x.pipe.camerasOn && !v.camerasOn ==> AllFree(x.trig.threads))
            && (Winding(x.pipe.control) ==> Winding(v.control) && (v.camerasOn ==> x.pipe.camerasOn))
  {
    if P.OfControl(a) {
      hide P.ApplyCapture, P.ApplyDetector, P.ApplyWriter;
    } else {
      hide P.ApplyCapture, P.ApplyControl;
    }
  }

  lemma OtherQueue(x: World, a: P.Action)
    requires Inv(x) && Queue(x) && Enabled(x, Other(a))
    ensures Queue(Step(x, Other(a)))
  {
    OtherIs(x, a);
    OtherPhase(x, a);
    hide Inv, Enabled, Step, P.Apply, P.Enabled;
  }

  lemma StepQueue(x: World, a: Action)
    requires Inv(x) && Queue(x) && Enabled(x, a)
    ensures Queue(Step(x, a))
  {
    hide *;
    match a
    case Start(c, b) => StartQueue(x, c, b);
    case Stop => StopQueue(x);
    case Arm(cameras, skip) => ArmQueue(x, cameras, skip);
    case Take(t, f) => TakeQueue(x, t, f);
    case Produce(t, spurious) => ProduceQueue(x, t, spurious);
    case Fire(t) => FireQueue(x, t);
    case Other(p) => OtherQueue(x, p);
  }

  lemma {:induction false} RunQueue(x: World, acts: seq<Action>)
    requires Inv(x) && Queue(x) && IsRun(x, acts)
    ensures Queue(After(x, acts))
    decreases |acts|
  {
    hide Inv, Queue, Enabled, Step;
    if acts != [] {
      StepKeeps(x, acts[0]);
      StepQueue(x, acts[0]);
      RunQueue(Step(x, acts[0]), acts[1..]);
    }
  }

  // ---- two capture threads -----------------------------------------------------------------

  /** A session that does not save, with nothing pending or in a hand. */
  ghost predicate Calm(x: World) {
    && Inv(x) && x.pipe.camerasOn && x.pipe.mem.cfg.mode.Trigger? && !x.pipe.mem.cfg.save
    && x.trig.mem.enabled && x.trig.mem.pending.None? && |x.trig.threads| > 2
    && x.trig.threads[0].Free?
  }

  /** A trigger on camera 0, whose frame thread `t` takes: the result is in its hand. */
  lemma Complete(x: World, t: nat) returns (acts: seq<Action>)
    requires Calm(x) && 0 < t < |x.trig.threads| && x.trig.threads[t].Free?
    ensures IsRun(x, acts)
    ensures var y := After(x, acts);
            && Calm(y) && y.trig.fired == x.trig.fired && |y.trig.armed| == |x.trig.armed| + 1
            && |y.trig.threads| == |x.trig.threads| && y.trig.threads[t].Firing?
            && y.trig.threads[t].serial == |x.trig.armed|
            && forall u :: 0 <= u < |x.trig.threads| && u != t ==> y.trig.threads[u] == x.trig.threads[u]
  {
    hide Inv, Enabled, Step, IsRun, After;
    ArmCalm(x);
    One(x, Arm([0], 0));
    var x1, f := Step(x, Arm([0], 0)), M.Frame(0, 0, 0);
    TakeCalm(x1, t);
    One(x1, Take(t, f));
    Concat(x, [Arm([0], 0)], [Take(t, f)]);
    acts := [Arm([0], 0)] + [Take(t, f)];
  }

  lemma ArmCalm(x: World)
    requires Calm(x)
    ensures Enabled(x, Arm([0], 0))
    ensures var y := Step(x, Arm([0], 0));
            && Inv(y) && y.pipe == x.pipe && y.trig.threads == x.trig.threads && y.trig.fired == x.trig.fired
            && |y.trig.armed| == |x.trig.armed| + 1 && y.trig.mem.enabled
            && y.trig.mem.pending.Some? && y.trig.mem.pending.value.waiting == map[0 := 0]
  {
    CalmMode(x);
    ArmIs(x.trig.mem, 0);
    hide Inv, P.Apply, T.TriggerMem.Arm;
    StepKeeps(x, Arm([0], 0));
  }

  lemma CalmMode(x: World)
    requires Inv(x)
    ensures x.trig.mem.mode == x.pipe.mem.cfg.mode && x.trig.mem.save == x.pipe.mem.cfg.save
  {
    CapturesCoupled(x);
    hide Inv;
  }

  lemma TakeCalm(x: World, t: nat)
    requires Inv(x) && x.pipe.camerasOn && x.pipe.mem.cfg.mode.Trigger? && !x.pipe.mem.cfg.save
    requires 0 < t < |x.trig.threads| && x.trig.threads[t].Free? && |x.trig.threads| > 2
    requires x.trig.threads[0].Free? && x.trig.mem.enabled
    requires x.trig.mem.pending.Some? && x.trig.mem.pending.value.waiting == map[0 := 0]
    ensures Enabled(x, Take(t, M.Frame(0, 0, 0)))
    ensures var y := Step(x, Take(t, M.Frame(0, 0, 0)));
            && Calm(y) && y.trig.fired == x.trig.fired && |y.trig.armed| == |x.trig.armed|
            && |y.trig.threads| == |x.trig.threads| && x.trig.armed != []
            && y.trig.threads[t].Firing? && y.trig.threads[t].serial == |x.trig.armed| - 1
            && forall u :: 0 <= u < |x.trig.threads| && u != t ==> y.trig.threads[u] == x.trig.threads[u]
  {
    hide Inv, Enabled, Step, Wanted, Took, T.TriggerMem.Handle, T.NextHand;
    var f := M.Frame(0, 0, 0);
    CalmMode(x);
    FrameCompletes(x.trig.mem);
    TakeFree(x, t, f);
    PendingArmed(x);
    StepKeeps(x, Take(t, f));
    TakeShape(x, t, f);
    TookCalm(x, Step(x, Take(t, f)), t, f);
  }

  lemma TookCalm(x: World, y: World, t: nat, f: M.Frame)
    requires Took(x, y, t, f)
    ensures SameSession(x.pipe, y.pipe) && y.pipe.camerasOn == x.pipe.camerasOn
    ensures y.trig.fired == x.trig.fired && |y.trig.armed| == |x.trig.armed|
    ensures t < |x.trig.threads| && t < |y.trig.threads|
    ensures y.trig.threads == x.trig.threads[t := y.trig.threads[t]]
    ensures y.trig.mem == x.trig.mem.Handle(f.camera, f.frameId).0
    ensures y.trig.threads[t] ==
            T.NextHand(Max(0, |x.trig.armed| - 1), x.trig.mem.Handle(f.camera, f.frameId).1)
  {
    hide Wanted, T.TriggerMem.Handle, T.NextHand;
  }

  lemma PendingArmed(x: World)
    requires Inv(x) && x.trig.mem.pending.Some?
    ensures x.trig.armed != []
  {
    PartsOf(x);
    hide Inv, P.Inv, TS.Inv, TT.HandedInv, TT.Apart, TS.PendingOk;
  }

  lemma TakeFree(x: World, t: nat, f: M.Frame)
    requires Inv(x) && x.pipe.camerasOn && x.pipe.mem.cfg.mode.Trigger? && f.bytes == 0
    requires 0 < t < |x.trig.threads| && x.trig.threads[t].Free?
    ensures Enabled(x, Take(t, f))
  {
    InvCoupled(x);
    assert Hand(x.pipe.captures[t - 1], x.trig.threads[t]);
    hide Inv, Booked, Wanted;
  }

  lemma FrameCompletes(m: T.TriggerMem)
    requires m.pending.Some? && m.pending.value.waiting == map[0 := 0] && !m.save
    ensures var (n, h) := m.Handle(0, 0);
            && n == m.(pending := None)
            && forall s: nat :: T.NextHand(s, h).Firing? && T.NextHand(s, h).serial == s
  {
    assert map[0 as u32 := 0 as nat] - {0} == map[];
  }

  /** Thread 2 can deliver the second trigger while the first is in thread 1's hand. */
  lemma OutOfOrder(n: nat) returns (acts: seq<Action>)
    requires n >= 2
    ensures IsRun(Init(n), acts)
    ensures var w := After(Init(n), acts).trig;
            |w.fired| == 2 && w.fired[0].0 == 1 && w.fired[1].0 == 0
  {
    hide Inv, Enabled, Step, Init, IsRun, After, Calm;
    acts := StartCalm(n);
    var x := After(Init(n), acts);
    var one := Complete(x, 1);
    var x1 := After(x, one);
    var two := Complete(x1, 2);
    var x2 := After(x1, two);
    Concat(Init(n), acts, one);
    Concat(Init(n), acts + one, two);
    CalmInv(x2);
    Deliver(x2, 2);
    var x3 := Step(x2, Fire(2));
    One(x2, Fire(2));
    Concat(Init(n), acts + one + two, [Fire(2)]);
    Deliver(x3, 1);
    One(x3, Fire(1));
    Concat(Init(n), acts + one + two + [Fire(2)], [Fire(1)]);
    acts := acts + one + two + [Fire(2)] + [Fire(1)];
  }

  lemma CalmInv(x: World)
    requires Calm(x)
    ensures Inv(x)
  {
    hide Inv;
  }

  lemma Deliver(x: World, t: nat)
    requires Inv(x) && t < |x.trig.threads| && x.trig.threads[t].Firing?
    ensures Enabled(x, Fire(t)) && Inv(Step(x, Fire(t)))
    ensures var y := Step(x, Fire(t)).trig; var h := x.trig.threads[t];
            && y.fired == x.trig.fired + [(h.serial, h.result)]
            && y.mem == x.trig.mem && y.threads == x.trig.threads[t := T.Free]
  {
    hide Inv;
    StepKeeps(x, Fire(t));
  }

  lemma StartCalm(n: nat) returns (acts: seq<Action>)
    requires n >= 2
    ensures IsRun(Init(n), acts)
    ensures var x := After(Init(n), acts);
            && Calm(x) && |x.trig.threads| == n + 1 && x.trig.armed == [] && x.trig.fired == []
            && forall t :: 0 <= t < |x.trig.threads| ==> x.trig.threads[t].Free?
  {
    hide Inv, Enabled, Step, IsRun, After;
    var cfg := M.Config(Trigger, false, 1, 1, 0);
    FirstSession(n, cfg, 1);
    hide Init;
    var x1 := Step(Init(n), Start(cfg, 1));
    TurnOn(x1);
    One(Init(n), Start(cfg, 1));
    One(x1, Other(P.CamerasOn));
    acts := [Start(cfg, 1)] + [Other(P.CamerasOn)];
    Concat(Init(n), [Start(cfg, 1)], [Other(P.CamerasOn)]);
    InitHolds(n);
    RunKeeps(Init(n), acts);
  }

  // ---- the condition -----------------------------------------------------------------------

  ghost predicate RunInOrder(n: nat, acts: seq<Action>) {
    IsRun(Init(n), acts) ==> InOrder(After(Init(n), acts).trig)
  }

  /** Acknowledgements come in the order of their triggers in every run if and only if
      at most one thread captures. */
  lemma OrderExactly(n: nat)
    ensures (forall acts :: RunInOrder(n, acts)) <==> n <= 1
  {
    if n <= 1 {
      forall acts ensures RunInOrder(n, acts) {
        if IsRun(Init(n), acts) { OneThread(n, acts); }
      }
    } else {
      var acts := OutOfOrder(n);
      hide Init, IsRun, After;
      assert !RunInOrder(n, acts);
    }
  }

  lemma OneThread(n: nat, acts: seq<Action>)
    requires n <= 1 && IsRun(Init(n), acts)
    ensures InOrder(After(Init(n), acts).trig)
  {
    InitHolds(n);
    StartsQueue(n);
    hide Init, Inv;
    RunQueue(Init(n), acts);
  }

  lemma StartsQueue(n: nat)
    requires n <= 1
    ensures Queue(Init(n))
  {
  }
}
