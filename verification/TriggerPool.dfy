/** TRIGGER mode together with the pipeline its frames go through
    (src/frame_processor.cpp:276-303, 406-458): the capture threads of module
    Triggers and those of module Pipeline are the same threads. A frame that a
    trigger takes runs the reservation loop on the shared counter; whether it is
    queued or refused is decided there. */
module TriggerPool {
  import opened Types
  import M = ProcessorMemory
  import P = Pipeline
  import PS = PipelineSafety
  import T = Triggers
  import TS = TriggerSafety
  import TT = TriggerTheorems

  /** `queuedFrom` and `refusedFrom` tell the current session's entries of
      `trig.queued` and `trig.refused` from those of earlier ones. */
  datatype World = World(pipe: P.World, trig: T.World, queuedFrom: nat, refusedFrom: nat)

  /** Threads are numbered as in module Triggers: 0 is the control thread. */
  datatype Action =
    | Start(cfg: M.Config, budget: nat)
    | Stop
    | Arm(cameras: seq<u32>, skip: int)
    | Take(thread: nat, frame: M.Frame)
    | Produce(thread: nat, spurious: bool)
    | Fire(thread: nat)
    | Other(step: P.Action)

  /** The frame is captured by the pending trigger and is to be saved. */
  predicate Wanted(w: T.World, f: M.Frame) {
    var h := w.mem.Handle(f.camera, f.frameId).1;
    h.Taken? && h.capture.saved
  }

  function OfferOf(x: World, t: nat, f: M.Frame): P.Action
    requires 0 < t
  {
    P.Offer(t - 1, f, Wanted(x.trig, f))
  }

  predicate OtherStep(a: P.Action) {
    !a.StartSession? && !a.RequestStop? && !a.Offer? && !a.Produce?
  }

  /** No handler of a capture thread is under way, callbacks included: the cameras
      stop only after that. */
  predicate AllFree(hands: seq<T.Hand>) { forall t :: 1 <= t < |hands| ==> hands[t].Free? }

  /** A session starts with an empty write queue, as it does after every session that
      had a writer. */
  ghost predicate Enabled(x: World, a: Action) {
    match a
    case Start(c, b) =>
      && P.Enabled(x.pipe, P.StartSession(c, b)) && P.Clean(x.pipe, P.StartSession(c, b))
      && T.Enabled(x.trig, T.Start(c.mode, c.save))
    case Stop => P.Enabled(x.pipe, P.RequestStop) && T.Enabled(x.trig, T.Stop)
    case Arm(cameras, skip) => T.Enabled(x.trig, T.Arm(cameras, skip))
    case Take(t, f) =>
      0 < t && P.Enabled(x.pipe, OfferOf(x, t, f)) && T.Enabled(x.trig, T.Frame(t, f.camera, f.frameId))
    case Produce(t, spurious) =>
      0 < t < |x.trig.threads| && P.Enabled(x.pipe, P.Produce(t - 1, spurious))
    case Fire(t) => T.Enabled(x.trig, T.Fire(t))
    case Other(a) => OtherStep(a) && P.Enabled(x.pipe, a) && (a.CamerasOff? ==> AllFree(x.trig.threads))
  }

  /** The thread is done with its frame: it was dropped or has been pushed. */
  predicate Ends(x: World, t: nat, spurious: bool)
    requires 0 < t <= |x.pipe.captures| && !x.pipe.captures[t - 1].Idle?
  {
    P.Advance(x.pipe.mem, x.pipe.captures[t - 1], spurious).1.Idle?
  }

  ghost function Step(x: World, a: Action): World
    requires Enabled(x, a)
  {
    match a
    case Start(c, b) =>
      World(P.Apply(x.pipe, P.StartSession(c, b)), T.Apply(x.trig, T.Start(c.mode, c.save)),
            |x.trig.queued|, |x.trig.refused|)
    case Stop => x.(pipe := P.Apply(x.pipe, P.RequestStop), trig := T.Apply(x.trig, T.Stop))
    case Arm(cameras, skip) => x.(trig := T.Apply(x.trig, T.Arm(cameras, skip)))
    case Take(t, f) =>
      x.(pipe := P.Apply(x.pipe, OfferOf(x, t, f)),
         trig := T.Apply(x.trig, T.Frame(t, f.camera, f.frameId)))
    case Produce(t, spurious) =>
      x.(pipe := P.Apply(x.pipe, P.Produce(t - 1, spurious)),
         trig := if x.trig.threads[t].Queueing? && Ends(x, t, spurious)
                 then T.Apply(x.trig, T.Store(t, x.pipe.captures[t - 1].Reserved?)) else x.trig)
    case Fire(t) => x.(trig := T.Apply(x.trig, T.Fire(t)))
    case Other(a) => x.(pipe := P.Apply(x.pipe, a))
  }

  ghost predicate IsRun(x: World, acts: seq<Action>)
    decreases |acts|
  {
    acts == [] || (Enabled(x, acts[0]) && IsRun(Step(x, acts[0]), acts[1..]))
  }

  ghost function After(x: World, acts: seq<Action>): World
    requires IsRun(x, acts)
    decreases |acts|
  {
    if acts == [] then x else After(Step(x, acts[0]), acts[1..])
  }

  /** `n` capture threads. */
  function Init(n: nat): World { World(P.Init(n), T.Init(n), 0, 0) }

  lemma {:induction false} Concat(x: World, a: seq<Action>, b: seq<Action>)
    requires IsRun(x, a) && IsRun(After(x, a), b)
    ensures IsRun(x, a + b) && After(x, a + b) == After(After(x, a), b)
    decreases |a|
  {
    hide Enabled, Step;
    if a == [] {
      assert a + b == b;
    } else {
      assert (a + b)[1..] == a[1..] + b;
      Concat(Step(x, a[0]), a[1..], b);
    }
  }

  lemma One(x: World, a: Action)
    requires Enabled(x, a)
    ensures IsRun(x, [a]) && After(x, [a]) == Step(x, a)
  {
    hide Enabled, Step;
    assert [a][1..] == [];
    assert IsRun(Step(x, a), []) && After(Step(x, a), []) == Step(x, a);
  }

  // ---- what the pipeline's steps do to the shared threads -------------------------------

  /** What a step may not touch for the trigger to go on undisturbed. */
  predicate SameSession(w: P.World, v: P.World) {
    v.mem.cfg == w.mem.cfg && v.mem.enabled == w.mem.enabled && v.mem.budget == w.mem.budget
  }

  lemma OfferEffect(w: P.World, t: nat, f: M.Frame, wanted: bool)
    requires P.Enabled(w, P.Offer(t, f, wanted))
    ensures var v := P.Apply(w, P.Offer(t, f, wanted));
            && SameSession(w, v) && v.log.accepted == w.log.accepted
            && v.mem.dropped == w.mem.dropped && v.mem.backlog == w.mem.backlog
            && (w.mem.cfg.mode.Trigger? ==>
                  v.captures == if w.mem.enabled && w.mem.cfg.save && wanted
                                then w.captures[t := P.Loading(f)] else w.captures)
            && (w.camerasOn == v.camerasOn && v.control == w.control)
  {
  }

  lemma ProduceEffect(w: P.World, t: nat, spurious: bool)
    requires P.Enabled(w, P.Produce(t, spurious))
    ensures var v := P.Apply(w, P.Produce(t, spurious));
            var p := w.captures[t]; var q := P.Advance(w.mem, p, spurious).1;
            && SameSession(w, v) && v.captures == w.captures[t := q]
            && (q.Idle? ==> p.Reserved? || (p.Trying? && !w.mem.Fits(p.held, p.frame.bytes)))
            && (!q.Idle? ==> q.frame == p.frame && !p.Reserved?)
            && v.log.accepted == (if p.Reserved? then w.log.accepted + [p.frame] else w.log.accepted)
            && v.mem.dropped == w.mem.dropped + (if q.Idle? && !p.Reserved? then 1 else 0)
            && (w.camerasOn == v.camerasOn && v.control == w.control)
  {
    hide M.Memory.Accept, M.Memory.Fits, AddSize;
  }

  lemma OtherEffect(w: P.World, a: P.Action)
    requires P.Structure(w) && OtherStep(a) && P.Enabled(w, a) && w.mem.cfg.mode.Trigger?
    ensures var v := P.Apply(w, a);
            && SameSession(w, v) && v.captures == w.captures
            && v.log.accepted == w.log.accepted && v.mem.dropped == w.mem.dropped
            && v.mem.backlog <= w.mem.backlog
  {
    NoDetector(w, a);
    if P.OfWriter(a) {
      WriterEffect(w, a);
    } else {
      hide P.ApplyCapture, P.ApplyDetector, P.ApplyWriter;
    }
  }

  lemma NoDetector(w: P.World, a: P.Action)
    requires P.Structure(w) && P.Enabled(w, a) && w.mem.cfg.mode.Trigger?
    ensures !P.OfDetector(a)
  {
  }

  lemma WriterEffect(w: P.World, a: P.Action)
    requires P.OfWriter(a) && P.Enabled(w, a)
    ensures var v := P.Apply(w, a);
            && SameSession(w, v) && v.captures == w.captures
            && v.log.accepted == w.log.accepted && v.mem.dropped == w.mem.dropped
            && v.mem.backlog <= w.mem.backlog
  {
    hide P.ApplyCapture, P.ApplyDetector, P.ApplyControl;
  }

  lemma OtherCaptures(w: P.World, a: P.Action)
    requires OtherStep(a) && P.Enabled(w, a)
    ensures var v := P.Apply(w, a);
            v.captures == w.captures && v.mem.cfg == w.mem.cfg && v.mem.enabled == w.mem.enabled
  {
    if P.OfDetector(a) { DetectorEnabled(w, a); }
    hide P.ApplyCapture, P.ApplyDetector, P.ApplyWriter;
  }

  lemma DetectorEnabled(w: P.World, a: P.Action)
    requires P.OfDetector(a) && P.Enabled(w, a)
    ensures P.ApplyDetector(w, a).mem.enabled == w.mem.enabled
  {
    hide P.Apply, M.NextCamera, M.Memory.Accept;
  }

  // ---- the invariant ----------------------------------------------------------------------

  predicate SameFrame(f: M.Frame, c: T.Capture) { f.camera == c.camera && f.frameId == c.frameId }

  /** The thread holds a captured frame exactly while it is busy storing it, and it
      is that frame. */
  predicate Hand(p: P.Producer, h: T.Hand) {
    && (h.Queueing? <==> !p.Idle?)
    && (h.Queueing? ==> SameFrame(p.frame, h.capture))
  }

  predicate Coupled(x: World) {
    && |x.trig.threads| == |x.pipe.captures| + 1
    && x.trig.mem.enabled == x.pipe.mem.enabled
    && x.trig.mem.mode == x.pipe.mem.cfg.mode && x.trig.mem.save == x.pipe.mem.cfg.save
    && !x.trig.threads[0].Queueing?
    && forall t :: 1 <= t < |x.trig.threads| ==>
         if x.pipe.mem.cfg.mode.Trigger? then Hand(x.pipe.captures[t - 1], x.trig.threads[t])
         else !x.trig.threads[t].Queueing?
  }

  /** The session's books: what was accepted is what was queued, frame by frame, and
      what was dropped is counted by what was refused. */
  predicate Booked(x: World) {
    x.pipe.mem.cfg.mode.Trigger? ==>
      && x.refusedFrom + x.pipe.mem.dropped == |x.trig.refused|
      && Matches(x.pipe.log.accepted, x.trig.queued, x.queuedFrom)
  }

  /** The entries of `queued` from `start` on are the frames of `accepted`. */
  predicate Matches(accepted: seq<M.Frame>, queued: seq<(nat, T.Capture)>, start: nat) {
    && start + |accepted| == |queued|
    && forall i :: 0 <= i < |accepted| ==> SameFrame(accepted[i], queued[start + i].1)
  }

  lemma MatchesNext(accepted: seq<M.Frame>, queued: seq<(nat, T.Capture)>, start: nat,
                    f: M.Frame, one: (nat, T.Capture))
    requires Matches(accepted, queued, start) && SameFrame(f, one.1)
    ensures Matches(accepted + [f], queued + [one], start)
  {
  }

  ghost predicate Parts(x: World) {
    && P.Inv(x.pipe)
    && TS.Inv(x.trig) && TT.HandedInv(x.trig) && TT.Apart(x.trig)
  }

  ghost predicate Inv(x: World) { Parts(x) && Coupled(x) && Booked(x) }

  lemma TrigKeeps(w: T.World, a: T.Action)
    requires TS.Inv(w) && TT.HandedInv(w) && TT.Apart(w) && T.Enabled(w, a)
    ensures var v := T.Apply(w, a); TS.Inv(v) && TT.HandedInv(v) && TT.Apart(v)
  {
    hide *;
    TS.StepKeeps(w, a);
    TT.StepHanded(w, a);
  }

  lemma PartsKept(x: World, a: Action)
    requires Parts(x) && Enabled(x, a)
    ensures Parts(Step(x, a))
  {
    if a.Produce? {
      ProduceParts(x, a.thread, a.spurious);
      hide *;
    } else {
      hide P.Inv, P.Enabled, P.Apply, T.Enabled, T.Apply, TS.Inv, TT.HandedInv, TT.Apart, Wanted;
      if a.Start? {
        PS.StepKeeps(x.pipe, P.StartSession(a.cfg, a.budget));
        TrigKeeps(x.trig, T.Start(a.cfg.mode, a.cfg.save));
      } else if a.Stop? {
        PS.StepKeeps(x.pipe, P.RequestStop);
        TrigKeeps(x.trig, T.Stop);
      } else if a.Arm? {
        TrigKeeps(x.trig, T.Arm(a.cameras, a.skip));
      } else if a.Take? {
        PS.StepKeeps(x.pipe, OfferOf(x, a.thread, a.frame));
        TrigKeeps(x.trig, T.Frame(a.thread, a.frame.camera, a.frame.frameId));
      } else if a.Fire? {
        TrigKeeps(x.trig, T.Fire(a.thread));
      } else {
        PS.StepKeeps(x.pipe, a.step);
      }
    }
  }

  /** The two sides of a step of storing. */
  lemma ProduceIs(x: World, t: nat, spurious: bool)
    requires Enabled(x, Produce(t, spurious))
    ensures 0 < t < |x.trig.threads| && P.Enabled(x.pipe, P.Produce(t - 1, spurious))
    ensures t <= |x.pipe.captures| && !x.pipe.captures[t - 1].Idle?
    ensures var y := Step(x, Produce(t, spurious));
            && y == x.(pipe := P.Apply(x.pipe, P.Produce(t - 1, spurious)), trig := y.trig)
            && if x.trig.threads[t].Queueing? && Ends(x, t, spurious) then
                 && T.Enabled(x.trig, T.Store(t, x.pipe.captures[t - 1].Reserved?))
                 && y.trig == T.Apply(x.trig, T.Store(t, x.pipe.captures[t - 1].Reserved?))
               else y.trig == x.trig
  {
    hide P.Apply, T.Apply, P.Advance;
  }

  lemma ProduceParts(x: World, t: nat, spurious: bool)
    requires Parts(x) && Enabled(x, Produce(t, spurious))
    ensures Parts(Step(x, Produce(t, spurious)))
  {
    ProduceIs(x, t, spurious);
    hide Step, Enabled, P.Enabled, T.Enabled, P.Inv, P.Apply, T.Apply, TS.Inv, TT.HandedInv, TT.Apart, Ends;
    PS.StepKeeps(x.pipe, P.Produce(t - 1, spurious));
    if x.trig.threads[t].Queueing? && Ends(x, t, spurious) {
      TrigKeeps(x.trig, T.Store(t, x.pipe.captures[t - 1].Reserved?));
    }
  }

  /** Before a session starts and when it has been stopped no capture thread is busy. */
  lemma QuietCaptures(w: P.World)
    requires P.Inv(w) && !w.camerasOn
    ensures forall t :: 0 <= t < |w.captures| ==> w.captures[t].Idle?
  {
  }

  /** The two sides of starting. */
  lemma StartIs(x: World, c: M.Config, b: nat)
    requires Enabled(x, Start(c, b))
    ensures T.Enabled(x.trig, T.Start(c.mode, c.save)) && P.Enabled(x.pipe, P.StartSession(c, b))
    ensures Step(x, Start(c, b)) ==
            World(P.Apply(x.pipe, P.StartSession(c, b)), T.Apply(x.trig, T.Start(c.mode, c.save)),
                  |x.trig.queued|, |x.trig.refused|)
  {
    hide P.Apply, T.Apply, T.Enabled, P.Enabled;
  }

  lemma StartEffect(w: P.World, c: M.Config, b: nat)
    requires P.Enabled(w, P.StartSession(c, b))
    ensures var v := P.Apply(w, P.StartSession(c, b));
            && v.captures == w.captures && v.mem.enabled && v.mem.cfg == c
            && v.mem.dropped == 0 && v.log.accepted == []
    ensures w.control.Stopped? && !c.mode.NoMode?
  {
    hide P.ApplyCapture, P.ApplyDetector, P.ApplyWriter;
  }

  /** With the cameras off no thread is busy storing. */
  lemma HandsEmpty(x: World)
    requires Inv(x) && !x.pipe.camerasOn
    ensures |x.trig.threads| == |x.pipe.captures| + 1
    ensures forall t :: 0 <= t < |x.pipe.captures| ==> x.pipe.captures[t].Idle?
    ensures forall t :: 0 <= t < |x.trig.threads| ==> !x.trig.threads[t].Queueing?
  {
    InvPipe(x);
    QuietCaptures(x.pipe);
    hide Parts, Booked, P.Inv;
    forall t | 0 <= t < |x.trig.threads| ensures !x.trig.threads[t].Queueing? {
      if t > 0 { assert x.pipe.captures[t - 1].Idle?; }
    }
  }

  lemma InvPipe(x: World)
    requires Inv(x)
    ensures P.Inv(x.pipe)
  {
    hide Coupled, Booked, P.Inv, TS.Inv, TT.HandedInv, TT.Apart;
  }

  lemma StoppedCamerasOff(w: P.World)
    requires P.Inv(w) && (w.control.Stopped? || P.Enabled(w, P.RequestStop))
    ensures !w.camerasOn
  {
  }

  lemma StartCouples(x: World, c: M.Config, b: nat)
    requires Inv(x) && Enabled(x, Start(c, b))
    ensures Coupled(Step(x, Start(c, b))) && Booked(Step(x, Start(c, b)))
  {
    hide Inv, Enabled, Step, P.Inv, P.Enabled, P.Apply;
    StartIs(x, c, b);
    StartEffect(x.pipe, c, b);
    InvPipe(x);
    StoppedCamerasOff(x.pipe);
    HandsEmpty(x);
  }

  lemma StopCouples(x: World)
    requires Inv(x) && Enabled(x, Stop)
    ensures Coupled(Step(x, Stop)) && Booked(Step(x, Stop))
  {
    hide P.Inv, TS.Inv, TT.HandedInv, TT.Apart, P.ApplyCapture, P.ApplyDetector, P.ApplyWriter;
  }

  lemma TrigOnlyCouples(x: World, a: Action)
    requires Inv(x) && Enabled(x, a) && (a.Arm? || a.Fire?)
    ensures Coupled(Step(x, a)) && Booked(Step(x, a))
  {
    hide P.Inv, TS.Inv, TT.HandedInv, TT.Apart;
  }

  /** Steps of the pipeline that keep the threads, the session and the books. */
  predicate Aside(w: P.World, v: P.World) {
    && v.captures == w.captures && v.mem.cfg == w.mem.cfg && v.mem.enabled == w.mem.enabled
    && (w.mem.cfg.mode.Trigger? ==>
          v.log.accepted == w.log.accepted && v.mem.dropped == w.mem.dropped)
  }

  lemma AsideCouples(x: World, v: P.World)
    requires Coupled(x) && Booked(x) && Aside(x.pipe, v)
    ensures Coupled(x.(pipe := v)) && Booked(x.(pipe := v))
  {
  }

  lemma OtherIs(x: World, a: P.Action)
    requires Enabled(x, Other(a))
    ensures OtherStep(a) && P.Enabled(x.pipe, a) && Step(x, Other(a)) == x.(pipe := P.Apply(x.pipe, a))
  {
    hide P.Enabled, P.Apply;
  }

  lemma InvStructure(x: World)
    requires Inv(x)
    ensures P.Structure(x.pipe)
  {
    InvPipe(x);
    hide Inv, P.Structure, P.Ledger;
  }

  lemma OtherCouples(x: World, a: P.Action)
    requires Inv(x) && Enabled(x, Other(a))
    ensures Coupled(Step(x, Other(a))) && Booked(Step(x, Other(a)))
  {
    hide Inv, Enabled, Step, P.Enabled, P.Apply, P.Structure, Coupled, Booked;
    OtherIs(x, a);
    InvStructure(x);
    InvCoupled(x);
    OtherCaptures(x.pipe, a);
    if x.pipe.mem.cfg.mode.Trigger? { OtherEffect(x.pipe, a); }
    AsideCouples(x, P.Apply(x.pipe, a));
  }

  /** What a frame leaves in its thread's hand. */
  lemma TakeEffect(w: T.World, t: nat, f: M.Frame)
    requires TS.Inv(w) && T.Enabled(w, T.Frame(t, f.camera, f.frameId))
    ensures var v := T.Apply(w, T.Frame(t, f.camera, f.frameId));
            && v.mem.enabled == w.mem.enabled && v.mem.mode == w.mem.mode && v.mem.save == w.mem.save
            && v.threads == w.threads[t := v.threads[t]]
            && v.queued == w.queued && v.refused == w.refused
            && (v.threads[t].Queueing? <==> Wanted(w, f))
            && (v.threads[t].Queueing? ==> SameFrame(f, v.threads[t].capture))
            && (Wanted(w, f) ==> w.mem.enabled && w.mem.save)
  {
    assert TS.PendingContent(w);
    TS.SessionKept(w.mem, f.camera, f.frameId);
    hide TS.PendingOk, TS.OnePlace, TS.Ids;
  }

  /** The two sides of taking a frame. */
  lemma TakeIs(x: World, t: nat, f: M.Frame)
    requires Enabled(x, Take(t, f))
    ensures 0 < t && P.Enabled(x.pipe, P.Offer(t - 1, f, Wanted(x.trig, f)))
    ensures T.Enabled(x.trig, T.Frame(t, f.camera, f.frameId))
    ensures Step(x, Take(t, f)) ==
            x.(pipe := P.Apply(x.pipe, P.Offer(t - 1, f, Wanted(x.trig, f))),
               trig := T.Apply(x.trig, T.Frame(t, f.camera, f.frameId)))
  {
    hide P.Enabled, P.Apply, T.Enabled, T.Apply, Wanted;
  }

  lemma PartsOf(x: World)
    requires Inv(x)
    ensures P.Inv(x.pipe) && TS.Inv(x.trig) && TS.PendingContent(x.trig)
    ensures TT.HandedInv(x.trig) && TT.Apart(x.trig)
    ensures x.pipe.mem.backlog <= x.pipe.mem.budget
  {
    assert P.Accounting(x.pipe);
    hide P.Structure, P.Held, TS.OnePlace, TS.Ids, TS.PendingContent, TT.HandedInv, TT.Apart;
  }

  /** `y` is `x` after thread `t` took frame `f`. */
  predicate Took(x: World, y: World, t: nat, f: M.Frame) {
    && 0 < t < |x.trig.threads| && t <= |x.pipe.captures| && x.pipe.captures[t - 1].Idle?
    && f.bytes <= x.pipe.mem.cfg.maxFrame
    && y == World(y.pipe, y.trig, x.queuedFrom, x.refusedFrom)
    && SameSession(x.pipe, y.pipe) && y.pipe.camerasOn == x.pipe.camerasOn
    && y.pipe.mem.backlog == x.pipe.mem.backlog && y.pipe.mem.dropped == x.pipe.mem.dropped
    && y.pipe.log.accepted == x.pipe.log.accepted
    && (Wanted(x.trig, f) ==> x.pipe.mem.cfg.mode.Trigger?)
    && (x.pipe.mem.cfg.mode.Trigger? ==>
          y.pipe.captures == if Wanted(x.trig, f) then x.pipe.captures[t - 1 := P.Loading(f)]
                             else x.pipe.captures)
    && |y.pipe.captures| == |x.pipe.captures|
    && TookTrig(x.trig, y.trig, t, f)
  }

  predicate TookTrig(w: T.World, v: T.World, t: nat, f: M.Frame) {
    && 0 < t < |w.threads| && t < |v.threads|
    && v == w.(mem := v.mem, armed := v.armed, threads := w.threads[t := v.threads[t]])
    && |v.armed| == |w.armed|
    && v.mem == w.mem.Handle(f.camera, f.frameId).0
    && v.mem.enabled == w.mem.enabled && v.mem.mode == w.mem.mode && v.mem.save == w.mem.save
    && v.threads[t] == T.NextHand(Max(0, |w.armed| - 1), w.mem.Handle(f.camera, f.frameId).1)
    && (v.threads[t].Queueing? <==> Wanted(w, f))
    && (v.threads[t].Queueing? ==> SameFrame(f, v.threads[t].capture))
  }

  lemma TookHand(w: T.World, t: nat, f: M.Frame)
    requires TS.Inv(w) && T.Enabled(w, T.Frame(t, f.camera, f.frameId))
    ensures TookTrig(w, T.Apply(w, T.Frame(t, f.camera, f.frameId)), t, f)
  {
    TakeEffect(w, t, f);
    TS.FrameShape(w, t, f.camera, f.frameId);
    hide TS.Inv, T.Apply, Wanted, T.NextHand, T.TriggerMem.Handle, T.Noted;
  }

  lemma TakeShape(x: World, t: nat, f: M.Frame)
    requires Inv(x) && Enabled(x, Take(t, f))
    ensures Took(x, Step(x, Take(t, f)), t, f)
  {
    hide Inv, Enabled, Step, P.Inv, TS.Inv, TT.HandedInv, TT.Apart, P.Apply, T.Apply, Wanted, P.Enabled, T.Enabled,
         TookTrig;
    PartsOf(x);
    InvCoupled(x);
    NoTriggerNoWant(x, f);
    TakeIs(x, t, f);
    TakeEffect(x.trig, t, f);
    TookHand(x.trig, t, f);
    OfferEffect(x.pipe, t - 1, f, Wanted(x.trig, f));
    OfferCaptures(x.pipe, t - 1, f, Wanted(x.trig, f));
  }

  lemma TookCouples(x: World, y: World, t: nat, f: M.Frame)
    requires Coupled(x) && Booked(x) && Took(x, y, t, f)
    ensures Coupled(y) && Booked(y)
  {
    hide Wanted, T.NextHand, T.TriggerMem.Handle;
  }

  lemma TakeCouples(x: World, t: nat, f: M.Frame)
    requires Inv(x) && Enabled(x, Take(t, f))
    ensures Coupled(Step(x, Take(t, f))) && Booked(Step(x, Take(t, f)))
  {
    hide *;
    InvCoupled(x);
    TakeShape(x, t, f);
    TookCouples(x, Step(x, Take(t, f)), t, f);
  }

  lemma OfferCaptures(w: P.World, t: nat, f: M.Frame, wanted: bool)
    requires P.Enabled(w, P.Offer(t, f, wanted))
    ensures |P.Apply(w, P.Offer(t, f, wanted)).captures| == |w.captures|
    ensures t < |w.captures| && w.captures[t].Idle? && f.bytes <= w.mem.cfg.maxFrame
  {
  }

  /** Outside TRIGGER mode there is no trigger to want a frame. */
  lemma NoTriggerNoWant(x: World, f: M.Frame)
    requires Inv(x)
    ensures Wanted(x.trig, f) ==> x.pipe.mem.cfg.mode.Trigger?
  {
  }

  lemma StoreEffect(w: T.World, t: nat, granted: bool)
    requires T.Enabled(w, T.Store(t, granted))
    ensures var v := T.Apply(w, T.Store(t, granted));
            Stored(w, v, t, granted)
  {
  }

  /** `v` is `w` after thread `t` settled the frame in its hand. */
  predicate Stored(w: T.World, v: T.World, t: nat, granted: bool) {
    && t < |w.threads| && t < |v.threads| && w.threads[t].Queueing?
    && v == w.(queued := v.queued, refused := v.refused, threads := w.threads[t := v.threads[t]])
    && v.threads[t] == T.Relieved(w.threads[t])
    && var one := (w.threads[t].serial, w.threads[t].capture);
       && v.queued == (if granted then w.queued + [one] else w.queued)
       && v.refused == (if granted then w.refused else w.refused + [one])
  }

  /** `y` is `x` after a step of storing brought thread `t` to stage `q`: the thread
      goes on, or it is done and its frame is in the books as queued or as refused. */
  predicate Produced(x: World, y: World, t: nat, q: P.Producer) {
    && 0 < t < |x.trig.threads| && t <= |x.pipe.captures| && !x.pipe.captures[t - 1].Idle?
    && y.queuedFrom == x.queuedFrom && y.refusedFrom == x.refusedFrom
    && SameSession(x.pipe, y.pipe) && y.pipe.camerasOn == x.pipe.camerasOn
    && y.trig.mem == x.trig.mem && y.trig.armed == x.trig.armed && y.trig.fired == x.trig.fired
    && |y.trig.threads| == |x.trig.threads|
    && y.pipe.captures == x.pipe.captures[t - 1 := q]
    && var p := x.pipe.captures[t - 1];
       && (!q.Idle? ==> q.frame == p.frame && !p.Reserved?)
       && y.pipe.log.accepted == (if p.Reserved? then x.pipe.log.accepted + [p.frame]
                                  else x.pipe.log.accepted)
       && y.pipe.mem.dropped == x.pipe.mem.dropped + (if q.Idle? && !p.Reserved? then 1 else 0)
       && (if x.trig.threads[t].Queueing? && q.Idle? then Stored(x.trig, y.trig, t, p.Reserved?)
           else y.trig == x.trig)
  }

  /** The stage a step of storing brings the thread to. */
  function NextStage(x: World, t: nat, spurious: bool): P.Producer
    requires 0 < t <= |x.pipe.captures| && !x.pipe.captures[t - 1].Idle?
  {
    P.Advance(x.pipe.mem, x.pipe.captures[t - 1], spurious).1
  }

  lemma ProduceShape(x: World, t: nat, spurious: bool)
    requires Enabled(x, Produce(t, spurious))
    ensures 0 < t < |x.trig.threads| && t <= |x.pipe.captures| && !x.pipe.captures[t - 1].Idle?
    ensures Produced(x, Step(x, Produce(t, spurious)), t, NextStage(x, t, spurious))
  {
    ProduceIs(x, t, spurious);
    hide Step, Enabled, P.Enabled, P.Apply, P.Advance, T.Enabled, T.Apply, Stored;
    ProduceEffect(x.pipe, t - 1, spurious);
    if x.trig.threads[t].Queueing? && Ends(x, t, spurious) {
      StoreEffect(x.trig, t, x.pipe.captures[t - 1].Reserved?);
      SettledKeepsMem(x.trig, Step(x, Produce(t, spurious)).trig, t, x.pipe.captures[t - 1].Reserved?);
    }
  }

  lemma SettledKeepsMem(w: T.World, v: T.World, t: nat, granted: bool)
    requires Stored(w, v, t, granted)
    ensures v.mem == w.mem && v.armed == w.armed && v.fired == w.fired && |v.threads| == |w.threads|
  {
  }

  lemma CoupledAfter(x: World, y: World, t: nat, q: P.Producer)
    requires Coupled(x) && Produced(x, y, t, q)
    ensures Coupled(y)
  {
  }

  lemma BookedAfter(x: World, y: World, t: nat, q: P.Producer)
    requires Coupled(x) && Booked(x) && Produced(x, y, t, q)
    ensures Booked(y)
  {
    hide Matches, Stored, SameFrame;
    if x.pipe.mem.cfg.mode.Trigger? {
      var p, h := x.pipe.captures[t - 1], x.trig.threads[t];
      assert Hand(p, h);
      hide Coupled;
      if h.Queueing? && q.Idle? {
        StoredLists(x.trig, y.trig, t, p.Reserved?);
        if p.Reserved? {
          MatchesNext(x.pipe.log.accepted, x.trig.queued, x.queuedFrom, p.frame, (h.serial, h.capture));
        }
      }
    }
  }

  lemma StoredLists(w: T.World, v: T.World, t: nat, granted: bool)
    requires Stored(w, v, t, granted)
    ensures t < |w.threads| && w.threads[t].Queueing?
    ensures var one := (w.threads[t].serial, w.threads[t].capture);
            && v.queued == (if granted then w.queued + [one] else w.queued)
            && v.refused == (if granted then w.refused else w.refused + [one])
  {
  }

  lemma CapturesCoupled(x: World)
    requires Inv(x)
    ensures |x.trig.threads| == |x.pipe.captures| + 1
    ensures x.trig.mem.enabled == x.pipe.mem.enabled && x.trig.mem.save == x.pipe.mem.cfg.save
    ensures x.trig.mem.mode == x.pipe.mem.cfg.mode
  {
    hide Parts, Booked;
  }

  lemma InvCoupled(x: World)
    requires Inv(x)
    ensures Coupled(x) && Booked(x)
  {
    hide Parts, Coupled, Booked;
  }

  lemma ProduceCouples(x: World, t: nat, spurious: bool)
    requires Inv(x) && Enabled(x, Produce(t, spurious))
    ensures Coupled(Step(x, Produce(t, spurious))) && Booked(Step(x, Produce(t, spurious)))
  {
    hide *;
    var y := Step(x, Produce(t, spurious));
    InvCoupled(x);
    ProduceShape(x, t, spurious);
    CoupledAfter(x, y, t, NextStage(x, t, spurious));
    BookedAfter(x, y, t, NextStage(x, t, spurious));
  }

  lemma StepKeeps(x: World, a: Action)
    requires Inv(x) && Enabled(x, a)
    ensures Inv(Step(x, a))
  {
    PartsKept(x, a);
    hide Parts, Coupled, Booked, Step, Enabled;
    match a
    case Start(c, b) => StartCouples(x, c, b);
    case Stop => StopCouples(x);
    case Arm(_, _) => TrigOnlyCouples(x, a);
    case Take(t, f) => TakeCouples(x, t, f);
    case Produce(t, spurious) => ProduceCouples(x, t, spurious);
    case Fire(_) => TrigOnlyCouples(x, a);
    case Other(p) => OtherCouples(x, p);
  }

  lemma {:induction false} RunKeeps(x: World, acts: seq<Action>)
    requires Inv(x) && IsRun(x, acts)
    ensures Inv(After(x, acts))
    decreases |acts|
  {
    hide Inv, Enabled, Step;
    if acts != [] {
      StepKeeps(x, acts[0]);
      RunKeeps(Step(x, acts[0]), acts[1..]);
    }
  }

  lemma InitHolds(n: nat)
    ensures Inv(Init(n))
  {
    InitParts(n);
    hide P.Inv, TS.Inv, TT.HandedInv, TT.Apart;
  }

  lemma InitParts(n: nat)
    ensures P.Inv(P.Init(n)) && TS.Inv(T.Init(n)) && TT.HandedInv(T.Init(n)) && TT.Apart(T.Init(n))
  {
    hide P.Inv, P.Init, TS.Inv, TT.HandedInv, TT.Apart, T.Init;
    PS.InitHolds(n);
    TS.InitHolds(n);
    TT.ReachedHanded(n, []);
    assert T.After(T.Init(n), []) == T.Init(n);
  }

  // ---- the first session --------------------------------------------------------------------

  function Idlers(n: nat): (hs: seq<T.Hand>)
    ensures |hs| == n + 1
  {
    seq(n + 1, _ => T.Free)
  }

  /** A first TRIGGER session; the cameras are off yet. */
  lemma FirstSession(n: nat, cfg: M.Config, budget: nat)
    requires cfg.mode.Trigger? && 0 < budget
    requires budget + cfg.maxFrame < SIZE_MODULUS
    ensures Enabled(Init(n), Start(cfg, budget))
    ensures var x := Step(Init(n), Start(cfg, budget));
            && x.pipe.mem.cfg == cfg && x.pipe.mem.budget == budget && x.pipe.mem.backlog == 0
            && x.pipe.control.Live? && !x.pipe.camerasOn
            && x.trig == T.World(T.TriggerMem(true, Trigger, cfg.save, 1, None), Idlers(n), [], [], [], [])
  {
    StartIs(Init(n), cfg, budget);
    assert Init(n).trig.threads == Idlers(n);
    hide Step;
  }

  lemma TurnOn(x: World)
    requires x.pipe.control.Live? && !x.pipe.camerasOn
    ensures Enabled(x, Other(P.CamerasOn))
    ensures Step(x, Other(P.CamerasOn)) == x.(pipe := x.pipe.(camerasOn := true))
  {
    hide P.ApplyCapture, P.ApplyDetector, P.ApplyWriter;
  }

  /** A trigger on one camera, armed while none is pending. */
  lemma ArmIs(m: T.TriggerMem, c: u32)
    requires m.enabled && m.mode.Trigger? && m.pending.None?
    ensures var (n, id) := m.Arm([c], 0);
            && id == Some(m.nextId)
            && n == m.(nextId := n.nextId, pending := Some(T.Pending(m.nextId, map[c := 0], [])))
  {
    var waiting := m.Arm([c], 0).0.pending.value.waiting;
    assert c in [c];
    assert waiting.Keys == {c} && waiting[c] == 0;
    assert waiting == map[c := 0];
  }
}
