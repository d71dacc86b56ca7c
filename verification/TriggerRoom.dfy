/** When the backlog budget is sure to hold the frames of a trigger that has just been
    armed (src/frame_processor.cpp:276-303, 376-453): everything they may still ask for
    fits next to what is held, and nothing else can ask for it. */
module TriggerRoom {
  import opened Types
  import opened Sums
  import Products
  import M = ProcessorMemory
  import P = Pipeline
  import T = Triggers
  import TS = TriggerSafety
  import TT = TriggerTheorems
  import opened TriggerPool

  // ---- enough room --------------------------------------------------------------------

  /** The bytes a thread is still going to ask for. */
  function Asking(p: P.Producer): nat { if p.Loading? || p.Trying? then p.frame.bytes else 0 }

  function Askings(ps: seq<P.Producer>): (s: seq<nat>)
    ensures |s| == |ps|
  {
    seq(|ps|, i requires 0 <= i < |ps| => Asking(ps[i]))
  }

  lemma AskingChanges(ps: seq<P.Producer>, t: nat, p: P.Producer)
    requires t < |ps|
    ensures Sum(Askings(ps[t := p])) == Sum(Askings(ps)) - Asking(ps[t]) + Asking(p)
    ensures Asking(ps[t]) <= Sum(Askings(ps))
  {
    assert Askings(ps[t := p]) == Askings(ps)[t := Asking(p)];
    SumUpdate(Askings(ps), t, Asking(p));
  }

  /** Cameras the pending trigger still waits for. */
  function Waited(m: T.TriggerMem): nat { if m.pending.Some? then |m.pending.value.waiting| else 0 }

  /** Bytes that may still be asked for while no further trigger is armed. */
  function Demand(x: World): nat {
    Sum(Askings(x.pipe.captures)) + Waited(x.trig.mem) * x.pipe.mem.cfg.maxFrame
  }

  /** Everything that may still be asked for fits next to what is held, also for a
      thread that has looked at the counter before. */
  ghost predicate Room(x: World) {
    && x.pipe.mem.cfg.mode.Trigger?
    && x.pipe.mem.backlog + Demand(x) <= x.pipe.mem.budget
    && forall t :: 0 <= t < |x.pipe.captures| && x.pipe.captures[t].Trying? ==>
         x.pipe.captures[t].held + x.pipe.captures[t].frame.bytes <= x.pipe.mem.budget
  }

  /** Nothing of trigger `s` is pending or in a hand any more. */
  ghost predicate Over(x: World, s: nat) {
    && Completed(x, s)
    && forall t :: 0 <= t < |x.trig.threads| && x.trig.threads[t].Queueing? ==> x.trig.threads[t].serial != s
  }

  /** Trigger `s` waits for no camera any more. */
  predicate Completed(x: World, s: nat) { s + 1 < |x.trig.armed| || x.trig.mem.pending.None? }

  /** What the thread asks for fits, also if it has looked at the counter before. */
  predicate Covered(m: M.Memory, p: P.Producer) {
    m.backlog + Asking(p) <= m.budget && (p.Trying? ==> p.held + p.frame.bytes <= m.budget)
  }

  /** The only capture thread still has the completing frame of trigger `s`, which fits. */
  predicate Alone(x: World, s: nat) {
    && Completed(x, s) && x.pipe.mem.cfg.mode.Trigger?
    && |x.trig.threads| == 2 && |x.pipe.captures| == 1 && !x.pipe.captures[0].Idle?
    && !x.trig.threads[0].Queueing?
    && x.trig.threads[1].Queueing? && x.trig.threads[1].serial == s
    && Covered(x.pipe.mem, x.pipe.captures[0])
  }

  ghost predicate NoneRefused(x: World, s: nat) {
    forall c: T.Capture :: (s, c) !in x.trig.refused
  }

  /** There is room as long as nothing else can ask for it: frames are empty, or no
      later trigger has been armed yet and, if one may be, a single thread captures. */
  ghost predicate Roomy(x: World, s: nat, rearm: bool) {
    && Room(x)
    && (x.pipe.mem.cfg.maxFrame == 0 || (s + 1 == |x.trig.armed| && (rearm ==> |x.trig.threads| == 2)))
  }

  /** No frame of trigger `s` has been refused, and none can be; `rearm` says whether
      further triggers may be armed. */
  ghost predicate Safe(x: World, s: nat, rearm: bool) {
    && s < |x.trig.armed| && NoneRefused(x, s) && (Roomy(x, s, rearm) || Alone(x, s) || Over(x, s))
  }

  /** A capture thread that is busy in a running session has a bounded frame. */
  lemma BusySized(w: P.World, t: nat)
    requires P.Inv(w) && t < |w.captures| && !w.captures[t].Idle?
    ensures w.camerasOn && 0 < w.mem.budget && w.mem.budget + w.mem.cfg.maxFrame < SIZE_MODULUS
    ensures w.captures[t].frame.bytes <= w.mem.cfg.maxFrame
  {
  }

  /** A step of the reservation moves bytes from asking to held. */
  lemma AdvanceRoom(m: M.Memory, p: P.Producer, spurious: bool)
    requires !p.Idle? && 0 < m.budget && m.budget + m.cfg.maxFrame < SIZE_MODULUS
    requires p.frame.bytes <= m.cfg.maxFrame
    requires m.backlog + Asking(p) <= m.budget
    requires p.Trying? ==> p.held + p.frame.bytes <= m.budget
    ensures var (n, q) := P.Advance(m, p, spurious);
            && n.backlog + Asking(q) == m.backlog + Asking(p)
            && (q.Trying? ==> q.held + q.frame.bytes <= m.budget)
            && (q.Idle? ==> p.Reserved?)
  {
    hide M.Memory.Accept;
  }

  lemma DemandAfter(x: World, y: World, t: nat, q: P.Producer)
    requires t < |x.pipe.captures| && y.pipe.captures == x.pipe.captures[t := q]
    requires y.trig.mem == x.trig.mem && y.pipe.mem.cfg == x.pipe.mem.cfg
    ensures Demand(y) == Demand(x) - Asking(x.pipe.captures[t]) + Asking(q)
    ensures Asking(x.pipe.captures[t]) <= Demand(x)
  {
    AskingChanges(x.pipe.captures, t, q);
    assert Waited(x.trig.mem) * x.pipe.mem.cfg.maxFrame >= 0;
    hide Askings, Sum, Asking;
  }

  /** What a thread asks for is set aside for it. */
  lemma RoomAsks(x: World, t: nat)
    requires Room(x) && t < |x.pipe.captures|
    ensures var p := x.pipe.captures[t]; var m := x.pipe.mem;
            && m.backlog + Asking(p) <= m.budget
            && (p.Trying? ==> p.held + p.frame.bytes <= m.budget)
  {
    AskingChanges(x.pipe.captures, t, x.pipe.captures[t]);
    assert Waited(x.trig.mem) * x.pipe.mem.cfg.maxFrame >= 0;
    hide Askings, Sum, Asking;
  }

  lemma RoomStep(x: World, y: World, t: nat, q: P.Producer)
    requires Room(x) && t < |x.pipe.captures| && y.pipe.captures == x.pipe.captures[t := q]
    requires SameSession(x.pipe, y.pipe) && y.trig.mem == x.trig.mem
    requires y.pipe.mem.backlog + Asking(q) == x.pipe.mem.backlog + Asking(x.pipe.captures[t])
    requires q.Trying? ==> q.held + q.frame.bytes <= x.pipe.mem.budget
    ensures Room(y)
  {
    DemandAfter(x, y, t, q);
    hide Demand, Asking;
  }

  /** A step of storing what fits: nothing is refused, and it goes on fitting. */
  lemma ProduceFits(x: World, t: nat, spurious: bool)
    requires Inv(x) && Enabled(x, Produce(t, spurious))
    requires 0 < t <= |x.pipe.captures| ==> Covered(x.pipe.mem, x.pipe.captures[t - 1])
    ensures 0 < t <= |x.pipe.captures| && !x.pipe.captures[t - 1].Idle?
    ensures var y := Step(x, Produce(t, spurious)); var q := NextStage(x, t, spurious);
            && y.trig.refused == x.trig.refused
            && y.pipe.mem.backlog + Asking(q) == x.pipe.mem.backlog + Asking(x.pipe.captures[t - 1])
            && (q.Trying? ==> q.held + q.frame.bytes <= x.pipe.mem.budget)
  {
    hide Inv, Step, Enabled, Ends, Stored, Asking, P.Inv, P.Advance, P.Enabled, P.Apply, T.Enabled, T.Apply;
    ProduceIs(x, t, spurious);
    var w, y := x.pipe, Step(x, Produce(t, spurious));
    var q := NextStage(x, t, spurious);
    InvPipe(x);
    BusySized(w, t - 1);
    ProduceBacklog(w, t - 1, spurious);
    ProduceShape(x, t, spurious);
    AdvanceRoom(w.mem, w.captures[t - 1], spurious);
    if x.trig.threads[t].Queueing? && q.Idle? {
      StoredRefused(x.trig, y.trig, t, w.captures[t - 1].Reserved?);
    }
  }

  lemma ProduceRoom(x: World, t: nat, spurious: bool)
    requires Inv(x) && Room(x) && Enabled(x, Produce(t, spurious))
    ensures Room(Step(x, Produce(t, spurious)))
    ensures Step(x, Produce(t, spurious)).trig.refused == x.trig.refused
  {
    hide Inv, Step, Enabled, Room, Stored, Asking, Demand, P.Advance;
    ProduceShape(x, t, spurious);
    RoomAsks(x, t - 1);
    ProduceFits(x, t, spurious);
    RoomStep(x, Step(x, Produce(t, spurious)), t - 1, NextStage(x, t, spurious));
  }

  lemma AloneStep(x: World, y: World, q: P.Producer, s: nat)
    requires Alone(x, s) && Produced(x, y, 1, q)
    requires y.pipe.mem.backlog + Asking(q) == x.pipe.mem.backlog + Asking(x.pipe.captures[0])
    requires q.Trying? ==> q.held + q.frame.bytes <= x.pipe.mem.budget
    ensures Alone(y, s) || Over(y, s)
  {
    hide Asking;
  }

  lemma ProduceAlone(x: World, t: nat, spurious: bool, s: nat)
    requires Inv(x) && Alone(x, s) && Enabled(x, Produce(t, spurious))
    ensures var y := Step(x, Produce(t, spurious));
            y.trig.refused == x.trig.refused && (Alone(y, s) || Over(y, s))
  {
    hide Inv, Step, Enabled, Stored, Produced, Asking, Over, P.Advance, Covered, Completed;
    ProduceShape(x, t, spurious);
    ProduceFits(x, t, spurious);
    AloneStep(x, Step(x, Produce(t, spurious)), NextStage(x, t, spurious), s);
  }

  /** The entry of the refused list that settling a frame makes. */
  lemma StoredRefused(w: T.World, v: T.World, t: nat, granted: bool)
    requires Stored(w, v, t, granted)
    ensures granted ==> v.refused == w.refused
    ensures !granted ==> v.refused == w.refused + [(w.threads[t].serial, w.threads[t].capture)]
    ensures |v.threads| == |w.threads| && v.armed == w.armed && v.mem == w.mem
    ensures !v.threads[t].Queueing? && v.threads == w.threads[t := v.threads[t]]
  {
  }

  /** A step that keeps the room, or the one frame left, refuses nothing of trigger
      `s`, and takes up nothing of it once it is over, is safe. */
  lemma ProducedSafe(x: World, y: World, t: nat, q: P.Producer, s: nat, rearm: bool)
    requires Safe(x, s, rearm) && Produced(x, y, t, q)
    requires Room(x) ==> Room(y) && y.trig.refused == x.trig.refused
    requires Alone(x, s) ==> (Alone(y, s) || Over(y, s)) && y.trig.refused == x.trig.refused
    ensures Safe(y, s, rearm)
  {
    hide Room, Alone;
  }

  lemma ProduceSafe(x: World, t: nat, spurious: bool, s: nat, rearm: bool)
    requires Inv(x) && Safe(x, s, rearm) && Enabled(x, Produce(t, spurious))
    ensures Safe(Step(x, Produce(t, spurious)), s, rearm)
  {
    hide *;
    ProduceShape(x, t, spurious);
    if Room(x) { ProduceRoom(x, t, spurious); }
    if Alone(x, s) { ProduceAlone(x, t, spurious, s); }
    ProducedSafe(x, Step(x, Produce(t, spurious)), t, NextStage(x, t, spurious), s, rearm);
  }

  lemma ProduceBacklog(w: P.World, t: nat, spurious: bool)
    requires P.Enabled(w, P.Produce(t, spurious))
    ensures P.Apply(w, P.Produce(t, spurious)).mem.backlog == P.Advance(w.mem, w.captures[t], spurious).0.backlog
  {
    hide P.Advance;
  }

  lemma HandleWaits(m: T.TriggerMem, camera: u32, frameId: nat)
    ensures var (n, h) := m.Handle(camera, frameId);
            Waited(n) + (if h.Taken? then 1 else 0) == Waited(m)
  {
    if m.pending.Some? && camera in m.pending.value.waiting {
      var w := m.pending.value.waiting;
      assert (w - {camera}).Keys == w.Keys - {camera};
      assert |w - {camera}| == |(w - {camera}).Keys| && |w| == |w.Keys|;
    }
  }

  /** Taking a frame asks for no more than was set aside for its camera. */
  lemma TookRoom(x: World, y: World, t: nat, f: M.Frame)
    requires Room(x) && Took(x, y, t, f)
    ensures Room(y)
  {
    HandleWaits(x.trig.mem, f.camera, f.frameId);
    hide Askings, Sum, Waited, T.TriggerMem.Handle, T.NextHand;
    SetAside(x.pipe.captures, y.pipe.captures, t - 1, f, Waited(x.trig.mem), Waited(y.trig.mem),
             x.pipe.mem.cfg.maxFrame);
  }

  /** One camera less waited for is worth a frame asked for. */
  lemma SetAside(a: seq<P.Producer>, b: seq<P.Producer>, t: nat, f: M.Frame, j: nat, k: nat, m: nat)
    requires t < |a| && a[t].Idle? && f.bytes <= m
    requires (b == a && k <= j) || (b == a[t := P.Loading(f)] && k + 1 <= j)
    ensures Sum(Askings(b)) + k * m <= Sum(Askings(a)) + j * m
  {
    AskingChanges(a, t, P.Loading(f));
    hide Askings, Sum;
    if b == a {
      Products.Monotone(k, j, m);
    } else {
      Products.Next(k, m);
      Products.Monotone(k + 1, j, m);
    }
  }

  lemma TookSafe(x: World, y: World, t: nat, f: M.Frame, s: nat, rearm: bool)
    requires Safe(x, s, rearm) && Took(x, y, t, f) && (Room(x) ==> Room(y))
    ensures Safe(y, s, rearm)
  {
    hide Room, Covered;
  }

  lemma TakeSafe(x: World, t: nat, f: M.Frame, s: nat, rearm: bool)
    requires Inv(x) && Safe(x, s, rearm) && Enabled(x, Take(t, f))
    ensures Safe(Step(x, Take(t, f)), s, rearm)
  {
    hide *;
    TakeShape(x, t, f);
    if Room(x) { TookRoom(x, Step(x, Take(t, f)), t, f); }
    TookSafe(x, Step(x, Take(t, f)), t, f, s, rearm);
  }

  /** What arming leaves alone. */
  predicate Rearmed(x: World, y: World) {
    && y.pipe == x.pipe && y.trig.threads == x.trig.threads && y.trig.refused == x.trig.refused
    && (y == x || (x.trig.mem.pending.None? && |y.trig.armed| == |x.trig.armed| + 1))
  }

  lemma ArmShape(x: World, cameras: seq<u32>, skip: int)
    requires Enabled(x, Arm(cameras, skip))
    ensures Rearmed(x, Step(x, Arm(cameras, skip)))
  {
    hide P.Apply;
  }

  /** Empty frames ask for nothing. */
  lemma RoomForNothing(x: World, y: World)
    requires Room(x) && x.pipe.mem.cfg.maxFrame == 0 && y.pipe == x.pipe
    ensures Room(y)
  {
    assert Waited(y.trig.mem) * 0 == 0 && Waited(x.trig.mem) * 0 == 0;
    hide Askings, Sum, Waited;
  }

  /** The pending trigger has completed: of its frames only the one in the capture
      thread's hand is left, if any. */
  lemma RoomForOne(x: World, y: World, s: nat)
    requires Coupled(x) && Room(x) && |x.trig.threads| == 2
    requires s + 1 == |x.trig.armed| && Rearmed(x, y) && y != x
    ensures Alone(y, s) || Over(y, s)
  {
    RoomAsks(x, 0);
    assert Hand(x.pipe.captures[0], x.trig.threads[1]);
    hide Room, Asking;
  }

  lemma RearmedSafe(x: World, y: World, s: nat)
    requires Safe(x, s, true) && Rearmed(x, y)
    requires Room(x) && x.pipe.mem.cfg.maxFrame == 0 ==> Room(y)
    requires Roomy(x, s, true) && x.pipe.mem.cfg.maxFrame != 0 && y != x ==> Alone(y, s) || Over(y, s)
    ensures Safe(y, s, true)
  {
    hide Room, Covered;
  }

  lemma ArmSafe(x: World, cameras: seq<u32>, skip: int, s: nat)
    requires Inv(x) && Safe(x, s, true) && Enabled(x, Arm(cameras, skip))
    ensures Safe(Step(x, Arm(cameras, skip)), s, true)
  {
    hide Inv, Step, Enabled, Safe, Room, Coupled, Alone, Over, Rearmed;
    var y := Step(x, Arm(cameras, skip));
    ArmShape(x, cameras, skip);
    InvCoupled(x);
    RearmedPipe(x, y);
    if Room(x) && x.pipe.mem.cfg.maxFrame == 0 { RoomForNothing(x, y); }
    if Roomy(x, s, true) && x.pipe.mem.cfg.maxFrame != 0 && y != x { RoomForOne(x, y, s); }
    RearmedSafe(x, y, s);
  }

  lemma RearmedPipe(x: World, y: World)
    requires Rearmed(x, y)
    ensures y.pipe == x.pipe
  {
  }

  /** Between sessions nothing of a trigger is pending or in a hand. */
  lemma SessionSafe(x: World, a: Action, s: nat, rearm: bool)
    requires Inv(x) && Safe(x, s, rearm) && Enabled(x, a) && (a.Start? || a.Stop?)
    ensures Safe(Step(x, a), s, rearm)
  {
    hide *;
    SessionOff(x, a);
    HandsEmpty(x);
    SessionEffect(x, a);
    SessionOver(x, Step(x, a), s, rearm);
  }

  lemma SessionEffect(x: World, a: Action)
    requires Inv(x) && Enabled(x, a) && (a.Start? || a.Stop?)
    ensures var v := Step(x, a).trig;
            && v.mem.pending.None? && v.refused == x.trig.refused && v.armed == x.trig.armed
            && |v.threads| == |x.trig.threads|
            && forall t :: 0 <= t < |v.threads| && v.threads[t].Queueing? ==> v.threads[t] == x.trig.threads[t]
  {
    PartsOf(x);
    hide Inv, P.Inv, P.Apply, P.Enabled, TS.Inv, TT.HandedInv, TT.Apart, TS.PendingOk;
  }

  lemma SessionOver(x: World, y: World, s: nat, rearm: bool)
    requires Safe(x, s, rearm) && y.trig.mem.pending.None? && y.trig.refused == x.trig.refused
    requires y.trig.armed == x.trig.armed && |y.trig.threads| == |x.trig.threads|
    requires forall t :: 0 <= t < |x.trig.threads| ==> !x.trig.threads[t].Queueing?
    requires forall t :: 0 <= t < |y.trig.threads| && y.trig.threads[t].Queueing? ==>
               y.trig.threads[t] == x.trig.threads[t]
    ensures Safe(y, s, rearm)
  {
    hide Room;
  }

  lemma SessionOff(x: World, a: Action)
    requires Inv(x) && Enabled(x, a) && (a.Start? || a.Stop?)
    ensures !x.pipe.camerasOn
  {
    InvPipe(x);
    hide Inv, P.Inv;
    StoppedCamerasOff(x.pipe);
  }

  /** The pipeline's other steps leave the threads alone and only free backlog. */
  lemma AsideSafe(x: World, v: P.World, s: nat, rearm: bool)
    requires Safe(x, s, rearm) && Aside(x.pipe, v)
    requires x.pipe.mem.cfg.mode.Trigger? ==>
               v.mem.backlog <= x.pipe.mem.backlog && v.mem.budget == x.pipe.mem.budget
    ensures Safe(x.(pipe := v), s, rearm)
  {
    hide Askings, Sum, Asking;
  }

  lemma OtherSafe(x: World, a: P.Action, s: nat, rearm: bool)
    requires Inv(x) && Safe(x, s, rearm) && Enabled(x, Other(a))
    ensures Safe(Step(x, Other(a)), s, rearm)
  {
    hide Inv, Safe, Enabled, Step, P.Apply, P.Enabled, P.Structure;
    OtherIs(x, a);
    InvStructure(x);
    OtherCaptures(x.pipe, a);
    if x.pipe.mem.cfg.mode.Trigger? { OtherEffect(x.pipe, a); }
    AsideSafe(x, P.Apply(x.pipe, a), s, rearm);
  }

  lemma FireSafe(x: World, t: nat, s: nat, rearm: bool)
    requires Safe(x, s, rearm) && Enabled(x, Fire(t))
    ensures Safe(Step(x, Fire(t)), s, rearm)
  {
  }

  lemma StepSafe(x: World, a: Action, s: nat, rearm: bool)
    requires Inv(x) && Safe(x, s, rearm) && Enabled(x, a) && (a.Arm? ==> rearm)
    ensures Safe(Step(x, a), s, rearm)
  {
    hide *;
    match a
    case Start(_, _) => SessionSafe(x, a, s, rearm);
    case Stop => SessionSafe(x, a, s, rearm);
    case Take(t, f) => TakeSafe(x, t, f, s, rearm);
    case Produce(t, spurious) => ProduceSafe(x, t, spurious, s, rearm);
    case Fire(t) => FireSafe(x, t, s, rearm);
    case Other(p) => OtherSafe(x, p, s, rearm);
    case Arm(cameras, skip) => ArmSafe(x, cameras, skip, s);
  }

  /** No further trigger is armed. */
  predicate NoArm(acts: seq<Action>) { forall i :: 0 <= i < |acts| ==> !acts[i].Arm? }

  lemma {:induction false} RunSafe(x: World, acts: seq<Action>, s: nat, rearm: bool)
    requires Inv(x) && Safe(x, s, rearm) && IsRun(x, acts) && (rearm || NoArm(acts))
    ensures Safe(After(x, acts), s, rearm)
    decreases |acts|
  {
    hide Inv, Safe, Enabled, Step;
    if acts != [] {
      StepKeeps(x, acts[0]);
      StepSafe(x, acts[0], s, rearm);
      RunSafe(Step(x, acts[0]), acts[1..], s, rearm);
    }
  }

  // ---- a trigger just armed ---------------------------------------------------------------

  /** A trigger has just been armed in a running TRIGGER session that saves; no frame
      has been taken and no thread holds an earlier one. */
  ghost predicate Fresh(x: World) {
    && Inv(x) && x.pipe.camerasOn && x.pipe.mem.cfg.mode.Trigger? && x.pipe.mem.cfg.save
    && |x.trig.threads| > 1 && (forall t :: 0 <= t < |x.trig.threads| ==> x.trig.threads[t].Free?)
    && x.trig.mem.pending.Some? && x.trig.mem.pending.value.captures == []
  }

  lemma FreshSafe(x: World, rearm: bool)
    requires Fresh(x) && (rearm ==> |x.trig.threads| == 2 || x.pipe.mem.cfg.maxFrame == 0)
    requires x.pipe.mem.backlog + Waited(x.trig.mem) * x.pipe.mem.cfg.maxFrame <= x.pipe.mem.budget
    ensures x.trig.armed != [] && Safe(x, |x.trig.armed| - 1, rearm)
  {
    FreshCameras(x);
    var s: nat := |x.trig.armed| - 1;
    forall c: T.Capture ensures (s, c) !in x.trig.refused {
      RefusedKnown(x.trig, s, c);
    }
    forall t | 0 <= t < |x.pipe.captures| ensures x.pipe.captures[t].Idle? {
      assert Hand(x.pipe.captures[t], x.trig.threads[t + 1]);
    }
    SumZero(Askings(x.pipe.captures));
    hide Parts;
  }

  /** Every armed camera is still waited for. */
  lemma FreshCameras(x: World)
    requires Fresh(x)
    ensures x.trig.armed != []
    ensures x.trig.mem.pending.value.waiting.Keys == x.trig.armed[|x.trig.armed| - 1].cameras
  {
    assert TS.PendingContent(x.trig);
    assert TS.CamerasOf([]) == {};
    hide P.Inv, TS.OnePlace, TS.Ids, Coupled, Booked, TT.HandedInv, TT.Apart;
  }

  lemma RefusedKnown(w: T.World, s: nat, c: T.Capture)
    requires TT.Apart(w) && s + 1 == |w.armed| && w.mem.pending.Some?
    requires w.mem.pending.value.waiting.Keys == w.armed[s].cameras
    ensures (s, c) !in w.refused
  {
    if TT.Settled(w, s, c) {
      assert TT.Known(w, s, c);
      assert TT.WaitedFor(w, s, c);
    }
  }
}
