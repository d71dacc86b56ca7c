/** What a client may rely on in TRIGGER mode, and one thing it may not. */
module TriggerTheorems {
  import opened Types
  import opened Sums
  import opened Triggers
  import opened TriggerSafety

  // ---- exactly once ------------------------------------------------------------------

  /** In a 0-1 sequence with sum 1 exactly one entry is set; with sum 0, none. */
  lemma {:induction false} OneSet(s: seq<nat>)
    requires forall i :: 0 <= i < |s| ==> s[i] <= 1
    requires Sum(s) <= 1
    ensures forall i, j :: 0 <= i < j < |s| ==> s[i] == 0 || s[j] == 0
    ensures Sum(s) == 1 ==> exists i :: 0 <= i < |s| && s[i] == 1
  {
    if s != [] {
      OneSet(s[1..]);
      if s[0] == 1 {
        forall j | 1 <= j < |s| ensures s[j] == 0 {
          assert s[j] == s[1..][j - 1];
          SumUpdate(s[1..], j - 1, 0);
        }
      } else {
        assert forall j :: 1 <= j < |s| ==> s[j] == s[1..][j - 1];
        if Sum(s) == 1 {
          var i :| 0 <= i < |s[1..]| && s[1..][i] == 1;
          assert s[i + 1] == 1;
        }
      }
    }
  }

  ghost predicate Delivered(w: World, s: nat) {
    exists i :: 0 <= i < |w.fired| && w.fired[i].0 == s
  }

  /** No trigger is delivered twice; once nothing is pending and no thread is
      still delivering, every armed trigger has been delivered. */
  lemma DeliveredExactlyOnce(n: nat, acts: seq<Action>)
    requires IsRun(Init(n), acts)
    ensures var w := After(Init(n), acts);
            && (forall i, j :: 0 <= i < j < |w.fired| ==> w.fired[i].0 != w.fired[j].0)
            && (w.mem.pending.None? && (forall t :: 0 <= t < |w.threads| ==> w.threads[t].Free?) ==>
                  forall s :: 0 <= s < |w.armed| ==> Delivered(w, s))
  {
    var w := After(Init(n), acts);
    InitHolds(n);
    RunKeeps(Init(n), acts);
    forall i, j | 0 <= i < j < |w.fired| ensures w.fired[i].0 != w.fired[j].0 {
      var s := w.fired[i].0;
      assert Places(w, s) == if s < |w.armed| then 1 else 0;
      OneSet(FiredAt(w.fired, s));
      assert FiredAt(w.fired, s)[i] == 1;
      assert FiredAt(w.fired, s)[j] == 0;
    }
    if w.mem.pending.None? && forall t :: 0 <= t < |w.threads| ==> w.threads[t].Free? {
      forall s | 0 <= s < |w.armed| ensures Delivered(w, s) {
        assert Places(w, s) == if s < |w.armed| then 1 else 0;
        SumZero(HandsAt(w.threads, s));
        OneSet(FiredAt(w.fired, s));
        var i :| 0 <= i < |FiredAt(w.fired, s)| && FiredAt(w.fired, s)[i] == 1;
        assert w.fired[i].0 == s;
      }
    }
  }

  /** While a trigger is pending the captured and the waiting cameras partition
      the armed set. A delivered result names each camera at most once, every
      capture is the `skip + 1`-th frame its camera's handler consumed since the
      arming, and the result covers all cameras exactly if it was not cancelled. */
  lemma CapturesAsAsked(n: nat, acts: seq<Action>)
    requires IsRun(Init(n), acts)
    ensures var w := After(Init(n), acts);
            && (w.mem.pending.Some? ==>
                  var p := w.mem.pending.value;
                  && w.armed != []
                  && p.waiting.Keys !! CamerasOf(p.captures)
                  && p.waiting.Keys + CamerasOf(p.captures) == w.armed[|w.armed| - 1].cameras)
            && forall i :: 0 <= i < |w.fired| ==>
                 w.fired[i].0 < |w.armed| && ResultOk(w.armed[w.fired[i].0], w.fired[i].1)
  {
    InitHolds(n);
    RunKeeps(Init(n), acts);
    hide CapturesOk, CamerasOf, OnePlace, ResultOk;
  }

  // ---- ids ----------------------------------------------------------------------------

  ghost predicate IdsRise(w: World) {
    forall i, j :: 0 <= i < j < |w.armed| ==> w.armed[i].id < w.armed[j].id
  }

  /** Trigger ids count up over the whole life of the processor, across any number
      of sessions: they rise strictly if and only if fewer than 2^32 triggers were
      armed, and the next one is 1 if and only if their number is 0 modulo 2^32. */
  lemma IdsIncrease(n: nat, acts: seq<Action>)
    requires IsRun(Init(n), acts)
    ensures var w := After(Init(n), acts);
            && w.mem.nextId == (|w.armed| + 1) % 0x1_0000_0000
            && (IdsRise(w) <==> |w.armed| < 0x1_0000_0000)
            && (w.mem.nextId == 1 <==> |w.armed| % 0x1_0000_0000 == 0)
  {
    hide *;
    InitHolds(n);
    RunKeeps(Init(n), acts);
    IdsOf(After(Init(n), acts));
  }

  lemma IdsOf(w: World)
    requires Inv(w)
    ensures w.mem.nextId == (|w.armed| + 1) % 0x1_0000_0000
    ensures IdsRise(w) <==> |w.armed| < 0x1_0000_0000
    ensures w.mem.nextId == 1 <==> |w.armed| % 0x1_0000_0000 == 0
  {
    hide Content, OnePlace;
    if |w.armed| >= 0x1_0000_0000 {
      assert w.armed[0].id == 1 && w.armed[0xFFFF_FFFF].id == 0;
    }
  }

  /** `start` does not reset them: the first trigger of a second session is
      number 2. */
  lemma SecondSessionGoesOn(camera: u32) returns (acts: seq<Action>)
    ensures IsRun(Init(1), acts)
    ensures var w := After(Init(1), acts);
            && w.mem.enabled && w.mem.mode.Trigger? && w.mem.pending.None? && w.mem.nextId == 2
            && w.mem.Arm([camera], 0).1 == Some(2)
  {
    var w0 := Init(1);
    var w1 := Apply(w0, Start(Trigger, true));
    var w2 := Apply(w1, Arm([camera], 0));
    var w3 := Apply(w2, Stop);
    var w4 := Apply(w3, Fire(0));
    var w5 := Apply(w4, Start(Trigger, true));
    One(w0, Start(Trigger, true));
    One(w1, Arm([camera], 0));
    One(w2, Stop);
    One(w3, Fire(0));
    One(w4, Start(Trigger, true));
    acts := [Start(Trigger, true)];
    Concat(w0, acts, [Arm([camera], 0)]);
    acts := acts + [Arm([camera], 0)];
    Concat(w0, acts, [Stop]);
    acts := acts + [Stop];
    Concat(w0, acts, [Fire(0)]);
    acts := acts + [Fire(0)];
    Concat(w0, acts, [Start(Trigger, true)]);
    acts := acts + [Start(Trigger, true)];
  }

  // ---- when the acknowledgement may fire ----------------------------------------------

  /** The frame's fate is settled: it was pushed into the write queue or dropped. */
  predicate Settled(w: World, s: nat, c: Capture) { (s, c) in w.queued || (s, c) in w.refused }

  predicate Holds(h: Hand, s: nat, c: Capture) { h.Queueing? && h.serial == s && h.capture == c }

  ghost predicate InHand(w: World, s: nat, c: Capture) {
    exists t :: 0 <= t < |w.threads| && Holds(w.threads[t], s, c)
  }

  ghost predicate OnItsWay(w: World, s: nat, c: Capture) {
    c.saved ==> Settled(w, s, c) || InHand(w, s, c)
  }

  ghost predicate AllOnTheirWay(w: World, s: nat, captures: seq<Capture>) {
    forall i :: 0 <= i < |captures| ==> OnItsWay(w, s, captures[i])
  }

  predicate LastSettled(w: World, s: nat, r: TriggerResult) {
    !r.cancelled && r.captures != [] && r.captures[|r.captures| - 1].saved ==>
      Settled(w, s, r.captures[|r.captures| - 1])
  }

  ghost predicate HandOnItsWay(w: World, h: Hand) {
    match h
    case Free => true
    case Queueing(s, c, None) => true
    case Queueing(s, c, Some(r)) =>
      AllOnTheirWay(w, s, r.captures) && r.captures != [] && r.captures[|r.captures| - 1] == c
    case Firing(s, r) => AllOnTheirWay(w, s, r.captures) && LastSettled(w, s, r)
  }

  ghost predicate HandedInv(w: World) {
    && (w.mem.pending.Some? ==>
          (w.armed != [] && AllOnTheirWay(w, |w.armed| - 1, w.mem.pending.value.captures)))
    && (forall i :: 0 <= i < |w.fired| ==>
          && AllOnTheirWay(w, w.fired[i].0, w.fired[i].1.captures)
          && LastSettled(w, w.fired[i].0, w.fired[i].1))
    && (forall t :: 0 <= t < |w.threads| ==> HandOnItsWay(w, w.threads[t]))
  }

  /** A step of one thread that settles what it was queueing strands nobody. */
  lemma WayStep(w: World, v: World, t: nat, s: nat, captures: seq<Capture>)
    requires t < |w.threads| == |v.threads|
    requires w.queued <= v.queued && w.refused <= v.refused
    requires forall u :: 0 <= u < |w.threads| && u != t ==> v.threads[u] == w.threads[u]
    requires w.threads[t].Queueing? ==> Settled(v, w.threads[t].serial, w.threads[t].capture)
    requires AllOnTheirWay(w, s, captures)
    ensures AllOnTheirWay(v, s, captures)
  {
    forall i | 0 <= i < |captures| ensures OnItsWay(v, s, captures[i]) {
      assert OnItsWay(w, s, captures[i]);
      if captures[i].saved && !Settled(w, s, captures[i]) {
        var u :| 0 <= u < |w.threads| && Holds(w.threads[u], s, captures[i]);
        if u != t { assert Holds(v.threads[u], s, captures[i]); }
      }
    }
  }

  lemma FrameHanded(w: World, t: nat, camera: u32, frameId: nat)
    requires Inv(w) && HandedInv(w) && Enabled(w, Frame(t, camera, frameId))
    ensures HandedInv(Apply(w, Frame(t, camera, frameId)))
  {
    var v := Apply(w, Frame(t, camera, frameId));
    forall s: nat, cs: seq<Capture> | AllOnTheirWay(w, s, cs) ensures AllOnTheirWay(v, s, cs) {
      WayStep(w, v, t, s, cs);
    }
    hide Inv, AllOnTheirWay, InHand;
    if w.mem.pending.Some? && w.mem.Handle(camera, frameId).1.Taken? {
      var s := |w.armed| - 1;
      var c := Capture(camera, frameId, w.mem.save);
      var cs := w.mem.pending.value.captures;
      HandHolds(v, t, s, c);
      WayAppend(v, s, cs, c);
    }
  }

  lemma HandHolds(w: World, t: nat, s: nat, c: Capture)
    requires t < |w.threads| && (c.saved ==> Holds(w.threads[t], s, c))
    ensures OnItsWay(w, s, c)
  {
  }

  lemma WayAppend(w: World, s: nat, cs: seq<Capture>, c: Capture)
    requires AllOnTheirWay(w, s, cs) && OnItsWay(w, s, c)
    ensures AllOnTheirWay(w, s, cs + [c])
  {
  }

  lemma DeliverHanded(w: World, a: Action)
    requires HandedInv(w) && Enabled(w, a) && (a.Store? || a.Fire?)
    ensures HandedInv(Apply(w, a))
  {
    var v := Apply(w, a);
    forall s: nat, cs: seq<Capture> | AllOnTheirWay(w, s, cs) ensures AllOnTheirWay(v, s, cs) {
      WayStep(w, v, a.thread, s, cs);
    }
    assert HandOnItsWay(w, w.threads[a.thread]);
    hide AllOnTheirWay;
    forall u | 0 <= u < |v.threads| ensures HandOnItsWay(v, v.threads[u]) {
      assert HandOnItsWay(w, w.threads[u]);
    }
  }

  lemma ControlHanded(w: World, a: Action)
    requires Inv(w) && HandedInv(w) && Enabled(w, a) && (a.Start? || a.Arm? || a.Stop?)
    ensures HandedInv(Apply(w, a))
  {
    var v := Apply(w, a);
    forall s: nat, cs: seq<Capture> | AllOnTheirWay(w, s, cs) ensures AllOnTheirWay(v, s, cs) {
      WayStep(w, v, 0, s, cs);
    }
    if a.Arm? && v.armed != [] { assert AllOnTheirWay(v, |v.armed| - 1, []); }
    hide OnePlace, Ids, AllOnTheirWay;
    forall u | 0 <= u < |v.threads| ensures HandOnItsWay(v, v.threads[u]) {
      assert HandOnItsWay(w, w.threads[u]);
    }
  }

  // ---- settled once ---------------------------------------------------------------------

  ghost predicate Known(w: World, s: nat, c: Capture) { Settled(w, s, c) || InHand(w, s, c) }

  /** No camera's frame of a trigger is in two of the three places, and a camera
      still waited for is in none. */
  ghost predicate Apart(w: World) {
    && (forall s: nat, c: Capture, d: Capture :: ((s, c) in w.queued && (s, d) in w.refused) ==>
          c.camera != d.camera)
    && (forall t, s: nat, c: Capture, d: Capture ::
          (0 <= t < |w.threads| && Holds(w.threads[t], s, c) && Settled(w, s, d)) ==> c.camera != d.camera)
    && (forall t, u, s: nat, c: Capture, d: Capture ::
          (&& 0 <= t < |w.threads| && 0 <= u < |w.threads| && t != u
           && Holds(w.threads[t], s, c) && Holds(w.threads[u], s, d)) ==> c.camera != d.camera)
    && (forall s: nat, c: Capture :: Known(w, s, c) ==>
          s < |w.armed| && c.camera in w.armed[s].cameras && !WaitedFor(w, s, c))
  }

  /** A frame taken belongs to the trigger pending and to a camera waited for. */
  predicate WaitedFor(w: World, s: nat, c: Capture) {
    w.mem.pending.Some? && c.camera in w.mem.pending.value.waiting && s + 1 == |w.armed|
  }

  lemma FrameTaken(w: World, t: nat, camera: u32, frameId: nat, s: nat, c: Capture)
    requires Inv(w) && Enabled(w, Frame(t, camera, frameId))
    requires Holds(Apply(w, Frame(t, camera, frameId)).threads[t], s, c)
    ensures WaitedFor(w, s, c) && c.camera in w.armed[s].cameras
  {
  }

  lemma FrameKnown(w: World, t: nat, camera: u32, frameId: nat, s: nat, c: Capture)
    requires Enabled(w, Frame(t, camera, frameId))
    requires Known(Apply(w, Frame(t, camera, frameId)), s, c)
    ensures Known(w, s, c) || Holds(Apply(w, Frame(t, camera, frameId)).threads[t], s, c)
  {
    var v := Apply(w, Frame(t, camera, frameId));
    FrameShape(w, t, camera, frameId);
    hide Apply;
    if !Settled(w, s, c) {
      var u :| 0 <= u < |v.threads| && Holds(v.threads[u], s, c);
      if u != t { assert Holds(w.threads[u], s, c); }
    }
  }

  lemma FrameWaiting(w: World, t: nat, camera: u32, frameId: nat, s: nat, c: Capture)
    requires Inv(w) && Enabled(w, Frame(t, camera, frameId))
    requires WaitedFor(Apply(w, Frame(t, camera, frameId)), s, c)
    ensures WaitedFor(w, s, c)
    ensures !Holds(Apply(w, Frame(t, camera, frameId)).threads[t], s, c)
  {
  }

  lemma FrameApart(w: World, t: nat, camera: u32, frameId: nat)
    requires Inv(w) && Apart(w) && Enabled(w, Frame(t, camera, frameId))
    ensures Apart(Apply(w, Frame(t, camera, frameId)))
  {
    var v := Apply(w, Frame(t, camera, frameId));
    FrameShape(w, t, camera, frameId);
    hide Inv, Apply;
    forall s: nat, c: Capture | Known(v, s, c)
      ensures s < |v.armed| && c.camera in v.armed[s].cameras && !WaitedFor(v, s, c)
    {
      FrameKnown(w, t, camera, frameId, s, c);
      if Holds(v.threads[t], s, c) { FrameTaken(w, t, camera, frameId, s, c); }
      if WaitedFor(v, s, c) { FrameWaiting(w, t, camera, frameId, s, c); }
    }
    forall u, x, s: nat, c: Capture, d: Capture
      | 0 <= u < |v.threads| && 0 <= x < |v.threads| && u != x
        && Holds(v.threads[u], s, c) && Holds(v.threads[x], s, d)
      ensures c.camera != d.camera
    {
      if u == t {
        FrameTaken(w, t, camera, frameId, s, c);
        HoldsKnown(w, x, s, d);
        assert c.camera == d.camera ==> WaitedFor(w, s, d);
      } else if x == t {
        FrameTaken(w, t, camera, frameId, s, d);
        HoldsKnown(w, u, s, c);
        assert c.camera == d.camera ==> WaitedFor(w, s, c);
      }
    }
    forall u, s: nat, c: Capture, d: Capture
      | 0 <= u < |v.threads| && Holds(v.threads[u], s, c) && Settled(v, s, d)
      ensures c.camera != d.camera
    {
      if u == t {
        FrameTaken(w, t, camera, frameId, s, c);
        assert c.camera == d.camera ==> WaitedFor(w, s, d);
      }
    }
  }

  lemma HoldsKnown(w: World, t: nat, s: nat, c: Capture)
    requires t < |w.threads| && Holds(w.threads[t], s, c)
    ensures Known(w, s, c)
  {
  }

  lemma OtherKnown(w: World, a: Action, s: nat, c: Capture)
    requires Enabled(w, a) && !a.Frame? && Known(Apply(w, a), s, c)
    ensures Known(w, s, c)
  {
    var v := Apply(w, a);
    if Settled(v, s, c) {
      if !Settled(w, s, c) { assert Holds(w.threads[a.thread], s, c); }
    } else {
      var u :| 0 <= u < |v.threads| && Holds(v.threads[u], s, c);
      assert Holds(w.threads[u], s, c);
    }
  }

  lemma OtherApart(w: World, a: Action)
    requires Inv(w) && Apart(w) && Enabled(w, a) && !a.Frame?
    ensures Apart(Apply(w, a))
  {
    var v := Apply(w, a);
    forall s: nat, c: Capture | Known(v, s, c) ensures Known(w, s, c) {
      OtherKnown(w, a, s, c);
    }
    forall u, s: nat, c: Capture | 0 <= u < |v.threads| && Holds(v.threads[u], s, c)
      ensures 0 <= u < |w.threads| && Holds(w.threads[u], s, c)
    {
    }
    if a.Store? {
      var h := w.threads[a.thread];
      assert Holds(h, h.serial, h.capture);
    }
    hide OnePlace, Ids, Content, Known, InHand;
  }

  lemma StepHanded(w: World, a: Action)
    requires Inv(w) && HandedInv(w) && Apart(w) && Enabled(w, a)
    ensures HandedInv(Apply(w, a)) && Apart(Apply(w, a))
  {
    hide *;
    match a
    case Frame(t, camera, frameId) =>
      FrameHanded(w, t, camera, frameId);
      FrameApart(w, t, camera, frameId);
    case Store(_, _) => DeliverHanded(w, a); OtherApart(w, a);
    case Fire(_) => DeliverHanded(w, a); OtherApart(w, a);
    case Start(_, _) => ControlHanded(w, a); OtherApart(w, a);
    case Arm(_, _) => ControlHanded(w, a); OtherApart(w, a);
    case Stop => ControlHanded(w, a); OtherApart(w, a);
  }

  lemma {:induction false} RunHanded(w: World, acts: seq<Action>)
    requires Inv(w) && HandedInv(w) && Apart(w) && IsRun(w, acts)
    ensures Inv(After(w, acts)) && HandedInv(After(w, acts)) && Apart(After(w, acts))
    decreases |acts|
  {
    hide Inv, HandedInv, Apart, Enabled, Apply;
    if acts != [] {
      StepKeeps(w, acts[0]);
      StepHanded(w, acts[0]);
      RunHanded(Apply(w, acts[0]), acts[1..]);
    }
  }

  lemma ReachedHanded(n: nat, acts: seq<Action>)
    requires IsRun(Init(n), acts)
    ensures var w := After(Init(n), acts); Inv(w) && HandedInv(w) && Apart(w)
  {
    InitHolds(n);
    assert HandedInv(Init(n)) && Apart(Init(n));
    RunHanded(Init(n), acts);
  }

  /** Exactly one of three. */
  predicate OneOf(a: bool, b: bool, c: bool) { (a || b || c) && !(a && b) && !(a && c) && !(b && c) }

  /** When a result has been delivered, each of its frames that was to be saved is
      in the write queue, was refused, or is still in a thread's hand, and in only
      one of these; the frame that completed the trigger is queued or refused. */
  lemma CapturesSettleOnce(n: nat, acts: seq<Action>, i: nat)
    requires IsRun(Init(n), acts) && i < |After(Init(n), acts).fired|
    ensures SettledOnce(After(Init(n), acts), i)
  {
    ReachedHanded(n, acts);
    SettleOnce(After(Init(n), acts), i);
  }

  ghost predicate SettledOnce(w: World, i: nat)
    requires i < |w.fired|
  {
    var (s, r) := w.fired[i];
    && LastSettled(w, s, r)
    && forall k :: 0 <= k < |r.captures| && r.captures[k].saved ==>
         OneOf((s, r.captures[k]) in w.queued, (s, r.captures[k]) in w.refused,
               InHand(w, s, r.captures[k]))
  }

  lemma SettleOnce(w: World, i: nat)
    requires HandedInv(w) && Apart(w) && i < |w.fired|
    ensures SettledOnce(w, i)
  {
    var (s, r) := w.fired[i];
    forall k | 0 <= k < |r.captures| && r.captures[k].saved
      ensures OneOf((s, r.captures[k]) in w.queued, (s, r.captures[k]) in w.refused,
                    InHand(w, s, r.captures[k]))
    {
      assert AllOnTheirWay(w, s, r.captures);
      assert OnItsWay(w, s, r.captures[k]);
    }
  }
}
