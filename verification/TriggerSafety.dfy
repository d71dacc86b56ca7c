/** What the trigger keeps over every run: each armed trigger is resolved exactly
    once, its captured and waiting cameras always make up the armed set, and every
    captured frame is the one the request asked for. */
module TriggerSafety {
  import opened Types
  import opened Sums
  import opened Triggers

  /** The frames of camera `c` in the order its handler consumed them. */
  function FramesOf(history: seq<(u32, nat)>, c: u32): seq<nat> {
    if history == [] then []
    else
      var last := history[|history| - 1];
      FramesOf(history[..|history| - 1], c) + (if last.0 == c then [last.1] else [])
  }

  lemma FramesAppend(history: seq<(u32, nat)>, c: u32, x: (u32, nat))
    ensures FramesOf(history + [x], c) == FramesOf(history, c) + (if x.0 == c then [x.1] else [])
  {
    assert (history + [x])[..|history|] == history;
  }

  /** The captured frame is the one after the `skip` frames the camera discarded. */
  predicate CaptureOk(a: Armed, capture: Capture) {
    && capture.camera in a.cameras && capture.saved == a.save
    && a.skip < |FramesOf(a.history, capture.camera)|
    && FramesOf(a.history, capture.camera)[a.skip] == capture.frameId
  }

  function CamerasOf(captures: seq<Capture>): set<u32> {
    set i | 0 <= i < |captures| :: captures[i].camera
  }

  predicate Distinct(captures: seq<Capture>) {
    forall i, j :: 0 <= i < j < |captures| ==> captures[i].camera != captures[j].camera
  }

  predicate CapturesOk(a: Armed, captures: seq<Capture>) {
    && Distinct(captures)
    && forall i :: 0 <= i < |captures| ==> CaptureOk(a, captures[i])
  }

  /** Captured and waiting cameras partition the armed set; a waiting camera has
      consumed as many frames as it has already discarded. */
  ghost predicate PendingOk(a: Armed, p: Pending) {
    && p.id == a.id && p.waiting != map[]
    && CapturesOk(a, p.captures)
    && p.waiting.Keys !! CamerasOf(p.captures)
    && p.waiting.Keys + CamerasOf(p.captures) == a.cameras
    && forall c :: c in p.waiting ==> |FramesOf(a.history, c)| + p.waiting[c] == a.skip
  }

  /** A delivered result covers every armed camera exactly when it is not a
      cancellation. */
  predicate ResultOk(a: Armed, r: TriggerResult) {
    && r.id == a.id
    && CapturesOk(a, r.captures)
    && (!r.cancelled <==> CamerasOf(r.captures) == a.cameras)
  }

  function CarriesResult(h: Hand): Option<(nat, TriggerResult)> {
    match h
    case Queueing(s, _, Some(r)) => Some((s, r))
    case Firing(s, r) => Some((s, r))
    case _ => None
  }

  function HandAt1(h: Hand, s: nat): nat {
    if CarriesResult(h).Some? && CarriesResult(h).value.0 == s then 1 else 0
  }

  function HandsAt(hs: seq<Hand>, s: nat): (r: seq<nat>)
    ensures |r| == |hs|
  {
    seq(|hs|, i requires 0 <= i < |hs| => HandAt1(hs[i], s))
  }

  function FiredAt(fired: seq<(nat, TriggerResult)>, s: nat): (r: seq<nat>)
    ensures |r| == |fired|
  {
    seq(|fired|, i requires 0 <= i < |fired| => if fired[i].0 == s then 1 else 0)
  }

  function PendingAt(w: World, s: nat): nat {
    if w.mem.pending.Some? && s + 1 == |w.armed| then 1 else 0
  }

  /** How many times trigger `s` is delivered, about to be delivered or pending. */
  function Places(w: World, s: nat): nat {
    Sum(FiredAt(w.fired, s)) + Sum(HandsAt(w.threads, s)) + PendingAt(w, s)
  }

  ghost predicate OnePlace(w: World) {
    forall s: nat :: Places(w, s) == if s < |w.armed| then 1 else 0
  }

  ghost predicate Ids(w: World) {
    && w.mem.nextId == (|w.armed| + 1) % 0x1_0000_0000
    && forall s :: 0 <= s < |w.armed| ==> w.armed[s].id == (s + 1) % 0x1_0000_0000
  }

  ghost predicate PendingContent(w: World) {
    w.mem.pending.Some? ==>
      && w.mem.enabled && w.mem.mode.Trigger?
      && w.armed != [] && w.armed[|w.armed| - 1].save == w.mem.save
      && PendingOk(w.armed[|w.armed| - 1], w.mem.pending.value)
  }

  /** The result `x` is one of a trigger that was armed. */
  ghost predicate Resolves(w: World, x: (nat, TriggerResult)) {
    x.0 < |w.armed| && ResultOk(w.armed[x.0], x.1)
  }

  ghost predicate HandContent(w: World, h: Hand) {
    CarriesResult(h).Some? ==> Resolves(w, CarriesResult(h).value)
  }

  ghost predicate Content(w: World) {
    && PendingContent(w)
    && (forall i :: 0 <= i < |w.fired| ==> Resolves(w, w.fired[i]))
    && (forall t :: 0 <= t < |w.threads| ==> HandContent(w, w.threads[t]))
  }

  ghost predicate Inv(w: World) { OnePlace(w) && Ids(w) && Content(w) }

  // ---- stability -----------------------------------------------------------------

  /** Consuming one more frame changes no earlier capture. */
  lemma HistoryGrows(a: Armed, x: (u32, nat), captures: seq<Capture>)
    requires CapturesOk(a, captures)
    ensures CapturesOk(a.(history := a.history + [x]), captures)
  {
    forall i | 0 <= i < |captures|
      ensures CaptureOk(a.(history := a.history + [x]), captures[i])
    {
      FramesAppend(a.history, captures[i].camera, x);
      assert CaptureOk(a, captures[i]);
    }
  }

  lemma HandChanges(hs: seq<Hand>, t: nat, h: Hand, s: nat)
    requires t < |hs|
    ensures Sum(HandsAt(hs[t := h], s)) == Sum(HandsAt(hs, s)) - HandAt1(hs[t], s) + HandAt1(h, s)
  {
    assert HandsAt(hs[t := h], s) == HandsAt(hs, s)[t := HandAt1(h, s)];
    SumUpdate(HandsAt(hs, s), t, HandAt1(h, s));
  }

  lemma FiredGrows(fired: seq<(nat, TriggerResult)>, x: (nat, TriggerResult), s: nat)
    ensures Sum(FiredAt(fired + [x], s)) == Sum(FiredAt(fired, s)) + (if x.0 == s then 1 else 0)
  {
    var d: nat := if x.0 == s then 1 else 0;
    assert FiredAt(fired + [x], s) == FiredAt(fired, s) + [d];
    SumConcat(FiredAt(fired, s), [d]);
    assert Sum([d]) == d + Sum([d][1..]);
  }

  // ---- one frame of a pending trigger -----------------------------------------------

  /** Capturing camera `camera`'s frame moves it from waiting to captured. */
  lemma CaptureMoves(a: Armed, p: Pending, b: Armed, capture: Capture)
    requires PendingOk(a, p) && capture.camera in p.waiting
    requires b.id == a.id && b.cameras == a.cameras && b.skip == a.skip && b.save == a.save
    requires CapturesOk(b, p.captures) && CaptureOk(b, capture)
    ensures var more := p.captures + [capture];
            && CapturesOk(b, more)
            && (p.waiting - {capture.camera}).Keys == p.waiting.Keys - {capture.camera}
            && CamerasOf(more) == CamerasOf(p.captures) + {capture.camera}
  {
    hide FramesOf, CaptureOk;
    var more := p.captures + [capture];
    assert more[|p.captures|] == capture;
    forall c | c in CamerasOf(p.captures) ensures c in CamerasOf(more) {
      var i :| 0 <= i < |p.captures| && p.captures[i].camera == c;
      assert more[i].camera == c;
    }
    forall i | 0 <= i < |p.captures| ensures p.captures[i].camera != capture.camera {
      assert p.captures[i].camera in CamerasOf(p.captures);
    }
  }

  /** The locked part of `handleTriggerFrame` keeps the partition and counts the
      frame it consumed; what it finishes covers the whole armed set. */
  lemma HandleKeeps(m: TriggerMem, a: Armed, camera: u32, frameId: nat)
    requires m.pending.Some? && PendingOk(a, m.pending.value) && a.save == m.save
    ensures var b := a.(history := a.history + [(camera, frameId)]);
            var (n, h) := m.Handle(camera, frameId);
            && (n.pending.Some? ==> PendingOk(b, n.pending.value))
            && (h.Taken? ==>
                 && CaptureOk(b, h.capture)
                 && h.finished.Some? == n.pending.None?
                 && (h.finished.Some? ==> ResultOk(b, h.finished.value) && !h.finished.value.cancelled))
            && (!h.Taken? ==> n.pending.Some?)
  {
    var p := m.pending.value;
    var b := a.(history := a.history + [(camera, frameId)]);
    HistoryGrows(a, (camera, frameId), p.captures);
    forall c | c in p.waiting
      ensures FramesOf(b.history, c) == FramesOf(a.history, c) + (if camera == c then [frameId] else [])
    {
      FramesAppend(a.history, c, (camera, frameId));
    }
    hide FramesOf, CapturesOk, CamerasOf;
    if camera in p.waiting && p.waiting[camera] == 0 {
      CaptureMoves(a, p, b, Capture(camera, frameId, m.save));
      var rest := p.waiting - {camera};
      assert rest == map[] ==> rest.Keys == {};
    }
  }

  // ---- every step --------------------------------------------------------------------

  lemma InitHolds(n: nat)
    ensures Inv(Init(n))
  {
    forall s: nat ensures Places(Init(n), s) == 0 {
      SumZero(HandsAt(Init(n).threads, s));
    }
  }

  lemma ArmKeeps(w: World, cameras: seq<u32>, skip: int)
    requires Inv(w) && Enabled(w, Arm(cameras, skip))
    ensures Inv(Apply(w, Arm(cameras, skip)))
  {
    var v := Apply(w, Arm(cameras, skip));
    if v != w {
      assert cameras[0] in v.mem.pending.value.waiting;
      assert PendingOk(v.armed[|w.armed|], v.mem.pending.value);
      hide PendingOk, ResultOk, CaptureOk;
      forall s: nat ensures Places(v, s) == if s < |v.armed| then 1 else 0 {
        assert Places(w, s) == if s < |w.armed| then 1 else 0;
      }
    }
  }

  /** Results about a trigger whose history grew are still right. */
  lemma NotedKeeps(w: World, camera: u32, frameId: nat, s: nat, r: TriggerResult)
    requires s < |w.armed| && ResultOk(w.armed[s], r)
    ensures ResultOk(Noted(w, camera, frameId)[s], r)
  {
    HistoryGrows(w.armed[s], (camera, frameId), r.captures);
  }

  /** A capture thread leaves the lock with a result exactly when the trigger
      has just completed. */
  lemma FrameHand(w: World, t: nat, camera: u32, frameId: nat)
    requires Inv(w) && Enabled(w, Frame(t, camera, frameId))
    ensures var v := Apply(w, Frame(t, camera, frameId));
            && |v.armed| == |w.armed| && v.fired == w.fired
            && v.threads == w.threads[t := v.threads[t]]
            && forall s: nat ::
                 PendingAt(v, s) + HandAt1(v.threads[t], s) == PendingAt(w, s) + HandAt1(w.threads[t], s)
  {
    hide OnePlace, Ids, CapturesOk, CamerasOf, ResultOk, CaptureOk;
  }

  lemma FramePlaces(w: World, t: nat, camera: u32, frameId: nat)
    requires Inv(w) && Enabled(w, Frame(t, camera, frameId))
    ensures OnePlace(Apply(w, Frame(t, camera, frameId)))
  {
    var v := Apply(w, Frame(t, camera, frameId));
    FrameHand(w, t, camera, frameId);
    hide Apply, Content, HandAt1, PendingAt;
    forall s: nat ensures Places(v, s) == if s < |v.armed| then 1 else 0 {
      assert Places(w, s) == if s < |w.armed| then 1 else 0;
      HandChanges(w.threads, t, v.threads[t], s);
      hide Sum, HandsAt, FiredAt;
    }
  }

  /** What a frame changes. */
  lemma FrameShape(w: World, t: nat, camera: u32, frameId: nat)
    requires Enabled(w, Frame(t, camera, frameId))
    ensures var v := Apply(w, Frame(t, camera, frameId));
            && v == w.(mem := v.mem, armed := Noted(w, camera, frameId),
                       threads := w.threads[t := v.threads[t]])
            && |v.armed| == |w.armed| && |v.threads| == |w.threads|
            && v.mem == w.mem.Handle(camera, frameId).0
            && v.threads[t] == NextHand(Max(0, |w.armed| - 1), w.mem.Handle(camera, frameId).1)
  {
  }

  lemma FrameResolves(w: World, t: nat, camera: u32, frameId: nat, x: (nat, TriggerResult))
    requires Enabled(w, Frame(t, camera, frameId)) && Resolves(w, x)
    ensures Resolves(Apply(w, Frame(t, camera, frameId)), x)
  {
    FrameShape(w, t, camera, frameId);
    NotedKeeps(w, camera, frameId, x.0, x.1);
    hide Apply, Noted, ResultOk;
  }

  /** What the handler leaves pending, and what the thread carries out of it. */
  lemma FrameResult(w: World, t: nat, camera: u32, frameId: nat)
    requires Content(w) && Enabled(w, Frame(t, camera, frameId))
    ensures var v := Apply(w, Frame(t, camera, frameId));
            PendingContent(v) && HandContent(v, v.threads[t])
  {
    FrameShape(w, t, camera, frameId);
    assert PendingContent(w);
    hide Apply, Content;
    if w.mem.pending.Some? {
      HandleKeeps(w.mem, w.armed[|w.armed| - 1], camera, frameId);
      SessionKept(w.mem, camera, frameId);
      hide PendingOk, CaptureOk, ResultOk, TriggerMem.Handle;
    }
  }

  lemma SessionKept(m: TriggerMem, camera: u32, frameId: nat)
    ensures var n := m.Handle(camera, frameId).0;
            n.enabled == m.enabled && n.mode == m.mode && n.save == m.save && n.nextId == m.nextId
  {
  }

  lemma FrameContent(w: World, t: nat, camera: u32, frameId: nat)
    requires Content(w) && Enabled(w, Frame(t, camera, frameId))
    ensures Content(Apply(w, Frame(t, camera, frameId)))
  {
    FrameShape(w, t, camera, frameId);
    FrameResult(w, t, camera, frameId);
    hide Apply, Noted, Resolves, PendingContent;
    var v := Apply(w, Frame(t, camera, frameId));
    forall i | 0 <= i < |v.fired| ensures Resolves(v, v.fired[i]) {
      FrameResolves(w, t, camera, frameId, w.fired[i]);
    }
    forall u | 0 <= u < |v.threads| ensures HandContent(v, v.threads[u]) {
      if u != t && CarriesResult(w.threads[u]).Some? {
        assert HandContent(w, w.threads[u]);
        FrameResolves(w, t, camera, frameId, CarriesResult(w.threads[u]).value);
      }
    }
  }

  lemma FrameKeeps(w: World, t: nat, camera: u32, frameId: nat)
    requires Inv(w) && Enabled(w, Frame(t, camera, frameId))
    ensures Inv(Apply(w, Frame(t, camera, frameId)))
  {
    FramePlaces(w, t, camera, frameId);
    FrameContent(w, t, camera, frameId);
    hide OnePlace, Content;
  }

  lemma DeliverKeeps(w: World, a: Action)
    requires Inv(w) && (a.Store? || a.Fire?) && Enabled(w, a)
    ensures Inv(Apply(w, a))
  {
    var v := Apply(w, a);
    hide PendingOk, CaptureOk, ResultOk;
    forall s: nat ensures Places(v, s) == if s < |v.armed| then 1 else 0 {
      assert Places(w, s) == if s < |w.armed| then 1 else 0;
      HandChanges(w.threads, a.thread, v.threads[a.thread], s);
      if a.Fire? { FiredGrows(w.fired, (w.threads[a.thread].serial, w.threads[a.thread].result), s); }
      hide Sum, HandsAt, FiredAt;
    }
  }

  lemma StopKeeps(w: World)
    requires Inv(w) && Enabled(w, Stop)
    ensures Inv(Apply(w, Stop))
  {
    var v := Apply(w, Stop);
    if w.mem.pending.Some? {
      var p := w.mem.pending.value;
      var c :| c in p.waiting;
      assert c !in CamerasOf(p.captures) && c in w.armed[|w.armed| - 1].cameras;
    }
    hide CapturesOk, CamerasOf;
    forall s: nat ensures Places(v, s) == if s < |v.armed| then 1 else 0 {
      assert Places(w, s) == if s < |w.armed| then 1 else 0;
      HandChanges(w.threads, 0, v.threads[0], s);
      hide Sum, HandsAt, FiredAt;
    }
  }

  lemma StartKeeps(w: World, m: ProcessMode, save: bool)
    requires Inv(w) && Enabled(w, Start(m, save))
    ensures Inv(Apply(w, Start(m, save)))
  {
    var v := Apply(w, Start(m, save));
    forall s: nat ensures Places(v, s) == if s < |v.armed| then 1 else 0 {
      assert Places(w, s) == if s < |w.armed| then 1 else 0;
    }
  }

  lemma StepKeeps(w: World, a: Action)
    requires Inv(w) && Enabled(w, a)
    ensures Inv(Apply(w, a))
  {
    hide Inv, Enabled, Apply;
    match a
    case Start(m, save) => StartKeeps(w, m, save);
    case Arm(cameras, skip) => ArmKeeps(w, cameras, skip);
    case Frame(t, camera, frameId) => FrameKeeps(w, t, camera, frameId);
    case Store(_, _) => DeliverKeeps(w, a);
    case Fire(_) => DeliverKeeps(w, a);
    case Stop => StopKeeps(w);
  }

  lemma {:induction false} RunKeeps(w: World, acts: seq<Action>)
    requires Inv(w) && IsRun(w, acts)
    ensures Inv(After(w, acts))
    decreases |acts|
  {
    hide Inv, Enabled, Apply;
    if acts != [] {
      StepKeeps(w, acts[0]);
      RunKeeps(Apply(w, acts[0]), acts[1..]);
    }
  }
}
