/** What becomes of the frames a trigger takes, and when the backlog budget can
    refuse one although the trigger is acknowledged
    (src/frame_processor.cpp:276-303, 444-457). */
module TriggerRefusals {
  import opened Types
  import Products
  import M = ProcessorMemory
  import P = Pipeline
  import T = Triggers
  import TS = TriggerSafety
  import TT = TriggerTheorems
  import opened TriggerPool
  import opened TriggerRoom

  // ---- where the frames go -----------------------------------------------------------

  /** In every run of the whole processor: each frame of a delivered trigger that was
      to be saved is in the write queue's books, was refused, or is in a thread's
      hand, and in only one of these; the completing one is queued or refused. Of a
      TRIGGER session the frames accepted by the pipeline are exactly those queued,
      in order, and the dropped counter counts exactly those refused. */
  lemma CapturesAccounted(n: nat, acts: seq<Action>)
    requires IsRun(Init(n), acts)
    ensures var x := After(Init(n), acts);
            && Booked(x)
            && x.pipe.mem.backlog == P.Held(x.pipe) && x.pipe.mem.backlog <= x.pipe.mem.budget
            && forall i :: 0 <= i < |x.trig.fired| ==> TT.SettledOnce(x.trig, i)
  {
    InitHolds(n);
    RunKeeps(Init(n), acts);
    var x := After(Init(n), acts);
    forall i | 0 <= i < |x.trig.fired| ensures TT.SettledOnce(x.trig, i) {
      TT.SettleOnce(x.trig, i);
    }
    hide Booked, Coupled, TS.Inv, TT.HandedInv, TT.Apart, TT.SettledOnce;
  }

  /** The step that decides: the frame is queued if its bytes were reserved, refused
      if they do not fit the value the thread last read, and otherwise undecided. */
  lemma DecidedExactly(x: World, t: nat, spurious: bool)
    requires Inv(x) && Enabled(x, Produce(t, spurious)) && x.trig.threads[t].Queueing?
    ensures var y := Step(x, Produce(t, spurious)); var p := x.pipe.captures[t - 1];
            var one := (x.trig.threads[t].serial, x.trig.threads[t].capture);
            && (y.trig.queued == x.trig.queued + [one] <==> p.Reserved?)
            && (y.trig.refused == x.trig.refused + [one] <==>
                  p.Trying? && !x.pipe.mem.Fits(p.held, p.frame.bytes))
  {
    ProduceShape(x, t, spurious);
    EndsExactly(x.pipe.mem, x.pipe.captures[t - 1], spurious);
    hide Step, Inv, P.Apply, P.Advance, P.Enabled, M.Memory.Fits, Enabled;
  }

  lemma EndsExactly(m: M.Memory, p: P.Producer, spurious: bool)
    requires !p.Idle?
    ensures P.Advance(m, p, spurious).1.Idle? <==>
              p.Reserved? || (p.Trying? && !m.Fits(p.held, p.frame.bytes))
  {
    hide M.Memory.Fits, M.Memory.Accept, AddSize;
  }

  // ---- too little room ------------------------------------------------------------------

  /** Thread `t` can serve the pending trigger of a running TRIGGER session that saves. */
  ghost predicate Ready(x: World, t: nat) {
    && Inv(x) && 0 < t < |x.trig.threads| && x.trig.threads[t].Free?
    && x.pipe.camerasOn && x.pipe.mem.cfg.mode.Trigger? && x.pipe.mem.cfg.save
    && x.trig.mem.pending.Some?
  }

  /** Same session, same trigger, cameras still running; only thread `t` has moved. */
  predicate Ongoing(x: World, y: World, t: nat) {
    && SameSession(x.pipe, y.pipe) && y.pipe.camerasOn == x.pipe.camerasOn
    && |y.trig.armed| == |x.trig.armed|
    && |y.trig.threads| == |x.trig.threads| && |y.pipe.captures| == |x.pipe.captures|
    && (forall u :: 0 <= u < |x.trig.threads| && u != t ==> y.trig.threads[u] == x.trig.threads[u])
    && (forall u :: 0 <= u < |x.pipe.captures| && u + 1 != t ==> y.pipe.captures[u] == x.pipe.captures[u])
  }

  /** The largest frame camera `c` can deliver. */
  function Largest(x: World, c: u32): M.Frame { M.Frame(c, 0, x.pipe.mem.cfg.maxFrame) }

  lemma TakeEnabled(x: World, t: nat, c: u32)
    requires Ready(x, t)
    ensures Enabled(x, Take(t, Largest(x, c)))
  {
    assert Hand(x.pipe.captures[t - 1], x.trig.threads[t]);
    hide Parts, Booked, Wanted;
  }

  lemma TakeOngoing(x: World, t: nat, c: u32)
    requires Ready(x, t)
    ensures Enabled(x, Take(t, Largest(x, c)))
    ensures var f := Largest(x, c); var y := Step(x, Take(t, f));
            Inv(y) && Ongoing(x, y, t) && Took(x, y, t, f)
  {
    hide *;
    var f := Largest(x, c);
    TakeEnabled(x, t, c);
    ReadyInv(x, t);
    StepKeeps(x, Take(t, f));
    TakeShape(x, t, f);
    TookOngoing(x, Step(x, Take(t, f)), t, f);
  }

  lemma ReadyInv(x: World, t: nat)
    requires Ready(x, t)
    ensures Inv(x) && x.pipe.mem.cfg.mode.Trigger?
  {
    hide Inv;
  }

  lemma TookOngoing(x: World, y: World, t: nat, f: M.Frame)
    requires Took(x, y, t, f) && x.pipe.mem.cfg.mode.Trigger?
    ensures Ongoing(x, y, t)
  {
    hide Wanted, T.NextHand, T.TriggerMem.Handle;
  }

  /** Discarding the settling frames of a camera. */
  lemma {:induction false} SkipFrames(x: World, t: nat, c: u32) returns (acts: seq<Action>)
    requires Ready(x, t) && c in x.trig.mem.pending.value.waiting
    ensures IsRun(x, acts) && NoArm(acts)
    ensures var y := After(x, acts);
            && Ready(y, t) && Ongoing(x, y, t) && y.pipe.mem.backlog == x.pipe.mem.backlog
            && y.trig.mem.pending.value.waiting.Keys == x.trig.mem.pending.value.waiting.Keys
            && y.trig.mem.pending.value.waiting[c] == 0
    decreases x.trig.mem.pending.value.waiting[c]
  {
    hide Inv, Step, Enabled, Ongoing;
    acts := [];
    if x.trig.mem.pending.value.waiting[c] > 0 {
      SkipOne(x, t, c);
      var y := Step(x, Take(t, Largest(x, c)));
      One(x, Take(t, Largest(x, c)));
      var rest := SkipFrames(y, t, c);
      Concat(x, [Take(t, Largest(x, c))], rest);
      acts := [Take(t, Largest(x, c))] + rest;
      OngoingChain(x, y, After(y, rest), t);
    } else {
      OngoingSelf(x, t);
    }
  }

  lemma OngoingSelf(x: World, t: nat)
    ensures Ongoing(x, x, t)
  {
  }

  lemma OngoingChain(x: World, y: World, z: World, t: nat)
    requires Ongoing(x, y, t) && Ongoing(y, z, t)
    ensures Ongoing(x, z, t)
  {
  }

  lemma SkipOne(x: World, t: nat, c: u32)
    requires Ready(x, t) && c in x.trig.mem.pending.value.waiting
    requires x.trig.mem.pending.value.waiting[c] > 0
    ensures Enabled(x, Take(t, Largest(x, c)))
    ensures var y := Step(x, Take(t, Largest(x, c))); var w := x.trig.mem.pending.value.waiting;
            && Ready(y, t) && Ongoing(x, y, t) && y.pipe.mem.backlog == x.pipe.mem.backlog
            && y.trig.mem.pending.value.waiting == w[c := w[c] - 1]
  {
    TakeOngoing(x, t, c);
    SkipEffect(x.trig.mem, c);
    hide Inv, Step, Enabled, T.TriggerMem.Handle, T.NextHand;
  }

  lemma SkipEffect(m: T.TriggerMem, c: u32)
    requires m.pending.Some? && c in m.pending.value.waiting && m.pending.value.waiting[c] > 0
    ensures var (n, h) := m.Handle(c, 0);
            && h.Skipped? && n.pending.Some?
            && n.pending.value.waiting == m.pending.value.waiting[c := m.pending.value.waiting[c] - 1]
            && T.NextHand(0, h).Free?
            && forall s: nat :: T.NextHand(s, h).Free?
  {
  }

  /** Thread `t` holds frame `f` of trigger `s`, at stage `p` of storing it. */
  ghost predicate Busy(x: World, t: nat, s: nat, f: M.Frame, p: P.Producer) {
    && Inv(x) && 0 < t < |x.trig.threads| && x.pipe.camerasOn && x.pipe.mem.cfg.mode.Trigger?
    && |x.trig.threads| == |x.pipe.captures| + 1
    && x.trig.threads[t].Queueing? && x.trig.threads[t].serial == s
    && !p.Idle? && p.frame == f && x.pipe.captures[t - 1] == p
  }

  lemma BusyEnabled(x: World, t: nat, s: nat, f: M.Frame, p: P.Producer)
    requires Busy(x, t, s, f, p)
    ensures Inv(x) && Enabled(x, Produce(t, false))
    ensures t <= |x.pipe.captures| && x.pipe.captures[t - 1] == p && NextStage(x, t, false) == P.Advance(x.pipe.mem, p, false).1
  {
    hide Inv, P.Advance;
  }

  lemma BusyAfter(x: World, y: World, t: nat, s: nat, f: M.Frame, p: P.Producer, q: P.Producer)
    requires Busy(x, t, s, f, p) && Produced(x, y, t, q) && Inv(y)
    ensures Ongoing(x, y, t) && y.trig.mem == x.trig.mem && y.trig.fired == x.trig.fired
    ensures !q.Idle? ==> Busy(y, t, s, f, q) && y.trig == x.trig
    ensures q.Idle? ==> Stored(x.trig, y.trig, t, p.Reserved?)
  {
    hide Inv, T.Relieved;
  }

  lemma StoredHand(w: T.World, v: T.World, t: nat, granted: bool)
    requires Stored(w, v, t, granted)
    ensures v.threads[t] == T.Relieved(w.threads[t])
  {
  }

  /** One step of storing, without a spurious failure. */
  lemma StoreStep(x: World, t: nat, s: nat, f: M.Frame, p: P.Producer)
    requires Busy(x, t, s, f, p)
    ensures Enabled(x, Produce(t, false))
    ensures var y := Step(x, Produce(t, false)); var (m, q) := P.Advance(x.pipe.mem, p, false);
            && Inv(y) && Ongoing(x, y, t) && y.trig.mem == x.trig.mem && y.pipe.mem.backlog == m.backlog
            && y.trig.fired == x.trig.fired
            && (!q.Idle? ==> Busy(y, t, s, f, q) && y.trig == x.trig)
            && (q.Idle? ==> Stored(x.trig, y.trig, t, p.Reserved?)
                            && y.trig.threads[t] == T.Relieved(x.trig.threads[t]))
  {
    hide *;
    BusyEnabled(x, t, s, f, p);
    ProduceIs(x, t, false);
    StepKeeps(x, Produce(t, false));
    ProduceShape(x, t, false);
    ProduceBacklog(x.pipe, t - 1, false);
    var y := Step(x, Produce(t, false));
    BusyAfter(x, y, t, s, f, p, NextStage(x, t, false));
    if P.Advance(x.pipe.mem, p, false).1.Idle? { StoredHand(x.trig, y.trig, t, p.Reserved?); }
  }

  predicate Fitting(x: World, f: M.Frame) { x.pipe.mem.backlog + f.bytes <= x.pipe.mem.budget }

  /** What the reservation does without another thread in between. */
  lemma AloneSteps(m: M.Memory, f: M.Frame)
    requires 0 < m.budget && m.budget + m.cfg.maxFrame < SIZE_MODULUS
    requires m.backlog <= m.budget && f.bytes <= m.cfg.maxFrame
    ensures P.Advance(m, P.Loading(f), false) == (m, P.Trying(f, m.backlog))
    ensures var (n, q) := P.Advance(m, P.Trying(f, m.backlog), false);
            if m.backlog + f.bytes <= m.budget
            then n == m.(backlog := m.backlog + f.bytes) && q == P.Reserved(f)
            else n.backlog == m.backlog && q == P.Idle
    ensures P.Advance(m, P.Reserved(f), false).1 == P.Idle
    ensures P.Advance(m, P.Reserved(f), false).0.backlog == m.backlog
  {
    hide M.Memory.Accept;
  }

  /** A thread stores its frame alone: queued if it fits, refused if not. */
  lemma StoreAlone(x: World, t: nat, s: nat, f: M.Frame) returns (acts: seq<Action>)
    requires Busy(x, t, s, f, P.Loading(f))
    ensures IsRun(x, acts) && NoArm(acts)
    ensures var y := After(x, acts);
            && Inv(y) && Ongoing(x, y, t) && y.trig.mem == x.trig.mem
            && Stored(x.trig, y.trig, t, Fitting(x, f)) && y.trig.fired == x.trig.fired
            && y.trig.threads[t] == T.Relieved(x.trig.threads[t])
            && (Fitting(x, f) ==> y.pipe.mem.backlog == x.pipe.mem.backlog + f.bytes)
  {
    hide Inv, Step, Enabled, P.Advance, P.Apply, Stored;
    BusyFacts(x, t, s, f, P.Loading(f));
    var m := x.pipe.mem;
    AloneSteps(m, f);
    StoreStep(x, t, s, f, P.Loading(f));
    One(x, Produce(t, false));
    var y1 := Step(x, Produce(t, false));
    AloneSteps(y1.pipe.mem, f);
    StoreStep(y1, t, s, f, P.Trying(f, m.backlog));
    One(y1, Produce(t, false));
    Concat(x, [Produce(t, false)], [Produce(t, false)]);
    acts := [Produce(t, false)] + [Produce(t, false)];
    if Fitting(x, f) {
      var y2 := Step(y1, Produce(t, false));
      AloneSteps(y2.pipe.mem, f);
      StoreStep(y2, t, s, f, P.Reserved(f));
      One(y2, Produce(t, false));
      Concat(x, acts, [Produce(t, false)]);
      acts := acts + [Produce(t, false)];
    }
  }

  lemma BusyFacts(x: World, t: nat, s: nat, f: M.Frame, p: P.Producer)
    requires Busy(x, t, s, f, p)
    ensures var m := x.pipe.mem;
            && 0 < m.budget && m.budget + m.cfg.maxFrame < SIZE_MODULUS
            && m.backlog <= m.budget && f.bytes <= m.cfg.maxFrame
  {
    BusySized(x.pipe, t - 1);
    assert P.Accounting(x.pipe);
    hide P.Structure, P.Held;
  }

  /** Taking and storing the frame of a camera that has been waited for long enough. */
  lemma ServeCamera(x: World, t: nat, c: u32) returns (acts: seq<Action>)
    requires Ready(x, t) && c in x.trig.mem.pending.value.waiting
    requires x.trig.mem.pending.value.waiting[c] == 0
    ensures IsRun(x, acts) && NoArm(acts)
    ensures var y := After(x, acts); var f := Largest(x, c);
            var rest := x.trig.mem.pending.value.waiting - {c};
            && Inv(y) && Ongoing(x, y, t)
            && if Fitting(x, f) then
                 && y.pipe.mem.backlog == x.pipe.mem.backlog + f.bytes
                 && (rest != map[] ==> Ready(y, t) && y.trig.mem.pending.value.waiting == rest)
               else (|x.trig.armed| - 1, T.Capture(c, 0, true)) in y.trig.refused
  {
    hide *;
    var f, s := Largest(x, c), |x.trig.armed| - 1;
    TakeBusy(x, t, c);
    var y := Step(x, Take(t, f));
    One(x, Take(t, f));
    var rest := StoreAlone(y, t, s, f);
    Concat(x, [Take(t, f)], rest);
    acts := [Take(t, f)] + rest;
    NoArms([Take(t, f)], rest);
    TakeFitting(x, y, t, f);
    Served(x, y, After(y, rest), t, c);
  }

  lemma NoArms(a: seq<Action>, b: seq<Action>)
    requires a == [] || (|a| == 1 && !a[0].Arm?)
    requires NoArm(b)
    ensures NoArm(a + b)
  {
  }

  lemma TakeFitting(x: World, y: World, t: nat, f: M.Frame)
    requires Ongoing(x, y, t) && y.pipe.mem.backlog == x.pipe.mem.backlog
    ensures Fitting(y, f) == Fitting(x, f)
  {
  }

  /** Where taking and storing a frame leaves the trigger. */
  lemma Served(x: World, y: World, z: World, t: nat, c: u32)
    requires Ready(x, t) && c in x.trig.mem.pending.value.waiting
    requires x.trig.mem.pending.value.waiting[c] == 0
    requires Inv(z) && Ongoing(x, y, t) && Ongoing(y, z, t) && x.trig.armed != []
    requires y.trig.mem == x.trig.mem.Handle(c, 0).0 && z.trig.mem == y.trig.mem
    requires t < |y.trig.threads|
    requires y.trig.threads[t] == T.NextHand(|x.trig.armed| - 1, x.trig.mem.Handle(c, 0).1)
    requires Stored(y.trig, z.trig, t, Fitting(x, Largest(x, c)))
    ensures Ongoing(x, z, t)
    ensures var rest := x.trig.mem.pending.value.waiting - {c};
            if Fitting(x, Largest(x, c)) then
              rest != map[] ==> Ready(z, t) && z.trig.mem.pending.value.waiting == rest
            else (|x.trig.armed| - 1, T.Capture(c, 0, true)) in z.trig.refused
  {
    hide Inv, T.TriggerMem.Handle, T.NextHand, T.Relieved, Wanted, Fitting, Largest, Stored;
    TakeCapture(x, t, c);
    StoredRefused(y.trig, z.trig, t, Fitting(x, Largest(x, c)));
    StoredHand(y.trig, z.trig, t, Fitting(x, Largest(x, c)));
  }

  /** The thread comes out of the lock with the frame in its hand. */
  lemma TakeBusy(x: World, t: nat, c: u32)
    requires Ready(x, t) && c in x.trig.mem.pending.value.waiting
    requires x.trig.mem.pending.value.waiting[c] == 0
    ensures Enabled(x, Take(t, Largest(x, c))) && x.trig.armed != []
    ensures var f := Largest(x, c); var y := Step(x, Take(t, f)); var (n, h) := x.trig.mem.Handle(c, 0);
            && Busy(y, t, |x.trig.armed| - 1, f, P.Loading(f)) && Ongoing(x, y, t) && t < |y.trig.threads|
            && y.pipe.mem.backlog == x.pipe.mem.backlog && y.trig.mem == n
            && y.trig.threads[t] == T.NextHand(|x.trig.armed| - 1, h)
            && y.trig.threads[t].Queueing? && y.trig.threads[t].capture == T.Capture(c, 0, true)
            && y.trig.fired == x.trig.fired
  {
    TakeOngoing(x, t, c);
    TakeCapture(x, t, c);
    CameraAlone(x, t);
    TakeFired(x, t, Largest(x, c));
    CapturesCoupled(Step(x, Take(t, Largest(x, c))));
    hide Inv, Step, Enabled, T.TriggerMem.Handle, T.NextHand, Wanted;
  }

  lemma CameraAlone(x: World, t: nat)
    requires Ready(x, t)
    ensures |x.trig.threads| == |x.pipe.captures| + 1 && x.trig.armed != []
  {
    assert TS.PendingContent(x.trig);
    hide P.Inv, TS.OnePlace, TS.Ids;
  }

  lemma TakeCapture(x: World, t: nat, c: u32)
    requires Ready(x, t) && c in x.trig.mem.pending.value.waiting
    requires x.trig.mem.pending.value.waiting[c] == 0
    ensures var (n, h) := x.trig.mem.Handle(c, 0); var rest := x.trig.mem.pending.value.waiting - {c};
            && Wanted(x.trig, Largest(x, c)) && h.Taken? && h.capture == T.Capture(c, 0, true)
            && (forall s: nat ::
                  var hand := T.NextHand(s, h);
                  && hand.Queueing? && hand.serial == s && hand.capture == h.capture
                  && (rest != map[] ==> T.Relieved(hand).Free?))
            && (rest != map[] ==> n.pending.Some? && n.pending.value.waiting == rest)
            && n.save == x.trig.mem.save && n.mode == x.trig.mem.mode
  {
    SavesCoupled(x, t);
    hide Inv;
  }

  lemma SavesCoupled(x: World, t: nat)
    requires Ready(x, t)
    ensures x.trig.mem.save
  {
    hide Parts, Booked;
  }

  /** If the demand of a trigger exceeds the room, some run refuses one of its
      frames: its cameras deliver their largest frames one after the other while no
      writer gets anywhere. */
  lemma {:induction false} FindRefusal(x: World, t: nat) returns (acts: seq<Action>, c: T.Capture)
    requires Ready(x, t) && x.trig.mem.pending.value.waiting != map[]
    requires x.pipe.mem.budget < x.pipe.mem.backlog + Waited(x.trig.mem) * x.pipe.mem.cfg.maxFrame
    ensures IsRun(x, acts) && NoArm(acts)
    ensures (|x.trig.armed| - 1, c) in After(x, acts).trig.refused
    decreases x.trig.mem.pending.value.waiting.Keys
  {
    hide Inv, Step, Enabled;
    var camera :| camera in x.trig.mem.pending.value.waiting;
    acts := SkipFrames(x, t, camera);
    var y := After(x, acts);
    var more := ServeCamera(y, t, camera);
    Concat(x, acts, more);
    acts := acts + more;
    c := T.Capture(camera, 0, true);
    if Fitting(y, Largest(y, camera)) {
      var z := After(y, more);
      OneLess(y.trig.mem.pending.value.waiting, camera, x.pipe.mem.cfg.maxFrame);
      SameKeys(x.trig.mem.pending.value.waiting, y.trig.mem.pending.value.waiting);
      if y.trig.mem.pending.value.waiting - {camera} == map[] {
        PartsOf(z);
        assert false;
      }
      var rest, d := FindRefusal(z, t);
      Concat(x, acts, rest);
      acts, c := acts + rest, d;
    }
  }

  lemma SameKeys(a: map<u32, nat>, b: map<u32, nat>)
    requires a.Keys == b.Keys
    ensures |a| == |b|
  {
    assert |a| == |a.Keys| && |b| == |b.Keys|;
  }

  lemma OneLess(a: map<u32, nat>, c: u32, m: nat)
    requires c in a
    ensures (a - {c}).Keys == a.Keys - {c} && |a - {c}| == |a| - 1
    ensures |a| * m == |a - {c}| * m + m
  {
    assert (a - {c}).Keys == a.Keys - {c};
    SameSize(a);
    SameSize(a - {c});
    Products.Next(|a - {c}|, m);
  }

  lemma SameSize(a: map<u32, nat>)
    ensures |a| == |a.Keys|
  {
  }

  // ---- another thread in between -----------------------------------------------------------

  /** The last camera's frame of trigger `s` is in thread 1's hand and not yet
      reserved; the next trigger can be armed and thread 2 can serve it. */
  ghost predicate Stuck(x: World, s: nat, f: M.Frame) {
    && Busy(x, 1, s, f, P.Loading(f)) && f.bytes == x.pipe.mem.cfg.maxFrame && x.pipe.mem.cfg.save
    && |x.trig.threads| > 2 && x.trig.threads[0].Free? && x.trig.threads[2].Free?
    && x.trig.mem.enabled && x.trig.mem.pending.None?
  }

  /** Serving the trigger up to its last frame, which thread 1 takes and keeps; or a
      frame in front of it is refused already. */
  lemma {:induction false} HoldLast(x: World) returns (acts: seq<Action>, c: T.Capture, f: M.Frame)
    requires Ready(x, 1) && x.trig.mem.pending.value.waiting != map[]
    requires |x.trig.threads| > 2 && x.trig.threads[0].Free? && x.trig.threads[2].Free?
    ensures IsRun(x, acts) && x.trig.armed != []
    ensures var y, s := After(x, acts), |x.trig.armed| - 1;
            && y.pipe.mem.cfg == x.pipe.mem.cfg
            && ((s, c) in y.trig.refused || (Stuck(y, s, f) && y.trig.threads[1].capture == c))
    decreases x.trig.mem.pending.value.waiting.Keys
  {
    hide Inv, Step, Enabled, Busy, T.TriggerMem.Handle, T.NextHand, T.Relieved;
    CameraAlone(x, 1);
    var camera :| camera in x.trig.mem.pending.value.waiting;
    acts := SkipFrames(x, 1, camera);
    var y := After(x, acts);
    c, f := T.Capture(camera, 0, true), Largest(y, camera);
    if y.trig.mem.pending.value.waiting - {camera} == map[] {
      TakeLast(y, camera);
      One(y, Take(1, f));
      Concat(x, acts, [Take(1, f)]);
      acts := acts + [Take(1, f)];
    } else {
      var more := ServeCamera(y, 1, camera);
      Concat(x, acts, more);
      acts := acts + more;
      if Fitting(y, f) {
        var z := After(y, more);
        assert (y.trig.mem.pending.value.waiting - {camera}).Keys < x.trig.mem.pending.value.waiting.Keys;
        var rest, d, g := HoldLast(z);
        Concat(x, acts, rest);
        acts, c, f := acts + rest, d, g;
      }
    }
  }

  lemma TakeLast(x: World, c: u32)
    requires Ready(x, 1) && |x.trig.threads| > 2 && x.trig.threads[0].Free? && x.trig.threads[2].Free?
    requires c in x.trig.mem.pending.value.waiting && x.trig.mem.pending.value.waiting[c] == 0
    requires x.trig.mem.pending.value.waiting - {c} == map[]
    ensures x.trig.armed != [] && Enabled(x, Take(1, Largest(x, c)))
    ensures var f := Largest(x, c); var y := Step(x, Take(1, f));
            && Stuck(y, |x.trig.armed| - 1, f) && y.pipe.mem.cfg == x.pipe.mem.cfg
            && y.trig.threads[1].capture == T.Capture(c, 0, true)
  {
    assert x.trig.mem.pending.value.waiting == map[c := 0] by { OnlyKey(x.trig.mem.pending.value.waiting, c); }
    EnabledWhilePending(x);
    Completes(x, 1, c);
    hide Inv, Step, Enabled, Busy, T.TriggerMem.Handle, T.NextHand, T.Relieved;
  }

  lemma OnlyKey(m: map<u32, nat>, c: u32)
    requires c in m && m[c] == 0 && m - {c} == map[]
    ensures m == map[c := 0]
  {
    assert (m - {c}).Keys == m.Keys - {c};
  }

  lemma EnabledWhilePending(x: World)
    requires Inv(x) && x.trig.mem.pending.Some?
    ensures x.trig.mem.enabled && x.trig.mem.mode.Trigger?
  {
    PartsOf(x);
    hide Inv, P.Inv, TS.Inv, TT.HandedInv, TT.Apart, TS.PendingOk;
  }

  /** A trigger on one camera, armed while none is pending. */
  lemma ArmOne(x: World, c: u32)
    requires Inv(x) && x.trig.threads != [] && x.trig.threads[0].Free?
    requires x.trig.mem.enabled && x.trig.mem.mode.Trigger? && x.trig.mem.pending.None?
    ensures Enabled(x, Arm([c], 0))
    ensures var y := Step(x, Arm([c], 0));
            && Inv(y) && y.pipe == x.pipe && y.trig.threads == x.trig.threads
            && y.trig.fired == x.trig.fired && y.trig.refused == x.trig.refused
            && y.trig.mem.enabled && y.trig.mem.mode == x.trig.mem.mode
            && y.trig.mem.pending.Some? && y.trig.mem.pending.value.waiting == map[c := 0]
  {
    ArmIs(x.trig.mem, c);
    hide Inv, P.Apply, T.TriggerMem.Arm;
    StepKeeps(x, Arm([c], 0));
  }

  /** Thread 2 serves a trigger of one camera: its frame fills the budget further,
      and thread 1 has not moved. */
  lemma Refill(x: World, s: nat, f: M.Frame, c: u32) returns (acts: seq<Action>)
    requires Stuck(x, s, f) && Fitting(x, f)
    ensures IsRun(x, acts)
    ensures var y := After(x, acts);
            && Stuck(y, s, f) && y.pipe.mem.cfg == x.pipe.mem.cfg && y.pipe.mem.budget == x.pipe.mem.budget
            && y.pipe.mem.backlog == x.pipe.mem.backlog + f.bytes
            && y.trig.threads[1] == x.trig.threads[1]
  {
    hide Inv, Step, Enabled, Stored, T.TriggerMem.Handle, T.NextHand, T.Relieved;
    CapturesCoupled(x);
    ArmOne(x, c);
    One(x, Arm([c], 0));
    var x1 := Step(x, Arm([c], 0));
    var g, r := Largest(x1, c), |x1.trig.armed| - 1;
    assert Ready(x1, 2);
    Completes(x1, 2, c);
    One(x1, Take(2, g));
    var x2 := Step(x1, Take(2, g));
    var more := StoreAlone(x2, 2, r, g);
    var x3 := After(x2, more);
    DeliverFired(x3, 2);
    One(x3, Fire(2));
    acts := FourRuns(x, [Arm([c], 0)], [Take(2, g)], more, [Fire(2)]);
  }

  lemma FourRuns(x: World, a: seq<Action>, b: seq<Action>, c: seq<Action>, d: seq<Action>)
    returns (acts: seq<Action>)
    requires IsRun(x, a) && IsRun(After(x, a), b) && IsRun(After(After(x, a), b), c)
    requires IsRun(After(After(After(x, a), b), c), d)
    ensures IsRun(x, acts) && After(x, acts) == After(After(After(After(x, a), b), c), d)
  {
    hide *;
    Concat(x, a, b);
    Concat(x, a + b, c);
    Concat(x, a + b + c, d);
    acts := a + b + c + d;
  }

  /** Served triggers fill the budget until thread 1's frame no longer fits. */
  lemma {:induction false} FillUp(x: World, s: nat, f: M.Frame, c: u32) returns (acts: seq<Action>)
    requires Stuck(x, s, f) && 0 < f.bytes
    ensures IsRun(x, acts) && (s, x.trig.threads[1].capture) in After(x, acts).trig.refused
    decreases if Fitting(x, f) then x.pipe.mem.budget - x.pipe.mem.backlog else 0
  {
    hide Inv, Step, Enabled, Stored;
    if Fitting(x, f) {
      acts := Refill(x, s, f, c);
      var y := After(x, acts);
      var rest := FillUp(y, s, f, c);
      Concat(x, acts, rest);
      acts := acts + rest;
    } else {
      acts := StoreAlone(x, 1, s, f);
      SettledEntry(x.trig, After(x, acts).trig, 1);
    }
  }

  // ---- the condition ----------------------------------------------------------------------

  /** In the run `acts` the budget refuses the frame `c` of the newest trigger of `x`. */
  ghost predicate Refuses(x: World, acts: seq<Action>, c: T.Capture) {
    IsRun(x, acts) && (|x.trig.armed| - 1, c) in After(x, acts).trig.refused
  }

  lemma FreshReady(x: World)
    requires Fresh(x)
    ensures Ready(x, 1) && x.trig.mem.pending.value.waiting != map[]
    ensures forall t :: 0 <= t < |x.trig.threads| ==> x.trig.threads[t].Free?
  {
    assert TS.PendingContent(x.trig);
    hide P.Inv, TS.OnePlace, TS.Ids, Coupled, Booked, TT.HandedInv, TT.Apart;
  }

  /** Frames are larger than nothing, or nothing is too large. */
  lemma EmptyFits(x: World)
    requires Inv(x) && x.pipe.mem.cfg.maxFrame == 0
    ensures x.pipe.mem.backlog + Waited(x.trig.mem) * x.pipe.mem.cfg.maxFrame <= x.pipe.mem.budget
  {
    PartsOf(x);
    hide Inv, Waited;
  }

  /** With a second capture thread a frame of any size can be refused. */
  lemma SecondThread(x: World) returns (acts: seq<Action>, c: T.Capture)
    requires Fresh(x) && 2 < |x.trig.threads| && 0 < x.pipe.mem.cfg.maxFrame
    ensures Refuses(x, acts, c)
  {
    hide Inv, Enabled, Step, Ready, Stuck;
    FreshReady(x);
    hide Fresh;
    var f;
    acts, c, f := HoldLast(x);
    var y := After(x, acts);
    if (|x.trig.armed| - 1, c) !in y.trig.refused {
      StuckBytes(y, |x.trig.armed| - 1, f);
      var rest := FillUp(y, |x.trig.armed| - 1, f, 0);
      Concat(x, acts, rest);
      acts := acts + rest;
    }
  }

  lemma StuckBytes(x: World, s: nat, f: M.Frame)
    requires Stuck(x, s, f)
    ensures f.bytes == x.pipe.mem.cfg.maxFrame
  {
    hide Busy;
  }

  /** Whatever happens after a trigger has been armed, later triggers and sessions
      included: some run refuses one of its frames if and only if frames are not empty
      and there is a second capture thread, which can serve the next trigger while the
      first still has the completing frame in hand, or the budget does not hold the
      largest frame of each armed camera next to what is held already. */
  lemma RefusalExactly(x: World)
    requires Fresh(x)
    ensures (exists acts, c :: Refuses(x, acts, c)) <==>
              && 0 < x.pipe.mem.cfg.maxFrame
              && (|x.trig.threads| > 2
                  || x.pipe.mem.budget < x.pipe.mem.backlog
                                         + |x.trig.mem.pending.value.waiting| * x.pipe.mem.cfg.maxFrame)
  {
    var m := x.pipe.mem;
    if m.cfg.maxFrame == 0 { EmptyFits(x); }
    if 0 < m.cfg.maxFrame && m.budget < m.backlog + Waited(x.trig.mem) * m.cfg.maxFrame {
      FreshReady(x);
      var acts, c := FindRefusal(x, 1);
      assert Refuses(x, acts, c);
    } else if 0 < m.cfg.maxFrame && |x.trig.threads| > 2 {
      var acts, c := SecondThread(x);
    } else {
      NeverRefused(x, true);
    }
  }

  lemma NeverRefused(x: World, rearm: bool)
    requires Fresh(x) && (rearm ==> |x.trig.threads| == 2 || x.pipe.mem.cfg.maxFrame == 0)
    requires x.pipe.mem.backlog + Waited(x.trig.mem) * x.pipe.mem.cfg.maxFrame <= x.pipe.mem.budget
    ensures forall acts, c :: Refuses(x, acts, c) ==> !rearm && !NoArm(acts)
  {
    FreshSafe(x, rearm);
    var s: nat := |x.trig.armed| - 1;
    forall acts, c | Refuses(x, acts, c) ensures !rearm && !NoArm(acts) {
      if rearm || NoArm(acts) { RefusesNone(x, acts, s, rearm); }
    }
  }

  lemma RefusesNone(x: World, acts: seq<Action>, s: nat, rearm: bool)
    requires Fresh(x) && Safe(x, s, rearm) && IsRun(x, acts) && (rearm || NoArm(acts))
    ensures NoneRefused(After(x, acts), s)
  {
    FreshInv(x);
    RunSafe(x, acts, s, rearm);
    hide Fresh, Roomy, Alone, Over, NoneRefused, IsRun, After;
  }

  lemma FreshInv(x: World)
    requires Fresh(x)
    ensures Inv(x)
  {
    hide Inv;
  }

  /** Until another trigger is armed only the budget decides: some such run refuses a
      frame if and only if the budget is too small. */
  lemma RefusalBeforeRearming(x: World)
    requires Fresh(x)
    ensures (exists acts, c :: Refuses(x, acts, c) && NoArm(acts)) <==>
              x.pipe.mem.budget < x.pipe.mem.backlog
                                  + |x.trig.mem.pending.value.waiting| * x.pipe.mem.cfg.maxFrame
  {
    if x.pipe.mem.budget < x.pipe.mem.backlog + Waited(x.trig.mem) * x.pipe.mem.cfg.maxFrame {
      FreshReady(x);
      var acts, c := FindRefusal(x, 1);
      assert Refuses(x, acts, c);
    } else {
      NeverRefused(x, false);
    }
  }

  /** The acknowledgement goes out all the same: the last camera's frame does not
      fit, is refused, and its thread delivers the completed result that lists it. */
  lemma AckDespiteRefusal(x: World, t: nat, c: u32) returns (acts: seq<Action>)
    requires Ready(x, t) && x.trig.mem.pending.value.waiting == map[c := 0]
    requires !Fitting(x, Largest(x, c))
    ensures IsRun(x, acts)
    ensures var y := After(x, acts).trig; var one := T.Capture(c, 0, true);
            && |y.fired| == |x.trig.fired| + 1
            && var (s, r) := y.fired[|x.trig.fired|];
               && s + 1 == |x.trig.armed| && !r.cancelled && one in r.captures
               && (s, one) in y.refused && (s, one) !in y.queued
  {
    var f, s := Largest(x, c), |x.trig.armed| - 1;
    hide Inv, Step, Enabled, T.TriggerMem.Handle, T.NextHand, T.Relieved, Busy, Wanted, Ready, Stored, Ongoing;
    Completes(x, t, c);
    var y := Step(x, Take(t, f));
    One(x, Take(t, f));
    var more := StoreAlone(y, t, s, f);
    Concat(x, [Take(t, f)], more);
    acts := [Take(t, f)] + more;
    var z := After(y, more);
    SettledEntry(y.trig, z.trig, t);
    DeliverFired(z, t);
    One(z, Fire(t));
    Concat(x, acts, [Fire(t)]);
    acts := acts + [Fire(t)];
    OnlyOnce(Step(z, Fire(t)), s, T.Capture(c, 0, true));
  }

  /** The session of the runs below: frames of up to `size` bytes. */
  function Small(size: nat): M.Config { M.Config(Trigger, true, 1, 1, size) }

  /** A trigger on camera `c` has just been armed in the first session, with `n`
      capture threads. */
  ghost predicate Opened(x: World, n: nat, size: nat, budget: nat, c: u32) {
    && Inv(x) && x.pipe.camerasOn && x.pipe.mem.cfg == Small(size)
    && x.pipe.mem.budget == budget && x.pipe.mem.backlog == 0
    && x.trig.threads == Idlers(n) && x.trig.fired == [] && |x.trig.armed| == 1
    && x.trig.mem.pending == Some(T.Pending(1, map[c := 0], []))
  }

  lemma Opens(n: nat, size: nat, budget: nat, c: u32) returns (acts: seq<Action>)
    requires 0 < budget && budget + size < SIZE_MODULUS
    ensures IsRun(Init(n), acts) && Opened(After(Init(n), acts), n, size, budget, c)
  {
    hide Inv, Enabled, Step, Init, IsRun, After, T.TriggerMem.Arm;
    var x0 := Init(n);
    FirstSession(n, Small(size), budget);
    var x1 := Step(x0, Start(Small(size), budget));
    TurnOn(x1);
    var x2 := Step(x1, Other(P.CamerasOn));
    ArmFirst(x2, n, c);
    acts := [Start(Small(size), budget)] + ([Other(P.CamerasOn)] + [Arm([c], 0)]);
    ThreeSteps(x0, Start(Small(size), budget), Other(P.CamerasOn), Arm([c], 0));
    InitHolds(n);
    RunKeeps(x0, acts);
  }

  lemma OpenedFresh(x: World, n: nat, size: nat, budget: nat, c: u32)
    requires Opened(x, n, size, budget, c) && 0 < n
    ensures Fresh(x)
  {
    hide Inv;
  }

  lemma ArmFirst(x: World, n: nat, c: u32)
    requires x.trig == T.World(T.TriggerMem(true, Trigger, true, 1, None), Idlers(n), [], [], [], [])
    ensures Enabled(x, Arm([c], 0))
    ensures var y := Step(x, Arm([c], 0));
            && y.pipe == x.pipe && y.trig == x.trig.(mem := y.trig.mem, armed := y.trig.armed)
            && |y.trig.armed| == 1
            && y.trig.mem.pending == Some(T.Pending(1, map[c := 0], []))
  {
    ArmIs(x.trig.mem, c);
    hide P.Apply;
  }

  /** Room for the whole trigger is not enough with a second capture thread: the
      budget holds its one frame, and a later trigger's frame takes the place. */
  lemma RoomIsNotEnough(c: u32) returns (before: seq<Action>, acts: seq<Action>, d: T.Capture)
    ensures IsRun(Init(2), before)
    ensures var x := After(Init(2), before);
            && Fresh(x) && x.trig.mem.pending.value.waiting == map[c := 0]
            && x.pipe.mem.backlog + |x.trig.mem.pending.value.waiting| * x.pipe.mem.cfg.maxFrame
               == x.pipe.mem.budget
            && Refuses(x, acts, d)
  {
    hide Inv, Enabled, Step, Init, IsRun, After, Fresh, Refuses;
    before := Opens(2, 1, 1, c);
    var x := After(Init(2), before);
    OpenedFresh(x, 2, 1, 1, c);
    acts, d := SecondThread(x);
  }

  lemma ThreeSteps(x: World, a: Action, b: Action, c: Action)
    requires Enabled(x, a) && Enabled(Step(x, a), b) && Enabled(Step(Step(x, a), b), c)
    ensures IsRun(x, [a] + ([b] + [c]))
    ensures After(x, [a] + ([b] + [c])) == Step(Step(Step(x, a), b), c)
  {
    hide *;
    var y, z := Step(x, a), Step(Step(x, a), b);
    One(x, a);
    One(y, b);
    One(z, c);
    Concat(y, [b], [c]);
    Concat(x, [a], [b] + [c]);
  }

  /** So an acknowledgement without a single queued frame is reachable. */
  lemma AckWithNothingQueued(c: u32) returns (acts: seq<Action>)
    ensures IsRun(Init(1), acts)
    ensures var y := After(Init(1), acts).trig; var one := T.Capture(c, 0, true);
            && |y.fired| == 1 && !y.fired[0].1.cancelled && one in y.fired[0].1.captures
            && (0, one) in y.refused && (0, one) !in y.queued
  {
    hide Inv, Enabled, Step, Ready, Init, IsRun, After, Fresh;
    acts := Opens(1, 2, 1, c);
    var x := After(Init(1), acts);
    OpenedFresh(x, 1, 2, 1, c);
    FreshReady(x);
    var more := AckDespiteRefusal(x, 1, c);
    Concat(Init(1), acts, more);
    acts := acts + more;
  }

  /** The last camera's frame in its thread's hand, with the completed result. */
  lemma Completes(x: World, t: nat, c: u32)
    requires Ready(x, t) && x.trig.mem.pending.value.waiting == map[c := 0]
    ensures x.trig.armed != [] && Enabled(x, Take(t, Largest(x, c)))
    ensures var f := Largest(x, c); var y := Step(x, Take(t, f)); var s := |x.trig.armed| - 1;
            var h := y.trig.threads[t]; var one := T.Capture(c, 0, true);
            && Busy(y, t, s, f, P.Loading(f)) && Fitting(y, f) == Fitting(x, f)
            && Ongoing(x, y, t) && y.pipe.mem.backlog == x.pipe.mem.backlog
            && y.trig.mem == x.trig.mem.(pending := None)
            && y.trig.fired == x.trig.fired && h.Queueing? && h.serial == s && h.capture == one
            && T.Relieved(h).Firing? && T.Relieved(h).serial == s
            && !T.Relieved(h).result.cancelled && one in T.Relieved(h).result.captures
  {
    TakeCapture(x, t, c);
    CompletesHand(x, t, c);
    TakeBusy(x, t, c);
    SavesCoupled(x, t);
    hide Inv, Step, Enabled, T.TriggerMem.Handle, T.NextHand, T.Relieved, Wanted, Ready;
  }

  lemma SettledEntry(w: T.World, v: T.World, t: nat)
    requires Stored(w, v, t, false)
    ensures (w.threads[t].serial, w.threads[t].capture) in v.refused
    ensures t < |v.threads| == |w.threads|
  {
  }

  lemma TakeFired(x: World, t: nat, f: M.Frame)
    requires Enabled(x, Take(t, f))
    ensures Step(x, Take(t, f)).trig.fired == x.trig.fired
  {
    TS.FrameShape(x.trig, t, f.camera, f.frameId);
    hide T.Apply, P.Apply;
  }

  lemma CompletesHand(x: World, t: nat, c: u32)
    requires Ready(x, t) && x.trig.mem.pending.value.waiting == map[c := 0]
    ensures var h := x.trig.mem.Handle(c, 0).1; var one := T.Capture(c, 0, x.trig.mem.save);
            forall s: nat :: var hand := T.NextHand(s, h);
              hand.Queueing? ==>
                && T.Relieved(hand).Firing? && T.Relieved(hand).serial == s
                && !T.Relieved(hand).result.cancelled && one in T.Relieved(hand).result.captures
    ensures x.trig.mem.Handle(c, 0).0 == x.trig.mem.(pending := None)
  {
    assert map[c := 0] - {c} == map[];
    var one := T.Capture(c, 0, x.trig.mem.save);
    var more := x.trig.mem.pending.value.captures + [one];
    assert more[|more| - 1] == one;
    hide Inv;
  }

  lemma DeliverFired(x: World, t: nat)
    requires Inv(x) && t < |x.trig.threads| && x.trig.threads[t].Firing?
    ensures Enabled(x, Fire(t)) && Inv(Step(x, Fire(t)))
    ensures var y := Step(x, Fire(t)).trig; var h := x.trig.threads[t];
            && y.fired == x.trig.fired + [(h.serial, h.result)]
            && y.refused == x.trig.refused && y.queued == x.trig.queued
            && y.mem == x.trig.mem && y.armed == x.trig.armed && y.threads == x.trig.threads[t := T.Free]
    ensures Step(x, Fire(t)).pipe == x.pipe
  {
    StepKeeps(x, Fire(t));
    hide Inv;
  }

  lemma OnlyOnce(x: World, s: nat, c: T.Capture)
    requires Inv(x) && (s, c) in x.trig.refused
    ensures (s, c) !in x.trig.queued
  {
  }
}
