/** The detector's slots as the streaming sessions read them while the pipeline runs
    (src/frame_processor.cpp:236-243, 535-544, src/frame_processor.hpp:279-292): the
    slots are those of module Pipeline, and what a session gets from one camera's is
    what the consumers of module Publication get. */
module DetectorStream {
  import opened Types
  import M = ProcessorMemory
  import P = Pipeline
  import S = Publication

  /** The sessions that stream one camera, each with its cursor and what it received. */
  datatype World = World(pipe: P.World, cursors: seq<nat>, received: seq<seq<M.Published>>)

  datatype Action = Pipe(step: P.Action) | Read(consumer: nat)

  ghost predicate Enabled(x: World, a: Action) {
    match a
    case Pipe(p) => P.Enabled(x.pipe, p)
    case Read(c) => c < |x.cursors| && c < |x.received|
  }

  /** `getDetectedFrameForStreaming`. */
  predicate Newer(m: M.Memory, camera: u32, cursor: nat) {
    camera in m.slots && cursor < m.slots[camera].seqNo
  }

  ghost function Step(x: World, a: Action, camera: u32): World
    requires Enabled(x, a)
  {
    match a
    case Pipe(p) => x.(pipe := P.Apply(x.pipe, p))
    case Read(c) =>
      if !Newer(x.pipe.mem, camera, x.cursors[c]) then x
      else
        var one := x.pipe.mem.slots[camera];
        x.(cursors := x.cursors[c := one.seqNo], received := x.received[c := x.received[c] + [one]])
  }

  ghost predicate IsRun(x: World, acts: seq<Action>, camera: u32)
    decreases |acts|
  {
    acts == [] || (Enabled(x, acts[0]) && IsRun(Step(x, acts[0], camera), acts[1..], camera))
  }

  ghost function After(x: World, acts: seq<Action>, camera: u32): World
    requires IsRun(x, acts, camera)
    decreases |acts|
  {
    if acts == [] then x else After(Step(x, acts[0], camera), acts[1..], camera)
  }

  function Init(threads: nat, consumers: nat): World {
    World(P.Init(threads), seq(consumers, _ => 0), seq(consumers, _ => []))
  }

  // ---- what a step does to the slots ---------------------------------------------------------

  /** The three steps that empty the slots: a start, a reset, the stop of a detector. */
  predicate Empties(w: P.World, a: P.Action) {
    a.StartSession? || a.ResetCounts? || (a.JoinDetector? && w.mem.cfg.mode.IsDetector())
  }

  ghost predicate Publishes(w: P.World, a: P.Action) { a.PublishDetection? && w.detector.Publishing? }

  lemma SlotsStep(w: P.World, a: P.Action)
    requires P.Enabled(w, a)
    ensures var m, n := w.mem, P.Apply(w, a).mem;
            if Empties(w, a) then n.slots == map[] && n.slotCounter == m.slotCounter
            else if Publishes(w, a) then
              && n.slotCounter == m.slotCounter + 1
              && n.slots == m.slots[w.detector.frame.camera := M.Published(w.detector.frame, m.slotCounter + 1)]
            else n.slots == m.slots && n.slotCounter == m.slotCounter
  {
    hide P.Enabled, P.Apply;
    if P.OfDetector(a) { DetectorSlots(w, a); }
    else if P.OfControl(a) { ControlSlots(w, a); }
    else { OtherSlots(w, a); }
  }

  lemma ControlSlots(w: P.World, a: P.Action)
    requires P.Enabled(w, a) && P.OfControl(a)
    ensures var m, n := w.mem, P.Apply(w, a).mem;
            n.slotCounter == m.slotCounter && n.slots == if Empties(w, a) then map[] else m.slots
  {
    if a.JoinDetector? {
      JoinSlots(w);
      hide P.Apply, P.Enabled;
    } else {
      hide P.ApplyCapture, P.ApplyDetector, P.ApplyWriter, P.FlushedAll, M.Memory.FlushBatch;
      FlushSlots(w);
    }
  }

  lemma FlushSlots(w: P.World)
    ensures P.FlushedAll(w).mem.slots == w.mem.slots && P.FlushedAll(w).mem.slotCounter == w.mem.slotCounter
  {
    hide M.Bytes;
  }

  lemma JoinSlots(w: P.World)
    requires P.Enabled(w, P.JoinDetector)
    ensures var m, n := w.mem, P.Apply(w, P.JoinDetector).mem;
            n.slotCounter == m.slotCounter && n.slots == if m.cfg.mode.IsDetector() then map[] else m.slots
  {
    hide P.ApplyCapture, P.ApplyDetector, P.ApplyWriter, P.FlushedAll;
  }

  lemma OtherSlots(w: P.World, a: P.Action)
    requires P.Enabled(w, a) && (P.OfCapture(a) || P.OfWriter(a))
    ensures var m, n := w.mem, P.Apply(w, a).mem; n.slots == m.slots && n.slotCounter == m.slotCounter
  {
    hide P.ApplyDetector, P.ApplyControl;
  }

  lemma DetectorSlots(w: P.World, a: P.Action)
    requires P.Enabled(w, a) && P.OfDetector(a)
    ensures var m, n := w.mem, P.Apply(w, a).mem;
            if Publishes(w, a) then
              && n.slotCounter == m.slotCounter + 1
              && n.slots == m.slots[w.detector.frame.camera := M.Published(w.detector.frame, m.slotCounter + 1)]
            else n.slots == m.slots && n.slotCounter == m.slotCounter
  {
    hide P.ApplyCapture, P.ApplyWriter, P.ApplyControl, M.NextCamera;
  }

  // ---- the consumers of module Publication -----------------------------------------------------

  /** What a step is for the slot of one camera. */
  ghost function EventsOf(x: World, a: Action, camera: u32): (es: seq<S.Event<M.Frame>>)
    ensures |es| <= 1
  {
    match a
    case Read(c) => [S.Take(c)]
    case Pipe(p) =>
      if Empties(x.pipe, p) then [S.Clear]
      else if Publishes(x.pipe, p) then
        [if x.pipe.detector.frame.camera == camera then S.Event.Publish(x.pipe.detector.frame) else S.Advance]
      else []
  }

  /** `w` is what module Publication makes of camera `camera`'s slot and its readers. */
  ghost predicate Mirrors(x: World, w: S.World<M.Frame>, camera: u32) {
    && w.slot == S.ShareOf(x.pipe.mem, camera, w.slot.seqNo)
    && w.cursors == x.cursors && |w.got| == |x.received| == |w.cursors|
    && (forall i :: 0 <= i < |w.log| ==> w.log[i].0.camera == camera)
    && forall c :: 0 <= c < |w.got| ==> Same(w.log, w.got[c], x.received[c])
  }

  /** The indices `got` into the log stand for the frames received. */
  predicate Same(log: seq<(M.Frame, nat)>, got: seq<nat>, received: seq<M.Published>) {
    && |got| == |received|
    && forall k :: 0 <= k < |got| ==>
         got[k] < |log| && received[k] == M.Published(log[got[k]].0, log[got[k]].1)
  }

  lemma OneEvent(w: S.World<M.Frame>, es: seq<S.Event<M.Frame>>)
    requires |es| <= 1 && (es != [] ==> S.Enabled(w, es[0]))
    ensures S.IsRun(w, es) && S.After(w, es) == if es == [] then w else S.Step(w, es[0])
  {
    hide S.Enabled, S.Step;
    if es != [] {
      assert es[1..] == [];
      var v := S.Step(w, es[0]);
      assert S.IsRun(v, []) && S.After(v, []) == v;
    }
  }

  lemma PipeMirrors(x: World, w: S.World<M.Frame>, p: P.Action, camera: u32)
    requires Mirrors(x, w, camera) && P.Enabled(x.pipe, p)
    ensures var es := EventsOf(x, Pipe(p), camera);
            && (es != [] ==> S.Enabled(w, es[0]))
            && Mirrors(Step(x, Pipe(p), camera), if es == [] then w else S.Step(w, es[0]), camera)
  {
    SlotsStep(x.pipe, p);
    hide P.Apply, P.Enabled;
    var es := EventsOf(x, Pipe(p), camera);
    if es != [] && es[0].Publish? {
      forall c | 0 <= c < |w.got| ensures Same(S.Step(w, es[0]).log, w.got[c], x.received[c]) {
        assert Same(w.log, w.got[c], x.received[c]);
      }
    }
  }

  lemma ReadMirrors(x: World, w: S.World<M.Frame>, c: nat, camera: u32)
    requires S.Inv(w) && Mirrors(x, w, camera) && Enabled(x, Read(c))
    ensures S.Enabled(w, S.Take(c))
    ensures Mirrors(Step(x, Read(c), camera), S.Step(w, S.Take(c)), camera)
  {
    S.TakesNewestExactly(w, c);
    var y, v := Step(x, Read(c), camera), S.Step(w, S.Take(c));
    forall d | 0 <= d < |v.got| ensures Same(v.log, v.got[d], y.received[d]) {
      assert Same(w.log, w.got[d], x.received[d]);
    }
  }

  lemma StepMirrors(x: World, w: S.World<M.Frame>, a: Action, camera: u32)
    requires S.Inv(w) && Mirrors(x, w, camera) && Enabled(x, a)
    ensures var es := EventsOf(x, a, camera);
            && S.IsRun(w, es) && S.Inv(S.After(w, es))
            && Mirrors(Step(x, a, camera), S.After(w, es), camera)
  {
    var es := EventsOf(x, a, camera);
    if a.Pipe? { PipeMirrors(x, w, a.step, camera); } else { ReadMirrors(x, w, a.consumer, camera); }
    hide Mirrors, S.Inv, S.Enabled, S.Step, Step;
    OneEvent(w, es);
    S.RunKeeps(w, es);
  }

  lemma {:induction false} Joins(w: S.World<M.Frame>, a: seq<S.Event<M.Frame>>, b: seq<S.Event<M.Frame>>)
    requires S.IsRun(w, a) && S.IsRun(S.After(w, a), b)
    ensures S.IsRun(w, a + b) && S.After(w, a + b) == S.After(S.After(w, a), b)
    decreases |a|
  {
    hide S.Enabled, S.Step;
    if a == [] {
      assert a + b == b;
    } else {
      assert (a + b)[1..] == a[1..] + b;
      Joins(S.Step(w, a[0]), a[1..], b);
    }
  }

  /** Every run of the pipeline with its readers is, for one camera, a run of a single
      slot with its consumers. */
  lemma {:induction false} RunMirrors(x: World, w: S.World<M.Frame>, acts: seq<Action>, camera: u32)
    returns (es: seq<S.Event<M.Frame>>)
    requires S.Inv(w) && Mirrors(x, w, camera) && IsRun(x, acts, camera)
    ensures S.IsRun(w, es) && S.Inv(S.After(w, es)) && Mirrors(After(x, acts, camera), S.After(w, es), camera)
    decreases |acts|
  {
    hide Mirrors, S.Inv, S.Enabled, S.Step, Enabled, Step, EventsOf;
    if acts == [] {
      es := [];
    } else {
      var first := EventsOf(x, acts[0], camera);
      StepMirrors(x, w, acts[0], camera);
      var rest := RunMirrors(Step(x, acts[0], camera), S.After(w, first), acts[1..], camera);
      Joins(w, first, rest);
      es := first + rest;
    }
  }

  lemma InitMirrors(threads: nat, consumers: nat, camera: u32)
    ensures Mirrors(Init(threads, consumers), S.Init<M.Frame>(consumers), camera)
    ensures S.Inv(S.Init<M.Frame>(consumers))
  {
  }

  // ---- what a session sees ------------------------------------------------------------------------

  /** What a session receives from a camera's slot: that camera's frames, each at most
      once, in the order of their publication, in every run of the pipeline. */
  lemma DetectedOnce(threads: nat, consumers: nat, camera: u32, acts: seq<Action>, c: nat)
    requires IsRun(Init(threads, consumers), acts, camera)
    requires c < |After(Init(threads, consumers), acts, camera).received|
    ensures var got := After(Init(threads, consumers), acts, camera).received[c];
            && (forall i, j :: 0 <= i < j < |got| ==> got[i].seqNo < got[j].seqNo)
            && forall i :: 0 <= i < |got| ==> got[i].frame.camera == camera
  {
    InitMirrors(threads, consumers, camera);
    var es := RunMirrors(Init(threads, consumers), S.Init<M.Frame>(consumers), acts, camera);
    var x := After(Init(threads, consumers), acts, camera);
    var w := S.After(S.Init<M.Frame>(consumers), es);
    assert Same(w.log, w.got[c], x.received[c]);
    assert S.Increasing(w.got[c]);
    hide IsRun, After, S.IsRun, S.After, Init;
  }

  /** What is in the slot was published after number `base`. */
  predicate Since(m: M.Memory, camera: u32, base: nat) {
    base <= m.slotCounter && (camera in m.slots ==> base < m.slots[camera].seqNo)
  }

  /** `y` has received what `x` has, and then only frames published after `base`. */
  predicate Later(x: World, y: World, base: nat) {
    && |y.received| == |x.received|
    && forall c :: 0 <= c < |x.received| ==>
         && x.received[c] <= y.received[c]
         && forall i :: |x.received[c]| <= i < |y.received[c]| ==> base < y.received[c][i].seqNo
  }

  lemma StepLater(x: World, a: Action, camera: u32, base: nat)
    requires Since(x.pipe.mem, camera, base) && Enabled(x, a)
    ensures var y := Step(x, a, camera); Since(y.pipe.mem, camera, base) && Later(x, y, base)
  {
    if a.Pipe? {
      SlotsStep(x.pipe, a.step);
      hide P.Apply, P.Enabled;
    }
  }

  lemma LaterChain(x: World, y: World, z: World, base: nat)
    requires Later(x, y, base) && Later(y, z, base)
    ensures Later(x, z, base)
  {
    forall c | 0 <= c < |x.received|
      ensures x.received[c] <= z.received[c]
      ensures forall i :: |x.received[c]| <= i < |z.received[c]| ==> base < z.received[c][i].seqNo
    {
      var a, b, d := x.received[c], y.received[c], z.received[c];
      assert a <= b <= d;
      forall i | |a| <= i < |d| ensures base < d[i].seqNo {
        if i < |b| { assert d[i] == b[i]; }
      }
    }
  }

  lemma {:induction false} RunLater(x: World, acts: seq<Action>, camera: u32, base: nat)
    requires Since(x.pipe.mem, camera, base) && IsRun(x, acts, camera)
    ensures Later(x, After(x, acts, camera), base)
    decreases |acts|
  {
    hide Enabled, Step, Since;
    if acts != [] {
      var y := Step(x, acts[0], camera);
      StepLater(x, acts[0], camera, base);
      RunLater(y, acts[1..], camera, base);
      LaterChain(x, y, After(x, acts, camera), base);
    }
  }

  /** Every number given out so far is at most the counter. */
  predicate Numbered(x: World, camera: u32) {
    && (camera in x.pipe.mem.slots ==> x.pipe.mem.slots[camera].seqNo <= x.pipe.mem.slotCounter)
    && forall c, i :: 0 <= c < |x.received| && 0 <= i < |x.received[c]| ==>
         x.received[c][i].seqNo <= x.pipe.mem.slotCounter
  }

  /** A stop, a start or a reset is a border: of the frames published before it, none
      is handed out after it, whatever runs on both sides. */
  lemma NothingFromBefore(x: World, p: P.Action, acts: seq<Action>, camera: u32)
    requires Enabled(x, Pipe(p)) && Empties(x.pipe, p)
    requires IsRun(Step(x, Pipe(p), camera), acts, camera)
    ensures Later(x, After(Step(x, Pipe(p), camera), acts, camera), x.pipe.mem.slotCounter)
  {
    SlotsStep(x.pipe, p);
    hide P.Apply, P.Enabled, IsRun, After;
    RunLater(Step(x, Pipe(p), camera), acts, camera, x.pipe.mem.slotCounter);
  }

  lemma {:induction false} RunNumbered(x: World, acts: seq<Action>, camera: u32)
    requires Numbered(x, camera) && IsRun(x, acts, camera)
    ensures Numbered(After(x, acts, camera), camera)
    decreases |acts|
  {
    hide Enabled, Step, Numbered;
    if acts != [] {
      StepNumbered(x, acts[0], camera);
      RunNumbered(Step(x, acts[0], camera), acts[1..], camera);
    }
  }

  lemma StepNumbered(x: World, a: Action, camera: u32)
    requires Numbered(x, camera) && Enabled(x, a)
    ensures Numbered(Step(x, a, camera), camera)
  {
    if a.Pipe? {
      SlotsStep(x.pipe, a.step);
      hide P.Apply, P.Enabled;
    }
  }

  /** The numbers tell the two sides apart: all of the frames received or published
      before have numbers up to the counter. */
  lemma NumbersSoFar(threads: nat, consumers: nat, camera: u32, acts: seq<Action>)
    requires IsRun(Init(threads, consumers), acts, camera)
    ensures Numbered(After(Init(threads, consumers), acts, camera), camera)
  {
    RunNumbered(Init(threads, consumers), acts, camera);
  }
}
