/** The detection worker's round robin starves no camera, and it only ever works
    on a camera's newest frame. */
module PipelineFairness {
  import opened Types
  import opened ProcessorMemory
  import opened Pipeline

  /** How far camera `c` is behind the cursor, going round the ids 0..n-1. */
  function Distance(last: nat, c: nat, n: nat): nat
    requires c < n
  {
    if last < c then c - last else if last >= n then c + 1 else c + n - last
  }

  /** Every pick of another camera brings the cursor strictly closer. */
  lemma PickApproaches(keys: set<u32>, last: u32, c: u32, n: nat)
    requires c in keys && forall k :: k in keys ==> k < n
    ensures Distance(last, c, n) <= n
    ensures NextCamera(keys, last) != c ==>
              Distance(NextCamera(keys, last), c, n) < Distance(last, c, n)
  {
  }

  /** Camera ids run from 0, so `n` cameras deliver frames of cameras below `n`. */
  predicate FromCameras(a: Action, n: nat) { a.Offer? ==> a.frame.camera < n }

  /** Steps that leave pending detections in place. */
  predicate KeepsInbox(a: Action) { !a.StartSession? && !a.ResetCounts? }

  ghost predicate Picks(w: World, a: Action, c: u32)
    requires Enabled(w, a)
  {
    a.PickDetection? && NextCamera(w.mem.inbox.Keys, w.mem.lastDetected) == c
  }

  /** Some step of the run takes camera `c`'s frame to the detector. */
  ghost predicate EverPicks(w: World, acts: seq<Action>, c: u32)
    requires IsRun(w, acts)
    decreases |acts|
  {
    acts != [] && (Picks(w, acts[0], c) || EverPicks(Apply(w, acts[0]), acts[1..], c))
  }

  function PickCount(acts: seq<Action>): nat {
    if acts == [] then 0 else (if acts[0].PickDetection? then 1 else 0) + PickCount(acts[1..])
  }

  lemma PickLeavesOthers(w: World, c: u32)
    requires Enabled(w, PickDetection) && c in w.mem.inbox && !Picks(w, PickDetection, c)
    ensures var v := Apply(w, PickDetection);
            && c in v.mem.inbox && v.mem.inbox[c] == w.mem.inbox[c]
            && v.mem.inbox.Keys <= w.mem.inbox.Keys
            && v.mem.lastDetected == NextCamera(w.mem.inbox.Keys, w.mem.lastDetected)
  {
    hide NextCamera;
  }

  /** Storing a frame touches the counter and the frames kept, nothing else. */
  lemma AdvanceFrame(m: Memory, p: Producer, spurious: bool)
    requires !p.Idle?
    ensures var n := Advance(m, p, spurious).0;
            && n.cfg == m.cfg && n.inbox == m.inbox && n.lastDetected == m.lastDetected
  {
  }

  /** A camera offers a frame to a session that detects. */
  predicate Offers(w: World, a: Action) { a.Offer? && w.mem.enabled && w.mem.cfg.mode.IsDetector() }

  lemma OthersLeaveInbox(w: World, a: Action)
    requires Enabled(w, a) && KeepsInbox(a) && !a.PickDetection?
    ensures var v := Apply(w, a);
            && v.mem.lastDetected == w.mem.lastDetected
            && v.mem.inbox == if Offers(w, a) then w.mem.inbox[a.frame.camera := a.frame] else w.mem.inbox
  {
    if a.Produce? {
      AdvanceFrame(w.mem, w.captures[a.thread], a.spurious);
      hide Advance;
    } else if a.Store? {
      AdvanceFrame(w.mem, w.detector.producer, a.spurious);
      hide Advance;
    } else if OfWriter(a) || OfDetector(a) || OfCapture(a) {
      hide NextCamera, Memory.TakeInbox, Advance, Stored;
    } else {
      hide NextCamera, Memory.TakeInbox, Advance, Stored, Released;
    }
  }

  lemma InboxStep(w: World, a: Action, c: u32, n: nat)
    requires Enabled(w, a) && KeepsInbox(a) && FromCameras(a, n) && !Picks(w, a, c)
    requires c in w.mem.inbox && forall k :: k in w.mem.inbox ==> k < n
    ensures var v := Apply(w, a);
            && c in v.mem.inbox && (forall k :: k in v.mem.inbox ==> k < n)
            && (if a.PickDetection? then
                  v.mem.lastDetected == NextCamera(w.mem.inbox.Keys, w.mem.lastDetected)
                else v.mem.lastDetected == w.mem.lastDetected)
  {
    if a.PickDetection? { PickLeavesOthers(w, c); } else { OthersLeaveInbox(w, a); }
    hide NextCamera, Enabled, Apply;
  }

  /** A camera whose frame is pending is taken by the worker within `n` picks
      over `n` cameras, whatever the other threads do in between. */
  lemma {:induction false} DetectionIsFair(w: World, acts: seq<Action>, c: u32, n: nat)
    requires IsRun(w, acts)
    requires c in w.mem.inbox && forall k :: k in w.mem.inbox ==> k < n
    requires forall i :: 0 <= i < |acts| ==> KeepsInbox(acts[i]) && FromCameras(acts[i], n)
    ensures Distance(w.mem.lastDetected, c, n) <= n
    ensures PickCount(acts) >= Distance(w.mem.lastDetected, c, n) ==> EverPicks(w, acts, c)
    decreases |acts|
  {
    PickApproaches(w.mem.inbox.Keys, w.mem.lastDetected, c, n);
    if acts != [] && !Picks(w, acts[0], c) {
      assert KeepsInbox(acts[0]) && FromCameras(acts[0], n);
      InboxStep(w, acts[0], c, n);
      hide Apply, Enabled, NextCamera;
      DetectionIsFair(Apply(w, acts[0]), acts[1..], c, n);
    }
  }

  // ---- latest wins --------------------------------------------------------------

  /** A pending frame stays the camera's pending frame until the worker takes it
      or the camera offers a newer one. */
  lemma {:induction false} NewestStaysPending(w: World, acts: seq<Action>, f: Frame)
    requires IsRun(w, acts) && f.camera in w.mem.inbox && w.mem.inbox[f.camera] == f
    requires forall i :: 0 <= i < |acts| ==>
               KeepsInbox(acts[i]) && (acts[i].Offer? ==> acts[i].frame.camera != f.camera)
    ensures EverPicks(w, acts, f.camera)
            || (f.camera in After(w, acts).mem.inbox && After(w, acts).mem.inbox[f.camera] == f)
    decreases |acts|
  {
    if acts != [] && !Picks(w, acts[0], f.camera) {
      assert KeepsInbox(acts[0]);
      if acts[0].PickDetection? { PickLeavesOthers(w, f.camera); }
      else { OthersLeaveInbox(w, acts[0]); }
      hide Apply, Enabled, NextCamera;
      NewestStaysPending(Apply(w, acts[0]), acts[1..], f);
    }
  }
}
