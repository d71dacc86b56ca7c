/** What the detection worker takes, stores and shows, told from the steps of a run
    (src/frame_processor.cpp:354-372, 460-545). */
module DetectorHistory {
  import opened Types
  import opened ProcessorMemory
  import opened Pipeline
  import opened PipelineFairness

  // ---- what it takes ------------------------------------------------------------------

  /** The last frame camera `c` offered to a detecting session since the last start or
      reset; `before` is what it had offered when the run began. */
  ghost function LastOffered(before: Option<Frame>, w: World, acts: seq<Action>, c: u32): Option<Frame>
    requires IsRun(w, acts)
    decreases |acts|
  {
    if acts == [] then before
    else
      var a := acts[0];
      LastOffered(if !KeepsInbox(a) then None
                  else if Offers(w, a) && a.frame.camera == c then Some(a.frame)
                  else before,
                  Apply(w, a), acts[1..], c)
  }

  /** The same, but gone once the worker takes a frame of `c`. */
  ghost function Untaken(before: Option<Frame>, w: World, acts: seq<Action>, c: u32): Option<Frame>
    requires IsRun(w, acts)
    decreases |acts|
  {
    if acts == [] then before
    else
      var a := acts[0];
      Untaken(if !KeepsInbox(a) || Picks(w, a, c) then None
              else if Offers(w, a) && a.frame.camera == c then Some(a.frame)
              else before,
              Apply(w, a), acts[1..], c)
  }

  function Lookup(inbox: map<u32, Frame>, c: u32): Option<Frame> {
    if c in inbox then Some(inbox[c]) else None
  }

  lemma InboxStep(w: World, a: Action, c: u32)
    requires Enabled(w, a)
    ensures Lookup(Apply(w, a).mem.inbox, c) ==
            if !KeepsInbox(a) || Picks(w, a, c) then None
            else if Offers(w, a) && a.frame.camera == c then Some(a.frame)
            else Lookup(w.mem.inbox, c)
  {
    if !KeepsInbox(a) {
      hide ApplyCapture, ApplyDetector, ApplyWriter;
    } else if a.PickDetection? {
      if c in w.mem.inbox && !Picks(w, a, c) { PickLeavesOthers(w, c); }
      hide NextCamera;
    } else {
      OthersLeaveInbox(w, a);
      hide Apply, Enabled;
    }
  }

  /** In every run a camera has a frame pending exactly if it offered one since the
      worker last took one of its frames, and it is the last one offered. */
  lemma {:induction false} PendingExactly(w: World, acts: seq<Action>, c: u32)
    requires IsRun(w, acts)
    ensures Lookup(After(w, acts).mem.inbox, c) == Untaken(Lookup(w.mem.inbox, c), w, acts, c)
    decreases |acts|
  {
    hide Apply, Enabled, Lookup, Picks, Offers;
    if acts != [] {
      InboxStep(w, acts[0], c);
      PendingExactly(Apply(w, acts[0]), acts[1..], c);
    }
  }

  lemma {:induction false} UntakenIsLast(a: Option<Frame>, b: Option<Frame>, w: World, acts: seq<Action>, c: u32)
    requires IsRun(w, acts) && (a.Some? ==> a == b)
    ensures Untaken(a, w, acts, c).Some? ==> Untaken(a, w, acts, c) == LastOffered(b, w, acts, c)
    decreases |acts|
  {
    hide Apply, Enabled;
    if acts != [] {
      var x := acts[0];
      UntakenIsLast(if !KeepsInbox(x) || Picks(w, x, c) then None
                    else if Offers(w, x) && x.frame.camera == c then Some(x.frame) else a,
                    if !KeepsInbox(x) then None
                    else if Offers(w, x) && x.frame.camera == c then Some(x.frame) else b,
                    Apply(w, x), acts[1..], c);
    }
  }

  /** Latest wins: in every run, whatever was offered, taken, started, reset and
      stopped before, the frame the worker takes for a camera is the last one the
      camera offered. */
  lemma TakesNewest(n: nat, acts: seq<Action>, c: u32)
    requires IsRun(Init(n), acts) && Enabled(After(Init(n), acts), PickDetection)
    requires Picks(After(Init(n), acts), PickDetection, c)
    ensures var d := Apply(After(Init(n), acts), PickDetection).detector;
            d.Detecting? && d.frame.camera == c && LastOffered(None, Init(n), acts, c) == Some(d.frame)
  {
    var w := After(Init(n), acts);
    PendingExactly(Init(n), acts, c);
    UntakenIsLast(None, None, Init(n), acts, c);
    InboxKeyed(Init(n), acts);
    hide After, IsRun, LastOffered, Untaken, NextCamera;
  }

  /** Every pending frame is filed under its own camera. */
  predicate Keyed(m: Memory) { forall c :: c in m.inbox ==> m.inbox[c].camera == c }

  lemma KeyedStep(w: World, a: Action)
    requires Enabled(w, a) && Keyed(w.mem)
    ensures Keyed(Apply(w, a).mem)
  {
    forall c | c in Apply(w, a).mem.inbox ensures Apply(w, a).mem.inbox[c].camera == c {
      InboxStep(w, a, c);
    }
  }

  lemma {:induction false} InboxKeyed(w: World, acts: seq<Action>)
    requires IsRun(w, acts) && Keyed(w.mem)
    ensures Keyed(After(w, acts).mem)
    decreases |acts|
  {
    hide Apply, Enabled, Keyed;
    if acts != [] {
      KeyedStep(w, acts[0]);
      InboxKeyed(Apply(w, acts[0]), acts[1..]);
    }
  }

  // ---- what it stores and shows ----------------------------------------------------------

  /** What the worker did in the current session: the frames it took, those in which
      something was found while frames are saved, and those it published. */
  datatype Session = Session(taken: seq<Frame>, hits: seq<Frame>, shown: seq<Frame>)

  ghost function Noted(s: Session, w: World, a: Action): Session
    requires Enabled(w, a)
  {
    match a
    case StartSession(_, _) => Session([], [], [])
    case PickDetection =>
      s.(taken := s.taken + [w.mem.inbox[NextCamera(w.mem.inbox.Keys, w.mem.lastDetected)]])
    case Detect(found) => if found && w.mem.cfg.save then s.(hits := s.hits + [w.detector.frame]) else s
    case PublishDetection => s.(shown := s.shown + [w.detector.frame])
    case _ => s
  }

  ghost function SessionOf(s: Session, w: World, acts: seq<Action>): Session
    requires IsRun(w, acts)
    decreases |acts|
  {
    if acts == [] then s else SessionOf(Noted(s, w, acts[0]), Apply(w, acts[0]), acts[1..])
  }

  /** The frames of `fs` that are marked. */
  function Selected(fs: seq<Frame>, marks: seq<bool>): seq<Frame>
    requires |fs| == |marks|
  {
    if fs == [] then []
    else
      var n := |fs| - 1;
      Selected(fs[..n], marks[..n]) + (if marks[n] then [fs[n]] else [])
  }

  function Unmarked(marks: seq<bool>): nat {
    if marks == [] then 0
    else Unmarked(marks[..|marks| - 1]) + (if marks[|marks| - 1] then 0 else 1)
  }

  /** The frame the worker is busy with. */
  function InWork(d: Detector): seq<Frame> {
    if d.Detecting? || d.Storing? || d.Publishing? then [d.frame] else []
  }

  function ToStore(d: Detector): seq<Frame> { if d.Storing? then [d.frame] else [] }

  /** In a detecting session only the worker stores frames. */
  predicate OnlyWorker(w: World) {
    && (w.camerasOn ==> w.control.Live?)
    && (forall t :: 0 <= t < |w.captures| && !w.captures[t].Idle? ==> w.camerasOn && Storable(w.mem.cfg, true))
    && (w.detector.Storing? ==> !w.detector.producer.Idle? && w.detector.producer.frame == w.detector.frame)
    && (!w.mem.cfg.mode.IsDetector() ==> w.detector.Absent?)
    && (w.control.Joining? ==> w.detector.Exited? || w.detector.Absent?)
  }

  /** The session so far: `marks` says which of the hits were accepted. */
  ghost predicate Told(w: World, s: Session, marks: seq<bool>) {
    && s.taken == s.shown + InWork(w.detector)
    && |marks| <= |s.hits| && s.hits[|marks|..] == ToStore(w.detector)
    && (w.mem.cfg.mode.IsDetector() ==>
          && w.log.accepted == Selected(s.hits[..|marks|], marks)
          && w.mem.dropped == Unmarked(marks))
  }

  lemma OnlyWorkerStep(w: World, a: Action)
    requires OnlyWorker(w) && Enabled(w, a)
    ensures OnlyWorker(Apply(w, a))
  {
    if OfCapture(a) || OfDetector(a) {
      OnlyWorkerMoves(w, a);
    } else if OfWriter(a) {
      hide ApplyCapture, ApplyDetector, ApplyControl;
    } else {
      hide ApplyCapture, ApplyDetector, ApplyWriter, Bytes;
    }
  }

  lemma OnlyWorkerMoves(w: World, a: Action)
    requires OnlyWorker(w) && Enabled(w, a) && (OfCapture(a) || OfDetector(a))
    ensures OnlyWorker(Apply(w, a))
  {
    if OfCapture(a) {
      hide ApplyDetector, ApplyWriter, ApplyControl, Memory.Fits, Memory.Accept;
    } else {
      hide ApplyCapture, ApplyWriter, ApplyControl, NextCamera, Memory.Fits, Memory.Accept;
    }
  }

  lemma AcceptedBy(w: World, a: Action)
    requires OnlyWorker(w) && Enabled(w, a) && !a.StartSession? && !a.Store?
    ensures w.mem.cfg.mode.IsDetector() ==>
              Apply(w, a).log.accepted == w.log.accepted && Apply(w, a).mem.dropped == w.mem.dropped
    ensures Apply(w, a).mem.cfg == w.mem.cfg
  {
    if OfCapture(a) || OfDetector(a) {
      AcceptedByThread(w, a);
    } else if OfWriter(a) {
      hide ApplyCapture, ApplyDetector, ApplyControl;
    } else {
      hide ApplyCapture, ApplyDetector, ApplyWriter, Bytes;
    }
  }

  lemma AcceptedByThread(w: World, a: Action)
    requires OnlyWorker(w) && Enabled(w, a) && (OfCapture(a) || OfDetector(a)) && !a.Store?
    ensures w.mem.cfg.mode.IsDetector() ==>
              Apply(w, a).log.accepted == w.log.accepted && Apply(w, a).mem.dropped == w.mem.dropped
    ensures Apply(w, a).mem.cfg == w.mem.cfg
  {
    if OfCapture(a) {
      if a.Produce? { assert !w.captures[a.thread].Idle?; }
      hide ApplyDetector, ApplyWriter, ApplyControl, Advance;
    } else {
      hide ApplyCapture, ApplyWriter, ApplyControl, NextCamera;
    }
  }

  /** What a step does to the worker's place and to the session's notes. */
  lemma PlaceStep(w: World, s: Session, a: Action)
    requires OnlyWorker(w) && Enabled(w, a) && !a.StartSession? && !a.Store?
    requires s.taken == s.shown + InWork(w.detector)
    ensures var v, t := Apply(w, a), Noted(s, w, a);
            && t.taken == t.shown + InWork(v.detector)
            && t.hits == s.hits + (if w.detector.Storing? then [] else ToStore(v.detector))
            && (w.detector.Storing? ==> v.detector == w.detector)
  {
    if OfDetector(a) {
      hide ApplyCapture, ApplyWriter, ApplyControl, NextCamera;
    } else if OfCapture(a) {
      hide ApplyDetector, ApplyWriter, ApplyControl, Advance;
    } else if OfWriter(a) {
      hide ApplyCapture, ApplyDetector, ApplyControl;
    } else {
      hide ApplyCapture, ApplyDetector, ApplyWriter, Bytes;
    }
  }

  /** A step of the reservation and the push: the hit is still in hand, or accepted, or
      dropped. */
  lemma StoreStep(w: World, a: Action)
    requires OnlyWorker(w) && Enabled(w, a) && a.Store?
    ensures var v, f := Apply(w, a), w.detector.frame;
            && v.mem.cfg == w.mem.cfg && InWork(v.detector) == InWork(w.detector)
            && (|| (v.detector.Storing? && v.log == w.log && v.mem.dropped == w.mem.dropped)
                || (v.detector.Publishing? && v.log.accepted == w.log.accepted + [f] && v.mem.dropped == w.mem.dropped)
                || (v.detector.Publishing? && v.log == w.log && v.mem.dropped == w.mem.dropped + 1))
  {
    hide ApplyCapture, ApplyWriter, ApplyControl, Memory.Fits;
  }

  lemma OneMark(hits: seq<Frame>, marks: seq<bool>, f: Frame, kept: bool)
    requires |hits| == |marks| + 1 && hits[|marks|] == f
    ensures Selected(hits, marks + [kept]) == Selected(hits[..|marks|], marks) + (if kept then [f] else [])
    ensures Unmarked(marks + [kept]) == Unmarked(marks) + (if kept then 0 else 1)
  {
    assert (marks + [kept])[..|marks|] == marks;
  }

  lemma StartTold(w: World, s: Session, a: Action)
    requires Enabled(w, a) && a.StartSession?
    ensures Told(Apply(w, a), Noted(s, w, a), [])
  {
    hide ApplyCapture, ApplyDetector, ApplyWriter;
  }

  /** The notes after one more hit has been accepted or dropped. */
  lemma StoreTold(w: World, s: Session, marks: seq<bool>, v: World) returns (next: seq<bool>)
    requires Told(w, s, marks) && w.detector.Storing?
    requires v.mem.cfg == w.mem.cfg && InWork(v.detector) == InWork(w.detector)
    requires (|| (v.detector.Storing? && v.log == w.log && v.mem.dropped == w.mem.dropped)
              || (v.detector.Publishing? && v.log.accepted == w.log.accepted + [w.detector.frame]
                  && v.mem.dropped == w.mem.dropped)
              || (v.detector.Publishing? && v.log == w.log && v.mem.dropped == w.mem.dropped + 1))
    ensures Told(v, s, next)
  {
    next := marks;
    if v.detector.Publishing? {
      var kept := v.mem.dropped == w.mem.dropped;
      next := marks + [kept];
      assert s.hits[|marks|..] == [w.detector.frame];
      assert s.hits[|marks|..][0] == s.hits[|marks|] && s.hits[..|marks| + 1] == s.hits;
      OneMark(s.hits, marks, w.detector.frame, kept);
      hide Selected, Unmarked;
      assert w.log.accepted + [] == w.log.accepted;
    }
  }

  lemma OtherTold(w: World, s: Session, marks: seq<bool>, a: Action)
    requires OnlyWorker(w) && Told(w, s, marks) && Enabled(w, a) && !a.StartSession? && !a.Store?
    ensures Told(Apply(w, a), Noted(s, w, a), marks)
  {
    var v, t := Apply(w, a), Noted(s, w, a);
    AcceptedBy(w, a);
    PlaceStep(w, s, a);
    hide Apply, Enabled, Noted, Selected, Unmarked, OnlyWorker, InWork;
    assert t.hits[..|marks|] == s.hits[..|marks|];
    assert t.hits[|marks|..] == ToStore(v.detector);
  }

  lemma StepTold(w: World, s: Session, marks: seq<bool>, a: Action) returns (next: seq<bool>)
    requires OnlyWorker(w) && Told(w, s, marks) && Enabled(w, a)
    ensures Told(Apply(w, a), Noted(s, w, a), next)
  {
    if a.StartSession? {
      StartTold(w, s, a);
      next := [];
    } else if a.Store? {
      StoreStep(w, a);
      assert w.detector.Storing? && Noted(s, w, a) == s;
      hide Apply, Enabled, Told;
      next := StoreTold(w, s, marks, Apply(w, a));
    } else {
      OtherTold(w, s, marks, a);
      next := marks;
    }
  }

  lemma {:induction false} RunTold(w: World, s: Session, marks: seq<bool>, acts: seq<Action>)
    returns (last: seq<bool>)
    requires OnlyWorker(w) && Told(w, s, marks) && IsRun(w, acts)
    ensures Told(After(w, acts), SessionOf(s, w, acts), last)
    decreases |acts|
  {
    hide Apply, Enabled, OnlyWorker, Told, Noted;
    if acts == [] {
      last := marks;
    } else {
      OnlyWorkerStep(w, acts[0]);
      var next := StepTold(w, s, marks, acts[0]);
      last := RunTold(Apply(w, acts[0]), Noted(s, w, acts[0]), next, acts[1..]);
    }
  }

  /** In every run of a detecting session: the frames the worker is through with were
      published, in the order it took them; the frames accepted for saving are those in
      which something was found, in that order, but for the ones counted as dropped and
      the one in its hand. */
  lemma DetectionsStored(n: nat, acts: seq<Action>) returns (marks: seq<bool>)
    requires IsRun(Init(n), acts) && After(Init(n), acts).mem.cfg.mode.IsDetector()
    ensures var w, s := After(Init(n), acts), SessionOf(Session([], [], []), Init(n), acts);
            && s.taken == s.shown + InWork(w.detector)
            && |marks| <= |s.hits| && s.hits[|marks|..] == ToStore(w.detector)
            && w.log.accepted == Selected(s.hits[..|marks|], marks)
            && w.mem.dropped == Unmarked(marks)
  {
    var none := Session([], [], []);
    assert OnlyWorker(Init(n)) && Told(Init(n), none, []);
    marks := RunTold(Init(n), none, [], acts);
  }
}
