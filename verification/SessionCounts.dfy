/** How many frames a session is asked to store, and in what portions they reach the
    writers (src/frame_processor.cpp:319-353, 444-453, 516-528). */
module SessionCounts {
  import opened Types
  import opened Sums
  import opened Products
  import opened ProcessorMemory
  import opened Pipeline
  import opened PipelineSafety

  // ---- every frame counts ---------------------------------------------------------------

  /** A step with which a session that saves is asked to store one more frame: any frame
      in BUFFER and BATCH, a captured one in TRIGGER, one with a detection in the detector
      modes. */
  predicate Asks(w: World, a: Action) {
    w.mem.cfg.save &&
    match w.mem.cfg.mode
    case NoMode => false
    case Buffer | Batch => a.Offer?
    case Trigger => a.Offer? && a.wanted
    case Checkerboard | Checkerboard2x2 | Aruco | Aruco2x2 => a.Detect? && a.found
  }

  /** The frames the current session was asked to store. */
  ghost function Asked(before: nat, w: World, acts: seq<Action>): nat
    requires IsRun(w, acts)
    decreases |acts|
  {
    if acts == [] then before
    else
      Asked(if acts[0].StartSession? then 0 else if Asks(w, acts[0]) then before + 1 else before,
            Apply(w, acts[0]), acts[1..])
  }

  /** Cameras and worker are on only in a session that takes frames. */
  predicate Taking(w: World) {
    && (w.control.Live? || w.control.Flushing? || w.control.FlushLowering? ==> w.mem.enabled)
    && (w.camerasOn ==> w.control.Live?)
    && (!w.mem.cfg.mode.IsDetector() ==> w.detector.Absent?)
  }

  lemma AskStep(w: World, a: Action)
    requires Taking(w) && Enabled(w, a)
    ensures Taking(Apply(w, a))
    ensures Apply(w, a).log.offered ==
            if a.StartSession? then 0 else if Asks(w, a) then w.log.offered + 1 else w.log.offered
  {
    if OfCapture(a) || OfDetector(a) {
      AskMoves(w, a);
    } else if OfWriter(a) {
      hide ApplyCapture, ApplyDetector, ApplyControl;
    } else {
      hide ApplyCapture, ApplyDetector, ApplyWriter, Bytes;
    }
  }

  lemma AskMoves(w: World, a: Action)
    requires Taking(w) && Enabled(w, a) && (OfCapture(a) || OfDetector(a))
    ensures Taking(Apply(w, a))
    ensures Apply(w, a).log.offered == if Asks(w, a) then w.log.offered + 1 else w.log.offered
  {
    if OfCapture(a) {
      hide ApplyDetector, ApplyWriter, ApplyControl, Memory.Fits, Memory.Accept;
    } else {
      hide ApplyCapture, ApplyWriter, ApplyControl, NextCamera, Memory.Fits, Memory.Accept;
    }
  }

  lemma {:induction false} AskedSoFar(w: World, acts: seq<Action>)
    requires Taking(w) && IsRun(w, acts)
    ensures After(w, acts).log.offered == Asked(w.log.offered, w, acts)
    decreases |acts|
  {
    hide Apply, Enabled, Taking, Asks;
    if acts != [] {
      AskStep(w, acts[0]);
      AskedSoFar(Apply(w, acts[0]), acts[1..]);
    }
  }

  /** In every run every frame the session was asked to store is accepted, counted as
      dropped, or in the hand of a capture thread or of the worker. */
  lemma EveryFrameCounts(n: nat, acts: seq<Action>)
    requires CleanRun(Init(n), acts) && IsRun(Init(n), acts)
    ensures var w := After(Init(n), acts);
            Asked(0, Init(n), acts)
            == |w.log.accepted| + w.mem.dropped + Sum(BusyIn(w.captures)) + BusyDetector(w.detector)
  {
    AskedSoFar(Init(n), acts);
    InitHolds(n);
    RunKeeps(Init(n), acts);
    hide Structure, Accounting, Ordering, Finishing, IsRun, After, Asked, CleanRun;
  }

  // ---- batches --------------------------------------------------------------------------

  function BatchSize(c: Config): nat { if c.batchSize == 0 then 1 else c.batchSize }

  /** Frames pile up in the partial batch only until it is full. */
  predicate Piled(w: World) {
    w.mem.cfg.mode.Batch? && w.mem.cfg.save && !Down(w.control) ==>
      |w.mem.pending| == |w.log.accepted| % BatchSize(w.mem.cfg)
  }

  lemma NextPile(a: nat, b: nat)
    requires 0 < b
    ensures (a + 1) % b == if a % b + 1 >= b then 0 else a % b + 1
  {
    assert a == (a / b) * b + a % b;
    if a % b + 1 >= b {
      assert a + 1 == (a / b + 1) * b;
      MultipleOf(a / b + 1, b);
    } else {
      RemainderOf(a / b, b, a % b + 1);
    }
  }

  lemma MultipleOf(q: nat, b: nat)
    requires 0 < b
    ensures (q * b) % b == 0
  {
    RemainderOf(q, b, 0);
  }

  lemma RemainderOf(q: nat, b: nat, r: nat)
    requires r < b
    ensures (q * b + r) % b == r
  {
    var x := q * b + r;
    var d, m := x / b, x % b;
    assert x == d * b + m;
    Next(q, b);
    Next(d, b);
    if d > q { Monotone(q + 1, d, b); } else if d < q { Monotone(d + 1, q, b); }
  }

  /** One step of a thread that stores a frame. */
  lemma PileAdvance(m: Memory, p: Producer, spurious: bool, accepted: nat)
    requires !p.Idle?
    requires m.cfg.mode.Batch? && m.cfg.save ==> |m.pending| == accepted % BatchSize(m.cfg)
    ensures var n := Advance(m, p, spurious).0;
            && n.cfg == m.cfg
            && (m.cfg.mode.Batch? && m.cfg.save ==>
                  |n.pending| == (accepted + (if p.Reserved? then 1 else 0)) % BatchSize(m.cfg))
  {
    NextPile(accepted, BatchSize(m.cfg));
    hide Memory.Fits;
  }

  lemma PileStep(w: World, a: Action)
    requires Piled(w) && Enabled(w, a)
    ensures Piled(Apply(w, a))
  {
    if a.Produce? || a.Store? {
      PileProduced(w, a);
    } else if OfCapture(a) || OfDetector(a) {
      PileOffered(w, a);
    } else if OfWriter(a) {
      hide ApplyCapture, ApplyDetector, ApplyControl;
    } else {
      PileControlled(w, a);
    }
  }

  lemma PileControlled(w: World, a: Action)
    requires Piled(w) && Enabled(w, a) && OfControl(a)
    ensures Piled(Apply(w, a))
  {
    hide ApplyCapture, ApplyDetector, ApplyWriter, Bytes;
  }

  lemma PileProduced(w: World, a: Action)
    requires Piled(w) && Enabled(w, a) && (a.Produce? || a.Store?)
    ensures Piled(Apply(w, a))
  {
    if !Down(w.control) {
      var p := if a.Produce? then w.captures[a.thread] else w.detector.producer;
      PileAdvance(w.mem, p, a.spurious, |w.log.accepted|);
    }
    hide ApplyWriter, ApplyControl, Advance, Bytes;
  }

  lemma PileOffered(w: World, a: Action)
    requires Piled(w) && Enabled(w, a) && (OfCapture(a) || OfDetector(a)) && !a.Produce? && !a.Store?
    ensures Piled(Apply(w, a))
  {
    hide ApplyWriter, ApplyControl, NextCamera, Advance;
  }

  lemma {:induction false} RunPiles(w: World, acts: seq<Action>)
    requires Piled(w) && IsRun(w, acts)
    ensures Piled(After(w, acts))
    decreases |acts|
  {
    hide Apply, Enabled, Piled;
    if acts != [] {
      PileStep(w, acts[0]);
      RunPiles(Apply(w, acts[0]), acts[1..]);
    }
  }

  /** Until the batch is handed over at the stop, the writers get the accepted frames in
      whole batches, and only the frames of a batch that is not full yet are held back. */
  lemma BatchesAreWhole(n: nat, acts: seq<Action>)
    requires CleanRun(Init(n), acts) && IsRun(Init(n), acts)
    requires var w := After(Init(n), acts); w.mem.cfg.mode.Batch? && w.mem.cfg.save && !Down(w.control)
    ensures var w := After(Init(n), acts); var size := BatchSize(w.mem.cfg);
            && |w.mem.pending| < size
            && |w.mem.pending| == |w.log.accepted| % size
            && (|w.log.popped| + |w.mem.queue|) % size == 0
  {
    hide *;
    NothingPiled(n);
    RunPiles(Init(n), acts);
    InOrder(n, acts);
    Whole(After(Init(n), acts));
  }

  lemma NothingPiled(n: nat)
    ensures Piled(Init(n))
  {
  }

  lemma InOrder(n: nat, acts: seq<Action>)
    requires CleanRun(Init(n), acts) && IsRun(Init(n), acts)
    ensures Ordering(After(Init(n), acts))
  {
    hide Structure, Accounting, Ordering, Finishing, Counting, IsRun, After, CleanRun, Init;
    InitHolds(n);
    RunKeeps(Init(n), acts);
  }

  lemma Whole(w: World)
    requires Piled(w) && Ordering(w) && w.mem.cfg.mode.Batch? && w.mem.cfg.save && !Down(w.control)
    ensures |w.mem.pending| < BatchSize(w.mem.cfg)
    ensures |w.mem.pending| == |w.log.accepted| % BatchSize(w.mem.cfg)
    ensures (|w.log.popped| + |w.mem.queue|) % BatchSize(w.mem.cfg) == 0
  {
    var b, a := BatchSize(w.mem.cfg), |w.log.accepted|;
    assert a == |w.log.popped| + |w.mem.queue| + |w.mem.pending|;
    assert a == (a / b) * b + a % b;
    MultipleOf(a / b, b);
  }
}
