/** Progress of the pipeline: a requested stop always completes, and a camera
    whose frame waits for detection is served within a bounded number of picks. */
module PipelineProgress {
  import opened Types
  import opened Sums
  import opened ProcessorMemory
  import opened Pipeline
  import opened PipelineSafety

  // ---- a stop completes -----------------------------------------------------------

  predicate BeingStopped(w: World) { w.control.Stopping? || w.control.Joining? }

  /** The step is a compare-exchange that could have succeeded and did not. */
  predicate SpuriousFailure(w: World, a: Action) {
    match a
    case Store(spurious) =>
      && spurious && w.detector.Storing? && w.detector.producer.Trying?
      && w.detector.producer.held == w.mem.backlog
      && w.mem.Fits(w.mem.backlog, w.detector.producer.frame.bytes)
    case Release(i, spurious) =>
      && spurious && i < |w.writers| && w.writers[i].Lowering?
      && w.writers[i].held == w.mem.backlog
    case _ => false
  }

  function ProducerWork(p: Producer): nat {
    match p
    case Idle => 0
    case Loading(_) => 7
    case Trying(_, _) => 6
    case Reserved(_) => 5
  }

  function DetectorWork(d: Detector): nat {
    match d
    case Absent => 0
    case Exited => 0
    case Waiting => 1
    case Publishing(_) => 2
    case Storing(_, p) => 2 + ProducerWork(p)
    case Detecting(_) => 10
  }

  function WriterWork(x: Writer): nat {
    match x
    case Gone => 0
    case Ready => 1
    case Lowering(_, _) => 2
    case Releasing(_) => 3
    case Popped(_) => 4
  }

  function WriterWorks(xs: seq<Writer>): (s: seq<nat>)
    ensures |s| == |xs|
  {
    seq(|xs|, i requires 0 <= i < |xs| => WriterWork(xs[i]))
  }

  /** Steps still needed by the threads, not counting failed compare-exchanges. */
  function Work(w: World): nat {
    10 * |w.mem.inbox| + DetectorWork(w.detector)
    + 4 * (|w.mem.queue| + |w.mem.pending|)
    + Sum(WriterWorks(w.writers))
    + (if w.control.Stopping? then 2 else if w.control.Joining? then 1 else 0)
  }

  function StaleWriter(x: Writer, backlog: nat): nat {
    if x.Lowering? && x.held != backlog then 1 else 0
  }

  function StaleWriters(xs: seq<Writer>, backlog: nat): (s: seq<nat>)
    ensures |s| == |xs|
  {
    seq(|xs|, i requires 0 <= i < |xs| => StaleWriter(xs[i], backlog))
  }

  function StaleDetector(d: Detector, backlog: nat): nat {
    if d.Storing? && d.producer.Trying? && d.producer.held != backlog then 1 else 0
  }

  /** Threads whose next compare-exchange must fail because the counter moved. */
  function Stale(w: World): nat {
    Sum(StaleWriters(w.writers, w.mem.backlog)) + StaleDetector(w.detector, w.mem.backlog)
  }

  /** Bounds the steps a stop still takes. */
  function Rank(w: World): nat { (|w.writers| + 2) * Work(w) + Stale(w) }

  lemma StaleBounded(w: World)
    ensures Stale(w) <= |w.writers| + 1
  {
    SumGrowth(seq(|w.writers|, _ => 0), StaleWriters(w.writers, w.mem.backlog));
    SumZero(seq(|w.writers|, _ => 0));
  }

  lemma RankDrops(w: World, v: World)
    requires |v.writers| <= |w.writers|
    requires Work(v) < Work(w)
    ensures Rank(v) < Rank(w)
  {
    StaleBounded(v);
    hide Work, Stale;
    var k := |w.writers| + 2;
    assert (|v.writers| + 2) * Work(v) <= k * Work(v);
    assert k * Work(v) <= k * (Work(w) - 1);
  }

  lemma WorkChanges(xs: seq<Writer>, i: nat, x: Writer, backlog: nat)
    requires i < |xs|
    ensures Sum(WriterWorks(xs[i := x])) == Sum(WriterWorks(xs)) - WriterWork(xs[i]) + WriterWork(x)
    ensures Sum(StaleWriters(xs[i := x], backlog))
         == Sum(StaleWriters(xs, backlog)) - StaleWriter(xs[i], backlog) + StaleWriter(x, backlog)
  {
    assert WriterWorks(xs[i := x]) == WriterWorks(xs)[i := WriterWork(x)];
    SumUpdate(WriterWorks(xs), i, WriterWork(x));
    assert StaleWriters(xs[i := x], backlog)
        == StaleWriters(xs, backlog)[i := StaleWriter(x, backlog)];
    SumUpdate(StaleWriters(xs, backlog), i, StaleWriter(x, backlog));
  }

  lemma AcceptWork(m: Memory, f: Frame)
    requires !m.cfg.mode.Buffer?
    ensures |m.Accept(f).queue| + |m.Accept(f).pending| == |m.queue| + |m.pending| + 1
    ensures m.Accept(f).inbox == m.inbox
  {
  }

  lemma PickShrinks(m: Memory)
    requires m.inbox != map[]
    ensures |m.TakeInbox().0.inbox| == |m.inbox| - 1
    ensures m.TakeInbox().0 == m.(inbox := m.TakeInbox().0.inbox, lastDetected := m.TakeInbox().0.lastDetected)
  {
    var c := NextCamera(m.inbox.Keys, m.lastDetected);
    var rest := m.inbox - {c};
    assert rest.Keys == m.inbox.Keys - {c};
    assert |rest| == |rest.Keys| && |m.inbox| == |m.inbox.Keys|;
  }

  lemma StoreProgress(w: World, spurious: bool)
    requires Structure(w) && BeingStopped(w) && Enabled(w, Store(spurious))
    requires !SpuriousFailure(w, Store(spurious))
    ensures Rank(Stored(w, spurious)) < Rank(w)
  {
    var v := Stored(w, spurious);
    if w.detector.producer.Reserved? {
      AcceptWork(w.mem, w.detector.producer.frame);
    }
    hide Structure, Sum, WriterWorks, StaleWriters, Memory.Accept;
    if Work(v) < Work(w) {
      RankDrops(w, v);
    }
  }

  /** A step of the worker that stores nothing uses up work and touches nobody else. */
  lemma DetectorMoves(w: World, a: Action)
    requires BeingStopped(w) && OfDetector(a) && !a.Store? && Enabled(w, a)
    ensures var v := Apply(w, a);
            && v.writers == w.writers && v.control == w.control
            && v.mem.queue == w.mem.queue && v.mem.pending == w.mem.pending
            && 10 * |v.mem.inbox| + DetectorWork(v.detector) < 10 * |w.mem.inbox| + DetectorWork(w.detector)
  {
    if a.PickDetection? {
      PickMoves(w);
    }
    hide NextCamera, Memory.TakeInbox, ApplyCapture, ApplyWriter, ApplyControl, Stored;
    if a.PickDetection? { hide Apply, Enabled; }
  }

  lemma PickMoves(w: World)
    requires Enabled(w, PickDetection)
    ensures var v := Apply(w, PickDetection);
            && v.writers == w.writers && v.control == w.control && v.detector.Detecting?
            && v.mem.queue == w.mem.queue && v.mem.pending == w.mem.pending
            && |v.mem.inbox| == |w.mem.inbox| - 1
  {
    hide ApplyCapture, ApplyWriter, ApplyControl, Stored, NextCamera;
    PickShrinks(w.mem);
    hide Memory.TakeInbox;
  }

  lemma DetectorProgress(w: World, a: Action)
    requires Structure(w) && BeingStopped(w) && OfDetector(a) && Enabled(w, a)
    requires !SpuriousFailure(w, a)
    ensures Rank(Apply(w, a)) < Rank(w)
  {
    if a.Store? {
      StoreProgress(w, a.spurious);
      hide Rank, Stored, Structure;
    } else {
      DetectorMoves(w, a);
      hide Apply, Enabled, DetectorWork, Structure, Sum, WriterWorks, StaleWriters, Rank, Stale;
      RankDrops(w, Apply(w, a));
    }
  }

  /** What a writer's step changes, as far as the rank looks. */
  lemma WriterMoves(w: World, a: Action)
    requires OfWriter(a) && Enabled(w, a) && !SpuriousFailure(w, a)
    ensures a.writer < |w.writers|
    ensures var v := Apply(w, a); var x, y := w.writers[a.writer], v.writers[a.writer];
            && |v.writers| == |w.writers| && v.writers == w.writers[a.writer := y]
            && v.detector == w.detector && v.control == w.control
            && v.mem.inbox == w.mem.inbox && v.mem.pending == w.mem.pending
            && 4 * |v.mem.queue| + WriterWork(y) <= 4 * |w.mem.queue| + WriterWork(x)
            && (4 * |v.mem.queue| + WriterWork(y) == 4 * |w.mem.queue| + WriterWork(x) ==>
                  v.mem == w.mem && StaleWriter(x, w.mem.backlog) == 1 && StaleWriter(y, w.mem.backlog) == 0)
  {
    hide ApplyCapture, ApplyDetector, ApplyControl;
  }

  lemma WriterProgress(w: World, a: Action)
    requires BeingStopped(w) && OfWriter(a) && Enabled(w, a)
    requires !SpuriousFailure(w, a)
    ensures Rank(Apply(w, a)) < Rank(w)
  {
    hide Enabled, Apply, SpuriousFailure;
    var v := Apply(w, a);
    WriterMoves(w, a);
    WorkChanges(w.writers, a.writer, v.writers[a.writer], w.mem.backlog);
    hide Sum, WriterWorks, StaleWriters, WriterWork, StaleWriter, DetectorWork;
    if Work(v) < Work(w) {
      RankDrops(w, v);
    }
  }

  lemma {:induction false} GoneWorks(xs: seq<Writer>)
    requires forall i :: 0 <= i < |xs| ==> xs[i].Gone?
    ensures Sum(WriterWorks(xs)) == 0
  {
    SumZero(WriterWorks(xs));
  }

  lemma JoinProgress(w: World, a: Action)
    requires Structure(w) && BeingStopped(w) && (a.JoinDetector? || a.JoinWriters?) && Enabled(w, a)
    ensures Rank(Apply(w, a)) < Rank(w)
  {
    var v := Apply(w, a);
    if a.JoinWriters? { GoneWorks(w.writers); }
    hide Sum, WriterWorks, StaleWriters;
    assert Sum(WriterWorks([])) == 0 by { GoneWorks([]); }
    RankDrops(w, v);
  }

  lemma StopSteps(w: World, a: Action)
    requires Structure(w) && BeingStopped(w) && Enabled(w, a)
    ensures Clean(w, a)
    ensures OfDetector(a) || OfWriter(a) || a.JoinDetector? || a.JoinWriters?
  {
  }

  /** While the processor is being stopped every step brings the end closer,
      except a compare-exchange that fails for no reason. */
  lemma StopStepProgress(w: World, a: Action)
    requires Structure(w) && BeingStopped(w) && Enabled(w, a) && !SpuriousFailure(w, a)
    ensures Rank(Apply(w, a)) < Rank(w)
  {
    StopSteps(w, a);
    hide Rank, Apply, Enabled, Structure;
    if OfDetector(a) { DetectorProgress(w, a); }
    else if OfWriter(a) { WriterProgress(w, a); }
    else { JoinProgress(w, a); }
  }

  /** Until the stop is complete some thread can take such a step. */
  lemma StopNeverBlocks(w: World) returns (a: Action)
    requires Structure(w) && BeingStopped(w)
    ensures Enabled(w, a) && !SpuriousFailure(w, a)
  {
    if w.control.Stopping? {
      match w.detector
      case Waiting => a := if w.mem.inbox != map[] then PickDetection else DetectorExit;
      case Detecting(_) => a := Detect(false);
      case Storing(_, _) => a := Store(false);
      case Publishing(_) => a := PublishDetection;
      case _ => a := JoinDetector;
    } else if i :| 0 <= i < |w.writers| && !w.writers[i].Gone? {
      match w.writers[i]
      case Ready => a := if w.mem.queue != [] then Pop(i) else WriterExit(i);
      case Popped(_) => a := Write(i);
      case _ => a := Release(i, false);
    } else {
      a := JoinWriters;
    }
  }

  lemma SpuriousChangesNothing(w: World, a: Action)
    requires Enabled(w, a) && SpuriousFailure(w, a)
    ensures Apply(w, a) == w
  {
    if a.Release? { assert w.writers[a.writer := w.writers[a.writer]] == w.writers; }
  }

  /** Steps taken while the processor is being stopped. */
  ghost predicate StopRun(w: World, acts: seq<Action>)
    decreases |acts|
  {
    acts == [] ||
    (BeingStopped(w) && Enabled(w, acts[0]) && StopRun(Apply(w, acts[0]), acts[1..]))
  }

  /** How many of them are not a compare-exchange that fails for no reason. */
  ghost function Steps(w: World, acts: seq<Action>): nat
    requires StopRun(w, acts)
    decreases |acts|
  {
    if acts == [] then 0
    else (if SpuriousFailure(w, acts[0]) then 0 else 1) + Steps(Apply(w, acts[0]), acts[1..])
  }

  /** A stop that was requested in any reachable state finishes within `Rank`
      steps besides the spurious failures, which change nothing, however the
      threads interleave. */
  lemma {:induction false} StopTerminates(w: World, acts: seq<Action>)
    requires Inv(w) && StopRun(w, acts)
    ensures Steps(w, acts) <= Rank(w)
    ensures IsRun(w, acts) && CleanRun(w, acts)
    decreases |acts|
  {
    hide Inv, Enabled, Apply, Rank, SpuriousFailure;
    if acts != [] {
      assert Structure(w) by { InvGivesStructure(w); }
      StopSteps(w, acts[0]);
      if SpuriousFailure(w, acts[0]) {
        SpuriousChangesNothing(w, acts[0]);
      } else {
        StopStepProgress(w, acts[0]);
        StepKeeps(w, acts[0]);
      }
      StopTerminates(Apply(w, acts[0]), acts[1..]);
    }
  }

  lemma InvGivesStructure(w: World)
    requires Inv(w)
    ensures Structure(w)
  {
  }
}
