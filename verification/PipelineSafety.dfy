/** What every step of the frame-processing pipeline keeps, and what follows for
    every run: the backlog counter is exact, the budget is never exceeded, and
    a shutdown loses nothing that was accepted. */
module PipelineSafety {
  import opened Types
  import opened Sums
  import opened ProcessorMemory
  import opened Pipeline

  // ---- one thread changes -------------------------------------------------------

  lemma CaptureChanges(ps: seq<Producer>, t: nat, p: Producer)
    requires t < |ps|
    ensures Sum(CarriedBy(ps[t := p])) == Sum(CarriedBy(ps)) - Carried(ps[t]) + Carried(p)
    ensures Sum(BusyIn(ps[t := p])) == Sum(BusyIn(ps)) - Busy1(ps[t]) + Busy1(p)
  {
    assert CarriedBy(ps[t := p]) == CarriedBy(ps)[t := Carried(p)];
    SumUpdate(CarriedBy(ps), t, Carried(p));
    assert BusyIn(ps[t := p]) == BusyIn(ps)[t := Busy1(p)];
    SumUpdate(BusyIn(ps), t, Busy1(p));
  }

  lemma WriterChanges(xs: seq<Writer>, i: nat, x: Writer)
    requires i < |xs|
    ensures Sum(InWriters(xs[i := x])) == Sum(InWriters(xs)) - InWriter(xs[i]) + InWriter(x)
    ensures InWriter(xs[i]) <= Sum(InWriters(xs))
  {
    assert InWriters(xs[i := x]) == InWriters(xs)[i := InWriter(x)];
    SumUpdate(InWriters(xs), i, InWriter(x));
  }

  lemma HoldingChanges(xs: seq<Writer>, i: nat, x: Writer, f: Frame)
    requires i < |xs|
    ensures Sum(Holding(xs[i := x], f)) == Sum(Holding(xs, f)) - Holds1(xs[i], f) + Holds1(x, f)
  {
    assert Holding(xs[i := x], f) == Holding(xs, f)[i := Holds1(x, f)];
    SumUpdate(Holding(xs, f), i, Holds1(x, f));
  }

  function One(g: Frame, f: Frame): nat { if g == f then 1 else 0 }

  lemma TimesAppend(s: seq<Frame>, t: Frame, f: Frame)
    ensures Times(s + [t], f) == Times(s, f) + One(t, f)
  {
  }

  lemma NoneInWriters(xs: seq<Writer>)
    requires forall i :: 0 <= i < |xs| ==> xs[i].Ready? || xs[i].Gone?
    ensures Sum(InWriters(xs)) == 0
    ensures forall f: Frame :: Sum(Holding(xs, f)) == 0
  {
    SumZero(InWriters(xs));
    forall f: Frame ensures Sum(Holding(xs, f)) == 0 { SumZero(Holding(xs, f)); }
  }

  lemma IdleCaptures(ps: seq<Producer>)
    requires forall t :: 0 <= t < |ps| ==> ps[t].Idle?
    ensures Sum(CarriedBy(ps)) == 0 && Sum(BusyIn(ps)) == 0
  {
    SumZero(CarriedBy(ps));
    SumZero(BusyIn(ps));
  }

  // ---- storing a frame ------------------------------------------------------------

  /** One step of `reserveBacklog` and the push behind it moves bytes between
      the counter, the thread and the memory without creating or losing any. */
  lemma AdvanceConserves(m: Memory, p: Producer, spurious: bool)
    requires !p.Idle? && Sized(m.cfg, p)
    requires 0 < m.budget && m.budget + m.cfg.maxFrame < SIZE_MODULUS && m.backlog <= m.budget
    requires m.cfg.Retains() || (m.cfg.Pooled() && (m.cfg.mode.Batch? || m.pending == []))
    ensures var (n, q) := Advance(m, p, spurious);
            && n.backlog + Kept(m) + Carried(p) == m.backlog + Kept(n) + Carried(q)
            && n.backlog <= n.budget
            && Contents(n) == Contents(m) + (if p.Reserved? then [p.frame] else [])
            && n.dropped + (if p.Reserved? then 1 else 0) + Busy1(q) == m.dropped + Busy1(p)
  {
    if p.Reserved? {
      AcceptConserves(m, p.frame);
      hide Kept, Contents, Memory.Accept;
    } else {
      SameContents(m, Advance(m, p, spurious).0);
      hide Kept, Contents, Memory.Accept;
    }
  }

  lemma SameContents(m: Memory, n: Memory)
    requires n.cfg == m.cfg
    requires n.buffered == m.buffered && n.pending == m.pending && n.queue == m.queue
    ensures Kept(n) == Kept(m) && Contents(n) == Contents(m) + []
  {
    assert Contents(m) == Contents(m) + [];
  }

  lemma AcceptConserves(m: Memory, f: Frame)
    requires m.cfg.Retains() || (m.cfg.Pooled() && (m.cfg.mode.Batch? || m.pending == []))
    ensures Kept(m.Accept(f)) == Kept(m) + f.bytes
    ensures Contents(m.Accept(f)) == Contents(m) + [f]
  {
    if m.cfg.Retains() {
      BytesOne(f);
      BytesConcat(m.buffered, [f]);
    } else {
      AcceptAppends(m, f);
    }
  }

  // ---- every step keeps the invariant ------------------------------------------------


  lemma StructureStep(w: World, a: Action)
    requires Structure(w) && Enabled(w, a) && Clean(w, a)
    ensures Structure(Apply(w, a))
  {
    if OfCapture(a) { CaptureStructure(w, a); }
    else if OfDetector(a) { DetectorStructure(w, a); }
    else if OfWriter(a) { WriterStructure(w, a); }
    else { ControlStructure(w, a); }
  }

  lemma CaptureStructure(w: World, a: Action)
    requires Structure(w) && OfCapture(a) && Enabled(w, a)
    ensures Structure(Apply(w, a))
  {
    hide ApplyDetector, ApplyWriter, ApplyControl;
  }

  lemma DetectorStructure(w: World, a: Action)
    requires Structure(w) && OfDetector(a) && Enabled(w, a)
    ensures Structure(Apply(w, a))
  {
    hide ApplyCapture, ApplyWriter, ApplyControl;
  }

  lemma WriterStructure(w: World, a: Action)
    requires Structure(w) && OfWriter(a) && Enabled(w, a)
    ensures Structure(Apply(w, a))
  {
    hide ApplyCapture, ApplyDetector, ApplyControl;
  }

  lemma ControlStructure(w: World, a: Action)
    requires Structure(w) && OfControl(a) && Enabled(w, a) && Clean(w, a)
    ensures Structure(Apply(w, a))
  {
    hide ApplyCapture, ApplyDetector, ApplyWriter;
    if a.JoinWriters? && w.writers != [] { assert w.writers[0].Gone?; }
  }

  /** The counter, the frames kept and the frames in transit change together. */
  lemma CaptureLedger(w: World, a: Action)
    requires Inv(w) && OfCapture(a) && Enabled(w, a)
    ensures Ledger(Apply(w, a))
  {
    hide Bytes, Sum, Holding, CarriedBy, BusyIn, InWriters, Memory.Accept;
    if a.Offer? {
      CaptureChanges(w.captures, a.thread, Loading(a.frame));
      SameContents(w.mem, Apply(w, a).mem);
    } else {
      ProduceLedger(w, a.thread, a.spurious);
    }
  }

  /** The ledger balances again once thread `t`'s share has moved with the memory's. */
  lemma ProduceBalances(w: World, v: World, t: nat, q: Producer)
    requires Ledger(w) && t < |w.captures|
    requires v == w.(mem := v.mem, captures := w.captures[t := q], log := Accepting(w.log, w.captures[t]))
    requires v.mem.budget == w.mem.budget && v.mem.backlog <= v.mem.budget
    requires var p := w.captures[t];
             && v.mem.backlog + Kept(w.mem) + Carried(p) == w.mem.backlog + Kept(v.mem) + Carried(q)
             && Contents(v.mem) == Contents(w.mem) + (if p.Reserved? then [p.frame] else [])
             && v.mem.dropped + (if p.Reserved? then 1 else 0) + Busy1(q) == w.mem.dropped + Busy1(p)
    ensures Ledger(v)
  {
    CaptureChanges(w.captures, t, q);
    hide Kept, Contents, Sum, Holding, CarriedBy, BusyIn, InWriters;
  }

  lemma ProduceLedger(w: World, t: nat, spurious: bool)
    requires Inv(w) && Enabled(w, Produce(t, spurious))
    ensures Ledger(Apply(w, Produce(t, spurious)))
  {
    var p := w.captures[t];
    AdvanceConserves(w.mem, p, spurious);
    var (m, q) := Advance(w.mem, p, spurious);
    assert m.budget == w.mem.budget;
    hide Ledger, Kept, Contents, Advance, Structure;
    ProduceBalances(w, Apply(w, Produce(t, spurious)), t, q);
  }

  lemma DetectorLedger(w: World, a: Action)
    requires Inv(w) && OfDetector(a) && Enabled(w, a)
    ensures Ledger(Apply(w, a))
  {
    if a.Store? {
      StoreLedger(w, a.spurious);
      hide *;
    } else {
      hide Bytes, Sum, Holding, CarriedBy, BusyIn, InWriters, Kept, Contents, Structure, Memory.Accept;
      DetectorDelta(w, a);
      SameContents(w.mem, Apply(w, a).mem);
      hide Apply, Enabled;
    }
  }

  /** What a step of the worker that stores nothing changes. */
  lemma DetectorDelta(w: World, a: Action)
    requires Structure(w) && OfDetector(a) && !a.Store? && Enabled(w, a)
    ensures var v := Apply(w, a); var m := v.mem;
            && v == w.(mem := m, detector := v.detector, log := v.log)
            && m == w.mem.(inbox := m.inbox, lastDetected := m.lastDetected, slots := m.slots,
                           slotCounter := m.slotCounter)
            && v.log == w.log.(offered := v.log.offered)
            && Stored1(v.detector) == Stored1(w.detector) == 0
            && v.log.offered + BusyDetector(w.detector) == w.log.offered + BusyDetector(v.detector)
  {
    hide ApplyCapture, ApplyWriter, ApplyControl, NextCamera, Stored;
  }

  /** The ledger balances again once the worker's share has moved with the memory's. */
  lemma StoreBalances(w: World, v: World, p: Producer, q: Producer)
    requires Ledger(w)
    requires v == w.(mem := v.mem, detector := v.detector, log := Accepting(w.log, p))
    requires v.mem.budget == w.mem.budget && v.mem.backlog <= v.mem.budget
    requires Stored1(w.detector) == Carried(p) && Stored1(v.detector) == Carried(q)
    requires BusyDetector(w.detector) == Busy1(p) && BusyDetector(v.detector) == Busy1(q)
    requires v.mem.backlog + Kept(w.mem) + Carried(p) == w.mem.backlog + Kept(v.mem) + Carried(q)
    requires Contents(v.mem) == Contents(w.mem) + (if p.Reserved? then [p.frame] else [])
    requires v.mem.dropped + (if p.Reserved? then 1 else 0) + Busy1(q) == w.mem.dropped + Busy1(p)
    ensures Ledger(v)
  {
    hide Kept, Contents, Sum, Holding, CarriedBy, BusyIn, InWriters;
  }

  lemma StoreLedger(w: World, spurious: bool)
    requires Inv(w) && Enabled(w, Store(spurious))
    ensures Ledger(Apply(w, Store(spurious)))
  {
    var p := w.detector.producer;
    AdvanceConserves(w.mem, p, spurious);
    var (m, q) := Advance(w.mem, p, spurious);
    assert m.budget == w.mem.budget;
    hide Ledger, Kept, Contents, Advance, Structure;
    StoreBalances(w, Stored(w, spurious), p, q);
  }

  lemma PopKept(m: Memory)
    requires m.queue != [] && !m.cfg.Retains()
    ensures Kept(m) == m.queue[0].bytes + Kept(m.PopQueue())
    ensures Contents(m) == [m.queue[0]] + Contents(m.PopQueue())
  {
    hide Bytes;
    BytesPop(m.queue);
    HeadFirst(m.queue, m.pending);
  }

  lemma HeadFirst(q: seq<Frame>, rest: seq<Frame>)
    requires q != []
    ensures q + rest == [q[0]] + (q[1..] + rest)
  {
    assert q == [q[0]] + q[1..];
  }

  /** What a writer step changes: its own place, the counter and the queue. */
  predicate WriterMoved(w: World, v: World, i: nat)
    requires i < |w.writers| && i < |v.writers|
  {
    var x, y := w.writers[i], v.writers[i];
    && v == w.(mem := v.mem, writers := w.writers[i := y], log := v.log)
    && v.mem.backlog + Kept(w.mem) + InWriter(x) == w.mem.backlog + Kept(v.mem) + InWriter(y)
    && v.mem.backlog <= w.mem.backlog && v.mem.budget == w.mem.budget
    && v.mem.dropped == w.mem.dropped
    && v.log.offered == w.log.offered && v.log.accepted == w.log.accepted
  }

  lemma PopDelta(w: World, a: Action)
    requires Structure(w) && a.Pop? && Enabled(w, a)
    ensures a.writer < |Apply(w, a).writers| && WriterMoved(w, Apply(w, a), a.writer)
  {
    hide ApplyCapture, ApplyDetector, ApplyControl, Bytes, Sum;
    PopKept(w.mem);
    hide Kept, Contents;
  }

  lemma OtherWriterDelta(w: World, a: Action)
    requires OfWriter(a) && !a.Pop? && Enabled(w, a)
    requires InWriter(w.writers[a.writer]) <= w.mem.backlog
    ensures a.writer < |Apply(w, a).writers| && WriterMoved(w, Apply(w, a), a.writer)
  {
    hide ApplyCapture, ApplyDetector, ApplyControl, Bytes, Sum;
    SameContents(w.mem, Apply(w, a).mem);
    hide Kept, Contents;
  }

  lemma WriterDelta(w: World, a: Action)
    requires Structure(w) && OfWriter(a) && Enabled(w, a)
    requires InWriter(w.writers[a.writer]) <= w.mem.backlog
    ensures a.writer < |Apply(w, a).writers| && WriterMoved(w, Apply(w, a), a.writer)
  {
    hide Structure, Enabled, Apply, WriterMoved;
    if a.Pop? { PopDelta(w, a); } else { OtherWriterDelta(w, a); }
  }

  lemma WriterAccounting(w: World, a: Action)
    requires Structure(w) && Accounting(w) && Counting(w) && OfWriter(a) && Enabled(w, a)
    ensures Accounting(Apply(w, a)) && Counting(Apply(w, a))
  {
    var v := Apply(w, a);
    WriterChanges(w.writers, a.writer, v.writers[a.writer]);
    assert InWriter(w.writers[a.writer]) <= Held(w);
    WriterDelta(w, a);
    hide Apply, Structure, Sum, Holding, CarriedBy, BusyIn, InWriters, Kept;
  }

  lemma PopOrdering(w: World, a: Action)
    requires Structure(w) && Ordering(w) && a.Pop? && Enabled(w, a)
    ensures Ordering(Apply(w, a))
  {
    hide ApplyCapture, ApplyDetector, ApplyControl, Kept, Contents;
    PopKept(w.mem);
    assert w.log.popped + ([w.mem.queue[0]] + Contents(w.mem.PopQueue()))
        == (w.log.popped + [w.mem.queue[0]]) + Contents(w.mem.PopQueue());
  }

  lemma WriterOrdering(w: World, a: Action)
    requires Structure(w) && Ordering(w) && OfWriter(a) && Enabled(w, a)
    ensures Ordering(Apply(w, a))
  {
    if a.Pop? {
      PopOrdering(w, a);
      hide Apply, Enabled, Structure;
    } else {
      hide ApplyCapture, ApplyDetector, ApplyControl, Structure, Kept, Contents;
      SameContents(w.mem, Apply(w, a).mem);
    }
  }

  lemma WriterFinishing(w: World, a: Action)
    requires Finishing(w) && OfWriter(a) && Enabled(w, a)
    ensures Finishing(Apply(w, a))
  {
    forall f: Frame
      ensures var v := Apply(w, a);
              Times(v.log.popped, f) == Times(v.log.finished, f) + Sum(Holding(v.writers, f))
    {
      WriterFinishes(w, a, f);
    }
    hide Apply;
  }

  /** A writer step logs the task it takes, or the task it is done with. */
  lemma WriterLog(w: World, a: Action)
    requires OfWriter(a) && Enabled(w, a)
    ensures var l := Apply(w, a).log; var x := w.writers[a.writer]; var y := Apply(w, a).writers[a.writer];
            || (l == w.log && forall f :: Holds1(x, f) == Holds1(y, f))
            || (&& l == w.log.(popped := l.popped) && w.mem.queue != []
                && l.popped == w.log.popped + [w.mem.queue[0]]
                && forall f :: Holds1(y, f) == Holds1(x, f) + One(w.mem.queue[0], f))
            || (&& l == w.log.(finished := l.finished) && !x.Ready? && !x.Gone?
                && l.finished == w.log.finished + [x.task]
                && forall f :: Holds1(y, f) + One(x.task, f) == Holds1(x, f))
  {
    hide ApplyCapture, ApplyDetector, ApplyControl;
  }

  lemma WriterFinishes(w: World, a: Action, f: Frame)
    requires Finishing(w) && OfWriter(a) && Enabled(w, a)
    ensures var v := Apply(w, a);
            Times(v.log.popped, f) == Times(v.log.finished, f) + Sum(Holding(v.writers, f))
  {
    var v := Apply(w, a);
    assert Times(w.log.popped, f) == Times(w.log.finished, f) + Sum(Holding(w.writers, f));
    WriterPlace(w, a);
    WriterLog(w, a);
    hide Apply, Enabled, Times, Sum, Holding, Holds1, Finishing;
    HoldingChanges(w.writers, a.writer, v.writers[a.writer], f);
    if v.log.popped != w.log.popped {
      TimesAppend(w.log.popped, w.mem.queue[0], f);
    } else if v.log.finished != w.log.finished {
      TimesAppend(w.log.finished, w.writers[a.writer].task, f);
    }
  }

  lemma WriterPlace(w: World, a: Action)
    requires OfWriter(a) && Enabled(w, a)
    ensures a.writer < |w.writers| == |Apply(w, a).writers|
    ensures Apply(w, a).writers == w.writers[a.writer := Apply(w, a).writers[a.writer]]
  {
    hide ApplyCapture, ApplyDetector, ApplyControl;
  }

  lemma WriterLedger(w: World, a: Action)
    requires Inv(w) && OfWriter(a) && Enabled(w, a)
    ensures Ledger(Apply(w, a))
  {
    hide Apply, Enabled, Structure, Accounting, Counting, Ordering, Finishing, OfWriter;
    WriterAccounting(w, a);
    WriterOrdering(w, a);
    WriterFinishing(w, a);
  }

  lemma StartLedger(w: World, c: Config, b: nat)
    requires Inv(w) && Enabled(w, StartSession(c, b)) && Clean(w, StartSession(c, b))
    ensures Ledger(Apply(w, StartSession(c, b)))
  {
    var v := Apply(w, StartSession(c, b));
    IdleCaptures(v.captures);
    NoneInWriters(v.writers);
    assert Bytes([]) == 0;
    hide Bytes, Sum, Holding, CarriedBy, BusyIn, InWriters;
    assert Kept(v.mem) == 0 && Contents(v.mem) == [];
  }

  /** The end of the detection worker and the hand-over of the partial batch only
      move what is kept. */
  lemma JoinDetectorDelta(w: World)
    requires Structure(w) && Enabled(w, JoinDetector)
    ensures var v := Apply(w, JoinDetector);
            && v == w.(mem := v.mem, control := Joining)
            && v.mem.cfg == w.mem.cfg && v.mem.buffered == w.mem.buffered
            && v.mem.queue + v.mem.pending == w.mem.queue + w.mem.pending
            && (v.mem.pending == [] || v.mem == w.mem.(slots := v.mem.slots))
            && v.mem.backlog == w.mem.backlog && v.mem.budget == w.mem.budget
            && v.mem.dropped == w.mem.dropped
  {
    hide ApplyCapture, ApplyDetector, ApplyWriter, Bytes;
    assert w.mem.queue + w.mem.pending + [] == w.mem.queue + w.mem.pending;
  }

  lemma HandedOver(m: Memory, n: Memory)
    requires n.cfg == m.cfg && n.buffered == m.buffered
    requires n.queue + n.pending == m.queue + m.pending
    ensures Kept(n) == Kept(m) && Contents(n) == Contents(m)
  {
    BytesConcat(m.queue, m.pending);
    BytesConcat(n.queue, n.pending);
    hide Bytes;
  }

  lemma JoinDetectorLedger(w: World)
    requires Inv(w) && Enabled(w, JoinDetector)
    ensures Ledger(Apply(w, JoinDetector))
  {
    var v := Apply(w, JoinDetector);
    hide Apply, Enabled, Kept, Contents, Structure, Sum, Holding, CarriedBy, BusyIn, InWriters;
    JoinDetectorDelta(w);
    HandedOver(w.mem, v.mem);
  }

  lemma JoinWritersLedger(w: World)
    requires Inv(w) && Enabled(w, JoinWriters)
    ensures Ledger(Apply(w, JoinWriters))
  {
    hide Sum, Holding, CarriedBy, BusyIn, InWriters, Kept, Contents;
    JoinWritersShape(w);
    hide Apply, Enabled, Structure;
    NoneInWriters(w.writers);
    NoneInWriters([]);
  }

  lemma JoinWritersShape(w: World)
    requires Structure(w) && Enabled(w, JoinWriters)
    ensures Apply(w, JoinWriters) == w.(writers := [], detector := Absent, control := Stopped)
    ensures !w.detector.Storing? && InControl(w.control) == 0
    ensures forall i :: 0 <= i < |w.writers| ==> w.writers[i].Gone?
  {
    hide ApplyCapture, ApplyDetector, ApplyWriter;
  }

  lemma ControlLedger(w: World, a: Action)
    requires Inv(w) && OfControl(a) && Enabled(w, a) && Clean(w, a)
    ensures Ledger(Apply(w, a))
  {
    hide Sum, Holding, CarriedBy, BusyIn, InWriters, Bytes;
    if a.StartSession? {
      StartLedger(w, a.cfg, a.budget);
    } else if a.JoinDetector? {
      JoinDetectorLedger(w);
    } else if a.JoinWriters? {
      JoinWritersLedger(w);
    } else if a.Flush? {
      FlushLedger(w);
    } else {
      QuietLedger(w, a);
    }
  }

  predicate Quiet(a: Action) {
    a.CamerasOn? || a.CamerasOff? || a.FlushRelease? || a.ResetCounts? || a.RequestStop?
  }

  /** What a quiet control step may change. */
  lemma QuietDelta(w: World, a: Action)
    requires Quiet(a) && Enabled(w, a) && InControl(w.control) <= w.mem.backlog
    ensures var v := Apply(w, a); var m := v.mem;
            && v == w.(mem := m, control := v.control, camerasOn := v.camerasOn)
            && m == w.mem.(backlog := m.backlog, inbox := m.inbox, slots := m.slots,
                           enabled := m.enabled, stopDetection := m.stopDetection)
            && m.backlog + InControl(w.control) == w.mem.backlog + InControl(v.control)
            && m.backlog <= w.mem.backlog
  {
    hide ApplyCapture, ApplyDetector, ApplyWriter;
  }

  lemma QuietLedger(w: World, a: Action)
    requires Inv(w) && Enabled(w, a) && Quiet(a)
    ensures Ledger(Apply(w, a))
  {
    QuietDelta(w, a);
    SameContents(w.mem, Apply(w, a).mem);
    hide Apply, Structure, Kept, Contents, Sum, Holding, CarriedBy, BusyIn, InWriters;
  }

  lemma FlushLedger(w: World)
    requires Inv(w) && Enabled(w, Flush)
    ensures Ledger(Apply(w, Flush))
  {
    assert Bytes([]) == 0;
    hide Sum, Holding, CarriedBy, BusyIn, InWriters, Bytes;
    assert w.mem.queue == [] && w.mem.pending == [];
  }

  lemma LedgerStep(w: World, a: Action)
    requires Inv(w) && Enabled(w, a) && Clean(w, a)
    ensures Ledger(Apply(w, a))
  {
    hide Inv, Enabled, Apply, Ledger, Staffed;
    if OfCapture(a) { CaptureLedger(w, a); }
    else if OfDetector(a) { DetectorLedger(w, a); }
    else if OfWriter(a) { WriterLedger(w, a); }
    else { ControlLedger(w, a); }
  }

  /** Every step of every thread keeps the invariant. */
  lemma StepKeeps(w: World, a: Action)
    requires Inv(w) && Enabled(w, a) && Clean(w, a)
    ensures Inv(Apply(w, a))
  {
    hide Enabled, Apply, Clean, Structure, Ledger;
    StructureStep(w, a);
    LedgerStep(w, a);
  }

  lemma {:induction false} RunKeeps(w: World, acts: seq<Action>)
    requires Inv(w) && CleanRun(w, acts)
    ensures IsRun(w, acts) && Inv(After(w, acts))
    decreases |acts|
  {
    hide Inv, Enabled, Apply, Clean;
    if acts != [] {
      StepKeeps(w, acts[0]);
      RunKeeps(Apply(w, acts[0]), acts[1..]);
    }
  }

  /** The steps of a staffed run: when a session ends, its queue is empty. */
  lemma {:induction false} StaffedRunsAreClean(w: World, acts: seq<Action>)
    requires Inv(w) && (w.mem.cfg.Pooled() ==> 1 <= w.mem.cfg.writers)
    requires IsRun(w, acts) && AllStaffed(acts)
    ensures CleanRun(w, acts)
    ensures var v := After(w, acts); v.mem.cfg.Pooled() ==> 1 <= v.mem.cfg.writers
    decreases |acts|
  {
    if acts != [] {
      assert Staffed(acts[0]);
      StaffedStep(w, acts[0]);
      hide Inv, Enabled, Apply;
      StepKeeps(w, acts[0]);
      StaffedRunsAreClean(Apply(w, acts[0]), acts[1..]);
    }
  }

  lemma StaffedStep(w: World, a: Action)
    requires Inv(w) && (w.mem.cfg.Pooled() ==> 1 <= w.mem.cfg.writers)
    requires Enabled(w, a) && Staffed(a)
    ensures Clean(w, a)
    ensures Apply(w, a).mem.cfg.Pooled() ==> 1 <= Apply(w, a).mem.cfg.writers
  {
    if a.StartSession? {
      hide Ledger, Phases, Holders;
    } else {
      ConfigKept(w, a);
      hide Inv, Enabled, Apply;
    }
  }

  lemma ConfigKept(w: World, a: Action)
    requires Enabled(w, a) && !a.StartSession?
    ensures Apply(w, a).mem.cfg == w.mem.cfg
  {
    hide ApplyCapture, ApplyDetector, ApplyWriter, ApplyControl;
  }

  lemma InitHolds(n: nat)
    ensures Inv(Init(n))
  {
    IdleCaptures(Init(n).captures);
    NoneInWriters([]);
    assert Bytes([]) == 0;
    hide Sum, Holding, CarriedBy, BusyIn, InWriters;
  }
}
