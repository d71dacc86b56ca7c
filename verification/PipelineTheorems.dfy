/** What the pipeline's invariant means for every run of the processor: exact
    accounting, nothing lost at a stop, bounded waiting for detection. */
module PipelineTheorems {
  import opened Types
  import opened Sums
  import opened ProcessorMemory
  import opened Pipeline
  import opened PipelineSafety

  lemma StaffedInv(n: nat, acts: seq<Action>)
    requires IsRun(Init(n), acts) && AllStaffed(acts)
    ensures Inv(After(Init(n), acts))
    ensures var w := After(Init(n), acts); w.mem.cfg.Pooled() ==> 1 <= w.mem.cfg.writers
  {
    InitHolds(n);
    StaffedRunsAreClean(Init(n), acts);
    RunKeeps(Init(n), acts);
    hide Inv;
  }

  // ---- accounting ---------------------------------------------------------------

  /** In every interleaving, over any number of sessions, the counter equals the
      bytes held and never exceeds the budget. */
  lemma BacklogIsExact(n: nat, acts: seq<Action>)
    requires IsRun(Init(n), acts) && AllStaffed(acts)
    ensures var w := After(Init(n), acts);
            w.mem.backlog == Held(w) && w.mem.backlog <= w.mem.budget
  {
    StaffedInv(n, acts);
    hide Structure, Ordering, Finishing, Counting;
  }

  /** The saturating branch of a release is never needed: whenever a writer or
      the flush is about to lower the counter, the counter covers its bytes. */
  lemma ReleaseNeverSaturates(n: nat, acts: seq<Action>)
    requires IsRun(Init(n), acts) && AllStaffed(acts)
    ensures var w := After(Init(n), acts);
            && (forall i :: 0 <= i < |w.writers| && w.writers[i].Lowering? ==>
                  Memory.Lowered(w.mem.backlog, w.writers[i].task.bytes)
                  == w.mem.backlog - w.writers[i].task.bytes)
            && (w.control.FlushLowering? ==>
                  Memory.Lowered(w.mem.backlog, w.control.bytes) == w.mem.backlog - w.control.bytes)
  {
    var w := After(Init(n), acts);
    BacklogIsExact(n, acts);
    forall i | 0 <= i < |w.writers| && w.writers[i].Lowering?
      ensures w.writers[i].task.bytes <= w.mem.backlog
    {
      WriterChanges(w.writers, i, Ready);
      hide Sum, CarriedBy, InWriters, Kept;
    }
    hide Sum, CarriedBy, InWriters, Kept;
  }

  /** The writers and the flush take frames in the order they were accepted:
      at any moment the accepted frames are those taken, then those waiting. */
  lemma AcceptedInOrder(n: nat, acts: seq<Action>)
    requires IsRun(Init(n), acts) && AllStaffed(acts)
    ensures var w := After(Init(n), acts);
            w.log.accepted == w.log.popped + Contents(w.mem)
  {
    StaffedInv(n, acts);
    hide Structure, Accounting, Finishing, Counting, Contents;
  }

  // ---- shutdown -----------------------------------------------------------------

  /** After `stop` of a session that writes through the pool every accepted
      frame was taken by a writer, in order, and dealt with exactly once; the
      counter is back at zero and every offered frame was accepted or dropped. */
  lemma StopLosesNothing(n: nat, acts: seq<Action>)
    requires IsRun(Init(n), acts) && AllStaffed(acts)
    requires After(Init(n), acts).control.Stopped?
    ensures var w := After(Init(n), acts);
            && w.mem.inbox == map[] && w.mem.queue == [] && w.mem.pending == []
            && w.log.offered == w.mem.dropped + |w.log.accepted|
            && (w.mem.cfg.Pooled() ==>
                  && w.mem.backlog == 0
                  && w.log.popped == w.log.accepted
                  && multiset(w.log.finished) == multiset(w.log.accepted))
            && (w.mem.cfg.Retains() ==>
                  && w.mem.backlog == Bytes(w.mem.buffered)
                  && w.log.accepted == w.log.popped + w.mem.buffered)
  {
    var w := After(Init(n), acts);
    StaffedInv(n, acts);
    StoppedIsDrained(w);
  }

  lemma StoppedIsDrained(w: World)
    requires Inv(w) && w.control.Stopped?
    requires w.mem.cfg.Pooled() ==> 1 <= w.mem.cfg.writers
    ensures w.mem.inbox == map[] && w.mem.queue == [] && w.mem.pending == []
    ensures w.log.offered == w.mem.dropped + |w.log.accepted|
    ensures w.mem.cfg.Pooled() ==>
              && w.mem.backlog == 0
              && w.log.popped == w.log.accepted
              && multiset(w.log.finished) == multiset(w.log.accepted)
    ensures w.mem.cfg.Retains() ==>
              && w.mem.backlog == Bytes(w.mem.buffered)
              && w.log.accepted == w.log.popped + w.mem.buffered
  {
    IdleCaptures(w.captures);
    NoneInWriters(w.writers);
    assert Bytes([]) == 0;
    hide Bytes, Sum, Holding, CarriedBy, BusyIn, InWriters;
    assert w.mem.pending == [] && w.mem.queue == [];
    if w.mem.cfg.Pooled() {
      forall f: Frame ensures multiset(w.log.finished)[f] == multiset(w.log.popped)[f] {
        assert Times(w.log.popped, f) == Times(w.log.finished, f) + Sum(Holding(w.writers, f));
      }
      assert multiset(w.log.finished) == multiset(w.log.popped);
      assert w.log.popped + ([] + []) == w.log.popped;
    }
  }

  /** The flush of BUFFER hands over every frame that was accepted and gives
      back all of its bytes. */
  lemma FlushHandsOverAll(n: nat, acts: seq<Action>)
    requires IsRun(Init(n), acts) && AllStaffed(acts)
    requires Enabled(After(Init(n), acts), Flush)
    ensures var v := Apply(After(Init(n), acts), Flush);
            && v.log.popped == v.log.accepted && v.mem.buffered == []
            && v.mem.backlog == InControl(v.control)
  {
    var w := After(Init(n), acts);
    StaffedInv(n, acts);
    StepKeeps(w, Flush);
    FlushEmpties(w, Apply(w, Flush));
  }

  lemma FlushEmpties(w: World, v: World)
    requires Inv(w) && Enabled(w, Flush) && v == Apply(w, Flush) && Inv(v)
    ensures v.log.popped == v.log.accepted && v.mem.buffered == []
    ensures v.mem.backlog == InControl(v.control)
  {
    FlushShape(w);
    InvParts(v);
    hide Apply, Enabled, Inv, Bytes, Sum, CarriedBy, InWriters;
    NothingKept(v.mem);
    IdleCaptures(v.captures);
    NoneInWriters(v.writers);
    assert v.log.popped + [] == v.log.popped;
  }

  lemma InvParts(w: World)
    requires Inv(w)
    ensures Structure(w) && w.mem.backlog == Held(w) && w.log.accepted == w.log.popped + Contents(w.mem)
    ensures !w.camerasOn ==> forall t :: 0 <= t < |w.captures| ==> w.captures[t].Idle?
  {
    hide Held, Finishing, Counting, Contents;
  }

  lemma NothingKept(m: Memory)
    requires m.buffered == [] && m.queue == [] && m.pending == []
    ensures Kept(m) == 0 && Contents(m) == []
  {
    NoBytes();
    hide Bytes;
  }

  lemma NoBytes()
    ensures Bytes([]) == 0
  {
  }

  lemma FlushShape(w: World)
    requires Structure(w) && Enabled(w, Flush)
    ensures var v := Apply(w, Flush);
            && v.mem.buffered == [] && v.writers == [] && v.detector.Absent? && !v.camerasOn
            && v.mem.queue == [] && v.mem.pending == [] && v.mem.cfg.Retains()
            && v.captures == w.captures
  {
    hide ApplyCapture, ApplyDetector, ApplyWriter, Bytes;
  }

  // ---- writer_threads 0 -----------------------------------------------------------

  /** A session that writes through the pool leaves nothing in the queue exactly
      when it has a writer or accepted no frame. */
  lemma QueueEmptyExactly(n: nat, acts: seq<Action>)
    requires CleanRun(Init(n), acts) && IsRun(Init(n), acts)
    requires var w := After(Init(n), acts); w.control.Stopped? && w.mem.cfg.Pooled()
    ensures var w := After(Init(n), acts);
            w.mem.queue == [] <==> 1 <= w.mem.cfg.writers || w.log.accepted == []
  {
    InitHolds(n);
    RunKeeps(Init(n), acts);
    StoppedQueue(After(Init(n), acts));
  }

  lemma StoppedQueue(w: World)
    requires Inv(w) && w.control.Stopped? && w.mem.cfg.Pooled()
    ensures w.mem.queue == [] <==> 1 <= w.mem.cfg.writers || w.log.accepted == []
  {
    hide Phases, Holders, Accounting, Finishing, Counting;
  }

  /** The next session's counter is wrong from the start exactly when bytes were
      left in the queue: `start` zeroes the counter and keeps the queue. */
  lemma LeftoversBreakAccounting(w: World, c: Config, b: nat)
    requires Inv(w) && Enabled(w, StartSession(c, b)) && c.Pooled()
    ensures Accounting(Apply(w, StartSession(c, b))) <==> Bytes(w.mem.queue) == 0
  {
    var v := Apply(w, StartSession(c, b));
    IdleCaptures(v.captures);
    NoneInWriters(v.writers);
    assert Bytes([]) == 0;
    hide Sum, Holding, CarriedBy, BusyIn, InWriters, Bytes;
    assert Kept(v.mem) == Bytes(w.mem.queue);
  }

  // ---- a run into it ----------------------------------------------------------------

  lemma {:induction false} Extend(w: World, acts: seq<Action>, a: Action)
    requires CleanRun(w, acts) && IsRun(w, acts) && Enabled(After(w, acts), a) && Clean(After(w, acts), a)
    ensures CleanRun(w, acts + [a]) && IsRun(w, acts + [a])
    ensures After(w, acts + [a]) == Apply(After(w, acts), a)
    decreases |acts|
  {
    hide Enabled, Apply, Clean;
    if acts == [] {
      var v := Apply(w, a);
      assert (acts + [a])[1..] == [];
      assert CleanRun(v, []) && IsRun(v, []) && After(v, []) == v;
    } else {
      assert (acts + [a])[1..] == acts[1..] + [a];
      Extend(Apply(w, acts[0]), acts[1..], a);
    }
  }

  /** BATCH without a writer and with batches of one. */
  const NO_WRITERS: Config := Config(Batch, true, 1, 0, 1)
  const ONE_BYTE: Frame := Frame(0, 0, 1)

  /** One capture thread in a session of `NO_WRITERS`. */
  predicate Unstaffed(w: World, c: Control, on: bool, p: Producer, backlog: nat, queue: seq<Frame>) {
    && w.mem.cfg == NO_WRITERS && w.mem.budget == 1 && w.mem.enabled == !(c.Stopping? || Down(c))
    && w.mem.pending == [] && w.mem.backlog == backlog && w.mem.queue == queue
    && w.captures == [p] && w.camerasOn == on && w.control == c && w.detector.Absent? && w.writers == []
  }

  lemma Opens()
    ensures Enabled(Init(1), StartSession(NO_WRITERS, 1))
    ensures var w := Apply(Init(1), StartSession(NO_WRITERS, 1));
            && Unstaffed(w, Live, false, Idle, 0, []) && Enabled(w, CamerasOn)
            && Unstaffed(Apply(w, CamerasOn), Live, true, Idle, 0, [])
  {
    hide ApplyCapture, ApplyDetector, ApplyWriter;
  }

  lemma Takes(w: World)
    requires Unstaffed(w, Live, true, Idle, 0, [])
    ensures Enabled(w, Offer(0, ONE_BYTE, false))
    ensures Unstaffed(Apply(w, Offer(0, ONE_BYTE, false)), Live, true, Loading(ONE_BYTE), 0, [])
  {
  }

  lemma Stores(w: World, p: Producer, q: Producer, backlog: nat, later: nat, queue: seq<Frame>)
    requires Unstaffed(w, Live, true, p, backlog, [])
    requires || (p == Loading(ONE_BYTE) && q == Trying(ONE_BYTE, 0) && backlog == later == 0 && queue == [])
             || (p == Trying(ONE_BYTE, 0) && q == Reserved(ONE_BYTE) && backlog == 0 && later == 1 && queue == [])
             || (p == Reserved(ONE_BYTE) && q == Idle && backlog == later == 1 && queue == [ONE_BYTE])
    ensures Enabled(w, Produce(0, false))
    ensures Unstaffed(Apply(w, Produce(0, false)), Live, true, q, later, queue)
  {
    hide ApplyControl, ApplyDetector, ApplyWriter;
  }

  lemma Closes(w: World, a: Action, c: Control, d: Control)
    requires Unstaffed(w, c, a.CamerasOff?, Idle, 1, [ONE_BYTE])
    requires || (a == CamerasOff && c == d == Live)
             || (a == RequestStop && c == Live && d == Stopping)
             || (a == JoinDetector && c == Stopping && d == Joining)
             || (a == JoinWriters && c == Joining && d == Stopped)
    ensures Enabled(w, a) && Unstaffed(Apply(w, a), d, false, Idle, 1, [ONE_BYTE])
  {
    hide ApplyCapture, ApplyDetector, ApplyWriter;
  }

  /** One frame is enough: a session with `writer_threads` 0 accepts it, its stop
      leaves it in the queue, and the session after that counts wrongly. */
  lemma LeftoversAreReachable() returns (acts: seq<Action>)
    ensures CleanRun(Init(1), acts) && IsRun(Init(1), acts)
    ensures var w := After(Init(1), acts);
            && w.control.Stopped? && w.mem.cfg == NO_WRITERS && w.mem.queue == [ONE_BYTE]
            && Enabled(w, StartSession(NO_WRITERS, 1))
            && !Accounting(Apply(w, StartSession(NO_WRITERS, 1)))
  {
    hide Enabled, Apply, Unstaffed, Accounting, Bytes, Inv;
    acts := [];
    var w0 := Init(1);
    assert CleanRun(w0, acts) && IsRun(w0, acts) && After(w0, acts) == w0;
    hide Init;
    Opens();
    Extend(w0, acts, StartSession(NO_WRITERS, 1));
    acts := acts + [StartSession(NO_WRITERS, 1)];
    var w := After(w0, acts);
    Extend(w0, acts, CamerasOn);
    acts := acts + [CamerasOn];
    w := After(w0, acts);
    Takes(w);
    Extend(w0, acts, Offer(0, ONE_BYTE, false));
    acts := acts + [Offer(0, ONE_BYTE, false)];
    acts := StoredRun(w0, acts);
    acts := ClosedRun(w0, acts);
    InitHolds(1);
    RunKeeps(w0, acts);
    w := After(w0, acts);
    Reopens(w);
    LeftoversBreakAccounting(w, NO_WRITERS, 1);
    BytesOne(ONE_BYTE);
  }

  lemma StoredRun(w0: World, before: seq<Action>) returns (acts: seq<Action>)
    requires CleanRun(w0, before) && IsRun(w0, before)
    requires Unstaffed(After(w0, before), Live, true, Loading(ONE_BYTE), 0, [])
    ensures CleanRun(w0, acts) && IsRun(w0, acts)
    ensures Unstaffed(After(w0, acts), Live, true, Idle, 1, [ONE_BYTE])
  {
    hide Enabled, Apply, Unstaffed, CleanRun, IsRun, After;
    acts := before;
    Stores(After(w0, acts), Loading(ONE_BYTE), Trying(ONE_BYTE, 0), 0, 0, []);
    Extend(w0, acts, Produce(0, false));
    acts := acts + [Produce(0, false)];
    Stores(After(w0, acts), Trying(ONE_BYTE, 0), Reserved(ONE_BYTE), 0, 1, []);
    Extend(w0, acts, Produce(0, false));
    acts := acts + [Produce(0, false)];
    Stores(After(w0, acts), Reserved(ONE_BYTE), Idle, 1, 1, [ONE_BYTE]);
    Extend(w0, acts, Produce(0, false));
    acts := acts + [Produce(0, false)];
  }

  lemma ClosedRun(w0: World, before: seq<Action>) returns (acts: seq<Action>)
    requires CleanRun(w0, before) && IsRun(w0, before)
    requires Unstaffed(After(w0, before), Live, true, Idle, 1, [ONE_BYTE])
    ensures CleanRun(w0, acts) && IsRun(w0, acts)
    ensures Unstaffed(After(w0, acts), Stopped, false, Idle, 1, [ONE_BYTE])
  {
    hide Enabled, Apply, Unstaffed, CleanRun, IsRun, After;
    acts := before;
    Closes(After(w0, acts), CamerasOff, Live, Live);
    Extend(w0, acts, CamerasOff);
    acts := acts + [CamerasOff];
    Closes(After(w0, acts), RequestStop, Live, Stopping);
    Extend(w0, acts, RequestStop);
    acts := acts + [RequestStop];
    Closes(After(w0, acts), JoinDetector, Stopping, Joining);
    Extend(w0, acts, JoinDetector);
    acts := acts + [JoinDetector];
    Closes(After(w0, acts), JoinWriters, Joining, Stopped);
    Extend(w0, acts, JoinWriters);
    acts := acts + [JoinWriters];
  }

  lemma Reopens(w: World)
    requires Unstaffed(w, Stopped, false, Idle, 1, [ONE_BYTE])
    ensures Enabled(w, StartSession(NO_WRITERS, 1))
    ensures w.control.Stopped? && w.mem.cfg == NO_WRITERS && w.mem.queue == [ONE_BYTE]
  {
  }
}
