/** The threads of the frame processor as a step system: any number of capture
    threads, the detection worker, the writer pool and the one control thread
    that starts, flushes and stops sessions (src/frame_processor.cpp).

    A step is one atomic operation or one lock scope, so every interleaving of
    the source's threads is a sequence of steps. Weak compare-exchange may fail
    spuriously: the steps that perform one carry that choice. */
module Pipeline {
  import opened Types
  import opened Sums
  import opened ProcessorMemory

  /** Where a thread stands inside `reserveBacklog` and the push after it. */
  datatype Producer =
    | Idle
    | Loading(frame: Frame)
    | Trying(frame: Frame, held: nat)
    | Reserved(frame: Frame)

  datatype Detector =
    | Absent
    | Waiting
    | Detecting(frame: Frame)
    | Storing(frame: Frame, producer: Producer)
    | Publishing(frame: Frame)
    | Exited

  datatype Writer =
    | Ready
    | Popped(task: Frame)
    | Releasing(task: Frame)
    | Lowering(task: Frame, held: nat)
    | Gone

  datatype Control =
    | Live
    | Flushing(bytes: nat)
    | FlushLowering(bytes: nat, held: nat)
    | Stopping
    | Joining
    | Stopped

  /** What has happened in the current session. */
  datatype Log = Log(offered: nat, accepted: seq<Frame>, popped: seq<Frame>, finished: seq<Frame>)

  datatype World = World(
    mem: Memory,
    captures: seq<Producer>,
    detector: Detector,
    writers: seq<Writer>,
    control: Control,
    camerasOn: bool,
    log: Log)

  datatype Action =
    | StartSession(cfg: Config, budget: nat)
    | CamerasOn
    | CamerasOff
    | Offer(thread: nat, frame: Frame, wanted: bool)
    | Produce(thread: nat, spurious: bool)
    | PickDetection
    | Detect(found: bool)
    | Store(spurious: bool)
    | PublishDetection
    | DetectorExit
    | Pop(writer: nat)
    | Write(writer: nat)
    | Release(writer: nat, spurious: bool)
    | WriterExit(writer: nat)
    | Flush
    | FlushRelease(spurious: bool)
    | ResetCounts
    | RequestStop
    | JoinDetector
    | JoinWriters

  predicate OfCapture(a: Action) { a.Offer? || a.Produce? }

  predicate OfDetector(a: Action) {
    a.PickDetection? || a.Detect? || a.Store? || a.PublishDetection? || a.DetectorExit?
  }

  predicate OfWriter(a: Action) { a.Pop? || a.Write? || a.Release? || a.WriterExit? }

  predicate OfControl(a: Action) { !OfCapture(a) && !OfDetector(a) && !OfWriter(a) }

  // ---- one step ---------------------------------------------------------------

  /** One step of a thread that has a frame to store. */
  function Advance(m: Memory, p: Producer, spurious: bool): (r: (Memory, Producer))
    requires !p.Idle?
    ensures var n := r.0;
            n == m.(backlog := n.backlog, dropped := n.dropped, buffered := n.buffered,
                    pending := n.pending, queue := n.queue)
    ensures r.1.Idle? || r.1.frame == p.frame
  {
    match p
    case Loading(f) =>
      (m, if m.budget == 0 then Reserved(f) else Trying(f, m.backlog))
    case Trying(f, held) =>
      if !m.Fits(held, f.bytes) then (m.(dropped := m.dropped + 1), Idle)
      else if held == m.backlog && !spurious
      then (m.(backlog := AddSize(held, f.bytes)), Reserved(f))
      else (m, Trying(f, m.backlog))
    case Reserved(f) => (m.Accept(f), Idle)
  }

  function Accepting(log: Log, p: Producer): Log {
    if p.Reserved? then log.(accepted := log.accepted + [p.frame]) else log
  }

  /** `saveFrame` up to the point where it has something to reserve. */
  predicate Storable(cfg: Config, wanted: bool) {
    cfg.save && (cfg.mode.Buffer? || cfg.mode.Batch? || (cfg.mode.Trigger? && wanted))
  }

  function Offered(w: World, t: nat, f: Frame, wanted: bool): World
    requires t < |w.captures|
  {
    if !w.mem.enabled then w
    else if w.mem.cfg.mode.IsDetector() then w.(mem := w.mem.PutInbox(f))
    else if Storable(w.mem.cfg, wanted)
    then w.(captures := w.captures[t := Loading(f)], log := w.log.(offered := w.log.offered + 1))
    else w
  }

  function Stored(w: World, spurious: bool): World
    requires w.detector.Storing? && !w.detector.producer.Idle?
  {
    var p := w.detector.producer;
    var (m, q) := Advance(w.mem, p, spurious);
    var d := if q.Idle? then Publishing(w.detector.frame) else Storing(w.detector.frame, q);
    w.(mem := m, detector := d, log := Accepting(w.log, p))
  }

  function Released(w: World, i: nat, spurious: bool): World
    requires i < |w.writers| && (w.writers[i].Releasing? || w.writers[i].Lowering?)
  {
    var task := w.writers[i].task;
    if w.writers[i].Lowering? && w.writers[i].held == w.mem.backlog && !spurious
    then w.(mem := w.mem.(backlog := Memory.Lowered(w.mem.backlog, task.bytes)),
            writers := w.writers[i := Ready],
            log := w.log.(finished := w.log.finished + [task]))
    else w.(writers := w.writers[i := Lowering(task, w.mem.backlog)])
  }

  function FlushedAll(w: World): World {
    var all := w.mem.buffered;
    w.(mem := w.mem.(buffered := []),
       control := if Bytes(all) == 0 then Live else Flushing(Bytes(all)),
       log := w.log.(popped := w.log.popped + all, finished := w.log.finished + all))
  }

  ghost predicate Enabled(w: World, a: Action) {
    match a
    case StartSession(c, b) =>
      w.control.Stopped? && !c.mode.NoMode? && 0 < b && b + c.maxFrame < SIZE_MODULUS
    case CamerasOn => w.control.Live? && !w.camerasOn
    case CamerasOff => w.camerasOn && forall t :: 0 <= t < |w.captures| ==> w.captures[t].Idle?
    case Offer(t, f, _) =>
      w.camerasOn && t < |w.captures| && w.captures[t].Idle? && f.bytes <= w.mem.cfg.maxFrame
    case Produce(t, _) => t < |w.captures| && !w.captures[t].Idle?
    case PickDetection => w.detector.Waiting? && w.mem.inbox != map[]
    case Detect(_) => w.detector.Detecting?
    case Store(_) => w.detector.Storing? && !w.detector.producer.Idle?
    case PublishDetection => w.detector.Publishing?
    case DetectorExit => w.detector.Waiting? && w.mem.inbox == map[] && w.mem.stopDetection
    case Pop(i) => i < |w.writers| && w.writers[i].Ready? && w.mem.queue != []
    case Write(i) => i < |w.writers| && w.writers[i].Popped?
    case Release(i, _) => i < |w.writers| && (w.writers[i].Releasing? || w.writers[i].Lowering?)
    case WriterExit(i) =>
      i < |w.writers| && w.writers[i].Ready? && w.mem.queue == [] && w.mem.stopThreads
    case Flush => w.control.Live? && !w.camerasOn && w.mem.cfg.Retains()
    case FlushRelease(_) => w.control.Flushing? || w.control.FlushLowering?
    case ResetCounts => w.control.Live? || w.control.Stopped?
    case RequestStop => w.control.Live? && !w.camerasOn
    case JoinDetector => w.control.Stopping? && (w.mem.cfg.mode.IsDetector() ==> w.detector.Exited?)
    case JoinWriters =>
      w.control.Joining? && forall i :: 0 <= i < |w.writers| ==> w.writers[i].Gone?
  }

  function ApplyCapture(w: World, a: Action): (v: World)
    requires OfCapture(a) && a.thread < |w.captures|
    requires a.Produce? ==> !w.captures[a.thread].Idle?
    ensures v == w.(mem := v.mem, captures := v.captures, log := v.log)
    ensures v.mem.cfg == w.mem.cfg
  {
    if a.Offer? then Offered(w, a.thread, a.frame, a.wanted)
    else
      var p := w.captures[a.thread];
      var (m, q) := Advance(w.mem, p, a.spurious);
      w.(mem := m, captures := w.captures[a.thread := q], log := Accepting(w.log, p))
  }

  ghost function ApplyDetector(w: World, a: Action): (v: World)
    requires OfDetector(a) && Enabled(w, a)
    ensures v == w.(mem := v.mem, detector := v.detector, log := v.log)
    ensures v.mem.cfg == w.mem.cfg
  {
    if a.PickDetection? then
      var (m, f) := w.mem.TakeInbox();
      w.(mem := m, detector := Detecting(f))
    else if a.Detect? then
      var f := w.detector.frame;
      if a.found && w.mem.cfg.save
      then w.(detector := Storing(f, Loading(f)), log := w.log.(offered := w.log.offered + 1))
      else w.(detector := Publishing(f))
    else if a.Store? then Stored(w, a.spurious)
    else if a.PublishDetection? then
      w.(mem := w.mem.Publish(w.detector.frame), detector := Waiting)
    else w.(detector := Exited)
  }

  ghost function ApplyWriter(w: World, a: Action): (v: World)
    requires OfWriter(a) && Enabled(w, a)
    ensures v == w.(mem := v.mem, writers := v.writers, log := v.log)
    ensures v.mem == w.mem.(queue := v.mem.queue, backlog := v.mem.backlog)
    ensures |v.writers| == |w.writers| && v.writers == w.writers[a.writer := v.writers[a.writer]]
  {
    var i := a.writer;
    if a.Pop? then
      var task := w.mem.queue[0];
      w.(mem := w.mem.PopQueue(), writers := w.writers[i := Popped(task)],
         log := w.log.(popped := w.log.popped + [task]))
    else if a.Write? then
      var task := w.writers[i].task;
      if task.bytes == 0
      then w.(writers := w.writers[i := Ready],
              log := w.log.(finished := w.log.finished + [task]))
      else w.(writers := w.writers[i := Releasing(task)])
    else if a.Release? then Released(w, i, a.spurious)
    else w.(writers := w.writers[i := Gone])
  }

  ghost function ApplyControl(w: World, a: Action): (v: World)
    requires OfControl(a) && Enabled(w, a)
    ensures v.captures == w.captures
    ensures !a.StartSession? ==> v.mem.cfg == w.mem.cfg
  {
    if a.StartSession? then
      w.(mem := w.mem.StartSession(a.cfg, a.budget),
         detector := if a.cfg.mode.IsDetector() then Waiting else Absent,
         writers := if a.cfg.Pooled() then seq(a.cfg.writers, _ => Ready) else [],
         control := Live,
         log := Log(0, [], [], []))
    else if a.CamerasOn? then w.(camerasOn := true)
    else if a.CamerasOff? then w.(camerasOn := false)
    else if a.Flush? then FlushedAll(w)
    else if a.FlushRelease? then
      if w.control.FlushLowering? && w.control.held == w.mem.backlog && !a.spurious
      then w.(mem := w.mem.(backlog := Memory.Lowered(w.mem.backlog, w.control.bytes)), control := Live)
      else w.(control := FlushLowering(w.control.bytes, w.mem.backlog))
    else if a.ResetCounts? then w.(mem := w.mem.(inbox := map[], slots := map[]))
    else if a.RequestStop? then
      w.(mem := w.mem.(enabled := false, stopDetection := w.mem.cfg.mode.IsDetector()),
         control := Stopping)
    else if a.JoinDetector? then
      var m := if w.mem.cfg.mode.IsDetector() then w.mem.ClearSlots() else w.mem;
      w.(mem := if m.cfg.Pooled() then m.FlushBatch() else m, control := Joining)
    else w.(writers := [], detector := Absent, control := Stopped)
  }

  ghost function Apply(w: World, a: Action): World
    requires Enabled(w, a)
  {
    if OfCapture(a) then ApplyCapture(w, a)
    else if OfDetector(a) then ApplyDetector(w, a)
    else if OfWriter(a) then ApplyWriter(w, a)
    else ApplyControl(w, a)
  }

  /** The processor before its first session, with `n` capture threads. */
  function Init(n: nat): World {
    World(Memory(Config(NoMode, false, 0, 0, 0), false, 0, 0, 0, [], [], [], false,
                 map[], false, LAST_CAMERA, map[], 0),
          seq(n, _ => Idle), Absent, [], Stopped, false, Log(0, [], [], []))
  }

  // ---- runs ---------------------------------------------------------------------

  /** Every step of `acts` is possible, in order, from `w`. */
  ghost predicate IsRun(w: World, acts: seq<Action>)
    decreases |acts|
  {
    acts == [] || (Enabled(w, acts[0]) && IsRun(Apply(w, acts[0]), acts[1..]))
  }

  ghost function After(w: World, acts: seq<Action>): World
    requires IsRun(w, acts)
    decreases |acts|
  {
    if acts == [] then w else After(Apply(w, acts[0]), acts[1..])
  }

  /** A session starts with an empty write queue. */
  predicate Clean(w: World, a: Action) { a.StartSession? ==> w.mem.queue == [] }

  ghost predicate CleanRun(w: World, acts: seq<Action>)
    decreases |acts|
  {
    acts == [] ||
    (Enabled(w, acts[0]) && Clean(w, acts[0]) && CleanRun(Apply(w, acts[0]), acts[1..]))
  }

  /** Every session that writes through the pool has at least one writer. */
  predicate Staffed(a: Action) {
    a.StartSession? && a.cfg.Pooled() ==> 1 <= a.cfg.writers
  }

  predicate AllStaffed(acts: seq<Action>) {
    forall i :: 0 <= i < |acts| ==> Staffed(acts[i])
  }

  // ---- the invariant ------------------------------------------------------------

  function Carried(p: Producer): nat { if p.Reserved? then p.frame.bytes else 0 }

  function InWriter(x: Writer): nat {
    if x.Popped? || x.Releasing? || x.Lowering? then x.task.bytes else 0
  }

  function Stored1(d: Detector): nat { if d.Storing? then Carried(d.producer) else 0 }

  function InControl(c: Control): nat {
    if c.Flushing? || c.FlushLowering? then c.bytes else 0
  }

  function CarriedBy(ps: seq<Producer>): (s: seq<nat>)
    ensures |s| == |ps|
  {
    seq(|ps|, i requires 0 <= i < |ps| => Carried(ps[i]))
  }

  function InWriters(xs: seq<Writer>): (s: seq<nat>)
    ensures |s| == |xs|
  {
    seq(|xs|, i requires 0 <= i < |xs| => InWriter(xs[i]))
  }

  /** Bytes the memory itself holds for the current mode: the retained frames,
      or the partial batch and the write queue. */
  function Kept(m: Memory): nat {
    (if m.cfg.Retains() then Bytes(m.buffered) else 0) + Bytes(m.pending) + Bytes(m.queue)
  }

  /** The frames accepted and still waiting, oldest first. */
  function Contents(m: Memory): seq<Frame> {
    if m.cfg.Retains() then m.buffered else m.queue + m.pending
  }

  /** Bytes of all frames the current mode has accepted and not yet let go:
      what the memory keeps plus what some thread holds between two steps. */
  function Held(w: World): nat {
    Kept(w.mem) + Sum(CarriedBy(w.captures)) + Stored1(w.detector)
    + Sum(InWriters(w.writers)) + InControl(w.control)
  }

  /** Whether a writer holds the task `f`. */
  function Holds1(x: Writer, f: Frame): nat {
    if (x.Popped? || x.Releasing? || x.Lowering?) && x.task == f then 1 else 0
  }

  function Holding(xs: seq<Writer>, f: Frame): (s: seq<nat>)
    ensures |s| == |xs|
  {
    seq(|xs|, i requires 0 <= i < |xs| => Holds1(xs[i], f))
  }

  /** How often `f` occurs in `s`. */
  function Times(s: seq<Frame>, f: Frame): nat { multiset(s)[f] }

  function Busy1(p: Producer): nat { if p.Idle? then 0 else 1 }

  function BusyIn(ps: seq<Producer>): (s: seq<nat>)
    ensures |s| == |ps|
  {
    seq(|ps|, i requires 0 <= i < |ps| => Busy1(ps[i]))
  }

  function BusyDetector(d: Detector): nat { if d.Storing? then Busy1(d.producer) else 0 }

  /** The frame a producer works on fits the configured sensor. */
  predicate Sized(cfg: Config, p: Producer) { p.Idle? || p.frame.bytes <= cfg.maxFrame }

  predicate Down(c: Control) { c.Joining? || c.Stopped? }

  /** How far the control thread, the cameras and the detection worker can be
      apart from each other. */
  ghost predicate Phases(w: World) {
    var m := w.mem;
    && (w.camerasOn ==> w.control.Live?)
    && (w.control.Stopping? || Down(w.control) ==> !m.enabled)
    && (InControl(w.control) != 0 ==> m.cfg.Retains())
    && (w.detector.Absent? <==> w.control.Stopped? || !m.cfg.mode.IsDetector())
    && (w.detector.Exited? ==> m.stopDetection)
    && (m.stopDetection ==> w.control.Stopping? || Down(w.control))
    && (w.control.Stopping? ==> m.stopDetection == m.cfg.mode.IsDetector())
    && (w.control.Joining? ==> w.detector.Exited? || w.detector.Absent?)
    && (Down(w.control) || w.detector.Exited? || !m.cfg.mode.IsDetector() ==> m.inbox == map[])
  }

  /** Who may be holding a frame, and that every frame fits the budget's headroom. */
  ghost predicate Holders(w: World) {
    var m := w.mem;
    && (!w.control.Stopped? ==> 0 < m.budget && m.budget + m.cfg.maxFrame < SIZE_MODULUS)
    && (forall t :: 0 <= t < |w.captures| ==>
          && (!w.captures[t].Idle? ==> w.camerasOn && Storable(m.cfg, true))
          && Sized(m.cfg, w.captures[t]))
    && (w.detector.Storing? ==>
          && m.cfg.save && !w.detector.producer.Idle?
          && Sized(m.cfg, w.detector.producer))
    && (w.detector.Detecting? ==> w.detector.frame.bytes <= m.cfg.maxFrame)
    && (forall c :: c in m.inbox ==> m.inbox[c].bytes <= m.cfg.maxFrame)
  }

  /** The writer pool and the two queues in front of it. */
  ghost predicate Pool(w: World) {
    var m := w.mem;
    && (m.stopThreads ==> Down(w.control) && m.pending == [])
    && (m.cfg.Pooled() && Down(w.control) ==> m.stopThreads)
    && (m.cfg.Pooled() && !w.control.Stopped? ==> |w.writers| == m.cfg.writers)
    && (m.cfg.Pooled() && m.cfg.writers == 0 ==> w.log.popped == [])
    && (!m.cfg.Pooled() ==> w.writers == [] && m.queue == [])
    && (!m.cfg.Pooled() || !m.cfg.mode.Batch? ==> m.pending == [])
    && (w.control.Stopped? ==> w.writers == [] && (m.queue == [] || m.cfg.writers == 0))
    && (forall i :: 0 <= i < |w.writers| && w.writers[i].Gone? ==> m.stopThreads && m.queue == [])
  }

  ghost predicate Structure(w: World) { Phases(w) && Holders(w) && Pool(w) }

  ghost predicate Accounting(w: World) {
    w.mem.backlog == Held(w) && w.mem.backlog <= w.mem.budget
  }

  ghost predicate Ordering(w: World) {
    w.log.accepted == w.log.popped + Contents(w.mem)
  }

  ghost predicate Finishing(w: World) {
    forall f: Frame ::
      Times(w.log.popped, f) == Times(w.log.finished, f) + Sum(Holding(w.writers, f))
  }

  ghost predicate Counting(w: World) {
    w.log.offered == w.mem.dropped + |w.log.accepted| + Sum(BusyIn(w.captures)) + BusyDetector(w.detector)
  }

  ghost predicate Ledger(w: World) {
    Accounting(w) && Ordering(w) && Finishing(w) && Counting(w)
  }

  ghost predicate Inv(w: World) { Structure(w) && Ledger(w) }
}
