/** The memory of the frame processor (src/frame_processor.hpp:60-176) and the
    effect of each of its critical sections and atomic operations.

    Every operation below is indivisible in the source: it is either one atomic
    access or the body of one lock scope. The threads that string them together
    are in module Pipeline, the methods of the class in module FrameProcessors. */
module ProcessorMemory {
  import opened Types
  import opened Sums

  /** A captured frame as the processor accounts for it: whose it is and how
      many bytes of payload it holds. A write task carries the same data. */
  datatype Frame = Frame(camera: u32, frameId: nat, bytes: nat)

  /** `ProcessConfig`, plus the largest frame the configured sensor delivers. */
  datatype Config = Config(
    mode: ProcessMode, save: bool, batchSize: nat, writers: nat, maxFrame: nat)
  {
    /** The writer pool runs in this configuration. */
    predicate Pooled() { mode.UsesWriterPool() && save }

    /** Frames are retained in memory until the flush. */
    predicate Retains() { mode.Buffer? && save }
  }

  datatype Published = Published(frame: Frame, seqNo: nat)

  datatype Memory = Memory(
    cfg: Config,
    enabled: bool,
    budget: nat,
    backlog: nat,
    dropped: nat,
    buffered: seq<Frame>,
    pending: seq<Frame>,
    queue: seq<Frame>,
    stopThreads: bool,
    inbox: map<u32, Frame>,
    stopDetection: bool,
    lastDetected: u32,
    slots: map<u32, Published>,
    slotCounter: nat)
  {
    /** The test a reservation makes against the value it last read. */
    predicate Fits(held: nat, bytes: nat) { AddSize(held, bytes) <= budget }

    /** The value a release tries to install over the one it last read. */
    static function Lowered(held: nat, bytes: nat): nat {
      if held > bytes then held - bytes else 0
    }

    function AppendBuffered(f: Frame): Memory {
      this.(buffered := buffered + [f])
    }

    /** BATCH: append to the batch, moving a full batch to the write queue. */
    function AppendBatch(f: Frame): Memory {
      var batch := pending + [f];
      if |batch| >= Max(cfg.batchSize, 1)
      then this.(pending := [], queue := queue + batch)
      else this.(pending := batch)
    }

    function Enqueue(f: Frame): Memory { this.(queue := queue + [f]) }

    /** Where an accepted frame goes in the configured mode. */
    function Accept(f: Frame): (m: Memory)
      ensures m == this.(buffered := m.buffered, pending := m.pending, queue := m.queue)
    {
      if cfg.mode.Buffer? then AppendBuffered(f)
      else if cfg.mode.Batch? then AppendBatch(f)
      else Enqueue(f)
    }

    function PopQueue(): Memory
      requires queue != []
    {
      this.(queue := queue[1..])
    }

    /** Detector modes: the newest frame of a camera replaces the pending one. */
    function PutInbox(f: Frame): Memory {
      this.(inbox := inbox[f.camera := f])
    }

    ghost function TakeInbox(): (Memory, Frame)
      requires inbox != map[]
    {
      var c := NextCamera(inbox.Keys, lastDetected);
      (this.(inbox := inbox - {c}, lastDetected := c), inbox[c])
    }

    function Publish(f: Frame): Memory {
      this.(slotCounter := slotCounter + 1,
            slots := slots[f.camera := Published(f, slotCounter + 1)])
    }

    function ClearSlots(): Memory { this.(slots := map[]) }

    /** `start`, for every mode but NONE, once the budget has been resolved. */
    function StartSession(c: Config, resolved: nat): Memory {
      Memory(c, true, resolved, 0, 0,
             if c.mode.Buffer? then [] else buffered,
             if c.Pooled() then [] else pending,
             queue, false, map[], false, LAST_CAMERA, map[], slotCounter)
    }

    /** The lock scope of `stop` that hands the partial batch to the writers. */
    function FlushBatch(): Memory {
      this.(queue := queue + pending, pending := [], stopThreads := true)
    }
  }

  /** `std::numeric_limits<uint32_t>::max()`, the cursor of a fresh session. */
  const LAST_CAMERA: u32 := 0xFFFF_FFFF

  // ---- the ordered map of pending detections ------------------------------

  /** The smallest key, `begin()` of the ordered map. */
  ghost function Least(keys: set<u32>): (k: u32)
    requires keys != {}
    ensures k in keys && forall j :: j in keys ==> k <= j
  {
    var x :| x in keys;
    if keys == {x} then x
    else
      var rest := Least(keys - {x});
      assert forall j :: j in keys ==> j == x || j in keys - {x};
      if x < rest then x else rest
  }

  /** The round-robin choice: `upper_bound(last)`, or `begin()` past the end. */
  ghost function NextCamera(keys: set<u32>, last: u32): (k: u32)
    requires keys != {}
    ensures k in keys
    ensures k > last ==> forall j :: j in keys && j > last ==> k <= j
    ensures k <= last ==> forall j :: j in keys ==> k <= j <= last
  {
    var after := set j | j in keys && j > last;
    if after == {} then
      assert forall j :: j in keys && j > last ==> j in after;
      Least(keys)
    else
      var k := Least(after);
      assert forall j :: j in keys && j > last ==> j in after;
      k
  }

  // ---- bytes held by sequences of frames ------------------------------------

  function Sizes(fs: seq<Frame>): (s: seq<nat>)
    ensures |s| == |fs|
  {
    seq(|fs|, i requires 0 <= i < |fs| => fs[i].bytes)
  }

  function Bytes(fs: seq<Frame>): nat { Sum(Sizes(fs)) }

  lemma BytesConcat(a: seq<Frame>, b: seq<Frame>)
    ensures Bytes(a + b) == Bytes(a) + Bytes(b)
  {
    assert Sizes(a + b) == Sizes(a) + Sizes(b);
    SumConcat(Sizes(a), Sizes(b));
  }

  lemma BytesOne(f: Frame)
    ensures Bytes([f]) == f.bytes
  {
    assert Sizes([f])[1..] == [];
    assert Sum(Sizes([f])) == Sizes([f])[0] + Sum(Sizes([f])[1..]);
  }

  lemma BytesPop(q: seq<Frame>)
    requires q != []
    ensures Bytes(q) == q[0].bytes + Bytes(q[1..])
  {
    BytesOne(q[0]);
    BytesConcat([q[0]], q[1..]);
    assert q == [q[0]] + q[1..];
  }

  /** Accepting a frame in a pooled mode puts it behind everything the write
      queue and the partial batch already hold, and adds exactly its bytes. */
  lemma AcceptAppends(m: Memory, f: Frame)
    requires !m.cfg.mode.Buffer?
    requires m.cfg.mode.Batch? || m.pending == []
    ensures var n := m.Accept(f);
            && n.queue + n.pending == m.queue + m.pending + [f]
            && Bytes(n.pending) + Bytes(n.queue) == Bytes(m.pending) + Bytes(m.queue) + f.bytes
  {
    var n := m.Accept(f);
    assert n.queue + n.pending == m.queue + m.pending + [f];
    BytesOne(f);
    BytesConcat(n.queue, n.pending);
    BytesConcat(m.queue, m.pending);
    BytesConcat(m.queue + m.pending, [f]);
  }
}
