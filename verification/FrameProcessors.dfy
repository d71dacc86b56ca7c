/** The frame processor as the object it is in the source: its fields, its
    methods, each run to its end without another thread in between. Every method
    is tied to the critical sections of ProcessorMemory and Triggers that the
    step systems interleave. */
module FrameProcessors {
  import opened Types
  import opened ProcessorMemory
  import opened Pipeline
  import opened PipelineSafety
  import Triggers

  /** What the budget says about one more frame: the reservation the
      compare-exchange loop ends with. */
  function Reserving(m: Memory, bytes: nat): (Memory, bool) {
    if m.budget == 0 then (m, true)
    else if m.Fits(m.backlog, bytes) then (m.(backlog := AddSize(m.backlog, bytes)), true)
    else (m.(dropped := m.dropped + 1), false)
  }

  function WithStored(m: Memory, f: Frame): Memory {
    var (n, ok) := Reserving(m, f.bytes);
    if ok then n.Accept(f) else n
  }

  lemma EmptyQueueKept(m: Memory)
    requires !m.cfg.Retains() && m.queue == []
    ensures Kept(m) == Bytes(m.pending)
  {
    assert Bytes([]) == 0;
    hide Bytes;
  }

  lemma StartKept(m: Memory, c: Config, b: nat)
    ensures Kept(m.StartSession(c, b)) ==
            Bytes(if c.Pooled() then [] else m.pending) + Bytes(m.queue)
    ensures Bytes([]) == 0
  {
    assert Bytes([]) == 0;
    hide Bytes;
  }

  /** `n` is `m` after it was asked to keep `f`: behind everything else if its bytes fit
      the budget, and otherwise one more frame dropped. */
  ghost predicate Took(m: Memory, n: Memory, f: Frame) {
    if m.backlog + f.bytes <= m.budget
    then && n == m.(backlog := n.backlog, buffered := n.buffered, pending := n.pending, queue := n.queue)
         && n.backlog == m.backlog + f.bytes && Contents(n) == Contents(m) + [f]
    else n == m.(dropped := m.dropped + 1)
  }

  /** A session with a budget keeps a frame exactly if its bytes fit. */
  lemma StoredExactly(m: Memory, f: Frame)
    requires m.cfg.Retains() || (m.cfg.Pooled() && (m.cfg.mode.Batch? || m.pending == []))
    requires 0 < m.budget && m.backlog <= m.budget && m.budget + f.bytes < SIZE_MODULUS
    ensures Took(m, WithStored(m, f), f)
  {
    var (n, ok) := Reserving(m, f.bytes);
    SameContents(m, n);
    if ok { AcceptConserves(n, f); }
    hide Kept, Contents;
  }

  /** In the modes that write every frame by itself it goes behind the write queue. */
  lemma QueuedOrDropped(m: Memory, n: Memory, f: Frame)
    requires !m.cfg.mode.Buffer? && !m.cfg.mode.Batch? && m.pending == [] && n == WithStored(m, f)
    requires 0 < m.budget && m.backlog <= m.budget && m.budget + f.bytes < SIZE_MODULUS
    ensures var fits := m.backlog + f.bytes <= m.budget;
            && n.queue == m.queue + (if fits then [f] else []) && n.pending == m.pending
            && n.dropped == m.dropped + (if fits then 0 else 1)
  {
    assert m.queue + [] == m.queue;
  }

  /** A capture is to be saved exactly if the session saves. */
  lemma CapturesAsConfigured(m: Triggers.TriggerMem, camera: u32, frameId: nat)
    ensures var (n, h) := m.Handle(camera, frameId);
            && n == m.(pending := n.pending) && (h.Taken? ==> h.capture.saved == m.save)
  {
  }

  /** A frame that the trigger captures and that is to be saved goes to the writers
      exactly if its bytes fit the budget; otherwise the drop is counted. */
  lemma SettledExactly(trig: Triggers.TriggerMem, m: Memory, f: Frame)
    requires m.cfg.mode.Trigger? && 0 < m.budget && m.backlog <= m.budget
    requires m.budget + f.bytes < SIZE_MODULUS
    ensures var h := trig.Handle(f.camera, f.frameId).1;
            var n := if h.Taken? && h.capture.saved then WithStored(m, f) else m;
            && (n.queue == m.queue + [f] <==>
                  h.Taken? && h.capture.saved && m.backlog + f.bytes <= m.budget)
            && (n.dropped == m.dropped + 1 <==>
                  h.Taken? && h.capture.saved && m.backlog + f.bytes > m.budget)
  {
    hide Triggers.TriggerMem.Handle;
    assert |m.queue + [f]| == |m.queue| + 1;
  }

  // ---- the totals of a session ---------------------------------------------------

  /** `frames_saved`, `bytes_written` and `frames_saved_per_camera`. */
  datatype Totals = Totals(frames: nat, bytes: nat, perCamera: map<u32, u32>)
  {
    function Of(camera: u32): u32 { if camera in perCamera then perCamera[camera] else 0 }

    /** One file written; the camera's counter is 32 bits wide. */
    function Saved(f: Frame): Totals {
      Totals(frames + 1, bytes + f.bytes,
             perCamera[f.camera := (Of(f.camera) + 1) % 0x1_0000_0000])
    }
  }

  const NOTHING_SAVED := Totals(0, 0, map[])

  /** The totals after the frames of `fs` that `disk` lets be written. */
  function Credited(t: Totals, fs: seq<Frame>, disk: Frame -> bool): Totals {
    if fs == [] then t
    else
      var u, f := Credited(t, fs[..|fs| - 1], disk), fs[|fs| - 1];
      if disk(f) then u.Saved(f) else u
  }

  /** The frames of `fs` that are written. */
  function Written(fs: seq<Frame>, disk: Frame -> bool): seq<Frame> {
    if fs == [] then []
    else Written(fs[..|fs| - 1], disk) + (if disk(fs[|fs| - 1]) then [fs[|fs| - 1]] else [])
  }

  function OfCamera(fs: seq<Frame>, camera: u32): nat {
    if fs == [] then 0
    else OfCamera(fs[..|fs| - 1], camera) + (if fs[|fs| - 1].camera == camera then 1 else 0)
  }

  lemma SavedOf(t: Totals, f: Frame, camera: u32)
    ensures t.Saved(f).Of(camera) ==
            (t.Of(camera) + (if f.camera == camera then 1 else 0)) % 0x1_0000_0000
  {
  }

  lemma WrapsOnce(x: nat, d: nat)
    ensures (x % 0x1_0000_0000 + d) % 0x1_0000_0000 == (x + d) % 0x1_0000_0000
  {
  }

  /** One more frame written. */
  lemma OneMoreWritten(t: Totals, u: Totals, done: seq<Frame>, f: Frame, camera: u32)
    requires u.frames == t.frames + |done| && u.bytes == t.bytes + Bytes(done)
    requires u.Of(camera) == (t.Of(camera) + OfCamera(done, camera)) % 0x1_0000_0000
    ensures var v, more := u.Saved(f), done + [f];
            && v.frames == t.frames + |more| && v.bytes == t.bytes + Bytes(more)
            && v.Of(camera) == (t.Of(camera) + OfCamera(more, camera)) % 0x1_0000_0000
  {
    BytesConcat(done, [f]);
    BytesOne(f);
    assert (done + [f])[..|done|] == done;
    SavedOf(u, f, camera);
    hide Bytes, Totals.Of;
    WrapsOnce(t.Of(camera) + OfCamera(done, camera), if f.camera == camera then 1 else 0);
  }

  /** The totals count the files written, their bytes, and each camera's files
      modulo 2^32. */
  lemma {:induction false} CreditsWritten(t: Totals, fs: seq<Frame>, disk: Frame -> bool, camera: u32)
    ensures var u, done := Credited(t, fs, disk), Written(fs, disk);
            && u.frames == t.frames + |done| && u.bytes == t.bytes + Bytes(done)
            && u.Of(camera) == (t.Of(camera) + OfCamera(done, camera)) % 0x1_0000_0000
  {
    assert Bytes([]) == 0;
    hide Bytes;
    if fs != [] {
      var rest, f := fs[..|fs| - 1], fs[|fs| - 1];
      CreditsWritten(t, rest, disk, camera);
      assert Written(rest, disk) + [] == Written(rest, disk);
      if disk(f) {
        OneMoreWritten(t, Credited(t, rest, disk), Written(rest, disk), f, camera);
      }
    }
  }

  lemma CreditedStep(t: Totals, fs: seq<Frame>, i: nat, disk: Frame -> bool)
    requires i < |fs|
    ensures Bytes(fs[..i + 1]) == Bytes(fs[..i]) + fs[i].bytes
    ensures Credited(t, fs[..i + 1], disk) ==
            if disk(fs[i]) then Credited(t, fs[..i], disk).Saved(fs[i]) else Credited(t, fs[..i], disk)
  {
    assert fs[..i + 1] == fs[..i] + [fs[i]];
    assert fs[..i + 1][..i] == fs[..i];
    BytesConcat(fs[..i], [fs[i]]);
    BytesOne(fs[i]);
  }

  lemma EmptyPrefix(t: Totals, disk: Frame -> bool)
    ensures Bytes([]) == 0 && Credited(t, [], disk) == t
  {
  }

  lemma NoBytes()
    ensures Bytes([]) == 0
  {
  }

  lemma FlushedKept(m: Memory)
    requires m.cfg.Retains() && m.queue == [] && m.pending == []
    ensures Kept(m) == Bytes(m.buffered)
  {
    assert Bytes([]) == 0;
    hide Bytes;
  }

  /** The counter is exact and the queues match the mode. */
  ghost predicate Sound(m: Memory) {
    && m.backlog == Kept(m) && m.backlog <= m.budget
    && (!m.cfg.Pooled() ==> m.queue == [] && m.pending == [])
    && (!m.cfg.mode.Batch? ==> m.pending == [])
    && (!m.cfg.mode.IsDetector() ==> m.inbox == map[])
    && (forall c :: c in m.inbox ==> m.inbox[c].bytes <= m.cfg.maxFrame)
  }

  lemma StoredSound(m: Memory, f: Frame)
    requires Sound(m) && 0 < m.budget && m.budget + f.bytes < SIZE_MODULUS
    requires m.cfg.Retains() || m.cfg.Pooled()
    ensures Sound(WithStored(m, f))
  {
    hide Kept, Contents, Reserving;
    var (n, ok) := Reserving(m, f.bytes);
    ReservingIs(m, f.bytes);
    SameContents(m, n);
    if ok {
      AcceptConserves(n, f);
      AcceptKeepsShape(n, f);
      hide Memory.Accept;
    }
  }

  lemma ReservingIs(m: Memory, bytes: nat)
    requires 0 < m.budget && m.backlog <= m.budget && m.budget + bytes < SIZE_MODULUS
    ensures Reserving(m, bytes) ==
            if m.backlog + bytes <= m.budget then (m.(backlog := m.backlog + bytes), true)
            else (m.(dropped := m.dropped + 1), false)
  {
  }

  lemma AcceptKeepsShape(m: Memory, f: Frame)
    requires m.cfg.Retains() || m.cfg.Pooled()
    ensures var n := m.Accept(f);
            && (!m.cfg.Pooled() ==> n.queue == m.queue && n.pending == m.pending)
            && (!m.cfg.mode.Batch? ==> n.pending == m.pending)
  {
  }

  /** A session starts soundly exactly if nothing is left over that it would count. */
  lemma StartsSound(m: Memory, c: Config, b: nat)
    ensures Sound(m.StartSession(c, b)) <==>
              if c.Pooled() then Bytes(m.queue) == 0 else m.queue == [] && m.pending == []
  {
    StartKept(m, c, b);
    hide Kept, Bytes;
  }

  class FrameProcessor {
    var cfg: Config
    var enabled: bool
    var backlogBudget: nat
    var backlogBytes: nat
    var dropped: nat
    var framesSaved: nat
    var bytesWritten: nat
    var framesSavedPerCamera: map<u32, u32>
    var buffered: seq<Frame>
    var pendingBatch: seq<Frame>
    var writeQueue: seq<Frame>
    var writerThreads: nat
    var stopThreads: bool
    var detectionThread: bool
    var pendingDetection: map<u32, Frame>
    var stopDetection: bool
    var lastDetected: u32
    var detectedForStream: map<u32, Published>
    var detectedSeq: nat
    var pendingTrigger: Option<Triggers.Pending>
    var nextTriggerId: u32
    var acks: seq<Triggers.TriggerResult>

    ghost function Mem(): Memory
      reads this`cfg, this`enabled, this`backlogBudget, this`backlogBytes, this`dropped, this`buffered,
            this`pendingBatch, this`writeQueue, this`stopThreads, this`pendingDetection,
            this`stopDetection, this`lastDetected, this`detectedForStream, this`detectedSeq
    {
      Memory(cfg, enabled, backlogBudget, backlogBytes, dropped, buffered, pendingBatch,
             writeQueue, stopThreads, pendingDetection, stopDetection, lastDetected,
             detectedForStream, detectedSeq)
    }

    ghost function Trig(): Triggers.TriggerMem
      reads this`enabled, this`cfg, this`nextTriggerId, this`pendingTrigger
    {
      Triggers.TriggerMem(enabled, cfg.mode, cfg.save, nextTriggerId, pendingTrigger)
    }

    ghost function Tally(): Totals
      reads this`framesSaved, this`bytesWritten, this`framesSavedPerCamera
    {
      Totals(framesSaved, bytesWritten, framesSavedPerCamera)
    }

    /** The threads that run are those the session needs. */
    ghost predicate Crewed()
      reads this`enabled, this`cfg, this`writerThreads, this`detectionThread
    {
      && writerThreads == (if enabled && cfg.Pooled() then cfg.writers else 0)
      && detectionThread == (enabled && cfg.mode.IsDetector())
    }

    /** While a session runs the counter is exact between two calls and the
        queues match the mode. */
    ghost predicate Valid()
      reads this
    {
      && Crewed()
      && (enabled ==> !cfg.mode.NoMode? && Balanced() && Roomy())
      && (!enabled ==> pendingTrigger.None?)
    }

    /** The budget is set and one more frame does not overflow `size_t`. */
    ghost predicate Roomy()
      reads this`cfg, this`backlogBudget
    {
      0 < backlogBudget && backlogBudget + cfg.maxFrame < SIZE_MODULUS
    }

    ghost predicate Balanced()
      reads this`cfg, this`enabled, this`backlogBudget, this`backlogBytes, this`dropped, this`buffered,
            this`pendingBatch, this`writeQueue, this`stopThreads, this`pendingDetection,
            this`stopDetection, this`lastDetected, this`detectedForStream, this`detectedSeq
    {
      Sound(Mem())
    }

    constructor ()
      ensures Valid() && !enabled && nextTriggerId == 1 && acks == []
    {
      cfg := Config(NoMode, false, 0, 0, 0);
      enabled, stopThreads, stopDetection, detectionThread := false, false, false, false;
      backlogBudget, backlogBytes, dropped, detectedSeq, writerThreads := 0, 0, 0, 0, 0;
      framesSaved, bytesWritten, framesSavedPerCamera := 0, 0, map[];
      buffered, pendingBatch, writeQueue, acks := [], [], [], [];
      pendingDetection, detectedForStream := map[], map[];
      lastDetected, nextTriggerId := LAST_CAMERA, 1;
      pendingTrigger := None;
    }

    /** `reserveBacklog`: retry the weak compare-exchange until it succeeds or the
        frame no longer fits; `spurious` says how often it fails for no reason. Without a
        budget everything fits, and nothing is counted. */
    method ReserveBacklog(bytes: nat, spurious: nat) returns (ok: bool)
      modifies this`backlogBytes, this`dropped
      ensures (Mem(), ok) == Reserving(old(Mem()), bytes)
      ensures backlogBudget == 0 ==> ok && backlogBytes == old(backlogBytes) && dropped == old(dropped)
      ensures var total := (old(backlogBytes) + bytes) % SIZE_MODULUS;
              backlogBudget > 0 ==>
                && (ok <==> total <= backlogBudget)
                && backlogBytes == (if ok then total else old(backlogBytes))
                && dropped == old(dropped) + (if ok then 0 else 1)
    {
      if backlogBudget == 0 { return true; }
      var held := backlogBytes;
      var left := spurious;
      while AddSize(held, bytes) <= backlogBudget
        invariant held == backlogBytes == old(backlogBytes)
        decreases left
      {
        if held == backlogBytes && left == 0 {
          backlogBytes := AddSize(held, bytes);
          return true;
        }
        held := backlogBytes;
        left := if left == 0 then 0 else left - 1;
      }
      dropped := dropped + 1;
      return false;
    }

    /** `releaseBacklog`: the saturating subtraction. */
    method ReleaseBacklog(bytes: nat, spurious: nat)
      modifies this`backlogBytes
      ensures Mem() == old(Mem()).(backlog := Memory.Lowered(old(backlogBytes), bytes))
      ensures backlogBytes == Max(0, old(backlogBytes) - bytes)
    {
      if bytes == 0 { return; }
      var held := backlogBytes;
      var left := spurious;
      while left != 0
        invariant held == backlogBytes == old(backlogBytes)
      {
        held := backlogBytes;
        left := left - 1;
      }
      backlogBytes := if held > bytes then held - bytes else 0;
    }

    /** `configure`, between sessions. */
    method Configure(c: Config)
      requires Valid() && !enabled
      modifies this`cfg
      ensures Valid() && cfg == c
    {
      cfg := c;
    }

    /** The flags and counters `start` resets once the budget has been resolved. */
    method ResetCounters(resolved: nat)
      modifies this`enabled, this`stopThreads, this`backlogBudget, this`backlogBytes,
               this`dropped
      ensures Mem() == old(Mem()).(enabled := true, stopThreads := false, budget := resolved,
                                   backlog := 0, dropped := 0)
    {
      enabled := true;
      stopThreads := false;
      backlogBudget := resolved;
      backlogBytes := 0;
      dropped := 0;
    }

    /** The detection slots left over from a previous session. */
    method ResetDetection()
      modifies this`pendingDetection, this`stopDetection, this`lastDetected, this`detectedForStream
      ensures Mem() == old(Mem()).(inbox := map[], stopDetection := false,
                                   lastDetected := LAST_CAMERA, slots := map[])
    {
      pendingDetection := map[];
      stopDetection := false;
      lastDetected := LAST_CAMERA;
      detectedForStream := map[];
    }

    /** The session's totals and the trigger of a client long gone. */
    method ResetTotals()
      modifies this`framesSaved, this`bytesWritten, this`framesSavedPerCamera, this`pendingTrigger
      ensures Tally() == NOTHING_SAVED && pendingTrigger.None?
    {
      framesSaved := 0;
      bytesWritten := 0;
      framesSavedPerCamera := map[];
      pendingTrigger := None;
    }

    /** `start` drops what BUFFER mode retained and a partial batch of the pool. */
    method ResetQueues()
      modifies this`buffered, this`pendingBatch
      ensures Mem() == old(Mem()).(buffered := if cfg.mode.Buffer? then [] else old(buffered),
                                   pending := if cfg.Pooled() then [] else old(pendingBatch))
    {
      if cfg.mode.Buffer? { buffered := []; }
      if cfg.Pooled() { pendingBatch := []; }
    }

    /** The resets of `start` once the budget has been resolved. */
    method ResetSession(resolved: nat)
      modifies this`enabled, this`stopThreads, this`backlogBudget, this`backlogBytes,
               this`dropped, this`framesSaved, this`bytesWritten, this`framesSavedPerCamera,
               this`pendingTrigger, this`pendingDetection, this`stopDetection, this`lastDetected,
               this`detectedForStream, this`buffered, this`pendingBatch
      ensures Mem() == old(Mem()).StartSession(old(cfg), resolved)
      ensures Tally() == NOTHING_SAVED && pendingTrigger.None?
    {
      ResetCounters(resolved);
      ResetTotals();
      ResetDetection();
      ResetQueues();
    }

    /** `start`: resolve the budget, reset the session, start the threads, keep
        trigger ids and the publication counter. `derived` is the budget computed
        from free memory. The accounting is sound from here on exactly if there is
        a budget with headroom and no byte is left over in a write queue that
        `start` does not clear. */
    method Start(backlogMax: nat, derived: nat)
      requires Valid() && !enabled
      modifies this
      ensures enabled == !old(cfg).mode.NoMode?
      ensures Mem() == if old(cfg).mode.NoMode? then old(Mem())
                       else old(Mem()).StartSession(old(cfg), if backlogMax > 0 then backlogMax else derived)
      ensures enabled ==>
                && backlogBudget == (if backlogMax > 0 then backlogMax else derived)
                && backlogBytes == 0 && dropped == 0 && !stopThreads && !stopDetection
                && pendingDetection == map[] && detectedForStream == map[] && lastDetected == LAST_CAMERA
                && detectedSeq == old(detectedSeq) && writeQueue == old(writeQueue)
                && buffered == (if cfg.mode.Buffer? then [] else old(buffered))
                && pendingBatch == (if cfg.Pooled() then [] else old(pendingBatch))
      ensures enabled ==> Crewed() && Tally() == NOTHING_SAVED
      ensures Trig() == old(Trig()).Start(old(cfg).mode, old(cfg).save) && acks == old(acks)
      ensures Valid() <==>
                !enabled || (Roomy() && if cfg.Pooled() then Bytes(old(writeQueue)) == 0
                                        else old(writeQueue) == [] && old(pendingBatch) == [])
    {
      hide Sound, Bytes, Mem, Memory.StartSession;
      if cfg.mode.NoMode? {
        enabled := false;
      } else {
        SessionFields(Mem(), cfg, if backlogMax > 0 then backlogMax else derived);
        FieldsOfMem();
        BeginSession(if backlogMax > 0 then backlogMax else derived);
        FieldsOfMem();
      }
    }

    /** `start` once the mode is known not to be NONE. */
    method BeginSession(resolved: nat)
      requires Crewed() && !enabled && !cfg.mode.NoMode?
      modifies this`enabled, this`stopThreads, this`backlogBudget, this`backlogBytes,
               this`dropped, this`framesSaved, this`bytesWritten, this`framesSavedPerCamera,
               this`pendingTrigger, this`pendingDetection, this`stopDetection, this`lastDetected,
               this`detectedForStream, this`buffered, this`pendingBatch, this`writerThreads,
               this`detectionThread
      ensures Mem() == old(Mem()).StartSession(cfg, resolved)
      ensures enabled && Crewed() && Tally() == NOTHING_SAVED && pendingTrigger.None?
      ensures Balanced() <==> if cfg.Pooled() then Bytes(writeQueue) == 0
                              else writeQueue == [] && old(pendingBatch) == []
    {
      StartsSound(Mem(), cfg, resolved);
      SessionFields(Mem(), cfg, resolved);
      FieldsOfMem();
      hide Sound, Bytes, Mem, Memory.StartSession;
      ResetSession(resolved);
      StartThreads();
      FieldsOfMem();
    }

    /** The writers and the detection worker of the configured mode. */
    method StartThreads()
      modifies this`writerThreads, this`detectionThread
      ensures writerThreads == old(writerThreads) + (if cfg.Pooled() then cfg.writers else 0)
      ensures detectionThread == (old(detectionThread) || cfg.mode.IsDetector())
    {
      if cfg.Pooled() { writerThreads := writerThreads + cfg.writers; }
      if cfg.mode.IsDetector() { detectionThread := true; }
    }

    /** Reserve, then push where the mode keeps its frames. */
    method StoreFrame(f: Frame, spurious: nat)
      requires Balanced() && 0 < backlogBudget && backlogBudget + f.bytes < SIZE_MODULUS
      requires cfg.Retains() || cfg.Pooled()
      modifies this`backlogBytes, this`dropped, this`buffered, this`pendingBatch, this`writeQueue
      ensures Balanced() && Mem() == WithStored(old(Mem()), f) && Took(old(Mem()), Mem(), f)
    {
      FieldsOfMem();
      StoredSound(Mem(), f);
      StoredExactly(Mem(), f);
      hide Sound, Mem, Reserving, Memory.Accept, Took;
      var ok := ReserveBacklog(f.bytes, spurious);
      if ok { Push(f); }
    }

    /** The push of a frame whose bytes have been reserved. */
    method Push(f: Frame)
      modifies this`buffered, this`pendingBatch, this`writeQueue
      ensures Mem() == old(Mem()).Accept(f)
    {
      if cfg.mode.Buffer? {
        buffered := buffered + [f];
      } else if cfg.mode.Batch? {
        pendingBatch := pendingBatch + [f];
        if |pendingBatch| >= Max(cfg.batchSize, 1) {
          writeQueue := writeQueue + pendingBatch;
          pendingBatch := [];
        }
      } else {
        writeQueue := writeQueue + [f];
      }
    }

    /** `saveFrame`, the capture thread's entry. */
    method SaveFrame(f: Frame, spurious: nat)
      requires Valid() && f.bytes <= cfg.maxFrame
      modifies this`backlogBytes, this`dropped, this`buffered, this`pendingBatch, this`writeQueue,
               this`pendingTrigger, this`acks, this`pendingDetection
      ensures Valid()
      ensures Mem() ==
                if !enabled then old(Mem())
                else if cfg.mode.IsDetector() then old(Mem()).PutInbox(f)
                else if cfg.mode.Trigger? then
                  var h := old(Trig()).Handle(f.camera, f.frameId).1;
                  if h.Taken? && h.capture.saved then WithStored(old(Mem()), f) else old(Mem())
                else if cfg.save then WithStored(old(Mem()), f)
                else old(Mem())
      ensures Trig() ==
                if enabled && cfg.mode.Trigger? then old(Trig()).Handle(f.camera, f.frameId).0
                else old(Trig())
      ensures acks == old(acks) + Completed(old(Trig()), enabled, f)
      ensures pendingDetection == if enabled && cfg.mode.IsDetector() then old(pendingDetection)[f.camera := f]
                                  else old(pendingDetection)
      ensures enabled && cfg.save && (cfg.mode.Buffer? || cfg.mode.Batch?) ==> Took(old(Mem()), Mem(), f)
    {
      if !enabled { return; }
      hide WithStored, Kept, Triggers.TriggerMem.Handle, Bytes, Took;
      if cfg.mode.Buffer? || cfg.mode.Batch? {
        if !cfg.save { return; }
        StoreFrame(f, spurious);
      } else if cfg.mode.Trigger? {
        HandleTriggerFrame(f, spurious);
      } else if cfg.mode.IsDetector() {
        KeepNewest(f);
      }
    }

    /** The newest frame of a camera replaces the pending one. */
    method KeepNewest(f: Frame)
      requires Balanced() && cfg.mode.IsDetector() && f.bytes <= cfg.maxFrame
      modifies this`pendingDetection
      ensures Balanced() && Mem() == old(Mem()).PutInbox(f)
      ensures pendingDetection == old(pendingDetection)[f.camera := f]
    {
      pendingDetection := pendingDetection[f.camera := f];
      SameContents(old(Mem()), Mem());
      hide Kept;
    }

    /** `armTrigger`. */
    method ArmTrigger(cameras: seq<u32>, skip: int) returns (id: Option<u32>)
      requires Valid()
      modifies this`pendingTrigger, this`nextTriggerId
      ensures Valid() && (Trig(), id) == old(Trig()).Arm(cameras, skip)
    {
      if !enabled || !cfg.mode.Trigger? { return None; }
      if cameras == [] { return None; }
      if pendingTrigger.Some? { return None; }
      id := Some(nextTriggerId);
      var waiting: map<u32, nat> := map[];
      var i := 0;
      while i < |cameras|
        invariant i <= |cameras|
        invariant waiting == map c | c in cameras[..i] :: Max(0, skip)
      {
        waiting := waiting[cameras[i] := Max(0, skip)];
        i := i + 1;
      }
      assert cameras[..i] == cameras;
      assert waiting == map c | c in cameras :: Max(0, skip);
      assert waiting == Trig().Arm(cameras, skip).0.pending.value.waiting;
      pendingTrigger := Some(Triggers.Pending(nextTriggerId, waiting, []));
      nextTriggerId := (nextTriggerId + 1) % 0x1_0000_0000;
    }

    /** `handleTriggerFrame`: the locked part, then the reservation, then the callback. */
    method HandleTriggerFrame(f: Frame, spurious: nat)
      requires Valid() && enabled && cfg.mode.Trigger? && f.bytes <= cfg.maxFrame
      modifies this`backlogBytes, this`dropped, this`buffered, this`pendingBatch, this`writeQueue,
               this`pendingTrigger, this`acks
      ensures Valid() && enabled
      ensures Trig() == old(Trig()).Handle(f.camera, f.frameId).0
      ensures var h := old(Trig()).Handle(f.camera, f.frameId).1;
              Mem() == if h.Taken? && h.capture.saved then WithStored(old(Mem()), f)
                       else old(Mem())
      ensures acks == old(acks) + Completed(old(Trig()), true, f)
    {
      AcknowledgedAs(Trig(), f);
      hide Completed, WithStored, Kept, Triggers.TriggerMem.Handle, Balanced, Mem;
      var h := CaptureFrame(f.camera, f.frameId);
      CapturesAsConfigured(old(Trig()), f.camera, f.frameId);
      StoreCapture(h, f, spurious);
      Acknowledge(h);
    }

    /** The reservation and the push, outside the lock. */
    method StoreCapture(h: Triggers.Handled, f: Frame, spurious: nat)
      requires Balanced() && Roomy() && f.bytes <= cfg.maxFrame
      requires cfg.mode.Trigger? && (h.Taken? && h.capture.saved ==> cfg.save)
      modifies this`backlogBytes, this`dropped, this`buffered, this`pendingBatch, this`writeQueue
      ensures Balanced()
      ensures Mem() == if h.Taken? && h.capture.saved then WithStored(old(Mem()), f) else old(Mem())
    {
      hide WithStored, Kept, Balanced, Mem;
      if h.Taken? && h.capture.saved { StoreFrame(f, spurious); }
    }

    /** The callback of a trigger that its last camera completed. */
    method Acknowledge(h: Triggers.Handled)
      modifies this`acks
      ensures acks == old(acks) + (if h.Taken? && h.finished.Some? then [h.finished.value] else [])
    {
      if h.Taken? && h.finished.Some? { acks := acks + [h.finished.value]; }
    }

    /** The lock scope of `handleTriggerFrame`. */
    method CaptureFrame(camera: u32, frameId: nat) returns (h: Triggers.Handled)
      modifies this`pendingTrigger
      ensures (Trig(), h) == old(Trig()).Handle(camera, frameId)
    {
      if pendingTrigger.None? { return Triggers.Ignored; }
      var p := pendingTrigger.value;
      if camera !in p.waiting { return Triggers.Ignored; }
      if p.waiting[camera] > 0 {
        pendingTrigger := Some(p.(waiting := p.waiting[camera := p.waiting[camera] - 1]));
        return Triggers.Skipped;
      }
      var capture := Triggers.Capture(camera, frameId, cfg.save);
      p := p.(captures := p.captures + [capture], waiting := p.waiting - {camera});
      if p.waiting == map[] {
        pendingTrigger := None;
        return Triggers.Taken(capture, Some(Triggers.TriggerResult(p.id, p.captures, false)));
      }
      pendingTrigger := Some(p);
      return Triggers.Taken(capture, None);
    }

    /** `upper_bound(last_detected_camera_)` of the ordered map, or its first key. */
    method NextPending() returns (c: u32)
      requires pendingDetection != map[]
      ensures c == NextCamera(pendingDetection.Keys, lastDetected)
    {
      var after := set k | k in pendingDetection && k > lastDetected;
      var keys := if after == {} then pendingDetection.Keys else after;
      assert after == {} ==> forall k :: k in pendingDetection ==> k !in after;
      c :| c in keys;
      var rest := keys - {c};
      while rest != {}
        invariant c in keys && rest <= keys
        invariant forall k :: k in keys ==> k in rest || c <= k
        decreases |rest|
      {
        var k :| k in rest;
        if k < c { c := k; }
        rest := rest - {k};
      }
    }

    /** The lock scope in which the detection worker takes a frame. */
    method TakePending() returns (f: Frame)
      requires pendingDetection != map[]
      modifies this`pendingDetection, this`lastDetected
      ensures (Mem(), f) == old(Mem()).TakeInbox()
      ensures f == old(pendingDetection[NextCamera(pendingDetection.Keys, lastDetected)])
      ensures lastDetected == old(NextCamera(pendingDetection.Keys, lastDetected))
      ensures pendingDetection == old(pendingDetection) - {lastDetected}
      ensures pendingDetection.Keys < old(pendingDetection).Keys
      ensures old(Balanced()) ==> Balanced() && (cfg.mode.IsDetector() ==> f.bytes <= cfg.maxFrame)
    {
      hide Kept, NextCamera;
      var c := NextPending();
      f := pendingDetection[c];
      lastDetected := c;
      pendingDetection := pendingDetection - {c};
      SameContents(old(Mem()), Mem());
    }

    /** The lock scope in which it publishes the frame to the streamer. */
    method PublishDetected(f: Frame)
      modifies this`detectedForStream, this`detectedSeq
      ensures Mem() == old(Mem()).Publish(f)
      ensures detectedForStream == old(detectedForStream)[f.camera := Published(f, old(detectedSeq) + 1)]
      ensures detectedSeq == old(detectedSeq) + 1
      ensures old(Balanced()) ==> Balanced()
    {
      hide Kept;
      detectedSeq := detectedSeq + 1;
      detectedForStream := detectedForStream[f.camera := Published(f, detectedSeq)];
      SameContents(old(Mem()), Mem());
    }

    /** One turn of the detection worker; `detect` is the detector's verdict. The frame
        goes to the writers exactly if something was found in it, frames are saved and its
        bytes fit the budget, counts as dropped if only the budget refuses it, and is
        published in any case. */
    method DetectNext(detect: Frame -> bool, spurious: nat)
      requires Balanced() && pendingDetection != map[] && cfg.mode.IsDetector()
      requires 0 < backlogBudget && backlogBudget + cfg.maxFrame < SIZE_MODULUS
      modifies this`pendingDetection, this`lastDetected, this`detectedForStream, this`detectedSeq,
               this`backlogBytes, this`dropped, this`buffered, this`pendingBatch, this`writeQueue
      ensures Balanced() && Mem() == Processed(old(Mem()), detect)
      ensures pendingDetection.Keys < old(pendingDetection).Keys
      ensures var c := old(NextCamera(pendingDetection.Keys, lastDetected));
              var f := old(pendingDetection)[c];
              var fits := old(backlogBytes) + f.bytes <= backlogBudget;
              && pendingDetection == old(pendingDetection) - {c} && lastDetected == c
              && detectedForStream == old(detectedForStream)[f.camera := Published(f, old(detectedSeq) + 1)]
              && pendingBatch == old(pendingBatch)
              && writeQueue == old(writeQueue) + (if detect(f) && cfg.save && fits then [f] else [])
              && dropped == old(dropped) + (if detect(f) && cfg.save && !fits then 1 else 0)
    {
      hide Kept, WithStored, NextCamera, Balanced, Memory.Publish, Memory.TakeInbox, Took;
      var f := TakePending();
      label taken:
      FieldsOfMem();
      assert writeQueue + [] == writeQueue;
      if detect(f) && cfg.save {
        BalancedParts();
        StoreFrame(f, spurious);
        FieldsOfMem();
        QueuedOrDropped(old@taken(Mem()), Mem(), f);
      }
      PublishDetected(f);
    }

    /** The drain of the detection worker after `stop_detection` was set. */
    method DrainDetections(detect: Frame -> bool)
      requires Balanced() && cfg.mode.IsDetector()
      requires 0 < backlogBudget && backlogBudget + cfg.maxFrame < SIZE_MODULUS
      modifies this`pendingDetection, this`lastDetected, this`detectedForStream, this`detectedSeq,
               this`backlogBytes, this`dropped, this`buffered, this`pendingBatch, this`writeQueue
      ensures Balanced() && Mem() == Drained(old(Mem()), detect) && pendingDetection == map[]
    {
      while pendingDetection != map[]
        invariant Balanced()
        invariant Drained(Mem(), detect) == Drained(old(Mem()), detect)
        decreases pendingDetection.Keys
      {
        DetectNext(detect, 0);
      }
    }

    /** One more file of the frame has been written. */
    method CountSaved(f: Frame)
      modifies this`framesSaved, this`bytesWritten, this`framesSavedPerCamera
      ensures Tally() == old(Tally()).Saved(f)
    {
      bytesWritten := bytesWritten + f.bytes;
      framesSaved := framesSaved + 1;
      var before: u32 := if f.camera in framesSavedPerCamera then framesSavedPerCamera[f.camera] else 0;
      framesSavedPerCamera := framesSavedPerCamera[f.camera := (before as int + 1) % 0x1_0000_0000];
    }

    /** A writer takes one task, writes it if `disk` lets it, and gives its bytes
        back either way. */
    method WriteOne(disk: Frame -> bool)
      requires Balanced() && cfg.Pooled() && writeQueue != []
      modifies this`writeQueue, this`backlogBytes, this`framesSaved, this`bytesWritten,
               this`framesSavedPerCamera
      ensures Balanced() && writeQueue == old(writeQueue)[1..]
      ensures var task := old(writeQueue)[0];
              Tally() == if disk(task) then old(Tally()).Saved(task) else old(Tally())
    {
      var task := writeQueue[0];
      PopKept(Mem());
      hide Kept;
      writeQueue := writeQueue[1..];
      assert Mem() == old(Mem()).PopQueue();
      if disk(task) { CountSaved(task); }
      label written:
      ReleaseBacklog(task.bytes, 0);
      SameContents(old@written(Mem()), Mem());
    }

    /** A writer thread that finds `stop_threads` set works off the queue and leaves. */
    method DrainWriteQueue(disk: Frame -> bool)
      requires Balanced() && cfg.Pooled()
      modifies this`writeQueue, this`backlogBytes, this`framesSaved, this`bytesWritten,
               this`framesSavedPerCamera
      ensures Balanced() && writeQueue == []
      ensures backlogBytes == Bytes(pendingBatch)
      ensures Tally() == Credited(old(Tally()), old(writeQueue), disk)
    {
      ghost var all, n, t := writeQueue, 0, Tally();
      EmptyPrefix(t, disk);
      hide Kept, Credited, Bytes, Totals.Saved;
      while writeQueue != []
        invariant Balanced() && n <= |all| && writeQueue == all[n..]
        invariant Tally() == Credited(t, all[..n], disk)
        decreases |writeQueue|
      {
        CreditedStep(t, all, n, disk);
        WriteOne(disk);
        n := n + 1;
      }
      assert all[..n] == all;
      EmptyQueueKept(Mem());
    }

    /** `flushBufferedFrames`. */
    method FlushBufferedFrames(disk: Frame -> bool)
      requires Valid() && Balanced()
      modifies this`buffered, this`backlogBytes, this`framesSaved, this`bytesWritten,
               this`framesSavedPerCamera
      ensures Valid() && Balanced()
      ensures cfg.Retains() ==>
                && buffered == [] && backlogBytes == 0
                && Tally() == Credited(old(Tally()), old(buffered), disk)
      ensures !cfg.Retains() ==> Mem() == old(Mem()) && Tally() == old(Tally())
    {
      if !cfg.mode.Buffer? || !cfg.save { return; }
      FlushedKept(Mem());
      hide Bytes, Credited, Kept;
      var flushed := WriteBuffered(disk);
      buffered := [];
      ReleaseBacklog(flushed, 0);
      FlushedKept(Mem());
      NoBytes();
    }

    /** The loop of `flushBufferedFrames`: the bytes that were retained. */
    method WriteBuffered(disk: Frame -> bool) returns (flushed: nat)
      modifies this`framesSaved, this`bytesWritten, this`framesSavedPerCamera
      ensures flushed == Bytes(buffered)
      ensures Tally() == Credited(old(Tally()), buffered, disk)
    {
      ghost var t := Tally();
      EmptyPrefix(t, disk);
      flushed := 0;
      var i := 0;
      hide Bytes, Credited, Totals.Saved;
      while i < |buffered|
        invariant i <= |buffered|
        invariant flushed == Bytes(buffered[..i])
        invariant Tally() == Credited(t, buffered[..i], disk)
      {
        CreditedStep(t, buffered, i, disk);
        flushed := flushed + buffered[i].bytes;
        if disk(buffered[i]) { CountSaved(buffered[i]); }
        i := i + 1;
      }
      assert buffered[..i] == buffered;
    }

    /** `stop` resolves a trigger that can no longer complete as cancelled. */
    method AbandonTrigger()
      modifies this`enabled, this`pendingTrigger, this`acks
      ensures old(Balanced()) ==> Balanced()
      ensures Mem() == old(Mem()).(enabled := false)
      ensures Trig() == old(Trig()).Abandon().0 && !enabled && pendingTrigger.None?
      ensures acks == old(acks) + (if old(pendingTrigger).Some? then [old(Trig()).Abandon().1.value] else [])
    {
      enabled := false;
      if pendingTrigger.Some? {
        var abandoned := pendingTrigger.value;
        pendingTrigger := None;
        acks := acks + [Triggers.TriggerResult(abandoned.id, abandoned.captures, true)];
      }
      SameContents(old(Mem()), Mem());
      hide Kept;
    }

    /** `stop` of a detector mode: request the end, wait for the worker's drain if
        it runs, then drop the streamer-facing slots. */
    method StopDetector(detect: Frame -> bool)
      requires cfg.mode.IsDetector() && (detectionThread ==> Balanced() && Roomy())
      modifies this`stopDetection, this`detectionThread, this`pendingDetection, this`lastDetected,
               this`detectedForStream, this`detectedSeq, this`backlogBytes, this`dropped,
               this`buffered, this`pendingBatch, this`writeQueue
      ensures old(Balanced()) ==> Balanced()
      ensures !detectionThread
      ensures Mem() == AfterDetector(old(Mem()), detect, old(detectionThread))
      ensures old(detectionThread) ==> pendingDetection == map[]
    {
      RequestDetectionStop();
      hide Kept, Drained;
      if detectionThread {
        DrainDetections(detect);
        detectionThread := false;
      }
      label joined:
      assert Balanced() ==> old@joined(Balanced());
      DropDetectedSlots();
    }

    method RequestDetectionStop()
      modifies this`stopDetection
      ensures old(Balanced()) ==> Balanced()
      ensures Mem() == old(Mem()).(stopDetection := true)
    {
      stopDetection := true;
      SameContents(old(Mem()), Mem());
      hide Kept;
    }

    method DropDetectedSlots()
      modifies this`detectedForStream
      ensures old(Balanced()) ==> Balanced()
      ensures Mem() == old(Mem()).ClearSlots()
    {
      detectedForStream := map[];
      SameContents(old(Mem()), Mem());
      hide Kept;
    }

    /** The lock scope of `stop` that hands the partial batch to the writers. */
    method HandOverBatch()
      requires cfg.Pooled()
      modifies this`writeQueue, this`pendingBatch, this`stopThreads
      ensures old(Balanced()) ==> Balanced()
      ensures Mem() == old(Mem()).FlushBatch() && pendingBatch == []
    {
      FlushBatchKeeps(Mem());
      hide Kept;
      writeQueue := writeQueue + pendingBatch;
      pendingBatch := [];
      stopThreads := true;
    }

    /** `stop` of the writer pool: hand over the partial batch, then wait for the
        writers there are, which work off the queue. */
    method StopWriters(disk: Frame -> bool)
      requires cfg.Pooled() && (writerThreads > 0 ==> Balanced())
      modifies this`writeQueue, this`pendingBatch, this`stopThreads, this`writerThreads,
               this`backlogBytes, this`framesSaved, this`bytesWritten, this`framesSavedPerCamera
      ensures old(Balanced()) ==> Balanced()
      ensures writerThreads == 0 && pendingBatch == []
      ensures Mem() == AfterWriters(old(Mem()), old(writerThreads) > 0)
      ensures Tally() == if old(writerThreads) > 0
                         then Credited(old(Tally()), old(writeQueue + pendingBatch), disk) else old(Tally())
    {
      hide Kept, Credited, Balanced, AfterWriters, Memory.FlushBatch;
      HandOverBatch();
      JoinWriters(disk);
      label joined:
      FlushThenWork(old(Mem()), old(writerThreads) > 0);
      writerThreads := 0;
    }

    /** The wait for the writers, which work off the queue. */
    method JoinWriters(disk: Frame -> bool)
      requires cfg.Pooled() && pendingBatch == [] && (writerThreads > 0 ==> Balanced())
      modifies this`writeQueue, this`backlogBytes, this`framesSaved, this`bytesWritten,
               this`framesSavedPerCamera
      ensures old(Balanced()) ==> Balanced()
      ensures Mem() == if writerThreads > 0 then old(Mem()).(queue := [], backlog := 0) else old(Mem())
      ensures Tally() == if writerThreads > 0
                         then Credited(old(Tally()), old(writeQueue), disk) else old(Tally())
    {
      assert Bytes([]) == 0;
      hide Kept, Bytes, Credited, Balanced;
      if writerThreads > 0 { DrainWriteQueue(disk); }
    }

    /** The detector first, so that everything it still stores is in the queue
        before the writers are told to finish. */
    method StopWorkers(detect: Frame -> bool, disk: Frame -> bool)
      requires (writerThreads > 0 || detectionThread ==> Balanced() && Roomy())
      requires (writerThreads > 0 ==> cfg.Pooled()) && (detectionThread ==> cfg.mode.IsDetector())
      modifies this`stopDetection, this`detectionThread, this`pendingDetection, this`lastDetected,
               this`detectedForStream, this`detectedSeq, this`backlogBytes, this`dropped,
               this`buffered, this`pendingBatch, this`writeQueue, this`stopThreads,
               this`writerThreads, this`framesSaved, this`bytesWritten, this`framesSavedPerCamera
      ensures old(Balanced()) ==> Balanced()
      ensures writerThreads == 0 && !detectionThread
      ensures Mem() == Finished(old(Mem()), detect, old(detectionThread), old(writerThreads) > 0)
      ensures Tally() == if old(writerThreads) > 0
                         then Credited(old(Tally()), ToWrite(old(Mem()), detect, old(detectionThread)), disk)
                         else old(Tally())
      ensures cfg.Pooled() ==>
                && pendingBatch == []
                && writeQueue == (if old(writerThreads) > 0 then []
                                  else ToWrite(old(Mem()), detect, old(detectionThread)))
                && (old(writerThreads) > 0 ==> backlogBytes == 0)
    {
      if cfg.Pooled() { FinishedQueues(Mem(), detect, detectionThread, writerThreads > 0); }
      hide Bytes, Drained, Credited, Kept, AfterDetector, AfterWriters;
      if cfg.mode.IsDetector() { StopDetector(detect); }
      label detected:
      DetectorKeepsConfig(old(Mem()), detect, old(detectionThread));
      if cfg.Pooled() {
        StopWriters(disk);
      }
    }

    /** `stop`, with the capture threads quiet: cancel the trigger, drain the
        detector, then hand the partial batch to the writers and wait for them. */
    method Stop(detect: Frame -> bool, disk: Frame -> bool)
      requires Valid()
      modifies this`enabled, this`pendingTrigger, this`acks, this`stopDetection, this`detectionThread,
               this`pendingDetection, this`lastDetected, this`detectedForStream, this`detectedSeq,
               this`backlogBytes, this`dropped, this`buffered, this`pendingBatch, this`writeQueue,
               this`stopThreads, this`writerThreads, this`framesSaved, this`bytesWritten,
               this`framesSavedPerCamera
      ensures Valid() && !enabled
      ensures Mem() == Finished(old(Mem()).(enabled := false), detect, old(detectionThread), old(writerThreads) > 0)
      ensures Trig() == old(Trig()).Abandon().0
      ensures acks == old(acks) + (if old(pendingTrigger).Some? then [old(Trig()).Abandon().1.value] else [])
      ensures Tally() == if old(writerThreads) > 0
                         then Credited(old(Tally()), old(Pending(detect)), disk) else old(Tally())
      ensures old(enabled) ==> Balanced()
      ensures cfg.Pooled() ==>
                && pendingBatch == []
                && writeQueue == (if old(writerThreads) > 0 then [] else old(Pending(detect)))
                && (old(writerThreads) > 0 ==> backlogBytes == 0)
    {
      hide Bytes, Drained, ToWrite, Finished, Credited, Kept, Balanced, Sound, Mem, Trig, Triggers.TriggerMem.Abandon;
      FieldsOfMem();
      AbandonTrigger();
      StopWorkers(detect, disk);
      FieldsOfMem();
    }

    lemma BalancedParts()
      requires Balanced()
      ensures backlogBytes <= backlogBudget && (!cfg.mode.Batch? ==> pendingBatch == [])
    {
    }

    lemma FieldsOfMem()
      ensures Mem().budget == backlogBudget && Mem().cfg == cfg && Mem().enabled == enabled && Mem().queue == writeQueue
      ensures Mem().slots == detectedForStream && Mem().inbox == pendingDetection
      ensures Mem().lastDetected == lastDetected && Mem().slotCounter == detectedSeq && Mem().buffered == buffered
      ensures Mem().stopThreads == stopThreads && Mem().stopDetection == stopDetection
      ensures Mem().pending == pendingBatch && Mem().backlog == backlogBytes && Mem().dropped == dropped
    {
    }

    /** What the writers still have to write when `stop` is called. */
    ghost function Pending(detect: Frame -> bool): seq<Frame>
      reads this
    {
      ToWrite(Mem().(enabled := false), detect, detectionThread)
    }

    /** `getDetectedFrameForStreaming`: the newest processed frame of a camera if
        it is newer than the consumer's cursor, and the cursor's new value. */
    method GetDetectedFrameForStreaming(camera: u32, cursor: nat) returns (got: Option<Frame>, next: nat)
      ensures got.Some? <==> camera in detectedForStream && cursor < detectedForStream[camera].seqNo
      ensures got.Some? ==>
                got.value == detectedForStream[camera].frame && next == detectedForStream[camera].seqNo
      ensures got.None? ==> next == cursor
    {
      if camera !in detectedForStream || detectedForStream[camera].seqNo <= cursor {
        return None, cursor;
      }
      return Some(detectedForStream[camera].frame), detectedForStream[camera].seqNo;
    }

    /** The loop of `resetFramesSavedCounts`. */
    method ZeroSavedCounts()
      modifies this`framesSavedPerCamera
      ensures framesSavedPerCamera.Keys == old(framesSavedPerCamera).Keys
      ensures forall c :: c in framesSavedPerCamera ==> framesSavedPerCamera[c] == 0
    {
      var left := framesSavedPerCamera.Keys;
      while left != {}
        invariant framesSavedPerCamera.Keys == old(framesSavedPerCamera).Keys
        invariant left <= framesSavedPerCamera.Keys
        invariant forall c :: c in framesSavedPerCamera ==> c in left || framesSavedPerCamera[c] == 0
        decreases |left|
      {
        var c :| c in left;
        framesSavedPerCamera := framesSavedPerCamera[c := 0];
        left := left - {c};
      }
    }

    /** `resetFramesSavedCounts`: every camera's counter goes to zero, and no frame
        with a number from before the reset stays pending or published. */
    method ResetFramesSavedCounts()
      requires Valid()
      modifies this`pendingDetection, this`detectedForStream, this`framesSavedPerCamera
      ensures Valid() && Mem() == old(Mem()).(inbox := map[], slots := map[])
      ensures framesSavedPerCamera.Keys == old(framesSavedPerCamera).Keys
      ensures forall c :: c in framesSavedPerCamera ==> framesSavedPerCamera[c] == 0
    {
      ZeroSavedCounts();
      pendingDetection := map[];
      detectedForStream := map[];
      SameContents(old(Mem()), Mem());
    }
  }

  /** One detection: take the next camera's frame, store it if something was
      found and frames are saved, publish it. */
  ghost function Processed(m: Memory, detect: Frame -> bool): Memory
    requires m.inbox != map[]
  {
    var (n, f) := m.TakeInbox();
    (if detect(f) && n.cfg.save then WithStored(n, f) else n).Publish(f)
  }

  /** All detections still pending, in the worker's order. */
  ghost function Drained(m: Memory, detect: Frame -> bool): Memory
    decreases m.inbox.Keys
  {
    if m.inbox == map[] then m
    else
      ProcessedShrinks(m, detect);
      Drained(Processed(m, detect), detect)
  }

  // ---- what a drain stores -----------------------------------------------------------

  /** The cameras in the order the worker serves them, going round from `last`. */
  ghost function Rounds(keys: set<u32>, last: u32): (order: seq<u32>)
    ensures forall c :: c in order <==> c in keys
    decreases keys
  {
    if keys == {} then []
    else
      var c := NextCamera(keys, last);
      [c] + Rounds(keys - {c}, c)
  }

  /** Each camera is served once. */
  lemma {:induction false} RoundsOnce(keys: set<u32>, last: u32)
    ensures |Rounds(keys, last)| == |keys|
    decreases keys
  {
    hide NextCamera;
    if keys != {} {
      var c := NextCamera(keys, last);
      RoundsOnce(keys - {c}, c);
    }
  }

  /** The frames of these cameras in which something is found. */
  function Found(inbox: map<u32, Frame>, order: seq<u32>, detect: Frame -> bool): seq<Frame>
    requires forall c :: c in order ==> c in inbox
  {
    if order == [] then []
    else (if detect(inbox[order[0]]) then [inbox[order[0]]] else []) + Found(inbox, order[1..], detect)
  }

  /** Of `fs` those that still fit when they are offered one after the other. */
  function Fitting(held: nat, budget: nat, fs: seq<Frame>): seq<Frame>
    decreases |fs|
  {
    if fs == [] then []
    else if held + fs[0].bytes <= budget
    then [fs[0]] + Fitting(held + fs[0].bytes, budget, fs[1..])
    else Fitting(held, budget, fs[1..])
  }

  lemma {:induction false} FoundElsewhere(a: map<u32, Frame>, b: map<u32, Frame>, order: seq<u32>,
                                          detect: Frame -> bool)
    requires forall c :: c in order ==> c in a && c in b && a[c] == b[c]
    ensures Found(a, order, detect) == Found(b, order, detect)
  {
    if order != [] { FoundElsewhere(a, b, order[1..], detect); }
  }

  /** All that is found among the pending frames, in the worker's order. */
  ghost function Hits(m: Memory, detect: Frame -> bool): seq<Frame> {
    if m.cfg.save then Found(m.inbox, Rounds(m.inbox.Keys, m.lastDetected), detect) else []
  }

  /** A detector's memory whose next frames can be counted. */
  predicate Detectable(m: Memory) {
    && m.cfg.mode.IsDetector() && m.pending == []
    && 0 < m.budget && m.backlog <= m.budget && m.budget + m.cfg.maxFrame < SIZE_MODULUS
    && forall c :: c in m.inbox ==> m.inbox[c].bytes <= m.cfg.maxFrame
  }

  /** One turn of the worker. */
  lemma ProcessedStores(m: Memory, detect: Frame -> bool)
    requires Detectable(m) && m.inbox != map[]
    ensures var c := NextCamera(m.inbox.Keys, m.lastDetected);
            var n, f := Processed(m, detect), m.inbox[c];
            var hit := detect(f) && m.cfg.save;
            var fits := m.backlog + f.bytes <= m.budget;
            && Detectable(n) && n.cfg == m.cfg && n.budget == m.budget
            && n.inbox == m.inbox - {c} && n.lastDetected == c
            && n.queue == m.queue + (if hit && fits then [f] else [])
            && n.dropped == m.dropped + (if hit && !fits then 1 else 0)
            && n.backlog == m.backlog + (if hit && fits then f.bytes else 0)
  {
    hide NextCamera;
    assert m.queue + [] == m.queue;
  }

  /** A drain stores, in the worker's order, exactly the frames with a detection that
      still fit, and counts every other one of them as dropped. */
  lemma {:induction false} DrainedStores(m: Memory, detect: Frame -> bool)
    requires Detectable(m)
    ensures var n, hits := Drained(m, detect), Hits(m, detect);
            var kept := Fitting(m.backlog, m.budget, hits);
            && n.inbox == map[] && n.pending == [] && n.queue == m.queue + kept
            && n.dropped + |kept| == m.dropped + |hits|
    decreases m.inbox.Keys
  {
    hide NextCamera, Processed, Detectable;
    if m.inbox != map[] {
      var c := NextCamera(m.inbox.Keys, m.lastDetected);
      var n := Processed(m, detect);
      ProcessedStores(m, detect);
      ProcessedShrinks(m, detect);
      DrainedStores(n, detect);
      HitsNext(m, n, detect);
      assert Drained(m, detect) == Drained(n, detect);
      hide Drained, Hits, Fitting;
      FittingNext(m.queue, m.backlog, m.budget,
                  if detect(m.inbox[c]) && m.cfg.save then [m.inbox[c]] else [], Hits(n, detect));
    } else {
      NothingPending(m, detect);
    }
  }

  lemma NothingPending(m: Memory, detect: Frame -> bool)
    requires m.inbox == map[] && Detectable(m)
    ensures Drained(m, detect) == m && Hits(m, detect) == [] && Fitting(m.backlog, m.budget, []) == []
    ensures m.queue + [] == m.queue && m.pending == []
  {
    assert m.inbox.Keys == {};
  }

  lemma HitsNext(m: Memory, n: Memory, detect: Frame -> bool)
    requires m.inbox != map[] && n.cfg == m.cfg
    requires n.lastDetected == NextCamera(m.inbox.Keys, m.lastDetected)
    requires n.inbox == m.inbox - {n.lastDetected}
    ensures var f := m.inbox[n.lastDetected];
            Hits(m, detect) == (if detect(f) && m.cfg.save then [f] else []) + Hits(n, detect)
  {
    hide NextCamera;
    var c := n.lastDetected;
    assert n.inbox.Keys == m.inbox.Keys - {c};
    var order := Rounds(m.inbox.Keys, m.lastDetected);
    assert order == [c] + Rounds(n.inbox.Keys, c);
    assert order[1..] == Rounds(n.inbox.Keys, c);
    FoundElsewhere(m.inbox, n.inbox, order[1..], detect);
  }

  /** One more hit in front of the others. */
  lemma FittingNext(queue: seq<Frame>, held: nat, budget: nat, hit: seq<Frame>, rest: seq<Frame>)
    requires |hit| <= 1
    ensures var fits := hit != [] && held + hit[0].bytes <= budget;
            var later := Fitting(if fits then held + hit[0].bytes else held, budget, rest);
            && queue + Fitting(held, budget, hit + rest) == queue + (if fits then hit else []) + later
            && |Fitting(held, budget, hit + rest)| == |later| + (if fits then 1 else 0)
  {
    if hit == [] { assert hit + rest == rest; } else { assert (hit + rest)[1..] == rest; }
  }

  /** What the end of the detection worker leaves; `runs` says whether there is one. */
  ghost function AfterDetector(m: Memory, detect: Frame -> bool, runs: bool): Memory {
    var n := m.(stopDetection := true);
    (if runs then Drained(n, detect) else n).ClearSlots()
  }

  ghost function Detected(m: Memory, detect: Frame -> bool, runs: bool): Memory {
    if m.cfg.mode.IsDetector() then AfterDetector(m, detect, runs) else m
  }

  /** What the end of the writer pool leaves; `runs` says whether it has a writer. */
  function AfterWriters(m: Memory, runs: bool): Memory {
    if runs then m.FlushBatch().(queue := [], backlog := 0) else m.FlushBatch()
  }

  /** The frames waiting for the writers when the detection worker is through. */
  ghost function ToWrite(m: Memory, detect: Frame -> bool, runs: bool): seq<Frame> {
    var n := Detected(m, detect, runs);
    n.queue + n.pending
  }

  /** Everything the writers still have to write when `stop` is called: the write queue,
      the partial batch, and what the worker still finds and can keep. */
  lemma ToWriteIs(m: Memory, detect: Frame -> bool, runs: bool)
    requires runs ==> Detectable(m)
    ensures ToWrite(m, detect, runs) ==
            m.queue + m.pending + (if runs then Fitting(m.backlog, m.budget, Hits(m, detect)) else [])
    ensures m.cfg.mode.IsDetector() ==> Detected(m, detect, runs).slots == map[]
    ensures !m.cfg.mode.IsDetector() ==> Detected(m, detect, runs) == m
  {
    assert m.queue + m.pending + [] == m.queue + m.pending;
    if runs {
      var n := m.(stopDetection := true);
      DrainedStores(n, detect);
      hide Drained, Fitting;
      assert m.queue + [] == m.queue;
      assert Hits(n, detect) == Hits(m, detect);
    }
  }

  /** What `stop` leaves of `m`: with writers nothing is queued and no byte held;
      without any, everything to be written stays queued and counted. Retained
      frames stay for the flush. */
  ghost function Finished(m: Memory, detect: Frame -> bool, detector: bool, writers: bool): Memory {
    var n := Detected(m, detect, detector);
    if n.cfg.Pooled() then AfterWriters(n, writers) else n
  }

  /** Nothing a detector session pended or published is left behind its stop. */
  lemma FinishedSlots(m: Memory, detect: Frame -> bool, detector: bool, writers: bool)
    ensures var n := Finished(m, detect, detector, writers);
            && n.slots == (if m.cfg.mode.IsDetector() then map[] else m.slots)
            && (m.cfg.mode.IsDetector() && detector ==> n.inbox == map[])
  {
    DetectorKeepsConfig(m, detect, detector);
    if detector { DrainEmpties(m.(stopDetection := true), detect); }
    hide Drained;
  }

  lemma FlushThenWork(m: Memory, runs: bool)
    ensures AfterWriters(m, runs) ==
            if runs then m.FlushBatch().(queue := [], backlog := 0) else m.FlushBatch()
    ensures var n := m.FlushBatch(); n.cfg == m.cfg && n.queue == m.queue + m.pending && n.pending == []
  {
  }

  lemma SessionFields(m: Memory, c: Config, b: nat)
    ensures var n := m.StartSession(c, b);
            && n.enabled && n.cfg == c && n.budget == b && n.backlog == 0 && n.dropped == 0
            && n.buffered == (if c.mode.Buffer? then [] else m.buffered)
            && n.pending == (if c.Pooled() then [] else m.pending) && n.queue == m.queue
            && !n.stopThreads && !n.stopDetection && n.inbox == map[] && n.lastDetected == LAST_CAMERA
            && n.slots == map[] && n.slotCounter == m.slotCounter
  {
  }

  lemma AcknowledgedAs(m: Triggers.TriggerMem, f: Frame)
    requires m.mode.Trigger?
    ensures var h := m.Handle(f.camera, f.frameId).1;
            Completed(m, true, f) == if h.Taken? && h.finished.Some? then [h.finished.value] else []
  {
    hide Triggers.TriggerMem.Handle;
  }

  lemma FinishedQueues(m: Memory, detect: Frame -> bool, detector: bool, writers: bool)
    requires m.cfg.Pooled()
    ensures var n := Finished(m, detect, detector, writers);
            && n.pending == [] && n.queue == (if writers then [] else ToWrite(m, detect, detector))
            && (writers ==> n.backlog == 0)
  {
    DetectorKeepsConfig(m, detect, detector);
    hide AfterDetector;
  }

  lemma DetectorKeepsConfig(m: Memory, detect: Frame -> bool, runs: bool)
    ensures Detected(m, detect, runs).cfg == m.cfg
  {
    if runs { DrainKeepsConfig(m.(stopDetection := true), detect); }
  }

  lemma {:induction false} DrainKeepsConfig(m: Memory, detect: Frame -> bool)
    ensures Drained(m, detect).cfg == m.cfg
    decreases m.inbox.Keys
  {
    hide Processed;
    if m.inbox != map[] {
      ProcessedShrinks(m, detect);
      ProcessedKeepsConfig(m, detect);
      DrainKeepsConfig(Processed(m, detect), detect);
    }
  }

  lemma {:induction false} DrainEmpties(m: Memory, detect: Frame -> bool)
    ensures Drained(m, detect).inbox == map[]
    decreases m.inbox.Keys
  {
    hide Processed;
    if m.inbox != map[] {
      ProcessedShrinks(m, detect);
      DrainEmpties(Processed(m, detect), detect);
    }
  }

  lemma ProcessedKeepsConfig(m: Memory, detect: Frame -> bool)
    requires m.inbox != map[]
    ensures Processed(m, detect).cfg == m.cfg
  {
    hide Memory.Fits, AddSize, NextCamera, Memory.Accept, Reserving;
    var (n, f) := m.TakeInbox();
    StoredKeepsConfig(n, f);
    hide WithStored;
  }

  lemma StoredKeepsConfig(m: Memory, f: Frame)
    ensures WithStored(m, f).cfg == m.cfg && WithStored(m, f).inbox == m.inbox
  {
    hide Memory.Fits, AddSize, Memory.Accept;
    var n := Reserving(m, f.bytes).0;
    assert n.cfg == m.cfg && n.inbox == m.inbox;
  }

  lemma ProcessedShrinks(m: Memory, detect: Frame -> bool)
    requires m.inbox != map[]
    ensures Processed(m, detect).inbox.Keys < m.inbox.Keys
  {
    var (n, f) := m.TakeInbox();
    StoredKeepsConfig(n, f);
    hide WithStored, NextCamera;
    var c := NextCamera(m.inbox.Keys, m.lastDetected);
    assert c in m.inbox && (m.inbox - {c}).Keys == m.inbox.Keys - {c};
  }

  lemma FlushBatchKeeps(m: Memory)
    ensures Kept(m.FlushBatch()) == Kept(m)
  {
    BytesConcat(m.queue, m.pending);
    assert Bytes([]) == 0;
  }

  /** The acknowledgement a frame sets off. */
  function Completed(m: Triggers.TriggerMem, enabled: bool, f: Frame): seq<Triggers.TriggerResult> {
    if !enabled || !m.mode.Trigger? then []
    else
      match m.Handle(f.camera, f.frameId).1
      case Taken(_, Some(r)) => [r]
      case _ => []
  }
}
