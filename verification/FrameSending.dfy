/** How a streaming session sends one frame (src/stream_manager.cpp:443-480,
    506-667, src/stream_priority.hpp:25-50).

    What the sending thread observes but does not control (the stop request, the
    subscription, backpressure, the commander's connection, the clock, the sink)
    is an argument: one `Around` for each chunk. Times are milliseconds. */
module FrameSending {
  import opened Types
  import opened Packing
  import opened Wire

  const SOFT_BUFFER_LIMIT: nat := 512 * 1024
  const BACKPRESSURE_HOLD: nat := 1000
  const PRIORITY_WAIT_LIMIT: nat := 5000
  const POLL_PERIOD: nat := 5
  const PRESSURE_POLLS: nat := 50

  /** `stream_priority::Snapshot`. */
  datatype Snapshot = Snapshot(
    hasSink: bool, streamingPayload: bool, bufferedBytes: nat, inBackpressure: bool,
    sinceBackpressure: nat)

  predicate IsClear(s: Snapshot) {
    if !s.hasSink || !s.streamingPayload then true
    else if s.inBackpressure then false
    else if s.bufferedBytes > SOFT_BUFFER_LIMIT then false
    else s.sinceBackpressure >= BACKPRESSURE_HOLD
  }

  /** What successive polls of the higher-priority connection see. */
  datatype Polls = Polls(snapshot: nat -> Snapshot, stopped: nat -> bool, now: nat -> nat)
  {
    /** Two polls are at least one sleep apart. */
    ghost predicate Ticking() { forall i: nat :: now(i + 1) >= now(i) + POLL_PERIOD }
  }

  datatype Around = Around(
    stopped: bool, subscribed: bool,
    pressure: nat -> bool, stopsWaiting: nat -> bool, stillPressed: bool,
    drained: bool, polls: Polls, sends: bool)

  /** Of a session: it yields to another one, and its loop is running. */
  datatype Setup = Setup(yielding: bool, driven: bool, around: nat -> Around)
  {
    ghost predicate Ticking() { forall k: nat :: around(k).polls.Ticking() }
  }

  datatype Event =
    | HeaderSent(message: seq<byte>)
    | Checked(seen: Snapshot, clear: bool, at: nat)
    | DataSent(index: nat, message: seq<byte>)

  // ---- one chunk ------------------------------------------------------------------------

  function Remaining(p: Polls, i: nat, deadline: nat): nat {
    if p.now(i) < deadline then deadline - p.now(i) else 0
  }

  /** `waitForPriorityClear`: the checks it makes from poll `i` on, and its verdict. */
  ghost function Waits(p: Polls, i: nat, deadline: nat): (seq<Event>, bool)
    requires p.Ticking()
    decreases Remaining(p, i, deadline)
  {
    var clear := IsClear(p.snapshot(i));
    var check := [Checked(p.snapshot(i), clear, p.now(i))];
    if clear then (check, true)
    else if p.stopped(i) || p.now(i) >= deadline then (check, false)
    else
      assert p.now(i + 1) >= p.now(i) + POLL_PERIOD;
      var (rest, ok) := Waits(p, i + 1, deadline);
      (check + rest, ok)
  }

  /** The wait for backpressure to pass, at most fifty looks. */
  function Relieved(a: Around, i: nat): bool
    requires i <= PRESSURE_POLLS
    decreases PRESSURE_POLLS - i
  {
    if i < PRESSURE_POLLS && a.pressure(i) then !a.stopsWaiting(i) && Relieved(a, i + 1)
    else !a.stillPressed
  }

  /** Everything in front of the send of one chunk. */
  ghost function Before(s: Setup, k: nat, deadline: nat): (seq<Event>, bool)
    requires s.Ticking()
  {
    var a := s.around(k);
    if a.stopped || (s.driven && !a.subscribed) || !Relieved(a, 0) || !a.drained then ([], false)
    else if s.yielding then
      assert a.polls.Ticking();
      Waits(a.polls, 0, deadline)
    else ([], true)
  }

  /** The chunk loop from chunk `k` on. */
  ghost function SendFrom(s: Setup, t: Transfer, k: nat, deadline: nat): (seq<Event>, bool)
    requires s.Ticking() && t.totalChunks == ChunkCount(|t.frame.data|)
    decreases t.totalChunks - k
  {
    if k >= t.totalChunks then ([], true)
    else
      var (checks, go) := Before(s, k, deadline);
      if !go || !s.around(k).sends then (checks, false)
      else
        var (rest, ok) := SendFrom(s, t, k + 1, deadline);
        (checks + [DataSent(k, DataMessage(t.uuid, t.frame.data, k))] + rest, ok)
  }

  /** `sendChunkedFrame`, started at `start`; `accepted` says whether the sink
      takes the header. */
  ghost function SendFrame(s: Setup, t: Transfer, saved: u32, start: nat, accepted: bool): (seq<Event>, bool)
    requires s.Ticking() && t.totalChunks == ChunkCount(|t.frame.data|)
  {
    if !accepted then ([], false)
    else
      var (rest, ok) := SendFrom(s, t, 0, start + PRIORITY_WAIT_LIMIT);
      ([HeaderSent(StartMessage(t, false, saved))] + rest, ok)
  }

  /** The messages among the events. */
  function Messages(es: seq<Event>): seq<seq<byte>> {
    if es == [] then []
    else (if es[0].Checked? then [] else [es[0].message]) + Messages(es[1..])
  }

  // ---- the sender -------------------------------------------------------------------------

  class StreamSession {
    var sent: seq<seq<byte>>
    var chunksSent: nat
    var transfer: Option<Transfer>
    var currentChunk: nat
    ghost var log: seq<Event>

    constructor ()
      ensures sent == [] && log == [] && transfer.None? && chunksSent == 0
    {
      sent, log, transfer, chunksSent, currentChunk := [], [], None, 0, 0;
    }

    /** The running 32-bit sum of the detection block's size. */
    method CornerBlockSize(sets: seq<CornerSet>, aruco: bool) returns (size: u32)
      ensures size == Low32(|Block(sets, aruco)|)
    {
      hide Block, Record;
      NoBlock(aruco);
      size := 0;
      var i := 0;
      while i < |sets|
        invariant i <= |sets| && size == Low32(|Block(sets[..i], aruco)|)
      {
        BlockGrows(sets, i, aruco);
        SumModulo(size, |Block(sets[..i], aruco)|, if aruco then 8 else 4, |sets[i].corners| * 8);
        hide Low32;
        size := Low32(size + (if aruco then 8 else 4));
        size := Low32(size + Low32(|sets[i].corners| * 8));
        i := i + 1;
      }
      assert sets[..i] == sets;
    }

    /** One record header and the corners behind it. */
    method PrintRecord(message: seq<byte>, s: CornerSet, aruco: bool) returns (r: seq<byte>)
      ensures r == message + Record(s, aruco)
    {
      hide Pack, RecordFields, CornerFields;
      ghost var header := Pack(RecordFields(s, aruco));
      r := message + Pack(RecordFields(s, aruco));
      var j := 0;
      while j < |s.corners|
        invariant j <= |s.corners| && r == message + (header + Corners(s.corners[..j]))
      {
        assert s.corners[..j + 1][..j] == s.corners[..j];
        r := r + Pack(CornerFields(s.corners[j]));
        j := j + 1;
      }
      assert s.corners[..j] == s.corners;
    }

    /** Print the header message and hand it to the sink. */
    method SendChunkHeader(t: Transfer, headerOnly: bool, saved: u32, accepted: bool) returns (ok: bool)
      modifies this`sent, this`log
      ensures ok == accepted
      ensures ok ==> sent == old(sent) + [StartMessage(t, headerOnly, saved)]
      ensures ok ==> log == old(log) + [HeaderSent(StartMessage(t, headerOnly, saved))]
      ensures !ok ==> sent == old(sent) && log == old(log)
    {
      hide Pack, FieldsWith, StartFields, Record;
      var size := CornerBlockSize(t.sets, t.Aruco());
      var message := Pack(StartFields());
      message := message + Pack(FieldsWith(t, headerOnly, saved, size));
      ghost var before := message;
      var i := 0;
      while i < |t.sets|
        invariant i <= |t.sets|
        invariant message == before + Block(t.sets[..i], t.Aruco())
        invariant sent == old(sent) && log == old(log)
      {
        message := PrintRecord(message, t.sets[i], t.Aruco());
        BlockExtends(t.sets, i, t.Aruco(), before);
        i := i + 1;
      }
      assert t.sets[..i] == t.sets;
      if accepted {
        sent := sent + [message];
        log := log + [HeaderSent(message)];
      }
      return accepted;
    }

    method SendChunkData(t: Transfer, k: nat, accepted: bool) returns (ok: bool)
      requires k < ChunkCount(|t.frame.data|)
      modifies this`sent, this`log
      ensures ok == accepted
      ensures ok ==> sent == old(sent) + [DataMessage(t.uuid, t.frame.data, k)]
      ensures ok ==> log == old(log) + [DataSent(k, DataMessage(t.uuid, t.frame.data, k))]
      ensures !ok ==> sent == old(sent) && log == old(log)
    {
      var data := t.frame.data;
      var offset := k * CHUNK_SIZE;
      var size := Min(CHUNK_SIZE, |data| - offset);
      assert data[offset..offset + size] == Payload(data, k);
      var message := Pack([Field(4, CHNK_MAGIC), Field(4, t.uuid), Field(4, k), Field(4, size)]);
      message := message + data[offset..offset + size];
      if accepted {
        sent := sent + [message];
        log := log + [DataSent(k, message)];
      }
      return accepted;
    }

    method WaitForPriorityClear(p: Polls, deadline: nat) returns (ok: bool)
      requires p.Ticking()
      modifies this`log
      ensures (log, ok) == (old(log) + Waits(p, 0, deadline).0, Waits(p, 0, deadline).1)
    {
      var i := 0;
      while !IsClear(p.snapshot(i))
        invariant Waits(p, 0, deadline).1 == Waits(p, i, deadline).1
        invariant old(log) + Waits(p, 0, deadline).0 == log + Waits(p, i, deadline).0
        decreases Remaining(p, i, deadline)
      {
        log := log + [Checked(p.snapshot(i), false, p.now(i))];
        if p.stopped(i) { return false; }
        if p.now(i) >= deadline { return false; }
        assert p.now(i + 1) >= p.now(i) + POLL_PERIOD;
        i := i + 1;
      }
      log := log + [Checked(p.snapshot(i), true, p.now(i))];
      return true;
    }

    method WaitForPressure(a: Around) returns (relieved: bool)
      ensures relieved == Relieved(a, 0)
    {
      var count := 0;
      while count < PRESSURE_POLLS && a.pressure(count)
        invariant count <= PRESSURE_POLLS && Relieved(a, 0) == Relieved(a, count)
      {
        count := count + 1;
        if a.stopsWaiting(count - 1) { return false; }
      }
      return !a.stillPressed;
    }

    /** The waits and tests in front of one chunk. */
    method PrepareChunk(s: Setup, k: nat, deadline: nat) returns (go: bool)
      requires s.Ticking()
      modifies this`log
      ensures (log, go) == (old(log) + Before(s, k, deadline).0, Before(s, k, deadline).1)
    {
      var a := s.around(k);
      assert log + [] == log;
      if a.stopped { return false; }
      if s.driven && !a.subscribed { return false; }
      var relieved := WaitForPressure(a);
      if !relieved { return false; }
      if !a.drained { return false; }
      if s.yielding {
        assert a.polls.Ticking();
        go := WaitForPriorityClear(a.polls, deadline);
        return go;
      }
      return true;
    }

    method CleanupTransfer()
      modifies this`transfer
      ensures transfer.None?
    {
      transfer := None;
    }

    /** The chunk loop of `sendChunkedFrame`. */
    method SendChunks(s: Setup, t: Transfer, deadline: nat) returns (ok: bool)
      requires s.Ticking() && t.totalChunks == ChunkCount(|t.frame.data|)
      modifies this`sent, this`log, this`currentChunk, this`chunksSent
      ensures var (es, done) := SendFrom(s, t, 0, deadline);
              && ok == done && log == old(log) + es && sent == old(sent) + Messages(es)
              && currentChunk == |Messages(es)| && chunksSent == old(chunksSent) + |Messages(es)|
    {
      hide DataMessage, Before, SendFrom, Messages;
      currentChunk := 0;
      var k := 0;
      while k < t.totalChunks
        invariant k <= t.totalChunks
        invariant old(log) + SendFrom(s, t, 0, deadline).0 == log + SendFrom(s, t, k, deadline).0
        invariant old(sent) + Messages(SendFrom(s, t, 0, deadline).0)
                  == sent + Messages(SendFrom(s, t, k, deadline).0)
        invariant SendFrom(s, t, 0, deadline).1 == SendFrom(s, t, k, deadline).1
        invariant currentChunk == k && chunksSent == old(chunksSent) + k && |sent| == |old(sent)| + k
      {
        OnlyChecks(s, k, deadline);
        SendStep(s, t, k, deadline, log, sent);
        var go := PrepareChunk(s, k, deadline);
        if !go { return false; }
        ok := SendChunkData(t, k, s.around(k).sends);
        if !ok { return false; }
        k := k + 1;
        currentChunk := k;
        chunksSent := chunksSent + 1;
      }
      SendStep(s, t, k, deadline, log, sent);
      return true;
    }

    method SendChunkedFrame(s: Setup, frame: FrameData, sets: seq<CornerSet>, kind: byte, uuid: u32,
                            saved: u32, start: nat, accepted: bool) returns (ok: bool)
      requires s.Ticking()
      modifies this
      ensures var t := Transfer(frame, sets, kind, uuid, ChunkCount(|frame.data|));
              var (es, done) := SendFrame(s, t, saved, start, accepted);
              && ok == done && log == old(log) + es && sent == old(sent) + Messages(es)
              && chunksSent == old(chunksSent) + |Messages(es)| - (if accepted then 1 else 0)
      ensures transfer.None?
    {
      hide StartMessage, SendFrom;
      var t := Transfer(frame, sets, kind, uuid, ChunkCount(|frame.data|));
      transfer := Some(t);
      ok := SendChunkHeader(t, false, saved, accepted);
      if !ok {
        assert log + [] == log && sent + [] == sent;
        CleanupTransfer();
        return false;
      }
      StartsWith(old(log), old(sent), HeaderSent(StartMessage(t, false, saved)),
                 SendFrom(s, t, 0, start + PRIORITY_WAIT_LIMIT).0);
      ok := SendChunks(s, t, start + PRIORITY_WAIT_LIMIT);
      CleanupTransfer();
    }

    method SendHeaderOnlyFrame(frame: FrameData, sets: seq<CornerSet>, kind: byte, uuid: u32,
                               saved: u32, accepted: bool) returns (ok: bool)
      modifies this`sent, this`log
      ensures ok == accepted
      ensures sent == old(sent) + (if ok then [StartMessage(Transfer(frame, sets, kind, uuid, 0), true, saved)]
                                   else [])
    {
      ok := SendChunkHeader(Transfer(frame, sets, kind, uuid, 0), true, saved, accepted);
    }
  }

  // ---- events ---------------------------------------------------------------------------

  lemma {:induction false} MessagesConcat(a: seq<Event>, b: seq<Event>)
    ensures Messages(a + b) == Messages(a) + Messages(b)
  {
    if a == [] {
      assert a + b == b;
    } else {
      assert (a + b)[1..] == a[1..] + b;
      MessagesConcat(a[1..], b);
    }
  }

  /** One turn of the chunk loop, seen from what was logged and sent before it. */
  lemma SendStep(s: Setup, t: Transfer, k: nat, deadline: nat, log: seq<Event>, sent: seq<seq<byte>>)
    requires s.Ticking() && t.totalChunks == ChunkCount(|t.frame.data|)
    ensures var (es, done) := SendFrom(s, t, k, deadline);
            if k >= t.totalChunks then
              done && log + es == log && sent + Messages(es) == sent
            else
              var (checks, go) := Before(s, k, deadline);
              if !go || !s.around(k).sends then
                !done && log + es == log + checks && sent + Messages(es) == sent
              else
                var (rest, ok) := SendFrom(s, t, k + 1, deadline);
                var m := DataMessage(t.uuid, t.frame.data, k);
                && done == ok
                && log + es == log + checks + [DataSent(k, m)] + rest
                && sent + Messages(es) == sent + [m] + Messages(rest)
  {
    OnlyChecks(s, k, deadline);
    hide Before, DataMessage;
    assert log + [] == log && sent + [] == sent;
    if k < t.totalChunks {
      Chunked(log, sent, Before(s, k, deadline).0, DataSent(k, DataMessage(t.uuid, t.frame.data, k)),
              SendFrom(s, t, k + 1, deadline).0);
    }
  }

  lemma StartsWith(log: seq<Event>, sent: seq<seq<byte>>, first: Event, rest: seq<Event>)
    requires !first.Checked?
    ensures log + ([first] + rest) == log + [first] + rest
    ensures sent + Messages([first] + rest) == sent + [first.message] + Messages(rest)
  {
  }

  /** The checks in front of a chunk, the chunk, and what follows it. */
  lemma Chunked(log: seq<Event>, sent: seq<seq<byte>>, checks: seq<Event>, one: Event, rest: seq<Event>)
    requires Messages(checks) == [] && !one.Checked?
    ensures log + (checks + [one] + rest) == log + checks + [one] + rest
    ensures sent + Messages(checks + [one] + rest) == sent + [one.message] + Messages(rest)
  {
    MessagesConcat(checks + [one], rest);
    MessagesConcat(checks, [one]);
    assert Messages([one]) == [one.message] + Messages([]);
  }

  lemma {:induction false} ChecksPrintNothing(checks: seq<Event>)
    requires forall i :: 0 <= i < |checks| ==> checks[i].Checked?
    ensures Messages(checks) == []
  {
    if checks != [] { ChecksPrintNothing(checks[1..]); }
  }

  lemma {:induction false} WaitsOnlyChecks(p: Polls, i: nat, deadline: nat)
    requires p.Ticking()
    ensures forall e :: e in Waits(p, i, deadline).0 ==> e.Checked?
    decreases Remaining(p, i, deadline)
  {
    if !IsClear(p.snapshot(i)) && !p.stopped(i) && p.now(i) < deadline {
      assert p.now(i + 1) >= p.now(i) + POLL_PERIOD;
      WaitsOnlyChecks(p, i + 1, deadline);
    }
  }

  lemma OnlyChecks(s: Setup, k: nat, deadline: nat)
    requires s.Ticking()
    ensures forall e :: e in Before(s, k, deadline).0 ==> e.Checked?
    ensures Messages(Before(s, k, deadline).0) == []
  {
    assert s.around(k).polls.Ticking();
    WaitsOnlyChecks(s.around(k).polls, 0, deadline);
    ChecksPrintNothing(Before(s, k, deadline).0);
  }

  // ---- sizes ------------------------------------------------------------------------------

  lemma BlockGrows(sets: seq<CornerSet>, i: nat, aruco: bool)
    requires i < |sets|
    ensures |Block(sets[..i + 1], aruco)| ==
            |Block(sets[..i], aruco)| + (if aruco then 8 else 4) + |sets[i].corners| * 8
  {
    RecordSize(sets[i], aruco);
    hide Record;
    assert sets[..i + 1][..i] == sets[..i];
  }

  lemma BlockExtends(sets: seq<CornerSet>, i: nat, aruco: bool, before: seq<byte>)
    requires i < |sets|
    ensures before + Block(sets[..i + 1], aruco) == before + Block(sets[..i], aruco) + Record(sets[i], aruco)
  {
    hide Record;
    assert sets[..i + 1][..i] == sets[..i];
  }

  lemma SumModulo(size: u32, x: nat, a: nat, b: nat)
    requires size == Low32(x)
    ensures Low32(Low32(size + a) + Low32(b)) == Low32(x + a + b)
  {
    hide Low32;
    Low32Adds(x, a);
    Low32Adds(x + a, Low32(b));
    Low32Adds(b, x + a);
  }

  lemma Low32Adds(x: nat, a: nat)
    ensures Low32(Low32(x) + a) == Low32(x + a)
  {
  }

  lemma NoBlock(aruco: bool)
    ensures |Block([], aruco)| == 0
  {
  }
}
