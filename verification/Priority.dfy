/** What the commander may expect of an observer session that yields to it, and when
    a frame gets through (src/stream_manager.cpp:472-480, 558-622,
    src/stream_priority.hpp:45-50). */
module Priority {
  import opened Types
  import opened Wire
  import opened FrameSending

  /** A commander that consumes payload shows a sign of congestion: backpressure now,
      backpressure within the last second, or more than 512 KiB not sent yet. */
  predicate Stressed(s: Snapshot) {
    && s.hasSink && s.streamingPayload
    && (s.inBackpressure || s.sinceBackpressure < 1000 || s.bufferedBytes > 524_288)
  }

  // ---- one wait -------------------------------------------------------------------------

  /** Poll `j` saw the commander stressed and did not give up. */
  predicate Waiting(p: Polls, deadline: nat, j: nat) {
    Stressed(p.snapshot(j)) && !p.stopped(j) && p.now(j) < deadline
  }

  ghost predicate Pending(p: Polls, deadline: nat, i: nat, n: nat) {
    forall j: nat :: i <= j < n ==> Waiting(p, deadline, j)
  }

  /** What poll `j` leaves in the log. */
  function Look(p: Polls, j: nat): Event { Checked(p.snapshot(j), !Stressed(p.snapshot(j)), p.now(j)) }

  /** The checks are what the polls see, up to the first that decides; the wait
      succeeds exactly if that one saw no stress. */
  lemma {:induction false} WaitsUntil(p: Polls, i: nat, deadline: nat) returns (n: nat)
    requires p.Ticking()
    ensures i <= n && Pending(p, deadline, i, n) && !Waiting(p, deadline, n)
    ensures Waits(p, i, deadline).1 <==> !Stressed(p.snapshot(n))
    ensures var checks := Waits(p, i, deadline).0;
            && |checks| == n + 1 - i
            && forall j :: 0 <= j < |checks| ==> checks[j] == Look(p, i + j)
    decreases Remaining(p, i, deadline)
  {
    if Waiting(p, deadline, i) {
      assert p.now(i + 1) >= p.now(i) + POLL_PERIOD;
      n := WaitsUntil(p, i + 1, deadline);
      var checks, rest := Waits(p, i, deadline).0, Waits(p, i + 1, deadline).0;
      assert checks == [Look(p, i)] + rest;
      hide Look, Waits, Stressed;
      forall j | 0 <= j < |checks| ensures checks[j] == Look(p, i + j) {
        if j > 0 { assert rest[j - 1] == Look(p, i + 1 + (j - 1)); }
      }
    } else {
      n := i;
    }
  }

  // ---- the rule -------------------------------------------------------------------------

  /** The event is a look, made for chunk `k`, at a commander that is not stressed. */
  ghost predicate SawCalm(s: Setup, k: nat, e: Event) {
    e.Checked? && !Stressed(e.seen) && exists n: nat :: e == Look(s.around(k).polls, n)
  }

  /** Right in front of every data chunk stands such a look. */
  ghost predicate Guarded(s: Setup, es: seq<Event>) {
    forall j :: 0 <= j < |es| && es[j].DataSent? ==> j > 0 && SawCalm(s, es[j].index, es[j - 1])
  }

  /** The first look past the deadline at a stressed commander is the last thing that
      happens to the frame, and the frame has failed. */
  ghost predicate GivesUp(es: seq<Event>, ok: bool, deadline: nat) {
    forall j :: 0 <= j < |es| && es[j].Checked? && Stressed(es[j].seen) && es[j].at >= deadline ==>
      j == |es| - 1 && !ok
  }

  /** A look at a stressed commander lets no chunk through. */
  ghost predicate Holds(es: seq<Event>) {
    forall j :: 0 <= j < |es| - 1 && es[j].Checked? && Stressed(es[j].seen) ==> !es[j + 1].DataSent?
  }

  lemma WaitEnds(s: Setup, k: nat, deadline: nat)
    requires s.Ticking() && s.around(k).polls.Ticking()
    ensures var (checks, ok) := Waits(s.around(k).polls, 0, deadline);
            && checks != [] && (forall j :: 0 <= j < |checks| ==> checks[j].Checked?)
            && (ok ==> SawCalm(s, k, checks[|checks| - 1]))
            && GivesUp(checks, ok, deadline)
  {
    var p := s.around(k).polls;
    var n := WaitsUntil(p, 0, deadline);
    hide Waits, Stressed;
    var checks := Waits(p, 0, deadline).0;
    assert checks[|checks| - 1] == Look(p, n);
    forall j | 0 <= j < |checks| && Stressed(checks[j].seen) && checks[j].at >= deadline
      ensures j == |checks| - 1
    {
      var i: nat := j;
      assert checks[j] == Look(p, i);
      assert !Waiting(p, deadline, i);
    }
  }

  lemma BeforeEnds(s: Setup, k: nat, deadline: nat)
    requires s.Ticking() && s.yielding
    ensures var (checks, go) := Before(s, k, deadline);
            && (forall j :: 0 <= j < |checks| ==> checks[j].Checked?)
            && (go ==> checks != [] && SawCalm(s, k, checks[|checks| - 1]))
            && GivesUp(checks, go, deadline)
  {
    assert s.around(k).polls.Ticking();
    WaitEnds(s, k, deadline);
    hide Waits, SawCalm, Stressed;
  }

  lemma Joins(s: Setup, checks: seq<Event>, one: Event, rest: seq<Event>, ok: bool, deadline: nat)
    requires forall j :: 0 <= j < |checks| ==> checks[j].Checked?
    requires one.DataSent? && checks != [] && SawCalm(s, one.index, checks[|checks| - 1])
    requires GivesUp(checks, true, deadline) && GivesUp(rest, ok, deadline) && Guarded(s, rest)
    ensures Guarded(s, checks + [one] + rest) && GivesUp(checks + [one] + rest, ok, deadline)
  {
    hide SawCalm, Stressed;
    var es := checks + [one] + rest;
    forall j | 0 <= j < |es|
      ensures es[j].DataSent? ==> j > 0 && SawCalm(s, es[j].index, es[j - 1])
      ensures es[j].Checked? && Stressed(es[j].seen) && es[j].at >= deadline ==> j == |es| - 1 && !ok
    {
      if j > |checks| {
        assert es[j] == rest[j - |checks| - 1];
        if j > |checks| + 1 { assert es[j - 1] == rest[j - |checks| - 2]; }
      } else if j < |checks| {
        assert es[j] == checks[j];
      }
    }
  }

  lemma {:induction false} ChunksGuarded(s: Setup, t: Transfer, k: nat, deadline: nat)
    requires s.Ticking() && s.yielding && t.totalChunks == ChunkCount(|t.frame.data|)
    ensures var (es, ok) := SendFrom(s, t, k, deadline); Guarded(s, es) && GivesUp(es, ok, deadline)
    decreases t.totalChunks - k
  {
    BeforeEnds(s, k, deadline);
    hide Before, DataMessage, SawCalm, Stressed;
    if k < t.totalChunks {
      var (checks, go) := Before(s, k, deadline);
      if go && s.around(k).sends {
        ChunksGuarded(s, t, k + 1, deadline);
        var (rest, ok) := SendFrom(s, t, k + 1, deadline);
        Joins(s, checks, DataSent(k, DataMessage(t.uuid, t.frame.data, k)), rest, ok, deadline);
      }
    }
  }

  /** The observer's session hands no chunk to its socket unless its last look, made
      for this chunk, saw a commander without any sign of stress; five seconds after the
      frame was started the first look at a stressed one is the end of the frame. */
  lemma ObserverYields(s: Setup, t: Transfer, saved: u32, start: nat, accepted: bool)
    requires s.Ticking() && s.yielding && t.totalChunks == ChunkCount(|t.frame.data|)
    ensures var (es, ok) := SendFrame(s, t, saved, start, accepted);
            Guarded(s, es) && Holds(es) && GivesUp(es, ok, start + 5000)
  {
    ChunksGuarded(s, t, 0, start + PRIORITY_WAIT_LIMIT);
    hide SendFrom, StartMessage, Stressed;
    var (es, ok) := SendFrame(s, t, saved, start, accepted);
    if accepted {
      var rest := SendFrom(s, t, 0, start + PRIORITY_WAIT_LIMIT).0;
      hide SawCalm, ChunkCount;
      assert es == [HeaderSent(StartMessage(t, false, saved))] + rest;
      forall j | 1 <= j < |es| ensures es[j] == rest[j - 1] {}
      assert rest != [] ==> !rest[0].DataSent?;
    }
  }

  // ---- when a frame gets through ----------------------------------------------------------

  /** Backpressure has passed by the fiftieth look, with no stop while it lasted. */
  ghost predicate Passes(a: Around) {
    && !a.stillPressed
    && exists n: nat :: n <= 50 && PressedUntil(a, n)
  }

  ghost predicate PressedUntil(a: Around, n: nat) {
    && (forall i: nat :: i < n ==> a.pressure(i) && !a.stopsWaiting(i))
    && (n < 50 ==> !a.pressure(n))
  }

  /** Some look sees no stress before any gives up. */
  ghost predicate Calms(p: Polls, deadline: nat) {
    exists n: nat :: !Stressed(p.snapshot(n)) && Pending(p, deadline, 0, n)
  }

  /** Chunk `k` is let through and taken. */
  ghost predicate Lets(s: Setup, k: nat, deadline: nat) {
    var a := s.around(k);
    && !a.stopped && (s.driven ==> a.subscribed) && Passes(a) && a.drained
    && (s.yielding ==> Calms(a.polls, deadline)) && a.sends
  }

  lemma {:induction false} RelievedFrom(a: Around, i: nat)
    requires i <= 50 && forall j: nat :: j < i ==> a.pressure(j) && !a.stopsWaiting(j)
    ensures Relieved(a, i) <==> Passes(a)
    decreases 50 - i
  {
    if i < 50 && a.pressure(i) && !a.stopsWaiting(i) {
      RelievedFrom(a, i + 1);
    } else {
      if Relieved(a, i) { assert PressedUntil(a, i); }
      forall n: nat | n <= 50 && PressedUntil(a, n) ensures n == i {}
    }
  }

  lemma CalmsExactly(p: Polls, deadline: nat)
    requires p.Ticking()
    ensures Waits(p, 0, deadline).1 <==> Calms(p, deadline)
  {
    var n := WaitsUntil(p, 0, deadline);
    hide Waits, Stressed;
    if Calms(p, deadline) {
      var m: nat :| !Stressed(p.snapshot(m)) && Pending(p, deadline, 0, m);
      assert m < n ==> Waiting(p, deadline, m);
    }
  }

  lemma LetsExactly(s: Setup, k: nat, deadline: nat)
    requires s.Ticking()
    ensures Lets(s, k, deadline) <==> Before(s, k, deadline).1 && s.around(k).sends
  {
    var a := s.around(k);
    assert a.polls.Ticking();
    RelievedFrom(a, 0);
    CalmsExactly(a.polls, deadline);
    hide Relieved, Waits, Passes, Calms;
  }

  lemma SendsFirst(s: Setup, t: Transfer, k: nat, deadline: nat)
    requires s.Ticking() && t.totalChunks == ChunkCount(|t.frame.data|)
    ensures SendFrom(s, t, k, deadline).1 <==>
              k < t.totalChunks ==>
                Before(s, k, deadline).1 && s.around(k).sends && SendFrom(s, t, k + 1, deadline).1
  {
    hide Before, DataMessage, ChunkCount;
  }

  lemma {:induction false} ChunksSentExactly(s: Setup, t: Transfer, k: nat, deadline: nat)
    requires s.Ticking() && t.totalChunks == ChunkCount(|t.frame.data|)
    ensures SendFrom(s, t, k, deadline).1 <==> forall j :: k <= j < t.totalChunks ==> Lets(s, j, deadline)
    decreases t.totalChunks - k
  {
    hide Before, Lets, SendFrom, ChunkCount;
    SendsFirst(s, t, k, deadline);
    LetsExactly(s, k, deadline);
    if k < t.totalChunks { ChunksSentExactly(s, t, k + 1, deadline); }
  }

  /** A frame is sent whole if and only if the sink takes its header and for each chunk:
      the session is not stopped, still subscribed if its loop drives the send, free of
      backpressure by the fiftieth look, its buffer drained, a look at the commander
      sees no stress in time if it yields, and the sink takes the chunk. */
  lemma SentExactly(s: Setup, t: Transfer, saved: u32, start: nat, accepted: bool)
    requires s.Ticking() && t.totalChunks == ChunkCount(|t.frame.data|)
    ensures var deadline := start + 5000;
            SendFrame(s, t, saved, start, accepted).1 <==>
              accepted && forall k :: 0 <= k < t.totalChunks ==> Lets(s, k, deadline)
  {
    ChunksSentExactly(s, t, 0, start + PRIORITY_WAIT_LIMIT);
    hide SendFrom, Lets, StartMessage;
  }
}
