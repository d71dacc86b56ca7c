/** What the client ends up with, over whole runs of a session. */
module Delivery {
  import opened Types
  import opened Wire
  import opened ChunkParsing
  import opened RoundTrip
  import opened FrameSending

  /** One frame the session tries to send, and what it meets on the way. */
  datatype Attempt =
    | Chunked(setup: Setup, transfer: Transfer, saved: u32, start: nat, accepted: bool)
    | HeaderOnly(transfer: Transfer, saved: u32, accepted: bool)
  {
    ghost predicate Valid() {
      && Fits(transfer, HeaderOnly?)
      && (Chunked? ==> setup.Ticking() && transfer.totalChunks == ChunkCount(|transfer.frame.data|))
    }

    /** What reaches the sink. */
    ghost function Sent(): seq<seq<byte>>
      requires Valid()
    {
      if HeaderOnly? then if accepted then [StartMessage(transfer, true, saved)] else []
      else Messages(SendFrame(setup, transfer, saved, start, accepted).0)
    }

    /** What the sending method returns. */
    ghost predicate Succeeds()
      requires Valid()
    {
      if HeaderOnly? then accepted else SendFrame(setup, transfer, saved, start, accepted).1
    }

    function Delivered(): Frame {
      var h := Header(transfer, HeaderOnly?, saved);
      if HeaderOnly? then h else h.(data := transfer.frame.data)
    }
  }

  // ---- receiving in pieces ----------------------------------------------------------------

  lemma {:induction false} ReceiveConcat(c: Client, a: seq<seq<byte>>, b: seq<seq<byte>>)
    requires c.ReceiveAll(a).1.None?
    ensures c.ReceiveAll(a + b) == c.ReceiveAll(a).0.ReceiveAll(b)
    decreases |a|
  {
    hide Client.Receive;
    if a == [] {
      assert a + b == b;
    } else {
      assert (a + b)[1..] == a[1..] + b;
      ReceiveConcat(c.Receive(a[0]).0, a[1..], b);
    }
  }

  lemma ReceiveOne(c: Client, m: seq<byte>)
    ensures c.ReceiveAll([m]) == c.Receive(m)
  {
    hide Client.Receive;
    var (d, e) := c.Receive(m);
    assert [m][1..] == [];
    assert d.ReceiveAll([]) == (d, None);
  }

  // ---- the chunks of one frame --------------------------------------------------------------

  /** The client's table of a frame whose chunks in `got` have arrived. */
  ghost function Table(data: seq<byte>, got: set<nat>): (m: map<nat, seq<byte>>)
    requires forall k :: k in got ==> k < ChunkCount(|data|)
    ensures m.Keys == got
  {
    map k | k in got :: Payload(data, k)
  }

  function Upto(n: nat): (s: set<nat>)
    ensures |s| == n && forall k :: k in s <==> 0 <= k < n
  {
    if n == 0 then {} else Upto(n - 1) + {n - 1}
  }

  lemma UptoNext(k: nat, n: nat)
    ensures Upto(k) + {k} == Upto(k + 1)
    ensures Upto(k + 1) == Upto(n) <==> k + 1 == n
  {
    assert Upto(k + 1) == Upto(n) ==> |Upto(k + 1)| == |Upto(n)|;
  }

  lemma {:induction false} FullSet(got: set<nat>, n: nat)
    requires forall k :: k in got ==> k < n
    ensures |got| == n <==> got == Upto(n)
    ensures |got| <= n
    decreases n
  {
    if n > 0 {
      FullSet(got - {n - 1}, n - 1);
      assert got == Upto(n) ==> got - {n - 1} == Upto(n - 1);
      if |got| == n {
        assert n - 1 in got;
        assert got == got - {n - 1} + {n - 1};
      }
    }
  }

  lemma TableSize(data: seq<byte>, got: set<nat>)
    requires forall k :: k in got ==> k < ChunkCount(|data|)
    ensures |Table(data, got)| == |got|
  {
    var m := Table(data, got);
    assert |m| == |m.Keys|;
  }

  /** The client while the chunks in `got` of the frame `h` have arrived. */
  ghost function Holding(c: Client, h: Frame, data: seq<byte>, got: set<nat>): Client
    requires forall k :: k in got ==> k < ChunkCount(|data|)
  {
    c.(partials := c.partials[h.uuid := Partial(h, Table(data, got))])
  }

  /** One chunk of the frame: it completes the frame exactly if it was the only
      one missing. */
  lemma ChunkArrives(c: Client, h: Frame, data: seq<byte>, got: set<nat>, k: nat)
    requires h.totalChunks == ChunkCount(|data|) < 0x1_0000_0000 && h.uuid < 0x1_0000_0000
    requires k < h.totalChunks && forall j :: j in got ==> j < h.totalChunks
    ensures var r := Holding(c, h, data, got).Receive(DataMessage(h.uuid, data, k));
            if got + {k} == Upto(h.totalChunks)
            then r == (Client(c.partials - {h.uuid}, c.frames + [h.(data := data)]), None)
            else r == (Holding(c, h, data, got + {k}), None)
  {
    hide DataMessage, Payload, Joined, Client.Receive, Client.OnChunk, Holding, Table, Covers;
    ReceivesData(Holding(c, h, data, got), h.uuid, data, k);
    TableSize(data, got + {k});
    FullSet(got + {k}, h.totalChunks);
    hide Upto;
    TableGrows(data, got, k);
    if got + {k} == Upto(h.totalChunks) {
      TableJoined(data, h.totalChunks);
      LastChunk(c, h, data, got, k);
    } else {
      NotLastChunk(c, h, data, got, k);
    }
  }

  lemma NotLastChunk(c: Client, h: Frame, data: seq<byte>, got: set<nat>, k: nat)
    requires k < ChunkCount(|data|) && forall j :: j in got ==> j < ChunkCount(|data|)
    requires Table(data, got)[k := Payload(data, k)] == Table(data, got + {k})
    requires |Table(data, got + {k})| != h.totalChunks
    ensures Holding(c, h, data, got).OnChunk(Chunk(h.uuid, k, Payload(data, k))) ==
            (Holding(c, h, data, got + {k}), None)
  {
    hide Table, Payload, Joined, Covers;
    var q := Partial(h, Table(data, got + {k}));
    assert Holding(c, h, data, got).partials[h.uuid := q] == c.partials[h.uuid := q];
  }

  lemma TableGrows(data: seq<byte>, got: set<nat>, k: nat)
    requires k < ChunkCount(|data|) && forall j :: j in got ==> j < ChunkCount(|data|)
    ensures Table(data, got)[k := Payload(data, k)] == Table(data, got + {k})
  {
    hide Payload;
  }

  lemma TableJoined(data: seq<byte>, n: nat)
    requires n == ChunkCount(|data|)
    ensures Covers(Table(data, Upto(n)), n) && Joined(Table(data, Upto(n)), n) == data
  {
    JoinedPayloads(Table(data, Upto(n)), data, n);
    ChunkCountCeil(|data|);
    assert data[..|data|] == data;
  }

  lemma LastChunk(c: Client, h: Frame, data: seq<byte>, got: set<nat>, k: nat)
    requires h.totalChunks == ChunkCount(|data|)
    requires k < h.totalChunks && forall j :: j in got ==> j < h.totalChunks
    requires Table(data, got)[k := Payload(data, k)] == Table(data, got + {k})
    requires got + {k} == Upto(h.totalChunks) && |Table(data, got + {k})| == h.totalChunks
    requires Covers(Table(data, got + {k}), h.totalChunks)
    requires Joined(Table(data, got + {k}), h.totalChunks) == data
    ensures Holding(c, h, data, got).OnChunk(Chunk(h.uuid, k, Payload(data, k))) ==
            (Client(c.partials - {h.uuid}, c.frames + [h.(data := data)]), None)
  {
    hide Table, Payload, Joined, Upto, Covers;
    assert Holding(c, h, data, got).partials - {h.uuid} == c.partials - {h.uuid};
  }

  // ---- one attempt ----------------------------------------------------------------------------

  /** The messages of chunks `k` up to, not including, `n`. */
  ghost function DataRun(t: Transfer, k: nat, n: nat): seq<seq<byte>>
    requires k <= n <= ChunkCount(|t.frame.data|)
    decreases n - k
  {
    if k == n then [] else [DataMessage(t.uuid, t.frame.data, k)] + DataRun(t, k + 1, n)
  }

  /** The chunk loop sends an initial run of the chunks, all of them exactly if it
      returns true. */
  lemma {:induction false} SendsPrefix(s: Setup, t: Transfer, k: nat, deadline: nat) returns (n: nat)
    requires s.Ticking() && t.totalChunks == ChunkCount(|t.frame.data|) && k <= t.totalChunks
    ensures k <= n <= t.totalChunks
    ensures Messages(SendFrom(s, t, k, deadline).0) == DataRun(t, k, n)
    ensures SendFrom(s, t, k, deadline).1 <==> n == t.totalChunks
    decreases t.totalChunks - k
  {
    hide DataMessage, Before;
    SendStep(s, t, k, deadline, [], []);
    OnlyChecks(s, k, deadline);
    n := k;
    if k < t.totalChunks && Before(s, k, deadline).1 && s.around(k).sends {
      n := SendsPrefix(s, t, k + 1, deadline);
    }
    Trim(Messages(SendFrom(s, t, k, deadline).0));
    if n > k { Trim(Messages(SendFrom(s, t, k + 1, deadline).0)); }
  }

  lemma Trim(m: seq<seq<byte>>)
    ensures [] + m == m
  {
  }

  lemma {:induction false} RunArrives(c: Client, h: Frame, t: Transfer, k: nat, n: nat)
    requires h.totalChunks == ChunkCount(|t.frame.data|) < 0x1_0000_0000 && h.uuid == t.uuid
    requires k <= n <= h.totalChunks && k < h.totalChunks
    ensures Holding(c, h, t.frame.data, Upto(k)).ReceiveAll(DataRun(t, k, n)) ==
            if n == h.totalChunks
            then (Client(c.partials - {h.uuid}, c.frames + [h.(data := t.frame.data)]), None)
            else (Holding(c, h, t.frame.data, Upto(n)), None)
    decreases n - k
  {
    hide Client.Receive, DataMessage, Table, Holding, Upto, ChunkCount;
    if k < n {
      UptoNext(k, h.totalChunks);
      ChunkArrives(c, h, t.frame.data, Upto(k), k);
      if k + 1 < h.totalChunks { RunArrives(c, h, t, k + 1, n); }
    }
  }

  /** Whatever the client holds, and whatever the session meets: a frame whose
      send succeeds arrives whole and unmodified, one whose send fails does not
      arrive at all, and no message is rejected. */
  lemma AttemptArrives(c: Client, a: Attempt)
    requires a.Valid()
    ensures var (d, e) := c.ReceiveAll(a.Sent());
            e.None? && d.frames == c.frames + (if a.Succeeds() then [a.Delivered()] else [])
  {
    var t := a.transfer;
    assert c.ReceiveAll([]) == (c, None);
    if a.accepted {
      var m := StartMessage(t, a.HeaderOnly?, a.saved);
      ReceivesStart(c, t, a.HeaderOnly?, a.saved);
      HeaderRoundTrip(t, a.HeaderOnly?, a.saved);
      ReceiveOne(c, m);
      if a.Chunked? { ChunkedArrives(c, a); }
    }
  }

  /** The messages of an accepted attempt: the header, then an initial run of the
      chunks, all of them exactly if the send succeeds. */
  lemma SentRun(a: Attempt) returns (n: nat)
    requires a.Valid() && a.Chunked? && a.accepted
    ensures n <= a.transfer.totalChunks == ChunkCount(|a.transfer.frame.data|)
    ensures a.Sent() == [StartMessage(a.transfer, false, a.saved)] + DataRun(a.transfer, 0, n)
    ensures a.Succeeds() <==> n == a.transfer.totalChunks
  {
    hide StartMessage, DataRun;
    n := SendsPrefix(a.setup, a.transfer, 0, a.start + PRIORITY_WAIT_LIMIT);
    hide SendFrom, Messages;
    assert a.Sent() == [StartMessage(a.transfer, false, a.saved)] + DataRun(a.transfer, 0, n) by {
      HeaderFirst(StartMessage(a.transfer, false, a.saved), SendFrom(a.setup, a.transfer, 0, a.start + PRIORITY_WAIT_LIMIT).0);
    }
  }

  lemma HeaderFirst(m: seq<byte>, rest: seq<Event>)
    ensures Messages([HeaderSent(m)] + rest) == [m] + Messages(rest)
  {
    assert ([HeaderSent(m)] + rest)[1..] == rest;
  }

  /** The client after the header of a frame. */
  lemma AfterHeader(c: Client, t: Transfer, saved: u32)
    requires Fits(t, false)
    ensures var h := Header(t, false, saved);
            c.Receive(StartMessage(t, false, saved)) ==
            if t.totalChunks == 0 then (c.(frames := c.frames + [h]), None)
            else (Holding(c, h, t.frame.data, {}), None)
  {
    ReceivesStart(c, t, false, saved);
    HeaderRoundTrip(t, false, saved);
    assert Table(t.frame.data, {}) == map[];
    assert Header(t, false, saved).totalChunks == t.totalChunks;
    hide StartMessage, ParseStart, Table, Header, Fits;
  }

  lemma ChunkedArrives(c: Client, a: Attempt)
    requires a.Valid() && a.Chunked? && a.accepted
    ensures var (d, e) := c.ReceiveAll(a.Sent());
            e.None? && d.frames == c.frames + (if a.Succeeds() then [a.Delivered()] else [])
  {
    var t, data := a.transfer, a.transfer.frame.data;
    var m, h := StartMessage(t, false, a.saved), Header(t, false, a.saved);
    var n := SentRun(a);
    AfterHeader(c, t, a.saved);
    ReceiveOne(c, m);
    ChunkCountCeil(|data|);
    assert Upto(0) == {};
    hide Client.Receive, StartMessage, ParseStart, Holding, Upto, SendFrame, Messages;
    ReceiveConcat(c, [m], DataRun(t, 0, n));
    if t.totalChunks > 0 {
      RunArrives(c, h, t, 0, n);
    } else {
      assert data == [];
    }
  }

  // ---- a whole session ------------------------------------------------------------------------

  ghost predicate AllValid(attempts: seq<Attempt>) {
    forall i :: 0 <= i < |attempts| ==> attempts[i].Valid()
  }

  ghost function SentBy(attempts: seq<Attempt>): seq<seq<byte>>
    requires AllValid(attempts)
  {
    if attempts == [] then []
    else
      assert attempts[0].Valid();
      attempts[0].Sent() + SentBy(attempts[1..])
  }

  /** The frames whose sends succeeded, in order. */
  ghost function Successes(attempts: seq<Attempt>): seq<Frame>
    requires AllValid(attempts)
  {
    if attempts == [] then []
    else
      assert attempts[0].Valid();
      (if attempts[0].Succeeds() then [attempts[0].Delivered()] else []) + Successes(attempts[1..])
  }

  lemma Accumulates(c: Client, a: seq<seq<byte>>, b: seq<seq<byte>>, x: seq<Frame>, y: seq<Frame>)
    requires var (d, e) := c.ReceiveAll(a); e.None? && d.frames == c.frames + x
    requires var (d, e) := c.ReceiveAll(a).0.ReceiveAll(b); e.None? && d.frames == c.ReceiveAll(a).0.frames + y
    ensures var (d, e) := c.ReceiveAll(a + b); e.None? && d.frames == c.frames + (x + y)
  {
    hide Client.ReceiveAll;
    ReceiveConcat(c, a, b);
    assert c.frames + x + y == c.frames + (x + y);
  }

  /** Over any sequence of sends, each one completed, header-only, refused or
      abandoned after any number of chunks, the client delivers exactly the frames
      whose sends succeeded, in order and unmodified. Nothing is assumed of the
      random frame ids: they may all be equal. */
  lemma {:induction false} SessionDelivers(c: Client, attempts: seq<Attempt>)
    requires AllValid(attempts)
    ensures var (d, e) := c.ReceiveAll(SentBy(attempts));
            e.None? && d.frames == c.frames + Successes(attempts)
    decreases |attempts|
  {
    assert c.ReceiveAll([]) == (c, None);
    hide Client.ReceiveAll, Attempt.Sent, Attempt.Succeeds, Attempt.Delivered;
    if attempts == [] {
      assert c.frames + [] == c.frames;
    } else {
      assert attempts[0].Valid();
      hide Attempt.Valid;
      AttemptArrives(c, attempts[0]);
      var rest := attempts[1..];
      SessionDelivers(c.ReceiveAll(attempts[0].Sent()).0, rest);
      Accumulates(c, attempts[0].Sent(), SentBy(rest),
                  if attempts[0].Succeeds() then [attempts[0].Delivered()] else [], Successes(rest));
    }
  }

  // ---- any order ------------------------------------------------------------------------------

  /** A chunk message of the frame, or one of a frame the client does not know. */
  datatype Arrival = Own(k: nat) | Foreign(uuid: u32, data: seq<byte>, k: nat)

  ghost predicate Expected(c: Client, t: Transfer, a: Arrival) {
    match a
    case Own(k) => k < ChunkCount(|t.frame.data|)
    case Foreign(u, d, k) =>
      u != t.uuid && u !in c.partials && k < ChunkCount(|d|) && k < 0x1_0000_0000
  }

  function Printed(t: Transfer, a: Arrival): seq<byte>
    requires a.Own? ==> a.k < ChunkCount(|t.frame.data|)
    requires a.Foreign? ==> a.k < ChunkCount(|a.data|)
  {
    if a.Own? then DataMessage(t.uuid, t.frame.data, a.k) else DataMessage(a.uuid, a.data, a.k)
  }

  ghost predicate AllExpected(c: Client, t: Transfer, arrivals: seq<Arrival>) {
    forall i :: 0 <= i < |arrivals| ==> Expected(c, t, arrivals[i])
  }

  ghost function PrintedAll(c: Client, t: Transfer, arrivals: seq<Arrival>): seq<seq<byte>>
    requires AllExpected(c, t, arrivals)
  {
    if arrivals == [] then []
    else
      assert Expected(c, t, arrivals[0]);
      [Printed(t, arrivals[0])] + PrintedAll(c, t, arrivals[1..])
  }

  /** The chunks of the frame among the arrivals. */
  ghost function Indices(arrivals: seq<Arrival>): set<nat> {
    set i | 0 <= i < |arrivals| && arrivals[i].Own? :: arrivals[i].k
  }

  lemma IndicesHead(arrivals: seq<Arrival>)
    requires arrivals != []
    ensures Indices(arrivals) ==
            (if arrivals[0].Own? then {arrivals[0].k} else {}) + Indices(arrivals[1..])
  {
    var a, b := Indices(arrivals), (if arrivals[0].Own? then {arrivals[0].k} else {}) + Indices(arrivals[1..]);
    forall k | k in a ensures k in b {
      var i :| 0 <= i < |arrivals| && arrivals[i].Own? && arrivals[i].k == k;
      if i > 0 { assert arrivals[1..][i - 1].k == k; }
    }
    forall k | k in b ensures k in a {
      if k in Indices(arrivals[1..]) {
        var i :| 0 <= i < |arrivals[1..]| && arrivals[1..][i].Own? && arrivals[1..][i].k == k;
        assert arrivals[i + 1].k == k;
      }
    }
  }

  lemma {:induction false} StrayChunks(c: Client, t: Transfer, arrivals: seq<Arrival>)
    requires ChunkCount(|t.frame.data|) < 0x1_0000_0000
    requires AllExpected(c, t, arrivals) && t.uuid !in c.partials
    ensures c.ReceiveAll(PrintedAll(c, t, arrivals)) == (c, None)
    decreases |arrivals|
  {
    if arrivals != [] {
      var a := arrivals[0];
      assert Expected(c, t, a);
      if a.Own? { ReceivesData(c, t.uuid, t.frame.data, a.k); }
      else { ReceivesData(c, a.uuid, a.data, a.k); }
      hide DataMessage, Client.Receive, Payload;
      StrayChunks(c, t, arrivals[1..]);
    }
  }

  lemma ForeignArrives(c: Client, h: Frame, data: seq<byte>, got: set<nat>, t: Transfer, a: Arrival)
    requires forall k :: k in got ==> k < ChunkCount(|data|)
    requires a.Foreign? && Expected(c, t, a) && h.uuid == t.uuid
    ensures Holding(c, h, data, got).Receive(Printed(t, a)) == (Holding(c, h, data, got), None)
  {
    ReceivesData(Holding(c, h, data, got), a.uuid, a.data, a.k);
    hide DataMessage, Client.Receive, Payload;
  }

  lemma {:induction false} Collects(c: Client, h: Frame, t: Transfer, got: set<nat>, arrivals: seq<Arrival>)
    requires h.totalChunks == ChunkCount(|t.frame.data|) < 0x1_0000_0000 && h.uuid == t.uuid
    requires AllExpected(c, t, arrivals)
    requires (forall k :: k in got ==> k < h.totalChunks) && got != Upto(h.totalChunks)
    ensures var (d, e) := Holding(c, h, t.frame.data, got).ReceiveAll(PrintedAll(c, t, arrivals));
            && e.None?
            && d.frames == c.frames + (if got + Indices(arrivals) == Upto(h.totalChunks)
                                       then [h.(data := t.frame.data)] else [])
    decreases |arrivals|
  {
    hide DataMessage, Client.Receive, Payload, Table, Upto, ChunkCount;
    if arrivals == [] {
      assert Indices(arrivals) == {};
      assert got + {} == got;
    } else {
      assert Expected(c, t, arrivals[0]);
      IndicesHead(arrivals);
      hide Indices;
      if arrivals[0].Foreign? {
        ForeignArrives(c, h, t.frame.data, got, t, arrivals[0]);
        assert got + Indices(arrivals) == got + Indices(arrivals[1..]);
        Collects(c, h, t, got, arrivals[1..]);
      } else {
        CollectsOwn(c, h, t, got, arrivals);
      }
    }
  }

  lemma {:induction false} CollectsOwn(c: Client, h: Frame, t: Transfer, got: set<nat>, arrivals: seq<Arrival>)
    requires h.totalChunks == ChunkCount(|t.frame.data|) < 0x1_0000_0000 && h.uuid == t.uuid
    requires arrivals != [] && arrivals[0].Own? && AllExpected(c, t, arrivals)
    requires (forall k :: k in got ==> k < h.totalChunks) && got != Upto(h.totalChunks)
    ensures var (d, e) := Holding(c, h, t.frame.data, got).ReceiveAll(PrintedAll(c, t, arrivals));
            && e.None?
            && d.frames == c.frames + (if got + Indices(arrivals) == Upto(h.totalChunks)
                                       then [h.(data := t.frame.data)] else [])
    decreases |arrivals|, 0
  {
    var k := arrivals[0].k;
    assert Expected(c, t, arrivals[0]);
    RestExpected(c, t, arrivals);
    hide DataMessage, Client.Receive, Client.ReceiveAll, PrintedAll, AllExpected, Payload, Table, Upto,
         ChunkCount, Holding, Indices;
    IndicesHead(arrivals);
    ChunkArrives(c, h, t.frame.data, got, k);
    HeadArrives(Holding(c, h, t.frame.data, got), c, t, arrivals);
    OneMore(got, k, Indices(arrivals[1..]));
    if got + {k} == Upto(h.totalChunks) {
      AfterCompletion(c, h, t, arrivals);
      assert got + Indices(arrivals) == Upto(h.totalChunks);
    } else {
      Collects(c, h, t, got + {k}, arrivals[1..]);
    }
  }

  lemma RestExpected(c: Client, t: Transfer, arrivals: seq<Arrival>)
    requires arrivals != [] && AllExpected(c, t, arrivals)
    ensures AllExpected(c, t, arrivals[1..])
  {
    hide Expected;
  }

  /** The first arrival is received first. */
  lemma HeadArrives(d: Client, c: Client, t: Transfer, arrivals: seq<Arrival>)
    requires arrivals != [] && AllExpected(c, t, arrivals)
    ensures Expected(c, t, arrivals[0]) && AllExpected(c, t, arrivals[1..])
    ensures d.ReceiveAll(PrintedAll(c, t, arrivals)) ==
            var (e, bad) := d.Receive(Printed(t, arrivals[0]));
            if bad.Some? then (e, bad) else e.ReceiveAll(PrintedAll(c, t, arrivals[1..]))
  {
    assert Expected(c, t, arrivals[0]);
    RestExpected(c, t, arrivals);
    hide Client.Receive, Printed;
  }

  lemma OneMore(got: set<nat>, k: nat, more: set<nat>)
    ensures got + ({k} + more) == (got + {k}) + more
  {
  }

  lemma AfterCompletion(c: Client, h: Frame, t: Transfer, arrivals: seq<Arrival>)
    requires h.totalChunks == ChunkCount(|t.frame.data|) < 0x1_0000_0000 && h.uuid == t.uuid
    requires arrivals != [] && AllExpected(c, t, arrivals)
    ensures var d := Client(c.partials - {h.uuid}, c.frames + [h.(data := t.frame.data)]);
            && d.ReceiveAll(PrintedAll(c, t, arrivals[1..])) == (d, None)
            && Indices(arrivals[1..]) <= Upto(h.totalChunks)
  {
    var d := Client(c.partials - {h.uuid}, c.frames + [h.(data := t.frame.data)]);
    var rest := arrivals[1..];
    forall i | 0 <= i < |rest| ensures Expected(d, t, rest[i]) && Expected(c, t, rest[i]) {
      assert Expected(c, t, arrivals[i + 1]);
    }
    StrayChunks(d, t, rest);
    SamePrinted(c, d, t, rest);
  }

  lemma {:induction false} SamePrinted(c: Client, d: Client, t: Transfer, arrivals: seq<Arrival>)
    requires AllExpected(c, t, arrivals) && AllExpected(d, t, arrivals)
    ensures PrintedAll(c, t, arrivals) == PrintedAll(d, t, arrivals)
  {
    if arrivals != [] { SamePrinted(c, d, t, arrivals[1..]); }
  }

  /** After a frame's header its chunks may arrive in any order, repeatedly and
      mixed with chunks of frames the client does not know: the frame is delivered
      once, with the same bytes, exactly if every chunk has arrived. */
  lemma AnyOrder(c: Client, t: Transfer, saved: u32, arrivals: seq<Arrival>)
    requires Fits(t, false) && t.totalChunks == ChunkCount(|t.frame.data|) && 0 < t.totalChunks
    requires AllExpected(c, t, arrivals)
    ensures var msgs := [StartMessage(t, false, saved)] + PrintedAll(c, t, arrivals);
            var (d, e) := c.ReceiveAll(msgs);
            && e.None?
            && d.frames == c.frames + (if Indices(arrivals) == Upto(t.totalChunks)
                                       then [Header(t, false, saved).(data := t.frame.data)] else [])
  {
    var m, h := StartMessage(t, false, saved), Header(t, false, saved);
    AfterHeader(c, t, saved);
    ReceiveOne(c, m);
    hide Client.Receive, StartMessage, ParseStart, Holding;
    ReceiveConcat(c, [m], PrintedAll(c, t, arrivals));
    assert |Upto(t.totalChunks)| > 0;
    Collects(c, h, t, {}, arrivals);
    assert {} + Indices(arrivals) == Indices(arrivals);
  }
}
