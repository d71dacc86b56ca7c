/** Exactly which binary messages the reference client takes, and what each does to its
    tables (tests/e2e/client.py:289-424): the converse of module RoundTrip. */
module ClientAcceptance {
  import opened Types
  import opened Packing
  import opened Wire
  import opened ChunkParsing
  import opened RoundTrip

  // ---- corners --------------------------------------------------------------------------

  lemma CornerPrinted(data: seq<byte>, pos: nat)
    requires pos + 8 <= |data|
    ensures Pack(CornerFields(CornerAt(data, pos))) == data[pos..pos + 8]
  {
    FieldSizes();
    Ranges();
    var xy := Unpack([4, 4], data, pos);
    PackUnpacked([4, 4], data, pos);
    assert Zipped([4, 4], xy) == CornerFields(CornerAt(data, pos));
    hide Unpack, Pack, Total, Range;
  }

  lemma {:induction false} CornersPrinted(data: seq<byte>, pos: nat, n: nat)
    requires pos + 8 * n <= |data|
    ensures Corners(CornersAt(data, pos, n)) == data[pos..pos + 8 * n]
  {
    if n > 0 {
      var cs := CornersAt(data, pos, n);
      LastCorner(cs, data, pos);
      assert cs[..n - 1] == CornersAt(data, pos, n - 1);
      hide *;
      CornersPrinted(data, pos, n - 1);
      CornerPrinted(data, pos + 8 * (n - 1));
      Rejoin(data, pos, pos + 8 * (n - 1), pos + 8 * n);
    }
  }

  // ---- records ----------------------------------------------------------------------------

  lemma SignedPattern(n: u32)
    ensures -0x8000_0000 <= Signed(n) < 0x8000_0000 && Pattern(Signed(n)) == n
  {
  }

  lemma PatternSigned(i: i32)
    ensures Signed(Pattern(i)) == i
  {
  }

  /** The set fits the fields of a record of this kind. */
  predicate Sendable(s: ClientSet, kind: nat) {
    && s.setId < 0x100 && s.flags < 0x100 && |s.corners| < 0x1_0000
    && (if kind == ARUCO
        then s.markerId.Some? && -0x8000_0000 <= s.markerId.value < 0x8000_0000
        else s.markerId.None?)
  }

  function HeadWidths(kind: nat): seq<nat> { if kind == ARUCO then [4, 1, 1, 2] else [1, 1, 2] }

  function HeadValues(s: ClientSet, kind: nat): (v: seq<nat>)
    requires Sendable(s, kind)
    ensures |v| == |HeadWidths(kind)|
  {
    if kind == ARUCO then [Pattern(s.markerId.value), s.setId, s.flags, |s.corners|]
    else [s.setId, s.flags, |s.corners|]
  }

  /** The bytes of one record. */
  function Printed(s: ClientSet, kind: nat): seq<byte>
    requires Sendable(s, kind)
  {
    Pack(Zipped(HeadWidths(kind), HeadValues(s, kind))) + Corners(s.corners)
  }

  lemma HeadSize(kind: nat)
    ensures Total(HeadWidths(kind)) == if kind == ARUCO then 8 else 4
  {
    FieldSizes();
  }

  lemma PrintedSize(s: ClientSet, kind: nat)
    requires Sendable(s, kind)
    ensures |Printed(s, kind)| == (if kind == ARUCO then 8 else 4) + 8 * |s.corners|
  {
    HeadSize(kind);
    CornersSize(s.corners);
    hide Pack, Corners, Total;
  }

  lemma PrintedIs(s: ClientSet, kind: nat)
    requires Sendable(s, kind)
    ensures Printed(s, kind) == Pack(Zipped(HeadWidths(kind), HeadValues(s, kind))) + Corners(s.corners)
  {
  }

  lemma HeadInRange(s: ClientSet, kind: nat)
    requires Sendable(s, kind)
    ensures InRange(HeadWidths(kind), HeadValues(s, kind))
  {
    Ranges();
    hide Range;
  }

  /** The fixed part that was read. */
  lemma HeadRead(data: seq<byte>, pos: nat, end: nat, kind: nat)
    requires pos <= end <= |data| && RecordAt(data, pos, end, kind).Ok?
    ensures var (s, next) := RecordAt(data, pos, end, kind).value;
            var head := if kind == ARUCO then 8 else 4;
            && pos + head <= |data| && Sendable(s, kind)
            && pos + head == pos + Total(HeadWidths(kind))
            && HeadValues(s, kind) == Unpack(HeadWidths(kind), data, pos)
            && next == pos + head + 8 * |s.corners| <= end
            && s.corners == CornersAt(data, pos + head, |s.corners|)
  {
    FieldSizes();
    Ranges();
    HeadSize(kind);
    hide Total, Range, Pattern, Signed, CornersAt;
    var v := Unpack(HeadWidths(kind), data, pos);
    hide Unpack;
    if kind == ARUCO { SignedPattern(v[0]); }
  }

  /** The bytes of both parts. */
  lemma PartsPrinted(data: seq<byte>, pos: nat, head: nat, kind: nat, s: ClientSet)
    requires Sendable(s, kind) && head == Total(HeadWidths(kind)) && pos + head + 8 * |s.corners| <= |data|
    requires HeadValues(s, kind) == Unpack(HeadWidths(kind), data, pos)
    requires s.corners == CornersAt(data, pos + head, |s.corners|)
    ensures data[pos..pos + head] == Pack(Zipped(HeadWidths(kind), HeadValues(s, kind)))
    ensures data[pos + head..pos + head + 8 * |s.corners|] == Corners(s.corners)
  {
    hide *;
    PackUnpacked(HeadWidths(kind), data, pos);
    CornersPrinted(data, pos + head, |s.corners|);
  }

  /** What is read as a record was printed as that record. */
  lemma RecordPrinted(data: seq<byte>, pos: nat, end: nat, kind: nat)
    requires pos <= end <= |data| && RecordAt(data, pos, end, kind).Ok?
    ensures var (s, next) := RecordAt(data, pos, end, kind).value;
            && Sendable(s, kind) && next == pos + |Printed(s, kind)| <= end
            && data[pos..next] == Printed(s, kind)
  {
    hide *;
    HeadRead(data, pos, end, kind);
    var (s, next) := RecordAt(data, pos, end, kind).value;
    var head := if kind == ARUCO then 8 else 4;
    PartsPrinted(data, pos, head, kind, s);
    PrintedSize(s, kind);
    PrintedIs(s, kind);
    Rejoin(data, pos, pos + head, next);
  }

  /** What was printed as a record is read as that record. */
  lemma PrintedRead(data: seq<byte>, pos: nat, end: nat, kind: nat, s: ClientSet)
    requires Sendable(s, kind) && pos + |Printed(s, kind)| <= end <= |data|
    requires data[pos..pos + |Printed(s, kind)|] == Printed(s, kind)
    ensures RecordAt(data, pos, end, kind) == Ok((s, pos + |Printed(s, kind)|))
  {
    hide Unpack, Pack, Corners, CornersAt, Range, Total;
    var h := Pack(Zipped(HeadWidths(kind), HeadValues(s, kind)));
    HeadSize(kind);
    FieldSizes();
    PrintedSize(s, kind);
    HeadInRange(s, kind);
    CornersSize(s.corners);
    Cut(data, pos, pos + |Printed(s, kind)|, h, Corners(s.corners));
    UnpackExactly(HeadWidths(kind), data, pos, HeadValues(s, kind));
    CornersParse(s.corners, data, pos + |h|);
    if kind == ARUCO { PatternSigned(s.markerId.value); }
    hide Printed, Pattern, Signed;
  }

  // ---- the block --------------------------------------------------------------------------

  predicate AllSendable(sets: seq<ClientSet>, kind: nat) {
    forall i :: 0 <= i < |sets| ==> Sendable(sets[i], kind)
  }

  /** The records back to back. */
  function PrintedAll(sets: seq<ClientSet>, kind: nat): seq<byte>
    requires AllSendable(sets, kind)
  {
    if sets == [] then [] else Printed(sets[0], kind) + PrintedAll(sets[1..], kind)
  }

  lemma {:induction false} BlockPrinted(data: seq<byte>, pos: nat, end: nat, count: nat, kind: nat)
    requires pos <= end <= |data| && BlockAt(data, pos, end, count, kind).Ok?
    ensures var sets := BlockAt(data, pos, end, count, kind).value;
            |sets| == count && AllSendable(sets, kind) && data[pos..end] == PrintedAll(sets, kind)
    decreases count
  {
    hide RecordAt, Sendable, Printed;
    var sets := BlockAt(data, pos, end, count, kind).value;
    if count == 0 {
      assert data[pos..end] == [];
    } else {
      var (s, next) := RecordAt(data, pos, end, kind).value;
      RecordPrinted(data, pos, end, kind);
      BlockPrinted(data, next, end, count - 1, kind);
      assert sets[1..] == BlockAt(data, next, end, count - 1, kind).value;
      Rejoin(data, pos, next, end);
    }
  }

  lemma {:induction false} PrintedBlock(data: seq<byte>, pos: nat, end: nat, kind: nat, sets: seq<ClientSet>)
    requires AllSendable(sets, kind) && pos <= end <= |data| && data[pos..end] == PrintedAll(sets, kind)
    ensures BlockAt(data, pos, end, |sets|, kind) == Ok(sets)
    decreases |sets|
  {
    hide RecordAt, Sendable, Printed;
    if sets == [] {
      assert |data[pos..end]| == 0;
    } else {
      var first, rest := Printed(sets[0], kind), PrintedAll(sets[1..], kind);
      Cut(data, pos, end, first, rest);
      PrintedRead(data, pos, end, kind, sets[0]);
      PrintedBlock(data, pos + |first|, end, kind, sets[1..]);
      assert [sets[0]] + sets[1..] == sets;
    }
  }

  /** The block parser yields these sets if and only if the block consists of exactly their
      records, as many as announced, back to back and without a byte left over. */
  lemma BlockExactly(data: seq<byte>, pos: nat, end: nat, count: nat, kind: nat, sets: seq<ClientSet>)
    requires pos <= end <= |data|
    ensures BlockAt(data, pos, end, count, kind) == Ok(sets) <==>
              |sets| == count && AllSendable(sets, kind) && data[pos..end] == PrintedAll(sets, kind)
  {
    if BlockAt(data, pos, end, count, kind).Ok? { BlockPrinted(data, pos, end, count, kind); }
    if |sets| == count && AllSendable(sets, kind) && data[pos..end] == PrintedAll(sets, kind) {
      PrintedBlock(data, pos, end, kind, sets);
    }
    hide BlockAt, PrintedAll, Sendable;
  }

  // ---- header messages ------------------------------------------------------------------------

  /** `data` is the start marker, a header of the values `v` and the records of `f`'s sets,
      in the number, kind and size the header announces. */
  ghost predicate IsHeaderMessage(data: seq<byte>, v: seq<nat>, f: Frame) {
    && InRange(HEADER_WIDTHS, v) && AllSendable(f.sets, v[17])
    && v[12] == |PrintedAll(f.sets, v[17])| && v[13] == |f.sets| && f == HeaderOf(v, f.sets)
    && data == Pack(StartFields()) + Pack(Zipped(HEADER_WIDTHS, v)) + PrintedAll(f.sets, v[17])
  }

  /** The client takes a header message for the frame `f` if and only if it is one. */
  lemma HeaderExactly(data: seq<byte>, f: Frame)
    ensures ParseStart(data) == Ok(f) <==> exists v: seq<nat> :: IsHeaderMessage(data, v, f)
  {
    if ParseStart(data) == Ok(f) {
      HeaderPrinted(data, f);
    }
    forall v: seq<nat> | IsHeaderMessage(data, v, f) ensures ParseStart(data) == Ok(f) {
      PrintedHeader(data, v, f);
    }
    hide ParseStart, IsHeaderMessage;
  }

  lemma StartIs(data: seq<byte>)
    requires PREFIX_SIZE <= |data|
    ensures StartAt(data)[0] == CHUN_MAGIC && StartAt(data)[1] == VERSION <==>
              data[..START_SIZE] == Pack(StartFields())
  {
    StartSize();
    Ranges();
    assert Zipped(START_WIDTHS, [CHUN_MAGIC, VERSION]) == StartFields();
    assert data[0..0 + START_SIZE] == data[..START_SIZE];
    hide Unpack, Pack, Total, Range;
    UnpackExactly(START_WIDTHS, data, 0, [CHUN_MAGIC, VERSION]);
    var s := StartAt(data);
    assert s == [s[0], s[1]];
  }

  lemma HeaderIs(data: seq<byte>, v: seq<nat>)
    requires PREFIX_SIZE <= |data|
    ensures HeaderAt(data) == v <==>
              InRange(HEADER_WIDTHS, v) && data[START_SIZE..PREFIX_SIZE] == Pack(Zipped(HEADER_WIDTHS, v))
  {
    HeaderTotal();
    hide Unpack, Pack, Total, Range;
    UnpackExactly(HEADER_WIDTHS, data, START_SIZE, v);
  }

  lemma HeaderPrinted(data: seq<byte>, f: Frame)
    requires ParseStart(data) == Ok(f)
    ensures IsHeaderMessage(data, HeaderAt(data), f)
  {
    hide StartAt, HeaderAt, HeaderOf, BlockAt, PrintedAll, Sendable, InRange, Pack, Zipped;
    var v := HeaderAt(data);
    StartIs(data);
    HeaderIs(data, v);
    BlockPrinted(data, PREFIX_SIZE, |data|, v[13], v[17]);
    var sets := BlockAt(data, PREFIX_SIZE, |data|, v[13], v[17]).value;
    SetsOf(v, sets);
    InThree(data, START_SIZE, PREFIX_SIZE);
  }

  lemma PrintedHeader(data: seq<byte>, v: seq<nat>, f: Frame)
    requires IsHeaderMessage(data, v, f)
    ensures ParseStart(data) == Ok(f)
  {
    PrintedLayout(data, v, f);
    hide StartAt, HeaderAt, HeaderOf, BlockAt, PrintedAll, Sendable, Pack, Zipped, Total, Widths;
    StartIs(data);
    HeaderIs(data, v);
    PrintedBlock(data, PREFIX_SIZE, |data|, v[17], f.sets);
    hide InRange;
  }

  lemma PrintedLayout(data: seq<byte>, v: seq<nat>, f: Frame)
    requires IsHeaderMessage(data, v, f)
    ensures |data| == PREFIX_SIZE + v[12] && data[..START_SIZE] == Pack(StartFields())
    ensures data[START_SIZE..PREFIX_SIZE] == Pack(Zipped(HEADER_WIDTHS, v))
    ensures data[PREFIX_SIZE..|data|] == PrintedAll(f.sets, v[17])
  {
    StartSize();
    HeaderTotal();
    hide HeaderOf, PrintedAll, Sendable, Total, Widths, Pack, Zipped;
    Thirds(data, Pack(StartFields()), Pack(Zipped(HEADER_WIDTHS, v)), PrintedAll(f.sets, v[17]));
  }

  lemma SetsOf(v: seq<nat>, sets: seq<ClientSet>)
    requires |v| == 20
    ensures HeaderOf(v, sets).sets == sets
  {
  }

  lemma InThree(m: seq<byte>, i: nat, j: nat)
    requires i <= j <= |m|
    ensures m == m[..i] + m[i..j] + m[j..|m|]
  {
  }

  // ---- data messages --------------------------------------------------------------------------

  /** The bytes a data message starts with; whatever follows its payload is ignored. */
  function PrintedChunk(c: Chunk): seq<byte> {
    Pack(Zipped(DATA_WIDTHS, [CHNK_MAGIC, c.uuid, c.index, |c.payload|])) + c.payload
  }

  predicate ChunkFits(c: Chunk) {
    c.uuid < 0x1_0000_0000 && c.index < 0x1_0000_0000 && |c.payload| < 0x1_0000_0000
  }

  /** The client takes a data message for the chunk `c` if and only if it starts with
      that chunk's message. */
  lemma ChunkExactly(data: seq<byte>, c: Chunk)
    ensures ParseData(data) == Ok(c) <==> ChunkFits(c) && PrintedChunk(c) <= data
  {
    FieldSizes();
    if |data| >= DATA_PREFIX {
      var values := [CHNK_MAGIC, c.uuid, c.index, |c.payload|];
      FitsFields(c);
      UnpackExactly(DATA_WIDTHS, data, 0, values);
      hide Unpack, Pack, Zipped, Total, InRange, ChunkFits, ParseData;
      ParsedAs(data, c);
      Starts(data, DATA_PREFIX, Pack(Zipped(DATA_WIDTHS, values)), c.payload);
      assert PrintedChunk(c) == Pack(Zipped(DATA_WIDTHS, values)) + c.payload;
      assert ParseData(data) == Ok(c) <==> ChunkFits(c) && PrintedChunk(c) <= data;
    } else {
      hide Unpack, Pack, Zipped;
      assert |PrintedChunk(c)| >= 16;
    }
  }

  lemma FitsFields(c: Chunk)
    ensures ChunkFits(c) <==> InRange(DATA_WIDTHS, [CHNK_MAGIC, c.uuid, c.index, |c.payload|])
  {
    Ranges();
    var w, v := DATA_WIDTHS, [CHNK_MAGIC, c.uuid, c.index, |c.payload|];
    assert w == [4, 4, 4, 4] && v[0] == CHNK_MAGIC && v[1] == c.uuid && v[2] == c.index && v[3] == |c.payload|;
    hide Range;
  }

  lemma ParsedAs(data: seq<byte>, c: Chunk)
    requires |data| >= DATA_PREFIX && DATA_PREFIX == Total(DATA_WIDTHS)
    ensures ParseData(data) == Ok(c) <==>
              && Unpack(DATA_WIDTHS, data, 0) == [CHNK_MAGIC, c.uuid, c.index, |c.payload|]
              && DATA_PREFIX + |c.payload| <= |data|
              && data[DATA_PREFIX..DATA_PREFIX + |c.payload|] == c.payload
  {
    hide Unpack, Total, Range;
    var v := Unpack(DATA_WIDTHS, data, 0);
    assert v == [v[0], v[1], v[2], v[3]];
  }

  lemma Starts(data: seq<byte>, n: nat, head: seq<byte>, payload: seq<byte>)
    requires n <= |data| && |head| == n
    ensures head + payload <= data <==>
              data[0..0 + n] == head && n + |payload| <= |data| && data[n..n + |payload|] == payload
  {
    if head + payload <= data {
      assert data[..n] == (head + payload)[..n];
      assert data[n..n + |payload|] == (head + payload)[n..];
    }
    if n + |payload| <= |data| && data[0..0 + n] == head && data[n..n + |payload|] == payload {
      assert data[..n + |payload|] == head + payload;
    }
  }

  // ---- the tables ----------------------------------------------------------------------------------

  /** The numbers below `n`. */
  function Below(n: nat): (s: set<nat>)
    ensures |s| == n && forall i :: i in s <==> 0 <= i < n
  {
    if n == 0 then {} else Below(n - 1) + {n - 1}
  }

  lemma SameSize(a: set<nat>, b: set<nat>)
    requires a <= b && |a| == |b|
    ensures a == b
  {
    assert |b - a| == |b| - |a|;
    assert b == a + (b - a);
  }

  lemma CoversExactly(chunks: map<nat, seq<byte>>, n: nat)
    requires |chunks| == n
    ensures Covers(chunks, n) <==> chunks.Keys == Below(n)
  {
    if Covers(chunks, n) { SameSize(Below(n), chunks.Keys); }
    if chunks.Keys == Below(n) {
      forall i | 0 <= i < n ensures i in chunks { assert i in chunks.Keys; }
    }
  }

  /** A message is rejected if and only if it is neither a header nor a data message, or
      is the data message that fills a table with a gap. Only that one changes anything:
      its partial frame is gone. */
  lemma RejectedExactly(c: Client, data: seq<byte>)
    ensures var (d, e) := c.Receive(data);
            && (e.Some? <==> ParseStart(data).Err?
                             && (ParseData(data).Err? || FillsWithGap(c, ParseData(data).value)))
            && (e.Some? ==> d == if ParseData(data).Err? then c
                                 else c.(partials := c.partials - {ParseData(data).value.uuid}))
  {
    MagicsOf(data);
    if ParseData(data).Ok? { ChunkOutcome(c, ParseData(data).value); }
    hide ParseStart, ParseData, FillsWithGap, FromLE, Covers, Joined;
  }

  /** The chunk is as many as its frame announced, but not one of each. */
  predicate FillsWithGap(c: Client, k: Chunk) {
    && k.uuid in c.partials
    && var p := c.partials[k.uuid]; var q := p.chunks[k.index := k.payload];
       |q| == p.header.totalChunks && q.Keys != Below(|q|)
  }

  /** The chunk completes its frame. */
  predicate Completes(c: Client, k: Chunk) {
    && k.uuid in c.partials
    && var p := c.partials[k.uuid]; var q := p.chunks[k.index := k.payload];
       |q| == p.header.totalChunks && q.Keys == Below(|q|)
  }

  /** A chunk delivers a frame exactly when its table then holds each announced index once
      and nothing else; a chunk of an unknown frame does nothing. */
  lemma ChunkOutcome(c: Client, k: Chunk)
    ensures var (d, e) := c.OnChunk(k);
            && (e.Some? <==> FillsWithGap(c, k))
            && (k.uuid !in c.partials ==> d == c)
            && (k.uuid in c.partials && !FillsWithGap(c, k) && !Completes(c, k) ==>
                  var p := c.partials[k.uuid];
                  d == c.(partials := c.partials[k.uuid := p.(chunks := p.chunks[k.index := k.payload])]))
            && (FillsWithGap(c, k) ==> d == c.(partials := c.partials - {k.uuid}))
            && (Completes(c, k) ==>
                  var p := c.partials[k.uuid];
                  d == Client(c.partials - {k.uuid},
                              c.frames + [p.header.(data := InOrder(p.chunks[k.index := k.payload]))]))
  {
    if k.uuid in c.partials {
      var p := c.partials[k.uuid];
      var q := p.chunks[k.index := k.payload];
      if |q| == p.header.totalChunks {
        CoversExactly(q, |q|);
        if q.Keys == Below(|q|) { JoinedInOrder(q, |q|); }
      }
    }
    hide Joined, Below, Covers;
  }

  /** The chunks' bytes by ascending index. */
  function InOrder(chunks: map<nat, seq<byte>>): seq<byte>
    requires chunks.Keys == Below(|chunks|)
  {
    Flattened(seq(|chunks|, i requires 0 <= i < |chunks| => assert i in Below(|chunks|); chunks[i]))
  }

  function Flattened(parts: seq<seq<byte>>): seq<byte> {
    if parts == [] then [] else parts[0] + Flattened(parts[1..])
  }

  lemma {:induction false} FlattenedEnd(parts: seq<seq<byte>>, last: seq<byte>)
    ensures Flattened(parts + [last]) == Flattened(parts) + last
  {
    if parts == [] {
      assert [] + [last] == [last] && [last][1..] == [];
      assert Flattened([]) == [] && last + [] == last && [] + last == last;
    } else {
      FlattenedEnd(parts[1..], last);
      assert (parts + [last])[1..] == parts[1..] + [last];
      assert parts[0] + (Flattened(parts[1..]) + last) == (parts[0] + Flattened(parts[1..])) + last;
    }
  }

  lemma {:induction false} JoinedParts(chunks: map<nat, seq<byte>>, parts: seq<seq<byte>>)
    requires forall i :: 0 <= i < |parts| ==> i in chunks && chunks[i] == parts[i]
    ensures Joined(chunks, |parts|) == Flattened(parts)
  {
    if parts != [] {
      var n := |parts| - 1;
      JoinedParts(chunks, parts[..n]);
      assert parts == parts[..n] + [parts[n]];
      FlattenedEnd(parts[..n], parts[n]);
    }
  }

  lemma JoinedInOrder(chunks: map<nat, seq<byte>>, n: nat)
    requires n == |chunks| && chunks.Keys == Below(n) && Covers(chunks, n)
    ensures Joined(chunks, n) == InOrder(chunks)
  {
    JoinedParts(chunks, seq(n, i requires 0 <= i < n => assert i in Below(n); chunks[i]));
    hide Joined, Flattened;
    assert seq(n, i requires 0 <= i < n => assert i in Below(n); chunks[i])
        == seq(|chunks|, i requires 0 <= i < |chunks| => assert i in Below(|chunks|); chunks[i]);
  }

  /** The first four bytes tell the two kinds of message apart. */
  lemma MagicsOf(data: seq<byte>)
    ensures ParseStart(data).Ok? ==> |data| >= 4 && FromLE(data[..4]) == CHUN_MAGIC
    ensures ParseData(data).Ok? ==> |data| >= 4 && FromLE(data[..4]) == CHNK_MAGIC
  {
    FieldSizes();
    StartSize();
    if |data| >= PREFIX_SIZE {
      FirstRead(START_WIDTHS, data);
    }
    if |data| >= DATA_PREFIX {
      FirstRead(DATA_WIDTHS, data);
    }
    hide FromLE, BlockAt, Unpack, HeaderOf;
  }

  lemma FirstRead(widths: seq<nat>, data: seq<byte>)
    requires widths != [] && widths[0] == 4 && Total(widths) <= |data|
    ensures |data| >= 4 && Unpack(widths, data, 0)[0] == FromLE(data[..4])
  {
    assert data[0..0 + 4] == data[..4];
    UnpackHead(widths, data, 0);
    hide FromLE, Range;
  }

  /** A header message opens its frame's table anew, or delivers a frame without payload. */
  lemma HeaderOutcome(c: Client, data: seq<byte>, f: Frame)
    requires ParseStart(data) == Ok(f)
    ensures var (d, e) := c.Receive(data);
            && e.None?
            && d == if f.totalChunks == 0 then c.(frames := c.frames + [f])
                    else c.(partials := c.partials[f.uuid := Partial(f, map[])])
  {
    MagicsOf(data);
    hide ParseStart, ParseData, FromLE;
  }
}
