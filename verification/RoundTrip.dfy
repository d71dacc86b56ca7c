/** Printer against parser, message by message: what the client reads from a
    message of the server is what the server put into it. */
module RoundTrip {
  import opened Types
  import opened Packing
  import opened Wire
  import opened ChunkParsing

  // ---- the detection block ------------------------------------------------------------

  /** A set as the client shows it. */
  function Seen(s: CornerSet, kind: nat): ClientSet {
    ClientSet(s.setId, 1, s.corners, if kind == ARUCO then Some(s.markerId) else None)
  }

  function SeenAll(sets: seq<CornerSet>, kind: nat): (r: seq<ClientSet>)
    ensures |r| == |sets|
  {
    seq(|sets|, i requires 0 <= i < |sets| => Seen(sets[i], kind))
  }

  predicate CountsFit(sets: seq<CornerSet>) {
    forall i :: 0 <= i < |sets| ==> |sets[i].corners| < 0x1_0000
  }

  lemma CornerValues(c: Corner)
    ensures Values(CornerFields(c)) == [c.x, c.y] && Widths(CornerFields(c)) == [4, 4]
  {
    hide Kept;
    KeptU32(c.x);
    KeptU32(c.y);
  }

  lemma CornerParse(c: Corner, data: seq<byte>, pos: nat)
    requires pos + 8 <= |data| && data[pos..pos + 8] == Pack(CornerFields(c))
    ensures CornerAt(data, pos) == c
  {
    hide Unpack, Pack, Range, Values, Widths, CornerFields, Total;
    FieldSizes();
    CornerValues(c);
    UnpackPack(CornerFields(c), data, pos);
  }

  lemma LastCorner(cs: seq<Corner>, data: seq<byte>, pos: nat)
    requires cs != [] && pos + 8 * |cs| <= |data|
    ensures var n := |cs| - 1;
            && Corners(cs) == Corners(cs[..n]) + Pack(CornerFields(cs[n]))
            && CornersAt(data, pos, |cs|) == CornersAt(data, pos, n) + [CornerAt(data, pos + 8 * n)]
  {
    hide Pack, CornerFields, CornerAt;
  }

  lemma {:induction false} CornersParse(cs: seq<Corner>, data: seq<byte>, pos: nat)
    requires pos + 8 * |cs| <= |data| && data[pos..pos + 8 * |cs|] == Corners(cs)
    ensures CornersAt(data, pos, |cs|) == cs
  {
    if cs != [] {
      var n := |cs| - 1;
      LastCorner(cs, data, pos);
      hide *;
      CornersSize(cs[..n]);
      CornersSize(cs);
      Cut(data, pos, pos + 8 * |cs|, Corners(cs[..n]), Pack(CornerFields(cs[n])));
      CornerParse(cs[n], data, pos + 8 * n);
      CornersParse(cs[..n], data, pos);
      assert cs == cs[..n] + [cs[n]];
    }
  }

  lemma RecordValues(s: CornerSet, aruco: bool)
    requires |s.corners| < 0x1_0000
    ensures Values(RecordFields(s, aruco)) ==
            if aruco then [Pattern(s.markerId), s.setId, 1, |s.corners|]
            else [s.setId, 1, |s.corners|]
  {
    hide Kept;
    KeptByte(s.setId);
    KeptByte(1);
    KeptIs(|s.corners|);
    KeptU32(Pattern(s.markerId));
  }

  /** One record, wherever it stands in the block. */
  lemma RecordParse(s: CornerSet, kind: nat, data: seq<byte>, pos: nat, end: nat)
    requires |s.corners| < 0x1_0000
    requires var r := Record(s, kind == ARUCO);
             pos + |r| <= end <= |data| && data[pos..pos + |r|] == r
    ensures RecordAt(data, pos, end, kind) == Ok((Seen(s, kind), pos + |Record(s, kind == ARUCO)|))
  {
    hide Unpack, Pack, Corners, CornersAt, Values, RecordFields, Widths;
    var fs := RecordFields(s, kind == ARUCO);
    RecordSize(s, kind == ARUCO);
    CornersSize(s.corners);
    FieldSizes();
    Cut(data, pos, pos + |Record(s, kind == ARUCO)|, Pack(fs), Corners(s.corners));
    hide Record;
    UnpackPack(fs, data, pos);
    CornersParse(s.corners, data, pos + |Pack(fs)|);
    RecordValues(s, kind == ARUCO);
  }

  lemma {:induction false} BlockConcat(a: seq<CornerSet>, b: seq<CornerSet>, aruco: bool)
    ensures Block(a + b, aruco) == Block(a, aruco) + Block(b, aruco)
  {
    hide Record;
    if b == [] {
      assert a + b == a;
    } else {
      assert (a + b)[|a + b| - 1] == b[|b| - 1];
      assert (a + b)[..|a + b| - 1] == a + b[..|b| - 1];
      BlockConcat(a, b[..|b| - 1], aruco);
    }
  }

  lemma BlockHead(sets: seq<CornerSet>, aruco: bool)
    requires sets != []
    ensures Block(sets, aruco) == Record(sets[0], aruco) + Block(sets[1..], aruco)
  {
    hide Record;
    assert sets == [sets[0]] + sets[1..];
    assert Block([sets[0]], aruco) == [] + Record(sets[0], aruco);
    hide Block;
    BlockConcat([sets[0]], sets[1..], aruco);
  }

  lemma SeenHead(sets: seq<CornerSet>, kind: nat)
    ensures sets == [] ==> SeenAll(sets, kind) == []
    ensures sets != [] ==> SeenAll(sets, kind) == [Seen(sets[0], kind)] + SeenAll(sets[1..], kind)
  {
  }

  lemma {:induction false} BlockParse(sets: seq<CornerSet>, kind: nat, data: seq<byte>, pos: nat, end: nat)
    requires CountsFit(sets)
    requires pos + |Block(sets, kind == ARUCO)| == end <= |data|
    requires data[pos..end] == Block(sets, kind == ARUCO)
    ensures BlockAt(data, pos, end, |sets|, kind) == Ok(SeenAll(sets, kind))
  {
    SeenHead(sets, kind);
    hide Record, RecordAt, Seen, SeenAll;
    if sets != [] {
      BlockHead(sets, kind == ARUCO);
      hide Block;
      var first, rest := Record(sets[0], kind == ARUCO), Block(sets[1..], kind == ARUCO);
      Cut(data, pos, end, first, rest);
      RecordParse(sets[0], kind, data, pos, end);
      BlockParse(sets[1..], kind, data, pos + |first|, end);
    }
  }

  /** Whatever is parsed has counts that fit their fields. */
  lemma {:induction false} BlockBounds(data: seq<byte>, pos: nat, end: nat, count: nat, kind: nat)
    requires pos <= end <= |data|
    ensures var r := BlockAt(data, pos, end, count, kind);
            r.Ok? ==> |r.value| == count && forall i :: 0 <= i < count ==> |r.value[i].corners| < 0x1_0000
    decreases count
  {
    if count > 0 {
      FieldSizes();
      Ranges();
      var one := RecordAt(data, pos, end, kind);
      if one.Ok? {
        assert |one.value.0.corners| < 0x1_0000;
        hide RecordAt;
        BlockBounds(data, one.value.1, end, count - 1, kind);
      }
    }
  }

  // ---- the header message ---------------------------------------------------------------

  /** Every value of the header is within its field. */
  predicate Fits(t: Transfer, headerOnly: bool) {
    && |t.sets| < 0x1_0000 && CountsFit(t.sets)
    && |Block(t.sets, t.Aruco())| < 0x1_0000_0000
    && (!headerOnly ==> t.totalChunks < 0x1_0000_0000 && |t.frame.data| < 0x1_0000_0000)
  }

  /** The header the client should see. */
  function Header(t: Transfer, headerOnly: bool, saved: u32): Frame {
    var f := t.frame;
    Frame(t.uuid, f.frameId, f.camera,
          if headerOnly then 0 else t.totalChunks, if headerOnly then 0 else |f.data|,
          f.stride, f.width, f.height, f.format, saved, f.timestamp, f.duration,
          f.lens, f.afState, t.kind, f.fom, SeenAll(t.sets, t.kind), [])
  }

  lemma Thirds(m: seq<byte>, a: seq<byte>, b: seq<byte>, c: seq<byte>)
    requires m == a + b + c
    ensures |m| == |a| + |b| + |c|
    ensures m[..|a|] == a && m[|a|..|a| + |b|] == b && m[|a| + |b|..] == c
    ensures m[0..0 + |a|] == a && m[|a| + |b|..|m|] == c
  {
  }

  lemma StartLayout(t: Transfer, headerOnly: bool, saved: u32)
    ensures var m := StartMessage(t, headerOnly, saved);
            && |m| == PREFIX_SIZE + |Block(t.sets, t.Aruco())|
            && m[0..0 + START_SIZE] == m[..START_SIZE] == Pack(StartFields())
            && m[START_SIZE..PREFIX_SIZE] == Pack(HeaderFields(t, headerOnly, saved))
            && m[PREFIX_SIZE..|m|] == Block(t.sets, t.Aruco())
  {
    StartSize();
    HeaderSize(t, headerOnly, saved);
    HeaderTotal();
    hide Pack, HeaderFields, Block, StartFields, Total, Widths;
    var a, b, c := Pack(StartFields()), Pack(HeaderFields(t, headerOnly, saved)), Block(t.sets, t.Aruco());
    Thirds(StartMessage(t, headerOnly, saved), a, b, c);
    hide StartMessage;
  }

  lemma StartValues(t: Transfer, headerOnly: bool, saved: u32)
    ensures var m := StartMessage(t, headerOnly, saved);
            && |m| >= PREFIX_SIZE
            && StartAt(m) == [CHUN_MAGIC, VERSION]
            && HeaderAt(m) == Values(HeaderFields(t, headerOnly, saved))
  {
    hide Pack, HeaderFields, StartMessage, Block, Unpack, Widths, Total;
    var m := StartMessage(t, headerOnly, saved);
    StartLayout(t, headerOnly, saved);
    StartSize();
    HeaderSize(t, headerOnly, saved);
    HeaderTotal();
    UnpackPack(StartFields(), m, 0);
    UnpackPack(HeaderFields(t, headerOnly, saved), m, START_SIZE);
    MarkerValues();
    hide Values;
  }

  lemma MarkerValues()
    ensures Values(StartFields()) == [CHUN_MAGIC, VERSION]
  {
    Ranges();
    hide Range;
  }

  /** The fields that are as wide as their values come through unchanged; the
      four counts come through modulo their widths. */
  lemma HeaderValues(t: Transfer, headerOnly: bool, saved: u32, sets: seq<ClientSet>)
    ensures var v := Values(HeaderFields(t, headerOnly, saved));
            && v[13] == |t.sets| % 0x1_0000 && v[17] == t.kind
            && v[12] == |Block(t.sets, t.Aruco())| % 0x1_0000_0000
            && HeaderOf(v, sets) ==
               Header(t, headerOnly, saved).(
                 totalChunks := if headerOnly then 0 else t.totalChunks % 0x1_0000_0000,
                 totalSize := if headerOnly then 0 else |t.frame.data| % 0x1_0000_0000,
                 sets := sets)
  {
    hide Block, SeenAll, Kept, Low32;
    var f := t.frame;
    var fs := HeaderFields(t, headerOnly, saved);
    KeptU32(t.uuid);
    KeptU32(f.frameId);
    KeptU32(f.camera);
    KeptIs(t.totalChunks);
    KeptIs(|f.data|);
    KeptU32(0);
    KeptU32(f.stride);
    KeptU32(f.width);
    KeptU32(f.height);
    KeptU32(f.format);
    KeptU32(saved);
    KeptU64(f.timestamp);
    KeptU32(f.duration);
    KeptU32(Low32(|Block(t.sets, t.Aruco())|));
    Low32Is(|Block(t.sets, t.Aruco())|);
    KeptIs(|t.sets|);
    KeptU32(f.lens);
    KeptByte(f.afState);
    KeptByte(t.kind);
    KeptU32(Pattern(f.fom));
  }

  lemma Low32Is(n: nat)
    ensures Low32(n) == n % 0x1_0000_0000
  {
  }

  /** The header message comes through as it was meant if and only if every count
      is within its field. */
  lemma HeaderRoundTrip(t: Transfer, headerOnly: bool, saved: u32)
    ensures ParseStart(StartMessage(t, headerOnly, saved)) == Ok(Header(t, headerOnly, saved))
            <==> Fits(t, headerOnly)
  {
    if Fits(t, headerOnly) {
      FittingHeader(t, headerOnly, saved);
    } else {
      TruncatedHeader(t, headerOnly, saved);
    }
    hide StartMessage, ParseStart, Header;
  }

  lemma FittingHeader(t: Transfer, headerOnly: bool, saved: u32)
    requires Fits(t, headerOnly)
    ensures ParseStart(StartMessage(t, headerOnly, saved)) == Ok(Header(t, headerOnly, saved))
  {
    hide StartAt, HeaderAt, HeaderOf, Values, HeaderFields, BlockAt, SeenAll, StartMessage, Block;
    var m := StartMessage(t, headerOnly, saved);
    StartLayout(t, headerOnly, saved);
    StartValues(t, headerOnly, saved);
    BlockParse(t.sets, t.kind, m, PREFIX_SIZE, |m|);
    HeaderValues(t, headerOnly, saved, SeenAll(t.sets, t.kind));
  }

  lemma TruncatedHeader(t: Transfer, headerOnly: bool, saved: u32)
    requires !Fits(t, headerOnly)
    ensures ParseStart(StartMessage(t, headerOnly, saved)) != Ok(Header(t, headerOnly, saved))
  {
    hide StartAt, HeaderAt, HeaderOf, Values, HeaderFields, BlockAt, StartMessage, Block;
    var m := StartMessage(t, headerOnly, saved);
    StartLayout(t, headerOnly, saved);
    StartValues(t, headerOnly, saved);
    HeaderValues(t, headerOnly, saved, []);
    var r := BlockAt(m, PREFIX_SIZE, |m|, |t.sets| % 0x1_0000, t.kind);
    BlockBounds(m, PREFIX_SIZE, |m|, |t.sets| % 0x1_0000, t.kind);
    if r.Ok? { HeaderValues(t, headerOnly, saved, r.value); }
    if !CountsFit(t.sets) {
      var i :| 0 <= i < |t.sets| && |t.sets[i].corners| >= 0x1_0000;
      assert |SeenAll(t.sets, t.kind)[i].corners| >= 0x1_0000;
    }
  }

  // ---- the data messages ------------------------------------------------------------------

  lemma ChunkCountCeil(n: nat)
    ensures n <= ChunkCount(n) * CHUNK_SIZE < n + CHUNK_SIZE
    ensures ChunkCount(n) == 0 <==> n == 0
  {
  }

  /** Each chunk message comes through with its index and its slice of the payload. */
  lemma ChunkRoundTrip(uuid: u32, data: seq<byte>, k: nat)
    requires k < ChunkCount(|data|) && k < 0x1_0000_0000
    ensures ParseData(DataMessage(uuid, data, k)) == Ok(Chunk(uuid, k, Payload(data, k)))
  {
    var m, fs := DataMessage(uuid, data, k), DataFields(uuid, data, k);
    FieldSizes();
    DataValues(uuid, data, k);
    Halves(m, Pack(fs), Payload(data, k));
    hide Kept, Values, Widths, DataFields, Payload, Pack, Unpack, Total;
    UnpackPack(fs, m, 0);
  }

  lemma DataValues(uuid: u32, data: seq<byte>, k: nat)
    requires k < ChunkCount(|data|) && k < 0x1_0000_0000
    ensures var fs := DataFields(uuid, data, k);
            && Widths(fs) == DATA_WIDTHS && |Payload(data, k)| <= CHUNK_SIZE
            && Values(fs) == [CHNK_MAGIC, uuid, k, |Payload(data, k)|]
  {
    assert |Payload(data, k)| <= CHUNK_SIZE;
    hide Kept, Payload;
    KeptU32(CHNK_MAGIC);
    KeptU32(uuid);
    KeptU32(k);
    KeptU32(|Payload(data, k)|);
  }

  lemma Halves(m: seq<byte>, a: seq<byte>, b: seq<byte>)
    requires m == a + b
    ensures m[0..0 + |a|] == a && m[|a|..|a| + |b|] == b && m[|a|..] == b && |m| == |a| + |b|
  {
  }

  /** The payloads of the first `n` chunks, joined, are the start of the data. */
  lemma {:induction false} JoinedPayloads(chunks: map<nat, seq<byte>>, data: seq<byte>, n: nat)
    requires n <= ChunkCount(|data|)
    requires forall i :: 0 <= i < n ==> i in chunks && chunks[i] == Payload(data, i)
    ensures Joined(chunks, n) == data[..Min(n * CHUNK_SIZE, |data|)]
  {
    if n > 0 {
      JoinedPayloads(chunks, data, n - 1);
      assert data[..(n - 1) * CHUNK_SIZE] + Payload(data, n - 1) == data[..Min(n * CHUNK_SIZE, |data|)];
    }
  }

  // ---- dispatch ---------------------------------------------------------------------------

  lemma FirstFour(m: seq<byte>, magic: nat)
    requires magic < 0x1_0000_0000 && |m| >= 4 && m[..4] == LE(magic, 4)
    ensures FromLE(m[..4]) == magic
  {
    Truncates(magic, 4);
    Ranges();
  }

  lemma ReceivesStart(c: Client, t: Transfer, headerOnly: bool, saved: u32)
    ensures c.Receive(StartMessage(t, headerOnly, saved)) == c.OnStart(StartMessage(t, headerOnly, saved))
  {
    var m := StartMessage(t, headerOnly, saved);
    StartLayout(t, headerOnly, saved);
    assert m[..4] == m[..START_SIZE][..4];
    PackHead(StartFields());
    FirstFour(m, CHUN_MAGIC);
    hide StartMessage, ParseStart, LE, FromLE, Client.OnData;
  }

  lemma ReceivesData(c: Client, uuid: u32, data: seq<byte>, k: nat)
    requires k < ChunkCount(|data|) && k < 0x1_0000_0000
    ensures c.Receive(DataMessage(uuid, data, k)) == c.OnChunk(Chunk(uuid, k, Payload(data, k)))
  {
    var m, fs := DataMessage(uuid, data, k), DataFields(uuid, data, k);
    PackHead(fs);
    assert m[..4] == LE(CHNK_MAGIC, 4);
    FirstFour(m, CHNK_MAGIC);
    ChunkRoundTrip(uuid, data, k);
    hide DataMessage, ParseData, LE, FromLE, Client.OnStart, Client.OnChunk;
  }
}
