/** What the reference client makes of one binary message
    (tests/e2e/client.py:289-424). Python's integers are unbounded, so the parsed
    fields are plain numbers. An exception is an error result. */
module ChunkParsing {
  import opened Types
  import opened Packing
  import opened Wire

  datatype ProtocolError =
    | TooShort | UnknownMagic | UnsupportedVersion | WrongSize
    | RecordOverruns | CornersOverrun | TrailingBytes
    | ChunkTruncated | StructError | MissingChunk

  datatype ClientSet = ClientSet(
    setId: nat, flags: nat, corners: seq<Corner>, markerId: Option<int>)

  datatype Frame = Frame(
    uuid: nat, frameId: nat, camera: nat, totalChunks: nat, totalSize: nat, stride: nat,
    width: nat, height: nat, format: nat, saved: nat, timestamp: nat, duration: nat,
    lens: nat, afState: nat, kind: nat, fom: int, sets: seq<ClientSet>, data: seq<byte>)

  datatype Partial = Partial(header: Frame, chunks: map<nat, seq<byte>>)
  {
    predicate Complete() { |chunks| == header.totalChunks }
  }

  // ---- CHUN -------------------------------------------------------------------------

  function CornerAt(data: seq<byte>, pos: nat): Corner
    requires pos + 8 <= |data|
  {
    FieldSizes();
    Ranges();
    var xy := Unpack([4, 4], data, pos);
    Corner(xy[0], xy[1])
  }

  function CornersAt(data: seq<byte>, pos: nat, n: nat): (cs: seq<Corner>)
    requires pos + 8 * n <= |data|
    ensures |cs| == n
  {
    if n == 0 then []
    else
      CornersAt(data, pos, n - 1) + [CornerAt(data, pos + 8 * (n - 1))]
  }

  /** One record of the detection block and the position behind it. */
  function RecordAt(data: seq<byte>, pos: nat, end: nat, kind: nat): (r: Result<(ClientSet, nat), ProtocolError>)
    requires pos <= end <= |data|
    ensures r.Ok? ==> pos < r.value.1 <= end
  {
    FieldSizes();
    if kind == ARUCO then
      if pos + 8 > end then Err(RecordOverruns)
      else
        var v := Unpack([4, 1, 1, 2], data, pos);
        if pos + 8 + 8 * v[3] > end then Err(CornersOverrun)
        else Ok((ClientSet(v[1], v[2], CornersAt(data, pos + 8, v[3]), Some(Signed(v[0]))),
                 pos + 8 + 8 * v[3]))
    else
      if pos + 4 > end then Err(RecordOverruns)
      else
        var v := Unpack([1, 1, 2], data, pos);
        if pos + 4 + 8 * v[2] > end then Err(CornersOverrun)
        else Ok((ClientSet(v[0], v[1], CornersAt(data, pos + 4, v[2]), None), pos + 4 + 8 * v[2]))
  }

  /** `_parse_detection_block`: `count` records that fill the block exactly. */
  function BlockAt(data: seq<byte>, pos: nat, end: nat, count: nat, kind: nat)
    : (r: Result<seq<ClientSet>, ProtocolError>)
    requires pos <= end <= |data|
    decreases count
  {
    if count == 0 then
      if pos != end then Err(TrailingBytes) else Ok([])
    else
      match RecordAt(data, pos, end, kind)
      case Err(e) => Err(e)
      case Ok((one, next)) =>
        Behind([one], BlockAt(data, next, end, count - 1, kind))
  }

  /** The records already parsed, in front of the rest of the block. */
  function Behind(sets: seq<ClientSet>, r: Result<seq<ClientSet>, ProtocolError>)
    : Result<seq<ClientSet>, ProtocolError>
  {
    match r
    case Err(e) => Err(e)
    case Ok(rest) => Ok(sets + rest)
  }

  lemma Prepended(a: seq<ClientSet>, b: seq<ClientSet>, r: Result<seq<ClientSet>, ProtocolError>)
    ensures Behind(a, Behind(b, r)) == Behind(a + b, r)
    ensures Behind([], r) == r
  {
    if r.Ok? { assert a + (b + r.value) == (a + b) + r.value && [] + r.value == r.value; }
  }

  function HeaderOf(v: seq<nat>, sets: seq<ClientSet>): Frame
    requires |v| == 20
  {
    Frame(v[0], v[1], v[2], v[3], v[4], v[5], v[6], v[7], v[8], v[9], v[10], v[11],
          v[15], v[16], v[17], Signed(v[19]), sets, [])
  }

  /** `START_STRUCT.unpack_from(data, 0)`. */
  function StartAt(data: seq<byte>): (s: seq<nat>)
    requires PREFIX_SIZE <= |data|
    ensures |s| == 2
  {
    StartSize();
    Unpack(START_WIDTHS, data, 0)
  }

  /** `HEADER_STRUCT.unpack_from(data, START_STRUCT.size)`. */
  function HeaderAt(data: seq<byte>): (v: seq<nat>)
    requires PREFIX_SIZE <= |data|
    ensures |v| == 20
  {
    HeaderTotal();
    Unpack(HEADER_WIDTHS, data, START_SIZE)
  }

  /** The header a CHUN message carries. */
  function ParseStart(data: seq<byte>): Result<Frame, ProtocolError> {
    if |data| < PREFIX_SIZE then Err(TooShort)
    else
      var s := StartAt(data);
      if s[0] != CHUN_MAGIC then Err(UnknownMagic)
      else if s[1] != VERSION then Err(UnsupportedVersion)
      else
        var v := HeaderAt(data);
        if |data| != PREFIX_SIZE + v[12] then Err(WrongSize)
        else
          match BlockAt(data, PREFIX_SIZE, |data|, v[13], v[17])
          case Err(e) => Err(e)
          case Ok(sets) => Ok(HeaderOf(v, sets))
  }

  // ---- CHNK -------------------------------------------------------------------------

  datatype Chunk = Chunk(uuid: nat, index: nat, payload: seq<byte>)

  function ParseData(data: seq<byte>): Result<Chunk, ProtocolError> {
    FieldSizes();
    if |data| < DATA_PREFIX then Err(StructError)
    else
      var v := Unpack(DATA_WIDTHS, data, 0);
      if v[0] != CHNK_MAGIC then Err(UnknownMagic)
      else if |data| < DATA_PREFIX + v[3] then Err(ChunkTruncated)
      else Ok(Chunk(v[1], v[2], data[DATA_PREFIX..DATA_PREFIX + v[3]]))
  }

  // ---- the client's tables ----------------------------------------------------------

  /** `b"".join(chunks[i] for i in range(n))`. */
  function Joined(chunks: map<nat, seq<byte>>, n: nat): seq<byte>
    requires forall i :: 0 <= i < n ==> i in chunks
  {
    if n == 0 then [] else Joined(chunks, n - 1) + chunks[n - 1]
  }

  ghost predicate Covers(chunks: map<nat, seq<byte>>, n: nat) {
    forall i :: 0 <= i < n ==> i in chunks
  }

  datatype Client = Client(partials: map<nat, Partial>, frames: seq<Frame>)
  {
    ghost function OnStart(data: seq<byte>): (Client, Option<ProtocolError>) {
      match ParseStart(data)
      case Err(e) => (this, Some(e))
      case Ok(h) =>
        if h.totalChunks == 0
        then (this.(frames := frames + [h]), None)
        else (this.(partials := partials[h.uuid := Partial(h, map[])]), None)
    }

    ghost function OnChunk(c: Chunk): (Client, Option<ProtocolError>) {
      if c.uuid !in partials then (this, None)
      else
        var p := partials[c.uuid];
        var q := p.(chunks := p.chunks[c.index := c.payload]);
        if !q.Complete() then (this.(partials := partials[c.uuid := q]), None)
        else if !Covers(q.chunks, q.header.totalChunks)
        then (this.(partials := partials - {c.uuid}), Some(MissingChunk))
        else (Client(partials - {c.uuid},
                     frames + [q.header.(data := Joined(q.chunks, q.header.totalChunks))]), None)
    }

    ghost function OnData(data: seq<byte>): (Client, Option<ProtocolError>) {
      match ParseData(data)
      case Err(e) => (this, Some(e))
      case Ok(c) => OnChunk(c)
    }

    /** `_handle_binary`. */
    ghost function Receive(data: seq<byte>): (Client, Option<ProtocolError>) {
      if |data| < 4 then (this, Some(TooShort))
      else
        var magic := FromLE(data[..4]);
        if magic == CHUN_MAGIC then OnStart(data)
        else if magic == CHNK_MAGIC then OnData(data)
        else (this, Some(UnknownMagic))
    }

    /** A whole stream of messages, as long as none is rejected. */
    ghost function ReceiveAll(msgs: seq<seq<byte>>): (Client, Option<ProtocolError>)
      decreases |msgs|
    {
      if msgs == [] then (this, None)
      else
        var (c, e) := Receive(msgs[0]);
        if e.Some? then (c, e) else c.ReceiveAll(msgs[1..])
    }
  }

  /** The reader thread dies with the first exception; until then the client's
      tables are updated message by message. */
  class ChunkClient {
    var partials: map<nat, Partial>
    var frames: seq<Frame>

    ghost function State(): Client
      reads this
    {
      Client(partials, frames)
    }

    constructor ()
      ensures State() == Client(map[], [])
    {
      partials, frames := map[], [];
    }

    method ParseRecord(data: seq<byte>, pos: nat, end: nat, kind: nat)
      returns (r: Result<(ClientSet, nat), ProtocolError>)
      requires pos <= end <= |data|
      ensures r == RecordAt(data, pos, end, kind)
    {
      FieldSizes();
      hide Unpack, Total, CornersAt;
      var n, markerId, setId, flags, start;
      if kind == ARUCO {
        if pos + 8 > end { return Err(RecordOverruns); }
        var v := Unpack([4, 1, 1, 2], data, pos);
        start, markerId, setId, flags, n := pos + 8, Some(Signed(v[0])), v[1], v[2], v[3];
      } else {
        if pos + 4 > end { return Err(RecordOverruns); }
        var v := Unpack([1, 1, 2], data, pos);
        start, markerId, setId, flags, n := pos + 4, None, v[0], v[1], v[2];
      }
      if start + 8 * n > end { return Err(CornersOverrun); }
      var corners := ReadCorners(data, start, n);
      return Ok((ClientSet(setId, flags, corners, markerId), start + 8 * n));
    }

    /** The corners of one record. */
    method ReadCorners(data: seq<byte>, start: nat, n: nat) returns (corners: seq<Corner>)
      requires start + 8 * n <= |data|
      ensures corners == CornersAt(data, start, n)
    {
      hide CornerAt;
      corners := [];
      var j := 0;
      while j < n
        invariant j <= n && corners == CornersAt(data, start, j)
      {
        corners := corners + [CornerAt(data, start + 8 * j)];
        j := j + 1;
      }
    }

    method ParseDetectionBlock(data: seq<byte>, offset: nat, size: nat, count: nat, kind: nat)
      returns (r: Result<seq<ClientSet>, ProtocolError>)
      requires offset + size <= |data|
      ensures r == BlockAt(data, offset, offset + size, count, kind)
    {
      hide RecordAt;
      var end := offset + size;
      var sets: seq<ClientSet> := [];
      var pos, i := offset, 0;
      Prepended([], [], BlockAt(data, offset, end, count, kind));
      while i < count
        invariant i <= count && offset <= pos <= end
        invariant BlockAt(data, offset, end, count, kind) ==
                  Behind(sets, BlockAt(data, pos, end, count - i, kind))
      {
        var one := ParseRecord(data, pos, end, kind);
        if one.Err? { return Err(one.error); }
        Prepended(sets, [one.value.0], BlockAt(data, one.value.1, end, count - i - 1, kind));
        sets := sets + [one.value.0];
        pos := one.value.1;
        i := i + 1;
      }
      if pos != end { return Err(TrailingBytes); }
      assert sets + [] == sets;
      return Ok(sets);
    }

    method ParseHeader(data: seq<byte>) returns (r: Result<Frame, ProtocolError>)
      ensures r == ParseStart(data)
    {
      hide BlockAt, StartAt, HeaderAt, HeaderOf;
      if |data| < PREFIX_SIZE { return Err(TooShort); }
      var s := StartAt(data);
      if s[0] != CHUN_MAGIC { return Err(UnknownMagic); }
      if s[1] != VERSION { return Err(UnsupportedVersion); }
      var v := HeaderAt(data);
      if |data| != PREFIX_SIZE + v[12] { return Err(WrongSize); }
      var block := ParseDetectionBlock(data, PREFIX_SIZE, v[12], v[13], v[17]);
      if block.Err? { return Err(block.error); }
      return Ok(HeaderOf(v, block.value));
    }

    method HandleChunkStart(data: seq<byte>) returns (e: Option<ProtocolError>)
      modifies this
      ensures (State(), e) == old(State()).OnStart(data)
    {
      hide ParseStart;
      var header := ParseHeader(data);
      if header.Err? { return Some(header.error); }
      if header.value.totalChunks == 0 {
        frames := frames + [header.value];
      } else {
        partials := partials[header.value.uuid := Partial(header.value, map[])];
      }
      return None;
    }

    /** `_PartialFrame.assemble`. */
    method Assemble(p: Partial) returns (r: Result<Frame, ProtocolError>)
      ensures r == if Covers(p.chunks, p.header.totalChunks)
                   then Ok(p.header.(data := Joined(p.chunks, p.header.totalChunks)))
                   else Err(MissingChunk)
    {
      var joined: seq<byte> := [];
      var i := 0;
      while i < p.header.totalChunks
        invariant i <= p.header.totalChunks
        invariant Covers(p.chunks, i) && joined == Joined(p.chunks, i)
      {
        if i !in p.chunks { return Err(MissingChunk); }
        joined := joined + p.chunks[i];
        i := i + 1;
      }
      return Ok(p.header.(data := joined));
    }

    method HandleChunkData(data: seq<byte>) returns (e: Option<ProtocolError>)
      modifies this
      ensures (State(), e) == old(State()).OnData(data)
    {
      FieldSizes();
      if |data| < DATA_PREFIX { return Some(StructError); }
      var v := Unpack(DATA_WIDTHS, data, 0);
      if v[0] != CHNK_MAGIC { return Some(UnknownMagic); }
      var payload := data[DATA_PREFIX..Min(DATA_PREFIX + v[3], |data|)];
      if |payload| != v[3] { return Some(ChunkTruncated); }
      assert ParseData(data) == Ok(Chunk(v[1], v[2], payload));
      hide ParseData, Unpack, Joined, Covers;
      var uuid, index := v[1], v[2];
      if uuid !in partials { return None; }
      var partial := partials[uuid];
      partial := partial.(chunks := partial.chunks[index := payload]);
      partials := partials[uuid := partial];
      if partial.Complete() {
        partials := partials - {uuid};
        assert partials == old(partials) - {uuid};
        var frame := Assemble(partial);
        if frame.Err? { return Some(frame.error); }
        frames := frames + [frame.value];
      }
      return None;
    }

    method HandleBinary(data: seq<byte>) returns (e: Option<ProtocolError>)
      modifies this
      ensures (State(), e) == old(State()).Receive(data)
    {
      if |data| < 4 { return Some(TooShort); }
      var magic := FromLE(data[..4]);
      if magic == CHUN_MAGIC {
        e := HandleChunkStart(data);
      } else if magic == CHNK_MAGIC {
        e := HandleChunkData(data);
      } else {
        return Some(UnknownMagic);
      }
    }
  }
}
