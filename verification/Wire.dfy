/** The binary messages of protocol version 7 as the server prints them
    (src/types.hpp:73-209, src/stream_manager.cpp:669-812).

    Floats are carried as their 32-bit patterns. A value wider than its field is
    truncated, as the source's casts and packed assignments do. */
module Wire {
  import opened Types
  import opened Packing

  const CHUN_MAGIC: nat := 0x4348554E
  const CHNK_MAGIC: nat := 0x43484E4B
  const VERSION: nat := 7
  const CHUNK_SIZE: nat := 32768
  const ARUCO: nat := 2

  datatype Corner = Corner(x: u32, y: u32)

  datatype CornerSet = CornerSet(setId: byte, markerId: i32, corners: seq<Corner>)

  datatype FrameData = FrameData(
    data: seq<byte>, frameId: u32, camera: u32, width: u32, height: u32, stride: u32,
    format: u32, timestamp: u64, duration: u32, lens: u32, afState: byte, fom: i32)

  /** `ChunkedTransfer`, less what the sender keeps for itself. */
  datatype Transfer = Transfer(
    frame: FrameData, sets: seq<CornerSet>, kind: byte, uuid: u32, totalChunks: nat)
  {
    predicate Aruco() { kind == ARUCO }
  }

  function ChunkCount(size: nat): nat { (size + CHUNK_SIZE - 1) / CHUNK_SIZE }

  // ---- the header message -----------------------------------------------------------

  const START_WIDTHS: seq<nat> := [4, 4]

  const HEADER_WIDTHS: seq<nat> :=
    [4, 4, 4, 4, 4, 4, 4, 4, 4, 4, 8, 4, 4, 2, 2, 4, 1, 1, 2, 4]

  const START_SIZE: nat := 8
  const PREFIX_SIZE: nat := 80

  function StartFields(): seq<Field> { [Field(4, CHUN_MAGIC), Field(4, VERSION)] }

  function FieldsWith(t: Transfer, headerOnly: bool, saved: u32, blockSize: u32): seq<Field> {
    var f := t.frame;
    [Field(4, t.uuid), Field(4, f.frameId), Field(4, f.camera),
     Field(4, if headerOnly then 0 else t.totalChunks),
     Field(4, if headerOnly then 0 else |f.data|),
     Field(4, f.stride), Field(4, f.width), Field(4, f.height), Field(4, f.format),
     Field(4, saved), Field(8, f.timestamp), Field(4, f.duration),
     Field(4, blockSize), Field(2, |t.sets|), Field(2, 0),
     Field(4, f.lens), Field(1, f.afState), Field(1, t.kind), Field(2, 0),
     Field(4, Pattern(f.fom))]
  }

  function Low32(n: nat): u32 { n % 0x1_0000_0000 }

  /** The block size is summed up in 32 bits before the header is filled in. */
  function HeaderFields(t: Transfer, headerOnly: bool, saved: u32): seq<Field> {
    FieldsWith(t, headerOnly, saved, Low32(|Block(t.sets, t.Aruco())|))
  }

  function RecordFields(s: CornerSet, aruco: bool): seq<Field> {
    if aruco
    then [Field(4, Pattern(s.markerId)), Field(1, s.setId), Field(1, 1), Field(2, |s.corners|)]
    else [Field(1, s.setId), Field(1, 1), Field(2, |s.corners|)]
  }

  function CornerFields(c: Corner): seq<Field> { [Field(4, c.x), Field(4, c.y)] }

  function Corners(cs: seq<Corner>): seq<byte> {
    if cs == [] then [] else Corners(cs[..|cs| - 1]) + Pack(CornerFields(cs[|cs| - 1]))
  }

  function Record(s: CornerSet, aruco: bool): seq<byte> {
    Pack(RecordFields(s, aruco)) + Corners(s.corners)
  }

  /** The detection block: one record per set, back to back. */
  function Block(sets: seq<CornerSet>, aruco: bool): seq<byte> {
    if sets == [] then []
    else Block(sets[..|sets| - 1], aruco) + Record(sets[|sets| - 1], aruco)
  }

  function StartMessage(t: Transfer, headerOnly: bool, saved: u32): seq<byte> {
    Pack(StartFields()) + Pack(HeaderFields(t, headerOnly, saved)) + Block(t.sets, t.Aruco())
  }

  // ---- the data messages --------------------------------------------------------------

  const DATA_WIDTHS: seq<nat> := [4, 4, 4, 4]
  const DATA_PREFIX: nat := 16

  function Payload(data: seq<byte>, k: nat): seq<byte>
    requires k < ChunkCount(|data|)
  {
    data[k * CHUNK_SIZE..Min((k + 1) * CHUNK_SIZE, |data|)]
  }

  function DataFields(uuid: u32, data: seq<byte>, k: nat): seq<Field>
    requires k < ChunkCount(|data|)
  {
    [Field(4, CHNK_MAGIC), Field(4, uuid), Field(4, k), Field(4, |Payload(data, k)|)]
  }

  function DataMessage(uuid: u32, data: seq<byte>, k: nat): seq<byte>
    requires k < ChunkCount(|data|)
  {
    Pack(DataFields(uuid, data, k)) + Payload(data, k)
  }

  // ---- sizes ---------------------------------------------------------------------------

  lemma {:induction false} CornersSize(cs: seq<Corner>)
    ensures |Corners(cs)| == 8 * |cs|
  {
    if cs != [] {
      CornersSize(cs[..|cs| - 1]);
      FieldSizes();
      assert Widths(CornerFields(cs[|cs| - 1])) == [4, 4];
    }
  }

  lemma TotalHead(x: nat, rest: seq<nat>)
    ensures Total([x] + rest) == x + Total(rest)
  {
    assert ([x] + rest)[1..] == rest;
  }

  lemma TwoTotal(a: nat, b: nat)
    ensures Total([a, b]) == a + b
  {
    assert [a, b] == [a] + ([b] + []);
    assert Total([]) == 0;
    hide Total;
    TotalHead(a, [b] + []);
    TotalHead(b, []);
  }

  lemma ThreeTotal(a: nat, b: nat, c: nat)
    ensures Total([a, b, c]) == a + b + c
  {
    assert [a, b, c] == [a] + [b, c];
    hide Total;
    TotalHead(a, [b, c]);
    TwoTotal(b, c);
  }

  lemma FourTotal(a: nat, b: nat, c: nat, d: nat)
    ensures Total([a, b, c, d]) == a + b + c + d
  {
    assert [a, b, c, d] == [a] + [b, c, d];
    hide Total;
    TotalHead(a, [b, c, d]);
    ThreeTotal(b, c, d);
  }

  lemma FieldSizes()
    ensures Total([4, 4]) == 8 && Total([4, 4, 4, 4]) == 16
    ensures Total([4, 1, 1, 2]) == 8 && Total([1, 1, 2]) == 4
  {
    hide Total;
    TwoTotal(4, 4);
    FourTotal(4, 4, 4, 4);
    FourTotal(4, 1, 1, 2);
    ThreeTotal(1, 1, 2);
  }

  lemma RecordSize(s: CornerSet, aruco: bool)
    ensures Widths(RecordFields(s, aruco)) == if aruco then [4, 1, 1, 2] else [1, 1, 2]
    ensures |Record(s, aruco)| == (if aruco then 8 else 4) + 8 * |s.corners|
  {
    CornersSize(s.corners);
    FieldSizes();
    assert Widths(RecordFields(s, aruco)) == if aruco then [4, 1, 1, 2] else [1, 1, 2];
  }

  lemma StartSize()
    ensures Widths(StartFields()) == START_WIDTHS && Total(START_WIDTHS) == START_SIZE
  {
    FieldSizes();
  }

  lemma HeaderSize(t: Transfer, headerOnly: bool, saved: u32)
    ensures Widths(HeaderFields(t, headerOnly, saved)) == HEADER_WIDTHS
  {
  }

  lemma {:induction false} TotalSplit(a: seq<nat>, b: seq<nat>)
    ensures Total(a + b) == Total(a) + Total(b)
  {
    if a == [] { assert a + b == b; }
    else {
      assert (a + b)[1..] == a[1..] + b;
      TotalSplit(a[1..], b);
    }
  }

  lemma HeaderTotal()
    ensures Total(HEADER_WIDTHS) == PREFIX_SIZE - START_SIZE
  {
    assert HEADER_WIDTHS == ([4, 4, 4, 4] + [4, 4, 4, 4]) + (([4, 4, 8, 4] + [4, 2, 2, 4]) + [1, 1, 2, 4]);
    hide Total;
    TotalSplit([4, 4, 4, 4] + [4, 4, 4, 4], ([4, 4, 8, 4] + [4, 2, 2, 4]) + [1, 1, 2, 4]);
    TotalSplit([4, 4, 4, 4], [4, 4, 4, 4]);
    TotalSplit([4, 4, 8, 4] + [4, 2, 2, 4], [1, 1, 2, 4]);
    TotalSplit([4, 4, 8, 4], [4, 2, 2, 4]);
    FourTotal(4, 4, 4, 4);
    FourTotal(4, 4, 8, 4);
    FourTotal(4, 2, 2, 4);
    FourTotal(1, 1, 2, 4);
  }
}
