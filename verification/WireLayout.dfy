/** The printed messages byte by byte, at the offsets of the protocol's tables
    (docs/websocket-protocol.md:579-690). */
module WireLayout {
  import opened Types
  import opened Packing
  import opened Wire
  import RoundTrip

  /** `m` holds the low `width` bytes of `value` from `offset` on, little-endian. */
  predicate At(m: seq<byte>, offset: nat, width: nat, value: nat) {
    offset + width <= |m| && m[offset..offset + width] == LE(value, width)
  }

  lemma InFront(a: seq<byte>, b: seq<byte>, offset: nat, width: nat, value: nat)
    requires At(a, offset, width, value)
    ensures At(a + b, offset, width, value)
  {
    hide LE;
    assert (a + b)[offset..offset + width] == a[offset..offset + width];
  }

  lemma Behind(a: seq<byte>, b: seq<byte>, offset: nat, width: nat, value: nat)
    requires At(b, offset, width, value)
    ensures At(a + b, |a| + offset, width, value)
  {
    hide LE;
    assert (a + b)[|a| + offset..|a| + offset + width] == b[offset..offset + width];
  }

  /** A field stands behind the widths of the fields in front of it. */
  lemma {:induction false} FieldAt(fs: seq<Field>, i: nat)
    requires i < |fs|
    ensures At(Pack(fs), Total(Widths(fs)[..i]), fs[i].width, fs[i].value)
  {
    PackHead(fs);
    var first, rest := LE(fs[0].value, fs[0].width), Pack(fs[1..]);
    if i == 0 {
      assert Widths(fs)[..0] == [];
      hide LE, Pack;
      assert (first + rest)[0..fs[0].width] == first;
    } else {
      FieldAt(fs[1..], i - 1);
      var w := Widths(fs);
      assert w[..i] == [w[0]] + Widths(fs[1..])[..i - 1];
      hide *;
      TotalHead(w[0], Widths(fs[1..])[..i - 1]);
      Behind(first, rest, Total(Widths(fs[1..])[..i - 1]), fs[i].width, fs[i].value);
    }
  }

  lemma OffsetNext(widths: seq<nat>, i: nat)
    requires i < |widths|
    ensures Total(widths[..i + 1]) == Total(widths[..i]) + widths[i]
    ensures Total(widths[..0]) == 0
  {
    assert widths[..i + 1] == widths[..i] + [widths[i]];
    TotalSplit(widths[..i], [widths[i]]);
    assert Total([widths[i]]) == widths[i] + Total([]);
  }

  const HEADER_OFFSETS: seq<nat> :=
    [0, 4, 8, 12, 16, 20, 24, 28, 32, 36, 40, 48, 52, 56, 58, 60, 64, 65, 66, 68]

  /** The offsets of the header's table are the sums of the widths before them. */
  lemma {:induction false} OffsetsAdd(i: nat)
    requires i < 20
    ensures Total(HEADER_WIDTHS[..i]) == HEADER_OFFSETS[i]
  {
    hide Total;
    if i == 0 {
      OffsetNext(HEADER_WIDTHS, 0);
    } else {
      OffsetsAdd(i - 1);
      OffsetNext(HEADER_WIDTHS, i - 1);
    }
  }

  lemma HeaderFieldAt(t: Transfer, headerOnly: bool, saved: u32, i: nat)
    requires i < 20
    ensures var fs := HeaderFields(t, headerOnly, saved);
            |fs| == 20 && At(Pack(fs), HEADER_OFFSETS[i], fs[i].width, fs[i].value)
  {
    HeaderSize(t, headerOnly, saved);
    OffsetsAdd(i);
    hide Total, Pack, HeaderFields, At;
    assert |Widths(HeaderFields(t, headerOnly, saved))| == 20;
    FieldAt(HeaderFields(t, headerOnly, saved), i);
  }

  /** In the header's 72 bytes: whose frame it is and how many data messages follow. */
  predicate Identity(h: seq<byte>, t: Transfer, headerOnly: bool, saved: u32) {
    var f := t.frame;
    && At(h, 0, 4, t.uuid)
    && At(h, 4, 4, f.frameId)
    && At(h, 8, 4, f.camera)
    && At(h, 12, 4, if headerOnly then 0 else t.totalChunks)
    && At(h, 16, 4, if headerOnly then 0 else |f.data|)
  }

  /** In the header's 72 bytes: the picture's shape and the saver's count. */
  predicate Picture(h: seq<byte>, t: Transfer, headerOnly: bool, saved: u32) {
    var f := t.frame;
    && At(h, 20, 4, f.stride)
    && At(h, 24, 4, f.width)
    && At(h, 28, 4, f.height)
    && At(h, 32, 4, f.format)
    && At(h, 36, 4, saved)
  }

  /** In the header's 72 bytes: the timing and the size of the detection block. */
  predicate TimingAndBlock(h: seq<byte>, t: Transfer, headerOnly: bool, saved: u32) {
    var f := t.frame;
    && At(h, 40, 8, f.timestamp)
    && At(h, 48, 4, f.duration)
    && At(h, 52, 4, |Block(t.sets, t.Aruco())| % 0x1_0000_0000)
    && At(h, 56, 2, |t.sets|)
    && At(h, 58, 2, 0)
  }

  /** In the header's 72 bytes: the focus and the kind of detection. */
  predicate Focus(h: seq<byte>, t: Transfer, headerOnly: bool, saved: u32) {
    var f := t.frame;
    && At(h, 60, 4, f.lens)
    && At(h, 64, 1, f.afState)
    && At(h, 65, 1, t.kind)
    && At(h, 66, 2, 0)
    && At(h, 68, 4, Pattern(f.fom))
  }

  lemma IdentityAt(t: Transfer, headerOnly: bool, saved: u32)
    ensures Identity(Pack(HeaderFields(t, headerOnly, saved)), t, headerOnly, saved)
  {
    HeaderFieldAt(t, headerOnly, saved, 0);
    HeaderFieldAt(t, headerOnly, saved, 1);
    HeaderFieldAt(t, headerOnly, saved, 2);
    HeaderFieldAt(t, headerOnly, saved, 3);
    HeaderFieldAt(t, headerOnly, saved, 4);
    hide At, Pack, Block, Low32;
  }

  lemma PictureAt(t: Transfer, headerOnly: bool, saved: u32)
    ensures Picture(Pack(HeaderFields(t, headerOnly, saved)), t, headerOnly, saved)
  {
    HeaderFieldAt(t, headerOnly, saved, 5);
    HeaderFieldAt(t, headerOnly, saved, 6);
    HeaderFieldAt(t, headerOnly, saved, 7);
    HeaderFieldAt(t, headerOnly, saved, 8);
    HeaderFieldAt(t, headerOnly, saved, 9);
    hide At, Pack, Block, Low32;
  }

  lemma TimingAndBlockAt(t: Transfer, headerOnly: bool, saved: u32)
    ensures TimingAndBlock(Pack(HeaderFields(t, headerOnly, saved)), t, headerOnly, saved)
  {
    HeaderFieldAt(t, headerOnly, saved, 10);
    HeaderFieldAt(t, headerOnly, saved, 11);
    HeaderFieldAt(t, headerOnly, saved, 12);
    HeaderFieldAt(t, headerOnly, saved, 13);
    HeaderFieldAt(t, headerOnly, saved, 14);
    RoundTrip.Low32Is(|Block(t.sets, t.Aruco())|);
    hide At, Pack, Block, Low32;
  }

  lemma FocusAt(t: Transfer, headerOnly: bool, saved: u32)
    ensures Focus(Pack(HeaderFields(t, headerOnly, saved)), t, headerOnly, saved)
  {
    HeaderFieldAt(t, headerOnly, saved, 15);
    HeaderFieldAt(t, headerOnly, saved, 16);
    HeaderFieldAt(t, headerOnly, saved, 17);
    HeaderFieldAt(t, headerOnly, saved, 18);
    HeaderFieldAt(t, headerOnly, saved, 19);
    hide At, Pack, Block, Low32;
  }

  /** The header message is the start marker, the header's 72 bytes with every field at
      its documented place, and the detection block. */
  lemma HeaderAsDocumented(t: Transfer, headerOnly: bool, saved: u32)
    ensures var m := StartMessage(t, headerOnly, saved);
            && |m| >= 80 && At(m, 0, 4, 0x4348_554E) && At(m, 4, 4, 7)
            && Identity(m[8..80], t, headerOnly, saved) && Picture(m[8..80], t, headerOnly, saved)
            && TimingAndBlock(m[8..80], t, headerOnly, saved) && Focus(m[8..80], t, headerOnly, saved)
            && m[80..] == Block(t.sets, t.Aruco())
  {
    var m := StartMessage(t, headerOnly, saved);
    RoundTrip.StartLayout(t, headerOnly, saved);
    IdentityAt(t, headerOnly, saved);
    PictureAt(t, headerOnly, saved);
    TimingAndBlockAt(t, headerOnly, saved);
    FocusAt(t, headerOnly, saved);
    StartAt(m);
    hide Identity, Picture, TimingAndBlock, Focus, StartMessage, Block, Pack, LE, HeaderFields;
  }

  lemma StartAt(m: seq<byte>)
    requires 8 <= |m| && m[..8] == Pack(StartFields())
    ensures At(m, 0, 4, 0x4348_554E) && At(m, 4, 4, 7)
  {
    var fs := StartFields();
    FieldAt(fs, 0);
    FieldAt(fs, 1);
    OffsetNext(Widths(fs), 0);
    hide Pack, LE, Total;
    assert m[0..4] == m[..8][0..4] && m[4..8] == m[..8][4..8];
  }

  // ---- records and corners --------------------------------------------------------------

  lemma {:induction false} CornerAt(cs: seq<Corner>, j: nat)
    requires j < |cs|
    ensures At(Corners(cs), 8 * j, 4, cs[j].x) && At(Corners(cs), 8 * j + 4, 4, cs[j].y)
  {
    var n := |cs| - 1;
    CornersSize(cs);
    CornersSize(cs[..n]);
    var last := Pack(CornerFields(cs[n]));
    assert Corners(cs) == Corners(cs[..n]) + last;
    if j == n {
      CornerFieldsAt(cs[n]);
      hide LE, Pack;
      assert Corners(cs)[8 * j..8 * j + 4] == last[0..4];
      assert Corners(cs)[8 * j + 4..8 * j + 8] == last[4..8];
    } else {
      CornerAt(cs[..n], j);
      hide LE, Pack;
      assert Corners(cs)[8 * j..8 * j + 4] == Corners(cs[..n])[8 * j..8 * j + 4];
      assert Corners(cs)[8 * j + 4..8 * j + 8] == Corners(cs[..n])[8 * j + 4..8 * j + 8];
    }
  }

  lemma CornerFieldsAt(c: Corner)
    ensures At(Pack(CornerFields(c)), 0, 4, c.x) && At(Pack(CornerFields(c)), 4, 4, c.y)
  {
    var fs := CornerFields(c);
    FieldAt(fs, 0);
    FieldAt(fs, 1);
    OffsetNext(Widths(fs), 0);
    hide Pack, LE, Total;
  }

  lemma RecordHeadAt(s: CornerSet, aruco: bool)
    ensures var h := Pack(RecordFields(s, aruco));
            if aruco
            then && At(h, 0, 4, Pattern(s.markerId)) && At(h, 4, 1, s.setId) && At(h, 5, 1, 1)
                 && At(h, 6, 2, |s.corners|)
            else At(h, 0, 1, s.setId) && At(h, 1, 1, 1) && At(h, 2, 2, |s.corners|)
  {
    var fs := RecordFields(s, aruco);
    forall i | 0 <= i < |fs| ensures At(Pack(fs), Total(Widths(fs)[..i]), fs[i].width, fs[i].value) {
      FieldAt(fs, i);
    }
    OffsetNext(Widths(fs), 0);
    OffsetNext(Widths(fs), 1);
    if aruco { OffsetNext(Widths(fs), 2); }
    hide Pack, LE, Total, At;
  }

  /** A record of the block: the marker's 8 bytes or the board's 4, then its corners. */
  lemma RecordAsDocumented(s: CornerSet, aruco: bool)
    ensures var r := Record(s, aruco); var head := if aruco then 8 else 4;
            && |r| == head + 8 * |s.corners|
            && (aruco ==> && At(r, 0, 4, Pattern(s.markerId)) && At(r, 4, 1, s.setId)
                          && At(r, 5, 1, 1) && At(r, 6, 2, |s.corners|))
            && (!aruco ==> At(r, 0, 1, s.setId) && At(r, 1, 1, 1) && At(r, 2, 2, |s.corners|))
            && forall j :: 0 <= j < |s.corners| ==>
                 && At(r, head + 8 * j, 4, s.corners[j].x)
                 && At(r, head + 8 * j + 4, 4, s.corners[j].y)
  {
    RecordSize(s, aruco);
    RecordHeadAt(s, aruco);
    CornersSize(s.corners);
    var h, cs := Pack(RecordFields(s, aruco)), Corners(s.corners);
    hide Pack, LE, Corners, At, RecordFields;
    var head := if aruco then 8 else 4;
    if aruco {
      InFront(h, cs, 0, 4, Pattern(s.markerId));
      InFront(h, cs, 4, 1, s.setId);
      InFront(h, cs, 5, 1, 1);
      InFront(h, cs, 6, 2, |s.corners|);
    } else {
      InFront(h, cs, 0, 1, s.setId);
      InFront(h, cs, 1, 1, 1);
      InFront(h, cs, 2, 2, |s.corners|);
    }
    forall j | 0 <= j < |s.corners|
      ensures At(h + cs, head + 8 * j, 4, s.corners[j].x) && At(h + cs, head + 8 * j + 4, 4, s.corners[j].y)
    {
      CornerAt(s.corners, j);
      Behind(h, cs, 8 * j, 4, s.corners[j].x);
      Behind(h, cs, 8 * j + 4, 4, s.corners[j].y);
    }
  }

  /** The records follow one another without a gap. */
  lemma {:induction false} RecordsBackToBack(sets: seq<CornerSet>, aruco: bool, k: nat)
    requires k < |sets|
    ensures var b, o := Block(sets, aruco), |Block(sets[..k], aruco)|;
            && o + |Record(sets[k], aruco)| <= |b|
            && b[o..o + |Record(sets[k], aruco)|] == Record(sets[k], aruco)
            && |Block(sets[..k + 1], aruco)| == o + |Record(sets[k], aruco)|
            && Block([], aruco) == [] && Block(sets[..|sets|], aruco) == b
  {
    hide Record;
    assert sets == (sets[..k] + [sets[k]]) + sets[k + 1..] && sets[..k + 1] == sets[..k] + [sets[k]];
    assert sets[..|sets|] == sets;
    RoundTrip.BlockConcat(sets[..k] + [sets[k]], sets[k + 1..], aruco);
    RoundTrip.BlockConcat(sets[..k], [sets[k]], aruco);
    assert Block([sets[k]], aruco) == [] + Record(sets[k], aruco);
  }

  // ---- data messages ------------------------------------------------------------------------

  /** A data message: its 16 bytes, then its 32768 bytes of the payload, or what is left. */
  lemma DataAsDocumented(uuid: u32, data: seq<byte>, k: nat)
    requires k < ChunkCount(|data|)
    ensures var m := DataMessage(uuid, data, k); var size := Min(32768, |data| - 32768 * k);
            && 0 < size && |m| == 16 + size
            && At(m, 0, 4, 0x4348_4E4B) && At(m, 4, 4, uuid) && At(m, 8, 4, k) && At(m, 12, 4, size)
            && m[16..] == data[32768 * k..32768 * k + size]
  {
    var fs := DataFields(uuid, data, k);
    var h, p := Pack(fs), Payload(data, k);
    FieldSizes();
    assert Widths(fs) == DATA_WIDTHS;
    forall i | 0 <= i < 4 ensures At(h, Total(Widths(fs)[..i]), 4, fs[i].value) { FieldAt(fs, i); }
    OffsetNext(Widths(fs), 0);
    OffsetNext(Widths(fs), 1);
    OffsetNext(Widths(fs), 2);
    assert 32768 * k < |data|;
    hide Pack, LE, Total, At;
    InFront(h, p, 0, 4, 0x4348_4E4B);
    InFront(h, p, 4, 4, uuid);
    InFront(h, p, 8, 4, k);
    InFront(h, p, 12, 4, |p|);
  }

  /** There are as many data messages as 32768 goes into the payload, rounded up. */
  lemma ChunksAsDocumented(size: nat)
    ensures ChunkCount(size) == size / 32768 + (if size % 32768 == 0 then 0 else 1)
  {
  }
}
