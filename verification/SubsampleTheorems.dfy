/** Decimating twice by 2 against decimating once by 4. */
module SubsampleTheorems {
  import opened Types
  import opened Wire
  import opened Planes
  import opened Subsample

  // ---- one sample ----------------------------------------------------------------------

  lemma RowOfTwo(data: seq<byte>, p: Plane, x: nat, y: nat)
    requires p.In(data) && x + 2 <= p.cols && y < p.rows
    ensures RowSum(data, p, x, y, 2) == Sample(data, p, x, y) + Sample(data, p, x + 1, y)
  {
    hide Sample;
    assert RowSum(data, p, x, y, 1) == Sample(data, p, x, y);
  }

  lemma RowOfFour(data: seq<byte>, p: Plane, x: nat, y: nat)
    requires p.In(data) && x + 4 <= p.cols && y < p.rows
    ensures RowSum(data, p, x, y, 4) == RowSum(data, p, x, y, 2) + RowSum(data, p, x + 2, y, 2)
  {
    hide Sample;
    RowOfTwo(data, p, x + 2, y);
    assert RowSum(data, p, x, y, 3) == RowSum(data, p, x, y, 2) + Sample(data, p, x + 2, y);
  }

  lemma BlockOfTwo(data: seq<byte>, p: Plane, x: nat, y: nat, f: nat)
    requires p.In(data) && x + f <= p.cols && y + 2 <= p.rows
    ensures BlockSum(data, p, x, y, f, 2) == RowSum(data, p, x, y, f) + RowSum(data, p, x, y + 1, f)
  {
    hide RowSum;
    assert BlockSum(data, p, x, y, f, 1) == RowSum(data, p, x, y, f);
  }

  /** A block of 4 by 4 is four blocks of 2 by 2. */
  lemma Quarters(data: seq<byte>, p: Plane, x: nat, y: nat)
    requires p.In(data) && x + 4 <= p.cols && y + 4 <= p.rows
    ensures BlockSum(data, p, x, y, 4, 4) ==
            BlockSum(data, p, x, y, 2, 2) + BlockSum(data, p, x + 2, y, 2, 2)
            + BlockSum(data, p, x, y + 2, 2, 2) + BlockSum(data, p, x + 2, y + 2, 2, 2)
  {
    hide RowSum;
    assert BlockSum(data, p, x, y, 4, 3) == BlockSum(data, p, x, y, 4, 2) + RowSum(data, p, x, y + 2, 4);
    BlockOfTwo(data, p, x, y, 4);
    RowOfFour(data, p, x, y);
    RowOfFour(data, p, x, y + 1);
    RowOfFour(data, p, x, y + 2);
    RowOfFour(data, p, x, y + 3);
    BlockOfTwo(data, p, x, y, 2);
    BlockOfTwo(data, p, x + 2, y, 2);
    BlockOfTwo(data, p, x, y + 2, 2);
    BlockOfTwo(data, p, x + 2, y + 2, 2);
  }

  /** Rounding twice is off by at most one from rounding once. */
  lemma RoundTwice(a: nat, b: nat, c: nat, d: nat)
    ensures var twice := Rounded(Rounded(a, 4) + Rounded(b, 4) + Rounded(c, 4) + Rounded(d, 4), 4);
            -1 <= twice - Rounded(a + b + c + d, 16) <= 1
  {
  }

  /** `mid` shows the means of the 2 by 2 blocks of `src`. */
  ghost predicate Halved(src: seq<byte>, p: Plane, mid: seq<byte>, q: Plane)
    requires p.In(src) && q.In(mid) && q.cols * 2 <= p.cols && q.rows * 2 <= p.rows
  {
    forall x, y :: 0 <= x < q.cols && 0 <= y < q.rows ==> Sample(mid, q, x, y) == Mean(src, p, 2, x, y)
  }

  lemma SampleClose(src: seq<byte>, p: Plane, mid: seq<byte>, q: Plane, ox: nat, oy: nat)
    requires p.In(src) && q.In(mid) && q.cols * 2 <= p.cols && q.rows * 2 <= p.rows
    requires Halved(src, p, mid, q)
    requires ox * 2 + 2 <= q.cols && oy * 2 + 2 <= q.rows
    ensures Near(Mean(mid, q, 2, ox, oy), Mean(src, p, 4, ox, oy))
  {
    var x, y := ox * 2, oy * 2;
    BlockOfTwo(mid, q, x, y, 2);
    RowOfTwo(mid, q, x, y);
    RowOfTwo(mid, q, x, y + 1);
    Quarters(src, p, ox * 4, oy * 4);
    hide BlockSum, RowSum, Rounded, Sample;
    var a, b := BlockSum(src, p, x * 2, y * 2, 2, 2), BlockSum(src, p, (x + 1) * 2, y * 2, 2, 2);
    var c, d := BlockSum(src, p, x * 2, (y + 1) * 2, 2, 2), BlockSum(src, p, (x + 1) * 2, (y + 1) * 2, 2, 2);
    assert Mean(src, p, 2, x, y) == Rounded(a, 4) && Mean(src, p, 2, x + 1, y) == Rounded(b, 4);
    assert Mean(src, p, 2, x, y + 1) == Rounded(c, 4) && Mean(src, p, 2, x + 1, y + 1) == Rounded(d, 4);
    RoundTwice(a, b, c, d);
  }

  // ---- planes ----------------------------------------------------------------------------

  predicate AllClose(a: seq<byte>, b: seq<byte>) {
    |a| == |b| && forall i :: 0 <= i < |a| ==> Near(a[i], b[i])
  }

  predicate Near(a: int, b: int) { -1 <= a - b <= 1 }

  lemma CloseConcat(a: seq<byte>, b: seq<byte>, c: seq<byte>, d: seq<byte>)
    requires AllClose(a, b) && AllClose(c, d)
    ensures AllClose(a + c, b + d)
  {
  }

  lemma {:induction false} RowClose(src: seq<byte>, p: Plane, mid: seq<byte>, q: Plane,
                                    w: nat, h: nat, oy: nat, n: nat)
    requires p.In(src) && q.In(mid) && q.cols * 2 <= p.cols && q.rows * 2 <= p.rows
    requires Halved(src, p, mid, q)
    requires w * 2 <= q.cols && h * 2 <= q.rows && oy < h && n <= w
    ensures AllClose(DecimatedRow(mid, q, 2, w, h, oy, n), DecimatedRow(src, p, 4, w, h, oy, n))
  {
    hide Mean, Halved;
    if n > 0 {
      RowClose(src, p, mid, q, w, h, oy, n - 1);
      SampleClose(src, p, mid, q, n - 1, oy);
    }
  }

  lemma {:induction false} PlaneClose(src: seq<byte>, p: Plane, mid: seq<byte>, q: Plane,
                                      w: nat, h: nat, n: nat)
    requires p.In(src) && q.In(mid) && q.cols * 2 <= p.cols && q.rows * 2 <= p.rows
    requires Halved(src, p, mid, q)
    requires w * 2 <= q.cols && h * 2 <= q.rows && n <= h
    ensures AllClose(Decimated(mid, q, 2, w, h, n), Decimated(src, p, 4, w, h, n))
  {
    hide DecimatedRow, Halved;
    if n > 0 {
      PlaneClose(src, p, mid, q, w, h, n - 1);
      RowClose(src, p, mid, q, w, h, n - 1, w);
      hide AllClose;
      CloseConcat(Decimated(mid, q, 2, w, h, n - 1), Decimated(src, p, 4, w, h, n - 1),
                  DecimatedRow(mid, q, 2, w, h, n - 1, w), DecimatedRow(src, p, 4, w, h, n - 1, w));
    }
  }

  /** The samples of a decimated plane that stands at `q.base` in a buffer. */
  lemma HalvedPlane(src: seq<byte>, p: Plane, mid: seq<byte>, q: Plane)
    requires p.In(src) && q.cols * 2 <= p.cols && q.rows * 2 <= p.rows
    requires q.stride == q.cols && q.base + q.rows * q.cols <= |mid|
    requires mid[q.base..q.base + q.rows * q.cols] == Decimated(src, p, 2, q.cols, q.rows, q.rows)
    ensures q.In(mid) && Halved(src, p, mid, q)
  {
    hide Mean, Decimated;
    forall x, y | 0 <= x < q.cols && 0 <= y < q.rows
      ensures Sample(mid, q, x, y) == Mean(src, p, 2, x, y)
    {
      DecimatedAt(src, p, 2, q.cols, q.rows, x, y, q.rows);
      assert mid[q.base..q.base + q.rows * q.cols][y * q.cols + x] == mid[q.base + y * q.cols + x];
    }
  }

  // ---- frames ------------------------------------------------------------------------------

  /** Halving twice gives the size of quartering. */
  lemma ScaledTwice(n: u32)
    ensures Scaled(Scaled(n, 2), 2) == Scaled(n, 4)
  {
  }

  /** Three decimated planes one behind the other, as planes of the new buffer. */
  lemma HalvedPlanes(src: seq<byte>, y: Plane, u: Plane, v: Plane, w: nat, h: nat, cw: nat, ch: nat, mid: seq<byte>)
    requires y.In(src) && w * 2 <= y.cols && h * 2 <= y.rows
    requires u.In(src) && cw * 2 <= u.cols && ch * 2 <= u.rows
    requires v.In(src) && cw * 2 <= v.cols && ch * 2 <= v.rows
    requires mid == Decimated(src, y, 2, w, h, h) + Decimated(src, u, 2, cw, ch, ch)
                    + Decimated(src, v, 2, cw, ch, ch)
    ensures var m, n := h * w, ch * cw;
            var a, b, c := Plane(0, w, w, h), Plane(m, cw, cw, ch), Plane(m + n, cw, cw, ch);
            && |mid| == m + 2 * n
            && a.In(mid) && Halved(src, y, mid, a)
            && b.In(mid) && Halved(src, u, mid, b)
            && c.In(mid) && Halved(src, v, mid, c)
  {
    hide Decimated, Halved;
    AreaSigns(h, w, ch, cw);
    var m: nat, n: nat := h * w, ch * cw;
    var p, q, r := Decimated(src, y, 2, w, h, h), Decimated(src, u, 2, cw, ch, ch), Decimated(src, v, 2, cw, ch, ch);
    Pieces(p, q, r, m, n);
    HalvedPlane(src, y, mid, Plane(0, w, w, h));
    HalvedPlane(src, u, mid, Plane(m, cw, cw, ch));
    HalvedPlane(src, v, mid, Plane(m + n, cw, cw, ch));
  }

  lemma Pieces(p: seq<byte>, q: seq<byte>, r: seq<byte>, m: nat, n: nat)
    requires |p| == m && |q| == |r| == n
    ensures var all := p + q + r;
            && |all| == m + 2 * n
            && all[0..0 + m] == p && all[m..m + n] == q && all[m + n..m + n + n] == r
  {
  }

  /** Second halving of all three planes against one quartering. */
  lemma QuarteredPlanes(src: seq<byte>, y: Plane, u: Plane, v: Plane, w: nat, h: nat, cw: nat, ch: nat,
                        mid: seq<byte>, w4: nat, h4: nat)
    requires y.In(src) && w * 2 <= y.cols && h * 2 <= y.rows
    requires u.In(src) && cw * 2 <= u.cols && ch * 2 <= u.rows
    requires v.In(src) && cw * 2 <= v.cols && ch * 2 <= v.rows
    requires mid == Decimated(src, y, 2, w, h, h) + Decimated(src, u, 2, cw, ch, ch)
                    + Decimated(src, v, 2, cw, ch, ch)
    requires w4 * 2 <= w && h4 * 2 <= h && (w4 / 2) * 2 <= cw && (h4 / 2) * 2 <= ch
    ensures var m, n := h * w, ch * cw;
            var a, b, c := Plane(0, w, w, h), Plane(m, cw, cw, ch), Plane(m + n, cw, cw, ch);
            && a.In(mid) && b.In(mid) && c.In(mid)
            && AllClose(Decimated(mid, a, 2, w4, h4, h4) + Decimated(mid, b, 2, w4 / 2, h4 / 2, h4 / 2)
                        + Decimated(mid, c, 2, w4 / 2, h4 / 2, h4 / 2),
                        Decimated(src, y, 4, w4, h4, h4) + Decimated(src, u, 4, w4 / 2, h4 / 2, h4 / 2)
                        + Decimated(src, v, 4, w4 / 2, h4 / 2, h4 / 2))
  {
    hide Decimated, Halved, AllClose;
    HalvedPlanes(src, y, u, v, w, h, cw, ch, mid);
    var m, n := h * w, ch * cw;
    var a, b, c := Plane(0, w, w, h), Plane(m, cw, cw, ch), Plane(m + n, cw, cw, ch);
    PlaneClose(src, y, mid, a, w4, h4, h4);
    PlaneClose(src, u, mid, b, w4 / 2, h4 / 2, h4 / 2);
    PlaneClose(src, v, mid, c, w4 / 2, h4 / 2, h4 / 2);
    CloseConcat(Decimated(mid, a, 2, w4, h4, h4), Decimated(src, y, 4, w4, h4, h4),
                Decimated(mid, b, 2, w4 / 2, h4 / 2, h4 / 2), Decimated(src, u, 4, w4 / 2, h4 / 2, h4 / 2));
    CloseConcat(Decimated(mid, a, 2, w4, h4, h4) + Decimated(mid, b, 2, w4 / 2, h4 / 2, h4 / 2),
                Decimated(src, y, 4, w4, h4, h4) + Decimated(src, u, 4, w4 / 2, h4 / 2, h4 / 2),
                Decimated(mid, c, 2, w4 / 2, h4 / 2, h4 / 2), Decimated(src, v, 4, w4 / 2, h4 / 2, h4 / 2));
  }

  lemma PayloadIs(f: FrameData, factor: u32, w: nat, h: nat)
    requires f.width <= f.stride && Needed(f) <= |f.data| && 2 <= factor
    requires w == Scaled(f.width, factor) && h == Scaled(f.height, factor)
    ensures var y, u, v := LumaPlane(f), ChromaPlane(f, 0), ChromaPlane(f, 1);
            && y.In(f.data) && w * factor <= y.cols && h * factor <= y.rows
            && u.In(f.data) && (w / 2) * factor <= u.cols && (h / 2) * factor <= u.rows
            && v.In(f.data) && (w / 2) * factor <= v.cols && (h / 2) * factor <= v.rows
            && Payload420(f, factor) == Decimated(f.data, y, factor, w, h, h)
                                        + Decimated(f.data, u, factor, w / 2, h / 2, h / 2)
                                        + Decimated(f.data, v, factor, w / 2, h / 2, h / 2)
  {
    PlanesFit(f, factor);
    hide Scaled, Decimated, LumaPlane, ChromaPlane, Plane.In, Needed;
  }

  /** The planes of a tightly packed frame of even size. */
  lemma PackedLayout(f: FrameData)
    requires f.stride == f.width && f.width % 2 == 0
    ensures var m, n := f.height * f.width, (f.height / 2) * (f.width / 2);
            && LumaPlane(f) == Plane(0, f.width, f.width, f.height)
            && ChromaPlane(f, 0) == Plane(m, f.width / 2, f.width / 2, f.height / 2)
            && ChromaPlane(f, 1) == Plane(m + n, f.width / 2, f.width / 2, f.height / 2)
            && Needed(f) == m + 2 * n
  {
    ProductSigns(f);
  }

  /** The halved frame, its size and where its planes stand. */
  lemma HalfLayout(src: FrameData, half: FrameData, w: nat, h: nat)
    requires src.width <= src.stride && Needed(src) <= |src.data|
    requires half == Shrunk(src, 2).(data := Payload420(src, 2))
    requires w == Scaled(src.width, 2) && h == Scaled(src.height, 2)
    ensures half.width == half.stride == w && half.height == h
    ensures var m, n := h * w, (h / 2) * (w / 2);
            && Needed(half) == |half.data| == m + 2 * n
            && LumaPlane(half) == Plane(0, w, w, h)
            && ChromaPlane(half, 0) == Plane(m, w / 2, w / 2, h / 2)
            && ChromaPlane(half, 1) == Plane(m + n, w / 2, w / 2, h / 2)
  {
    assert half.width == half.stride == w && half.height == h && w % 2 == 0;
    hide Scaled, Payload420, Shrunk, Needed, LumaPlane, ChromaPlane, Decimated, Plane.In;
    PayloadIs(src, 2, w, h);
    PackedLayout(half);
  }

  lemma PayloadsClose(src: FrameData)
    requires src.width <= src.stride && Needed(src) <= |src.data|
    ensures var half := Shrunk(src, 2).(data := Payload420(src, 2));
            && half.width == half.stride && Needed(half) == |half.data|
            && AllClose(Payload420(half, 2), Payload420(src, 4))
  {
    var half := Shrunk(src, 2).(data := Payload420(src, 2));
    var w, h := Scaled(src.width, 2), Scaled(src.height, 2);
    var w4, h4 := Scaled(src.width, 4), Scaled(src.height, 4);
    hide Scaled, Payload420, Needed, AllClose, LumaPlane, ChromaPlane, Plane.In;
    HalfLayout(src, half, w, h);
    ScaledTwice(src.width);
    ScaledTwice(src.height);
    HalfSize(w, w4);
    HalfSize(h, h4);
    PayloadIs(src, 2, w, h);
    PayloadIs(src, 4, w4, h4);
    PayloadIs(half, 2, w4, h4);
    QuarteredPlanes(src.data, LumaPlane(src), ChromaPlane(src, 0), ChromaPlane(src, 1), w, h, w / 2, h / 2,
                    half.data, w4, h4);
  }

  lemma HalfSize(w: u32, w4: u32)
    requires w % 2 == 0 && w4 == Scaled(w, 2)
    ensures w4 * 2 <= w && (w4 / 2) * 2 <= w / 2
  {
  }

  lemma AreaPositive(a: nat, b: nat)
    requires a > 0 && b > 0
    ensures a * b > 0
  {
  }

  /** Decimating by 2 and again by 2 gives the geometry and the metadata of
      decimating by 4, a payload of the same size, and every sample within one. */
  lemma TwiceByTwo(src: FrameData)
    requires src.width <= src.stride
    ensures var half := Subsampled(src, 2);
            && half.width <= half.stride
            && Subsampled(half, 2) == Subsampled(src, 4).(data := Subsampled(half, 2).data)
            && AllClose(Subsampled(half, 2).data, Subsampled(src, 4).data)
  {
    ScaledTwice(src.width);
    ScaledTwice(src.height);
    var half := Subsampled(src, 2);
    if |src.data| >= Needed(src) {
      PayloadsClose(src);
      NotEmptied(src.width);
      NotEmptied(src.height);
      hide Scaled, Payload420, Needed, AllClose;
      assert AllClose([], []);
    } else {
      hide Scaled, Payload420;
      if half.width > 0 && half.height > 0 { AreaPositive(half.stride, half.height); }
      ProductSigns(half);
    }
  }

  lemma NotEmptied(n: u32)
    ensures Scaled(n, 4) != 0 ==> Scaled(n, 2) != 0
  {
  }

  // ---- padding ---------------------------------------------------------------------------

  /** Same metadata, same visible samples in all three planes. */
  ghost predicate LookAlike(a: FrameData, b: FrameData) {
    && b == a.(data := b.data) && a.width <= a.stride
    && Needed(a) <= |a.data| && Needed(a) <= |b.data|
    && (forall p | p in {LumaPlane(a), ChromaPlane(a, 0), ChromaPlane(a, 1)} ::
          p.In(a.data) && p.In(b.data) && SamePicture(a.data, b.data, p))
  }

  /** What stands in the padding columns or behind the planes never shows. */
  lemma PaddingNeverShows(a: FrameData, b: FrameData, factor: u32)
    requires LookAlike(a, b) && 2 <= factor
    ensures Subsampled(a, factor) == Subsampled(b, factor)
  {
    var w, h := Scaled(a.width, factor), Scaled(a.height, factor);
    PayloadIs(a, factor, w, h);
    PayloadIs(b, factor, w, h);
    hide Payload420, LumaPlane, ChromaPlane, Needed, SamePicture, Decimated, Scaled, Plane.In;
    PaddingIgnored(a.data, b.data, LumaPlane(a), factor, w, h, h);
    PaddingIgnored(a.data, b.data, ChromaPlane(a, 0), factor, w / 2, h / 2, h / 2);
    PaddingIgnored(a.data, b.data, ChromaPlane(a, 1), factor, w / 2, h / 2, h / 2);
  }
}
