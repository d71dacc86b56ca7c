/** Decimation of a YUV420 frame for a bandwidth-limited stream
    (src/frame_subsample.cpp:32-84). */
module Subsample {
  import opened Types
  import opened Products
  import opened Wire
  import opened Planes

  /** Largest factor for which the 32-bit sums of a block cannot wrap. */
  const MAX_FACTOR: nat := 4100

  /** A 32-bit unsigned value. */
  function U32(n: nat): u32 { n % 0x1_0000_0000 }

  lemma U32Adds(a: nat, b: nat)
    ensures U32(U32(a) + b) == U32(a + b)
  {
  }

  lemma U32Small(n: nat)
    requires n < 0x1_0000_0000
    ensures U32(n) == n
  {
  }

  lemma NextMultiple(t: nat)
    ensures U32(t + (0x1_0000_0000 - U32(t))) == 0
  {
  }

  /** `factor * factor` in 32 bits; zero for multiples of 65536, where the division
      by it is undefined. */
  function Norm(factor: u32): u32 { U32(factor * factor) }

  /** `(sum + half) / norm`, cast to a byte, in 32 bits. */
  function MachineQuotient(sum: nat, norm: u32): byte
    requires norm != 0
  {
    var total: nat := U32(sum + norm / 2);
    Quotient(total, norm);
    (total / norm) % 0x100
  }

  /** The mean of a block sum taken in 32 bits. */
  function MachineMean(sum: nat, factor: u32): byte
    requires Norm(factor) != 0
  {
    MachineQuotient(sum, Norm(factor))
  }

  /** The sum of a block that the 32-bit arithmetic gets right. */
  predicate Right(sum: nat, factor: u32)
    requires Norm(factor) != 0 && 2 <= factor
  {
    MachineMean(sum, factor) == Rounded(sum, factor * factor)
  }

  lemma SmallSquare(f: u32)
    requires 2 <= f <= MAX_FACTOR
    ensures 4 <= f * f <= 16_810_000 && Norm(f) == f * f
  {
    Monotone(2, f, 2);
    Monotone(2, f, f);
    Monotone(f, MAX_FACTOR, f);
    Monotone(f, MAX_FACTOR, MAX_FACTOR);
  }

  lemma SmallIsRight(sum: nat, f: u32)
    requires 2 <= f <= MAX_FACTOR && sum <= 255 * (f * f)
    ensures Norm(f) == f * f && Right(sum, f)
  {
    SmallSquare(f);
    RoundedBetween(sum, f * f, 0, 255);
  }

  lemma TooDark(n: u32)
    requires 16_818_201 <= n <= 0xFFFE_0001
    ensures MachineQuotient(255 * n, n) != 255
  {
    var t: nat := U32(255 * n + n / 2);
    assert t < 255 * n;
    hide U32;
    Quotient(t, n);
    if t / n >= 255 { Monotone(255, t / n, n); }
    assert t / n < 255;
  }

  lemma MidSquare(f: u32)
    requires MAX_FACTOR < f < 0x1_0000
    ensures 16_818_201 <= f * f <= 0xFFFE_0001
  {
    Monotone(4101, f, 4101);
    Monotone(4101, f, f);
    Monotone(f, 0xFFFF, f);
    Monotone(f, 0xFFFF, 0xFFFF);
  }

  /** A white block behind the limit comes out too dark. */
  lemma WhiteIsWrong(f: u32)
    requires MAX_FACTOR < f < 0x1_0000
    ensures Norm(f) != 0 && !Right(255 * (f * f), f)
  {
    MidSquare(f);
    U32Small(f * f);
    hide U32, MachineQuotient, Rounded;
    TooDark(f * f);
    RoundedBetween(255 * (f * f), f * f, 255, 255);
  }

  lemma SomeVanishes(n: nat, norm: u32) returns (sum: nat)
    requires 0x1_0000_0000 <= n && norm != 0
    ensures n <= sum <= 255 * n && MachineQuotient(sum, norm) == 0
  {
    var half := norm / 2;
    sum := n + (0x1_0000_0000 - U32(n + half));
    NextMultiple(n + half);
    hide U32;
    assert sum + half == n + half + (0x1_0000_0000 - U32(n + half));
    Quotient(0, norm);
  }

  /** And a factor too large for a 16-bit square gets some other block wrong. */
  lemma HugeIsWrong(f: u32) returns (sum: nat)
    requires 0x1_0000 <= f && Norm(f) != 0
    ensures sum <= 255 * (f * f) && !Right(sum, f)
  {
    Monotone(0x1_0000, f, 0x1_0000);
    Monotone(0x1_0000, f, f);
    hide U32, Norm, MachineQuotient, Rounded;
    sum := SomeVanishes(f * f, Norm(f));
    RoundedBetween(sum, f * f, 1, 255);
  }

  /** The machine's mean is the rounded mean of every block if and only if the
      factor is at most 4100. */
  lemma MeansRightExactly(f: u32)
    requires 2 <= f && Norm(f) != 0
    ensures (forall sum: nat :: sum <= 255 * (f * f) ==> Right(sum, f)) <==> f <= MAX_FACTOR
  {
    if f <= MAX_FACTOR {
      forall sum: nat | sum <= 255 * (f * f) ensures Right(sum, f) { SmallIsRight(sum, f); }
    } else if f < 0x1_0000 {
      WhiteIsWrong(f);
      assert !Right(255 * (f * f), f);
    } else {
      var sum := HugeIsWrong(f);
    }
  }

  function Even(n: nat): (e: nat)
    ensures e % 2 == 0 && e <= n <= e + 1
  {
    n - n % 2
  }

  lemma Quotient(a: nat, b: nat)
    requires b > 0
    ensures (a / b) * b <= a < (a / b) * b + b
    ensures 0 <= a / b <= a
  {
    var q := a / b;
    assert q >= 0;
    Monotone(1, b, q);
  }

  /** `subsampledGeometry`, one dimension. */
  function Scaled(size: u32, factor: u32): (r: u32)
    ensures r % 2 == 0 && r <= size
  {
    var f := if factor == 0 then 1 else factor;
    Quotient(size, f);
    Even(size / f)
  }

  function LumaPlane(f: FrameData): Plane { Plane(0, f.stride, f.width, f.height) }

  /** Chroma plane 0 is U, 1 is V. */
  function ChromaPlane(f: FrameData, k: nat): Plane {
    Plane(f.stride * f.height + k * ((f.stride / 2) * (f.height / 2)),
          f.stride / 2, f.width / 2, f.height / 2)
  }

  /** Bytes the planes take. */
  function Needed(f: FrameData): nat {
    f.stride * f.height + 2 * ((f.stride / 2) * (f.height / 2))
  }

  lemma ProductSigns(f: FrameData)
    ensures f.stride * f.height >= 0 && (f.stride / 2) * (f.height / 2) >= 0
  {
  }

  lemma PlanesIn(f: FrameData)
    requires f.width <= f.stride && Needed(f) <= |f.data|
    ensures LumaPlane(f).In(f.data)
    ensures ChromaPlane(f, 0).In(f.data) && ChromaPlane(f, 1).In(f.data)
    ensures LumaPlane(f).End() == ChromaPlane(f, 0).base
    ensures ChromaPlane(f, 0).End() == ChromaPlane(f, 1).base
    ensures ChromaPlane(f, 1).End() == Needed(f)
  {
    ProductSigns(f);
  }

  lemma Fits(size: u32, f: u32)
    requires 2 <= f
    ensures Scaled(size, f) * f <= size
    ensures (Scaled(size, f) / 2) * f <= size / 2
  {
    var n := size / f;
    Quotient(size, f);
    Monotone(Scaled(size, f), n, f);
    var h := Scaled(size, f) / 2;
    assert Scaled(size, f) == h + h;
    Distributes(f, h, h);
  }

  /** Every block of every output plane lies inside its source plane. */
  lemma PlanesFit(src: FrameData, f: u32)
    requires src.width <= src.stride && Needed(src) <= |src.data| && 2 <= f
    ensures var w, h := Scaled(src.width, f), Scaled(src.height, f);
            var y, u, v := LumaPlane(src), ChromaPlane(src, 0), ChromaPlane(src, 1);
            && y.In(src.data) && w * f <= y.cols && h * f <= y.rows
            && u.In(src.data) && (w / 2) * f <= u.cols && (h / 2) * f <= u.rows
            && v.In(src.data) && (w / 2) * f <= v.cols && (h / 2) * f <= v.rows
  {
    PlanesIn(src);
    Fits(src.width, f);
    Fits(src.height, f);
  }

  /** The metadata of the decimated frame. */
  function Shrunk(src: FrameData, factor: u32): FrameData {
    src.(data := [], width := Scaled(src.width, factor), height := Scaled(src.height, factor),
         stride := Scaled(src.width, factor))
  }

  /** Nothing to decimate: no output sample, or the payload is short. */
  predicate GeometryOnly(src: FrameData, factor: u32) {
    || Scaled(src.width, factor) == 0 || Scaled(src.height, factor) == 0
    || |src.data| < Needed(src)
  }

  function PlaneMeans(src: FrameData, p: Plane, f: u32, w: nat, h: nat): seq<byte>
    requires p.In(src.data) && 2 <= f && w * f <= p.cols && h * f <= p.rows
  {
    Decimated(src.data, p, f, w, h, h)
  }

  function Payload420(src: FrameData, f: u32): seq<byte>
    requires src.width <= src.stride && Needed(src) <= |src.data| && 2 <= f
  {
    PlanesFit(src, f);
    var w, h := Scaled(src.width, f), Scaled(src.height, f);
    PlaneMeans(src, LumaPlane(src), f, w, h)
    + PlaneMeans(src, ChromaPlane(src, 0), f, w / 2, h / 2)
    + PlaneMeans(src, ChromaPlane(src, 1), f, w / 2, h / 2)
  }

  /** `subsampleYuv420`. */
  function Subsampled(src: FrameData, factor: u32): FrameData
    requires src.width <= src.stride
  {
    if factor <= 1 then src
    else if GeometryOnly(src, factor) then Shrunk(src, factor)
    else Shrunk(src, factor).(data := Payload420(src, factor))
  }

  // ---- what a decimated frame shows -----------------------------------------------------------

  /** Output sample (`x`, `y`) of a plane that stands at `at` in `out` is the mean of its block. */
  ghost predicate ShowsMean(out: seq<byte>, at: nat, data: seq<byte>, p: Plane, f: u32, w: nat, h: nat, x: nat, y: nat)
    requires p.In(data) && 0 < f && w * f <= p.cols && h * f <= p.rows
    requires at + h * w <= |out| && x < w && y < h
  {
    BlockInside(p, f, w, h, x, y);
    RowFits(y, w, h);
    out[at + y * w + x] == Mean(data, p, f, x, y)
  }

  /** From `at` on stands the decimated plane, row by row without padding. */
  ghost predicate ShowsPlane(out: seq<byte>, at: nat, data: seq<byte>, p: Plane, f: u32, w: nat, h: nat) {
    && p.In(data) && 0 < f && w * f <= p.cols && h * f <= p.rows
    && at + h * w <= |out|
    && forall x: nat, y: nat :: x < w && y < h ==> ShowsMean(out, at, data, p, f, w, h, x, y)
  }

  /** `out` is `src` decimated: the same metadata, both sizes divided and rounded down to
      even numbers, rows without padding; and, unless no sample is left or the payload
      is too short, one mean for each block of the Y, U and V planes. */
  ghost predicate IsDecimation(src: FrameData, factor: u32, out: FrameData) {
    if factor <= 1 then out == src
    else
      var w, h := out.width, out.height;
      && out == src.(data := out.data, width := w, height := h, stride := w)
      && w == src.width / factor / 2 * 2 && h == src.height / factor / 2 * 2
      && if w == 0 || h == 0 || |src.data| < Area(src.stride, src.height) + 2 * ChromaArea(src)
         then out.data == []
         else && |out.data| == Area(h, w) + 2 * Area(h / 2, w / 2)
              && ShowsPlane(out.data, 0, src.data, Plane(0, src.stride, src.width, src.height), factor, w, h)
              && ShowsPlane(out.data, Area(h, w), src.data,
                            Chroma(src, Area(src.stride, src.height)), factor, w / 2, h / 2)
              && ShowsPlane(out.data, Area(h, w) + Area(h / 2, w / 2), src.data,
                            Chroma(src, Area(src.stride, src.height) + ChromaArea(src)), factor, w / 2, h / 2)
  }

  function Area(a: nat, b: nat): nat { a * b }

  function ChromaArea(src: FrameData): nat { Area(src.stride / 2, src.height / 2) }

  /** A plane of half the size in both directions. */
  function Chroma(src: FrameData, base: nat): Plane {
    Plane(base, src.stride / 2, src.width / 2, src.height / 2)
  }

  lemma HalvedTwice(size: u32, factor: u32)
    requires 2 <= factor
    ensures Scaled(size, factor) == size / factor / 2 * 2
  {
    Quotient(size, factor);
  }

  /** A decimated plane between two other parts. */
  lemma ShowsDecimated(before: seq<byte>, after: seq<byte>, data: seq<byte>, p: Plane, f: u32, w: nat, h: nat)
    requires p.In(data) && 0 < f && w * f <= p.cols && h * f <= p.rows
    ensures ShowsPlane(before + Decimated(data, p, f, w, h, h) + after, |before|, data, p, f, w, h)
  {
    hide Mean, Decimated;
    var out := before + Decimated(data, p, f, w, h, h) + after;
    forall x: nat, y: nat | x < w && y < h ensures ShowsMean(out, |before|, data, p, f, w, h, x, y) {
      DecimatedAt(data, p, f, w, h, x, y, h);
      RowFits(y, w, h);
      BlockInside(p, f, w, h, x, y);
      assert out[|before| + (y * w + x)] == Decimated(data, p, f, w, h, h)[y * w + x];
    }
  }

  lemma ThreeShown(data: seq<byte>, y: Plane, u: Plane, v: Plane, f: u32, w: nat, h: nat, cw: nat, ch: nat)
    requires y.In(data) && u.In(data) && v.In(data) && 0 < f
    requires w * f <= y.cols && h * f <= y.rows
    requires cw * f <= u.cols && ch * f <= u.rows && cw * f <= v.cols && ch * f <= v.rows
    ensures var out := Decimated(data, y, f, w, h, h)
                       + Decimated(data, u, f, cw, ch, ch) + Decimated(data, v, f, cw, ch, ch);
            && |out| == Area(h, w) + 2 * Area(ch, cw)
            && ShowsPlane(out, 0, data, y, f, w, h)
            && ShowsPlane(out, Area(h, w), data, u, f, cw, ch)
            && ShowsPlane(out, Area(h, w) + Area(ch, cw), data, v, f, cw, ch)
  {
    hide *;
    DecimatedSize(data, y, f, w, h);
    DecimatedSize(data, u, f, cw, ch);
    DecimatedSize(data, v, f, cw, ch);
    var a, b, c := Decimated(data, y, f, w, h, h), Decimated(data, u, f, cw, ch, ch), Decimated(data, v, f, cw, ch, ch);
    ShowsDecimated([], b + c, data, y, f, w, h);
    ShowsDecimated(a, c, data, u, f, cw, ch);
    ShowsDecimated(a + b, [], data, v, f, cw, ch);
    assert [] + a + (b + c) == a + b + c && a + b + c + [] == a + b + c;
  }

  lemma DecimatedSize(data: seq<byte>, p: Plane, f: u32, w: nat, h: nat)
    requires p.In(data) && 0 < f && w * f <= p.cols && h * f <= p.rows
    ensures |Decimated(data, p, f, w, h, h)| == Area(h, w)
  {
  }

  lemma LayoutIs(src: FrameData)
    ensures LumaPlane(src) == Plane(0, src.stride, src.width, src.height)
    ensures ChromaPlane(src, 0) == Chroma(src, Area(src.stride, src.height))
    ensures ChromaPlane(src, 1) == Chroma(src, Area(src.stride, src.height) + ChromaArea(src))
    ensures Needed(src) == Area(src.stride, src.height) + 2 * ChromaArea(src)
  {
  }

  lemma SubsampledIs(src: FrameData, factor: u32)
    requires src.width <= src.stride
    ensures IsDecimation(src, factor, Subsampled(src, factor))
  {
    if 2 <= factor {
      HalvedTwice(src.width, factor);
      HalvedTwice(src.height, factor);
      LayoutIs(src);
      hide Needed, LumaPlane, ChromaPlane, Area, ChromaArea, Chroma, Scaled, Decimated, ShowsPlane, Plane.In;
      if !GeometryOnly(src, factor) {
        var w, h := Scaled(src.width, factor), Scaled(src.height, factor);
        PlanesFit(src, factor);
        ThreeShown(src.data, LumaPlane(src), ChromaPlane(src, 0), ChromaPlane(src, 1), factor, w, h, w / 2, h / 2);
      }
    }
  }

  // ---- in place ---------------------------------------------------------------------------

  /** `b` with the bytes from `at` on replaced by `part`. */
  function Patched(b: seq<byte>, at: nat, part: seq<byte>): (c: seq<byte>)
    requires at + |part| <= |b|
    ensures |c| == |b|
  {
    b[..at] + part + b[at + |part|..]
  }

  lemma PatchedNone(b: seq<byte>, at: nat)
    requires at <= |b|
    ensures Patched(b, at, []) == b
  {
  }

  lemma PatchedTwice(b: seq<byte>, at: nat, first: seq<byte>, second: seq<byte>)
    requires at + |first| + |second| <= |b|
    ensures Patched(Patched(b, at, first), at + |first|, second) == Patched(b, at, first + second)
  {
  }

  /** `decimatePlane`: the plane's means from `at` on; nothing else changes. */
  method DecimatePlane(src: seq<byte>, p: Plane, factor: u32, dst: array<byte>, at: nat, w: nat, h: nat)
    requires p.In(src) && 2 <= factor <= MAX_FACTOR
    requires w * factor <= p.cols && h * factor <= p.rows
    requires at + h * w <= dst.Length
    modifies dst
    ensures dst[..] == Patched(old(dst[..]), at, Decimated(src, p, factor, w, h, h))
  {
    hide *;
    NoRows(src, p, factor, w, h);
    PatchedNone(dst[..], at);
    ghost var before := dst[..];
    var oy, next := 0, at;
    while oy < h
      invariant oy <= h && next == at + |Decimated(src, p, factor, w, h, oy)| <= dst.Length
      invariant dst[..] == Patched(before, at, Decimated(src, p, factor, w, h, oy))
    {
      OneRowMore(src, p, factor, w, h, oy);
      RowFits(oy, w, h);
      DecimateRow(src, p, factor, dst, next, w, h, oy);
      PatchedTwice(before, at, Decimated(src, p, factor, w, h, oy), DecimatedRow(src, p, factor, w, h, oy, w));
      oy, next := oy + 1, next + w;
    }
  }

  lemma RowFits(oy: nat, w: nat, h: nat)
    requires oy < h
    ensures oy * w + w <= h * w
  {
    Next(oy, w);
    Monotone(oy + 1, h, w);
  }

  lemma NoRows(src: seq<byte>, p: Plane, f: nat, w: nat, h: nat)
    requires p.In(src) && 0 < f && w * f <= p.cols && h * f <= p.rows
    ensures Decimated(src, p, f, w, h, 0) == [] && 0 * w == 0 && 0 <= h * w
  {
  }

  lemma OneRowMore(src: seq<byte>, p: Plane, f: nat, w: nat, h: nat, oy: nat)
    requires p.In(src) && 0 < f && w * f <= p.cols && h * f <= p.rows && oy < h
    ensures Decimated(src, p, f, w, h, oy + 1) ==
            Decimated(src, p, f, w, h, oy) + DecimatedRow(src, p, f, w, h, oy, w)
  {
    hide DecimatedRow;
  }

  /** One output row. */
  method DecimateRow(src: seq<byte>, p: Plane, factor: u32, dst: array<byte>, at: nat, w: nat, h: nat, oy: nat)
    requires p.In(src) && 2 <= factor <= MAX_FACTOR
    requires w * factor <= p.cols && h * factor <= p.rows && oy < h
    requires at + w <= dst.Length
    modifies dst
    ensures dst[..] == Patched(old(dst[..]), at, DecimatedRow(src, p, factor, w, h, oy, w))
  {
    hide *;
    SmallFactor(factor);
    NoMeans(src, p, factor, w, h, oy);
    PatchedNone(dst[..], at);
    ghost var before := dst[..];
    var ox := 0;
    while ox < w
      invariant ox <= w
      invariant dst[..] == Patched(before, at, DecimatedRow(src, p, factor, w, h, oy, ox))
    {
      BlockInside(p, factor, w, h, ox, oy);
      var mean := BlockMean(src, p, factor, ox, oy);
      OneMeanMore(src, p, factor, w, h, oy, ox);
      ghost var row := DecimatedRow(src, p, factor, w, h, oy, ox);
      PatchedTwice(before, at, row, [mean]);
      PatchedOne(dst[..], at + ox, mean);
      dst[at + ox] := mean;
      ox := ox + 1;
    }
  }

  lemma SmallFactor(f: u32)
    requires 2 <= f <= MAX_FACTOR
    ensures Norm(f) != 0
  {
    SmallSquare(f);
  }

  lemma PatchedOne(b: seq<byte>, i: nat, x: byte)
    requires i < |b|
    ensures b[i := x] == Patched(b, i, [x])
  {
  }

  lemma NoMeans(src: seq<byte>, p: Plane, f: nat, w: nat, h: nat, oy: nat)
    requires p.In(src) && 0 < f && w * f <= p.cols && h * f <= p.rows && oy < h
    ensures DecimatedRow(src, p, f, w, h, oy, 0) == []
  {
  }

  lemma OneMeanMore(src: seq<byte>, p: Plane, f: nat, w: nat, h: nat, oy: nat, ox: nat)
    requires p.In(src) && 0 < f && w * f <= p.cols && h * f <= p.rows && oy < h && ox < w
    ensures ox * f + f <= p.cols && oy * f + f <= p.rows
    ensures DecimatedRow(src, p, f, w, h, oy, ox + 1) ==
            DecimatedRow(src, p, f, w, h, oy, ox) + [Mean(src, p, f, ox, oy)]
  {
    BlockInside(p, f, w, h, ox, oy);
    hide Mean;
  }

  /** The inner loops: one block, summed in 32 bits. */
  method BlockMean(src: seq<byte>, p: Plane, factor: u32, ox: nat, oy: nat) returns (mean: byte)
    requires p.In(src) && 2 <= factor && Norm(factor) != 0
    requires ox * factor + factor <= p.cols && oy * factor + factor <= p.rows
    ensures mean == MachineMean(BlockSum(src, p, ox * factor, oy * factor, factor, factor), factor)
    ensures factor <= MAX_FACTOR ==> mean == Mean(src, p, factor, ox, oy)
  {
    var norm := U32(factor * factor);
    var half: u32 := norm / 2;
    ghost var s := BlockSum(src, p, ox * factor, oy * factor, factor, factor);
    var sum := AddBlock(src, p, factor, ox * factor, oy * factor);
    hide *;
    U32Adds(s, half);
    var total := U32(sum + half);
    MeanIsMachine(src, p, factor, ox, oy);
    MachineMeanIs(s, factor);
    Quotient(total, norm);
    mean := (total / norm) % 0x100;
  }

  /** The sum of a block in 32 bits, row by row. */
  method AddBlock(src: seq<byte>, p: Plane, factor: u32, x: nat, y: nat) returns (sum: u32)
    requires p.In(src) && x + factor <= p.cols && y + factor <= p.rows
    ensures sum == U32(BlockSum(src, p, x, y, factor, factor))
  {
    hide *;
    U32Small(0);
    NoRowsSummed(src, p, x, y, factor);
    sum := 0;
    var j := 0;
    while j < factor
      invariant j <= factor
      invariant sum == U32(BlockSum(src, p, x, y, factor, j))
    {
      BlockGrows(src, p, x, y, factor, j);
      sum := AddRow(src, p, factor, x, y + j, sum, BlockSum(src, p, x, y, factor, j));
      j := j + 1;
    }
  }

  lemma MachineMeanIs(s: nat, factor: u32)
    requires Norm(factor) != 0
    ensures Norm(factor) == U32(factor * factor)
    ensures MachineMean(s, factor) == (U32(s + Norm(factor) / 2) / Norm(factor)) % 0x100
  {
  }

  lemma MeanIsMachine(src: seq<byte>, p: Plane, factor: u32, ox: nat, oy: nat)
    requires p.In(src) && 2 <= factor && Norm(factor) != 0
    requires ox * factor + factor <= p.cols && oy * factor + factor <= p.rows
    ensures factor <= MAX_FACTOR ==>
              Mean(src, p, factor, ox, oy)
              == MachineMean(BlockSum(src, p, ox * factor, oy * factor, factor, factor), factor)
  {
    hide BlockSum, RowSum, Sample, Norm;
    if factor <= MAX_FACTOR {
      SmallIsRight(BlockSum(src, p, ox * factor, oy * factor, factor, factor), factor);
      hide MachineMean;
    }
  }

  /** One row of a block, added to `start`. */
  method AddRow(src: seq<byte>, p: Plane, factor: u32, x: nat, y: nat, start: u32, ghost before: nat)
    returns (sum: u32)
    requires p.In(src) && x + factor <= p.cols && y < p.rows && start == U32(before)
    ensures sum == U32(before + RowSum(src, p, x, y, factor))
  {
    hide *;
    NoSamples(src, p, x, y);
    var row := RowStart(p, x, y);
    sum := start;
    var i := 0;
    while i < factor
      invariant i <= factor
      invariant sum == U32(before + RowSum(src, p, x, y, i))
    {
      SampleAdded(src, p, x, y, i, factor, before);
      sum := U32(sum + src[row + i]);
      i := i + 1;
    }
  }

  lemma NoRowsSummed(data: seq<byte>, p: Plane, x: nat, y: nat, f: nat)
    requires p.In(data) && x + f <= p.cols && y <= p.rows
    ensures BlockSum(data, p, x, y, f, 0) == 0
  {
  }

  lemma NoSamples(data: seq<byte>, p: Plane, x: nat, y: nat)
    requires p.In(data) && x <= p.cols && y < p.rows
    ensures RowSum(data, p, x, y, 0) == 0
  {
  }

  /** One more sample of a row, added in 32 bits. */
  lemma SampleAdded(data: seq<byte>, p: Plane, x: nat, y: nat, i: nat, f: nat, before: nat)
    requires p.In(data) && x + f <= p.cols && y < p.rows && i < f
    ensures RowStart(p, x, y) + i < |data|
    ensures U32(U32(before + RowSum(data, p, x, y, i)) + data[RowStart(p, x, y) + i])
            == U32(before + RowSum(data, p, x, y, i + 1))
  {
    hide *;
    RowSumGrows(data, p, x, y, i, f);
    InRow(data, p, x, y, i);
    U32Adds(before + RowSum(data, p, x, y, i), data[RowStart(p, x, y) + i]);
  }

  /** Where row `y` of a plane stands, from column `x` on. */
  function RowStart(p: Plane, x: nat, y: nat): nat {
    AreaSigns(y, p.stride, 0, 0);
    p.base + y * p.stride + x
  }

  lemma InRow(data: seq<byte>, p: Plane, x: nat, y: nat, i: nat)
    requires p.In(data) && x + i < p.cols && y < p.rows
    ensures RowStart(p, x, y) + i < |data| && data[RowStart(p, x, y) + i] == Sample(data, p, x + i, y)
  {
    SampleAt(data, p, x + i, y);
    hide Sample;
  }

  lemma BlockGrows(data: seq<byte>, p: Plane, x: nat, y: nat, f: nat, n: nat)
    requires p.In(data) && x + f <= p.cols && y + n < p.rows
    ensures BlockSum(data, p, x, y, f, n + 1) == BlockSum(data, p, x, y, f, n) + RowSum(data, p, x, y + n, f)
  {
    hide RowSum;
  }

  lemma SampleAt(data: seq<byte>, p: Plane, x: nat, y: nat)
    requires p.In(data) && x < p.cols && y < p.rows
    ensures 0 <= p.base + y * p.stride + x < |data|
    ensures data[p.base + y * p.stride + x] == Sample(data, p, x, y)
  {
    RowInside(p, y);
  }

  lemma {:induction false} RowSumGrows(data: seq<byte>, p: Plane, x: nat, y: nat, n: nat, f: nat)
    requires p.In(data) && x + f <= p.cols && y < p.rows && n < f
    ensures RowSum(data, p, x, y, n + 1) == RowSum(data, p, x, y, n) + Sample(data, p, x + n, y)
    ensures RowSum(data, p, x, y, n + 1) <= RowSum(data, p, x, y, f)
    decreases f - n
  {
    hide Sample;
    if n + 1 < f { RowSumGrows(data, p, x, y, n + 1, f); }
  }

  method SubsampleYuv420(src: FrameData, factor: u32) returns (out: FrameData)
    requires src.width <= src.stride && factor <= MAX_FACTOR
    ensures out == Subsampled(src, factor) && IsDecimation(src, factor, out)
  {
    SubsampledIs(src, factor);
    hide Scaled, Payload420, Needed, IsDecimation;
    if factor <= 1 { return src; }
    out := Shrunk(src, factor);
    var needed := Needed(src);
    if Scaled(src.width, factor) == 0 || Scaled(src.height, factor) == 0 || |src.data| < needed {
      return out;
    }
    var data := SubsamplePlanes(src, factor);
    out := out.(data := data);
  }

  method SubsamplePlanes(src: FrameData, factor: u32) returns (r: seq<byte>)
    requires src.width <= src.stride && Needed(src) <= |src.data| && 2 <= factor <= MAX_FACTOR
    ensures r == Payload420(src, factor)
  {
    var w, h := Scaled(src.width, factor), Scaled(src.height, factor);
    PlanesFit(src, factor);
    r := PackPlanes(src.data, LumaPlane(src), ChromaPlane(src, 0), ChromaPlane(src, 1), factor,
                    w, h, w / 2, h / 2);
  }

  /** The output buffer, filled plane by plane. */
  method PackPlanes(src: seq<byte>, y: Plane, u: Plane, v: Plane, factor: u32,
                    w: nat, h: nat, uvW: nat, uvH: nat) returns (r: seq<byte>)
    requires y.In(src) && u.In(src) && v.In(src) && 2 <= factor <= MAX_FACTOR
    requires w * factor <= y.cols && h * factor <= y.rows
    requires uvW * factor <= u.cols && uvH * factor <= u.rows
    requires uvW * factor <= v.cols && uvH * factor <= v.rows
    ensures r == Decimated(src, y, factor, w, h, h) + Decimated(src, u, factor, uvW, uvH, uvH)
                 + Decimated(src, v, factor, uvW, uvH, uvH)
  {
    hide *;
    AreaSigns(h, w, uvH, uvW);
    var dstY: nat, dstUv: nat := h * w, uvH * uvW;
    var data := new byte[dstY + 2 * dstUv];
    ghost var empty := data[..];
    DecimatePlane(src, y, factor, data, 0, w, h);
    DecimatePlane(src, u, factor, data, dstY, uvW, uvH);
    DecimatePlane(src, v, factor, data, dstY + dstUv, uvW, uvH);
    ThreePlanes(empty, Decimated(src, y, factor, w, h, h), Decimated(src, u, factor, uvW, uvH, uvH),
                Decimated(src, v, factor, uvW, uvH, uvH));
    r := data[..];
  }

  lemma ThreePlanes(b: seq<byte>, x: seq<byte>, y: seq<byte>, z: seq<byte>)
    requires |b| == |x| + |y| + |z|
    ensures Patched(Patched(Patched(b, 0, x), |x|, y), |x| + |y|, z) == x + y + z
  {
    PatchedTwice(b, 0, x, y);
    PatchedTwice(b, 0, x + y, z);
  }

  lemma AreaSigns(a: nat, b: nat, c: nat, d: nat)
    ensures a * b >= 0 && c * d >= 0
  {
  }
}
