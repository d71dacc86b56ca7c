/** The samples of one 8-bit plane and the rounded means of its blocks
    (src/frame_subsample.cpp:9-28). */
module Planes {
  import opened Types
  import opened Products
  import opened Sums

  /** A plane inside a buffer: its visible columns and rows, and the distance
      from one row to the next. Columns from `cols` on are padding. */
  datatype Plane = Plane(base: nat, stride: nat, cols: nat, rows: nat)
  {
    predicate In(data: seq<byte>) { cols <= stride && base + rows * stride <= |data| }

    function End(): nat { base + rows * stride }
  }

  lemma RowInside(p: Plane, y: nat)
    requires y < p.rows
    ensures p.base + y * p.stride + p.stride <= p.End()
  {
    Next(y, p.stride);
    Monotone(y + 1, p.rows, p.stride);
  }

  function Sample(data: seq<byte>, p: Plane, x: nat, y: nat): byte
    requires p.In(data) && x < p.cols && y < p.rows
  {
    RowInside(p, y);
    data[p.base + y * p.stride + x]
  }

  /** The samples `x`, ..., `x + n - 1` of row `y`. */
  function RowSum(data: seq<byte>, p: Plane, x: nat, y: nat, n: nat): (s: nat)
    requires p.In(data) && x + n <= p.cols && y < p.rows
    ensures s <= 255 * n
  {
    if n == 0 then 0 else RowSum(data, p, x, y, n - 1) + Sample(data, p, x + n - 1, y)
  }

  /** `n` rows of `f` samples from (`x`, `y`) on. */
  function BlockSum(data: seq<byte>, p: Plane, x: nat, y: nat, f: nat, n: nat): (s: nat)
    requires p.In(data) && x + f <= p.cols && y + n <= p.rows
    ensures s <= 255 * (f * n)
  {
    if n == 0 then 0
    else
      Next(n - 1, f);
      BlockSum(data, p, x, y, f, n - 1) + RowSum(data, p, x, y + n - 1, f)
  }

  /** `(sum + norm / 2) / norm`. */
  function Rounded(sum: nat, norm: nat): nat
    requires norm > 0
  {
    (sum + norm / 2) / norm
  }

  /** The quotient is the nearest integer, the larger one of two. */
  lemma RoundedNearest(sum: nat, norm: nat)
    requires norm > 0
    ensures 2 * sum - norm < 2 * (Rounded(sum, norm) * norm) <= 2 * sum + norm
  {
    var q := Rounded(sum, norm);
    var t := sum + norm / 2;
    assert t == q * norm + t % norm;
  }

  lemma RoundedBetween(sum: nat, norm: nat, lo: nat, hi: nat)
    requires norm > 0 && lo * norm <= sum <= hi * norm
    ensures lo <= Rounded(sum, norm) <= hi
  {
    var q := Rounded(sum, norm);
    RoundedNearest(sum, norm);
    Next(q, norm);
    Next(hi, norm);
    if q < lo { Monotone(q + 1, lo, norm); }
    if q > hi { Monotone(hi + 1, q, norm); }
  }

  /** The block of output sample (`ox`, `oy`) lies inside the plane. */
  lemma BlockInside(p: Plane, f: nat, w: nat, h: nat, ox: nat, oy: nat)
    requires w * f <= p.cols && h * f <= p.rows && ox < w && oy < h
    ensures ox * f + f <= p.cols && oy * f + f <= p.rows
  {
    Next(ox, f);
    Next(oy, f);
    Monotone(ox + 1, w, f);
    Monotone(oy + 1, h, f);
  }

  function Mean(data: seq<byte>, p: Plane, f: nat, ox: nat, oy: nat): byte
    requires p.In(data) && 0 < f && ox * f + f <= p.cols && oy * f + f <= p.rows
  {
    RoundedBetween(BlockSum(data, p, ox * f, oy * f, f, f), f * f, 0, 255);
    Rounded(BlockSum(data, p, ox * f, oy * f, f, f), f * f)
  }

  function DecimatedRow(data: seq<byte>, p: Plane, f: nat, w: nat, h: nat, oy: nat, n: nat): (r: seq<byte>)
    requires p.In(data) && 0 < f && w * f <= p.cols && h * f <= p.rows && oy < h && n <= w
    ensures |r| == n
  {
    if n == 0 then []
    else
      BlockInside(p, f, w, h, n - 1, oy);
      DecimatedRow(data, p, f, w, h, oy, n - 1) + [Mean(data, p, f, n - 1, oy)]
  }

  /** The first `n` rows of the decimated plane, tightly packed. */
  function Decimated(data: seq<byte>, p: Plane, f: nat, w: nat, h: nat, n: nat): (r: seq<byte>)
    requires p.In(data) && 0 < f && w * f <= p.cols && h * f <= p.rows && n <= h
    ensures |r| == n * w
  {
    if n == 0 then []
    else Decimated(data, p, f, w, h, n - 1) + DecimatedRow(data, p, f, w, h, n - 1, w)
  }

  lemma {:induction false} RowAt(data: seq<byte>, p: Plane, f: nat, w: nat, h: nat, ox: nat, oy: nat, n: nat)
    requires p.In(data) && 0 < f && w * f <= p.cols && h * f <= p.rows && oy < h && ox < n <= w
    ensures ox * f + f <= p.cols && oy * f + f <= p.rows
    ensures DecimatedRow(data, p, f, w, h, oy, n)[ox] == Mean(data, p, f, ox, oy)
  {
    hide Mean;
    BlockInside(p, f, w, h, ox, oy);
    if ox < n - 1 { RowAt(data, p, f, w, h, ox, oy, n - 1); }
  }

  lemma {:induction false} DecimatedAt(data: seq<byte>, p: Plane, f: nat, w: nat, h: nat, ox: nat, oy: nat, n: nat)
    requires p.In(data) && 0 < f && w * f <= p.cols && h * f <= p.rows && oy < n <= h && ox < w
    ensures ox * f + f <= p.cols && oy * f + f <= p.rows
    ensures 0 <= oy * w + ox < n * w
    ensures Decimated(data, p, f, w, h, n)[oy * w + ox] == Mean(data, p, f, ox, oy)
  {
    BlockInside(p, f, w, h, ox, oy);
    Next(oy, w);
    Next(n - 1, w);
    Monotone(oy + 1, n, w);
    assert Decimated(data, p, f, w, h, n) ==
           Decimated(data, p, f, w, h, n - 1) + DecimatedRow(data, p, f, w, h, n - 1, w);
    hide *;
    if oy == n - 1 {
      RowAt(data, p, f, w, h, ox, oy, w);
    } else {
      DecimatedAt(data, p, f, w, h, ox, oy, n - 1);
    }
  }

  // ---- what a mean says ------------------------------------------------------------------

  lemma {:induction false} RowBetween(data: seq<byte>, p: Plane, x: nat, y: nat, n: nat, lo: nat, hi: nat)
    requires p.In(data) && x + n <= p.cols && y < p.rows
    requires forall i :: x <= i < x + n ==> lo <= Sample(data, p, i, y) <= hi
    ensures lo * n <= RowSum(data, p, x, y, n) <= hi * n
  {
    if n > 0 {
      RowBetween(data, p, x, y, n - 1, lo, hi);
      Next(n - 1, lo);
      Next(n - 1, hi);
      assert lo <= Sample(data, p, x + n - 1, y) <= hi;
    }
  }

  ghost predicate BlockWithin(data: seq<byte>, p: Plane, x: nat, y: nat, f: nat, n: nat, lo: nat, hi: nat)
    requires p.In(data) && x + f <= p.cols && y + n <= p.rows
  {
    forall i, j :: x <= i < x + f && y <= j < y + n ==> lo <= Sample(data, p, i, j) <= hi
  }

  lemma {:induction false} SumBetween(data: seq<byte>, p: Plane, x: nat, y: nat, f: nat, n: nat, lo: nat, hi: nat)
    requires p.In(data) && x + f <= p.cols && y + n <= p.rows
    requires BlockWithin(data, p, x, y, f, n, lo, hi)
    ensures lo * (f * n) <= BlockSum(data, p, x, y, f, n) <= hi * (f * n)
  {
    if n > 0 {
      SumBetween(data, p, x, y, f, n - 1, lo, hi);
      RowBetween(data, p, x, y + n - 1, f, lo, hi);
      hide Sample, RowSum, BlockWithin;
      Next(n - 1, f);
      Distributes(lo, f * (n - 1), f);
      Distributes(hi, f * (n - 1), f);
    }
  }

  /** The `n` samples of row `y` from `x` on. */
  function RowSamples(data: seq<byte>, p: Plane, x: nat, y: nat, n: nat): (r: seq<nat>)
    requires p.In(data) && x + n <= p.cols && y < p.rows
    ensures |r| == n
  {
    seq<nat>(n, i requires 0 <= i < n => var v: nat := Sample(data, p, x + i, y); v)
  }

  /** The sums of the `n` rows of a block. */
  function RowTotals(data: seq<byte>, p: Plane, x: nat, y: nat, f: nat, n: nat): (r: seq<nat>)
    requires p.In(data) && x + f <= p.cols && y + n <= p.rows
    ensures |r| == n
  {
    seq<nat>(n, j requires 0 <= j < n => Sum(RowSamples(data, p, x, y + j, f)))
  }

  lemma OneMore(s: seq<nat>, a: nat)
    ensures Sum(s + [a]) == Sum(s) + a
  {
    SumConcat(s, [a]);
    assert [a][1..] == [];
    assert Sum([a]) == a + Sum([a][1..]);
  }

  lemma {:induction false} RowIsSum(data: seq<byte>, p: Plane, x: nat, y: nat, n: nat)
    requires p.In(data) && x + n <= p.cols && y < p.rows
    ensures RowSum(data, p, x, y, n) == Sum(RowSamples(data, p, x, y, n))
  {
    if n > 0 {
      RowIsSum(data, p, x, y, n - 1);
      hide Sample;
      OneMore(RowSamples(data, p, x, y, n - 1), Sample(data, p, x + n - 1, y));
      assert RowSamples(data, p, x, y, n) == RowSamples(data, p, x, y, n - 1) + [Sample(data, p, x + n - 1, y)];
    }
  }

  /** The block sum takes in every sample of the block, each once. */
  lemma {:induction false} BlockIsSum(data: seq<byte>, p: Plane, x: nat, y: nat, f: nat, n: nat)
    requires p.In(data) && x + f <= p.cols && y + n <= p.rows
    ensures BlockSum(data, p, x, y, f, n) == Sum(RowTotals(data, p, x, y, f, n))
  {
    if n > 0 {
      BlockIsSum(data, p, x, y, f, n - 1);
      RowIsSum(data, p, x, y + n - 1, f);
      hide RowSum, RowSamples;
      var last := Sum(RowSamples(data, p, x, y + n - 1, f));
      OneMore(RowTotals(data, p, x, y, f, n - 1), last);
      assert RowTotals(data, p, x, y, f, n) == RowTotals(data, p, x, y, f, n - 1) + [last];
    }
  }

  /** An output sample is the sum of all samples of its block over their number, rounded
      to nearest, and lies between the smallest and the largest of them. */
  lemma MeanIsRoundedAverage(data: seq<byte>, p: Plane, f: nat, ox: nat, oy: nat, lo: nat, hi: nat)
    requires p.In(data) && 0 < f && ox * f + f <= p.cols && oy * f + f <= p.rows
    requires BlockWithin(data, p, ox * f, oy * f, f, f, lo, hi)
    ensures lo <= Mean(data, p, f, ox, oy) <= hi
    ensures var s := Sum(RowTotals(data, p, ox * f, oy * f, f, f));
            2 * s - f * f < 2 * (Mean(data, p, f, ox, oy) * (f * f)) <= 2 * s + f * f
  {
    BlockIsSum(data, p, ox * f, oy * f, f, f);
    SumBetween(data, p, ox * f, oy * f, f, f, lo, hi);
    RoundedBetween(BlockSum(data, p, ox * f, oy * f, f, f), f * f, lo, hi);
    RoundedNearest(BlockSum(data, p, ox * f, oy * f, f, f), f * f);
    hide BlockSum, Rounded, RowTotals;
  }

  // ---- padding ------------------------------------------------------------------------------

  /** The two buffers show the same picture: they may differ in the padding and
      outside the plane. */
  ghost predicate SamePicture(a: seq<byte>, b: seq<byte>, p: Plane)
    requires p.In(a) && p.In(b)
  {
    forall x, y :: 0 <= x < p.cols && 0 <= y < p.rows ==> Sample(a, p, x, y) == Sample(b, p, x, y)
  }

  lemma {:induction false} SameRowSum(a: seq<byte>, b: seq<byte>, p: Plane, x: nat, y: nat, n: nat)
    requires p.In(a) && p.In(b) && SamePicture(a, b, p) && x + n <= p.cols && y < p.rows
    ensures RowSum(a, p, x, y, n) == RowSum(b, p, x, y, n)
  {
    hide Sample;
    if n > 0 { SameRowSum(a, b, p, x, y, n - 1); }
  }

  lemma {:induction false} SameBlockSum(a: seq<byte>, b: seq<byte>, p: Plane, x: nat, y: nat, f: nat, n: nat)
    requires p.In(a) && p.In(b) && SamePicture(a, b, p) && x + f <= p.cols && y + n <= p.rows
    ensures BlockSum(a, p, x, y, f, n) == BlockSum(b, p, x, y, f, n)
  {
    if n > 0 {
      SameBlockSum(a, b, p, x, y, f, n - 1);
      SameRowSum(a, b, p, x, y + n - 1, f);
    }
  }

  lemma {:induction false} SameRow(a: seq<byte>, b: seq<byte>, p: Plane, f: nat, w: nat, h: nat, oy: nat, n: nat)
    requires p.In(a) && p.In(b) && SamePicture(a, b, p)
    requires 0 < f && w * f <= p.cols && h * f <= p.rows && oy < h && n <= w
    ensures DecimatedRow(a, p, f, w, h, oy, n) == DecimatedRow(b, p, f, w, h, oy, n)
  {
    hide BlockSum, Rounded, SamePicture, Mean, Sample;
    if n > 0 {
      BlockInside(p, f, w, h, n - 1, oy);
      SameMean(a, b, p, f, n - 1, oy);
      SameRow(a, b, p, f, w, h, oy, n - 1);
    }
  }

  lemma SameMean(a: seq<byte>, b: seq<byte>, p: Plane, f: nat, ox: nat, oy: nat)
    requires p.In(a) && p.In(b) && SamePicture(a, b, p)
    requires 0 < f && ox * f + f <= p.cols && oy * f + f <= p.rows
    ensures Mean(a, p, f, ox, oy) == Mean(b, p, f, ox, oy)
  {
    hide BlockSum, Rounded, SamePicture, Sample;
    SameBlockSum(a, b, p, ox * f, oy * f, f, f);
  }

  /** Decimation looks at the visible samples of its own plane and at nothing else. */
  lemma {:induction false} PaddingIgnored(a: seq<byte>, b: seq<byte>, p: Plane, f: nat, w: nat, h: nat, n: nat)
    requires p.In(a) && p.In(b) && SamePicture(a, b, p)
    requires 0 < f && w * f <= p.cols && h * f <= p.rows && n <= h
    ensures Decimated(a, p, f, w, h, n) == Decimated(b, p, f, w, h, n)
  {
    hide DecimatedRow, SamePicture;
    if n > 0 {
      SameRow(a, b, p, f, w, h, n - 1, w);
      PaddingIgnored(a, b, p, f, w, h, n - 1);
    }
  }
}
