/** `--split2x2` of the converter (tools/yuv420_convert.cpp:180-240): four
    quadrants of an image, each written under a camera id of its own. */
module Quadrants {
  import opened Types
  import opened FileNames

  datatype Rect = Rect(x: nat, y: nat, w: nat, h: nat)
  {
    predicate Contains(px: int, py: int) { x <= px < x + w && y <= py < y + h }

    predicate In(cols: nat, rows: nat) { x + w <= cols && y + h <= rows }
  }

  /** Rows of pixels, all of the same width. */
  type Image = seq<seq<byte>>

  predicate Shaped(img: Image, cols: nat, rows: nat) {
    |img| == rows && forall y :: 0 <= y < rows ==> |img[y]| == cols
  }

  /** The four rectangles: left and top get the smaller half of an odd size. */
  function Quad(q: nat, cols: nat, rows: nat): (r: Rect)
    requires q < 4
    ensures r.In(cols, rows)
  {
    var wl, ht := cols / 2, rows / 2;
    var wr, hb := cols - wl, rows - ht;
    if q == 0 then Rect(0, 0, wl, ht)
    else if q == 1 then Rect(wl, 0, wr, ht)
    else if q == 2 then Rect(0, ht, wl, hb)
    else Rect(wl, ht, wr, hb)
  }

  function Crop(img: Image, r: Rect, cols: nat, rows: nat): (c: Image)
    requires Shaped(img, cols, rows) && r.In(cols, rows)
    ensures Shaped(c, r.w, r.h)
  {
    seq(r.h, y requires 0 <= y < r.h => img[r.y + y][r.x..r.x + r.w])
  }

  function Reversed(row: seq<byte>): (r: seq<byte>)
    ensures |r| == |row|
  {
    seq(|row|, x requires 0 <= x < |row| => row[|row| - 1 - x])
  }

  function Rotated(img: Image, cols: nat, rows: nat): (c: Image)
    requires Shaped(img, cols, rows)
    ensures Shaped(c, cols, rows)
  {
    seq(rows, y requires 0 <= y < rows => Reversed(img[rows - 1 - y]))
  }

  /** Where a rectangle ends up when the whole image is turned by half a turn. */
  function Mirror(r: Rect, cols: nat, rows: nat): (m: Rect)
    requires r.In(cols, rows)
    ensures m.In(cols, rows)
  {
    Rect(cols - r.x - r.w, rows - r.y - r.h, r.w, r.h)
  }

  /** `camera_id * 4 + q` in 32 bits. */
  function QuadrantCamera(camera: u32, q: nat): u32
    requires q < 4
  {
    (camera * 4 + q) % 0x1_0000_0000
  }

  /** `dir / name`. */
  function Within(dir: string): (s: string)
    ensures Prefix(s)
  {
    if dir == [] || dir[|dir| - 1] == '/' then dir else dir + "/"
  }

  function QuadrantPath(dir: string, camera: u32, frame: u32, ext: string, q: nat): string
    requires q < 4
  {
    Within(dir) + ("cam" + Decimal(QuadrantCamera(camera, q)) + "-" + Decimal(frame) + ext)
  }

  /** One call of `imwrite`. */
  datatype Write = Write(path: string, image: Image)

  function WriteOf(full: Image, cols: nat, rows: nat, dir: string, camera: u32, frame: u32, ext: string,
                   rotate180: bool, q: nat): Write
    requires Shaped(full, cols, rows) && q < 4
  {
    var rect := Quad(q, cols, rows);
    var quad := Crop(full, rect, cols, rows);
    Write(QuadrantPath(dir, camera, frame, ext, q),
          if rotate180 then Rotated(quad, rect.w, rect.h) else quad)
  }

  /** `image` shows quadrant `q` of `full`: 0 upper-left, 1 upper-right, 2 bottom-left,
      3 bottom-right, the left and the top ones with the smaller half of an odd size; as it
      is, or turned by half a turn. */
  predicate Shows(image: Image, full: Image, cols: nat, rows: nat, rotate180: bool, q: nat)
    requires Shaped(full, cols, rows) && q < 4
  {
    var left, w := if q % 2 == 0 then 0 else cols / 2, if q % 2 == 0 then cols / 2 else cols - cols / 2;
    var top, h := if q < 2 then 0 else rows / 2, if q < 2 then rows / 2 else rows - rows / 2;
    && |image| == h && (forall y :: 0 <= y < h ==> |image[y]| == w)
    && forall y, x :: 0 <= y < h && 0 <= x < w ==>
         image[y][x] == if rotate180 then full[top + h - 1 - y][left + w - 1 - x] else full[top + y][left + x]
  }

  lemma WritesQuadrant(full: Image, cols: nat, rows: nat, dir: string, camera: u32, frame: u32, ext: string,
                       rotate180: bool, q: nat)
    requires Shaped(full, cols, rows) && q < 4
    ensures var write := WriteOf(full, cols, rows, dir, camera, frame, ext, rotate180, q);
            && Shows(write.image, full, cols, rows, rotate180, q)
            && write.path == Within(dir) + ("cam" + Decimal((camera * 4 + q) % 0x1_0000_0000)
                                            + "-" + Decimal(frame) + ext)
  {
    hide Decimal, Within, Shaped, Crop, Rotated, Shows;
    var r := Quad(q, cols, rows);
    CropPixels(full, r, cols, rows);
    var quad := Crop(full, r, cols, rows);
    if rotate180 { TurnedPixels(quad, r.w, r.h); }
    ShowsAs(if rotate180 then Rotated(quad, r.w, r.h) else quad, quad, full, cols, rows, rotate180, q);
  }

  /** The pixels of a crop, turned or not, are those the quadrant shows. */
  lemma ShowsAs(image: Image, quad: Image, full: Image, cols: nat, rows: nat, rotate180: bool, q: nat)
    requires Shaped(full, cols, rows) && q < 4
    requires var r := Quad(q, cols, rows);
             && Shaped(quad, r.w, r.h) && Shaped(image, r.w, r.h)
             && forall y, x :: 0 <= y < r.h && 0 <= x < r.w ==> quad[y][x] == full[r.y + y][r.x + x]
    requires var r := Quad(q, cols, rows);
             if rotate180 then forall y, x :: 0 <= y < r.h && 0 <= x < r.w ==>
                                 image[y][x] == quad[r.h - 1 - y][r.w - 1 - x]
             else image == quad
    ensures Shows(image, full, cols, rows, rotate180, q)
  {
    var r := Quad(q, cols, rows);
    if rotate180 {
      forall y, x | 0 <= y < r.h && 0 <= x < r.w
        ensures image[y][x] == full[r.y + r.h - 1 - y][r.x + r.w - 1 - x]
      {
        assert image[y][x] == quad[r.h - 1 - y][r.w - 1 - x];
      }
    }
  }

  lemma CropPixels(img: Image, r: Rect, cols: nat, rows: nat)
    requires Shaped(img, cols, rows) && r.In(cols, rows)
    ensures forall y, x :: 0 <= y < r.h && 0 <= x < r.w ==> Crop(img, r, cols, rows)[y][x] == img[r.y + y][r.x + x]
  {
    forall y, x | 0 <= y < r.h && 0 <= x < r.w
      ensures Crop(img, r, cols, rows)[y][x] == img[r.y + y][r.x + x]
    {
      assert Crop(img, r, cols, rows)[y] == img[r.y + y][r.x..r.x + r.w];
    }
  }

  lemma TurnedPixels(img: Image, w: nat, h: nat)
    requires Shaped(img, w, h)
    ensures forall y, x :: 0 <= y < h && 0 <= x < w ==> Rotated(img, w, h)[y][x] == img[h - 1 - y][w - 1 - x]
  {
    forall y, x | 0 <= y < h && 0 <= x < w ensures Rotated(img, w, h)[y][x] == img[h - 1 - y][w - 1 - x] {
      assert Rotated(img, w, h)[y] == Reversed(img[h - 1 - y]);
    }
  }

  /** `writeQuadrants`: nothing is written for an input whose name does not parse;
      otherwise all four writes are tried, and the verdict is good exactly if each
      of them succeeded. `disk` says which do. */
  method WriteQuadrants(full: Image, cols: nat, rows: nat, input: string, dir: string, ext: string,
                        rotate180: bool, disk: Write -> bool)
    returns (allOk: bool, writes: seq<Write>)
    requires Shaped(full, cols, rows)
    ensures ParseYuvStem(Stem(input)).None? ==> !allOk && writes == []
    ensures ParseYuvStem(Stem(input)).Some? ==>
              var (camera, frame) := ParseYuvStem(Stem(input)).value;
              && |writes| == 4
              && (forall q :: 0 <= q < 4 ==>
                    && writes[q] == WriteOf(full, cols, rows, dir, camera, frame, ext, rotate180, q)
                    && Shows(writes[q].image, full, cols, rows, rotate180, q))
              && (allOk <==> forall q :: 0 <= q < 4 ==> disk(writes[q]))
  {
    hide ParseYuvStem, Stem, Decimal, Within, Crop, Rotated, QuadrantCamera, Shows;
    var parsed := ParseYuvStem(Stem(input));
    if parsed.None? { return false, []; }
    var (camera, frame) := parsed.value;
    allOk, writes := true, [];
    var q := 0;
    while q < 4
      invariant 0 <= q <= 4 && |writes| == q
      invariant forall p :: 0 <= p < q ==>
                  && writes[p] == WriteOf(full, cols, rows, dir, camera, frame, ext, rotate180, p)
                  && Shows(writes[p].image, full, cols, rows, rotate180, p)
      invariant allOk <==> forall p :: 0 <= p < q ==> disk(writes[p])
    {
      var rect := Quad(q, cols, rows);
      var quad := Crop(full, rect, cols, rows);
      if rotate180 { quad := Rotated(quad, rect.w, rect.h); }
      var one := Write(QuadrantPath(dir, camera, frame, ext, q), quad);
      ghost var before := writes;
      writes := writes + [one];
      assert forall p :: 0 <= p < q ==> writes[p] == before[p];
      assert writes[q] == one;
      WritesQuadrant(full, cols, rows, dir, camera, frame, ext, rotate180, q);
      if !disk(one) { allOk := false; }
      q := q + 1;
    }
  }

  /** A quadrant's file can be converted in its turn: its name parses back to the
      quadrant's camera id and the frame id, whatever the directory. */
  lemma QuadrantNamesParse(dir: string, camera: u32, frame: u32, ext: string, q: nat)
    requires q < 4 && Extension(ext)
    ensures ParseYuvStem(Stem(QuadrantPath(dir, camera, frame, ext, q)))
            == Some((QuadrantCamera(camera, q), frame))
  {
    var id := QuadrantCamera(camera, q);
    NamesNumbers(id, frame);
    hide Stem, ParseYuvStem, Decimal, QuadrantCamera, Extension, Within;
    StemOf(Within(dir), Decimal(id), Decimal(frame), ext);
  }

  // ---- the four rectangles ----------------------------------------------------------------

  function QuadAt(px: nat, py: nat, cols: nat, rows: nat): (q: nat)
    ensures q < 4
  {
    (if px < cols / 2 then 0 else 1) + (if py < rows / 2 then 0 else 2)
  }

  /** Every pixel of an image of any size lies in exactly one quadrant. */
  lemma QuadrantsTile(cols: nat, rows: nat, px: nat, py: nat, q: nat)
    requires q < 4 && px < cols && py < rows
    ensures Quad(q, cols, rows).Contains(px, py) <==> q == QuadAt(px, py, cols, rows)
  {
  }

  /** The files of two frames' quadrants have the same name exactly if frame and
      quadrant agree and the camera ids agree modulo 2^30. */
  lemma QuadrantCamerasDiffer(a: u32, p: nat, b: u32, q: nat)
    requires p < 4 && q < 4
    ensures QuadrantCamera(a, p) == QuadrantCamera(b, q)
            <==> p == q && a % 0x4000_0000 == b % 0x4000_0000
  {
    FourTimes(a, p);
    FourTimes(b, q);
  }

  lemma FourTimes(a: u32, p: nat)
    requires p < 4
    ensures QuadrantCamera(a, p) == 4 * (a % 0x4000_0000) + p
  {
  }

  // ---- rotation ------------------------------------------------------------------------------

  /** Turning a crop is cropping the mirrored rectangle from the turned image. */
  lemma RotateCrop(img: Image, r: Rect, cols: nat, rows: nat)
    requires Shaped(img, cols, rows) && r.In(cols, rows)
    ensures Rotated(Crop(img, r, cols, rows), r.w, r.h)
            == Crop(Rotated(img, cols, rows), Mirror(r, cols, rows), cols, rows)
  {
    var a := Rotated(Crop(img, r, cols, rows), r.w, r.h);
    var m := Mirror(r, cols, rows);
    var b := Crop(Rotated(img, cols, rows), m, cols, rows);
    forall y | 0 <= y < r.h ensures a[y] == b[y] {
      RotatedRow(img[r.y + r.h - 1 - y], r.x, r.w);
      assert b[y] == Reversed(img[r.y + r.h - 1 - y])[m.x..m.x + m.w];
    }
  }

  lemma RotatedRow(row: seq<byte>, x: nat, w: nat)
    requires x + w <= |row|
    ensures Reversed(row[x..x + w]) == Reversed(row)[|row| - x - w..|row| - x]
  {
  }

  lemma MirrorExactly(cols: nat, rows: nat, q: nat)
    requires q < 4
    ensures Mirror(Quad(q, cols, rows), cols, rows) == Quad(3 - q, cols, rows)
            <==> cols % 2 == 0 && rows % 2 == 0
  {
  }

  /** Turning each quadrant gives the tiles of the turned image, numbered backwards,
      if and only if both sizes are even. */
  lemma RotateThenTileExactly(img: Image, cols: nat, rows: nat)
    requires Shaped(img, cols, rows) && 0 < cols && 0 < rows
    ensures (forall q :: 0 <= q < 4 ==> TileMatches(img, cols, rows, q))
            <==> cols % 2 == 0 && rows % 2 == 0
  {
    if cols % 2 == 0 && rows % 2 == 0 {
      forall q | 0 <= q < 4 ensures TileMatches(img, cols, rows, q) {
        RotateCrop(img, Quad(q, cols, rows), cols, rows);
        MirrorExactly(cols, rows, q);
      }
    } else {
      assert !TileMatches(img, cols, rows, 0) by {
        var a := Quad(0, cols, rows);
        var b := Quad(3, cols, rows);
        assert a.h != b.h || (a.w != b.w && b.h > 0);
        hide Rotated, Crop;
        var left := Rotated(Crop(img, a, cols, rows), a.w, a.h);
        var right := Crop(Rotated(img, cols, rows), b, cols, rows);
        if a.h == b.h { assert |left[0]| == a.w && |right[0]| == b.w; }
      }
    }
  }

  predicate TileMatches(img: Image, cols: nat, rows: nat, q: nat)
    requires Shaped(img, cols, rows) && q < 4
  {
    var r := Quad(q, cols, rows);
    Rotated(Crop(img, r, cols, rows), r.w, r.h)
    == Crop(Rotated(img, cols, rows), Quad(3 - q, cols, rows), cols, rows)
  }
}
