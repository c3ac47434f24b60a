/** Sprite-sheet analysis of the preloader (PreloaderScene.ts): the sheet's
    RGBA bytes are split into foreground and background against the corner
    colour, 4-connected foreground regions are found by flood fill, and one
    ship per horizontal third of the sheet is chosen and cropped. Canvas and
    texture calls are outside the model; an image is its `ImageData` byte
    array, four bytes per pixel in row-major order. */
module PreloaderScene {
  import opened Common

  /** The largest per-channel distance at which a colour still counts as background. */
  const COLOR_TOLERANCE: int := 22
  const CROP_PAD: int := 2

  datatype Rgb = Rgb(r: int, g: int, b: int)

  /** An image's byte layout: four bytes per pixel. */
  predicate IsImageData(data: seq<Byte>, width: int, height: int)
  {
    width >= 0 && height >= 0 && |data| == 4 * (width * height)
  }

  /** The colour of pixel (x, y). */
  function ReadPixel(data: seq<Byte>, width: int, height: int, x: int, y: int): (c: Rgb)
    requires IsImageData(data, width, height)
    requires 0 <= x < width && 0 <= y < height
    ensures var i := (y * width + x) * 4;
      0 <= i && i + 3 < |data| && c == Rgb(data[i], data[i + 1], data[i + 2])
  {
    PixelIndexInRange(width, height, x, y);
    var i := (y * width + x) * 4;
    Rgb(data[i], data[i + 1], data[i + 2])
  }

  lemma PixelIndexInRange(width: int, height: int, x: int, y: int)
    requires 0 <= x < width && 0 <= y < height
    ensures 0 <= y * width + x < width * height
  {
    assert y * width <= (height - 1) * width;
  }

  /** `Math.round` of the mean of four values. */
  function RoundedMean4(a: int, b: int, c: int, d: int): (m: int)
    ensures Min(Min(a, b), Min(c, d)) <= m <= Max(Max(a, b), Max(c, d))
    ensures (a + b + c + d) as real / 4.0 - 0.5 < m as real <= (a + b + c + d) as real / 4.0 + 0.5
  {
    Round((a + b + c + d) as real / 4.0)
  }

  /** The sheet's background: the rounded mean of its four corner pixels,
      channel by channel. */
  function BackgroundColor(data: seq<Byte>, width: int, height: int): (bg: Rgb)
    requires IsImageData(data, width, height) && width >= 1 && height >= 1
    ensures 0 <= bg.r < 256 && 0 <= bg.g < 256 && 0 <= bg.b < 256
  {
    var c0 := ReadPixel(data, width, height, 0, 0);
    var c1 := ReadPixel(data, width, height, width - 1, 0);
    var c2 := ReadPixel(data, width, height, 0, height - 1);
    var c3 := ReadPixel(data, width, height, width - 1, height - 1);
    Rgb(RoundedMean4(c0.r, c1.r, c2.r, c3.r),
        RoundedMean4(c0.g, c1.g, c2.g, c3.g),
        RoundedMean4(c0.b, c1.b, c2.b, c3.b))
  }

  /** Each background channel lies between the smallest and largest value
      of that channel at the four corners. */
  lemma BackgroundBetweenCorners(data: seq<Byte>, width: int, height: int)
    requires IsImageData(data, width, height) && width >= 1 && height >= 1
    ensures var bg := BackgroundColor(data, width, height);
      var c0 := ReadPixel(data, width, height, 0, 0);
      var c1 := ReadPixel(data, width, height, width - 1, 0);
      var c2 := ReadPixel(data, width, height, 0, height - 1);
      var c3 := ReadPixel(data, width, height, width - 1, height - 1);
      && Min(Min(c0.r, c1.r), Min(c2.r, c3.r)) <= bg.r <= Max(Max(c0.r, c1.r), Max(c2.r, c3.r))
      && Min(Min(c0.g, c1.g), Min(c2.g, c3.g)) <= bg.g <= Max(Max(c0.g, c1.g), Max(c2.g, c3.g))
      && Min(Min(c0.b, c1.b), Min(c2.b, c3.b)) <= bg.b <= Max(Max(c0.b, c1.b), Max(c2.b, c3.b))
  {
  }

  /** The three colour bytes starting at `i` are all within the tolerance of `bg`. */
  predicate NearBackground(data: seq<Byte>, i: int, bg: Rgb)
    requires 0 <= i && i + 2 < |data|
  {
    && AbsDiff(data[i], bg.r) <= COLOR_TOLERANCE
    && AbsDiff(data[i + 1], bg.g) <= COLOR_TOLERANCE
    && AbsDiff(data[i + 2], bg.b) <= COLOR_TOLERANCE
  }

  /** Pixel `p` is foreground: not fully transparent, and some channel
      farther than the tolerance from the background. */
  predicate IsForeground(data: seq<Byte>, p: int, bg: Rgb)
    requires 0 <= p && 4 * p + 3 < |data|
  {
    data[4 * p + 3] != 0 && !NearBackground(data, 4 * p, bg)
  }

  /** The mask `createForegroundMask` builds, one byte per pixel. */
  function ForegroundMask(data: seq<Byte>, bg: Rgb): (mask: seq<Byte>)
    requires |data| % 4 == 0
    ensures |mask| == |data| / 4
    ensures forall p :: 0 <= p < |mask| ==> (mask[p] == 1 <==> IsForeground(data, p, bg))
    ensures forall p :: 0 <= p < |mask| ==> (mask[p] == 0 <==> !IsForeground(data, p, bg))
  {
    seq(|data| / 4, p requires 0 <= p < |data| / 4 => if IsForeground(data, p, bg) then 1 else 0)
  }

  method CreateForegroundMask(data: array<Byte>, width: nat, height: nat, bg: Rgb) returns (mask: array<Byte>)
    requires IsImageData(data[..], width, height)
    ensures fresh(mask) && mask.Length == width * height
    ensures mask[..] == ForegroundMask(data[..], bg)
  {
    mask := new Byte[width * height](_ => 0);
    var i, pixel := 0, 0;
    while i < data.Length
      invariant i == 4 * pixel && 0 <= pixel <= width * height
      invariant forall q :: 0 <= q < pixel ==> mask[q] == (if IsForeground(data[..], q, bg) then 1 else 0)
      invariant forall q :: pixel <= q < mask.Length ==> mask[q] == 0
    {
      if data[i + 3] != 0 {
        var dr := AbsDiff(data[i], bg.r);
        var dg := AbsDiff(data[i + 1], bg.g);
        var db := AbsDiff(data[i + 2], bg.b);
        if dr > COLOR_TOLERANCE || dg > COLOR_TOLERANCE || db > COLOR_TOLERANCE {
          mask[pixel] := 1;
        }
      }
      i, pixel := i + 4, pixel + 1;
    }
  }

  /** The bytes after `applyChromaKey`: every pixel near the background gets
      alpha 0; nothing else changes. */
  function ChromaKeyed(data: seq<Byte>, bg: Rgb): (keyed: seq<Byte>)
    requires |data| % 4 == 0
    ensures |keyed| == |data|
    ensures forall k :: 0 <= k < |data| && k % 4 != 3 ==> keyed[k] == data[k]
    ensures forall k :: 0 <= k < |data| && k % 4 == 3 ==>
      keyed[k] == (if NearBackground(data, k - 3, bg) then 0 else data[k])
  {
    seq(|data|, k requires 0 <= k < |data| =>
      if k % 4 == 3 && NearBackground(data, k - 3, bg) then 0 else data[k])
  }

  /** The bytes once the first `i` of them have been keyed. */
  function KeyedPrefix(data: seq<Byte>, bg: Rgb, i: int): (t: seq<Byte>)
    requires |data| % 4 == 0
  {
    seq(|data|, k requires 0 <= k < |data| => if k < i then ChromaKeyed(data, bg)[k] else data[k])
  }

  /** Keying extends the keyed prefix by one pixel. */
  lemma KeyPixelStep(data: seq<Byte>, bg: Rgb, i: int)
    requires |data| % 4 == 0 && 0 <= i && i + 3 < |data| && i % 4 == 0
    ensures var cur := KeyedPrefix(data, bg, i);
      KeyedPrefix(data, bg, i + 4) == (if NearBackground(data, i, bg) then cur[i + 3 := 0] else cur)
  {
    var cur := KeyedPrefix(data, bg, i);
    var next := if NearBackground(data, i, bg) then cur[i + 3 := 0] else cur;
    ColourBytesUnkeyed(data, bg, i);
    AlphaKeyed(data, bg, i);
    forall k | 0 <= k < |data|
      ensures KeyedPrefix(data, bg, i + 4)[k] == next[k]
    {
      if i <= k < i + 4 {
        assert k == i || k == i + 1 || k == i + 2 || k == i + 3;
      }
    }
  }

  /** Keying sets a pixel's alpha to 0 exactly when its colour is near the background. */
  lemma AlphaKeyed(data: seq<Byte>, bg: Rgb, i: int)
    requires |data| % 4 == 0 && 0 <= i && i + 3 < |data| && i % 4 == 0
    ensures ChromaKeyed(data, bg)[i + 3] == (if NearBackground(data, i, bg) then 0 else data[i + 3])
  {
    assert (i + 3) % 4 == 3 && i + 3 - 3 == i;
  }

  /** Keying leaves the three colour bytes of a pixel alone. */
  lemma ColourBytesUnkeyed(data: seq<Byte>, bg: Rgb, i: int)
    requires |data| % 4 == 0 && 0 <= i && i + 3 < |data| && i % 4 == 0
    ensures var keyed := ChromaKeyed(data, bg);
      keyed[i] == data[i] && keyed[i + 1] == data[i + 1] && keyed[i + 2] == data[i + 2]
  {
    assert (i + 1) % 4 == 1 && (i + 2) % 4 == 2;
  }

  method ApplyChromaKey(data: array<Byte>, bg: Rgb)
    requires data.Length % 4 == 0
    modifies data
    ensures data[..] == ChromaKeyed(old(data[..]), bg)
  {
    ghost var original := data[..];
    var i := 0;
    while i < data.Length
      invariant 0 <= i <= data.Length && i % 4 == 0
      invariant data[..] == KeyedPrefix(original, bg, i)
    {
      assert data[i] == original[i] && data[i + 1] == original[i + 1] && data[i + 2] == original[i + 2];
      KeyPixelStep(original, bg, i);
      var dr := AbsDiff(data[i], bg.r);
      var dg := AbsDiff(data[i + 1], bg.g);
      var db := AbsDiff(data[i + 2], bg.b);
      if dr <= COLOR_TOLERANCE && dg <= COLOR_TOLERANCE && db <= COLOR_TOLERANCE {
        data[i + 3] := 0;
      }
      i := i + 4;
    }
    assert KeyedPrefix(original, bg, i) == ChromaKeyed(original, bg);
  }

  /** Keying against a colour does not change what counts as foreground
      against that colour. */
  lemma ChromaKeyKeepsForeground(data: seq<Byte>, bg: Rgb)
    requires |data| % 4 == 0
    ensures ForegroundMask(ChromaKeyed(data, bg), bg) == ForegroundMask(data, bg)
  {
    var keyed := ChromaKeyed(data, bg);
    forall p | 0 <= p < |data| / 4
      ensures IsForeground(keyed, p, bg) == IsForeground(data, p, bg)
    {
      ColourBytesUnkeyed(data, bg, 4 * p);
      AlphaKeyed(data, bg, 4 * p);
    }
  }

  /** Keying twice is keying once. */
  lemma ChromaKeyIdempotent(data: seq<Byte>, bg: Rgb)
    requires |data| % 4 == 0
    ensures ChromaKeyed(ChromaKeyed(data, bg), bg) == ChromaKeyed(data, bg)
  {
    var keyed := ChromaKeyed(data, bg);
    var twice := ChromaKeyed(keyed, bg);
    forall k | 0 <= k < |data| && k % 4 == 3
      ensures twice[k] == keyed[k]
    {
      assert (k - 3) % 4 == 0;
      ColourBytesUnkeyed(data, bg, k - 3);
    }
    assert forall k :: 0 <= k < |data| ==> twice[k] == keyed[k];
  }

  datatype Rect = Rect(x: int, y: int, w: int, h: int)

  /** The crop for a ship: its bounding box grown by the padding and clipped
      to the sheet. */
  function CropRect(minX: int, minY: int, maxX: int, maxY: int, width: int, height: int): (r: Rect)
    requires 0 <= minX <= maxX < width && 0 <= minY <= maxY < height
    ensures r.x >= 0 && r.y >= 0 && r.x + r.w <= width && r.y + r.h <= height
    ensures r.x <= minX && maxX < r.x + r.w && r.y <= minY && maxY < r.y + r.h
    ensures minX - CROP_PAD <= r.x && r.w <= maxX - minX + 1 + 2 * CROP_PAD
    ensures minY - CROP_PAD <= r.y && r.h <= maxY - minY + 1 + 2 * CROP_PAD
  {
    var x := Max(0, minX - CROP_PAD);
    var y := Max(0, minY - CROP_PAD);
    Rect(x, y, Min(width - x, maxX - minX + 1 + CROP_PAD * 2), Min(height - y, maxY - minY + 1 + CROP_PAD * 2))
  }

  // ---------------------------------------------------------------------
  // Connected components

  /** A connected region's bounding box, pixel count and vertical centre. */
  datatype ShipBounds = ShipBounds(minX: int, minY: int, maxX: int, maxY: int, area: int, centerY: real)

  function BoxWidth(b: ShipBounds): int
  {
    b.maxX - b.minX + 1
  }

  function BoxHeight(b: ShipBounds): int
  {
    b.maxY - b.minY + 1
  }

  /** What every region the flood fill reports satisfies: its box lies in
      the sheet, it holds at least one pixel and no more than its box, and
      its centre is the middle of the box's rows. */
  predicate WithinImage(b: ShipBounds, width: int, height: int)
  {
    && 0 <= b.minX <= b.maxX < width
    && 0 <= b.minY <= b.maxY < height
    && 1 <= b.area <= BoxWidth(b) * BoxHeight(b)
    && b.centerY == (b.minY + b.maxY) as real / 2.0
  }

  function CountNonzero(s: seq<Byte>): (n: nat)
    ensures n <= |s|
    decreases |s|
  {
    if s == [] then 0 else CountNonzero(s[..|s| - 1]) + (if s[|s| - 1] != 0 then 1 else 0)
  }

  /** Clearing one set cell lowers the count by one. */
  lemma {:induction false} CountNonzeroClear(s: seq<Byte>, i: nat)
    requires i < |s| && s[i] != 0
    ensures CountNonzero(s[i := 0]) == CountNonzero(s) - 1
    decreases |s|
  {
    var t := s[i := 0];
    if i < |s| - 1 {
      CountNonzeroClear(s[..|s| - 1], i);
      assert t[..|t| - 1] == s[..|s| - 1][i := 0];
    } else {
      assert t[..|t| - 1] == s[..|s| - 1];
    }
  }

  lemma {:induction false} CountNonzeroAllZero(s: seq<Byte>)
    requires forall k :: 0 <= k < |s| ==> s[k] == 0
    ensures CountNonzero(s) == 0
    decreases |s|
  {
    if s != [] {
      CountNonzeroAllZero(s[..|s| - 1]);
    }
  }

  function SumAreas(cs: seq<ShipBounds>): int
    decreases |cs|
  {
    if cs == [] then 0 else SumAreas(cs[..|cs| - 1]) + cs[|cs| - 1].area
  }

  /** Integer division and remainder are determined by any decomposition
      with a remainder in range. */
  lemma DivModOf(i: int, w: int, q: int, r: int)
    requires w > 0 && 0 <= r < w && i == q * w + r
    ensures i / w == q && i % w == r
  {
    var q0, r0 := i / w, i % w;
    assert (q0 - q) * w == r - r0 by {
      assert q0 * w + r0 == q * w + r;
      assert (q0 - q) * w == q0 * w - q * w;
    }
    SignedMulBound(q0 - q, w);
  }

  /** A nonzero multiple of `w` is at least `w` away from zero. */
  lemma SignedMulBound(d: int, w: int)
    requires w >= 0
    ensures d >= 1 ==> d * w >= w
    ensures d <= -1 ==> d * w <= -w
  {
    if d >= 1 {
      MulAtLeast(d, w);
    } else if d <= -1 {
      MulAtLeast(-d, w);
      assert (-d) * w == -(d * w);
    }
  }

  lemma {:induction false} MulAtLeast(d: int, w: int)
    requires d >= 1 && w >= 0
    ensures d * w >= w
    decreases d
  {
    if d > 1 {
      MulAtLeast(d - 1, w);
      assert d * w == (d - 1) * w + w;
    }
  }

  lemma MulMonotone(a: int, b: int, w: int)
    requires a <= b && w >= 0
    ensures a * w <= b * w
  {
    if a < b {
      MulAtLeast(b - a, w);
      assert b * w - a * w == (b - a) * w;
    }
  }

  /** The column and row of a pixel index lie in the sheet. */
  lemma PixelCoordinates(index: int, width: int, height: int)
    requires width > 0 && height > 0 && 0 <= index < width * height
    ensures 0 <= index % width < width && 0 <= index / width < height
    ensures index == (index / width) * width + index % width
    ensures (index / width + 1) * width <= width * height
  {
    var y := index / width;
    if y >= height {
      MulMonotone(height, y, width);
    }
    MulMonotone(y + 1, height, width);
  }

  /** The coordinates of the pixels beside a pixel, where they exist. */
  lemma NeighbourCoordinates(index: int, width: int, height: int)
    requires width > 0 && height > 0 && 0 <= index < width * height
    ensures 0 <= index % width < width && 0 <= index / width < height
    ensures var x, y := index % width, index / width;
      && (x > 0 ==> (index - 1) % width == x - 1 && (index - 1) / width == y)
      && (x < width - 1 ==> (index + 1) % width == x + 1 && (index + 1) / width == y && index + 1 < width * height)
      && (y > 0 ==> (index - width) % width == x && (index - width) / width == y - 1 && index - width >= 0)
      && (y < height - 1 ==>
            (index + width) % width == x && (index + width) / width == y + 1 && index + width < width * height)
  {
    PixelCoordinates(index, width, height);
    var x, y := index % width, index / width;
    SameRowNeighbours(index, width, height, x, y);
    if y > 0 {
      RowAbove(index, width, x, y);
    }
    if y < height - 1 {
      RowBelow(index, width, height, x, y);
    }
  }

  lemma SameRowNeighbours(index: int, width: int, height: int, x: int, y: int)
    requires width > 0 && 0 <= x < width && index == y * width + x && (y + 1) * width <= width * height
    ensures x > 0 ==> (index - 1) % width == x - 1 && (index - 1) / width == y
    ensures x < width - 1 ==> (index + 1) % width == x + 1 && (index + 1) / width == y && index + 1 < width * height
  {
    if x > 0 {
      DivModOf(index - 1, width, y, x - 1);
    }
    if x < width - 1 {
      DivModOf(index + 1, width, y, x + 1);
      assert y * width + width == (y + 1) * width;
    }
  }

  lemma RowAbove(index: int, width: int, x: int, y: int)
    requires width > 0 && 0 <= x < width && y > 0 && index == y * width + x
    ensures (index - width) % width == x && (index - width) / width == y - 1 && index - width >= 0
  {
    assert index - width == (y - 1) * width + x;
    DivModOf(index - width, width, y - 1, x);
    MulAtLeast(y, width);
  }

  lemma RowBelow(index: int, width: int, height: int, x: int, y: int)
    requires width > 0 && 0 <= x < width && y < height - 1 && index == y * width + x
    ensures (index + width) % width == x && (index + width) / width == y + 1 && index + width < width * height
  {
    assert index + width == (y + 1) * width + x;
    DivModOf(index + width, width, y + 1, x);
    MulMonotone(y + 2, height, width);
    assert (y + 2) * width == (y + 1) * width + width;
  }

  /** The four neighbours `findConnectedComponents` examines, in its order
      (left, right, up, down), -1 for one that would fall off the sheet. */
  function Neighbours(index: int, width: int, height: int): (nb: seq<int>)
    requires width > 0 && height > 0 && 0 <= index < width * height
    ensures |nb| == 4
    ensures forall d :: 0 <= d < 4 ==> -1 <= nb[d] < width * height
  {
    NeighbourCoordinates(index, width, height);
    var x, y := index % width, index / width;
    [if x > 0 then index - 1 else -1,
     if x < width - 1 then index + 1 else -1,
     if y > 0 then index - width else -1,
     if y < height - 1 then index + width else -1]
  }

  /** The fill's neighbours are exactly the 4-connected ones that exist:
      the pixel one column left or right in the same row, and the pixel one
      row up or down in the same column; none wraps to another row. */
  lemma NeighboursAreAdjacent(index: int, width: int, height: int)
    requires width > 0 && height > 0 && 0 <= index < width * height
    ensures var nb, x, y := Neighbours(index, width, height), index % width, index / width;
      && (x > 0 ==> nb[0] % width == x - 1 && nb[0] / width == y)
      && (x == 0 ==> nb[0] == -1)
      && (x < width - 1 ==> nb[1] % width == x + 1 && nb[1] / width == y)
      && (x == width - 1 ==> nb[1] == -1)
      && (y > 0 ==> nb[2] % width == x && nb[2] / width == y - 1)
      && (y == 0 ==> nb[2] == -1)
      && (y < height - 1 ==> nb[3] % width == x && nb[3] / width == y + 1)
      && (y == height - 1 ==> nb[3] == -1)
  {
    NeighbourCoordinates(index, width, height);
  }

  /** No set of integers in [lo, hi] has more than hi - lo + 1 members. */
  lemma {:induction false} IntervalCard(s: set<int>, lo: int, hi: int)
    requires lo <= hi + 1
    requires forall i :: i in s ==> lo <= i <= hi
    ensures |s| <= hi - lo + 1
    decreases hi - lo
  {
    if lo <= hi {
      IntervalCard(s - {hi}, lo, hi - 1);
    } else {
      assert forall i :: i !in s;
      assert s == {};
    }
  }

  /** No set of pixel indices inside a box has more members than the box has pixels. */
  lemma {:induction false} BoxCard(s: set<int>, width: int, x0: int, x1: int, y0: int, y1: int)
    requires width > 0 && x0 <= x1 + 1 && y0 <= y1
    requires forall i :: i in s ==> x0 <= i % width <= x1 && y0 <= i / width <= y1
    ensures |s| <= (x1 - x0 + 1) * (y1 - y0 + 1)
    decreases y1 - y0
  {
    var row := set i | i in s && i / width == y1;
    var rest := s - row;
    forall i | i in row
      ensures y1 * width + x0 <= i <= y1 * width + x1
    {
      assert i == (i / width) * width + i % width;
    }
    IntervalCard(row, y1 * width + x0, y1 * width + x1);
    if y0 == y1 {
      assert s == row;
    } else {
      BoxCard(rest, width, x0, x1, y0, y1 - 1);
      assert s == row + rest;
      assert (x1 - x0 + 1) * (y1 - y0 + 1) == (x1 - x0 + 1) * (y1 - 1 - y0 + 1) + (x1 - x0 + 1);
    }
  }

  /** The flood fill's frontier: every stacked cell and every visited cell
      is cleared in the mask, the stack holds no cell twice and none already
      visited, the mask only lost set cells, and the cells still set, the
      visited cells and the stacked ones together account for all cells set
      when the fill began. */
  ghost predicate Frontier(m: seq<Byte>, orig: seq<Byte>, stack: seq<int>, visited: set<int>, area: int, total: int)
  {
    && |m| == |orig|
    && (forall k :: 0 <= k < |m| && m[k] != orig[k] ==> m[k] == 0)
    && (forall j :: 0 <= j < |stack| ==>
          0 <= stack[j] < |m| && m[stack[j]] == 0 && orig[stack[j]] != 0 && stack[j] !in visited)
    && (forall i, j :: 0 <= i < j < |stack| ==> stack[i] != stack[j])
    && (forall v :: v in visited ==> 0 <= v < |m| && m[v] == 0 && orig[v] != 0)
    && (forall k :: 0 <= k < |m| && orig[k] != 0 && m[k] == 0 ==> k in visited || k in stack)
    && |visited| == area
    && CountNonzero(m) + area + |stack| == total
  }

  /** Popping the top of the stack and marking it visited keeps the frontier. */
  lemma PopKeepsFrontier(m: seq<Byte>, orig: seq<Byte>, stack: seq<int>, visited: set<int>, area: int, total: int)
    requires Frontier(m, orig, stack, visited, area, total) && |stack| > 0
    ensures var top := stack[|stack| - 1];
      top !in visited && Frontier(m, orig, stack[..|stack| - 1], visited + {top}, area + 1, total)
  {
    var top := stack[|stack| - 1];
    var rest := stack[..|stack| - 1];
    forall j | 0 <= j < |rest|
      ensures rest[j] != top
    {
      assert rest[j] == stack[j];
    }
  }

  /** Once the stack is empty, the visited cells are exactly the cells set
      when the fill began and cleared since. */
  lemma FrontierDone(m: seq<Byte>, orig: seq<Byte>, visited: set<int>, area: int, total: int)
    requires Frontier(m, orig, [], visited, area, total)
    ensures forall k :: k in visited <==> 0 <= k < |m| && orig[k] != 0 && m[k] == 0
  {
  }

  /** One neighbour check of the fill: a set neighbour is cleared and pushed. */
  method Visit(mask: array<Byte>, neighbour: int, stack: seq<int>,
               ghost orig: seq<Byte>, ghost visited: set<int>, ghost area: int, ghost total: int)
    returns (next: seq<int>)
    requires neighbour < mask.Length
    requires Frontier(mask[..], orig, stack, visited, area, total)
    modifies mask
    ensures Frontier(mask[..], orig, next, visited, area, total)
    ensures neighbour >= 0 && old(mask[neighbour]) == 1 ==>
      next == stack + [neighbour] && mask[..] == old(mask[..])[neighbour := 0]
    ensures !(neighbour >= 0 && old(mask[neighbour]) == 1) ==> next == stack && mask[..] == old(mask[..])
    ensures forall k :: 0 <= k < mask.Length && old(mask[k]) == 0 ==> mask[k] == 0
  {
    next := stack;
    if neighbour >= 0 && mask[neighbour] == 1 {
      CountNonzeroClear(mask[..], neighbour);
      mask[neighbour] := 0;
      next := stack + [neighbour];
    }
  }

  /** The four neighbour checks, in the source's order. */
  method VisitNeighbours(mask: array<Byte>, nb: seq<int>, stack: seq<int>,
                         ghost orig: seq<Byte>, ghost visited: set<int>, ghost area: int, ghost total: int)
    returns (next: seq<int>)
    requires |nb| == 4 && forall d :: 0 <= d < 4 ==> nb[d] < mask.Length
    requires Frontier(mask[..], orig, stack, visited, area, total)
    modifies mask
    ensures Frontier(mask[..], orig, next, visited, area, total)
    ensures forall k :: 0 <= k < mask.Length && old(mask[k]) == 0 ==> mask[k] == 0
  {
    next := Visit(mask, nb[0], stack, orig, visited, area, total);
    next := Visit(mask, nb[1], next, orig, visited, area, total);
    next := Visit(mask, nb[2], next, orig, visited, area, total);
    next := Visit(mask, nb[3], next, orig, visited, area, total);
  }

  /** Every pixel of `region` lies in the box. */
  ghost predicate BoxContains(region: set<int>, width: int, minX: int, minY: int, maxX: int, maxY: int)
    requires width > 0
  {
    forall v :: v in region ==> minX <= v % width <= maxX && minY <= v / width <= maxY
  }

  /** Each side of the box is reached by some pixel of `region`. */
  ghost predicate BoxAttained(region: set<int>, width: int, minX: int, minY: int, maxX: int, maxY: int)
    requires width > 0
  {
    && (exists v :: v in region && v % width == minX)
    && (exists v :: v in region && v / width == minY)
    && (exists v :: v in region && v % width == maxX)
    && (exists v :: v in region && v / width == maxY)
  }

  /** A component's bounds are those of its pixels `region`: its area is
      their number, and its box is the smallest one holding them all. */
  ghost predicate Encloses(b: ShipBounds, region: set<int>, width: int)
  {
    && width > 0
    && |region| == b.area
    && BoxContains(region, width, b.minX, b.minY, b.maxX, b.maxY)
    && BoxAttained(region, width, b.minX, b.minY, b.maxX, b.maxY)
  }

  /** Pixels of the fill reaching each side of its box: the left, top,
      right and bottom one. */
  datatype Witnesses = Witnesses(left: int, top: int, right: int, bottom: int)

  /** The running extrema of the fill: sentinels one past the sheet before
      the first pixel (standing in for the source's infinities), then the
      bounding box of the visited pixels, each side reached by its witness. */
  ghost predicate Tracked(visited: set<int>, area: int, minX: int, minY: int, maxX: int, maxY: int,
                          width: int, height: int, w: Witnesses)
  {
    && width > 0
    && (area == 0 ==> minX == width && minY == height && maxX == -1 && maxY == -1)
    && (area >= 1 ==> 0 <= minX <= maxX < width && 0 <= minY <= maxY < height)
    && BoxContains(visited, width, minX, minY, maxX, maxY)
    && (area >= 1 ==>
          && w.left in visited && w.left % width == minX
          && w.top in visited && w.top / width == minY
          && w.right in visited && w.right % width == maxX
          && w.bottom in visited && w.bottom / width == maxY)
  }

  /** Adding one in-sheet pixel to the visited ones and widening the box to
      it keeps the box tight, the pixel taking over each side it passes. */
  lemma TrackedExtends(visited: set<int>, area: int, minX: int, minY: int, maxX: int, maxY: int,
                       width: int, height: int, w: Witnesses, index: int, w': Witnesses)
    requires Tracked(visited, area, minX, minY, maxX, maxY, width, height, w)
    requires |visited| == area && 0 <= index < width * height
    requires w' == Witnesses(
      if index % width < minX then index else w.left, if index / width < minY then index else w.top,
      if index % width > maxX then index else w.right, if index / width > maxY then index else w.bottom)
    ensures Tracked(visited + {index}, area + 1,
      Min(minX, index % width), Min(minY, index / width),
      Max(maxX, index % width), Max(maxY, index / width), width, height, w')
  {
    PixelCoordinates(index, width, height);
    if area == 0 {
      assert visited == {};
    }
  }

  /** A finished fill's extrema are the bounds of the visited pixels. */
  lemma TrackedBounds(visited: set<int>, area: int, minX: int, minY: int, maxX: int, maxY: int,
                      width: int, height: int, w: Witnesses)
    requires Tracked(visited, area, minX, minY, maxX, maxY, width, height, w)
    requires |visited| == area >= 1
    ensures var b := ShipBounds(minX, minY, maxX, maxY, area, (minY + maxY) as real / 2.0);
      WithinImage(b, width, height) && Encloses(b, visited, width)
  {
    BoxCard(visited, width, minX, maxX, minY, maxY);
  }

  /** One pass of the fill's inner loop: pop a pixel, count it, widen the
      box to it and push its set neighbours. */
  method ExpandTop(mask: array<Byte>, width: int, height: int, stack: seq<int>,
                   minX: int, minY: int, maxX: int, maxY: int,
                   ghost orig: seq<Byte>, ghost visited: set<int>, ghost area: int, ghost total: int,
                   ghost w: Witnesses)
    returns (next: seq<int>, minX': int, minY': int, maxX': int, maxY': int,
             ghost visited': set<int>, ghost w': Witnesses)
    requires width > 0 && height > 0 && mask.Length == width * height && |stack| > 0
    requires Frontier(mask[..], orig, stack, visited, area, total)
    requires Tracked(visited, area, minX, minY, maxX, maxY, width, height, w)
    modifies mask
    ensures Frontier(mask[..], orig, next, visited', area + 1, total)
    ensures Tracked(visited', area + 1, minX', minY', maxX', maxY', width, height, w')
    ensures var index := stack[|stack| - 1];
      && visited' == visited + {index}
      && minX' == Min(minX, index % width) && minY' == Min(minY, index / width)
      && maxX' == Max(maxX, index % width) && maxY' == Max(maxY, index / width)
    ensures forall k :: 0 <= k < mask.Length && old(mask[k]) == 0 ==> mask[k] == 0
  {
    PopKeepsFrontier(mask[..], orig, stack, visited, area, total);
    var index := stack[|stack| - 1];
    next := stack[..|stack| - 1];
    PixelCoordinates(index, width, height);
    var x := index % width;
    var y := index / width;
    visited' := visited + {index};
    minX', minY', maxX', maxY' := Min(minX, x), Min(minY, y), Max(maxX, x), Max(maxY, y);
    w' := Witnesses(if x < minX then index else w.left, if y < minY then index else w.top,
                    if x > maxX then index else w.right, if y > maxY then index else w.bottom);
    TrackedExtends(visited, area, minX, minY, maxX, maxY, width, height, w, index, w');
    var nb := Neighbours(index, width, height);
    next := VisitNeighbours(mask, nb, next, orig, visited', area + 1, total);
  }

  /** The body of the outer loop of `findConnectedComponents` for one set
      start cell: the 4-connected region around it is cleared from the mask
      and its bounds are returned, together with the cleared pixels. */
  method FillComponent(mask: array<Byte>, width: int, height: int, start: int)
    returns (b: ShipBounds, ghost cleared: set<int>)
    requires width > 0 && height > 0 && mask.Length == width * height
    requires 0 <= start < mask.Length && mask[start] != 0
    modifies mask
    ensures WithinImage(b, width, height)
    ensures CountNonzero(mask[..]) + b.area == CountNonzero(old(mask[..]))
    ensures forall k :: 0 <= k < mask.Length && mask[k] != old(mask[k]) ==> mask[k] == 0
    ensures forall k :: k in cleared <==> 0 <= k < mask.Length && old(mask[k]) != 0 && mask[k] == 0
    ensures mask[start] == 0
    ensures start in cleared && Encloses(b, cleared, width)
  {
    ghost var orig := mask[..];
    ghost var total := CountNonzero(orig);
    CountNonzeroClear(mask[..], start);
    mask[start] := 0;
    var stack := [start];
    ghost var visited: set<int> := {};
    var minX, minY, maxX, maxY := width, height, -1, -1;
    var area := 0;
    ghost var w := Witnesses(start, start, start, start);
    while |stack| > 0
      invariant Frontier(mask[..], orig, stack, visited, area, total)
      invariant Tracked(visited, area, minX, minY, maxX, maxY, width, height, w)
      invariant mask[start] == 0
      invariant area == 0 ==> stack == [start]
      decreases total - area
    {
      stack, minX, minY, maxX, maxY, visited, w :=
        ExpandTop(mask, width, height, stack, minX, minY, maxX, maxY, orig, visited, area, total, w);
      area := area + 1;
    }
    FrontierDone(mask[..], orig, visited, area, total);
    b := ShipBounds(minX, minY, maxX, maxY, area, (minY + maxY) as real / 2.0);
    TrackedBounds(visited, area, minX, minY, maxX, maxY, width, height, w);
    cleared := visited;
  }

  /** Every pixel of `region` was set in `orig` and is cleared in `m`. */
  ghost predicate ClearedFrom(region: set<int>, m: seq<Byte>, orig: seq<Byte>)
  {
    forall k :: k in region ==> 0 <= k < |m| && k < |orig| && orig[k] != 0 && m[k] == 0
  }

  /** The regions are pairwise disjoint. */
  ghost predicate RegionsDisjoint(regions: seq<set<int>>)
  {
    forall i, j :: 0 <= i < j < |regions| ==> regions[i] !! regions[j]
  }

  /** All the pixels of all the regions. */
  ghost function Union(regions: seq<set<int>>): (u: set<int>)
    ensures forall i :: 0 <= i < |regions| ==> regions[i] <= u
    decreases |regions|
  {
    if regions == [] then {} else Union(regions[..|regions| - 1]) + regions[|regions| - 1]
  }

  /** Every pixel set in `orig` and cleared in `m` lies in some region. */
  ghost predicate RegionsCover(regions: seq<set<int>>, m: seq<Byte>, orig: seq<Byte>)
    requires |m| == |orig|
  {
    forall k :: 0 <= k < |m| && orig[k] != 0 && m[k] == 0 ==> k in Union(regions)
  }

  /** Each component's bounds are those of the region at the same position. */
  ghost predicate AllEnclose(components: seq<ShipBounds>, regions: seq<set<int>>, width: int)
  {
    |regions| == |components| && forall i :: 0 <= i < |components| ==> Encloses(components[i], regions[i], width)
  }

  lemma EncloseExtends(components: seq<ShipBounds>, regions: seq<set<int>>, width: int, b: ShipBounds, cleared: set<int>)
    requires AllEnclose(components, regions, width) && Encloses(b, cleared, width)
    ensures AllEnclose(components + [b], regions + [cleared], width)
  {
    var cs, rs := components + [b], regions + [cleared];
    forall i | 0 <= i < |cs|
      ensures Encloses(cs[i], rs[i], width)
    {
      if i < |components| { assert cs[i] == components[i] && rs[i] == regions[i]; }
    }
  }

  /** The regions found so far split the pixels set in `orig` and since
      cleared in `m`, and each is described by its component's bounds. */
  ghost predicate Partition(m: seq<Byte>, orig: seq<Byte>, width: int,
                            components: seq<ShipBounds>, regions: seq<set<int>>)
  {
    && |m| == |orig|
    && AllEnclose(components, regions, width)
    && (forall i :: 0 <= i < |regions| ==> ClearedFrom(regions[i], m, orig))
    && RegionsDisjoint(regions)
    && RegionsCover(regions, m, orig)
  }

  /** A fill that clears only set pixels and reports them as `cleared`. */
  ghost predicate FillStep(before: seq<Byte>, after: seq<Byte>, orig: seq<Byte>, cleared: set<int>)
  {
    && |after| == |before| == |orig|
    && (forall k :: 0 <= k < |before| && before[k] != orig[k] ==> before[k] == 0)
    && (forall k :: 0 <= k < |after| && after[k] != before[k] ==> after[k] == 0)
    && (forall k :: k in cleared <==> 0 <= k < |before| && before[k] != 0 && after[k] == 0)
  }

  lemma ClearedExtends(before: seq<Byte>, after: seq<Byte>, orig: seq<Byte>, regions: seq<set<int>>, cleared: set<int>)
    requires FillStep(before, after, orig, cleared)
    requires forall i :: 0 <= i < |regions| ==> ClearedFrom(regions[i], before, orig)
    ensures forall i :: 0 <= i < |regions| + 1 ==> ClearedFrom((regions + [cleared])[i], after, orig)
  {
    var rs := regions + [cleared];
    forall i | 0 <= i < |rs|
      ensures ClearedFrom(rs[i], after, orig)
    {
      if i < |regions| {
        assert ClearedFrom(regions[i], before, orig);
      }
    }
  }

  lemma DisjointExtends(before: seq<Byte>, after: seq<Byte>, orig: seq<Byte>, regions: seq<set<int>>, cleared: set<int>)
    requires FillStep(before, after, orig, cleared)
    requires forall i :: 0 <= i < |regions| ==> ClearedFrom(regions[i], before, orig)
    requires RegionsDisjoint(regions)
    ensures RegionsDisjoint(regions + [cleared])
  {
    var rs := regions + [cleared];
    forall i, j | 0 <= i < j < |rs|
      ensures rs[i] !! rs[j]
    {
      if j == |regions| {
        forall k | k in rs[i] ensures k !in cleared {
          assert ClearedFrom(regions[i], before, orig);
          assert k in regions[i];
        }
      } else {
        assert rs[i] == regions[i] && rs[j] == regions[j];
      }
    }
  }

  lemma CoverExtends(before: seq<Byte>, after: seq<Byte>, orig: seq<Byte>, regions: seq<set<int>>, cleared: set<int>)
    requires FillStep(before, after, orig, cleared)
    requires RegionsCover(regions, before, orig)
    ensures RegionsCover(regions + [cleared], after, orig)
  {
    var rs := regions + [cleared];
    assert rs[..|rs| - 1] == regions;
    assert Union(rs) == Union(regions) + cleared;
  }

  /** Adding the region one fill cleared, with its component, keeps the split. */
  lemma PartitionExtends(before: seq<Byte>, after: seq<Byte>, orig: seq<Byte>, width: int,
                         components: seq<ShipBounds>, regions: seq<set<int>>, b: ShipBounds, cleared: set<int>)
    requires Partition(before, orig, width, components, regions)
    requires FillStep(before, after, orig, cleared)
    requires Encloses(b, cleared, width)
    ensures Partition(after, orig, width, components + [b], regions + [cleared])
  {
    ClearedExtends(before, after, orig, regions, cleared);
    DisjointExtends(before, after, orig, regions, cleared);
    CoverExtends(before, after, orig, regions, cleared);
    EncloseExtends(components, regions, width, b, cleared);
  }

  /** The body of the outer loop of `findConnectedComponents` for a set
      start cell: its component is filled and appended, with its region. */
  method AddComponent(mask: array<Byte>, width: int, height: int, start: int,
                      components: seq<ShipBounds>, ghost regions: seq<set<int>>, ghost orig: seq<Byte>)
    returns (components': seq<ShipBounds>, ghost regions': seq<set<int>>)
    requires width >= 0 && height >= 0 && mask.Length == width * height && |orig| == mask.Length
    requires 0 <= start < mask.Length && mask[start] != 0
    requires forall k :: 0 <= k < start ==> mask[k] == 0
    requires forall k :: 0 <= k < mask.Length && mask[k] != orig[k] ==> mask[k] == 0
    requires SumAreas(components) + CountNonzero(mask[..]) == CountNonzero(orig)
    requires forall c :: c in components ==> WithinImage(c, width, height)
    requires Partition(mask[..], orig, width, components, regions)
    modifies mask
    ensures forall k :: 0 <= k <= start ==> mask[k] == 0
    ensures forall k :: 0 <= k < mask.Length && mask[k] != orig[k] ==> mask[k] == 0
    ensures SumAreas(components') + CountNonzero(mask[..]) == CountNonzero(orig)
    ensures forall c :: c in components' ==> WithinImage(c, width, height)
    ensures Partition(mask[..], orig, width, components', regions')
  {
    ghost var before := mask[..];
    var b;
    ghost var cleared;
    b, cleared := FillComponent(mask, width, height, start);
    PartitionExtends(before, mask[..], orig, width, components, regions, b, cleared);
    assert (components + [b])[..|components|] == components;
    components' := components + [b];
    regions' := regions + [cleared];
  }

  /** The components of the sheet's mask, each with the pixels `regions`
      it covers: the regions split the set pixels between them, and every
      component's bounds are those of its region. */
  method FindConnectedComponents(mask: array<Byte>, width: int, height: int)
    returns (components: seq<ShipBounds>, ghost regions: seq<set<int>>)
    requires width >= 0 && height >= 0 && mask.Length == width * height
    modifies mask
    ensures forall k :: 0 <= k < mask.Length ==> mask[k] == 0
    ensures SumAreas(components) == CountNonzero(old(mask[..]))
    ensures forall c :: c in components ==> WithinImage(c, width, height)
    ensures Partition(mask[..], old(mask[..]), width, components, regions)
    ensures forall k :: 0 <= k < mask.Length && old(mask[k]) != 0 ==> k in Union(regions)
  {
    components := [];
    regions := [];
    for start := 0 to mask.Length
      invariant forall k :: 0 <= k < start ==> mask[k] == 0
      invariant forall k :: 0 <= k < mask.Length && mask[k] != old(mask[k]) ==> mask[k] == 0
      invariant SumAreas(components) + CountNonzero(mask[..]) == CountNonzero(old(mask[..]))
      invariant forall c :: c in components ==> WithinImage(c, width, height)
      invariant Partition(mask[..], old(mask[..]), width, components, regions)
    {
      if mask[start] == 0 {
        continue;
      }
      components, regions := AddComponent(mask, width, height, start, components, regions, old(mask[..]));
    }
    CountNonzeroAllZero(mask[..]);
    assert forall k :: 0 <= k < mask.Length ==> old(mask[k]) == old(mask[..])[k] && mask[k] == mask[..][k];
  }

  // ---------------------------------------------------------------------
  // Choosing the ships

  const MIN_COMPONENT_AREA: int := 280
  const MIN_COMPONENT_WIDTH: int := 26
  const MIN_COMPONENT_HEIGHT: int := 22
  const MIN_SHIP_WIDTH: int := 42
  const MIN_SHIP_HEIGHT: int := 30

  /** The texture a band of the sheet supplies, top to bottom. */
  datatype ShipKey = PlayerShip | EnemyRedShip | EnemyYellowShip

  const BAND_KEYS: seq<ShipKey> := [PlayerShip, EnemyRedShip, EnemyYellowShip]

  /** The first filter: big enough to be a ship at all. */
  predicate LargeEnough(b: ShipBounds)
  {
    b.area >= MIN_COMPONENT_AREA && BoxWidth(b) >= MIN_COMPONENT_WIDTH && BoxHeight(b) >= MIN_COMPONENT_HEIGHT
  }

  /** The top of band `k` (0, 1 or 2) of a sheet `height` rows tall; band
      `k` runs from `BandTop(k)` up to, not including, `BandTop(k + 1)`. */
  function BandTop(k: int, height: int): real
  {
    (k * height) as real / 3.0
  }

  /** A candidate for band `k`: centred in the band and large enough for a ship sprite. */
  predicate InBand(b: ShipBounds, k: int, height: int)
  {
    && BandTop(k, height) <= b.centerY < BandTop(k + 1, height)
    && BoxWidth(b) >= MIN_SHIP_WIDTH && BoxHeight(b) >= MIN_SHIP_HEIGHT
  }

  function FilterLarge(cs: seq<ShipBounds>): (r: seq<ShipBounds>)
    ensures forall b :: b in r <==> b in cs && LargeEnough(b)
    ensures |r| <= |cs|
  {
    if cs == [] then []
    else if LargeEnough(cs[0]) then [cs[0]] + FilterLarge(cs[1..])
    else FilterLarge(cs[1..])
  }

  function Candidates(cs: seq<ShipBounds>, k: int, height: int): (r: seq<ShipBounds>)
    ensures forall b :: b in r <==> b in cs && InBand(b, k, height)
    ensures |r| <= |cs|
  {
    if cs == [] then []
    else if InBand(cs[0], k, height) then [cs[0]] + Candidates(cs[1..], k, height)
    else Candidates(cs[1..], k, height)
  }

  /** `a` sorts before `b` under the sheet's comparator: further right, or
      as far right and larger. */
  predicate Outranks(a: ShipBounds, b: ShipBounds)
  {
    a.maxX > b.maxX || (a.maxX == b.maxX && a.area > b.area)
  }

  /** The head of the (stable) sort of the candidates: a best-ranked one,
      the earliest of those tied for best. */
  function PickBest(cs: seq<ShipBounds>): (p: ShipBounds)
    requires |cs| > 0
    ensures p in cs
    ensures forall c :: c in cs ==> !Outranks(c, p)
    ensures exists i :: 0 <= i < |cs| && cs[i] == p && forall j :: 0 <= j < i ==> Outranks(p, cs[j])
    decreases |cs|
  {
    if |cs| == 1 then cs[0]
    else
      var rest := PickBest(cs[1..]);
      if Outranks(rest, cs[0]) then
        var i :| 0 <= i < |cs| - 1 && cs[1..][i] == rest && forall j :: 0 <= j < i ==> Outranks(rest, cs[1..][j]);
        assert cs[i + 1] == rest && forall j :: 0 <= j < i + 1 ==> Outranks(rest, cs[j]);
        rest
      else
        assert forall c :: c in cs[1..] ==> !Outranks(c, cs[0]) by {
          forall c | c in cs[1..]
            ensures !Outranks(c, cs[0])
          {
            NotOutranksTransitive(c, rest, cs[0]);
          }
        }
        cs[0]
  }

  /** Not sorting strictly before is transitive: the comparator is a total preorder. */
  lemma NotOutranksTransitive(a: ShipBounds, b: ShipBounds, c: ShipBounds)
    requires !Outranks(a, b) && !Outranks(b, c)
    ensures !Outranks(a, c)
  {
  }

  /** No component is a candidate for band `k`. */
  predicate BandEmpty(large: seq<ShipBounds>, k: int, height: int)
  {
    forall c :: c in large ==> !InBand(c, k, height)
  }

  /** The band-by-band choice of `detectTargetShipBounds`, given the
      components that passed the first filter. */
  function SelectShips(large: seq<ShipBounds>, height: int): (r: Option<seq<(ShipKey, ShipBounds)>>)
    ensures r.Some? ==> |r.value| == 3
    ensures r.Some? ==> forall k :: 0 <= k < 3 ==>
      && r.value[k].0 == BAND_KEYS[k]
      && r.value[k].1 in large
      && InBand(r.value[k].1, k, height)
      && (forall c :: c in large && InBand(c, k, height) ==> !Outranks(c, r.value[k].1))
    ensures r.None? <==> BandEmpty(large, 0, height) || BandEmpty(large, 1, height) || BandEmpty(large, 2, height)
  {
    var c0, c1, c2 := Candidates(large, 0, height), Candidates(large, 1, height), Candidates(large, 2, height);
    if |large| == 0 || |c0| == 0 || |c1| == 0 || |c2| == 0 then
      assert |large| == 0 ==> BandEmpty(large, 0, height);
      None
    else
      assert c0[0] in c0 && c1[0] in c1 && c2[0] in c2;
      assert !BandEmpty(large, 0, height) && !BandEmpty(large, 1, height) && !BandEmpty(large, 2, height);
      Some([(PlayerShip, PickBest(c0)), (EnemyRedShip, PickBest(c1)), (EnemyYellowShip, PickBest(c2))])
  }

  /** A mask of `n` cleared cells. */
  function Blank(n: nat): (z: seq<Byte>)
    ensures |z| == n && forall k :: 0 <= k < n ==> z[k] == 0
  {
    seq(n, _ => 0)
  }

  /** What the component search states of the cleared mask, read against
      the foreground mask it started from. */
  lemma ForegroundPartition(m: seq<Byte>, data: seq<Byte>, bg: Rgb, width: int,
                            components: seq<ShipBounds>, regions: seq<set<int>>)
    requires |data| % 4 == 0 && |m| == |data| / 4
    requires forall k :: 0 <= k < |m| ==> m[k] == 0
    requires Partition(m, ForegroundMask(data, bg), width, components, regions)
    requires forall k :: 0 <= k < |m| && ForegroundMask(data, bg)[k] != 0 ==> k in Union(regions)
    ensures Partition(Blank(|m|), ForegroundMask(data, bg), width, components, regions)
    ensures forall k :: 0 <= k < |m| && IsForeground(data, k, bg) ==> k in Union(regions)
  {
    assert m == Blank(|m|);
  }

  /** The whole analysis of a sheet against its background colour: three
      ships, one per band in key order, each a real region of the sheet
      that passes both size filters, or nothing. The components it chooses
      from, with their regions, partition the sheet's foreground pixels,
      and the choice is the band-by-band selection among them. */
  method DetectTargetShipBounds(data: array<Byte>, width: nat, height: nat, bg: Rgb)
    returns (r: Option<seq<(ShipKey, ShipBounds)>>, ghost components: seq<ShipBounds>, ghost regions: seq<set<int>>)
    requires IsImageData(data[..], width, height)
    ensures r == SelectShips(FilterLarge(components), height)
    ensures Partition(Blank(width * height), ForegroundMask(data[..], bg), width, components, regions)
    ensures forall k :: 0 <= k < width * height && IsForeground(data[..], k, bg) ==> k in Union(regions)
    ensures forall c :: c in components ==> WithinImage(c, width, height)
    ensures r.Some? ==> |r.value| == 3
    ensures r.Some? ==> forall k :: 0 <= k < 3 ==>
      && r.value[k].0 == BAND_KEYS[k]
      && LargeEnough(r.value[k].1)
      && InBand(r.value[k].1, k, height)
      && WithinImage(r.value[k].1, width, height)
  {
    var mask := CreateForegroundMask(data, width, height, bg);
    ghost var fg := mask[..];
    var found;
    found, regions := FindConnectedComponents(mask, width, height);
    components := found;
    assert forall k :: 0 <= k < |fg| && fg[k] != 0 ==> k in Union(regions);
    ForegroundPartition(mask[..], data[..], bg, width, components, regions);
    var large := FilterLarge(found);
    if |large| == 0 {
      return None, components, regions;
    }
    r := SelectShips(large, height);
  }
}
