/** VideoFrame::UpdateRect: bounding box, intersection, and scaling along with a cropped frame. */
module UpdateRect {
  import opened Arithmetic

  datatype Rect = Rect(x: int, y: int, width: int, height: int)

  const EMPTY := Rect(0, 0, 0, 0)

  predicate IsEmpty(r: Rect) {
    r.width == 0 && r.height == 0
  }

  predicate Contains(r: Rect, px: int, py: int) {
    r.x <= px < r.x + r.width && r.y <= py < r.y + r.height
  }

  function Max(a: int, b: int): int { if a < b then b else a }

  function Min(a: int, b: int): int { if b < a then b else a }

  function Union(a: Rect, b: Rect): (r: Rect)
    ensures forall px, py :: Contains(a, px, py) || Contains(b, px, py) ==> Contains(r, px, py)
  {
    if IsEmpty(b) then a
    else if IsEmpty(a) then b
    else
      var right, bottom := Max(a.x + a.width, b.x + b.width), Max(a.y + a.height, b.y + b.height);
      var left, top := Min(a.x, b.x), Min(a.y, b.y);
      Rect(left, top, right - left, bottom - top)
  }

  /** An empty rectangle, wherever it lies, adds nothing. */
  lemma {:induction false} UnionWithEmpty(a: Rect, b: Rect, px: int, py: int)
    requires IsEmpty(a) || IsEmpty(b)
    ensures Contains(Union(a, b), px, py) <==> Contains(a, px, py) || Contains(b, px, py)
    ensures IsEmpty(Union(a, b)) <==> IsEmpty(a) && IsEmpty(b)
  {
  }

  /** No smaller rectangle than the union covers two rectangles that have pixels. */
  lemma {:induction false} UnionIsLeast(a: Rect, b: Rect, r: Rect, px: int, py: int)
    requires a.width > 0 && a.height > 0 && b.width > 0 && b.height > 0
    requires forall qx, qy :: Contains(a, qx, qy) || Contains(b, qx, qy) ==> Contains(r, qx, qy)
    requires Contains(Union(a, b), px, py)
    ensures Contains(r, px, py)
  {
    assert Contains(a, a.x, a.y) && Contains(a, a.x + a.width - 1, a.y + a.height - 1);
    assert Contains(b, b.x, b.y) && Contains(b, b.x + b.width - 1, b.y + b.height - 1);
  }

  function Intersect(a: Rect, b: Rect): (r: Rect)
    ensures forall px, py :: Contains(r, px, py) <==> Contains(a, px, py) && Contains(b, px, py)
    ensures r == EMPTY || (r.width > 0 && r.height > 0)
  {
    if IsEmpty(b) || IsEmpty(a) then EMPTY
    else
      var right, bottom := Min(a.x + a.width, b.x + b.width), Min(a.y + a.height, b.y + b.height);
      var left, top := Max(a.x, b.x), Max(a.y, b.y);
      if right - left <= 0 || bottom - top <= 0 then EMPTY else Rect(left, top, right - left, bottom - top)
  }

  // ---- scale_with_frame, one axis at a time ----

  datatype Span = Span(start: int, size: int)

  /** The part of the rectangle right of the crop's left edge, in crop coordinates. */
  function Clipped(start: int, size: int, crop: int): Span {
    if start - crop < 0 then Span(0, size + (start - crop)) else Span(start - crop, size)
  }

  /** Lower edge rounded down, size rounded up. */
  function Scaled(s: Span, cropSize: int, scaledSize: int): Span
    requires cropSize > 0
  {
    Span(s.start * scaledSize / cropSize, (s.size * scaledSize + cropSize - 1) / cropSize)
  }

  /** Outwards to even start and size. */
  function Snapped(s: Span): Span {
    var odd := s.start % 2;
    Span(s.start - odd, s.size + odd + (s.size + odd) % 2)
  }

  function Expanded(s: Span): Span {
    if s.start > 0 then Span(s.start - 2, s.size + 4) else Span(s.start, s.size + 2)
  }

  function Clamped(s: Span, scaledSize: int): Span {
    if s.start + s.size > scaledSize then Span(s.start, scaledSize - s.start) else s
  }

  function Axis(start: int, size: int, crop: int, cropSize: int, scaledSize: int, expand: bool): Span
    requires cropSize > 0
  {
    var snapped := Snapped(Scaled(Clipped(start, size, crop), cropSize, scaledSize));
    Clamped(if expand then Expanded(snapped) else snapped, scaledSize)
  }

  /** The rectangle misses the cropped area along this axis. */
  predicate Outside(start: int, size: int, crop: int, cropSize: int) {
    start + size < crop || start > crop + cropSize
  }

  lemma {:induction false} DivBounds(a: int, b: int)
    requires b > 0
    ensures a / b * b <= a < a / b * b + b
  {
  }

  lemma {:induction false} ScaledRange(s: Span, cropSize: int, scaledSize: int)
    requires cropSize > 0 && scaledSize > 0 && 0 <= s.start <= cropSize && 0 <= s.size
    ensures var r := Scaled(s, cropSize, scaledSize); 0 <= r.start <= scaledSize && 0 <= r.size
  {
    var p, q := s.start * scaledSize, s.size * scaledSize + cropSize - 1;
    Monotone(0, s.start, scaledSize);
    Monotone(s.start, cropSize, scaledSize);
    Monotone(0, s.size, scaledSize);
    Quotient(p, cropSize, scaledSize);
    DivBounds(q, cropSize);
    CancelLess(-1, q / cropSize, cropSize);
  }

  lemma {:induction false} Quotient(p: int, c: int, n: int)
    requires c > 0 && 0 <= p <= c * n
    ensures 0 <= p / c <= n
  {
    DivBounds(p, c);
    assert (n + 1) * c == c * n + c && (p / c + 1) * c == p / c * c + c;
    CancelLess(p / c, n + 1, c);
    CancelLess(-1, p / c, c);
  }

  /** The result lies inside the scaled frame and starts at an even position. */
  lemma {:induction false} AxisIsInside(start: int, size: int, crop: int, cropSize: int, scaledSize: int, expand: bool)
    requires size >= 0 && cropSize > 0 && scaledSize > 0 && !Outside(start, size, crop, cropSize)
    ensures var r := Axis(start, size, crop, cropSize, scaledSize, expand);
      0 <= r.start && r.start % 2 == 0 && 0 <= r.size && r.start + r.size <= scaledSize
  {
    ScaledRange(Clipped(start, size, crop), cropSize, scaledSize);
  }

  /** Source pixel `i` of the frame, scaled, overlaps destination pixel `d`. */
  predicate Touches(i: int, d: int, crop: int, cropSize: int, scaledSize: int) {
    (i - crop) * scaledSize < (d + 1) * cropSize && d * cropSize < (i + 1 - crop) * scaledSize
  }

  /** Rounding down and up separately may fall short by less than one pixel. */
  lemma {:induction false} ScaledReaches(s: Span, cropSize: int, scaledSize: int, j: int, d: int)
    requires cropSize > 0 && scaledSize > 0 && s.start <= j < s.start + s.size
    requires j * scaledSize < (d + 1) * cropSize && d * cropSize < (j + 1) * scaledSize
    ensures var r := Scaled(s, cropSize, scaledSize); r.start <= d <= r.start + r.size
    ensures var r := Scaled(s, cropSize, scaledSize); cropSize == scaledSize ==> d < r.start + r.size
  {
    var p, q := s.start * scaledSize, s.size * scaledSize;
    var lo, len := p / cropSize, (q + cropSize - 1) / cropSize;
    DivBounds(p, cropSize);
    DivBounds(q + cropSize - 1, cropSize);
    Monotone(s.start, j, scaledSize);
    Monotone(j + 1, s.start + s.size, scaledSize);
    assert (s.start + s.size) * scaledSize == p + q;
    assert (d + 1) * cropSize == d * cropSize + cropSize;
    CancelLess(lo, d + 1, cropSize);
    assert (lo + len) * cropSize == lo * cropSize + len * cropSize;
    assert (lo + len + 1) * cropSize == (lo + len) * cropSize + cropSize;
    CancelLess(d, lo + len + 1, cropSize);
    if cropSize == scaledSize {
      Exact(s.start, cropSize);
      Exact(s.size, cropSize);
      assert d * cropSize < (j + 1) * cropSize;
      CancelLess(d, j + 1, cropSize);
    }
  }

  lemma {:induction false} Exact(a: int, c: int)
    requires c > 0
    ensures a * c / c == a && (a * c + c - 1) / c == a
  {
    DivBounds(a * c, c);
    CancelBetween(a * c / c, a, c);
    DivBounds(a * c + c - 1, c);
    CancelBetween((a * c + c - 1) / c, a, c);
  }

  lemma {:induction false} CancelBetween(q: int, a: int, c: int)
    requires c > 0 && q * c < a * c + c && a * c < q * c + c
    ensures q == a
  {
    assert (a + 1) * c == a * c + c && (q + 1) * c == q * c + c;
    CancelLess(q, a + 1, c);
    CancelLess(a, q + 1, c);
  }

  /** The result covers every destination pixel that a pixel of the rectangle inside the crop touches,
      provided it is expanded whenever the axis is really scaled. */
  lemma {:induction false} AxisCovers(start: int, size: int, crop: int, cropSize: int, scaledSize: int, expand: bool, i: int, d: int)
    requires cropSize > 0 && scaledSize > 0 && (expand || scaledSize == cropSize)
    requires start <= i < start + size && crop <= i < crop + cropSize
    requires 0 <= d < scaledSize && Touches(i, d, crop, cropSize, scaledSize)
    ensures var r := Axis(start, size, crop, cropSize, scaledSize, expand); r.start <= d < r.start + r.size
  {
    var clipped := Clipped(start, size, crop);
    assert clipped.start <= i - crop < clipped.start + clipped.size;
    assert i + 1 - crop == (i - crop) + 1;
    ScaledReaches(clipped, cropSize, scaledSize, i - crop, d);
  }

  lemma {:induction false} ScaledIsTight(c: Span, cropSize: int, scaledSize: int)
    requires cropSize > 0
    ensures var s := Scaled(c, cropSize, scaledSize);
      && c.start * scaledSize < (s.start + 1) * cropSize
      && (s.start + s.size - 1) * cropSize < (c.start + c.size) * scaledSize
  {
    var p, q := c.start * scaledSize, c.size * scaledSize;
    var x, w := p / cropSize, (q + cropSize - 1) / cropSize;
    DivBounds(p, cropSize);
    DivBounds(q + cropSize - 1, cropSize);
    assert (c.start + c.size) * scaledSize == p + q;
    assert (x + 1) * cropSize == x * cropSize + cropSize;
    assert (x + w - 1) * cropSize == x * cropSize + w * cropSize - cropSize;
  }

  lemma {:induction false} SettlingIsTight(s: Span, scaledSize: int, expand: bool)
    ensures var r, margin := Clamped(if expand then Expanded(Snapped(s)) else Snapped(s), scaledSize), if expand then 4 else 2;
      s.start + 1 <= r.start + margin && r.start + r.size - margin <= s.start + s.size - 1
  {
  }

  /** And it reaches less than four destination pixels beyond the exact image of the rectangle on either
      side, less than two when nothing is scaled. */
  lemma {:induction false} AxisIsTight(start: int, size: int, crop: int, cropSize: int, scaledSize: int, expand: bool)
    requires cropSize > 0
    ensures var r, c, margin := Axis(start, size, crop, cropSize, scaledSize, expand), Clipped(start, size, crop), if expand then 4 else 2;
      && c.start * scaledSize < (r.start + margin) * cropSize
      && (r.start + r.size - margin) * cropSize < (c.start + c.size) * scaledSize
  {
    var r, c, margin := Axis(start, size, crop, cropSize, scaledSize, expand), Clipped(start, size, crop), if expand then 4 else 2;
    var s := Scaled(c, cropSize, scaledSize);
    ScaledIsTight(c, cropSize, scaledSize);
    SettlingIsTight(s, scaledSize, expand);
    Monotone(s.start + 1, r.start + margin, cropSize);
    Monotone(r.start + r.size - margin, s.start + s.size - 1, cropSize);
  }

  /** What a result keeps clear of the exact image when it is expanded: two pixels on the left, more than one
      on the right, as far as the frame goes. Its size is even unless it ends with the frame. */
  predicate Roomy(x: int, w: int, start: int, size: int, crop: int, cropSize: int, scaledSize: int) {
    var first, end := if start < crop then 0 else start - crop, start + size - crop;
    && (x == 0 || (x + 2) * cropSize <= first * scaledSize)
    && (x + w == scaledSize || end * scaledSize < (x + w - 1) * cropSize)
  }

  predicate EvenInside(x: int, w: int, scaledSize: int) {
    w % 2 == 0 || x + w == scaledSize
  }

  lemma {:induction false} ScaledEnd(c: Span, cropSize: int, scaledSize: int)
    requires cropSize > 0
    ensures var s := Scaled(c, cropSize, scaledSize);
      s.start * cropSize <= c.start * scaledSize && (c.start + c.size) * scaledSize < (s.start + s.size + 1) * cropSize
  {
    var p, q := c.start * scaledSize, c.size * scaledSize;
    var x, w := p / cropSize, (q + cropSize - 1) / cropSize;
    DivBounds(p, cropSize);
    DivBounds(q + cropSize - 1, cropSize);
    assert (c.start + c.size) * scaledSize == p + q;
    assert (x + w + 1) * cropSize == x * cropSize + w * cropSize + cropSize;
  }

  lemma {:induction false} SettlingIsRoomy(s: Span, scaledSize: int, expand: bool)
    requires 0 <= s.start
    ensures var r := Clamped(if expand then Expanded(Snapped(s)) else Snapped(s), scaledSize);
      && EvenInside(r.start, r.size, scaledSize)
      && (expand ==> (r.start == 0 || r.start + 2 <= s.start) &&
                     (r.start + r.size == scaledSize || s.start + s.size + 2 <= r.start + r.size))
  {
  }

  lemma {:induction false} AxisIsRoomy(start: int, size: int, crop: int, cropSize: int, scaledSize: int, expand: bool)
    requires size >= 0 && cropSize > 0 && scaledSize > 0 && !Outside(start, size, crop, cropSize)
    ensures var r := Axis(start, size, crop, cropSize, scaledSize, expand);
      && EvenInside(r.start, r.size, scaledSize)
      && (expand ==> Roomy(r.start, r.size, start, size, crop, cropSize, scaledSize))
  {
    var c := Clipped(start, size, crop);
    var s, r := Scaled(c, cropSize, scaledSize), Axis(start, size, crop, cropSize, scaledSize, expand);
    assert s.start >= 0 by { ScaledRange(c, cropSize, scaledSize); }
    SettlingIsRoomy(s, scaledSize, expand);
    if expand {
      ScaledEnd(c, cropSize, scaledSize);
      if r.start != 0 {
        Monotone(r.start + 2, s.start, cropSize);
      }
      if r.start + r.size != scaledSize {
        Monotone(s.start + s.size + 1, r.start + r.size - 1, cropSize);
      }
    }
  }

  // ---- the code ----

  /** Snapping, expanding and clamping. */
  method Settle(a: int, b: int, scaledSize: int, expand: bool) returns (x: int, w: int)
    ensures var snapped := Snapped(Span(a, b));
      Span(x, w) == Clamped(if expand then Expanded(snapped) else snapped, scaledSize)
  {
    x, w := a, b;
    if x % 2 != 0 {
      x := x - 1;
      w := w + 1;
    }
    if w % 2 != 0 {
      w := w + 1;
    }
    if expand {
      if x > 0 {
        x := x - 2;
        w := w + 2;
      }
      w := w + 2;
    }
    if x + w > scaledSize {
      w := scaledSize - x;
    }
  }

  /** What scale_with_frame does along one axis. */
  method ScaleAxis(start: int, size: int, crop: int, cropSize: int, scaledSize: int, expand: bool) returns (x: int, w: int)
    requires size >= 0 && cropSize > 0 && scaledSize > 0 && !Outside(start, size, crop, cropSize)
    ensures Span(x, w) == Axis(start, size, crop, cropSize, scaledSize, expand)
  {
    x, w := start - crop, size;
    if x < 0 {
      w := w + x;
      x := 0;
    }
    x, w := x * scaledSize / cropSize, (w * scaledSize + cropSize - 1) / cropSize;
    x, w := Settle(x, w, scaledSize, expand);
  }

  ghost predicate Touched(px: int, py: int, dx: int, dy: int, crop: Rect, scaledWidth: int, scaledHeight: int) {
    Touches(px, dx, crop.x, crop.width, scaledWidth) && Touches(py, dy, crop.y, crop.height, scaledHeight)
  }

  /** Every destination pixel touched by a pixel of `r` inside the crop is in `result`. */
  ghost predicate Covers(result: Rect, r: Rect, crop: Rect, scaledWidth: int, scaledHeight: int) {
    forall px, py, dx, dy :: Contains(r, px, py) && Contains(crop, px, py)
      && Contains(Rect(0, 0, scaledWidth, scaledHeight), dx, dy) && Touched(px, py, dx, dy, crop, scaledWidth, scaledHeight)
      ==> Contains(result, dx, dy)
  }

  lemma {:induction false} AxesCover(r: Rect, crop: Rect, scaledWidth: int, scaledHeight: int, expand: bool)
    requires crop.width > 0 && crop.height > 0 && scaledWidth > 0 && scaledHeight > 0
    requires expand || (scaledWidth == crop.width && scaledHeight == crop.height)
    ensures var h, v := Axis(r.x, r.width, crop.x, crop.width, scaledWidth, expand), Axis(r.y, r.height, crop.y, crop.height, scaledHeight, expand);
      Covers(Rect(h.start, v.start, h.size, v.size), r, crop, scaledWidth, scaledHeight)
  {
    var h, v := Axis(r.x, r.width, crop.x, crop.width, scaledWidth, expand), Axis(r.y, r.height, crop.y, crop.height, scaledHeight, expand);
    forall px, py, dx, dy | Contains(r, px, py) && Contains(crop, px, py)
      && Contains(Rect(0, 0, scaledWidth, scaledHeight), dx, dy) && Touched(px, py, dx, dy, crop, scaledWidth, scaledHeight)
      ensures Contains(Rect(h.start, v.start, h.size, v.size), dx, dy)
    {
      AxisCovers(r.x, r.width, crop.x, crop.width, scaledWidth, expand, px, dx);
      AxisCovers(r.y, r.height, crop.y, crop.height, scaledHeight, expand, py, dy);
    }
  }

  /** The scaled rectangle; empty when the rectangle misses the crop or has no extent left along an axis. */
  ghost function ScaledRect(r: Rect, crop: Rect, scaledWidth: int, scaledHeight: int): Rect
    requires crop.width > 0 && crop.height > 0
  {
    var expand := scaledWidth != crop.width || scaledHeight != crop.height;
    var h, v := Axis(r.x, r.width, crop.x, crop.width, scaledWidth, expand), Axis(r.y, r.height, crop.y, crop.height, scaledHeight, expand);
    if Outside(r.x, r.width, crop.x, crop.width) || Outside(r.y, r.height, crop.y, crop.height) || h.size == 0 || v.size == 0
    then EMPTY else Rect(h.start, v.start, h.size, v.size)
  }

  /** Along one axis the result reaches less than `margin` pixels beyond the exact image of the rectangle. */
  predicate Near(x: int, w: int, start: int, size: int, crop: int, cropSize: int, scaledSize: int, margin: int) {
    var first, end := if start < crop then 0 else start - crop, start + size - crop;
    first * scaledSize < (x + margin) * cropSize && (x + w - margin) * cropSize < end * scaledSize
  }

  /** Less than two pixels beyond the exact image when the frame is only cropped, less than four when it is scaled. */
  predicate NearImage(result: Rect, r: Rect, crop: Rect, scaledWidth: int, scaledHeight: int) {
    var margin := if scaledWidth == crop.width && scaledHeight == crop.height then 2 else 4;
    IsEmpty(result) || (Near(result.x, result.width, r.x, r.width, crop.x, crop.width, scaledWidth, margin)
                        && Near(result.y, result.height, r.y, r.height, crop.y, crop.height, scaledHeight, margin))
  }

  /** Even sizes inside the frame, and room for scaling artifacts when the frame is scaled. */
  predicate ClearOfImage(result: Rect, r: Rect, crop: Rect, scaledWidth: int, scaledHeight: int) {
    IsEmpty(result) ||
    (EvenInside(result.x, result.width, scaledWidth) && EvenInside(result.y, result.height, scaledHeight)
     && ((scaledWidth == crop.width && scaledHeight == crop.height) ||
         (Roomy(result.x, result.width, r.x, r.width, crop.x, crop.width, scaledWidth)
          && Roomy(result.y, result.height, r.y, r.height, crop.y, crop.height, scaledHeight))))
  }

  lemma {:induction false} ScaledRectIsNear(r: Rect, crop: Rect, scaledWidth: int, scaledHeight: int)
    requires crop.width > 0 && crop.height > 0
    ensures NearImage(ScaledRect(r, crop, scaledWidth, scaledHeight), r, crop, scaledWidth, scaledHeight)
  {
    var expand := scaledWidth != crop.width || scaledHeight != crop.height;
    AxisIsTight(r.x, r.width, crop.x, crop.width, scaledWidth, expand);
    AxisIsTight(r.y, r.height, crop.y, crop.height, scaledHeight, expand);
  }

  /** UpdateRect::scale_with_frame: inside the scaled frame, with an even origin, covering what the scaled
      rectangle touches and not much more. */
  method ScaleWithFrame(r: Rect, frameWidth: int, frameHeight: int, crop: Rect, scaledWidth: int, scaledHeight: int)
    returns (result: Rect)
    requires r.width >= 0 && r.height >= 0 && frameWidth > 0 && frameHeight > 0 && crop.width > 0 && crop.height > 0
    requires crop.width + crop.x <= frameWidth && crop.height + crop.y <= frameHeight
    requires scaledWidth > 0 && scaledHeight > 0
    ensures result == ScaledRect(r, crop, scaledWidth, scaledHeight)
    ensures 0 <= result.x && 0 <= result.y && result.x % 2 == 0 && result.y % 2 == 0
    ensures 0 <= result.width && 0 <= result.height
    ensures result.x + result.width <= scaledWidth && result.y + result.height <= scaledHeight
    ensures IsEmpty(result) || (result.width > 0 && result.height > 0)
    ensures Covers(result, r, crop, scaledWidth, scaledHeight)
    ensures NearImage(result, r, crop, scaledWidth, scaledHeight)
    ensures ClearOfImage(result, r, crop, scaledWidth, scaledHeight)
  {
    ScaledRectIsNear(r, crop, scaledWidth, scaledHeight);
    if r.x + r.width < crop.x || r.x > crop.x + crop.width || r.y + r.height < crop.y || r.y > crop.y + crop.height {
      return EMPTY;
    }
    var expand := scaledWidth != crop.width || scaledHeight != crop.height;
    var x, w := ScaleAxis(r.x, r.width, crop.x, crop.width, scaledWidth, expand);
    var y, h := ScaleAxis(r.y, r.height, crop.y, crop.height, scaledHeight, expand);
    AxisIsInside(r.x, r.width, crop.x, crop.width, scaledWidth, expand);
    AxisIsInside(r.y, r.height, crop.y, crop.height, scaledHeight, expand);
    AxesCover(r, crop, scaledWidth, scaledHeight, expand);
    AxisIsRoomy(r.x, r.width, crop.x, crop.width, scaledWidth, expand);
    AxisIsRoomy(r.y, r.height, crop.y, crop.height, scaledHeight, expand);
    if w == 0 || h == 0 {
      return EMPTY;
    }
    return Rect(x, y, w, h);
  }

  // ---- in machine integers ----

  newtype int32 = v: int | -0x8000_0000 <= v < 0x8000_0000

  const LIMIT: int32 := 32767

  lemma {:induction false} SmallProduct(a: int, b: int)
    requires 0 <= a <= 32767 && 0 <= b <= 32767
    ensures 0 <= a * b <= 1073676289
  {
    Monotone(a, 32767, b);
    Monotone(0, a, b);
  }

  lemma {:induction false} QuotientIsSmaller(p: int, c: int)
    requires c > 0 && p >= 0
    ensures 0 <= p / c <= p
  {
    Monotone(1, c, p);
    Quotient(p, c, p);
  }

  /** Rounding the edges. */
  method Scale32(a: int32, b: int32, cropSize: int32, scaledSize: int32) returns (x: int32, w: int32)
    requires 0 <= a <= cropSize && 0 <= b <= LIMIT && 0 < cropSize <= LIMIT && 0 < scaledSize <= LIMIT
    ensures Span(x as int, w as int) == Scaled(Span(a as int, b as int), cropSize as int, scaledSize as int)
    ensures 0 <= x <= scaledSize && 0 <= w <= 0x4000_0000
  {
    SmallProduct(a as int, scaledSize as int);
    SmallProduct(b as int, scaledSize as int);
    ghost var p, q := a as int * scaledSize as int, b as int * scaledSize as int;
    QuotientIsSmaller(p, cropSize as int);
    QuotientIsSmaller(q + cropSize as int - 1, cropSize as int);
    ScaledRange(Span(a as int, b as int), cropSize as int, scaledSize as int);
    x := a * scaledSize / cropSize;
    w := (b * scaledSize + cropSize - 1) / cropSize;
  }

  /** Snapping, expanding and clamping. */
  method Settle32(a: int32, b: int32, scaledSize: int32, expand: bool) returns (x: int32, w: int32)
    requires 0 <= a <= scaledSize <= LIMIT && 0 <= b <= 0x4000_0000
    ensures var snapped := Snapped(Span(a as int, b as int));
      Span(x as int, w as int) == Clamped(if expand then Expanded(snapped) else snapped, scaledSize as int)
  {
    x, w := a, b;
    if x % 2 != 0 {
      x := x - 1;
      w := w + 1;
    }
    if w % 2 != 0 {
      w := w + 1;
    }
    if expand {
      if x > 0 {
        x := x - 2;
        w := w + 2;
      }
      w := w + 2;
    }
    if x + w > scaledSize {
      w := scaledSize - x;
    }
  }

  /** For dimensions up to 32767 no step of the computation leaves 32 bits, and the result is the same. */
  method ScaleAxis32(start: int32, size: int32, crop: int32, cropSize: int32, scaledSize: int32, expand: bool)
    returns (x: int32, w: int32)
    requires -LIMIT <= start <= LIMIT && 0 <= size <= LIMIT && -LIMIT <= crop <= LIMIT
    requires 0 < cropSize <= LIMIT && 0 < scaledSize <= LIMIT
    requires !Outside(start as int, size as int, crop as int, cropSize as int)
    ensures Span(x as int, w as int) == Axis(start as int, size as int, crop as int, cropSize as int, scaledSize as int, expand)
  {
    x, w := start - crop, size;
    if x < 0 {
      w := w + x;
      x := 0;
    }
    x, w := Scale32(x, w, cropSize, scaledSize);
    x, w := Settle32(x, w, scaledSize, expand);
  }
}
