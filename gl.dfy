/** `src/renderer/gl.rs`: the older line renderer over a TGA image. It transposes
    steep lines, walks the columns half-open from x1 to x2 without reordering the
    points, and stops at the first pixel `set` refuses. */
module Gl {
  import opened Base
  import Numeric
  import RgbPixel
  import BgrPixel
  import BgrPixelBuffer
  import TgaImage
  import opened Raster

  /** `offset_percent_u16`: how far `mid` is from `begin` towards `end`. The `u16`
      subtraction demands `begin <= mid`; the loop only calls it with `mid < end`. */
  function OffsetPercentU16(begin: U16, end: U16, mid: U16): (t: real)
    requires begin <= mid < end
    ensures 0.0 <= t < 1.0
    ensures mid == begin <==> t == 0.0
  {
    DivBelowOne((mid - begin) as real, (end - begin) as real);
    (mid - begin) as real / (end - begin) as real
  }

  lemma DivBelowOne(a: real, b: real)
    requires 0.0 <= a < b
    ensures 0.0 <= a / b < 1.0
    ensures a == 0.0 <==> a / b == 0.0
  {
    assert (b - a) / b > 0.0;
    assert a / b + (b - a) / b == 1.0;
  }

  /** `lerp_u16`: `begin + round((end − begin) · t) as u16`; `end − begin` panics
      when `end < begin`. */
  function LerpU16(begin: U16, end: U16, t: real): U16
    requires begin <= end && 0.0 <= t <= 1.0
  {
    LerpU16Between(begin, end, t);
    begin + Numeric.RoundHalfAwayFromZero(Numeric.Scale((end - begin) as real, t))
  }

  /** The rounded step lies in [0, end − begin], and t = 0 gives no step. */
  lemma LerpU16Between(begin: U16, end: U16, t: real)
    requires begin <= end && 0.0 <= t <= 1.0
    ensures 0 <= Numeric.RoundHalfAwayFromZero(Numeric.Scale((end - begin) as real, t)) <= end - begin
    ensures t == 0.0 ==> Numeric.RoundHalfAwayFromZero(Numeric.Scale((end - begin) as real, t)) == 0
  {
    Numeric.ScaleBounds((end - begin) as real, t);
    Numeric.RoundBetween(Numeric.Scale((end - begin) as real, t), 0, end - begin);
    Numeric.RoundOfInteger(0);
  }

  lemma LerpU16Range(begin: U16, end: U16, t: real)
    requires begin <= end && 0.0 <= t <= 1.0
    ensures begin <= LerpU16(begin, end, t) <= end
    ensures t == 0.0 ==> LerpU16(begin, end, t) == begin
  {
    LerpU16Between(begin, end, t);
  }

  /** The line after the steep test: (x1, y1, x2, y2) exchanged pointwise when
      |x2 − x1| < |y2 − y1|. */
  datatype GlLine = GlLine(x1: U16, y1: U16, x2: U16, y2: U16, isSteep: bool)

  function Setup(x1: U16, y1: U16, x2: U16, y2: U16): (l: GlLine)
    ensures l.isSteep <==> AbsDiff(x2, x1) < AbsDiff(y2, y1)
    ensures l.isSteep ==> l == GlLine(y1, x1, y2, x2, true)
    ensures !l.isSteep ==> l == GlLine(x1, y1, x2, y2, false)
  {
    if AbsDiff(x2, x1) < AbsDiff(y2, y1) then GlLine(y1, x1, y2, x2, true) else GlLine(x1, y1, x2, y2, false)
  }

  /** The inputs this model admits. When the loop runs with y2 < y1 after the steep
      swap, `lerp_u16` computes `end - begin` in `u16` with end < begin, which panics
      (debug) or wraps (release); such descending lines are excluded here. */
  predicate NoPanic(l: GlLine) {
    l.x1 < l.x2 ==> l.y1 <= l.y2
  }

  /** The coordinates `line` hands to `set`, in order: one per x in [x1, x2). */
  function Points(l: GlLine): (pts: seq<Point2<U16>>)
    requires NoPanic(l)
    ensures |pts| == if l.x1 < l.x2 then l.x2 - l.x1 else 0
  {
    PointsFrom(l, l.x1)
  }

  /** The points for the columns from `x` up to, not including, x2. */
  function PointsFrom(l: GlLine, x: U16): (pts: seq<Point2<U16>>)
    requires NoPanic(l) && l.x1 <= x
    ensures |pts| == if x < l.x2 then l.x2 - x else 0
    decreases l.x2 - x
  {
    if x < l.x2 then [PointAt(l, x)] + PointsFrom(l, x + 1) else []
  }

  /** Point k of the loop is the one for column x1 + k. */
  lemma {:induction false} PointsIndex(l: GlLine, k: nat)
    requires NoPanic(l) && k < |Points(l)|
    ensures Points(l)[k] == PointAt(l, l.x1 + k)
  {
    PointsFromIndex(l, l.x1, k);
  }

  lemma {:induction false} PointsFromIndex(l: GlLine, x: U16, k: nat)
    requires NoPanic(l) && l.x1 <= x && k < |PointsFrom(l, x)|
    ensures PointsFrom(l, x)[k] == PointAt(l, x + k)
    decreases k
  {
    if k > 0 {
      PointsFromIndex(l, x + 1, k - 1);
    }
  }

  /** The pixel set for column `x`: the row is interpolated, and a steep line is
      transposed back. */
  function PointAt(l: GlLine, x: U16): Point2<U16>
    requires NoPanic(l) && l.x1 <= x < l.x2
  {
    var y := LerpU16(l.y1, l.y2, OffsetPercentU16(l.x1, l.x2, x));
    if l.isSteep then Point2(y, x) else Point2(x, y)
  }

  /** The loop is half-open and unordered: each point lies in column [x1, x2) at a
      row in [y1, y2], the first is (x1, y1), and x2 is never drawn. */
  lemma {:induction false} PointsShape(l: GlLine, k: nat)
    requires NoPanic(l) && k < |Points(l)|
    ensures var p := Points(l)[k];
            var (col, row) := if l.isSteep then (p.y, p.x) else (p.x, p.y);
            col == l.x1 + k && l.x1 <= col < l.x2 && l.y1 <= row <= l.y2
    ensures k == 0 ==> Points(l)[k] == if l.isSteep then Point2(l.y1, l.x1) else Point2(l.x1, l.y1)
  {
    var x := l.x1 + k;
    var t := OffsetPercentU16(l.x1, l.x2, x);
    LerpU16Range(l.y1, l.y2, t);
    PointsIndex(l, k);
  }

  /** A line given right to left draws nothing, however long it is. */
  lemma RightToLeftDrawsNothing(x1: U16, y1: U16, x2: U16, y2: U16)
    requires NoPanic(Setup(x1, y1, x2, y2))
    requires x2 < x1 && AbsDiff(y2, y1) <= AbsDiff(x2, x1)
    ensures Points(Setup(x1, y1, x2, y2)) == []
  {
  }

  /** Where the loop stops: the first point `set` refuses, or the end. */
  function FirstOutside(pts: seq<Point2<U16>>, width: U16, height: U16): (k: nat)
    ensures k <= |pts|
    ensures forall i :: 0 <= i < k ==> pts[i].x < width && pts[i].y < height
    ensures k < |pts| ==> pts[k].x >= width || pts[k].y >= height
    decreases |pts|
  {
    if |pts| == 0 then 0
    else if pts[0].x >= width || pts[0].y >= height then 0
    else 1 + FirstOutside(pts[1..], width, height)
  }

  lemma FirstOutsideStops(pts: seq<Point2<U16>>, width: U16, height: U16, k: nat)
    requires k <= FirstOutside(pts, width, height) && k < |pts|
    requires pts[k].x >= width || pts[k].y >= height
    ensures FirstOutside(pts, width, height) == k
  {
  }

  /** The bytes after writing `pixel` at the first k points in turn. */
  function PaintPrefix(data: seq<U8>, width: U16, height: U16, pts: seq<Point2<U16>>, k: nat,
                       pixel: BgrPixel.BGRPixel): (r: seq<U8>)
    requires |data| == 3 * width * height && k <= |pts|
    requires forall i :: 0 <= i < k ==> pts[i].x < width && pts[i].y < height
    ensures |r| == |data|
  {
    if k == 0 then data
    else
      var before := PaintPrefix(data, width, height, pts, k - 1, pixel);
      BgrPixelBuffer.CellInData(width, height, pts[k - 1].x, pts[k - 1].y);
      BgrPixelBuffer.WritePixel(before, BgrPixelBuffer.CoordsToIndex(width, pts[k - 1].x, pts[k - 1].y), pixel)
  }

  /** The loop's state after k points: none of them was off the image and all were written. */
  ghost predicate Progress(start: seq<U8>, width: U16, height: U16, pts: seq<Point2<U16>>, k: nat,
                           pixel: BgrPixel.BGRPixel, data: seq<U8>)
  {
    && |start| == 3 * width * height
    && k <= FirstOutside(pts, width, height)
    && data == PaintPrefix(start, width, height, pts, k, pixel)
  }

  lemma {:induction false} ProgressStep(start: seq<U8>, width: U16, height: U16, pts: seq<Point2<U16>>, k: nat,
                                        pixel: BgrPixel.BGRPixel, data: seq<U8>, p: Point2<U16>, after: seq<U8>)
    requires Progress(start, width, height, pts, k, pixel, data)
    requires k < |pts| && pts[k] == p && p.x < width && p.y < height
    requires BgrPixelBuffer.CoordsToIndex(width, p.x, p.y) + 3 <= |data|
    requires after == BgrPixelBuffer.WritePixel(data, BgrPixelBuffer.CoordsToIndex(width, p.x, p.y), pixel)
    ensures Progress(start, width, height, pts, k + 1, pixel, after)
  {
    if FirstOutside(pts, width, height) == k {
      assert false;
    }
  }

  lemma ProgressStop(start: seq<U8>, width: U16, height: U16, pts: seq<Point2<U16>>, k: nat,
                     pixel: BgrPixel.BGRPixel, data: seq<U8>)
    requires Progress(start, width, height, pts, k, pixel, data)
    requires k < |pts| && (pts[k].x >= width || pts[k].y >= height)
    ensures Drawn(start, data, width, height, pts, pixel, Err)
  {
  }

  lemma ProgressDone(start: seq<U8>, width: U16, height: U16, pts: seq<Point2<U16>>,
                     pixel: BgrPixel.BGRPixel, data: seq<U8>)
    requires Progress(start, width, height, pts, |pts|, pixel, data)
    ensures Drawn(start, data, width, height, pts, pixel, Ok)
  {
  }

  /** What `line` leaves behind: the points up to the first one off the image are
      written in order, and the result is `Ok` exactly when there was none. */
  ghost predicate Drawn(start: seq<U8>, data: seq<U8>, width: U16, height: U16, pts: seq<Point2<U16>>,
                        pixel: BgrPixel.BGRPixel, r: Outcome)
    requires |start| == 3 * width * height
  {
    var k := FirstOutside(pts, width, height);
    && data == PaintPrefix(start, width, height, pts, k, pixel)
    && (r == Ok <==> k == |pts|)
  }

  /** The line colour is an RGB `Pixel`; the image stores it with the same channels. */
  function ToBgr(p: RgbPixel.Pixel): (q: BgrPixel.BGRPixel)
    ensures q.r == p.r && q.g == p.g && q.b == p.b
  {
    BgrPixel.FromRgb(p.r, p.g, p.b)
  }

  /** One turn of `line`'s loop, the k-th: sets the point of column x, or reports it off the image. */
  method SetPoint(buffer: BgrPixelBuffer.BGRPixelBuffer, l: GlLine, x: U16, color: BgrPixel.BGRPixel,
                  ghost start: seq<U8>, ghost k: nat) returns (res: Outcome)
    requires NoPanic(l) && l.x1 <= x < l.x2 && k == x - l.x1 && buffer.Valid()
    requires Progress(start, buffer.width, buffer.height, Points(l), k, color, buffer.data)
    modifies buffer
    ensures buffer.Valid()
    ensures res == Ok ==> Progress(start, buffer.width, buffer.height, Points(l), k + 1, color, buffer.data)
    ensures res == Err ==> Drawn(start, buffer.data, buffer.width, buffer.height, Points(l), color, Err)
  {
    var p := PointAt(l, x);
    PointsIndex(l, k);
    ghost var before := buffer.data;
    res := buffer.Set(p.x, p.y, color);
    if res == Err {
      ProgressStop(start, buffer.width, buffer.height, Points(l), k, color, buffer.data);
    } else {
      ProgressStep(start, buffer.width, buffer.height, Points(l), k, color, before, p, buffer.data);
    }
  }

  class Renderer {
    const image: TgaImage.TGAImage

    /** `from_image`. */
    constructor FromImage(image: TgaImage.TGAImage)
      ensures this.image == image
    {
      this.image := image;
    }

    /** `new(width, height, init_color)`: a `width` × `height` image filled with the colour. */
    constructor (width: U16, height: U16, initColor: RgbPixel.Pixel)
      ensures image.Valid() && fresh(image) && fresh(image.data)
      ensures image.data.width == width && image.data.height == height
      ensures image.data.data == BgrPixelBuffer.Tiled(ToBgr(initColor), width * height)
    {
      image := new TgaImage.TGAImage(width, height, ToBgr(initColor));
    }

    /** `line`: sets the points of `Points` in order until one is off the image;
        that one returns `Err` and the pixels already set stay set. */
    method Line(x1: U16, y1: U16, x2: U16, y2: U16, lineColor: RgbPixel.Pixel) returns (r: Outcome)
      requires image.Valid()
      requires NoPanic(Setup(x1, y1, x2, y2))
      modifies image.data
      ensures image.Valid()
      ensures Drawn(old(image.data.data), image.data.data, image.data.width, image.data.height,
                    Points(Setup(x1, y1, x2, y2)), ToBgr(lineColor), r)
    {
      var l := Setup(x1, y1, x2, y2);
      var a2 := l.x2;
      var buffer := image.data;
      ghost var start := buffer.data;
      var color := ToBgr(lineColor);
      var x := l.x1;
      ghost var k := 0;
      while x < a2
        invariant l.x1 <= x && k == x - l.x1 && (l.x1 < a2 ==> x <= a2)
        invariant buffer.Valid()
        invariant Progress(start, buffer.width, buffer.height, Points(l), k, color, buffer.data)
      {
        var res := SetPoint(buffer, l, x, color, start, k);
        if res == Err {
          return Err;
        }
        x, k := x + 1, k + 1;
      }
      ProgressDone(start, buffer.width, buffer.height, Points(l), color, buffer.data);
      r := Ok;
    }
  }
}
