/** `src/image/bgr_pixel_buffer.rs`: a `width` × `height` image kept as one flat
    byte vector, three bytes (b, g, r) per pixel, rows one after another. */
module BgrPixelBuffer {
  import opened Base
  import BgrPixel

  /** Where pixel (x, y) starts in the byte vector. */
  function CoordsToIndex(width: U16, x: U16, y: U16): (i: nat)
    ensures i % 3 == 0
    ensures i / 3 == x + y * width
  {
    x * 3 + y * width * 3
  }

  /** A pixel inside the image occupies three bytes inside the vector. */
  lemma {:induction false} CellInData(width: U16, height: U16, x: U16, y: U16)
    requires x < width && y < height
    ensures CoordsToIndex(width, x, y) + 3 <= 3 * width * height
  {
    assert y * width <= (height - 1) * width by {
      MulMonotone(y, height - 1, width);
    }
    assert (height - 1) * width == height * width - width;
    assert x + y * width <= height * width - 1;
  }

  /** Two different pixels inside the image never share a byte. */
  lemma {:induction false} CellsDisjoint(width: U16, height: U16, x1: U16, y1: U16, x2: U16, y2: U16)
    requires x1 < width && y1 < height && x2 < width && y2 < height
    requires x1 != x2 || y1 != y2
    ensures CoordsToIndex(width, x1, y1) + 3 <= CoordsToIndex(width, x2, y2)
         || CoordsToIndex(width, x2, y2) + 3 <= CoordsToIndex(width, x1, y1)
  {
    if y1 < y2 {
      RowBefore(width, x1, y1, x2, y2);
    } else if y2 < y1 {
      RowBefore(width, x2, y2, x1, y1);
    }
  }

  /** Every pixel of an earlier row comes before every pixel of a later one. */
  lemma {:induction false} RowBefore(width: U16, x1: U16, y1: U16, x2: U16, y2: U16)
    requires x1 < width && y1 < y2
    ensures x1 + y1 * width < x2 + y2 * width
  {
    MulMonotone(y1 + 1, y2, width);
    assert (y1 + 1) * width == y1 * width + width;
  }

  lemma MulMonotone(a: nat, b: nat, c: nat)
    requires a <= b
    ensures a * c <= b * c
  {
  }

  /** `count` copies of the bytes of `p`, as `repeat(p).flat_map(into_iter).take(3 * count)` yields them. */
  function Tiled(p: BgrPixel.BGRPixel, count: nat): (data: seq<U8>)
    ensures |data| == 3 * count
  {
    seq(3 * count, i requires 0 <= i < 3 * count => BgrPixel.Bytes(p)[i % 3])
  }

  /** Every three-byte slot of a tiled vector holds the pixel's bytes. */
  lemma {:induction false} TiledSlots(p: BgrPixel.BGRPixel, count: nat, k: nat)
    requires k < count
    ensures Tiled(p, count)[3 * k..3 * k + 3] == BgrPixel.Bytes(p)
  {
    var data := Tiled(p, count);
    forall j | 0 <= j < 3
      ensures data[3 * k + j] == BgrPixel.Bytes(p)[j]
    {
      assert (3 * k + j) % 3 == j;
    }
  }

  /** `splice(start..start + 3, pixel.into_iter())`: replaces three bytes with the pixel's. */
  function WritePixel(data: seq<U8>, start: nat, p: BgrPixel.BGRPixel): (r: seq<U8>)
    requires start + 3 <= |data|
    ensures |r| == |data|
    ensures r[start..start + 3] == BgrPixel.Bytes(p)
    ensures forall i :: 0 <= i < |data| && !(start <= i < start + 3) ==> r[i] == data[i]
  {
    data[..start] + BgrPixel.Bytes(p) + data[start + 3..]
  }

  /** Writing one pixel leaves the bytes of every other pixel of the image as they were. */
  lemma WriteKeepsOtherPixels(data: seq<U8>, width: U16, height: U16,
                              x: U16, y: U16, x2: U16, y2: U16, p: BgrPixel.BGRPixel)
    requires |data| == 3 * width * height
    requires x < width && y < height && x2 < width && y2 < height
    requires x != x2 || y != y2
    ensures CoordsToIndex(width, x, y) + 3 <= |data| && CoordsToIndex(width, x2, y2) + 3 <= |data|
    ensures var i2 := CoordsToIndex(width, x2, y2);
            WritePixel(data, CoordsToIndex(width, x, y), p)[i2..i2 + 3] == data[i2..i2 + 3]
  {
    CellInData(width, height, x, y);
    CellInData(width, height, x2, y2);
    CellsDisjoint(width, height, x, y, x2, y2);
  }

  /** The length `new` asks `take` for, as written: `width as u32 * height as u32 * 3`
      in u32 arithmetic, which panics (`None`) when the product does not fit. */
  function TakeCountAsWritten(width: U16, height: U16): (r: Option<U32>)
    ensures r.Some? ==> r.value == 3 * width * height
    ensures r.None? ==> 3 * width * height > U32_MAX
  {
    var n := width * height * 3;
    if n <= U32_MAX then Some(n) else None
  }

  /** A 65535 × 65535 image is a legal `u16` size, yet its byte count overflows `u32`. */
  lemma TakeCountOverflows()
    ensures TakeCountAsWritten(65535, 65535).None?
  {
    var w: U16 := 65535;
    assert w * w * 3 == 12884508675;
  }

  class BGRPixelBuffer {
    const width: U16
    const height: U16
    var data: seq<U8>

    ghost predicate Valid()
      reads this
    {
      |data| == 3 * width * height
    }

    /** `new(width, height, init_color)`: every pixel holds `init_color`. The
        byte count is the exact `3 * width * height`. */
    constructor (width: U16, height: U16, initColor: BgrPixel.BGRPixel)
      ensures this.width == width && this.height == height
      ensures data == Tiled(initColor, width * height)
      ensures Valid()
    {
      this.width := width;
      this.height := height;
      data := Tiled(initColor, width * height);
    }

    /** `set`: `Err` exactly off the image, and then nothing changes; otherwise the
        pixel's three bytes are replaced. */
    method Set(x: U16, y: U16, pixel: BgrPixel.BGRPixel) returns (r: Outcome)
      requires Valid()
      modifies this
      ensures Valid()
      ensures r == Err <==> x >= width || y >= height
      ensures r == Err ==> data == old(data)
      ensures r == Ok ==> (CoordsToIndex(width, x, y) + 3 <= |old(data)|
                           && data == WritePixel(old(data), CoordsToIndex(width, x, y), pixel))
    {
      if x >= width || y >= height {
        return Err;
      }
      CellInData(width, height, x, y);
      var start := CoordsToIndex(width, x, y);
      data := WritePixel(data, start, pixel);
      r := Ok;
    }

    /** `get`: `None` exactly off the image, otherwise the pixel whose bytes are stored there. */
    function Get(x: U16, y: U16): (r: Option<BgrPixel.BGRPixel>)
      reads this
      requires Valid()
      ensures r.None? <==> x >= width || y >= height
      ensures r.Some? ==> (CoordsToIndex(width, x, y) + 3 <= |data|
                           && BgrPixel.Bytes(r.value) == data[CoordsToIndex(width, x, y)..CoordsToIndex(width, x, y) + 3])
    {
      if x >= width || y >= height then None
      else
        CellInData(width, height, x, y);
        var start := CoordsToIndex(width, x, y);
        Some(BgrPixel.FromIter(data[start..]))
    }

    /** `clone_buffer`: a copy of the bytes; sequences are values, so changing the
        copy cannot reach `data`. */
    method CloneBuffer() returns (copy: seq<U8>)
      ensures copy == data
    {
      copy := data;
    }
  }

  /** A new buffer reads back its initial colour at every pixel. */
  lemma NewReadsInit(b: BGRPixelBuffer, initColor: BgrPixel.BGRPixel, x: U16, y: U16)
    requires b.Valid() && b.data == Tiled(initColor, b.width * b.height)
    requires x < b.width && y < b.height
    ensures b.Get(x, y) == Some(initColor)
  {
    CellInData(b.width, b.height, x, y);
    var k := x + y * b.width;
    assert k < b.width * b.height;
    TiledSlots(initColor, b.width * b.height, k);
    BgrPixel.FromIterInvertsBytes(initColor);
    var r := b.Get(x, y);
    assert BgrPixel.Bytes(r.value) == BgrPixel.Bytes(initColor);
    BgrPixel.FromIterInvertsBytes(r.value);
  }

  /** `set` then `get` at the same place returns the pixel, and every other pixel
      reads as before. */
  method SetThenGet(b: BGRPixelBuffer, x: U16, y: U16, pixel: BgrPixel.BGRPixel)
    returns (r: Option<BgrPixel.BGRPixel>)
    requires b.Valid() && x < b.width && y < b.height
    modifies b
    ensures b.Valid()
    ensures r == Some(pixel)
    ensures forall x2: U16, y2: U16 :: x2 < b.width && y2 < b.height && (x2 != x || y2 != y) ==>
              b.Get(x2, y2) == old(b.Get(x2, y2))
  {
    ghost var before := b.data;
    var ok := b.Set(x, y, pixel);
    r := b.Get(x, y);
    BgrPixel.FromIterInvertsBytes(pixel);
    BgrPixel.FromIterInvertsBytes(r.value);
    forall x2: U16, y2: U16 | x2 < b.width && y2 < b.height && (x2 != x || y2 != y)
      ensures b.Get(x2, y2) == old(b.Get(x2, y2))
    {
      WriteKeepsOtherPixels(before, b.width, b.height, x, y, x2, y2, pixel);
      var now := b.Get(x2, y2).value;
      BgrPixel.FromIterInvertsBytes(now);
    }
  }

  /** The unit test on a 2 × 2 buffer: the pixel's b, g, r repeated four times. */
  lemma {:induction false} NewTwoByTwo()
    ensures Tiled(BgrPixel.FromRgb(1, 2, 3), 2 * 2) == [3, 2, 1, 3, 2, 1, 3, 2, 1, 3, 2, 1]
  {
    var p := BgrPixel.FromRgb(1, 2, 3);
    var data := Tiled(p, 4);
    TiledSlots(p, 4, 0);
    TiledSlots(p, 4, 1);
    TiledSlots(p, 4, 2);
    TiledSlots(p, 4, 3);
    assert data == data[0..3] + data[3..6] + data[6..9] + data[9..12];
  }

  /** The unit tests of `get` and `set` on a 3 × 3 black buffer. */
  method TestGetSet() {
    var black := BgrPixel.FromRgb(0, 0, 0);
    var image := new BGRPixelBuffer(3, 3, black);
    NewReadsInit(image, black, 1, 2);
    assert image.Get(1, 2) == Some(black);
    assert image.Get(50, 10) == None && image.Get(3, 2) == None && image.Get(2, 3) == None;
    var e1 := image.Set(3, 2, black);
    var e2 := image.Set(2, 3, black);
    var e3 := image.Set(20, 20, black);
    assert e1 == Err && e2 == Err && e3 == Err;
    var got := SetThenGet(image, 0, 0, black);
    assert got == Some(black);
  }

  /** The unit test of `clone_buffer`: changing the copy leaves the buffer alone. */
  method TestClone() {
    var black := BgrPixel.FromRgb(0, 0, 0);
    var image := new BGRPixelBuffer(3, 3, black);
    var copy := image.CloneBuffer();
    assert copy == image.data;
    copy := copy[0 := 100];
    TiledSlots(black, 9, 0);
    assert image.data[0..3] == [0, 0, 0];
    assert image.data[0] == 0;
  }
}
