/** `src/image/bgr_pixel.rs`: a pixel stored blue first, whose iterators yield
    its bytes in file order b, g, r. */
module BgrPixel {
  import opened Base

  datatype BGRPixel = BGRPixel(b: U8, g: U8, r: U8)

  /** `from_rgb` takes the channels in r, g, b order and stores each in its named field. */
  function FromRgb(r: U8, g: U8, b: U8): (p: BGRPixel)
    ensures p.r == r && p.g == g && p.b == b
  {
    BGRPixel(b, g, r)
  }

  /** The bytes both iterators yield, in order. */
  function Bytes(p: BGRPixel): seq<U8> {
    [p.b, p.g, p.r]
  }

  /** What `next` returns at a given `index`. */
  function ByteAt(p: BGRPixel, index: nat): (item: Option<U8>)
    ensures index < 3 ==> item == Some(Bytes(p)[index])
    ensures index >= 3 ==> item == None
  {
    match index
    case 0 => Some(p.b)
    case 1 => Some(p.g)
    case 2 => Some(p.r)
    case _ => None
  }

  /** `PixelIntoIterator`, produced by `pixel.into_iter()`. */
  class PixelIntoIterator {
    const pixel: BGRPixel
    var index: nat

    constructor (pixel: BGRPixel)
      ensures this.pixel == pixel && index == 0
    {
      this.pixel := pixel;
      index := 0;
    }

    method Next() returns (item: Option<U8>)
      modifies this
      ensures item == ByteAt(pixel, old(index))
      ensures index == if item.Some? then old(index) + 1 else old(index)
    {
      if index > 2 {
        return None;
      }
      item := ByteAt(pixel, index);
      index := index + 1;
    }
  }

  /** `PixelIterator`, produced by `(&pixel).into_iter()`. */
  class PixelIterator {
    const pixel: BGRPixel
    var index: nat

    constructor (pixel: BGRPixel)
      ensures this.pixel == pixel && index == 0
    {
      this.pixel := pixel;
      index := 0;
    }

    method Next() returns (item: Option<U8>)
      modifies this
      ensures item == ByteAt(pixel, old(index))
      ensures index == if item.Some? then old(index) + 1 else old(index)
    {
      if index > 2 {
        return None;
      }
      item := ByteAt(pixel, index);
      index := index + 1;
    }
  }

  /** A `for` loop over the owning iterator pushing every item. */
  method CollectOwned(it: PixelIntoIterator) returns (items: seq<U8>)
    requires it.index == 0
    modifies it
    ensures items == Bytes(it.pixel)
  {
    items := [];
    var item := it.Next();
    while item.Some?
      invariant item.Some? ==> 1 <= it.index <= 3 && item == ByteAt(it.pixel, it.index - 1)
      invariant item.Some? ==> items == Bytes(it.pixel)[..it.index - 1]
      invariant item.None? ==> it.index == 3 && items == Bytes(it.pixel)
      decreases 3 - it.index + (if item.Some? then 1 else 0)
    {
      items := items + [item.value];
      item := it.Next();
    }
  }

  /** The same loop over the borrowing iterator. */
  method CollectBorrowed(it: PixelIterator) returns (items: seq<U8>)
    requires it.index == 0
    modifies it
    ensures items == Bytes(it.pixel)
  {
    items := [];
    var item := it.Next();
    while item.Some?
      invariant item.Some? ==> 1 <= it.index <= 3 && item == ByteAt(it.pixel, it.index - 1)
      invariant item.Some? ==> items == Bytes(it.pixel)[..it.index - 1]
      invariant item.None? ==> it.index == 3 && items == Bytes(it.pixel)
      decreases 3 - it.index + (if item.Some? then 1 else 0)
    {
      items := items + [item.value];
      item := it.Next();
    }
  }

  /** `BGRPixel::from_iter`: the first three items become b, g, r (the iterator
      is given by the items it yields; with fewer than three `unwrap` panics). */
  function FromIter(items: seq<U8>): (p: BGRPixel)
    requires |items| >= 3
    ensures Bytes(p) == items[..3]
  {
    BGRPixel(items[0], items[1], items[2])
  }

  /** Collecting what a pixel's iterator yields rebuilds the pixel. */
  lemma FromIterInvertsBytes(p: BGRPixel)
    ensures FromIter(Bytes(p)) == p
  {
  }

  /** Iterating a pixel built from three bytes yields those bytes. */
  lemma BytesInvertFromIter(items: seq<U8>)
    requires |items| == 3
    ensures Bytes(FromIter(items)) == items
  {
  }

  /** The bytes of `from_rgb(r, g, b)` are the channels reversed. */
  lemma BytesOfFromRgb(r: U8, g: U8, b: U8)
    ensures Bytes(FromRgb(r, g, b)) == [b, g, r]
  {
  }

  const BITS_IN_RGB_PIXEL: U8 := 24

  /** 24 bits are the three bytes the iterators yield. */
  lemma BitsCoverBytes(p: BGRPixel)
    ensures BITS_IN_RGB_PIXEL as int == 8 * |Bytes(p)|
  {
  }

  /** The unit tests: from_rgb(1,2,3) iterates as [3,2,1] both ways; from_iter([1,2,3]) is from_rgb(3,2,1). */
  method TestIterators() {
    var p := FromRgb(1, 2, 3);
    var owned := new PixelIntoIterator(p);
    var a := CollectOwned(owned);
    assert a == [3, 2, 1];
    var borrowed := new PixelIterator(p);
    var b := CollectBorrowed(borrowed);
    assert b == [3, 2, 1];
    assert FromIter([1, 2, 3]) == FromRgb(3, 2, 1);
  }
}
