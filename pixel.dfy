/** `src/image/pixel.rs`: an RGB pixel, two iterators over its channels (one
    owning the pixel, one borrowing it) and construction from a byte iterator. */
module RgbPixel {
  import opened Base

  datatype Pixel = Pixel(r: U8, g: U8, b: U8)

  /** `Pixel::new`: white. */
  function New(): (p: Pixel)
    ensures Channels(p) == [255, 255, 255]
  {
    FromRgb(255, 255, 255)
  }

  function FromRgb(r: U8, g: U8, b: U8): Pixel {
    Pixel(r, g, b)
  }

  /** The bytes both iterators yield, in order. */
  function Channels(p: Pixel): seq<U8> {
    [p.r, p.g, p.b]
  }

  /** What `next` returns at a given `index`: the match on 0, 1, 2 and `None` past the end. */
  function ChannelAt(p: Pixel, index: nat): (item: Option<U8>)
    ensures index < 3 ==> item == Some(Channels(p)[index])
    ensures index >= 3 ==> item == None
  {
    match index
    case 0 => Some(p.r)
    case 1 => Some(p.g)
    case 2 => Some(p.b)
    case _ => None
  }

  /** `PixelIntoIterator`, produced by `pixel.into_iter()`. */
  class PixelIntoIterator {
    const pixel: Pixel
    var index: nat

    constructor (pixel: Pixel)
      ensures this.pixel == pixel && index == 0
    {
      this.pixel := pixel;
      index := 0;
    }

    method Next() returns (item: Option<U8>)
      modifies this
      ensures item == ChannelAt(pixel, old(index))
      ensures index == if item.Some? then old(index) + 1 else old(index)
    {
      if index > 2 {
        return None;
      }
      item := ChannelAt(pixel, index);
      index := index + 1;
    }
  }

  /** `PixelIterator`, produced by `(&pixel).into_iter()`. */
  class PixelIterator {
    const pixel: Pixel
    var index: nat

    constructor (pixel: Pixel)
      ensures this.pixel == pixel && index == 0
    {
      this.pixel := pixel;
      index := 0;
    }

    method Next() returns (item: Option<U8>)
      modifies this
      ensures item == ChannelAt(pixel, old(index))
      ensures index == if item.Some? then old(index) + 1 else old(index)
    {
      if index > 2 {
        return None;
      }
      item := ChannelAt(pixel, index);
      index := index + 1;
    }
  }

  /** A `for` loop over the owning iterator pushing every item (the unit test's client). */
  method CollectOwned(it: PixelIntoIterator) returns (items: seq<U8>)
    requires it.index == 0
    modifies it
    ensures items == Channels(it.pixel)
  {
    items := [];
    var item := it.Next();
    while item.Some?
      invariant item.Some? ==> 1 <= it.index <= 3 && item == ChannelAt(it.pixel, it.index - 1)
      invariant item.Some? ==> items == Channels(it.pixel)[..it.index - 1]
      invariant item.None? ==> it.index == 3 && items == Channels(it.pixel)
      decreases 3 - it.index + (if item.Some? then 1 else 0)
    {
      items := items + [item.value];
      item := it.Next();
    }
  }

  /** The same loop over the borrowing iterator. */
  method CollectBorrowed(it: PixelIterator) returns (items: seq<U8>)
    requires it.index == 0
    modifies it
    ensures items == Channels(it.pixel)
  {
    items := [];
    var item := it.Next();
    while item.Some?
      invariant item.Some? ==> 1 <= it.index <= 3 && item == ChannelAt(it.pixel, it.index - 1)
      invariant item.Some? ==> items == Channels(it.pixel)[..it.index - 1]
      invariant item.None? ==> it.index == 3 && items == Channels(it.pixel)
      decreases 3 - it.index + (if item.Some? then 1 else 0)
    {
      items := items + [item.value];
      item := it.Next();
    }
  }

  /** `Pixel::from_iter`: the first three items become r, g, b. An iterator is
      given by the sequence of items it yields; with fewer than three the source's
      `unwrap` panics. */
  function FromIter(items: seq<U8>): (p: Pixel)
    requires |items| >= 3
    ensures Channels(p) == items[..3]
  {
    Pixel(items[0], items[1], items[2])
  }

  /** Collecting what a pixel's iterator yields rebuilds the pixel. */
  lemma FromIterInvertsChannels(p: Pixel)
    ensures FromIter(Channels(p)) == p
  {
  }

  /** Iterating a pixel built from three bytes yields those bytes. */
  lemma ChannelsInvertFromIter(items: seq<U8>)
    requires |items| == 3
    ensures Channels(FromIter(items)) == items
  {
  }

  const BITS_IN_RGB_PIXEL: U8 := 24

  /** 24 bits are the three 8-bit channels the iterators yield. */
  lemma BitsCoverChannels(p: Pixel)
    ensures BITS_IN_RGB_PIXEL as int == 8 * |Channels(p)|
  {
  }

  /** The unit tests: iterating from_rgb(1,2,3) gives [1,2,3]; from_iter([1,2,3]) gives from_rgb(1,2,3). */
  method TestIterators() {
    var p := FromRgb(1, 2, 3);
    var owned := new PixelIntoIterator(p);
    var a := CollectOwned(owned);
    assert a == [1, 2, 3];
    var borrowed := new PixelIterator(p);
    var b := CollectBorrowed(borrowed);
    assert b == [1, 2, 3];
    assert FromIter([1, 2, 3]) == p;
  }
}
