/** `src/image/tga_image.rs`: a TGA header paired with the pixel buffer it describes. */
module TgaImage {
  import opened Base
  import BgrPixel
  import TgaHeader
  import BgrPixelBuffer

  class TGAImage {
    const header: TgaHeader.TGAHeader
    const data: BgrPixelBuffer.BGRPixelBuffer

    /** The header describes the buffer it is paired with. */
    ghost predicate Valid()
      reads this, data
    {
      && data.Valid()
      && header == TgaHeader.GetRgbHeader(data.width, data.height)
    }

    /** `TGAImage::new`: an RGB header and a buffer of the same size filled with `initPixel`. */
    constructor (width: U16, height: U16, initPixel: BgrPixel.BGRPixel)
      ensures Valid() && fresh(data)
      ensures header == TgaHeader.GetRgbHeader(width, height)
      ensures data.width == width && data.height == height
      ensures data.data == BgrPixelBuffer.Tiled(initPixel, width * height)
    {
      header := TgaHeader.GetRgbHeader(width, height);
      data := new BgrPixelBuffer.BGRPixelBuffer(width, height, initPixel);
    }

    /** `width`: read from the header, and equal to the buffer's width. */
    function Width(): (w: U16)
      reads this, data
      requires Valid()
      ensures w == data.width
    {
      header.width
    }

    /** `height`: read from the header, and equal to the buffer's height. */
    function Height(): (h: U16)
      reads this, data
      requires Valid()
      ensures h == data.height
    {
      header.height
    }
  }

  /** The unit test: a new 1 × 2 image reports width 1 and height 2. */
  method TestNew() {
    var image := new TGAImage(1, 2, BgrPixel.FromRgb(0, 0, 0));
    assert image.Width() == 1 && image.Height() == 2;
  }
}
