/** `src/image/tga_header.rs`: the 18-byte header of a TGA file, written field by
    field with every 16-bit field little-endian. */
module TgaHeader {
  import opened Base
  import BgrPixel

  const COLOR_MAPPED_IMAGE: U8 := 1
  const UNMAPPED_BGR: U8 := 2

  datatype TGAHeader = TGAHeader(
    idLength: U8,
    colormapType: U8,
    dataTypeCode: U8,
    colormapOrigin: U16,
    colormapLength: U16,
    colormapDepth: U8,
    xOrigin: U16,
    yOrigin: U16,
    width: U16,
    height: U16,
    bitsPerPixel: U8,
    imageDescriptor: U8)

  /** `TGAHeader::default()`: every field zero. */
  function Default(): TGAHeader {
    TGAHeader(0, 0, 0, 0, 0, 0, 0, 0, 0, 0, 0, 0)
  }

  /** `get_rgb_header`: an uncompressed true-colour header of the given size, 24 bits
      per pixel, everything else left at zero. */
  function GetRgbHeader(width: U16, height: U16): (h: TGAHeader)
    ensures h.dataTypeCode == UNMAPPED_BGR && h.bitsPerPixel == BgrPixel.BITS_IN_RGB_PIXEL
    ensures h.width == width && h.height == height
    ensures h.idLength == 0 && h.colormapType == 0 && h.colormapOrigin == 0 && h.colormapLength == 0
    ensures h.colormapDepth == 0 && h.xOrigin == 0 && h.yOrigin == 0 && h.imageDescriptor == 0
  {
    Default().(dataTypeCode := UNMAPPED_BGR, width := width, height := height,
               bitsPerPixel := BgrPixel.BITS_IN_RGB_PIXEL)
  }

  /** `get_low_bits`: `bit_field as u8` keeps the low byte. */
  function LowBits(v: U16): U8 {
    v % 0x100
  }

  /** `get_high_bits`: `(bit_field >> 8) as u8`; the shift already leaves fewer than 8 bits. */
  function HighBits(v: U16): U8 {
    v / 0x100
  }

  /** A 16-bit field from its low and high bytes: the inverse of the two helpers. */
  function Join(low: U8, high: U8): (v: U16)
    ensures LowBits(v) == low && HighBits(v) == high
  {
    low as int + 0x100 * high as int
  }

  /** The two halves recompose the field. */
  lemma LowHighRecompose(v: U16)
    ensures Join(LowBits(v), HighBits(v)) == v
  {
  }

  /** The unit tests of the two helpers on 0b1111_1111_0000_0000. */
  lemma BitsTest()
    ensures LowBits(0xFF00) == 0 && HighBits(0xFF00) == 0xFF
  {
  }

  /** `as_bytes`, as written: colour-map length is written at bytes 3-4, before the
      colour-map origin at bytes 5-6. */
  function AsBytes(h: TGAHeader): (bytes: seq<U8>)
    ensures |bytes| == 18
    ensures bytes[0] == h.idLength && bytes[1] == h.colormapType && bytes[2] == h.dataTypeCode
    ensures Join(bytes[3], bytes[4]) == h.colormapLength
    ensures Join(bytes[5], bytes[6]) == h.colormapOrigin
    ensures bytes[7] == h.colormapDepth
    ensures Join(bytes[8], bytes[9]) == h.xOrigin
    ensures Join(bytes[10], bytes[11]) == h.yOrigin
    ensures Join(bytes[12], bytes[13]) == h.width
    ensures Join(bytes[14], bytes[15]) == h.height
    ensures bytes[16] == h.bitsPerPixel && bytes[17] == h.imageDescriptor
  {
    [ h.idLength, h.colormapType, h.dataTypeCode,
      LowBits(h.colormapLength), HighBits(h.colormapLength),
      LowBits(h.colormapOrigin), HighBits(h.colormapOrigin),
      h.colormapDepth,
      LowBits(h.xOrigin), HighBits(h.xOrigin),
      LowBits(h.yOrigin), HighBits(h.yOrigin),
      LowBits(h.width), HighBits(h.width),
      LowBits(h.height), HighBits(h.height),
      h.bitsPerPixel, h.imageDescriptor ]
  }

  /** Reads a header back in the layout `AsBytes` writes. */
  function ParseHeader(bytes: seq<U8>): TGAHeader
    requires |bytes| == 18
  {
    TGAHeader(bytes[0], bytes[1], bytes[2],
              Join(bytes[5], bytes[6]), Join(bytes[3], bytes[4]),
              bytes[7],
              Join(bytes[8], bytes[9]), Join(bytes[10], bytes[11]),
              Join(bytes[12], bytes[13]), Join(bytes[14], bytes[15]),
              bytes[16], bytes[17])
  }

  /** Serialising loses nothing: the bytes determine the header. */
  lemma ParseAsBytes(h: TGAHeader)
    ensures ParseHeader(AsBytes(h)) == h
  {
  }

  /** And every 18-byte sequence is the serialisation of some header. */
  lemma {:induction false} AsBytesParse(bytes: seq<U8>)
    requires |bytes| == 18
    ensures AsBytes(ParseHeader(bytes)) == bytes
  {
    var h := ParseHeader(bytes);
    assert Join(bytes[3], bytes[4]) == h.colormapLength;
  }

  /** The unit test: the header of a 1 × 1 image. */
  lemma RgbHeaderBytesTest()
    ensures AsBytes(GetRgbHeader(1, 1)) == [0, 0, 2, 0, 0, 0, 0, 0, 0, 0, 0, 0, 1, 0, 1, 0, 24, 0]
  {
    var one: U16 := 1;
    var zero: U16 := 0;
    assert LowBits(one) == 1 && HighBits(one) == 0;
    assert LowBits(zero) == 0 && HighBits(zero) == 0;
    var h := GetRgbHeader(one, one);
    assert AsBytes(h) == [0, 0, 2, LowBits(zero), HighBits(zero), LowBits(zero), HighBits(zero), 0,
                          LowBits(zero), HighBits(zero), LowBits(zero), HighBits(zero),
                          LowBits(one), HighBits(one), LowBits(one), HighBits(one), 24, 0];
  }

  /** The header in the field order of the Truevision TGA File Format Specification 2.0,
      Field 4: first entry index (origin) before colour-map length. */
  function AsBytesTga20(h: TGAHeader): (bytes: seq<U8>)
    ensures |bytes| == 18
    ensures Join(bytes[3], bytes[4]) == h.colormapOrigin
    ensures Join(bytes[5], bytes[6]) == h.colormapLength
  {
    AsBytes(h)[3 := LowBits(h.colormapOrigin)][4 := HighBits(h.colormapOrigin)]
              [5 := LowBits(h.colormapLength)][6 := HighBits(h.colormapLength)]
  }

  /** The written order agrees with the standard's exactly when origin and length are
      equal, as in every header `get_rgb_header` builds. */
  lemma {:induction false} LayoutsAgree(h: TGAHeader)
    ensures AsBytes(h) == AsBytesTga20(h) <==> h.colormapOrigin == h.colormapLength
  {
    if AsBytes(h) == AsBytesTga20(h) {
      var a := AsBytes(h);
      assert Join(a[3], a[4]) == h.colormapOrigin;
    }
  }

  lemma RgbHeaderIsStandard(width: U16, height: U16)
    ensures AsBytes(GetRgbHeader(width, height)) == AsBytesTga20(GetRgbHeader(width, height))
  {
    LayoutsAgree(GetRgbHeader(width, height));
  }
}
