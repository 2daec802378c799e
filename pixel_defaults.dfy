/** `src/image/traits/pixel.rs`: the `Pixel` trait's default colour constructors,
    each a call to the implementing type's `from_rgb`. A trait default method is
    modelled as a function of that `from_rgb`. */
module PixelDefaults {
  import opened Base
  import BgrPixel

  function White<P>(fromRgb: (U8, U8, U8) -> P): P {
    fromRgb(255, 255, 255)
  }

  function Blue<P>(fromRgb: (U8, U8, U8) -> P): P {
    fromRgb(0, 0, 255)
  }

  function Black<P>(fromRgb: (U8, U8, U8) -> P): P {
    fromRgb(0, 0, 0)
  }

  function Red<P>(fromRgb: (U8, U8, U8) -> P): P {
    fromRgb(255, 0, 0)
  }

  function Green<P>(fromRgb: (U8, U8, U8) -> P): P {
    fromRgb(0, 255, 0)
  }

  /** For `BGRPixel` the five colours carry these channels and bytes (the unit
      tests compare them with `from_rgb`), and no two of them are equal. */
  lemma BgrDefaults()
    ensures var w := White(BgrPixel.FromRgb); w.r == 255 && w.g == 255 && w.b == 255
    ensures BgrPixel.Bytes(Blue(BgrPixel.FromRgb)) == [255, 0, 0]
    ensures BgrPixel.Bytes(Black(BgrPixel.FromRgb)) == [0, 0, 0]
    ensures BgrPixel.Bytes(Red(BgrPixel.FromRgb)) == [0, 0, 255]
    ensures BgrPixel.Bytes(Green(BgrPixel.FromRgb)) == [0, 255, 0]
    ensures Blue(BgrPixel.FromRgb) != Red(BgrPixel.FromRgb)
    ensures White(BgrPixel.FromRgb) != Black(BgrPixel.FromRgb)
  {
  }
}
