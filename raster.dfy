/** Types shared by the rasteriser: the external `cgmath` points, the `image`
    crate's `Rgb<u8>`, the OBJ `Vertex`, and `src/renderer_error.rs`. */
module Raster {
  import opened Base

  /** `image::Rgb<u8>`, the colour of one pixel of an `RgbImage`. */
  datatype Rgb = Rgb(r: U8, g: U8, b: U8)

  /** The colour `ImageBuffer::new` fills a fresh `RgbImage` with. */
  const BLACK: Rgb := Rgb(0, 0, 0)

  datatype Point2<S> = Point2(x: S, y: S)
  datatype Point3<S> = Point3(x: S, y: S, z: S)

  /** `wavefront_obj::obj::Vertex`, coordinates in normalised device space. */
  datatype Vertex = Vertex(x: real, y: real, z: real)

  /** `Triangle2<S>` of `src/triangle2.rs`, over exact reals. */
  datatype Triangle2 = Triangle2(a: Point2<real>, b: Point2<real>, c: Point2<real>)

  /** `Triangle<S>` of `src/triangle.rs`. */
  datatype Triangle<S> = Triangle(a: Point3<S>, b: Point3<S>, c: Point3<S>)

  /** `RendererError` of `src/renderer_error.rs`. */
  datatype RendererError =
    | PixelOutOfImageBounds(width: U32, height: U32, point: Point2<U32>)
    | NotInNormalizedDeviceCoords(vertex: Vertex)
}
