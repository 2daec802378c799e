# mini_renderer in Dafny

This project models the core of `mini_renderer`, a small software
rasteriser written in Rust. The renderer takes triangles whose vertices are
in normalised device coordinates and maps them onto a pixel grid. It draws
each triangle either as a wireframe, with a line drawer that interpolates
one coordinate, or filled, by testing every pixel of the bounding box
against barycentric coordinates and an 8-bit z-buffer. A second,
older pipeline writes lines into a BGR pixel buffer that belongs to a TGA
image with an 18-byte header. The model covers both pipelines and the value
types underneath them:

- `Vector`, `VectorRef`, `VectorValue`: the three generations of the vector
  types, covering addition, subtraction, dot and cross products, scalar
  multiplication and the widening conversions.
- `RgbPixel`, `BgrPixel`, `PixelDefaults`: the pixel types. This covers
  their by-value and borrowed channel iterators, `from_iter`, and the five
  named colours of the `Pixel` trait, which only `BGRPixel` implements.
- `BgrPixelBuffer`: the packed BGR byte buffer. It is a class whose `data`
  sequence `Set` reassigns in place, with exact index arithmetic.
- `TgaHeader`, `TgaImage`: the header's byte layout. This covers the parse
  function that inverts it, the image that owns a header and a buffer, and
  a comparison with the field order of version 2.0 of the Truevision TGA
  File Format Specification.
- `BoundingBox`, `Triangle2D`, `Triangle3D`: barycentric coordinates, the
  inside test, bounding boxes and the depth of an inside point.
- `VertexMapper`: the check that a vertex is in NDC, and the mapping from
  NDC to pixel coordinates.
- `DepthBuffer`: the z-buffer, a class over an `array2` of depths. It
  includes the visibility result and its callback.
- `Lines`: the line drawer, a class that flips the line to shallow,
  orders its endpoints and paints one pixel per column into an `array2`.
- `Gl`: the TGA-based line renderer. Its loop writes points into the
  buffer until the first point falls outside it.
- `TriangleDrawing`, `Rendering`: the triangle drawer with its outline and
  fill loops, and the renderer that owns the colour buffer and the z-buffer.

`Base`, `Numeric` and `Raster` hold the shared definitions:

- the 8-, 16- and 32-bit unsigned ranges, `Option`, `Result`, and points
  and triangles;
- Rust's `f64::round` (half away from zero);
- the saturating and truncating `f64 as u32` casts;
- the RGB colour type of the `image` crate.

Floating-point values are exact reals. Each `f64` division by zero in the
source becomes its own explicit case. A collinear triangle has no
barycentric coordinates. A zero-length line is drawn at its single point;
the source divides 0.0 by 0.0 there and paints row 0 instead. That is a
deliberate correction: the first Findings row has both halves, and
`Lines.OffsetAsWritten` keeps the source's row.

The TGA header is serialised in the source's order, which puts the
colour-map length (bytes 3-4) before the colour-map origin (bytes 5-6).
Field 4 of version 2.0 of the Truevision TGA File Format Specification
orders them the other way, and so do the source's own test comments at
src/image/tga_header.rs:97-100. `TgaHeader.AsBytesTga20` is the standard's
layout. `TgaHeader.LayoutsAgree` shows the two agree exactly when origin and
length are equal, which holds for every header the program builds.

Some operations work by changing state step by step. These are methods with
loops and invariants, and each one is proved against a specification
function or predicate. `Lines.LineDrawer.DrawLine` is proved against
`Lines.Paints`, `TriangleDrawing.TriangleDrawer.FillTriangle` against
`TriangleDrawing.Covers` and `DepthBuffer.Step`, and `Gl.Renderer.Line`
against `Gl.Drawn`. The properties of those specifications are lemmas.

The source has revisions that do not fit together exactly. The model
composes them as follows:

- The line drawer takes no z-buffer.
- The NDC mapper returns a 2-D pixel, so the renderer's triangle methods
  take the three vertex depths as explicit parameters.
- The renderer owns its z-buffer.
- The triangle drawer builds its box with the triangle's own
  `get_bounding_box`.
- `gl.rs` writes through the image's pixel buffer (`BGRPixelBuffer::set`)
  after converting the `&Pixel` colour to BGR (`Gl.ToBgr`).

`get_z_of_inside_point` (src/triangle.rs:41-44) pairs the barycentric
weights with the vertices in rotated order. The model keeps that as
written, and `Triangle3D.ZAtVertices` states what follows from it: at
vertex `a` the depth is `c.z`, at `b` it is `a.z`, and at `c` it is `b.z`.

## Model

| member | source | states |
|---|---|---|
| Vector.New | src/vector.rs:12-16 | the new vector holds exactly the three given components |
| Vector.Add | src/vector.rs:18-23 | component-wise sum; `AddCommutes` and `SubUndoesAdd` state its properties |
| Vector.Sub | src/vector.rs:25-30 | component-wise difference, the inverse of `Add` by `SubUndoesAdd` |
| Vector.SubU32 | src/vector.rs:25-30 | for `u32` components, subtraction that does not underflow stays in `u32`, and adding the subtrahend back restores the minuend |
| Vector.SubUndoesAdd | src/vector.rs:18-30 | subtraction undoes addition, and addition undoes subtraction |
| Vector.AddCommutes | src/vector.rs:18-23 | component-wise addition is commutative |
| Vector.TestValues | src/vector.rs:40-70 | the unit tests' constructions, sums and differences, including the `u32` difference |
| VectorRef.Vector2Algebra | src/vector/vector.rs:28-68 | for `Vector2`: (a+b)−b = a; dot is symmetric; `Scalar*v` equals `v*Scalar`; scaling distributes over addition |
| VectorRef.Dot2 | src/vector/vector.rs:33-35 | x·x′ + y·y′; symmetric by `Vector2Algebra` |
| VectorRef.Add2 | src/vector/vector.rs:38-44 | component-wise sum of borrowed vectors |
| VectorRef.Sub2 | src/vector/vector.rs:46-52 | component-wise difference, undoing `Add2` by `Vector2Algebra` |
| VectorRef.Scale2 | src/vector/vector.rs:54-60 | `v * Scalar(k)`: each component times k |
| VectorRef.ScalarTimes2 | src/vector/vector.rs:62-68 | `Scalar(k) * v`, equal to `Scale2` by `Vector2Algebra` |
| VectorRef.Vector3Algebra | src/vector/vector.rs:77-124 | for `Vector3`: (a+b)−b = a; dot is symmetric; `Scalar*v` equals `v*Scalar`; dot(k·a, b) = k·dot(a, b) |
| VectorRef.Dot3 | src/vector/vector.rs:82-84 | x·x′ + y·y′ + z·z′; symmetric and homogeneous by `Vector3Algebra` |
| VectorRef.Add3 | src/vector/vector.rs:94-100 | component-wise sum of borrowed vectors |
| VectorRef.Sub3 | src/vector/vector.rs:102-108 | component-wise difference, undoing `Add3` by `Vector3Algebra` |
| VectorRef.Scale3 | src/vector/vector.rs:110-116 | `v * Scalar(k)`: each component times k |
| VectorRef.ScalarTimes3 | src/vector/vector.rs:118-124 | `Scalar(k) * v`, equal to `Scale3` by `Vector3Algebra` |
| VectorRef.TestValues | src/vector/vector.rs:138-221 | the unit tests' sums, differences, dot products and scalings |
| VectorRef.Modulus | src/vector/vector.rs:5-17 | every Rust integer type has a positive modulus, its count of values |
| VectorRef.As | src/vector/vector.rs:5-17 | an `as` cast always lands in the target type, and leaves a value that already fits unchanged |
| VectorRef.ProvidedConversionsWiden | src/vector/vector.rs:126-132 | every conversion the macro instantiates goes to a type that holds every value of the source type |
| VectorRef.From | src/vector/vector.rs:5-17 | a provided conversion keeps each component's value and the result fits the target type |
| VectorValue.Vector2Algebra | src/vector/vector2.rs:14-54 | for `Vector2`: (a−b)+b = a; dot is symmetric; `Scalar*v` equals `v*Scalar` |
| VectorValue.Dot2 | src/vector/vector2.rs:19-21 | x·x′ + y·y′; symmetric by `Vector2Algebra` |
| VectorValue.Add2 | src/vector/vector2.rs:24-30 | component-wise sum |
| VectorValue.Sub2 | src/vector/vector2.rs:32-38 | component-wise difference, undone by `Add2` by `Vector2Algebra` |
| VectorValue.Scale2 | src/vector/vector2.rs:40-46 | `v * Scalar(k)`: each component times k |
| VectorValue.ScalarTimes2 | src/vector/vector2.rs:48-54 | `Scalar(k) * v`, equal to `Scale2` by `Vector2Algebra` |
| VectorValue.Vector3Algebra | src/vector/vector2.rs:63-111 | for `Vector3`: (a−b)+b = a; dot is symmetric; `Scalar*v` equals `v*Scalar` |
| VectorValue.Dot3 | src/vector/vector2.rs:68-70 | x·x′ + y·y′ + z·z′; symmetric by `Vector3Algebra` |
| VectorValue.Add3 | src/vector/vector2.rs:81-87 | component-wise sum |
| VectorValue.Sub3 | src/vector/vector2.rs:89-95 | component-wise difference, undone by `Add3` by `Vector3Algebra` |
| VectorValue.Scale3 | src/vector/vector2.rs:97-103 | `v * Scalar(k)`: each component times k |
| VectorValue.ScalarTimes3 | src/vector/vector2.rs:105-111 | `Scalar(k) * v`, equal to `Scale3` by `Vector3Algebra` |
| VectorValue.Cross | src/vector/vector2.rs:72-78 | the cross product with the source's sign on the y component; `CrossIsOrthogonal`, `CrossAntiCommutes` and `TestCross` state its properties |
| VectorValue.CrossIsOrthogonal | src/vector/vector2.rs:72-78 | the cross product is perpendicular to both operands |
| VectorValue.CrossAntiCommutes | src/vector/vector2.rs:72-78 | b × a = −(a × b), and a × a = 0 |
| VectorValue.TestValues2 | src/vector/vector2.rs:131-160 | the unit tests' `Vector2` sum, difference, dot product and scaling |
| VectorValue.TestValues3 | src/vector/vector2.rs:162-199 | the unit tests' `Vector3` sum, dot product and scaling |
| VectorValue.TestCross | src/vector/vector2.rs:201-207 | x̂ × ŷ = ẑ |
| RgbPixel.New | src/image/pixel.rs:11-13 | a new pixel is white: its channels are [255, 255, 255] |
| RgbPixel.FromRgb | src/image/pixel.rs:15-17 | stores r, g and b in their fields; `ChannelsInvertFromIter` and `FromIterInvertsChannels` relate it to the channel order |
| RgbPixel.ChannelAt | src/image/pixel.rs:34-47 | indices 0, 1 and 2 yield r, g and b; every later index yields nothing |
| RgbPixel.PixelIntoIterator.Next | src/image/pixel.rs:34-47 | yields the channel at the current index, and advances the index only when it yields one |
| RgbPixel.PixelIterator.Next | src/image/pixel.rs:63-76 | the borrowed iterator yields and advances exactly like the owned one |
| RgbPixel.CollectOwned | src/image/pixel.rs:20-47 | draining a fresh owned iterator gives exactly the pixel's channels in order r, g, b |
| RgbPixel.CollectBorrowed | src/image/pixel.rs:49-76 | draining a fresh borrowed iterator gives exactly the pixel's channels |
| RgbPixel.FromIter | src/image/pixel.rs:78-87 | the pixel's channels are the first three items |
| RgbPixel.FromIterInvertsChannels | src/image/pixel.rs:20-87 | collecting a pixel's channels with `from_iter` gives the same pixel back |
| RgbPixel.ChannelsInvertFromIter | src/image/pixel.rs:20-87 | the channels of a pixel built from three items are those items |
| RgbPixel.BitsCoverChannels | src/image/pixel.rs:89 | `BITS_IN_RGB_PIXEL` is 8 bits times the number of channels |
| RgbPixel.TestIterators | src/image/pixel.rs:94-117 | the unit tests: `from_rgb(1, 2, 3)` iterates as [1, 2, 3] by value and borrowed, and `from_iter` of [1, 2, 3] is `from_rgb(1, 2, 3)` |
| PixelDefaults.White | src/image/traits/pixel.rs:6-8 | the trait default: the implementor's `from_rgb(255, 255, 255)` |
| PixelDefaults.Blue | src/image/traits/pixel.rs:10-12 | the trait default: `from_rgb(0, 0, 255)` |
| PixelDefaults.Black | src/image/traits/pixel.rs:14-16 | the trait default: `from_rgb(0, 0, 0)` |
| PixelDefaults.Red | src/image/traits/pixel.rs:18-20 | the trait default: `from_rgb(255, 0, 0)` |
| PixelDefaults.Green | src/image/traits/pixel.rs:22-24 | the trait default: `from_rgb(0, 255, 0)` |
| PixelDefaults.BgrDefaults | src/image/traits/pixel.rs:6-24 | the five named BGR colours have the stated bytes in b, g, r order, and are pairwise distinct where the tests compare them |
| BgrPixel.FromRgb | src/image/bgr_pixel.rs:11-15 | the red, green and blue channels are stored as given |
| BgrPixel.ByteAt | src/image/bgr_pixel.rs:51-64 | indices 0, 1 and 2 yield b, g and r; every later index yields nothing |
| BgrPixel.PixelIntoIterator.Next | src/image/bgr_pixel.rs:51-64 | yields the byte at the current index, and advances only when it yields one |
| BgrPixel.PixelIterator.Next | src/image/bgr_pixel.rs:71-84 | the borrowed iterator yields and advances exactly like the owned one |
| BgrPixel.CollectOwned | src/image/bgr_pixel.rs:17-24 | draining a fresh owned iterator gives exactly the bytes b, g, r |
| BgrPixel.CollectBorrowed | src/image/bgr_pixel.rs:26-33 | draining a fresh borrowed iterator gives exactly the bytes b, g, r |
| BgrPixel.FromIter | src/image/bgr_pixel.rs:35-44 | the pixel's bytes are the first three items, read as b, g, r |
| BgrPixel.FromIterInvertsBytes | src/image/bgr_pixel.rs:17-44 | collecting a pixel's bytes with `from_iter` gives the same pixel back |
| BgrPixel.BytesInvertFromIter | src/image/bgr_pixel.rs:17-44 | the bytes of a pixel built from three items are those items |
| BgrPixel.BytesOfFromRgb | src/image/bgr_pixel.rs:11-33 | `from_rgb(r, g, b)` serialises as [b, g, r] |
| BgrPixel.BitsCoverBytes | src/image/bgr_pixel.rs:86 | `BITS_IN_RGB_PIXEL` is 8 bits times the number of bytes |
| BgrPixel.TestIterators | src/image/bgr_pixel.rs:133-156 | the unit tests: `from_rgb(1, 2, 3)` iterates as [3, 2, 1] by value and borrowed, and `from_iter` of [1, 2, 3] is `from_rgb(3, 2, 1)` |
| BgrPixelBuffer.CoordsToIndex | src/image/bgr_pixel_buffer.rs:60-62 | the byte index is a multiple of 3, and the pixel index is x + y·width |
| BgrPixelBuffer.CellInData | src/image/bgr_pixel_buffer.rs:22-44 | every in-range pixel's three bytes lie inside the 3·w·h-byte buffer |
| BgrPixelBuffer.CellsDisjoint | src/image/bgr_pixel_buffer.rs:60-62 | two distinct in-range pixels occupy non-overlapping byte triples, the one with the smaller pixel index first |
| BgrPixelBuffer.RowBefore | src/image/bgr_pixel_buffer.rs:60-62 | any pixel of an earlier row has a smaller pixel index than any pixel of a later row |
| BgrPixelBuffer.Tiled | src/image/bgr_pixel_buffer.rs:14-20 | the initial buffer for `count` pixels is 3·count bytes long |
| BgrPixelBuffer.TiledSlots | src/image/bgr_pixel_buffer.rs:14-20 | every pixel slot of the initial buffer holds the initial colour's bytes |
| BgrPixelBuffer.WritePixel | src/image/bgr_pixel_buffer.rs:22-31 | a write puts the pixel's bytes at the slot and leaves every other byte unchanged |
| BgrPixelBuffer.WriteKeepsOtherPixels | src/image/bgr_pixel_buffer.rs:22-44 | writing one pixel leaves every other pixel's bytes unchanged |
| BgrPixelBuffer.TakeCountAsWritten | src/image/bgr_pixel_buffer.rs:17 | the source's `u32` product yields 3·w·h when it fits, and overflows exactly when 3·w·h exceeds `u32::MAX` |
| BgrPixelBuffer.TakeCountOverflows | src/image/bgr_pixel_buffer.rs:17 | for a 65535×65535 buffer the `u32` product overflows |
| BgrPixelBuffer.BGRPixelBuffer.constructor | src/image/bgr_pixel_buffer.rs:14-20 | a new buffer has the given size and holds w·h copies of the initial colour |
| BgrPixelBuffer.BGRPixelBuffer.Set | src/image/bgr_pixel_buffer.rs:22-31 | fails exactly when x or y is out of range, changing nothing; otherwise writes the pixel's bytes at its slot and nothing else |
| BgrPixelBuffer.BGRPixelBuffer.Get | src/image/bgr_pixel_buffer.rs:33-44 | returns nothing exactly when x or y is out of range; otherwise returns the pixel read from its slot |
| BgrPixelBuffer.BGRPixelBuffer.CloneBuffer | src/image/bgr_pixel_buffer.rs:54-56 | the clone equals the buffer's bytes |
| BgrPixelBuffer.NewReadsInit | src/image/bgr_pixel_buffer.rs:14-44 | every in-range pixel of a new buffer reads as the initial colour |
| BgrPixelBuffer.SetThenGet | src/image/bgr_pixel_buffer.rs:22-44 | after an in-range `set`, `get` returns the new pixel there and the old pixel everywhere else |
| BgrPixelBuffer.NewTwoByTwo | src/image/bgr_pixel_buffer.rs:70-79 | a 2×2 buffer of `from_rgb(1, 2, 3)` is the byte triple [3, 2, 1] four times |
| BgrPixelBuffer.TestGetSet | src/image/bgr_pixel_buffer.rs:81-128 | the unit tests: on a 3×3 black buffer, (1, 2) reads black; (50, 10), (3, 2) and (2, 3) read None; setting (3, 2), (2, 3) or (20, 20) is Err; setting (0, 0) reads back |
| BgrPixelBuffer.TestClone | src/image/bgr_pixel_buffer.rs:156-161 | the unit test: changing the clone's first byte leaves the buffer's first byte 0 |
| TgaHeader.GetRgbHeader | src/image/tga_header.rs:26-33 | the RGB header is uncompressed true colour with 24 bits per pixel and the given size; every other field is zero |
| TgaHeader.LowBits | src/image/tga_header.rs:64-66 | the low byte of a 16-bit field; `LowHighRecompose` shows it and `HighBits` lose nothing |
| TgaHeader.HighBits | src/image/tga_header.rs:68-70 | the high byte of a 16-bit field |
| TgaHeader.Join | src/image/tga_header.rs:64-70 | joining two bytes gives the 16-bit value whose low and high bytes they are |
| TgaHeader.LowHighRecompose | src/image/tga_header.rs:64-70 | the low and high bytes of a value join back to that value |
| TgaHeader.BitsTest | src/image/tga_header.rs:75-85 | the unit test's low and high bytes of 0xFF00 |
| TgaHeader.AsBytes | src/image/tga_header.rs:37-58 | the header is 18 bytes; each field is at its offset, with 16-bit fields little-endian and the colour-map length before its origin |
| TgaHeader.ParseAsBytes | src/image/tga_header.rs:37-58 | parsing the serialised header gives the header back |
| TgaHeader.AsBytesParse | src/image/tga_header.rs:37-58 | serialising a parsed 18-byte block gives the block back |
| TgaHeader.RgbHeaderBytesTest | src/image/tga_header.rs:87-114 | the bytes of the 1×1 RGB header |
| TgaHeader.AsBytesTga20 | src/image/tga_header.rs:37-58 | the standard layout is 18 bytes, with the colour-map origin at bytes 3-4 and the length at bytes 5-6 |
| TgaHeader.LayoutsAgree | src/image/tga_header.rs:37-58 | the source's layout and the standard's agree exactly when the colour-map origin equals the length |
| TgaHeader.RgbHeaderIsStandard | src/image/tga_header.rs:26-58 | for the headers the program builds, the source's layout is the standard's |
| TgaImage.TGAImage.constructor | src/image/tga_image.rs:13-18 | a new image has the RGB header for its size and a fresh buffer filled with the initial pixel |
| TgaImage.TGAImage.Width | src/image/tga_image.rs:20-22 | the width is read from the header and equals the buffer's width |
| TgaImage.TGAImage.Height | src/image/tga_image.rs:24-26 | the height is read from the header and equals the buffer's height |
| TgaImage.TestNew | src/image/tga_image.rs:33-38 | the unit test: a new 1×2 image reports width 1 and height 2 |
| BoundingBox.Min3 | src/bounding_box.rs:11-27 | the result is one of the three values and no greater than any of them |
| BoundingBox.Max3 | src/bounding_box.rs:11-27 | the result is one of the three values and no less than any of them |
| BoundingBox.MinX | src/bounding_box.rs:29-31 | the box's lower-left x |
| BoundingBox.MinY | src/bounding_box.rs:33-35 | the box's lower-left y |
| BoundingBox.MaxX | src/bounding_box.rs:37-39 | the box's upper-right x |
| BoundingBox.MaxY | src/bounding_box.rs:41-43 | the box's upper-right y |
| BoundingBox.FromTriangle2 | src/bounding_box.rs:11-27 | the box contains all three vertices; each side lies on a vertex coordinate; the box is not inverted |
| BoundingBox.FromTriangle2IsSmallest | src/bounding_box.rs:11-27 | every box that contains the three vertices contains this one |
| Triangle2D.BaryCoords | src/triangle2.rs:16-28 | no coordinates exactly when the triangle is degenerate; otherwise p = a + u·(b−a) + v·(c−a) |
| Triangle2D.IsInsidePoint | src/triangle2.rs:30-33 | the inclusive test u ≥ 0, v ≥ 0, u + v ≤ 1 on existing coordinates; `InsideIffConvex` characterises it |
| Triangle2D.CrossSolves | src/triangle2.rs:16-28 | the cross-product quotients solve the barycentric equations |
| Triangle2D.BaryOfCombine | src/triangle2.rs:16-28 | the coordinates of the point a + u·(b−a) + v·(c−a) are (u, v); with `BaryCoords` this is a round trip |
| Triangle2D.InsideIffConvex | src/triangle2.rs:30-33 | a point is inside exactly when its coordinates exist and are a convex combination |
| Triangle2D.VerticesInside | src/triangle2.rs:16-33 | the vertices have coordinates (0,0), (1,0), (0,1) and are inside |
| Triangle2D.GetBoundingBox | src/triangle2.rs:35-37 | the box contains all three vertices |
| Triangle2D.InsideInBox | src/triangle2.rs:30-37 | every inside point lies in the triangle's bounding box |
| Triangle2D.ConvexInBox | src/triangle2.rs:30-37 | every convex combination of the vertices lies in the bounding box |
| Triangle2D.ConvexBetween | src/triangle2.rs:16-33 | a convex combination of three values lies between their bounds |
| Triangle2D.InsidePointTest | src/triangle2.rs:52-69 | the unit test's inside and outside points |
| Triangle2D.BoundingBoxTest | src/triangle2.rs:71-83 | the unit test's bounding box corners |
| Triangle3D.BaryCoords | src/triangle.rs:16-28 | the coordinates are those of the triangle's projection onto the x-y plane |
| Triangle3D.IsInsidePoint | src/triangle.rs:30-33 | the 2-D inside test on the projection; z plays no part |
| Triangle3D.GetZOfInsidePoint | src/triangle.rs:41-44 | the depth truncated to `u32`, with the source's rotated weights; `ZAtVertices`, `ZBetween` and `DepthAsConvex` state what it computes |
| Triangle3D.BaryIgnoresZ | src/triangle.rs:16-28 | the coordinates do not depend on any z value |
| Triangle3D.GetBoundingBox | src/triangle.rs:35-37 | the box contains the projections of all three vertices |
| Triangle3D.ZAtVertices | src/triangle.rs:41-44 | with the source's weight order, the depth at a is c.z, at b is a.z and at c is b.z |
| Triangle3D.ZBetween | src/triangle.rs:41-44 | the depth of an inside point lies between the smallest and the largest vertex depth |
| Triangle3D.DepthBetween | src/triangle.rs:41-44 | the interpolated depth for convex weights lies between the bounds of the vertex depths |
| Triangle3D.DepthAsConvex | src/triangle.rs:41-44 | the source's depth formula is c.z + u·(a.z−c.z) + v·(b.z−c.z) |
| Triangle3D.InsidePointTest | src/triangle.rs:59-76 | the unit test's inside and outside points |
| Triangle3D.BoundingBoxTest | src/triangle.rs:78-90 | the unit test's bounding box corners |
| VertexMapper.CheckIfInNdc | src/vertex_coordinate_mapper.rs:27-33 | succeeds exactly when x and y are in [−1, 1], and fails otherwise with the error carrying the vertex |
| VertexMapper.MapAxis | src/vertex_coordinate_mapper.rs:18-24 | the pixel coordinate is the floor of the scaled coordinate and lies below the axis size |
| VertexMapper.AxisInRange | src/vertex_coordinate_mapper.rs:18-24 | the scaled coordinate of an NDC value lies in [0, size−1] |
| VertexMapper.MapVertexCoordsToPixelCoord | src/vertex_coordinate_mapper.rs:18-33 | fails exactly for vertices outside NDC; otherwise gives the in-range floors of the scaled x and y |
| VertexMapper.AxisEndpoints | src/vertex_coordinate_mapper.rs:18-24 | −1 maps to pixel 0 and 1 maps to pixel size−1 |
| VertexMapper.AxisMonotone | src/vertex_coordinate_mapper.rs:18-24 | the mapping preserves order |
| VertexMapper.MapIgnoresZ | src/vertex_coordinate_mapper.rs:18-24 | the vertex's z does not affect the pixel |
| DepthBuffer.IfPixelVisible | src/z_buffer.rs:19-23 | the callback takes effect exactly when the pixel is visible |
| DepthBuffer.Unwrap | src/z_buffer.rs:25-27 | the visibility an update result carries |
| DepthBuffer.AsU8 | src/z_buffer.rs:43-44 | `z as u8`: the low byte of the depth, as compared and stored |
| DepthBuffer.DepthTest | src/z_buffer.rs:42-49 | a depth is visible exactly when the stored byte is no greater than its truncation to `u8` |
| DepthBuffer.Step | src/z_buffer.rs:42-49 | a visible depth replaces the stored byte; a hidden one leaves it |
| DepthBuffer.Visibilities | src/z_buffer.rs:42-49 | a run of updates yields one visibility per depth |
| DepthBuffer.NonDecreasingAllVisible | src/z_buffer.rs:42-49 | a non-decreasing run of byte depths is all visible and leaves the last depth stored |
| DepthBuffer.NearerStoredHides | src/z_buffer.rs:42-49 | a depth below the stored byte is hidden and changes nothing |
| DepthBuffer.ZBuffer.constructor | src/z_buffer.rs:36-40 | a new buffer has the given size and every cell is 0 |
| DepthBuffer.ZBuffer.UpdateBuffer | src/z_buffer.rs:42-49 | returns the depth test's result, stores the step's byte at (x, y) and changes no other cell |
| DepthBuffer.ZBuffer.UpdateRun | src/z_buffer.rs:42-49 | repeated updates of one cell return each visibility in turn and leave the replayed byte |
| DepthBuffer.ZBuffer.Unpack | src/z_buffer.rs:51-53 | returns the depth image itself |
| DepthBuffer.TestUpdate | src/z_buffer.rs:66-71 | the unit test: a new 2×2 z-buffer reports depth 1 at (1, 1) Visible and stores 1 there |
| Lines.LerpAtEnds | src/line_drawer.rs:77-80 | `lerp` at 0 gives the start and at 1 gives the end |
| Lines.Lerp | src/line_drawer.rs:77-80 | `start + (end − start)·t` rounded half away from zero and cast to `u32`; `LerpAtEnds` and `LerpBetween` state its properties |
| Lines.LerpBetween | src/line_drawer.rs:77-80 | `lerp` for t in [0, 1] lies between start and end |
| Lines.CanonicalShape | src/line_drawer.rs:14-55 | after flipping and ordering, the line runs left to right with slope at most 1, and is steep exactly when |dy| > |dx| |
| Lines.CanonicalSymmetric | src/line_drawer.rs:14-55 | the drawn line does not depend on the order of its endpoints |
| Lines.Offset | src/line_drawer.rs:63-80 | the row at column x lies between the endpoint rows, equals the start row at the start, and equals the end row at the end |
| Lines.OffsetAsWritten | src/line_drawer.rs:63-80 | the source's row, with the 0/0 fraction of a one-column line giving row 0 |
| Lines.PaintsAsWritten | src/line_drawer.rs:57-74 | the pixels the source's loop paints, using `OffsetAsWritten` |
| Lines.Fraction | src/line_drawer.rs:63-74 | the column fraction is in [0, 1]: 0 at the start, 1 at the end |
| Lines.FractionBounds | src/line_drawer.rs:63-74 | a quotient n/d with 0 ≤ n ≤ d is in [0, 1] |
| Lines.EndpointsPainted | src/line_drawer.rs:14-74 | both endpoints of every line are painted |
| Lines.PaintedInRectangle | src/line_drawer.rs:14-74 | every painted pixel lies in the rectangle spanned by the endpoints |
| Lines.ZeroLengthPaintsDot | src/line_drawer.rs:86-99 | a zero-length line paints exactly its single point |
| Lines.ZeroLengthAsWrittenMissesDot | src/line_drawer.rs:63-80 | with the source's 0/0 fraction, the zero-length line at (3, 2) paints (3, 0) and not (3, 2) |
| Lines.EndpointsInBounds | src/line_drawer.rs:14-55 | if the endpoints are in the buffer, the canonical line is in bounds |
| Lines.LineDrawer.constructor | src/line_drawer.rs:14-39 | the new drawer holds the canonical (shallow, ordered) line, the colour and the buffer |
| Lines.LineDrawer.MakeLineShallow | src/line_drawer.rs:41-49 | swaps x and y of both endpoints exactly when the line is steep, and records that |
| Lines.LineDrawer.OrderPoints | src/line_drawer.rs:51-55 | swaps the endpoints exactly when the start is right of the end |
| Lines.LineDrawer.DrawLine | src/line_drawer.rs:57-61 | paints exactly the pixels `Paints` names and leaves every other pixel as it was |
| Lines.LineDrawer.FillNextLinePoint | src/line_drawer.rs:63-74 | paints the one pixel at column x and its offset row, transposed back for steep lines, and nothing else |
| Lines.DrawOnBlack2x2 | src/line_drawer.rs:86-168 | drawing on a black 2×2 buffer colours exactly the painted pixels |
| Lines.TwoColumnPaints | src/line_drawer.rs:63-80 | a line spanning two columns paints its two endpoints and nothing else |
| Lines.PaintsAtColumn | src/line_drawer.rs:63-80 | within its column range, a line paints a pixel exactly when the pixel's row is the offset |
| Lines.VerticalPaints | src/line_drawer.rs:138-147 | the test's vertical line paints exactly column 0 |
| Lines.FlatPaints | src/line_drawer.rs:126-136 | the test's flat line paints exactly row 0 |
| Lines.RisingDiagonalOffset | src/line_drawer.rs:63-80 | on a 45° line the offset rises one row per column |
| Lines.DiagonalPaints | src/line_drawer.rs:102-124 | the test's diagonal paints exactly i = j, in either endpoint order |
| Lines.TestDot | src/line_drawer.rs:86-99 | the unit test: the zero-length line at (0, 0) paints (0, 0) and leaves the other three pixels black |
| Lines.TestDiagonal | src/line_drawer.rs:101-111 | the unit test: (0, 0)→(1, 1) paints (0, 0) and (1, 1) and leaves (0, 1) and (1, 0) black, as checked at src/line_drawer.rs:149-154 |
| Lines.TestDiagonalReversed | src/line_drawer.rs:113-123 | the unit test: (1, 1)→(0, 0) paints the same two pixels |
| Lines.TestFlat | src/line_drawer.rs:125-135 | the unit test: (0, 0)→(1, 0) paints the bottom row only, as checked at src/line_drawer.rs:156-161 |
| Lines.TestVertical | src/line_drawer.rs:137-147 | the unit test: (0, 0)→(0, 1) paints column 0 only, as checked at src/line_drawer.rs:163-168 |
| Gl.OffsetPercentU16 | src/renderer/gl.rs:44-46 | the fraction is in [0, 1), and 0 exactly at the beginning |
| Gl.DivBelowOne | src/renderer/gl.rs:44-46 | a/b is in [0, 1) for 0 ≤ a < b, and 0 exactly when a is |
| Gl.LerpU16Between | src/renderer/gl.rs:48-50 | the rounded step lies between 0 and end−begin, and is 0 at t = 0 |
| Gl.LerpU16Range | src/renderer/gl.rs:48-50 | `lerp_u16` lies between begin and end, and is begin at t = 0 |
| Gl.LerpU16 | src/renderer/gl.rs:48-50 | `begin + round((end − begin)·t)` in `u16`, for begin ≤ end; `LerpU16Range` bounds it |
| Gl.Setup | src/renderer/gl.rs:16-23 | the line is steep exactly when |dx| < |dy|, and then x and y are swapped |
| Base.AbsDiff | src/line_drawer.rs:42-43 | the distance `(a as i32 − b as i32).abs()` between two coordinates, used by both steepness tests |
| Gl.Points | src/renderer/gl.rs:24-31 | the loop visits x2−x1 points when x1 < x2, and none otherwise |
| Gl.PointsFrom | src/renderer/gl.rs:24-31 | the points from column x onward number x2−x, or none |
| Gl.PointsIndex | src/renderer/gl.rs:24-31 | the k-th point is the point at column x1+k |
| Gl.PointsFromIndex | src/renderer/gl.rs:24-31 | the k-th point from column x is the point at column x+k |
| Gl.PointsShape | src/renderer/gl.rs:24-31 | each point's column comes from the loop, transposed back for steep lines; the first point is the start |
| Gl.RightToLeftDrawsNothing | src/renderer/gl.rs:16-31 | a shallow line with x2 < x1 draws no point |
| Gl.FirstOutside | src/renderer/gl.rs:24-31 | the index of the first point outside the buffer: all points before it are inside |
| Gl.FirstOutsideStops | src/renderer/gl.rs:24-31 | an outside point at or before the first-outside index is that index |
| Gl.PaintPrefix | src/renderer/gl.rs:24-31 | painting a prefix of in-range points keeps the buffer's length |
| Gl.ProgressStep | src/renderer/gl.rs:24-31 | writing the next in-range point extends the painted prefix by one |
| Gl.ProgressStop | src/renderer/gl.rs:24-31 | hitting an outside point ends the line with an error, and everything before it is painted |
| Gl.ProgressDone | src/renderer/gl.rs:24-33 | visiting every point ends the line successfully with all points painted |
| Gl.ToBgr | src/renderer/gl.rs:16-31 | the conversion keeps the red, green and blue channels |
| Gl.SetPoint | src/renderer/gl.rs:24-31 | one loop step: either the point is painted and progress advances, or the draw ends with an error |
| Gl.Renderer.FromImage | src/renderer/gl.rs:12-14 | the renderer wraps the given image |
| Gl.Renderer.constructor | src/renderer/gl.rs:35-37 | the new renderer's image has the given size and is filled with the colour converted to BGR |
| Gl.Renderer.Line | src/renderer/gl.rs:16-33 | paints the line's points in order up to the first one outside the image; the result is an error exactly when such a point exists |
| TriangleDrawing.ScreenTriangle | src/triangle_drawer.rs:19-36 | fails exactly when a vertex is outside NDC, with the first such vertex's error; otherwise the corners are the mapped pixels, in range, with the given depths |
| TriangleDrawing.MinX | src/triangle_drawer.rs:75-77 | the first column `fill_triangle` walks: by `BoxIsTriangleBox`, the `u32` form of the bounding box's `min_x` |
| TriangleDrawing.MaxX | src/triangle_drawer.rs:75-77 | the last column walked: by `BoxIsTriangleBox`, the `u32` form of the bounding box's `max_x` |
| TriangleDrawing.MinY | src/triangle_drawer.rs:75-77 | the first row walked: by `BoxIsTriangleBox`, the `u32` form of the bounding box's `min_y` |
| TriangleDrawing.MaxY | src/triangle_drawer.rs:75-77 | the last row walked: by `BoxIsTriangleBox`, the `u32` form of the bounding box's `max_y` |
| TriangleDrawing.BoxIsTriangleBox | src/triangle_drawer.rs:74-86 | the fill loop's range is the triangle's bounding box |
| TriangleDrawing.CoversIffInside | src/triangle_drawer.rs:74-86 | the fill covers a pixel exactly when the pixel is inside the triangle |
| TriangleDrawing.VerticesOnOutline | src/triangle_drawer.rs:50-72 | all three vertices are on the outline |
| TriangleDrawing.TriangleDrawer.constructor | src/triangle_drawer.rs:19-36 | the drawer holds the triangle, the colour buffer and the z-buffer |
| TriangleDrawing.TriangleDrawer.Draw | src/triangle_drawer.rs:38-48 | wireframe mode paints exactly the outline and leaves the depths; normal mode also paints the covered pixels that pass the depth test and steps the z-buffer at each covered pixel |
| TriangleDrawing.TriangleDrawer.DrawOutline | src/triangle_drawer.rs:50-72 | paints exactly the three edges' pixels and leaves the rest |
| TriangleDrawing.TriangleDrawer.FillTriangle | src/triangle_drawer.rs:74-86 | paints exactly the covered pixels whose depth passes the z-test, and updates each covered cell of the z-buffer by one step |
| TriangleDrawing.FromVertices | src/triangle_drawer.rs:19-36 | fails exactly when a vertex is outside NDC; otherwise builds a drawer over the mapped screen triangle |
| Rendering.Renderer.constructor | src/renderer.rs:15-19 | a new renderer has a black colour buffer and a zeroed z-buffer of the given size |
| Rendering.Renderer.FromBuffer | src/renderer.rs:21-23 | the renderer wraps the given buffer with a zeroed z-buffer of the same size |
| Rendering.Renderer.ClearToColor | src/renderer.rs:25-29 | every pixel becomes the colour |
| Rendering.Renderer.DrawTriangle2d | src/renderer.rs:31-42 | on a mapping error nothing changes; otherwise exactly the outline is painted; depths never change |
| Rendering.Renderer.DrawFilledTriangle2d | src/renderer.rs:44-55 | on a mapping error nothing changes; otherwise the outline and the covered pixels that pass the depth test are painted, and each covered depth cell takes one z-buffer step |
| Rendering.Renderer.GetBufferReference | src/renderer.rs:57-59 | returns the colour buffer itself |
| Rendering.Renderer.Unpack | src/renderer.rs:61-63 | returns the colour buffer and the z-buffer themselves |
| Rendering.ScreenOfWireframeTest | src/renderer.rs:114-138 | the wireframe test's vertices map to pixels (1,2), (2,0) and (0,0) of a 3×3 buffer |
| Rendering.WireframeEdges | src/renderer.rs:114-138 | the three test edges in canonical form |
| Rendering.WireframeEdgeAB | src/renderer.rs:114-138 | the pixels painted by the first edge |
| Rendering.WireframeEdgeBC | src/renderer.rs:114-138 | the pixels painted by the second edge: row 0 |
| Rendering.WireframeEdgeCA | src/renderer.rs:114-138 | the pixels painted by the third edge |
| Rendering.OutlineOfWireframeTest | src/renderer.rs:114-138 | the outline is exactly (0,0), (1,0), (2,0), (1,1), (1,2), (2,1) |
| Rendering.ScreenOfFilledTest | src/renderer.rs:141-171 | the filled test's vertices map to pixels (0,0), (3,3) and (3,0) of a 4×4 buffer |
| Rendering.FilledEdges | src/renderer.rs:141-171 | the three test edges in canonical form |
| Rendering.FilledEdgeAB | src/renderer.rs:141-194 | the slope paints exactly i = j |
| Rendering.FilledEdgeLevel | src/line_drawer.rs:63-80 | a level line paints exactly its own row across its columns |
| Rendering.OutlineOfFilledTest | src/renderer.rs:173-190 | the outline is exactly the floor, the right wall and the slope |
| Rendering.MiddleOfFilledTest | src/renderer.rs:192-194 | the middle point (2, 1) is covered |
| Rendering.TestNewAndClear | src/renderer.rs:70-111 | the unit tests: a new 2×2 renderer is black, its reference and its unpacked buffer are the same image, and clearing to (5, 5, 5) sets all four pixels |
| Rendering.TestDrawTriangle | src/renderer.rs:113-138 | the unit test: the wireframe call succeeds and (0, 0), (1, 2), (2, 0), (1, 1) and (1, 0) are white |
| Rendering.TestDrawFilledTriangle | src/renderer.rs:140-194 | the unit test: the filled call succeeds, and the floor, the right wall, the slope and (2, 1) are white |

## Left out

- `src/main.rs`, the `tests/` directory and the OBJ loading: file I/O and command-line driving, outside the core.
- `TGAHeader::write` (src/image/tga_header.rs:59-61), `gl::Renderer::render` (src/renderer/gl.rs:39-41) and the buffer's `write_to_file`: byte-stream I/O. The bytes they write are `TgaHeader.AsBytes` and the buffer's `data`.
- `get_data_ref` and `get_data_ref_mut` (src/image/bgr_pixel_buffer.rs:46-52): they hand out references into the buffer. The model reads `data` directly, and aliasing through those references is not modelled.
- The trait impls in `outside_trait_impls.rs`: they only adapt external traits.
- IEEE-754 arithmetic: `f64` values are exact reals, so rounding error, NaN and infinities are not modelled. Each division by zero is a separate case in the model: the degenerate triangle and the zero-length line.
- The `partial_cmp(..).unwrap_or(Less)` in the bounding box: with exact reals no comparison is unordered.
- Lines.Offset: gives a one-column line its start row, where the source computes 0.0/0.0, which is NaN and casts to row 0. `Lines.OffsetAsWritten` keeps the source's row, and the first Findings row records the difference.
- Lines.LineDrawer.FillNextLinePoint: paints the row `Lines.Offset` gives, so for a zero-length line it paints the line's own point where the source paints row 0.
- Lines.LineDrawer.DrawLine: paints exactly `Lines.Paints`, which for a zero-length line from (3, 2) to (3, 2) is (3, 2); the source paints (3, 0), as `Lines.PaintsAsWritten` states.
- Lines.EndpointsPainted: holds of the corrected drawer. In the source, a zero-length line's point is painted only when its row is 0.
- Lines.PaintedInRectangle: holds of the corrected drawer. The source's zero-length line at (3, 2) paints (3, 0), outside its one-point rectangle.
- Lines.DrawOnBlack2x2: for p = q = (1, 1) it paints (1, 1), where the source paints (1, 0).
- TriangleDrawing.TriangleDrawer.DrawOutline: inherits the corrected zero-length line when two vertices map to the same pixel.
- TriangleDrawing.TriangleDrawer.Draw: inherits the corrected zero-length line through `DrawOutline`.
- Rendering.Renderer.DrawTriangle2d: inherits the corrected zero-length line when two vertices map to the same pixel.
- Rendering.Renderer.DrawFilledTriangle2d: inherits the corrected zero-length line when two vertices map to the same pixel.
- Gl.Renderer.Line: requires `Gl.NoPanic`, which excludes every line whose y falls as x rises after the steep swap, for example (0, 5) to (5, 0). For those, `lerp_u16` (src/renderer/gl.rs:49) computes `end - begin` with end < begin in `u16`, which panics in a debug build and wraps in a release build. The older renderer cannot draw such descending lines.
- Gl.LerpU16: requires begin ≤ end, for the same `u16` subtraction.
- Gl.Points: requires `Gl.NoPanic`, for the same reason.
- VectorRef.Vector2Algebra: components are integers. The `f64` instantiations the source also uses (the tests at src/vector/vector.rs:146-150 and 199-220) are not modelled.
- VectorRef.Vector3Algebra: integer components only, as above.
- VectorRef.TestValues: states only the integer assertions. The floating-point tests at src/vector/vector.rs:146-150 and 199-220 are left out.
- VectorValue.Vector2Algebra: components are integers; the `f64` instantiations are not modelled.
- VectorValue.Vector3Algebra: components are integers; the `f64` instantiations are not modelled.
- VectorValue.TestValues2: states only the integer assertions. The floating-point test at src/vector/vector2.rs:124-129 is left out.
- VectorValue.TestValues3: states only the integer assertions. The floating-point tests at src/vector/vector2.rs:177-199 (the subtraction, the dot product and the `f64` scaling) are left out.
- Vector.New: the `Vector3f` alias (src/vector.rs:34) has `f64` components, and these are not modelled; only the `i32` and `u32` instantiations are.
- Lines.Lerp: uses the exact difference `end − start`. The source casts both ends `as i32` (src/line_drawer.rs:79), which wraps for coordinates of 2^31 and above.
- Lines.Canonical: measures the steepness with the exact distance `Base.AbsDiff`. The source's `as i32` casts (src/line_drawer.rs:42-43) wrap for coordinates of 2^31 and above, and their difference can overflow `i32`.
- Lines.LineDrawer.MakeLineShallow: the same exact distance as `Lines.Canonical`, so the `i32` wrap-around for coordinates of 2^31 and above is not modelled.
- Vector.Add: vector components are unbounded integers. `i32` and `u32` overflow panics are not modelled; the exception is `Vector.SubU32`, which states the no-underflow condition.
- VectorValue.Cross: the `T::from_i32(-1).unwrap()` panic for unsigned `T` is not modelled; components are signed integers.
- RgbPixel.FromIter: requires at least three items, because the source panics on `unwrap` with fewer.
- BgrPixel.FromIter: requires at least three items, for the same reason.
- BgrPixelBuffer.BGRPixelBuffer.constructor: allocates exactly 3·w·h bytes. The source's `u32` overflow for very large sizes is the Findings row.
- DepthBuffer.ZBuffer.UpdateRun: this is not a source function. It is a client loop over `update_buffer` that states how repeated updates compose.
- The `&mut` borrows held by the line drawer and the triangle drawer are modelled as shared `array2` references that the drawers' methods may modify.
- Rendering.Renderer.DrawTriangle2d: takes the three vertex depths as parameters, because the NDC mapper of this revision returns a 2-D pixel.
- Rendering.Renderer.DrawFilledTriangle2d: takes the three vertex depths as parameters, for the same reason.

## Findings

| source | as written | input that shows it | evidently intended | confidence | as-written member | corrected member |
|---|---|---|---|---|---|---|
| src/line_drawer.rs:63-80 | the column fraction of a zero-length line is 0/0, so the row is a NaN cast to `u32`, which is 0 | the line from (3, 2) to (3, 2) paints (3, 0) | a zero-length line paints its single point, as the test at src/line_drawer.rs:86-99 expects; that test passes only because its point is (0, 0) | not executed | Lines.ZeroLengthAsWrittenMissesDot | Lines.ZeroLengthPaintsDot |
| src/image/bgr_pixel_buffer.rs:17 | the byte count is computed as `width as u32 * height as u32 * 3` | width = height = 65535 gives 12884508675, which exceeds `u32::MAX` | the buffer holds 3·w·h bytes for every `u16` size | not executed | BgrPixelBuffer.TakeCountOverflows | BgrPixelBuffer.NewReadsInit |
