/** `src/vertex_coordinate_mapper.rs`: from normalised device coordinates, where
    both x and y run over [−1, 1], to pixel coordinates of a buffer, by truncation. */
module VertexMapper {
  import opened Base
  import opened Raster
  import Numeric

  datatype VertexCoordinateMapper = VertexCoordinateMapper(bufferWidth: U32, bufferHeight: U32)

  /** x and y lie in [−1, 1]; z is not looked at. */
  predicate InNdc(v: Vertex) {
    -1.0 <= v.x <= 1.0 && -1.0 <= v.y <= 1.0
  }

  /** `check_if_in_normalized_device_coordinates`. */
  function CheckIfInNdc(v: Vertex): (r: Result<(), RendererError>)
    ensures r.Success? <==> InNdc(v)
    ensures r.Failure? ==> r.error == NotInNormalizedDeviceCoords(v)
  {
    if v.x > 1.0 || v.y > 1.0 || v.x < -1.0 || v.y < -1.0 then
      Failure(NotInNormalizedDeviceCoords(v))
    else
      Success(())
  }

  /** `(c + 1.0) * (size - 1) as f64 / 2.0`, written as the fraction (c + 1) / 2 of
      size − 1, which is the same real. */
  function Scaled(c: real, size: U32): real
    requires size >= 1
  {
    Numeric.Scale((size - 1) as real, (c + 1.0) / 2.0)
  }

  /** One axis: the scaled coordinate truncated by `as u32`. */
  function MapAxis(c: real, size: U32): (r: U32)
    requires -1.0 <= c <= 1.0 && size >= 1
    ensures r as real <= Scaled(c, size) < r as real + 1.0
    ensures r < size
  {
    AxisInRange(c, size);
    var r := Numeric.TruncToU32(Scaled(c, size));
    FloorBelow(r, Scaled(c, size), size - 1);
    r
  }

  lemma AxisInRange(c: real, size: U32)
    requires -1.0 <= c <= 1.0 && size >= 1
    ensures 0.0 <= Scaled(c, size) <= (size - 1) as real
  {
    Numeric.ScaleBounds((size - 1) as real, (c + 1.0) / 2.0);
  }

  lemma FloorBelow(r: int, s: real, hi: int)
    requires r as real <= s <= hi as real
    ensures r <= hi
  {
  }

  /** `map_vertex_coords_to_pixel_coord`: the range check first, then each axis.
      A zero-sized buffer is a `u32` underflow panic, excluded for checked vertices. */
  function MapVertexCoordsToPixelCoord(m: VertexCoordinateMapper, v: Vertex): (r: Result<Point2<U32>, RendererError>)
    requires InNdc(v) ==> m.bufferWidth >= 1 && m.bufferHeight >= 1
    ensures r.Failure? <==> !InNdc(v)
    ensures r.Failure? ==> r.error == NotInNormalizedDeviceCoords(v)
    ensures r.Success? ==> r.value.x < m.bufferWidth && r.value.y < m.bufferHeight
    ensures r.Success? ==> r.value.x as real <= Scaled(v.x, m.bufferWidth) < r.value.x as real + 1.0
    ensures r.Success? ==> r.value.y as real <= Scaled(v.y, m.bufferHeight) < r.value.y as real + 1.0
  {
    match CheckIfInNdc(v)
    case Failure(e) => Failure(e)
    case Success(_) => Success(Point2(MapAxis(v.x, m.bufferWidth), MapAxis(v.y, m.bufferHeight)))
  }

  /** The corners of device space land on the corner pixels. */
  lemma {:induction false} AxisEndpoints(size: U32)
    requires size >= 1
    ensures MapAxis(-1.0, size) == 0
    ensures MapAxis(1.0, size) == size - 1
  {
    var m := (size - 1) as real;
    assert Scaled(-1.0, size) == m * 0.0 == 0.0;
    assert Scaled(1.0, size) == m * 1.0 == m;
  }

  /** Truncation keeps the order of coordinates. */
  lemma {:induction false} AxisMonotone(c1: real, c2: real, size: U32)
    requires -1.0 <= c1 <= c2 <= 1.0 && size >= 1
    ensures MapAxis(c1, size) <= MapAxis(c2, size)
  {
    Numeric.ScaleMonotone((size - 1) as real, (c1 + 1.0) / 2.0, (c2 + 1.0) / 2.0);
    FloorsOrdered(MapAxis(c1, size), MapAxis(c2, size), Scaled(c1, size), Scaled(c2, size));
  }

  lemma FloorsOrdered(r1: int, r2: int, s1: real, s2: real)
    requires r1 as real <= s1 <= s2 < r2 as real + 1.0
    ensures r1 <= r2
  {
  }

  /** The depth of a vertex never affects the pixel it maps to. */
  lemma MapIgnoresZ(m: VertexCoordinateMapper, v: Vertex, z: real)
    requires InNdc(v) ==> m.bufferWidth >= 1 && m.bufferHeight >= 1
    ensures MapVertexCoordsToPixelCoord(m, Vertex(v.x, v.y, z)).Success? ==>
            MapVertexCoordsToPixelCoord(m, Vertex(v.x, v.y, z)) == MapVertexCoordsToPixelCoord(m, v)
  {
  }
}
