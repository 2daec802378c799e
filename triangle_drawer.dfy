/** `src/triangle_drawer.rs`: maps three device-space vertices to pixels, draws the
    outline with three line drawers and fills the inside through the depth buffer. */
module TriangleDrawing {
  import opened Base
  import opened Raster
  import Triangle2D
  import Triangle3D
  import VertexMapper
  import DepthBuffer
  import Lines

  datatype DrawMode = Normal | Wireframe

  /** A mapped pixel as a screen point of depth `z`. The mapper maps x and y only;
      the depth of each screen point is an input of the drawer. */
  function Lift(p: Point2<U32>, z: U32): Point3<U32> {
    Point3(p.x, p.y, z)
  }

  /** The pixel a screen point covers. */
  function Corner(p: Point3<U32>): Point2<U32> {
    Point2(p.x, p.y)
  }

  /** The triangle `from_vertices` builds: a, then b, then c are mapped, and the
      first vertex outside device space is the error; the screen points take the
      depths `za`, `zb`, `zc`. */
  function ScreenTriangle(m: VertexMapper.VertexCoordinateMapper, a: Vertex, b: Vertex, c: Vertex,
                          za: U32, zb: U32, zc: U32)
    : (r: Result<Triangle<U32>, RendererError>)
    requires VertexMapper.InNdc(a) ==> m.bufferWidth >= 1 && m.bufferHeight >= 1
    ensures r.Failure? <==> !(VertexMapper.InNdc(a) && VertexMapper.InNdc(b) && VertexMapper.InNdc(c))
    ensures r.Failure? ==> r.error == NotInNormalizedDeviceCoords(
              if !VertexMapper.InNdc(a) then a else if !VertexMapper.InNdc(b) then b else c)
    ensures r.Success? ==> r.value.a.z == za && r.value.b.z == zb && r.value.c.z == zc
    ensures r.Success? ==> && r.value.a.x < m.bufferWidth && r.value.b.x < m.bufferWidth && r.value.c.x < m.bufferWidth
                           && r.value.a.y < m.bufferHeight && r.value.b.y < m.bufferHeight && r.value.c.y < m.bufferHeight
    ensures r.Success? ==> && Corner(r.value.a) == VertexMapper.MapVertexCoordsToPixelCoord(m, a).value
                           && Corner(r.value.b) == VertexMapper.MapVertexCoordsToPixelCoord(m, b).value
                           && Corner(r.value.c) == VertexMapper.MapVertexCoordsToPixelCoord(m, c).value
  {
    match VertexMapper.MapVertexCoordsToPixelCoord(m, a)
    case Failure(e) => Failure(e)
    case Success(pa) =>
      match VertexMapper.MapVertexCoordsToPixelCoord(m, b)
      case Failure(e) => Failure(e)
      case Success(pb) =>
        match VertexMapper.MapVertexCoordsToPixelCoord(m, c)
        case Failure(e) => Failure(e)
        case Success(pc) => Success(Triangle(Lift(pa, za), Lift(pb, zb), Lift(pc, zc)))
  }

  /** The corners of the `u32` bounding box `fill_triangle` walks. */
  function MinX(t: Triangle<U32>): U32 { Min(Min(t.a.x, t.b.x), t.c.x) }
  function MaxX(t: Triangle<U32>): U32 { Max(Max(t.a.x, t.b.x), t.c.x) }
  function MinY(t: Triangle<U32>): U32 { Min(Min(t.a.y, t.b.y), t.c.y) }
  function MaxY(t: Triangle<U32>): U32 { Max(Max(t.a.y, t.b.y), t.c.y) }

  /** The `u32` bounding box is the real one of the cast triangle. */
  lemma BoxIsTriangleBox(t: Triangle<U32>)
    ensures var bb := Triangle3D.GetBoundingBox(Triangle3D.ToReal(t));
            && bb.lowerLeft == Point2(MinX(t) as real, MinY(t) as real)
            && bb.upperRight == Point2(MaxX(t) as real, MaxY(t) as real)
  {
  }

  predicate InBox(t: Triangle<U32>, i: int, j: int) {
    MinX(t) <= i <= MaxX(t) && MinY(t) <= j <= MaxY(t)
  }

  /** `is_inside_point(Point3::new(x, y, 0))` on the cast triangle. */
  predicate Inside(t: Triangle<U32>, i: U32, j: U32) {
    Triangle3D.IsInsidePoint(Triangle3D.ToReal(t), Triangle3D.PointToReal(Point3(i, j, 0)))
  }

  /** The pixels `fill_triangle` tests and finds inside. */
  predicate Covers(t: Triangle<U32>, i: int, j: int) {
    InBox(t, i, j) && Inside(t, i as U32, j as U32)
  }

  /** Walking only the bounding box loses no pixel: the pixels filled are exactly the
      pixels inside the triangle. */
  lemma {:induction false} CoversIffInside(t: Triangle<U32>, i: U32, j: U32)
    ensures Covers(t, i, j) <==> Inside(t, i, j)
  {
    if Inside(t, i, j) {
      var rt := Triangle3D.ToReal(t);
      Triangle2D.InsideInBox(Triangle3D.Project(rt), Point2(i as real, j as real));
      BoxIsTriangleBox(t);
    }
  }

  /** The depth `get_z_of_inside_point` gives pixel (i, j). */
  function ZAt(t: Triangle<U32>, i: int, j: int): U32
    requires InBox(t, i, j)
  {
    Triangle3D.GetZOfInsidePoint(t, Point2(i, j))
  }

  /** The pixels the three edges a→b, b→c and c→a paint. */
  predicate OnOutline(t: Triangle<U32>, i: int, j: int) {
    || Lines.Paints(Lines.Canonical(Corner(t.a), Corner(t.b)), i, j)
    || Lines.Paints(Lines.Canonical(Corner(t.b), Corner(t.c)), i, j)
    || Lines.Paints(Lines.Canonical(Corner(t.c), Corner(t.a)), i, j)
  }

  /** The vertices are on the outline. */
  lemma VerticesOnOutline(t: Triangle<U32>)
    ensures OnOutline(t, t.a.x, t.a.y) && OnOutline(t, t.b.x, t.b.y) && OnOutline(t, t.c.x, t.c.y)
  {
    Lines.EndpointsPainted(Corner(t.a), Corner(t.b));
    Lines.EndpointsPainted(Corner(t.b), Corner(t.c));
  }

  /** Only the pixels whose test has run: inside, and before (x, y) in the column-major
      walk of the box. */
  ghost predicate Reached(t: Triangle<U32>, x: int, y: int, i: int, j: int) {
    Covers(t, i, j) && (i < x || (i == x && j < y))
  }

  class TriangleDrawer {
    const triangle: Triangle<U32>
    const buffer: array2<Rgb>
    const zBuffer: DepthBuffer.ZBuffer

    constructor (triangle: Triangle<U32>, buffer: array2<Rgb>, zBuffer: DepthBuffer.ZBuffer)
      ensures this.triangle == triangle && this.buffer == buffer && this.zBuffer == zBuffer
    {
      this.triangle := triangle;
      this.buffer := buffer;
      this.zBuffer := zBuffer;
    }

    /** The vertices index both the image and the depth buffer. */
    predicate Fits() {
      && triangle.a.x < buffer.Length0 && triangle.b.x < buffer.Length0 && triangle.c.x < buffer.Length0
      && triangle.a.y < buffer.Length1 && triangle.b.y < buffer.Length1 && triangle.c.y < buffer.Length1
      && buffer.Length0 == zBuffer.cells.Length0 && buffer.Length1 == zBuffer.cells.Length1
    }

    /** `draw`: the outline, then for `Normal` the fill. */
    method Draw(drawMode: DrawMode, col: Rgb)
      requires Fits()
      modifies buffer, zBuffer.cells
      ensures drawMode == Wireframe ==> forall i, j :: 0 <= i < buffer.Length0 && 0 <= j < buffer.Length1 ==>
                buffer[i, j] == (if OnOutline(triangle, i, j) then col else old(buffer[i, j]))
                && zBuffer.cells[i, j] == old(zBuffer.cells[i, j])
      ensures drawMode == Normal ==> forall i, j :: 0 <= i < buffer.Length0 && 0 <= j < buffer.Length1 ==>
                buffer[i, j] == (if OnOutline(triangle, i, j)
                                    || (Covers(triangle, i, j)
                                        && DepthBuffer.DepthTest(old(zBuffer.cells[i, j]), ZAt(triangle, i, j)) == DepthBuffer.Visible)
                                 then col else old(buffer[i, j]))
                && zBuffer.cells[i, j] == (if Covers(triangle, i, j)
                                           then DepthBuffer.Step(old(zBuffer.cells[i, j]), ZAt(triangle, i, j))
                                           else old(zBuffer.cells[i, j]))
    {
      match drawMode
      case Normal =>
        DrawOutline(col);
        FillTriangle(col);
      case Wireframe =>
        DrawOutline(col);
    }

    /** `draw_outline`: a→b, b→c, c→a, each through a new `LineDrawer`. */
    method DrawOutline(col: Rgb)
      requires Fits()
      modifies buffer
      ensures forall i, j :: 0 <= i < buffer.Length0 && 0 <= j < buffer.Length1 ==>
                buffer[i, j] == if OnOutline(triangle, i, j) then col else old(buffer[i, j])
    {
      var a, b, c := Corner(triangle.a), Corner(triangle.b), Corner(triangle.c);
      Lines.CanonicalShape(a, b);
      Lines.CanonicalShape(b, c);
      Lines.CanonicalShape(c, a);
      Lines.EndpointsInBounds(a, b, buffer.Length0, buffer.Length1);
      Lines.EndpointsInBounds(b, c, buffer.Length0, buffer.Length1);
      Lines.EndpointsInBounds(c, a, buffer.Length0, buffer.Length1);
      var ab := new Lines.LineDrawer(a, b, col, buffer);
      ab.DrawLine();
      var bc := new Lines.LineDrawer(b, c, col, buffer);
      bc.DrawLine();
      var ca := new Lines.LineDrawer(c, a, col, buffer);
      ca.DrawLine();
    }

    /** `fill_triangle`: every pixel of the bounding box inside the triangle goes
        through the depth test once, and the visible ones take the colour. */
    method FillTriangle(col: Rgb)
      requires Fits()
      modifies buffer, zBuffer.cells
      ensures forall i, j :: 0 <= i < buffer.Length0 && 0 <= j < buffer.Length1 ==>
                buffer[i, j] == (if Covers(triangle, i, j)
                                    && DepthBuffer.DepthTest(old(zBuffer.cells[i, j]), ZAt(triangle, i, j)) == DepthBuffer.Visible
                                 then col else old(buffer[i, j]))
                && zBuffer.cells[i, j] == (if Covers(triangle, i, j)
                                           then DepthBuffer.Step(old(zBuffer.cells[i, j]), ZAt(triangle, i, j))
                                           else old(zBuffer.cells[i, j]))
    {
      var t := triangle;
      var cells := zBuffer.cells;
      var x: int := MinX(t);
      while x <= MaxX(t)
        invariant MinX(t) <= x <= MaxX(t) + 1
        invariant forall i, j :: 0 <= i < buffer.Length0 && 0 <= j < buffer.Length1 ==>
                    buffer[i, j] == (if Reached(t, x, 0, i, j)
                                        && DepthBuffer.DepthTest(old(cells[i, j]), ZAt(t, i, j)) == DepthBuffer.Visible
                                     then col else old(buffer[i, j]))
                    && cells[i, j] == (if Reached(t, x, 0, i, j)
                                       then DepthBuffer.Step(old(cells[i, j]), ZAt(t, i, j))
                                       else old(cells[i, j]))
      {
        var y: int := MinY(t);
        while y <= MaxY(t)
          invariant MinY(t) <= y <= MaxY(t) + 1
          invariant forall i, j :: 0 <= i < buffer.Length0 && 0 <= j < buffer.Length1 ==>
                      buffer[i, j] == (if Reached(t, x, y, i, j)
                                          && DepthBuffer.DepthTest(old(cells[i, j]), ZAt(t, i, j)) == DepthBuffer.Visible
                                       then col else old(buffer[i, j]))
                      && cells[i, j] == (if Reached(t, x, y, i, j)
                                         then DepthBuffer.Step(old(cells[i, j]), ZAt(t, i, j))
                                         else old(cells[i, j]))
        {
          if Inside(t, x, y) {
            var r := zBuffer.UpdateBuffer(x, y, Triangle3D.GetZOfInsidePoint(t, Point2(x, y)));
            match DepthBuffer.Unwrap(r)
            case Visible => buffer[x, y] := col;
            case Hidden =>
          }
          y := y + 1;
        }
        x := x + 1;
      }
    }
  }

  /** `from_vertices`: the drawer over the mapped triangle, or the error of the first
      vertex outside device space. Mapping a checked vertex onto an empty image is a
      `u32` underflow panic. */
  method FromVertices(a: Vertex, b: Vertex, c: Vertex, za: U32, zb: U32, zc: U32,
                      buffer: array2<Rgb>, zBuffer: DepthBuffer.ZBuffer)
    returns (r: Result<TriangleDrawer, RendererError>)
    requires buffer.Length0 <= U32_MAX && buffer.Length1 <= U32_MAX
    requires VertexMapper.InNdc(a) ==> buffer.Length0 >= 1 && buffer.Length1 >= 1
    ensures var s := ScreenTriangle(VertexMapper.VertexCoordinateMapper(buffer.Length0, buffer.Length1), a, b, c, za, zb, zc);
            && (r.Failure? <==> s.Failure?)
            && (r.Failure? ==> r.error == s.error)
            && (r.Success? ==> r.value.triangle == s.value && r.value.buffer == buffer && r.value.zBuffer == zBuffer)
  {
    var mapper := VertexMapper.VertexCoordinateMapper(buffer.Length0, buffer.Length1);
    var s := ScreenTriangle(mapper, a, b, c, za, zb, zc);
    match s
    case Failure(e) =>
      r := Failure(e);
    case Success(t) =>
      var drawer := new TriangleDrawer(t, buffer, zBuffer);
      r := Success(drawer);
  }
}
