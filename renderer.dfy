/** `src/renderer.rs`: the public face of the rasteriser. A renderer owns an RGB image,
    clears it to one colour and draws triangles given in device coordinates onto it,
    either as an outline or filled. */
module Rendering {
  import opened Base
  import opened Raster
  import VertexMapper
  import DepthBuffer
  import Triangle2D
  import Triangle3D
  import Lines
  import TriangleDrawing

  /** The mapper `from_vertices` builds for an image of the buffer's size. */
  function MapperFor(buffer: array2<Rgb>): VertexMapper.VertexCoordinateMapper
    requires buffer.Length0 <= U32_MAX && buffer.Length1 <= U32_MAX
  {
    VertexMapper.VertexCoordinateMapper(buffer.Length0, buffer.Length1)
  }

  /** An image the mapper can take: its sides fit in `u32`, and a vertex that passes the
      range check is never mapped onto an empty side (a `u32` underflow panic). */
  predicate Drawable(buffer: array2<Rgb>, a: Vertex) {
    && buffer.Length0 <= U32_MAX && buffer.Length1 <= U32_MAX
    && (VertexMapper.InNdc(a) ==> buffer.Length0 >= 1 && buffer.Length1 >= 1)
  }

  class Renderer {
    const buffer: array2<Rgb>
    /** The depth buffer the drawers test against, the same size as the image. */
    const zBuffer: DepthBuffer.ZBuffer

    predicate Valid()
      reads this
    {
      buffer.Length0 == zBuffer.cells.Length0 && buffer.Length1 == zBuffer.cells.Length1
    }

    /** `new`: a `width` × `height` image, black because `ImageBuffer::new` zero-fills,
        and a depth buffer of the same size holding zeros. */
    constructor (width: U32, height: U32)
      ensures Valid() && fresh(buffer) && fresh(zBuffer) && fresh(zBuffer.cells)
      ensures buffer.Length0 == width && buffer.Length1 == height
      ensures forall i, j :: 0 <= i < width && 0 <= j < height ==> buffer[i, j] == BLACK
      ensures forall i, j :: 0 <= i < width && 0 <= j < height ==> zBuffer.cells[i, j] == 0
    {
      buffer := new Rgb[width, height]((i, j) => BLACK);
      zBuffer := new DepthBuffer.ZBuffer(width, height);
    }

    /** `from_buffer`: renders onto the given image, whatever it holds, with an empty
        depth buffer of its size. */
    constructor FromBuffer(buffer: array2<Rgb>)
      requires buffer.Length0 <= U32_MAX && buffer.Length1 <= U32_MAX
      ensures Valid() && this.buffer == buffer && fresh(zBuffer) && fresh(zBuffer.cells)
      ensures forall i, j :: 0 <= i < buffer.Length0 && 0 <= j < buffer.Length1 ==> zBuffer.cells[i, j] == 0
    {
      this.buffer := buffer;
      zBuffer := new DepthBuffer.ZBuffer(buffer.Length0, buffer.Length1);
    }

    /** `clear_to_color`: every pixel, row by row, becomes `color`; depths stay. */
    method ClearToColor(color: Rgb)
      modifies buffer
      ensures forall i, j :: 0 <= i < buffer.Length0 && 0 <= j < buffer.Length1 ==> buffer[i, j] == color
    {
      var y := 0;
      while y < buffer.Length1
        invariant 0 <= y <= buffer.Length1
        invariant forall i, j :: 0 <= i < buffer.Length0 && 0 <= j < y ==> buffer[i, j] == color
      {
        var x := 0;
        while x < buffer.Length0
          invariant 0 <= x <= buffer.Length0
          invariant forall i, j :: 0 <= i < buffer.Length0 && 0 <= j < y ==> buffer[i, j] == color
          invariant forall i :: 0 <= i < x ==> buffer[i, y] == color
        {
          buffer[x, y] := color;
          x := x + 1;
        }
        y := y + 1;
      }
    }

    /** `draw_triangle_2d`: the first vertex outside device space is the error and both
        buffers are left alone; otherwise exactly the pixels of the three edges of the
        mapped triangle take the colour, and no depth changes. */
    method DrawTriangle2d(a: Vertex, b: Vertex, c: Vertex, za: U32, zb: U32, zc: U32, col: Rgb)
      returns (r: Result<(), RendererError>)
      requires Valid() && Drawable(buffer, a)
      modifies buffer, zBuffer.cells
      ensures var s := TriangleDrawing.ScreenTriangle(MapperFor(buffer), a, b, c, za, zb, zc);
              && (r.Failure? <==> s.Failure?)
              && (r.Failure? ==> r.error == s.error && unchanged(buffer))
              && (r.Success? ==> forall i, j :: 0 <= i < buffer.Length0 && 0 <= j < buffer.Length1 ==>
                                   buffer[i, j] == if TriangleDrawing.OnOutline(s.value, i, j) then col else old(buffer[i, j]))
      ensures forall i, j :: 0 <= i < buffer.Length0 && 0 <= j < buffer.Length1 ==>
                zBuffer.cells[i, j] == old(zBuffer.cells[i, j])
    {
      var made := TriangleDrawing.FromVertices(a, b, c, za, zb, zc, buffer, zBuffer);
      match made
      case Failure(e) =>
        r := Failure(e);
      case Success(drawer) =>
        drawer.Draw(TriangleDrawing.Wireframe, col);
        r := Success(());
    }

    /** `draw_filled_triangle_2d`: as `draw_triangle_2d`; on success the edges take the
        colour, every pixel inside the mapped triangle goes through the depth test
        against the stored depth, and the visible ones take the colour and their depth. */
    method DrawFilledTriangle2d(a: Vertex, b: Vertex, c: Vertex, za: U32, zb: U32, zc: U32, col: Rgb)
      returns (r: Result<(), RendererError>)
      requires Valid() && Drawable(buffer, a)
      modifies buffer, zBuffer.cells
      ensures var s := TriangleDrawing.ScreenTriangle(MapperFor(buffer), a, b, c, za, zb, zc);
              && (r.Failure? <==> s.Failure?)
              && (r.Failure? ==> r.error == s.error && unchanged(buffer) && unchanged(zBuffer.cells))
              && (r.Success? ==> forall i, j :: 0 <= i < buffer.Length0 && 0 <= j < buffer.Length1 ==>
                                   && buffer[i, j] == (if TriangleDrawing.OnOutline(s.value, i, j)
                                                         || (TriangleDrawing.Covers(s.value, i, j)
                                                             && DepthBuffer.DepthTest(old(zBuffer.cells[i, j]),
                                                                  TriangleDrawing.ZAt(s.value, i, j)) == DepthBuffer.Visible)
                                                       then col else old(buffer[i, j]))
                                   && zBuffer.cells[i, j] == (if TriangleDrawing.Covers(s.value, i, j)
                                                              then DepthBuffer.Step(old(zBuffer.cells[i, j]),
                                                                     TriangleDrawing.ZAt(s.value, i, j))
                                                              else old(zBuffer.cells[i, j])))
    {
      var made := TriangleDrawing.FromVertices(a, b, c, za, zb, zc, buffer, zBuffer);
      match made
      case Failure(e) =>
        r := Failure(e);
      case Success(drawer) =>
        drawer.Draw(TriangleDrawing.Normal, col);
        r := Success(());
    }

    /** `get_buffer_reference`: the renderer's own image, not a copy. */
    function GetBufferReference(): (image: array2<Rgb>)
      ensures image == buffer
    {
      buffer
    }

    /** `unpack`: hands over the image and the depth buffer. */
    method Unpack() returns (image: array2<Rgb>, depths: DepthBuffer.ZBuffer)
      ensures image == buffer && depths == zBuffer
    {
      image, depths := buffer, zBuffer;
    }
  }

  /** The unit tests of construction, clearing, the reference and unpacking: a new
      2 × 2 renderer is black, and clearing it to (5, 5, 5) sets all four pixels. */
  method TestNewAndClear() {
    var renderer := new Renderer(2, 2);
    var image := renderer.GetBufferReference();
    assert image.Length0 == 2 && image.Length1 == 2;
    assert image[0, 0] == BLACK && image[0, 1] == BLACK && image[1, 0] == BLACK && image[1, 1] == BLACK;
    var unpacked, depths := renderer.Unpack();
    assert unpacked == image;
    var grey := Rgb(5, 5, 5);
    renderer.ClearToColor(grey);
    assert image[0, 0] == grey && image[0, 1] == grey && image[1, 0] == grey && image[1, 1] == grey;
  }

  /** The wireframe unit test's triangle on a 3 × 3 image: (0, 1), (1, −1) and (−1, −1)
      land on pixels (1, 2), (2, 0) and (0, 0). */
  lemma ScreenOfWireframeTest()
    ensures TriangleDrawing.ScreenTriangle(VertexMapper.VertexCoordinateMapper(3, 3),
              Vertex(0.0, 1.0, 0.0), Vertex(1.0, -1.0, 0.0), Vertex(-1.0, -1.0, 0.0), 0, 0, 0)
            == Success(Triangle(Point3(1, 2, 0), Point3(2, 0, 0), Point3(0, 0, 0)))
  {
    VertexMapper.AxisEndpoints(3);
    assert VertexMapper.Scaled(0.0, 3) == 2.0 * 0.5;
  }

  /** The lines its three edges set up: a→b and c→a are steep, b→c runs along the
      bottom row. */
  lemma WireframeEdges()
    ensures Lines.Canonical(Point2(1, 2), Point2(2, 0)) == Lines.Line(Point2(0, 2), Point2(2, 1), true)
    ensures Lines.Canonical(Point2(2, 0), Point2(0, 0)) == Lines.Line(Point2(0, 0), Point2(2, 0), false)
    ensures Lines.Canonical(Point2(0, 0), Point2(1, 2)) == Lines.Line(Point2(0, 0), Point2(2, 1), true)
  {
  }

  /** The steep edge a→b, transposed to (0, 2)–(2, 1): its middle row is 1.5 rounded
      away from zero. */
  lemma {:induction false} WireframeEdgeAB(i: int, j: int)
    requires 0 <= i < 3 && 0 <= j < 3
    ensures Lines.Paints(Lines.Line(Point2(0, 2), Point2(2, 1), true), i, j) <==> if j < 2 then i == 2 else i == 1
  {
    var ab := Lines.Line(Point2(0, 2), Point2(2, 1), true);
    Lines.PaintsAtColumn(ab, j as U32, i, j);
    assert Lines.Offset(ab, j as U32) == if j < 2 then 2 else 1 by {
      if j == 1 {
        HalfwayDown();
      }
    }
  }

  /** Halfway from row 2 to row 1 is 1.5, which rounds to 2. */
  lemma HalfwayDown()
    ensures Lines.Offset(Lines.Line(Point2(0, 2), Point2(2, 1), true), 1) == 2
  {
    assert Lines.Fraction(1, 2) == 0.5;
    assert Lines.Interpolate(2, 1, 0.5) == 1.5;
  }

  /** Halfway from row 0 to row 1 is 0.5, which rounds to 1. */
  lemma HalfwayUp()
    ensures Lines.Offset(Lines.Line(Point2(0, 0), Point2(2, 1), true), 1) == 1
  {
    assert Lines.Fraction(1, 2) == 0.5;
    assert Lines.Interpolate(0, 1, 0.5) == 0.5;
  }

  /** The bottom edge b→c. */
  lemma {:induction false} WireframeEdgeBC(i: int, j: int)
    requires 0 <= i < 3 && 0 <= j < 3
    ensures Lines.Paints(Lines.Line(Point2(0, 0), Point2(2, 0), false), i, j) <==> j == 0
  {
    var bc := Lines.Line(Point2(0, 0), Point2(2, 0), false);
    Lines.PaintsAtColumn(bc, i as U32, i, j);
    assert Lines.Offset(bc, i as U32) == 0;
  }

  /** The steep edge c→a, transposed to (0, 0)–(2, 1): its middle row is 0.5 rounded
      away from zero. */
  lemma {:induction false} WireframeEdgeCA(i: int, j: int)
    requires 0 <= i < 3 && 0 <= j < 3
    ensures Lines.Paints(Lines.Line(Point2(0, 0), Point2(2, 1), true), i, j) <==> i == Min(j as U32, 1)
  {
    if j == 0 {
      EdgeCAColumn0(i);
    } else if j == 1 {
      EdgeCAColumn1(i);
    } else {
      EdgeCAColumn2(i);
    }
  }

  lemma EdgeCAColumn0(i: int)
    requires 0 <= i < 3
    ensures Lines.Paints(Lines.Line(Point2(0, 0), Point2(2, 1), true), i, 0) <==> i == 0
  {
  }

  lemma EdgeCAColumn1(i: int)
    requires 0 <= i < 3
    ensures Lines.Paints(Lines.Line(Point2(0, 0), Point2(2, 1), true), i, 1) <==> i == 1
  {
    HalfwayUp();
  }

  lemma EdgeCAColumn2(i: int)
    requires 0 <= i < 3
    ensures Lines.Paints(Lines.Line(Point2(0, 0), Point2(2, 1), true), i, 2) <==> i == 1
  {
  }

  /** The outline of that triangle. */
  lemma {:induction false} OutlineOfWireframeTest(i: int, j: int)
    requires 0 <= i < 3 && 0 <= j < 3
    ensures TriangleDrawing.OnOutline(Triangle(Point3(1, 2, 0), Point3(2, 0, 0), Point3(0, 0, 0)), i, j)
            <==> (i, j) in {(0, 0), (1, 0), (2, 0), (1, 1), (1, 2), (2, 1)}
  {
    WireframeEdges();
    WireframeEdgeAB(i, j);
    WireframeEdgeBC(i, j);
    WireframeEdgeCA(i, j);
  }

  /** The unit test `should_be_able_to_draw_triangle`: the call succeeds and the five
      pixels it checks are white. */
  method TestDrawTriangle() {
    var renderer := new Renderer(3, 3);
    var white := Rgb(1, 1, 1);
    var r := renderer.DrawTriangle2d(Vertex(0.0, 1.0, 0.0), Vertex(1.0, -1.0, 0.0), Vertex(-1.0, -1.0, 0.0), 0, 0, 0, white);
    var image := renderer.buffer;
    ghost var tri := Triangle(Point3(1, 2, 0), Point3(2, 0, 0), Point3(0, 0, 0));
    assert r.Success? && forall i, j :: 0 <= i < 3 && 0 <= j < 3 ==>
             image[i, j] == if TriangleDrawing.OnOutline(tri, i, j) then white else BLACK by {
      ScreenOfWireframeTest();
      assert MapperFor(renderer.buffer) == VertexMapper.VertexCoordinateMapper(3, 3);
    }
    assert image[0, 0] == white by { OutlineOfWireframeTest(0, 0); }
    assert image[1, 2] == white by { OutlineOfWireframeTest(1, 2); }
    assert image[2, 0] == white by { OutlineOfWireframeTest(2, 0); }
    assert image[1, 1] == white by { OutlineOfWireframeTest(1, 1); }
    assert image[1, 0] == white by { OutlineOfWireframeTest(1, 0); }
  }

  /** The filled unit test's triangle on a 4 × 4 image: (−1, −1), (1, 1) and (1, −1)
      land on the corner pixels (0, 0), (3, 3) and (3, 0). */
  lemma ScreenOfFilledTest()
    ensures TriangleDrawing.ScreenTriangle(VertexMapper.VertexCoordinateMapper(4, 4),
              Vertex(-1.0, -1.0, 0.0), Vertex(1.0, 1.0, 0.0), Vertex(1.0, -1.0, 0.0), 0, 0, 0)
            == Success(Triangle(Point3(0, 0, 0), Point3(3, 3, 0), Point3(3, 0, 0)))
  {
    VertexMapper.AxisEndpoints(4);
  }

  /** The lines its three edges set up: the diagonal a→b, the right column b→c
      (transposed) and the bottom row c→a. */
  lemma FilledEdges()
    ensures Lines.Canonical(Point2(0, 0), Point2(3, 3)) == Lines.Line(Point2(0, 0), Point2(3, 3), false)
    ensures Lines.Canonical(Point2(3, 3), Point2(3, 0)) == Lines.Line(Point2(0, 3), Point2(3, 3), true)
    ensures Lines.Canonical(Point2(3, 0), Point2(0, 0)) == Lines.Line(Point2(0, 0), Point2(3, 0), false)
  {
  }

  /** The diagonal rises one row per column. */
  lemma {:induction false} FilledEdgeAB(i: int, j: int)
    requires 0 <= i < 4 && 0 <= j < 4
    ensures Lines.Paints(Lines.Line(Point2(0, 0), Point2(3, 3), false), i, j) <==> i == j
  {
    var ab := Lines.Line(Point2(0, 0), Point2(3, 3), false);
    Lines.PaintsAtColumn(ab, i as U32, i, j);
    Lines.RisingDiagonalOffset(ab, i as U32);
  }

  /** A line whose ends share a row stays on that row. */
  lemma {:induction false} FilledEdgeLevel(l: Lines.Line, i: int, j: int)
    requires l.start.y == l.end.y && l.start.x <= Lines.Column(l, i, j) <= l.end.x
    ensures Lines.Paints(l, i, j) <==> Lines.Row(l, i, j) == l.start.y
  {
    Lines.PaintsAtColumn(l, Lines.Column(l, i, j) as U32, i, j);
  }

  /** The outline of that triangle: the diagonal, the right column and the bottom row. */
  lemma {:induction false} OutlineOfFilledTest(i: int, j: int)
    requires 0 <= i < 4 && 0 <= j < 4
    ensures TriangleDrawing.OnOutline(Triangle(Point3(0, 0, 0), Point3(3, 3, 0), Point3(3, 0, 0)), i, j)
            <==> i == j || i == 3 || j == 0
  {
    FilledEdges();
    FilledEdgeAB(i, j);
    FilledEdgeLevel(Lines.Line(Point2(0, 3), Point2(3, 3), true), i, j);
    FilledEdgeLevel(Lines.Line(Point2(0, 0), Point2(3, 0), false), i, j);
  }

  /** The middle pixel (2, 1) of that triangle is inside it: it is A + (B − A)/3 + (C − A)/3. */
  lemma MiddleOfFilledTest()
    ensures TriangleDrawing.Covers(Triangle(Point3(0, 0, 0), Point3(3, 3, 0), Point3(3, 0, 0)), 2, 1)
  {
    var t := Triangle(Point3(0, 0, 0), Point3(3, 3, 0), Point3(3, 0, 0));
    var tri := Triangle3D.Project(Triangle3D.ToReal(t));
    assert tri == Triangle2(Point2(0.0, 0.0), Point2(3.0, 3.0), Point2(3.0, 0.0));
    var third := 1.0 / 3.0;
    assert Triangle2D.Combine(tri, third, third) == Point2(3.0 * third + 3.0 * third, 3.0 * third);
    assert !Triangle2D.Degenerate(tri);
    Triangle2D.InsideIffConvex(tri, Point2(2.0, 1.0));
  }

  /** The unit test `should_be_able_to_draw_filled_triangle_from_vertices`: the call
      succeeds and the bottom row, the right column, the slope and the middle pixel
      (2, 1) are white. */
  method TestDrawFilledTriangle() {
    var renderer := new Renderer(4, 4);
    var white := Rgb(1, 1, 1);
    var r := renderer.DrawFilledTriangle2d(Vertex(-1.0, -1.0, 0.0), Vertex(1.0, 1.0, 0.0), Vertex(1.0, -1.0, 0.0), 0, 0, 0, white);
    var image := renderer.buffer;
    ghost var tri := Triangle(Point3(0, 0, 0), Point3(3, 3, 0), Point3(3, 0, 0));
    assert r.Success? && forall i, j :: 0 <= i < 4 && 0 <= j < 4 ==>
             image[i, j] == if TriangleDrawing.OnOutline(tri, i, j)
                                || (TriangleDrawing.Covers(tri, i, j)
                                    && DepthBuffer.DepthTest(0, TriangleDrawing.ZAt(tri, i, j)) == DepthBuffer.Visible)
                            then white else BLACK by {
      ScreenOfFilledTest();
      assert MapperFor(renderer.buffer) == VertexMapper.VertexCoordinateMapper(4, 4);
    }
    assert image[0, 0] == white by { OutlineOfFilledTest(0, 0); }
    assert image[1, 0] == white by { OutlineOfFilledTest(1, 0); }
    assert image[2, 0] == white by { OutlineOfFilledTest(2, 0); }
    assert image[3, 0] == white by { OutlineOfFilledTest(3, 0); }
    assert image[3, 1] == white by { OutlineOfFilledTest(3, 1); }
    assert image[3, 2] == white by { OutlineOfFilledTest(3, 2); }
    assert image[3, 3] == white by { OutlineOfFilledTest(3, 3); }
    assert image[1, 1] == white by { OutlineOfFilledTest(1, 1); }
    assert image[2, 2] == white by { OutlineOfFilledTest(2, 2); }
    assert image[2, 1] == white by {
      MiddleOfFilledTest();
      assert DepthBuffer.DepthTest(0, TriangleDrawing.ZAt(tri, 2, 1)) == DepthBuffer.Visible;
    }
  }
}
