/** `src/triangle.rs`: a triangle of 3-D points whose barycentric test looks only at
    x and y, plus the depth of a screen point inside it. */
module Triangle3D {
  import opened Base
  import opened Raster
  import Numeric
  import BoundingBox
  import Triangle2D

  /** The triangle seen from above: z dropped. */
  function Project(t: Triangle<real>): Triangle2 {
    Triangle2(Point2(t.a.x, t.a.y), Point2(t.b.x, t.b.y), Point2(t.c.x, t.c.y))
  }

  function PointToReal(p: Point3<U32>): Point3<real> {
    Point3(p.x as real, p.y as real, p.z as real)
  }

  /** `.cast::<f64>()` of a `Triangle<u32>`. */
  function ToReal(t: Triangle<U32>): Triangle<real> {
    Triangle(PointToReal(t.a), PointToReal(t.b), PointToReal(t.c))
  }

  /** `get_bary_coords`: the same cross-product ratios as the 2-D triangle's, on x and y. */
  function BaryCoords(t: Triangle<real>, p: Point3<real>): (r: Option<Point2<real>>)
    ensures r.None? <==> Triangle2D.Degenerate(Project(t))
    ensures r.Some? ==> Point2(p.x, p.y) == Triangle2D.Combine(Project(t), r.value.x, r.value.y)
  {
    Triangle2D.BaryCoords(Project(t), Point2(p.x, p.y))
  }

  /** Neither the point's z nor the vertices' z take part. */
  lemma BaryIgnoresZ(t: Triangle<real>, p: Point3<real>, z: real, za: real, zb: real, zc: real)
    ensures BaryCoords(t, p) == BaryCoords(
      Triangle(Point3(t.a.x, t.a.y, za), Point3(t.b.x, t.b.y, zb), Point3(t.c.x, t.c.y, zc)),
      Point3(p.x, p.y, z))
  {
  }

  /** `is_inside_point`: the inclusive test of the 2-D triangle on the projection. */
  predicate IsInsidePoint(t: Triangle<real>, p: Point3<real>) {
    Triangle2D.IsInsidePoint(Project(t), Point2(p.x, p.y))
  }

  /** `get_bounding_box`: the box of the projection. */
  function GetBoundingBox(t: Triangle<real>): (bb: BoundingBox.BoundingBox2)
    ensures BoundingBox.Contains(bb, Point2(t.a.x, t.a.y))
    ensures BoundingBox.Contains(bb, Point2(t.b.x, t.b.y))
    ensures BoundingBox.Contains(bb, Point2(t.c.x, t.c.y))
  {
    BoundingBox.FromTriangle2(Project(t))
  }

  /** The expression `get_z_of_inside_point` truncates, with the weights as written:
      the coordinate u (B's weight) multiplies a.z and v (C's weight) multiplies b.z. */
  function Depth(t: Triangle<real>, bary: Point2<real>): real {
    bary.x * t.a.z + bary.y * t.b.z + (1.0 - (bary.x + bary.y)) * t.c.z
  }

  /** `get_z_of_inside_point`. For a degenerate triangle every term of the source's
      expression is infinite or NaN and their sum is NaN, which `as u32` turns into 0. */
  function GetZOfInsidePoint(t: Triangle<U32>, p: Point2<U32>): U32 {
    var rt := ToReal(t);
    match BaryCoords(rt, Point3(p.x as real, p.y as real, 0.0))
    case None => 0
    case Some(bary) => Numeric.TruncToU32(Depth(rt, bary))
  }

  /** Because of the weight order, vertex a gets c's depth, b gets a's and c gets b's. */
  lemma ZAtVertices(t: Triangle<U32>)
    requires !Triangle2D.Degenerate(Project(ToReal(t)))
    ensures GetZOfInsidePoint(t, Point2(t.a.x, t.a.y)) == t.c.z
    ensures GetZOfInsidePoint(t, Point2(t.b.x, t.b.y)) == t.a.z
    ensures GetZOfInsidePoint(t, Point2(t.c.x, t.c.y)) == t.b.z
  {
    var rt := ToReal(t);
    Triangle2D.VerticesInside(Project(rt));
    Numeric.TruncBetween(rt.c.z, t.c.z, t.c.z);
    Numeric.TruncBetween(rt.a.z, t.a.z, t.a.z);
    Numeric.TruncBetween(rt.b.z, t.b.z, t.b.z);
  }

  /** At an inside point the depth lies between the smallest and the largest vertex
      depth: it is at least one of the three and at most one of the three. */
  lemma {:induction false} ZBetween(t: Triangle<U32>, p: Point2<U32>)
    requires IsInsidePoint(ToReal(t), Point3(p.x as real, p.y as real, 0.0))
    ensures var z := GetZOfInsidePoint(t, p);
            (t.a.z <= z || t.b.z <= z || t.c.z <= z) && (z <= t.a.z || z <= t.b.z || z <= t.c.z)
  {
    var rt := ToReal(t);
    var bary := BaryCoords(rt, Point3(p.x as real, p.y as real, 0.0)).value;
    var lo: U32 := if t.a.z <= t.b.z && t.a.z <= t.c.z then t.a.z else if t.b.z <= t.c.z then t.b.z else t.c.z;
    var hi: U32 := if t.a.z >= t.b.z && t.a.z >= t.c.z then t.a.z else if t.b.z >= t.c.z then t.b.z else t.c.z;
    DepthBetween(rt, bary, lo as real, hi as real);
    Numeric.TruncBetween(Depth(rt, bary), lo, hi);
  }

  /** The depth expression at coordinates of an inside point is a convex combination
      of the vertex depths. */
  lemma {:induction false} DepthBetween(t: Triangle<real>, bary: Point2<real>, lo: real, hi: real)
    requires bary.x >= 0.0 && bary.y >= 0.0 && bary.x + bary.y <= 1.0
    requires lo <= t.a.z <= hi && lo <= t.b.z <= hi && lo <= t.c.z <= hi
    ensures lo <= Depth(t, bary) <= hi
  {
    Triangle2D.ConvexBetween(bary.x, bary.y, t.c.z, t.a.z, t.b.z, lo, hi);
    DepthAsConvex(t, bary);
  }

  lemma DepthAsConvex(t: Triangle<real>, bary: Point2<real>)
    ensures Depth(t, bary) == t.c.z + bary.x * (t.a.z - t.c.z) + bary.y * (t.b.z - t.c.z)
  {
  }

  /** The unit test of `is_inside_point` (z = 0 everywhere). */
  lemma InsidePointTest()
    ensures var t := Triangle(Point3(0.0, 0.0, 0.0), Point3(10.0, 10.0, 0.0), Point3(14.0, 0.0, 0.0));
            && IsInsidePoint(t, Point3(10.0, 3.2, 0.0))
            && !IsInsidePoint(t, Point3(-3.0, 3.2, 0.0))
            && !IsInsidePoint(t, Point3(16.0, 4.0, 0.0))
            && !IsInsidePoint(t, Point3(5.0, -3.0, 0.0))
            && !IsInsidePoint(t, Point3(4.0, 16.0, 0.0))
  {
    Triangle2D.InsidePointTest();
  }

  /** The unit test of `get_bounding_box`. */
  lemma BoundingBoxTest()
    ensures var bb := GetBoundingBox(Triangle(Point3(0.0, 0.0, 0.0), Point3(10.0, 10.0, 0.0), Point3(14.0, -1.0, 0.0)));
            BoundingBox.MinX(bb) == 0.0 && BoundingBox.MinY(bb) == -1.0
            && BoundingBox.MaxX(bb) == 14.0 && BoundingBox.MaxY(bb) == 10.0
  {
    Triangle2D.BoundingBoxTest();
  }
}
