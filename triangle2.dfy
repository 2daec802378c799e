/** `src/triangle2.rs`: barycentric coordinates of a point with respect to a 2-D
    triangle, the inclusive inside test built on them, and the bounding box. */
module Triangle2D {
  import opened Base
  import opened Raster
  import BoundingBox
  import Numeric

  /** The three components of (ABx, ACx, PAx) × (ABy, ACy, PAy). */
  datatype Cross = Cross(cx: real, cy: real, cz: real)

  function CrossOf(t: Triangle2, p: Point2<real>): Cross {
    var abx, aby := t.b.x - t.a.x, t.b.y - t.a.y;
    var acx, acy := t.c.x - t.a.x, t.c.y - t.a.y;
    var pax, pay := t.a.x - p.x, t.a.y - p.y;
    Cross(acx * pay - pax * acy, pax * aby - abx * pay, abx * acy - acx * aby)
  }

  /** The vertices are collinear: `cz`, twice the signed area, is zero for every `p`. */
  predicate Degenerate(t: Triangle2) {
    (t.b.x - t.a.x) * (t.c.y - t.a.y) - (t.c.x - t.a.x) * (t.b.y - t.a.y) == 0.0
  }

  /** The point A + u(B − A) + v(C − A). */
  function Combine(t: Triangle2, u: real, v: real): Point2<real> {
    Point2(t.a.x + u * (t.b.x - t.a.x) + v * (t.c.x - t.a.x),
           t.a.y + u * (t.b.y - t.a.y) + v * (t.c.y - t.a.y))
  }

  /** `get_bary_coords`: (cx / cz, cy / cz). For a degenerate triangle the source
      divides by zero; that case is `None` here. Otherwise the coordinates (u, v)
      express `p` as A + u(B − A) + v(C − A). */
  function BaryCoords(t: Triangle2, p: Point2<real>): (r: Option<Point2<real>>)
    ensures r.None? <==> Degenerate(t)
    ensures r.Some? ==> p == Combine(t, r.value.x, r.value.y)
  {
    var c := CrossOf(t, p);
    assert c.cz == 0.0 <==> Degenerate(t);
    if c.cz == 0.0 then None
    else
      var u, v := c.cx / c.cz, c.cy / c.cz;
      CrossSolves(t, p, u, v);
      Some(Point2(u, v))
  }

  /** The cross product is orthogonal to both factors, which is what makes the
      ratios solve the system. */
  lemma {:induction false} CrossSolves(t: Triangle2, p: Point2<real>, u: real, v: real)
    requires CrossOf(t, p).cz != 0.0
    requires u == CrossOf(t, p).cx / CrossOf(t, p).cz && v == CrossOf(t, p).cy / CrossOf(t, p).cz
    ensures p == Combine(t, u, v)
  {
    var c := CrossOf(t, p);
    var abx, aby := t.b.x - t.a.x, t.b.y - t.a.y;
    var acx, acy := t.c.x - t.a.x, t.c.y - t.a.y;
    var pax, pay := t.a.x - p.x, t.a.y - p.y;
    assert u * c.cz == c.cx && v * c.cz == c.cy;
    // abx * cx + acx * cy + pax * cz == 0, and the same with the y components
    assert abx * c.cx + acx * c.cy + pax * c.cz == 0.0;
    assert aby * c.cx + acy * c.cy + pay * c.cz == 0.0;
    assert (abx * u + acx * v + pax) * c.cz == 0.0;
    assert (aby * u + acy * v + pay) * c.cz == 0.0;
    ZeroFactor(abx * u + acx * v + pax, c.cz);
    ZeroFactor(aby * u + acy * v + pay, c.cz);
    assert p.x == t.a.x + u * abx + v * acx;
    assert p.y == t.a.y + u * aby + v * acy;
    assert u * (t.b.x - t.a.x) == u * abx;
    assert Combine(t, u, v).x == p.x;
    assert u * (t.b.y - t.a.y) == u * aby;
    assert Combine(t, u, v).y == p.y;
    assert Combine(t, u, v) == Point2(p.x, p.y);
  }

  lemma ZeroFactor(e: real, c: real)
    requires e * c == 0.0 && c != 0.0
    ensures e == 0.0
  {
  }

  lemma DivOfMul(u: real, c: real)
    requires c != 0.0
    ensures (u * c) / c == u
  {
  }

  /** Coordinates recovered from a combination are the coefficients it was made of. */
  lemma {:induction false} BaryOfCombine(t: Triangle2, u: real, v: real)
    requires !Degenerate(t)
    ensures BaryCoords(t, Combine(t, u, v)) == Some(Point2(u, v))
  {
    var p := Combine(t, u, v);
    var c := CrossOf(t, p);
    var abx, aby := t.b.x - t.a.x, t.b.y - t.a.y;
    var acx, acy := t.c.x - t.a.x, t.c.y - t.a.y;
    var pax, pay := t.a.x - p.x, t.a.y - p.y;
    assert pax == -(u * abx + v * acx) && pay == -(u * aby + v * acy);
    assert c.cx == acx * pay - pax * acy;
    var cz := abx * acy - acx * aby;
    assert c.cz == cz && cz != 0.0;
    assert c.cx == u * cz;
    assert c.cy == v * cz;
    DivOfMul(u, cz);
    DivOfMul(v, cz);
  }

  /** `is_inside_point`: u ≥ 0, v ≥ 0 and u + v ≤ 1, boundary included. In the
      degenerate case the source compares infinities or NaN, which is always false. */
  predicate IsInsidePoint(t: Triangle2, p: Point2<real>) {
    match BaryCoords(t, p)
    case None => false
    case Some(q) => q.x >= 0.0 && q.y >= 0.0 && q.x + q.y <= 1.0
  }

  /** A point is inside exactly when it is a convex combination of the vertices of a
      proper triangle. */
  lemma InsideIffConvex(t: Triangle2, p: Point2<real>)
    ensures IsInsidePoint(t, p) <==>
            !Degenerate(t) && exists u: real, v: real :: u >= 0.0 && v >= 0.0 && u + v <= 1.0 && p == Combine(t, u, v)
  {
    if !Degenerate(t) && exists u: real, v: real :: u >= 0.0 && v >= 0.0 && u + v <= 1.0 && p == Combine(t, u, v) {
      var u: real, v: real :| u >= 0.0 && v >= 0.0 && u + v <= 1.0 && p == Combine(t, u, v);
      BaryOfCombine(t, u, v);
    }
  }

  /** Each vertex of a proper triangle has coordinates (0,0), (1,0), (0,1), so all three are inside. */
  lemma VerticesInside(t: Triangle2)
    requires !Degenerate(t)
    ensures BaryCoords(t, t.a) == Some(Point2(0.0, 0.0))
    ensures BaryCoords(t, t.b) == Some(Point2(1.0, 0.0))
    ensures BaryCoords(t, t.c) == Some(Point2(0.0, 1.0))
    ensures IsInsidePoint(t, t.a) && IsInsidePoint(t, t.b) && IsInsidePoint(t, t.c)
  {
    BaryOfCombine(t, 0.0, 0.0);
    BaryOfCombine(t, 1.0, 0.0);
    BaryOfCombine(t, 0.0, 1.0);
    assert Combine(t, 0.0, 0.0) == t.a;
    assert Combine(t, 1.0, 0.0) == t.b;
    assert Combine(t, 0.0, 1.0) == t.c;
  }

  /** `get_bounding_box`. */
  function GetBoundingBox(t: Triangle2): (bb: BoundingBox.BoundingBox2)
    ensures BoundingBox.Contains(bb, t.a) && BoundingBox.Contains(bb, t.b) && BoundingBox.Contains(bb, t.c)
  {
    BoundingBox.FromTriangle2(t)
  }

  /** Every inside point lies in the bounding box. */
  lemma {:induction false} InsideInBox(t: Triangle2, p: Point2<real>)
    requires IsInsidePoint(t, p)
    ensures BoundingBox.Contains(GetBoundingBox(t), p)
  {
    var q := BaryCoords(t, p).value;
    ConvexInBox(t, q.x, q.y);
  }

  lemma {:induction false} ConvexInBox(t: Triangle2, u: real, v: real)
    requires u >= 0.0 && v >= 0.0 && u + v <= 1.0
    ensures BoundingBox.Contains(GetBoundingBox(t), Combine(t, u, v))
  {
    var bb := GetBoundingBox(t);
    ConvexBetween(u, v, t.a.x, t.b.x, t.c.x, BoundingBox.MinX(bb), BoundingBox.MaxX(bb));
    ConvexBetween(u, v, t.a.y, t.b.y, t.c.y, BoundingBox.MinY(bb), BoundingBox.MaxY(bb));
  }

  /** A convex combination of three values lies within any bounds of all three. */
  lemma {:induction false} ConvexBetween(u: real, v: real, p: real, q: real, r: real, lo: real, hi: real)
    requires u >= 0.0 && v >= 0.0 && u + v <= 1.0
    requires lo <= p <= hi && lo <= q <= hi && lo <= r <= hi
    ensures lo <= p + u * (q - p) + v * (r - p) <= hi
  {
    var w := 1.0 - u - v;
    AboveIdentity(u, v, p, q, r, lo);
    BelowIdentity(u, v, p, q, r, hi);
    Numeric.MulNonNegative(w, p - lo); Numeric.MulNonNegative(u, q - lo); Numeric.MulNonNegative(v, r - lo);
    Numeric.MulNonNegative(w, hi - p); Numeric.MulNonNegative(u, hi - q); Numeric.MulNonNegative(v, hi - r);
  }

  lemma AboveIdentity(u: real, v: real, p: real, q: real, r: real, k: real)
    ensures p + u * (q - p) + v * (r - p) - k == (1.0 - u - v) * (p - k) + u * (q - k) + v * (r - k)
  {
  }

  lemma BelowIdentity(u: real, v: real, p: real, q: real, r: real, k: real)
    ensures k - (p + u * (q - p) + v * (r - p)) == (1.0 - u - v) * (k - p) + u * (k - q) + v * (k - r)
  {
  }

  /** The unit test: triangle (0,0), (10,10), (14,0) holds (10, 3.2) and none of four outside points. */
  lemma InsidePointTest()
    ensures var t := Triangle2(Point2(0.0, 0.0), Point2(10.0, 10.0), Point2(14.0, 0.0));
            && IsInsidePoint(t, Point2(10.0, 3.2))
            && !IsInsidePoint(t, Point2(-3.0, 3.2))
            && !IsInsidePoint(t, Point2(16.0, 4.0))
            && !IsInsidePoint(t, Point2(5.0, -3.0))
            && !IsInsidePoint(t, Point2(4.0, 16.0))
  {
    var t := Triangle2(Point2(0.0, 0.0), Point2(10.0, 10.0), Point2(14.0, 0.0));
    assert CrossOf(t, Point2(10.0, 3.2)) == Cross(-44.8, -68.0, -140.0);
    assert CrossOf(t, Point2(-3.0, 3.2)) == Cross(-44.8, 62.0, -140.0);
    assert CrossOf(t, Point2(16.0, 4.0)) == Cross(-56.0, -120.0, -140.0);
    assert CrossOf(t, Point2(5.0, -3.0)) == Cross(42.0, -80.0, -140.0);
    assert CrossOf(t, Point2(4.0, 16.0)) == Cross(-224.0, 120.0, -140.0);
  }

  /** The unit test: the box of (0,0), (10,10), (14,−1) is (0,−1)–(14,10). */
  lemma BoundingBoxTest()
    ensures var bb := GetBoundingBox(Triangle2(Point2(0.0, 0.0), Point2(10.0, 10.0), Point2(14.0, -1.0)));
            BoundingBox.MinX(bb) == 0.0 && BoundingBox.MinY(bb) == -1.0
            && BoundingBox.MaxX(bb) == 14.0 && BoundingBox.MaxY(bb) == 10.0
  {
  }
}
