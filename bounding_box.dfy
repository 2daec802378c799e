/** `src/bounding_box.rs`: the axis-aligned box of a triangle's three vertices. */
module BoundingBox {
  import opened Raster

  datatype BoundingBox2 = BoundingBox2(lowerLeft: Point2<real>, upperRight: Point2<real>)

  /** `min_by` over the three coordinates: at most each, and one of them. */
  function Min3(p: real, q: real, r: real): (m: real)
    ensures m <= p && m <= q && m <= r
    ensures m == p || m == q || m == r
  {
    if p <= q && p <= r then p else if q <= r then q else r
  }

  /** `max_by` over the three coordinates: at least each, and one of them. */
  function Max3(p: real, q: real, r: real): (m: real)
    ensures m >= p && m >= q && m >= r
    ensures m == p || m == q || m == r
  {
    if p >= q && p >= r then p else if q >= r then q else r
  }

  function MinX(bb: BoundingBox2): real { bb.lowerLeft.x }
  function MinY(bb: BoundingBox2): real { bb.lowerLeft.y }
  function MaxX(bb: BoundingBox2): real { bb.upperRight.x }
  function MaxY(bb: BoundingBox2): real { bb.upperRight.y }

  /** The box contains a point when each coordinate lies between the bounds. */
  predicate Contains(bb: BoundingBox2, p: Point2<real>) {
    MinX(bb) <= p.x <= MaxX(bb) && MinY(bb) <= p.y <= MaxY(bb)
  }

  /** `from_triangle2`: contains all three vertices, and each bound is a vertex
      coordinate, so no smaller box does; a degenerate triangle still has one. */
  function FromTriangle2(t: Triangle2): (bb: BoundingBox2)
    ensures Contains(bb, t.a) && Contains(bb, t.b) && Contains(bb, t.c)
    ensures MinX(bb) in {t.a.x, t.b.x, t.c.x} && MaxX(bb) in {t.a.x, t.b.x, t.c.x}
    ensures MinY(bb) in {t.a.y, t.b.y, t.c.y} && MaxY(bb) in {t.a.y, t.b.y, t.c.y}
    ensures MinX(bb) <= MaxX(bb) && MinY(bb) <= MaxY(bb)
  {
    BoundingBox2(
      Point2(Min3(t.a.x, t.b.x, t.c.x), Min3(t.a.y, t.b.y, t.c.y)),
      Point2(Max3(t.a.x, t.b.x, t.c.x), Max3(t.a.y, t.b.y, t.c.y)))
  }

  /** Every box containing the three vertices contains this one: it is the smallest. */
  lemma FromTriangle2IsSmallest(t: Triangle2, other: BoundingBox2)
    requires Contains(other, t.a) && Contains(other, t.b) && Contains(other, t.c)
    ensures MinX(other) <= MinX(FromTriangle2(t)) && MaxX(FromTriangle2(t)) <= MaxX(other)
    ensures MinY(other) <= MinY(FromTriangle2(t)) && MaxY(FromTriangle2(t)) <= MaxY(other)
  {
  }
}
