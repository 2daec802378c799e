/** `src/vector/vector2.rs`: the third generation, `Copy` vectors with by-value
    operators and a closed-form cross product. The source negates the middle
    component by multiplying with `T::from_i32(-1).unwrap()`, which panics for
    unsigned component types; components here are signed integers. */
module VectorValue {

  datatype Scalar = Scalar(k: int)

  datatype Vector2 = Vector2(x: int, y: int)

  datatype Vector3 = Vector3(x: int, y: int, z: int)

  function Dot2(a: Vector2, b: Vector2): int {
    a.x * b.x + a.y * b.y
  }

  function Add2(a: Vector2, b: Vector2): Vector2 {
    Vector2(a.x + b.x, a.y + b.y)
  }

  function Sub2(a: Vector2, b: Vector2): Vector2 {
    Vector2(a.x - b.x, a.y - b.y)
  }

  function Scale2(v: Vector2, s: Scalar): Vector2 {
    Vector2(v.x * s.k, v.y * s.k)
  }

  function ScalarTimes2(s: Scalar, v: Vector2): Vector2 {
    Scale2(v, s)
  }

  function Dot3(a: Vector3, b: Vector3): int {
    a.x * b.x + a.y * b.y + a.z * b.z
  }

  function Add3(a: Vector3, b: Vector3): Vector3 {
    Vector3(a.x + b.x, a.y + b.y, a.z + b.z)
  }

  function Sub3(a: Vector3, b: Vector3): Vector3 {
    Vector3(a.x - b.x, a.y - b.y, a.z - b.z)
  }

  function Scale3(v: Vector3, s: Scalar): Vector3 {
    Vector3(v.x * s.k, v.y * s.k, v.z * s.k)
  }

  function ScalarTimes3(s: Scalar, v: Vector3): Vector3 {
    Scale3(v, s)
  }

  /** `a.cross(b)`, with the middle component negated as the source writes it. */
  function Cross(a: Vector3, b: Vector3): Vector3 {
    Vector3(
      a.y * b.z - b.y * a.z,
      (a.x * b.z - b.x * a.z) * -1,
      a.x * b.y - b.x * a.y)
  }

  lemma Vector2Algebra(a: Vector2, b: Vector2, s: Scalar)
    ensures Add2(Sub2(a, b), b) == a
    ensures Dot2(a, b) == Dot2(b, a)
    ensures ScalarTimes2(s, a) == Scale2(a, s)
  {
  }

  lemma Vector3Algebra(a: Vector3, b: Vector3, s: Scalar)
    ensures Add3(Sub3(a, b), b) == a
    ensures Dot3(a, b) == Dot3(b, a)
    ensures ScalarTimes3(s, a) == Scale3(a, s)
  {
  }

  /** The cross product is perpendicular to both operands. */
  lemma CrossIsOrthogonal(a: Vector3, b: Vector3)
    ensures Dot3(a, Cross(a, b)) == 0
    ensures Dot3(b, Cross(a, b)) == 0
  {
    var c := Cross(a, b);
    var m1, m2, m3 := a.x * a.y * b.z, a.x * b.y * a.z, a.y * b.x * a.z;
    assert a.x * c.x == m1 - m2;
    assert a.y * c.y == m3 - m1;
    assert a.z * c.z == m2 - m3;
    var n1, n2, n3 := b.x * a.y * b.z, b.x * b.y * a.z, b.y * a.x * b.z;
    assert b.x * c.x == n1 - n2;
    assert b.y * c.y == n2 - n3;
    assert b.z * c.z == n3 - n1;
  }

  /** Swapping the operands negates the cross product; in particular a × a = 0. */
  lemma CrossAntiCommutes(a: Vector3, b: Vector3)
    ensures Cross(b, a) == Scale3(Cross(a, b), Scalar(-1))
    ensures Cross(a, a) == Vector3(0, 0, 0)
  {
  }

  /** The unit tests' values for two-component vectors. */
  lemma TestValues2()
    ensures Add2(Vector2(5, 5), Vector2(1, 1)) == Vector2(6, 6)
    ensures Sub2(Vector2(5, 5), Vector2(1, 1)) == Vector2(4, 4)
    ensures Dot2(Vector2(1, 2), Vector2(3, 4)) == 11
    ensures Scale2(Vector2(3, 4), Scalar(2)) == Vector2(6, 8)
  {
    var d, e := Vector2(1, 2), Vector2(3, 4);
    assert Dot2(d, e) == d.x * e.x + d.y * e.y;
    var f, g := Vector2(3, 4), Scalar(2);
    assert Scale2(f, g) == Vector2(f.x * g.k, f.y * g.k);
  }

  /** The unit tests' values for three-component vectors. */
  lemma TestValues3()
    ensures Add3(Vector3(1, 3, 5), Vector3(1, 2, 3)) == Vector3(2, 5, 8)
    ensures Dot3(Vector3(1, 2, 3), Vector3(2, 3, 5)) == 23
    ensures Scale3(Vector3(1, 3, 4), Scalar(3)) == Vector3(3, 9, 12)
  {
    var p, q := Vector3(1, 2, 3), Vector3(2, 3, 5);
    assert Dot3(p, q) == 2 + 6 + 15;
    var w, k := Vector3(1, 3, 4), Scalar(3);
    assert Scale3(w, k) == Vector3(1 * 3, 3 * 3, 4 * 3);
  }

  /** The unit test x̂ × ŷ = ẑ. */
  lemma TestCross()
    ensures Cross(Vector3(1, 0, 0), Vector3(0, 1, 0)) == Vector3(0, 0, 1)
  {
    var a, b := Vector3(1, 0, 0), Vector3(0, 1, 0);
    assert a.y * b.z == 0 && b.y * a.z == 0;
    assert a.x * b.z == 0 && b.x * a.z == 0;
    assert a.x * b.y == 1 && b.x * a.y == 0;
  }
}
