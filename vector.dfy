/** `src/vector.rs`: the first generation of the vector type, a generic
    `Vector3<T: Num>` with by-reference `+` and `-`, instantiated at
    `i32`, `u32` and `f64` by type aliases. Components are unbounded integers
    here; the `u32` alias is the range predicate `IsU32Vector`. */
module Vector {
  import opened Base

  datatype Vector3 = Vector3(x: int, y: int, z: int)

  /** `Vector3::new` */
  function New(x: int, y: int, z: int): (v: Vector3)
    ensures v.x == x && v.y == y && v.z == z
  {
    Vector3(x, y, z)
  }

  /** `&a + &b` */
  function Add(a: Vector3, b: Vector3): Vector3 {
    Vector3(a.x + b.x, a.y + b.y, a.z + b.z)
  }

  /** `&a - &b` */
  function Sub(a: Vector3, b: Vector3): Vector3 {
    Vector3(a.x - b.x, a.y - b.y, a.z - b.z)
  }

  /** The `Vector3u` alias: every component is a `u32`. */
  predicate IsU32Vector(v: Vector3) {
    0 <= v.x <= U32_MAX && 0 <= v.y <= U32_MAX && 0 <= v.z <= U32_MAX
  }

  /** `-` on `Vector3u`: Rust panics on `u32` underflow, so each component of
      the right operand may not exceed the left one. */
  function SubU32(a: Vector3, b: Vector3): (r: Vector3)
    requires IsU32Vector(a) && IsU32Vector(b)
    requires b.x <= a.x && b.y <= a.y && b.z <= a.z
    ensures IsU32Vector(r)
    ensures Add(r, b) == a
  {
    Sub(a, b)
  }

  /** Subtraction undoes addition. */
  lemma SubUndoesAdd(a: Vector3, b: Vector3)
    ensures Sub(Add(a, b), b) == a
    ensures Add(Sub(a, b), b) == a
  {
  }

  lemma AddCommutes(a: Vector3, b: Vector3)
    ensures Add(a, b) == Add(b, a)
  {
  }

  /** The unit tests' values: (1,-1,1)+(1,-1,1), (1,2,3)+(1,2,3) and the three subtractions. */
  lemma TestValues()
    ensures New(1, -1, 1) == Vector3(1, -1, 1)
    ensures Add(Vector3(1, -1, 1), Vector3(1, -1, 1)) == Vector3(2, -2, 2)
    ensures Add(Vector3(1, 2, 3), Vector3(1, 2, 3)) == Vector3(2, 4, 6)
    ensures Sub(Vector3(1, -1, 1), Vector3(1, 2, 3)) == Vector3(0, -3, -2)
    ensures SubU32(Vector3(1, 2, 3), Vector3(1, 2, 3)) == Vector3(0, 0, 0)
  {
  }
}
