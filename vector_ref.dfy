/** `src/vector/vector.rs`: the second generation, `Vector2`/`Vector3` with
    by-reference operators, a dot product, scaling by a `Scalar` wrapper from
    either side, and the widening `From` conversions the `impl_from_vec3!`
    macro generates between integer component types. */
module VectorRef {

  datatype Scalar = Scalar(k: int)

  datatype Vector2 = Vector2(x: int, y: int)

  datatype Vector3 = Vector3(x: int, y: int, z: int)

  function Dot2(a: Vector2, b: Vector2): int {
    a.x * b.x + a.y * b.y
  }

  function Add2(a: Vector2, b: Vector2): Vector2 {
    Vector2(a.x + b.x, a.y + b.y)
  }

  function Sub2(a: Vector2, b: Vector2): Vector2 {
    Vector2(a.x - b.x, a.y - b.y)
  }

  /** `&v * Scalar(k)` */
  function Scale2(v: Vector2, s: Scalar): Vector2 {
    Vector2(v.x * s.k, v.y * s.k)
  }

  /** `Scalar(k) * &v`, implemented in the source as `rhs * self`. */
  function ScalarTimes2(s: Scalar, v: Vector2): Vector2 {
    Scale2(v, s)
  }

  function Dot3(a: Vector3, b: Vector3): int {
    a.x * b.x + a.y * b.y + a.z * b.z
  }

  function Add3(a: Vector3, b: Vector3): Vector3 {
    Vector3(a.x + b.x, a.y + b.y, a.z + b.z)
  }

  function Sub3(a: Vector3, b: Vector3): Vector3 {
    Vector3(a.x - b.x, a.y - b.y, a.z - b.z)
  }

  function Scale3(v: Vector3, s: Scalar): Vector3 {
    Vector3(v.x * s.k, v.y * s.k, v.z * s.k)
  }

  function ScalarTimes3(s: Scalar, v: Vector3): Vector3 {
    Scale3(v, s)
  }

  lemma Vector2Algebra(a: Vector2, b: Vector2, s: Scalar)
    ensures Sub2(Add2(a, b), b) == a
    ensures Dot2(a, b) == Dot2(b, a)
    ensures ScalarTimes2(s, a) == Scale2(a, s)
    ensures Scale2(Add2(a, b), s) == Add2(Scale2(a, s), Scale2(b, s))
  {
  }

  lemma Vector3Algebra(a: Vector3, b: Vector3, s: Scalar)
    ensures Sub3(Add3(a, b), b) == a
    ensures Dot3(a, b) == Dot3(b, a)
    ensures ScalarTimes3(s, a) == Scale3(a, s)
    ensures Dot3(Scale3(a, s), b) == s.k * Dot3(a, b)
  {
    assert a.x * s.k * b.x + a.y * s.k * b.y + a.z * s.k * b.z
        == s.k * (a.x * b.x + a.y * b.y + a.z * b.z);
  }

  /** The values the unit tests assert. */
  lemma TestValues()
    ensures Add2(Vector2(5, 5), Vector2(1, 1)) == Vector2(6, 6)
    ensures Sub2(Vector2(5, 5), Vector2(1, 1)) == Vector2(4, 4)
    ensures Dot2(Vector2(1, 2), Vector2(3, 4)) == 11
    ensures Scale2(Vector2(3, 4), Scalar(2)) == ScalarTimes2(Scalar(2), Vector2(3, 4)) == Vector2(6, 8)
    ensures Add3(Vector3(1, 3, 5), Vector3(1, 2, 3)) == Vector3(2, 5, 8)
    ensures Dot3(Vector3(1, 2, 3), Vector3(2, 3, 5)) == 23
    ensures Scale3(Vector3(1, 3, 4), Scalar(3)) == Vector3(3, 9, 12)
  {
  }

  /** Rust's primitive integer types named by the conversion macro. */
  datatype IntType = I8 | I16 | I32 | I64 | U8 | U16 | U32 | U64

  function MinValue(t: IntType): int {
    match t
    case I8 => -0x80 case I16 => -0x8000 case I32 => -0x8000_0000 case I64 => -0x8000_0000_0000_0000
    case U8 => 0 case U16 => 0 case U32 => 0 case U64 => 0
  }

  /** 2 to the power of the type's width. */
  function Modulus(t: IntType): (m: nat)
    ensures m > 0
  {
    match t
    case I8 => 0x100 case U8 => 0x100
    case I16 => 0x1_0000 case U16 => 0x1_0000
    case I32 => 0x1_0000_0000 case U32 => 0x1_0000_0000
    case I64 => 0x1_0000_0000_0000_0000 case U64 => 0x1_0000_0000_0000_0000
  }

  predicate Fits(n: int, t: IntType) {
    MinValue(t) <= n < MinValue(t) + Modulus(t)
  }

  /** `n as t`: two's-complement wrap-around into the target range. */
  function As(n: int, t: IntType): (r: int)
    ensures Fits(r, t)
    ensures Fits(n, t) ==> r == n
  {
    var m := Modulus(t);
    var offset := n - MinValue(t);
    assert 0 <= offset < m ==> offset % m == offset;
    offset % m + MinValue(t)
  }

  /** The (target, source) pairs that `impl_from_vec3!` instantiates (vector.rs:126-132). */
  predicate ConversionProvided(to: IntType, from: IntType) {
    match to
    case I64 => from in {I64, I32, I16, I8, U32, U16, U8}
    case I32 => from in {I32, I16, I8, U16, U8}
    case I16 => from in {I16, I8, U8}
    case U64 => from in {U64, U32, U16, U8}
    case U32 => from in {U32, U16, U8}
    case U16 => from in {U16, U8}
    case U8 => from == U8
    case I8 => false
  }

  predicate FitsVector(v: Vector3, t: IntType) {
    Fits(v.x, t) && Fits(v.y, t) && Fits(v.z, t)
  }

  /** Every provided conversion widens: the source type's range lies inside the target's. */
  lemma ProvidedConversionsWiden(to: IntType, from: IntType, n: int)
    requires ConversionProvided(to, from) && Fits(n, from)
    ensures Fits(n, to)
  {
    match to
    case I64 =>
    case I32 =>
    case I16 =>
    case U64 =>
    case U32 =>
    case U16 =>
    case U8 =>
  }

  /** `Vector3::<to>::from(&src)`: each component cast with `as`; because every
      provided conversion widens, the cast is lossless. */
  function From(src: Vector3, from: IntType, to: IntType): (r: Vector3)
    requires ConversionProvided(to, from) && FitsVector(src, from)
    ensures FitsVector(r, to)
    ensures r == src
  {
    ProvidedConversionsWiden(to, from, src.x);
    ProvidedConversionsWiden(to, from, src.y);
    ProvidedConversionsWiden(to, from, src.z);
    Vector3(As(src.x, to), As(src.y, to), As(src.z, to))
  }
}
