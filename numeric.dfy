/** The floating-point steps the rasteriser performs once per computed coordinate,
    stated on exact reals: rounding and Rust's saturating float-to-integer casts. */
module Numeric {
  import opened Base

  /** `f64::round`: halfway cases round away from zero. */
  function RoundHalfAwayFromZero(v: real): (r: int)
    ensures v >= 0.0 ==> r as real <= v + 0.5 < r as real + 1.0
    ensures v < 0.0 ==> r as real - 0.5 < v <= r as real + 0.5
  {
    if v >= 0.0 then (v + 0.5).Floor else -((-v + 0.5).Floor)
  }

  /** `as u32` applied to an integral float: negative values saturate to 0, large ones to `u32::MAX`. */
  function SaturateU32(n: int): (r: U32)
    ensures 0 <= n <= U32_MAX ==> r == n
    ensures n < 0 ==> r == 0
    ensures n > U32_MAX ==> r == U32_MAX
  {
    if n < 0 then 0 else if n > U32_MAX then U32_MAX else n
  }

  /** `f64 as u32`: truncation toward zero, then saturation. */
  function TruncToU32(v: real): (r: U32)
    ensures 0.0 <= v < U32_MAX as real + 1.0 ==> r as real <= v < r as real + 1.0
    ensures v < 1.0 ==> r == 0
  {
    if v >= 0.0 then SaturateU32(v.Floor) else SaturateU32(-((-v).Floor))
  }

  /** Rounding leaves an integer where it is. */
  lemma RoundOfInteger(n: int)
    ensures RoundHalfAwayFromZero(n as real) == n
  {
  }

  /** Rounding a value that lies between two integers stays between them. */
  lemma RoundBetween(v: real, lo: int, hi: int)
    requires lo as real <= v <= hi as real
    ensures lo <= RoundHalfAwayFromZero(v) <= hi
  {
  }

  /** Truncating a non-negative value that lies between two integers stays between them. */
  lemma TruncBetween(v: real, lo: nat, hi: U32)
    requires lo as real <= v <= hi as real
    ensures lo <= TruncToU32(v) <= hi
  {
  }

  /** Truncation keeps order. */
  lemma TruncMonotone(v: real, w: real)
    requires v <= w
    ensures TruncToU32(v) <= TruncToU32(w)
  {
  }

  /** The product d · t, named so that the solver treats it as one quantity. */
  function Scale(d: real, t: real): real {
    d * t
  }

  /** A fraction t in [0, 1] of d lies between 0 and d. */
  lemma ScaleBounds(d: real, t: real)
    requires 0.0 <= t <= 1.0
    ensures d >= 0.0 ==> 0.0 <= Scale(d, t) <= d
    ensures d <= 0.0 ==> d <= Scale(d, t) <= 0.0
  {
    if d >= 0.0 {
      MulNonNegative(d, t);
      MulNonNegative(d, 1.0 - t);
      assert d * t + d * (1.0 - t) == d;
    } else {
      MulNonNegative(-d, t);
      MulNonNegative(-d, 1.0 - t);
      assert (-d) * t + (-d) * (1.0 - t) == -d;
      assert (-d) * t == -(d * t);
    }
  }

  /** A larger fraction of a non-negative quantity is no smaller. */
  lemma ScaleMonotone(d: real, t1: real, t2: real)
    requires d >= 0.0 && t1 <= t2
    ensures Scale(d, t1) <= Scale(d, t2)
  {
    MulNonNegative(d, t2 - t1);
    assert d * (t2 - t1) == d * t2 - d * t1;
  }

  lemma MulNonNegative(a: real, b: real)
    requires a >= 0.0 && b >= 0.0
    ensures a * b >= 0.0
  {
  }
}
