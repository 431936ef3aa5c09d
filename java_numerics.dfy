/** Java's 32-bit `int` arithmetic, as far as MainTeleOp.scaleInput uses it:
    the narrowing cast of a `double` to `int` (section 5.1.3 of the Java Language
    Specification) and unary minus on `int` (section 15.15.4), which wraps. */
module JavaNumerics {

  const IntMin: int := -0x8000_0000
  const IntMax: int := 0x7FFF_FFFF
  const IntModulus: int := 0x1_0000_0000

  /** True of the values a Java `int` can hold. */
  predicate IsInt(i: int) {
    IntMin <= i <= IntMax
  }

  /** Rounds toward zero: the integer part of `v`, with the sign of `v`. */
  function TruncateTowardZero(v: real): (t: int)
    ensures 0.0 <= v ==> t as real <= v < t as real + 1.0
    ensures v < 0.0 ==> t as real - 1.0 < v <= t as real
  {
    if v < 0.0 then -((-v).Floor) else v.Floor
  }

  /** `(int) v` for a finite `v`: rounds toward zero, and saturates at the
      bounds of `int` when the rounded value does not fit. */
  function DoubleToInt(v: real): (i: int)
    ensures IsInt(i)
    ensures IntMin as real < v < IntMax as real + 1.0 ==> i == TruncateTowardZero(v)
    ensures v <= IntMin as real ==> i == IntMin
    ensures IntMax as real + 1.0 <= v ==> i == IntMax
  {
    var t := TruncateTowardZero(v);
    if t < IntMin then IntMin else if t > IntMax then IntMax else t
  }

  /** Unary minus on `int`: the result is congruent to `-i` modulo 2^32, so the
      negation of the least `int` is that value again. */
  function Negate(i: int): (r: int)
    requires IsInt(i)
    ensures IsInt(r)
    ensures (r + i) % IntModulus == 0
    ensures r < 0 ==> i == IntMin || 0 < i
  {
    if i == IntMin then IntMin else -i
  }
}
