/** The joystick-to-power curve of MainTeleOp.scaleInput: the magnitude of an
    axis value picks one of 17 buckets of width 1/16, the bucket's entry in a
    fixed table is the power, and the sign of the input is put back on it. */
module InputScaler {
  import opened JavaNumerics

  /** The lookup table, entry i being the power for magnitudes in [i/16, (i+1)/16). */
  const Curve: seq<real> := [0.0, 0.05, 0.09, 0.10, 0.12, 0.15, 0.18, 0.24,
                             0.30, 0.36, 0.43, 0.50, 0.60, 0.72, 0.85, 1.00, 1.00]

  /** The largest index of Curve; larger bucket numbers are clamped to it. */
  const TopIndex: nat := 16

  /** Buckets per unit of axis magnitude. */
  const Buckets: real := 16.0

  function Abs(x: real): (r: real)
    ensures 0.0 <= r && (r == x || r == -x)
  {
    if x < 0.0 then -x else x
  }

  function Min(a: int, b: int): (m: int)
    ensures m <= a && m <= b && (m == a || m == b)
  {
    if a < b then a else b
  }

  /** Every entry of the table is a power in [0, 1]. */
  lemma CurveInUnit()
    ensures |Curve| == TopIndex + 1
    ensures forall i :: 0 <= i < |Curve| ==> 0.0 <= Curve[i] <= 1.0
  {
  }

  predicate NonDecreasing(s: seq<real>) {
    forall i, j :: 0 <= i <= j < |s| ==> s[i] <= s[j]
  }

  /** The table never decreases, so larger magnitudes never get less power. */
  lemma CurveNonDecreasing()
    ensures NonDecreasing(Curve)
  {
  }

  /** The table index scaleInput uses: `x * 16` rounded toward zero, made
      non-negative, clamped to 16. It is the bucket number floor(|x| * 16),
      capped at the last entry. */
  function ScaleIndex(x: real): (i: nat)
    ensures i <= TopIndex
    ensures i == Min((Abs(x) * Buckets).Floor, TopIndex)
  {
    var t := TruncateTowardZero(x * Buckets);
    var a := if t < 0 then -t else t;
    if a > TopIndex then TopIndex else a
  }

  /** scaleInput: the table entry for the magnitude of `x`, negated for a
      negative `x`. The result is a power in [-1, 1] with the sign of `x`. */
  function ScaleInput(x: real): (r: real)
    ensures -1.0 <= r <= 1.0
    ensures 0.0 <= x ==> 0.0 <= r
    ensures x < 0.0 ==> r <= 0.0
  {
    CurveInUnit();
    var v := Curve[ScaleIndex(x)];
    if x < 0.0 then -v else v
  }

  /** The fixed points of the curve and two interior values. */
  lemma ScaleInputExamples()
    ensures ScaleInput(0.0) == 0.0
    ensures ScaleInput(1.0) == 1.0 && ScaleInput(-1.0) == -1.0
    ensures ScaleInput(0.5) == 0.30 && ScaleInput(-0.5) == -0.30
  {
    assert ScaleIndex(1.0) == 16 && ScaleIndex(-1.0) == 16;
    assert ScaleIndex(0.5) == 8 && ScaleIndex(-0.5) == 8;
  }

  /** Inputs of equal magnitude share a bucket and get opposite powers. */
  lemma ScaleInputOdd(x: real)
    ensures ScaleInput(-x) == -ScaleInput(x)
  {
  }

  /** A larger magnitude falls in the same or a later bucket. */
  lemma ScaleIndexMonotone(x: real, y: real)
    requires Abs(x) <= Abs(y)
    ensures ScaleIndex(x) <= ScaleIndex(y)
  {
  }

  /** scaleInput never decreases: more stick never means less power. */
  lemma ScaleInputMonotone(x: real, y: real)
    requires x <= y
    ensures ScaleInput(x) <= ScaleInput(y)
  {
    CurveNonDecreasing();
    if 0.0 <= x {
      ScaleIndexMonotone(x, y);
    } else if y < 0.0 {
      ScaleIndexMonotone(y, x);
    }
  }

  /** The top of the curve is flat: from magnitude 15/16 on, the power is full. */
  lemma ScaleInputSaturates(x: real)
    requires 15.0 / 16.0 <= Abs(x)
    ensures ScaleInput(x) == if x < 0.0 then -1.0 else 1.0
  {
  }

  // ---------------------------------------------------------------------
  // scaleInput as written, in Java's 32-bit `int` arithmetic.

  /** The outcome of the table lookup: a power, or Java's
      ArrayIndexOutOfBoundsException with the offending index. */
  datatype Lookup = Power(value: real) | IndexOutOfBounds(index: int)

  /** The greatest input for which `dVal * 16.0` no longer exceeds the least `int`. */
  const OverflowInput: real := -134217728.0

  /** The index as the source computes it: the cast saturates, and negating the
      least `int` gives the least `int` back, which then slips past both checks. */
  function SourceIndex(x: real): (i: int)
    ensures i <= TopIndex
    ensures 0 <= i || i == IntMin
  {
    var i0 := DoubleToInt(x * Buckets);
    var i1 := if i0 < 0 then Negate(i0) else i0;
    if i1 > TopIndex then TopIndex else i1
  }

  function SourceScaleInput(x: real): (r: Lookup)
    ensures r.Power? ==> -1.0 <= r.value <= 1.0
    ensures r.IndexOutOfBounds? ==> r.index == IntMin
  {
    CurveInUnit();
    var i := SourceIndex(x);
    if 0 <= i < |Curve| then Power(if x < 0.0 then -Curve[i] else Curve[i])
    else IndexOutOfBounds(i)
  }

  /** Above OverflowInput the source computes the same power as ScaleInput. */
  lemma SourceScaleInputAgrees(x: real)
    requires OverflowInput < x
    ensures SourceScaleInput(x) == Power(ScaleInput(x))
  {
    var v := x * Buckets;
    assert IntMin as real < v;
    if v < IntMax as real + 1.0 {
      assert DoubleToInt(v) == TruncateTowardZero(v);
    } else {
      assert ScaleIndex(x) == TopIndex;
    }
  }

  /** At or below OverflowInput the source indexes the table at the least `int`. */
  lemma SourceScaleInputOverflows(x: real)
    requires x <= OverflowInput
    ensures SourceIndex(x) == IntMin
    ensures SourceScaleInput(x) == IndexOutOfBounds(IntMin)
  {
  }

  /** The largest input (the one nearest zero) that shows it; its mirror image is looked up normally. */
  lemma SourceScaleInputCounterexample()
    ensures SourceScaleInput(OverflowInput).IndexOutOfBounds?
    ensures SourceScaleInput(-OverflowInput) == Power(1.0)
  {
    SourceScaleInputOverflows(OverflowInput);
    SourceScaleInputAgrees(-OverflowInput);
    ScaleInputSaturates(-OverflowInput);
  }
}
