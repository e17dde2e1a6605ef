/** Cell values as they travel from a parsed JSON record, through a pandas
    frame, into the parameters of a SQL statement. */
module Values {

  datatype Option<+T> = None | Some(value: T)

  /** An IEEE 754 binary64 number (a numpy float64), kept as its bit pattern. */
  datatype Float = Float(bits: bv64)

  const ExponentMask: bv64 := 0x7FF0_0000_0000_0000
  const FractionMask: bv64 := 0x000F_FFFF_FFFF_FFFF

  /** NaN in IEEE 754 binary64: every exponent bit set and a non-zero fraction. */
  predicate IsNaN(x: Float) {
    x.bits & ExponentMask == ExponentMask && x.bits & FractionMask != 0
  }

  /** One cell: SQL NULL (Python None), an integer, a string or a float64. */
  datatype Value = Null | Int(i: int) | Str(s: string) | Real(f: Float)

  /** `isinstance(el, np.float64) and np.isnan(el)` */
  predicate IsNaNFloat(v: Value) {
    v.Real? && IsNaN(v.f)
  }

  /** The per-element coercion applied to artist data: a NaN float becomes
      None, every other cell passes unchanged. */
  function NaNToNull(v: Value): (r: Value)
    ensures !IsNaNFloat(r)
    ensures r == v || (IsNaNFloat(v) && r == Null)
  {
    if IsNaNFloat(v) then Null else v
  }

  /** 2^52, the weight of the fraction field's lowest bit in 1.fraction. */
  const TwoTo52: real := 4503599627370496.0

  function Pow2(n: nat): (r: real)
    ensures r >= 1.0
  {
    if n == 0 then 1.0 else 2.0 * Pow2(n - 1)
  }

  /** Neither an infinity nor a NaN: some exponent bit is clear. */
  predicate IsFinite(x: Float) {
    x.bits & ExponentMask != ExponentMask
  }

  /** The exact number a finite binary64 bit pattern denotes:
      (-1)^sign * 1.fraction * 2^(exponent - 1023), or
      (-1)^sign * 0.fraction * 2^-1022 when the exponent field is 0. */
  function FloatValue(x: Float): real
    requires IsFinite(x)
  {
    var e := ((x.bits & ExponentMask) >> 52) as int;
    var f := (x.bits & FractionMask) as int as real;
    var magnitude :=
      if e == 0 then (f / TwoTo52) / Pow2(1022)
      else if e >= 1023 then (1.0 + f / TwoTo52) * Pow2(e - 1023)
      else (1.0 + f / TwoTo52) / Pow2(1023 - e);
    if x.bits & 0x8000_0000_0000_0000 == 0 then magnitude else -magnitude
  }

  /** The number a numeric cell holds: an integer, or a finite float. */
  predicate IsNumber(v: Value) {
    v.Int? || (v.Real? && IsFinite(v.f))
  }

  function NumberValue(v: Value): real
    requires IsNumber(v)
  {
    if v.Int? then v.i as real else FloatValue(v.f)
  }

  /** The `=` of a SQL WHERE clause on a cell: NULL on either side never
      matches; numbers compare by value, whether integer or float, as in a
      `numeric` column; strings compare as text. */
  predicate SqlEquals(a: Value, b: Value) {
    if IsNumber(a) && IsNumber(b) then NumberValue(a) == NumberValue(b)
    else a.Str? && b.Str? && a.s == b.s
  }

  /** SQL equality is symmetric and never holds for NULL; a number never
      matches a string; two numbers match when they denote the same value,
      whether each came as an integer or as a float (for example, 180 matches
      180.0, and 0.0 matches -0.0); two strings match when they are equal. */
  lemma SqlEqualsFacts(a: Value, b: Value)
    ensures SqlEquals(a, b) == SqlEquals(b, a)
    ensures a == Null ==> !SqlEquals(a, b)
    ensures SqlEquals(Int(180), Real(Float(0x4066_8000_0000_0000)))
    ensures SqlEquals(Real(Float(0)), Real(Float(0x8000_0000_0000_0000)))
    ensures !SqlEquals(Int(180), Str("180"))
    ensures IsNumber(a) && b.Str? ==> !SqlEquals(a, b) && !SqlEquals(b, a)
    ensures a.Int? && b.Int? ==> (SqlEquals(a, b) <==> a.i == b.i)
    ensures a.Str? && b.Str? ==> (SqlEquals(a, b) <==> a.s == b.s)
    ensures IsNumber(a) && IsNumber(b) ==> (SqlEquals(a, b) <==> NumberValue(a) == NumberValue(b))
  {
    var x := Float(0x4066_8000_0000_0000);
    assert (x.bits & ExponentMask) >> 52 == 1030;
    assert x.bits & FractionMask == 0x0006_8000_0000_0000;
    assert Pow2(7) == 128.0 by {
      assert Pow2(1) == 2.0;
      assert Pow2(2) == 4.0;
      assert Pow2(3) == 8.0;
      assert Pow2(4) == 16.0;
      assert Pow2(5) == 32.0;
      assert Pow2(6) == 64.0;
    }
    assert FloatValue(x) == 180.0;
  }
}
