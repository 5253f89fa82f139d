/** IEEE 754 binary64 values (Rust's `f64`) as bit patterns. The modelled
    operations never compute on these values (`calculate_volume` is not
    modelled); they only copy them, so the bit pattern is all the model keeps. A decoder for normal numbers gives the literals their meaning. */
module Float64 {

  datatype F64 = F64(bits: bv64)

  /** The literal `2f64`: sign 0, biased exponent 1024, fraction 0. */
  const Two: F64 := F64(0x4000_0000_0000_0000)

  /** The literal `4f64`: sign 0, biased exponent 1025, fraction 0. */
  const Four: F64 := F64(0x4010_0000_0000_0000)

  predicate IsNegative(f: F64) {
    f.bits >> 63 == 1
  }

  function BiasedExponent(f: F64): nat {
    ((f.bits >> 52) & 0x7FF) as nat
  }

  function Fraction(f: F64): nat {
    (f.bits & 0xF_FFFF_FFFF_FFFF) as nat
  }

  /** Neither zero, subnormal, infinite nor NaN. */
  predicate IsNormal(f: F64) {
    0 < BiasedExponent(f) < 0x7FF
  }

  /** 2 to the power `k`, for any integer `k`. */
  ghost function Pow2(k: int): (r: real)
    ensures r > 0.0
    decreases if k < 0 then -k else k
  {
    if k == 0 then 1.0
    else if k > 0 then 2.0 * Pow2(k - 1)
    else Pow2(k + 1) / 2.0
  }

  /** The real number a normal binary64 value denotes
      (section 3.4 of IEEE 754-2008). */
  ghost function RealValue(f: F64): real
    requires IsNormal(f)
  {
    (if IsNegative(f) then -1.0 else 1.0)
    * (1.0 + Fraction(f) as real / 4503599627370496.0)
    * Pow2(BiasedExponent(f) - 1023)
  }

  lemma TwoDenotesTwo()
    ensures IsNormal(Two) && RealValue(Two) == 2.0
  {
    assert BiasedExponent(Two) == 1024 && Fraction(Two) == 0 && !IsNegative(Two);
    assert Pow2(1) == 2.0;
  }

  lemma FourDenotesFour()
    ensures IsNormal(Four) && RealValue(Four) == 4.0
  {
    assert BiasedExponent(Four) == 1025 && Fraction(Four) == 0 && !IsNegative(Four);
    assert Pow2(1) == 2.0;
    assert Pow2(2) == 4.0;
  }

  lemma TwoIsNotFour()
    ensures Two != Four
  {
  }
}
