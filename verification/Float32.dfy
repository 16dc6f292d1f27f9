/**
  The number of parts a long message is cut into. The encoders compute
  `((len as f32) / one_len as f32).ceil()` in IEEE binary32, so the exact
  integer ceiling is a theorem about rounding, not a definition.
 */
module Float32 {
  import opened Arithmetic

  const PART_LEN: nat := 134
  const WHOLE_LEN: nat := 140

  /** Round `n / d` to an integer, ties to even. */
  function RoundHalfEven(n: nat, d: nat): nat
    requires d > 0
  {
    var q, r := n / d, n % d;
    if 2 * r < d then q
    else if 2 * r > d then q + 1
    else q + q % 2
  }

  /** The binary32 value `mantissa / 2^scale`; binary32 allows scales up to 149. */
  datatype F32 = F32(mantissa: nat, scale: nat)

  /**
    The binary32 quotient `n / d`, for quotients below 2^24. The scale is the
    largest one whose mantissa still fits 24 bits, or 149 for subnormals.
   */
  function DivideF32(n: nat, d: nat, scale: nat := 0): F32
    requires d > 0 && scale <= 149
    decreases 149 - scale
  {
    if scale < 149 && n * Pow2(scale + 1) < 0x100_0000 * d then
      DivideF32(n, d, scale + 1)
    else
      F32(RoundHalfEven(n * Pow2(scale), d), scale)
  }

  /** `f32::ceil` followed by `as usize`. */
  function CeilF32(x: F32): nat {
    (x.mantissa + Pow2(x.scale) - 1) / Pow2(x.scale)
  }

  /** The number of parts the encoders compute for a long message. */
  function PartCount(len: nat): nat {
    CeilF32(DivideF32(len, PART_LEN))
  }

  /** The scale chosen is at least 7 when the quotient is below 2^17. */
  lemma {:induction false} ScaleAtLeast7(n: nat, scale: nat) returns (chosen: nat)
    requires scale <= 149
    requires n < 0x100_0000
    ensures 7 <= chosen <= 149
    ensures DivideF32(n, PART_LEN, scale) == F32(RoundHalfEven(n * Pow2(chosen), PART_LEN), chosen)
    decreases 149 - scale
  {
    if scale < 7 {
      Below7(n, scale);
    }
    if scale < 149 && n * Pow2(scale + 1) < 0x100_0000 * PART_LEN {
      chosen := ScaleAtLeast7(n, scale + 1);
    } else {
      chosen := scale;
    }
  }

  lemma Below7(n: nat, scale: nat)
    requires scale < 7 && n < 0x100_0000
    ensures n * Pow2(scale + 1) < 0x100_0000 * PART_LEN
  {
    assert Pow2(7) == 128;
    Pow2Monotone(scale + 1, 7);
    MulMonotone(n, Pow2(scale + 1), 128);
  }

  /** Scaling by 2^7 or more keeps the fraction of a non-multiple away from zero. */
  lemma RoundedQuotient(k: nat, r: nat, p: nat)
    requires r < PART_LEN && p >= 128
    ensures var m := RoundHalfEven((PART_LEN * k + r) * p, PART_LEN);
            if r == 0 then m == k * p else k * p < m <= (k + 1) * p
  {
    var q, s := r * p / PART_LEN, r * p % PART_LEN;
    assert r * p <= 133 * p by {
      MulMonotone(p, r, 133);
    }
    assert r > 0 ==> p <= r * p by {
      if r > 0 {
        MulMonotone(p, 1, r);
      }
    }
    var n := (PART_LEN * k + r) * p;
    assert n == (k * p + q) * PART_LEN + s by {
      assert (PART_LEN * k + r) * p == PART_LEN * (k * p) + r * p;
    }
    DivModUnique(n, PART_LEN, k * p + q, s);
    assert (k + 1) * p == k * p + p;
  }

  lemma CeilBetween(k: nat, m: nat, p: nat)
    requires p > 0 && k * p < m <= (k + 1) * p
    ensures (m + p - 1) / p == k + 1
  {
    var e := m + p - 1 - (k + 1) * p;
    assert 0 <= e < p;
    assert m + p - 1 == (k + 1) * p + e;
    DivModUnique(m + p - 1, p, k + 1, e);
  }

  /** The float computation is the exact integer ceiling for every length a float holds exactly. */
  lemma PartCountExact(len: nat)
    requires len < 0x100_0000
    ensures PartCount(len) == (len + PART_LEN - 1) / PART_LEN
  {
    var k, r := len / PART_LEN, len % PART_LEN;
    assert len == PART_LEN * k + r;
    var scale := ScaleAtLeast7(len, 0);
    var p := Pow2(scale);
    Pow2Monotone(7, scale);
    assert Pow2(7) == 128;
    RoundedQuotient(k, r, p);
    if r == 0 {
      DivModUnique(k * p + p - 1, p, k, p - 1);
    } else {
      CeilBetween(k, DivideF32(len, PART_LEN).mantissa, p);
    }
  }
}
