/**
  How large a number a checkpoint accepts (internal/run/checkpoint.go), in digits: reading as a 64-bit
  float overflows between the integers of 308 and of 310 digits, and an exponent has its own bound.
*/
module CheckpointRange {
  import opened Wrappers
  import opened Identity
  import opened CheckpointNumber

  lemma {:induction false} TenToAdds(a: nat, b: nat)
    ensures TenTo(a + b) == TenTo(a) * TenTo(b)
  {
    if b > 0 {
      TenToAdds(a, b - 1);
      assert TenTo(a + b) == 10 * TenTo(a + (b - 1));
      Regrouped(10, TenTo(a), TenTo(b - 1));
    }
  }

  lemma {:induction false} Pow2Adds(a: nat, b: nat)
    ensures Pow2(a + b) == Pow2(a) * Pow2(b)
  {
    if b > 0 {
      Pow2Adds(a, b - 1);
      assert Pow2(a + b) == 2 * Pow2(a + (b - 1));
      Regrouped(2, Pow2(a), Pow2(b - 1));
    }
  }

  lemma Regrouped(c: int, m: int, n: int)
    ensures c * (m * n) == m * (c * n)
  {
  }

  lemma SmallPowers()
    ensures TenTo(7) == 10_000_000 && Pow2(8) == 256
  {
    assert TenTo(3) == 1000 && TenTo(6) == 1000 * TenTo(3) by {
      TenToAdds(3, 3);
      assert TenTo(1) == 10 && TenTo(2) == 10 * TenTo(1) && TenTo(3) == 10 * TenTo(2);
    }
    assert Pow2(2) == 4 && Pow2(4) == 16 by {
      Pow2Adds(2, 2);
      assert Pow2(1) == 2 && Pow2(2) == 2 * Pow2(1);
    }
    Pow2Adds(4, 4);
  }

  lemma TenTo77()
    ensures TenTo(77) == 100000_000000000000_000000000000_000000000000_000000000000_000000000000_000000000000
  {
    SmallPowers();
    TenToAdds(7, 7);
    TenToAdds(14, 14);
    TenToAdds(28, 28);
    TenToAdds(56, 14);
    TenToAdds(70, 7);
  }

  lemma Pow2Of64()
    ensures Pow2(64) == 0x1_0000000000000000
  {
    SmallPowers();
    Pow2Adds(8, 8);
    Pow2Adds(16, 16);
    Pow2Adds(32, 32);
  }

  lemma Pow2Of256()
    ensures Pow2(256) == 0x1_0000000000000000_0000000000000000_0000000000000000_0000000000000000
  {
    Pow2Of64();
    Pow2Adds(64, 64);
    Pow2Adds(128, 128);
  }

  lemma ProductsOrdered(a: nat, b: nat, c: nat, d: nat)
    requires a <= b && c <= d
    ensures a * c <= b * d
  {
    assert a * c <= b * c <= b * d;
  }

  /** The fourth power of a ratio in hundredths. */
  lemma FourthPower(a: nat, b: nat, m: nat)
    ensures 100 * a <= m * b ==> 100_000_000 * (a * a * (a * a)) <= m * m * (m * m) * (b * b * (b * b))
    ensures 100 * a >= m * b ==> 100_000_000 * (a * a * (a * a)) >= m * m * (m * m) * (b * b * (b * b))
  {
    Squared(100, a);
    Squared(m, b);
    Squared(100 * 100, a * a);
    Squared(m * m, b * b);
    var x, y := 100 * a, m * b;
    if x <= y {
      ProductsOrdered(x, y, x, y);
      ProductsOrdered(x * x, y * y, x * x, y * y);
    }
    if y <= x {
      ProductsOrdered(y, x, y, x);
      ProductsOrdered(y * y, x * x, y * y, x * x);
    }
  }

  lemma Squared(c: nat, n: nat)
    ensures (c * n) * (c * n) == (c * c) * (n * n)
  {
    assert (c * n) * (c * n) == c * (n * (c * n)) == c * (c * (n * n)) by {
      Regrouped(c, n, n);
    }
  }

  lemma RangeFromRatio(a: nat, b: nat, t: nat, p: nat, q: nat, r: nat)
    requires 86 * b <= 100 * a <= 87 * b
    requires t == a * a * (a * a) && p == b * b * (b * b) && p == q * r && q > 0 && r >= 256
    ensures t < p - q && p < 10 * t
  {
    FourthPower(a, b, 87);
    FourthPower(a, b, 86);
    ProductsOrdered(q, q, 256, r);
  }

  lemma Ratio()
    ensures 86 * Pow2(256) <= 100 * TenTo(77) <= 87 * Pow2(256)
  {
    TenTo77();
    Pow2Of256();
  }

  lemma FourthTenTo(n: nat)
    ensures TenTo(4 * n) == TenTo(n) * TenTo(n) * (TenTo(n) * TenTo(n))
  {
    TenToAdds(n, n);
    TenToAdds(2 * n, 2 * n);
  }

  lemma FourthPow2(n: nat)
    ensures Pow2(4 * n) == Pow2(n) * Pow2(n) * (Pow2(n) * Pow2(n))
  {
    Pow2Adds(n, n);
    Pow2Adds(2 * n, 2 * n);
  }

  /** Where the float range lies among the powers of ten. */
  lemma RangeAmongPowers()
    ensures TenTo(308) < Pow2(1024) - Pow2(970)
    ensures Pow2(1024) < TenTo(309)
  {
    Ratio();
    FourthTenTo(77);
    FourthPow2(256);
    Pow2Adds(970, 54);
    LargePow2();
    RangeFromRatio(TenTo(77), Pow2(256), TenTo(308), Pow2(1024), Pow2(970), Pow2(54));
  }

  lemma LargePow2()
    ensures Pow2(54) >= 256 && Pow2(970) > 0
  {
    SmallPowers();
    Pow2Positive(46);
    Pow2Positive(970);
    Pow2Adds(8, 46);
  }

  lemma {:induction false} Pow2Positive(n: nat)
    ensures Pow2(n) >= 1
  {
    if n > 0 { Pow2Positive(n - 1); }
  }

  // ---------- how many digits ----------

  /** The magnitude of a number without exponent lies between the powers of ten its integer digits say. */
  lemma MagnitudeByDigits(l: Literal)
    requires WellFormed(l) && l.exponent.None?
    ensures Value(l.(negative := false)) < TenTo(|l.whole|) as real
    ensures l.whole[0] != '0' ==> TenTo(|l.whole| - 1) as real <= Value(l.(negative := false))
  {
    var all, f := l.whole + FractionDigits(l), |FractionDigits(l)|;
    NaturalBelow(all);
    TenToAdds(|l.whole|, f);
    AtPoint(|l.whole|, f);
    ScaledIncreasing(Mantissa(l), TenTo(|l.whole| + f), -f);
    if l.whole[0] != '0' {
      NaturalAtLeast(all);
      TenToAdds(|l.whole| - 1, f);
      AtPoint(|l.whole| - 1, f);
      if TenTo(|l.whole| - 1 + f) < Mantissa(l) {
        ScaledIncreasing(TenTo(|l.whole| - 1 + f), Mantissa(l), -f);
      }
    }
  }

  lemma AtPoint(n: nat, f: nat)
    ensures Scaled(TenTo(n + f), 0 - f) == TenTo(n) as real
  {
    TenToAdds(n, f);
    Rescaled(TenTo(n), f, 0 - f);
    assert Pow10(0) == 1.0;
  }

  lemma ShortIsFinite(l: Literal)
    requires WellFormed(l) && l.exponent.None? && |l.whole| <= 308
    ensures FloatFinite(Value(l))
  {
    RangeAmongPowers();
    MagnitudeByDigits(l);
    ScaledPositive(Mantissa(l), -|FractionDigits(l)|);
    TenToIncreasing(|l.whole|, 308);
    Within(Value(l.(negative := false)), TenTo(|l.whole|), Pow2(1024) - Pow2(970), l.negative);
  }

  lemma LongIsNotFinite(l: Literal)
    requires WellFormed(l) && l.exponent.None? && |l.whole| >= 310
    ensures !FloatFinite(Value(l))
  {
    RangeAmongPowers();
    MagnitudeByDigits(l);
    TenToIncreasing(309, |l.whole| - 1);
    Pow2Positive(970);
    Beyond(Value(l.(negative := false)), TenTo(|l.whole| - 1), Pow2(1024) - Pow2(970), l.negative);
  }

  lemma Within(magnitude: real, bound: int, limit: int, negative: bool)
    requires 0.0 <= magnitude < bound as real && bound < limit
    ensures -(limit as real) < Signed(negative, magnitude) < limit as real
  {
  }

  lemma Beyond(magnitude: real, bound: int, limit: int, negative: bool)
    requires bound as real <= magnitude && limit < bound && limit > 0
    ensures !(-(limit as real) < Signed(negative, magnitude) < limit as real)
  {
  }

  /**
    Without an exponent a number is accepted if it has at most 308 integer digits, however long its
    fraction, and refused if it has 310 or more. With an exponent beyond 308 either way it is refused,
    even if it is zero.
  */
  lemma RangeByDigits(l: Literal)
    requires WellFormed(l)
    ensures l.exponent.None? && |l.whole| <= 308 ==> Normalize(Text(l)).Some?
    ensures l.exponent.None? && |l.whole| >= 310 ==> Normalize(Text(l)).None?
    ensures (ExponentValue(l) > 308 || ExponentValue(l) < -308) ==> Normalize(Text(l)).None?
  {
    NormalizeExact(l);
    if l.exponent.None? && |l.whole| <= 308 {
      ShortIsFinite(l);
    } else if l.exponent.None? && |l.whole| >= 310 {
      LongIsNotFinite(l);
    }
  }
}
