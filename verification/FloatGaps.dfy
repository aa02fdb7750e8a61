// How good rounding down to a 40-bit float is: exactly when it finds the greatest representable number
// below its input, and exactly when it keeps the order of two inputs.
module FloatGaps {
  import opened Types
  import opened Float40

  // The value that rounding down arrives at.
  function Rounded(x: nat): nat
    requires EncodeFloor(x).Ok?
  {
    FloorRoundsDown(x);
    ToBigInt(EncodeFloor(x).value).value
  }

  ghost predicate GreatestBelow(v: nat, x: nat) {
    Representable(v) && v <= x && forall y: nat :: Representable(y) && y <= x ==> y <= v
  }

  // 2^35 div 10: the mantissa that is left when the first number too large for an exponent loses a digit.
  const TRUNCATED: nat := 3435973836

  // From 2^35 * 10^(e-1), where the exponent becomes e, up to the first multiple of 10^e.
  predicate GapAt(x: nat, e: nat) {
    1 <= e <= 31 && THRES * Pow10(e - 1) <= x < (TRUNCATED + 1) * Pow10(e)
  }

  lemma DigitShifts(m: nat, e: nat)
    requires e > 0
    ensures m * Pow10(e) == (10 * m) * Pow10(e - 1)
  {
    TenTimes(m, Pow10(e - 1));
  }

  lemma RoundedIs(x: nat, m: nat, e: nat)
    requires EncodeFloor(x).Ok? && StripFloor(x, 0) == (m, e)
    ensures e <= 31 && m < THRES && Rounded(x) == m * Pow10(e) <= x < (m + 1) * Pow10(e)
    ensures e > 0 ==> x >= THRES * Pow10(e - 1)
    ensures Representable(Rounded(x))
  {
    StripFloorBounds(x, 0);
    PackUnpack(m, e);
    assert IsFloat(Rounded(x), m, e);
  }

  // Up to which power the number is below the threshold bounds its exponent.
  lemma ExponentAtMost(x: nat, m: nat, e: nat, k: nat)
    requires StripFloor(x, 0) == (m, e) && x < THRES * Pow10(k)
    ensures e <= k
  {
    StripFloorBounds(x, 0);
    if e > k {
      Pow10Monotone(k, e - 1);
      MulMonotone(Pow10(k), Pow10(e - 1), THRES);
    }
  }

  lemma ExponentAtLeast(x: nat, m: nat, e: nat, k: nat)
    requires StripFloor(x, 0) == (m, e) && THRES * Pow10(k) <= x
    ensures e > k
  {
    StripFloorBounds(x, 0);
    if e <= k {
      Pow10Monotone(e, k);
      MulMonotone(Pow10(e), Pow10(k), THRES);
      MulMonotone(m + 1, THRES, Pow10(e));
    }
  }

  // In a gap the mantissa is the truncated one, a digit short of the threshold.
  lemma GapRounds(x: nat, e: nat)
    requires GapAt(x, e)
    ensures EncodeFloor(x).Ok? && StripFloor(x, 0) == (TRUNCATED, e)
    ensures Rounded(x) == TRUNCATED * Pow10(e) == 10 * TRUNCATED * Pow10(e - 1)
  {
    var (m, e') := StripFloor(x, 0);
    StripFloorBounds(x, 0);
    DigitShifts(TRUNCATED, e);
    DigitShifts(TRUNCATED + 1, e);
    DigitShifts(m + 1, e);
    var p := Pow10(e - 1);
    MulMonotone(10 * (TRUNCATED + 1), 10 * THRES, p);
    assert Pow10(e) == 10 * p;
    ExponentAtMost(x, m, e', e);
    ExponentAtLeast(x, m, e', e - 1);
    MulLess(m, TRUNCATED + 1, Pow10(e));
    MulLess(THRES, 10 * (m + 1), p);
    RoundedIs(x, m, e);
  }

  // There the largest mantissa at the exponent below fits, and is more.
  lemma GapMissesMore(x: nat, e: nat)
    requires GapAt(x, e)
    ensures EncodeFloor(x).Ok?
    ensures var y := (THRES - 1) * Pow10(e - 1); Representable(y) && Rounded(x) < y <= x
  {
    GapRounds(x, e);
    var y := (THRES - 1) * Pow10(e - 1);
    assert IsFloat(y, THRES - 1, e - 1);
    assert y == 10 * TRUNCATED * Pow10(e - 1) + 7 * Pow10(e - 1);
  }

  lemma {:induction false} PowersMultiply(a: nat, b: nat)
    ensures Pow10(a + b) == Pow10(a) * Pow10(b)
  {
    if a > 0 {
      PowersMultiply(a - 1, b);
      assert Pow10(a + b) == 10 * Pow10(a - 1 + b);
      assert 10 * (Pow10(a - 1) * Pow10(b)) == (10 * Pow10(a - 1)) * Pow10(b);
    }
  }

  lemma MultipleBelow(k: nat, m: nat, x: nat, p: nat)
    requires k * p <= x < (m + 1) * p
    ensures k * p <= m * p
  {
    MulLess(k, m + 1, p);
    MulMonotone(k, m, p);
  }

  lemma Regroup(a: nat, b: nat, c: nat)
    ensures a * (b * c) == (a * b) * c
  {
  }

  // Nothing of the same or a higher exponent fits between the result and the number.
  lemma HigherExponents(m: nat, e: nat, x: nat, m2: nat, e2: nat)
    requires x < (m + 1) * Pow10(e) && e2 >= e && m2 * Pow10(e2) <= x
    ensures m2 * Pow10(e2) <= m * Pow10(e)
  {
    hide Pow10;
    PowersMultiply(e2 - e, e);
    Regroup(m2, Pow10(e2 - e), Pow10(e));
    MultipleBelow(m2 * Pow10(e2 - e), m, x, Pow10(e));
  }

  // Outside the gaps the mantissa is more than the truncated one.
  lemma OutsideGapMantissa(x: nat, m: nat, e: nat)
    requires EncodeFloor(x).Ok? && StripFloor(x, 0) == (m, e) && e > 0 && !GapAt(x, e)
    ensures m > TRUNCATED
  {
    RoundedIs(x, m, e);
    hide Pow10, StripFloor, EncodeFloor, Rounded;
    MulLess(TRUNCATED + 1, m + 1, Pow10(e));
  }

  // And nothing of a lower exponent reaches the result.
  lemma LowerExponents(m: nat, e: nat, m2: nat, e2: nat)
    requires m > TRUNCATED && e2 < e && m2 < THRES
    ensures m2 * Pow10(e2) <= m * Pow10(e)
  {
    hide Pow10;
    Pow10Monotone(e2, e - 1);
    ProductsGrow(m2, 10 * m, Pow10(e2), Pow10(e - 1));
    DigitShifts(m, e);
  }

  lemma ProductsGrow(a: nat, b: nat, p: nat, q: nat)
    requires a <= b && p <= q
    ensures a * p <= b * q
  {
    MulMonotone(a, b, p);
    MulMonotone(p, q, b);
  }

  lemma OutsideGapsGreatest(x: nat)
    requires EncodeFloor(x).Ok? && forall e :: !GapAt(x, e)
    ensures GreatestBelow(Rounded(x), x)
  {
    var (m, e) := StripFloor(x, 0);
    RoundedIs(x, m, e);
    forall y: nat | Representable(y) && y <= x
      ensures y <= Rounded(x)
    {
      var m2: nat, e2: nat :| e2 <= 31 && IsFloat(y, m2, e2);
      if e2 >= e {
        HigherExponents(m, e, x, m2, e2);
      } else {
        OutsideGapMantissa(x, m, e);
        LowerExponents(m, e, m2, e2);
      }
    }
  }

  // Rounding down arrives at the greatest representable number below its input if and only if the
  // input is in no gap.
  lemma FloorIsGreatestIff(x: nat)
    requires EncodeFloor(x).Ok?
    ensures GreatestBelow(Rounded(x), x) <==> forall e :: !GapAt(x, e)
  {
    forall e | GapAt(x, e)
      ensures !GreatestBelow(Rounded(x), x)
    {
      GapMissesMore(x, e);
    }
    if forall e :: !GapAt(x, e) {
      OutsideGapsGreatest(x);
    }
  }

  // The last few numbers below the threshold of an exponent.
  predicate JustBelow(x: nat, e: nat) {
    1 <= e <= 31 && (10 * TRUNCATED + 1) * Pow10(e - 1) <= x < THRES * Pow10(e - 1)
  }

  lemma JustBelowRounds(x: nat, e: nat)
    requires JustBelow(x, e) && EncodeFloor(x).Ok?
    ensures Rounded(x) > 10 * TRUNCATED * Pow10(e - 1)
  {
    var (m, e') := StripFloor(x, 0);
    RoundedIs(x, m, e');
    ExponentAtMost(x, m, e', e - 1);
    hide Pow10, StripFloor, EncodeFloor;
    Pow10Monotone(e', e - 1);
    OneLess(m, Pow10(e'));
    OneLess(10 * TRUNCATED, Pow10(e - 1));
  }

  lemma OneLess(m: nat, p: nat)
    ensures (m + 1) * p == m * p + p
  {
  }

  // Below them, rounding gives no more than what the gap gives.
  lemma FurtherBelow(x: nat, e: nat)
    requires 1 <= e <= 31 && x < (10 * TRUNCATED + 1) * Pow10(e - 1) && EncodeFloor(x).Ok?
    ensures Rounded(x) <= 10 * TRUNCATED * Pow10(e - 1)
  {
    var (m, e') := StripFloor(x, 0);
    RoundedIs(x, m, e');
    if e' >= e - 1 {
      HigherExponents(10 * TRUNCATED, e - 1, x, m, e');
    } else {
      hide Pow10, StripFloor, EncodeFloor, Rounded;
      Pow10Monotone(e', e - 2);
      ProductsGrow(m, 10 * (10 * TRUNCATED), Pow10(e'), Pow10(e - 2));
      DigitShifts(10 * TRUNCATED, e - 1);
    }
  }

  // Of two numbers the smaller one rounds to more if and only if the larger one is in a gap and the
  // smaller one just below it.
  lemma FloorDropsIff(x: nat, y: nat)
    requires x <= y && EncodeFloor(x).Ok? && EncodeFloor(y).Ok?
    ensures Rounded(x) > Rounded(y) <==> exists e :: GapAt(y, e) && JustBelow(x, e)
  {
    forall e | GapAt(y, e)
      ensures JustBelow(x, e) <==> Rounded(x) > Rounded(y)
    {
      GapDrops(x, y, e);
    }
    if forall e :: !GapAt(y, e) {
      OutsideGapsGreatest(y);
      RoundedIs(x, StripFloor(x, 0).0, StripFloor(x, 0).1);
    }
  }

  lemma GapDrops(x: nat, y: nat, e: nat)
    requires x <= y && EncodeFloor(x).Ok? && GapAt(y, e)
    ensures EncodeFloor(y).Ok? && (JustBelow(x, e) <==> Rounded(x) > Rounded(y))
  {
    GapRounds(y, e);
    if x >= THRES * Pow10(e - 1) {
      GapRounds(x, e);
    } else if JustBelow(x, e) {
      JustBelowRounds(x, e);
    } else {
      FurtherBelow(x, e);
    }
  }

  // The smallest instance: 2^35 goes to 34359738360, while 2^35 - 1 is representable and stays as it is.
  lemma FloorIsNotMonotone()
    ensures GapAt(0x8_0000_0000, 1) && JustBelow(0x7_ffff_ffff, 1)
    ensures EncodeFloor(0x8_0000_0000).Ok? && EncodeFloor(0x7_ffff_ffff).Ok?
    ensures Rounded(0x8_0000_0000) == 34359738360 < Rounded(0x7_ffff_ffff) == 0x7_ffff_ffff
  {
    assert Pow10(1) == 10 && Pow10(0) == 1;
    GapRounds(0x8_0000_0000, 1);
    RoundedIs(0x7_ffff_ffff, 0x7_ffff_ffff, 0);
  }
}
