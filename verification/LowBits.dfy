// Which representable amounts have their low 64 bits zero.
module LowBits {
  import opened Types
  import opened Float40

  function Pow2(n: nat): (p: nat)
    ensures p > 0
  {
    if n == 0 then 1 else 2 * Pow2(n - 1)
  }

  ghost predicate Multiple(y: nat, k: nat) {
    exists q: nat :: y == q * Pow2(k)
  }

  lemma HalfIsMultiple(y: nat, k: nat)
    requires k > 0
    ensures Multiple(2 * y, k) <==> Multiple(y, k - 1)
  {
    if Multiple(2 * y, k) {
      var q: nat :| 2 * y == q * Pow2(k);
      TwiceProduct(q, Pow2(k - 1));
    }
    if Multiple(y, k - 1) {
      var q: nat :| y == q * Pow2(k - 1);
      TwiceProduct(q, Pow2(k - 1));
      assert 2 * y == q * Pow2(k);
    }
  }

  lemma MultipleIsEven(y: nat, k: nat)
    requires k > 0 && Multiple(y, k)
    ensures y % 2 == 0
  {
    var q: nat :| y == q * Pow2(k);
    TwiceProduct(q, Pow2(k - 1));
    hide Pow2;
    var h := q * Pow2(k - 1);
    assert y == 2 * h;
  }

  lemma TwiceProduct(q: nat, p: nat)
    ensures q * (2 * p) == 2 * (q * p)
  {
  }

  // Five is odd.
  lemma {:induction false} FiveTimes(y: nat, k: nat)
    requires Multiple(5 * y, k)
    ensures Multiple(y, k)
  {
    if k == 0 {
      assert y == y * Pow2(0);
    } else {
      hide Multiple, Pow2;
      MultipleIsEven(5 * y, k);
      var half := y / 2;
      assert y == 2 * half;
      HalfIsMultiple(5 * half, k);
      FiveTimes(half, k - 1);
      HalfIsMultiple(half, k);
    }
  }

  // Every factor of ten brings in exactly one factor of two.
  lemma {:induction false} TwosOf(m: nat, e: nat, k: nat)
    requires e <= k && Multiple(m * Pow10(e), k)
    ensures Multiple(m, k - e)
  {
    if e > 0 {
      var y := m * Pow10(e - 1);
      TenTimes(m, Pow10(e - 1));
      assert m * Pow10(e) == 2 * (5 * y);
      HalfIsMultiple(5 * y, k);
      FiveTimes(y, k - 1);
      TwosOf(m, e - 1, k - 1);
    } else {
      assert m * Pow10(0) == m;
    }
  }

  lemma {:induction false} Pow2Monotone(a: nat, b: nat)
    requires a <= b
    ensures Pow2(a) <= Pow2(b)
  {
    if a < b {
      Pow2Monotone(a, b - 1);
    }
  }

  lemma Pow2Values()
    ensures Pow2(33) == 0x2_0000_0000 && Pow2(34) == 0x4_0000_0000 && Pow2(35) == THRES
    ensures Pow2(64) == 0x1_0000_0000_0000_0000
  {
    assert Pow2(11) == 0x800;
    assert Pow2(22) == 0x40_0000;
    assert Pow2(33) == 0x2_0000_0000;
    assert Pow2(44) == 0x1000_0000_0000;
    assert Pow2(55) == 0x80_0000_0000_0000;
  }

  lemma MantissaTwos(m: nat, n: nat)
    requires 0 < m < THRES && Multiple(m, n)
    ensures n <= 34
  {
    Pow2Values();
    hide Pow2;
    var q: nat :| m == q * Pow2(n);
    MulMonotone(1, q, Pow2(n));
    if n > 34 {
      Pow2Monotone(35, n);
    }
  }

  lemma HighMultiples(m: nat, n: nat)
    requires m < THRES && Multiple(m, n) && 33 <= n <= 34
    ensures n == 34 ==> m == 0 || m == 0x4_0000_0000
    ensures n == 33 ==> m % 0x2_0000_0000 == 0
  {
    Pow2Values();
    hide Pow2;
    var q: nat :| m == q * Pow2(n);
    if n == 34 {
      assert m == q * 0x4_0000_0000;
    } else {
      assert m == q * 0x2_0000_0000;
    }
  }

  // A mantissa of 35 bits has at most 34 factors of two, so the exponent must bring in thirty.
  lemma LowBitsZero(m: nat, e: nat)
    requires 0 < m < THRES && e <= 31 && Multiple(m * Pow10(e), 64)
    ensures (m == 0x4_0000_0000 && e == 30) || (m % 0x2_0000_0000 == 0 && e == 31)
  {
    TwosOf(m, e, 64);
    MantissaTwos(m, 64 - e);
    hide Pow10;
    HighMultiples(m, 64 - e);
  }

  // The four representable amounts that are multiples of 2^64, other than zero.
  const EVEN_AMOUNTS := [0x4_0000_0000 * Pow10(30), 0x2_0000_0000 * Pow10(31), 0x4_0000_0000 * Pow10(31),
                         0x6_0000_0000 * Pow10(31)]

  lemma Pow10Values()
    ensures Pow10(30) == 1000000000000000000000000000000 && Pow10(31) == 10000000000000000000000000000000
  {
    assert Pow10(10) == 10000000000;
    assert Pow10(20) == 100000000000000000000;
    assert Pow10(30) == 1000000000000000000000000000000;
  }

  // A representable amount other than zero has its low 64 bits zero exactly if it is one of four; the
  // least of them is 2^34 * 10^30.
  lemma LowBitsZeroIff(x: nat)
    requires Representable(x) && x > 0
    ensures x % 0x1_0000_0000_0000_0000 == 0 <==> x in EVEN_AMOUNTS
    ensures x % 0x1_0000_0000_0000_0000 == 0 ==> x >= EVEN_AMOUNTS[0]
  {
    Pow10Values();
    Pow2Values();
    hide Pow10, Pow2;
    if x % 0x1_0000_0000_0000_0000 == 0 {
      var m: nat, e: nat :| e <= 31 && IsFloat(x, m, e);
      assert x == (x / 0x1_0000_0000_0000_0000) * Pow2(64);
      LowBitsZero(m, e);
      if e == 31 {
        var q := m / 0x2_0000_0000;
        assert q == 1 || q == 2 || q == 3;
      }
    }
  }

  lemma EvenAmountsEncode(k: nat)
    requires k < 4
    ensures Representable(EVEN_AMOUNTS[k]) && EVEN_AMOUNTS[k] > 0
  {
    hide Pow10;
    assert IsFloat(EVEN_AMOUNTS[0], 0x4_0000_0000, 30);
    assert IsFloat(EVEN_AMOUNTS[1], 0x2_0000_0000, 31);
    assert IsFloat(EVEN_AMOUNTS[2], 0x4_0000_0000, 31);
    assert IsFloat(EVEN_AMOUNTS[3], 0x6_0000_0000, 31);
  }
}