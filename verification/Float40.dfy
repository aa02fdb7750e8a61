// The 40-bit decimal float used for amounts in the published data: 5 bits of exponent, 35 bits of mantissa.
module Float40 {
  import opened Types
  import opened Bytes

  const THRES: nat := 0x8_0000_0000
  const MAX_FLOAT40: nat := 0xff_ffff_ffff
  const FLOAT40_BYTES: nat := 5

  function Pow10(e: nat): (p: nat)
    ensures p > 0
  {
    if e == 0 then 1 else 10 * Pow10(e - 1)
  }

  // The value m * 10^e of a 40-bit word.
  function ToBigInt(f40: nat): (r: Result<nat>)
  {
    if f40 > MAX_FLOAT40 then Err(Float40Overflow)
    else Ok((f40 % THRES) * Pow10(f40 / THRES))
  }

  function ToBytes(f40: nat): (r: Result<seq<byte>>)
    ensures r.Ok? ==> |r.value| == FLOAT40_BYTES
  {
    if f40 > MAX_FLOAT40 then Err(Float40Overflow) else Ok(ToBE(f40, FLOAT40_BYTES))
  }

  // x is m * 10^e for a 35-bit m and an exponent of at most 31.
  ghost predicate IsFloat(x: nat, m: nat, e: nat) {
    m < THRES && x == m * Pow10(e)
  }

  ghost predicate Representable(x: nat) {
    exists m: nat, e: nat :: e <= 31 && IsFloat(x, m, e)
  }

  // Divide by ten while it is exact and the mantissa is still too large.
  function Strip(m: nat, e: nat): (nat, nat)
    decreases m
  {
    if m % 10 == 0 && m >= THRES then Strip(m / 10, e + 1) else (m, e)
  }

  function Pack(m: nat, e: nat): nat {
    m + e * THRES
  }

  function Encode(x: nat): (r: Result<nat>) {
    var (m, e) := Strip(x, 0);
    if e > 31 then Err(Float40Exponent)
    else if m >= THRES then Err(Float40Precision)
    else Ok(Pack(m, e))
  }

  method NewFloat40(f: nat) returns (r: Result<nat>)
    ensures r == Encode(f)
  {
    var m: nat, e: nat := f, 0;
    while m % 10 == 0 && m >= THRES
      invariant Strip(m, e) == Strip(f, 0)
      decreases m
    {
      m := m / 10;
      e := e + 1;
    }
    if e > 31 {
      return Err(Float40Exponent);
    }
    if m >= THRES {
      return Err(Float40Precision);
    }
    r := Ok(Pack(m, e));
  }

  // Divide by ten, rounding down, while the mantissa is too large.
  function StripFloor(m: nat, e: nat): (nat, nat)
    decreases m
  {
    if m >= THRES then StripFloor(m / 10, e + 1) else (m, e)
  }

  function EncodeFloor(x: nat): (r: Result<nat>) {
    var (m, e) := StripFloor(x, 0);
    if e > 31 then Err(Float40Exponent) else Ok(Pack(m, e))
  }

  method NewFloat40Floor(f: nat) returns (r: Result<nat>)
    ensures r == EncodeFloor(f)
  {
    var m: nat, e: nat := f, 0;
    while m >= THRES
      invariant StripFloor(m, e) == StripFloor(f, 0)
      decreases m
    {
      m := m / 10;
      e := e + 1;
    }
    if e > 31 {
      return Err(Float40Exponent);
    }
    r := Ok(Pack(m, e));
  }

  lemma MulMonotone(a: nat, b: nat, c: nat)
    requires a <= b
    ensures a * c <= b * c
  {
  }

  // Comparing multiples of the same power.
  lemma MulLess(a: nat, b: nat, p: nat)
    requires a * p < b * p
    ensures a < b
  {
    if a >= b {
      MulMonotone(b, a, p);
    }
  }

  lemma QuotientIs(x: nat, d: nat, q: nat)
    requires d > 0
    ensures q == x / d <==> q * d <= x < (q + 1) * d
  {
    var r := x / d;
    assert r * d <= x < (r + 1) * d;
    if q * d <= x < (q + 1) * d {
      MulLess(q, r + 1, d);
      MulLess(r, q + 1, d);
    }
  }

  lemma {:induction false} Pow10Monotone(a: nat, b: nat)
    requires a <= b
    ensures Pow10(a) <= Pow10(b)
  {
    if a < b {
      Pow10Monotone(a, b - 1);
    }
  }

  // Stripping keeps the value, and every stripped step was needed.
  lemma {:induction false} StripKeepsValue(m: nat, e: nat)
    ensures var (m', e') := Strip(m, e);
      e' >= e && m == m' * Pow10(e' - e) && (e' > e ==> m >= THRES * Pow10(e' - e - 1))
    decreases m
  {
    if m % 10 == 0 && m >= THRES {
      StripKeepsValue(m / 10, e + 1);
      var (m', e') := Strip(m, e);
      var k := e' - e - 1;
      assert Pow10(k + 1) == 10 * Pow10(k);
      assert m == 10 * (m' * Pow10(k)) == m' * Pow10(k + 1);
      if k > 0 {
        assert Pow10(k) == 10 * Pow10(k - 1);
        assert m >= 10 * (THRES * Pow10(k - 1)) == THRES * Pow10(k);
      }
    }
  }

  // Any exponent that works bounds the one found.
  lemma {:induction false} StripFindsLeast(m: nat, e: nat, m2: nat, k: nat)
    requires IsFloat(m, m2, k)
    ensures Strip(m, e).0 < THRES && Strip(m, e).1 <= e + k
    decreases k
  {
    if m >= THRES {
      if k > 0 {
        assert m == 10 * (m2 * Pow10(k - 1));
        StripFindsLeast(m / 10, e + 1, m2, k - 1);
      }
    }
  }

  lemma PackUnpack(m: nat, e: nat)
    requires m < THRES && e <= 31
    ensures Pack(m, e) <= MAX_FLOAT40
    ensures Pack(m, e) % THRES == m && Pack(m, e) / THRES == e
  {
  }

  // Encoding succeeds exactly on the representable numbers; it then decodes back to the number,
  // fits 40 bits and uses the least exponent possible.
  lemma EncodeExact(x: nat)
    ensures Encode(x).Ok? <==> Representable(x)
    ensures Encode(x).Ok? ==>
      && Encode(x).value <= MAX_FLOAT40
      && ToBigInt(Encode(x).value) == Ok(x)
      && IsFloat(x, Encode(x).value % 0x8_0000_0000, Encode(x).value / 0x8_0000_0000)
      && forall m: nat, e: nat :: IsFloat(x, m, e) ==> Encode(x).value / THRES <= e
  {
    var (m', e') := Strip(x, 0);
    StripKeepsValue(x, 0);
    forall m: nat, e: nat | IsFloat(x, m, e)
      ensures m' < THRES && e' <= e
    {
      StripFindsLeast(x, 0, m, e);
    }
    if Encode(x).Ok? {
      PackUnpack(m', e');
      assert IsFloat(x, m', e');
    }
  }

  // An amount that encodes survives the trip through its five bytes.
  lemma BytesRoundTrip(x: nat)
    requires Encode(x).Ok?
    ensures ToBytes(Encode(x).value).Ok?
    ensures ToBigInt(FromBE(ToBytes(Encode(x).value).value)) == Ok(x)
  {
    EncodeExact(x);
    Pow256Values();
    FromToBE(Encode(x).value, FLOAT40_BYTES);
  }

  lemma TenTimes(a: nat, p: nat)
    ensures a * (10 * p) == 10 * (a * p)
  {
  }

  // Undoing one floor division by ten.
  lemma ScaleUp(m: nat, m': nat, p: nat)
    requires m' * p <= m / 10 < (m' + 1) * p
    ensures m' * (10 * p) <= m < (m' + 1) * (10 * p)
  {
    TenTimes(m', p);
    TenTimes(m' + 1, p);
  }

  lemma {:induction false} StripFloorBounds(m: nat, e: nat)
    ensures var (m', e') := StripFloor(m, e);
      && e' >= e && m' < THRES
      && m' * Pow10(e' - e) <= m < (m' + 1) * Pow10(e' - e)
      && (e' > e ==> m >= THRES * Pow10(e' - e - 1))
    decreases m
  {
    var (m', e') := StripFloor(m, e);
    if m >= THRES {
      StripFloorBounds(m / 10, e + 1);
      var k := e' - e - 1;
      ScaleUp(m, m', Pow10(k));
      assert Pow10(k + 1) == 10 * Pow10(k);
      if k > 0 {
        TenTimes(THRES, Pow10(k - 1));
        assert Pow10(k) == 10 * Pow10(k - 1);
      } else {
        assert Pow10(0) == 1;
      }
    } else {
      assert Pow10(0) == 1;
    }
  }

  // On numbers that divide exactly the two loops take the same steps.
  lemma {:induction false} StripsAgree(m: nat, e: nat)
    requires Strip(m, e).0 < THRES
    ensures StripFloor(m, e) == Strip(m, e)
    decreases m
  {
    if m >= THRES {
      StripsAgree(m / 10, e + 1);
    }
  }

  // Rounding down fails exactly from 2^35 * 10^31 on.
  lemma FloorRange(x: nat)
    ensures EncodeFloor(x).Ok? <==> x < THRES * Pow10(31)
  {
    StripFloorBounds(x, 0);
    var (m, e) := StripFloor(x, 0);
    if e > 31 {
      Pow10Monotone(31, e - 1);
    } else {
      Pow10Monotone(e, 31);
      BelowThreshold(x, m, Pow10(e), Pow10(31));
    }
  }

  lemma BelowThreshold(x: nat, m: nat, p: nat, q: nat)
    requires x < (m + 1) * p && m < THRES && p <= q
    ensures x < THRES * q
  {
    MulMonotone(m + 1, THRES, p);
  }

  // What one stripped tail loses, in parts of the mantissa threshold.
  lemma LossBound(x: nat, m: nat, e: nat)
    requires m * Pow10(e) <= x < (m + 1) * Pow10(e)
    requires e > 0 ==> x >= THRES * Pow10(e - 1)
    ensures (x - m * Pow10(e)) * THRES <= 10 * x
  {
    var v := m * Pow10(e);
    assert (m + 1) * Pow10(e) == v + Pow10(e);
    if e > 0 {
      var p := Pow10(e - 1);
      assert Pow10(e) == 10 * p;
      MulMonotone(x - v, 10 * p, THRES);
    }
  }

  // Rounding down agrees with the exact encoding wherever that one succeeds; where only rounding
  // succeeds it goes down, and loses at most ten parts in 2^35.
  lemma FloorRoundsDown(x: nat)
    ensures Encode(x).Ok? ==> EncodeFloor(x) == Encode(x)
    ensures EncodeFloor(x).Ok? ==>
      && ToBigInt(EncodeFloor(x).value).Ok?
      && var v := ToBigInt(EncodeFloor(x).value).value; v <= x && (x - v) * THRES <= 10 * x
  {
    if Encode(x).Ok? {
      StripsAgree(x, 0);
    }
    StripFloorBounds(x, 0);
    var (m, e) := StripFloor(x, 0);
    if e <= 31 {
      PackUnpack(m, e);
      LossBound(x, m, e);
    }
  }
}
