// Big-endian byte strings of a fixed length.
module Bytes {

  type byte = b: nat | b < 256

  function Pow256(n: nat): (p: nat)
    ensures p > 0
  {
    if n == 0 then 1 else 256 * Pow256(n - 1)
  }

  // The number whose big-endian digits are b.
  function FromBE(b: seq<byte>): nat {
    if b == [] then 0 else 256 * FromBE(b[..|b| - 1]) + b[|b| - 1]
  }

  // The last n big-endian digits of x: higher digits are cut off.
  function ToBE(x: nat, n: nat): (b: seq<byte>)
    ensures |b| == n
  {
    if n == 0 then [] else ToBE(x / 256, n - 1) + [x % 256]
  }

  function Zeros(n: nat): (z: seq<byte>)
    ensures |z| == n && forall i :: 0 <= i < n ==> z[i] == 0
  {
    seq(n, _ => 0)
  }

  lemma {:induction false} FromBEBound(b: seq<byte>)
    ensures FromBE(b) < Pow256(|b|)
  {
    if b != [] {
      FromBEBound(b[..|b| - 1]);
    }
  }

  // Decoding what was encoded gives the number back, cut to n digits.
  lemma {:induction false} FromToBE(x: nat, n: nat)
    requires x < Pow256(n)
    ensures FromBE(ToBE(x, n)) == x
  {
    if n > 0 {
      FromToBE(x / 256, n - 1);
      var b := ToBE(x, n);
      assert b[..|b| - 1] == ToBE(x / 256, n - 1);
    }
  }

  lemma {:induction false} ToFromBE(b: seq<byte>)
    ensures ToBE(FromBE(b), |b|) == b
  {
    if b != [] {
      var front := b[..|b| - 1];
      ToFromBE(front);
      assert FromBE(b) / 256 == FromBE(front) && FromBE(b) % 256 == b[|b| - 1];
      assert b == front + [b[|b| - 1]];
    }
  }

  // Fixed-length big-endian strings are determined by their number.
  lemma FromBEInjective(a: seq<byte>, b: seq<byte>)
    requires |a| == |b| && FromBE(a) == FromBE(b)
    ensures a == b
  {
    ToFromBE(a);
    ToFromBE(b);
  }

  // Padding on the left with zeros does not change the number.
  lemma {:induction false} PadLeft(k: nat, b: seq<byte>)
    ensures FromBE(Zeros(k) + b) == FromBE(b)
  {
    if b != [] {
      PadLeft(k, b[..|b| - 1]);
      var p := Zeros(k) + b;
      assert p[..|p| - 1] == Zeros(k) + b[..|b| - 1];
    } else if k > 0 {
      PadLeft(k - 1, []);
      var p := Zeros(k) + [];
      assert p[..|p| - 1] == Zeros(k - 1) + [];
    }
  }

  // The last m digits of an n-digit encoding are the m-digit encoding.
  lemma {:induction false} ToBESuffix(x: nat, n: nat, m: nat)
    requires m <= n
    ensures ToBE(x, n)[n - m..] == ToBE(x, m)
  {
    if m > 0 {
      ToBESuffix(x / 256, n - 1, m - 1);
      var b := ToBE(x, n);
      assert b[n - m..] == ToBE(x / 256, n - 1)[n - m..] + [x % 256];
    }
  }

  // A number that fits m digits is written in n digits as n - m zeros and then its m digits.
  lemma {:induction false} ToBEPadded(x: nat, n: nat, m: nat)
    requires m <= n && x < Pow256(m)
    ensures ToBE(x, n) == Zeros(n - m) + ToBE(x, m)
  {
    if m > 0 {
      ToBEPadded(x / 256, n - 1, m - 1);
      assert Zeros(n - m) + ToBE(x, m) == (Zeros(n - m) + ToBE(x / 256, m - 1)) + [x % 256];
    } else if n > 0 {
      ToBEPadded(0, n - 1, 0);
      assert Zeros(n - 1) + [] + [0] == Zeros(n) + [];
    }
  }

  lemma Pow256Monotone(m: nat, n: nat)
    requires m <= n
    ensures Pow256(m) <= Pow256(n)
  {
    if m < n {
      Pow256Monotone(m, n - 1);
    }
  }

  // The sizes used by the encodings.
  lemma Pow256Values()
    ensures Pow256(1) == 0x100
    ensures Pow256(4) == 0x1_0000_0000
    ensures Pow256(5) == 0x100_0000_0000
    ensures Pow256(6) == 0x1_0000_0000_0000
    ensures Pow256(20) == 0x1_0000000000000000000000000000000000000000
    ensures Pow256(24) == 0x1_000000000000000000000000000000000000000000000000
    ensures Pow256(32) == 0x1_0000000000000000000000000000000000000000000000000000000000000000
  {
    assert Pow256(8) == 0x1_0000_0000_0000_0000;
    assert Pow256(12) == 0x1_0000_0000_0000_0000_0000_0000;
    assert Pow256(16) == 0x1_0000_0000_0000_0000_0000_0000_0000_0000;
  }
}
