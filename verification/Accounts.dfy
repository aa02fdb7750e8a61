// An account leaf, its 128-byte encoding and its hash.
module Accounts {
  import opened Types
  import opened Bytes

  const TWO_192: nat := 0x1_000000000000000000000000000000000000000000000000
  const TWO_254: nat := 0x4000000000000000000000000000000000000000000000000000000000000000
  const TWO_255: nat := 0x8000000000000000000000000000000000000000000000000000000000000000
  // The order of the finite field of the circuit.
  const FIELD: nat := 21888242871839275222246405745257275088548364400416034343698204186575808495617
  const LEAF_BYTES: nat := 128

  // A compressed Baby Jubjub key: 32 little-endian bytes whose top bit is the sign and whose other
  // 255 bits are y.
  datatype BJJ = BJJ(sign: bool, y: Coordinate)
  type Coordinate = y: nat | y < TWO_255
  const EMPTY_BJJ := BJJ(false, 0)

  datatype Account = Account(tokenID: TokenID, nonce: nat, balance: nat, bjj: BJJ, ethAddr: Addr)

  // The encoder masks y to 254 bits and reduces it modulo the field; one subtraction does each,
  // because y is below 2^255 and the field is above 2^253.
  function CanonKey(k: BJJ): (c: BJJ)
    ensures c.y < FIELD
    ensures k.y < FIELD ==> c == k
  {
    var masked := if k.y < TWO_254 then k.y else k.y - TWO_254;
    BJJ(k.sign, if masked < FIELD then masked else masked - FIELD)
  }

  lemma CanonKeyIsMaskAndMod(k: BJJ)
    ensures CanonKey(k).y == (k.y % TWO_254) % FIELD
  {
    var masked := if k.y < TWO_254 then k.y else k.y - TWO_254;
    assert k.y == (if k.y < TWO_254 then 0 else 1) * TWO_254 + masked;
    assert masked == (if masked < FIELD then 0 else 1) * FIELD + CanonKey(k).y;
  }

  function Canon(a: Account): Account {
    a.(bjj := CanonKey(a.bjj))
  }

  ghost predicate Canonical(a: Account) {
    a.bjj.y < FIELD
  }

  // The encoder refuses nonces over 40 bits and balances over 24 bytes.
  predicate Encodable(a: Account) {
    a.nonce <= MAX_NONCE && a.balance < TWO_192
  }

  // Where the fields stand in the 128 bytes.
  function Fields(sign: byte, nonce: seq<byte>, token: seq<byte>, balance: seq<byte>, ay: seq<byte>, eth: seq<byte>)
    : (b: seq<byte>)
    requires |nonce| == 5 && |token| == 4 && |balance| == 24 && |ay| == 32 && |eth| == 20
    ensures |b| == LEAF_BYTES
  {
    Zeros(22) + [sign] + nonce + token + Zeros(8) + balance + ay + Zeros(12) + eth
  }

  function Layout(a: Account): (b: seq<byte>)
    ensures |b| == LEAF_BYTES
  {
    Fields(if a.bjj.sign then 1 else 0, ToBE(a.nonce, 5), ToBE(a.tokenID, 4), ToBE(a.balance, 24),
           ToBE(CanonKey(a.bjj).y, 32), ToBE(a.ethAddr, 20))
  }

  function Encode(a: Account): (r: Result<seq<byte>>)
    ensures r.Ok? ==> |r.value| == LEAF_BYTES
  {
    if a.nonce > MAX_NONCE || a.balance >= TWO_192 then Err(NumOverflow) else Ok(Layout(a))
  }

  function Decode(b: seq<byte>): (r: Result<Account>)
    requires |b| == LEAF_BYTES
  {
    Pow256Values();
    FromBEBound(b[28..32]);
    FromBEBound(b[108..128]);
    var ay := FromBE(b[64..96]);
    if b[32..40] != Zeros(8) then Err(NumOverflow)
    else if ay >= FIELD then Err(NotInField)
    else Ok(Account(FromBE(b[28..32]), FromBE(b[23..28]), FromBE(b[40..64]),
                    BJJ(b[22] == 1, ay), FromBE(b[108..128])))
  }

  function Splice(b: seq<byte>, at: nat, src: seq<byte>): (r: seq<byte>)
    requires at + |src| <= |b|
    ensures |r| == |b|
  {
    b[..at] + src + b[at + |src|..]
  }

  // Write src at position at of a fixed buffer.
  method Copy(buf: array<byte>, at: nat, src: seq<byte>)
    requires at + |src| <= buf.Length
    modifies buf
    ensures buf[..] == Splice(old(buf[..]), at, src)
  {
    for i := 0 to |src|
      invariant forall k :: 0 <= k < buf.Length ==>
        buf[k] == if at <= k < at + i then src[k - at] else old(buf[k])
    {
      buf[at + i] := src[i];
    }
  }

  // Account.Bytes: fill a zeroed 128-byte buffer field by field.
  method AccountBytes(a: Account) returns (r: Result<seq<byte>>)
    ensures r == Encode(a)
  {
    if a.nonce > MAX_NONCE || a.balance >= TWO_192 {
      return Err(NumOverflow);
    }
    var b := new byte[LEAF_BYTES](_ => 0);
    assert b[..] == Zeros(LEAF_BYTES);
    Copy(b, 28, ToBE(a.tokenID, 4));
    Copy(b, 23, ToBE(a.nonce, 5));
    Copy(b, 22, [if a.bjj.sign then 1 else 0]);
    Copy(b, 40, ToBE(a.balance, 24));
    Copy(b, 64, ToBE(CanonKey(a.bjj).y, 32));
    Copy(b, 108, ToBE(a.ethAddr, 20));
    SplicesMakeFields(if a.bjj.sign then 1 else 0, ToBE(a.nonce, 5), ToBE(a.tokenID, 4), ToBE(a.balance, 24),
                      ToBE(CanonKey(a.bjj).y, 32), ToBE(a.ethAddr, 20));
    r := Ok(b[..]);
  }

  lemma SpliceBetween(pre: seq<byte>, mid: seq<byte>, post: seq<byte>, src: seq<byte>)
    requires |mid| == |src|
    ensures Splice(pre + mid + post, |pre|, src) == pre + src + post
  {
  }

  // The order in which the fields are written does not matter: the buffer ends up as the layout.
  lemma SplicesMakeFields(sign: byte, n: seq<byte>, t: seq<byte>, bal: seq<byte>, ay: seq<byte>, eth: seq<byte>)
    requires |n| == 5 && |t| == 4 && |bal| == 24 && |ay| == 32 && |eth| == 20
    ensures
      var b1 := Splice(Zeros(LEAF_BYTES), 28, t);
      var b2 := Splice(b1, 23, n);
      var b3 := Splice(b2, 22, [sign]);
      var b4 := Splice(b3, 40, bal);
      var b5 := Splice(b4, 64, ay);
      Splice(b5, 108, eth) == Fields(sign, n, t, bal, ay, eth)
  {
    assert Zeros(LEAF_BYTES) == Zeros(28) + Zeros(4) + Zeros(96);
    SpliceBetween(Zeros(28), Zeros(4), Zeros(96), t);
    assert Zeros(28) + t + Zeros(96) == Zeros(23) + Zeros(5) + (t + Zeros(96));
    SpliceBetween(Zeros(23), Zeros(5), t + Zeros(96), n);
    assert Zeros(23) + n + (t + Zeros(96)) == Zeros(22) + Zeros(1) + (n + t + Zeros(96));
    SpliceBetween(Zeros(22), Zeros(1), n + t + Zeros(96), [sign]);
    var head := Zeros(22) + [sign] + n + t;
    assert Zeros(22) + [sign] + (n + t + Zeros(96)) == head + Zeros(96);
    FieldsTail(head, bal, ay, eth);
  }

  lemma FieldsTail(head: seq<byte>, bal: seq<byte>, ay: seq<byte>, eth: seq<byte>)
    requires |head| == 32 && |bal| == 24 && |ay| == 32 && |eth| == 20
    ensures Splice(Splice(Splice(head + Zeros(96), 40, bal), 64, ay), 108, eth)
      == head + Zeros(8) + bal + ay + Zeros(12) + eth
  {
    assert head + Zeros(96) == (head + Zeros(8)) + Zeros(24) + Zeros(64);
    SpliceBetween(head + Zeros(8), Zeros(24), Zeros(64), bal);
    var h2 := head + Zeros(8) + bal;
    assert h2 + Zeros(64) == h2 + Zeros(32) + Zeros(32);
    SpliceBetween(h2, Zeros(32), Zeros(32), ay);
    assert h2 + ay + Zeros(32) == (h2 + ay + Zeros(12)) + Zeros(20) + [];
    SpliceBetween(h2 + ay + Zeros(12), Zeros(20), [], eth);
  }

  lemma FieldSlices(sign: byte, n: seq<byte>, t: seq<byte>, bal: seq<byte>, ay: seq<byte>, eth: seq<byte>)
    requires |n| == 5 && |t| == 4 && |bal| == 24 && |ay| == 32 && |eth| == 20
    ensures var b := Fields(sign, n, t, bal, ay, eth);
      && b[0..32] == Zeros(22) + ([sign] + n + t)
      && b[32..64] == Zeros(8) + bal
      && b[64..96] == ay
      && b[96..128] == Zeros(12) + eth
      && b[22] == sign && b[23..28] == n && b[28..32] == t
      && b[32..40] == Zeros(8) && b[40..64] == bal && b[108..128] == eth
  {
  }

  lemma LayoutSlices(a: Account)
    ensures Layout(a)[22] == if a.bjj.sign then 1 else 0
    ensures Layout(a)[23..28] == ToBE(a.nonce, 5)
    ensures Layout(a)[28..32] == ToBE(a.tokenID, 4)
    ensures Layout(a)[32..40] == Zeros(8)
    ensures Layout(a)[40..64] == ToBE(a.balance, 24)
    ensures Layout(a)[64..96] == ToBE(CanonKey(a.bjj).y, 32)
    ensures Layout(a)[108..128] == ToBE(a.ethAddr, 20)
  {
    FieldSlices(if a.bjj.sign then 1 else 0, ToBE(a.nonce, 5), ToBE(a.tokenID, 4), ToBE(a.balance, 24),
                ToBE(CanonKey(a.bjj).y, 32), ToBE(a.ethAddr, 20));
  }

  // Decoding an encoded account gives the account with its key in canonical form; so the trip is
  // the identity exactly on canonical keys.
  lemma RoundTrip(a: Account)
    requires Encodable(a)
    ensures Encode(a).Ok? && Decode(Encode(a).value) == Ok(Canon(a))
    ensures Decode(Encode(a).value) == Ok(a) <==> Canonical(a)
  {
    LayoutSlices(a);
    Pow256Values();
    FromToBE(a.nonce, 5);
    FromToBE(a.tokenID, 4);
    FromToBE(a.balance, 24);
    FromToBE(CanonKey(a.bjj).y, 32);
    FromToBE(a.ethAddr, 20);
  }

  // What decodes is in range and canonical, and encodes again.
  lemma DecodedInRange(b: seq<byte>)
    requires |b| == LEAF_BYTES && Decode(b).Ok?
    ensures Encodable(Decode(b).value) && Canonical(Decode(b).value)
  {
    Pow256Values();
    FromBEBound(b[23..28]);
    FromBEBound(b[40..64]);
  }

  // Poseidon is an injective function of the four field elements of a leaf, so it is modelled by a
  // free constructor.
  datatype Digest = Poseidon(elements: seq<nat>)

  function BigInts(b: seq<byte>): seq<nat>
    requires |b| == LEAF_BYTES
  {
    [FromBE(b[0..32]), FromBE(b[32..64]), FromBE(b[64..96]), FromBE(b[96..128])]
  }

  function HashValue(b: seq<byte>): Digest
    requires |b| == LEAF_BYTES
  {
    Poseidon(BigInts(b))
  }

  // Equal leaf hashes mean equal leaf bytes.
  lemma HashInjective(a: seq<byte>, b: seq<byte>)
    requires |a| == |b| == LEAF_BYTES && HashValue(a) == HashValue(b)
    ensures a == b
  {
    assert BigInts(a)[0] == BigInts(b)[0] && BigInts(a)[1] == BigInts(b)[1]
      && BigInts(a)[2] == BigInts(b)[2] && BigInts(a)[3] == BigInts(b)[3];
    FromBEInjective(a[0..32], b[0..32]);
    FromBEInjective(a[32..64], b[32..64]);
    FromBEInjective(a[64..96], b[64..96]);
    FromBEInjective(a[96..128], b[96..128]);
    assert a == a[0..32] + a[32..64] + a[64..96] + a[96..128];
    assert b == b[0..32] + b[32..64] + b[64..96] + b[96..128];
  }

  lemma PaddedBound(k: nat, b: seq<byte>, limit: nat)
    requires Pow256(|b|) <= limit
    ensures FromBE(Zeros(k) + b) < limit
  {
    PadLeft(k, b);
    FromBEBound(b);
  }

  // Every leaf element lies inside the field, so the hash never fails.
  lemma ElementsInField(a: Account)
    ensures forall i :: 0 <= i < 4 ==> BigInts(Layout(a))[i] < FIELD
  {
    var sign: byte := if a.bjj.sign then 1 else 0;
    var n, t, bal := ToBE(a.nonce, 5), ToBE(a.tokenID, 4), ToBE(a.balance, 24);
    var ay, eth := ToBE(CanonKey(a.bjj).y, 32), ToBE(a.ethAddr, 20);
    FieldSlices(sign, n, t, bal, ay, eth);
    Pow256Values();
    PaddedBound(22, [sign] + n + t, FIELD) by { assert Pow256(10) == 0x1_0000_0000_0000_0000_0000; }
    PaddedBound(8, bal, FIELD);
    FromToBE(CanonKey(a.bjj).y, 32);
    PaddedBound(12, eth, FIELD);
  }
}
