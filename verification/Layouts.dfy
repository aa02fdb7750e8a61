// Where each field stands in the byte forms of accounts and transactions, digit by digit. The trips
// there and back hold of any order of the fields; these are the places that others rely on.
module Layouts {
  import opened Types
  import opened Bytes
  import opened Accounts
  import opened Txs
  import opened Codec
  import opened UserTxBytes
  import opened CoordTxBytes
  import opened Slicing
  import Float40

  // ---- numbers ----

  // Digit i of n counts 256^(n - 1 - i): the most significant comes first.
  lemma {:induction false} BigEndian(x: nat, n: nat, i: nat)
    requires i < n
    ensures ToBE(x, n)[i] == x / Pow256(n - 1 - i) % 256
  {
    if i < n - 1 {
      BigEndian(x / 256, n - 1, i);
      DivideTwice(x, Pow256(n - 2 - i));
    }
  }

  lemma DivideTwice(x: nat, d: nat)
    requires d > 0
    ensures x / 256 / d == x / (256 * d)
  {
    var q := x / 256 / d;
    assert q * d <= x / 256 < (q + 1) * d;
    assert q * (256 * d) == 256 * (q * d) && (q + 1) * (256 * d) == 256 * ((q + 1) * d);
    Float40.QuotientIs(x, 256 * d, q);
  }

  lemma {:induction false} FromBEJoins(a: seq<byte>, b: seq<byte>)
    ensures FromBE(a + b) == FromBE(a) * Pow256(|b|) + FromBE(b)
  {
    if b == [] {
      assert a + b == a;
    } else {
      var front := b[..|b| - 1];
      FromBEJoins(a, front);
      assert (a + b)[..|a + b| - 1] == a + front;
      assert 256 * (FromBE(a) * Pow256(|front|)) == FromBE(a) * (256 * Pow256(|front|));
    }
  }

  // ---- the account ----

  // An account has bytes exactly if its nonce fits five of them and its balance 24.
  lemma EncodesIff(a: Account)
    ensures Encode(a).Ok? <==> a.nonce < Pow256(5) && a.balance < Pow256(24)
    ensures Encode(a).Ok? ==> Encode(a).value == Layout(a)
  {
    Pow256Values();
  }

  // The four numbers that are hashed: token, nonce and sign packed from the right, balance, key, address.
  lemma HashedElements(a: Account)
    requires Encodable(a)
    ensures BigInts(Layout(a)) ==
      [a.tokenID + a.nonce * Pow256(4) + (if a.bjj.sign then Pow256(9) else 0), a.balance, CanonKey(a.bjj).y, a.ethAddr]
  {
    var sign: byte := if a.bjj.sign then 1 else 0;
    var n, t := ToBE(a.nonce, 5), ToBE(a.tokenID, 4);
    FieldSlices(sign, n, t, ToBE(a.balance, 24), ToBE(CanonKey(a.bjj).y, 32), ToBE(a.ethAddr, 20));
    FirstElement(sign, n, t);
    Pow256Values();
    FromToBE(a.nonce, 5);
    FromToBE(a.tokenID, 4);
    PadLeft(8, ToBE(a.balance, 24));
    FromToBE(a.balance, 24);
    FromToBE(CanonKey(a.bjj).y, 32);
    PadLeft(12, ToBE(a.ethAddr, 20));
    FromToBE(a.ethAddr, 20);
  }

  lemma FirstElement(sign: byte, n: seq<byte>, t: seq<byte>)
    requires |n| == 5 && |t| == 4
    ensures FromBE(Zeros(22) + ([sign] + n + t)) == sign * Pow256(9) + FromBE(n) * Pow256(4) + FromBE(t)
  {
    PadLeft(22, [sign] + n + t);
    assert [sign] + n + t == [sign] + (n + t);
    FromBEJoins([sign], n + t);
    FromBEJoins(n, t);
    assert [sign][..0] == [];
    assert FromBE([sign]) == sign;
  }

  // ---- transactions ----

  // An availability record: both indices by their last w bytes, the float of the amount, the fee.
  lemma RecordFields(from: Idx, to: Idx, amount: nat, fee: byte, w: nat)
    requires WidthOK(w)
    ensures Record(from, to, amount, fee, w).Ok? <==>
      from < Pow256(6) && to < Pow256(6) && Float40.Representable(amount)
    ensures Record(from, to, amount, fee, w).Ok? ==>
      var b := Record(from, to, amount, fee, w).value;
      && |b| == 2 * w + 6
      && b[..w] == ToBE(from, w) && b[w..2 * w] == ToBE(to, w)
      && Float40.Encode(amount).Ok? && b[2 * w..2 * w + 5] == ToBE(Float40.Encode(amount).value, 5)
      && b[2 * w + 5] == fee
  {
    Pow256Values();
    Float40.EncodeExact(amount);
    if Record(from, to, amount, fee, w).Ok? {
      ToBESuffix(from, 6, w);
      ToBESuffix(to, 6, w);
      var f := ToBE(Float40.Encode(amount).value, 5);
      assert Record(from, to, amount, fee, w).value == ToBE(from, w) + ToBE(to, w) + f + [fee];
    }
  }

  function SignedY(k: BJJ): nat {
    if k.sign then k.y + Pow256(32) / 2 else k.y
  }

  lemma KeyIsSignedY(k: BJJ)
    ensures KeyNumber(k) == SignedY(k)
  {
    Pow256Values();
  }

  // The 78 bytes of a transaction: address, key as a number with its sign on top of y, sender, deposit,
  // amount, token, receiver.
  lemma GenericFields(tx: L1Tx)
    requires GenericBytes(tx).Ok?
    ensures Float40.Encode(tx.depositAmount).Ok? && Float40.Encode(tx.amount).Ok?
    ensures var b := GenericBytes(tx).value;
      && |b| == 78
      && b[0..20] == ToBE(tx.fromEthAddr, 20) && b[20..52] == ToBE(SignedY(tx.fromBJJ), 32)
      && b[52..58] == ToBE(tx.fromIdx, 6)
      && b[58..63] == ToBE(Float40.Encode(tx.depositAmount).value, 5)
      && b[63..68] == ToBE(Float40.Encode(tx.amount).value, 5)
      && b[68..72] == ToBE(tx.tokenID, 4) && b[72..78] == ToBE(tx.toIdx, 6)
  {
    KeyIsSignedY(tx.fromBJJ);
    SwapTwice(ToBE(KeyNumber(tx.fromBJJ), 32));
    GenericSlices(ToBE(tx.fromEthAddr, 20), Swap(KeyBytes(tx.fromBJJ)), ToBE(tx.fromIdx, 6),
                  FloatBytes(tx.depositAmount).value, FloatBytes(tx.amount).value, ToBE(tx.tokenID, 4),
                  ToBE(tx.toIdx, 6));
  }

  // The 101 bytes of an announced transaction: v, s and r of the signature, key, token.
  lemma CoordFields(tx: L1Tx, signature: seq<byte>)
    requires |signature| >= 65 && CoordBytes(tx, signature).Ok?
    ensures var b := CoordBytes(tx, signature).value;
      && b[0] == signature[64] && b[1..33] == signature[32..64] && b[33..65] == signature[..32]
      && b[65..97] == ToBE(SignedY(tx.fromBJJ), 32) && b[97..101] == ToBE(tx.tokenID, 4)
  {
    KeyIsSignedY(tx.fromBJJ);
    SwapTwice(ToBE(KeyNumber(tx.fromBJJ), 32));
    CoordSlices([signature[64]], signature[32..64], signature[..32], Swap(KeyBytes(tx.fromBJJ)), ToBE(tx.tokenID, 4));
  }

  // ---- what is published ----

  // Slots of two strings in a row.
  lemma TwoParts(a: seq<byte>, b: seq<byte>, n: nat, m: nat, len: nat, k: nat)
    requires |a| == n * len && |b| == m * len && k < n + m
    ensures |a + b| == (n + m) * len && (k + 1) * len <= |a + b|
    ensures k < n ==> (k + 1) * len <= |a| && Slot(a + b, k, len) == Slot(a, k, len)
    ensures k >= n ==> (k - n + 1) * len <= |b| && Slot(a + b, k, len) == Slot(b, k - n, len)
  {
    NextSlot(k, n + m, len);
    assert (n + m) * len == n * len + m * len;
    if k < n {
      NextSlot(k, n, len);
      SlotPrefix(a, b, k, len);
    } else {
      NextSlot(k - n, m, len);
      assert k * len == n * len + (k - n) * len;
    }
  }

  lemma ThreeParts(u: seq<byte>, c: seq<byte>, l: seq<byte>, n: nat, m: nat, q: nat, len: nat, k: nat)
    requires |u| == n * len && |c| == m * len && |l| == q * len && k < n + m + q
    ensures |u + c + l| == (n + m + q) * len && (k + 1) * len <= |u + c + l|
    ensures k < n ==> (k + 1) * len <= |u| && Slot(u + c + l, k, len) == Slot(u, k, len)
    ensures n <= k < n + m ==> (k - n + 1) * len <= |c| && Slot(u + c + l, k, len) == Slot(c, k - n, len)
    ensures n + m <= k ==> (k - n - m + 1) * len <= |l| && Slot(u + c + l, k, len) == Slot(l, k - n - m, len)
  {
    hide Slot;
    assert |u + c| == (n + m) * len;
    TwoParts(u + c, l, n + m, q, len, k);
    if k < n + m {
      TwoParts(u, c, n, m, len, k);
    }
  }

  lemma {:induction false} L1SlotIs(txs: seq<L1Tx>, w: nat, k: nat)
    requires WidthOK(w) && L1Bytes(txs, w).Ok? && k < |txs|
    ensures (k + 1) * RecordLen(w) <= |L1Bytes(txs, w).value|
    ensures L1Record(txs[k], w) == Ok(Slot(L1Bytes(txs, w).value, k, RecordLen(w)))
  {
    var n := |txs| - 1;
    var a, b := L1Bytes(txs[..n], w).value, L1Record(txs[n], w).value;
    L1BytesLength(txs[..n], w);
    hide L1Record, RecordLen;
    if k < n {
      L1SlotIs(txs[..n], w, k);
      SlotPrefix(a, b, k, RecordLen(w));
    } else {
      SlotBehind(a, b, n, RecordLen(w));
    }
  }

  lemma {:induction false} L2SlotIs(txs: seq<L2Tx>, w: nat, k: nat)
    requires WidthOK(w) && L2Bytes(txs, w).Ok? && k < |txs|
    ensures (k + 1) * RecordLen(w) <= |L2Bytes(txs, w).value|
    ensures L2Record(txs[k], w) == Ok(Slot(L2Bytes(txs, w).value, k, RecordLen(w)))
  {
    var n := |txs| - 1;
    var a, b := L2Bytes(txs[..n], w).value, L2Record(txs[n], w).value;
    L2BytesLength(txs[..n], w);
    hide L2Record, RecordLen;
    if k < n {
      L2SlotIs(txs[..n], w, k);
      SlotPrefix(a, b, k, RecordLen(w));
    } else {
      SlotBehind(a, b, n, RecordLen(w));
    }
  }

  // The published data are the records one after the other: users' transactions, then the
  // coordinator's, then the L2 transactions.
  lemma PostedRecordAt(l1Coord: seq<L1Tx>, l1User: seq<L1Tx>, l2: seq<L2Tx>, w: nat, k: nat)
    requires WidthOK(w) && BatchBytes(l1Coord, l1User, l2, w).Ok? && k < |l1User| + |l1Coord| + |l2|
    ensures var data := BatchBytes(l1Coord, l1User, l2, w).value;
      var len := RecordLen(w);
      && |data| == (|l1User| + |l1Coord| + |l2|) * len && (k + 1) * len <= |data|
      && Ok(Slot(data, k, len)) ==
           if k < |l1User| then L1Record(l1User[k], w)
           else if k < |l1User| + |l1Coord| then L1Record(l1Coord[k - |l1User|], w)
           else L2Record(l2[k - |l1User| - |l1Coord|], w)
  {
    var u, c, l := L1Bytes(l1User, w).value, L1Bytes(l1Coord, w).value, L2Bytes(l2, w).value;
    L1BytesLength(l1User, w);
    L1BytesLength(l1Coord, w);
    L2BytesLength(l2, w);
    var n, m, len := |l1User|, |l1Coord|, RecordLen(w);
    assert BatchBytes(l1Coord, l1User, l2, w).value == u + c + l;
    hide L1Bytes, L2Bytes, BatchBytes, RecordLen, L1Record, L2Record, Slot;
    ThreeParts(u, c, l, n, m, |l2|, len, k);
    if k < n {
      L1SlotIs(l1User, w, k);
    } else if k < n + m {
      L1SlotIs(l1Coord, w, k - n);
    } else {
      L2SlotIs(l2, w, k - n - m);
    }
  }

  // The published fee slots are the fee indices in order, and zero after the last.
  lemma {:induction false} PostedFeeAt(feeIdxs: seq<Idx>, n: nat, w: nat, k: nat)
    requires WidthOK(w) && FeeBytes(feeIdxs, n, w).Ok? && k < n
    ensures var data := FeeBytes(feeIdxs, n, w).value;
      && |data| == n * w && (k + 1) * w <= |data| && (n == MAX_FEE_IDX ==> |data| == 4 * w)
      && Slot(data, k, w) == ToBE(if k < |feeIdxs| then feeIdxs[k] else 0, w)
  {
    var a := FeeBytes(feeIdxs, n - 1, w).value;
    var i := if n - 1 < |feeIdxs| then feeIdxs[n - 1] else 0;
    ToBESuffix(i, 6, w);
    assert n * w == (n - 1) * w + w;
    if n > 1 {
      PostedFeeAt(feeIdxs, n - 1, w, if k < n - 1 then k else 0);
    }
    if k < n - 1 {
      SlotPrefix(a, ToBE(i, w), k, w);
    } else {
      SlotBehind(a, ToBE(i, w), n - 1, w);
    }
  }
}
