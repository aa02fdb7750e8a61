// The published bytes of a batch: one record per transaction, written by the builder and sliced by
// the synchronizer.
module Codec {
  import opened Types
  import opened Bytes
  import opened Accounts
  import opened Txs
  import Float40

  // The number of tree levels is a whole number of bytes and an index has at most six.
  predicate LevelsOK(nLevels: nat) {
    nLevels % 8 == 0 && 8 <= nLevels <= 48
  }

  // In the records an index has w = nLevels / 8 bytes.
  predicate WidthOK(w: nat) {
    1 <= w <= 6
  }

  function RecordLen(w: nat): nat {
    w * 2 + Float40.FLOAT40_BYTES + 1
  }

  // The length as the source computes it, in bits.
  lemma RecordLenIs(nLevels: nat)
    requires LevelsOK(nLevels)
    ensures WidthOK(nLevels / 8) && RecordLen(nLevels / 8) == (nLevels * 2 + 40 + 8) / 8
  {
  }

  function IdxBytes(i: Idx): (r: Result<seq<byte>>)
    ensures r.Ok? ==> |r.value| == 6
  {
    if i > MAX_IDX then Err(IdxOverflow) else Ok(ToBE(i, 6))
  }

  // [ fromIdx | toIdx | amountFloat40 | fee ], the indices cut to their last w bytes
  function Record(from: Idx, to: Idx, amount: nat, fee: byte, w: nat): (r: Result<seq<byte>>)
    requires WidthOK(w)
    ensures r.Ok? ==> |r.value| == RecordLen(w)
  {
    var fromBytes :- IdxBytes(from);
    var toBytes :- IdxBytes(to);
    var f40 :- Float40.Encode(amount);
    var amountBytes :- Float40.ToBytes(f40);
    Ok(fromBytes[6 - w..] + toBytes[6 - w..] + amountBytes + [fee])
  }

  function L1Record(tx: L1Tx, w: nat): (r: Result<seq<byte>>)
    requires WidthOK(w)
    ensures r.Ok? ==> |r.value| == RecordLen(w)
  {
    Record(tx.fromIdx, tx.toIdx, tx.effectiveAmount, 0, w)
  }

  function L2Record(tx: L2Tx, w: nat): (r: Result<seq<byte>>)
    requires WidthOK(w)
    ensures r.Ok? ==> |r.value| == RecordLen(w)
  {
    Record(tx.fromIdx, tx.toIdx, tx.amount, tx.fee, w)
  }

  // BytesDataAvailability of either layer: fill a zeroed buffer of one record.
  method BytesDataAvailability(from: Idx, to: Idx, amount: nat, fee: byte, w: nat)
    returns (r: Result<seq<byte>>)
    requires WidthOK(w)
    ensures r == Record(from, to, amount, fee, w)
  {
    var b := new byte[RecordLen(w)](_ => 0);
    assert b[..] == Zeros(RecordLen(w));
    var fromBytes :- IdxBytes(from);
    Copy(b, 0, fromBytes[6 - w..]);
    var toBytes :- IdxBytes(to);
    Copy(b, w, toBytes[6 - w..]);
    var f40 := Float40.NewFloat40(amount);
    if f40.Err? {
      return Err(f40.error);
    }
    var amountBytes :- Float40.ToBytes(f40.value);
    Copy(b, w * 2, amountBytes);
    Copy(b, w * 2 + Float40.FLOAT40_BYTES, [fee]);
    SplicesMakeRecord(fromBytes[6 - w..], toBytes[6 - w..], amountBytes, fee, w);
    r := Ok(b[..]);
  }

  lemma SplicesMakeRecord(from: seq<byte>, to: seq<byte>, amount: seq<byte>, fee: byte, n: nat)
    requires |from| == n && |to| == n && |amount| == 5
    ensures Splice(Splice(Splice(Splice(Zeros(n * 2 + 6), 0, from), n, to), n * 2, amount), n * 2 + 5, [fee])
      == from + to + amount + [fee]
  {
    assert Zeros(n * 2 + 6) == [] + Zeros(n) + Zeros(n + 6);
    SpliceBetween([], Zeros(n), Zeros(n + 6), from);
    assert [] + from + Zeros(n + 6) == from + Zeros(n) + Zeros(6);
    SpliceBetween(from, Zeros(n), Zeros(6), to);
    assert from + to + Zeros(6) == (from + to) + Zeros(5) + Zeros(1);
    SpliceBetween(from + to, Zeros(5), Zeros(1), amount);
    var p := from + to + amount;
    assert p + Zeros(1) == p + Zeros(1) + [];
    SpliceBetween(p, Zeros(1), [], [fee]);
    assert p + [fee] + [] == p + [fee];
  }

  // L2TxFromBytesDataAvailability; L1TxFromDataAvailability reads the same three fields.
  function ParseRecord(b: seq<byte>, w: nat): (r: Result<L2Tx>)
    requires WidthOK(w) && |b| == RecordLen(w)
  {
    var amount :- Float40.ToBigInt(FromBE(b[w * 2..w * 2 + Float40.FLOAT40_BYTES]));
    Ok(L2Tx(FromBE(Zeros(6 - w) + b[..w]), FromBE(Zeros(6 - w) + b[w..w * 2]),
            0, amount, b[w * 2 + Float40.FLOAT40_BYTES], 0, TypeUnset))
  }

  // What is left of a transaction once it is published: token and nonce are gone, the type is not set.
  function Published(tx: L2Tx): L2Tx {
    L2Tx(tx.fromIdx, tx.toIdx, 0, tx.amount, tx.fee, 0, TypeUnset)
  }

  // What a record keeps of an index: its last w bytes, padded again when they are read.
  function Cut(i: Idx, w: nat): Idx
    requires w <= 6
  {
    FromBE(Zeros(6 - w) + ToBE(i, 6)[6 - w..])
  }

  // An index that fits the levels survives being cut and padded.
  lemma IdxSurvives(i: Idx, n: nat)
    requires n <= 6 && i < Pow256(n)
    ensures i <= MAX_IDX && Cut(i, n) == i
  {
    Pow256Values();
    Pow256Monotone(n, 6);
    ToBESuffix(i, 6, n);
    PadLeft(6 - n, ToBE(i, n));
    FromToBE(i, n);
  }

  // It survives only then: an index from 2^(8 n) on comes back as a smaller one.
  lemma IdxSurvivesIff(i: Idx, n: nat)
    requires n <= 6 && i <= MAX_IDX
    ensures Cut(i, n) == i <==> i < Pow256(n)
  {
    if i < Pow256(n) {
      IdxSurvives(i, n);
    } else {
      PadLeft(6 - n, ToBE(i, 6)[6 - n..]);
      FromBEBound(ToBE(i, 6)[6 - n..]);
    }
  }

  // Any record parses to the amount and fee it was made from, and to its indices as far as they are kept.
  lemma RecordCuts(from: Idx, to: Idx, amount: nat, fee: byte, w: nat)
    requires WidthOK(w) && Record(from, to, amount, fee, w).Ok?
    ensures from <= MAX_IDX && to <= MAX_IDX && Float40.Encode(amount).Ok?
    ensures ParseRecord(Record(from, to, amount, fee, w).value, w)
      == Ok(L2Tx(Cut(from, w), Cut(to, w), 0, amount, fee, 0, TypeUnset))
  {
    Float40.BytesRoundTrip(amount);
    var b := Record(from, to, amount, fee, w).value;
    assert b[..w] == ToBE(from, 6)[6 - w..];
    assert b[w..w * 2] == ToBE(to, 6)[6 - w..];
    assert b[w * 2..w * 2 + 5] == Float40.ToBytes(Float40.Encode(amount).value).value;
  }

  // A record whose indices fit the levels parses back to what it was made from; and a record is
  // written exactly when the amount is representable and the indices fit 48 bits.
  lemma RecordRoundTrip(from: Idx, to: Idx, amount: nat, fee: byte, w: nat)
    requires WidthOK(w)
    requires from < Pow256(w) && to < Pow256(w) && Float40.Encode(amount).Ok?
    ensures Record(from, to, amount, fee, w).Ok?
    ensures ParseRecord(Record(from, to, amount, fee, w).value, w)
      == Ok(L2Tx(from, to, 0, amount, fee, 0, TypeUnset))
  {
    IdxSurvives(from, w);
    IdxSurvives(to, w);
    Float40.BytesRoundTrip(amount);
    RecordCuts(from, to, amount, fee, w);
  }

  // ---- writing a batch ----

  function L1Bytes(txs: seq<L1Tx>, w: nat): (r: Result<seq<byte>>)
    requires WidthOK(w)
  {
    if txs == [] then Ok([])
    else
      var front :- L1Bytes(txs[..|txs| - 1], w);
      var last :- L1Record(txs[|txs| - 1], w);
      Ok(front + last)
  }

  function L2Bytes(txs: seq<L2Tx>, w: nat): (r: Result<seq<byte>>)
    requires WidthOK(w)
  {
    if txs == [] then Ok([])
    else
      var front :- L2Bytes(txs[..|txs| - 1], w);
      var last :- L2Record(txs[|txs| - 1], w);
      Ok(front + last)
  }

  function BatchBytes(l1Coord: seq<L1Tx>, l1User: seq<L1Tx>, l2: seq<L2Tx>, w: nat): Result<seq<byte>>
    requires WidthOK(w)
  {
    var u :- L1Bytes(l1User, w);
    var c :- L1Bytes(l1Coord, w);
    var l :- L2Bytes(l2, w);
    Ok(u + c + l)
  }

  const MAX_FEE_IDX: nat := 4

  // The first n slots of fee indices, each cut to its last len bytes; missing ones are zero.
  function FeeBytes(feeIdxs: seq<Idx>, n: nat, len: nat): (r: Result<seq<byte>>)
    requires len <= 6
  {
    if n == 0 then Ok([])
    else
      var front :- FeeBytes(feeIdxs, n - 1, len);
      var last :- IdxBytes(if n - 1 < |feeIdxs| then feeIdxs[n - 1] else 0);
      Ok(front + last[6 - len..])
  }

  // RollupForgeBatch: append the records of user, coordinator and L2 transactions, then the fee slots.
  method RollupForgeBatch(l1Coord: seq<L1Tx>, l1User: seq<L1Tx>, l2: seq<L2Tx>, feeIdxs: seq<Idx>, w: nat)
    returns (r: Result<(seq<byte>, seq<byte>)>)
    requires WidthOK(w)
    ensures r.Ok? <==> BatchBytes(l1Coord, l1User, l2, w).Ok? && FeeBytes(feeIdxs, MAX_FEE_IDX, w).Ok?
    ensures r.Ok? ==>
      && BatchBytes(l1Coord, l1User, l2, w) == Ok(r.value.0)
      && FeeBytes(feeIdxs, MAX_FEE_IDX, w) == Ok(r.value.1)
  {
    var user := AppendL1s(l1User, w);
    if user.Err? {
      return Err(user.error);
    }
    var coord := AppendL1s(l1Coord, w);
    if coord.Err? {
      return Err(coord.error);
    }
    var layer2 := AppendL2s(l2, w);
    if layer2.Err? {
      return Err(layer2.error);
    }
    var fee := AppendFees(feeIdxs, w);
    if fee.Err? {
      return Err(fee.error);
    }
    r := Ok((user.value + coord.value + layer2.value, fee.value));
  }

  method AppendL2s(txs: seq<L2Tx>, w: nat) returns (r: Result<seq<byte>>)
    requires WidthOK(w)
    ensures r.Ok? <==> L2Bytes(txs, w).Ok?
    ensures r.Ok? ==> r == L2Bytes(txs, w)
  {
    var data: seq<byte> := [];
    var i := 0;
    while i < |txs|
      invariant i <= |txs|
      invariant L2Bytes(txs[..i], w) == Ok(data)
    {
      var b := BytesDataAvailability(txs[i].fromIdx, txs[i].toIdx, txs[i].amount, txs[i].fee, w);
      assert txs[..i + 1][..i] == txs[..i];
      if b.Err? {
        L2BytesFail(txs, i + 1, w);
        return Err(b.error);
      }
      data := data + b.value;
      i := i + 1;
    }
    assert txs[..i] == txs;
    r := Ok(data);
  }

  method AppendFees(feeIdxs: seq<Idx>, len: nat) returns (r: Result<seq<byte>>)
    requires len <= 6
    ensures r.Ok? <==> FeeBytes(feeIdxs, MAX_FEE_IDX, len).Ok?
    ensures r.Ok? ==> r == FeeBytes(feeIdxs, MAX_FEE_IDX, len)
  {
    var fee: seq<byte> := [];
    for k := 0 to MAX_FEE_IDX
      invariant FeeBytes(feeIdxs, k, len) == Ok(fee)
    {
      var feeIdx := if k < |feeIdxs| then feeIdxs[k] else 0;
      var b := IdxBytes(feeIdx);
      if b.Err? {
        FeeBytesFail(feeIdxs, k + 1, MAX_FEE_IDX, len);
        return Err(b.error);
      }
      fee := fee + b.value[6 - len..];
    }
    r := Ok(fee);
  }

  method AppendL1s(txs: seq<L1Tx>, w: nat) returns (r: Result<seq<byte>>)
    requires WidthOK(w)
    ensures r.Ok? <==> L1Bytes(txs, w).Ok?
    ensures r.Ok? ==> r == L1Bytes(txs, w)
  {
    var data: seq<byte> := [];
    var i := 0;
    while i < |txs|
      invariant i <= |txs|
      invariant L1Bytes(txs[..i], w) == Ok(data)
    {
      var b := BytesDataAvailability(txs[i].fromIdx, txs[i].toIdx, txs[i].effectiveAmount, 0, w);
      assert txs[..i + 1][..i] == txs[..i];
      if b.Err? {
        L1BytesFail(txs, i + 1, w);
        return Err(b.error);
      }
      data := data + b.value;
      i := i + 1;
    }
    assert txs[..i] == txs;
    r := Ok(data);
  }

  lemma {:induction false} L1BytesFail(txs: seq<L1Tx>, n: nat, w: nat)
    requires WidthOK(w) && n <= |txs| && L1Bytes(txs[..n], w).Err?
    ensures L1Bytes(txs, w).Err?
    decreases |txs| - n
  {
    if n < |txs| {
      assert txs[..n + 1][..n] == txs[..n];
      L1BytesFail(txs, n + 1, w);
    } else {
      assert txs[..n] == txs;
    }
  }

  lemma {:induction false} L2BytesFail(txs: seq<L2Tx>, n: nat, w: nat)
    requires WidthOK(w) && n <= |txs| && L2Bytes(txs[..n], w).Err?
    ensures L2Bytes(txs, w).Err?
    decreases |txs| - n
  {
    if n < |txs| {
      assert txs[..n + 1][..n] == txs[..n];
      L2BytesFail(txs, n + 1, w);
    } else {
      assert txs[..n] == txs;
    }
  }

  lemma {:induction false} FeeBytesFail(feeIdxs: seq<Idx>, k: nat, n: nat, len: nat)
    requires len <= 6 && k <= n && FeeBytes(feeIdxs, k, len).Err?
    ensures FeeBytes(feeIdxs, n, len).Err?
  {
    if k < n {
      FeeBytesFail(feeIdxs, k, n - 1, len);
    }
  }
}
