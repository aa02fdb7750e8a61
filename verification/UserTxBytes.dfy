// The 78 bytes of an L1 transaction: what the contract's queue holds and what goes into the hash of
// the circuit's public input.
module UserTxBytes {
  import opened Types
  import opened Bytes
  import opened Accounts
  import opened Txs
  import opened Codec
  import Float40

  const L1_TOTAL_BYTES: nat := 78

  // ---- keys as bytes ----

  // SwapEndianness
  function Swap(b: seq<byte>): (r: seq<byte>)
    ensures |r| == |b| && forall i :: 0 <= i < |b| ==> r[i] == b[|b| - 1 - i]
  {
    seq(|b|, i requires 0 <= i < |b| => b[|b| - 1 - i])
  }

  method SwapEndianness(b: seq<byte>) returns (r: seq<byte>)
    ensures r == Swap(b)
  {
    var o := new byte[|b|](_ => 0);
    for i := 0 to |b|
      invariant forall k :: |b| - i <= k < |b| ==> o[k] == b[|b| - 1 - k]
    {
      o[|b| - 1 - i] := b[i];
    }
    r := o[..];
  }

  // A key read as a 256-bit number has its sign on top.
  function KeyNumber(k: BJJ): (n: nat)
    ensures n < 2 * TWO_255
  {
    (if k.sign then TWO_255 else 0) + k.y
  }

  function KeyOfNumber(n: nat): BJJ
    requires n < 2 * TWO_255
  {
    if n >= TWO_255 then BJJ(true, n - TWO_255) else BJJ(false, n)
  }

  // The compressed form is little-endian.
  function KeyBytes(k: BJJ): (b: seq<byte>)
    ensures |b| == 32
  {
    Swap(ToBE(KeyNumber(k), 32))
  }

  function KeyOfBytes(b: seq<byte>): BJJ
    requires |b| == 32
  {
    FromBEBound(Swap(b));
    Pow256Values();
    KeyOfNumber(FromBE(Swap(b)))
  }

  lemma SwapTwice(b: seq<byte>)
    ensures Swap(Swap(b)) == b
  {
  }

  lemma KeySurvives(k: BJJ)
    ensures KeyOfBytes(KeyBytes(k)) == k
  {
    SwapTwice(ToBE(KeyNumber(k), 32));
    Pow256Values();
    FromToBE(KeyNumber(k), 32);
  }

  // ---- writing ----

  function FloatBytes(x: nat): (r: Result<seq<byte>>)
    ensures r.Ok? ==> |r.value| == 5
  {
    var f :- Float40.Encode(x);
    Float40.ToBytes(f)
  }

  // [ fromEthAddr | fromBJJ | fromIdx | depositAmountF | amountF | tokenID | toIdx ]
  function GenericBytes(tx: L1Tx): (r: Result<seq<byte>>)
    ensures r.Ok? ==> |r.value| == L1_TOTAL_BYTES
  {
    var from :- IdxBytes(tx.fromIdx);
    var deposit :- FloatBytes(tx.depositAmount);
    var amount :- FloatBytes(tx.amount);
    var to :- IdxBytes(tx.toIdx);
    Ok(ToBE(tx.fromEthAddr, 20) + Swap(KeyBytes(tx.fromBJJ)) + from + deposit + amount + ToBE(tx.tokenID, 4) + to)
  }

  // Writing the next field into a buffer whose rest is still zero.
  lemma SpliceNext(done: seq<byte>, n: nat, src: seq<byte>)
    requires |src| <= n
    ensures Splice(done + Zeros(n), |done|, src) == (done + src) + Zeros(n - |src|)
  {
    assert Zeros(n) == Zeros(|src|) + Zeros(n - |src|);
    assert done + Zeros(n) == done + Zeros(|src|) + Zeros(n - |src|);
    SpliceBetween(done, Zeros(|src|), Zeros(n - |src|), src);
  }

  method Append(buf: array<byte>, ghost done: seq<byte>, at: nat, src: seq<byte>)
    requires |done| == at && at + |src| <= buf.Length && buf[..] == done + Zeros(buf.Length - at)
    modifies buf
    ensures buf[..] == (done + src) + Zeros(buf.Length - at - |src|)
  {
    SpliceNext(done, buf.Length - at, src);
    Copy(buf, at, src);
  }

  lemma EmptyKeyIsZeros()
    ensures Swap(KeyBytes(EMPTY_BJJ)) == Zeros(32)
  {
    SwapTwice(ToBE(0, 32));
    ToBEPadded(0, 32, 0);
  }

  // BytesGeneric: fill a zeroed 78-byte buffer. An empty key is left as zeros.
  method BytesGeneric(tx: L1Tx) returns (r: Result<seq<byte>>)
    ensures r == GenericBytes(tx)
  {
    var b := new byte[L1_TOTAL_BYTES](_ => 0);
    assert b[..] == [] + Zeros(L1_TOTAL_BYTES);
    Append(b, [], 0, ToBE(tx.fromEthAddr, 20));
    ghost var head := [] + ToBE(tx.fromEthAddr, 20);
    ghost var key := Swap(KeyBytes(tx.fromBJJ));
    if tx.fromBJJ != EMPTY_BJJ {
      var swapped := SwapEndianness(KeyBytes(tx.fromBJJ));
      Append(b, head, 20, swapped);
    } else {
      EmptyKeyIsZeros();
      assert head + Zeros(58) == (head + Zeros(32)) + Zeros(26);
    }
    var from :- IdxBytes(tx.fromIdx);
    Append(b, head + key, 52, from);
    var deposit :- FloatBytes(tx.depositAmount);
    Append(b, head + key + from, 58, deposit);
    var amount :- FloatBytes(tx.amount);
    Append(b, head + key + from + deposit, 63, amount);
    Append(b, head + key + from + deposit + amount, 68, ToBE(tx.tokenID, 4));
    var to :- IdxBytes(tx.toIdx);
    Append(b, head + key + from + deposit + amount + ToBE(tx.tokenID, 4), 72, to);
    assert head == ToBE(tx.fromEthAddr, 20);
    ghost var all := head + key + from + deposit + amount + ToBE(tx.tokenID, 4) + to;
    assert all + Zeros(0) == all;
    r := Ok(b[..]);
  }

  // ---- reading ----

  // L1UserTxFromBytes; what is not in the bytes has its zero value.
  function ParseUserTx(b: seq<byte>): Result<L1Tx> {
    if |b| != L1_TOTAL_BYTES then Err(BadLength)
    else
      var deposit :- Float40.ToBigInt(FromBE(b[58..63]));
      var amount :- Float40.ToBigInt(FromBE(b[63..68]));
      FromBEBound(b[0..20]);
      FromBEBound(b[68..72]);
      Pow256Values();
      Ok(L1Tx(true, FromBE(b[52..58]), 0, FromBE(b[0..20]), KeyOfBytes(Swap(b[20..52])), FromBE(b[72..78]),
              FromBE(b[68..72]), amount, 0, deposit, 0, TypeUnset))
  }

  // What the queue says about a transaction.
  function Queued(tx: L1Tx): L1Tx {
    tx.(userOrigin := true, effectiveFromIdx := 0, effectiveAmount := 0, effectiveDepositAmount := 0,
        typ := TypeUnset)
  }

  lemma GenericSlices(eth: seq<byte>, key: seq<byte>, from: seq<byte>, deposit: seq<byte>, amount: seq<byte>,
                      token: seq<byte>, to: seq<byte>)
    requires |eth| == 20 && |key| == 32 && |from| == 6 && |deposit| == 5 && |amount| == 5 && |token| == 4 && |to| == 6
    ensures var b := eth + key + from + deposit + amount + token + to;
      && |b| == L1_TOTAL_BYTES && b[0..20] == eth && b[20..52] == key && b[52..58] == from
      && b[58..63] == deposit && b[63..68] == amount && b[68..72] == token && b[72..78] == to
  {
  }

  // A transaction is written exactly when both amounts are representable and both indices fit 48
  // bits; then reading the bytes gives back everything that the queue says about it, and the type
  // that is set from it is the type that was set before.
  lemma UserTxRoundTrip(tx: L1Tx)
    ensures GenericBytes(tx).Ok? <==>
      && tx.fromIdx <= MAX_IDX && tx.toIdx <= MAX_IDX
      && Float40.Representable(tx.depositAmount) && Float40.Representable(tx.amount)
    ensures GenericBytes(tx).Ok? ==> ParseUserTx(GenericBytes(tx).value) == Ok(Queued(tx))
    ensures L1Type(Queued(tx)) == L1Type(tx)
  {
    Float40.EncodeExact(tx.depositAmount);
    Float40.EncodeExact(tx.amount);
    if GenericBytes(tx).Ok? {
      Pow256Values();
      Float40.BytesRoundTrip(tx.depositAmount);
      Float40.BytesRoundTrip(tx.amount);
      GenericSlices(ToBE(tx.fromEthAddr, 20), Swap(KeyBytes(tx.fromBJJ)), ToBE(tx.fromIdx, 6),
                    FloatBytes(tx.depositAmount).value, FloatBytes(tx.amount).value, ToBE(tx.tokenID, 4),
                    ToBE(tx.toIdx, 6));
      FromToBE(tx.fromEthAddr, 20);
      FromToBE(tx.fromIdx, 6);
      FromToBE(tx.toIdx, 6);
      FromToBE(tx.tokenID, 4);
      SwapTwice(KeyBytes(tx.fromBJJ));
      KeySurvives(tx.fromBJJ);
    }
  }
}
