// The 101 bytes of a coordinator's L1 transaction: the permission to open an account for somebody.
module CoordTxBytes {
  import opened Types
  import opened Bytes
  import opened Accounts
  import opened Txs
  import opened UserTxBytes

  const COORD_TOTAL_BYTES: nat := 101

  // The address that signed the permission to open an account with a key, if the signature recovers one.
  // Hashing and recovery are foreign, so the chain and the contract that are hashed along are part of it.
  type Recover = (BJJ, seq<byte>) -> Option<Addr>

  // ---- writing ----

  // [ v | s | r | fromBJJ | tokenID ]
  function CoordBytes(tx: L1Tx, signature: seq<byte>): (b: Result<seq<byte>>)
    requires |signature| >= 65
    ensures b.Ok? ==> |b.value| == COORD_TOTAL_BYTES
  {
    if tx.userOrigin then Err(Malformed)
    else
      Ok([signature[64]] + signature[32..64] + signature[..32] + Swap(KeyBytes(tx.fromBJJ)) + ToBE(tx.tokenID, 4))
  }

  // BytesCoordinatorTx: fill a zeroed buffer of 101 bytes.
  method BytesCoordinatorTx(tx: L1Tx, signature: seq<byte>) returns (r: Result<seq<byte>>)
    requires |signature| >= 65
    ensures r == CoordBytes(tx, signature)
  {
    if tx.userOrigin {
      return Err(Malformed);
    }
    var b := new byte[COORD_TOTAL_BYTES](_ => 0);
    assert b[..] == [] + Zeros(COORD_TOTAL_BYTES);
    Append(b, [], 0, [signature[64]]);
    Append(b, [] + [signature[64]], 1, signature[32..64]);
    ghost var head := [] + [signature[64]] + signature[32..64];
    Append(b, head, 33, signature[..32]);
    var swapped := SwapEndianness(KeyBytes(tx.fromBJJ));
    Append(b, head + signature[..32], 65, swapped);
    Append(b, head + signature[..32] + swapped, 97, ToBE(tx.tokenID, 4));
    assert head == [signature[64]] + signature[32..64];
    ghost var all := head + signature[..32] + swapped + ToBE(tx.tokenID, 4);
    assert all + Zeros(0) == all;
    r := Ok(b[..]);
  }

  // ---- reading ----

  function AnnouncedTx(addr: Addr, key: BJJ, token: TokenID): L1Tx {
    L1Tx(false, 0, 0, addr, key, 0, token, 0, 0, 0, 0, TypeUnset)
  }

  // Ethereum adds 27 to the last byte of a signature; taking it off wraps around in a byte.
  function RecoveryByte(v: byte): byte {
    if v >= 27 then v - 27 else v + 229
  }

  function SignatureOf(b: seq<byte>): seq<byte>
    requires |b| == COORD_TOTAL_BYTES
  {
    b[33..65] + b[1..33] + [RecoveryByte(b[0])]
  }

  // L1CoordinatorTxFromBytes
  function ParseCoord(b: seq<byte>, recover: Recover): Result<L1Tx> {
    if |b| != COORD_TOTAL_BYTES then Err(BadLength)
    else
      FromBEBound(b[97..101]);
      Pow256Values();
      var key := KeyOfBytes(Swap(b[65..97]));
      if b[0] > 0 then
        match recover(key, SignatureOf(b))
        case None => Err(Malformed)
        case Some(addr) => Ok(AnnouncedTx(addr, key, FromBE(b[97..101])))
      else Ok(AnnouncedTx(FF_ADDR, key, FromBE(b[97..101])))
  }

  // The synchronizer sets the type afterwards.
  function ReadCoord(b: seq<byte>, recover: Recover): Result<L1Tx> {
    var tx :- ParseCoord(b, recover);
    var t :- L1Type(tx);
    Ok(tx.(typ := t))
  }

  // Nothing but the opening of an account without a deposit can be announced.
  lemma CoordRecordsOpenAccounts(b: seq<byte>, recover: Recover)
    ensures ReadCoord(b, recover).Ok? <==> ParseCoord(b, recover).Ok?
    ensures ReadCoord(b, recover).Ok? ==>
      var tx := ReadCoord(b, recover).value;
      && tx.typ == TypeCreateAccountDeposit && !tx.userOrigin && tx.fromIdx == 0 && tx.toIdx == 0
      && tx.amount == 0 && tx.depositAmount == 0
  {
  }

  // The key is the one of the signature, or the address that stands for accounts without one.
  ghost predicate SignedBy(tx: L1Tx, signature: seq<byte>, recover: Recover)
    requires |signature| >= 65
  {
    if signature[64] > 0 then
      recover(tx.fromBJJ, signature[..64] + [RecoveryByte(signature[64])]) == Some(tx.fromEthAddr)
    else tx.fromEthAddr == FF_ADDR
  }

  lemma CoordSlices(v: seq<byte>, s: seq<byte>, r: seq<byte>, key: seq<byte>, token: seq<byte>)
    requires |v| == 1 && |s| == 32 && |r| == 32 && |key| == 32 && |token| == 4
    ensures var b := v + s + r + key + token;
      && |b| == COORD_TOTAL_BYTES && b[0] == v[0] && b[1..33] == s && b[33..65] == r && b[65..97] == key
      && b[97..101] == token
  {
  }

  // The bytes are those of any transaction that is not of user origin. They are read back as that
  // transaction if and only if it opens an account for its signer without moving anything.
  lemma CoordRoundTrip(tx: L1Tx, signature: seq<byte>, recover: Recover)
    requires |signature| >= 65
    ensures CoordBytes(tx, signature).Ok? <==> !tx.userOrigin
    ensures CoordBytes(tx, signature).Ok? ==>
      (ReadCoord(CoordBytes(tx, signature).value, recover) == Ok(tx) <==>
        && tx == AnnouncedTx(tx.fromEthAddr, tx.fromBJJ, tx.tokenID).(typ := TypeCreateAccountDeposit)
        && SignedBy(tx, signature, recover))
  {
    if !tx.userOrigin {
      Pow256Values();
      var b := CoordBytes(tx, signature).value;
      CoordSlices([signature[64]], signature[32..64], signature[..32], Swap(KeyBytes(tx.fromBJJ)),
                  ToBE(tx.tokenID, 4));
      FromToBE(tx.tokenID, 4);
      SwapTwice(KeyBytes(tx.fromBJJ));
      KeySurvives(tx.fromBJJ);
      assert signature[..32] + signature[32..64] == signature[..64];
      assert SignatureOf(b) == signature[..64] + [RecoveryByte(signature[64])];
    }
  }
}
