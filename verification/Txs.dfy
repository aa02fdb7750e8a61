// The three transaction records and how their type is determined.
module Txs {
  import opened Types
  import opened Accounts

  datatype TxType =
    | TypeExit
    | TypeTransfer
    | TypeTransferToEthAddr
    | TypeTransferToBJJ
    | TypeDeposit
    | TypeCreateAccountDeposit
    | TypeCreateAccountDepositTransfer
    | TypeDepositTransfer
    | TypeForceTransfer
    | TypeForceExit
    | TypeUnset

  // Amounts are big integers read from 40-bit floats, so they are never negative.
  datatype L1Tx = L1Tx(
    userOrigin: bool,
    fromIdx: Idx,
    effectiveFromIdx: Idx,
    fromEthAddr: Addr,
    fromBJJ: BJJ,
    toIdx: Idx,
    tokenID: TokenID,
    amount: nat,
    effectiveAmount: nat,
    depositAmount: nat,
    effectiveDepositAmount: nat,
    typ: TxType)

  // A transfer waiting in the pool. signatureOk stands for the outcome of decompressing the signature.
  datatype PoolL2Tx = PoolL2Tx(
    fromIdx: Idx,
    toIdx: Idx,
    auxToIdx: Idx,
    toEthAddr: Addr,
    toBJJ: BJJ,
    tokenID: TokenID,
    amount: nat,
    fee: FeeSelector,
    nonce: nat,
    typ: TxType,
    rqOffset: nat,
    rqFromIdx: Idx,
    rqToIdx: Idx,
    rqAmount: nat,
    rqNonce: nat,
    signatureOk: bool)

  // A forged L2 transaction, as published.
  datatype L2Tx = L2Tx(
    fromIdx: Idx,
    toIdx: Idx,
    tokenID: TokenID,
    amount: nat,
    fee: FeeSelector,
    nonce: nat,
    typ: TxType)

  // The deposit is compared as an int64, that is by its low 64 bits.
  function L1Type(tx: L1Tx): (r: Result<TxType>) {
    if tx.fromIdx == 0 then
      if tx.toIdx == 0 then Ok(TypeCreateAccountDeposit)
      else if tx.toIdx >= USER_THRESHOLD then Ok(TypeCreateAccountDepositTransfer)
      else Err(Malformed)
    else if tx.fromIdx >= USER_THRESHOLD then
      if tx.toIdx == 0 then Ok(TypeDeposit)
      else if tx.toIdx == 1 then Ok(TypeForceExit)
      else if tx.toIdx >= USER_THRESHOLD then
        if tx.depositAmount % 0x1_0000_0000_0000_0000 == 0 then Ok(TypeForceTransfer) else Ok(TypeDepositTransfer)
      else Err(Malformed)
    else Err(Malformed)
  }

  function PoolType(tx: PoolL2Tx): (r: Result<TxType>) {
    if tx.toIdx >= USER_THRESHOLD then Ok(TypeTransfer)
    else if tx.toBJJ == EMPTY_BJJ && tx.toEthAddr == EMPTY_ADDR && tx.toIdx == 1 then Ok(TypeExit)
    else if tx.toIdx == 0 then
      if tx.toBJJ != EMPTY_BJJ && tx.toEthAddr == FF_ADDR then Ok(TypeTransferToBJJ)
      else if tx.toEthAddr != FF_ADDR && tx.toEthAddr != EMPTY_ADDR && tx.toBJJ == EMPTY_BJJ then
        Ok(TypeTransferToEthAddr)
      else Err(Malformed)
    else Err(Malformed)
  }

  function L2Type(tx: L2Tx): (r: Result<TxType>) {
    if tx.toIdx == 1 then Ok(TypeExit)
    else if tx.toIdx >= USER_THRESHOLD then Ok(TypeTransfer)
    else Err(Malformed)
  }

  // The receiver that a pool transaction ends up with once it is forged.
  function Forged(tx: PoolL2Tx): L2Tx {
    L2Tx(tx.fromIdx, if tx.toIdx == 0 then tx.auxToIdx else tx.toIdx,
         tx.tokenID, tx.amount, tx.fee, tx.nonce, tx.typ)
  }

  // A forged transaction put back into a pool record; everything else is empty.
  function Pooled(tx: L2Tx): PoolL2Tx {
    PoolL2Tx(tx.fromIdx, tx.toIdx, 0, EMPTY_ADDR, EMPTY_BJJ, tx.tokenID, tx.amount, tx.fee, tx.nonce, tx.typ,
             0, 0, 0, 0, 0, false)
  }

  predicate IsTransfer(t: TxType) {
    t == TypeTransfer || t == TypeTransferToEthAddr || t == TypeTransferToBJJ
  }

  predicate IsL2Type(t: TxType) {
    IsTransfer(t) || t == TypeExit
  }

  predicate CreatesAccount(t: TxType) {
    t == TypeCreateAccountDeposit || t == TypeCreateAccountDepositTransfer
  }

  predicate IsL1Type(t: TxType) {
    CreatesAccount(t) || t == TypeDeposit || t == TypeDepositTransfer || t == TypeForceTransfer || t == TypeForceExit
  }
}
