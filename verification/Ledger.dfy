// What one transaction does to the accounts, the exit tree and the fee totals, as pure functions.
// The classes of StateDB.dfy and TxProcessor.dfy are proved against these.
module Ledgers {
  import opened Types
  import opened Accounts
  import opened Txs
  import Float40

  type AddrKey = (Addr, TokenID)
  type AddrBjjKey = (Addr, BJJ, TokenID)

  // The live contents of a state database, seen as plain maps.
  datatype Ledger = Ledger(
    accounts: map<Idx, Account>,
    currentIdx: Idx,
    byAddr: map<AddrKey, Idx>,
    byAddrBjj: map<AddrBjjKey, Idx>)
  {
    function Get(i: Idx): Result<Account> {
      if i > MAX_IDX then Err(IdxOverflow)
      else if i in accounts then Ok(accounts[i])
      else Err(NotFound)
    }

    function Update(i: Idx, a: Account): Result<Ledger> {
      if !Encodable(a) then Err(NumOverflow)
      else if i > MAX_IDX then Err(IdxOverflow)
      else if i !in accounts then Err(NotFound)
      else Ok(this.(accounts := accounts[i := Canon(a)]))
    }

    function Create(i: Idx, a: Account): Result<Ledger> {
      if !Encodable(a) then Err(NumOverflow)
      else if i > MAX_IDX then Err(IdxOverflow)
      else if i in accounts then Err(AlreadyExists)
      else Ok(this.(accounts := accounts[i := Canon(a)]).Register(i, a.ethAddr, a.bjj, a.tokenID))
    }

    function SetCurrentIdx(i: Idx): Result<Ledger> {
      if i > MAX_IDX then Err(IdxOverflow) else Ok(this.(currentIdx := i))
    }

    // GetIdxByEthAddrBJJ
    function Lookup(addr: Addr, pk: BJJ, token: TokenID): Result<Idx> {
      if addr != EMPTY_ADDR && pk == EMPTY_BJJ then
        if (addr, token) in byAddr then Ok(byAddr[(addr, token)]) else Err(IdxNotFound)
      else if addr != EMPTY_ADDR then
        if (addr, pk, token) in byAddrBjj then Ok(byAddrBjj[(addr, pk, token)]) else Err(IdxNotFound)
      else Err(UnexpectedKeyCombination)
    }

    // setIdxByEthAddrBJJ: both entries are written unless the lookup finds a smaller index.
    function Register(i: Idx, addr: Addr, pk: BJJ, token: TokenID): Ledger {
      var found := Lookup(addr, pk, token);
      if found.Ok? && i >= found.value then this
      else this.(byAddrBjj := byAddrBjj[(addr, pk, token) := i], byAddr := byAddr[(addr, token) := i])
    }
  }

  const EMPTY_LEDGER := Ledger(map[], RESERVED_IDX, map[], map[])

  // CalcFeeAmount: factors below 192 are fractions of 2^60; the fee must fit 128 bits.
  function CalcFeeAmount(fees: FeeTable, amount: nat, sel: FeeSelector): Result<nat> {
    var product := amount * fees[sel];
    var fee := if sel < 192 then product / 0x1000_0000_0000_0000 else product;
    if fee >= 0x1_0000_0000_0000_0000_0000_0000_0000_0000 then Err(FeeOverflow) else Ok(fee)
  }

  // The state that a batch carries along: the ledger, the exit tree of this batch, the fees
  // accumulated for each coordinator account and the fees collected for each token.
  datatype BState = BState(
    led: Ledger,
    exits: map<Idx, Account>,
    accumulated: map<Idx, nat>,
    collected: map<TokenID, nat>)

  function Fresh(led: Ledger): BState {
    BState(led, map[], map[], map[])
  }

  // computeEffectiveAmounts
  function WithEffective(tx: L1Tx, amount: nat, deposit: nat): L1Tx {
    tx.(effectiveAmount := amount, effectiveDepositAmount := deposit)
  }

  function Effective(led: Ledger, tx: L1Tx): L1Tx {
    if !tx.userOrigin then WithEffective(tx, 0, 0)
    else if tx.typ == TypeCreateAccountDeposit then WithEffective(tx, tx.amount, tx.depositAmount)
    else if tx.toIdx >= USER_THRESHOLD && tx.fromIdx == 0 then
      if tx.depositAmount < tx.amount then WithEffective(tx, 0, tx.depositAmount)
      else
        var receiver := led.Get(tx.toIdx);
        if receiver.Err? then WithEffective(tx, 0, 0)
        else if tx.tokenID != receiver.value.tokenID then WithEffective(tx, 0, tx.depositAmount)
        else WithEffective(tx, tx.amount, tx.depositAmount)
    else
      var sender := led.Get(tx.fromIdx);
      if sender.Err? then WithEffective(tx, 0, 0)
      else if tx.tokenID != sender.value.tokenID then WithEffective(tx, 0, 0)
      else if sender.value.balance + tx.depositAmount < tx.amount then WithEffective(tx, 0, tx.depositAmount)
      else
        // a foreign sender address cancels the amount but does not end the checks
        var amount := if tx.fromEthAddr != sender.value.ethAddr then 0 else tx.amount;
        if tx.toIdx == 1 || tx.toIdx == 0 then WithEffective(tx, amount, tx.depositAmount)
        else
          var receiver := led.Get(tx.toIdx);
          if receiver.Err? then WithEffective(tx, 0, 0)
          else if sender.value.tokenID != receiver.value.tokenID then WithEffective(tx, 0, tx.depositAmount)
          else if tx.tokenID != receiver.value.tokenID then WithEffective(tx, 0, tx.depositAmount)
          else WithEffective(tx, amount, tx.depositAmount)
  }

  // Credit the receiver, after the sender was written back as s; a self-transfer goes on from s.
  function Credit(led: Ledger, from: Idx, s: Account, to: Idx, amount: nat): Result<Ledger> {
    var r :- if to == from then Ok(s) else led.Get(to);
    led.Update(to, r.(balance := r.balance + amount))
  }

  // applyTransfer for an L1 transaction
  function MoveL1(led: Ledger, from: Idx, to: Idx, amount: nat): Result<Ledger> {
    var s :- led.Get(from);
    if s.balance < amount then Err(NotEnoughBalance)
    else
      var s1 := s.(balance := s.balance - amount);
      var led1 :- led.Update(from, s1);
      Credit(led1, from, s1, to, amount)
  }

  // applyCreateAccount
  function OpenAccount(led: Ledger, tx: L1Tx): Result<Ledger> {
    var a := Account(tx.tokenID, 0, tx.effectiveDepositAmount, tx.fromBJJ, tx.fromEthAddr);
    var led1 :- led.Create(led.currentIdx + 1, a);
    led1.SetCurrentIdx(led.currentIdx + 1)
  }

  // applyCreateAccountDepositTransfer
  function OpenAndMove(led: Ledger, tx: L1Tx): Result<Ledger> {
    if tx.effectiveDepositAmount < tx.effectiveAmount then Err(NotEnoughBalance)
    else
      var i := led.currentIdx + 1;
      var s := Account(tx.tokenID, 0, tx.effectiveDepositAmount - tx.effectiveAmount, tx.fromBJJ, tx.fromEthAddr);
      var led1 :- led.Create(i, s);
      var led2 :- Credit(led1, i, s, tx.toIdx, tx.effectiveAmount);
      led2.SetCurrentIdx(i)
  }

  // applyDeposit; a plain deposit subtracts the effective amount without a receiver
  function Deposit(led: Ledger, tx: L1Tx, transfer: bool): Result<Ledger> {
    var s :- led.Get(tx.fromIdx);
    if s.balance + tx.effectiveDepositAmount < tx.effectiveAmount then Err(NotEnoughBalance)
    else
      var s1 := s.(balance := s.balance + tx.effectiveDepositAmount - tx.effectiveAmount);
      var led1 :- led.Update(tx.fromIdx, s1);
      if transfer then Credit(led1, tx.fromIdx, s1, tx.toIdx, tx.effectiveAmount) else Ok(led1)
  }

  // Add an exit leaf or raise the one that is there.
  function AddExit(exits: map<Idx, Account>, i: Idx, a: Account, amount: nat): Result<map<Idx, Account>> {
    var leaf := if i in exits then exits[i].(balance := exits[i].balance + amount)
                else Account(a.tokenID, 0, amount, a.bjj, a.ethAddr);
    if !Encodable(leaf) then Err(NumOverflow)
    else if i > MAX_IDX then Err(IdxOverflow)
    else Ok(exits[i := Canon(leaf)])
  }

  // The tail of applyExit: an exit whose declared amount is zero leaves no leaf, one whose effective
  // amount is zero does.
  function LeaveExit(st: BState, i: Idx, a: Account, amount: nat, declared: nat): Result<BState> {
    if declared == 0 then Ok(st)
    else
      var exits :- AddExit(st.exits, i, a, amount);
      Ok(st.(exits := exits))
  }

  // applyExit for an L1 transaction
  function ExitL1(st: BState, tx: L1Tx): Result<BState> {
    var s :- st.led.Get(tx.fromIdx);
    if s.balance < tx.effectiveAmount then Err(NotEnoughBalance)
    else
      var s1 := s.(balance := s.balance - tx.effectiveAmount);
      var led1 :- st.led.Update(tx.fromIdx, s1);
      LeaveExit(st.(led := led1), tx.fromIdx, s1, tx.effectiveAmount, tx.amount)
  }

  // The accounts' part of one L1 transaction whose effective amounts are known.
  function ApplyL1(st: BState, tx: L1Tx): Result<BState> {
    match tx.typ
    case TypeForceTransfer =>
      var led :- MoveL1(st.led, tx.fromIdx, tx.toIdx, tx.effectiveAmount); Ok(st.(led := led))
    case TypeCreateAccountDeposit =>
      var led :- OpenAccount(st.led, tx); Ok(st.(led := led))
    case TypeDeposit =>
      var led :- Deposit(st.led, tx, false); Ok(st.(led := led))
    case TypeDepositTransfer =>
      var led :- Deposit(st.led, tx, true); Ok(st.(led := led))
    case TypeCreateAccountDepositTransfer =>
      var led :- OpenAndMove(st.led, tx); Ok(st.(led := led))
    case TypeForceExit => ExitL1(st, tx)
    case _ => Ok(st)
  }

  function Prepared(led: Ledger, tx: L1Tx): L1Tx {
    if IsL1Type(tx.typ) then Effective(led, tx) else tx
  }

  // ProcessL1Tx without the circuit inputs
  function StepL1(st: BState, tx: L1Tx): Result<BState> {
    ApplyL1(st, Prepared(st.led, tx))
  }

  // Fees of a token with a coordinator account are added to both totals.
  function Accrue(st: BState, coordOf: map<TokenID, Idx>, token: TokenID, fee: nat): Result<BState> {
    if token !in coordOf then Ok(st)
    else
      var c := coordOf[token];
      var coord :- st.led.Get(c);
      if coord.tokenID !in st.collected then Err(MissingFeeAccumulator)
      else
        var acc := if c in st.accumulated then st.accumulated[c] else 0;
        Ok(st.(accumulated := st.accumulated[c := acc + fee],
               collected := st.collected[coord.tokenID := st.collected[coord.tokenID] + fee]))
  }

  // The sender's half of an L2 transaction: nonce, amount and fee.
  function Debit(fees: FeeTable, coordOf: map<TokenID, Idx>, st: BState, from: Idx, amount: nat, sel: FeeSelector)
    : Result<(BState, Account)>
  {
    var s :- st.led.Get(from);
    var fee :- CalcFeeAmount(fees, amount, sel);
    if s.balance < amount + fee then Err(NotEnoughBalance)
    else
      var st1 :- Accrue(st, coordOf, s.tokenID, fee);
      var s1 := s.(nonce := s.nonce + 1, balance := s.balance - (amount + fee));
      var led1 :- st.led.Update(from, s1);
      Ok((st1.(led := led1), s1))
  }

  function MoveL2(fees: FeeTable, coordOf: map<TokenID, Idx>, st: BState, from: Idx, to: Idx, amount: nat,
                  sel: FeeSelector): Result<BState> {
    var (st1, s1) :- Debit(fees, coordOf, st, from, amount, sel);
    var led :- Credit(st1.led, from, s1, to, amount);
    Ok(st1.(led := led))
  }

  function ExitL2(fees: FeeTable, coordOf: map<TokenID, Idx>, st: BState, from: Idx, amount: nat, sel: FeeSelector)
    : Result<BState>
  {
    var (st1, s1) :- Debit(fees, coordOf, st, from, amount, sel);
    LeaveExit(st1, from, s1, amount, amount)
  }

  function Receiver(tx: PoolL2Tx): Idx {
    if tx.auxToIdx == 0 then tx.toIdx else tx.auxToIdx
  }

  // The accounts' part of one L2 transaction whose receiver is resolved.
  function ApplyL2(fees: FeeTable, coordOf: map<TokenID, Idx>, st: BState, tx: PoolL2Tx): Result<BState> {
    if IsTransfer(tx.typ) then MoveL2(fees, coordOf, st, tx.fromIdx, Receiver(tx), tx.amount, tx.fee)
    else if tx.typ == TypeExit then ExitL2(fees, coordOf, st, tx.fromIdx, tx.amount, tx.fee)
    else Ok(st)
  }

  // A receiver given only by address is looked up; the synchronizer refuses such transactions.
  function Resolve(mode: Mode, led: Ledger, tx: PoolL2Tx): Result<PoolL2Tx> {
    if tx.toIdx == 0 && tx.auxToIdx == 0 then
      if mode.Synchronizer? then Err(ToIdxZero)
      else
        var s :- led.Get(tx.fromIdx);
        var i :- led.Lookup(tx.toEthAddr, tx.toBJJ, s.tokenID);
        Ok(tx.(auxToIdx := i))
    else Ok(tx)
  }

  // The synchronizer fills in nonce and token from the sender.
  function Stamp(mode: Mode, led: Ledger, tx: PoolL2Tx): Result<PoolL2Tx> {
    if mode.Synchronizer? then
      var s :- led.Get(tx.fromIdx);
      Ok(tx.(nonce := s.nonce, tokenID := s.tokenID))
    else Ok(tx)
  }

  // What the builder's circuit inputs demand of an L1 transaction.
  predicate InputsL1(tx: L1Tx) {
    && tx.toIdx <= MAX_IDX && tx.fromIdx <= MAX_IDX
    && Float40.Encode(tx.depositAmount).Ok?
    && Float40.Encode(tx.amount).Ok?
    && Float40.Encode(tx.effectiveAmount).Ok?
  }

  // What they demand of an L2 transaction, once its receiver is resolved.
  predicate InputsL2(tx: PoolL2Tx) {
    && tx.nonce <= MAX_NONCE && tx.toIdx <= MAX_IDX && tx.fromIdx <= MAX_IDX
    && Float40.Encode(tx.amount).Ok?
    && (tx.rqOffset != 0 ==>
          && tx.rqOffset <= 7 && tx.rqNonce <= MAX_NONCE
          && tx.rqToIdx <= MAX_IDX && tx.rqFromIdx <= MAX_IDX
          && Float40.Encode(tx.rqAmount).Ok?)
    && tx.signatureOk
    && Forged(tx).toIdx <= MAX_IDX
  }

  // One L1 transaction in the given mode, with the record it leaves behind.
  function RunOneL1(mode: Mode, st: BState, tx: L1Tx): Result<(BState, L1Tx)> {
    var tx1 := Prepared(st.led, tx);
    if mode.BatchBuilder? && !InputsL1(tx1) then Err(Malformed)
    else
      var st1 :- ApplyL1(st, tx1);
      if mode.BatchBuilder? then Ok((st1, tx1))
      else if CreatesAccount(tx.typ) then
        var created :- st1.led.Get(st1.led.currentIdx);
        Ok((st1, tx1.(effectiveFromIdx := st1.led.currentIdx)))
      else Ok((st1, tx1.(effectiveFromIdx := tx.fromIdx)))
  }

  // One L2 transaction in the given mode, with the record it leaves behind.
  function RunOneL2(mode: Mode, fees: FeeTable, coordOf: map<TokenID, Idx>, st: BState, tx: PoolL2Tx)
    : Result<(BState, PoolL2Tx)>
  {
    var tx1 :- Resolve(mode, st.led, tx);
    if mode.BatchBuilder? && !InputsL2(tx1) then Err(Malformed)
    else
      var tx2 :- Stamp(mode, st.led, tx1);
      var st1 :- ApplyL2(fees, coordOf, st, tx2);
      Ok((st1, tx2))
  }
}
