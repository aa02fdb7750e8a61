// What an L2 transaction costs, whom it reaches, and when it is refused.
module L2Effects {
  import opened Types
  import opened Accounts
  import opened Txs
  import opened Ledgers
  import opened LedgerInvariants
  import opened FeePayout
  import opened Conservation
  import opened AddressIndex
  import Float40

  // ---- the fee ----

  const TWO_60: nat := 0x1000_0000_0000_0000
  const TWO_128: nat := 0x1_0000_0000_0000_0000_0000_0000_0000_0000

  // The fee is the amount times the factor of its selector. Below 192 factors count 2^60ths, and what
  // is left over is dropped.
  ghost predicate IsFee(fees: FeeTable, amount: nat, sel: FeeSelector, f: nat) {
    if sel < 192 then f * TWO_60 <= amount * fees[sel] < (f + 1) * TWO_60 else f == amount * fees[sel]
  }

  // There is exactly one fee, and it can be computed exactly if it fits 128 bits.
  lemma FeeIs(fees: FeeTable, amount: nat, sel: FeeSelector, f: nat)
    requires IsFee(fees, amount, sel, f)
    ensures CalcFeeAmount(fees, amount, sel) == if f < TWO_128 then Ok(f) else Err(FeeOverflow)
  {
    if sel < 192 {
      Float40.QuotientIs(amount * fees[sel], TWO_60, f);
    }
  }

  lemma FeeExists(fees: FeeTable, amount: nat, sel: FeeSelector) returns (f: nat)
    ensures IsFee(fees, amount, sel, f)
  {
    var product := amount * fees[sel];
    f := if sel < 192 then product / TWO_60 else product;
    Float40.QuotientIs(product, TWO_60, product / TWO_60);
  }

  // An instance: a factor of 2^52 charges 1000 on 256000.
  lemma FeeOfSelector32(fees: FeeTable)
    requires fees[32] == 0x10_0000_0000_0000
    ensures CalcFeeAmount(fees, 256000, 32) == Ok(1000)
  {
    FeeIs(fees, 256000, 32, 1000);
  }

  // ---- the receiver ----

  // The account that an address, with or without a key, stands for. With a key it is the first one
  // created with both; without, the last one that was entered for the address.
  ghost predicate StandsFor(led: Ledger, log: seq<Creation>, addr: Addr, key: BJJ, token: TokenID, r: Idx) {
    && addr != EMPTY_ADDR && r in led.accounts
    && led.accounts[r].ethAddr == addr && led.accounts[r].tokenID == token
    && USER_THRESHOLD <= r < USER_THRESHOLD + |log|
    && (key != EMPTY_BJJ ==> IsFirstCreation(log, r - USER_THRESHOLD, Creation(addr, key, token)))
    && (key == EMPTY_BJJ ==> IsLastEntered(log, r - USER_THRESHOLD, addr, token))
  }

  ghost predicate IsFirstCreation(log: seq<Creation>, k: nat, c: Creation) {
    k < |log| && log[k] == c && forall j :: 0 <= j < k ==> log[j] != c
  }

  ghost predicate IsLastEntered(log: seq<Creation>, k: nat, addr: Addr, token: TokenID) {
    && k < |log| && Written(log, k)
    && forall j :: k < j < |log| && log[j].addr == addr && log[j].token == token ==> !Written(log, j)
  }

  // What the sender may name: an address with or without a key, of which there is an account.
  ghost predicate Known(led: Ledger, log: seq<Creation>, addr: Addr, key: BJJ, token: TokenID) {
    && addr != EMPTY_ADDR
    && if key == EMPTY_BJJ then
         exists i :: i in led.accounts && led.accounts[i].ethAddr == addr && led.accounts[i].tokenID == token
       else Creation(addr, key, token) in log
  }

  lemma LookupStandsFor(led: Ledger, log: seq<Creation>, addr: Addr, key: BJJ, token: TokenID)
    requires Inv(led, log)
    ensures led.Lookup(addr, key, token).Ok? <==> Known(led, log, addr, key, token)
    ensures led.Lookup(addr, key, token).Ok? ==>
      StandsFor(led, log, addr, key, token, led.Lookup(addr, key, token).value)
  {
    if addr != EMPTY_ADDR {
      if key != EMPTY_BJJ {
        LookupByKeyIsSmallest(led, log, Creation(addr, key, token));
        if led.Lookup(addr, key, token).Ok? {
          var k := led.Lookup(addr, key, token).value - USER_THRESHOLD;
          assert Matches(led.accounts[USER_THRESHOLD + k], log[k]);
        }
      } else {
        LookupByAddrIsSound(led, log, addr, token);
        if led.Lookup(addr, key, token).Ok? {
          var r := led.Lookup(addr, key, token).value;
          assert CreatedAt(log, r, addr, token) && IsWritten(log, r);
        }
      }
    }
  }

  // Nothing else is left open about it.
  lemma StandsForOne(led: Ledger, log: seq<Creation>, addr: Addr, key: BJJ, token: TokenID, r: Idx, q: Idx)
    requires Inv(led, log) && StandsFor(led, log, addr, key, token, r) && StandsFor(led, log, addr, key, token, q)
    ensures r == q
  {
    var j, k := r - USER_THRESHOLD, q - USER_THRESHOLD;
    assert Matches(led.accounts[USER_THRESHOLD + j], log[j]) && Matches(led.accounts[USER_THRESHOLD + k], log[k]);
  }

  // The receiver: the explicit one, else the declared one, else the account that address and key stand
  // for in the token of the sender.
  ghost predicate Reaches(led: Ledger, log: seq<Creation>, tx: PoolL2Tx, r: Idx) {
    if tx.auxToIdx != 0 then r == tx.auxToIdx
    else if tx.toIdx != 0 then r == tx.toIdx
    else
      && tx.fromIdx in led.accounts
      && StandsFor(led, log, tx.toEthAddr, tx.toBJJ, led.accounts[tx.fromIdx].tokenID, r)
  }

  // Looking for a receiver fails exactly if the sender has no account, or names nobody that has one in
  // the sender's token; and in the synchronizer always.
  ghost predicate HasReceiver(mode: Mode, led: Ledger, log: seq<Creation>, tx: PoolL2Tx) {
    tx.toIdx == 0 && tx.auxToIdx == 0 ==>
      && mode.BatchBuilder? && tx.fromIdx in led.accounts
      && Known(led, log, tx.toEthAddr, tx.toBJJ, led.accounts[tx.fromIdx].tokenID)
  }

  lemma ResolvesIff(mode: Mode, led: Ledger, log: seq<Creation>, tx: PoolL2Tx)
    requires Inv(led, log)
    ensures Resolve(mode, led, tx).Ok? <==> HasReceiver(mode, led, log, tx)
    ensures Resolve(mode, led, tx).Err? && tx.fromIdx in led.accounts ==>
      Resolve(mode, led, tx).error == if mode.Synchronizer? then ToIdxZero
                                      else if tx.toEthAddr == EMPTY_ADDR then UnexpectedKeyCombination
                                      else IdxNotFound
    ensures Resolve(mode, led, tx).Ok? ==>
      var tx1 := Resolve(mode, led, tx).value;
      && Reaches(led, log, tx, Receiver(tx1))
      && tx1 == tx.(auxToIdx := if tx.toIdx == 0 && tx.auxToIdx == 0 then Receiver(tx1) else tx.auxToIdx)
  {
    if tx.toIdx == 0 && tx.auxToIdx == 0 && mode.BatchBuilder? && tx.fromIdx in led.accounts {
      LookupStandsFor(led, log, tx.toEthAddr, tx.toBJJ, led.accounts[tx.fromIdx].tokenID);
    }
  }

  // The type says which of these it is. A pool transaction has one exactly if it names a user account,
  // or leaves for the exit tree, or names an address alone, or a key with the address that has no owner.
  lemma TypeSaysReceiver(st: BState, log: seq<Creation>, tx: PoolL2Tx, r: Idx)
    requires Inv(st.led, log) && tx.auxToIdx == 0 && Reaches(st.led, log, tx, r)
    ensures PoolType(tx).Ok? <==>
      || tx.toIdx >= USER_THRESHOLD
      || (tx.toIdx == 1 && tx.toEthAddr == EMPTY_ADDR && tx.toBJJ == EMPTY_BJJ)
      || (tx.toIdx == 0 && (tx.toEthAddr == FF_ADDR) != (tx.toBJJ == EMPTY_BJJ))
    ensures PoolType(tx) == Ok(TypeTransfer) ==> r == tx.toIdx >= USER_THRESHOLD
    ensures PoolType(tx) == Ok(TypeExit) ==> r == tx.toIdx == 1
    ensures PoolType(tx) == Ok(TypeTransferToEthAddr) ==>
      && r >= USER_THRESHOLD && r in st.led.accounts && tx.fromIdx in st.led.accounts
      && st.led.accounts[r].ethAddr == tx.toEthAddr != FF_ADDR
      && st.led.accounts[r].tokenID == st.led.accounts[tx.fromIdx].tokenID
    ensures PoolType(tx) == Ok(TypeTransferToBJJ) ==>
      && r >= USER_THRESHOLD && r in st.led.accounts && tx.fromIdx in st.led.accounts
      && st.led.accounts[r].ethAddr == FF_ADDR && st.led.accounts[r].bjj == CanonKey(tx.toBJJ)
      && tx.toBJJ != EMPTY_BJJ
      && st.led.accounts[r].tokenID == st.led.accounts[tx.fromIdx].tokenID
    ensures PoolType(tx).Ok? ==> IsL2Type(PoolType(tx).value)
  {
    if tx.toIdx == 0 && tx.toBJJ != EMPTY_BJJ {
      var k := r - USER_THRESHOLD;
      assert Matches(st.led.accounts[USER_THRESHOLD + k], log[k]);
    }
  }

  // ---- what an accepted transaction does ----

  // The sender pays amount and fee, the receiver gains the amount, both if they are the same.
  ghost predicate Moved(led: Ledger, led': Ledger, from: Idx, to: Idx, amount: nat, f: nat) {
    && from in led.accounts && to in led.accounts && led'.accounts.Keys == led.accounts.Keys
    && forall i :: i in led.accounts ==>
         led'.accounts[i].balance ==
           led.accounts[i].balance - (if i == from then amount + f else 0) + (if i == to then amount else 0)
  }

  ghost predicate PaidOut(led: Ledger, led': Ledger, from: Idx, cost: nat) {
    && from in led.accounts && led'.accounts.Keys == led.accounts.Keys
    && forall i :: i in led.accounts ==>
         led'.accounts[i].balance == led.accounts[i].balance - if i == from then cost else 0
  }

  // The fee goes to the total of the sender's token, if a coordinator account takes it.
  ghost predicate Collected(st: BState, st': BState, coordOf: map<TokenID, Idx>, token: TokenID, f: nat) {
    && st'.collected.Keys == st.collected.Keys == coordOf.Keys
    && forall t :: t in coordOf ==> st'.collected[t] == st.collected[t] + if t == token then f else 0
  }

  lemma DebitEffect(fees: FeeTable, coordOf: map<TokenID, Idx>, st: BState, from: Idx, amount: nat, sel: FeeSelector,
                    f: nat)
    requires AccountsUpTo(st.led, st.led.currentIdx) && FeesOK(st, coordOf) && IsFee(fees, amount, sel, f)
    requires Debit(fees, coordOf, st, from, amount, sel).Ok?
    ensures f < TWO_128 && from in st.led.accounts
    ensures var st1 := Debit(fees, coordOf, st, from, amount, sel).value.0;
      && PaidOut(st.led, st1.led, from, amount + f)
      && Collected(st, st1, coordOf, st.led.accounts[from].tokenID, f)
      && st1.exits == st.exits
  {
    hide IsFee;
    FeeIs(fees, amount, sel, f);
    DebitKeeps(fees, coordOf, st, st.led.currentIdx, from, amount, sel);
    AccrueKeepsTotals(st, coordOf, st.led.accounts[from].tokenID, f);
  }

  lemma TransferEffect(fees: FeeTable, coordOf: map<TokenID, Idx>, st: BState, from: Idx, to: Idx, amount: nat,
                       sel: FeeSelector, f: nat)
    requires AccountsUpTo(st.led, st.led.currentIdx) && FeesOK(st, coordOf) && IsFee(fees, amount, sel, f)
    requires MoveL2(fees, coordOf, st, from, to, amount, sel).Ok?
    ensures f < TWO_128
    ensures var st' := MoveL2(fees, coordOf, st, from, to, amount, sel).value;
      && Moved(st.led, st'.led, from, to, amount, f) && st'.exits == st.exits
      && Collected(st, st', coordOf, st.led.accounts[from].tokenID, f)
  {
    hide IsFee, Debit, Credit, FeesOK;
    DebitEffect(fees, coordOf, st, from, amount, sel, f);
    DebitKeeps(fees, coordOf, st, st.led.currentIdx, from, amount, sel);
    var (st1, s1) := Debit(fees, coordOf, st, from, amount, sel).value;
    CreditKeeps(st1.led, st.led.currentIdx, from, s1, to, amount);
  }

  lemma ExitEffect(fees: FeeTable, coordOf: map<TokenID, Idx>, st: BState, from: Idx, amount: nat, sel: FeeSelector,
                   f: nat)
    requires AccountsUpTo(st.led, st.led.currentIdx) && FeesOK(st, coordOf) && IsFee(fees, amount, sel, f)
    requires ExitL2(fees, coordOf, st, from, amount, sel).Ok?
    ensures f < TWO_128
    ensures var st' := ExitL2(fees, coordOf, st, from, amount, sel).value;
      && PaidOut(st.led, st'.led, from, amount + f) && LeafRaised(st.exits, st'.exits, from, amount, amount)
      && Collected(st, st', coordOf, st.led.accounts[from].tokenID, f)
  {
    hide IsFee, Debit, LeaveExit, FeesOK;
    DebitEffect(fees, coordOf, st, from, amount, sel, f);
    var (st1, s1) := Debit(fees, coordOf, st, from, amount, sel).value;
    LeaveExitRaises(st1, from, s1, amount, amount);
  }

  // The record that is left: the receiver that was looked up, and for the synchronizer the sender's
  // nonce and token.
  function Filled(mode: Mode, s: Account, tx: PoolL2Tx, r: Idx): PoolL2Tx {
    var tx1 := if tx.toIdx == 0 && tx.auxToIdx == 0 then tx.(auxToIdx := r) else tx;
    if mode.Synchronizer? then tx1.(nonce := s.nonce, tokenID := s.tokenID) else tx1
  }

  // An accepted transfer or exit lowers its sender by exactly amount and fee. The amount goes to the
  // receiver, or to the sender's exit leaf, and the fee to the total of the sender's token.
  lemma L2Effect(mode: Mode, fees: FeeTable, coordOf: map<TokenID, Idx>, st: BState, log: seq<Creation>,
                 tx: PoolL2Tx, f: nat) returns (r: Idx)
    requires Inv(st.led, log) && FeesOK(st, coordOf) && IsL2Type(tx.typ) && IsFee(fees, tx.amount, tx.fee, f)
    requires RunOneL2(mode, fees, coordOf, st, tx).Ok?
    ensures f < TWO_128 && Reaches(st.led, log, tx, r) && tx.fromIdx in st.led.accounts
    ensures var (st', tx') := RunOneL2(mode, fees, coordOf, st, tx).value;
      && tx' == Filled(mode, st.led.accounts[tx.fromIdx], tx, r)
      && Collected(st, st', coordOf, st.led.accounts[tx.fromIdx].tokenID, f)
      && (IsTransfer(tx.typ) ==>
            Moved(st.led, st'.led, tx.fromIdx, r, tx.amount, f) && st'.exits == st.exits)
      && (tx.typ == TypeExit ==>
            && PaidOut(st.led, st'.led, tx.fromIdx, tx.amount + f)
            && LeafRaised(st.exits, st'.exits, tx.fromIdx, tx.amount, tx.amount))
  {
    ResolvesIff(mode, st.led, log, tx);
    var tx1 := Resolve(mode, st.led, tx).value;
    r := Receiver(tx1);
    var tx2 := Stamp(mode, st.led, tx1).value;
    assert RunOneL2(mode, fees, coordOf, st, tx).value == (ApplyL2(fees, coordOf, st, tx2).value, tx2);
    hide Inv, Reaches, IsFee, MoveL2, ExitL2, Resolve, InputsL2;
    InvHasAccounts(st.led, log);
    if IsTransfer(tx.typ) {
      TransferEffect(fees, coordOf, st, tx.fromIdx, r, tx.amount, tx.fee, f);
    } else {
      ExitEffect(fees, coordOf, st, tx.fromIdx, tx.amount, tx.fee, f);
    }
  }

  lemma InvHasAccounts(led: Ledger, log: seq<Creation>)
    requires Inv(led, log)
    ensures AccountsUpTo(led, led.currentIdx)
  {
  }

  // ---- when it is accepted ----

  // What can be recorded for the circuit.
  ghost predicate Recordable(tx: PoolL2Tx) {
    && tx.fromIdx <= MAX_IDX && tx.toIdx <= MAX_IDX && (tx.toIdx == 0 ==> tx.auxToIdx <= MAX_IDX)
    && tx.nonce <= MAX_NONCE && Float40.Representable(tx.amount) && tx.signatureOk
    && (tx.rqOffset != 0 ==>
          && tx.rqOffset <= 7 && tx.rqFromIdx <= MAX_IDX && tx.rqToIdx <= MAX_IDX
          && tx.rqNonce <= MAX_NONCE && Float40.Representable(tx.rqAmount))
  }

  // The transaction gets as far as its sender.
  ghost predicate Starts(mode: Mode, led: Ledger, log: seq<Creation>, tx: PoolL2Tx) {
    && HasReceiver(mode, led, log, tx) && (mode.BatchBuilder? ==> Recordable(tx))
    && tx.fromIdx in led.accounts
  }

  // The amount still fits what is there.
  ghost predicate RoomAt(led: Ledger, tx: PoolL2Tx, f: nat, r: Idx) {
    && r in led.accounts
    && led.accounts[r].balance - (if r == tx.fromIdx then tx.amount + f else 0) + tx.amount < TWO_192
  }

  ghost predicate HasRoom(st: BState, log: seq<Creation>, tx: PoolL2Tx, f: nat) {
    if IsTransfer(tx.typ) then exists r :: Reaches(st.led, log, tx, r) && RoomAt(st.led, tx, f, r)
    else tx.amount == 0 || LeafBalance(st.exits, tx.fromIdx) + tx.amount < TWO_192
  }

  lemma RecordableIff(led: Ledger, log: seq<Creation>, tx: PoolL2Tx)
    requires Inv(led, log) && Resolve(BatchBuilder, led, tx).Ok?
    ensures InputsL2(Resolve(BatchBuilder, led, tx).value) <==> Recordable(tx)
  {
    ResolvesIff(BatchBuilder, led, log, tx);
    Float40.EncodeExact(tx.amount);
    Float40.EncodeExact(tx.rqAmount);
  }

  lemma DebitIff(fees: FeeTable, coordOf: map<TokenID, Idx>, st: BState, from: Idx, amount: nat, sel: FeeSelector,
                 f: nat)
    requires AccountsUpTo(st.led, st.led.currentIdx) && FeesOK(st, coordOf) && IsFee(fees, amount, sel, f)
    requires from in st.led.accounts
    ensures var s := st.led.accounts[from];
      var r := Debit(fees, coordOf, st, from, amount, sel);
      && (r.Ok? <==> f < TWO_128 && s.balance >= amount + f && s.nonce < MAX_NONCE)
      && (r == Err(NotEnoughBalance) <==> f < TWO_128 && s.balance < amount + f)
  {
    hide IsFee;
    FeeIs(fees, amount, sel, f);
    AccrueKeepsTotals(st, coordOf, st.led.accounts[from].tokenID, f);
  }

  lemma TransferIff(fees: FeeTable, coordOf: map<TokenID, Idx>, st: BState, from: Idx, to: Idx, amount: nat,
                    sel: FeeSelector, f: nat)
    requires AccountsUpTo(st.led, st.led.currentIdx) && FeesOK(st, coordOf) && IsFee(fees, amount, sel, f)
    requires from in st.led.accounts
    ensures var s := st.led.accounts[from];
      var r := MoveL2(fees, coordOf, st, from, to, amount, sel);
      && (r.Ok? <==>
            && f < TWO_128 && s.balance >= amount + f && s.nonce < MAX_NONCE && to in st.led.accounts
            && st.led.accounts[to].balance - (if to == from then amount + f else 0) + amount < TWO_192)
      && (r == Err(NotEnoughBalance) <==> f < TWO_128 && s.balance < amount + f)
  {
    hide IsFee, Debit, Credit;
    DebitIff(fees, coordOf, st, from, amount, sel, f);
    if Debit(fees, coordOf, st, from, amount, sel).Ok? {
      FeeIs(fees, amount, sel, f);
      DebitKeeps(fees, coordOf, st, st.led.currentIdx, from, amount, sel);
      var (st1, s1) := Debit(fees, coordOf, st, from, amount, sel).value;
      CreditIff(st1.led, st.led.currentIdx, from, s1, to, amount);
    }
  }

  lemma ExitIff(fees: FeeTable, coordOf: map<TokenID, Idx>, st: BState, from: Idx, amount: nat, sel: FeeSelector,
                f: nat)
    requires AccountsUpTo(st.led, st.led.currentIdx) && FeesOK(st, coordOf) && IsFee(fees, amount, sel, f)
    requires from in st.led.accounts && (from in st.exits ==> st.exits[from].nonce == 0)
    ensures var s := st.led.accounts[from];
      var r := ExitL2(fees, coordOf, st, from, amount, sel);
      && (r.Ok? <==>
            && f < TWO_128 && s.balance >= amount + f && s.nonce < MAX_NONCE
            && (amount == 0 || LeafBalance(st.exits, from) + amount < TWO_192))
      && (r == Err(NotEnoughBalance) <==> f < TWO_128 && s.balance < amount + f)
  {
    hide IsFee, Debit, LeaveExit;
    DebitIff(fees, coordOf, st, from, amount, sel, f);
    if Debit(fees, coordOf, st, from, amount, sel).Ok? {
      DebitKeeps(fees, coordOf, st, st.led.currentIdx, from, amount, sel);
      var (st1, s1) := Debit(fees, coordOf, st, from, amount, sel).value;
      LeafIff(st1, from, s1, amount, amount);
    }
  }

  // Up to the sender, every failure is of another kind than a lack of balance.
  lemma RunsFromSender(mode: Mode, fees: FeeTable, coordOf: map<TokenID, Idx>, st: BState, log: seq<Creation>,
                       tx: PoolL2Tx)
    requires Inv(st.led, log) && IsL2Type(tx.typ)
    ensures var r := RunOneL2(mode, fees, coordOf, st, tx);
      if Starts(mode, st.led, log, tx) then
        && Resolve(mode, st.led, tx).Ok?
        && var to := Receiver(Resolve(mode, st.led, tx).value);
        && Reaches(st.led, log, tx, to)
        && var step := if IsTransfer(tx.typ) then MoveL2(fees, coordOf, st, tx.fromIdx, to, tx.amount, tx.fee)
                       else ExitL2(fees, coordOf, st, tx.fromIdx, tx.amount, tx.fee);
        && (r.Ok? <==> step.Ok?) && (r == Err(NotEnoughBalance) <==> step == Err(NotEnoughBalance))
      else r.Err? && r != Err(NotEnoughBalance)
  {
    ResolvesIff(mode, st.led, log, tx);
    if Resolve(mode, st.led, tx).Ok? {
      if mode.BatchBuilder? {
        RecordableIff(st.led, log, tx);
      }
      var tx1 := Resolve(mode, st.led, tx).value;
      hide Resolve, InputsL2, Recordable, MoveL2, ExitL2, Reaches, HasReceiver;
      if tx.fromIdx !in st.led.accounts {
        NoSender(fees, coordOf, st, tx1);
      }
    }
  }

  lemma NoSender(fees: FeeTable, coordOf: map<TokenID, Idx>, st: BState, tx: PoolL2Tx)
    requires tx.fromIdx !in st.led.accounts && IsL2Type(tx.typ)
    ensures ApplyL2(fees, coordOf, st, tx).Err? && ApplyL2(fees, coordOf, st, tx) != Err(NotEnoughBalance)
  {
  }

  // A transfer or exit is accepted exactly if it has a receiver, can be recorded, its sender has an
  // account with a nonce to spare and can pay amount and fee, the fee fits, and so does what arrives.
  // It is refused for lack of balance exactly if nothing but the balance is missing up to there.
  lemma L2AcceptedIff(mode: Mode, fees: FeeTable, coordOf: map<TokenID, Idx>, st: BState, log: seq<Creation>,
                      tx: PoolL2Tx, f: nat)
    requires Inv(st.led, log) && FeesOK(st, coordOf) && ExitsOK(st)
    requires IsL2Type(tx.typ) && IsFee(fees, tx.amount, tx.fee, f)
    ensures RunOneL2(mode, fees, coordOf, st, tx).Ok? <==>
      && Starts(mode, st.led, log, tx) && f < TWO_128
      && st.led.accounts[tx.fromIdx].balance >= tx.amount + f
      && st.led.accounts[tx.fromIdx].nonce < MAX_NONCE && HasRoom(st, log, tx, f)
    ensures RunOneL2(mode, fees, coordOf, st, tx) == Err(NotEnoughBalance) <==>
      && Starts(mode, st.led, log, tx) && f < TWO_128
      && st.led.accounts[tx.fromIdx].balance < tx.amount + f
  {
    RunsFromSender(mode, fees, coordOf, st, log, tx);
    hide RunOneL2, IsFee, MoveL2, ExitL2, Resolve, Recordable, Known, StandsFor;
    if Starts(mode, st.led, log, tx) {
      var to := Receiver(Resolve(mode, st.led, tx).value);
      if IsTransfer(tx.typ) {
        TransferIff(fees, coordOf, st, tx.fromIdx, to, tx.amount, tx.fee, f);
        OneReceiver(st, log, tx, f, to);
      } else {
        ExitIff(fees, coordOf, st, tx.fromIdx, tx.amount, tx.fee, f);
      }
    }
  }

  lemma OneReceiver(st: BState, log: seq<Creation>, tx: PoolL2Tx, f: nat, to: Idx)
    requires Inv(st.led, log) && IsTransfer(tx.typ) && Reaches(st.led, log, tx, to)
    ensures HasRoom(st, log, tx, f) <==> RoomAt(st.led, tx, f, to)
  {
    hide Inv, StandsFor;
    forall r | Reaches(st.led, log, tx, r)
      ensures r == to
    {
      if tx.auxToIdx == 0 && tx.toIdx == 0 {
        StandsForOne(st.led, log, tx.toEthAddr, tx.toBJJ, st.led.accounts[tx.fromIdx].tokenID, r, to);
      }
    }
  }

  // An instance: four for the address of the second account, which ends with nine.
  lemma TransferToAddress(fees: FeeTable)
    requires fees[0] == 0
    ensures var led := EMPTY_LEDGER.(accounts := map[32 := Account(0, 0, 10, EMPTY_BJJ, 7),
                                                     33 := Account(0, 0, 5, EMPTY_BJJ, 8)], currentIdx := 33)
                       .Register(32, 7, EMPTY_BJJ, 0).Register(33, 8, EMPTY_BJJ, 0);
      var tx := PoolL2Tx(32, 0, 0, 8, EMPTY_BJJ, 0, 4, 0, 0, TypeTransferToEthAddr, 0, 0, 0, 0, 0, true);
      && RunOneL2(BatchBuilder, fees, map[], Fresh(led), tx).Ok?
      && RunOneL2(BatchBuilder, fees, map[], Fresh(led), tx).value.1.auxToIdx == 33
      && RunOneL2(BatchBuilder, fees, map[], Fresh(led), tx).value.0.led.accounts
         == map[32 := Account(0, 1, 6, EMPTY_BJJ, 7), 33 := Account(0, 0, 9, EMPTY_BJJ, 8)]
  {
    assert Canon(Account(0, 1, 6, EMPTY_BJJ, 7)) == Account(0, 1, 6, EMPTY_BJJ, 7);
    assert Canon(Account(0, 0, 9, EMPTY_BJJ, 8)) == Account(0, 0, 9, EMPTY_BJJ, 8);
    assert CalcFeeAmount(fees, 4, 0) == Ok(0);
  }
}
