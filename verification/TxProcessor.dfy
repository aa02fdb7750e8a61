// The transaction processor object. Each of its methods is proved to do what the functions of
// Ledger.dfy and Batch.dfy say, and to note every account it changes.
module TxProcessors {
  import opened Types
  import opened Bytes
  import opened Accounts
  import opened Txs
  import opened Ledgers
  import opened Batches
  import opened LedgerInvariants
  import opened Stores
  import opened Checkpoints
  import opened KVDBs
  import opened StateDBs
  import opened Codec
  import opened UserTxBytes
  import opened CircuitInputs
  import opened Traces
  import opened Exits
  import Float40

  // An account on the heap: whoever holds the object sees later changes to it.
  class AccountRef {
    var acc: Account
    var idx: Idx

    constructor (acc: Account, idx: Idx)
      ensures this.acc == acc && this.idx == idx
    {
      this.acc := acc;
      this.idx := idx;
    }
  }

  lemma Overwritten(start: map<Idx, Account>, stored: map<Idx, Account>, i: Idx, a: Account)
    ensures (start + stored)[i := a] == start + stored[i := a]
  {
  }

  lemma CreatedAccounts(led: Ledger, i: Idx, a: Account)
    requires led.Create(i, a).Ok?
    ensures led.Create(i, a).value.accounts == led.accounts[i := Canon(a)]
  {
  }

  lemma UpdatedAccounts(led: Ledger, i: Idx, a: Account)
    requires led.Update(i, a).Ok?
    ensures led.Update(i, a).value.accounts == led.accounts[i := Canon(a)]
  {
  }

  class TxProcessor {
    const state: StateDB
    const cfg: Config
    var zki: ZKInputs?
    var txIndex: nat
    // The accounts changed in this batch, in synchronizer mode.
    var updated: map<Idx, AccountRef>
    // Fees by coordinator account and by token, and the exit tree of this batch.
    var accumulated: map<Idx, nat>
    var collected: map<TokenID, nat>
    var exitTree: Storage?
    ghost var exits: map<Idx, Account>
    // The accounts at the start of this batch, and those stored since.
    ghost var start: map<Idx, Account>
    ghost var stored: map<Idx, Account>

    // The storages of the state and of the exit tree are open, distinct and consistent.
    ghost predicate Working()
      reads `exitTree, `exits, state, state.kv, state.kv.db, exitTree
    {
      && state.Valid()
      && exitTree != null && exitTree != state.kv.db
      && Consistent(exitTree.s) && exits == AccountsOf(exitTree.s)
    }

    ghost function St(): BState
      reads `accumulated, `collected, `exits, state`led
    {
      BState(state.led, exits, accumulated, collected)
    }

    // Every noted object is what was last stored under its index; x is left out while it changes.
    ghost predicate NotedBut(x: Option<Idx>)
      reads `updated, `stored, set i | i in updated :: updated[i]
    {
      state.mode.Synchronizer? ==>
        && (forall i :: i in updated <==> i in stored)
        && (forall i :: i in updated && Some(i) != x ==> updated[i].idx == i && Canon(updated[i].acc) == stored[i])
    }

    // The accounts are those of the start, overwritten by those stored since.
    ghost predicate Differs()
      reads `start, `stored, state`led
    {
      state.led.accounts == start + stored
    }

    ghost predicate Ready()
      reads `exitTree, `exits, `updated, `stored, `start, state, state.kv, state.kv.db, exitTree
      reads set i | i in updated :: updated[i]
    {
      Working() && NotedBut(None) && Differs()
    }

    // NewTxProcessor
    constructor (state: StateDB, cfg: Config)
      ensures this.state == state && this.cfg == cfg && zki == null && txIndex == 0
    {
      this.state := state;
      this.cfg := cfg;
      this.zki := null;
      this.txIndex := 0;
      this.updated := map[];
      this.accumulated := map[];
      this.collected := map[];
      this.exitTree := null;
      this.exits := map[];
      this.start := map[];
      this.stored := map[];
    }

    // ---- accounts ----

    method GetAccount(i: Idx) returns (r: Result<AccountRef>)
      requires state.Valid()
      ensures r.Ok? <==> state.led.Get(i).Ok?
      ensures r.Ok? ==> fresh(r.value) && r.value.acc == state.led.Get(i).value && r.value.idx == i
      ensures r.Ok? ==> Canonical(r.value.acc)
    {
      var a :- state.GetAccount(i);
      var ref := new AccountRef(a, i);
      r := Ok(ref);
    }

    // Note an account that is about to be stored.
    method Note(i: Idx, account: AccountRef)
      requires NotedBut(Some(i)) && Held(account, i)
      modifies account`idx, this`updated, this`stored
      ensures NotedBut(None) && Held(account, i) && stored == old(stored)[i := Canon(account.acc)]
      ensures account.idx == if state.mode.Synchronizer? then i else old(account.idx)
    {
      if state.mode.Synchronizer? {
        account.idx := i;
        updated := updated[i := account];
      }
      stored := stored[i := Canon(account.acc)];
    }

    // No other index holds the object.
    ghost predicate Held(account: AccountRef, i: Idx)
      reads `updated
    {
      state.mode.Synchronizer? ==> forall j :: j in updated && j != i ==> updated[j] != account
    }

    // createAccount: the account is noted before it is stored.
    method CreateAccount(i: Idx, account: AccountRef) returns (e: Option<Error>)
      requires Ready() && Held(account, i)
      modifies account`idx, this`updated, this`stored, state`led, state.kv.db
      ensures e.None? <==> old(state.led).Create(i, account.acc).Ok?
      ensures e.None? ==> Ready() && Held(account, i)
      ensures e.None? ==> state.led == old(state.led).Create(i, account.acc).value
    {
      Note(i, account);
      e := state.CreateAccount(i, account.acc);
      if e.None? {
        Overwritten(start, old(stored), i, Canon(account.acc));
        CreatedAccounts(old(state.led), i, account.acc);
      }
    }

    // updateAccount
    method UpdateAccount(i: Idx, account: AccountRef) returns (e: Option<Error>)
      requires Working() && NotedBut(Some(i)) && Differs() && Held(account, i)
      modifies account`idx, this`updated, this`stored, state`led, state.kv.db
      ensures e.None? <==> old(state.led).Update(i, account.acc).Ok?
      ensures e.None? ==> Ready() && Held(account, i)
      ensures e.None? ==> state.led == old(state.led).Update(i, account.acc).value
    {
      Note(i, account);
      e := state.UpdateAccount(i, account.acc);
      if e.None? {
        Overwritten(start, old(stored), i, Canon(account.acc));
        UpdatedAccounts(old(state.led), i, account.acc);
      }
    }

    // The receiver is the sender's own object when both are the same account, because that object is
    // what was stored last.
    method ReceiverOf(from: Idx, sender: AccountRef, to: Idx) returns (r: Result<AccountRef>)
      requires state.Valid() && Held(sender, from)
      ensures r.Ok? <==> to == from || state.led.Get(to).Ok?
      ensures r.Ok? ==> r.value == sender || fresh(r.value)
      ensures r.Ok? ==> Held(r.value, to)
      ensures r.Ok? ==> r.value.acc == if to == from then sender.acc else state.led.Get(to).value
    {
      if to == from {
        r := Ok(sender);
      } else {
        r := GetAccount(to);
      }
    }

    method Raise(i: Idx, account: AccountRef, amount: nat) returns (e: Option<Error>)
      requires Ready() && Held(account, i)
      modifies account, this`updated, this`stored, state`led, state.kv.db
      ensures e.None? <==> old(state.led.Update(i, Raised(account.acc, amount))).Ok?
      ensures e.None? ==> Ready()
      ensures e.None? ==> state.led == old(state.led.Update(i, Raised(account.acc, amount))).value
    {
      account.acc := account.acc.(balance := account.acc.balance + amount);
      e := UpdateAccount(i, account);
    }

    // The second half of every transfer.
    method Receive(from: Idx, sender: AccountRef, to: Idx, amount: nat) returns (e: Option<Error>)
      requires Ready() && Held(sender, from)
      modifies sender, this`updated, this`stored, state`led, state.kv.db
      ensures e.None? <==> old(Credit(state.led, from, sender.acc, to, amount)).Ok?
      ensures e.None? ==> Ready()
      ensures e.None? ==> state.led == old(Credit(state.led, from, sender.acc, to, amount)).value
    {
      var receiver := ReceiverOf(from, sender, to);
      if receiver.Err? {
        return Some(receiver.error);
      }
      assert Credit(state.led, from, sender.acc, to, amount)
        == state.led.Update(to, Raised(receiver.value.acc, amount));
      e := Raise(to, receiver.value, amount);
    }

    // ---- fees ----

    method Accrue(coordOf: map<TokenID, Idx>, token: TokenID, fee: nat) returns (e: Option<Error>)
      requires state.Valid()
      modifies this`accumulated, this`collected
      ensures e.None? <==> Ledgers.Accrue(old(St()), coordOf, token, fee).Ok?
      ensures e.None? ==> St() == Ledgers.Accrue(old(St()), coordOf, token, fee).value
    {
      if token !in coordOf {
        return None;
      }
      var coord := GetAccount(coordOf[token]);
      if coord.Err? {
        return Some(coord.error);
      }
      var c, t := coord.value.idx, coord.value.acc.tokenID;
      // a missing total would be dereferenced
      if t !in collected {
        return Some(MissingFeeAccumulator);
      }
      accumulated := accumulated[c := (if c in accumulated then accumulated[c] else 0) + fee];
      collected := collected[t := collected[t] + fee];
      e := None;
    }

    // ---- the sender's half ----

    // An L2 sender pays amount and fee, and its nonce goes up.
    method ChargeL2(coordOf: map<TokenID, Idx>, from: Idx, amount: nat, sel: FeeSelector)
      returns (r: Result<AccountRef>)
      requires state.Valid()
      modifies this`accumulated, this`collected
      ensures r.Ok? <==> ChargedL2(cfg.fees, coordOf, old(St()), from, amount, sel).Ok?
      ensures r.Ok? ==> fresh(r.value) && Canonical(r.value.acc)
      ensures r.Ok? ==> (St(), r.value.acc) == ChargedL2(cfg.fees, coordOf, old(St()), from, amount, sel).value
    {
      var account :- GetAccount(from);
      account.acc := account.acc.(nonce := account.acc.nonce + 1);
      var fee :- CalcFeeAmount(cfg.fees, amount, sel);
      if account.acc.balance < amount + fee {
        return Err(NotEnoughBalance);
      }
      account.acc := account.acc.(balance := account.acc.balance - (amount + fee));
      var e := Accrue(coordOf, account.acc.tokenID, fee);
      if e.Some? {
        return Err(e.value);
      }
      r := Ok(account);
    }

    // An L1 sender pays the effective amount.
    method ChargeL1(from: Idx, amount: nat) returns (r: Result<AccountRef>)
      requires state.Valid()
      ensures r.Ok? <==> ChargedL1(state.led, from, amount).Ok?
      ensures r.Ok? ==> fresh(r.value) && Canonical(r.value.acc)
      ensures r.Ok? ==> r.value.acc == ChargedL1(state.led, from, amount).value
    {
      var account :- GetAccount(from);
      if account.acc.balance < amount {
        return Err(NotEnoughBalance);
      }
      account.acc := account.acc.(balance := account.acc.balance - amount);
      r := Ok(account);
    }

    method TakeL2(coordOf: map<TokenID, Idx>, from: Idx, amount: nat, sel: FeeSelector)
      returns (r: Result<AccountRef>)
      requires Ready()
      modifies this`accumulated, this`collected, this`updated, this`stored, state`led, state.kv.db
      ensures r.Ok? <==> Debit(cfg.fees, coordOf, old(St()), from, amount, sel).Ok?
      ensures r.Ok? ==> Ready() && fresh(r.value) && Held(r.value, from)
      ensures r.Ok? ==> Canonical(r.value.acc)
      ensures r.Ok? ==> (St(), r.value.acc) == Debit(cfg.fees, coordOf, old(St()), from, amount, sel).value
    {
      DebitIsCharge(cfg.fees, coordOf, St(), from, amount, sel);
      var sender :- ChargeL2(coordOf, from, amount, sel);
      var e := UpdateAccount(from, sender);
      if e.Some? {
        return Err(e.value);
      }
      r := Ok(sender);
    }

    method TakeL1(from: Idx, amount: nat) returns (r: Result<AccountRef>)
      requires Ready()
      modifies this`updated, this`stored, state`led, state.kv.db
      ensures r.Ok? <==> PaidL1(old(state.led), from, amount).Ok?
      ensures r.Ok? ==> Ready() && fresh(r.value) && Held(r.value, from)
      ensures r.Ok? ==> Canonical(r.value.acc)
      ensures r.Ok? ==> (state.led, r.value.acc) == PaidL1(old(state.led), from, amount).value
    {
      var sender :- ChargeL1(from, amount);
      var e := UpdateAccount(from, sender);
      if e.Some? {
        return Err(e.value);
      }
      r := Ok(sender);
    }

    // ---- transfers ----

    // applyTransfer, for an L2 transaction; an explicit receiver goes before the one of the transaction.
    method ApplyTransferL2(coordOf: map<TokenID, Idx>, from: Idx, toIdx: Idx, amount: nat, sel: FeeSelector,
                           auxToIdx: Idx) returns (e: Option<Error>)
      requires Ready()
      modifies this`accumulated, this`collected, this`updated, this`stored, state`led, state.kv.db
      ensures e.None? <==> MoveL2(cfg.fees, coordOf, old(St()), from, Target(toIdx, auxToIdx), amount, sel).Ok?
      ensures e.None? ==> Ready()
      ensures e.None? ==> St() == MoveL2(cfg.fees, coordOf, old(St()), from, Target(toIdx, auxToIdx), amount, sel).value
    {
      var to := Target(toIdx, auxToIdx);
      var sender := TakeL2(coordOf, from, amount, sel);
      if sender.Err? {
        return Some(sender.error);
      }
      assert MoveL2(cfg.fees, coordOf, old(St()), from, to, amount, sel)
        == Credited(St(), Credit(state.led, from, sender.value.acc, to, amount));
      e := Receive(from, sender.value, to, amount);
    }

    // applyTransfer, for an L1 transaction
    method ApplyTransferL1(from: Idx, to: Idx, amount: nat) returns (e: Option<Error>)
      requires Ready()
      modifies this`updated, this`stored, state`led, state.kv.db
      ensures e.None? <==> MoveL1(old(state.led), from, to, amount).Ok?
      ensures e.None? ==> Ready()
      ensures e.None? ==> state.led == MoveL1(old(state.led), from, to, amount).value
    {
      var sender := TakeL1(from, amount);
      if sender.Err? {
        return Some(sender.error);
      }
      assert MoveL1(old(state.led), from, to, amount) == Credit(state.led, from, sender.value.acc, to, amount);
      e := Receive(from, sender.value, to, amount);
    }

    // ---- deposits and new accounts ----

    method ChargeDeposit(tx: L1Tx) returns (r: Result<AccountRef>)
      requires state.Valid()
      ensures r.Ok? <==> Deposited(state.led, tx).Ok?
      ensures r.Ok? ==> fresh(r.value)
      ensures r.Ok? ==> r.value.acc == Deposited(state.led, tx).value
    {
      var account :- GetAccount(tx.fromIdx);
      var balance := account.acc.balance + tx.effectiveDepositAmount;
      if balance < tx.effectiveAmount {
        return Err(NotEnoughBalance);
      }
      account.acc := account.acc.(balance := balance - tx.effectiveAmount);
      r := Ok(account);
    }

    // applyDeposit
    method ApplyDeposit(tx: L1Tx, transfer: bool) returns (e: Option<Error>)
      requires Ready()
      modifies this`updated, this`stored, state`led, state.kv.db
      ensures e.None? <==> Deposit(old(state.led), tx, transfer).Ok?
      ensures e.None? ==> Ready()
      ensures e.None? ==> state.led == Deposit(old(state.led), tx, transfer).value
    {
      DepositSteps(state.led, tx, transfer);
      var sender := ChargeDeposit(tx);
      if sender.Err? {
        return Some(sender.error);
      }
      e := UpdateAccount(tx.fromIdx, sender.value);
      if e.Some? {
        return;
      }
      if transfer {
        e := Receive(tx.fromIdx, sender.value, tx.toIdx, tx.effectiveAmount);
      }
    }

    // applyCreateAccount
    method ApplyCreateAccount(tx: L1Tx) returns (e: Option<Error>)
      requires Ready()
      modifies this`updated, this`stored, state`led, state.kv`currentIdx, state.kv.db
      ensures e.None? <==> OpenAccount(old(state.led), tx).Ok?
      ensures e.None? ==> Ready()
      ensures e.None? ==> state.led == OpenAccount(old(state.led), tx).value
    {
      var account := new AccountRef(
        Account(tx.tokenID, 0, tx.effectiveDepositAmount, tx.fromBJJ, tx.fromEthAddr), 0);
      e := CreateAccount(state.CurrentIdx() + 1, account);
      if e.Some? {
        return;
      }
      e := state.SetCurrentIdx(state.CurrentIdx() + 1);
    }

    // Create the sender with what it keeps, then credit the receiver, which may be the sender itself.
    method OpenAndCredit(tx: L1Tx) returns (e: Option<Error>)
      requires Ready() && tx.effectiveDepositAmount >= tx.effectiveAmount
      modifies this`updated, this`stored, state`led, state.kv.db
      ensures e.None? <==> OpenedAndCredited(old(state.led), tx).Ok?
      ensures e.None? ==> Ready()
      ensures e.None? ==> state.led == OpenedAndCredited(old(state.led), tx).value
    {
      var auxFromIdx := state.CurrentIdx() + 1;
      var sender := new AccountRef(Opener(tx), 0);
      e := CreateAccount(auxFromIdx, sender);
      if e.Some? {
        return;
      }
      assert OpenedAndCredited(old(state.led), tx)
        == Credit(state.led, auxFromIdx, sender.acc, tx.toIdx, tx.effectiveAmount);
      e := Receive(auxFromIdx, sender, tx.toIdx, tx.effectiveAmount);
    }

    // applyCreateAccountDepositTransfer
    method ApplyCreateAccountDepositTransfer(tx: L1Tx) returns (e: Option<Error>)
      requires Ready()
      modifies this`updated, this`stored, state`led, state.kv`currentIdx, state.kv.db
      ensures e.None? <==> OpenAndMove(old(state.led), tx).Ok?
      ensures e.None? ==> Ready()
      ensures e.None? ==> state.led == OpenAndMove(old(state.led), tx).value
    {
      if tx.effectiveDepositAmount < tx.effectiveAmount {
        return Some(NotEnoughBalance);
      }
      OpenAndMoveSteps(state.led, tx);
      e := OpenAndCredit(tx);
      if e.Some? {
        return;
      }
      e := state.SetCurrentIdx(state.CurrentIdx() + 1);
    }

    // ---- exits ----

    // The leaf that an exit of a declared amount leaves, and whether it is new.
    ghost predicate LeafLeft(leaf: Option<(Account, bool)>, declared: nat, i: Idx, before: map<Idx, Account>)
      reads `exits
    {
      if declared == 0 then leaf == None
      else i in exits && leaf == Some((exits[i], i !in before))
    }

    method CreateExitLeaf(i: Idx, leaf: Account) returns (e: Option<Error>)
      requires Ready() && Canonical(leaf) && i !in exits
      modifies exitTree, this`exits
      ensures e.None? <==> Encodable(leaf) && i <= MAX_IDX
      ensures e.None? ==> Working() && exits == old(exits)[i := leaf]
      ensures NotedBut(None) && Differs()
    {
      CreateRefines(exitTree.s, i, leaf);
      e := CreateAccountInTreeDB(exitTree, exitTree, i, leaf);
      if e.None? {
        exits := exits[i := leaf];
      }
    }

    method UpdateExitLeaf(i: Idx, leaf: Account) returns (e: Option<Error>)
      requires Ready() && Canonical(leaf) && i in exits
      modifies exitTree, this`exits
      ensures e.None? <==> Encodable(leaf) && i <= MAX_IDX
      ensures e.None? ==> Working() && exits == old(exits)[i := leaf]
      ensures NotedBut(None) && Differs()
    {
      UpdateRefines(exitTree.s, i, leaf);
      e := UpdateAccountInTreeDB(exitTree, exitTree, i, leaf);
      if e.None? {
        exits := exits[i := leaf];
      }
    }

    // Add the account's leaf to the exit tree, or raise the one that is there.
    method AddExitLeaf(i: Idx, acc: Account, amount: nat) returns (r: Result<(Account, bool)>)
      requires Ready() && Canonical(acc)
      modifies exitTree, this`exits
      ensures r.Ok? <==> AddExit(old(exits), i, acc, amount).Ok?
      ensures r.Ok? ==> Working() && exits == AddExit(old(exits), i, acc, amount).value
      ensures NotedBut(None) && Differs()
      ensures r.Ok? ==> i in exits && r.value == (exits[i], i !in old(exits))
    {
      GetRefines(exitTree.s, i);
      var exitAccount := GetAccountInTreeDB(exitTree, i);
      if exitAccount == Err(NotFound) {
        var leaf := Account(acc.tokenID, 0, amount, acc.bjj, acc.ethAddr);
        var e := CreateExitLeaf(i, leaf);
        if e.Some? {
          return Err(e.value);
        }
        return Ok((leaf, true));
      }
      var found :- exitAccount;
      var leaf := found.(balance := found.balance + amount);
      var e := UpdateExitLeaf(i, leaf);
      if e.Some? {
        return Err(e.value);
      }
      r := Ok((leaf, false));
    }

    method ExitRoot() returns (r: Root)
      requires Working()
      ensures r == AccountsRoot(exits)
    {
      TreeIsOfAccounts(exitTree.s);
      r := RootOf(exitTree.s.tree);
    }

    // The second half of applyExit. An exit that declares no amount leaves no leaf.
    method LeaveExitTree(i: Idx, acc: Account, amount: nat, declared: nat) returns (r: Result<Option<(Account, bool)>>)
      requires Ready() && Canonical(acc)
      modifies exitTree, this`exits
      ensures r.Ok? <==> LeaveExit(old(St()), i, acc, amount, declared).Ok?
      ensures r.Ok? ==> Working() && St() == LeaveExit(old(St()), i, acc, amount, declared).value
      ensures NotedBut(None) && Differs()
      ensures r.Ok? ==> LeafLeft(r.value, declared, i, old(exits))
    {
      if declared == 0 {
        return Ok(None);
      }
      var leaf :- AddExitLeaf(i, acc, amount);
      assert LeaveExit(old(St()), i, acc, amount, declared) == Ok(St());
      r := Ok(Some(leaf));
    }

    // applyExit for an L1 transaction; the declared amount decides about the leaf.
    method ApplyExitL1(tx: L1Tx) returns (r: Result<Option<(Account, bool)>>)
      requires Ready()
      modifies this`updated, this`stored, state`led, state.kv.db, exitTree, this`exits
      ensures r.Ok? <==> ExitL1(old(St()), tx).Ok?
      ensures r.Ok? ==> Ready() && St() == ExitL1(old(St()), tx).value
      ensures r.Ok? ==> LeafLeft(r.value, tx.amount, tx.fromIdx, old(exits))
    {
      ExitL1Is(St(), tx);
      var acc :- TakeL1(tx.fromIdx, tx.effectiveAmount);
      r := LeaveExitTree(tx.fromIdx, acc.acc, tx.effectiveAmount, tx.amount);
    }

    method ApplyExitL2(coordOf: map<TokenID, Idx>, from: Idx, amount: nat, sel: FeeSelector)
      returns (r: Result<Option<(Account, bool)>>)
      requires Ready()
      modifies this`accumulated, this`collected, this`updated, this`stored, state`led, state.kv.db
      modifies exitTree, this`exits
      ensures r.Ok? <==> ExitL2(cfg.fees, coordOf, old(St()), from, amount, sel).Ok?
      ensures r.Ok? ==>
        Ready() && St() == ExitL2(cfg.fees, coordOf, old(St()), from, amount, sel).value
      ensures r.Ok? ==> LeafLeft(r.value, amount, from, old(exits))
    {
      var acc :- TakeL2(coordOf, from, amount, sel);
      assert ExitL2(cfg.fees, coordOf, old(St()), from, amount, sel) == LeaveExit(St(), from, acc.acc, amount, amount);
      r := LeaveExitTree(from, acc.acc, amount, amount);
    }

    // ---- one L1 transaction ----

    // computeEffectiveAmounts, on the transaction in place
    method ComputeEffectiveAmounts(txs: array<L1Tx>, k: nat)
      requires state.Valid() && k < txs.Length
      modifies txs
      ensures txs[..] == old(txs[..])[k := Effective(state.led, old(txs[k]))]
    {
      txs[k] := WithEffective(txs[k], txs[k].amount, txs[k].depositAmount);
      if !txs[k].userOrigin {
        txs[k] := WithEffective(txs[k], 0, 0);
        return;
      }
      if txs[k].typ == TypeCreateAccountDeposit {
        return;
      }
      if txs[k].toIdx >= USER_THRESHOLD && txs[k].fromIdx == 0 {
        if txs[k].depositAmount < txs[k].amount {
          txs[k] := txs[k].(effectiveAmount := 0);
          return;
        }
        var accReceiver := state.GetAccount(txs[k].toIdx);
        if accReceiver.Err? {
          txs[k] := WithEffective(txs[k], 0, 0);
          return;
        }
        if txs[k].tokenID != accReceiver.value.tokenID {
          txs[k] := txs[k].(effectiveAmount := 0);
        }
        return;
      }
      var accSender := state.GetAccount(txs[k].fromIdx);
      if accSender.Err? {
        txs[k] := WithEffective(txs[k], 0, 0);
        return;
      }
      if txs[k].tokenID != accSender.value.tokenID {
        txs[k] := WithEffective(txs[k], 0, 0);
        return;
      }
      if accSender.value.balance + txs[k].effectiveDepositAmount < txs[k].amount {
        txs[k] := txs[k].(effectiveAmount := 0);
        return;
      }
      if txs[k].fromEthAddr != accSender.value.ethAddr {
        txs[k] := txs[k].(effectiveAmount := 0);
      }
      if txs[k].toIdx == 1 || txs[k].toIdx == 0 {
        return;
      }
      var accReceiver := state.GetAccount(txs[k].toIdx);
      if accReceiver.Err? {
        txs[k] := WithEffective(txs[k], 0, 0);
        return;
      }
      // both tests have the same outcome here: the sender's token is the transaction's
      if accSender.value.tokenID != accReceiver.value.tokenID || txs[k].tokenID != accReceiver.value.tokenID {
        txs[k] := txs[k].(effectiveAmount := 0);
      }
    }

    // The switch of ProcessL1Tx.
    method ApplyL1Tx(tx: L1Tx) returns (r: Result<Option<(Account, bool)>>)
      requires Ready()
      modifies this`updated, this`stored, state`led, state.kv`currentIdx, state.kv.db, exitTree, this`exits
      ensures r.Ok? <==> ApplyL1(old(St()), tx).Ok?
      ensures r.Ok? ==> Ready() && St() == ApplyL1(old(St()), tx).value
      ensures r.Ok? ==> LeafLeft(r.value, if tx.typ == TypeForceExit then tx.amount else 0, tx.fromIdx, old(exits))
    {
      var e: Option<Error> := None;
      if tx.typ == TypeForceTransfer {
        e := ApplyTransferL1(tx.fromIdx, tx.toIdx, tx.effectiveAmount);
      } else if tx.typ == TypeCreateAccountDeposit {
        e := ApplyCreateAccount(tx);
      } else if tx.typ == TypeDeposit {
        e := ApplyDeposit(tx, false);
      } else if tx.typ == TypeDepositTransfer {
        e := ApplyDeposit(tx, true);
      } else if tx.typ == TypeCreateAccountDepositTransfer {
        e := ApplyCreateAccountDepositTransfer(tx);
      } else if tx.typ == TypeForceExit {
        r := ApplyExitL1(tx);
        return;
      }
      r := if e.None? then Ok(None) else Err(e.value);
    }

    // Circuit inputs are made in builder mode only.
    ghost predicate Modal()
      reads `zki
    {
      state.mode.BatchBuilder? <==> zki != null
    }

    // Check what the circuit inputs demand, and compute the effective amounts in place.
    method PrepareL1(txs: array<L1Tx>, k: nat) returns (e: Option<Error>)
      requires Ready() && Modal() && k < txs.Length
      modifies txs
      ensures Ready() && St() == old(St())
      ensures e.None? <==> state.mode.Synchronizer? || InputsBefore(old(txs[k]))
      ensures e.None? ==> txs[..] == old(txs[..])[k := Prepared(state.led, old(txs[k]))]
    {
      if zki != null && !InputsBefore(txs[k]) {
        return Some(Malformed);
      }
      if IsL1Type(txs[k].typ) {
        ComputeEffectiveAmounts(txs, k);
      }
      e := None;
    }

    // The account that a transaction created, for the synchronizer.
    method FetchCreated(tx: L1Tx) returns (r: Result<Option<Account>>)
      requires state.Valid()
      ensures r == Created(state.mode, state.led, tx)
    {
      if state.mode.Synchronizer? && CreatesAccount(tx.typ) {
        var account :- state.GetAccount(state.CurrentIdx());
        return Ok(Some(account));
      }
      r := Ok(None);
    }

    method ExecuteL1(tx: L1Tx) returns (r: Result<TxOutcome>)
      requires Ready()
      modifies this`updated, this`stored, state`led, state.kv`currentIdx, state.kv.db, exitTree, this`exits
      ensures r.Ok? <==> WithCreated(state.mode, ApplyL1(old(St()), tx), tx).Ok?
      ensures r.Ok? ==> Ready() && (St(), r.value.created) == WithCreated(state.mode, ApplyL1(old(St()), tx), tx).value
      ensures r.Ok? ==> Left(r.value, tx.typ == TypeForceExit, tx.fromIdx, tx.amount, old(exits))
    {
      hide ApplyL1, LeafLeft;
      var leaf :- ApplyL1Tx(tx);
      var created :- FetchCreated(tx);
      r := Ok(TxOutcome(if tx.typ == TypeForceExit then Some(tx.fromIdx) else None, leaf, created));
    }

    // ProcessL1Tx on the transaction in place
    method ProcessL1Tx(txs: array<L1Tx>, k: nat) returns (r: Result<TxOutcome>)
      requires Ready() && Modal() && k < txs.Length && (zki != null ==> Recording())
      modifies txs, this`updated, this`stored, state`led, state.kv`currentIdx, state.kv.db, exitTree, this`exits
      ensures zki != null ==> Recording() && View() == old(View()) && Log() == old(Log())
      ensures r.Ok? <==> ProcessedL1(state.mode, old(St()), old(txs[k])).Ok?
      ensures r.Ok? ==> Ready() && (St(), r.value.created) == ProcessedL1(state.mode, old(St()), old(txs[k])).value
      ensures r.Ok? ==> txs[..] == old(txs[..])[k := Prepared(old(state.led), old(txs[k]))]
      ensures r.Ok? ==> Left(r.value, txs[k].typ == TypeForceExit, txs[k].fromIdx, txs[k].amount, old(exits))
    {
      hide Prepared, ApplyL1, WithCreated, Left;
      var e := PrepareL1(txs, k);
      if e.Some? {
        return Err(e.value);
      }
      r := ExecuteL1(txs[k]);
    }

    // An exit names its account; its leaf is there unless it declared no amount.
    ghost predicate Left(o: TxOutcome, isExit: bool, i: Idx, declared: nat, before: map<Idx, Account>)
      reads `exits
    {
      && o.exitIdx == (if isExit then Some(i) else None)
      && LeafLeft(o.leaf, if isExit then declared else 0, i, before)
    }

    // ---- recording for the circuit ----

    ghost function RecordFrame(): set<object>
      reads `zki
    {
      if zki == null then {} else {zki.metadata, zki.isOutIdx, zki.isStateRoot, zki.isExitRoot, zki.isAccFeeOut}
    }

    ghost predicate Recording()
      reads `zki, if zki == null then {} else {zki.metadata}
    {
      zki != null && Usable(zki, cfg)
    }

    ghost function View(): Trace
      reads `zki, RecordFrame()
    {
      if zki == null then Trace([], [], [], []) else zki.View()
    }

    ghost function Log(): Meta
      reads `zki, RecordFrame()
    {
      if zki == null then Meta(0, [], []) else zki.Log()
    }

    // The last index, the state root and the exit root as they are now.
    method Current() returns (outIdx: Idx, root: Root, exitRoot: Root)
      requires Ready()
      ensures outIdx == state.led.currentIdx
      ensures root == AccountsRoot(state.led.accounts) && exitRoot == AccountsRoot(exits)
    {
      outIdx := state.CurrentIdx();
      root := state.StateRoot();
      exitRoot := ExitRoot();
    }

    // The state after the transaction. The exit root of an exit is recorded with its leaf only; for
    // a coordinator transaction it is always recorded.
    method RecordState(k: nat, o: TxOutcome, always: bool)
      requires Ready() && Recording() && k < cfg.maxTx - 1
      modifies zki.isOutIdx, zki.isStateRoot, zki.isExitRoot
      ensures Ready() && St() == old(St()) && Recording() && Log() == old(Log())
      ensures View() == AfterTx(old(View()), k, St(), always || o.exitIdx.None? || o.leaf.Some?)
    {
      hide Ready, Put;
      var outIdx, root, exitRoot := Current();
      zki.SetState(k, outIdx, root, if always || o.exitIdx.None? || o.leaf.Some? then Some(exitRoot) else None);
    }

    // What the first two loops of ProcessTxs record for an L1 transaction.
    method RecordL1(tx: L1Tx, o: TxOutcome, coordinator: bool) returns (e: Option<Error>)
      requires Ready() && Recording() && txIndex < cfg.maxTx - 1
      modifies zki.metadata, zki.isOutIdx, zki.isStateRoot, zki.isExitRoot
      ensures Ready() && St() == old(St())
      ensures e.None? <==> InputsL1(tx)
      ensures e.None? ==> Recording() && Log() == LoggedL1(old(Log()), tx, state.led.currentIdx)
      ensures e.None? ==>
        View() == AfterTx(old(View()), txIndex, St(), coordinator || o.exitIdx.None? || o.leaf.Some?)
    {
      hide Ready;
      if CreatesAccount(tx.typ) {
        var outIdx, _, _ := Current();
        zki.metadata.newLastIdxRaw := outIdx;
      }
      e := zki.LogL1(tx);
      if e.None? {
        RecordState(txIndex, o, coordinator);
      }
    }

    // What follows ProcessL1Tx in the loops: the record that is left in the array, and the circuit's.
    method FinishL1(txs: array<L1Tx>, k: nat, o: TxOutcome, coordinator: bool) returns (e: Option<Error>)
      requires Ready() && Modal() && k < txs.Length
      requires zki != null ==> Recording() && txIndex < cfg.maxTx - 1
      modifies txs, RecordFrame()
      ensures Ready() && St() == old(St())
      ensures txs[..] == old(txs[..])[k := LeftL1(state.mode, old(txs[k]), o.created, state.led.currentIdx)]
      ensures e.None? <==> zki == null || InputsL1(old(txs[k]))
      ensures e.None? && zki != null ==> Recording() && Log() == LoggedL1(old(Log()), old(txs[k]), state.led.currentIdx)
      ensures e.None? && zki != null ==>
        View() == AfterTx(old(View()), txIndex, St(), coordinator || o.exitIdx.None? || o.leaf.Some?)
    {
      if state.mode.Synchronizer? {
        txs[k] := txs[k].(effectiveFromIdx := if o.created.Some? then state.CurrentIdx() else txs[k].fromIdx);
        e := None;
      } else {
        e := RecordL1(txs[k], o, coordinator);
      }
    }

    // One round of the first two loops of ProcessTxs: process the transaction, then record it.
    method RoundL1(txs: array<L1Tx>, k: nat, coordinator: bool) returns (r: Result<TxOutcome>)
      requires Ready() && Modal() && k < txs.Length
      requires zki != null ==> Recording() && txIndex < cfg.maxTx - 1
      modifies txs, this`updated, this`stored, state`led, state.kv`currentIdx, state.kv.db, exitTree, this`exits
      modifies RecordFrame()
      ensures r.Ok? <==> RecordedL1(state.mode, old(St()), old(txs[k])).Ok?
      ensures r.Ok? ==> Ready() && (St(), r.value.created) == ProcessedL1(state.mode, old(St()), old(txs[k])).value
      ensures r.Ok? ==> txs[..] == old(txs[..])[k := RecordedL1(state.mode, old(St()), old(txs[k])).value]
      ensures r.Ok? ==> Left(r.value, txs[k].typ == TypeForceExit, txs[k].fromIdx, txs[k].amount, old(exits))
      ensures r.Ok? && zki != null ==> Recording() && Log() == LoggedL1(old(Log()), txs[k], state.led.currentIdx)
      ensures r.Ok? && zki != null ==> View() == AfterTx(old(View()), txIndex, St(), coordinator || !QuietL1(txs[k]))
    {
      hide Ready, Recording, ProcessedL1, LoggedL1, AfterTx, Prepared;
      var o :- ProcessL1Tx(txs, k);
      var e := FinishL1(txs, k, o, coordinator);
      if e.Some? {
        return Err(e.value);
      }
      r := Ok(o);
    }

    method StepL1(txs: array<L1Tx>, k: nat, coordinator: bool) returns (r: Result<TxOutcome>)
      requires Ready() && Modal() && k < txs.Length
      requires zki != null ==> Recording() && txIndex < cfg.maxTx - 1
      modifies txs, this`updated, this`stored, state`led, state.kv`currentIdx, state.kv.db, exitTree, this`exits
      modifies RecordFrame()
      ensures r.Ok? <==> RunOneL1(state.mode, old(St()), old(txs[k])).Ok?
      ensures r.Ok? ==> Ready() && (St(), txs[k]) == RunOneL1(state.mode, old(St()), old(txs[k])).value
      ensures r.Ok? ==> txs[..] == old(txs[..])[k := txs[k]]
      ensures r.Ok? ==> EntryOf(r.value) == EntryFor(old(exits), exits, ExitsL1(txs[k]), txs[k].fromIdx)
      ensures r.Ok? ==> Fetched(r.value.created, state.mode, txs[k], state.led)
      ensures r.Ok? && zki != null ==> Recording() && Log() == LoggedL1(old(Log()), txs[k], state.led.currentIdx)
      ensures r.Ok? && zki != null ==> View() == AfterTx(old(View()), txIndex, St(), coordinator || !QuietL1(txs[k]))
    {
      hide Ready, Recording, RunOneL1, LoggedL1, AfterTx;
      RunOneL1Is(state.mode, St(), txs[k]);
      r := RoundL1(txs, k, coordinator);
    }

    // ---- the loops ----

    ghost function NowL1(txs: array<L1Tx>, exitList: array<ProcessedExit>, created: seq<NewAccount>): ProgressL1
      reads `accumulated, `collected, `exits, state`led, txs, exitList, `zki, RecordFrame()
    {
      ProgressL1(St(), txs[..], exitList[..], created, Log(), View())
    }

    method KeepCreated(o: TxOutcome, created: seq<NewAccount>) returns (r: seq<NewAccount>)
      requires Ready()
      ensures r == created + if o.created.Some? then [NewAccount(state.led.currentIdx, o.created.value)] else []
    {
      r := created;
      if o.created.Some? {
        r := r + [NewAccount(state.CurrentIdx(), o.created.value)];
      }
    }

    // What a round does with the outcome: note the created account and the exit, and count.
    method KeepBooks(o: TxOutcome, exitList: array<ProcessedExit>, created: seq<NewAccount>)
      returns (r: seq<NewAccount>)
      requires Ready() && txIndex < exitList.Length && (zki != null ==> Recording())
      modifies exitList, this`txIndex
      ensures Ready() && St() == old(St()) && txIndex == old(txIndex) + 1
      ensures zki != null ==> Recording()
      ensures Log() == old(Log()) && View() == old(View())
      ensures r == created + if o.created.Some? then [NewAccount(state.led.currentIdx, o.created.value)] else []
      ensures exitList[..] == WithEntry(old(exitList[..]), old(txIndex), EntryOf(o))
    {
      r := KeepCreated(o, created);
      if o.exitIdx.Some? && o.leaf.Some? {
        exitList[txIndex] := Exited(o.leaf.value.1, o.exitIdx.value, o.leaf.value.0);
      }
      txIndex := txIndex + 1;
    }

    // One round of the loop over user transactions.
    method RoundUser(txs: array<L1Tx>, k: nat, exitList: array<ProcessedExit>, created: seq<NewAccount>)
      returns (r: Result<seq<NewAccount>>)
      requires Ready() && Modal() && k < txs.Length && txIndex < exitList.Length
      requires zki != null ==> Recording() && txIndex < cfg.maxTx - 1
      modifies txs, exitList, this`txIndex
      modifies this`updated, this`stored, state`led, state.kv`currentIdx, state.kv.db, exitTree, this`exits
      modifies RecordFrame()
      ensures r.Ok? <==> AfterRoundL1(state.mode, old(txIndex), false, old(NowL1(txs, exitList, created)), k).Ok?
      ensures r.Ok? ==> Ready() && (zki != null ==> Recording()) && txIndex == old(txIndex) + 1
      ensures r.Ok? ==> (NowL1(txs, exitList, r.value)
        == AfterRoundL1(state.mode, old(txIndex), false, old(NowL1(txs, exitList, created)), k).value)
    {
      hide RunOneL1, Ready, Recording, EntryFor, LoggedL1, AfterTx, ExitsL1, QuietL1, CreatesAccount;
      var o :- StepL1(txs, k, false);
      var created' := KeepBooks(o, exitList, created);
      r := Ok(created');
    }

    // The loop over user transactions.
    method ProcessL1UserTxs(txs: array<L1Tx>, exitList: array<ProcessedExit>) returns (r: Result<seq<NewAccount>>)
      requires Ready() && Modal() && txIndex + txs.Length <= exitList.Length
      requires zki != null ==> Recording() && txIndex + txs.Length <= cfg.maxTx - 1
      modifies txs, exitList, this`txIndex
      modifies this`updated, this`stored, state`led, state.kv`currentIdx, state.kv.db, exitTree, this`exits
      modifies RecordFrame()
      ensures r.Ok? <==>
        Fold(RoundsL1(state.mode, old(txIndex), false), old(NowL1(txs, exitList, [])), txs.Length).Ok?
      ensures r.Ok? ==> Ready() && (zki != null ==> Recording()) && txIndex == old(txIndex) + txs.Length
      ensures r.Ok? ==> (NowL1(txs, exitList, r.value)
        == Fold(RoundsL1(state.mode, old(txIndex), false), old(NowL1(txs, exitList, [])), txs.Length).value)
    {
      hide Ready, Recording, AfterRoundL1;
      ghost var rounds := RoundsL1(state.mode, txIndex, false);
      ghost var was := NowL1(txs, exitList, []);
      var created: seq<NewAccount> := [];
      for i := 0 to txs.Length
        invariant Ready() && (zki != null ==> Recording()) && txIndex == old(txIndex) + i
        invariant Fold(rounds, was, i) == Ok(NowL1(txs, exitList, created))
      {
        var next := RoundUser(txs, i, exitList, created);
        if next.Err? {
          FoldFails(rounds, was, i + 1, txs.Length);
          return Err(next.error);
        }
        created := next.value;
      }
      r := Ok(created);
    }

    // Only the builder counts coordinator transactions.
    method Count()
      requires Ready() && (zki != null ==> Recording())
      modifies this`txIndex
      ensures Ready() && (zki != null ==> Recording()) && St() == old(St())
      ensures Log() == old(Log()) && View() == old(View())
      ensures txIndex == old(txIndex) + if zki != null then 1 else 0
    {
      hide Ready, Recording;
      if zki != null {
        txIndex := txIndex + 1;
      }
    }

    // One round of the loop over coordinator transactions.
    method RoundCoordinator(txs: array<L1Tx>, k: nat, at: nat, ghost exitList: array<ProcessedExit>,
                            created: seq<NewAccount>) returns (r: Result<seq<NewAccount>>)
      requires Ready() && Modal() && k < txs.Length
      requires zki != null ==> Recording() && txIndex == at < cfg.maxTx - 1
      modifies txs, this`txIndex
      modifies this`updated, this`stored, state`led, state.kv`currentIdx, state.kv.db, exitTree, this`exits
      modifies RecordFrame()
      ensures r.Ok? <==> AfterRoundL1(state.mode, at, true, old(NowL1(txs, exitList, created)), k).Ok?
      ensures r.Ok? ==> Ready() && (zki != null ==> Recording())
      ensures r.Ok? ==> txIndex == old(txIndex) + if zki != null then 1 else 0
      ensures r.Ok? ==> (NowL1(txs, exitList, r.value)
        == AfterRoundL1(state.mode, at, true, old(NowL1(txs, exitList, created)), k).value)
    {
      hide RunOneL1, Ready, Recording, EntryFor, LoggedL1, AfterTx, ExitsL1, QuietL1, CreatesAccount;
      var o :- StepL1(txs, k, true);
      var created' := KeepCreated(o, created);
      Count();
      r := Ok(created');
    }

    // The loop over coordinator transactions.
    method ProcessL1CoordinatorTxs(txs: array<L1Tx>, ghost exitList: array<ProcessedExit>, before: seq<NewAccount>)
      returns (r: Result<seq<NewAccount>>)
      requires Ready() && Modal()
      requires zki != null ==> Recording() && txIndex + txs.Length <= cfg.maxTx - 1
      modifies txs, this`txIndex
      modifies this`updated, this`stored, state`led, state.kv`currentIdx, state.kv.db, exitTree, this`exits
      modifies RecordFrame()
      ensures r.Ok? <==>
        Fold(RoundsL1(state.mode, old(txIndex), true), old(NowL1(txs, exitList, before)), txs.Length).Ok?
      ensures r.Ok? ==> Ready() && (zki != null ==> Recording())
      ensures r.Ok? ==> txIndex == old(txIndex) + if zki != null then txs.Length else 0
      ensures r.Ok? ==> (NowL1(txs, exitList, r.value)
        == Fold(RoundsL1(state.mode, old(txIndex), true), old(NowL1(txs, exitList, before)), txs.Length).value)
    {
      hide Ready, Recording, AfterRoundL1;
      ghost var base := txIndex;
      ghost var rounds := RoundsL1(state.mode, base, true);
      ghost var was := NowL1(txs, exitList, before);
      var created := before;
      for i := 0 to txs.Length
        invariant Ready() && (zki != null ==> Recording())
        invariant txIndex == base + if zki != null then i else 0
        invariant Fold(rounds, was, i) == Ok(NowL1(txs, exitList, created))
      {
        var next := RoundCoordinator(txs, i, txIndex + if zki != null then 0 else i, exitList, created);
        if next.Err? {
          FoldFails(rounds, was, i + 1, txs.Length);
          return Err(next.error);
        }
        created := next.value;
      }
      r := Ok(created);
    }

    // ---- one L2 transaction ----

    // A receiver given by address only is looked up, and written into the transaction.
    method ResolveL2(txs: array<PoolL2Tx>, k: nat) returns (e: Option<Error>)
      requires Ready() && k < txs.Length
      modifies txs
      ensures Ready() && St() == old(St())
      ensures e.None? <==> Resolve(state.mode, state.led, old(txs[k])).Ok?
      ensures e.None? ==> txs[..] == old(txs[..])[k := Resolve(state.mode, state.led, old(txs[k])).value]
    {
      if txs[k].toIdx != 0 || txs[k].auxToIdx != 0 {
        return None;
      }
      if state.mode.Synchronizer? {
        return Some(ToIdxZero);
      }
      var accSender := state.GetAccount(txs[k].fromIdx);
      if accSender.Err? {
        return Some(accSender.error);
      }
      var i := state.GetIdxByEthAddrBJJ(txs[k].toEthAddr, txs[k].toBJJ, accSender.value.tokenID);
      if i.Err? {
        return Some(i.error);
      }
      txs[k] := txs[k].(auxToIdx := i.value);
      e := None;
    }

    // The synchronizer fills in nonce and token; the builder needs everything in the circuit's range.
    method StampL2(txs: array<PoolL2Tx>, k: nat) returns (e: Option<Error>)
      requires Ready() && Modal() && k < txs.Length
      modifies txs
      ensures Ready() && St() == old(St())
      ensures e.None? <==> StampedL2(state.mode, state.led, old(txs[k])).Ok?
      ensures e.None? ==> txs[..] == old(txs[..])[k := StampedL2(state.mode, state.led, old(txs[k])).value]
    {
      if zki != null && !InputsBeforeL2(txs[k]) {
        return Some(Malformed);
      }
      if state.mode.Synchronizer? {
        var acc := state.GetAccount(txs[k].fromIdx);
        if acc.Err? {
          return Some(acc.error);
        }
        txs[k] := txs[k].(nonce := acc.value.nonce, tokenID := acc.value.tokenID);
      }
      e := None;
    }

    // The switch of ProcessL2Tx.
    method ExecuteL2(coordOf: map<TokenID, Idx>, tx: PoolL2Tx) returns (r: Result<TxOutcome>)
      requires Ready()
      modifies this`accumulated, this`collected, this`updated, this`stored, state`led, state.kv.db
      modifies exitTree, this`exits
      ensures r.Ok? <==> ApplyL2(cfg.fees, coordOf, old(St()), tx).Ok?
      ensures r.Ok? ==> Ready() && St() == ApplyL2(cfg.fees, coordOf, old(St()), tx).value
      ensures r.Ok? ==> r.value.created.None? && Left(r.value, tx.typ == TypeExit, tx.fromIdx, tx.amount, old(exits))
    {
      if IsTransfer(tx.typ) {
        var e := ApplyTransferL2(coordOf, tx.fromIdx, tx.toIdx, tx.amount, tx.fee, tx.auxToIdx);
        if e.Some? {
          return Err(e.value);
        }
      } else if tx.typ == TypeExit {
        var leaf :- ApplyExitL2(coordOf, tx.fromIdx, tx.amount, tx.fee);
        return Ok(TxOutcome(Some(tx.fromIdx), leaf, None));
      }
      r := Ok(TxOutcome(None, None, None));
    }

    ghost predicate PlanOK(plan: PlanL2, nTx: nat, n: nat)
      reads `zki, RecordFrame(), if zki == null then {} else {zki.feePlanTokens}
    {
      && plan.fees == cfg.fees && plan.nTx == nTx
      && (zki != null ==>
            Recording() && nTx <= cfg.maxTx && n <= cfg.maxFeeTx && plan.n == n && plan.tokens == zki.feePlanTokens[..])
    }

    // ProcessL2Tx on the transaction in place
    method ProcessL2Tx(coordOf: map<TokenID, Idx>, txs: array<PoolL2Tx>, k: nat, ghost nTx: nat, ghost n: nat,
                       ghost plan: PlanL2) returns (r: Result<TxOutcome>)
      requires Ready() && Modal() && k < txs.Length
      requires PlanOK(plan, nTx, n)
      modifies txs, this`accumulated, this`collected, this`updated, this`stored, state`led, state.kv.db
      modifies exitTree, this`exits
      ensures PlanOK(plan, nTx, n) && View() == old(View()) && Log() == old(Log())
      ensures r.Ok? <==> ProcessedL2(state.mode, cfg.fees, coordOf, old(St()), old(txs[k])).Ok?
      ensures r.Ok? ==>
        Ready() && (St(), txs[k]) == ProcessedL2(state.mode, cfg.fees, coordOf, old(St()), old(txs[k])).value
      ensures r.Ok? ==> txs[..] == old(txs[..])[k := txs[k]]
      ensures r.Ok? ==> r.value.created.None?
      ensures r.Ok? ==> Left(r.value, txs[k].typ == TypeExit, txs[k].fromIdx, txs[k].amount, old(exits))
    {
      hide Ready, ApplyL2, Left, InputsBeforeL2, Resolve, Stamp;
      ghost var was := txs[..];
      var e := ResolveL2(txs, k);
      if e.Some? {
        return Err(e.value);
      }
      ghost var tx1 := Resolve(state.mode, state.led, was[k]).value;
      assert txs[k] == tx1;
      e := StampL2(txs, k);
      if e.Some? {
        return Err(e.value);
      }
      ghost var tx2 := StampedL2(state.mode, state.led, tx1).value;
      assert txs[k] == tx2;
      WrittenTwice(was, k, tx1, tx2);
      r := ExecuteL2(coordOf, txs[k]);
    }

    // The accumulated fees after the transaction.
    method RecordFees(k: nat, n: nat)
      requires Ready() && Recording() && k < cfg.maxTx - 1 && n <= cfg.maxFeeTx
      modifies zki.isAccFeeOut
      ensures Ready() && St() == old(St()) && Recording() && Log() == old(Log())
      ensures View() == old(View()).(
        accFee := Put(old(View()).accFee, k, FormatFees(collected, zki.feePlanTokens[..], n)))
    {
      hide Ready;
      var fees := FormatAccumulatedFees(collected, zki.feePlanTokens, n);
      zki.SetAccFee(k, fees);
    }

    method RecordExitRoot(k: nat)
      requires Ready() && Recording()
      modifies zki.isExitRoot
      ensures Ready() && St() == old(St()) && Recording() && Log() == old(Log())
      ensures View() == old(View()).(exitRoot := Put(old(View()).exitRoot, k, AccountsRoot(exits)))
    {
      var root := ExitRoot();
      hide Ready;
      zki.SetExitRoot(k, root);
    }

    // What the L2 loop records for a transaction: its bytes, then the intermediate state.
    method RecordL2(tx: PoolL2Tx, o: TxOutcome, nTx: nat, n: nat, ghost plan: PlanL2) returns (e: Option<Error>)
      requires Ready() && zki != null && PlanOK(plan, nTx, n)
      requires (o.exitIdx.None? || o.leaf.Some? <==> !QuietL2(tx)) && (o.leaf.Some? <==> ExitsL2(tx))
      modifies RecordFrame()
      ensures Ready() && St() == old(St())
      ensures e.None? <==> Forged(tx).fromIdx <= MAX_IDX && Forged(tx).toIdx <= MAX_IDX && Float40.Encode(tx.amount).Ok?
      ensures e.None? ==> PlanOK(plan, nTx, n) && Log() == old(Log()).(l2 := old(Log()).l2 + [Forged(tx)])
      ensures e.None? ==> View() == AfterL2(old(View()), txIndex, plan, St(), tx)
    {
      assert Forged(tx).amount == tx.amount;
      hide Ready, Forged, QuietL2, ExitsL2, AfterL2;
      e := LogL2(Forged(tx));
      if e.None? {
        RecordL2State(tx, o, nTx, n, plan);
      }
    }

    method RecordL2State(ghost tx: PoolL2Tx, o: TxOutcome, nTx: nat, n: nat, ghost plan: PlanL2)
      requires Ready() && zki != null && PlanOK(plan, nTx, n)
      requires (o.exitIdx.None? || o.leaf.Some? <==> !QuietL2(tx)) && (o.leaf.Some? <==> ExitsL2(tx))
      modifies zki.isOutIdx, zki.isStateRoot, zki.isExitRoot, zki.isAccFeeOut
      ensures Ready() && St() == old(St()) && PlanOK(plan, nTx, n) && Log() == old(Log())
      ensures View() == AfterL2(old(View()), txIndex, plan, St(), tx)
    {
      hide Ready, QuietL2, ExitsL2, FormatFees, Put;
      if txIndex + 1 < nTx {
        RecordState(txIndex, o, false);
        RecordFees(txIndex, n);
      } else if o.leaf.Some? {
        RecordExitRoot(txIndex);
      }
    }

    method LogL2(tx: L2Tx) returns (e: Option<Error>)
      requires Ready() && Recording()
      modifies zki.metadata
      ensures Ready() && St() == old(St()) && View() == old(View())
      ensures e.None? <==> tx.fromIdx <= MAX_IDX && tx.toIdx <= MAX_IDX && Float40.Encode(tx.amount).Ok?
      ensures e.None? ==> Recording() && Log() == old(Log()).(l2 := old(Log()).l2 + [tx])
    {
      hide Ready;
      e := zki.LogL2(tx);
    }

    // One round of the L2 loop, up to the records for the circuit.
    method StepL2(coordOf: map<TokenID, Idx>, txs: array<PoolL2Tx>, k: nat, nTx: nat, n: nat, ghost plan: PlanL2)
      returns (r: Result<TxOutcome>)
      requires Ready() && Modal() && k < txs.Length && PlanOK(plan, nTx, n) && plan.coordOf == coordOf
      modifies txs, this`accumulated, this`collected, this`updated, this`stored, state`led, state.kv.db
      modifies exitTree, this`exits, RecordFrame()
      ensures r.Ok? <==> RunOneL2(state.mode, cfg.fees, coordOf, old(St()), old(txs[k])).Ok?
      ensures r.Ok? ==> Ready() && PlanOK(plan, nTx, n)
      ensures r.Ok? ==> (St(), txs[k]) == RunOneL2(state.mode, cfg.fees, coordOf, old(St()), old(txs[k])).value
      ensures r.Ok? ==> txs[..] == old(txs[..])[k := txs[k]]
      ensures r.Ok? ==> EntryOf(r.value) == EntryFor(old(exits), exits, ExitsL2(txs[k]), txs[k].fromIdx)
      ensures r.Ok? ==> r.value.created.None?
      ensures r.Ok? && zki != null ==> Log() == old(Log()).(l2 := old(Log()).l2 + [Forged(txs[k])])
      ensures r.Ok? && zki != null ==> View() == AfterL2(old(View()), txIndex, plan, St(), txs[k])
    {
      hide Ready, RunOneL2, ProcessedL2, AfterL2, Forged, PlanOK;
      RunOneL2Is(state.mode, cfg.fees, coordOf, St(), txs[k]);
      var o :- ProcessL2Tx(coordOf, txs, k, nTx, n, plan);
      if zki != null {
        ghost var now := txs[..];
        var e := RecordL2(txs[k], o, nTx, n, plan);
        assert txs[..] == now;
        if e.Some? {
          return Err(e.value);
        }
      }
      r := Ok(o);
    }

    ghost function NowL2(txs: array<PoolL2Tx>, exitList: array<ProcessedExit>): ProgressL2
      reads `accumulated, `collected, `exits, state`led, txs, exitList, `zki, RecordFrame()
    {
      ProgressL2(St(), txs[..], exitList[..], Log(), View())
    }

    method KeepExit(o: TxOutcome, exitList: array<ProcessedExit>, ghost nTx: nat, ghost n: nat, ghost plan: PlanL2)
      requires Ready() && PlanOK(plan, nTx, n) && txIndex < exitList.Length
      modifies exitList, this`txIndex
      ensures Ready() && PlanOK(plan, nTx, n) && St() == old(St()) && txIndex == old(txIndex) + 1
      ensures Log() == old(Log()) && View() == old(View())
      ensures exitList[..] == WithEntry(old(exitList[..]), old(txIndex), EntryOf(o))
    {
      hide Ready;
      if o.exitIdx.Some? && o.leaf.Some? {
        exitList[txIndex] := Exited(o.leaf.value.1, o.exitIdx.value, o.leaf.value.0);
      }
      txIndex := txIndex + 1;
    }

    // One round of the L2 loop.
    method RoundL2(coordOf: map<TokenID, Idx>, txs: array<PoolL2Tx>, k: nat, exitList: array<ProcessedExit>, nTx: nat,
                   n: nat, ghost plan: PlanL2) returns (e: Option<Error>)
      requires Ready() && Modal() && k < txs.Length && PlanOK(plan, nTx, n) && plan.coordOf == coordOf
      requires plan.fees == cfg.fees && txIndex < exitList.Length
      modifies txs, exitList, this`txIndex
      modifies this`accumulated, this`collected, this`updated, this`stored, state`led, state.kv.db
      modifies exitTree, this`exits, RecordFrame()
      ensures e.None? <==> AfterRoundL2(state.mode, plan, old(txIndex), old(NowL2(txs, exitList)), k).Ok?
      ensures e.None? ==> Ready() && PlanOK(plan, nTx, n) && txIndex == old(txIndex) + 1
      ensures e.None? ==> (NowL2(txs, exitList)
        == AfterRoundL2(state.mode, plan, old(txIndex), old(NowL2(txs, exitList)), k).value)
    {
      hide Ready, PlanOK, RunOneL2, EntryFor, AfterL2;
      var o := StepL2(coordOf, txs, k, nTx, n, plan);
      if o.Err? {
        return Some(o.error);
      }
      KeepExit(o.value, exitList, nTx, n, plan);
      e := None;
    }

    // The L2 loop.
    method ProcessL2Txs(coordOf: map<TokenID, Idx>, txs: array<PoolL2Tx>, exitList: array<ProcessedExit>, nTx: nat,
                        n: nat, ghost plan: PlanL2) returns (e: Option<Error>)
      requires Ready() && Modal() && PlanOK(plan, nTx, n) && plan.coordOf == coordOf
      requires plan.fees == cfg.fees && txIndex + txs.Length <= exitList.Length
      modifies txs, exitList, this`txIndex
      modifies this`accumulated, this`collected, this`updated, this`stored, state`led, state.kv.db
      modifies exitTree, this`exits, RecordFrame()
      ensures e.None? <==>
        Fold(RoundsL2(state.mode, plan, old(txIndex)), old(NowL2(txs, exitList)), txs.Length).Ok?
      ensures e.None? ==> Ready() && PlanOK(plan, nTx, n) && txIndex == old(txIndex) + txs.Length
      ensures e.None? ==> (NowL2(txs, exitList)
        == Fold(RoundsL2(state.mode, plan, old(txIndex)), old(NowL2(txs, exitList)), txs.Length).value)
    {
      hide Ready, PlanOK, AfterRoundL2;
      ghost var rounds := RoundsL2(state.mode, plan, txIndex);
      ghost var was := NowL2(txs, exitList);
      for i := 0 to txs.Length
        invariant Ready() && PlanOK(plan, nTx, n) && txIndex == old(txIndex) + i
        invariant Fold(rounds, was, i) == Ok(NowL2(txs, exitList))
      {
        e := RoundL2(coordOf, txs, i, exitList, nTx, n, plan);
        if e.Some? {
          FoldFails(rounds, was, i + 1, txs.Length);
          return;
        }
      }
      e := None;
    }

    // ---- coordinator accounts ----

    // Of the coordinator accounts given, keep the first for each token.
    method FilterCoordIdxs(coordIdxs: seq<Idx>) returns (r: Result<seq<Idx>>)
      requires state.Valid()
      ensures r.Ok? <==> FilterCoords(state.led, coordIdxs).Ok?
      ensures r.Ok? ==> r.value == FilterCoords(state.led, coordIdxs).value.1 && |r.value| <= |coordIdxs|
    {
      var used: set<TokenID> := {};
      var filtered: seq<Idx> := [];
      for i := 0 to |coordIdxs|
        invariant FilterCoords(state.led, coordIdxs[..i]) == Ok((used, filtered)) && |filtered| <= i
      {
        assert coordIdxs[..i + 1][..i] == coordIdxs[..i];
        var accCoord := state.GetAccount(coordIdxs[i]);
        if accCoord.Err? {
          FilterFails(state.led, coordIdxs, i + 1);
          return Err(accCoord.error);
        }
        if accCoord.value.tokenID !in used {
          used := used + {accCoord.value.tokenID};
          filtered := filtered + [coordIdxs[i]];
        }
      }
      assert coordIdxs[..|coordIdxs|] == coordIdxs;
      r := Ok(filtered);
    }

    // Both totals start at zero.
    method OpenTotals(coordIdxs: seq<Idx>, coordOf: map<TokenID, Idx>)
      requires Ready()
      modifies this`accumulated, this`collected
      ensures Ready() && St() == OpenFees(old(St()), coordIdxs, coordOf)
    {
      hide Ready;
      accumulated := map[];
      for i := 0 to |coordIdxs|
        invariant Ready() && accumulated == map j | j in coordIdxs[..i] :: 0
        invariant collected == old(collected)
      {
        accumulated := accumulated[coordIdxs[i] := 0];
        assert coordIdxs[..i + 1] == coordIdxs[..i] + [coordIdxs[i]];
      }
      assert coordIdxs[..|coordIdxs|] == coordIdxs;
      collected := map t | t in coordOf :: 0;
    }

    // getFeePlanTokens
    method GetFeePlanTokens(coordIdxs: seq<Idx>) returns (r: Result<seq<TokenID>>)
      requires state.Valid()
      ensures r.Ok? <==> forall i :: 0 <= i < |coordIdxs| ==> state.led.Get(coordIdxs[i]).Ok?
      ensures r.Ok? ==> IsFeePlan(state.led, coordIdxs, r.value)
    {
      var tBI: seq<TokenID> := [];
      for i := 0 to |coordIdxs|
        invariant |tBI| == i && IsFeePlan(state.led, coordIdxs[..i], tBI)
        invariant forall j :: 0 <= j < i ==> state.led.Get(coordIdxs[j]).Ok?
      {
        var acc :- state.GetAccount(coordIdxs[i]);
        tBI := tBI + [acc.tokenID];
      }
      assert coordIdxs[..|coordIdxs|] == coordIdxs;
      r := Ok(tBI);
    }

    method CopyTokens(tokens: seq<TokenID>)
      requires Ready() && Recording() && |tokens| <= cfg.maxFeeTx
      modifies zki.feePlanTokens
      ensures Ready() && Recording() && Log() == old(Log()) && View() == old(View())
      ensures forall i :: 0 <= i < |tokens| ==> zki.feePlanTokens[i] == tokens[i]
      ensures forall i :: |tokens| <= i < cfg.maxFeeTx ==> zki.feePlanTokens[i] == old(zki.feePlanTokens[i])
    {
      hide Ready;
      for i := 0 to |tokens|
        invariant Ready() && Recording() && Log() == old(Log()) && View() == old(View())
        invariant forall j :: 0 <= j < i ==> zki.feePlanTokens[j] == tokens[j]
        invariant forall j :: i <= j < cfg.maxFeeTx ==> zki.feePlanTokens[j] == old(zki.feePlanTokens[j])
      {
        zki.feePlanTokens[i] := tokens[i];
      }
    }

    // ---- after the loops ----

    ghost function FeeFrame(): set<object>
      reads `zki
    {
      if zki == null then {} else {zki, zki.isStateRootFee, zki.isFinalAccFee, zki.feeIdxs}
    }

    ghost function Fees(): FeeTrace
      reads `zki, FeeFrame()
    {
      if zki == null then FeeTrace(ZERO_ROOT, [], [], []) else zki.Payout()
    }

    // The slots from that of the last transaction on hold the final state of the transactions.
    method FillSlots(n: nat)
      requires Ready() && Recording() && n <= cfg.maxFeeTx
      modifies zki.isOutIdx, zki.isStateRoot, zki.isExitRoot, zki.isAccFeeOut
      ensures Ready() && Recording() && St() == old(St()) && Log() == old(Log())
      ensures View() == Filled(old(View()), if txIndex == 0 then 0 else txIndex - 1, St(),
                               FormatFees(collected, zki.feePlanTokens[..], n))
    {
      hide Ready, FillFrom, FormatFees;
      var outIdx, root, exitRoot := Current();
      var last := if txIndex == 0 then 0 else txIndex - 1;
      var fees := FormatAccumulatedFees(collected, zki.feePlanTokens, n);
      zki.Fill(last, outIdx, root, exitRoot, fees);
    }

    // A coordinator account is credited what was accumulated for it.
    method PayCoordinator(idx: Idx) returns (e: Option<Error>)
      requires Ready()
      modifies this`updated, this`stored, state`led, state.kv.db
      ensures e.None? <==> PayOne(old(state.led), idx, accumulated).Ok?
      ensures e.None? ==> Ready() && state.led == PayOne(old(state.led), idx, accumulated).value
    {
      var accCoord := GetAccount(idx);
      if accCoord.Err? {
        return Some(accCoord.error);
      }
      // a missing total would be dereferenced
      if idx !in accumulated {
        return Some(MissingFeeAccumulator);
      }
      e := Raise(idx, accCoord.value, accumulated[idx]);
    }

    // The payment leaves the records for the circuit alone.
    method PayQuietly(idx: Idx) returns (e: Option<Error>)
      requires Ready() && (zki != null ==> Recording())
      modifies this`updated, this`stored, state`led, state.kv.db
      ensures (zki != null ==> Recording()) && Fees() == old(Fees())
      ensures e.None? <==> PayOne(old(state.led), idx, accumulated).Ok?
      ensures e.None? ==> Ready() && state.led == PayOne(old(state.led), idx, accumulated).value
    {
      hide Ready, Recording, PayOne;
      e := PayCoordinator(idx);
    }

    // The state root after fee payment i, if there is a slot for it.
    method RecordFeeRoot(i: nat)
      requires Ready() && (zki != null ==> Recording())
      modifies if zki == null then {} else {zki.isStateRootFee}
      ensures Ready() && (zki != null ==> Recording()) && state.led == old(state.led)
      ensures Fees() == old(Fees()).(roots := Put(old(Fees()).roots, i, AccountsRoot(state.led.accounts)))
    {
      var root := state.StateRoot();
      hide Ready;
      if zki != null && i < zki.isStateRootFee.Length {
        zki.isStateRootFee[i] := root;
      }
    }

    method DistributeFees(coordIdxs: seq<Idx>) returns (e: Option<Error>)
      requires Ready() && (zki != null ==> Recording())
      modifies this`updated, this`stored, state`led, state.kv.db
      modifies if zki == null then {} else {zki.isStateRootFee}
      ensures e.None? <==> PayFees(old(state.led), coordIdxs, accumulated).Ok?
      ensures e.None? ==>
        Ready() && (zki != null ==> Recording()) && state.led == PayFees(old(state.led), coordIdxs, accumulated).value
      ensures e.None? ==>
        Fees() == old(Fees()).(roots := FeeRoots(old(Fees()).roots, old(state.led), coordIdxs, accumulated))
    {
      hide Ready, Recording, PayOne;
      for i := 0 to |coordIdxs|
        invariant Ready() && (zki != null ==> Recording())
        invariant PayFees(old(state.led), coordIdxs[..i], accumulated) == Ok(state.led)
        invariant Fees() == old(Fees()).(
          roots := FeeRoots(old(Fees()).roots, old(state.led), coordIdxs[..i], accumulated))
      {
        assert coordIdxs[..i + 1][..i] == coordIdxs[..i];
        e := PayQuietly(coordIdxs[i]);
        if e.Some? {
          PayFails(old(state.led), coordIdxs, accumulated, i + 1);
          return;
        }
        RecordFeeRoot(i);
      }
      assert coordIdxs[..|coordIdxs|] == coordIdxs;
      e := None;
    }

    // ---- the whole batch ----

    // A batch starts with nothing noted and an empty exit tree.
    method OpenExits()
      requires state.Valid()
      modifies this
      ensures Ready() && St() == Fresh(state.led) && start == state.led.accounts && fresh(exitTree)
      ensures zki == old(zki) && txIndex == old(txIndex)
    {
      updated, accumulated, collected := map[], map[], map[];
      exitTree := new Storage(EMPTY_SNAPSHOT);
      EmptyIsConsistent();
      exits, start, stored := map[], state.led.accounts, map[];
    }

    // The builder starts with blank circuit inputs.
    method OpenInputs()
      requires Ready() && zki == null && cfg.maxTx > 0 && cfg.maxFeeTx > 0 && LevelsOK(cfg.nLevels)
      modifies this`zki
      ensures Ready() && St() == old(St()) && zki != null && fresh(zki) && Recording()
      ensures fresh(RecordFrame()) && fresh(FeeFrame())
      ensures fresh(zki.feePlanTokens) && forall i :: 0 <= i < cfg.maxFeeTx ==> zki.feePlanTokens[i] == 0
      ensures zki.currentNumBatch == state.kv.currentBatch + 1
      ensures zki.oldLastIdx == state.led.currentIdx && zki.oldStateRoot == AccountsRoot(state.led.accounts)
      ensures Log() == Meta(state.led.currentIdx, [], []) && View() == Blank(cfg) && Fees() == BlankFees(cfg)
    {
      hide Ready;
      var outIdx, root, _ := Current();
      var z := new ZKInputs(cfg, state.CurrentBatch() + 1, outIdx, root);
      z.metadata.newLastIdxRaw := outIdx;
      RecordLenIs(cfg.nLevels);
      zki := z;
    }

    // What is known before the fees are paid.
    method OpenPayout(n: nat)
      requires Ready() && Recording() && n <= cfg.maxFeeTx
      modifies zki`isInitStateRootFee, zki.isFinalAccFee
      ensures Ready() && Recording() && St() == old(St()) && Log() == old(Log()) && View() == old(View())
      ensures Fees() == old(Fees()).(initRoot := AccountsRoot(state.led.accounts),
                                     finalFees := FormatFees(collected, zki.feePlanTokens[..], n))
    {
      hide Ready, FormatFees;
      var _, root, _ := Current();
      var fees := FormatAccumulatedFees(collected, zki.feePlanTokens, n);
      zki.OpenPayout(root, fees);
    }

    // What is left once the fees are paid: the unused slots, the accounts paid, and the final roots.
    method ClosePayout(coordIdxs: seq<Idx>)
      requires Ready() && Recording() && |coordIdxs| <= cfg.maxFeeTx
      modifies zki.isStateRootFee, zki.feeIdxs, zki.metadata
      ensures Ready() && Recording() && St() == old(St()) && Log() == old(Log()) && View() == old(View())
      ensures Fees() == old(Fees()).(
        roots := FillFrom(old(Fees()).roots, |accumulated|, AccountsRoot(state.led.accounts)),
        idxs := Overwrite(old(Fees()).idxs, coordIdxs))
      ensures zki.metadata.newStateRootRaw == AccountsRoot(state.led.accounts)
      ensures zki.metadata.newExitRootRaw == AccountsRoot(exits)
    {
      hide Ready, FillFrom, Overwrite;
      var _, root, exitRoot := Current();
      zki.ClosePayout(|accumulated|, root, coordIdxs);
      zki.metadata.newStateRootRaw := root;
      zki.metadata.newExitRootRaw := exitRoot;
    }

    // The exits of the batch: one entry per account in the order of first exits, with the balance
    // of its last one.
    method BuildExitInfos(exitList: array<ProcessedExit>) returns (infos: seq<ExitInfo>)
      ensures infos == InfosOf(exitList[..])
    {
      var exitIdxs: seq<Idx> := [];
      var byIdx: map<Idx, Account> := map[];
      for i := 0 to exitList.Length
        invariant (exitIdxs, byIdx) == Report(exitList[..i])
      {
        assert exitList[..i + 1][..i] == exitList[..i];
        if exitList[i].Exited? {
          var idx := exitList[i].idx;
          if idx !in byIdx {
            exitIdxs := exitIdxs + [idx];
          }
          byIdx := byIdx[idx := exitList[i].acc];
        }
      }
      assert exitList[..exitList.Length] == exitList[..];
      ReportOrder(exitList[..]);
      infos := [];
      for i := 0 to |exitIdxs|
        invariant infos == seq(i, k requires 0 <= k < i => ExitInfo(exitIdxs[k], byIdx[exitIdxs[k]].balance))
      {
        infos := infos + [ExitInfo(exitIdxs[i], byIdx[exitIdxs[i]].balance)];
      }
    }

    // Nothing is recorded yet about fees.
    ghost predicate FeesBlank()
      reads `zki, FeeFrame(), PlanFrame()
    {
      zki != null ==>
        && cfg.maxFeeTx > 0 && Fees() == BlankFees(cfg) && zki.feePlanTokens.Length == cfg.maxFeeTx
        && forall i :: 0 <= i < cfg.maxFeeTx ==> zki.feePlanTokens[i] == 0
    }

    ghost function PlanFrame(): set<object>
      reads `zki
    {
      if zki == null then {} else {zki.feePlanTokens}
    }

    // Either L1 loop leaves the other's transactions, and the records of the fees, alone.
    method UserLoop(txs: array<L1Tx>, exitList: array<ProcessedExit>, ghost others: array<L1Tx>)
      returns (r: Result<seq<NewAccount>>)
      requires Ready() && Modal() && txIndex + txs.Length <= exitList.Length && txs != others
      requires zki != null ==> Recording() && txIndex + txs.Length <= cfg.maxTx - 1
      requires FeesBlank()
      modifies txs, exitList, this`txIndex
      modifies this`updated, this`stored, state`led, state.kv`currentIdx, state.kv.db, exitTree, this`exits
      modifies RecordFrame()
      ensures others[..] == old(others[..])
      ensures r.Ok? <==>
        Fold(RoundsL1(state.mode, old(txIndex), false), old(NowL1(txs, exitList, [])), txs.Length).Ok?
      ensures r.Ok? ==> Ready() && (zki != null ==> Recording()) && txIndex == old(txIndex) + txs.Length
      ensures r.Ok? ==> (NowL1(txs, exitList, r.value)
        == Fold(RoundsL1(state.mode, old(txIndex), false), old(NowL1(txs, exitList, [])), txs.Length).value)
      ensures r.Ok? ==> FeesBlank()
    {
      hide Ready, Fold, RoundsL1, NowL1;
      r := ProcessL1UserTxs(txs, exitList);
    }

    method CoordinatorLoop(txs: array<L1Tx>, ghost exitList: array<ProcessedExit>, before: seq<NewAccount>,
                           ghost others: array<L1Tx>) returns (r: Result<seq<NewAccount>>)
      requires Ready() && Modal() && txs != others
      requires zki != null ==> Recording() && txIndex + txs.Length <= cfg.maxTx - 1
      requires FeesBlank()
      modifies txs, this`txIndex
      modifies this`updated, this`stored, state`led, state.kv`currentIdx, state.kv.db, exitTree, this`exits
      modifies RecordFrame()
      ensures others[..] == old(others[..])
      ensures r.Ok? <==>
        Fold(RoundsL1(state.mode, old(txIndex), true), old(NowL1(txs, exitList, before)), txs.Length).Ok?
      ensures r.Ok? ==> Ready() && (zki != null ==> Recording())
      ensures r.Ok? ==> txIndex == old(txIndex) + if zki != null then txs.Length else 0
      ensures r.Ok? ==> (NowL1(txs, exitList, r.value)
        == Fold(RoundsL1(state.mode, old(txIndex), true), old(NowL1(txs, exitList, before)), txs.Length).value)
      ensures r.Ok? ==> FeesBlank()
    {
      hide Ready, Fold, RoundsL1, NowL1;
      r := ProcessL1CoordinatorTxs(txs, exitList, before);
    }

    // The two L1 loops.
    method RunL1Loops(l1User: array<L1Tx>, l1Coord: array<L1Tx>, exitList: array<ProcessedExit>)
      returns (r: Result<seq<NewAccount>>)
      requires Ready() && Modal() && l1User != l1Coord && l1User.Length <= exitList.Length && txIndex == 0
      requires zki != null ==> Recording() && l1User.Length + l1Coord.Length <= cfg.maxTx - 1
      requires FeesBlank()
      modifies l1User, l1Coord, exitList, this`txIndex
      modifies this`updated, this`stored, state`led, state.kv`currentIdx, state.kv.db, exitTree, this`exits
      modifies RecordFrame()
      ensures r.Ok? <==> L1Run(state.mode, old(NowL1(l1User, exitList, [])), old(l1Coord[..])).Ok?
      ensures r.Ok? ==> Ready() && (zki != null ==> Recording()) && FeesBlank()
      ensures r.Ok? ==> txIndex == l1User.Length + if zki != null then l1Coord.Length else 0
      ensures r.Ok? ==> (
        var (user, coord) := L1Run(state.mode, old(NowL1(l1User, exitList, [])), old(l1Coord[..])).value;
        l1User[..] == user.txs && NowL1(l1Coord, exitList, r.value) == coord)
    {
      hide Ready, Recording, FeesBlank, Fold, RoundsL1;
      var created :- UserLoop(l1User, exitList, l1Coord);
      created :- CoordinatorLoop(l1Coord, exitList, created, l1User);
      r := Ok(created);
    }

    // getFeePlanTokens, copied into circuit inputs whose fee plan is still blank.
    method PlanFees(coordIdxs: seq<Idx>) returns (e: Option<Error>)
      requires Ready() && Recording() && |coordIdxs| <= cfg.maxFeeTx
      requires forall i :: 0 <= i < cfg.maxFeeTx ==> zki.feePlanTokens[i] == 0
      modifies zki.feePlanTokens
      ensures e.None? <==> forall i :: 0 <= i < |coordIdxs| ==> state.led.Get(coordIdxs[i]).Ok?
      ensures e.None? ==> Ready() && Recording() && St() == old(St()) && Log() == old(Log()) && View() == old(View())
      ensures e.None? ==> zki.feePlanTokens[..] == FeePlan(cfg, state.led, coordIdxs)
    {
      var tokens := GetFeePlanTokens(coordIdxs);
      if tokens.Err? {
        return Some(tokens.error);
      }
      hide Ready;
      CopyTokens(tokens.value);
      e := None;
    }

    // The coordinator accounts that count, their totals at zero, and the fee plan.
    method ChooseCoords(coordIdxs: seq<Idx>, nTx: nat)
      returns (r: Result<(seq<Idx>, map<TokenID, Idx>)>, ghost plan: PlanL2)
      requires Ready() && |coordIdxs| <= cfg.maxFeeTx
      requires FeesBlank() && (zki != null ==> Recording() && nTx <= cfg.maxTx)
      modifies this`accumulated, this`collected, PlanFrame()
      ensures r.Ok? <==> Coords(cfg, state.led, nTx, coordIdxs).Ok?
      ensures r.Ok? ==> Ready() && Coords(cfg, state.led, nTx, coordIdxs) == Ok((r.value.0, plan))
      ensures r.Ok? ==> St() == OpenFees(old(St()), r.value.0, r.value.1) && plan.coordOf == r.value.1
      ensures r.Ok? ==> PlanOK(plan, nTx, |r.value.0|) && Log() == old(Log()) && View() == old(View())
      ensures r.Ok? ==> |r.value.0| <= cfg.maxFeeTx && (zki != null ==> Fees() == BlankFees(cfg))
    {
      plan := PlanL2(cfg.fees, map[], nTx, [], 0);
      var filtered := FilterCoordIdxs(coordIdxs);
      if filtered.Err? {
        return Err(filtered.error), plan;
      }
      var coordOf := state.GetTokenIDsFromIdxs(filtered.value);
      if coordOf.Err? {
        return Err(coordOf.error), plan;
      }
      CoordMapFinds(state.led, filtered.value);
      hide Ready;
      OpenTotals(filtered.value, coordOf.value);
      if zki != null {
        var e := PlanFees(filtered.value);
        if e.Some? {
          return Err(NotFound), plan;
        }
      }
      plan := PlanL2(cfg.fees, coordOf.value, nTx, FeePlan(cfg, state.led, filtered.value), |filtered.value|);
      r := Ok((filtered.value, coordOf.value));
    }

    // What the circuit inputs record between the L2 loop and the fee payout.
    method RecordEnd(n: nat, nTx: nat, ghost plan: PlanL2)
      requires Ready() && zki != null && PlanOK(plan, nTx, n) && txIndex == nTx
      modifies zki.isOutIdx, zki.isStateRoot, zki.isExitRoot, zki.isAccFeeOut
      modifies zki`isInitStateRootFee, zki.isFinalAccFee
      ensures Ready() && PlanOK(plan, nTx, n) && St() == old(St()) && Log() == old(Log())
      ensures View() == Filled(old(View()), if nTx == 0 then 0 else nTx - 1, St(), FeesNow(plan, St()))
      ensures Fees() == old(Fees()).(initRoot := AccountsRoot(state.led.accounts), finalFees := FeesNow(plan, St()))
    {
      hide Ready, Filled, FormatFees;
      FillSlots(n);
      OpenPayout(n);
    }

    // The fee payout, with what the circuit inputs record before and after it.
    method PayAndRecord(coordIdxs: seq<Idx>, nTx: nat, ghost plan: PlanL2) returns (e: Option<Error>)
      requires Ready() && Modal() && PlanOK(plan, nTx, |coordIdxs|) && |coordIdxs| <= cfg.maxFeeTx
      requires zki != null ==> txIndex == nTx && Fees() == BlankFees(cfg)
      modifies this`updated, this`stored, state`led, state.kv.db, RecordFrame(), FeeFrame()
      ensures e.None? <==> PayFees(old(state.led), coordIdxs, accumulated).Ok?
      ensures e.None? ==> Ready() && PlanOK(plan, nTx, |coordIdxs|) && Log() == old(Log())
      ensures e.None? ==> St() == old(St()).(led := PayFees(old(state.led), coordIdxs, accumulated).value)
      ensures e.None? ==> View() == EndView(state.mode, old(View()), nTx, plan, old(St()))
      ensures e.None? && zki != null ==> Fees() == FinalFees(cfg, plan, old(St()), coordIdxs, state.led)
      ensures e.None? && zki != null ==> (
        && zki.metadata.newStateRootRaw == AccountsRoot(state.led.accounts)
        && zki.metadata.newExitRootRaw == AccountsRoot(exits))
    {
      hide Ready, Filled, FillFrom, Overwrite, FeesNow, FeeRoots, PayFees, FormatFees, Usable, BlankFees;
      if zki != null {
        RecordEnd(|coordIdxs|, nTx, plan);
      }
      e := Distribute(coordIdxs);
      if e.Some? {
        return;
      }
      if zki != null {
        ClosePayout(coordIdxs);
      }
    }

    // The L2 loop leaves the records of the payout alone.
    method L2Loop(coordOf: map<TokenID, Idx>, txs: array<PoolL2Tx>, exitList: array<ProcessedExit>, nTx: nat, n: nat,
                  ghost plan: PlanL2) returns (e: Option<Error>)
      requires Ready() && Modal() && PlanOK(plan, nTx, n) && plan.coordOf == coordOf
      requires plan.fees == cfg.fees && txIndex + txs.Length <= exitList.Length
      modifies txs, exitList, this`txIndex
      modifies this`accumulated, this`collected, this`updated, this`stored, state`led, state.kv.db
      modifies exitTree, this`exits, RecordFrame()
      ensures e.None? <==>
        Fold(RoundsL2(state.mode, plan, old(txIndex)), old(NowL2(txs, exitList)), txs.Length).Ok?
      ensures e.None? ==> Ready() && PlanOK(plan, nTx, n) && txIndex == old(txIndex) + txs.Length
      ensures e.None? ==> (NowL2(txs, exitList)
        == Fold(RoundsL2(state.mode, plan, old(txIndex)), old(NowL2(txs, exitList)), txs.Length).value)
      ensures Fees() == old(Fees())
    {
      hide Ready, Fold, RoundsL2, NowL2;
      e := ProcessL2Txs(coordOf, txs, exitList, nTx, n, plan);
    }

    // The payout leaves the other records alone.
    method Distribute(coordIdxs: seq<Idx>) returns (e: Option<Error>)
      requires Ready() && (zki != null ==> Recording())
      modifies this`updated, this`stored, state`led, state.kv.db
      modifies if zki == null then {} else {zki.isStateRootFee}
      ensures e.None? <==> PayFees(old(state.led), coordIdxs, accumulated).Ok?
      ensures e.None? ==> Ready() && (zki != null ==> Recording()) && Log() == old(Log()) && View() == old(View())
      ensures e.None? ==> St() == old(St()).(led := PayFees(old(state.led), coordIdxs, accumulated).value)
      ensures e.None? ==>
        Fees() == old(Fees()).(roots := FeeRoots(old(Fees()).roots, old(state.led), coordIdxs, accumulated))
    {
      hide Ready;
      e := DistributeFees(coordIdxs);
    }

    // The payout leaves the transactions and the exits alone.
    method PayOnly(coordIdxs: seq<Idx>, nTx: nat, ghost plan: PlanL2, ghost txs: array<PoolL2Tx>,
                   ghost exitList: array<ProcessedExit>) returns (e: Option<Error>)
      requires Ready() && Modal() && PlanOK(plan, nTx, |coordIdxs|) && |coordIdxs| <= cfg.maxFeeTx
      requires zki != null ==> txIndex == nTx && Fees() == BlankFees(cfg)
      modifies this`updated, this`stored, state`led, state.kv.db, RecordFrame(), FeeFrame()
      ensures txs[..] == old(txs[..]) && exitList[..] == old(exitList[..])
      ensures e.None? <==> PayFees(old(state.led), coordIdxs, accumulated).Ok?
      ensures e.None? ==> Ready() && PlanOK(plan, nTx, |coordIdxs|) && Log() == old(Log())
      ensures e.None? ==> St() == old(St()).(led := PayFees(old(state.led), coordIdxs, accumulated).value)
      ensures e.None? ==> View() == EndView(state.mode, old(View()), nTx, plan, old(St()))
      ensures e.None? && zki != null ==> Fees() == FinalFees(cfg, plan, old(St()), coordIdxs, state.led)
      ensures e.None? && zki != null ==> (
        && zki.metadata.newStateRootRaw == AccountsRoot(state.led.accounts)
        && zki.metadata.newExitRootRaw == AccountsRoot(exits))
    {
      hide Ready, PlanOK, EndView, FinalFees, PayFees;
      e := PayAndRecord(coordIdxs, nTx, plan);
    }

    // The L2 loop, then the fee payout.
    method RunL2AndPay(coordIdxs: seq<Idx>, coordOf: map<TokenID, Idx>, l2: array<PoolL2Tx>,
                       exitList: array<ProcessedExit>, nTx: nat, ghost plan: PlanL2) returns (e: Option<Error>)
      requires Ready() && Modal() && PlanOK(plan, nTx, |coordIdxs|) && plan.coordOf == coordOf && plan.fees == cfg.fees
      requires txIndex + l2.Length <= exitList.Length && (zki != null ==> txIndex + l2.Length == nTx)
      requires |coordIdxs| <= cfg.maxFeeTx && (zki != null ==> Fees() == BlankFees(cfg))
      modifies l2, exitList, this`txIndex
      modifies this`accumulated, this`collected, this`updated, this`stored, state`led, state.kv.db
      modifies exitTree, this`exits, RecordFrame(), FeeFrame()
      ensures e.None? <==> L2Run(state.mode, plan, old(txIndex), coordIdxs, old(NowL2(l2, exitList))).Ok?
      ensures e.None? ==> Ready() && PlanOK(plan, nTx, |coordIdxs|)
      ensures e.None? ==> (
        var (last, paid) := L2Run(state.mode, plan, old(txIndex), coordIdxs, old(NowL2(l2, exitList))).value;
        && PayFees(last.st.led, coordIdxs, last.st.accumulated) == Ok(paid)
        && l2[..] == last.txs && exitList[..] == last.entries && Log() == last.log
        && View() == FinalView(state.mode, nTx, plan, last)
        && St() == last.st.(led := paid)
        && (zki != null ==>
              && Fees() == FinalFees(cfg, plan, last.st, coordIdxs, paid)
              && zki.metadata.newStateRootRaw == AccountsRoot(paid.accounts)
              && zki.metadata.newExitRootRaw == AccountsRoot(last.st.exits)))
    {
      hide View, Log, Fees, Ready, PlanOK, Fold, RoundsL2, EndView, FinalFees, PayFees, BlankFees;
      e := L2Loop(coordOf, l2, exitList, nTx, |coordIdxs|, plan);
      if e.Some? {
        return;
      }
      e := PayOnly(coordIdxs, nTx, plan, l2, exitList);
    }

    ghost function BatchOf(coordIdxs: seq<Idx>, l1User: array<L1Tx>, l1Coord: array<L1Tx>, l2: array<PoolL2Tx>): Batch
      reads l1User, l1Coord, l2
    {
      Batch(coordIdxs, l1User[..], l1Coord[..], l2[..])
    }

    // The L1 loops, then the choice of coordinator accounts.
    method RunOpening(ghost b: Batch, coordIdxs: seq<Idx>, nTx: nat, l1User: array<L1Tx>, l1Coord: array<L1Tx>,
                      exitList: array<ProcessedExit>)
      returns (r: Result<(seq<NewAccount>, seq<Idx>, map<TokenID, Idx>)>, ghost o: Opened)
      requires Ready() && Modal() && txIndex == 0 && l1User != l1Coord && FitsConfig(cfg, b)
      requires b.coordIdxs == coordIdxs && b.l1User == l1User[..] && b.l1Coord == l1Coord[..]
      requires exitList.Length == NTx(b) == nTx
      requires state.mode.BatchBuilder? ==> cfg.maxL1Tx < cfg.maxTx
      requires NowL1(l1User, exitList, []) == UserStart(state.mode, cfg, state.led, b)
      requires FeesBlank() && (zki != null ==> Recording())
      modifies l1User, l1Coord, exitList, this`txIndex
      modifies this`accumulated, this`collected, this`updated, this`stored, state`led, state.kv`currentIdx, state.kv.db
      modifies exitTree, this`exits, RecordFrame(), PlanFrame()
      ensures r.Ok? <==> OpenRun(state.mode, cfg, old(state.led), b).Ok?
      ensures r.Ok? ==> Ready() && OpenRun(state.mode, cfg, old(state.led), b) == Ok(o)
      ensures r.Ok? ==> l1User[..] == o.user && l1Coord[..] == o.coord.txs && txIndex == L2Base(state.mode, b)
      ensures r.Ok? ==> r.value == (o.coord.created, o.coordIdxs, o.plan.coordOf)
      ensures r.Ok? ==> St() == OpenFees(o.coord.st, o.coordIdxs, o.plan.coordOf)
      ensures r.Ok? ==> exitList[..] == o.coord.entries && Log() == o.coord.log && View() == o.coord.view
      ensures r.Ok? ==> PlanOK(o.plan, NTx(b), |o.coordIdxs|) && |o.coordIdxs| <= cfg.maxFeeTx
      ensures r.Ok? ==> o.plan.fees == cfg.fees
      ensures r.Ok? && zki != null ==> Fees() == BlankFees(cfg)
    {
      hide Ready, Recording, L1Run, OpenFees, FeesBlank, UserStart, Coords, BlankFees, View, Log;
      o := Opened([], NowL1(l1User, exitList, []), [], PlanL2(cfg.fees, map[], 0, [], 0));
      var created := RunL1Loops(l1User, l1Coord, exitList);
      if created.Err? {
        return Err(created.error), o;
      }
      ghost var user, coord, entries := l1User[..], l1Coord[..], exitList[..];
      var chosen;
      ghost var plan;
      chosen, plan := ChooseCoords(coordIdxs, nTx);
      assert l1User[..] == user && l1Coord[..] == coord && exitList[..] == entries;
      if chosen.Err? {
        return Err(chosen.error), o;
      }
      o := OpenRun(state.mode, cfg, old(state.led), b).value;
      r := Ok((created.value, chosen.value.0, chosen.value.1));
    }

    // The opening leaves the L2 transactions alone, and the rest leaves the L1 transactions alone.
    method RunOpeningOnly(ghost b: Batch, coordIdxs: seq<Idx>, nTx: nat, l1User: array<L1Tx>, l1Coord: array<L1Tx>,
                          exitList: array<ProcessedExit>, ghost l2: array<PoolL2Tx>)
      returns (r: Result<(seq<NewAccount>, seq<Idx>, map<TokenID, Idx>)>, ghost o: Opened)
      requires Ready() && Modal() && txIndex == 0 && l1User != l1Coord && FitsConfig(cfg, b)
      requires b.coordIdxs == coordIdxs && b.l1User == l1User[..] && b.l1Coord == l1Coord[..]
      requires exitList.Length == NTx(b) == nTx
      requires state.mode.BatchBuilder? ==> cfg.maxL1Tx < cfg.maxTx
      requires NowL1(l1User, exitList, []) == UserStart(state.mode, cfg, state.led, b)
      requires FeesBlank() && (zki != null ==> Recording())
      modifies l1User, l1Coord, exitList, this`txIndex
      modifies this`accumulated, this`collected, this`updated, this`stored, state`led, state.kv`currentIdx, state.kv.db
      modifies exitTree, this`exits, RecordFrame(), PlanFrame()
      ensures l2[..] == old(l2[..])
      ensures r.Ok? <==> OpenRun(state.mode, cfg, old(state.led), b).Ok?
      ensures r.Ok? ==> Ready() && OpenRun(state.mode, cfg, old(state.led), b) == Ok(o)
      ensures r.Ok? ==> l1User[..] == o.user && l1Coord[..] == o.coord.txs && txIndex == L2Base(state.mode, b)
      ensures r.Ok? ==> r.value == (o.coord.created, o.coordIdxs, o.plan.coordOf)
      ensures r.Ok? ==> NowL2(l2, exitList) == L2Start(o.coord, o.coordIdxs, o.plan, old(l2[..]))
      ensures r.Ok? ==> PlanOK(o.plan, NTx(b), |o.coordIdxs|) && |o.coordIdxs| <= cfg.maxFeeTx
      ensures r.Ok? ==> o.plan.fees == cfg.fees
      ensures r.Ok? && zki != null ==> Fees() == BlankFees(cfg)
    {
      hide Ready, Recording, OpenRun, OpenFees, FeesBlank, UserStart, PlanOK;
      r, o := RunOpening(b, coordIdxs, nTx, l1User, l1Coord, exitList);
    }

    method RunRest(coordIdxs: seq<Idx>, coordOf: map<TokenID, Idx>, l2: array<PoolL2Tx>,
                   exitList: array<ProcessedExit>, nTx: nat, ghost plan: PlanL2, ghost l1User: array<L1Tx>,
                   ghost l1Coord: array<L1Tx>) returns (e: Option<Error>)
      requires Ready() && Modal() && PlanOK(plan, nTx, |coordIdxs|) && plan.coordOf == coordOf && plan.fees == cfg.fees
      requires txIndex + l2.Length <= exitList.Length && (zki != null ==> txIndex + l2.Length == nTx)
      requires |coordIdxs| <= cfg.maxFeeTx && (zki != null ==> Fees() == BlankFees(cfg))
      modifies l2, exitList, this`txIndex
      modifies this`accumulated, this`collected, this`updated, this`stored, state`led, state.kv.db
      modifies exitTree, this`exits, RecordFrame(), FeeFrame()
      ensures l1User[..] == old(l1User[..]) && l1Coord[..] == old(l1Coord[..])
      ensures e.None? <==> L2Run(state.mode, plan, old(txIndex), coordIdxs, old(NowL2(l2, exitList))).Ok?
      ensures e.None? ==> Ready() && PlanOK(plan, nTx, |coordIdxs|)
      ensures e.None? ==> (
        var (last, paid) := L2Run(state.mode, plan, old(txIndex), coordIdxs, old(NowL2(l2, exitList))).value;
        && PayFees(last.st.led, coordIdxs, last.st.accumulated) == Ok(paid)
        && l2[..] == last.txs && exitList[..] == last.entries && Log() == last.log
        && View() == FinalView(state.mode, nTx, plan, last)
        && St() == last.st.(led := paid)
        && (zki != null ==>
              && Fees() == FinalFees(cfg, plan, last.st, coordIdxs, paid)
              && zki.metadata.newStateRootRaw == AccountsRoot(paid.accounts)
              && zki.metadata.newExitRootRaw == AccountsRoot(last.st.exits)))
    {
      hide Ready, PlanOK, L2Run, PayFees, FinalView, FinalFees;
      e := RunL2AndPay(coordIdxs, coordOf, l2, exitList, nTx, plan);
    }

    // The second half of the batch, by what it says about the whole run.
    method CloseLoops(ghost b: Batch, ghost o: Opened, coordIdxs: seq<Idx>, coordOf: map<TokenID, Idx>,
                      l1User: array<L1Tx>, l1Coord: array<L1Tx>, l2: array<PoolL2Tx>, exitList: array<ProcessedExit>)
      returns (e: Option<Error>)
      requires Ready() && Modal() && l2.Length == |b.l2| && exitList.Length == NTx(b)
      requires coordIdxs == o.coordIdxs && coordOf == o.plan.coordOf && o.plan.fees == cfg.fees
      requires PlanOK(o.plan, NTx(b), |coordIdxs|) && |coordIdxs| <= cfg.maxFeeTx
      requires txIndex == L2Base(state.mode, b) && l1User[..] == o.user && l1Coord[..] == o.coord.txs
      requires NowL2(l2, exitList) == L2Start(o.coord, o.coordIdxs, o.plan, b.l2)
      requires zki != null ==> cfg.maxFeeTx > 0 && Fees() == BlankFees(cfg)
      modifies l2, exitList, this`txIndex
      modifies this`accumulated, this`collected, this`updated, this`stored, state`led, state.kv.db
      modifies exitTree, this`exits, RecordFrame(), FeeFrame()
      ensures e.None? <==> CloseRun(state.mode, b, o).Ok?
      ensures e.None? ==> (
        var run := CloseRun(state.mode, b, o).value;
        && Ready() && St() == run.outcome.beforePayout.(led := run.outcome.led)
        && BatchOf([], l1User, l1Coord, l2)
           == Batch([], run.outcome.l1User, run.outcome.l1Coord, run.outcome.l2)
        && exitList[..] == run.entries && run.created == o.coord.created && run.outcome.coordOf == coordOf
        && (zki != null ==> HoldsRun(zki, cfg, run)))
    {
      hide Ready, Usable, L2Run, PayFees, FinalView, FinalFees, L2Start, BlankFees;
      e := RunRest(coordIdxs, coordOf, l2, exitList, exitList.Length, o.plan, l1User, l1Coord);
    }

    // Everything between the opening of the batch and its checkpoint.
    method RunBatchLoops(ghost b: Batch, coordIdxs: seq<Idx>, l1User: array<L1Tx>, l1Coord: array<L1Tx>,
                         l2: array<PoolL2Tx>, exitList: array<ProcessedExit>)
      returns (r: Result<(seq<NewAccount>, map<TokenID, Idx>)>, ghost run: Result<BatchRun>)
      requires Ready() && Modal() && txIndex == 0 && l1User != l1Coord && FitsConfig(cfg, b)
      requires b == BatchOf(coordIdxs, l1User, l1Coord, l2) && exitList.Length == NTx(b)
      requires state.mode.BatchBuilder? ==> cfg.maxL1Tx < cfg.maxTx && cfg.maxFeeTx > 0
      requires NowL1(l1User, exitList, []) == UserStart(state.mode, cfg, state.led, b)
      requires FeesBlank() && (zki != null ==> Recording())
      modifies l1User, l1Coord, l2, exitList, this`txIndex
      modifies this`accumulated, this`collected, this`updated, this`stored, state`led, state.kv`currentIdx, state.kv.db
      modifies exitTree, this`exits, RecordFrame(), FeeFrame(), PlanFrame()
      ensures run == WholeRun(state.mode, cfg, old(state.led), b) && (r.Ok? <==> run.Ok?)
      ensures r.Ok? ==> Ready() && St() == run.value.outcome.beforePayout.(led := run.value.outcome.led)
      ensures r.Ok? ==> (BatchOf([], l1User, l1Coord, l2)
        == Batch([], run.value.outcome.l1User, run.value.outcome.l1Coord, run.value.outcome.l2))
      ensures r.Ok? ==> exitList[..] == run.value.entries && r.value == (run.value.created, run.value.outcome.coordOf)
      ensures r.Ok? && zki != null ==> HoldsRun(zki, cfg, run.value)
    {
      hide Ready, PlanOK, OpenRun, CloseRun, L2Start, UserStart, FeesBlank, NowL1, NowL2, HoldsRun, Recording;
      hide BlankFees, St;
      run := WholeRun(state.mode, cfg, state.led, b);
      var opening;
      ghost var o;
      opening, o := RunOpeningOnly(b, coordIdxs, exitList.Length, l1User, l1Coord, exitList, l2);
      if opening.Err? {
        return Err(opening.error), run;
      }
      var e := CloseLoops(b, o, opening.value.1, opening.value.2, l1User, l1Coord, l2, exitList);
      if e.Some? {
        return Err(e.value), run;
      }
      r := Ok((opening.value.0, opening.value.2));
    }

    // Open a batch: the exit tree, and for the builder the circuit inputs.
    method OpenBatch(ghost b: Batch, l1User: array<L1Tx>, exitList: array<ProcessedExit>)
      requires state.Valid() && zki == null && b.l1User == l1User[..] && exitList[..] == NoExits(NTx(b))
      requires state.mode.BatchBuilder? ==> cfg.maxTx > 0 && cfg.maxFeeTx > 0 && LevelsOK(cfg.nLevels)
      modifies this
      ensures Ready() && Modal() && txIndex == 0 && FeesBlank() && (zki != null ==> Recording())
      ensures NowL1(l1User, exitList, []) == UserStart(state.mode, cfg, state.led, b)
      ensures start == state.led.accounts && fresh(exitTree)
      ensures zki != null ==>
        && fresh(zki) && fresh(RecordFrame()) && fresh(FeeFrame()) && fresh(PlanFrame())
        && zki.currentNumBatch == state.kv.currentBatch + 1
        && zki.oldLastIdx == state.led.currentIdx && zki.oldStateRoot == AccountsRoot(state.led.accounts)
    {
      hide Ready;
      txIndex := 0;
      OpenExits();
      if state.mode.BatchBuilder? {
        OpenInputs();
      }
    }

    // What every run of ProcessTxs reports to the synchronizer, and to the builder.
    ghost predicate Reports(out: ProcessTxOutput, run: BatchRun, before: Ledger)
      reads state`led, set i | i in out.updatedAccounts :: out.updatedAccounts[i]
    {
      state.mode.Synchronizer? ==>
        && out.zki == null
        && out.exitInfos == InfosOf(run.entries) && out.createdAccounts == run.created
        && out.coordOf == run.outcome.coordOf && out.collectedFees == run.outcome.beforePayout.collected
        && ExactDiff(out.updatedAccounts, before.accounts, state.led.accounts)
    }

    // The checkpoint at the end of an accepted batch.
    method Checkpointed(ghost z: ZKInputs?, ghost run: BatchRun)
      requires Ready() && (z != null ==> HoldsRun(z, cfg, run))
      modifies state.kv, state.kv.db
      ensures Ready() && state.led == old(state.led) && (z != null ==> HoldsRun(z, cfg, run))
      ensures Advanced(state.kv.cfg, old(state.kv.State()), state.kv.State())
      ensures state.kv.db == old(state.kv.db) && (state.kv.last == old(state.kv.last) || fresh(state.kv.last))
    {
      var _ := state.MakeCheckpoint();
    }

    // The output, from what the loops left.
    method MakeOutput(exitList: array<ProcessedExit>, created: seq<NewAccount>, coordOf: map<TokenID, Idx>,
                  ghost run: BatchRun, ghost before: Ledger) returns (out: ProcessTxOutput)
      requires Ready() && Modal() && start == before.accounts
      requires exitList[..] == run.entries && created == run.created && coordOf == run.outcome.coordOf
      requires collected == run.outcome.beforePayout.collected && (zki != null ==> HoldsRun(zki, cfg, run))
      ensures out.zki == zki && Reports(out, run, before) && (out.zki != null ==> HoldsRun(out.zki, cfg, run))
    {
      DiffIsExact();
      hide Ready, ExactDiff, InfosOf;
      if state.mode.Synchronizer? {
        var infos := BuildExitInfos(exitList);
        out := ProcessTxOutput(zki, infos, created, coordOf, collected, updated);
      } else {
        out := ProcessTxOutput(zki, [], [], coordOf, map[], map[]);
      }
    }

    // The records of the batch are dropped, and the batch is checkpointed.
    method CloseBatch(ghost out: ProcessTxOutput, ghost run: BatchRun, ghost before: Ledger)
      requires Ready() && (out.zki != null ==> HoldsRun(out.zki, cfg, run)) && Reports(out, run, before)
      modifies this`zki, this`txIndex, state.kv, state.kv.db
      ensures zki == null && state.Valid() && state.led == old(state.led)
      ensures Advanced(state.kv.cfg, old(state.kv.State()), state.kv.State())
      ensures state.kv.db == old(state.kv.db) && (state.kv.last == old(state.kv.last) || fresh(state.kv.last))
      ensures (out.zki != null ==> HoldsRun(out.zki, cfg, run)) && Reports(out, run, before)
    {
      hide Advanced;
      DropRecords();
      KeepReport(out, run, before);
    }

    method DropRecords()
      requires Ready()
      modifies this`zki, this`txIndex
      ensures Ready() && zki == null
    {
      hide Ready;
      zki, txIndex := null, 0;
    }

    method KeepReport(ghost out: ProcessTxOutput, ghost run: BatchRun, ghost before: Ledger)
      requires Ready() && (out.zki != null ==> HoldsRun(out.zki, cfg, run)) && Reports(out, run, before)
      modifies state.kv, state.kv.db
      ensures state.Valid() && state.led == old(state.led)
      ensures Advanced(state.kv.cfg, old(state.kv.State()), state.kv.State())
      ensures state.kv.db == old(state.kv.db) && (state.kv.last == old(state.kv.last) || fresh(state.kv.last))
      ensures (out.zki != null ==> HoldsRun(out.zki, cfg, run)) && Reports(out, run, before)
    {
      hide HoldsRun, Reports, Advanced;
      Checkpointed(out.zki, run);
    }

    lemma DiffIsExact()
      requires Ready()
      ensures state.mode.Synchronizer? ==> ExactDiff(updated, start, state.led.accounts)
    {
    }

    ghost predicate Builds(out: ProcessTxOutput, run: BatchRun, before: Ledger, batch: nat)
      reads if out.zki == null then {} else out.zki.Frame()
    {
      state.mode.BatchBuilder? ==>
        && out.zki != null && HoldsRun(out.zki, cfg, run)
        && out.zki.currentNumBatch == batch
        && out.zki.oldLastIdx == before.currentIdx && out.zki.oldStateRoot == AccountsRoot(before.accounts)
    }

    // The output and the checkpoint leave the transactions alone.
    method FinishBatch(exitList: array<ProcessedExit>, created: seq<NewAccount>, coordOf: map<TokenID, Idx>,
                       ghost run: BatchRun, ghost before: Ledger, ghost l1User: array<L1Tx>,
                       ghost l1Coord: array<L1Tx>, ghost l2: array<PoolL2Tx>) returns (out: ProcessTxOutput)
      requires Ready() && Modal() && start == before.accounts
      requires exitList[..] == run.entries && created == run.created && coordOf == run.outcome.coordOf
      requires collected == run.outcome.beforePayout.collected && (zki != null ==> HoldsRun(zki, cfg, run))
      modifies this`zki, this`txIndex, state.kv, state.kv.db
      ensures zki == null && state.Valid() && state.led == old(state.led) && out.zki == old(zki)
      ensures Advanced(state.kv.cfg, old(state.kv.State()), state.kv.State())
      ensures state.kv.db == old(state.kv.db) && (state.kv.last == old(state.kv.last) || fresh(state.kv.last))
      ensures (out.zki != null ==> HoldsRun(out.zki, cfg, run)) && Reports(out, run, before)
      ensures BatchOf([], l1User, l1Coord, l2) == old(BatchOf([], l1User, l1Coord, l2))
    {
      hide Ready, HoldsRun, Reports, Advanced;
      out := MakeOutput(exitList, created, coordOf, run, before);
      CloseBatch(out, run, before);
    }

    // Everything up to the checkpoint.
    method OpenAndRun(ghost b: Batch, coordIdxs: seq<Idx>, l1User: array<L1Tx>, l1Coord: array<L1Tx>,
                      l2: array<PoolL2Tx>, exitList: array<ProcessedExit>)
      returns (r: Result<(seq<NewAccount>, map<TokenID, Idx>)>, ghost run: Result<BatchRun>)
      requires state.Valid() && zki == null && l1User != l1Coord
      requires b == BatchOf(coordIdxs, l1User, l1Coord, l2) && FitsConfig(cfg, b) && exitList[..] == NoExits(NTx(b))
      requires state.mode.BatchBuilder? ==> cfg.maxL1Tx < cfg.maxTx && cfg.maxFeeTx > 0 && LevelsOK(cfg.nLevels)
      modifies this, state`led, state.kv`currentIdx, state.kv.db, l1User, l1Coord, l2, exitList
      ensures run == WholeRun(state.mode, cfg, old(state.led), b) && (r.Ok? <==> run.Ok?)
      ensures r.Ok? ==> Ready() && Modal() && start == old(state.led.accounts)
      ensures r.Ok? ==> St() == run.value.outcome.beforePayout.(led := run.value.outcome.led)
      ensures r.Ok? ==> (BatchOf([], l1User, l1Coord, l2)
        == Batch([], run.value.outcome.l1User, run.value.outcome.l1Coord, run.value.outcome.l2))
      ensures r.Ok? ==> exitList[..] == run.value.entries && r.value == (run.value.created, run.value.outcome.coordOf)
      ensures r.Ok? && zki != null ==> (
        && HoldsRun(zki, cfg, run.value) && zki.currentNumBatch == state.kv.currentBatch + 1
        && zki.oldLastIdx == old(state.led).currentIdx && zki.oldStateRoot == AccountsRoot(old(state.led).accounts))
    {
      hide WholeRun, UserStart, FeesBlank, Recording, HoldsRun, Ready, NowL1, FitsConfig;
      OpenBatch(b, l1User, exitList);
      r, run := RunBatchLoops(b, coordIdxs, l1User, l1Coord, l2, exitList);
    }

    // A batch that fits the configuration.
    method ProcessFitting(ghost b: Batch, coordIdxs: seq<Idx>, l1User: array<L1Tx>, l1Coord: array<L1Tx>,
                          l2: array<PoolL2Tx>) returns (r: Result<ProcessTxOutput>)
      requires state.Valid() && zki == null && l1User != l1Coord
      requires b == BatchOf(coordIdxs, l1User, l1Coord, l2) && FitsConfig(cfg, b)
      requires state.mode.BatchBuilder? ==> cfg.maxL1Tx < cfg.maxTx && cfg.maxFeeTx > 0 && LevelsOK(cfg.nLevels)
      modifies this, state, state.kv, state.kv.db, l1User, l1Coord, l2
      ensures zki == null && state.kv.Valid()
      ensures state.kv.db == old(state.kv.db) && (state.kv.last == old(state.kv.last) || fresh(state.kv.last))
      ensures r.Ok? <==> WholeRun(state.mode, cfg, old(state.led), b).Ok?
      ensures r.Err? ==> Stalled(old(state.kv.State()), state.kv.State())
      ensures r.Ok? ==> (
        var run := WholeRun(state.mode, cfg, old(state.led), b).value;
        && state.Valid() && state.led == run.outcome.led
        && Advanced(state.kv.cfg, old(state.kv.State()), state.kv.State())
        && BatchOf([], l1User, l1Coord, l2) == Batch([], run.outcome.l1User, run.outcome.l1Coord, run.outcome.l2)
        && Reports(r.value, run, old(state.led)) && Builds(r.value, run, old(state.led), state.kv.currentBatch))
    {
      hide WholeRun, HoldsRun, Ready, Reports, FitsConfig;
      var nTx := l1User.Length + l1Coord.Length + l2.Length;
      var exitList := new ProcessedExit[nTx](_ => NoExit);
      var done;
      ghost var run;
      done, run := OpenAndRun(b, coordIdxs, l1User, l1Coord, l2, exitList);
      if done.Err? {
        zki, txIndex := null, 0;
        return Err(done.error);
      }
      var out := FinishBatch(exitList, done.value.0, done.value.1, run.value, old(state.led), l1User, l1Coord, l2);
      r := Ok(out);
    }

    // ProcessTxs: one batch. It either runs to its end, is checkpointed, and reports what it did, or
    // leaves everything on disk as it was. The transactions are updated in place.
    method ProcessTxs(coordIdxs: seq<Idx>, l1User: array<L1Tx>, l1Coord: array<L1Tx>, l2: array<PoolL2Tx>)
      returns (r: Result<ProcessTxOutput>, ghost run: Result<BatchRun>)
      requires state.Valid() && l1User != l1Coord
      requires state.mode.BatchBuilder? ==> cfg.maxL1Tx < cfg.maxTx && cfg.maxFeeTx > 0 && LevelsOK(cfg.nLevels)
      modifies this, state, state.kv, state.kv.db, l1User, l1Coord, l2
      ensures old(zki) != null ==> r.Err? && state.Valid() && state.led == old(state.led)
      ensures old(zki) == null ==>
        && run == old(WholeRun(state.mode, cfg, state.led, BatchOf(coordIdxs, l1User, l1Coord, l2)))
        && (r.Ok? <==> run.Ok?) && zki == null
      ensures state.kv.Valid() && state.kv.db == old(state.kv.db)
      ensures state.kv.last == old(state.kv.last) || fresh(state.kv.last)
      ensures r.Err? ==> Stalled(old(state.kv.State()), state.kv.State())
      ensures r.Ok? ==> state.Valid() && state.led == run.value.outcome.led
      ensures r.Ok? ==> Advanced(state.kv.cfg, old(state.kv.State()), state.kv.State())
      ensures r.Ok? ==> (BatchOf([], l1User, l1Coord, l2)
        == Batch([], run.value.outcome.l1User, run.value.outcome.l1Coord, run.value.outcome.l2))
      ensures r.Ok? ==> Reports(r.value, run.value, old(state.led))
      ensures r.Ok? ==> Builds(r.value, run.value, old(state.led), state.kv.currentBatch)
    {
      hide OpenRun, CloseRun, HoldsRun, ExactDiff, Advanced;
      run := Err(NotEmpty);
      if zki != null {
        return Err(NotEmpty), run;
      }
      ghost var b := BatchOf(coordIdxs, l1User, l1Coord, l2);
      run := WholeRun(state.mode, cfg, state.led, b);
      var nTx := l1User.Length + l1Coord.Length + l2.Length;
      if |coordIdxs| > cfg.maxFeeTx || nTx > cfg.maxTx || l1User.Length + l1Coord.Length > cfg.maxL1Tx {
        return Err(TooManyTxs), run;
      }
      r := ProcessFitting(b, coordIdxs, l1User, l1Coord, l2);
    }
  }

  datatype ProcessTxOutput = ProcessTxOutput(
    zki: ZKInputs?,
    exitInfos: seq<ExitInfo>,
    createdAccounts: seq<NewAccount>,
    coordOf: map<TokenID, Idx>,
    collectedFees: map<TokenID, nat>,
    updatedAccounts: map<Idx, AccountRef>)

  // Each entry is the final stored account, and every account without an entry is unchanged.
  ghost predicate ExactDiff(updated: map<Idx, AccountRef>, before: map<Idx, Account>, after: map<Idx, Account>)
    reads set i | i in updated :: updated[i]
  {
    && (forall i :: i in updated ==> updated[i].idx == i && i in after && Canon(updated[i].acc) == after[i])
    && (forall i :: i in after && i !in updated ==> i in before && before[i] == after[i])
    && (forall i :: i in before ==> i in after)
  }

  // The inputs are for this configuration, and their bytes are those of the logged transactions.
  ghost predicate Usable(z: ZKInputs, cfg: Config)
    reads z.metadata
  {
    z.Valid() && z.cfg == cfg && LevelsOK(cfg.nLevels) && z.metadata.Valid(cfg.nLevels / 8)
  }

  // What the circuit inputs hold at the end of the batch.
  ghost predicate HoldsRun(z: ZKInputs, cfg: Config, run: BatchRun)
    reads z.Frame()
  {
    && Usable(z, cfg) && cfg.maxFeeTx > 0
    && z.Log() == run.log && z.View() == run.view && z.feePlanTokens[..] == run.plan.tokens
    && var out := run.outcome;
    && PayFees(out.beforePayout.led, out.coordIdxs, out.beforePayout.accumulated) == Ok(out.led)
    && |out.coordIdxs| <= cfg.maxFeeTx
    && z.Payout() == FinalFees(cfg, run.plan, out.beforePayout, out.coordIdxs, out.led)
    && z.metadata.newStateRootRaw == AccountsRoot(out.led.accounts)
    && z.metadata.newExitRootRaw == AccountsRoot(out.beforePayout.exits)
  }

  // Running one L2 transaction is processing it and then recording it.
  lemma RunOneL2Is(mode: Mode, fees: FeeTable, coordOf: map<TokenID, Idx>, st: BState, tx: PoolL2Tx)
    ensures var p := ProcessedL2(mode, fees, coordOf, st, tx);
      var r := RunOneL2(mode, fees, coordOf, st, tx);
      && (r.Ok? <==> p.Ok? && (mode.BatchBuilder? ==> Recordable(p.value.1)))
      && (r.Ok? ==> r == p)
  {
    hide ApplyL2;
  }

  // The tokens of the coordinator accounts, in their order.
  ghost predicate IsFeePlan(led: Ledger, coordIdxs: seq<Idx>, tokens: seq<TokenID>) {
    && |tokens| == |coordIdxs|
    && forall i :: 0 <= i < |tokens| ==> led.Get(coordIdxs[i]).Ok? && tokens[i] == led.Get(coordIdxs[i]).value.tokenID
  }

  predicate Recordable(tx: PoolL2Tx) {
    Forged(tx).fromIdx <= MAX_IDX && Forged(tx).toIdx <= MAX_IDX && Float40.Encode(tx.amount).Ok?
  }

  lemma WrittenTwice<T>(s: seq<T>, k: nat, a: T, b: T)
    requires k < |s|
    ensures s[k := a][k := b] == s[k := b]
  {
  }

  ghost function ProcessedL2(mode: Mode, fees: FeeTable, coordOf: map<TokenID, Idx>, st: BState, tx: PoolL2Tx)
    : Result<(BState, PoolL2Tx)>
  {
    var tx1 :- Resolve(mode, st.led, tx);
    var tx2 :- StampedL2(mode, st.led, tx1);
    var st1 :- ApplyL2(fees, coordOf, st, tx2);
    Ok((st1, tx2))
  }

  // What the circuit inputs demand before an L2 transaction is applied.
  predicate InputsBeforeL2(tx: PoolL2Tx) {
    && tx.nonce <= MAX_NONCE && tx.toIdx <= MAX_IDX && tx.fromIdx <= MAX_IDX
    && Float40.Encode(tx.amount).Ok?
    && (tx.rqOffset != 0 ==>
          && tx.rqOffset <= 7 && tx.rqNonce <= MAX_NONCE
          && tx.rqToIdx <= MAX_IDX && tx.rqFromIdx <= MAX_IDX
          && Float40.Encode(tx.rqAmount).Ok?)
    && tx.signatureOk
  }

  ghost function StampedL2(mode: Mode, led: Ledger, tx: PoolL2Tx): Result<PoolL2Tx> {
    if mode.BatchBuilder? && !InputsBeforeL2(tx) then Err(Malformed) else Stamp(mode, led, tx)
  }

  // The created account was fetched under the last index.
  ghost predicate Fetched(created: Option<Account>, mode: Mode, tx: L1Tx, led: Ledger) {
    if mode.Synchronizer? && CreatesAccount(tx.typ) then
      led.Get(led.currentIdx).Ok? && created == Some(led.Get(led.currentIdx).value)
    else created.None?
  }

  ghost function RecordedL1(mode: Mode, st: BState, tx: L1Tx): Result<L1Tx> {
    var (st1, created) :- ProcessedL1(mode, st, tx);
    var tx1 := Prepared(st.led, tx);
    if mode.BatchBuilder? && !InputsL1(tx1) then Err(Malformed)
    else Ok(LeftL1(mode, tx1, created, st1.led.currentIdx))
  }

  // Running one L1 transaction is processing it and then recording it.
  lemma RunOneL1Is(mode: Mode, st: BState, tx: L1Tx)
    ensures RunOneL1(mode, st, tx).Ok? <==> RecordedL1(mode, st, tx).Ok?
    ensures RunOneL1(mode, st, tx).Ok? ==>
      && RunOneL1(mode, st, tx).value == (ProcessedL1(mode, st, tx).value.0, RecordedL1(mode, st, tx).value)
      && RecordedL1(mode, st, tx).value.typ == tx.typ
      && Fetched(ProcessedL1(mode, st, tx).value.1, mode, tx, ProcessedL1(mode, st, tx).value.0.led)
  {
    PreparedSame(st.led, tx);
  }

  ghost function LeftL1(mode: Mode, tx: L1Tx, created: Option<Account>, lastIdx: Idx): L1Tx {
    if mode.BatchBuilder? then tx
    else tx.(effectiveFromIdx := if created.Some? then lastIdx else tx.fromIdx)
  }

  // What ProcessL1Tx and ProcessL2Tx return: the exiting account, its leaf with whether it is new,
  // and the account created.
  datatype TxOutcome = TxOutcome(exitIdx: Option<Idx>, leaf: Option<(Account, bool)>, created: Option<Account>)

  // What an outcome adds to the list of exits.
  function EntryOf(o: TxOutcome): ProcessedExit {
    if o.exitIdx.Some? && o.leaf.Some? then Exited(o.leaf.value.1, o.exitIdx.value, o.leaf.value.0) else NoExit
  }

  // What the circuit inputs demand before an L1 transaction is applied.
  predicate InputsBefore(tx: L1Tx) {
    && tx.toIdx <= MAX_IDX && tx.fromIdx <= MAX_IDX
    && Float40.Encode(tx.depositAmount).Ok?
    && (UsesAmount(tx.typ) ==> Float40.Encode(tx.amount).Ok?)
  }

  predicate UsesAmount(t: TxType) {
    t == TypeForceTransfer || t == TypeDepositTransfer || t == TypeCreateAccountDepositTransfer || t == TypeForceExit
  }

  function Created(mode: Mode, led: Ledger, tx: L1Tx): Result<Option<Account>> {
    if mode.Synchronizer? && CreatesAccount(tx.typ) then
      var created :- led.Get(led.currentIdx);
      Ok(Some(created))
    else Ok(None)
  }

  ghost function WithCreated(mode: Mode, st: Result<BState>, tx: L1Tx): Result<(BState, Option<Account>)> {
    var st1 :- st;
    var created :- Created(mode, st1.led, tx);
    Ok((st1, created))
  }

  ghost function ProcessedL1(mode: Mode, st: BState, tx: L1Tx): Result<(BState, Option<Account>)> {
    var tx1 := Prepared(st.led, tx);
    if mode.BatchBuilder? && !InputsBefore(tx) then Err(Malformed)
    else WithCreated(mode, ApplyL1(st, tx1), tx1)
  }

  lemma ExitL1Is(st: BState, tx: L1Tx)
    ensures var t := PaidL1(st.led, tx.fromIdx, tx.effectiveAmount);
      ExitL1(st, tx) ==
        if t.Err? then Err(t.error)
        else LeaveExit(st.(led := t.value.0), tx.fromIdx, t.value.1, tx.effectiveAmount, tx.amount)
  {
  }

  ghost function OpenedAndCredited(led: Ledger, tx: L1Tx): Result<Ledger>
    requires tx.effectiveDepositAmount >= tx.effectiveAmount
  {
    var led1 :- led.Create(led.currentIdx + 1, Opener(tx));
    Credit(led1, led.currentIdx + 1, Opener(tx), tx.toIdx, tx.effectiveAmount)
  }

  ghost function Deposited(led: Ledger, tx: L1Tx): Result<Account> {
    var s :- led.Get(tx.fromIdx);
    if s.balance + tx.effectiveDepositAmount < tx.effectiveAmount then Err(NotEnoughBalance)
    else Ok(s.(balance := s.balance + tx.effectiveDepositAmount - tx.effectiveAmount))
  }

  lemma DepositSteps(led: Ledger, tx: L1Tx, transfer: bool)
    ensures var s := Deposited(led, tx);
      Deposit(led, tx, transfer) ==
        if s.Err? then Err(s.error)
        else
          var led1 := led.Update(tx.fromIdx, s.value);
          if led1.Err? || !transfer then led1
          else Credit(led1.value, tx.fromIdx, s.value, tx.toIdx, tx.effectiveAmount)
  {
  }

  // A credit leaves the current index alone.
  lemma OpenAndMoveSteps(led: Ledger, tx: L1Tx)
    requires tx.effectiveDepositAmount >= tx.effectiveAmount
    ensures var led2 := OpenedAndCredited(led, tx);
      OpenAndMove(led, tx) ==
        if led2.Err? then Err(led2.error) else led2.value.SetCurrentIdx(led2.value.currentIdx + 1)
  {
  }

  ghost function Credited(st: BState, led: Result<Ledger>): Result<BState> {
    if led.Err? then Err(led.error) else Ok(st.(led := led.value))
  }

  function Target(toIdx: Idx, auxToIdx: Idx): Idx {
    if auxToIdx == 0 then toIdx else auxToIdx
  }

  // The parts of a payment: what the sender's account becomes, and storing it.
  ghost function ChargedL1(led: Ledger, from: Idx, amount: nat): Result<Account> {
    var s :- led.Get(from);
    if s.balance < amount then Err(NotEnoughBalance) else Ok(s.(balance := s.balance - amount))
  }

  ghost function PaidL1(led: Ledger, from: Idx, amount: nat): Result<(Ledger, Account)> {
    var s1 :- ChargedL1(led, from, amount);
    var led1 :- led.Update(from, s1);
    Ok((led1, s1))
  }

  ghost function ChargedL2(fees: FeeTable, coordOf: map<TokenID, Idx>, st: BState, from: Idx, amount: nat,
                           sel: FeeSelector): (r: Result<(BState, Account)>)
    ensures r.Ok? ==> r.value.0.led == st.led && r.value.0.exits == st.exits
  {
    var s :- st.led.Get(from);
    var fee :- CalcFeeAmount(fees, amount, sel);
    if s.balance < amount + fee then Err(NotEnoughBalance)
    else
      var st1 :- Ledgers.Accrue(st, coordOf, s.tokenID, fee);
      Ok((st1, s.(nonce := s.nonce + 1, balance := s.balance - (amount + fee))))
  }

  lemma DebitIsCharge(fees: FeeTable, coordOf: map<TokenID, Idx>, st: BState, from: Idx, amount: nat,
                      sel: FeeSelector)
    ensures var c := ChargedL2(fees, coordOf, st, from, amount, sel);
      Debit(fees, coordOf, st, from, amount, sel) ==
        if c.Err? then Err(c.error)
        else if st.led.Update(from, c.value.1).Err? then Err(st.led.Update(from, c.value.1).error)
        else Ok((c.value.0.(led := st.led.Update(from, c.value.1).value), c.value.1))
  {
  }
}
