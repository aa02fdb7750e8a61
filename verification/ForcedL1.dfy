// L1 transactions are forced by the contract: what they can and cannot do to accounts.
module ForcedL1 {
  import opened Types
  import opened Accounts
  import opened Txs
  import opened Ledgers
  import opened LedgerInvariants
  import opened Conservation
  import Float40
  import LowBits

  // A positive effective amount of a transaction on an existing account means that a user sent it,
  // from the address of that account and in its token.
  lemma EffectiveMeansOwned(led: Ledger, tx: L1Tx)
    requires !CreatesAccount(tx.typ) && tx.fromIdx != 0
    ensures Effective(led, tx).effectiveAmount > 0 ==>
      && tx.userOrigin && tx.fromIdx in led.accounts
      && led.accounts[tx.fromIdx].ethAddr == tx.fromEthAddr
      && led.accounts[tx.fromIdx].tokenID == tx.tokenID
  {
  }

  // The only account whose balance an L1 transaction can lower.
  ghost predicate Lowered(led: Ledger, led': Ledger, i: Idx) {
    i in led.accounts && i in led'.accounts && led'.accounts[i].balance < led.accounts[i].balance
  }

  lemma CreditLowersNobody(led: Ledger, n: Idx, from: Idx, s: Account, to: Idx, amount: nat, i: Idx)
    requires AccountsUpTo(led, n) && from in led.accounts && led.accounts[from] == Canon(s)
    requires Credit(led, from, s, to, amount).Ok?
    ensures !Lowered(led, Credit(led, from, s, to, amount).value, i)
  {
    CreditKeeps(led, n, from, s, to, amount);
  }

  lemma MoveL1Lowers(led: Ledger, from: Idx, to: Idx, amount: nat, i: Idx)
    requires AccountsUpTo(led, led.currentIdx) && MoveL1(led, from, to, amount).Ok?
    ensures Lowered(led, MoveL1(led, from, to, amount).value, i) ==> i == from && amount > 0
  {
    var s := led.accounts[from];
    var s1 := s.(balance := s.balance - amount);
    UpdateKeeps(led, led.currentIdx, from, s1);
    var led1 := led.Update(from, s1).value;
    CreditLowersNobody(led1, led.currentIdx, from, s1, to, amount, i);
    CreditKeeps(led1, led.currentIdx, from, s1, to, amount);
    assert MoveL1(led, from, to, amount) == Credit(led1, from, s1, to, amount);
  }

  lemma DepositLowers(led: Ledger, tx: L1Tx, transfer: bool, i: Idx)
    requires AccountsUpTo(led, led.currentIdx) && Deposit(led, tx, transfer).Ok?
    ensures Lowered(led, Deposit(led, tx, transfer).value, i) ==> i == tx.fromIdx && tx.effectiveAmount > 0
  {
    var s := led.accounts[tx.fromIdx];
    var s1 := s.(balance := s.balance + tx.effectiveDepositAmount - tx.effectiveAmount);
    UpdateKeeps(led, led.currentIdx, tx.fromIdx, s1);
    var led1 := led.Update(tx.fromIdx, s1).value;
    if transfer {
      CreditLowersNobody(led1, led.currentIdx, tx.fromIdx, s1, tx.toIdx, tx.effectiveAmount, i);
      CreditKeeps(led1, led.currentIdx, tx.fromIdx, s1, tx.toIdx, tx.effectiveAmount);
      assert Deposit(led, tx, transfer) == Credit(led1, tx.fromIdx, s1, tx.toIdx, tx.effectiveAmount);
    }
  }

  lemma OpenAndMoveLowersNobody(led: Ledger, tx: L1Tx, i: Idx)
    requires AccountsUpTo(led, led.currentIdx) && led.currentIdx >= RESERVED_IDX && OpenAndMove(led, tx).Ok?
    ensures !Lowered(led, OpenAndMove(led, tx).value, i)
  {
    OpenAndMoveIs(led, tx);
    var j := led.currentIdx + 1;
    var led1 := led.Create(j, Opener(tx)).value;
    CreditLowersNobody(led1, j, j, Opener(tx), tx.toIdx, tx.effectiveAmount, i);
    CreditKeeps(led1, j, j, Opener(tx), tx.toIdx, tx.effectiveAmount);
  }

  lemma ApplyL1Lowers(st: BState, log: seq<Creation>, tx: L1Tx, i: Idx)
    requires Inv(st.led, log) && ApplyL1(st, tx).Ok?
    ensures Lowered(st.led, ApplyL1(st, tx).value.led, i) ==>
      i == tx.fromIdx && tx.effectiveAmount > 0 && !CreatesAccount(tx.typ) && IsL1Type(tx.typ)
  {
    if tx.typ == TypeForceTransfer {
      MoveL1Lowers(st.led, tx.fromIdx, tx.toIdx, tx.effectiveAmount, i);
    } else if tx.typ == TypeDeposit || tx.typ == TypeDepositTransfer {
      DepositLowers(st.led, tx, tx.typ == TypeDepositTransfer, i);
    } else if tx.typ == TypeCreateAccountDepositTransfer {
      OpenAndMoveLowersNobody(st.led, tx, i);
    } else if tx.typ == TypeCreateAccountDeposit {
      CreateKeeps(st.led, st.led.currentIdx,
                  Account(tx.tokenID, 0, tx.effectiveDepositAmount, tx.fromBJJ, tx.fromEthAddr));
    } else if tx.typ == TypeForceExit {
      var s := st.led.accounts[tx.fromIdx];
      UpdateKeeps(st.led, st.led.currentIdx, tx.fromIdx, s.(balance := s.balance - tx.effectiveAmount));
    }
  }

  // No L1 transaction lowers an account that its sender does not own.
  lemma OnlyOwnersPay(st: BState, log: seq<Creation>, tx: L1Tx, i: Idx)
    requires Inv(st.led, log) && StepL1(st, tx).Ok?
    requires Lowered(st.led, StepL1(st, tx).value.led, i)
    ensures i == tx.fromIdx && tx.userOrigin && st.led.accounts[i].ethAddr == tx.fromEthAddr
  {
    ApplyL1Lowers(st, log, Prepared(st.led, tx), i);
    PreparedSame(st.led, tx);
    EffectiveMeansOwned(st.led, tx);
  }

  // ---- acceptance ----

  // The accounts that a transaction of this type refers to exist, and there is room for one more.
  ghost predicate ReferencesExist(led: Ledger, tx: L1Tx) {
    && (CreatesAccount(tx.typ) ==> led.currentIdx < MAX_IDX)
    && (!CreatesAccount(tx.typ) ==> tx.fromIdx in led.accounts)
    && (tx.typ == TypeForceTransfer || tx.typ == TypeDepositTransfer ==> tx.toIdx in led.accounts)
    && (tx.typ == TypeCreateAccountDepositTransfer ==>
          tx.toIdx in led.accounts || tx.toIdx == led.currentIdx + 1)
  }

  // No sum that the transaction can form reaches 2^192.
  ghost predicate SumsFit(st: BState, tx: L1Tx) {
    && tx.depositAmount < TWO_192
    && (forall i :: i in st.led.accounts ==>
          st.led.accounts[i].balance + tx.depositAmount + tx.amount < TWO_192)
    && (forall i :: i in st.exits ==> st.exits[i].nonce == 0 && st.exits[i].balance + tx.amount < TWO_192)
    && tx.amount < TWO_192
  }

  lemma CreditAccepted(led: Ledger, n: Idx, from: Idx, s: Account, to: Idx, amount: nat)
    requires AccountsUpTo(led, n) && from in led.accounts && led.accounts[from] == Canon(s) && Encodable(s)
    requires to in led.accounts && led.accounts[to].balance + amount < TWO_192
    ensures Credit(led, from, s, to, amount).Ok?
  {
  }

  lemma MoveL1Accepted(led: Ledger, from: Idx, to: Idx, amount: nat)
    requires AccountsUpTo(led, led.currentIdx) && from in led.accounts && to in led.accounts
    requires led.accounts[to].balance + amount < TWO_192
    ensures MoveL1(led, from, to, amount).Ok? <==> led.accounts[from].balance >= amount
  {
    if led.accounts[from].balance >= amount {
      var s := led.accounts[from];
      var s1 := s.(balance := s.balance - amount);
      UpdateKeeps(led, led.currentIdx, from, s1);
      CreditAccepted(led.Update(from, s1).value, led.currentIdx, from, s1, to, amount);
    }
  }

  lemma DepositAccepted(led: Ledger, tx: L1Tx, transfer: bool)
    requires AccountsUpTo(led, led.currentIdx) && tx.fromIdx in led.accounts
    requires var b := led.accounts[tx.fromIdx].balance + tx.effectiveDepositAmount;
      tx.effectiveAmount <= b < TWO_192
    requires transfer ==> tx.toIdx in led.accounts && tx.toIdx != tx.fromIdx ==>
      led.accounts[tx.toIdx].balance + tx.effectiveAmount < TWO_192
    requires transfer ==> tx.toIdx in led.accounts
    ensures Deposit(led, tx, transfer).Ok?
  {
    var s := led.accounts[tx.fromIdx];
    var s1 := s.(balance := s.balance + tx.effectiveDepositAmount - tx.effectiveAmount);
    UpdateKeeps(led, led.currentIdx, tx.fromIdx, s1);
    if transfer {
      CreditAccepted(led.Update(tx.fromIdx, s1).value, led.currentIdx, tx.fromIdx, s1, tx.toIdx, tx.effectiveAmount);
    }
  }

  lemma OpenAndMoveAccepted(led: Ledger, tx: L1Tx)
    requires AccountsUpTo(led, led.currentIdx) && RESERVED_IDX <= led.currentIdx < MAX_IDX
    requires tx.effectiveAmount <= tx.effectiveDepositAmount < TWO_192
    requires tx.toIdx in led.accounts || tx.toIdx == led.currentIdx + 1
    requires tx.toIdx in led.accounts ==> led.accounts[tx.toIdx].balance + tx.effectiveAmount < TWO_192
    ensures OpenAndMove(led, tx).Ok?
  {
    var i := led.currentIdx + 1;
    var s := Opener(tx);
    CreateKeeps(led, led.currentIdx, s);
    CreditAccepted(led.Create(i, s).value, i, i, s, tx.toIdx, tx.effectiveAmount);
  }

  lemma ExitL1Accepted(st: BState, tx: L1Tx)
    requires AccountsUpTo(st.led, st.led.currentIdx) && tx.fromIdx in st.led.accounts
    requires tx.effectiveAmount < TWO_192
    requires tx.fromIdx in st.exits ==>
      st.exits[tx.fromIdx].nonce == 0 && st.exits[tx.fromIdx].balance + tx.effectiveAmount < TWO_192
    ensures ExitL1(st, tx).Ok? <==> st.led.accounts[tx.fromIdx].balance >= tx.effectiveAmount
  {
  }

  // The effective amounts are within what the sender, or the deposit of a new account, provides.
  ghost predicate Covered(led: Ledger, e: L1Tx) {
    && (e.effectiveAmount == 0 || e.effectiveAmount == e.amount)
    && (e.effectiveDepositAmount == 0 || e.effectiveDepositAmount == e.depositAmount)
    && (e.typ == TypeCreateAccountDepositTransfer ==> e.effectiveAmount <= e.effectiveDepositAmount)
    && (e.typ == TypeDeposit || e.typ == TypeDepositTransfer ==>
          e.fromIdx in led.accounts ==>
            e.effectiveAmount <= led.accounts[e.fromIdx].balance + e.effectiveDepositAmount)
  }

  lemma ApplyL1Accepted(st: BState, e: L1Tx)
    requires AccountsUpTo(st.led, st.led.currentIdx) && st.led.currentIdx >= RESERVED_IDX
    requires IsL1Type(e.typ) && ReferencesExist(st.led, e) && SumsFit(st, e) && Covered(st.led, e)
    ensures ApplyL1(st, e).Ok? <==>
      (e.typ == TypeForceTransfer || e.typ == TypeForceExit ==>
         st.led.accounts[e.fromIdx].balance >= e.effectiveAmount)
  {
    if e.typ == TypeForceTransfer {
      MoveL1Accepted(st.led, e.fromIdx, e.toIdx, e.effectiveAmount);
    } else if e.typ == TypeForceExit {
      ExitL1Accepted(st, e);
    } else if e.typ == TypeDeposit || e.typ == TypeDepositTransfer {
      DepositAccepted(st.led, e, e.typ == TypeDepositTransfer);
    } else if e.typ == TypeCreateAccountDepositTransfer {
      OpenAndMoveAccepted(st.led, e);
    } else {
      CreateKeeps(st.led, st.led.currentIdx,
                  Account(e.tokenID, 0, e.effectiveDepositAmount, e.fromBJJ, e.fromEthAddr));
    }
  }

  lemma EffectiveIsCovered(led: Ledger, tx: L1Tx)
    requires L1Type(tx) == Ok(tx.typ) && AccountsUpTo(led, led.currentIdx)
    ensures Covered(led, Effective(led, tx))
    ensures !CreatesAccount(tx.typ) && tx.fromIdx in led.accounts ==>
      Effective(led, tx).effectiveAmount <= led.accounts[tx.fromIdx].balance + tx.depositAmount
  {
    EffectiveBounds(led, tx);
  }

  // A transaction whose type fits its indices, whose accounts exist and whose sums fit is accepted
  // whatever its balances and tokens are; except that a forced transfer or exit counts a deposit it
  // never credits, so it fails exactly when the effective amount is more than the account holds.
  lemma ForcedTxsAccepted(st: BState, log: seq<Creation>, tx: L1Tx)
    requires Inv(st.led, log) && L1Type(tx) == Ok(tx.typ)
    requires ReferencesExist(st.led, tx) && SumsFit(st, tx)
    ensures StepL1(st, tx).Ok? <==>
      (tx.typ == TypeForceTransfer || tx.typ == TypeForceExit ==>
         st.led.accounts[tx.fromIdx].balance >= Effective(st.led, tx).effectiveAmount)
    ensures tx.depositAmount == 0 ==> StepL1(st, tx).Ok?
  {
    EffectiveIsCovered(st.led, tx);
    PreparedSame(st.led, tx);
    assert IsL1Type(tx.typ);
    ApplyL1Accepted(st, Effective(st.led, tx));
  }

  // A forced exit that declares a deposit of five over a balance of ten, and takes twelve, fails.
  lemma ForcedExitWithDepositFails()
    ensures var led := Ledger(map[32 := Account(0, 0, 10, EMPTY_BJJ, 7)], 32, map[], map[]);
      var tx := L1Tx(true, 32, 0, 7, EMPTY_BJJ, 1, 0, 12, 0, 5, 0, TypeForceExit);
      L1Type(tx) == Ok(tx.typ) && StepL1(Fresh(led), tx) == Err(NotEnoughBalance)
  {
  }

  // The declared deposit of a transaction between accounts reaches the rollup if and only if it is
  // zero, or a user declares it in the token of the sender and its low 64 bits, which the type is told
  // from, are not all zero.
  lemma TransferDepositCreditedIff(st: BState, log: seq<Creation>, tx: L1Tx)
    requires Inv(st.led, log) && ExitsOK(st) && StepL1(st, tx).Ok? && L1Type(tx) == Ok(tx.typ)
    requires tx.fromIdx >= USER_THRESHOLD && tx.toIdx >= USER_THRESHOLD
    ensures tx.fromIdx in st.led.accounts
    ensures Worth(StepL1(st, tx).value, tx.tokenID) == Worth(st, tx.tokenID) + tx.depositAmount
      <==> || tx.depositAmount == 0
           || (&& tx.userOrigin && st.led.accounts[tx.fromIdx].tokenID == tx.tokenID
               && tx.depositAmount % 0x1_0000_0000_0000_0000 != 0)
  {
    hide Inv, ApplyL1, Effective, Worth, Held;
    StepFlows(st, log, tx, tx.tokenID);
    TransferEffects(st, tx);
  }

  lemma TransferEffects(st: BState, tx: L1Tx)
    requires StepL1(st, tx).Ok? && L1Type(tx) == Ok(tx.typ)
    requires tx.fromIdx >= USER_THRESHOLD && tx.toIdx >= USER_THRESHOLD
    ensures tx.fromIdx in st.led.accounts && tx.toIdx in st.led.accounts
    ensures var e := Prepared(st.led, tx);
      && e.tokenID == tx.tokenID && e.typ == tx.typ
      && e.effectiveDepositAmount ==
           if tx.userOrigin && st.led.accounts[tx.fromIdx].tokenID == tx.tokenID then tx.depositAmount else 0
  {
    PreparedSame(st.led, tx);
    if tx.typ == TypeForceTransfer {
      MoveL1Is(st.led, tx.fromIdx, tx.toIdx, Prepared(st.led, tx).effectiveAmount);
    } else {
      DepositIs(st.led, Prepared(st.led, tx), true);
    }
  }

  // So of the deposits that can be encoded, exactly four are forgotten.
  lemma ForgottenDeposits(st: BState, log: seq<Creation>, tx: L1Tx)
    requires Inv(st.led, log) && ExitsOK(st) && StepL1(st, tx).Ok? && L1Type(tx) == Ok(tx.typ)
    requires tx.fromIdx >= USER_THRESHOLD && tx.toIdx >= USER_THRESHOLD && tx.userOrigin
    requires tx.fromIdx in st.led.accounts && st.led.accounts[tx.fromIdx].tokenID == tx.tokenID
    requires Float40.Encode(tx.depositAmount).Ok?
    ensures Worth(StepL1(st, tx).value, tx.tokenID) == Worth(st, tx.tokenID) + tx.depositAmount
      <==> tx.depositAmount !in LowBits.EVEN_AMOUNTS
  {
    hide Inv, StepL1, Worth;
    TransferDepositCreditedIff(st, log, tx);
    Float40.EncodeExact(tx.depositAmount);
    if tx.depositAmount > 0 {
      LowBits.LowBitsZeroIff(tx.depositAmount);
    } else {
      forall k | 0 <= k < 4
        ensures LowBits.EVEN_AMOUNTS[k] > 0
      {
        LowBits.EvenAmountsEncode(k);
      }
    }
  }

  // An instance: a deposit of 2^33 * 10^31 makes a forced transfer that credits nothing.
  lemma LargeDepositIsForgotten()
    ensures var deposit := LowBits.EVEN_AMOUNTS[1];
      var led := Ledger(map[32 := Account(0, 0, 10, EMPTY_BJJ, 7), 33 := Account(0, 0, 0, EMPTY_BJJ, 8)], 33,
                        map[], map[]);
      var tx := L1Tx(true, 32, 0, 7, EMPTY_BJJ, 33, 0, 4, 0, deposit, 0, TypeForceTransfer);
      && Float40.Encode(deposit).Ok? && deposit > 0 && L1Type(tx) == Ok(TypeForceTransfer)
      && StepL1(Fresh(led), tx).Ok?
      && StepL1(Fresh(led), tx).value.led.accounts
         == map[32 := Account(0, 0, 6, EMPTY_BJJ, 7), 33 := Account(0, 0, 4, EMPTY_BJJ, 8)]
  {
    hide Float40.Pow10, Float40.Encode;
    LowBits.Pow10Values();
    LowBits.EvenAmountsEncode(1);
    Float40.EncodeExact(LowBits.EVEN_AMOUNTS[1]);
    var deposit := LowBits.EVEN_AMOUNTS[1];
    var led := Ledger(map[32 := Account(0, 0, 10, EMPTY_BJJ, 7), 33 := Account(0, 0, 0, EMPTY_BJJ, 8)], 33,
                      map[], map[]);
    var tx := L1Tx(true, 32, 0, 7, EMPTY_BJJ, 33, 0, 4, 0, deposit, 0, TypeForceTransfer);
    assert Effective(led, tx) == WithEffective(tx, 4, deposit);
  }
}
