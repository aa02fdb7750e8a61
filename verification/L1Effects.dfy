// When the amounts of an L1 transaction count, and what it then does to every account.
module L1Effects {
  import opened Types
  import opened Accounts
  import opened Txs
  import opened Ledgers
  import opened LedgerInvariants
  import opened Conservation
  import Float40

  // ---- which amounts count ----

  // The sender's account exists and has the transaction's token.
  predicate SenderHasToken(led: Ledger, tx: L1Tx) {
    tx.fromIdx in led.accounts && led.accounts[tx.fromIdx].tokenID == tx.tokenID
  }

  predicate ReceiverHasToken(led: Ledger, tx: L1Tx) {
    tx.toIdx in led.accounts && led.accounts[tx.toIdx].tokenID == tx.tokenID
  }

  // The sender owns the account, and balance and deposit cover the amount.
  predicate SenderPays(led: Ledger, tx: L1Tx) {
    && SenderHasToken(led, tx) && led.accounts[tx.fromIdx].ethAddr == tx.fromEthAddr
    && tx.amount <= led.accounts[tx.fromIdx].balance + tx.depositAmount
  }

  // The declared amount counts.
  predicate AmountCounts(led: Ledger, tx: L1Tx) {
    && tx.userOrigin
    && match tx.typ
       case TypeCreateAccountDeposit => true
       case TypeCreateAccountDepositTransfer => tx.amount <= tx.depositAmount && ReceiverHasToken(led, tx)
       case TypeDeposit => SenderPays(led, tx)
       case TypeForceExit => SenderPays(led, tx)
       case TypeDepositTransfer => SenderPays(led, tx) && ReceiverHasToken(led, tx)
       case TypeForceTransfer => SenderPays(led, tx) && ReceiverHasToken(led, tx)
       case _ => false
  }

  // The declared deposit counts. A missing receiver only matters while the amount is covered: the
  // checks end with the first that fails.
  predicate DepositCounts(led: Ledger, tx: L1Tx) {
    && tx.userOrigin
    && match tx.typ
       case TypeCreateAccountDeposit => true
       case TypeCreateAccountDepositTransfer => tx.depositAmount < tx.amount || tx.toIdx in led.accounts
       case TypeDeposit => SenderHasToken(led, tx)
       case TypeForceExit => SenderHasToken(led, tx)
       case TypeDepositTransfer => SenderHasToken(led, tx) && (Uncovered(led, tx) || tx.toIdx in led.accounts)
       case TypeForceTransfer => SenderHasToken(led, tx) && (Uncovered(led, tx) || tx.toIdx in led.accounts)
       case _ => false
  }

  predicate Uncovered(led: Ledger, tx: L1Tx)
    requires tx.fromIdx in led.accounts
  {
    led.accounts[tx.fromIdx].balance + tx.depositAmount < tx.amount
  }

  // The effective amounts are the declared ones exactly where those count, and zero elsewhere.
  lemma EffectiveIff(led: Ledger, tx: L1Tx)
    requires AccountsUpTo(led, led.currentIdx) && L1Type(tx) == Ok(tx.typ)
    ensures Prepared(led, tx) == tx.(
      effectiveAmount := if AmountCounts(led, tx) then tx.amount else 0,
      effectiveDepositAmount := if DepositCounts(led, tx) then tx.depositAmount else 0)
  {
    if tx.userOrigin && tx.typ != TypeCreateAccountDeposit {
      if tx.fromIdx == 0 {
        OpeningAmounts(led, tx);
      } else {
        SenderAmounts(led, tx);
      }
    }
  }

  lemma OpeningAmounts(led: Ledger, tx: L1Tx)
    requires AccountsUpTo(led, led.currentIdx) && tx.typ == TypeCreateAccountDepositTransfer && tx.userOrigin
    requires L1Type(tx) == Ok(tx.typ)
    ensures Effective(led, tx) == WithEffective(tx, if AmountCounts(led, tx) then tx.amount else 0,
                                                if DepositCounts(led, tx) then tx.depositAmount else 0)
  {
  }

  lemma SenderAmounts(led: Ledger, tx: L1Tx)
    requires AccountsUpTo(led, led.currentIdx) && L1Type(tx) == Ok(tx.typ) && tx.userOrigin && tx.fromIdx != 0
    ensures Effective(led, tx) == WithEffective(tx, if AmountCounts(led, tx) then tx.amount else 0,
                                                if DepositCounts(led, tx) then tx.depositAmount else 0)
  {
  }

  // ---- what the step does ----

  // What counts of the amount, and what is credited of the deposit: a forced transfer or exit credits
  // none, and the opening of an account without a transfer takes nothing out of its deposit.
  function Amount(led: Ledger, tx: L1Tx): nat {
    if AmountCounts(led, tx) && tx.typ != TypeCreateAccountDeposit then tx.amount else 0
  }

  function DepositIn(led: Ledger, tx: L1Tx): nat {
    if DepositCounts(led, tx) && tx.typ != TypeForceTransfer && tx.typ != TypeForceExit then tx.depositAmount else 0
  }

  // The account that pays and is deposited to: the sender's, or the one that is opened.
  function Payer(led: Ledger, tx: L1Tx): Idx {
    if CreatesAccount(tx.typ) then led.currentIdx + 1 else tx.fromIdx
  }

  predicate Transfers(t: TxType) {
    t == TypeCreateAccountDepositTransfer || t == TypeDepositTransfer || t == TypeForceTransfer
  }

  function BalanceOf(led: Ledger, i: Idx): nat {
    if i in led.accounts then led.accounts[i].balance else 0
  }

  // Besides the opened account there is no new one. The payer's balance changes by the net amount, that
  // of a receiver by the gain, both if they are the same, and no other balance changes.
  ghost predicate Books(led: Ledger, led': Ledger, added: set<Idx>, payer: Idx, net: int, receivers: set<Idx>,
                        gain: nat) {
    && led'.accounts.Keys == led.accounts.Keys + added
    && payer in led'.accounts && receivers <= led'.accounts.Keys
    && forall i :: i in led'.accounts ==>
         led'.accounts[i].balance ==
           BalanceOf(led, i) + (if i == payer then net else 0) + (if i in receivers then gain else 0)
  }

  ghost predicate Booked(led: Ledger, led': Ledger, tx: L1Tx) {
    Books(led, led', if CreatesAccount(tx.typ) then {led.currentIdx + 1} else {},
          Payer(led, tx), DepositIn(led, tx) - Amount(led, tx),
          if Transfers(tx.typ) then {tx.toIdx} else {}, Amount(led, tx))
  }

  // An opened account is the next one, with the token, address and key of the transaction; without one
  // no account gets another token, address, key or nonce.
  ghost predicate Identities(led: Ledger, led': Ledger, tx: L1Tx) {
    && Extends(led, led') && NoncesKept(led, led')
    && led'.currentIdx == led.currentIdx + (if CreatesAccount(tx.typ) then 1 else 0)
    && (CreatesAccount(tx.typ) ==>
          && led'.currentIdx in led'.accounts
          && Matches(led'.accounts[led'.currentIdx], Creation(tx.fromEthAddr, tx.fromBJJ, tx.tokenID)))
  }

  // A forced exit raises the leaf of its account by what counts, or makes it, unless it declares nothing.
  ghost predicate LeafBooked(st: BState, st': BState, tx: L1Tx) {
    if tx.typ == TypeForceExit then LeafRaised(st.exits, st'.exits, tx.fromIdx, Amount(st.led, tx), tx.amount)
    else st'.exits == st.exits
  }

  lemma CreditBooks(led: Ledger, led1: Ledger, n: Idx, added: set<Idx>, payer: Idx, s1: Account, net: int, to: Idx,
                    gain: nat)
    requires AccountsUpTo(led1, n) && payer in led1.accounts && led1.accounts[payer] == Canon(s1)
    requires Books(led, led1, added, payer, net, {}, 0) && Credit(led1, payer, s1, to, gain).Ok?
    ensures Books(led, Credit(led1, payer, s1, to, gain).value, added, payer, net, {to}, gain)
  {
    hide Credit;
    CreditKeeps(led1, n, payer, s1, to, gain);
  }

  lemma UpdateBooks(led: Ledger, n: Idx, i: Idx, s1: Account)
    requires AccountsUpTo(led, n) && i in led.accounts && led.Update(i, s1).Ok?
    ensures Books(led, led.Update(i, s1).value, {}, i, s1.balance - led.accounts[i].balance, {}, 0)
  {
  }

  lemma OpeningBooks(led: Ledger, a: Account)
    requires AccountsUpTo(led, led.currentIdx) && led.currentIdx >= RESERVED_IDX
    requires led.Create(led.currentIdx + 1, a).Ok?
    ensures var i := led.currentIdx + 1; Books(led, led.Create(i, a).value, {i}, i, a.balance, {}, 0)
  {
    CreateKeeps(led, led.currentIdx, a);
  }

  lemma MoveBooks(led: Ledger, from: Idx, to: Idx, amount: nat)
    requires AccountsUpTo(led, led.currentIdx) && MoveL1(led, from, to, amount).Ok?
    ensures Books(led, MoveL1(led, from, to, amount).value, {}, from, 0 - amount, {to}, amount)
  {
    MoveL1Is(led, from, to, amount);
    var s1 := led.accounts[from].(balance := led.accounts[from].balance - amount);
    hide MoveL1, Credit, Books;
    UpdateKeeps(led, led.currentIdx, from, s1);
    UpdateBooks(led, led.currentIdx, from, s1);
    CreditBooks(led, led.Update(from, s1).value, led.currentIdx, {}, from, s1, 0 - amount, to, amount);
  }

  lemma DepositBooks(led: Ledger, e: L1Tx, transfer: bool)
    requires AccountsUpTo(led, led.currentIdx) && Deposit(led, e, transfer).Ok?
    ensures Books(led, Deposit(led, e, transfer).value, {}, e.fromIdx, e.effectiveDepositAmount - e.effectiveAmount,
                  if transfer then {e.toIdx} else {}, e.effectiveAmount)
  {
    DepositIs(led, e, transfer);
    var s := led.accounts[e.fromIdx];
    var s1 := s.(balance := s.balance + e.effectiveDepositAmount - e.effectiveAmount);
    hide Deposit, Credit;
    UpdateKeeps(led, led.currentIdx, e.fromIdx, s1);
    UpdateBooks(led, led.currentIdx, e.fromIdx, s1);
    if transfer {
      CreditBooks(led, led.Update(e.fromIdx, s1).value, led.currentIdx, {}, e.fromIdx, s1,
                  e.effectiveDepositAmount - e.effectiveAmount, e.toIdx, e.effectiveAmount);
    }
  }

  lemma OpenAndMoveBooks(led: Ledger, e: L1Tx)
    requires AccountsUpTo(led, led.currentIdx) && led.currentIdx >= RESERVED_IDX && OpenAndMove(led, e).Ok?
    ensures Books(led, OpenAndMove(led, e).value, {led.currentIdx + 1}, led.currentIdx + 1,
                  e.effectiveDepositAmount - e.effectiveAmount, {e.toIdx}, e.effectiveAmount)
  {
    hide OpenAndMove, Credit, Ledger.Create, Encodable, Books;
    OpenAndMoveIs(led, e);
    var i := led.currentIdx + 1;
    OpeningBooks(led, Opener(e));
    var net := e.effectiveDepositAmount - e.effectiveAmount;
    var led1 := led.Create(i, Opener(e)).value;
    CreditBooks(led, led1, i, {i}, i, Opener(e), net, e.toIdx, e.effectiveAmount);
    SameBooks(led, Credit(led1, i, Opener(e), e.toIdx, e.effectiveAmount).value, OpenAndMove(led, e).value, {i}, i, net,
              {e.toIdx}, e.effectiveAmount);
  }

  // The index of the ledger is not booked.
  lemma SameBooks(led: Ledger, led1: Ledger, led2: Ledger, added: set<Idx>, payer: Idx, net: int, receivers: set<Idx>,
                  gain: nat)
    requires Books(led, led1, added, payer, net, receivers, gain) && led2.accounts == led1.accounts
    ensures Books(led, led2, added, payer, net, receivers, gain)
  {
  }

  lemma OpenAccountBooks(led: Ledger, e: L1Tx)
    requires AccountsUpTo(led, led.currentIdx) && led.currentIdx >= RESERVED_IDX && OpenAccount(led, e).Ok?
    ensures var i := led.currentIdx + 1;
      Books(led, OpenAccount(led, e).value, {i}, i, e.effectiveDepositAmount, {}, e.effectiveAmount)
  {
    OpeningBooks(led, Account(e.tokenID, 0, e.effectiveDepositAmount, e.fromBJJ, e.fromEthAddr));
  }

  lemma ExitBooks(st: BState, e: L1Tx)
    requires AccountsUpTo(st.led, st.led.currentIdx) && ExitL1(st, e).Ok? && (e.amount == 0 ==> e.effectiveAmount == 0)
    ensures var st' := ExitL1(st, e).value;
      && Books(st.led, st'.led, {}, e.fromIdx, 0 - e.effectiveAmount, {}, e.effectiveAmount)
      && LeafRaised(st.exits, st'.exits, e.fromIdx, e.effectiveAmount, e.amount)
      && st'.accumulated == st.accumulated && st'.collected == st.collected
  {
    var s := st.led.accounts[e.fromIdx];
    var s1 := s.(balance := s.balance - e.effectiveAmount);
    var st1 := st.(led := st.led.Update(e.fromIdx, s1).value);
    assert ExitL1(st, e) == LeaveExit(st1, e.fromIdx, s1, e.effectiveAmount, e.amount);
    hide ExitL1, LeaveExit;
    UpdateBooks(st.led, st.led.currentIdx, e.fromIdx, s1);
    LeaveExitRaises(st1, e.fromIdx, s1, e.effectiveAmount, e.amount);
  }

  // What a step with known effective amounts books.
  lemma ApplyL1Books(st: BState, log: seq<Creation>, e: L1Tx)
    requires Inv(st.led, log) && ApplyL1(st, e).Ok? && IsL1Type(e.typ) && (e.amount == 0 ==> e.effectiveAmount == 0)
    ensures var st' := ApplyL1(st, e).value;
      && Books(st.led, st'.led, if CreatesAccount(e.typ) then {st.led.currentIdx + 1} else {},
               if CreatesAccount(e.typ) then st.led.currentIdx + 1 else e.fromIdx,
               (if e.typ == TypeForceTransfer || e.typ == TypeForceExit then 0 else e.effectiveDepositAmount)
               - (if e.typ == TypeCreateAccountDeposit then 0 else e.effectiveAmount),
               if Transfers(e.typ) then {e.toIdx} else {}, e.effectiveAmount)
      && (if e.typ == TypeForceExit then LeafRaised(st.exits, st'.exits, e.fromIdx, e.effectiveAmount, e.amount)
          else st'.exits == st.exits)
      && st'.accumulated == st.accumulated && st'.collected == st.collected
  {
    hide MoveL1, Deposit, OpenAccount, OpenAndMove, ExitL1, Indexed, Books, LeafRaised;
    match e.typ
    case TypeForceTransfer => MoveBooks(st.led, e.fromIdx, e.toIdx, e.effectiveAmount);
    case TypeForceExit => ExitBooks(st, e);
    case TypeDeposit => DepositBooks(st.led, e, false);
    case TypeDepositTransfer => DepositBooks(st.led, e, true);
    case TypeCreateAccountDeposit => OpenAccountBooks(st.led, e);
    case TypeCreateAccountDepositTransfer => OpenAndMoveBooks(st.led, e);
  }

  lemma StepIdentities(st: BState, log: seq<Creation>, tx: L1Tx)
    requires Inv(st.led, log) && IsL1Type(tx.typ) && StepL1(st, tx).Ok?
    ensures Identities(st.led, StepL1(st, tx).value.led, tx)
  {
    var e := Prepared(st.led, tx);
    PreparedSame(st.led, tx);
    hide ApplyL1, Effective, Indexed;
    if CreatesAccount(tx.typ) {
      L1Opens(st, log, e);
      assert Matches(StepL1(st, tx).value.led.accounts[USER_THRESHOLD + |log|],
                     (log + [Creation(tx.fromEthAddr, tx.fromBJJ, tx.tokenID)])[|log|]);
    } else {
      L1KeepsShape(st, e);
    }
  }

  // Every accepted L1 transaction books exactly what counts of it.
  lemma L1Effect(st: BState, log: seq<Creation>, tx: L1Tx)
    requires Inv(st.led, log) && L1Type(tx) == Ok(tx.typ) && StepL1(st, tx).Ok?
    ensures var st' := StepL1(st, tx).value;
      && Booked(st.led, st'.led, tx) && Identities(st.led, st'.led, tx) && LeafBooked(st, st', tx)
      && st'.accumulated == st.accumulated && st'.collected == st.collected
  {
    StepIdentities(st, log, tx);
    EffectiveIff(st.led, tx);
    ApplyL1Books(st, log, Prepared(st.led, tx));
    hide Inv, Prepared, ApplyL1, AmountCounts, DepositCounts, Identities, LeafRaised;
  }

  // ---- when it is accepted ----

  // What a step with known effective amounts needs: the accounts it refers to, the means to pay, and
  // room for what arrives. An opened account can be its own receiver.
  ghost predicate CanApply(st: BState, e: L1Tx) {
    var led := st.led;
    match e.typ
    case TypeCreateAccountDeposit => led.currentIdx < MAX_IDX && e.effectiveDepositAmount < TWO_192
    case TypeCreateAccountDepositTransfer =>
      && led.currentIdx < MAX_IDX && e.effectiveAmount <= e.effectiveDepositAmount
      && e.effectiveDepositAmount - e.effectiveAmount < TWO_192
      && (if e.toIdx == led.currentIdx + 1 then e.effectiveDepositAmount < TWO_192
          else e.toIdx in led.accounts && led.accounts[e.toIdx].balance + e.effectiveAmount < TWO_192)
    case TypeForceExit =>
      && e.fromIdx in led.accounts && e.effectiveAmount <= led.accounts[e.fromIdx].balance
      && (e.amount == 0 || LeafBalance(st.exits, e.fromIdx) + e.effectiveAmount < TWO_192)
    case _ =>
      var deposit := if e.typ == TypeForceTransfer then 0 else e.effectiveDepositAmount;
      && e.fromIdx in led.accounts
      && e.effectiveAmount <= led.accounts[e.fromIdx].balance + deposit
      && led.accounts[e.fromIdx].balance + deposit - e.effectiveAmount < TWO_192
      && (e.typ != TypeDeposit ==>
            && e.toIdx in led.accounts
            && (if e.toIdx == e.fromIdx then led.accounts[e.fromIdx].balance + deposit
                else led.accounts[e.toIdx].balance + e.effectiveAmount) < TWO_192)
  }

  lemma MoveIff(led: Ledger, from: Idx, to: Idx, amount: nat)
    requires AccountsUpTo(led, led.currentIdx)
    ensures MoveL1(led, from, to, amount).Ok? <==>
      && from in led.accounts && amount <= led.accounts[from].balance && to in led.accounts
      && (to != from ==> led.accounts[to].balance + amount < TWO_192)
  {
    if from in led.accounts && amount <= led.accounts[from].balance {
      var s1 := led.accounts[from].(balance := led.accounts[from].balance - amount);
      UpdateKeeps(led, led.currentIdx, from, s1);
      hide Credit;
      CreditIff(led.Update(from, s1).value, led.currentIdx, from, s1, to, amount);
    }
  }

  lemma DepositIff(led: Ledger, e: L1Tx, transfer: bool)
    requires AccountsUpTo(led, led.currentIdx)
    ensures Deposit(led, e, transfer).Ok? <==>
      && e.fromIdx in led.accounts
      && var b := led.accounts[e.fromIdx].balance + e.effectiveDepositAmount;
      && e.effectiveAmount <= b && b - e.effectiveAmount < TWO_192
      && (transfer ==>
            && e.toIdx in led.accounts
            && (if e.toIdx == e.fromIdx then b else led.accounts[e.toIdx].balance + e.effectiveAmount) < TWO_192)
  {
    if e.fromIdx in led.accounts && e.effectiveAmount <= led.accounts[e.fromIdx].balance + e.effectiveDepositAmount {
      var s := led.accounts[e.fromIdx];
      var s1 := s.(balance := s.balance + e.effectiveDepositAmount - e.effectiveAmount);
      if transfer && led.Update(e.fromIdx, s1).Ok? {
        UpdateKeeps(led, led.currentIdx, e.fromIdx, s1);
        hide Credit;
        CreditIff(led.Update(e.fromIdx, s1).value, led.currentIdx, e.fromIdx, s1, e.toIdx, e.effectiveAmount);
      }
    }
  }

  lemma OpenAndMoveIff(led: Ledger, e: L1Tx)
    requires AccountsUpTo(led, led.currentIdx) && led.currentIdx >= RESERVED_IDX
    ensures OpenAndMove(led, e).Ok? <==>
      && led.currentIdx < MAX_IDX && e.effectiveAmount <= e.effectiveDepositAmount
      && e.effectiveDepositAmount - e.effectiveAmount < TWO_192
      && (if e.toIdx == led.currentIdx + 1 then e.effectiveDepositAmount < TWO_192
          else e.toIdx in led.accounts && led.accounts[e.toIdx].balance + e.effectiveAmount < TWO_192)
  {
    var i := led.currentIdx + 1;
    if e.effectiveAmount <= e.effectiveDepositAmount && led.Create(i, Opener(e)).Ok? {
      CreateKeeps(led, led.currentIdx, Opener(e));
      hide Credit;
      CreditIff(led.Create(i, Opener(e)).value, i, i, Opener(e), e.toIdx, e.effectiveAmount);
    }
  }

  lemma ExitIff(st: BState, e: L1Tx)
    requires AccountsUpTo(st.led, st.led.currentIdx) && ExitsOK(st)
    ensures ExitL1(st, e).Ok? <==>
      && e.fromIdx in st.led.accounts && e.effectiveAmount <= st.led.accounts[e.fromIdx].balance
      && (e.amount == 0 || LeafBalance(st.exits, e.fromIdx) + e.effectiveAmount < TWO_192)
  {
    if e.fromIdx in st.led.accounts && e.effectiveAmount <= st.led.accounts[e.fromIdx].balance {
      var s := st.led.accounts[e.fromIdx];
      var s1 := s.(balance := s.balance - e.effectiveAmount);
      LeafIff(st.(led := st.led.Update(e.fromIdx, s1).value), e.fromIdx, s1, e.effectiveAmount, e.amount);
    }
  }

  lemma ApplyIff(st: BState, log: seq<Creation>, e: L1Tx)
    requires Inv(st.led, log) && ExitsOK(st) && IsL1Type(e.typ)
    ensures ApplyL1(st, e).Ok? <==> CanApply(st, e)
  {
    hide MoveL1, Deposit, OpenAndMove, ExitL1, Indexed;
    match e.typ
    case TypeForceTransfer => MoveIff(st.led, e.fromIdx, e.toIdx, e.effectiveAmount);
    case TypeForceExit => ExitIff(st, e);
    case TypeDeposit => DepositIff(st.led, e, false);
    case TypeDepositTransfer => DepositIff(st.led, e, true);
    case TypeCreateAccountDeposit =>
    case TypeCreateAccountDepositTransfer => OpenAndMoveIff(st.led, e);
  }

  // An L1 transaction is accepted exactly if the accounts exist, what counts of it can be paid, and what
  // arrives fits. Whether the sender can pay needs to be asked of forced transfers and exits alone,
  // which count a deposit that they do not credit.
  lemma L1AcceptedIff(st: BState, log: seq<Creation>, tx: L1Tx)
    requires Inv(st.led, log) && ExitsOK(st) && L1Type(tx) == Ok(tx.typ)
    ensures StepL1(st, tx).Ok? <==> CanApply(st, tx.(
      effectiveAmount := if AmountCounts(st.led, tx) then tx.amount else 0,
      effectiveDepositAmount := if DepositCounts(st.led, tx) then tx.depositAmount else 0))
    ensures tx.typ == TypeDepositTransfer || tx.typ == TypeDeposit ==> tx.fromIdx in st.led.accounts ==>
      Amount(st.led, tx) <= st.led.accounts[tx.fromIdx].balance + DepositIn(st.led, tx)
    ensures tx.typ == TypeCreateAccountDepositTransfer ==> Amount(st.led, tx) <= DepositIn(st.led, tx)
  {
    EffectiveIff(st.led, tx);
    ApplyIff(st, log, Prepared(st.led, tx));
  }

  // Either program runs the step. The builder moreover has to write the transaction down, which the
  // declared numbers decide alone, and the record gets the amounts that count. The synchronizer adds
  // the account that the transaction was made from: the opened one, or its sender's.
  lemma L1Recorded(mode: Mode, st: BState, log: seq<Creation>, tx: L1Tx)
    requires Inv(st.led, log) && L1Type(tx) == Ok(tx.typ)
    ensures RunOneL1(mode, st, tx).Ok? <==>
      && StepL1(st, tx).Ok?
      && (mode.BatchBuilder? ==>
            && tx.fromIdx <= MAX_IDX && tx.toIdx <= MAX_IDX
            && Float40.Representable(tx.amount) && Float40.Representable(tx.depositAmount))
    ensures RunOneL1(mode, st, tx).Ok? ==> RunOneL1(mode, st, tx).value == (StepL1(st, tx).value, tx.(
      effectiveAmount := if AmountCounts(st.led, tx) then tx.amount else 0,
      effectiveDepositAmount := if DepositCounts(st.led, tx) then tx.depositAmount else 0,
      effectiveFromIdx := if mode.BatchBuilder? then tx.effectiveFromIdx else Payer(st.led, tx)))
  {
    EffectiveIff(st.led, tx);
    Float40.EncodeExact(tx.amount);
    Float40.EncodeExact(tx.depositAmount);
    var e := Prepared(st.led, tx);
    assert e.effectiveAmount == 0 || e.effectiveAmount == tx.amount;
    assert Float40.Encode(0) == Ok(0);
    if StepL1(st, tx).Ok? {
      StepIdentities(st, log, tx);
      if CreatesAccount(tx.typ) {
        OpenedIsThere(st, log, tx);
      }
    }
    hide Inv, Prepared, ApplyL1, AmountCounts, DepositCounts, Identities, Float40.Encode, Float40.Representable;
  }

  lemma OpenedIsThere(st: BState, log: seq<Creation>, tx: L1Tx)
    requires Inv(st.led, log) && L1Type(tx) == Ok(tx.typ) && StepL1(st, tx).Ok? && CreatesAccount(tx.typ)
    ensures StepL1(st, tx).value.led.Get(StepL1(st, tx).value.led.currentIdx).Ok?
  {
    PreparedSame(st.led, tx);
    hide Effective, ApplyL1;
    L1Opens(st, log, Prepared(st.led, tx));
  }

  // An instance: a new account with a deposit of ten sends four to the first one.
  lemma OpeningTransfers()
    ensures var led := Ledger(map[32 := Account(0, 0, 10, EMPTY_BJJ, 7)], 32, map[], map[]);
      var tx := L1Tx(true, 0, 0, 8, EMPTY_BJJ, 32, 0, 4, 0, 10, 0, TypeCreateAccountDepositTransfer);
      && StepL1(Fresh(led), tx).Ok?
      && StepL1(Fresh(led), tx).value.led.accounts
         == map[32 := Account(0, 0, 14, EMPTY_BJJ, 7), 33 := Account(0, 0, 6, EMPTY_BJJ, 8)]
  {
    assert Canon(Account(0, 0, 14, EMPTY_BJJ, 7)) == Account(0, 0, 14, EMPTY_BJJ, 7);
    assert Canon(Account(0, 0, 6, EMPTY_BJJ, 8)) == Account(0, 0, 6, EMPTY_BJJ, 8);
  }
}
