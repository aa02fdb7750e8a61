// Per-token conservation: what a batch does to the sum of all balances of a token.
module Conservation {
  import opened Types
  import opened Accounts
  import opened Txs
  import opened Ledgers
  import opened LedgerInvariants
  import opened Batches
  import opened FeePayout

  function Part(m: map<Idx, Account>, t: TokenID, i: Idx): nat {
    if i in m && m[i].tokenID == t then m[i].balance else 0
  }

  // The sum of the balances of token t over the indices below n.
  function SumTo(m: map<Idx, Account>, t: TokenID, n: nat): nat {
    if n == 0 then 0 else SumTo(m, t, n - 1) + Part(m, t, n - 1)
  }

  lemma {:induction false} SumUpdate(m: map<Idx, Account>, t: TokenID, n: nat, i: Idx, a: Account)
    ensures SumTo(m[i := a], t, n) ==
      if i < n then SumTo(m, t, n) - Part(m, t, i) + (if a.tokenID == t then a.balance else 0) else SumTo(m, t, n)
    ensures i < n ==> SumTo(m, t, n) >= Part(m, t, i)
  {
    if n > 0 {
      SumUpdate(m, t, n - 1, i, a);
    }
  }

  lemma {:induction false} SumIgnoresAbove(m: map<Idx, Account>, t: TokenID, n: nat, n': nat)
    requires n <= n' && forall i :: i in m ==> i < n
    ensures SumTo(m, t, n') == SumTo(m, t, n)
  {
    if n < n' {
      SumIgnoresAbove(m, t, n, n' - 1);
    }
  }

  lemma {:induction false} SumEmpty(t: TokenID, n: nat)
    ensures SumTo(map[], t, n) == 0
  {
    if n > 0 {
      SumEmpty(t, n - 1);
    }
  }

  // Changing one account's balance moves the sum of its token, and of no other.
  lemma SumMoves(m: map<Idx, Account>, t: TokenID, n: nat, i: Idx, a: Account)
    requires i in m && i < n && a.tokenID == m[i].tokenID
    ensures SumTo(m[i := a], t, n) == SumTo(m, t, n) + if a.tokenID == t then a.balance - m[i].balance else 0
  {
    SumUpdate(m, t, n, i, a);
  }

  // Everything of token t that the rollup holds for its users: accounts and exit leaves.
  function Held(led: Ledger, exits: map<Idx, Account>, t: TokenID): nat {
    SumTo(led.accounts, t, led.currentIdx + 1) + SumTo(exits, t, led.currentIdx + 1)
  }

  // The fees of token t that wait for the payout.
  function Pending(st: BState, t: TokenID): nat {
    if t in st.collected then st.collected[t] else 0
  }

  function Worth(st: BState, t: TokenID): nat {
    Held(st.led, st.exits, t) + Pending(st, t)
  }

  // Every exit leaf belongs to an account and has its token, address and key, and nonce 0.
  ghost predicate ExitsOK(st: BState) {
    forall i :: i in st.exits ==>
      && i in st.led.accounts && Static(st.led.accounts[i], st.exits[i])
      && st.exits[i].nonce == 0 && Encodable(st.exits[i]) && Canonical(st.exits[i])
  }

  // ---- L1 ----

  // The token flow of an L1 transaction with known effective amounts: a deposit comes in; the
  // amount of a plain deposit has no receiver and is lost.
  function FlowL1(tx: L1Tx, t: TokenID): int {
    if tx.tokenID != t then 0
    else match tx.typ
      case TypeCreateAccountDeposit => tx.effectiveDepositAmount
      case TypeCreateAccountDepositTransfer => tx.effectiveDepositAmount
      case TypeDepositTransfer => tx.effectiveDepositAmount
      case TypeDeposit => tx.effectiveDepositAmount - tx.effectiveAmount
      case _ => 0
  }

  // What the effective amounts guarantee about tokens: sender, receiver and transaction agree
  // wherever something is moved.
  ghost predicate TokensAgree(led: Ledger, tx: L1Tx) {
    && (!CreatesAccount(tx.typ) && (tx.effectiveAmount > 0 || tx.effectiveDepositAmount > 0) ==>
          tx.fromIdx in led.accounts ==> led.accounts[tx.fromIdx].tokenID == tx.tokenID)
    && (tx.effectiveAmount > 0 && tx.toIdx >= USER_THRESHOLD && tx.typ != TypeCreateAccountDeposit ==>
          tx.toIdx in led.accounts && led.accounts[tx.toIdx].tokenID == tx.tokenID)
  }

  lemma EffectiveTokensAgree(led: Ledger, tx: L1Tx)
    requires AccountsUpTo(led, led.currentIdx) && IsL1Type(tx.typ)
    ensures TokensAgree(led, Effective(led, tx))
  {
  }

  lemma CreditMoves(led: Ledger, n: Idx, from: Idx, s: Account, to: Idx, amount: nat, t: TokenID)
    requires AccountsUpTo(led, n) && from in led.accounts && led.accounts[from] == Canon(s)
    requires Credit(led, from, s, to, amount).Ok?
    ensures to in led.accounts
    ensures SumTo(Credit(led, from, s, to, amount).value.accounts, t, n + 1)
      == SumTo(led.accounts, t, n + 1) + if led.accounts[to].tokenID == t then amount else 0
  {
    CreditKeeps(led, n, from, s, to, amount);
    SumMoves(led.accounts, t, n + 1, to, Raised(led.accounts[to], amount));
  }

  lemma CreditIff(led: Ledger, n: Idx, from: Idx, s: Account, to: Idx, amount: nat)
    requires AccountsUpTo(led, n) && from in led.accounts && led.accounts[from] == Canon(s)
    ensures var r := Credit(led, from, s, to, amount);
      && (r.Ok? <==> to in led.accounts && led.accounts[to].balance + amount < TWO_192)
      && r != Err(NotEnoughBalance)
  {
  }

  lemma MoveL1Conserves(led: Ledger, tx: L1Tx, t: TokenID)
    requires AccountsUpTo(led, led.currentIdx) && TokensAgree(led, tx) && tx.typ == TypeForceTransfer
    requires MoveL1(led, tx.fromIdx, tx.toIdx, tx.effectiveAmount).Ok?
    ensures SumTo(MoveL1(led, tx.fromIdx, tx.toIdx, tx.effectiveAmount).value.accounts, t, led.currentIdx + 1)
      == SumTo(led.accounts, t, led.currentIdx + 1)
  {
    hide MoveL1, Credit, SumTo;
    MoveL1Is(led, tx.fromIdx, tx.toIdx, tx.effectiveAmount);
    var n := led.currentIdx;
    var s := led.accounts[tx.fromIdx];
    var s1 := s.(balance := s.balance - tx.effectiveAmount);
    UpdateKeeps(led, n, tx.fromIdx, s1);
    SumMoves(led.accounts, t, n + 1, tx.fromIdx, s1);
    CreditMoves(led.Update(tx.fromIdx, s1).value, n, tx.fromIdx, s1, tx.toIdx, tx.effectiveAmount, t);
  }

  lemma DepositConserves(led: Ledger, tx: L1Tx, t: TokenID)
    requires AccountsUpTo(led, led.currentIdx) && TokensAgree(led, tx)
    requires tx.typ == TypeDeposit || tx.typ == TypeDepositTransfer
    requires Deposit(led, tx, tx.typ == TypeDepositTransfer).Ok?
    ensures SumTo(Deposit(led, tx, tx.typ == TypeDepositTransfer).value.accounts, t, led.currentIdx + 1)
      == SumTo(led.accounts, t, led.currentIdx + 1) + FlowL1(tx, t)
  {
    hide Deposit, Credit, SumTo;
    DepositIs(led, tx, tx.typ == TypeDepositTransfer);
    var n := led.currentIdx;
    var s := led.accounts[tx.fromIdx];
    var s1 := s.(balance := s.balance + tx.effectiveDepositAmount - tx.effectiveAmount);
    UpdateKeeps(led, n, tx.fromIdx, s1);
    SumMoves(led.accounts, t, n + 1, tx.fromIdx, s1);
    if tx.typ == TypeDepositTransfer {
      CreditMoves(led.Update(tx.fromIdx, s1).value, n, tx.fromIdx, s1, tx.toIdx, tx.effectiveAmount, t);
    }
  }

  lemma CreateMoves(led: Ledger, a: Account, t: TokenID)
    requires AccountsUpTo(led, led.currentIdx) && led.currentIdx >= RESERVED_IDX
    requires led.Create(led.currentIdx + 1, a).Ok?
    ensures SumTo(led.Create(led.currentIdx + 1, a).value.accounts, t, led.currentIdx + 2)
      == SumTo(led.accounts, t, led.currentIdx + 1) + if a.tokenID == t then a.balance else 0
  {
    var n := led.currentIdx;
    CreateKeeps(led, n, a);
    SumIgnoresAbove(led.accounts, t, n + 1, n + 2);
    SumUpdate(led.accounts, t, n + 2, n + 1, Canon(a));
  }

  lemma OpenAndMoveConserves(led: Ledger, tx: L1Tx, t: TokenID)
    requires AccountsUpTo(led, led.currentIdx) && led.currentIdx >= RESERVED_IDX && TokensAgree(led, tx)
    requires tx.typ == TypeCreateAccountDepositTransfer && OpenAndMove(led, tx).Ok?
    ensures SumTo(OpenAndMove(led, tx).value.accounts, t, led.currentIdx + 2)
      == SumTo(led.accounts, t, led.currentIdx + 1) + FlowL1(tx, t)
  {
    OpenAndMoveIs(led, tx);
    var i := led.currentIdx + 1;
    var s := Opener(tx);
    CreateMoves(led, s, t);
    CreditMoves(led.Create(i, s).value, i, i, s, tx.toIdx, tx.effectiveAmount, t);
  }

  lemma LeaveExitMoves(st: BState, i: Idx, a: Account, amount: nat, declared: nat, t: TokenID)
    requires AccountsUpTo(st.led, st.led.currentIdx) && ExitsOK(st)
    requires i in st.led.accounts && Static(st.led.accounts[i], a) && (declared == 0 ==> amount == 0)
    requires LeaveExit(st, i, a, amount, declared).Ok?
    ensures var st' := LeaveExit(st, i, a, amount, declared).value;
      && ExitsOK(st') && st'.led == st.led && st'.collected == st.collected && st'.accumulated == st.accumulated
      && SumTo(st'.exits, t, st.led.currentIdx + 1)
         == SumTo(st.exits, t, st.led.currentIdx + 1) + if a.tokenID == t then amount else 0
  {
    if declared != 0 {
      var st' := LeaveExit(st, i, a, amount, declared).value;
      SumUpdate(st.exits, t, st.led.currentIdx + 1, i, st'.exits[i]);
    }
  }

  function LeafBalance(exits: map<Idx, Account>, i: Idx): nat {
    if i in exits then exits[i].balance else 0
  }

  // The leaf of account i is raised, or made, and no other changes; nothing declared leaves none.
  ghost predicate LeafRaised(exits: map<Idx, Account>, exits': map<Idx, Account>, i: Idx, amount: nat, declared: nat) {
    && exits'.Keys == exits.Keys + (if declared == 0 then {} else {i})
    && forall j :: j in exits' ==> LeafBalance(exits', j) == LeafBalance(exits, j) + if j == i then amount else 0
  }

  lemma LeaveExitRaises(st: BState, i: Idx, a: Account, amount: nat, declared: nat)
    requires LeaveExit(st, i, a, amount, declared).Ok? && (declared == 0 ==> amount == 0)
    ensures var st' := LeaveExit(st, i, a, amount, declared).value;
      st' == st.(exits := st'.exits) && LeafRaised(st.exits, st'.exits, i, amount, declared)
  {
  }

  lemma LeafIff(st: BState, i: Idx, a: Account, amount: nat, declared: nat)
    requires i <= MAX_IDX && (i in st.exits ==> st.exits[i].nonce == 0)
    ensures var r := LeaveExit(st, i, a, amount, declared);
      && (r.Ok? <==> declared == 0 || LeafBalance(st.exits, i) + amount < TWO_192)
      && r != Err(NotEnoughBalance)
  {
  }

  lemma ExitsSurvive(st: BState, led': Ledger)
    requires ExitsOK(st) && Extends(st.led, led')
    ensures ExitsOK(st.(led := led'))
  {
  }

  lemma ExitL1Conserves(st: BState, tx: L1Tx, t: TokenID)
    requires AccountsUpTo(st.led, st.led.currentIdx) && ExitsOK(st) && ExitL1(st, tx).Ok?
    requires tx.amount == 0 ==> tx.effectiveAmount == 0
    ensures var st' := ExitL1(st, tx).value;
      && ExitsOK(st') && st'.collected == st.collected && st'.accumulated == st.accumulated
      && Held(st'.led, st'.exits, t) == Held(st.led, st.exits, t)
  {
    var n := st.led.currentIdx;
    var s := st.led.accounts[tx.fromIdx];
    var s1 := s.(balance := s.balance - tx.effectiveAmount);
    var led1 := st.led.Update(tx.fromIdx, s1).value;
    var st1 := st.(led := led1);
    assert ExitL1(st, tx) == LeaveExit(st1, tx.fromIdx, s1, tx.effectiveAmount, tx.amount);
    UpdateKeeps(st.led, n, tx.fromIdx, s1);
    hide ExitL1, LeaveExit, SumTo, AddExit;
    SumMoves(st.led.accounts, t, n + 1, tx.fromIdx, s1);
    ExitsSurvive(st, led1);
    LeaveExitMoves(st1, tx.fromIdx, s1, tx.effectiveAmount, tx.amount, t);
  }

  // ---- one transaction ----

  lemma AccountsPartConserves(st: BState, tx: L1Tx, t: TokenID)
    requires AccountsUpTo(st.led, st.led.currentIdx) && TokensAgree(st.led, tx) && ApplyL1(st, tx).Ok?
    requires !CreatesAccount(tx.typ) && tx.typ != TypeForceExit
    ensures var st' := ApplyL1(st, tx).value;
      && st' == st.(led := st'.led)
      && st'.led.currentIdx == st.led.currentIdx && Extends(st.led, st'.led)
      && SumTo(st'.led.accounts, t, st.led.currentIdx + 1)
         == SumTo(st.led.accounts, t, st.led.currentIdx + 1) + FlowL1(tx, t)
  {
    L1KeepsShape(st, tx);
    if tx.typ == TypeForceTransfer {
      MoveL1Conserves(st.led, tx, t);
    } else if tx.typ == TypeDeposit || tx.typ == TypeDepositTransfer {
      DepositConserves(st.led, tx, t);
    }
  }

  lemma OpeningConserves(st: BState, log: seq<Creation>, tx: L1Tx, t: TokenID)
    requires Inv(st.led, log) && TokensAgree(st.led, tx) && ApplyL1(st, tx).Ok?
    requires CreatesAccount(tx.typ)
    ensures var st' := ApplyL1(st, tx).value;
      && st' == st.(led := st'.led)
      && st'.led.currentIdx == st.led.currentIdx + 1 && Extends(st.led, st'.led)
      && SumTo(st'.led.accounts, t, st.led.currentIdx + 2)
         == SumTo(st.led.accounts, t, st.led.currentIdx + 1) + FlowL1(tx, t)
  {
    L1Opens(st, log, tx);
    hide SumTo, Indexed;
    if tx.typ == TypeCreateAccountDeposit {
      CreateMoves(st.led, Account(tx.tokenID, 0, tx.effectiveDepositAmount, tx.fromBJJ, tx.fromEthAddr), t);
    } else {
      OpenAndMoveConserves(st.led, tx, t);
    }
  }

  // What one prepared L1 transaction does to the worth of every token.
  lemma ApplyL1Conserves(st: BState, log: seq<Creation>, tx: L1Tx, t: TokenID)
    requires Inv(st.led, log) && ExitsOK(st) && TokensAgree(st.led, tx) && ApplyL1(st, tx).Ok?
    requires tx.amount == 0 ==> tx.effectiveAmount == 0
    ensures var st' := ApplyL1(st, tx).value;
      && ExitsOK(st') && st'.collected == st.collected && st'.accumulated == st.accumulated
      && Held(st'.led, st'.exits, t) == Held(st.led, st.exits, t) + FlowL1(tx, t)
  {
    if tx.typ == TypeForceExit {
      ExitL1Conserves(st, tx, t);
    } else if CreatesAccount(tx.typ) {
      OpeningConserves(st, log, tx, t);
      ExitsSurvive(st, ApplyL1(st, tx).value.led);
      SumIgnoresAbove(st.exits, t, st.led.currentIdx + 1, st.led.currentIdx + 2);
    } else {
      AccountsPartConserves(st, tx, t);
      ExitsSurvive(st, ApplyL1(st, tx).value.led);
    }
  }

  lemma EffectiveBounds(led: Ledger, tx: L1Tx)
    ensures var e := Effective(led, tx);
      && (e.effectiveAmount == 0 || e.effectiveAmount == tx.amount)
      && (e.effectiveDepositAmount == 0 || e.effectiveDepositAmount == tx.depositAmount)
  {
  }

  lemma RunOneL1Shape(mode: Mode, st: BState, tx: L1Tx)
    requires RunOneL1(mode, st, tx).Ok?
    ensures ApplyL1(st, Prepared(st.led, tx)).Ok?
    ensures var (st', tx') := RunOneL1(mode, st, tx).value;
      && st' == ApplyL1(st, Prepared(st.led, tx)).value
      && tx' == Prepared(st.led, tx).(effectiveFromIdx := tx'.effectiveFromIdx)
  {
  }

  lemma PreparedAgrees(led: Ledger, tx: L1Tx)
    requires AccountsUpTo(led, led.currentIdx) && IsL1Type(tx.typ)
    ensures var tx1 := Prepared(led, tx);
      && TokensAgree(led, tx1) && (tx1.amount == 0 ==> tx1.effectiveAmount == 0)
  {
    EffectiveTokensAgree(led, tx);
    EffectiveBounds(led, tx);
  }

  // An L1 transaction changes the worth of a token by exactly its flow.
  lemma L1Conserves(mode: Mode, st: BState, log: seq<Creation>, tx: L1Tx, t: TokenID)
    requires Inv(st.led, log) && ExitsOK(st) && RunOneL1(mode, st, tx).Ok?
    ensures var (st', tx') := RunOneL1(mode, st, tx).value;
      && ExitsOK(st') && st'.collected == st.collected && st'.accumulated == st.accumulated
      && Worth(st', t) == Worth(st, t) + FlowL1(tx', t)
  {
    RunOneL1Shape(mode, st, tx);
    if IsL1Type(tx.typ) {
      PreparedAgrees(st.led, tx);
      ApplyL1Conserves(st, log, Prepared(st.led, tx), t);
    }
  }

  // The same, of the step without its record.
  lemma StepFlows(st: BState, log: seq<Creation>, tx: L1Tx, t: TokenID)
    requires Inv(st.led, log) && ExitsOK(st) && StepL1(st, tx).Ok? && IsL1Type(tx.typ)
    ensures Worth(StepL1(st, tx).value, t) == Worth(st, t) + FlowL1(Prepared(st.led, tx), t)
  {
    hide ApplyL1, Effective;
    PreparedSame(st.led, tx);
    PreparedAgrees(st.led, tx);
    ApplyL1Conserves(st, log, Prepared(st.led, tx), t);
  }

  // ---- L2 ----

  // The token flow of an L2 transaction: a fee without a coordinator account is lost, and a
  // transfer between accounts of different tokens turns one token into the other.
  function FlowL2(led: Ledger, fees: FeeTable, coordOf: map<TokenID, Idx>, tx: PoolL2Tx, t: TokenID): int {
    if !IsL2Type(tx.typ) || tx.fromIdx !in led.accounts || CalcFeeAmount(fees, tx.amount, tx.fee).Err? then 0
    else
      var from := led.accounts[tx.fromIdx].tokenID;
      var lost := if from == t && t !in coordOf then CalcFeeAmount(fees, tx.amount, tx.fee).value else 0;
      Crossing(led, tx, t) - lost
  }

  function Crossing(led: Ledger, tx: PoolL2Tx, t: TokenID): int {
    if IsTransfer(tx.typ) && tx.fromIdx in led.accounts && Receiver(tx) in led.accounts then
      (if led.accounts[Receiver(tx)].tokenID == t then tx.amount else 0)
      - (if led.accounts[tx.fromIdx].tokenID == t then tx.amount else 0)
    else 0
  }

  lemma DebitConserves(fees: FeeTable, coordOf: map<TokenID, Idx>, st: BState, from: Idx, amount: nat,
                       sel: FeeSelector, t: TokenID)
    requires AccountsUpTo(st.led, st.led.currentIdx) && FeesOK(st, coordOf)
    requires Debit(fees, coordOf, st, from, amount, sel).Ok?
    ensures from in st.led.accounts && CalcFeeAmount(fees, amount, sel).Ok?
    ensures var (st1, s1) := Debit(fees, coordOf, st, from, amount, sel).value;
      var fee := CalcFeeAmount(fees, amount, sel).value;
      var token := st.led.accounts[from].tokenID;
      && FeesOK(st1, coordOf) && st1.exits == st.exits && st1.accumulated.Keys == st.accumulated.Keys
      && SumTo(st1.led.accounts, t, st.led.currentIdx + 1) + Pending(st1, t)
         == SumTo(st.led.accounts, t, st.led.currentIdx + 1) + Pending(st, t)
            - (if token == t then amount + (if t in coordOf then 0 else fee) else 0)
  {
    var n := st.led.currentIdx;
    var fee := CalcFeeAmount(fees, amount, sel).value;
    DebitKeeps(fees, coordOf, st, n, from, amount, sel);
    var s := st.led.accounts[from];
    AccrueKeepsTotals(st, coordOf, s.tokenID, fee);
    var (st1, s1) := Debit(fees, coordOf, st, from, amount, sel).value;
    SumMoves(st.led.accounts, t, n + 1, from, s1);
  }

  lemma MoveL2Conserves(fees: FeeTable, coordOf: map<TokenID, Idx>, st: BState, from: Idx, to: Idx, amount: nat,
                        sel: FeeSelector, t: TokenID)
    requires AccountsUpTo(st.led, st.led.currentIdx) && FeesOK(st, coordOf) && ExitsOK(st)
    requires MoveL2(fees, coordOf, st, from, to, amount, sel).Ok?
    ensures from in st.led.accounts && to in st.led.accounts && CalcFeeAmount(fees, amount, sel).Ok?
    ensures var st' := MoveL2(fees, coordOf, st, from, to, amount, sel).value;
      var fee := CalcFeeAmount(fees, amount, sel).value;
      && FeesOK(st', coordOf) && ExitsOK(st') && st'.accumulated.Keys == st.accumulated.Keys
      && Worth(st', t) == Worth(st, t)
         - (if st.led.accounts[from].tokenID == t then amount + (if t in coordOf then 0 else fee) else 0)
         + (if st.led.accounts[to].tokenID == t then amount else 0)
  {
    var n := st.led.currentIdx;
    DebitKeeps(fees, coordOf, st, n, from, amount, sel);
    DebitConserves(fees, coordOf, st, from, amount, sel, t);
    var (st1, s1) := Debit(fees, coordOf, st, from, amount, sel).value;
    CreditMoves(st1.led, n, from, s1, to, amount, t);
    CreditKeeps(st1.led, n, from, s1, to, amount);
    var st' := MoveL2(fees, coordOf, st, from, to, amount, sel).value;
    assert st' == st1.(led := Credit(st1.led, from, s1, to, amount).value);
    ExitsSurvive(st, st'.led);
  }

  lemma ExitL2Conserves(fees: FeeTable, coordOf: map<TokenID, Idx>, st: BState, from: Idx, amount: nat,
                        sel: FeeSelector, t: TokenID)
    requires AccountsUpTo(st.led, st.led.currentIdx) && FeesOK(st, coordOf) && ExitsOK(st)
    requires ExitL2(fees, coordOf, st, from, amount, sel).Ok?
    ensures from in st.led.accounts && CalcFeeAmount(fees, amount, sel).Ok?
    ensures var st' := ExitL2(fees, coordOf, st, from, amount, sel).value;
      var fee := CalcFeeAmount(fees, amount, sel).value;
      && FeesOK(st', coordOf) && ExitsOK(st') && st'.accumulated.Keys == st.accumulated.Keys
      && Worth(st', t) == Worth(st, t)
         - (if st.led.accounts[from].tokenID == t && t !in coordOf then fee else 0)
  {
    DebitKeeps(fees, coordOf, st, st.led.currentIdx, from, amount, sel);
    DebitConserves(fees, coordOf, st, from, amount, sel, t);
    var (st1, s1) := Debit(fees, coordOf, st, from, amount, sel).value;
    ExitsSurvive(st, st1.led);
    LeaveExitMoves(st1, from, s1, amount, amount, t);
    assert ExitL2(fees, coordOf, st, from, amount, sel) == LeaveExit(st1, from, s1, amount, amount);
  }

  lemma ApplyL2Conserves(fees: FeeTable, coordOf: map<TokenID, Idx>, st: BState, tx: PoolL2Tx, t: TokenID)
    requires AccountsUpTo(st.led, st.led.currentIdx) && FeesOK(st, coordOf) && ExitsOK(st)
    requires ApplyL2(fees, coordOf, st, tx).Ok?
    ensures var st' := ApplyL2(fees, coordOf, st, tx).value;
      && FeesOK(st', coordOf) && ExitsOK(st') && st'.accumulated.Keys == st.accumulated.Keys
      && Worth(st', t) == Worth(st, t) + FlowL2(st.led, fees, coordOf, tx, t)
  {
    if IsTransfer(tx.typ) {
      MoveL2Conserves(fees, coordOf, st, tx.fromIdx, Receiver(tx), tx.amount, tx.fee, t);
    } else if tx.typ == TypeExit {
      ExitL2Conserves(fees, coordOf, st, tx.fromIdx, tx.amount, tx.fee, t);
    }
  }

  lemma RunOneL2Shape(mode: Mode, fees: FeeTable, coordOf: map<TokenID, Idx>, st: BState, tx: PoolL2Tx)
    requires RunOneL2(mode, fees, coordOf, st, tx).Ok?
    ensures var (st', tx') := RunOneL2(mode, fees, coordOf, st, tx).value;
      && ApplyL2(fees, coordOf, st, tx') == Ok(st')
      && tx' == tx.(auxToIdx := tx'.auxToIdx, nonce := tx'.nonce, tokenID := tx'.tokenID)
  {
  }

  // An L2 transaction changes the worth of a token by exactly its flow.
  lemma L2Conserves(mode: Mode, fees: FeeTable, coordOf: map<TokenID, Idx>, st: BState, tx: PoolL2Tx, t: TokenID)
    requires AccountsUpTo(st.led, st.led.currentIdx) && FeesOK(st, coordOf) && ExitsOK(st)
    requires RunOneL2(mode, fees, coordOf, st, tx).Ok?
    ensures var (st', tx') := RunOneL2(mode, fees, coordOf, st, tx).value;
      && FeesOK(st', coordOf) && ExitsOK(st') && st'.accumulated.Keys == st.accumulated.Keys
      && Worth(st', t) == Worth(st, t) + FlowL2(st.led, fees, coordOf, tx', t)
  {
    RunOneL2Shape(mode, fees, coordOf, st, tx);
    ApplyL2Conserves(fees, coordOf, st, RunOneL2(mode, fees, coordOf, st, tx).value.1, t);
  }

  lemma FlowL2Stable(led: Ledger, led': Ledger, fees: FeeTable, coordOf: map<TokenID, Idx>, tx: PoolL2Tx, t: TokenID)
    requires SameShape(led, led')
    ensures FlowL2(led, fees, coordOf, tx, t) == FlowL2(led', fees, coordOf, tx, t)
  {
  }
}
