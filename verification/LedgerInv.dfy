// What every successful transaction keeps: the shape of the account table, the fixed fields of an
// account, its nonce, and the address index.
module LedgerInvariants {
  import opened Types
  import opened Accounts
  import opened Txs
  import opened Ledgers

  // The accounts are exactly 32..n, each one storable and with a canonical key.
  ghost predicate AccountsUpTo(led: Ledger, n: Idx) {
    && n <= MAX_IDX
    && (forall i :: i in led.accounts <==> USER_THRESHOLD <= i <= n)
    && (forall i :: i in led.accounts ==> Encodable(led.accounts[i]) && Canonical(led.accounts[i]))
  }

  // An account was created with this address, key and token; the k-th creation made account 32 + k.
  datatype Creation = Creation(addr: Addr, bjj: BJJ, token: TokenID)

  ghost predicate Matches(a: Account, c: Creation) {
    a.tokenID == c.token && a.ethAddr == c.addr && a.bjj == CanonKey(c.bjj)
  }

  ghost predicate CreatedAt(log: seq<Creation>, i: Idx, addr: Addr, token: TokenID) {
    && USER_THRESHOLD <= i < USER_THRESHOLD + |log|
    && log[i - USER_THRESHOLD].addr == addr && log[i - USER_THRESHOLD].token == token
  }

  ghost predicate CreatedExactlyAt(log: seq<Creation>, i: Idx, c: Creation) {
    USER_THRESHOLD <= i < USER_THRESHOLD + |log| && log[i - USER_THRESHOLD] == c
  }

  ghost predicate AddrIndexed(byAddr: map<AddrKey, Idx>, log: seq<Creation>) {
    && (forall a, t :: (a, t) in byAddr ==> CreatedAt(log, byAddr[(a, t)], a, t))
    && (forall k :: 0 <= k < |log| ==> (log[k].addr, log[k].token) in byAddr)
  }

  ghost predicate BjjIndexed(byAddrBjj: map<AddrBjjKey, Idx>, log: seq<Creation>) {
    forall a, b, t :: (a, b, t) in byAddrBjj ==>
      CreatedExactlyAt(log, byAddrBjj[(a, b, t)], Creation(a, b, t))
  }

  ghost predicate BjjLeast(byAddrBjj: map<AddrBjjKey, Idx>, log: seq<Creation>) {
    forall k :: 0 <= k < |log| && log[k].addr != EMPTY_ADDR && log[k].bjj != EMPTY_BJJ ==>
      && (log[k].addr, log[k].bjj, log[k].token) in byAddrBjj
      && byAddrBjj[(log[k].addr, log[k].bjj, log[k].token)] <= USER_THRESHOLD + k
  }

  // A creation is written to the address entries unless an earlier one answers its lookup: one with
  // the same address, token and key, or for an empty key any with the same address and token.
  ghost predicate Shadows(e: Creation, c: Creation) {
    e.addr == c.addr && e.token == c.token && (c.bjj == EMPTY_BJJ || e.bjj == c.bjj)
  }

  ghost predicate Written(log: seq<Creation>, k: nat)
    requires k < |log|
  {
    forall j :: 0 <= j < k ==> !Shadows(log[j], log[k])
  }

  ghost predicate IsWritten(log: seq<Creation>, i: Idx) {
    USER_THRESHOLD <= i < USER_THRESHOLD + |log| && Written(log, i - USER_THRESHOLD)
  }

  // The address entry holds a creation that was written, and the latest one.
  ghost predicate AddrWritten(byAddr: map<AddrKey, Idx>, log: seq<Creation>) {
    forall a, t :: (a, t) in byAddr && a != EMPTY_ADDR ==> IsWritten(log, byAddr[(a, t)])
  }

  ghost predicate AddrAtLeast(byAddr: map<AddrKey, Idx>, log: seq<Creation>)
    requires AddrIndexed(byAddr, log)
  {
    forall k :: 0 <= k < |log| && log[k].addr != EMPTY_ADDR && Written(log, k) ==>
      byAddr[(log[k].addr, log[k].token)] >= USER_THRESHOLD + k
  }

  ghost predicate AddrLatest(byAddr: map<AddrKey, Idx>, log: seq<Creation>)
    requires AddrIndexed(byAddr, log)
  {
    AddrWritten(byAddr, log) && AddrAtLeast(byAddr, log)
  }

  // The two address entries, described by the creations alone.
  ghost predicate Indexed(led: Ledger, log: seq<Creation>) {
    && AddrIndexed(led.byAddr, log) && AddrLatest(led.byAddr, log)
    && BjjIndexed(led.byAddrBjj, log) && BjjLeast(led.byAddrBjj, log)
  }

  ghost predicate Inv(led: Ledger, log: seq<Creation>) {
    && AccountsUpTo(led, led.currentIdx)
    && led.currentIdx == RESERVED_IDX + |log|
    && (forall k :: 0 <= k < |log| ==> Matches(led.accounts[USER_THRESHOLD + k], log[k]))
    && Indexed(led, log)
  }

  ghost predicate Static(a: Account, b: Account) {
    a.tokenID == b.tokenID && a.ethAddr == b.ethAddr && a.bjj == b.bjj
  }

  // No account disappears or changes token, address or key.
  ghost predicate Extends(led: Ledger, led': Ledger) {
    forall i :: i in led.accounts ==> i in led'.accounts && Static(led.accounts[i], led'.accounts[i])
  }

  // Only the accounts differ, and those in balance and nonce alone.
  ghost predicate SameShape(led: Ledger, led': Ledger) {
    && led' == led.(accounts := led'.accounts)
    && led'.accounts.Keys == led.accounts.Keys
    && Extends(led, led')
  }

  ghost predicate SameNonces(led: Ledger, led': Ledger) {
    forall i :: i in led.accounts && i in led'.accounts ==> led.accounts[i].nonce == led'.accounts[i].nonce
  }

  // Old accounts keep their nonce and new ones start at zero.
  ghost predicate NoncesKept(led: Ledger, led': Ledger) {
    forall i :: i in led'.accounts ==>
      led'.accounts[i].nonce == if i in led.accounts then led.accounts[i].nonce else 0
  }

  function Creations(tx: L1Tx): seq<Creation> {
    if CreatesAccount(tx.typ) then [Creation(tx.fromEthAddr, tx.fromBJJ, tx.tokenID)] else []
  }

  // ---- the primitive operations ----

  lemma UpdateKeeps(led: Ledger, n: Idx, i: Idx, a: Account)
    requires AccountsUpTo(led, n) && led.Update(i, a).Ok?
    requires i in led.accounts && Static(led.accounts[i], Canon(a))
    ensures var led' := led.Update(i, a).value;
      led'.accounts == led.accounts[i := Canon(a)] && AccountsUpTo(led', n) && SameShape(led, led')
  {
  }

  lemma CreateKeeps(led: Ledger, n: Idx, a: Account)
    requires n >= RESERVED_IDX && AccountsUpTo(led, n) && led.Create(n + 1, a).Ok?
    ensures var led' := led.Create(n + 1, a).value;
      && led'.accounts == led.accounts[n + 1 := Canon(a)]
      && AccountsUpTo(led', n + 1) && Extends(led, led')
      && led'.currentIdx == led.currentIdx
  {
  }

  lemma AddrIndexedGrows(byAddr: map<AddrKey, Idx>, log: seq<Creation>, c: Creation, stored: bool)
    requires AddrIndexed(byAddr, log)
    requires !stored ==> (c.addr, c.token) in byAddr
    ensures AddrIndexed(if stored then byAddr[(c.addr, c.token) := USER_THRESHOLD + |log|] else byAddr, log + [c])
  {
    forall i: Idx, a, t | CreatedAt(log, i, a, t)
      ensures CreatedAt(log + [c], i, a, t)
    {
    }
    assert CreatedAt(log + [c], USER_THRESHOLD + |log|, c.addr, c.token);
  }

  lemma BjjIndexedGrows(byAddrBjj: map<AddrBjjKey, Idx>, log: seq<Creation>, c: Creation, stored: bool)
    requires BjjIndexed(byAddrBjj, log)
    ensures BjjIndexed(if stored then byAddrBjj[(c.addr, c.bjj, c.token) := USER_THRESHOLD + |log|] else byAddrBjj,
                       log + [c])
  {
    forall i: Idx, d | CreatedExactlyAt(log, i, d)
      ensures CreatedExactlyAt(log + [c], i, d)
    {
    }
    assert CreatedExactlyAt(log + [c], USER_THRESHOLD + |log|, c);
  }

  lemma {:induction false} WrittenStays(log: seq<Creation>, c: Creation, k: nat)
    requires k < |log|
    ensures Written(log + [c], k) <==> Written(log, k)
  {
    var log' := log + [c];
    assert log'[k] == log[k];
    assert forall j :: 0 <= j < k ==> log'[j] == log[j];
  }

  lemma AddrWrittenGrows(byAddr: map<AddrKey, Idx>, log: seq<Creation>, c: Creation, stored: bool)
    requires AddrWritten(byAddr, log)
    requires c.addr != EMPTY_ADDR && stored ==> Written(log + [c], |log|)
    ensures AddrWritten(if stored then byAddr[(c.addr, c.token) := USER_THRESHOLD + |log|] else byAddr, log + [c])
  {
    forall i: Idx | IsWritten(log, i)
      ensures IsWritten(log + [c], i)
    {
      WrittenStays(log, c, i - USER_THRESHOLD);
    }
  }

  lemma AddrAtLeastGrows(byAddr: map<AddrKey, Idx>, log: seq<Creation>, c: Creation, stored: bool)
    requires AddrIndexed(byAddr, log) && AddrAtLeast(byAddr, log)
    requires c.addr != EMPTY_ADDR && Written(log + [c], |log|) ==> stored
    requires AddrIndexed(if stored then byAddr[(c.addr, c.token) := USER_THRESHOLD + |log|] else byAddr, log + [c])
    ensures AddrAtLeast(if stored then byAddr[(c.addr, c.token) := USER_THRESHOLD + |log|] else byAddr, log + [c])
  {
    var log' := log + [c];
    var byAddr' := if stored then byAddr[(c.addr, c.token) := USER_THRESHOLD + |log|] else byAddr;
    forall k | 0 <= k < |log'| && log'[k].addr != EMPTY_ADDR && Written(log', k)
      ensures byAddr'[(log'[k].addr, log'[k].token)] >= USER_THRESHOLD + k
    {
      if k < |log| {
        assert log'[k] == log[k];
        WrittenStays(log, c, k);
      }
    }
  }

  ghost predicate Shadowed(log: seq<Creation>, c: Creation) {
    exists j :: 0 <= j < |log| && Shadows(log[j], c)
  }

  lemma WrittenUnlessShadowed(log: seq<Creation>, c: Creation)
    ensures Written(log + [c], |log|) <==> !Shadowed(log, c)
  {
    var log' := log + [c];
    assert forall j :: 0 <= j < |log| ==> log'[j] == log[j];
  }

  lemma LookupHit(led: Ledger, log: seq<Creation>, c: Creation)
    requires AddrIndexed(led.byAddr, log) && BjjIndexed(led.byAddrBjj, log)
    requires led.Lookup(c.addr, c.bjj, c.token).Ok?
    ensures CreatedAt(log, led.Lookup(c.addr, c.bjj, c.token).value, c.addr, c.token)
    ensures Shadowed(log, c)
  {
    var i := led.Lookup(c.addr, c.bjj, c.token).value;
    if c.bjj == EMPTY_BJJ {
      assert CreatedAt(log, i, c.addr, c.token);
    } else {
      assert CreatedExactlyAt(log, i, c);
    }
    assert Shadows(log[i - USER_THRESHOLD], c);
  }

  lemma LookupMiss(led: Ledger, log: seq<Creation>, c: Creation)
    requires AddrIndexed(led.byAddr, log) && BjjLeast(led.byAddrBjj, log) && c.addr != EMPTY_ADDR
    requires led.Lookup(c.addr, c.bjj, c.token).Err?
    ensures !Shadowed(log, c)
  {
    forall j | 0 <= j < |log|
      ensures !Shadows(log[j], c)
    {
      assert (log[j].addr, log[j].token) in led.byAddr;
    }
  }

  lemma RegisterKeeps(led: Ledger, log: seq<Creation>, c: Creation)
    requires Indexed(led, log)
    ensures Indexed(led.Register(USER_THRESHOLD + |log|, c.addr, c.bjj, c.token), log + [c])
  {
    var found := led.Lookup(c.addr, c.bjj, c.token);
    if found.Ok? {
      LookupHit(led, log, c);
    } else if c.addr != EMPTY_ADDR {
      LookupMiss(led, log, c);
    }
    WrittenUnlessShadowed(log, c);
    AddrIndexedGrows(led.byAddr, log, c, found.Err?);
    AddrWrittenGrows(led.byAddr, log, c, found.Err?);
    AddrAtLeastGrows(led.byAddr, log, c, found.Err?);
    BjjIndexedGrows(led.byAddrBjj, log, c, found.Err?);
    BjjLeastGrows(led, log, c);
  }

  lemma BjjLeastGrows(led: Ledger, log: seq<Creation>, c: Creation)
    requires AddrIndexed(led.byAddr, log) && BjjIndexed(led.byAddrBjj, log) && BjjLeast(led.byAddrBjj, log)
    ensures BjjLeast(led.Register(USER_THRESHOLD + |log|, c.addr, c.bjj, c.token).byAddrBjj, log + [c])
  {
    var led' := led.Register(USER_THRESHOLD + |log|, c.addr, c.bjj, c.token);
    if led.Lookup(c.addr, c.bjj, c.token).Ok? {
      LookupHit(led, log, c);
    }
    var log' := log + [c];
    forall k | 0 <= k < |log'| && log'[k].addr != EMPTY_ADDR && log'[k].bjj != EMPTY_BJJ
      ensures (log'[k].addr, log'[k].bjj, log'[k].token) in led'.byAddrBjj
      ensures led'.byAddrBjj[(log'[k].addr, log'[k].bjj, log'[k].token)] <= USER_THRESHOLD + k
    {
      if k < |log| {
        assert log'[k] == log[k];
      }
    }
  }

  lemma CreditKeeps(led: Ledger, n: Idx, from: Idx, s: Account, to: Idx, amount: nat)
    requires AccountsUpTo(led, n) && from in led.accounts && led.accounts[from] == Canon(s)
    requires Credit(led, from, s, to, amount).Ok?
    ensures to in led.accounts
    ensures var led' := Credit(led, from, s, to, amount).value;
      && led'.accounts == led.accounts[to := Raised(led.accounts[to], amount)]
      && AccountsUpTo(led', n) && SameShape(led, led') && SameNonces(led, led')
  {
    var r := if to == from then s else led.accounts[to];
    UpdateKeeps(led, n, to, Raised(r, amount));
  }

  function Raised(a: Account, amount: nat): Account {
    a.(balance := a.balance + amount)
  }

  // ---- the account operations ----

  // The steps of MoveL1: store the sender, credit the receiver.
  lemma MoveL1Is(led: Ledger, from: Idx, to: Idx, amount: nat)
    requires MoveL1(led, from, to, amount).Ok?
    ensures from in led.accounts && led.accounts[from].balance >= amount
    ensures var s1 := led.accounts[from].(balance := led.accounts[from].balance - amount);
      && led.Update(from, s1).Ok?
      && MoveL1(led, from, to, amount) == Credit(led.Update(from, s1).value, from, s1, to, amount)
  {
  }

  lemma MoveL1Keeps(led: Ledger, n: Idx, from: Idx, to: Idx, amount: nat)
    requires AccountsUpTo(led, n) && MoveL1(led, from, to, amount).Ok?
    ensures var led' := MoveL1(led, from, to, amount).value;
      AccountsUpTo(led', n) && SameShape(led, led') && SameNonces(led, led')
  {
    MoveL1Is(led, from, to, amount);
    var s := led.accounts[from];
    var s1 := s.(balance := s.balance - amount);
    UpdateKeeps(led, n, from, s1);
    hide MoveL1, Credit;
    CreditKeeps(led.Update(from, s1).value, n, from, s1, to, amount);
  }

  // The steps of Deposit: store the sender, and credit the receiver if there is one.
  lemma DepositIs(led: Ledger, tx: L1Tx, transfer: bool)
    requires Deposit(led, tx, transfer).Ok?
    ensures tx.fromIdx in led.accounts
    ensures var s := led.accounts[tx.fromIdx];
      && s.balance + tx.effectiveDepositAmount >= tx.effectiveAmount
      && var s1 := s.(balance := s.balance + tx.effectiveDepositAmount - tx.effectiveAmount);
      && led.Update(tx.fromIdx, s1).Ok?
      && Deposit(led, tx, transfer) ==
           if transfer then Credit(led.Update(tx.fromIdx, s1).value, tx.fromIdx, s1, tx.toIdx, tx.effectiveAmount)
           else led.Update(tx.fromIdx, s1)
  {
  }

  lemma DepositKeeps(led: Ledger, n: Idx, tx: L1Tx, transfer: bool)
    requires AccountsUpTo(led, n) && Deposit(led, tx, transfer).Ok?
    ensures var led' := Deposit(led, tx, transfer).value;
      AccountsUpTo(led', n) && SameShape(led, led') && SameNonces(led, led')
  {
    hide Deposit, Credit;
    DepositIs(led, tx, transfer);
    var s := led.accounts[tx.fromIdx];
    var s1 := s.(balance := s.balance + tx.effectiveDepositAmount - tx.effectiveAmount);
    UpdateKeeps(led, n, tx.fromIdx, s1);
    if transfer {
      CreditKeeps(led.Update(tx.fromIdx, s1).value, n, tx.fromIdx, s1, tx.toIdx, tx.effectiveAmount);
    }
  }

  // The new account is the next index; it starts with nonce zero and what the creation says.
  ghost predicate Opened(led: Ledger, log: seq<Creation>, led': Ledger, c: Creation) {
    && Inv(led', log + [c])
    && Extends(led, led') && SameNonces(led, led')
    && led'.currentIdx == led.currentIdx + 1
    && led'.accounts.Keys == led.accounts.Keys + {led.currentIdx + 1}
    && led'.accounts[led.currentIdx + 1].nonce == 0
  }

  lemma LogGrows(led: Ledger, log: seq<Creation>, led2: Ledger, c: Creation)
    requires Inv(led, log) && Extends(led, led2)
    requires led.currentIdx + 1 in led2.accounts && Matches(led2.accounts[led.currentIdx + 1], c)
    ensures var log' := log + [c];
      forall k :: 0 <= k < |log'| ==>
        USER_THRESHOLD + k in led2.accounts && Matches(led2.accounts[USER_THRESHOLD + k], log'[k])
  {
    var log' := log + [c];
    forall k | 0 <= k < |log'|
      ensures USER_THRESHOLD + k in led2.accounts && Matches(led2.accounts[USER_THRESHOLD + k], log'[k])
    {
      if k < |log| {
        assert log'[k] == log[k] && USER_THRESHOLD + k in led.accounts;
      }
    }
  }

  lemma CreateIndexes(led: Ledger, log: seq<Creation>, a: Account)
    requires Inv(led, log) && led.Create(led.currentIdx + 1, a).Ok?
    ensures Indexed(led.Create(led.currentIdx + 1, a).value, log + [Creation(a.ethAddr, a.bjj, a.tokenID)])
  {
    var i := led.currentIdx + 1;
    RegisterKeeps(led.(accounts := led.accounts[i := Canon(a)]), log, Creation(a.ethAddr, a.bjj, a.tokenID));
  }

  // Opening an account, then moving balances around, then advancing the index.
  lemma OpenedBy(led: Ledger, log: seq<Creation>, a: Account, led2: Ledger)
    requires Inv(led, log) && a.nonce == 0 && led.Create(led.currentIdx + 1, a).Ok?
    requires var led1 := led.Create(led.currentIdx + 1, a).value;
      SameShape(led1, led2) && SameNonces(led1, led2) && AccountsUpTo(led2, led.currentIdx + 1)
    ensures Opened(led, log, led2.(currentIdx := led.currentIdx + 1), Creation(a.ethAddr, a.bjj, a.tokenID))
  {
    var i := led.currentIdx + 1;
    var led1 := led.Create(i, a).value;
    CreateKeeps(led, led.currentIdx, a);
    CreateIndexes(led, log, a);
    assert Static(led1.accounts[i], led2.accounts[i]);
    LogGrows(led, log, led2, Creation(a.ethAddr, a.bjj, a.tokenID));
  }

  lemma OpenAccountKeeps(led: Ledger, log: seq<Creation>, tx: L1Tx)
    requires Inv(led, log) && OpenAccount(led, tx).Ok?
    ensures Opened(led, log, OpenAccount(led, tx).value, Creation(tx.fromEthAddr, tx.fromBJJ, tx.tokenID))
  {
    var a := Account(tx.tokenID, 0, tx.effectiveDepositAmount, tx.fromBJJ, tx.fromEthAddr);
    CreateKeeps(led, led.currentIdx, a);
    OpenedBy(led, log, a, led.Create(led.currentIdx + 1, a).value);
  }

  function Opener(tx: L1Tx): Account
    requires tx.effectiveDepositAmount >= tx.effectiveAmount
  {
    Account(tx.tokenID, 0, tx.effectiveDepositAmount - tx.effectiveAmount, tx.fromBJJ, tx.fromEthAddr)
  }

  // The steps of OpenAndMove: create the sender, credit the receiver, advance the index.
  lemma OpenAndMoveIs(led: Ledger, tx: L1Tx)
    requires AccountsUpTo(led, led.currentIdx) && led.currentIdx >= RESERVED_IDX && OpenAndMove(led, tx).Ok?
    ensures tx.effectiveDepositAmount >= tx.effectiveAmount
    ensures var i := led.currentIdx + 1;
      var s := Opener(tx);
      && led.Create(i, s).Ok?
      && var led1 := led.Create(i, s).value;
      && led1.accounts == led.accounts[i := Canon(s)] && AccountsUpTo(led1, i)
      && Credit(led1, i, s, tx.toIdx, tx.effectiveAmount).Ok?
      && OpenAndMove(led, tx).value
         == Credit(led1, i, s, tx.toIdx, tx.effectiveAmount).value.(currentIdx := i)
  {
    CreateKeeps(led, led.currentIdx, Opener(tx));
  }

  lemma OpenAndMoveKeeps(led: Ledger, log: seq<Creation>, tx: L1Tx)
    requires Inv(led, log) && OpenAndMove(led, tx).Ok?
    ensures Opened(led, log, OpenAndMove(led, tx).value, Creation(tx.fromEthAddr, tx.fromBJJ, tx.tokenID))
  {
    OpenAndMoveIs(led, tx);
    var i := led.currentIdx + 1;
    var s := Opener(tx);
    var led1 := led.Create(i, s).value;
    CreditKeeps(led1, i, i, s, tx.toIdx, tx.effectiveAmount);
    OpenedBy(led, log, s, Credit(led1, i, s, tx.toIdx, tx.effectiveAmount).value);
  }

  lemma SameShapeKeepsInv(led: Ledger, log: seq<Creation>, led': Ledger)
    requires Inv(led, log) && SameShape(led, led') && AccountsUpTo(led', led.currentIdx)
    ensures Inv(led', log)
  {
  }

  // ---- one transaction ----

  lemma ExitL1Keeps(st: BState, n: Idx, tx: L1Tx)
    requires AccountsUpTo(st.led, n) && ExitL1(st, tx).Ok?
    ensures var led' := ExitL1(st, tx).value.led;
      AccountsUpTo(led', n) && SameShape(st.led, led') && SameNonces(st.led, led')
  {
    hide AddExit;
    var s := st.led.accounts[tx.fromIdx];
    UpdateKeeps(st.led, n, tx.fromIdx, s.(balance := s.balance - tx.effectiveAmount));
  }

  // An L1 transaction that creates no account.
  lemma L1KeepsShape(st: BState, tx: L1Tx)
    requires AccountsUpTo(st.led, st.led.currentIdx) && ApplyL1(st, tx).Ok? && !CreatesAccount(tx.typ)
    ensures var led' := ApplyL1(st, tx).value.led;
      SameShape(st.led, led') && AccountsUpTo(led', st.led.currentIdx) && SameNonces(st.led, led')
  {
    var n := st.led.currentIdx;
    if tx.typ == TypeForceTransfer {
      MoveL1Keeps(st.led, n, tx.fromIdx, tx.toIdx, tx.effectiveAmount);
    } else if tx.typ == TypeDeposit || tx.typ == TypeDepositTransfer {
      DepositKeeps(st.led, n, tx, tx.typ == TypeDepositTransfer);
    } else if tx.typ == TypeForceExit {
      ExitL1Keeps(st, n, tx);
    }
  }

  lemma L1Opens(st: BState, log: seq<Creation>, tx: L1Tx)
    requires Inv(st.led, log) && ApplyL1(st, tx).Ok? && CreatesAccount(tx.typ)
    ensures Opened(st.led, log, ApplyL1(st, tx).value.led, Creation(tx.fromEthAddr, tx.fromBJJ, tx.tokenID))
  {
    if tx.typ == TypeCreateAccountDeposit {
      OpenAccountKeeps(st.led, log, tx);
    } else {
      OpenAndMoveKeeps(st.led, log, tx);
    }
  }

  lemma PreparedSame(led: Ledger, tx: L1Tx)
    ensures var p := Prepared(led, tx); p == WithEffective(tx, p.effectiveAmount, p.effectiveDepositAmount)
  {
  }

  // Every L1 transaction keeps the invariant, extended by the account it creates; it changes no
  // nonce and none of the fixed fields.
  lemma L1KeepsInv(mode: Mode, st: BState, log: seq<Creation>, tx: L1Tx)
    requires Inv(st.led, log) && RunOneL1(mode, st, tx).Ok?
    ensures var led' := RunOneL1(mode, st, tx).value.0.led;
      && Inv(led', log + Creations(tx))
      && Extends(st.led, led') && NoncesKept(st.led, led')
  {
    var tx1 := Prepared(st.led, tx);
    PreparedSame(st.led, tx);
    if CreatesAccount(tx.typ) {
      L1Opens(st, log, tx1);
    } else {
      assert log + [] == log;
      L1KeepsShape(st, tx1);
      SameShapeKeepsInv(st.led, log, ApplyL1(st, tx1).value.led);
    }
  }

  // The sender's nonce goes up by one, and no other.
  ghost predicate NonceUp(led: Ledger, led': Ledger, from: Idx) {
    && from in led.accounts && led'.accounts.Keys == led.accounts.Keys
    && forall i :: i in led.accounts ==>
         led'.accounts[i].nonce == led.accounts[i].nonce + if i == from then 1 else 0
  }

  lemma DebitKeeps(fees: FeeTable, coordOf: map<TokenID, Idx>, st: BState, n: Idx, from: Idx, amount: nat,
                   sel: FeeSelector)
    requires AccountsUpTo(st.led, n) && Debit(fees, coordOf, st, from, amount, sel).Ok?
    ensures from in st.led.accounts && CalcFeeAmount(fees, amount, sel).Ok?
    ensures var (st1, s1) := Debit(fees, coordOf, st, from, amount, sel).value;
      var s := st.led.accounts[from];
      var fee := CalcFeeAmount(fees, amount, sel).value;
      && s.balance >= amount + fee
      && s1 == s.(nonce := s.nonce + 1, balance := s.balance - (amount + fee))
      && st1.led.accounts == st.led.accounts[from := s1]
      && st1.exits == st.exits
      && AccountsUpTo(st1.led, n) && SameShape(st.led, st1.led) && NonceUp(st.led, st1.led, from)
  {
    var s := st.led.accounts[from];
    var fee := CalcFeeAmount(fees, amount, sel).value;
    UpdateKeeps(st.led, n, from, s.(nonce := s.nonce + 1, balance := s.balance - (amount + fee)));
  }

  // Every L2 transaction keeps the invariant with the same accounts; a transfer or exit raises the
  // sender's nonce by one and touches no other nonce.
  lemma L2KeepsInv(mode: Mode, fees: FeeTable, coordOf: map<TokenID, Idx>, st: BState, log: seq<Creation>,
                   tx: PoolL2Tx)
    requires Inv(st.led, log) && RunOneL2(mode, fees, coordOf, st, tx).Ok?
    ensures var led' := RunOneL2(mode, fees, coordOf, st, tx).value.0.led;
      && Inv(led', log) && SameShape(st.led, led')
      && (if IsL2Type(tx.typ) then NonceUp(st.led, led', tx.fromIdx) else led' == st.led)
  {
    var tx2 := RunOneL2(mode, fees, coordOf, st, tx).value.1;
    assert tx2.fromIdx == tx.fromIdx && tx2.typ == tx.typ && tx2.amount == tx.amount && tx2.fee == tx.fee;
    ApplyL2Keeps(fees, coordOf, st, tx2);
    SameShapeKeepsInv(st.led, log, ApplyL2(fees, coordOf, st, tx2).value.led);
  }

  lemma ShapeThrough(led: Ledger, led1: Ledger, led2: Ledger, from: Idx)
    requires SameShape(led, led1) && NonceUp(led, led1, from) && SameShape(led1, led2) && SameNonces(led1, led2)
    ensures SameShape(led, led2) && NonceUp(led, led2, from)
  {
  }

  lemma ShapeOfSame(led: Ledger)
    ensures SameShape(led, led)
  {
  }

  lemma ApplyL2Keeps(fees: FeeTable, coordOf: map<TokenID, Idx>, st: BState, tx: PoolL2Tx)
    requires AccountsUpTo(st.led, st.led.currentIdx) && ApplyL2(fees, coordOf, st, tx).Ok?
    ensures var led' := ApplyL2(fees, coordOf, st, tx).value.led;
      && AccountsUpTo(led', st.led.currentIdx) && SameShape(st.led, led')
      && (if IsL2Type(tx.typ) then NonceUp(st.led, led', tx.fromIdx) else led' == st.led)
  {
    hide Debit, Credit, SameShape, NonceUp, AddExit;
    var n := st.led.currentIdx;
    if IsL2Type(tx.typ) {
      DebitKeeps(fees, coordOf, st, n, tx.fromIdx, tx.amount, tx.fee);
      var (st1, s1) := Debit(fees, coordOf, st, tx.fromIdx, tx.amount, tx.fee).value;
      if IsTransfer(tx.typ) {
        CreditKeeps(st1.led, n, tx.fromIdx, s1, Receiver(tx), tx.amount);
        ShapeThrough(st.led, st1.led, ApplyL2(fees, coordOf, st, tx).value.led, tx.fromIdx);
      }
    } else {
      ShapeOfSame(st.led);
    }
  }
}
