// Conservation over the loops of a batch, the fee payout, and the whole batch.
module BatchConservation {
  import opened Types
  import opened Accounts
  import opened Txs
  import opened Ledgers
  import opened LedgerInvariants
  import opened Batches
  import opened FeePayout
  import opened Conservation
  import opened Runs

  function FlowL1s(txs: seq<L1Tx>, t: TokenID): int {
    if txs == [] then 0 else FlowL1s(txs[..|txs| - 1], t) + FlowL1(txs[|txs| - 1], t)
  }

  function FlowL2s(led: Ledger, fees: FeeTable, coordOf: map<TokenID, Idx>, txs: seq<PoolL2Tx>, t: TokenID): int {
    if txs == [] then 0
    else
      var last := |txs| - 1;
      FlowL2s(led, fees, coordOf, txs[..last], t) + FlowL2(led, fees, coordOf, txs[last], t)
  }

  lemma {:induction false} L1sConserve(mode: Mode, st: BState, log: seq<Creation>, txs: seq<L1Tx>, t: TokenID)
    requires Inv(st.led, log) && ExitsOK(st) && RunL1s(mode, st, txs).Ok?
    ensures var (st', out) := RunL1s(mode, st, txs).value;
      && ExitsOK(st') && st'.collected == st.collected
      && Worth(st', t) == Worth(st, t) + FlowL1s(out, t)
  {
    if txs != [] {
      var last := |txs| - 1;
      var (st1, out1) := RunL1s(mode, st, txs[..last]).value;
      L1sConserve(mode, st, log, txs[..last], t);
      L1sKeepInv(mode, st, log, txs[..last]);
      L1Conserves(mode, st1, log + AllCreations(txs[..last]), txs[last], t);
      var (st', out) := RunL1s(mode, st, txs).value;
      assert out[..last] == out1;
    }
  }

  lemma {:induction false} L2sConserve(mode: Mode, fees: FeeTable, coordOf: map<TokenID, Idx>, st: BState,
                                       log: seq<Creation>, txs: seq<PoolL2Tx>, t: TokenID)
    requires Inv(st.led, log) && ExitsOK(st) && FeesOK(st, coordOf)
    requires RunL2s(mode, fees, coordOf, st, txs).Ok?
    ensures var (st', out) := RunL2s(mode, fees, coordOf, st, txs).value;
      && ExitsOK(st') && FeesOK(st', coordOf) && st'.accumulated.Keys == st.accumulated.Keys
      && Worth(st', t) == Worth(st, t) + FlowL2s(st.led, fees, coordOf, out, t)
  {
    if txs != [] {
      var last := |txs| - 1;
      var (st1, out1) := RunL2s(mode, fees, coordOf, st, txs[..last]).value;
      L2sConserve(mode, fees, coordOf, st, log, txs[..last], t);
      L2sKeepInv(mode, fees, coordOf, st, log, txs[..last]);
      L2Conserves(mode, fees, coordOf, st1, txs[last], t);
      var (st', out) := RunL2s(mode, fees, coordOf, st, txs).value;
      assert out[..last] == out1;
      FlowL2Stable(st.led, st1.led, fees, coordOf, out[last], t);
    }
  }

  // ---- the payout ----

  function Payout(led: Ledger, idxs: seq<Idx>, accumulated: map<Idx, nat>, t: TokenID): nat
    requires AllIn(led, idxs) && forall i :: i in idxs ==> i in accumulated
  {
    if idxs == [] then 0
    else
      var last := |idxs| - 1;
      Payout(led, idxs[..last], accumulated, t)
      + if led.accounts[idxs[last]].tokenID == t then accumulated[idxs[last]] else 0
  }

  lemma {:induction false} PayFeesAdds(led: Ledger, idxs: seq<Idx>, accumulated: map<Idx, nat>, t: TokenID)
    requires AccountsUpTo(led, led.currentIdx) && AllIn(led, idxs) && DistinctTokens(led, idxs)
    requires PayFees(led, idxs, accumulated).Ok? && forall i :: i in idxs ==> i in accumulated
    ensures SumTo(PayFees(led, idxs, accumulated).value.accounts, t, led.currentIdx + 1)
      == SumTo(led.accounts, t, led.currentIdx + 1) + Payout(led, idxs, accumulated, t)
  {
    if idxs != [] {
      var last := |idxs| - 1;
      var front := idxs[..last];
      PayFeesAdds(led, front, accumulated, t);
      PayFeesIs(led, front, accumulated);
      var led1 := PayFees(led, front, accumulated).value;
      PayOneIs(led1, idxs[last], accumulated);
      SumMoves(led1.accounts, t, led.currentIdx + 1, idxs[last],
               Raised(led1.accounts[idxs[last]], accumulated[idxs[last]]));
    }
  }

  lemma LastTokenIsNew(led: Ledger, idxs: seq<Idx>)
    requires AllIn(led, idxs) && DistinctTokens(led, idxs) && idxs != []
    ensures led.accounts[idxs[|idxs| - 1]].tokenID !in Tokens(led, idxs[..|idxs| - 1])
  {
    var front := idxs[..|idxs| - 1];
    TokensAre(led, front);
    forall t | t in Tokens(led, front)
      ensures t != led.accounts[idxs[|idxs| - 1]].tokenID
    {
      var j :| 0 <= j < |front| && led.accounts[front[j]].tokenID == t;
      assert idxs[j] == front[j];
    }
  }

  // With one account per token, the payout of a token is the total accumulated for its account.
  lemma {:induction false} PayoutIsTotal(led: Ledger, idxs: seq<Idx>, accumulated: map<Idx, nat>, t: TokenID)
    requires AllIn(led, idxs) && DistinctTokens(led, idxs) && forall i :: i in idxs ==> i in accumulated
    ensures t !in Tokens(led, idxs) ==> Payout(led, idxs, accumulated, t) == 0
    ensures forall k :: 0 <= k < |idxs| && led.accounts[idxs[k]].tokenID == t ==>
      Payout(led, idxs, accumulated, t) == accumulated[idxs[k]]
  {
    if idxs != [] {
      var last := |idxs| - 1;
      var front := idxs[..last];
      PayoutIsTotal(led, front, accumulated, t);
      LastTokenIsNew(led, idxs);
      forall k | 0 <= k < |idxs| && led.accounts[idxs[k]].tokenID == t
        ensures Payout(led, idxs, accumulated, t) == accumulated[idxs[k]]
      {
        if k < last {
          assert front[k] == idxs[k];
        }
      }
    }
  }

  // The payout of a token is what is pending for it.
  lemma PayoutIsPending(o: Opening, st: BState, t: TokenID)
    requires AllIn(o.st.led, o.coordIdxs) && IsCoordMap(o.st.led, o.coordIdxs, o.coordOf)
    requires SameShape(o.st.led, st.led) && FeesOK(st, o.coordOf)
    requires AllIn(st.led, o.coordIdxs) && DistinctTokens(st.led, o.coordIdxs)
    requires forall i :: i in o.coordIdxs ==> i in st.accumulated
    ensures Payout(st.led, o.coordIdxs, st.accumulated, t) == Pending(st, t)
  {
    PayoutIsTotal(st.led, o.coordIdxs, st.accumulated, t);
    SameTokens(o.st.led, st.led, o.coordIdxs);
    if t in o.coordOf {
      CoordMapLookup(o.st.led, o.coordIdxs, o.coordOf, t);
      var k :| 0 <= k < |o.coordIdxs| && o.coordIdxs[k] == o.coordOf[t];
      assert st.led.accounts[o.coordIdxs[k]].tokenID == t;
    }
  }

  // The payout moves all pending fees into accounts, token by token.
  lemma PayoutSettles(o: Opening, log: seq<Creation>, st: BState, txs: seq<PoolL2Tx>, t: TokenID)
    requires Ready(o, log) && L2sDone(o, log, st, txs) && FeesOK(st, o.coordOf)
    requires PayFees(st.led, o.coordIdxs, st.accumulated).Ok?
    ensures Held(PayFees(st.led, o.coordIdxs, st.accumulated).value, st.exits, t) == Worth(st, t)
  {
    PayFeesIs(st.led, o.coordIdxs, st.accumulated);
    PayFeesAdds(st.led, o.coordIdxs, st.accumulated, t);
    PayoutIsPending(o, st, t);
  }

  lemma {:induction false} SameTokens(led: Ledger, led': Ledger, idxs: seq<Idx>)
    requires SameShape(led, led') && AllIn(led, idxs) && AllIn(led', idxs)
    ensures Tokens(led', idxs) == Tokens(led, idxs)
  {
    if idxs != [] {
      SameTokens(led, led', idxs[..|idxs| - 1]);
    }
  }

  // ---- the batch ----

  lemma OpeningIsSettled(mode: Mode, led: Ledger, log: seq<Creation>, b: Batch, t: TokenID)
    requires Inv(led, log) && OpenBatch(mode, led, b).Ok?
    ensures var o := OpenBatch(mode, led, b).value;
      && ExitsOK(o.st)
      && Worth(o.st, t) == Held(led, map[], t) + FlowL1s(o.l1User, t) + FlowL1s(o.l1Coord, t)
  {
    var st0 := Fresh(led);
    L1sConserve(mode, st0, log, b.l1User, t);
    L1sKeepInv(mode, st0, log, b.l1User);
    var st1 := RunL1s(mode, st0, b.l1User).value.0;
    L1sConserve(mode, st1, log + AllCreations(b.l1User), b.l1Coord, t);
    var st2 := RunL1s(mode, st1, b.l1Coord).value.0;
    var o := OpenBatch(mode, led, b).value;
    assert o.st.led == st2.led && o.st.exits == st2.exits && st2.collected == map[];
    assert Pending(o.st, t) == 0;
  }

  // Every exit leaf of a batch is that of an account: with its token, key and address, and nonce 0.
  lemma BatchLeaves(mode: Mode, cfg: Config, led: Ledger, log: seq<Creation>, b: Batch)
    requires Inv(led, log) && RunBatch(mode, cfg, led, b).Ok?
    ensures var st := RunBatch(mode, cfg, led, b).value.beforePayout;
      forall i :: i in st.exits ==>
        && i in st.led.accounts
        && var a := st.led.accounts[i];
        st.exits[i] == Account(a.tokenID, 0, st.exits[i].balance, a.bjj, a.ethAddr)
  {
    hide RunL2s, Inv, Worth, Held;
    BatchStages(mode, cfg, led, log, b);
    RunBatchShape(mode, cfg, led, b);
    OpeningIsSettled(mode, led, log, b, 0);
    var o := OpenBatch(mode, led, b).value;
    L2sConserve(mode, cfg.fees, o.coordOf, o.st, Extended(log, b), b.l2, 0);
    assert ExitsOK(RunBatch(mode, cfg, led, b).value.beforePayout);
  }

  // The balance sheet of a batch: for every token, accounts and exit leaves afterwards hold what the
  // accounts held before, plus the flows of the transactions.
  lemma BatchConserves(mode: Mode, cfg: Config, led: Ledger, log: seq<Creation>, b: Batch, t: TokenID)
    requires Inv(led, log) && RunBatch(mode, cfg, led, b).Ok?
    ensures var out := RunBatch(mode, cfg, led, b).value;
      Held(out.led, out.beforePayout.exits, t)
      == Held(led, map[], t) + FlowL1s(out.l1User, t) + FlowL1s(out.l1Coord, t)
         + FlowL2s(out.led, cfg.fees, out.coordOf, out.l2, t)
  {
    BatchStages(mode, cfg, led, log, b);
    RunBatchShape(mode, cfg, led, b);
    OpeningIsSettled(mode, led, log, b, t);
    var o := OpenBatch(mode, led, b).value;
    var out := RunBatch(mode, cfg, led, b).value;
    L2sConserve(mode, cfg.fees, o.coordOf, o.st, Extended(log, b), b.l2, t);
    PayoutSettles(o, Extended(log, b), out.beforePayout, b.l2, t);
    PayFeesIs(out.beforePayout.led, o.coordIdxs, out.beforePayout.accumulated);
    SameShapeTransitive(o.st.led, out.beforePayout.led, out.led);
    FlowL2sStable(o.st.led, out.led, cfg.fees, o.coordOf, out.l2, t);
  }

  lemma {:induction false} FlowL2sStable(led: Ledger, led': Ledger, fees: FeeTable, coordOf: map<TokenID, Idx>,
                                         txs: seq<PoolL2Tx>, t: TokenID)
    requires SameShape(led, led')
    ensures FlowL2s(led', fees, coordOf, txs, t) == FlowL2s(led, fees, coordOf, txs, t)
  {
    if txs != [] {
      FlowL2sStable(led, led', fees, coordOf, txs[..|txs| - 1], t);
      FlowL2Stable(led, led', fees, coordOf, txs[|txs| - 1], t);
    }
  }

  // ---- the whole history ----

  // What all batches of a history have handed out in exit leaves.
  function Withdrawn(cfg: Config, events: seq<Event>, t: TokenID): nat
    requires RunAll(cfg, events).Ok?
  {
    if events == [] then 0
    else
      var last := |events| - 1;
      var out := RunBatch(events[last].mode, cfg, RunAll(cfg, events[..last]).value, events[last].batch).value;
      Withdrawn(cfg, events[..last], t) + SumTo(out.beforePayout.exits, t, out.led.currentIdx + 1)
  }

  // What the transactions of a batch bring in.
  function Inflow(cfg: Config, out: Outcome, t: TokenID): int {
    FlowL1s(out.l1User, t) + FlowL1s(out.l1Coord, t) + FlowL2s(out.led, cfg.fees, out.coordOf, out.l2, t)
  }

  function TotalInflow(cfg: Config, events: seq<Event>, t: TokenID): int
    requires RunAll(cfg, events).Ok?
  {
    if events == [] then 0
    else
      var last := |events| - 1;
      var out := RunBatch(events[last].mode, cfg, RunAll(cfg, events[..last]).value, events[last].batch).value;
      TotalInflow(cfg, events[..last], t) + Inflow(cfg, out, t)
  }

  lemma NothingLeft(led: Ledger, t: TokenID)
    ensures Held(led, map[], t) == SumTo(led.accounts, t, led.currentIdx + 1)
  {
    SumEmpty(t, led.currentIdx + 1);
  }

  // Whatever batches were accepted, in whatever modes: what the accounts hold of a token, and what
  // was ever handed out in exits, is exactly what the transactions brought in.
  lemma {:induction false} HistoryConserves(cfg: Config, events: seq<Event>, t: TokenID)
    requires RunAll(cfg, events).Ok?
    ensures var led := RunAll(cfg, events).value;
      SumTo(led.accounts, t, led.currentIdx + 1) + Withdrawn(cfg, events, t) == TotalInflow(cfg, events, t)
  {
    hide RunBatch, Inv, SumTo, FlowL1s, FlowL2s, Extended;
    if events == [] {
      NothingLeft(EMPTY_LEDGER, t);
      SumEmpty(t, EMPTY_LEDGER.currentIdx + 1);
    } else {
      var last := |events| - 1;
      var front := events[..last];
      var led := RunAll(cfg, front).value;
      HistoryConserves(cfg, front, t);
      EveryRunIsSafe(cfg, front);
      BatchConserves(events[last].mode, cfg, led, History(front), events[last].batch, t);
      NothingLeft(led, t);
    }
  }

  // ---- when nothing is lost or turned into another token ----

  function Credited(tx: L1Tx, t: TokenID): nat {
    if tx.tokenID == t && (CreatesAccount(tx.typ) || tx.typ == TypeDeposit || tx.typ == TypeDepositTransfer)
    then tx.effectiveDepositAmount else 0
  }

  function Deposits(txs: seq<L1Tx>, t: TokenID): nat {
    if txs == [] then 0 else Deposits(txs[..|txs| - 1], t) + Credited(txs[|txs| - 1], t)
  }

  function LostFee(led: Ledger, fees: FeeTable, coordOf: map<TokenID, Idx>, tx: PoolL2Tx, t: TokenID): nat {
    if IsL2Type(tx.typ) && tx.fromIdx in led.accounts && led.accounts[tx.fromIdx].tokenID == t && t !in coordOf
       && CalcFeeAmount(fees, tx.amount, tx.fee).Ok?
    then CalcFeeAmount(fees, tx.amount, tx.fee).value else 0
  }

  function LostFees(led: Ledger, fees: FeeTable, coordOf: map<TokenID, Idx>, txs: seq<PoolL2Tx>, t: TokenID): nat {
    if txs == [] then 0
    else
      var last := |txs| - 1;
      LostFees(led, fees, coordOf, txs[..last], t) + LostFee(led, fees, coordOf, txs[last], t)
  }

  // The flow of an L1 transaction is its credited deposit unless a plain deposit subtracts an amount.
  lemma FlowIsCredited(tx: L1Tx)
    ensures (forall t :: FlowL1(tx, t) == Credited(tx, t)) <==> (tx.typ == TypeDeposit ==> tx.effectiveAmount == 0)
  {
    if tx.typ == TypeDeposit && tx.effectiveAmount > 0 {
      assert FlowL1(tx, tx.tokenID) != Credited(tx, tx.tokenID);
    }
  }

  // A plain deposit declares an amount that its sender owns and can pay.
  predicate DepositTakes(led: Ledger, tx: L1Tx) {
    && tx.typ == TypeDeposit && tx.userOrigin && tx.amount > 0
    && tx.fromIdx in led.accounts
    && led.accounts[tx.fromIdx].tokenID == tx.tokenID && led.accounts[tx.fromIdx].ethAddr == tx.fromEthAddr
    && tx.amount <= led.accounts[tx.fromIdx].balance + tx.depositAmount
  }

  lemma DepositTakesIff(led: Ledger, tx: L1Tx)
    requires AccountsUpTo(led, led.currentIdx) && L1Type(tx) == Ok(tx.typ)
    ensures Prepared(led, tx).typ == tx.typ
    ensures tx.typ == TypeDeposit && Prepared(led, tx).effectiveAmount > 0 <==> DepositTakes(led, tx)
  {
    PreparedSame(led, tx);
  }

  // An L1 transaction changes the worth of every token by exactly what it credits if and only if it is
  // no plain deposit that takes an amount from its sender.
  lemma DepositLosesNothingIff(st: BState, log: seq<Creation>, tx: L1Tx)
    requires Inv(st.led, log) && ExitsOK(st) && StepL1(st, tx).Ok? && L1Type(tx) == Ok(tx.typ)
    ensures (forall t :: Worth(StepL1(st, tx).value, t) == Worth(st, t) + Credited(Prepared(st.led, tx), t))
      <==> !DepositTakes(st.led, tx)
  {
    var tx1 := Prepared(st.led, tx);
    PreparedAgrees(st.led, tx);
    DepositTakesIff(st.led, tx);
    FlowIsCredited(tx1);
    hide Inv, ExitsOK, ApplyL1, Prepared, Worth, FlowL1, Credited, DepositTakes;
    forall t: TokenID
      ensures Worth(StepL1(st, tx).value, t) == Worth(st, t) + FlowL1(tx1, t)
    {
      StepFlows(st, log, tx, t);
    }
    assert (forall t :: Worth(StepL1(st, tx).value, t) == Worth(st, t) + Credited(tx1, t))
      <==> (forall t :: FlowL1(tx1, t) == Credited(tx1, t));
  }

  // An L2 transfer keeps every token to itself unless it moves something between accounts of
  // different tokens.
  ghost predicate SameToken(led: Ledger, tx: PoolL2Tx) {
    IsTransfer(tx.typ) && tx.fromIdx in led.accounts && Receiver(tx) in led.accounts ==>
      tx.amount == 0 || led.accounts[tx.fromIdx].tokenID == led.accounts[Receiver(tx)].tokenID
  }

  lemma CrossesNothing(led: Ledger, tx: PoolL2Tx)
    ensures (forall t :: Crossing(led, tx, t) == 0) <==> SameToken(led, tx)
  {
    if !SameToken(led, tx) {
      assert Crossing(led, tx, led.accounts[tx.fromIdx].tokenID) != 0;
    }
  }

  lemma FlowIsLostFee(led: Ledger, fees: FeeTable, coordOf: map<TokenID, Idx>, tx: PoolL2Tx, t: TokenID)
    requires IsL2Type(tx.typ) && tx.fromIdx in led.accounts && CalcFeeAmount(fees, tx.amount, tx.fee).Ok?
    ensures FlowL2(led, fees, coordOf, tx, t) == Crossing(led, tx, t) - LostFee(led, fees, coordOf, tx, t)
  {
  }

  lemma SenderPaid(fees: FeeTable, coordOf: map<TokenID, Idx>, st: BState, tx: PoolL2Tx)
    requires IsL2Type(tx.typ) && ApplyL2(fees, coordOf, st, tx).Ok?
    ensures tx.fromIdx in st.led.accounts && CalcFeeAmount(fees, tx.amount, tx.fee).Ok?
  {
  }

  // An L2 transaction takes nothing from any token but the fee of a token without a coordinator account
  // if and only if it moves nothing between accounts of different tokens.
  lemma TransferKeepsTokensIff(mode: Mode, fees: FeeTable, coordOf: map<TokenID, Idx>, st: BState, tx: PoolL2Tx)
    requires AccountsUpTo(st.led, st.led.currentIdx) && FeesOK(st, coordOf) && ExitsOK(st)
    requires RunOneL2(mode, fees, coordOf, st, tx).Ok? && IsL2Type(tx.typ)
    ensures var (st', tx') := RunOneL2(mode, fees, coordOf, st, tx).value;
      (forall t :: Worth(st', t) == Worth(st, t) - LostFee(st.led, fees, coordOf, tx', t)) <==> SameToken(st.led, tx')
  {
    hide RunOneL2, ApplyL2, Worth, SameToken, Crossing, LostFee, FlowL2, FeesOK, ExitsOK, AccountsUpTo;
    var (st', tx') := RunOneL2(mode, fees, coordOf, st, tx).value;
    RunOneL2Shape(mode, fees, coordOf, st, tx);
    SenderPaid(fees, coordOf, st, tx');
    CrossesNothing(st.led, tx');
    forall t: TokenID
      ensures Worth(st', t) == Worth(st, t) + Crossing(st.led, tx', t) - LostFee(st.led, fees, coordOf, tx', t)
    {
      L2Conserves(mode, fees, coordOf, st, tx, t);
      FlowIsLostFee(st.led, fees, coordOf, tx', t);
    }
  }

  lemma {:induction false} FlowsAreDeposits(txs: seq<L1Tx>, t: TokenID)
    requires forall k :: 0 <= k < |txs| && txs[k].typ == TypeDeposit ==> txs[k].effectiveAmount == 0
    ensures FlowL1s(txs, t) == Deposits(txs, t)
  {
    if txs != [] {
      FlowsAreDeposits(txs[..|txs| - 1], t);
      FlowIsCredited(txs[|txs| - 1]);
    }
  }

  lemma {:induction false} FlowsAreLostFees(led: Ledger, fees: FeeTable, coordOf: map<TokenID, Idx>,
                                            txs: seq<PoolL2Tx>, t: TokenID)
    requires forall k :: 0 <= k < |txs| ==> SameToken(led, txs[k])
    ensures FlowL2s(led, fees, coordOf, txs, t) == 0 - LostFees(led, fees, coordOf, txs, t)
  {
    if txs != [] {
      var last := |txs| - 1;
      FlowsAreLostFees(led, fees, coordOf, txs[..last], t);
      CrossesNothing(led, txs[last]);
      assert Crossing(led, txs[last], t) == 0;
    }
  }

  // Conservation as the node promises it: the rollup gains the deposits credited in the batch and
  // loses only the fees of tokens without a coordinator account.
  lemma BatchLosesOnlyFees(mode: Mode, cfg: Config, led: Ledger, log: seq<Creation>, b: Batch, t: TokenID)
    requires Inv(led, log) && RunBatch(mode, cfg, led, b).Ok?
    requires forall k :: 0 <= k < |b.l1User| && b.l1User[k].typ == TypeDeposit ==> b.l1User[k].amount == 0
    requires forall k :: 0 <= k < |b.l1Coord| && b.l1Coord[k].typ == TypeDeposit ==> b.l1Coord[k].amount == 0
    requires var out := RunBatch(mode, cfg, led, b).value;
      forall k :: 0 <= k < |out.l2| ==> SameToken(out.led, out.l2[k])
    ensures var out := RunBatch(mode, cfg, led, b).value;
      Held(out.led, out.beforePayout.exits, t)
      == Held(led, map[], t) + Deposits(out.l1User, t) + Deposits(out.l1Coord, t)
         - LostFees(out.led, cfg.fees, out.coordOf, out.l2, t)
  {
    BatchConserves(mode, cfg, led, log, b, t);
    var out := RunBatch(mode, cfg, led, b).value;
    RunBatchShape(mode, cfg, led, b);
    NoAmountNoEffect(mode, Fresh(led), b.l1User);
    NoAmountNoEffect(mode, RunL1s(mode, Fresh(led), b.l1User).value.0, b.l1Coord);
    FlowsAreDeposits(out.l1User, t);
    FlowsAreDeposits(out.l1Coord, t);
    FlowsAreLostFees(out.led, cfg.fees, out.coordOf, out.l2, t);
  }

  lemma {:induction false} NoAmountNoEffect(mode: Mode, st: BState, txs: seq<L1Tx>)
    requires RunL1s(mode, st, txs).Ok?
    requires forall k :: 0 <= k < |txs| && txs[k].typ == TypeDeposit ==> txs[k].amount == 0
    ensures var out := RunL1s(mode, st, txs).value.1;
      forall k :: 0 <= k < |txs| && out[k].typ == TypeDeposit ==> out[k].effectiveAmount == 0
  {
    hide ApplyL1, Effective;
    if txs != [] {
      var last := |txs| - 1;
      NoAmountNoEffect(mode, st, txs[..last]);
      var (st1, out1) := RunL1s(mode, st, txs[..last]).value;
      RunOneL1Shape(mode, st1, txs[last]);
      PreparedSame(st1.led, txs[last]);
      EffectiveBounds(st1.led, txs[last]);
    }
  }

  // A plain deposit of nothing with amount 4, from the owner of account 32: the account drops from
  // ten to six and nobody receives the four.
  lemma DepositAmountIsLost()
    ensures var led := Ledger(map[32 := Account(0, 0, 10, EMPTY_BJJ, 7)], 32, map[], map[]);
      var tx := L1Tx(true, 32, 0, 7, EMPTY_BJJ, 0, 0, 4, 0, 0, 0, TypeDeposit);
      && StepL1(Fresh(led), tx).Ok?
      && StepL1(Fresh(led), tx).value.led.accounts == map[32 := Account(0, 0, 6, EMPTY_BJJ, 7)]
  {
  }

  // A transfer of four from an account of token 0 to one of token 1 turns four of the one into four of
  // the other.
  lemma TransferCrossesTokens(fees: FeeTable)
    requires fees[0] == 0
    ensures var led := Ledger(map[32 := Account(0, 0, 10, EMPTY_BJJ, 7), 33 := Account(1, 0, 5, EMPTY_BJJ, 8)], 33,
                              map[], map[]);
      var tx := PoolL2Tx(32, 33, 0, EMPTY_ADDR, EMPTY_BJJ, 0, 4, 0, 0, TypeTransfer, 0, 0, 0, 0, 0, true);
      && RunOneL2(BatchBuilder, fees, map[], Fresh(led), tx).Ok? && !SameToken(led, tx)
      && RunOneL2(BatchBuilder, fees, map[], Fresh(led), tx).value.0.led.accounts
         == map[32 := Account(0, 1, 6, EMPTY_BJJ, 7), 33 := Account(1, 0, 9, EMPTY_BJJ, 8)]
  {
    assert Canon(Account(0, 1, 6, EMPTY_BJJ, 7)) == Account(0, 1, 6, EMPTY_BJJ, 7);
    assert Canon(Account(1, 0, 9, EMPTY_BJJ, 8)) == Account(1, 0, 9, EMPTY_BJJ, 8);
    assert CalcFeeAmount(fees, 4, 0) == Ok(0);
  }
}
