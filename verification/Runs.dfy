// Whole batches and whole histories: what every run of ProcessTxs keeps.
module Runs {
  import opened Types
  import opened Accounts
  import opened Txs
  import opened Ledgers
  import opened LedgerInvariants
  import opened Batches
  import opened FeePayout

  function AllCreations(txs: seq<L1Tx>): seq<Creation> {
    if txs == [] then [] else AllCreations(txs[..|txs| - 1]) + Creations(txs[|txs| - 1])
  }

  // How many of the transactions are L2 transactions of account i.
  function SentBy(txs: seq<PoolL2Tx>, i: Idx): nat {
    if txs == [] then 0
    else
      var last := txs[|txs| - 1];
      SentBy(txs[..|txs| - 1], i) + if IsL2Type(last.typ) && last.fromIdx == i then 1 else 0
  }

  lemma ExtendsTransitive(a: Ledger, b: Ledger, c: Ledger)
    requires Extends(a, b) && Extends(b, c)
    ensures Extends(a, c)
  {
  }

  lemma {:induction false} L1sKeepInv(mode: Mode, st: BState, log: seq<Creation>, txs: seq<L1Tx>)
    requires Inv(st.led, log) && RunL1s(mode, st, txs).Ok?
    ensures var led' := RunL1s(mode, st, txs).value.0.led;
      Inv(led', log + AllCreations(txs)) && Extends(st.led, led') && NoncesKept(st.led, led')
  {
    if txs == [] {
      assert log + [] == log;
    } else {
      var last := |txs| - 1;
      var st1 := RunL1s(mode, st, txs[..last]).value.0;
      L1sKeepInv(mode, st, log, txs[..last]);
      L1KeepsInv(mode, st1, log + AllCreations(txs[..last]), txs[last]);
      assert log + AllCreations(txs) == log + AllCreations(txs[..last]) + Creations(txs[last]);
    }
  }

  ghost predicate NoncesCount(led: Ledger, led': Ledger, txs: seq<PoolL2Tx>) {
    && led'.accounts.Keys == led.accounts.Keys
    && forall i :: i in led.accounts ==> led'.accounts[i].nonce == led.accounts[i].nonce + SentBy(txs, i)
  }

  lemma SameShapeTransitive(a: Ledger, b: Ledger, c: Ledger)
    requires SameShape(a, b) && SameShape(b, c)
    ensures SameShape(a, c)
  {
  }

  // The L2 loop keeps the invariant; each nonce grows by the number of its account's transactions.
  lemma {:induction false} L2sKeepInv(mode: Mode, fees: FeeTable, coordOf: map<TokenID, Idx>, st: BState,
                                      log: seq<Creation>, txs: seq<PoolL2Tx>)
    requires Inv(st.led, log) && RunL2s(mode, fees, coordOf, st, txs).Ok?
    ensures var led' := RunL2s(mode, fees, coordOf, st, txs).value.0.led;
      Inv(led', log) && SameShape(st.led, led') && NoncesCount(st.led, led', txs)
  {
    if txs != [] {
      var last := |txs| - 1;
      var st1 := RunL2s(mode, fees, coordOf, st, txs[..last]).value.0;
      L2sKeepInv(mode, fees, coordOf, st, log, txs[..last]);
      L2KeepsInv(mode, fees, coordOf, st1, log, txs[last]);
      SameShapeTransitive(st.led, st1.led, RunL2s(mode, fees, coordOf, st, txs).value.0.led);
    }
  }

  lemma StampedOne(fees: FeeTable, coordOf: map<TokenID, Idx>, st: BState, tx: PoolL2Tx)
    requires RunOneL2(Synchronizer, fees, coordOf, st, tx).Ok?
    ensures tx.fromIdx in st.led.accounts
    ensures var tx' := RunOneL2(Synchronizer, fees, coordOf, st, tx).value.1;
      tx'.nonce == st.led.accounts[tx.fromIdx].nonce && tx'.tokenID == st.led.accounts[tx.fromIdx].tokenID
  {
    hide ApplyL2;
  }

  // In synchronizer mode the k-th transaction is stamped with the nonce its sender has at that
  // point: the starting nonce plus the number of earlier transactions of the same sender.
  lemma {:induction false} StampedNonces(fees: FeeTable, coordOf: map<TokenID, Idx>, st: BState,
                                         log: seq<Creation>, txs: seq<PoolL2Tx>)
    requires Inv(st.led, log) && RunL2s(Synchronizer, fees, coordOf, st, txs).Ok?
    ensures var out := RunL2s(Synchronizer, fees, coordOf, st, txs).value.1;
      forall k :: 0 <= k < |txs| ==>
        && txs[k].fromIdx in st.led.accounts
        && out[k].nonce == st.led.accounts[txs[k].fromIdx].nonce + SentBy(txs[..k], txs[k].fromIdx)
        && out[k].tokenID == st.led.accounts[txs[k].fromIdx].tokenID
  {
    hide RunOneL2, Inv, SentBy;
    if txs != [] {
      var last := |txs| - 1;
      var front := txs[..last];
      StampedNonces(fees, coordOf, st, log, front);
      L2sKeepInv(Synchronizer, fees, coordOf, st, log, front);
      StampedOne(fees, coordOf, RunL2s(Synchronizer, fees, coordOf, st, front).value.0, txs[last]);
      forall k | 0 <= k < last
        ensures txs[..k] == front[..k] && txs[k] == front[k]
      {
      }
    }
  }

  // ---- a whole batch ----

  lemma OpeningFees(st: BState, coords: seq<Idx>)
    requires AccountsUpTo(st.led, st.led.currentIdx) && FilterCoords(st.led, coords).Ok?
    ensures var kept := FilterCoords(st.led, coords).value.1;
      && AllIn(st.led, kept) && DistinctTokens(st.led, kept) && CoordMap(st.led, kept).Ok?
      && var coordOf := CoordMap(st.led, kept).value;
      && IsCoordMap(st.led, kept, coordOf)
      && FeesOK(OpenFees(st, kept, coordOf), coordOf)
      && OpenFees(st, kept, coordOf).accumulated.Keys == set i | i in kept
  {
    FilterKeepsFirsts(st.led, coords);
    var kept := FilterCoords(st.led, coords).value.1;
    CoordMapIs(st.led, kept);
    var coordOf := CoordMap(st.led, kept).value;
    forall t | t in coordOf
      ensures coordOf[t] in kept && coordOf[t] in st.led.accounts && st.led.accounts[coordOf[t]].tokenID == t
    {
      CoordMapLookup(st.led, kept, coordOf, t);
    }
  }

  // The log, extended by the accounts that a batch creates.
  function Extended(log: seq<Creation>, b: Batch): seq<Creation> {
    log + AllCreations(b.l1User) + AllCreations(b.l1Coord)
  }

  lemma CoordsSurvive(led: Ledger, led': Ledger, idxs: seq<Idx>)
    requires SameShape(led, led') && AllIn(led, idxs) && DistinctTokens(led, idxs)
    ensures AllIn(led', idxs) && DistinctTokens(led', idxs)
  {
  }

  lemma RunBatchShape(mode: Mode, cfg: Config, led: Ledger, b: Batch)
    requires RunBatch(mode, cfg, led, b).Ok?
    ensures OpenBatch(mode, led, b).Ok?
    ensures var o := OpenBatch(mode, led, b).value;
      var out := RunBatch(mode, cfg, led, b).value;
      && RunL2s(mode, cfg.fees, o.coordOf, o.st, b.l2) == Ok((out.beforePayout, out.l2))
      && out.coordIdxs == o.coordIdxs && out.coordOf == o.coordOf
      && out.l1User == o.l1User && out.l1Coord == o.l1Coord
      && PayFees(out.beforePayout.led, o.coordIdxs, out.beforePayout.accumulated) == Ok(out.led)
  {
  }

  ghost predicate Ready(o: Opening, log: seq<Creation>) {
    && Inv(o.st.led, log)
    && AllIn(o.st.led, o.coordIdxs) && DistinctTokens(o.st.led, o.coordIdxs)
    && IsCoordMap(o.st.led, o.coordIdxs, o.coordOf) && FeesOK(o.st, o.coordOf)
    && o.st.accumulated.Keys == set i | i in o.coordIdxs
  }

  ghost predicate L2sDone(o: Opening, log: seq<Creation>, st: BState, txs: seq<PoolL2Tx>) {
    && SameShape(o.st.led, st.led) && NoncesCount(o.st.led, st.led, txs) && Inv(st.led, log)
    && AllIn(st.led, o.coordIdxs) && DistinctTokens(st.led, o.coordIdxs)
  }

  lemma OpenBatchKeepsInv(mode: Mode, led: Ledger, log: seq<Creation>, b: Batch)
    requires Inv(led, log) && OpenBatch(mode, led, b).Ok?
    ensures var o := OpenBatch(mode, led, b).value;
      Ready(o, Extended(log, b)) && Extends(led, o.st.led) && NoncesKept(led, o.st.led)
  {
    L1sKeepInv(mode, Fresh(led), log, b.l1User);
    var st1 := RunL1s(mode, Fresh(led), b.l1User).value.0;
    L1sKeepInv(mode, st1, log + AllCreations(b.l1User), b.l1Coord);
    var st2 := RunL1s(mode, st1, b.l1Coord).value.0;
    ExtendsTransitive(led, st1.led, st2.led);
    OpeningFees(st2, b.coordIdxs);
  }

  lemma L2StageKeeps(mode: Mode, fees: FeeTable, o: Opening, log: seq<Creation>, txs: seq<PoolL2Tx>)
    requires Ready(o, log) && RunL2s(mode, fees, o.coordOf, o.st, txs).Ok?
    ensures L2sDone(o, log, RunL2s(mode, fees, o.coordOf, o.st, txs).value.0, txs)
  {
    L2sKeepInv(mode, fees, o.coordOf, o.st, log, txs);
    CoordsSurvive(o.st.led, RunL2s(mode, fees, o.coordOf, o.st, txs).value.0.led, o.coordIdxs);
  }

  // The ledger at the stages of an accepted batch: all L1 transactions done, all L2 transactions done.
  lemma BatchStages(mode: Mode, cfg: Config, led: Ledger, log: seq<Creation>, b: Batch)
    requires Inv(led, log) && RunBatch(mode, cfg, led, b).Ok?
    ensures OpenBatch(mode, led, b).Ok?
    ensures var o := OpenBatch(mode, led, b).value;
      && Ready(o, Extended(log, b))
      && Extends(led, o.st.led) && NoncesKept(led, o.st.led)
      && L2sDone(o, Extended(log, b), RunBatch(mode, cfg, led, b).value.beforePayout, b.l2)
  {
    RunBatchShape(mode, cfg, led, b);
    OpenBatchKeepsInv(mode, led, log, b);
    L2StageKeeps(mode, cfg.fees, OpenBatch(mode, led, b).value, Extended(log, b), b.l2);
  }

  lemma StagesChain(a: Ledger, o: Ledger, s: Ledger, c: Ledger, txs: seq<PoolL2Tx>)
    requires Extends(a, o) && NoncesKept(a, o)
    requires SameShape(o, s) && NoncesCount(o, s, txs)
    requires SameShape(s, c) && SameNonces(s, c)
    ensures Extends(a, c)
    ensures forall i :: i in c.accounts ==>
      c.accounts[i].nonce == (if i in a.accounts then a.accounts[i].nonce else 0) + SentBy(txs, i)
  {
  }

  // Every accepted batch keeps the invariant, extended by the accounts its L1 transactions create,
  // and changes no token, address or key. Each nonce grows by exactly the number of L2 transactions
  // that its account sent, counting from zero for a new account.
  lemma BatchKeepsInv(mode: Mode, cfg: Config, led: Ledger, log: seq<Creation>, b: Batch)
    requires Inv(led, log) && RunBatch(mode, cfg, led, b).Ok?
    ensures var led' := RunBatch(mode, cfg, led, b).value.led;
      && Inv(led', Extended(log, b))
      && Extends(led, led')
      && forall i :: i in led'.accounts ==>
           led'.accounts[i].nonce == (if i in led.accounts then led.accounts[i].nonce else 0) + SentBy(b.l2, i)
  {
    BatchStages(mode, cfg, led, log, b);
    RunBatchShape(mode, cfg, led, b);
    var out := RunBatch(mode, cfg, led, b).value;
    var st := out.beforePayout;
    PayFeesIs(st.led, out.coordIdxs, st.accumulated);
    SameShapeKeepsInv(st.led, Extended(log, b), out.led);
    StagesChain(led, OpenBatch(mode, led, b).value.st.led, st.led, out.led, b.l2);
  }

  // After the L1 transactions no account is created and no index moves.
  lemma AfterOpening(mode: Mode, cfg: Config, led: Ledger, log: seq<Creation>, b: Batch)
    requires Inv(led, log) && RunBatch(mode, cfg, led, b).Ok?
    ensures OpenBatch(mode, led, b).Ok?
    ensures var start := OpenBatch(mode, led, b).value.st.led;
      var out := RunBatch(mode, cfg, led, b).value;
      && SameShape(start, out.beforePayout.led) && SameShape(start, out.led)
      && Extends(start, out.led) && out.led.currentIdx == out.beforePayout.led.currentIdx == start.currentIdx
  {
    BatchStages(mode, cfg, led, log, b);
    RunBatchShape(mode, cfg, led, b);
    var out := RunBatch(mode, cfg, led, b).value;
    PayFeesIs(out.beforePayout.led, out.coordIdxs, out.beforePayout.accumulated);
    SameShapeTransitive(OpenBatch(mode, led, b).value.st.led, out.beforePayout.led, out.led);
  }

  // ---- histories ----

  datatype Event = Event(mode: Mode, batch: Batch)

  // The ledger after a history of accepted batches, starting from nothing.
  function RunAll(cfg: Config, events: seq<Event>): Result<Ledger> {
    if events == [] then Ok(EMPTY_LEDGER)
    else
      var last := |events| - 1;
      var led :- RunAll(cfg, events[..last]);
      var out :- RunBatch(events[last].mode, cfg, led, events[last].batch);
      Ok(out.led)
  }

  function History(events: seq<Event>): seq<Creation> {
    if events == [] then []
    else
      var last := |events| - 1;
      Extended(History(events[..last]), events[last].batch)
  }

  function TotalSent(events: seq<Event>, i: Idx): nat {
    if events == [] then 0
    else
      var last := |events| - 1;
      TotalSent(events[..last], i) + SentBy(events[last].batch.l2, i)
  }

  lemma {:induction false} NothingSentYet(log: seq<Creation>, mode: Mode, fees: FeeTable,
                                          coordOf: map<TokenID, Idx>, st: BState, txs: seq<PoolL2Tx>, i: Idx)
    requires Inv(st.led, log) && RunL2s(mode, fees, coordOf, st, txs).Ok? && i !in st.led.accounts
    ensures SentBy(txs, i) == 0
  {
    if txs != [] {
      var last := |txs| - 1;
      NothingSentYet(log, mode, fees, coordOf, st, txs[..last], i);
      L2sKeepInv(mode, fees, coordOf, st, log, txs[..last]);
      L2KeepsInv(mode, fees, coordOf, RunL2s(mode, fees, coordOf, st, txs[..last]).value.0, log, txs[last]);
    }
  }

  // An account sends nothing in a batch that ends without it.
  lemma AbsentSendsNothing(mode: Mode, cfg: Config, led: Ledger, log: seq<Creation>, b: Batch, i: Idx)
    requires Inv(led, log) && RunBatch(mode, cfg, led, b).Ok?
    requires i !in RunBatch(mode, cfg, led, b).value.led.accounts
    ensures SentBy(b.l2, i) == 0
  {
    BatchStages(mode, cfg, led, log, b);
    RunBatchShape(mode, cfg, led, b);
    var o := OpenBatch(mode, led, b).value;
    var st := RunBatch(mode, cfg, led, b).value.beforePayout;
    PayFeesIs(st.led, o.coordIdxs, st.accumulated);
    NothingSentYet(Extended(log, b), mode, cfg.fees, o.coordOf, o.st, b.l2, i);
  }

  // Whatever batches were accepted: the accounts are exactly 32..CurrentIdx, storable and canonical,
  // the k-th creation of the history made account 32 + k with its token, address and key, both
  // address entries are as the history says, and every nonce counts all L2 transactions ever sent.
  lemma {:induction false} EveryRunIsSafe(cfg: Config, events: seq<Event>)
    requires RunAll(cfg, events).Ok?
    ensures var led := RunAll(cfg, events).value;
      && Inv(led, History(events))
      && (forall i :: i in led.accounts ==> led.accounts[i].nonce == TotalSent(events, i))
      && (forall i :: i !in led.accounts ==> TotalSent(events, i) == 0)
  {
    if events != [] {
      var last := |events| - 1;
      var front := events[..last];
      EveryRunIsSafe(cfg, front);
      var led := RunAll(cfg, front).value;
      var e := events[last];
      BatchKeepsInv(e.mode, cfg, led, History(front), e.batch);
      forall i | i !in RunAll(cfg, events).value.accounts
        ensures TotalSent(events, i) == 0
      {
        AbsentSendsNothing(e.mode, cfg, led, History(front), e.batch, i);
      }
    }
  }
}
