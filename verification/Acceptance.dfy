// When a whole batch is accepted: counts, every single transaction where it stands, the coordinator's
// accounts, and room for their fees. What a single transaction needs is in L1Effects and L2Effects.
module Acceptance {
  import opened Types
  import opened Accounts
  import opened Txs
  import opened Ledgers
  import opened LedgerInvariants
  import opened Batches
  import opened FeePayout
  import opened Runs
  import opened TraceTheorems

  // Transaction k is accepted in the state that the ones before it lead to.
  ghost predicate TakesL1(mode: Mode, st: BState, txs: seq<L1Tx>, k: nat)
    requires k < |txs|
  {
    RunOneL1(mode, L1State(mode, st, txs, k), txs[k]).Ok?
  }

  ghost predicate EveryL1(mode: Mode, st: BState, txs: seq<L1Tx>) {
    forall k :: 0 <= k < |txs| ==> TakesL1(mode, st, txs, k)
  }

  lemma SameTakesL1(mode: Mode, st: BState, txs: seq<L1Tx>, n: nat, k: nat)
    requires k < n <= |txs|
    ensures TakesL1(mode, st, txs[..n], k) <==> TakesL1(mode, st, txs, k)
  {
    hide RunL1s, RunOneL1;
    assert txs[..n][..k] == txs[..k];
  }

  lemma EveryL1Splits(mode: Mode, st: BState, txs: seq<L1Tx>)
    requires txs != []
    ensures var last := |txs| - 1;
      EveryL1(mode, st, txs) <==> EveryL1(mode, st, txs[..last]) && TakesL1(mode, st, txs, last)
  {
    hide TakesL1;
    var last := |txs| - 1;
    forall k | 0 <= k < last
      ensures TakesL1(mode, st, txs[..last], k) <==> TakesL1(mode, st, txs, k)
    {
      SameTakesL1(mode, st, txs, last, k);
    }
  }

  lemma {:induction false} L1sAcceptedIff(mode: Mode, st: BState, txs: seq<L1Tx>)
    ensures RunL1s(mode, st, txs).Ok? <==> EveryL1(mode, st, txs)
  {
    hide RunOneL1, EveryL1;
    if txs != [] {
      L1sAcceptedIff(mode, st, txs[..|txs| - 1]);
      EveryL1Splits(mode, st, txs);
    } else {
      NoL1(mode, st);
    }
  }

  lemma NoL1(mode: Mode, st: BState)
    ensures EveryL1(mode, st, [])
  {
  }

  ghost function StateL2(mode: Mode, fees: FeeTable, coordOf: map<TokenID, Idx>, st: BState, txs: seq<PoolL2Tx>, k: nat)
    : BState
    requires k <= |txs|
  {
    if RunL2s(mode, fees, coordOf, st, txs[..k]).Ok? then RunL2s(mode, fees, coordOf, st, txs[..k]).value.0 else st
  }

  ghost predicate TakesL2(mode: Mode, fees: FeeTable, coordOf: map<TokenID, Idx>, st: BState, txs: seq<PoolL2Tx>,
                          k: nat)
    requires k < |txs|
  {
    RunOneL2(mode, fees, coordOf, StateL2(mode, fees, coordOf, st, txs, k), txs[k]).Ok?
  }

  ghost predicate EveryL2(mode: Mode, fees: FeeTable, coordOf: map<TokenID, Idx>, st: BState, txs: seq<PoolL2Tx>) {
    forall k :: 0 <= k < |txs| ==> TakesL2(mode, fees, coordOf, st, txs, k)
  }

  lemma SameTakesL2(mode: Mode, fees: FeeTable, coordOf: map<TokenID, Idx>, st: BState, txs: seq<PoolL2Tx>, n: nat,
                    k: nat)
    requires k < n <= |txs|
    ensures TakesL2(mode, fees, coordOf, st, txs[..n], k) <==> TakesL2(mode, fees, coordOf, st, txs, k)
  {
    hide RunL2s, RunOneL2;
    assert txs[..n][..k] == txs[..k];
  }

  lemma EveryL2Splits(mode: Mode, fees: FeeTable, coordOf: map<TokenID, Idx>, st: BState, txs: seq<PoolL2Tx>)
    requires txs != []
    ensures var last := |txs| - 1;
      EveryL2(mode, fees, coordOf, st, txs) <==>
        EveryL2(mode, fees, coordOf, st, txs[..last]) && TakesL2(mode, fees, coordOf, st, txs, last)
  {
    hide TakesL2;
    var last := |txs| - 1;
    forall k | 0 <= k < last
      ensures TakesL2(mode, fees, coordOf, st, txs[..last], k) <==> TakesL2(mode, fees, coordOf, st, txs, k)
    {
      SameTakesL2(mode, fees, coordOf, st, txs, last, k);
    }
  }

  lemma {:induction false} L2sAcceptedIff(mode: Mode, fees: FeeTable, coordOf: map<TokenID, Idx>, st: BState,
                                          txs: seq<PoolL2Tx>)
    ensures RunL2s(mode, fees, coordOf, st, txs).Ok? <==> EveryL2(mode, fees, coordOf, st, txs)
  {
    hide RunOneL2, EveryL2;
    if txs != [] {
      L2sAcceptedIff(mode, fees, coordOf, st, txs[..|txs| - 1]);
      EveryL2Splits(mode, fees, coordOf, st, txs);
    } else {
      NoL2(mode, fees, coordOf, st);
    }
  }

  lemma NoL2(mode: Mode, fees: FeeTable, coordOf: map<TokenID, Idx>, st: BState)
    ensures EveryL2(mode, fees, coordOf, st, [])
  {
  }

  // Every coordinator account can hold what was accumulated for it.
  ghost predicate RoomForFees(led: Ledger, idxs: seq<Idx>, accumulated: map<Idx, nat>)
    requires AllIn(led, idxs)
  {
    forall k :: 0 <= k < |idxs| ==>
      idxs[k] in accumulated && led.accounts[idxs[k]].balance + accumulated[idxs[k]] < TWO_192
  }

  lemma {:induction false} PaidIff(led: Ledger, idxs: seq<Idx>, accumulated: map<Idx, nat>)
    requires AccountsUpTo(led, led.currentIdx) && AllIn(led, idxs) && DistinctTokens(led, idxs)
    ensures PayFees(led, idxs, accumulated).Ok? <==> RoomForFees(led, idxs, accumulated)
  {
    if idxs != [] {
      var last := |idxs| - 1;
      var front := idxs[..last];
      PaidIff(led, front, accumulated);
      assert RoomForFees(led, idxs, accumulated) <==>
        && RoomForFees(led, front, accumulated)
        && idxs[last] in accumulated && led.accounts[idxs[last]].balance + accumulated[idxs[last]] < TWO_192;
      if PayFees(led, front, accumulated).Ok? {
        PayFeesIs(led, front, accumulated);
        assert idxs[last] !in front;
      }
    }
  }

  // The state when the L1 transactions have run.
  ghost function AfterL1s(mode: Mode, led: Ledger, b: Batch): BState {
    L1State(mode, AfterUserL1s(mode, led, b), b.l1Coord, |b.l1Coord|)
  }

  ghost function AfterUserL1s(mode: Mode, led: Ledger, b: Batch): BState {
    L1State(mode, Fresh(led), b.l1User, |b.l1User|)
  }

  // The first part runs exactly if every L1 transaction does, users before coordinator, and every
  // coordinator account is there then.
  lemma OpensIff(mode: Mode, led: Ledger, log: seq<Creation>, b: Batch)
    requires Inv(led, log)
    ensures OpenBatch(mode, led, b).Ok? <==>
      && EveryL1(mode, Fresh(led), b.l1User) && EveryL1(mode, AfterUserL1s(mode, led, b), b.l1Coord)
      && AllIn(AfterL1s(mode, led, b).led, b.coordIdxs)
  {
    hide EveryL1, RunL1s, FilterCoords, CoordMap, AllIn;
    assert b.l1User[..|b.l1User|] == b.l1User && b.l1Coord[..|b.l1Coord|] == b.l1Coord;
    L1sAcceptedIff(mode, Fresh(led), b.l1User);
    if RunL1s(mode, Fresh(led), b.l1User).Ok? {
      var st1 := AfterUserL1s(mode, led, b);
      L1sKeepInv(mode, Fresh(led), log, b.l1User);
      L1sAcceptedIff(mode, st1, b.l1Coord);
      if RunL1s(mode, st1, b.l1Coord).Ok? {
        L1sKeepInv(mode, st1, log + AllCreations(b.l1User), b.l1Coord);
        var st2 := AfterL1s(mode, led, b);
        FilterKeepsFirsts(st2.led, b.coordIdxs);
        if AllIn(st2.led, b.coordIdxs) {
          OpeningFees(st2, b.coordIdxs);
        }
      }
    }
  }

  // A batch is accepted exactly if it fits the circuit, every transaction is accepted where it stands,
  // all coordinator accounts exist, and those that are paid have room for their fees.
  lemma BatchAcceptedIff(mode: Mode, cfg: Config, led: Ledger, log: seq<Creation>, b: Batch)
    requires Inv(led, log)
    ensures RunBatch(mode, cfg, led, b).Ok? ==> OpenBatch(mode, led, b).Ok?
    ensures OpenBatch(mode, led, b).Ok? ==>
      var o := OpenBatch(mode, led, b).value;
      var st := StateL2(mode, cfg.fees, o.coordOf, o.st, b.l2, |b.l2|);
      RunBatch(mode, cfg, led, b).Ok? <==>
        && |b.l1User| + |b.l1Coord| + |b.l2| <= cfg.maxTx && |b.l1User| + |b.l1Coord| <= cfg.maxL1Tx
        && |b.coordIdxs| <= cfg.maxFeeTx
        && EveryL2(mode, cfg.fees, o.coordOf, o.st, b.l2)
        && AllIn(st.led, o.coordIdxs) && RoomForFees(st.led, o.coordIdxs, st.accumulated)
  {
    hide EveryL2, RunL2s, OpenBatch, PayFees;
    if OpenBatch(mode, led, b).Ok? {
      var o := OpenBatch(mode, led, b).value;
      OpenBatchKeepsInv(mode, led, log, b);
      L2sAcceptedIff(mode, cfg.fees, o.coordOf, o.st, b.l2);
      assert b.l2[..|b.l2|] == b.l2;
      if RunL2s(mode, cfg.fees, o.coordOf, o.st, b.l2).Ok? {
        L2StageKeeps(mode, cfg.fees, o, Extended(log, b), b.l2);
        var st := StateL2(mode, cfg.fees, o.coordOf, o.st, b.l2, |b.l2|);
        PaidIff(st.led, o.coordIdxs, st.accumulated);
      }
    }
  }
}
