// A batch that the builder accepts is replayed by the synchronizer with the same result.
module ModeAgreement {
  import opened Types
  import opened Accounts
  import opened Txs
  import opened Ledgers
  import opened LedgerInvariants
  import opened Batches
  import opened Runs
  import opened Conservation
  import opened AddressIndex

  // The effective amounts do not depend on those that the transaction came with.
  lemma PreparedIgnores(led: Ledger, tx: L1Tx, amount: nat, deposit: nat)
    requires IsL1Type(tx.typ)
    ensures Prepared(led, WithEffective(tx, amount, deposit)) == Prepared(led, tx)
  {
    if tx.userOrigin && tx.typ != TypeCreateAccountDeposit {
      if tx.toIdx >= USER_THRESHOLD && tx.fromIdx == 0 {
        assert Effective(led, WithEffective(tx, amount, deposit)) == Effective(led, tx);
      } else {
        assert Effective(led, WithEffective(tx, amount, deposit)) == Effective(led, tx);
      }
    }
  }

  // Effective amounts that were already computed are computed again to the same values.
  lemma PreparedTwice(led: Ledger, tx: L1Tx)
    ensures Prepared(led, Prepared(led, tx)) == Prepared(led, tx)
  {
    hide Effective;
    PreparedSame(led, tx);
    if IsL1Type(tx.typ) {
      var p := Prepared(led, tx);
      PreparedIgnores(led, tx, p.effectiveAmount, p.effectiveDepositAmount);
    }
  }

  // The record that the builder's run leaves behind replays in synchronizer mode.
  lemma OneL1Agrees(st: BState, log: seq<Creation>, tx: L1Tx)
    requires Inv(st.led, log) && RunOneL1(BatchBuilder, st, tx).Ok?
    ensures var (st', tx') := RunOneL1(BatchBuilder, st, tx).value;
      RunOneL1(Synchronizer, st, tx').Ok? && RunOneL1(Synchronizer, st, tx').value.0 == st'
  {
    PreparedTwice(st.led, tx);
    RunOneL1Shape(BatchBuilder, st, tx);
    L1KeepsInv(BatchBuilder, st, log, tx);
    var (st', tx') := RunOneL1(BatchBuilder, st, tx).value;
    assert tx' == Prepared(st.led, tx);
    if CreatesAccount(tx.typ) {
      assert |log + Creations(tx)| == |log| + 1;
      assert st'.led.Get(st'.led.currentIdx).Ok?;
    }
  }

  // A resolved receiver is a user account, so it counts as resolved.
  lemma ResolvedIsUser(st: BState, log: seq<Creation>, tx: PoolL2Tx)
    requires Inv(st.led, log) && Resolve(BatchBuilder, st.led, tx).Ok?
    ensures var tx1 := Resolve(BatchBuilder, st.led, tx).value;
      && tx1 == tx.(auxToIdx := tx1.auxToIdx)
      && (tx.toIdx == 0 && tx.auxToIdx == 0 ==> USER_THRESHOLD <= tx1.auxToIdx <= st.led.currentIdx)
      && (!(tx.toIdx == 0 && tx.auxToIdx == 0) ==> tx1 == tx)
  {
    if tx.toIdx == 0 && tx.auxToIdx == 0 {
      var s := st.led.accounts[tx.fromIdx];
      LookupHit(st.led, log, Creation(tx.toEthAddr, tx.toBJJ, s.tokenID));
    }
  }

  // After the builder accepted an L2 transaction, the synchronizer accepts the resolved record
  // exactly when the sender exists, which it does for every known type; then the state is the same.
  lemma OneL2Agrees(fees: FeeTable, coordOf: map<TokenID, Idx>, st: BState, log: seq<Creation>, tx: PoolL2Tx)
    requires Inv(st.led, log) && RunOneL2(BatchBuilder, fees, coordOf, st, tx).Ok?
    ensures var (st', tx') := RunOneL2(BatchBuilder, fees, coordOf, st, tx).value;
      var sync := RunOneL2(Synchronizer, fees, coordOf, st, tx');
      && (sync.Ok? <==> tx.fromIdx in st.led.accounts)
      && (sync.Ok? ==> sync.value.0 == st')
      && (IsL2Type(tx.typ) ==> tx.fromIdx in st.led.accounts)
  {
    var (st', tx') := RunOneL2(BatchBuilder, fees, coordOf, st, tx).value;
    ResolvedIsUser(st, log, tx);
    assert Resolve(BatchBuilder, st.led, tx) == Ok(tx');
    assert Resolve(Synchronizer, st.led, tx') == Ok(tx');
    assert st.led.Get(tx.fromIdx).Ok? <==> tx.fromIdx in st.led.accounts;
    if tx.fromIdx in st.led.accounts {
      var s := st.led.accounts[tx.fromIdx];
      StampIgnored(fees, coordOf, st, tx', s.nonce, s.tokenID);
    }
  }

  // Applying an L2 transaction does not look at its nonce and token.
  lemma StampIgnored(fees: FeeTable, coordOf: map<TokenID, Idx>, st: BState, tx: PoolL2Tx, nonce: nat, token: TokenID)
    ensures ApplyL2(fees, coordOf, st, tx.(nonce := nonce, tokenID := token)) == ApplyL2(fees, coordOf, st, tx)
  {
  }

  lemma {:induction false} L1sAgree(st: BState, log: seq<Creation>, txs: seq<L1Tx>)
    requires Inv(st.led, log) && RunL1s(BatchBuilder, st, txs).Ok?
    ensures var (st', out) := RunL1s(BatchBuilder, st, txs).value;
      RunL1s(Synchronizer, st, out).Ok? && RunL1s(Synchronizer, st, out).value.0 == st'
  {
    if txs != [] {
      var last := |txs| - 1;
      var (st1, out1) := RunL1s(BatchBuilder, st, txs[..last]).value;
      L1sAgree(st, log, txs[..last]);
      L1sKeepInv(BatchBuilder, st, log, txs[..last]);
      OneL1Agrees(st1, log + AllCreations(txs[..last]), txs[last]);
      var out := RunL1s(BatchBuilder, st, txs).value.1;
      assert out[..last] == out1;
    }
  }

  ghost predicate KnownTypes(txs: seq<PoolL2Tx>) {
    forall k :: 0 <= k < |txs| ==> IsL2Type(txs[k].typ)
  }

  // Every sender has an account.
  ghost predicate SendersExist(led: Ledger, txs: seq<PoolL2Tx>) {
    forall k :: 0 <= k < |txs| ==> txs[k].fromIdx in led.accounts
  }

  lemma {:induction false} L2sAgree(fees: FeeTable, coordOf: map<TokenID, Idx>, st: BState, log: seq<Creation>,
                                    txs: seq<PoolL2Tx>)
    requires Inv(st.led, log) && RunL2s(BatchBuilder, fees, coordOf, st, txs).Ok?
    ensures var (st', out) := RunL2s(BatchBuilder, fees, coordOf, st, txs).value;
      var sync := RunL2s(Synchronizer, fees, coordOf, st, out);
      && (sync.Ok? <==> SendersExist(st.led, txs))
      && (sync.Ok? ==> sync.value.0 == st')
      && (KnownTypes(txs) ==> SendersExist(st.led, txs))
  {
    hide RunOneL2, Inv;
    if txs != [] {
      var last := |txs| - 1;
      var (st1, out1) := RunL2s(BatchBuilder, fees, coordOf, st, txs[..last]).value;
      L2sAgree(fees, coordOf, st, log, txs[..last]);
      L2sKeepInv(BatchBuilder, fees, coordOf, st, log, txs[..last]);
      OneL2Agrees(fees, coordOf, st1, log, txs[last]);
      var out := RunL2s(BatchBuilder, fees, coordOf, st, txs).value.1;
      assert out[..last] == out1;
      assert SendersExist(st.led, txs) <==> SendersExist(st.led, txs[..last]) && txs[last].fromIdx in st.led.accounts;
    }
  }

  // The batch as the builder's run leaves it: effective amounts filled in, receivers resolved.
  function Resolved(b: Batch, out: Outcome): Batch {
    Batch(b.coordIdxs, out.l1User, out.l1Coord, out.l2)
  }

  lemma OpeningAgrees(led: Ledger, log: seq<Creation>, b: Batch, l2: seq<PoolL2Tx>)
    requires Inv(led, log) && OpenBatch(BatchBuilder, led, b).Ok?
    ensures var o := OpenBatch(BatchBuilder, led, b).value;
      var o' := OpenBatch(Synchronizer, led, Batch(b.coordIdxs, o.l1User, o.l1Coord, l2));
      o'.Ok? && o'.value.st == o.st && o'.value.coordIdxs == o.coordIdxs && o'.value.coordOf == o.coordOf
  {
    L1sAgree(Fresh(led), log, b.l1User);
    L1sKeepInv(BatchBuilder, Fresh(led), log, b.l1User);
    var st1 := RunL1s(BatchBuilder, Fresh(led), b.l1User).value.0;
    L1sAgree(st1, log + AllCreations(b.l1User), b.l1Coord);
  }

  // When the builder accepts a batch, the synchronizer accepts the resolved batch on an equal ledger
  // exactly if every L2 sender has an account, which known types guarantee; and then it ends with the
  // same ledger, exit tree and fee totals.
  lemma BatchAgrees(cfg: Config, led: Ledger, log: seq<Creation>, b: Batch)
    requires Inv(led, log) && RunBatch(BatchBuilder, cfg, led, b).Ok?
    ensures var out := RunBatch(BatchBuilder, cfg, led, b).value;
      var sync := RunBatch(Synchronizer, cfg, led, Resolved(b, out));
      && (sync.Ok? <==> SendersExist(out.led, b.l2))
      && (sync.Ok? ==>
            && sync.value.led == out.led && sync.value.beforePayout == out.beforePayout
            && sync.value.coordIdxs == out.coordIdxs && sync.value.coordOf == out.coordOf)
      && (KnownTypes(b.l2) ==> sync.Ok?)
  {
    hide OpenBatch, RunL2s, PayFees, Inv;
    var out := RunBatch(BatchBuilder, cfg, led, b).value;
    RunBatchShape(BatchBuilder, cfg, led, b);
    OpenBatchKeepsInv(BatchBuilder, led, log, b);
    OpeningAgrees(led, log, b, out.l2);
    var o := OpenBatch(BatchBuilder, led, b).value;
    L2sAgree(cfg.fees, o.coordOf, o.st, Extended(log, b), b.l2);
    AfterOpening(BatchBuilder, cfg, led, log, b);
    SameLengths(cfg, led, b);
  }

  lemma SameLengths(cfg: Config, led: Ledger, b: Batch)
    requires RunBatch(BatchBuilder, cfg, led, b).Ok?
    ensures FitsConfig(cfg, Resolved(b, RunBatch(BatchBuilder, cfg, led, b).value))
  {
    hide RunL1s, RunL2s, FilterCoords, CoordMap, PayFees;
  }
}
