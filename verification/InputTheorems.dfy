// The public input of an accepted batch always has its fixed layout, and its records are those of the
// transactions of the batch.
module InputTheorems {
  import opened Types
  import opened Bytes
  import opened Accounts
  import opened Txs
  import opened Ledgers
  import opened LedgerInvariants
  import opened Batches
  import opened Stores
  import opened Codec
  import opened UserTxBytes
  import opened CircuitInputs
  import opened PublicInput
  import opened Traces
  import opened RunLinks
  import opened FeeTheorems
  import Runs
  import Settlement
  import TxProcessors

  // The availability record of transaction i, L1 before L2.
  ghost function RecordOf(out: Outcome, w: nat, i: nat): Result<seq<byte>>
    requires WidthOK(w) && i < |out.l1User| + |out.l1Coord| + |out.l2|
  {
    var l1 := out.l1User + out.l1Coord;
    if i < |l1| then L1Record(l1[i], w) else L2Record(Forged(out.l2[i - |l1|]), w)
  }

  // The library's forms of the roots have the length that the string gives them.
  ghost predicate RootForms(number: Root -> nat, bytes: Root -> seq<byte>) {
    && (forall r: Root :: number(r) < Pow256(ROOT_BYTES))
    && (forall r: Root :: |bytes(r)| == ROOT_BYTES)
  }

  lemma LogFits(cfg: Config, led: Ledger, log: seq<Creation>, b: Batch)
    requires Inv(led, log) && cfg.maxTx > 0 && WholeRun(BatchBuilder, cfg, led, b).Ok?
    ensures var run := WholeRun(BatchBuilder, cfg, led, b).value;
      && run.log == Meta(run.outcome.led.currentIdx, run.outcome.l1User + run.outcome.l1Coord,
                         Settlement.ForgedAll(run.outcome.l2))
      && |run.outcome.l1User| == |b.l1User| && |run.outcome.l1Coord| == |b.l1Coord| && |run.outcome.l2| == |b.l2|
      && |run.log.l1| <= cfg.maxL1Tx && |run.log.l1| + |run.log.l2| == NTx(b) <= cfg.maxTx
  {
    hide OpenRun, CloseRun, Inv, RunL1s, RunL2s, FilterCoords, CoordMap, PayFees;
    WholeRunIs(BatchBuilder, cfg, led, b);
    LogIsBatch(cfg, led, log, b);
  }

  // Every fee slot holds an index of the ledger, or zero.
  lemma FeeSlotsFit(cfg: Config, led: Ledger, log: seq<Creation>, b: Batch)
    requires Inv(led, log) && cfg.maxFeeTx > 0 && cfg.maxTx > 0 && WholeRun(BatchBuilder, cfg, led, b).Ok?
    ensures var run := WholeRun(BatchBuilder, cfg, led, b).value;
      && |run.outcome.coordIdxs| <= cfg.maxFeeTx
      && run.outcome.led.currentIdx <= MAX_IDX
      && forall i :: 0 <= i < cfg.maxFeeTx ==>
           Overwrite(BlankFees(cfg).idxs, run.outcome.coordIdxs)[i] <= run.outcome.led.currentIdx
  {
    hide OpenBatch, CloseRun, OpenRun, RunBatch, Indexed, WholeRun;
    WholeRunIs(BatchBuilder, cfg, led, b);
    FeesMatchPlan(cfg, led, log, b);
    Runs.BatchStages(BatchBuilder, cfg, led, log, b);
    Runs.BatchKeepsInv(BatchBuilder, cfg, led, log, b);
    Runs.AfterOpening(BatchBuilder, cfg, led, log, b);
    Runs.RunBatchShape(BatchBuilder, cfg, led, b);
    var o := OpenBatch(BatchBuilder, led, b).value;
    forall k | 0 <= k < |o.coordIdxs|
      ensures o.coordIdxs[k] <= o.st.led.currentIdx
    {
      assert o.coordIdxs[k] in o.st.led.accounts;
    }
  }

  // Whatever batch the builder accepts, its public input fits the layout as long as the indices fit
  // the levels, and chain and batch number their fields; so ToHashGlobalData succeeds.
  lemma AcceptedFits(z: ZKInputs, cfg: Config, led: Ledger, log: seq<Creation>, b: Batch, run: BatchRun,
                     number: Root -> nat, bytes: Root -> seq<byte>)
    requires Inv(led, log) && cfg.maxTx > 0 && cfg.maxFeeTx > 0 && WholeRun(BatchBuilder, cfg, led, b) == Ok(run)
    requires TxProcessors.HoldsRun(z, cfg, run) && z.oldLastIdx == led.currentIdx
    requires RootForms(number, bytes) && run.outcome.led.currentIdx < Pow256(cfg.nLevels / 8)
    requires cfg.chainID < 0x1_0000 && z.currentNumBatch < 0x1_0000_0000
    ensures Fits(cfg, z.Published(number, bytes))
    ensures z.Published(number, bytes).newLastIdx == run.outcome.led.currentIdx
    ensures z.Published(number, bytes).newRoot == bytes(AccountsRoot(run.outcome.led.accounts))
    ensures z.Published(number, bytes).newExitRoot == bytes(AccountsRoot(run.outcome.beforePayout.exits))
  {
    hide WholeRun, Inv, FinalFees, BlankFees, Overwrite, FeesNow, AccountsRoot, L1Record, L2Record, GenericBytes;
    LogFits(cfg, led, log, b);
    FeeSlotsFit(cfg, led, log, b);
    OldIndexFits(led, log);
    PaidIdxs(z, cfg, run);
    var p := z.Published(number, bytes);
    var w := cfg.nLevels / 8;
    forall i | 0 <= i < |p.l1Data|
      ensures |p.l1Data[i]| == L1_TOTAL_BYTES && |p.l1Availability[i]| == RecordLen(w)
    {
      assert WrittenL1(z.metadata.l1[i], p.l1Data[i], p.l1Availability[i], w);
    }
    forall i | 0 <= i < |p.l2Data|
      ensures |p.l2Data[i]| == RecordLen(w)
    {
      assert WrittenL2(z.metadata.l2[i], p.l2Data[i], w);
    }
  }

  lemma OldIndexFits(led: Ledger, log: seq<Creation>)
    requires Inv(led, log)
    ensures led.currentIdx <= MAX_IDX
  {
  }

  lemma PaidIdxs(z: ZKInputs, cfg: Config, run: BatchRun)
    requires TxProcessors.HoldsRun(z, cfg, run)
    ensures |run.outcome.coordIdxs| <= cfg.maxFeeTx
    ensures z.feeIdxs[..] == Overwrite(BlankFees(cfg).idxs, run.outcome.coordIdxs)
  {
    assert z.Payout().idxs == z.feeIdxs[..];
  }

  // Of its MaxTx equal slots, the first ones hold the availability records of the transactions of the
  // batch in their order, L1 before L2, and the others are zero.
  lemma RecordsArePublished(z: ZKInputs, cfg: Config, led: Ledger, log: seq<Creation>, b: Batch, run: BatchRun,
                            number: Root -> nat, bytes: Root -> seq<byte>, i: nat)
    requires Inv(led, log) && cfg.maxTx > 0 && cfg.maxFeeTx > 0 && WholeRun(BatchBuilder, cfg, led, b) == Ok(run)
    requires TxProcessors.HoldsRun(z, cfg, run) && z.oldLastIdx == led.currentIdx
    requires RootForms(number, bytes) && run.outcome.led.currentIdx < Pow256(cfg.nLevels / 8)
    requires cfg.chainID < 0x1_0000 && z.currentNumBatch < 0x1_0000_0000 && i < cfg.maxTx
    ensures Fits(cfg, z.Published(number, bytes)) && LevelsOK(cfg.nLevels) && WidthOK(cfg.nLevels / 8)
    ensures |run.outcome.l1User| + |run.outcome.l1Coord| + |run.outcome.l2| == NTx(b)
    ensures var w := cfg.nLevels / 8;
      var d := GlobalData(cfg, z.Published(number, bytes));
      var at := RecordsAt(cfg) + i * RecordLen(w);
      && 0 <= at <= at + RecordLen(w) <= |d| == ChainAt(cfg) + 6
      && (i < NTx(b) ==> RecordOf(run.outcome, w, i) == Ok(d[at..at + RecordLen(w)]))
      && (i >= NTx(b) ==> d[at..at + RecordLen(w)] == Zeros(RecordLen(w)))
  {
    hide WholeRun, Inv, Fits, GlobalData, AccountsRoot, L1Record, L2Record, GenericBytes, BlankFees, FinalFees;
    AcceptedFits(z, cfg, led, log, b, run, number, bytes);
    LogFits(cfg, led, log, b);
    RecordLenIs(cfg.nLevels);
    var p := z.Published(number, bytes);
    FixedLayout(cfg, p);
    RecordAt(cfg, p, i);
    WrittenRecords(z, cfg, run, number, bytes, i);
  }

  // The i-th record is the one written for the i-th logged transaction.
  lemma WrittenRecords(z: ZKInputs, cfg: Config, run: BatchRun, number: Root -> nat, bytes: Root -> seq<byte>, i: nat)
    requires TxProcessors.HoldsRun(z, cfg, run)
    requires run.log.l1 == run.outcome.l1User + run.outcome.l1Coord
    requires run.log.l2 == Settlement.ForgedAll(run.outcome.l2)
    ensures WidthOK(cfg.nLevels / 8)
    ensures var records := Records(z.Published(number, bytes));
      && |records| == |run.log.l1| + |run.log.l2|
      && (i < |records| ==> RecordOf(run.outcome, cfg.nLevels / 8, i) == Ok(records[i]))
  {
    hide AccountsRoot, L1Record, L2Record, GenericBytes, FinalFees;
    var w := cfg.nLevels / 8;
    var m := z.metadata;
    if i < |m.l1| {
      assert WrittenL1(m.l1[i], m.l1TxsData[i], m.l1TxsDataAvailability[i], w);
    } else if i < |m.l1| + |m.l2| {
      assert WrittenL2(m.l2[i - |m.l1|], m.l2TxsData[i - |m.l1|], w);
    }
  }

  // An object that holds the run of an accepted batch, and that was opened for it.
  ghost predicate InputOf(z: ZKInputs, cfg: Config, led: Ledger, log: seq<Creation>, b: Batch, run: BatchRun)
    reads z.Frame()
  {
    && Inv(led, log) && cfg.maxTx > 0 && cfg.maxFeeTx > 0 && WholeRun(BatchBuilder, cfg, led, b) == Ok(run)
    && TxProcessors.HoldsRun(z, cfg, run) && z.oldLastIdx == led.currentIdx
    && z.oldStateRoot == AccountsRoot(led.accounts)
    && run.outcome.led.currentIdx < Pow256(cfg.nLevels / 8)
    && cfg.chainID < 0x1_0000 && z.currentNumBatch < 0x1_0000_0000
  }

  // The header and the end of the public input, by their places: the last index and state root before
  // and after the batch, the root of its exits, chain and batch number.
  lemma HeaderIsBatch(z: ZKInputs, cfg: Config, led: Ledger, log: seq<Creation>, b: Batch, run: BatchRun,
                      number: Root -> nat, bytes: Root -> seq<byte>)
    requires InputOf(z, cfg, led, log, b, run) && RootForms(number, bytes)
    ensures Fits(cfg, z.Published(number, bytes))
    ensures var d := GlobalData(cfg, z.Published(number, bytes));
      && |d| == ChainAt(cfg) + 6 && ChainAt(cfg) >= 108
      && d[0..6] == ToBE(led.currentIdx, 6) && d[6..12] == ToBE(run.outcome.led.currentIdx, 6)
      && FrontOf(d[12..44], number(AccountsRoot(led.accounts)))
      && d[44..76] == bytes(AccountsRoot(run.outcome.led.accounts))
      && d[76..108] == bytes(AccountsRoot(run.outcome.beforePayout.exits))
      && d[ChainAt(cfg)..ChainAt(cfg) + 2] == ToBE(cfg.chainID, 2)
      && d[ChainAt(cfg) + 2..] == ToBE(z.currentNumBatch, 4)
  {
    AcceptedFits(z, cfg, led, log, b, run, number, bytes);
    var p := z.Published(number, bytes);
    assert p.oldLastIdx == led.currentIdx && p.oldRoot == number(AccountsRoot(led.accounts));
    assert p.chainID == cfg.chainID && p.batch == z.currentNumBatch by { SameConfig(z, cfg, run); }
    hide InputOf, GlobalData, Fits, FrontOf, AccountsRoot, TxProcessors.HoldsRun, WholeRun;
    HeaderFields(cfg, p);
    TrailerFields(cfg, p);
    FixedLayout(cfg, p);
  }

  lemma SameConfig(z: ZKInputs, cfg: Config, run: BatchRun)
    requires TxProcessors.HoldsRun(z, cfg, run)
    ensures z.cfg == cfg
  {
  }

  // The L1 section holds the 78 bytes of each L1 transaction in order, and zeros after the last.
  lemma L1SlotIsTx(z: ZKInputs, cfg: Config, led: Ledger, log: seq<Creation>, b: Batch, run: BatchRun,
                   number: Root -> nat, bytes: Root -> seq<byte>, i: nat)
    requires InputOf(z, cfg, led, log, b, run) && RootForms(number, bytes) && i < cfg.maxL1Tx
    ensures Fits(cfg, z.Published(number, bytes))
    ensures var d := GlobalData(cfg, z.Published(number, bytes));
      var at := L1At() + i * L1_TOTAL_BYTES;
      var txs := run.outcome.l1User + run.outcome.l1Coord;
      && 0 <= at <= at + L1_TOTAL_BYTES <= |d|
      && (i < |txs| ==> GenericBytes(txs[i]) == Ok(d[at..at + L1_TOTAL_BYTES]))
      && (i >= |txs| ==> d[at..at + L1_TOTAL_BYTES] == Zeros(L1_TOTAL_BYTES))
  {
    AcceptedFits(z, cfg, led, log, b, run, number, bytes);
    LogFits(cfg, led, log, b);
    var p := z.Published(number, bytes);
    LoggedL1Data(z, cfg, run, number, bytes, i);
    hide InputOf, GlobalData, Fits, AccountsRoot, TxProcessors.HoldsRun, WholeRun, GenericBytes;
    L1DataAt(cfg, p, i);
  }

  lemma LoggedL1Data(z: ZKInputs, cfg: Config, run: BatchRun, number: Root -> nat, bytes: Root -> seq<byte>, i: nat)
    requires TxProcessors.HoldsRun(z, cfg, run)
    ensures var data := z.Published(number, bytes).l1Data;
      |data| == |run.log.l1| && (i < |data| ==> GenericBytes(run.log.l1[i]) == Ok(data[i]))
  {
    hide AccountsRoot, L1Record, L2Record, GenericBytes, FinalFees;
    var m := z.metadata;
    if i < |m.l1| {
      assert WrittenL1(m.l1[i], m.l1TxsData[i], m.l1TxsDataAvailability[i], cfg.nLevels / 8);
    }
  }

  // The fee section holds the coordinator accounts that are paid, in order, and zeros after the last.
  lemma FeeSlotIsPaid(z: ZKInputs, cfg: Config, led: Ledger, log: seq<Creation>, b: Batch, run: BatchRun,
                      number: Root -> nat, bytes: Root -> seq<byte>, i: nat)
    requires InputOf(z, cfg, led, log, b, run) && RootForms(number, bytes) && i < cfg.maxFeeTx
    ensures Fits(cfg, z.Published(number, bytes))
    ensures var d := GlobalData(cfg, z.Published(number, bytes));
      var w := cfg.nLevels / 8;
      var at := FeesAt(cfg) + i * w;
      var paid := run.outcome.coordIdxs;
      0 <= at <= at + w <= |d| && d[at..at + w] == ToBE(if i < |paid| then paid[i] else 0, w)
  {
    AcceptedFits(z, cfg, led, log, b, run, number, bytes);
    PaidIdxs(z, cfg, run);
    var p := z.Published(number, bytes);
    assert p.feeIdxs[i] == if i < |run.outcome.coordIdxs| then run.outcome.coordIdxs[i] else 0;
    hide InputOf, GlobalData, Fits, AccountsRoot, TxProcessors.HoldsRun, WholeRun;
    FeeIdxAt(cfg, p, i);
  }
}
