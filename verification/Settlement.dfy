// A batch that the builder accepts, published and read back, makes the synchronizer reach the same state.
module Settlement {
  import opened Types
  import opened Bytes
  import opened Accounts
  import opened Txs
  import opened Ledgers
  import opened LedgerInvariants
  import opened Batches
  import opened FeePayout
  import opened Runs
  import opened Conservation
  import opened ModeAgreement
  import opened Codec
  import opened CoordTxBytes
  import opened Slicing
  import Float40

  // What the synchronizer runs for one published transaction: its type is set from the receiver and
  // it is put into a pool record.
  function Replayed(tx: L2Tx): Result<PoolL2Tx> {
    var t :- L2Type(tx);
    Ok(Pooled(tx.(typ := t)))
  }

  function ReplayedAll(txs: seq<L2Tx>): (r: Result<seq<PoolL2Tx>>)
    ensures r.Ok? ==> |r.value| == |txs|
  {
    if txs == [] then Ok([])
    else
      var front :- ReplayedAll(txs[..|txs| - 1]);
      var last :- Replayed(txs[|txs| - 1]);
      Ok(front + [last])
  }

  function ForgedAll(txs: seq<PoolL2Tx>): (r: seq<L2Tx>)
    ensures |r| == |txs| && forall k :: 0 <= k < |txs| ==> r[k] == Forged(txs[k])
  {
    seq(|txs|, k requires 0 <= k < |txs| => Forged(txs[k]))
  }

  // The type was set by the pool and the receiver is not resolved yet.
  predicate Typed(tx: PoolL2Tx) {
    PoolType(tx) == Ok(tx.typ) && tx.auxToIdx == 0
  }

  // ---- one transaction ----

  // The receiver of a published transaction is a user account for a transfer and 1 for an exit, so
  // re-typing gives a transfer or an exit as before.
  lemma ReplayedTypes(fees: FeeTable, coordOf: map<TokenID, Idx>, st: BState, log: seq<Creation>, tx: PoolL2Tx)
    requires Inv(st.led, log) && Typed(tx) && RunOneL2(BatchBuilder, fees, coordOf, st, tx).Ok?
    ensures var tx' := RunOneL2(BatchBuilder, fees, coordOf, st, tx).value.1;
      var d := Published(Forged(tx'));
      && IsL2Type(tx.typ) && InputsL2(tx')
      && tx'.typ == tx.typ && tx'.fromIdx == tx.fromIdx && tx'.amount == tx.amount && tx'.fee == tx.fee
      && d.toIdx == Receiver(tx')
      && (IsTransfer(tx.typ) ==> d.toIdx >= USER_THRESHOLD)
      && (tx.typ == TypeExit ==> d.toIdx == 1)
      && L2Type(d).Ok?
  {
    ResolvedIsUser(st, log, tx);
  }

  // The record that the synchronizer replays does the same to the state.
  lemma OneSettles(fees: FeeTable, coordOf: map<TokenID, Idx>, st: BState, log: seq<Creation>, tx: PoolL2Tx)
    requires Inv(st.led, log) && Typed(tx) && RunOneL2(BatchBuilder, fees, coordOf, st, tx).Ok?
    ensures var (st', tx') := RunOneL2(BatchBuilder, fees, coordOf, st, tx).value;
      && Replayed(Published(Forged(tx'))).Ok?
      && var r := RunOneL2(Synchronizer, fees, coordOf, st, Replayed(Published(Forged(tx'))).value);
      r.Ok? && r.value.0 == st'
  {
    ReplayedTypes(fees, coordOf, st, log, tx);
    RunOneL2Shape(BatchBuilder, fees, coordOf, st, tx);
    OneL2Agrees(fees, coordOf, st, log, tx);
    var (st', tx') := RunOneL2(BatchBuilder, fees, coordOf, st, tx).value;
    var d := Replayed(Published(Forged(tx'))).value;
    var s := st.led.accounts[tx.fromIdx];
    assert Resolve(Synchronizer, st.led, d) == Ok(d);
    assert Stamp(Synchronizer, st.led, d) == Ok(d.(nonce := s.nonce, tokenID := s.tokenID));
    assert ApplyL2(fees, coordOf, st, d.(nonce := s.nonce, tokenID := s.tokenID)) == ApplyL2(fees, coordOf, st, tx');
  }

  // What the builder accepts can be published while the indices fit the levels.
  lemma OnePublishable(fees: FeeTable, coordOf: map<TokenID, Idx>, st: BState, log: seq<Creation>, tx: PoolL2Tx,
                       w: nat)
    requires Inv(st.led, log) && Typed(tx) && RunOneL2(BatchBuilder, fees, coordOf, st, tx).Ok?
    requires WidthOK(w) && st.led.currentIdx < Pow256(w)
    ensures Publishable(Forged(RunOneL2(BatchBuilder, fees, coordOf, st, tx).value.1), w)
  {
    ReplayedTypes(fees, coordOf, st, log, tx);
    OneL2Agrees(fees, coordOf, st, log, tx);
    RunOneL2Shape(BatchBuilder, fees, coordOf, st, tx);
    var tx' := RunOneL2(BatchBuilder, fees, coordOf, st, tx).value.1;
    ApplyL2Keeps(fees, coordOf, st, tx');
    if IsTransfer(tx.typ) {
      ReceiverExists(fees, coordOf, st, tx');
    }
  }

  lemma ReceiverExists(fees: FeeTable, coordOf: map<TokenID, Idx>, st: BState, tx: PoolL2Tx)
    requires AccountsUpTo(st.led, st.led.currentIdx) && IsTransfer(tx.typ) && ApplyL2(fees, coordOf, st, tx).Ok?
    ensures Receiver(tx) in st.led.accounts
  {
    DebitKeeps(fees, coordOf, st, st.led.currentIdx, tx.fromIdx, tx.amount, tx.fee);
    var (st1, s1) := Debit(fees, coordOf, st, tx.fromIdx, tx.amount, tx.fee).value;
    CreditKeeps(st1.led, st.led.currentIdx, tx.fromIdx, s1, Receiver(tx), tx.amount);
  }

  // ---- the loops ----

  // One more transaction to replay behind those before.
  lemma ReplayedNext(txs: seq<L2Tx>, tx: L2Tx)
    requires ReplayedAll(txs).Ok? && Replayed(tx).Ok?
    ensures ReplayedAll(txs + [tx]) == Ok(ReplayedAll(txs).value + [Replayed(tx).value])
  {
    assert (txs + [tx])[..|txs|] == txs;
  }

  lemma PublishedNext(out: seq<PoolL2Tx>, tx: PoolL2Tx)
    ensures AllPublished(ForgedAll(out + [tx])) == AllPublished(ForgedAll(out)) + [Published(Forged(tx))]
  {
  }

  lemma RunNext(mode: Mode, fees: FeeTable, coordOf: map<TokenID, Idx>, st: BState, txs: seq<PoolL2Tx>, tx: PoolL2Tx)
    requires RunL2s(mode, fees, coordOf, st, txs).Ok?
    requires RunOneL2(mode, fees, coordOf, RunL2s(mode, fees, coordOf, st, txs).value.0, tx).Ok?
    ensures RunL2s(mode, fees, coordOf, st, txs + [tx]).Ok?
    ensures RunL2s(mode, fees, coordOf, st, txs + [tx]).value.0
      == RunOneL2(mode, fees, coordOf, RunL2s(mode, fees, coordOf, st, txs).value.0, tx).value.0
  {
    assert (txs + [tx])[..|txs|] == txs;
  }

  lemma {:induction false} L2sSettle(fees: FeeTable, coordOf: map<TokenID, Idx>, st: BState, log: seq<Creation>,
                                     txs: seq<PoolL2Tx>)
    requires Inv(st.led, log) && (forall k :: 0 <= k < |txs| ==> Typed(txs[k]))
    requires RunL2s(BatchBuilder, fees, coordOf, st, txs).Ok?
    ensures var (st', out) := RunL2s(BatchBuilder, fees, coordOf, st, txs).value;
      var replayed := ReplayedAll(AllPublished(ForgedAll(out)));
      && replayed.Ok?
      && RunL2s(Synchronizer, fees, coordOf, st, replayed.value).Ok?
      && RunL2s(Synchronizer, fees, coordOf, st, replayed.value).value.0 == st'
  {
    hide Inv, Typed, RunOneL2, Replayed, Forged, Published;
    if txs == [] {
      assert AllPublished(ForgedAll([])) == [];
    } else {
      var last := |txs| - 1;
      var (st1, out1) := RunL2s(BatchBuilder, fees, coordOf, st, txs[..last]).value;
      L2sSettle(fees, coordOf, st, log, txs[..last]);
      L2sKeepInv(BatchBuilder, fees, coordOf, st, log, txs[..last]);
      OneSettles(fees, coordOf, st1, log, txs[last]);
      var tx := RunOneL2(BatchBuilder, fees, coordOf, st1, txs[last]).value.1;
      var front := AllPublished(ForgedAll(out1));
      PublishedNext(out1, tx);
      ReplayedNext(front, Published(Forged(tx)));
      RunNext(Synchronizer, fees, coordOf, st, ReplayedAll(front).value, Replayed(Published(Forged(tx))).value);
    }
  }

  lemma {:induction false} L2sPublishable(fees: FeeTable, coordOf: map<TokenID, Idx>, st: BState,
                                          log: seq<Creation>, txs: seq<PoolL2Tx>, w: nat)
    requires Inv(st.led, log) && (forall k :: 0 <= k < |txs| ==> Typed(txs[k]))
    requires RunL2s(BatchBuilder, fees, coordOf, st, txs).Ok?
    requires WidthOK(w) && st.led.currentIdx < Pow256(w)
    ensures forall k :: 0 <= k < |txs| ==>
      Publishable(ForgedAll(RunL2s(BatchBuilder, fees, coordOf, st, txs).value.1)[k], w)
  {
    if txs != [] {
      var last := |txs| - 1;
      var (st1, out1) := RunL2s(BatchBuilder, fees, coordOf, st, txs[..last]).value;
      L2sPublishable(fees, coordOf, st, log, txs[..last], w);
      L2sKeepInv(BatchBuilder, fees, coordOf, st, log, txs[..last]);
      OnePublishable(fees, coordOf, st1, log, txs[last], w);
      var out := RunL2s(BatchBuilder, fees, coordOf, st, txs).value.1;
      assert forall k :: 0 <= k < last ==> ForgedAll(out)[k] == ForgedAll(out1)[k];
    }
  }

  // The synchronizer has the user transactions from the contract's queue, with no effective amounts yet.
  lemma OneL1AgreesFromQueue(st: BState, log: seq<Creation>, tx: L1Tx)
    requires Inv(st.led, log) && RunOneL1(BatchBuilder, st, tx).Ok?
    ensures RunOneL1(Synchronizer, st, tx).Ok?
    ensures RunOneL1(Synchronizer, st, tx).value.0 == RunOneL1(BatchBuilder, st, tx).value.0
  {
    hide Inv, ApplyL1, Effective, InputsL1;
    OneL1Agrees(st, log, tx);
    PreparedSame(st.led, tx);
    PreparedTwice(st.led, tx);
    RunOneL1Shape(BatchBuilder, st, tx);
    assert RunOneL1(BatchBuilder, st, tx).value.1 == Prepared(st.led, tx);
  }

  lemma {:induction false} L1sAgreeFromQueue(st: BState, log: seq<Creation>, txs: seq<L1Tx>)
    requires Inv(st.led, log) && RunL1s(BatchBuilder, st, txs).Ok?
    ensures RunL1s(Synchronizer, st, txs).Ok?
    ensures RunL1s(Synchronizer, st, txs).value.0 == RunL1s(BatchBuilder, st, txs).value.0
  {
    if txs != [] {
      var last := |txs| - 1;
      L1sAgreeFromQueue(st, log, txs[..last]);
      L1sKeepInv(BatchBuilder, st, log, txs[..last]);
      OneL1AgreesFromQueue(RunL1s(BatchBuilder, st, txs[..last]).value.0, log + AllCreations(txs[..last]), txs[last]);
    }
  }

  // Whatever L1 transactions the builder accepts, their records can be written.
  lemma {:induction false} L1sWritten(mode: Mode, st: BState, txs: seq<L1Tx>, w: nat)
    requires mode.BatchBuilder? && RunL1s(mode, st, txs).Ok? && WidthOK(w)
    ensures L1Bytes(RunL1s(mode, st, txs).value.1, w).Ok?
  {
    if txs != [] {
      var last := |txs| - 1;
      L1sWritten(mode, st, txs[..last], w);
      var (st1, out1) := RunL1s(mode, st, txs[..last]).value;
      var out := RunL1s(mode, st, txs).value.1;
      assert out[..last] == out1;
      var tx := RunOneL1(mode, st1, txs[last]).value.1;
      assert InputsL1(tx);
      Float40.EncodeExact(tx.effectiveAmount);
    }
  }

  // ---- the batch ----

  function Width(cfg: Config): nat {
    cfg.nLevels / 8
  }

  // What the builder publishes for an accepted batch: the record bytes and the fee slots.
  function Posted(cfg: Config, b: Batch, out: Outcome): Result<(seq<byte>, seq<byte>)>
    requires LevelsOK(cfg.nLevels)
  {
    var data :- BatchBytes(out.l1Coord, out.l1User, ForgedAll(out.l2), Width(cfg));
    var fees :- FeeBytes(b.coordIdxs, MAX_FEE_IDX, Width(cfg));
    Ok((data, fees))
  }

  // NewL1Tx sets the type of an announced transaction.
  function TypedCoords(txs: seq<L1Tx>): Result<seq<L1Tx>> {
    if txs == [] then Ok([])
    else
      var front :- TypedCoords(txs[..|txs| - 1]);
      var t :- L1Type(txs[|txs| - 1]);
      Ok(front + [txs[|txs| - 1].(typ := t)])
  }

  // What the synchronizer does with it, given the user transactions of the queue: slice, decode, set
  // types, and process the batch. The coordinator's transactions are read and kept for the record, but
  // the processor is given none.
  function Synced(cfg: Config, led: Ledger, queue: seq<L1Tx>, call: Call, recover: Recover): Result<Outcome>
    requires LevelsOK(cfg.nLevels)
  {
    if |queue| * RecordLen(Width(cfg)) > |call.data| then Err(BadLength)
    else
      var args :- ParseBatch(call, |queue|, Width(cfg), recover);
      var kept :- TypedCoords(args.l1Coord);
      var l2 :- ReplayedAll(args.l2);
      RunBatch(Synchronizer, cfg, led, Batch(args.feeIdxs, queue, [], l2))
  }

  function Untyped(txs: seq<L1Tx>): (r: seq<L1Tx>)
    ensures |r| == |txs| && forall k :: 0 <= k < |txs| ==> r[k] == txs[k].(typ := TypeUnset)
  {
    seq(|txs|, k requires 0 <= k < |txs| => txs[k].(typ := TypeUnset))
  }

  // These bytes announce the coordinator's transactions, whose types were set from their fields.
  ghost predicate Announced(coordData: seq<byte>, recover: Recover, txs: seq<L1Tx>) {
    && Announces(coordData, recover, Untyped(txs))
    && forall k :: 0 <= k < |txs| ==> L1Type(txs[k]) == Ok(txs[k].typ)
  }

  lemma {:induction false} ParsedOpenAccounts(data: seq<byte>, n: nat, recover: Recover)
    requires n * COORD_TOTAL_BYTES <= |data| && ParseCoords(data, n, recover).Ok?
    ensures var txs := ParseCoords(data, n, recover).value;
      |txs| == n && forall k :: 0 <= k < n ==> txs[k].fromIdx == 0 && txs[k].toIdx == 0
  {
    if n > 0 {
      NextSlot(n - 1, n, COORD_TOTAL_BYTES);
      ParsedOpenAccounts(data, n - 1, recover);
    }
  }

  // Each announced transaction opens an account.
  lemma AnnouncedOpenAccounts(coordData: seq<byte>, recover: Recover, txs: seq<L1Tx>)
    requires Announced(coordData, recover, txs)
    ensures forall k :: 0 <= k < |txs| ==> txs[k].typ == TypeCreateAccountDeposit
    ensures AllCreations(txs) == [] <==> txs == []
  {
    ParsedOpenAccounts(coordData, |txs|, recover);
    assert forall k :: 0 <= k < |txs| ==> Untyped(txs)[k].fromIdx == txs[k].fromIdx;
    forall k | 0 <= k < |txs|
      ensures txs[k].typ == TypeCreateAccountDeposit
    {
      assert Untyped(txs)[k].toIdx == txs[k].toIdx;
    }
  }

  lemma SettledStages(cfg: Config, led: Ledger, log: seq<Creation>, b: Batch)
    requires Inv(led, log) && b.l1Coord == [] && RunBatch(BatchBuilder, cfg, led, b).Ok?
    requires forall k :: 0 <= k < |b.l2| ==> Typed(b.l2[k])
    ensures var out := RunBatch(BatchBuilder, cfg, led, b).value;
      var replayed := ReplayedAll(AllPublished(ForgedAll(out.l2)));
      && replayed.Ok?
      && var sync := RunBatch(Synchronizer, cfg, led, Batch(b.coordIdxs, b.l1User, [], replayed.value));
      && sync.Ok? && sync.value.led == out.led && sync.value.beforePayout == out.beforePayout
  {
    RunBatchShape(BatchBuilder, cfg, led, b);
    OpenBatchKeepsInv(BatchBuilder, led, log, b);
    var o := OpenBatch(BatchBuilder, led, b).value;
    L1sAgreeFromQueue(Fresh(led), log, b.l1User);
    L2sSettle(cfg.fees, o.coordOf, o.st, Extended(log, b), b.l2);
    var out := RunBatch(BatchBuilder, cfg, led, b).value;
    OpeningFromQueue(led, log, b, ReplayedAll(AllPublished(ForgedAll(out.l2))).value);
  }

  lemma OpeningFromQueue(led: Ledger, log: seq<Creation>, b: Batch, l2: seq<PoolL2Tx>)
    requires Inv(led, log) && b.l1Coord == [] && OpenBatch(BatchBuilder, led, b).Ok?
    ensures var o := OpenBatch(BatchBuilder, led, b).value;
      var o' := OpenBatch(Synchronizer, led, Batch(b.coordIdxs, b.l1User, [], l2));
      o'.Ok? && o'.value.st == o.st && o'.value.coordIdxs == o.coordIdxs && o'.value.coordOf == o.coordOf
  {
    L1sAgreeFromQueue(Fresh(led), log, b.l1User);
  }

  // Without the coordinator's transactions no run reaches the same ledger, if they open accounts.
  lemma AccountsMissing(cfg: Config, led: Ledger, log: seq<Creation>, b: Batch, b': Batch)
    requires Inv(led, log) && RunBatch(BatchBuilder, cfg, led, b).Ok? && RunBatch(Synchronizer, cfg, led, b').Ok?
    requires b'.l1User == b.l1User && b'.l1Coord == []
    requires RunBatch(Synchronizer, cfg, led, b').value.led == RunBatch(BatchBuilder, cfg, led, b).value.led
    ensures AllCreations(b.l1Coord) == []
  {
    hide RunBatch;
    BatchKeepsInv(BatchBuilder, cfg, led, log, b);
    BatchKeepsInv(Synchronizer, cfg, led, log, b');
    assert |Extended(log, b)| == |Extended(log, b')|;
  }

  // The conditions under which a batch can be published: the pool has typed its transactions, there are
  // no more coordinator accounts than fee slots, and every index fits the levels.
  ghost predicate Forgeable(cfg: Config, b: Batch, last: Idx) {
    && LevelsOK(cfg.nLevels) && last < Pow256(Width(cfg)) && |b.coordIdxs| <= MAX_FEE_IDX
    && forall k :: 0 <= k < |b.l2| ==> Typed(b.l2[k])
  }

  lemma L1PartsWritten(cfg: Config, led: Ledger, b: Batch)
    requires LevelsOK(cfg.nLevels) && OpenBatch(BatchBuilder, led, b).Ok?
    ensures var o := OpenBatch(BatchBuilder, led, b).value;
      && L1Bytes(o.l1User, Width(cfg)).Ok? && L1Bytes(o.l1Coord, Width(cfg)).Ok?
      && |o.l1User| == |b.l1User| && |o.l1Coord| == |b.l1Coord|
  {
    hide L1Bytes, RunL1s, FilterCoords, CoordMap;
    L1sWritten(BatchBuilder, Fresh(led), b.l1User, Width(cfg));
    L1sWritten(BatchBuilder, RunL1s(BatchBuilder, Fresh(led), b.l1User).value.0, b.l1Coord, Width(cfg));
  }

  // The coordinator accounts exist, so their indices fit as well.
  lemma FeeIdxsFit(cfg: Config, led: Ledger, log: seq<Creation>, b: Batch, w: nat)
    requires Inv(led, log) && RunBatch(BatchBuilder, cfg, led, b).Ok?
    requires w <= 6 && RunBatch(BatchBuilder, cfg, led, b).value.led.currentIdx < Pow256(w)
    ensures OpenBatch(BatchBuilder, led, b).Ok?
    ensures OpenBatch(BatchBuilder, led, b).value.st.led.currentIdx < Pow256(w)
    ensures forall k :: 0 <= k < |b.coordIdxs| ==> 0 < b.coordIdxs[k] < Pow256(w)
  {
    hide RunBatch, RunL2s, PayFees, Pow256;
    RunBatchShape(BatchBuilder, cfg, led, b);
    OpenBatchKeepsInv(BatchBuilder, led, log, b);
    BatchKeepsInv(BatchBuilder, cfg, led, log, b);
    FilterKeepsFirsts(OpenBatch(BatchBuilder, led, b).value.st.led, b.coordIdxs);
  }

  // Everything that is posted reads back, the announced transactions of the coordinator included.
  lemma SettledBytes(cfg: Config, led: Ledger, log: seq<Creation>, b: Batch, coordData: seq<byte>, recover: Recover)
    requires Inv(led, log) && RunBatch(BatchBuilder, cfg, led, b).Ok?
    requires Forgeable(cfg, b, RunBatch(BatchBuilder, cfg, led, b).value.led.currentIdx)
    requires Announced(coordData, recover, b.l1Coord)
    ensures var out := RunBatch(BatchBuilder, cfg, led, b).value;
      var posted := Posted(cfg, b, out);
      && posted.Ok?
      && |b.l1User| * RecordLen(Width(cfg)) <= |posted.value.0|
      && ParseBatch(Call(posted.value.0, coordData, posted.value.1), |b.l1User|, Width(cfg), recover)
         == Ok(Args(FieldsOf(CutRecords(out.l1User, Width(cfg))), Untyped(b.l1Coord), AllPublished(ForgedAll(out.l2)),
                    b.coordIdxs))
  {
    hide OpenBatch, RunL2s, PayFees, Pow256, ParseBatch, BatchBytes, FeeBytes, L1Bytes, Announces, Typed;
    RunBatchShape(BatchBuilder, cfg, led, b);
    OpenBatchKeepsInv(BatchBuilder, led, log, b);
    FeeIdxsFit(cfg, led, log, b, Width(cfg));
    L1PartsWritten(cfg, led, b);
    var o := OpenBatch(BatchBuilder, led, b).value;
    L2sPublishable(cfg.fees, o.coordOf, o.st, Extended(log, b), b.l2, Width(cfg));
    BatchRoundTrip(o.l1Coord, o.l1User, ForgedAll(RunBatch(BatchBuilder, cfg, led, b).value.l2), b.coordIdxs,
                   Width(cfg), coordData, Untyped(b.l1Coord), recover);
  }

  lemma NothingToType()
    ensures Untyped([]) == [] && TypedCoords([]) == Ok([])
  {
  }

  // Settlement: whenever the builder accepts a batch whose indices still fit the levels, the bytes
  // it posts make the synchronizer, from the same ledger and the same queue, reach exactly the same
  // ledger, exit tree and fee totals, receivers that were given by address included; if and only if the
  // coordinator opened no accounts, since those that it announces are not run.
  lemma Settlement(cfg: Config, led: Ledger, log: seq<Creation>, b: Batch, coordData: seq<byte>, recover: Recover)
    requires Inv(led, log) && RunBatch(BatchBuilder, cfg, led, b).Ok?
    requires Forgeable(cfg, b, RunBatch(BatchBuilder, cfg, led, b).value.led.currentIdx)
    requires Announced(coordData, recover, b.l1Coord)
    ensures var out := RunBatch(BatchBuilder, cfg, led, b).value;
      var posted := Posted(cfg, b, out);
      && posted.Ok?
      && var sync := Synced(cfg, led, b.l1User, Call(posted.value.0, coordData, posted.value.1), recover);
      && (sync.Ok? && sync.value.led == out.led <==> b.l1Coord == [])
      && (b.l1Coord == [] ==> sync.value.beforePayout == out.beforePayout)
  {
    hide RunBatch, Posted, ParseBatch, ReplayedAll, Announced;
    SettledBytes(cfg, led, log, b, coordData, recover);
    AnnouncedOpenAccounts(coordData, recover, b.l1Coord);
    NothingToType();
    if b.l1Coord == [] {
      SettledStages(cfg, led, log, b);
    } else {
      var out := RunBatch(BatchBuilder, cfg, led, b).value;
      var posted := Posted(cfg, b, out).value;
      var sync := Synced(cfg, led, b.l1User, Call(posted.0, coordData, posted.1), recover);
      if sync.Ok? && sync.value.led == out.led {
        var l2 := ReplayedAll(AllPublished(ForgedAll(out.l2))).value;
        AccountsMissing(cfg, led, log, b, Batch(b.coordIdxs, b.l1User, [], l2));
      }
    }
  }

  // The running node forges without coordinator accounts and posts no fee slots and no announcements at
  // all; that settles in the same way.
  lemma SettlementWithoutFees(cfg: Config, led: Ledger, log: seq<Creation>, b: Batch, recover: Recover)
    requires Inv(led, log) && b.coordIdxs == [] && b.l1Coord == [] && RunBatch(BatchBuilder, cfg, led, b).Ok?
    requires Forgeable(cfg, b, RunBatch(BatchBuilder, cfg, led, b).value.led.currentIdx)
    ensures var out := RunBatch(BatchBuilder, cfg, led, b).value;
      var data := BatchBytes([], out.l1User, ForgedAll(out.l2), Width(cfg));
      && data.Ok?
      && var sync := Synced(cfg, led, b.l1User, Call(data.value, [], []), recover);
      sync.Ok? && sync.value.led == out.led && sync.value.beforePayout == out.beforePayout
  {
    hide RunBatch, ParseBatch, ReplayedAll, BatchBytes, FeeBytes;
    NothingToType();
    assert Announced([], recover, b.l1Coord);
    hide Announced;
    SettledBytes(cfg, led, log, b, [], recover);
    SettledStages(cfg, led, log, b);
    var out := RunBatch(BatchBuilder, cfg, led, b).value;
    NoCoordRecords(cfg, led, b);
    var posted := Posted(cfg, b, out).value;
    NoFeeSlots(Call(posted.0, [], posted.1), |b.l1User|, Width(cfg), recover);
  }

  lemma NoCoordRecords(cfg: Config, led: Ledger, b: Batch)
    requires b.l1Coord == [] && RunBatch(BatchBuilder, cfg, led, b).Ok?
    ensures RunBatch(BatchBuilder, cfg, led, b).value.l1Coord == []
  {
    hide RunL2s, FilterCoords, CoordMap, PayFees;
  }

  lemma NoFeeSlots(call: Call, l1UserLen: nat, w: nat, recover: Recover)
    requires WidthOK(w) && l1UserLen * RecordLen(w) <= |call.data| && ParseBatch(call, l1UserLen, w, recover).Ok?
    ensures ParseBatch(call.(feeData := []), l1UserLen, w, recover)
      == Ok(ParseBatch(call, l1UserLen, w, recover).value.(feeIdxs := []))
  {
    hide ParseL2s, ParseCoords;
    assert Slots([], w) == 0;
  }

  // ---- the whole history ----

  // What is public about a batch: the queue of user transactions that it forges, and what is posted.
  datatype Posting = Posting(queue: seq<L1Tx>, call: Call)

  // A batch with the bytes that announce its coordinator's transactions.
  datatype Announcement = Announcement(b: Batch, coordData: seq<byte>)

  // The builder's ledger after a history of batches, and everything it posted.
  function Build(cfg: Config, batches: seq<Announcement>): (r: Result<(Ledger, seq<Posting>)>)
    requires LevelsOK(cfg.nLevels)
    ensures r.Ok? ==> |r.value.1| == |batches|
  {
    if batches == [] then Ok((EMPTY_LEDGER, []))
    else
      var last := batches[|batches| - 1];
      var (led, posts) :- Build(cfg, batches[..|batches| - 1]);
      var out :- RunBatch(BatchBuilder, cfg, led, last.b);
      var posted :- Posted(cfg, last.b, out);
      Ok((out.led, posts + [Posting(last.b.l1User, Call(posted.0, last.coordData, posted.1))]))
  }

  // The synchronizer's ledger, from what is public alone.
  function Replay(cfg: Config, posts: seq<Posting>, recover: Recover): Result<Ledger>
    requires LevelsOK(cfg.nLevels)
  {
    if posts == [] then Ok(EMPTY_LEDGER)
    else
      var p := posts[|posts| - 1];
      var led :- Replay(cfg, posts[..|posts| - 1], recover);
      var out :- Synced(cfg, led, p.queue, p.call, recover);
      Ok(out.led)
  }

  function AllCreated(batches: seq<Announcement>): seq<Creation> {
    if batches == [] then [] else Extended(AllCreated(batches[..|batches| - 1]), batches[|batches| - 1].b)
  }

  lemma {:induction false} BuildIsSafe(cfg: Config, batches: seq<Announcement>)
    requires LevelsOK(cfg.nLevels) && Build(cfg, batches).Ok?
    ensures Inv(Build(cfg, batches).value.0, AllCreated(batches))
  {
    hide RunBatch, Posted, Inv, Extended;
    if batches == [] {
      EmptyIsSafe();
    } else {
      var last := |batches| - 1;
      BuildIsSafe(cfg, batches[..last]);
      BatchKeepsInv(BatchBuilder, cfg, Build(cfg, batches[..last]).value.0, AllCreated(batches[..last]),
                    batches[last].b);
    }
  }

  lemma EmptyIsSafe()
    ensures Inv(EMPTY_LEDGER, [])
  {
  }

  // What the users alone created.
  function UsersCreated(posts: seq<Posting>): seq<Creation> {
    if posts == [] then []
    else UsersCreated(posts[..|posts| - 1]) + AllCreations(posts[|posts| - 1].queue)
  }

  lemma SyncedIsRun(cfg: Config, led: Ledger, log: seq<Creation>, p: Posting, recover: Recover)
    requires LevelsOK(cfg.nLevels) && Inv(led, log) && Synced(cfg, led, p.queue, p.call, recover).Ok?
    ensures Inv(Synced(cfg, led, p.queue, p.call, recover).value.led, log + AllCreations(p.queue))
  {
    hide RunBatch, ParseBatch, ReplayedAll, TypedCoords, Inv;
    var args := ParseBatch(p.call, |p.queue|, Width(cfg), recover).value;
    var b := Batch(args.feeIdxs, p.queue, [], ReplayedAll(args.l2).value);
    BatchKeepsInv(Synchronizer, cfg, led, log, b);
    assert Extended(log, b) == log + AllCreations(p.queue);
  }

  lemma {:induction false} ReplayIsSafe(cfg: Config, posts: seq<Posting>, recover: Recover)
    requires LevelsOK(cfg.nLevels) && Replay(cfg, posts, recover).Ok?
    ensures Inv(Replay(cfg, posts, recover).value, UsersCreated(posts))
  {
    hide Synced, Inv;
    if posts == [] {
      EmptyIsSafe();
    } else {
      var last := |posts| - 1;
      ReplayIsSafe(cfg, posts[..last], recover);
      SyncedIsRun(cfg, Replay(cfg, posts[..last], recover).value, UsersCreated(posts[..last]), posts[last], recover);
    }
  }

  ghost predicate Wellformed(cfg: Config, a: Announcement, last: Idx, recover: Recover) {
    Forgeable(cfg, a.b, last) && Announced(a.coordData, recover, a.b.l1Coord)
  }

  // The users' creations are all, exactly if the coordinator had none.
  lemma {:induction false} CreationsCount(cfg: Config, batches: seq<Announcement>, last: Idx, recover: Recover)
    requires LevelsOK(cfg.nLevels) && Build(cfg, batches).Ok?
    requires forall k :: 0 <= k < |batches| ==> Wellformed(cfg, batches[k], last, recover)
    ensures |UsersCreated(Build(cfg, batches).value.1)| <= |AllCreated(batches)|
    ensures |UsersCreated(Build(cfg, batches).value.1)| == |AllCreated(batches)| <==> NoCoordinator(batches)
  {
    hide RunBatch, Posted, Forgeable, Announced, AllCreations;
    if batches != [] {
      var n := |batches| - 1;
      CreationsCount(cfg, batches[..n], last, recover);
      assert Wellformed(cfg, batches[n], last, recover);
      AnnouncedOpenAccounts(batches[n].coordData, recover, batches[n].b.l1Coord);
      var posts := Build(cfg, batches).value.1;
      assert posts[..n] == Build(cfg, batches[..n]).value.1;
      assert NoCoordinator(batches) <==> NoCoordinator(batches[..n]) && batches[n].b.l1Coord == [];
    }
  }

  ghost predicate NoCoordinator(batches: seq<Announcement>) {
    forall k :: 0 <= k < |batches| ==> batches[k].b.l1Coord == []
  }

  // No index is ever given back.
  lemma IndexGrows(led: Ledger, led': Ledger, log: seq<Creation>, b: Batch)
    requires Inv(led, log) && Inv(led', Extended(log, b))
    ensures led.currentIdx <= led'.currentIdx
  {
  }

  // While the coordinator opens no accounts, replaying what was posted gives the builder's ledger.
  lemma {:induction false} HistoryReplays(cfg: Config, batches: seq<Announcement>, last: Idx, recover: Recover)
    requires LevelsOK(cfg.nLevels) && NoCoordinator(batches)
    requires Build(cfg, batches).Ok? && Build(cfg, batches).value.0.currentIdx <= last
    requires forall k :: 0 <= k < |batches| ==> Wellformed(cfg, batches[k], last, recover)
    ensures Replay(cfg, Build(cfg, batches).value.1, recover) == Ok(Build(cfg, batches).value.0)
  {
    hide RunBatch, Posted, Synced, Inv, Extended, Announced, Typed, Pow256;
    if batches != [] {
      var n := |batches| - 1;
      var front, b := batches[..n], batches[n].b;
      var (led, posts) := Build(cfg, front).value;
      BuildIsSafe(cfg, front);
      BuildIsSafe(cfg, batches);
      IndexGrows(led, Build(cfg, batches).value.0, AllCreated(front), b);
      HistoryReplays(cfg, front, last, recover);
      assert Wellformed(cfg, batches[n], last, recover) && b.l1Coord == [];
      Settlement(cfg, led, AllCreated(front), b, batches[n].coordData, recover);
      var all := Build(cfg, batches).value.1;
      assert all[..n] == posts;
    }
  }

  // A synchronizer that starts from nothing and reads everything that is posted ends with exactly the
  // builder's ledger, whatever batches were built, while the indices fit the levels; if and only if the
  // coordinator never opened an account.
  lemma HistorySettles(cfg: Config, batches: seq<Announcement>, recover: Recover)
    requires LevelsOK(cfg.nLevels) && Build(cfg, batches).Ok?
    requires forall k :: 0 <= k < |batches| ==>
      Wellformed(cfg, batches[k], Build(cfg, batches).value.0.currentIdx, recover)
    ensures Replay(cfg, Build(cfg, batches).value.1, recover) == Ok(Build(cfg, batches).value.0)
      <==> NoCoordinator(batches)
  {
    hide Build, Replay, Wellformed, NoCoordinator, UsersCreated, AllCreated;
    var (led, posts) := Build(cfg, batches).value;
    CreationsCount(cfg, batches, led.currentIdx, recover);
    if NoCoordinator(batches) {
      HistoryReplays(cfg, batches, led.currentIdx, recover);
    } else if Replay(cfg, posts, recover) == Ok(led) {
      BuildIsSafe(cfg, batches);
      ReplayIsSafe(cfg, posts, recover);
    }
  }
}
