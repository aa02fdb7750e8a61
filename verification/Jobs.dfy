// The two jobs that drive a state database: the batch builder, and the selector that runs every batch
// on two databases. Each step ends with the batch processed or with everything as before.
module Jobs {
  import opened Types
  import opened Accounts
  import opened Bytes
  import opened Txs
  import opened Ledgers
  import opened LedgerInvariants
  import opened Batches
  import opened Stores
  import opened Checkpoints
  import opened KVDBs
  import opened StateDBs
  import opened Codec
  import opened Traces
  import opened TxProcessors
  import Genesis
  import Runs
  import ModeAgreement
  import RunLinks
  import Settlement
  import CoordTxBytes
  import Slicing

  // Between steps: what is open is the checkpoint of the current batch, and every checkpoint can be
  // read as a ledger.
  ghost predicate Healthy(s: StateDB)
    reads s, s.kv, s.kv.db, s.kv.last
  {
    s.Valid() && Idle(s.kv.cfg, s.kv.State()) && AllConsistent(s.kv.checkpoints)
  }

  // The configuration leaves room for the circuit inputs.
  predicate Roomy(cfg: Config) {
    cfg.maxL1Tx < cfg.maxTx && cfg.maxFeeTx > 0 && LevelsOK(cfg.nLevels)
  }

  // The storages are the same objects as before, or new ones.
  twostate predicate OwnStorage(s: StateDB)
    reads s.kv
  {
    && (s.kv.db == old(s.kv.db) || (s.kv.db != null ==> fresh(s.kv.db)))
    && (s.kv.last == old(s.kv.last) || (s.kv.last != null ==> fresh(s.kv.last)))
  }

  // A checkpoint was taken and then pruned to a single one, so the one before is gone.
  predicate Lost(ran: bool, b: nat, pruned: bool, keep: nat) {
    ran && pruned && keep == 1 && b > 0
  }

  // A reset to the batch of k leaves the store closed.
  ghost predicate Stuck(cfg: KVConfig, k: KV, later: KV) {
    Checkpoints.Reset(cfg, later, k.currentBatch).1.db.None?
  }

  // The database is the one of k again; earlier checkpoints may be missing.
  ghost predicate IsBack(s: StateDB, k: KV)
    reads s, s.kv, s.kv.db, s.kv.last
  {
    && Healthy(s) && k.db.Some? && Consistent(k.db.value) && s.led == LedgerOf(k.db.value)
    && s.kv.State() == k.(checkpoints := s.kv.checkpoints)
    && forall n :: n in s.kv.checkpoints ==> n in k.checkpoints && s.kv.checkpoints[n] == k.checkpoints[n]
  }

  lemma StuckIff(cfg: KVConfig, k: KV, later: KV)
    requires Returns(cfg, k, later)
    ensures !Stuck(cfg, k, later)
  {
  }

  lemma AdvancedStuck(cfg: KVConfig, k: KV, k1: KV, pruned: bool)
    requires Idle(cfg, k) && Advanced(cfg, k, k1)
    ensures var k2 := if pruned then Prune(cfg, k1) else k1;
      var lost := Lost(true, k.currentBatch, pruned, cfg.keep);
      (Returns(cfg, k, k2) <==> !lost) && (Stuck(cfg, k, k2) <==> lost)
  {
    hide Idle, Advanced, Prune;
    AdvancedReturns(cfg, k, k1, pruned);
  }

  ghost predicate CanReturn(cfg: KVConfig, k: KV, later: KV, pruned: bool) {
    if Lost(true, k.currentBatch, pruned, cfg.keep) then Stuck(cfg, k, later) else Returns(cfg, k, later)
  }

  // What a first reset does, and that a second one changes nothing.
  lemma ResetFacts(cfg: KVConfig, k: KV, later: KV)
    requires Idle(cfg, k)
    ensures var (e, back) := Checkpoints.Reset(cfg, later, k.currentBatch);
      && (forall n :: n in back.checkpoints ==> n in later.checkpoints && back.checkpoints[n] == later.checkpoints[n])
      && (Returns(cfg, k, later) ==>
            && Returns(cfg, k, back) && e.None? && Idle(cfg, back) && back == k.(checkpoints := back.checkpoints)
            && forall n :: n in back.checkpoints ==> n in k.checkpoints && back.checkpoints[n] == k.checkpoints[n])
      && (Stuck(cfg, k, later) ==> Stuck(cfg, k, back) && back.db.None?)
  {
    if Returns(cfg, k, later) {
      ReturnedReturns(cfg, k, later);
    }
  }

  // ProcessTxs, after which the background pruning may or may not have come to its end.
  method Attempt(p: TxProcessor, l1: array<L1Tx>, l2: array<PoolL2Tx>, pruned: bool)
    returns (r: Result<ProcessTxOutput>, ghost run: Result<BatchRun>)
    requires Healthy(p.state) && p.zki == null && (p.state.mode.BatchBuilder? ==> Roomy(p.cfg))
    modifies p, p.state, p.state.kv, p.state.kv.db, l1, l2
    ensures p.zki == null && p.state.kv.Valid() && OwnStorage(p.state) && AllConsistent(p.state.kv.checkpoints)
    ensures run == old(WholeRun(p.state.mode, p.cfg, p.state.led, Batch([], l1[..], [], l2[..])))
    ensures r.Ok? <==> run.Ok?
    ensures r.Ok? ==>
      && Healthy(p.state) && p.state.led == run.value.outcome.led
      && p.state.kv.currentBatch == old(p.state.kv.currentBatch) + 1
      && l1[..] == run.value.outcome.l1User && l2[..] == run.value.outcome.l2
    ensures Returns(p.state.kv.cfg, old(p.state.kv.State()), p.state.kv.State())
      <==> !Lost(r.Ok?, old(p.state.kv.currentBatch), pruned, p.state.kv.cfg.keep)
    ensures Stuck(p.state.kv.cfg, old(p.state.kv.State()), p.state.kv.State())
      <==> Lost(r.Ok?, old(p.state.kv.currentBatch), pruned, p.state.kv.cfg.keep)
  {
    hide WholeRun, Returns, Stuck, Idle, HoldsRun, Usable, ExactDiff, Consistent;
    var none := new L1Tx[0];
    ghost var cfg, k := p.state.kv.cfg, p.state.kv.State();
    assert p.BatchOf([], l1, none, l2) == Batch([], l1[..], [], l2[..]);
    r, run := p.ProcessTxs([], l1, none, l2);
    ghost var k1 := p.state.kv.State();
    if r.Err? {
      StalledReturns(cfg, k, k1);
      StuckIff(cfg, k, k1);
      return;
    }
    AdvancedIsIdle(cfg, k, k1);
    AdvancedStuck(cfg, k, k1, pruned);
    if pruned {
      var _ := p.state.kv.DeleteOldCheckpoints();
    }
  }

  // Reset to the batch of k, whether or not its checkpoint is still there.
  method GiveUp(s: StateDB, b: nat, ghost k: KV)
    requires s.kv.Valid() && AllConsistent(s.kv.checkpoints)
    requires b == k.currentBatch && Idle(s.kv.cfg, k) && Consistent(k.db.value)
    modifies s, s.kv
    ensures s.kv.Valid() && AllConsistent(s.kv.checkpoints) && OwnStorage(s)
    ensures old(Returns(s.kv.cfg, k, s.kv.State())) ==> Returns(s.kv.cfg, k, s.kv.State()) && IsBack(s, k)
    ensures old(Stuck(s.kv.cfg, k, s.kv.State())) ==> Stuck(s.kv.cfg, k, s.kv.State()) && s.kv.db == null
  {
    hide Consistent, Idle, Returns, Stuck;
    ghost var later := s.kv.State();
    ResetFacts(s.kv.cfg, k, later);
    var _ := s.Reset(b);
  }

  // ---- the batch builder ----

  // L2Tx of every transaction
  method ForgedTxs(l2: array<PoolL2Tx>) returns (r: seq<L2Tx>)
    ensures r == Settlement.ForgedAll(l2[..])
  {
    r := [];
    for i := 0 to l2.Length
      invariant r == Settlement.ForgedAll(l2[..i])
    {
      r := r + [Forged(l2[i])];
    }
    assert l2[..l2.Length] == l2[..];
  }

  class Builder {
    const state: StateDB
    const processor: TxProcessor

    constructor (state: StateDB, cfg: Config)
      ensures this.state == state && processor.state == state && processor.cfg == cfg && processor.zki == null
      ensures fresh(processor)
    {
      this.state := state;
      processor := new TxProcessor(state, cfg);
    }

    ghost predicate Valid()
      reads this, processor, state, state.kv, state.kv.db, state.kv.last
    {
      && processor.state == state && processor.zki == null && state.mode.BatchBuilder? && Roomy(processor.cfg)
      && Healthy(state)
    }

    // forgeBatchOnChain: process the batch, prove it, publish its records. Whether the proof and the
    // publication succeed comes from outside.
    method ForgeBatchOnChain(l1: array<L1Tx>, l2: array<PoolL2Tx>, proved: bool, sent: bool, pruned: bool)
      returns (r: Result<seq<byte>>, ghost run: Result<BatchRun>)
      requires Valid()
      modifies processor, state, state.kv, state.kv.db, l1, l2
      ensures processor.zki == null && state.kv.Valid() && OwnStorage(state) && AllConsistent(state.kv.checkpoints)
      ensures run == old(WholeRun(BatchBuilder, processor.cfg, state.led, Batch([], l1[..], [], l2[..])))
      ensures r.Ok? <==> run.Ok? && proved && sent && Records(processor.cfg, run.value.outcome).Ok?
      ensures run.Ok? ==>
        && Healthy(state) && state.led == run.value.outcome.led
        && state.kv.currentBatch == old(state.kv.currentBatch) + 1
      ensures r.Ok? ==> r == Records(processor.cfg, run.value.outcome)
      ensures Returns(state.kv.cfg, old(state.kv.State()), state.kv.State())
        <==> !Lost(run.Ok?, old(state.kv.currentBatch), pruned, state.kv.cfg.keep)
      ensures Stuck(state.kv.cfg, old(state.kv.State()), state.kv.State())
        <==> Lost(run.Ok?, old(state.kv.currentBatch), pruned, state.kv.cfg.keep)
    {
      hide WholeRun, Returns, Stuck, Idle, Consistent, Healthy;
      var out;
      out, run := Attempt(processor, l1, l2, pruned);
      if out.Err? {
        return Err(out.error), run;
      }
      if !proved {
        return Err(Malformed), run;
      }
      var l2txs := ForgedTxs(l2);
      r := Publish(l1, l2txs, sent);
    }

    // forgeBatch: only the records of the transactions are sent, no fee slots.
    method Publish(l1: array<L1Tx>, l2: seq<L2Tx>, sent: bool) returns (r: Result<seq<byte>>)
      requires LevelsOK(processor.cfg.nLevels)
      ensures r.Ok? <==> sent && BatchBytes([], l1[..], l2, processor.cfg.nLevels / 8).Ok?
      ensures r.Ok? ==> r == BatchBytes([], l1[..], l2, processor.cfg.nLevels / 8)
    {
      RecordLenIs(processor.cfg.nLevels);
      NoFees(processor.cfg.nLevels / 8);
      var data :- RollupForgeBatch([], l1[..], l2, [], processor.cfg.nLevels / 8);
      if !sent {
        return Err(Malformed);
      }
      r := Ok(data.0);
    }

    // One step of the job. The batch to synchronize with, the batch the selector has reached and the
    // transactions come from the database, and each query may fail. The step ends with the next batch
    // processed, checkpointed and published, or with the ledger, the index, the working storage and
    // the "last" view of the batch it started from, wherever it failed; only a store that retains a
    // single checkpoint, already pruned, stays closed after a failure behind the checkpoint.
    method Process(synced: Option<nat>, selected: Option<nat>, found: bool, l1: array<L1Tx>, l2: array<PoolL2Tx>,
                   proved: bool, sent: bool, pruned: bool) returns (r: Option<seq<byte>>, ghost run: Result<BatchRun>)
      requires Valid()
      modifies processor, state, state.kv, state.kv.db, l1, l2
      ensures run == old(WholeRun(BatchBuilder, processor.cfg, state.led, Batch([], l1[..], [], l2[..])))
      ensures r.Some? <==>
        && synced == Some(old(state.kv.currentBatch)) && selected.Some? && old(state.kv.currentBatch) < selected.value
        && found && run.Ok? && proved && sent && Records(processor.cfg, run.value.outcome).Ok?
      ensures r.Some? ==>
        && Valid() && state.kv.currentBatch == old(state.kv.currentBatch) + 1
        && state.led == run.value.outcome.led && Records(processor.cfg, run.value.outcome) == Ok(r.value)
      ensures r.None? ==>
        var tried := synced == Some(old(state.kv.currentBatch)) && selected.Some?
          && old(state.kv.currentBatch) < selected.value && found && run.Ok?;
        if Lost(tried, old(state.kv.currentBatch), pruned, state.kv.cfg.keep) then state.kv.db == null
        else Valid() && IsBack(state, old(state.kv.State())) && state.led == old(state.led)
    {
      hide WholeRun, Idle, Consistent, AllConsistent, Returns, Stuck;
      run := WholeRun(BatchBuilder, processor.cfg, state.led, Batch([], l1[..], [], l2[..]));
      var currentBatch := state.CurrentBatch();
      if synced != Some(currentBatch) || selected.None? || currentBatch >= selected.value || !found {
        return None, run;
      }
      ghost var k := state.kv.State();
      IdleReturns(state.kv.cfg, k);
      var posted;
      ghost var forged;
      posted, forged := ForgeBatchOnChain(l1, l2, proved, sent, pruned);
      if posted.Ok? {
        return Some(posted.value), run;
      }
      GiveUp(state, currentBatch, k);
      r := None;
    }
  }

  lemma NoFees(w: nat)
    requires WidthOK(w)
    ensures FeeBytes([], MAX_FEE_IDX, w).Ok?
  {
    ZeroSlots(MAX_FEE_IDX, w);
  }

  lemma {:induction false} ZeroSlots(n: nat, w: nat)
    requires WidthOK(w)
    ensures FeeBytes([], n, w).Ok?
  {
    if n > 0 {
      ZeroSlots(n - 1, w);
    }
  }

  // What is published for a batch: the records of its transactions.
  ghost function Records(cfg: Config, out: Outcome): Result<seq<byte>>
    requires LevelsOK(cfg.nLevels)
  {
    RecordLenIs(cfg.nLevels);
    BatchBytes([], out.l1User, Settlement.ForgedAll(out.l2), cfg.nLevels / 8)
  }

  // What is sent for an accepted batch makes a synchronizer that has the ledger and the queue from before
  // it reach the ledger from after it.
  lemma SentSettles(cfg: Config, led: Ledger, log: seq<Creation>, l1: seq<L1Tx>, l2: seq<PoolL2Tx>,
                    recover: CoordTxBytes.Recover)
    requires cfg.maxTx > 0 && Inv(led, log) && WholeRun(BatchBuilder, cfg, led, Batch([], l1, [], l2)).Ok?
    requires Settlement.Forgeable(
      cfg, Batch([], l1, [], l2), WholeRun(BatchBuilder, cfg, led, Batch([], l1, [], l2)).value.outcome.led.currentIdx)
    ensures var out := WholeRun(BatchBuilder, cfg, led, Batch([], l1, [], l2)).value.outcome;
      && Records(cfg, out).Ok?
      && var sync := Settlement.Synced(cfg, led, l1, Slicing.Call(Records(cfg, out).value, [], []), recover);
      sync.Ok? && sync.value.led == out.led && sync.value.beforePayout == out.beforePayout
  {
    hide WholeRun, RunBatch, BatchBytes, Settlement.Synced, Inv;
    RunLinks.WholeRunIs(BatchBuilder, cfg, led, Batch([], l1, [], l2));
    Settlement.SettlementWithoutFees(cfg, led, log, Batch([], l1, [], l2), recover);
  }

  // ---- the selector ----

  // How saving the results ends: a failure may or may not have reset the databases itself, and a panic
  // is caught by a handler that resets the first database alone.
  datatype Saving = Saved | Unsaved(reset: bool) | Panicked

  // What the selector's queries give for one step: the transactions, how saving the results ends, and
  // which of the two background prunings are over in time.
  datatype Selection = Selection(
    found: bool, l1: seq<L1Tx>, l2: seq<PoolL2Tx>, saving: Saving, pruned: bool, prunedSync: bool)

  // The check before the batch runs: every sender has an account, and the nonce that the account had
  // before the batch; its token is written into the transaction.
  function Checked(led: Ledger, txs: seq<PoolL2Tx>): (r: Result<seq<PoolL2Tx>>)
    ensures r.Ok? ==> |r.value| == |txs|
  {
    if txs == [] then Ok([])
    else
      var front :- Checked(led, txs[..|txs| - 1]);
      var last :- CheckedOne(led, txs[|txs| - 1]);
      Ok(front + [last])
  }

  function CheckedOne(led: Ledger, tx: PoolL2Tx): Result<PoolL2Tx> {
    var a :- led.Get(tx.fromIdx);
    if tx.nonce != a.nonce then Err(Malformed) else Ok(tx.(tokenID := a.tokenID))
  }

  // The transaction comes from an account and has the nonce that the account has.
  ghost predicate IsFresh(led: Ledger, tx: PoolL2Tx) {
    tx.fromIdx in led.accounts && tx.fromIdx <= MAX_IDX && tx.nonce == led.accounts[tx.fromIdx].nonce
  }

  ghost predicate AllFresh(led: Ledger, txs: seq<PoolL2Tx>) {
    forall k :: 0 <= k < |txs| ==> IsFresh(led, txs[k])
  }

  // Each transaction with the token of its sender, and otherwise as before.
  ghost predicate WithTokens(led: Ledger, txs: seq<PoolL2Tx>, txs': seq<PoolL2Tx>) {
    && |txs'| == |txs|
    && forall k :: 0 <= k < |txs| ==>
         txs[k].fromIdx in led.accounts && txs'[k] == txs[k].(tokenID := led.accounts[txs[k].fromIdx].tokenID)
  }

  // The check succeeds if and only if every transaction is fresh, each by the account before the batch;
  // it writes the token of its sender into each transaction, and nothing else.
  lemma {:induction false} CheckedIff(led: Ledger, txs: seq<PoolL2Tx>)
    ensures Checked(led, txs).Ok? <==> AllFresh(led, txs)
    ensures Checked(led, txs).Ok? ==> WithTokens(led, txs, Checked(led, txs).value)
  {
    if txs != [] {
      var last := |txs| - 1;
      var front := txs[..last];
      CheckedIff(led, front);
      assert forall k :: 0 <= k < last ==> front[k] == txs[k];
      assert AllFresh(led, txs) <==> AllFresh(led, front) && IsFresh(led, txs[last]);
    }
  }

  // A transaction with a stale nonce, or without a sender, stops the whole step.
  lemma StaleIsRefused(cfg: Config, led: Ledger, l1: seq<L1Tx>, l2: seq<PoolL2Tx>)
    requires cfg.maxTx > 0
    ensures !AllFresh(led, l2) ==> Selected(cfg, led, l1, l2).Err?
    ensures AllFresh(led, l2) ==>
      && Checked(led, l2).Ok?
      && Selected(cfg, led, l1, l2) == WholeRun(BatchBuilder, cfg, led, Batch([], l1, [], Checked(led, l2).value))
  {
    CheckedIff(led, l2);
  }

  lemma CheckedNone(led: Ledger, txs: seq<PoolL2Tx>)
    ensures Checked(led, txs[..0]) == Ok([])
  {
  }

  lemma ReplaceNext(done: seq<PoolL2Tx>, was: seq<PoolL2Tx>, i: nat, tx: PoolL2Tx)
    requires |done| == i < |was|
    ensures (done + was[i..])[i] == was[i] && (done + was[i..])[i := tx] == done + [tx] + was[i + 1..]
  {
  }

  lemma CheckedNext(led: Ledger, txs: seq<PoolL2Tx>, i: nat)
    requires i < |txs| && Checked(led, txs[..i]).Ok?
    ensures Checked(led, txs[..i + 1]).Ok? <==> CheckedOne(led, txs[i]).Ok?
    ensures CheckedOne(led, txs[i]).Ok? ==>
      Checked(led, txs[..i + 1]) == Ok(Checked(led, txs[..i]).value + [CheckedOne(led, txs[i]).value])
  {
    assert txs[..i + 1][..i] == txs[..i];
  }

  lemma {:induction false} CheckedSendersExist(led: Ledger, txs: seq<PoolL2Tx>)
    requires Checked(led, txs).Ok?
    ensures ModeAgreement.SendersExist(led, Checked(led, txs).value)
  {
    if txs != [] {
      CheckedSendersExist(led, txs[..|txs| - 1]);
    }
  }

  lemma {:induction false} CheckFails(led: Ledger, txs: seq<PoolL2Tx>, n: nat)
    requires n <= |txs| && Checked(led, txs[..n]).Err?
    ensures Checked(led, txs).Err?
    decreases |txs| - n
  {
    if n < |txs| {
      assert txs[..n + 1][..n] == txs[..n];
      CheckFails(led, txs, n + 1);
    } else {
      assert txs[..n] == txs;
    }
  }

  // A batch that the builder's database accepts runs on an equal synchronizer's database as well,
  // and makes the two equal again.
  lemma BothAgree(cfg: Config, led: Ledger, log: seq<Creation>, b: Batch)
    requires Inv(led, log) && cfg.maxTx > 0 && b.l1Coord == [] && ModeAgreement.SendersExist(led, b.l2)
    requires WholeRun(BatchBuilder, cfg, led, b).Ok?
    ensures var out := WholeRun(BatchBuilder, cfg, led, b).value.outcome;
      var sync := WholeRun(Synchronizer, cfg, led, Batch(b.coordIdxs, out.l1User, [], out.l2));
      sync.Ok? && sync.value.outcome.led == out.led && Inv(out.led, Runs.Extended(log, b))
  {
    hide WholeRun, RunBatch, Inv;
    RunLinks.WholeRunIs(BatchBuilder, cfg, led, b);
    var out := RunBatch(BatchBuilder, cfg, led, b).value;
    NoCoordinator(cfg, led, b);
    ModeAgreement.BatchAgrees(cfg, led, log, b);
    Runs.BatchKeepsInv(BatchBuilder, cfg, led, log, b);
    RunLinks.WholeRunIs(Synchronizer, cfg, led, Batch(b.coordIdxs, out.l1User, [], out.l2));
  }

  lemma NoCoordinator(cfg: Config, led: Ledger, b: Batch)
    requires b.l1Coord == [] && RunBatch(BatchBuilder, cfg, led, b).Ok?
    ensures RunBatch(BatchBuilder, cfg, led, b).value.l1Coord == []
  {
    hide RunL2s, FilterCoords, CoordMap, PayFees;
  }

  class Selector {
    const state: StateDB
    const sync: StateDB
    const cfg: Config

    // The two databases share nothing.
    ghost predicate Apart()
      reads state.kv, sync.kv
    {
      && state != sync && state.kv != sync.kv
      && (state.kv.db != null ==> state.kv.db != sync.kv.db && state.kv.db != sync.kv.last)
      && (sync.kv.db != null ==> sync.kv.db != state.kv.last)
    }

    ghost function Frame(): set<object?>
      reads state.kv, sync.kv
    {
      {state, state.kv, state.kv.db, state.kv.last, sync, sync.kv, sync.kv.db, sync.kv.last}
    }

    // Both are idle, at the same batch and with the same ledger.
    ghost predicate InStep(log: seq<Creation>)
      reads Frame()
    {
      && Apart() && Healthy(state) && Healthy(sync) && Settings()
      && state.led == sync.led && state.kv.currentBatch == sync.kv.currentBatch
      && Inv(state.led, log)
    }

    // One is for the builder, one for the synchronizer.
    ghost predicate Settings() {
      state.mode.BatchBuilder? && sync.mode.Synchronizer? && Roomy(cfg)
    }

    constructor (state: StateDB, sync: StateDB, cfg: Config)
      ensures this.state == state && this.sync == sync && this.cfg == cfg
    {
      this.state, this.sync, this.cfg := state, sync, cfg;
    }

    // Neither database has changed.
    twostate predicate Untouched()
      reads Frame()
    {
      && state.led == old(state.led) && state.kv.State() == old(state.kv.State())
      && sync.led == old(sync.led) && sync.kv.State() == old(sync.kv.State())
    }

    // The two runs of a batch. The second one never fails.
    method RunBoth(l1: array<L1Tx>, l2: array<PoolL2Tx>, pruned: bool, prunedSync: bool, ghost log: seq<Creation>)
      returns (ok: bool, ghost run: Result<BatchRun>)
      requires InStep(log) && ModeAgreement.SendersExist(state.led, l2[..])
      modifies state, state.kv, state.kv.db, sync, sync.kv, sync.kv.db, l1, l2
      ensures Apart() && OwnStorage(state) && OwnStorage(sync)
      ensures Kept(old(state.kv.State()), old(sync.kv.State()), run.Ok? && pruned, run.Ok? && prunedSync)
      ensures run == old(WholeRun(BatchBuilder, cfg, state.led, Batch([], l1[..], [], l2[..])))
      ensures ok <==> run.Ok?
      ensures ok ==>
        && InStep(old(Runs.Extended(log, Batch([], l1[..], [], l2[..]))))
        && state.led == run.value.outcome.led && state.kv.currentBatch == old(state.kv.currentBatch) + 1
    {
      hide WholeRun, Idle, Consistent, AllConsistent, Inv, Returns, Stuck, Runs.Extended;
      run := WholeRun(BatchBuilder, cfg, state.led, Batch([], l1[..], [], l2[..]));
      if run.Ok? {
        BothAgree(cfg, state.led, log, Batch([], l1[..], [], l2[..]));
      }
      ghost var k2 := sync.kv.State();
      IdleReturns(sync.kv.cfg, k2);
      var tp := new TxProcessor(state, cfg);
      var first;
      ghost var firstRun;
      first, firstRun := Attempt(tp, l1, l2, pruned);
      if first.Err? {
        return false, run;
      }
      var tpSync := new TxProcessor(sync, cfg);
      var second;
      ghost var secondRun;
      second, secondRun := Attempt(tpSync, l1, l2, prunedSync);
      ok := second.Ok?;
    }

    // Each database can go back to what it was, unless its checkpoint was lost to pruning.
    ghost predicate Kept(k1: KV, k2: KV, pruned: bool, prunedSync: bool)
      reads Frame()
    {
      && state.kv.Valid() && sync.kv.Valid()
      && AllConsistent(state.kv.checkpoints) && AllConsistent(sync.kv.checkpoints)
      && CanReturn(state.kv.cfg, k1, state.kv.State(), pruned)
      && CanReturn(sync.kv.cfg, k2, sync.kv.State(), prunedSync)
    }

    // What a reset of both makes of them.
    ghost predicate Back(k1: KV, k2: KV, pruned: bool, prunedSync: bool)
      reads Frame()
    {
      && (if Lost(true, k1.currentBatch, pruned, state.kv.cfg.keep) then state.kv.db == null else IsBack(state, k1))
      && (if Lost(true, k2.currentBatch, prunedSync, sync.kv.cfg.keep) then sync.kv.db == null else IsBack(sync, k2))
    }

    ghost predicate Twins(k1: KV, k2: KV, log: seq<Creation>) {
      && Settings() && Idle(state.kv.cfg, k1) && Idle(sync.kv.cfg, k2) && k1.currentBatch == k2.currentBatch
      && Consistent(k1.db.value) && Consistent(k2.db.value) && LedgerOf(k1.db.value) == LedgerOf(k2.db.value)
      && Inv(LedgerOf(k1.db.value), log)
    }

    // Give up the batch on both databases.
    method ResetBoth(b: nat, ghost k1: KV, ghost k2: KV, ghost pruned: bool, ghost prunedSync: bool,
                     ghost log: seq<Creation>)
      requires Apart() && Kept(k1, k2, pruned, prunedSync) && Twins(k1, k2, log) && b == k1.currentBatch
      modifies state, state.kv, sync, sync.kv
      ensures Apart() && Kept(k1, k2, pruned, prunedSync) && Back(k1, k2, pruned, prunedSync)
      ensures OwnStorage(state) && OwnStorage(sync)
      ensures !Lost(true, b, pruned, state.kv.cfg.keep) && !Lost(true, b, prunedSync, sync.kv.cfg.keep) ==>
        InStep(log) && state.led == LedgerOf(k1.db.value) && state.kv.currentBatch == b
    {
      hide Idle, Consistent, AllConsistent, Inv, Returns, Stuck, LedgerOf;
      GiveUp(state, b, k1);
      GiveUp(sync, b, k2);
    }

    // Check the senders, and write their tokens into the transactions.
    method CheckSenders(l2: array<PoolL2Tx>) returns (e: Option<Error>)
      requires state.Valid()
      modifies l2
      ensures e.None? <==> Checked(state.led, old(l2[..])).Ok?
      ensures e.None? ==> l2[..] == Checked(state.led, old(l2[..])).value
      ensures e.None? <==> AllFresh(state.led, old(l2[..]))
      ensures e.None? ==> WithTokens(state.led, old(l2[..]), l2[..])
    {
      CheckedIff(state.led, l2[..]);
      hide AllFresh, WithTokens, Checked;
      e := CheckAll(l2);
    }

    // The loop over the senders.
    method CheckAll(l2: array<PoolL2Tx>) returns (e: Option<Error>)
      requires state.Valid()
      modifies l2
      ensures e.None? <==> Checked(state.led, old(l2[..])).Ok?
      ensures e.None? ==> l2[..] == Checked(state.led, old(l2[..])).value
    {
      hide Checked, CheckedOne, StateDB.Valid;
      ghost var was, done := l2[..], [];
      CheckedNone(state.led, was);
      for i := 0 to l2.Length
        invariant state.Valid() && Checked(state.led, was[..i]) == Ok(done)
        invariant |done| == i && l2[..] == done + was[i..]
      {
        CheckedNext(state.led, was, i);
        ghost var now := l2[..];
        var checked := CheckSender(l2[i]);
        if checked.Err? {
          CheckFails(state.led, was, i + 1);
          return Some(checked.error);
        }
        ReplaceNext(done, was, i, checked.value);
        l2[i] := checked.value;
        assert l2[..] == now[i := checked.value];
        done := done + [checked.value];
      }
      assert was[..l2.Length] == was;
      e := None;
    }

    method CheckSender(tx: PoolL2Tx) returns (r: Result<PoolL2Tx>)
      requires state.Valid()
      ensures r.Ok? <==> CheckedOne(state.led, tx).Ok?
      ensures r.Ok? ==> r == CheckedOne(state.led, tx)
    {
      var accSender :- state.GetAccount(tx.fromIdx);
      if tx.nonce != accSender.nonce {
        return Err(Malformed);
      }
      r := Ok(tx.(tokenID := accSender.tokenID));
    }

    // buildBatchL2: check, run on both databases, save. The handler of a panic returns no error.
    method BuildBatchL2(l1: array<L1Tx>, l2: array<PoolL2Tx>, s: Selection, ghost log: seq<Creation>)
      returns (ok: bool, ghost run: Result<BatchRun>)
      requires InStep(log)
      modifies state, state.kv, state.kv.db, sync, sync.kv, sync.kv.db, l1, l2
      ensures Apart() && OwnStorage(state) && OwnStorage(sync)
      ensures Kept(old(state.kv.State()), old(sync.kv.State()), run.Ok? && s.pruned, run.Ok? && s.prunedSync)
      ensures run == old(Selected(cfg, state.led, l1[..], l2[..])) && (ok <==> run.Ok? && !s.saving.Unsaved?)
      ensures old(!AllFresh(state.led, l2[..])) ==> !ok && Untouched()
      ensures ok && s.saving.Saved? ==>
        && InStep(old(Runs.Extended(log, Batch([], l1[..], [], l2[..]))))
        && state.led == run.value.outcome.led && state.kv.currentBatch == old(state.kv.currentBatch) + 1
      ensures ok && s.saving.Panicked? ==>
        && Ahead(run, old(state.kv.currentBatch))
        && (if Lost(true, old(state.kv.currentBatch), s.pruned, state.kv.cfg.keep) then state.kv.db == null
            else IsBack(state, old(state.kv.State())))
    {
      hide WholeRun, Idle, Consistent, AllConsistent, Inv, Returns, Stuck, Selected, Runs.Extended, LedgerOf, IsBack,
           AllFresh;
      ghost var k1, k2 := state.kv.State(), sync.kv.State();
      assert Twins(k1, k2, log);
      var sdbBatch := state.CurrentBatch();
      var checked;
      checked, ok, run := RunChecked(l1, l2, s.pruned, s.prunedSync, log);
      if !checked {
        return;
      }
      if !ok {
        GiveUp(state, sdbBatch, k1);
      } else if s.saving.Unsaved? {
        ok := false;
        if s.saving.reset {
          ResetBoth(sdbBatch, k1, k2, s.pruned, s.prunedSync, log);
        }
      } else if s.saving.Panicked? {
        GiveUp(state, sdbBatch, k1);
      }
    }

    // The part of buildBatchL2 before anything is saved.
    method RunChecked(l1: array<L1Tx>, l2: array<PoolL2Tx>, pruned: bool, prunedSync: bool, ghost log: seq<Creation>)
      returns (checked: bool, ok: bool, ghost run: Result<BatchRun>)
      requires InStep(log)
      modifies state, state.kv, state.kv.db, sync, sync.kv, sync.kv.db, l1, l2
      ensures Apart() && OwnStorage(state) && OwnStorage(sync)
      ensures Kept(old(state.kv.State()), old(sync.kv.State()), run.Ok? && pruned, run.Ok? && prunedSync)
      ensures run == old(Selected(cfg, state.led, l1[..], l2[..])) && (ok <==> run.Ok?) && (ok ==> checked)
      ensures checked <==> old(AllFresh(state.led, l2[..]))
      ensures !checked ==> Untouched()
      ensures ok ==>
        && InStep(old(Runs.Extended(log, Batch([], l1[..], [], l2[..]))))
        && state.led == run.value.outcome.led && state.kv.currentBatch == old(state.kv.currentBatch) + 1
    {
      hide WholeRun, Idle, Consistent, AllConsistent, Inv, Returns, Stuck, Checked, Runs.Extended, LedgerOf, AllFresh;
      run := Selected(cfg, state.led, l1[..], l2[..]);
      IdleReturns(state.kv.cfg, state.kv.State());
      IdleReturns(sync.kv.cfg, sync.kv.State());
      SameCreations(log, l1[..], l2[..]);
      var e := CheckSenders(l2);
      if e.Some? {
        return false, false, run;
      }
      CheckedSendersExist(state.led, old(l2[..]));
      checked := true;
      ok, run := RunBoth(l1, l2, pruned, prunedSync, log);
    }

    // The second database alone has gone on.
    ghost predicate Ahead(run: Result<BatchRun>, b: nat)
      reads Frame()
    {
      run.Ok? && Healthy(sync) && sync.led == run.value.outcome.led && sync.kv.currentBatch == b + 1
    }

    // The batch of the transactions that the queries gave.
    method BuildSelected(s: Selection, ghost log: seq<Creation>) returns (ok: bool, ghost run: Result<BatchRun>)
      requires InStep(log)
      modifies state, state.kv, state.kv.db, sync, sync.kv, sync.kv.db
      ensures Apart() && OwnStorage(state) && OwnStorage(sync)
      ensures Kept(old(state.kv.State()), old(sync.kv.State()), run.Ok? && s.pruned, run.Ok? && s.prunedSync)
      ensures run == old(Selected(cfg, state.led, s.l1, s.l2)) && (ok <==> run.Ok? && !s.saving.Unsaved?)
      ensures ok && s.saving.Saved? ==>
        && InStep(Runs.Extended(log, Batch([], s.l1, [], s.l2)))
        && state.led == run.value.outcome.led && state.kv.currentBatch == old(state.kv.currentBatch) + 1
      ensures ok && s.saving.Panicked? ==>
        && Ahead(run, old(state.kv.currentBatch))
        && (if Lost(true, old(state.kv.currentBatch), s.pruned, state.kv.cfg.keep) then state.kv.db == null
            else IsBack(state, old(state.kv.State())))
    {
      hide Selected, Healthy, IsBack, Ahead, Kept, Runs.Extended, Inv;
      var l1 := new L1Tx[|s.l1|](i requires 0 <= i < |s.l1| => s.l1[i]);
      var l2 := new PoolL2Tx[|s.l2|](i requires 0 <= i < |s.l2| => s.l2[i]);
      assert l1[..] == s.l1 && l2[..] == s.l2;
      ok, run := BuildBatchL2(l1, l2, s, log);
    }

    lemma InStepIs(log: seq<Creation>)
      requires InStep(log)
      ensures state.kv.db != null && sync.kv.db != null && state.kv.currentBatch == sync.kv.currentBatch
    {
    }

    lemma AheadIs(run: Result<BatchRun>, b: nat)
      requires Ahead(run, b)
      ensures sync.kv.db != null && sync.kv.currentBatch == b + 1
    {
    }

    lemma BackIs(k1: KV, k2: KV, pruned: bool, prunedSync: bool)
      requires Back(k1, k2, pruned, prunedSync)
      ensures state.kv.db != null ==> state.kv.currentBatch == k1.currentBatch
      ensures sync.kv.db != null ==> sync.kv.currentBatch == k2.currentBatch
      ensures !Lost(true, k1.currentBatch, pruned, state.kv.cfg.keep) <==> state.kv.db != null
      ensures !Lost(true, k2.currentBatch, prunedSync, sync.kv.cfg.keep) <==> sync.kv.db != null
    {
    }

    // The step of process, whatever transactions it is given.
    method Step(s: Selection, ghost log: seq<Creation>) returns (inStep: bool, ghost run: Result<BatchRun>)
      requires InStep(log)
      modifies state, state.kv, state.kv.db, sync, sync.kv, sync.kv.db
      ensures OwnStorage(state) && OwnStorage(sync)
      ensures run == old(
        if state.kv.currentBatch == 0 then WholeRun(BatchBuilder, cfg, state.led, Batch([], [], [], []))
        else Selected(cfg, state.led, s.l1, s.l2))
      ensures var b := old(state.kv.currentBatch);
        var ran := run.Ok? && (s.found || b == 0);
        if ran && s.saving.Saved? then
          && inStep && state.kv.currentBatch == b + 1 && state.led == run.value.outcome.led
          && InStep(Runs.Extended(log, if b == 0 then Batch([], [], [], []) else Batch([], s.l1, [], s.l2)))
        else if ran && s.saving.Panicked? && b > 0 then
          && !inStep && Ahead(run, b)
          && (if Lost(ran, b, s.pruned, state.kv.cfg.keep) then state.kv.db == null
              else IsBack(state, old(state.kv.State())))
        else
          && Back(old(state.kv.State()), old(sync.kv.State()), ran && s.pruned, ran && s.prunedSync)
          && (inStep <==> !Lost(ran, b, s.pruned, state.kv.cfg.keep) && !Lost(ran, b, s.prunedSync, sync.kv.cfg.keep))
          && (inStep ==> InStep(log) && state.led == old(state.led) && state.kv.currentBatch == b)
    {
      hide WholeRun, Idle, Consistent, AllConsistent, Inv, Returns, Stuck, Checked, Runs.Extended, LedgerOf, AllFresh;
      ghost var k1, k2 := state.kv.State(), sync.kv.State();
      IdleReturns(state.kv.cfg, k1);
      IdleReturns(sync.kv.cfg, k2);
      assert Twins(k1, k2, log) && Kept(k1, k2, false, false);
      assert k1.currentBatch == state.kv.currentBatch && LedgerOf(k1.db.value) == state.led;
      InStepIs(log);
      hide Twins, Kept, InStep, IsBack, Healthy;
      var currentBatch := state.CurrentBatch();
      var ok;
      if currentBatch == 0 {
        var l1, l2 := new L1Tx[0], new PoolL2Tx[0];
        assert l1[..] == [] && l2[..] == [];
        ok, run := RunBoth(l1, l2, s.pruned, s.prunedSync, log);
        ok := ok && s.saving.Saved?;
      } else {
        run := Selected(cfg, state.led, s.l1, s.l2);
        if !s.found {
          return true, run;
        }
        ok, run := BuildSelected(s, log);
      }
      if !ok {
        ResetBoth(currentBatch, k1, k2, run.Ok? && s.pruned, run.Ok? && s.prunedSync, log);
      }
      if ok && s.saving.Saved? {
        InStepIs(Runs.Extended(log, if currentBatch == 0 then Batch([], [], [], []) else Batch([], s.l1, [], s.l2)));
      } else if ok {
        AheadIs(run, currentBatch);
      } else {
        BackIs(k1, k2, run.Ok? && s.pruned, run.Ok? && s.prunedSync);
      }
      inStep := state.kv.db != null && sync.kv.db != null && state.kv.currentBatch == sync.kv.currentBatch;
    }

    // process: the first batch of all is empty. Afterwards a batch is built from what the queries give,
    // and given up on both databases if anything fails. The two are still in step unless saving
    // panicked, or a batch had to be given up on a store that had been pruned to a single checkpoint.
    // A transaction without an account or with another nonce than its account ends a step with nothing
    // changed.
    method Process(s: Selection, ghost log: seq<Creation>) returns (inStep: bool, ghost run: Result<BatchRun>)
      requires InStep(log)
      modifies state, state.kv, state.kv.db, sync, sync.kv, sync.kv.db
      ensures OwnStorage(state) && OwnStorage(sync)
      ensures run == old(
        if state.kv.currentBatch == 0 then WholeRun(BatchBuilder, cfg, state.led, Batch([], [], [], []))
        else Selected(cfg, state.led, s.l1, s.l2))
      ensures var b := old(state.kv.currentBatch);
        var ran := run.Ok? && (s.found || b == 0);
        if ran && s.saving.Saved? then
          && inStep && state.kv.currentBatch == b + 1 && state.led == run.value.outcome.led
          && InStep(Runs.Extended(log, if b == 0 then Batch([], [], [], []) else Batch([], s.l1, [], s.l2)))
        else if ran && s.saving.Panicked? && b > 0 then
          && !inStep && Ahead(run, b)
          && (if Lost(ran, b, s.pruned, state.kv.cfg.keep) then state.kv.db == null
              else IsBack(state, old(state.kv.State())))
        else
          && Back(old(state.kv.State()), old(sync.kv.State()), ran && s.pruned, ran && s.prunedSync)
          && (inStep <==> !Lost(ran, b, s.pruned, state.kv.cfg.keep) && !Lost(ran, b, s.prunedSync, sync.kv.cfg.keep))
          && (inStep ==> InStep(log) && state.led == old(state.led) && state.kv.currentBatch == b)
      ensures old(state.kv.currentBatch) > 0 && old(!AllFresh(state.led, s.l2)) ==>
        inStep && InStep(log) && state.led == old(state.led) && state.kv.currentBatch == old(state.kv.currentBatch)
    {
      hide InStep, Selected, WholeRun, Runs.Extended, Back, Ahead, IsBack, AllFresh;
      SettingsOf(log);
      StaleIsRefused(cfg, state.led, s.l1, s.l2);
      inStep, run := Step(s, log);
    }

    lemma SettingsOf(log: seq<Creation>)
      requires InStep(log)
      ensures cfg.maxTx > 0
    {
    }

    // Run: in every run of steps, whatever fails, the two databases stay in step: the same batch number
    // and the same ledger, which is one that accepted batches lead to. It ends early only with a step
    // that panicked, or that gave up on a store pruned to a single checkpoint.
    method Run(steps: seq<Selection>, ghost start: seq<Creation>)
      returns (inStep: bool, n: nat, ghost log: seq<Creation>)
      requires InStep(start)
      modifies state, state.kv, state.kv.db, sync, sync.kv, sync.kv.db
      ensures if inStep then n == |steps| && InStep(log) && state.kv.currentBatch >= old(state.kv.currentBatch)
              else MayStop(steps, n)
    {
      hide InStep, Selected, WholeRun, Runs.Extended, Back, Ahead, IsBack;
      inStep, n, log := true, 0, start;
      while n < |steps| && inStep
        invariant n <= |steps| && OwnStorage(state) && OwnStorage(sync)
        invariant if inStep then InStep(log) && state.kv.currentBatch >= old(state.kv.currentBatch)
                  else MayStop(steps, n)
      {
        ghost var b := state.kv.currentBatch;
        ghost var run;
        inStep, run := Process(steps[n], log);
        if inStep && state.kv.currentBatch == b + 1 {
          log := Runs.Extended(log, if b == 0 then Batch([], [], [], []) else Batch([], steps[n].l1, [], steps[n].l2));
        }
        n := n + 1;
      }
    }

    // The last of n steps is one after which the two need not be in step.
    ghost predicate MayStop(steps: seq<Selection>, n: nat) {
      && 0 < n <= |steps| && !steps[n - 1].saving.Saved?
      && (steps[n - 1].saving.Panicked? || (steps[n - 1].pruned && state.kv.cfg.keep == 1)
          || (steps[n - 1].prunedSync && sync.kv.cfg.keep == 1))
    }
  }

  // Two new databases are in step.
  method OpenSelector(cfg: Config, kvCfg: KVConfig, syncCfg: KVConfig) returns (s: Selector)
    requires Roomy(cfg)
    ensures s.InStep([]) && s.state.kv.currentBatch == 0 && s.state.led == EMPTY_LEDGER
  {
    var state := OpenDatabase(BatchBuilder, kvCfg);
    var sync := OpenDatabase(Synchronizer, syncCfg);
    s := new Selector(state, sync, cfg);
    Genesis.GenesisIsAccepted(BatchBuilder, cfg);
  }

  // NewStateDB on an empty directory
  method OpenDatabase(mode: Mode, kvCfg: KVConfig) returns (s: StateDB)
    ensures Healthy(s) && s.mode == mode && s.kv.cfg == kvCfg && s.kv.currentBatch == 0 && s.led == EMPTY_LEDGER
    ensures fresh(s) && fresh(s.kv) && s.kv.db != null && fresh(s.kv.db) && (s.kv.last != null ==> fresh(s.kv.last))
  {
    EmptyIsConsistent();
    var kv := KVDB.NewKVDB(kvCfg, EMPTY_SNAPSHOT, map[]);
    s := new StateDB(mode, kv.value);
  }

  // What the selector runs for the transactions it was given.
  ghost function Selected(cfg: Config, led: Ledger, l1: seq<L1Tx>, l2: seq<PoolL2Tx>): Result<BatchRun>
    requires cfg.maxTx > 0
  {
    var txs :- Checked(led, l2);
    WholeRun(BatchBuilder, cfg, led, Batch([], l1, [], txs))
  }

  // Only the L1 transactions create accounts.
  lemma SameCreations(log: seq<Creation>, l1: seq<L1Tx>, l2: seq<PoolL2Tx>)
    ensures forall txs :: Runs.Extended(log, Batch([], l1, [], txs)) == Runs.Extended(log, Batch([], l1, [], l2))
  {
  }

  lemma IdleReturns(cfg: KVConfig, k: KV)
    requires Idle(cfg, k)
    ensures Returns(cfg, k, k)
  {
    StalledReturns(cfg, k, k);
  }
}
