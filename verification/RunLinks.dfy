// The loops of ProcessTxs with all their records do to the ledger exactly what the plain batch does,
// and report its exits and its new accounts.
module RunLinks {
  import opened Types
  import opened Accounts
  import opened Txs
  import opened Ledgers
  import opened LedgerInvariants
  import opened Batches
  import opened Conservation
  import opened Runs
  import opened Stores
  import opened CircuitInputs
  import opened Exits
  import opened Traces
  import opened Settlement

  // ---- the state and the transactions ----

  lemma {:induction false} FoldL1Is(mode: Mode, base: nat, coordinator: bool, p: ProgressL1, n: nat)
    requires n <= |p.txs|
    ensures var f := Fold(RoundsL1(mode, base, coordinator), p, n);
      var r := RunL1s(mode, p.st, p.txs[..n]);
      && (f.Ok? <==> r.Ok?)
      && (f.Ok? ==> f.value.st == r.value.0 && f.value.txs == r.value.1 + p.txs[n..])
  {
    hide RunOneL1, AfterTx, LoggedL1, WithEntry, CreatedIn;
    if n > 0 {
      FoldL1Is(mode, base, coordinator, p, n - 1);
      assert p.txs[..n][..n - 1] == p.txs[..n - 1];
      var f := Fold(RoundsL1(mode, base, coordinator), p, n - 1);
      if f.Ok? {
        assert Fold(RoundsL1(mode, base, coordinator), p, n)
          == AfterRoundL1(mode, base + (n - 1), coordinator, f.value, n - 1);
      }
    }
  }

  lemma {:induction false} FoldL2Is(mode: Mode, plan: PlanL2, base: nat, p: ProgressL2, n: nat)
    requires n <= |p.txs|
    ensures var f := Fold(RoundsL2(mode, plan, base), p, n);
      var r := RunL2s(mode, plan.fees, plan.coordOf, p.st, p.txs[..n]);
      && (f.Ok? <==> r.Ok?)
      && (f.Ok? ==> f.value.st == r.value.0 && f.value.txs == r.value.1 + p.txs[n..])
  {
    hide RunOneL2, AfterL2, WithEntry, Forged;
    if n > 0 {
      FoldL2Is(mode, plan, base, p, n - 1);
      assert p.txs[..n][..n - 1] == p.txs[..n - 1];
      var f := Fold(RoundsL2(mode, plan, base), p, n - 1);
      if f.Ok? {
        assert Fold(RoundsL2(mode, plan, base), p, n) == AfterRoundL2(mode, plan, base + (n - 1), f.value, n - 1);
      }
    }
  }

  // Both L1 loops.
  lemma L1RunIs(mode: Mode, p: ProgressL1, coord: seq<L1Tx>)
    ensures var user := Fold(RoundsL1(mode, 0, false), p, |p.txs|);
      var users := RunL1s(mode, p.st, p.txs);
      && (user.Ok? <==> users.Ok?)
      && (user.Ok? ==>
            && user.value.st == users.value.0 && user.value.txs == users.value.1
            && var coords := RunL1s(mode, users.value.0, coord);
            && (L1Run(mode, p, coord).Ok? <==> coords.Ok?)
            && (coords.Ok? ==>
                  && L1Run(mode, p, coord).value.0 == user.value
                  && L1Run(mode, p, coord).value.1.st == coords.value.0
                  && L1Run(mode, p, coord).value.1.txs == coords.value.1))
      && (user.Err? ==> L1Run(mode, p, coord).Err?)
  {
    hide RoundsL1;
    FoldL1Is(mode, 0, false, p, |p.txs|);
    assert p.txs[..|p.txs|] == p.txs;
    var user := Fold(RoundsL1(mode, 0, false), p, |p.txs|);
    if user.Ok? {
      var q := user.value.(txs := coord);
      FoldL1Is(mode, |p.txs|, true, q, |coord|);
      assert q.txs[..|coord|] == coord;
    }
  }

  // The opening of the batch.
  lemma OpenRunIs(mode: Mode, cfg: Config, led: Ledger, b: Batch)
    requires mode.BatchBuilder? ==> cfg.maxTx > 0
    ensures OpenRun(mode, cfg, led, b).Ok? <==> OpenBatch(mode, led, b).Ok?
    ensures OpenRun(mode, cfg, led, b).Ok? ==>
      var o := OpenRun(mode, cfg, led, b).value;
      var o' := OpenBatch(mode, led, b).value;
      && OpenFees(o.coord.st, o.coordIdxs, o.plan.coordOf) == o'.st
      && o.coordIdxs == o'.coordIdxs && o.plan.coordOf == o'.coordOf
      && o.user == o'.l1User && o.coord.txs == o'.l1Coord
      && o.plan == PlanL2(cfg.fees, o'.coordOf, NTx(b), FeePlan(cfg, o.coord.st.led, o'.coordIdxs), |o'.coordIdxs|)
  {
    hide RunL1s, Fold, RoundsL1, CoordMap, FilterCoords, FeePlan;
    L1RunIs(mode, UserStart(mode, cfg, led, b), b.l1Coord);
  }

  // The run with its records accepts the same batches, with the same outcome.
  lemma WholeRunIs(mode: Mode, cfg: Config, led: Ledger, b: Batch)
    requires mode.BatchBuilder? ==> cfg.maxTx > 0
    ensures WholeRun(mode, cfg, led, b).Ok? <==> RunBatch(mode, cfg, led, b).Ok?
    ensures WholeRun(mode, cfg, led, b).Ok? ==>
      WholeRun(mode, cfg, led, b).value.outcome == RunBatch(mode, cfg, led, b).value
  {
    hide OpenRun, OpenBatch, Fold, RoundsL2, FinalView, PayFees, FeePlan;
    OpenRunIs(mode, cfg, led, b);
    if OpenRun(mode, cfg, led, b).Ok? {
      var o := OpenRun(mode, cfg, led, b).value;
      var p := L2Start(o.coord, o.coordIdxs, o.plan, b.l2);
      FoldL2Is(mode, o.plan, L2Base(mode, b), p, |b.l2|);
      assert p.txs[..|b.l2|] == b.l2;
    }
  }

  // ---- the exits ----

  // The entry that a round writes is the one that its transaction adds to the list.
  lemma RoundEntryL1(mode: Mode, at: nat, st: BState, txs: seq<L1Tx>, f: ProgressL1, n: nat)
    requires 0 < n <= |txs| && RunL1s(mode, st, txs[..n]).Ok? && RunL1s(mode, st, txs[..n - 1]).Ok?
    requires f.st == RunL1s(mode, st, txs[..n - 1]).value.0 && n <= |f.txs| && f.txs[n - 1] == txs[n - 1]
    ensures EntriesL1(mode, st, txs[..n]) != []
    ensures var e := EntriesL1(mode, st, txs[..n])[n - 1];
      && EntriesL1(mode, st, txs[..n]) == EntriesL1(mode, st, txs[..n - 1]) + [e]
      && AfterRoundL1(mode, at, false, f, n - 1).Ok?
      && AfterRoundL1(mode, at, false, f, n - 1).value.entries == WithEntry(f.entries, at, e)
  {
    hide RunOneL1, AfterTx, LoggedL1, CreatedIn, EntryFor, ExitsL1, WithEntry;
    assert txs[..n][..n - 1] == txs[..n - 1];
    SameExit(mode, f.st, txs[n - 1]);
  }

  lemma NoEntriesL1(mode: Mode, st: BState)
    ensures RunL1s(mode, st, []) == Ok((st, [])) && EntriesL1(mode, st, []) == []
  {
  }

  lemma NothingBetween(entries: seq<ProcessedExit>, base: nat)
    requires base <= |entries|
    ensures entries[..base] + [] + entries[base..] == entries
  {
  }

  lemma NoRoundL1(mode: Mode, base: nat, coordinator: bool, p: ProgressL1)
    ensures Fold(RoundsL1(mode, base, coordinator), p, 0) == Ok(p)
  {
  }

  // The state of the fold before its last round.
  lemma FoldL1Before(mode: Mode, base: nat, coordinator: bool, p: ProgressL1, n: nat) returns (f: ProgressL1)
    requires 0 < n <= |p.txs| && RunL1s(mode, p.st, p.txs[..n - 1]).Ok?
    ensures Fold(RoundsL1(mode, base, coordinator), p, n - 1) == Ok(f)
    ensures f.st == RunL1s(mode, p.st, p.txs[..n - 1]).value.0 && n <= |f.txs| && f.txs[n - 1] == p.txs[n - 1]
    ensures Fold(RoundsL1(mode, base, coordinator), p, n) == AfterRoundL1(mode, base + (n - 1), coordinator, f, n - 1)
  {
    hide AfterRoundL1, RunL1s;
    FoldL1Is(mode, base, coordinator, p, n - 1);
    f := Fold(RoundsL1(mode, base, coordinator), p, n - 1).value;
  }

  lemma {:induction false} FoldL1Entries(mode: Mode, base: nat, p: ProgressL1, n: nat)
    requires n <= |p.txs| && base + n <= |p.entries| && RunL1s(mode, p.st, p.txs[..n]).Ok?
    requires forall k :: base <= k < base + n ==> p.entries[k] == NoExit
    ensures var f := Fold(RoundsL1(mode, base, false), p, n);
      f.Ok? && f.value.entries == p.entries[..base] + EntriesL1(mode, p.st, p.txs[..n]) + p.entries[base + n..]
  {
    hide AfterRoundL1, RunL1s, EntriesL1, WithEntry, Fold, RoundsL1;
    FoldL1Is(mode, base, false, p, n);
    if n == 0 {
      NoRoundL1(mode, base, false, p);
      NoEntriesL1(mode, p.st);
      assert p.txs[..0] == [];
      NothingBetween(p.entries, base);
    } else {
      FrontRunsL1(mode, p.st, p.txs, n);
      var f := FoldL1Before(mode, base, false, p, n);
      FoldL1Entries(mode, base, p, n - 1);
      RoundEntryL1(mode, base + (n - 1), p.st, p.txs, f, n);
      EntriesGrow(p.entries, base, EntriesL1(mode, p.st, p.txs[..n - 1]), EntriesL1(mode, p.st, p.txs[..n]), f.entries);
    }
  }

  lemma FrontRunsL1(mode: Mode, st: BState, txs: seq<L1Tx>, n: nat)
    requires 0 < n <= |txs| && RunL1s(mode, st, txs[..n]).Ok?
    ensures RunL1s(mode, st, txs[..n - 1]).Ok?
    ensures var (st1, out1) := RunL1s(mode, st, txs[..n - 1]).value;
      && RunOneL1(mode, st1, txs[n - 1]).Ok?
      && var (st2, tx) := RunOneL1(mode, st1, txs[n - 1]).value;
      RunL1s(mode, st, txs[..n]).value == (st2, out1 + [tx])
  {
    hide RunOneL1;
    assert txs[..n][..n - 1] == txs[..n - 1];
  }

  // Running a transaction does not change whether it exits, nor whose exit it is.
  lemma SameExit(mode: Mode, st: BState, tx: L1Tx)
    requires RunOneL1(mode, st, tx).Ok?
    ensures var tx' := RunOneL1(mode, st, tx).value.1; ExitsL1(tx') == ExitsL1(tx) && tx'.fromIdx == tx.fromIdx
  {
    RunOneL1Same(mode, st, tx);
  }

  // Writing an entry only if there is one, into a blank slot, appends it to those written before.
  lemma EntryGoesIn(blank: seq<ProcessedExit>, base: nat, done: seq<ProcessedExit>, e: ProcessedExit)
    requires base + |done| < |blank| && blank[base + |done|] == NoExit
    ensures WithEntry(blank[..base] + done + blank[base + |done|..], base + |done|, e)
      == blank[..base] + (done + [e]) + blank[base + |done| + 1..]
  {
  }

  lemma EntriesGrow(blank: seq<ProcessedExit>, base: nat, done: seq<ProcessedExit>, all: seq<ProcessedExit>,
                    written: seq<ProcessedExit>)
    requires base + |all| <= |blank| && |all| == |done| + 1 && all == done + [all[|done|]]
    requires blank[base + |done|] == NoExit
    requires written == blank[..base] + done + blank[base + |done|..]
    ensures WithEntry(written, base + |done|, all[|done|]) == blank[..base] + all + blank[base + |all|..]
  {
    EntryGoesIn(blank, base, done, all[|done|]);
  }

  lemma {:induction false} FoldL1NoEntries(mode: Mode, base: nat, p: ProgressL1, n: nat)
    requires Fold(RoundsL1(mode, base, true), p, n).Ok?
    ensures Fold(RoundsL1(mode, base, true), p, n).value.entries == p.entries
  {
    hide RunOneL1, AfterTx, LoggedL1, CreatedIn;
    if n > 0 {
      FoldL1NoEntries(mode, base, p, n - 1);
      var f := Fold(RoundsL1(mode, base, true), p, n - 1).value;
      assert Fold(RoundsL1(mode, base, true), p, n) == AfterRoundL1(mode, base + (n - 1), true, f, n - 1);
    }
  }

  lemma RoundEntryL2(mode: Mode, plan: PlanL2, at: nat, st: BState, txs: seq<PoolL2Tx>, f: ProgressL2, n: nat)
    requires 0 < n <= |txs|
    requires RunL2s(mode, plan.fees, plan.coordOf, st, txs[..n]).Ok?
    requires RunL2s(mode, plan.fees, plan.coordOf, st, txs[..n - 1]).Ok?
    requires f.st == RunL2s(mode, plan.fees, plan.coordOf, st, txs[..n - 1]).value.0
    requires n <= |f.txs| && f.txs[n - 1] == txs[n - 1]
    ensures EntriesL2(mode, plan.fees, plan.coordOf, st, txs[..n]) != []
    ensures var all := EntriesL2(mode, plan.fees, plan.coordOf, st, txs[..n]);
      && all == EntriesL2(mode, plan.fees, plan.coordOf, st, txs[..n - 1]) + [all[n - 1]]
      && AfterRoundL2(mode, plan, at, f, n - 1).Ok?
      && AfterRoundL2(mode, plan, at, f, n - 1).value.entries == WithEntry(f.entries, at, all[n - 1])
  {
    hide RunOneL2, AfterL2, EntryFor, ExitsL2, WithEntry;
    assert txs[..n][..n - 1] == txs[..n - 1];
    SameExitL2(mode, plan.fees, plan.coordOf, f.st, txs[n - 1]);
  }

  lemma {:induction false} FoldL2Entries(mode: Mode, plan: PlanL2, base: nat, p: ProgressL2, n: nat)
    requires n <= |p.txs| && base + n <= |p.entries|
    requires RunL2s(mode, plan.fees, plan.coordOf, p.st, p.txs[..n]).Ok?
    requires forall k :: base <= k < base + n ==> p.entries[k] == NoExit
    ensures var f := Fold(RoundsL2(mode, plan, base), p, n);
      && f.Ok?
      && f.value.entries == p.entries[..base] + EntriesL2(mode, plan.fees, plan.coordOf, p.st, p.txs[..n])
                            + p.entries[base + n..]
  {
    hide AfterRoundL2, RunL2s, EntriesL2, WithEntry;
    FoldL2Is(mode, plan, base, p, n);
    if n == 0 {
      assert p.txs[..0] == [];
      NoEntriesL2(mode, plan, p.st);
      assert p.entries == p.entries[..base] + [] + p.entries[base..];
    } else {
      FrontRunsL2(mode, plan, p.st, p.txs, n);
      FoldL2Is(mode, plan, base, p, n - 1);
      FoldL2Entries(mode, plan, base, p, n - 1);
      var f := Fold(RoundsL2(mode, plan, base), p, n - 1).value;
      RoundEntryL2(mode, plan, base + (n - 1), p.st, p.txs, f, n);
      EntryGoesIn(p.entries, base, EntriesL2(mode, plan.fees, plan.coordOf, p.st, p.txs[..n - 1]),
                  EntriesL2(mode, plan.fees, plan.coordOf, p.st, p.txs[..n])[n - 1]);
    }
  }

  lemma NoEntriesL2(mode: Mode, plan: PlanL2, st: BState)
    ensures RunL2s(mode, plan.fees, plan.coordOf, st, []).Ok?
    ensures EntriesL2(mode, plan.fees, plan.coordOf, st, []) == []
  {
  }

  lemma FrontRunsL2(mode: Mode, plan: PlanL2, st: BState, txs: seq<PoolL2Tx>, n: nat)
    requires 0 < n <= |txs| && RunL2s(mode, plan.fees, plan.coordOf, st, txs[..n]).Ok?
    ensures RunL2s(mode, plan.fees, plan.coordOf, st, txs[..n - 1]).Ok?
  {
    assert txs[..n][..n - 1] == txs[..n - 1];
  }

  // Trailing places without an exit add nothing to the report.
  lemma {:induction false} QuietTail(entries: seq<ProcessedExit>, n: nat)
    ensures Report(entries + NoExits(n)) == Report(entries)
  {
    if n == 0 {
      assert entries + NoExits(0) == entries;
    } else {
      QuietTail(entries, n - 1);
      var all := entries + NoExits(n);
      assert all[..|all| - 1] == entries + NoExits(n - 1);
    }
  }

  lemma UserEntries(mode: Mode, cfg: Config, led: Ledger, b: Batch)
    requires (mode.BatchBuilder? ==> cfg.maxTx > 0) && OpenRun(mode, cfg, led, b).Ok?
    ensures RunL1s(mode, Fresh(led), b.l1User).Ok?
    ensures OpenRun(mode, cfg, led, b).value.coord.entries
      == EntriesL1(mode, Fresh(led), b.l1User) + NoExits(|b.l1Coord| + |b.l2|)
  {
    hide AfterRoundL1, RunL1s, EntriesL1, Coords;
    var p := UserStart(mode, cfg, led, b);
    L1RunIs(mode, p, b.l1Coord);
    assert b.l1User[..|b.l1User|] == b.l1User;
    FoldL1Entries(mode, 0, p, |b.l1User|);
    var user := L1Run(mode, p, b.l1Coord).value.0;
    FoldL1NoEntries(mode, |b.l1User|, user.(txs := b.l1Coord), |b.l1Coord|);
    assert p.entries[..0] + EntriesL1(mode, Fresh(led), b.l1User) == EntriesL1(mode, Fresh(led), b.l1User);
    assert p.entries[|b.l1User|..] == NoExits(|b.l1Coord| + |b.l2|);
  }

  // The list of exits that the synchronizer keeps: one place for each transaction in order, but none
  // for the coordinator's, whose places stay empty at the end.
  lemma SynchronizerEntries(cfg: Config, led: Ledger, b: Batch)
    requires WholeRun(Synchronizer, cfg, led, b).Ok?
    ensures OpenBatch(Synchronizer, led, b).Ok?
    ensures var o := OpenBatch(Synchronizer, led, b).value;
      RunL2s(Synchronizer, cfg.fees, o.coordOf, o.st, b.l2).Ok?
    ensures WholeRun(Synchronizer, cfg, led, b).value.entries
      == BatchEntries(Synchronizer, cfg, led, b) + NoExits(|b.l1Coord|)
  {
    hide AfterRoundL2, OpenRun, OpenBatch, RunL2s, EntriesL1, EntriesL2, FinalView;
    WholeRunIs(Synchronizer, cfg, led, b);
    RunBatchShape(Synchronizer, cfg, led, b);
    OpenRunIs(Synchronizer, cfg, led, b);
    UserEntries(Synchronizer, cfg, led, b);
    var o := OpenRun(Synchronizer, cfg, led, b).value;
    var p := L2Start(o.coord, o.coordIdxs, o.plan, b.l2);
    assert b.l2[..|b.l2|] == b.l2;
    FoldL2Entries(Synchronizer, o.plan, |b.l1User|, p, |b.l2|);
    EntriesInPlace(EntriesL1(Synchronizer, Fresh(led), b.l1User),
                   EntriesL2(Synchronizer, cfg.fees, o.plan.coordOf, p.st, b.l2), |b.l1Coord|);
  }

  lemma EntriesInPlace(user: seq<ProcessedExit>, l2: seq<ProcessedExit>, n: nat)
    ensures var all := user + NoExits(n + |l2|);
      all[..|user|] + l2 + all[|user| + |l2|..] == user + l2 + NoExits(n)
  {
  }

  // What the synchronizer reports about exits: one entry for each account that exits in a user or L2
  // transaction, in the order of first exits. The entries are exactly the leaves of the batch's exit
  // tree, with the sum of what each account took out in the batch, if and only if the exits of the
  // coordinator's transactions are covered.
  lemma ExitReportIsExact(cfg: Config, led: Ledger, b: Batch)
    requires WholeRun(Synchronizer, cfg, led, b).Ok?
    ensures var run := WholeRun(Synchronizer, cfg, led, b).value;
      var exits := run.outcome.beforePayout.exits;
      var infos := InfosOf(run.entries);
      && Indices(infos) == FirstExits(run.entries, |run.entries|)
      && (forall j, k :: 0 <= j < k < |infos| ==> infos[j].accountIdx != infos[k].accountIdx)
      && (forall i :: Listed(infos, i) <==> SomeExitL1(b.l1User, i) || SomeExitL2(b.l2, i))
      && (forall k :: 0 <= k < |infos| ==> infos[k].balance == ReportedOut(run.outcome, infos[k].accountIdx))
      && (forall i :: LeafBalance(exits, i) == TakenOut(run.outcome, i))
      && (ListsLeaves(infos, exits) <==> forall i :: Covered(b, run.outcome, i))
  {
    hide WholeRun, RunBatch, OpenBatch, RunL2s, FirstExits, BatchEntries, Report, InfosOf, TakenOut, ReportedOut,
         Covered, Agrees, SomeExitL1, SomeExitL2;
    SynchronizerEntries(cfg, led, b);
    WholeRunIs(Synchronizer, cfg, led, b);
    var run := WholeRun(Synchronizer, cfg, led, b).value;
    QuietTail(BatchEntries(Synchronizer, cfg, led, b), |b.l1Coord|);
    InfosAre(run.entries);
    forall i: Idx
      ensures Listed(InfosOf(run.entries), i) <==> SomeExitL1(b.l1User, i) || SomeExitL2(b.l2, i)
      ensures LeafBalance(Report(run.entries).1, i) == ReportedOut(run.outcome, i)
      ensures LeafBalance(run.outcome.beforePayout.exits, i) == TakenOut(run.outcome, i)
      ensures Agrees(Report(run.entries).1, run.outcome.beforePayout.exits, i) <==> Covered(b, run.outcome, i)
    {
      ReportIsExitTree(Synchronizer, cfg, led, b, i);
      ReportIsExitTreeIff(Synchronizer, cfg, led, b, i);
    }
    ListsLeavesIff(InfosOf(run.entries), Report(run.entries).1, run.outcome.beforePayout.exits);
  }

  // ---- the created accounts ----

  // The accounts from index `from` to `to`, in order, each with the fixed fields it still has.
  ghost predicate ListsCreated(created: seq<NewAccount>, from: Idx, to: Idx, accounts: map<Idx, Account>) {
    && from + |created| == to + 1
    && forall k :: 0 <= k < |created| ==>
         && created[k].idx == from + k && created[k].idx in accounts
         && Static(created[k].acc, accounts[created[k].idx])
  }

  lemma NothingCreated(last: Idx, accounts: map<Idx, Account>)
    ensures ListsCreated([], last + 1, last, accounts)
  {
  }

  lemma CreatedStillListed(created: seq<NewAccount>, from: Idx, to: Idx, led: Ledger, led': Ledger)
    requires ListsCreated(created, from, to, led.accounts) && Extends(led, led')
    ensures ListsCreated(created, from, to, led'.accounts)
  {
  }

  // A transaction adds the account it creates, and that one has the next index.
  lemma CreatedByL1(st: BState, log: seq<Creation>, tx: L1Tx)
    requires Inv(st.led, log) && RunOneL1(Synchronizer, st, tx).Ok?
    ensures var (st', tx') := RunOneL1(Synchronizer, st, tx).value;
      ListsCreated(CreatedIn(Synchronizer, tx', st'.led), st.led.currentIdx + 1, st'.led.currentIdx, st'.led.accounts)
  {
    L1KeepsInv(Synchronizer, st, log, tx);
    RunOneL1Same(Synchronizer, st, tx);
  }

  lemma JoinCreated(a: seq<NewAccount>, b: seq<NewAccount>, from: Idx, mid: Idx, to: Idx, accounts: map<Idx, Account>)
    requires ListsCreated(a, from, mid, accounts) && ListsCreated(b, mid + 1, to, accounts)
    ensures ListsCreated(a + b, from, to, accounts)
  {
  }

  lemma {:induction false} FoldL1Created(base: nat, coordinator: bool, p: ProgressL1, log: seq<Creation>, from: Idx,
                                         n: nat)
    requires n <= |p.txs| && Inv(p.st.led, log) && RunL1s(Synchronizer, p.st, p.txs[..n]).Ok?
    requires ListsCreated(p.created, from, p.st.led.currentIdx, p.st.led.accounts)
    ensures var f := Fold(RoundsL1(Synchronizer, base, coordinator), p, n);
      f.Ok? && ListsCreated(f.value.created, from, f.value.st.led.currentIdx, f.value.st.led.accounts)
  {
    hide RunOneL1, AfterTx, LoggedL1, WithEntry, CreatedIn, Inv, ListsCreated, Extends, EntryFor, RunL1s;
    FoldL1Is(Synchronizer, base, coordinator, p, n);
    if n > 0 {
      FrontRunsL1(Synchronizer, p.st, p.txs, n);
      FoldL1Is(Synchronizer, base, coordinator, p, n - 1);
      FoldL1Created(base, coordinator, p, log, from, n - 1);
      L1sKeepInv(Synchronizer, p.st, log, p.txs[..n - 1]);
      var f := Fold(RoundsL1(Synchronizer, base, coordinator), p, n - 1).value;
      var log' := log + AllCreations(p.txs[..n - 1]);
      assert Fold(RoundsL1(Synchronizer, base, coordinator), p, n)
        == AfterRoundL1(Synchronizer, base + (n - 1), coordinator, f, n - 1);
      var (st, tx) := RunOneL1(Synchronizer, f.st, p.txs[n - 1]).value;
      CreatedByL1(f.st, log', p.txs[n - 1]);
      L1KeepsInv(Synchronizer, f.st, log', p.txs[n - 1]);
      CreatedStillListed(f.created, from, f.st.led.currentIdx, f.st.led, st.led);
      JoinCreated(f.created, CreatedIn(Synchronizer, tx, st.led), from, f.st.led.currentIdx, st.led.currentIdx,
                  st.led.accounts);
    }
  }

  lemma CreatedAtOpening(cfg: Config, led: Ledger, log: seq<Creation>, b: Batch)
    requires Inv(led, log) && OpenRun(Synchronizer, cfg, led, b).Ok?
    ensures var o := OpenRun(Synchronizer, cfg, led, b).value;
      ListsCreated(o.coord.created, led.currentIdx + 1, o.coord.st.led.currentIdx, o.coord.st.led.accounts)
  {
    hide AfterRoundL1, RunL1s, Coords, Inv, ListsCreated;
    var p := UserStart(Synchronizer, cfg, led, b);
    L1RunIs(Synchronizer, p, b.l1Coord);
    assert b.l1User[..|b.l1User|] == b.l1User && b.l1Coord[..|b.l1Coord|] == b.l1Coord;
    NothingCreated(led.currentIdx, led.accounts);
    FoldL1Created(0, false, p, log, led.currentIdx + 1, |b.l1User|);
    L1sKeepInv(Synchronizer, Fresh(led), log, b.l1User);
    var user := L1Run(Synchronizer, p, b.l1Coord).value.0;
    FoldL1Created(|b.l1User|, true, user.(txs := b.l1Coord), log + AllCreations(b.l1User), led.currentIdx + 1,
                  |b.l1Coord|);
  }

  // The synchronizer is told of every account that the batch created, in order of index and without a
  // gap, from the one after the old last index to the new last index.
  lemma CreatedAccountsAreNew(cfg: Config, led: Ledger, log: seq<Creation>, b: Batch)
    requires Inv(led, log) && WholeRun(Synchronizer, cfg, led, b).Ok?
    ensures var run := WholeRun(Synchronizer, cfg, led, b).value;
      ListsCreated(run.created, led.currentIdx + 1, run.outcome.led.currentIdx, run.outcome.led.accounts)
  {
    hide OpenRun, RunBatch, OpenBatch, L2Run, ListsCreated, Inv, Extends;
    WholeRunIs(Synchronizer, cfg, led, b);
    OpenRunIs(Synchronizer, cfg, led, b);
    CreatedAtOpening(cfg, led, log, b);
    BatchStages(Synchronizer, cfg, led, log, b);
    AfterOpening(Synchronizer, cfg, led, log, b);
    var o := OpenRun(Synchronizer, cfg, led, b).value;
    CreatedStillListed(o.coord.created, led.currentIdx + 1, o.coord.st.led.currentIdx, o.coord.st.led,
                       RunBatch(Synchronizer, cfg, led, b).value.led);
  }

  // ---- what is logged for the public input ----

  lemma {:induction false} FoldL1Log(base: nat, coordinator: bool, p: ProgressL1, log: seq<Creation>, n: nat)
    requires n <= |p.txs| && Inv(p.st.led, log) && RunL1s(BatchBuilder, p.st, p.txs[..n]).Ok?
    requires p.log.newLastIdx == p.st.led.currentIdx
    ensures var f := Fold(RoundsL1(BatchBuilder, base, coordinator), p, n);
      var r := RunL1s(BatchBuilder, p.st, p.txs[..n]).value;
      f.Ok? && f.value.log == Meta(r.0.led.currentIdx, p.log.l1 + r.1, p.log.l2)
  {
    hide RunOneL1, AfterTx, WithEntry, CreatedIn, Inv, EntryFor, RunL1s, Fold, RoundsL1;
    FoldL1Is(BatchBuilder, base, coordinator, p, n);
    if n == 0 {
      NoRoundL1(BatchBuilder, base, coordinator, p);
      NoEntriesL1(BatchBuilder, p.st);
      assert p.txs[..0] == [];
    } else {
      FrontRunsL1(BatchBuilder, p.st, p.txs, n);
      var f := FoldL1Before(BatchBuilder, base, coordinator, p, n);
      FoldL1Log(base, coordinator, p, log, n - 1);
      L1sKeepInv(BatchBuilder, p.st, log, p.txs[..n - 1]);
      QuietIndex(f.st, log + AllCreations(p.txs[..n - 1]), p.txs[n - 1]);
    }
  }

  lemma QuietIndex(st: BState, log: seq<Creation>, tx: L1Tx)
    requires Inv(st.led, log) && RunOneL1(BatchBuilder, st, tx).Ok?
    ensures var (st', tx') := RunOneL1(BatchBuilder, st, tx).value;
      !CreatesAccount(tx'.typ) ==> st'.led.currentIdx == st.led.currentIdx
  {
    L1KeepsInv(BatchBuilder, st, log, tx);
    RunOneL1Same(BatchBuilder, st, tx);
  }

  lemma {:induction false} FoldL2Log(plan: PlanL2, base: nat, p: ProgressL2, n: nat)
    requires n <= |p.txs| && RunL2s(BatchBuilder, plan.fees, plan.coordOf, p.st, p.txs[..n]).Ok?
    ensures var f := Fold(RoundsL2(BatchBuilder, plan, base), p, n);
      var r := RunL2s(BatchBuilder, plan.fees, plan.coordOf, p.st, p.txs[..n]).value;
      f.Ok? && f.value.log == p.log.(l2 := p.log.l2 + ForgedAll(r.1))
  {
    hide RunOneL2, AfterL2, Forged, EntryFor;
    FoldL2Is(BatchBuilder, plan, base, p, n);
    if n == 0 {
      assert ForgedAll([]) == [];
    } else {
      FrontRunsL2(BatchBuilder, plan, p.st, p.txs, n);
      FoldL2Is(BatchBuilder, plan, base, p, n - 1);
      FoldL2Log(plan, base, p, n - 1);
      var f := Fold(RoundsL2(BatchBuilder, plan, base), p, n - 1).value;
      assert Fold(RoundsL2(BatchBuilder, plan, base), p, n)
        == AfterRoundL2(BatchBuilder, plan, base + (n - 1), f, n - 1);
      assert p.txs[..n][..n - 1] == p.txs[..n - 1];
      var r0 := RunL2s(BatchBuilder, plan.fees, plan.coordOf, p.st, p.txs[..n - 1]).value.1;
      var r1 := RunL2s(BatchBuilder, plan.fees, plan.coordOf, p.st, p.txs[..n]).value.1;
      assert ForgedAll(r1) == ForgedAll(r0) + [Forged(r1[n - 1])];
    }
  }

  // The transactions that go into the public input are those of the batch, as they were left, with
  // the L2 receivers resolved; the new last index is that of the final accounts.
  lemma LogIsBatch(cfg: Config, led: Ledger, log: seq<Creation>, b: Batch)
    requires Inv(led, log) && cfg.maxTx > 0 && WholeRun(BatchBuilder, cfg, led, b).Ok?
    ensures var run := WholeRun(BatchBuilder, cfg, led, b).value;
      run.log == Meta(run.outcome.led.currentIdx, run.outcome.l1User + run.outcome.l1Coord, ForgedAll(run.outcome.l2))
  {
    hide OpenRun, RunBatch, OpenBatch, FinalView, Inv, AfterRoundL2, RunL2s;
    WholeRunIs(BatchBuilder, cfg, led, b);
    RunBatchShape(BatchBuilder, cfg, led, b);
    OpenRunIs(BatchBuilder, cfg, led, b);
    AfterOpening(BatchBuilder, cfg, led, log, b);
    OpeningLog(cfg, led, log, b);
    var o := OpenRun(BatchBuilder, cfg, led, b).value;
    var p := L2Start(o.coord, o.coordIdxs, o.plan, b.l2);
    assert b.l2[..|b.l2|] == b.l2;
    FoldL2Log(o.plan, L2Base(BatchBuilder, b), p, |b.l2|);
    var forged := ForgedAll(RunBatch(BatchBuilder, cfg, led, b).value.l2);
    assert [] + forged == forged;
  }

  lemma OpeningLog(cfg: Config, led: Ledger, log: seq<Creation>, b: Batch)
    requires Inv(led, log) && cfg.maxTx > 0 && OpenRun(BatchBuilder, cfg, led, b).Ok?
    ensures var o := OpenRun(BatchBuilder, cfg, led, b).value;
      o.coord.log == Meta(o.coord.st.led.currentIdx, o.user + o.coord.txs, [])
  {
    hide AfterRoundL1, RunL1s, Coords, Inv, Blank;
    var p := UserStart(BatchBuilder, cfg, led, b);
    L1RunIs(BatchBuilder, p, b.l1Coord);
    assert b.l1User[..|b.l1User|] == b.l1User && b.l1Coord[..|b.l1Coord|] == b.l1Coord;
    FoldL1Log(0, false, p, log, |b.l1User|);
    L1sKeepInv(BatchBuilder, Fresh(led), log, b.l1User);
    var user := L1Run(BatchBuilder, p, b.l1Coord).value.0;
    FoldL1Log(|b.l1User|, true, user.(txs := b.l1Coord), log + AllCreations(b.l1User), |b.l1Coord|);
    assert [] + user.txs == user.txs;
  }
}
