// The exit report of a batch against its exit tree.
module Exits {
  import opened Types
  import opened Accounts
  import opened Txs
  import opened Ledgers
  import opened LedgerInvariants
  import opened Batches
  import opened Conservation
  import opened Runs

  // What a transaction leaves in the list of processed exits.
  datatype ProcessedExit = NoExit | Exited(newExit: bool, idx: Idx, acc: Account)

  predicate ExitsL1(tx: L1Tx) {
    tx.typ == TypeForceExit && tx.amount != 0
  }

  predicate ExitsL2(tx: PoolL2Tx) {
    tx.typ == TypeExit && tx.amount != 0
  }

  function EntryFor(before: map<Idx, Account>, after: map<Idx, Account>, exits: bool, i: Idx): ProcessedExit {
    if exits && i in after then Exited(i !in before, i, after[i]) else NoExit
  }

  function EntriesL1(mode: Mode, st: BState, txs: seq<L1Tx>): (e: seq<ProcessedExit>)
    requires RunL1s(mode, st, txs).Ok?
    ensures |e| == |txs|
  {
    if txs == [] then []
    else
      var last := |txs| - 1;
      var st1 := RunL1s(mode, st, txs[..last]).value.0;
      var st2 := RunL1s(mode, st, txs).value.0;
      EntriesL1(mode, st, txs[..last]) + [EntryFor(st1.exits, st2.exits, ExitsL1(txs[last]), txs[last].fromIdx)]
  }

  function EntriesL2(mode: Mode, fees: FeeTable, coordOf: map<TokenID, Idx>, st: BState, txs: seq<PoolL2Tx>)
    : (e: seq<ProcessedExit>)
    requires RunL2s(mode, fees, coordOf, st, txs).Ok?
    ensures |e| == |txs|
  {
    if txs == [] then []
    else
      var last := |txs| - 1;
      var st1 := RunL2s(mode, fees, coordOf, st, txs[..last]).value.0;
      var st2 := RunL2s(mode, fees, coordOf, st, txs).value.0;
      EntriesL2(mode, fees, coordOf, st, txs[..last])
      + [EntryFor(st1.exits, st2.exits, ExitsL2(txs[last]), txs[last].fromIdx)]
  }

  // The loop over the processed exits: indices in order of first appearance, and the last entry of each.
  function Report(entries: seq<ProcessedExit>): (seq<Idx>, map<Idx, Account>) {
    if entries == [] then ([], map[])
    else
      var last := |entries| - 1;
      var (order, infos) := Report(entries[..last]);
      match entries[last]
      case NoExit => (order, infos)
      case Exited(_, i, a) => (if i in infos then order else order + [i], infos[i := a])
  }

  // The indices of the entries, each at its first appearance.
  ghost predicate FirstExit(entries: seq<ProcessedExit>, k: nat)
    requires k < |entries|
  {
    entries[k].Exited? && forall j :: 0 <= j < k && entries[j].Exited? ==> entries[j].idx != entries[k].idx
  }

  ghost function FirstExits(entries: seq<ProcessedExit>, n: nat): seq<Idx>
    requires n <= |entries|
  {
    if n == 0 then []
    else FirstExits(entries, n - 1) + if FirstExit(entries, n - 1) then [entries[n - 1].idx] else []
  }

  lemma {:induction false} FirstExitsOfPrefix(entries: seq<ProcessedExit>, n: nat, m: nat)
    requires n <= m <= |entries|
    ensures FirstExits(entries[..m], n) == FirstExits(entries, n)
  {
    if n > 0 {
      FirstExitsOfPrefix(entries, n - 1, m);
      assert FirstExit(entries[..m], n - 1) <==> FirstExit(entries, n - 1);
    }
  }

  // The report lists every index once, in the order of first exits.
  lemma {:induction false} ReportOrder(entries: seq<ProcessedExit>)
    ensures var (order, infos) := Report(entries);
      && order == FirstExits(entries, |entries|)
      && (forall j, k :: 0 <= j < k < |order| ==> order[j] != order[k])
      && (forall i :: i in order <==> i in infos)
      && (forall i :: i in infos <==> exists k :: 0 <= k < |entries| && entries[k].Exited? && entries[k].idx == i)
  {
    if entries != [] {
      var last := |entries| - 1;
      var front := entries[..last];
      ReportOrder(front);
      FirstExitsOfPrefix(entries, last, last);
      var (order0, infos0) := Report(front);
      var (order, infos) := Report(entries);
      assert forall k :: 0 <= k < last ==> entries[k] == front[k];
      assert entries[last].Exited? ==> (FirstExit(entries, last) <==> entries[last].idx !in infos0);
      forall i
        ensures i in infos <==> exists k :: 0 <= k < |entries| && entries[k].Exited? && entries[k].idx == i
      {
        if i in infos0 {
          var k :| 0 <= k < last && front[k].Exited? && front[k].idx == i;
          assert entries[k] == front[k];
        }
      }
    }
  }

  // The exit report; Merkle proofs are not modelled.
  datatype ExitInfo = ExitInfo(accountIdx: Idx, balance: nat)

  ghost function InfosOf(entries: seq<ProcessedExit>): (r: seq<ExitInfo>)
    ensures |r| == |Report(entries).0|
  {
    var (order, infos) := Report(entries);
    ReportOrder(entries);
    seq(|order|, k requires 0 <= k < |order| => ExitInfo(order[k], infos[order[k]].balance))
  }

  // One L1 transaction changes the exit tree exactly by its entry.
  lemma L1ExitStep(mode: Mode, st: BState, tx: L1Tx)
    requires RunOneL1(mode, st, tx).Ok?
    ensures var (st', tx') := RunOneL1(mode, st, tx).value;
      && (ExitsL1(tx) ==> tx.fromIdx in st'.exits && st'.exits == st.exits[tx.fromIdx := st'.exits[tx.fromIdx]])
      && (!ExitsL1(tx) ==> st'.exits == st.exits)
      && (ExitsL1(tx) ==>
            st'.exits[tx.fromIdx].balance == LeafBalance(st.exits, tx.fromIdx) + tx'.effectiveAmount)
  {
    RunOneL1Shape(mode, st, tx);
    PreparedSame(st.led, tx);
  }

  lemma L2ExitStep(mode: Mode, fees: FeeTable, coordOf: map<TokenID, Idx>, st: BState, tx: PoolL2Tx)
    requires RunOneL2(mode, fees, coordOf, st, tx).Ok?
    ensures var (st', tx') := RunOneL2(mode, fees, coordOf, st, tx).value;
      && (ExitsL2(tx) ==> tx.fromIdx in st'.exits && st'.exits == st.exits[tx.fromIdx := st'.exits[tx.fromIdx]])
      && (!ExitsL2(tx) ==> st'.exits == st.exits)
      && (ExitsL2(tx) ==>
            st'.exits[tx.fromIdx].balance == LeafBalance(st.exits, tx.fromIdx) + tx.amount)
  {
    RunOneL2Shape(mode, fees, coordOf, st, tx);
  }

  // What an account has taken out over the transactions, by effective amounts.
  function TakenL1(txs: seq<L1Tx>, i: Idx): nat {
    if txs == [] then 0
    else
      var tx := txs[|txs| - 1];
      TakenL1(txs[..|txs| - 1], i) + if ExitsL1(tx) && tx.fromIdx == i then tx.effectiveAmount else 0
  }

  function TakenL2(txs: seq<PoolL2Tx>, i: Idx): nat {
    if txs == [] then 0
    else
      var tx := txs[|txs| - 1];
      TakenL2(txs[..|txs| - 1], i) + if ExitsL2(tx) && tx.fromIdx == i then tx.amount else 0
  }

  lemma {:induction false} L1ExitsAddUp(mode: Mode, st: BState, txs: seq<L1Tx>, i: Idx)
    requires RunL1s(mode, st, txs).Ok?
    ensures var (st', out) := RunL1s(mode, st, txs).value;
      LeafBalance(st'.exits, i) == LeafBalance(st.exits, i) + TakenL1(out, i)
  {
    if txs != [] {
      var last := |txs| - 1;
      var (st1, out1) := RunL1s(mode, st, txs[..last]).value;
      L1ExitsAddUp(mode, st, txs[..last], i);
      L1ExitStep(mode, st1, txs[last]);
      var tx' := RunOneL1(mode, st1, txs[last]).value.1;
      RunOneL1Same(mode, st1, txs[last]);
      var out := RunL1s(mode, st, txs).value.1;
      assert out[..last] == out1 && out[last] == tx';
    }
  }

  lemma RunOneL1Same(mode: Mode, st: BState, tx: L1Tx)
    requires RunOneL1(mode, st, tx).Ok?
    ensures var tx' := RunOneL1(mode, st, tx).value.1;
      tx'.typ == tx.typ && tx'.amount == tx.amount && tx'.fromIdx == tx.fromIdx
  {
    RunOneL1Shape(mode, st, tx);
    PreparedSame(st.led, tx);
  }

  lemma ReportGrows(entries: seq<ProcessedExit>, e: ProcessedExit)
    ensures Report(entries + [e]).1 ==
      if e.Exited? then Report(entries).1[e.idx := e.acc] else Report(entries).1
  {
    assert (entries + [e])[..|entries|] == entries;
  }

  // A leaf that a transaction writes is the one that its entry reports.
  lemma LeafMerges(base: map<Idx, Account>, infos: map<Idx, Account>, before: map<Idx, Account>,
                   after: map<Idx, Account>, exits: bool, i: Idx)
    requires before == base + infos
    requires if exits then i in after && after == before[i := after[i]] else after == before
    ensures var e := EntryFor(before, after, exits, i);
      after == base + if e.Exited? then infos[e.idx := e.acc] else infos
  {
  }

  lemma {:induction false} L1EntriesAreLeaves(mode: Mode, st: BState, txs: seq<L1Tx>)
    requires RunL1s(mode, st, txs).Ok?
    ensures RunL1s(mode, st, txs).value.0.exits == st.exits + Report(EntriesL1(mode, st, txs)).1
  {
    hide RunOneL1, ExitsL1, EntryFor;
    if txs == [] {
      assert st.exits + map[] == st.exits;
    } else {
      var last := |txs| - 1;
      L1EntriesAreLeaves(mode, st, txs[..last]);
      var st1, st2 := RunL1s(mode, st, txs[..last]).value.0, RunL1s(mode, st, txs).value.0;
      L1ExitStep(mode, st1, txs[last]);
      hide Report;
      var e := EntriesL1(mode, st, txs[..last]);
      ReportGrows(e, EntryFor(st1.exits, st2.exits, ExitsL1(txs[last]), txs[last].fromIdx));
      LeafMerges(st.exits, Report(e).1, st1.exits, st2.exits, ExitsL1(txs[last]), txs[last].fromIdx);
    }
  }

  lemma {:induction false} L2ExitsAddUp(mode: Mode, fees: FeeTable, coordOf: map<TokenID, Idx>, st: BState,
                                        txs: seq<PoolL2Tx>, i: Idx)
    requires RunL2s(mode, fees, coordOf, st, txs).Ok?
    ensures var (st', out) := RunL2s(mode, fees, coordOf, st, txs).value;
      LeafBalance(st'.exits, i) == LeafBalance(st.exits, i) + TakenL2(txs, i)
  {
    if txs != [] {
      var last := |txs| - 1;
      L2ExitsAddUp(mode, fees, coordOf, st, txs[..last], i);
      L2ExitStep(mode, fees, coordOf, RunL2s(mode, fees, coordOf, st, txs[..last]).value.0, txs[last]);
    }
  }

  lemma {:induction false} L2EntriesAreLeaves(mode: Mode, fees: FeeTable, coordOf: map<TokenID, Idx>, st: BState,
                                              txs: seq<PoolL2Tx>)
    requires RunL2s(mode, fees, coordOf, st, txs).Ok?
    ensures RunL2s(mode, fees, coordOf, st, txs).value.0.exits
      == st.exits + Report(EntriesL2(mode, fees, coordOf, st, txs)).1
  {
    hide RunOneL2, ExitsL2, EntryFor;
    if txs == [] {
      assert st.exits + map[] == st.exits;
    } else {
      var last := |txs| - 1;
      L2EntriesAreLeaves(mode, fees, coordOf, st, txs[..last]);
      var st1 := RunL2s(mode, fees, coordOf, st, txs[..last]).value.0;
      var st2 := RunL2s(mode, fees, coordOf, st, txs).value.0;
      L2ExitStep(mode, fees, coordOf, st1, txs[last]);
      hide Report;
      var e := EntriesL2(mode, fees, coordOf, st, txs[..last]);
      ReportGrows(e, EntryFor(st1.exits, st2.exits, ExitsL2(txs[last]), txs[last].fromIdx));
      LeafMerges(st.exits, Report(e).1, st1.exits, st2.exits, ExitsL2(txs[last]), txs[last].fromIdx);
    }
  }

  lemma {:induction false} ReportAppends(a: seq<ProcessedExit>, b: seq<ProcessedExit>)
    ensures Report(a + b).1 == Report(a).1 + Report(b).1
  {
    if b == [] {
      assert a + b == a;
      assert Report(a).1 + map[] == Report(a).1;
    } else {
      var last := |b| - 1;
      ReportAppends(a, b[..last]);
      assert (a + b)[..|a| + last] == a + b[..last];
    }
  }

  // ---- who exits ----

  ghost predicate SomeExitL1(txs: seq<L1Tx>, i: Idx) {
    exists k :: 0 <= k < |txs| && ExitsL1(txs[k]) && txs[k].fromIdx == i
  }

  ghost predicate SomeExitL2(txs: seq<PoolL2Tx>, i: Idx) {
    exists k :: 0 <= k < |txs| && ExitsL2(txs[k]) && txs[k].fromIdx == i
  }

  // An account is reported exactly if it exits in one of the transactions.
  lemma {:induction false} ReportedL1(mode: Mode, st: BState, txs: seq<L1Tx>, i: Idx)
    requires RunL1s(mode, st, txs).Ok?
    ensures i in Report(EntriesL1(mode, st, txs)).1 <==> SomeExitL1(txs, i)
  {
    hide RunOneL1, ExitsL1, EntryFor;
    if txs != [] {
      var last := |txs| - 1;
      ReportedL1(mode, st, txs[..last], i);
      var st1, st2 := RunL1s(mode, st, txs[..last]).value.0, RunL1s(mode, st, txs).value.0;
      L1ExitStep(mode, st1, txs[last]);
      SomeExitLast(txs, i);
      hide Report, SomeExitL1;
      ReportGrows(EntriesL1(mode, st, txs[..last]),
                  EntryFor(st1.exits, st2.exits, ExitsL1(txs[last]), txs[last].fromIdx));
      EntryIs(st1.exits, st2.exits, ExitsL1(txs[last]), txs[last].fromIdx);
    }
  }

  lemma EntryIs(before: map<Idx, Account>, after: map<Idx, Account>, exits: bool, i: Idx)
    requires exits ==> i in after
    ensures var e := EntryFor(before, after, exits, i); (e.Exited? <==> exits) && (e.Exited? ==> e.idx == i)
  {
  }

  lemma SomeExitLast(txs: seq<L1Tx>, i: Idx)
    requires txs != []
    ensures var last := |txs| - 1;
      SomeExitL1(txs, i) <==> SomeExitL1(txs[..last], i) || (ExitsL1(txs[last]) && txs[last].fromIdx == i)
  {
    var front := txs[..|txs| - 1];
    if SomeExitL1(front, i) {
      var k :| 0 <= k < |front| && ExitsL1(front[k]) && front[k].fromIdx == i;
      assert txs[k] == front[k];
    }
    if SomeExitL1(txs, i) {
      var k :| 0 <= k < |txs| && ExitsL1(txs[k]) && txs[k].fromIdx == i;
      assert k < |front| ==> front[k] == txs[k];
    }
  }

  lemma {:induction false} ReportedL2(mode: Mode, fees: FeeTable, coordOf: map<TokenID, Idx>, st: BState,
                                      txs: seq<PoolL2Tx>, i: Idx)
    requires RunL2s(mode, fees, coordOf, st, txs).Ok?
    ensures i in Report(EntriesL2(mode, fees, coordOf, st, txs)).1 <==> SomeExitL2(txs, i)
  {
    hide RunOneL2, ExitsL2, EntryFor;
    if txs != [] {
      var last := |txs| - 1;
      ReportedL2(mode, fees, coordOf, st, txs[..last], i);
      var st1 := RunL2s(mode, fees, coordOf, st, txs[..last]).value.0;
      var st2 := RunL2s(mode, fees, coordOf, st, txs).value.0;
      L2ExitStep(mode, fees, coordOf, st1, txs[last]);
      SomeExitLastL2(txs, i);
      hide Report, SomeExitL2;
      ReportGrows(EntriesL2(mode, fees, coordOf, st, txs[..last]),
                  EntryFor(st1.exits, st2.exits, ExitsL2(txs[last]), txs[last].fromIdx));
      EntryIs(st1.exits, st2.exits, ExitsL2(txs[last]), txs[last].fromIdx);
    }
  }

  lemma SomeExitLastL2(txs: seq<PoolL2Tx>, i: Idx)
    requires txs != []
    ensures var last := |txs| - 1;
      SomeExitL2(txs, i) <==> SomeExitL2(txs[..last], i) || (ExitsL2(txs[last]) && txs[last].fromIdx == i)
  {
    var front := txs[..|txs| - 1];
    if SomeExitL2(front, i) {
      var k :| 0 <= k < |front| && ExitsL2(front[k]) && front[k].fromIdx == i;
      assert txs[k] == front[k];
    }
    if SomeExitL2(txs, i) {
      var k :| 0 <= k < |txs| && ExitsL2(txs[k]) && txs[k].fromIdx == i;
      assert k < |front| ==> front[k] == txs[k];
    }
  }

  lemma NothingEffective(mode: Mode, st: BState, tx: L1Tx)
    requires RunOneL1(mode, st, tx).Ok? && !tx.userOrigin
    ensures var tx' := RunOneL1(mode, st, tx).value.1; ExitsL1(tx') ==> tx'.effectiveAmount == 0
  {
    RunOneL1Shape(mode, st, tx);
  }

  // Transactions that are not of user origin take nothing out, whatever they declare.
  lemma {:induction false} CoordinatorTakesNothing(mode: Mode, st: BState, txs: seq<L1Tx>, i: Idx)
    requires RunL1s(mode, st, txs).Ok? && forall k :: 0 <= k < |txs| ==> !txs[k].userOrigin
    ensures TakenL1(RunL1s(mode, st, txs).value.1, i) == 0
  {
    if txs != [] {
      var last := |txs| - 1;
      var (st1, out1) := RunL1s(mode, st, txs[..last]).value;
      CoordinatorTakesNothing(mode, st, txs[..last], i);
      NothingEffective(mode, st1, txs[last]);
      hide RunOneL1, ExitsL1;
      var out := RunL1s(mode, st, txs).value.1;
      assert out[..last] == out1;
    }
  }

  // The list of processed exits of a batch. Coordinator transactions are not in it.
  function BatchEntries(mode: Mode, cfg: Config, led: Ledger, b: Batch): seq<ProcessedExit>
    requires OpenBatch(mode, led, b).Ok?
    requires var o := OpenBatch(mode, led, b).value; RunL2s(mode, cfg.fees, o.coordOf, o.st, b.l2).Ok?
  {
    var o := OpenBatch(mode, led, b).value;
    EntriesL1(mode, Fresh(led), b.l1User) + EntriesL2(mode, cfg.fees, o.coordOf, o.st, b.l2)
  }

  // What account i took out in a batch, as its exit tree has it: in all of the transactions.
  function TakenOut(out: Outcome, i: Idx): nat {
    TakenL1(out.l1User, i) + TakenL1(out.l1Coord, i) + TakenL2(out.l2, i)
  }

  // And as the report has it, which looks at an account's last exit that is not the coordinator's.
  ghost function ReportedOut(out: Outcome, i: Idx): nat {
    if SomeExitL2(out.l2, i) then TakenOut(out, i) else TakenL1(out.l1User, i)
  }

  // Running a transaction does not change whether it exits, whose exit it is, nor its amount.
  lemma SameExitL2(mode: Mode, fees: FeeTable, coordOf: map<TokenID, Idx>, st: BState, tx: PoolL2Tx)
    requires RunOneL2(mode, fees, coordOf, st, tx).Ok?
    ensures var tx' := RunOneL2(mode, fees, coordOf, st, tx).value.1;
      ExitsL2(tx') == ExitsL2(tx) && tx'.fromIdx == tx.fromIdx && tx'.amount == tx.amount
  {
    RunOneL2Shape(mode, fees, coordOf, st, tx);
  }

  lemma {:induction false} SameExitsL2(mode: Mode, fees: FeeTable, coordOf: map<TokenID, Idx>, st: BState,
                                       txs: seq<PoolL2Tx>, i: Idx)
    requires RunL2s(mode, fees, coordOf, st, txs).Ok?
    ensures var out := RunL2s(mode, fees, coordOf, st, txs).value.1;
      (SomeExitL2(out, i) <==> SomeExitL2(txs, i)) && TakenL2(out, i) == TakenL2(txs, i)
  {
    if txs != [] {
      var last := |txs| - 1;
      SameExitsL2(mode, fees, coordOf, st, txs[..last], i);
      var (st1, out1) := RunL2s(mode, fees, coordOf, st, txs[..last]).value;
      SameExitL2(mode, fees, coordOf, st1, txs[last]);
      hide RunOneL2, SomeExitL2, ExitsL2;
      var out := RunL2s(mode, fees, coordOf, st, txs).value.1;
      assert out[..last] == out1;
      SomeExitLastL2(txs, i);
      SomeExitLastL2(out, i);
    }
  }

  // The exit tree of a batch has a leaf for each account that exits in one of its transactions, with
  // the sum of what the account took out. The report has those that exit in a user or L2 transaction,
  // in the order of first exits; it misses what the coordinator's transactions do to the others, and
  // to the leaf of a user exit.
  lemma ReportIsExitTree(mode: Mode, cfg: Config, led: Ledger, b: Batch, i: Idx)
    requires RunBatch(mode, cfg, led, b).Ok? && OpenBatch(mode, led, b).Ok?
    requires var o := OpenBatch(mode, led, b).value; RunL2s(mode, cfg.fees, o.coordOf, o.st, b.l2).Ok?
    ensures var out := RunBatch(mode, cfg, led, b).value;
      var entries := BatchEntries(mode, cfg, led, b);
      var (order, infos) := Report(entries);
      && order == FirstExits(entries, |entries|)
      && (i in out.beforePayout.exits <==> SomeExitL1(b.l1User, i) || SomeExitL1(b.l1Coord, i) || SomeExitL2(b.l2, i))
      && LeafBalance(out.beforePayout.exits, i) == TakenOut(out, i)
      && (i in order <==> i in infos) && (i in infos <==> SomeExitL1(b.l1User, i) || SomeExitL2(b.l2, i))
      && LeafBalance(infos, i) == ReportedOut(out, i)
  {
    hide RunBatch, RunL1s, RunL2s, Report, FirstExits, EntriesL1, EntriesL2, TakenL1, TakenL2, SomeExitL1, SomeExitL2;
    RunBatchShape(mode, cfg, led, b);
    var o := OpenBatch(mode, led, b).value;
    var st0 := Fresh(led);
    var st1 := RunL1s(mode, st0, b.l1User).value.0;
    var user, l2 := EntriesL1(mode, st0, b.l1User), EntriesL2(mode, cfg.fees, o.coordOf, o.st, b.l2);
    L1ExitsAddUp(mode, st0, b.l1User, i);
    L1EntriesAreLeaves(mode, st0, b.l1User);
    ReportedL1(mode, st0, b.l1User, i);
    L1ExitsAddUp(mode, st1, b.l1Coord, i);
    L1EntriesAreLeaves(mode, st1, b.l1Coord);
    ReportedL1(mode, st1, b.l1Coord, i);
    L2ExitsAddUp(mode, cfg.fees, o.coordOf, o.st, b.l2, i);
    L2EntriesAreLeaves(mode, cfg.fees, o.coordOf, o.st, b.l2);
    ReportedL2(mode, cfg.fees, o.coordOf, o.st, b.l2, i);
    SameExitsL2(mode, cfg.fees, o.coordOf, o.st, b.l2, i);
    ReportAppends(user, l2);
    ReportOrder(user + l2);
    assert st0.exits + Report(user).1 == Report(user).1;
  }

  // With no exit among the coordinator's transactions, the whole leaves are those of the report.
  lemma ReportHasLeaves(mode: Mode, cfg: Config, led: Ledger, b: Batch)
    requires RunBatch(mode, cfg, led, b).Ok? && OpenBatch(mode, led, b).Ok?
    requires var o := OpenBatch(mode, led, b).value; RunL2s(mode, cfg.fees, o.coordOf, o.st, b.l2).Ok?
    requires forall i :: !SomeExitL1(b.l1Coord, i)
    ensures Report(BatchEntries(mode, cfg, led, b)).1 == RunBatch(mode, cfg, led, b).value.beforePayout.exits
  {
    hide RunBatch, RunL1s, RunL2s, Report, EntriesL1, EntriesL2, SomeExitL1;
    RunBatchShape(mode, cfg, led, b);
    var o := OpenBatch(mode, led, b).value;
    var st0 := Fresh(led);
    var st1 := RunL1s(mode, st0, b.l1User).value.0;
    L1EntriesAreLeaves(mode, st0, b.l1User);
    L1EntriesAreLeaves(mode, st1, b.l1Coord);
    L2EntriesAreLeaves(mode, cfg.fees, o.coordOf, o.st, b.l2);
    ReportAppends(EntriesL1(mode, st0, b.l1User), EntriesL2(mode, cfg.fees, o.coordOf, o.st, b.l2));
    forall i
      ensures i !in Report(EntriesL1(mode, st1, b.l1Coord)).1
    {
      ReportedL1(mode, st1, b.l1Coord, i);
    }
    assert st0.exits + Report(EntriesL1(mode, st0, b.l1User)).1 == Report(EntriesL1(mode, st0, b.l1User)).1;
    assert st1.exits + Report(EntriesL1(mode, st1, b.l1Coord)).1 == st1.exits;
  }

  // The report and the tree agree about account i.
  ghost predicate Agrees(infos: map<Idx, Account>, exits: map<Idx, Account>, i: Idx) {
    (i in infos <==> i in exits) && LeafBalance(infos, i) == LeafBalance(exits, i)
  }

  // If account i exits in a coordinator transaction, it also exits in an L2 one, or in a user one and
  // the coordinator's took nothing.
  ghost predicate Covered(b: Batch, out: Outcome, i: Idx) {
    SomeExitL1(b.l1Coord, i) ==>
      SomeExitL2(b.l2, i) || (SomeExitL1(b.l1User, i) && TakenL1(out.l1Coord, i) == 0)
  }

  lemma {:induction false} TakenByExits(mode: Mode, st: BState, txs: seq<L1Tx>, i: Idx)
    requires RunL1s(mode, st, txs).Ok?
    ensures !SomeExitL1(txs, i) ==> TakenL1(RunL1s(mode, st, txs).value.1, i) == 0
  {
    if txs != [] {
      var last := |txs| - 1;
      var (st1, out1) := RunL1s(mode, st, txs[..last]).value;
      TakenByExits(mode, st, txs[..last], i);
      RunOneL1Same(mode, st1, txs[last]);
      var out := RunL1s(mode, st, txs).value.1;
      assert out[..last] == out1;
      SomeExitLast(txs, i);
    }
  }

  lemma {:induction false} TakenByExitsL2(txs: seq<PoolL2Tx>, i: Idx)
    ensures !SomeExitL2(txs, i) ==> TakenL2(txs, i) == 0
  {
    if txs != [] {
      TakenByExitsL2(txs[..|txs| - 1], i);
      SomeExitLastL2(txs, i);
    }
  }

  // So the report is the exit tree exactly as far as the coordinator's exits are covered.
  lemma ReportIsExitTreeIff(mode: Mode, cfg: Config, led: Ledger, b: Batch, i: Idx)
    requires RunBatch(mode, cfg, led, b).Ok? && OpenBatch(mode, led, b).Ok?
    requires var o := OpenBatch(mode, led, b).value; RunL2s(mode, cfg.fees, o.coordOf, o.st, b.l2).Ok?
    ensures var out := RunBatch(mode, cfg, led, b).value;
      Agrees(Report(BatchEntries(mode, cfg, led, b)).1, out.beforePayout.exits, i) <==> Covered(b, out, i)
  {
    hide RunBatch, RunL1s, RunL2s, Report, FirstExits, BatchEntries, TakenL1, TakenL2, SomeExitL1, SomeExitL2;
    RunBatchShape(mode, cfg, led, b);
    var o := OpenBatch(mode, led, b).value;
    ReportIsExitTree(mode, cfg, led, b, i);
    TakenByExits(mode, Fresh(led), b.l1User, i);
    TakenByExits(mode, RunL1s(mode, Fresh(led), b.l1User).value.0, b.l1Coord, i);
    SameExitsL2(mode, cfg.fees, o.coordOf, o.st, b.l2, i);
    TakenByExitsL2(b.l2, i);
  }

  // The coordinator's own transactions are not of user origin: for them it is enough that the account
  // exits in some other transaction too.
  lemma CoveredIff(mode: Mode, cfg: Config, led: Ledger, b: Batch, i: Idx)
    requires RunBatch(mode, cfg, led, b).Ok? && forall k :: 0 <= k < |b.l1Coord| ==> !b.l1Coord[k].userOrigin
    ensures Covered(b, RunBatch(mode, cfg, led, b).value, i) <==>
      (SomeExitL1(b.l1Coord, i) ==> SomeExitL1(b.l1User, i) || SomeExitL2(b.l2, i))
  {
    hide RunBatch, RunL1s, RunL2s, TakenL1, SomeExitL1, SomeExitL2;
    RunBatchShape(mode, cfg, led, b);
    CoordinatorTakesNothing(mode, RunL1s(mode, Fresh(led), b.l1User).value.0, b.l1Coord, i);
  }

  // ---- the report as a list ----

  ghost predicate Listed(infos: seq<ExitInfo>, i: Idx) {
    exists k :: 0 <= k < |infos| && infos[k].accountIdx == i
  }

  ghost function Indices(infos: seq<ExitInfo>): seq<Idx> {
    seq(|infos|, k requires 0 <= k < |infos| => infos[k].accountIdx)
  }

  // One entry for each leaf, with its balance.
  ghost predicate ListsLeaves(infos: seq<ExitInfo>, exits: map<Idx, Account>) {
    && (forall i :: i in exits <==> Listed(infos, i))
    && (forall k :: 0 <= k < |infos| ==> infos[k].balance == LeafBalance(exits, infos[k].accountIdx))
  }

  lemma InfosAre(entries: seq<ProcessedExit>)
    ensures Indices(InfosOf(entries)) == FirstExits(entries, |entries|)
    ensures ListsLeaves(InfosOf(entries), Report(entries).1)
    ensures var infos := InfosOf(entries);
      forall j, k :: 0 <= j < k < |infos| ==> infos[j].accountIdx != infos[k].accountIdx
  {
    hide Report, FirstExits;
    ReportOrder(entries);
    var order, infos := Report(entries).0, InfosOf(entries);
    assert forall k :: 0 <= k < |order| ==> infos[k].accountIdx == order[k];
    assert Indices(infos) == order;
    forall i
      ensures i in order <==> Listed(infos, i)
    {
      if i in order {
        var k :| 0 <= k < |order| && order[k] == i;
        assert infos[k].accountIdx == i;
      }
    }
  }

  lemma ListsLeavesIff(infos: seq<ExitInfo>, reported: map<Idx, Account>, exits: map<Idx, Account>)
    requires ListsLeaves(infos, reported)
    ensures ListsLeaves(infos, exits) <==> forall i :: Agrees(reported, exits, i)
  {
    if ListsLeaves(infos, exits) {
      forall i
        ensures Agrees(reported, exits, i)
      {
        assert i in reported <==> Listed(infos, i);
      }
    }
    if forall i :: Agrees(reported, exits, i) {
      forall i
        ensures i in exits <==> Listed(infos, i)
      {
        assert Agrees(reported, exits, i);
      }
      forall k | 0 <= k < |infos|
        ensures infos[k].balance == LeafBalance(exits, infos[k].accountIdx)
      {
        assert Agrees(reported, exits, infos[k].accountIdx);
      }
    }
  }
}
