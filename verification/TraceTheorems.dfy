// The intermediate states in the builder's circuit inputs are those of the batch, transaction by
// transaction, and so are the fee payouts.
module TraceTheorems {
  import opened Types
  import opened Accounts
  import opened Txs
  import opened Ledgers
  import opened LedgerInvariants
  import opened Batches
  import opened FeePayout
  import opened Conservation
  import opened BatchConservation
  import opened Runs
  import opened Stores
  import opened CircuitInputs
  import opened Exits
  import opened Traces
  import opened RunLinks

  // One slot of the intermediate states.
  datatype Slot = Slot(outIdx: Idx, stateRoot: Root, exitRoot: Root, accFee: seq<nat>)

  ghost predicate Sized(t: Trace, n: nat) {
    |t.outIdx| == |t.stateRoot| == |t.exitRoot| == |t.accFee| == n
  }

  ghost function SlotAt(t: Trace, i: nat): Slot
    requires Sized(t, |t.outIdx|) && i < |t.outIdx|
  {
    Slot(t.outIdx[i], t.stateRoot[i], t.exitRoot[i], t.accFee[i])
  }

  // ---- the states that the batch goes through ----

  ghost function L1State(mode: Mode, st: BState, txs: seq<L1Tx>, k: nat): BState
    requires k <= |txs|
  {
    if RunL1s(mode, st, txs[..k]).Ok? then RunL1s(mode, st, txs[..k]).value.0 else st
  }

  ghost function L2State(mode: Mode, plan: PlanL2, st: BState, txs: seq<PoolL2Tx>, k: nat): BState
    requires k <= |txs|
  {
    if RunL2s(mode, plan.fees, plan.coordOf, st, txs[..k]).Ok?
    then RunL2s(mode, plan.fees, plan.coordOf, st, txs[..k]).value.0 else st
  }

  // ---- the L1 loops ----

  // What an L1 transaction leaves in its slot.
  ghost function L1Slot(s: Slot, st: BState, exitRoot: bool): Slot {
    Slot(st.led.currentIdx, AccountsRoot(st.led.accounts), if exitRoot then AccountsRoot(st.exits) else s.exitRoot,
         s.accFee)
  }

  lemma AfterTxAt(t: Trace, k: nat, st: BState, exitRoot: bool, n: nat)
    requires Sized(t, n) && k < n
    ensures Sized(AfterTx(t, k, st, exitRoot), n)
    ensures forall i :: 0 <= i < n ==>
      SlotAt(AfterTx(t, k, st, exitRoot), i) == if i == k then L1Slot(SlotAt(t, i), st, exitRoot) else SlotAt(t, i)
  {
  }

  lemma {:induction false} FoldL1View(base: nat, coordinator: bool, p: ProgressL1, n: nat, size: nat)
    requires n <= |p.txs| && RunL1s(BatchBuilder, p.st, p.txs[..n]).Ok?
    requires Sized(p.view, size) && base + n <= size
    ensures var f := Fold(RoundsL1(BatchBuilder, base, coordinator), p, n);
      && f.Ok? && Sized(f.value.view, size)
      && (forall i :: 0 <= i < size && !(base <= i < base + n) ==> SlotAt(f.value.view, i) == SlotAt(p.view, i))
      && (forall i :: base <= i < base + n ==>
            SlotAt(f.value.view, i) == L1Slot(SlotAt(p.view, i), L1State(BatchBuilder, p.st, p.txs, i - base + 1),
                                              coordinator || !QuietL1(p.txs[i - base])))
  {
    hide RunOneL1, AfterTx, LoggedL1, WithEntry, CreatedIn, EntryFor, L1Slot, QuietL1, SlotAt, RunL1s;
    FoldL1Is(BatchBuilder, base, coordinator, p, n);
    if n > 0 {
      FrontRunsL1(BatchBuilder, p.st, p.txs, n);
      FoldL1Is(BatchBuilder, base, coordinator, p, n - 1);
      FoldL1View(base, coordinator, p, n - 1, size);
      var f := Fold(RoundsL1(BatchBuilder, base, coordinator), p, n - 1).value;
      var r := Fold(RoundsL1(BatchBuilder, base, coordinator), p, n);
      assert r == AfterRoundL1(BatchBuilder, base + (n - 1), coordinator, f, n - 1);
      SameQuiet(f.st, f.txs[n - 1]);
      AfterTxAt(f.view, base + (n - 1), r.value.st, coordinator || !QuietL1(p.txs[n - 1]), size);
    }
  }

  lemma SameQuiet(st: BState, tx: L1Tx)
    requires RunOneL1(BatchBuilder, st, tx).Ok?
    ensures QuietL1(RunOneL1(BatchBuilder, st, tx).value.1) == QuietL1(tx)
  {
    RunOneL1Same(BatchBuilder, st, tx);
  }

  // ---- the L2 loop ----

  ghost function L2Slot(s: Slot, plan: PlanL2, st: BState, exitRoot: bool): Slot {
    L1Slot(s, st, exitRoot).(accFee := FeesNow(plan, st))
  }

  // All but the last transaction of the batch fill their slot.
  lemma AfterL2At(t: Trace, k: nat, plan: PlanL2, st: BState, tx: PoolL2Tx, size: nat)
    requires Sized(t, size) && plan.nTx <= size + 1
    ensures Sized(AfterL2(t, k, plan, st, tx), size)
    ensures forall i :: 0 <= i < size && i != k ==> SlotAt(AfterL2(t, k, plan, st, tx), i) == SlotAt(t, i)
    ensures k + 1 < plan.nTx ==>
      SlotAt(AfterL2(t, k, plan, st, tx), k) == L2Slot(SlotAt(t, k), plan, st, !QuietL2(tx))
  {
    hide FeesNow;
  }

  lemma {:induction false} FoldL2View(plan: PlanL2, base: nat, p: ProgressL2, n: nat, size: nat)
    requires n <= |p.txs| && RunL2s(BatchBuilder, plan.fees, plan.coordOf, p.st, p.txs[..n]).Ok?
    requires Sized(p.view, size) && base + |p.txs| == plan.nTx <= size + 1
    ensures var f := Fold(RoundsL2(BatchBuilder, plan, base), p, n);
      && f.Ok? && Sized(f.value.view, size)
      && (forall i :: 0 <= i < size && !(base <= i < base + n) ==> SlotAt(f.value.view, i) == SlotAt(p.view, i))
      && (forall i :: base <= i < base + n && i + 1 < plan.nTx ==>
            SlotAt(f.value.view, i)
            == L2Slot(SlotAt(p.view, i), plan, L2State(BatchBuilder, plan, p.st, p.txs, i - base + 1),
                      !QuietL2(p.txs[i - base])))
  {
    hide RunOneL2, AfterL2, WithEntry, EntryFor, L2Slot, QuietL2, SlotAt, RunL2s, Forged;
    FoldL2Is(BatchBuilder, plan, base, p, n);
    if n > 0 {
      FrontRunsL2(BatchBuilder, plan, p.st, p.txs, n);
      FoldL2Is(BatchBuilder, plan, base, p, n - 1);
      FoldL2View(plan, base, p, n - 1, size);
      var f := Fold(RoundsL2(BatchBuilder, plan, base), p, n - 1).value;
      var r := Fold(RoundsL2(BatchBuilder, plan, base), p, n);
      assert r == AfterRoundL2(BatchBuilder, plan, base + (n - 1), f, n - 1);
      SameQuietL2(plan, f.st, f.txs[n - 1]);
      AfterL2At(f.view, base + (n - 1), plan, r.value.st, r.value.txs[n - 1], size);
    }
  }

  lemma SameQuietL2(plan: PlanL2, st: BState, tx: PoolL2Tx)
    requires RunOneL2(BatchBuilder, plan.fees, plan.coordOf, st, tx).Ok?
    ensures QuietL2(RunOneL2(BatchBuilder, plan.fees, plan.coordOf, st, tx).value.1) == QuietL2(tx)
  {
    RunOneL2Shape(BatchBuilder, plan.fees, plan.coordOf, st, tx);
  }

  // ---- the fee totals ----

  // No fee is collected before the L2 transactions.
  lemma {:induction false} L1sCollectNothing(mode: Mode, st: BState, txs: seq<L1Tx>)
    requires RunL1s(mode, st, txs).Ok?
    ensures var st' := RunL1s(mode, st, txs).value.0;
      st'.collected == st.collected && st'.accumulated == st.accumulated
  {
    hide ApplyL1, Prepared;
    if txs != [] {
      var last := |txs| - 1;
      L1sCollectNothing(mode, st, txs[..last]);
      var st1 := RunL1s(mode, st, txs[..last]).value.0;
      RunOneL1Shape(mode, st1, txs[last]);
      ApplyL1CollectsNothing(st1, Prepared(st1.led, txs[last]));
    }
  }

  lemma ApplyL1CollectsNothing(st: BState, tx: L1Tx)
    requires ApplyL1(st, tx).Ok?
    ensures var st' := ApplyL1(st, tx).value; st'.collected == st.collected && st'.accumulated == st.accumulated
  {
    hide MoveL1, Deposit, OpenAccount, OpenAndMove, AddExit;
  }

  // As long as nothing is collected, every fee slot is zero, whether the totals are there or not.
  lemma NothingCollected(cfg: Config, plan: PlanL2, st: BState)
    requires |plan.tokens| == cfg.maxFeeTx && plan.n <= cfg.maxFeeTx
    requires forall t :: t in st.collected ==> st.collected[t] == 0
    ensures FeesNow(plan, st) == seq(cfg.maxFeeTx, _ => 0)
  {
  }

  // ---- the whole batch ----

  // The state after the first k transactions of a batch, L1 before L2.
  ghost function StateAfter(cfg: Config, led: Ledger, b: Batch, k: nat): BState
    requires OpenBatch(BatchBuilder, led, b).Ok? && k <= NTx(b)
  {
    var (u, c) := (|b.l1User|, |b.l1Coord|);
    if k <= u then L1State(BatchBuilder, Fresh(led), b.l1User, k)
    else if k <= u + c then L1State(BatchBuilder, L1State(BatchBuilder, Fresh(led), b.l1User, u), b.l1Coord, k - u)
    else
      var o := OpenBatch(BatchBuilder, led, b).value;
      L2State(BatchBuilder, PlanL2(cfg.fees, o.coordOf, 0, [], 0), o.st, b.l2, k - u - c)
  }

  // Transaction i is an exit of the users that declares no amount.
  ghost predicate Quiet(b: Batch, i: nat) {
    var (u, c) := (|b.l1User|, |b.l1Coord|);
    if i < u then b.l1User[i].typ == TypeForceExit && b.l1User[i].amount == 0
    else u + c <= i < NTx(b) && b.l2[i - u - c].typ == TypeExit && b.l2[i - u - c].amount == 0
  }

  ghost function Recorded(plan: PlanL2, st: BState, exitRoot: bool): Slot {
    Slot(st.led.currentIdx, AccountsRoot(st.led.accounts), if exitRoot then AccountsRoot(st.exits) else ZERO_ROOT,
         FeesNow(plan, st))
  }

  ghost predicate BlankAt(cfg: Config, t: Trace, i: nat)
    requires Sized(t, |t.outIdx|) && i < |t.outIdx|
  {
    SlotAt(t, i) == Slot(0, ZERO_ROOT, ZERO_ROOT, seq(cfg.maxFeeTx, _ => 0))
  }

  // After the L1 loops: the slots of the L1 transactions are written, the others are blank.
  lemma OpeningView(cfg: Config, led: Ledger, b: Batch, i: nat)
    requires cfg.maxTx > 0 && OpenRun(BatchBuilder, cfg, led, b).Ok? && i < cfg.maxTx - 1
    requires |b.l1User| + |b.l1Coord| <= cfg.maxTx - 1
    ensures OpenBatch(BatchBuilder, led, b).Ok?
    ensures var view := OpenRun(BatchBuilder, cfg, led, b).value.coord.view;
      && Sized(view, cfg.maxTx - 1)
      && (i >= |b.l1User| + |b.l1Coord| ==> BlankAt(cfg, view, i))
      && (i < |b.l1User| + |b.l1Coord| ==>
            SlotAt(view, i) == L1Slot(Slot(0, ZERO_ROOT, ZERO_ROOT, seq(cfg.maxFeeTx, _ => 0)),
                                      StateAfter(cfg, led, b, i + 1), !Quiet(b, i)))
  {
    hide AfterRoundL1, RunL1s, Coords, L1Slot, Fold;
    OpenRunIs(BatchBuilder, cfg, led, b);
    var size := cfg.maxTx - 1;
    var (u, c) := (|b.l1User|, |b.l1Coord|);
    var p := UserStart(BatchBuilder, cfg, led, b);
    L1RunIs(BatchBuilder, p, b.l1Coord);
    assert b.l1User[..u] == b.l1User && b.l1Coord[..c] == b.l1Coord;
    FoldL1View(0, false, p, u, size);
    var user := L1Run(BatchBuilder, p, b.l1Coord).value.0;
    FoldL1View(u, true, user.(txs := b.l1Coord), c, size);
    assert BlankAt(cfg, p.view, i);
  }

  // The fee totals of an L1 slot are zero, as they are after its transaction.
  lemma L1StatesCollectNothing(cfg: Config, led: Ledger, b: Batch, k: nat)
    requires OpenBatch(BatchBuilder, led, b).Ok? && k <= |b.l1User| + |b.l1Coord|
    ensures StateAfter(cfg, led, b, k).collected == map[]
  {
    hide RunOneL1;
    var u := |b.l1User|;
    if k <= u {
      if RunL1s(BatchBuilder, Fresh(led), b.l1User[..k]).Ok? {
        L1sCollectNothing(BatchBuilder, Fresh(led), b.l1User[..k]);
      }
    } else {
      assert b.l1User[..u] == b.l1User;
      L1sCollectNothing(BatchBuilder, Fresh(led), b.l1User);
      var st := L1State(BatchBuilder, Fresh(led), b.l1User, u);
      if RunL1s(BatchBuilder, st, b.l1Coord[..k - u]).Ok? {
        L1sCollectNothing(BatchBuilder, st, b.l1Coord[..k - u]);
      }
    }
  }

  // The state before the payout is the one after the last transaction, totals that are still zero aside.
  lemma LastState(cfg: Config, led: Ledger, b: Batch)
    requires RunBatch(BatchBuilder, cfg, led, b).Ok?
    ensures OpenBatch(BatchBuilder, led, b).Ok?
    ensures var last := StateAfter(cfg, led, b, NTx(b));
      var st := RunBatch(BatchBuilder, cfg, led, b).value.beforePayout;
      && st.led == last.led && st.exits == last.exits
      && (st == last || (last.collected == map[] && forall t :: t in st.collected ==> st.collected[t] == 0))
  {
    hide RunL1s, CoordMap, FilterCoords, PayFees;
    RunBatchShape(BatchBuilder, cfg, led, b);
    assert b.l1User[..|b.l1User|] == b.l1User && b.l1Coord[..|b.l1Coord|] == b.l1Coord;
    assert b.l2[..|b.l2|] == b.l2;
    if b.l2 == [] {
      L1StatesCollectNothing(cfg, led, b, NTx(b));
      NoL1s(led, b);
    }
  }

  lemma NoL1s(led: Ledger, b: Batch)
    requires OpenBatch(BatchBuilder, led, b).Ok?
    ensures b.l1Coord == [] ==>
      var st := L1State(BatchBuilder, Fresh(led), b.l1User, |b.l1User|);
      var o := OpenBatch(BatchBuilder, led, b).value;
      o.st.led == st.led && o.st.exits == st.exits
  {
    assert b.l1User[..|b.l1User|] == b.l1User;
  }

  // The L2 loop goes on from the opening: the L1 slots stay, and its own are written but for the last.
  lemma L2View(cfg: Config, led: Ledger, b: Batch, i: nat)
    requires cfg.maxTx > 0 && WholeRun(BatchBuilder, cfg, led, b).Ok? && i < cfg.maxTx - 1
    requires |b.l1User| + |b.l1Coord| <= cfg.maxTx - 1 && i + 1 < NTx(b)
    ensures OpenBatch(BatchBuilder, led, b).Ok? && OpenRun(BatchBuilder, cfg, led, b).Ok?
    ensures var run := WholeRun(BatchBuilder, cfg, led, b).value;
      var opening := OpenRun(BatchBuilder, cfg, led, b).value.coord.view;
      && Sized(run.view, cfg.maxTx - 1) && Sized(opening, cfg.maxTx - 1)
      && SlotAt(run.view, i) ==
           if i < |b.l1User| + |b.l1Coord| then SlotAt(opening, i)
           else L2Slot(SlotAt(opening, i), run.plan, StateAfter(cfg, led, b, i + 1), !Quiet(b, i))
  {
    hide OpenRun, OpenBatch, Fold, RunL2s, L2Slot, FeesNow, L1State;
    OpenRunIs(BatchBuilder, cfg, led, b);
    OpeningView(cfg, led, b, i);
    var o := OpenRun(BatchBuilder, cfg, led, b).value;
    var p := L2Start(o.coord, o.coordIdxs, o.plan, b.l2);
    var base := L2Base(BatchBuilder, b);
    FoldL2Is(BatchBuilder, o.plan, base, p, |b.l2|);
    assert p.txs[..|b.l2|] == b.l2;
    FoldL2View(o.plan, base, p, |b.l2|, cfg.maxTx - 1);
  }

  lemma FilledAt(t: Trace, from: nat, st: BState, fees: seq<nat>, i: nat)
    requires Sized(t, |t.outIdx|) && i < |t.outIdx|
    ensures Sized(Filled(t, from, st, fees), |t.outIdx|)
    ensures SlotAt(Filled(t, from, st, fees), i) ==
      if i >= from then Slot(st.led.currentIdx, AccountsRoot(st.led.accounts), AccountsRoot(st.exits), fees)
      else SlotAt(t, i)
  {
  }

  // How many tokens the fee plan of a run counts.
  lemma PlanFits(cfg: Config, led: Ledger, b: Batch)
    requires cfg.maxTx > 0 && WholeRun(BatchBuilder, cfg, led, b).Ok?
    ensures var plan := WholeRun(BatchBuilder, cfg, led, b).value.plan;
      |plan.tokens| == cfg.maxFeeTx && plan.n <= cfg.maxFeeTx && plan.nTx == NTx(b)
  {
    hide L1Run, L2Run, FeePlan, FinalView;
    OpenRunIs(BatchBuilder, cfg, led, b);
    var o := OpenRun(BatchBuilder, cfg, led, b).value;
    FewerKept(o.coord.st.led, b.coordIdxs);
  }

  lemma {:induction false} FewerKept(led: Ledger, coords: seq<Idx>)
    requires FilterCoords(led, coords).Ok?
    ensures |FilterCoords(led, coords).value.1| <= |coords|
  {
    if coords != [] {
      FewerKept(led, coords[..|coords| - 1]);
    }
  }

  // Slot i of the intermediate states holds exactly what is true after the first i + 1 transactions,
  // or after all of them when there are no more: last index, state root, exit root and fee totals.
  // Only the exit root of an exit that declares no amount is left blank, unless it ends the batch.
  lemma TraceIsExact(cfg: Config, led: Ledger, b: Batch, i: nat)
    requires cfg.maxL1Tx < cfg.maxTx && WholeRun(BatchBuilder, cfg, led, b).Ok? && i < cfg.maxTx - 1
    ensures OpenBatch(BatchBuilder, led, b).Ok?
    ensures var run := WholeRun(BatchBuilder, cfg, led, b).value;
      && Sized(run.view, cfg.maxTx - 1)
      && SlotAt(run.view, i) ==
           if i + 1 < NTx(b) then Recorded(run.plan, StateAfter(cfg, led, b, i + 1), !Quiet(b, i))
           else Recorded(run.plan, StateAfter(cfg, led, b, NTx(b)), true)
  {
    hide StateAfter, Quiet, OpenBatch, FeesNow;
    WholeRunIs(BatchBuilder, cfg, led, b);
    RunBatchShape(BatchBuilder, cfg, led, b);
    PlanFits(cfg, led, b);
    var run := WholeRun(BatchBuilder, cfg, led, b).value;
    if i + 1 < NTx(b) {
      L2View(cfg, led, b, i);
      OpeningView(cfg, led, b, i);
      if i < |b.l1User| + |b.l1Coord| {
        L1StatesCollectNothing(cfg, led, b, i + 1);
        NothingCollected(cfg, run.plan, StateAfter(cfg, led, b, i + 1));
      }
    } else {
      LastSlots(cfg, led, b, i);
    }
  }

  lemma LastSlots(cfg: Config, led: Ledger, b: Batch, i: nat)
    requires cfg.maxL1Tx < cfg.maxTx && WholeRun(BatchBuilder, cfg, led, b).Ok? && i < cfg.maxTx - 1 && i + 1 >= NTx(b)
    ensures OpenBatch(BatchBuilder, led, b).Ok?
    ensures var run := WholeRun(BatchBuilder, cfg, led, b).value;
      && Sized(run.view, cfg.maxTx - 1)
      && SlotAt(run.view, i) == Recorded(run.plan, StateAfter(cfg, led, b, NTx(b)), true)
  {
    hide StateAfter, OpenRun, OpenBatch, FeesNow, RunBatch, Filled, RunL2s;
    WholeRunIs(BatchBuilder, cfg, led, b);
    LastState(cfg, led, b);
    PlanFits(cfg, led, b);
    OpenRunIs(BatchBuilder, cfg, led, b);
    OpeningView(cfg, led, b, i);
    var run := WholeRun(BatchBuilder, cfg, led, b).value;
    var o := OpenRun(BatchBuilder, cfg, led, b).value;
    var p := L2Start(o.coord, o.coordIdxs, o.plan, b.l2);
    FoldL2Is(BatchBuilder, o.plan, L2Base(BatchBuilder, b), p, |b.l2|);
    assert p.txs[..|b.l2|] == b.l2;
    FoldL2View(o.plan, L2Base(BatchBuilder, b), p, |b.l2|, cfg.maxTx - 1);
    var last := L2Run(BatchBuilder, o.plan, L2Base(BatchBuilder, b), o.coordIdxs, p).value.0;
    FilledAt(last.view, if NTx(b) == 0 then 0 else NTx(b) - 1, last.st, FeesNow(o.plan, last.st), i);
    if last.st != StateAfter(cfg, led, b, NTx(b)) {
      NothingCollected(cfg, run.plan, last.st);
      NothingCollected(cfg, run.plan, StateAfter(cfg, led, b, NTx(b)));
    }
  }

  lemma EmptyRoot(accounts: map<Idx, Account>)
    ensures AccountsRoot(accounts) == ZERO_ROOT <==> accounts == map[]
  {
    assert TreeOf(accounts).Keys == accounts.Keys;
  }

  // So the exit root of a slot is the one after its transaction exactly when that is no exit of
  // nothing in the middle of the batch, or no exit has left a leaf yet.
  lemma ExitRootIsExactIff(cfg: Config, led: Ledger, b: Batch, i: nat)
    requires cfg.maxL1Tx < cfg.maxTx && WholeRun(BatchBuilder, cfg, led, b).Ok? && i < cfg.maxTx - 1 && i < NTx(b)
    ensures OpenBatch(BatchBuilder, led, b).Ok?
    ensures var view := WholeRun(BatchBuilder, cfg, led, b).value.view;
      var exits := StateAfter(cfg, led, b, i + 1).exits;
      && |view.exitRoot| == cfg.maxTx - 1
      && (view.exitRoot[i] == AccountsRoot(exits) <==> !Quiet(b, i) || i + 1 == NTx(b) || exits == map[])
  {
    hide WholeRun, StateAfter, OpenBatch, AccountsRoot, FeesNow;
    TraceIsExact(cfg, led, b, i);
    EmptyRoot(StateAfter(cfg, led, b, i + 1).exits);
    var view := WholeRun(BatchBuilder, cfg, led, b).value.view;
    assert view.exitRoot[i] == SlotAt(view, i).exitRoot;
  }
}
