// The loops of ProcessTxs as folds over values: what each round does to the ledger, to the
// transactions in place, to the exits, and to the records for the circuit.
module Traces {
  import opened Types
  import opened Accounts
  import opened Txs
  import opened Ledgers
  import opened Batches
  import opened Stores
  import opened CircuitInputs
  import opened Exits

  // The state after a transaction goes into its slot, the exit root only if asked.
  ghost function AfterTx(t: Trace, k: nat, st: BState, exitRoot: bool): Trace {
    t.(outIdx := Put(t.outIdx, k, st.led.currentIdx),
       stateRoot := Put(t.stateRoot, k, AccountsRoot(st.led.accounts)),
       exitRoot := if exitRoot then Put(t.exitRoot, k, AccountsRoot(st.exits)) else t.exitRoot)
  }

  // An exit that declares no amount.
  predicate QuietL1(tx: L1Tx) {
    tx.typ == TypeForceExit && tx.amount == 0
  }

  predicate QuietL2(tx: PoolL2Tx) {
    tx.typ == TypeExit && tx.amount == 0
  }

  ghost function LoggedL1(m: Meta, tx: L1Tx, lastIdx: Idx): Meta {
    m.(newLastIdx := if CreatesAccount(tx.typ) then lastIdx else m.newLastIdx, l1 := m.l1 + [tx])
  }

  datatype NewAccount = NewAccount(idx: Idx, acc: Account)

  // Everything that a round of the L1 loops reads and writes.
  datatype ProgressL1 = ProgressL1(
    st: BState,
    txs: seq<L1Tx>,
    entries: seq<ProcessedExit>,
    created: seq<NewAccount>,
    log: Meta,
    view: Trace)

  ghost function CreatedIn(mode: Mode, tx: L1Tx, led: Ledger): seq<NewAccount> {
    if mode.Synchronizer? && CreatesAccount(tx.typ) && led.Get(led.currentIdx).Ok?
    then [NewAccount(led.currentIdx, led.Get(led.currentIdx).value)] else []
  }

  // Only a transaction that leaves a leaf touches the list of exits.
  function WithEntry(entries: seq<ProcessedExit>, at: nat, e: ProcessedExit): (r: seq<ProcessedExit>)
    ensures |r| == |entries|
  {
    if e.Exited? then Put(entries, at, e) else entries
  }

  // Round k, at slot `at`. Coordinator transactions leave no exit, and always record the exit root.
  ghost function AfterRoundL1(mode: Mode, at: nat, coordinator: bool, p: ProgressL1, k: nat): Result<ProgressL1> {
    if k >= |p.txs| then Err(Malformed)
    else
      var (st, tx) :- RunOneL1(mode, p.st, p.txs[k]);
      Ok(ProgressL1(
        st,
        p.txs[k := tx],
        if coordinator then p.entries
        else WithEntry(p.entries, at, EntryFor(p.st.exits, st.exits, ExitsL1(tx), tx.fromIdx)),
        p.created + CreatedIn(mode, tx, st.led),
        if mode.BatchBuilder? then LoggedL1(p.log, tx, st.led.currentIdx) else p.log,
        if mode.BatchBuilder? then AfterTx(p.view, at, st, coordinator || !QuietL1(tx)) else p.view))
  }

  ghost function RoundsL1(mode: Mode, base: nat, coordinator: bool): (ProgressL1, nat) -> Result<ProgressL1> {
    (p: ProgressL1, k: nat) => AfterRoundL1(mode, base + k, coordinator, p, k)
  }

  // The first n rounds of a loop.
  ghost function Fold<P>(round: (P, nat) -> Result<P>, p: P, n: nat): Result<P> {
    if n == 0 then Ok(p)
    else
      var q :- Fold(round, p, n - 1);
      round(q, n - 1)
  }

  // A loop that fails in a round fails as a whole.
  lemma {:induction false} FoldFails<P>(round: (P, nat) -> Result<P>, p: P, i: nat, n: nat)
    requires i <= n && Fold(round, p, i).Err?
    ensures Fold(round, p, n).Err?
  {
    if i < n {
      FoldFails(round, p, i, n - 1);
    }
  }

  // ---- the L2 loop ----

  datatype ProgressL2 = ProgressL2(
    st: BState,
    txs: seq<PoolL2Tx>,
    entries: seq<ProcessedExit>,
    log: Meta,
    view: Trace)

  // What stays the same throughout the L2 loop: the fee selectors' table, the coordinator accounts by
  // token, the number of transactions, the tokens of the fee plan and how many of them count.
  datatype PlanL2 = PlanL2(fees: FeeTable, coordOf: map<TokenID, Idx>, nTx: nat, tokens: seq<TokenID>, n: nat)

  ghost function FeesNow(plan: PlanL2, st: BState): seq<nat> {
    if plan.n <= |plan.tokens| then FormatFees(st.collected, plan.tokens, plan.n) else []
  }

  // The last transaction of the batch records only the exit root of its leaf here.
  ghost function AfterL2(t: Trace, k: nat, plan: PlanL2, st: BState, tx: PoolL2Tx): Trace {
    if k + 1 < plan.nTx then
      var t1 := AfterTx(t, k, st, !QuietL2(tx));
      t1.(accFee := Put(t1.accFee, k, FeesNow(plan, st)))
    else if ExitsL2(tx) then t.(exitRoot := Put(t.exitRoot, k, AccountsRoot(st.exits)))
    else t
  }

  ghost function AfterRoundL2(mode: Mode, plan: PlanL2, at: nat, p: ProgressL2, k: nat): Result<ProgressL2> {
    if k >= |p.txs| then Err(Malformed)
    else
      var (st, tx) :- RunOneL2(mode, plan.fees, plan.coordOf, p.st, p.txs[k]);
      Ok(ProgressL2(
        st,
        p.txs[k := tx],
        WithEntry(p.entries, at, EntryFor(p.st.exits, st.exits, ExitsL2(tx), tx.fromIdx)),
        if mode.BatchBuilder? then p.log.(l2 := p.log.l2 + [Forged(tx)]) else p.log,
        if mode.BatchBuilder? then AfterL2(p.view, at, plan, st, tx) else p.view))
  }

  ghost function RoundsL2(mode: Mode, plan: PlanL2, base: nat): (ProgressL2, nat) -> Result<ProgressL2> {
    (p: ProgressL2, k: nat) => AfterRoundL2(mode, plan, base + k, p, k)
  }

  // ---- after the loops ----

  // From slot `from` on, everything is what holds after the last transaction.
  ghost function Filled(t: Trace, from: nat, st: BState, fees: seq<nat>): Trace {
    Trace(FillFrom(t.outIdx, from, st.led.currentIdx), FillFrom(t.stateRoot, from, AccountsRoot(st.led.accounts)),
          FillFrom(t.exitRoot, from, AccountsRoot(st.exits)), FillFrom(t.accFee, from, fees))
  }

  // The state root after each fee payment, as far as there are slots.
  ghost function FeeRoots(slots: seq<Root>, led: Ledger, idxs: seq<Idx>, accumulated: map<Idx, nat>): (r: seq<Root>)
    requires PayFees(led, idxs, accumulated).Ok?
    ensures |r| == |slots|
  {
    if idxs == [] then slots
    else
      Put(FeeRoots(slots, led, idxs[..|idxs| - 1], accumulated), |idxs| - 1,
          AccountsRoot(PayFees(led, idxs, accumulated).value.accounts))
  }

  lemma {:induction false} FilterFails(led: Ledger, coords: seq<Idx>, n: nat)
    requires n <= |coords| && FilterCoords(led, coords[..n]).Err?
    ensures FilterCoords(led, coords).Err?
    decreases |coords| - n
  {
    if n < |coords| {
      assert coords[..n + 1][..n] == coords[..n];
      FilterFails(led, coords, n + 1);
    } else {
      assert coords[..n] == coords;
    }
  }

  lemma {:induction false} PayFails(led: Ledger, idxs: seq<Idx>, accumulated: map<Idx, nat>, n: nat)
    requires n <= |idxs| && PayFees(led, idxs[..n], accumulated).Err?
    ensures PayFees(led, idxs, accumulated).Err?
    decreases |idxs| - n
  {
    if n < |idxs| {
      assert idxs[..n + 1][..n] == idxs[..n];
      PayFails(led, idxs, accumulated, n + 1);
    } else {
      assert idxs[..n] == idxs;
    }
  }

  // ---- the whole of ProcessTxs ----

  // What a run leaves behind besides the checkpoint.
  datatype BatchRun = BatchRun(
    outcome: Outcome,
    entries: seq<ProcessedExit>,
    created: seq<NewAccount>,
    log: Meta,
    view: Trace,
    plan: PlanL2)

  function NTx(b: Batch): nat {
    |b.l1User| + |b.l1Coord| + |b.l2|
  }

  function NoExits(n: nat): (r: seq<ProcessedExit>)
    ensures |r| == n
  {
    seq(n, _ => NoExit)
  }

  ghost function UserStart(mode: Mode, cfg: Config, led: Ledger, b: Batch): ProgressL1
    requires mode.BatchBuilder? ==> cfg.maxTx > 0
  {
    ProgressL1(Fresh(led), b.l1User, NoExits(NTx(b)), [],
               if mode.BatchBuilder? then Meta(led.currentIdx, [], []) else Meta(0, [], []),
               if mode.BatchBuilder? then Blank(cfg) else Trace([], [], [], []))
  }

  // The two L1 loops: how each one ends.
  ghost function L1Run(mode: Mode, p: ProgressL1, coord: seq<L1Tx>): Result<(ProgressL1, ProgressL1)> {
    var user :- Fold(RoundsL1(mode, 0, false), p, |p.txs|);
    var last :- Fold(RoundsL1(mode, |p.txs|, true), user.(txs := coord), |coord|);
    Ok((user, last))
  }

  // The tokens of the fee plan: those of the coordinator accounts, then zeros.
  function FeePlan(cfg: Config, led: Ledger, coordIdxs: seq<Idx>): (r: seq<TokenID>)
    ensures |r| == cfg.maxFeeTx
  {
    seq(cfg.maxFeeTx, i requires 0 <= i < cfg.maxFeeTx =>
      if i < |coordIdxs| && led.Get(coordIdxs[i]).Ok? then led.Get(coordIdxs[i]).value.tokenID else 0)
  }

  // The coordinator accounts that count, and their fee plan.
  ghost function Coords(cfg: Config, led: Ledger, nTx: nat, coords: seq<Idx>): Result<(seq<Idx>, PlanL2)> {
    var (_, coordIdxs) :- FilterCoords(led, coords);
    var coordOf :- CoordMap(led, coordIdxs);
    Ok((coordIdxs, PlanL2(cfg.fees, coordOf, nTx, FeePlan(cfg, led, coordIdxs), |coordIdxs|)))
  }

  ghost function L2Start(p: ProgressL1, coordIdxs: seq<Idx>, plan: PlanL2, txs: seq<PoolL2Tx>): ProgressL2 {
    ProgressL2(OpenFees(p.st, coordIdxs, plan.coordOf), txs, p.entries, p.log, p.view)
  }

  // The L2 loop and the fee payout.
  ghost function L2Run(mode: Mode, plan: PlanL2, base: nat, coordIdxs: seq<Idx>, p: ProgressL2)
    : Result<(ProgressL2, Ledger)>
  {
    var last :- Fold(RoundsL2(mode, plan, base), p, |p.txs|);
    var paid :- PayFees(last.st.led, coordIdxs, last.st.accumulated);
    Ok((last, paid))
  }

  // The slot of the first L2 transaction: the synchronizer does not count coordinator transactions.
  function L2Base(mode: Mode, b: Batch): nat {
    |b.l1User| + if mode.BatchBuilder? then |b.l1Coord| else 0
  }

  ghost function FinalView(mode: Mode, nTx: nat, plan: PlanL2, p: ProgressL2): Trace {
    EndView(mode, p.view, nTx, plan, p.st)
  }

  ghost function EndView(mode: Mode, view: Trace, nTx: nat, plan: PlanL2, st: BState): Trace {
    if mode.BatchBuilder? then Filled(view, if nTx == 0 then 0 else nTx - 1, st, FeesNow(plan, st)) else view
  }

  // What the circuit inputs say about the fees.
  ghost function FinalFees(cfg: Config, plan: PlanL2, st: BState, coordIdxs: seq<Idx>, paid: Ledger): FeeTrace
    requires PayFees(st.led, coordIdxs, st.accumulated).Ok? && |coordIdxs| <= cfg.maxFeeTx && cfg.maxFeeTx > 0
  {
    FeeTrace(AccountsRoot(st.led.accounts),
             FillFrom(FeeRoots(BlankFees(cfg).roots, st.led, coordIdxs, st.accumulated), |st.accumulated|,
                      AccountsRoot(paid.accounts)),
             FeesNow(plan, st), Overwrite(BlankFees(cfg).idxs, coordIdxs))
  }

  // The state of the loops when the first L2 transaction is about to run.
  datatype Opened = Opened(user: seq<L1Tx>, coord: ProgressL1, coordIdxs: seq<Idx>, plan: PlanL2)

  ghost function OpenRun(mode: Mode, cfg: Config, led: Ledger, b: Batch): Result<Opened>
    requires mode.BatchBuilder? ==> cfg.maxTx > 0
  {
    var (user, coord) :- L1Run(mode, UserStart(mode, cfg, led, b), b.l1Coord);
    var (coordIdxs, plan) :- Coords(cfg, coord.st.led, NTx(b), b.coordIdxs);
    Ok(Opened(user.txs, coord, coordIdxs, plan))
  }

  ghost function CloseRun(mode: Mode, b: Batch, o: Opened): Result<BatchRun> {
    var (l2, paid) :- L2Run(mode, o.plan, L2Base(mode, b), o.coordIdxs, L2Start(o.coord, o.coordIdxs, o.plan, b.l2));
    Ok(BatchRun(Outcome(paid, l2.st, o.coordIdxs, o.plan.coordOf, o.user, o.coord.txs, l2.txs),
                l2.entries, o.coord.created, l2.log, FinalView(mode, NTx(b), o.plan, l2), o.plan))
  }

  ghost function WholeRun(mode: Mode, cfg: Config, led: Ledger, b: Batch): Result<BatchRun>
    requires mode.BatchBuilder? ==> cfg.maxTx > 0
  {
    if !FitsConfig(cfg, b) then Err(TooManyTxs)
    else
      var o :- OpenRun(mode, cfg, led, b);
      CloseRun(mode, b, o)
  }

  lemma {:induction false} CoordMapFinds(led: Ledger, idxs: seq<Idx>)
    requires CoordMap(led, idxs).Ok?
    ensures forall i :: 0 <= i < |idxs| ==> led.Get(idxs[i]).Ok?
  {
    if idxs != [] {
      CoordMapFinds(led, idxs[..|idxs| - 1]);
    }
  }
}
