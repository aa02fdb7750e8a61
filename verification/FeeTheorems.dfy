// The fee totals of a batch while it runs, and the records of the payout in the circuit inputs.
module FeeTheorems {
  import opened Types
  import opened Accounts
  import opened Txs
  import opened Ledgers
  import opened LedgerInvariants
  import opened Batches
  import opened FeePayout
  import opened Conservation
  import opened BatchConservation
  import opened Runs
  import opened Stores
  import opened CircuitInputs
  import opened Traces
  import opened RunLinks
  import opened TraceTheorems

  // After any number of L2 transactions the two totals of every token are the same, and there is one
  // for each coordinator account.
  ghost predicate TotalsAgree(st: BState, coordIdxs: seq<Idx>, coordOf: map<TokenID, Idx>) {
    && st.collected.Keys == coordOf.Keys
    && st.accumulated.Keys == (set i | i in coordIdxs)
    && (forall t :: t in coordOf ==> coordOf[t] in coordIdxs && st.accumulated[coordOf[t]] == st.collected[t])
    && (forall k :: 0 <= k < |coordIdxs| ==>
          && coordIdxs[k] in st.led.accounts
          && st.led.accounts[coordIdxs[k]].tokenID in coordOf
          && coordOf[st.led.accounts[coordIdxs[k]].tokenID] == coordIdxs[k])
  }

  lemma TotalsAgreeAlways(mode: Mode, cfg: Config, led: Ledger, log: seq<Creation>, b: Batch, k: nat)
    requires Inv(led, log) && OpenBatch(mode, led, b).Ok? && k <= |b.l2|
    requires var o := OpenBatch(mode, led, b).value; RunL2s(mode, cfg.fees, o.coordOf, o.st, b.l2[..k]).Ok?
    ensures var o := OpenBatch(mode, led, b).value;
      TotalsAgree(RunL2s(mode, cfg.fees, o.coordOf, o.st, b.l2[..k]).value.0, o.coordIdxs, o.coordOf)
  {
    hide RunOneL2, OpenBatch, RunL2s, Inv, OpenFees;
    var o := OpenBatch(mode, led, b).value;
    OpenBatchKeepsInv(mode, led, log, b);
    OpeningIsSettled(mode, led, log, b, 0);
    L2sConserve(mode, cfg.fees, o.coordOf, o.st, Extended(log, b), b.l2[..k], 0);
    L2sKeepInv(mode, cfg.fees, o.coordOf, o.st, Extended(log, b), b.l2[..k]);
    forall t | t in o.coordOf
      ensures o.coordOf[t] in o.coordIdxs
    {
      CoordMapLookup(o.st.led, o.coordIdxs, o.coordOf, t);
    }
  }

  ghost function Elements(s: seq<Idx>): set<Idx> {
    set i | i in s
  }

  lemma {:induction false} DistinctCount(s: seq<Idx>)
    requires forall j, k :: 0 <= j < k < |s| ==> s[j] != s[k]
    ensures |Elements(s)| == |s|
  {
    if s != [] {
      var front := s[..|s| - 1];
      DistinctCount(front);
      assert forall k :: 0 <= k < |front| ==> front[k] == s[k];
      assert Elements(s) == Elements(front) + {s[|s| - 1]};
      assert s[|s| - 1] !in Elements(front);
    } else {
      assert Elements(s) == {};
    }
  }

  // There is one total for each coordinator account.
  lemma CoordsCounted(st: BState, coordIdxs: seq<Idx>)
    requires AllIn(st.led, coordIdxs) && DistinctTokens(st.led, coordIdxs)
    requires st.accumulated.Keys == set i | i in coordIdxs
    ensures |st.accumulated| == |coordIdxs|
  {
    DistinctCount(coordIdxs);
    assert |st.accumulated| == |st.accumulated.Keys|;
    assert st.accumulated.Keys == Elements(coordIdxs);
  }

  // ---- the slots of the payout ----

  lemma {:induction false} FrontPaid(led: Ledger, idxs: seq<Idx>, accumulated: map<Idx, nat>, n: nat)
    requires n <= |idxs| && PayFees(led, idxs, accumulated).Ok?
    ensures PayFees(led, idxs[..n], accumulated).Ok?
  {
    if PayFees(led, idxs[..n], accumulated).Err? {
      PayFails(led, idxs, accumulated, n);
    }
  }

  // Slot i holds the root after the first i + 1 payments.
  lemma {:induction false} FeeRootAt(slots: seq<Root>, led: Ledger, idxs: seq<Idx>, accumulated: map<Idx, nat>, i: nat)
    requires PayFees(led, idxs, accumulated).Ok? && i < |slots|
    ensures i < |idxs| ==> PayFees(led, idxs[..i + 1], accumulated).Ok?
    ensures FeeRoots(slots, led, idxs, accumulated)[i] ==
      if i < |idxs| then AccountsRoot(PayFees(led, idxs[..i + 1], accumulated).value.accounts) else slots[i]
  {
    hide PayOne, AccountsRoot;
    if idxs != [] {
      var front := idxs[..|idxs| - 1];
      FeeRootAt(slots, led, front, accumulated, i);
      if i + 1 < |idxs| {
        assert front[..i + 1] == idxs[..i + 1];
      } else if i + 1 == |idxs| {
        assert idxs[..i + 1] == idxs;
      }
    }
  }

  // The number of payments made by slot i.
  function PaidBy(i: nat, n: nat): (r: nat)
    ensures r <= n
  {
    if i + 1 < n then i + 1 else n
  }

  lemma RootsRecorded(cfg: Config, led: Ledger, idxs: seq<Idx>, accumulated: map<Idx, nat>, i: nat)
    requires cfg.maxFeeTx > 0 && i < cfg.maxFeeTx - 1 && |accumulated| == |idxs|
    requires PayFees(led, idxs, accumulated).Ok?
    ensures PayFees(led, idxs[..PaidBy(i, |idxs|)], accumulated).Ok?
    ensures FillFrom(FeeRoots(BlankFees(cfg).roots, led, idxs, accumulated), |accumulated|,
                     AccountsRoot(PayFees(led, idxs, accumulated).value.accounts))[i]
      == AccountsRoot(PayFees(led, idxs[..PaidBy(i, |idxs|)], accumulated).value.accounts)
  {
    hide PayFees, FeeRoots;
    FrontPaid(led, idxs, accumulated, PaidBy(i, |idxs|));
    FeeRootAt(BlankFees(cfg).roots, led, idxs, accumulated, i);
    assert idxs[..|idxs|] == idxs;
  }

  // The payout in the circuit inputs of an accepted batch: the root before it, the root after each
  // payment and, once all are made, the final one; whom each payment goes to and how much it is.
  lemma PayoutIsRecorded(cfg: Config, led: Ledger, log: seq<Creation>, b: Batch)
    requires Inv(led, log) && cfg.maxFeeTx > 0 && cfg.maxTx > 0 && WholeRun(BatchBuilder, cfg, led, b).Ok?
    ensures var run := WholeRun(BatchBuilder, cfg, led, b).value;
      var out := run.outcome;
      var n := |out.coordIdxs|;
      && PayFees(out.beforePayout.led, out.coordIdxs, out.beforePayout.accumulated).Ok? && n <= cfg.maxFeeTx
      && (forall k :: 0 <= k < n ==> out.coordIdxs[k] in out.beforePayout.accumulated)
      && var f := FinalFees(cfg, run.plan, out.beforePayout, out.coordIdxs, out.led);
      && f.initRoot == AccountsRoot(out.beforePayout.led.accounts)
      && |f.roots| == cfg.maxFeeTx - 1 && |f.finalFees| == |f.idxs| == cfg.maxFeeTx
      && (forall i :: 0 <= i < cfg.maxFeeTx - 1 ==>
            var paid := PayFees(out.beforePayout.led, out.coordIdxs[..PaidBy(i, n)], out.beforePayout.accumulated);
            paid.Ok? && f.roots[i] == AccountsRoot(paid.value.accounts))
      && (forall i :: 0 <= i < cfg.maxFeeTx ==>
            && f.idxs[i] == (if i < n then out.coordIdxs[i] else 0)
            && f.finalFees[i] == (if i < n then out.beforePayout.accumulated[out.coordIdxs[i]] else 0))
  {
    hide WholeRun, RunBatch, OpenBatch, FeesNow, FeeRoots, PayFees, RunL2s, Inv, FillFrom, PaidBy;
    WholeRunIs(BatchBuilder, cfg, led, b);
    RunBatchShape(BatchBuilder, cfg, led, b);
    var run := WholeRun(BatchBuilder, cfg, led, b).value;
    var out := run.outcome;
    FeesMatchPlan(cfg, led, log, b);
    CoordsOnce(cfg, led, log, b);
    forall i | 0 <= i < cfg.maxFeeTx - 1
      ensures PayFees(out.beforePayout.led, out.coordIdxs[..PaidBy(i, |out.coordIdxs|)],
                      out.beforePayout.accumulated).Ok?
      ensures FinalFees(cfg, run.plan, out.beforePayout, out.coordIdxs, out.led).roots[i]
        == AccountsRoot(PayFees(out.beforePayout.led, out.coordIdxs[..PaidBy(i, |out.coordIdxs|)],
                                out.beforePayout.accumulated).value.accounts)
    {
      RootsRecorded(cfg, out.beforePayout.led, out.coordIdxs, out.beforePayout.accumulated, i);
    }
  }

  lemma CoordsOnce(cfg: Config, led: Ledger, log: seq<Creation>, b: Batch)
    requires Inv(led, log) && RunBatch(BatchBuilder, cfg, led, b).Ok?
    ensures var out := RunBatch(BatchBuilder, cfg, led, b).value;
      && |out.beforePayout.accumulated| == |out.coordIdxs|
      && forall k :: 0 <= k < |out.coordIdxs| ==> out.coordIdxs[k] in out.beforePayout.accumulated
  {
    hide OpenBatch, RunL2s, RunBatch;
    RunBatchShape(BatchBuilder, cfg, led, b);
    BatchStages(BatchBuilder, cfg, led, log, b);
    assert b.l2[..|b.l2|] == b.l2;
    TotalsAgreeAlways(BatchBuilder, cfg, led, log, b, |b.l2|);
    var out := RunBatch(BatchBuilder, cfg, led, b).value;
    CoordsCounted(out.beforePayout, out.coordIdxs);
  }

  ghost function CoordFees(cfg: Config, coordIdxs: seq<Idx>, accumulated: map<Idx, nat>): (r: seq<nat>)
    ensures |r| == cfg.maxFeeTx
  {
    seq(cfg.maxFeeTx, i requires 0 <= i < cfg.maxFeeTx =>
      if i < |coordIdxs| && coordIdxs[i] in accumulated then accumulated[coordIdxs[i]] else 0)
  }

  lemma PlanTotal(cfg: Config, tokens: seq<TokenID>, coordOf: map<TokenID, Idx>, led: Ledger, st: BState,
                  coordIdxs: seq<Idx>, i: nat)
    requires SameShape(led, st.led) && AllIn(led, coordIdxs) && AccountsUpTo(led, led.currentIdx)
    requires TotalsAgree(st, coordIdxs, coordOf) && i < |coordIdxs| <= cfg.maxFeeTx
    requires tokens == FeePlan(cfg, led, coordIdxs)
    ensures tokens[i] in st.collected && coordIdxs[i] in st.accumulated
    ensures st.collected[tokens[i]] == st.accumulated[coordIdxs[i]]
  {
    assert coordIdxs[i] in led.accounts;
    assert tokens[i] == st.led.accounts[coordIdxs[i]].tokenID;
  }

  // The tokens of the coordinator accounts in their order, then zeros.
  ghost predicate TokensOf(tokens: seq<TokenID>, led: Ledger, coordIdxs: seq<Idx>) {
    forall i :: 0 <= i < |tokens| ==>
      if i < |coordIdxs| then coordIdxs[i] in led.accounts && tokens[i] == led.accounts[coordIdxs[i]].tokenID
      else tokens[i] == 0
  }

  lemma PlanTokens(cfg: Config, led: Ledger, led': Ledger, coordIdxs: seq<Idx>)
    requires SameShape(led, led') && AllIn(led, coordIdxs) && AccountsUpTo(led, led.currentIdx)
    ensures TokensOf(FeePlan(cfg, led, coordIdxs), led', coordIdxs)
  {
  }

  // The fee plan lists the tokens in the order of the coordinator accounts, so its totals are theirs.
  lemma PlanTotals(cfg: Config, plan: PlanL2, led: Ledger, st: BState, coordIdxs: seq<Idx>)
    requires SameShape(led, st.led) && AllIn(led, coordIdxs) && AccountsUpTo(led, led.currentIdx)
    requires TotalsAgree(st, coordIdxs, plan.coordOf) && |coordIdxs| <= cfg.maxFeeTx
    requires plan.tokens == FeePlan(cfg, led, coordIdxs) && plan.n == |coordIdxs|
    ensures FeesNow(plan, st) == CoordFees(cfg, coordIdxs, st.accumulated) && TokensOf(plan.tokens, st.led, coordIdxs)
  {
    PlanTokens(cfg, led, st.led, coordIdxs);
    hide SameShape, AllIn, TokensOf, AccountsUpTo, TotalsAgree, FeePlan;
    forall i | 0 <= i < |coordIdxs|
      ensures plan.tokens[i] in st.collected && coordIdxs[i] in st.accumulated
      ensures st.collected[plan.tokens[i]] == st.accumulated[coordIdxs[i]]
    {
      PlanTotal(cfg, plan.tokens, plan.coordOf, led, st, coordIdxs, i);
    }
  }

  lemma FeesMatchPlan(cfg: Config, led: Ledger, log: seq<Creation>, b: Batch)
    requires Inv(led, log) && cfg.maxTx > 0 && WholeRun(BatchBuilder, cfg, led, b).Ok?
    ensures var run := WholeRun(BatchBuilder, cfg, led, b).value;
      var (st, coords) := (run.outcome.beforePayout, run.outcome.coordIdxs);
      && |coords| <= cfg.maxFeeTx
      && FeesNow(run.plan, st) == CoordFees(cfg, coords, st.accumulated)
      && |run.plan.tokens| == cfg.maxFeeTx && TokensOf(run.plan.tokens, st.led, coords)
  {
    hide TokensOf, OpenRun, OpenBatch, RunBatch, RunL2s, L2Run, FinalView, FeePlan, TotalsAgree, Indexed;
    WholeRunIs(BatchBuilder, cfg, led, b);
    RunBatchShape(BatchBuilder, cfg, led, b);
    OpenRunIs(BatchBuilder, cfg, led, b);
    PlanFits(cfg, led, b);
    BatchStages(BatchBuilder, cfg, led, log, b);
    assert b.l2[..|b.l2|] == b.l2;
    TotalsAgreeAlways(BatchBuilder, cfg, led, log, b, |b.l2|);
    var o := OpenRun(BatchBuilder, cfg, led, b).value;
    var st := WholeRun(BatchBuilder, cfg, led, b).value.outcome.beforePayout;
    SameLedger(o.coord.st, OpenBatch(BatchBuilder, led, b).value, o.plan.coordOf, Extended(log, b));
    PlanTotals(cfg, o.plan, o.coord.st.led, st, o.coordIdxs);
  }

  // Opening the totals leaves the ledger as it is.
  lemma SameLedger(st: BState, o: Opening, coordOf: map<TokenID, Idx>, log: seq<Creation>)
    requires Runs.Ready(o, log) && OpenFees(st, o.coordIdxs, coordOf) == o.st
    ensures st.led == o.st.led && AllIn(st.led, o.coordIdxs) && AccountsUpTo(st.led, st.led.currentIdx)
  {
  }
}
