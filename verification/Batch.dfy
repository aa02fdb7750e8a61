// ProcessTxs as a pure function: one batch over a ledger, in either mode.
module Batches {
  import opened Types
  import opened Accounts
  import opened Txs
  import opened Ledgers

  datatype Batch = Batch(
    coordIdxs: seq<Idx>,
    l1User: seq<L1Tx>,
    l1Coord: seq<L1Tx>,
    l2: seq<PoolL2Tx>)

  datatype Outcome = Outcome(
    led: Ledger,
    beforePayout: BState,
    coordIdxs: seq<Idx>,
    coordOf: map<TokenID, Idx>,
    l1User: seq<L1Tx>,
    l1Coord: seq<L1Tx>,
    l2: seq<PoolL2Tx>)

  // The loops are given by their prefixes: what holds after k transactions is the run over txs[..k].
  function RunL1s(mode: Mode, st: BState, txs: seq<L1Tx>): (r: Result<(BState, seq<L1Tx>)>)
    ensures r.Ok? ==> |r.value.1| == |txs|
  {
    if txs == [] then Ok((st, []))
    else
      var last := |txs| - 1;
      var (st1, out) :- RunL1s(mode, st, txs[..last]);
      var (st2, tx) :- RunOneL1(mode, st1, txs[last]);
      Ok((st2, out + [tx]))
  }

  function RunL2s(mode: Mode, fees: FeeTable, coordOf: map<TokenID, Idx>, st: BState, txs: seq<PoolL2Tx>)
    : (r: Result<(BState, seq<PoolL2Tx>)>)
    ensures r.Ok? ==> |r.value.1| == |txs|
  {
    if txs == [] then Ok((st, []))
    else
      var last := |txs| - 1;
      var (st1, out) :- RunL2s(mode, fees, coordOf, st, txs[..last]);
      var (st2, tx) :- RunOneL2(mode, fees, coordOf, st1, txs[last]);
      Ok((st2, out + [tx]))
  }

  // Of the coordinator accounts given, the first one for each token, and the tokens seen.
  function FilterCoords(led: Ledger, coords: seq<Idx>): Result<(set<TokenID>, seq<Idx>)> {
    if coords == [] then Ok(({}, []))
    else
      var last := |coords| - 1;
      var (used, kept) :- FilterCoords(led, coords[..last]);
      var a :- led.Get(coords[last]);
      if a.tokenID in used then Ok((used, kept)) else Ok((used + {a.tokenID}, kept + [coords[last]]))
  }

  // GetTokenIDsFromIdxs
  function CoordMap(led: Ledger, idxs: seq<Idx>): Result<map<TokenID, Idx>> {
    if idxs == [] then Ok(map[])
    else
      var last := |idxs| - 1;
      var m :- CoordMap(led, idxs[..last]);
      var a :- led.Get(idxs[last]);
      Ok(m[a.tokenID := idxs[last]])
  }

  // Every coordinator account is credited what was accumulated for it.
  function PayFees(led: Ledger, idxs: seq<Idx>, accumulated: map<Idx, nat>): Result<Ledger> {
    if idxs == [] then Ok(led)
    else
      var last := |idxs| - 1;
      var led1 :- PayFees(led, idxs[..last], accumulated);
      PayOne(led1, idxs[last], accumulated)
  }

  function PayOne(led: Ledger, i: Idx, accumulated: map<Idx, nat>): Result<Ledger> {
    var a :- led.Get(i);
    if i !in accumulated then Err(MissingFeeAccumulator)
    else led.Update(i, a.(balance := a.balance + accumulated[i]))
  }

  function OpenFees(st: BState, coordIdxs: seq<Idx>, coordOf: map<TokenID, Idx>): BState {
    st.(accumulated := map i | i in coordIdxs :: 0, collected := map t | t in coordOf :: 0)
  }

  predicate FitsConfig(cfg: Config, b: Batch) {
    && |b.coordIdxs| <= cfg.maxFeeTx
    && |b.l1User| + |b.l1Coord| + |b.l2| <= cfg.maxTx
    && |b.l1User| + |b.l1Coord| <= cfg.maxL1Tx
  }

  // The state and coordinator accounts at the moment the first L2 transaction runs.
  datatype Opening = Opening(
    st: BState, coordIdxs: seq<Idx>, coordOf: map<TokenID, Idx>, l1User: seq<L1Tx>, l1Coord: seq<L1Tx>)

  function OpenBatch(mode: Mode, led: Ledger, b: Batch): Result<Opening> {
    var (st1, l1User) :- RunL1s(mode, Fresh(led), b.l1User);
    var (st2, l1Coord) :- RunL1s(mode, st1, b.l1Coord);
    var (_, coordIdxs) :- FilterCoords(st2.led, b.coordIdxs);
    var coordOf :- CoordMap(st2.led, coordIdxs);
    Ok(Opening(OpenFees(st2, coordIdxs, coordOf), coordIdxs, coordOf, l1User, l1Coord))
  }

  function RunBatch(mode: Mode, cfg: Config, led: Ledger, b: Batch): Result<Outcome> {
    if !FitsConfig(cfg, b) then Err(TooManyTxs)
    else
      var o :- OpenBatch(mode, led, b);
      var (st, l2) :- RunL2s(mode, cfg.fees, o.coordOf, o.st, b.l2);
      var paid :- PayFees(st.led, o.coordIdxs, st.accumulated);
      Ok(Outcome(paid, st, o.coordIdxs, o.coordOf, o.l1User, o.l1Coord, l2))
  }
}
