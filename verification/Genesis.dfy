// The first batches: the empty one that every node starts with, and one that opens two accounts and
// moves something between them.
module Genesis {
  import opened Types
  import opened Accounts
  import opened Txs
  import opened Ledgers
  import opened LedgerInvariants
  import opened Batches
  import opened Traces
  import RunLinks
  import Settlement

  const NOTHING := Batch([], [], [], [])

  // The genesis batch is accepted in both modes and creates nothing.
  lemma GenesisIsAccepted(mode: Mode, cfg: Config)
    requires cfg.maxTx > 0
    ensures Inv(EMPTY_LEDGER, [])
    ensures WholeRun(mode, cfg, EMPTY_LEDGER, NOTHING).Ok?
    ensures WholeRun(mode, cfg, EMPTY_LEDGER, NOTHING).value.outcome.led == EMPTY_LEDGER
  {
    RunLinks.WholeRunIs(mode, cfg, EMPTY_LEDGER, NOTHING);
    assert RunL1s(mode, Fresh(EMPTY_LEDGER), []) == Ok((Fresh(EMPTY_LEDGER), []));
    assert OpenBatch(mode, EMPTY_LEDGER, NOTHING).Ok?;
  }

  // A deposit that opens an account.
  function Opening(addr: Addr, amount: nat): L1Tx {
    L1Tx(true, 0, 0, addr, EMPTY_BJJ, 0, 0, 0, 0, amount, 0, TypeCreateAccountDeposit)
  }

  const MOVE := PoolL2Tx(32, 33, 0, EMPTY_ADDR, EMPTY_BJJ, 0, 4, 0, 0, TypeTransfer, 0, 0, 0, 0, 0, true)

  // Two deposits of ten and five, and a transfer of four between the new accounts, without a fee.
  const FIRST := Batch([], [Opening(7, 10), Opening(8, 5)], [], [MOVE])

  function Plain(balance: nat, nonce: nat, addr: Addr): Account {
    Account(0, nonce, balance, EMPTY_BJJ, addr)
  }

  const ONE_OPEN := Ledger(map[32 := Plain(10, 0, 7)], 32, map[(7, 0) := 32], map[(7, EMPTY_BJJ, 0) := 32])
  const BOTH_OPEN := Ledger(map[32 := Plain(10, 0, 7), 33 := Plain(5, 0, 8)], 33, map[(7, 0) := 32, (8, 0) := 33],
                            map[(7, EMPTY_BJJ, 0) := 32, (8, EMPTY_BJJ, 0) := 33])

  lemma DepositsOpen()
    ensures RunOneL1(BatchBuilder, Fresh(EMPTY_LEDGER), Opening(7, 10)).Ok?
    ensures RunOneL1(BatchBuilder, Fresh(EMPTY_LEDGER), Opening(7, 10)).value.0 == Fresh(ONE_OPEN)
    ensures RunOneL1(BatchBuilder, Fresh(ONE_OPEN), Opening(8, 5)).Ok?
    ensures RunOneL1(BatchBuilder, Fresh(ONE_OPEN), Opening(8, 5)).value.0 == Fresh(BOTH_OPEN)
  {
    assert Canon(Plain(10, 0, 7)) == Plain(10, 0, 7) && Canon(Plain(5, 0, 8)) == Plain(5, 0, 8);
  }

  lemma BothDepositsOpen()
    ensures RunL1s(BatchBuilder, Fresh(EMPTY_LEDGER), FIRST.l1User).Ok?
    ensures RunL1s(BatchBuilder, Fresh(EMPTY_LEDGER), FIRST.l1User).value.0 == Fresh(BOTH_OPEN)
  {
    hide RunOneL1;
    DepositsOpen();
    var txs := FIRST.l1User;
    assert txs[..1] == [Opening(7, 10)] && [Opening(7, 10)][..0] == [];
  }

  // It is accepted and can be published; the accounts end with six and nine.
  lemma FirstBatchIsAccepted(cfg: Config)
    requires FitsConfig(cfg, FIRST) && cfg.fees[0] == 0
    ensures RunBatch(BatchBuilder, cfg, EMPTY_LEDGER, FIRST).Ok?
    ensures RunBatch(BatchBuilder, cfg, EMPTY_LEDGER, FIRST).value.led.accounts
      == map[32 := Plain(6, 1, 7), 33 := Plain(9, 0, 8)]
    ensures Settlement.Typed(MOVE)
  {
    hide RunOneL1, RunOneL2;
    BothDepositsOpen();
    MoveIsAccepted(cfg.fees);
    FirstOpens();
    var st := Fresh(BOTH_OPEN);
    assert [MOVE][..0] == [];
    assert RunL2s(BatchBuilder, cfg.fees, map[], st, []) == Ok((st, []));
    assert RunL2s(BatchBuilder, cfg.fees, map[], st, [MOVE]).Ok?;
  }

  // No coordinator account takes part.
  lemma FirstOpens()
    ensures OpenBatch(BatchBuilder, EMPTY_LEDGER, FIRST).Ok?
    ensures var o := OpenBatch(BatchBuilder, EMPTY_LEDGER, FIRST).value;
      o.st == Fresh(BOTH_OPEN) && o.coordIdxs == [] && o.coordOf == map[]
  {
    hide RunOneL1;
    BothDepositsOpen();
    var st := Fresh(BOTH_OPEN);
    assert RunL1s(BatchBuilder, st, []) == Ok((st, []));
    assert FilterCoords(BOTH_OPEN, []) == Ok(({}, [])) && CoordMap(BOTH_OPEN, []) == Ok(map[]);
    assert OpenFees(st, [], map[]) == st;
  }

  lemma MoveIsAccepted(fees: FeeTable)
    requires fees[0] == 0
    ensures RunOneL2(BatchBuilder, fees, map[], Fresh(BOTH_OPEN), MOVE).Ok?
    ensures RunOneL2(BatchBuilder, fees, map[], Fresh(BOTH_OPEN), MOVE).value.0.led.accounts
      == map[32 := Plain(6, 1, 7), 33 := Plain(9, 0, 8)]
  {
    assert Canon(Plain(6, 1, 7)) == Plain(6, 1, 7) && Canon(Plain(9, 0, 8)) == Plain(9, 0, 8);
    assert CalcFeeAmount(fees, 4, 0) == Ok(0);
  }
}
