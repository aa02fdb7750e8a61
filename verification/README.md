# Rollup ledger: a verified model

This project models the ledger of a zk-rollup node and proves what the node relies on. Two programs must
agree about that ledger: the batch builder, which runs a batch, proves it and publishes a few bytes per
transaction, and the synchronizer, which reads those bytes back and replays the batch. Both keep the ledger
in a checkpointed key-value store.

The project has three layers.

* **The ledger as functions.** `Types`, `Txs`, `Accounts`, `Ledger` and `Batch` say what one transaction and
  one batch do to plain maps; `Genesis` runs the first ones. What this means is proved in `LedgerInv`, `Runs`,
  `Conservation`, `BatchConservation`, `FeePayout`, `L1Effects`, `L2Effects`, `Acceptance`, `ForcedL1`, `Exits`,
  `AddressIndex` and `ModeAgreement`.
* **The program as classes.** `KVDB`, `StateDB`, `TxProcessor`, `CircuitInputs` and `Jobs` have the program's
  objects, their fields, in-place updates and loops. `Store`, `StoreRuns`, `Checkpoints`, `Pruning` and `Keys`
  specify the storage. `Traces` specifies everything a run of `ProcessTxs` records on the way, and `RunLinks`,
  `TraceTheorems`, `FeeTheorems` and `InputTheorems` prove what these records are.
* **The bytes.** `Bytes`, `Float40`, `FloatGaps`, `LowBits`, `Codec`, `Slicing`, `UserTxBytes`, `CoordTxBytes`
  and `PublicInput` are the encodings, `Layouts` says which byte is which, and `Settlement` joins them with the ledger: when what the builder
  publishes makes the synchronizer reach the same state.

`dafny verify dfyconfig.toml` checks the whole project.

## What is assumed

* The Poseidon hash is a free constructor `Digest` over its four field elements, and the root of a sparse
  Merkle tree is a free constructor over its map from index to hash; neither collides. The tree library is
  that map.
* Baby Jubjub keys need not be canonical: an account stores the canonical form of its key, and the theorems
  say so.
* Amounts are natural numbers: they come from 40-bit floats or 256-bit contract words. Indices are unbounded
  naturals that are refused above 48 bits, where the source refuses them, so the 64-bit wrap-around is out of
  reach.
* `NLevels` is a multiple of 8 from 8 to 48, and `MaxL1Tx < MaxTx` where circuit inputs are made; without the
  latter an L1 transaction would be recorded past the end of the intermediate states.
* Disk operations succeed. A checkpoint directory is a value, and the temporary storage of an exit tree a
  fresh one.
* The 256 fee factors are a parameter; the theorems hold for every table.
* Whether a pool signature decompresses is a field of the transaction, and the address that an account
  authorization recovers to is a function of key and signature. Whether a proof is found, a
  transaction sent, or a database query answered is a parameter of the jobs.
* The 32-byte and integer forms of a root are parameters with the right range.

## Where the code and its documentation differ

* A plain deposit subtracts its effective amount without a receiver, and an L2 transfer does not compare
  tokens. `DepositLosesNothingIff` and `TransferKeepsTokensIff` say exactly when a run loses something by it,
  `DepositAmountIsLost` and `TransferCrossesTokens` show it.
* Forced transfers and exits count a deposit that they never credit (`ForcedExitWithDepositFails`), and a
  deposit that is a multiple of 2^64 is taken for none. `TransferDepositCreditedIff` says when a deposit is
  credited and `ForgottenDeposits` which four of the encodable ones are not.
* The synchronizer reads the coordinator's announced transactions, but runs none, so the two programs part
  exactly when the coordinator opens an account (`Settlement`, `HistorySettles`).
* Exits among the coordinator's transactions are logged as an error and then left out of the exit report;
  `ExitReportIsExact` says when the report is complete all the same.
* Updating an account that does not exist fails, and still stores it where it can be read but is missing from
  the tree (`DamagedIff`); no other failed write leaves anything behind.
* A reset takes no lock, and a pruner that is at work goes on deleting what it listed before. `BackIsOrderlyIff`
  says when that is harmless and `UnsafeBackLoses` that otherwise it can delete a checkpoint that is wanted.
* A panic while the selector saves its results is taken for success after one of its two databases was reset
  (`Selector.Process`).
* `GetIdxByEthAddr` is documented to give the smallest index; `LookupByAddrSmallestIff` says when it does.
* A reset also deletes later checkpoints, and leaves the store closed when the wanted one is missing
  (`ResetRestores`). A takeover from the synchronizer leaves the "last" view as it was (`TakeoverIsSound`).
* An exit of amount 0 leaves its exit root slot blank unless it ends the batch (`ExitRootIsExactIff`).
* The old state root is copied to the front of its field without leading zeros (`OldRootField`).
* Rounding down to a float is neither monotone nor always the nearest value below; `FloorIsGreatestIff` and
  `FloorDropsIff` say exactly where not, and `FloorIsNotMonotone` shows the first such place.
* `RollupForgeBatch` has the number of levels written out as 8; here the width is a parameter.

## Model

| member | source | states |
|---|---|---|
| `TxProcessors.TxProcessor.ProcessTxs` | internal/pkg/service/txprocessor/txprocessor.go:122-516 | A batch either runs to its end and is checkpointed as batch number + 1, or changes nothing on disk and nothing in the "last" view. The ledger, the transactions in place, the report (exit infos, created accounts, fees, exact diff of the accounts) and the circuit inputs are those of the run, and the run succeeds exactly when the specification does |
| `RunLinks.WholeRunIs` | internal/pkg/service/txprocessor/txprocessor.go:122-516 | Keeping all the records changes neither which batches are accepted nor what they do to the ledger, in either mode |
| `Runs.BatchKeepsInv` | internal/pkg/service/txprocessor/txprocessor.go:122-516 | Every accepted batch leaves the accounts exactly 32..CurrentIdx, storable and canonical; token, address and key of an account never change; each nonce grows by the number of L2 transactions its account sent |
| `Runs.EveryRunIsSafe` | internal/pkg/service/txprocessor/txprocessor.go:122-516 | Over any history of accepted batches: accounts are 32..CurrentIdx, the k-th creation made account 32 + k with its token, address and key, the address entries are as the history says, and every nonce counts all L2 transactions ever sent |
| `Runs.StampedNonces` | internal/pkg/service/txprocessor/txprocessor.go:760-770 | In synchronizer mode each L2 transaction is stamped with its sender's token and with consecutive nonces per sender |
| `L2Effects.FeeIs` | internal/pkg/model/fee.go:48-57 | The fee f is the one number with f * 2^60 <= amount * factor < (f + 1) * 2^60 below selector 192, and the product itself from there on; it is charged if and only if it is below 2^128, and refused otherwise |
| `L2Effects.FeeExists` | internal/pkg/model/fee.go:48-57 | There always is such a number, so the conditions on it can be met for every amount and selector |
| `L2Effects.FeeOfSelector32` | internal/pkg/model/fee.go:97 | With the factor 2^52 of selector 32, an amount of 256000 is charged 1000 |
| `L2Effects.ResolvesIff` | internal/pkg/service/txprocessor/txprocessor.go:685-694 | Looking for a receiver fails if and only if the sender has no account, or the address (with its key, if one is given) has none in the sender's token, or there is no address, or it is the synchronizer that looks; otherwise the receiver has that address, key and token, and is the first such account if a key is given |
| `L2Effects.TypeSaysReceiver` | internal/pkg/model/pooll2tx.go:198-219 | A pool transaction has a type exactly if it names a user account, or nobody but the exit, or an address alone, or a key with the address without owner; and the receiver found is of the kind that the type says |
| `L2Effects.L2Effect` | internal/pkg/service/txprocessor/txprocessor.go:673-793 | An accepted transfer lowers its sender by exactly amount and fee and raises the account it reaches by the amount, also when they are the same; an exit raises the sender's leaf instead; no other balance changes, the fee goes to the total of the sender's token, and the record is filled with the receiver, or the sender's nonce and token |
| `L2Effects.L2AcceptedIff` | internal/pkg/service/txprocessor/txprocessor.go:673-793 | A transfer or exit is accepted if and only if it has a receiver, can be recorded for the circuit, its sender exists with a nonce to spare and a balance of at least amount and fee, the fee fits 128 bits, and what arrives fits 192; it is refused for lack of balance exactly when all is there up to the balance |
| `L2Effects.TransferToAddress` | internal/pkg/service/txprocessor/txprocessor.go:685-694 | Four sent to the address of the second of two accounts: they end with six and nine |
| `Acceptance.OpensIff` | internal/pkg/service/txprocessor/txprocessor.go:195-297 | The part of a batch before the L2 transactions runs if and only if every L1 transaction is accepted in the state that those before it lead to, and all coordinator accounts exist then |
| `Acceptance.BatchAcceptedIff` | internal/pkg/service/txprocessor/txprocessor.go:122-437 | A batch is accepted if and only if that part runs, its counts are within the configured ones, every L2 transaction is accepted where it stands, and every coordinator account that is paid has room for its fees |
| `L1Effects.EffectiveIff` | internal/pkg/service/txprocessor/txprocessor.go:1346-1454 | For every type of L1 transaction, the exact condition on origin, accounts, tokens, address, balance and deposit under which the amount counts, and the one under which the deposit does; what does not count is zero |
| `L1Effects.L1Effect` | internal/pkg/service/txprocessor/txprocessor.go:541-667 | An accepted L1 transaction changes the payer by deposit minus amount and each receiver by the amount, as far as they count, and no other balance; the opened account is the next one with the declared token, address and key; a forced exit raises the leaf |
| `L1Effects.L1AcceptedIff` | internal/pkg/service/txprocessor/txprocessor.go:541-667 | An L1 transaction is accepted if and only if the accounts it refers to exist, what counts of the amount is covered, and everything that arrives fits |
| `L1Effects.L1Recorded` | internal/pkg/service/txprocessor/txprocessor.go:541-667 | Either program accepts exactly the L1 transactions that the ledger does, the builder only if its indices fit and its amounts are representable; the record carries the amounts that count, and in the synchronizer the account it was made from: the opened one or the sender's |
| `L1Effects.OpeningTransfers` | internal/pkg/service/txprocessor/txprocessor.go:1361-1384 | An account opened with ten that passes four on to an account of ten: they end with six and fourteen |
| `LedgerInvariants.L1KeepsInv` | internal/pkg/service/txprocessor/txprocessor.go:541-667 | Every L1 transaction keeps the ledger invariant, extended by the account it creates, and changes no nonce and no fixed field |
| `LedgerInvariants.L2KeepsInv` | internal/pkg/service/txprocessor/txprocessor.go:673-793 | Every L2 transaction keeps the ledger invariant with the same accounts; the sender's nonce goes up by one and no other |
| `LedgerInvariants.RegisterKeeps` | internal/pkg/database/statedb/utils.go:36-80 | Registering the next created account keeps both address entries described by the sequence of creations |
| `BatchConservation.BatchConserves` | internal/pkg/service/txprocessor/txprocessor.go:195-433 | For every token: accounts and exit leaves after a batch hold what the accounts held before plus the flows of its transactions, for any mix of types, self-transfers and repeated exits |
| `BatchConservation.BatchLosesOnlyFees` | internal/pkg/service/txprocessor/txprocessor.go:195-433 | With plain deposits of amount 0 and same-token L2 transfers, the rollup gains exactly the deposits credited and loses only the fees of tokens without a coordinator account |
| `BatchConservation.DepositLosesNothingIff` | internal/pkg/service/txprocessor/txprocessor.go:868-943 | Running an L1 transaction raises the worth of every token by exactly the deposit credited, if and only if it is not a user's plain deposit with a positive amount from its owner's existing account, in that account's token, and covered by balance and deposit |
| `BatchConservation.DepositAmountIsLost` | internal/pkg/service/txprocessor/txprocessor.go:889-899 | A plain deposit of nothing with amount 4 lowers its account from ten to six and credits nobody |
| `BatchConservation.TransferKeepsTokensIff` | internal/pkg/service/txprocessor/txprocessor.go:1037-1057 | Running an L2 transaction lowers the worth of every token by exactly the fee that no coordinator takes, if and only if it moves nothing or sender and receiver have the same token |
| `BatchConservation.TransferCrossesTokens` | internal/pkg/service/txprocessor/txprocessor.go:1037-1057 | A transfer of four from an account of token 0 to one of token 1 is accepted: token 0 loses four and token 1 gains them |
| `Conservation.L1Conserves` | internal/pkg/service/txprocessor/txprocessor.go:541-667 | An L1 transaction changes the worth of a token (accounts, exit leaves, pending fees) by exactly its flow |
| `Conservation.L2Conserves` | internal/pkg/service/txprocessor/txprocessor.go:673-793 | An L2 transaction changes the worth of a token by exactly its flow, and keeps both fee totals equal |
| `BatchConservation.PayoutSettles` | internal/pkg/service/txprocessor/txprocessor.go:394-433 | The payout moves all pending fees of a token into accounts, and nothing else |
| `BatchConservation.HistoryConserves` | internal/pkg/service/txprocessor/txprocessor.go:122-516 | Over any history of accepted batches in either mode, what the accounts hold of a token plus everything ever handed out in exit leaves is exactly what the transactions brought in |
| `ForcedL1.EffectiveMeansOwned` | internal/pkg/service/txprocessor/txprocessor.go:1346-1454 | A positive effective amount from an existing account means a user transaction from that account's own address and in its token |
| `Conservation.EffectiveBounds` | internal/pkg/service/txprocessor/txprocessor.go:1346-1454 | Effective amounts are 0 or the declared value |
| `ForcedL1.OnlyOwnersPay` | internal/pkg/service/txprocessor/txprocessor.go:541-667 | No L1 transaction lowers an account that its sender does not own |
| `ForcedL1.ForcedTxsAccepted` | internal/pkg/service/txprocessor/txprocessor.go:541-667 | With existing accounts and sums that fit, an L1 transaction is accepted whatever balances and tokens are, except that a forced transfer or exit fails exactly when its effective amount is more than the account holds; without a declared deposit it never fails |
| `ForcedL1.ForcedExitWithDepositFails` | internal/pkg/service/txprocessor/txprocessor.go:1163-1205 | A forced exit that declares a deposit it never credits can fail for lack of balance |
| `ForcedL1.TransferDepositCreditedIff` | internal/pkg/model/l1tx.go:151-183 | Running an L1 transfer between user accounts raises the worth of its token by the declared deposit, if and only if nothing is declared, or the transaction is a user's in its sender's token and the low 64 bits of the deposit are not all zero |
| `ForcedL1.ForgottenDeposits` | internal/pkg/model/l1tx.go:151-183 | Of the deposits that the 40-bit encoding can carry, exactly four are forgotten by such a transfer: 2^34 * 10^30 and one, two and three times 2^33 * 10^31 |
| `LowBits.LowBitsZeroIff` | internal/pkg/utils/float40.go:86-104 | A representable amount above zero has its low 64 bits all zero exactly if it is one of these four; every smaller one has not |
| `ForcedL1.LargeDepositIsForgotten` | internal/pkg/model/l1tx.go:151-183 | One of the four, declared on a transfer between two existing accounts: it is typed as a forced transfer and no balance changes |
| `ModeAgreement.OneL2Agrees` | internal/pkg/service/txprocessor/txprocessor.go:673-770 | After the builder ran an L2 transaction, the synchronizer accepts its resolved record exactly when the sender exists, and reaches the same state |
| `ModeAgreement.BatchAgrees` | internal/pkg/service/txprocessor/txprocessor.go:673-770 | After the builder accepted a batch, the synchronizer accepts the resolved batch on an equal ledger exactly if every L2 sender exists, which known types guarantee; ledger, exit tree and fee totals are then the same |
| `Settlement.L2sSettle` | internal/pkg/service/synchronier/synchronier.go:283-291 | Publishing, re-typing and replaying the L2 transactions gives the synchronizer the builder's state |
| `Settlement.Settlement` | internal/pkg/service/synchronier/synchronier.go:228-291 | Whatever the builder accepts, within the levels, its published bytes make the synchronizer, from the same ledger and queue, reach exactly the same ledger, exit tree and fee totals, also for receivers given by address; if and only if the coordinator announced no account, because the synchronizer reads the announced transactions but hands none to the processor |
| `Settlement.SettlementWithoutFees` | internal/pkg/service/batchbuilder/batchbuilder.go:156-219 | With no fee slots and no announcements published at all, as the running node does, the synchronizer reaches the same ledger, exit tree and fee totals |
| `Settlement.HistorySettles` | internal/pkg/service/synchronier/synchronier.go:201-389 | A synchronizer that starts from nothing and reads what is posted for every batch ends with exactly the builder's ledger, whatever batches were built, if and only if none of them announced a coordinator's account |
| `Settlement.ReplayedTypes` | internal/pkg/model/l2Tx.go:96-106 | The published receiver is a user account for a transfer and 1 for an exit, so setting the type again gives a transfer or an exit as before |
| `Jobs.BothAgree` | internal/pkg/service/txsellector/txsellector.go:161-176 | A batch that the builder's database accepts and whose senders exist runs on an equal synchronizer's database too, with an equal ledger |
| `Jobs.Selector.RunBoth` | internal/pkg/service/txsellector/txsellector.go:161-176 | Both databases end at the next batch with the same ledger, or the builder's run failed; the second run never fails; each database can be reset to what it was, exactly unless the batch ran and pruning to a single checkpoint took the one before |
| `Jobs.Selector.CheckSenders` | internal/pkg/service/txsellector/txsellector.go:146-160 | The check succeeds if and only if every sender has an account with the transaction's nonce, taken before the batch; the transactions then are the same with the senders' tokens |
| `Jobs.CheckedIff` | internal/pkg/service/txsellector/txsellector.go:146-160 | The specified check succeeds exactly when every transaction's account exists, with an index that fits and the transaction's nonce, and only fills in the tokens of those accounts |
| `Jobs.StaleIsRefused` | internal/pkg/service/txsellector/txsellector.go:146-160 | With an unknown sender or another nonce nothing is selected; otherwise what is selected is the run of the batch with the senders' tokens |
| `Jobs.Selector.BuildBatchL2` | internal/pkg/service/txsellector/txsellector.go:139-337 | A step's batch is built on both databases, or each can be reset to what it was wherever it failed, exactly unless pruning to a single checkpoint took that away; with a stale nonce or unknown sender nothing is touched; after a panic while saving, which counts as success, the first database is back and the second one batch ahead |
| `Jobs.Selector.Process` | internal/pkg/service/txsellector/txsellector.go:63-137 | A step ends with both databases at the next batch and the same ledger, or both back at the batch they started from, as always with a stale nonce; they are in step afterwards if and only if saving did not panic and no batch had to be given up on a database pruned to a single checkpoint, and exactly the databases where that happened are closed |
| `Jobs.Selector.Run` | internal/pkg/service/txsellector/txsellector.go:45-61 | In every run of steps, whatever fails, the two databases hold the same batch number and the same ledger; the run can only end early at a step that panicked, or that gave up a batch on a database that retains a single checkpoint |
| `Jobs.OpenDatabase` | internal/pkg/database/statedb/statedb.go:131-158 | A database on an empty directory is idle at batch 0 with the empty ledger |
| `Jobs.OpenSelector` | internal/pkg/service/txsellector/txsellector.go:35-43 | Two new databases are in step |
| `Genesis.GenesisIsAccepted` | internal/pkg/service/txsellector/txsellector.go:65-88 | The empty genesis batch is accepted in both modes and leaves the empty ledger |
| `Genesis.FirstBatchIsAccepted` | internal/pkg/service/txprocessor/txprocessor.go:122-516 | A batch that opens two accounts with ten and five and moves four between them is accepted and publishable, and ends with six and nine; so the conditions of the theorems about batches can be met |
| `Jobs.Builder.Process` | internal/pkg/service/batchbuilder/batchbuilder.go:107-154 | A step ends at batch b + 1 with the batch processed and its records published, or at batch b with ledger, index, working storage and "last" view as before; it is closed instead exactly when the batch had run, b is above 0 and pruning to a single checkpoint took the one of b before the step failed |
| `Jobs.Builder.ForgeBatchOnChain` | internal/pkg/service/batchbuilder/batchbuilder.go:338-360 | Publication succeeds exactly when the run, the proof, the encoding and the sending do; the store can be reset to the batch before if and only if the run failed, nothing was pruned, more than one checkpoint is retained, or the batch is 0 |
| `Jobs.Builder.Publish` | internal/pkg/service/batchbuilder/batchbuilder.go:156-219 | What is sent are the records of the transactions, user L1 before L2, and no fee slots |
| `Jobs.SentSettles` | internal/pkg/service/batchbuilder/batchbuilder.go:156-219 | What a step sends for an accepted batch, and nothing more, makes a synchronizer with the same ledger and queue reach the builder's ledger, exit tree and fee totals |
| `Jobs.Attempt` | internal/pkg/service/txprocessor/txprocessor.go:122-128 | A run leaves an idle store at the next batch or the batch before; a reset returns to the batch before if and only if the run failed, nothing was pruned, more than one checkpoint is retained or the batch is 0, and otherwise closes the store |
| `Jobs.GiveUp` | internal/pkg/database/statedb/statedb.go:265-279 | A reset to a batch that is still there brings back its ledger, tree, index and "last" view, and a second reset changes nothing; where it is not, the store is closed |
| `TraceTheorems.TraceIsExact` | internal/pkg/service/txprocessor/txprocessor.go:226-230 | Slot i of the intermediate states holds the last index, state root, exit root and fee totals after the first min(i + 1, nTx) transactions, whatever runs later; only an exit of amount 0 in the middle of the batch leaves its exit root blank |
| `TraceTheorems.ExitRootIsExactIff` | internal/pkg/service/txprocessor/txprocessor.go:346-353 | A slot's exit root is the one after its transaction if and only if that is no exit of amount 0 in the middle of the batch, or no exit has left a leaf |
| `TraceTheorems.OpeningView` | internal/pkg/service/txprocessor/txprocessor.go:276-279 | After the L1 loops the slots of L1 transactions are written in bounds and all others are blank |
| `TraceTheorems.LastSlots` | internal/pkg/service/txprocessor/txprocessor.go:368-392 | From the last transaction's slot on, every slot holds the final state, also when there is no transaction |
| `FeeTheorems.PayoutIsRecorded` | internal/pkg/service/txprocessor/txprocessor.go:394-437 | The fee slots hold the root after min(i + 1, n) payments, the accounts paid in order, and exactly the total accumulated for each; the rest is zero |
| `FeeTheorems.TotalsAgreeAlways` | internal/pkg/service/txprocessor/txprocessor.go:990-1012 | After any number of L2 transactions, the total accumulated for a coordinator account equals the total collected for its token, and there is one total per account |
| `FeeTheorems.FeesMatchPlan` | internal/pkg/service/txprocessor/utils.go:39-52 | The fee plan lists the tokens of the coordinator accounts in their order, zero after the last, and the fee totals in its order are those of the accounts |
| `CircuitInputs.FormatAccumulatedFees` | internal/pkg/service/txprocessor/utils.go:39-52 | The first n slots hold the collected total of their token, all others zero |
| `RunLinks.LogIsBatch` | internal/pkg/service/txprocessor/txprocessor.go:212-224 | The transactions behind the public input are those of the batch in order, effective amounts and receivers filled in, and the new last index is that of the final accounts |
| `RunLinks.ExitReportIsExact` | internal/pkg/service/txprocessor/txprocessor.go:448-480 | The exit infos are the accounts that exit in a user or L2 transaction, each once, in the order of first exits; they are exactly the leaves of the exit tree, each with the sum that the account took out, if and only if the exits among the coordinator's transactions are covered: the account also exits in an L2 transaction, or in a user one while the coordinator's took nothing |
| `RunLinks.CreatedAccountsAreNew` | internal/pkg/service/txprocessor/txprocessor.go:203-210 | The created accounts are oldCurrentIdx + 1..CurrentIdx in order, with the fixed fields they still have |
| `RunLinks.SynchronizerEntries` | internal/pkg/service/txprocessor/txprocessor.go:355-365 | The list of processed exits has one place per user and L2 transaction in order; coordinator transactions leave theirs empty |
| `Exits.ReportOrder` | internal/pkg/service/txprocessor/txprocessor.go:448-480 | The report lists every exiting account once, at its first exit |
| `Exits.ReportIsExitTree` | internal/pkg/service/txprocessor/txprocessor.go:1251-1342 | The exit tree has a leaf exactly for each account that exits in some transaction, with the sum of what it took out; the report has exactly those that exit in a user or L2 transaction, with everything if there is an L2 exit and with what the user transactions took otherwise |
| `Exits.CoveredIff` | internal/pkg/service/txprocessor/txprocessor.go:248-281 | For coordinator transactions that are not of user origin, an exit is covered if and only if its account exits in another transaction of the batch |
| `Exits.ReportHasLeaves` | internal/pkg/service/txprocessor/txprocessor.go:448-480 | Without exits among the coordinator's transactions, the leaves of the report are those of the exit tree, field by field |
| `BatchConservation.BatchLeaves` | internal/pkg/service/txprocessor/txprocessor.go:1261-1269 | Every leaf of a batch's exit tree has the token, key and address of its account, and nonce 0 |
| `TxProcessors.TxProcessor.BuildExitInfos` | internal/pkg/service/txprocessor/txprocessor.go:448-480 | The loop over processed exits gives first-exit order and each account's last leaf |
| `TxProcessors.TxProcessor.DiffIsExact` | internal/pkg/service/txprocessor/txprocessor.go:844-863 | Every noted account is the final stored one, and every account not noted is unchanged |
| `FeePayout.FilterKeepsFirsts` | internal/pkg/service/txprocessor/txprocessor.go:283-297 | Of the coordinator accounts, the first one for each token is kept, in order; it fails exactly when one does not exist |
| `FeePayout.CoordMapIs` | internal/pkg/database/statedb/utils.go:143-155 | The map has exactly the tokens of the accounts, each with the account that has it |
| `FeePayout.AccrueKeepsTotals` | internal/pkg/service/txprocessor/txprocessor.go:990-1012 | A fee reaches both totals of its token and no other, and accruing never fails |
| `FeePayout.PayFeesIs` | internal/pkg/service/txprocessor/txprocessor.go:394-433 | Each coordinator account is credited its total exactly once and nobody else is touched |
| `AddressIndex.LookupByKeyIsSmallest` | internal/pkg/database/statedb/utils.go:107-139 | The lookup by address, key and token finds the smallest index created with them, and finds something exactly when there is one |
| `AddressIndex.LookupByAddrIsSound` | internal/pkg/database/statedb/utils.go:86-100 | The lookup by address and token finds something exactly when an account with them exists, and always such an account |
| `AddressIndex.LookupByAddrSmallestIff` | internal/pkg/database/statedb/utils.go:82-100 | It finds the smallest index, as documented, if and only if every later account of that address and token has the first one's key or none |
| `AddressIndex.LookupByAddrNotSmallest` | internal/pkg/database/statedb/utils.go:70-75 | A second key for the same address makes it answer the second account |
| `StateDBs.StateDB.SetIdxByEthAddrBJJ` | internal/pkg/database/statedb/utils.go:36-80 | Both entries are written unless the lookup already answers a smaller index |
| `StateDBs.StateDB.GetIdxByEthAddrBJJ` | internal/pkg/database/statedb/utils.go:107-139 | The lookup answers as the plain address maps do |
| `StateDBs.StateDB.GetTokenIDsFromIdxs` | internal/pkg/database/statedb/utils.go:143-155 | The loop computes the coordinator map, or fails when an account is missing |
| `Keys.StoreKeyInjective` | internal/pkg/database/statedb/utils.go:15-27 | Two entries with the same key bytes are the same entry, so index, hash, tree, address and counter entries never meet |
| `TxProcessors.TxProcessor.ProcessL1Tx` | internal/pkg/service/txprocessor/txprocessor.go:541-667 | The transaction is prepared in place and applied; exit and created account are reported as they are |
| `TxProcessors.TxProcessor.ProcessL2Tx` | internal/pkg/service/txprocessor/txprocessor.go:673-793 | The transaction is resolved or stamped in place and applied; whom it reaches, what it costs and when it is refused is stated by `L2Effect`, `ResolvesIff` and `L2AcceptedIff` |
| `TxProcessors.TxProcessor.ComputeEffectiveAmounts` | internal/pkg/service/txprocessor/txprocessor.go:1346-1454 | The chain of early returns gives the specified effective amounts, and nothing else of the transaction changes; `EffectiveIff` says which they are |
| `TxProcessors.TxProcessor.ApplyCreateAccount` | internal/pkg/service/txprocessor/txprocessor.go:797-839 | The next index is created with the deposit, and becomes the current one |
| `TxProcessors.TxProcessor.ApplyDeposit` | internal/pkg/service/txprocessor/txprocessor.go:868-943 | Sender and receiver change as specified, also when they are the same object |
| `TxProcessors.TxProcessor.ApplyTransferL1` | internal/pkg/service/txprocessor/txprocessor.go:951-1069 | Sender and receiver change as specified, also when they are the same object |
| `TxProcessors.TxProcessor.ApplyTransferL2` | internal/pkg/service/txprocessor/txprocessor.go:951-1069 | The same with nonce and fee, and an explicit receiver before the declared one; the fee is the one of `FeeIs` |
| `TxProcessors.TxProcessor.ApplyCreateAccountDepositTransfer` | internal/pkg/service/txprocessor/txprocessor.go:1073-1159 | The new account keeps the deposit less the amount, which its receiver, possibly itself, gets |
| `TxProcessors.TxProcessor.ApplyExitL1` | internal/pkg/service/txprocessor/txprocessor.go:1163-1343 | The account pays the effective amount; the leaf is made or raised unless the declared amount is 0 |
| `TxProcessors.TxProcessor.ApplyExitL2` | internal/pkg/service/txprocessor/txprocessor.go:1163-1343 | The same with nonce and fee, which is the one of `FeeIs` |
| `TxProcessors.TxProcessor.CreateAccount` | internal/pkg/service/txprocessor/txprocessor.go:844-852 | A stored account is also noted in the diff |
| `TxProcessors.TxProcessor.UpdateAccount` | internal/pkg/service/txprocessor/txprocessor.go:856-863 | A stored account is also noted in the diff, and no other index shares its object |
| `TxProcessors.TxProcessor.ProcessL1UserTxs` | internal/pkg/service/txprocessor/txprocessor.go:195-246 | The loop over user transactions is the fold of its rounds, records and all, and fails exactly when a round does |
| `TxProcessors.TxProcessor.ProcessL1CoordinatorTxs` | internal/pkg/service/txprocessor/txprocessor.go:248-281 | The loop over coordinator transactions likewise; only the builder counts them |
| `TxProcessors.TxProcessor.ProcessL2Txs` | internal/pkg/service/txprocessor/txprocessor.go:331-366 | The L2 loop likewise |
| `TxProcessors.TxProcessor.FilterCoordIdxs` | internal/pkg/service/txprocessor/txprocessor.go:283-297 | The loop keeps the first account of each token |
| `TxProcessors.TxProcessor.GetFeePlanTokens` | internal/pkg/service/txprocessor/txprocessor.go:520-532 | The tokens of the coordinator accounts in their order |
| `TxProcessors.TxProcessor.DistributeFees` | internal/pkg/service/txprocessor/txprocessor.go:394-433 | Every coordinator account is paid and the root after each payment recorded while there is a slot |
| `StoreRuns.StoreRefinesPlainMaps` | internal/pkg/database/statedb/statedb.go:332-470 | Any sequence of creates, updates, index changes, checkpoints, prunings and resets on the idx to hash to bytes store, with any of them failing, behaves as on plain maps: a map from index to account, the set of accounts that the tree lacks, and one such pair per checkpoint |
| `StoreRuns.OpRefines` | internal/pkg/database/statedb/statedb.go:332-470 | One operation succeeds exactly when it does on the plain maps, and leaves what it leaves there |
| `StoreRuns.NewStoreRefines` | internal/pkg/database/kvdb/kvdb.go:129-160 | A new store is the empty plain maps, so the sequences can start there |
| `StoreRuns.DamagedIff` | internal/pkg/database/statedb/statedb.go:432-470 | Creates and failed creates leave a storage whose tree has exactly the stored accounts, and so does an update, except exactly when an account that fits is stored under an index that does not exist |
| `StoreRuns.ReadsAre` | internal/pkg/database/statedb/statedb.go:332-353 | Reading gives the account of the plain map, and the tree has exactly the hashes of the accounts that it does not lack |
| `Stores.CreateAccountRefines` | internal/pkg/database/statedb/statedb.go:358-418 | Creating through the hash indirection is creating in a plain map, address entries included |
| `Stores.UpdateAccountRefines` | internal/pkg/database/statedb/statedb.go:423-470 | Updating through the hash indirection is updating a plain map |
| `Stores.GetRefines` | internal/pkg/database/statedb/statedb.go:332-353 | Reading through the hash indirection is reading a plain map |
| `Stores.WriteKeepsLeaves` | internal/pkg/database/statedb/statedb.go:373-418 | Writing bytes under their hash disturbs no other account |
| `Stores.TreeIsOfAccounts` | internal/pkg/database/statedb/statedb.go:432-470 | The tree holds exactly the hash of each account's bytes, so its root is a function of the accounts |
| `StateDBs.CreateAccountInTreeDB` | internal/pkg/database/statedb/statedb.go:373-418 | The puts and the tree update leave the specified storage, also when they fail half-way |
| `StateDBs.UpdateAccountInTreeDB` | internal/pkg/database/statedb/statedb.go:432-470 | The puts and the tree update leave the specified storage, also when they fail half-way |
| `StateDBs.StateDB.CreateAccount` | internal/pkg/database/statedb/statedb.go:358-367 | The object's ledger gains the account, exactly when the plain map would |
| `StateDBs.StateDB.UpdateAccount` | internal/pkg/database/statedb/statedb.go:423-430 | The object's ledger changes that account, exactly when the plain map would |
| `StateDBs.StateDB.Reset` | internal/pkg/database/statedb/statedb.go:265-279 | After a successful reset the tree is over the new storage, and the ledger is that of the checkpoint |
| `StateDBs.StateDB.LocalReset` | internal/pkg/database/statedb/statedb.go:521-540 | A local database is reset from its own checkpoints or from the synchronizer's |
| `Accounts.RoundTrip` | internal/pkg/model/account.go:40-140 | An account whose nonce and balance fit encodes, and decodes to itself with its key in canonical form; to exactly itself if and only if the key was canonical |
| `Layouts.EncodesIff` | internal/pkg/model/account.go:40-80 | An account has bytes exactly if its nonce fits five of them and its balance 24 |
| `Layouts.HashedElements` | internal/pkg/model/account.go:82-96 | The four hashed numbers are token, nonce and sign packed in this order from the low end, balance, key and address |
| `Accounts.CanonKeyIsMaskAndMod` | internal/pkg/model/account.go:58-75 | The canonical form of a key is its y masked to 254 bits and reduced modulo the field |
| `Accounts.HashInjective` | internal/pkg/model/account.go:98-104 | Equal hashes mean equal bytes |
| `Accounts.ElementsInField` | internal/pkg/model/account.go:82-96 | The four elements that are hashed are below the field modulus |
| `Accounts.AccountBytes` | internal/pkg/model/account.go:40-79 | The copies at their offsets give the specified 128 bytes |
| `KVDBs.KVDB.MakeCheckpoint` | internal/pkg/database/kvdb/kvdb.go:417-457 | The next batch number is stored and checkpointed, and the "last" view renewed from it |
| `KVDBs.KVDB.Reset` | internal/pkg/database/kvdb/kvdb.go:196-274 | Later checkpoints are deleted, then the wanted one is opened; it stops at the first error with the storage closed |
| `KVDBs.KVDB.ResetFromSynchronizer` | internal/pkg/database/kvdb/kvdb.go:278-349 | All checkpoints are thrown away and one is taken over; the "last" view stays as it was |
| `KVDBs.KVDB.ListCheckpoints` | internal/pkg/database/kvdb/kvdb.go:485-514 | The numbers come sorted and complete, or an error exactly when there is a gap and gaps are checked |
| `KVDBs.KVDB.DeleteOldCheckpoints` | internal/pkg/database/kvdb/kvdb.go:518-534 | Exactly the newest keep remain, unless none is to be deleted or a gap is found |
| `KVDBs.KVDB.NewKVDB` | internal/pkg/database/kvdb/kvdb.go:129-160 | Opening reads everything back from the checkpoint of the batch that was current |
| `KVDBs.KVDB.SetCurrentIdx` | internal/pkg/database/kvdb/kvdb.go:393-412 | The stored index follows the one in memory, which changes even when storing fails |
| `KVDBs.KVDB.CopyCheckpoint` | internal/pkg/database/kvdb/kvdb.go:539-555 | A copy is independent of the checkpoint |
| `Checkpoints.GapScan` | internal/pkg/database/kvdb/kvdb.go:485-514 | Comparing neighbours in a sorted list finds every gap |
| `Checkpoints.TailIsNewest` | internal/pkg/database/kvdb/kvdb.go:518-534 | Dropping the front of the list leaves exactly the newest keep |
| `Checkpoints.CheckpointKeepsSound` | internal/pkg/database/kvdb/kvdb.go:417-457 | After a checkpoint, the "last" view is what the working storage holds; older checkpoints are untouched |
| `Checkpoints.PruneKeepsSound` | internal/pkg/database/kvdb/kvdb.go:518-534 | Pruning keeps exactly the newest keep, gap-free, and touches nothing else |
| `Checkpoints.ResetRestores` | internal/pkg/database/kvdb/kvdb.go:196-274 | A reset succeeds exactly when the batch is 0 or its checkpoint is there, and then memory, working storage and "last" view are those of the checkpoint; otherwise the store is closed and all later checkpoints are gone |
| `Checkpoints.TakeoverIsSound` | internal/pkg/database/kvdb/kvdb.go:278-349 | A takeover succeeds exactly when the checkpoint exists; the store is idle afterwards if and only if it has no "last" view or that happened to show the batch |
| `Checkpoints.RollbackAfterCheckpoint` | internal/pkg/database/kvdb/kvdb.go:196-274 | Even after the next checkpoint, pruned or not, a reset to the batch before restores everything, exactly unless a single checkpoint is retained and was pruned to |
| `Checkpoints.AdvancedReturns` | internal/pkg/database/kvdb/kvdb.go:196-274 | From a processed batch a reset returns to the one before, if and only if its checkpoint was not pruned or is not needed |
| `Pruning.EveryInterleaving` | internal/pkg/database/kvdb/kvdb.go:417-534 | For any interleaving of MakeCheckpoint with its pruning goroutines, from any number of checkpoints: numbers stay a gap-free run ending at the current batch, checkpoint n stores batch n, the newest keep are all there, and the "last" view is the checkpoint of the current batch between checkpoints; once quiet, no others are left if and only if a checkpoint was started or they were going to be deleted anyway |
| `Pruning.OpenedIsOrderly` | internal/pkg/database/kvdb/kvdb.go:129-160 | An opened store, with however many checkpoints, is one that the interleavings can start from |
| `Pruning.BackIsOrderlyIff` | internal/pkg/database/kvdb/kvdb.go:196-274 | A reset between two checkpoints, with a pruner at work, keeps all of this for every later interleaving if and only if nothing the pruner has still listed is among the newest keep of the batch gone back to |
| `Pruning.UnsafeBackLoses` | internal/pkg/database/kvdb/kvdb.go:196-274 | After a reset that is not so, the pruner going on deletes one of the newest keep of that batch |
| `Pruning.StepKeepsNewest` | internal/pkg/database/kvdb/kvdb.go:483-534 | No step of any thread deletes a checkpoint among the newest keep, and no listing ever finds a gap |
| `Pruning.StepKeepsView` | internal/pkg/database/kvdb/kvdb.go:64-100 | No write made while a batch is processed is visible in the "last" view |
| `Pruning.NewestSurvive` | internal/pkg/database/kvdb/kvdb.go:518-534 | What is among the newest keep at the end was never deleted on the way |
| `Codec.RecordRoundTrip` | internal/pkg/model/l2Tx.go:218-275 | An availability record decodes to the transaction it was made from while its indices fit the levels |
| `Layouts.RecordFields` | internal/pkg/model/l2Tx.go:218-275 | A record exists exactly when its indices fit six bytes and its amount is representable; it is sender, receiver, float and fee at their places, the most significant byte first |
| `Layouts.PostedRecordAt` | internal/pkg/service/batchbuilder/batchbuilder.go:221-260 | The published data are exactly the records of all transactions in equal slots: the users' first, then the coordinator's, then L2 |
| `Layouts.PostedFeeAt` | internal/pkg/service/batchbuilder/batchbuilder.go:261-276 | The published fee slots are the fee indices in order, each in as many bytes as an index has, and zero after the last; there are four |
| `Codec.IdxSurvivesIff` | internal/pkg/model/l1tx.go:284-336 | An index survives being cut to the levels exactly when it is below 2^nLevels |
| `Codec.RecordCuts` | internal/pkg/model/l1tx.go:318-336 | Any availability record decodes to its amount and fee, and to its indices as far as they survive the cut |
| `Codec.BytesDataAvailability` | internal/pkg/model/l1tx.go:284-313 | Filling the zeroed buffer gives the record |
| `Codec.RollupForgeBatch` | internal/pkg/service/batchbuilder/batchbuilder.go:221-279 | The appended buffers are the records, user before coordinator before L2, and the fee slots |
| `Slicing.RollupForgeBatchArgs` | internal/pkg/service/synchronier/synchronier.go:511-641 | The slicing loops read the records of user transactions, the L2 records behind the user and coordinator records, the announced coordinator transactions and the fee indices, and fail exactly when one of them does not parse |
| `Slicing.L2BytesRoundTrip` | internal/pkg/service/synchronier/synchronier.go:584-600 | Written L2 records read back as the published transactions |
| `Slicing.FeeBytesRoundTrip` | internal/pkg/service/batchbuilder/batchbuilder.go:261-276 | Fee slots read back as the indices put in, zero slots dropped |
| `Slicing.BatchRoundTrip` | internal/pkg/service/synchronier/synchronier.go:511-641 | The synchronizer reads exactly what the builder wrote: the user transactions with their effective amounts, cut to the levels, the announced transactions of the coordinator, the L2 transactions and the fee indices |
| `Slicing.L1BytesRoundTrip` | internal/pkg/service/synchronier/synchronier.go:569-583 | Written records of user transactions read back as their effective amounts and cut indices |
| `CoordTxBytes.CoordRoundTrip` | internal/pkg/model/l1tx.go:393-510 | The 101 bytes exist exactly for transactions that are not of user origin, and read back as the transaction if and only if it opens an account for its signer without moving anything |
| `Layouts.CoordFields` | internal/pkg/model/l1tx.go:393-414 | The 101 bytes are v, s and r of the signature, the key with its sign on top, and the token |
| `CoordTxBytes.CoordRecordsOpenAccounts` | internal/pkg/service/synchronier/synchronier.go:252-268 | Whatever the bytes, an announced transaction that can be read opens an account, without deposit or amount |
| `CoordTxBytes.BytesCoordinatorTx` | internal/pkg/model/l1tx.go:393-414 | The copies at their offsets give the specified 101 bytes |
| `UserTxBytes.UserTxRoundTrip` | internal/pkg/model/l1tx.go:342-452 | A user transaction has bytes exactly when its indices fit and its amounts are representable; they decode to it without its effective amounts, and with the same type |
| `Layouts.GenericFields` | internal/pkg/model/l1tx.go:342-383 | The 78 bytes are address, key, sender, deposit, amount, token and receiver at their places |
| `Layouts.BigEndian` | internal/pkg/model/common.go:153-180 | Digit i of an n-byte number counts 256 to the power n - 1 - i: the most significant digit comes first |
| `UserTxBytes.BytesGeneric` | internal/pkg/model/l1tx.go:342-383 | The copies at their offsets give the specified bytes, or the error of the first field that does not fit |
| `UserTxBytes.SwapEndianness` | internal/pkg/utils/utils.go:16-23 | The bytes in reverse order |
| `Float40.EncodeExact` | internal/pkg/utils/float40.go:86-104 | A number encodes exactly when it is m * 10^e with m below 2^35 and e at most 31; the low 35 bits of the code are such an m and the bits above are the least e; it decodes back and fits 40 bits |
| `Float40.NewFloat40` | internal/pkg/utils/float40.go:86-104 | The loop computes the specified encoding |
| `Float40.NewFloat40Floor` | internal/pkg/utils/float40.go:111-128 | The loop computes the specified rounding |
| `Float40.FloorRange` | internal/pkg/utils/float40.go:111-128 | Rounding down succeeds exactly below 2^35 * 10^31 |
| `Float40.FloorRoundsDown` | internal/pkg/utils/float40.go:111-128 | Rounding agrees with the exact encoding where that succeeds, and otherwise goes down by at most ten parts in 2^35 |
| `FloatGaps.FloorIsGreatestIff` | internal/pkg/utils/float40.go:111-128 | Rounding arrives at the greatest representable number not above its input, if and only if the input is in none of the gaps from 2^35 * 10^(e-1) up to the first multiple of 10^e |
| `FloatGaps.FloorDropsIff` | internal/pkg/utils/float40.go:111-128 | Of two numbers the smaller one rounds to more, if and only if the larger one is in such a gap and the smaller one is one of the last few numbers before it |
| `FloatGaps.FloorIsNotMonotone` | internal/pkg/utils/float40.go:111-128 | 2^35 rounds to 34359738360, below what 2^35 - 1 gives: the first gap |
| `Float40.BytesRoundTrip` | internal/pkg/utils/float40.go:44-63 | An encoded amount survives the trip through its five bytes |
| `PublicInput.FixedLayout` | internal/pkg/model/zk.go:458-560 | The string's length and the bounds of its sections depend on the configuration only; what stands where is stated by the rows that follow |
| `PublicInput.HeaderFields` | internal/pkg/model/zk.go:463-491 | Bytes 0..6 are the old last index, 6..12 the new one, 12..44 the old root's digits from the front, 44..76 the new state root and 76..108 the new exit root |
| `PublicInput.L1DataAt` | internal/pkg/model/zk.go:495-505 | Slot i of the L1 section is the data of L1 transaction i, and zero when there is none |
| `PublicInput.FeeIdxAt` | internal/pkg/model/zk.go:536-542 | Slot i of the fee section is fee index i in as many bytes as an index has |
| `PublicInput.TrailerFields` | internal/pkg/model/zk.go:546-560 | The last six bytes are the chain and the batch number |
| `PublicInput.RecordAt` | internal/pkg/model/zk.go:507-532 | Record i of the string is the i-th transaction's, L1 before L2, and zero when there is none |
| `PublicInput.OldRootField` | internal/pkg/model/zk.go:478-481 | The old root's field is its usual 32-byte form exactly when the root has no leading zero byte; different roots can share it otherwise |
| `InputTheorems.AcceptedFits` | internal/pkg/model/zk.go:458-560 | The public input of every accepted batch fits the layout, with the final last index and roots, while indices fit the levels and chain and batch number their fields |
| `InputTheorems.HeaderIsBatch` | internal/pkg/model/zk.go:463-491 | The header and trailer of an accepted batch's input: the last index before and after, the state root before and after, the root of its exit tree, chain and batch number, each at its place |
| `InputTheorems.L1SlotIsTx` | internal/pkg/model/zk.go:495-505 | Of the L1 slots, the first hold the 78 bytes of the batch's user and coordinator transactions in order, and the others are zero |
| `InputTheorems.FeeSlotIsPaid` | internal/pkg/model/zk.go:536-542 | The fee slots hold the coordinator accounts that are paid, in order, and zero after the last |
| `InputTheorems.RecordsArePublished` | internal/pkg/model/zk.go:507-532 | Of the MaxTx slots of an accepted batch, the first nTx hold the availability records of its transactions in order, and the others are zero |
| `CircuitInputs.ZKInputs.constructor` | internal/pkg/model/zk.go:314-421 | Everything starts at zero, in arrays of the configured lengths |
| `CircuitInputs.ZKInputs.ToHashGlobalData` | internal/pkg/model/zk.go:458-560 | The buffers are filled to the specified string, whose fields `HeaderFields` and the rows after it name, and it fails exactly when something does not fit |
| `CircuitInputs.InputsAreBytes` | internal/pkg/service/txprocessor/txprocessor.go:212-224 | The bytes of an L1 transaction can be made exactly when its numbers are in the circuit's range |

## Left out

* TxSelector mode of the processor: no job uses it, and without an exit tree there is nothing to conserve.
* The per-transaction leaves of the circuit inputs (compressed transactions, sibling paths, key bits): they
  repeat fields of the transactions and the Merkle library's proofs.
* Merkle proofs in the exit report, and the debugging output of `ProcessTxs`.
* Postgres, Redis, HTTP and RPC: queries, rows, events, ABI packing and sending transactions.
* Transaction identifiers (`SetID`) and the hash over the public input: foreign hashes over what is modelled.
* `CheckEnoughBalance`: nothing that is modelled calls it.
* The single steps of a reset: `Pruning` interleaves pruning goroutines with whole resets, and the jobs with
  pruning before or after each step.
* What the selector does after a step that left its two databases out of step, and a panic at the first batch.
* The values of the fee factors.
* The object identity of an exit leaf after its batch; leaves are values here.
- CircuitInputs.ZKInputs.constructor: only the fields that the model has, without the leaves per transaction.
- Float40.NewFloat40: negative numbers are outside, as amounts are never negative.
