# Money transfer inside a database transaction (go-simple-bank `db/repository/store.go`)

This project models the `Store` of go-simple-bank's repository layer in Dafny.
The `Store` moves an amount of money from one account to another as a single
database transaction. The model has two parts.

- **`execTxn`** is the transaction wrapper. It begins a transaction and runs a
  unit of work on a repository bound to that transaction. If the unit of work
  fails, it rolls back and reports the error. If the rollback fails too, it
  reports the composite `tx err: …, rb err: …`. If the unit of work succeeds,
  it commits and reports what the commit reports.
- **`TransferTx`** is the transfer. Inside `execTxn` it makes these calls in order:
  1. it creates the transfer record from the params;
  2. it creates a pending DEBIT ledger entry for the source, under the caller's reference;
  3. it creates a pending CREDIT ledger entry for the destination, under a generated reference;
  4. it locks, reads and updates both accounts, the lower account id first.

  The first call that fails ends the unit of work.

The database is an in-memory store. Account balances are kept in a map from id
to balance. Transfers and ledger entries (the repository calls these
`Transaction`) are kept in sequences. Every `GetAccountForUpdate` call is
recorded in `lockTrace`. A transaction takes a snapshot of the stored data when
it begins, and a rollback restores that snapshot.

Files:

- `txn.dfy` (module `Txn`): how `execTxn` picks the error it returns (`TxnOutcome`) and the composite rollback error (`RollbackError`).
- `balances.dfy` (module `Balances`): `Total`, the sum of all balances, and how one balance update changes it.
- `transfers.dfy` (module `Transfers`): the entities, and a reference definition of the unit of work. Each repository call is a `Step`. `Apply` performs one step and does nothing once an error has occurred. `Run` performs a list of steps. `Work` runs the steps in `Order`, a single routine that locks the lower id first. `TxnSpec` wraps `Work` in the transaction. All lemmas about transfers are in this file.
- `store.dfy` (module `Repository`): the `Store` class. It holds the four repository calls as methods that may fail, each with a contract of its own, and `TransferTx` written with the code's two duplicated branches. The six composite methods (`CreateRecords`, `SourceFirst`, `DestinationFirst`, `RunTransfer`, `ExecTxn` and `TransferTx`) are proved equal to the reference definition (`Run`, `Apply`, `Work` and `TxnSpec`).

Failures come from three kinds of inputs:

- `TxnFaults` gives the outcome of begin, rollback and commit.
- A map of `Step`s to error messages says which repository calls fail and with what error.
- A lock or update of a missing account fails with `sql: no rows in result set`, the message of database/sql's `ErrNoRows`.

## Model

| member | source | states |
|---|---|---|
| `Txn.TxnOutcome` | db/repository/store.go:31-50 | A begin error is returned as is, whatever the unit of work would do. A failed unit of work is returned unchanged when rollback succeeds, and as the composite error when rollback fails. A successful unit of work returns exactly the commit's result. Success is reported if and only if begin, the unit of work and commit all succeed. |
| `Txn.RollbackError` | db/repository/store.go:42-43 | The composite error starts with `tx err: ` followed by the unit-of-work error, has `, rb err: ` in the middle and ends with the rollback error. It is longer than either error, so it never equals either one. |
| `Txn.RollbackErrorKeepsBoth` | db/repository/store.go:42-43 | Both errors can be read back from fixed positions of the composite, so neither is dropped. |
| `Balances.TotalUpdate` | db/repository/store.go:123-126 | Setting one existing balance changes the total of all balances by exactly the change in that balance. |
| `Transfers.FirstLocked` | db/repository/store.go:116 | The side locked first has the lower account id. It is the source exactly when the source id is the lower one. |
| `Transfers.LockOrderSymmetric` | db/repository/store.go:116-158 | Two transfers in opposite directions between the same accounts take their locks in the same order, so neither can hold one lock while waiting for the other's. |
| `Transfers.DeltaOf` | db/repository/store.go:125-166 | The change applied to each side: − amount for the source (lines 125 and 166), + amount for the destination (lines 139 and 152). It has no contract of its own; `LockPhase` and `WorkBalances` state what it does to the balances. |
| `Transfers.TransferOf` | db/repository/store.go:75-81 | The transfer record built from the params. It has no contract of its own; `WorkRecords` states that it copies each field. |
| `Transfers.EntryFor` | db/repository/store.go:87-107 | The two ledger entries. It has no contract of its own; `WorkRecords` states their account, amount, type, currency, status and reference. |
| `Transfers.Order` | db/repository/store.go:75-171 | The calls of the unit of work in order. It has no contract of its own; `OrderCalls` states what it guarantees. |
| `Transfers.OrderCalls` | db/repository/store.go:75-171 | Every repository call is made exactly once, and all seven calls appear. The three records come first, then each side is locked right before its update, lower id first. |
| `Transfers.Work` | db/repository/store.go:71-177 | The closure TransferTx passes to execTxn, run from a given snapshot and lock trace. It has no contract of its own; the `Work*` lemmas state its properties. |
| `Transfers.LockOrder` | db/repository/store.go:116-158 | The ids in locking order are sorted, and they are exactly the source and destination ids. |
| `Transfers.Apply` | db/repository/store.go:75-171 | Once an error has occurred, a repository call changes nothing. |
| `Transfers.Run` | db/repository/store.go:71-177 | The first failing call ends the run: nothing after it changes the store, the trace, the result or the error. |
| `Transfers.TxnSpec` | db/repository/store.go:68-180 | When begin fails, the unit of work never runs and the result is the zero value. The error is always the one `TxnOutcome` picks. On success the outcome is exactly the unit of work's. On failure with a working rollback, the stored data equals the snapshot taken at begin. |
| `Transfers.WorkUnfold` | db/repository/store.go:75-171 | The unit of work is the seven calls in order: the transfer, the debit entry, the credit entry, then a lock and an update for each side, lower id first. |
| `Transfers.WorkRecords` | db/repository/store.go:75-107 | On success the transfer copies source, destination, amount, currency and reference from the params. The source entry is a PENDING DEBIT under the caller's reference. The destination entry is a PENDING CREDIT under the generated reference. Both entries carry the amount and the currency. Exactly these three records are appended, in this order. |
| `Transfers.LockPhase` | db/repository/store.go:116-171 | When the four lock and update calls succeed, both accounts exist. Each balance is updated by its side's delta, on the value it had when that side was locked. Each updated account goes to its side's result field. |
| `Transfers.WorkSplit` | db/repository/store.go:75-171 | The unit of work is the three record calls followed by the lock phase, and the record calls leave the balances alone. |
| `Transfers.WorkUpdates` | db/repository/store.go:116-172 | On success both accounts exist. The first-locked account is updated first, and the second update sees the first one. |
| `Transfers.WorkBalances` | db/repository/store.go:116-172 | On success with source ≠ destination, the source balance becomes old − amount and the destination balance becomes old + amount. With source = destination, the balances are unchanged. No other balance changes, no account appears or disappears, and the sum of the two balances is kept. The returned source account holds the final source balance, and the returned destination account holds old destination + amount. |
| `Transfers.WorkConservesTotal` | db/repository/store.go:116-172 | A successful unit of work keeps the total of all balances. |
| `Transfers.WorkLockTrace` | db/repository/store.go:116-160 | The accounts locked in a run are a prefix of `LockOrder`, so the lower id always comes first. On success they are all of `LockOrder`. |
| `Transfers.WorkErrors` | db/repository/store.go:83-171 | Every error is either an injected one or `ErrNoRows`. With no injected failure, the unit of work fails if and only if an account is missing, and the error is then `ErrNoRows`. |
| `Transfers.WorkStopsBeforeLocking` | db/repository/store.go:83-111 | A failing record creation stops the run before any lock is taken or any balance changes. |
| `Transfers.WorkPartialWrite` | db/repository/store.go:116-147 | Suppose the first account exists and the second does not. Then the first account has already been updated when the second lock fails. This partial write is what the rollback has to undo. |
| `Transfers.TransferTxConservesTotal` | db/repository/store.go:68-180 | Unless a rollback is called and fails, the transfer never changes the total of all balances. This covers a failed begin, a commit attempted, and a failed unit of work with a working rollback. |
| `Transfers.TransferTxLockTrace` | db/repository/store.go:68-180 | Through the transaction wrapper too, locks are taken lower id first: a prefix of `LockOrder`, all of it on success. |
| `Transfers.TransferTxMissingAccount` | db/repository/store.go:68-180 | Suppose an account is missing, no repository call is made to fail and the rollback works. Then the whole transfer is rolled back and `ErrNoRows` is returned. |
| `Transfers.ScenarioOneToTwo` | db/repository/store.go:68-180 | Account 1 (1000) pays 200 to account 2 (500). The transfer succeeds and the balances become 800 and 700. |
| `Transfers.ScenarioOneToTwoRecords` | db/repository/store.go:68-180 | The same transfer locks account 1 and then account 2. It records the transfer, a DEBIT under "REF1" and a CREDIT under the generated reference. |
| `Transfers.ScenarioFiveToThree` | db/repository/store.go:68-180 | Account 5 pays 50 to account 3. Account 3, the destination, is locked first because its id is lower. |
| `Repository.Store.constructor` | db/repository/store.go:23-28 | A new store holds the given balances, no records and an empty lock trace. |
| `Repository.Store.CreateTransfer` | db/repository/store.go:75-81 | Appends the record and returns it, or returns the injected error and the zero Transfer and stores nothing. |
| `Repository.Store.CreateTransaction` | db/repository/store.go:87-107 | Appends the ledger entry and returns it, or returns the injected error and the zero Transaction and stores nothing. |
| `Repository.Store.GetAccountForUpdate` | db/repository/store.go:117-120 | Records the id in the lock trace, then returns the account's current row. It fails with the injected error, or with `ErrNoRows` when the account is missing. |
| `Repository.Store.UpdateAccount` | db/repository/store.go:123-130 | Sets exactly that account's balance and returns the updated row. It fails with the injected error, or with `ErrNoRows` when the account is missing, and then changes nothing. |
| `Repository.Store.CreateRecords` | db/repository/store.go:75-111 | The three record calls with their early returns equal the first three steps of the reference run. |
| `Repository.Store.SourceFirst` | db/repository/store.go:116-143 | The branch for source id < destination id: lock and update the source, then the destination. It equals the four lock-phase steps of the reference run. |
| `Repository.Store.DestinationFirst` | db/repository/store.go:144-171 | The other branch: lock and update the destination, then the source. It equals the four lock-phase steps of the reference run. |
| `Repository.Store.RunTransfer` | db/repository/store.go:71-177 | The unit of work, with the two duplicated branches, leaves the store, the lock trace, the result and the error exactly as `Work` (one lower-id-first routine) describes. |
| `Repository.Store.ExecTxn` | db/repository/store.go:31-50 | Begin, run, then roll back by restoring the snapshot, or commit. The new state, trace, result and error are exactly `TxnSpec`'s. |
| `Repository.Store.TransferTx` | db/repository/store.go:68-180 | The outcome is `TxnSpec`'s. A committed transfer between two distinct accounts debits the source by the amount and credits the destination by it, and changes no other balance. A committed self-transfer leaves the balances unchanged. The lock trace gains a prefix of the sorted id pair, all of it on success. A failure with a working rollback leaves all stored data as it was. |

## Left out

- database/sql plumbing: `BeginTx`, `Commit`, `Rollback` and the `*sql.DB`/`*sql.Tx` handles are foreign driver calls. Their outcomes are inputs (`TxnFaults`). A transaction is a snapshot of the stored data that a rollback restores.
- A failed commit is modelled as the engine discarding the transaction's writes. A failed rollback is modelled as leaving the unit of work's writes in place. The source leaves both to the engine.
- `lockTrace` is a log of calls, so a rollback does not restore it.
- Row-level locking, blocking and deadlock detection between concurrent transactions: concurrency is out of scope. Only the order of `GetAccountForUpdate` calls is recorded, and it is proved to be lower id first.
- `context.Context` cancellation and timeouts: these are runtime concerns.
- `util.RandomString(10)` is not part of this model. The generated destination reference is the parameter `generatedReference`. Nothing is claimed about its length. Nothing is claimed about it differing from the caller's reference either, because the code does not guarantee that.
- The models package (`CreateTransfer`, `CreateTransaction`, `GetAccountForUpdate`, `UpdateAccount`, and the `Transfer`, `Account` and `Transaction` rows) is not part of this model. These calls are map and sequence operations. Creating a record fails only by an injected error, so no foreign-key check is modelled. Database ids, timestamps, account owner and account currency are not modelled.
- Go's `int64` arithmetic on balances wraps around with no guard. The model uses unbounded integers.
- Validation is not modelled because the code does none. The code accepts source = destination and handles it in the else branch. It accepts any amount and does not compare currencies. The code does not check that the two accounts differ, that the amount is positive, that the currencies match, or that the generated reference differs from the caller's.
- `execTxn` takes any Go closure. Dafny cannot pass methods as values, so `Store.ExecTxn` runs the one unit of work this file passes, which is `TransferTx`'s closure. That unit of work is described by the value `TransferWork`.
- The closure's body is split across `CreateRecords`, `SourceFirst` and `DestinationFirst`, so each part can be verified on its own. The calls, their order and their early returns are those of the code.
- JSON struct tags and the `IStore` interface embedding are not modelled: they do not affect behaviour.
