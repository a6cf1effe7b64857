/** The Store of db/repository/store.go over an in-memory database: account
    balances by id, the created transfers and ledger entries, and a record of
    every GetAccountForUpdate call. The repository queries are map and
    sequence operations that may fail; begin, rollback and commit are
    snapshot and restore. */
module Repository {
  import opened Txn
  import opened Transfers

  class Store {
    var accounts: map<int, int>
    var transfers: seq<Transfer>
    var entries: seq<Transaction>
    /** The id of every GetAccountForUpdate call, in call order. */
    var lockTrace: seq<int>

    constructor (accounts: map<int, int>)
      ensures this.accounts == accounts && transfers == [] && entries == [] && lockTrace == []
    {
      this.accounts := accounts;
      transfers := [];
      entries := [];
      lockTrace := [];
    }

    /** The data a transaction can change and a rollback restores. */
    function Snapshot(): State
      reads this
    {
      State(accounts, transfers, entries)
    }

    /** CreateTransfer: stores the record, or fails with the injected error and
        returns the zero Transfer. */
    method CreateTransfer(p: Transfer, fault: Option<string>) returns (t: Transfer, err: Option<string>)
      modifies this`transfers
      ensures err == fault
      ensures fault.None? ==> t == p && transfers == old(transfers) + [p]
      ensures fault.Some? ==> t == ZeroTransfer && transfers == old(transfers)
    {
      if fault.Some? {
        return ZeroTransfer, fault;
      }
      transfers := transfers + [p];
      return p, None;
    }

    /** CreateTransaction: stores the ledger entry, or fails with the injected
        error and returns the zero Transaction. */
    method CreateTransaction(dto: Transaction, fault: Option<string>) returns (e: Transaction, err: Option<string>)
      modifies this`entries
      ensures err == fault
      ensures fault.None? ==> e == dto && entries == old(entries) + [dto]
      ensures fault.Some? ==> e == ZeroTransaction && entries == old(entries)
    {
      if fault.Some? {
        return ZeroTransaction, fault;
      }
      entries := entries + [dto];
      return dto, None;
    }

    /** GetAccountForUpdate: the call is recorded; it reads the account's row,
        failing with ErrNoRows when there is none. */
    method GetAccountForUpdate(id: int, fault: Option<string>) returns (a: Account, err: Option<string>)
      modifies this`lockTrace
      ensures lockTrace == old(lockTrace) + [id]
      ensures err == if fault.Some? then fault else if id in accounts then None else Some(ErrNoRows)
      ensures err.None? ==> id in accounts && a == Account(id, accounts[id])
      ensures err.Some? ==> a == ZeroAccount
    {
      lockTrace := lockTrace + [id];
      if fault.Some? {
        return ZeroAccount, fault;
      }
      if id !in accounts {
        return ZeroAccount, Some(ErrNoRows);
      }
      return Account(id, accounts[id]), None;
    }

    /** UpdateAccount: sets the account's balance and returns the updated row,
        failing with ErrNoRows when there is none. */
    method UpdateAccount(id: int, balance: int, fault: Option<string>) returns (a: Account, err: Option<string>)
      modifies this`accounts
      ensures err == if fault.Some? then fault else if id in old(accounts) then None else Some(ErrNoRows)
      ensures err.None? ==> accounts == old(accounts)[id := balance] && a == Account(id, balance)
      ensures err.Some? ==> accounts == old(accounts) && a == ZeroAccount
    {
      if fault.Some? {
        return ZeroAccount, fault;
      }
      if id !in accounts {
        return ZeroAccount, Some(ErrNoRows);
      }
      accounts := accounts[id := balance];
      return Account(id, balance), None;
    }

    /** The first part of the unit of work: the transfer record, then the
        source and the destination ledger entries. */
    method CreateRecords(w: TransferWork) returns (result: TransferTxnResult, err: Option<string>)
      modifies this`transfers, this`entries
      ensures Outcome(Snapshot(), lockTrace, result, err)
           == Run(Start(old(Snapshot()), old(lockTrace)), w, Order(w.arg)[..3])
    {
      var arg := w.arg;
      result := ZeroResult;
      // `o` is where the reference run stands and `rest` what it has still to do
      ghost var o, rest := Start(Snapshot(), lockTrace), Order(arg)[..3];

      var t;
      t, err := CreateTransfer(TransferOf(arg), Fault(w, NewTransfer));
      result := result.(transfer := t);
      assert rest[0] == NewTransfer;
      RunStep(o, w, rest);
      o, rest := Apply(o, w, rest[0]), rest[1..];
      if err.Some? {
        return;
      }

      var e;
      e, err := CreateTransaction(EntryFor(w, Source), Fault(w, NewEntry(Source)));
      result := result.(sourceTransaction := e);
      assert rest[0] == NewEntry(Source);
      RunStep(o, w, rest);
      o, rest := Apply(o, w, rest[0]), rest[1..];
      if err.Some? {
        return;
      }

      e, err := CreateTransaction(EntryFor(w, Destination), Fault(w, NewEntry(Destination)));
      result := result.(destinationTransaction := e);
      assert rest[0] == NewEntry(Destination);
      RunStep(o, w, rest);
      o, rest := Apply(o, w, rest[0]), rest[1..];
    }

    /** The second part of the unit of work when the source id is the lower:
        the source is locked, read and updated, then the destination. */
    method SourceFirst(w: TransferWork, before: TransferTxnResult) returns (result: TransferTxnResult, err: Option<string>)
      requires w.arg.sourceAccountId < w.arg.destinationAccountId
      modifies this`accounts, this`lockTrace
      ensures Outcome(Snapshot(), lockTrace, result, err)
           == Apply(Apply(Apply(Apply(Outcome(old(Snapshot()), old(lockTrace), before, None), w, Lock(Source)), w, Update(Source)), w, Lock(Destination)), w, Update(Destination))
    {
      var arg := w.arg;
      result, err := before, None;
      ghost var o := Outcome(Snapshot(), lockTrace, before, None);

      var sourceAccount;
      sourceAccount, err := GetAccountForUpdate(arg.sourceAccountId, Fault(w, Lock(Source)));
      o := Apply(o, w, Lock(Source));
      assert Outcome(Snapshot(), lockTrace, result, err) == o;
      if err.Some? {
        return;
      }
      var updatedSource;
      updatedSource, err := UpdateAccount(arg.sourceAccountId, sourceAccount.balance - arg.amount, Fault(w, Update(Source)));
      result := result.(sourceAccount := updatedSource);
      o := Apply(o, w, Update(Source));
      assert Outcome(Snapshot(), lockTrace, result, err) == o;
      if err.Some? {
        return;
      }

      var destinationAccount;
      destinationAccount, err := GetAccountForUpdate(arg.destinationAccountId, Fault(w, Lock(Destination)));
      o := Apply(o, w, Lock(Destination));
      assert Outcome(Snapshot(), lockTrace, result, err) == o;
      if err.Some? {
        return;
      }
      var updatedDestination;
      updatedDestination, err := UpdateAccount(arg.destinationAccountId, destinationAccount.balance + arg.amount, Fault(w, Update(Destination)));
      result := result.(destinationAccount := updatedDestination);
      o := Apply(o, w, Update(Destination));
      assert Outcome(Snapshot(), lockTrace, result, err) == o;
      if err.Some? {
        return;
      }
    }

    /** The second part of the unit of work otherwise (the same code with the
        roles swapped): the destination first, then the source. */
    method DestinationFirst(w: TransferWork, before: TransferTxnResult) returns (result: TransferTxnResult, err: Option<string>)
      requires w.arg.sourceAccountId >= w.arg.destinationAccountId
      modifies this`accounts, this`lockTrace
      ensures Outcome(Snapshot(), lockTrace, result, err)
           == Apply(Apply(Apply(Apply(Outcome(old(Snapshot()), old(lockTrace), before, None), w, Lock(Destination)), w, Update(Destination)), w, Lock(Source)), w, Update(Source))
    {
      var arg := w.arg;
      result, err := before, None;
      ghost var o := Outcome(Snapshot(), lockTrace, before, None);

      var destinationAccount;
      destinationAccount, err := GetAccountForUpdate(arg.destinationAccountId, Fault(w, Lock(Destination)));
      o := Apply(o, w, Lock(Destination));
      assert Outcome(Snapshot(), lockTrace, result, err) == o;
      if err.Some? {
        return;
      }
      var updatedDestination;
      updatedDestination, err := UpdateAccount(arg.destinationAccountId, destinationAccount.balance + arg.amount, Fault(w, Update(Destination)));
      result := result.(destinationAccount := updatedDestination);
      o := Apply(o, w, Update(Destination));
      assert Outcome(Snapshot(), lockTrace, result, err) == o;
      if err.Some? {
        return;
      }

      var sourceAccount;
      sourceAccount, err := GetAccountForUpdate(arg.sourceAccountId, Fault(w, Lock(Source)));
      o := Apply(o, w, Lock(Source));
      assert Outcome(Snapshot(), lockTrace, result, err) == o;
      if err.Some? {
        return;
      }
      var updatedSource;
      updatedSource, err := UpdateAccount(arg.sourceAccountId, sourceAccount.balance - arg.amount, Fault(w, Update(Source)));
      result := result.(sourceAccount := updatedSource);
      o := Apply(o, w, Update(Source));
      assert Outcome(Snapshot(), lockTrace, result, err) == o;
      if err.Some? {
        return;
      }
    }

    /** The unit of work TransferTx hands to execTxn: it does what Work, the
        single lower-id-first routine, describes. */
    method RunTransfer(w: TransferWork) returns (result: TransferTxnResult, err: Option<string>)
      modifies this`accounts, this`transfers, this`entries, this`lockTrace
      ensures Outcome(Snapshot(), lockTrace, result, err) == Work(old(Snapshot()), old(lockTrace), w)
    {
      ghost var start := Start(Snapshot(), lockTrace);
      ghost var steps := Order(w.arg);
      assert steps == steps[..3] + steps[3..];
      RunAppend(start, w, steps[..3], steps[3..]);
      result, err := CreateRecords(w);
      if err.Some? {
        return;
      }
      RunFour(Outcome(Snapshot(), lockTrace, result, None), w, steps[3..]);
      if w.arg.sourceAccountId < w.arg.destinationAccountId {
        result, err := SourceFirst(w, result);
      } else {
        result, err := DestinationFirst(w, result);
      }
    }

    /** execTxn with TransferTx's unit of work: begin (snapshot), run,
        then roll back (restore the snapshot) or commit. */
    method ExecTxn(txn: TxnFaults, w: TransferWork) returns (result: TransferTxnResult, err: Option<string>)
      modifies this`accounts, this`transfers, this`entries, this`lockTrace
      ensures Outcome(Snapshot(), lockTrace, result, err) == TxnSpec(old(Snapshot()), old(lockTrace), txn, w)
    {
      if txn.begin.Some? {
        return ZeroResult, txn.begin;
      }
      var snapshot := Snapshot();

      var workErr;
      result, workErr := RunTransfer(w);

      if workErr.Some? {
        if txn.rollback.Some? {
          return result, Some(RollbackError(workErr.value, txn.rollback.value));
        }
        accounts, transfers, entries := snapshot.accounts, snapshot.transfers, snapshot.entries;
        return result, workErr;
      }

      if txn.commit.Some? {
        accounts, transfers, entries := snapshot.accounts, snapshot.transfers, snapshot.entries;
      }
      return result, txn.commit;
    }

    /** TransferTx: moves `arg.amount` from the source account to the
        destination account in one transaction. `generatedReference` stands for
        the random destination reference, `faults` for the repository calls
        that fail and `txn` for how begin, rollback and commit go. */
    method TransferTx(arg: TransferTxnParams, generatedReference: string, faults: map<Step, string>, txn: TxnFaults)
      returns (result: TransferTxnResult, err: Option<string>)
      modifies this`accounts, this`transfers, this`entries, this`lockTrace
      ensures Outcome(Snapshot(), lockTrace, result, err)
           == TxnSpec(old(Snapshot()), old(lockTrace), txn, TransferWork(arg, generatedReference, faults))
      // a committed transfer between two accounts moves exactly the amount
      ensures err.None? && arg.sourceAccountId != arg.destinationAccountId ==>
                && arg.sourceAccountId in old(accounts) && arg.destinationAccountId in old(accounts)
                && accounts == old(accounts)[arg.sourceAccountId := old(accounts)[arg.sourceAccountId] - arg.amount]
                                            [arg.destinationAccountId := old(accounts)[arg.destinationAccountId] + arg.amount]
      // a committed transfer to the same account leaves the balances as they were
      ensures err.None? && arg.sourceAccountId == arg.destinationAccountId ==> accounts == old(accounts)
      // the lower id is locked first
      ensures old(lockTrace) <= lockTrace && lockTrace[|old(lockTrace)|..] <= LockOrder(arg)
      ensures err.None? ==> lockTrace == old(lockTrace) + LockOrder(arg)
      // all or nothing, unless the rollback itself fails
      ensures err.Some? && txn.rollback.None? ==> Snapshot() == old(Snapshot())
    {
      var w := TransferWork(arg, generatedReference, faults);
      ghost var st, trace := Snapshot(), lockTrace;
      result, err := ExecTxn(txn, w);
      TransferTxLockTrace(st, trace, txn, w);
      if err.None? {
        WorkBalances(st, trace, w);
      }
    }
  }
}
