/** The outcome selection of execTxn (db/repository/store.go): which error a
    transaction wrapper reports, given how begin, the unit of work, rollback
    and commit went. Errors are Go error messages, so plain strings. */
module Txn {

  datatype Option<T> = None | Some(value: T)

  /** How the three transaction-lifecycle calls of database/sql behave on one
      run: each is either fine (None) or fails with an error message. */
  datatype TxnFaults = TxnFaults(begin: Option<string>, rollback: Option<string>, commit: Option<string>)

  /** The composite error `fmt.Errorf("tx err: %v, rb err: %v", err, rbErr)`:
      both messages are kept, each at a fixed place. */
  function RollbackError(txErr: string, rbErr: string): (r: string)
    ensures |r| == |txErr| + |rbErr| + 18 && r != txErr && r != rbErr
    ensures "tx err: " + txErr <= r
    ensures r[|r| - |rbErr|..] == rbErr
    ensures r[|"tx err: " + txErr|..|r| - |rbErr|] == ", rb err: "
  {
    "tx err: " + txErr + ", rb err: " + rbErr
  }

  /** The error execTxn returns. `work` is the unit of work's error; it is
      only looked at once the transaction has begun. */
  function TxnOutcome(f: TxnFaults, work: Option<string>): (r: Option<string>)
    // a begin failure is returned as is, whatever the unit of work would do
    ensures f.begin.Some? ==> r == f.begin
    // a failed unit of work is reported unchanged when rollback succeeds ...
    ensures f.begin.None? && work.Some? && f.rollback.None? ==> r == work
    // ... and together with the rollback error when rollback fails too
    ensures f.begin.None? && work.Some? && f.rollback.Some? ==>
              r == Some(RollbackError(work.value, f.rollback.value))
    // a successful unit of work reports exactly what commit reports
    ensures f.begin.None? && work.None? ==> r == f.commit
    // success is reported only when begin, the unit of work and commit all succeed
    ensures r.None? <==> f.begin.None? && work.None? && f.commit.None?
  {
    if f.begin.Some? then f.begin
    else if work.Some? then
      if f.rollback.Some? then Some(RollbackError(work.value, f.rollback.value)) else work
    else f.commit
  }

  /** Neither error is dropped: both can be read back from the composite. */
  lemma {:induction false} RollbackErrorKeepsBoth(txErr: string, rbErr: string)
    ensures var r := RollbackError(txErr, rbErr);
      r[8..8 + |txErr|] == txErr && r[|r| - |rbErr|..] == rbErr
  {
    var r := RollbackError(txErr, rbErr);
    assert r[..8 + |txErr|] == "tx err: " + txErr;
    assert r[8..8 + |txErr|] == r[..8 + |txErr|][8..];
  }
}
