/** The entities of TransferTx (db/repository/store.go) and a reference
    definition of what its unit of work and its transaction do to an abstract
    store: a map of balances, the created transfers and the created ledger
    entries. The repository calls become steps that may fail; a failed step
    ends the run. */
module Transfers {
  import opened Txn
  import opened Balances

  /** TransferTxnParams. Go's int64 fields are unbounded here. */
  datatype TransferTxnParams = TransferTxnParams(
    sourceAccountId: int,
    destinationAccountId: int,
    amount: int,
    currency: string,
    reference: string)

  /** A stored transfer record: what the transfer was created from (the
      database id and timestamps are not modelled). */
  datatype Transfer = Transfer(
    sourceAccountId: int,
    destinationAccountId: int,
    amount: int,
    currency: string,
    reference: string)

  datatype Account = Account(id: int, balance: int)

  /** A ledger entry, which the repository calls a Transaction. */
  datatype Transaction = Transaction(
    accountId: int,
    amount: int,
    transactionType: string,
    currency: string,
    status: string,
    reference: string)

  /** TransferTxnResult: filled field by field while the unit of work runs;
      a field never reached keeps its Go zero value. */
  datatype TransferTxnResult = TransferTxnResult(
    transfer: Transfer,
    sourceAccount: Account,
    destinationAccount: Account,
    sourceTransaction: Transaction,
    destinationTransaction: Transaction)

  const Debit := "DEBIT"
  const Credit := "CREDIT"
  const Pending := "PENDING"
  /** The message of database/sql's ErrNoRows: what a lookup of a missing account row fails with. */
  const ErrNoRows := "sql: no rows in result set"

  const ZeroTransfer := Transfer(0, 0, 0, "", "")
  const ZeroAccount := Account(0, 0)
  const ZeroTransaction := Transaction(0, 0, "", "", "", "")
  const ZeroResult := TransferTxnResult(ZeroTransfer, ZeroAccount, ZeroAccount, ZeroTransaction, ZeroTransaction)

  /** The two sides of a transfer. */
  datatype Role = Source | Destination

  /** The repository calls the unit of work makes. */
  datatype Step = NewTransfer | NewEntry(role: Role) | Lock(role: Role) | Update(role: Role)

  /** What the unit of work closes over: the params, the reference generated
      for the destination entry, and the repository calls that are made to fail
      (with the error each returns). */
  datatype TransferWork = TransferWork(arg: TransferTxnParams, generatedReference: string, faults: map<Step, string>)

  /** The stored data a transaction can change and a rollback restores. */
  datatype State = State(accounts: map<int, int>, transfers: seq<Transfer>, entries: seq<Transaction>)

  /** Where a run stands: the stored data, the ids passed to
      GetAccountForUpdate so far, the result being filled and the error, if any. */
  datatype Outcome = Outcome(state: State, trace: seq<int>, result: TransferTxnResult, err: Option<string>)

  function Other(role: Role): Role {
    if role == Source then Destination else Source
  }

  function AccountOf(arg: TransferTxnParams, role: Role): int {
    if role == Source then arg.sourceAccountId else arg.destinationAccountId
  }

  /** How a side's balance moves: the source pays, the destination receives. */
  function DeltaOf(arg: TransferTxnParams, role: Role): int {
    if role == Source then -arg.amount else arg.amount
  }

  function TransferOf(arg: TransferTxnParams): Transfer {
    Transfer(arg.sourceAccountId, arg.destinationAccountId, arg.amount, arg.currency, arg.reference)
  }

  /** The ledger entry created for one side of the transfer. */
  function EntryFor(w: TransferWork, role: Role): Transaction {
    if role == Source then
      Transaction(w.arg.sourceAccountId, w.arg.amount, Debit, w.arg.currency, Pending, w.arg.reference)
    else
      Transaction(w.arg.destinationAccountId, w.arg.amount, Credit, w.arg.currency, Pending, w.generatedReference)
  }

  /** The side whose account is locked first: the one with the lower id (the
      destination when the ids are equal). */
  function FirstLocked(arg: TransferTxnParams): (r: Role)
    ensures AccountOf(arg, r) <= AccountOf(arg, Other(r))
    ensures r == Source <==> arg.sourceAccountId < arg.destinationAccountId
  {
    if arg.sourceAccountId < arg.destinationAccountId then Source else Destination
  }

  /** The ids in the order they are locked: sorted, and exactly the two accounts. */
  function LockOrder(arg: TransferTxnParams): (ids: seq<int>)
    ensures |ids| == 2 && ids[0] <= ids[1]
    ensures multiset(ids) == multiset{arg.sourceAccountId, arg.destinationAccountId}
  {
    var first := FirstLocked(arg);
    [AccountOf(arg, first), AccountOf(arg, Other(first))]
  }

  /** Two transfers in opposite directions between the same accounts lock
      them in the same order, so neither can hold one lock while waiting for
      the other's. */
  lemma {:induction false} LockOrderSymmetric(a: TransferTxnParams)
    ensures LockOrder(a) == LockOrder(a.(sourceAccountId := a.destinationAccountId,
                                         destinationAccountId := a.sourceAccountId))
  {
    var b := a.(sourceAccountId := a.destinationAccountId, destinationAccountId := a.sourceAccountId);
    assert multiset(LockOrder(a)) == multiset(LockOrder(b));
  }

  /** The calls in the order the unit of work makes them: the records first,
      then each account locked and updated, lower id first. */
  function Order(arg: TransferTxnParams): seq<Step> {
    var first := FirstLocked(arg);
    [NewTransfer, NewEntry(Source), NewEntry(Destination),
     Lock(first), Update(first), Lock(Other(first)), Update(Other(first))]
  }

  /** Every repository call is made exactly once; the records come first and
      each side is locked right before it is updated, lower id first. */
  lemma {:induction false} OrderCalls(arg: TransferTxnParams)
    ensures var r := Order(arg);
      && (forall s: Step :: s in r)
      && (forall i, j :: 0 <= i < j < |r| ==> r[i] != r[j])
      && |r| == 7 && r[3] == Lock(FirstLocked(arg)) && r[5] == Lock(Other(FirstLocked(arg)))
      && r[4] == Update(r[3].role) && r[6] == Update(r[5].role)
  {
    var records := [NewTransfer, NewEntry(Source), NewEntry(Destination)];
    var src := [Lock(Source), Update(Source)];
    var dst := [Lock(Destination), Update(Destination)];
    var r := Order(arg);
    if FirstLocked(arg) == Source {
      assert r == records + src + dst;
    } else {
      assert r == records + dst + src;
    }
    forall s: Step ensures s in r {
      match s
      case NewTransfer => assert r[0] == s;
      case NewEntry(role) => assert r[if role == Source then 1 else 2] == s;
      case Lock(role) => assert r[if role == FirstLocked(arg) then 3 else 5] == s;
      case Update(role) => assert r[if role == FirstLocked(arg) then 4 else 6] == s;
    }
  }

  function Fault(w: TransferWork, step: Step): Option<string> {
    if step in w.faults then Some(w.faults[step]) else None
  }

  function WithAccount(res: TransferTxnResult, role: Role, a: Account): TransferTxnResult {
    if role == Source then res.(sourceAccount := a) else res.(destinationAccount := a)
  }

  function WithEntry(res: TransferTxnResult, role: Role, e: Transaction): TransferTxnResult {
    if role == Source then res.(sourceTransaction := e) else res.(destinationTransaction := e)
  }

  /** One repository call. Nothing happens once an error has occurred. Creating
      a record fails only by an injected fault; locking or updating a missing
      account fails with ErrNoRows. A lock is recorded whether or not it
      succeeds. An update writes the balance read under the lock, moved by the
      side's delta. A creating or updating call stores what it returns in its
      result field, the zero value when it fails. */
  function Apply(o: Outcome, w: TransferWork, step: Step): (r: Outcome)
    ensures o.err.Some? ==> r == o
  {
    if o.err.Some? then o
    else
      var st := o.state;
      match step
      case NewTransfer =>
        if step in w.faults then o.(err := Some(w.faults[step]), result := o.result.(transfer := ZeroTransfer))
        else
          var t := TransferOf(w.arg);
          o.(state := st.(transfers := st.transfers + [t]), result := o.result.(transfer := t))
      case NewEntry(role) =>
        if step in w.faults then o.(err := Some(w.faults[step]), result := WithEntry(o.result, role, ZeroTransaction))
        else
          var e := EntryFor(w, role);
          o.(state := st.(entries := st.entries + [e]), result := WithEntry(o.result, role, e))
      case Lock(role) =>
        var id := AccountOf(w.arg, role);
        var locked := o.(trace := o.trace + [id]);
        if step in w.faults then locked.(err := Some(w.faults[step]))
        else if id !in st.accounts then locked.(err := Some(ErrNoRows))
        else locked
      case Update(role) =>
        var id := AccountOf(w.arg, role);
        if step in w.faults then o.(err := Some(w.faults[step]), result := WithAccount(o.result, role, ZeroAccount))
        else if id !in st.accounts then o.(err := Some(ErrNoRows), result := WithAccount(o.result, role, ZeroAccount))
        else
          var a := Account(id, st.accounts[id] + DeltaOf(w.arg, role));
          o.(state := st.(accounts := st.accounts[id := a.balance]), result := WithAccount(o.result, role, a))
  }

  /** The calls made one after another; the first failing call ends the run. */
  function Run(o: Outcome, w: TransferWork, steps: seq<Step>): (r: Outcome)
    ensures o.err.Some? ==> r == o
    decreases |steps|
  {
    if steps == [] then o else Run(Apply(o, w, steps[0]), w, steps[1..])
  }

  lemma RunStep(o: Outcome, w: TransferWork, steps: seq<Step>)
    requires steps != []
    ensures Run(o, w, steps) == Run(Apply(o, w, steps[0]), w, steps[1..])
  {
  }

  /** Running two lists of calls one after the other is running their concatenation. */
  lemma {:induction false} RunAppend(o: Outcome, w: TransferWork, s1: seq<Step>, s2: seq<Step>)
    ensures Run(o, w, s1 + s2) == Run(Run(o, w, s1), w, s2)
    decreases |s1|
  {
    if s1 == [] {
      assert s1 + s2 == s2;
    } else {
      assert (s1 + s2)[1..] == s1[1..] + s2;
      RunAppend(Apply(o, w, s1[0]), w, s1[1..], s2);
    }
  }

  lemma RunThree(o: Outcome, w: TransferWork, steps: seq<Step>)
    requires |steps| == 3
    ensures Run(o, w, steps) == Apply(Apply(Apply(o, w, steps[0]), w, steps[1]), w, steps[2])
  {
    var o1 := Apply(o, w, steps[0]);
    var o2 := Apply(o1, w, steps[1]);
    assert Run(o, w, steps) == Run(o1, w, steps[1..]);
    assert Run(o1, w, steps[1..]) == Run(o2, w, steps[2..]);
  }

  lemma RunFour(o: Outcome, w: TransferWork, steps: seq<Step>)
    requires |steps| == 4
    ensures Run(o, w, steps) == Apply(Apply(Apply(Apply(o, w, steps[0]), w, steps[1]), w, steps[2]), w, steps[3])
  {
    var o1 := Apply(o, w, steps[0]);
    var o2 := Apply(o1, w, steps[1]);
    var o3 := Apply(o2, w, steps[2]);
    assert Run(o, w, steps) == Run(o1, w, steps[1..]);
    assert Run(o1, w, steps[1..]) == Run(o2, w, steps[2..]);
    assert Run(o2, w, steps[2..]) == Run(o3, w, steps[3..]);
  }

  function Start(st: State, trace: seq<int>): Outcome {
    Outcome(st, trace, ZeroResult, None)
  }

  /** The unit of work TransferTx hands to execTxn. */
  function Work(st: State, trace: seq<int>, w: TransferWork): Outcome {
    Run(Start(st, trace), w, Order(w.arg))
  }

  /** TransferTx: the unit of work inside execTxn. A begin failure runs
      nothing; a failed unit of work is rolled back (its writes stay only if
      rollback fails too); a failed commit keeps nothing. The result is
      returned in every case, as filled so far. */
  function TxnSpec(st: State, trace: seq<int>, txn: TxnFaults, w: TransferWork): (r: Outcome)
    ensures txn.begin.Some? ==> r == Outcome(st, trace, ZeroResult, txn.begin)
    ensures r.err == TxnOutcome(txn, if txn.begin.Some? then None else Work(st, trace, w).err)
    ensures r.err.None? ==> r == Work(st, trace, w)
    ensures r.err.Some? && txn.rollback.None? ==> r.state == st
  {
    if txn.begin.Some? then Outcome(st, trace, ZeroResult, txn.begin)
    else
      var done := Work(st, trace, w);
      if done.err.Some? then
        if txn.rollback.Some? then done.(err := Some(RollbackError(done.err.value, txn.rollback.value)))
        else done.(state := st)
      else if txn.commit.Some? then done.(state := st, err := txn.commit)
      else done
  }

  // ---------------------------------------------------------------------
  // Properties of the unit of work

  /** The run of the seven calls, written out. */
  lemma {:induction false} WorkUnfold(st: State, trace: seq<int>, w: TransferWork)
    ensures
      var f := FirstLocked(w.arg);
      var g := Other(f);
      Work(st, trace, w) ==
        Apply(Apply(Apply(Apply(Apply(Apply(Apply(Start(st, trace), w,
          NewTransfer), w, NewEntry(Source)), w, NewEntry(Destination)),
          w, Lock(f)), w, Update(f)), w, Lock(g)), w, Update(g))
  {
    var s := Order(w.arg);
    var o0 := Start(st, trace);
    var o1 := Apply(o0, w, s[0]);
    var o2 := Apply(o1, w, s[1]);
    var o3 := Apply(o2, w, s[2]);
    var o4 := Apply(o3, w, s[3]);
    var o5 := Apply(o4, w, s[4]);
    var o6 := Apply(o5, w, s[5]);
    var o7 := Apply(o6, w, s[6]);
    assert Run(o0, w, s) == Run(o1, w, s[1..]);
    assert Run(o1, w, s[1..]) == Run(o2, w, s[2..]);
    assert Run(o2, w, s[2..]) == Run(o3, w, s[3..]);
    assert Run(o3, w, s[3..]) == Run(o4, w, s[4..]);
    assert Run(o4, w, s[4..]) == Run(o5, w, s[5..]);
    assert Run(o5, w, s[5..]) == Run(o6, w, s[6..]);
    assert Run(o6, w, s[6..]) == Run(o7, w, s[7..]);
  }

  /** On success the transfer record copies the params, the source entry is a
      pending debit under the caller's reference, the destination entry a
      pending credit under the generated reference, and exactly these three
      records are added, in this order. */
  lemma {:induction false} WorkRecords(st: State, trace: seq<int>, w: TransferWork)
    requires Work(st, trace, w).err.None?
    ensures var r := Work(st, trace, w); var a := w.arg;
      && r.result.transfer == Transfer(a.sourceAccountId, a.destinationAccountId, a.amount, a.currency, a.reference)
      && r.result.sourceTransaction == Transaction(a.sourceAccountId, a.amount, "DEBIT", a.currency, "PENDING", a.reference)
      && r.result.destinationTransaction ==
           Transaction(a.destinationAccountId, a.amount, "CREDIT", a.currency, "PENDING", w.generatedReference)
      && r.state.transfers == st.transfers + [r.result.transfer]
      && r.state.entries == st.entries + [r.result.sourceTransaction, r.result.destinationTransaction]
  {
    WorkUnfold(st, trace, w);
  }

  /** The lock phase alone: when the four calls succeed, both updates were
      made, the first-locked side first, each on the balance as it stood when
      that side was locked. */
  lemma {:induction false} LockPhase(o: Outcome, w: TransferWork)
    requires var f := FirstLocked(w.arg); var g := Other(f);
      Apply(Apply(Apply(Apply(o, w, Lock(f)), w, Update(f)), w, Lock(g)), w, Update(g)).err.None?
    ensures AccountOf(w.arg, FirstLocked(w.arg)) in o.state.accounts
    ensures AccountOf(w.arg, Other(FirstLocked(w.arg))) in o.state.accounts
    ensures var a := w.arg; var m := o.state.accounts;
      var f := FirstLocked(a); var g := Other(f);
      var r := Apply(Apply(Apply(Apply(o, w, Lock(f)), w, Update(f)), w, Lock(g)), w, Update(g));
      var idf := AccountOf(a, f); var idg := AccountOf(a, g);
      var m1 := m[idf := m[idf] + DeltaOf(a, f)];
      var af := Account(idf, m1[idf]); var ag := Account(idg, m1[idg] + DeltaOf(a, g));
      && r.state.accounts == m1[idg := m1[idg] + DeltaOf(a, g)]
      && r.result.sourceAccount == (if f == Source then af else ag)
      && r.result.destinationAccount == (if f == Source then ag else af)
  {
    var f := FirstLocked(w.arg);
    var g := Other(f);
    var o4 := Apply(o, w, Lock(f));
    var o5 := Apply(o4, w, Update(f));
    var o6 := Apply(o5, w, Lock(g));
    ApplyUpdateOk(o6, w, g);
    ApplyLockOk(o5, w, g);
    ApplyUpdateOk(o4, w, f);
    ApplyLockOk(o, w, f);
  }

  /** The unit of work is the three record calls followed by the lock phase. */
  lemma {:induction false} WorkSplit(st: State, trace: seq<int>, w: TransferWork)
    ensures var f := FirstLocked(w.arg); var g := Other(f);
      var o3 := Apply(Apply(Apply(Start(st, trace), w, NewTransfer), w, NewEntry(Source)), w, NewEntry(Destination));
      && o3.state.accounts == st.accounts
      && Work(st, trace, w) == Apply(Apply(Apply(Apply(o3, w, Lock(f)), w, Update(f)), w, Lock(g)), w, Update(g))
  {
    var s := Order(w.arg);
    var o3 := Apply(Apply(Apply(Start(st, trace), w, NewTransfer), w, NewEntry(Source)), w, NewEntry(Destination));
    RunThree(Start(st, trace), w, s[..3]);
    assert s == s[..3] + s[3..];
    RunAppend(Start(st, trace), w, s[..3], s[3..]);
    RunFour(o3, w, s[3..]);
  }

  /** On success both accounts exist and both updates were made, the
      first-locked side first. */
  lemma {:induction false} WorkUpdates(st: State, trace: seq<int>, w: TransferWork)
    requires Work(st, trace, w).err.None?
    ensures AccountOf(w.arg, FirstLocked(w.arg)) in st.accounts
    ensures AccountOf(w.arg, Other(FirstLocked(w.arg))) in st.accounts
    ensures var r := Work(st, trace, w); var a := w.arg; var m := st.accounts;
      var f := FirstLocked(a); var g := Other(f);
      var idf := AccountOf(a, f); var idg := AccountOf(a, g);
      var m1 := m[idf := m[idf] + DeltaOf(a, f)];
      var af := Account(idf, m1[idf]); var ag := Account(idg, m1[idg] + DeltaOf(a, g));
      && r.state.accounts == m1[idg := m1[idg] + DeltaOf(a, g)]
      && r.result.sourceAccount == (if f == Source then af else ag)
      && r.result.destinationAccount == (if f == Source then ag else af)
  {
    var f := FirstLocked(w.arg);
    var g := Other(f);
    var o3 := Apply(Apply(Apply(Start(st, trace), w, NewTransfer), w, NewEntry(Source)), w, NewEntry(Destination));
    assert o3.state.accounts == st.accounts
        && Work(st, trace, w) == Apply(Apply(Apply(Apply(o3, w, Lock(f)), w, Update(f)), w, Lock(g)), w, Update(g))
    by {
      WorkSplit(st, trace, w);
    }
    LockPhase(o3, w);
  }

  /** A lock that does not fail changes nothing but the trace. */
  lemma ApplyLockOk(o: Outcome, w: TransferWork, role: Role)
    requires Apply(o, w, Lock(role)).err.None?
    ensures var r := Apply(o, w, Lock(role));
      o.err.None? && AccountOf(w.arg, role) in o.state.accounts && r.state == o.state && r.result == o.result
  {
  }

  /** An update that does not fail moves the side's balance by its delta and
      stores the updated account in the side's result field. */
  lemma ApplyUpdateOk(o: Outcome, w: TransferWork, role: Role)
    requires Apply(o, w, Update(role)).err.None?
    ensures var r := Apply(o, w, Update(role)); var id := AccountOf(w.arg, role); var m := o.state.accounts;
      && o.err.None? && id in m
      && r.state.accounts == m[id := m[id] + DeltaOf(w.arg, role)]
      && r.result == WithAccount(o.result, role, Account(id, m[id] + DeltaOf(w.arg, role)))
  {
  }

  /** On success both accounts exist; with two distinct accounts the source
      pays the amount and the destination receives it; a transfer to the same
      account adds and then subtracts on one row and leaves it as it was. No
      other balance changes and no account appears or disappears. */
  lemma {:induction false} WorkBalances(st: State, trace: seq<int>, w: TransferWork)
    requires Work(st, trace, w).err.None?
    ensures var r := Work(st, trace, w); var m := st.accounts; var m' := r.state.accounts;
      var src := w.arg.sourceAccountId; var dst := w.arg.destinationAccountId; var amount := w.arg.amount;
      && src in m && dst in m
      && (src != dst ==> m' == m[src := m[src] - amount][dst := m[dst] + amount])
      && (src == dst ==> m' == m)
      && m'.Keys == m.Keys
      && (forall id :: id in m && id != src && id != dst ==> m'[id] == m[id])
      && m'[src] + m'[dst] == m[src] + m[dst]
      && r.result.sourceAccount == Account(src, m'[src])
      && r.result.destinationAccount == Account(dst, m[dst] + amount)
  {
    WorkUpdates(st, trace, w);
    var m := st.accounts;
    var src := w.arg.sourceAccountId;
    var dst := w.arg.destinationAccountId;
    var amount := w.arg.amount;
    if src == dst {
      assert m[dst := m[dst] + amount][src := m[dst] + amount - amount] == m;
    } else if src > dst {
      assert m[dst := m[dst] + amount][src := m[src] - amount]
          == m[src := m[src] - amount][dst := m[dst] + amount];
    }
  }

  /** A successful unit of work keeps the total of all balances. */
  lemma {:induction false} WorkConservesTotal(st: State, trace: seq<int>, w: TransferWork)
    requires Work(st, trace, w).err.None?
    ensures Total(Work(st, trace, w).state.accounts) == Total(st.accounts)
  {
    WorkBalances(st, trace, w);
    var m := st.accounts;
    var src := w.arg.sourceAccountId;
    var dst := w.arg.destinationAccountId;
    if src != dst {
      var m1 := m[src := m[src] - w.arg.amount];
      TotalUpdate(m, src, m[src] - w.arg.amount);
      TotalUpdate(m1, dst, m[dst] + w.arg.amount);
    }
  }

  /** GetAccountForUpdate is called on the lower id first: the ids locked in a
      run are a prefix of LockOrder, all of it when the run succeeds. */
  lemma {:induction false} WorkLockTrace(st: State, trace: seq<int>, w: TransferWork)
    ensures var r := Work(st, trace, w);
      && trace <= r.trace
      && r.trace[|trace|..] <= LockOrder(w.arg)
      && (r.err.None? ==> r.trace == trace + LockOrder(w.arg))
  {
    WorkUnfold(st, trace, w);
    var f := FirstLocked(w.arg);
    var g := Other(f);
    var ids := LockOrder(w.arg);
    var o3 := Apply(Apply(Apply(Start(st, trace), w, NewTransfer), w, NewEntry(Source)), w, NewEntry(Destination));
    assert o3.trace == trace;
    var o4 := Apply(o3, w, Lock(f));
    var o5 := Apply(o4, w, Update(f));
    var o6 := Apply(o5, w, Lock(g));
    var o7 := Apply(o6, w, Update(g));
    assert o5.trace == o4.trace && o7.trace == o6.trace;
    if o3.err.Some? {
      assert o7.trace[|trace|..] == [];
    } else if o5.err.Some? {
      assert o4.trace == trace + [ids[0]];
      assert o7.trace[|trace|..] == ids[..1];
    } else {
      assert o6.trace == trace + ids;
      assert o7.trace[|trace|..] == ids;
    }
  }

  /** Where an error comes from: an injected fault or a missing account. With
      no injected fault, the unit of work fails exactly when an account is
      missing, and then with ErrNoRows. */
  lemma {:induction false} WorkErrors(st: State, trace: seq<int>, w: TransferWork)
    ensures var r := Work(st, trace, w); var m := st.accounts;
      var src := w.arg.sourceAccountId; var dst := w.arg.destinationAccountId;
      && (r.err.Some? ==> r.err.value in w.faults.Values || r.err.value == ErrNoRows)
      && (w.faults == map[] ==> (r.err.None? <==> src in m && dst in m))
      && (w.faults == map[] && r.err.Some? ==> r.err.value == ErrNoRows)
  {
    WorkUnfold(st, trace, w);
  }

  /** A failing record creation stops the run before any account is locked
      or changed. */
  lemma {:induction false} WorkStopsBeforeLocking(st: State, trace: seq<int>, w: TransferWork)
    requires NewTransfer in w.faults || NewEntry(Source) in w.faults || NewEntry(Destination) in w.faults
    ensures var r := Work(st, trace, w);
      r.err.Some? && r.trace == trace && r.state.accounts == st.accounts
  {
    WorkUnfold(st, trace, w);
  }

  /** With no injected fault and the second account to lock missing, the run
      stops after the first account was already updated: a partial write that
      only the rollback of execTxn removes. */
  lemma {:induction false} WorkPartialWrite(st: State, trace: seq<int>, w: TransferWork)
    requires w.faults == map[]
    requires AccountOf(w.arg, FirstLocked(w.arg)) in st.accounts
    requires AccountOf(w.arg, Other(FirstLocked(w.arg))) !in st.accounts
    ensures var r := Work(st, trace, w); var f := FirstLocked(w.arg); var id := AccountOf(w.arg, f);
      && r.err == Some(ErrNoRows)
      && r.trace == trace + LockOrder(w.arg)
      && r.state.accounts == st.accounts[id := st.accounts[id] + DeltaOf(w.arg, f)]
  {
    var f := FirstLocked(w.arg);
    var g := Other(f);
    var o3 := Apply(Apply(Apply(Start(st, trace), w, NewTransfer), w, NewEntry(Source)), w, NewEntry(Destination));
    assert o3.state.accounts == st.accounts
        && Work(st, trace, w) == Apply(Apply(Apply(Apply(o3, w, Lock(f)), w, Update(f)), w, Lock(g)), w, Update(g))
    by {
      WorkSplit(st, trace, w);
    }
    assert o3.err.None? && o3.trace == trace;
    var o4 := Apply(o3, w, Lock(f));
    var o5 := Apply(o4, w, Update(f));
    assert o5.err.None? && o5.trace == trace + [AccountOf(w.arg, f)];
    var o6 := Apply(o5, w, Lock(g));
    assert o6.err == Some(ErrNoRows);
  }

  // ---------------------------------------------------------------------
  // Properties of TransferTx as a whole

  /** Unless a rollback is called and fails, TransferTx never changes the
      total of all balances: a committed transfer moves money, anything else
      keeps the snapshot. */
  lemma {:induction false} TransferTxConservesTotal(st: State, trace: seq<int>, txn: TxnFaults, w: TransferWork)
    requires txn.rollback.None? || txn.begin.Some? || Work(st, trace, w).err.None?
    ensures Total(TxnSpec(st, trace, txn, w).state.accounts) == Total(st.accounts)
  {
    var r := TxnSpec(st, trace, txn, w);
    if r.err.None? {
      WorkConservesTotal(st, trace, w);
    }
  }

  /** Locks are taken lower id first, also across the transaction wrapper. */
  lemma {:induction false} TransferTxLockTrace(st: State, trace: seq<int>, txn: TxnFaults, w: TransferWork)
    ensures var r := TxnSpec(st, trace, txn, w);
      && trace <= r.trace
      && r.trace[|trace|..] <= LockOrder(w.arg)
      && (r.err.None? ==> r.trace == trace + LockOrder(w.arg))
  {
    WorkLockTrace(st, trace, w);
    if txn.begin.Some? {
      assert TxnSpec(st, trace, txn, w).trace[|trace|..] == [];
    }
  }

  /** A missing account with nothing else going wrong: the whole transfer is
      rolled back and ErrNoRows is returned. */
  lemma {:induction false} TransferTxMissingAccount(st: State, trace: seq<int>, txn: TxnFaults, w: TransferWork)
    requires txn.begin.None? && txn.rollback.None? && w.faults == map[]
    requires w.arg.sourceAccountId !in st.accounts || w.arg.destinationAccountId !in st.accounts
    ensures var r := TxnSpec(st, trace, txn, w);
      r.err == Some(ErrNoRows) && r.state == st
  {
    WorkErrors(st, trace, w);
  }

  /** Account 1 (1000) pays 200 to account 2 (500): 800 and 700 afterwards. */
  lemma {:induction false} ScenarioOneToTwo(generated: string)
    ensures var st := State(map[1 := 1000, 2 := 500], [], []);
      var arg := TransferTxnParams(1, 2, 200, "USD", "REF1");
      var r := TxnSpec(st, [], TxnFaults(None, None, None), TransferWork(arg, generated, map[]));
      && r.err.None?
      && r.state.accounts == map[1 := 800, 2 := 700]
  {
    var st := State(map[1 := 1000, 2 := 500], [], []);
    var arg := TransferTxnParams(1, 2, 200, "USD", "REF1");
    var w := TransferWork(arg, generated, map[]);
    var r := Work(st, [], w);
    assert r.err.None? by { WorkErrors(st, [], w); }
    assert TxnSpec(st, [], TxnFaults(None, None, None), w) == r;
    assert r.state.accounts == map[1 := 800, 2 := 700] by {
      WorkBalances(st, [], w);
      assert r.state.accounts == st.accounts[1 := 800][2 := 700];
    }
  }

  /** The same transfer locks account 1 first and records a debit under
      "REF1" and a credit under the generated reference. */
  lemma {:induction false} ScenarioOneToTwoRecords(generated: string)
    ensures var st := State(map[1 := 1000, 2 := 500], [], []);
      var arg := TransferTxnParams(1, 2, 200, "USD", "REF1");
      var r := TxnSpec(st, [], TxnFaults(None, None, None), TransferWork(arg, generated, map[]));
      && r.trace == [1, 2]
      && r.result.transfer == Transfer(1, 2, 200, "USD", "REF1")
      && r.result.sourceTransaction == Transaction(1, 200, "DEBIT", "USD", "PENDING", "REF1")
      && r.result.destinationTransaction == Transaction(2, 200, "CREDIT", "USD", "PENDING", generated)
  {
    var st := State(map[1 := 1000, 2 := 500], [], []);
    var arg := TransferTxnParams(1, 2, 200, "USD", "REF1");
    var w := TransferWork(arg, generated, map[]);
    var r := Work(st, [], w);
    assert r.err.None? by { WorkErrors(st, [], w); }
    assert TxnSpec(st, [], TxnFaults(None, None, None), w) == r;
    assert r.trace == [1, 2] by {
      WorkLockTrace(st, [], w);
      assert LockOrder(arg) == [1, 2];
    }
    WorkRecords(st, [], w);
  }

  /** Account 5 pays 50 to account 3: account 3, the destination, is locked
      first because its id is lower. */
  lemma {:induction false} ScenarioFiveToThree(generated: string)
    ensures var st := State(map[3 := 100, 5 := 100], [], []);
      var arg := TransferTxnParams(5, 3, 50, "USD", "REF2");
      var r := TxnSpec(st, [], TxnFaults(None, None, None), TransferWork(arg, generated, map[]));
      && r.err.None?
      && r.trace == [3, 5]
      && r.state.accounts == map[3 := 150, 5 := 50]
  {
    var st := State(map[3 := 100, 5 := 100], [], []);
    var arg := TransferTxnParams(5, 3, 50, "USD", "REF2");
    var w := TransferWork(arg, generated, map[]);
    var r := Work(st, [], w);
    assert r.err.None? by { WorkErrors(st, [], w); }
    assert TxnSpec(st, [], TxnFaults(None, None, None), w) == r;
    assert r.state.accounts == map[3 := 150, 5 := 50] by {
      WorkBalances(st, [], w);
      assert r.state.accounts == st.accounts[5 := 50][3 := 150];
    }
    assert r.trace == [3, 5] by {
      WorkLockTrace(st, [], w);
      assert LockOrder(arg) == [3, 5];
    }
  }
}
