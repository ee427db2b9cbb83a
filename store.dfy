/** The SQL store: `ExecTx` runs a callback inside one database transaction and commits
    or rolls back, and `TransferTx` runs the transfer closure through it. The `Store`
    interface (the generated queries plus `TransferTx`) has this one implementation here. */
module Store {
  import opened Wrappers
  import opened Ledger
  import opened TxTransfer

  /** What the database reports for the transaction-control calls and for each query of the
      transaction; `None` is success. These stand for the connection pool, which is not modelled. */
  datatype Faults = Faults(begin: Option<Error>, queries: map<nat, Error>, rollback: Option<Error>, commit: Option<Error>)

  /** The error ExecTx returns when the callback failed with `err` and the rollback reported `rollback`. */
  function RollbackError(err: Error, rollback: Option<Error>): (r: Error)
    ensures rollback.None? ==> r == err
    ensures rollback.Some? ==> r.WithRollback? && r.txErr == err && r.rollbackErr == rollback.value
  {
    if rollback.Some? then WithRollback(err, rollback.value) else err
  }

  class SQLStore {
    /** The committed contents of the database. */
    var committed: Tables
    /** The queries the last transaction issued on its handle. */
    var lastCalls: seq<Call>

    constructor (tables: Tables)
      ensures committed == tables && lastCalls == []
    {
      committed := tables;
      lastCalls := [];
    }

    /** Begins a transaction, runs `fn` on a handle bound to it, and rolls back if `fn` fails
        or commits if it succeeds. The handle starts from a snapshot of the committed tables
        and `fn` reaches the database through that handle only, so the committed tables change
        only when the commit succeeds. */
    method ExecTx(fn: TransferClosure, faults: Faults) returns (err: Option<Error>)
      requires fn.result == ZeroResult
      modifies this, fn
      ensures faults.begin.Some? ==>
        && err == Some(CannotBegin(faults.begin.value))
        && committed == old(committed) && lastCalls == [] && fn.result == old(fn.result)
      ensures faults.begin.None? ==>
        var r := Outcome(old(committed), fn.args, faults.queries);
        && lastCalls == r.calls
        && fn.result == Assemble(fn.args, r.replies)
        && (r.err.Some? ==> err == Some(RollbackError(r.err.value, faults.rollback)) && committed == old(committed))
        && (r.err.None? ==> err == faults.commit && committed == if faults.commit.None? then r.tables else old(committed))
    {
      if faults.begin.Some? {
        lastCalls := [];
        return Some(CannotBegin(faults.begin.value));
      }
      var q := new Queries(committed, faults.queries);
      err := fn.Call(q);
      lastCalls := q.calls;
      if err.Some? {
        // Rolling back discards the handle's tables: the committed ones stay as they were.
        return Some(RollbackError(err.value, faults.rollback));
      }
      if faults.commit.None? {
        committed := q.tables;
      }
      err := faults.commit;
    }

    /** TransferTx: runs the transfer closure in one transaction and returns whatever the
        closure filled in, with ExecTx's error. */
    method TransferTx(args: TransferTxParams, faults: Faults) returns (result: TransferTxResult, err: Option<Error>)
      modifies this
      ensures err.None? <==>
        faults.begin.None? && Unfaulted(faults.queries) && Feasible(old(committed).accounts, args) && faults.commit.None?
      ensures err.None? ==>
        && committed == Transferred(old(committed), args)
        && lastCalls == TransferPlan(args)
        && result.transfer == Transfer(args.fromAccountId, args.toAccountId, args.amount)
        && result.fromEntry == Entry(args.fromAccountId, Neg64(args.amount))
        && result.toEntry == Entry(args.toAccountId, args.amount)
        && result.fromAccount == committed.accounts[args.fromAccountId]
        && (args.fromAccountId != args.toAccountId ==> result.toAccount == committed.accounts[args.toAccountId])
      ensures err.Some? ==> committed == old(committed)
      ensures WellFormed(old(committed)) ==> WellFormed(committed)
    {
      ghost var t0 := committed;
      TransferOutcome(t0, args, faults.queries);
      if WellFormed(t0) {
        ExecKeepsShape(t0, TransferPlan(args), 0, faults.queries);
      }
      var fn := new TransferClosure(args);
      err := ExecTx(fn, faults);
      result := fn.result;
    }
  }

  /** A committed transfer between two accounts holds exactly its rows and moves the money
      without changing the sum of the balances. */
  lemma CommittedTransfer(t: Tables, args: TransferTxParams)
    requires Feasible(t.accounts, args)
    requires args.fromAccountId != args.toAccountId && args.amount != MinInt64
    ensures var after := Transferred(t, args);
      && after.transfers == t.transfers + [Transfer(args.fromAccountId, args.toAccountId, args.amount)]
      && after.entries == t.entries + [Entry(args.fromAccountId, -args.amount), Entry(args.toAccountId, args.amount)]
      && after.accounts[args.fromAccountId].balance == t.accounts[args.fromAccountId].balance - args.amount
      && after.accounts[args.toAccountId].balance == t.accounts[args.toAccountId].balance + args.amount
      && Total(after.accounts) == Total(t.accounts)
  {
    Conservation(t.accounts, args);
  }
}
