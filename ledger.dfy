/** The rows of the ledger store (accounts, entries, transfers), the three queries the
    transfer transaction issues, and the handle (`Queries`) through which a transaction
    issues them. The SQL behind the queries is generated code that is not part of this
    model; each query gets the in-memory meaning the store's own tests pin down. */
module Ledger {
  import opened Wrappers

  const MinInt64: int := -0x8000_0000_0000_0000
  const MaxInt64: int := 0x7fff_ffff_ffff_ffff

  /** Go's `int64` (and Postgres' `bigint`). */
  type Int64 = x: int | MinInt64 <= x <= MaxInt64

  predicate InInt64(x: int) {
    MinInt64 <= x <= MaxInt64
  }

  /** Go's unary minus on `int64`: two's-complement, so the most negative value is its own negation. */
  function Neg64(x: Int64): (r: Int64)
    ensures x != MinInt64 ==> r == -x && r + x == 0
    ensures x == MinInt64 ==> r == x
  {
    if x == MinInt64 then x else -x
  }

  /** Errors reported by the store. `NoRows` is pgx.ErrNoRows, `UniqueViolation` the
      Postgres code 23505, `OutOfRange` the bigint overflow of a balance update; `Driver`
      stands for every other error the database or the connection may report. The last two
      are the wrappers ExecTx builds. */
  datatype Error =
    | NoRows
    | UniqueViolation
    | OutOfRange
    | Driver(code: string)
    | CannotBegin(cause: Error)
    | WithRollback(txErr: Error, rollbackErr: Error)

  /** `createdAt` is an opaque stamp set by the store; the clock itself is not modelled. */
  datatype Account = Account(id: int, ownerId: int, balance: Int64, currency: string, createdAt: int)

  datatype Entry = Entry(accountId: int, amount: Int64)

  datatype Transfer = Transfer(fromAccountId: int, toAccountId: int, amount: Int64)

  /** Go's zero values, which sqlc returns beside an error. */
  const ZeroAccount := Account(0, 0, 0, "", 0)
  const ZeroEntry := Entry(0, 0)
  const ZeroTransfer := Transfer(0, 0, 0)

  /** The store's tables: accounts keyed by id, entries and transfers append-only. */
  datatype Tables = Tables(accounts: map<int, Account>, entries: seq<Entry>, transfers: seq<Transfer>)

  /** Every account row is stored under its own id. */
  ghost predicate WellFormed(t: Tables) {
    forall id :: id in t.accounts ==> t.accounts[id].id == id
  }

  /** A query issued on a transaction handle, with its arguments. */
  datatype Call =
    | CreateTransferCall(fromAccountId: int, toAccountId: int, amount: Int64)
    | CreateEntryCall(accountId: int, amount: Int64)
    | AddAccountBalanceCall(id: int, amount: Int64)

  /** The row a successful query returns. */
  datatype Reply = TransferRow(transfer: Transfer) | EntryRow(entry: Entry) | AccountRow(account: Account)

  /** AddAccountBalance: adds `amount` to the balance of account `id` and returns the
      updated row; an unknown id matches no row, and a sum outside bigint is refused. */
  function AddBalance(accounts: map<int, Account>, id: int, amount: Int64): (r: Result<Account, Error>)
    ensures id !in accounts <==> r == Failure(NoRows)
    ensures r.Success? ==>
      r.value.balance == accounts[id].balance + amount && r.value == accounts[id].(balance := r.value.balance)
    ensures id in accounts && r.Failure? ==> r.error == OutOfRange && !InInt64(accounts[id].balance + amount)
  {
    if id !in accounts then Failure(NoRows)
    else if !InInt64(accounts[id].balance + amount) then Failure(OutOfRange)
    else Success(accounts[id].(balance := accounts[id].balance + amount))
  }

  /** What one query does to the tables when the store reports no fault. */
  function Step(t: Tables, c: Call): Result<(Tables, Reply), Error>
  {
    match c
    case CreateTransferCall(f, to, amount) =>
      var row := Transfer(f, to, amount);
      Success((t.(transfers := t.transfers + [row]), TransferRow(row)))
    case CreateEntryCall(account, amount) =>
      var row := Entry(account, amount);
      Success((t.(entries := t.entries + [row]), EntryRow(row)))
    case AddAccountBalanceCall(id, amount) =>
      match AddBalance(t.accounts, id, amount)
      case Failure(e) => Failure(e)
      case Success(a) => Success((t.(accounts := t.accounts[id := a]), AccountRow(a)))
  }

  /** The `k`-th query of a transaction: the store may fail it for reasons outside the
      model (a lost connection, a cancelled context); `faults` says which ones it fails. */
  function Query(t: Tables, c: Call, k: nat, faults: map<nat, Error>): Result<(Tables, Reply), Error>
  {
    if k in faults then Failure(faults[k]) else Step(t, c)
  }

  /** The outcome of issuing a list of queries with early return on the first error:
      the tables afterwards, the rows returned, the queries actually issued, the error. */
  datatype Run = Run(tables: Tables, replies: seq<Reply>, calls: seq<Call>, err: Option<Error>)

  /** Issues `plan` in order, starting at query number `k`, and stops at the first error. */
  function Exec(t: Tables, plan: seq<Call>, k: nat, faults: map<nat, Error>): Run
    decreases |plan|
  {
    if plan == [] then Run(t, [], [], None)
    else
      var q := Query(t, plan[0], k, faults);
      if q.Failure? then Run(t, [], [plan[0]], Some(q.error))
      else
        var rest := Exec(q.value.0, plan[1..], k + 1, faults);
        Run(rest.tables, [q.value.1] + rest.replies, [plan[0]] + rest.calls, rest.err)
  }

  /** The queries issued are a prefix of the list: all of it, each answered by a row, when
      no error occurs; otherwise every query up to and including the failing one. */
  lemma {:induction false} ExecShape(t: Tables, plan: seq<Call>, k: nat, faults: map<nat, Error>)
    ensures var r := Exec(t, plan, k, faults);
      && r.calls <= plan
      && (r.err.None? ==> r.calls == plan && |r.replies| == |plan|)
      && (r.err.Some? ==> |r.calls| == |r.replies| + 1)
    decreases |plan|
  {
    if plan != [] {
      var q := Query(t, plan[0], k, faults);
      if q.Success? {
        ExecShape(q.value.0, plan[1..], k + 1, faults);
      }
    }
  }

  /** Running two lists one after the other, the second only if the first succeeded, is
      running their concatenation. */
  lemma {:induction false} ExecAppend(t: Tables, p1: seq<Call>, p2: seq<Call>, k: nat, faults: map<nat, Error>)
    ensures var r1 := Exec(t, p1, k, faults);
      Exec(t, p1 + p2, k, faults) ==
        if r1.err.Some? then r1
        else
          var r2 := Exec(r1.tables, p2, k + |p1|, faults);
          Run(r2.tables, r1.replies + r2.replies, r1.calls + r2.calls, r2.err)
    decreases |p1|
  {
    if p1 == [] {
      assert p1 + p2 == p2;
    } else {
      var p := p1 + p2;
      assert p[0] == p1[0];
      assert p[1..] == p1[1..] + p2;
      var q := Query(t, p1[0], k, faults);
      if q.Success? {
        var t', reply := q.value.0, q.value.1;
        ExecAppend(t', p1[1..], p2, k + 1, faults);
        var r1 := Exec(t', p1[1..], k + 1, faults);
        if r1.err.None? {
          var r2 := Exec(r1.tables, p2, k + 1 + |p1[1..]|, faults);
          assert [reply] + (r1.replies + r2.replies) == ([reply] + r1.replies) + r2.replies;
          assert [p1[0]] + (r1.calls + r2.calls) == ([p1[0]] + r1.calls) + r2.calls;
        }
      }
    }
  }

  /** When a list stops on an error, the failing query is the last one issued (no later one
      is attempted), it failed on the tables the earlier queries left, and those tables are
      the outcome. */
  lemma {:induction false} ExecStopsAtFailure(t: Tables, plan: seq<Call>, k: nat, faults: map<nat, Error>)
    ensures var r := Exec(t, plan, k, faults);
      var n := |r.replies|;
      r.err.Some? ==>
        n < |plan| && r.calls == plan[..n + 1] &&
        var before := Exec(t, plan[..n], k, faults);
        before.err.None? && r.tables == before.tables &&
        Query(before.tables, plan[n], k + n, faults) == Failure(r.err.value)
    decreases |plan|
  {
    var r := Exec(t, plan, k, faults);
    if plan != [] && r.err.Some? {
      var q := Query(t, plan[0], k, faults);
      if q.Failure? {
        assert plan[..0] == [];
      } else {
        var t' := q.value.0;
        ExecShape(t', plan[1..], k + 1, faults);
        ExecStopsAtFailure(t', plan[1..], k + 1, faults);
        var n := |r.replies| - 1;
        assert plan[..n + 1][0] == plan[0];
        assert plan[..n + 1][1..] == plan[1..][..n];
      }
    }
  }

  /** Two queries in a row, spelled out. */
  lemma ExecPair(t: Tables, c1: Call, c2: Call, k: nat, faults: map<nat, Error>)
    ensures Exec(t, [c1, c2], k, faults) ==
      match Query(t, c1, k, faults)
      case Failure(e) => Run(t, [], [c1], Some(e))
      case Success((t1, r1)) =>
        match Query(t1, c2, k + 1, faults)
        case Failure(e) => Run(t1, [r1], [c1, c2], Some(e))
        case Success((t2, r2)) => Run(t2, [r1, r2], [c1, c2], None)
  {
    assert [c1, c2][0] == c1 && [c1, c2][1..] == [c2] && [c2][0] == c2 && [c2][1..] == [];
    match Query(t, c1, k, faults)
    case Failure(_) =>
    case Success((t1, r1)) =>
      match Query(t1, c2, k + 1, faults)
      case Failure(_) =>
      case Success((t2, _)) =>
        assert Exec(t2, [], k + 2, faults) == Run(t2, [], [], None);
  }

  /** Every error a list of queries reports is a fault the store injected or one of the two
      errors a query itself can raise: no such account, or a balance out of range. */
  lemma {:induction false} ExecErrorKind(t: Tables, plan: seq<Call>, k: nat, faults: map<nat, Error>)
    ensures var r := Exec(t, plan, k, faults);
      r.err.Some? ==> r.err.value in faults.Values || r.err.value == NoRows || r.err.value == OutOfRange
    decreases |plan|
  {
    if plan != [] {
      var q := Query(t, plan[0], k, faults);
      if q.Success? {
        ExecErrorKind(q.value.0, plan[1..], k + 1, faults);
      } else if k in faults {
        assert faults[k] in faults.Values;
      }
    }
  }

  /** Queries only append to the entries and transfers, and keep every account row under its own id. */
  lemma {:induction false} ExecKeepsShape(t: Tables, plan: seq<Call>, k: nat, faults: map<nat, Error>)
    requires WellFormed(t)
    ensures var r := Exec(t, plan, k, faults);
      && WellFormed(r.tables)
      && r.tables.accounts.Keys == t.accounts.Keys
      && t.entries <= r.tables.entries
      && t.transfers <= r.tables.transfers
    decreases |plan|
  {
    if plan != [] {
      var q := Query(t, plan[0], k, faults);
      if q.Success? {
        ExecKeepsShape(q.value.0, plan[1..], k + 1, faults);
      }
    }
  }

  /** The sum of all balances. */
  ghost function Total(accounts: map<int, Account>): int {
    SumOver(accounts, accounts.Keys)
  }

  lemma HasMember(ids: set<int>)
    requires ids != {}
    ensures exists i :: i in ids
  {
    if forall i :: i !in ids {
      assert false;
    }
  }

  /** The sum of the balances of the accounts whose ids are in `ids`. */
  ghost function SumOver(accounts: map<int, Account>, ids: set<int>): int
    requires ids <= accounts.Keys
    decreases ids
  {
    if ids == {} then 0
    else
      HasMember(ids);
      var i :| i in ids;
      accounts[i].balance + SumOver(accounts, ids - {i})
  }

  /** Any account can be taken out of the sum first. */
  lemma {:induction false} SumOverRemove(accounts: map<int, Account>, ids: set<int>, id: int)
    requires ids <= accounts.Keys && id in ids
    ensures SumOver(accounts, ids) == accounts[id].balance + SumOver(accounts, ids - {id})
    decreases ids
  {
    var j :| j in ids && SumOver(accounts, ids) == accounts[j].balance + SumOver(accounts, ids - {j});
    if j != id {
      SumOverRemove(accounts, ids - {j}, id);
      SumOverRemove(accounts, ids - {id}, j);
      assert ids - {j} - {id} == ids - {id} - {j};
    }
  }

  /** The sum only reads the balances of the accounts it ranges over. */
  lemma {:induction false} SumOverAgree(a: map<int, Account>, b: map<int, Account>, ids: set<int>)
    requires ids <= a.Keys && ids <= b.Keys
    requires forall id :: id in ids ==> a[id].balance == b[id].balance
    ensures SumOver(a, ids) == SumOver(b, ids)
    decreases ids
  {
    if ids != {} {
      HasMember(ids);
      var id :| id in ids && SumOver(a, ids) == a[id].balance + SumOver(a, ids - {id});
      SumOverRemove(b, ids, id);
      SumOverAgree(a, b, ids - {id});
    }
  }

  /** Replacing one account's row changes the sum of all balances by the change of that balance. */
  lemma TotalUpdate(accounts: map<int, Account>, id: int, a: Account)
    requires id in accounts
    ensures Total(accounts[id := a]) == Total(accounts) - accounts[id].balance + a.balance
  {
    var m := accounts[id := a];
    assert m.Keys == accounts.Keys;
    SumOverRemove(accounts, accounts.Keys, id);
    SumOverRemove(m, m.Keys, id);
    SumOverAgree(accounts, m, accounts.Keys - {id});
  }

  /** The handle of one open transaction (sqlc's `Queries` bound to a `pgx.Tx`): the
      transaction's view of the tables, the queries issued on it so far, and the faults
      the store will report. */
  class Queries {
    var tables: Tables
    var calls: seq<Call>
    const faults: map<nat, Error>

    constructor (tables: Tables, faults: map<nat, Error>)
      ensures this.tables == tables && this.faults == faults && calls == []
    {
      this.tables := tables;
      this.faults := faults;
      calls := [];
    }

    /** Inserts a transfer row `(from, to, amount)` and returns it. */
    method CreateTransfer(fromAccountId: int, toAccountId: int, amount: Int64) returns (t: Transfer, err: Option<Error>)
      modifies this
      ensures calls == old(calls) + [CreateTransferCall(fromAccountId, toAccountId, amount)]
      ensures match Query(old(tables), CreateTransferCall(fromAccountId, toAccountId, amount), |old(calls)|, faults)
        case Failure(e) => err == Some(e) && t == ZeroTransfer && tables == old(tables)
        case Success((t', reply)) => err == None && TransferRow(t) == reply && tables == t'
    {
      var c := CreateTransferCall(fromAccountId, toAccountId, amount);
      match Query(tables, c, |calls|, faults) {
        case Failure(e) =>
          t, err := ZeroTransfer, Some(e);
        case Success((t', reply)) =>
          t, err := reply.transfer, None;
          tables := t';
      }
      calls := calls + [c];
    }

    /** Appends an entry `(account, amount)` and returns it. */
    method CreateEntry(accountId: int, amount: Int64) returns (e: Entry, err: Option<Error>)
      modifies this
      ensures calls == old(calls) + [CreateEntryCall(accountId, amount)]
      ensures match Query(old(tables), CreateEntryCall(accountId, amount), |old(calls)|, faults)
        case Failure(x) => err == Some(x) && e == ZeroEntry && tables == old(tables)
        case Success((t', reply)) => err == None && EntryRow(e) == reply && tables == t'
    {
      var c := CreateEntryCall(accountId, amount);
      match Query(tables, c, |calls|, faults) {
        case Failure(x) =>
          e, err := ZeroEntry, Some(x);
        case Success((t', reply)) =>
          e, err := reply.entry, None;
          tables := t';
      }
      calls := calls + [c];
    }

    /** Adds `amount` to the balance of account `id` and returns the updated row. */
    method AddAccountBalance(id: int, amount: Int64) returns (a: Account, err: Option<Error>)
      modifies this
      ensures calls == old(calls) + [AddAccountBalanceCall(id, amount)]
      ensures match Query(old(tables), AddAccountBalanceCall(id, amount), |old(calls)|, faults)
        case Failure(x) => err == Some(x) && a == ZeroAccount && tables == old(tables)
        case Success((t', reply)) => err == None && AccountRow(a) == reply && tables == t'
    {
      var c := AddAccountBalanceCall(id, amount);
      match Query(tables, c, |calls|, faults) {
        case Failure(x) =>
          a, err := ZeroAccount, Some(x);
        case Success((t', reply)) =>
          a, err := reply.account, None;
          tables := t';
      }
      calls := calls + [c];
    }
  }
}
