/** The funds-transfer transaction: the closure `TransferTx` runs inside one store
    transaction, and `addMoney`, which applies the two balance deltas. */
module TxTransfer {
  import opened Wrappers
  import opened Ledger

  datatype TransferTxParams = TransferTxParams(fromAccountId: Int64, toAccountId: Int64, amount: Int64)

  datatype TransferTxResult = TransferTxResult(
    transfer: Transfer,
    fromAccount: Account,
    toAccount: Account,
    fromEntry: Entry,
    toEntry: Entry)

  const ZeroResult := TransferTxResult(ZeroTransfer, ZeroAccount, ZeroAccount, ZeroEntry, ZeroEntry)

  /** The three inserts: the transfer row, the debit entry, the credit entry. */
  function Inserts(p: TransferTxParams): seq<Call> {
    [ CreateTransferCall(p.fromAccountId, p.toAccountId, p.amount),
      CreateEntryCall(p.fromAccountId, Neg64(p.amount)),
      CreateEntryCall(p.toAccountId, p.amount) ]
  }

  /** The inserts can only fail by a store fault: the first query the store faults stops them. */
  lemma InsertsRun(t: Tables, p: TransferTxParams, faults: map<nat, Error>)
    ensures var ins := Inserts(p);
      var tr, debit, credit := Transfer(p.fromAccountId, p.toAccountId, p.amount), Entry(p.fromAccountId, Neg64(p.amount)), Entry(p.toAccountId, p.amount);
      var t1 := t.(transfers := t.transfers + [tr]);
      var t2 := t1.(entries := t1.entries + [debit]);
      var t3 := t2.(entries := t2.entries + [credit]);
      Exec(t, ins, 0, faults) ==
        if 0 in faults then Run(t, [], ins[..1], Some(faults[0]))
        else if 1 in faults then Run(t1, [TransferRow(tr)], ins[..2], Some(faults[1]))
        else if 2 in faults then Run(t2, [TransferRow(tr), EntryRow(debit)], ins, Some(faults[2]))
        else Run(t3, [TransferRow(tr), EntryRow(debit), EntryRow(credit)], ins, None)
  {
    var ins := Inserts(p);
    assert ins[..1] == [ins[0]] && ins[..2] == [ins[0], ins[1]];
    assert ins[1..] == [ins[1], ins[2]] && ins[1..][1..] == [ins[2]] && ins[1..][1..][1..] == [];
    if 0 !in faults {
      var t1 := Step(t, ins[0]).value.0;
      if 1 !in faults {
        var t2 := Step(t1, ins[1]).value.0;
        var r2 := Exec(t2, ins[1..][1..], 2, faults);
        if 2 !in faults {
          var t3 := Step(t2, ins[2]).value.0;
          assert Exec(t3, ins[1..][1..][1..], 3, faults) == Run(t3, [], [], None);
        }
      }
    }
  }

  /** The two balance updates, the smaller account id first whatever its role. */
  function BalanceUpdates(p: TransferTxParams): seq<Call> {
    if p.fromAccountId < p.toAccountId then
      [AddAccountBalanceCall(p.fromAccountId, Neg64(p.amount)), AddAccountBalanceCall(p.toAccountId, p.amount)]
    else
      [AddAccountBalanceCall(p.toAccountId, p.amount), AddAccountBalanceCall(p.fromAccountId, Neg64(p.amount))]
  }

  /** Each account is locked by its balance update, so every transfer takes its two locks in
      ascending id order; the updates are the debit of `from` and the credit of `to`, once each. */
  lemma LockOrder(p: TransferTxParams)
    ensures var r := BalanceUpdates(p);
      && |r| == 2 && r[0].AddAccountBalanceCall? && r[1].AddAccountBalanceCall?
      && r[0].id <= r[1].id
      && multiset(r) == multiset{AddAccountBalanceCall(p.fromAccountId, Neg64(p.amount)), AddAccountBalanceCall(p.toAccountId, p.amount)}
  {
  }

  /** Every query the transfer closure issues, in the order it issues them. */
  function TransferPlan(p: TransferTxParams): seq<Call> {
    Inserts(p) + BalanceUpdates(p)
  }

  /** What the closure does on a handle whose view of the tables is `t`. */
  function Outcome(t: Tables, p: TransferTxParams, faults: map<nat, Error>): Run {
    Exec(t, TransferPlan(p), 0, faults)
  }

  function TransferAt(replies: seq<Reply>, i: nat): Transfer {
    if i < |replies| && replies[i].TransferRow? then replies[i].transfer else ZeroTransfer
  }

  function EntryAt(replies: seq<Reply>, i: nat): Entry {
    if i < |replies| && replies[i].EntryRow? then replies[i].entry else ZeroEntry
  }

  function AccountAt(replies: seq<Reply>, i: nat): Account {
    if i < |replies| && replies[i].AccountRow? then replies[i].account else ZeroAccount
  }

  /** The result the closure has filled in once the queries of `TransferPlan(p)` have
      returned `replies`: a field whose query was not reached, or failed, keeps Go's zero
      value. The two account snapshots go back to their roles whichever was updated first. */
  function Assemble(p: TransferTxParams, replies: seq<Reply>): TransferTxResult {
    var first, second := AccountAt(replies, 3), AccountAt(replies, 4);
    TransferTxResult(
      TransferAt(replies, 0),
      if p.fromAccountId < p.toAccountId then first else second,
      if p.fromAccountId < p.toAccountId then second else first,
      EntryAt(replies, 1),
      EntryAt(replies, 2))
  }

  /** When one of the inserts is faulted, the outcome is the inserts' own run, and the result
      holds the rows inserted before the fault. */
  lemma OutcomeOfFailedInserts(t: Tables, p: TransferTxParams, faults: map<nat, Error>)
    ensures var tr, debit := Transfer(p.fromAccountId, p.toAccountId, p.amount), Entry(p.fromAccountId, Neg64(p.amount));
      var ins := Inserts(p);
      var t1 := t.(transfers := t.transfers + [tr]);
      && (0 in faults ==>
            && Outcome(t, p, faults) == Run(t, [], [ins[0]], Some(faults[0]))
            && Assemble(p, []) == ZeroResult)
      && (0 !in faults && 1 in faults ==>
            && Outcome(t, p, faults) == Run(t1, [TransferRow(tr)], [ins[0], ins[1]], Some(faults[1]))
            && Assemble(p, [TransferRow(tr)]) == ZeroResult.(transfer := tr))
      && (0 !in faults && 1 !in faults && 2 in faults ==>
            && Outcome(t, p, faults) == Run(t1.(entries := t1.entries + [debit]), [TransferRow(tr), EntryRow(debit)], ins, Some(faults[2]))
            && Assemble(p, [TransferRow(tr), EntryRow(debit)]) == ZeroResult.(transfer := tr, fromEntry := debit))
  {
    ExecAppend(t, Inserts(p), BalanceUpdates(p), 0, faults);
    InsertsRun(t, p, faults);
  }

  /** Once the three inserts are through, the outcome is theirs followed by the two balance
      updates, and the assembled result takes the account rows from the updates' replies. */
  lemma OutcomeAfterInserts(t: Tables, p: TransferTxParams, faults: map<nat, Error>)
    requires 0 !in faults && 1 !in faults && 2 !in faults
    ensures var tr, debit, credit := Transfer(p.fromAccountId, p.toAccountId, p.amount), Entry(p.fromAccountId, Neg64(p.amount)), Entry(p.toAccountId, p.amount);
      var t3 := t.(transfers := t.transfers + [tr], entries := t.entries + [debit, credit]);
      var u := Exec(t3, BalanceUpdates(p), 3, faults);
      var first, second := AccountAt(u.replies, 0), AccountAt(u.replies, 1);
      && Outcome(t, p, faults) == Run(u.tables, [TransferRow(tr), EntryRow(debit), EntryRow(credit)] + u.replies, Inserts(p) + u.calls, u.err)
      && Assemble(p, Outcome(t, p, faults).replies) ==
         TransferTxResult(tr,
           if p.fromAccountId < p.toAccountId then first else second,
           if p.fromAccountId < p.toAccountId then second else first,
           debit, credit)
  {
    var tr, debit, credit := Transfer(p.fromAccountId, p.toAccountId, p.amount), Entry(p.fromAccountId, Neg64(p.amount)), Entry(p.toAccountId, p.amount);
    assert t.entries + [debit] + [credit] == t.entries + [debit, credit];
    ExecAppend(t, Inserts(p), BalanceUpdates(p), 0, faults);
    InsertsRun(t, p, faults);
    var t3 := t.(transfers := t.transfers + [tr], entries := t.entries + [debit, credit]);
    AssembleAfterInserts(p, tr, debit, credit, Exec(t3, BalanceUpdates(p), 3, faults).replies);
  }

  lemma AssembleAfterInserts(p: TransferTxParams, tr: Transfer, debit: Entry, credit: Entry, rest: seq<Reply>)
    ensures var first, second := AccountAt(rest, 0), AccountAt(rest, 1);
      Assemble(p, [TransferRow(tr), EntryRow(debit), EntryRow(credit)] + rest) ==
        TransferTxResult(tr,
          if p.fromAccountId < p.toAccountId then first else second,
          if p.fromAccountId < p.toAccountId then second else first,
          debit, credit)
  {
    var rs := [TransferRow(tr), EntryRow(debit), EntryRow(credit)] + rest;
    assert AccountAt(rs, 3) == AccountAt(rest, 0);
    assert AccountAt(rs, 4) == AccountAt(rest, 1);
  }

  /** addMoney: two balance updates on the same handle; the second is attempted only if the first succeeded. */
  method AddMoney(q: Queries, account1Id: Int64, amount1: Int64, account2Id: Int64, amount2: Int64)
    returns (account1: Account, account2: Account, err: Option<Error>)
    modifies q
    ensures var r := Exec(old(q.tables), [AddAccountBalanceCall(account1Id, amount1), AddAccountBalanceCall(account2Id, amount2)], |old(q.calls)|, q.faults);
      && q.tables == r.tables
      && q.calls == old(q.calls) + r.calls
      && err == r.err
      && account1 == AccountAt(r.replies, 0)
      && account2 == AccountAt(r.replies, 1)
    ensures Query(old(q.tables), AddAccountBalanceCall(account1Id, amount1), |old(q.calls)|, q.faults).Failure? ==>
      && q.calls == old(q.calls) + [AddAccountBalanceCall(account1Id, amount1)]
      && q.tables == old(q.tables)
      && account1 == ZeroAccount && account2 == ZeroAccount && err.Some?
  {
    ghost var t0, k := q.tables, |q.calls|;
    ghost var c1, c2 := AddAccountBalanceCall(account1Id, amount1), AddAccountBalanceCall(account2Id, amount2);
    assert [c1, c2][0] == c1 && [c1, c2][1..] == [c2] && [c2][0] == c2 && [c2][1..] == [];
    account2 := ZeroAccount;
    account1, err := q.AddAccountBalance(account1Id, amount1);
    if err.Some? {
      return;
    }
    ghost var t1 := q.tables;
    account2, err := q.AddAccountBalance(account2Id, amount2);
    assert Exec(t1, [c2], k + 1, q.faults).calls == [c2];
  }

  /** The closure `TransferTx` hands to ExecTx, with the variable it captures: it reads the
      parameters and fills in `result` step by step, returning at the first error. */
  class TransferClosure {
    const args: TransferTxParams
    var result: TransferTxResult

    constructor (args: TransferTxParams)
      ensures this.args == args && result == ZeroResult
    {
      this.args := args;
      result := ZeroResult;
    }

    /** Runs the closure body on the transaction handle `q`. */
    method Call(q: Queries) returns (err: Option<Error>)
      requires q.calls == [] && result == ZeroResult
      modifies this, q
      ensures var r := Outcome(old(q.tables), args, q.faults);
        q.tables == r.tables && q.calls == r.calls && err == r.err && result == Assemble(args, r.replies)
    {
      ghost var t0 := q.tables;
      ghost var faults := q.faults;
      OutcomeOfFailedInserts(t0, args, faults);

      var transfer, fromEntry, toEntry;
      transfer, err := q.CreateTransfer(args.fromAccountId, args.toAccountId, args.amount);
      result := result.(transfer := transfer);
      if err.Some? {
        return;
      }

      fromEntry, err := q.CreateEntry(args.fromAccountId, Neg64(args.amount));
      result := result.(fromEntry := fromEntry);
      if err.Some? {
        return;
      }

      toEntry, err := q.CreateEntry(args.toAccountId, args.amount);
      result := result.(toEntry := toEntry);
      if err.Some? {
        return;
      }

      OutcomeAfterInserts(t0, args, faults);
      ghost var tr, debit, credit := Transfer(args.fromAccountId, args.toAccountId, args.amount), Entry(args.fromAccountId, Neg64(args.amount)), Entry(args.toAccountId, args.amount);
      assert t0.entries + [debit] + [credit] == t0.entries + [debit, credit];
      assert q.tables == t0.(transfers := t0.transfers + [tr], entries := t0.entries + [debit, credit]);
      assert q.calls == Inserts(args);
      err := MoveMoney(q);
    }

    /** The last step of the closure: the two balance updates in lock order, each updated
        account stored under its own role. */
    method MoveMoney(q: Queries) returns (err: Option<Error>)
      modifies this, q
      ensures var u := Exec(old(q.tables), BalanceUpdates(args), |old(q.calls)|, q.faults);
        var first, second := AccountAt(u.replies, 0), AccountAt(u.replies, 1);
        && q.tables == u.tables && q.calls == old(q.calls) + u.calls && err == u.err
        && result == old(result).(
             fromAccount := if args.fromAccountId < args.toAccountId then first else second,
             toAccount := if args.fromAccountId < args.toAccountId then second else first)
    {
      var first, second;
      if args.fromAccountId < args.toAccountId {
        first, second, err := AddMoney(q, args.fromAccountId, Neg64(args.amount), args.toAccountId, args.amount);
        result := result.(fromAccount := first, toAccount := second);
      } else {
        first, second, err := AddMoney(q, args.toAccountId, args.amount, args.fromAccountId, Neg64(args.amount));
        result := result.(toAccount := first, fromAccount := second);
      }
    }
  }

  /** The transfer can be applied to `accounts`: both accounts exist, and each balance stays
      within bigint after each of the two updates, taken in the order they are issued. */
  ghost predicate Feasible(accounts: map<int, Account>, p: TransferTxParams) {
    var from, to, a := p.fromAccountId, p.toAccountId, p.amount;
    && from in accounts && to in accounts
    && if from == to then
         InInt64(accounts[to].balance + a) && InInt64(accounts[to].balance + a + Neg64(a))
       else
         InInt64(accounts[from].balance + Neg64(a)) && InInt64(accounts[to].balance + a)
  }

  /** The accounts once the credit to `to` and the debit `-amount` of `from` are both applied. */
  ghost function Moved(accounts: map<int, Account>, p: TransferTxParams): map<int, Account>
    requires Feasible(accounts, p)
  {
    var from, to, a := p.fromAccountId, p.toAccountId, p.amount;
    var credited := accounts[to := accounts[to].(balance := accounts[to].balance + a)];
    credited[from := credited[from].(balance := credited[from].balance + Neg64(a))]
  }

  /** The tables a committed transfer leaves. */
  ghost function Transferred(t: Tables, p: TransferTxParams): Tables
    requires Feasible(t.accounts, p)
  {
    Tables(
      Moved(t.accounts, p),
      t.entries + [Entry(p.fromAccountId, Neg64(p.amount)), Entry(p.toAccountId, p.amount)],
      t.transfers + [Transfer(p.fromAccountId, p.toAccountId, p.amount)])
  }

  /** No fault is injected into any of the five queries of the transfer. */
  predicate Unfaulted(faults: map<nat, Error>) {
    forall k: nat :: k < 5 ==> k !in faults
  }

  /** The two updates of `BalanceUpdates(p)` on the tables the inserts left. */
  lemma UpdatesRun(t: Tables, p: TransferTxParams, faults: map<nat, Error>)
    requires 3 !in faults && 4 !in faults
    ensures var u := Exec(t, BalanceUpdates(p), 3, faults);
      && (u.err.None? <==> Feasible(t.accounts, p))
      && (u.err.None? ==>
            var m := Moved(t.accounts, p);
            var from, to, a := p.fromAccountId, p.toAccountId, p.amount;
            && u.tables == t.(accounts := m)
            && (from < to ==> AccountAt(u.replies, 0) == m[from] && AccountAt(u.replies, 1) == m[to])
            && (from > to ==> AccountAt(u.replies, 0) == m[to] && AccountAt(u.replies, 1) == m[from])
            && (from == to ==>
                  AccountAt(u.replies, 0) == t.accounts[to].(balance := t.accounts[to].balance + a)
                  && AccountAt(u.replies, 1) == m[from]))
  {
    var ups := BalanceUpdates(p);
    ExecPair(t, ups[0], ups[1], 3, faults);
    assert ups == [ups[0], ups[1]];
    if p.fromAccountId < p.toAccountId {
      DebitFirst(t, p);
    } else {
      CreditFirst(t, p);
    }
  }

  /** The updates in the order debit, credit, as issued when `from < to`. */
  lemma DebitFirst(t: Tables, p: TransferTxParams)
    requires p.fromAccountId < p.toAccountId
    ensures var from, to, a := p.fromAccountId, p.toAccountId, p.amount;
      var first := AddBalance(t.accounts, from, Neg64(a));
      && (Feasible(t.accounts, p) <==>
            first.Success? && AddBalance(t.accounts[from := first.value], to, a).Success?)
      && (Feasible(t.accounts, p) ==>
            var m := Moved(t.accounts, p);
            && first.value == m[from]
            && AddBalance(t.accounts[from := first.value], to, a).value == m[to]
            && t.accounts[from := m[from]][to := m[to]] == m)
  {
  }

  /** The updates in the order credit, debit, as issued when `from >= to`. */
  lemma CreditFirst(t: Tables, p: TransferTxParams)
    requires p.fromAccountId >= p.toAccountId
    ensures var from, to, a := p.fromAccountId, p.toAccountId, p.amount;
      var first := AddBalance(t.accounts, to, a);
      && (Feasible(t.accounts, p) <==>
            first.Success? && AddBalance(t.accounts[to := first.value], from, Neg64(a)).Success?)
      && (Feasible(t.accounts, p) ==>
            var m := Moved(t.accounts, p);
            && first.value == t.accounts[to].(balance := t.accounts[to].balance + a)
            && AddBalance(t.accounts[to := first.value], from, Neg64(a)).value == m[from]
            && t.accounts[to := first.value][from := m[from]] == m
            && (from != to ==> first.value == m[to]))
  {
  }

  /** The transfer's queries all succeed exactly when no fault hits them and the transfer is
      feasible; then the tables hold the transfer row, its two entries and the moved balances,
      and the result carries those rows, each account under its own role. */
  lemma TransferOutcome(t: Tables, p: TransferTxParams, faults: map<nat, Error>)
    ensures var r := Outcome(t, p, faults);
      && (r.err.None? <==> Unfaulted(faults) && Feasible(t.accounts, p))
      && (r.err.None? ==>
            var m := Moved(t.accounts, p);
            var res := Assemble(p, r.replies);
            && r.tables == Transferred(t, p)
            && r.calls == TransferPlan(p)
            && res.transfer == Transfer(p.fromAccountId, p.toAccountId, p.amount)
            && res.fromEntry == Entry(p.fromAccountId, Neg64(p.amount))
            && res.toEntry == Entry(p.toAccountId, p.amount)
            && (res.fromEntry.amount + res.toEntry.amount == 0 <==> p.amount != MinInt64)
            && res.fromAccount == m[p.fromAccountId]
            && (p.fromAccountId != p.toAccountId ==> res.toAccount == m[p.toAccountId]))
  {
    OutcomeOfFailedInserts(t, p, faults);
    if 0 !in faults && 1 !in faults && 2 !in faults {
      OutcomeAfterInserts(t, p, faults);
      var tr, debit, credit := Transfer(p.fromAccountId, p.toAccountId, p.amount), Entry(p.fromAccountId, Neg64(p.amount)), Entry(p.toAccountId, p.amount);
      var t3 := t.(transfers := t.transfers + [tr], entries := t.entries + [debit, credit]);
      ExecShape(t3, BalanceUpdates(p), 3, faults);
      if 3 in faults || 4 in faults {
        ExecErrorKind(t3, BalanceUpdates(p), 3, faults);
        var ups := BalanceUpdates(p);
        assert ups == [ups[0], ups[1]];
        ExecPair(t3, ups[0], ups[1], 3, faults);
      } else {
        UpdatesRun(t3, p, faults);
      }
    }
  }

  /** A transfer between two accounts moves `amount` from one to the other: no other account
      changes, only the balances do, and the sum of all balances is unchanged. */
  lemma Conservation(accounts: map<int, Account>, p: TransferTxParams)
    requires Feasible(accounts, p) && p.fromAccountId != p.toAccountId && p.amount != MinInt64
    ensures var m, from, to, a := Moved(accounts, p), p.fromAccountId, p.toAccountId, p.amount;
      && m.Keys == accounts.Keys
      && (forall id :: id in accounts && id != from && id != to ==> m[id] == accounts[id])
      && m[from] == accounts[from].(balance := accounts[from].balance - a)
      && m[to] == accounts[to].(balance := accounts[to].balance + a)
      && Total(m) == Total(accounts)
  {
    var from, to, a := p.fromAccountId, p.toAccountId, p.amount;
    var credited := accounts[to := accounts[to].(balance := accounts[to].balance + a)];
    TotalUpdate(accounts, to, credited[to]);
    TotalUpdate(credited, from, credited[from].(balance := credited[from].balance + Neg64(a)));
  }

  /** A feasible self-transfer leaves the accounts as they were: the most negative amount,
      which Go cannot negate, takes the balance out of range on the way. */
  lemma SelfTransfer(accounts: map<int, Account>, p: TransferTxParams)
    requires Feasible(accounts, p) && p.fromAccountId == p.toAccountId
    ensures p.amount != MinInt64 && Moved(accounts, p) == accounts
  {
    assert Moved(accounts, p)[p.fromAccountId] == accounts[p.fromAccountId];
  }

  /** Go negates the most negative int64 to itself, so a transfer of that amount debits
      both accounts: the sum of balances drops by 2^64. */
  lemma MinAmountBreaksConservation(accounts: map<int, Account>, p: TransferTxParams)
    requires Feasible(accounts, p) && p.fromAccountId != p.toAccountId && p.amount == MinInt64
    ensures Total(Moved(accounts, p)) == Total(accounts) + 2 * MinInt64
  {
    var from, to, a := p.fromAccountId, p.toAccountId, p.amount;
    var credited := accounts[to := accounts[to].(balance := accounts[to].balance + a)];
    TotalUpdate(accounts, to, credited[to]);
    TotalUpdate(credited, from, credited[from].(balance := credited[from].balance + Neg64(a)));
  }
}
