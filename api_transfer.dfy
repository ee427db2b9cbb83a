/** The CreateTransfer handler: a fixed chain of checks, each failure answered with its own
    status code and stopping every later store call, before the one call to TransferTx. */
module ApiTransfer {
  import opened Wrappers
  import opened Ledger
  import opened TxTransfer
  import opened Validator
  import opened ApiCommon

  datatype CreateTransferRequest = CreateTransferRequest(fromAccountId: Int64, toAccountId: Int64, amount: Int64, currency: string)

  /** The field checks of a transfer request, in the order they run. */
  function TransferChecks(rules: Rules, req: CreateTransferRequest): seq<Check> {
    [ Check("from_account_id", ValidateID(req.fromAccountId)),
      Check("to_account_id", ValidateID(req.toAccountId)),
      Check("amount", ValidateAmount(rules, req.amount)) ]
  }

  /** A transfer request passes validation exactly when both ids are positive and the amount
      is acceptable. */
  lemma TransferRequestValid(rules: Rules, req: CreateTransferRequest)
    ensures Collect(TransferChecks(rules, req)) == [] <==>
      req.fromAccountId > 0 && req.toAccountId > 0 && rules.amountOk(req.amount)
  {
    var checks := TransferChecks(rules, req);
    CollectEmpty(checks);
    if Collect(checks) == [] {
      assert checks[0].err.None? && checks[1].err.None? && checks[2].err.None?;
    }
  }

  /** validateCreateTransferRequest: appends one violation per failed check. */
  method ValidateCreateTransferRequest(rules: Rules, req: CreateTransferRequest) returns (violations: seq<FieldViolation>)
    ensures violations == Collect(TransferChecks(rules, req))
  {
    ghost var done: seq<Check> := [];
    violations := [];
    var fromAccountId := Check("from_account_id", ValidateID(req.fromAccountId));
    violations := Report(violations, done, fromAccountId);
    done := done + [fromAccountId];
    var toAccountId := Check("to_account_id", ValidateID(req.toAccountId));
    violations := Report(violations, done, toAccountId);
    done := done + [toAccountId];
    var amount := Check("amount", ValidateAmount(rules, req.amount));
    violations := Report(violations, done, amount);
    done := done + [amount];
    assert done == TransferChecks(rules, req);
  }

  /** The request gets past authentication, field validation and the same-account check,
      the three checks that need no store access. */
  predicate Admitted(auth: Option<Payload>, rules: Rules, req: CreateTransferRequest) {
    auth.Some? && Collect(TransferChecks(rules, req)) == [] && req.fromAccountId != req.toAccountId
  }

  /** Both lookups succeeded, the caller owns the source account and both accounts hold the
      request's currency: what must hold before the store is asked to move money. */
  predicate Cleared(auth: Option<Payload>, rules: Rules, req: CreateTransferRequest, b: Backend) {
    && Admitted(auth, rules, req)
    && b.getAccount(req.fromAccountId).Success?
    && b.getAccount(req.fromAccountId).value.ownerId == auth.value.userId
    && b.getAccount(req.toAccountId).Success?
    && b.getAccount(req.fromAccountId).value.currency == req.currency
    && b.getAccount(req.toAccountId).value.currency == req.currency
  }

  function ParamsOf(req: CreateTransferRequest): TransferTxParams {
    TransferTxParams(req.fromAccountId, req.toAccountId, req.amount)
  }

  /** CreateTransfer, from the authorization result of the caller's token, the request and
      the store's replies. */
  function CreateTransfer(auth: Option<Payload>, rules: Rules, req: CreateTransferRequest, b: Backend): (r: Response<TransferTxResult>)
    // Nothing is read from the store before the three local checks pass.
    ensures auth.None? ==> r == Response(Fail(Unauthenticated), [])
    ensures auth.Some? && Collect(TransferChecks(rules, req)) != [] ==> r == Response(Fail(InvalidArgument), [])
    ensures auth.Some? && Collect(TransferChecks(rules, req)) == [] && req.fromAccountId == req.toAccountId ==>
      r == Response(Fail(InvalidArgument), [])
    // The source account is looked up first; a failed lookup or a foreign account stops there.
    ensures Admitted(auth, rules, req) ==> |r.calls| > 0 && r.calls[0] == GetAccountCall(req.fromAccountId)
    ensures Admitted(auth, rules, req) && b.getAccount(req.fromAccountId).Failure? ==>
      r == Response(Fail(LookupCode(b.getAccount(req.fromAccountId).error)), [GetAccountCall(req.fromAccountId)])
    ensures (Admitted(auth, rules, req) && b.getAccount(req.fromAccountId).Success? &&
             b.getAccount(req.fromAccountId).value.ownerId != auth.value.userId) ==>
      r == Response(Fail(PermissionDenied), [GetAccountCall(req.fromAccountId)])
    // The destination is looked up only for the source's owner; its failure, or a currency
    // other than the request's on either account, stops before any transfer.
    ensures (Admitted(auth, rules, req) && b.getAccount(req.fromAccountId).Success? &&
             b.getAccount(req.fromAccountId).value.ownerId == auth.value.userId) ==>
      && |r.calls| >= 2 && r.calls[..2] == [GetAccountCall(req.fromAccountId), GetAccountCall(req.toAccountId)]
      && (b.getAccount(req.toAccountId).Failure? ==> r.status == Fail(LookupCode(b.getAccount(req.toAccountId).error)) && |r.calls| == 2)
      && (b.getAccount(req.toAccountId).Success? &&
          (b.getAccount(req.fromAccountId).value.currency != req.currency || b.getAccount(req.toAccountId).value.currency != req.currency) ==>
            r.status == Fail(FailedPrecondition) && |r.calls| == 2)
    // The store moves money only once every check has passed, exactly once, with the request's
    // own (from, to, amount), never between an account and itself, and only for the source's owner.
    ensures forall c :: c in r.calls && c.TransferTxCall? ==>
      && Cleared(auth, rules, req, b)
      && c.args == ParamsOf(req)
      && c.args.fromAccountId != c.args.toAccountId
      && r.calls == [GetAccountCall(req.fromAccountId), GetAccountCall(req.toAccountId), c]
    ensures Cleared(auth, rules, req, b) ==> TransferTxCall(ParamsOf(req)) in r.calls
    ensures r.status.Ok? <==> Cleared(auth, rules, req, b) && b.transferTx(ParamsOf(req)).Success?
    ensures r.status.Ok? ==> r.status.body == b.transferTx(ParamsOf(req)).value
    ensures Cleared(auth, rules, req, b) && b.transferTx(ParamsOf(req)).Failure? ==> r.status == Fail(Internal)
    ensures r.status != Panic
  {
    if auth.None? then Response(Fail(Unauthenticated), [])
    else if Collect(TransferChecks(rules, req)) != [] then Response(Fail(InvalidArgument), [])
    else if req.fromAccountId == req.toAccountId then Response(Fail(InvalidArgument), [])
    else
      var getFrom := GetAccountCall(req.fromAccountId);
      match b.getAccount(req.fromAccountId)
      case Failure(e) => Response(Fail(LookupCode(e)), [getFrom])
      case Success(fromAccount) =>
        if auth.value.userId != fromAccount.ownerId then Response(Fail(PermissionDenied), [getFrom])
        else
          var getTo := GetAccountCall(req.toAccountId);
          match b.getAccount(req.toAccountId)
          case Failure(e) => Response(Fail(LookupCode(e)), [getFrom, getTo])
          case Success(toAccount) =>
            if fromAccount.currency != req.currency || toAccount.currency != req.currency then
              Response(Fail(FailedPrecondition), [getFrom, getTo])
            else
              var calls := [getFrom, getTo, TransferTxCall(ParamsOf(req))];
              match b.transferTx(ParamsOf(req))
              case Failure(_) => Response(Fail(Internal), calls)
              case Success(res) => Response(Ok(res), calls)
  }
}
