/** The account handlers: CreateAccount, GetAccount and GetAccounts, with their request
    validation. */
module ApiAccount {
  import opened Wrappers
  import opened Ledger
  import opened Validator
  import opened ApiCommon

  datatype CreateAccountRequest = CreateAccountRequest(ownerId: int, currency: string)

  datatype GetAccountRequest = GetAccountRequest(id: int)

  /** The account as the response carries it. */
  datatype PbAccount = PbAccount(id: int, ownerId: int, balance: int, currency: string, createdAt: int)

  /** convertAccount: a field-by-field copy of the row. */
  function ConvertAccount(a: Account): (r: PbAccount)
    ensures r.id == a.id && r.ownerId == a.ownerId && r.balance == a.balance
    ensures r.currency == a.currency && r.createdAt == a.createdAt
  {
    PbAccount(a.id, a.ownerId, a.balance, a.currency, a.createdAt)
  }

  // ---------------------------------------------------------------- CreateAccount

  function CreateAccountChecks(rules: Rules, req: CreateAccountRequest): seq<Check> {
    [ Check("owner_id", ValidateID(req.ownerId)),
      Check("currency", ValidateCurrency(req.currency, rules.supportedCurrencies)) ]
  }

  /** validateCreateAccountRequest: appends one violation per failed check. */
  method ValidateCreateAccountRequest(rules: Rules, req: CreateAccountRequest) returns (violations: seq<FieldViolation>)
    ensures violations == Collect(CreateAccountChecks(rules, req))
    ensures violations == [] <==> req.ownerId > 0 && req.currency in rules.supportedCurrencies
  {
    ghost var done: seq<Check> := [];
    violations := [];
    var ownerId := Check("owner_id", ValidateID(req.ownerId));
    violations := Report(violations, done, ownerId);
    done := done + [ownerId];
    var currency := Check("currency", ValidateCurrency(req.currency, rules.supportedCurrencies));
    violations := Report(violations, done, currency);
    done := done + [currency];
    assert done == CreateAccountChecks(rules, req);
  }

  /** How CreateAccount maps the store's error: no row (no such user) is NotFound, a unique
      violation AlreadyExists, anything else Internal. */
  function CreateAccountCode(e: Error): (c: Code)
    ensures c == NotFound <==> e == NoRows
    ensures c == AlreadyExists <==> e == UniqueViolation
    ensures c == NotFound || c == AlreadyExists || c == Internal
  {
    if e == NoRows then NotFound
    else if e == UniqueViolation then AlreadyExists
    else Internal
  }

  /** CreateAccount: a banker may open an account for anyone, anyone else only for themself;
      every account opens with balance 0. */
  function CreateAccount(auth: Option<Payload>, rules: Rules, req: CreateAccountRequest, b: Backend): (r: Response<PbAccount>)
    ensures auth.None? ==> r == Response(Fail(Unauthenticated), [])
    ensures auth.Some? && Collect(CreateAccountChecks(rules, req)) != [] ==> r == Response(Fail(InvalidArgument), [])
    ensures (auth.Some? && Collect(CreateAccountChecks(rules, req)) == [] &&
             auth.value.role != BankerRole && auth.value.userId != req.ownerId) ==>
      r == Response(Fail(PermissionDenied), [])
    // A valid request from a banker or from the owner does reach the store.
    ensures (auth.Some? && Collect(CreateAccountChecks(rules, req)) == [] &&
             (auth.value.role == BankerRole || auth.value.userId == req.ownerId)) ==>
      r.calls == [CreateAccountCall(req.ownerId, req.currency, 0)]
    // The only store call opens the requested account at balance 0, for a permitted caller.
    ensures forall c :: c in r.calls ==>
      && c == CreateAccountCall(req.ownerId, req.currency, 0)
      && auth.Some? && (auth.value.role == BankerRole || auth.value.userId == req.ownerId)
      && Collect(CreateAccountChecks(rules, req)) == []
      && r.calls == [c]
    ensures r.calls != [] && b.createAccount(req.ownerId, req.currency).Failure? ==>
      r.status == Fail(CreateAccountCode(b.createAccount(req.ownerId, req.currency).error))
    ensures r.status.Ok? <==> r.calls != [] && b.createAccount(req.ownerId, req.currency).Success?
    ensures r.status.Ok? ==> r.status.body == ConvertAccount(b.createAccount(req.ownerId, req.currency).value)
  {
    if auth.None? then Response(Fail(Unauthenticated), [])
    else if Collect(CreateAccountChecks(rules, req)) != [] then Response(Fail(InvalidArgument), [])
    else if auth.value.role != BankerRole && auth.value.userId != req.ownerId then Response(Fail(PermissionDenied), [])
    else
      var calls := [CreateAccountCall(req.ownerId, req.currency, 0)];
      match b.createAccount(req.ownerId, req.currency)
      case Failure(e) => Response(Fail(CreateAccountCode(e)), calls)
      case Success(account) => Response(Ok(ConvertAccount(account)), calls)
  }

  // ---------------------------------------------------------------- GetAccount

  function GetAccountChecks(req: GetAccountRequest): seq<Check> {
    [Check("id", ValidateID(req.id))]
  }

  /** validateGetAccountRequest. */
  method ValidateGetAccountRequest(req: GetAccountRequest) returns (violations: seq<FieldViolation>)
    ensures violations == Collect(GetAccountChecks(req))
    ensures violations == [] <==> req.id > 0
  {
    violations := [];
    var id := Check("id", ValidateID(req.id));
    violations := Report(violations, [], id);
    assert [] + [id] == GetAccountChecks(req);
  }

  /** GetAccount: the ownership check comes after the lookup, so a caller who may not see the
      account still causes the lookup. */
  function GetAccount(auth: Option<Payload>, req: GetAccountRequest, b: Backend): (r: Response<PbAccount>)
    ensures auth.None? ==> r == Response(Fail(Unauthenticated), [])
    ensures auth.Some? && req.id <= 0 ==> r == Response(Fail(InvalidArgument), [])
    ensures auth.Some? && req.id > 0 ==> r.calls == [GetAccountCall(req.id)]
    ensures auth.Some? && req.id > 0 && b.getAccount(req.id).Failure? ==>
      r.status == Fail(LookupCode(b.getAccount(req.id).error))
    ensures r.status.Ok? <==>
      auth.Some? && req.id > 0 && b.getAccount(req.id).Success? &&
      (auth.value.role == BankerRole || auth.value.userId == b.getAccount(req.id).value.ownerId)
    ensures r.status.Ok? ==> r.status.body == ConvertAccount(b.getAccount(req.id).value)
    ensures (auth.Some? && req.id > 0 && b.getAccount(req.id).Success? && !r.status.Ok?) ==> r.status == Fail(PermissionDenied)
  {
    if auth.None? then Response(Fail(Unauthenticated), [])
    else if Collect(GetAccountChecks(req)) != [] then Response(Fail(InvalidArgument), [])
    else
      var calls := [GetAccountCall(req.id)];
      match b.getAccount(req.id)
      case Failure(e) => Response(Fail(LookupCode(e)), calls)
      case Success(account) =>
        if auth.value.role != BankerRole && auth.value.userId != account.ownerId then
          Response(Fail(PermissionDenied), calls)
        else
          Response(Ok(ConvertAccount(account)), calls)
  }

  // ---------------------------------------------------------------- GetAccounts

  const DefaultLimit := 5
  const DefaultOffset := 0

  /** A GetAccounts request: the page bounds are optional fields, which validation fills in. */
  class GetAccountsRequest {
    var limit: Option<int>
    var offset: Option<int>

    constructor (limit: Option<int>, offset: Option<int>)
      ensures this.limit == limit && this.offset == offset
    {
      this.limit := limit;
      this.offset := offset;
    }
  }

  /** Only the bounds the request supplies are checked. */
  function GetAccountsChecks(rules: Rules, limit: Option<int>, offset: Option<int>): seq<Check> {
    (if limit.Some? then [Check("limit", ValidateLimit(rules, limit.value))] else []) +
    (if offset.Some? then [Check("offset", ValidateOffset(rules, offset.value))] else [])
  }

  function OrDefault(o: Option<int>, default: int): (r: int)
    ensures o.Some? ==> r == o.value
    ensures o.None? ==> r == default
  {
    if o.Some? then o.value else default
  }

  /** validateGetAccountsRequest: checks the bounds that were supplied and writes the defaults
      (limit 5, offset 0) into the ones that were not. */
  method ValidateGetAccountsRequest(rules: Rules, req: GetAccountsRequest) returns (violations: seq<FieldViolation>)
    modifies req
    ensures req.limit == Some(OrDefault(old(req.limit), DefaultLimit))
    ensures req.offset == Some(OrDefault(old(req.offset), DefaultOffset))
    ensures violations == Collect(GetAccountsChecks(rules, old(req.limit), old(req.offset)))
  {
    ghost var limit0, offset0 := req.limit, req.offset;
    ghost var done: seq<Check> := [];
    violations := [];
    if req.limit.Some? {
      var limit := Check("limit", ValidateLimit(rules, req.limit.value));
      violations := Report(violations, done, limit);
      done := done + [limit];
    } else {
      req.limit := Some(DefaultLimit);
    }
    if req.offset.Some? {
      var offset := Check("offset", ValidateOffset(rules, req.offset.value));
      violations := Report(violations, done, offset);
      done := done + [offset];
    } else {
      req.offset := Some(DefaultOffset);
    }
    assert done == [] + done;
    assert done == GetAccountsChecks(rules, limit0, offset0);
  }

  /** The conversion loop of GetAccounts. */
  method ConvertAccounts(accounts: seq<Account>) returns (pbAccounts: seq<PbAccount>)
    ensures |pbAccounts| == |accounts|
    ensures forall i :: 0 <= i < |accounts| ==> pbAccounts[i] == ConvertAccount(accounts[i])
  {
    pbAccounts := [];
    for i := 0 to |accounts|
      invariant |pbAccounts| == i
      invariant forall j :: 0 <= j < i ==> pbAccounts[j] == ConvertAccount(accounts[j])
    {
      pbAccounts := pbAccounts + [ConvertAccount(accounts[i])];
    }
  }

  /** What GetAccounts answers, from the request's bounds as they were before validation:
      it lists the caller's own accounts whatever the request says. For a caller who is not
      a banker it then reads the first account's owner without checking that there is one,
      so an empty list panics; for a banker the role test short-circuits and the first
      account is never read. */
  function GetAccountsOutcome(auth: Option<Payload>, rules: Rules, limit: Option<int>, offset: Option<int>, b: Backend)
    : (r: Response<seq<PbAccount>>)
    ensures auth.None? ==> r == Response(Fail(Unauthenticated), [])
    ensures auth.Some? && Collect(GetAccountsChecks(rules, limit, offset)) != [] ==> r == Response(Fail(InvalidArgument), [])
    ensures auth.Some? && Collect(GetAccountsChecks(rules, limit, offset)) == [] ==>
      var l, o := OrDefault(limit, DefaultLimit), OrDefault(offset, DefaultOffset);
      var listed := b.listAccount(auth.value.userId, l, o);
      && r.calls == [ListAccountCall(auth.value.userId, l, o)]
      && (listed.Failure? ==> r.status == Fail(Internal))
      && (r.status == Panic <==> listed.Success? && listed.value == [] && auth.value.role != BankerRole)
      && ((listed.Success? && listed.value != [] && auth.value.role != BankerRole &&
           auth.value.userId != listed.value[0].ownerId) ==> r.status == Fail(PermissionDenied))
      && (r.status.Ok? <==> (listed.Success? &&
                             (auth.value.role == BankerRole || (listed.value != [] && auth.value.userId == listed.value[0].ownerId))))
      && (r.status.Ok? ==>
            |r.status.body| == |listed.value| &&
            forall i :: 0 <= i < |listed.value| ==> r.status.body[i] == ConvertAccount(listed.value[i]))
    ensures r.status == Panic ==> auth.Some? && auth.value.role != BankerRole && r.calls != [] && b.listAccount(r.calls[0].ownerId, r.calls[0].limit, r.calls[0].offset) == Success([])
  {
    if auth.None? then Response(Fail(Unauthenticated), [])
    else if Collect(GetAccountsChecks(rules, limit, offset)) != [] then Response(Fail(InvalidArgument), [])
    else
      var l, o := OrDefault(limit, DefaultLimit), OrDefault(offset, DefaultOffset);
      var calls := [ListAccountCall(auth.value.userId, l, o)];
      match b.listAccount(auth.value.userId, l, o)
      case Failure(_) => Response(Fail(Internal), calls)
      case Success(accounts) =>
        if auth.value.role != BankerRole && |accounts| == 0 then Response(Panic, calls)
        else if auth.value.role != BankerRole && auth.value.userId != accounts[0].ownerId then
          Response(Fail(PermissionDenied), calls)
        else Response(Ok(seq(|accounts|, i requires 0 <= i < |accounts| => ConvertAccount(accounts[i]))), calls)
  }

  /** GetAccounts: validates (writing the default bounds into the request), lists, checks the
      first account's owner, and converts the accounts one by one. */
  method GetAccounts(auth: Option<Payload>, rules: Rules, req: GetAccountsRequest, b: Backend)
    returns (r: Response<seq<PbAccount>>)
    modifies req
    ensures r == GetAccountsOutcome(auth, rules, old(req.limit), old(req.offset), b)
    ensures auth.Some? ==>
      req.limit == Some(OrDefault(old(req.limit), DefaultLimit)) && req.offset == Some(OrDefault(old(req.offset), DefaultOffset))
    ensures auth.None? ==> req.limit == old(req.limit) && req.offset == old(req.offset)
  {
    if auth.None? {
      return Response(Fail(Unauthenticated), []);
    }
    var violations := ValidateGetAccountsRequest(rules, req);
    if |violations| > 0 {
      return Response(Fail(InvalidArgument), []);
    }
    var payload := auth.value;
    var limit, offset := req.limit.value, req.offset.value;
    var calls := [ListAccountCall(payload.userId, limit, offset)];
    var listed := b.listAccount(payload.userId, limit, offset);
    if listed.Failure? {
      return Response(Fail(Internal), calls);
    }
    var accounts := listed.value;
    if payload.role != BankerRole {
      if |accounts| == 0 {
        // accounts[0] is out of range: Go panics.
        return Response(Panic, calls);
      }
      if payload.userId != accounts[0].ownerId {
        return Response(Fail(PermissionDenied), calls);
      }
    }
    var pbAccounts := ConvertAccounts(accounts);
    assert pbAccounts == seq(|accounts|, i requires 0 <= i < |accounts| => ConvertAccount(accounts[i]));
    r := Response(Ok(pbAccounts), calls);
  }

  /** A caller who is not a banker, owns no accounts and sends no bounds makes GetAccounts panic. */
  lemma EmptyListPanics(payload: Payload, rules: Rules, b: Backend)
    requires payload.role != BankerRole
    requires b.listAccount(payload.userId, DefaultLimit, DefaultOffset) == Success([])
    ensures GetAccountsOutcome(Some(payload), rules, None, None, b) ==
      Response(Panic, [ListAccountCall(payload.userId, DefaultLimit, DefaultOffset)])
  {
    assert GetAccountsChecks(rules, None, None) == [];
  }

  /** GetAccounts with the missing emptiness check: it never panics, answers a caller with no
      accounts with an empty list, and otherwise answers as GetAccounts does. */
  function GetAccountsGuarded(auth: Option<Payload>, rules: Rules, limit: Option<int>, offset: Option<int>, b: Backend)
    : (r: Response<seq<PbAccount>>)
    ensures r.status != Panic
    ensures r.calls == GetAccountsOutcome(auth, rules, limit, offset, b).calls
    ensures GetAccountsOutcome(auth, rules, limit, offset, b).status != Panic ==> r == GetAccountsOutcome(auth, rules, limit, offset, b)
    ensures (auth.Some? && Collect(GetAccountsChecks(rules, limit, offset)) == [] &&
             b.listAccount(auth.value.userId, OrDefault(limit, DefaultLimit), OrDefault(offset, DefaultOffset)) == Success([])) ==>
      r.status == Ok([])
  {
    var r0 := GetAccountsOutcome(auth, rules, limit, offset, b);
    if r0.status == Panic then Response(Ok([]), r0.calls) else r0
  }
}
