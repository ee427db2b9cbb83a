/** What the request handlers share: the gRPC status codes they answer with, the caller's
    token payload, field violations, the store operations they call, and the services they
    reach through the server (the store behind its interface, password hashing, tokens). */
module ApiCommon {
  import opened Wrappers
  import opened Ledger
  import opened TxTransfer
  import opened Validator

  datatype Code =
    | InvalidArgument
    | NotFound
    | AlreadyExists
    | PermissionDenied
    | FailedPrecondition
    | Internal
    | Unauthenticated

  /** How a handler ends: a response, an error status, or a run-time panic. */
  datatype Status<T> = Ok(body: T) | Fail(code: Code) | Panic

  /** The status a handler returns and the store operations it called, in order. */
  datatype Response<T> = Response(status: Status<T>, calls: seq<StoreCall>)

  /** The role a token carries, a string in the service: the banker role, the customer role,
      or any other role string. The handlers only ever compare a role with the banker role. */
  datatype Role = BankerRole | CustomerRole | OtherRole(name: string)

  /** The authenticated caller, as the access token names them. */
  datatype Payload = Payload(userId: int, role: Role)

  datatype User = User(id: int, username: string, fullName: string, email: string, role: Role, hashedPassword: string)

  /** A text column of a partial update: written only when `valid`. */
  datatype Text = Text(value: string, valid: bool)

  /** The partial update of a user row; `passwordChangedAt` is a clock reading. */
  datatype UpdateUserParams = UpdateUserParams(
    id: int,
    username: Text,
    fullName: Text,
    email: Text,
    hashedPassword: Text,
    passwordChangedAt: Option<int>)

  datatype StoreCall =
    | GetAccountCall(id: int)
    | TransferTxCall(args: TransferTxParams)
    | CreateAccountCall(ownerId: int, currency: string, balance: int)
    | ListAccountCall(ownerId: int, limit: int, offset: int)
    | CreateUserCall(username: string, email: string, fullName: string, hashedPassword: string)
    | GetUserCall(username: string)
    | UpdateUserCall(params: UpdateUserParams)
    | CreateSessionCall(userId: int, refreshToken: string)

  /** The services a handler reaches through the server. The store is the `Store` interface,
      which the handlers' tests replace by a mock: each operation is its reply to the call. */
  datatype Backend = Backend(
    getAccount: int -> Result<Account, Error>,
    transferTx: TransferTxParams -> Result<TransferTxResult, Error>,
    createAccount: (int, string) -> Result<Account, Error>,
    listAccount: (int, int, int) -> Result<seq<Account>, Error>,
    createUser: (string, string, string, string) -> Result<User, Error>,
    getUser: string -> Result<User, Error>,
    updateUser: UpdateUserParams -> Result<User, Error>,
    createSession: (int, string) -> Result<string, Error>,
    hashPassword: string -> Result<string, Error>,
    verifyPassword: (string, string) -> bool,
    createToken: (int, Role, bool) -> Result<string, Error>)

  /** One field check of a request: the field's name and the validator's verdict. */
  datatype Check = Check(field: string, err: Option<ValidationError>)

  datatype FieldViolation = FieldViolation(field: string, err: ValidationError)

  /** The violations a validate* function reports for its checks, one per failed check, in
      the order of the checks. */
  function Collect(checks: seq<Check>): (r: seq<FieldViolation>)
    ensures |r| <= |checks|
  {
    if checks == [] then []
    else
      var head := if checks[0].err.Some? then [FieldViolation(checks[0].field, checks[0].err.value)] else [];
      head + Collect(checks[1..])
  }

  /** Checks run one after another report their violations one after another. */
  lemma {:induction false} CollectAppend(a: seq<Check>, b: seq<Check>)
    ensures Collect(a + b) == Collect(a) + Collect(b)
    decreases |a|
  {
    if a == [] {
      assert a + b == b;
    } else {
      var head := if a[0].err.Some? then [FieldViolation(a[0].field, a[0].err.value)] else [];
      assert (a + b)[0] == a[0];
      assert (a + b)[1..] == a[1..] + b;
      CollectAppend(a[1..], b);
      var x, y := Collect(a[1..]), Collect(b);
      calc {
        Collect(a + b);
        head + Collect(a[1..] + b);
        head + (x + y);
        { assert head + (x + y) == (head + x) + y; }
        (head + x) + y;
        Collect(a) + Collect(b);
      }
    }
  }

  /** One more check adds its violation, if it failed, at the end. */
  lemma CollectSnoc(done: seq<Check>, c: Check)
    ensures Collect(done + [c]) == Collect(done) + (if c.err.Some? then [FieldViolation(c.field, c.err.value)] else [])
  {
    CollectAppend(done, [c]);
    assert [c][1..] == [];
  }

  /** `fieldViolation` appended to the violations so far: one more check reports its
      violation, if it failed, after those of the checks already run. */
  method Report(violations: seq<FieldViolation>, ghost done: seq<Check>, c: Check) returns (v: seq<FieldViolation>)
    requires violations == Collect(done)
    ensures v == Collect(done + [c])
  {
    CollectSnoc(done, c);
    v := violations;
    if c.err.Some? {
      v := v + [FieldViolation(c.field, c.err.value)];
    }
  }

  /** No violation is reported exactly when every check passed. */
  lemma {:induction false} CollectEmpty(checks: seq<Check>)
    ensures Collect(checks) == [] <==> forall i :: 0 <= i < |checks| ==> checks[i].err.None?
    decreases |checks|
  {
    if checks != [] {
      CollectEmpty(checks[1..]);
      assert forall i :: 1 <= i < |checks| ==> checks[i] == checks[1..][i - 1];
    }
  }

  /** Every violation reported comes from a failed check. */
  lemma {:induction false} CollectSound(checks: seq<Check>, v: FieldViolation)
    requires v in Collect(checks)
    ensures Check(v.field, Some(v.err)) in checks
    decreases |checks|
  {
    var head := if checks[0].err.Some? then [FieldViolation(checks[0].field, checks[0].err.value)] else [];
    if v !in head {
      CollectSound(checks[1..], v);
    }
  }

  /** A violation is reported for every failed check. */
  lemma {:induction false} CollectComplete(checks: seq<Check>, i: int)
    requires 0 <= i < |checks| && checks[i].err.Some?
    ensures FieldViolation(checks[i].field, checks[i].err.value) in Collect(checks)
    decreases |checks|
  {
    if i > 0 {
      CollectComplete(checks[1..], i - 1);
    }
  }

  /** How the handlers map a store error of a lookup: no row is NotFound, anything else Internal. */
  function LookupCode(e: Error): (c: Code)
    ensures c == NotFound <==> e == NoRows
    ensures c != NotFound ==> c == Internal
  {
    if e == NoRows then NotFound else Internal
  }
}
