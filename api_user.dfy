/** The user handlers: CreateUser, LoginUser and UpdateUser, with their request validation. */
module ApiUser {
  import opened Wrappers
  import opened Ledger
  import opened Validator
  import opened ApiCommon

  /** What a protobuf getter returns for an optional string field: its value, or "" when absent. */
  function Get(o: Option<string>): (s: string)
    ensures o.Some? ==> s == o.value
    ensures o.None? ==> s == ""
  {
    if o.Some? then o.value else ""
  }

  /** The user as the API returns it: every column except the hashed password (the
      timestamps are not modelled). */
  datatype PbUser = PbUser(id: int, username: string, fullName: string, email: string, role: Role)

  /** convertUser: the response carries the user's id, username, full name, email and role. */
  function ConvertUser(u: User): (r: PbUser)
    ensures r.id == u.id && r.username == u.username && r.fullName == u.fullName
    ensures r.email == u.email && r.role == u.role
  {
    PbUser(u.id, u.username, u.fullName, u.email, u.role)
  }

  /** The hashed password never reaches a response: users that differ only in it convert alike. */
  lemma ConvertUserHidesPassword(u: User, hashedPassword: string)
    ensures ConvertUser(u.(hashedPassword := hashedPassword)) == ConvertUser(u)
  {
  }

  // ---------------------------------------------------------------- CreateUser

  datatype CreateUserRequest = CreateUserRequest(username: string, password: string, fullName: string, email: string)

  function CreateUserChecks(rules: Rules, req: CreateUserRequest): seq<Check> {
    [ Check("username", ValidateUsername(req.username)),
      Check("password", ValidatePassword(req.password)),
      Check("full_name", ValidateFullName(req.fullName)),
      Check("email", ValidateEmail(rules, req.email)) ]
  }

  /** A create request passes validation exactly when each of its four fields does. */
  lemma CreateUserValid(rules: Rules, req: CreateUserRequest)
    ensures Collect(CreateUserChecks(rules, req)) == [] <==>
      && ValidateUsername(req.username).None?
      && ValidatePassword(req.password).None?
      && ValidateFullName(req.fullName).None?
      && rules.emailParses(req.email)
  {
    var checks := CreateUserChecks(rules, req);
    CollectEmpty(checks);
    if Collect(checks) == [] {
      assert checks[0].err.None? && checks[1].err.None? && checks[2].err.None? && checks[3].err.None?;
    }
  }

  /** validateCreateUserRequest: one violation per invalid field, in the order username,
      password, full_name, email. */
  method ValidateCreateUserRequest(rules: Rules, req: CreateUserRequest) returns (violations: seq<FieldViolation>)
    ensures violations == Collect(CreateUserChecks(rules, req))
  {
    ghost var done: seq<Check> := [];
    violations := [];
    var username := Check("username", ValidateUsername(req.username));
    violations := Report(violations, done, username);
    done := done + [username];
    var password := Check("password", ValidatePassword(req.password));
    violations := Report(violations, done, password);
    done := done + [password];
    var fullName := Check("full_name", ValidateFullName(req.fullName));
    violations := Report(violations, done, fullName);
    done := done + [fullName];
    var email := Check("email", ValidateEmail(rules, req.email));
    violations := Report(violations, done, email);
    done := done + [email];
    assert done == CreateUserChecks(rules, req);
  }

  /** CreateUser: needs no token; stores the user with the hash of the password. */
  function CreateUser(rules: Rules, req: CreateUserRequest, b: Backend): (r: Response<PbUser>)
    ensures Collect(CreateUserChecks(rules, req)) != [] ==> r == Response(Fail(InvalidArgument), [])
    ensures Collect(CreateUserChecks(rules, req)) == [] && b.hashPassword(req.password).Failure? ==>
      r == Response(Fail(Internal), [])
    // A valid request whose password hashes does reach the store, with the hash.
    ensures Collect(CreateUserChecks(rules, req)) == [] && b.hashPassword(req.password).Success? ==>
      r.calls == [CreateUserCall(req.username, req.email, req.fullName, b.hashPassword(req.password).value)]
    // The store sees the request's fields and the hash, never the password itself.
    ensures forall c :: c in r.calls ==>
      && Collect(CreateUserChecks(rules, req)) == []
      && b.hashPassword(req.password).Success?
      && c == CreateUserCall(req.username, req.email, req.fullName, b.hashPassword(req.password).value)
      && r.calls == [c]
    ensures r.calls != [] && b.createUser(req.username, req.email, req.fullName, b.hashPassword(req.password).value).Failure? ==>
      var e := b.createUser(req.username, req.email, req.fullName, b.hashPassword(req.password).value).error;
      r.status == Fail(if e == UniqueViolation then AlreadyExists else Internal)
    ensures r.status.Ok? <==>
      r.calls != [] && b.createUser(req.username, req.email, req.fullName, b.hashPassword(req.password).value).Success?
    ensures r.status.Ok? ==>
      r.status.body == ConvertUser(b.createUser(req.username, req.email, req.fullName, b.hashPassword(req.password).value).value)
  {
    if Collect(CreateUserChecks(rules, req)) != [] then Response(Fail(InvalidArgument), [])
    else match b.hashPassword(req.password)
      case Failure(_) => Response(Fail(Internal), [])
      case Success(hashed) =>
        var calls := [CreateUserCall(req.username, req.email, req.fullName, hashed)];
        match b.createUser(req.username, req.email, req.fullName, hashed)
        case Failure(e) => Response(Fail(if e == UniqueViolation then AlreadyExists else Internal), calls)
        case Success(user) => Response(Ok(ConvertUser(user)), calls)
  }

  // ---------------------------------------------------------------- LoginUser

  datatype LoginUserRequest = LoginUserRequest(username: string, password: string)

  /** What a successful login returns besides the user: the session and the two tokens. */
  datatype Login = Login(user: PbUser, sessionId: string, accessToken: string, refreshToken: string)

  function LoginUserChecks(req: LoginUserRequest): seq<Check> {
    [ Check("username", ValidateUsername(req.username)),
      Check("password", ValidatePassword(req.password)) ]
  }

  /** validateLoginUserRequest. */
  method ValidateLoginUserRequest(req: LoginUserRequest) returns (violations: seq<FieldViolation>)
    ensures violations == Collect(LoginUserChecks(req))
    ensures violations == [] <==> ValidateUsername(req.username).None? && ValidatePassword(req.password).None?
  {
    ghost var done: seq<Check> := [];
    violations := [];
    var username := Check("username", ValidateUsername(req.username));
    violations := Report(violations, done, username);
    done := done + [username];
    var password := Check("password", ValidatePassword(req.password));
    violations := Report(violations, done, password);
    done := done + [password];
    assert done == LoginUserChecks(req);
  }

  /** LoginUser: an unknown user and a wrong password get the same answer, NotFound; so does
      every failure after the password check. */
  function LoginUser(req: LoginUserRequest, b: Backend): (r: Response<Login>)
    ensures Collect(LoginUserChecks(req)) != [] ==> r == Response(Fail(InvalidArgument), [])
    ensures Collect(LoginUserChecks(req)) == [] ==> |r.calls| > 0 && r.calls[0] == GetUserCall(req.username)
    ensures Collect(LoginUserChecks(req)) == [] && b.getUser(req.username).Failure? ==>
      r == Response(Fail(LookupCode(b.getUser(req.username).error)), [GetUserCall(req.username)])
    ensures (Collect(LoginUserChecks(req)) == [] && b.getUser(req.username).Success? &&
             !b.verifyPassword(req.password, b.getUser(req.username).value.hashedPassword)) ==>
      r == Response(Fail(NotFound), [GetUserCall(req.username)])
    ensures (Collect(LoginUserChecks(req)) == [] && b.getUser(req.username).Success? && r.status.Fail?) ==>
      r.status == Fail(NotFound)
    // A session is opened only for a user who gave the right password.
    ensures forall c :: c in r.calls && c.CreateSessionCall? ==>
      && b.getUser(req.username).Success?
      && b.verifyPassword(req.password, b.getUser(req.username).value.hashedPassword)
      && c.userId == b.getUser(req.username).value.id
    ensures r.status.Ok? ==>
      && b.getUser(req.username).Success?
      && r.status.body.user == ConvertUser(b.getUser(req.username).value)
      && b.verifyPassword(req.password, b.getUser(req.username).value.hashedPassword)
      && r.calls == [GetUserCall(req.username), CreateSessionCall(r.status.body.user.id, r.status.body.refreshToken)]
    // A failure past the password check stops before the session; the session is opened
    // only with the refresh token just made.
    ensures (Collect(LoginUserChecks(req)) == [] && b.getUser(req.username).Success? &&
             var u := b.getUser(req.username).value;
             (|| !b.verifyPassword(req.password, u.hashedPassword)
              || b.createToken(u.id, u.role, false).Failure?
              || b.createToken(u.id, u.role, true).Failure?)) ==>
      r.calls == [GetUserCall(req.username)]
    ensures (Collect(LoginUserChecks(req)) == [] && b.getUser(req.username).Success? &&
             var u := b.getUser(req.username).value;
             && b.verifyPassword(req.password, u.hashedPassword)
             && b.createToken(u.id, u.role, false).Success?
             && b.createToken(u.id, u.role, true).Success?) ==>
      var u := b.getUser(req.username).value;
      r.calls == [GetUserCall(req.username), CreateSessionCall(u.id, b.createToken(u.id, u.role, true).value)]
    ensures r.status != Panic
    // A login succeeds exactly when every step does, and answers with what those steps returned.
    ensures r.status.Ok? <==>
      && Collect(LoginUserChecks(req)) == []
      && b.getUser(req.username).Success?
      && var u := b.getUser(req.username).value;
         && b.verifyPassword(req.password, u.hashedPassword)
         && b.createToken(u.id, u.role, false).Success?
         && b.createToken(u.id, u.role, true).Success?
         && b.createSession(u.id, b.createToken(u.id, u.role, true).value).Success?
    ensures r.status.Ok? ==>
      var u := b.getUser(req.username).value;
      var refreshToken := b.createToken(u.id, u.role, true).value;
      r.status.body == Login(ConvertUser(u), b.createSession(u.id, refreshToken).value,
                             b.createToken(u.id, u.role, false).value, refreshToken)
  {
    if Collect(LoginUserChecks(req)) != [] then Response(Fail(InvalidArgument), [])
    else
      var getUser := GetUserCall(req.username);
      match b.getUser(req.username)
      case Failure(e) => Response(Fail(LookupCode(e)), [getUser])
      case Success(user) =>
        if !b.verifyPassword(req.password, user.hashedPassword) then Response(Fail(NotFound), [getUser])
        else match b.createToken(user.id, user.role, false)
          case Failure(_) => Response(Fail(NotFound), [getUser])
          case Success(accessToken) =>
            match b.createToken(user.id, user.role, true)
            case Failure(_) => Response(Fail(NotFound), [getUser])
            case Success(refreshToken) =>
              var calls := [getUser, CreateSessionCall(user.id, refreshToken)];
              match b.createSession(user.id, refreshToken)
              case Failure(_) => Response(Fail(NotFound), calls)
              case Success(sessionId) => Response(Ok(Login(ConvertUser(user), sessionId, accessToken, refreshToken)), calls)
  }

  // ---------------------------------------------------------------- UpdateUser

  /** An update request: the user's id and the fields to change, each optional. */
  datatype UpdateUserRequest = UpdateUserRequest(
    id: int,
    username: Option<string>,
    fullName: Option<string>,
    email: Option<string>,
    password: Option<string>)

  /** Only the fields the request supplies are checked, in the order username, password,
      full_name, email. */
  function UpdateUserChecks(rules: Rules, req: UpdateUserRequest): seq<Check> {
    (if req.username.Some? then [Check("username", ValidateUsername(req.username.value))] else []) +
    (if req.password.Some? then [Check("password", ValidatePassword(req.password.value))] else []) +
    (if req.fullName.Some? then [Check("full_name", ValidateFullName(req.fullName.value))] else []) +
    (if req.email.Some? then [Check("email", ValidateEmail(rules, req.email.value))] else [])
  }

  /** An update request passes validation exactly when each field it supplies does; the
      fields it leaves out are not checked at all. */
  lemma UpdateUserValid(rules: Rules, req: UpdateUserRequest)
    ensures Collect(UpdateUserChecks(rules, req)) == [] <==>
      && (req.username.Some? ==> ValidateUsername(req.username.value).None?)
      && (req.password.Some? ==> ValidatePassword(req.password.value).None?)
      && (req.fullName.Some? ==> ValidateFullName(req.fullName.value).None?)
      && (req.email.Some? ==> rules.emailParses(req.email.value))
  {
    var u := if req.username.Some? then [Check("username", ValidateUsername(req.username.value))] else [];
    var p := if req.password.Some? then [Check("password", ValidatePassword(req.password.value))] else [];
    var f := if req.fullName.Some? then [Check("full_name", ValidateFullName(req.fullName.value))] else [];
    var e := if req.email.Some? then [Check("email", ValidateEmail(rules, req.email.value))] else [];
    CollectAppend(u, p);
    CollectAppend(u + p, f);
    CollectAppend(u + p + f, e);
    assert UpdateUserChecks(rules, req) == u + p + f + e;
  }

  /** validateUpdateUserRequest. */
  method ValidateUpdateUserRequest(rules: Rules, req: UpdateUserRequest) returns (violations: seq<FieldViolation>)
    ensures violations == Collect(UpdateUserChecks(rules, req))
  {
    ghost var u := if req.username.Some? then [Check("username", ValidateUsername(req.username.value))] else [];
    ghost var p := if req.password.Some? then [Check("password", ValidatePassword(req.password.value))] else [];
    ghost var f := if req.fullName.Some? then [Check("full_name", ValidateFullName(req.fullName.value))] else [];
    ghost var e := if req.email.Some? then [Check("email", ValidateEmail(rules, req.email.value))] else [];
    ghost var done: seq<Check> := [];
    violations := [];
    if req.username.Some? {
      var c := Check("username", ValidateUsername(req.username.value));
      violations := Report(violations, done, c);
      done := done + [c];
    }
    assert done == u;
    if req.password.Some? {
      var c := Check("password", ValidatePassword(req.password.value));
      violations := Report(violations, done, c);
      done := done + [c];
    }
    assert done == u + p;
    if req.fullName.Some? {
      var c := Check("full_name", ValidateFullName(req.fullName.value));
      violations := Report(violations, done, c);
      done := done + [c];
    }
    assert done == u + p + f;
    if req.email.Some? {
      var c := Check("email", ValidateEmail(rules, req.email.value));
      violations := Report(violations, done, c);
      done := done + [c];
    }
    assert done == u + p + f + e == UpdateUserChecks(rules, req);
  }



  /** UpdateUser: a banker may update anyone, anyone else only themself. The partial update
      writes exactly the supplied fields; a new password is stored as its hash together with
      the time of the change, `now`. */
  method UpdateUser(auth: Option<Payload>, rules: Rules, req: UpdateUserRequest, b: Backend, now: int)
    returns (r: Response<PbUser>)
    ensures auth.None? ==> r == Response(Fail(Unauthenticated), [])
    ensures auth.Some? && Collect(UpdateUserChecks(rules, req)) != [] ==> r == Response(Fail(InvalidArgument), [])
    ensures (auth.Some? && Collect(UpdateUserChecks(rules, req)) == [] &&
             auth.value.role != BankerRole && req.id != auth.value.userId) ==>
      r == Response(Fail(PermissionDenied), [])
    ensures (auth.Some? && Collect(UpdateUserChecks(rules, req)) == [] &&
             (auth.value.role == BankerRole || req.id == auth.value.userId) &&
             req.password.Some? && b.hashPassword(req.password.value).Failure?) ==>
      r == Response(Fail(Internal), [])
    // The one store call: each field marked valid exactly when the request supplies it.
    ensures forall c :: c in r.calls ==>
      && auth.Some? && Collect(UpdateUserChecks(rules, req)) == []
      && (auth.value.role == BankerRole || req.id == auth.value.userId)
      && r.calls == [c] && c.UpdateUserCall?
      && c.params.id == req.id
      && c.params.username == Text(Get(req.username), req.username.Some?)
      && c.params.fullName == Text(Get(req.fullName), req.fullName.Some?)
      && c.params.email == Text(Get(req.email), req.email.Some?)
      && (c.params.hashedPassword.valid <==> req.password.Some?)
      && (c.params.passwordChangedAt.Some? <==> req.password.Some?)
      && (req.password.Some? ==>
            && b.hashPassword(req.password.value).Success?
            && c.params.hashedPassword.value == b.hashPassword(req.password.value).value
            && c.params.passwordChangedAt == Some(now))
      // Columns left out of the request carry Go's zero value.
      && c.params == UpdateUserParams(
           req.id,
           Text(Get(req.username), req.username.Some?),
           Text(Get(req.fullName), req.fullName.Some?),
           Text(Get(req.email), req.email.Some?),
           if req.password.Some? then Text(b.hashPassword(req.password.value).value, true) else Text("", false),
           if req.password.Some? then Some(now) else None)
    // A permitted, valid request whose new password (if any) hashes does reach the store.
    ensures (auth.Some? && Collect(UpdateUserChecks(rules, req)) == [] &&
             (auth.value.role == BankerRole || req.id == auth.value.userId) &&
             (req.password.Some? ==> b.hashPassword(req.password.value).Success?)) ==>
      |r.calls| == 1
    ensures forall c :: c in r.calls && b.updateUser(c.params).Failure? ==>
      r.status == Fail(LookupCode(b.updateUser(c.params).error))
    ensures r.status.Ok? <==> r.calls != [] && b.updateUser(r.calls[0].params).Success?
    ensures r.status.Ok? ==> r.status.body == ConvertUser(b.updateUser(r.calls[0].params).value)
  {
    if auth.None? {
      return Response(Fail(Unauthenticated), []);
    }
    var violations := ValidateUpdateUserRequest(rules, req);
    if |violations| > 0 {
      return Response(Fail(InvalidArgument), []);
    }
    var payload := auth.value;
    if payload.role != BankerRole && req.id != payload.userId {
      return Response(Fail(PermissionDenied), []);
    }
    var args := UpdateUserParams(
      req.id,
      Text(Get(req.username), req.username.Some?),
      Text(Get(req.fullName), req.fullName.Some?),
      Text(Get(req.email), req.email.Some?),
      Text("", false),
      None);
    if req.password.Some? {
      var hashed := b.hashPassword(req.password.value);
      if hashed.Failure? {
        return Response(Fail(Internal), []);
      }
      args := args.(hashedPassword := Text(hashed.value, true));
      args := args.(passwordChangedAt := Some(now));
    }
    var calls := [UpdateUserCall(args)];
    match b.updateUser(args) {
      case Failure(e) =>
        r := Response(Fail(LookupCode(e)), calls);
      case Success(user) =>
        r := Response(Ok(ConvertUser(user)), calls);
    }
  }
}
