# Simple bank: transfer transaction, scoped transactions, validators and request handlers

This project models the core of a small banking service written in Go. The service stores
accounts, entries (one signed balance movement each) and transfers in Postgres, and serves
them over gRPC. The model covers four parts:

- **The funds-transfer transaction** (`TransferTx` and `addMoney`). It runs in one database
  transaction and does four things in order. It inserts the transfer row, the debit entry
  of the source account and the credit entry of the destination account. Then it applies
  the two balance changes, the account with the smaller id first. The ledger is in memory:
  accounts are keyed by id, entries and transfers are append-only sequences. Each query
  issued on a transaction handle is recorded, so the order of the balance updates (the
  order in which the row locks are taken) is part of the observable outcome. Go's closure
  over `result` is the class `TransferClosure`. The handle `Queries` is a class whose
  methods change its view of the tables.
- **The scoped transaction** (`ExecTx` on `SQLStore`). The store keeps its committed
  tables. A transaction works on a handle that starts from a snapshot of them. Only a
  successful commit installs the handle's tables; a failed callback rolls back, and the
  error is combined with any rollback error. Faults of the database (begin, any query,
  rollback, commit) are a parameter.
- **The field validators** (`validator/validator.go`). Length is Go's `len`, i.e. UTF-8
  bytes. The two anchored regular expressions are character-class predicates.
- **The request handlers** (`CreateTransfer`, `CreateAccount`, `GetAccount`, `GetAccounts`,
  `CreateUser`, `LoginUser`, `UpdateUser`) and their `validate*` helpers. Each handler is a
  fixed chain of checks. The model gives the status code every failure answers with, the
  exact sequence of store calls made before it, and the store call a request that passes
  every check does make. The store, password hashing, token creation
  and the token check of `authorizeUser` reach the handlers as oracles (`Backend`, and
  `auth: Option<Payload>`). The `validate*` helpers, which append violations to a slice,
  are methods proved equal to `Collect` of their list of checks. `validateGetAccountsRequest`
  also writes the default page bounds into the request object.

Modules: `Wrappers`, `Ledger` (rows, queries, the query-list interpreter `Exec`, the sum of
balances), `TxTransfer`, `Store`, `Validator`, `ApiCommon`, `ApiTransfer`, `ApiAccount`,
`ApiUser`.

## Model

| member | source | states |
|---|---|---|
| Ledger.Neg64 | db/sqlc/tx_transfer.go:38 | Go's `-amount` on int64: the true negation, except that the most negative value negates to itself |
| Ledger.AddBalance | db/sqlc/accounts_test.go:94-97 | a balance update fails with no-rows exactly for an unknown id; on success only the balance changes, by exactly the delta (id, owner, currency, created-at kept); a bigint overflow is refused |
| Ledger.ExecShape | db/sqlc/tx_transfer.go:24-73 | the queries issued are a prefix of the plan; with no error the whole plan is issued and each query answered by a row |
| Ledger.ExecAppend | db/sqlc/tx_transfer.go:24-73 | running two query lists in sequence, the second only if the first succeeded, is running their concatenation |
| Ledger.ExecStopsAtFailure | db/sqlc/tx_transfer.go:32-50 | on an error, the failing query is the last one issued, every earlier one succeeded, and the tables are those the earlier ones left |
| Ledger.ExecPair | db/sqlc/tx_transfer.go:85-96 | two queries in a row: the second is issued only if the first succeeded, on the tables the first left |
| Ledger.ExecErrorKind | db/sqlc/tx_transfer.go:72 | any error a transaction returns is an injected store fault, no-rows or a balance overflow |
| Ledger.ExecKeepsShape | db/sqlc/tx_transfer.go:27-70 | queries keep every account under its own id and the same set of accounts, and only append entries and transfers |
| Ledger.Queries.constructor | db/sqlc/store.go:32 | a handle bound to a transaction starts from the given tables with no query issued |
| Ledger.Queries.CreateTransfer | db/sqlc/tx_transfer.go:27-31 | records the call; on success appends and returns the row `(from, to, amount)`; on a fault returns the zero row and changes no table |
| Ledger.Queries.CreateEntry | db/sqlc/tx_transfer.go:36-47 | records the call; on success appends and returns the entry `(account, amount)`; on a fault the zero entry and no change |
| Ledger.Queries.AddAccountBalance | db/sqlc/tx_transfer.go:85-95 | records the call; on success stores and returns the row `AddBalance` gives; on failure the zero account and no change |
| Ledger.TotalUpdate | db/sqlc/tx_transfer.go:52-70 | replacing one account changes the sum of all balances by exactly the change of that balance |
| TxTransfer.InsertsRun | db/sqlc/tx_transfer.go:27-50 | the three inserts produce the transfer row, then `(from, -amount)`, then `(to, amount)`, and stop at the first faulted insert |
| TxTransfer.LockOrder | db/sqlc/tx_transfer.go:52-70 | the two balance updates are the debit of `from` and the credit of `to`, once each, and the smaller account id is always updated first |
| TxTransfer.OutcomeOfFailedInserts | db/sqlc/tx_transfer.go:32-50 | a failed insert ends the transaction at once; the result holds exactly the rows inserted before it and zero values elsewhere |
| TxTransfer.OutcomeAfterInserts | db/sqlc/tx_transfer.go:52-72 | after the inserts, the outcome is theirs followed by the balance updates; the results of the updates go back to their roles |
| TxTransfer.AssembleAfterInserts | db/sqlc/tx_transfer.go:53-69 | the first updated account is `FromAccount` when `from < to` and `ToAccount` otherwise, the second the other way round |
| TxTransfer.AddMoney | db/sqlc/tx_transfer.go:77-97 | `addMoney` is the two-query run on its handle; if the first update fails the second is never issued and both accounts are zero |
| TxTransfer.TransferClosure.constructor | db/sqlc/tx_transfer.go:22 | the captured result starts as Go's zero value |
| TxTransfer.TransferClosure.Call | db/sqlc/tx_transfer.go:24-73 | the closure issues exactly the transfer plan up to its first error, leaves the handle's tables as that run does, and fills `result` from the rows returned |
| TxTransfer.TransferClosure.MoveMoney | db/sqlc/tx_transfer.go:52-70 | the two balance updates run in lock order on the handle, and the first and second updated accounts are stored as `FromAccount`/`ToAccount` when `from < to`, swapped otherwise |
| TxTransfer.UpdatesRun | db/sqlc/tx_transfer.go:52-70 | with no fault, the balance updates succeed exactly when the transfer is feasible, and then yield the moved balances in lock order |
| TxTransfer.DebitFirst | db/sqlc/tx_transfer.go:52-60 | when `from < to`: debit then credit succeed exactly when feasible, and give the moved accounts |
| TxTransfer.CreditFirst | db/sqlc/tx_transfer.go:61-70 | when `from >= to`: credit then debit succeed exactly when feasible, and give the moved accounts |
| TxTransfer.TransferOutcome | db/sqlc/tx_transfer.go:21-75 | the transaction succeeds iff no query is faulted and the transfer is feasible; then the tables hold the transfer row, both entries and the moved balances; `FromAccount`/`ToAccount` are the updated source/destination; the entries sum to zero unless the amount is the most negative int64 |
| TxTransfer.Conservation | db/sqlc/tx_transfer.go:52-70 | between two accounts, `from` loses `amount`, `to` gains it, no other account changes and the sum of all balances is unchanged |
| TxTransfer.SelfTransfer | db/sqlc/tx_transfer.go:61-70 | a feasible transfer from an account to itself leaves every balance as it was |
| TxTransfer.MinAmountBreaksConservation | db/sqlc/tx_transfer.go:38 | with the most negative int64 as amount, both accounts are debited and the sum of balances drops by 2^64 |
| Store.RollbackError | db/sqlc/store.go:34-37 | a failed callback's error is returned unchanged when rollback succeeds, and together with the rollback error when it fails |
| Store.SQLStore.constructor | db/sqlc/store.go:20-25 | a new store holds the given tables |
| Store.SQLStore.ExecTx | db/sqlc/store.go:27-40 | a failed begin runs nothing and wraps its error; otherwise the callback runs on a fresh handle; on its failure the committed tables stay as they were and the error is the rollback combination; on success commit's result is returned, and the handle's tables are committed exactly when commit succeeds |
| Store.SQLStore.TransferTx | db/sqlc/tx_transfer.go:21-75 | no error iff begin, all five queries and commit succeed and the transfer is feasible; then the committed tables are the transferred ones and the result carries the rows; on any error nothing is committed; well-formedness is kept |
| Store.CommittedTransfer | db/sqlc/tx_transfer.go:27-70 | a committed transfer adds exactly the transfer row and the entries `-amount`/`+amount`, moves `amount`, and keeps the total balance |
| Validator.Utf8Width | validator/validator.go:18 | one character takes 1 to 4 bytes, and 1 exactly when it is ASCII |
| Validator.ByteLen | validator/validator.go:18 | Go's `len` counts bytes: between the number of characters and four times it, equal exactly for ASCII strings |
| Validator.MatchesClassPlus | validator/validator.go:13-14 | `^[class]+$` matches exactly the non-empty strings all of whose characters are in the class |
| Validator.ValidateString | validator/validator.go:17-24 | succeeds iff `min <= len(s) <= max` in bytes, otherwise reports the bounds |
| Validator.ValidateUsername | validator/validator.go:26-34 | succeeds iff 3..100 bytes of `[a-z0-9_]`; the length error takes precedence over the character error |
| Validator.ValidatePassword | validator/validator.go:36-38 | succeeds iff 8..100 bytes |
| Validator.ValidateEmail | validator/validator.go:40-45 | succeeds iff the address parser accepts the string |
| Validator.ValidateFullName | validator/validator.go:47-55 | succeeds iff 3..100 bytes of ASCII letters and white space; the length error takes precedence |
| Validator.ValidateID | validator/validator.go:57-62 | fails iff `id <= 0` |
| Validator.ValidateCurrency | validator/validator.go:64-69 | succeeds iff the currency is in the supported list |
| Validator.ValidateAmount | api/transfer.go:111-113 | reports an amount error exactly when the amount rule rejects it |
| Validator.ValidateLimit | api/account.go:143-146 | reports a limit error exactly when the limit rule rejects it |
| Validator.ValidateOffset | api/account.go:151-154 | reports an offset error exactly when the offset rule rejects it |
| ApiCommon.Collect | api/transfer.go:100-116 | at most one violation per check |
| ApiCommon.CollectEmpty | api/transfer.go:100-116 | no violation is reported iff every check passed |
| ApiCommon.CollectSound | api/transfer.go:100-116 | every violation reported comes from a failed check with the same field and error |
| ApiCommon.CollectAppend | api/user.go:50-69 | checks run one after another report their violations one after another |
| ApiCommon.CollectSnoc | api/transfer.go:103-105 | one more check appends its violation, if it failed, at the end |
| ApiCommon.CollectComplete | api/user.go:50-69 | every failed check is reported |
| ApiCommon.Report | api/transfer.go:103-105 | appending a field violation keeps the violations equal to `Collect` of the checks run so far |
| ApiCommon.LookupCode | api/transfer.go:33-37 | a lookup error maps to NotFound iff it is no-rows, and to Internal otherwise |
| ApiTransfer.TransferRequestValid | api/transfer.go:100-116 | a transfer request passes validation iff both ids are positive and the amount is acceptable |
| ApiTransfer.ValidateCreateTransferRequest | api/transfer.go:100-116 | the violations are those of the from-id, to-id and amount checks, in that order |
| ApiTransfer.CreateTransfer | api/transfer.go:17-64 | Unauthenticated, then InvalidArgument (fields, then same account), all with no store call; source lookup (NotFound/Internal), ownership (PermissionDenied) before the destination lookup; currency mismatch is FailedPrecondition; `TransferTx` runs once with `(from, to, amount)` iff every check passed, never for a self-transfer, and its error is Internal; never panics |
| ApiAccount.ConvertAccount | api/account.go:162-170 | the response account carries the row's id, owner, balance, currency and creation stamp |
| ApiAccount.ValidateCreateAccountRequest | api/account.go:54-66 | the violations are those of the owner-id and currency checks, in that order; none iff the id is positive and the currency supported |
| ApiAccount.CreateAccountCode | api/account.go:39-49 | no-rows is NotFound, a unique violation AlreadyExists, any other error Internal |
| ApiAccount.CreateAccount | api/account.go:18-52 | Unauthenticated, InvalidArgument, PermissionDenied for a non-banker creating for someone else, all with no store call; a valid request from a banker or the owner makes exactly one store call, which creates the requested owner's account with balance 0; store errors map through `CreateAccountCode` |
| ApiAccount.ValidateGetAccountRequest | api/account.go:95-102 | the violations are those of the id check; none iff the id is positive |
| ApiAccount.GetAccount | api/account.go:68-93 | the lookup runs before the ownership check, so a non-owner non-banker gets PermissionDenied after the lookup; lookup errors map to NotFound/Internal |
| ApiAccount.GetAccountsRequest.constructor | api/account.go:137 | a request holds the page bounds it was given |
| ApiAccount.OrDefault | api/account.go:140-157 | an absent bound reads as its default, a present one as itself |
| ApiAccount.ValidateGetAccountsRequest | api/account.go:137-160 | only supplied bounds are validated; an absent limit becomes 5 and an absent offset 0 in the request |
| ApiAccount.ConvertAccounts | api/account.go:129-132 | the response list converts every listed account, in order |
| ApiAccount.GetAccountsOutcome | api/account.go:104-135 | lists by the caller's own user id with the defaulted bounds; a list error is Internal; for a non-banker an empty list panics and a first account owned by someone else is PermissionDenied; a banker never reaches the first account (the role test short-circuits); the answer is the converted list iff the caller is a banker or the list is non-empty and its first account is the caller's |
| ApiAccount.GetAccounts | api/account.go:104-135 | the handler (role test first, then emptiness, then the first owner, then the conversion loop) answers as `GetAccountsOutcome` of the bounds as received, and leaves the defaulted bounds in the request |
| ApiAccount.EmptyListPanics | api/account.go:125 | a non-banker caller with no accounts who sends no bounds makes the handler index an empty list |
| ApiAccount.GetAccountsGuarded | api/account.go:125-127 | with an emptiness check the handler never panics, answers an empty list with an empty response and otherwise answers as before |
| ApiUser.ConvertUser | api/user.go:222-232 | the response user carries the row's id, username, full name, email and role |
| ApiUser.ConvertUserHidesPassword | api/user.go:222-232 | the hashed password never reaches a response: users differing only in it convert to the same response |
| ApiUser.Get | api/user.go:154 | a protobuf getter returns the field's value, or the empty string when it is absent |
| ApiUser.CreateUserValid | api/user.go:50-69 | a create request passes validation iff username, password, full name and email each pass |
| ApiUser.ValidateCreateUserRequest | api/user.go:50-69 | one violation per invalid field, in the order username, password, full_name, email |
| ApiUser.CreateUser | api/user.go:20-48 | any violation is InvalidArgument with no store call; a hashing failure is Internal with no store call; once validation and hashing succeed the store is called exactly once, with the fields and the hash, never the password; a unique violation is AlreadyExists, any other error Internal |
| ApiUser.ValidateLoginUserRequest | api/user.go:123-134 | the violations are those of the username and password checks, in that order |
| ApiUser.LoginUser | api/user.go:71-121 | an unknown user and a wrong password both answer NotFound after the one lookup; every failure after the lookup is NotFound and the handler never panics; a wrong password or a failed token ends the handler after the lookup alone, and otherwise the one further call opens a session with the refresh token just made; a session is opened only for the right password; the login succeeds iff validation, the lookup, the password check, both tokens and the session succeed, and then answers with the user, the session id and the two tokens those steps returned |
| ApiUser.UpdateUserValid | api/user.go:193-220 | an update request passes validation iff each supplied field passes; absent fields are not checked |
| ApiUser.ValidateUpdateUserRequest | api/user.go:193-220 | the violations are those of the supplied fields only, in the order username, password, full_name, email |
| ApiUser.UpdateUser | api/user.go:136-191 | Unauthenticated, InvalidArgument, PermissionDenied for a non-banker updating someone else, Internal for a hashing failure, all with no store call; a permitted valid request whose password (if any) hashes makes exactly one store call, whose parameters are stated in full (columns left out carry Go's zero value); in it each column is marked valid iff the request supplies it; hashed password and change time are set iff a password is supplied; store errors map to NotFound/Internal |

## Left out

- Network and process plumbing (gRPC and HTTP servers, the gateway, migrations, loggers) is I/O with no logic to state.
- Concurrency: row locks, blocking and deadlock freedom are not modelled. Only the order in which the two balance updates are issued is modelled.
- The SQL of the generated queries is not part of this model. `CreateTransfer`, `CreateEntry` and `AddAccountBalance` get in-memory meanings, the last one the one the store's tests pin down. The bigint overflow of `AddAccountBalance` is taken to be an out-of-range error.
- Row ids of entries and transfers and every timestamp (`CreatedAt`, `ExpiredAt`) are not modelled. The account creation stamp is an opaque number; `PasswordChangedAt` is the clock reading `now`, a parameter.
- Store faults (a lost connection, a cancelled context, a failing begin, rollback or commit) are a `Faults` parameter chosen by the caller, not derived from anything.
- Store.SQLStore.ExecTx: specialised to the one callback of the code base, the transfer closure, and requires that closure to be fresh (its result still the zero value). A general Go closure parameter is not modelled.
- The `Store` interface is implemented only by `SQLStore` in the ledger part; the handlers see the store through the `Backend` oracle, the way the handlers' tests see a mock. The generated `Querier` methods the handlers call (`GetAccount`, `ListAccount`, `CreateUser`, ...) are therefore replies, not operations on the ledger.
- `ValidateEmail` depends on Go's address parser (RFC 5322, section 3.4), which is the `emailParses` oracle. `ValidateAmount`, `ValidateLimit`, `ValidateOffset` and the supported-currency list are not in the modelled validator file: they are the `amountOk`, `limitOk`, `offsetOk` and `supportedCurrencies` rules.
- Password hashing and checking, token creation and `authorizeUser` are oracles. Each handler's role list is folded into `authorizeUser`'s answer, `None` for a refused token.
- LoginUser: the session row's id, user agent, client IP, blocked flag and expiry are not modelled; the session call carries only the user id and the refresh token.
- The response messages keep only what the handlers copy from the rows; the timestamps `convertUser` and `convertAccount` copy are not modelled. The transfer response of `CreateTransfer` is the `TransferTxResult` itself. Error messages are reduced to their status code or validation-error kind.
- Validator.ValidateID: ids are unbounded integers; the `int32` parameter of `ValidateID` and the `int64` account ids of the transfer request are not reconciled.
- Store.SQLStore.TransferTx: the most negative int64 amount is not guarded here. Go's `-args.Amount` wraps to the same value, so both accounts are debited (`MinAmountBreaksConservation`). The handler's amount rule, an oracle here, is what would keep such an amount out.

## Findings

| source | as written | input that shows it | evidently intended | confidence | as-written member | corrected member |
|---|---|---|---|---|---|---|
| api/account.go:125 | `GetAccounts` reads `accounts[0].OwnerID` without checking that the list is non-empty | a non-banker caller who owns no accounts (the listing returns an empty list) | an empty list is answered with an empty response | not executed | ApiAccount.EmptyListPanics | ApiAccount.GetAccountsGuarded |
