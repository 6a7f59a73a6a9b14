# User CRUD Lambda — Dafny model

This project models the decision logic of a small serverless CRUD service for
"user" records: an AWS Lambda behind API Gateway that dispatches on the HTTP
method, calls one user-record operation against a DynamoDB table keyed by
`email`, and turns the outcome into a status code and a JSON body.

- `wrappers.dfy` — `Option` and `Result`.
- `users.dfy` (module `Users`, from `pkg/user/user.go`) — the `User` record,
  the nine error strings, and the five operations. The DynamoDB client is the
  class `Users.Client` whose field `tables` maps a table name to a
  `map<string, User>` keyed by email; `PutItem` and `DeleteItem` change it in
  place. Each SDK call may fail: a `Faults` value says which calls fail during
  one invocation, and a call against a table that does not exist fails too.
  `FetchUser` is a function of the tables. `CreateUser`, `UpdateUser` and
  `DeleteUser` are methods of the client, each proved equal to a pure
  function (`CreateEffect`, `UpdateEffect`, `DeleteEffect`) of the tables
  before the call. The properties are proved about those functions. `FetchUsers`
  is a read-only method. The backend chooses the scan order, so `ScanItems`
  picks the next key nondeterministically. Its loop is proved to yield every
  record of the table exactly once (`IsScanOf`).
- `handlers.dfy` (module `Handlers`, from `pkg/handlers/handlers.go`) — the
  response as a `(statusCode, body)` pair, the request with its body already
  parsed (`None` = malformed JSON), and the five handlers. Each mutating
  handler is a module-level method that takes the client as a parameter and
  changes it, specified by a pure `...Served` function.
- `cmd.dfy` (module `Cmd`, from `cmd/main.go`) — the constant table name
  `"LambdaInGoUser"`, the exact-match method switch `Handler`, and `Replay`,
  which runs a sequence of invocations. Its lemma shows that only the key
  invariant and the user table are affected.

The invariant kept by every operation is `WellKeyed`: in every table, each
record is stored under its own email.

The email validator (`validators.IsEmailValid`) is not part of this model. It
is passed to the operations as a parameter `isEmailValid: string -> bool`, and
nothing is assumed about it.

In three places the code does something a reader might not expect, and the
model follows the code:
- `UpdateUser` reports "user.User does not exist" also when the lookup itself
  fails (a GetItem or unmarshal error) and when the stored record's email is
  empty. It does not report only on an absent key.
- `CreateUser` treats a failed existence lookup as "absent", and goes on to
  write.
- The 405 body is the bare JSON string `"method not allowed"`, not an
  `{"error": ...}` object.

## Model

| member | source | states |
|---|---|---|
| Users.Put | pkg/user/user.go:97-102 | a successful PutItem replaces the whole record at key `u.email`, leaves every other key and every other table unchanged, and keeps key == email |
| Users.Remove | pkg/user/user.go:139-146 | a successful DeleteItem removes exactly the key `email` (present or not), leaves other keys and tables unchanged, and keeps key == email |
| Users.GetItem | pkg/user/user.go:35-49 | the lookup fails iff the call fails or the table is missing; otherwise it returns the stored item exactly when the key is present |
| Users.FetchUser | pkg/user/user.go:34-57 | each error string is returned exactly under its condition: backend failure, then absent key, then decode failure; on success it returns the record stored at exactly `email`, whose email is `email` when the tables are well keyed |
| Users.ScanItems | pkg/user/user.go:59-68 | one scan returns every record of the table exactly once, in an unspecified order |
| Users.Client.FetchUsers | pkg/user/user.go:59-75 | returns "failed to fetch record" on a scan failure, then "failed to unmarshal record" on a decode failure, and otherwise one complete scan of the table; it writes nothing |
| Users.CreateEffect | pkg/user/user.go:77-107 | "invalid user data" iff the body is malformed; "invalid email" iff the validator rejects the email; "already exists" iff the lookup succeeds and finds a record with a non-empty email; "could not marshal item" iff those checks pass and marshalling fails; "could not dynamo put item" iff the put then fails or the table is missing; success iff the lookup does not find a record with a non-empty email (a failed lookup counts as absent) and neither marshal nor put fails; on any error the tables are unchanged; on success the body is returned and stored as a full replace; key == email is preserved |
| Users.UpdateEffect | pkg/user/user.go:109-136 | "invalid user data" iff the body is malformed; "does not exist" iff the lookup does not find a record with a non-empty email (no email check is made); "could not marshal item" iff a record is found and marshalling fails; "could not dynamo put item" iff the put then fails; success iff a record is found and neither marshal nor put fails; on error the tables are unchanged; on success a record already existed at that key and is fully replaced; key == email is preserved |
| Users.DeleteEffect | pkg/user/user.go:138-152 | fails with "could not delete item" only on a backend failure, leaving the tables unchanged; otherwise removes the key with no existence check; key == email is preserved |
| Users.Client.PutItem | pkg/user/user.go:97-105 | the client's tables become `Put(old tables)` when the call succeeds, and are unchanged when it fails |
| Users.Client.DeleteItem | pkg/user/user.go:139-150 | the client's tables become `Remove(old tables)` when the call succeeds, and are unchanged when it fails |
| Users.Client.CreateUser | pkg/user/user.go:77-107 | the early-return implementation returns and leaves exactly what `CreateEffect` specifies |
| Users.Client.UpdateUser | pkg/user/user.go:109-136 | the early-return implementation returns and leaves exactly what `UpdateEffect` specifies |
| Users.Client.DeleteUser | pkg/user/user.go:138-152 | the implementation returns and leaves exactly what `DeleteEffect` specifies |
| Users.CreateThenFetch | pkg/user/user.go:34-57 | after a successful create, fetching that email without backend failure returns the created record |
| Users.DeleteThenFetch | pkg/user/user.go:138-152 | after a successful delete, fetching that email without backend failure reports "user.User does not exist" |
| Handlers.QueryParam | pkg/handlers/handlers.go:20 | a missing query parameter reads as the empty string |
| Handlers.BadRequest | pkg/handlers/handlers.go:23-26 | an error response is status 400 with an error body holding the message unchanged |
| Handlers.RecordReply | pkg/handlers/handlers.go:23-28 | a successful record result gives the success status with the record, and any error gives 400 with its message |
| Handlers.ListReply | pkg/handlers/handlers.go:31-37 | a successful list gives 200 with the list, and any error gives 400 with its message |
| Handlers.GetUser | pkg/handlers/handlers.go:19-38 | a non-empty `email` gives the fetched record or a 400; a missing or empty `email` gives 200 with one complete scan, or a 400 with the fetch-all error; nothing is written |
| Handlers.CreateServed | pkg/handlers/handlers.go:40-48 | status is 201 or 400; 201 iff the create succeeded, with the created record as body; on 400 the tables are unchanged and the body carries the create error unchanged |
| Handlers.UpdateServed | pkg/handlers/handlers.go:50-58 | status is 200 or 400; 200 iff the update succeeded, with the record as body; on 400 the tables are unchanged and the body carries the update error unchanged |
| Handlers.DeleteServed | pkg/handlers/handlers.go:60-76 | a missing or empty `email` gives 400 "email is required" with no storage change; otherwise the status is 200 exactly when the delete succeeds, with a null body after removing the key, or 400 "could not delete item" with the tables unchanged |
| Handlers.UnhandledMethod | pkg/handlers/handlers.go:78-80 | status 405 with the bare string "method not allowed", not an error object |
| Handlers.CreateUser | pkg/handlers/handlers.go:40-48 | the handler's response and the new tables are exactly `CreateServed` of the old tables |
| Handlers.UpdateUser | pkg/handlers/handlers.go:50-58 | the handler's response and the new tables are exactly `UpdateServed` of the old tables |
| Handlers.DeleteUser | pkg/handlers/handlers.go:60-76 | the handler's response and the new tables are exactly `DeleteServed` of the old tables; an empty `email` makes no storage call |
| Cmd.RouteOf | cmd/main.go:44-55 | each of "GET", "POST", "PUT", "DELETE" selects exactly its own handler, and any other string is unhandled |
| Cmd.After | cmd/main.go:42-56 | one invocation changes no table other than "LambdaInGoUser", adds or drops no table, keeps key == email, and GET or an unknown method changes nothing |
| Cmd.Handler | cmd/main.go:40-56 | every routed call uses the table "LambdaInGoUser"; the response is the selected handler's for the tables before the call, and an unknown method gives the 405 response |
| Cmd.ReplayConfinedToUserTable | cmd/main.go:40-56 | across any sequence of invocations, no state other than the tables carries over, every other table stays unchanged, and key == email holds throughout |
| Cmd.ReadOnlyReplay | cmd/main.go:44-55 | any sequence of GETs and unknown methods leaves the tables exactly as they were |
| Cmd.LowerCaseIsUnhandled | cmd/main.go:44-55 | worked examples of RouteOf's exact matching, which is case-sensitive: "get", "post", "put", "delete" and "PATCH" are unhandled |

## Left out

- Process start-up in `main()`: reading the region from the environment, loading the AWS configuration, constructing the client, `lambda.Start`, and the `fmt.Printf` logging. These are I/O and wiring.
- The DynamoDB SDK and `attributevalue` marshalling. These are foreign calls, replaced by operations on the map. Whether each call fails is given by a `Faults` value, with one flag per kind of call; in the real service a failure depends on the network and on the item. Scan pagination is not modelled: the source reads a single page.
- `json.Unmarshal` of the request body. The body is modelled as an already-parsed `Option<User>`.
- `validators.IsEmailValid`. Its source is not part of this model, so it is a parameter about which nothing is assumed.
- `apiResponse` in `pkg/handlers/api_response.go`. The JSON encoding, the Content-Type header and the marshal error path are not modelled. The response is a `(statusCode, body)` pair whose body says what would be encoded.
- The non-atomic check-then-act in `CreateUser` across concurrent invocations. This is concurrency; each invocation is modelled as one sequential step.
- `context.TODO()` and the mismatched client types and import paths among the three files. These are compile-level plumbing; the model has one client type.
- DynamoDB's own rejection of an empty-string key. The model stores such a record like any other; the rejection is one of the PutItem failures that the `Faults` value can select.
- Eventually consistent reads. GetItem and Scan in the source leave `ConsistentRead` unset, so DynamoDB may return data older than the latest write. The model's map always returns the latest write. `Users.CreateThenFetch`, `Users.DeleteThenFetch`, the existence checks in `Users.CreateEffect` and `Users.UpdateEffect`, and `Users.FetchUser` therefore hold only under strongly consistent reads.
- Scan results larger than one page. A single Scan call returns at most 1 MB of items, and the source reads only that first page. The model treats the page as the whole table. `Users.ScanItems`, `Users.IsScanOf`, `Users.Client.FetchUsers` and `Handlers.GetUser` promise every record, which the source delivers only when the table fits in one page.
