# Todo service core: in-memory store and handler status rules

This project models the core of a small Go todo service (`coverme`): the
slice-backed in-memory store of `Todo` records, the failing store used to
test error paths, the record's mutators, and the rules by which the HTTP
handlers turn a request and the store's answer into a status code and body.
The repository's implementation files are not part of this model; what is
modelled is what its test files fix: the test doubles written inside them
(`mockStorage`, `brokenMockStorage`) and the behaviour the tests assert.

- `outcomes.dfy` (module `Outcomes`): `Option` and `Result`, standing for
  Go's `(value, error)` pairs.
- `todos.dfy` (module `Todos`): the `Todo` record as a heap object (class
  `Todo`: ids, title, content, finished flag, `MarkFinished`,
  `MarkUnfinished`), its value view `TodoValue`, and the value-level
  specification of a front-to-back scan (`FirstIndex`) and of finishing a
  record (`Finish`).
- `storage.dfy` (module `Storage`): class `Store`, a sequence of shared
  record objects. One class covers both id rules: a store numbers a new
  record `base + (records held)`, with `base` 0 for `NewInMemoryStorage`
  (constructor `InMemory`) and 1 for `mockStorage` (constructor `Mock`,
  seeded with records). `GetTodo` and `FinishTodo` are the scans of the test
  double, written as loops; `FinishTodo` changes the record object in place,
  so a caller holding the pointer `AddTodo` returned sees the flag. Class
  `BrokenStore` fails every operation.
- `handlers.dfy` (module `Handlers`): the status codes (200, 201, 400, 404,
  500), the fixed bodies ("Server encountered an error.", the router's
  "404 page not found\n", the health string "API is up and working!"), and
  one pure function per handler from the abstract request and the store's
  answer to a `Response`.
- `app.dfy` (module `Application`): class `App` over a `Backend` (the working
  store or the failing one); its handler methods validate the request, call
  the store only for a valid one, and answer as module `Handlers` decides.
  `ServeGetTodo` and `ServeFinishTodo` put the router in front: a non-numeric
  id segment is answered 404 before any handler runs.
- `scenarios.dfy` (module `Scenarios`): each test case of the repository's
  storage, record and handler tests replayed as a method whose postcondition
  implies what the test asserts (where a test compares records by value,
  the replay proves the very same object is returned). TestRun, which only
  starts a server on a port, is not replayed.

The model follows the tests wherever they fix a behaviour: a request for
`/todo/<non-numeric>` that goes through the router is answered 404 with
"404 page not found\n" (coverme/app/app_test.go lines 246-251), and 400
only when the handler itself runs without an id it can parse (lines
291-300). A lookup or finish of a missing id is answered
500, not 404, as the tests fix it.

## Model

| member | source | states |
|---|---|---|
| Todos.Todo.constructor | coverme/models/todo_test.go:10 | a new record holds exactly the given id, title, content and flag |
| Todos.Todo.MarkFinished | coverme/models/todo_test.go:11-12 | the same record object is finished afterwards; id, title and content are kept |
| Todos.Todo.MarkUnfinished | coverme/models/todo_test.go:13-14 | the same record object is unfinished afterwards; id, title and content are kept |
| Todos.FirstIndex | coverme/app/app_test.go:30-37 | the slot a front-to-back scan stops at is the first one holding the id, and there is none exactly when no slot holds it |
| Todos.FindPositional | coverme/models/storage_test.go:17-24 | when slot i holds id base+i, an id is found exactly when it lies in [base, base+length), at slot id-base |
| Todos.IdsIncreasing | coverme/app/app_test.go:24-28 | positional ids are strictly increasing along the store, so no id is used twice |
| Todos.Finish | coverme/app/app_test.go:39-47 | finishing fails exactly when no record holds the id; otherwise only the first record holding it changes, and only its flag, to true |
| Todos.FinishIdempotent | coverme/app/app_test.go:39-47 | finishing the same id a second time succeeds and changes nothing |
| Todos.AppendPositional | coverme/app/app_test.go:24-28 | appending the record the next add creates keeps ids positional, and a scan for its id finds it in the last slot |
| Storage.Lookup | coverme/app/app_test.go:30-37 | a lookup succeeds exactly when some record holds the id, yields the first record holding it, and otherwise fails with "not found" |
| Storage.AddThenLookup | coverme/models/storage_test.go:17-22 | a lookup of the id an add assigned yields the record that add created |
| Storage.AddAll | coverme/models/storage_test.go:27-35 | a run of adds on an empty store leaves it holding exactly the records the run yields: one per add, in order (with AddedInOrder) |
| Storage.AddedInOrder | coverme/models/storage_test.go:27-35 | after a run of adds on an empty store the store holds one unfinished record per add, in the order of the adds, with ids base, base+1, ... |
| Storage.Store.InMemory | coverme/models/storage_test.go:10-14 | a new in-memory store is empty and numbers from 0 |
| Storage.Store.Mock | coverme/app/app_test.go:16-18 | the test double holds exactly the seeded records and numbers one past its length |
| Storage.Store.GetAll | coverme/app/app_test.go:20-22 | listing never fails and returns the held record objects themselves, in insertion order |
| Storage.Store.AddTodo | coverme/app/app_test.go:24-28 | adding never fails, returns a fresh unfinished record with id base+old length and the given title and content, appends exactly it, and leaves the earlier records unchanged |
| Storage.Store.GetTodo | coverme/app/app_test.go:30-37 | the loop returns the shared object in the first slot holding the id, or "not found" when none does |
| Storage.Store.FinishTodo | coverme/app/app_test.go:39-47 | the loop finishes the first record holding the id in place and returns no error; with no such record it returns "not found" and the store's contents are unchanged |
| Storage.BrokenStore.constructor | coverme/app/app_test.go:49-51 | the failing double holds the seeded records |
| Storage.BrokenStore.GetAll | coverme/app/app_test.go:53-55 | listing always fails with the error "lol" |
| Storage.BrokenStore.AddTodo | coverme/app/app_test.go:57-59 | adding always fails with the error "lol" |
| Storage.BrokenStore.GetTodo | coverme/app/app_test.go:61-63 | a lookup always fails with "not found" |
| Storage.BrokenStore.FinishTodo | coverme/app/app_test.go:65-67 | finishing always fails with "not found" |
| Handlers.ListResponse | coverme/app/app_test.go:100-129 | 200 exactly when listing succeeded, with the listed records; any failure is 500 with the server-error body |
| Handlers.StatusResponse | coverme/app/app_test.go:145-151 | always 200 with the JSON string "API is up and working!" |
| Handlers.CheckCreate | coverme/app/app_test.go:180-204 | a create request passes exactly when its body decodes and its title is non-empty; otherwise it is rejected as a bad body or an empty title |
| Handlers.AddTodoResponse | coverme/app/app_test.go:175-217 | 201 with the created record exactly when the request passes and the store added; 400 exactly when the request does not pass; 500 with the server-error body exactly when it passes and the store failed |
| Handlers.GetTodoResponse | coverme/app/app_test.go:240-300 | 200 with the record exactly when the id parsed and the lookup succeeded; 400 with the bad-id complaint exactly when the id did not parse; 500 with "Server encountered an error." exactly when the lookup failed |
| Handlers.FinishTodoResponse | coverme/app/app_test.go:303-343 | 200 exactly when the id parsed and the store finished a record; 400 exactly when the id did not parse; 500 with the server-error body exactly when the store reported an error |
| Handlers.RouteId | coverme/app/app_test.go:246-251 | only a numeric id segment reaches a handler, with its non-negative value |
| Handlers.RouterNotFound | coverme/app/app_test.go:246-251 | an unrouted path is answered 404 with "404 page not found\n" |
| Application.App.New | coverme/app/app_test.go:86-88 | an application is built over the given store |
| Application.App.List | coverme/app/app_test.go:100-129 | over the working store: 200 with every record in storage order, field by field; over the failing store: 500 |
| Application.App.AddTodo | coverme/app/app_test.go:154-217 | a rejected request is 400 and leaves the store as it was; an accepted one adds exactly one record with the next id and answers 201 with it, or 500 over the failing store |
| Application.App.GetTodo | coverme/app/app_test.go:283-300 | without a parseable id: 400; otherwise the response for the lookup of that id in the store's contents; over the failing store: the response for "not found" |
| Application.App.FinishTodo | coverme/app/app_test.go:303-320 | without a parseable id: 400 and no change; otherwise 200 with the record finished as Finish says, or 500 with no change when no record holds the id |
| Application.App.ServeGetTodo | coverme/app/app_test.go:220-281 | a non-numeric segment is 404 from the router; a numeric one is answered by the lookup handler; over the failing store: 500 |
| Application.App.ServeFinishTodo | coverme/app/app_test.go:322-343 | a non-numeric segment is 404 with no change; a numeric one finishes the first record holding it (200) or is 500 with no change |
| Scenarios.FirstAddOnFreshStore | coverme/models/storage_test.go:9-15 | the first add on a fresh store returns id 0, "lol", "kek", unfinished |
| Scenarios.GetAfterAdd | coverme/models/storage_test.go:17-25 | a lookup of id 0 yields the very record the add returned; a lookup of id 1 fails |
| Scenarios.ListAfterTwoAdds | coverme/models/storage_test.go:27-35 | after two adds listing holds 2 records, the two returned by the adds, in order |
| Scenarios.FinishThroughSharedRecord | coverme/models/storage_test.go:37-45 | finishing id 0 succeeds and the record the add returned shows the flag; finishing id 1 fails |
| Scenarios.FinishUnfinish | coverme/models/todo_test.go:9-15 | the flag reads true after MarkFinished and false after MarkUnfinished, on the same record, whose contents are then as at the start |
| Scenarios.ListSeeded | coverme/app/app_test.go:69-130 | listing the seeded double is 200 with its three records field by field; the failing double is 500 |
| Scenarios.StatusCase | coverme/app/app_test.go:132-152 | the health handler answers 200 with the JSON string "API is up and working!" |
| Scenarios.CreateCases | coverme/app/app_test.go:154-218 | a titled body is 201 with the record numbered 3; an empty title and a non-object body are 400; the failing store is 500 |
| Scenarios.GetCases | coverme/app/app_test.go:220-301 | id 1 is 200 with its record; "invalid" is 404 "404 page not found\n"; 999 is 500 "Server encountered an error."; the handler run without an id is 400 |
| Scenarios.FinishCases | coverme/app/app_test.go:303-344 | the handler run without an id is 400; id 1 through the router is 200 and the seeded record is finished; id 3 is 500 |

## Left out

- The implementation files of the store, the record and the application are not part of this model; the package's own store numbers its first record 0 (coverme/models/storage_test.go:14), and one more per add is assumed.
- Whether the create handler calls the store for a request it rejects is not visible in the tests (coverme/app/app_test.go:180-204 fix only the 400); the model calls the store only for a valid request.
- Application.App.ServeFinishTodo: the tests route only numeric finish paths (coverme/app/app_test.go:324-343) and send "/todo/lol/finish" straight to the handler (lines 311-320); that the finish route, like the lookup route, answers 404 for a non-numeric id is assumed, and if it does not restrict the id the program answers 400 there.
- Storage.Store.GetTodo, Storage.Store.FinishTodo: for the package's own store the scan and the "not found" message are those of the test double; its tests (coverme/models/storage_test.go:24, 44) only check that some error is returned.
- Storage.Store.GetAll: Go returns the store's own slice, whose backing array a caller could write into and so change the store; here the listed sequence is a value, so that aliasing of the slice (not of the records) is not modelled.
- JSON encoding and decoding are abstract: a create body is either a decoded (title, content) pair or undecodable, and response bodies are abstract values, not bytes.
- The router's pattern matching is abstract: an id segment is either numeric or not.
- The text of a 400 body is not visible in the tests; a 400 response carries an abstract complaint (bad id, bad body, empty title).
- The body of a successful finish is not fixed by the tests; it is modelled as no body.
- The 500 body of the list, create and finish handlers is taken to be the same server-error message the lookup test shows.
- Storage.Store.GetTodo, Storage.BrokenStore.GetTodo: the zero-valued placeholder record Go returns beside the error is not modelled; a failed lookup returns only the error.
- Storage.BrokenStore.GetAll: the slice Go returns beside the error is not modelled; callers ignore it.
- Storage.Store.Mock: requires that no record object is seeded into two slots; a slice holding the same pointer twice is not modelled.
- Integer width of ids and the handler's string-to-integer conversion (signs, overflow) are not modelled; ids are unbounded integers and a parsed id is given to the handler as a value or as a parse failure.
- The HTTP client, the external-API smoke test, the response-writing helpers (kept only as status codes and fixed bodies), starting a server on a port, and concurrency (the store is used sequentially) are outside this model.
