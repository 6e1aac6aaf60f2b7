# Query-execution façade of the experimental neo4j Go driver API

This project models `pkg/neo4j_alpha/driver.go`, a thin layer over the neo4j Go
driver, and proves properties of the model. Its one piece of logic is
`ExecuteQuery`, which does four things:

- It folds the caller's `QueryConfigOption`s into a zero-valued `QueryConfig`.
- It opens one session with the database, impersonated user and bookmark manager taken from that config.
- It picks the session's `ExecuteWrite` or `ExecuteRead` from the `RoutingControl` value, and panics on any other value.
- It submits `RunQuery` as the unit of work. `RunQuery` calls `Run`, `Keys`, `Collect` and `Consume` and builds an `EagerResult`. A deferred `session.Close` then runs, and its result overwrites the named error result.

The project also models how an `EagerResult` is turned into a string
(`String`, `stringifyRecords`, `stringifySummary`).

The neo4j session and transaction are external. Here they are replaced as follows:

- `Facade.Session` is a class that records the calls made on it.
- `Facade.SessionProvider` is a class that records the sessions it opened.
- `Facade.ExecutorRun` is the outcome of the transaction-function API. `Completed(tx)` means the last attempt ran the work on `tx`. `Aborted(err)` means the API failed without a work result.
- `Work.Transaction` and `Work.Cursor` give what the database answers to `Run`, `Keys`, `Collect` and `Consume`.
- The result of `session.Close` is an input of `ExecuteQuery`.

Modules follow the parts of the file:

- `Config`: `QueryConfig`, the `With*` options and the option fold.
- `Routing`: `resolveTxFuncApi`.
- `Work`: the data types and `RunQuery`.
- `Format`: the string rendering.
- `Facade`: `ExecuteQuery`.
- `Text` and `Wrappers`: helpers. `Text` has join/split and the decimal rendering of Go's `%d`.

The model keeps the error behaviour as the code is written. The returned error is
always the result of `session.Close`. A failed unit of work does not surface its own
error: with a clean close the call returns `(nil, nil)`. A successful unit of work
with a failing close returns `(result, closeErr)`. Within a record, entries are
written in `record.Keys` order.

A nil `QueryConfigOption` makes the option loop panic with a nil dereference. That
happens before any session is opened, so the model opens and closes no session on
that path.

## Model

| member | source | states |
|---|---|---|
| `Config.Apply` | pkg/neo4j_alpha/driver.go:134-164 | each `With*` option assigns its one target field the value it carries, and every other field keeps its value |
| `Config.ApplyOptions` | pkg/neo4j_alpha/driver.go:45-48 | the loop that applies the options to a zero `QueryConfig` yields the in-order fold of the options. It panics exactly when some option is nil, at the first nil option |
| `Config.NoOptionsGiveZeroConfig` | pkg/neo4j_alpha/driver.go:179-182 | with no options the config is the zero value: routing `Writers` (0), empty database and user, nil bookmark manager |
| `Config.LastOptionWins` | pkg/neo4j_alpha/driver.go:46-48 | a field holds the value of the last option that targets it, whatever earlier options did |
| `Config.UntouchedFieldKeepsZero` | pkg/neo4j_alpha/driver.go:45-48 | a field that no option targets keeps its zero value |
| `Config.PackageOptionsKeepRoutingKnown` | pkg/neo4j_alpha/driver.go:136-146 | the package's options only ever store `Writers` or `Readers` as the routing value |
| `Routing.ResolveTxFuncApi` | pkg/neo4j_alpha/driver.go:168-177 | `Writers` selects the write API and only it does, `Readers` selects the read API and only it does, and every other uint8 value panics rather than returning an error |
| `Routing.PanicMessageNamesValue` | pkg/neo4j_alpha/driver.go:175 | the panic message is `unknown routing control: ` followed by the value in decimal, which parses back to the value |
| `Routing.PackageOptionsNeverPanic` | pkg/neo4j_alpha/driver.go:166-182 | a config built from the package's options never panics, and with no routing option it dispatches as explicit `Writers` |
| `Work.RunQuery` | pkg/neo4j_alpha/driver.go:186-209 | the work calls `Run` with the query and parameters, then `Keys`, `Collect`, `Consume`. It stops at the first failing step and returns that step's error. Every earlier step succeeded. It succeeds only after all four steps, with an `EagerResult` holding exactly the keys, records and summary they produced |
| `Work.FirstFailureIsReturned` | pkg/neo4j_alpha/driver.go:188-203 | the work succeeds exactly when no step fails. Otherwise its calls end at the earliest failing step and its error is that step's error |
| `Format.StringifyRecords` | pkg/neo4j_alpha/driver.go:102-120 | the loop's output equals the records' texts concatenated in record order, each text being the record's entries joined by `,` inside braces |
| `Format.WriteRecord` | pkg/neo4j_alpha/driver.go:105-117 | writing one record appends `{`, then each key's `%q: %v` entry in key order with `<N/A>` for a value not found and `,` after every entry but the last, then `}` |
| `Format.RecordsTextAppend` | pkg/neo4j_alpha/driver.go:104-118 | the text of a concatenation of record lists is the concatenation of their texts: no separator between records, and the empty list gives the empty string |
| `Format.RecordTextSplitsIntoEntries` | pkg/neo4j_alpha/driver.go:106-116 | inside a record's braces, splitting at `,` gives back the entries in key order when no entry contains a comma. So there is no separator after the last entry |
| `Format.KeysTextSplitsIntoKeys` | pkg/neo4j_alpha/driver.go:98-100 | the `%v` rendering of the keys is bracketed, and splitting it at spaces gives back the keys when no key contains a space |
| `Format.VersionRoundTrip` | pkg/neo4j_alpha/driver.go:122-131 | the `"%d.%d"` protocol-version text parses back to its major and minor numbers |
| `Facade.SessionCalls` | pkg/neo4j_alpha/driver.go:54-58 | the session receives exactly one `Close`, as its last call, after the one transaction-function call. On the panic path `Close` is its only call |
| `Facade.QueryOutcomeOf` | pkg/neo4j_alpha/driver.go:44-63 | a nil option makes the call panic with a nil dereference. Without one, the call panics exactly when the routing value is unknown. Otherwise the returned error always equals the close result. The result is nil exactly when the unit of work failed, and otherwise it is the work's `EagerResult` |
| `Facade.Driver.ExecuteQuery` | pkg/neo4j_alpha/driver.go:44-63 | with a nil option the call opens no session. Otherwise it opens exactly one new session configured from the folded config, whose calls are `SessionCalls` of the routing value. In both cases it returns `QueryOutcomeOf` |
| `Facade.NilOptionPanicsBeforeSession` | pkg/neo4j_alpha/driver.go:46-49 | any nil option, wherever it comes in the list, makes the call panic with a nil dereference |
| `Facade.WorkErrorMaskedByCleanClose` | pkg/neo4j_alpha/driver.go:54-60 | when the unit of work fails and close succeeds, the call returns `(nil, nil)` |
| `Facade.ResultKeptDespiteCloseError` | pkg/neo4j_alpha/driver.go:55-62 | when the unit of work succeeds and close fails, the call returns the result together with the close error |
| `Facade.PackageOptionsReturnWorkResult` | pkg/neo4j_alpha/driver.go:57-62 | with the package's options, a completed run whose four steps succeed returns exactly the keys, records and summary produced, paired with the close result |

## Left out

- `NewDriver`, `Target`, `NewSession`, `VerifyConnectivity`, `Close` and `IsEncrypted` (driver.go:11-17, 65-83) are not modelled. Each one only forwards to the wrapped neo4j driver.
- The `ctx` context, cancellation and deadlines are not modelled. They are only passed through to the neo4j library.
- The retry policy, transaction commit and connection handling of `ExecuteWrite`/`ExecuteRead` are not modelled. They are inside the neo4j library. Their combined effect is one `ExecutorRun` value, which the caller supplies.
- `Facade.Session.ExecuteWrite`, `ExecuteRead` and `Close` only log the call and return the outcome they are given. They do not model any behaviour of the neo4j library.
- A caller-written option that itself panics is not modelled: `Custom` updates are total functions. Like a nil option, such an option would panic in the option loop before any session is opened.
- `NewSession` in the neo4j library returns no error, so there is no session-open failure path.
- The type assertion `result.(*EagerResult)` is not modelled. In the model the executor's value already has the `EagerResult` type, because `RunQuery` is the only work submitted.
- `Format.Renderers` stands in for Go's `%q` of a string and `%v` of a database value. These are parameters, because Go's quoting and value printing are library code. `%v` of the `[]string` keys is modelled as Go prints it: brackets around the space-separated keys. `%d` is modelled as decimal digits with a leading `-` for negative numbers.
- `Format.SummaryText` and `Format.EagerResultText` have no contract of their own. They are single format expressions. What is proved about them is `VersionRoundTrip` and `KeysTextSplitsIntoKeys`.
- `Work.Record.Get` is modelled as a lookup in a map from key to value. The neo4j `Record` type is library code. A key missing from the map is a key whose `Get` reports not found.
- Records are values, so a nil `*neo4j.Record` in the slice is not modelled. In Go it would panic during formatting.
- Database values are a small stand-in datatype. Floats, temporal values and graph entities are not modelled, and nothing in the façade depends on their kind.
- Strings are sequences of characters, not Go's UTF-8 bytes.
- Bookmark-manager concurrency is not modelled. It belongs to the external manager.
- `pkg/container/container.go` and the `cmd/` programs are not part of this model. They are Docker orchestration and demonstration programs.
