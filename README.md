# opentracing-sql, modelled in Dafny

opentracing-sql is a Go `database/sql/driver.Driver` decorator. `NewTracingDriver` wraps a driver together with an
OpenTracing tracer, and every connection, statement and transaction wrapper it creates shares one tracer record
(the raw transaction of the `BeginTx` fallback and the raw statement of the `PrepareContext` fallback hold none).
A span is named with a configurable function, started on the tracer as a child of the span in the context, and
handed to an optional observer. Which operations open one:

- **`ExecContext` and `QueryContext`** (on connections and on statements) open a span around the call to the wrapped
  object. They tag it with the query when `saveQuery` is on, and finish it when they return.
- **`Ping`** opens a span around the ping only when the connection is a `driver.Pinger`. It never tags it.
- **`BeginTx`** opens a span and does not finish it. The transaction it returns finishes it on `Commit` or `Rollback`,
  but only when `driver.ConnBeginTx` succeeded. `BeginTx` never tags it.
- **Every other operation** opens no span. `PrepareContext` and the context-free operations delegate, or return
  `ErrUnsupported` when the connection lacks `Execer` (`Exec`) or `Queryer` (`Query`). `Commit` and `Rollback` also
  finish the span `BeginTx` attached, when there is one.

## How the model works

- **Wrapped objects.** A wrapped driver object is an id plus the optional interfaces it implements, as booleans:
  `DriverApi.DriverConn`, `DriverApi.DriverStmt` and friends.
- **Replies.** Every wrapper operation takes one `reply` parameter: what the single underlying call answers.
- **The outside world.** The tracing backend and the wrapped driver are the class `Tracing.Recorder`. Its event log
  records span starts (with the tracer handle that started them), observer calls, tags, calls into wrapped objects and span finishes. Its span counter hands out
  fresh span identities.
- **Pure specifications.** Each traced operation has a pure specification of the result and the events it emits:
  `Common.NewSpanEvents` for `Common.Tracer.NewSpan`, and a `...Step` function for each of `ConnWrapper.BeginTx`,
  `ConnWrapper.ExecContext`, `ConnWrapper.QueryContext`, `ConnWrapper.Ping`, the statement's `ExecContext` and
  `QueryContext`, and `TxWrapper.Commit` and `TxWrapper.Rollback`. Each method is proved to emit exactly that. The
  tracing discipline is then proved as lemmas over the specifications.
- **Shared tracer.** The tracer record is the class `Common.Tracer`, shared by reference. A `conn`, `stmt` or `tx` is a
  datatype holding that reference, because Go never reassigns their fields.
- **Options.** An option closure is the datatype `Options.DriverOption`.

Modules follow the Go files:

| module | file |
|---|---|
| `DriverApi` | the `database/sql/driver` types the core uses |
| `Tracing` | the OpenTracing side |
| `Common` | `common.go` |
| `ConnWrapper` | `conn.go` |
| `StmtWrapper` | `stmt.go` |
| `TxWrapper` | `tx.go` |
| `Options` | `options.go` |
| `TracingDriver` | `driver.go` |

## Model

| member | source | states |
|---|---|---|
| Common.Initial | driver.go:17 | a fresh driver's tracer has only the backend set: no naming function, no observer, saveQuery off |
| Common.Tracer.constructor | driver.go:17 | the new tracer record holds exactly the initial settings |
| Common.Tracer.NewSpan | common.go:39-51 | newSpan starts one span, with the new identity, named by the naming function and parented on the context's span; then it calls the observer, if any, and emits nothing else |
| Common.NewSpanShape | common.go:39-51 | newSpan's events begin with the named start; there is one start, one observer call exactly when an observer is set (after the start and on that span), and no tag, call or finish |
| Common.TracedShape | conn.go:89-96 | a span around calls returns the inner result; the first event is the start and the last is the one finish; no other span is finished; tags precede calls; the wrapped calls are exactly the inner ones |
| Common.QuerySpanShape | conn.go:71-76 | the query-tagged bracket: as TracedShape, and the query is set under the query key, unchanged, iff saveQuery is on (both directions); the wrapper sets no other tag; the observer runs exactly once when one is set and never otherwise |
| Common.ValuesOf | common.go:72-81 | the positional values have the same length as the arguments and carry each argument's value in order |
| Common.NamedToValues | common.go:72-81 | conversion succeeds iff no argument has a name; otherwise it gives the named-parameters error, and on success the values in order |
| Common.NamedValueToValue | common.go:72-81 | the array-filling loop with early return: succeeds iff every name is empty, gives the named-parameters error otherwise, fills length and elements in order, and agrees with NamedToValues |
| Tracing.Recorder.StartSpan | common.go:46 | StartSpan on a tracer handle gives the next fresh identity and logs the start together with that handle |
| Tracing.Recorder.Emit | common.go:48 | appends the given events, which may not include a span start, to the log; the span counter is unchanged, so span identities stay fresh |
| ConnWrapper.Prepare | conn.go:15-21 | one Prepare call and no span; the error unchanged, or the statement wrapped with the same tracer |
| ConnWrapper.Close | conn.go:24-26 | one Close call and no span; the error unchanged |
| ConnWrapper.Begin | conn.go:29-35 | one Begin call and no span; the error unchanged, or the transaction wrapped with the same tracer and no span |
| ConnWrapper.BeginTx | conn.go:38-48 | the method opens a span and then makes one call, emitting exactly BeginTxStep's events and returning its result |
| ConnWrapper.BeginTxSpan | conn.go:38-48 | BeginTx always starts one span first and never finishes it or tags it; the observer runs once iff one is set; it makes one call, ConnBeginTx when available and Begin otherwise; the returned transaction holds the span iff ConnBeginTx succeeded; the fallback returns the connection's unwrapped transaction |
| ConnWrapper.BeginTxThenEnd | conn.go:38-48 | when ConnBeginTx succeeds, ending the transaction by Commit or by Rollback finishes BeginTx's span exactly once |
| ConnWrapper.PrepareContext | conn.go:51-60 | no span, one call; with ConnPrepareContext the error unchanged or the wrapped statement; otherwise Prepare's statement, unwrapped |
| ConnWrapper.Exec | conn.go:63-68 | with Execer: one Exec call with the query and values and the reply unchanged; without: ErrUnsupported and no call |
| ConnWrapper.Query | conn.go:99-104 | with Queryer: one Query call and the reply unchanged; without: ErrUnsupported and no call |
| ConnWrapper.ExecContextCall | conn.go:77-85 | with ExecerContext: one call with the named arguments as given; otherwise the named-parameters error with no call, or exactly Exec on the positional values |
| ConnWrapper.ExecContext | conn.go:71-86 | the method emits exactly ExecContextStep's events and returns its result |
| ConnWrapper.ExecDispatch | conn.go:77-85 | the dispatch emits exactly ExecContextCall's events and returns its result |
| ConnWrapper.ExecContextTraced | conn.go:71-86 | on all four paths (ExecerContext, named error, Execer fallback, ErrUnsupported): one span starts first, on the tracer handle, and finishes once, last; no other span is finished; the observer runs once iff one is set; the wrapper sets one tag when saveQuery is on and none otherwise; the query tag is set iff saveQuery is on, before any call; the result and the call are per path |
| ConnWrapper.QueryContextCall | conn.go:113-121 | as ExecContextCall, for QueryerContext and Query |
| ConnWrapper.QueryContext | conn.go:107-122 | the method emits exactly QueryContextStep's events and returns its result |
| ConnWrapper.QueryDispatch | conn.go:113-121 | the dispatch emits exactly QueryContextCall's events and returns its result |
| ConnWrapper.QueryContextTraced | conn.go:107-122 | as ExecContextTraced, for QueryContext |
| ConnWrapper.Ping | conn.go:89-96 | the method starts a span only for a Pinger and emits exactly PingStep's events |
| ConnWrapper.PingTraced | conn.go:89-96 | for a Pinger: one span around one ping, no other span finished, no tag, the observer run once iff one is set, the error unchanged; otherwise ErrUnsupported, no span and no call |
| StmtWrapper.Close | stmt.go:15-17 | one Close call and no span; the error unchanged |
| StmtWrapper.NumInput | stmt.go:20-22 | one NumInput call and no span; the count unchanged |
| StmtWrapper.Exec | stmt.go:25-27 | one Exec call with the values and no span; the reply unchanged |
| StmtWrapper.Query | stmt.go:30-32 | one Query call with the values and no span; the reply unchanged |
| StmtWrapper.ExecContextCall | stmt.go:41-48 | with ExecerContext: one call with query and named arguments; otherwise the named-parameters error with no call, or exactly Exec on the positional values |
| StmtWrapper.ExecContext | stmt.go:35-49 | the method emits exactly ExecContextStep's events and returns its result |
| StmtWrapper.ExecDispatch | stmt.go:41-48 | the dispatch emits exactly ExecContextCall's events and returns its result |
| StmtWrapper.ExecContextTraced | stmt.go:35-49 | on every path one span starts first, on the tracer handle, and finishes once, last; no other span is finished; the observer runs once iff one is set; the wrapper sets one tag when saveQuery is on and none otherwise; the query tag is set iff saveQuery is on, before any call; the result and the call are per path |
| StmtWrapper.QueryContextCall | stmt.go:58-66 | as ExecContextCall, for QueryerContext and Query |
| StmtWrapper.QueryContext | stmt.go:52-67 | the method emits exactly QueryContextStep's events and returns its result |
| StmtWrapper.QueryDispatch | stmt.go:58-66 | the dispatch emits exactly QueryContextCall's events and returns its result |
| StmtWrapper.QueryContextTraced | stmt.go:52-67 | as ExecContextTraced, for QueryContext |
| TxWrapper.Commit | tx.go:17-22 | the method calls Commit and then finishes the attached span, if any, emitting exactly CommitStep's events |
| TxWrapper.Rollback | tx.go:25-30 | the same as Commit, for Rollback |
| TxWrapper.FinishAttachedCounts | tx.go:18-20 | the deferred finish touches the attached span once, touches no other span, and does nothing else |
| TxWrapper.CommitShape | tx.go:17-22 | Commit returns the error unchanged; the Commit call comes first and only once; the attached span is finished once and no other span; nothing is started or tagged |
| TxWrapper.RollbackShape | tx.go:25-30 | the same as CommitShape, for Rollback |
| TxWrapper.EndTwiceFinishesTwice | tx.go:17-30 | the span is never cleared, so Commit then Rollback (or Commit twice) finishes the attached span twice |
| Options.SpanNameFunction | options.go:10-14 | the option sets the naming function, nil included, and changes no other field |
| Options.SaveQuery | options.go:17-21 | the option turns saveQuery on and changes no other field, whatever the argument |
| Options.WithSpanObserver | options.go:24-28 | the option sets the observer, nil included, and changes no other field |
| Options.Apply | options.go:11-27 | running an option on the tracer leaves the record its ApplyTo describes |
| Options.ApplyIdempotent | options.go:10-28 | running an option twice is the same as running it once |
| TracingDriver.WithDefaultName | driver.go:21-23 | the default naming function goes in exactly when none is set; the other fields are unchanged |
| TracingDriver.TracingDriver.constructor | driver.go:16-25 | for NewTracingDriver, the options loop: the tracer is fresh and holds Built(t, options); a naming function is installed |
| TracingDriver.Open | driver.go:28-34 | one Open call and no span; the error unchanged, or the connection wrapped with the driver's own tracer |
| TracingDriver.ConfigureKeepsBackend | driver.go:17-20 | no option changes the tracer handle |
| TracingDriver.ConfigureSaveQuery | driver.go:18-20 | saveQuery ends on iff it started on or some option is SaveQuery's (both directions) |
| TracingDriver.ConfigureNameFuncUntouched | driver.go:18-20 | without a SpanNameFunction option, the naming function is as it started |
| TracingDriver.ConfigureNameFuncLastWins | driver.go:18-20 | the last SpanNameFunction option decides the naming function |
| TracingDriver.ConfigureObserverUntouched | driver.go:18-20 | without a WithSpanObserver option, the observer is as it started |
| TracingDriver.ConfigureObserverLastWins | driver.go:18-20 | the last WithSpanObserver option decides the observer |
| TracingDriver.ConfigureRepeatLast | driver.go:18-20 | repeating the last option changes nothing |
| TracingDriver.BuiltWithoutOptions | driver.go:16-25 | with no options: the given handle, the default naming function, no observer, saveQuery off |
| TracingDriver.BuiltSpansStartOnHandle | driver.go:16-25 | whatever the options, every span the driver's tracer opens is started on the tracer handle given to NewTracingDriver |
| TracingDriver.BuiltNameFunc | driver.go:16-25 | the installed naming function is the default when there is no SpanNameFunction option or the last one passed nil, and otherwise the function the last one passed |

## Where the code's behaviour is surprising

- **BeginTx loses its span on two paths.** BeginTx opens its span before it inspects the connection. When
  `driver.ConnBeginTx` fails, the span is neither finished nor returned. When the connection lacks that interface,
  BeginTx falls back to `Begin` and returns the connection's own, unwrapped transaction, and the span is again
  neither finished nor returned. `ConnWrapper.BeginTxSpan` states this: no finish on any path, and the span attached
  only on success.
- **PrepareContext's fallback is unwrapped.** It returns the connection's own `Prepare` statement, so later calls on
  that statement are not traced.
- **Two ends finish a span twice.** `tx.Commit` and `tx.Rollback` both finish the attached span and never clear it.
  Ending a transaction twice therefore finishes the span twice (`TxWrapper.EndTwiceFinishesTwice`).
- **`TagQuery` is not defined in the modelled files.** stmt.go tags with an identifier `TagQuery`, which none of
  common.go, conn.go, stmt.go, tx.go, driver.go and options.go defines. common.go defines `spanTagQuery`, whose value is `"query"`. The model uses that one key, `Common.SpanTagQuery`, in
  both files.
- **stmt.go asserts connection interfaces.** It checks `driver.ExecerContext` and `driver.QueryerContext` on the
  statement, and their methods take a query string. The model keeps this: the statement's capabilities are
  `DriverStmt.execerContext` and `DriverStmt.queryerContext`.
- **The default name depth.** defaultNameFunc's comment lists stack depths 0 to 2, but the code reads depth 3, the
  caller of the wrapper.

## Left out

- Common.DefaultNameFunc: the stack introspection (`runtime.Caller(3)`, `FuncForPC`) is not modelled. The context's
  `callerFrame` stands for the function name found there, or for its absence.
- SetTagQuery (common.go:20-22): the tag key is the constant `"query"`. Code that runs during init and reassigns a
  package variable is not modelled.
- The OpenTracing backend: span contexts and baggage are not modelled. `ctx.parent` stands for
  `opentracing.SpanFromContext`, and the `Recorder` log stands for what the backend and the observer see.
- Query execution itself, results and rows: the wrapped driver's answers are inputs (`reply`).
- Context cancellation and deadlines: the context is passed on unchanged and never inspected.
- Concurrency: the model is sequential. The shared tracer is written only during construction.
- Go interface assertions: they become capability booleans fixed per object.
- Options.Apply: the Go closure receives the `*tracingDriver`. The model passes the tracer it writes, which is the
  only field the closure touches.
- Options.Apply: nothing stops an option being applied to a driver's tracer after construction (which could remove
  the naming function). Go runs options only inside `NewTracingDriver` (driver.go:18-20); the model guarantees
  `Tracer.Ready()` right after the constructor but keeps no class invariant on `TracingDriver` afterwards.
- Go's `(T, error)` pair becomes `Outcome`, which is a value or an error, never both. Paths that pass the wrapped
  call's pair through unchanged (for example conn.go:47, 59, 65, 78; stmt.go:26) cannot be told apart from paths that replace the
  value with nil on error (for example conn.go:18, 32, 43, 55; driver.go:31) when a driver returns a non-nil value together with
  an error.
- The observer (options.go:23-28) may add tags of its own; the model records only that it ran on the span, so the
  tag counts in the lemmas are the tags the wrappers set.
- Go panics on nil: a nil entry in `options` panics at `option(td)` (driver.go:19), and a nil tracer handle panics at
  `t.t.StartSpan` (common.go:46) on every traced call. `DriverOption` and `TracerHandle` have no nil value, so the
  model cannot express either case.
- Span naming functions are total, and an observer is an identity: the effects of user callbacks are not modelled.
