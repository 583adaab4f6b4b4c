# Session batch-and-transaction engine

A Dafny model of the client-side session of a database driver prototype
(`API_Improvements`). A caller queues parameterised queries on a `Session`
with `Run` and `Then`, then calls `ExecuteAsync`. That call begins one
transaction with the session's access mode and runs every queued operation
in order. After each run it calls the operation's result handler, if there
is one, on the returned cursor, and then consumes the cursor. It commits if
the transaction is open. On an exception it rolls back if the transaction is
open and rethrows. The model also covers the two stub collaborators the
engine uses: the `Transaction` that never fails and the counter-based
`ResultCursor`.

Files and modules:

- `wrappers.dfy` (`Wrappers`): `Option` for C# null and `Outcome` (`Ok` or
  `Err(e)`) for a call that completes or throws.
- `access_mode.dfy` (`AccessModes`): the five-valued `AccessMode`, including
  the `NumSessionQueryModes` sentinel.
- `trace.dfy` (`Trace`): the events of one `ExecuteAsync` call. These are
  `Begin(mode)`, `Run(i, query, parameters)`, `Handle(i)`, `Consume(i)`,
  `Commit` and `RollBack`.
- `transaction.dfy` (`Transactions`): `TxBehaviour`, which describes what
  the calls of an `ITransaction` do. `StubTransaction` is the repository's
  stub.
- `result.dfy` (`Results`): the `Record` and `ResultCursor` classes. It also
  holds the decimal text of the counter, the answers of successive fetches,
  and the two handler loops `FetchTimes` and `DrainRecords`.
- `session.dfy` (`Sessions`): operations, handlers and the builder state.
  `ProcessFrom` and `Execution` give the meaning of one execution. The
  `Session` class has the fields `tx`, `operationsCache` and `mode`.
- `session_properties.dfy` (`SessionProperties`): lemmas about the builder
  and about the events and outcome of `ExecuteAsync`.

Modelling choices:

- Each `await` is an ordinary sequential step.
- A thrown exception is an `Err(e)` outcome. The exception type `E` and the
  parameters type `P` are type parameters.
- `ITransaction` cannot be an interface here. It is the datatype
  `TxBehaviour`: the outcome of `Begin`, `Commit` and `RollBack`, the outcome
  of the run call for operation `i`, and the answer of `IsOpen` given the
  events so far.
- `ExecuteAsync` takes the transaction constructor as a parameter,
  `newTransaction: AccessMode -> TxBehaviour`. `Session.BeginTransaction`
  (Session.cs:186) calls `new Transaction(mode)` at that point.
  `StubTransaction` models the stub `Transaction` constructor. Other
  arguments let the lemmas talk about a transaction whose calls may throw.
- The cursor a successful run returns is the stub `ResultCursor`, the only
  cursor in the repository.
- A handler is a caller lambda. It is modelled by how many times it calls
  `FetchAsync` and how it ends (`Fetches(n, outcome)`). It can also be the
  fetch-until-false loop of the demo program (`Drain`).
- The C# overloads of `Run` and `Then` are one method each, with default
  parameter values. `Run(query, mode)` is `s.Run(query, mode := m)`.

What the code does, and the model with it:

- The operation cache is cleared only when `ExecuteAsync` ends normally.
  After an exception it keeps the batch, and the next call runs it again.
- `Mode` is never reset.
- A second `Run` keeps the operations queued before it.
- A handler that throws leaves its cursor unconsumed.
- `Commit` is inside the `try`, so a failing `Commit` leads to a rollback.
- An exception thrown by `RollBack` replaces the original exception.
- `AccessMode` has five values, the last being the `NumSessionQueryModes`
  sentinel.

## Model

| member | source | states |
|---|---|---|
| `Sessions.Session.constructor` | API_Improvements/Session.cs:68-70 | a new session has an empty cache, mode `Simple` and no transaction |
| `Sessions.Session.Run` | API_Improvements/Session.cs:76-105 | all three overloads: the mode becomes the argument (default `Simple`); exactly one operation is appended at the end with omitted parameters and handler null; earlier entries and the transaction are unchanged; the same session is returned |
| `Sessions.Session.Then` | API_Improvements/Session.cs:112-134 | all three overloads: exactly one operation is appended at the end; mode, earlier entries and transaction unchanged; the same session is returned |
| `SessionProperties.BuildQueuesInOrder` | API_Improvements/Session.cs:93-134 | any chain of Run/Then calls keeps what was queued before and appends its operations in call order; the mode is the last Run's, so a second Run re-sets the mode of the whole batch without dropping queued operations |
| `Sessions.Session.ExecuteAsync` | API_Improvements/Session.cs:136-161 | the events and the outcome are those of `Execution` on the old mode and cache; the mode is kept; the cache is cleared exactly when the call ends normally and is otherwise left as it was; `Tx` becomes the new transaction only if Begin succeeded |
| `Sessions.Session.ProcessCachedOperations` | API_Improvements/Session.cs:163-177 | the loop's events and outcome are those of `ProcessFrom` on the whole cache |
| `Sessions.Session.ProcessOperation` | API_Improvements/Session.cs:168-175 | one loop body: RunAsync, the handler on the new cursor if any, then Consume; on an exception the events stop there, otherwise the later operations follow |
| `Sessions.InvokeHandler` | API_Improvements/Session.cs:170-173 | a handler ends as it is described to end, having made its fetches on the cursor |
| `SessionProperties.ProcessFromBlocks` | API_Improvements/Session.cs:163-177 | the operations before the first failing one are each run, handled if they have a handler, and consumed, in cache order; the failing one stops after its run or its handler; nothing after it runs; the loop throws exactly the failing operation's exception |
| `SessionProperties.ExecutionAfterBegin` | API_Improvements/Session.cs:141-155 | after a successful Begin, a failing operation goes to the catch; otherwise Commit is called if open, and a Commit exception goes to the catch too |
| `SessionProperties.BeginsExactlyOnce` | API_Improvements/Session.cs:141-189 | every call builds exactly one transaction with the session's mode (BeginTransaction, Session.cs:184-189) and calls Begin on it once, before any other event; if Begin throws nothing else happens (no run, no rollback) and Begin's exception is passed on |
| `SessionProperties.ExecutionOrder` | API_Improvements/Session.cs:141-177 | after Begin the events are the operation blocks in cache order (run, handler, consume), so each handler finishes before the next operation runs; only Commit and RollBack follow them |
| `SessionProperties.RunsFollowCacheOrder` | API_Improvements/Session.cs:165-168 | the run calls are exactly one per operation up to and including the first failing one, in cache order, each with that operation's own query and parameters |
| `SessionProperties.HandlersAndConsumes` | API_Improvements/Session.cs:168-175 | a handler is called iff its operation has one, its run succeeded and no earlier operation failed; a cursor is consumed iff its operation completed, so a throwing handler's cursor is not consumed, while an operation without a handler is still consumed |
| `SessionProperties.SuccessCommitsIffOpen` | API_Improvements/Session.cs:144-147 | the call ends normally iff Begin and every operation succeed and Commit succeeds whenever the transaction is open; then Commit was called iff it was open after the operations, and RollBack was never called |
| `SessionProperties.FailureRollsBackIffOpen` | API_Improvements/Session.cs:149-154 | after an operation or Commit throws, RollBack is called iff the transaction is open at the catch; the original exception is rethrown unless RollBack itself threw; Commit appears only if it was the call that threw |
| `SessionProperties.StubCommitsOrRollsBack` | API_Improvements/Stubs/Transaction.cs:26-56 | with the stub transaction a batch commits iff no handler throws; otherwise it rolls back, never commits and passes on the first failing handler's exception |
| `Transactions.StubTransaction` | API_Improvements/Stubs/Transaction.cs:19-57 | Begin, Commit and RollBack complete without failing, both RunAsync overloads succeed whatever the query and parameters, and IsOpen answers true whatever happened before |
| `Transactions.StubIgnoresMode` | API_Improvements/Stubs/Transaction.cs:21-24 | the constructor's mode makes no difference to any call |
| `Results.Record.constructor` | API_Improvements/Stubs/Result.cs:18-21 | the record holds its argument as contents |
| `Results.ResultCursor.constructor` | API_Improvements/Stubs/Result.cs:36-39 | a new cursor's counter is 0 |
| `Results.ResultCursor.FetchAsync` | API_Improvements/Stubs/Result.cs:41-45 | answers whether the counter was below 3 and increments it on every call, including calls that answer false |
| `Results.ResultCursor.Current` | API_Improvements/Stubs/Result.cs:47-50 | returns a new record whose contents is the decimal text of the counter, which reads back as the counter; the counter is unchanged |
| `Results.ResultCursor.Consume` | API_Improvements/Stubs/Result.cs:52-55 | changes nothing, so the counter and every later FetchAsync answer stay as they were |
| `Results.FetchRepliesExact` | API_Improvements/Stubs/Result.cs:41-45 | the k-th of n successive fetches answers true iff the starting counter plus k is below 3; from a new cursor exactly the first three calls answer true |
| `Results.FetchTimes` | API_Improvements/Stubs/Result.cs:41-45 | n successive fetches return exactly those answers and advance the counter by n |
| `Results.Decimal` | API_Improvements/Stubs/Result.cs:49 | the text of a count is a non-empty run of decimal digits without a leading zero, one digit long exactly for counts below 10 |
| `Results.DecimalRoundTrip` | API_Improvements/Stubs/Result.cs:49 | reading the text back gives the count |
| `Results.DrainRecords` | API_Improvements/Program.cs:70-78 | the fetch-until-false handler reads the decimal text of each counter value reached while fetches answer true, and makes one more fetch that answers false |
| `Results.FreshCursorRecords` | API_Improvements/Stubs/Result.cs:41-50 | draining a new cursor reads the records "1", "2" and "3" |

## Left out

- `TaskExtension.Execute` (Session.cs:22-29) blocks on `Task.Result` and
  then awaits `ExecuteAsync`. It adds nothing beyond `ExecuteAsync`.
- Retry logic: it exists only as comments.
- Access-mode routing and endpoint selection: the code has no resolver, and
  the stub constructor ignores the mode.
- `Task`, `async` and `ConfigureAwait` scheduling. Nothing runs
  concurrently, so each await is a sequential step.
- The contents of parameter objects and the bodies of caller lambdas. Both
  are opaque: a handler is only its number of fetches and its outcome, or
  the drain loop.
- 32-bit overflow of the cursor counter after about 2^31 fetches. The
  counter is an unbounded `nat`.
- The `IRecord`, `IResultCursor` and `ITransaction` interfaces as types.
  Interfaces are not modelled as types. The transaction's behaviour is a
  datatype value, and the cursor is the stub class.
- A handler that calls back into the session while the batch runs. In C#,
  changing the cache during the `foreach` makes the enumerator throw. Such a
  handler cannot be expressed in the model.
- An `IsOpen` implementation that throws. The model's `IsOpen` always
  answers.
- Sessions.Session.ProcessCachedOperations: the contract does not describe
  the cursor objects the loop allocates. Nothing outside the loop can reach
  them.
- Program.cs beyond its drain handler: it is demo code that uses a `Driver`
  class not in the repository and writes to the console.
