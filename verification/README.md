# go-saga: the saga coordinator's log-driven state machine

This project models the core of a Go implementation of the Saga pattern. A saga is a long transaction split into sub-transactions, and each sub-transaction pairs a forward *action* with a reverse *compensation*. The saga writes every transition to an append-only log. When an action fails, the saga reads back its own log and compensates, newest first, every sub-transaction the log records as started.

The model has these parts:

- `MemoryStorage` (`memory_storage.dfy`) is the in-memory log store: a plain sequence behind the storage interface's five operations (`AppendLog`, `Lookup`, `Close`, `Cleanup`, `LastLog`). The store is an immutable value. Operations that change it return the new store beside their error result, where `None` stands for Go's nil. Operations that only read cannot modify it.
- `SagaLog` (`saga_log.dfy`) holds the log entry model and the derived views of a log:
  - the seven entry kinds;
  - entries that carry a sub-transaction id and parameters;
  - the steps a log records as started;
  - the records a forward run or a rollback writes.
- `Saga` (`saga.go` → `saga.dfy`) is the saga instance: `GetLogStorage`, `RecordSagaStart` (the source's `startSaga`), `ExecSub`, `EndSaga`, `Abort`, `Compensate` (`compensate`) and `IsReturnError` (`isReturnError`). `CompensateFrom` is Abort's backward walk over its snapshot. `Chain` is the fluent `ExecSub(...).ExecSub(...)` call chain.
  - The actions and compensations stand in for the reflective calls. Each is a total function from the recorded arguments and the world it acts on to the values it returned and the new world.
  - A `SagaState` holds the saga's log store, that world, and the list of calls made into sub-transaction code. That list is what lets the contracts state which compensation received which arguments.
  - A panic of the source is a `Failure` that carries the fault and the state at the moment of the panic.
- `SagaProperties` (`saga_properties.dfy`) holds the multi-step guarantees, each stated against reference definitions written apart from the step functions:
  - the exact records, calls and world an abort produces;
  - a forward run of successful steps;
  - the rollback of a failed step;
  - the happy path ending with an empty log.
- `GuardedSaga` (`guarded_saga.dfy`) holds the corrected step for the finding below.
- `TransferScenario` (`transfer_scenario.dfy`) holds the two transfer tests: accounts `foo` (200) and `bar` (0), and a transfer of 100 by `deduce` then `deposit`.

`Abort`'s doc comment (saga.go:123-125) says that an abort stops the sub-transactions that follow. Where the code does otherwise, the model follows the code:

- `ExecSub` has no "already aborted" guard. See Findings.
- `EndSaga` runs after an abort too, and it clears the log. The test for the failed deposit expects an empty log afterwards.
- A failing compensation triggers a fresh `Abort`. That Abort re-reads the whole log, so it compensates again every started sub-transaction, not only the ones still pending. The outer walk then goes on over its own snapshot.
- `compensate` always returns nil, so the panic on a compensation error in `Abort` cannot happen. `Compensate` therefore has no error result of its own; only panics propagate from it.

In Go, `Lookup` on the memory store returns the backing slice itself. Later appends only write past that slice's length, so Abort's snapshot cannot change under it. The model takes the snapshot as a value.

## Model

| member | source | states |
|---|---|---|
| MemoryStorage.NewMemStorage | storage/memory/memory.go:15-19 | a new store looks up no record, and `LastLog` on it reports the empty-store error |
| MemoryStorage.AppendLog | storage/memory/memory.go:22-25 | the store grows by exactly one record; every earlier record is unchanged; the new record is the last one; no error |
| MemoryStorage.Lookup | storage/memory/memory.go:28-30 | returns the store's records in order, with no error |
| MemoryStorage.LookupAfterAppends | storage/memory/memory_test.go:8-15 | records appended one at a time are looked up after the ones already there, in the order they were appended |
| MemoryStorage.Close | storage/memory/memory.go:33-35 | closing reports success |
| MemoryStorage.Cleanup | storage/memory/memory.go:37-40 | afterwards the store looks up nothing and `LastLog` reports it empty; no error |
| MemoryStorage.CleanupIdempotent | storage/memory/memory.go:37-40 | cleaning up twice is the same as cleaning up once |
| MemoryStorage.LastLog | storage/memory/memory.go:42-49 | fails exactly when the store is empty, with "LogData is empty"; otherwise returns the most recently appended record |
| Saga.IsReturnError | saga.go:185-190 | a call failed exactly when it returned one value and that value is non-nil; a call with no return value succeeded |
| Saga.SagaState.GetLog | saga.go:54-56 | the saga's log store, whose lookup yields exactly the saga's records |
| Saga.GetLogStorage | saga.go:31-38 | succeeds exactly for the memory kind, with an empty store; any other kind is the unsupported-provider fault |
| Saga.RecordSagaStart | saga.go:58-67 | the log grows by exactly one record, a `SagaStart`; earlier records, the world and the calls are unchanged |
| SagaProperties.FreshSaga | saga.go:58-67 | a saga started on a fresh memory store has the log `[SagaStart]` and has made no call |
| Saga.ExecSub | saga.go:71-105 | an unknown id panics with the state untouched and calls no action. A successful action appends exactly `ActionStart(id, args)` and `ActionEnd(id)` and calls the action once with `args`. A failing action appends `ActionStart(id, args)` and then whatever `Abort` produces, which holds only rollback records and never an `ActionEnd` |
| Saga.EndSaga | saga.go:108-121 | afterwards the log looks up nothing, on every path, an aborted saga included; the world and the calls are unchanged |
| Saga.Abort | saga.go:126-148 | with no fuel left it panics; on success the log is the old log, then `SagaAbort`, then only rollback records, and only compensation calls are added; if every started id is registered, it never panics for an unknown id |
| Saga.CompensateFrom | saga.go:139-147 | the walk over the snapshot only adds rollback records and compensation calls; if the snapshot's and the log's started ids are registered, it never panics for an unknown id |
| Saga.Compensate | saga.go:150-183 | records `CompensateStart` before looking the id up, so an unknown id panics after that record. A successful compensation appends exactly `CompensateStart(id)` and `CompensateEnd(id)` and is called with the parameters recorded on the `ActionStart` entry. `CompensateEnd` is the last record on every successful path, the nested-abort path included |
| Saga.CompensateBegins | saga.go:151-171 | on every successful path of `compensate`, the nested abort included, `CompensateStart(id)` is the first record added and the first call made is the compensation with the parameters recorded on the `ActionStart` entry |
| Saga.Chain | test/mem/saga_mem_test.go:35-39 | a chain of steps never removes or changes a record already in the log |
| SagaProperties.RollbackFrom | saga.go:139-147 | walking `snapshot[..i]` backwards, with compensations that succeed, compensates exactly its started sub-transactions, last started first. Each one adds its `CompensateStart`/`CompensateEnd` pair and one call with the parameters recorded for it |
| SagaProperties.AbortRollback | saga.go:126-148 | an abort appends `SagaAbort`, then one `CompensateStart`/`CompensateEnd` pair per `ActionStart` of the pre-abort log in reverse log order, and nothing else. Each compensation is called once with its recorded parameters, and the world is the result of those compensations in that order |
| SagaProperties.ExecSubExtendsForward | saga.go:73-104 | from a forward run, a successful step extends the run: the log gains that step's start and end records, and the calls gain its action |
| SagaProperties.ExecSubRollsBack | saga.go:73-93 | when every compensation succeeds: from a forward run, a failing step leaves the log as `SagaStart`, the run's records, the step's `ActionStart`, then `SagaAbort` and the compensation records of every step (the failed one included), newest first. Each compensation gets its step's own arguments |
| SagaProperties.ChainAllSucceed | saga.go:71-105 | a chain whose actions all succeed extends the forward run by exactly those steps, and the world is the actions' world |
| SagaProperties.HappyPath | saga.go:108-121 | a fully successful saga ends with an empty log, having called every action exactly once, in order, and no compensation |
| GuardedSaga.GuardedExecSub | saga.go:89-93 | corrected step: on a log that records an abort it does nothing; otherwise it is `ExecSub` |
| GuardedSaga.GuardedChainKeepsLog | test/mem/saga_mem_test.go:35-39 | the corrected chain of guarded steps never removes or changes a record already in the log |
| GuardedSaga.GuardedChainAfterAbort | saga.go:89-93 | once the log records an abort, a guarded chain changes nothing and calls nothing |
| GuardedSaga.FailedStepAborts | saga.go:89-93 | a step whose action fails and whose rollback succeeds leaves a log that records the abort |
| GuardedSaga.GuardedStopsAtFirstFailure | saga.go:71-105 | when every compensation succeeds, from a forward run: with the guard, a chain stops at its first failing action. The steps after it call nothing, and the calls are every action up to the failed one, then their compensations in reverse, with the original arguments |
| TransferScenario.Credit | test/mem/saga_mem_test.go:95 | on well-formed arguments the named account is present afterwards and its balance moves by the signed amount, a missing account counting as zero; every other account keeps its presence and its balance. Malformed arguments change nothing |
| TransferScenario.DeduceAccount | test/mem/saga_mem_test.go:91-97 | fails exactly in the deduce-failure mode, and then leaves the accounts unchanged; otherwise it debits the named account by the amount and changes no other account |
| TransferScenario.CompensateDeduce | test/mem/saga_mem_test.go:99-102 | always reports success, and credits the named account by the amount, changing no other account |
| TransferScenario.DepositAccount | test/mem/saga_mem_test.go:104-110 | fails exactly in the deposit-failure mode, and then leaves the accounts unchanged; otherwise it credits the named account by the amount and changes no other account |
| TransferScenario.CompensateDeposit | test/mem/saga_mem_test.go:112-115 | always reports success, and debits the named account by the amount, changing no other account |
| TransferScenario.CompensateDeduceUndoes | test/mem/saga_mem_test.go:91-102 | compensating a successful deduction restores every balance; when the account already existed, or the arguments are malformed, it restores the account table exactly |
| TransferScenario.CompensateDepositUndoes | test/mem/saga_mem_test.go:104-115 | compensating a successful deposit restores every balance; when the account already existed, or the arguments are malformed, it restores the account table exactly |
| TransferScenario.PTest1 | test/mem/saga_mem_test.go:117-119 | the callable returns no value, so it never reports an error, and it leaves the accounts unchanged |
| TransferScenario.Registry | test/mem/saga_mem_test.go:11-23 | registers exactly `deduce`, `deposit` and `test`, each with its action and its compensation |
| TransferScenario.RunTransfer | test/mem/saga_mem_test.go:25-39 | a transfer saga that completes leaves an empty log; with no steps it leaves the accounts as they were and calls nothing |
| TransferScenario.RegistryCompensationsSucceed | test/mem/saga_mem_test.go:11-23 | every compensation registered by the tests succeeds on every input |
| TransferScenario.NoReturnValueSucceeds | saga.go:185-190 | a sub-transaction whose action returns no value counts as a success: its `ExecSub` appends start and end records |
| TransferScenario.TransferAllSuccess | test/mem/saga_mem_test.go:25-48 | the all-success transfer leaves `foo` = 100 and `bar` = 100, an empty log after `EndSaga`, and each action called once, in order |
| TransferScenario.TransferDepositFails | test/mem/saga_mem_test.go:50-76 | the failed deposit leaves `foo` = 200 and `bar` = -100, because the deposit that never completed is still compensated. The log is empty after `EndSaga`. The calls are deduce, deposit, then compensate deposit, then compensate deduce |
| TransferScenario.AsWrittenRunsAfterAbort | saga.go:71-105 | as written, a third step after the failed deposit still runs its action after the rollback: `foo` ends at 150 and the last call is a forward action |
| TransferScenario.GuardedStopsAfterAbort | saga.go:89-93 | with the guard, the same three steps end with `foo` = 200 and `bar` = -100, and the third action is never called |

## Left out

- Timestamps (`time.Now()`) are not modelled. Order comes from position in the log.
- The global `Logger` and `init` are I/O.
- The `context.Context` is fixed for a saga's lifetime. It is folded into the action and compensation functions.
- Reflective invocation (`reflect.ValueOf`, `.Call`) is replaced by the total functions of `SubTxDef`. A callable's result is the list of values it returned (`RetValue`).
- `MarshalParam`, `UnmarshalParam`, `mustMarshal` and `mustUnmarshalLog` are not part of this model. Entries are stored as typed records, and parameters are stored verbatim. Encoding and then decoding is therefore the identity, and the contracts state that a compensation receives exactly the recorded arguments.
- `MustFindSubTxDef` and `AddSubTxDef` are not part of this model. The registry is a map, and a missing id is the `UnknownSubTx` panic. Registration, including its duplicate-id and signature checks, is not modelled.
- The coordinator's `StartSaga` is not part of this model; the tests call it (saga_mem_test.go:35, 61), but its body is not available. `SagaProperties.FreshSaga` and `TransferScenario.RunTransfer` assume it composes `GetLogStorage` with `startSaga`, building the store first and then recording `SagaStart`.
- The saga's `id` and `logID` fields are not modelled. The memory store does not use them.
- Panics on storage errors are not modelled. The memory store never reports an error, and the contracts of `AppendLog`, `Lookup` and `Cleanup` say so.
- The Kafka provider is not modelled. Any kind other than "memory" is the `UnsupportedProvider` fault.
- Saga.Abort: an abort nested `fuel` levels deep panics with `AbortDepthExhausted`. In the source, a compensation that keeps failing re-enters `Abort` without bound.
- SagaProperties.AbortRollback: the exact rollback shape is proved only when every registered compensation succeeds. With a failing compensation, only the weaker `Abort` and `Compensate` contracts apply.
- SagaProperties.ExecSubRollsBack: the rollback shape is proved only from a forward run and when every registered compensation succeeds. A failing compensation re-enters `Abort` (saga.go:169-171), which compensates every started step again, so the shape does not hold then.
- GuardedSaga.GuardedStopsAtFirstFailure: proved only from a forward run and when every registered compensation succeeds, for the same reason as `ExecSubRollsBack`.
- MemoryStorage.LastLog: the empty string the source returns beside the error is not modelled, because records are of a generic type.
- TransferScenario.Credit: malformed transfer arguments leave the accounts unchanged. In the source, reflection would panic on them.

## Findings

| source | as written | input that shows it | evidently intended | confidence | as-written member | corrected member |
|---|---|---|---|---|---|---|
| saga.go:71-105 | `ExecSub` runs its action even after an earlier step in the chain has aborted the saga. The later step runs forward after the rollback, and its effect is never compensated | in deposit-failure mode, the chain deduce(foo, 100), deposit(bar, 100), deduce(foo, 50): the rollback restores `foo` to 200, then the third deduction runs and leaves 150 | once a step has aborted the saga, later `ExecSub` calls in the chain do nothing | medium; not executed | TransferScenario.AsWrittenRunsAfterAbort | GuardedSaga.GuardedStopsAtFirstFailure |

The two transfer tests have only two steps. On them, the as-written chain and the guarded chain give the same result.
