# dc: lazily created, mockable singletons

Package dc (core.go) holds dependencies for an application. A **provider** wraps a factory. It calls the factory on the first `Use`, caches the value, and returns the cached value on every later `Use`. Before the first `Use`, a test may `Mock` the provider with a value of its own, and from then on `Use` returns that value. A provider whose factory is already running when `Use` is called again detects the cycle and fails. Every provider is recorded in a package-wide **registry**, and `Reset` returns all of them to their empty state, so the next `Use` calls the factory again.

The model has three modules:

- `Lifecycle` (lifecycle.dfy) is the state machine of one provider, on values. Its state is `State(instance, mock, isPending)`, where `Option` replaces each `has*` flag together with its value. Its four phases are Empty, Pending, Mocked and Instantiated. `Use` is split at the factory call into `BeginUse` and `CompleteUse`. A factory that calls back into its own provider is a sequence of steps (`Op`, `Run`) between the two halves. Go's two panics are error values: `CircularDependency` and `AlreadyInitialized`.
- `Dc` (dc.dfy) holds the objects: `Factory` (the factory closure with its own call counter), `Provider` (fields updated in place by `BeginUse`, `CompleteUse`, `Use`, `Mock` and `Reset`) and `Registry` (the `providers` slice, with `Provider` to create and register and `Reset` to reset all). Each method's postcondition equates the new state and the result with the matching `Lifecycle` step of the old state.
- `DcTests` (dc_tests.dfy) runs the scenarios of core_test.go against those objects, and one more scenario for `Mock` (core.go:57-64) that no test covers. The postconditions state what each test checks and, in places, more than that; for example, the circular-dependency scenario also states that a later `Use` fails too, and that after a reset `Use` reaches the factory again, whose nested `Use` fails again.

Two behaviours of core.go a caller may not expect:

- **isPending is not released on failure.** In core.go:40-42 `isPending` is set and cleared with no `defer`. So a factory that panics, including one whose nested `Use` panicked with the circular-dependency error, leaves the provider pending. After that, every `Use` fails until `reset` runs or a `Mock` is set. `PendingSticks`, `CircularUses` and `DcTests.PanicsOnCircularDependency` state this.
- **A mock and an instance can both be set.** If a factory calls `Mock` on its own provider while it runs, `Mock` passes, because there is no instance yet. The factory's result is then stored as well. `MockDuringFactory` exhibits this, and `Use` then returns the mock.

## Model

| member | source | states |
|---|---|---|
| Lifecycle.Initial | core.go:19-25 | a new provider is in phase Empty: no instance, no mock, not pending |
| Lifecycle.BeginUse | core.go:30-40 | the factory is asked for exactly in phase Empty, which then becomes Pending; the call fails exactly in phase Pending, with CircularDependency; Mocked returns the mock and Instantiated the instance, both without changing the state |
| Lifecycle.CompleteUse | core.go:41-46 | after the factory returns v, the instance is v, nothing is pending and the mock is untouched, so the phase is Instantiated (or still Mocked) |
| Lifecycle.Use | core.go:30-47 | the factory runs once exactly in phase Empty and its value is cached and returned; Mocked returns the mock and Instantiated the cache, with no factory call and no state change; Pending fails with CircularDependency and changes nothing |
| Lifecycle.Mock | core.go:57-64 | fails with AlreadyInitialized exactly when an instance exists, and then changes nothing; otherwise only the mock is set and the phase becomes Mocked |
| Lifecycle.Reset | core.go:49-55 | from any state, including a stuck pending one: no instance, no mock, not pending (phase Empty) |
| Lifecycle.Apply | core.go:30-64 | every step (begin, completion, mock, reset) keeps the invariant "pending implies no instance" |
| Lifecycle.MemoisedUses | core.go:39-46 | with no mock and nothing pending, n >= 1 calls of Use run the factory once if there was no instance and never otherwise, and all return the same value |
| Lifecycle.MockedUses | core.go:31-33 | while a mock is set, any number of Use calls return the mock, run no factory and leave the state unchanged |
| Lifecycle.CircularUses | core.go:35-37 | while pending with no mock, any number of Use calls fail with CircularDependency, run no factory and leave the state unchanged |
| Lifecycle.ResetRestoresLaziness | core.go:49-55 | after reset, whatever the earlier state, the next Use runs the factory once more, and later calls reuse that value |
| Lifecycle.MockAfterUseRejected | core.go:58-60 | once a Use from Empty or Instantiated has produced an instance, Mock fails with AlreadyInitialized and the instance is kept |
| Lifecycle.LastMockWins | core.go:62-63 | repeated Mock calls before instantiation all succeed; the last value is the mock, and instance and isPending are unchanged |
| Lifecycle.RunKeepsConsistent | core.go:39-44 | every sequence of steps keeps "pending implies no instance" |
| Lifecycle.PendingSticks | core.go:40-42 | once a factory call has begun, further Use and Mock calls leave isPending set and the instance absent; only the completion of the call or reset clears it |
| Lifecycle.MockDuringFactory | core.go:41-43 | a factory that mocks its own provider before returning leaves both a mock and an instance set, and Use then returns the mock |
| Dc.Factory.Call | core.go:41 | the k-th call of the factory returns produce(k - 1) and adds one to the count of calls |
| Dc.Provider.constructor | core.go:19-25 | the new provider holds the given factory and is in the initial state |
| Dc.Provider.BeginUse | core.go:31-40 | the new fields and the entry returned are those of Lifecycle.BeginUse on the old fields |
| Dc.Provider.CompleteUse | core.go:41-46 | the new fields are those of Lifecycle.CompleteUse, and the value returned is the factory's |
| Dc.Provider.Use | core.go:30-47 | the new fields, the factory's new call count and the result are those of Lifecycle.Use on the old fields and count |
| Dc.Provider.Mock | core.go:57-64 | the new fields and the outcome are those of Lifecycle.Mock on the old fields |
| Dc.Provider.Reset | core.go:49-55 | the new fields are those of Lifecycle.Reset |
| Dc.Registry.constructor | core.go:16 | a new registry is empty |
| Dc.Registry.Provider | core.go:18-28 | returns a fresh provider in the initial state holding the given factory, and appends exactly it to the registry |
| Dc.Registry.Reset | core.go:66-70 | the registry sequence is unchanged and every registered provider is back in the initial state |
| DcTests.CreatesInstanceWithFactory | core_test.go:19-28 | the first Use returns the factory's value |
| DcTests.ReturnsMockWhenSet | core_test.go:61-71 | after Mock, Use returns the mock and the factory never runs |
| DcTests.CreatesInstanceOnlyOnce | core_test.go:73-88 | three Use calls run the factory once |
| DcTests.PanicsOnCircularDependency | core_test.go:90-107 | the outer Use reaches its factory, and a Use nested inside that factory fails with CircularDependency; so does a later Use, since the outer call never completed; after the registry is reset the provider is no longer stuck: Use reaches the factory again, whose nested Use fails again; the factory never completes a run |
| DcTests.RegistersDescriptor | core_test.go:113-126 | creating one provider registers exactly one |
| DcTests.CallsFactoryAfterReset | core_test.go:132-159 | a counting factory gives 1, then 1 from the cache, then 2 after a registry reset; the factory ran twice |
| DcTests.MockBeforeAndAfterUse | core.go:57-64 | Mock may be repeated before the first Use (last value returned); after a Use, Mock fails with AlreadyInitialized and Use still returns the real instance |

## Left out

- Dc.Registry.Reset: the loop resets the providers in registration order, as core.go:67-69 does, but the contract states only the final state. Each `reset` touches only its own provider, so the order cannot be observed in that state.
- Dc.Registry: one registry holds providers of a single value type `T`. Go erases `T` behind the `providerAbstract` interface (core.go:3-5). A program mixing provider types corresponds to `T` being the sum of those types, because `reset` never looks at the value.
- Dc.Provider.Use: covers only factories that do not call back into their own provider. A factory that does is modelled as `BeginUse`, the nested calls, then `CompleteUse` (as in `DcTests.PanicsOnCircularDependency`), and as `Lifecycle.Op` sequences for `Lifecycle.Run`.
- Panics and stack unwinding: the two panics (core.go:36, core.go:59) are error results. A factory that panics is a `BeginUse` that never reaches its `CompleteUse`. A panic raised inside a user factory is not otherwise represented.
- Factory bodies and values: `T` is an opaque type parameter. The function-typed `T` of core_test.go:29-59 behaves like any other value.
- Go's zero value `*new(T)` (core.go:21, core.go:50, core.go:52) is `None`. A cleared field's old value is not kept.
- Concurrency: there is no synchronisation in the code, and the model is sequential.
- The test helper `resetGlobalState` (core_test.go:12-14) replaces the package-wide slice. Here each client creates its own `Registry` instead.
