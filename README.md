# Cancellable async state: a verified model of the invocation controller

This project models the invocation controller of `useCancellableAsyncState`
(`src/index.ts`). The controller wraps one asynchronous operation. It exposes
the operation's progress through four cells (`state`, `isReady`, `isLoading`,
`error`) and makes overlapping calls to `execute` safe:

- every `execute` takes a new generation from a counter;
- it fires the cancel action the operation registered in a shared one-item
  slot;
- an operation's final writes are gated on its generation still being the
  current one.

The source is single-threaded and cooperative, so the controller is a small
sequential state machine. `CancellableAsyncState.AsyncState` is a class with
the source's closure variables as fields:

- `counter`, `cleanup` (the slot), the four cells;
- `finished`: the set of generations whose private `hasFinished` flag is set.

Each suspension point of `execute` is an event method:

- `ExecuteStart`: the synchronous prefix, up to the optional delay;
- `Register`: the factory calling `onCancel`;
- `Succeed` / `Fail`: the awaited operation settling, the `finally`
  bookkeeping, and what `execute` returns or throws;
- `FactoryThrows`: the factory throwing synchronously. Its call (lines
  145-153) comes before the `try`, so `execute` rejects even without
  `throwError`, records no error, calls no `onError`, leaves `isLoading` set
  and never marks the invocation finished.

Any interleaving of overlapping invocations is a sequence of these calls. The
`onSuccess`, `onError` and user cancel callbacks are not run. They are
recorded, together with every `execute` call, in a ghost `log` of
`InvocationLog.Call` values.

The class invariant `Valid()` makes each cell a function of that history:

- `counter` is the number of `execute` calls;
- `isReady` holds exactly when `onSuccess` was called since the latest
  `execute`;
- `error` is the last error passed to `onError` since then;
- `state` is the last success since the latest `execute` when
  `resetOnExecute` is set, or the last success ever when it is not, and
  `initialState` when there is none;
- `isLoading` holds exactly while the latest invocation has not finished.

The history itself is `WellFormed`:

- `onSuccess` fires only for the current generation;
- `onError` fires for any started generation;
- a user cancel callback is forwarded only from inside a newer `execute`, to
  an older invocation that has not reported an outcome (that it has not
  finished at all, not even by a dropped stale success, is what
  `ExecuteStart` adds through the `finished` set);
- nothing is reported for an invocation after its outcome.

The lemmas in `InvocationLog` draw the consequences over whole histories.
`Scenarios` plays the documented behaviours on concrete values.

These behaviours of the code are preserved and proved:

- A superseded failure still sets `error` and calls `onError`, while a
  superseded success is dropped silently. So `error` can be set while
  `isReady` stays true from a newer success.
- A superseded `execute` returns whatever `state` holds when it settles, which
  may have been written by a newer invocation.
- The slot is shared, and the factory runs only after the delay. An older
  invocation can therefore register its cancel action over a newer one's. The
  next `execute` then forwards only the older callback, and the newer,
  unfinished invocation is never notified (`DelayedRegistrationDisplacesNewer`).
  The doc comment at `src/index.ts:89-94` promises the callback whenever a
  re-invocation comes before the previous one finished. The code gives that
  promise only when each factory registers before the next `execute` starts.

## Model

| member | source | states |
|---|---|---|
| `CancellableAsyncState.AsyncState.constructor` | src/index.ts:108-177 | The cells start as `initialState`, false, false and undefined, with the counter at 0 and the slot empty. With `immediate`, exactly one `execute` has started, with the configured delay: counter 1, loading, and the log holds only that call. Without it, nothing has started. Whether the immediate start suspends is not an output of the constructor; by `ExecuteStart`'s rule it suspends iff the configured delay, the one logged, is positive. |
| `CancellableAsyncState.AsyncState.ExecuteStart` | src/index.ts:131-143 | The counter grows by exactly one, and the returned generation is the new value. A pending cancel action runs and the slot ends empty. Its user callback is logged only if its invocation was unfinished. `state` is reset only with `resetOnExecute`. `error` is cleared, `isReady` is false, and `isLoading` ends true. A delay suspension follows iff the effective delay is positive; an absent argument means 0. The invariant is kept. |
| `CancellableAsyncState.AsyncState.BeginInvocation` | src/index.ts:132-135 | `counter++`: the captured generation is the new counter, and it is logged as the next `execute` call. |
| `CancellableAsyncState.AsyncState.RunCancelAction` | src/index.ts:146-151 | The stored action clears `isLoading` and empties the slot (lines 125-127). It forwards to the user callback exactly when its own invocation has not finished. |
| `CancellableAsyncState.AsyncState.ResetCells` | src/index.ts:138-141 | `state` becomes `initialState` only with `resetOnExecute`; `error` is undefined, `isReady` false and `isLoading` true. This re-establishes the full invariant. |
| `CancellableAsyncState.AsyncState.Register` | src/index.ts:124-129 | Any started invocation of a factory may register. The slot then holds that invocation's action, replacing any earlier one (last wins). Nothing else changes. |
| `CancellableAsyncState.AsyncState.Succeed` | src/index.ts:155-174 | Only when the generation equals the counter: `state := data`, `isReady`, `onSuccess` logged and `isLoading` cleared. A stale success changes no cell and logs nothing. Every invocation is marked finished. The result is the state cell after the bookkeeping. |
| `CancellableAsyncState.AsyncState.Fail` | src/index.ts:163-174 | Any generation sets `error` and logs `onError`. `state` and `isReady` are untouched. Only the current generation clears `isLoading`, and every invocation is marked finished. On this path, where the operation itself rejects, the outcome is the thrown error iff `throwError` is set, otherwise the state cell, both after the bookkeeping. A factory that throws synchronously is `FactoryThrows`. |
| `CancellableAsyncState.AsyncState.FactoryThrows` | src/index.ts:145-155 | A factory that throws before returning its promise makes `execute` reject with that error whatever `throwError` says. No cell, the counter, the slot, the `finished` set or the log changes, so `isLoading` stays set and a registered cancel action still forwards later. The invocation has exited and cannot settle afterwards. |
| `CancellableAsyncState.AsyncState.ReadyImpliesNotLoading` | src/index.ts:157-171 | After any sequence of events, a ready result means the current generation has finished, so it is not loading. |
| `CancellableAsyncState.AsyncState.AwaitResolvesImmediately` | src/index.ts:187-218 | When the returned object is awaited, its watcher decides to resolve at once (the first synchronous `isLoading` check) iff no invocation was ever started or the latest one has finished. The resolution itself still passes through the promise chain. |
| `InvocationLog.AdmissibleAt` | src/index.ts:131-175 | Each call in a well-formed history obeyed the rules when it was made. `execute` takes the next generation. `onSuccess` is only for the current one, `onError` for any started one, and a user cancel only right after a newer `execute`. None of these follows that invocation's own outcome. |
| `InvocationLog.GenerationOrderIsCallOrder` | src/index.ts:132-135 | A later `execute` call always carries a larger generation. |
| `InvocationLog.NothingAfterSettlement` | src/index.ts:150-171 | Once an invocation has reported its outcome, no later `onSuccess`, `onError` or user cancel call is made on its behalf. Each invocation reports at most once and is never cancelled after reporting. |
| `InvocationLog.CurrentSuccessIsSettled` | src/index.ts:157-169 | A success visible since the latest `execute` belongs to the current generation, which has therefore settled. |
| `Scenarios.ResolveAfterImmediateStart` | src/index.ts:131-177 | Defaults, operation resolving to 42, initial state 0: loading with state 0 right after construction, then ready with 42, not loading, and `execute` returns 42. |
| `Scenarios.SupersededInvocationIsCancelled` | src/index.ts:124-161 | Two back-to-back `execute` calls, the first of which registered "X". "X" is forwarded exactly once, when the second starts. Only the second result lands, and both calls return it. |
| `Scenarios.FailureIsCaptured` | src/index.ts:163-174 | A rejection with `"boom"` and `throwError` unset: `execute` resolves with the state, `error` is `"boom"`, `onError` is called once with it, and loading ends. |
| `Scenarios.FailureIsRethrown` | src/index.ts:163-172 | With `throwError`, `execute` rejects with `"boom"`. By then the error cell and the loading flag are already updated. |
| `Scenarios.StateKeptWithoutReset` | src/index.ts:138-158 | With `resetOnExecute` unset, the previous value `"old"` stays visible, not ready, until the new result `"new"` lands. |
| `Scenarios.StaleSuccessIsDropped` | src/index.ts:156-161 | A superseded success changes no cell, calls no `onSuccess`, and its `execute` returns the newer call's state. |
| `Scenarios.StaleFailureStillReported` | src/index.ts:163-169 | A superseded failure after a newer success still sets `error` and calls `onError`, while `isReady` stays true and loading stays off. |
| `Scenarios.FinishedInvocationIsNotCancelled` | src/index.ts:147-171 | A registered action whose invocation has finished still runs at the next `execute`, but it forwards nothing. The slot empties and `isLoading` ends true. |
| `Scenarios.DelayedRegistrationDisplacesNewer` | src/index.ts:124-152 | A delayed older invocation registers "X1" over the newer "X2". The next `execute` forwards only "X1". |
| `Scenarios.ThrowingFactoryLeavesLoading` | src/index.ts:124-155 | A factory registers "X" and throws "boom". `execute` rejects with "boom" although `throwError` is unset: the error cell stays undefined, nothing is logged, loading stays on, and an `await` would not resolve at once. The next `execute` still forwards "X". |
| `Scenarios.ExplicitCallIgnoresConfiguredDelay` | src/index.ts:131-177 | With a configured delay of 250, the immediate start uses it, while an explicit `execute()` waits 0. |

## Left out

- Timers (`promiseTimeout`, `setTimeout`, lines 9-20 and 143): the delay is only the `waits` result of `ExecuteStart`, an extra suspension with no effect on state. The unused `throwOnTimeout` branch is not modelled.
- Delays are integers; fractional or non-numeric delays are not modelled.
- Vue reactivity (`ref`, `shallowRef`, `watch`): the cells are plain fields. `shallow` only changes how deeply `state` is observed, so it is not an option here.
- `waitUntilIsLoaded` and the `then` wrapper (lines 187-218): only "awaiting resolves at once iff `isLoading` is false" is modelled, as `AwaitResolvesImmediately`. The `watch` subscription and its teardown depend on Vue's `flush: 'sync'` and `immediate` semantics.
- User callbacks are assumed to return normally and not to call `execute` again. A throwing `onSuccess` would be routed through the `catch` (lines 155-166); that path is not modelled.
- The promise left unawaited by the immediate start (line 177): unhandled rejections are a runtime concern.
- The `...args` forwarded to the factory have no effect on the controller, so they are not modelled.
- A ready-made promise (not a factory) is shared by every invocation, so all of them see the same outcome. The model lets each invocation's outcome be chosen independently, a superset of the real behaviours.
- Timing: the model lets an invocation register or settle at any point after it starts, including during its delay. This too is a superset of the interleavings the delay allows.
- The counter is a JavaScript number (lines 122 and 132). Past 2^53 `counter++` stops changing it, and generations can no longer be told apart. The model's counter is an unbounded natural number, so it does not capture that.
- An operation that rejects with `undefined` leaves the error cell undefined (line 164), which looks the same as a cleared cell (line 139). The model writes `Some(e)` and keeps the two apart, so it treats the error type as excluding `undefined`.
- Transient cell values inside one event are not observable in the model. A pending `await`'s synchronous watcher (lines 191-203) sees the moment `isLoading` is false while a fired cancel action runs (line 148), so it resumes while the newer invocation is loading. `onSuccess` (line 160) runs while `isReady` and `isLoading` are both true, because loading is cleared only at line 169. `ReadyImpliesNotLoading` and the other invariants hold between events only.
- TypeScript generics and return types (lines 22-94), and the lint and build configuration files: no logic.
