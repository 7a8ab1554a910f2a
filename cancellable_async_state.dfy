/** The invocation controller of `useCancellableAsyncState`.

    One object wraps one asynchronous operation.  Each suspension point of the
    source's `execute` is an event method of its own, so that any interleaving
    of overlapping invocations is a sequence of method calls:
      - `ExecuteStart`: the synchronous prefix of `execute`, up to the optional delay;
      - `Register`: the operation factory calling its `onCancel` hook;
      - `Succeed` / `Fail`: the awaited operation resolving or rejecting, followed
        by the `finally` bookkeeping and the value `execute` returns;
      - `FactoryThrows`: the factory throwing synchronously, before the `try`,
        so that `execute` rejects with no bookkeeping at all.
    The `onSuccess`, `onError` and user cancel callbacks are recorded in the
    ghost `log` instead of being run.
 */
module CancellableAsyncState {
  import opened InvocationLog

  /** The configuration options that change the controller's behaviour
      (`onSuccess` and `onError` are the log; `shallow` only changes how deeply
      the state cell is observed). */
  datatype Options = Options(immediate: bool, delay: int, resetOnExecute: bool, throwError: bool)

  /** `immediate = true`, `delay = 0`, `resetOnExecute = true`, `throwError` unset. */
  const DefaultOptions: Options := Options(true, 0, true, false)

  /** The wrapped cancel action in the shared `cleanup` slot: it belongs to
      invocation `owner` and forwards to the user's `callback`. */
  datatype Cleanup<C> = Cleanup(owner: nat, callback: C)

  /** How the promise returned by `execute` settles. */
  datatype Completion<D, E> = Returned(data: D) | Thrown(error: E)

  /** The delay an explicit `execute` call waits: its argument, which defaults to 0. */
  function EffectiveDelay(delay: Option<int>): int {
    delay.GetOr(0)
  }

  /** The user cancel call made when the pending cancel action `slot` fires:
      it forwards to the user's callback only if its invocation is unfinished. */
  function Forwarded<D, E, C>(slot: Option<Cleanup<C>>, finished: set<nat>): seq<Call<D, E, C>> {
    match slot
    case Some(Cleanup(owner, callback)) => if owner in finished then [] else [CancelCalled(owner, callback)]
    case None => []
  }

  class AsyncState<D, E, C> {
    const initialState: D
    /** Whether the operation source is a factory (which receives `onCancel`)
        rather than a ready-made promise. */
    const isFactory: bool
    const options: Options

    var counter: nat
    var cleanup: Option<Cleanup<C>>
    var state: D
    var isReady: bool
    var isLoading: bool
    var error: Option<E>
    /** The generations whose private `hasFinished` flag is set. */
    var finished: set<nat>
    /** The invocations whose `execute` has returned or thrown: each exits once. */
    ghost var exited: set<nat>
    /** Every `execute`, `onSuccess`, `onError` and user cancel call so far. */
    ghost var log: seq<Call<D, E, C>>

    /** The controller's invariant: the counter counts the `execute` calls,
        every cell is determined by the history of callbacks, and `isLoading`
        holds exactly while the latest invocation has not finished. */
    ghost predicate Valid()
      reads this
    {
      && WellFormed(log)
      && counter == CountExecutes(log)
      && (forall g :: g in finished ==> 1 <= g <= counter)
      && SettledWithin(log, finished)
      && finished <= exited
      && (cleanup.Some? ==> 1 <= cleanup.value.owner <= counter)
      && isLoading == (counter != 0 && counter !in finished)
      && isReady == CurrentSuccess(log).Some?
      && error == CurrentError(log)
      && state == (if options.resetOnExecute then CurrentSuccess(log) else LastSuccess(log)).GetOr(initialState)
    }

    /** Construction: the cells start from `initialState`, false, false and
        undefined with the counter at 0; with `immediate` one `execute` is
        started at once with the configured delay. */
    constructor (initialState: D, isFactory: bool, options: Options)
      ensures Valid()
      ensures this.initialState == initialState && this.isFactory == isFactory && this.options == options
      ensures state == initialState && !isReady && error == None
      ensures cleanup == None && finished == {} && exited == {}
      ensures options.immediate ==> counter == 1 && isLoading && log == [ExecuteCalled(1, options.delay)]
      ensures !options.immediate ==> counter == 0 && !isLoading && log == []
    {
      this.initialState := initialState;
      this.isFactory := isFactory;
      this.options := options;
      counter := 0;
      cleanup := None;
      state := initialState;
      isReady := false;
      isLoading := false;
      error := None;
      finished := {};
      exited := {};
      log := [];
      new;
      if options.immediate {
        var gen, waits := ExecuteStart(Some(options.delay));
      }
    }

    /** The synchronous prefix of `execute(delay)`: bump the counter, fire and
        clear the pending cancel action, reset the cells.  Returns the captured
        generation and whether a delay suspension follows. */
    method ExecuteStart(delay: Option<int>) returns (gen: nat, waits: bool)
      requires Valid()
      modifies this
      ensures Valid()
      ensures counter == old(counter) + 1 && gen == counter
      ensures waits <==> EffectiveDelay(delay) > 0
      ensures cleanup == None && finished == old(finished) && exited == old(exited)
      ensures state == (if options.resetOnExecute then initialState else old(state))
      ensures error == None && !isReady && isLoading
      ensures log == old(log) + [ExecuteCalled(gen, EffectiveDelay(delay))] + Forwarded(old(cleanup), old(finished))
    {
      var d := EffectiveDelay(delay);
      gen := BeginInvocation(d);
      if cleanup.Some? {
        RunCancelAction();
      }
      ResetCells();
      waits := d > 0;
    }

    /** `counter++`: the new value is the generation this invocation captures. */
    method BeginInvocation(delay: int) returns (gen: nat)
      requires Valid()
      modifies this`counter, this`log
      ensures counter == old(counter) + 1 && gen == counter
      ensures log == old(log) + [ExecuteCalled(gen, delay)]
      ensures WellFormed(log) && counter == CountExecutes(log) && SettledWithin(log, finished)
      ensures CurrentSuccess(log) == None && CurrentError(log) == None && LastSuccess(log) == LastSuccess(old(log))
      ensures forall g :: g in finished ==> 1 <= g < counter
      ensures cleanup.Some? ==> 1 <= cleanup.value.owner < counter
      ensures !options.resetOnExecute ==> state == LastSuccess(log).GetOr(initialState)
    {
      counter := counter + 1;
      gen := counter;
      ghost var calls := log + [ExecuteCalled(gen, delay)];
      AppendExecute(log, finished, gen, delay, calls);
      log := calls;
    }

    /** The action stored in the `cleanup` slot, run by a newer `execute` right
        after it has bumped the counter: it clears `isLoading`, forwards to the
        user's cancel callback only if its invocation has not finished, and
        empties the slot. */
    method RunCancelAction()
      requires cleanup.Some? && 1 <= cleanup.value.owner < CountExecutes(log)
      requires WellFormed(log) && SettledWithin(log, finished) && log != [] && Last(log).ExecuteCalled?
      modifies this`isLoading, this`cleanup, this`log
      ensures cleanup == None && !isLoading
      ensures log == old(log) + Forwarded(old(cleanup), finished)
      ensures WellFormed(log) && SettledWithin(log, finished) && CountExecutes(log) == CountExecutes(old(log))
      ensures CurrentSuccess(log) == None && CurrentError(log) == None && LastSuccess(log) == LastSuccess(old(log))
    {
      var c := cleanup.value;
      isLoading := false;
      if c.owner !in finished {
        ghost var forwarded := log + [CancelCalled(c.owner, c.callback)];
        AppendCancel(log, finished, c.owner, c.callback, forwarded);
        log := forwarded;
      }
      cleanup := None;
    }

    /** Lines that end the synchronous prefix: optionally reset the state, clear
        the error, and mark the new invocation as loading and not ready. */
    method ResetCells()
      requires WellFormed(log) && counter == CountExecutes(log) && SettledWithin(log, finished)
      requires counter != 0 && (forall g :: g in finished ==> 1 <= g < counter) && cleanup == None
      requires finished <= exited
      requires CurrentSuccess(log) == None && CurrentError(log) == None
      requires !options.resetOnExecute ==> state == LastSuccess(log).GetOr(initialState)
      modifies this`state, this`error, this`isReady, this`isLoading
      ensures Valid()
      ensures state == (if options.resetOnExecute then initialState else old(state))
      ensures error == None && !isReady && isLoading
    {
      if options.resetOnExecute {
        state := initialState;
      }
      error := None;
      isReady := false;
      isLoading := true;
    }

    /** The factory of invocation `gen` calling `onCancel(callback)`: the shared
        slot now holds that invocation's wrapped action, replacing any earlier
        one, whichever invocation registered it. */
    method Register(gen: nat, callback: C)
      requires Valid()
      requires isFactory && 1 <= gen <= counter
      modifies this
      ensures Valid()
      ensures cleanup == Some(Cleanup(gen, callback))
      ensures counter == old(counter) && state == old(state) && isReady == old(isReady)
      ensures isLoading == old(isLoading) && error == old(error) && finished == old(finished)
      ensures exited == old(exited) && log == old(log)
    {
      cleanup := Some(Cleanup(gen, callback));
    }

    /** The operation of invocation `gen` resolving with `data`.  Only the
        current generation writes the cells and calls `onSuccess`; every
        invocation marks itself finished.  Returns the state cell as it is then. */
    method Succeed(gen: nat, data: D) returns (r: D)
      requires Valid()
      requires 1 <= gen <= counter && gen !in exited
      modifies this
      ensures Valid()
      ensures finished == old(finished) + {gen} && exited == old(exited) + {gen}
      ensures counter == old(counter) && cleanup == old(cleanup) && error == old(error)
      ensures gen == old(counter) ==>
                state == data && isReady && !isLoading && log == old(log) + [OnSuccessCalled(gen, data)]
      ensures gen != old(counter) ==>
                state == old(state) && isReady == old(isReady) && isLoading == old(isLoading) && log == old(log)
      ensures r == state
    {
      if gen == counter {
        state := data;
        isReady := true;
        ghost var reported := log + [OnSuccessCalled(gen, data)];
        AppendSuccess(log, finished, gen, data, reported);
        log := reported;
      }
      if gen == counter {
        isLoading := false;
      }
      finished := finished + {gen};
      exited := exited + {gen};
      r := state;
    }

    /** The operation of invocation `gen` rejecting with `e`.  Every invocation,
        current or not, sets the error cell and calls `onError`; only the current
        one clears `isLoading`.  The failure is re-thrown after the bookkeeping
        when `throwError` is set; otherwise the state cell is returned. */
    method Fail(gen: nat, e: E) returns (outcome: Completion<D, E>)
      requires Valid()
      requires 1 <= gen <= counter && gen !in exited
      modifies this
      ensures Valid()
      ensures finished == old(finished) + {gen} && exited == old(exited) + {gen}
      ensures counter == old(counter) && cleanup == old(cleanup)
      ensures state == old(state) && isReady == old(isReady)
      ensures error == Some(e) && log == old(log) + [OnErrorCalled(gen, e)]
      ensures isLoading == (if gen == old(counter) then false else old(isLoading))
      ensures outcome == if options.throwError then Thrown(e) else Returned(state)
    {
      error := Some(e);
      ghost var reported := log + [OnErrorCalled(gen, e)];
      AppendError(log, finished, gen, e, reported);
      log := reported;
      if gen == counter {
        isLoading := false;
      }
      finished := finished + {gen};
      exited := exited + {gen};
      if options.throwError {
        outcome := Thrown(e);
      } else {
        outcome := Returned(state);
      }
    }

    /** The factory of invocation `gen` throwing `e` synchronously.  The call
        sits before the `try`, so neither the `catch` nor the `finally` runs:
        `execute` rejects with `e` whatever `throwError` says, no error is
        recorded, `onError` is not called, `isLoading` is not cleared and the
        invocation never counts as finished, so a cancel action it registered
        still forwards to the user's callback. */
    method FactoryThrows(gen: nat, e: E) returns (outcome: Completion<D, E>)
      requires Valid()
      requires isFactory && 1 <= gen <= counter && gen !in exited
      modifies this`exited
      ensures Valid()
      ensures outcome == Thrown(e) && exited == old(exited) + {gen}
      ensures counter == old(counter) && cleanup == old(cleanup) && state == old(state) && isReady == old(isReady)
      ensures isLoading == old(isLoading) && error == old(error) && finished == old(finished)
      ensures log == old(log)
    {
      exited := exited + {gen};
      outcome := Thrown(e);
    }

    /** A ready result is never still loading. */
    lemma ReadyImpliesNotLoading()
      requires Valid()
      ensures isReady ==> !isLoading && 1 <= counter && counter in finished
    {
      if isReady {
        CurrentSuccessIsSettled(log);
      }
    }

    /** Awaiting the returned object resolves without suspending exactly when
        no invocation is in flight: none was ever started, or the latest one
        has finished. */
    function AwaitResolvesImmediately(): (r: bool)
      reads this
      requires Valid()
      ensures r <==> counter == 0 || counter in finished
    {
      !isLoading
    }
  }
}
