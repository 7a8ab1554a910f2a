/** Concrete runs of the controller, one per documented behaviour.  Each
    builds a fresh controller (data `int` or `string`, errors and cancel
    callbacks named by strings), plays one interleaving of events and states
    what the caller observes. */
module Scenarios {
  import opened InvocationLog
  import opened CancellableAsyncState

  /** Defaults, an operation that resolves to 42, initial state 0: loading at
      once after construction, ready with 42 after it resolves. */
  method ResolveAfterImmediateStart()
    returns (loadingBefore: bool, stateBefore: int, loadingAfter: bool, readyAfter: bool, stateAfter: int, returned: int)
    ensures loadingBefore && stateBefore == 0
    ensures !loadingAfter && readyAfter && stateAfter == 42 && returned == 42
  {
    var c := new AsyncState<int, string, string>(0, false, DefaultOptions);
    loadingBefore, stateBefore := c.isLoading, c.state;
    returned := c.Succeed(1, 42);
    loadingAfter, readyAfter, stateAfter := c.isLoading, c.isReady, c.state;
  }

  /** Two back-to-back `execute` calls, the first of which registered cancel
      callback "X": "X" is forwarded exactly once, when the second call starts;
      only the second result lands, and the first call's promise returns it. */
  method SupersededInvocationIsCancelled()
    returns (finalState: int, latestReturned: int, staleReturned: int, ghost calls: seq<Call<int, string, string>>)
    ensures finalState == 2 && latestReturned == 2 && staleReturned == 2
    ensures calls == [ExecuteCalled(1, 0), ExecuteCalled(2, 0), CancelCalled(1, "X"), OnSuccessCalled(2, 2)]
  {
    var c := new AsyncState<int, string, string>(0, true, DefaultOptions.(immediate := false));
    var g1, w1 := c.ExecuteStart(None);
    c.Register(g1, "X");
    var g2, w2 := c.ExecuteStart(None);
    latestReturned := c.Succeed(g2, 2);
    staleReturned := c.Succeed(g1, 1);
    finalState := c.state;
    calls := c.log;
  }

  /** A rejection with `throwError` unset: `execute` resolves with the state,
      the error cell holds the error, `onError` is called once, loading ends. */
  method FailureIsCaptured()
    returns (outcome: Completion<int, string>, error: Option<string>, loading: bool, ghost calls: seq<Call<int, string, string>>)
    ensures outcome == Returned(0) && error == Some("boom") && !loading
    ensures calls == [ExecuteCalled(1, 0), OnErrorCalled(1, "boom")]
  {
    var c := new AsyncState<int, string, string>(0, false, DefaultOptions);
    outcome := c.Fail(1, "boom");
    error, loading := c.error, c.isLoading;
    calls := c.log;
  }

  /** The same rejection with `throwError` set: `execute` rejects, and the
      error cell and loading flag were already updated when it does. */
  method FailureIsRethrown()
    returns (outcome: Completion<int, string>, error: Option<string>, loading: bool)
    ensures outcome == Thrown("boom") && error == Some("boom") && !loading
  {
    var c := new AsyncState<int, string, string>(0, false, DefaultOptions.(throwError := true));
    outcome := c.Fail(1, "boom");
    error, loading := c.error, c.isLoading;
  }

  /** With `resetOnExecute` unset, a new `execute` leaves the previous value
      visible (but not ready) until its own result arrives. */
  method StateKeptWithoutReset()
    returns (whileLoading: string, readyWhileLoading: bool, afterwards: string)
    ensures whileLoading == "old" && !readyWhileLoading && afterwards == "new"
  {
    var c := new AsyncState<string, string, string>("", false, DefaultOptions.(resetOnExecute := false));
    var r1 := c.Succeed(1, "old");
    var g2, w2 := c.ExecuteStart(None);
    whileLoading, readyWhileLoading := c.state, c.isReady;
    var r2 := c.Succeed(g2, "new");
    afterwards := c.state;
  }

  /** A superseded success is dropped: no cell changes, `onSuccess` is not
      called, and its `execute` returns the state the newer call left. */
  method StaleSuccessIsDropped()
    returns (state: int, ready: bool, loading: bool, staleReturned: int, ghost calls: seq<Call<int, string, string>>)
    ensures state == 0 && !ready && loading && staleReturned == 0
    ensures calls == [ExecuteCalled(1, 0), ExecuteCalled(2, 0)]
  {
    var c := new AsyncState<int, string, string>(0, false, DefaultOptions);
    var g2, w2 := c.ExecuteStart(None);
    staleReturned := c.Succeed(1, 1);
    state, ready, loading := c.state, c.isReady, c.isLoading;
    calls := c.log;
  }

  /** A superseded failure is not dropped: after the newer call succeeded,
      the stale rejection still sets the error cell and calls `onError`, while
      `isReady` stays true. */
  method StaleFailureStillReported()
    returns (state: int, ready: bool, loading: bool, error: Option<string>, ghost calls: seq<Call<int, string, string>>)
    ensures state == 2 && ready && !loading && error == Some("late")
    ensures calls == [ExecuteCalled(1, 0), ExecuteCalled(2, 0), OnSuccessCalled(2, 2), OnErrorCalled(1, "late")]
  {
    var c := new AsyncState<int, string, string>(0, false, DefaultOptions);
    var g2, w2 := c.ExecuteStart(None);
    var r2 := c.Succeed(g2, 2);
    var outcome := c.Fail(1, "late");
    state, ready, loading, error := c.state, c.isReady, c.isLoading, c.error;
    calls := c.log;
  }

  /** A cancel action whose invocation has already finished still runs when
      the next `execute` starts, but does not forward to the user's callback;
      its transient `isLoading = false` is overwritten. */
  method FinishedInvocationIsNotCancelled()
    returns (loading: bool, slotEmpty: bool, ghost calls: seq<Call<int, string, string>>)
    ensures loading && slotEmpty
    ensures calls == [ExecuteCalled(1, 0), OnSuccessCalled(1, 5), ExecuteCalled(2, 0)]
  {
    var c := new AsyncState<int, string, string>(0, true, DefaultOptions);
    c.Register(1, "X");
    var r1 := c.Succeed(1, 5);
    var g2, w2 := c.ExecuteStart(None);
    loading, slotEmpty := c.isLoading, c.cleanup.None?;
    calls := c.log;
  }

  /** The slot is shared: invocation 1, started with a delay, reaches its
      factory only after invocation 2 has registered "X2", and registers "X1"
      over it.  The third `execute` then forwards "X1" only; "X2" is never
      called although invocation 2 was superseded unfinished. */
  method DelayedRegistrationDisplacesNewer()
    returns (firstWaits: bool, ghost calls: seq<Call<int, string, string>>)
    ensures firstWaits
    ensures calls == [ExecuteCalled(1, 100), ExecuteCalled(2, 0), ExecuteCalled(3, 0), CancelCalled(1, "X1")]
  {
    var c := new AsyncState<int, string, string>(0, true, DefaultOptions.(immediate := false));
    var g1, w1 := c.ExecuteStart(Some(100));
    var g2, w2 := c.ExecuteStart(None);
    c.Register(g2, "X2");
    c.Register(g1, "X1");
    var g3, w3 := c.ExecuteStart(None);
    firstWaits := w1;
    calls := c.log;
  }

  /** Only the immediate start uses the configured delay; an explicit
      `execute()` without an argument waits 0. */
  method ExplicitCallIgnoresConfiguredDelay()
    returns (explicitWaits: bool, gen: nat, ghost calls: seq<Call<int, string, string>>)
    ensures !explicitWaits && gen == 2
    ensures calls == [ExecuteCalled(1, 250), ExecuteCalled(2, 0)]
  {
    var c := new AsyncState<int, string, string>(0, false, DefaultOptions.(delay := 250));
    gen, explicitWaits := c.ExecuteStart(None);
    calls := c.log;
  }

  /** A factory that registers cancel callback "X" and then throws "boom":
      `execute` rejects although `throwError` is unset, the error cell stays
      undefined, `onError` is not called and loading never ends, so an `await`
      would not resolve.  The invocation never finished, so the next
      `execute` still forwards "X". */
  method ThrowingFactoryLeavesLoading()
    returns (outcome: Completion<int, string>, error: Option<string>, loading: bool, awaitNow: bool,
             ghost calls: seq<Call<int, string, string>>)
    ensures outcome == Thrown("boom") && error == None && loading && !awaitNow
    ensures calls == [ExecuteCalled(1, 0), ExecuteCalled(2, 0), CancelCalled(1, "X")]
  {
    var c := new AsyncState<int, string, string>(0, true, DefaultOptions);
    c.Register(1, "X");
    outcome := c.FactoryThrows(1, "boom");
    error, loading := c.error, c.isLoading;
    awaitNow := c.AwaitResolvesImmediately();
    var g2, w2 := c.ExecuteStart(None);
    calls := c.log;
  }
}
