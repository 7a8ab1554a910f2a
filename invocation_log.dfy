/** The observable history of one cancellable async state: every `execute` call,
    every `onSuccess` and `onError` callback and every forwarded user cancel
    callback, in the order they happen.  The functions below read the cells
    (`state`, `isReady`, `error`) and the generation counter back from such a
    history; the lemmas state what a well-formed history guarantees.
 */
module InvocationLog {

  datatype Option<T> = None | Some(value: T)
  {
    function GetOr(default: T): T {
      match this
      case Some(v) => v
      case None => default
    }
  }

  /** One observable call.  `gen` is the generation of the invocation on whose
      behalf the call happens. */
  datatype Call<D, E, C> =
    | ExecuteCalled(gen: nat, delay: int)
    | OnSuccessCalled(gen: nat, data: D)
    | OnErrorCalled(gen: nat, error: E)
    | CancelCalled(gen: nat, callback: C)
  {
    /** The call that reports the outcome of an invocation. */
    predicate IsSettlement() {
      OnSuccessCalled? || OnErrorCalled?
    }
  }

  function Init<T>(s: seq<T>): seq<T>
    requires s != []
  {
    s[..|s| - 1]
  }

  function Last<T>(s: seq<T>): T
    requires s != []
  {
    s[|s| - 1]
  }

  /** The number of `execute` calls in the history: the generation counter. */
  function CountExecutes<D, E, C>(log: seq<Call<D, E, C>>): nat {
    if log == [] then 0
    else CountExecutes(Init(log)) + (if Last(log).ExecuteCalled? then 1 else 0)
  }

  /** Whether invocation `g` has reported an outcome through a callback. */
  predicate SettledIn<D, E, C>(log: seq<Call<D, E, C>>, g: nat) {
    log != [] && ((Last(log).IsSettlement() && Last(log).gen == g) || SettledIn(Init(log), g))
  }

  /** Every invocation that has reported an outcome is among `finished`. */
  ghost predicate SettledWithin<D, E, C>(log: seq<Call<D, E, C>>, finished: set<nat>) {
    forall g :: SettledIn(log, g) ==> g in finished
  }

  /** The value passed to `onSuccess` since the latest `execute` call, if any. */
  function CurrentSuccess<D, E, C>(log: seq<Call<D, E, C>>): Option<D> {
    if log == [] then None
    else match Last(log)
      case ExecuteCalled(_, _) => None
      case OnSuccessCalled(_, v) => Some(v)
      case _ => CurrentSuccess(Init(log))
  }

  /** The error passed to `onError` most recently since the latest `execute` call, if any. */
  function CurrentError<D, E, C>(log: seq<Call<D, E, C>>): Option<E> {
    if log == [] then None
    else match Last(log)
      case ExecuteCalled(_, _) => None
      case OnErrorCalled(_, e) => Some(e)
      case _ => CurrentError(Init(log))
  }

  /** The value passed to `onSuccess` most recently in the whole history, if any. */
  function LastSuccess<D, E, C>(log: seq<Call<D, E, C>>): Option<D> {
    if log == [] then None
    else match Last(log)
      case OnSuccessCalled(_, v) => Some(v)
      case _ => LastSuccess(Init(log))
  }

  /** The rules a call must obey given the history before it:
      - `execute` takes the next generation;
      - `onSuccess` is only called for the current generation;
      - `onError` may be called for any generation started so far;
      - a user cancel callback is only forwarded synchronously inside a newer
        `execute`, to an older generation;
      - and none of the last three happens for an invocation that has already
        reported its outcome. */
  predicate Admissible<D, E, C>(prefix: seq<Call<D, E, C>>, c: Call<D, E, C>) {
    var n := CountExecutes(prefix);
    match c
    case ExecuteCalled(g, _) => g == n + 1
    case OnSuccessCalled(g, _) => 1 <= g == n && !SettledIn(prefix, g)
    case OnErrorCalled(g, _) => 1 <= g <= n && !SettledIn(prefix, g)
    case CancelCalled(g, _) =>
      prefix != [] && Last(prefix).ExecuteCalled? && 1 <= g < n && !SettledIn(prefix, g)
  }

  /** Every call of the history is admissible after the calls before it. */
  predicate WellFormed<D, E, C>(log: seq<Call<D, E, C>>) {
    log == [] || (WellFormed(Init(log)) && Admissible(Init(log), Last(log)))
  }

  lemma InitOfSnoc<T>(s: seq<T>, x: T)
    ensures Init(s + [x]) == s && Last(s + [x]) == x
  {
    assert (s + [x])[..|s|] == s;
  }

  lemma PrefixInit<T>(s: seq<T>, i: nat)
    requires i < |s| - 1
    ensures Init(s)[..i] == s[..i] && Init(s)[i] == s[i]
  {
  }

  /** Appending an admissible `execute` call: the counter advances and the
      current success and error are forgotten. */
  lemma AppendExecute<D, E, C>(log: seq<Call<D, E, C>>, fin: set<nat>, g: nat, d: int, ext: seq<Call<D, E, C>>)
    requires ext == log + [ExecuteCalled(g, d)]
    requires WellFormed(log) && SettledWithin(log, fin) && g == CountExecutes(log) + 1
    ensures
      && WellFormed(ext) && CountExecutes(ext) == g
      && CurrentSuccess(ext) == None && CurrentError(ext) == None
      && LastSuccess(ext) == LastSuccess(log)
      && SettledWithin(ext, fin)
  {
    InitOfSnoc(log, ExecuteCalled(g, d));
  }

  /** Appending a user cancel call right after an `execute` call. */
  lemma AppendCancel<D, E, C>(log: seq<Call<D, E, C>>, fin: set<nat>, g: nat, cb: C, ext: seq<Call<D, E, C>>)
    requires ext == log + [CancelCalled(g, cb)]
    requires WellFormed(log) && SettledWithin(log, fin) && log != [] && Last(log).ExecuteCalled?
    requires 1 <= g < CountExecutes(log) && !SettledIn(log, g)
    ensures
      && WellFormed(ext) && CountExecutes(ext) == CountExecutes(log)
      && CurrentSuccess(ext) == None && CurrentError(ext) == None
      && LastSuccess(ext) == LastSuccess(log)
      && SettledWithin(ext, fin)
  {
    InitOfSnoc(log, CancelCalled(g, cb));
  }

  /** Appending an `onSuccess` call of the current generation. */
  lemma AppendSuccess<D, E, C>(log: seq<Call<D, E, C>>, fin: set<nat>, g: nat, v: D, ext: seq<Call<D, E, C>>)
    requires ext == log + [OnSuccessCalled(g, v)]
    requires WellFormed(log) && SettledWithin(log, fin) && 1 <= g == CountExecutes(log) && !SettledIn(log, g)
    ensures
      && WellFormed(ext) && CountExecutes(ext) == CountExecutes(log)
      && CurrentSuccess(ext) == Some(v) && CurrentError(ext) == CurrentError(log)
      && LastSuccess(ext) == Some(v)
      && SettledWithin(ext, fin + {g})
  {
    InitOfSnoc(log, OnSuccessCalled(g, v));
  }

  /** Appending an `onError` call of any started generation. */
  lemma AppendError<D, E, C>(log: seq<Call<D, E, C>>, fin: set<nat>, g: nat, e: E, ext: seq<Call<D, E, C>>)
    requires ext == log + [OnErrorCalled(g, e)]
    requires WellFormed(log) && SettledWithin(log, fin) && 1 <= g <= CountExecutes(log) && !SettledIn(log, g)
    ensures
      && WellFormed(ext) && CountExecutes(ext) == CountExecutes(log)
      && CurrentSuccess(ext) == CurrentSuccess(log) && CurrentError(ext) == Some(e)
      && LastSuccess(ext) == LastSuccess(log)
      && SettledWithin(ext, fin + {g})
  {
    InitOfSnoc(log, OnErrorCalled(g, e));
  }

  /** Each call in a well-formed history was admissible when it was made. */
  lemma {:induction false} AdmissibleAt<D, E, C>(log: seq<Call<D, E, C>>, i: nat)
    requires WellFormed(log) && i < |log|
    ensures Admissible(log[..i], log[i])
  {
    if i < |log| - 1 {
      AdmissibleAt(Init(log), i);
      PrefixInit(log, i);
    }
  }

  /** Counting executes over a one-longer prefix adds one exactly for an `execute` call. */
  lemma CountExecutesStep<D, E, C>(log: seq<Call<D, E, C>>, i: nat)
    requires i < |log|
    ensures CountExecutes(log[..i + 1]) == CountExecutes(log[..i]) + (if log[i].ExecuteCalled? then 1 else 0)
  {
    assert Init(log[..i + 1]) == log[..i];
  }

  lemma {:induction false} CountExecutesMonotone<D, E, C>(log: seq<Call<D, E, C>>, i: nat, j: nat)
    requires i <= j <= |log|
    ensures CountExecutes(log[..i]) <= CountExecutes(log[..j])
    decreases j - i
  {
    if i < j {
      CountExecutesStep(log, i);
      CountExecutesMonotone(log, i + 1, j);
    }
  }

  /** Generations are handed out in call order: a later `execute` call always
      carries a larger generation. */
  lemma GenerationOrderIsCallOrder<D, E, C>(log: seq<Call<D, E, C>>, i: nat, j: nat)
    requires WellFormed(log) && i < j < |log|
    requires log[i].ExecuteCalled? && log[j].ExecuteCalled?
    ensures log[i].gen < log[j].gen
  {
    AdmissibleAt(log, i);
    AdmissibleAt(log, j);
    CountExecutesStep(log, i);
    CountExecutesMonotone(log, i + 1, j);
  }

  /** A settlement at position k is visible in every longer prefix. */
  lemma {:induction false} SettledInPrefix<D, E, C>(log: seq<Call<D, E, C>>, k: nat, j: nat)
    requires k < j <= |log| && log[k].IsSettlement()
    ensures SettledIn(log[..j], log[k].gen)
    decreases j
  {
    assert Last(log[..j]) == log[j - 1];
    if k < j - 1 {
      assert Init(log[..j]) == log[..j - 1];
      SettledInPrefix(log, k, j - 1);
    }
  }

  /** Once an invocation has reported its outcome through `onSuccess` or
      `onError`, no later callback (success, error or user cancel) is ever made
      on its behalf. */
  lemma NothingAfterSettlement<D, E, C>(log: seq<Call<D, E, C>>, i: nat, j: nat)
    requires WellFormed(log) && i < j < |log|
    requires log[i].IsSettlement() && !log[j].ExecuteCalled?
    ensures log[j].gen != log[i].gen
  {
    AdmissibleAt(log, j);
    SettledInPrefix(log, i, j);
  }

  /** A success seen since the latest `execute` was reported by the current
      generation, whose outcome is therefore settled. */
  lemma {:induction false} CurrentSuccessIsSettled<D, E, C>(log: seq<Call<D, E, C>>)
    requires WellFormed(log) && CurrentSuccess(log).Some?
    ensures CountExecutes(log) >= 1 && SettledIn(log, CountExecutes(log))
  {
    match Last(log)
    case OnSuccessCalled(_, _) =>
    case OnErrorCalled(_, _) => CurrentSuccessIsSettled(Init(log));
    case CancelCalled(_, _) => assert false;
  }
}
