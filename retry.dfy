/**
 * The bounded retry loop with exponential backoff that wraps the call to the
 * generative-language endpoint (`fetchWithRetry` in src/App.jsx).
 *
 * The network is abstract: the i-th call to `fetch` yields the i-th element of
 * a sequence of outcomes, and every `setTimeout` pause is recorded as its
 * delay in milliseconds.
 */
module Retry {

  /** What one attempt yields: `response.ok` with the parsed body, a response
      that is not ok, or a rejection (of `fetch` or of `response.json()`). */
  datatype Outcome<B, E> = Ok(body: B) | NotOk | Throw(err: E)

  /** How `fetchWithRetry` settles: it returns a body, rethrows the error of an
      attempt, or throws its own generic error. */
  datatype Completion<B, E> = Returned(body: B) | Rethrown(err: E) | Failed(message: string)

  /** A whole invocation: how it settled, how many times `fetch` was called and
      the delays of the pauses taken, in order. */
  datatype Run<B, E> = Run(result: Completion<B, E>, calls: nat, pauses: seq<nat>)

  const INITIAL_DELAY: nat := 1000
  const DEFAULT_MAX_RETRIES: int := 5
  const CONNECTIVITY_FAILED: string := "AI Connectivity Failed."

  function Pow2(k: nat): nat {
    if k == 0 then 1 else 2 * Pow2(k - 1)
  }

  /** The delay of the k-th pause (0-indexed). */
  function Backoff(k: nat): nat {
    INITIAL_DELAY * Pow2(k)
  }

  /** Each pause lasts twice as long as the one before. */
  lemma BackoffDoubles(k: nat)
    ensures Backoff(k) * 2 == Backoff(k + 1)
  {
  }

  /** The first k pauses of the backoff schedule. */
  function Schedule(k: nat): (r: seq<nat>)
    ensures |r| == k
    ensures forall j :: 0 <= j < k ==> r[j] == Backoff(j)
  {
    if k == 0 then [] else Schedule(k - 1) + [Backoff(k - 1)]
  }

  /** The number of iterations the loop is allowed: `maxRetries`, or none when
      it is not positive. */
  function Attempts(maxRetries: int): nat {
    if maxRetries <= 0 then 0 else maxRetries
  }

  /** The loop of `fetchWithRetry` from iteration i on, where `delay` is the
      current value of the delay variable and `pauses` the pauses taken so far. */
  function Retrying<B, E>(outcomes: seq<Outcome<B, E>>, maxRetries: int, i: nat, delay: nat, pauses: seq<nat>): Run<B, E>
    requires maxRetries <= |outcomes|
    decreases maxRetries - i
  {
    if maxRetries <= i then Run(Failed(CONNECTIVITY_FAILED), i, pauses)
    else match outcomes[i]
      case Ok(body) => Run(Returned(body), i + 1, pauses)
      case Throw(err) =>
        if i == maxRetries - 1 then Run(Rethrown(err), i + 1, pauses)
        else Retrying(outcomes, maxRetries, i + 1, delay * 2, pauses + [delay])
      case NotOk => Retrying(outcomes, maxRetries, i + 1, delay * 2, pauses + [delay])
  }

  /** A whole invocation of `fetchWithRetry`. */
  function FetchRun<B, E>(outcomes: seq<Outcome<B, E>>, maxRetries: int): Run<B, E>
    requires maxRetries <= |outcomes|
  {
    Retrying(outcomes, maxRetries, 0, INITIAL_DELAY, [])
  }

  /** `fetchWithRetry(url, options, maxRetries)` against the scripted network. */
  method FetchWithRetry<B, E>(outcomes: seq<Outcome<B, E>>, maxRetries: int)
    returns (result: Completion<B, E>, calls: nat, pauses: seq<nat>)
    requires maxRetries <= |outcomes|
    ensures Run(result, calls, pauses) == FetchRun(outcomes, maxRetries)
  {
    var delay: nat := INITIAL_DELAY;
    calls, pauses := 0, [];
    var i: nat := 0;
    while i < maxRetries
      invariant calls == i
      invariant Retrying(outcomes, maxRetries, i, delay, pauses) == FetchRun(outcomes, maxRetries)
      decreases maxRetries - i
    {
      var response := outcomes[i];
      calls := calls + 1;
      if response.Ok? {
        return Returned(response.body), calls, pauses;
      } else if response.Throw? && i == maxRetries - 1 {
        return Rethrown(response.err), calls, pauses;
      }
      pauses := pauses + [delay];
      delay := delay * 2;
      i := i + 1;
    }
    result := Failed(CONNECTIVITY_FAILED);
  }

  /** What a run says about the outcomes it consumed. */
  ghost predicate Explains<B, E>(outcomes: seq<Outcome<B, E>>, maxRetries: int, r: Run<B, E>)
    requires maxRetries <= |outcomes|
  {
    && r.calls <= Attempts(maxRetries)
    && r.pauses == Schedule(|r.pauses|)
    && (forall j :: 0 <= j && j + 1 < r.calls ==> !outcomes[j].Ok?)
    && match r.result
       case Returned(body) =>
         0 < r.calls && outcomes[r.calls - 1] == Ok(body) && |r.pauses| == r.calls - 1
       case Rethrown(err) =>
         0 < maxRetries && r.calls == maxRetries && outcomes[maxRetries - 1] == Throw(err)
         && |r.pauses| == maxRetries - 1
       case Failed(message) =>
         message == CONNECTIVITY_FAILED && r.calls == Attempts(maxRetries) && |r.pauses| == r.calls
         && (forall j :: 0 <= j < r.calls ==> !outcomes[j].Ok?)
         && (0 < maxRetries ==> outcomes[maxRetries - 1].NotOk?)
  }

  /** A failed attempt before the last one pauses for the current backoff and
      doubles it: skipping a stretch of such attempts keeps the schedule. */
  lemma {:induction false} SkipFailures<B, E>(outcomes: seq<Outcome<B, E>>, maxRetries: int, k: nat, i: nat)
    requires maxRetries <= |outcomes|
    requires k <= i <= maxRetries
    requires forall j :: k <= j < i ==> !outcomes[j].Ok? && !(outcomes[j].Throw? && j == maxRetries - 1)
    ensures Retrying(outcomes, maxRetries, k, Backoff(k), Schedule(k))
         == Retrying(outcomes, maxRetries, i, Backoff(i), Schedule(i))
    decreases i - k
  {
    if k < i {
      BackoffDoubles(k);
      assert Schedule(k) + [Backoff(k)] == Schedule(k + 1);
      SkipFailures(outcomes, maxRetries, k + 1, i);
    }
  }

  lemma {:induction false} ExplainsFrom<B, E>(outcomes: seq<Outcome<B, E>>, maxRetries: int, k: nat)
    requires maxRetries <= |outcomes|
    requires k <= maxRetries || k == 0
    requires forall j :: 0 <= j < k ==> !outcomes[j].Ok? && !(outcomes[j].Throw? && j == maxRetries - 1)
    ensures Explains(outcomes, maxRetries, Retrying(outcomes, maxRetries, k, Backoff(k), Schedule(k)))
    decreases maxRetries - k
  {
    if k < maxRetries && !outcomes[k].Ok? && !(outcomes[k].Throw? && k == maxRetries - 1) {
      BackoffDoubles(k);
      assert Schedule(k) + [Backoff(k)] == Schedule(k + 1);
      ExplainsFrom(outcomes, maxRetries, k + 1);
    }
  }

  /** Every run of `fetchWithRetry`: at most `maxRetries` calls; the k-th pause
      lasts 1000·2^k ms; a returned body is the first ok response, with one
      pause per earlier attempt; a rethrown error is the last attempt's, with
      no pause after it; the generic error follows a non-ok last response, or
      no attempt at all, with a pause after every call. */
  lemma RunExplained<B, E>(outcomes: seq<Outcome<B, E>>, maxRetries: int)
    requires maxRetries <= |outcomes|
    ensures Explains(outcomes, maxRetries, FetchRun(outcomes, maxRetries))
  {
    ExplainsFrom(outcomes, maxRetries, 0);
  }

  /** The first ok response, at attempt i, is returned after i + 1 calls and
      i pauses, whatever the earlier attempts threw. */
  lemma FirstOkReturned<B, E>(outcomes: seq<Outcome<B, E>>, maxRetries: int, i: nat)
    requires maxRetries <= |outcomes|
    requires i < maxRetries && outcomes[i].Ok?
    requires forall j :: 0 <= j < i ==> !outcomes[j].Ok?
    ensures FetchRun(outcomes, maxRetries) == Run(Returned(outcomes[i].body), i + 1, Schedule(i))
  {
    SkipFailures(outcomes, maxRetries, 0, i);
  }

  /** An error thrown by the last attempt is rethrown unchanged, with no pause
      after it. */
  lemma LastThrowRethrown<B, E>(outcomes: seq<Outcome<B, E>>, maxRetries: int)
    requires 0 < maxRetries <= |outcomes|
    requires outcomes[maxRetries - 1].Throw?
    requires forall j :: 0 <= j < maxRetries - 1 ==> !outcomes[j].Ok?
    ensures FetchRun(outcomes, maxRetries)
         == Run(Rethrown(outcomes[maxRetries - 1].err), maxRetries, Schedule(maxRetries - 1))
  {
    SkipFailures(outcomes, maxRetries, 0, maxRetries - 1);
  }

  /** When no attempt is ok and the last one (if any) is not ok rather than
      thrown, every allowed call is made, each followed by a pause, and the
      generic error is thrown. With `maxRetries <= 0` that means no call. */
  lemma ExhaustedFails<B, E>(outcomes: seq<Outcome<B, E>>, maxRetries: int)
    requires maxRetries <= |outcomes|
    requires forall j :: 0 <= j < maxRetries ==> !outcomes[j].Ok?
    requires 0 < maxRetries ==> outcomes[maxRetries - 1].NotOk?
    ensures FetchRun(outcomes, maxRetries)
         == Run(Failed(CONNECTIVITY_FAILED), Attempts(maxRetries), Schedule(Attempts(maxRetries)))
  {
    if 0 < maxRetries {
      SkipFailures(outcomes, maxRetries, 0, maxRetries);
    }
  }

  /** Five non-ok responses under the default budget: five calls, and five
      pauses of 1, 2, 4, 8 and 16 seconds. */
  lemma EveryAttemptUnavailable<B, E>(outcomes: seq<Outcome<B, E>>)
    requires |outcomes| == DEFAULT_MAX_RETRIES
    requires forall j :: 0 <= j < |outcomes| ==> outcomes[j] == NotOk
    ensures FetchRun(outcomes, DEFAULT_MAX_RETRIES)
         == Run(Failed(CONNECTIVITY_FAILED), 5, [1000, 2000, 4000, 8000, 16000])
  {
  }
}
