/**
 * `retry(operation, options)` of src/lib/retry.ts: call an operation up to
 * `maxAttempts` times, waiting `delay` (doubled after every failure when
 * `backoff` is set) between attempts, and give up at once on an abort or a
 * client error (HTTP status 400-499).
 *
 * The operation is given by the outcome of its n-th call (n = 1, 2, ...).
 * Calls to `onRetry` and to `sleep` are recorded in a trace instead of being
 * performed.
 */
module Retry {
  import opened Optional
  import opened JsErrors

  const DefaultDelay: int := 500
  const DefaultMaxAttempts: int := 3

  /** How one call of the operation ended. */
  datatype Outcome<T> = Returned(value: T) | Threw(error: Thrown)

  /** `RetryOptions`; a missing field is `None` (`undefined`) and takes the default. */
  datatype RetryOptions = RetryOptions(maxAttempts: Option<int>, delay: Option<int>, backoff: Option<bool>, hasOnRetry: bool)

  /** A side effect of `retry` between two calls. */
  datatype RetryEvent = OnRetry(attempt: nat, error: Thrown) | Sleep(ms: int)

  /** The outcome, how many times the operation was called, and the side effects in order. */
  datatype Run<T> = Run(outcome: Outcome<T>, calls: nat, trace: seq<RetryEvent>)

  /** `status ?? response?.status` of a thrown object: the status, or the response's when the status is missing. */
  function StatusOf(e: Thrown): Field
    requires e.Object?
  {
    if e.status.Absent? then e.responseStatus else e.status
  }

  /** `isClientError`: an object whose status is a number in [400, 500). */
  predicate IsClientError(e: Thrown) {
    e.Object? && StatusOf(e).Num? && 400 <= StatusOf(e).n < 500
  }

  /** `isAbortError`: an `Error` named "AbortError". */
  predicate IsAbortError(e: Thrown) {
    e.Object? && e.isError && e.name == "AbortError"
  }

  /** An error after which `retry` may try again. */
  predicate Retryable(e: Thrown) {
    !IsAbortError(e) && !IsClientError(e)
  }

  function Pow2(n: nat): (p: nat)
    ensures p >= 1
  {
    if n == 0 then 1 else 2 * Pow2(n - 1)
  }

  /** The wait after the failed attempt number `attempt` (counted from 1). */
  function WaitTime(delay: int, backoff: bool, attempt: nat): int
    requires attempt >= 1
  {
    if backoff then delay * Pow2(attempt - 1) else delay
  }

  function Exhausted(): Thrown {
    NewError("Retry attempts exhausted")
  }

  /**
   * What `retry` does once `attempt` calls have failed with retryable errors.
   * The result names the call whose outcome is returned: the first one that
   * returns, throws a non-retryable error, or is the last allowed.
   */
  function RunFrom<T>(operation: nat -> Outcome<T>, maxAttempts: int, delay: int, backoff: bool, hasOnRetry: bool, attempt: nat): Run<T>
    decreases maxAttempts - attempt
  {
    if maxAttempts <= attempt then Run(Threw(Exhausted()), 0, [])
    else
      var n := attempt + 1;
      match operation(n)
      case Returned(v) => Run(Returned(v), 1, [])
      case Threw(e) =>
        if IsAbortError(e) || IsClientError(e) || n >= maxAttempts then Run(Threw(e), 1, [])
        else
          var wait := WaitTime(delay, backoff, n);
          var rest := RunFrom(operation, maxAttempts, delay, backoff, hasOnRetry, n);
          Run(rest.outcome, rest.calls + 1,
            (if hasOnRetry then [OnRetry(n, e)] else []) + (if wait > 0 then [Sleep(wait)] else []) + rest.trace)
  }

  /** The options after the destructuring defaults. */
  function MaxAttemptsOf(o: RetryOptions): int { o.maxAttempts.GetOr(DefaultMaxAttempts) }
  function DelayOf(o: RetryOptions): int { o.delay.GetOr(DefaultDelay) }
  function BackoffOf(o: RetryOptions): bool { o.backoff.GetOr(false) }

  /** `retry(operation, options)` as a whole. */
  function Spec<T>(operation: nat -> Outcome<T>, options: RetryOptions): Run<T> {
    RunFrom(operation, MaxAttemptsOf(options), DelayOf(options), BackoffOf(options), options.hasOnRetry, 0)
  }

  /** The run after `done` retryable failures, with those failures' side effects in front. */
  function After<T>(done: nat, trace: seq<RetryEvent>, rest: Run<T>): Run<T> {
    Run(rest.outcome, done + rest.calls, trace + rest.trace)
  }

  /** One more retried failure: its side effects, then the rest of the run. */
  lemma RetriedStep<T>(operation: nat -> Outcome<T>, maxAttempts: int, delay: int, backoff: bool, hasOnRetry: bool,
                       done: nat, trace: seq<RetryEvent>)
    requires done + 1 < maxAttempts
    requires operation(done + 1).Threw? && Retryable(operation(done + 1).error)
    ensures After(done, trace, RunFrom(operation, maxAttempts, delay, backoff, hasOnRetry, done))
        == After(done + 1, trace + Pause(done + 1, operation(done + 1).error, hasOnRetry, delay, backoff),
                 RunFrom(operation, maxAttempts, delay, backoff, hasOnRetry, done + 1))
  {
  }

  /** The call that ends the run: it returned, or threw an error that is not retried. */
  lemma FinalStep<T>(operation: nat -> Outcome<T>, maxAttempts: int, delay: int, backoff: bool, hasOnRetry: bool,
                     done: nat, trace: seq<RetryEvent>)
    requires done < maxAttempts
    requires operation(done + 1).Returned?
      || !Retryable(operation(done + 1).error) || done + 1 >= maxAttempts
    ensures After(done, trace, RunFrom(operation, maxAttempts, delay, backoff, hasOnRetry, done))
      == Run(operation(done + 1), done + 1, trace)
  {
    assert trace + [] == trace;
  }

  /**
   * Between a retried failure and the next call: `onRetry` is told which call
   * failed and with what error, then the retry sleeps for the wait time, if any.
   */
  method BetweenAttempts(trace: seq<RetryEvent>, n: nat, error: Thrown, hasOnRetry: bool, delay: int, backoff: bool)
    returns (next: seq<RetryEvent>)
    requires n >= 1
    ensures next == trace + Pause(n, error, hasOnRetry, delay, backoff)
  {
    next := trace;
    ghost var notified := if hasOnRetry then [OnRetry(n, error)] else [];
    if hasOnRetry {
      next := next + [OnRetry(n, error)];
    }
    assert next == trace + notified;
    var waitTime := WaitTime(delay, backoff, n);
    if waitTime > 0 {
      next := next + [Sleep(waitTime)];
    }
  }

  /** `retry`: the loop of the source, proved to behave as `Spec`. */
  method RetryLoop<T>(operation: nat -> Outcome<T>, options: RetryOptions) returns (r: Run<T>)
    ensures r == Spec(operation, options)
  {
    var maxAttempts := options.maxAttempts.GetOr(DefaultMaxAttempts);
    var delay := options.delay.GetOr(DefaultDelay);
    var backoff := options.backoff.GetOr(false);
    var attempt: nat := 0;
    var trace: seq<RetryEvent> := [];
    assert After(0, [], RunFrom(operation, maxAttempts, delay, backoff, options.hasOnRetry, 0))
      == RunFrom(operation, maxAttempts, delay, backoff, options.hasOnRetry, 0);
    while attempt < maxAttempts
      invariant Spec(operation, options)
        == After(attempt, trace, RunFrom(operation, maxAttempts, delay, backoff, options.hasOnRetry, attempt))
      decreases maxAttempts - attempt
    {
      ghost var done := attempt;
      attempt := attempt + 1;
      var outcome := operation(attempt);
      match outcome {
        case Returned(v) =>
          FinalStep(operation, maxAttempts, delay, backoff, options.hasOnRetry, done, trace);
          return Run(Returned(v), attempt, trace);
        case Threw(error) =>
          if IsAbortError(error) || IsClientError(error) || attempt >= maxAttempts {
            FinalStep(operation, maxAttempts, delay, backoff, options.hasOnRetry, done, trace);
            return Run(Threw(error), attempt, trace);
          }
          RetriedStep(operation, maxAttempts, delay, backoff, options.hasOnRetry, done, trace);
          trace := BetweenAttempts(trace, attempt, error, options.hasOnRetry, delay, backoff);
      }
    }
    r := Run(Threw(Exhausted()), attempt, trace);
    assert trace + [] == trace;
  }

  // ---------------------------------------------------------------------
  // Properties
  // ---------------------------------------------------------------------

  /**
   * Which call ends a run: with no attempt left nothing is called and the
   * run throws "Retry attempts exhausted"; otherwise the outcome is that of
   * call `attempt + calls`, every call before it threw a retryable error, and
   * a thrown outcome is either not retryable or from the last allowed call.
   */
  lemma {:induction false} RunFromEnds<T>(operation: nat -> Outcome<T>, maxAttempts: int, delay: int, backoff: bool,
                                          hasOnRetry: bool, attempt: nat)
    ensures var r := RunFrom(operation, maxAttempts, delay, backoff, hasOnRetry, attempt);
      && (maxAttempts <= attempt ==> r == Run(Threw(Exhausted()), 0, []))
      && (attempt < maxAttempts ==> 1 <= r.calls <= maxAttempts - attempt && r.outcome == operation(attempt + r.calls))
      && (forall k :: attempt < k < attempt + r.calls ==> operation(k).Threw? && Retryable(operation(k).error))
      && (attempt < maxAttempts && r.outcome.Threw? ==> !Retryable(r.outcome.error) || attempt + r.calls == maxAttempts)
    decreases maxAttempts - attempt
  {
    var n := attempt + 1;
    if attempt < maxAttempts && operation(n).Threw? && Retryable(operation(n).error) && n < maxAttempts {
      RunFromEnds(operation, maxAttempts, delay, backoff, hasOnRetry, n);
      var rest := RunFrom(operation, maxAttempts, delay, backoff, hasOnRetry, n);
      var r := RunFrom(operation, maxAttempts, delay, backoff, hasOnRetry, attempt);
      assert r.calls == rest.calls + 1 && r.outcome == rest.outcome;
      forall k | attempt < k < attempt + r.calls
        ensures operation(k).Threw? && Retryable(operation(k).error)
      {
        if k > n {
          assert n < k < n + rest.calls;
        }
      }
    }
  }

  /** With at least one attempt allowed, `retry` returns or throws what its last call did. */
  lemma NeverExhaustedWithAttempts<T>(operation: nat -> Outcome<T>, options: RetryOptions)
    requires MaxAttemptsOf(options) >= 1
    ensures var r := Spec(operation, options);
      1 <= r.calls <= MaxAttemptsOf(options) && r.outcome == operation(r.calls)
  {
    RunFromEnds(operation, MaxAttemptsOf(options), DelayOf(options), BackoffOf(options), options.hasOnRetry, 0);
  }

  /** With no attempt allowed, the operation is never called and `retry` throws "Retry attempts exhausted". */
  lemma ExhaustedWithoutAttempts<T>(operation: nat -> Outcome<T>, options: RetryOptions)
    requires MaxAttemptsOf(options) <= 0
    ensures Spec(operation, options) == Run(Threw(Exhausted()), 0, [])
  {
  }

  /** An abort or a client error on the first call is thrown without a retry. */
  lemma NoRetryOnAbortOrClientError<T>(operation: nat -> Outcome<T>, options: RetryOptions)
    requires MaxAttemptsOf(options) >= 1
    requires operation(1).Threw? && !Retryable(operation(1).error)
    ensures Spec(operation, options) == Run(operation(1), 1, [])
  {
  }


  /**
   * What follows the failed call number `n` when it is retried: `onRetry(n,
   * error)` when the option is given, then a sleep of the wait time when it
   * is positive.
   */
  function Pause(n: nat, error: Thrown, hasOnRetry: bool, delay: int, backoff: bool): (r: seq<RetryEvent>)
    requires n >= 1
    ensures |r| <= 2
    ensures hasOnRetry <==> r != [] && r[0] == OnRetry(n, error)
    ensures WaitTime(delay, backoff, n) > 0 <==> r != [] && r[|r| - 1] == Sleep(WaitTime(delay, backoff, n))
  {
    var wait := WaitTime(delay, backoff, n);
    (if hasOnRetry then [OnRetry(n, error)] else []) + (if wait > 0 then [Sleep(wait)] else [])
  }

  /**
   * The side effects of a run that made the calls `attempt + 1` ..
   * `attempt + calls`: the pause after each of them but the last, in order.
   */
  function Schedule<T>(operation: nat -> Outcome<T>, hasOnRetry: bool, delay: int, backoff: bool, attempt: nat, calls: nat)
    : seq<RetryEvent>
    requires forall k :: attempt < k < attempt + calls ==> operation(k).Threw?
    decreases calls
  {
    if calls <= 1 then []
    else
      var pause := Pause(attempt + 1, operation(attempt + 1).error, hasOnRetry, delay, backoff);
      pause + Schedule(operation, hasOnRetry, delay, backoff, attempt + 1, calls - 1)
  }

  /**
   * The whole trace of a run: after each failed call `k` that is retried,
   * `onRetry(k, e_k)` (when given) and then its wait (when positive), and
   * nothing after the call that ends the run.
   */
  lemma {:induction false} WaitSchedule<T>(operation: nat -> Outcome<T>, maxAttempts: int, delay: int, backoff: bool,
                                           hasOnRetry: bool, attempt: nat)
    ensures var r := RunFrom(operation, maxAttempts, delay, backoff, hasOnRetry, attempt);
      && (forall k :: attempt < k < attempt + r.calls ==> operation(k).Threw?)
      && r.trace == Schedule(operation, hasOnRetry, delay, backoff, attempt, r.calls)
    decreases maxAttempts - attempt
  {
    RunFromEnds(operation, maxAttempts, delay, backoff, hasOnRetry, attempt);
    var n := attempt + 1;
    if attempt < maxAttempts && operation(n).Threw? && Retryable(operation(n).error) && n < maxAttempts {
      WaitSchedule(operation, maxAttempts, delay, backoff, hasOnRetry, n);
      var rest := RunFrom(operation, maxAttempts, delay, backoff, hasOnRetry, n);
      RunFromEnds(operation, maxAttempts, delay, backoff, hasOnRetry, n);
      assert rest.calls >= 1;
      assert RunFrom(operation, maxAttempts, delay, backoff, hasOnRetry, attempt)
        == Run(rest.outcome, rest.calls + 1, Pause(n, operation(n).error, hasOnRetry, delay, backoff) + rest.trace);
    }
  }

  /**
   * The chat window's settings (3 attempts, backoff, the default delay and an
   * `onRetry` callback): after three retryable failures the last error is
   * thrown; `onRetry` hears of the first two failures, each followed by its
   * wait of 500 and then 1000 ms.
   */
  lemma ChatSchedule<T>(operation: nat -> Outcome<T>)
    requires forall k :: 1 <= k <= 3 ==> operation(k).Threw? && Retryable(operation(k).error)
    ensures var r := Spec(operation, RetryOptions(Some(3), None, Some(true), true));
      && r.outcome == operation(3) && r.calls == 3
      && r.trace == [OnRetry(1, operation(1).error), Sleep(500), OnRetry(2, operation(2).error), Sleep(1000)]
  {
    assert operation(1).Threw? && operation(2).Threw? && operation(3).Threw?;
    var r2 := RunFrom(operation, 3, 500, true, true, 2);
    assert r2 == Run(operation(3), 1, []);
    assert Pow2(1) == 2;
    var r1 := RunFrom(operation, 3, 500, true, true, 1);
    assert r1 == Run(operation(3), 2, [OnRetry(2, operation(2).error), Sleep(1000)]);
  }
}
