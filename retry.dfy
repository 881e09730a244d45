/**
 * Exponential backoff, the bounded retry wrapper and the transient-error
 * classifier of the resilience layer (src/utils/retry.py).
 *
 * `random.uniform(0.5, 1.5)` becomes a jitter factor passed in per attempt,
 * `time.sleep` becomes a ghost trace of the delays slept (it raises
 * `ValueError` on a negative delay), and the wrapped function becomes a map
 * from attempt index to the outcome of that call.
 */
module Retry {
  import opened Optional
  import opened PyValue
  import Strings

  /** `x ** n` for a natural exponent. */
  function Pow(x: real, n: nat): real {
    if n == 0 then 1.0 else x * Pow(x, n - 1)
  }

  lemma {:induction false} PowAtLeastOne(x: real, n: nat)
    requires x >= 1.0
    ensures Pow(x, n) >= 1.0
  {
    if n > 0 {
      PowAtLeastOne(x, n - 1);
    }
  }

  lemma {:induction false} PowNonNegative(x: real, n: nat)
    requires x >= 0.0
    ensures Pow(x, n) >= 0.0
  {
    if n > 0 {
      PowNonNegative(x, n - 1);
    }
  }

  /** The uncapped delay `base_delay * multiplier ** attempt`. */
  function ExponentialDelay(attempt: nat, baseDelay: real, multiplier: real): real {
    baseDelay * Pow(multiplier, attempt)
  }

  /**
   * `calculate_backoff_delay`: the exponential delay capped at `max_delay`, then,
   * with jitter on, scaled by the factor `random.uniform(0.5, 1.5)` returned.
   */
  function BackoffDelay(attempt: nat, baseDelay: real, maxDelay: real, multiplier: real,
                        jitter: bool, jitterFactor: real): (r: real)
    ensures !jitter ==> r <= maxDelay && r <= ExponentialDelay(attempt, baseDelay, multiplier)
    ensures !jitter ==> (r == maxDelay || r == ExponentialDelay(attempt, baseDelay, multiplier))
    ensures jitter ==> r == jitterFactor * BackoffDelay(attempt, baseDelay, maxDelay, multiplier, false, jitterFactor)
  {
    var delay := ExponentialDelay(attempt, baseDelay, multiplier);
    var capped := if maxDelay < delay then maxDelay else delay;
    if jitter then capped * jitterFactor else capped
  }

  /** Without jitter and below the cap, the delay is the plain exponential one. */
  lemma BackoffBelowCap(attempt: nat, baseDelay: real, maxDelay: real, multiplier: real, f: real)
    requires ExponentialDelay(attempt, baseDelay, multiplier) <= maxDelay
    ensures BackoffDelay(attempt, baseDelay, maxDelay, multiplier, false, f)
         == ExponentialDelay(attempt, baseDelay, multiplier)
  {
  }

  /** The documented example: attempt 2 with the defaults and no jitter waits 4.0 seconds. */
  lemma BackoffExample(f: real)
    ensures BackoffDelay(2, 1.0, 60.0, 2.0, false, f) == 4.0
  {
    assert Pow(2.0, 2) == 4.0 by {
      assert Pow(2.0, 1) == 2.0;
    }
  }

  /** The first three delays with the defaults and no jitter are 1, 2 and 4 seconds. */
  lemma DefaultSchedule(f: real)
    ensures BackoffDelay(0, 1.0, 60.0, 2.0, false, f) == 1.0
    ensures BackoffDelay(1, 1.0, 60.0, 2.0, false, f) == 2.0
    ensures BackoffDelay(2, 1.0, 60.0, 2.0, false, f) == 4.0
  {
    BackoffExample(f);
  }

  /** With jitter on, the delay lies in [0.5, 1.5] times the capped delay. */
  lemma BackoffJitterBounds(attempt: nat, baseDelay: real, maxDelay: real, multiplier: real, f: real)
    requires 0.5 <= f <= 1.5
    requires baseDelay >= 0.0 && maxDelay >= 0.0 && multiplier >= 0.0
    ensures var capped := BackoffDelay(attempt, baseDelay, maxDelay, multiplier, false, f);
      0.0 <= capped
      && 0.5 * capped <= BackoffDelay(attempt, baseDelay, maxDelay, multiplier, true, f) <= 1.5 * capped
  {
    PowNonNegative(multiplier, attempt);
  }

  /** Jitter can take the delay above `max_delay`: attempt 6 capped at 60 seconds, factor 1.5, waits 90. */
  lemma JitterExceedsCap()
    ensures BackoffDelay(6, 1.0, 60.0, 2.0, true, 1.5) == 90.0
  {
    assert Pow(2.0, 2) == 4.0 by {
      assert Pow(2.0, 1) == 2.0;
    }
    assert Pow(2.0, 4) == 16.0 by {
      assert Pow(2.0, 3) == 8.0;
    }
    assert Pow(2.0, 6) == 64.0 by {
      assert Pow(2.0, 5) == 32.0;
    }
  }

  /** With `multiplier >= 1` the jitter-free delay never shrinks from one attempt to the next. */
  lemma BackoffMonotone(attempt: nat, baseDelay: real, maxDelay: real, multiplier: real, f: real)
    requires baseDelay >= 0.0 && multiplier >= 1.0
    ensures BackoffDelay(attempt, baseDelay, maxDelay, multiplier, false, f)
         <= BackoffDelay(attempt + 1, baseDelay, maxDelay, multiplier, false, f)
  {
    PowAtLeastOne(multiplier, attempt);
    assert Pow(multiplier, attempt + 1) == multiplier * Pow(multiplier, attempt);
    assert Pow(multiplier, attempt) <= Pow(multiplier, attempt + 1);
    assert ExponentialDelay(attempt, baseDelay, multiplier)
        <= ExponentialDelay(attempt + 1, baseDelay, multiplier);
  }

  /** The arguments of `retry_with_backoff` (the callback is passed separately). */
  datatype RetryConfig = RetryConfig(
    maxAttempts: int,
    baseDelay: real,
    maxDelay: real,
    multiplier: real,
    jitter: bool,
    exceptions: seq<Kind>)

  /** The decorator's defaults: 3 attempts, 1 s base, 60 s cap, doubling, jitter, `(Exception,)`. */
  function DefaultRetryConfig(): RetryConfig {
    RetryConfig(3, 1.0, 60.0, 2.0, true, [Exception])
  }

  /**
   * What one decorated call did: its outcome, how many times the wrapped
   * function ran, and the delays slept between attempts.
   */
  datatype RetryRun<T> = RetryRun(result: Outcome<T>, calls: nat, sleeps: seq<real>)

  /** The `on_retry` callback, if any: for each attempt index, the exception it raises, if any. */
  type Callback = Option<nat -> Option<Exc>>

  /** The exception that escapes the callback at `attempt`: only non-`Exception` classes escape. */
  function CallbackEscape(onRetry: Callback, attempt: nat): Option<Exc> {
    match onRetry
    case None => None
    case Some(cb) =>
      match cb(attempt)
      case Some(e) => if IsSubclass(e.kind, Exception) then None else Some(e)
      case None => None
  }

  /** What `time.sleep` raises for a negative delay. */
  function SleepError(): Exc {
    Error(ValueError, "sleep length must be non-negative")
  }

  /**
   * The wrapper's loop from iteration `attempt` on, given the exception kept in
   * `last_exception` and the delays slept so far.
   */
  function RetryFrom<T>(cfg: RetryConfig, name: string, op: nat -> Outcome<T>, jitterFactor: nat -> real,
                        onRetry: Callback, attempt: nat, last: Option<Exc>, sleeps: seq<real>): RetryRun<T>
    decreases if cfg.maxAttempts > attempt then cfg.maxAttempts - attempt else 0
  {
    if attempt >= cfg.maxAttempts then
      match last
      case Some(e) => RetryRun(Raised(e), attempt, sleeps)
      case None => RetryRun(Raised(Error(RuntimeError, name + " failed without exception")), attempt, sleeps)
    else
      match op(attempt)
      case Ok(v) => RetryRun(Ok(v), attempt + 1, sleeps)
      case Raised(e) =>
        if !IsInstanceAny(e.kind, cfg.exceptions) then RetryRun(Raised(e), attempt + 1, sleeps)
        else if attempt < cfg.maxAttempts - 1 then
          var delay := BackoffDelay(attempt, cfg.baseDelay, cfg.maxDelay, cfg.multiplier, cfg.jitter, jitterFactor(attempt));
          match CallbackEscape(onRetry, attempt)
          case Some(x) => RetryRun(Raised(x), attempt + 1, sleeps)
          case None =>
            if delay < 0.0 then RetryRun(Raised(SleepError()), attempt + 1, sleeps)
            else RetryFrom(cfg, name, op, jitterFactor, onRetry, attempt + 1, Some(e), sleeps + [delay])
        else RetryFrom(cfg, name, op, jitterFactor, onRetry, attempt + 1, Some(e), sleeps)
  }

  /** A whole decorated call. */
  function RetrySpec<T>(cfg: RetryConfig, name: string, op: nat -> Outcome<T>, jitterFactor: nat -> real,
                        onRetry: Callback): RetryRun<T> {
    RetryFrom(cfg, name, op, jitterFactor, onRetry, 0, None, [])
  }

  /**
   * The decorated function `name` called once: the `for attempt in range(max_attempts)`
   * loop of `retry_with_backoff`'s wrapper.
   */
  method RetryWithBackoff<T>(cfg: RetryConfig, name: string, op: nat -> Outcome<T>, jitterFactor: nat -> real,
                             onRetry: Callback)
    returns (r: Outcome<T>, calls: nat, ghost sleeps: seq<real>)
    ensures r == RetrySpec(cfg, name, op, jitterFactor, onRetry).result
    ensures calls == RetrySpec(cfg, name, op, jitterFactor, onRetry).calls
    ensures sleeps == RetrySpec(cfg, name, op, jitterFactor, onRetry).sleeps
  {
    var last: Option<Exc> := None;
    sleeps := [];
    var attempt: nat := 0;
    while attempt < cfg.maxAttempts
      invariant RetryFrom(cfg, name, op, jitterFactor, onRetry, attempt, last, sleeps)
             == RetrySpec(cfg, name, op, jitterFactor, onRetry)
      decreases cfg.maxAttempts - attempt
    {
      var outcome := op(attempt);
      if outcome.Ok? {
        return outcome, attempt + 1, sleeps;
      }
      var e := outcome.exc;
      if !IsInstanceAny(e.kind, cfg.exceptions) {
        return Raised(e), attempt + 1, sleeps;
      }
      last := Some(e);
      if attempt < cfg.maxAttempts - 1 {
        var delay := BackoffDelay(attempt, cfg.baseDelay, cfg.maxDelay, cfg.multiplier, cfg.jitter, jitterFactor(attempt));
        if onRetry.Some? {
          var raised := onRetry.value(attempt);
          if raised.Some? && !IsSubclass(raised.value.kind, Exception) {
            return Raised(raised.value), attempt + 1, sleeps;
          }
        }
        if delay < 0.0 {
          return Raised(SleepError()), attempt + 1, sleeps;
        }
        sleeps := sleeps + [delay];
      }
      attempt := attempt + 1;
    }
    if last.Some? {
      r := Raised(last.value);
    } else {
      r := Raised(Error(RuntimeError, name + " failed without exception"));
    }
    calls := attempt;
  }

  /** No run calls the function more than `max_attempts` times, nor sleeps after the last call. */
  lemma {:induction false} RetryFromBounds<T>(cfg: RetryConfig, name: string, op: nat -> Outcome<T>,
                                              jitterFactor: nat -> real, onRetry: Callback,
                                              attempt: nat, last: Option<Exc>, sleeps: seq<real>)
    requires |sleeps| <= attempt
    requires attempt >= cfg.maxAttempts && attempt > 0 ==> |sleeps| < attempt
    ensures var run := RetryFrom(cfg, name, op, jitterFactor, onRetry, attempt, last, sleeps);
      run.calls <= (if cfg.maxAttempts > attempt then cfg.maxAttempts else attempt)
      && |run.sleeps| <= run.calls
      && (run.calls > 0 ==> |run.sleeps| < run.calls)
      && sleeps <= run.sleeps
    decreases if cfg.maxAttempts > attempt then cfg.maxAttempts - attempt else 0
  {
    if attempt < cfg.maxAttempts && op(attempt).Raised? && IsInstanceAny(op(attempt).exc.kind, cfg.exceptions) {
      var e := op(attempt).exc;
      if attempt < cfg.maxAttempts - 1 {
        var delay := BackoffDelay(attempt, cfg.baseDelay, cfg.maxDelay, cfg.multiplier, cfg.jitter, jitterFactor(attempt));
        if CallbackEscape(onRetry, attempt).None? && delay >= 0.0 {
          RetryFromBounds(cfg, name, op, jitterFactor, onRetry, attempt + 1, Some(e), sleeps + [delay]);
        }
      } else {
        RetryFromBounds(cfg, name, op, jitterFactor, onRetry, attempt + 1, Some(e), sleeps);
      }
    }
  }

  /** The wrapper calls the function at most `max_attempts` times and sleeps fewer times than it calls. */
  lemma RetryAtMostMaxAttempts<T>(cfg: RetryConfig, name: string, op: nat -> Outcome<T>,
                                  jitterFactor: nat -> real, onRetry: Callback)
    ensures var run := RetrySpec(cfg, name, op, jitterFactor, onRetry);
      run.calls <= (if cfg.maxAttempts > 0 then cfg.maxAttempts else 0)
      && |run.sleeps| <= run.calls
      && (run.calls > 0 ==> |run.sleeps| < run.calls)
  {
    RetryFromBounds(cfg, name, op, jitterFactor, onRetry, 0, None, []);
  }

  /** Attempt `k` failed with an exception the wrapper retries on. */
  predicate RetriedFailure<T>(cfg: RetryConfig, op: nat -> Outcome<T>, k: nat) {
    op(k).Raised? && IsInstanceAny(op(k).exc.kind, cfg.exceptions)
  }

  /** Attempt `k` ends the loop by itself: it succeeded, or raised an exception the wrapper does not catch. */
  predicate EndsRun<T>(cfg: RetryConfig, op: nat -> Outcome<T>, k: nat) {
    op(k).Ok? || !IsInstanceAny(op(k).exc.kind, cfg.exceptions)
  }

  /** The callback never lets an exception escape. */
  ghost predicate HarmlessCallback(onRetry: Callback) {
    forall k: nat :: CallbackEscape(onRetry, k).None?
  }

  /** The delay slept after a failed attempt `k`. */
  function DelayAt(cfg: RetryConfig, jitterFactor: nat -> real, k: nat): real {
    BackoffDelay(k, cfg.baseDelay, cfg.maxDelay, cfg.multiplier, cfg.jitter, jitterFactor(k))
  }

  /** `time.sleep` accepts every delay the wrapper computes: none is negative. */
  ghost predicate SleepsAccepted(cfg: RetryConfig, jitterFactor: nat -> real) {
    forall k: nat :: DelayAt(cfg, jitterFactor, k) >= 0.0
  }

  /** Non-negative settings and jitter factors give only delays `time.sleep` accepts. */
  lemma DelaysNonNegative(cfg: RetryConfig, jitterFactor: nat -> real)
    requires cfg.baseDelay >= 0.0 && cfg.maxDelay >= 0.0 && cfg.multiplier >= 0.0
    requires forall k: nat :: jitterFactor(k) >= 0.0
    ensures SleepsAccepted(cfg, jitterFactor)
  {
    forall k: nat
      ensures DelayAt(cfg, jitterFactor, k) >= 0.0
    {
      PowNonNegative(cfg.multiplier, k);
      assert ExponentialDelay(k, cfg.baseDelay, cfg.multiplier) >= 0.0;
    }
  }

  /**
   * When attempts `attempt..k-1` fail with retried exceptions and attempt `k`
   * ends the loop, the run returns attempt `k`'s outcome after `k + 1` calls.
   */
  lemma {:induction false} RetryFromStopsAt<T>(cfg: RetryConfig, name: string, op: nat -> Outcome<T>,
                                               jitterFactor: nat -> real, onRetry: Callback,
                                               attempt: nat, last: Option<Exc>, sleeps: seq<real>, k: nat)
    requires attempt <= k < cfg.maxAttempts
    requires forall j :: attempt <= j < k ==> RetriedFailure(cfg, op, j)
    requires EndsRun(cfg, op, k)
    requires HarmlessCallback(onRetry) && SleepsAccepted(cfg, jitterFactor)
    ensures var run := RetryFrom(cfg, name, op, jitterFactor, onRetry, attempt, last, sleeps);
      run.result == op(k) && run.calls == k + 1 && |run.sleeps| == |sleeps| + k - attempt
    decreases k - attempt
  {
    if attempt < k {
      assert RetriedFailure(cfg, op, attempt);
      var e := op(attempt).exc;
      assert CallbackEscape(onRetry, attempt).None?;
      var delay := DelayAt(cfg, jitterFactor, attempt);
      assert delay >= 0.0;
      RetryFromStopsAt(cfg, name, op, jitterFactor, onRetry, attempt + 1, Some(e), sleeps + [delay], k);
    }
  }

  /** The first success is returned at once: `k` retried failures then a success give `k + 1` calls. */
  lemma RetryReturnsFirstSuccess<T>(cfg: RetryConfig, name: string, op: nat -> Outcome<T>,
                                    jitterFactor: nat -> real, onRetry: Callback, k: nat)
    requires k < cfg.maxAttempts
    requires forall j :: 0 <= j < k ==> RetriedFailure(cfg, op, j)
    requires op(k).Ok?
    requires HarmlessCallback(onRetry) && SleepsAccepted(cfg, jitterFactor)
    ensures var run := RetrySpec(cfg, name, op, jitterFactor, onRetry);
      run.result == op(k) && run.calls == k + 1 && |run.sleeps| == k
  {
    RetryFromStopsAt(cfg, name, op, jitterFactor, onRetry, 0, None, [], k);
  }

  lemma {:induction false} RetryFromAllFail<T>(cfg: RetryConfig, name: string, op: nat -> Outcome<T>,
                                               jitterFactor: nat -> real, onRetry: Callback,
                                               attempt: nat, last: Option<Exc>, sleeps: seq<real>)
    requires attempt < cfg.maxAttempts
    requires forall j :: attempt <= j < cfg.maxAttempts ==> RetriedFailure(cfg, op, j)
    requires HarmlessCallback(onRetry) && SleepsAccepted(cfg, jitterFactor)
    ensures var run := RetryFrom(cfg, name, op, jitterFactor, onRetry, attempt, last, sleeps);
      run.result == op(cfg.maxAttempts - 1)
      && run.calls == cfg.maxAttempts
      && |run.sleeps| == |sleeps| + cfg.maxAttempts - 1 - attempt
      && run.sleeps[..|sleeps|] == sleeps
      && forall j :: attempt <= j < cfg.maxAttempts - 1 ==> run.sleeps[|sleeps| + j - attempt] == DelayAt(cfg, jitterFactor, j)
    decreases cfg.maxAttempts - attempt
  {
    assert RetriedFailure(cfg, op, attempt);
    var e := op(attempt).exc;
    if attempt < cfg.maxAttempts - 1 {
      assert CallbackEscape(onRetry, attempt).None?;
      assert DelayAt(cfg, jitterFactor, attempt) >= 0.0;
      var s' := sleeps + [DelayAt(cfg, jitterFactor, attempt)];
      RetryFromAllFail(cfg, name, op, jitterFactor, onRetry, attempt + 1, Some(e), s');
      var run := RetryFrom(cfg, name, op, jitterFactor, onRetry, attempt + 1, Some(e), s');
      assert run.sleeps[..|sleeps|] == s'[..|sleeps|] == sleeps by {
        assert run.sleeps[..|s'|] == s';
      }
      assert run.sleeps[|sleeps|] == s'[|sleeps|] by {
        assert run.sleeps[..|s'|] == s';
      }
    } else {
      var run := RetryFrom(cfg, name, op, jitterFactor, onRetry, attempt + 1, Some(e), sleeps);
      assert run == RetryRun(Raised(e), attempt + 1, sleeps);
    }
  }

  /**
   * A function that always fails with a retried exception runs exactly `max_attempts`
   * times, the wrapper sleeps `max_attempts - 1` times with the delays of attempts
   * 0 .. max_attempts-2, and the last exception is re-raised unchanged.
   */
  lemma RetryAllFail<T>(cfg: RetryConfig, name: string, op: nat -> Outcome<T>,
                        jitterFactor: nat -> real, onRetry: Callback)
    requires cfg.maxAttempts > 0
    requires forall j :: 0 <= j < cfg.maxAttempts ==> RetriedFailure(cfg, op, j)
    requires HarmlessCallback(onRetry) && SleepsAccepted(cfg, jitterFactor)
    ensures var run := RetrySpec(cfg, name, op, jitterFactor, onRetry);
      run.result == op(cfg.maxAttempts - 1)
      && run.calls == cfg.maxAttempts
      && |run.sleeps| == cfg.maxAttempts - 1
      && forall j :: 0 <= j < cfg.maxAttempts - 1 ==> run.sleeps[j] == DelayAt(cfg, jitterFactor, j)
  {
    RetryFromAllFail(cfg, name, op, jitterFactor, onRetry, 0, None, []);
  }

  /**
   * An exception outside `exceptions` propagates at once: after `k` retried
   * failures it ends the run at call `k + 1`, with no sleep after it.
   */
  lemma RetryNonMatchingPropagates<T>(cfg: RetryConfig, name: string, op: nat -> Outcome<T>,
                                      jitterFactor: nat -> real, onRetry: Callback, k: nat)
    requires k < cfg.maxAttempts
    requires forall j :: 0 <= j < k ==> RetriedFailure(cfg, op, j)
    requires op(k).Raised? && !IsInstanceAny(op(k).exc.kind, cfg.exceptions)
    requires HarmlessCallback(onRetry) && SleepsAccepted(cfg, jitterFactor)
    ensures var run := RetrySpec(cfg, name, op, jitterFactor, onRetry);
      run.result == op(k) && run.calls == k + 1 && |run.sleeps| == k
  {
    RetryFromStopsAt(cfg, name, op, jitterFactor, onRetry, 0, None, [], k);
  }

  /**
   * A negative delay makes `time.sleep` raise: the `ValueError` leaves the
   * wrapper right after the failed attempt, and no later attempt runs.
   */
  lemma RetryNegativeDelayRaises<T>(cfg: RetryConfig, name: string, op: nat -> Outcome<T>,
                                    jitterFactor: nat -> real, onRetry: Callback)
    requires cfg.maxAttempts >= 2
    requires RetriedFailure(cfg, op, 0) && CallbackEscape(onRetry, 0).None?
    requires DelayAt(cfg, jitterFactor, 0) < 0.0
    ensures RetrySpec(cfg, name, op, jitterFactor, onRetry) == RetryRun(Raised(SleepError()), 1, [])
  {
  }

  /** A negative `base_delay` without jitter gives a negative first delay. */
  lemma NegativeBaseDelay(cfg: RetryConfig, jitterFactor: nat -> real)
    requires cfg.baseDelay < 0.0 && !cfg.jitter
    ensures DelayAt(cfg, jitterFactor, 0) < 0.0
  {
    assert Pow(cfg.multiplier, 0) == 1.0;
  }

  /** With `max_attempts <= 0` the function never runs and a `RuntimeError` is raised. */
  lemma RetryNoAttempts<T>(cfg: RetryConfig, name: string, op: nat -> Outcome<T>,
                           jitterFactor: nat -> real, onRetry: Callback)
    requires cfg.maxAttempts <= 0
    ensures var run := RetrySpec(cfg, name, op, jitterFactor, onRetry);
      run.calls == 0 && run.sleeps == []
      && run.result == Raised(Exc(RuntimeError, name + " failed without exception", None))
  {
  }

  lemma {:induction false} RetryFromCallbackSwallowed<T>(cfg: RetryConfig, name: string, op: nat -> Outcome<T>,
                                                         jitterFactor: nat -> real, cb: nat -> Option<Exc>,
                                                         attempt: nat, last: Option<Exc>, sleeps: seq<real>)
    requires forall k: nat :: cb(k).None? || IsSubclass(cb(k).value.kind, Exception)
    ensures RetryFrom(cfg, name, op, jitterFactor, Some(cb), attempt, last, sleeps)
         == RetryFrom(cfg, name, op, jitterFactor, None, attempt, last, sleeps)
    decreases if cfg.maxAttempts > attempt then cfg.maxAttempts - attempt else 0
  {
    if attempt < cfg.maxAttempts && op(attempt).Raised? && IsInstanceAny(op(attempt).exc.kind, cfg.exceptions) {
      var e := op(attempt).exc;
      assert CallbackEscape(Some(cb), attempt).None?;
      if attempt < cfg.maxAttempts - 1 {
        var delay := DelayAt(cfg, jitterFactor, attempt);
        RetryFromCallbackSwallowed(cfg, name, op, jitterFactor, cb, attempt + 1, Some(e), sleeps + [delay]);
      } else {
        RetryFromCallbackSwallowed(cfg, name, op, jitterFactor, cb, attempt + 1, Some(e), sleeps);
      }
    }
  }

  /**
   * A callback that raises only `Exception` subclasses leaves the run exactly
   * as if there were no callback: its errors are logged and swallowed.
   */
  lemma RetryCallbackErrorsSwallowed<T>(cfg: RetryConfig, name: string, op: nat -> Outcome<T>,
                                        jitterFactor: nat -> real, cb: nat -> Option<Exc>)
    requires forall k: nat :: cb(k).None? || IsSubclass(cb(k).value.kind, Exception)
    ensures RetrySpec(cfg, name, op, jitterFactor, Some(cb)) == RetrySpec(cfg, name, op, jitterFactor, None)
  {
    RetryFromCallbackSwallowed(cfg, name, op, jitterFactor, cb, 0, None, []);
  }

  /** Fails twice, then succeeds: with the defaults and no jitter, three calls and sleeps of 1 s and 2 s. */
  lemma RetryTwoFailuresThenSuccess(op: nat -> Outcome<string>, jitterFactor: nat -> real)
    requires op(0) == Raised(Error(ConnectionError, "reset by peer"))
    requires op(1) == Raised(Error(TimeoutError, "timed out"))
    requires op(2) == Ok("uploaded")
    ensures RetrySpec(DefaultRetryConfig().(jitter := false), "upload", op, jitterFactor, None)
         == RetryRun(Ok("uploaded"), 3, [1.0, 2.0])
  {
    var cfg := DefaultRetryConfig().(jitter := false);
    assert IsSubclass(OSError, Exception);
    assert IsInstanceAny(ConnectionError, cfg.exceptions) by {
      assert IsSubclass(ConnectionError, cfg.exceptions[0]);
    }
    assert IsInstanceAny(TimeoutError, cfg.exceptions) by {
      assert IsSubclass(TimeoutError, cfg.exceptions[0]);
    }
    DefaultSchedule(jitterFactor(0));
    DefaultSchedule(jitterFactor(1));
  }

  /** The HTTP statuses `is_transient_error` treats as transient. */
  const TransientStatusCodes: set<int> := {429, 500, 502, 503, 504}

  /** The lower-case message fragments `is_transient_error` treats as transient. */
  const TransientKeywords: seq<string> := ["timeout", "connection", "temporary", "unavailable", "rate limit", "quota"]

  predicate HasTransientKeyword(message: string) {
    var lowered := Strings.Lower(message);
    exists k :: 0 <= k < |TransientKeywords| && Strings.Contains(lowered, TransientKeywords[k])
  }

  /**
   * `is_transient_error`: connection, timeout and any other `OSError`; an HTTP
   * response status of 429 or 5xx from the set above; or a message mentioning
   * one of the keywords, case-insensitively.
   */
  function IsTransientError(e: Exc): (r: bool)
    ensures r <==> IsSubclass(e.kind, OSError)
                   || (e.status.Some? && e.status.value in TransientStatusCodes)
                   || HasTransientKeyword(e.message)
  {
    TransientByKindOnlyOSErrors(e.kind);
    IsInstanceAny(e.kind, [ConnectionError, TimeoutError, OSError])
    || (e.status.Some? && e.status.value in TransientStatusCodes)
    || HasTransientKeyword(e.message)
  }

  /** Every `OSError`, `FileNotFoundError` included, counts as transient. */
  lemma OSErrorsAreTransient(e: Exc)
    requires IsSubclass(e.kind, OSError)
    ensures IsTransientError(e)
  {
    assert IsSubclass(e.kind, [ConnectionError, TimeoutError, OSError][2]);
  }

  /** Only `OSError` subclasses are transient by their class alone. */
  lemma TransientByKindOnlyOSErrors(k: Kind)
    ensures IsInstanceAny(k, [ConnectionError, TimeoutError, OSError]) <==> IsSubclass(k, OSError)
  {
    var ks := [ConnectionError, TimeoutError, OSError];
    if IsSubclass(k, OSError) {
      assert IsSubclass(k, ks[2]);
    }
    if IsInstanceAny(k, ks) {
      var i :| 0 <= i < |ks| && IsSubclass(k, ks[i]);
      assert IsSubclass(ks[i], OSError);
      SubclassTransitive(k, ks[i], OSError);
    }
  }

  /** The classification ignores the case of the message. */
  lemma TransientIgnoresCase(e: Exc)
    ensures IsTransientError(e) == IsTransientError(e.(message := Strings.Lower(e.message)))
  {
    Strings.LowerIdempotent(e.message);
  }

  /** A message with none of the keywords, from a non-`OSError` class without a transient status, is not transient. */
  lemma NotTransientWithoutSignals(e: Exc)
    requires !IsSubclass(e.kind, OSError)
    requires e.status.None? || e.status.value !in TransientStatusCodes
    ensures IsTransientError(e) <==> HasTransientKeyword(e.message)
  {
    TransientByKindOnlyOSErrors(e.kind);
  }
}
