/**
 * The circuit breaker of the resilience layer (src/utils/retry.py): a
 * CLOSED / OPEN / HALF_OPEN state machine with failure counters and
 * statistics, updated in place by each guarded call.
 *
 * `datetime.now()` becomes the `now` argument of `Call`, in seconds. The
 * pure functions below give the breaker's whole state after each step; the
 * class methods are proved to perform exactly those steps, and the lemmas
 * about the steps state the transitions the code promises.
 */
module Breaker {
  import opened Optional
  import opened PyValue
  import Retry
  import Strings

  /** `CircuitState`. */
  datatype CircuitState = Closed | Open | HalfOpen {
    /** The enum's string value. */
    function Value(): string {
      match this
      case Closed => "closed"
      case Open => "open"
      case HalfOpen => "half_open"
    }
  }

  /** `CircuitBreakerStats` as a value. */
  datatype Stats = Stats(
    totalRequests: nat,
    successfulRequests: nat,
    failedRequests: nat,
    lastFailureTime: Option<real>,
    stateChanges: nat)

  /** The constructor arguments of `CircuitBreaker`. */
  datatype Settings = Settings(
    failureThreshold: int,
    timeout: real,
    expectedException: Kind,
    halfOpenMaxAttempts: int)

  /** The defaults: threshold 5, timeout 60 s, `Exception`, one half-open attempt. */
  function DefaultSettings(): Settings {
    Settings(5, 60.0, Exception, 1)
  }

  /** Everything a breaker call reads or writes. */
  datatype Snapshot = Snapshot(
    state: CircuitState,
    failureCount: nat,
    halfOpenAttempts: nat,
    lastFailureTime: Option<real>,
    openedAt: Option<real>,
    stats: Stats)

  /** A freshly constructed breaker. */
  function InitialSnapshot(): Snapshot {
    Snapshot(Closed, 0, 0, None, None, Stats(0, 0, 0, None, 0))
  }

  /** `_should_attempt_reset`: no opening time recorded, or the timeout has elapsed since it. */
  predicate ResetDue(settings: Settings, s: Snapshot, now: real) {
    s.openedAt.None? || now - s.openedAt.value >= settings.timeout
  }

  /**
   * Once a reset is due it stays due as time goes on, and it is due from
   * exactly `opened_at + timeout` on.
   */
  lemma ResetDueMonotone(settings: Settings, s: Snapshot, now: real, later: real)
    requires now <= later
    ensures ResetDue(settings, s, now) ==> ResetDue(settings, s, later)
    ensures s.openedAt.Some? ==>
      ResetDue(settings, s, s.openedAt.value + settings.timeout)
      && (now < s.openedAt.value + settings.timeout ==> !ResetDue(settings, s, now))
  {
  }

  /** `_transition_to_half_open`. */
  function HalfOpenStep(s: Snapshot): Snapshot {
    s.(state := HalfOpen, halfOpenAttempts := 0, stats := s.stats.(stateChanges := s.stats.stateChanges + 1))
  }

  /** `_open_circuit`. */
  function OpenStep(s: Snapshot, now: real): Snapshot {
    s.(state := Open, openedAt := Some(now), stats := s.stats.(stateChanges := s.stats.stateChanges + 1))
  }

  /** `_close_circuit`, which `reset` also performs. */
  function CloseStep(s: Snapshot): Snapshot {
    s.(state := Closed, failureCount := 0, openedAt := None, halfOpenAttempts := 0,
       stats := s.stats.(stateChanges := s.stats.stateChanges + 1))
  }

  /** `_on_success`. */
  function SuccessStep(s: Snapshot): Snapshot {
    var s1 := s.(stats := s.stats.(successfulRequests := s.stats.successfulRequests + 1));
    match s1.state
    case HalfOpen => CloseStep(s1)
    case Closed => s1.(failureCount := 0)
    case Open => s1
  }

  /** `_on_failure`. */
  function FailureStep(settings: Settings, s: Snapshot, now: real): Snapshot {
    var s1 := s.(failureCount := s.failureCount + 1, lastFailureTime := Some(now),
                 stats := s.stats.(failedRequests := s.stats.failedRequests + 1, lastFailureTime := Some(now)));
    match s1.state
    case HalfOpen => OpenStep(s1, now)
    case Closed => if s1.failureCount >= settings.failureThreshold then OpenStep(s1, now) else s1
    case Open => s1
  }

  /** What the guarded function did when it ran: returned, or raised an exception of some class. */
  datatype Attempt = Succeeded | Failed(kind: Kind)

  function AttemptOf<T>(o: Outcome<T>): Attempt {
    match o
    case Ok(_) => Succeeded
    case Raised(e) => Failed(e.kind)
  }

  /** The result of one `call`: the new state, and whether the guarded function ran. */
  datatype Step = Step(after: Snapshot, invoked: bool)

  /**
   * `call`: count the request; while OPEN either move to HALF_OPEN, when the
   * reset is due, or refuse; otherwise run the function and record its success
   * or its failure, the latter only for `expected_exception` and its subclasses.
   */
  function CallStep(settings: Settings, s: Snapshot, now: real, a: Attempt): Step {
    var s1 := s.(stats := s.stats.(totalRequests := s.stats.totalRequests + 1));
    if s1.state == Open && !ResetDue(settings, s1, now) then Step(s1, false)
    else
      var s2 := if s1.state == Open then HalfOpenStep(s1) else s1;
      match a
      case Succeeded => Step(SuccessStep(s2), true)
      case Failed(k) =>
        if IsSubclass(k, settings.expectedException) then Step(FailureStep(settings, s2, now), true)
        else Step(s2, true)
  }

  /** The exception `call` raises when it refuses to run the function. */
  function OpenError(): Exc {
    Error(CircuitBreakerError, OpenMessage)
  }

  const OpenMessage := "Circuit breaker is OPEN"

  /** What `call` hands back: the function's own outcome when it ran, the breaker's error otherwise. */
  function CallResult<T>(invoked: bool, result: Outcome<T>): Outcome<T> {
    if invoked then result else Raised(OpenError())
  }

  /**
   * The breaker's invariant: it is CLOSED exactly when no opening time is
   * recorded; while CLOSED the failure count is zero or below the threshold;
   * the breaker's and the statistics' last failure times agree; and no more
   * requests succeeded or failed than were made.
   */
  predicate Invariant(settings: Settings, s: Snapshot) {
    (s.state == Closed <==> s.openedAt.None?)
    && (s.state == Closed ==> s.failureCount == 0 || s.failureCount < settings.failureThreshold)
    && s.lastFailureTime == s.stats.lastFailureTime
    && s.stats.successfulRequests + s.stats.failedRequests <= s.stats.totalRequests
  }

  lemma InitialInvariant(settings: Settings)
    ensures Invariant(settings, InitialSnapshot())
  {
  }

  /** Every call keeps the invariant. */
  lemma CallPreservesInvariant(settings: Settings, s: Snapshot, now: real, a: Attempt)
    requires Invariant(settings, s)
    ensures Invariant(settings, CallStep(settings, s, now, a).after)
  {
  }

  /** A manual reset keeps the invariant. */
  lemma ResetPreservesInvariant(settings: Settings, s: Snapshot)
    requires Invariant(settings, s)
    ensures Invariant(settings, CloseStep(s))
  {
  }

  /** Under the invariant an OPEN breaker always has an opening time, so the `None` branch of the reset test only fires for a breaker that is not OPEN. */
  lemma OpenHasOpeningTime(settings: Settings, s: Snapshot)
    requires Invariant(settings, s) && s.state == Open
    ensures s.openedAt.Some?
  {
  }

  /** Every call, refused or not, increments `total_requests` by one. */
  lemma CallCountsRequest(settings: Settings, s: Snapshot, now: real, a: Attempt)
    ensures CallStep(settings, s, now, a).after.stats.totalRequests == s.stats.totalRequests + 1
  {
  }

  /** OPEN before the timeout: the call is refused and only the request count changes. */
  lemma OpenRefusesBeforeTimeout(settings: Settings, s: Snapshot, now: real, a: Attempt)
    requires s.state == Open && s.openedAt.Some? && now - s.openedAt.value < settings.timeout
    ensures CallStep(settings, s, now, a)
         == Step(s.(stats := s.stats.(totalRequests := s.stats.totalRequests + 1)), false)
  {
  }

  /** OPEN once the timeout has elapsed: the breaker moves to HALF_OPEN and runs the function. */
  lemma OpenTriesAfterTimeout(settings: Settings, s: Snapshot, now: real)
    requires s.state == Open && s.openedAt.Some? && now - s.openedAt.value >= settings.timeout
    ensures var step := CallStep(settings, s, now, Succeeded);
      step.invoked && step.after.state == Closed && step.after.stats.stateChanges == s.stats.stateChanges + 2
    ensures var step := CallStep(settings, s, now, Failed(settings.expectedException));
      step.invoked && step.after.state == Open && step.after.openedAt == Some(now)
      && step.after.stats.stateChanges == s.stats.stateChanges + 2
  {
  }

  /** A success while CLOSED clears the failure count and leaves the breaker CLOSED. */
  lemma ClosedSuccessResetsCount(settings: Settings, s: Snapshot, now: real)
    requires s.state == Closed
    ensures var after := CallStep(settings, s, now, Succeeded).after;
      after.state == Closed && after.failureCount == 0
      && after.stats.successfulRequests == s.stats.successfulRequests + 1
      && after.stats.stateChanges == s.stats.stateChanges
  {
  }

  /** A counted failure while CLOSED opens the breaker exactly when the count reaches the threshold. */
  lemma ClosedFailureOpensAtThreshold(settings: Settings, s: Snapshot, now: real, k: Kind)
    requires s.state == Closed && IsSubclass(k, settings.expectedException)
    ensures var after := CallStep(settings, s, now, Failed(k)).after;
      after.failureCount == s.failureCount + 1
      && after.lastFailureTime == Some(now) && after.stats.lastFailureTime == Some(now)
      && after.stats.failedRequests == s.stats.failedRequests + 1
      && (after.state == Open <==> s.failureCount + 1 >= settings.failureThreshold)
      && (after.state == Open ==> after.openedAt == Some(now))
      && (after.state != Open ==> after.state == Closed && after.openedAt == s.openedAt)
  {
  }

  /** A success while HALF_OPEN closes the breaker with the count cleared and no opening time. */
  lemma HalfOpenSuccessCloses(settings: Settings, s: Snapshot, now: real)
    requires s.state == HalfOpen
    ensures var after := CallStep(settings, s, now, Succeeded).after;
      after.state == Closed && after.failureCount == 0 && after.openedAt.None?
      && after.stats.stateChanges == s.stats.stateChanges + 1
  {
  }

  /** A counted failure while HALF_OPEN reopens the breaker from `now`. */
  lemma HalfOpenFailureReopens(settings: Settings, s: Snapshot, now: real, k: Kind)
    requires s.state == HalfOpen && IsSubclass(k, settings.expectedException)
    ensures var after := CallStep(settings, s, now, Failed(k)).after;
      after.state == Open && after.openedAt == Some(now)
      && after.failureCount == s.failureCount + 1
      && after.stats.stateChanges == s.stats.stateChanges + 1
  {
  }

  /**
   * An exception outside `expected_exception` leaves the failure count, the
   * failure statistics and the opening time alone (it is re-raised unchanged
   * by `CallResult`).
   */
  lemma UnexpectedFailureUntouched(settings: Settings, s: Snapshot, now: real, k: Kind)
    requires !IsSubclass(k, settings.expectedException)
    requires s.state != Open || ResetDue(settings, s, now)
    ensures var step := CallStep(settings, s, now, Failed(k));
      step.invoked
      && step.after.failureCount == s.failureCount
      && step.after.lastFailureTime == s.lastFailureTime
      && step.after.stats.failedRequests == s.stats.failedRequests
      && step.after.stats.lastFailureTime == s.stats.lastFailureTime
      && step.after.openedAt == s.openedAt
      && step.after.state == (if s.state == Open then HalfOpen else s.state)
  {
  }

  /** The function's own outcome, success or exception, is what a call that ran hands back. */
  lemma CallReturnsOwnOutcome<T>(invoked: bool, result: Outcome<T>)
    ensures invoked ==> CallResult(invoked, result) == result
    ensures !invoked ==> CallResult(invoked, result).Raised? && CallResult(invoked, result).exc.kind == CircuitBreakerError
  {
  }

  /** A sequence of calls, each at its time with its attempt. */
  function Run(settings: Settings, s: Snapshot, calls: seq<(real, Attempt)>): Snapshot
    decreases |calls|
  {
    if calls == [] then s
    else Run(settings, CallStep(settings, s, calls[0].0, calls[0].1).after, calls[1..])
  }

  /** Counted failures at the given times. */
  function Failures(settings: Settings, times: seq<real>): seq<(real, Attempt)> {
    seq(|times|, i requires 0 <= i < |times| => (times[i], Failed(settings.expectedException)))
  }

  lemma {:induction false} ClosedFailuresCount(settings: Settings, s: Snapshot, times: seq<real>)
    requires s.state == Closed
    requires s.failureCount + |times| < settings.failureThreshold
    ensures var after := Run(settings, s, Failures(settings, times));
      after.state == Closed && after.failureCount == s.failureCount + |times|
    decreases |times|
  {
    if times != [] {
      var calls := Failures(settings, times);
      var next := CallStep(settings, s, times[0], Failed(settings.expectedException)).after;
      ClosedFailureOpensAtThreshold(settings, s, times[0], settings.expectedException);
      assert calls[1..] == Failures(settings, times[1..]);
      ClosedFailuresCount(settings, next, times[1..]);
    }
  }

  /**
   * From a CLOSED breaker with no failures, `failure_threshold` consecutive
   * counted failures leave it CLOSED until the last one, which opens it from
   * that failure's time.
   */
  lemma ThresholdFailuresOpen(settings: Settings, s: Snapshot, times: seq<real>)
    requires s.state == Closed && s.failureCount == 0
    requires settings.failureThreshold >= 1 && |times| == settings.failureThreshold
    ensures var after := Run(settings, s, Failures(settings, times));
      after.state == Open && after.openedAt == Some(times[|times| - 1])
    ensures forall k :: 0 <= k < |times| ==> Run(settings, s, Failures(settings, times[..k])).state == Closed
  {
    var n := |times|;
    forall k | 0 <= k < n
      ensures Run(settings, s, Failures(settings, times[..k])).state == Closed
    {
      ClosedFailuresCount(settings, s, times[..k]);
    }
    var front := times[..n - 1];
    ClosedFailuresCount(settings, s, front);
    RunAppend(settings, s, Failures(settings, front), [(times[n - 1], Failed(settings.expectedException))]);
    assert Failures(settings, front) + [(times[n - 1], Failed(settings.expectedException))] == Failures(settings, times);
    var mid := Run(settings, s, Failures(settings, front));
    ClosedFailureOpensAtThreshold(settings, mid, times[n - 1], settings.expectedException);
  }

  lemma {:induction false} RunAppend(settings: Settings, s: Snapshot, xs: seq<(real, Attempt)>, ys: seq<(real, Attempt)>)
    ensures Run(settings, s, xs + ys) == Run(settings, Run(settings, s, xs), ys)
    decreases |xs|
  {
    if xs == [] {
      assert xs + ys == ys;
    } else {
      assert (xs + ys)[1..] == xs[1..] + ys;
      RunAppend(settings, CallStep(settings, s, xs[0].0, xs[0].1).after, xs[1..], ys);
    }
  }

  /**
   * Threshold 3, timeout 60 s: three failures at t = 0 open the breaker; a
   * fourth call at once is refused without running the function; a fifth call
   * at t = 61 runs it as the HALF_OPEN trial.
   */
  lemma EndToEndScenario()
    ensures var settings := Settings(3, 60.0, Exception, 1);
      var f := Failed(ConnectionError);
      var tripped := Run(settings, InitialSnapshot(), [(0.0, f), (0.0, f), (0.0, f)]);
      var fourth := CallStep(settings, tripped, 0.0, Succeeded);
      var fifth := CallStep(settings, fourth.after, 61.0, Succeeded);
      tripped.state == Open && tripped.openedAt == Some(0.0)
      && !fourth.invoked && fourth.after.state == Open
      && fifth.invoked && fifth.after.state == Closed
      && fifth.after.stats == Stats(5, 1, 3, Some(0.0), 3)
  {
    var settings := Settings(3, 60.0, Exception, 1);
    assert IsSubclass(OSError, Exception);
    assert IsSubclass(ConnectionError, Exception);
    var f := Failed(ConnectionError);
    var calls: seq<(real, Attempt)> := [(0.0, f), (0.0, f), (0.0, f)];
    var s1 := CallStep(settings, InitialSnapshot(), 0.0, f).after;
    var s2 := CallStep(settings, s1, 0.0, f).after;
    var s3 := CallStep(settings, s2, 0.0, f).after;
    assert calls[1..] == [(0.0, f), (0.0, f)];
    assert calls[1..][1..] == [(0.0, f)];
    assert calls[1..][1..][1..] == [];
    assert Run(settings, s3, []) == s3;
    assert Run(settings, s2, calls[1..][1..]) == s3;
    assert Run(settings, s1, calls[1..]) == s3;
    assert Run(settings, InitialSnapshot(), calls) == s3;
    assert s3.state == Open && s3.openedAt == Some(0.0);
    assert s3.stats == Stats(3, 0, 3, Some(0.0), 1);
    var fourth := CallStep(settings, s3, 0.0, Succeeded);
    assert !ResetDue(settings, s3, 0.0);
    assert fourth == Step(s3.(stats := s3.stats.(totalRequests := 4)), false);
    assert ResetDue(settings, fourth.after, 61.0);
    var fifth := CallStep(settings, fourth.after, 61.0, Succeeded);
    var half := HalfOpenStep(fourth.after.(stats := fourth.after.stats.(totalRequests := 5)));
    assert fifth == Step(SuccessStep(half), true);
    assert half.state == HalfOpen;
  }

  /** The statistics object a breaker updates in place and `get_stats` hands out. */
  class CircuitBreakerStats {
    var totalRequests: nat
    var successfulRequests: nat
    var failedRequests: nat
    var lastFailureTime: Option<real>
    var stateChanges: nat

    function Value(): Stats
      reads this
    {
      Stats(totalRequests, successfulRequests, failedRequests, lastFailureTime, stateChanges)
    }

    constructor ()
      ensures Value() == Stats(0, 0, 0, None, 0)
    {
      totalRequests, successfulRequests, failedRequests := 0, 0, 0;
      lastFailureTime, stateChanges := None, 0;
    }
  }

  class CircuitBreaker {
    const failureThreshold: int
    const timeout: real
    const expectedException: Kind
    const halfOpenMaxAttempts: int  // stored, never consulted
    var state: CircuitState
    var failureCount: nat
    var halfOpenAttempts: nat       // reset, never consulted
    var lastFailureTime: Option<real>
    var openedAt: Option<real>
    const stats: CircuitBreakerStats

    function Config(): Settings {
      Settings(failureThreshold, timeout, expectedException, halfOpenMaxAttempts)
    }

    function Snap(): Snapshot
      reads this, stats
    {
      Snapshot(state, failureCount, halfOpenAttempts, lastFailureTime, openedAt, stats.Value())
    }

    ghost predicate Valid()
      reads this, stats
    {
      Invariant(Config(), Snap())
    }

    constructor (failureThreshold: int, timeout: real, expectedException: Kind, halfOpenMaxAttempts: int)
      ensures Config() == Settings(failureThreshold, timeout, expectedException, halfOpenMaxAttempts)
      ensures Snap() == InitialSnapshot() && Valid()
      ensures fresh(stats)
    {
      this.failureThreshold := failureThreshold;
      this.timeout := timeout;
      this.expectedException := expectedException;
      this.halfOpenMaxAttempts := halfOpenMaxAttempts;
      state := Closed;
      failureCount, halfOpenAttempts := 0, 0;
      lastFailureTime, openedAt := None, None;
      stats := new CircuitBreakerStats();
    }

    /** `_should_attempt_reset` at time `now`: `ResetDue` of the current state. */
    predicate ShouldAttemptReset(now: real)
      reads this, stats
    {
      ResetDue(Config(), Snap(), now)
    }

    method TransitionToHalfOpen()
      modifies this, stats
      ensures Snap() == HalfOpenStep(old(Snap()))
    {
      state := HalfOpen;
      halfOpenAttempts := 0;
      stats.stateChanges := stats.stateChanges + 1;
    }

    method OpenCircuit(now: real)
      modifies this, stats
      ensures Snap() == OpenStep(old(Snap()), now)
    {
      state := Open;
      openedAt := Some(now);
      stats.stateChanges := stats.stateChanges + 1;
    }

    method CloseCircuit()
      modifies this, stats
      ensures Snap() == CloseStep(old(Snap()))
    {
      state := Closed;
      failureCount := 0;
      openedAt := None;
      halfOpenAttempts := 0;
      stats.stateChanges := stats.stateChanges + 1;
    }

    method OnSuccess()
      modifies this, stats
      ensures Snap() == SuccessStep(old(Snap()))
    {
      stats.successfulRequests := stats.successfulRequests + 1;
      if state == HalfOpen {
        CloseCircuit();
      } else if state == Closed {
        if failureCount > 0 {
          failureCount := 0;
        }
      }
    }

    method OnFailure(now: real)
      modifies this, stats
      ensures Snap() == FailureStep(Config(), old(Snap()), now)
    {
      stats.failedRequests := stats.failedRequests + 1;
      failureCount := failureCount + 1;
      lastFailureTime := Some(now);
      stats.lastFailureTime := lastFailureTime;
      if state == HalfOpen {
        OpenCircuit(now);
      } else if state == Closed {
        if failureCount >= failureThreshold {
          OpenCircuit(now);
        }
      }
    }

    /** `reset`: back to CLOSED, counting one more state change. */
    method Reset()
      modifies this, stats
      ensures Snap() == CloseStep(old(Snap()))
      ensures old(Valid()) ==> Valid()
    {
      CloseCircuit();
    }

    /** `get_stats` hands out the live statistics object, not a copy. */
    method GetStats() returns (s: CircuitBreakerStats)
      ensures s == stats
    {
      s := stats;
    }

    /**
     * `call` at time `now` of a function whose outcome, if it runs, is `result`.
     * `invoked` says whether it ran.
     */
    method Call<T>(now: real, result: Outcome<T>) returns (r: Outcome<T>, invoked: bool)
      modifies this, stats
      ensures Step(Snap(), invoked) == CallStep(Config(), old(Snap()), now, AttemptOf(result))
      ensures r == CallResult(invoked, result)
      ensures old(Valid()) ==> Valid()
    {
      ghost var s0 := Snap();
      ghost var valid0 := Valid();
      stats.totalRequests := stats.totalRequests + 1;
      if state == Open {
        if ShouldAttemptReset(now) {
          TransitionToHalfOpen();
        } else {
          if valid0 {
            CallPreservesInvariant(Config(), s0, now, AttemptOf(result));
          }
          return Raised(OpenError()), false;
        }
      }
      invoked := true;
      if result.Ok? {
        OnSuccess();
      } else if IsSubclass(result.exc.kind, expectedException) {
        OnFailure(now);
      }
      r := result;
      if valid0 {
        CallPreservesInvariant(Config(), s0, now, AttemptOf(result));
      }
    }
  }

  /**
   * The breaker's state before attempt `k` of a loop that sends attempts
   * 0 .. k-1 through it, at the given times, with the given outcomes.
   */
  function StateBefore<T>(settings: Settings, s0: Snapshot, times: nat -> real, op: nat -> Outcome<T>, k: nat): Snapshot {
    if k == 0 then s0
    else CallStep(settings, StateBefore(settings, s0, times, op, k - 1), times(k - 1), AttemptOf(op(k - 1))).after
  }

  /** The function as the retry wrapper sees it once each attempt goes through the breaker. */
  function Guarded<T>(settings: Settings, s0: Snapshot, times: nat -> real, op: nat -> Outcome<T>): nat -> Outcome<T> {
    (k: nat) =>
      CallResult(CallStep(settings, StateBefore(settings, s0, times, op, k), times(k), AttemptOf(op(k))).invoked, op(k))
  }

  lemma {:induction false} StaysOpen<T>(settings: Settings, s0: Snapshot, times: nat -> real, op: nat -> Outcome<T>,
                                       t: real, k: nat)
    requires s0.state == Open && s0.openedAt == Some(t)
    requires forall j :: 0 <= j < k ==> times(j) - t < settings.timeout
    ensures StateBefore(settings, s0, times, op, k).state == Open
    ensures StateBefore(settings, s0, times, op, k).openedAt == Some(t)
  {
    if k > 0 {
      StaysOpen(settings, s0, times, op, t, k - 1);
    }
  }

  /**
   * Retrying a breaker-guarded function (the wrapper outside, the breaker
   * inside): while the breaker stays OPEN every attempt is refused, and since
   * `CircuitBreakerError` is an `Exception` the default retry settings retry
   * each refusal. All attempts are used up, the function never runs, the
   * wrapper sleeps between them, and the breaker's error is raised in the end.
   */
  lemma RetryRetriesOpenBreaker<T>(cfg: Retry.RetryConfig, name: string, settings: Settings, s0: Snapshot,
                                   times: nat -> real, op: nat -> Outcome<T>, jitterFactor: nat -> real, t: real)
    requires cfg.maxAttempts > 0 && cfg.exceptions == [Exception]
    requires s0.state == Open && s0.openedAt == Some(t)
    requires forall j :: 0 <= j < cfg.maxAttempts ==> times(j) - t < settings.timeout
    requires Retry.SleepsAccepted(cfg, jitterFactor)
    ensures var run := Retry.RetrySpec(cfg, name, Guarded(settings, s0, times, op), jitterFactor, None);
      run.result == Raised(OpenError()) && run.calls == cfg.maxAttempts && |run.sleeps| == cfg.maxAttempts - 1
    ensures forall j :: 0 <= j < cfg.maxAttempts ==> !CallStep(settings, StateBefore(settings, s0, times, op, j), times(j), AttemptOf(op(j))).invoked
  {
    var g := Guarded(settings, s0, times, op);
    assert IsSubclass(CircuitBreakerError, Exception);
    forall j | 0 <= j < cfg.maxAttempts
      ensures !CallStep(settings, StateBefore(settings, s0, times, op, j), times(j), AttemptOf(op(j))).invoked
      ensures g(j) == Raised(OpenError())
      ensures Retry.RetriedFailure(cfg, g, j)
    {
      StaysOpen(settings, s0, times, op, t, j);
      assert IsSubclass(g(j).exc.kind, cfg.exceptions[0]);
    }
    Retry.RetryAllFail(cfg, name, g, jitterFactor, None);
  }

  /** The lower-cased refusal message lacks the letters `m`, `v`, `l` and `q`. */
  lemma OpenMessageLacks(c: char)
    requires c == 'm' || c == 'v' || c == 'l' || c == 'q'
    ensures c !in Strings.Lower(OpenMessage)
  {
    Strings.LowerAvoids(OpenMessage, c);
  }

  /** Its only `n` is its last character. */
  lemma OpenMessageLastN()
    ensures |Strings.Lower(OpenMessage)| == 23 && 'n' !in Strings.Lower(OpenMessage)[..22]
  {
    assert OpenMessage[..22] == "Circuit breaker is OPE";
    Strings.LowerAvoids(OpenMessage[..22], 'n');
    Strings.LowerPrefix(OpenMessage, 22);
  }

  /** The letters whose absence rules out each transient keyword. */
  predicate LacksKeywordLetters(low: string) {
    |low| == 23 && 'm' !in low && 'v' !in low && 'l' !in low && 'q' !in low && 'n' !in low[..22]
  }

  /** A 23-character string lacking those letters contains no transient keyword. */
  lemma NoKeywordWithoutLetters(low: string)
    requires LacksKeywordLetters(low)
    ensures forall k :: 0 <= k < |Retry.TransientKeywords| ==> !Strings.Contains(low, Retry.TransientKeywords[k])
  {
    Strings.NotContainsAbsent(low, "timeout", 2);
    Strings.NotContainsChar(low, "connection", 2, 22);
    Strings.NotContainsAbsent(low, "temporary", 2);
    Strings.NotContainsAbsent(low, "unavailable", 3);
    Strings.NotContainsAbsent(low, "rate limit", 5);
    Strings.NotContainsAbsent(low, "quota", 0);
  }

  /** The refusal message mentions no transient keyword, in any case. */
  lemma OpenMessageNoKeyword()
    ensures !Retry.HasTransientKeyword(OpenMessage)
  {
    OpenMessageLacks('m');
    OpenMessageLacks('v');
    OpenMessageLacks('l');
    OpenMessageLacks('q');
    OpenMessageLastN();
    NoKeywordWithoutLetters(Strings.Lower(OpenMessage));
  }

  /** The breaker's refusal is not classified as transient by `is_transient_error`. */
  lemma OpenErrorNotTransient()
    ensures !Retry.IsTransientError(OpenError())
  {
    OpenMessageNoKeyword();
    assert !IsSubclass(CircuitBreakerError, OSError);
    Retry.NotTransientWithoutSignals(OpenError());
  }
}
