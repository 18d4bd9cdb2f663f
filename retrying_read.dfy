/** `_read_from_host`: the circuit-breaker check, up to `max_retries + 1`
    attempts with exponential backoff plus jitter between them, and one
    health update per call.  `tries(k)` is what attempt `k` against the
    device yields and `jitter(k)` the random draw before the sleep that
    follows attempt `k`; both are inputs of the model. */
module RetryingRead {
  import opened Wrappers
  import opened MonitorTypes
  import opened HostHealth

  function Pow2(k: nat): (p: nat)
    ensures p >= 1
  {
    if k == 0 then 1 else 2 * Pow2(k - 1)
  }

  /** The delay before retry `k + 1`, before jitter: never clamped. */
  function BaseDelay(cfg: MonitorConfig, k: nat): real {
    if cfg.exponentialBackoff then cfg.retryDelay * (Pow2(k) as real) else cfg.retryDelay
  }

  /** `delay + random.uniform(0, delay * 0.2)`. */
  function RetrySleep(cfg: MonitorConfig, k: nat, u: Fraction): real {
    var d := BaseDelay(cfg, k);
    d + u * (d * 0.2)
  }

  /** The jitter adds between 0 and 20 % of the delay. */
  lemma {:induction false} SleepBounds(cfg: MonitorConfig, k: nat, u: Fraction)
    requires ConfigValid(cfg)
    ensures BaseDelay(cfg, k) <= RetrySleep(cfg, k, u) <= 1.2 * BaseDelay(cfg, k)
    ensures cfg.exponentialBackoff ==> BaseDelay(cfg, k + 1) == 2.0 * BaseDelay(cfg, k)
    ensures !cfg.exponentialBackoff ==> BaseDelay(cfg, k) == cfg.retryDelay
  {
    var d := BaseDelay(cfg, k);
    BaseDelayNonNegative(cfg, k);
    JitterBounds(d, u);
    assert RetrySleep(cfg, k, u) == d + u * (d * 0.2);
    if cfg.exponentialBackoff {
      BaseDelayDoubles(cfg, k);
    }
  }

  lemma {:induction false} BaseDelayNonNegative(cfg: MonitorConfig, k: nat)
    requires ConfigValid(cfg)
    ensures BaseDelay(cfg, k) >= 0.0
  {
    if cfg.exponentialBackoff {
      NonNegativeProduct(cfg.retryDelay, Pow2(k) as real);
    }
  }

  lemma {:induction false} BaseDelayDoubles(cfg: MonitorConfig, k: nat)
    requires cfg.exponentialBackoff
    ensures BaseDelay(cfg, k + 1) == 2.0 * BaseDelay(cfg, k)
  {
    var p := Pow2(k) as real;
    assert Pow2(k + 1) as real == 2.0 * p;
    Doubling(cfg.retryDelay, p);
  }

  lemma {:induction false} NonNegativeProduct(a: real, b: real)
    requires a >= 0.0 && b >= 0.0
    ensures a * b >= 0.0
  {
  }

  lemma {:induction false} Doubling(a: real, b: real)
    ensures a * (2.0 * b) == 2.0 * (a * b)
  {
  }

  lemma {:induction false} JitterBounds(d: real, u: real)
    requires d >= 0.0 && 0.0 <= u <= 1.0
    ensures d <= d + u * (d * 0.2) <= 1.2 * d
  {
    FractionOf(u, d * 0.2);
  }

  lemma {:induction false} FractionOf(u: real, x: real)
    requires 0.0 <= u <= 1.0 && x >= 0.0
    ensures 0.0 <= u * x <= x
  {
    NonNegativeProduct(u, x);
    NonNegativeProduct(1.0 - u, x);
    assert (1.0 - u) * x == x - u * x;
  }

  /** The sleeps after attempts `0 .. n-1`. */
  function Sleeps(cfg: MonitorConfig, jitter: nat -> Fraction, n: nat): (r: seq<real>)
    ensures |r| == n
    ensures forall i :: 0 <= i < n ==> r[i] == RetrySleep(cfg, i, jitter(i))
  {
    if n == 0 then [] else Sleeps(cfg, jitter, n - 1) + [RetrySleep(cfg, n - 1, jitter(n - 1))]
  }

  /** The first attempt in `from .. last` that succeeds, if any. */
  function FirstAnswer(tries: nat -> Attempt, from: nat, last: nat): (r: Option<nat>)
    ensures r.Some? ==> from <= r.value <= last && tries(r.value).Answer?
                        && forall j :: from <= j < r.value ==> tries(j).Fault?
    ensures r.None? ==> forall j :: from <= j <= last ==> tries(j).Fault?
    decreases last - from + 1
  {
    if from > last then None
    else if tries(from).Answer? then Some(from)
    else FirstAnswer(tries, from + 1, last)
  }

  /** The attempt loop: the outcome of the last attempt made, its index,
      and the sleeps taken. */
  datatype AttemptRun = AttemptRun(outcome: Attempt, index: nat, sleeps: seq<real>)

  function RunAttempts(cfg: MonitorConfig, tries: nat -> Attempt, jitter: nat -> Fraction): (run: AttemptRun)
    ensures run.index <= cfg.maxRetries
    ensures run.outcome == tries(run.index)
    ensures run.sleeps == Sleeps(cfg, jitter, run.index)
    ensures run.outcome.Answer? ==> forall j :: 0 <= j < run.index ==> tries(j).Fault?
    ensures run.outcome.Fault? ==> run.index == cfg.maxRetries
                                   && forall j :: 0 <= j <= cfg.maxRetries ==> tries(j).Fault?
  {
    match FirstAnswer(tries, 0, cfg.maxRetries)
    case Some(k) => AttemptRun(tries(k), k, Sleeps(cfg, jitter, k))
    case None => AttemptRun(tries(cfg.maxRetries), cfg.maxRetries, Sleeps(cfg, jitter, cfg.maxRetries))
  }

  /** The `for attempt in range(max_retries + 1)` loop of `_read_from_host`. */
  method RetryAttempts(cfg: MonitorConfig, tries: nat -> Attempt, jitter: nat -> Fraction)
    returns (run: AttemptRun)
    ensures run == RunAttempts(cfg, tries, jitter)
  {
    var sleeps: seq<real> := [];
    var last := tries(0);
    for attempt := 0 to cfg.maxRetries + 1
      invariant sleeps == Sleeps(cfg, jitter, if attempt == 0 then 0 else attempt - 1)
                          + (if 0 < attempt <= cfg.maxRetries then [RetrySleep(cfg, attempt - 1, jitter(attempt - 1))] else [])
      invariant forall j :: 0 <= j < attempt ==> tries(j).Fault?
      invariant attempt > 0 ==> last == tries(attempt - 1)
    {
      var result := tries(attempt);
      if result.Answer? {
        return AttemptRun(result, attempt, sleeps);
      }
      if attempt < cfg.maxRetries {
        sleeps := sleeps + [RetrySleep(cfg, attempt, jitter(attempt))];
      }
      last := result;
    }
    run := AttemptRun(last, cfg.maxRetries, sleeps);
  }

  /** The result `_single_read_attempt` builds for attempt `k`. */
  function AttemptResult(h: Health, cfg: MonitorConfig, k: nat, a: Attempt, now: int): ModbusResult {
    match a
    case Answer(rt, v) =>
      ModbusResult(now, h.host, h.port, cfg.testRegister, true, Some(rt), None, None, v, k)
    case Fault(et, em, rt) =>
      ModbusResult(now, h.host, h.port, cfg.testRegister, false, Some(rt), Some(et), Some(em), None, k)
  }

  /** The result returned while the breaker is open. */
  function BreakerRejection(h: Health, cfg: MonitorConfig, now: int): ModbusResult {
    ModbusResult(now, h.host, h.port, cfg.testRegister, false, None,
                 Some("circuit_breaker"), Some("Circuit breaker open"), None, 0)
  }

  /** What one `_read_from_host` call returns and leaves behind: the result,
      the host's new status, the sleeps taken, the number of attempts and
      the callback events raised (an `on_circuit_breaker` at most). */
  datatype ReadOutcome = ReadOutcome(
    result: ModbusResult, health: Health, sleeps: seq<real>, attempts: nat, events: seq<Event>)

  /** The two clock readings of one `_read_from_host` call that matter:
      `checked`, taken when the breaker is checked (and stamped on the
      rejection), and `finished`, taken after the attempts and their sleeps
      (stamped on the returned result and the host record, and the start of
      a breaker's 60 s). */
  datatype ReadClock = ReadClock(checked: int, finished: int)

  function ReadFromHost(cfg: MonitorConfig, h: Health, clock: ReadClock,
                        tries: nat -> Attempt, jitter: nat -> Fraction): ReadOutcome
  {
    match Admit(h, clock.checked)
    case Rejected => ReadOutcome(BreakerRejection(h, cfg, clock.checked), h, [], 0, [])
    case Admitted(h1) => ReadAdmitted(cfg, h1, clock.finished, tries, jitter)
  }

  /** The part of `_read_from_host` after the breaker let the read through:
      the attempts, then the success or failure update of the record. */
  function ReadAdmitted(cfg: MonitorConfig, h: Health, now: int,
                        tries: nat -> Attempt, jitter: nat -> Fraction): ReadOutcome
  {
    var run := RunAttempts(cfg, tries, jitter);
    var result := AttemptResult(h, cfg, run.index, run.outcome, now);
    if run.outcome.Answer? then
      ReadOutcome(result, AfterSuccess(h, run.outcome.responseTime, now), run.sleeps, run.index + 1, [])
    else
      var (h2, tripped) := AfterFailure(h, now, cfg.failureThreshold);
      ReadOutcome(result, h2, run.sleeps, run.index + 1,
                  if tripped then [CircuitBreakerEvent(h2.host, h2.port, h2.consecutiveFailures)] else [])
  }

  // ---------------------------------------------------------------------
  // Properties of one read

  /** An open breaker whose deadline is still ahead returns the
      "circuit_breaker" failure and makes no attempt, sleeps not at all and
      leaves the host status alone. */
  lemma {:induction false} RejectedWhileOpen(cfg: MonitorConfig, h: Health, clock: ReadClock,
                          tries: nat -> Attempt, jitter: nat -> Fraction)
    requires h.breakerOpen && h.breakerUntil.Some? && clock.checked < h.breakerUntil.value
    ensures var o := ReadFromHost(cfg, h, clock, tries, jitter);
            && !o.result.success && o.result.errorType == Some("circuit_breaker")
            && o.result.responseTime.None?
            && o.attempts == 0 && o.sleeps == [] && o.health == h && o.events == []
  {
  }

  /** An expired (or deadline-less) breaker is reset and real attempts run. */
  lemma {:induction false} ExpiredBreakerAdmits(cfg: MonitorConfig, h: Health, clock: ReadClock,
                             tries: nat -> Attempt, jitter: nat -> Fraction)
    requires h.breakerOpen && (h.breakerUntil.None? || clock.checked >= h.breakerUntil.value)
    ensures var o := ReadFromHost(cfg, h, clock, tries, jitter);
            o.attempts >= 1 && (o.result.success ==> !o.health.breakerOpen)
  {
  }

  /** At most `max_retries + 1` attempts; a success reports the index of the
      attempt that succeeded; no sleep follows the final attempt. */
  lemma {:induction false} AttemptsBounded(cfg: MonitorConfig, h: Health, clock: ReadClock,
                        tries: nat -> Attempt, jitter: nat -> Fraction)
    ensures var o := ReadFromHost(cfg, h, clock, tries, jitter);
            && o.attempts <= cfg.maxRetries + 1
            && (o.attempts > 0 ==> |o.sleeps| == o.attempts - 1)
            && (o.result.success ==> o.attempts >= 1 && o.result.retryCount == o.attempts - 1
                                     && o.result.retryCount <= cfg.maxRetries)
            && (o.attempts > 0 && !o.result.success ==> o.attempts == cfg.maxRetries + 1)
  {
  }

  /** The sleeps of one read follow the retry schedule, entry by entry. */
  lemma {:induction false} ReadSleepsFollowSchedule(cfg: MonitorConfig, h: Health, clock: ReadClock,
                                                    tries: nat -> Attempt, jitter: nat -> Fraction)
    ensures var o := ReadFromHost(cfg, h, clock, tries, jitter);
            forall i :: 0 <= i < |o.sleeps| ==> o.sleeps[i] == RetrySleep(cfg, i, jitter(i))
  {
    match Admit(h, clock.checked)
    case Rejected =>
    case Admitted(h1) =>
      assert ReadFromHost(cfg, h, clock, tries, jitter).sleeps == RunAttempts(cfg, tries, jitter).sleeps;
  }

  /** The sleep before retry `k + 1` is `retry_delay * 2^k` (or
      `retry_delay` without backoff) plus up to 20 % jitter. */
  lemma {:induction false} SleepSchedule(cfg: MonitorConfig, h: Health, clock: ReadClock,
                      tries: nat -> Attempt, jitter: nat -> Fraction, k: nat)
    requires ConfigValid(cfg)
    requires k < |ReadFromHost(cfg, h, clock, tries, jitter).sleeps|
    ensures var s := ReadFromHost(cfg, h, clock, tries, jitter).sleeps[k];
            && s == RetrySleep(cfg, k, jitter(k))
            && BaseDelay(cfg, k) <= s <= 1.2 * BaseDelay(cfg, k)
            && (cfg.exponentialBackoff ==> BaseDelay(cfg, k) == cfg.retryDelay * (Pow2(k) as real))
  {
    ReadSleepsFollowSchedule(cfg, h, clock, tries, jitter);
    ScheduledSleep(cfg, ReadFromHost(cfg, h, clock, tries, jitter).sleeps, jitter, k);
  }

  lemma {:induction false} ScheduledSleep(cfg: MonitorConfig, sleeps: seq<real>, jitter: nat -> Fraction, k: nat)
    requires ConfigValid(cfg)
    requires forall i :: 0 <= i < |sleeps| ==> sleeps[i] == RetrySleep(cfg, i, jitter(i))
    requires k < |sleeps|
    ensures sleeps[k] == RetrySleep(cfg, k, jitter(k))
    ensures BaseDelay(cfg, k) <= sleeps[k] <= 1.2 * BaseDelay(cfg, k)
    ensures cfg.exponentialBackoff ==> BaseDelay(cfg, k) == cfg.retryDelay * (Pow2(k) as real)
  {
    SleepBounds(cfg, k, jitter(k));
  }

  /** Success or failure is recorded once per call, never per attempt: an
      admitted read adds exactly one to the success or the failure total. */
  lemma {:induction false} RecordedOnce(cfg: MonitorConfig, h: Health, clock: ReadClock,
                     tries: nat -> Attempt, jitter: nat -> Fraction)
    ensures var o := ReadFromHost(cfg, h, clock, tries, jitter);
            && (o.attempts == 0 ==> o.health == h)
            && (o.attempts > 0 && o.result.success ==>
                  o.health.totalSuccesses == h.totalSuccesses + 1 && o.health.totalFailures == h.totalFailures
                  && o.health.consecutiveFailures == 0 && !o.health.breakerOpen)
            && (o.attempts > 0 && !o.result.success ==>
                  o.health.totalFailures == h.totalFailures + 1 && o.health.totalSuccesses == h.totalSuccesses
                  && o.health.consecutiveFailures == h.consecutiveFailures + 1)
  {
  }

  /** The breaker event is raised exactly when this failure opens it.  An
      admitted read always finds the breaker closed (an expired one was just
      reset), so a failed read at or above the threshold re-opens it, for
      60 s from the reading taken after the attempts and their sleeps. */
  lemma {:induction false} BreakerEventWhenOpened(cfg: MonitorConfig, h: Health, clock: ReadClock,
                               tries: nat -> Attempt, jitter: nat -> Fraction)
    ensures var o := ReadFromHost(cfg, h, clock, tries, jitter);
            && |o.events| <= 1
            && (o.events != [] <==>
                  o.attempts > 0 && !o.result.success
                  && h.consecutiveFailures + 1 >= cfg.failureThreshold)
            && (o.events != [] ==>
                  && o.health.breakerOpen
                  && o.health.breakerUntil == Some(clock.finished + BREAKER_RECOVERY_MS)
                  && o.events[0] == CircuitBreakerEvent(h.host, h.port, h.consecutiveFailures + 1))
  {
  }

  /** Which clock reading each stamp carries: a rejection is stamped when
      the breaker is checked; an admitted read stamps its result and the
      host's `last_success` or `last_failure` after its attempts. */
  lemma {:induction false} ReadStamps(cfg: MonitorConfig, h: Health, clock: ReadClock,
                                      tries: nat -> Attempt, jitter: nat -> Fraction)
    ensures var o := ReadFromHost(cfg, h, clock, tries, jitter);
            && (o.attempts == 0 ==> o.result.timestamp == clock.checked)
            && (o.attempts > 0 ==> o.result.timestamp == clock.finished)
            && (o.attempts > 0 && o.result.success ==>
                  o.health.lastSuccess == Some(clock.finished) && o.health.lastFailure == h.lastFailure)
            && (o.attempts > 0 && !o.result.success ==>
                  o.health.lastFailure == Some(clock.finished) && o.health.lastSuccess == h.lastSuccess)
  {
  }

  /** A whole read keeps the breaker invariant for the configured threshold. */
  lemma {:induction false} ReadKeepsBreakerJustified(cfg: MonitorConfig, h: Health, clock: ReadClock,
                                                     tries: nat -> Attempt, jitter: nat -> Fraction)
    requires BreakerJustified(h, cfg.failureThreshold)
    ensures BreakerJustified(ReadFromHost(cfg, h, clock, tries, jitter).health, cfg.failureThreshold)
  {
    SuccessAndAdmitKeepBreakerJustified(h, 0.0, clock.checked, cfg.failureThreshold);
    match Admit(h, clock.checked)
    case Rejected =>
    case Admitted(h1) =>
      var run := RunAttempts(cfg, tries, jitter);
      if run.outcome.Answer? {
        SuccessAndAdmitKeepBreakerJustified(h1, run.outcome.responseTime, clock.finished, cfg.failureThreshold);
      } else {
        FailureKeepsBreakerJustified(h1, clock.finished, cfg.failureThreshold);
      }
  }

  /** Each admitted read keeps the host record well formed. */
  lemma {:induction false} ReadKeepsHealthValid(cfg: MonitorConfig, h: Health, clock: ReadClock,
                             tries: nat -> Attempt, jitter: nat -> Fraction)
    requires HealthValid(h)
    ensures HealthValid(ReadFromHost(cfg, h, clock, tries, jitter).health)
    ensures ReadFromHost(cfg, h, clock, tries, jitter).health.host == h.host
    ensures ReadFromHost(cfg, h, clock, tries, jitter).health.port == h.port
  {
    AdmitValid(h, clock.checked);
    match Admit(h, clock.checked)
    case Rejected =>
    case Admitted(h1) =>
      var run := RunAttempts(cfg, tries, jitter);
      if run.outcome.Answer? {
        AfterSuccessValid(h1, run.outcome.responseTime, clock.finished);
      } else {
        AfterFailureValid(h1, clock.finished, cfg.failureThreshold);
      }
  }
}
