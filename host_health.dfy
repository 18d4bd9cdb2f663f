/** The `HostStatus` record and the transitions the monitor applies to it:
    `_update_host_status_success`, `_update_host_status_failure` and the
    circuit-breaker admission check at the top of `_read_from_host`.  The
    record is a value here; the monitor holds one per role and replaces it
    by the transition's result. */
module HostHealth {
  import opened Wrappers

  /** `deque(maxlen=100)`. */
  const WINDOW: nat := 100
  /** `timedelta(seconds=60)`, hard-coded where the breaker opens. */
  const BREAKER_RECOVERY_MS: int := 60000

  datatype Health = Health(
    host: string,
    port: int,
    isAvailable: bool,
    consecutiveFailures: nat,
    totalFailures: nat,
    totalSuccesses: nat,
    lastSuccess: Option<int>,
    lastFailure: Option<int>,
    avgResponseTime: real,
    responseTimes: seq<real>,
    breakerOpen: bool,
    breakerUntil: Option<int>)

  /** A fresh `HostStatus(host, port)`. */
  function Initial(host: string, port: int): (h: Health)
    ensures HealthValid(h) && !h.breakerOpen
  {
    Health(host, port, true, 0, 0, 0, None, None, 0.0, [], false, None)
  }

  // ---------------------------------------------------------------------
  // The latency window

  /** The last `n` elements of `s` (all of them if there are fewer). */
  function LastN<T>(s: seq<T>, n: nat): (r: seq<T>)
    ensures |r| == if |s| <= n then |s| else n
  {
    if |s| <= n then s else s[|s| - n..]
  }

  /** `response_times.append(x)` on a deque bounded by WINDOW. */
  function PushWindow(w: seq<real>, x: real): (r: seq<real>)
    ensures |r| <= WINDOW
    ensures |r| > 0 && r[|r| - 1] == x
  {
    LastN(w + [x], WINDOW)
  }

  /** Pushing onto the window of a history keeps the window of the longer
      history: the deque always holds the latest WINDOW latencies. */
  lemma {:induction false} WindowKeepsLatest(history: seq<real>, x: real)
    ensures PushWindow(LastN(history, WINDOW), x) == LastN(history + [x], WINDOW)
  {
    if |history| > WINDOW {
      var w := LastN(history, WINDOW);
      assert (w + [x])[1..] == (history + [x])[|history| + 1 - WINDOW..];
    }
  }

  function Sum(s: seq<real>): real {
    if s == [] then 0.0 else Sum(s[..|s| - 1]) + s[|s| - 1]
  }

  /** `sum(response_times) / len(response_times)`. */
  function Mean(s: seq<real>): real
    requires |s| > 0
  {
    Sum(s) / (|s| as real)
  }

  lemma {:induction false} SumBounds(s: seq<real>, lo: real, hi: real)
    requires forall i :: 0 <= i < |s| ==> lo <= s[i] <= hi
    ensures (|s| as real) * lo <= Sum(s) <= (|s| as real) * hi
  {
    if s != [] {
      SumBounds(s[..|s| - 1], lo, hi);
    }
  }

  /** The average lies between the smallest and the largest latency kept. */
  lemma {:induction false} MeanBounds(s: seq<real>, lo: real, hi: real)
    requires |s| > 0
    requires forall i :: 0 <= i < |s| ==> lo <= s[i] <= hi
    ensures lo <= Mean(s) <= hi
  {
    SumBounds(s, lo, hi);
    var n := |s| as real;
    assert Sum(s) / n >= (n * lo) / n;
    assert Sum(s) / n <= (n * hi) / n;
  }

  // ---------------------------------------------------------------------
  // Invariant and transitions

  function Min(a: nat, b: nat): nat { if a <= b then a else b }

  /** What holds of every `HostStatus` the monitor produces. */
  predicate HealthValid(h: Health) {
    && h.isAvailable
    && |h.responseTimes| == Min(h.totalSuccesses, WINDOW)
    && h.avgResponseTime == (if h.responseTimes == [] then 0.0 else Mean(h.responseTimes))
    && (h.breakerOpen <==> h.breakerUntil.Some?)
    && h.consecutiveFailures <= h.totalFailures
    && (h.lastSuccess.None? <==> h.totalSuccesses == 0)
    && (h.lastFailure.None? <==> h.totalFailures == 0)
  }

  /** `_update_host_status_success` at time `now` with latency `rt`. */
  function AfterSuccess(h: Health, rt: real, now: int): (r: Health)
    ensures r.consecutiveFailures == 0
    ensures r.totalSuccesses == h.totalSuccesses + 1
    ensures r.totalFailures == h.totalFailures
    ensures !r.breakerOpen && r.breakerUntil.None?
    ensures r.lastSuccess == Some(now) && r.lastFailure == h.lastFailure
    ensures r.responseTimes == LastN(h.responseTimes + [rt], WINDOW)
    ensures r.avgResponseTime == Mean(r.responseTimes)
    ensures r.host == h.host && r.port == h.port
  {
    var w := PushWindow(h.responseTimes, rt);
    h.(isAvailable := true, consecutiveFailures := 0, totalSuccesses := h.totalSuccesses + 1,
       lastSuccess := Some(now), responseTimes := w, avgResponseTime := Mean(w),
       breakerOpen := false, breakerUntil := None)
  }

  /** `_update_host_status_failure` at time `now`: the new status and
      whether the breaker was opened (and `on_circuit_breaker` fired). */
  function AfterFailure(h: Health, now: int, threshold: int): (r: (Health, bool))
    ensures r.0.consecutiveFailures == h.consecutiveFailures + 1
    ensures r.0.totalFailures == h.totalFailures + 1
    ensures r.0.totalSuccesses == h.totalSuccesses
    ensures r.0.lastFailure == Some(now) && r.0.lastSuccess == h.lastSuccess
    ensures r.0.responseTimes == h.responseTimes && r.0.avgResponseTime == h.avgResponseTime
    ensures r.1 <==> h.consecutiveFailures + 1 >= threshold && !h.breakerOpen
    ensures r.1 ==> r.0.breakerOpen && r.0.breakerUntil == Some(now + BREAKER_RECOVERY_MS)
    ensures !r.1 ==> r.0.breakerOpen == h.breakerOpen && r.0.breakerUntil == h.breakerUntil
    ensures r.0.host == h.host && r.0.port == h.port && r.0.isAvailable == h.isAvailable
  {
    var h1 := h.(consecutiveFailures := h.consecutiveFailures + 1,
                 totalFailures := h.totalFailures + 1, lastFailure := Some(now));
    if h1.consecutiveFailures >= threshold && !h1.breakerOpen then
      (h1.(breakerOpen := true, breakerUntil := Some(now + BREAKER_RECOVERY_MS)), true)
    else
      (h1, false)
  }

  /** The breaker check of `_read_from_host`. */
  datatype Admission = Rejected | Admitted(health: Health)

  /** An open breaker whose deadline lies in the future rejects the read;
      otherwise an open breaker is closed and the read goes ahead. */
  function Admit(h: Health, now: int): (a: Admission)
    ensures a.Rejected? <==> h.breakerOpen && h.breakerUntil.Some? && now < h.breakerUntil.value
    ensures a.Admitted? ==> !a.health.breakerOpen
    ensures a.Admitted? && !h.breakerOpen ==> a.health == h
    ensures a.Admitted? && h.breakerOpen ==> a.health == h.(breakerOpen := false, breakerUntil := None)
  {
    if h.breakerOpen then
      if h.breakerUntil.Some? && now < h.breakerUntil.value then Rejected
      else Admitted(h.(breakerOpen := false, breakerUntil := None))
    else Admitted(h)
  }

  lemma {:induction false} AfterSuccessValid(h: Health, rt: real, now: int)
    requires HealthValid(h)
    ensures HealthValid(AfterSuccess(h, rt, now))
  {
  }

  lemma {:induction false} AfterFailureValid(h: Health, now: int, threshold: int)
    requires HealthValid(h)
    ensures HealthValid(AfterFailure(h, now, threshold).0)
  {
  }

  lemma {:induction false} AdmitValid(h: Health, now: int)
    requires HealthValid(h)
    ensures Admit(h, now).Admitted? ==> HealthValid(Admit(h, now).health)
  {
  }

  /** The breaker invariant: an open breaker has seen at least `threshold`
      failures in a row since the last success. */
  predicate BreakerJustified(h: Health, threshold: int) {
    h.breakerOpen ==> h.consecutiveFailures >= threshold
  }

  /** A success closes the breaker and an admission leaves it closed or
      untouched, so both keep the breaker invariant. */
  lemma {:induction false} SuccessAndAdmitKeepBreakerJustified(h: Health, rt: real, now: int, threshold: int)
    requires BreakerJustified(h, threshold)
    ensures BreakerJustified(AfterSuccess(h, rt, now), threshold)
    ensures Admit(h, now).Admitted? ==> BreakerJustified(Admit(h, now).health, threshold)
  {
  }

  /** A failure only adds to the run of failures, and opens the breaker only
      once that run reaches the threshold. */
  lemma {:induction false} FailureKeepsBreakerJustified(h: Health, now: int, threshold: int)
    requires BreakerJustified(h, threshold)
    ensures BreakerJustified(AfterFailure(h, now, threshold).0, threshold)
  {
  }

  /** The breaker fires at most once per opening: while it is open, further
      failures neither fire it again nor move its deadline. */
  lemma {:induction false} OpenBreakerDoesNotRefire(h: Health, now: int, threshold: int)
    requires h.breakerOpen
    ensures !AfterFailure(h, now, threshold).1
    ensures AfterFailure(h, now, threshold).0.breakerUntil == h.breakerUntil
  {
  }

  /** Once opened at `now`, the breaker rejects every read strictly before
      `now + 60 s` and admits (and closes) from then on. */
  lemma {:induction false} BreakerWindow(h: Health, now: int, threshold: int, later: int)
    requires AfterFailure(h, now, threshold).1
    ensures Admit(AfterFailure(h, now, threshold).0, later).Rejected? <==> later < now + BREAKER_RECOVERY_MS
  {
  }

  /** The average over a window of latencies between `lo` and `hi` stays
      between them. */
  lemma {:induction false} AverageWithinLatencies(h: Health, rt: real, now: int, lo: real, hi: real)
    requires forall i :: 0 <= i < |h.responseTimes| ==> lo <= h.responseTimes[i] <= hi
    requires lo <= rt <= hi
    ensures lo <= AfterSuccess(h, rt, now).avgResponseTime <= hi
  {
    var w := AfterSuccess(h, rt, now).responseTimes;
    var full := h.responseTimes + [rt];
    forall i | 0 <= i < |w|
      ensures lo <= w[i] <= hi
    {
      assert w[i] == full[i + |full| - |w|];
    }
    MeanBounds(w, lo, hi);
  }
}
