/** `ModbusMonitor`: the host records, counters, alternating counter,
    callback registry and running flag, updated in place.  Every method is
    proved to move the state exactly as the functions of `Dispatch`,
    `RetryingRead` and `Statistics` say.  `delivered` records the
    `callback(data)` calls made, in order. */
module Monitor {
  import opened Wrappers
  import opened MonitorTypes
  import opened HostHealth
  import opened RetryingRead
  import opened Statistics
  import opened Dispatch
  import Config

  /** `self.callbacks.get(event_type, [])`. */
  function Registered(callbacks: map<EventType, seq<Handler>>, kind: EventType): seq<Handler> {
    if kind in callbacks then callbacks[kind] else []
  }

  function ToEach(hs: seq<Handler>, ev: Event): (r: seq<Delivery>)
    ensures |r| == |hs|
    ensures forall i :: 0 <= i < |hs| ==> r[i] == Delivery(hs[i], ev)
  {
    if hs == [] then [] else ToEach(hs[..|hs| - 1], ev) + [Delivery(hs[|hs| - 1], ev)]
  }

  /** The calls `_trigger_callbacks` makes for each event in turn: every
      handler registered for the event's kind, in registration order. */
  function Deliveries(callbacks: map<EventType, seq<Handler>>, events: seq<Event>): seq<Delivery> {
    if events == [] then []
    else Deliveries(callbacks, events[..|events| - 1])
         + ToEach(Registered(callbacks, events[|events| - 1].Kind()), events[|events| - 1])
  }

  lemma {:induction false} DeliveriesAppend(callbacks: map<EventType, seq<Handler>>, a: seq<Event>, b: seq<Event>)
    ensures Deliveries(callbacks, a + b) == Deliveries(callbacks, a) + Deliveries(callbacks, b)
  {
    if b != [] {
      var b0 := b[..|b| - 1];
      assert (a + b)[..|a + b| - 1] == a + b0;
      DeliveriesAppend(callbacks, a, b0);
    } else {
      assert a + b == a;
    }
  }

  /** The calls made so far followed by those for `a` and then `b` are the
      calls made so far followed by those for `a + b`. */
  lemma {:induction false} DeliveredThen(callbacks: map<EventType, seq<Handler>>, before: seq<Delivery>, a: seq<Event>, b: seq<Event>)
    ensures before + Deliveries(callbacks, a) + Deliveries(callbacks, b) == before + Deliveries(callbacks, a + b)
  {
    DeliveriesAppend(callbacks, a, b);
    var x, y := Deliveries(callbacks, a), Deliveries(callbacks, b);
    assert before + x + y == before + (x + y);
  }

  /** Every call delivers an event to a handler registered for its kind. */
  lemma {:induction false} DeliveriesGoToRegistered(callbacks: map<EventType, seq<Handler>>, events: seq<Event>, i: int)
    requires 0 <= i < |Deliveries(callbacks, events)|
    ensures var d := Deliveries(callbacks, events)[i];
            d.event in events && d.event.Kind() in callbacks && d.handler in callbacks[d.event.Kind()]
  {
    var n := |events|;
    var prev := Deliveries(callbacks, events[..n - 1]);
    var last := events[n - 1];
    if i < |prev| {
      DeliveriesGoToRegistered(callbacks, events[..n - 1], i);
    } else {
      var hs := Registered(callbacks, last.Kind());
      assert Deliveries(callbacks, events)[i] == Delivery(hs[i - |prev|], last);
    }
  }

  /** What `get_statistics` reports for one host. */
  datatype HostSummary = HostSummary(
    host: string, port: int, available: bool, consecutiveFailures: nat, totalFailures: nat,
    totalSuccesses: nat, avgResponseTime: real, circuitBreakerOpen: bool)

  function Summary(h: Health): HostSummary {
    HostSummary(h.host, h.port, h.isAvailable, h.consecutiveFailures, h.totalFailures,
                h.totalSuccesses, h.avgResponseTime, h.breakerOpen)
  }

  datatype StatisticsReport = StatisticsReport(
    uptimeSeconds: real, totalRequests: nat, successfulRequests: nat, failedRequests: nat,
    timeoutRequests: nat, fallbackSwitches: nat, alternatingSwitches: nat, bothHostTests: nat,
    successRate: real, accessMode: string, primary: HostSummary, secondary: HostSummary)

  class ModbusMonitor {
    const config: MonitorConfig
    /** `HOST_ACCESS_MODE`, fixed for the monitor's life. */
    const accessMode: string
    /** `self.host_status['primary']` and `self.host_status['secondary']`. */
    var primary: Health
    var secondary: Health
    var stats: Stats
    var alternatingCounter: nat
    var callbacks: map<EventType, seq<Handler>>
    var delivered: seq<Delivery>
    var running: bool

    ghost predicate Valid()
      reads this
    {
      EngineValid(Engine()) && ConfigValid(config)
    }

    function Engine(): EngineState
      reads this
    {
      EngineState(primary, secondary, stats, alternatingCounter)
    }

    /** The state after a dispatcher call described by `spec`, entered with
        deliveries `before`, and the values the call returned. */
    ghost predicate Follows(spec: PollOutcome, before: seq<Delivery>, result: ModbusResult,
                            contacted: seq<HostRead>, sleeps: seq<real>)
      reads this
    {
      && Engine() == spec.engine
      && delivered == before + Deliveries(callbacks, spec.events)
      && result == spec.result && contacted == spec.contacted && sleeps == spec.sleeps
    }

    /** `ModbusMonitor.__init__`: both hosts fresh, counters zero, empty
        callback lists, not running.  `hosts` is the pair `get_active_hosts()`
        returns at that moment (`Config.HostSwitch.Active()`). */
    constructor (config: MonitorConfig, accessMode: string, hosts: Config.ActiveHosts)
      requires ConfigValid(config)
      ensures Valid()
      ensures primary == Initial(hosts.primary.host, hosts.primary.port)
      ensures secondary == Initial(hosts.secondary.host, hosts.secondary.port)
      ensures stats == INITIAL && alternatingCounter == 0
      ensures this.config == config && this.accessMode == accessMode
      ensures callbacks == map[OnResult := [], OnFallback := [], OnCircuitBreaker := [], OnError := []]
      ensures delivered == [] && !running
    {
      this.config := config;
      this.accessMode := accessMode;
      primary := Initial(hosts.primary.host, hosts.primary.port);
      secondary := Initial(hosts.secondary.host, hosts.secondary.port);
      stats := INITIAL;
      alternatingCounter := 0;
      callbacks := map[OnResult := [], OnFallback := [], OnCircuitBreaker := [], OnError := []];
      delivered := [];
      running := false;
    }

    /** `add_callback`: appends to a known event type's list; an unknown
        type is ignored (with a warning). */
    method AddCallback(eventType: string, handler: Handler) returns (added: bool)
      modifies this
      requires Valid()
      ensures Valid()
      ensures added <==> EventTypeOf(eventType).Some?
      ensures added ==> var k := EventTypeOf(eventType).value;
                        callbacks == old(callbacks)[k := Registered(old(callbacks), k) + [handler]]
      ensures !added ==> callbacks == old(callbacks)
      ensures Engine() == old(Engine()) && delivered == old(delivered) && running == old(running)
    {
      var key := EventTypeOf(eventType);
      added := key.Some?;
      if added {
        callbacks := callbacks[key.value := Registered(callbacks, key.value) + [handler]];
      }
    }

    /** `_trigger_callbacks`: calls every handler registered for the event,
        in order; a raising handler is logged and the rest still run. */
    method Trigger(ev: Event)
      modifies this
      ensures delivered == old(delivered) + Deliveries(callbacks, [ev])
      ensures Engine() == old(Engine()) && callbacks == old(callbacks) && running == old(running)
    {
      var hs := Registered(callbacks, ev.Kind());
      assert [ev][..0] == [];
      for i := 0 to |hs|
        invariant delivered == old(delivered) + ToEach(hs[..i], ev)
        invariant Engine() == old(Engine()) && callbacks == old(callbacks) && running == old(running)
      {
        assert hs[..i + 1][..i] == hs[..i];
        delivered := delivered + [Delivery(hs[i], ev)];
      }
      assert hs[..|hs|] == hs;
    }

    /** `start_monitoring`: refused while running; otherwise sets the flag
        and the start time. */
    method StartMonitoring(now: int) returns (started: bool)
      modifies this
      requires Valid()
      ensures Valid()
      ensures started <==> !old(running)
      ensures running
      ensures started ==> stats == old(stats).(startTime := Some(now))
      ensures !started ==> stats == old(stats)
      ensures primary == old(primary) && secondary == old(secondary)
      ensures alternatingCounter == old(alternatingCounter)
      ensures callbacks == old(callbacks) && delivered == old(delivered)
    {
      if running {
        return false;
      }
      running := true;
      stats := stats.(startTime := Some(now));
      started := true;
    }

    /** `stop_monitoring`: refused when not running; otherwise clears the flag. */
    method StopMonitoring() returns (stopped: bool)
      modifies this
      requires Valid()
      ensures Valid()
      ensures stopped <==> old(running)
      ensures !running
      ensures Engine() == old(Engine()) && callbacks == old(callbacks) && delivered == old(delivered)
    {
      if !running {
        return false;
      }
      running := false;
      stopped := true;
    }

    /** Stores `h` as the status of `role`. */
    method SetHost(role: Role, h: Health)
      modifies this
      ensures Engine() == WithHost(old(Engine()), role, h)
      ensures callbacks == old(callbacks) && delivered == old(delivered) && running == old(running)
    {
      if role == Primary {
        primary := h;
      } else {
        secondary := h;
      }
    }

    /** `_update_host_status_success` for the host of `role`. */
    method UpdateHostStatusSuccess(role: Role, responseTime: real, now: int)
      modifies this
      requires Valid()
      ensures Valid()
      ensures Engine() == WithHost(old(Engine()), role, AfterSuccess(HostOf(old(Engine()), role), responseTime, now))
      ensures callbacks == old(callbacks) && delivered == old(delivered) && running == old(running)
    {
      var h := if role == Primary then primary else secondary;
      AfterSuccessValid(h, responseTime, now);
      h := h.(isAvailable := true, consecutiveFailures := 0, totalSuccesses := h.totalSuccesses + 1,
              lastSuccess := Some(now));
      h := h.(responseTimes := PushWindow(h.responseTimes, responseTime));
      h := h.(avgResponseTime := Mean(h.responseTimes));
      if h.breakerOpen {
        h := h.(breakerOpen := false, breakerUntil := None);
      }
      SetHost(role, h);
    }

    /** `_update_host_status_failure` for the host of `role`: opens the
        breaker at the threshold and fires `on_circuit_breaker` when it does. */
    method UpdateHostStatusFailure(role: Role, now: int) returns (tripped: bool)
      modifies this
      requires Valid()
      ensures Valid()
      ensures var after := AfterFailure(HostOf(old(Engine()), role), now, config.failureThreshold);
              && Engine() == WithHost(old(Engine()), role, after.0)
              && tripped == after.1
              && delivered == old(delivered)
                              + Deliveries(callbacks, if tripped then [CircuitBreakerEvent(after.0.host, after.0.port, after.0.consecutiveFailures)] else [])
      ensures callbacks == old(callbacks) && running == old(running)
    {
      var h := if role == Primary then primary else secondary;
      AfterFailureValid(h, now, config.failureThreshold);
      h := h.(consecutiveFailures := h.consecutiveFailures + 1, totalFailures := h.totalFailures + 1,
              lastFailure := Some(now));
      tripped := false;
      if h.consecutiveFailures >= config.failureThreshold {
        if !h.breakerOpen {
          h := h.(breakerOpen := true, breakerUntil := Some(now + BREAKER_RECOVERY_MS));
          tripped := true;
        }
      }
      SetHost(role, h);
      if tripped {
        Trigger(CircuitBreakerEvent(h.host, h.port, h.consecutiveFailures));
      } else {
        assert ToEach([], CircuitBreakerEvent("", 0, 0)) == [];
      }
    }

    /** The circuit-breaker check at the top of `_read_from_host`: an open
        breaker past its deadline is closed; `admitted` says whether the read
        goes ahead. */
    method CheckBreaker(role: Role, now: int) returns (admitted: bool)
      modifies this
      requires Valid()
      ensures Valid()
      ensures var a := Admit(HostOf(old(Engine()), role), now);
              && admitted == a.Admitted?
              && Engine() == if admitted then WithHost(old(Engine()), role, a.health) else old(Engine())
      ensures callbacks == old(callbacks) && delivered == old(delivered) && running == old(running)
    {
      var h := if role == Primary then primary else secondary;
      AdmitValid(h, now);
      admitted := true;
      if h.breakerOpen {
        if h.breakerUntil.Some? && now < h.breakerUntil.value {
          return false;
        }
        SetHost(role, h.(breakerOpen := false, breakerUntil := None));
      } else {
        assert WithHost(Engine(), role, h) == Engine();
      }
    }

    /** `_read_from_host` once admitted: the retried attempts and the status update. */
    method ReadAdmitted(role: Role, now: int, tries: Tries, jitter: Jitters)
      returns (result: ModbusResult, attempts: nat, sleeps: seq<real>)
      modifies this
      requires Valid()
      ensures Valid()
      ensures var o := RetryingRead.ReadAdmitted(config, HostOf(old(Engine()), role), now, tries(role), jitter(role));
              && Engine() == WithHost(old(Engine()), role, o.health)
              && delivered == old(delivered) + Deliveries(callbacks, o.events)
              && result == o.result && attempts == o.attempts && sleeps == o.sleeps
      ensures callbacks == old(callbacks) && running == old(running)
    {
      var h := if role == Primary then primary else secondary;
      var run := RetryAttempts(config, tries(role), jitter(role));
      result := AttemptResult(h, config, run.index, run.outcome, now);
      attempts := run.index + 1;
      sleeps := run.sleeps;
      if run.outcome.Answer? {
        UpdateHostStatusSuccess(role, run.outcome.responseTime, now);
        assert ToEach([], CircuitBreakerEvent("", 0, 0)) == [];
      } else {
        var tripped := UpdateHostStatusFailure(role, now);
      }
    }

    /** `_read_from_host(role)`. */
    method ReadFromHost(role: Role, clock: Clocks, tries: Tries, jitter: Jitters)
      returns (result: ModbusResult, contacted: seq<HostRead>, sleeps: seq<real>)
      modifies this
      requires Valid()
      ensures Valid()
      ensures Follows(ReadRole(config, old(Engine()), role, clock, tries, jitter), old(delivered),
                      result, contacted, sleeps)
      ensures callbacks == old(callbacks) && running == old(running)
    {
      var h := if role == Primary then primary else secondary;
      var admitted := CheckBreaker(role, clock(role).checked);
      if !admitted {
        result := BreakerRejection(h, config, clock(role).checked);
        contacted := [HostRead(role, result, 0)];
        sleeps := [];
        assert ToEach([], CircuitBreakerEvent("", 0, 0)) == [];
        return;
      }
      var attempts;
      result, attempts, sleeps := ReadAdmitted(role, clock(role).finished, tries, jitter);
      contacted := [HostRead(role, result, attempts)];
    }

    /** `self.stats['fallback_switches'] += 1` or `self.stats['alternating_switches'] += 1`. */
    method CountSwitch(sw: Switch)
      modifies this
      requires Valid()
      ensures Valid()
      ensures Engine() == Bump(old(Engine()), sw)
      ensures callbacks == old(callbacks) && delivered == old(delivered) && running == old(running)
    {
      if sw == FallbackSwitch {
        stats := stats.(fallbackSwitches := stats.fallbackSwitches + 1);
      } else {
        stats := stats.(alternatingSwitches := stats.alternatingSwitches + 1);
      }
    }

    /** The role `_perform_alternating_read` starts with; advances the counter. */
    method NextStartRole() returns (role: Role)
      modifies this
      requires Valid()
      ensures Valid()
      ensures role == StartRole(old(alternatingCounter))
      ensures Engine() == old(Engine()).(alternatingCounter := old(alternatingCounter) + 1)
      ensures callbacks == old(callbacks) && delivered == old(delivered) && running == old(running)
    {
      role := if alternatingCounter % 2 == 0 then Primary else Secondary;
      alternatingCounter := alternatingCounter + 1;
    }

    /** The shared second half of `_perform_fallback_read` and
        `_perform_alternating_read`: read the host other than `from`; on an
        answer count the switch and fire `on_fallback` with `reason`. */
    method TryOtherHost(from: Role, reason: Option<string>, sw: Switch, clock: Clocks, tries: Tries, jitter: Jitters)
      returns (result: ModbusResult, contacted: seq<HostRead>, sleeps: seq<real>)
      modifies this
      requires Valid()
      ensures Valid()
      ensures Follows(Rescue(config, old(Engine()), from, reason, sw, clock, tries, jitter), old(delivered),
                      result, contacted, sleeps)
      ensures callbacks == old(callbacks) && running == old(running)
    {
      ghost var d0 := delivered;
      ghost var o := ReadRole(config, Engine(), from.Other(), clock, tries, jitter);
      var other := from.Other();
      result, contacted, sleeps := ReadFromHost(other, clock, tries, jitter);
      if result.success {
        CountSwitch(sw);
        var ev := FallbackEvent(from.Name(), other.Name(), reason);
        Trigger(ev);
        DeliveredThen(callbacks, d0, o.events, [ev]);
      }
    }

    /** A read of `first` and, when it fails, `_try_other_host`. */
    method ReadWithRescue(first: Role, sw: Switch, clock: Clocks, tries: Tries, jitter: Jitters)
      returns (result: ModbusResult, contacted: seq<HostRead>, sleeps: seq<real>)
      modifies this
      requires Valid()
      ensures Valid()
      ensures Follows(ReadOrRescue(config, old(Engine()), first, sw, clock, tries, jitter), old(delivered),
                      result, contacted, sleeps)
      ensures callbacks == old(callbacks) && running == old(running)
    {
      ghost var d0 := delivered;
      ghost var f := ReadRole(config, Engine(), first, clock, tries, jitter);
      result, contacted, sleeps := ReadFromHost(first, clock, tries, jitter);
      if !result.success {
        ghost var r := Rescue(config, f.engine, first, result.errorMessage, sw, clock, tries, jitter);
        var otherResult, oc, os := TryOtherHost(first, result.errorMessage, sw, clock, tries, jitter);
        DeliveredThen(callbacks, d0, f.events, r.events);
        contacted := contacted + oc;
        sleeps := sleeps + os;
        if otherResult.success {
          result := otherResult;
        }
      }
    }

    /** `_perform_fallback_read`. */
    method PerformFallbackRead(clock: Clocks, tries: Tries, jitter: Jitters)
      returns (result: ModbusResult, contacted: seq<HostRead>, sleeps: seq<real>)
      modifies this
      requires Valid()
      ensures Valid()
      ensures Follows(Fallback(config, old(Engine()), clock, tries, jitter), old(delivered), result, contacted, sleeps)
      ensures callbacks == old(callbacks) && running == old(running)
    {
      result, contacted, sleeps := ReadWithRescue(Primary, FallbackSwitch, clock, tries, jitter);
    }

    /** `_perform_alternating_read`. */
    method PerformAlternatingRead(clock: Clocks, tries: Tries, jitter: Jitters)
      returns (result: ModbusResult, contacted: seq<HostRead>, sleeps: seq<real>)
      modifies this
      requires Valid()
      ensures Valid()
      ensures Follows(Alternating(config, old(Engine()), clock, tries, jitter), old(delivered), result, contacted, sleeps)
      ensures callbacks == old(callbacks) && running == old(running)
    {
      ghost var e0 := Engine();
      var hostType := NextStartRole();
      AlternatingUnfolds(config, e0, Engine(), clock, tries, jitter);
      result, contacted, sleeps := ReadWithRescue(hostType, AlternatingSwitch, clock, tries, jitter);
    }

    /** `_perform_both_hosts_read`. */
    method PerformBothHostsRead(clock: Clocks, tries: Tries, jitter: Jitters)
      returns (result: ModbusResult, contacted: seq<HostRead>, sleeps: seq<real>)
      modifies this
      requires Valid()
      ensures Valid()
      ensures Follows(Both(config, old(Engine()), clock, tries, jitter), old(delivered), result, contacted, sleeps)
      ensures callbacks == old(callbacks) && running == old(running)
    {
      ghost var d0 := delivered;
      stats := stats.(bothHostTests := stats.bothHostTests + 1);
      ghost var p := ReadRole(config, Engine(), Primary, clock, tries, jitter);
      var primaryResult, pc, ps := ReadFromHost(Primary, clock, tries, jitter);
      ghost var s := ReadRole(config, p.engine, Secondary, clock, tries, jitter);
      var secondaryResult, sc, ss := ReadFromHost(Secondary, clock, tries, jitter);
      DeliveredThen(callbacks, d0, p.events, s.events);
      contacted := pc + sc;
      sleeps := ps + ss;
      if primaryResult.success && secondaryResult.success {
        if primaryResult.responseTime.GetOr(0.0) <= secondaryResult.responseTime.GetOr(0.0) {
          result := primaryResult;
        } else {
          result := secondaryResult;
        }
      } else if primaryResult.success {
        result := primaryResult;
      } else if secondaryResult.success {
        result := secondaryResult;
      } else {
        result := primaryResult;
      }
    }

    /** `_perform_modbus_read`. */
    method PerformModbusRead(clock: Clocks, tries: Tries, jitter: Jitters)
      returns (result: ModbusResult, contacted: seq<HostRead>, sleeps: seq<real>)
      modifies this
      requires Valid()
      ensures Valid()
      ensures Follows(Dispatch.PerformModbusRead(config, accessMode, old(Engine()), clock, tries, jitter),
                      old(delivered), result, contacted, sleeps)
      ensures callbacks == old(callbacks) && running == old(running)
    {
      if accessMode == "fallback" {
        result, contacted, sleeps := PerformFallbackRead(clock, tries, jitter);
      } else if accessMode == "alternating" {
        result, contacted, sleeps := PerformAlternatingRead(clock, tries, jitter);
      } else if accessMode == "both" {
        result, contacted, sleeps := PerformBothHostsRead(clock, tries, jitter);
      } else if accessMode == "primary_only" {
        result, contacted, sleeps := ReadFromHost(Primary, clock, tries, jitter);
      } else if accessMode == "secondary_only" {
        result, contacted, sleeps := ReadFromHost(Secondary, clock, tries, jitter);
      } else {
        result, contacted, sleeps := PerformFallbackRead(clock, tries, jitter);
      }
    }

    /** One pass of `_monitor_loop` with the breaker result reported like
        any failed read (see `Dispatch.Poll`); returns the seconds the loop
        then waits. */
    method MonitorStep(clock: Clocks, tries: Tries, jitter: Jitters, variation: real)
      returns (result: ModbusResult, wait: real)
      modifies this
      requires Valid() && running
      ensures Valid()
      ensures var spec := Poll(config, accessMode, old(Engine()), clock, tries, jitter, variation);
              && Engine() == spec.engine
              && delivered == old(delivered) + Deliveries(callbacks, spec.events)
              && result == spec.result && wait == spec.wait
      ensures callbacks == old(callbacks) && running
    {
      ghost var e0 := Engine();
      var nextInterval := Config.RandomInterval(variation);
      var contacted, sleeps;
      result, contacted, sleeps := PerformModbusRead(clock, tries, jitter);
      ghost var r := Dispatch.PerformModbusRead(config, accessMode, e0, clock, tries, jitter);
      stats := UpdateStatistics(stats, result);
      Trigger(ResultEvent(result));
      DeliveredThen(callbacks, old(delivered), r.events, [ResultEvent(result)]);
      wait := nextInterval;
    }

    /** `get_statistics` at time `now`. */
    method GetStatistics(now: int) returns (report: StatisticsReport)
      requires Valid()
      ensures report.totalRequests == report.successfulRequests + report.failedRequests
      ensures report.timeoutRequests <= report.failedRequests
      ensures 0.0 <= report.successRate <= 100.0
      ensures report.successRate == SuccessRate(stats)
      ensures report.uptimeSeconds == (match stats.startTime
                                       case Some(t) => (now - t) as real / 1000.0
                                       case None => 0.0)
      ensures report.accessMode == accessMode
      ensures report.primary == Summary(primary) && report.secondary == Summary(secondary)
      ensures report.totalRequests == stats.totalRequests && report.successfulRequests == stats.successfulRequests
      ensures report.failedRequests == stats.failedRequests && report.timeoutRequests == stats.timeoutRequests
      ensures report.fallbackSwitches == stats.fallbackSwitches
      ensures report.alternatingSwitches == stats.alternatingSwitches
      ensures report.bothHostTests == stats.bothHostTests
    {
      SuccessRateBounds(stats);
      var uptime := 0.0;
      if stats.startTime.Some? {
        uptime := (now - stats.startTime.value) as real / 1000.0;
      }
      var total := if stats.totalRequests < 1 then 1 else stats.totalRequests;
      report := StatisticsReport(
        uptime, stats.totalRequests, stats.successfulRequests, stats.failedRequests,
        stats.timeoutRequests, stats.fallbackSwitches, stats.alternatingSwitches, stats.bothHostTests,
        (stats.successfulRequests as real / total as real) * 100.0, accessMode,
        Summary(primary), Summary(secondary));
    }
  }
}
