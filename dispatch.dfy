/** The access-mode dispatcher of the monitor (`_perform_modbus_read` and
    the fallback, alternating and both-hosts reads) and one pass of the
    monitoring loop, as functions of the monitor's state.  The
    `ModbusMonitor` class is proved to follow them. */
module Dispatch {
  import opened Wrappers
  import opened MonitorTypes
  import opened HostHealth
  import opened RetryingRead
  import opened Statistics
  import Config

  datatype AccessMode = FallbackMode | AlternatingMode | BothMode | PrimaryOnly | SecondaryOnly

  /** The branch `_perform_modbus_read` takes for `HOST_ACCESS_MODE`; any
      other string falls back to the fallback read. */
  function ModeOf(mode: string): (m: AccessMode)
    ensures mode !in Config.MODE_NAMES ==> m == FallbackMode
    ensures m == AlternatingMode <==> mode == "alternating"
    ensures m == BothMode <==> mode == "both"
    ensures m == PrimaryOnly <==> mode == "primary_only"
    ensures m == SecondaryOnly <==> mode == "secondary_only"
  {
    if mode == "fallback" then FallbackMode
    else if mode == "alternating" then AlternatingMode
    else if mode == "both" then BothMode
    else if mode == "primary_only" then PrimaryOnly
    else if mode == "secondary_only" then SecondaryOnly
    else FallbackMode
  }

  /** The monitor's state that a poll reads and changes. */
  datatype EngineState = EngineState(primary: Health, secondary: Health, stats: Stats, alternatingCounter: nat)

  predicate EngineValid(e: EngineState) {
    HealthValid(e.primary) && HealthValid(e.secondary) && StatsValid(e.stats)
  }

  function HostOf(e: EngineState, role: Role): Health {
    if role == Primary then e.primary else e.secondary
  }

  function WithHost(e: EngineState, role: Role, h: Health): (r: EngineState)
    ensures HostOf(r, role) == h && HostOf(r, role.Other()) == HostOf(e, role.Other())
    ensures r.stats == e.stats && r.alternatingCounter == e.alternatingCounter
  {
    if role == Primary then e.(primary := h) else e.(secondary := h)
  }

  /** What the device does: attempt `k` against the host in `role`, and the
      jitter draw after it. */
  type Tries = Role -> nat -> Attempt
  type Jitters = Role -> nat -> Fraction

  /** The clock readings of the read of the host in `role` (each host is
      read at most once per pass, see `ReadsPerPass`). */
  type Clocks = Role -> ReadClock

  /** One `_read_from_host(role)` call, as seen by the dispatcher. */
  datatype HostRead = HostRead(role: Role, result: ModbusResult, attempts: nat)

  /** A read through the dispatcher: the result returned, the new state, the
      hosts read in order, the sleeps and the callback events in order. */
  datatype PollOutcome = PollOutcome(
    result: ModbusResult, engine: EngineState, contacted: seq<HostRead>, sleeps: seq<real>, events: seq<Event>)

  function Roles(contacted: seq<HostRead>): (r: seq<Role>)
    ensures |r| == |contacted|
    ensures forall i :: 0 <= i < |contacted| ==> r[i] == contacted[i].role
  {
    if contacted == [] then [] else [contacted[0].role] + Roles(contacted[1..])
  }

  function ReadRole(cfg: MonitorConfig, e: EngineState, role: Role, clock: Clocks,
                    tries: Tries, jitter: Jitters): (r: PollOutcome)
    ensures |r.contacted| == 1 && r.contacted[0].role == role && r.contacted[0].result == r.result
    ensures HostOf(r.engine, role.Other()) == HostOf(e, role.Other())
    ensures r.engine.stats == e.stats && r.engine.alternatingCounter == e.alternatingCounter
  {
    var o := RetryingRead.ReadFromHost(cfg, HostOf(e, role), clock(role), tries(role), jitter(role));
    PollOutcome(o.result, WithHost(e, role, o.health), [HostRead(role, o.result, o.attempts)], o.sleeps, o.events)
  }

  /** The mode counter a rescued read increments. */
  datatype Switch = FallbackSwitch | AlternatingSwitch

  /** `self.stats['fallback_switches'] += 1` or `self.stats['alternating_switches'] += 1`. */
  function Bump(e: EngineState, sw: Switch): EngineState {
    match sw
    case FallbackSwitch => e.(stats := e.stats.(fallbackSwitches := e.stats.fallbackSwitches + 1))
    case AlternatingSwitch => e.(stats := e.stats.(alternatingSwitches := e.stats.alternatingSwitches + 1))
  }

  /** The second half of the fallback and alternating reads, once the read of
      `from` failed with `reason`: the other host is read; if it answers, the
      switch is counted and `on_fallback` fires from `from` to it. */
  function Rescue(cfg: MonitorConfig, e: EngineState, from: Role, reason: Option<string>, sw: Switch,
                  clock: Clocks, tries: Tries, jitter: Jitters): PollOutcome {
    var o := ReadRole(cfg, e, from.Other(), clock, tries, jitter);
    if o.result.success then
      o.(engine := Bump(o.engine, sw),
         events := o.events + [FallbackEvent(from.Name(), from.Other().Name(), reason)])
    else o
  }

  /** A failed read `first` followed by its rescue `second`: the rescuer's
      answer if it has one, else `first`'s failure. */
  function Then(first: PollOutcome, second: PollOutcome): PollOutcome {
    PollOutcome(if second.result.success then second.result else first.result, second.engine,
                first.contacted + second.contacted, first.sleeps + second.sleeps, first.events + second.events)
  }

  /** A read of `first`, and when it fails the rescue through the other
      host: the shape shared by the fallback and alternating modes. */
  function ReadOrRescue(cfg: MonitorConfig, e: EngineState, first: Role, sw: Switch,
                        clock: Clocks, tries: Tries, jitter: Jitters): PollOutcome {
    var f := ReadRole(cfg, e, first, clock, tries, jitter);
    if f.result.success then f
    else Then(f, Rescue(cfg, f.engine, first, f.result.errorMessage, sw, clock, tries, jitter))
  }

  /** `_perform_fallback_read`. */
  function Fallback(cfg: MonitorConfig, e: EngineState, clock: Clocks, tries: Tries, jitter: Jitters): PollOutcome {
    ReadOrRescue(cfg, e, Primary, FallbackSwitch, clock, tries, jitter)
  }

  /** The host an alternating read starts with. */
  function StartRole(counter: nat): Role {
    if counter % 2 == 0 then Primary else Secondary
  }

  /** `_perform_alternating_read`. */
  function Alternating(cfg: MonitorConfig, e: EngineState, clock: Clocks, tries: Tries, jitter: Jitters): PollOutcome {
    ReadOrRescue(cfg, e.(alternatingCounter := e.alternatingCounter + 1), StartRole(e.alternatingCounter),
                 AlternatingSwitch, clock, tries, jitter)
  }

  /** An alternating pass is a pass with rescue that starts at the role the
      counter picks, on the engine whose counter has moved on. */
  lemma AlternatingUnfolds(cfg: MonitorConfig, e: EngineState, e': EngineState, clock: Clocks, tries: Tries, jitter: Jitters)
    requires e' == e.(alternatingCounter := e.alternatingCounter + 1)
    ensures Alternating(cfg, e, clock, tries, jitter)
            == ReadOrRescue(cfg, e', StartRole(e.alternatingCounter), AlternatingSwitch, clock, tries, jitter)
  {
  }

  /** `primary_result.response_time <= secondary_result.response_time`. */
  predicate NoSlower(a: ModbusResult, b: ModbusResult) {
    a.responseTime.GetOr(0.0) <= b.responseTime.GetOr(0.0)
  }

  /** The result `_perform_both_hosts_read` picks. */
  function Best(p: ModbusResult, s: ModbusResult): ModbusResult {
    if p.success && s.success then (if NoSlower(p, s) then p else s)
    else if p.success then p
    else if s.success then s
    else p
  }

  /** `_perform_both_hosts_read`. */
  function Both(cfg: MonitorConfig, e: EngineState, clock: Clocks, tries: Tries, jitter: Jitters): PollOutcome {
    var e1 := e.(stats := e.stats.(bothHostTests := e.stats.bothHostTests + 1));
    var p := ReadRole(cfg, e1, Primary, clock, tries, jitter);
    var s := ReadRole(cfg, p.engine, Secondary, clock, tries, jitter);
    PollOutcome(Best(p.result, s.result), s.engine, p.contacted + s.contacted, p.sleeps + s.sleeps, p.events + s.events)
  }

  /** `_perform_modbus_read`. */
  function PerformModbusRead(cfg: MonitorConfig, mode: string, e: EngineState, clock: Clocks,
                             tries: Tries, jitter: Jitters): PollOutcome {
    match ModeOf(mode)
    case FallbackMode => Fallback(cfg, e, clock, tries, jitter)
    case AlternatingMode => Alternating(cfg, e, clock, tries, jitter)
    case BothMode => Both(cfg, e, clock, tries, jitter)
    case PrimaryOnly => ReadRole(cfg, e, Primary, clock, tries, jitter)
    case SecondaryOnly => ReadRole(cfg, e, Secondary, clock, tries, jitter)
  }

  // ---------------------------------------------------------------------
  // One pass of `_monitor_loop`

  /** One pass of the loop: the read, the callback events it raised in
      order (ending with `on_result`, or `on_error` when the pass raised),
      and how long the loop then waits, in seconds. */
  datatype StepOutcome = StepOutcome(
    result: ModbusResult, engine: EngineState, contacted: seq<HostRead>, sleeps: seq<real>,
    events: seq<Event>, wait: real)

  /** The loop body with the breaker result reported like any other failed
      read: statistics are updated, `on_result` fires and the loop waits
      `get_random_interval()` seconds (`variation` is the uniform draw). */
  function Poll(cfg: MonitorConfig, mode: string, e: EngineState, clock: Clocks,
                tries: Tries, jitter: Jitters, variation: real): StepOutcome {
    Processed(PerformModbusRead(cfg, mode, e, clock, tries, jitter), variation)
  }

  /** `_process_result` and the wait after it, applied to a finished read. */
  function Processed(r: PollOutcome, variation: real): StepOutcome {
    StepOutcome(r.result, r.engine.(stats := UpdateStatistics(r.engine.stats, r.result)),
                r.contacted, r.sleeps, r.events + [ResultEvent(r.result)], Config.RandomInterval(variation))
  }

  /** Whether the log messages of the pass format a missing response time
      with `:.1f` and so raise `TypeError`: `_process_result` formats the
      returned result; the both-hosts read formats both results first. */
  predicate FormatRaises(m: AccessMode, r: PollOutcome) {
    r.result.responseTime.None?
    || (m == BothMode && exists i :: 0 <= i < |r.contacted| && r.contacted[i].result.responseTime.None?)
  }

  /** The loop body as written: when formatting raises, the exception skips
      the statistics update and `on_result`, fires `on_error` and sleeps 5 s;
      the host updates and mode counters made by the read stay. */
  function PollAsWritten(cfg: MonitorConfig, mode: string, e: EngineState, clock: Clocks,
                         tries: Tries, jitter: Jitters, variation: real): StepOutcome {
    var r := PerformModbusRead(cfg, mode, e, clock, tries, jitter);
    if FormatRaises(ModeOf(mode), r) then
      StepOutcome(r.result, r.engine, r.contacted, r.sleeps, r.events + [ErrorEvent("TypeError")], 5.0)
    else
      Poll(cfg, mode, e, clock, tries, jitter, variation)
  }

  // ---------------------------------------------------------------------
  // Properties of the modes

  /** Fallback: a primary success never contacts the secondary. */
  lemma {:induction false} FallbackPrimarySuccess(cfg: MonitorConfig, e: EngineState, clock: Clocks, tries: Tries, jitter: Jitters)
    requires ReadRole(cfg, e, Primary, clock, tries, jitter).result.success
    ensures var r := Fallback(cfg, e, clock, tries, jitter);
            && r == ReadRole(cfg, e, Primary, clock, tries, jitter)
            && Roles(r.contacted) == [Primary]
            && r.engine.secondary == e.secondary && r.engine.stats == e.stats
  {
  }

  /** Fallback: the secondary rescues a failed primary read; the switch is
      counted once and reported with the primary's error message. */
  lemma {:induction false} FallbackRescue(cfg: MonitorConfig, e: EngineState, clock: Clocks, tries: Tries, jitter: Jitters)
    requires !ReadRole(cfg, e, Primary, clock, tries, jitter).result.success
    requires ReadRole(cfg, ReadRole(cfg, e, Primary, clock, tries, jitter).engine, Secondary, clock, tries, jitter).result.success
    ensures var p := ReadRole(cfg, e, Primary, clock, tries, jitter);
            var s := ReadRole(cfg, p.engine, Secondary, clock, tries, jitter);
            var r := Fallback(cfg, e, clock, tries, jitter);
            && r.result == s.result && r.result.success
            && Roles(r.contacted) == [Primary, Secondary]
            && r.engine.stats.fallbackSwitches == e.stats.fallbackSwitches + 1
            && r.engine.stats.alternatingSwitches == e.stats.alternatingSwitches
            && r.events[|r.events| - 1] == FallbackEvent("primary", "secondary", p.result.errorMessage)
  {
  }

  /** Fallback: when both fail, the primary's result is returned and no
      switch is counted. */
  lemma {:induction false} FallbackDoubleFailure(cfg: MonitorConfig, e: EngineState, clock: Clocks, tries: Tries, jitter: Jitters)
    requires !ReadRole(cfg, e, Primary, clock, tries, jitter).result.success
    requires !ReadRole(cfg, ReadRole(cfg, e, Primary, clock, tries, jitter).engine, Secondary, clock, tries, jitter).result.success
    ensures var r := Fallback(cfg, e, clock, tries, jitter);
            && r.result == ReadRole(cfg, e, Primary, clock, tries, jitter).result
            && !r.result.success
            && r.engine.stats == e.stats
            && Roles(r.contacted) == [Primary, Secondary]
  {
  }

  /** The fallback read never counts anything but `fallback_switches`, and
      that by at most one, exactly when the secondary rescued the read. */
  lemma {:induction false} FallbackCounters(cfg: MonitorConfig, e: EngineState, clock: Clocks, tries: Tries, jitter: Jitters)
    ensures var r := Fallback(cfg, e, clock, tries, jitter);
            && r.engine.stats.(fallbackSwitches := 0) == e.stats.(fallbackSwitches := 0)
            && r.engine.alternatingCounter == e.alternatingCounter
            && (r.engine.stats.fallbackSwitches == e.stats.fallbackSwitches + 1 <==>
                  Roles(r.contacted) == [Primary, Secondary] && r.result.success)
            && (r.engine.stats.fallbackSwitches != e.stats.fallbackSwitches + 1 ==>
                  r.engine.stats.fallbackSwitches == e.stats.fallbackSwitches)
            && (r.result.success ==> r.result == r.contacted[|r.contacted| - 1].result)
            && (!r.result.success ==> r.result == r.contacted[0].result)
  {
  }

  /** Fallback: the secondary's breaker is checked against the clock reading
      taken when the secondary is read, after the primary's retries; a
      deadline that has passed by then lets the secondary be tried. */
  lemma {:induction false} FallbackChecksSecondaryLate(cfg: MonitorConfig, e: EngineState, clock: Clocks,
                                                       tries: Tries, jitter: Jitters)
    requires !ReadRole(cfg, e, Primary, clock, tries, jitter).result.success
    requires e.secondary.breakerOpen && e.secondary.breakerUntil.Some?
    requires clock(Secondary).checked >= e.secondary.breakerUntil.value
    ensures var r := Fallback(cfg, e, clock, tries, jitter);
            |r.contacted| == 2 && r.contacted[1].role == Secondary && r.contacted[1].attempts >= 1
  {
    var p := ReadRole(cfg, e, Primary, clock, tries, jitter);
    assert p.engine.secondary == e.secondary;
    ExpiredBreakerAdmits(cfg, e.secondary, clock(Secondary), tries(Secondary), jitter(Secondary));
  }

  /** Any unlisted access mode behaves as fallback. */
  lemma {:induction false} UnknownModeIsFallback(cfg: MonitorConfig, mode: string, e: EngineState, clock: Clocks,
                              tries: Tries, jitter: Jitters)
    requires mode !in Config.MODE_NAMES
    ensures PerformModbusRead(cfg, mode, e, clock, tries, jitter) == Fallback(cfg, e, clock, tries, jitter)
  {
  }

  /** The fixed modes read only their one host. */
  lemma {:induction false} FixedModesReadOneHost(cfg: MonitorConfig, e: EngineState, clock: Clocks, tries: Tries, jitter: Jitters)
    ensures var r := PerformModbusRead(cfg, "primary_only", e, clock, tries, jitter);
            Roles(r.contacted) == [Primary] && r.engine.secondary == e.secondary && r.engine.stats == e.stats
    ensures var r := PerformModbusRead(cfg, "secondary_only", e, clock, tries, jitter);
            Roles(r.contacted) == [Secondary] && r.engine.primary == e.primary && r.engine.stats == e.stats
  {
  }

  /** Alternating: the counter advances on every call; an even counter
      starts with the primary, an odd one with the secondary; the
      switch counter moves only when the other host rescues the read; a
      double failure returns the starting host's result. */
  lemma {:induction false} AlternatingBehaviour(cfg: MonitorConfig, e: EngineState, clock: Clocks, tries: Tries, jitter: Jitters)
    ensures var r := Alternating(cfg, e, clock, tries, jitter);
            var first := if e.alternatingCounter % 2 == 0 then Primary else Secondary;
            && r.engine.alternatingCounter == e.alternatingCounter + 1
            && r.contacted[0].role == first
            && (r.contacted[0].result.success ==> Roles(r.contacted) == [first] && r.result == r.contacted[0].result)
            && (!r.contacted[0].result.success ==> Roles(r.contacted) == [first, first.Other()])
            && (r.engine.stats.alternatingSwitches ==
                  e.stats.alternatingSwitches + (if |r.contacted| == 2 && r.result.success then 1 else 0))
            && r.engine.stats.fallbackSwitches == e.stats.fallbackSwitches
            && (!r.result.success ==> r.result == r.contacted[0].result)
  {
    var e1 := e.(alternatingCounter := e.alternatingCounter + 1);
    AlternatingUnfolds(cfg, e, e1, clock, tries, jitter);
    ReadOrRescueBehaviour(cfg, e1, StartRole(e.alternatingCounter), AlternatingSwitch, clock, tries, jitter);
  }

  /** The shape shared by fallback and alternating reads: the first host is
      read; only its failure contacts the other host; the mode counter `sw`
      moves exactly when the other host rescued the read. */
  lemma {:induction false} ReadOrRescueBehaviour(cfg: MonitorConfig, e: EngineState, first: Role, sw: Switch,
                                                 clock: Clocks, tries: Tries, jitter: Jitters)
    ensures var r := ReadOrRescue(cfg, e, first, sw, clock, tries, jitter);
            && r.engine.alternatingCounter == e.alternatingCounter
            && r.contacted[0].role == first
            && (r.contacted[0].result.success ==> Roles(r.contacted) == [first] && r.result == r.contacted[0].result)
            && (!r.contacted[0].result.success ==> Roles(r.contacted) == [first, first.Other()])
            && r.engine.stats == (if |r.contacted| == 2 && r.result.success then Bump(e, sw).stats else e.stats)
            && (!r.result.success ==> r.result == r.contacted[0].result)
  {
    var f := ReadRole(cfg, e, first, clock, tries, jitter);
    if !f.result.success {
      var o := ReadRole(cfg, f.engine, first.Other(), clock, tries, jitter);
      var r := ReadOrRescue(cfg, e, first, sw, clock, tries, jitter);
      assert r.contacted == f.contacted + o.contacted;
      assert Roles(r.contacted) == [first, first.Other()];
    }
  }

  /** Both: counted on every call, contacted both hosts in order, and of two
      successes returns the faster, the primary on a tie. */
  lemma {:induction false} BothBehaviour(cfg: MonitorConfig, e: EngineState, clock: Clocks, tries: Tries, jitter: Jitters)
    ensures var r := Both(cfg, e, clock, tries, jitter);
            var p := r.contacted[0].result;
            var s := r.contacted[1].result;
            && r.engine.stats.bothHostTests == e.stats.bothHostTests + 1
            && Roles(r.contacted) == [Primary, Secondary]
            && (p.success && s.success ==>
                  r.result == (if p.responseTime.value <= s.responseTime.value then p else s))
            && (p.success != s.success ==> r.result.success)
            && (!p.success && !s.success ==> r.result == p)
  {
    var e1 := e.(stats := e.stats.(bothHostTests := e.stats.bothHostTests + 1));
    var pr := ReadRole(cfg, e1, Primary, clock, tries, jitter);
    var sr := ReadRole(cfg, pr.engine, Secondary, clock, tries, jitter);
    SuccessHasResponseTime(cfg, e1, Primary, clock, tries, jitter);
    SuccessHasResponseTime(cfg, pr.engine, Secondary, clock, tries, jitter);
  }

  /** A successful read always carries its response time. */
  lemma {:induction false} SuccessHasResponseTime(cfg: MonitorConfig, e: EngineState, role: Role, clock: Clocks,
                               tries: Tries, jitter: Jitters)
    ensures var r := ReadRole(cfg, e, role, clock, tries, jitter).result;
            r.success ==> r.responseTime.Some?
    ensures var r := ReadRole(cfg, e, role, clock, tries, jitter).result;
            r.responseTime.None? ==> r.errorType == Some("circuit_breaker")
  {
  }

  // ---------------------------------------------------------------------
  // Invariants of a pass

  lemma {:induction false} ReadRoleValid(cfg: MonitorConfig, e: EngineState, role: Role, clock: Clocks, tries: Tries, jitter: Jitters)
    requires EngineValid(e)
    ensures EngineValid(ReadRole(cfg, e, role, clock, tries, jitter).engine)
    ensures ReadRole(cfg, e, role, clock, tries, jitter).engine.stats.totalRequests == e.stats.totalRequests
  {
    ReadKeepsHealthValid(cfg, HostOf(e, role), clock(role), tries(role), jitter(role));
  }

  lemma {:induction false} RescueValid(cfg: MonitorConfig, e: EngineState, from: Role, reason: Option<string>, sw: Switch,
                                       clock: Clocks, tries: Tries, jitter: Jitters)
    requires EngineValid(e)
    ensures EngineValid(Rescue(cfg, e, from, reason, sw, clock, tries, jitter).engine)
    ensures Rescue(cfg, e, from, reason, sw, clock, tries, jitter).engine.stats.totalRequests == e.stats.totalRequests
  {
    ReadRoleValid(cfg, e, from.Other(), clock, tries, jitter);
  }

  lemma {:induction false} ReadOrRescueValid(cfg: MonitorConfig, e: EngineState, first: Role, sw: Switch,
                                             clock: Clocks, tries: Tries, jitter: Jitters)
    requires EngineValid(e)
    ensures EngineValid(ReadOrRescue(cfg, e, first, sw, clock, tries, jitter).engine)
    ensures ReadOrRescue(cfg, e, first, sw, clock, tries, jitter).engine.stats.totalRequests == e.stats.totalRequests
  {
    var f := ReadRole(cfg, e, first, clock, tries, jitter);
    ReadRoleValid(cfg, e, first, clock, tries, jitter);
    if !f.result.success {
      RescueValid(cfg, f.engine, first, f.result.errorMessage, sw, clock, tries, jitter);
    }
  }

  lemma {:induction false} FallbackValid(cfg: MonitorConfig, e: EngineState, clock: Clocks, tries: Tries, jitter: Jitters)
    requires EngineValid(e)
    ensures EngineValid(Fallback(cfg, e, clock, tries, jitter).engine)
    ensures Fallback(cfg, e, clock, tries, jitter).engine.stats.totalRequests == e.stats.totalRequests
  {
    ReadOrRescueValid(cfg, e, Primary, FallbackSwitch, clock, tries, jitter);
  }

  lemma {:induction false} AlternatingValid(cfg: MonitorConfig, e: EngineState, clock: Clocks, tries: Tries, jitter: Jitters)
    requires EngineValid(e)
    ensures EngineValid(Alternating(cfg, e, clock, tries, jitter).engine)
    ensures Alternating(cfg, e, clock, tries, jitter).engine.stats.totalRequests == e.stats.totalRequests
  {
    var e1 := e.(alternatingCounter := e.alternatingCounter + 1);
    AlternatingUnfolds(cfg, e, e1, clock, tries, jitter);
    ReadOrRescueValid(cfg, e1, StartRole(e.alternatingCounter), AlternatingSwitch, clock, tries, jitter);
  }

  lemma {:induction false} BothValid(cfg: MonitorConfig, e: EngineState, clock: Clocks, tries: Tries, jitter: Jitters)
    requires EngineValid(e)
    ensures EngineValid(Both(cfg, e, clock, tries, jitter).engine)
    ensures Both(cfg, e, clock, tries, jitter).engine.stats.totalRequests == e.stats.totalRequests
  {
    var e1 := e.(stats := e.stats.(bothHostTests := e.stats.bothHostTests + 1));
    ReadRoleValid(cfg, e1, Primary, clock, tries, jitter);
    ReadRoleValid(cfg, ReadRole(cfg, e1, Primary, clock, tries, jitter).engine, Secondary, clock, tries, jitter);
  }

  lemma {:induction false} ReadKeepsEngineValid(cfg: MonitorConfig, mode: string, e: EngineState, clock: Clocks,
                             tries: Tries, jitter: Jitters)
    requires EngineValid(e)
    ensures EngineValid(PerformModbusRead(cfg, mode, e, clock, tries, jitter).engine)
    ensures PerformModbusRead(cfg, mode, e, clock, tries, jitter).engine.stats.totalRequests == e.stats.totalRequests
  {
    match ModeOf(mode)
    case FallbackMode => FallbackValid(cfg, e, clock, tries, jitter);
    case AlternatingMode => AlternatingValid(cfg, e, clock, tries, jitter);
    case BothMode => BothValid(cfg, e, clock, tries, jitter);
    case PrimaryOnly => ReadRoleValid(cfg, e, Primary, clock, tries, jitter);
    case SecondaryOnly => ReadRoleValid(cfg, e, Secondary, clock, tries, jitter);
  }

  /** Every pass keeps the host records well formed and the counters
      consistent (`total = successful + failed`, `timeout <= failed`), and
      counts exactly one request. */
  lemma {:induction false} PollKeepsEngineValid(cfg: MonitorConfig, mode: string, e: EngineState, clock: Clocks,
                             tries: Tries, jitter: Jitters, variation: real)
    requires EngineValid(e)
    ensures EngineValid(Poll(cfg, mode, e, clock, tries, jitter, variation).engine)
    ensures Poll(cfg, mode, e, clock, tries, jitter, variation).engine.stats.totalRequests == e.stats.totalRequests + 1
    ensures Config.MIN_INTERVAL <= Poll(cfg, mode, e, clock, tries, jitter, variation).wait <= Config.MAX_INTERVAL
  {
    ReadKeepsEngineValid(cfg, mode, e, clock, tries, jitter);
    ProcessedKeepsEngineValid(PerformModbusRead(cfg, mode, e, clock, tries, jitter), variation);
  }

  lemma {:induction false} ProcessedKeepsEngineValid(r: PollOutcome, variation: real)
    requires EngineValid(r.engine)
    ensures EngineValid(Processed(r, variation).engine)
    ensures Processed(r, variation).engine.stats.totalRequests == r.engine.stats.totalRequests + 1
    ensures Config.MIN_INTERVAL <= Processed(r, variation).wait <= Config.MAX_INTERVAL
  {
  }

  /** Each pass contacted at least one and at most two hosts, and never the
      same host twice. */
  lemma {:induction false} ReadsPerPass(cfg: MonitorConfig, mode: string, e: EngineState, clock: Clocks, tries: Tries, jitter: Jitters)
    ensures var r := PerformModbusRead(cfg, mode, e, clock, tries, jitter);
            1 <= |r.contacted| <= 2 && (|r.contacted| == 2 ==> r.contacted[0].role != r.contacted[1].role)
  {
  }

  // ---------------------------------------------------------------------
  // The breaker result and the log formatting

  /** When nothing lacks a response time, the pass as written and the
      corrected pass agree. */
  lemma {:induction false} AsWrittenAgreesWithoutBreakerResults(cfg: MonitorConfig, mode: string, e: EngineState, clock: Clocks,
                                             tries: Tries, jitter: Jitters, variation: real)
    requires !FormatRaises(ModeOf(mode), PerformModbusRead(cfg, mode, e, clock, tries, jitter))
    ensures PollAsWritten(cfg, mode, e, clock, tries, jitter, variation) == Poll(cfg, mode, e, clock, tries, jitter, variation)
  {
  }

  /** As written, a primary-only pass whose breaker is open ends in
      `TypeError`: the request is not counted and `on_error` fires instead
      of `on_result`.  The corrected pass counts it as a failed request and
      reports the "circuit_breaker" result. */
  lemma {:induction false} BreakerResultBreaksPass(cfg: MonitorConfig, e: EngineState, clock: Clocks,
                                tries: Tries, jitter: Jitters, variation: real)
    requires e.primary.breakerOpen && e.primary.breakerUntil.Some? && clock(Primary).checked < e.primary.breakerUntil.value
    ensures var w := PollAsWritten(cfg, "primary_only", e, clock, tries, jitter, variation);
            && w.engine.stats == e.stats
            && w.events == [ErrorEvent("TypeError")]
            && w.wait == 5.0
    ensures var c := Poll(cfg, "primary_only", e, clock, tries, jitter, variation);
            && c.engine.stats.totalRequests == e.stats.totalRequests + 1
            && c.engine.stats.failedRequests == e.stats.failedRequests + 1
            && c.result.errorType == Some("circuit_breaker")
            && c.events == [ResultEvent(c.result)]
  {
    RejectedWhileOpen(cfg, e.primary, clock(Primary), tries(Primary), jitter(Primary));
  }

  /** As written, the both-hosts pass fails on the log line even when the
      other host answered: the answer is lost. */
  lemma {:induction false} BothModeLosesGoodAnswer(cfg: MonitorConfig, e: EngineState, clock: Clocks,
                                tries: Tries, jitter: Jitters, variation: real)
    requires e.primary.breakerOpen && e.primary.breakerUntil.Some? && clock(Primary).checked < e.primary.breakerUntil.value
    requires !e.secondary.breakerOpen && tries(Secondary)(0).Answer?
    ensures var w := PollAsWritten(cfg, "both", e, clock, tries, jitter, variation);
            w.events[|w.events| - 1] == ErrorEvent("TypeError") && w.engine.stats.totalRequests == e.stats.totalRequests
    ensures var c := Poll(cfg, "both", e, clock, tries, jitter, variation);
            c.result.success && c.engine.stats.successfulRequests == e.stats.successfulRequests + 1
  {
    var e1 := e.(stats := e.stats.(bothHostTests := e.stats.bothHostTests + 1));
    RejectedWhileOpen(cfg, e1.primary, clock(Primary), tries(Primary), jitter(Primary));
    var p := ReadRole(cfg, e1, Primary, clock, tries, jitter);
    var r := Both(cfg, e, clock, tries, jitter);
    assert r.contacted[0] == p.contacted[0];
    assert r.contacted[0].result.responseTime.None?;
    assert FormatRaises(BothMode, r);
  }
}
