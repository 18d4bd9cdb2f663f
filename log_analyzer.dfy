/** `HALogAnalyzer` of `log_analyzer.py`, from the parsed timeout events on:
    the consecutive-run count, the severity bands, the per-register error
    patterns and their order, the hourly histogram, the recommendations and
    the per-register performance summary.  Timestamps are whole seconds on
    one local clock whose zero is a midnight, as the log's
    `%Y-%m-%d %H:%M:%S` stamps are. */
module LogAnalyzer {
  import opened Wrappers
  import opened Text
  import opened Levels
  import opened Sorting
  import Config

  /** A `TimeoutEvent`; `register` is `None` for a sensor the register map
      does not know.  The raw log line is not kept. */
  datatype TimeoutEvent = TimeoutEvent(timestamp: int, sensorName: string, register: Option<int>, lineNumber: int)

  /** `timedelta(minutes=5)`: two timeouts at most this far apart are consecutive. */
  const CONSECUTIVE_GAP: int := 300
  /** `timedelta(hours=1)`. */
  const ONE_HOUR: int := 3600

  function Times(events: seq<TimeoutEvent>): (ts: seq<int>)
    ensures |ts| == |events|
    ensures forall i :: 0 <= i < |events| ==> ts[i] == events[i].timestamp
  {
    seq(|events|, i requires 0 <= i < |events| => events[i].timestamp)
  }

  // ---------------------------------------------------------------------
  // _calculate_consecutive_timeouts

  /** Length of the run of close neighbours that ends at index `i`. */
  function RunEndingAt(ts: seq<int>, i: nat): (r: nat)
    requires i < |ts|
    ensures 1 <= r <= i + 1
  {
    if i == 0 then 1
    else if ts[i] - ts[i - 1] <= CONSECUTIVE_GAP then RunEndingAt(ts, i - 1) + 1
    else 1
  }

  /** The longest run ending at an index below `n`. */
  function LongestRun(ts: seq<int>, n: nat): (r: nat)
    requires 0 < n <= |ts|
    ensures 1 <= r <= n
  {
    if n == 1 then 1
    else
      var before := LongestRun(ts, n - 1);
      var here := RunEndingAt(ts, n - 1);
      if here > before then here else before
  }

  function Consecutive(ts: seq<int>): (r: nat)
    ensures ts == [] ==> r == 0
    ensures ts != [] ==> 1 <= r <= |ts|
  {
    if ts == [] then 0 else LongestRun(ts, |ts|)
  }

  /** `_calculate_consecutive_timeouts`. */
  method CalculateConsecutiveTimeouts(events: seq<TimeoutEvent>) returns (maxConsecutive: nat)
    ensures maxConsecutive == Consecutive(Times(events))
  {
    ghost var ts := Times(events);
    if |events| == 0 {
      return 0;
    }
    maxConsecutive := 1;
    var current := 1;
    for i := 1 to |events|
      invariant current == RunEndingAt(ts, i - 1)
      invariant maxConsecutive == LongestRun(ts, i)
    {
      var timeDiff := events[i].timestamp - events[i - 1].timestamp;
      if timeDiff <= CONSECUTIVE_GAP {
        current := current + 1;
        if current > maxConsecutive {
          maxConsecutive := current;
        }
      } else {
        current := 1;
      }
    }
  }

  /** The events at indices `lo .. hi-1` are each within the gap of the one before. */
  ghost predicate Close(ts: seq<int>, lo: int, hi: int)
    requires 0 <= lo <= hi <= |ts|
  {
    forall k :: lo < k < hi ==> ts[k] - ts[k - 1] <= CONSECUTIVE_GAP
  }

  lemma {:induction false} RunEndingAtIsLongest(ts: seq<int>, n: nat)
    requires 0 < n <= |ts|
    ensures Close(ts, n - RunEndingAt(ts, n - 1), n)
    ensures forall lo :: 0 <= lo < n && Close(ts, lo, n) ==> n - lo <= RunEndingAt(ts, n - 1)
  {
    if n > 1 {
      RunEndingAtIsLongest(ts, n - 1);
      if ts[n - 1] - ts[n - 2] <= CONSECUTIVE_GAP {
        forall lo | 0 <= lo < n && Close(ts, lo, n)
          ensures n - lo <= RunEndingAt(ts, n - 1)
        {
          if lo < n - 1 {
            assert Close(ts, lo, n - 1);
          }
        }
      }
    }
  }

  lemma {:induction false} LongestRunIsLongest(ts: seq<int>, n: nat)
    requires 0 < n <= |ts|
    ensures exists lo, hi :: 0 <= lo < hi <= n && hi - lo == LongestRun(ts, n) && Close(ts, lo, hi)
    ensures forall lo, hi :: 0 <= lo < hi <= n && Close(ts, lo, hi) ==> hi - lo <= LongestRun(ts, n)
  {
    RunEndingAtIsLongest(ts, n);
    var here := RunEndingAt(ts, n - 1);
    assert Close(ts, n - here, n);
    if n > 1 {
      LongestRunIsLongest(ts, n - 1);
    }
  }

  /** The count is the length of the longest stretch of events in which
      each is at most five minutes after the one before; a larger gap starts
      a new stretch. */
  lemma {:induction false} ConsecutiveIsLongestStretch(ts: seq<int>)
    requires ts != []
    ensures exists lo, hi :: 0 <= lo < hi <= |ts| && hi - lo == Consecutive(ts) && Close(ts, lo, hi)
    ensures forall lo, hi :: 0 <= lo < hi <= |ts| && Close(ts, lo, hi) ==> hi - lo <= Consecutive(ts)
  {
    LongestRunIsLongest(ts, |ts|);
  }

  // ---------------------------------------------------------------------
  // _calculate_severity

  /** `_calculate_severity`; `timeSpan` in seconds. */
  function CalculateSeverity(timeoutCount: nat, consecutiveTimeouts: nat, timeSpan: int): (s: Level)
    ensures s == Critical <==> timeoutCount >= Config.DAILY_ERROR_THRESHOLD && timeSpan <= ONE_HOUR
    ensures s == High <==> (&& !(timeoutCount >= Config.DAILY_ERROR_THRESHOLD && timeSpan <= ONE_HOUR)
                            && (consecutiveTimeouts >= Config.CONSECUTIVE_TIMEOUT_THRESHOLD
                                || timeoutCount >= Config.HOURLY_ERROR_THRESHOLD))
    ensures s == Low <==> timeoutCount < 5 && consecutiveTimeouts < Config.CONSECUTIVE_TIMEOUT_THRESHOLD
  {
    if timeoutCount >= Config.DAILY_ERROR_THRESHOLD && timeSpan <= ONE_HOUR then Critical
    else if consecutiveTimeouts >= Config.CONSECUTIVE_TIMEOUT_THRESHOLD
            || timeoutCount >= Config.HOURLY_ERROR_THRESHOLD then High
    else if timeoutCount >= 5 then Medium
    else Low
  }

  /** More timeouts, longer runs or a shorter span never make a pattern
      less severe. */
  lemma {:induction false} SeverityMonotone(c1: nat, r1: nat, s1: int, c2: nat, r2: nat, s2: int)
    requires c1 <= c2 && r1 <= r2 && s2 <= s1
    ensures CalculateSeverity(c1, r1, s1).Weight() <= CalculateSeverity(c2, r2, s2).Weight()
  {
  }

  // ---------------------------------------------------------------------
  // _analyze_time_patterns

  /** `timestamp.hour`. */
  function HourOf(t: int): (h: int)
    ensures 0 <= h < 24
  {
    (t / 3600) % 24
  }

  function Get(m: map<int, nat>, k: int): nat {
    if k in m then m[k] else 0
  }

  /** The `hourly_counts` defaultdict after the events, in order. */
  function HourCounts(events: seq<TimeoutEvent>): map<int, nat> {
    if events == [] then map[]
    else
      var m := HourCounts(events[..|events| - 1]);
      var h := HourOf(events[|events| - 1].timestamp);
      m[h := Get(m, h) + 1]
  }

  /** `_analyze_time_patterns`. */
  method AnalyzeTimePatterns(events: seq<TimeoutEvent>) returns (hourlyCounts: map<int, nat>)
    ensures hourlyCounts == HourCounts(events)
  {
    hourlyCounts := map[];
    for i := 0 to |events|
      invariant hourlyCounts == HourCounts(events[..i])
    {
      assert events[..i + 1][..i] == events[..i];
      var hour := HourOf(events[i].timestamp);
      hourlyCounts := hourlyCounts[hour := Get(hourlyCounts, hour) + 1];
    }
    assert events[..|events|] == events;
  }

  /** The number of events whose hour is `h`. */
  function AtHour(events: seq<TimeoutEvent>, h: int): nat {
    if events == [] then 0
    else AtHour(events[..|events| - 1], h) + (if HourOf(events[|events| - 1].timestamp) == h then 1 else 0)
  }

  /** Sum of the counts for hours `0 .. n-1`. */
  function SumHours(m: map<int, nat>, n: nat): nat {
    if n == 0 then 0 else SumHours(m, n - 1) + Get(m, n - 1)
  }

  lemma {:induction false} SumHoursBump(m: map<int, nat>, h: int, n: nat)
    ensures SumHours(m[h := Get(m, h) + 1], n) == SumHours(m, n) + (if 0 <= h < n then 1 else 0)
  {
    if n > 0 {
      SumHoursBump(m, h, n - 1);
    }
  }

  lemma {:induction false} SumHoursOfNothing(n: nat)
    ensures SumHours(map[], n) == 0
  {
    if n > 0 {
      SumHoursOfNothing(n - 1);
    }
  }

  /** Every key is an hour of the day that some event falls in, each count
      is the number of events in that hour, and the counts add up to the
      number of events. */
  lemma {:induction false} HourCountsAreAHistogram(events: seq<TimeoutEvent>)
    ensures forall h :: h in HourCounts(events) ==> 0 <= h < 24 && HourCounts(events)[h] >= 1
    ensures forall h :: Get(HourCounts(events), h) == AtHour(events, h)
    ensures SumHours(HourCounts(events), 24) == |events|
  {
    if events != [] {
      var prev := events[..|events| - 1];
      var h := HourOf(events[|events| - 1].timestamp);
      HourCountsAreAHistogram(prev);
      SumHoursBump(HourCounts(prev), h, 24);
      assert HourCounts(events) == HourCounts(prev)[h := Get(HourCounts(prev), h) + 1];
    } else {
      SumHoursOfNothing(24);
    }
  }

  // ---------------------------------------------------------------------
  // _analyze_error_patterns

  /** An `ErrorPattern`; times in seconds. */
  datatype ErrorPattern = ErrorPattern(
    register: int, sensorName: string, timeoutCount: nat, consecutiveTimeouts: nat,
    timeSpan: int, firstTimeout: int, lastTimeout: int, severity: Level)

  /** `REGISTER_TO_SENSOR_MAP.get(register, f"register_{register}")`. */
  function SensorName(register: int): string {
    match Config.SensorOf(register)
    case Some(name) => name
    case None => "register_" + IntToString(register)
  }

  /** The registers of the events that have one, each once, in order of
      first appearance (the key order of `register_events`). */
  function Registers(events: seq<TimeoutEvent>): seq<int> {
    if events == [] then []
    else
      var rs := Registers(events[..|events| - 1]);
      var last := events[|events| - 1];
      if last.register.Some? && last.register.value !in rs then rs + [last.register.value] else rs
  }

  /** `register_events[r]`: the events of register `r`, in log order. */
  function EventsOf(events: seq<TimeoutEvent>, r: int): seq<TimeoutEvent> {
    if events == [] then []
    else
      var last := events[|events| - 1];
      EventsOf(events[..|events| - 1], r) + (if last.register == Some(r) then [last] else [])
  }

  /** Each register is listed once, and exactly the registers some event
      carries are listed. */
  lemma {:induction false} RegistersAreTheKeys(events: seq<TimeoutEvent>)
    ensures forall i, j :: 0 <= i < j < |Registers(events)| ==> Registers(events)[i] != Registers(events)[j]
    ensures forall r :: r in Registers(events) <==> exists e :: e in events && e.register == Some(r)
  {
    if events != [] {
      var prev := events[..|events| - 1];
      var last := events[|events| - 1];
      RegistersAreTheKeys(prev);
      assert forall e :: e in events <==> e in prev || e == last;
    }
  }

  /** A register's group holds exactly the events of that register. */
  lemma {:induction false} EventsOfAreTheGroup(events: seq<TimeoutEvent>, r: int)
    ensures forall e :: e in EventsOf(events, r) <==> e in events && e.register == Some(r)
  {
    if events != [] {
      var prev := events[..|events| - 1];
      var last := events[|events| - 1];
      EventsOfAreTheGroup(prev, r);
      assert forall e :: e in events <==> e in prev || e == last;
    }
  }

  /** The events that have a register. */
  function Kept(events: seq<TimeoutEvent>): seq<TimeoutEvent> {
    if events == [] then []
    else
      var last := events[|events| - 1];
      Kept(events[..|events| - 1]) + (if last.register.Some? then [last] else [])
  }

  function ByTime(e: TimeoutEvent): SortKey {
    SortKey(e.timestamp, 0.0)
  }

  /** `register_events` once every group is sorted by timestamp (a stable
      sort, so events with the same stamp stay in log order). */
  function SortedGroups(events: seq<TimeoutEvent>): (g: map<int, seq<TimeoutEvent>>)
    ensures forall r :: r in g <==> r in Registers(events)
    ensures forall r :: r in g ==> && g[r] != []
                                   && SortedBy(g[r], ByTime)
                                   && multiset(g[r]) == multiset(EventsOf(events, r))
  {
    RegistersHaveEvents(events);
    map r | r in Registers(events) :: SortBy(EventsOf(events, r), ByTime)
  }

  /** The pattern of register `r` from its events sorted by time. */
  function PatternOf(r: int, sorted: seq<TimeoutEvent>): ErrorPattern
    requires sorted != []
  {
    var count := |sorted|;
    var consecutive := Consecutive(Times(sorted));
    var span := sorted[|sorted| - 1].timestamp - sorted[0].timestamp;
    ErrorPattern(r, SensorName(r), count, consecutive, span, sorted[0].timestamp,
                 sorted[|sorted| - 1].timestamp, CalculateSeverity(count, consecutive, span))
  }

  /** A pattern measures its group: the count is the group's size, the
      first and last stamps bound every stamp and are stamps of the group,
      the run count lies in [1, count], and the severity is
      `_calculate_severity` of count, run count and span. */
  lemma {:induction false} PatternOfMeasures(r: int, sorted: seq<TimeoutEvent>)
    requires sorted != [] && SortedBy(sorted, ByTime)
    ensures var p := PatternOf(r, sorted);
            && p.register == r && p.sensorName == SensorName(r)
            && p.timeoutCount == |sorted|
            && 1 <= p.consecutiveTimeouts <= p.timeoutCount
            && p.timeSpan == p.lastTimeout - p.firstTimeout
            && (forall e :: e in sorted ==> p.firstTimeout <= e.timestamp <= p.lastTimeout)
            && (exists e :: e in sorted && e.timestamp == p.firstTimeout)
            && (exists e :: e in sorted && e.timestamp == p.lastTimeout)
            && p.severity == CalculateSeverity(p.timeoutCount, p.consecutiveTimeouts, p.timeSpan)
  {
    var n := |sorted|;
    forall e | e in sorted
      ensures sorted[0].timestamp <= e.timestamp <= sorted[n - 1].timestamp
    {
      var k :| 0 <= k < n && sorted[k] == e;
      if k > 0 { assert KeyLe(ByTime(sorted[0]), ByTime(sorted[k])); }
      if k < n - 1 { assert KeyLe(ByTime(sorted[k]), ByTime(sorted[n - 1])); }
    }
  }

  /** Every register of `rs` has a non-empty group in `g`. */
  predicate Grouped(rs: seq<int>, g: map<int, seq<TimeoutEvent>>) {
    forall r :: r in rs ==> r in g && g[r] != []
  }

  lemma {:induction false} GroupedPrefix(rs: seq<int>, g: map<int, seq<TimeoutEvent>>, k: int)
    requires Grouped(rs, g) && 0 <= k <= |rs|
    ensures Grouped(rs[..k], g)
  {
    assert forall r :: r in rs[..k] ==> r in rs;
  }

  /** The patterns of the registers `rs`, in that order. */
  function PatternsFor(rs: seq<int>, g: map<int, seq<TimeoutEvent>>): (ps: seq<ErrorPattern>)
    requires Grouped(rs, g)
    ensures |ps| == |rs|
    ensures forall i :: 0 <= i < |rs| ==> ps[i] == PatternOf(rs[i], g[rs[i]])
  {
    if rs == [] then []
    else
      var r := rs[|rs| - 1];
      PatternsFor(rs[..|rs| - 1], g) + [PatternOf(r, g[r])]
  }

  lemma {:induction false} PatternsForSnoc(rs: seq<int>, g: map<int, seq<TimeoutEvent>>, k: int)
    requires Grouped(rs, g) && 0 <= k < |rs|
    ensures Grouped(rs[..k], g) && Grouped(rs[..k + 1], g)
    ensures PatternsFor(rs[..k + 1], g) == PatternsFor(rs[..k], g) + [PatternOf(rs[k], g[rs[k]])]
  {
    GroupedPrefix(rs, g, k);
    GroupedPrefix(rs, g, k + 1);
    assert rs[..k + 1][..k] == rs[..k];
  }

  /** `reverse=True` on the key `(severity, timeout_count)`: a stable sort
      ascending on the negated key, severities compared as strings. */
  function PatternKey(p: ErrorPattern): SortKey {
    SortKey(-(p.severity.LexRank() as int), -(p.timeoutCount as real))
  }

  lemma {:induction false} EventsOfNonEmpty(events: seq<TimeoutEvent>, r: int)
    requires exists e :: e in events && e.register == Some(r)
    ensures EventsOf(events, r) != []
  {
    EventsOfAreTheGroup(events, r);
    var e :| e in events && e.register == Some(r);
    assert e in EventsOf(events, r);
  }

  lemma {:induction false} RegistersHaveEvents(events: seq<TimeoutEvent>)
    ensures forall r :: r in Registers(events) ==> EventsOf(events, r) != []
  {
    RegistersAreTheKeys(events);
    forall r | r in Registers(events)
      ensures EventsOf(events, r) != []
    {
      EventsOfNonEmpty(events, r);
    }
  }

  /** The patterns in the order `_analyze_error_patterns` returns them. */
  function ErrorPatterns(events: seq<TimeoutEvent>): seq<ErrorPattern> {
    SortBy(PatternsFor(Registers(events), SortedGroups(events)), PatternKey)
  }

  /** What one more event does to the register order. */
  lemma {:induction false} RegistersStep(events: seq<TimeoutEvent>, i: int)
    requires 0 <= i < |events|
    ensures var prev, e := events[..i], events[i];
            Registers(events[..i + 1])
              == if e.register.Some? && e.register.value !in Registers(prev)
                 then Registers(prev) + [e.register.value] else Registers(prev)
  {
    assert events[..i + 1][..i] == events[..i];
  }

  /** What one more event does to the group of register `r`. */
  lemma {:induction false} EventsOfStep(events: seq<TimeoutEvent>, i: int, r: int)
    requires 0 <= i < |events|
    ensures EventsOf(events[..i + 1], r) == EventsOf(events[..i], r) + (if events[i].register == Some(r) then [events[i]] else [])
  {
    assert events[..i + 1][..i] == events[..i];
  }

  /** `order` lists the registers of `events` by first appearance and
      `registerEvents` holds, for each of them, its events in log order. */
  ghost predicate Filed(events: seq<TimeoutEvent>, order: seq<int>, registerEvents: map<int, seq<TimeoutEvent>>) {
    && order == Registers(events)
    && (forall r :: r in registerEvents <==> r in order)
    && (forall r :: r in registerEvents ==> registerEvents[r] == EventsOf(events, r))
  }

  /** The grouping loop of `_analyze_error_patterns`: `register_events`
      and its key order. */
  method GroupByRegister(events: seq<TimeoutEvent>) returns (order: seq<int>, registerEvents: map<int, seq<TimeoutEvent>>)
    ensures order == Registers(events)
    ensures forall r :: r in registerEvents <==> r in order
    ensures forall r :: r in registerEvents ==> registerEvents[r] == EventsOf(events, r)
  {
    order := [];
    registerEvents := map[];
    for i := 0 to |events|
      invariant Filed(events[..i], order, registerEvents)
    {
      order, registerEvents := AddEvent(events, i, order, registerEvents);
    }
    assert events[..|events|] == events;
  }

  /** One pass of the grouping loop: file `events[i]` under its register. */
  method AddEvent(events: seq<TimeoutEvent>, i: int, order: seq<int>, registerEvents: map<int, seq<TimeoutEvent>>)
    returns (order': seq<int>, registerEvents': map<int, seq<TimeoutEvent>>)
    requires 0 <= i < |events| && Filed(events[..i], order, registerEvents)
    ensures Filed(events[..i + 1], order', registerEvents')
  {
    var event := events[i];
    order', registerEvents' := order, registerEvents;
    if event.register.Some? {
      var r := event.register.value;
      if r in registerEvents {
        registerEvents' := registerEvents[r := registerEvents[r] + [event]];
      } else {
        order' := order + [r];
        registerEvents' := registerEvents[r := [event]];
      }
    }
    FiledStep(events, i, order, registerEvents);
  }

  /** The state after filing one event under its register. */
  function FileEvent(order: seq<int>, registerEvents: map<int, seq<TimeoutEvent>>, event: TimeoutEvent)
    : (seq<int>, map<int, seq<TimeoutEvent>>)
  {
    if event.register.None? then (order, registerEvents)
    else
      var r := event.register.value;
      if r in registerEvents then (order, registerEvents[r := registerEvents[r] + [event]])
      else (order + [r], registerEvents[r := [event]])
  }

  /** Filing the next event keeps the grouping exact. */
  lemma {:induction false} FiledStep(events: seq<TimeoutEvent>, i: int, order: seq<int>, registerEvents: map<int, seq<TimeoutEvent>>)
    requires 0 <= i < |events| && Filed(events[..i], order, registerEvents)
    ensures var (order', registerEvents') := FileEvent(order, registerEvents, events[i]);
            Filed(events[..i + 1], order', registerEvents')
  {
    RegistersStep(events, i);
    var (order', registerEvents') := FileEvent(order, registerEvents, events[i]);
    if events[i].register.Some? && events[i].register.value !in registerEvents {
      NoEventsOf(events[..i], events[i].register.value);
    }
    forall q | q in registerEvents'
      ensures registerEvents'[q] == EventsOf(events[..i + 1], q)
    {
      EventsOfStep(events, i, q);
    }
  }

  /** The body of the measuring loop of `_analyze_error_patterns` for one
      register: sort its events by time and measure them. */
  method MeasureGroup(register: int, events: seq<TimeoutEvent>) returns (pattern: ErrorPattern)
    requires events != []
    ensures pattern == PatternOf(register, SortBy(events, ByTime))
  {
    var sorted := SortBy(events, ByTime);
    var timeoutCount := |sorted|;
    var consecutiveTimeouts := CalculateConsecutiveTimeouts(sorted);
    var timeSpan := sorted[|sorted| - 1].timestamp - sorted[0].timestamp;
    var severity := CalculateSeverity(timeoutCount, consecutiveTimeouts, timeSpan);
    pattern := ErrorPattern(register, SensorName(register), timeoutCount, consecutiveTimeouts,
                            timeSpan, sorted[0].timestamp, sorted[|sorted| - 1].timestamp, severity);
  }

  /** The measuring loop of `_analyze_error_patterns`: each group, in key
      order, sorted by time and measured. */
  method MeasureGroups(order: seq<int>, registerEvents: map<int, seq<TimeoutEvent>>, ghost groups: map<int, seq<TimeoutEvent>>)
    returns (patterns: seq<ErrorPattern>)
    requires Grouped(order, groups)
    requires forall r :: r in order ==> r in registerEvents && groups[r] == SortBy(registerEvents[r], ByTime)
    ensures patterns == PatternsFor(order, groups)
  {
    patterns := [];
    for k := 0 to |order|
      invariant Grouped(order[..k], groups)
      invariant patterns == PatternsFor(order[..k], groups)
    {
      var register := order[k];
      assert register in order;
      assert |registerEvents[register]| == |groups[register]|;
      var pattern := MeasureGroup(register, registerEvents[register]);
      PatternsForSnoc(order, groups, k);
      patterns := patterns + [pattern];
    }
    assert order[..|order|] == order;
  }

  /** `_analyze_error_patterns`: group by register in order of first
      appearance, sort each group by time, measure it, then sort the
      patterns by `(severity, timeout_count)` descending. */
  method AnalyzeErrorPatterns(events: seq<TimeoutEvent>) returns (patterns: seq<ErrorPattern>)
    ensures patterns == ErrorPatterns(events)
  {
    var order, registerEvents := GroupByRegister(events);
    ghost var groups := SortedGroups(events);
    patterns := MeasureGroups(order, registerEvents, groups);
    patterns := SortBy(patterns, PatternKey);
  }

  /** Sum of the `timeout_count`s. */
  function TotalCount(ps: seq<ErrorPattern>): nat {
    if ps == [] then 0 else TotalCount(ps[..|ps| - 1]) + ps[|ps| - 1].timeoutCount
  }

  lemma {:induction false} TotalCountAppend(a: seq<ErrorPattern>, b: seq<ErrorPattern>)
    ensures TotalCount(a + b) == TotalCount(a) + TotalCount(b)
  {
    if b != [] {
      assert (a + b)[..|a + b| - 1] == a + b[..|b| - 1];
      TotalCountAppend(a, b[..|b| - 1]);
    } else {
      assert a + b == a;
    }
  }

  /** Taking `x` off the end of one side and out of the other keeps two
      permutations permutations of each other. */
  lemma {:induction false} RemoveMatching<T>(a0: seq<T>, x: T, b: seq<T>, k: int)
    requires multiset(a0 + [x]) == multiset(b)
    requires 0 <= k < |b| && b[k] == x
    ensures multiset(a0) == multiset(b[..k] + b[k + 1..])
  {
    assert b == b[..k] + [x] + b[k + 1..];
    calc {
      multiset(a0);
      multiset(a0 + [x]) - multiset{x};
      multiset(b) - multiset{x};
      multiset(b[..k]) + multiset(b[k + 1..]);
      multiset(b[..k] + b[k + 1..]);
    }
  }

  /** Reordering the patterns does not change the total. */
  lemma {:induction false} TotalCountPermutation(a: seq<ErrorPattern>, b: seq<ErrorPattern>)
    requires multiset(a) == multiset(b)
    ensures TotalCount(a) == TotalCount(b)
    decreases |a|
  {
    if a != [] {
      var x := a[|a| - 1];
      var a0 := a[..|a| - 1];
      assert a == a0 + [x];
      assert x in multiset(b);
      var k :| 0 <= k < |b| && b[k] == x;
      var left, right := b[..k], b[k + 1..];
      assert b == left + [x] + right;
      RemoveMatching(a0, x, b, k);
      TotalCountPermutation(a0, left + right);
      TotalCountAppend(left, [x]);
      TotalCountAppend(left + [x], right);
      TotalCountAppend(left, right);
      assert TotalCount([x]) == x.timeoutCount by {
        assert [x][..0] == [];
      }
    }
  }

  /** Sum over the registers `rs` of their event counts. */
  function CountSum(events: seq<TimeoutEvent>, rs: seq<int>): nat {
    if rs == [] then 0 else CountSum(events, rs[..|rs| - 1]) + |EventsOf(events, rs[|rs| - 1])|
  }

  lemma {:induction false} PatternsForCount(events: seq<TimeoutEvent>, rs: seq<int>, g: map<int, seq<TimeoutEvent>>)
    requires Grouped(rs, g)
    requires forall r :: r in rs ==> |g[r]| == |EventsOf(events, r)|
    ensures TotalCount(PatternsFor(rs, g)) == CountSum(events, rs)
  {
    if rs != [] {
      PatternsForCount(events, rs[..|rs| - 1], g);
    }
  }

  /** Adding one event raises the sum by one if its register is among `rs`. */
  lemma {:induction false} CountSumStep(events: seq<TimeoutEvent>, rs: seq<int>)
    requires events != []
    requires forall i, j :: 0 <= i < j < |rs| ==> rs[i] != rs[j]
    ensures var last := events[|events| - 1];
            CountSum(events, rs) == CountSum(events[..|events| - 1], rs)
                                    + (if last.register.Some? && last.register.value in rs then 1 else 0)
  {
    if rs != [] {
      var rs0 := rs[..|rs| - 1];
      assert forall r :: r in rs <==> r in rs0 || r == rs[|rs| - 1];
      CountSumStep(events, rs0);
    }
  }

  lemma {:induction false} NoEventsOf(events: seq<TimeoutEvent>, r: int)
    requires r !in Registers(events)
    ensures EventsOf(events, r) == []
  {
    if EventsOf(events, r) != [] {
      EventsOfAreTheGroup(events, r);
      RegistersAreTheKeys(events);
      assert EventsOf(events, r)[0] in EventsOf(events, r);
    }
  }

  lemma {:induction false} RegistersCoverKept(events: seq<TimeoutEvent>)
    ensures CountSum(events, Registers(events)) == |Kept(events)|
  {
    if events != [] {
      var prev := events[..|events| - 1];
      var last := events[|events| - 1];
      var rs := Registers(prev);
      RegistersCoverKept(prev);
      RegistersAreTheKeys(prev);
      CountSumStep(events, rs);
      if last.register.Some? && last.register.value !in rs {
        NoEventsOf(prev, last.register.value);
      }
    }
  }

  /** A pattern exists for a register exactly when it is one of
      `Registers(events)`, that is, when some event has it. */
  lemma {:induction false} ErrorPatternsCoverRegisters(events: seq<TimeoutEvent>)
    ensures var ps := ErrorPatterns(events);
            forall r :: (exists p :: p in ps && p.register == r) <==> r in Registers(events)
  {
    var rs := Registers(events);
    var g := SortedGroups(events);
    PermutedPatternsCoverRegisters(rs, g, SortBy(PatternsFor(rs, g), PatternKey));
  }

  /** There are as many patterns as registers, and their counts add up to
      the number of events that have a register: no event is lost or
      counted twice. */
  lemma {:induction false} ErrorPatternsCountEveryEvent(events: seq<TimeoutEvent>)
    ensures |ErrorPatterns(events)| == |Registers(events)|
    ensures TotalCount(ErrorPatterns(events)) == |Kept(events)|
  {
    var rs := Registers(events);
    var g := SortedGroups(events);
    var unsorted := PatternsFor(rs, g);
    TotalCountPermutation(SortBy(unsorted, PatternKey), unsorted);
    GroupSizes(events);
    PatternsForCount(events, rs, g);
    RegistersCoverKept(events);
  }

  /** Two permutations of each other have the same elements. */
  lemma {:induction false} SameElements<T>(a: seq<T>, b: seq<T>)
    requires multiset(a) == multiset(b)
    ensures forall x :: x in a <==> x in b
  {
    forall x ensures x in a <==> x in b {
      assert x in a <==> x in multiset(a);
      assert x in b <==> x in multiset(b);
    }
  }

  /** Each pattern of `PatternsFor(rs, g)` is the pattern of its register's group. */
  lemma {:induction false} MemberOfPatternsFor(rs: seq<int>, g: map<int, seq<TimeoutEvent>>, p: ErrorPattern)
    requires Grouped(rs, g) && p in PatternsFor(rs, g)
    ensures p.register in rs && p == PatternOf(p.register, g[p.register])
  {
    var i :| 0 <= i < |rs| && PatternsFor(rs, g)[i] == p;
  }

  /** Any reordering of `PatternsFor(rs, g)` has a pattern for exactly the
      registers of `rs`. */
  lemma {:induction false} PermutedPatternsCoverRegisters(rs: seq<int>, g: map<int, seq<TimeoutEvent>>, ps: seq<ErrorPattern>)
    requires Grouped(rs, g)
    requires multiset(ps) == multiset(PatternsFor(rs, g))
    ensures forall r :: (exists p :: p in ps && p.register == r) <==> r in rs
  {
    var unsorted := PatternsFor(rs, g);
    SameElements(ps, unsorted);
    forall r ensures (exists p :: p in ps && p.register == r) <==> r in rs {
      if r in rs {
        var i :| 0 <= i < |rs| && rs[i] == r;
        assert unsorted[i] in ps;
      }
      if exists p :: p in ps && p.register == r {
        var p :| p in ps && p.register == r;
        MemberOfPatternsFor(rs, g, p);
      }
    }
  }

  /** Sorting a group keeps its size. */
  lemma {:induction false} GroupSizes(events: seq<TimeoutEvent>)
    ensures var g := SortedGroups(events);
            forall r :: r in g ==> |g[r]| == |EventsOf(events, r)|
  {
    var g := SortedGroups(events);
    forall r | r in g
      ensures |g[r]| == |EventsOf(events, r)|
    {
      assert |multiset(g[r])| == |multiset(EventsOf(events, r))|;
    }
  }

  /** Each pattern measures its register's events: the count is their
      number, first and last bound every one of their stamps and are
      stamps of them, the span is their difference, the run count lies in
      [1, count], and the severity is `_calculate_severity` of the three. */
  lemma {:induction false} ErrorPatternsAreMeasured(events: seq<TimeoutEvent>, p: ErrorPattern)
    requires p in ErrorPatterns(events)
    ensures p.register in Registers(events) && p.sensorName == SensorName(p.register)
    ensures p.timeoutCount == |EventsOf(events, p.register)|
    ensures forall e :: e in events && e.register == Some(p.register) ==>
              p.firstTimeout <= e.timestamp <= p.lastTimeout
    ensures exists e :: e in events && e.register == Some(p.register) && e.timestamp == p.firstTimeout
    ensures exists e :: e in events && e.register == Some(p.register) && e.timestamp == p.lastTimeout
    ensures p.timeSpan == p.lastTimeout - p.firstTimeout
    ensures 1 <= p.consecutiveTimeouts <= p.timeoutCount
    ensures p.severity == CalculateSeverity(p.timeoutCount, p.consecutiveTimeouts, p.timeSpan)
  {
    var rs := Registers(events);
    var g := SortedGroups(events);
    var unsorted := PatternsFor(rs, g);
    SameElements(SortBy(unsorted, PatternKey), unsorted);
    MemberOfPatternsFor(rs, g, p);
    var r := p.register;
    PatternOfMeasures(r, g[r]);
    GroupSizes(events);
    EventsOfAreTheGroup(events, r);
    SameElements(g[r], EventsOf(events, r));
  }

  /** Patterns come in descending order of the severity *word* as a Python
      string ("medium" > "low" > "high" > "critical"), ties broken by
      descending `timeout_count`. */
  lemma {:induction false} ErrorPatternsOrder(events: seq<TimeoutEvent>, i: int, j: int)
    requires 0 <= i < j < |ErrorPatterns(events)|
    ensures var ps := ErrorPatterns(events);
            || StrLess(ps[j].severity.Name(), ps[i].severity.Name())
            || (ps[j].severity == ps[i].severity && ps[j].timeoutCount <= ps[i].timeoutCount)
  {
    var ps := ErrorPatterns(events);
    assert KeyLe(PatternKey(ps[i]), PatternKey(ps[j]));
    LexRankOrdersNames(ps[j].severity, ps[i].severity);
  }

  // ---------------------------------------------------------------------
  // _generate_recommendations

  datatype RecommendationType = IndividualRead | TimeoutAdjustment | LowPriority {
    function Name(): string {
      match this
      case IndividualRead => "individual_read"
      case TimeoutAdjustment => "timeout_adjustment"
      case LowPriority => "low_priority"
    }
  }

  /** One recommendation dict; the timeouts are absent from `low_priority`. */
  datatype Recommendation = Recommendation(
    kind: RecommendationType, register: int, sensorName: string, reason: string, priority: Level,
    currentTimeout: Option<int>, recommendedTimeout: Option<int>)

  /** The registers `_generate_recommendations` never demotes. */
  const KEEP_PRIORITY: seq<int> := [0, 1, 1000, 1001, 1002, 1003, 1004]

  /** What one pattern adds. */
  function RecommendationsFor(p: ErrorPattern): (recs: seq<Recommendation>)
    ensures p.severity != High && p.severity != Critical ==> recs == []
    ensures p.severity == High || p.severity == Critical ==>
              && |recs| == (if p.register in KEEP_PRIORITY then 2 else 3)
              && recs[0].kind == IndividualRead && recs[1].kind == TimeoutAdjustment
              && (forall k :: 0 <= k < 2 ==> recs[k].priority == p.severity
                                             && recs[k].currentTimeout == Some(2)
                                             && recs[k].recommendedTimeout == Some(if p.severity == Critical then 5 else 3))
              && (|recs| == 3 ==> recs[2].kind == LowPriority && recs[2].priority == Medium
                                  && recs[2].recommendedTimeout.None?)
    ensures forall x :: x in recs ==> x.register == p.register && x.sensorName == p.sensorName
  {
    if p.severity == High || p.severity == Critical then
      var timeout := if p.severity == Critical then 5 else 3;
      var individual := Recommendation(
        IndividualRead, p.register, p.sensorName,
        IntToString(p.timeoutCount) + " timeouts, " + IntToString(p.consecutiveTimeouts) + " consecutive",
        p.severity, Some(2), Some(timeout));
      var adjust := Recommendation(
        TimeoutAdjustment, p.register, p.sensorName, "Frequent timeouts with current 2s timeout",
        p.severity, Some(2), Some(timeout));
      var low := if p.register in KEEP_PRIORITY then []
                 else [Recommendation(LowPriority, p.register, p.sensorName,
                                      "Non-critical register with " + IntToString(p.timeoutCount) + " timeouts",
                                      Medium, None, None)];
      [individual, adjust] + low
    else []
  }

  function Recommendations(ps: seq<ErrorPattern>): seq<Recommendation> {
    if ps == [] then [] else Recommendations(ps[..|ps| - 1]) + RecommendationsFor(ps[|ps| - 1])
  }

  /** `_generate_recommendations`. */
  method GenerateRecommendations(patterns: seq<ErrorPattern>) returns (recommendations: seq<Recommendation>)
    ensures recommendations == Recommendations(patterns)
  {
    recommendations := [];
    for i := 0 to |patterns|
      invariant recommendations == Recommendations(patterns[..i])
    {
      assert patterns[..i + 1][..i] == patterns[..i];
      recommendations := recommendations + RecommendationsFor(patterns[i]);
    }
    assert patterns[..|patterns|] == patterns;
  }

  /** Every recommendation is for a high or critical pattern, and every such
      pattern gets its `individual_read`. */
  lemma {:induction false} RecommendationsComeFromSeverePatterns(ps: seq<ErrorPattern>)
    ensures forall x :: x in Recommendations(ps) ==>
              exists p :: p in ps && (p.severity == High || p.severity == Critical) && x.register == p.register
    ensures forall p :: p in ps && (p.severity == High || p.severity == Critical) ==>
              exists x :: x in Recommendations(ps) && x.kind == IndividualRead && x.register == p.register
  {
    RecommendationsHaveSeverePatterns(ps);
    SeverePatternsGetIndividualReads(ps);
  }

  lemma {:induction false} RecommendationsHaveSeverePatterns(ps: seq<ErrorPattern>)
    ensures forall x :: x in Recommendations(ps) ==>
              exists p :: p in ps && (p.severity == High || p.severity == Critical) && x.register == p.register
  {
    if ps != [] {
      var prev := ps[..|ps| - 1];
      var last := ps[|ps| - 1];
      RecommendationsHaveSeverePatterns(prev);
      forall x | x in Recommendations(ps)
        ensures exists p :: p in ps && (p.severity == High || p.severity == Critical) && x.register == p.register
      {
        if x in Recommendations(prev) {
          var p :| p in prev && (p.severity == High || p.severity == Critical) && x.register == p.register;
          var i :| 0 <= i < |prev| && prev[i] == p;
          assert ps[i] == p;
        } else {
          assert x in RecommendationsFor(last);
          assert ps[|ps| - 1] == last;
        }
      }
    }
  }

  lemma {:induction false} SeverePatternsGetIndividualReads(ps: seq<ErrorPattern>)
    ensures forall p :: p in ps && (p.severity == High || p.severity == Critical) ==>
              exists x :: x in Recommendations(ps) && x.kind == IndividualRead && x.register == p.register
  {
    if ps != [] {
      var prev := ps[..|ps| - 1];
      var last := ps[|ps| - 1];
      SeverePatternsGetIndividualReads(prev);
      assert Recommendations(ps) == Recommendations(prev) + RecommendationsFor(last);
      forall p | p in ps && (p.severity == High || p.severity == Critical)
        ensures exists x :: x in Recommendations(ps) && x.kind == IndividualRead && x.register == p.register
      {
        var i :| 0 <= i < |ps| && ps[i] == p;
        if i < |ps| - 1 {
          assert prev[i] == p;
          var x :| x in Recommendations(prev) && x.kind == IndividualRead && x.register == p.register;
          assert x in Recommendations(ps);
        } else {
          var x := RecommendationsFor(last)[0];
          assert x in Recommendations(ps);
        }
      }
    }
  }

  // ---------------------------------------------------------------------
  // get_register_performance_summary

  datatype RegisterStatus = Good | Fair | Poor | CriticalStatus {
    function Name(): string {
      match this
      case Good => "good"
      case Fair => "fair"
      case Poor => "poor"
      case CriticalStatus => "critical"
    }
  }

  function StatusFor(timeoutCount: nat): (s: RegisterStatus)
    ensures s == CriticalStatus <==> timeoutCount >= Config.DAILY_ERROR_THRESHOLD
    ensures s == Poor <==> Config.HOURLY_ERROR_THRESHOLD <= timeoutCount < Config.DAILY_ERROR_THRESHOLD
    ensures s == Fair <==> 5 <= timeoutCount < Config.HOURLY_ERROR_THRESHOLD
    ensures s == Good <==> timeoutCount < 5
  {
    if timeoutCount >= Config.DAILY_ERROR_THRESHOLD then CriticalStatus
    else if timeoutCount >= Config.HOURLY_ERROR_THRESHOLD then Poor
    else if timeoutCount >= 5 then Fair
    else Good
  }

  /** The summary dict; the fields absent from the no-events dict are `None`. */
  datatype PerformanceSummary = PerformanceSummary(
    register: int, timeoutCount: nat, consecutiveTimeouts: Option<nat>, timeSpanHours: Option<real>,
    status: RegisterStatus, recommendations: seq<string>, firstTimeout: Option<int>, lastTimeout: Option<int>)

  /** `find_specific_register_issues` on already parsed events. */
  function FindSpecificRegisterIssues(events: seq<TimeoutEvent>, register: int): seq<TimeoutEvent> {
    EventsOf(events, register)
  }

  /** `get_register_performance_summary`; the register's events stay in log
      order (they are not sorted here). */
  function RegisterPerformanceSummary(events: seq<TimeoutEvent>, register: int): (s: PerformanceSummary)
    ensures s.register == register
    ensures s.timeoutCount == |FindSpecificRegisterIssues(events, register)|
    ensures s.status == StatusFor(s.timeoutCount)
    ensures s.timeoutCount == 0 ==> s.status == Good && s.recommendations == [] && s.consecutiveTimeouts.None?
    ensures s.consecutiveTimeouts.Some? ==> 1 <= s.consecutiveTimeouts.value <= s.timeoutCount
    ensures ("Consider adding to individual reads" in s.recommendations) <==> s.timeoutCount >= 3
    ensures ("Increase timeout to 5 seconds" in s.recommendations) <==> s.timeoutCount >= 5
    ensures ("Check for network or device issues" in s.recommendations) <==>
              s.consecutiveTimeouts.Some? && s.consecutiveTimeouts.value >= 3
    ensures |s.recommendations| <= 3
    ensures var evs := FindSpecificRegisterIssues(events, register);
            evs != [] ==>
              && s.consecutiveTimeouts == Some(Consecutive(Times(evs)))
              && s.firstTimeout == Some(evs[0].timestamp)
              && s.lastTimeout == Some(evs[|evs| - 1].timestamp)
              && s.timeSpanHours == Some((evs[|evs| - 1].timestamp - evs[0].timestamp) as real / 3600.0)
    ensures s.timeoutCount == 0 ==> s.timeSpanHours.None? && s.firstTimeout.None? && s.lastTimeout.None?
  {
    var evs := FindSpecificRegisterIssues(events, register);
    if evs == [] then
      PerformanceSummary(register, 0, None, None, Good, [], None, None)
    else
      var count := |evs|;
      var consecutive := Consecutive(Times(evs));
      var span := if |evs| > 1 then evs[|evs| - 1].timestamp - evs[0].timestamp else 0;
      var recs := (if count >= 3 then ["Consider adding to individual reads"] else [])
                  + (if count >= 5 then ["Increase timeout to 5 seconds"] else [])
                  + (if consecutive >= 3 then ["Check for network or device issues"] else []);
      PerformanceSummary(register, count, Some(consecutive), Some(span as real / 3600.0), StatusFor(count), recs,
                         Some(evs[0].timestamp), Some(evs[|evs| - 1].timestamp))
  }

  /** The summary's consecutive count is the longest stretch of the
      register's timeouts with gaps of at most 300 s. */
  lemma {:induction false} SummaryConsecutiveIsLongestStretch(events: seq<TimeoutEvent>, register: int)
    requires FindSpecificRegisterIssues(events, register) != []
    ensures var ts := Times(FindSpecificRegisterIssues(events, register));
            var c := RegisterPerformanceSummary(events, register).consecutiveTimeouts;
            && c.Some?
            && (exists lo, hi :: 0 <= lo < hi <= |ts| && hi - lo == c.value && Close(ts, lo, hi))
            && (forall lo, hi :: 0 <= lo < hi <= |ts| && Close(ts, lo, hi) ==> hi - lo <= c.value)
  {
    ConsecutiveIsLongestStretch(Times(FindSpecificRegisterIssues(events, register)));
  }
}
