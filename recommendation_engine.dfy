/** The recommendation engine of `recommendation_engine.py`.  It folds the
    error patterns of the log analysis and the Modbus connectivity tests into
    one performance record per register, derives recommendations from each
    record by fixed rules, and merges them into a configuration update. */
module RecommendationEngine {
  import opened Wrappers
  import opened Text
  import opened Levels
  import opened Sorting
  import Config
  import LogAnalyzer
  import NetworkDiagnostics

  /** `self.critical_registers`: never made low priority. */
  const CRITICAL_REGISTERS: set<int> := {0, 1, 1000, 1001, 1002, 1003, 1004}

  /** `self.current_config`, the configuration the recommendations start from. */
  const CURRENT_INDIVIDUAL_READS: seq<int> := [0, 1050, 1060]
  const CURRENT_TIMEOUTS: map<int, real> := map[0 := 2.0, 1050 := 2.0, 1060 := 2.0]
  const CURRENT_LOW_PRIORITY: seq<int> := [0, 1050, 1060]
  const BASE_TIMEOUT: real := 3.0

  predicate Distinct(xs: seq<int>) {
    forall i, j :: 0 <= i < j < |xs| ==> xs[i] != xs[j]
  }

  function Max(a: int, b: int): int { if a >= b then a else b }
  function RMax(a: real, b: real): real { if a >= b then a else b }
  function RMin(a: real, b: real): real { if a <= b then a else b }

  // ---------------------------------------------------------------------
  // RegisterPerformance and the performance table

  /** A `RegisterPerformance` record; times are seconds since the epoch. */
  datatype RegisterPerformance = RegisterPerformance(
    register: int, sensorName: string,
    totalRequests: int, successfulRequests: int, failedRequests: int, timeoutRequests: int,
    avgResponseTime: real, maxResponseTime: real, maxConsecutiveFailures: int,
    errorRate: real, lastSuccess: Option<int>, lastFailure: Option<int>,
    isCritical: bool, currentTimeout: real, currentIndividualRead: bool, currentLowPriority: bool)

  /** A record with the dataclass defaults. */
  function NewRecord(register: int, sensorName: string): RegisterPerformance {
    RegisterPerformance(register, sensorName, 0, 0, 0, 0, 0.0, 0.0, 0, 0.0, None, None,
                        register in CRITICAL_REGISTERS, 3.0, false, false)
  }

  /** `self.performance_data`: a dict, i.e. a map plus its key order. */
  datatype PerformanceTable = PerformanceTable(order: seq<int>, data: map<int, RegisterPerformance>)

  const EMPTY_TABLE: PerformanceTable := PerformanceTable([], map[])

  /** What every record keeps: it is filed under its own register, it is
      marked critical exactly for the critical registers, its successes and
      failures add up to its requests, and its timeouts are among its failures. */
  predicate RecordValid(r: int, p: RegisterPerformance) {
    && p.register == r
    && p.isCritical == (r in CRITICAL_REGISTERS)
    && p.successfulRequests + p.failedRequests == p.totalRequests
    && 0 <= p.timeoutRequests <= p.failedRequests
  }

  predicate TableValid(t: PerformanceTable) {
    && (forall i, j :: 0 <= i < j < |t.order| ==> t.order[i] != t.order[j])
    && (forall r :: r in t.order ==> r in t.data)
    && (forall r :: r in t.data ==> r in t.order)
    && (forall r :: r in t.data ==> RecordValid(r, t.data[r]))
  }

  /** `if register not in self.performance_data: ... = RegisterPerformance(...)`. */
  function Touch(t: PerformanceTable, register: int, sensorName: string): (t': PerformanceTable)
    ensures register in t'.data
    ensures t'.data.Keys == t.data.Keys + {register}
    ensures forall r :: r in t.data ==> t'.data[r] == t.data[r]
  {
    if register in t.data then t
    else PerformanceTable(t.order + [register], t.data[register := NewRecord(register, sensorName)])
  }

  /** The error rate a log-derived record carries. */
  predicate ErrorRateConsistent(p: RegisterPerformance) {
    p.errorRate == p.failedRequests as real / Max(1, p.totalRequests) as real
  }

  /** A record after one error pattern of its register: the pattern's
      timeouts count as failed requests, ten requests are taken per
      timeout, and the error rate is recomputed. */
  function Logged(perf: RegisterPerformance, pattern: LogAnalyzer.ErrorPattern): (p: RegisterPerformance)
    ensures ErrorRateConsistent(p)
    ensures RecordValid(perf.register, perf) ==> RecordValid(perf.register, p)
  {
    var failed := perf.failedRequests + pattern.timeoutCount;
    var total := Max(perf.totalRequests, pattern.timeoutCount * 10);
    perf.(failedRequests := failed,
          timeoutRequests := perf.timeoutRequests + pattern.timeoutCount,
          maxConsecutiveFailures := Max(perf.maxConsecutiveFailures, pattern.consecutiveTimeouts),
          lastFailure := Some(pattern.lastTimeout),
          totalRequests := total,
          successfulRequests := total - failed,
          errorRate := failed as real / Max(1, total) as real)
  }

  /** One error pattern of the log analysis folded into the table. */
  function LogStep(t: PerformanceTable, pattern: LogAnalyzer.ErrorPattern): (t': PerformanceTable)
    ensures t'.data.Keys == t.data.Keys + {pattern.register}
    ensures forall r :: r in t.data && r != pattern.register ==> t'.data[r] == t.data[r]
    ensures ErrorRateConsistent(t'.data[pattern.register])
  {
    var t1 := Touch(t, pattern.register, pattern.sensorName);
    t1.(data := t1.data[pattern.register := Logged(t1.data[pattern.register], pattern)])
  }

  /** Python's truthiness of `result.response_time`. */
  predicate HasResponseTime(result: NetworkDiagnostics.ModbusConnectivityResult) {
    result.responseTime.Some? && result.responseTime.value != 0.0
  }

  /** A record after one connectivity test of its register: one more
      request, and one more success or one more failure; a success with a
      response time folds it into the running average and the maximum.  The
      error rate is not recomputed. */
  function Tested(perf: RegisterPerformance, result: NetworkDiagnostics.ModbusConnectivityResult, now: int)
    : (p: RegisterPerformance)
    ensures p.totalRequests == perf.totalRequests + 1
    ensures p.successfulRequests == perf.successfulRequests + (if result.success then 1 else 0)
    ensures p.failedRequests == perf.failedRequests + (if result.success then 0 else 1)
    ensures p.errorRate == perf.errorRate
    ensures RecordValid(perf.register, perf) ==> RecordValid(perf.register, p)
  {
    if result.success then
      var p := perf.(totalRequests := perf.totalRequests + 1,
                     successfulRequests := perf.successfulRequests + 1,
                     lastSuccess := Some(now));
      if HasResponseTime(result) then
        p.(avgResponseTime := (p.avgResponseTime + result.responseTime.value) / 2.0,
           maxResponseTime := RMax(p.maxResponseTime, result.responseTime.value))
      else p
    else
      perf.(totalRequests := perf.totalRequests + 1,
            failedRequests := perf.failedRequests + 1,
            lastFailure := Some(now))
  }

  /** One Modbus connectivity test folded into the table; `now` is the clock. */
  function ConnectivityStep(t: PerformanceTable, result: NetworkDiagnostics.ModbusConnectivityResult, now: int)
    : (t': PerformanceTable)
    ensures t'.data.Keys == t.data.Keys + {result.register}
    ensures forall r :: r in t.data && r != result.register ==> t'.data[r] == t.data[r]
  {
    var t1 := Touch(t, result.register, "register_" + IntToString(result.register));
    t1.(data := t1.data[result.register := Tested(t1.data[result.register], result, now)])
  }

  function PatternRegisters(patterns: seq<LogAnalyzer.ErrorPattern>): set<int> {
    set p | p in patterns :: p.register
  }

  function ResultRegisters(results: seq<NetworkDiagnostics.ModbusConnectivityResult>): set<int> {
    set r | r in results :: r.register
  }

  /** The loop over `log_analysis.problematic_registers`. */
  function FromLogs(t: PerformanceTable, patterns: seq<LogAnalyzer.ErrorPattern>): (t': PerformanceTable)
    ensures t'.data.Keys == t.data.Keys + PatternRegisters(patterns)
    ensures forall r :: r in t.data && r !in PatternRegisters(patterns) ==> t'.data[r] == t.data[r]
  {
    if patterns == [] then t
    else
      var prev := patterns[..|patterns| - 1];
      assert PatternRegisters(patterns) == PatternRegisters(prev) + {patterns[|patterns| - 1].register} by {
        assert forall p :: p in patterns <==> p in prev || p == patterns[|patterns| - 1];
      }
      LogStep(FromLogs(t, prev), patterns[|patterns| - 1])
  }

  /** The loop over `network_diagnostics.modbus_connectivity_results`. */
  function FromConnectivity(t: PerformanceTable, results: seq<NetworkDiagnostics.ModbusConnectivityResult>, now: int)
    : (t': PerformanceTable)
    ensures t'.data.Keys == t.data.Keys + ResultRegisters(results)
    ensures forall r :: r in t.data && r !in ResultRegisters(results) ==> t'.data[r] == t.data[r]
  {
    if results == [] then t
    else
      var prev := results[..|results| - 1];
      assert ResultRegisters(results) == ResultRegisters(prev) + {results[|results| - 1].register} by {
        assert forall r :: r in results <==> r in prev || r == results[|results| - 1];
      }
      ConnectivityStep(FromConnectivity(t, prev, now), results[|results| - 1], now)
  }

  /** Folding one more pattern is one more `LogStep`. */
  lemma {:induction false} FromLogsStep(t: PerformanceTable, patterns: seq<LogAnalyzer.ErrorPattern>, i: int)
    requires 0 <= i < |patterns|
    ensures FromLogs(t, patterns[..i + 1]) == LogStep(FromLogs(t, patterns[..i]), patterns[i])
  {
    assert patterns[..i + 1][..i] == patterns[..i];
  }

  /** Folding one more test result is one more `ConnectivityStep`. */
  lemma {:induction false} FromConnectivityStep(t: PerformanceTable, results: seq<NetworkDiagnostics.ModbusConnectivityResult>,
                                                i: int, now: int)
    requires 0 <= i < |results|
    ensures FromConnectivity(t, results[..i + 1], now) == ConnectivityStep(FromConnectivity(t, results[..i], now), results[i], now)
  {
    assert results[..i + 1][..i] == results[..i];
  }

  /** The current-configuration fields the last loop writes into a record. */
  function WithConfig(register: int, p: RegisterPerformance): RegisterPerformance {
    p.(currentIndividualRead := register in CURRENT_INDIVIDUAL_READS,
       currentTimeout := if register in CURRENT_TIMEOUTS then CURRENT_TIMEOUTS[register] else BASE_TIMEOUT,
       currentLowPriority := register in CURRENT_LOW_PRIORITY)
  }

  /** The loop over `self.performance_data.items()`, visiting `registers`. */
  function ConfigFold(data: map<int, RegisterPerformance>, registers: seq<int>): (d: map<int, RegisterPerformance>)
    ensures d.Keys == data.Keys
  {
    if registers == [] then data
    else
      var d := ConfigFold(data, registers[..|registers| - 1]);
      var r := registers[|registers| - 1];
      if r in d then d[r := WithConfig(r, d[r])] else d
  }

  /** `_extract_register_performance` on the table `t`.  The `modbus_stats`
      branch is not part of it: its callers pass a value without
      `register_performance`. */
  function Extract(t: PerformanceTable, patterns: seq<LogAnalyzer.ErrorPattern>,
                   results: seq<NetworkDiagnostics.ModbusConnectivityResult>, now: int): PerformanceTable
  {
    var t2 := FromConnectivity(FromLogs(t, patterns), results, now);
    PerformanceTable(t2.order, ConfigFold(t2.data, t2.order))
  }

  lemma {:induction false} ConfigFoldApplies(data: map<int, RegisterPerformance>, registers: seq<int>, r: int)
    requires forall i, j :: 0 <= i < j < |registers| ==> registers[i] != registers[j]
    requires r in data
    ensures ConfigFold(data, registers)[r] == if r in registers then WithConfig(r, data[r]) else data[r]
  {
    if registers != [] {
      var prev := registers[..|registers| - 1];
      ConfigFoldApplies(data, prev, r);
      assert registers == prev + [registers[|registers| - 1]];
      assert r in registers <==> r in prev || r == registers[|registers| - 1];
      if r == registers[|registers| - 1] {
        assert r !in prev;
      }
    }
  }

  lemma {:induction false} TouchValid(t: PerformanceTable, register: int, sensorName: string)
    requires TableValid(t)
    ensures TableValid(Touch(t, register, sensorName))
  {
    if register !in t.data {
      var t' := Touch(t, register, sensorName);
      assert t'.order == t.order + [register];
      assert register !in t.order;
      forall r | r in t'.order
        ensures r in t'.data
      {
        if r != register {
          assert r in t.order;
        }
      }
    }
  }

  lemma {:induction false} LogStepValid(t: PerformanceTable, pattern: LogAnalyzer.ErrorPattern)
    requires TableValid(t)
    ensures TableValid(LogStep(t, pattern))
  {
    TouchValid(t, pattern.register, pattern.sensorName);
  }

  lemma {:induction false} ConnectivityStepValid(t: PerformanceTable, result: NetworkDiagnostics.ModbusConnectivityResult, now: int)
    requires TableValid(t)
    ensures TableValid(ConnectivityStep(t, result, now))
  {
    TouchValid(t, result.register, "register_" + IntToString(result.register));
  }

  lemma {:induction false} FromLogsValid(t: PerformanceTable, patterns: seq<LogAnalyzer.ErrorPattern>)
    requires TableValid(t)
    ensures TableValid(FromLogs(t, patterns))
  {
    if patterns != [] {
      FromLogsValid(t, patterns[..|patterns| - 1]);
      LogStepValid(FromLogs(t, patterns[..|patterns| - 1]), patterns[|patterns| - 1]);
    }
  }

  lemma {:induction false} FromConnectivityValid(t: PerformanceTable,
                                                 results: seq<NetworkDiagnostics.ModbusConnectivityResult>, now: int)
    requires TableValid(t)
    ensures TableValid(FromConnectivity(t, results, now))
  {
    if results != [] {
      FromConnectivityValid(t, results[..|results| - 1], now);
      ConnectivityStepValid(FromConnectivity(t, results[..|results| - 1], now), results[|results| - 1], now);
    }
  }

  /** Extraction keeps the table well formed and covers exactly the
      registers it had and those the inputs mention. */
  lemma {:induction false} ExtractValid(t: PerformanceTable, patterns: seq<LogAnalyzer.ErrorPattern>,
                     results: seq<NetworkDiagnostics.ModbusConnectivityResult>, now: int)
    requires TableValid(t)
    ensures TableValid(Extract(t, patterns, results, now))
    ensures Extract(t, patterns, results, now).data.Keys == t.data.Keys + PatternRegisters(patterns) + ResultRegisters(results)
  {
    var t1 := FromLogs(t, patterns);
    var t2 := FromConnectivity(t1, results, now);
    FromLogsValid(t, patterns);
    FromConnectivityValid(t1, results, now);
    ConfigFoldValid(t2);
  }

  /** Writing the current configuration into every record keeps the table
      well formed. */
  lemma {:induction false} ConfigFoldValid(t: PerformanceTable)
    requires TableValid(t)
    ensures TableValid(PerformanceTable(t.order, ConfigFold(t.data, t.order)))
  {
    var d := ConfigFold(t.data, t.order);
    forall r | r in d
      ensures RecordValid(r, d[r])
    {
      ConfigFoldApplies(t.data, t.order, r);
    }
  }

  /** After extraction every record carries the current configuration of
      its register. */
  lemma {:induction false} ExtractAppliesCurrentConfig(t: PerformanceTable, patterns: seq<LogAnalyzer.ErrorPattern>,
                                    results: seq<NetworkDiagnostics.ModbusConnectivityResult>, now: int)
    requires TableValid(t)
    ensures var t' := Extract(t, patterns, results, now);
            forall r :: r in t'.data ==>
              && (t'.data[r].currentIndividualRead <==> r in CURRENT_INDIVIDUAL_READS)
              && (t'.data[r].currentLowPriority <==> r in CURRENT_LOW_PRIORITY)
              && t'.data[r].currentTimeout == (if r in CURRENT_TIMEOUTS then CURRENT_TIMEOUTS[r] else BASE_TIMEOUT)
  {
    var t1 := FromLogs(t, patterns);
    var t2 := FromConnectivity(t1, results, now);
    FromLogsValid(t, patterns);
    FromConnectivityValid(t1, results, now);
    var d := ConfigFold(t2.data, t2.order);
    forall r | r in d
      ensures d[r] == WithConfig(r, t2.data[r])
    {
      ConfigFoldApplies(t2.data, t2.order, r);
    }
  }

  /** For every register some error pattern names, the record after the log
      loop carries error rate = failed / max(1, total). */
  lemma {:induction false} LogRecordsCarryErrorRate(t: PerformanceTable, patterns: seq<LogAnalyzer.ErrorPattern>)
    ensures forall r :: r in PatternRegisters(patterns) ==> ErrorRateConsistent(FromLogs(t, patterns).data[r])
  {
    if patterns != [] {
      var prev := patterns[..|patterns| - 1];
      var last := patterns[|patterns| - 1];
      LogRecordsCarryErrorRate(t, prev);
      assert forall p :: p in patterns <==> p in prev || p == last;
    }
  }

  /** The number of connectivity tests of `register`, and of those that succeeded. */
  function TestsOf(results: seq<NetworkDiagnostics.ModbusConnectivityResult>, register: int): nat {
    if results == [] then 0
    else TestsOf(results[..|results| - 1], register) + (if results[|results| - 1].register == register then 1 else 0)
  }

  function SuccessesOf(results: seq<NetworkDiagnostics.ModbusConnectivityResult>, register: int): nat {
    if results == [] then 0
    else
      var last := results[|results| - 1];
      SuccessesOf(results[..|results| - 1], register) + (if last.register == register && last.success then 1 else 0)
  }

  function Before(t: PerformanceTable, register: int): RegisterPerformance {
    if register in t.data then t.data[register] else NewRecord(register, "")
  }

  /** Each connectivity test adds one request to its register, and one
      success or one failure; the error rate is left as it was. */
  lemma {:induction false} ConnectivityTally(t: PerformanceTable, results: seq<NetworkDiagnostics.ModbusConnectivityResult>,
                                             now: int, register: int)
    requires register in FromConnectivity(t, results, now).data
    ensures var p := FromConnectivity(t, results, now).data[register];
            && p.totalRequests == Before(t, register).totalRequests + TestsOf(results, register)
            && p.successfulRequests == Before(t, register).successfulRequests + SuccessesOf(results, register)
            && p.failedRequests == Before(t, register).failedRequests + TestsOf(results, register) - SuccessesOf(results, register)
            && p.errorRate == Before(t, register).errorRate
  {
    if results != [] {
      var prev, last := results[..|results| - 1], results[|results| - 1];
      var mid := FromConnectivity(t, prev, now);
      var q := FromConnectivity(t, results, now).data[register];
      assert FromConnectivity(t, results, now) == ConnectivityStep(mid, last, now);
      if last.register != register {
        assert q == mid.data[register];
        ConnectivityTally(t, prev, now, register);
      } else {
        var m := Touch(mid, register, "register_" + IntToString(register)).data[register];
        assert q == Tested(m, last, now);
        if register in mid.data {
          ConnectivityTally(t, prev, now, register);
        } else {
          assert register !in t.data && register !in ResultRegisters(prev);
          ZeroTestsOf(prev, register);
        }
      }
    }
  }

  lemma {:induction false} ZeroTestsOf(results: seq<NetworkDiagnostics.ModbusConnectivityResult>, register: int)
    requires register !in ResultRegisters(results)
    ensures TestsOf(results, register) == 0 && SuccessesOf(results, register) == 0
  {
    if results != [] {
      var prev := results[..|results| - 1];
      assert ResultRegisters(prev) <= ResultRegisters(results);
      ZeroTestsOf(prev, register);
    }
  }

  // ---------------------------------------------------------------------
  // The rules

  /** `_should_recommend_individual_read`. */
  function ShouldRecommendIndividualRead(p: RegisterPerformance): (b: bool)
    ensures b <==> !p.currentIndividualRead
                   && (p.errorRate > 0.05 || p.maxConsecutiveFailures >= 3 || p.avgResponseTime > 3000.0)
  {
    if p.currentIndividualRead then false
    else if p.errorRate > Config.INDIVIDUAL_READ_ERROR_THRESHOLD as real / 100.0 then true
    else if p.maxConsecutiveFailures >= Config.INDIVIDUAL_READ_TIMEOUT_THRESHOLD then true
    else if p.avgResponseTime > Config.INDIVIDUAL_READ_SLOW_THRESHOLD then true
    else false
  }

  /** `_should_recommend_timeout_adjustment`. */
  function ShouldRecommendTimeoutAdjustment(p: RegisterPerformance): (b: bool)
    ensures b <==> p.timeoutRequests > 5
                   || (p.currentTimeout < 5.0 && (p.errorRate > 0.1 || p.avgResponseTime > 2000.0))
  {
    if p.errorRate > 0.1 && p.currentTimeout < 5.0 then true
    else if p.timeoutRequests > 5 then true
    else if p.avgResponseTime > 2000.0 && p.currentTimeout < 5.0 then true
    else false
  }

  /** `_should_recommend_low_priority`. */
  function ShouldRecommendLowPriority(p: RegisterPerformance): (b: bool)
    ensures b <==> !p.isCritical && !p.currentLowPriority && (p.errorRate > 0.1 || p.avgResponseTime > 5000.0)
  {
    if p.isCritical then false
    else if p.currentLowPriority then false
    else if p.errorRate > Config.LOW_PRIORITY_ERROR_THRESHOLD as real / 100.0 then true
    else if p.avgResponseTime > Config.LOW_PRIORITY_SLOW_THRESHOLD then true
    else false
  }

  datatype RecommendationType = IndividualRead | TimeoutAdjustment | LowPriority

  /** `current_value` / `recommended_value`: "True"/"False" or seconds. */
  datatype Setting = Flag(on: bool) | Seconds(seconds: real)

  /** The evidence lines, without the float formatting of their numbers. */
  datatype Evidence =
    | HighErrorRate(rate: real)
    | ErrorRate(rate: real)
    | ConsecutiveFailures(count: int)
    | TimeoutCount(count: int)
    | SlowResponse(ms: real)
    | AvgResponse(ms: real)

  datatype Recommendation = Recommendation(
    kind: RecommendationType, register: int, sensorName: string,
    currentValue: Setting, recommendedValue: Setting, reason: string,
    priority: Level, confidence: real, impact: Level, evidence: seq<Evidence>)

  /** `_create_individual_read_recommendation`. */
  function IndividualReadRecommendation(p: RegisterPerformance): (rec: Recommendation)
    ensures rec.kind == IndividualRead && rec.register == p.register
    ensures 0.5 <= rec.confidence <= 1.0
    ensures rec.confidence == 0.5 <==> rec.evidence == []
    ensures rec.priority == Critical <==> p.errorRate > 0.2
    ensures p.errorRate <= 0.2 ==> (rec.priority == High <==> p.isCritical) && rec.priority != Low
  {
    var e1 := if p.errorRate > 0.1 then [HighErrorRate(p.errorRate)] else [];
    var e2 := if p.maxConsecutiveFailures >= 3 then [ConsecutiveFailures(p.maxConsecutiveFailures)] else [];
    var e3 := if p.avgResponseTime > 2000.0 then [SlowResponse(p.avgResponseTime)] else [];
    var confidence := 0.5 + (if e1 != [] then 0.2 else 0.0) + (if e2 != [] then 0.2 else 0.0)
                      + (if e3 != [] then 0.1 else 0.0);
    var priority := if p.errorRate > 0.2 then Critical else if p.isCritical then High else Medium;
    Recommendation(IndividualRead, p.register, p.sensorName, Flag(false), Flag(true),
                   "Register " + IntToString(p.register) + " has performance issues",
                   priority, RMin(1.0, confidence), Medium, e1 + e2 + e3)
  }

  /** The timeout `_create_timeout_adjustment_recommendation` proposes:
      the current one scaled by 2.5, 2.0 or 1.5 by error-rate band, then
      clamped into [MIN_RECOMMENDED_TIMEOUT, MAX_RECOMMENDED_TIMEOUT]. */
  function RecommendedTimeout(p: RegisterPerformance): (seconds: real)
    ensures Config.MIN_RECOMMENDED_TIMEOUT <= seconds <= Config.MAX_RECOMMENDED_TIMEOUT
  {
    var scaled :=
      if p.errorRate > 0.2 then RMin(Config.MAX_RECOMMENDED_TIMEOUT, p.currentTimeout * 2.5)
      else if p.errorRate > 0.1 then RMin(Config.MAX_RECOMMENDED_TIMEOUT, p.currentTimeout * 2.0)
      else RMin(Config.MAX_RECOMMENDED_TIMEOUT, p.currentTimeout * Config.TIMEOUT_ADJUSTMENT_FACTOR);
    RMax(Config.MIN_RECOMMENDED_TIMEOUT, scaled)
  }

  /** A timeout inside the recommended range is never shortened, and one
      the scaling keeps inside the range is scaled by exactly its band's
      factor. */
  lemma {:induction false} RecommendedTimeoutGrows(p: RegisterPerformance)
    ensures Config.MIN_RECOMMENDED_TIMEOUT <= p.currentTimeout <= Config.MAX_RECOMMENDED_TIMEOUT
            ==> RecommendedTimeout(p) >= p.currentTimeout
    ensures var factor := if p.errorRate > 0.2 then 2.5 else if p.errorRate > 0.1 then 2.0 else 1.5;
            1.0 <= p.currentTimeout * factor <= 10.0 ==> RecommendedTimeout(p) == p.currentTimeout * factor
  {
  }

  /** `_create_timeout_adjustment_recommendation`. */
  function TimeoutAdjustmentRecommendation(p: RegisterPerformance): (rec: Recommendation)
    ensures rec.kind == TimeoutAdjustment && rec.register == p.register
    ensures rec.recommendedValue == Seconds(RecommendedTimeout(p))
    ensures 0.6 <= rec.confidence <= 1.0
    ensures rec.confidence == 0.6 <==> rec.evidence == []
    ensures rec.priority == Critical <==> p.errorRate > 0.3
    ensures p.errorRate <= 0.3 ==> (rec.priority == High <==> p.isCritical) && rec.priority != Low
  {
    var e1 := if p.errorRate > 0.1 then [ErrorRate(p.errorRate)] else [];
    var e2 := if p.timeoutRequests > 5 then [TimeoutCount(p.timeoutRequests)] else [];
    var e3 := if p.avgResponseTime > 2000.0 then [AvgResponse(p.avgResponseTime)] else [];
    var confidence := 0.6 + (if e1 != [] then 0.2 else 0.0) + (if e2 != [] then 0.1 else 0.0)
                      + (if e3 != [] then 0.1 else 0.0);
    var priority := if p.errorRate > 0.3 then Critical else if p.isCritical then High else Medium;
    Recommendation(TimeoutAdjustment, p.register, p.sensorName,
                   Seconds(p.currentTimeout), Seconds(RecommendedTimeout(p)),
                   "Register " + IntToString(p.register) + " needs longer timeout",
                   priority, RMin(1.0, confidence), Low, e1 + e2 + e3)
  }

  /** `_create_low_priority_recommendation`. */
  function LowPriorityRecommendation(p: RegisterPerformance): (rec: Recommendation)
    ensures rec.kind == LowPriority && rec.register == p.register && rec.priority == Low
    ensures 0.7 <= rec.confidence <= 0.9
    ensures rec.confidence == 0.7 <==> rec.evidence == []
  {
    var e1 := if p.errorRate > 0.1 then [ErrorRate(p.errorRate)] else [];
    var e2 := if p.avgResponseTime > 3000.0 then [SlowResponse(p.avgResponseTime)] else [];
    var confidence := 0.7 + (if e1 != [] then 0.1 else 0.0) + (if e2 != [] then 0.1 else 0.0);
    Recommendation(LowPriority, p.register, p.sensorName, Flag(false), Flag(true),
                   "Register " + IntToString(p.register) + " is non-critical with performance issues",
                   Low, RMin(1.0, confidence), Low, e1 + e2)
  }

  /** The recommendations one record yields, in the order the loop appends them. */
  function RecordRecommendations(p: RegisterPerformance): (recs: seq<Recommendation>)
    ensures forall rec :: rec in recs ==> rec.register == p.register
  {
    (if ShouldRecommendIndividualRead(p) then [IndividualReadRecommendation(p)] else [])
    + (if ShouldRecommendTimeoutAdjustment(p) then [TimeoutAdjustmentRecommendation(p)] else [])
    + (if ShouldRecommendLowPriority(p) then [LowPriorityRecommendation(p)] else [])
  }

  /** A recommendation the rules give for record `p`. */
  predicate Justified(rec: Recommendation, p: RegisterPerformance) {
    rec in RecordRecommendations(p)
  }

  /** The recommendations of one record are exactly those whose rule holds. */
  lemma {:induction false} JustifiedByARule(rec: Recommendation, p: RegisterPerformance)
    ensures Justified(rec, p) <==>
            || (ShouldRecommendIndividualRead(p) && rec == IndividualReadRecommendation(p))
            || (ShouldRecommendTimeoutAdjustment(p) && rec == TimeoutAdjustmentRecommendation(p))
            || (ShouldRecommendLowPriority(p) && rec == LowPriorityRecommendation(p))
  {
  }

  /** The recommendations of the records of `registers`, before sorting. */
  function Candidates(data: map<int, RegisterPerformance>, registers: seq<int>): (recs: seq<Recommendation>)
    ensures forall rec :: rec in recs ==> Parsable(rec) && rec.confidence <= 1.0
  {
    if registers == [] then []
    else
      var r := registers[|registers| - 1];
      Candidates(data, registers[..|registers| - 1]) + (if r in data then RecordRecommendations(data[r]) else [])
  }

  /** Each candidate comes from the record of a visited register. */
  lemma {:induction false} CandidatesJustified(data: map<int, RegisterPerformance>, registers: seq<int>)
    ensures forall rec :: rec in Candidates(data, registers) ==>
              exists r :: r in registers && r in data && Justified(rec, data[r])
  {
    if registers != [] {
      var prev := registers[..|registers| - 1];
      var r := registers[|registers| - 1];
      CandidatesJustified(data, prev);
      forall rec | rec in Candidates(data, registers)
        ensures exists r :: r in registers && r in data && Justified(rec, data[r])
      {
        if rec in Candidates(data, prev) {
          var q :| q in prev && q in data && Justified(rec, data[q]);
          assert q in registers;
        } else {
          assert r in registers;
        }
      }
    }
  }

  lemma {:induction false} CandidatesComplete(data: map<int, RegisterPerformance>, registers: seq<int>, r: int)
    requires r in registers && r in data
    ensures forall rec :: rec in RecordRecommendations(data[r]) ==> rec in Candidates(data, registers)
  {
    var prev := registers[..|registers| - 1];
    if r != registers[|registers| - 1] {
      assert registers == prev + [registers[|registers| - 1]];
      CandidatesComplete(data, prev, r);
    }
  }

  /** A timeout recommendation carries its value in seconds, so
      `float(rec.recommended_value.replace('s', ''))` succeeds. */
  predicate Parsable(rec: Recommendation) {
    rec.kind == TimeoutAdjustment ==> rec.recommendedValue.Seconds?
  }

  /** `(priority, confidence)`, negated: Python's `reverse=True` sort is
      stable, so it is an ascending stable sort on the negated key. */
  function RankKey(rec: Recommendation): SortKey {
    SortKey(-(rec.priority.LexRank() as int), -rec.confidence)
  }

  /** `_generate_recommendations` on table `t`. */
  function Recommendations(t: PerformanceTable): (recs: seq<Recommendation>)
    ensures forall rec :: rec in recs ==> Parsable(rec)
  {
    SortedMembers(Candidates(t.data, t.order));
    SortBy(Candidates(t.data, t.order), RankKey)
  }

  lemma {:induction false} SortedMembers(s: seq<Recommendation>)
    ensures forall rec :: rec in SortBy(s, RankKey) <==> rec in s
  {
    var r := SortBy(s, RankKey);
    forall rec
      ensures rec in r <==> rec in s
    {
      assert rec in r <==> rec in multiset(r);
      assert rec in s <==> rec in multiset(s);
    }
  }

  /** Every recommendation is justified by the record of its register. */
  lemma {:induction false} RecommendationsAreJustified(t: PerformanceTable)
    requires TableValid(t)
    ensures forall rec :: rec in Recommendations(t) ==> rec.register in t.data && Justified(rec, t.data[rec.register])
  {
    SortedMembers(Candidates(t.data, t.order));
    CandidatesJustified(t.data, t.order);
    forall rec | rec in Recommendations(t)
      ensures rec.register in t.data && Justified(rec, t.data[rec.register])
    {
      var r :| r in t.order && r in t.data && Justified(rec, t.data[r]);
      assert rec.register == t.data[r].register == r;
    }
  }

  /** Every recommendation the rules call for is there. */
  lemma {:induction false} RecommendationsAreComplete(t: PerformanceTable)
    requires TableValid(t)
    ensures forall r :: r in t.data && ShouldRecommendIndividualRead(t.data[r])
                        ==> IndividualReadRecommendation(t.data[r]) in Recommendations(t)
    ensures forall r :: r in t.data && ShouldRecommendTimeoutAdjustment(t.data[r])
                        ==> TimeoutAdjustmentRecommendation(t.data[r]) in Recommendations(t)
    ensures forall r :: r in t.data && ShouldRecommendLowPriority(t.data[r])
                        ==> LowPriorityRecommendation(t.data[r]) in Recommendations(t)
  {
    var candidates := Candidates(t.data, t.order);
    SortedMembers(candidates);
    forall r | r in t.data
      ensures forall rec :: rec in RecordRecommendations(t.data[r]) ==> rec in candidates
    {
      CandidatesComplete(t.data, t.order, r);
    }
  }

  /** The list comes highest priority string first, and by descending
      confidence within one priority; every confidence is at most 1. */
  lemma {:induction false} RecommendationsRanked(t: PerformanceTable)
    ensures var recs := Recommendations(t);
            forall i, j :: 0 <= i < j < |recs| ==>
              recs[i].priority.LexRank() > recs[j].priority.LexRank()
              || (recs[i].priority == recs[j].priority && recs[i].confidence >= recs[j].confidence)
    ensures forall rec :: rec in Recommendations(t) ==> rec.confidence <= 1.0
  {
    var recs := Recommendations(t);
    SortedMembers(Candidates(t.data, t.order));
    forall i, j | 0 <= i < j < |recs|
      ensures recs[i].priority.LexRank() > recs[j].priority.LexRank()
              || (recs[i].priority == recs[j].priority && recs[i].confidence >= recs[j].confidence)
    {
      assert KeyLe(RankKey(recs[i]), RankKey(recs[j]));
      if recs[i].priority.LexRank() == recs[j].priority.LexRank() {
        assert recs[i].priority == recs[j].priority;
      }
    }
  }

  /** A critical register is never recommended for low priority. */
  lemma {:induction false} CriticalRegistersStayPrioritised(t: PerformanceTable)
    requires TableValid(t)
    ensures forall rec :: rec in Recommendations(t) && rec.kind == LowPriority ==> rec.register !in CRITICAL_REGISTERS
  {
    RecommendationsAreJustified(t);
    RecommendationsAreComplete(t);
  }

  // ---------------------------------------------------------------------
  // _create_configuration_update

  /** The register list after appending the registers of the `kind`
      recommendations that are not yet in it. */
  function MergeList(base: seq<int>, recs: seq<Recommendation>, kind: RecommendationType): seq<int> {
    if recs == [] then base
    else
      var l := MergeList(base, recs[..|recs| - 1], kind);
      var last := recs[|recs| - 1];
      if last.kind == kind && last.register !in l then l + [last.register] else l
  }

  /** The merged list holds the base list and the register of every `kind`
      recommendation, each once when the base list has no repeats. */
  lemma {:induction false} MergeListContents(base: seq<int>, recs: seq<Recommendation>, kind: RecommendationType)
    ensures forall r :: r in MergeList(base, recs, kind) <==>
              r in base || exists rec :: rec in recs && rec.kind == kind && rec.register == r
    ensures Distinct(base) ==> Distinct(MergeList(base, recs, kind))
  {
    if recs != [] {
      var prev := recs[..|recs| - 1];
      var last := recs[|recs| - 1];
      MergeListContents(base, prev, kind);
      assert forall rec :: rec in recs <==> rec in prev || rec == last;
      var l := MergeList(base, prev, kind);
      if Distinct(base) && last.kind == kind && last.register !in l {
        var l' := l + [last.register];
        forall i, j | 0 <= i < j < |l'|
          ensures l'[i] != l'[j]
        {
          if j == |l| {
            assert l'[i] in l;
          }
        }
      }
    }
  }

  predicate IsTimeoutFor(rec: Recommendation, register: int) {
    rec.kind == TimeoutAdjustment && rec.register == register
  }

  /** The timeout map after setting the recommended value of every timeout
      recommendation. */
  function MergeTimeouts(base: map<int, real>, recs: seq<Recommendation>): map<int, real>
    requires forall rec :: rec in recs ==> Parsable(rec)
  {
    if recs == [] then base
    else
      var last := recs[|recs| - 1];
      assert last in recs;
      var m := MergeTimeouts(base, recs[..|recs| - 1]);
      assert Parsable(last);
      if last.kind == TimeoutAdjustment then m[last.register := last.recommendedValue.seconds] else m
  }

  /** The merged map has the base keys and the register of every timeout
      recommendation. */
  lemma {:induction false} MergeTimeoutsKeys(base: map<int, real>, recs: seq<Recommendation>)
    requires forall rec :: rec in recs ==> Parsable(rec)
    ensures forall r :: r in MergeTimeouts(base, recs) <==> r in base || exists rec :: rec in recs && IsTimeoutFor(rec, r)
  {
    if recs != [] {
      var prev := recs[..|recs| - 1];
      var last := recs[|recs| - 1];
      assert forall rec :: rec in recs <==> rec in prev || rec == last;
      MergeTimeoutsKeys(base, prev);
      var m := MergeTimeouts(base, recs);
      var pm := MergeTimeouts(base, prev);
      assert last in recs && Parsable(last);
      assert m == if last.kind == TimeoutAdjustment then pm[last.register := last.recommendedValue.seconds] else pm;
      forall r
        ensures r in m <==> r in base || exists rec :: rec in recs && IsTimeoutFor(rec, r)
      {
        if IsTimeoutFor(last, r) {
          assert r in m;
        } else {
          assert r in m <==> r in pm;
          if exists rec :: rec in recs && IsTimeoutFor(rec, r) {
            var rec :| rec in recs && IsTimeoutFor(rec, r);
            assert rec in prev;
          }
          if exists rec :: rec in prev && IsTimeoutFor(rec, r) {
            var rec :| rec in prev && IsTimeoutFor(rec, r);
            assert rec in recs;
          }
        }
      }
    }
  }

  /** A register without timeout recommendation keeps its base value. */
  lemma {:induction false} MergeTimeoutsKeeps(base: map<int, real>, recs: seq<Recommendation>, r: int)
    requires forall rec :: rec in recs ==> Parsable(rec)
    requires r in base && forall rec :: rec in recs ==> !IsTimeoutFor(rec, r)
    ensures r in MergeTimeouts(base, recs) && MergeTimeouts(base, recs)[r] == base[r]
  {
    if recs != [] {
      var prev := recs[..|recs| - 1];
      assert recs[|recs| - 1] in recs;
      assert forall rec :: rec in prev ==> rec in recs;
      MergeTimeoutsKeeps(base, prev, r);
    }
  }

  /** A register's last timeout recommendation sets its value. */
  lemma {:induction false} MergeTimeoutsLast(base: map<int, real>, recs: seq<Recommendation>, i: int)
    requires forall rec :: rec in recs ==> Parsable(rec)
    requires 0 <= i < |recs| && recs[i].kind == TimeoutAdjustment
    requires forall j :: i < j < |recs| ==> !IsTimeoutFor(recs[j], recs[i].register)
    ensures recs[i].register in MergeTimeouts(base, recs)
    ensures recs[i].recommendedValue == Seconds(MergeTimeouts(base, recs)[recs[i].register])
  {
    var prev := recs[..|recs| - 1];
    var last := recs[|recs| - 1];
    assert last in recs && recs[i] in recs;
    if i < |recs| - 1 {
      assert forall rec :: rec in prev ==> rec in recs;
      MergeTimeoutsLast(base, prev, i);
      assert !IsTimeoutFor(last, recs[i].register);
    }
  }

  function IntKey(x: int): SortKey { SortKey(x, 0.0) }

  /** The registers of `xs` that `base` lacks, in order. */
  function NewEntries(xs: seq<int>, base: seq<int>): (n: seq<int>)
    ensures forall r :: r in n <==> r in xs && r !in base
  {
    if xs == [] then []
    else
      var prev := xs[..|xs| - 1];
      assert forall r :: r in xs <==> r in prev || r == xs[|xs| - 1];
      NewEntries(prev, base) + (if xs[|xs| - 1] in base then [] else [xs[|xs| - 1]])
  }

  /** The keys of `new_timeouts`: new, or with a changed value. */
  function ChangedTimeouts(timeouts: map<int, real>): set<int> {
    set k | k in timeouts && (k !in CURRENT_TIMEOUTS || CURRENT_TIMEOUTS[k] != timeouts[k])
  }

  const NO_CHANGES: string := "No configuration changes recommended"

  /** `_generate_summary`. */
  function GenerateSummary(individualReads: seq<int>, timeouts: map<int, real>, lowPriority: seq<int>): (s: string)
    ensures s == NO_CHANGES <==> NewEntries(individualReads, CURRENT_INDIVIDUAL_READS) == []
                                 && ChangedTimeouts(timeouts) == {}
                                 && NewEntries(lowPriority, CURRENT_LOW_PRIORITY) == []
  {
    var newReads := NewEntries(individualReads, CURRENT_INDIVIDUAL_READS);
    var newTimeouts := ChangedTimeouts(timeouts);
    var newLow := NewEntries(lowPriority, CURRENT_LOW_PRIORITY);
    var changes :=
      (if newReads != [] then
         ["Add " + IntToString(|newReads|) + " registers to individual reads: " + IntListRepr(newReads)]
       else [])
      + (if newTimeouts != {} then ["Adjust timeouts for " + IntToString(|newTimeouts|) + " registers"] else [])
      + (if newLow != [] then
           ["Add " + IntToString(|newLow|) + " registers to low priority: " + IntListRepr(newLow)]
         else []);
    if changes == [] then NO_CHANGES
    else
      var s := "Configuration changes: " + Join("; ", changes);
      assert s[0] != NO_CHANGES[0];
      s
  }

  function CountPriority(recs: seq<Recommendation>, level: Level): (n: nat)
    ensures n > 0 <==> exists rec :: rec in recs && rec.priority == level
    ensures n <= |recs|
  {
    if recs == [] then 0
    else
      var prev := recs[..|recs| - 1];
      assert forall rec :: rec in recs <==> rec in prev || rec == recs[|recs| - 1];
      CountPriority(prev, level) + (if recs[|recs| - 1].priority == level then 1 else 0)
  }

  datatype Risk = HighRisk(critical: nat) | MediumRisk(high: nat) | LowRisk(high: nat) | MinimalRisk {
    function Message(): string {
      match this
      case HighRisk(n) => "HIGH RISK: " + IntToString(n) + " critical recommendations"
      case MediumRisk(n) => "MEDIUM RISK: " + IntToString(n) + " high-priority recommendations"
      case LowRisk(n) => "LOW RISK: " + IntToString(n) + " high-priority recommendations"
      case MinimalRisk => "MINIMAL RISK: Only low-priority recommendations"
    }
  }

  /** `_assess_risk`. */
  function AssessRisk(recs: seq<Recommendation>): (risk: Risk)
    ensures risk.HighRisk? <==> exists rec :: rec in recs && rec.priority == Critical
    ensures risk.MediumRisk? <==> CountPriority(recs, Critical) == 0 && CountPriority(recs, High) > 3
    ensures risk.LowRisk? <==> CountPriority(recs, Critical) == 0 && 1 <= CountPriority(recs, High) <= 3
    ensures risk == MinimalRisk <==> forall rec :: rec in recs ==> rec.priority != Critical && rec.priority != High
    ensures risk.HighRisk? ==> risk.critical == CountPriority(recs, Critical)
    ensures risk.MediumRisk? || risk.LowRisk? ==> risk.high == CountPriority(recs, High)
  {
    var critical := CountPriority(recs, Critical);
    var high := CountPriority(recs, High);
    if critical > 0 then HighRisk(critical)
    else if high > 3 then MediumRisk(high)
    else if high > 0 then LowRisk(high)
    else MinimalRisk
  }

  /** The risk is high exactly when some record's error rate calls for a
      critical individual-read or timeout recommendation. */
  lemma {:induction false} HighRiskFromErrorRates(t: PerformanceTable)
    requires TableValid(t)
    ensures AssessRisk(Recommendations(t)).HighRisk? <==>
            exists r :: r in t.data && CriticalRecord(t.data[r])
  {
    var recs := Recommendations(t);
    if exists r :: r in t.data && CriticalRecord(t.data[r]) {
      RecommendationsAreComplete(t);
      var r :| r in t.data && CriticalRecord(t.data[r]);
      var p := t.data[r];
      if ShouldRecommendIndividualRead(p) && p.errorRate > 0.2 {
        assert IndividualReadRecommendation(p) in recs;
      } else {
        assert TimeoutAdjustmentRecommendation(p) in recs;
      }
    }
    if AssessRisk(recs).HighRisk? {
      RecommendationsAreJustified(t);
      var rec :| rec in recs && rec.priority == Critical;
      var p := t.data[rec.register];
      JustifiedByARule(rec, p);
      assert CriticalRecord(p);
    }
  }

  /** A record whose error rate calls for a critical individual-read or
      timeout recommendation. */
  predicate CriticalRecord(p: RegisterPerformance) {
    || (ShouldRecommendIndividualRead(p) && p.errorRate > 0.2)
    || (ShouldRecommendTimeoutAdjustment(p) && p.errorRate > 0.3)
  }

  /** A `ConfigurationUpdate`; `circuit_breaker_settings` (the current
      configuration) and the empty `update_intervals` are constants and left out. */
  datatype ConfigurationUpdate = ConfigurationUpdate(
    timestamp: int, individualReadRegisters: seq<int>, registerTimeouts: map<int, real>,
    lowPriorityRegisters: seq<int>, recommendations: seq<Recommendation>, summary: string, risk: Risk)

  /** The update's lists and timeout map: the current ones merged with the
      recommendations, the lists sorted. */
  function IndividualReadsAfter(recs: seq<Recommendation>): seq<int> {
    SortBy(MergeList(CURRENT_INDIVIDUAL_READS, recs, IndividualRead), IntKey)
  }

  function LowPriorityAfter(recs: seq<Recommendation>): seq<int> {
    SortBy(MergeList(CURRENT_LOW_PRIORITY, recs, LowPriority), IntKey)
  }

  function TimeoutsAfter(recs: seq<Recommendation>): map<int, real>
    requires forall rec :: rec in recs ==> Parsable(rec)
  {
    MergeTimeouts(CURRENT_TIMEOUTS, recs)
  }

  /** `_create_configuration_update`, `now` being the clock. */
  function ConfigurationUpdateOf(recs: seq<Recommendation>, now: int): ConfigurationUpdate
    requires forall rec :: rec in recs ==> Parsable(rec)
  {
    Assemble(now, IndividualReadsAfter(recs), TimeoutsAfter(recs), LowPriorityAfter(recs), recs)
  }

  /** The update with its summary and risk assessment. */
  function Assemble(now: int, individualReads: seq<int>, timeouts: map<int, real>, lowPriority: seq<int>,
                    recs: seq<Recommendation>): (u: ConfigurationUpdate)
    ensures u.individualReadRegisters == individualReads && u.registerTimeouts == timeouts
    ensures u.lowPriorityRegisters == lowPriority && u.recommendations == recs
  {
    ConfigurationUpdate(now, individualReads, timeouts, lowPriority, recs,
                        GenerateSummary(individualReads, timeouts, lowPriority), AssessRisk(recs))
  }

  lemma {:induction false} RepeatCounts(s: seq<int>, i: int, j: int)
    requires 0 <= i < j < |s| && s[i] == s[j]
    ensures multiset(s)[s[i]] >= 2
  {
    assert s == s[..j] + [s[j]] + s[j + 1..];
    assert s[..j][i] == s[i];
    assert multiset(s[..j])[s[i]] >= 1;
  }

  lemma {:induction false} DistinctCount(xs: seq<int>, x: int)
    requires forall i, j :: 0 <= i < j < |xs| ==> xs[i] != xs[j]
    ensures multiset(xs)[x] <= 1
  {
    if xs != [] {
      assert xs == [xs[0]] + xs[1..];
      DistinctCount(xs[1..], x);
      if xs[0] == x {
        assert x !in xs[1..];
      }
    }
  }

  /** Python's `list.sort()` of a list without repeats: the same registers,
      strictly increasing. */
  lemma {:induction false} SortedInts(xs: seq<int>)
    requires forall i, j :: 0 <= i < j < |xs| ==> xs[i] != xs[j]
    ensures var s := SortBy(xs, IntKey);
            && (forall i, j :: 0 <= i < j < |s| ==> s[i] < s[j])
            && (forall r :: r in s <==> r in xs)
  {
    var s := SortBy(xs, IntKey);
    forall r
      ensures r in s <==> r in xs
    {
      assert r in s <==> r in multiset(s);
      assert r in xs <==> r in multiset(xs);
    }
    forall i, j | 0 <= i < j < |s|
      ensures s[i] < s[j]
    {
      assert KeyLe(IntKey(s[i]), IntKey(s[j]));
      if s[i] == s[j] {
        RepeatCounts(s, i, j);
        DistinctCount(xs, s[i]);
        assert false;
      }
    }
  }

  /** A merged register list, once sorted, is strictly increasing and holds
      the base list plus the register of every recommendation of its kind. */
  lemma {:induction false} MergedSortedList(base: seq<int>, recs: seq<Recommendation>, kind: RecommendationType)
    requires Distinct(base)
    ensures var s := SortBy(MergeList(base, recs, kind), IntKey);
            && (forall i, j :: 0 <= i < j < |s| ==> s[i] < s[j])
            && (forall r :: r in s <==> r in base || exists rec :: rec in recs && rec.kind == kind && rec.register == r)
  {
    MergeListContents(base, recs, kind);
    SortedInts(MergeList(base, recs, kind));
  }

  lemma {:induction false} CurrentListsDistinct()
    ensures Distinct(CURRENT_INDIVIDUAL_READS) && Distinct(CURRENT_LOW_PRIORITY)
  {
  }

  /** The update's individual-read list is strictly increasing and holds
      the current list plus the register of every individual-read
      recommendation. */
  lemma {:induction false} IndividualReadsShape(recs: seq<Recommendation>)
    ensures var individualReads := IndividualReadsAfter(recs);
            && (forall i, j :: 0 <= i < j < |individualReads| ==> individualReads[i] < individualReads[j])
            && (forall r :: r in individualReads <==>
                  r in CURRENT_INDIVIDUAL_READS || exists rec :: rec in recs && rec.kind == IndividualRead && rec.register == r)
  {
    CurrentListsDistinct();
    MergedSortedList(CURRENT_INDIVIDUAL_READS, recs, IndividualRead);
    var s := IndividualReadsAfter(recs);
    assert s == SortBy(MergeList(CURRENT_INDIVIDUAL_READS, recs, IndividualRead), IntKey);
    assert forall i, j :: 0 <= i < j < |s| ==> s[i] < s[j];
  }

  /** The update's low-priority list is strictly increasing and holds the
      current list plus the register of every low-priority recommendation. */
  lemma {:induction false} LowPriorityShape(recs: seq<Recommendation>)
    ensures var low := LowPriorityAfter(recs);
            && (forall i, j :: 0 <= i < j < |low| ==> low[i] < low[j])
            && (forall r :: r in low <==>
                  r in CURRENT_LOW_PRIORITY || exists rec :: rec in recs && rec.kind == LowPriority && rec.register == r)
  {
    CurrentListsDistinct();
    MergedSortedList(CURRENT_LOW_PRIORITY, recs, LowPriority);
    var s := LowPriorityAfter(recs);
    assert s == SortBy(MergeList(CURRENT_LOW_PRIORITY, recs, LowPriority), IntKey);
    assert forall i, j :: 0 <= i < j < |s| ==> s[i] < s[j];
  }

  /** The update's timeout map has the current keys and the register of
      every timeout recommendation; it takes the recommended value for each
      register's last timeout recommendation and keeps the current value
      elsewhere. */
  lemma {:induction false} ConfigurationTimeoutsShape(recs: seq<Recommendation>)
    requires forall rec :: rec in recs ==> Parsable(rec)
    ensures var m := TimeoutsAfter(recs);
            && (forall r :: r in m <==> r in CURRENT_TIMEOUTS || exists rec :: rec in recs && IsTimeoutFor(rec, r))
            && (forall r :: r in CURRENT_TIMEOUTS && (forall rec :: rec in recs ==> !IsTimeoutFor(rec, r))
                            ==> m[r] == CURRENT_TIMEOUTS[r])
            && (forall i :: 0 <= i < |recs| && recs[i].kind == TimeoutAdjustment
                            && (forall j :: i < j < |recs| ==> !IsTimeoutFor(recs[j], recs[i].register))
                            ==> recs[i].register in m && recs[i].recommendedValue == Seconds(m[recs[i].register]))
  {
    MergeTimeoutsKeys(CURRENT_TIMEOUTS, recs);
    forall r | r in CURRENT_TIMEOUTS && (forall rec :: rec in recs ==> !IsTimeoutFor(rec, r))
      ensures MergeTimeouts(CURRENT_TIMEOUTS, recs)[r] == CURRENT_TIMEOUTS[r]
    {
      MergeTimeoutsKeeps(CURRENT_TIMEOUTS, recs, r);
    }
    forall i | 0 <= i < |recs| && recs[i].kind == TimeoutAdjustment
               && (forall j :: i < j < |recs| ==> !IsTimeoutFor(recs[j], recs[i].register))
      ensures recs[i].register in MergeTimeouts(CURRENT_TIMEOUTS, recs)
      ensures recs[i].recommendedValue == Seconds(MergeTimeouts(CURRENT_TIMEOUTS, recs)[recs[i].register])
    {
      MergeTimeoutsLast(CURRENT_TIMEOUTS, recs, i);
    }
  }

  // ---------------------------------------------------------------------
  // The engine

  /** `RecommendationEngine`; its state is `performance_data`. */
  class RecommendationEngine {
    var order: seq<int>
    var performanceData: map<int, RegisterPerformance>

    function Table(): PerformanceTable
      reads this
    {
      PerformanceTable(order, performanceData)
    }

    predicate Valid()
      reads this
    {
      TableValid(Table())
    }

    constructor ()
      ensures Valid() && Table() == EMPTY_TABLE
    {
      order := [];
      performanceData := map[];
    }

    /** The loop of `_extract_register_performance` over the error patterns. */
    method AddLogPatterns(patterns: seq<LogAnalyzer.ErrorPattern>)
      modifies this
      ensures Table() == FromLogs(old(Table()), patterns)
    {
      ghost var t0 := Table();
      for i := 0 to |patterns|
        invariant Table() == FromLogs(t0, patterns[..i])
      {
        FromLogsStep(t0, patterns, i);
        AddLogPattern(patterns[i]);
      }
      assert patterns[..|patterns|] == patterns;
    }

    /** One pass of that loop. */
    method AddLogPattern(pattern: LogAnalyzer.ErrorPattern)
      modifies this
      ensures Table() == LogStep(old(Table()), pattern)
    {
      var register := pattern.register;
      if register !in performanceData {
        performanceData := performanceData[register := NewRecord(register, pattern.sensorName)];
        order := order + [register];
      }
      performanceData := performanceData[register := Logged(performanceData[register], pattern)];
    }

    /** The loop of `_extract_register_performance` over the connectivity tests. */
    method AddConnectivityResults(results: seq<NetworkDiagnostics.ModbusConnectivityResult>, now: int)
      modifies this
      ensures Table() == FromConnectivity(old(Table()), results, now)
    {
      ghost var t0 := Table();
      for i := 0 to |results|
        invariant Table() == FromConnectivity(t0, results[..i], now)
      {
        FromConnectivityStep(t0, results, i, now);
        AddConnectivityResult(results[i], now);
      }
      assert results[..|results|] == results;
    }

    /** One pass of that loop. */
    method AddConnectivityResult(result: NetworkDiagnostics.ModbusConnectivityResult, now: int)
      modifies this
      ensures Table() == ConnectivityStep(old(Table()), result, now)
    {
      var register := result.register;
      if register !in performanceData {
        performanceData := performanceData[register := NewRecord(register, "register_" + IntToString(register))];
        order := order + [register];
      }
      performanceData := performanceData[register := Tested(performanceData[register], result, now)];
    }

    /** The last loop of `_extract_register_performance`: every record gets
        the current configuration of its register. */
    method ApplyCurrentConfig()
      requires Valid()
      modifies this
      ensures order == old(order)
      ensures performanceData == ConfigFold(old(performanceData), order)
    {
      ghost var t0 := Table();
      for i := 0 to |order|
        invariant order == t0.order
        invariant performanceData == ConfigFold(t0.data, order[..i])
      {
        assert order[..i + 1][..i] == order[..i];
        var register := order[i];
        assert register in t0.order;
        performanceData := performanceData[register := WithConfig(register, performanceData[register])];
      }
      assert order[..|order|] == order;
    }

    /** `_extract_register_performance`. */
    method ExtractRegisterPerformance(patterns: seq<LogAnalyzer.ErrorPattern>,
                                      results: seq<NetworkDiagnostics.ModbusConnectivityResult>, now: int)
      requires Valid()
      modifies this
      ensures Valid()
      ensures Table() == Extract(old(Table()), patterns, results, now)
    {
      AddLogPatterns(patterns);
      FromLogsValid(old(Table()), patterns);
      AddConnectivityResults(results, now);
      FromConnectivityValid(FromLogs(old(Table()), patterns), results, now);
      ApplyCurrentConfig();
      ExtractValid(old(Table()), patterns, results, now);
    }

    /** The body of the loop of `_generate_recommendations` for one record. */
    static method RecommendationsFor(perf: RegisterPerformance) returns (found: seq<Recommendation>)
      ensures found == RecordRecommendations(perf)
    {
      found := [];
      if ShouldRecommendIndividualRead(perf) {
        found := found + [IndividualReadRecommendation(perf)];
      }
      if ShouldRecommendTimeoutAdjustment(perf) {
        found := found + [TimeoutAdjustmentRecommendation(perf)];
      }
      if ShouldRecommendLowPriority(perf) {
        found := found + [LowPriorityRecommendation(perf)];
      }
    }

    /** `_generate_recommendations`. */
    method GenerateRecommendations() returns (recommendations: seq<Recommendation>)
      ensures recommendations == Recommendations(Table())
    {
      var registers, data := order, performanceData;
      var candidates := [];
      for i := 0 to |registers|
        invariant candidates == Candidates(data, registers[..i])
      {
        assert registers[..i + 1][..i] == registers[..i];
        var register := registers[i];
        if register in data {
          var found := RecommendationsFor(data[register]);
          candidates := candidates + found;
        }
      }
      assert registers[..|registers|] == registers;
      recommendations := SortBy(candidates, RankKey);
    }

    /** `_create_configuration_update`. */
    method CreateConfigurationUpdate(recommendations: seq<Recommendation>, now: int) returns (update: ConfigurationUpdate)
      requires forall rec :: rec in recommendations ==> Parsable(rec)
      ensures update == ConfigurationUpdateOf(recommendations, now)
    {
      var individualReads := CURRENT_INDIVIDUAL_READS;
      var timeouts := CURRENT_TIMEOUTS;
      var lowPriority := CURRENT_LOW_PRIORITY;
      for i := 0 to |recommendations|
        invariant individualReads == MergeList(CURRENT_INDIVIDUAL_READS, recommendations[..i], IndividualRead)
        invariant timeouts == MergeTimeouts(CURRENT_TIMEOUTS, recommendations[..i])
        invariant lowPriority == MergeList(CURRENT_LOW_PRIORITY, recommendations[..i], LowPriority)
      {
        assert recommendations[..i + 1][..i] == recommendations[..i];
        var rec := recommendations[i];
        if rec.kind == IndividualRead && rec.register !in individualReads {
          individualReads := individualReads + [rec.register];
        } else if rec.kind == TimeoutAdjustment {
          assert Parsable(rec);
          timeouts := timeouts[rec.register := rec.recommendedValue.seconds];
        } else if rec.kind == LowPriority && rec.register !in lowPriority {
          lowPriority := lowPriority + [rec.register];
        }
      }
      assert recommendations[..|recommendations|] == recommendations;
      individualReads := SortBy(individualReads, IntKey);
      lowPriority := SortBy(lowPriority, IntKey);
      var summary := GenerateSummary(individualReads, timeouts, lowPriority);
      var risk := AssessRisk(recommendations);
      update := ConfigurationUpdate(now, individualReads, timeouts, lowPriority, recommendations, summary, risk);
      assert individualReads == IndividualReadsAfter(recommendations);
      assert lowPriority == LowPriorityAfter(recommendations);
      assert update == Assemble(now, individualReads, timeouts, lowPriority, recommendations);
    }

    /** `analyze_performance_data`; the unused Modbus monitor statistics are
        not a parameter. */
    method AnalyzePerformanceData(patterns: seq<LogAnalyzer.ErrorPattern>,
                                  results: seq<NetworkDiagnostics.ModbusConnectivityResult>, now: int)
      returns (update: ConfigurationUpdate)
      requires Valid()
      modifies this
      ensures Valid()
      ensures Table() == Extract(old(Table()), patterns, results, now)
      ensures update == ConfigurationUpdateOf(Recommendations(Table()), now)
    {
      ExtractRegisterPerformance(patterns, results, now);
      var recommendations := GenerateRecommendations();
      update := CreateConfigurationUpdate(recommendations, now);
    }
  }
}
