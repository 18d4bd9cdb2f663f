/** `NetworkDiagnostics` of `network_diagnostics.py` from the collected test
    results on: the health score, the issue list, the recommendations and
    the overall status of the quick check.  The ping, port-scan and Modbus
    probes themselves are inputs. */
module NetworkDiagnostics {
  import opened Wrappers
  import opened Text
  import Config

  datatype PingResult = PingResult(
    target: string, success: bool, packetsSent: nat, packetsReceived: nat, packetLoss: real,
    minTime: Option<real>, maxTime: Option<real>, avgTime: Option<real>, errorMessage: Option<string>)

  datatype PortScanResult = PortScanResult(
    host: string, port: int, isOpen: bool, responseTime: Option<real>, errorMessage: Option<string>)

  datatype ModbusConnectivityResult = ModbusConnectivityResult(
    host: string, port: int, register: int, success: bool, responseTime: Option<real>,
    value: Option<int>, errorType: Option<string>, errorMessage: Option<string>)

  /** `self.test_registers`. */
  const TEST_REGISTERS: seq<int> := [0, 1000, 1001, 1002, 1003, 1004]

  // ---------------------------------------------------------------------
  // Classifying a ping

  /** `ping.avg_time and ping.avg_time > HIGH_LATENCY_THRESHOLD`. */
  predicate HighLatency(p: PingResult) {
    p.avgTime.Some? && p.avgTime.value > Config.HIGH_LATENCY_THRESHOLD
  }

  /** The `if / elif / elif` chain the score and the issue list share. */
  datatype PingProblem = Unreachable | HeavyLoss | SlowReplies | Healthy

  function Classify(p: PingResult): (k: PingProblem)
    ensures k == Unreachable <==> !p.success
    ensures k == HeavyLoss <==> p.success && p.packetLoss > Config.PING_LOSS_THRESHOLD * 100.0
    ensures k == SlowReplies <==> p.success && p.packetLoss <= Config.PING_LOSS_THRESHOLD * 100.0 && HighLatency(p)
  {
    if !p.success then Unreachable
    else if p.packetLoss > Config.PING_LOSS_THRESHOLD * 100.0 then HeavyLoss
    else if HighLatency(p) then SlowReplies
    else Healthy
  }

  function Penalty(k: PingProblem): real {
    match k
    case Unreachable => 20.0
    case HeavyLoss => 10.0
    case SlowReplies => 5.0
    case Healthy => 0.0
  }

  // ---------------------------------------------------------------------
  // _calculate_network_health_score

  /** The points the pings cost, one penalty per ping. */
  function PingPenalties(pings: seq<PingResult>): real {
    if pings == [] then 0.0
    else PingPenalties(pings[..|pings| - 1]) + Penalty(Classify(pings[|pings| - 1]))
  }

  predicate ClosedModbusPort(s: PortScanResult) {
    !s.isOpen && s.port in Config.COMMON_MODBUS_PORTS
  }

  function ClosedModbusPorts(scans: seq<PortScanResult>): nat {
    if scans == [] then 0
    else ClosedModbusPorts(scans[..|scans| - 1]) + (if ClosedModbusPort(scans[|scans| - 1]) then 1 else 0)
  }

  function Failures(results: seq<ModbusConnectivityResult>): (n: nat)
    ensures n <= |results|
  {
    if results == [] then 0
    else Failures(results[..|results| - 1]) + (if results[|results| - 1].success then 0 else 1)
  }

  /** `failure_rate * 30`, only when there are Modbus results. */
  function ModbusPenalty(results: seq<ModbusConnectivityResult>): real {
    if |results| > 0 then (Failures(results) as real / |results| as real) * 30.0 else 0.0
  }

  function Clamp(x: real): real {
    if x < 0.0 then 0.0 else if x > 100.0 then 100.0 else x
  }

  /** The score as the source computes it: 100 less the penalties, clamped. */
  function HealthScore(pings: seq<PingResult>, scans: seq<PortScanResult>,
                       results: seq<ModbusConnectivityResult>): (score: real)
    ensures 0.0 <= score <= 100.0
  {
    Clamp(100.0 - PingPenalties(pings) - 15.0 * (ClosedModbusPorts(scans) as real) - ModbusPenalty(results))
  }

  /** `_calculate_network_health_score`. */
  method CalculateNetworkHealthScore(pings: seq<PingResult>, scans: seq<PortScanResult>,
                                     results: seq<ModbusConnectivityResult>) returns (score: real)
    ensures score == HealthScore(pings, scans, results)
  {
    score := 100.0;
    for i := 0 to |pings|
      invariant score == 100.0 - PingPenalties(pings[..i])
    {
      assert pings[..i + 1][..i] == pings[..i];
      var ping := pings[i];
      if !ping.success {
        score := score - 20.0;
      } else if ping.packetLoss > Config.PING_LOSS_THRESHOLD * 100.0 {
        score := score - 10.0;
      } else if ping.avgTime.Some? && ping.avgTime.value > Config.HIGH_LATENCY_THRESHOLD {
        score := score - 5.0;
      }
    }
    assert pings[..|pings|] == pings;

    var modbusPortsFailed := 0;
    for i := 0 to |scans|
      invariant modbusPortsFailed == ClosedModbusPorts(scans[..i])
    {
      assert scans[..i + 1][..i] == scans[..i];
      if !scans[i].isOpen && scans[i].port in Config.COMMON_MODBUS_PORTS {
        modbusPortsFailed := modbusPortsFailed + 1;
      }
    }
    assert scans[..|scans|] == scans;
    if modbusPortsFailed > 0 {
      score := score - (modbusPortsFailed as real * 15.0);
    }

    var modbusFailures := 0;
    for i := 0 to |results|
      invariant modbusFailures == Failures(results[..i])
    {
      assert results[..i + 1][..i] == results[..i];
      if !results[i].success {
        modbusFailures := modbusFailures + 1;
      }
    }
    assert results[..|results|] == results;
    if |results| > 0 {
      var failureRate := modbusFailures as real / |results| as real;
      score := score - (failureRate * 30.0);
    }
    score := if score > 100.0 then 100.0 else score;
    score := if score < 0.0 then 0.0 else score;
  }

  lemma {:induction false} PingPenaltiesBounds(pings: seq<PingResult>)
    ensures 0.0 <= PingPenalties(pings) <= 20.0 * (|pings| as real)
    ensures PingPenalties(pings) == 0.0 <==> forall i :: 0 <= i < |pings| ==> Classify(pings[i]) == Healthy
  {
    if pings != [] {
      var prev := pings[..|pings| - 1];
      PingPenaltiesBounds(prev);
      assert forall i :: 0 <= i < |prev| ==> prev[i] == pings[i];
    }
  }

  lemma {:induction false} RatioBounds(a: real, b: real)
    requires 0.0 <= a <= b && b > 0.0
    ensures 0.0 <= a / b <= 1.0
    ensures a / b == 1.0 <==> a == b
    ensures a / b == 0.0 <==> a == 0.0
  {
    assert (a / b) * b == a;
  }

  /** The Modbus penalty is at most 30 points, reached when every test failed. */
  lemma {:induction false} ModbusPenaltyBounds(results: seq<ModbusConnectivityResult>)
    ensures 0.0 <= ModbusPenalty(results) <= 30.0
    ensures ModbusPenalty(results) == 30.0 <==> |results| > 0 && Failures(results) == |results|
    ensures ModbusPenalty(results) == 0.0 <==> Failures(results) == 0
  {
    if |results| > 0 {
      RatioBounds(Failures(results) as real, |results| as real);
    }
  }

  /** Healthy pings, open Modbus ports and no failed Modbus test give a
      perfect score; an unreachable host always costs points. */
  lemma {:induction false} PerfectScore(pings: seq<PingResult>, scans: seq<PortScanResult>, results: seq<ModbusConnectivityResult>)
    requires forall i :: 0 <= i < |pings| ==> Classify(pings[i]) == Healthy
    requires ClosedModbusPorts(scans) == 0 && Failures(results) == 0
    ensures HealthScore(pings, scans, results) == 100.0
  {
    PingPenaltiesBounds(pings);
    ModbusPenaltyBounds(results);
  }

  /** One more ping never raises the score, and an unreachable one lowers
      it by the full 20 points whenever the score is at least 20. */
  lemma {:induction false} ExtraPingCosts(pings: seq<PingResult>, p: PingResult, scans: seq<PortScanResult>,
                                          results: seq<ModbusConnectivityResult>)
    ensures HealthScore(pings + [p], scans, results) <= HealthScore(pings, scans, results)
    ensures !p.success && HealthScore(pings, scans, results) >= 20.0 ==>
              HealthScore(pings + [p], scans, results) == HealthScore(pings, scans, results) - 20.0
  {
    assert (pings + [p])[..|pings|] == pings;
    PingPenaltiesBounds(pings);
    ModbusPenaltyBounds(results);
  }

  // ---------------------------------------------------------------------
  // _identify_issues

  /** The issue strings, kept structured: the numbers are not formatted. */
  datatype Issue =
    | HostUnreachable(target: string)
    | PacketLossTo(target: string, loss: real)
    | LatencyTo(target: string, avgTime: real)
    | PortClosed(port: int, host: string)
    | CompleteFailure(hostPort: string)
    | PartialFailure(hostPort: string, registers: seq<int>)

  /** The issue a ping raises, by the same precedence as its penalty. */
  function PingIssue(p: PingResult): (r: Option<Issue>)
    ensures r.None? <==> Classify(p) == Healthy
    ensures r.None? <==> Penalty(Classify(p)) == 0.0
    ensures Classify(p) == Unreachable ==> r == Some(HostUnreachable(p.target))
    ensures Classify(p) == HeavyLoss ==> r == Some(PacketLossTo(p.target, p.packetLoss))
    ensures Classify(p) == SlowReplies ==> r == Some(LatencyTo(p.target, p.avgTime.value))
  {
    match Classify(p)
    case Unreachable => Some(HostUnreachable(p.target))
    case HeavyLoss => Some(PacketLossTo(p.target, p.packetLoss))
    case SlowReplies => Some(LatencyTo(p.target, p.avgTime.value))
    case Healthy => None
  }

  function PingIssues(pings: seq<PingResult>): seq<Issue> {
    if pings == [] then []
    else
      PingIssues(pings[..|pings| - 1])
      + match PingIssue(pings[|pings| - 1]) case Some(x) => [x] case None => []
  }

  function ScanIssues(scans: seq<PortScanResult>): seq<Issue> {
    if scans == [] then []
    else
      var s := scans[|scans| - 1];
      ScanIssues(scans[..|scans| - 1]) + (if ClosedModbusPort(s) then [PortClosed(s.port, s.host)] else [])
  }

  /** `f"{result.host}:{result.port}"`. */
  function HostPort(r: ModbusConnectivityResult): string {
    r.host + ":" + IntToString(r.port)
  }

  /** The keys of `host_failures`, in insertion order. */
  function FailureKeys(results: seq<ModbusConnectivityResult>): seq<string> {
    if results == [] then []
    else
      var ks := FailureKeys(results[..|results| - 1]);
      var last := results[|results| - 1];
      if !last.success && HostPort(last) !in ks then ks + [HostPort(last)] else ks
  }

  /** Each key is listed once, and exactly the host:port pairs of failed
      tests are listed. */
  lemma {:induction false} FailureKeysAreTheFailedHosts(results: seq<ModbusConnectivityResult>)
    ensures forall i, j :: 0 <= i < j < |FailureKeys(results)| ==> FailureKeys(results)[i] != FailureKeys(results)[j]
    ensures forall k :: k in FailureKeys(results) <==> exists r :: r in results && !r.success && HostPort(r) == k
  {
    if results != [] {
      var prev := results[..|results| - 1];
      var last := results[|results| - 1];
      FailureKeysAreTheFailedHosts(prev);
      assert forall r :: r in results <==> r in prev || r == last;
    }
  }

  /** `host_failures[key]`: the registers of the failed tests against `key`, in order. */
  function FailedRegisters(results: seq<ModbusConnectivityResult>, key: string): seq<int> {
    if results == [] then []
    else
      var last := results[|results| - 1];
      FailedRegisters(results[..|results| - 1], key) + (if !last.success && HostPort(last) == key then [last.register] else [])
  }

  /** The issue for one host: complete failure when every test register failed. */
  function HostIssue(key: string, failed: seq<int>): (x: Issue)
    ensures x.CompleteFailure? <==> |failed| == |TEST_REGISTERS|
  {
    if |failed| == |TEST_REGISTERS| then CompleteFailure(key) else PartialFailure(key, failed)
  }

  function HostIssues(results: seq<ModbusConnectivityResult>, keys: seq<string>): (xs: seq<Issue>)
    ensures |xs| == |keys|
    ensures forall i :: 0 <= i < |keys| ==> xs[i] == HostIssue(keys[i], FailedRegisters(results, keys[i]))
  {
    if keys == [] then []
    else HostIssues(results, keys[..|keys| - 1]) + [HostIssue(keys[|keys| - 1], FailedRegisters(results, keys[|keys| - 1]))]
  }

  function ModbusIssues(results: seq<ModbusConnectivityResult>): seq<Issue> {
    HostIssues(results, FailureKeys(results))
  }

  function Issues(pings: seq<PingResult>, scans: seq<PortScanResult>, results: seq<ModbusConnectivityResult>): seq<Issue> {
    PingIssues(pings) + ScanIssues(scans) + ModbusIssues(results)
  }

  /** `keys` lists the host:port pairs of the failed tests of `results` by
      first failure and `hostFailures` holds, for each, its failed registers. */
  ghost predicate Collected(results: seq<ModbusConnectivityResult>, keys: seq<string>, hostFailures: map<string, seq<int>>) {
    && keys == FailureKeys(results)
    && (forall k :: k in hostFailures <==> k in keys)
    && (forall k :: k in hostFailures ==> hostFailures[k] == FailedRegisters(results, k))
  }

  /** The grouping loop of `_identify_issues`. */
  method GroupFailures(results: seq<ModbusConnectivityResult>) returns (keys: seq<string>, hostFailures: map<string, seq<int>>)
    ensures keys == FailureKeys(results)
    ensures forall k :: k in hostFailures <==> k in keys
    ensures forall k :: k in hostFailures ==> hostFailures[k] == FailedRegisters(results, k)
  {
    keys := [];
    hostFailures := map[];
    for i := 0 to |results|
      invariant Collected(results[..i], keys, hostFailures)
    {
      keys, hostFailures := AddFailure(results, i, keys, hostFailures);
    }
    assert results[..|results|] == results;
  }

  /** One pass of the grouping loop: record `results[i]` if it failed. */
  method AddFailure(results: seq<ModbusConnectivityResult>, i: int, keys: seq<string>, hostFailures: map<string, seq<int>>)
    returns (keys': seq<string>, hostFailures': map<string, seq<int>>)
    requires 0 <= i < |results| && Collected(results[..i], keys, hostFailures)
    ensures Collected(results[..i + 1], keys', hostFailures')
  {
    keys', hostFailures' := keys, hostFailures;
    var result := results[i];
    if !result.success {
      var key := HostPort(result);
      if key !in hostFailures {
        keys' := keys + [key];
        hostFailures' := hostFailures[key := []];
      }
      hostFailures' := hostFailures'[key := hostFailures'[key] + [result.register]];
      assert (keys', hostFailures') == RecordFailure(keys, hostFailures, result) by {
        if key !in hostFailures {
          assert [] + [result.register] == [result.register];
          assert hostFailures' == hostFailures[key := [result.register]];
        }
      }
    }
    CollectedStep(results, i, keys, hostFailures);
  }

  /** The state after recording one test result. */
  function RecordFailure(keys: seq<string>, hostFailures: map<string, seq<int>>, result: ModbusConnectivityResult)
    : (seq<string>, map<string, seq<int>>)
  {
    if result.success then (keys, hostFailures)
    else
      var key := HostPort(result);
      if key in hostFailures then (keys, hostFailures[key := hostFailures[key] + [result.register]])
      else (keys + [key], hostFailures[key := [result.register]])
  }

  /** What one more result does to the failed registers of `key`. */
  lemma {:induction false} FailedRegistersStep(results: seq<ModbusConnectivityResult>, i: int, key: string)
    requires 0 <= i < |results|
    ensures FailedRegisters(results[..i + 1], key)
            == FailedRegisters(results[..i], key) + (if !results[i].success && HostPort(results[i]) == key then [results[i].register] else [])
  {
    assert results[..i + 1][..i] == results[..i];
  }

  /** Recording the next result keeps the grouping exact. */
  lemma {:induction false} CollectedStep(results: seq<ModbusConnectivityResult>, i: int, keys: seq<string>, hostFailures: map<string, seq<int>>)
    requires 0 <= i < |results| && Collected(results[..i], keys, hostFailures)
    ensures var (keys', hostFailures') := RecordFailure(keys, hostFailures, results[i]);
            Collected(results[..i + 1], keys', hostFailures')
  {
    var r := results[i];
    if r.success {
      CollectedPass(results, i, keys, hostFailures);
    } else if HostPort(r) in hostFailures {
      CollectedRepeatFailure(results, i, keys, hostFailures);
    } else {
      CollectedFirstFailure(results, i, keys, hostFailures);
    }
  }

  lemma {:induction false} CollectedPass(results: seq<ModbusConnectivityResult>, i: int, keys: seq<string>, hostFailures: map<string, seq<int>>)
    requires 0 <= i < |results| && Collected(results[..i], keys, hostFailures) && results[i].success
    ensures Collected(results[..i + 1], keys, hostFailures)
  {
    FailureKeysStep(results, i);
    forall k | k in hostFailures
      ensures hostFailures[k] == FailedRegisters(results[..i + 1], k)
    {
      FailedRegistersStep(results, i, k);
    }
  }

  lemma {:induction false} CollectedRepeatFailure(results: seq<ModbusConnectivityResult>, i: int, keys: seq<string>, hostFailures: map<string, seq<int>>)
    requires 0 <= i < |results| && Collected(results[..i], keys, hostFailures)
    requires !results[i].success && HostPort(results[i]) in hostFailures
    ensures var key := HostPort(results[i]);
            Collected(results[..i + 1], keys, hostFailures[key := hostFailures[key] + [results[i].register]])
  {
    var key := HostPort(results[i]);
    var hostFailures' := hostFailures[key := hostFailures[key] + [results[i].register]];
    FailureKeysStep(results, i);
    forall k | k in hostFailures'
      ensures hostFailures'[k] == FailedRegisters(results[..i + 1], k)
    {
      FailedRegistersStep(results, i, k);
    }
  }

  lemma {:induction false} CollectedFirstFailure(results: seq<ModbusConnectivityResult>, i: int, keys: seq<string>, hostFailures: map<string, seq<int>>)
    requires 0 <= i < |results| && Collected(results[..i], keys, hostFailures)
    requires !results[i].success && HostPort(results[i]) !in hostFailures
    ensures var key := HostPort(results[i]);
            Collected(results[..i + 1], keys + [key], hostFailures[key := [results[i].register]])
  {
    var key := HostPort(results[i]);
    var hostFailures' := hostFailures[key := [results[i].register]];
    FailureKeysStep(results, i);
    NoFailedRegisters(results[..i], key);
    forall k | k in hostFailures'
      ensures hostFailures'[k] == FailedRegisters(results[..i + 1], k)
    {
      FailedRegistersStep(results, i, k);
    }
  }

  /** What one more result does to the failure keys. */
  lemma {:induction false} FailureKeysStep(results: seq<ModbusConnectivityResult>, i: int)
    requires 0 <= i < |results|
    ensures var ks := FailureKeys(results[..i]);
            FailureKeys(results[..i + 1])
            == if !results[i].success && HostPort(results[i]) !in ks then ks + [HostPort(results[i])] else ks
  {
    assert results[..i + 1][..i] == results[..i];
  }

  lemma {:induction false} NoFailedRegisters(results: seq<ModbusConnectivityResult>, key: string)
    requires key !in FailureKeys(results)
    ensures FailedRegisters(results, key) == []
  {
    if results != [] {
      var prev := results[..|results| - 1];
      assert key !in FailureKeys(prev);
      NoFailedRegisters(prev, key);
    }
  }

  /** The ping loop of `_identify_issues`. */
  method IdentifyPingIssues(pings: seq<PingResult>) returns (issues: seq<Issue>)
    ensures issues == PingIssues(pings)
  {
    issues := [];
    for i := 0 to |pings|
      invariant issues == PingIssues(pings[..i])
    {
      assert pings[..i + 1][..i] == pings[..i];
      var ping := pings[i];
      if !ping.success {
        issues := issues + [HostUnreachable(ping.target)];
      } else if ping.packetLoss > Config.PING_LOSS_THRESHOLD * 100.0 {
        issues := issues + [PacketLossTo(ping.target, ping.packetLoss)];
      } else if ping.avgTime.Some? && ping.avgTime.value > Config.HIGH_LATENCY_THRESHOLD {
        issues := issues + [LatencyTo(ping.target, ping.avgTime.value)];
      }
    }
    assert pings[..|pings|] == pings;
  }

  /** The port-scan loop of `_identify_issues`. */
  method IdentifyScanIssues(scans: seq<PortScanResult>) returns (issues: seq<Issue>)
    ensures issues == ScanIssues(scans)
  {
    issues := [];
    for i := 0 to |scans|
      invariant issues == ScanIssues(scans[..i])
    {
      assert scans[..i + 1][..i] == scans[..i];
      var scan := scans[i];
      if !scan.isOpen && scan.port in Config.COMMON_MODBUS_PORTS {
        issues := issues + [PortClosed(scan.port, scan.host)];
      }
    }
    assert scans[..|scans|] == scans;
  }

  /** The Modbus part of `_identify_issues`: group the failures by
      host:port, then one issue per group. */
  method IdentifyModbusIssues(results: seq<ModbusConnectivityResult>) returns (issues: seq<Issue>)
    ensures issues == ModbusIssues(results)
  {
    var keys, hostFailures := GroupFailures(results);
    issues := [];
    for i := 0 to |keys|
      invariant issues == HostIssues(results, keys[..i])
    {
      assert keys[..i + 1][..i] == keys[..i];
      assert keys[i] in keys;
      var failedRegisters := hostFailures[keys[i]];
      if |failedRegisters| == |TEST_REGISTERS| {
        issues := issues + [CompleteFailure(keys[i])];
      } else {
        issues := issues + [PartialFailure(keys[i], failedRegisters)];
      }
    }
    assert keys[..|keys|] == keys;
  }

  /** `_identify_issues`. */
  method IdentifyIssues(pings: seq<PingResult>, scans: seq<PortScanResult>, results: seq<ModbusConnectivityResult>)
    returns (issues: seq<Issue>)
    ensures issues == Issues(pings, scans, results)
  {
    var pingIssues := IdentifyPingIssues(pings);
    var scanIssues := IdentifyScanIssues(scans);
    var modbusIssues := IdentifyModbusIssues(results);
    issues := pingIssues + scanIssues + modbusIssues;
  }

  function CountProblemPings(pings: seq<PingResult>): nat {
    if pings == [] then 0
    else CountProblemPings(pings[..|pings| - 1]) + (if Classify(pings[|pings| - 1]) == Healthy then 0 else 1)
  }

  /** One issue per problem ping, in ping order, with the precedence the
      score uses: the issues and the penalties name the same pings. */
  lemma {:induction false} PingIssuesMatchPenalties(pings: seq<PingResult>)
    ensures |PingIssues(pings)| == CountProblemPings(pings)
    ensures PingIssues(pings) == [] <==> PingPenalties(pings) == 0.0
  {
    if pings != [] {
      PingIssuesMatchPenalties(pings[..|pings| - 1]);
      PingPenaltiesBounds(pings[..|pings| - 1]);
    }
  }

  /** One issue per closed common Modbus port: as many as the score charges for. */
  lemma {:induction false} ScanIssuesMatchPenalties(scans: seq<PortScanResult>)
    ensures |ScanIssues(scans)| == ClosedModbusPorts(scans)
    ensures forall x :: x in ScanIssues(scans) ==> x.PortClosed? && x.port in Config.COMMON_MODBUS_PORTS
  {
    if scans != [] {
      ScanIssuesMatchPenalties(scans[..|scans| - 1]);
    }
  }

  /** One Modbus issue per host:port with a failed test, and a complete
      failure exactly when as many registers failed there as are tested. */
  lemma {:induction false} ModbusIssuesPerHost(results: seq<ModbusConnectivityResult>, key: string)
    ensures var xs := ModbusIssues(results);
            (exists i :: 0 <= i < |xs| && xs[i].hostPort == key)
              <==> exists r :: r in results && !r.success && HostPort(r) == key
    ensures (CompleteFailure(key) in ModbusIssues(results))
              <==> (key in FailureKeys(results) && |FailedRegisters(results, key)| == |TEST_REGISTERS|)
  {
    var ks := FailureKeys(results);
    var xs := ModbusIssues(results);
    FailureKeysAreTheFailedHosts(results);
    if key in ks {
      var i :| 0 <= i < |ks| && ks[i] == key;
      assert xs[i].hostPort == key;
    }
    if CompleteFailure(key) in xs {
      var i :| 0 <= i < |xs| && xs[i] == CompleteFailure(key);
      assert ks[i] == key;
    }
  }

  // ---------------------------------------------------------------------
  // _generate_recommendations

  datatype Advice =
    | CheckConnectivity(hosts: seq<string>)
    | InvestigateLatency(hosts: seq<string>)
    | CheckModbusConfiguration(hostPorts: set<string>)
    | VerifyDevicePowered
    | CheckFirewall
    | IncreaseTimeouts
    | EnableIndividualReads
    | CheckCongestion
  {
    /** The fixed recommendation texts. */
    function Message(): string
      requires !CheckConnectivity? && !InvestigateLatency? && !CheckModbusConfiguration?
    {
      match this
      case VerifyDevicePowered => "Verify Modbus device is powered on and responding"
      case CheckFirewall => "Check firewall settings for Modbus ports (502, 5020, etc.)"
      case IncreaseTimeouts => "Consider increasing Modbus timeouts in const.py"
      case EnableIndividualReads => "Enable individual reads for problematic registers"
      case CheckCongestion => "Check for network congestion during peak hours"
    }
  }

  function UnreachableTargets(pings: seq<PingResult>): (ts: seq<string>)
    ensures forall t :: t in ts <==> exists p :: p in pings && !p.success && p.target == t
  {
    if pings == [] then []
    else
      var last := pings[|pings| - 1];
      assert forall p :: p in pings <==> p in pings[..|pings| - 1] || p == last;
      UnreachableTargets(pings[..|pings| - 1]) + (if !last.success then [last.target] else [])
  }

  function SlowTargets(pings: seq<PingResult>): (ts: seq<string>)
    ensures forall t :: t in ts <==> exists p :: p in pings && HighLatency(p) && p.target == t
  {
    if pings == [] then []
    else
      var last := pings[|pings| - 1];
      assert forall p :: p in pings <==> p in pings[..|pings| - 1] || p == last;
      SlowTargets(pings[..|pings| - 1]) + (if HighLatency(last) then [last.target] else [])
  }

  /** `modbus_hosts`: the host:port of every failed Modbus test. */
  function FailedHostPorts(results: seq<ModbusConnectivityResult>): (ks: set<string>)
    ensures forall k :: k in ks <==> exists r :: r in results && !r.success && HostPort(r) == k
  {
    set r | r in results && !r.success :: HostPort(r)
  }

  lemma {:induction false} FailedHostPortsNonEmpty(results: seq<ModbusConnectivityResult>)
    ensures FailedHostPorts(results) != {} <==> exists r :: r in results && !r.success
  {
    if exists r :: r in results && !r.success {
      var r :| r in results && !r.success;
      assert HostPort(r) in FailedHostPorts(results);
    }
  }

  /** The lines about pings: unreachable targets, then slow ones. */
  function PingAdvice(pings: seq<PingResult>): (recs: seq<Advice>)
    ensures forall a :: a in recs ==> a.CheckConnectivity? || a.InvestigateLatency?
  {
    var unreachable := UnreachableTargets(pings);
    var slow := SlowTargets(pings);
    (if unreachable != [] then [CheckConnectivity(unreachable)] else [])
    + (if slow != [] then [InvestigateLatency(slow)] else [])
  }

  /** The three lines about failed Modbus tests. */
  function ModbusAdvice(results: seq<ModbusConnectivityResult>): (recs: seq<Advice>)
    ensures forall a :: a in recs ==> a.CheckModbusConfiguration? || a == VerifyDevicePowered || a == CheckFirewall
    ensures recs != [] <==> exists r :: r in results && !r.success
  {
    FailedHostPortsNonEmpty(results);
    var hostPorts := FailedHostPorts(results);
    if hostPorts != {} then [CheckModbusConfiguration(hostPorts), VerifyDevicePowered, CheckFirewall] else []
  }

  /** The three general lines, given whenever any issue was found. */
  function GeneralAdvice(issues: seq<Issue>): (recs: seq<Advice>)
    ensures forall a :: a in recs ==> a == IncreaseTimeouts || a == EnableIndividualReads || a == CheckCongestion
    ensures recs != [] <==> issues != []
  {
    if issues != [] then [IncreaseTimeouts, EnableIndividualReads, CheckCongestion] else []
  }

  /** `_generate_recommendations`. */
  function GenerateRecommendations(issues: seq<Issue>, pings: seq<PingResult>,
                                   results: seq<ModbusConnectivityResult>): (recs: seq<Advice>)
    ensures |recs| <= 8
  {
    PingAdvice(pings) + ModbusAdvice(results) + GeneralAdvice(issues)
  }

  /** The three Modbus lines come exactly when some Modbus test failed, the
      configuration line naming every failing host:port; the three general
      lines come exactly when an issue was found. */
  lemma {:induction false} RecommendationsWhen(issues: seq<Issue>, pings: seq<PingResult>, results: seq<ModbusConnectivityResult>)
    ensures var recs := GenerateRecommendations(issues, pings, results);
            && (VerifyDevicePowered in recs <==> exists r :: r in results && !r.success)
            && (CheckFirewall in recs <==> exists r :: r in results && !r.success)
            && (CheckModbusConfiguration(FailedHostPorts(results)) in recs <==> exists r :: r in results && !r.success)
            && (IncreaseTimeouts in recs <==> issues != [])
            && (EnableIndividualReads in recs <==> issues != [])
            && (CheckCongestion in recs <==> issues != [])
  {
    AdviceParts(PingAdvice(pings), ModbusAdvice(results), GeneralAdvice(issues));
    ModbusAdviceWhen(results);
    var g := GeneralAdvice(issues);
    assert IncreaseTimeouts in g <==> issues != [];
    assert EnableIndividualReads in g <==> issues != [];
    assert CheckCongestion in g <==> issues != [];
  }

  lemma {:induction false} ModbusAdviceWhen(results: seq<ModbusConnectivityResult>)
    ensures VerifyDevicePowered in ModbusAdvice(results) <==> exists r :: r in results && !r.success
    ensures CheckFirewall in ModbusAdvice(results) <==> exists r :: r in results && !r.success
    ensures CheckModbusConfiguration(FailedHostPorts(results)) in ModbusAdvice(results) <==> exists r :: r in results && !r.success
  {
    FailedHostPortsNonEmpty(results);
  }

  /** The connectivity line appears exactly when some ping failed, and the
      latency line exactly when some ping was slow. */
  lemma {:induction false} PingLinesWhen(issues: seq<Issue>, pings: seq<PingResult>, results: seq<ModbusConnectivityResult>)
    ensures var recs := GenerateRecommendations(issues, pings, results);
            (exists a :: a in recs && a.CheckConnectivity?) <==> exists p :: p in pings && !p.success
    ensures var recs := GenerateRecommendations(issues, pings, results);
            (exists a :: a in recs && a.InvestigateLatency?) <==> exists p :: p in pings && HighLatency(p)
  {
    AdviceParts(PingAdvice(pings), ModbusAdvice(results), GeneralAdvice(issues));
    PingAdviceWhen(pings);
  }

  lemma {:induction false} PingAdviceWhen(pings: seq<PingResult>)
    ensures (exists a :: a in PingAdvice(pings) && a.CheckConnectivity?) <==> exists p :: p in pings && !p.success
    ensures (exists a :: a in PingAdvice(pings) && a.InvestigateLatency?) <==> exists p :: p in pings && HighLatency(p)
  {
    var unreachable, slow := UnreachableTargets(pings), SlowTargets(pings);
    if p :| p in pings && !p.success {
      assert p.target in unreachable;
      assert CheckConnectivity(unreachable) in PingAdvice(pings);
    }
    if p :| p in pings && HighLatency(p) {
      assert p.target in slow;
      assert InvestigateLatency(slow) in PingAdvice(pings);
    }
    if unreachable != [] {
      assert unreachable[0] in unreachable;
    }
    if slow != [] {
      assert slow[0] in slow;
    }
  }

  /** Where each kind of line of `advice + m + g` comes from, given that the
      three parts hold the ping, Modbus and general lines respectively. */
  lemma {:induction false} AdviceParts(advice: seq<Advice>, m: seq<Advice>, g: seq<Advice>)
    requires forall a :: a in advice ==> a.CheckConnectivity? || a.InvestigateLatency?
    requires forall a :: a in m ==> a.CheckModbusConfiguration? || a == VerifyDevicePowered || a == CheckFirewall
    requires forall a :: a in g ==> a == IncreaseTimeouts || a == EnableIndividualReads || a == CheckCongestion
    ensures forall a :: a in advice + m + g <==> a in advice || a in m || a in g
    ensures forall a :: a in advice + m + g && (a.CheckConnectivity? || a.InvestigateLatency?) ==> a in advice
    ensures forall a: Advice :: a.CheckModbusConfiguration? || a == VerifyDevicePowered || a == CheckFirewall ==>
              (a in advice + m + g <==> a in m)
    ensures forall a: Advice :: a == IncreaseTimeouts || a == EnableIndividualReads || a == CheckCongestion ==>
              (a in advice + m + g <==> a in g)
  {
    assert forall a :: a in advice + m + g <==> a in advice || a in m || a in g;
  }

  /** The connectivity line names exactly the unreachable targets and the
      latency line exactly the slow ones; each appears only when it has a name. */
  lemma {:induction false} RecommendationsNameHosts(issues: seq<Issue>, pings: seq<PingResult>, results: seq<ModbusConnectivityResult>)
    ensures var recs := GenerateRecommendations(issues, pings, results);
            forall i :: 0 <= i < |recs| && recs[i].CheckConnectivity? ==>
              recs[i].hosts != [] && forall t :: t in recs[i].hosts <==> exists p :: p in pings && !p.success && p.target == t
    ensures var recs := GenerateRecommendations(issues, pings, results);
            forall i :: 0 <= i < |recs| && recs[i].InvestigateLatency? ==>
              recs[i].hosts != [] && forall t :: t in recs[i].hosts <==> exists p :: p in pings && HighLatency(p) && p.target == t
  {
    AdviceParts(PingAdvice(pings), ModbusAdvice(results), GeneralAdvice(issues));
    PingAdviceNames(pings);
  }

  /** Every ping line carries the whole, non-empty list of its targets. */
  lemma {:induction false} PingAdviceNames(pings: seq<PingResult>)
    ensures forall a :: a in PingAdvice(pings) && a.CheckConnectivity? ==>
              a == CheckConnectivity(UnreachableTargets(pings)) && UnreachableTargets(pings) != []
    ensures forall a :: a in PingAdvice(pings) && a.InvestigateLatency? ==>
              a == InvestigateLatency(SlowTargets(pings)) && SlowTargets(pings) != []
  {
  }

  // ---------------------------------------------------------------------
  // quick_network_check

  datatype HostCheck = HostCheck(host: string, port: int, success: bool, responseTime: Option<real>, error: Option<string>)
  datatype GatewayCheck = GatewayCheck(host: string, success: bool, packetLoss: real, avgLatency: Option<real>)
  datatype QuickCheck = QuickCheck(primary: HostCheck, secondary: HostCheck, gateway: GatewayCheck, overallStatus: string)

  const GATEWAY: string := "192.168.178.1"

  /** `quick_network_check` from the two host tests and the gateway ping. */
  function QuickNetworkCheck(hosts: Config.ActiveHosts, primary: ModbusConnectivityResult,
                             secondary: ModbusConnectivityResult, gateway: PingResult): (q: QuickCheck)
    ensures q.overallStatus == "good" <==> (primary.success || secondary.success) && gateway.success
    ensures q.overallStatus == "good" || q.overallStatus == "poor"
    ensures q.primary.host == hosts.primary.host && q.secondary.host == hosts.secondary.host
    ensures q.primary.success == primary.success && q.secondary.success == secondary.success
    ensures q.gateway.success == gateway.success
  {
    QuickCheck(
      HostCheck(hosts.primary.host, hosts.primary.port, primary.success, primary.responseTime, primary.errorMessage),
      HostCheck(hosts.secondary.host, hosts.secondary.port, secondary.success, secondary.responseTime, secondary.errorMessage),
      GatewayCheck(GATEWAY, gateway.success, gateway.packetLoss, gateway.avgTime),
      if (primary.success || secondary.success) && gateway.success then "good" else "poor")
  }
}
