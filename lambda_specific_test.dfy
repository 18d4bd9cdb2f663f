/** The result summariser of `lambda_specific_test.py`: per host, the
    register tests are counted and timed, failing and slow registers become
    issues, and advice follows from the issues and from register 0 on the
    primary host. */
module LambdaSpecificTest {
  import opened Wrappers
  import opened Text
  import LambdaVsSimulator
  import Ratios

  /** One `test_register` result (the Modbus read itself is an oracle whose
      outcome is the input).  Times are milliseconds. */
  datatype RegisterTest = RegisterTest(success: bool, error: string, responseTime: real, value: Option<int>)

  /** A host's entry of `results`: a dictionary from register to test, or
      anything else (the list `test_register_0_specifically` produces),
      which the analysis skips.  The pairs of `Registers` stand for a
      dictionary, so their registers are meant to be distinct. */
  datatype HostResults = Registers(entries: seq<(int, RegisterTest)>) | NotADict

  datatype Summary = Summary(totalTests: nat, successful: nat, failed: int, successRate: real, avgResponseTime: real)

  /** `issues_found` entries: the host, the register and what went wrong. */
  datatype Issue =
    | FailedTest(host: string, register: int, error: string)
    | SlowResponse(host: string, register: int, responseTime: real)

  datatype Analysis = Analysis(summary: seq<(string, Summary)>, recommendations: seq<string>, issuesFound: seq<Issue>)

  const SLOW_RESPONSE_MS: real := 5000.0
  const PRIMARY: string := "Primary"

  const GENERAL_RECOMMENDATIONS: seq<string> := [
    "Check network connectivity and Lambda device status",
    "Verify Unit ID = 1 is correct",
    "Check if Lambda device is in proper operating state"]

  const REGISTER_0_RECOMMENDATIONS: seq<string> := [
    "Register 0 (General Error number) is failing - this matches your HA logs",
    "Consider adding Register 0 to individual reads in const.py"]

  predicate DistinctRegisters(entries: seq<(int, RegisterTest)>) {
    forall i, j :: 0 <= i < j < |entries| ==> entries[i].0 != entries[j].0
  }

  predicate DistinctHosts(results: seq<(string, HostResults)>) {
    forall i, j :: 0 <= i < j < |results| ==> results[i].0 != results[j].0
  }

  // ---------------------------------------------------------------------
  // Per-host summary

  function Successful(entries: seq<(int, RegisterTest)>): (n: nat)
    ensures n <= |entries|
  {
    if entries == [] then 0
    else Successful(entries[..|entries| - 1]) + (if entries[|entries| - 1].1.success then 1 else 0)
  }

  function SuccessTime(entries: seq<(int, RegisterTest)>): real {
    if entries == [] then 0.0
    else SuccessTime(entries[..|entries| - 1])
         + (if entries[|entries| - 1].1.success then entries[|entries| - 1].1.responseTime else 0.0)
  }

  /** The summary of one host; no tests at all divides by zero. */
  function Summarize(entries: seq<(int, RegisterTest)>): (r: Result<Summary, string>)
    ensures r.Failure? <==> entries == []
    ensures r.Failure? ==> r.error == "ZeroDivisionError"
    ensures r.Success? ==> && r.value.totalTests == |entries|
                           && r.value.failed == r.value.totalTests - r.value.successful >= 0
                           && 0.0 <= r.value.successRate <= 100.0
  {
    if entries == [] then Failure("ZeroDivisionError")
    else
      var total, successful := |entries|, Successful(entries);
      Ratios.PercentBounds(successful, total);
      Success(Summary(total, successful, total - successful,
                      successful as real / total as real * 100.0,
                      LambdaVsSimulator.Mean(SuccessTime(entries), successful)))
  }

  lemma {:induction false} SuccessfulExtremes(entries: seq<(int, RegisterTest)>)
    ensures Successful(entries) == |entries| <==> forall i :: 0 <= i < |entries| ==> entries[i].1.success
    ensures Successful(entries) == 0 <==> forall i :: 0 <= i < |entries| ==> !entries[i].1.success
  {
    if entries != [] {
      var prev := entries[..|entries| - 1];
      SuccessfulExtremes(prev);
      assert forall i :: 0 <= i < |prev| ==> prev[i] == entries[i];
    }
  }

  lemma {:induction false} SuccessTimeSums(entries: seq<(int, RegisterTest)>, lo: real, hi: real)
    requires forall i :: 0 <= i < |entries| && entries[i].1.success ==> lo <= entries[i].1.responseTime <= hi
    ensures LambdaVsSimulator.NTimes(Successful(entries), lo) <= SuccessTime(entries) <= LambdaVsSimulator.NTimes(Successful(entries), hi)
  {
    if entries != [] {
      var prev := entries[..|entries| - 1];
      assert forall i :: 0 <= i < |prev| ==> prev[i] == entries[i];
      SuccessTimeSums(prev, lo, hi);
    }
  }

  lemma {:induction false} SuccessTimeBounds(entries: seq<(int, RegisterTest)>, lo: real, hi: real)
    requires forall i :: 0 <= i < |entries| && entries[i].1.success ==> lo <= entries[i].1.responseTime <= hi
    ensures Successful(entries) as real * lo <= SuccessTime(entries) <= Successful(entries) as real * hi
    ensures Successful(entries) == 0 ==> SuccessTime(entries) == 0.0
  {
    SuccessTimeSums(entries, lo, hi);
    LambdaVsSimulator.NTimesIsProduct(Successful(entries), lo);
    LambdaVsSimulator.NTimesIsProduct(Successful(entries), hi);
  }

  /** The rate is 100 exactly when every test succeeded and 0 exactly when
      none did; the average time is 0 with no success and otherwise lies
      between the fastest and the slowest successful test. */
  lemma {:induction false} SummaryFacts(entries: seq<(int, RegisterTest)>, lo: real, hi: real)
    requires entries != []
    requires forall i :: 0 <= i < |entries| && entries[i].1.success ==> lo <= entries[i].1.responseTime <= hi
    ensures var s := Summarize(entries).value;
            && (s.successRate == 100.0 <==> forall i :: 0 <= i < |entries| ==> entries[i].1.success)
            && (s.successRate == 0.0 <==> forall i :: 0 <= i < |entries| ==> !entries[i].1.success)
            && (s.successful == 0 ==> s.avgResponseTime == 0.0)
            && (s.successful > 0 ==> lo <= s.avgResponseTime <= hi)
  {
    SuccessfulExtremes(entries);
    Ratios.PercentBounds(Successful(entries), |entries|);
    SuccessTimeBounds(entries, lo, hi);
    var s := Summarize(entries).value;
    assert s.avgResponseTime == LambdaVsSimulator.Mean(SuccessTime(entries), Successful(entries));
    LambdaVsSimulator.MeanBounds(SuccessTime(entries), Successful(entries), lo, hi);
  }

  /** The loop behind the two sums of one host. */
  method SummarizeHost(entries: seq<(int, RegisterTest)>) returns (r: Result<Summary, string>)
    ensures r == Summarize(entries)
  {
    var successful: nat, time := 0, 0.0;
    for i := 0 to |entries|
      invariant successful == Successful(entries[..i])
      invariant time == SuccessTime(entries[..i])
    {
      assert entries[..i + 1][..i] == entries[..i];
      if entries[i].1.success {
        successful := successful + 1;
        time := time + entries[i].1.responseTime;
      }
    }
    assert entries[..|entries|] == entries;
    if |entries| == 0 {
      return Failure("ZeroDivisionError");
    }
    var total := |entries|;
    r := Success(Summary(total, successful, total - successful,
                         successful as real / total as real * 100.0,
                         time / (if successful >= 1 then successful else 1) as real));
  }

  // ---------------------------------------------------------------------
  // Issues

  /** The issue one register contributes: its failure, or a response over
      five seconds, or nothing. */
  function IssueOf(host: string, register: int, test: RegisterTest): (r: seq<Issue>)
    ensures |r| <= 1
    ensures r == [] <==> test.success && test.responseTime <= SLOW_RESPONSE_MS
    ensures r != [] ==> r[0].host == host && r[0].register == register
    ensures r != [] ==> (r[0].FailedTest? <==> !test.success)
  {
    if !test.success then [FailedTest(host, register, test.error)]
    else if test.responseTime > SLOW_RESPONSE_MS then [SlowResponse(host, register, test.responseTime)]
    else []
  }

  function IssuesOf(host: string, entries: seq<(int, RegisterTest)>): seq<Issue> {
    if entries == [] then []
    else
      var last := entries[|entries| - 1];
      IssuesOf(host, entries[..|entries| - 1]) + IssueOf(host, last.0, last.1)
  }

  /** Each register yields at most one issue, naming the host and one of
      its registers. */
  lemma {:induction false} IssuesNameEntries(host: string, entries: seq<(int, RegisterTest)>)
    ensures var issues := IssuesOf(host, entries);
            && |issues| <= |entries|
            && (forall k :: 0 <= k < |issues| ==>
                  issues[k].host == host && exists i :: 0 <= i < |entries| && entries[i].0 == issues[k].register)
  {
    if entries != [] {
      var prev, last := entries[..|entries| - 1], entries[|entries| - 1];
      IssuesNameEntries(host, prev);
      var before, mine := IssuesOf(host, prev), IssueOf(host, last.0, last.1);
      var issues := IssuesOf(host, entries);
      assert issues == before + mine;
      forall k | 0 <= k < |issues|
        ensures issues[k].host == host && exists i :: 0 <= i < |entries| && entries[i].0 == issues[k].register
      {
        if k < |before| {
          assert issues[k] == before[k];
          var i :| 0 <= i < |prev| && prev[i].0 == before[k].register;
          assert entries[i] == prev[i];
        } else {
          assert issues[k] == mine[0];
          assert entries[|entries| - 1].0 == issues[k].register;
        }
      }
    }
  }

  /** Distinct registers give issues for distinct registers. */
  lemma {:induction false} IssuesDistinct(host: string, entries: seq<(int, RegisterTest)>)
    requires DistinctRegisters(entries)
    ensures var issues := IssuesOf(host, entries);
            forall a, b :: 0 <= a < b < |issues| ==> issues[a].register != issues[b].register
  {
    if entries != [] {
      var prev, last := entries[..|entries| - 1], entries[|entries| - 1];
      assert forall i :: 0 <= i < |prev| ==> prev[i] == entries[i];
      IssuesDistinct(host, prev);
      IssuesNameEntries(host, prev);
      var before, mine := IssuesOf(host, prev), IssueOf(host, last.0, last.1);
      var issues := IssuesOf(host, entries);
      assert issues == before + mine;
      forall a, b | 0 <= a < b < |issues|
        ensures issues[a].register != issues[b].register
      {
        if b >= |before| {
          assert issues[a] == before[a] && issues[b] == mine[0];
          var i :| 0 <= i < |prev| && prev[i].0 == before[a].register;
          assert entries[i].0 != entries[|entries| - 1].0;
        } else {
          assert issues[a] == before[a] && issues[b] == before[b];
        }
      }
    }
  }

  /** A failed test always shows up as a failure and a slow success as a
      slow response. */
  lemma {:induction false} IssuesCover(host: string, entries: seq<(int, RegisterTest)>)
    ensures var issues := IssuesOf(host, entries);
            && (forall i :: 0 <= i < |entries| && !entries[i].1.success ==>
                  FailedTest(host, entries[i].0, entries[i].1.error) in issues)
            && (forall i :: 0 <= i < |entries| && entries[i].1.success && entries[i].1.responseTime > SLOW_RESPONSE_MS ==>
                  SlowResponse(host, entries[i].0, entries[i].1.responseTime) in issues)
  {
    if entries != [] {
      var prev, last := entries[..|entries| - 1], entries[|entries| - 1];
      IssuesCover(host, prev);
      var before, mine := IssuesOf(host, prev), IssueOf(host, last.0, last.1);
      var issues := IssuesOf(host, entries);
      assert issues == before + mine;
      forall i | 0 <= i < |entries| && IssueOf(host, entries[i].0, entries[i].1) != []
        ensures IssueOf(host, entries[i].0, entries[i].1)[0] in issues
      {
        if i < |prev| {
          assert entries[i] == prev[i];
          assert IssueOf(host, prev[i].0, prev[i].1)[0] in before;
        } else {
          assert mine[0] in issues;
        }
      }
    }
  }

  /** The loop over one host's registers that appends to `issues_found`. */
  method CollectIssues(host: string, entries: seq<(int, RegisterTest)>) returns (issues: seq<Issue>)
    ensures issues == IssuesOf(host, entries)
  {
    issues := [];
    for i := 0 to |entries|
      invariant issues == IssuesOf(host, entries[..i])
    {
      assert entries[..i + 1][..i] == entries[..i];
      var (register, test) := entries[i];
      if !test.success {
        issues := issues + [FailedTest(host, register, test.error)];
      } else if test.responseTime > SLOW_RESPONSE_MS {
        issues := issues + [SlowResponse(host, register, test.responseTime)];
      }
    }
    assert entries[..|entries|] == entries;
  }

  // ---------------------------------------------------------------------
  // The whole analysis

  /** The summaries and issues of the hosts in order; the first host whose
      dictionary is empty stops the analysis. */
  function Scan(results: seq<(string, HostResults)>): Result<(seq<(string, Summary)>, seq<Issue>), string> {
    if results == [] then Success(([], []))
    else
      var prev := Scan(results[..|results| - 1]);
      var (host, hostResults) := results[|results| - 1];
      if prev.Failure? then prev
      else match hostResults
        case NotADict => prev
        case Registers(entries) =>
          match Summarize(entries)
          case Failure(e) => Failure(e)
          case Success(s) => Success((prev.value.0 + [(host, s)], prev.value.1 + IssuesOf(host, entries)))
  }

  function Lookup<V>(pairs: seq<(string, V)>, key: string): Option<V> {
    if pairs == [] then None else if pairs[0].0 == key then Some(pairs[0].1) else Lookup(pairs[1..], key)
  }

  function LookupRegister(entries: seq<(int, RegisterTest)>, register: int): Option<RegisterTest> {
    if entries == [] then None else if entries[0].0 == register then Some(entries[0].1) else LookupRegister(entries[1..], register)
  }

  /** `'Primary' in results and 0 in results['Primary']` and that test failed. */
  predicate Register0Failed(results: seq<(string, HostResults)>) {
    var primary := Lookup(results, PRIMARY);
    primary.Some? && primary.value.Registers? &&
    match LookupRegister(primary.value.entries, 0)
    case Some(t) => !t.success
    case None => false
  }

  function AdviceFor(issues: seq<Issue>, register0Failed: bool): (recs: seq<string>)
    ensures |recs| == (if issues != [] then 3 else 0) + (if register0Failed then 2 else 0)
    ensures forall m :: m in GENERAL_RECOMMENDATIONS ==> (m in recs <==> issues != [])
    ensures forall m :: m in REGISTER_0_RECOMMENDATIONS ==> (m in recs <==> register0Failed)
  {
    (if issues != [] then GENERAL_RECOMMENDATIONS else []) + (if register0Failed then REGISTER_0_RECOMMENDATIONS else [])
  }

  /** `analyze_results`. */
  function Analyze(results: seq<(string, HostResults)>): Result<Analysis, string> {
    match Scan(results)
    case Failure(e) => Failure(e)
    case Success((summaries, issues)) =>
      Success(Analysis(summaries, AdviceFor(issues, Register0Failed(results)), issues))
  }

  lemma {:induction false} ScanFailureSticks(results: seq<(string, HostResults)>, i: nat)
    requires i <= |results|
    requires Scan(results[..i]).Failure?
    ensures Scan(results) == Scan(results[..i])
    decreases |results| - i
  {
    if i < |results| {
      assert results[..i + 1][..i] == results[..i];
      ScanFailureSticks(results, i + 1);
    } else {
      assert results[..i] == results;
    }
  }

  /** The analysis fails exactly when some host has an empty dictionary. */
  lemma {:induction false} AnalyzeFailsIffEmptyHost(results: seq<(string, HostResults)>)
    ensures Analyze(results).Failure? <==> exists i :: 0 <= i < |results| && results[i].1 == Registers([])
    ensures Analyze(results).Failure? ==> Analyze(results).error == "ZeroDivisionError"
  {
    if results != [] {
      var prev := results[..|results| - 1];
      AnalyzeFailsIffEmptyHost(prev);
      assert forall i :: 0 <= i < |prev| ==> prev[i] == results[i];
    }
  }

  /** Every dictionary host gets its summary, in order, and nothing else
      does: entries that are not dictionaries are skipped. */
  lemma {:induction false} DictHostsAreSummarised(results: seq<(string, HostResults)>)
    requires Scan(results).Success?
    ensures var summaries := Scan(results).value.0;
            forall i :: 0 <= i < |results| && results[i].1.Registers? ==>
              exists k :: 0 <= k < |summaries| && summaries[k].0 == results[i].0
                          && Summarize(results[i].1.entries) == Success(summaries[k].1)
  {
    if results != [] {
      var prev, last := results[..|results| - 1], results[|results| - 1];
      assert forall i :: 0 <= i < |prev| ==> prev[i] == results[i];
      DictHostsAreSummarised(prev);
      var before, summaries := Scan(prev).value.0, Scan(results).value.0;
      assert |before| <= |summaries| && summaries[..|before|] == before;
      if last.1.Registers? {
        assert summaries[|before|].0 == last.0 && Summarize(last.1.entries) == Success(summaries[|before|].1);
      }
      forall i | 0 <= i < |prev| && results[i].1.Registers?
        ensures exists k :: 0 <= k < |summaries| && summaries[k].0 == results[i].0
                            && Summarize(results[i].1.entries) == Success(summaries[k].1)
      {
        var k :| 0 <= k < |before| && before[k].0 == prev[i].0 && Summarize(prev[i].1.entries) == Success(before[k].1);
        assert summaries[k] == before[k];
      }
    }
  }

  /** Only dictionary hosts are summarised. */
  lemma {:induction false} OnlyDictHostsAreSummarised(results: seq<(string, HostResults)>)
    requires Scan(results).Success?
    ensures var summaries := Scan(results).value.0;
            forall k :: 0 <= k < |summaries| ==>
              exists i :: 0 <= i < |results| && results[i].1.Registers? && results[i].0 == summaries[k].0
  {
    if results != [] {
      var prev, last := results[..|results| - 1], results[|results| - 1];
      assert forall i :: 0 <= i < |prev| ==> prev[i] == results[i];
      OnlyDictHostsAreSummarised(prev);
      var before, summaries := Scan(prev).value.0, Scan(results).value.0;
      assert |before| <= |summaries| && summaries[..|before|] == before;
      forall k | 0 <= k < |summaries|
        ensures exists i :: 0 <= i < |results| && results[i].1.Registers? && results[i].0 == summaries[k].0
      {
        if k < |before| {
          assert summaries[k] == before[k];
          var i :| 0 <= i < |prev| && prev[i].1.Registers? && prev[i].0 == before[k].0;
          assert results[i] == prev[i];
        } else {
          assert last.1.Registers? && summaries[k].0 == last.0;
          assert results[|results| - 1] == last;
        }
      }
    }
  }

  lemma {:induction false} LookupFinds<V>(pairs: seq<(string, V)>, key: string, i: int)
    requires DistinctHostsOf(pairs)
    requires 0 <= i < |pairs| && pairs[i].0 == key
    ensures Lookup(pairs, key) == Some(pairs[i].1)
  {
    if i > 0 {
      assert pairs[0].0 != pairs[i].0;
      assert pairs[1..][i - 1] == pairs[i];
      LookupFinds(pairs[1..], key, i - 1);
    }
  }

  predicate DistinctHostsOf<V>(pairs: seq<(string, V)>) {
    forall i, j :: 0 <= i < j < |pairs| ==> pairs[i].0 != pairs[j].0
  }

  lemma {:induction false} LookupMisses<V>(pairs: seq<(string, V)>, key: string)
    requires forall i :: 0 <= i < |pairs| ==> pairs[i].0 != key
    ensures Lookup(pairs, key) == None
  {
    if pairs != [] {
      LookupMisses(pairs[1..], key);
    }
  }

  lemma {:induction false} LookupRegisterFinds(entries: seq<(int, RegisterTest)>, register: int)
    requires DistinctRegisters(entries)
    ensures LookupRegister(entries, register).Some? <==> exists j :: 0 <= j < |entries| && entries[j].0 == register
    ensures forall j :: 0 <= j < |entries| && entries[j].0 == register ==> LookupRegister(entries, register) == Some(entries[j].1)
  {
    if entries != [] {
      var rest := entries[1..];
      assert forall j :: 0 <= j < |rest| ==> rest[j] == entries[j + 1];
      LookupRegisterFinds(rest, register);
      if entries[0].0 != register {
        forall j | 0 <= j < |entries| && entries[j].0 == register
          ensures j > 0 && rest[j - 1] == entries[j]
        {
        }
      }
    }
  }

  /** The two register-0 lines appear exactly when the primary host's
      dictionary holds a failed test of register 0. */
  lemma {:induction false} Register0FailedMeans(results: seq<(string, HostResults)>)
    requires DistinctHosts(results)
    requires forall i :: 0 <= i < |results| && results[i].1.Registers? ==> DistinctRegisters(results[i].1.entries)
    ensures Register0Failed(results) <==>
            exists i, j :: 0 <= i < |results| && results[i].0 == PRIMARY && results[i].1.Registers?
                           && 0 <= j < |results[i].1.entries| && results[i].1.entries[j].0 == 0
                           && !results[i].1.entries[j].1.success
  {
    if exists i :: 0 <= i < |results| && results[i].0 == PRIMARY {
      var i :| 0 <= i < |results| && results[i].0 == PRIMARY;
      LookupFinds(results, PRIMARY, i);
      if results[i].1.Registers? {
        LookupRegisterFinds(results[i].1.entries, 0);
      }
      forall i' | 0 <= i' < |results| && results[i'].0 == PRIMARY
        ensures i' == i
      {
      }
    } else {
      LookupMisses(results, PRIMARY);
    }
  }

  /** The general advice appears iff some issue was found, and the
      register-0 advice iff register 0 of the primary host failed. */
  lemma {:induction false} RecommendationsWhen(results: seq<(string, HostResults)>)
    requires Analyze(results).Success?
    ensures var a := Analyze(results).value;
            && (forall m :: m in GENERAL_RECOMMENDATIONS ==> (m in a.recommendations <==> a.issuesFound != []))
            && (forall m :: m in REGISTER_0_RECOMMENDATIONS ==> (m in a.recommendations <==> Register0Failed(results)))
  {
  }

  /** The hosts loop of `analyze_results`, followed by the advice. */
  method AnalyzeResults(results: seq<(string, HostResults)>) returns (r: Result<Analysis, string>)
    ensures r == Analyze(results)
  {
    var summaries: seq<(string, Summary)>, issues: seq<Issue> := [], [];
    for i := 0 to |results|
      invariant Scan(results[..i]) == Success((summaries, issues))
    {
      assert results[..i + 1][..i] == results[..i];
      var (host, hostResults) := results[i];
      if hostResults.Registers? {
        var summary := SummarizeHost(hostResults.entries);
        if summary.Failure? {
          ScanFailureSticks(results, i + 1);
          return Failure(summary.error);
        }
        summaries := summaries + [(host, summary.value)];
        var found := CollectIssues(host, hostResults.entries);
        issues := issues + found;
      }
    }
    assert results[..|results|] == results;
    var recommendations: seq<string> := [];
    if |issues| > 0 {
      recommendations := recommendations + GENERAL_RECOMMENDATIONS;
    }
    if Register0Failed(results) {
      recommendations := recommendations + REGISTER_0_RECOMMENDATIONS;
    }
    assert recommendations == AdviceFor(issues, Register0Failed(results));
    r := Success(Analysis(summaries, recommendations, issues));
  }

  // ---------------------------------------------------------------------
  // Decoding tables of test_heat_pump_module

  function UnknownName(value: Option<int>): string {
    "Unknown(" + (match value case Some(v) => IntToString(v) case None => "None") + ")"
  }

  /** Register 1000, the heat pump's error state. */
  function ErrorStateName(value: Option<int>): (name: string)
    ensures value.Some? && 0 <= value.value <= 4 ==> name == ["NONE", "MESSAGE", "WARNING", "ALARM", "FAULT"][value.value]
    ensures !(value.Some? && 0 <= value.value <= 4) ==> name == UnknownName(value)
  {
    match value
    case Some(0) => "NONE"
    case Some(1) => "MESSAGE"
    case Some(2) => "WARNING"
    case Some(3) => "ALARM"
    case Some(4) => "FAULT"
    case _ => UnknownName(value)
  }

  /** Register 1002, the heat pump's state. */
  function StateName(value: Option<int>): (name: string)
    ensures value.Some? && 0 <= value.value <= 5 ==>
              name == ["INIT", "REFERENCE", "RESTART-BLOCK", "READY", "START PUMPS", "START COMPRESSOR"][value.value]
    ensures !(value.Some? && 0 <= value.value <= 5) ==> name == UnknownName(value)
  {
    match value
    case Some(0) => "INIT"
    case Some(1) => "REFERENCE"
    case Some(2) => "RESTART-BLOCK"
    case Some(3) => "READY"
    case Some(4) => "START PUMPS"
    case Some(5) => "START COMPRESSOR"
    case _ => UnknownName(value)
  }

  /** The five error states get five different names, none of which looks
      like the fallback, so the decode can be read back. */
  lemma {:induction false} ErrorStateNamesDistinct(a: Option<int>, b: Option<int>)
    requires a.Some? && 0 <= a.value <= 4 && b.Some? && 0 <= b.value <= 4
    ensures ErrorStateName(a) == ErrorStateName(b) <==> a == b
    ensures !HasPrefix(ErrorStateName(a), "Unknown(")
  {
  }

  /** Every value outside 0..4 decodes to the "Unknown(...)" fallback. */
  lemma {:induction false} UnknownErrorState(value: Option<int>)
    requires !(value.Some? && 0 <= value.value <= 4)
    ensures HasPrefix(ErrorStateName(value), "Unknown(")
  {
  }

  /** The six states decode to six different names, none of them the
      fallback; every other value decodes to the fallback. */
  lemma {:induction false} StateNamesDistinct(a: Option<int>, b: Option<int>)
    requires a.Some? && 0 <= a.value <= 5 && b.Some? && 0 <= b.value <= 5
    ensures StateName(a) == StateName(b) <==> a == b
    ensures !HasPrefix(StateName(a), "Unknown(")
  {
    var n := StateName(a);
    assert |n| > 0 && n[0] != 'U';
    if |n| >= 8 {
      assert n[..8][0] == n[0];
    }
  }

  lemma {:induction false} UnknownState(value: Option<int>)
    requires !(value.Some? && 0 <= value.value <= 5)
    ensures HasPrefix(StateName(value), "Unknown(")
  {
  }
}
