/** The comparison of `lambda_vs_simulator_analysis.py`: the same register
    is read several times from the real heat pump and from the Python
    simulator, and the two success rates decide whether a failure lies with
    the device, the simulator or the network. */
module LambdaVsSimulator {
  import opened Wrappers
  import opened Levels
  import Ratios

  /** One `_test_single_register` result; the Modbus read itself is not
      modelled, its outcome is the input.  Times are milliseconds. */
  datatype SingleTest = SingleTest(success: bool, responseTime: real, value: Option<int>,
                                   error: Option<string>, testName: string)

  datatype IssueType = NoIssue | LambdaDeviceIssue | NetworkIssue | SimulatorIssue | MixedIssues {
    function Name(): string {
      match this
      case NoIssue => "no_issue"
      case LambdaDeviceIssue => "lambda_device_issue"
      case NetworkIssue => "network_issue"
      case SimulatorIssue => "simulator_issue"
      case MixedIssues => "mixed_issues"
    }
  }

  datatype IssueAnalysis = IssueAnalysis(issueType: IssueType, confidence: Level, explanation: string,
                                         recommendations: seq<string>)

  const LAMBDA_SLOW: string := "Lambda WP response time is slow - check device performance"
  const SIMULATOR_SLOW: string := "Python Simulator response time is slow - check server performance"

  /** The explanation and the advice of each case. */
  function Explanation(t: IssueType): string {
    match t
    case NoIssue => "Both Lambda WP and Python Simulator are working correctly"
    case LambdaDeviceIssue => "Lambda WP has issues, but network is working (simulator responds)"
    case NetworkIssue => "Both hosts fail - likely network issue"
    case SimulatorIssue => "Lambda WP works, but Python Simulator has issues"
    case MixedIssues => "Mixed results - both hosts have some issues"
  }

  function CaseRecommendations(t: IssueType): (recs: seq<string>)
    ensures LAMBDA_SLOW !in recs && SIMULATOR_SLOW !in recs
  {
    match t
    case NoIssue => ["Check HA integration configuration", "Verify network stability"]
    case LambdaDeviceIssue => ["Check Lambda WP power and status", "Verify Lambda WP network connection",
                               "Check Lambda WP error logs", "Consider Lambda WP restart"]
    case NetworkIssue => ["Check network connectivity", "Verify IP addresses and ports",
                          "Check firewall settings", "Test with ping and telnet"]
    case SimulatorIssue => ["Check Python Simulator status", "Verify simulator configuration",
                            "Check simulator logs", "Restart Python Simulator if needed"]
    case MixedIssues => ["Check network stability", "Verify both host configurations",
                         "Monitor for intermittent issues", "Consider network optimization"]
  }

  /** The case the two success rates (percentages) fall in. */
  function Classify(lambdaSuccess: real, simulatorSuccess: real): (t: IssueType)
    ensures t == NoIssue <==> lambdaSuccess >= 80.0 && simulatorSuccess >= 80.0
    ensures t == LambdaDeviceIssue <==> lambdaSuccess < 50.0 && simulatorSuccess >= 80.0
    ensures t == NetworkIssue <==> lambdaSuccess < 50.0 && simulatorSuccess < 50.0
    ensures t == SimulatorIssue <==> lambdaSuccess >= 80.0 && simulatorSuccess < 50.0
  {
    if lambdaSuccess >= 80.0 && simulatorSuccess >= 80.0 then NoIssue
    else if lambdaSuccess < 50.0 && simulatorSuccess >= 80.0 then LambdaDeviceIssue
    else if lambdaSuccess < 50.0 && simulatorSuccess < 50.0 then NetworkIssue
    else if lambdaSuccess >= 80.0 && simulatorSuccess < 50.0 then SimulatorIssue
    else MixedIssues
  }

  /** The results are mixed exactly when some rate lies in [50, 80). */
  lemma {:induction false} MixedMeansAMiddleRate(lambdaSuccess: real, simulatorSuccess: real)
    ensures Classify(lambdaSuccess, simulatorSuccess) == MixedIssues <==>
            (50.0 <= lambdaSuccess < 80.0 || 50.0 <= simulatorSuccess < 80.0)
  {
  }

  /** The performance advice appended after the case advice: the device is
      slow above 5 s, the simulator above 1 s. */
  function SlowAdvice(lambdaTime: real, simulatorTime: real): (advice: seq<string>)
    ensures LAMBDA_SLOW in advice <==> lambdaTime > 5000.0
    ensures SIMULATOR_SLOW in advice <==> simulatorTime > 1000.0
    ensures |advice| == (if lambdaTime > 5000.0 then 1 else 0) + (if simulatorTime > 1000.0 then 1 else 0)
  {
    assert LAMBDA_SLOW != SIMULATOR_SLOW;
    (if lambdaTime > 5000.0 then [LAMBDA_SLOW] else [])
    + (if simulatorTime > 1000.0 then [SIMULATOR_SLOW] else [])
  }

  /** High confidence for the three clear-cut cases, medium otherwise. */
  function ConfidenceOf(t: IssueType): (c: Level)
    ensures c == High <==> t == NoIssue || t == LambdaDeviceIssue || t == NetworkIssue
    ensures c != High ==> c == Medium
  {
    match t
    case NoIssue | LambdaDeviceIssue | NetworkIssue => High
    case SimulatorIssue | MixedIssues => Medium
  }

  /** `_determine_issue_type`; the two consistency flags are passed in but
      not used by the source either. */
  function DetermineIssueType(lambdaSuccess: real, simulatorSuccess: real,
                              lambdaTime: real, simulatorTime: real,
                              lambdaConsistent: bool, simulatorConsistent: bool): (a: IssueAnalysis)
    ensures a.issueType == Classify(lambdaSuccess, simulatorSuccess)
    ensures a.confidence == ConfidenceOf(a.issueType)
    ensures a.explanation == Explanation(a.issueType)
    ensures |a.recommendations| >= |CaseRecommendations(a.issueType)|
    ensures a.recommendations[..|CaseRecommendations(a.issueType)|] == CaseRecommendations(a.issueType)
    ensures a.recommendations[|CaseRecommendations(a.issueType)|..] == SlowAdvice(lambdaTime, simulatorTime)
  {
    var t := Classify(lambdaSuccess, simulatorSuccess);
    var recs := CaseRecommendations(t) + SlowAdvice(lambdaTime, simulatorTime);
    IssueAnalysis(t, ConfidenceOf(t), Explanation(t), recs)
  }

  /** The slow-response advice appears exactly when the matching average
      time is over its limit, whatever the case. */
  lemma {:induction false} SlowAdviceWhen(lambdaSuccess: real, simulatorSuccess: real, lambdaTime: real, simulatorTime: real,
                       lambdaConsistent: bool, simulatorConsistent: bool)
    ensures var a := DetermineIssueType(lambdaSuccess, simulatorSuccess, lambdaTime, simulatorTime,
                                        lambdaConsistent, simulatorConsistent);
            && (LAMBDA_SLOW in a.recommendations <==> lambdaTime > 5000.0)
            && (SIMULATOR_SLOW in a.recommendations <==> simulatorTime > 1000.0)
  {
    var a := DetermineIssueType(lambdaSuccess, simulatorSuccess, lambdaTime, simulatorTime,
                                lambdaConsistent, simulatorConsistent);
    var c, s := CaseRecommendations(a.issueType), SlowAdvice(lambdaTime, simulatorTime);
    assert a.recommendations == c + s;
    assert LAMBDA_SLOW in a.recommendations <==> LAMBDA_SLOW in s;
    assert SIMULATOR_SLOW in a.recommendations <==> SIMULATOR_SLOW in s;
  }

  // ---------------------------------------------------------------------
  // _analyze_comparison

  function Successes(tests: seq<SingleTest>): (n: nat)
    ensures n <= |tests|
  {
    if tests == [] then 0
    else Successes(tests[..|tests| - 1]) + (if tests[|tests| - 1].success then 1 else 0)
  }

  /** All tests succeeded exactly when the count is the length, none when it is 0. */
  lemma {:induction false} SuccessesExtremes(tests: seq<SingleTest>)
    ensures Successes(tests) == |tests| <==> forall i :: 0 <= i < |tests| ==> tests[i].success
    ensures Successes(tests) == 0 <==> forall i :: 0 <= i < |tests| ==> !tests[i].success
  {
    if tests != [] {
      var prev := tests[..|tests| - 1];
      SuccessesExtremes(prev);
      assert forall i :: 0 <= i < |prev| ==> prev[i] == tests[i];
    }
  }

  function SuccessTime(tests: seq<SingleTest>): real {
    if tests == [] then 0.0
    else SuccessTime(tests[..|tests| - 1]) + (if tests[|tests| - 1].success then tests[|tests| - 1].responseTime else 0.0)
  }

  /** `[r['value'] for r in results if r['success']]`. */
  function SuccessValues(tests: seq<SingleTest>): (vs: seq<Option<int>>)
    ensures |vs| == Successes(tests)
  {
    if tests == [] then []
    else SuccessValues(tests[..|tests| - 1]) + (if tests[|tests| - 1].success then [tests[|tests| - 1].value] else [])
  }

  /** `len(set(values)) <= 1 if values else False`. */
  function Consistent(values: seq<Option<int>>): bool {
    values != [] && |set v | v in values| <= 1
  }

  /** Consistency means: at least one value, and all values equal. */
  lemma {:induction false} ConsistentMeansAllEqual(values: seq<Option<int>>)
    ensures Consistent(values) <==> values != [] && forall i, j :: 0 <= i < |values| && 0 <= j < |values| ==> values[i] == values[j]
  {
    if values != [] {
      var s := set v | v in values;
      if forall i, j :: 0 <= i < |values| && 0 <= j < |values| ==> values[i] == values[j] {
        assert s == {values[0]};
      } else {
        var i, j :| 0 <= i < |values| && 0 <= j < |values| && values[i] != values[j];
        assert {values[i], values[j]} <= s;
        assert |{values[i], values[j]}| == 2;
        SubsetSize({values[i], values[j]}, s);
      }
    }
  }

  lemma {:induction false} SubsetSize<T>(a: set<T>, b: set<T>)
    requires a <= b
    ensures |a| <= |b|
  {
    assert b == a + (b - a);
  }

  function Rate(tests: seq<SingleTest>): real
    requires tests != []
  {
    Successes(tests) as real / |tests| as real * 100.0
  }

  /** `total / max(1, count)`. */
  function Mean(total: real, count: nat): real {
    total / (if count >= 1 then count else 1) as real
  }

  function AverageTime(tests: seq<SingleTest>): real {
    Mean(SuccessTime(tests), Successes(tests))
  }

  datatype Comparison = Comparison(
    lambdaSuccessRate: real, simulatorSuccessRate: real,
    lambdaAvgResponseTime: real, simulatorAvgResponseTime: real,
    lambdaValueConsistent: bool, simulatorValueConsistent: bool,
    lambdaValues: seq<Option<int>>, simulatorValues: seq<Option<int>>,
    issueAnalysis: IssueAnalysis)

  /** `_analyze_comparison`; an empty result list divides by zero. */
  function AnalyzeComparison(lambdaTests: seq<SingleTest>, simulatorTests: seq<SingleTest>): (r: Result<Comparison, string>)
    ensures r.Failure? <==> lambdaTests == [] || simulatorTests == []
    ensures r.Failure? ==> r.error == "ZeroDivisionError"
    ensures r.Success? ==>
              && 0.0 <= r.value.lambdaSuccessRate <= 100.0
              && 0.0 <= r.value.simulatorSuccessRate <= 100.0
              && r.value.issueAnalysis.issueType == Classify(r.value.lambdaSuccessRate, r.value.simulatorSuccessRate)
  {
    if lambdaTests == [] || simulatorTests == [] then Failure("ZeroDivisionError")
    else
      var lambdaRate := Rate(lambdaTests);
      var simulatorRate := Rate(simulatorTests);
      RateBounds(lambdaTests);
      RateBounds(simulatorTests);
      var lambdaTime := AverageTime(lambdaTests);
      var simulatorTime := AverageTime(simulatorTests);
      var lambdaValues := SuccessValues(lambdaTests);
      var simulatorValues := SuccessValues(simulatorTests);
      var lambdaConsistent := Consistent(lambdaValues);
      var simulatorConsistent := Consistent(simulatorValues);
      Success(Comparison(lambdaRate, simulatorRate, lambdaTime, simulatorTime, lambdaConsistent, simulatorConsistent,
                         lambdaValues, simulatorValues,
                         DetermineIssueType(lambdaRate, simulatorRate, lambdaTime, simulatorTime,
                                            lambdaConsistent, simulatorConsistent)))
  }

  /** A success rate is a percentage: 100 exactly when every test
      succeeded and 0 exactly when none did. */
  lemma {:induction false} RateBounds(tests: seq<SingleTest>)
    requires tests != []
    ensures 0.0 <= Rate(tests) <= 100.0
    ensures Rate(tests) == 100.0 <==> forall i :: 0 <= i < |tests| ==> tests[i].success
    ensures Rate(tests) == 0.0 <==> forall i :: 0 <= i < |tests| ==> !tests[i].success
  {
    SuccessesExtremes(tests);
    Ratios.PercentBounds(Successes(tests), |tests|);
  }

  /** With no success the average time is 0; otherwise it lies between the
      smallest and the largest time of a successful test. */
  lemma {:induction false} AverageTimeBounds(tests: seq<SingleTest>, lo: real, hi: real)
    requires forall i :: 0 <= i < |tests| && tests[i].success ==> lo <= tests[i].responseTime <= hi
    ensures Successes(tests) == 0 ==> AverageTime(tests) == 0.0
    ensures Successes(tests) > 0 ==> lo <= AverageTime(tests) <= hi
  {
    SuccessTimeBounds(tests, lo, hi);
    MeanBounds(SuccessTime(tests), Successes(tests), lo, hi);
  }

  lemma {:induction false} MeanBounds(total: real, count: nat, lo: real, hi: real)
    requires count as real * lo <= total <= count as real * hi
    requires count == 0 ==> total == 0.0
    ensures count == 0 ==> Mean(total, count) == 0.0
    ensures count > 0 ==> lo <= Mean(total, count) <= hi
  {
    if count > 0 {
      QuotientBounds(total, count as real, lo, hi);
    }
  }

  lemma {:induction false} QuotientBounds(s: real, n: real, lo: real, hi: real)
    requires n > 0.0 && n * lo <= s <= n * hi
    ensures lo <= s / n <= hi
  {
    var q := s / n;
    assert q * n == s;
    assert (q - lo) * n == s - n * lo;
    assert (hi - q) * n == n * hi - s;
  }

  /** `x` added to itself `n` times: `n * x` without a product. */
  function NTimes(n: nat, x: real): real {
    if n == 0 then 0.0 else NTimes(n - 1, x) + x
  }

  lemma {:induction false} NTimesIsProduct(n: nat, x: real)
    ensures NTimes(n, x) == n as real * x
  {
    if n > 0 {
      NTimesIsProduct(n - 1, x);
      assert n as real * x == (n - 1) as real * x + x;
    }
  }

  lemma {:induction false} SuccessTimeSums(tests: seq<SingleTest>, lo: real, hi: real)
    requires forall i :: 0 <= i < |tests| && tests[i].success ==> lo <= tests[i].responseTime <= hi
    ensures NTimes(Successes(tests), lo) <= SuccessTime(tests) <= NTimes(Successes(tests), hi)
  {
    if tests != [] {
      var prev := tests[..|tests| - 1];
      assert forall i :: 0 <= i < |prev| ==> prev[i] == tests[i];
      SuccessTimeSums(prev, lo, hi);
    }
  }

  lemma {:induction false} SuccessTimeBounds(tests: seq<SingleTest>, lo: real, hi: real)
    requires forall i :: 0 <= i < |tests| && tests[i].success ==> lo <= tests[i].responseTime <= hi
    ensures Successes(tests) as real * lo <= SuccessTime(tests) <= Successes(tests) as real * hi
    ensures Successes(tests) == 0 ==> SuccessTime(tests) == 0.0
  {
    SuccessTimeSums(tests, lo, hi);
    NTimesIsProduct(Successes(tests), lo);
    NTimesIsProduct(Successes(tests), hi);
  }

  /** Every test of the device failing while every simulator test succeeds
      is a device issue; everything failing on both sides is a network issue. */
  lemma {:induction false} AllOrNothingCases(lambdaTests: seq<SingleTest>, simulatorTests: seq<SingleTest>)
    requires lambdaTests != [] && simulatorTests != []
    requires forall i :: 0 <= i < |simulatorTests| ==> simulatorTests[i].success
    ensures (forall i :: 0 <= i < |lambdaTests| ==> !lambdaTests[i].success)
            ==> AnalyzeComparison(lambdaTests, simulatorTests).value.issueAnalysis.issueType == LambdaDeviceIssue
    ensures (forall i :: 0 <= i < |lambdaTests| ==> lambdaTests[i].success)
            ==> AnalyzeComparison(lambdaTests, simulatorTests).value.issueAnalysis.issueType == NoIssue
  {
    RateBounds(lambdaTests);
    RateBounds(simulatorTests);
  }

  // ---------------------------------------------------------------------
  // The most common issue of generate_diagnostic_report

  /** `issue_types`: each issue type with its count, in first-seen order. */
  function Tally(types: seq<IssueType>): seq<(IssueType, nat)> {
    if types == [] then []
    else
      var prev := Tally(types[..|types| - 1]);
      var t := types[|types| - 1];
      Bump(prev, t)
  }

  /** `issue_types[t] = issue_types.get(t, 0) + 1`. */
  function Bump(tally: seq<(IssueType, nat)>, t: IssueType): (r: seq<(IssueType, nat)>)
    ensures |r| == |tally| || |r| == |tally| + 1
  {
    if tally == [] then [(t, 1)]
    else if tally[0].0 == t then [(t, tally[0].1 + 1)] + tally[1..]
    else [tally[0]] + Bump(tally[1..], t)
  }

  function CountOf(tally: seq<(IssueType, nat)>, t: IssueType): nat {
    if tally == [] then 0 else (if tally[0].0 == t then tally[0].1 else CountOf(tally[1..], t))
  }

  function Occurrences(types: seq<IssueType>, t: IssueType): nat {
    if types == [] then 0
    else Occurrences(types[..|types| - 1], t) + (if types[|types| - 1] == t then 1 else 0)
  }

  /** The issue types the tally lists. */
  function Keys(tally: seq<(IssueType, nat)>): set<IssueType> {
    if tally == [] then {} else {tally[0].0} + Keys(tally[1..])
  }

  predicate KeysDistinct(tally: seq<(IssueType, nat)>) {
    tally != [] ==> tally[0].0 !in Keys(tally[1..]) && KeysDistinct(tally[1..])
  }

  lemma {:induction false} BumpCounts(tally: seq<(IssueType, nat)>, t: IssueType)
    requires KeysDistinct(tally)
    ensures KeysDistinct(Bump(tally, t))
    ensures Keys(Bump(tally, t)) == Keys(tally) + {t}
    ensures forall u :: CountOf(Bump(tally, t), u) == CountOf(tally, u) + (if u == t then 1 else 0)
  {
    if tally != [] && tally[0].0 != t {
      BumpCounts(tally[1..], t);
      assert Bump(tally, t)[1..] == Bump(tally[1..], t);
    } else if tally != [] {
      assert Bump(tally, t)[1..] == tally[1..];
    }
  }

  lemma {:induction false} KeyAt(tally: seq<(IssueType, nat)>, i: int)
    requires 0 <= i < |tally|
    ensures tally[i].0 in Keys(tally)
  {
    if i > 0 {
      KeyAt(tally[1..], i - 1);
    }
  }

  lemma {:induction false} KeyIndex(tally: seq<(IssueType, nat)>, u: IssueType) returns (i: int)
    requires u in Keys(tally)
    ensures 0 <= i < |tally| && tally[i].0 == u
  {
    if tally[0].0 == u {
      i := 0;
    } else {
      var k := KeyIndex(tally[1..], u);
      i := k + 1;
    }
  }

  /** The tally lists each issue type once, exactly the types that occur,
      with its number of occurrences. */
  lemma {:induction false} TallyCounts(types: seq<IssueType>)
    ensures KeysDistinct(Tally(types))
    ensures forall t :: CountOf(Tally(types), t) == Occurrences(types, t)
    ensures Keys(Tally(types)) == set t | t in types
  {
    if types != [] {
      var prev := types[..|types| - 1];
      TallyCounts(prev);
      BumpCounts(Tally(prev), types[|types| - 1]);
      assert (set t | t in types) == (set t | t in prev) + {types[|types| - 1]};
    }
  }

  /** The dict lookup `issue_types.get(t)`: the index of `t` in the tally,
      or the tally's length when `t` is not there yet. */
  method FindEntry(tally: seq<(IssueType, nat)>, t: IssueType) returns (k: nat)
    ensures k <= |tally|
    ensures k < |tally| ==> tally[k].0 == t
    ensures Bump(tally, t) == tally[..k] + Bump(tally[k..], t)
  {
    k := 0;
    while k < |tally| && tally[k].0 != t
      invariant k <= |tally|
      invariant Bump(tally, t) == tally[..k] + Bump(tally[k..], t)
    {
      BumpSkips(tally, t, k);
      k := k + 1;
    }
  }

  /** Past an entry of another type, `Bump` keeps that entry and goes on. */
  lemma {:induction false} BumpSkips(tally: seq<(IssueType, nat)>, t: IssueType, k: nat)
    requires k < |tally| && tally[k].0 != t
    ensures tally[..k] + Bump(tally[k..], t) == tally[..k + 1] + Bump(tally[k + 1..], t)
  {
    var rest := tally[k..];
    assert rest[0] == tally[k] && rest[1..] == tally[k + 1..];
    var b := Bump(tally[k + 1..], t);
    assert Bump(rest, t) == [tally[k]] + b;
    assert tally[..k + 1] == tally[..k] + [tally[k]];
    assert tally[..k] + ([tally[k]] + b) == (tally[..k] + [tally[k]]) + b;
  }

  /** At an entry of the same type, `Bump` increments it in place. */
  lemma {:induction false} BumpHits(tally: seq<(IssueType, nat)>, t: IssueType, k: nat)
    requires k < |tally| && tally[k].0 == t
    ensures tally[..k] + Bump(tally[k..], t) == tally[..k] + [(t, tally[k].1 + 1)] + tally[k + 1..]
  {
    var rest := tally[k..];
    assert rest[0] == tally[k] && rest[1..] == tally[k + 1..];
    assert Bump(rest, t) == [(t, tally[k].1 + 1)] + tally[k + 1..];
  }

  /** The loop that fills `issue_types`. */
  method CountIssueTypes(types: seq<IssueType>) returns (tally: seq<(IssueType, nat)>)
    ensures tally == Tally(types)
  {
    tally := [];
    for i := 0 to |types|
      invariant tally == Tally(types[..i])
    {
      assert types[..i + 1][..i] == types[..i];
      var t := types[i];
      var k := FindEntry(tally, t);
      if k < |tally| {
        BumpHits(tally, t, k);
        tally := tally[..k] + [(t, tally[k].1 + 1)] + tally[k + 1..];
      } else {
        assert tally[..k] == tally && tally[k..] == [];
        tally := tally + [(t, 1)];
      }
    }
    assert types[..|types|] == types;
  }

  /** `max(issue_types.items(), key=count)`: the first entry with the
      largest count, or `('unknown', 0)` when there is none. */
  function MostCommon(tally: seq<(IssueType, nat)>): (m: (string, nat))
    ensures tally == [] ==> m == ("unknown", 0)
    ensures tally != [] ==> exists i :: 0 <= i < |tally| && m == (tally[i].0.Name(), tally[i].1)
                                        && (forall j :: 0 <= j < i ==> tally[j].1 < m.1)
    ensures forall j :: 0 <= j < |tally| ==> tally[j].1 <= m.1
  {
    if tally == [] then ("unknown", 0)
    else if |tally| == 1 then (tally[0].0.Name(), tally[0].1)
    else
      var rest := MostCommon(tally[1..]);
      if tally[0].1 >= rest.1 then (tally[0].0.Name(), tally[0].1)
      else
        assert forall j :: 1 <= j < |tally| ==> tally[j] == tally[1..][j - 1];
        var i :| 0 <= i < |tally[1..]| && rest == (tally[1..][i].0.Name(), tally[1..][i].1)
                 && (forall j :: 0 <= j < i ==> tally[1..][j].1 < rest.1);
        assert rest == (tally[i + 1].0.Name(), tally[i + 1].1);
        rest
  }

  /** The most common issue type occurs at least as often as any other. */
  lemma {:induction false} MostCommonOccursMost(types: seq<IssueType>)
    ensures types == [] ==> MostCommon(Tally(types)) == ("unknown", 0)
    ensures forall t :: t in types ==> Occurrences(types, t) <= MostCommon(Tally(types)).1
    ensures types != [] ==> exists t :: t in types && MostCommon(Tally(types)) == (t.Name(), Occurrences(types, t))
  {
    TallyCounts(types);
    var tally := Tally(types);
    forall t | t in types
      ensures Occurrences(types, t) <= MostCommon(tally).1
    {
      var i := KeyIndex(tally, t);
      CountAt(tally, i);
    }
    if types != [] {
      assert types[0] in types;
      var i :| 0 <= i < |tally| && MostCommon(tally) == (tally[i].0.Name(), tally[i].1);
      CountAt(tally, i);
      KeyAt(tally, i);
      assert tally[i].0 in types;
    }
  }

  lemma {:induction false} CountAt(tally: seq<(IssueType, nat)>, i: int)
    requires KeysDistinct(tally) && 0 <= i < |tally|
    ensures CountOf(tally, tally[i].0) == tally[i].1
  {
    if i > 0 {
      assert tally[1..][i - 1] == tally[i];
      KeyAt(tally[1..], i - 1);
      CountAt(tally[1..], i - 1);
    }
  }
}
