/** The `stats` counters of the monitor: `_update_statistics` and the
    success rate of `get_statistics`. */
module Statistics {
  import opened Wrappers
  import opened Text
  import opened MonitorTypes
  import Ratios

  datatype Stats = Stats(
    totalRequests: nat,
    successfulRequests: nat,
    failedRequests: nat,
    timeoutRequests: nat,
    fallbackSwitches: nat,
    alternatingSwitches: nat,
    bothHostTests: nat,
    startTime: Option<int>)

  const INITIAL: Stats := Stats(0, 0, 0, 0, 0, 0, 0, None)

  /** Every request is counted as a success or a failure, and timeouts are
      a kind of failure. */
  predicate StatsValid(s: Stats) {
    s.totalRequests == s.successfulRequests + s.failedRequests
    && s.timeoutRequests <= s.failedRequests
  }

  /** `str(x)` of an optional string: `None` prints as "None". */
  function OptionStr(x: Option<string>): string {
    match x
    case Some(v) => v
    case None => "None"
  }

  /** The timeout test of `_update_statistics`. */
  predicate IsTimeout(r: ModbusResult) {
    r.errorType == Some("TimeoutError") || Contains(Lower(OptionStr(r.errorMessage)), "timeout")
  }

  /** `_update_statistics`. */
  function UpdateStatistics(s: Stats, r: ModbusResult): (t: Stats)
    ensures t.totalRequests == s.totalRequests + 1
    ensures r.success ==> t.successfulRequests == s.successfulRequests + 1
                          && t.failedRequests == s.failedRequests
                          && t.timeoutRequests == s.timeoutRequests
    ensures !r.success ==> t.successfulRequests == s.successfulRequests
                           && t.failedRequests == s.failedRequests + 1
                           && t.timeoutRequests == s.timeoutRequests + (if IsTimeout(r) then 1 else 0)
    ensures t.(totalRequests := 0, successfulRequests := 0, failedRequests := 0, timeoutRequests := 0)
            == s.(totalRequests := 0, successfulRequests := 0, failedRequests := 0, timeoutRequests := 0)
    ensures StatsValid(s) ==> StatsValid(t)
  {
    var s1 := s.(totalRequests := s.totalRequests + 1);
    if r.success then s1.(successfulRequests := s.successfulRequests + 1)
    else
      var s2 := s1.(failedRequests := s.failedRequests + 1);
      if IsTimeout(r) then s2.(timeoutRequests := s.timeoutRequests + 1) else s2
  }

  /** The success rate of `get_statistics`, in percent. */
  function SuccessRate(s: Stats): real {
    (s.successfulRequests as real / (if s.totalRequests < 1 then 1 else s.totalRequests) as real) * 100.0
  }

  lemma {:induction false} SuccessRateBounds(s: Stats)
    requires StatsValid(s)
    ensures 0.0 <= SuccessRate(s) <= 100.0
    ensures s.totalRequests == 0 ==> SuccessRate(s) == 0.0
    ensures s.totalRequests > 0 && s.failedRequests == 0 ==> SuccessRate(s) == 100.0
  {
    if s.totalRequests > 0 {
      Ratios.PercentBounds(s.successfulRequests, s.totalRequests);
    }
  }

  function CountSuccesses(rs: seq<ModbusResult>): nat {
    if rs == [] then 0
    else CountSuccesses(rs[..|rs| - 1]) + (if rs[|rs| - 1].success then 1 else 0)
  }

  function CountTimeouts(rs: seq<ModbusResult>): nat {
    if rs == [] then 0
    else CountTimeouts(rs[..|rs| - 1]) + (if !rs[|rs| - 1].success && IsTimeout(rs[|rs| - 1]) then 1 else 0)
  }

  /** `_update_statistics` applied to each result in turn. */
  function UpdateAll(s: Stats, rs: seq<ModbusResult>): Stats {
    if rs == [] then s else UpdateStatistics(UpdateAll(s, rs[..|rs| - 1]), rs[|rs| - 1])
  }

  /** After a run of polls from fresh counters, the counters are exactly the
      number of results, of successful ones, of failed ones and of failed
      ones recognised as timeouts. */
  lemma {:induction false} CountersCountResults(rs: seq<ModbusResult>)
    ensures UpdateAll(INITIAL, rs).totalRequests == |rs|
    ensures UpdateAll(INITIAL, rs).successfulRequests == CountSuccesses(rs)
    ensures UpdateAll(INITIAL, rs).failedRequests == |rs| - CountSuccesses(rs)
    ensures UpdateAll(INITIAL, rs).timeoutRequests == CountTimeouts(rs)
    ensures StatsValid(UpdateAll(INITIAL, rs))
  {
    if rs != [] {
      CountersCountResults(rs[..|rs| - 1]);
    }
  }
}
