# Modbus diagnostics: a verified model of the polling core

This project models the core of a Modbus TCP diagnostics tool for a heat pump. The tool talks to a real device (the
"primary" host) and a software simulator (the "secondary" host). The Dafny model covers:

- **The resilient monitor** (`modbus_monitor.py`), in six modules:
  - `HostHealth`: the per-host health record (`HostStatus`), with its failure counters, circuit breaker and window
    of the last 100 latencies.
  - `RetryingRead`: the retrying read `_read_from_host`. It checks the breaker, makes up to `max_retries + 1` attempts
    with exponential backoff plus jitter, and records the outcome once per call.
  - `Dispatch`: the access-mode dispatcher (fallback, alternating, both, primary-only, secondary-only, and unknown
    modes treated as fallback), plus one pass of the monitoring loop.
  - `Statistics`: the request counters.
  - `MonitorTypes`: the shared records and event kinds.
  - `Monitor`: the class `ModbusMonitor`. It owns the two host records, the counters, the alternating counter, the
    callback registry and the `running` flag. Its methods update them in place and are proved against the functions
    of the modules above.
- **Configuration helpers** (`const.py`, module `Config`):
  - the host swap, as the class `HostSwitch` holding the mutable `USE_SECONDARY_AS_PRIMARY` flag;
  - the polling-interval clamp, the per-register timeouts and priorities, and the access-mode descriptions;
  - configuration validation;
  - the inverse sensor/register map.
- **Timeout-pattern analysis** of parsed log events (`log_analyzer.py`, module `LogAnalyzer`): runs of consecutive
  timeouts, severity bands, grouping by register, the hourly histogram, the recommendation rules and the
  per-register status.
- **The recommendation engine** (`recommendation_engine.py`, module `RecommendationEngine`): the performance table
  built from logs and connectivity tests, the three recommendation rules, ranking, the configuration merge, the
  summary and the risk assessment.
- **Network diagnostics scoring** (`network_diagnostics.py`, module `NetworkDiagnostics`): the health score, the
  issue list, the advice list and the quick-check verdict.
- **The device-vs-simulator classifier** (`lambda_vs_simulator_analysis.py`, module `LambdaVsSimulator`) and **the
  result summariser** of the device test (`lambda_specific_test.py`, module `LambdaSpecificTest`).

Helper modules:

- `Wrappers`: `Option` and `Result`.
- `Text`: decimal rendering of integers and Python's string order.
- `Levels`: the words low/medium/high/critical.
- `Sorting`: Python's stable `list.sort(key=...)`, with `reverse=True` expressed as an ascending sort on a negated
  key.

Conventions:

- The Modbus read is an oracle `Tries`: for each host role and attempt index it gives either an answer with its
  latency, or a fault with an error type and message.
- The clock is read in milliseconds. Each host read gets its own two readings (`RetryingRead.ReadClock`): one
  when the breaker is checked, and one after the attempts and their sleeps. A pass gives every host role its own
  pair (`Dispatch.Clocks`), so the two hosts of a pass need not share a reading; the model does not order the
  readings, and every property holds whatever they are. Elsewhere the
  clock is an integer parameter `now` (seconds in the recommendation engine).
- Every `random.uniform` draw is a parameter.
- Python floats are Dafny `real`.
- A Python `ZeroDivisionError` is a `Failure("ZeroDivisionError")` result.
- Log and report f-strings become structured values (the `Issue`, `Advice` and `Recommendation` datatypes).

Where the code and its design notes disagree, the model follows the code:

- The retry delay is never clamped to `MAX_RETRY_DELAY`.
- The breaker recovery time is the 60 s hard-coded at `modbus_monitor.py:466`, not `CIRCUIT_BREAKER_RECOVERY_TIMEOUT`.
- An expired breaker is reset when a read is admitted, not only on success.
- Severities and priorities are sorted as strings ("medium" > "low" > "high" > "critical"), not by rank.

## Model

| member | source | states |
|---|---|---|
| MonitorTypes.EventTypeOf | modbus_monitor.py:120-125 | a callback name denotes an event type exactly when it is one of the four registry keys, and then that type's name |
| HostHealth.Initial | modbus_monitor.py:49-62 | a fresh host record satisfies the health invariant |
| HostHealth.PushWindow | modbus_monitor.py:60 | the bounded latency deque never holds more than 100 entries and ends with the latency just pushed |
| HostHealth.WindowKeepsLatest | modbus_monitor.py:447 | pushing onto the window of a history gives the window of the history extended by the latency: the deque always holds the latest 100 latencies |
| HostHealth.MeanBounds | modbus_monitor.py:448 | the average of a non-empty window lies between any lower and upper bound of its latencies |
| HostHealth.AfterSuccess | modbus_monitor.py:439-454 | a success resets consecutive failures, adds one success, closes the breaker, stamps last_success, appends the latency to the window, sets the average to the window mean, and leaves failures and identity alone |
| HostHealth.AfterFailure | modbus_monitor.py:456-472 | a failure adds one to both failure counters and stamps last_failure; the breaker opens with deadline now + 60 s, reported as the event flag, exactly when the count reaches the threshold while it was closed; otherwise the breaker is unchanged |
| HostHealth.Admit | modbus_monitor.py:346-361 | a read is rejected exactly when the breaker is open with a deadline still ahead; an admitted read sees a closed breaker, reset only when it was open |
| HostHealth.AfterSuccessValid | modbus_monitor.py:439-454 | a success keeps the health invariant |
| HostHealth.AfterFailureValid | modbus_monitor.py:456-472 | a failure keeps the health invariant |
| HostHealth.AdmitValid | modbus_monitor.py:357-361 | resetting an expired breaker keeps the health invariant |
| HostHealth.OpenBreakerDoesNotRefire | modbus_monitor.py:463-472 | while the breaker is open, further failures neither fire the breaker event again nor move its deadline |
| HostHealth.SuccessAndAdmitKeepBreakerJustified | modbus_monitor.py:346-454 | a success and an admission both keep "open breaker implies consecutive failures at the threshold" |
| HostHealth.FailureKeepsBreakerJustified | modbus_monitor.py:456-472 | a failure keeps "open breaker implies consecutive failures at the threshold" |
| HostHealth.BreakerWindow | modbus_monitor.py:348-361 | once a failure opens the breaker at `now`, a read is rejected exactly when it comes before now + 60 s |
| HostHealth.AverageWithinLatencies | modbus_monitor.py:444-448 | after a success, the average latency stays within any bounds that hold for the stored latencies and the new one |
| RetryingRead.SleepBounds | modbus_monitor.py:373-377 | the jitter adds between 0 and 20 % of the delay; with backoff each delay doubles the previous one, without it every delay is retry_delay |
| RetryingRead.Sleeps | modbus_monitor.py:373-377 | the n sleeps taken after attempts 0..n-1 are each that attempt's jittered delay |
| RetryingRead.FirstAnswer | modbus_monitor.py:364-368 | the attempt found is the first successful one in the range, with every earlier attempt faulted; none is found only when all attempts fault |
| RetryingRead.RunAttempts | modbus_monitor.py:364-381 | the attempt loop stops at the first answer or after max_retries + 1 faults, and sleeps only between attempts, never after the last |
| RetryingRead.RetryAttempts | modbus_monitor.py:364-377 | the `for attempt in range(max_retries + 1)` loop computes the attempt run of the specification |
| RetryingRead.RejectedWhileOpen | modbus_monitor.py:346-356 | an open breaker with a future deadline yields a failed "circuit_breaker" result with no response time, no attempt, no sleep, no event and the record unchanged |
| RetryingRead.ExpiredBreakerAdmits | modbus_monitor.py:357-361 | an open breaker whose deadline has passed is reset: at least one real attempt is made, and a success leaves the breaker closed |
| RetryingRead.AttemptsBounded | modbus_monitor.py:364-381 | at most max_retries + 1 attempts, one sleep fewer than attempts; a success reports its attempt index as retry_count (at most max_retries); a failure after admission used every attempt |
| RetryingRead.SleepSchedule | modbus_monitor.py:373-377 | the sleep before retry k + 1 is retry_delay * 2^k (with backoff) plus jitter of at most 20 % |
| RetryingRead.RecordedOnce | modbus_monitor.py:366-381 | the outcome is recorded exactly once per call: one success (and consecutive failures reset) or one failure, never one per attempt; a rejected call records nothing |
| RetryingRead.BreakerEventWhenOpened | modbus_monitor.py:462-472 | at most one breaker event per call, raised exactly when an admitted read fails and brings consecutive failures to the threshold; the breaker is then open until 60 s after the reading taken after the attempts and their sleeps |
| RetryingRead.ReadKeepsHealthValid | modbus_monitor.py:341-381 | a read keeps the host record well formed and keeps its host and port |
| RetryingRead.ReadStamps | modbus_monitor.py:341-466 | a rejection is stamped with the breaker-check reading; an admitted read's result and its last_success or last_failure carry the reading after the attempts, and the other of the two fields is unchanged |
| RetryingRead.ReadKeepsBreakerJustified | modbus_monitor.py:341-381 | if an open breaker implies at least `threshold` consecutive failures before a read, it still does after it |
| Statistics.UpdateStatistics | modbus_monitor.py:484-494 | each result adds one request and one success or one failure; a failure of type TimeoutError, or whose message mentions "timeout" in any case, also adds one timeout; no other field changes, and the counter invariant is kept |
| Statistics.SuccessRateBounds | modbus_monitor.py:538-545 | with consistent counters the success rate is a percentage: 0 with no requests, 100 when nothing failed |
| Statistics.CountersCountResults | modbus_monitor.py:484-494 | from zero, the counters equal the number of results, of successes, of failures and of timeouts among them |
| Dispatch.ModeOf | modbus_monitor.py:227-241 | each of the four named modes selects its own branch; every other string, including "fallback", selects the fallback branch |
| Dispatch.ReadRole | modbus_monitor.py:341-381 | reading one role contacts exactly that host and changes neither the other host nor the counters |
| Dispatch.FallbackPrimarySuccess | modbus_monitor.py:246-249 | in fallback mode a primary success never contacts the secondary and changes no counter |
| Dispatch.FallbackRescue | modbus_monitor.py:251-261 | a failed primary rescued by the secondary returns the secondary's result, adds exactly one fallback switch, and emits the fallback event carrying the primary's error |
| Dispatch.FallbackDoubleFailure | modbus_monitor.py:263-267 | when both hosts fail, the primary's result is returned and no counter changes |
| Dispatch.FallbackCounters | modbus_monitor.py:243-267 | fallback only ever counts fallback switches, and does so exactly when both hosts were contacted and the second answered |
| Dispatch.FallbackChecksSecondaryLate | modbus_monitor.py:251-261 | after a failed primary, the secondary's breaker is checked against the secondary's own reading: a deadline passed by then lets at least one attempt go to the secondary |
| Dispatch.UnknownModeIsFallback | modbus_monitor.py:239-241 | any unlisted access mode behaves exactly as fallback |
| Dispatch.FixedModesReadOneHost | modbus_monitor.py:233-238 | primary_only and secondary_only contact only their host and leave the other host and the counters alone |
| Dispatch.AlternatingBehaviour | modbus_monitor.py:270-303 | the counter advances on every call; an even counter starts with the primary and an odd one with the secondary; the other host is tried only after a failure; a switch is counted only when it rescues the call; a double failure returns the first host's result |
| Dispatch.ReadOrRescueBehaviour | modbus_monitor.py:243-303 | the read shared by fallback and alternating: the first host is read, only its failure contacts the other host, the mode's switch counter moves exactly when the other host rescued the read, and a double failure returns the first host's result; each host is read with its own clock readings |
| Dispatch.ReadOrRescueValid | modbus_monitor.py:243-303 | fallback and alternating reads keep both host records and the counters well formed and count no request |
| Dispatch.BothBehaviour | modbus_monitor.py:305-339 | both hosts are contacted in order and both_host_tests grows by one; of two successes the faster wins, ties going to the primary; of one success, that one; of none, the primary's result |
| Dispatch.SuccessHasResponseTime | modbus_monitor.py:349-357 | a successful read always carries a response time; only the circuit-breaker result lacks one |
| Dispatch.PollKeepsEngineValid | modbus_monitor.py:194-225 | a corrected pass keeps both host records and the counters well formed, counts exactly one request, and waits an interval in [25, 35] s |
| Dispatch.ProcessedKeepsEngineValid | modbus_monitor.py:484-495 | updating the counters with any result keeps them consistent and counts one request, and the wait that follows lies in [25, 35] s |
| Dispatch.ReadsPerPass | modbus_monitor.py:227-339 | each pass contacts one or two hosts, never the same host twice |
| Dispatch.AsWrittenAgreesWithoutBreakerResults | modbus_monitor.py:474-482 | when no result in the pass lacks a response time, the loop body as written and the corrected one do the same thing |
| Dispatch.BreakerResultBreaksPass | modbus_monitor.py:221-225 | as written, a primary-only pass whose breaker is open leaves the counters untouched, reports only a TypeError to on_error and waits 5 s; corrected, it counts one failed request and delivers the breaker result to on_result |
| Dispatch.BothModeLosesGoodAnswer | modbus_monitor.py:312-318 | as written, a both-hosts pass with the primary breaker open ends in a TypeError even though the secondary answered; corrected, it returns the secondary's success and counts it |
| Monitor.DeliveriesAppend | modbus_monitor.py:522-528 | the handler calls for a sequence of events are the calls for its first part followed by those for the rest |
| Monitor.DeliveriesGoToRegistered | modbus_monitor.py:522-528 | every handler call delivers one of the events to a handler registered for that event's kind |
| Monitor.ModbusMonitor.constructor | modbus_monitor.py:88-125 | both hosts start fresh from the configured pair, the counters and the alternating counter are zero, the four callback lists are empty, and the monitor is not running |
| Monitor.ModbusMonitor.AddCallback | modbus_monitor.py:158-163 | a handler is appended to the list of a known event type and the call reports it; an unknown type changes nothing |
| Monitor.ModbusMonitor.Trigger | modbus_monitor.py:522-528 | every handler registered for the event's kind is called once, in registration order, and nothing else changes |
| Monitor.ModbusMonitor.StartMonitoring | modbus_monitor.py:165-178 | a monitor already running is left alone and the call reports it; otherwise it starts running with start_time = now |
| Monitor.ModbusMonitor.StopMonitoring | modbus_monitor.py:180-192 | stopping succeeds exactly when the monitor was running, and afterwards it is not running |
| Monitor.ModbusMonitor.UpdateHostStatusSuccess | modbus_monitor.py:439-454 | updates the record of one host as a success, the other host untouched |
| Monitor.ModbusMonitor.UpdateHostStatusFailure | modbus_monitor.py:456-472 | updates the record of one host as a failure and calls the breaker handlers exactly when this failure opened the breaker |
| Monitor.ModbusMonitor.CheckBreaker | modbus_monitor.py:346-361 | admits the read exactly when the breaker allows it, resetting an expired breaker; a rejection changes nothing |
| Monitor.ModbusMonitor.ReadFromHost | modbus_monitor.py:341-381 | leaves the state, returns the result and makes the handler calls that the specification of one host read gives |
| Monitor.ModbusMonitor.ReadWithRescue | modbus_monitor.py:243-303 | the read of one host and, after its failure, of the other, with the switch count and the fallback event: the state, result and handler calls are those of the shared fallback/alternating specification, each host read with its own clock readings |
| Monitor.ModbusMonitor.PerformFallbackRead | modbus_monitor.py:243-267 | behaves as the fallback specification, whose properties are the Dispatch.Fallback* lemmas |
| Monitor.ModbusMonitor.PerformAlternatingRead | modbus_monitor.py:270-303 | behaves as the alternating specification of Dispatch.AlternatingBehaviour |
| Monitor.ModbusMonitor.PerformBothHostsRead | modbus_monitor.py:305-339 | behaves as the both-hosts specification of Dispatch.BothBehaviour |
| Monitor.ModbusMonitor.PerformModbusRead | modbus_monitor.py:227-241 | behaves as the dispatcher specification for the monitor's access mode |
| Monitor.ModbusMonitor.MonitorStep | modbus_monitor.py:194-225 | one pass of the running loop: the new host records and counters, the handler calls, the result and the wait are those of the corrected pass |
| Monitor.ModbusMonitor.GetStatistics | modbus_monitor.py:530-567 | the report keeps total = successes + failures and timeouts ≤ failures, gives a success rate in [0, 100], copies the four request counters, gives the uptime since start_time (0 when never started), and copies the mode, the host summaries and the switch counters |
| Config.GetActiveHosts | const.py:69-79 | the configured secondary endpoint takes the primary role exactly when the flag is set |
| Config.ActiveHostsAreTheConfiguredPair | const.py:69-79 | either way, the two roles are the two configured endpoints, one each |
| Config.FlipSwapsRoles | const.py:69-79 | flipping the flag exchanges the two roles |
| Config.HostSwitch.constructor | const.py:13 | the shipped flag is off |
| Config.HostSwitch.SwitchHosts | const.py:91-95 | negates the flag, returns the new value, and swaps the active primary and secondary |
| Config.HostSwitch.SwitchTwice | const.py:91-95 | two switches restore the original flag and host assignment |
| Config.GetHostAccessMode | const.py:124-154 | echoes the mode, always lists the five modes, and says "Unknown mode" / "Unknown behavior" exactly for an unlisted mode |
| Config.RandomInterval | const.py:442-448 | the interval always lies in [25, 35] s, and equals 30 + variation for every draw in [-5, 5] |
| Config.TimeoutForRegister | const.py:450-460 | 2 s exactly for registers 0, 1050 and 1060, 5 s for every other register, 1000 included |
| Config.CriticalRegisterRanges | const.py:462-465 | a register is critical exactly when it is 0, 1 or one of 1000..1004 |
| Config.RegisterPriority | const.py:467-474 | "high" exactly for critical registers, "low" exactly for 1050 and 1060, otherwise "medium", never "critical" |
| Config.ReportedExactly | const.py:480-506 | an issue is reported exactly when its check runs and fails, each at most once, in check order |
| Config.ValidateConfiguration | const.py:480-506 | the list of appended issues is the failed checks in the order they run |
| Config.ValidateShipped | const.py:480-506 | the shipped constants raise no issue |
| Config.InvertRoundTrip | const.py:254 | when the values of a dict are distinct, its inverted dict sends each value back to its key |
| Config.SensorOfReadsTheInvertedMap | const.py:254 | a lookup in REGISTER_TO_SENSOR_MAP finds the sensor whose register it is, and misses exactly for registers no sensor uses |
| Config.SensorMapRoundTrip | const.py:217-254 | REGISTER_TO_SENSOR_MAP[SENSOR_TO_REGISTER_MAP[s]] == s for every sensor s |
| Levels.LexRankOrdersNames | log_analyzer.py:205-206 | the rank used in sorting agrees with comparing the level words as Python strings |
| Sorting.SortBy | log_analyzer.py:205-206 | the sort returns a permutation of its input, sorted by the key |
| Sorting.SortByIsStable | recommendation_engine.py:198 | elements with equal keys keep their original order |
| LogAnalyzer.CalculateConsecutiveTimeouts | log_analyzer.py:209-227 | the loop of run counters computes the specification of the longest run |
| LogAnalyzer.ConsecutiveIsLongestStretch | log_analyzer.py:217-225 | the count is the length of a stretch of adjacent events with gaps of at most 5 minutes, and no such stretch is longer |
| LogAnalyzer.CalculateSeverity | log_analyzer.py:229-245 | "critical" exactly when count ≥ 50 within an hour; otherwise "high" exactly when the run is ≥ 3 or count ≥ 10; "low" exactly when count < 5 and run < 3 |
| LogAnalyzer.SeverityMonotone | log_analyzer.py:229-245 | more timeouts, longer runs or a shorter span never lower the severity |
| LogAnalyzer.AnalyzeTimePatterns | log_analyzer.py:247-255 | the defaultdict loop computes the hourly counts of the specification |
| LogAnalyzer.HourCountsAreAHistogram | log_analyzer.py:247-255 | every key is an hour in 0..23 with a positive count, each count is the number of events at that hour, and the counts sum to the number of events |
| LogAnalyzer.RegistersAreTheKeys | log_analyzer.py:169-172 | the registers of the events that have one, each listed once |
| LogAnalyzer.EventsOfAreTheGroup | log_analyzer.py:169-172 | a register's group holds exactly the events of that register |
| LogAnalyzer.GroupByRegister | log_analyzer.py:166-172 | the grouping loop drops events without a register and files each event under its register, registers in order of first appearance |
| LogAnalyzer.AnalyzeErrorPatterns | log_analyzer.py:164-207 | the grouping, measuring and sorting loops compute the patterns of the specification |
| LogAnalyzer.ErrorPatternsCoverRegisters | log_analyzer.py:175-203 | there is a pattern for a register exactly when some event carries that register |
| LogAnalyzer.ErrorPatternsCountEveryEvent | log_analyzer.py:164-207 | one pattern per distinct register, and the timeout counts add up to the number of events that have a register |
| LogAnalyzer.ErrorPatternsAreMeasured | log_analyzer.py:175-203 | each pattern counts its register's events, its first and last timestamps bound them all and occur among them, the span is last − first, the run is between 1 and the count, and the severity follows the rules |
| LogAnalyzer.ErrorPatternsOrder | log_analyzer.py:205-206 | patterns come in descending order of the severity word as a string, and by descending timeout count within one severity |
| LogAnalyzer.RecommendationsFor | log_analyzer.py:262-292 | a low or medium pattern yields nothing; a high or critical one yields an individual read and a timeout of 5 s (critical) or 3 s (high), plus a low-priority entry only outside {0, 1, 1000..1004} |
| LogAnalyzer.GenerateRecommendations | log_analyzer.py:257-295 | the append loop computes the recommendations of the specification |
| LogAnalyzer.RecommendationsComeFromSeverePatterns | log_analyzer.py:257-295 | every recommendation names the register of a high or critical pattern, and every such pattern gets an individual-read recommendation |
| LogAnalyzer.StatusFor | log_analyzer.py:347-355 | "critical" at ≥ 50 timeouts, "poor" in [10, 50), "fair" in [5, 10), otherwise "good" |
| LogAnalyzer.RegisterPerformanceSummary | log_analyzer.py:330-375 | counts the register's events, derives the status from the count, gives "good" and no advice without events, adds the individual-read line exactly from 3 timeouts and the 5 s timeout line exactly from 5, the network line exactly when the longest run of timeouts is 3 or more, and ties the longest run, the first and last timestamps and the span in hours to the events |
| LogAnalyzer.SummaryConsecutiveIsLongestStretch | log_analyzer.py:343-370 | for a register with timeouts, the reported consecutive count is the longest run of timeouts with gaps of at most 300 s (5 minutes) |
| RecommendationEngine.Logged | recommendation_engine.py:114-132 | a log-derived record has error_rate = failed / max(1, total) and keeps the record invariant |
| RecommendationEngine.Tested | recommendation_engine.py:153-172 | a connectivity test adds one request and one success or one failure, leaving the error rate |
| RecommendationEngine.ExtractValid | recommendation_engine.py:110-178 | extraction keeps the table well formed and covers exactly the old registers, those of the error patterns and those of the tests |
| RecommendationEngine.ExtractAppliesCurrentConfig | recommendation_engine.py:175-178 | after extraction, every record's individual-read flag, low-priority flag and timeout are those of the current configuration |
| RecommendationEngine.LogRecordsCarryErrorRate | recommendation_engine.py:114-132 | every register named by an error pattern has a record whose error rate is failed / max(1, total) |
| RecommendationEngine.ConnectivityTally | recommendation_engine.py:153-172 | a record's counters grow by exactly the number of its register's tests and of their successes |
| RecommendationEngine.ShouldRecommendIndividualRead | recommendation_engine.py:202-220 | false for a register already read individually; otherwise true exactly when error rate > 0.05, ≥ 3 consecutive failures, or average > 3000 ms |
| RecommendationEngine.ShouldRecommendTimeoutAdjustment | recommendation_engine.py:222-236 | true exactly when more than 5 timeouts, or a timeout under 5 s with error rate > 0.1 or average > 2000 ms |
| RecommendationEngine.ShouldRecommendLowPriority | recommendation_engine.py:238-256 | false for critical or already low-priority registers; otherwise true exactly when error rate > 0.1 or average > 5000 ms |
| RecommendationEngine.IndividualReadRecommendation | recommendation_engine.py:258-290 | priority "critical" exactly when error rate > 0.2, else "high" exactly for critical registers and never "low"; confidence in [0.5, 1.0], 0.5 exactly without evidence |
| RecommendationEngine.RecommendedTimeout | recommendation_engine.py:297-305 | the proposed timeout always lies in [1, 10] s |
| RecommendationEngine.RecommendedTimeoutGrows | recommendation_engine.py:297-305 | the proposal is current × 2.5, 2.0 or 1.5 by error-rate band whenever that lies in [1, 10], and never shortens a timeout already in range |
| RecommendationEngine.TimeoutAdjustmentRecommendation | recommendation_engine.py:292-334 | proposes the clamped timeout; priority "critical" exactly when error rate > 0.3, else "high" exactly for critical registers; confidence in [0.6, 1.0] |
| RecommendationEngine.LowPriorityRecommendation | recommendation_engine.py:336-360 | priority "low", confidence in [0.7, 0.9], 0.7 exactly without evidence |
| RecommendationEngine.JustifiedByARule | recommendation_engine.py:186-196 | a record yields a recommendation exactly when one of the three rules holds and the recommendation is that rule's |
| RecommendationEngine.RecommendationsAreJustified | recommendation_engine.py:180-200 | every recommendation is justified by a rule holding for its register's record |
| RecommendationEngine.RecommendationsAreComplete | recommendation_engine.py:180-200 | every recommendation a rule calls for is in the list |
| RecommendationEngine.RecommendationsRanked | recommendation_engine.py:198 | the list runs in descending order of the priority word as a string, then of confidence; every confidence is at most 1 |
| RecommendationEngine.CriticalRegistersStayPrioritised | recommendation_engine.py:238-256 | no critical register is ever recommended for low priority |
| RecommendationEngine.MergeListContents | recommendation_engine.py:366-374 | the merged list holds the current registers and those of the recommendations of that kind, each at most once |
| RecommendationEngine.MergeTimeoutsKeys | recommendation_engine.py:376-378 | the merged timeout map has the current keys and every register with a timeout recommendation |
| RecommendationEngine.MergeTimeoutsKeeps | recommendation_engine.py:376-378 | a register without a timeout recommendation keeps its current timeout |
| RecommendationEngine.MergeTimeoutsLast | recommendation_engine.py:376-378 | a register's last timeout recommendation sets its value |
| RecommendationEngine.IndividualReadsShape | recommendation_engine.py:366-381 | the updated individual-read list is strictly increasing and holds exactly the current ones plus the recommended ones |
| RecommendationEngine.LowPriorityShape | recommendation_engine.py:366-381 | the updated low-priority list is strictly increasing and holds exactly the current ones plus the recommended ones |
| RecommendationEngine.ConfigurationTimeoutsShape | recommendation_engine.py:376-381 | the updated timeout map keeps unrecommended timeouts and takes each register's last recommended value |
| RecommendationEngine.GenerateSummary | recommendation_engine.py:401-424 | "No configuration changes recommended" exactly when there is no new individual read, no new low-priority register and no new or changed timeout |
| RecommendationEngine.AssessRisk | recommendation_engine.py:426-438 | HIGH exactly when some recommendation is critical, MEDIUM for more than 3 high ones, LOW for 1 to 3, otherwise MINIMAL, with the counts reported |
| RecommendationEngine.HighRiskFromErrorRates | recommendation_engine.py:426-438 | the risk is HIGH exactly when some record calls for an individual read with error rate > 0.2 or a timeout change with error rate > 0.3 |
| RecommendationEngine.RecommendationEngine.constructor | recommendation_engine.py:76-90 | the engine starts with an empty performance table |
| RecommendationEngine.RecommendationEngine.ExtractRegisterPerformance | recommendation_engine.py:110-178 | the three loops update the table in place as the extraction specification says and keep it well formed |
| RecommendationEngine.RecommendationEngine.GenerateRecommendations | recommendation_engine.py:180-200 | returns the ranked recommendations of the current table |
| RecommendationEngine.RecommendationEngine.CreateConfigurationUpdate | recommendation_engine.py:362-399 | returns the merged configuration with its summary and risk |
| RecommendationEngine.RecommendationEngine.AnalyzePerformanceData | recommendation_engine.py:94-108 | extracts the table, then returns the configuration update built from its recommendations |
| NetworkDiagnostics.Classify | network_diagnostics.py:397-403 | a ping is unreachable exactly when it failed, lossy exactly when it answered with loss over 10 %, and slow exactly when it answered with acceptable loss but an average over 100 ms |
| NetworkDiagnostics.HealthScore | network_diagnostics.py:390-422 | the score always lies in [0, 100] |
| NetworkDiagnostics.CalculateNetworkHealthScore | network_diagnostics.py:390-422 | the decrementing loop computes the score of the specification |
| NetworkDiagnostics.PingPenaltiesBounds | network_diagnostics.py:397-403 | each ping costs at most 20 points, and the pings cost nothing exactly when all are healthy |
| NetworkDiagnostics.ModbusPenaltyBounds | network_diagnostics.py:415-420 | the Modbus penalty lies in [0, 30], is 30 exactly when there are tests and all failed, and 0 exactly when none failed |
| NetworkDiagnostics.PerfectScore | network_diagnostics.py:390-422 | healthy pings, no closed Modbus port and no failed Modbus test give 100 |
| NetworkDiagnostics.ExtraPingCosts | network_diagnostics.py:397-403 | one more ping never raises the score, and an unreachable one lowers any score of at least 20 by exactly 20 |
| NetworkDiagnostics.PingIssue | network_diagnostics.py:430-436 | a ping raises an issue exactly when it costs points, and the issue follows the same precedence as the penalty |
| NetworkDiagnostics.FailureKeysAreTheFailedHosts | network_diagnostics.py:444-447 | host:port keys of failed tests, each once |
| NetworkDiagnostics.HostIssue | network_diagnostics.py:452-456 | "complete Modbus failure" exactly when every test register of the host failed |
| NetworkDiagnostics.GroupFailures | network_diagnostics.py:444-450 | the grouping loop files the register of each failed test under its host:port, keys in first-seen order |
| NetworkDiagnostics.IdentifyIssues | network_diagnostics.py:424-459 | the three loops compute the issue list of the specification |
| NetworkDiagnostics.PingIssuesMatchPenalties | network_diagnostics.py:430-436 | one issue per problem ping, and no ping issue exactly when the pings cost nothing |
| NetworkDiagnostics.ScanIssuesMatchPenalties | network_diagnostics.py:439-441 | one issue per closed common Modbus port, as many as the score charges for |
| NetworkDiagnostics.ModbusIssuesPerHost | network_diagnostics.py:444-456 | a host:port has a Modbus issue exactly when one of its tests failed, and a complete failure exactly when all test registers failed |
| NetworkDiagnostics.UnreachableTargets | network_diagnostics.py:467-469 | lists exactly the targets of failed pings |
| NetworkDiagnostics.SlowTargets | network_diagnostics.py:472-475 | lists exactly the targets of pings over the latency threshold |
| NetworkDiagnostics.FailedHostPorts | network_diagnostics.py:478-481 | the set of host:port of failed Modbus tests |
| NetworkDiagnostics.ModbusAdvice | network_diagnostics.py:478-486 | the Modbus lines appear exactly when some Modbus test failed |
| NetworkDiagnostics.GeneralAdvice | network_diagnostics.py:489-493 | the general lines appear exactly when some issue was found |
| NetworkDiagnostics.GenerateRecommendations | network_diagnostics.py:461-495 | at most eight lines of advice |
| NetworkDiagnostics.RecommendationsWhen | network_diagnostics.py:478-493 | each of the three Modbus lines is present exactly when a Modbus test failed, each general line exactly when there are issues |
| NetworkDiagnostics.PingLinesWhen | network_diagnostics.py:467-475 | the connectivity line appears exactly when some ping failed, and the latency line exactly when some ping exceeded the latency threshold |
| NetworkDiagnostics.RecommendationsNameHosts | network_diagnostics.py:467-475 | the connectivity line names exactly the unreachable targets and the latency line exactly the slow ones |
| NetworkDiagnostics.QuickNetworkCheck | network_diagnostics.py:502-540 | the status is "good" exactly when one of the two hosts answered and the gateway ping succeeded, and "poor" otherwise |
| LambdaVsSimulator.Classify | lambda_vs_simulator_analysis.py:199-252 | no_issue exactly when both rates are ≥ 80; lambda_device_issue exactly when the device is < 50 and the simulator ≥ 80; network_issue exactly when both are < 50; simulator_issue exactly when the device is ≥ 80 and the simulator < 50 |
| LambdaVsSimulator.MixedMeansAMiddleRate | lambda_vs_simulator_analysis.py:243-252 | mixed_issues exactly when some rate lies in [50, 80) |
| LambdaVsSimulator.DetermineIssueType | lambda_vs_simulator_analysis.py:187-261 | the type is the classification, confidence is "high" for the three clear cases and "medium" otherwise, and the advice is the case advice followed by the slow-response advice |
| LambdaVsSimulator.SlowAdviceWhen | lambda_vs_simulator_analysis.py:254-259 | the device slowness line appears exactly when its average is over 5000 ms, the simulator line exactly when its average is over 1000 ms |
| LambdaVsSimulator.ConsistentMeansAllEqual | lambda_vs_simulator_analysis.py:162-166 | values are consistent exactly when there is at least one and all are equal |
| LambdaVsSimulator.AnalyzeComparison | lambda_vs_simulator_analysis.py:148-185 | fails with ZeroDivisionError exactly when either result list is empty; otherwise both rates are percentages and the issue type is their classification |
| LambdaVsSimulator.RateBounds | lambda_vs_simulator_analysis.py:154-155 | a success rate is in [0, 100], 100 exactly when every test succeeded and 0 exactly when none did |
| LambdaVsSimulator.AverageTimeBounds | lambda_vs_simulator_analysis.py:158-159 | the average over successes is 0 without successes and otherwise between any bounds of the successful latencies |
| LambdaVsSimulator.AllOrNothingCases | lambda_vs_simulator_analysis.py:154-185 | a device that always fails beside a simulator that always answers is a device issue; both always answering is no issue |
| LambdaVsSimulator.TallyCounts | lambda_vs_simulator_analysis.py:313-315 | the tally lists each occurring issue type once with its number of occurrences |
| LambdaVsSimulator.CountIssueTypes | lambda_vs_simulator_analysis.py:313-315 | the counting loop computes the tally of the specification |
| LambdaVsSimulator.MostCommon | lambda_vs_simulator_analysis.py:317 | ("unknown", 0) for an empty tally, otherwise the first entry with the largest count, which no count exceeds |
| LambdaVsSimulator.MostCommonOccursMost | lambda_vs_simulator_analysis.py:313-317 | the issue type reported occurs in the results, with its exact count, and no type occurs more often |
| LambdaSpecificTest.Summarize | lambda_specific_test.py:208-220 | fails with ZeroDivisionError exactly when the host has no tests; otherwise total is the number of tests, failed = total − successful ≥ 0, and the rate is a percentage |
| LambdaSpecificTest.SummaryFacts | lambda_specific_test.py:208-220 | the rate is 100 exactly when all tests succeeded and 0 exactly when none did; the average is 0 without successes and otherwise within the bounds of the successful latencies |
| LambdaSpecificTest.SummarizeHost | lambda_specific_test.py:208-220 | the summing loop computes the summary of the specification |
| LambdaSpecificTest.IssueOf | lambda_specific_test.py:223-227 | a register yields at most one issue, none exactly when it succeeded within 5000 ms, a failure issue exactly when it failed |
| LambdaSpecificTest.IssuesNameEntries | lambda_specific_test.py:222-227 | a host's issues are at most one per tested register and each names that host and one of its registers |
| LambdaSpecificTest.IssuesDistinct | lambda_specific_test.py:222-227 | no register is listed twice among a host's issues |
| LambdaSpecificTest.IssuesCover | lambda_specific_test.py:222-227 | every failed test is listed as a failure and every slow success as a slow response |
| LambdaSpecificTest.CollectIssues | lambda_specific_test.py:222-227 | the register loop computes the issue list of the specification |
| LambdaSpecificTest.AnalyzeFailsIffEmptyHost | lambda_specific_test.py:205-220 | the analysis fails with ZeroDivisionError exactly when some host has an empty dict |
| LambdaSpecificTest.DictHostsAreSummarised | lambda_specific_test.py:205-220 | every dict host gets its summary |
| LambdaSpecificTest.OnlyDictHostsAreSummarised | lambda_specific_test.py:206 | a host whose results are not a dict is skipped |
| LambdaSpecificTest.AdviceFor | lambda_specific_test.py:229-240 | the three general lines appear exactly when issues were found, the two register-0 lines exactly when register 0 failed |
| LambdaSpecificTest.Register0FailedMeans | lambda_specific_test.py:236 | the register-0 condition holds exactly when the "Primary" host has a dict with register 0 and that test failed |
| LambdaSpecificTest.RecommendationsWhen | lambda_specific_test.py:229-240 | in a successful analysis, the general lines appear exactly when issues were found and the register-0 lines exactly when register 0 of "Primary" failed |
| LambdaSpecificTest.AnalyzeResults | lambda_specific_test.py:195-242 | the host and register loops compute the analysis of the specification |
| LambdaSpecificTest.ErrorStateName | lambda_specific_test.py:178-180 | value i in 0..4 decodes to the i-th of NONE, MESSAGE, WARNING, ALARM and FAULT; any other value, or none, to "Unknown(v)" |
| LambdaSpecificTest.StateName | lambda_specific_test.py:182-184 | value i in 0..5 decodes to the i-th of the six state names in source order; any other value to "Unknown(v)" |
| LambdaSpecificTest.ErrorStateNamesDistinct | lambda_specific_test.py:178-180 | the five error states decode to five different names, none of which looks like the fallback |
| LambdaSpecificTest.StateNamesDistinct | lambda_specific_test.py:182-184 | the six states decode to six different names, none of which looks like the fallback |
| LambdaSpecificTest.UnknownState | lambda_specific_test.py:182-184 | every value outside 0..5, or none, decodes to the "Unknown(...)" fallback |
| LambdaSpecificTest.UnknownErrorState | lambda_specific_test.py:178-180 | every value outside 0..4 decodes to the "Unknown(...)" fallback |

## Left out

- The Modbus client (`_single_read_attempt`, `test_register`, `_test_single_register`, `_test_modbus_connectivity`)
  is an oracle of answers and faults. Connection set-up, unit ids and the pymodbus exception classes are not
  modelled; a fault carries the error type and message those paths would produce.
- Threads: the monitoring thread, `stop_event.wait`, `join`, the thread pool of the network diagnostics and the GUI
  thread. One pass of the loop is modelled (`Monitor.ModbusMonitor.MonitorStep`) together with the `running` flag.
  The sleeps are returned as values and not taken.
- Clocks and randomness: `datetime.now()`, `time.time()` and `random.uniform` are parameters. In one host read,
  the readings at `modbus_monitor.py:346` and `:349` are one reading, and so are the last attempt's stamp
  (`:414`/`:428`) and the status update (`:444`, `:460`, `:466`), which only that attempt's own latency separates.
- RecommendationEngine.Tested: `RecommendationEngine.RecommendationEngine.AddConnectivityResults` passes one `now`
  for every result of a batch, where `recommendation_engine.py:166` and `:172` read the clock per result. No
  rule reads `last_success` or `last_failure`.
- RetryingRead.ReadFromHost (and `Monitor.ModbusMonitor.ReadFromHost`): `max_retries` is a `nat` and `ConfigValid` requires `retry_delay >= 0`. A negative
  `max_retries` leaves `result` unbound at `modbus_monitor.py:379`, and a negative delay makes `time.sleep` at
  `:377` raise; neither error path is modelled. The shipped settings (`const.py:181-182`) reach neither.
- Persistence and export: SQLite (`_init_database`, `_store_result`, `get_recent_results`,
  `export_results_to_file`), every JSON, text and report writer, `generate_const_py_file`,
  `export_recommendations_to_json` and `generate_diagnostic_report` apart from its most-common-issue selection.
- Ping and port scans through `subprocess` and sockets, and `_parse_ping_output`: their results are inputs.
- Log file reading and regular-expression extraction (`_parse_log_file`, `_count_log_lines`): the analysis starts
  from parsed events with integer timestamps in seconds.
- Text formatting: f-strings, `:.1f` and float-to-string rendering. Issues, evidence and advice are structured
  values. The one place where formatting changes behaviour (a missing response time) is modelled as a finding.
- Floating point: rates, latencies and confidences are exact reals, so `round(..., 2)` of confidences and IEEE
  rounding are not modelled.
- RecommendationEngine.RecommendationEngine.ExtractRegisterPerformance: does not model the `modbus_stats` branch,
  because every caller passes a plain dict without the attribute the branch tests, so it never runs. For the same
  reason the Modbus monitor statistics passed to `analyze_performance_data` are ignored. The record fields
  `consecutive_failures` and `min_response_time` are never read by the rules and are not kept.
- `setup_directories`, `get_config_summary`, `get_host_status`, `get_primary_host`, `get_secondary_host` and the
  import-time validation printout in `const.py`: filesystem side effects and logging only.
- Constants the core never reads (`MAX_RETRY_DELAY`, `CIRCUIT_BREAKER_RECOVERY_TIMEOUT`, the database, e-mail and
  GUI settings) are not modelled.
- The command-line and GUI front end, the interactive host-mode demo, the requirement check and the single live
  connection test have no logic beyond calling the modelled parts.
- `test_critical_registers`, `test_register_0_specifically` and `test_heat_pump_module` only call the Modbus client.
  Their result shapes are the `HostResults` input of `LambdaSpecificTest.Analyze`; a list-valued entry is
  `NotADict`.
- NetworkDiagnostics.GenerateRecommendations: its own ensures only bounds the length. When each line appears is
  stated in `NetworkDiagnostics.PingLinesWhen` (the two ping lines) and `NetworkDiagnostics.RecommendationsWhen`
  (the Modbus and general lines). Which hosts the ping lines name is stated in
  `NetworkDiagnostics.RecommendationsNameHosts`.
- Text.Lower: folds ASCII letters only, where `str.lower()` also folds other letters. Its one use is the
  case-insensitive "timeout" test of `_update_statistics` (`Statistics.UpdateStatistics`). That test gives the same
  answer either way, because no non-ASCII character lowercases to a letter of "timeout".
- LambdaVsSimulator.AnalyzeComparison: the contract does not restate the two averages and consistency flags. Their
  meaning is proved separately in `LambdaVsSimulator.AverageTimeBounds` and
  `LambdaVsSimulator.ConsistentMeansAllEqual`.

## Findings

| source | as written | input that shows it | evidently intended | confidence | as-written member | corrected member |
|---|---|---|---|---|---|---|
| modbus_monitor.py:349-357, 474-482, 312-318, 221-225 | The circuit-breaker result has `response_time = None`. `_process_result` then formats it with `:.1f`, which raises `TypeError`, and so does the both-hosts log line. The loop's `except` skips the statistics update and `on_result`, fires `on_error` and sleeps 5 s. | Mode primary_only with the primary breaker open and its deadline ahead. Or mode both with the primary breaker open and the secondary answering: the secondary's good answer is then lost. | A rejected read is counted as a failed request and delivered to `on_result`, like any other failure, and the both-hosts pass returns the secondary's answer. | not executed | Dispatch.PollAsWritten (with Dispatch.BreakerResultBreaksPass and Dispatch.BothModeLosesGoodAnswer) | Dispatch.Poll (with Dispatch.PollKeepsEngineValid and Monitor.ModbusMonitor.MonitorStep) |
