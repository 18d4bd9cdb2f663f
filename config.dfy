/** The configuration constants and helper functions of `const.py`. */
module Config {
  import opened Levels
  import Wrappers

  // Hosts
  const PRIMARY_HOST: string := "192.168.178.125"
  const PRIMARY_PORT: int := 502
  const SECONDARY_HOST: string := "192.168.178.57"
  const SECONDARY_PORT: int := 5020
  const TEST_REGISTER: int := 1000
  const TEST_REGISTER_COUNT: nat := 1

  // Intervals (seconds) and timeouts (seconds)
  const BASE_MONITORING_INTERVAL: real := 30.0
  const RANDOM_INTERVAL_RANGE: real := 5.0
  const MIN_INTERVAL: real := 25.0
  const MAX_INTERVAL: real := 35.0
  const DEFAULT_TIMEOUT: real := 5.0
  const EXTENDED_TIMEOUT: real := 10.0
  const QUICK_TIMEOUT: real := 2.0

  // Retries and thresholds
  const MAX_RETRIES: nat := 3
  const RETRY_DELAY: real := 2.0
  const EXPONENTIAL_BACKOFF: bool := true
  const MAX_RETRY_DELAY: real := 30.0
  const TIMEOUT_THRESHOLD: nat := 3
  const ERROR_RATE_THRESHOLD: real := 0.1
  const FAILURE_THRESHOLD: nat := 5

  // Diagnostic thresholds (milliseconds and counts)
  const SLOW_RESPONSE_THRESHOLD: real := 2000.0
  const VERY_SLOW_RESPONSE_THRESHOLD: real := 5000.0
  const CONSECUTIVE_TIMEOUT_THRESHOLD: nat := 3
  const HOURLY_ERROR_THRESHOLD: nat := 10
  const DAILY_ERROR_THRESHOLD: nat := 50
  const PING_LOSS_THRESHOLD: real := 0.1
  const HIGH_LATENCY_THRESHOLD: real := 100.0

  // Recommendation engine settings
  const INDIVIDUAL_READ_TIMEOUT_THRESHOLD: nat := 3
  const INDIVIDUAL_READ_ERROR_THRESHOLD: nat := 5
  const INDIVIDUAL_READ_SLOW_THRESHOLD: real := 3000.0
  const TIMEOUT_ADJUSTMENT_FACTOR: real := 1.5
  const MIN_RECOMMENDED_TIMEOUT: real := 1.0
  const MAX_RECOMMENDED_TIMEOUT: real := 10.0
  const LOW_PRIORITY_ERROR_THRESHOLD: nat := 10
  const LOW_PRIORITY_SLOW_THRESHOLD: real := 5000.0

  const COMMON_MODBUS_PORTS: seq<int> := [502, 5020, 503, 1502]

  // ---------------------------------------------------------------------
  // Active hosts and the host switch

  datatype Endpoint = Endpoint(host: string, port: int)

  datatype ActiveHosts = ActiveHosts(primary: Endpoint, secondary: Endpoint)

  const PRIMARY: Endpoint := Endpoint(PRIMARY_HOST, PRIMARY_PORT)
  const SECONDARY: Endpoint := Endpoint(SECONDARY_HOST, SECONDARY_PORT)

  /** `get_active_hosts`: the configured pair, swapped exactly when the
      switch is set. */
  function GetActiveHosts(useSecondaryAsPrimary: bool): (h: ActiveHosts)
    ensures h.primary == SECONDARY <==> useSecondaryAsPrimary
  {
    if useSecondaryAsPrimary then ActiveHosts(SECONDARY, PRIMARY)
    else ActiveHosts(PRIMARY, SECONDARY)
  }

  /** Either way both configured endpoints are in use, each in one role. */
  lemma {:induction false} ActiveHostsAreTheConfiguredPair(useSecondaryAsPrimary: bool)
    ensures var h := GetActiveHosts(useSecondaryAsPrimary);
            h.primary != h.secondary && {h.primary, h.secondary} == {PRIMARY, SECONDARY}
  {
  }

  /** Flipping the switch exchanges the two roles. */
  lemma {:induction false} FlipSwapsRoles(flag: bool)
    ensures GetActiveHosts(!flag).primary == GetActiveHosts(flag).secondary
    ensures GetActiveHosts(!flag).secondary == GetActiveHosts(flag).primary
  {
  }

  /** The module-level `USE_SECONDARY_AS_PRIMARY` switch and `switch_hosts`. */
  class HostSwitch {
    var useSecondaryAsPrimary: bool

    constructor ()
      ensures !useSecondaryAsPrimary
    {
      useSecondaryAsPrimary := false;
    }

    function Active(): ActiveHosts
      reads this
    {
      GetActiveHosts(useSecondaryAsPrimary)
    }

    /** `switch_hosts`: negates the flag and returns the new value. */
    method SwitchHosts() returns (useSecondary: bool)
      modifies this
      ensures useSecondaryAsPrimary == !old(useSecondaryAsPrimary)
      ensures useSecondary == useSecondaryAsPrimary
      ensures Active().primary == old(Active()).secondary
      ensures Active().secondary == old(Active()).primary
    {
      useSecondaryAsPrimary := !useSecondaryAsPrimary;
      useSecondary := useSecondaryAsPrimary;
    }

    /** Two switches restore the original assignment. */
    method SwitchTwice()
      modifies this
      ensures useSecondaryAsPrimary == old(useSecondaryAsPrimary)
      ensures Active() == old(Active())
    {
      var _ := SwitchHosts();
      var _ := SwitchHosts();
    }
  }

  // ---------------------------------------------------------------------
  // Access modes

  datatype ModeInfo = ModeInfo(name: string, description: string, behavior: string)

  const MODES: seq<ModeInfo> := [
    ModeInfo("fallback",
      "Secondary (Python Simulator) wird nur bei Primary (Lambda WP) Fehlern verwendet",
      "Primary (Real Lambda) first, Secondary (Simulator) only on failure"),
    ModeInfo("alternating",
      "Wechselt zwischen Primary (Lambda WP) und Secondary (Python Simulator) ab",
      "Alternates between real Lambda and simulator each request"),
    ModeInfo("both",
      "Beide Hosts werden bei jedem Request getestet (Lambda WP + Python Simulator)",
      "Tests both real Lambda and simulator on every request"),
    ModeInfo("primary_only",
      "Nur Primary Host (Real Lambda WP) wird verwendet",
      "Only uses real Lambda heat pump"),
    ModeInfo("secondary_only",
      "Nur Secondary Host (Python Simulator) wird verwendet",
      "Only uses Python Modbus simulator")
  ]

  const MODE_NAMES: seq<string> := ["fallback", "alternating", "both", "primary_only", "secondary_only"]

  datatype AccessModeReport = AccessModeReport(
    currentMode: string, description: string, behavior: string, availableModes: seq<string>)

  function Names(ms: seq<ModeInfo>): (r: seq<string>)
    ensures |r| == |ms|
    ensures forall i :: 0 <= i < |ms| ==> r[i] == ms[i].name
  {
    if ms == [] then [] else [ms[0].name] + Names(ms[1..])
  }

  function Lookup(ms: seq<ModeInfo>, mode: string): (r: Wrappers.Option<ModeInfo>)
    ensures r.None? <==> mode !in Names(ms)
    ensures r.Some? ==> r.value in ms && r.value.name == mode
  {
    if ms == [] then Wrappers.None
    else if ms[0].name == mode then Wrappers.Some(ms[0])
    else Lookup(ms[1..], mode)
  }

  lemma ModeTableNames()
    ensures Names(MODES) == MODE_NAMES
  {
  }

  lemma ModeTableTexts()
    ensures forall m :: m in MODES ==> m.description != "Unknown mode" && m.behavior != "Unknown behavior"
  {
    forall m | m in MODES
      ensures m.description != "Unknown mode" && m.behavior != "Unknown behavior"
    {
      var i :| 0 <= i < |MODES| && MODES[i] == m;
      assert i < 5;
    }
  }

  /** `get_host_access_mode`: the description and behaviour of the mode,
      "Unknown mode" / "Unknown behavior" for an unlisted one, and always the
      five mode names. */
  function GetHostAccessMode(mode: string): (r: AccessModeReport)
    ensures r.currentMode == mode
    ensures r.availableModes == MODE_NAMES
    ensures mode !in MODE_NAMES <==> r.description == "Unknown mode"
    ensures mode !in MODE_NAMES <==> r.behavior == "Unknown behavior"
  {
    ModeTableNames();
    ModeTableTexts();
    match Lookup(MODES, mode)
    case Some(m) => AccessModeReport(mode, m.description, m.behavior, Names(MODES))
    case None => AccessModeReport(mode, "Unknown mode", "Unknown behavior", Names(MODES))
  }

  // ---------------------------------------------------------------------
  // Register helpers

  /** `get_random_interval` with the uniform draw `variation` passed in. */
  function RandomInterval(variation: real): (r: real)
    ensures MIN_INTERVAL <= r <= MAX_INTERVAL
    ensures -RANDOM_INTERVAL_RANGE <= variation <= RANDOM_INTERVAL_RANGE
            ==> r == BASE_MONITORING_INTERVAL + variation
  {
    var interval := BASE_MONITORING_INTERVAL + variation;
    var upper := if MAX_INTERVAL < interval then MAX_INTERVAL else interval;
    if MIN_INTERVAL < upper then upper else MIN_INTERVAL
  }

  const REGISTER_TIMEOUTS: map<int, real> :=
    map[0 := QUICK_TIMEOUT, 1000 := DEFAULT_TIMEOUT, 1050 := QUICK_TIMEOUT, 1060 := QUICK_TIMEOUT]

  /** `get_timeout_for_register`: 2 s for 0, 1050 and 1060, 5 s for all others. */
  function TimeoutForRegister(register: int): (t: real)
    ensures t == QUICK_TIMEOUT <==> register == 0 || register == 1050 || register == 1060
    ensures t == QUICK_TIMEOUT || t == DEFAULT_TIMEOUT
  {
    if register in REGISTER_TIMEOUTS then REGISTER_TIMEOUTS[register] else DEFAULT_TIMEOUT
  }

  const CRITICAL_REGISTERS: seq<int> := [0, 1, 1000, 1001, 1002, 1003, 1004]

  /** `is_critical_register`. */
  predicate IsCriticalRegister(register: int) {
    register in CRITICAL_REGISTERS
  }

  lemma {:induction false} CriticalRegisterRanges(register: int)
    ensures IsCriticalRegister(register) <==> 0 <= register <= 1 || 1000 <= register <= 1004
  {
  }

  /** `get_register_priority`: "high" for critical registers, "low" for the
      two known problematic ones, "medium" otherwise. */
  function RegisterPriority(register: int): (p: Level)
    ensures p == High <==> IsCriticalRegister(register)
    ensures p == Low <==> !IsCriticalRegister(register) && (register == 1050 || register == 1060)
    ensures p != Critical
  {
    if IsCriticalRegister(register) then High
    else if register in [1050, 1060] then Low
    else Medium
  }

  // ---------------------------------------------------------------------
  // Configuration validation

  /** The constants `validate_configuration` inspects. */
  datatype Settings = Settings(
    primaryHost: string, primaryPort: int, secondaryHost: string, secondaryPort: int,
    minInterval: real, maxInterval: real,
    quickTimeout: real, defaultTimeout: real, extendedTimeout: real,
    errorRateThreshold: real)

  const SHIPPED: Settings := Settings(
    PRIMARY_HOST, PRIMARY_PORT, SECONDARY_HOST, SECONDARY_PORT,
    MIN_INTERVAL, MAX_INTERVAL, QUICK_TIMEOUT, DEFAULT_TIMEOUT, EXTENDED_TIMEOUT,
    ERROR_RATE_THRESHOLD)

  /** The five findings of `validate_configuration`. */
  datatype ConfigIssue = HostsMissing | BadPorts | BadIntervals | BadTimeouts | BadErrorRate {
    function Message(): string {
      match this
      case HostsMissing => "Primary or secondary host not configured"
      case BadPorts => "Invalid port numbers"
      case BadIntervals => "MIN_INTERVAL must be less than MAX_INTERVAL"
      case BadTimeouts => "Timeout values must be in ascending order"
      case BadErrorRate => "ERROR_RATE_THRESHOLD must be between 0 and 1"
    }
  }

  predicate ValidPort(p: int) { 1 <= p <= 65535 }

  /** The condition under which `validate_configuration` reports `issue`. */
  predicate Violated(s: Settings, issue: ConfigIssue) {
    match issue
    case HostsMissing => s.primaryHost == [] || s.secondaryHost == []
    case BadPorts => !ValidPort(s.primaryPort) || !ValidPort(s.secondaryPort)
    case BadIntervals => s.minInterval >= s.maxInterval
    case BadTimeouts => s.quickTimeout >= s.defaultTimeout || s.defaultTimeout >= s.extendedTimeout
    case BadErrorRate => s.errorRateThreshold < 0.0 || s.errorRateThreshold > 1.0
  }

  /** Position of each check in `validate_configuration`. */
  function Rank(i: ConfigIssue): (k: nat)
    ensures k < 5
    ensures OfRank(k) == i
  {
    match i
    case HostsMissing => 0
    case BadPorts => 1
    case BadIntervals => 2
    case BadTimeouts => 3
    case BadErrorRate => 4
  }

  function OfRank(k: nat): ConfigIssue {
    if k == 0 then HostsMissing else if k == 1 then BadPorts else if k == 2 then BadIntervals
    else if k == 3 then BadTimeouts else BadErrorRate
  }

  /** The failed checks among the first `n`, in check order. */
  function Reported(s: Settings, n: nat): seq<ConfigIssue>
    requires n <= 5
  {
    if n == 0 then []
    else Reported(s, n - 1) + (if Violated(s, OfRank(n - 1)) then [OfRank(n - 1)] else [])
  }

  /** An issue is reported exactly when its check is among the first `n`
      and fails, and the issues come in check order, each once. */
  lemma {:induction false} ReportedExactly(s: Settings, n: nat)
    requires n <= 5
    ensures forall x :: x in Reported(s, n) <==> Rank(x) < n && Violated(s, x)
    ensures forall i, j :: 0 <= i < j < |Reported(s, n)| ==> Rank(Reported(s, n)[i]) < Rank(Reported(s, n)[j])
    ensures forall i :: 0 <= i < |Reported(s, n)| ==> Rank(Reported(s, n)[i]) < n
  {
    if n > 0 {
      ReportedExactly(s, n - 1);
      assert Rank(OfRank(n - 1)) == n - 1;
    }
  }

  /** `validate_configuration`: the failed checks, in the order they run;
      `Reported` shows each appears exactly when its condition holds. */
  method ValidateConfiguration(s: Settings) returns (issues: seq<ConfigIssue>)
    ensures issues == Reported(s, 5)
  {
    issues := [];
    if s.primaryHost == [] || s.secondaryHost == [] {
      issues := issues + [HostsMissing];
    }
    assert issues == Reported(s, 1);
    if !ValidPort(s.primaryPort) || !ValidPort(s.secondaryPort) {
      issues := issues + [BadPorts];
    }
    assert issues == Reported(s, 2);
    if s.minInterval >= s.maxInterval {
      issues := issues + [BadIntervals];
    }
    assert issues == Reported(s, 3);
    if s.quickTimeout >= s.defaultTimeout || s.defaultTimeout >= s.extendedTimeout {
      issues := issues + [BadTimeouts];
    }
    assert issues == Reported(s, 4);
    if s.errorRateThreshold < 0.0 || s.errorRateThreshold > 1.0 {
      issues := issues + [BadErrorRate];
    }
  }

  /** The shipped constants pass validation. */
  method ValidateShipped() returns (issues: seq<ConfigIssue>)
    ensures issues == []
  {
    issues := ValidateConfiguration(SHIPPED);
  }

  // ---------------------------------------------------------------------
  // Sensor / register maps

  const SENSOR_TO_REGISTER: seq<(string, int)> := [
    ("eu08l_ambient_error_number", 0),
    ("eu08l_ambient_operating_state", 1),
    ("eu08l_ambient_temperature", 2),
    ("eu08l_hp1_error_state", 1000),
    ("eu08l_hp1_error_number", 1001),
    ("eu08l_hp1_state", 1002),
    ("eu08l_hp1_operating_state", 1003),
    ("eu08l_hp1_flow_temperature", 1004),
    ("eu08l_hp1_return_temperature", 1005),
    ("eu08l_hp1_compressor_rating", 1010),
    ("eu08l_hp1_heating_capacity", 1011),
    ("eu08l_hp1_cop", 1013),
    ("eu08l_hp1_compressor_power_consumption_accumulated", 1020),
    ("eu08l_hp1_compressor_thermal_energy_output_accumulated", 1022),
    ("eu08l_hp2_error_state", 1100),
    ("eu08l_hp2_error_number", 1101),
    ("eu08l_hp2_state", 1102),
    ("eu08l_hp2_operating_state", 1103),
    ("eu08l_hc1_error_number", 5000),
    ("eu08l_hc1_operating_state", 5001),
    ("eu08l_hc1_flow_temperature", 5002),
    ("eu08l_hc1_return_temperature", 5003),
    ("eu08l_hc1_room_temperature", 5004),
    ("eu08l_hc1_offset_flow_line_temp", 5050),
    ("eu08l_hc1_setpoint_room_heating_temp", 5051),
    ("eu08l_hc1_setpoint_room_cooling_temp", 5052)
  ]

  /** A Python dict built from (key, value) pairs: a later pair overrides. */
  function ToMap<K, V>(entries: seq<(K, V)>): map<K, V> {
    if entries == [] then map[]
    else ToMap(entries[..|entries| - 1])[entries[|entries| - 1].0 := entries[|entries| - 1].1]
  }

  /** Every key of the dict comes from a pair of the list, with its value. */
  lemma {:induction false} ToMapFromEntries<K, V>(entries: seq<(K, V)>, k: K)
    requires k in ToMap(entries)
    ensures exists i :: 0 <= i < |entries| && entries[i] == (k, ToMap(entries)[k])
  {
    var n := |entries|;
    if entries[n - 1].0 != k {
      ToMapFromEntries(entries[..n - 1], k);
      var i :| 0 <= i < n - 1 && entries[..n - 1][i] == (k, ToMap(entries[..n - 1])[k]);
      assert entries[i] == (k, ToMap(entries)[k]);
    }
  }

  /** `{v: k for k, v in d.items()}` lists the swapped pairs in order. */
  function Swapped<K, V>(entries: seq<(K, V)>): (r: seq<(V, K)>)
    ensures |r| == |entries|
    ensures forall i :: 0 <= i < |entries| ==> r[i] == (entries[i].1, entries[i].0)
  {
    if entries == [] then [] else [(entries[0].1, entries[0].0)] + Swapped(entries[1..])
  }

  predicate DistinctValues<K, V(==)>(entries: seq<(K, V)>) {
    forall i, j :: 0 <= i < j < |entries| ==> entries[i].1 != entries[j].1
  }

  /** With distinct values, the inverted map sends each value back to its key. */
  lemma {:induction false} InvertRoundTrip<K, V>(entries: seq<(K, V)>, k: K)
    requires DistinctValues(entries)
    requires k in ToMap(entries)
    ensures ToMap(entries)[k] in ToMap(Swapped(entries))
    ensures ToMap(Swapped(entries))[ToMap(entries)[k]] == k
  {
    var n := |entries|;
    var init := entries[..n - 1];
    var last := entries[n - 1];
    var sw := Swapped(entries);
    assert sw[..n - 1] == Swapped(init);
    assert ToMap(sw) == ToMap(Swapped(init))[last.1 := last.0];
    if last.0 != k {
      assert k in ToMap(init);
      InvertRoundTrip(init, k);
      var v := ToMap(init)[k];
      ToMapFromEntries(init, k);
      var i :| 0 <= i < n - 1 && init[i] == (k, v);
      assert entries[i] == init[i];
    }
  }

  predicate IncreasingValues<K>(entries: seq<(K, int)>) {
    forall i :: 0 <= i < |entries| - 1 ==> entries[i].1 < entries[i + 1].1
  }

  lemma {:induction false} IncreasingIsDistinct<K>(entries: seq<(K, int)>)
    requires IncreasingValues(entries)
    ensures forall i, j :: 0 <= i < j < |entries| ==> entries[i].1 < entries[j].1
    ensures DistinctValues(entries)
  {
    if |entries| > 1 {
      IncreasingIsDistinct(entries[1..]);
      forall i, j | 0 <= i < j < |entries|
        ensures entries[i].1 < entries[j].1
      {
        if i > 0 {
          assert entries[i] == entries[1..][i - 1] && entries[j] == entries[1..][j - 1];
        } else if j > 1 {
          assert entries[1] == entries[1..][0] && entries[j] == entries[1..][j - 1];
        }
      }
    }
  }

  /** `REGISTER_TO_SENSOR_MAP`. */
  function RegisterToSensor(): map<int, string> {
    ToMap(Swapped(SENSOR_TO_REGISTER))
  }

  /** The key of the last pair whose value is `v`. */
  function KeyOf<K, V(==)>(entries: seq<(K, V)>, v: V): Wrappers.Option<K> {
    if entries == [] then Wrappers.None
    else if entries[|entries| - 1].1 == v then Wrappers.Some(entries[|entries| - 1].0)
    else KeyOf(entries[..|entries| - 1], v)
  }

  /** Looking a value up in the inverted dict is finding its key in the list. */
  lemma {:induction false} KeyOfInverts<K, V>(entries: seq<(K, V)>, v: V)
    ensures var m := ToMap(Swapped(entries));
            KeyOf(entries, v) == if v in m then Wrappers.Some(m[v]) else Wrappers.None
  {
    if entries != [] {
      var n := |entries|;
      assert Swapped(entries)[..n - 1] == Swapped(entries[..n - 1]);
      KeyOfInverts(entries[..n - 1], v);
    }
  }

  /** `REGISTER_TO_SENSOR_MAP.get(register)`, as a scan of the sensor list. */
  function SensorOf(register: int): Wrappers.Option<string> {
    KeyOf(SENSOR_TO_REGISTER, register)
  }

  lemma {:induction false} SensorOfReadsTheInvertedMap(register: int)
    ensures var m := RegisterToSensor();
            SensorOf(register) == if register in m then Wrappers.Some(m[register]) else Wrappers.None
  {
    KeyOfInverts(SENSOR_TO_REGISTER, register);
  }

  /** `REGISTER_TO_SENSOR_MAP[SENSOR_TO_REGISTER_MAP[s]] == s` for every sensor. */
  lemma {:induction false} SensorMapRoundTrip(sensor: string)
    requires sensor in ToMap(SENSOR_TO_REGISTER)
    ensures ToMap(SENSOR_TO_REGISTER)[sensor] in RegisterToSensor()
    ensures RegisterToSensor()[ToMap(SENSOR_TO_REGISTER)[sensor]] == sensor
  {
    SensorRegistersIncrease();
    IncreasingIsDistinct(SENSOR_TO_REGISTER);
    InvertRoundTrip(SENSOR_TO_REGISTER, sensor);
  }

  /** The shipped sensor list is in increasing register order. */
  lemma SensorRegistersIncrease()
    ensures IncreasingValues(SENSOR_TO_REGISTER)
  {
  }
}
