/** Values shared by the parts of `modbus_monitor.py`: the two host roles,
    the monitor configuration, the result of a read, what one read attempt
    against the device yields, and the data handed to callbacks. */
module MonitorTypes {
  import opened Wrappers

  /** The keys of `host_status`. */
  datatype Role = Primary | Secondary {
    function Name(): string {
      if Primary? then "primary" else "secondary"
    }

    function Other(): (r: Role)
      ensures r != this
    {
      if Primary? then Secondary else Primary
    }
  }

  /** A draw of `random.random()`; `random.uniform(a, b)` is `a + (b - a) * u`. */
  type Fraction = r: real | 0.0 <= r <= 1.0

  /** The fields of `MonitorConfig` that the polling code reads.  Hosts come
      from `get_active_hosts`, not from the config; the interval fields are
      never read by the loop (it uses the module constants). */
  datatype MonitorConfig = MonitorConfig(
    testRegister: int,
    registerCount: int,
    maxRetries: nat,
    retryDelay: real,
    exponentialBackoff: bool,
    failureThreshold: int)

  predicate ConfigValid(c: MonitorConfig) {
    c.retryDelay >= 0.0
  }

  /** `ModbusResult`; times are milliseconds on one clock. */
  datatype ModbusResult = ModbusResult(
    timestamp: int,
    host: string,
    port: int,
    register: int,
    success: bool,
    responseTime: Option<real>,
    errorType: Option<string>,
    errorMessage: Option<string>,
    value: Option<int>,
    retryCount: nat)

  /** What `_single_read_attempt` observes: the register value read in
      `responseTime` ms, or the name and text of the exception raised. */
  datatype Attempt =
    | Answer(responseTime: real, value: Option<int>)
    | Fault(errorType: string, errorMessage: string, responseTime: real)

  /** The data passed to a callback, tagged by the event it belongs to. */
  datatype Event =
    | ResultEvent(result: ModbusResult)
    | FallbackEvent(from: string, to: string, reason: Option<string>)
    | CircuitBreakerEvent(host: string, port: int, failures: nat)
    | ErrorEvent(detail: string)
  {
    /** The callback list the event is delivered to. */
    function Kind(): EventType {
      match this
      case ResultEvent(_) => OnResult
      case FallbackEvent(_, _, _) => OnFallback
      case CircuitBreakerEvent(_, _, _) => OnCircuitBreaker
      case ErrorEvent(_) => OnError
    }
  }

  /** The keys of `self.callbacks`. */
  datatype EventType = OnResult | OnFallback | OnCircuitBreaker | OnError {
    function Name(): string {
      match this
      case OnResult => "on_result"
      case OnFallback => "on_fallback"
      case OnCircuitBreaker => "on_circuit_breaker"
      case OnError => "on_error"
    }
  }

  const EVENT_TYPES: set<EventType> := {OnResult, OnFallback, OnCircuitBreaker, OnError}

  /** The event type a callback name denotes, if any. */
  function EventTypeOf(name: string): (t: Option<EventType>)
    ensures t.Some? ==> t.value.Name() == name
    ensures t.None? ==> forall k: EventType :: k.Name() != name
  {
    if name == "on_result" then Some(OnResult)
    else if name == "on_fallback" then Some(OnFallback)
    else if name == "on_circuit_breaker" then Some(OnCircuitBreaker)
    else if name == "on_error" then Some(OnError)
    else None
  }

  /** A registered callback, identified by the order it was added in. */
  type Handler = nat

  /** One call `callback(data)`. */
  datatype Delivery = Delivery(handler: Handler, event: Event)
}
