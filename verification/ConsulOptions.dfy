/**
 Registration options of registry/consul.go and their validation.
 The text parsers of the Go library are represented by what they return: a duration text is
 empty, unparsable, or a number of nanoseconds; a server address either does not split or
 carries a port text.
 */
module ConsulOptions {
  import opened Common

  const DEFAULT_TTL_PING_INTERVAL := 10 * SECOND
  const DEFAULT_DEREGISTER_AFTER := 60 * SECOND
  const DEFAULT_RETRY_BASE := SECOND
  const DEFAULT_RETRY_MAX := 30 * SECOND

  datatype DurationText = Unset | Unparsable | Duration(ns: int)

  datatype PortText = NotANumber | Number(n: int)

  datatype AddressText = Unsplittable | HostPort(port: PortText)

  datatype Options = Options(
    serverAddress: AddressText,
    ttlEnabled: bool,
    ttl: DurationText,
    pingInterval: int,
    deregisterAfter: DurationText)

  datatype Invalid =
    | BadAddress | BadPort | TTLMissing | BadTTL | PingNotShorter | BadDeregisterAfter

  datatype Validated = Validated(options: Options, port: int)

  function TTLPingInterval(o: Options): (interval: int)
    ensures 0 < interval
    ensures 0 < o.pingInterval ==> interval == o.pingInterval
    ensures o.pingInterval <= 0 ==> interval == 10_000_000_000
  {
    if o.pingInterval <= 0 then DEFAULT_TTL_PING_INTERVAL else o.pingInterval
  }

  predicate PositiveDuration(d: DurationText) {
    d.Duration? && 0 < d.ns
  }

  predicate ServerPortOk(o: Options) {
    o.serverAddress.HostPort? && o.serverAddress.port.Number? && 1 <= o.serverAddress.port.n <= 65535
  }

  /** The rules of the configuration, as one condition a caller can check. */
  predicate Acceptable(o: Options) {
    && ServerPortOk(o)
    && o.ttlEnabled
    && PositiveDuration(o.ttl)
    && TTLPingInterval(o) < o.ttl.ns
    && (o.deregisterAfter.Unset? || PositiveDuration(o.deregisterAfter))
  }

  function ValidateAndNormalize(o: Options): (r: Result<Validated, Invalid>)
    ensures r.Ok? <==> Acceptable(o)
    // What every later use may rely on.
    ensures r.Ok? ==>
              && o.serverAddress.HostPort? && o.serverAddress.port == Number(r.value.port) && 1 <= r.value.port <= 65535
              && o.ttlEnabled
              && r.value.options.ttl.Duration? && 0 < r.value.options.ttl.ns
              && r.value.options.deregisterAfter.Duration? && 0 < r.value.options.deregisterAfter.ns
              && TTLPingInterval(r.value.options) < r.value.options.ttl.ns
    // And nothing more is asked for.
    ensures (&& o.serverAddress.HostPort? && o.serverAddress.port.Number? && 1 <= o.serverAddress.port.n <= 65535
             && o.ttlEnabled && o.ttl.Duration? && 0 < o.ttl.ns && TTLPingInterval(o) < o.ttl.ns
             && (o.deregisterAfter.Unset? || (o.deregisterAfter.Duration? && 0 < o.deregisterAfter.ns))) ==>
              r.Ok?
    // Normalisation fills in one field and nothing else, so validating again changes nothing.
    ensures r.Ok? ==> r.value.options == o.(deregisterAfter := r.value.options.deregisterAfter)
    ensures r.Ok? && !o.deregisterAfter.Unset? ==> r.value.options == o
    ensures r.Ok? && o.deregisterAfter.Unset? ==> r.value.options.deregisterAfter.ns == 60_000_000_000
    // The reported error names the first rule violated, in this order.
    ensures r.Err? && r.error.BadAddress? <==> o.serverAddress.Unsplittable?
    ensures r.Err? && r.error.BadPort? <==> o.serverAddress.HostPort? && !ServerPortOk(o)
    ensures r.Err? && r.error.TTLMissing? <==> ServerPortOk(o) && !o.ttlEnabled
    ensures r.Err? && r.error.BadTTL? <==> ServerPortOk(o) && o.ttlEnabled && !PositiveDuration(o.ttl)
    ensures r.Err? && r.error.PingNotShorter?
            <==> ServerPortOk(o) && o.ttlEnabled && PositiveDuration(o.ttl) && o.ttl.ns <= TTLPingInterval(o)
    ensures r.Err? && r.error.BadDeregisterAfter?
            <==> ServerPortOk(o) && o.ttlEnabled && PositiveDuration(o.ttl) && TTLPingInterval(o) < o.ttl.ns
                 && !o.deregisterAfter.Unset? && !PositiveDuration(o.deregisterAfter)
  {
    if o.serverAddress.Unsplittable? then Err(BadAddress)
    else if o.serverAddress.port.NotANumber? || o.serverAddress.port.n < 1 || o.serverAddress.port.n > 65535 then
      Err(BadPort)
    else if !o.ttlEnabled then Err(TTLMissing)
    else if !o.ttl.Duration? || o.ttl.ns <= 0 then Err(BadTTL)
    else if TTLPingInterval(o) >= o.ttl.ns then Err(PingNotShorter)
    else
      var n := if o.deregisterAfter.Unset?
               then o.(deregisterAfter := Duration(DEFAULT_DEREGISTER_AFTER)) else o;
      if !n.deregisterAfter.Duration? || n.deregisterAfter.ns <= 0 then Err(BadDeregisterAfter)
      else Ok(Validated(n, n.serverAddress.port.n))
  }

  /**
   Module start validates and keeps the normalised options; every RegisterContext validates
   again.  The second validation gives back the first one's answer, so a process that started
   never stops on invalid options.
   */
  lemma RevalidationIsStable(o: Options)
    ensures ValidateAndNormalize(o).Ok? ==>
              ValidateAndNormalize(ValidateAndNormalize(o).value.options) == ValidateAndNormalize(o)
  {
  }
}
