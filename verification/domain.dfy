/** The entities every other module shares, and the configuration rules of
    internal/domain/config.go. */
module Domain {

  /** Instants and durations, in nanoseconds; instants count from the Unix epoch. */
  type Time = int

  const MILLISECOND := 1_000_000
  const SECOND := 1_000 * MILLISECOND
  const MINUTE := 60 * SECOND

  /** The millisecond an instant falls in. */
  function UnixMilli(t: Time): int {
    t / MILLISECOND
  }

  lemma UnixMilliMonotone(s: Time, t: Time)
    requires s <= t
    ensures UnixMilli(s) <= UnixMilli(t)
  {
  }

  lemma Scale(k: nat, a: nat, b: nat)
    requires a <= b
    ensures k * a <= k * b
  {
  }

  datatype Option<+T> = None | Some(value: T)

  datatype Error =
    | Conflict
    | GatewayMismatch
    | InvalidStatus
    | NoAvailableGateway
    | NotFound
    | UnregisteredClient
    | ClientFailure

  datatype Result<+T> = Ok(value: T) | Err(error: Error)

  datatype Status = Pending | Success | Failure {
    predicate IsFinal() {
      this != Pending
    }
  }

  datatype Transaction = Transaction(
    id: string, orderId: string, attemptNo: nat, gateway: string, status: Status,
    createdAt: Time, updatedAt: Time, completedAt: Option<Time>)

  datatype GatewayConfig = GatewayConfig(name: string, enabled: bool, weight: int)

  datatype RoutingConfig = RoutingConfig(
    healthWindowSeconds: int,
    unhealthyCooldownSeconds: int,
    minCallbackCount: int,
    successRateThreshold: real,
    halfOpenProbeCount: int,
    halfOpenProbeTimeoutSeconds: int,
    orderGatewayFailureThreshold: int)
  {
    function Window(): Time { healthWindowSeconds * SECOND }
    function Retention(): Time { healthWindowSeconds * 2 * SECOND }
    function Cooldown(): Time { unhealthyCooldownSeconds * SECOND }
    function ProbeTimeout(): Time { halfOpenProbeTimeoutSeconds * SECOND }

    /** What acceptance of a configuration guarantees about its numbers. */
    predicate Usable() {
      && 0 < healthWindowSeconds
      && 0 < unhealthyCooldownSeconds
      && 0 < minCallbackCount
      && 0.0 < successRateThreshold <= 1.0
      && 0 < halfOpenProbeCount
      && 0 < halfOpenProbeTimeoutSeconds
      && 0 < orderGatewayFailureThreshold
    }
  }

  datatype AppConfig = AppConfig(routing: RoutingConfig, gateways: seq<GatewayConfig>)

  const DEFAULT_ROUTING := RoutingConfig(15 * 60, 30 * 60, 10, 0.9, 1, 60, 2)

  function OrDefault(value: int, default: int): int {
    if value <= 0 then default else value
  }

  function WithDefaults(c: AppConfig): AppConfig {
    var r := c.routing;
    var rate := if r.successRateThreshold <= 0.0 then DEFAULT_ROUTING.successRateThreshold else r.successRateThreshold;
    c.(routing := RoutingConfig(
         OrDefault(r.healthWindowSeconds, DEFAULT_ROUTING.healthWindowSeconds),
         OrDefault(r.unhealthyCooldownSeconds, DEFAULT_ROUTING.unhealthyCooldownSeconds),
         OrDefault(r.minCallbackCount, DEFAULT_ROUTING.minCallbackCount),
         if rate > 1.0 then rate / 100.0 else rate,
         OrDefault(r.halfOpenProbeCount, DEFAULT_ROUTING.halfOpenProbeCount),
         OrDefault(r.halfOpenProbeTimeoutSeconds, DEFAULT_ROUTING.halfOpenProbeTimeoutSeconds),
         OrDefault(r.orderGatewayFailureThreshold, DEFAULT_ROUTING.orderGatewayFailureThreshold)))
  }

  /** Unset fields get the documented values, set ones are kept, and a threshold above one is
      read as a percentage. */
  lemma DefaultsAreTheDocumentedOnes(c: AppConfig)
    ensures var r, d := c.routing, WithDefaults(c).routing;
            && WithDefaults(c).gateways == c.gateways
            && d.healthWindowSeconds == (if r.healthWindowSeconds > 0 then r.healthWindowSeconds else 900)
            && d.unhealthyCooldownSeconds
               == (if r.unhealthyCooldownSeconds > 0 then r.unhealthyCooldownSeconds else 1800)
            && d.minCallbackCount == (if r.minCallbackCount > 0 then r.minCallbackCount else 10)
            && d.halfOpenProbeCount == (if r.halfOpenProbeCount > 0 then r.halfOpenProbeCount else 1)
            && d.halfOpenProbeTimeoutSeconds
               == (if r.halfOpenProbeTimeoutSeconds > 0 then r.halfOpenProbeTimeoutSeconds else 60)
            && d.orderGatewayFailureThreshold
               == (if r.orderGatewayFailureThreshold > 0 then r.orderGatewayFailureThreshold else 2)
            && (r.successRateThreshold <= 0.0 ==> d.successRateThreshold == 0.9)
            && (0.0 < r.successRateThreshold <= 1.0 ==> d.successRateThreshold == r.successRateThreshold)
            && (r.successRateThreshold > 1.0 ==> 100.0 * d.successRateThreshold == r.successRateThreshold)
  {
  }

  ghost predicate DistinctNames(gs: seq<GatewayConfig>) {
    forall i, j :: 0 <= i < j < |gs| ==> gs[i].name != gs[j].name
  }

  /** The declarative reading of Validate. */
  ghost predicate Valid(c: AppConfig) {
    && c.gateways != []
    && (forall g :: g in c.gateways ==> g.name != "")
    && DistinctNames(c.gateways)
    && (forall g :: g in c.gateways && g.enabled ==> g.weight > 0)
    && (exists g :: g in c.gateways && g.enabled)
    && 0.0 < c.routing.successRateThreshold <= 1.0
    && c.routing.orderGatewayFailureThreshold > 0
  }

  /** A configuration the provider can be serving: defaulted, then validated. */
  ghost predicate Accepted(c: AppConfig) {
    exists raw :: c == WithDefaults(raw) && Valid(c)
  }

  lemma AcceptedIsUsable(c: AppConfig)
    requires Accepted(c)
    ensures c.routing.Usable() && WithDefaults(c) == c
  {
    var raw :| c == WithDefaults(raw) && Valid(c);
  }

  /** Defaulting twice equals defaulting once exactly for thresholds of at most 100. */
  lemma DefaultingIsIdempotentUpToOneHundred(c: AppConfig)
    ensures WithDefaults(WithDefaults(c)) == WithDefaults(c) <==> c.routing.successRateThreshold <= 100.0
  {
    var once := WithDefaults(c);
    var rate := c.routing.successRateThreshold;
    if rate > 100.0 {
      assert once.routing.successRateThreshold == rate / 100.0 > 1.0;
      assert WithDefaults(once).routing.successRateThreshold == rate / 100.0 / 100.0;
    }
  }

  datatype ConfigError =
    | NoGateways
    | UnnamedGateway
    | DuplicateGateway(name: string)
    | NonPositiveWeight(name: string)
    | NoEnabledGateway
    | ThresholdOutOfRange
    | NonPositiveFailureThreshold

  /** Validate of internal/domain/config.go: one pass with the names seen so far. */
  method Validate(c: AppConfig) returns (failure: Option<ConfigError>)
    ensures failure.None? <==> Valid(c)
    ensures failure == Some(NoGateways) <==> c.gateways == []
    ensures failure == Some(UnnamedGateway) ==> exists g :: g in c.gateways && g.name == ""
    ensures failure.Some? && failure.value.DuplicateGateway? ==>
              exists i, j :: 0 <= i < j < |c.gateways| && c.gateways[i].name == c.gateways[j].name == failure.value.name
    ensures failure.Some? && failure.value.NonPositiveWeight? ==>
              exists g :: g in c.gateways && g.enabled && g.weight <= 0 && g.name == failure.value.name
    ensures failure == Some(NoEnabledGateway) ==> forall g :: g in c.gateways ==> !g.enabled
    ensures failure == Some(ThresholdOutOfRange) ==>
              c.routing.successRateThreshold <= 0.0 || c.routing.successRateThreshold > 1.0
    ensures failure == Some(NonPositiveFailureThreshold) ==> c.routing.orderGatewayFailureThreshold <= 0
  {
    var gs := c.gateways;
    if |gs| == 0 {
      return Some(NoGateways);
    }
    var names: set<string> := {};
    var enabledCount := 0;
    for i := 0 to |gs|
      invariant names == set k | 0 <= k < i :: gs[k].name
      invariant forall k :: 0 <= k < i ==> gs[k].name != ""
      invariant forall j, k :: 0 <= j < k < i ==> gs[j].name != gs[k].name
      invariant forall k :: 0 <= k < i && gs[k].enabled ==> gs[k].weight > 0
      invariant 0 <= enabledCount
      invariant enabledCount > 0 <==> exists k :: 0 <= k < i && gs[k].enabled
    {
      var gateway := gs[i];
      if gateway.name == "" {
        return Some(UnnamedGateway);
      }
      if gateway.name in names {
        return Some(DuplicateGateway(gateway.name));
      }
      names := names + {gateway.name};
      if gateway.enabled {
        enabledCount := enabledCount + 1;
        if gateway.weight <= 0 {
          return Some(NonPositiveWeight(gateway.name));
        }
      }
    }
    if enabledCount == 0 {
      return Some(NoEnabledGateway);
    }
    if c.routing.successRateThreshold <= 0.0 || c.routing.successRateThreshold > 1.0 {
      return Some(ThresholdOutOfRange);
    }
    if c.routing.orderGatewayFailureThreshold <= 0 {
      return Some(NonPositiveFailureThreshold);
    }
    return None;
  }
}
