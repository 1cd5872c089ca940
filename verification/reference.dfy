/** The router as one sequential machine on values: a health service that reads the
    repository on every call, the routing service with its snapshot, the transaction service
    and the memory repositories. The service classes are proved against these functions. */
module Reference {
  import opened Domain
  import opened Breaker
  import opened EventLog
  import opened Selector
  import Blacklist
  import Transactions

  /** What a run is given: the configuration served, the routing cache TTL, and the readings
      of the clock in the order they are taken. */
  datatype Setup = Setup(config: AppConfig, routingTTL: Time, at: nat -> Time) {
    function Routing(): RoutingConfig { WithDefaults(config).routing }
    function Gateways(): seq<GatewayConfig> { WithDefaults(config).gateways }
  }

  /** A run whose readings all show the same instant. */
  function StoppedClock(config: AppConfig, routingTTL: Time, c: Time): Setup {
    Setup(config, routingTTL, (n: nat) => c)
  }

  datatype Snapshot = Snapshot(healthy: seq<GatewayConfig>, probes: seq<GatewayConfig>, expiresAt: Option<Time>) {
    predicate Fresh(now: Time) {
      expiresAt.Some? && now < expiresAt.value
    }
  }

  const NO_SNAPSHOT := Snapshot([], [], None)

  type States = map<string, RuntimeState>

  /** The whole state: both health stores and the log of every event ever recorded, the
      routing service's counter and snapshot, the transaction and blacklist tables, and the
      number of clock readings taken. */
  datatype World = World(
    states: States, events: seq<Event>, log: seq<Event>,
    counter: nat, snapshot: Snapshot,
    txns: Transactions.Table, attempts: map<string, nat>, summaries: Blacklist.Summaries,
    ticks: nat)

  const EMPTY_WORLD := World(map[], [], [], 0, NO_SNAPSHOT, map[], map[], map[], 0)

  // ---------------------------------------------------------------- health service

  function Ensured(states: States, g: string, now: Time): States {
    if g in states then states else states[g := Breaker.Fresh(g, now)]
  }

  function PrepareFor(states: States, g: string, now: Time): States {
    var e := Ensured(states, g, now);
    e[g := Prepare(e[g], now)]
  }

  /** State: the gateway's state after expired probes are dropped. */
  function Inspect(states: States, g: string, now: Time): States {
    var e := Ensured(states, g, now);
    e[g := Prune(e[g], now)]
  }

  function WindowStats(events: seq<Event>, r: RoutingConfig, g: string, now: Time): Stats {
    StatsOf(events, g, now - r.Window(), now)
  }

  function EventsAfter(
      events: seq<Event>, r: RoutingConfig, g: string, tx: string, status: Status, now: Time): seq<Event> {
    if status.IsFinal() then Record(events, Event(g, tx, status, now), r.Retention()) else events
  }

  function LogAfter(log: seq<Event>, g: string, tx: string, status: Status, now: Time): seq<Event> {
    if status.IsFinal() then log + [Event(g, tx, status, now)] else log
  }

  function OutcomeFor(
      states: States, stats: Stats, r: RoutingConfig, g: string, tx: string, status: Status, now: Time): States {
    var e := Ensured(states, g, now);
    e[g := Outcome(e[g], stats, tx, status, r, now)]
  }

  // ---------------------------------------------------------------- routing service

  datatype Build = Build(states: States, ticks: nat, healthy: seq<GatewayConfig>, probes: seq<GatewayConfig>)

  predicate Routable(c: GatewayConfig) {
    c.enabled && c.weight > 0
  }

  /** One turn of the snapshot loop. */
  function BuildStep(b: Build, s: Setup, c: GatewayConfig): Build {
    if !Routable(c) then b
    else
      var states := PrepareFor(b.states, c.name, s.at(b.ticks));
      var state := states[c.name];
      match state.phase
      case Healthy => Build(states, b.ticks + 1, b.healthy + [c], b.probes)
      case HalfOpen =>
        Build(states, b.ticks + 1, b.healthy,
              if state.inFlight < s.Routing().halfOpenProbeCount then b.probes + [c] else b.probes)
      case Unhealthy => Build(states, b.ticks + 1, b.healthy, b.probes)
  }

  /** The loop after its first i gateways. */
  function BuildPrefix(b: Build, s: Setup, gs: seq<GatewayConfig>, i: nat): Build
    requires i <= |gs|
  {
    if i == 0 then b else BuildStep(BuildPrefix(b, s, gs, i - 1), s, gs[i - 1])
  }

  function Rebuilt(w: World, s: Setup): Build {
    BuildPrefix(Build(w.states, w.ticks + 1, [], []), s, s.Gateways(), |s.Gateways()|)
  }

  function TakeSnapshot(w: World, s: Setup): (World, Snapshot) {
    var now := s.at(w.ticks);
    if w.snapshot.Fresh(now) then (w.(ticks := w.ticks + 1), w.snapshot)
    else
      var b := Rebuilt(w, s);
      var next := Snapshot(b.healthy, b.probes, Some(now + s.routingTTL));
      (w.(states := b.states, ticks := b.ticks, snapshot := next), next)
  }

  function FilterExcluded(cs: seq<GatewayConfig>, excluded: set<string>): seq<GatewayConfig> {
    if cs == [] then []
    else
      var rest, last := cs[..|cs| - 1], cs[|cs| - 1];
      if last.name in excluded then FilterExcluded(rest, excluded) else FilterExcluded(rest, excluded) + [last]
  }

  /** MarkProbeSelected. */
  function MarkProbe(w: World, s: Setup, g: string, tx: string): (World, Result<()>) {
    var now := s.at(w.ticks);
    var w1 := w.(ticks := w.ticks + 1);
    if g !in w.states then (w1, Err(NotFound))
    else
      var max, expiresAt := s.Routing().halfOpenProbeCount, now + s.Routing().ProbeTimeout();
      var (state, acquired) := Acquire(w.states[g], tx, max, expiresAt, now);
      (w1.(states := w.states[g := state]), if acquired then Ok(()) else Err(NoAvailableGateway))
  }

  /** ReleaseProbe; its error is only logged by the caller. */
  function ReleaseProbe(w: World, s: Setup, g: string, tx: string): World {
    var w1 := w.(ticks := w.ticks + 1);
    if g in w.states then w1.(states := w.states[g := Release(w.states[g], tx, s.at(w.ticks)).0]) else w1
  }

  datatype Selection = Selection(gateway: GatewayConfig, halfOpenProbe: bool)

  function SelectHealthy(w: World, healthy: seq<GatewayConfig>): (World, Result<Selection>) {
    var (counter, chosen) := Select(w.counter, healthy);
    (w.(counter := counter), if chosen.Some? then Ok(Selection(chosen.value, false)) else Err(NoAvailableGateway))
  }

  /** The probe branch of SelectGateway, entered when some probe candidate is left. */
  function SelectProbe(
      w: World, s: Setup, tx: string, probes: seq<GatewayConfig>,
      healthy: seq<GatewayConfig>): (World, Result<Selection>) {
    var (counter, chosen) := Select(w.counter, probes);
    var w1 := w.(counter := counter);
    if chosen.None? then (w1, Err(NoAvailableGateway))
    else
      var (w2, marked) := MarkProbe(w1, s, chosen.value.name, tx);
      if marked.Ok? then (w2, Ok(Selection(chosen.value, true)))
      else
        var w3 := w2.(snapshot := NO_SNAPSHOT);
        if healthy == [] then (w3, Err(marked.error)) else SelectHealthy(w3, healthy)
  }

  function SelectGateway(w: World, s: Setup, tx: string, excluded: set<string>): (World, Result<Selection>) {
    var (w1, snapshot) := TakeSnapshot(w, s);
    var probes := FilterExcluded(snapshot.probes, excluded);
    var healthy := FilterExcluded(snapshot.healthy, excluded);
    if probes != [] then SelectProbe(w1, s, tx, probes, healthy) else SelectHealthy(w1, healthy)
  }

  // ---------------------------------------------------------------- transaction service

  /** A request, with what the environment answers: the id the generator returns, whether a
      client is registered for the gateway chosen, and whether that client accepts. */
  datatype InitiateInput = InitiateInput(orderId: string, transactionId: string, registered: string -> bool,
                                         accepted: bool)

  function Excluded(w: World, orderId: string): set<string> {
    if orderId == "" then {} else Blacklist.Flagged(w.summaries, orderId)
  }

  function NextAttempt(attempts: map<string, nat>, o: string): nat {
    (if o in attempts then attempts[o] else 0) + 1
  }

  function Compensate(w: World, s: Setup, selection: Selection, tx: string): World {
    if selection.halfOpenProbe then ReleaseProbe(w, s, selection.gateway.name, tx) else w
  }

  /** Initiate after a gateway has been selected. */
  function Submit(w: World, s: Setup, input: InitiateInput, selection: Selection): (World, Result<Transaction>) {
    var g, tx := selection.gateway.name, input.transactionId;
    if !input.registered(g) then (Compensate(w, s, selection, tx), Err(UnregisteredClient))
    else
      var attempt := NextAttempt(w.attempts, input.orderId);
      var now := s.at(w.ticks);
      var w1 := w.(attempts := w.attempts[input.orderId := attempt], ticks := w.ticks + 1);
      var transaction := Transaction(tx, input.orderId, attempt, g, Pending, now, now, None);
      if !input.accepted then (Compensate(w1, s, selection, tx), Err(ClientFailure))
      else
        var (txns, saved) := Transactions.Save(w.txns, transaction);
        if saved.Err? then (Compensate(w1, s, selection, tx), Err(saved.error))
        else (w1.(txns := txns), Ok(transaction))
  }

  function Initiate(w: World, s: Setup, input: InitiateInput): (World, Result<Transaction>) {
    var (w1, selected) := SelectGateway(w, s, input.transactionId, Excluded(w, input.orderId));
    if selected.Err? then (w1, Err(selected.error)) else Submit(w1, s, input, selected.value)
  }

  datatype CallbackInput = CallbackInput(transactionId: string, orderId: string, gateway: string, status: Status)

  datatype CallbackResult = CallbackResult(transaction: Transaction, state: RuntimeState, stats: Stats,
                                           idempotent: bool)

  /** RecordOutcome of the health service, then of the blacklist service. */
  function RecordCompleted(w: World, s: Setup, done: Transaction): (World, CallbackResult) {
    var r, g, now, now' := s.Routing(), done.gateway, s.at(w.ticks), s.at(w.ticks + 1);
    var events := EventsAfter(w.events, r, g, done.id, done.status, now);
    var stats := WindowStats(events, r, g, now);
    var states := OutcomeFor(w.states, stats, r, g, done.id, done.status, now);
    var (summaries, _) := Blacklist.RecordOutcome(w.summaries, done.orderId, g, done.status,
                                                  r.orderGatewayFailureThreshold, now');
    (w.(states := states, events := events, log := LogAfter(w.log, g, done.id, done.status, now),
        summaries := summaries, ticks := w.ticks + 2),
     CallbackResult(done, states[g], stats, false))
  }

  /** State and Stats, as the gateway listing and a duplicate callback read them. */
  function Observe(w: World, s: Setup, g: string): (World, RuntimeState, Stats) {
    var states := Inspect(w.states, g, s.at(w.ticks));
    (w.(states := states, ticks := w.ticks + 2), states[g], WindowStats(w.events, s.Routing(), g, s.at(w.ticks + 1)))
  }

  function Callback(w: World, s: Setup, input: CallbackInput): (World, Result<CallbackResult>) {
    var id := input.transactionId;
    if id !in w.txns then (w, Err(NotFound))
    else if w.txns[id].gateway != input.gateway then (w, Err(GatewayMismatch))
    else if input.orderId != "" && w.txns[id].orderId != input.orderId then (w, Err(Conflict))
    else
      var (txns, completion) := Transactions.Complete(w.txns, id, input.status, s.at(w.ticks));
      var w1 := w.(txns := txns, ticks := w.ticks + 1);
      if completion.Err? then (w1, Err(completion.error))
      else if completion.value.changed then
        var (w2, result) := RecordCompleted(w1, s, completion.value.transaction);
        (w2, Ok(result))
      else
        var done := completion.value.transaction;
        var (w2, state, stats) := Observe(w1, s, done.gateway);
        (w2, Ok(CallbackResult(done, state, stats, true)))
  }

  // ---------------------------------------------------------------- runs

  datatype Operation =
    | InitiateOp(initiate: InitiateInput)
    | CallbackOp(callback: CallbackInput)
    | ObserveOp(gateway: string)

  function Perform(w: World, s: Setup, op: Operation): World {
    match op
    case InitiateOp(input) => Initiate(w, s, input).0
    case CallbackOp(input) => Callback(w, s, input).0
    case ObserveOp(g) => Observe(w, s, g).0
  }

  function Run(w: World, s: Setup, ops: seq<Operation>): World {
    if ops == [] then w else Perform(Run(w, s, ops[..|ops| - 1]), s, ops[|ops| - 1])
  }
}
