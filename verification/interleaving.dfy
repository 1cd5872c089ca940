/** Any number of threads in any number of replicas sharing one repository. Every repository
    call, every access to a replica's caches and every clock reading is one atomic step;
    between two steps of a thread anything may happen. */
module Interleaving {
  import opened Domain
  import opened Breaker
  import opened EventLog
  import opened Selector
  import opened Reference
  import Blacklist
  import Transactions

  datatype Env = Env(config: AppConfig, stateTTL: Time, routingTTL: Time) {
    function Routing(): RoutingConfig { WithDefaults(config).routing }
    function Gateways(): seq<GatewayConfig> { WithDefaults(config).gateways }
  }

  /** What one process keeps to itself. */
  datatype Replica = Replica(cache: map<string, CachedState>, snapshot: Snapshot, counter: nat)

  const NEW_REPLICA := Replica(map[], NO_SNAPSHOT, 0)

  /** A probe that was released by a callback, and by which thread. */
  datatype Released = Released(tx: string, thread: nat)

  /** Where a probe was acquired, and until when its token holds. */
  datatype Grant = Grant(gateway: string, expiresAtMilli: int)

  /** A recovery or a trip out of the half-open phase, with the token that decided it and the
      thread's clock reading. */
  datatype Ruling = Ruling(tx: string, gateway: string, expiresAtMilli: int, now: Time)

  /** The shared store, the replicas, and the history the properties speak about: every event,
      when each gateway was last healthy in the store, which thread generated, acquired,
      completed or applied which transaction, and the releases and rulings in order. */
  datatype Shared = Shared(
    clock: Time, states: States, events: seq<Event>, txns: Transactions.Table,
    attempts: map<string, nat>, summaries: Blacklist.Summaries, replicas: map<nat, Replica>,
    log: seq<Event>, lastHealthy: map<string, Time>,
    minted: map<string, nat>, acquired: map<string, Grant>, released: seq<Released>, rulings: seq<Ruling>,
    completer: map<string, nat>, applied: set<string>)

  const NEW_SHARED := Shared(0, map[], [], map[], map[], map[], map[], [], map[], map[], map[], [], [], map[], {})

  // ---------------------------------------------------------------- program counters

  /** An Initiate call: its order and id, what is excluded, and the clock value its snapshot read. */
  datatype Request = Request(orderId: string, tx: string, excluded: set<string>, readAt: Time)

  /** The snapshot loop of a request before gateway i. */
  datatype Loop = Loop(req: Request, i: nat, healthy: seq<GatewayConfig>, probes: seq<GatewayConfig>)

  /** The snapshot of a request: clock, cached snapshot, and the second look under the lock. */
  datatype SnapshotPc = ClockForSnapshot | ReadSnapshot | RecheckSnapshot

  /** PrepareForRouting of the loop's gateway, from the cache lookup on. */
  datatype PreparePc =
    | LookInCache
    | EnsureStored
    | GetStored
    | CacheStored(got: RuntimeState)
    | DecidePhase(seen: RuntimeState)
    | CacheHalfOpen(reopened: RuntimeState)
    | PruneStored
    | CachePruned(pruned: RuntimeState)

  /** MarkProbeSelected and the fallback after a refusal. */
  datatype ProbePc =
    | ClockForProbe
    | AcquireToken(at: Time)
    | CacheAcquired(since: Time, held: RuntimeState, granted: bool)
    | InvalidateSnapshot

  /** Initiate after routing. */
  datatype SubmitPc = PrepareAttempt | StoreTransaction(attempt: nat, createdAt: Time)

  /** ReleaseProbe on a failing exit of Initiate. */
  datatype CompensatePc = ClockForRelease | ReleaseToken(at: Time) | CacheReleased(since: Time, left: RuntimeState)

  /** RecordOutcome of the health service, after its clock reading. */
  datatype OutcomePc =
    | EnsureGateway
    | RecordEvent
    | GetState
    | CountWindow(found: RuntimeState)
    | DecideOutcome(found: RuntimeState, stats: Stats)
    | SaveVerdict(verdict: RuntimeState, ruling: Ruling)
    | CacheOutcome(saved: RuntimeState)

  /** State. */
  datatype InspectPc =
    | ClockForState
    | EnsureState(at: Time)
    | ReadState(at: Time)
    | PruneState(at: Time)
    | CacheState(since: Time, shown: RuntimeState)

  datatype Pc =
    | Begin(orderId: string)
    | Snapshotting(req: Request, snap: SnapshotPc)
    | Looping(loop: Loop)
    | Preparing(loop: Loop, now: Time, prepare: PreparePc)
    | Choosing(req: Request, snapshot: Snapshot)
    | Probing(req: Request, choice: GatewayConfig, healthy: seq<GatewayConfig>, probe: ProbePc)
    | ChoosingHealthy(req: Request, healthy: seq<GatewayConfig>)
    | Submitting(req: Request, choice: GatewayConfig, asProbe: bool, submit: SubmitPc)
    | Compensating(req: Request, choice: GatewayConfig, compensate: CompensatePc)
    | Receiving(input: CallbackInput)
    | Completing(input: CallbackInput)
    | Completed(done: Transaction)
    | Settling(done: Transaction, now: Time, outcome: OutcomePc)
    | Blacklisting(done: Transaction)
    | Finished(done: Transaction)
    | Inspecting(gateway: string, inspect: InspectPc)
    | Stopped

  /** The transaction a callback thread has completed and is recording, or has recorded. */
  function DoneOf(pc: Pc): Option<Transaction> {
    match pc
    case Completed(done) => Some(done)
    case Settling(done, _, _) => Some(done)
    case Blacklisting(done) => Some(done)
    case Finished(done) => Some(done)
    case _ => None
  }

  datatype Thread = Thread(replica: nat, pc: Pc)

  datatype Global = Global(shared: Shared, threads: map<nat, Thread>)

  // ---------------------------------------------------------------- steps on the shared state

  function ReplicaOf(s: Shared, r: nat): Replica {
    if r in s.replicas then s.replicas[r] else NEW_REPLICA
  }

  function WithReplica(s: Shared, r: nat, replica: Replica): Shared {
    s.(replicas := s.replicas[r := replica])
  }

  /** setCachedState. */
  function SetCache(e: Env, s: Shared, r: nat, state: RuntimeState, now: Time): Shared {
    var replica := ReplicaOf(s, r);
    WithReplica(s, r, replica.(cache := replica.cache[state.gateway := CachedState(state, now + e.stateTTL)]))
  }

  function SetSnapshot(s: Shared, r: nat, snapshot: Snapshot): Shared {
    WithReplica(s, r, ReplicaOf(s, r).(snapshot := snapshot))
  }

  function Store(s: Shared, state: RuntimeState): Shared {
    s.(states := s.states[state.gateway := state])
  }

  function Ensure(s: Shared, g: string, now: Time): Shared {
    s.(states := Ensured(s.states, g, now))
  }

  /** The state TryAcquire writes, and the history when it grants the token. */
  function StoreAcquired(s: Shared, state: RuntimeState, token: Probe, acquired: bool): Shared {
    if acquired
    then Store(s, state).(acquired := s.acquired[token.transactionId := Grant(state.gateway, token.expiresAtMilli)])
    else Store(s, state)
  }

  /** The state Release writes, and the history when thread t took a live token of tx. */
  function StoreReleased(s: Shared, state: RuntimeState, tx: string, t: nat, held: bool): Shared {
    if held then Store(s, state).(released := s.released + [Released(tx, t)]) else Store(s, state)
  }

  /** selectWeighted on the replica's counter. */
  function Draw(s: Shared, r: nat, cs: seq<GatewayConfig>): (Shared, Option<GatewayConfig>) {
    var (counter, chosen) := Select(ReplicaOf(s, r).counter, cs);
    (WithReplica(s, r, ReplicaOf(s, r).(counter := counter)), chosen)
  }

  // ---------------------------------------------------------------- steps of a thread, framed by postconditions

  /** What the environment decides in a step: a new id, and whether a client exists and accepts. */
  datatype Choice = Choice(id: string, registered: bool, accepted: bool)

  function Turn(l: Loop): Loop {
    l.(i := l.i + 1)
  }

  /** The switch at the end of a loop turn. */
  function Classify(e: Env, l: Loop, state: RuntimeState): Loop
    requires l.i < |e.Gateways()|
  {
    match state.phase
    case Healthy => Turn(l).(healthy := l.healthy + [e.Gateways()[l.i]])
    case HalfOpen =>
      if state.inFlight < e.Routing().halfOpenProbeCount then Turn(l).(probes := l.probes + [e.Gateways()[l.i]])
        else Turn(l)
    case Unhealthy => Turn(l)
  }

  /** The blacklist of an order. */
  function ExcludedNow(s: Shared, o: string): set<string> {
    if o == "" then {} else Blacklist.Flagged(s.summaries, o)
  }

  function BeginStep(s: Shared, t: nat, o: string, choice: Choice): (after: (Shared, Pc))
    ensures after.0 == s.(minted := after.0.minted)
  {
    if choice.id in s.minted then (s, Begin(o))
    else
      (s.(minted := s.minted[choice.id := t]),
       Snapshotting(Request(o, choice.id, ExcludedNow(s, o), s.clock), ClockForSnapshot))
  }

  function SnapshotStep(s: Shared, r: nat, req: Request, snap: SnapshotPc): Pc {
    var cached := ReplicaOf(s, r).snapshot;
    match snap
    case ClockForSnapshot => Snapshotting(req.(readAt := s.clock), ReadSnapshot)
    case ReadSnapshot => if cached.Fresh(req.readAt) then Choosing(req, cached) else Snapshotting(req, RecheckSnapshot)
    case RecheckSnapshot => if cached.Fresh(req.readAt) then Choosing(req, cached) else Looping(Loop(req, 0, [], []))
  }

  /** The head of the snapshot loop; the clock reading of PrepareForRouting comes with it. */
  function LoopStep(e: Env, s: Shared, r: nat, l: Loop): (after: (Shared, Pc))
    ensures after.0 == s.(replicas := after.0.replicas)
  {
    if l.i >= |e.Gateways()| then
      var next := Snapshot(l.healthy, l.probes, Some(l.req.readAt + e.routingTTL));
      (SetSnapshot(s, r, next), Choosing(l.req, next))
    else (s, if Routable(e.Gateways()[l.i]) then Preparing(l, s.clock, LookInCache) else Looping(Turn(l)))
  }

  function PrepareStep(e: Env, s: Shared, r: nat, l: Loop, now: Time, prepare: PreparePc): (after: (Shared, Pc))
    requires l.i < |e.Gateways()|
    ensures after.0 == s.(states := after.0.states, replicas := after.0.replicas)
  {
    var g := e.Gateways()[l.i].name;
    match prepare
    case LookInCache =>
      var cache := ReplicaOf(s, r).cache;
      (s, Preparing(l, now, if g in cache && now < cache[g].expiresAt then DecidePhase(cache[g].state)
                      else EnsureStored))
    case EnsureStored => (Ensure(s, g, now), Preparing(l, now, GetStored))
    case GetStored => (s, if g in s.states then Preparing(l, now, CacheStored(s.states[g])) else Stopped)
    case CacheStored(state) => (SetCache(e, s, r, state, now), Preparing(l, now, DecidePhase(state)))
    case DecidePhase(state) =>
      if CooldownOver(state, now)
        then (Store(s, ToHalfOpen(state, now)), Preparing(l, now, CacheHalfOpen(ToHalfOpen(state, now))))
      else (s, if state.phase == HalfOpen then Preparing(l, now, PruneStored) else Looping(Classify(e, l, state)))
    case CacheHalfOpen(state) => (SetCache(e, s, r, state, now), Preparing(l, now, PruneStored))
    case PruneStored =>
      if g !in s.states then (s, Stopped)
      else (Store(s, Prune(s.states[g], now)), Preparing(l, now, CachePruned(Prune(s.states[g], now))))
    case CachePruned(state) => (SetCache(e, s, r, state, now), Looping(Classify(e, l, state)))
  }

  function ChooseStep(s: Shared, r: nat, req: Request, snapshot: Snapshot): (after: (Shared, Pc))
    ensures after.0 == s.(replicas := after.0.replicas)
  {
    var probes := FilterExcluded(snapshot.probes, req.excluded);
    var healthy := FilterExcluded(snapshot.healthy, req.excluded);
    if probes == [] then (s, ChoosingHealthy(req, healthy))
    else
      var (s', chosen) := Draw(s, r, probes);
      (s', if chosen.Some? then Probing(req, chosen.value, healthy, ClockForProbe) else Stopped)
  }

  function ProbeStep(
      e: Env, s: Shared, r: nat, req: Request, c: GatewayConfig,
      healthy: seq<GatewayConfig>, probe: ProbePc): (after: (Shared, Pc))
    ensures after.0 == s.(states := after.0.states, replicas := after.0.replicas, acquired := after.0.acquired)
  {
    match probe
    case ClockForProbe => (s, Probing(req, c, healthy, AcquireToken(s.clock)))
    case AcquireToken(now) =>
      if c.name !in s.states then (s, Probing(req, c, healthy, InvalidateSnapshot))
      else
        var expiresAt := now + e.Routing().ProbeTimeout();
        var (state, acquired) := Acquire(s.states[c.name], req.tx, e.Routing().halfOpenProbeCount, expiresAt, now);
        (StoreAcquired(s, state, Probe(req.tx, UnixMilli(expiresAt)), acquired),
         Probing(req, c, healthy, CacheAcquired(now, state, acquired)))
    case CacheAcquired(now, state, granted) =>
      (SetCache(e, s, r, state, now),
       if granted then Submitting(req, c, true, PrepareAttempt) else Probing(req, c, healthy, InvalidateSnapshot))
    case InvalidateSnapshot =>
      (SetSnapshot(s, r, NO_SNAPSHOT), if healthy == [] then Stopped else ChoosingHealthy(req, healthy))
  }

  function ChooseHealthyStep(s: Shared, r: nat, req: Request, healthy: seq<GatewayConfig>): (after: (Shared, Pc))
    ensures after.0 == s.(replicas := after.0.replicas)
  {
    var (s', chosen) := Draw(s, r, healthy);
    (s', if chosen.Some? then Submitting(req, chosen.value, false, PrepareAttempt) else Stopped)
  }

  function FailedSubmission(req: Request, c: GatewayConfig, asProbe: bool): Pc {
    if asProbe then Compensating(req, c, ClockForRelease) else Stopped
  }

  function SubmitStep(
      s: Shared, req: Request, c: GatewayConfig, asProbe: bool, submit: SubmitPc, choice: Choice): (after: (Shared, Pc))
    ensures after.0 == s.(txns := after.0.txns, attempts := after.0.attempts)
  {
    match submit
    case PrepareAttempt =>
      if !choice.registered then (s, FailedSubmission(req, c, asProbe))
      else
        var attempt := NextAttempt(s.attempts, req.orderId);
        (s.(attempts := s.attempts[req.orderId := attempt]),
         Submitting(req, c, asProbe, StoreTransaction(attempt, s.clock)))
    case StoreTransaction(attempt, now) =>
      if !choice.accepted then (s, FailedSubmission(req, c, asProbe))
      else
        var transaction := Transaction(req.tx, req.orderId, attempt, c.name, Pending, now, now, None);
        var (txns, saved) := Transactions.Save(s.txns, transaction);
        (s.(txns := txns), if saved.Ok? then Stopped else FailedSubmission(req, c, asProbe))
  }

  function CompensateStep(
      e: Env, s: Shared, t: nat, r: nat, req: Request, c: GatewayConfig,
      compensate: CompensatePc): (after: (Shared, Pc))
    ensures after.0 == s.(states := after.0.states, replicas := after.0.replicas, released := after.0.released)
  {
    match compensate
    case ClockForRelease => (s, Compensating(req, c, ReleaseToken(s.clock)))
    case ReleaseToken(now) =>
      if c.name !in s.states then (s, Stopped)
      else
        var (state, held) := Release(s.states[c.name], req.tx, now);
        (StoreReleased(s, state, req.tx, t, held), Compensating(req, c, CacheReleased(now, state)))
    case CacheReleased(now, state) => (SetCache(e, s, r, state, now), Stopped)
  }

  /** GetByID and the checks of Callback. */
  function ReceiveStep(s: Shared, input: CallbackInput): Pc {
    var id := input.transactionId;
    if id !in s.txns || s.txns[id].gateway != input.gateway
      || (input.orderId != "" && s.txns[id].orderId != input.orderId)
    then Stopped else Completing(input)
  }

  function CompleteStep(s: Shared, t: nat, input: CallbackInput): (after: (Shared, Pc))
    ensures after.0 == s.(txns := after.0.txns, completer := after.0.completer)
  {
    var (txns, completion) := Transactions.Complete(s.txns, input.transactionId, input.status, s.clock);
    if completion.Err? then (s, Stopped)
    else if completion.value.changed then
      (s.(txns := txns, completer := s.completer[input.transactionId := t]), Completed(completion.value.transaction))
    else (s, Inspecting(completion.value.transaction.gateway, ClockForState))
  }

  function OutcomeStep(
      e: Env, s: Shared, t: nat, r: nat, done: Transaction, now: Time, outcome: OutcomePc): (after: (Shared, Pc))
    ensures after.0 == s.(states := after.0.states, replicas := after.0.replicas, events := after.0.events,
                          log := after.0.log, released := after.0.released, rulings := after.0.rulings)
  {
    var g := done.gateway;
    match outcome
    case EnsureGateway => (Ensure(s, g, now), Settling(done, now, RecordEvent))
    case RecordEvent =>
      (s.(events := EventsAfter(s.events, e.Routing(), g, done.id, done.status, now),
          log := LogAfter(s.log, g, done.id, done.status, now)), Settling(done, now, GetState))
    case GetState => (s, if g in s.states then Settling(done, now, CountWindow(s.states[g])) else Stopped)
    case CountWindow(state) =>
      (s, Settling(done, now, DecideOutcome(state, WindowStats(s.events, e.Routing(), g, now))))
    case DecideOutcome(state, stats) =>
      if state.phase == HalfOpen then ReleaseAndRule(e, s, t, done, now)
      else
        var next := Evaluate(state, stats, e.Routing(), now);
        (Store(s, next), Settling(done, now, CacheOutcome(next)))
    case SaveVerdict(state, ruling) =>
      (Store(s, state).(rulings := s.rulings + [ruling]), Settling(done, now, CacheOutcome(state)))
    case CacheOutcome(state) => (SetCache(e, s, r, state, now), Blacklisting(done))
  }

  /** The half-open branch: release the transaction's token, and rule only if it held one. */
  function ReleaseAndRule(e: Env, s: Shared, t: nat, done: Transaction, now: Time): (after: (Shared, Pc))
    ensures after.0 == s.(states := after.0.states, released := after.0.released)
  {
    var g := done.gateway;
    if g !in s.states then (s, Stopped)
    else
      var (next, held) := Release(s.states[g], done.id, now);
      var s' := StoreReleased(s, next, done.id, t, held);
      if !held then (s', Settling(done, now, CacheOutcome(next)))
      else
        var ruling := Ruling(done.id, g, ExpiryOf(s.states[g].probes, done.id, UnixMilli(now)), now);
        (s', Settling(done, now, SaveVerdict(Breaker.Verdict(next, done.status, e.Routing(), now), ruling)))
  }

  /** The expiry of the live token of tx. */
  function ExpiryOf(ps: seq<Probe>, tx: string, nowMilli: int): int {
    if ps == [] then nowMilli
    else
      var last := ps[|ps| - 1];
      if last.transactionId == tx && last.Active(nowMilli) then last.expiresAtMilli
        else ExpiryOf(ps[..|ps| - 1], tx, nowMilli)
  }

  function BlacklistStep(e: Env, s: Shared, done: Transaction): (after: Shared)
    ensures after == s.(summaries := after.summaries, applied := after.applied)
  {
    var threshold := e.Routing().orderGatewayFailureThreshold;
    var summaries := Blacklist.RecordOutcome(s.summaries, done.orderId, done.gateway, done.status, threshold,
                                             s.clock).0;
    s.(summaries := summaries, applied := s.applied + {done.id})
  }

  function InspectStep(e: Env, s: Shared, r: nat, g: string, inspect: InspectPc): (after: (Shared, Pc))
    ensures after.0 == s.(states := after.0.states, replicas := after.0.replicas)
  {
    match inspect
    case ClockForState => (s, Inspecting(g, EnsureState(s.clock)))
    case EnsureState(now) => (Ensure(s, g, now), Inspecting(g, ReadState(now)))
    case ReadState(now) =>
      (s, if g !in s.states then Stopped
          else if s.states[g].phase == HalfOpen then Inspecting(g, PruneState(now))
          else Inspecting(g, CacheState(now, s.states[g])))
    case PruneState(now) =>
      if g !in s.states then (s, Stopped)
      else (Store(s, Prune(s.states[g], now)), Inspecting(g, CacheState(now, Prune(s.states[g], now))))
    case CacheState(now, state) => (SetCache(e, s, r, state, now), Stopped)
  }

  function ThreadStep(e: Env, s: Shared, t: nat, r: nat, pc: Pc, choice: Choice): (Shared, Pc) {
    match pc
    case Begin(o) => BeginStep(s, t, o, choice)
    case Snapshotting(req, snap) => (s, SnapshotStep(s, r, req, snap))
    case Looping(l) => LoopStep(e, s, r, l)
    case Preparing(l, now, prepare) =>
      if l.i < |e.Gateways()| then PrepareStep(e, s, r, l, now, prepare) else (s, Stopped)
    case Choosing(req, snapshot) => ChooseStep(s, r, req, snapshot)
    case Probing(req, c, healthy, probe) => ProbeStep(e, s, r, req, c, healthy, probe)
    case ChoosingHealthy(req, healthy) => ChooseHealthyStep(s, r, req, healthy)
    case Submitting(req, c, asProbe, submit) => SubmitStep(s, req, c, asProbe, submit, choice)
    case Compensating(req, c, compensate) => CompensateStep(e, s, t, r, req, c, compensate)
    case Receiving(input) => (s, ReceiveStep(s, input))
    case Completing(input) => CompleteStep(s, t, input)
    case Completed(done) => (s, Settling(done, s.clock, EnsureGateway))
    case Settling(done, now, outcome) => OutcomeStep(e, s, t, r, done, now, outcome)
    case Blacklisting(done) => (BlacklistStep(e, s, done), Finished(done))
    case Finished(_) => (s, pc)
    case Inspecting(g, inspect) => InspectStep(e, s, r, g, inspect)
    case Stopped => (s, pc)
  }

  // ---------------------------------------------------------------- runs

  /** Record, for every gateway now healthy in the store, that it is. */
  function Observed(s: Shared): Shared {
    s.(lastHealthy := map g | g in s.lastHealthy.Keys + s.states.Keys &&
                              (g in s.lastHealthy || s.states[g].phase == Healthy)
         :: if g in s.states && s.states[g].phase == Healthy then s.clock else s.lastHealthy[g])
  }

  datatype Call = InitiateCall(orderId: string) | CallbackCall(input: CallbackInput) | StateCall(gateway: string)

  function Start(call: Call): Pc {
    match call
    case InitiateCall(o) => Begin(o)
    case CallbackCall(input) => Receiving(input)
    case StateCall(g) => Inspecting(g, ClockForState)
  }

  /** Time passes, a call arrives at a replica, or some thread takes its next step. */
  datatype Action = Tick(to: Time) | Arrive(thread: nat, replica: nat, call: Call)
    | Advance(thread: nat, choice: Choice)

  function Apply(e: Env, w: Global, a: Action): Global {
    match a
    case Tick(to) => if to < w.shared.clock then w else w.(shared := Observed(w.shared.(clock := to)))
    case Arrive(t, r, call) => if t in w.threads then w else w.(threads := w.threads[t := Thread(r, Start(call))])
    case Advance(t, choice) =>
      if t !in w.threads then w
      else
        var (s, pc) := ThreadStep(e, w.shared, t, w.threads[t].replica, w.threads[t].pc, choice);
        Global(Observed(s), w.threads[t := w.threads[t].(pc := pc)])
  }

  const NEW_GLOBAL := Global(NEW_SHARED, map[])

  function After(e: Env, actions: seq<Action>): Global {
    if actions == [] then NEW_GLOBAL else Apply(e, After(e, actions[..|actions| - 1]), actions[|actions| - 1])
  }
}
