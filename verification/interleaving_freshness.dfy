/** How stale a routing decision can be: with any number of replicas, each with its own state
    cache and snapshot, and threads slow enough to overwrite a cache with old states, a
    gateway routed to without a probe was healthy in the shared store recently. */
module InterleavingFreshness {
  import opened Domain
  import opened Breaker
  import opened Reference
  import opened Selector
  import opened Interleaving
  import Blacklist
  import RI = ReferenceInvariant
  import Transactions

  ghost predicate SeenSince(s: Shared, g: string, t: Time) {
    g in s.lastHealthy && s.lastHealthy[g] >= t
  }

  ghost predicate SeenAfter(s: Shared, g: string, t: Time) {
    g in s.lastHealthy && s.lastHealthy[g] > t
  }

  /** A copy dated now: if it says healthy, the gateway was healthy then or later. */
  ghost predicate Timely(s: Shared, state: RuntimeState, now: Time) {
    state.phase == Healthy ==> SeenSince(s, state.gateway, now)
  }

  ghost predicate AllSeen(s: Shared, cs: seq<GatewayConfig>, t: Time) {
    forall c :: c in cs ==> SeenAfter(s, c.name, t)
  }

  ghost predicate Keyed(s: Shared) {
    forall g :: g in s.states ==> s.states[g].gateway == g
  }

  ghost predicate Past(s: Shared) {
    forall g :: g in s.lastHealthy ==> s.lastHealthy[g] <= s.clock
  }

  ghost predicate CacheOk(e: Env, s: Shared, cache: map<string, CachedState>) {
    forall g :: g in cache ==> cache[g].state.gateway == g && Timely(s, cache[g].state, cache[g].expiresAt - e.stateTTL)
  }

  ghost predicate SnapshotOk(e: Env, s: Shared, snapshot: Snapshot) {
    snapshot.expiresAt.Some? ==> AllSeen(s, snapshot.healthy, snapshot.expiresAt.value - e.routingTTL - e.stateTTL)
  }

  ghost predicate ReplicasOk(e: Env, s: Shared) {
    forall r :: r in s.replicas ==> CacheOk(e, s, s.replicas[r].cache) && SnapshotOk(e, s, s.replicas[r].snapshot)
  }

  /** What is healthy in the store is known to be healthy now. */
  ghost predicate Current(s: Shared) {
    forall g :: g in s.states && s.states[g].phase == Healthy ==> SeenSince(s, g, s.clock)
  }

  ghost predicate SharedOk(e: Env, s: Shared) {
    Keyed(s) && Past(s) && ReplicasOk(e, s) && Current(s)
  }

  // ---------------------------------------------------------------- what a thread knows

  /** The oldest instant a routing decision may rest on. */
  function Horizon(e: Env, req: Request): Time {
    req.readAt - e.routingTTL - e.stateTTL
  }

  ghost predicate LoopOk(e: Env, s: Shared, l: Loop) {
    l.req.readAt <= s.clock && AllSeen(s, l.healthy, l.req.readAt - e.stateTTL)
  }

  ghost predicate PrepareOk(e: Env, s: Shared, g: string, now: Time, prepare: PreparePc) {
    match prepare
    case CacheStored(state) => state.gateway == g && Timely(s, state, now)
    case CacheHalfOpen(state) => state.gateway == g && state.phase == HalfOpen
    case CachePruned(state) => state.gateway == g && Timely(s, state, now)
    case DecidePhase(state) => state.gateway == g && (state.phase == Healthy ==> SeenAfter(s, g, now - e.stateTTL))
    case _ => true
  }

  ghost predicate ProbeOk(s: Shared, probe: ProbePc) {
    match probe
    case AcquireToken(at) => at <= s.clock
    case CacheAcquired(since, held, _) => Timely(s, held, since)
    case _ => true
  }

  ghost predicate CompensateOk(s: Shared, compensate: CompensatePc) {
    match compensate
    case ReleaseToken(at) => at <= s.clock
    case CacheReleased(since, left) => Timely(s, left, since)
    case _ => true
  }

  ghost predicate InspectOk(s: Shared, inspect: InspectPc) {
    match inspect
    case ClockForState => true
    case CacheState(since, shown) => Timely(s, shown, since)
    case _ => inspect.at <= s.clock
  }

  ghost predicate PcOk(e: Env, s: Shared, pc: Pc) {
    match pc
    case Snapshotting(req, _) => req.readAt <= s.clock
    case Looping(l) => LoopOk(e, s, l)
    case Preparing(l, now, prepare) =>
      LoopOk(e, s, l) && l.req.readAt <= now <= s.clock
        && (l.i < |e.Gateways()| ==> PrepareOk(e, s, e.Gateways()[l.i].name, now, prepare))
    case Choosing(req, snapshot) => AllSeen(s, snapshot.healthy, Horizon(e, req))
    case Probing(req, _, healthy, probe) => AllSeen(s, healthy, Horizon(e, req)) && ProbeOk(s, probe)
    case ChoosingHealthy(req, healthy) => AllSeen(s, healthy, Horizon(e, req))
    case Submitting(req, c, asProbe, _) => asProbe || SeenAfter(s, c.name, Horizon(e, req))
    case Compensating(_, _, compensate) => CompensateOk(s, compensate)
    case Settling(_, now, outcome) => now <= s.clock && (outcome.CacheOutcome? ==> Timely(s, outcome.saved, now))
    case Inspecting(_, inspect) => InspectOk(s, inspect)
    case _ => true
  }

  ghost predicate Inv(e: Env, w: Global) {
    SharedOk(e, w.shared) && forall t :: t in w.threads ==> PcOk(e, w.shared, w.threads[t].pc)
  }

  // ---------------------------------------------------------------- knowledge does not age

  ghost predicate Later(s: Shared, s': Shared) {
    && s.clock <= s'.clock
    && forall g :: g in s.lastHealthy ==> g in s'.lastHealthy && s.lastHealthy[g] <= s'.lastHealthy[g]
  }

  lemma StaysOk(e: Env, s: Shared, s': Shared, pc: Pc)
    requires PcOk(e, s, pc) && Later(s, s')
    ensures PcOk(e, s', pc)
  {
  }

  /** What a thread's step does to the shared state before the observation. */
  ghost predicate Raw(e: Env, s: Shared, s': Shared) {
    && s'.clock == s.clock && s'.lastHealthy == s.lastHealthy
    && Keyed(s') && ReplicasOk(e, s')
  }

  lemma ObservationIsOk(e: Env, s: Shared, s': Shared)
    requires Past(s) && Raw(e, s, s')
    ensures SharedOk(e, Observed(s')) && Later(s, Observed(s'))
  {
    var o := Observed(s');
    forall r | r in o.replicas
      ensures CacheOk(e, o, o.replicas[r].cache) && SnapshotOk(e, o, o.replicas[r].snapshot)
    {
      assert CacheOk(e, s', s'.replicas[r].cache) && SnapshotOk(e, s', s'.replicas[r].snapshot);
    }
  }

  /** A state that is in the store is timely for any clock reading taken so far. */
  lemma StoredIsTimely(e: Env, s: Shared, s': Shared, g: string, now: Time)
    requires Past(s) && Raw(e, s, s') && g in s'.states && now <= s.clock
    ensures Timely(Observed(s'), s'.states[g], now)
  {
  }

  // ---------------------------------------------------------------- effects

  lemma StoreIsRaw(e: Env, s: Shared, state: RuntimeState, token: Probe, t: nat, b: bool)
    requires SharedOk(e, s)
    ensures Raw(e, s, Store(s, state)) && Raw(e, s, StoreReleased(s, state, token.transactionId, t, b))
            && Raw(e, s, StoreAcquired(s, state, token, b))
  {
    hide ReplicasOk, Past, Current;
    SameReplicas(e, s, Store(s, state));
    SameReplicas(e, s, StoreReleased(s, state, token.transactionId, t, b));
    SameReplicas(e, s, StoreAcquired(s, state, token, b));
  }

  lemma SameReplicas(e: Env, s: Shared, s': Shared)
    requires ReplicasOk(e, s) && s'.replicas == s.replicas && s'.lastHealthy == s.lastHealthy
    ensures ReplicasOk(e, s')
  {
  }

  /** Steps that leave the store's keys, the replicas and the history of health alone. */
  lemma TablesAreRaw(e: Env, s: Shared, s': Shared)
    requires SharedOk(e, s)
    requires s'.clock == s.clock && s'.lastHealthy == s.lastHealthy && s'.replicas == s.replicas
             && s'.states == s.states
    ensures Raw(e, s, s')
  {
  }

  lemma EnsureIsRaw(e: Env, s: Shared, g: string, now: Time)
    requires SharedOk(e, s)
    ensures Raw(e, s, Ensure(s, g, now))
  {
  }

  lemma ReplicaIsRaw(e: Env, s: Shared, r: nat, replica: Replica)
    requires SharedOk(e, s) && CacheOk(e, s, replica.cache) && SnapshotOk(e, s, replica.snapshot)
    ensures Raw(e, s, WithReplica(s, r, replica))
  {
  }

  lemma ReplicaOfIsOk(e: Env, s: Shared, r: nat)
    requires SharedOk(e, s)
    ensures CacheOk(e, s, ReplicaOf(s, r).cache) && SnapshotOk(e, s, ReplicaOf(s, r).snapshot)
  {
  }

  lemma CacheGrows(e: Env, s: Shared, cache: map<string, CachedState>, state: RuntimeState, now: Time)
    requires CacheOk(e, s, cache) && Timely(s, state, now)
    ensures CacheOk(e, s, cache[state.gateway := CachedState(state, now + e.stateTTL)])
  {
  }

  lemma SetCacheIsRaw(e: Env, s: Shared, r: nat, state: RuntimeState, now: Time)
    requires SharedOk(e, s) && Timely(s, state, now)
    ensures Raw(e, s, SetCache(e, s, r, state, now))
  {
    hide CacheOk, SnapshotOk, SharedOk, Raw, Timely;
    var replica := ReplicaOf(s, r);
    ReplicaOfIsOk(e, s, r);
    CacheGrows(e, s, replica.cache, state, now);
    ReplicaIsRaw(e, s, r, replica.(cache := replica.cache[state.gateway := CachedState(state, now + e.stateTTL)]));
  }

  lemma SetSnapshotIsRaw(e: Env, s: Shared, r: nat, snapshot: Snapshot)
    requires SharedOk(e, s) && SnapshotOk(e, s, snapshot)
    ensures Raw(e, s, SetSnapshot(s, r, snapshot))
  {
  }

  lemma DrawIsRaw(e: Env, s: Shared, r: nat, cs: seq<GatewayConfig>)
    requires SharedOk(e, s)
    ensures Raw(e, s, Draw(s, r, cs).0)
    ensures Draw(s, r, cs).1.Some? ==> Draw(s, r, cs).1.value in cs
  {
    ReplicaOfIsOk(e, s, r);
    SelectAnswers(ReplicaOf(s, r).counter, cs);
    ReplicaIsRaw(e, s, r, ReplicaOf(s, r).(counter := Select(ReplicaOf(s, r).counter, cs).0));
  }

  // ---------------------------------------------------------------- steps

  ghost predicate StepOk(e: Env, s: Shared, s': Shared, pc': Pc) {
    Raw(e, s, s') && PcOk(e, Observed(s'), pc')
  }

  /** A step whose next assertion already holds before it. */
  lemma Settled(e: Env, s: Shared, s': Shared, pc': Pc)
    requires SharedOk(e, s) && Raw(e, s, s') && PcOk(e, s, pc')
    ensures StepOk(e, s, s', pc')
  {
    ObservationIsOk(e, s, s');
    StaysOk(e, s, Observed(s'), pc');
  }

  lemma ClassifyIsOk(e: Env, s: Shared, l: Loop, now: Time, state: RuntimeState)
    requires LoopOk(e, s, l) && l.i < |e.Gateways()| && l.req.readAt <= now
    requires state.phase == Healthy ==> SeenAfter(s, e.Gateways()[l.i].name, now - e.stateTTL)
    ensures LoopOk(e, s, Classify(e, l, state))
  {
  }

  lemma PrepareSteps(e: Env, s: Shared, r: nat, l: Loop, now: Time, prepare: PreparePc)
    requires SharedOk(e, s) && PcOk(e, s, Preparing(l, now, prepare)) && l.i < |e.Gateways()| && e.stateTTL > 0
    ensures var (s', pc') := PrepareStep(e, s, r, l, now, prepare);
            StepOk(e, s, s', pc')
  {
    hide StepOk, Raw, LoopOk, SharedOk, Prune, Classify;
    var g := e.Gateways()[l.i].name;
    var (s', pc') := PrepareStep(e, s, r, l, now, prepare);
    TablesAreRaw(e, s, s);
    match prepare
    case LookInCache =>
      CachedIsRecent(e, s, r, g, now);
      Settled(e, s, s', pc');
    case EnsureStored =>
      EnsureIsRaw(e, s, g, now);
      Settled(e, s, s', pc');
    case GetStored =>
      StoredIsRecent(e, s, g, now);
      Settled(e, s, s', pc');
    case CacheStored(state) =>
      SetCacheIsRaw(e, s, r, state, now);
      Settled(e, s, s', pc');
    case DecidePhase(state) =>
      StoreIsRaw(e, s, ToHalfOpen(state, now), Probe("", 0), 0, false);
      ClassifyIsOk(e, s, l, now, state);
      Settled(e, s, s', pc');
    case CacheHalfOpen(state) =>
      SetCacheIsRaw(e, s, r, state, now);
      Settled(e, s, s', pc');
    case PruneStored => PruneSteps(e, s, r, l, now);
    case CachePruned(state) =>
      SetCacheIsRaw(e, s, r, state, now);
      ClassifyIsOk(e, s, l, now, state);
      Settled(e, s, s', pc');
  }

  lemma CachedIsRecent(e: Env, s: Shared, r: nat, g: string, now: Time)
    requires SharedOk(e, s)
    ensures var cache := ReplicaOf(s, r).cache;
            g in cache && now < cache[g].expiresAt ==> PrepareOk(e, s, g, now, DecidePhase(cache[g].state))
  {
  }

  lemma StoredIsRecent(e: Env, s: Shared, g: string, now: Time)
    requires SharedOk(e, s) && now <= s.clock
    ensures g in s.states ==> s.states[g].gateway == g && Timely(s, s.states[g], now)
  {
  }

  lemma PruneKeepsPhase(state: RuntimeState, now: Time)
    ensures Prune(state, now).phase == state.phase && Prune(state, now).gateway == state.gateway
  {
  }

  lemma PruneSteps(e: Env, s: Shared, r: nat, l: Loop, now: Time)
    requires SharedOk(e, s) && PcOk(e, s, Preparing(l, now, PruneStored)) && l.i < |e.Gateways()|
    ensures var (s', pc') := PrepareStep(e, s, r, l, now, PruneStored);
            StepOk(e, s, s', pc')
  {
    hide StepOk, Raw, LoopOk, SharedOk, Prune;
    var g := e.Gateways()[l.i].name;
    var (s', pc') := PrepareStep(e, s, r, l, now, PruneStored);
    TablesAreRaw(e, s, s);
    if g in s.states {
      StoredIsRecent(e, s, g, now);
      PruneKeepsPhase(s.states[g], now);
      StoreIsRaw(e, s, Prune(s.states[g], now), Probe("", 0), 0, false);
    }
    Settled(e, s, s', pc');
  }

  lemma TokenKeepsPhase(state: RuntimeState, tx: string, max: int, expiresAt: Time, now: Time)
    ensures var a, b := Acquire(state, tx, max, expiresAt, now).0, Release(state, tx, now).0;
            a.phase == state.phase && a.gateway == state.gateway && b.phase == state.phase && b.gateway == state.gateway
  {
  }

  lemma ProbeSteps(
      e: Env, s: Shared, r: nat, req: Request, c: GatewayConfig, healthy: seq<GatewayConfig>, probe: ProbePc)
    requires SharedOk(e, s) && PcOk(e, s, Probing(req, c, healthy, probe))
    ensures var (s', pc') := ProbeStep(e, s, r, req, c, healthy, probe);
            StepOk(e, s, s', pc')
  {
    hide StepOk, Raw, AllSeen, SharedOk, Acquire, StoreAcquired;
    var (s', pc') := ProbeStep(e, s, r, req, c, healthy, probe);
    TablesAreRaw(e, s, s);
    match probe {
      case ClockForProbe =>
      case AcquireToken(now) =>
        if c.name in s.states {
          var max, expiresAt := e.Routing().halfOpenProbeCount, now + e.Routing().ProbeTimeout();
          var (state, acquired) := Acquire(s.states[c.name], req.tx, max, expiresAt, now);
          StoredIsRecent(e, s, c.name, now);
          TokenKeepsPhase(s.states[c.name], req.tx, max, expiresAt, now);
          StoreIsRaw(e, s, state, Probe(req.tx, UnixMilli(expiresAt)), 0, acquired);
        }
      case CacheAcquired(now, state, granted) => SetCacheIsRaw(e, s, r, state, now);
      case InvalidateSnapshot => SetSnapshotIsRaw(e, s, r, NO_SNAPSHOT);
    }
    Settled(e, s, s', pc');
  }

  lemma CompensateSteps(e: Env, s: Shared, t: nat, r: nat, req: Request, c: GatewayConfig, compensate: CompensatePc)
    requires SharedOk(e, s) && PcOk(e, s, Compensating(req, c, compensate))
    ensures var (s', pc') := CompensateStep(e, s, t, r, req, c, compensate);
            StepOk(e, s, s', pc')
  {
    hide StepOk, Raw, SharedOk, Release, StoreReleased;
    var (s', pc') := CompensateStep(e, s, t, r, req, c, compensate);
    TablesAreRaw(e, s, s);
    match compensate {
      case ClockForRelease =>
      case ReleaseToken(now) =>
        if c.name in s.states {
          var (state, held) := Release(s.states[c.name], req.tx, now);
          StoredIsRecent(e, s, c.name, now);
          TokenKeepsPhase(s.states[c.name], req.tx, 0, 0, now);
          StoreIsRaw(e, s, state, Probe(req.tx, 0), t, held);
        }
      case CacheReleased(now, state) => SetCacheIsRaw(e, s, r, state, now);
    }
    Settled(e, s, s', pc');
  }

  lemma InspectSteps(e: Env, s: Shared, r: nat, g: string, inspect: InspectPc)
    requires SharedOk(e, s) && PcOk(e, s, Inspecting(g, inspect))
    ensures var (s', pc') := InspectStep(e, s, r, g, inspect);
            StepOk(e, s, s', pc')
  {
    hide StepOk, Raw, SharedOk, Prune;
    var (s', pc') := InspectStep(e, s, r, g, inspect);
    TablesAreRaw(e, s, s);
    match inspect {
      case ClockForState =>
      case EnsureState(now) => EnsureIsRaw(e, s, g, now);
      case ReadState(now) => StoredIsRecent(e, s, g, now);
      case PruneState(now) =>
        if g in s.states {
          StoredIsRecent(e, s, g, now);
          PruneKeepsPhase(s.states[g], now);
          StoreIsRaw(e, s, Prune(s.states[g], now), Probe("", 0), 0, false);
        }
      case CacheState(now, state) => SetCacheIsRaw(e, s, r, state, now);
    }
    Settled(e, s, s', pc');
  }

  /** A state just saved is timely: the observation after the step sees it. */
  lemma SavedSteps(e: Env, s: Shared, s': Shared, done: Transaction, now: Time, state: RuntimeState)
    requires SharedOk(e, s) && now <= s.clock && Raw(e, s, s')
    requires state.gateway in s'.states && s'.states[state.gateway] == state
    ensures StepOk(e, s, s', Settling(done, now, CacheOutcome(state)))
  {
    StoredIsTimely(e, s, s', state.gateway, now);
  }

  lemma RuleSteps(e: Env, s: Shared, t: nat, done: Transaction, now: Time)
    requires SharedOk(e, s) && now <= s.clock
    ensures var (s', pc') := ReleaseAndRule(e, s, t, done, now);
            StepOk(e, s, s', pc')
  {
    hide StepOk, Raw, SharedOk, Release, Breaker.Verdict, ExpiryOf;
    var (s', pc') := ReleaseAndRule(e, s, t, done, now);
    TablesAreRaw(e, s, s);
    if done.gateway in s.states {
      var (state, held) := Release(s.states[done.gateway], done.id, now);
      StoreIsRaw(e, s, state, Probe(done.id, 0), t, held);
      if held {
        Settled(e, s, s', pc');
      } else {
        SavedSteps(e, s, s', done, now, state);
      }
    } else {
      Settled(e, s, s', pc');
    }
  }

  lemma DecideSteps(e: Env, s: Shared, t: nat, r: nat, done: Transaction, now: Time, state: RuntimeState, stats: Stats)
    requires SharedOk(e, s) && now <= s.clock
    ensures var (s', pc') := OutcomeStep(e, s, t, r, done, now, DecideOutcome(state, stats));
            StepOk(e, s, s', pc')
  {
    hide StepOk, Raw, SharedOk, ReleaseAndRule, Evaluate;
    if state.phase == HalfOpen {
      RuleSteps(e, s, t, done, now);
    } else {
      var next := Evaluate(state, stats, e.Routing(), now);
      StoreIsRaw(e, s, next, Probe("", 0), 0, false);
      SavedSteps(e, s, Store(s, next), done, now, next);
    }
  }

  lemma OutcomeSteps(e: Env, s: Shared, t: nat, r: nat, done: Transaction, now: Time, outcome: OutcomePc)
    requires SharedOk(e, s) && PcOk(e, s, Settling(done, now, outcome))
    ensures var (s', pc') := OutcomeStep(e, s, t, r, done, now, outcome);
            StepOk(e, s, s', pc')
  {
    var (s', pc') := OutcomeStep(e, s, t, r, done, now, outcome);
    if outcome.DecideOutcome? {
      DecideSteps(e, s, t, r, done, now, outcome.found, outcome.stats);
    } else {
      hide StepOk, Raw, SharedOk, ReleaseAndRule, Evaluate, WindowStats, EventsAfter, LogAfter, Ensured;
      match outcome
      case SaveVerdict(state, ruling) => VerdictSteps(e, s, done, now, state, ruling);
      case EnsureGateway =>
        EnsureIsRaw(e, s, done.gateway, now);
        Settled(e, s, s', pc');
      case CacheOutcome(state) =>
        SetCacheIsRaw(e, s, r, state, now);
        Settled(e, s, s', pc');
      case _ => TableSteps(e, s, s', pc');
    }
  }

  lemma VerdictSteps(e: Env, s: Shared, done: Transaction, now: Time, state: RuntimeState, ruling: Ruling)
    requires SharedOk(e, s) && now <= s.clock
    ensures StepOk(e, s, Store(s, state).(rulings := s.rulings + [ruling]), Settling(done, now, CacheOutcome(state)))
  {
    StoreIsRaw(e, s, state, Probe("", 0), 0, false);
    var s' := Store(s, state).(rulings := s.rulings + [ruling]);
    SameReplicas(e, s, s');
    SavedSteps(e, s, s', done, now, state);
  }

  lemma SnapshotSteps(e: Env, s: Shared, r: nat, req: Request, snap: SnapshotPc)
    requires SharedOk(e, s) && PcOk(e, s, Snapshotting(req, snap))
    ensures StepOk(e, s, s, SnapshotStep(s, r, req, snap))
  {
    hide StepOk, Raw, SharedOk;
    TablesAreRaw(e, s, s);
    ReplicaOfIsOk(e, s, r);
    Settled(e, s, s, SnapshotStep(s, r, req, snap));
  }

  lemma SeenEarlier(s: Shared, cs: seq<GatewayConfig>, t: Time, u: Time)
    requires AllSeen(s, cs, t) && u <= t
    ensures AllSeen(s, cs, u)
  {
  }

  lemma LoopSteps(e: Env, s: Shared, r: nat, l: Loop)
    requires SharedOk(e, s) && PcOk(e, s, Looping(l)) && e.routingTTL > 0
    ensures var (s', pc') := LoopStep(e, s, r, l);
            StepOk(e, s, s', pc')
  {
    hide StepOk, Raw, SharedOk, AllSeen;
    var (s', pc') := LoopStep(e, s, r, l);
    TablesAreRaw(e, s, s);
    if l.i >= |e.Gateways()| {
      SetSnapshotIsRaw(e, s, r, Snapshot(l.healthy, l.probes, Some(l.req.readAt + e.routingTTL)));
      SeenEarlier(s, l.healthy, l.req.readAt - e.stateTTL, Horizon(e, l.req));
    }
    Settled(e, s, s', pc');
  }

  lemma ChooseSteps(e: Env, s: Shared, r: nat, req: Request, snapshot: Snapshot)
    requires SharedOk(e, s) && PcOk(e, s, Choosing(req, snapshot))
    ensures var (s', pc') := ChooseStep(s, r, req, snapshot);
            StepOk(e, s, s', pc')
  {
    hide StepOk, Raw, SharedOk, FilterExcluded, Draw;
    var (s', pc') := ChooseStep(s, r, req, snapshot);
    TablesAreRaw(e, s, s);
    RI.FilterMembers(snapshot.healthy, req.excluded);
    DrawIsRaw(e, s, r, FilterExcluded(snapshot.probes, req.excluded));
    Settled(e, s, s', pc');
  }

  lemma ChooseHealthySteps(e: Env, s: Shared, r: nat, req: Request, healthy: seq<GatewayConfig>)
    requires SharedOk(e, s) && PcOk(e, s, ChoosingHealthy(req, healthy))
    ensures var (s', pc') := ChooseHealthyStep(s, r, req, healthy);
            StepOk(e, s, s', pc')
  {
    hide StepOk, Raw, SharedOk, Draw;
    var (s', pc') := ChooseHealthyStep(s, r, req, healthy);
    DrawIsRaw(e, s, r, healthy);
    Settled(e, s, s', pc');
  }

  lemma StopSteps(e: Env, s: Shared)
    requires SharedOk(e, s)
    ensures StepOk(e, s, s, Stopped)
  {
  }

  /** A step that leaves store, replicas and caches alone. */
  lemma TableSteps(e: Env, s: Shared, s': Shared, pc': Pc)
    requires SharedOk(e, s) && PcOk(e, s, pc')
    requires s'.clock == s.clock && s'.lastHealthy == s.lastHealthy && s'.replicas == s.replicas
             && s'.states == s.states
    ensures StepOk(e, s, s', pc')
  {
    TablesAreRaw(e, s, s');
    Settled(e, s, s', pc');
  }

  lemma SubmitSteps(e: Env, s: Shared, req: Request, c: GatewayConfig, asProbe: bool, submit: SubmitPc, choice: Choice)
    requires SharedOk(e, s) && PcOk(e, s, Submitting(req, c, asProbe, submit))
    ensures var (s', pc') := SubmitStep(s, req, c, asProbe, submit, choice);
            StepOk(e, s, s', pc')
  {
    hide StepOk, SharedOk, SeenAfter, Transactions.Save;
    var (s', pc') := SubmitStep(s, req, c, asProbe, submit, choice);
    TableSteps(e, s, s', pc');
  }

  lemma CompleteFrame(s: Shared, t: nat, input: CallbackInput)
    ensures var (s', pc') := CompleteStep(s, t, input);
            && s' == s.(txns := s'.txns, completer := s'.completer)
            && (pc'.Stopped? || pc'.Completed? || (pc'.Inspecting? && pc'.inspect.ClockForState?))
  {
  }

  lemma CompleteSteps(e: Env, s: Shared, t: nat, input: CallbackInput)
    requires SharedOk(e, s)
    ensures var (s', pc') := CompleteStep(s, t, input);
            StepOk(e, s, s', pc')
  {
    CompleteFrame(s, t, input);
    hide StepOk, SharedOk, CompleteStep;
    var (s', pc') := CompleteStep(s, t, input);
    TableSteps(e, s, s', pc');
  }

  /** Steps that leave the store alone and need no knowledge. */
  lemma PlainSteps(e: Env, s: Shared, t: nat, r: nat, pc: Pc, choice: Choice)
    requires SharedOk(e, s)
    requires pc.Begin? || pc.Receiving? || pc.Completing? || pc.Completed? || pc.Blacklisting? || pc.Finished?
             || pc.Stopped?
    ensures var (s', pc') := ThreadStep(e, s, t, r, pc, choice);
            StepOk(e, s, s', pc')
  {
    hide StepOk, SharedOk, CompleteStep, Blacklist.RecordOutcome, Blacklist.Flagged;
    var (s', pc') := ThreadStep(e, s, t, r, pc, choice);
    if pc.Completing? {
      CompleteSteps(e, s, t, pc.input);
    } else {
      TableSteps(e, s, s', pc');
    }
  }

  ghost predicate Cautious(e: Env) {
    e.stateTTL > 0 && e.routingTTL > 0
  }

  lemma ThreadSteps(e: Env, s: Shared, t: nat, r: nat, pc: Pc, choice: Choice)
    requires SharedOk(e, s) && PcOk(e, s, pc) && Cautious(e)
    ensures var (s', pc') := ThreadStep(e, s, t, r, pc, choice);
            StepOk(e, s, s', pc')
  {
    hide StepOk, SharedOk, PcOk, PrepareStep, ProbeStep, SubmitStep, CompensateStep, OutcomeStep, InspectStep,
         SnapshotStep, LoopStep, ChooseStep, ChooseHealthyStep, BeginStep, CompleteStep, BlacklistStep;
    match pc
    case Preparing(l, now, prepare) =>
      if l.i < |e.Gateways()| {
        PrepareSteps(e, s, r, l, now, prepare);
      } else {
        StopSteps(e, s);
      }
    case Snapshotting(req, snap) => SnapshotSteps(e, s, r, req, snap);
    case Looping(l) => LoopSteps(e, s, r, l);
    case Choosing(req, snapshot) => ChooseSteps(e, s, r, req, snapshot);
    case ChoosingHealthy(req, healthy) => ChooseHealthySteps(e, s, r, req, healthy);
    case Probing(req, c, healthy, probe) => ProbeSteps(e, s, r, req, c, healthy, probe);
    case Compensating(req, c, compensate) => CompensateSteps(e, s, t, r, req, c, compensate);
    case Settling(done, now, outcome) => OutcomeSteps(e, s, t, r, done, now, outcome);
    case Inspecting(g, inspect) => InspectSteps(e, s, r, g, inspect);
    case Submitting(req, c, asProbe, submit) => SubmitSteps(e, s, req, c, asProbe, submit, choice);
    case _ => PlainSteps(e, s, t, r, pc, choice);
  }

  // ---------------------------------------------------------------- runs

  lemma AdvanceKeeps(e: Env, w: Global, t: nat, choice: Choice)
    requires Inv(e, w) && t in w.threads && Cautious(e)
    ensures Inv(e, Apply(e, w, Advance(t, choice)))
  {
    hide ThreadStep, PcOk, Raw, Observed, Later, Keyed, Current, ReplicasOk;
    var (s', pc') := ThreadStep(e, w.shared, t, w.threads[t].replica, w.threads[t].pc, choice);
    ThreadSteps(e, w.shared, t, w.threads[t].replica, w.threads[t].pc, choice);
    ObservationIsOk(e, w.shared, s');
    var w' := Apply(e, w, Advance(t, choice));
    forall u | u in w'.threads
      ensures PcOk(e, w'.shared, w'.threads[u].pc)
    {
      if u != t {
        StaysOk(e, w.shared, w'.shared, w.threads[u].pc);
      }
    }
  }

  lemma TickKeeps(e: Env, w: Global, to: Time)
    requires Inv(e, w) && to >= w.shared.clock
    ensures Inv(e, Apply(e, w, Tick(to)))
  {
    hide PcOk, Observed;
    var s' := w.shared.(clock := to);
    SameReplicas(e, w.shared, s');
    ObservationIsOk(e, s', s');
    var w' := Apply(e, w, Tick(to));
    forall u | u in w'.threads
      ensures PcOk(e, w'.shared, w'.threads[u].pc)
    {
      StaysOk(e, w.shared, w'.shared, w.threads[u].pc);
    }
  }

  lemma ApplyKeeps(e: Env, w: Global, a: Action)
    requires Inv(e, w) && Cautious(e)
    ensures Inv(e, Apply(e, w, a))
  {
    hide SharedOk, Observed;
    match a
    case Arrive(t, r, call) =>
    case Tick(to) =>
      if to >= w.shared.clock {
        TickKeeps(e, w, to);
      }
    case Advance(t, choice) =>
      if t in w.threads {
        AdvanceKeeps(e, w, t, choice);
      }
  }

  lemma {:induction false} AlwaysInv(e: Env, actions: seq<Action>)
    requires Cautious(e)
    ensures Inv(e, After(e, actions))
  {
    if actions != [] {
      AlwaysInv(e, actions[..|actions| - 1]);
      ApplyKeeps(e, After(e, actions[..|actions| - 1]), actions[|actions| - 1]);
    }
  }

  // ---------------------------------------------------------------- the theorem

  /** After the first k actions, the clock shows at and g is healthy in the store. */
  ghost predicate HealthyAt(e: Env, actions: seq<Action>, k: nat, g: string, at: Time) {
    && k <= |actions|
    && var s := After(e, actions[..k]).shared;
       s.clock == at && g in s.states && s.states[g].phase == Healthy
  }

  lemma ApplyRemembers(e: Env, w: Global, a: Action, g: string)
    requires Inv(e, w) && Cautious(e)
    ensures var s, s' := w.shared, Apply(e, w, a).shared;
            g in s'.lastHealthy ==>
              || (g in s.lastHealthy && s'.lastHealthy[g] == s.lastHealthy[g])
              || (g in s'.states && s'.states[g].phase == Healthy && s'.lastHealthy[g] == s'.clock)
  {
    hide ThreadStep, SharedOk, PcOk, ReplicasOk, Keyed;
    if a.Advance? && a.thread in w.threads {
      ThreadSteps(e, w.shared, a.thread, w.threads[a.thread].replica, w.threads[a.thread].pc, a.choice);
    }
  }

  /** The recorded history of health is true: each entry is the clock of an earlier state of
      the run in which the gateway was healthy in the store. */
  lemma {:induction false} HistoryIsWitnessed(e: Env, actions: seq<Action>, g: string)
    requires Cautious(e) && g in After(e, actions).shared.lastHealthy
    ensures exists k: nat :: HealthyAt(e, actions, k, g, After(e, actions).shared.lastHealthy[g])
  {
    var n, at := |actions|, After(e, actions).shared.lastHealthy[g];
    assert actions[..n] == actions;
    if n > 0 {
      var rest := actions[..n - 1];
      AlwaysInv(e, rest);
      ApplyRemembers(e, After(e, rest), actions[n - 1], g);
      if g in After(e, rest).shared.lastHealthy && After(e, rest).shared.lastHealthy[g] == at {
        HistoryIsWitnessed(e, rest, g);
        var k: nat :| HealthyAt(e, rest, k, g, at);
        assert rest[..k] == actions[..k];
        assert HealthyAt(e, actions, k, g, at);
      } else {
        assert HealthyAt(e, actions, n, g, at);
      }
    }
  }

  /** After any interleaving: if a request has been routed to a gateway without a probe, that
      gateway was healthy in the shared store at some point of the run later than the clock
      value the request's snapshot read, less both cache lifetimes. */
  lemma RoutingIsNeverStale(e: Env, actions: seq<Action>, t: nat)
    requires Cautious(e)
    ensures var w := After(e, actions);
            t in w.threads && w.threads[t].pc.Submitting? && !w.threads[t].pc.asProbe ==>
              exists k: nat, at: Time ::
                && HealthyAt(e, actions, k, w.threads[t].pc.choice.name, at)
                && at > w.threads[t].pc.req.readAt - e.routingTTL - e.stateTTL
  {
    AlwaysInv(e, actions);
    var w := After(e, actions);
    if t in w.threads && w.threads[t].pc.Submitting? && !w.threads[t].pc.asProbe {
      var pc := w.threads[t].pc;
      assert PcOk(e, w.shared, pc);
      HistoryIsWitnessed(e, actions, pc.choice.name);
      var k: nat :| HealthyAt(e, actions, k, pc.choice.name, w.shared.lastHealthy[pc.choice.name]);
    }
  }
}
