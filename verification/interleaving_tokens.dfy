/** Probe tokens under every interleaving: the bound on each stored list, no token written by
    a Save, at most one release of each token, and one distinct, acquired, unexpired token
    behind each ruling. The proof is rely-guarantee: what a step of one thread may do to the
    shared state, and why every other thread's assertion survives it. */
module InterleavingTokens {
  import opened Domain
  import opened Breaker
  import opened Reference
  import opened Interleaving

  function Bound(e: Env): int {
    e.Routing().halfOpenProbeCount
  }

  ghost predicate Shaped(e: Env, state: RuntimeState) {
    WellFormed(state, state.gateway, Bound(e))
  }

  ghost predicate WasReleased(rs: seq<Released>, tx: string) {
    exists r :: r in rs && r.tx == tx
  }

  /** A token that may be in a stored list: acquired on that gateway and never released. */
  ghost predicate Outstanding(s: Shared, p: Probe, g: string) {
    && p.transactionId in s.acquired && s.acquired[p.transactionId] == Grant(g, p.expiresAtMilli)
    && !WasReleased(s.released, p.transactionId)
  }

  /** The transaction's token on that gateway is one of those. */
  ghost predicate Held(s: Shared, tx: string, g: string) {
    tx in s.acquired && s.acquired[tx].gateway == g && !WasReleased(s.released, tx)
  }

  ghost predicate StatesOk(e: Env, s: Shared) {
    && (forall g :: g in s.states ==> WellFormed(s.states[g], g, Bound(e)))
    && (forall g, p :: g in s.states && p in s.states[g].probes ==> Outstanding(s, p, g))
  }

  ghost predicate CachesOk(e: Env, s: Shared) {
    forall r, g :: r in s.replicas && g in s.replicas[r].cache ==> Shaped(e, s.replicas[r].cache[g].state)
  }

  ghost predicate ReleasesOk(s: Shared) {
    && s.acquired.Keys <= s.minted.Keys
    && (forall r :: r in s.released ==> r.tx in s.acquired)
    && (forall i, j :: 0 <= i < j < |s.released| ==> s.released[i].tx != s.released[j].tx)
  }

  ghost predicate RulingOk(s: Shared, r: Ruling) {
    && r.tx in s.acquired && s.acquired[r.tx] == Grant(r.gateway, r.expiresAtMilli)
    && WasReleased(s.released, r.tx)
    && r.expiresAtMilli > UnixMilli(r.now)
  }

  ghost predicate Ruled(s: Shared, tx: string) {
    exists r :: r in s.rulings && r.tx == tx
  }

  ghost predicate RulingsOk(s: Shared) {
    && (forall r :: r in s.rulings ==> RulingOk(s, r))
    && (forall i, j :: 0 <= i < j < |s.rulings| ==> s.rulings[i].tx != s.rulings[j].tx)
  }

  ghost predicate SharedOk(e: Env, s: Shared) {
    StatesOk(e, s) && CachesOk(e, s) && ReleasesOk(s) && RulingsOk(s)
  }

  // ---------------------------------------------------------------- what a thread knows at each program counter

  /** The id of a request that has not yet tried to acquire a token. */
  function Intending(pc: Pc): Option<string> {
    match pc
    case Snapshotting(req, _) => Some(req.tx)
    case Looping(l) => Some(l.req.tx)
    case Preparing(l, _, _) => Some(l.req.tx)
    case Choosing(req, _) => Some(req.tx)
    case Probing(req, _, _, probe) => if probe.ClockForProbe? || probe.AcquireToken? then Some(req.tx) else None
    case _ => None
  }

  function PrepareCarries(prepare: PreparePc): Option<RuntimeState> {
    match prepare
    case CacheStored(state) => Some(state)
    case DecidePhase(state) => Some(state)
    case CacheHalfOpen(state) => Some(state)
    case CachePruned(state) => Some(state)
    case _ => None
  }

  function OutcomeCarries(outcome: OutcomePc): Option<RuntimeState> {
    match outcome
    case CountWindow(state) => Some(state)
    case DecideOutcome(state, _) => Some(state)
    case SaveVerdict(state, _) => Some(state)
    case CacheOutcome(state) => Some(state)
    case _ => None
  }

  /** The local copy of a gateway's state, possibly stale. */
  function Carried(pc: Pc): Option<RuntimeState> {
    match pc
    case Preparing(_, _, prepare) => PrepareCarries(prepare)
    case Probing(_, _, _, CacheAcquired(_, state, _)) => Some(state)
    case Compensating(_, _, CacheReleased(_, state)) => Some(state)
    case Settling(_, _, outcome) => OutcomeCarries(outcome)
    case Inspecting(_, CacheState(_, state)) => Some(state)
    case _ => None
  }

  ghost predicate Unacquired(s: Shared, t: nat, tx: string) {
    tx in s.minted && s.minted[tx] == t && tx !in s.acquired
  }

  /** The thread has released this token and is about to rule on it. */
  ghost predicate AboutToRule(s: Shared, t: nat, r: Ruling) {
    RulingOk(s, r) && Released(r.tx, t) in s.released && !Ruled(s, r.tx)
  }

  ghost predicate PcOk(e: Env, s: Shared, t: nat, pc: Pc) {
    && (Intending(pc).Some? ==> Unacquired(s, t, Intending(pc).value))
    && (Carried(pc).Some? ==> Shaped(e, Carried(pc).value))
    && (pc.Settling? && pc.outcome.SaveVerdict? ==>
          pc.outcome.verdict.probes == [] && AboutToRule(s, t, pc.outcome.ruling))
    && (DoneOf(pc).Some? ==> DoneOf(pc).value.status.IsFinal())
  }

  ghost predicate Inv(e: Env, w: Global) {
    SharedOk(e, w.shared) && forall t :: t in w.threads ==> PcOk(e, w.shared, t, w.threads[t].pc)
  }

  // ---------------------------------------------------------------- what a step of thread u may do to the others

  ghost predicate Guarantee(s: Shared, s': Shared, u: nat) {
    && (forall tx :: tx in s.minted ==> tx in s'.minted && s'.minted[tx] == s.minted[tx])
    && (forall tx :: tx in s.acquired ==> tx in s'.acquired && s'.acquired[tx] == s.acquired[tx])
    && (forall tx :: tx in s'.acquired && tx !in s.acquired ==> tx in s.minted && s.minted[tx] == u)
    && s.released <= s'.released
    && (forall r :: r in s'.rulings && r !in s.rulings ==> Released(r.tx, u) in s'.released)
  }

  lemma OnlyOneReleaser(s: Shared, tx: string, t: nat, u: nat)
    requires ReleasesOk(s) && Released(tx, t) in s.released && Released(tx, u) in s.released
    ensures t == u
  {
  }

  lemma OthersSurvive(e: Env, s: Shared, s': Shared, t: nat, u: nat, pc: Pc)
    requires PcOk(e, s, t, pc) && Guarantee(s, s', u) && ReleasesOk(s') && t != u
    ensures PcOk(e, s', t, pc)
  {
    if pc.Settling? && pc.outcome.SaveVerdict? {
      var tx := pc.outcome.ruling.tx;
      assert Released(tx, t) in s'.released;
      if Ruled(s', tx) {
        var r :| r in s'.rulings && r.tx == tx;
        OnlyOneReleaser(s', tx, t, u);
        assert false;
      }
    }
  }

  // ---------------------------------------------------------------- effects on the shared state

  /** An effect that keeps the shared assertions and that the other threads can bear. */
  ghost predicate Effect(e: Env, s: Shared, t: nat, s': Shared) {
    SharedOk(e, s') && Guarantee(s, s', t)
  }

  lemma NoEffect(e: Env, s: Shared, t: nat)
    requires SharedOk(e, s)
    ensures Effect(e, s, t, s)
  {
  }

  lemma StoreKeeps(e: Env, s: Shared, t: nat, state: RuntimeState)
    requires SharedOk(e, s) && Shaped(e, state)
    requires forall p :: p in state.probes ==> Outstanding(s, p, state.gateway)
    ensures Effect(e, s, t, Store(s, state))
  {
  }

  lemma EnsureKeeps(e: Env, s: Shared, t: nat, g: string, now: Time)
    requires SharedOk(e, s) && e.Routing().Usable()
    ensures Effect(e, s, t, Ensure(s, g, now))
  {
  }

  lemma SetSnapshotKeeps(e: Env, s: Shared, t: nat, r: nat, snapshot: Snapshot)
    requires SharedOk(e, s)
    ensures Effect(e, s, t, SetSnapshot(s, r, snapshot))
  {
  }

  lemma DrawKeeps(e: Env, s: Shared, t: nat, r: nat, cs: seq<GatewayConfig>)
    requires SharedOk(e, s)
    ensures Effect(e, s, t, Draw(s, r, cs).0)
  {
  }

  lemma ReadsAreShaped(e: Env, s: Shared, r: nat, g: string)
    requires SharedOk(e, s)
    ensures g in ReplicaOf(s, r).cache ==> Shaped(e, ReplicaOf(s, r).cache[g].state)
    ensures g in s.states ==> Shaped(e, s.states[g])
  {
  }

  lemma SetCacheKeeps(e: Env, s: Shared, t: nat, r: nat, state: RuntimeState, now: Time)
    requires SharedOk(e, s) && Shaped(e, state)
    ensures Effect(e, s, t, SetCache(e, s, r, state, now))
  {
  }

  lemma PruneKeeps(e: Env, s: Shared, t: nat, g: string, now: Time)
    requires SharedOk(e, s) && g in s.states
    ensures Shaped(e, Prune(s.states[g], now)) && Effect(e, s, t, Store(s, Prune(s.states[g], now)))
  {
    PruneKeepsShape(s.states[g], g, Bound(e), now);
    LiveMembers(s.states[g].probes, UnixMilli(now));
    StoreKeeps(e, s, t, Prune(s.states[g], now));
  }

  lemma MintKeeps(e: Env, s: Shared, id: string, t: nat)
    requires SharedOk(e, s) && id !in s.minted
    ensures var s' := s.(minted := s.minted[id := t]);
            Effect(e, s, t, s') && Unacquired(s', t, id)
  {
  }

  function Token(e: Env, tx: string, now: Time): Probe {
    Probe(tx, UnixMilli(now + e.Routing().ProbeTimeout()))
  }

  function Acquiring(e: Env, s: Shared, g: string, tx: string, now: Time): (RuntimeState, bool)
    requires g in s.states
  {
    Acquire(s.states[g], tx, e.Routing().halfOpenProbeCount, now + e.Routing().ProbeTimeout(), now)
  }

  /** The state an acquisition writes: shaped, with stored tokens and the new one only. */
  lemma AcquisitionShape(e: Env, s: Shared, g: string, tx: string, now: Time)
    requires StatesOk(e, s) && g in s.states && tx !in s.acquired
    ensures var (state, acquired) := Acquiring(e, s, g, tx, now);
            && Shaped(e, state) && state.gateway == g
            && forall p :: p in state.probes ==> Outstanding(s, p, g) || (acquired && p == Token(e, tx, now))
  {
    var stored := s.states[g];
    forall p | p in stored.probes
      ensures Outstanding(s, p, g) && p.transactionId != tx
    {
      assert Outstanding(s, p, g);
    }
    hide StatesOk, Outstanding;
    AcquireKeepsShape(stored, g, tx, Bound(e), now + e.Routing().ProbeTimeout(), now);
    LiveMembers(stored.probes, UnixMilli(now));
  }

  /** What was outstanding still is when a new token joins the acquired ones. */
  lemma StillOutstanding(s: Shared, token: Probe, p: Probe, g: string)
    requires Outstanding(s, p, g) && token.transactionId !in s.acquired
    ensures Outstanding(s.(acquired := s.acquired[token.transactionId := Grant(g, token.expiresAtMilli)]), p, g)
  {
  }

  lemma AcquireKeeps(e: Env, s: Shared, g: string, tx: string, now: Time, t: nat)
    requires SharedOk(e, s) && g in s.states && Unacquired(s, t, tx)
    ensures var (state, acquired) := Acquiring(e, s, g, tx, now);
            && Shaped(e, state)
            && Effect(e, s, t, StoreAcquired(s, state, Token(e, tx, now), acquired))
  {
    var (state, acquired) := Acquiring(e, s, g, tx, now);
    var token := Token(e, tx, now);
    var s0 := if acquired then s.(acquired := s.acquired[tx := Grant(g, token.expiresAtMilli)]) else s;
    AcquisitionShape(e, s, g, tx, now);
    AcquiredKeeps(e, s, token, g);
    hide SharedOk, Outstanding, Acquire, Token;
    assert token.transactionId == tx by { TokenId(e, tx, now); }
    forall p | p in state.probes
      ensures Outstanding(s0, p, state.gateway)
    {
      if Outstanding(s, p, g) && acquired {
        StillOutstanding(s, token, p, g);
      }
    }
    StoreKeeps(e, s0, t, state);
  }

  lemma TokenId(e: Env, tx: string, now: Time)
    ensures Token(e, tx, now).transactionId == tx
  {
  }

  lemma AcquiredKeeps(e: Env, s: Shared, token: Probe, g: string)
    requires SharedOk(e, s) && token.transactionId in s.minted && token.transactionId !in s.acquired
    ensures var s' := s.(acquired := s.acquired[token.transactionId := Grant(g, token.expiresAtMilli)]);
            SharedOk(e, s') && Outstanding(s', token, g)
  {
  }

  /** The state a release writes holds no token of tx; when tx held a live one, it was outstanding. */
  lemma ReleaseTakes(e: Env, s: Shared, g: string, tx: string, now: Time)
    requires SharedOk(e, s) && g in s.states
    ensures var (state, held) := Release(s.states[g], tx, now);
            && Shaped(e, state)
            && (forall p :: p in state.probes ==>
                  Outstanding(s, p, g) && (s.states[g].phase == HalfOpen ==> p.transactionId != tx))
            && (held ==> Held(s, tx, g) && s.states[g].phase == HalfOpen)
  {
    var stored, m := s.states[g], UnixMilli(now);
    ReleaseKeepsShape(stored, g, tx, Bound(e), now);
    LiveMembers(stored.probes, m);
    WithoutMembers(Live(stored.probes, m), tx);
  }

  lemma ReleasedKeeps(e: Env, s: Shared, tx: string, g: string, t: nat)
    requires SharedOk(e, s) && Held(s, tx, g)
    requires forall h, p :: h in s.states && p in s.states[h].probes ==> p.transactionId != tx
    ensures SharedOk(e, s.(released := s.released + [Released(tx, t)]))
  {
  }

  lemma ReleaseKeeps(e: Env, s: Shared, g: string, tx: string, now: Time, t: nat)
    requires SharedOk(e, s) && g in s.states
    ensures var (state, held) := Release(s.states[g], tx, now);
            && Shaped(e, state)
            && Effect(e, s, t, StoreReleased(s, state, tx, t, held))
  {
    var (state, held) := Release(s.states[g], tx, now);
    ReleaseTakes(e, s, g, tx, now);
    StoreKeeps(e, s, t, state);
    if held {
      var s1 := Store(s, state);
      forall h, p | h in s1.states && p in s1.states[h].probes
        ensures p.transactionId != tx
      {
        assert Outstanding(s, p, h) && s.acquired[tx].gateway == g;
      }
      assert Held(s1, tx, g);
      ReleasedKeeps(e, s1, tx, g, t);
    }
  }

  lemma RulingKeeps(e: Env, s: Shared, t: nat, state: RuntimeState, ruling: Ruling)
    requires SharedOk(e, s) && Shaped(e, state) && state.probes == [] && AboutToRule(s, t, ruling)
    ensures Effect(e, s, t, Store(s, state).(rulings := s.rulings + [ruling]))
  {
    StoreKeeps(e, s, t, state);
    var s1 := Store(s, state);
    var s' := s1.(rulings := s.rulings + [ruling]);
    forall r | r in s'.rulings
      ensures RulingOk(s', r)
    {
      assert r == ruling || r in s.rulings;
      assert RulingOk(s, r);
    }
    assert forall r :: r in s.rulings ==> r.tx != ruling.tx;
    forall g, p | g in s'.states && p in s'.states[g].probes
      ensures Outstanding(s', p, g)
    {
      assert Outstanding(s1, p, g);
    }
  }

  // ---------------------------------------------------------------- steps

  ghost predicate StepOk(e: Env, s: Shared, t: nat, s': Shared, pc': Pc) {
    Effect(e, s, t, s') && PcOk(e, s', t, pc')
  }

  lemma TablesKeep(e: Env, s: Shared, s': Shared, t: nat, pc: Pc)
    requires SharedOk(e, s) && PcOk(e, s, t, pc)
    requires s' == s.(txns := s'.txns, attempts := s'.attempts, summaries := s'.summaries, events := s'.events,
                      log := s'.log, completer := s'.completer, applied := s'.applied, clock := s'.clock,
                      lastHealthy := s'.lastHealthy)
    ensures StepOk(e, s, t, s', pc)
  {
    assert forall g, p :: g in s'.states && p in s'.states[g].probes ==> Outstanding(s, p, g);
    assert forall x :: x in s'.rulings ==> RulingOk(s, x);
  }

  lemma ReopenKeeps(e: Env, s: Shared, t: nat, state: RuntimeState, now: Time)
    requires SharedOk(e, s) && Shaped(e, state) && CooldownOver(state, now) && e.Routing().Usable()
    ensures Shaped(e, ToHalfOpen(state, now)) && Effect(e, s, t, Store(s, ToHalfOpen(state, now)))
  {
  }

  lemma PrepareSteps(e: Env, s: Shared, t: nat, r: nat, l: Loop, now: Time, prepare: PreparePc)
    requires SharedOk(e, s) && PcOk(e, s, t, Preparing(l, now, prepare)) && l.i < |e.Gateways()| && e.Routing().Usable()
    ensures var (s', pc') := PrepareStep(e, s, r, l, now, prepare);
            StepOk(e, s, t, s', pc')
  {
    hide Effect, SharedOk, WellFormed, Prune, ToHalfOpen, Store, SetCache, Ensure;
    NoEffect(e, s, t);
    var g := e.Gateways()[l.i].name;
    match prepare
    case LookInCache => ReadsAreShaped(e, s, r, g);
    case EnsureStored => EnsureKeeps(e, s, t, g, now);
    case GetStored => ReadsAreShaped(e, s, r, g);
    case CacheStored(state) => SetCacheKeeps(e, s, t, r, state, now);
    case DecidePhase(state) =>
      if CooldownOver(state, now) {
        ReopenKeeps(e, s, t, state, now);
      }
    case CacheHalfOpen(state) => SetCacheKeeps(e, s, t, r, state, now);
    case PruneStored =>
      if g in s.states {
        PruneKeeps(e, s, t, g, now);
      }
    case CachePruned(state) => SetCacheKeeps(e, s, t, r, state, now);
  }

  lemma ProbeSteps(
      e: Env, s: Shared, t: nat, r: nat, req: Request, c: GatewayConfig, healthy: seq<GatewayConfig>,
      probe: ProbePc)
    requires SharedOk(e, s) && PcOk(e, s, t, Probing(req, c, healthy, probe))
    ensures var (s', pc') := ProbeStep(e, s, r, req, c, healthy, probe);
            StepOk(e, s, t, s', pc')
  {
    hide Effect, SharedOk, Acquire, WellFormed;
    NoEffect(e, s, t);
    match probe
    case ClockForProbe =>
    case AcquireToken(now) =>
      if c.name in s.states {
        AcquireKeeps(e, s, c.name, req.tx, now, t);
      }
    case CacheAcquired(now, state, granted) => SetCacheKeeps(e, s, t, r, state, now);
    case InvalidateSnapshot => SetSnapshotKeeps(e, s, t, r, NO_SNAPSHOT);
  }

  lemma SubmitSteps(
      e: Env, s: Shared, t: nat, req: Request, c: GatewayConfig, asProbe: bool, submit: SubmitPc,
      choice: Choice)
    requires SharedOk(e, s)
    ensures var (s', pc') := SubmitStep(s, req, c, asProbe, submit, choice);
            StepOk(e, s, t, s', pc')
  {
    hide SharedOk;
    var (s', pc') := SubmitStep(s, req, c, asProbe, submit, choice);
    TablesKeep(e, s, s', t, pc');
  }

  lemma CompensateSteps(e: Env, s: Shared, t: nat, r: nat, req: Request, c: GatewayConfig, compensate: CompensatePc)
    requires SharedOk(e, s) && PcOk(e, s, t, Compensating(req, c, compensate))
    ensures var (s', pc') := CompensateStep(e, s, t, r, req, c, compensate);
            StepOk(e, s, t, s', pc')
  {
    hide Effect, SharedOk, Release, WellFormed;
    NoEffect(e, s, t);
    match compensate
    case ClockForRelease =>
    case ReleaseToken(now) =>
      if c.name in s.states {
        ReleaseKeeps(e, s, c.name, req.tx, now, t);
      }
    case CacheReleased(now, state) => SetCacheKeeps(e, s, t, r, state, now);
  }

  lemma InspectSteps(e: Env, s: Shared, t: nat, r: nat, g: string, inspect: InspectPc)
    requires SharedOk(e, s) && PcOk(e, s, t, Inspecting(g, inspect)) && e.Routing().Usable()
    ensures var (s', pc') := InspectStep(e, s, r, g, inspect);
            StepOk(e, s, t, s', pc')
  {
    hide Effect, SharedOk, Prune, WellFormed, Store, SetCache, Ensure;
    NoEffect(e, s, t);
    ReadsAreShaped(e, s, r, g);
    match inspect
    case ClockForState =>
    case EnsureState(now) => EnsureKeeps(e, s, t, g, now);
    case ReadState(now) =>
    case PruneState(now) =>
      if g in s.states {
        PruneKeeps(e, s, t, g, now);
      }
    case CacheState(now, state) => SetCacheKeeps(e, s, t, r, state, now);
  }

  lemma NotYetRuled(s: Shared, s': Shared, tx: string)
    requires RulingsOk(s) && s'.rulings == s.rulings && !WasReleased(s.released, tx)
    ensures !Ruled(s', tx)
  {
  }

  /** The expiry read for a ruling is that of the stored, live token of the transaction. */
  lemma {:induction false} ExpiryIsLive(ps: seq<Probe>, tx: string, m: int)
    requires exists p :: p in ps && p.transactionId == tx && p.Active(m)
    ensures ExpiryOf(ps, tx, m) > m && Probe(tx, ExpiryOf(ps, tx, m)) in ps
  {
    var rest, last := ps[..|ps| - 1], ps[|ps| - 1];
    assert last in ps && forall p :: p in rest ==> p in ps;
    if !(last.transactionId == tx && last.Active(m)) {
      var p :| p in ps && p.transactionId == tx && p.Active(m);
      assert p in rest;
      ExpiryIsLive(rest, tx, m);
    }
  }

  lemma HeldTokenRules(e: Env, s: Shared, t: nat, g: string, tx: string, now: Time, s': Shared)
    requires SharedOk(e, s) && g in s.states && Release(s.states[g], tx, now).1
    requires s' == StoreReleased(s, Release(s.states[g], tx, now).0, tx, t, true)
    ensures AboutToRule(s', t, Ruling(tx, g, ExpiryOf(s.states[g].probes, tx, UnixMilli(now)), now))
  {
    ReleaseTakes(e, s, g, tx, now);
    LiveMembers(s.states[g].probes, UnixMilli(now));
    ExpiryIsLive(s.states[g].probes, tx, UnixMilli(now));
    assert s'.released[|s.released|] == Released(tx, t);
    NotYetRuled(s, s', tx);
  }

  lemma RuleSteps(e: Env, s: Shared, t: nat, done: Transaction, now: Time)
    requires SharedOk(e, s) && done.status.IsFinal() && e.Routing().Usable()
    ensures var (s', pc') := ReleaseAndRule(e, s, t, done, now);
            StepOk(e, s, t, s', pc')
  {
    hide Effect, SharedOk, Release, AboutToRule, ExpiryOf;
    NoEffect(e, s, t);
    if done.gateway in s.states {
      ReleaseKeeps(e, s, done.gateway, done.id, now, t);
      var (next, held) := Release(s.states[done.gateway], done.id, now);
      if held {
        HeldTokenRules(e, s, t, done.gateway, done.id, now, ReleaseAndRule(e, s, t, done, now).0);
      }
    }
  }

  lemma DecideSteps(e: Env, s: Shared, t: nat, r: nat, done: Transaction, now: Time, state: RuntimeState, stats: Stats)
    requires SharedOk(e, s) && Shaped(e, state) && done.status.IsFinal() && e.Routing().Usable()
    ensures var (s', pc') := OutcomeStep(e, s, t, r, done, now, DecideOutcome(state, stats));
            StepOk(e, s, t, s', pc')
  {
    hide Effect, SharedOk, ReleaseAndRule;
    if state.phase == HalfOpen {
      RuleSteps(e, s, t, done, now);
    } else {
      StoreKeeps(e, s, t, Evaluate(state, stats, e.Routing(), now));
    }
  }

  lemma OutcomeSteps(e: Env, s: Shared, t: nat, r: nat, done: Transaction, now: Time, outcome: OutcomePc)
    requires SharedOk(e, s) && PcOk(e, s, t, Settling(done, now, outcome)) && e.Routing().Usable()
    ensures var (s', pc') := OutcomeStep(e, s, t, r, done, now, outcome);
            StepOk(e, s, t, s', pc')
  {
    var (s', pc') := OutcomeStep(e, s, t, r, done, now, outcome);
    hide Effect, SharedOk, AboutToRule, WellFormed, Ensure, SetCache, ReleaseAndRule, Evaluate, WindowStats,
         EventsAfter, LogAfter;
    NoEffect(e, s, t);
    match outcome
    case EnsureGateway => EnsureKeeps(e, s, t, done.gateway, now);
    case RecordEvent => TablesKeep(e, s, s', t, pc');
    case GetState => ReadsAreShaped(e, s, r, done.gateway);
    case CountWindow(state) =>
    case DecideOutcome(state, stats) => DecideSteps(e, s, t, r, done, now, state, stats);
    case SaveVerdict(state, ruling) => RulingKeeps(e, s, t, state, ruling);
    case CacheOutcome(state) => SetCacheKeeps(e, s, t, r, state, now);
  }

  /** The steps of ThreadStep that stand on their own. */
  predicate Plain(pc: Pc) {
    !pc.Preparing? && !pc.Probing? && !pc.Submitting? && !pc.Compensating? && !pc.Settling? && !pc.Inspecting?
  }

  lemma RoutingSteps(e: Env, s: Shared, t: nat, r: nat, pc: Pc, choice: Choice)
    requires SharedOk(e, s) && PcOk(e, s, t, pc) && (pc.Looping? || pc.Choosing? || pc.ChoosingHealthy?)
    ensures var (s', pc') := ThreadStep(e, s, t, r, pc, choice);
            StepOk(e, s, t, s', pc')
  {
    hide Effect, SharedOk, FilterExcluded, Draw, SetSnapshot;
    NoEffect(e, s, t);
    match pc
    case Looping(l) => SetSnapshotKeeps(e, s, t, r, Snapshot(l.healthy, l.probes, Some(l.req.readAt + e.routingTTL)));
    case Choosing(req, snapshot) => DrawKeeps(e, s, t, r, FilterExcluded(snapshot.probes, req.excluded));
    case ChoosingHealthy(req, healthy) => DrawKeeps(e, s, t, r, healthy);
  }

  lemma PlainSteps(e: Env, s: Shared, t: nat, r: nat, pc: Pc, choice: Choice)
    requires SharedOk(e, s) && PcOk(e, s, t, pc) && Plain(pc)
    ensures var (s', pc') := ThreadStep(e, s, t, r, pc, choice);
            StepOk(e, s, t, s', pc')
  {
    hide Effect, SharedOk, LoopStep, ChooseStep, ChooseHealthyStep, BlacklistStep, WellFormed;
    NoEffect(e, s, t);
    match pc
    case Begin(o) =>
      if choice.id !in s.minted {
        MintKeeps(e, s, choice.id, t);
      }
    case Snapshotting(req, snap) =>
    case Completing(input) => CompleteSteps(e, s, t, input);
    case Blacklisting(done) => BlacklistSteps(e, s, t, done);
    case Receiving(input) =>
    case Completed(done) =>
    case Finished(_) =>
    case Stopped =>
    case _ => RoutingSteps(e, s, t, r, pc, choice);
  }

  lemma CompleteSteps(e: Env, s: Shared, t: nat, input: CallbackInput)
    requires SharedOk(e, s)
    ensures var (s', pc') := CompleteStep(s, t, input);
            StepOk(e, s, t, s', pc')
  {
    hide SharedOk;
    TablesKeep(e, s, CompleteStep(s, t, input).0, t, CompleteStep(s, t, input).1);
  }

  lemma BlacklistSteps(e: Env, s: Shared, t: nat, done: Transaction)
    requires SharedOk(e, s) && done.status.IsFinal()
    ensures StepOk(e, s, t, BlacklistStep(e, s, done), Finished(done))
  {
    hide SharedOk;
    TablesKeep(e, s, BlacklistStep(e, s, done), t, Finished(done));
  }

  lemma ThreadSteps(e: Env, s: Shared, t: nat, r: nat, pc: Pc, choice: Choice)
    requires SharedOk(e, s) && PcOk(e, s, t, pc) && e.Routing().Usable()
    ensures var (s', pc') := ThreadStep(e, s, t, r, pc, choice);
            StepOk(e, s, t, s', pc')
  {
    hide Effect, SharedOk, PcOk, PrepareStep, ProbeStep, SubmitStep, CompensateStep, OutcomeStep, InspectStep;
    match pc
    case Preparing(l, now, prepare) =>
      if l.i < |e.Gateways()| {
        PrepareSteps(e, s, t, r, l, now, prepare);
      } else {
        Stops(e, s, t);
      }
    case Probing(req, c, healthy, probe) => ProbeSteps(e, s, t, r, req, c, healthy, probe);
    case Submitting(req, c, asProbe, submit) => SubmitSteps(e, s, t, req, c, asProbe, submit, choice);
    case Compensating(req, c, compensate) => CompensateSteps(e, s, t, r, req, c, compensate);
    case Settling(done, now, outcome) => OutcomeSteps(e, s, t, r, done, now, outcome);
    case Inspecting(g, inspect) => InspectSteps(e, s, t, r, g, inspect);
    case _ => PlainSteps(e, s, t, r, pc, choice);
  }

  lemma Stops(e: Env, s: Shared, t: nat)
    requires SharedOk(e, s)
    ensures StepOk(e, s, t, s, Stopped)
  {
  }
}
