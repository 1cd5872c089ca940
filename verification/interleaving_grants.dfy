/** What a step of the step model may add to the store: a token only by acquisition, a ruling
    only by the owner of a released token. */
module InterleavingGrants {
  import opened Domain
  import opened Breaker
  import opened Reference
  import opened Interleaving
  import opened InterleavingSafety
  import opened InterleavingTokens

  ghost predicate NoNewTokens(a: States, b: States) {
    forall g, p :: g in b && p in b[g].probes ==> g in a && p in a[g].probes
  }

  lemma SameAddsNone(a: States)
    ensures NoNewTokens(a, a)
  {
  }

  /** One gateway's list becomes part of what it was. */
  lemma StoreAdds(e: Env, s: Shared, g: string, state: RuntimeState)
    requires state.gateway == g && forall p :: p in state.probes ==> g in s.states && p in s.states[g].probes
    ensures NoNewTokens(s.states, Store(s, state).states)
  {
  }

  lemma EnsureAdds(e: Env, s: Shared, g: string, now: Time)
    ensures NoNewTokens(s.states, Ensure(s, g, now).states)
  {
  }

  lemma PruneAdds(e: Env, s: Shared, g: string, now: Time)
    requires SharedOk(e, s) && g in s.states
    ensures NoNewTokens(s.states, Store(s, Prune(s.states[g], now)).states)
  {
    LiveMembers(s.states[g].probes, UnixMilli(now));
    StoreAdds(e, s, g, Prune(s.states[g], now));
  }

  lemma ReleaseAdds(e: Env, s: Shared, g: string, tx: string, now: Time)
    requires SharedOk(e, s) && g in s.states
    ensures NoNewTokens(s.states, Store(s, Release(s.states[g], tx, now).0).states)
  {
    var live := Live(s.states[g].probes, UnixMilli(now));
    LiveMembers(s.states[g].probes, UnixMilli(now));
    WithoutMembers(live, tx);
    StoreAdds(e, s, g, Release(s.states[g], tx, now).0);
  }

  lemma SetCacheFrame(e: Env, s: Shared, r: nat, state: RuntimeState, now: Time)
    ensures SetCache(e, s, r, state, now).states == s.states
  {
  }

  lemma ReopenAdds(e: Env, s: Shared, state: RuntimeState, now: Time)
    requires Shaped(e, state) && CooldownOver(state, now)
    ensures NoNewTokens(s.states, Store(s, ToHalfOpen(state, now)).states)
  {
  }

  lemma DecideAdds(e: Env, s: Shared, r: nat, l: Loop, now: Time, state: RuntimeState)
    requires l.i < |e.Gateways()| && Shaped(e, state)
    ensures NoNewTokens(s.states, PrepareStep(e, s, r, l, now, DecidePhase(state)).0.states)
  {
    hide NoNewTokens, Classify, WellFormed, ToHalfOpen;
    SameAddsNone(s.states);
    if CooldownOver(state, now) {
      ReopenAdds(e, s, state, now);
    }
  }

  lemma PrepareAdds(e: Env, s: Shared, t: nat, r: nat, l: Loop, now: Time, prepare: PreparePc)
    requires SharedOk(e, s) && PcOk(e, s, t, Preparing(l, now, prepare)) && l.i < |e.Gateways()|
    ensures var s' := PrepareStep(e, s, r, l, now, prepare).0;
            NoNewTokens(s.states, s'.states) && s'.rulings == s.rulings
  {
    if prepare.DecidePhase? {
      DecideAdds(e, s, r, l, now, prepare.seen);
    } else {
      hide NoNewTokens, Prune, SharedOk, PcOk, Ensure, Store, SetCache;
      SameAddsNone(s.states);
      var g := e.Gateways()[l.i].name;
      match prepare
      case EnsureStored => EnsureAdds(e, s, g, now);
      case CacheStored(state) => SetCacheFrame(e, s, r, state, now);
      case CacheHalfOpen(state) => SetCacheFrame(e, s, r, state, now);
      case PruneStored =>
        if g in s.states {
          PruneAdds(e, s, g, now);
        }
      case CachePruned(state) => SetCacheFrame(e, s, r, state, now);
      case _ =>
    }
  }

  lemma InspectAdds(e: Env, s: Shared, r: nat, g: string, inspect: InspectPc)
    requires SharedOk(e, s)
    ensures var s' := InspectStep(e, s, r, g, inspect).0;
            NoNewTokens(s.states, s'.states) && s'.rulings == s.rulings
  {
    hide NoNewTokens, Prune, SharedOk, Ensure, Store, SetCache;
    SameAddsNone(s.states);
    match inspect
    case EnsureState(now) => EnsureAdds(e, s, g, now);
    case PruneState(now) =>
      if g in s.states {
        PruneAdds(e, s, g, now);
      }
    case CacheState(now, state) => SetCacheFrame(e, s, r, state, now);
    case _ =>
  }

  lemma CompensateAdds(e: Env, s: Shared, t: nat, r: nat, req: Request, c: GatewayConfig, compensate: CompensatePc)
    requires SharedOk(e, s)
    ensures var s' := CompensateStep(e, s, t, r, req, c, compensate).0;
            NoNewTokens(s.states, s'.states) && s'.rulings == s.rulings
  {
    hide NoNewTokens, Release, SharedOk;
    SameAddsNone(s.states);
    if compensate.ReleaseToken? && c.name in s.states {
      ReleaseAdds(e, s, c.name, req.tx, compensate.at);
    }
  }

  lemma EvaluateHoldsNone(e: Env, state: RuntimeState, stats: Stats, now: Time)
    requires Shaped(e, state) && state.phase != HalfOpen
    ensures var next := Evaluate(state, stats, e.Routing(), now);
            next.probes == [] && next.gateway == state.gateway
  {
  }

  lemma RuleAdds(e: Env, s: Shared, t: nat, done: Transaction, now: Time)
    requires SharedOk(e, s)
    ensures var s' := ReleaseAndRule(e, s, t, done, now).0;
            NoNewTokens(s.states, s'.states) && s'.rulings == s.rulings
  {
    hide NoNewTokens, Release, SharedOk, Breaker.Verdict, ExpiryOf;
    SameAddsNone(s.states);
    if done.gateway in s.states {
      ReleaseAdds(e, s, done.gateway, done.id, now);
    }
  }

  lemma OutcomeAdds(e: Env, s: Shared, t: nat, r: nat, done: Transaction, now: Time, outcome: OutcomePc)
    requires SharedOk(e, s) && PcOk(e, s, t, Settling(done, now, outcome))
    ensures var s' := OutcomeStep(e, s, t, r, done, now, outcome).0;
            NoNewTokens(s.states, s'.states)
  {
    hide NoNewTokens, Ensured, ReleaseAndRule, SharedOk, Evaluate, WindowStats, EventsAfter, LogAfter, WellFormed,
         AboutToRule;
    SameAddsNone(s.states);
    match outcome
    case EnsureGateway => EnsureAdds(e, s, done.gateway, now);
    case DecideOutcome(state, stats) =>
      if state.phase == HalfOpen {
        RuleAdds(e, s, t, done, now);
      } else {
        EvaluateHoldsNone(e, state, stats, now);
        StoreAdds(e, s, state.gateway, Evaluate(state, stats, e.Routing(), now));
      }
    case SaveVerdict(state, ruling) => StoreAdds(e, s, state.gateway, state);
    case _ =>
  }

  lemma OutcomeRules(e: Env, s: Shared, t: nat, r: nat, done: Transaction, now: Time, outcome: OutcomePc)
    requires SharedOk(e, s) && PcOk(e, s, t, Settling(done, now, outcome))
    ensures var s' := OutcomeStep(e, s, t, r, done, now, outcome).0;
            s'.rulings == if outcome.SaveVerdict? then s.rulings + [outcome.ruling] else s.rulings
  {
    hide ReleaseAndRule, SharedOk, Evaluate, WindowStats, EventsAfter, LogAfter, Shaped, AboutToRule;
    RuleAdds(e, s, t, done, now);
  }

  /** A token that g has only after thread t's step is the one t's request is acquiring. */
  ghost predicate AddsOnly(a: States, b: States, pc: Pc) {
    forall g, p :: g in b && p in b[g].probes && !(g in a && p in a[g].probes) ==>
      pc.Probing? && pc.probe.AcquireToken? && g == pc.choice.name && p.transactionId == pc.req.tx
  }

  lemma AcquireAdds(state: RuntimeState, tx: string, max: int, expiresAt: Time, now: Time)
    ensures var state' := Acquire(state, tx, max, expiresAt, now).0;
            state'.gateway == state.gateway && forall p :: p in state'.probes ==>
                p in state.probes || p.transactionId == tx
  {
    LiveMembers(state.probes, UnixMilli(now));
  }

  lemma StoredGateway(e: Env, s: Shared, g: string)
    requires SharedOk(e, s) && g in s.states
    ensures s.states[g].gateway == g
  {
  }

  lemma NothingAdded(a: States, b: States, pc: Pc)
    requires NoNewTokens(a, b)
    ensures AddsOnly(a, b, pc)
  {
  }

  lemma AcquisitionAdds(a: States, g: string, state: RuntimeState, pc: Pc)
    requires g in a && pc.Probing? && pc.probe.AcquireToken? && g == pc.choice.name
    requires forall p :: p in state.probes ==> p in a[g].probes || p.transactionId == pc.req.tx
    ensures AddsOnly(a, a[g := state], pc)
  {
  }

  lemma AcquireStepAdds(e: Env, s: Shared, req: Request, c: GatewayConfig, healthy: seq<GatewayConfig>, now: Time)
    requires SharedOk(e, s) && c.name in s.states
    ensures var (state, acquired) := Acquiring(e, s, c.name, req.tx, now);
            var s' := StoreAcquired(s, state, Token(e, req.tx, now), acquired);
            AddsOnly(s.states, s'.states, Probing(req, c, healthy, AcquireToken(now))) && s'.rulings == s.rulings
  {
    hide AddsOnly, Acquire, SharedOk;
    AcquireAdds(s.states[c.name], req.tx, Bound(e), now + e.Routing().ProbeTimeout(), now);
    StoredGateway(e, s, c.name);
    AcquisitionAdds(s.states, c.name, Acquiring(e, s, c.name, req.tx, now).0,
                    Probing(req, c, healthy, AcquireToken(now)));
  }

  lemma ProbeAdds(
      e: Env, s: Shared, r: nat, req: Request, c: GatewayConfig, healthy: seq<GatewayConfig>, probe: ProbePc)
    requires SharedOk(e, s)
    ensures var s' := ProbeStep(e, s, r, req, c, healthy, probe).0;
            AddsOnly(s.states, s'.states, Probing(req, c, healthy, probe)) && s'.rulings == s.rulings
  {
    hide AddsOnly, Acquire, SharedOk, NoNewTokens, StoreAcquired;
    SameAddsNone(s.states);
    NothingAdded(s.states, s.states, Probing(req, c, healthy, probe));
    if probe.AcquireToken? && c.name in s.states {
      AcquireStepAdds(e, s, req, c, healthy, probe.at);
    }
  }

  lemma PlainAdds(e: Env, s: Shared, t: nat, r: nat, pc: Pc, choice: Choice)
    requires Plain(pc) || pc.Submitting?
    ensures var s' := ThreadStep(e, s, t, r, pc, choice).0;
            s'.states == s.states && s'.rulings == s.rulings
  {
    hide BeginStep, SnapshotStep, LoopStep, ChooseStep, ChooseHealthyStep, SubmitStep, CompleteStep, BlacklistStep;
  }

  lemma ThreadAdds(e: Env, s: Shared, t: nat, r: nat, pc: Pc, choice: Choice)
    requires SharedOk(e, s) && PcOk(e, s, t, pc)
    ensures var s' := ThreadStep(e, s, t, r, pc, choice).0;
            && AddsOnly(s.states, s'.states, pc)
            && s'.rulings == if pc.Settling? && pc.outcome.SaveVerdict? then s.rulings + [pc.outcome.ruling]
                 else s.rulings
  {
    hide SharedOk, PcOk, AddsOnly, NoNewTokens, PrepareStep, ProbeStep, SubmitStep, CompensateStep, OutcomeStep,
         InspectStep;
    SameAddsNone(s.states);
    match pc {
    case Preparing(l, now, prepare) =>
      if l.i < |e.Gateways()| {
        PrepareAdds(e, s, t, r, l, now, prepare);
      }
    case Probing(req, c, healthy, probe) => ProbeAdds(e, s, r, req, c, healthy, probe);
    case Compensating(req, c, compensate) => CompensateAdds(e, s, t, r, req, c, compensate);
    case Settling(done, now, outcome) =>
      OutcomeAdds(e, s, t, r, done, now, outcome);
      OutcomeRules(e, s, t, r, done, now, outcome);
    case Inspecting(g, inspect) => InspectAdds(e, s, r, g, inspect);
    case _ => PlainAdds(e, s, t, r, pc, choice);
    }
    if !pc.Probing? {
      NothingAdded(s.states, ThreadStep(e, s, t, r, pc, choice).0.states, pc);
    }
  }

  /** However stale the copy a Save was computed from, it never adds a token: whatever the
      interleaving, only the acquisition step of a request adds one, its own, on the gateway
      it has chosen. And only a ruling is appended to the rulings: the one the thread's own
      released token entitles it to, which nobody has used before. */
  lemma OnlyAcquisitionAddsTokens(e: Env, actions: seq<Action>, t: nat, choice: Choice)
    requires e.Routing().Usable() && t in After(e, actions).threads
    ensures var w := After(e, actions);
            var pc, s, s' := w.threads[t].pc, w.shared, Apply(e, w, Advance(t, choice)).shared;
            && AddsOnly(s.states, s'.states, pc)
            && (s'.rulings != s.rulings ==>
                  && pc.Settling? && pc.outcome.SaveVerdict? && s'.rulings == s.rulings + [pc.outcome.ruling]
                  && RulingOk(s, pc.outcome.ruling) && !Ruled(s, pc.outcome.ruling.tx)
                  && Released(pc.outcome.ruling.tx, t) in s.released)
  {
    AlwaysInv(e, actions);
    AdvanceAdds(e, After(e, actions), t, choice);
  }

  lemma AdvanceAdds(e: Env, w: Global, t: nat, choice: Choice)
    requires Inv(e, w) && t in w.threads
    ensures var pc, s, s' := w.threads[t].pc, w.shared, Apply(e, w, Advance(t, choice)).shared;
            && AddsOnly(s.states, s'.states, pc)
            && (s'.rulings != s.rulings ==>
                  pc.Settling? && pc.outcome.SaveVerdict? && s'.rulings == s.rulings + [pc.outcome.ruling]
                    && AboutToRule(s, t, pc.outcome.ruling))
  {
    hide ThreadStep, SharedOk;
    assert PcOk(e, w.shared, t, w.threads[t].pc);
    ThreadAdds(e, w.shared, t, w.threads[t].replica, w.threads[t].pc, choice);
  }
}
