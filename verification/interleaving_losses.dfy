/** How a live token can leave the store: by its own release, or by a Save of some thread that
    read the gateway's state before the token was granted. The second way lets more probes
    run at once than the configuration allows. */
module InterleavingLosses {
  import opened Domain
  import opened Breaker
  import opened Reference
  import opened Interleaving
  import Freshness = InterleavingFreshness
  import Grants = InterleavingGrants
  import Safety = InterleavingSafety
  import Tokens = InterleavingTokens

  /** The token is in the stored list of g. */
  predicate Stored(states: States, g: string, p: Probe) {
    g in states && p in states[g].probes
  }

  /** The gateway and transaction a thread's next step releases, if it is a release. */
  function ReleaseOf(pc: Pc): Option<(string, string)> {
    match pc
    case Compensating(req, c, compensate) => if compensate.ReleaseToken? then Some((c.name, req.tx)) else None
    case Settling(done, _, outcome) =>
      if outcome.DecideOutcome? && outcome.found.phase == HalfOpen then Some((done.gateway, done.id)) else None
    case _ => None
  }

  predicate Releasing(pc: Pc, g: string, tx: string) {
    ReleaseOf(pc) == Some((g, tx))
  }

  predicate Saving(e: Env, pc: Pc, g: string) {
    Safety.SaveOf(e, pc).Some? && Safety.SaveOf(e, pc).value.gateway == g
  }

  /** Stored before, unexpired, and stored after exactly when the step is neither. */
  ghost predicate LeavesOnly(e: Env, a: States, b: States, clock: Time, pc: Pc) {
    forall g, p :: Stored(a, g, p) && p.Active(UnixMilli(clock)) ==>
      (Stored(b, g, p) <==> !Saving(e, pc, g) && !Releasing(pc, g, p.transactionId))
  }

  ghost predicate Idle(e: Env, pc: Pc) {
    Safety.SaveOf(e, pc).None? && ReleaseOf(pc).None?
  }

  lemma IdlePc(e: Env, pc: Pc)
    requires !pc.Settling? && !pc.Compensating? && Safety.SaveOf(e, pc).None?
    ensures Idle(e, pc)
  {
  }

  lemma SameLeaves(e: Env, a: States, clock: Time, pc: Pc)
    requires Idle(e, pc)
    ensures LeavesOnly(e, a, a, clock, pc)
  {
  }

  lemma GrownLeaves(e: Env, a: States, g: string, state: RuntimeState, clock: Time, pc: Pc)
    requires Idle(e, pc)
    requires forall p :: Stored(a, g, p) && p.Active(UnixMilli(clock)) ==> p in state.probes
    ensures LeavesOnly(e, a, a[g := state], clock, pc)
  {
  }

  lemma SavedLeaves(e: Env, a: States, state: RuntimeState, clock: Time, pc: Pc)
    requires Safety.SaveOf(e, pc) == Some(state) && state.probes == [] && ReleaseOf(pc).None?
    ensures LeavesOnly(e, a, a[state.gateway := state], clock, pc)
  {
  }

  lemma ReleasedLeaves(e: Env, a: States, g: string, tx: string, now: Time, clock: Time, pc: Pc)
    requires g in a && now <= clock && (a[g].probes != [] ==> a[g].phase == HalfOpen)
    requires Safety.SaveOf(e, pc).None? && ReleaseOf(pc) == Some((g, tx))
    ensures LeavesOnly(e, a, a[g := Release(a[g], tx, now).0], clock, pc)
  {
    UnixMilliMonotone(now, clock);
    LiveMembers(a[g].probes, UnixMilli(now));
    WithoutMembers(Live(a[g].probes, UnixMilli(now)), tx);
  }

  lemma PrunedLeaves(e: Env, a: States, g: string, now: Time, clock: Time, pc: Pc)
    requires g in a && now <= clock && Idle(e, pc)
    ensures LeavesOnly(e, a, a[g := Prune(a[g], now)], clock, pc)
  {
    UnixMilliMonotone(now, clock);
    LiveMembers(a[g].probes, UnixMilli(now));
    GrownLeaves(e, a, g, Prune(a[g], now), clock, pc);
  }

  // ---------------------------------------------------------------- steps

  ghost predicate Known(e: Env, s: Shared, t: nat, pc: Pc) {
    Tokens.SharedOk(e, s) && Tokens.PcOk(e, s, t, pc) && Freshness.PcOk(e, s, pc)
  }

  lemma StoredShape(e: Env, s: Shared, g: string)
    requires Tokens.SharedOk(e, s) && g in s.states
    ensures s.states[g].gateway == g && (s.states[g].probes != [] ==> s.states[g].phase == HalfOpen)
  {
  }

  lemma EnsureLeaves(e: Env, s: Shared, g: string, now: Time, pc: Pc)
    requires Idle(e, pc)
    ensures LeavesOnly(e, s.states, Ensure(s, g, now).states, s.clock, pc)
  {
    hide LeavesOnly, Idle;
    SameLeaves(e, s.states, s.clock, pc);
    if g !in s.states {
      GrownLeaves(e, s.states, g, Breaker.Fresh(g, now), s.clock, pc);
    }
  }

  lemma PrepareLeaves(e: Env, s: Shared, t: nat, r: nat, l: Loop, now: Time, prepare: PreparePc)
    requires Known(e, s, t, Preparing(l, now, prepare)) && l.i < |e.Gateways()|
    ensures LeavesOnly(e, s.states, PrepareStep(e, s, r, l, now, prepare).0.states, s.clock, Preparing(l, now, prepare))
  {
    hide LeavesOnly, Prune, Classify, Tokens.SharedOk, Freshness.LoopOk, Ensure;
    var pc, g := Preparing(l, now, prepare), e.Gateways()[l.i].name;
    if Safety.SaveOf(e, pc).Some? {
      assert prepare.seen.phase == Unhealthy && prepare.seen.probes == [];
      SavedLeaves(e, s.states, ToHalfOpen(prepare.seen, now), s.clock, pc);
    } else {
      IdlePc(e, pc);
      SameLeaves(e, s.states, s.clock, pc);
      if prepare.EnsureStored? {
        EnsureLeaves(e, s, g, now, pc);
      } else if prepare.PruneStored? && g in s.states {
        StoredShape(e, s, g);
        Freshness.PruneKeepsPhase(s.states[g], now);
        PrunedLeaves(e, s.states, g, now, s.clock, pc);
      }
    }
  }

  lemma InspectLeaves(e: Env, s: Shared, t: nat, r: nat, g: string, inspect: InspectPc)
    requires Known(e, s, t, Inspecting(g, inspect))
    ensures LeavesOnly(e, s.states, InspectStep(e, s, r, g, inspect).0.states, s.clock, Inspecting(g, inspect))
  {
    hide LeavesOnly, Prune, Tokens.SharedOk, Ensure;
    var pc := Inspecting(g, inspect);
    IdlePc(e, pc);
    SameLeaves(e, s.states, s.clock, pc);
    if inspect.EnsureState? {
      EnsureLeaves(e, s, g, inspect.at, pc);
    } else if inspect.PruneState? && g in s.states {
      StoredShape(e, s, g);
      Freshness.PruneKeepsPhase(s.states[g], inspect.at);
      PrunedLeaves(e, s.states, g, inspect.at, s.clock, pc);
    }
  }

  lemma AcquireHolds(state: RuntimeState, tx: string, max: int, expiresAt: Time, now: Time, clock: Time)
    requires now <= clock
    ensures var state' := Acquire(state, tx, max, expiresAt, now).0;
            && state'.gateway == state.gateway
            && forall p :: p in state.probes && p.Active(UnixMilli(clock)) ==> p in state'.probes
  {
    UnixMilliMonotone(now, clock);
    LiveMembers(state.probes, UnixMilli(now));
  }

  lemma ProbeLeaves(
      e: Env, s: Shared, t: nat, r: nat, req: Request, c: GatewayConfig, healthy: seq<GatewayConfig>,
      probe: ProbePc)
    requires Known(e, s, t, Probing(req, c, healthy, probe))
    ensures LeavesOnly(e, s.states, ProbeStep(e, s, r, req, c, healthy, probe).0.states, s.clock,
                       Probing(req, c, healthy, probe))
  {
    hide LeavesOnly, Acquire, Tokens.SharedOk;
    var pc := Probing(req, c, healthy, probe);
    IdlePc(e, pc);
    SameLeaves(e, s.states, s.clock, pc);
    if probe.AcquireToken? && c.name in s.states {
      var max, expiresAt := e.Routing().halfOpenProbeCount, probe.at + e.Routing().ProbeTimeout();
      StoredShape(e, s, c.name);
      AcquireHolds(s.states[c.name], req.tx, max, expiresAt, probe.at, s.clock);
      GrownLeaves(e, s.states, c.name, Acquire(s.states[c.name], req.tx, max, expiresAt, probe.at).0, s.clock, pc);
    }
  }

  lemma NothingStored(e: Env, a: States, g: string, b: States, clock: Time, pc: Pc)
    requires g !in a && a == b && Safety.SaveOf(e, pc).None? && ReleaseOf(pc).Some? && ReleaseOf(pc).value.0 == g
    ensures LeavesOnly(e, a, b, clock, pc)
  {
  }

  lemma IdleCompensation(e: Env, req: Request, c: GatewayConfig, compensate: CompensatePc)
    requires !compensate.ReleaseToken?
    ensures Idle(e, Compensating(req, c, compensate))
  {
  }

  lemma CompensateLeaves(e: Env, s: Shared, t: nat, r: nat, req: Request, c: GatewayConfig, compensate: CompensatePc)
    requires Known(e, s, t, Compensating(req, c, compensate))
    ensures LeavesOnly(e, s.states, CompensateStep(e, s, t, r, req, c, compensate).0.states, s.clock,
                       Compensating(req, c, compensate))
  {
    hide LeavesOnly, Release, Tokens.SharedOk;
    var pc := Compensating(req, c, compensate);
    if !compensate.ReleaseToken? {
      IdleCompensation(e, req, c, compensate);
      SameLeaves(e, s.states, s.clock, pc);
    } else if c.name in s.states {
      StoredShape(e, s, c.name);
      Freshness.TokenKeepsPhase(s.states[c.name], req.tx, 0, 0, compensate.at);
      ReleasedLeaves(e, s.states, c.name, req.tx, compensate.at, s.clock, pc);
    } else {
      NothingStored(e, s.states, c.name, s.states, s.clock, pc);
    }
  }

  lemma RuleLeaves(e: Env, s: Shared, t: nat, done: Transaction, now: Time, stats: Stats, state: RuntimeState)
    requires Tokens.SharedOk(e, s) && now <= s.clock && state.phase == HalfOpen
    ensures LeavesOnly(e, s.states, ReleaseAndRule(e, s, t, done, now).0.states, s.clock,
                       Settling(done, now, DecideOutcome(state, stats)))
  {
    hide LeavesOnly, Release, Tokens.SharedOk, Breaker.Verdict, ExpiryOf;
    var pc, g := Settling(done, now, DecideOutcome(state, stats)), done.gateway;
    if g in s.states {
      StoredShape(e, s, g);
      Freshness.TokenKeepsPhase(s.states[g], done.id, 0, 0, now);
      ReleasedLeaves(e, s.states, g, done.id, now, s.clock, pc);
    } else {
      NothingStored(e, s.states, g, s.states, s.clock, pc);
    }
  }

  lemma OutcomeLeaves(e: Env, s: Shared, t: nat, r: nat, done: Transaction, now: Time, outcome: OutcomePc)
    requires Known(e, s, t, Settling(done, now, outcome))
    ensures LeavesOnly(e, s.states, OutcomeStep(e, s, t, r, done, now, outcome).0.states, s.clock,
                       Settling(done, now, outcome))
  {
    hide LeavesOnly, Tokens.SharedOk, Tokens.AboutToRule, ReleaseAndRule, Evaluate, WindowStats, EventsAfter, LogAfter,
         Ensure, Idle;
    var pc := Settling(done, now, outcome);
    match outcome
    case DecideOutcome(state, stats) =>
      if state.phase == HalfOpen {
        RuleLeaves(e, s, t, done, now, stats, state);
      } else {
        Grants.EvaluateHoldsNone(e, state, stats, now);
        SavedLeaves(e, s.states, Evaluate(state, stats, e.Routing(), now), s.clock, pc);
      }
    case SaveVerdict(state, _) => SavedLeaves(e, s.states, state, s.clock, pc);
    case EnsureGateway =>
      IdleOutcome(e, done, now, outcome);
      EnsureLeaves(e, s, done.gateway, now, pc);
    case _ =>
      IdleOutcome(e, done, now, outcome);
      SameLeaves(e, s.states, s.clock, pc);
  }

  lemma IdleOutcome(e: Env, done: Transaction, now: Time, outcome: OutcomePc)
    requires !outcome.DecideOutcome? && !outcome.SaveVerdict?
    ensures Idle(e, Settling(done, now, outcome))
  {
  }

  lemma ThreadLeaves(e: Env, s: Shared, t: nat, r: nat, pc: Pc, choice: Choice)
    requires Known(e, s, t, pc)
    ensures LeavesOnly(e, s.states, ThreadStep(e, s, t, r, pc, choice).0.states, s.clock, pc)
  {
    hide LeavesOnly, Known, PrepareStep, ProbeStep, CompensateStep, OutcomeStep, InspectStep, SubmitStep;
    match pc
    case Preparing(l, now, prepare) =>
      if l.i < |e.Gateways()| {
        PrepareLeaves(e, s, t, r, l, now, prepare);
      } else {
        IdlePc(e, pc);
        SameLeaves(e, s.states, s.clock, pc);
      }
    case Probing(req, c, healthy, probe) => ProbeLeaves(e, s, t, r, req, c, healthy, probe);
    case Compensating(req, c, compensate) => CompensateLeaves(e, s, t, r, req, c, compensate);
    case Settling(done, now, outcome) => OutcomeLeaves(e, s, t, r, done, now, outcome);
    case Inspecting(g, inspect) => InspectLeaves(e, s, t, r, g, inspect);
    case _ =>
      Grants.PlainAdds(e, s, t, r, pc, choice);
      IdlePc(e, pc);
      SameLeaves(e, s.states, s.clock, pc);
  }

  /** After any interleaving, a step removes an unexpired token from the store exactly when it
      is a Save on that gateway, or the release of that token's transaction. Pruning,
      acquisition and the first sight of a gateway never lose one. */
  lemma TokenLeavesExactlyWhen(e: Env, actions: seq<Action>, t: nat, choice: Choice, g: string, p: Probe)
    requires e.Routing().Usable() && Freshness.Cautious(e) && t in After(e, actions).threads
    requires Stored(After(e, actions).shared.states, g, p) && p.Active(UnixMilli(After(e, actions).shared.clock))
    ensures var w := After(e, actions);
            Stored(Apply(e, w, Advance(t, choice)).shared.states, g, p)
            <==> !Saving(e, w.threads[t].pc, g) && !Releasing(w.threads[t].pc, g, p.transactionId)
  {
    hide ThreadStep, Tokens.SharedOk, Freshness.SharedOk;
    var w := After(e, actions);
    Safety.AlwaysInv(e, actions);
    Freshness.AlwaysInv(e, actions);
    assert Known(e, w.shared, t, w.threads[t].pc);
    ThreadLeaves(e, w.shared, t, w.threads[t].replica, w.threads[t].pc, choice);
  }

  // ---------------------------------------------------------------- over a whole run

  /** The action is no Save on g and no release of tx there. */
  ghost predicate Spares(e: Env, w: Global, a: Action, g: string, tx: string) {
    a.Advance? && a.thread in w.threads ==>
      !Saving(e, w.threads[a.thread].pc, g) && !Releasing(w.threads[a.thread].pc, g, tx)
  }

  ghost predicate Undisturbed(e: Env, actions: seq<Action>, k: nat, g: string, tx: string) {
    forall i :: k <= i < |actions| ==> Spares(e, After(e, actions[..i]), actions[i], g, tx)
  }

  lemma UndisturbedStep(e: Env, actions: seq<Action>, k: nat, g: string, tx: string)
    requires k < |actions|
    ensures var rest := actions[..|actions| - 1];
            Undisturbed(e, actions, k, g, tx)
            <==> Undisturbed(e, rest, k, g, tx) && Spares(e, After(e, rest), actions[|actions| - 1], g, tx)
  {
    hide After, Spares;
    var n := |actions| - 1;
    var rest := actions[..n];
    assert forall i :: 0 <= i <= n ==> rest[..i] == actions[..i];
    if Undisturbed(e, actions, k, g, tx) {
      forall i | k <= i < n
        ensures Spares(e, After(e, rest[..i]), rest[i], g, tx)
      {
        assert Spares(e, After(e, actions[..i]), actions[i], g, tx);
      }
      assert Spares(e, After(e, actions[..n]), actions[n], g, tx);
    }
    if Undisturbed(e, rest, k, g, tx) && Spares(e, After(e, rest), actions[n], g, tx) {
      forall i | k <= i < |actions|
        ensures Spares(e, After(e, actions[..i]), actions[i], g, tx)
      {
        if i < n {
          assert Spares(e, After(e, rest[..i]), rest[i], g, tx);
        }
      }
    }
  }

  lemma AcquiredStays(e: Env, w: Global, t: nat, choice: Choice, tx: string)
    requires Tokens.Inv(e, w) && e.Routing().Usable() && t in w.threads && tx in w.shared.acquired
    ensures tx in Apply(e, w, Advance(t, choice)).shared.acquired
  {
    hide ThreadStep, Tokens.SharedOk, Tokens.PcOk;
    assert Tokens.PcOk(e, w.shared, t, w.threads[t].pc);
    Tokens.ThreadSteps(e, w.shared, t, w.threads[t].replica, w.threads[t].pc, choice);
  }

  /** An acquired token that has left the store does not come back. */
  lemma GoneForGood(e: Env, w: Global, t: nat, choice: Choice, g: string, p: Probe)
    requires Tokens.Inv(e, w) && t in w.threads && p.transactionId in w.shared.acquired
    requires !Stored(w.shared.states, g, p)
    ensures !Stored(Apply(e, w, Advance(t, choice)).shared.states, g, p)
  {
    hide Apply, Tokens.SharedOk;
    assert Tokens.PcOk(e, w.shared, t, w.threads[t].pc);
    Grants.AdvanceAdds(e, w, t, choice);
  }

  lemma StillAction(e: Env, w: Global, a: Action)
    requires !(a.Advance? && a.thread in w.threads)
    ensures Apply(e, w, a).shared.states == w.shared.states && Apply(e, w, a).shared.acquired == w.shared.acquired
  {
  }

  /** Only steps of threads change the store, and history is kept. */
  lemma ActionKeeps(e: Env, w: Global, a: Action, g: string, p: Probe)
    requires Tokens.Inv(e, w) && e.Routing().Usable() && p.transactionId in w.shared.acquired
    ensures var w' := Apply(e, w, a);
            && p.transactionId in w'.shared.acquired
            && (!(a.Advance? && a.thread in w.threads) ==> w'.shared.states == w.shared.states)
            && (!Stored(w.shared.states, g, p) ==> !Stored(w'.shared.states, g, p))
  {
    hide Apply, Tokens.Inv, Stored;
    if a.Advance? && a.thread in w.threads {
      AcquiredStays(e, w, a.thread, a.choice, p.transactionId);
      if !Stored(w.shared.states, g, p) {
        GoneForGood(e, w, a.thread, a.choice, g, p);
      }
    } else {
      StillAction(e, w, a);
    }
  }

  lemma ClockStays(e: Env, s: Shared, t: nat, r: nat, pc: Pc, choice: Choice)
    ensures ThreadStep(e, s, t, r, pc, choice).0.clock == s.clock
  {
    hide BeginStep, SnapshotStep, LoopStep, PrepareStep, ChooseStep, ChooseHealthyStep, ProbeStep, SubmitStep,
         CompensateStep, ReceiveStep, CompleteStep, OutcomeStep, BlacklistStep, InspectStep;
  }

  /** Over any stretch of any run: a token in the store at its start and still unexpired at
      its end is in the store at the end exactly when the stretch holds neither a Save on its
      gateway nor its own release. */
  lemma {:induction false} TokenSurvivesExactlyWhen(e: Env, actions: seq<Action>, k: nat, g: string, p: Probe)
    requires e.Routing().Usable() && Freshness.Cautious(e) && k <= |actions|
    requires Stored(After(e, actions[..k]).shared.states, g, p) && p.Active(UnixMilli(After(e, actions).shared.clock))
    ensures Stored(After(e, actions).shared.states, g, p) <==> Undisturbed(e, actions, k, g, p.transactionId)
    ensures p.transactionId in After(e, actions).shared.acquired
  {
    hide ThreadStep, Apply, Tokens.SharedOk, Undisturbed;
    if k == |actions| {
      assert actions[..k] == actions;
      StoredIsAcquired(e, actions, g, p);
      assert Undisturbed(e, actions, k, g, p.transactionId) by { NothingHappened(e, actions, g, p.transactionId); }
    } else {
      var n := |actions| - 1;
      var rest, a := actions[..n], actions[n];
      assert rest[..k] == actions[..k];
      ClockGrows(e, After(e, rest), a);
      UnixMilliMonotone(After(e, rest).shared.clock, After(e, actions).shared.clock);
      TokenSurvivesExactlyWhen(e, rest, k, g, p);
      UndisturbedStep(e, actions, k, g, p.transactionId);
      Safety.AlwaysInv(e, rest);
      ActionKeeps(e, After(e, rest), a, g, p);
      if a.Advance? && a.thread in After(e, rest).threads && Stored(After(e, rest).shared.states, g, p) {
        TokenLeavesExactlyWhen(e, rest, a.thread, a.choice, g, p);
      }
    }
  }

  lemma NothingHappened(e: Env, actions: seq<Action>, g: string, tx: string)
    ensures Undisturbed(e, actions, |actions|, g, tx)
  {
  }

  lemma ClockGrows(e: Env, w: Global, a: Action)
    ensures w.shared.clock <= Apply(e, w, a).shared.clock
  {
    hide ThreadStep;
    if a.Advance? && a.thread in w.threads {
      ClockStays(e, w.shared, a.thread, w.threads[a.thread].replica, w.threads[a.thread].pc, a.choice);
    }
  }

  lemma StoredIsAcquired(e: Env, actions: seq<Action>, g: string, p: Probe)
    requires e.Routing().Usable() && Stored(After(e, actions).shared.states, g, p)
    ensures p.transactionId in After(e, actions).shared.acquired
  {
    Safety.AlwaysInv(e, actions);
    hide After;
    assert Tokens.Outstanding(After(e, actions).shared, p, g);
  }
}
