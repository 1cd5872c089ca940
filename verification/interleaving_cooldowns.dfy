/** How a gateway leaves the unhealthy phase under interleavings: by the Save of a thread whose
    own copy says so, however old that copy is. While the cooldown runs, every such copy is
    older than the cooldown it ends. */
module InterleavingCooldowns {
  import opened Domain
  import opened Breaker
  import opened Reference
  import opened Interleaving
  import opened InterleavingLosses
  import Freshness = InterleavingFreshness
  import Grants = InterleavingGrants
  import Safety = InterleavingSafety
  import Tokens = InterleavingTokens

  predicate Down(states: States, g: string) {
    g in states && states[g].phase == Unhealthy
  }

  /** The next step saves a state of g that is not unhealthy: the cooldown of the thread's copy
      is over, or its copy is healthy and the window it counted does not trip, or it rules
      for recovery. */
  predicate Reopens(e: Env, pc: Pc, g: string) {
    match pc
    case Preparing(l, now, DecidePhase(seen)) => l.i < |e.Gateways()| && seen.gateway == g && CooldownOver(seen, now)
    case Settling(_, now, DecideOutcome(found, stats)) =>
      && found.gateway == g
      && match found.phase {
           case Healthy => !TooManyFailures(stats.successes, stats.failures, e.Routing())
           case Unhealthy => found.unhealthyUntil.None? || now >= found.unhealthyUntil.value
           case HalfOpen => false
         }
    case Settling(_, _, SaveVerdict(verdict, _)) => verdict.gateway == g && verdict.phase != Unhealthy
    case _ => false
  }

  /** What was unhealthy stays as it is, unless the step is a Save on it. */
  ghost predicate SaveMoves(e: Env, a: States, b: States, pc: Pc) {
    forall g :: Down(a, g) ==>
      g in b && b[g] == if Saving(e, pc, g) then Safety.SaveOf(e, pc).value else a[g]
  }

  lemma SameMoves(e: Env, a: States, pc: Pc)
    requires Safety.SaveOf(e, pc).None?
    ensures SaveMoves(e, a, a, pc)
  {
  }

  lemma PutMoves(e: Env, a: States, state: RuntimeState, pc: Pc)
    requires Safety.SaveOf(e, pc).None? && (Down(a, state.gateway) ==> state == a[state.gateway])
    ensures SaveMoves(e, a, a[state.gateway := state], pc)
  {
  }

  lemma SavedMoves(e: Env, a: States, state: RuntimeState, pc: Pc)
    requires Safety.SaveOf(e, pc) == Some(state)
    ensures SaveMoves(e, a, a[state.gateway := state], pc)
  {
  }

  lemma EnsureMoves(e: Env, s: Shared, g: string, now: Time, pc: Pc)
    requires Safety.SaveOf(e, pc).None?
    ensures SaveMoves(e, s.states, Ensure(s, g, now).states, pc)
  {
    hide SaveMoves;
    if g in s.states {
      SameMoves(e, s.states, pc);
    } else {
      PutMoves(e, s.states, Breaker.Fresh(g, now), pc);
    }
  }

  /** Outside the half-open phase the token calls write back what they read. */
  lemma TokenCallsKeep(state: RuntimeState, tx: string, max: int, expiresAt: Time, now: Time)
    ensures Prune(state, now).gateway == Release(state, tx, now).0.gateway == state.gateway
    ensures Acquire(state, tx, max, expiresAt, now).0.gateway == state.gateway
    ensures state.phase != HalfOpen ==>
              Prune(state, now) == Acquire(state, tx, max, expiresAt, now).0 == Release(state, tx, now).0 == state
  {
  }

  /** A token call on g's stored state. */
  lemma TokenCallMoves(e: Env, s: Shared, g: string, state: RuntimeState, pc: Pc)
    requires Tokens.SharedOk(e, s) && g in s.states && Safety.SaveOf(e, pc).None?
    requires state.gateway == s.states[g].gateway && (s.states[g].phase != HalfOpen ==> state == s.states[g])
    ensures SaveMoves(e, s.states, Store(s, state).states, pc)
  {
    StoredShape(e, s, g);
    PutMoves(e, s.states, state, pc);
  }

  lemma PrepareMoves(e: Env, s: Shared, r: nat, l: Loop, now: Time, prepare: PreparePc)
    requires Tokens.SharedOk(e, s) && l.i < |e.Gateways()|
    ensures SaveMoves(e, s.states, PrepareStep(e, s, r, l, now, prepare).0.states, Preparing(l, now, prepare))
  {
    hide SaveMoves, Prune, Classify, Tokens.SharedOk, Ensure;
    var pc, g := Preparing(l, now, prepare), e.Gateways()[l.i].name;
    if Safety.SaveOf(e, pc).Some? {
      SavedMoves(e, s.states, ToHalfOpen(prepare.seen, now), pc);
    } else {
      SameMoves(e, s.states, pc);
      if prepare.EnsureStored? {
        EnsureMoves(e, s, g, now, pc);
      } else if prepare.PruneStored? && g in s.states {
        TokenCallsKeep(s.states[g], "", 0, 0, now);
        TokenCallMoves(e, s, g, Prune(s.states[g], now), pc);
      }
    }
  }

  lemma InspectMoves(e: Env, s: Shared, r: nat, g: string, inspect: InspectPc)
    requires Tokens.SharedOk(e, s)
    ensures SaveMoves(e, s.states, InspectStep(e, s, r, g, inspect).0.states, Inspecting(g, inspect))
  {
    hide SaveMoves, Prune, Tokens.SharedOk, Ensure;
    var pc := Inspecting(g, inspect);
    SameMoves(e, s.states, pc);
    if inspect.EnsureState? {
      EnsureMoves(e, s, g, inspect.at, pc);
    } else if inspect.PruneState? && g in s.states {
      TokenCallsKeep(s.states[g], "", 0, 0, inspect.at);
      TokenCallMoves(e, s, g, Prune(s.states[g], inspect.at), pc);
    }
  }

  lemma ProbeMoves(
      e: Env, s: Shared, r: nat, req: Request, c: GatewayConfig, healthy: seq<GatewayConfig>, probe: ProbePc)
    requires Tokens.SharedOk(e, s)
    ensures SaveMoves(e, s.states, ProbeStep(e, s, r, req, c, healthy, probe).0.states, Probing(req, c, healthy, probe))
  {
    hide SaveMoves, Acquire, Tokens.SharedOk;
    var pc := Probing(req, c, healthy, probe);
    SameMoves(e, s.states, pc);
    if probe.AcquireToken? && c.name in s.states {
      var max, expiresAt := e.Routing().halfOpenProbeCount, probe.at + e.Routing().ProbeTimeout();
      TokenCallsKeep(s.states[c.name], req.tx, max, expiresAt, probe.at);
      TokenCallMoves(e, s, c.name, Acquire(s.states[c.name], req.tx, max, expiresAt, probe.at).0, pc);
    }
  }

  lemma CompensateMoves(e: Env, s: Shared, t: nat, r: nat, req: Request, c: GatewayConfig, compensate: CompensatePc)
    requires Tokens.SharedOk(e, s)
    ensures SaveMoves(e, s.states, CompensateStep(e, s, t, r, req, c, compensate).0.states,
                      Compensating(req, c, compensate))
  {
    hide SaveMoves, Release, Tokens.SharedOk;
    var pc := Compensating(req, c, compensate);
    SameMoves(e, s.states, pc);
    if compensate.ReleaseToken? && c.name in s.states {
      TokenCallsKeep(s.states[c.name], req.tx, 0, 0, compensate.at);
      TokenCallMoves(e, s, c.name, Release(s.states[c.name], req.tx, compensate.at).0, pc);
    }
  }

  lemma WrittenStates(s: Shared, state: RuntimeState, tx: string, t: nat, held: bool)
    ensures StoreReleased(s, state, tx, t, held).states == Store(s, state).states
  {
  }

  lemma RuleMoves(e: Env, s: Shared, t: nat, done: Transaction, now: Time, pc: Pc)
    requires Tokens.SharedOk(e, s) && Safety.SaveOf(e, pc).None?
    ensures SaveMoves(e, s.states, ReleaseAndRule(e, s, t, done, now).0.states, pc)
  {
    hide SaveMoves, Release, Tokens.SharedOk, Breaker.Verdict, ExpiryOf, Down, StoreReleased;
    SameMoves(e, s.states, pc);
    if done.gateway in s.states {
      var (state, held) := Release(s.states[done.gateway], done.id, now);
      TokenCallsKeep(s.states[done.gateway], done.id, 0, 0, now);
      TokenCallMoves(e, s, done.gateway, state, pc);
      WrittenStates(s, state, done.id, t, held);
    }
  }

  lemma OutcomeMoves(e: Env, s: Shared, t: nat, r: nat, done: Transaction, now: Time, outcome: OutcomePc)
    requires Tokens.SharedOk(e, s)
    ensures SaveMoves(e, s.states, OutcomeStep(e, s, t, r, done, now, outcome).0.states, Settling(done, now, outcome))
  {
    hide SaveMoves, Tokens.SharedOk, ReleaseAndRule, Evaluate, WindowStats, EventsAfter, LogAfter, Ensure;
    var pc := Settling(done, now, outcome);
    match outcome
    case DecideOutcome(state, stats) =>
      if state.phase == HalfOpen {
        RuleMoves(e, s, t, done, now, pc);
      } else {
        SavedMoves(e, s.states, Evaluate(state, stats, e.Routing(), now), pc);
      }
    case SaveVerdict(state, _) => SavedMoves(e, s.states, state, pc);
    case EnsureGateway => EnsureMoves(e, s, done.gateway, now, pc);
    case _ => SameMoves(e, s.states, pc);
  }

  lemma ThreadMoves(e: Env, s: Shared, t: nat, r: nat, pc: Pc, choice: Choice)
    requires Tokens.SharedOk(e, s)
    ensures SaveMoves(e, s.states, ThreadStep(e, s, t, r, pc, choice).0.states, pc)
  {
    hide SaveMoves, PrepareStep, ProbeStep, CompensateStep, OutcomeStep, InspectStep, SubmitStep, Tokens.SharedOk;
    match pc
    case Preparing(l, now, prepare) =>
      if l.i < |e.Gateways()| {
        PrepareMoves(e, s, r, l, now, prepare);
      } else {
        SameMoves(e, s.states, pc);
      }
    case Probing(req, c, healthy, probe) => ProbeMoves(e, s, r, req, c, healthy, probe);
    case Compensating(req, c, compensate) => CompensateMoves(e, s, t, r, req, c, compensate);
    case Settling(done, now, outcome) => OutcomeMoves(e, s, t, r, done, now, outcome);
    case Inspecting(g, inspect) => InspectMoves(e, s, r, g, inspect);
    case _ =>
      Grants.PlainAdds(e, s, t, r, pc, choice);
      SameMoves(e, s.states, pc);
  }

  /** The guard of the thread's branch decides what it saves. */
  lemma ReopensExactlyWhen(e: Env, pc: Pc, g: string)
    requires e.Routing().Usable()
    ensures Reopens(e, pc, g) <==> Saving(e, pc, g) && Safety.SaveOf(e, pc).value.phase != Unhealthy
  {
    hide Breached, TooManyFailures;
    match pc
    case Settling(_, _, DecideOutcome(_, stats)) => BreachIsTooManyFailures(stats, e.Routing());
    case _ =>
  }

  /** A thread that has read the running cooldown itself does not end it. */
  lemma ReopeningIsUnaware(e: Env, s: Shared, pc: Pc, g: string)
    requires Freshness.PcOk(e, s, pc) && Reopens(e, pc, g) && Down(s.states, g)
    requires s.states[g].unhealthyUntil.Some? && s.clock < s.states[g].unhealthyUntil.value
    ensures Tokens.Carried(pc).Some? && Tokens.Carried(pc).value != s.states[g]
  {
  }

  /** After any interleaving, a step takes g out of the unhealthy phase exactly when it is such
      a Save; every other step, and every other Save, leaves it unhealthy, and every step but
      a Save on g leaves the whole state as it is. A Save that does so before the deadline is
      made by a thread that has not read the cooldown it ends. */
  lemma CooldownEndsExactlyWhen(e: Env, actions: seq<Action>, t: nat, choice: Choice, g: string)
    requires e.Routing().Usable() && Freshness.Cautious(e) && t in After(e, actions).threads
    requires Down(After(e, actions).shared.states, g)
    ensures var w := After(e, actions);
            var pc, states, states' := w.threads[t].pc, w.shared.states, Apply(e, w, Advance(t, choice)).shared.states;
            && states[g].unhealthyUntil.Some?
            && (!Down(states', g) <==> Reopens(e, pc, g))
            && (!Saving(e, pc, g) ==> g in states' && states'[g] == states[g])
            && (Reopens(e, pc, g) && w.shared.clock < states[g].unhealthyUntil.value ==>
                  Tokens.Carried(pc).Some? && Tokens.Carried(pc).value != states[g])
  {
    hide After, ThreadStep;
    var w := After(e, actions);
    var pc := w.threads[t].pc;
    Safety.AlwaysInv(e, actions);
    Freshness.AlwaysInv(e, actions);
    ThreadMoves(e, w.shared, t, w.threads[t].replica, pc, choice);
    ReopensExactlyWhen(e, pc, g);
    if Reopens(e, pc, g) && w.shared.clock < w.shared.states[g].unhealthyUntil.value {
      ReopeningIsUnaware(e, w.shared, pc, g);
    }
  }

  // ---------------------------------------------------------------- over a whole run

  predicate Reopening(e: Env, w: Global, a: Action, g: string) {
    a.Advance? && a.thread in w.threads && Reopens(e, w.threads[a.thread].pc, g)
  }

  lemma CooldownStep(e: Env, actions: seq<Action>, a: Action, g: string)
    requires e.Routing().Usable() && Freshness.Cautious(e) && Down(After(e, actions).shared.states, g)
    ensures Down(Apply(e, After(e, actions), a).shared.states, g) <==> !Reopening(e, After(e, actions), a, g)
  {
    hide After, ThreadStep, Reopens;
    if a.Advance? && a.thread in After(e, actions).threads {
      CooldownEndsExactlyWhen(e, actions, a.thread, a.choice, g);
    }
  }

  /** g is unhealthy after the first k actions and after each one since. */
  ghost predicate DownSince(e: Env, actions: seq<Action>, k: nat, g: string) {
    forall j :: k <= j <= |actions| ==> Down(After(e, actions[..j]).shared.states, g)
  }

  ghost predicate NeverReopened(e: Env, actions: seq<Action>, k: nat, g: string) {
    forall i :: k <= i < |actions| ==> !Reopening(e, After(e, actions[..i]), actions[i], g)
  }

  lemma PrefixAfter(e: Env, actions: seq<Action>, i: nat)
    requires i < |actions|
    ensures After(e, actions[..i + 1]) == Apply(e, After(e, actions[..i]), actions[i])
  {
    assert actions[..i + 1][..i] == actions[..i];
  }

  /** Over any stretch of any run a gateway stays unhealthy exactly as long as no thread acts on
      a copy that lets it out. */
  lemma {:induction false} CooldownLastsExactlyWhen(e: Env, actions: seq<Action>, k: nat, g: string)
    requires e.Routing().Usable() && Freshness.Cautious(e) && k <= |actions|
    requires Down(After(e, actions[..k]).shared.states, g)
    ensures DownSince(e, actions, k, g) <==> NeverReopened(e, actions, k, g)
  {
    hide After, Apply, Reopening, Down;
    if NeverReopened(e, actions, k, g) {
      for j := k to |actions|
        invariant forall i :: k <= i <= j ==> Down(After(e, actions[..i]).shared.states, g)
      {
        PrefixAfter(e, actions, j);
        CooldownStep(e, actions[..j], actions[j], g);
      }
    }
    if DownSince(e, actions, k, g) {
      forall i | k <= i < |actions|
        ensures !Reopening(e, After(e, actions[..i]), actions[i], g)
      {
        PrefixAfter(e, actions, i);
        CooldownStep(e, actions[..i], actions[i], g);
      }
    }
  }
}
