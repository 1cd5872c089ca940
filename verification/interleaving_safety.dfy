/** The token invariant over whole runs, and what it says about the tokens and the rulings of
    every reachable state. */
module InterleavingSafety {
  import opened Domain
  import opened Breaker
  import opened Reference
  import opened Interleaving
  import opened InterleavingTokens

  lemma ApplyKeeps(e: Env, w: Global, a: Action)
    requires Inv(e, w) && e.Routing().Usable()
    ensures Inv(e, Apply(e, w, a))
  {
    var w' := Apply(e, w, a);
    match a
    case Arrive(t, r, call) =>
    case Tick(to) =>
      forall t | t in w'.threads
        ensures PcOk(e, w'.shared, t, w'.threads[t].pc)
      {
        TablesKeep(e, w.shared, w'.shared, t, w.threads[t].pc);
      }
      TablesKeep(e, w.shared, w'.shared, 0, Stopped);
    case Advance(t, choice) =>
      if t in w.threads {
        AdvanceKeeps(e, w, t, choice);
      }
  }

  lemma AdvanceKeeps(e: Env, w: Global, t: nat, choice: Choice)
    requires Inv(e, w) && t in w.threads && e.Routing().Usable()
    ensures Inv(e, Apply(e, w, Advance(t, choice)))
  {
    hide PcOk, Guarantee, ThreadStep, StatesOk, CachesOk, ReleasesOk, RulingsOk;
    var w' := Apply(e, w, Advance(t, choice));
    var (s', pc') := ThreadStep(e, w.shared, t, w.threads[t].replica, w.threads[t].pc, choice);
    ThreadSteps(e, w.shared, t, w.threads[t].replica, w.threads[t].pc, choice);
    ObservedKeeps(e, s', t, pc');
    forall u | u in w'.threads
      ensures PcOk(e, w'.shared, u, w'.threads[u].pc)
    {
      if u != t {
        SurvivesAdvance(e, w.shared, s', u, t, w.threads[u].pc);
      }
    }
  }

  lemma ObservedKeeps(e: Env, s: Shared, t: nat, pc: Pc)
    requires SharedOk(e, s) && PcOk(e, s, t, pc)
    ensures SharedOk(e, Observed(s)) && PcOk(e, Observed(s), t, pc)
  {
    TablesKeep(e, s, Observed(s), t, pc);
  }

  lemma SurvivesAdvance(e: Env, s: Shared, s': Shared, u: nat, t: nat, pc: Pc)
    requires PcOk(e, s, u, pc) && Guarantee(s, s', t) && SharedOk(e, s') && u != t
    ensures PcOk(e, Observed(s'), u, pc)
  {
    OthersSurvive(e, s, s', u, t, pc);
    ObservedKeeps(e, s', u, pc);
  }

  lemma {:induction false} AlwaysInv(e: Env, actions: seq<Action>)
    requires e.Routing().Usable()
    ensures Inv(e, After(e, actions))
  {
    if actions != [] {
      AlwaysInv(e, actions[..|actions| - 1]);
      ApplyKeeps(e, After(e, actions[..|actions| - 1]), actions[|actions| - 1]);
    }
  }

  // ---------------------------------------------------------------- the theorems

  /** After any interleaving: in-flight counts are list lengths within the bound, states that
      are not half-open hold no token, every stored token was acquired for its gateway and
      not yet released, no token was released twice, and every ruling out of the half-open
      phase is backed by its own token: distinct, acquired on that gateway, released, and
      unexpired at the clock reading of the thread that ruled. */
  lemma TokensAreSafe(e: Env, actions: seq<Action>, g: string)
    requires e.Routing().Usable()
    ensures var s := After(e, actions).shared;
            && (g in s.states ==>
                  && s.states[g].inFlight == |s.states[g].probes| <= e.Routing().halfOpenProbeCount
                  && (s.states[g].phase != HalfOpen ==> s.states[g].probes == [])
                  && (forall p :: p in s.states[g].probes ==> Outstanding(s, p, g)))
            && (forall i, j :: 0 <= i < j < |s.released| ==> s.released[i].tx != s.released[j].tx)
            && (forall i, j :: 0 <= i < j < |s.rulings| ==> s.rulings[i].tx != s.rulings[j].tx)
            && (forall r :: r in s.rulings ==> RulingOk(s, r))
  {
    AlwaysInv(e, actions);
  }

  /** The state a thread's next step writes by Save, if it is a Save. */
  function SaveOf(e: Env, pc: Pc): Option<RuntimeState> {
    match pc
    case Preparing(l, now, DecidePhase(state)) =>
      if l.i < |e.Gateways()| && CooldownOver(state, now) then Some(ToHalfOpen(state, now)) else None
    case Settling(_, now, DecideOutcome(state, stats)) =>
      if state.phase != HalfOpen then Some(Evaluate(state, stats, e.Routing(), now)) else None
    case Settling(_, _, SaveVerdict(state, _)) => Some(state)
    case _ => None
  }

  /** However stale the copy it was computed from, no Save writes a token; so a Save can lose
      tokens of a newer state but never resurrect or exceed them. */
  lemma NoSaveWritesTokens(e: Env, actions: seq<Action>, t: nat, choice: Choice)
    requires e.Routing().Usable() && t in After(e, actions).threads
    ensures var w := After(e, actions);
            var saved := SaveOf(e, w.threads[t].pc);
            saved.Some? ==>
              && saved.value.probes == [] && saved.value.inFlight == 0
              && Apply(e, w, Advance(t, choice)).shared.states == w.shared.states[saved.value.gateway := saved.value]
  {
    AlwaysInv(e, actions);
    assert PcOk(e, After(e, actions).shared, t, After(e, actions).threads[t].pc);
  }
}
