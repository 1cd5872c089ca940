/** How many probes of a gateway can be under way at once, under every interleaving: those in
    its stored list, which the configured count bounds, and those a Save has written over. */
module InterleavingUnderWay {
  import opened Domain
  import opened Breaker
  import opened Reference
  import opened Interleaving
  import opened InterleavingLosses
  import Freshness = InterleavingFreshness
  import Safety = InterleavingSafety
  import Tokens = InterleavingTokens

  /** A probe of tx on g has been granted, has not been released, and is unexpired. */
  ghost predicate UnderWay(s: Shared, g: string, tx: string) {
    && Tokens.Held(s, tx, g)
    && TokenOf(s, tx).Active(UnixMilli(s.clock))
  }

  function TokenOf(s: Shared, tx: string): Probe
    requires tx in s.acquired
  {
    Probe(tx, s.acquired[tx].expiresAtMilli)
  }

  /** The action saves g's state while the stored list still holds the token. */
  ghost predicate SavesOver(e: Env, w: Global, a: Action, g: string, p: Probe) {
    a.Advance? && a.thread in w.threads && Saving(e, w.threads[a.thread].pc, g) && Stored(w.shared.states, g, p)
  }

  ghost predicate Overwritten(e: Env, actions: seq<Action>, g: string, p: Probe) {
    exists i :: 0 <= i < |actions| && SavesOver(e, After(e, actions[..i]), actions[i], g, p)
  }

  lemma OverwrittenStep(e: Env, actions: seq<Action>, g: string, p: Probe)
    requires actions != []
    ensures var rest := actions[..|actions| - 1];
            Overwritten(e, actions, g, p)
            <==> Overwritten(e, rest, g, p) || SavesOver(e, After(e, rest), actions[|actions| - 1], g, p)
  {
    hide After, SavesOver;
    var n := |actions| - 1;
    var rest := actions[..n];
    assert forall i :: 0 <= i <= n ==> rest[..i] == actions[..i];
    if Overwritten(e, rest, g, p) {
      var i :| 0 <= i < n && SavesOver(e, After(e, rest[..i]), rest[i], g, p);
      assert SavesOver(e, After(e, actions[..i]), actions[i], g, p);
    }
    if SavesOver(e, After(e, rest), actions[n], g, p) {
      assert SavesOver(e, After(e, actions[..n]), actions[n], g, p);
    }
    if Overwritten(e, actions, g, p) {
      var i :| 0 <= i < |actions| && SavesOver(e, After(e, actions[..i]), actions[i], g, p);
      if i < n {
        assert SavesOver(e, After(e, rest[..i]), rest[i], g, p);
      }
    }
  }

  // ---------------------------------------------------------------- one step

  lemma HistoryGrows(e: Env, w: Global, a: Action)
    requires Tokens.Inv(e, w) && e.Routing().Usable()
    ensures var s, s' := w.shared, Apply(e, w, a).shared;
            && (forall tx :: tx in s.acquired ==> tx in s'.acquired && s'.acquired[tx] == s.acquired[tx])
            && s.released <= s'.released
  {
    hide ThreadStep, Tokens.SharedOk, Tokens.PcOk;
    if a.Advance? && a.thread in w.threads {
      assert Tokens.PcOk(e, w.shared, a.thread, w.threads[a.thread].pc);
      Tokens.ThreadSteps(e, w.shared, a.thread, w.threads[a.thread].replica, w.threads[a.thread].pc, a.choice);
    }
  }

  lemma WasUnderWay(e: Env, w: Global, a: Action, g: string, tx: string)
    requires Tokens.Inv(e, w) && e.Routing().Usable() && tx in w.shared.acquired
    requires UnderWay(Apply(e, w, a).shared, g, tx)
    ensures UnderWay(w.shared, g, tx) && TokenOf(w.shared, tx) == TokenOf(Apply(e, w, a).shared, tx)
  {
    hide Apply, Tokens.Inv;
    var s, s' := w.shared, Apply(e, w, a).shared;
    HistoryGrows(e, w, a);
    ClockGrows(e, w, a);
    UnixMilliMonotone(s.clock, s'.clock);
  }

  /** What a step that grants a token does: it is an acquisition, and the token is stored. */
  lemma NewGrantIsStored(e: Env, s: Shared, t: nat, r: nat, pc: Pc, choice: Choice, tx: string)
    requires Tokens.SharedOk(e, s) && tx !in s.acquired && tx in ThreadStep(e, s, t, r, pc, choice).0.acquired
    ensures var s' := ThreadStep(e, s, t, r, pc, choice).0;
            && Safety.SaveOf(e, pc).None?
            && Stored(s'.states, s'.acquired[tx].gateway, TokenOf(s', tx))
  {
    hide BeginStep, SnapshotStep, LoopStep, PrepareStep, ChooseStep, ChooseHealthyStep, SubmitStep, CompensateStep,
         ReceiveStep, CompleteStep, OutcomeStep, BlacklistStep, InspectStep, ProbeStep;
    assert pc.Probing?;
    if !(pc.probe.AcquireToken? && pc.choice.name in s.states) {
      OnlyAcquisitionGrants(e, s, r, pc.req, pc.choice, pc.healthy, pc.probe);
      assert false;
    }
    GrantIsStored(e, s, r, pc.req, pc.choice, pc.healthy, pc.probe, tx);
  }

  lemma AcquiredIsLast(state: RuntimeState, tx: string, max: int, expiresAt: Time, now: Time)
    ensures var (state', acquired) := Acquire(state, tx, max, expiresAt, now);
            state'.gateway == state.gateway && (acquired ==> Probe(tx, UnixMilli(expiresAt)) in state'.probes)
  {
    var probes := Acquire(state, tx, max, expiresAt, now).0.probes;
    assert Acquire(state, tx, max, expiresAt, now).1 ==> probes[|probes| - 1] == Probe(tx, UnixMilli(expiresAt));
  }

  lemma OnlyAcquisitionGrants(
      e: Env, s: Shared, r: nat, req: Request, c: GatewayConfig, healthy: seq<GatewayConfig>, probe: ProbePc)
    requires !(probe.AcquireToken? && c.name in s.states)
    ensures ProbeStep(e, s, r, req, c, healthy, probe).0.acquired == s.acquired
  {
  }

  lemma WrittenIsStored(s: Shared, state: RuntimeState, token: Probe, acquired: bool, tx: string)
    requires tx !in s.acquired && tx in StoreAcquired(s, state, token, acquired).acquired
    requires acquired ==> token in state.probes
    ensures var s' := StoreAcquired(s, state, token, acquired);
            Stored(s'.states, s'.acquired[tx].gateway, TokenOf(s', tx))
  {
  }

  lemma GrantIsStored(
      e: Env, s: Shared, r: nat, req: Request, c: GatewayConfig, healthy: seq<GatewayConfig>, probe: ProbePc,
      tx: string)
    requires Tokens.SharedOk(e, s) && tx !in s.acquired && tx in ProbeStep(e, s, r, req, c, healthy, probe).0.acquired
    requires probe.AcquireToken? && c.name in s.states
    ensures var s' := ProbeStep(e, s, r, req, c, healthy, probe).0;
            Stored(s'.states, s'.acquired[tx].gateway, TokenOf(s', tx))
  {
    hide Tokens.SharedOk, Acquire, StoreAcquired, Stored;
    var expiresAt := probe.at + e.Routing().ProbeTimeout();
    var (state, acquired) := Acquire(s.states[c.name], req.tx, e.Routing().halfOpenProbeCount, expiresAt, probe.at);
    AcquiredIsLast(s.states[c.name], req.tx, e.Routing().halfOpenProbeCount, expiresAt, probe.at);
    WrittenIsStored(s, state, Probe(req.tx, UnixMilli(expiresAt)), acquired, tx);
  }

  /** A release that finds an unexpired token of its transaction takes it. */
  lemma ReleaseTakesLive(state: RuntimeState, p: Probe, now: Time, clock: Time)
    requires p in state.probes && p.Active(UnixMilli(clock)) && now <= clock && state.phase == HalfOpen
    ensures Release(state, p.transactionId, now).1
  {
    UnixMilliMonotone(now, clock);
    LiveMembers(state.probes, UnixMilli(now));
  }

  lemma ReleasingReleases(e: Env, s: Shared, t: nat, r: nat, pc: Pc, choice: Choice, g: string, p: Probe)
    requires Known(e, s, t, pc) && Stored(s.states, g, p) && p.Active(UnixMilli(s.clock))
    requires Releasing(pc, g, p.transactionId)
    ensures Tokens.WasReleased(ThreadStep(e, s, t, r, pc, choice).0.released, p.transactionId)
  {
    hide Release, Breaker.Verdict, ExpiryOf, Tokens.SharedOk;
    var s' := ThreadStep(e, s, t, r, pc, choice).0;
    StoredShape(e, s, g);
    match pc
    case Compensating(req, c, compensate) => ReleaseTakesLive(s.states[g], p, compensate.at, s.clock);
    case Settling(done, now, outcome) => ReleaseTakesLive(s.states[g], p, now, s.clock);
    assert s'.released == s.released + [Released(p.transactionId, t)];
    assert s'.released[|s.released|].tx == p.transactionId;
  }

  // ---------------------------------------------------------------- over a whole run

  /** A stored token that is still under way after a step leaves the store exactly by a Save. */
  lemma StoredStep(e: Env, rest: seq<Action>, a: Action, g: string, tx: string)
    requires e.Routing().Usable() && Freshness.Cautious(e)
    requires tx in After(e, rest).shared.acquired && UnderWay(Apply(e, After(e, rest), a).shared, g, tx)
    requires Stored(After(e, rest).shared.states, g, TokenOf(After(e, rest).shared, tx))
    ensures var p := TokenOf(After(e, rest).shared, tx);
            Stored(Apply(e, After(e, rest), a).shared.states, g, p) <==> !SavesOver(e, After(e, rest), a, g, p)
  {
    hide After, ThreadStep, Tokens.SharedOk, Freshness.SharedOk;
    var w := After(e, rest);
    Safety.AlwaysInv(e, rest);
    Freshness.AlwaysInv(e, rest);
    WasUnderWay(e, w, a, g, tx);
    var p := TokenOf(w.shared, tx);
    if a.Advance? && a.thread in w.threads {
      TokenLeavesExactlyWhen(e, rest, a.thread, a.choice, g, p);
      if Releasing(w.threads[a.thread].pc, g, tx) {
        assert Known(e, w.shared, a.thread, w.threads[a.thread].pc);
        ReleasingReleases(e, w.shared, a.thread, w.threads[a.thread].replica, w.threads[a.thread].pc, a.choice, g, p);
      }
    } else {
      StillAction(e, w, a);
    }
  }

  /** A token that is granted by the last step is in the store, and nothing has saved over it. */
  lemma GrantedStep(e: Env, rest: seq<Action>, a: Action, g: string, tx: string)
    requires e.Routing().Usable()
    requires tx !in After(e, rest).shared.acquired && UnderWay(Apply(e, After(e, rest), a).shared, g, tx)
    ensures var p := TokenOf(Apply(e, After(e, rest), a).shared, tx);
            && Stored(Apply(e, After(e, rest), a).shared.states, g, p)
            && !SavesOver(e, After(e, rest), a, g, p)
  {
    hide After, ThreadStep, Tokens.SharedOk;
    var w := After(e, rest);
    Safety.AlwaysInv(e, rest);
    if a.Advance? && a.thread in w.threads {
      NewGrantIsStored(e, w.shared, a.thread, w.threads[a.thread].replica, w.threads[a.thread].pc, a.choice, tx);
    } else {
      StillAction(e, w, a);
    }
  }

  lemma StoredWasAcquired(e: Env, actions: seq<Action>, g: string, p: Probe)
    requires e.Routing().Usable() && Overwritten(e, actions, g, p)
    ensures p.transactionId in After(e, actions).shared.acquired
  {
    hide After, SavesOver;
    var i :| 0 <= i < |actions| && SavesOver(e, After(e, actions[..i]), actions[i], g, p);
    assert Stored(After(e, actions[..i]).shared.states, g, p)
      by { SavedIsStored(e, After(e, actions[..i]), actions[i], g, p); }
    StoredIsAcquired(e, actions[..i], g, p);
    AcquiredFrom(e, actions, i, p.transactionId);
  }

  lemma SavedIsStored(e: Env, w: Global, a: Action, g: string, p: Probe)
    requires SavesOver(e, w, a, g, p)
    ensures Stored(w.shared.states, g, p)
  {
  }

  lemma {:induction false} AcquiredFrom(e: Env, actions: seq<Action>, i: nat, tx: string)
    requires e.Routing().Usable() && i <= |actions| && tx in After(e, actions[..i]).shared.acquired
    ensures tx in After(e, actions).shared.acquired
  {
    hide Apply;
    if i == |actions| {
      assert actions[..i] == actions;
    } else {
      var rest := actions[..|actions| - 1];
      assert rest[..i] == actions[..i];
      AcquiredFrom(e, rest, i, tx);
      Safety.AlwaysInv(e, rest);
      HistoryGrows(e, After(e, rest), actions[|actions| - 1]);
    }
  }

  /** After any interleaving: a probe under way on g has its token in g's stored list exactly
      when no thread has saved g's state over a list that held it. */
  lemma {:induction false} UnderWayIsStoredExactlyWhen(e: Env, actions: seq<Action>, g: string, tx: string)
    requires e.Routing().Usable() && Freshness.Cautious(e) && UnderWay(After(e, actions).shared, g, tx)
    ensures var s := After(e, actions).shared;
            Stored(s.states, g, TokenOf(s, tx)) <==> !Overwritten(e, actions, g, TokenOf(s, tx))
  {
    hide Apply, Stored, SavesOver, UnderWay, Overwritten;
    assert tx in After(e, actions).shared.acquired by { UnderWayIsAcquired(After(e, actions).shared, g, tx); }
    if actions == [] {
      assert false;
    } else {
      var rest, a := actions[..|actions| - 1], actions[|actions| - 1];
      var p := TokenOf(After(e, actions).shared, tx);
      OverwrittenStep(e, actions, g, p);
      if tx in After(e, rest).shared.acquired {
        Safety.AlwaysInv(e, rest);
        WasUnderWay(e, After(e, rest), a, g, tx);
        UnderWayIsStoredExactlyWhen(e, rest, g, tx);
        if Stored(After(e, rest).shared.states, g, p) {
          StoredStep(e, rest, a, g, tx);
        } else {
          ActionKeeps(e, After(e, rest), a, g, p);
        }
      } else {
        GrantedStep(e, rest, a, g, tx);
        if Overwritten(e, rest, g, p) {
          StoredWasAcquired(e, rest, g, p);
        }
      }
    }
  }

  lemma UnderWayIsAcquired(s: Shared, g: string, tx: string)
    requires UnderWay(s, g, tx)
    ensures tx in s.acquired
  {
  }

  // ---------------------------------------------------------------- the count

  ghost function AllUnderWay(s: Shared, g: string): set<string> {
    set tx | tx in s.acquired && UnderWay(s, g, tx)
  }

  /** The probes under way on g whose tokens a Save has written over. */
  ghost function Lost(e: Env, actions: seq<Action>, g: string): set<string> {
    var s := After(e, actions).shared;
    set tx | tx in s.acquired && UnderWay(s, g, tx) && Overwritten(e, actions, g, TokenOf(s, tx))
  }

  function Listed(s: Shared, g: string): seq<Probe> {
    if g in s.states then s.states[g].probes else []
  }

  function Ids(ps: seq<Probe>): set<string> {
    set p | p in ps :: p.transactionId
  }

  lemma {:induction false} DistinctIds(ps: seq<Probe>)
    requires DistinctTokens(ps)
    ensures |Ids(ps)| == |ps|
  {
    if ps == [] {
      assert Ids(ps) == {};
    } else {
      var rest, last := ps[..|ps| - 1], ps[|ps| - 1];
      DistinctIds(rest);
      assert forall p :: p in ps <==> p in rest || p == last;
      assert last.transactionId !in Ids(rest);
      assert Ids(ps) == Ids(rest) + {last.transactionId};
    }
  }

  /** The live tokens of the stored list are the probes under way that are stored. */
  lemma LiveAreUnderWay(e: Env, actions: seq<Action>, g: string)
    requires e.Routing().Usable()
    ensures var s := After(e, actions).shared;
            var live := Live(Listed(s, g), UnixMilli(s.clock));
            && |Ids(live)| == |live| <= e.Routing().halfOpenProbeCount
            && forall tx :: tx in Ids(live) <==>
                 tx in s.acquired && UnderWay(s, g, tx) && Stored(s.states, g, TokenOf(s, tx))
  {
    Safety.AlwaysInv(e, actions);
    hide After;
    var s := After(e, actions).shared;
    LiveIdsOf(e, s, g);
  }

  lemma LiveIdsOf(e: Env, s: Shared, g: string)
    requires Tokens.SharedOk(e, s) && e.Routing().Usable()
    ensures var live := Live(Listed(s, g), UnixMilli(s.clock));
            && |Ids(live)| == |live| <= e.Routing().halfOpenProbeCount
            && forall tx :: tx in Ids(live) <==>
                 tx in s.acquired && UnderWay(s, g, tx) && Stored(s.states, g, TokenOf(s, tx))
  {
    var m := UnixMilli(s.clock);
    var live := Live(Listed(s, g), m);
    LiveMembers(Listed(s, g), m);
    LiveKeepsDistinct(Listed(s, g), m);
    DistinctIds(live);
    forall tx
      ensures tx in Ids(live) <==> tx in s.acquired && UnderWay(s, g, tx) && Stored(s.states, g, TokenOf(s, tx))
    {
      if tx in Ids(live) {
        var p :| p in live && p.transactionId == tx;
        assert Tokens.Outstanding(s, p, g) && TokenOf(s, tx) == p;
      }
      if tx in s.acquired && UnderWay(s, g, tx) && Stored(s.states, g, TokenOf(s, tx)) {
        assert TokenOf(s, tx) in live;
      }
    }
  }

  /** After any interleaving the probes under way on g are the live tokens of its stored list,
      at most the configured number, and those that a Save has written over. So the configured
      number is kept if and only if the overwritten ones fit beside the live list; while none
      is overwritten it always is. */
  lemma ProbesUnderWay(e: Env, actions: seq<Action>, g: string)
    requires e.Routing().Usable() && Freshness.Cautious(e)
    ensures var s := After(e, actions).shared;
            var live, max := |Live(Listed(s, g), UnixMilli(s.clock))|, e.Routing().halfOpenProbeCount;
            && live <= max
            && |AllUnderWay(s, g)| == live + |Lost(e, actions, g)|
            && (|AllUnderWay(s, g)| <= max <==> |Lost(e, actions, g)| <= max - live)
            && (Lost(e, actions, g) == {} ==> |AllUnderWay(s, g)| <= max)
  {
    hide After, Overwritten;
    var s := After(e, actions).shared;
    var live := Ids(Live(Listed(s, g), UnixMilli(s.clock)));
    LiveAreUnderWay(e, actions, g);
    forall tx | tx in s.acquired && UnderWay(s, g, tx)
      ensures Stored(s.states, g, TokenOf(s, tx)) <==> !Overwritten(e, actions, g, TokenOf(s, tx))
    {
      UnderWayIsStoredExactlyWhen(e, actions, g, tx);
    }
    assert AllUnderWay(s, g) == live + Lost(e, actions, g) && live !! Lost(e, actions, g);
  }
}
