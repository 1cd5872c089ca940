/** A thread that nobody interrupts: from a coherent replica its steps add up to one operation
    of the sequential machine. This ties the step model to the reference it refines. */
module InterleavingAlone {
  import opened Domain
  import opened Breaker
  import opened EventLog
  import opened Reference
  import opened Selector
  import opened Interleaving
  import Blacklist
  import Transactions

  /** The thread that runs, where it runs, and what the environment decides for it. */
  datatype Caller = Caller(env: Env, thread: nat, replica: nat, choice: Choice)

  function Steps(x: Caller, s: Shared, pc: Pc, n: nat): (Shared, Pc)
    decreases n
  {
    if n == 0 then (s, pc)
    else
      var (s', pc') := ThreadStep(x.env, s, x.thread, x.replica, pc, x.choice);
      Steps(x, Observed(s'), pc', n - 1)
  }

  ghost predicate Leads(x: Caller, s: Shared, pc: Pc, s': Shared, pc': Pc) {
    exists n: nat :: Steps(x, s, pc, n) == (s', pc')
  }

  lemma {:induction false} StepsAdd(x: Caller, s: Shared, pc: Pc, m: nat, n: nat)
    ensures Steps(x, s, pc, m + n) == Steps(x, Steps(x, s, pc, m).0, Steps(x, s, pc, m).1, n)
    decreases m
  {
    hide ThreadStep;
    if m > 0 {
      var (s', pc') := ThreadStep(x.env, s, x.thread, x.replica, pc, x.choice);
      StepsAdd(x, Observed(s'), pc', m - 1, n);
    }
  }

  lemma Chain(x: Caller, s: Shared, pc: Pc, s1: Shared, pc1: Pc, s2: Shared, pc2: Pc)
    requires Leads(x, s, pc, s1, pc1) && Leads(x, s1, pc1, s2, pc2)
    ensures Leads(x, s, pc, s2, pc2)
  {
    hide Steps;
    var m: nat :| Steps(x, s, pc, m) == (s1, pc1);
    var n: nat :| Steps(x, s1, pc1, n) == (s2, pc2);
    StepsAdd(x, s, pc, m, n);
  }

  /** Steps are what Advance actions do. */
  lemma {:induction false} AdvancesAreSteps(x: Caller, w: Global, n: nat)
    requires x.thread in w.threads && w.threads[x.thread].replica == x.replica
    ensures var (s, pc) := Steps(x, w.shared, w.threads[x.thread].pc, n);
            Advances(x, w, n) == Global(s, w.threads[x.thread := Thread(x.replica, pc)])
    decreases n
  {
    hide ThreadStep;
    if n > 0 {
      AdvancesAreSteps(x, Apply(x.env, w, Advance(x.thread, x.choice)), n - 1);
    } else {
      assert w.threads[x.thread := w.threads[x.thread]] == w.threads;
    }
  }

  function Advances(x: Caller, w: Global, n: nat): Global
    decreases n
  {
    if n == 0 then w else Advances(x, Apply(x.env, w, Advance(x.thread, x.choice)), n - 1)
  }

  // ---------------------------------------------------------------- the sequential world a replica sees

  function ConstantClock(e: Env, c: Time): Setup {
    StoppedClock(e.config, e.routingTTL, c)
  }

  /** The cache of the replica agrees with the store, but for the gateways listed. */
  ghost predicate Coherent(s: Shared, r: nat, but: set<string>) {
    && (forall g :: g in s.states ==> s.states[g].gateway == g)
    && forall g :: g in ReplicaOf(s, r).cache ==>
         g in s.states && (g in but || ReplicaOf(s, r).cache[g].state == s.states[g])
  }

  /** Replica r sees the world w at clock c. */
  ghost predicate Sees(s: Shared, r: nat, w: World, c: Time, but: set<string>) {
    && s.clock == c
    && s.states == w.states && s.events == w.events && s.log == w.log
    && s.txns == w.txns && s.attempts == w.attempts && s.summaries == w.summaries
    && ReplicaOf(s, r).counter == w.counter && ReplicaOf(s, r).snapshot == w.snapshot
    && Coherent(s, r, but)
  }

  /** One step, when the replica sees w after it. */
  lemma Move(
      x: Caller, s: Shared, pc: Pc, raw: Shared, pc': Pc, w: World, c: Time, but: set<string>) returns (s': Shared)
    requires ThreadStep(x.env, s, x.thread, x.replica, pc, x.choice) == (raw, pc')
    requires Sees(raw, x.replica, w, c, but)
    ensures Leads(x, s, pc, s', pc') && Sees(s', x.replica, w, c, but)
    ensures s'.released == raw.released && s'.acquired == raw.acquired
  {
    hide ThreadStep;
    s' := Observed(raw);
    assert Steps(x, s', pc', 0) == (s', pc');
    assert Steps(x, s, pc, 1) == (s', pc');
  }

  /** Another step after a run. */
  lemma Then(
      x: Caller, s: Shared, pc: Pc, s1: Shared, pc1: Pc, raw: Shared, pc': Pc, w: World, c: Time,
      but: set<string>) returns (s': Shared)
    requires Leads(x, s, pc, s1, pc1)
    requires ThreadStep(x.env, s1, x.thread, x.replica, pc1, x.choice) == (raw, pc')
    requires Sees(raw, x.replica, w, c, but)
    ensures Leads(x, s, pc, s', pc') && Sees(s', x.replica, w, c, but)
    ensures s'.released == raw.released && s'.acquired == raw.acquired
  {
    hide ThreadStep, Leads, Sees;
    s' := Move(x, s1, pc1, raw, pc', w, c, but);
    Chain(x, s, pc, s1, pc1, s', pc');
  }

  lemma Stay(x: Caller, s: Shared, pc: Pc)
    ensures Leads(x, s, pc, s, pc)
  {
    assert Steps(x, s, pc, 0) == (s, pc);
  }

  lemma StoreSees(s: Shared, r: nat, w: World, c: Time, but: set<string>, state: RuntimeState)
    requires Sees(s, r, w, c, but) && but <= {state.gateway}
    ensures Sees(Store(s, state), r, w.(states := w.states[state.gateway := state]), c, {state.gateway})
  {
  }

  lemma CacheSees(e: Env, s: Shared, r: nat, w: World, c: Time, but: set<string>, state: RuntimeState, now: Time)
    requires Sees(s, r, w, c, but) && but <= {state.gateway}
    requires state.gateway in w.states && w.states[state.gateway] == state
    ensures Sees(SetCache(e, s, r, state, now), r, w, c, {})
  {
  }

  lemma EnsureSees(s: Shared, r: nat, w: World, c: Time, g: string)
    requires Sees(s, r, w, c, {})
    ensures Sees(Ensure(s, g, c), r, w.(states := Ensured(w.states, g, c)), c, {})
  {
  }

  lemma SnapshotSees(s: Shared, r: nat, w: World, c: Time, snapshot: Snapshot)
    requires Sees(s, r, w, c, {})
    ensures Sees(SetSnapshot(s, r, snapshot), r, w.(snapshot := snapshot), c, {})
  {
  }

  lemma TablesSee(s: Shared, r: nat, w: World, c: Time, s': Shared, w': World)
    requires Sees(s, r, w, c, {})
             && s' == s.(txns := w'.txns, attempts := w'.attempts, minted := s'.minted, completer := s'.completer)
    requires w' == w.(txns := w'.txns, attempts := w'.attempts, ticks := w'.ticks)
    ensures Sees(s', r, w', c, {})
  {
  }

  lemma StoredName(s: Shared, r: nat, w: World, c: Time, but: set<string>, g: string)
    requires Sees(s, r, w, c, but) && g in w.states
    ensures w.states[g].gateway == g
  {
  }

  lemma CachedIsStored(s: Shared, r: nat, w: World, c: Time, g: string)
    requires Sees(s, r, w, c, {}) && g in ReplicaOf(s, r).cache
    ensures g in w.states && ReplicaOf(s, r).cache[g].state == w.states[g]
  {
  }

  // ---------------------------------------------------------------- the snapshot

  lemma PruneAlone(x: Caller, s: Shared, l: Loop, w: World, c: Time) returns (s': Shared)
    requires l.i < |x.env.Gateways()| && x.env.Gateways()[l.i].name in w.states && Sees(s, x.replica, w, c, {})
    ensures var g := x.env.Gateways()[l.i].name;
            var state := Prune(w.states[g], c);
            && Leads(x, s, Preparing(l, c, PruneStored), s', Looping(Classify(x.env, l, state)))
            && Sees(s', x.replica, w.(states := w.states[g := state]), c, {})
    ensures s'.released == s.released && s'.acquired == s.acquired
  {
    hide Leads, Coherent, Prune, Classify;
    StoredName(s, x.replica, w, c, {}, x.env.Gateways()[l.i].name);
    var g := x.env.Gateways()[l.i].name;
    var state := Prune(w.states[g], c);
    PruneKeepsName(w.states[g], c);
    var w' := w.(states := w.states[g := state]);
    StoreSees(s, x.replica, w, c, {}, state);
    var s1 := Move(x, s, Preparing(l, c, PruneStored), Store(s, state), Preparing(l, c, CachePruned(state)), w', c,
                   {g});
    CacheSees(x.env, s1, x.replica, w', c, {g}, state, c);
    s' := Then(x, s, Preparing(l, c, PruneStored), s1, Preparing(l, c, CachePruned(state)),
               SetCache(x.env, s1, x.replica, state, c), Looping(Classify(x.env, l, state)), w', c, {});
  }

  lemma PruneKeepsName(state: RuntimeState, now: Time)
    ensures Prune(state, now).gateway == state.gateway
  {
  }

  lemma DecideAlone(x: Caller, s: Shared, l: Loop, w: World, c: Time) returns (s': Shared)
    requires l.i < |x.env.Gateways()| && x.env.Gateways()[l.i].name in w.states && Sees(s, x.replica, w, c, {})
    ensures var g := x.env.Gateways()[l.i].name;
            var state := Prepare(w.states[g], c);
            && Leads(x, s, Preparing(l, c, DecidePhase(w.states[g])), s', Looping(Classify(x.env, l, state)))
            && Sees(s', x.replica, w.(states := w.states[g := state]), c, {})
  {
    hide Leads, Coherent, Prune, Classify;
    StoredName(s, x.replica, w, c, {}, x.env.Gateways()[l.i].name);
    var g := x.env.Gateways()[l.i].name;
    var state := w.states[g];
    var pc := Preparing(l, c, DecidePhase(state));
    if CooldownOver(state, c) {
      var reopened := ToHalfOpen(state, c);
      var w1 := w.(states := w.states[g := reopened]);
      StoreSees(s, x.replica, w, c, {}, reopened);
      var s1 := Move(x, s, pc, Store(s, reopened), Preparing(l, c, CacheHalfOpen(reopened)), w1, c, {g});
      CacheSees(x.env, s1, x.replica, w1, c, {g}, reopened, c);
      var s2 := Then(x, s, pc, s1, Preparing(l, c, CacheHalfOpen(reopened)),
                     SetCache(x.env, s1, x.replica, reopened, c), Preparing(l, c, PruneStored), w1, c, {});
      s' := PruneAlone(x, s2, l, w1, c);
      Chain(x, s, pc, s2, Preparing(l, c, PruneStored), s', Looping(Classify(x.env, l, Prepare(state, c))));
      assert w1.states[g := Prepare(state, c)] == w.states[g := Prepare(state, c)];
    } else if state.phase == HalfOpen {
      var s1 := Move(x, s, pc, s, Preparing(l, c, PruneStored), w, c, {});
      s' := PruneAlone(x, s1, l, w, c);
      Chain(x, s, pc, s1, Preparing(l, c, PruneStored), s', Looping(Classify(x.env, l, Prepare(state, c))));
    } else {
      PruneOutside(state, c);
      s' := Move(x, s, pc, s, Looping(Classify(x.env, l, state)), w, c, {});
      assert w.states[g := state] == w.states;
    }
  }

  lemma PruneOutside(state: RuntimeState, now: Time)
    requires state.phase != HalfOpen
    ensures Prune(state, now) == state
  {
  }

  /** From a cache miss to the decision, through the repository. */
  lemma MissAlone(x: Caller, s: Shared, l: Loop, w: World, c: Time) returns (s': Shared)
    requires l.i < |x.env.Gateways()| && Sees(s, x.replica, w, c, {})
    ensures var g := x.env.Gateways()[l.i].name;
            var states := Ensured(w.states, g, c);
            && Leads(x, s, Preparing(l, c, EnsureStored), s', Preparing(l, c, DecidePhase(states[g])))
            && Sees(s', x.replica, w.(states := states), c, {})
  {
    hide Leads, Coherent, Ensure, SetCache;
    var g := x.env.Gateways()[l.i].name;
    var pc, w1 := Preparing(l, c, EnsureStored), w.(states := Ensured(w.states, g, c));
    var state := w1.states[g];
    EnsureSees(s, x.replica, w, c, g);
    StoredName(Ensure(s, g, c), x.replica, w1, c, {}, g);
    var s2 := Move(x, s, pc, Ensure(s, g, c), Preparing(l, c, GetStored), w1, c, {});
    var s3 := Then(x, s, pc, s2, Preparing(l, c, GetStored), s2, Preparing(l, c, CacheStored(state)), w1, c, {});
    CacheSees(x.env, s3, x.replica, w1, c, {}, state, c);
    s' := Then(x, s, pc, s3, Preparing(l, c, CacheStored(state)),
               SetCache(x.env, s3, x.replica, state, c), Preparing(l, c, DecidePhase(state)), w1, c, {});
  }

  /** From the cache lookup to the decision: a hit finds what the repository holds. */
  lemma LookAlone(x: Caller, s: Shared, l: Loop, w: World, c: Time) returns (s': Shared)
    requires l.i < |x.env.Gateways()| && Sees(s, x.replica, w, c, {})
    ensures var g := x.env.Gateways()[l.i].name;
            var states := Ensured(w.states, g, c);
            && Leads(x, s, Preparing(l, c, LookInCache), s', Preparing(l, c, DecidePhase(states[g])))
            && Sees(s', x.replica, w.(states := states), c, {})
  {
    hide Leads, Sees;
    var g := x.env.Gateways()[l.i].name;
    var cache := ReplicaOf(s, x.replica).cache;
    var pc := Preparing(l, c, LookInCache);
    if g in cache && c < cache[g].expiresAt {
      CachedIsStored(s, x.replica, w, c, g);
      s' := Move(x, s, pc, s, Preparing(l, c, DecidePhase(cache[g].state)), w, c, {});
    } else {
      var s1 := Move(x, s, pc, s, Preparing(l, c, EnsureStored), w, c, {});
      s' := MissAlone(x, s1, l, w, c);
      Chain(x, s, pc, s1, Preparing(l, c, EnsureStored), s', Preparing(l, c, DecidePhase(Ensured(w.states, g, c)[g])));
    }
  }

  /** A turn of the snapshot loop is a step of the sequential build. */
  lemma TurnAlone(x: Caller, s: Shared, l: Loop, w: World, c: Time, ticks: nat) returns (s': Shared)
    requires l.i < |x.env.Gateways()| && Sees(s, x.replica, w, c, {})
    ensures var b := BuildStep(Build(w.states, ticks, l.healthy, l.probes), ConstantClock(x.env, c),
                               x.env.Gateways()[l.i]);
            && Leads(x, s, Looping(l), s', Looping(Loop(l.req, l.i + 1, b.healthy, b.probes)))
            && Sees(s', x.replica, w.(states := b.states), c, {})
  {
    hide Leads, Sees, Prepare;
    var gateway := x.env.Gateways()[l.i];
    if !Routable(gateway) {
      s' := Move(x, s, Looping(l), s, Looping(Turn(l)), w, c, {});
    } else {
      var g := gateway.name;
      assert s.clock == c by { SeesClock(s, x.replica, w, c); }
      var w1 := w.(states := Ensured(w.states, g, c));
      var s1 := Move(x, s, Looping(l), s, Preparing(l, c, LookInCache), w, c, {});
      var s2 := LookAlone(x, s1, l, w, c);
      var decide := Preparing(l, c, DecidePhase(w1.states[g]));
      Chain(x, s, Looping(l), s1, Preparing(l, c, LookInCache), s2, decide);
      s' := DecideAlone(x, s2, l, w1, c);
      Chain(x, s, Looping(l), s2, decide, s', Looping(Classify(x.env, l, Prepare(w1.states[g], c))));
    }
  }

  lemma SeesClock(s: Shared, r: nat, w: World, c: Time)
    requires Sees(s, r, w, c, {})
    ensures s.clock == c
  {
  }

  /** The loop from gateway i on, after the sequential build of the first i. */
  lemma {:induction false} LoopAlone(x: Caller, s: Shared, l: Loop, w: World, c: Time, b: Build) returns (s': Shared)
    requires l.i <= |x.env.Gateways()| && Sees(s, x.replica, w, c, {})
    requires var p := BuildPrefix(b, ConstantClock(x.env, c), x.env.Gateways(), l.i);
             w.states == p.states && l.healthy == p.healthy && l.probes == p.probes
    ensures var p := BuildPrefix(b, ConstantClock(x.env, c), x.env.Gateways(), |x.env.Gateways()|);
            var next := Snapshot(p.healthy, p.probes, Some(l.req.readAt + x.env.routingTTL));
            && Leads(x, s, Looping(l), s', Choosing(l.req, next))
            && Sees(s', x.replica, w.(states := p.states, snapshot := next), c, {})
    decreases |x.env.Gateways()| - l.i
  {
    hide Leads, Sees, BuildStep;
    var gs, setup := x.env.Gateways(), ConstantClock(x.env, c);
    if l.i == |gs| {
      var next := Snapshot(l.healthy, l.probes, Some(l.req.readAt + x.env.routingTTL));
      SnapshotSees(s, x.replica, w, c, next);
      s' := Move(x, s, Looping(l), SetSnapshot(s, x.replica, next), Choosing(l.req, next), w.(snapshot := next), c, {});
    } else {
      var p := BuildPrefix(b, setup, gs, l.i);
      var q := BuildStep(p, setup, gs[l.i]);
      var l' := Loop(l.req, l.i + 1, q.healthy, q.probes);
      var s1 := TurnAlone(x, s, l, w, c, p.ticks);
      s' := LoopAlone(x, s1, l', w.(states := q.states), c, b);
      var last := BuildPrefix(b, setup, gs, |gs|);
      Chain(x, s, Looping(l), s1, Looping(l'), s',
            Choosing(l.req, Snapshot(last.healthy, last.probes, Some(l.req.readAt + x.env.routingTTL))));
    }
  }

  lemma SnapshotAlone(x: Caller, s: Shared, req: Request, w: World, c: Time) returns (s': Shared)
    requires Sees(s, x.replica, w, c, {})
    ensures var (w', snapshot) := TakeSnapshot(w, ConstantClock(x.env, c));
            && Leads(x, s, Snapshotting(req, ClockForSnapshot), s', Choosing(req.(readAt := c), snapshot))
            && Sees(s', x.replica, w', c, {})
  {
    hide Leads, Coherent, BuildPrefix;
    var now := req.(readAt := c);
    var pc := Snapshotting(req, ClockForSnapshot);
    var s1 := Move(x, s, pc, s, Snapshotting(now, ReadSnapshot), w, c, {});
    if w.snapshot.Fresh(c) {
      s' := Then(x, s, pc, s1, Snapshotting(now, ReadSnapshot), s1, Choosing(now, w.snapshot), w, c, {});
    } else {
      var s2 := Then(x, s, pc, s1, Snapshotting(now, ReadSnapshot), s1, Snapshotting(now, RecheckSnapshot), w, c, {});
      var l := Loop(now, 0, [], []);
      var s3 := Then(x, s, pc, s2, Snapshotting(now, RecheckSnapshot), s2, Looping(l), w, c, {});
      var b := Build(w.states, w.ticks + 1, [], []);
      EmptyPrefix(b, ConstantClock(x.env, c), x.env.Gateways());
      s' := LoopAlone(x, s3, l, w, c, b);
      var p := Rebuilt(w, ConstantClock(x.env, c));
      Chain(x, s, pc, s3, Looping(l), s', Choosing(now, Snapshot(p.healthy, p.probes, Some(c + x.env.routingTTL))));
    }
  }

  lemma EmptyPrefix(b: Build, s: Setup, gs: seq<GatewayConfig>)
    ensures BuildPrefix(b, s, gs, 0) == b
  {
  }

  // ---------------------------------------------------------------- selection

  /** Where a request stands after SelectGateway has answered. */
  function Selected(req: Request, res: Result<Selection>): Pc {
    if res.Ok? then Submitting(req, res.value.gateway, res.value.halfOpenProbe, PrepareAttempt) else Stopped
  }

  lemma DrawSees(s: Shared, r: nat, w: World, c: Time, cs: seq<GatewayConfig>)
    requires Sees(s, r, w, c, {})
    ensures var (s', chosen) := Draw(s, r, cs);
            var (counter, picked) := Select(w.counter, cs);
            chosen == picked && Sees(s', r, w.(counter := counter), c, {})
  {
  }

  lemma HealthyAlone(
      x: Caller, s: Shared, req: Request, healthy: seq<GatewayConfig>, w: World, c: Time) returns (s': Shared)
    requires Sees(s, x.replica, w, c, {})
    ensures var (w', res) := SelectHealthy(w, healthy);
            && Leads(x, s, ChoosingHealthy(req, healthy), s', Selected(req, res))
            && Sees(s', x.replica, w', c, {})
  {
    hide Leads, Sees, Select;
    var (w', res) := SelectHealthy(w, healthy);
    DrawSees(s, x.replica, w, c, healthy);
    s' := Move(x, s, ChoosingHealthy(req, healthy), Draw(s, x.replica, healthy).0, Selected(req, res), w', c, {});
  }

  lemma AcquireKeepsName(state: RuntimeState, tx: string, max: int, expiresAt: Time, now: Time)
    ensures Acquire(state, tx, max, expiresAt, now).0.gateway == state.gateway
    ensures Release(state, tx, now).0.gateway == state.gateway
  {
  }

  lemma HistorySees(s: Shared, r: nat, w: World, c: Time, but: set<string>, s': Shared)
    requires Sees(s, r, w, c, but) && s' == s.(acquired := s'.acquired, released := s'.released, rulings := s'.rulings)
    ensures Sees(s', r, w, c, but)
  {
  }

  lemma StoreAcquiredSees(s: Shared, r: nat, w: World, c: Time, state: RuntimeState, token: Probe, t: nat, b: bool)
    requires Sees(s, r, w, c, {})
    ensures Sees(StoreAcquired(s, state, token, b), r, w.(states := w.states[state.gateway := state]), c,
                 {state.gateway})
    ensures Sees(StoreReleased(s, state, token.transactionId, t, b), r, w.(states := w.states[state.gateway := state]),
                 c, {state.gateway})
  {
    StoreSees(s, r, w, c, {}, state);
    HistorySees(Store(s, state), r, w.(states := w.states[state.gateway := state]), c, {state.gateway},
                StoreAcquired(s, state, token, b));
    HistorySees(Store(s, state), r, w.(states := w.states[state.gateway := state]), c, {state.gateway},
                StoreReleased(s, state, token.transactionId, t, b));
    hide Sees;
  }

  /** Where a probe request stands after the repository's verdict. */
  function Verdicted(req: Request, gateway: GatewayConfig, healthy: seq<GatewayConfig>, granted: bool): Pc {
    if granted then Submitting(req, gateway, true, PrepareAttempt)
      else Probing(req, gateway, healthy, InvalidateSnapshot)
  }

  lemma AcquisitionHistory(e: Env, s: Shared, r: nat, state: RuntimeState, token: Probe, b: bool, now: Time)
    ensures SetCache(e, s, r, state, now).released == s.released && SetCache(e, s, r, state, now).acquired == s.acquired
    ensures StoreAcquired(s, state, token, b).released == s.released
    ensures forall x :: x != token.transactionId && x in s.acquired ==>
              x in StoreAcquired(s, state, token, b).acquired
                && StoreAcquired(s, state, token, b).acquired[x] == s.acquired[x]
  {
  }

  lemma AcquireAlone(
      x: Caller, s: Shared, req: Request, gateway: GatewayConfig, healthy: seq<GatewayConfig>, w: World,
      c: Time) returns (s': Shared)
    requires Sees(s, x.replica, w, c, {}) && gateway.name in w.states
    ensures var max, expiresAt := x.env.Routing().halfOpenProbeCount, c + x.env.Routing().ProbeTimeout();
            var (state, acquired) := Acquire(w.states[gateway.name], req.tx, max, expiresAt, c);
            && Leads(x, s, Probing(req, gateway, healthy, AcquireToken(c)), s',
                     Verdicted(req, gateway, healthy, acquired))
            && Sees(s', x.replica, w.(states := w.states[gateway.name := state]), c, {})
    ensures s'.released == s.released && forall tx :: tx != req.tx && tx in s.acquired ==>
              tx in s'.acquired && s'.acquired[tx] == s.acquired[tx]
  {
    hide Leads, Coherent, Acquire, StoreAcquired, SetCache, Store;
    var g, pc := gateway.name, Probing(req, gateway, healthy, AcquireToken(c));
    var max, expiresAt := x.env.Routing().halfOpenProbeCount, c + x.env.Routing().ProbeTimeout();
    var (state, acquired) := Acquire(w.states[g], req.tx, max, expiresAt, c);
    AcquireKeepsName(w.states[g], req.tx, max, expiresAt, c);
    StoredName(s, x.replica, w, c, {}, g);
    var w' := w.(states := w.states[g := state]);
    var token := Probe(req.tx, UnixMilli(expiresAt));
    StoreAcquiredSees(s, x.replica, w, c, state, token, x.thread, acquired);
    AcquisitionHistory(x.env, s, x.replica, state, token, acquired, c);
    var cache := Probing(req, gateway, healthy, CacheAcquired(c, state, acquired));
    var s2 := Move(x, s, pc, StoreAcquired(s, state, token, acquired), cache, w', c, {g});
    CacheSees(x.env, s2, x.replica, w', c, {g}, state, c);
    AcquisitionHistory(x.env, s2, x.replica, state, token, acquired, c);
    s' := Then(x, s, pc, s2, cache, SetCache(x.env, s2, x.replica, state, c),
               Verdicted(req, gateway, healthy, acquired), w', c, {});
  }

  /** MarkProbeSelected, up to its verdict. */
  lemma MarkAlone(
      x: Caller, s: Shared, req: Request, gateway: GatewayConfig, healthy: seq<GatewayConfig>, w: World,
      c: Time) returns (s': Shared)
    requires Sees(s, x.replica, w, c, {})
    ensures var (w', marked) := MarkProbe(w, ConstantClock(x.env, c), gateway.name, req.tx);
            && Leads(x, s, Probing(req, gateway, healthy, ClockForProbe), s',
                     Verdicted(req, gateway, healthy, marked.Ok?))
            && Sees(s', x.replica, w', c, {})
    ensures s'.released == s.released && forall tx :: tx != req.tx && tx in s.acquired ==>
              tx in s'.acquired && s'.acquired[tx] == s.acquired[tx]
  {
    hide Leads, Coherent, Acquire, StoreAcquired, SetCache;
    var pc := Probing(req, gateway, healthy, ClockForProbe);
    var acquire := Probing(req, gateway, healthy, AcquireToken(c));
    var s1 := Move(x, s, pc, s, acquire, w, c, {});
    if gateway.name !in w.states {
      s' := Then(x, s, pc, s1, acquire, s1, Verdicted(req, gateway, healthy, false), w, c, {});
    } else {
      s' := AcquireAlone(x, s1, req, gateway, healthy, w, c);
      var (_, marked) := MarkProbe(w, ConstantClock(x.env, c), gateway.name, req.tx);
      Chain(x, s, pc, s1, acquire, s', Verdicted(req, gateway, healthy, marked.Ok?));
    }
  }

  /** The fallback after a refused probe. */
  lemma FallbackAlone(
      x: Caller, s: Shared, req: Request, gateway: GatewayConfig, healthy: seq<GatewayConfig>, w: World,
      c: Time, error: Error) returns (s': Shared)
    requires Sees(s, x.replica, w, c, {})
    ensures var w1 := w.(snapshot := NO_SNAPSHOT);
            var (w', res) := if healthy == [] then (w1, Err(error)) else SelectHealthy(w1, healthy);
            && Leads(x, s, Probing(req, gateway, healthy, InvalidateSnapshot), s', Selected(req, res))
            && Sees(s', x.replica, w', c, {})
  {
    hide Leads, Sees;
    var pc, w1 := Probing(req, gateway, healthy, InvalidateSnapshot), w.(snapshot := NO_SNAPSHOT);
    SnapshotSees(s, x.replica, w, c, NO_SNAPSHOT);
    if healthy == [] {
      s' := Move(x, s, pc, SetSnapshot(s, x.replica, NO_SNAPSHOT), Stopped, w1, c, {});
    } else {
      var s1 := Move(x, s, pc, SetSnapshot(s, x.replica, NO_SNAPSHOT), ChoosingHealthy(req, healthy), w1, c, {});
      s' := HealthyAlone(x, s1, req, healthy, w1, c);
      Chain(x, s, pc, s1, ChoosingHealthy(req, healthy), s', Selected(req, SelectHealthy(w1, healthy).1));
    }
  }

  lemma ProbeAlone(
      x: Caller, s: Shared, req: Request, probes: seq<GatewayConfig>, healthy: seq<GatewayConfig>,
      snapshot: Snapshot, w: World, c: Time) returns (s': Shared)
    requires Sees(s, x.replica, w, c, {}) && probes != []
    requires probes == FilterExcluded(snapshot.probes, req.excluded)
             && healthy == FilterExcluded(snapshot.healthy, req.excluded)
    ensures var (w', res) := SelectProbe(w, ConstantClock(x.env, c), req.tx, probes, healthy);
            && Leads(x, s, Choosing(req, snapshot), s', Selected(req, res))
            && Sees(s', x.replica, w', c, {})
  {
    hide Leads, Sees, Select, FilterExcluded, MarkProbe, SelectHealthy;
    var pc, setup := Choosing(req, snapshot), ConstantClock(x.env, c);
    var (counter, chosen) := Select(w.counter, probes);
    var w1 := w.(counter := counter);
    DrawSees(s, x.replica, w, c, probes);
    var drawn := Draw(s, x.replica, probes).0;
    if chosen.None? {
      s' := Move(x, s, pc, drawn, Stopped, w1, c, {});
    } else {
      var probing := Probing(req, chosen.value, healthy, ClockForProbe);
      var s1 := Move(x, s, pc, drawn, probing, w1, c, {});
      var s2 := MarkAlone(x, s1, req, chosen.value, healthy, w1, c);
      var (w2, marked) := MarkProbe(w1, setup, chosen.value.name, req.tx);
      if marked.Ok? {
        s' := s2;
        Chain(x, s, pc, s1, probing, s2, Submitting(req, chosen.value, true, PrepareAttempt));
      } else {
        var refused := Probing(req, chosen.value, healthy, InvalidateSnapshot);
        Chain(x, s, pc, s1, probing, s2, refused);
        s' := FallbackAlone(x, s2, req, chosen.value, healthy, w2, c, marked.error);
        Chain(x, s, pc, s2, refused, s', Selected(req, SelectProbe(w, setup, req.tx, probes, healthy).1));
      }
    }
  }

  lemma SelectAlone(x: Caller, s: Shared, req: Request, w: World, c: Time) returns (s': Shared)
    requires Sees(s, x.replica, w, c, {})
    ensures var (w', res) := SelectGateway(w, ConstantClock(x.env, c), req.tx, req.excluded);
            && Leads(x, s, Snapshotting(req, ClockForSnapshot), s', Selected(req.(readAt := c), res))
            && Sees(s', x.replica, w', c, {})
  {
    hide Leads, Sees, TakeSnapshot, FilterExcluded, SelectProbe, SelectHealthy, SnapshotStep, Draw;
    var pc, now := Snapshotting(req, ClockForSnapshot), req.(readAt := c);
    var (w1, snapshot) := TakeSnapshot(w, ConstantClock(x.env, c));
    var s1 := SnapshotAlone(x, s, req, w, c);
    var probes, healthy := FilterExcluded(snapshot.probes, req.excluded),
        FilterExcluded(snapshot.healthy, req.excluded);
    if probes != [] {
      s' := ProbeAlone(x, s1, now, probes, healthy, snapshot, w1, c);
      Chain(x, s, pc, s1, Choosing(now, snapshot), s',
            Selected(now, SelectProbe(w1, ConstantClock(x.env, c), req.tx, probes, healthy).1));
    } else {
      var s2 := Then(x, s, pc, s1, Choosing(now, snapshot), s1, ChoosingHealthy(now, healthy), w1, c, {});
      s' := HealthyAlone(x, s2, now, healthy, w1, c);
      Chain(x, s, pc, s2, ChoosingHealthy(now, healthy), s', Selected(now, SelectHealthy(w1, healthy).1));
    }
  }

  // ---------------------------------------------------------------- initiation

  lemma ReleaseAlone(x: Caller, s: Shared, req: Request, gateway: GatewayConfig, w: World, c: Time) returns (s': Shared)
    requires Sees(s, x.replica, w, c, {}) && gateway.name in w.states
    ensures Leads(x, s, Compensating(req, gateway, ReleaseToken(c)), s', Stopped)
    ensures Sees(s', x.replica, w.(states := w.states[gateway.name := Release(w.states[gateway.name], req.tx, c).0]),
                 c, {})
  {
    hide Leads, Coherent, Release, StoreReleased, SetCache, Store;
    var g, pc := gateway.name, Compensating(req, gateway, ReleaseToken(c));
    var (state, held) := Release(w.states[g], req.tx, c);
    AcquireKeepsName(w.states[g], req.tx, 0, 0, c);
    StoredName(s, x.replica, w, c, {}, g);
    var w' := w.(states := w.states[g := state]);
    StoreAcquiredSees(s, x.replica, w, c, state, Probe(req.tx, 0), x.thread, held);
    var cache := Compensating(req, gateway, CacheReleased(c, state));
    var s2 := Move(x, s, pc, StoreReleased(s, state, req.tx, x.thread, held), cache, w', c, {g});
    CacheSees(x.env, s2, x.replica, w', c, {g}, state, c);
    s' := Then(x, s, pc, s2, cache, SetCache(x.env, s2, x.replica, state, c), Stopped, w', c, {});
  }

  lemma CompensateAlone(
      x: Caller, s: Shared, req: Request, selection: Selection, w: World, c: Time) returns (s': Shared)
    requires Sees(s, x.replica, w, c, {})
    ensures Leads(x, s, FailedSubmission(req, selection.gateway, selection.halfOpenProbe), s', Stopped)
    ensures Sees(s', x.replica, Compensate(w, ConstantClock(x.env, c), selection, req.tx), c, {})
  {
    hide Leads, Coherent, Release, StoreReleased, SetCache, Store;
    var gateway := selection.gateway;
    var pc := FailedSubmission(req, gateway, selection.halfOpenProbe);
    if !selection.halfOpenProbe {
      s' := s;
      Stay(x, s, Stopped);
    } else {
      var release := Compensating(req, gateway, ReleaseToken(c));
      var s1 := Move(x, s, pc, s, release, w, c, {});
      if gateway.name !in w.states {
        s' := Then(x, s, pc, s1, release, s1, Stopped, w, c, {});
      } else {
        s' := ReleaseAlone(x, s1, req, gateway, w, c);
        Chain(x, s, pc, s1, release, s', Stopped);
      }
    }
  }

  function InputOf(x: Caller, req: Request): InitiateInput {
    InitiateInput(req.orderId, req.tx, (g: string) => x.choice.registered, x.choice.accepted)
  }

  lemma SubmitAlone(x: Caller, s: Shared, req: Request, selection: Selection, w: World, c: Time) returns (s': Shared)
    requires Sees(s, x.replica, w, c, {})
    ensures Leads(x, s, Submitting(req, selection.gateway, selection.halfOpenProbe, PrepareAttempt), s', Stopped)
    ensures Sees(s', x.replica, Submit(w, ConstantClock(x.env, c), InputOf(x, req), selection).0, c, {})
  {
    hide Leads, Coherent, Compensate;
    var gateway := selection.gateway;
    var pc, failed := Submitting(req, gateway, selection.halfOpenProbe, PrepareAttempt),
        FailedSubmission(req, gateway, selection.halfOpenProbe);
    if !x.choice.registered {
      var s1 := Move(x, s, pc, s, failed, w, c, {});
      s' := CompensateAlone(x, s1, req, selection, w, c);
      Chain(x, s, pc, s1, failed, s', Stopped);
    } else {
      var attempt := NextAttempt(w.attempts, req.orderId);
      var w1 := w.(attempts := w.attempts[req.orderId := attempt], ticks := w.ticks + 1);
      var store := Submitting(req, gateway, selection.halfOpenProbe, StoreTransaction(attempt, c));
      TablesSee(s, x.replica, w, c, s.(attempts := w1.attempts), w1);
      var s1 := Move(x, s, pc, s.(attempts := w1.attempts), store, w1, c, {});
      var tx := Transaction(req.tx, req.orderId, attempt, gateway.name, Pending, c, c, None);
      var (txns, saved) := Transactions.Save(w.txns, tx);
      if x.choice.accepted && saved.Ok? {
        TablesSee(s1, x.replica, w1, c, s1.(txns := txns), w1.(txns := txns));
        s' := Then(x, s, pc, s1, store, s1.(txns := txns), Stopped, w1.(txns := txns), c, {});
      } else {
        var s2 := Then(x, s, pc, s1, store, s1, failed, w1, c, {});
        s' := CompensateAlone(x, s2, req, selection, w1, c);
        Chain(x, s, pc, s2, failed, s', Stopped);
      }
    }
  }

  /** An Initiate call that nobody interrupts does what the sequential machine does. */
  lemma InitiateAlone(x: Caller, s: Shared, o: string, w: World, c: Time) returns (s': Shared)
    requires Sees(s, x.replica, w, c, {}) && x.choice.id !in s.minted
    ensures var input := InitiateInput(o, x.choice.id, (g: string) => x.choice.registered, x.choice.accepted);
            && Leads(x, s, Begin(o), s', Stopped)
            && Sees(s', x.replica, Initiate(w, ConstantClock(x.env, c), input).0, c, {})
  {
    hide Leads, SelectGateway, Submit, Blacklist.Flagged;
    var req := Request(o, x.choice.id, Excluded(w, o), c);
    var pc := Snapshotting(req, ClockForSnapshot);
    var s1 := Move(x, s, Begin(o), s.(minted := s.minted[x.choice.id := x.thread]), pc, w, c, {});
    var (w2, res) := SelectGateway(w, ConstantClock(x.env, c), req.tx, req.excluded);
    var s2 := SelectAlone(x, s1, req, w, c);
    Chain(x, s, Begin(o), s1, pc, s2, Selected(req, res));
    if res.Ok? {
      s' := SubmitAlone(x, s2, req, res.value, w2, c);
      Chain(x, s, Begin(o), s2, Selected(req, res), s', Stopped);
    } else {
      s' := s2;
    }
  }

  // ---------------------------------------------------------------- callbacks

  lemma ShowAlone(x: Caller, s: Shared, g: string, w: World, c: Time) returns (s': Shared)
    requires Sees(s, x.replica, w, c, {}) && g in w.states
    ensures Leads(x, s, Inspecting(g, ReadState(c)), s', Stopped)
    ensures Sees(s', x.replica, w.(states := w.states[g := Prune(w.states[g], c)]), c, {})
  {
    hide Leads, Coherent, Prune, SetCache, Store;
    var pc, state := Inspecting(g, ReadState(c)), w.states[g];
    var pruned := Prune(state, c);
    var w1 := w.(states := w.states[g := pruned]);
    StoredName(s, x.replica, w, c, {}, g);
    PruneKeepsName(state, c);
    if state.phase == HalfOpen {
      var s1 := Move(x, s, pc, s, Inspecting(g, PruneState(c)), w, c, {});
      StoreSees(s1, x.replica, w, c, {}, pruned);
      var s2 := Then(x, s, pc, s1, Inspecting(g, PruneState(c)), Store(s1, pruned),
                     Inspecting(g, CacheState(c, pruned)), w1, c, {g});
      CacheSees(x.env, s2, x.replica, w1, c, {g}, pruned, c);
      s' := Then(x, s, pc, s2, Inspecting(g, CacheState(c, pruned)), SetCache(x.env, s2, x.replica, pruned, c),
                 Stopped, w1, c, {});
    } else {
      PruneOutside(state, c);
      assert w.states[g := state] == w.states;
      var s1 := Move(x, s, pc, s, Inspecting(g, CacheState(c, state)), w, c, {});
      CacheSees(x.env, s1, x.replica, w, c, {}, state, c);
      s' := Then(x, s, pc, s1, Inspecting(g, CacheState(c, state)), SetCache(x.env, s1, x.replica, state, c), Stopped,
                 w, c, {});
    }
  }

  lemma InspectAlone(x: Caller, s: Shared, g: string, w: World, c: Time) returns (s': Shared)
    requires Sees(s, x.replica, w, c, {})
    ensures Leads(x, s, Inspecting(g, ClockForState), s', Stopped)
    ensures Sees(s', x.replica, w.(states := Inspect(w.states, g, c)), c, {})
  {
    hide Leads, Coherent, Prune, Ensure;
    var pc := Inspecting(g, ClockForState);
    var w1 := w.(states := Ensured(w.states, g, c));
    var s1 := Move(x, s, pc, s, Inspecting(g, EnsureState(c)), w, c, {});
    EnsureSees(s1, x.replica, w, c, g);
    var s2 := Then(x, s, pc, s1, Inspecting(g, EnsureState(c)), Ensure(s1, g, c), Inspecting(g, ReadState(c)), w1, c,
                   {});
    s' := ShowAlone(x, s2, g, w1, c);
    Chain(x, s, pc, s2, Inspecting(g, ReadState(c)), s', Stopped);
  }

  /** From the decision to the cache write: the stored state becomes the breaker's outcome. */
  lemma OutcomeAlone(x: Caller, s: Shared, done: Transaction, w: World, c: Time, stats: Stats) returns (s': Shared)
    requires Sees(s, x.replica, w, c, {}) && done.gateway in w.states
    ensures var g := done.gateway;
            var next := Outcome(w.states[g], stats, done.id, done.status, x.env.Routing(), c);
            && Leads(x, s, Settling(done, c, DecideOutcome(w.states[g], stats)), s', Blacklisting(done))
            && Sees(s', x.replica, w.(states := w.states[g := next]), c, {})
  {
    hide Leads, Coherent, Release, Evaluate, Breaker.Verdict, ExpiryOf, SetCache, StoreReleased;
    StoredName(s, x.replica, w, c, {}, done.gateway);
    var g, state := done.gateway, w.states[done.gateway];
    var pc := Settling(done, c, DecideOutcome(state, stats));
    var next := Outcome(state, stats, done.id, done.status, x.env.Routing(), c);
    var w' := w.(states := w.states[g := next]);
    OutcomeKeepsName(state, stats, done.id, done.status, x.env.Routing(), c);
    var cache := Settling(done, c, CacheOutcome(next));
    var s2: Shared;
    if state.phase == HalfOpen {
      s2 := RuleAlone(x, s, done, w, c, stats);
    } else {
      StoreSees(s, x.replica, w, c, {}, next);
      s2 := Move(x, s, pc, Store(s, next), cache, w', c, {g});
    }
    CacheSees(x.env, s2, x.replica, w', c, {g}, next, c);
    s' := Then(x, s, pc, s2, cache, SetCache(x.env, s2, x.replica, next, c), Blacklisting(done), w', c, {});
  }

  lemma OutcomeKeepsName(state: RuntimeState, stats: Stats, tx: string, status: Status, r: RoutingConfig, now: Time)
    ensures Outcome(state, stats, tx, status, r, now).gateway == state.gateway
    ensures Release(state, tx, now).0.gateway == state.gateway
  {
  }

  lemma RuleAlone(x: Caller, s: Shared, done: Transaction, w: World, c: Time, stats: Stats) returns (s': Shared)
    requires Sees(s, x.replica, w, c, {}) && done.gateway in w.states && w.states[done.gateway].phase == HalfOpen
    ensures var g := done.gateway;
            var next := Outcome(w.states[g], stats, done.id, done.status, x.env.Routing(), c);
            && Leads(x, s, Settling(done, c, DecideOutcome(w.states[g], stats)), s',
                     Settling(done, c, CacheOutcome(next)))
            && Sees(s', x.replica, w.(states := w.states[g := next]), c, {g})
  {
    hide Leads, Coherent, Release, Breaker.Verdict, ExpiryOf, StoreReleased;
    StoredName(s, x.replica, w, c, {}, done.gateway);
    var g, state := done.gateway, w.states[done.gateway];
    var pc := Settling(done, c, DecideOutcome(state, stats));
    var next := Outcome(state, stats, done.id, done.status, x.env.Routing(), c);
    var (released, held) := Release(state, done.id, c);
    OutcomeKeepsName(state, stats, done.id, done.status, x.env.Routing(), c);
    StoreAcquiredSees(s, x.replica, w, c, released, Probe(done.id, 0), x.thread, held);
    var w1 := w.(states := w.states[g := released]);
    var raw := StoreReleased(s, released, done.id, x.thread, held);
    if held {
      var ruling := Ruling(done.id, g, ExpiryOf(state.probes, done.id, UnixMilli(c)), c);
      var save := Settling(done, c, SaveVerdict(next, ruling));
      var s1 := Move(x, s, pc, raw, save, w1, c, {g});
      StoreSees(s1, x.replica, w1, c, {g}, next);
      HistorySees(Store(s1, next), x.replica, w1.(states := w1.states[g := next]), c, {g},
                  Store(s1, next).(rulings := s1.rulings + [ruling]));
      assert w1.states[g := next] == w.states[g := next];
      s' := Then(x, s, pc, s1, save, Store(s1, next).(rulings := s1.rulings + [ruling]),
                 Settling(done, c, CacheOutcome(next)),
                 w.(states := w.states[g := next]), c, {g});
    } else {
      s' := Move(x, s, pc, raw, Settling(done, c, CacheOutcome(next)), w1, c, {g});
    }
  }

  lemma RecordSees(s: Shared, r: nat, w: World, c: Time, events: seq<Event>, log: seq<Event>)
    requires Sees(s, r, w, c, {})
    ensures Sees(s.(events := events, log := log), r, w.(events := events, log := log), c, {})
  {
  }

  /** RecordOutcome of the health service, then of the blacklist. */
  lemma RecordAlone(x: Caller, s: Shared, done: Transaction, w: World, c: Time) returns (s': Shared)
    requires Sees(s, x.replica, w, c, {})
    ensures Leads(x, s, Completed(done), s', Finished(done))
    ensures Sees(s', x.replica, RecordCompleted(w, ConstantClock(x.env, c), done).0, c, {})
  {
    hide Leads, EventsAfter, LogAfter, WindowStats, Outcome, Sees, Blacklist.RecordOutcome;
    var pc, g, r := Completed(done), done.gateway, x.env.Routing();
    var s5 := CountAlone(x, s, done, w, c);
    var events, log := EventsAfter(w.events, r, g, done.id, done.status, c),
        LogAfter(w.log, g, done.id, done.status, c);
    var stats := WindowStats(events, r, g, c);
    var w2 := w.(states := Ensured(w.states, g, c), events := events, log := log);
    var decide := Settling(done, c, DecideOutcome(w2.states[g], stats));
    var s6 := OutcomeAlone(x, s5, done, w2, c, stats);
    Chain(x, s, pc, s5, decide, s6, Blacklisting(done));
    var w3 := w2.(states := OutcomeFor(w.states, stats, r, g, done.id, done.status, c));
    SeesClock(s6, x.replica, w3, c);
    BlacklistSees(x.env, s6, x.replica, w3, c, done);
    s' := Then(x, s, pc, s6, Blacklisting(done), BlacklistStep(x.env, s6, done), Finished(done),
               RecordCompleted(w, ConstantClock(x.env, c), done).0.(ticks := w3.ticks), c, {});
    SeesAnyTicks(s', x.replica, RecordCompleted(w, ConstantClock(x.env, c), done).0, w3.ticks, c);
  }

  lemma SeesAnyTicks(s: Shared, r: nat, w: World, ticks: nat, c: Time)
    requires Sees(s, r, w.(ticks := ticks), c, {})
    ensures Sees(s, r, w, c, {})
  {
  }

  lemma BlacklistSees(e: Env, s: Shared, r: nat, w: World, c: Time, done: Transaction)
    requires Sees(s, r, w, c, {})
    ensures var threshold := e.Routing().orderGatewayFailureThreshold;
            var summaries := Blacklist.RecordOutcome(w.summaries, done.orderId, done.gateway, done.status, threshold,
                                                     c).0;
            Sees(BlacklistStep(e, s, done), r, w.(summaries := summaries), c, {})
  {
  }

  /** From completion to the window statistics. */
  lemma CountAlone(x: Caller, s: Shared, done: Transaction, w: World, c: Time) returns (s': Shared)
    requires Sees(s, x.replica, w, c, {})
    ensures var g, r := done.gateway, x.env.Routing();
            var w' := w.(states := Ensured(w.states, g, c),
                         events := EventsAfter(w.events, r, g, done.id, done.status, c),
                         log := LogAfter(w.log, g, done.id, done.status, c));
            && Leads(x, s, Completed(done), s',
                     Settling(done, c, DecideOutcome(w'.states[g], WindowStats(w'.events, r, g, c))))
            && Sees(s', x.replica, w', c, {})
  {
    hide Leads, Coherent, EventsAfter, LogAfter, WindowStats;
    var pc, g, r := Completed(done), done.gateway, x.env.Routing();
    var w1 := w.(states := Ensured(w.states, g, c));
    var w2 := w1.(events := EventsAfter(w.events, r, g, done.id, done.status, c),
                  log := LogAfter(w.log, g, done.id, done.status, c));
    var state := w1.states[g];
    var s1 := Move(x, s, pc, s, Settling(done, c, EnsureGateway), w, c, {});
    EnsureSees(s1, x.replica, w, c, g);
    var s2 := Then(x, s, pc, s1, Settling(done, c, EnsureGateway), Ensure(s1, g, c), Settling(done, c, RecordEvent),
                   w1, c, {});
    RecordSees(s2, x.replica, w1, c, w2.events, w2.log);
    var s3 := Then(x, s, pc, s2, Settling(done, c, RecordEvent), s2.(events := w2.events, log := w2.log),
                   Settling(done, c, GetState), w2, c, {});
    var s4 := Then(x, s, pc, s3, Settling(done, c, GetState), s3, Settling(done, c, CountWindow(state)), w2, c, {});
    s' := Then(x, s, pc, s4, Settling(done, c, CountWindow(state)), s4,
               Settling(done, c, DecideOutcome(state, WindowStats(w2.events, r, g, c))), w2, c, {});
  }

  /** A callback that nobody interrupts does what the sequential machine does. */
  lemma CallbackAlone(x: Caller, s: Shared, input: CallbackInput, w: World, c: Time) returns (s': Shared, pc': Pc)
    requires Sees(s, x.replica, w, c, {})
    ensures Leads(x, s, Receiving(input), s', pc') && (pc'.Stopped? || pc'.Finished?)
    ensures Sees(s', x.replica, Callback(w, ConstantClock(x.env, c), input).0, c, {})
  {
    hide Leads, RecordCompleted, Inspect;
    var pc, id := Receiving(input), input.transactionId;
    if id !in w.txns || w.txns[id].gateway != input.gateway
      || (input.orderId != "" && w.txns[id].orderId != input.orderId) {
      pc' := Stopped;
      s' := Move(x, s, pc, s, Stopped, w, c, {});
    } else {
      var s1 := Move(x, s, pc, s, Completing(input), w, c, {});
      s', pc' := CompleteAlone(x, s1, input, w, c);
      Chain(x, s, pc, s1, Completing(input), s', pc');
    }
  }

  lemma CompleteAlone(x: Caller, s: Shared, input: CallbackInput, w: World, c: Time) returns (s': Shared, pc': Pc)
    requires Sees(s, x.replica, w, c, {})
    requires var id := input.transactionId;
             id in w.txns && w.txns[id].gateway == input.gateway
               && (input.orderId != "" ==> w.txns[id].orderId == input.orderId)
    ensures Leads(x, s, Completing(input), s', pc') && (pc'.Stopped? || pc'.Finished?)
    ensures Sees(s', x.replica, Callback(w, ConstantClock(x.env, c), input).0, c, {})
  {
    hide Leads, Coherent, RecordCompleted, Inspect;
    var pc, id := Completing(input), input.transactionId;
    var (txns, completion) := Transactions.Complete(w.txns, id, input.status, c);
    var w1 := w.(txns := txns, ticks := w.ticks + 1);
    if completion.Err? {
      pc' := Stopped;
      s' := Move(x, s, pc, s, Stopped, w1, c, {});
    } else {
      var done := completion.value.transaction;
      if completion.value.changed {
        pc' := Finished(done);
        TablesSee(s, x.replica, w, c, s.(txns := txns, completer := s.completer[id := x.thread]), w1);
        var s1 := Move(x, s, pc, s.(txns := txns, completer := s.completer[id := x.thread]), Completed(done), w1, c,
                       {});
        s' := RecordAlone(x, s1, done, w1, c);
        Chain(x, s, pc, s1, Completed(done), s', pc');
      } else {
        pc' := Stopped;
        var s1 := Move(x, s, pc, s, Inspecting(done.gateway, ClockForState), w1, c, {});
        s' := InspectAlone(x, s1, done.gateway, w1, c);
        Chain(x, s, pc, s1, Inspecting(done.gateway, ClockForState), s', Stopped);
      }
    }
  }

  // ---------------------------------------------------------------- runs of the whole system

  /** The caller's thread is at pc, and its replica sees w. */
  ghost predicate Standing(x: Caller, all: Global, pc: Pc, w: World, c: Time) {
    && x.thread in all.threads && all.threads[x.thread] == Thread(x.replica, pc)
    && Sees(all.shared, x.replica, w, c, {})
  }

  lemma LeadsOn(x: Caller, all: Global, pc: Pc, w: World, c: Time, s': Shared, pc': Pc, w': World)
    requires Standing(x, all, pc, w, c) && Leads(x, all.shared, pc, s', pc') && Sees(s', x.replica, w', c, {})
    ensures exists n: nat :: Standing(x, Advances(x, all, n), pc', w', c)
  {
    hide Sees, Advances, Steps;
    var n: nat :| Steps(x, all.shared, pc, n) == (s', pc');
    AdvancesAreSteps(x, all, n);
    assert Standing(x, Advances(x, all, n), pc', w', c);
  }

  /** In the interleaving system: if a thread's next steps are its own, an Initiate call that
      has just arrived comes to rest, and its replica then sees the world that the sequential
      Initiate makes of the one it saw. */
  lemma UninterruptedInitiate(x: Caller, all: Global, o: string, w: World, c: Time)
    requires Standing(x, all, Begin(o), w, c) && x.choice.id !in all.shared.minted
    ensures var input := InitiateInput(o, x.choice.id, (g: string) => x.choice.registered, x.choice.accepted);
            exists n: nat :: Standing(x, Advances(x, all, n), Stopped, Initiate(w, ConstantClock(x.env, c), input).0, c)
  {
    hide Sees, Leads, Initiate;
    var s' := InitiateAlone(x, all.shared, o, w, c);
    var input := InitiateInput(o, x.choice.id, (g: string) => x.choice.registered, x.choice.accepted);
    LeadsOn(x, all, Begin(o), w, c, s', Stopped, Initiate(w, ConstantClock(x.env, c), input).0);
  }

  /** And so does a callback. */
  lemma UninterruptedCallback(x: Caller, all: Global, input: CallbackInput, w: World, c: Time)
    requires Standing(x, all, Receiving(input), w, c)
    ensures exists n: nat, pc': Pc :: (pc'.Stopped? || pc'.Finished?)
              && Standing(x, Advances(x, all, n), pc', Callback(w, ConstantClock(x.env, c), input).0, c)
  {
    hide Sees, Leads, Callback;
    var s', pc' := CallbackAlone(x, all.shared, input, w, c);
    LeadsOn(x, all, Receiving(input), w, c, s', pc', Callback(w, ConstantClock(x.env, c), input).0);
  }
}
