/** What a callback does to its gateway and what a grant writes, told from the configured
    seconds and the events of the log: no window, rate, deadline or expiry is taken from the
    functions that compute it. */
module ReferenceVerdicts {
  import opened Domain
  import opened Breaker
  import opened EventLog
  import opened Reference
  import opened Quiet
  import opened ReferenceInvariant
  import opened ReferenceTheorems

  const NANOS := 1_000_000_000

  /** The number of g's outcomes in the window that ends at now. */
  ghost function InWindow(log: seq<Event>, s: Setup, g: string, status: Status, now: Time): nat {
    |Outcomes(log, g, status, now - s.Routing().healthWindowSeconds * NANOS, now)|
  }

  lemma StatsAreCounts(log: seq<Event>, s: Setup, g: string, now: Time)
    ensures WindowStats(log, s.Routing(), g, now)
         == Stats(g, InWindow(log, s, g, Success, now), InWindow(log, s, g, Failure, now))
  {
    var since := now - s.Routing().healthWindowSeconds * NANOS;
    CountIsCardinality(log, g, Success, since, now);
    CountIsCardinality(log, g, Failure, since, now);
  }

  // ---------------------------------------------------------------- the verdict

  /** After any run: the first final callback of a transaction on a healthy gateway logs its
      outcome and trips the gateway if and only if the window, its own outcome included, holds
      the minimum of outcomes and too few successes among them; otherwise it stays healthy. */
  lemma TripsExactlyWhen(s: Setup, ops: seq<Operation>, input: CallbackInput, g: string)
    requires Sane(s) && FreshIds(EMPTY_WORLD, s, ops)
    requires JudgesHealthy(Run(EMPTY_WORLD, s, ops), s, input, g)
    ensures var w := Run(EMPTY_WORLD, s, ops);
            var w', now, r := Callback(w, s, input).0, s.at(w.ticks + 1), s.Routing();
            var succeeded, failed := InWindow(w'.log, s, g, Success, now), InWindow(w'.log, s, g, Failure, now);
            && w'.log == w.log + [Event(g, input.transactionId, input.status, now)]
            && g in w'.states
            && w'.states[g] ==
                 if && succeeded + failed >= r.minCallbackCount
                    && succeeded as real < r.successRateThreshold * (succeeded + failed) as real
                 then RuntimeState(g, Unhealthy, Some(now + r.unhealthyCooldownSeconds * NANOS), 0, [], now)
                 else RuntimeState(g, Healthy, None, 0, [], now)
  {
    hide Callback, Inv, Run, FreshIds, WindowStats, InWindow, Breached;
    EmptyWorldIsOk(s);
    RunKeeps(EMPTY_WORLD, s, ops);
    var w := Run(EMPTY_WORLD, s, ops);
    var w', now := Callback(w, s, input).0, s.at(w.ticks + 1);
    HealthyVerdict(w, s, input, g, w');
    StatsAreCounts(w'.log, s, g, now);
    BreachIsTooManyFailures(WindowStats(w'.log, s.Routing(), g, now), s.Routing());
    StoredUnder(w, s, g);
    CompletedStates(w, s, input, g);
    JudgedState(w.states, WindowStats(w'.events, s.Routing(), g, now), s.Routing(), g, input.transactionId,
                input.status, now);
  }

  lemma StoredUnder(w: World, s: Setup, g: string)
    requires Inv(w, s)
    ensures KeyedById(w.txns) && (g in w.states ==> WellFormed(w.states[g], g, Max(s)))
  {
  }

  /** The state a verdict on a healthy gateway writes. */
  lemma JudgedState(states: States, stats: Stats, r: RoutingConfig, g: string, tx: string, status: Status, now: Time)
    requires StateOf(states, g).phase == Healthy && (g in states ==> states[g].gateway == g)
    ensures var b := OutcomeFor(states, stats, r, g, tx, status, now);
            && g in b
            && b[g] == if b[g].phase == Unhealthy
                       then RuntimeState(g, Unhealthy, Some(now + r.unhealthyCooldownSeconds * NANOS), 0, [], now)
                       else RuntimeState(g, Healthy, None, 0, [], now)
  {
    hide Breached;
  }

  /** The transaction holds a live token. */
  ghost predicate HoldsLive(state: RuntimeState, tx: string, now: Time) {
    exists p :: p in LiveAt(state.probes, now) && p.transactionId == tx
  }

  /** After any run: the first final callback of a transaction on a half-open gateway decides it
      by its own status if and only if the transaction still holds a live token there; any
      other only drops the expired tokens. */
  lemma ProbeDecidesExactlyWhen(s: Setup, ops: seq<Operation>, input: CallbackInput, g: string)
    requires Sane(s) && FreshIds(EMPTY_WORLD, s, ops)
    requires var w := Run(EMPTY_WORLD, s, ops);
             Completes(w, input, g) && StateOf(w.states, g).phase == HalfOpen
    ensures var w := Run(EMPTY_WORLD, s, ops);
            var before, after, now := w.states[g], StateOf(Callback(w, s, input).0.states, g), s.at(w.ticks + 1);
            var cooldown := s.Routing().unhealthyCooldownSeconds * NANOS;
            if !HoldsLive(before, input.transactionId, now) then
              && after == before.(probes := after.probes, inFlight := |after.probes|, updatedAt := now)
              && forall p :: p in after.probes <==> p in LiveAt(before.probes, now)
            else if input.status == Success then after == RuntimeState(g, Healthy, None, 0, [], now)
            else after == RuntimeState(g, Unhealthy, Some(now + cooldown), 0, [], now)
  {
    hide Callback, Inv, Run, FreshIds;
    EmptyWorldIsOk(s);
    RunKeeps(EMPTY_WORLD, s, ops);
    var w := Run(EMPTY_WORLD, s, ops);
    StoredUnder(w, s, g);
    CompletedStates(w, s, input, g);
    ReleaseExactly(w.states[g], input.transactionId, s.at(w.ticks + 1));
  }

  /** After any run: the first final callback of a transaction on an unhealthy gateway opens it
      to probes if and only if its deadline has come, and changes nothing of it before. */
  lemma DeadlineOpensExactlyWhen(s: Setup, ops: seq<Operation>, input: CallbackInput, g: string)
    requires Sane(s) && FreshIds(EMPTY_WORLD, s, ops)
    requires var w := Run(EMPTY_WORLD, s, ops);
             Completes(w, input, g) && StateOf(w.states, g).phase == Unhealthy
    ensures var w := Run(EMPTY_WORLD, s, ops);
            var before, after := w.states[g], StateOf(Callback(w, s, input).0.states, g);
            && before.unhealthyUntil.Some?
            && after == if before.unhealthyUntil.value > s.at(w.ticks + 1) then before
                        else RuntimeState(g, HalfOpen, before.unhealthyUntil, 0, [], s.at(w.ticks + 1))
  {
    hide Callback, Inv, Run, FreshIds;
    EmptyWorldIsOk(s);
    RunKeeps(EMPTY_WORLD, s, ops);
    var w := Run(EMPTY_WORLD, s, ops);
    StoredUnder(w, s, g);
    CompletedStates(w, s, input, g);
  }

  /** A callback that completes a transaction applies the breaker's outcome to its gateway. */
  lemma CompletedStates(w: World, s: Setup, input: CallbackInput, g: string)
    requires Completes(w, input, g) && KeyedById(w.txns)
    ensures var w', now := Callback(w, s, input).0, s.at(w.ticks + 1);
            w'.states == OutcomeFor(w.states, WindowStats(w'.events, s.Routing(), g, now), s.Routing(), g,
                                    input.transactionId, input.status, now)
  {
    hide Callback;
    var done := Completed(w, s, input);
    CompletingCallback(w, s, input, g);
    RecordedFields(w.(txns := w.txns[input.transactionId := done], ticks := w.ticks + 1), s, done);
  }

  /** After any run: only a callback trips a gateway, and the deadline it sets lies the configured
      seconds after the reading at which it records the outcome. */
  lemma TripSetsTheDeadline(s: Setup, ops: seq<Operation>, op: Operation, g: string)
    requires Sane(s) && FreshIds(EMPTY_WORLD, s, ops) && Admissible(Run(EMPTY_WORLD, s, ops), op)
    ensures var w := Run(EMPTY_WORLD, s, ops);
            Trips(w, s, op, g) ==>
              && op.CallbackOp?
              && StateOf(Perform(w, s, op).states, g).unhealthyUntil
                 == Some(s.at(w.ticks + 1) + s.Routing().unhealthyCooldownSeconds * NANOS)
  {
    hide Callback, Inv, Run, FreshIds, Initiate, Observe;
    EmptyWorldIsOk(s);
    RunKeeps(EMPTY_WORLD, s, ops);
    var w := Run(EMPTY_WORLD, s, ops);
    PhasesMoveAlongArrows(w, s, op, g);
    if Trips(w, s, op, g) {
      var input := op.callback;
      var h := if input.transactionId in w.txns then w.txns[input.transactionId].gateway else "";
      if input.transactionId in w.txns && Completes(w, input, h) {
        TrippedByOutcome(w, s, input, h, g);
      } else {
        OtherCallbackIsQuiet(w, s, input, g);
      }
    }
  }

  lemma TrippedByOutcome(w: World, s: Setup, input: CallbackInput, h: string, g: string)
    requires Completes(w, input, h) && KeyedById(w.txns)
    requires StateOf(w.states, g).phase != Unhealthy && StateOf(Callback(w, s, input).0.states, g).phase == Unhealthy
    ensures StateOf(Callback(w, s, input).0.states, g).unhealthyUntil
         == Some(s.at(w.ticks + 1) + s.Routing().unhealthyCooldownSeconds * NANOS)
  {
    hide Callback, WindowStats;
    CompletedStates(w, s, input, h);
    var now := s.at(w.ticks + 1);
    var stats := WindowStats(Callback(w, s, input).0.events, s.Routing(), h, now);
    assert g == h;
    OutcomeMoves(Ensured(w.states, h, now)[h], stats, input.transactionId, input.status, s.Routing(), now);
  }

  /** After any run: an answer that is a probe leaves a token of the request with the gateway,
      which expires the configured seconds after the last reading of the selection. */
  lemma GrantSetsTheExpiry(s: Setup, ops: seq<Operation>, tx: string, excluded: set<string>)
    requires Sane(s) && FreshIds(EMPTY_WORLD, s, ops) && tx !in Run(EMPTY_WORLD, s, ops).txns
    ensures var w := Run(EMPTY_WORLD, s, ops);
            var (w', res) := SelectGateway(w, s, tx, excluded);
            res.Ok? && res.value.halfOpenProbe ==>
              var expiresAt := s.at(w'.ticks - 1) + s.Routing().halfOpenProbeTimeoutSeconds * NANOS;
              && w'.ticks > w.ticks && res.value.gateway.name in w'.states
              && forall p :: p in w'.states[res.value.gateway.name].probes && p.transactionId == tx
                   <==> p == Probe(tx, expiresAt / 1_000_000)
  {
    hide SelectGateway, Inv, Run, FreshIds, TakeSnapshot;
    EmptyWorldIsOk(s);
    RunKeeps(EMPTY_WORLD, s, ops);
    var w := Run(EMPTY_WORLD, s, ops);
    SelectGatewayKeeps(w, s, tx, excluded);
    var (w', res) := SelectGateway(w, s, tx, excluded);
    if res.Ok? && res.value.halfOpenProbe {
      var mid, g, now := TakeSnapshot(w, s).0.states, res.value.gateway.name, s.at(w'.ticks - 1);
      QuietKeepsTokens(w.states, mid, w.txns, Max(s), now);
      NoTokenOf(mid, w.txns, g, tx);
      GrantedToken(mid, w'.states, s, g, tx, now);
    }
  }

  lemma GrantedToken(mid: States, b: States, s: Setup, g: string, tx: string, now: Time)
    requires Granted(mid, b, s, g, tx, now) && !Holds(mid[g].probes, tx)
    ensures var expiresAt := now + s.Routing().halfOpenProbeTimeoutSeconds * NANOS;
            forall p :: p in b[g].probes && p.transactionId == tx <==> p == Probe(tx, expiresAt / 1_000_000)
  {
    LiveMembers(mid[g].probes, UnixMilli(now));
  }

  /** After any run: recording an outcome drops from the retained events exactly those older
      than twice the configured window, and adds its own. */
  lemma RetentionIsTwiceTheWindow(s: Setup, ops: seq<Operation>, input: CallbackInput, g: string)
    requires Sane(s) && FreshIds(EMPTY_WORLD, s, ops) && Completes(Run(EMPTY_WORLD, s, ops), input, g)
    ensures var w := Run(EMPTY_WORLD, s, ops);
            var w', now := Callback(w, s, input).0, s.at(w.ticks + 1);
            forall e :: e in w'.events <==>
              || (e in w.events && e.createdAt >= now - 2 * s.Routing().healthWindowSeconds * NANOS)
              || e == Event(g, input.transactionId, input.status, now)
  {
    hide Callback, Inv, Run, FreshIds, WindowStats;
    EmptyWorldIsOk(s);
    RunKeeps(EMPTY_WORLD, s, ops);
    var w := Run(EMPTY_WORLD, s, ops);
    var done := Completed(w, s, input);
    StoredUnder(w, s, g);
    CompletingCallback(w, s, input, g);
    RecordedFields(w.(txns := w.txns[input.transactionId := done], ticks := w.ticks + 1), s, done);
    RetainMembers(w.events, s.at(w.ticks + 1) - s.Routing().Retention());
  }

  lemma {:induction false} RetainMembers(es: seq<Event>, cutoff: Time)
    ensures forall e :: e in Retain(es, cutoff) <==> e in es && e.createdAt >= cutoff
  {
    if es != [] {
      var rest := es[..|es| - 1];
      RetainMembers(rest, cutoff);
      assert es == rest + [es[|es| - 1]];
    }
  }
}
