/** A small system followed by hand: one gateway, one request, one failed callback. It shows
    what two of the general theorems cannot be strengthened to. */
module Scenario {
  import opened Domain
  import opened Breaker
  import opened EventLog
  import opened Reference
  import opened Selector

  const GATEWAY := GatewayConfig("g", true, 1)

  /** One gateway, one probe at a time; a window of two minutes, a cooldown of one, probes of half
      a minute; one failure trips. */
  const CONFIG := AppConfig(RoutingConfig(120, 60, 1, 1.0, 1, 30, 1), [GATEWAY])

  const ROUTING_TTL := 100 * MILLISECOND

  const WINDOW := 120 * SECOND

  /** The deadline of a trip at the start of the run, and the expiry of a probe granted at it. */
  const DEADLINE := 60 * SECOND
  const PROBE_END := DEADLINE + 30 * SECOND

  function At(c: Time): Setup {
    StoppedClock(CONFIG, ROUTING_TTL, c)
  }

  lemma Configured()
    ensures WithDefaults(CONFIG) == CONFIG && CONFIG.routing.Usable()
  {
  }

  lemma OneCandidate(counter: nat)
    ensures Select(counter, [GATEWAY]) == (Next(counter), Some(GATEWAY))
    ensures FilterExcluded([GATEWAY], {}) == [GATEWAY] && FilterExcluded([], {}) == []
  {
    assert TotalWeight([GATEWAY]) == 1 + TotalWeight([]);
    assert Next(counter) % 1 == 0;
  }

  function Requested(order: string, id: string): InitiateInput {
    InitiateInput(order, id, (g: string) => true, true)
  }

  lemma LoopOfOne(b: Build, s: Setup)
    ensures BuildPrefix(b, s, [GATEWAY], 1) == BuildStep(b, s, GATEWAY)
  {
  }

  /** The snapshot of a fresh system lists the gateway as healthy. */
  lemma FirstSnapshot()
    ensures var (w, snapshot) := TakeSnapshot(EMPTY_WORLD, At(0));
            && snapshot == Snapshot([GATEWAY], [], Some(ROUTING_TTL))
            && w == EMPTY_WORLD.(states := map["g" := Breaker.Fresh("g", 0)], snapshot := snapshot, ticks := w.ticks)
  {
    Configured();
    var b := Build(map[], 1, [], []);
    LoopOfOne(b, At(0));
    var state := Breaker.Fresh("g", 0);
    assert Prepare(state, 0) == state;
    assert PrepareFor(map[], "g", 0) == map["g" := state];
  }

  lemma FirstInitiate()
    ensures var w := Initiate(EMPTY_WORLD, At(0), Requested("a", "t0")).0;
            && w.states == map["g" := Breaker.Fresh("g", 0)] && w.events == [] && w.summaries == map[]
            && w.snapshot == Snapshot([GATEWAY], [], Some(ROUTING_TTL))
            && w.txns == map["t0" := Transaction("t0", "a", 1, "g", Pending, 0, 0, None)]
  {
    hide TakeSnapshot, Select, FilterExcluded;
    FirstSnapshot();
    OneCandidate(0);
    assert Excluded(EMPTY_WORLD, "a") == {};
    assert SelectGateway(EMPTY_WORLD, At(0), "t0", {}).1 == Ok(Selection(GATEWAY, false));
  }

  const TRIPPED := RuntimeState("g", Unhealthy, Some(DEADLINE), 0, [], 0)

  lemma OneFailureTrips()
    ensures var stats := StatsOf([Event("g", "t0", Failure, 0)], "g", -WINDOW, 0);
            Breached(stats, CONFIG.routing)
  {
  }

  lemma FirstFailure(w: World)
    requires w.states == map["g" := Breaker.Fresh("g", 0)] && w.events == [] && w.summaries == map[]
    requires w.txns == map["t0" := Transaction("t0", "a", 1, "g", Pending, 0, 0, None)]
    ensures var w' := Callback(w, At(0), CallbackInput("t0", "", "g", Failure)).0;
            && w'.states == map["g" := TRIPPED] && w'.snapshot == w.snapshot
            && w'.summaries.Keys == {"a"} && w'.txns.Keys == {"t0"}
  {
    hide StatsOf, Breached;
    Configured();
    OneFailureTrips();
    assert Retain([], -2 * WINDOW) == [];
    assert EventsAfter([], CONFIG.routing, "g", "t0", Failure, 0) == [Event("g", "t0", Failure, 0)];
  }

  /** A second request within the lifetime of the first one's snapshot. */
  lemma SecondInitiate(w: World)
    requires w.states == map["g" := Breaker.Fresh("g", 0)] && w.events == [] && w.summaries == map[]
    requires w.snapshot == Snapshot([GATEWAY], [], Some(ROUTING_TTL))
    requires w.txns == map["t0" := Transaction("t0", "a", 1, "g", Pending, 0, 0, None)]
    ensures var w' := Initiate(w, At(0), Requested("b", "t1")).0;
            && w'.states == w.states && w'.events == [] && w'.summaries == map[]
            && "t0" in w'.txns && w'.txns["t0"] == w.txns["t0"]
            && "t1" in w'.txns && w'.txns["t1"].gateway == "g" && w'.txns["t1"].status == Pending
            && w'.txns["t1"].id == "t1"
  {
    hide Select, FilterExcluded;
    OneCandidate(w.counter);
    assert Excluded(w, "b") == {};
    assert SelectGateway(w, At(0), "t1", {}).1 == Ok(Selection(GATEWAY, false));
  }

  /** The events after the first request has succeeded and the second has failed. */
  const MIXED := [Event("g", "t0", Success, 0), Event("g", "t1", Failure, 0)]

  lemma CountsOfMixed()
    ensures StatsOf(MIXED[..1], "g", -WINDOW, 0) == Stats("g", 1, 0)
    ensures StatsOf(MIXED, "g", -WINDOW, 0) == Stats("g", 1, 1)
  {
    var first: seq<Event>, none: seq<Event> := MIXED[..1], [];
    assert MIXED == first + [MIXED[1]] && first == none + [MIXED[0]];
    CountAppend(none, MIXED[0], "g", Success, -WINDOW, 0);
    CountAppend(none, MIXED[0], "g", Failure, -WINDOW, 0);
    CountAppend(first, MIXED[1], "g", Success, -WINDOW, 0);
    CountAppend(first, MIXED[1], "g", Failure, -WINDOW, 0);
  }

  lemma HalfTrips()
    ensures !Breached(Stats("g", 1, 0), CONFIG.routing) && Breached(Stats("g", 1, 1), CONFIG.routing)
  {
  }

  lemma NothingIsTooOld()
    ensures Retain(MIXED[..1], -2 * WINDOW) == MIXED[..1] && Retain([], -2 * WINDOW) == []
  {
    assert MIXED[..1] == [] + [MIXED[0]];
    RetainAppend([], MIXED[0], -2 * WINDOW);
  }

  lemma MixedOutcomesTrip()
    ensures !Breached(StatsOf(MIXED[..1], "g", -WINDOW, 0), CONFIG.routing)
    ensures Breached(StatsOf(MIXED, "g", -WINDOW, 0), CONFIG.routing)
    ensures Retain(MIXED[..1], -2 * WINDOW) == MIXED[..1] && Retain([], -2 * WINDOW) == []
  {
    hide StatsOf, Breached, Retain;
    CountsOfMixed();
    HalfTrips();
    NothingIsTooOld();
  }

  lemma SecondFails(w: World)
    requires w.states == map["g" := Breaker.Fresh("g", 0)] && w.events == MIXED[..1]
    requires "t1" in w.txns && w.txns["t1"].gateway == "g" && w.txns["t1"].status == Pending && w.txns["t1"].id == "t1"
    ensures Callback(w, At(0), CallbackInput("t1", "", "g", Failure)).0.states == map["g" := TRIPPED]
  {
    hide StatsOf, Breached, Retain;
    Configured();
    MixedOutcomesTrip();
    assert EventsAfter(w.events, CONFIG.routing, "g", "t1", Failure, 0) == MIXED;
  }

  /** The second request of the run, alone: it reopens the gateway and gets its one token. */
  lemma ProbeInitiate(w: World)
    requires w.states == map["g" := TRIPPED] && w.snapshot.expiresAt == Some(ROUTING_TTL)
    requires w.summaries.Keys == {"a"} && w.txns.Keys == {"t0"}
    ensures var w' := Initiate(w, At(DEADLINE), Requested("c", "tB")).0;
            && w'.states.Keys == {"g"} && w'.summaries.Keys == {"a"}
            && w'.states["g"].probes == [Probe("tB", UnixMilli(PROBE_END))]
  {
    hide TakeSnapshot, Select, FilterExcluded;
    Configured();
    ReopeningSnapshot(w);
    var (w1, snapshot) := TakeSnapshot(w, At(DEADLINE));
    OneCandidate(w.counter);
    assert Live([], UnixMilli(DEADLINE)) == [];
    assert Excluded(w, "c") == {};
    var w2 := w1.(counter := Next(w.counter));
    assert MarkProbe(w2, At(DEADLINE), "g", "tB").1 == Ok(());
    var w' := Initiate(w, At(DEADLINE), Requested("c", "tB")).0;
    assert w'.states["g"].probes == [Probe("tB", UnixMilli(PROBE_END))];
  }

  function Reopened(): RuntimeState {
    Pruned(ToHalfOpen(TRIPPED, DEADLINE), DEADLINE)
  }

  lemma ReopenedState()
    ensures Prepare(TRIPPED, DEADLINE) == Reopened()
    ensures Reopened() == RuntimeState("g", HalfOpen, Some(DEADLINE), 0, [], DEADLINE)
  {
  }

  lemma ReopeningSnapshot(w: World)
    requires w.states == map["g" := TRIPPED] && w.snapshot.expiresAt == Some(ROUTING_TTL)
    ensures var (w', snapshot) := TakeSnapshot(w, At(DEADLINE));
            && snapshot.probes == [GATEWAY] && snapshot.healthy == []
            && w' == w.(states := map["g" := Reopened()], snapshot := snapshot, ticks := w'.ticks)
  {
    Configured();
    var b := Build(w.states, w.ticks + 1, [], []);
    LoopOfOne(b, At(DEADLINE));
    ReopenedState();
    assert PrepareFor(w.states, "g", DEADLINE) == map["g" := Reopened()];
  }

  /** The documentation says unhealthy gateways are excluded from routing until their
      deadline; for the lifetime of a snapshot they are not. Here a request is routed to a
      gateway that the callback before it has tripped. */
  lemma TrippedGatewayIsStillRouted()
    ensures var s := At(0);
            var w1 := Initiate(EMPTY_WORLD, s, Requested("a", "t0")).0;
            var w2 := Callback(w1, s, CallbackInput("t0", "", "g", Failure)).0;
            var (_, res) := Initiate(w2, s, Requested("b", "t1"));
            "g" in w2.states && w2.states["g"].phase == Unhealthy && res.Ok? && res.value.gateway == "g"
  {
    hide Select, FilterExcluded, Callback;
    FirstInitiate();
    var s := At(0);
    var w1 := Initiate(EMPTY_WORLD, s, Requested("a", "t0")).0;
    FirstFailure(w1);
    var w2 := Callback(w1, s, CallbackInput("t0", "", "g", Failure)).0;
    OneCandidate(w2.counter);
    assert Excluded(w2, "b") == {};
    assert SelectGateway(w2, s, "t1", {}).1 == Ok(Selection(GATEWAY, false));
  }
}
