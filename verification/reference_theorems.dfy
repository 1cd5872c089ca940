/** What a caller of the sequential router can rely on over whole runs. Every world named
    here satisfies the run invariant, which RunKeeps carries through every run from the
    empty world. */
module ReferenceTheorems {
  import opened Domain
  import opened Breaker
  import opened EventLog
  import opened Selector
  import opened Reference
  import opened Quiet
  import opened ReferenceInvariant
  import Transactions

  /** The last of the first n clock readings. */
  function Latest(s: Setup, n: nat): Time {
    s.at(if n == 0 then 0 else n - 1)
  }

  // ---------------------------------------------------------------- selection is sound and complete

  ghost predicate Weighted(cs: seq<GatewayConfig>) {
    forall c :: c in cs ==> c.weight > 0
  }

  /** An answer comes from the list it is drawn from, and a non-empty healthy list answers. */
  ghost predicate DrawnFrom(probes: seq<GatewayConfig>, healthy: seq<GatewayConfig>, res: Result<Selection>) {
    && (res.Ok? ==> res.value.gateway in if res.value.halfOpenProbe then probes else healthy)
    && (healthy != [] ==> res.Ok?)
  }

  lemma HealthyIsDrawn(w: World, probes: seq<GatewayConfig>, healthy: seq<GatewayConfig>)
    requires Weighted(healthy)
    ensures DrawnFrom(probes, healthy, SelectHealthy(w, healthy).1)
  {
    SelectAnswers(w.counter, healthy);
    if healthy != [] {
      assert healthy[0] in healthy;
    }
  }

  lemma ProbeIsDrawn(w: World, s: Setup, tx: string, probes: seq<GatewayConfig>, healthy: seq<GatewayConfig>)
    requires Weighted(probes) && Weighted(healthy) && probes != []
    ensures DrawnFrom(probes, healthy, SelectProbe(w, s, tx, probes, healthy).1)
  {
    SelectAnswers(w.counter, probes);
    assert probes[0] in probes;
    var (counter, chosen) := Select(w.counter, probes);
    var (w2, marked) := MarkProbe(w.(counter := counter), s, chosen.value.name, tx);
    HealthyIsDrawn(w2.(snapshot := NO_SNAPSHOT), probes, healthy);
  }

  lemma SelectionIsDrawn(w: World, s: Setup, tx: string, excluded: set<string>)
    requires Sane(s) && Inv(w, s)
    ensures var snapshot := TakeSnapshot(w, s).1;
            DrawnFrom(FilterExcluded(snapshot.probes, excluded), FilterExcluded(snapshot.healthy, excluded),
                      SelectGateway(w, s, tx, excluded).1)
  {
    TakeSnapshotKeeps(w, s);
    var (w1, snapshot) := TakeSnapshot(w, s);
    var probes, healthy := FilterExcluded(snapshot.probes, excluded), FilterExcluded(snapshot.healthy, excluded);
    FilterMembers(snapshot.probes, excluded);
    FilterMembers(snapshot.healthy, excluded);
    assert Weighted(probes) && Weighted(healthy);
    if probes != [] {
      ProbeIsDrawn(w1, s, tx, probes, healthy);
    } else {
      HealthyIsDrawn(w1, probes, healthy);
    }
  }

  /** A healthy answer comes from the snapshot's healthy list, a probe answer from its probe
      list; neither is excluded, disabled or weightless; a probe answer leaves the
      transaction's token with the half-open gateway; and while a non-excluded healthy
      candidate is listed the call answers, whatever happens to probes. */
  lemma SelectionIsSoundAndComplete(w: World, s: Setup, tx: string, excluded: set<string>)
    requires Sane(s) && Inv(w, s) && tx !in w.txns
    ensures var (w', res) := SelectGateway(w, s, tx, excluded);
            var snapshot := TakeSnapshot(w, s).1;
            && (res.Ok? ==> Chosen(res.value.gateway, w'.states, s, excluded))
            && (res.Ok? && !res.value.halfOpenProbe ==> res.value.gateway in snapshot.healthy)
            && (res.Ok? && res.value.halfOpenProbe ==>
                  var g := res.value.gateway.name;
                  && res.value.gateway in snapshot.probes
                  && w'.states[g].phase == HalfOpen && Holds(w'.states[g].probes, tx))
            && ((exists c :: c in snapshot.healthy && c.name !in excluded) ==> res.Ok?)
  {
    SelectGatewayKeeps(w, s, tx, excluded);
    SelectionIsDrawn(w, s, tx, excluded);
    var (w1, snapshot) := TakeSnapshot(w, s);
    var (w', res) := SelectGateway(w, s, tx, excluded);
    FilterMembers(snapshot.probes, excluded);
    FilterMembers(snapshot.healthy, excluded);
    if res.Ok? && res.value.halfOpenProbe {
      GrantLeavesToken(w1.states, w'.states, s, res.value.gateway.name, tx, s.at(w'.ticks - 1));
    }
  }

  lemma GrantLeavesToken(mid: States, b: States, s: Setup, g: string, tx: string, now: Time)
    requires Granted(mid, b, s, g, tx, now)
    ensures b[g].phase == HalfOpen && Holds(b[g].probes, tx)
  {
  }

  // ---------------------------------------------------------------- tokens never leak

  /** After any run every token names a stored pending transaction on its gateway; and an
      Initiate that fails, on whatever path, leaves every gateway's unexpired tokens and the
      transaction table as they were. */
  lemma TokensNeverLeak(s: Setup, ops: seq<Operation>, input: InitiateInput, g: string, now: Time)
    requires Sane(s) && FreshIds(EMPTY_WORLD, s, ops)
    ensures var w := Run(EMPTY_WORLD, s, ops);
            && TokensPending(w.states, w.txns)
            && (input.transactionId !in w.txns ==>
                  var (w', res) := Initiate(w, s, input);
                  res.Err? && g in w'.states && now >= Latest(s, w'.ticks) ==>
                    && w'.txns == w.txns
                    && Live(w'.states[g].probes, UnixMilli(now)) == Live(StateOf(w.states, g).probes, UnixMilli(now)))
  {
    EmptyWorldIsOk(s);
    RunKeeps(EMPTY_WORLD, s, ops);
    var w := Run(EMPTY_WORLD, s, ops);
    var (w', res) := Initiate(w, s, input);
    if input.transactionId !in w.txns && res.Err? && g in w'.states && now >= Latest(s, w'.ticks) {
      FailedInitiateKeepsTokens(w, s, input, g, now);
    }
  }

  lemma FailedInitiateKeepsTokens(w: World, s: Setup, input: InitiateInput, g: string, now: Time)
    requires Sane(s) && Inv(w, s) && input.transactionId !in w.txns
    requires var (w', res) := Initiate(w, s, input);
             res.Err? && g in w'.states && now >= Latest(s, w'.ticks)
    ensures var w' := Initiate(w, s, input).0;
            && w'.txns == w.txns
            && Live(w'.states[g].probes, UnixMilli(now)) == Live(StateOf(w.states, g).probes, UnixMilli(now))
  {
    InitiateKeeps(w, s, input);
    var w' := Initiate(w, s, input).0;
    UnixMilliMonotone(s.at(w'.ticks - 1), now);
    assert QuietState(StateOf(w.states, g), w'.states[g], s.at(w'.ticks - 1));
  }

  // ---------------------------------------------------------------- the blacklist, end to end

  /** What an order is kept from, in terms of the transaction table: exactly the gateways
      that failed it often enough and never succeeded. An empty order id is kept from none. */
  lemma ExcludedExactlyWhen(w: World, s: Setup, o: string, g: string)
    requires Inv(w, s)
    ensures g in Excluded(w, o) <==>
            && o != ""
            && |FinalIds(w.txns, o, g, Success)| == 0
            && |FinalIds(w.txns, o, g, Failure)| >= s.Routing().orderGatewayFailureThreshold
  {
  }

  /** After any run: an order that has failed often enough on a gateway, without a success
      there, is never routed to it; a success there lifts the exclusion for good. */
  lemma FailedGatewayIsNotRetried(s: Setup, ops: seq<Operation>, input: InitiateInput, g: string)
    requires Sane(s) && FreshIds(EMPTY_WORLD, s, ops) && input.orderId != ""
    ensures var w := Run(EMPTY_WORLD, s, ops);
            var failed, succeeded := |FinalIds(w.txns, input.orderId, g, Failure)|,
                |FinalIds(w.txns, input.orderId, g, Success)|;
            && (failed >= s.Routing().orderGatewayFailureThreshold && succeeded == 0
                && input.transactionId !in w.txns ==>
                  var (_, res) := Initiate(w, s, input);
                  res.Ok? ==> res.value.gateway != g)
            && (succeeded > 0 ==> g !in Excluded(w, input.orderId))
  {
    EmptyWorldIsOk(s);
    RunKeeps(EMPTY_WORLD, s, ops);
    var w := Run(EMPTY_WORLD, s, ops);
    ExcludedExactlyWhen(w, s, input.orderId, g);
    if input.transactionId !in w.txns {
      InitiateKeeps(w, s, input);
    }
  }

  /** A success stays a success: transactions are never deleted and final ones never change. */
  lemma {:induction false} FinalIdsOnlyGrow(
      w: World, s: Setup, ops: seq<Operation>, o: string, g: string, status: Status)
    requires Sane(s) && Inv(w, s) && FreshIds(w, s, ops) && status.IsFinal()
    ensures FinalIds(w.txns, o, g, status) <= FinalIds(Run(w, s, ops).txns, o, g, status)
  {
    if ops != [] {
      var rest, op := ops[..|ops| - 1], ops[|ops| - 1];
      FreshPrefix(w, s, ops);
      RunKeeps(w, s, rest);
      FinalIdsOnlyGrow(w, s, rest, o, g, status);
      FinalIdsGrowInAStep(Run(w, s, rest), s, op, o, g, status);
    }
  }

  lemma FinalIdsGrowInAStep(w: World, s: Setup, op: Operation, o: string, g: string, status: Status)
    requires Sane(s) && Inv(w, s) && Admissible(w, op) && status.IsFinal()
    ensures FinalIds(w.txns, o, g, status) <= FinalIds(Perform(w, s, op).txns, o, g, status)
  {
    hide Inv, Initiate, Callback;
    match op
    case InitiateOp(input) => InitiateKeeps(w, s, input);
    case CallbackOp(input) => CallbackTable(w, s, input);
    case ObserveOp(_) =>
  }

  /** A callback changes the table by Complete or not at all. */
  lemma CallbackTable(w: World, s: Setup, input: CallbackInput)
    ensures var txns := Callback(w, s, input).0.txns;
            txns == w.txns || txns == Transactions.Complete(w.txns, input.transactionId, input.status, s.at(w.ticks)).0
  {
  }

  // ---------------------------------------------------------------- transitions

  /** Either the phase stays, or it moves along an arrow at one of the clock readings taken. */
  ghost predicate Moves(w: World, w': World, s: Setup, g: string) {
    || StateOf(w'.states, g).phase == StateOf(w.states, g).phase
    || exists k: nat ::
         w.ticks <= k < w'.ticks && LegalMove(StateOf(w.states, g), StateOf(w'.states, g), s.Routing(), s.at(k))
  }

  lemma QuietMoves(w: World, w': World, s: Setup, g: string)
    requires w'.ticks > w.ticks && QuietStep(w.states, w'.states, Max(s), s.at(w'.ticks - 1))
    ensures Moves(w, w', s, g)
    ensures StateOf(w'.states, g).phase != StateOf(w.states, g).phase ==>
              StateOf(w.states, g).phase == Unhealthy && StateOf(w'.states, g).phase == HalfOpen
  {
  }

  lemma SelectMoves(
      w: World, mid: States, s: Setup, tx: string, excluded: set<string>, w1: World, res: Result<Selection>,
      g: string)
    requires Selected(w, mid, s, tx, excluded, w1, res)
    ensures Moves(w, w1, s, g)
    ensures StateOf(w1.states, g).phase != StateOf(w.states, g).phase ==>
              StateOf(w.states, g).phase == Unhealthy && StateOf(w1.states, g).phase == HalfOpen
  {
    var wm := w1.(states := mid);
    QuietMoves(w, wm, s, g);
    if res.Ok? && res.value.halfOpenProbe {
      assert StateOf(w1.states, g).phase == StateOf(mid, g).phase;
      assert StateOf(w1.states, g).unhealthyUntil == StateOf(mid, g).unhealthyUntil;
      if StateOf(wm.states, g).phase != StateOf(w.states, g).phase {
        var k: nat :| w.ticks <= k < wm.ticks && LegalMove(StateOf(w.states, g), StateOf(mid, g), s.Routing(), s.at(k));
        assert LegalMove(StateOf(w.states, g), StateOf(w1.states, g), s.Routing(), s.at(k));
      }
    } else {
      QuietMoves(w, w1, s, g);
    }
  }

  lemma SubmitKeepsPhases(w: World, s: Setup, input: InitiateInput, selection: Selection, g: string)
    ensures var w' := Submit(w, s, input, selection).0;
            && w'.ticks >= w.ticks
            && StateOf(w'.states, g).phase == StateOf(w.states, g).phase
            && StateOf(w'.states, g).unhealthyUntil == StateOf(w.states, g).unhealthyUntil
            && (StateOf(w.states, g).phase == Unhealthy ==> StateOf(w'.states, g) == StateOf(w.states, g))
  {
  }

  lemma LaterMoves(w: World, w1: World, w': World, s: Setup, g: string)
    requires Moves(w, w1, s, g) && w1.ticks <= w'.ticks
    requires StateOf(w'.states, g).phase == StateOf(w1.states, g).phase
    requires StateOf(w'.states, g).unhealthyUntil == StateOf(w1.states, g).unhealthyUntil
    ensures Moves(w, w', s, g)
  {
  }

  lemma InitiateMoves(w: World, s: Setup, input: InitiateInput, g: string)
    requires Sane(s) && Inv(w, s) && input.transactionId !in w.txns
    ensures var w' := Initiate(w, s, input).0;
            && Moves(w, w', s, g)
            && (StateOf(w'.states, g).phase != StateOf(w.states, g).phase ==>
                  StateOf(w.states, g).phase == Unhealthy && StateOf(w'.states, g).phase == HalfOpen)
  {
    var excluded := Excluded(w, input.orderId);
    SelectGatewayKeeps(w, s, input.transactionId, excluded);
    var (w1, selected) := SelectGateway(w, s, input.transactionId, excluded);
    SelectMoves(w, TakeSnapshot(w, s).0.states, s, input.transactionId, excluded, w1, selected, g);
    if selected.Ok? {
      SubmitKeepsPhases(w1, s, input, selected.value, g);
      LaterMoves(w, w1, Submit(w1, s, input, selected.value).0, s, g);
    }
  }

  /** The first final callback of a transaction, with the order and gateway it was made for. */
  ghost predicate Completes(w: World, input: CallbackInput, g: string) {
    && IsPendingOn(w.txns, input.transactionId, g) && input.gateway == g && input.status.IsFinal()
    && (input.orderId == "" || input.orderId == w.txns[input.transactionId].orderId)
  }

  ghost function Completed(w: World, s: Setup, input: CallbackInput): Transaction
    requires input.transactionId in w.txns
  {
    Transactions.Finished(w.txns[input.transactionId], input.status, s.at(w.ticks))
  }

  lemma CompletingCallback(w: World, s: Setup, input: CallbackInput, g: string)
    requires Completes(w, input, g)
    ensures var done := Completed(w, s, input);
            Callback(w, s, input).0 ==
            RecordCompleted(w.(txns := w.txns[input.transactionId := done], ticks := w.ticks + 1), s, done).0
  {
  }

  /** Any other callback only reads the clock, or observes the gateway as well. */
  lemma OtherCallback(w: World, s: Setup, input: CallbackInput)
    requires KeyedById(w.txns)
    requires input.transactionId in w.txns ==> !Completes(w, input, w.txns[input.transactionId].gateway)
    ensures var w' := Callback(w, s, input).0;
            || w'.states == w.states
            || (input.transactionId in w.txns
                && w'.states == Inspect(w.states, w.txns[input.transactionId].gateway, s.at(w.ticks + 1)))
  {
    var id := input.transactionId;
    if id in w.txns && w.txns[id].status.IsFinal() && w.txns[id].status == input.status {
      assert Transactions.Complete(w.txns, id, input.status, s.at(w.ticks))
          == (w.txns, Ok(Transactions.Completion(w.txns[id], false)));
    }
  }

  lemma CompletingMoves(w: World, s: Setup, input: CallbackInput, h: string, g: string)
    requires Sane(s) && Inv(w, s) && Completes(w, input, h)
    ensures Moves(w, Callback(w, s, input).0, s, g)
  {
    CompletingCallback(w, s, input, h);
    var w' := Callback(w, s, input).0;
    var r, now := s.Routing(), s.at(w.ticks + 1);
    var stats := WindowStats(w'.events, r, h, now);
    OutcomeMoves(Ensured(w.states, h, now)[h], stats, input.transactionId, input.status, r, now);
    assert w'.states == OutcomeFor(w.states, stats, r, h, input.transactionId, input.status, now);
    if StateOf(w'.states, g).phase != StateOf(w.states, g).phase {
      assert g == h;
      assert LegalMove(StateOf(w.states, g), StateOf(w'.states, g), r, now);
    }
  }

  lemma ObserveMoves(w: World, s: Setup, h: string, g: string)
    requires Sane(s) && Inv(w, s)
    ensures StateOf(Observe(w, s, h).0.states, g).phase == StateOf(w.states, g).phase
    ensures StateOf(w.states, g).phase == Unhealthy ==> StateOf(Observe(w, s, h).0.states, g) == StateOf(w.states, g)
  {
  }

  lemma CallbackMoves(w: World, s: Setup, input: CallbackInput, g: string)
    requires Sane(s) && Inv(w, s)
    ensures Moves(w, Callback(w, s, input).0, s, g)
  {
    if input.transactionId in w.txns && Completes(w, input, w.txns[input.transactionId].gateway) {
      CompletingMoves(w, s, input, w.txns[input.transactionId].gateway, g);
    } else {
      OtherCallbackIsQuiet(w, s, input, g);
    }
  }

  lemma OtherCallbackIsQuiet(w: World, s: Setup, input: CallbackInput, g: string)
    requires Sane(s) && Inv(w, s)
    requires input.transactionId in w.txns ==> !Completes(w, input, w.txns[input.transactionId].gateway)
    ensures StateOf(Callback(w, s, input).0.states, g).phase == StateOf(w.states, g).phase
    ensures StateOf(w.states, g).phase == Unhealthy ==>
              StateOf(Callback(w, s, input).0.states, g) == StateOf(w.states, g)
    ensures Callback(w, s, input).0.states.Keys >= w.states.Keys
  {
    OtherCallback(w, s, input);
    if Callback(w, s, input).0.states != w.states {
      InspectIsStill(w.states, w.txns[input.transactionId].gateway, s.at(w.ticks + 1), g);
    }
  }

  lemma InspectIsStill(states: States, h: string, now: Time, g: string)
    ensures StateOf(Inspect(states, h, now), g).phase == StateOf(states, g).phase
    ensures StateOf(states, g).phase == Unhealthy ==> StateOf(Inspect(states, h, now), g) == StateOf(states, g)
    ensures Inspect(states, h, now).Keys >= states.Keys
  {
  }

  /** Whatever the operation, every gateway's phase stays or moves along one arrow of the
      state machine: healthy to unhealthy, unhealthy to half-open once the deadline has
      passed, half-open to healthy or unhealthy. Only callbacks trip or recover a gateway. */
  lemma PhasesMoveAlongArrows(w: World, s: Setup, op: Operation, g: string)
    requires Sane(s) && Inv(w, s) && Admissible(w, op)
    ensures Moves(w, Perform(w, s, op), s, g)
    ensures var s0, s1 := StateOf(w.states, g), StateOf(Perform(w, s, op).states, g);
            s0.phase != s1.phase && s1.phase != HalfOpen ==> op.CallbackOp?
  {
    match op
    case InitiateOp(input) => InitiateMoves(w, s, input, g);
    case CallbackOp(input) => CallbackMoves(w, s, input, g);
    case ObserveOp(h) =>
      ObserveMoves(w, s, h, g);
  }

  // ---------------------------------------------------------------- cooling gateways are skipped

  ghost predicate Cooling(w: World, g: string, u: Time) {
    g in w.states && w.states[g].phase == Unhealthy && w.states[g].unhealthyUntil == Some(u)
  }

  lemma QuietLeavesCooling(a: States, b: States, max: int, g: string, u: Time, hi: Time)
    requires QuietStep(a, b, max, hi) && hi < u && g in a && a[g].phase == Unhealthy && a[g].unhealthyUntil == Some(u)
    ensures g in b && b[g] == a[g]
  {
  }

  /** While the deadline is ahead of every reading, a snapshot taken a routing TTL after the
      trip does not list the gateway. */
  lemma CoolingIsNotListed(w: World, s: Setup, g: string, u: Time)
    requires Sane(s) && Inv(w, s) && Cooling(w, g, u)
    requires Latest(s, TakeSnapshot(w, s).0.ticks) < u
    requires s.at(w.ticks) >= u - s.Routing().Cooldown() + s.routingTTL
    ensures var snapshot := TakeSnapshot(w, s).1;
            !Lists(snapshot.healthy, g) && !Lists(snapshot.probes, g)
  {
    TakeSnapshotKeeps(w, s);
    var (w1, snapshot) := TakeSnapshot(w, s);
    QuietLeavesCooling(w.states, w1.states, Max(s), g, u, s.at(w1.ticks - 1));
    forall c | c in snapshot.healthy || c in snapshot.probes
      ensures c.name != g
    {
      assert Listed(c, snapshot, w1.states, s);
    }
  }

  predicate ListedIn(snapshot: Snapshot, g: string) {
    Lists(snapshot.healthy, g) || Lists(snapshot.probes, g)
  }

  /** Before its deadline an unhealthy gateway is offered to a request exactly when an
      unexpired snapshot from before the trip still lists it: a rebuild never does. */
  lemma CoolingIsOfferedExactlyWhen(w: World, s: Setup, g: string, u: Time)
    requires Sane(s) && Inv(w, s) && Cooling(w, g, u)
    requires Latest(s, TakeSnapshot(w, s).0.ticks) < u
    ensures ListedIn(TakeSnapshot(w, s).1, g) <==> w.snapshot.Fresh(s.at(w.ticks)) && ListedIn(w.snapshot, g)
  {
    TakeSnapshotKeeps(w, s);
    if !w.snapshot.Fresh(s.at(w.ticks)) {
      RebuiltKeeps(w, s);
      var (w1, snapshot) := TakeSnapshot(w, s);
      QuietLeavesCooling(w.states, w1.states, Max(s), g, u, s.at(w1.ticks - 1));
      forall c | c in snapshot.healthy || c in snapshot.probes
        ensures c.name != g
      {
        assert Candidate(w1.states, s.Gateways(), c, Healthy) || Candidate(w1.states, s.Gateways(), c, HalfOpen);
      }
    }
  }

  /** The names of all gateways but g. */
  function Others(s: Setup, g: string): set<string> {
    set c | c in s.Gateways() && c.name != g :: c.name
  }

  /** The last reading a selection can take: one for the snapshot, one for each gateway it
      prepares, one for the probe. */
  function LastReading(w: World, s: Setup): Time {
    s.at(w.ticks + |s.Gateways()| + 1)
  }

  lemma {:induction false} PrefixReadings(b: Build, s: Setup, gs: seq<GatewayConfig>, i: nat)
    requires i <= |gs|
    ensures BuildPrefix(b, s, gs, i).ticks <= b.ticks + i
  {
    if i > 0 {
      PrefixReadings(b, s, gs, i - 1);
    }
  }

  lemma SelectionReadings(w: World, s: Setup, tx: string, excluded: set<string>)
    requires Sane(s)
    ensures w.ticks < TakeSnapshot(w, s).0.ticks <= w.ticks + |s.Gateways()| + 1
    ensures SelectGateway(w, s, tx, excluded).0.ticks <= TakeSnapshot(w, s).0.ticks + 1
    ensures Latest(s, TakeSnapshot(w, s).0.ticks) <= LastReading(w, s)
    ensures Latest(s, SelectGateway(w, s, tx, excluded).0.ticks) <= LastReading(w, s)
  {
    hide BuildStep, FilterExcluded, Select, Acquire;
    PrefixReadings(Build(w.states, w.ticks + 1, [], []), s, s.Gateways(), |s.Gateways()|);
    if !w.snapshot.Fresh(s.at(w.ticks)) {
      PrefixGrows(Build(w.states, w.ticks + 1, [], []), s, s.Gateways(), |s.Gateways()|);
    }
  }

  lemma {:induction false} PrefixGrows(b: Build, s: Setup, gs: seq<GatewayConfig>, i: nat)
    requires i <= |gs|
    ensures b.ticks <= BuildPrefix(b, s, gs, i).ticks
  {
    if i > 0 {
      PrefixGrows(b, s, gs, i - 1);
    }
  }

  ghost predicate Routes(res: Result<Selection>, g: string) {
    res.Ok? && res.value.gateway.name == g
  }

  lemma NoProbeWhileCooling(w: World, s: Setup, g: string, u: Time, tx: string)
    requires Cooling(w, g, u)
    ensures MarkProbe(w, s, g, tx).1.Err? && MarkProbe(w, s, g, tx).0.states == w.states
  {
    assert w.states[g := w.states[g]] == w.states;
  }

  /** A cooling gateway that is routed to was in the healthy list of an unexpired snapshot. */
  lemma RoutedCoolingWasHealthy(w: World, s: Setup, g: string, u: Time, tx: string, excluded: set<string>)
    requires Sane(s) && Inv(w, s) && Cooling(w, g, u) && LastReading(w, s) < u
    requires tx !in w.txns && Routes(SelectGateway(w, s, tx, excluded).1, g)
    ensures w.snapshot.Fresh(s.at(w.ticks)) && Lists(w.snapshot.healthy, g)
  {
    hide QuietStep, SelectGateway, SnapshotOk, TakeSnapshot;
    SelectionReadings(w, s, tx, excluded);
    SelectionIsSoundAndComplete(w, s, tx, excluded);
    SelectGatewayKeeps(w, s, tx, excluded);
    CoolingIsOfferedExactlyWhen(w, s, g, u);
    var (w1, snapshot) := TakeSnapshot(w, s);
    var (w2, res) := SelectGateway(w, s, tx, excluded);
    if res.value.halfOpenProbe {
      QuietLeavesCooling(w.states, w1.states, Max(s), g, u, s.at(w2.ticks - 1));
      assert false;
    }
    FreshIsKept(w, s);
  }

  lemma FreshIsKept(w: World, s: Setup)
    requires w.snapshot.Fresh(s.at(w.ticks))
    ensures TakeSnapshot(w, s) == (w.(ticks := w.ticks + 1), w.snapshot)
  {
  }

  lemma OnlyCandidate(cs: seq<GatewayConfig>, s: Setup, g: string)
    requires forall c :: c in cs ==> c in s.Gateways()
    ensures forall c :: c in FilterExcluded(cs, Others(s, g)) <==> c in cs && c.name == g
  {
    FilterMembers(cs, Others(s, g));
  }

  /** While such a snapshot is unexpired, the gateway is routed to: by a request from which
      every other gateway is excluded. */
  lemma HealthyListedIsRouted(w: World, s: Setup, g: string, u: Time, tx: string)
    requires Sane(s) && Inv(w, s) && Cooling(w, g, u)
    requires w.snapshot.Fresh(s.at(w.ticks)) && Lists(w.snapshot.healthy, g)
    ensures Routes(SelectGateway(w, s, tx, Others(s, g)).1, g)
  {
    hide FilterExcluded, Select, MarkProbe, QuietStep;
    FreshIsKept(w, s);
    var w1 := w.(ticks := w.ticks + 1);
    var probes, healthy := FilterExcluded(w.snapshot.probes, Others(s, g)),
        FilterExcluded(w.snapshot.healthy, Others(s, g));
    ListedAreGateways(w, s);
    OnlyCandidate(w.snapshot.probes, s, g);
    OnlyCandidate(w.snapshot.healthy, s, g);
    assert healthy != [];
    HealthyIsRouted(w1, healthy, g);
    if probes != [] {
      assert probes[0] in probes;
      SelectAnswers(w.counter, probes);
      var (counter, chosen) := Select(w.counter, probes);
      var w2 := w1.(counter := counter);
      NoProbeWhileCooling(w2, s, g, u, tx);
      HealthyIsRouted(MarkProbe(w2, s, g, tx).0.(snapshot := NO_SNAPSHOT), healthy, g);
    }
  }

  lemma ListedAreGateways(w: World, s: Setup)
    requires Inv(w, s)
    ensures forall c :: c in w.snapshot.probes || c in w.snapshot.healthy ==> c in s.Gateways() && c.weight > 0
  {
    forall c | c in w.snapshot.probes || c in w.snapshot.healthy
      ensures c in s.Gateways() && c.weight > 0
    {
      assert Listed(c, w.snapshot, w.states, s);
    }
  }

  lemma HealthyIsRouted(w: World, healthy: seq<GatewayConfig>, g: string)
    requires healthy != [] && forall c :: c in healthy ==> c.name == g && c.weight > 0
    ensures Routes(SelectHealthy(w, healthy).1, g)
  {
    hide Select;
    assert healthy[0] in healthy;
    SelectAnswers(w.counter, healthy);
  }

  /** Before its deadline an unhealthy gateway is returned by some selection if and only if an
      unexpired snapshot still lists it as healthy. To be in its probe list is not enough: the
      acquisition refuses an unhealthy gateway. */
  lemma CoolingIsRoutedExactlyWhen(w: World, s: Setup, g: string, u: Time, tx: string)
    requires Sane(s) && Inv(w, s) && Cooling(w, g, u) && LastReading(w, s) < u && tx !in w.txns
    ensures (exists excluded :: Routes(SelectGateway(w, s, tx, excluded).1, g))
            <==> w.snapshot.Fresh(s.at(w.ticks)) && Lists(w.snapshot.healthy, g)
  {
    hide SelectGateway, Inv;
    if excluded :| Routes(SelectGateway(w, s, tx, excluded).1, g) {
      RoutedCoolingWasHealthy(w, s, g, u, tx, excluded);
    }
    if w.snapshot.Fresh(s.at(w.ticks)) && Lists(w.snapshot.healthy, g) {
      HealthyListedIsRouted(w, s, g, u, tx);
    }
  }

  lemma InitiateSkipsCooling(w: World, s: Setup, input: InitiateInput, g: string, u: Time)
    requires Sane(s) && Inv(w, s) && input.transactionId !in w.txns && Cooling(w, g, u)
    requires Latest(s, Initiate(w, s, input).0.ticks) < u
    ensures var (w', res) := Initiate(w, s, input);
            && Cooling(w', g, u)
            && (s.at(w.ticks) >= u - s.Routing().Cooldown() + s.routingTTL && res.Ok? ==> res.value.gateway != g)
  {
    hide QuietStep, SnapshotOk, SelectGateway, TakeSnapshot, AllWellFormed, TokensPending, Counted, LogOk;
    var tx, excluded := input.transactionId, Excluded(w, input.orderId);
    SelectGatewayKeeps(w, s, tx, excluded);
    SelectionIsSoundAndComplete(w, s, tx, excluded);
    TakeSnapshotKeeps(w, s);
    var (w1, selected) := SelectGateway(w, s, tx, excluded);
    var (w', res) := Initiate(w, s, input);
    var wm := TakeSnapshot(w, s).0;
    if selected.Ok? {
      SubmitKeepsPhases(w1, s, input, selected.value, g);
    }
    assert s.at(w1.ticks - 1) <= s.at(w'.ticks - 1);
    SnapshotComesFirst(w, s, tx, excluded);
    QuietLeavesCooling(w.states, wm.states, Max(s), g, u, s.at(w1.ticks - 1));
    if !(selected.Ok? && selected.value.halfOpenProbe) {
      QuietLeavesCooling(w.states, w1.states, Max(s), g, u, s.at(w1.ticks - 1));
    }
    if s.at(w.ticks) >= u - s.Routing().Cooldown() + s.routingTTL {
      CoolingIsNotListed(w, s, g, u);
    }
  }

  lemma SnapshotComesFirst(w: World, s: Setup, tx: string, excluded: set<string>)
    requires Sane(s)
    ensures TakeSnapshot(w, s).0.ticks <= SelectGateway(w, s, tx, excluded).0.ticks
  {
  }

  lemma CallbackLeavesCooling(w: World, s: Setup, input: CallbackInput, g: string, u: Time)
    requires Sane(s) && Inv(w, s) && Cooling(w, g, u) && Latest(s, Callback(w, s, input).0.ticks) < u
    ensures Cooling(Callback(w, s, input).0, g, u)
  {
    if input.transactionId in w.txns && Completes(w, input, w.txns[input.transactionId].gateway) {
      CompletingCallback(w, s, input, w.txns[input.transactionId].gateway);
      assert s.at(w.ticks + 1) <= s.at(w.ticks + 2);
    } else {
      OtherCallbackIsQuiet(w, s, input, g);
    }
  }

  lemma CooldownSurvives(w: World, s: Setup, op: Operation, g: string, u: Time)
    requires Sane(s) && Inv(w, s) && Admissible(w, op) && Cooling(w, g, u)
    requires Latest(s, Perform(w, s, op).ticks) < u
    ensures Cooling(Perform(w, s, op), g, u)
  {
    match op
    case InitiateOp(input) => InitiateSkipsCooling(w, s, input, g, u);
    case ObserveOp(h) => ObserveMoves(w, s, h, g);
    case CallbackOp(input) => CallbackLeavesCooling(w, s, input, g, u);
  }

  lemma {:induction false} CooldownSurvivesRuns(w: World, s: Setup, ops: seq<Operation>, g: string, u: Time)
    requires Sane(s) && Inv(w, s) && FreshIds(w, s, ops) && Cooling(w, g, u)
    requires Latest(s, Run(w, s, ops).ticks) < u
    ensures Cooling(Run(w, s, ops), g, u)
  {
    if ops != [] {
      var rest := ops[..|ops| - 1];
      FreshPrefix(w, s, ops);
      RunKeeps(w, s, rest);
      PerformKeeps(Run(w, s, rest), s, ops[|ops| - 1]);
      LatestGrows(s, Run(w, s, rest).ticks, Run(w, s, ops).ticks);
      CooldownSurvivesRuns(w, s, rest, g, u);
      CooldownSurvives(Run(w, s, rest), s, ops[|ops| - 1], g, u);
    }
  }

  lemma LatestGrows(s: Setup, m: nat, n: nat)
    requires Clocked(s) && m <= n
    ensures Latest(s, m) <= Latest(s, n)
  {
  }

  /** Readings from..to lie in [t + routing TTL, t + cooldown). */
  ghost predicate Within(t: Time, s: Setup, from: nat, to: nat) {
    t + s.routingTTL <= s.at(from) && Latest(s, to) < t + s.Routing().Cooldown()
  }

  ghost predicate Returns(res: Result<Transaction>, g: string) {
    res.Ok? && res.value.gateway == g
  }

  /** The request is new after the operations, which brought new ids themselves. */
  ghost predicate Follows(w: World, s: Setup, ops: seq<Operation>, input: InitiateInput) {
    FreshIds(w, s, ops) && input.transactionId !in Run(w, s, ops).txns
  }

  /** After ops, an Initiate that runs within the cooldown that began at t, a routing lifetime
      after its start, does not return g. */
  ghost predicate Avoids(w: World, s: Setup, ops: seq<Operation>, input: InitiateInput, g: string, t: Time) {
    var w' := Run(w, s, ops);
    var (after, res) := Initiate(w', s, input);
    Within(t, s, w'.ticks, after.ticks) ==> !Returns(res, g)
  }

  /** From a cooling world on, until the deadline: no Initiate a routing TTL after the trip returns g. */
  lemma CoolingIsAvoided(w: World, s: Setup, ops: seq<Operation>, input: InitiateInput, g: string, t: Time)
    requires Sane(s) && Inv(w, s) && Cooling(w, g, t + s.Routing().Cooldown())
    ensures Follows(w, s, ops, input) ==> Avoids(w, s, ops, input, g, t)
  {
    hide Initiate, Run, Inv, Initiated, FreshIds;
    var w' := Run(w, s, ops);
    var (after, res) := Initiate(w', s, input);
    if Follows(w, s, ops, input) && Within(t, s, w'.ticks, after.ticks) {
      RunKeeps(w, s, ops);
      InitiateKeeps(w', s, input);
      LatestGrows(s, w'.ticks, after.ticks);
      CooldownSurvivesRuns(w, s, ops, g, t + s.Routing().Cooldown());
      InitiateSkipsCooling(w', s, input, g, t + s.Routing().Cooldown());
    }
  }

  /** A trip starts a cooldown that is counted from one of the operation's readings. */
  lemma TripStartsCooling(w: World, s: Setup, op: Operation, g: string) returns (k: nat)
    requires Sane(s) && Inv(w, s) && Admissible(w, op)
    requires StateOf(w.states, g).phase != Unhealthy && StateOf(Perform(w, s, op).states, g).phase == Unhealthy
    ensures w.ticks <= k < Perform(w, s, op).ticks && Cooling(Perform(w, s, op), g, s.at(k) + s.Routing().Cooldown())
  {
    PhasesMoveAlongArrows(w, s, op, g);
    var w1 := Perform(w, s, op);
    k :| w.ticks <= k < w1.ticks && LegalMove(StateOf(w.states, g), StateOf(w1.states, g), s.Routing(), s.at(k));
  }

  ghost predicate Trips(w: World, s: Setup, op: Operation, g: string) {
    StateOf(w.states, g).phase != Unhealthy && StateOf(Perform(w, s, op).states, g).phase == Unhealthy
  }

  /** If an operation trips g, it does so at one of its readings, t, from which the deadline is
      counted; and from then on, whatever operations come in between, no Initiate whose
      readings lie in [t + routing TTL, t + cooldown) returns g. */
  lemma TrippedGatewayIsAvoided(w: World, s: Setup, op: Operation, g: string)
    requires Sane(s) && Inv(w, s) && Admissible(w, op)
    ensures var w1 := Perform(w, s, op);
            Trips(w, s, op, g) ==>
              exists k: nat ::
                && w.ticks <= k < w1.ticks && Cooling(w1, g, s.at(k) + s.Routing().Cooldown())
                && forall ops, input :: Follows(w1, s, ops, input) ==> Avoids(w1, s, ops, input, g, s.at(k))
  {
    hide Perform, Inv, Avoids, Follows;
    if Trips(w, s, op, g) {
      var w1 := Perform(w, s, op);
      var k := TripStartsCooling(w, s, op, g);
      PerformKeeps(w, s, op);
      forall ops, input | Follows(w1, s, ops, input)
        ensures Avoids(w1, s, ops, input, g, s.at(k))
      {
        CoolingIsAvoided(w1, s, ops, input, g, s.at(k));
      }
    }
  }

  // ---------------------------------------------------------------- no permanent lock-out

  /** Past its deadline, if it has one, and past all its token expiries. */
  ghost predicate Ready(s: RuntimeState, now: Time) {
    && (s.phase == Unhealthy ==> s.unhealthyUntil.Some? && s.unhealthyUntil.value <= now)
    && forall p :: p in s.probes ==> p.expiresAtMilli <= UnixMilli(now)
  }

  lemma ReadyIsPrepared(s: RuntimeState, now: Time)
    requires Ready(s, now)
    ensures var t := Prepare(s, now);
            t.phase == Healthy || (t.phase == HalfOpen && t.inFlight == 0)
  {
    NoneLive(s, now);
  }

  lemma NoneLive(s: RuntimeState, now: Time)
    requires Ready(s, now)
    ensures Live(s.probes, UnixMilli(now)) == []
  {
    var live := Live(s.probes, UnixMilli(now));
    LiveMembers(s.probes, UnixMilli(now));
    assert live == [] || !(live[0] in live && live[0].Active(UnixMilli(now)));
  }

  lemma QuietKeepsReady(a: States, b: States, g: string, max: int, hi: Time, now: Time, later: Time)
    requires QuietStep(a, b, max, hi) && Ready(StateOf(a, g), now) && now <= later
    ensures Ready(StateOf(b, g), later)
  {
  }

  lemma {:induction false} LoopListsReady(
      b: Build, a: States, s: Setup, gs: seq<GatewayConfig>, i: nat, j: nat, now: Time)
    requires j < i <= |gs| && Sane(s) && Built(b, a, s, gs) && now <= s.at(b.ticks)
    requires Routable(gs[j]) && Ready(StateOf(a, gs[j].name), now)
    ensures var b' := BuildPrefix(b, s, gs, i);
            gs[j] in b'.healthy || gs[j] in b'.probes
  {
    hide QuietStep, Prepare, Ready;
    LoopInvariant(b, a, s, gs, i - 1);
    var p := BuildPrefix(b, s, gs, i - 1);
    if j < i - 1 {
      LoopListsReady(b, a, s, gs, i - 1, j, now);
    } else {
      var g := gs[j].name;
      QuietKeepsReady(a, p.states, g, Max(s), s.at(p.ticks - 1), now, s.at(p.ticks));
      ReadyIsPrepared(Ensured(p.states, g, s.at(p.ticks))[g], s.at(p.ticks));
    }
  }

  /** Once the snapshot has expired and a gateway's deadline and tokens have too, the next
      snapshot lists it, and a request from which every other gateway is excluded gets it. */
  lemma NoPermanentLockOut(w: World, s: Setup, c: GatewayConfig, tx: string, excluded: set<string>)
    requires Sane(s) && Inv(w, s) && tx !in w.txns
    requires c in s.Gateways() && Routable(c) && Ready(StateOf(w.states, c.name), s.at(w.ticks))
    requires !w.snapshot.Fresh(s.at(w.ticks))
    requires forall d :: d in s.Gateways() ==> (d.name in excluded <==> d.name != c.name)
    ensures var snapshot := TakeSnapshot(w, s).1;
            c in snapshot.healthy || c in snapshot.probes
    ensures var (_, res) := SelectGateway(w, s, tx, excluded);
            res.Ok? && res.value.gateway.name == c.name
  {
    hide SelectGateway, QuietStep, Ready, SnapshotOk;
    var gs, now := s.Gateways(), s.at(w.ticks);
    var j :| 0 <= j < |gs| && gs[j] == c;
    var b := Build(w.states, w.ticks + 1, [], []);
    QuietRefl(w.states, Max(s), now);
    LoopListsReady(b, w.states, s, gs, |gs|, j, now);
    LoopInvariant(b, w.states, s, gs, |gs|);
    var (w1, snapshot) := TakeSnapshot(w, s);
    SelectionIsSoundAndComplete(w, s, tx, excluded);
    OnlyProbeIsGranted(w, s, c, tx, excluded);
  }

  lemma OnlyProbeIsGranted(w: World, s: Setup, c: GatewayConfig, tx: string, excluded: set<string>)
    requires Sane(s) && Inv(w, s) && tx !in w.txns
    requires Ready(StateOf(w.states, c.name), s.at(w.ticks)) && !w.snapshot.Fresh(s.at(w.ticks))
    requires forall d :: d in s.Gateways() ==> (d.name in excluded <==> d.name != c.name)
    requires c.name !in excluded
    ensures c in TakeSnapshot(w, s).1.probes ==> SelectGateway(w, s, tx, excluded).1.Ok?
  {
    RebuiltKeeps(w, s);
    var b := Rebuilt(w, s);
    var (w1, snapshot) := TakeSnapshot(w, s);
    var probes := FilterExcluded(snapshot.probes, excluded);
    FilterMembers(snapshot.probes, excluded);
    if c in snapshot.probes {
      assert c in probes && Candidate(b.states, s.Gateways(), c, HalfOpen);
      SelectAnswers(w1.counter, probes);
      var d := Select(w1.counter, probes).1.value;
      assert Candidate(b.states, s.Gateways(), d, HalfOpen) && d.name == c.name;
      assert s.at(w.ticks) <= s.at(w1.ticks);
      QuietKeepsReady(w.states, w1.states, c.name, Max(s), s.at(w1.ticks - 1), s.at(w.ticks), s.at(w1.ticks));
      NoneLive(w1.states[c.name], s.at(w1.ticks));
    }
  }

  // ---------------------------------------------------------------- a success trips only for a reason

  lemma PerformExtendsLog(w: World, s: Setup, op: Operation)
    requires Sane(s) && Inv(w, s) && Admissible(w, op)
    ensures w.log <= Perform(w, s, op).log
  {
    if op.InitiateOp? {
      InitiateKeeps(w, s, op.initiate);
    }
  }

  lemma {:induction false} RunExtendsLog(w: World, s: Setup, ops: seq<Operation>)
    requires Sane(s) && Inv(w, s) && FreshIds(w, s, ops)
    ensures w.log <= Run(w, s, ops).log
  {
    if ops != [] {
      FreshPrefix(w, s, ops);
      RunKeeps(w, s, ops[..|ops| - 1]);
      RunExtendsLog(w, s, ops[..|ops| - 1]);
      PerformExtendsLog(Run(w, s, ops[..|ops| - 1]), s, ops[|ops| - 1]);
    }
  }

  /** The callback completes its transaction and finds g healthy. */
  ghost predicate JudgesHealthy(w: World, s: Setup, input: CallbackInput, g: string) {
    Completes(w, input, g) && StateOf(w.states, g).phase == Healthy
  }

  /** The verdict of a callback on the full log: it trips g exactly when the window's rate is
      below the threshold on enough outcomes, the callback's own included. */
  ghost predicate DecidedOnLog(w: World, w': World, s: Setup, input: CallbackInput, g: string) {
    var now := s.at(w.ticks + 1);
    && w'.log == w.log + [Event(g, input.transactionId, input.status, now)]
    && g in w'.states
    && w'.states[g].phase == (if Breached(WindowStats(w'.log, s.Routing(), g, now), s.Routing()) then Unhealthy
                                else Healthy)
    && (forall e :: e in w'.log ==> e.createdAt <= now)
  }

  lemma RecordedFields(w: World, s: Setup, done: Transaction)
    ensures var w', now := RecordCompleted(w, s, done).0, s.at(w.ticks);
            && w'.events == EventsAfter(w.events, s.Routing(), done.gateway, done.id, done.status, now)
            && w'.log == LogAfter(w.log, done.gateway, done.id, done.status, now)
            && w'.states == OutcomeFor(w.states, WindowStats(w'.events, s.Routing(), done.gateway, now), s.Routing(),
                                       done.gateway, done.id, done.status, now)
  {
  }

  lemma HealthyOutcome(states: States, stats: Stats, r: RoutingConfig, g: string, tx: string, status: Status, now: Time)
    requires StateOf(states, g).phase == Healthy
    ensures g in OutcomeFor(states, stats, r, g, tx, status, now)
    ensures OutcomeFor(states, stats, r, g, tx, status, now)[g].phase == if Breached(stats, r) then Unhealthy
            else Healthy
  {
  }

  /** A callback that judges a healthy gateway decides on the full log. */
  lemma HealthyVerdict(w: World, s: Setup, input: CallbackInput, g: string, w': World)
    requires Sane(s) && Inv(w, s) && JudgesHealthy(w, s, input, g) && w' == Callback(w, s, input).0
    ensures DecidedOnLog(w, w', s, input, g)
  {
    var done := Completed(w, s, input);
    CompletingCallback(w, s, input, g);
    RecordedFields(w.(txns := w.txns[input.transactionId := done], ticks := w.ticks + 1), s, done);
    assert done.id == input.transactionId && done.gateway == g;
    VerdictOnLog(w, s, input, g, w');
  }

  lemma VerdictOnLog(w: World, s: Setup, input: CallbackInput, g: string, w': World)
    requires Sane(s) && LogOk(w.events, w.log, s, s.at(w.ticks)) && input.status.IsFinal()
             && StateOf(w.states, g).phase == Healthy
    requires var now, id := s.at(w.ticks + 1), input.transactionId;
             && w'.events == EventsAfter(w.events, s.Routing(), g, id, input.status, now)
             && w'.log == LogAfter(w.log, g, id, input.status, now)
             && w'.states == OutcomeFor(w.states, WindowStats(w'.events, s.Routing(), g, now), s.Routing(), g, id,
                                        input.status, now)
    ensures DecidedOnLog(w, w', s, input, g)
  {
    hide Record, StatsOf, OutcomeFor, Breached;
    var r, now := s.Routing(), s.at(w.ticks + 1);
    LogStaysOk(w.events, w.log, s, s.at(w.ticks), now);
    RecordKeepsLog(w, s, g, input.transactionId, input.status, now, now);
    AgreeingStats(w'.events, w'.log, now - r.Window(), g, now - r.Window(), now);
    HealthyOutcome(w.states, WindowStats(w'.events, r, g, now), r, g, input.transactionId, input.status, now);
  }

  /** Two callbacks judge g healthy at first, the operations between them bring no outcome of
      g, the first leaves it healthy, and the second, a success, trips it. */
  ghost predicate SuccessTrips(
      w: World, s: Setup, first: CallbackInput, ops: seq<Operation>, second: CallbackInput, g: string) {
    var w1 := Callback(w, s, first).0;
    var w2 := Run(w1, s, ops);
    && JudgesHealthy(w, s, first, g) && StateOf(w1.states, g).phase == Healthy
    && FreshIds(w1, s, ops)
    && (forall i :: |w1.log| <= i < |w2.log| ==> w2.log[i].gateway != g)
    && JudgesHealthy(w2, s, second, g) && second.status == Success
    && StateOf(Callback(w2, s, second).0.states, g).phase == Unhealthy
  }

  /** Between two consecutive verdicts on a healthy gateway, the second on a success: it can
      trip the gateway only if the first window was too small to judge, or a success that
      the first one counted has aged out since. */
  lemma SuccessTripsForAReason(
      w: World, s: Setup, first: CallbackInput, ops: seq<Operation>, second: CallbackInput, g: string)
    requires Sane(s) && Inv(w, s)
    ensures SuccessTrips(w, s, first, ops, second, g) ==>
              var w1 := Callback(w, s, first).0;
              var n1, n2 := s.at(w.ticks + 1), s.at(Run(w1, s, ops).ticks + 1);
              || WindowStats(w1.log, s.Routing(), g, n1).Total() < s.Routing().minCallbackCount
              || SuccessAgedOut(w1.log, g, s.Routing().Window(), n1, n2)
  {
    hide Callback, Inv, Run, FreshIds, WindowStats;
    if SuccessTrips(w, s, first, ops, second, g) {
      var w1 := Callback(w, s, first).0;
      var w2 := Run(w1, s, ops);
      CallbackKeeps(w, s, first);
      RunKeeps(w1, s, ops);
      RunExtendsLog(w1, s, ops);
      HealthyVerdict(w, s, first, g, w1);
      HealthyVerdict(w2, s, second, g, Callback(w2, s, second).0);
      CallbackTicks(w, s, first, g);
      VerdictsOnLogs(w, w1, w2, Callback(w2, s, second).0, s, first, second, g);
    }
  }

  lemma CallbackTicks(w: World, s: Setup, input: CallbackInput, g: string)
    requires Completes(w, input, g)
    ensures Callback(w, s, input).0.ticks == w.ticks + 3
  {
  }

  lemma VerdictsOnLogs(
      w: World, w1: World, w2: World, w3: World, s: Setup, first: CallbackInput, second: CallbackInput,
      g: string)
    requires Sane(s) && DecidedOnLog(w, w1, s, first, g) && DecidedOnLog(w2, w3, s, second, g)
    requires w.ticks <= w2.ticks && w1.log <= w2.log && second.status == Success
    requires w1.states[g].phase == Healthy && w3.states[g].phase == Unhealthy
    requires forall i :: |w1.log| <= i < |w2.log| ==> w2.log[i].gateway != g
    ensures var n1, n2 := s.at(w.ticks + 1), s.at(w2.ticks + 1);
            || WindowStats(w1.log, s.Routing(), g, n1).Total() < s.Routing().minCallbackCount
            || SuccessAgedOut(w1.log, g, s.Routing().Window(), n1, n2)
  {
    var others := w2.log[|w1.log|..];
    assert w2.log == w1.log + others;
    EventLog.SuccessTripsOnlyForAReason(w1.log, others, w3.log[|w2.log|], g, s.Routing(), s.at(w.ticks + 1),
                                        s.at(w2.ticks + 1));
  }
}
