/** What every run of the reference machine keeps. */
module ReferenceInvariant {
  import opened Domain
  import opened Breaker
  import opened EventLog
  import opened Selector
  import opened Reference
  import opened Quiet
  import Blacklist
  import Transactions

  // ---------------------------------------------------------------- the invariant

  function Max(s: Setup): int {
    s.Routing().halfOpenProbeCount
  }

  ghost predicate Sane(s: Setup) {
    Clocked(s) && s.Routing().Usable() && s.routingTTL > 0
  }

  /** A listed gateway that is cooling down was listed no later than it tripped. */
  ghost predicate Listed(c: GatewayConfig, snapshot: Snapshot, states: States, s: Setup) {
    && c in s.Gateways() && Routable(c) && c.name in states && snapshot.expiresAt.Some?
    && (states[c.name].phase == Unhealthy ==>
          && states[c.name].unhealthyUntil.Some?
          && snapshot.expiresAt.value - s.routingTTL <= states[c.name].unhealthyUntil.value - s.Routing().Cooldown())
  }

  ghost predicate SnapshotOk(snapshot: Snapshot, states: States, s: Setup, now: Time) {
    && (forall c :: c in snapshot.healthy ==> Listed(c, snapshot, states, s))
    && (forall c :: c in snapshot.probes ==> Listed(c, snapshot, states, s))
    && (snapshot.expiresAt.Some? ==> snapshot.expiresAt.value - s.routingTTL <= now)
  }

  ghost predicate IsPendingOn(txns: Transactions.Table, tx: string, g: string) {
    tx in txns && txns[tx].gateway == g && txns[tx].status == Pending
  }

  /** Every token names a stored pending transaction on its gateway. */
  ghost predicate TokensPending(states: States, txns: Transactions.Table) {
    forall g, p :: g in states && p in states[g].probes ==> IsPendingOn(txns, p.transactionId, g)
  }

  ghost predicate KeyedById(txns: Transactions.Table) {
    forall id :: id in txns ==> txns[id].id == id
  }

  function FinalIds(txns: Transactions.Table, o: string, g: string, status: Status): set<string> {
    set id | id in txns && txns[id].orderId == o && txns[id].gateway == g && txns[id].status == status
  }

  /** The blacklist counts the transaction table. */
  ghost predicate Counted(summaries: Blacklist.Summaries, txns: Transactions.Table, threshold: int) {
    forall o, g ::
      var sm := Blacklist.Lookup(summaries, o, g);
      && sm.failures == |FinalIds(txns, o, g, Failure)|
      && sm.successes == |FinalIds(txns, o, g, Success)|
      && (sm.blacklisted <==> sm.successes == 0 && sm.failures >= Blacklist.Effective(threshold))
  }

  /** The retained events are the full log as far as any window query can look back. */
  ghost predicate LogOk(events: seq<Event>, log: seq<Event>, s: Setup, now: Time) {
    && Agree(events, log, now - s.Routing().Window())
    && forall e :: e in log ==> e.createdAt <= now
  }

  ghost predicate Inv(w: World, s: Setup) {
    && AllWellFormed(w.states, Max(s))
    && SnapshotOk(w.snapshot, w.states, s, s.at(w.ticks))
    && TokensPending(w.states, w.txns)
    && KeyedById(w.txns)
    && Counted(w.summaries, w.txns, s.Routing().orderGatewayFailureThreshold)
    && LogOk(w.events, w.log, s, s.at(w.ticks))
  }

  lemma EmptyWorldIsOk(s: Setup)
    ensures Inv(EMPTY_WORLD, s)
  {
  }

  // ---------------------------------------------------------------- stability

  lemma SnapshotStaysOk(snapshot: Snapshot, a: States, b: States, s: Setup, now: Time, later: Time)
    requires SnapshotOk(snapshot, a, s, now) && now <= later && a.Keys <= b.Keys
    requires forall g :: g in a && b[g].phase == Unhealthy ==> a[g] == b[g]
    ensures SnapshotOk(snapshot, b, s, later)
  {
  }

  lemma QuietKeepsSnapshot(snapshot: Snapshot, a: States, b: States, s: Setup, now: Time, later: Time, hi: Time)
    requires SnapshotOk(snapshot, a, s, now) && now <= later && QuietStep(a, b, Max(s), hi)
    ensures SnapshotOk(snapshot, b, s, later)
  {
  }

  lemma QuietKeepsTokens(a: States, b: States, txns: Transactions.Table, max: int, hi: Time)
    requires TokensPending(a, txns) && QuietStep(a, b, max, hi)
    ensures TokensPending(b, txns)
  {
  }

  lemma LogStaysOk(events: seq<Event>, log: seq<Event>, s: Setup, now: Time, later: Time)
    requires LogOk(events, log, s, now) && now <= later
    ensures LogOk(events, log, s, later)
  {
    AgreeLater(events, log, now - s.Routing().Window(), later - s.Routing().Window());
  }

  lemma NoTokenOf(states: States, txns: Transactions.Table, g: string, tx: string)
    requires TokensPending(states, txns) && g in states && tx !in txns
    ensures !Holds(states[g].probes, tx)
  {
  }

  // ---------------------------------------------------------------- the snapshot

  lemma TakeSnapshotKeeps(w: World, s: Setup)
    requires Sane(s) && AllWellFormed(w.states, Max(s)) && SnapshotOk(w.snapshot, w.states, s, s.at(w.ticks))
    ensures var (w1, snapshot) := TakeSnapshot(w, s);
            && w1 == w.(states := w1.states, ticks := w1.ticks, snapshot := snapshot)
            && w1.ticks > w.ticks
            && QuietStep(w.states, w1.states, Max(s), s.at(w1.ticks - 1))
            && SnapshotOk(snapshot, w1.states, s, s.at(w1.ticks - 1))
  {
    var now := s.at(w.ticks);
    QuietRefl(w.states, Max(s), now);
    if !w.snapshot.Fresh(now) {
      RebuiltKeeps(w, s);
    }
  }

  lemma RebuiltKeeps(w: World, s: Setup)
    requires Sane(s) && AllWellFormed(w.states, Max(s))
    ensures Built(Rebuilt(w, s), w.states, s, s.Gateways()) && Rebuilt(w, s).ticks > w.ticks
  {
    QuietRefl(w.states, Max(s), s.at(w.ticks));
    LoopInvariant(Build(w.states, w.ticks + 1, [], []), w.states, s, s.Gateways(), |s.Gateways()|);
  }

  lemma {:induction false} FilterMembers(cs: seq<GatewayConfig>, excluded: set<string>)
    ensures forall c :: c in FilterExcluded(cs, excluded) <==> c in cs && c.name !in excluded
  {
    if cs != [] {
      var rest, last := cs[..|cs| - 1], cs[|cs| - 1];
      FilterMembers(rest, excluded);
      assert cs == rest + [last];
    }
  }

  // ---------------------------------------------------------------- selection

  /** A token granted to tx on g at now, on top of the states mid. */
  ghost predicate Granted(mid: States, b: States, s: Setup, g: string, tx: string, now: Time) {
    && g in mid
    && var (t, acquired) := Acquire(mid[g], tx, Max(s), now + s.Routing().ProbeTimeout(), now);
       acquired && b == mid[g := t]
  }

  ghost predicate Chosen(c: GatewayConfig, b: States, s: Setup, excluded: set<string>) {
    c in s.Gateways() && Routable(c) && c.name !in excluded && c.name in b
  }

  /** What a SelectGateway call may change and answer; mid is the state after the snapshot. */
  ghost predicate Selected(
      w: World, mid: States, s: Setup, tx: string, excluded: set<string>, w': World, res: Result<Selection>) {
    && w' == w.(states := w'.states, counter := w'.counter, snapshot := w'.snapshot, ticks := w'.ticks)
    && w'.ticks > w.ticks
    && AllWellFormed(w'.states, Max(s))
    && SnapshotOk(w'.snapshot, w'.states, s, s.at(w'.ticks - 1))
    && QuietStep(w.states, mid, Max(s), s.at(w'.ticks - 1))
    && (res.Ok? ==> Chosen(res.value.gateway, w'.states, s, excluded))
    && (if res.Ok? && res.value.halfOpenProbe
        then Granted(mid, w'.states, s, res.value.gateway.name, tx, s.at(w'.ticks - 1))
        else QuietStep(w.states, w'.states, Max(s), s.at(w'.ticks - 1)))
  }

  ghost predicate CandidatesOk(cs: seq<GatewayConfig>, states: States, s: Setup, excluded: set<string>) {
    forall c :: c in cs ==> Chosen(c, states, s, excluded)
  }

  lemma SelectHealthyKeeps(
      w: World, mid: States, s: Setup, tx: string, excluded: set<string>, w2: World,
      healthy: seq<GatewayConfig>)
    requires Selected(w, mid, s, tx, excluded, w2, Err(NoAvailableGateway))
             && CandidatesOk(healthy, w2.states, s, excluded)
    ensures Selected(w, mid, s, tx, excluded, SelectHealthy(w2, healthy).0, SelectHealthy(w2, healthy).1)
  {
    hide QuietStep, SnapshotOk, AllWellFormed, Granted;
    SelectAnswers(w2.counter, healthy);
  }

  lemma GrantKeeps(w: World, s: Setup, tx: string, excluded: set<string>, w1: World, c: GatewayConfig)
    requires Sane(s) && Selected(w, w1.states, s, tx, excluded, w1, Err(NoAvailableGateway))
    requires Chosen(c, w1.states, s, excluded) && !Holds(w1.states[c.name].probes, tx)
    requires MarkProbe(w1, s, c.name, tx).1.Ok?
    ensures Selected(w, w1.states, s, tx, excluded, MarkProbe(w1, s, c.name, tx).0, Ok(Selection(c, true)))
  {
    hide QuietStep, WellFormed, SnapshotOk;
    var g, now, prior := c.name, s.at(w1.ticks), s.at(w1.ticks - 1);
    var expiresAt := now + s.Routing().ProbeTimeout();
    AcquireKeepsShape(w1.states[g], g, tx, Max(s), expiresAt, now);
    var w2 := MarkProbe(w1, s, g, tx).0;
    SnapshotStaysOk(w1.snapshot, w1.states, w2.states, s, prior, now);
    QuietLater(w.states, w1.states, Max(s), prior, now);
  }

  lemma RefusalKeeps(w: World, s: Setup, tx: string, excluded: set<string>, w1: World, c: GatewayConfig, error: Error)
    requires Sane(s) && Selected(w, w1.states, s, tx, excluded, w1, Err(NoAvailableGateway))
    requires Chosen(c, w1.states, s, excluded)
    requires MarkProbe(w1, s, c.name, tx).1.Err?
    ensures Selected(w, w1.states, s, tx, excluded, MarkProbe(w1, s, c.name, tx).0.(snapshot := NO_SNAPSHOT),
                     Err(error))
  {
    var now, prior := s.at(w1.ticks), s.at(w1.ticks - 1);
    var w3 := MarkProbe(w1, s, c.name, tx).0.(snapshot := NO_SNAPSHOT);
    RefusedMarkIsQuiet(w1, s, tx, c.name);
    QuietTrans(w.states, w1.states, w3.states, Max(s), prior, now);
    QuietLater(w.states, w1.states, Max(s), prior, now);
    assert w3.ticks - 1 == w1.ticks;
  }

  lemma RefusedMarkIsQuiet(w1: World, s: Setup, tx: string, g: string)
    requires AllWellFormed(w1.states, Max(s)) && MarkProbe(w1, s, g, tx).1.Err?
    ensures QuietStep(w1.states, MarkProbe(w1, s, g, tx).0.states, Max(s), s.at(w1.ticks))
  {
    var now := s.at(w1.ticks);
    if g in w1.states {
      var expiresAt := now + s.Routing().ProbeTimeout();
      RefusedAcquireIsQuiet(w1.states[g], g, tx, Max(s), expiresAt, now);
      SetIsQuiet(w1.states, g, Acquire(w1.states[g], tx, Max(s), expiresAt, now).0, Max(s), now);
    } else {
      QuietRefl(w1.states, Max(s), now);
    }
  }

  lemma SelectProbeKeeps(
      w: World, s: Setup, tx: string, excluded: set<string>, w1: World, probes: seq<GatewayConfig>,
      healthy: seq<GatewayConfig>)
    requires Sane(s) && Selected(w, w1.states, s, tx, excluded, w1, Err(NoAvailableGateway))
    requires CandidatesOk(probes, w1.states, s, excluded) && CandidatesOk(healthy, w1.states, s, excluded)
    requires forall g :: g in w1.states ==> !Holds(w1.states[g].probes, tx)
    ensures var (w', res) := SelectProbe(w1, s, tx, probes, healthy);
            Selected(w, w1.states, s, tx, excluded, w', res)
  {
    SelectAnswers(w1.counter, probes);
    var (counter, chosen) := Select(w1.counter, probes);
    var w1' := w1.(counter := counter);
    assert Selected(w, w1.states, s, tx, excluded, w1', Err(NoAvailableGateway));
    if chosen.Some? {
      var (w2, marked) := MarkProbe(w1', s, chosen.value.name, tx);
      if marked.Ok? {
        GrantKeeps(w, s, tx, excluded, w1', chosen.value);
      } else {
        RefusalKeeps(w, s, tx, excluded, w1', chosen.value, NoAvailableGateway);
        RefusalKeeps(w, s, tx, excluded, w1', chosen.value, marked.error);
        if healthy != [] {
          SelectHealthyKeeps(w, w1.states, s, tx, excluded, w2.(snapshot := NO_SNAPSHOT), healthy);
        }
      }
    }
  }

  lemma SelectGatewayKeeps(w: World, s: Setup, tx: string, excluded: set<string>)
    requires Sane(s) && Inv(w, s) && tx !in w.txns
    ensures var (w', res) := SelectGateway(w, s, tx, excluded);
            Selected(w, TakeSnapshot(w, s).0.states, s, tx, excluded, w', res)
  {
    TakeSnapshotKeeps(w, s);
    var (w1, snapshot) := TakeSnapshot(w, s);
    FilterMembers(snapshot.probes, excluded);
    FilterMembers(snapshot.healthy, excluded);
    var probes, healthy := FilterExcluded(snapshot.probes, excluded), FilterExcluded(snapshot.healthy, excluded);
    QuietKeepsTokens(w.states, w1.states, w.txns, Max(s), s.at(w1.ticks - 1));
    forall g | g in w1.states
      ensures !Holds(w1.states[g].probes, tx)
    {
      NoTokenOf(w1.states, w.txns, g, tx);
    }
    if probes != [] {
      SelectProbeKeeps(w, s, tx, excluded, w1, probes, healthy);
    } else {
      SelectHealthyKeeps(w, w1.states, s, tx, excluded, w1, healthy);
    }
  }

  // ---------------------------------------------------------------- initiation

  lemma ReleasedGrantIsQuiet(a: States, mid: States, b: States, s: Setup, g: string, tx: string, now: Time, later: Time)
    requires QuietStep(a, mid, Max(s), now) && Granted(mid, b, s, g, tx, now) && !Holds(mid[g].probes, tx)
             && now <= later
    ensures QuietStep(a, b[g := Release(b[g], tx, later).0], Max(s), later)
  {
    hide QuietState, Acquire, Release;
    CompensatedProbeIsQuiet(mid[g], g, tx, Max(s), now + s.Routing().ProbeTimeout(), now, later);
    var t := Release(b[g], tx, later).0;
    SetIsQuiet(mid, g, t, Max(s), later);
    assert b[g := t] == mid[g := t];
    QuietTrans(a, mid, mid[g := t], Max(s), now, later);
  }

  lemma CompensateIsQuiet(
      w: World, s: Setup, tx: string, excluded: set<string>, w1: World, selection: Selection, w2: World)
    requires Sane(s) && Inv(w, s) && tx !in w.txns
    requires Selected(w, TakeSnapshot(w, s).0.states, s, tx, excluded, w1, Ok(selection))
    requires w2.states == w1.states && w2.ticks >= w1.ticks
    ensures var w3 := Compensate(w2, s, selection, tx);
            QuietStep(w.states, w3.states, Max(s), s.at(w3.ticks - 1))
  {
    var mid, prior := TakeSnapshot(w, s).0.states, s.at(w1.ticks - 1);
    if selection.halfOpenProbe {
      var g := selection.gateway.name;
      QuietKeepsTokens(w.states, mid, w.txns, Max(s), prior);
      NoTokenOf(mid, w.txns, g, tx);
      ReleasedGrantIsQuiet(w.states, mid, w1.states, s, g, tx, prior, s.at(w2.ticks));
    } else {
      QuietLater(w.states, w1.states, Max(s), prior, s.at(w2.ticks - 1));
    }
  }

  lemma CompensateKeepsSnapshot(w1: World, s: Setup, selection: Selection, tx: string, w2: World)
    requires Sane(s) && w1.ticks > 0 && SnapshotOk(w1.snapshot, w1.states, s, s.at(w1.ticks - 1))
    requires w2.states == w1.states && w2.ticks >= w1.ticks && w2.snapshot == w1.snapshot
    ensures var w3 := Compensate(w2, s, selection, tx);
            w3.snapshot == w1.snapshot && SnapshotOk(w3.snapshot, w3.states, s, s.at(w3.ticks))
  {
    var w3 := Compensate(w2, s, selection, tx);
    SnapshotStaysOk(w1.snapshot, w1.states, w3.states, s, s.at(w1.ticks - 1), s.at(w3.ticks));
  }

  /** A world that differs from an invariant one by quiet health steps, routing and attempt numbers. */
  lemma QuietWorldIsOk(w: World, s: Setup, w': World)
    requires Sane(s) && Inv(w, s) && w'.ticks > w.ticks
    requires w'.txns == w.txns && w'.summaries == w.summaries && w'.events == w.events && w'.log == w.log
    requires QuietStep(w.states, w'.states, Max(s), s.at(w'.ticks - 1))
    requires SnapshotOk(w'.snapshot, w'.states, s, s.at(w'.ticks))
    ensures Inv(w', s)
  {
    QuietKeepsTokens(w.states, w'.states, w.txns, Max(s), s.at(w'.ticks - 1));
    LogStaysOk(w.events, w.log, s, s.at(w.ticks), s.at(w'.ticks));
  }

  lemma PendingIsNotCounted(txns: Transactions.Table, tx: Transaction, o: string, g: string, status: Status)
    requires tx.id !in txns && tx.status == Pending && status != Pending
    ensures FinalIds(txns[tx.id := tx], o, g, status) == FinalIds(txns, o, g, status)
  {
  }

  lemma PendingKeepsCounts(summaries: Blacklist.Summaries, txns: Transactions.Table, tx: Transaction, threshold: int)
    requires Counted(summaries, txns, threshold) && tx.id !in txns && tx.status == Pending
    ensures Counted(summaries, txns[tx.id := tx], threshold)
  {
    forall o, g
      ensures FinalIds(txns[tx.id := tx], o, g, Failure) == FinalIds(txns, o, g, Failure)
      ensures FinalIds(txns[tx.id := tx], o, g, Success) == FinalIds(txns, o, g, Success)
    {
      PendingIsNotCounted(txns, tx, o, g, Failure);
      PendingIsNotCounted(txns, tx, o, g, Success);
    }
  }

  lemma StoredKeepsTokens(states: States, txns: Transactions.Table, tx: Transaction)
    requires TokensPending(states, txns) && tx.id !in txns
    ensures TokensPending(states, txns[tx.id := tx])
  {
  }

  lemma GrantedTokensArePending(mid: States, b: States, s: Setup, txns: Transactions.Table, tx: Transaction, now: Time)
    requires TokensPending(mid, txns) && tx.id !in txns && tx.status == Pending
    requires Granted(mid, b, s, tx.gateway, tx.id, now)
    ensures TokensPending(b, txns[tx.id := tx])
  {
    StoredKeepsTokens(mid, txns, tx);
    LiveMembers(mid[tx.gateway].probes, UnixMilli(now));
    forall g, p | g in b && p in b[g].probes
      ensures IsPendingOn(txns[tx.id := tx], p.transactionId, g)
    {
      if p in mid[g].probes {
        assert IsPendingOn(txns[tx.id := tx], p.transactionId, g);
      } else {
        assert g == tx.gateway && p.transactionId == tx.id;
      }
    }
  }

  lemma StoredWorldIsOk(
      w: World, s: Setup, excluded: set<string>, w1: World, selection: Selection, tx: Transaction, w': World)
    requires Sane(s) && Inv(w, s) && tx.id !in w.txns && tx.status == Pending && tx.gateway == selection.gateway.name
    requires Selected(w, TakeSnapshot(w, s).0.states, s, tx.id, excluded, w1, Ok(selection))
    requires w' == w1.(txns := w.txns[tx.id := tx], attempts := w'.attempts, ticks := w1.ticks + 1)
    ensures Inv(w', s)
  {
    var mid, prior := TakeSnapshot(w, s).0.states, s.at(w1.ticks - 1);
    SnapshotStaysOk(w1.snapshot, w1.states, w1.states, s, prior, s.at(w'.ticks));
    LogStaysOk(w.events, w.log, s, s.at(w.ticks), s.at(w'.ticks));
    PendingKeepsCounts(w.summaries, w.txns, tx, s.Routing().orderGatewayFailureThreshold);
    if selection.halfOpenProbe {
      QuietKeepsTokens(w.states, mid, w.txns, Max(s), prior);
      GrantedTokensArePending(mid, w1.states, s, w.txns, tx, prior);
    } else {
      QuietKeepsTokens(w.states, w1.states, w.txns, Max(s), prior);
      StoredKeepsTokens(w1.states, w.txns, tx);
    }
  }

  /** What an Initiate call may change and answer. */
  ghost predicate Initiated(w: World, s: Setup, input: InitiateInput, w': World, res: Result<Transaction>) {
    && w'.ticks > w.ticks
    && w'.summaries == w.summaries && w'.events == w.events && w'.log == w.log
    && (res.Err? ==> w'.txns == w.txns && QuietStep(w.states, w'.states, Max(s), s.at(w'.ticks - 1)))
    && (res.Ok? ==>
          && w'.txns == w.txns[input.transactionId := res.value]
          && res.value.orderId == input.orderId && res.value.status == Pending
          && res.value.gateway !in Excluded(w, input.orderId)
          && exists c :: c in s.Gateways() && Routable(c) && c.name == res.value.gateway)
  }

  lemma InitiateKeeps(w: World, s: Setup, input: InitiateInput)
    requires Sane(s) && Inv(w, s) && input.transactionId !in w.txns
    ensures var (w', res) := Initiate(w, s, input);
            Inv(w', s) && Initiated(w, s, input, w', res)
  {
    var tx, excluded := input.transactionId, Excluded(w, input.orderId);
    SelectGatewayKeeps(w, s, tx, excluded);
    var (w1, selected) := SelectGateway(w, s, tx, excluded);
    if selected.Err? {
      SnapshotStaysOk(w1.snapshot, w1.states, w1.states, s, s.at(w1.ticks - 1), s.at(w1.ticks));
      QuietWorldIsOk(w, s, w1);
    } else {
      SubmitKeeps(w, s, input, w1, selected.value);
    }
  }

  lemma SubmitKeeps(w: World, s: Setup, input: InitiateInput, w1: World, selection: Selection)
    requires Sane(s) && Inv(w, s) && input.transactionId !in w.txns
    requires Selected(w, TakeSnapshot(w, s).0.states, s, input.transactionId, Excluded(w, input.orderId), w1,
                      Ok(selection))
    ensures var (w', res) := Submit(w1, s, input, selection);
            Inv(w', s) && Initiated(w, s, input, w', res)
  {
    hide Inv, QuietStep, SnapshotOk;
    var (w', res) := Submit(w1, s, input, selection);
    var tx := input.transactionId;
    if res.Ok? {
      StoredWorldIsOk(w, s, Excluded(w, input.orderId), w1, selection, res.value, w');
    } else {
      var w2 := if !input.registered(selection.gateway.name) then w1
                else w1.(attempts := w1.attempts[input.orderId := NextAttempt(w1.attempts, input.orderId)],
                         ticks := w1.ticks + 1);
      assert w' == Compensate(w2, s, selection, tx);
      CompensateIsQuiet(w, s, tx, Excluded(w, input.orderId), w1, selection, w2);
      CompensateKeepsSnapshot(w1, s, selection, tx, w2);
      QuietWorldIsOk(w, s, w');
    }
  }

  // ---------------------------------------------------------------- observation and callbacks

  lemma ObserveKeeps(w: World, s: Setup, g: string)
    requires Sane(s) && Inv(w, s)
    ensures Inv(Observe(w, s, g).0, s)
    ensures QuietStep(w.states, Observe(w, s, g).0.states, Max(s), s.at(w.ticks))
  {
    var w' := Observe(w, s, g).0;
    InspectIsQuiet(w.states, g, Max(s), s.at(w.ticks));
    QuietLater(w.states, w'.states, Max(s), s.at(w.ticks), s.at(w'.ticks - 1));
    QuietKeepsSnapshot(w.snapshot, w.states, w'.states, s, s.at(w.ticks), s.at(w'.ticks), s.at(w.ticks));
    QuietWorldIsOk(w, s, w');
  }

  lemma OutcomeKeepsSnapshot(
      w: World, s: Setup, stats: Stats, g: string, tx: string, status: Status, now: Time, later: Time)
    requires Sane(s) && AllWellFormed(w.states, Max(s)) && SnapshotOk(w.snapshot, w.states, s, now) && now <= later
    ensures SnapshotOk(w.snapshot, OutcomeFor(w.states, stats, s.Routing(), g, tx, status, now), s, later)
  {
    var r := s.Routing();
    var e, b := Ensured(w.states, g, now), OutcomeFor(w.states, stats, r, g, tx, status, now);
    OutcomeMoves(e[g], stats, tx, status, r, now);
    forall c | c in w.snapshot.healthy || c in w.snapshot.probes
      ensures Listed(c, w.snapshot, b, s)
    {
      assert Listed(c, w.snapshot, w.states, s);
    }
  }

  /** After an outcome the finished transaction holds no token, and no token is new. */
  lemma OutcomeTokens(
      st: RuntimeState, g: string, stats: Stats, tx: string, status: Status, r: RoutingConfig, now: Time,
      p: Probe)
    requires WellFormed(st, g, r.halfOpenProbeCount) && p in Outcome(st, stats, tx, status, r, now).probes
    ensures p in st.probes && p.transactionId != tx
  {
    var live := Live(st.probes, UnixMilli(now));
    LiveMembers(st.probes, UnixMilli(now));
    WithoutMembers(live, tx);
  }

  lemma OutcomeKeepsTokens(
      states: States, txns: Transactions.Table, stats: Stats, r: RoutingConfig, g: string, tx: string,
      status: Status, now: Time)
    requires TokensPending(states, txns) && AllWellFormed(states, r.halfOpenProbeCount) && r.Usable()
    requires IsPendingOn(txns, tx, g)
    ensures TokensPending(OutcomeFor(states, stats, r, g, tx, status, now),
                          txns[tx := Transactions.Finished(txns[tx], status, now)])
  {
    var b := OutcomeFor(states, stats, r, g, tx, status, now);
    var txns' := txns[tx := Transactions.Finished(txns[tx], status, now)];
    forall h, p | h in b && p in b[h].probes
      ensures IsPendingOn(txns', p.transactionId, h)
    {
      if h == g {
        OutcomeTokens(Ensured(states, g, now)[g], g, stats, tx, status, r, now, p);
      }
      assert IsPendingOn(txns, p.transactionId, h);
    }
  }

  lemma FinishedIds(txns: Transactions.Table, id: string, done: Transaction, o: string, g: string, status: Status)
    requires id in txns && txns[id].status == Pending && status != Pending
    ensures id !in FinalIds(txns, o, g, status)
    ensures FinalIds(txns[id := done], o, g, status)
         == FinalIds(txns, o, g, status) + if done.orderId == o && done.gateway == g && done.status == status then {id}
           else {}
  {
  }

  lemma FinishedIsCounted(txns: Transactions.Table, id: string, done: Transaction, o: string, g: string, status: Status)
    requires id in txns && txns[id].status == Pending && status != Pending
    ensures |FinalIds(txns[id := done], o, g, status)|
         == |FinalIds(txns, o, g, status)| + if done.orderId == o && done.gateway == g && done.status == status then 1
           else 0
  {
    FinishedIds(txns, id, done, o, g, status);
    hide FinalIds;
    assert FinalIds(txns, o, g, status) + {} == FinalIds(txns, o, g, status);
  }

  lemma FinishedKeepsCounts(
      summaries: Blacklist.Summaries, txns: Transactions.Table, id: string, done: Transaction, threshold: int,
      now: Time)
    requires Counted(summaries, txns, threshold) && id in txns && txns[id].status == Pending && done.status.IsFinal()
    requires done.orderId == txns[id].orderId && done.gateway == txns[id].gateway
    ensures Counted(Blacklist.RecordOutcome(summaries, done.orderId, done.gateway, done.status, threshold, now).0,
                    txns[id := done], threshold)
  {
    var after := Blacklist.RecordOutcome(summaries, done.orderId, done.gateway, done.status, threshold, now).0;
    forall o, g
      ensures var sm := Blacklist.Lookup(after, o, g);
              && sm.failures == |FinalIds(txns[id := done], o, g, Failure)|
              && sm.successes == |FinalIds(txns[id := done], o, g, Success)|
              && (sm.blacklisted <==> sm.successes == 0 && sm.failures >= Blacklist.Effective(threshold))
    {
      FinishedIsCounted(txns, id, done, o, g, Failure);
      FinishedIsCounted(txns, id, done, o, g, Success);
      Blacklist.LookupAfterRecord(summaries, done.orderId, done.gateway, done.status, threshold, now, o, g);
      var before := Blacklist.Lookup(summaries, o, g);
      assert before.failures == |FinalIds(txns, o, g, Failure)|;
    }
  }

  lemma RecordKeepsLog(w: World, s: Setup, g: string, tx: string, status: Status, now: Time, later: Time)
    requires Sane(s) && LogOk(w.events, w.log, s, now) && now <= later
    ensures LogOk(EventsAfter(w.events, s.Routing(), g, tx, status, now), LogAfter(w.log, g, tx, status, now), s, later)
  {
    var r, e := s.Routing(), Event(g, tx, status, now);
    if status.IsFinal() {
      AgreeRecord(w.events, w.log, now - r.Window(), e, r.Retention());
    }
    LogStaysOk(EventsAfter(w.events, r, g, tx, status, now), LogAfter(w.log, g, tx, status, now), s, now, later);
  }

  lemma OutcomeKeepsShapes(
      states: States, stats: Stats, r: RoutingConfig, g: string, tx: string, status: Status, now: Time)
    requires AllWellFormed(states, r.halfOpenProbeCount) && r.Usable()
    ensures AllWellFormed(OutcomeFor(states, stats, r, g, tx, status, now), r.halfOpenProbeCount)
  {
    OutcomeKeepsShape(Ensured(states, g, now)[g], g, stats, tx, status, r, now);
  }

  lemma CompletedKeeps(w: World, s: Setup, id: string, status: Status)
    requires Sane(s) && Inv(w, s) && id in w.txns && w.txns[id].status == Pending && status.IsFinal()
    ensures var done := Transactions.Finished(w.txns[id], status, s.at(w.ticks));
            Inv(RecordCompleted(w.(txns := w.txns[id := done], ticks := w.ticks + 1), s, done).0, s)
  {
    var done := Transactions.Finished(w.txns[id], status, s.at(w.ticks));
    var w1 := w.(txns := w.txns[id := done], ticks := w.ticks + 1);
    var r, g, now, later := s.Routing(), done.gateway, s.at(w1.ticks), s.at(w1.ticks + 2);
    var w' := RecordCompleted(w1, s, done).0;
    var stats := WindowStats(w'.events, r, g, now);
    OutcomeKeepsShapes(w.states, stats, r, g, id, status, now);
    SnapshotStaysOk(w.snapshot, w.states, w.states, s, s.at(w.ticks), now);
    OutcomeKeepsSnapshot(w, s, stats, g, id, status, now, later);
    OutcomeTokensAfterFinish(w, s, id, status, stats, now);
    FinishedKeepsCounts(w.summaries, w.txns, id, done, r.orderGatewayFailureThreshold, s.at(w1.ticks + 1));
    LogStaysOk(w.events, w.log, s, s.at(w.ticks), now);
    RecordKeepsLog(w, s, g, id, status, now, later);
  }

  lemma OutcomeTokensAfterFinish(w: World, s: Setup, id: string, status: Status, stats: Stats, now: Time)
    requires Sane(s) && Inv(w, s) && id in w.txns && w.txns[id].status == Pending
    ensures TokensPending(OutcomeFor(w.states, stats, s.Routing(), w.txns[id].gateway, id, status, now),
                          w.txns[id := Transactions.Finished(w.txns[id], status, s.at(w.ticks))])
  {
    OutcomeKeepsTokens(w.states, w.txns, stats, s.Routing(), w.txns[id].gateway, id, status, now);
    var b := OutcomeFor(w.states, stats, s.Routing(), w.txns[id].gateway, id, status, now);
    forall h, p | h in b && p in b[h].probes
      ensures IsPendingOn(w.txns[id := Transactions.Finished(w.txns[id], status, s.at(w.ticks))], p.transactionId, h)
    {
      assert IsPendingOn(w.txns[id := Transactions.Finished(w.txns[id], status, now)], p.transactionId, h);
    }
  }

  lemma CallbackKeeps(w: World, s: Setup, input: CallbackInput)
    requires Sane(s) && Inv(w, s)
    ensures Inv(Callback(w, s, input).0, s)
  {
    var id := input.transactionId;
    var w' := Callback(w, s, input).0;
    if w' != w {
      var (txns, completion) := Transactions.Complete(w.txns, id, input.status, s.at(w.ticks));
      var w1 := w.(ticks := w.ticks + 1);
      if completion.Ok? && completion.value.changed {
        CompletedKeeps(w, s, id, input.status);
      } else {
        QuietRefl(w.states, Max(s), s.at(w.ticks));
        SnapshotStaysOk(w.snapshot, w.states, w.states, s, s.at(w.ticks), s.at(w1.ticks));
        QuietWorldIsOk(w, s, w1);
        if completion.Ok? {
          ObserveKeeps(w1, s, completion.value.transaction.gateway);
        }
      }
    }
  }

  // ---------------------------------------------------------------- runs

  /** New transaction ids are fresh. */
  ghost predicate Admissible(w: World, op: Operation) {
    op.InitiateOp? ==> op.initiate.transactionId !in w.txns
  }

  ghost predicate FreshIds(w: World, s: Setup, ops: seq<Operation>) {
    forall i :: 0 <= i < |ops| ==> Admissible(Run(w, s, ops[..i]), ops[i])
  }

  lemma PerformKeeps(w: World, s: Setup, op: Operation)
    requires Sane(s) && Inv(w, s) && Admissible(w, op)
    ensures Inv(Perform(w, s, op), s) && Perform(w, s, op).ticks >= w.ticks
  {
    match op
    case InitiateOp(input) => InitiateKeeps(w, s, input);
    case CallbackOp(input) => CallbackKeeps(w, s, input);
    case ObserveOp(g) => ObserveKeeps(w, s, g);
  }

  lemma FreshPrefix(w: World, s: Setup, ops: seq<Operation>)
    requires ops != [] && FreshIds(w, s, ops)
    ensures FreshIds(w, s, ops[..|ops| - 1]) && Admissible(Run(w, s, ops[..|ops| - 1]), ops[|ops| - 1])
  {
    var rest := ops[..|ops| - 1];
    forall i | 0 <= i < |rest|
      ensures Admissible(Run(w, s, rest[..i]), rest[i])
    {
      assert rest[..i] == ops[..i];
    }
  }

  /** Every run keeps the invariant. */
  lemma {:induction false} RunKeeps(w: World, s: Setup, ops: seq<Operation>)
    requires Sane(s) && Inv(w, s) && FreshIds(w, s, ops)
    ensures Inv(Run(w, s, ops), s) && Run(w, s, ops).ticks >= w.ticks
  {
    if ops != [] {
      FreshPrefix(w, s, ops);
      RunKeeps(w, s, ops[..|ops| - 1]);
      PerformKeeps(Run(w, s, ops[..|ops| - 1]), s, ops[|ops| - 1]);
    }
  }
}
