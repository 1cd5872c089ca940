/** What a caller is answered: which error a callback or an Initiate gets and when, and what a
    successful answer says of the transaction, the gateway's state, its statistics and the
    attempt number. */
module ReferenceAnswers {
  import opened Domain
  import opened Breaker
  import opened EventLog
  import opened Reference
  import opened Quiet
  import opened ReferenceInvariant
  import opened ReferenceTheorems
  import opened ReferenceVerdicts
  import Selector
  import Blacklist
  import opened Transactions

  // ---------------------------------------------------------------- callbacks

  /** In every world: which error a callback gets is decided by the stored transaction and the
      input, in the order unknown id, other gateway, other order, pending status, other final
      status; a callback that fails changes nothing. */
  lemma CallbackFailsExactlyWhen(w: World, s: Setup, input: CallbackInput)
    ensures var id := input.transactionId;
            var (w', res) := Callback(w, s, input);
            && (res.Err? ==> w' == w.(ticks := w'.ticks))
            && (id !in w.txns <==> res == Err(NotFound))
            && (id in w.txns ==>
                  var t := w.txns[id];
                  var named := t.gateway == input.gateway;
                  var meant := named && (input.orderId == "" || input.orderId == t.orderId);
                  var decided := t.status != Pending && t.status != input.status;
                  && (res == Err(GatewayMismatch) <==> !named)
                  && (res == Err(InvalidStatus) <==> meant && input.status == Pending)
                  && (res == Err(Conflict) <==> named && (!meant || (input.status != Pending && decided)))
                  && (res.Ok? <==> meant && input.status != Pending && !decided))
  {
    hide OutcomeFor, EventsAfter, LogAfter, WindowStats, Blacklist.RecordOutcome, Inspect;
  }

  /** Statistics that count the log's window, with the rate they amount to. */
  ghost predicate Counts(stats: Stats, log: seq<Event>, s: Setup, g: string, now: Time) {
    && stats.gateway == g
    && stats.successes == InWindow(log, s, g, Success, now) && stats.failures == InWindow(log, s, g, Failure, now)
    && stats.Total() == stats.successes + stats.failures
    && stats.Rate() * stats.Total() as real == stats.successes as real
    && (stats.Total() == 0 ==> stats.Rate() == 0.0)
  }

  lemma WindowCounts(events: seq<Event>, log: seq<Event>, s: Setup, g: string, now: Time)
    requires LogOk(events, log, s, now)
    ensures Counts(WindowStats(events, s.Routing(), g, now), log, s, g, now)
  {
    hide InWindow, StatsOf, Retain;
    var since := now - s.Routing().Window();
    AgreeingStats(events, log, since, g, since, now);
    StatsAreCounts(log, s, g, now);
  }

  /** What a callback stores: the first final one its status and the reading, a repeated one
      nothing. */
  function Concluded(t: Transaction, status: Status, now: Time): Transaction {
    if t.status == Pending then t.(status := status, updatedAt := now, completedAt := Some(now)) else t
  }

  /** The answer to a callback that succeeds from w to w'. */
  ghost predicate Answered(w: World, s: Setup, input: CallbackInput, w': World, result: CallbackResult)
    requires input.transactionId in w.txns
  {
    var id, t := input.transactionId, w.txns[input.transactionId];
    var first := t.status == Pending;
    && (result.idempotent <==> !first)
    && result.transaction == Concluded(t, input.status, s.at(w.ticks))
    && result.transaction.status == input.status
    && w'.txns == w.txns[id := result.transaction]
    && t.gateway in w'.states && result.state == w'.states[t.gateway]
    && Counts(result.stats, w'.log, s, t.gateway, s.at(if first then w.ticks + 1 else w.ticks + 2))
  }

  /** After any run: a callback that succeeds says whether it is a repetition; answers the
      transaction it has stored, with its own status; and answers the stored state of the
      gateway and the counts of the log's window. */
  lemma CallbackAnswer(s: Setup, ops: seq<Operation>, input: CallbackInput)
    requires Sane(s) && FreshIds(EMPTY_WORLD, s, ops)
    ensures var w := Run(EMPTY_WORLD, s, ops);
            var (w', res) := Callback(w, s, input);
            res.Ok? ==> input.transactionId in w.txns && Answered(w, s, input, w', res.value)
  {
    hide Callback, Inv, Run, FreshIds, Answered;
    EmptyWorldIsOk(s);
    RunKeeps(EMPTY_WORLD, s, ops);
    var w := Run(EMPTY_WORLD, s, ops);
    CallbackFailsExactlyWhen(w, s, input);
    if Callback(w, s, input).1.Ok? {
      if w.txns[input.transactionId].status == Pending {
        FirstAnswer(w, s, input);
      } else {
        RepeatedAnswer(w, s, input);
      }
    }
  }

  lemma FirstAnswer(w: World, s: Setup, input: CallbackInput)
    requires Sane(s) && Inv(w, s) && input.transactionId in w.txns
    requires Completes(w, input, w.txns[input.transactionId].gateway)
    ensures var (w', res) := Callback(w, s, input);
            res.Ok? && Answered(w, s, input, w', res.value)
  {
    hide Callback, Counts, Inv, RecordCompleted;
    var id, g, now := input.transactionId, w.txns[input.transactionId].gateway, s.at(w.ticks + 1);
    var done := Completed(w, s, input);
    var w1 := w.(txns := w.txns[id := done], ticks := w.ticks + 1);
    StoredUnder(w, s, g);
    RecordedLog(w, s, g, id, input.status);
    FirstIsRecorded(w, s, input);
    RecordedAnswer(w1, s, done);
    WindowCounts(EventsAfter(w.events, s.Routing(), g, id, input.status, now),
                 LogAfter(w.log, g, id, input.status, now), s, g, now);
  }

  lemma FirstIsRecorded(w: World, s: Setup, input: CallbackInput)
    requires input.transactionId in w.txns && Completes(w, input, w.txns[input.transactionId].gateway)
    ensures var done := Completed(w, s, input);
            var (w', result) := RecordCompleted(
              w.(txns := w.txns[input.transactionId := done], ticks := w.ticks + 1), s, done);
            Callback(w, s, input) == (w', Ok(result))
  {
    hide RecordCompleted;
  }

  lemma RecordedAnswer(w: World, s: Setup, done: Transaction)
    ensures var (w', result) := RecordCompleted(w, s, done);
            var now := s.at(w.ticks);
            && w'.txns == w.txns && done.gateway in w'.states
            && w'.log == LogAfter(w.log, done.gateway, done.id, done.status, now)
            && result.transaction == done && !result.idempotent && result.state == w'.states[done.gateway]
            && result.stats == WindowStats(EventsAfter(w.events, s.Routing(), done.gateway, done.id, done.status, now),
                                           s.Routing(), done.gateway, now)
  {
    hide OutcomeFor, EventsAfter, LogAfter, WindowStats, Blacklist.RecordOutcome;
    var r, g, now := s.Routing(), done.gateway, s.at(w.ticks);
    StoredOutcome(w.states, WindowStats(EventsAfter(w.events, r, g, done.id, done.status, now), r, g, now), r, g,
                  done.id, done.status, now);
  }

  lemma StoredOutcome(
      states: States, stats: Stats, r: RoutingConfig, g: string, tx: string, status: Status, now: Time)
    ensures g in OutcomeFor(states, stats, r, g, tx, status, now)
  {
  }

  lemma RecordedLog(w: World, s: Setup, g: string, id: string, status: Status)
    requires Sane(s) && Inv(w, s)
    ensures var now := s.at(w.ticks + 1);
            LogOk(EventsAfter(w.events, s.Routing(), g, id, status, now), LogAfter(w.log, g, id, status, now), s, now)
  {
    LogStaysOk(w.events, w.log, s, s.at(w.ticks), s.at(w.ticks + 1));
    RecordKeepsLog(w, s, g, id, status, s.at(w.ticks + 1), s.at(w.ticks + 1));
  }

  lemma RepeatedAnswer(w: World, s: Setup, input: CallbackInput)
    requires Sane(s) && Inv(w, s) && Callback(w, s, input).1.Ok?
    requires input.transactionId in w.txns && w.txns[input.transactionId].status != Pending
    ensures var (w', res) := Callback(w, s, input);
            Answered(w, s, input, w', res.value)
  {
    hide Inspect, Counts, WindowStats, RecordCompleted, QuietStep, SnapshotOk, TokensPending,
         ReferenceInvariant.Counted;
    var id, g := input.transactionId, w.txns[input.transactionId].gateway;
    LogStaysOk(w.events, w.log, s, s.at(w.ticks), s.at(w.ticks + 2));
    WindowCounts(w.events, w.log, s, g, s.at(w.ticks + 2));
    InspectStores(w.states, g, s.at(w.ticks + 1));
    assert w.txns[id := w.txns[id]] == w.txns;
  }

  lemma InspectStores(states: States, g: string, now: Time)
    ensures g in Inspect(states, g, now)
  {
  }

  // ---------------------------------------------------------------- observation

  /** After any run: observing a gateway answers its stored state, from which exactly the
      expired tokens have been dropped, and the counts of the log's window. */
  lemma ObservationAnswer(s: Setup, ops: seq<Operation>, g: string)
    requires Sane(s) && FreshIds(EMPTY_WORLD, s, ops)
    ensures var w := Run(EMPTY_WORLD, s, ops);
            var (w', state, stats) := Observe(w, s, g);
            && w'.states == w.states[g := state]
            && Counts(stats, w'.log, s, g, s.at(w.ticks + 1))
            && (g !in w.states ==> state == RuntimeState(g, Healthy, None, 0, [], s.at(w.ticks)))
            && (g in w.states && w.states[g].phase != HalfOpen ==> state == w.states[g])
            && (g in w.states && w.states[g].phase == HalfOpen ==>
                  && state == w.states[g].(probes := state.probes, inFlight := |state.probes|,
                                           updatedAt := s.at(w.ticks))
                  && forall p :: p in state.probes <==>
                       p in w.states[g].probes && p.transactionId != "" && p.expiresAtMilli > s.at(w.ticks) / 1_000_000)
  {
    hide Inv, Run, FreshIds, Counts, WindowStats;
    EmptyWorldIsOk(s);
    RunKeeps(EMPTY_WORLD, s, ops);
    var w := Run(EMPTY_WORLD, s, ops);
    assert LogOk(w.events, w.log, s, s.at(w.ticks)) by { LogInInv(w, s); }
    LogStaysOk(w.events, w.log, s, s.at(w.ticks), s.at(w.ticks + 1));
    WindowCounts(w.events, w.log, s, g, s.at(w.ticks + 1));
    if g in w.states {
      LiveMembers(w.states[g].probes, UnixMilli(s.at(w.ticks)));
    }
  }

  lemma LogInInv(w: World, s: Setup)
    requires Inv(w, s)
    ensures LogOk(w.events, w.log, s, s.at(w.ticks))
  {
  }

  // ---------------------------------------------------------------- attempt numbers

  /** The Initiate is routed, and to a gateway with a registered client. */
  predicate ReachesClient(w: World, s: Setup, input: InitiateInput) {
    var selected := SelectGateway(w, s, input.transactionId, Excluded(w, input.orderId)).1;
    selected.Ok? && input.registered(selected.value.gateway.name)
  }

  /** The Initiates of the order, among the operations, that reach a client. */
  function Reached(w: World, s: Setup, ops: seq<Operation>, o: string): nat {
    if ops == [] then 0
    else
      var rest, op := ops[..|ops| - 1], ops[|ops| - 1];
      Reached(w, s, rest, o)
      + if op.InitiateOp? && op.initiate.orderId == o && ReachesClient(Run(w, s, rest), s, op.initiate) then 1 else 0
  }

  lemma SelectionKeepsTables(w: World, s: Setup, tx: string, excluded: set<string>)
    ensures var w' := SelectGateway(w, s, tx, excluded).0;
            w'.txns == w.txns && w'.attempts == w.attempts
  {
    hide TakeSnapshot, MarkProbe, FilterExcluded, Selector.Select;
    SnapshotKeepsTables(w, s);
    var (w1, snapshot) := TakeSnapshot(w, s);
    var (counter, chosen) := Selector.Select(w1.counter, FilterExcluded(snapshot.probes, excluded));
    if chosen.Some? {
      MarkKeepsTables(w1.(counter := counter), s, chosen.value.name, tx);
    }
  }

  lemma SnapshotKeepsTables(w: World, s: Setup)
    ensures TakeSnapshot(w, s).0.txns == w.txns && TakeSnapshot(w, s).0.attempts == w.attempts
  {
    hide Rebuilt;
  }

  lemma MarkKeepsTables(w: World, s: Setup, g: string, tx: string)
    ensures MarkProbe(w, s, g, tx).0.txns == w.txns && MarkProbe(w, s, g, tx).0.attempts == w.attempts
  {
    hide Acquire;
  }

  /** What an Initiate does to the table and the attempts. */
  lemma InitiateNumbers(w: World, s: Setup, input: InitiateInput)
    ensures var (w', res) := Initiate(w, s, input);
            && w'.attempts == (if ReachesClient(w, s, input)
                               then w.attempts[input.orderId := AttemptsOf(w.attempts, input.orderId) + 1]
                               else w.attempts)
            && (res.Err? ==> w'.txns == w.txns)
            && (res.Ok? ==>
                  && ReachesClient(w, s, input) && res.value.id == input.transactionId
                  && input.transactionId !in w.txns && w'.txns == w.txns[input.transactionId := res.value]
                  && res.value.orderId == input.orderId
                  && res.value.attemptNo == AttemptsOf(w.attempts, input.orderId) + 1)
  {
    hide SelectGateway, ReleaseProbe, Excluded;
    SelectionKeepsTables(w, s, input.transactionId, Excluded(w, input.orderId));
    var (w1, selected) := SelectGateway(w, s, input.transactionId, Excluded(w, input.orderId));
    if selected.Ok? {
      SubmitNumbers(w1, s, input, selected.value);
    }
  }

  lemma ReleaseKeepsTables(w: World, s: Setup, g: string, tx: string)
    ensures ReleaseProbe(w, s, g, tx).txns == w.txns && ReleaseProbe(w, s, g, tx).attempts == w.attempts
  {
    hide Release;
  }

  /** The same after a selection. */
  lemma SubmitNumbers(w: World, s: Setup, input: InitiateInput, selection: Selection)
    ensures var (w', res) := Submit(w, s, input, selection);
            var reached := input.registered(selection.gateway.name);
            && w'.attempts == (if reached then w.attempts[input.orderId := AttemptsOf(w.attempts, input.orderId) + 1]
                               else w.attempts)
            && (res.Err? ==> w'.txns == w.txns)
            && (res.Ok? ==>
                  && reached && res.value.id == input.transactionId
                  && input.transactionId !in w.txns && w'.txns == w.txns[input.transactionId := res.value]
                  && res.value.orderId == input.orderId
                  && res.value.attemptNo == AttemptsOf(w.attempts, input.orderId) + 1)
  {
    hide ReleaseProbe;
    forall v: World, g
      ensures ReleaseProbe(v, s, g, input.transactionId).txns == v.txns
      ensures ReleaseProbe(v, s, g, input.transactionId).attempts == v.attempts
    {
      ReleaseKeepsTables(v, s, g, input.transactionId);
    }
  }

  lemma InitiateStaysNumbered(w: World, s: Setup, input: InitiateInput)
    requires Numbered(w.txns, w.attempts)
    ensures var w' := Initiate(w, s, input).0;
            Numbered(w'.txns, w'.attempts)
  {
    hide Initiate, ReachesClient, Numbered;
    InitiateNumbers(w, s, input);
    var (w', res) := Initiate(w, s, input);
    if res.Ok? {
      SavedStaysNumbered(w.txns, w.attempts, res.value);
    } else {
      TakenStaysNumbered(w.txns, w.attempts, input.orderId);
    }
  }

  lemma CallbackStaysNumbered(w: World, s: Setup, input: CallbackInput)
    requires Numbered(w.txns, w.attempts)
    ensures var w' := Callback(w, s, input).0;
            Numbered(w'.txns, w'.attempts) && w'.attempts == w.attempts
  {
    hide OutcomeFor, EventsAfter, LogAfter, WindowStats, Blacklist.RecordOutcome, Inspect, Numbered, Complete;
    CallbackTable(w, s, input);
    CompletionKeepsNumbers(w.txns, input.transactionId, input.status, s.at(w.ticks));
    SameStaysNumbered(w.txns, Callback(w, s, input).0.txns, w.attempts);
  }

  /** After any run, from any ids: attempt numbers are distinct within an order, start at one,
      and an order's attempts are its Initiates that reached a client. */
  lemma {:induction false} AttemptsAreNumbered(s: Setup, ops: seq<Operation>, o: string)
    ensures var w := Run(EMPTY_WORLD, s, ops);
            Numbered(w.txns, w.attempts) && AttemptsOf(w.attempts, o) == Reached(EMPTY_WORLD, s, ops, o)
  {
    hide Initiate, Callback, Observe, ReachesClient, Numbered;
    if ops == [] {
      assert Numbered(map[], map[]) by { NothingNumbered(); }
    } else {
      var w, op := Run(EMPTY_WORLD, s, ops[..|ops| - 1]), ops[|ops| - 1];
      AttemptsAreNumbered(s, ops[..|ops| - 1], o);
      match op
      case InitiateOp(input) =>
        InitiateNumbers(w, s, input);
        InitiateStaysNumbered(w, s, input);
      case CallbackOp(input) => CallbackStaysNumbered(w, s, input);
      case ObserveOp(g) => ObservationKeepsTables(w, s, g);
    }
  }

  lemma NothingNumbered()
    ensures Numbered(map[], map[])
  {
  }

  lemma ObservationKeepsTables(w: World, s: Setup, g: string)
    ensures Observe(w, s, g).0.txns == w.txns && Observe(w, s, g).0.attempts == w.attempts
  {
  }

  // ---------------------------------------------------------------- initiation

  /** After any run: an Initiate fails with the selection's error, for want of a client, by the
      client's refusal or on a known id, in that order, and then stores nothing; otherwise it
      stores and answers a pending transaction on the selected gateway, dated by the reading
      after the selection and numbered one above the order's earlier Initiates that reached
      a client. */
  lemma InitiateAnswer(s: Setup, ops: seq<Operation>, input: InitiateInput)
    ensures var w := Run(EMPTY_WORLD, s, ops);
            var (w1, selected) := SelectGateway(w, s, input.transactionId, Excluded(w, input.orderId));
            var (w', res) := Initiate(w, s, input);
            && (res.Err? ==> w'.txns == w.txns)
            && (selected.Err? ==> res == Err(selected.error))
            && (selected.Ok? ==>
                  var g, now := selected.value.gateway.name, s.at(w1.ticks);
                  var number := Reached(EMPTY_WORLD, s, ops, input.orderId) + 1;
                  if !input.registered(g) then res == Err(UnregisteredClient)
                  else if !input.accepted then res == Err(ClientFailure)
                  else if input.transactionId in w.txns then res == Err(Conflict)
                  else
                    && res == Ok(Transaction(input.transactionId, input.orderId, number, g, Pending, now, now, None))
                    && w'.txns == w.txns[input.transactionId := res.value])
  {
    hide SelectGateway, Release, Run, Numbered, Reached;
    var w := Run(EMPTY_WORLD, s, ops);
    AttemptsAreNumbered(s, ops, input.orderId);
    SelectionKeepsTables(w, s, input.transactionId, Excluded(w, input.orderId));
  }
}
