/** Conservation under every interleaving of callbacks: finished transactions, logged events
    and blacklist counters differ exactly by the callbacks that are parked in between. */
module InterleavingLedger {
  import opened Domain
  import opened Breaker
  import opened EventLog
  import opened Reference
  import opened Selector
  import opened Interleaving
  import Blacklist
  import Transactions

  ghost predicate InLog(log: seq<Event>, id: string) {
    exists e :: e in log && e.transactionId == id
  }

  ghost predicate TableOk(s: Shared) {
    && (forall id :: id in s.txns ==> s.txns[id].id == id)
    && (forall id :: id in s.completer <==> id in s.txns && s.txns[id].status.IsFinal())
    && (forall id :: id in s.applied ==> id in s.completer)
  }

  /** Every logged event is the outcome of a finished transaction, and no id is logged twice. */
  ghost predicate LogOk(s: Shared) {
    && (forall e :: e in s.log ==>
          && e.transactionId in s.completer && e.transactionId in s.txns
          && s.txns[e.transactionId].gateway == e.gateway && s.txns[e.transactionId].status == e.status)
    && (forall i, j :: 0 <= i < j < |s.log| ==> s.log[i].transactionId != s.log[j].transactionId)
  }

  /** The applied transactions of an order on a gateway that ended in a status. */
  function Applied(txns: Transactions.Table, applied: set<string>, o: string, g: string, status: Status): set<string> {
    set id | id in applied && id in txns && txns[id].orderId == o && txns[id].gateway == g && txns[id].status == status
  }

  ghost predicate CountersOk(s: Shared) {
    forall o, g ::
      && Blacklist.Lookup(s.summaries, o, g).failures == |Applied(s.txns, s.applied, o, g, Failure)|
      && Blacklist.Lookup(s.summaries, o, g).successes == |Applied(s.txns, s.applied, o, g, Success)|
  }

  ghost predicate SharedOk(s: Shared) {
    TableOk(s) && LogOk(s) && CountersOk(s)
  }

  // ---------------------------------------------------------------- what a callback thread knows

  predicate PastEnsure(pc: Pc) {
    match pc
    case Settling(_, _, outcome) => !outcome.EnsureGateway?
    case _ => false
  }

  /** Its event has been recorded. */
  predicate PastRecord(pc: Pc) {
    match pc
    case Settling(_, _, outcome) => !outcome.EnsureGateway? && !outcome.RecordEvent?
    case Blacklisting(_) => true
    case Finished(_) => true
    case _ => false
  }

  ghost predicate PcOk(s: Shared, t: nat, pc: Pc) {
    DoneOf(pc).Some? ==>
      var done := DoneOf(pc).value;
      && done.status.IsFinal()
      && done.id in s.completer && s.completer[done.id] == t
      && done.id in s.txns && s.txns[done.id] == done
      && (InLog(s.log, done.id) <==> PastRecord(pc))
      && (done.id in s.applied <==> pc.Finished?)
      && (PastEnsure(pc) ==> done.gateway in s.states)
  }

  /** Every completer is a thread that still carries the transaction it completed. */
  ghost predicate Carriers(w: Global) {
    forall id :: id in w.shared.completer && id in w.shared.txns ==>
      var t := w.shared.completer[id];
      t in w.threads && DoneOf(w.threads[t].pc) == Some(w.shared.txns[id])
  }

  ghost predicate Inv(w: Global) {
    && SharedOk(w.shared)
    && (forall t :: t in w.threads ==> PcOk(w.shared, t, w.threads[t].pc))
    && Carriers(w)
  }

  // ---------------------------------------------------------------- what a step of thread u may do to the others

  ghost predicate Guarantee(s: Shared, s': Shared, u: nat) {
    && (forall id :: id in s.completer ==> id in s'.completer && s'.completer[id] == s.completer[id])
    && (forall id :: id in s.completer && id in s.txns ==> id in s'.txns && s'.txns[id] == s.txns[id])
    && (forall id :: id in s'.completer && id !in s.completer ==> s'.completer[id] == u)
    && s.log <= s'.log
    && (forall id :: id in s.completer && InLog(s'.log, id) && !InLog(s.log, id) ==> s.completer[id] == u)
    && s.applied <= s'.applied
    && (forall id :: id in s.completer && id in s'.applied && id !in s.applied ==> s.completer[id] == u)
    && (forall g :: g in s.states ==> g in s'.states)
  }

  lemma OthersSurvive(s: Shared, s': Shared, t: nat, u: nat, pc: Pc)
    requires PcOk(s, t, pc) && Guarantee(s, s', u) && t != u
    ensures PcOk(s', t, pc)
  {
  }

  /** A step that touches neither the tables nor the log nor the counters. */
  ghost predicate Neutral(s: Shared, s': Shared) {
    && s'.txns == s.txns && s'.completer == s.completer && s'.log == s.log
    && s'.applied == s.applied && s'.summaries == s.summaries
    && (forall g :: g in s.states ==> g in s'.states)
  }

  /** The stage of a callback that a neutral step keeps. */
  ghost predicate SameStage(pc: Pc, pc': Pc) {
    && DoneOf(pc') == DoneOf(pc)
    && (DoneOf(pc).Some? ==> PastRecord(pc') == PastRecord(pc) && pc'.Finished? == pc.Finished?)
  }

  ghost predicate StepOk(s: Shared, t: nat, s': Shared, pc: Pc, pc': Pc) {
    && SharedOk(s') && Guarantee(s, s', t) && PcOk(s', t, pc')
    && (DoneOf(pc).Some? ==> DoneOf(pc') == DoneOf(pc))
    && (forall id :: id in s'.completer && id !in s.completer && id in s'.txns ==> DoneOf(pc') == Some(s'.txns[id]))
  }

  lemma NeutralKeeps(s: Shared, s': Shared, t: nat, pc: Pc, pc': Pc)
    requires SharedOk(s) && PcOk(s, t, pc) && Neutral(s, s') && SameStage(pc, pc')
    requires DoneOf(pc').Some? && PastEnsure(pc') ==> DoneOf(pc').value.gateway in s'.states
    ensures StepOk(s, t, s', pc, pc')
  {
  }

  /** Counters depend on the counted transactions and the summaries only. */
  lemma CountersFrame(s: Shared, s': Shared)
    requires CountersOk(s) && s'.txns == s.txns && s'.applied == s.applied && s'.summaries == s.summaries
    ensures CountersOk(s')
  {
  }

  // ---------------------------------------------------------------- the four steps that are not neutral

  lemma PendingIsNotApplied(s: Shared, id: string, tx: Transaction)
    requires SharedOk(s) && id !in s.completer
    ensures forall o, g, status :: Applied(s.txns[id := tx], s.applied, o, g, status) == Applied(s.txns, s.applied, o,
            g, status)
  {
  }

  lemma CountersSurvive(s: Shared, s': Shared, id: string, tx: Transaction)
    requires SharedOk(s) && id !in s.completer
    requires s'.txns == s.txns[id := tx] && s'.applied == s.applied && s'.summaries == s.summaries
    ensures CountersOk(s')
  {
    PendingIsNotApplied(s, id, tx);
    forall o, g
      ensures Blacklist.Lookup(s'.summaries, o, g).failures == |Applied(s'.txns, s'.applied, o, g, Failure)|
      ensures Blacklist.Lookup(s'.summaries, o, g).successes == |Applied(s'.txns, s'.applied, o, g, Success)|
    {
      assert Blacklist.Lookup(s.summaries, o, g).failures == |Applied(s.txns, s.applied, o, g, Failure)|;
    }
  }

  lemma SaveKeeps(s: Shared, t: nat, tx: Transaction, pc: Pc, pc': Pc)
    requires SharedOk(s) && tx.status == Pending && tx.id !in s.txns && DoneOf(pc).None? && DoneOf(pc').None?
    ensures StepOk(s, t, s.(txns := s.txns[tx.id := tx]), pc, pc')
  {
    CountersSurvive(s, s.(txns := s.txns[tx.id := tx]), tx.id, tx);
  }

  lemma LogSurvivesCompletion(s: Shared, s': Shared, id: string)
    requires TableOk(s) && LogOk(s) && id !in s.completer
    requires s'.log == s.log && s.completer.Keys <= s'.completer.Keys
    requires forall x :: x in s.txns && x != id ==> x in s'.txns && s'.txns[x] == s.txns[x]
    ensures LogOk(s') && !InLog(s.log, id)
  {
  }

  lemma CompletionFrame(s: Shared, s': Shared, t: nat, id: string, status: Status)
    requires TableOk(s) && id in s.txns && s.txns[id].status == Pending && status.IsFinal()
    requires s' == s.(txns := s.txns[id := Transactions.Finished(s.txns[id], status, s.clock)],
                      completer := s.completer[id := t])
    ensures TableOk(s') && Guarantee(s, s', t)
  {
    hide InLog;
  }

  lemma CompletionKeeps(s: Shared, s': Shared, t: nat, id: string, status: Status, pc: Pc)
    requires SharedOk(s) && DoneOf(pc).None? && id in s.txns && s.txns[id].status == Pending && status.IsFinal()
    requires s' == s.(txns := s.txns[id := Transactions.Finished(s.txns[id], status, s.clock)],
                      completer := s.completer[id := t])
    ensures StepOk(s, t, s', pc, Completed(s'.txns[id]))
  {
    CompletionFrame(s, s', t, id, status);
    CountersSurvive(s, s', id, s'.txns[id]);
    LogSurvivesCompletion(s, s', id);
    assert id !in s.applied;
    hide CountersOk, LogOk, InLog, Guarantee, TableOk;
  }

  lemma CompleteKeeps(s: Shared, t: nat, input: CallbackInput)
    requires SharedOk(s)
    ensures var (s', pc') := CompleteStep(s, t, input);
            StepOk(s, t, s', Completing(input), pc')
  {
    hide CountersOk, SharedOk;
    var id := input.transactionId;
    var (s', pc') := CompleteStep(s, t, input);
    if s' == s {
      NeutralKeeps(s, s', t, Completing(input), pc');
    } else {
      CompletionKeeps(s, s', t, id, input.status, Completing(input));
    }
  }

  lemma LogGrows(s: Shared, s': Shared, event: Event)
    requires TableOk(s) && LogOk(s) && !InLog(s.log, event.transactionId) && event.transactionId in s.completer
    requires s.txns[event.transactionId].gateway == event.gateway && s.txns[event.transactionId].status == event.status
    requires s'.log == s.log + [event] && s'.txns == s.txns && s'.completer == s.completer
    ensures LogOk(s')
    ensures forall id :: InLog(s'.log, id) <==> InLog(s.log, id) || id == event.transactionId
  {
  }

  lemma RecordKeeps(e: Env, s: Shared, t: nat, r: nat, done: Transaction, now: Time)
    requires SharedOk(s) && PcOk(s, t, Settling(done, now, RecordEvent))
    ensures var (s', pc') := OutcomeStep(e, s, t, r, done, now, RecordEvent);
            StepOk(s, t, s', Settling(done, now, RecordEvent), pc')
  {
    hide CountersOk, LogOk, EventsAfter, InLog;
    var (s', pc') := OutcomeStep(e, s, t, r, done, now, RecordEvent);
    LogGrows(s, s', Event(done.gateway, done.id, done.status, now));
    CountersFrame(s, s');
  }

  lemma AppliedGrows(txns: Transactions.Table, applied: set<string>, id: string, o: string, g: string, status: Status)
    requires id in txns && id !in applied
    ensures |Applied(txns, applied + {id}, o, g, status)|
         == |Applied(txns, applied, o, g, status)|
            + if txns[id].orderId == o && txns[id].gateway == g && txns[id].status == status then 1 else 0
  {
    if txns[id].orderId == o && txns[id].gateway == g && txns[id].status == status {
      assert Applied(txns, applied + {id}, o, g, status) == Applied(txns, applied, o, g, status) + {id};
    } else {
      assert Applied(txns, applied + {id}, o, g, status) == Applied(txns, applied, o, g, status);
    }
  }

  lemma CountersGrow(s: Shared, s': Shared, done: Transaction, threshold: int, now: Time)
    requires CountersOk(s) && done.status.IsFinal() && done.id in s.txns && s.txns[done.id] == done
             && done.id !in s.applied
    requires s'.summaries == Blacklist.RecordOutcome(s.summaries, done.orderId, done.gateway, done.status, threshold,
                                                     now).0
    requires s'.txns == s.txns && s'.applied == s.applied + {done.id}
    ensures CountersOk(s')
  {
    hide Applied;
    forall o, g
      ensures Blacklist.Lookup(s'.summaries, o, g).failures == |Applied(s'.txns, s'.applied, o, g, Failure)|
      ensures Blacklist.Lookup(s'.summaries, o, g).successes == |Applied(s'.txns, s'.applied, o, g, Success)|
    {
      Blacklist.LookupAfterRecord(s.summaries, done.orderId, done.gateway, done.status, threshold, now, o, g);
      AppliedGrows(s.txns, s.applied, done.id, o, g, Failure);
      AppliedGrows(s.txns, s.applied, done.id, o, g, Success);
      assert Blacklist.Lookup(s.summaries, o, g).failures == |Applied(s.txns, s.applied, o, g, Failure)|;
    }
  }

  lemma BlacklistKeeps(e: Env, s: Shared, t: nat, done: Transaction)
    requires SharedOk(s) && PcOk(s, t, Blacklisting(done))
    ensures StepOk(s, t, BlacklistStep(e, s, done), Blacklisting(done), Finished(done))
  {
    hide CountersOk, Blacklist.RecordOutcome, InLog;
    CountersGrow(s, BlacklistStep(e, s, done), done, e.Routing().orderGatewayFailureThreshold, s.clock);
  }

  // ---------------------------------------------------------------- steps

  lemma StoreIsNeutral(s: Shared, state: RuntimeState, token: Probe, t: nat, held: bool)
    ensures Neutral(s, StoreReleased(s, state, token.transactionId, t, held))
            && Neutral(s, StoreAcquired(s, state, token, held))
  {
  }

  lemma SameIsNeutral(s: Shared)
    ensures Neutral(s, s)
  {
  }

  lemma SaveIsNeutral(s: Shared, state: RuntimeState)
    ensures Neutral(s, Store(s, state))
  {
  }

  lemma EnsureIsNeutral(s: Shared, g: string, now: Time)
    ensures Neutral(s, Ensure(s, g, now)) && g in Ensure(s, g, now).states
  {
  }

  lemma SetCacheIsNeutral(e: Env, s: Shared, r: nat, state: RuntimeState, now: Time)
    ensures Neutral(s, SetCache(e, s, r, state, now)) && SetCache(e, s, r, state, now).states == s.states
  {
  }

  lemma RuleIsNeutral(e: Env, s: Shared, t: nat, done: Transaction, now: Time)
    requires done.gateway in s.states
    ensures var (s', pc') := ReleaseAndRule(e, s, t, done, now);
            Neutral(s, s') && DoneOf(pc') == Some(done) && PastRecord(pc') && !pc'.Finished?
  {
    hide Release, Breaker.Verdict, ExpiryOf, Neutral, StoreReleased;
    var (state, held) := Release(s.states[done.gateway], done.id, now);
    StoreIsNeutral(s, state, Probe(done.id, 0), t, held);
  }

  lemma RulingIsNeutral(s: Shared, state: RuntimeState, ruling: Ruling)
    ensures Neutral(s, Store(s, state).(rulings := s.rulings + [ruling]))
  {
  }

  lemma DecideIsNeutral(
      e: Env, s: Shared, t: nat, r: nat, done: Transaction, now: Time, state: RuntimeState, stats: Stats)
    requires done.gateway in s.states
    ensures var (s', pc') := OutcomeStep(e, s, t, r, done, now, DecideOutcome(state, stats));
            Neutral(s, s') && done.gateway in s'.states && DoneOf(pc') == Some(done) && PastRecord(pc')
              && !pc'.Finished?
  {
    hide ReleaseAndRule, Evaluate;
    if state.phase == HalfOpen {
      RuleIsNeutral(e, s, t, done, now);
    } else {
      SaveIsNeutral(s, Evaluate(state, stats, e.Routing(), now));
    }
  }

  /** Once its event is recorded, a callback only works on its gateway's state. */
  lemma LateOutcomeIsNeutral(e: Env, s: Shared, t: nat, r: nat, done: Transaction, now: Time, outcome: OutcomePc)
    requires PastRecord(Settling(done, now, outcome)) && done.gateway in s.states
    ensures var (s', pc') := OutcomeStep(e, s, t, r, done, now, outcome);
            Neutral(s, s') && done.gateway in s'.states && DoneOf(pc') == Some(done) && PastRecord(pc')
              && !pc'.Finished?
  {
    hide Neutral, ReleaseAndRule, Evaluate, WindowStats, SetCache;
    SameIsNeutral(s);
    match outcome
    case DecideOutcome(state, stats) => DecideIsNeutral(e, s, t, r, done, now, state, stats);
    case SaveVerdict(state, ruling) => RulingIsNeutral(s, state, ruling);
    case CacheOutcome(state) => SetCacheIsNeutral(e, s, r, state, now);
    case _ =>
  }

  lemma OutcomeIsNeutral(e: Env, s: Shared, t: nat, r: nat, done: Transaction, now: Time, outcome: OutcomePc)
    requires !outcome.RecordEvent? && PcOk(s, t, Settling(done, now, outcome))
    ensures var (s', pc') := OutcomeStep(e, s, t, r, done, now, outcome);
            Neutral(s, s') && SameStage(Settling(done, now, outcome), pc')
              && (PastEnsure(pc') ==> done.gateway in s'.states)
  {
    hide Neutral, InLog, Ensure;
    if outcome.EnsureGateway? {
      EnsureIsNeutral(s, done.gateway, now);
    } else {
      LateOutcomeIsNeutral(e, s, t, r, done, now, outcome);
      hide OutcomeStep;
    }
  }

  lemma PrepareIsNeutral(e: Env, s: Shared, r: nat, l: Loop, now: Time, prepare: PreparePc)
    requires l.i < |e.Gateways()|
    ensures var (s', pc') := PrepareStep(e, s, r, l, now, prepare);
            Neutral(s, s') && DoneOf(pc').None?
  {
  }

  lemma ProbeIsNeutral(
      e: Env, s: Shared, r: nat, req: Request, c: GatewayConfig, healthy: seq<GatewayConfig>, probe: ProbePc)
    ensures var (s', pc') := ProbeStep(e, s, r, req, c, healthy, probe);
            Neutral(s, s') && DoneOf(pc').None?
  {
    hide Acquire, StoreAcquired;
    if probe.AcquireToken? && c.name in s.states {
      var expiresAt := probe.at + e.Routing().ProbeTimeout();
      var (state, acquired) := Acquire(s.states[c.name], req.tx, e.Routing().halfOpenProbeCount, expiresAt, probe.at);
      StoreIsNeutral(s, state, Probe(req.tx, UnixMilli(expiresAt)), 0, acquired);
    }
  }

  lemma CompensateIsNeutral(e: Env, s: Shared, t: nat, r: nat, req: Request, c: GatewayConfig, compensate: CompensatePc)
    ensures var (s', pc') := CompensateStep(e, s, t, r, req, c, compensate);
            Neutral(s, s') && DoneOf(pc').None?
  {
    hide Release, StoreReleased;
    if compensate.ReleaseToken? && c.name in s.states {
      var (state, held) := Release(s.states[c.name], req.tx, compensate.at);
      StoreIsNeutral(s, state, Probe(req.tx, 0), t, held);
    }
  }

  lemma InspectIsNeutral(e: Env, s: Shared, r: nat, g: string, inspect: InspectPc)
    ensures var (s', pc') := InspectStep(e, s, r, g, inspect);
            Neutral(s, s') && DoneOf(pc').None?
  {
  }

  lemma RoutingIsNeutral(e: Env, s: Shared, t: nat, r: nat, pc: Pc, choice: Choice)
    requires pc.Begin? || pc.Snapshotting? || pc.Looping? || pc.Choosing? || pc.ChoosingHealthy? || pc.Receiving?
             || pc.Stopped?
    ensures var (s', pc') := ThreadStep(e, s, t, r, pc, choice);
            Neutral(s, s') && DoneOf(pc').None?
  {
    hide FilterExcluded, Select, Blacklist.Flagged;
  }

  lemma OthersAreNeutral(e: Env, s: Shared, t: nat, r: nat, pc: Pc, choice: Choice)
    requires DoneOf(pc).None? && !pc.Submitting? && !pc.Completing?
    ensures var (s', pc') := ThreadStep(e, s, t, r, pc, choice);
            Neutral(s, s') && DoneOf(pc').None?
  {
    hide Neutral, PrepareStep, ProbeStep, CompensateStep, InspectStep;
    match pc
    case Preparing(l, now, prepare) =>
      if l.i < |e.Gateways()| {
        PrepareIsNeutral(e, s, r, l, now, prepare);
      } else {
        SameIsNeutral(s);
      }
    case Probing(req, c, healthy, probe) => ProbeIsNeutral(e, s, r, req, c, healthy, probe);
    case Compensating(req, c, compensate) => CompensateIsNeutral(e, s, t, r, req, c, compensate);
    case Inspecting(g, inspect) => InspectIsNeutral(e, s, r, g, inspect);
    case _ => RoutingIsNeutral(e, s, t, r, pc, choice);
  }

  lemma SubmitKeeps(s: Shared, t: nat, req: Request, c: GatewayConfig, asProbe: bool, submit: SubmitPc, choice: Choice)
    requires SharedOk(s)
    ensures var (s', pc') := SubmitStep(s, req, c, asProbe, submit, choice);
            StepOk(s, t, s', Submitting(req, c, asProbe, submit), pc')
  {
    hide SharedOk, StepOk;
    var pc := Submitting(req, c, asProbe, submit);
    var (s', pc') := SubmitStep(s, req, c, asProbe, submit, choice);
    if s'.txns == s.txns {
      NeutralKeeps(s, s', t, pc, pc');
    } else {
      var tx := Transaction(req.tx, req.orderId, submit.attempt, c.name, Pending, submit.createdAt, submit.createdAt,
                            None);
      SaveKeeps(s, t, tx, pc, pc');
    }
  }

  lemma ThreadKeeps(e: Env, s: Shared, t: nat, r: nat, pc: Pc, choice: Choice)
    requires SharedOk(s) && PcOk(s, t, pc)
    ensures var (s', pc') := ThreadStep(e, s, t, r, pc, choice);
            StepOk(s, t, s', pc, pc')
  {
    hide SharedOk, StepOk, Neutral, SubmitStep, CompleteStep, OutcomeStep, BlacklistStep;
    var (s', pc') := ThreadStep(e, s, t, r, pc, choice);
    match pc
    case Submitting(req, c, asProbe, submit) => SubmitKeeps(s, t, req, c, asProbe, submit, choice);
    case Completing(input) => CompleteKeeps(s, t, input);
    case Settling(done, now, outcome) =>
      if outcome.RecordEvent? {
        RecordKeeps(e, s, t, r, done, now);
      } else {
        OutcomeIsNeutral(e, s, t, r, done, now, outcome);
        NeutralKeeps(s, s', t, pc, pc');
      }
    case Blacklisting(done) => BlacklistKeeps(e, s, t, done);
    case Completed(done) => NothingKeeps(s, t, pc, pc');
    case Finished(done) => NothingKeeps(s, t, pc, pc');
    case _ =>
      OthersAreNeutral(e, s, t, r, pc, choice);
      NeutralKeeps(s, s', t, pc, pc');
  }

  lemma NothingKeeps(s: Shared, t: nat, pc: Pc, pc': Pc)
    requires SharedOk(s) && PcOk(s, t, pc) && SameStage(pc, pc') && !PastEnsure(pc')
    ensures StepOk(s, t, s, pc, pc')
  {
  }

  lemma ObservedKeeps(s: Shared, t: nat, pc: Pc)
    requires PcOk(s, t, pc)
    ensures PcOk(Observed(s), t, pc)
  {
  }

  lemma ObservedShared(s: Shared)
    requires SharedOk(s)
    ensures SharedOk(Observed(s))
  {
  }

  lemma CarriersStay(e: Env, w: Global, t: nat, choice: Choice)
    requires Inv(w) && t in w.threads
    requires var (s', pc') := ThreadStep(e, w.shared, t, w.threads[t].replica, w.threads[t].pc, choice);
             StepOk(w.shared, t, s', w.threads[t].pc, pc')
    ensures Carriers(Apply(e, w, Advance(t, choice)))
  {
    hide ThreadStep, SharedOk;
    var (s', pc') := ThreadStep(e, w.shared, t, w.threads[t].replica, w.threads[t].pc, choice);
    var w' := Apply(e, w, Advance(t, choice));
    forall id | id in s'.completer && id in s'.txns
      ensures var u := s'.completer[id]; u in w'.threads && DoneOf(w'.threads[u].pc) == Some(s'.txns[id])
    {
      if id in w.shared.completer {
        InTable(w.shared, id);
        assert DoneOf(w.threads[w.shared.completer[id]].pc) == Some(w.shared.txns[id]);
      }
    }
  }

  lemma InTable(s: Shared, id: string)
    requires SharedOk(s) && id in s.completer
    ensures id in s.txns
  {
  }

  lemma AdvanceKeeps(e: Env, w: Global, t: nat, choice: Choice)
    requires Inv(w) && t in w.threads
    ensures Inv(Apply(e, w, Advance(t, choice)))
  {
    hide ThreadStep, SharedOk, PcOk, Guarantee, Carriers, Observed;
    var (s', pc') := ThreadStep(e, w.shared, t, w.threads[t].replica, w.threads[t].pc, choice);
    ThreadKeeps(e, w.shared, t, w.threads[t].replica, w.threads[t].pc, choice);
    CarriersStay(e, w, t, choice);
    ObservedShared(s');
    var w' := Apply(e, w, Advance(t, choice));
    forall u | u in w'.threads
      ensures PcOk(w'.shared, u, w'.threads[u].pc)
    {
      if u != t {
        OthersSurvive(w.shared, s', u, t, w.threads[u].pc);
        ObservedKeeps(s', u, w.threads[u].pc);
      } else {
        ObservedKeeps(s', t, pc');
      }
    }
  }

  lemma ApplyKeeps(e: Env, w: Global, a: Action)
    requires Inv(w)
    ensures Inv(Apply(e, w, a))
  {
    hide SharedOk, Observed;
    match a
    case Arrive(t, r, call) =>
    case Tick(to) =>
      if to >= w.shared.clock {
        TickKeeps(e, w, to);
      }
    case Advance(t, choice) =>
      if t in w.threads {
        AdvanceKeeps(e, w, t, choice);
      }
  }

  lemma TickKeeps(e: Env, w: Global, to: Time)
    requires Inv(w) && to >= w.shared.clock
    ensures Inv(Apply(e, w, Tick(to)))
  {
    var s' := w.shared.(clock := to);
    NeutralKeeps(w.shared, s', 0, Stopped, Stopped);
    ObservedShared(s');
  }

  lemma {:induction false} AlwaysInv(e: Env, actions: seq<Action>)
    ensures Inv(After(e, actions))
  {
    if actions != [] {
      AlwaysInv(e, actions[..|actions| - 1]);
      ApplyKeeps(e, After(e, actions[..|actions| - 1]), actions[|actions| - 1]);
    }
  }

  // ---------------------------------------------------------------- counting

  function Entries(log: seq<Event>, g: string, status: Status): nat {
    if log == [] then 0
    else
      var last := log[|log| - 1];
      Entries(log[..|log| - 1], g, status) + if last.gateway == g && last.status == status then 1 else 0
  }

  function LoggedIds(log: seq<Event>, g: string, status: Status): set<string> {
    set e | e in log && e.gateway == g && e.status == status :: e.transactionId
  }

  /** With distinct ids, counting entries is counting ids. */
  lemma {:induction false} EntriesAreIds(log: seq<Event>, g: string, status: Status)
    requires forall i, j :: 0 <= i < j < |log| ==> log[i].transactionId != log[j].transactionId
    ensures Entries(log, g, status) == |LoggedIds(log, g, status)|
  {
    if log == [] {
      assert LoggedIds(log, g, status) == {};
    } else {
      var rest, last := log[..|log| - 1], log[|log| - 1];
      EntriesAreIds(rest, g, status);
      assert forall e :: e in log <==> e in rest || e == last;
      assert last.transactionId !in LoggedIds(rest, g, status);
      if last.gateway == g && last.status == status {
        assert LoggedIds(log, g, status) == LoggedIds(rest, g, status) + {last.transactionId};
      } else {
        assert LoggedIds(log, g, status) == LoggedIds(rest, g, status);
      }
    }
  }

  /** Two finite sets that a relation pairs off one to one are equally large. */
  lemma {:induction false} PairedOff(ts: set<nat>, ids: set<string>, of: map<string, nat>)
    requires forall id :: id in ids ==> id in of && of[id] in ts
    requires forall t :: t in ts ==> exists id :: id in ids && of[id] == t
    requires forall x, y :: x in ids && y in ids && of[x] == of[y] ==> x == y
    ensures |ts| == |ids|
  {
    if ids == {} {
      assert ts == {};
    } else {
      var id :| id in ids;
      var ids', ts' := ids - {id}, ts - {of[id]};
      forall t | t in ts'
        ensures exists x :: x in ids' && of[x] == t
      {
        var x :| x in ids && of[x] == t;
        assert x in ids';
      }
      PairedOff(ts', ids', of);
    }
  }

  function FinishedOn(txns: Transactions.Table, g: string, status: Status): set<string> {
    set id | id in txns && txns[id].gateway == g && txns[id].status == status
  }

  /** Threads that have completed a transaction but not yet recorded its event. */
  function ParkedBeforeRecord(threads: map<nat, Thread>, g: string, status: Status): set<nat> {
    set t | t in threads && DoneOf(threads[t].pc).Some? && !PastRecord(threads[t].pc)
        && DoneOf(threads[t].pc).value.gateway == g && DoneOf(threads[t].pc).value.status == status
  }

  /** Threads that have completed a transaction but not yet applied it to the blacklist. */
  function ParkedBeforeBlacklist(threads: map<nat, Thread>, o: string, g: string, status: Status): set<nat> {
    set t | t in threads && DoneOf(threads[t].pc).Some? && !threads[t].pc.Finished?
        && DoneOf(threads[t].pc).value.orderId == o && DoneOf(threads[t].pc).value.gateway == g
        && DoneOf(threads[t].pc).value.status == status
  }

  /** A set of finished ids and the set of threads that carry them are equally large. */
  lemma CarriedIds(w: Global, ids: set<string>, ts: set<nat>)
    requires Inv(w)
    requires forall id :: id in ids ==> id in w.shared.completer && id in w.shared.txns
    requires forall t :: t in ts <==>
               t in w.threads && DoneOf(w.threads[t].pc).Some? && DoneOf(w.threads[t].pc).value.id in ids
    ensures |ts| == |ids|
  {
    var of := w.shared.completer;
    forall id | id in ids
      ensures of[id] in ts && DoneOf(w.threads[of[id]].pc).value.id == id
    {
      assert w.shared.txns[id].id == id;
    }
    forall t | t in ts
      ensures exists id :: id in ids && of[id] == t
    {
      assert PcOk(w.shared, t, w.threads[t].pc);
      assert of[DoneOf(w.threads[t].pc).value.id] == t;
    }
    PairedOff(ts, ids, of);
  }

  /** After any interleaving, for every gateway and final status: finished transactions are
      the logged events plus the callbacks parked between completion and recording; and no
      transaction is logged twice. */
  lemma EventsAreConserved(e: Env, actions: seq<Action>, g: string, status: Status)
    requires status.IsFinal()
    ensures var w := After(e, actions);
            && |FinishedOn(w.shared.txns, g, status)| == Entries(w.shared.log, g, status)
                 + |ParkedBeforeRecord(w.threads, g, status)|
            && (forall i, j :: 0 <= i < j < |w.shared.log| ==>
                  w.shared.log[i].transactionId != w.shared.log[j].transactionId)
  {
    AlwaysInv(e, actions);
    EventsBalance(After(e, actions), g, status);
  }

  lemma DistinctLog(s: Shared)
    requires SharedOk(s)
    ensures forall i, j :: 0 <= i < j < |s.log| ==> s.log[i].transactionId != s.log[j].transactionId
  {
  }

  lemma Subtract(a: set<string>, b: set<string>)
    requires b <= a
    ensures |a| == |a - b| + |b|
  {
  }

  lemma EventsBalance(w: Global, g: string, status: Status)
    requires Inv(w) && status.IsFinal()
    ensures |FinishedOn(w.shared.txns, g, status)| == Entries(w.shared.log, g, status)
            + |ParkedBeforeRecord(w.threads, g, status)|
  {
    hide FinishedOn, LoggedIds, Entries, ParkedBeforeRecord, SharedOk, InLog, Carriers;
    var s := w.shared;
    var finished, logged := FinishedOn(s.txns, g, status), LoggedIds(s.log, g, status);
    DistinctLog(s);
    EntriesAreIds(s.log, g, status);
    LoggedAreFinished(s, g, status);
    ParkedAreUnlogged(w, g, status);
    CarriedIds(w, finished - logged, ParkedBeforeRecord(w.threads, g, status));
    Subtract(finished, logged);
  }

  lemma LoggedAreFinished(s: Shared, g: string, status: Status)
    requires SharedOk(s) && status.IsFinal()
    ensures LoggedIds(s.log, g, status) <= FinishedOn(s.txns, g, status)
    ensures forall id :: id in FinishedOn(s.txns, g, status) ==>
              id in s.completer && id in s.txns && (id in LoggedIds(s.log, g, status) <==> InLog(s.log, id))
  {
  }

  lemma ParkedAreUnlogged(w: Global, g: string, status: Status)
    requires Inv(w) && status.IsFinal()
    ensures var unlogged := FinishedOn(w.shared.txns, g, status) - LoggedIds(w.shared.log, g, status);
            forall t :: t in ParkedBeforeRecord(w.threads, g, status) <==>
              t in w.threads && DoneOf(w.threads[t].pc).Some? && DoneOf(w.threads[t].pc).value.id in unlogged
  {
  }

  /** And for every order and gateway: its finished transactions are what the blacklist has
      counted plus the callbacks parked between completion and the blacklist. */
  lemma CountersAreConserved(e: Env, actions: seq<Action>, o: string, g: string, status: Status)
    requires status.IsFinal()
    ensures var w := After(e, actions);
            var summary := Blacklist.Lookup(w.shared.summaries, o, g);
            var finished := set id | id in FinishedOn(w.shared.txns, g, status) && w.shared.txns[id].orderId == o;
            |finished| == (if status == Success then summary.successes else summary.failures)
                          + |ParkedBeforeBlacklist(w.threads, o, g, status)|
  {
    AlwaysInv(e, actions);
    CountersBalance(After(e, actions), o, g, status);
  }

  lemma CountersBalance(w: Global, o: string, g: string, status: Status)
    requires Inv(w) && status.IsFinal()
    ensures var summary := Blacklist.Lookup(w.shared.summaries, o, g);
            var finished := set id | id in FinishedOn(w.shared.txns, g, status) && w.shared.txns[id].orderId == o;
            |finished| == (if status == Success then summary.successes else summary.failures)
                          + |ParkedBeforeBlacklist(w.threads, o, g, status)|
  {
    hide SharedOk;
    var s := w.shared;
    var finished := set id | id in FinishedOn(s.txns, g, status) && s.txns[id].orderId == o;
    var applied := Applied(s.txns, s.applied, o, g, status);
    ParkedAreUnapplied(w, o, g, status);
    CarriedIds(w, finished - applied, ParkedBeforeBlacklist(w.threads, o, g, status));
    CountedIds(s, o, g, status);
    Subtract(finished, applied);
  }

  lemma CountedIds(s: Shared, o: string, g: string, status: Status)
    requires SharedOk(s) && status.IsFinal()
    ensures var summary := Blacklist.Lookup(s.summaries, o, g);
            |Applied(s.txns, s.applied, o, g, status)| == if status == Success then summary.successes
              else summary.failures
    ensures forall id :: id in FinishedOn(s.txns, g, status) ==> id in s.completer
  {
  }

  lemma ParkedAreUnapplied(w: Global, o: string, g: string, status: Status)
    requires Inv(w) && status.IsFinal()
    ensures var unapplied := (set id | id in FinishedOn(w.shared.txns, g, status) && w.shared.txns[id].orderId == o)
                             - Applied(w.shared.txns, w.shared.applied, o, g, status);
            && (forall t :: t in ParkedBeforeBlacklist(w.threads, o, g, status) <==>
                  t in w.threads && DoneOf(w.threads[t].pc).Some? && DoneOf(w.threads[t].pc).value.id in unapplied)
            && (forall id :: id in unapplied ==> id in w.shared.completer)
  {
  }
}
