/** The blacklist under interleavings: which gateways a request excludes is settled by the
    outcomes counted when it began, and it is never sent to one of them. */
module InterleavingExclusion {
  import opened Domain
  import opened Breaker
  import opened Reference
  import opened Selector
  import opened Interleaving
  import Blacklist
  import Ledger = InterleavingLedger
  import RI = ReferenceInvariant

  function Threshold(e: Env): int {
    e.Routing().orderGatewayFailureThreshold
  }

  // ---------------------------------------------------------------- the flags follow the counters

  ghost predicate Tallied(e: Env, summaries: Blacklist.Summaries) {
    forall o, g ::
      var s := Blacklist.Lookup(summaries, o, g);
      s.blacklisted <==> s.successes == 0 && s.failures >= Threshold(e)
  }

  /** Only the blacklist step of a callback changes the summaries. */
  lemma SummariesStay(e: Env, s: Shared, t: nat, r: nat, pc: Pc, choice: Choice)
    requires !pc.Blacklisting?
    ensures ThreadStep(e, s, t, r, pc, choice).0.summaries == s.summaries
  {
    hide BeginStep, SnapshotStep, LoopStep, PrepareStep, ChooseStep, ChooseHealthyStep, ProbeStep, SubmitStep,
         CompensateStep, ReceiveStep, CompleteStep, OutcomeStep, BlacklistStep, InspectStep;
  }

  /** What one action does to the counters and flags. */
  ghost predicate Grows(a: Blacklist.Summaries, b: Blacklist.Summaries) {
    forall o, g ::
      var s, s' := Blacklist.Lookup(a, o, g), Blacklist.Lookup(b, o, g);
      s.successes <= s'.successes && s.failures <= s'.failures
  }

  lemma SameGrows(a: Blacklist.Summaries)
    ensures Grows(a, a)
  {
  }

  lemma BlacklistStepTallies(e: Env, s: Shared, done: Transaction)
    requires Tallied(e, s.summaries) && done.status.IsFinal()
    ensures Tallied(e, BlacklistStep(e, s, done).summaries) && Grows(s.summaries, BlacklistStep(e, s, done).summaries)
  {
    hide Blacklist.RecordOutcome, Blacklist.Lookup;
    var threshold := e.Routing().orderGatewayFailureThreshold;
    var after := BlacklistStep(e, s, done).summaries;
    forall o, g
      ensures var x, y := Blacklist.Lookup(s.summaries, o, g), Blacklist.Lookup(after, o, g);
              && x.successes <= y.successes && x.failures <= y.failures
              && (y.blacklisted <==> y.successes == 0 && y.failures >= Threshold(e))
    {
      Blacklist.LookupAfterRecord(s.summaries, done.orderId, done.gateway, done.status, threshold, s.clock, o, g);
      assert var x := Blacklist.Lookup(s.summaries, o, g); x.blacklisted <==>
               x.successes == 0 && x.failures >= Threshold(e);
    }
  }

  lemma StepTallies(e: Env, s: Shared, t: nat, r: nat, pc: Pc, choice: Choice)
    requires Tallied(e, s.summaries) && Ledger.PcOk(s, t, pc)
    ensures var after := ThreadStep(e, s, t, r, pc, choice).0.summaries;
            Tallied(e, after) && Grows(s.summaries, after)
  {
    hide ThreadStep, Tallied, Ledger.InLog, BlacklistStep;
    if pc.Blacklisting? {
      BlacklistStepTallies(e, s, pc.done);
      BlacklistingStep(e, s, t, r, pc, choice);
    } else {
      SummariesStay(e, s, t, r, pc, choice);
    }
  }

  lemma ActionTallies(e: Env, w: Global, a: Action)
    requires Tallied(e, w.shared.summaries) && Ledger.Inv(w)
    ensures Tallied(e, Apply(e, w, a).shared.summaries) && Grows(w.shared.summaries, Apply(e, w, a).shared.summaries)
  {
    hide ThreadStep, Tallied, Grows, Observed, Ledger.Inv;
    if a.Advance? && a.thread in w.threads {
      var t, pc := a.thread, w.threads[a.thread].pc;
      assert Ledger.PcOk(w.shared, t, pc) by { CarriesOn(w, t); }
      StepTallies(e, w.shared, t, w.threads[t].replica, pc, a.choice);
      SameSummaries(ThreadStep(e, w.shared, t, w.threads[t].replica, pc, a.choice).0);
    } else {
      StillAction(e, w, a);
      SameGrows(w.shared.summaries);
    }
  }

  lemma CarriesOn(w: Global, t: nat)
    requires Ledger.Inv(w) && t in w.threads
    ensures Ledger.PcOk(w.shared, t, w.threads[t].pc)
  {
  }

  lemma SameSummaries(s: Shared)
    ensures Observed(s).summaries == s.summaries
  {
  }

  lemma StillAction(e: Env, w: Global, a: Action)
    requires !(a.Advance? && a.thread in w.threads)
    ensures Apply(e, w, a).shared.summaries == w.shared.summaries
  {
  }

  lemma BlacklistingStep(e: Env, s: Shared, t: nat, r: nat, pc: Pc, choice: Choice)
    requires pc.Blacklisting?
    ensures ThreadStep(e, s, t, r, pc, choice).0 == BlacklistStep(e, s, pc.done)
  {
  }

  lemma {:induction false} AlwaysTallied(e: Env, actions: seq<Action>)
    ensures Tallied(e, After(e, actions).shared.summaries)
  {
    hide Apply;
    if actions != [] {
      var rest := actions[..|actions| - 1];
      AlwaysTallied(e, rest);
      Ledger.AlwaysInv(e, rest);
      ActionTallies(e, After(e, rest), actions[|actions| - 1]);
    }
  }

  lemma {:induction false} CountersGrow(e: Env, actions: seq<Action>, k: nat)
    requires k <= |actions|
    ensures Grows(After(e, actions[..k]).shared.summaries, After(e, actions).shared.summaries)
    ensures After(e, actions[..k]).threads.Keys <= After(e, actions).threads.Keys
  {
    hide Apply;
    if k == |actions| {
      assert actions[..k] == actions;
    } else {
      var rest := actions[..|actions| - 1];
      assert rest[..k] == actions[..k];
      CountersGrow(e, rest, k);
      AlwaysTallied(e, rest);
      Ledger.AlwaysInv(e, rest);
      ActionTallies(e, After(e, rest), actions[|actions| - 1]);
      ThreadsStay(e, After(e, rest), actions[|actions| - 1]);
    }
  }

  lemma ThreadsStay(e: Env, w: Global, a: Action)
    ensures w.threads.Keys <= Apply(e, w, a).threads.Keys
  {
    hide ThreadStep;
  }

  // ---------------------------------------------------------------- what is barred

  function FinishedFor(w: Global, o: string, g: string, status: Status): set<string> {
    set id | id in Ledger.FinishedOn(w.shared.txns, g, status) && w.shared.txns[id].orderId == o
  }

  /** The finished transactions of the order on the gateway, less those whose callbacks are
      parked before the blacklist. */
  function Counted(w: Global, o: string, g: string, status: Status): int {
    |FinishedFor(w, o, g, status)| - |Ledger.ParkedBeforeBlacklist(w.threads, o, g, status)|
  }

  predicate Barred(e: Env, w: Global, o: string, g: string) {
    o != "" && Counted(w, o, g, Success) == 0 && Counted(w, o, g, Failure) >= Threshold(e)
  }

  lemma CountedIsLooked(e: Env, actions: seq<Action>, o: string, g: string)
    ensures var w := After(e, actions);
            var s := Blacklist.Lookup(w.shared.summaries, o, g);
            Counted(w, o, g, Success) == s.successes && Counted(w, o, g, Failure) == s.failures
  {
    hide After;
    Ledger.CountersAreConserved(e, actions, o, g, Success);
    Ledger.CountersAreConserved(e, actions, o, g, Failure);
  }

  /** After any interleaving, a request that begins now excludes a gateway if and only if its
      order has at least the threshold of failures on it and no success, among the
      transactions finished and not parked. */
  lemma ExcludedExactlyWhenBarred(e: Env, actions: seq<Action>, o: string, g: string)
    ensures g in ExcludedNow(After(e, actions).shared, o) <==> Barred(e, After(e, actions), o, g)
  {
    hide After, Counted;
    AlwaysTallied(e, actions);
    CountedIsLooked(e, actions, o, g);
    var summaries := After(e, actions).shared.summaries;
    var s := Blacklist.Lookup(summaries, o, g);
    assert g in Blacklist.Flagged(summaries, o) <==> s.blacklisted;
    assert s.blacklisted <==> s.successes == 0 && s.failures >= Threshold(e);
  }

  // ---------------------------------------------------------------- what a request knows

  function RequestOf(pc: Pc): Option<Request> {
    match pc
    case Snapshotting(req, _) => Some(req)
    case Looping(l) => Some(l.req)
    case Preparing(l, _, _) => Some(l.req)
    case Choosing(req, _) => Some(req)
    case Probing(req, _, _, _) => Some(req)
    case ChoosingHealthy(req, _) => Some(req)
    case Submitting(req, _, _, _) => Some(req)
    case Compensating(req, _, _) => Some(req)
    case _ => None
  }

  /** The gateway a request has been sent to, or is about to probe. */
  function ChosenBy(pc: Pc): Option<GatewayConfig> {
    match pc
    case Probing(_, c, _, _) => Some(c)
    case Submitting(_, c, _, _) => Some(c)
    case Compensating(_, c, _) => Some(c)
    case _ => None
  }

  /** The candidates a request may still choose from. */
  function Remaining(pc: Pc): seq<GatewayConfig> {
    match pc
    case Probing(_, _, healthy, _) => healthy
    case ChoosingHealthy(_, healthy) => healthy
    case _ => []
  }

  ghost predicate Outside(cs: seq<GatewayConfig>, excluded: set<string>) {
    forall c :: c in cs ==> c.name !in excluded
  }

  ghost predicate Avoids(pc: Pc) {
    RequestOf(pc).Some? ==>
      && Outside(Remaining(pc), RequestOf(pc).value.excluded)
      && (ChosenBy(pc).Some? ==> ChosenBy(pc).value.name !in RequestOf(pc).value.excluded)
  }

  /** A request keeps its order and what it excludes, from what was flagged when it began. */
  ghost predicate SameRequest(s: Shared, pc: Pc, pc': Pc) {
    RequestOf(pc').Some? ==>
      var req' := RequestOf(pc').value;
      if pc.Begin? then req'.orderId == pc.orderId && req'.excluded == ExcludedNow(s, pc.orderId)
      else
        && RequestOf(pc).Some?
        && req'.orderId == RequestOf(pc).value.orderId && req'.excluded == RequestOf(pc).value.excluded
  }

  lemma DrawIsOutside(s: Shared, r: nat, cs: seq<GatewayConfig>, excluded: set<string>)
    requires Outside(cs, excluded)
    ensures var (_, chosen) := Draw(s, r, cs); chosen.Some? ==> chosen.value.name !in excluded
  {
    hide Select;
    SelectAnswers(ReplicaOf(s, r).counter, cs);
  }

  lemma ChooseAvoids(s: Shared, r: nat, req: Request, snapshot: Snapshot)
    ensures var (_, pc') := ChooseStep(s, r, req, snapshot);
            Avoids(pc') && SameRequest(s, Choosing(req, snapshot), pc')
  {
    hide Draw, FilterExcluded;
    RI.FilterMembers(snapshot.probes, req.excluded);
    RI.FilterMembers(snapshot.healthy, req.excluded);
    DrawIsOutside(s, r, FilterExcluded(snapshot.probes, req.excluded), req.excluded);
  }

  lemma ChooseHealthyAvoids(s: Shared, r: nat, req: Request, healthy: seq<GatewayConfig>)
    requires Outside(healthy, req.excluded)
    ensures var (_, pc') := ChooseHealthyStep(s, r, req, healthy);
            Avoids(pc') && SameRequest(s, ChoosingHealthy(req, healthy), pc')
  {
    hide Draw;
    DrawIsOutside(s, r, healthy, req.excluded);
  }

  lemma PrepareAvoids(e: Env, s: Shared, r: nat, l: Loop, now: Time, prepare: PreparePc)
    requires l.i < |e.Gateways()|
    ensures var (_, pc') := PrepareStep(e, s, r, l, now, prepare);
            Avoids(pc') && SameRequest(s, Preparing(l, now, prepare), pc')
  {
    hide Prune, SetCache, Store, Ensure;
  }

  lemma ProbeAvoids(
      e: Env, s: Shared, r: nat, req: Request, c: GatewayConfig, healthy: seq<GatewayConfig>, probe: ProbePc)
    requires Avoids(Probing(req, c, healthy, probe))
    ensures var (_, pc') := ProbeStep(e, s, r, req, c, healthy, probe);
            Avoids(pc') && SameRequest(s, Probing(req, c, healthy, probe), pc')
  {
    hide Acquire, StoreAcquired, SetCache, SetSnapshot, Outside;
    assert Outside([], req.excluded) by { NoneOutside(req.excluded); }
  }

  lemma NoneOutside(excluded: set<string>)
    ensures Outside([], excluded)
  {
  }

  lemma SubmitAvoids(s: Shared, req: Request, c: GatewayConfig, asProbe: bool, submit: SubmitPc, choice: Choice)
    requires Avoids(Submitting(req, c, asProbe, submit))
    ensures var (_, pc') := SubmitStep(s, req, c, asProbe, submit, choice);
            Avoids(pc') && SameRequest(s, Submitting(req, c, asProbe, submit), pc')
  {
  }

  lemma CompensateAvoids(e: Env, s: Shared, t: nat, r: nat, req: Request, c: GatewayConfig, compensate: CompensatePc)
    requires Avoids(Compensating(req, c, compensate))
    ensures var (_, pc') := CompensateStep(e, s, t, r, req, c, compensate);
            Avoids(pc') && SameRequest(s, Compensating(req, c, compensate), pc')
  {
    hide Release, StoreReleased, SetCache;
  }

  /** The steps of a callback and of State are no request's. */
  lemma NoRequest(e: Env, s: Shared, t: nat, r: nat, pc: Pc, choice: Choice)
    requires RequestOf(pc).None? && !pc.Begin?
    ensures RequestOf(ThreadStep(e, s, t, r, pc, choice).1).None?
  {
    hide Release, Evaluate, Breaker.Verdict, ExpiryOf, WindowStats, EventsAfter, LogAfter, BlacklistStep, SetCache,
         Store, StoreReleased, Ensure, Prune;
  }

  lemma RequestStep(e: Env, s: Shared, r: nat, t: nat, pc: Pc, choice: Choice)
    requires Avoids(pc)
    ensures var (_, pc') := ThreadStep(e, s, t, r, pc, choice);
            Avoids(pc') && SameRequest(s, pc, pc')
  {
    hide PrepareStep, ChooseStep, ChooseHealthyStep, ProbeStep, SubmitStep, CompensateStep, CompleteStep, OutcomeStep,
         InspectStep, BlacklistStep, SetSnapshot, ExcludedNow;
    match pc
    case Preparing(l, now, prepare) =>
      if l.i < |e.Gateways()| {
        PrepareAvoids(e, s, r, l, now, prepare);
      }
    case Choosing(req, snapshot) => ChooseAvoids(s, r, req, snapshot);
    case ChoosingHealthy(req, healthy) => ChooseHealthyAvoids(s, r, req, healthy);
    case Probing(req, c, healthy, probe) => ProbeAvoids(e, s, r, req, c, healthy, probe);
    case Submitting(req, c, asProbe, submit) => SubmitAvoids(s, req, c, asProbe, submit, choice);
    case Compensating(req, c, compensate) => CompensateAvoids(e, s, t, r, req, c, compensate);
    case Begin(_) =>
    case Snapshotting(_, _) =>
    case Looping(_) =>
    case _ => NoRequest(e, s, t, r, pc, choice);
  }

  // ---------------------------------------------------------------- over runs

  /** Thread t was about to begin its request for o after the first j actions. */
  ghost predicate Beginning(e: Env, actions: seq<Action>, j: nat, t: nat, o: string) {
    j <= |actions| && t in After(e, actions[..j]).threads && After(e, actions[..j]).threads[t].pc == Begin(o)
  }

  /** What the request excludes was settled when it began. */
  ghost predicate Settled(e: Env, actions: seq<Action>, t: nat, req: Request) {
    exists j: nat :: Beginning(e, actions, j, t, req.orderId)
      && req.excluded == ExcludedNow(After(e, actions[..j]).shared, req.orderId)
  }

  ghost predicate RequestsOk(e: Env, actions: seq<Action>) {
    var threads := After(e, actions).threads;
    forall t :: t in threads ==>
      Avoids(threads[t].pc) && (RequestOf(threads[t].pc).Some? ==>
                                  Settled(e, actions, t, RequestOf(threads[t].pc).value))
  }

  lemma StillSettled(e: Env, actions: seq<Action>, a: Action, t: nat, req: Request, req': Request)
    requires Settled(e, actions, t, req) && req'.orderId == req.orderId && req'.excluded == req.excluded
    ensures Settled(e, actions + [a], t, req')
  {
    hide After;
    var j: nat :| Beginning(e, actions, j, t, req.orderId)
        && req.excluded == ExcludedNow(After(e, actions[..j]).shared, req.orderId);
    assert (actions + [a])[..j] == actions[..j];
    assert Beginning(e, actions + [a], j, t, req'.orderId);
  }

  lemma NowSettled(e: Env, actions: seq<Action>, a: Action, t: nat, req: Request)
    requires t in After(e, actions).threads && After(e, actions).threads[t].pc == Begin(req.orderId)
    requires req.excluded == ExcludedNow(After(e, actions).shared, req.orderId)
    ensures Settled(e, actions + [a], t, req)
  {
    hide After;
    assert (actions + [a])[..|actions|] == actions;
    assert Beginning(e, actions + [a], |actions|, t, req.orderId);
  }

  lemma ThreadIsOk(e: Env, actions: seq<Action>, a: Action, t: nat)
    requires RequestsOk(e, actions) && t in Apply(e, After(e, actions), a).threads
    ensures var pc' := Apply(e, After(e, actions), a).threads[t].pc;
            Avoids(pc') && (RequestOf(pc').Some? ==> Settled(e, actions + [a], t, RequestOf(pc').value))
  {
    hide After, ThreadStep, Settled;
    var w := After(e, actions);
    var pc' := Apply(e, w, a).threads[t].pc;
    if t in w.threads {
      var pc := w.threads[t].pc;
      if a.Advance? && a.thread == t {
        RequestStep(e, w.shared, w.threads[t].replica, t, pc, a.choice);
      }
      if RequestOf(pc').Some? {
        if pc.Begin? && a.Advance? && a.thread == t {
          NowSettled(e, actions, a, t, RequestOf(pc').value);
        } else {
          StillSettled(e, actions, a, t, RequestOf(pc).value, RequestOf(pc').value);
        }
      }
    }
  }

  lemma {:induction false} AlwaysRequestsOk(e: Env, actions: seq<Action>)
    ensures RequestsOk(e, actions)
  {
    hide Apply, Settled, Avoids;
    if actions != [] {
      var rest, a := actions[..|actions| - 1], actions[|actions| - 1];
      AlwaysRequestsOk(e, rest);
      assert rest + [a] == actions;
      forall t | t in After(e, actions).threads
        ensures var pc := After(e, actions).threads[t].pc;
                Avoids(pc) && (RequestOf(pc).Some? ==> Settled(e, actions, t, RequestOf(pc).value))
      {
        ThreadIsOk(e, rest, a, t);
      }
    }
  }

  /** After any interleaving: what a request excludes is exactly what was barred for its order
      when it began, and the gateway it probes or is sent to is not among them. */
  lemma BarredIsNotChosen(e: Env, actions: seq<Action>, t: nat)
    requires t in After(e, actions).threads && RequestOf(After(e, actions).threads[t].pc).Some?
    ensures var pc := After(e, actions).threads[t].pc;
            var req := RequestOf(pc).value;
            exists j: nat ::
              && Beginning(e, actions, j, t, req.orderId)
              && (forall g :: g in req.excluded <==> Barred(e, After(e, actions[..j]), req.orderId, g))
              && (ChosenBy(pc).Some? ==> !Barred(e, After(e, actions[..j]), req.orderId, ChosenBy(pc).value.name))
  {
    hide After, Barred, ExcludedNow;
    AlwaysRequestsOk(e, actions);
    var pc := After(e, actions).threads[t].pc;
    var req := RequestOf(pc).value;
    var j: nat :| Beginning(e, actions, j, t, req.orderId)
        && req.excluded == ExcludedNow(After(e, actions[..j]).shared, req.orderId);
    forall g
      ensures g in req.excluded <==> Barred(e, After(e, actions[..j]), req.orderId, g)
    {
      ExcludedExactlyWhenBarred(e, actions[..j], req.orderId, g);
    }
  }

  /** A request that arrives when a gateway is barred for its order is sent to it only after a
      success of that pair has been counted. */
  lemma BarredStaysOut(e: Env, actions: seq<Action>, k: nat, t: nat, g: string)
    requires k <= |actions| && t !in After(e, actions[..k]).threads && t in After(e, actions).threads
    requires var pc := After(e, actions).threads[t].pc;
             && ChosenBy(pc).Some? && ChosenBy(pc).value.name == g
             && Barred(e, After(e, actions[..k]), RequestOf(pc).value.orderId, g)
    ensures Counted(After(e, actions), RequestOf(After(e, actions).threads[t].pc).value.orderId, g, Success) > 0
  {
    hide After, Counted;
    BarredIsNotChosen(e, actions, t);
    var o := RequestOf(After(e, actions).threads[t].pc).value.orderId;
    var j: nat :| Beginning(e, actions, j, t, o) && !Barred(e, After(e, actions[..j]), o, g);
    if j < k {
      assert actions[..k][..j] == actions[..j];
      CountersGrow(e, actions[..k], j);
      assert false;
    }
    assert actions[..j][..k] == actions[..k];
    CountersGrow(e, actions[..j], k);
    CountersGrow(e, actions, j);
    CountedIsLooked(e, actions, o, g);
    CountedIsLooked(e, actions[..j], o, g);
    CountedIsLooked(e, actions[..k], o, g);
  }
}
