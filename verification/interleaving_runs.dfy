/** Building runs of the step model out of uninterrupted stretches, and what such runs leave
    alone. */
module InterleavingRuns {
  import opened Domain
  import opened Breaker
  import opened Reference
  import opened Selector
  import opened Interleaving
  import opened InterleavingAlone
  import Blacklist
  import Tokens = InterleavingTokens

  /** Only the caller's id can be new, and it is the caller's. */
  ghost predicate MintsOnly(s: Shared, s': Shared, x: Caller) {
    forall id :: id in s'.minted ==>
      (id in s.minted && s'.minted[id] == s.minted[id]) || (id == x.choice.id && s'.minted[id] == x.thread)
  }

  lemma {:induction false} StepsMint(x: Caller, s: Shared, pc: Pc, n: nat)
    ensures MintsOnly(s, Steps(x, s, pc, n).0, x)
    decreases n
  {
    if n > 0 {
      StepMints(x, s, pc);
      var (s', pc') := ThreadStep(x.env, s, x.thread, x.replica, pc, x.choice);
      StepsMint(x, Observed(s'), pc', n - 1);
    }
  }

  lemma StepMints(x: Caller, s: Shared, pc: Pc)
    ensures MintsOnly(s, ThreadStep(x.env, s, x.thread, x.replica, pc, x.choice).0, x)
  {
    hide SnapshotStep, LoopStep, PrepareStep, ChooseStep, ChooseHealthyStep, ProbeStep, SubmitStep, CompensateStep,
         ReceiveStep, CompleteStep, OutcomeStep, BlacklistStep, InspectStep, Blacklist.Flagged;
  }

  lemma PrepareElsewhere(e: Env, s: Shared, r: nat, l: Loop, now: Time, prepare: PreparePc, q: nat)
    requires l.i < |e.Gateways()| && q != r
    ensures ReplicaOf(PrepareStep(e, s, r, l, now, prepare).0, q) == ReplicaOf(s, q)
  {
    hide Prune, Classify;
  }

  lemma TokensElsewhere(s: Shared, state: RuntimeState, token: Probe, t: nat, b: bool)
    ensures StoreAcquired(s, state, token, b).replicas == s.replicas
            && StoreReleased(s, state, token.transactionId, t, b).replicas == s.replicas
  {
  }

  lemma ProbeElsewhere(
      e: Env, s: Shared, r: nat, req: Request, c: GatewayConfig, healthy: seq<GatewayConfig>, probe: ProbePc,
      q: nat)
    requires q != r
    ensures ReplicaOf(ProbeStep(e, s, r, req, c, healthy, probe).0, q) == ReplicaOf(s, q)
  {
    hide Acquire, StoreAcquired;
    if probe.AcquireToken? && c.name in s.states {
      var (state, acquired) := Tokens.Acquiring(e, s, c.name, req.tx, probe.at);
      TokensElsewhere(s, state, Tokens.Token(e, req.tx, probe.at), 0, acquired);
    }
  }

  lemma CompensateElsewhere(
      e: Env, s: Shared, t: nat, r: nat, req: Request, c: GatewayConfig, compensate: CompensatePc, q: nat)
    requires q != r
    ensures ReplicaOf(CompensateStep(e, s, t, r, req, c, compensate).0, q) == ReplicaOf(s, q)
  {
    hide Release, StoreReleased;
    if compensate.ReleaseToken? && c.name in s.states {
      var (state, held) := Release(s.states[c.name], req.tx, compensate.at);
      TokensElsewhere(s, state, Probe(req.tx, 0), t, held);
    }
  }

  lemma OutcomeElsewhere(e: Env, s: Shared, t: nat, r: nat, done: Transaction, now: Time, outcome: OutcomePc, q: nat)
    requires q != r
    ensures ReplicaOf(OutcomeStep(e, s, t, r, done, now, outcome).0, q) == ReplicaOf(s, q)
  {
    hide ReleaseAndRule, Evaluate, WindowStats, EventsAfter, LogAfter;
  }

  lemma InspectElsewhere(e: Env, s: Shared, r: nat, g: string, inspect: InspectPc, q: nat)
    requires q != r
    ensures ReplicaOf(InspectStep(e, s, r, g, inspect).0, q) == ReplicaOf(s, q)
  {
    hide Prune;
  }

  /** A thread's step leaves the caches of other replicas alone. */
  lemma StepElsewhere(x: Caller, s: Shared, pc: Pc, q: nat)
    requires q != x.replica
    ensures ReplicaOf(ThreadStep(x.env, s, x.thread, x.replica, pc, x.choice).0, q) == ReplicaOf(s, q)
  {
    hide PrepareStep, ProbeStep, CompensateStep, OutcomeStep, InspectStep, BeginStep, SubmitStep, CompleteStep,
         BlacklistStep, FilterExcluded, Select;
    match pc
    case Preparing(l, now, prepare) =>
      if l.i < |x.env.Gateways()| {
        PrepareElsewhere(x.env, s, x.replica, l, now, prepare, q);
      }
    case Probing(req, c, healthy, probe) => ProbeElsewhere(x.env, s, x.replica, req, c, healthy, probe, q);
    case Compensating(req, c, compensate) => CompensateElsewhere(x.env, s, x.thread, x.replica, req, c, compensate, q);
    case Settling(done, now, outcome) => OutcomeElsewhere(x.env, s, x.thread, x.replica, done, now, outcome, q);
    case Inspecting(g, inspect) => InspectElsewhere(x.env, s, x.replica, g, inspect, q);
    case _ =>
  }

  lemma {:induction false} StepsElsewhere(x: Caller, s: Shared, pc: Pc, n: nat, q: nat)
    requires q != x.replica
    ensures ReplicaOf(Steps(x, s, pc, n).0, q) == ReplicaOf(s, q)
    decreases n
  {
    hide ThreadStep;
    if n > 0 {
      StepElsewhere(x, s, pc, q);
      var (s', pc') := ThreadStep(x.env, s, x.thread, x.replica, pc, x.choice);
      StepsElsewhere(x, Observed(s'), pc', n - 1, q);
    }
  }

  function Repeated(a: Action, n: nat): seq<Action> {
    if n == 0 then [] else Repeated(a, n - 1) + [a]
  }

  lemma {:induction false} AdvancesOnce(x: Caller, all: Global, n: nat)
    ensures Advances(x, all, n + 1) == Apply(x.env, Advances(x, all, n), Advance(x.thread, x.choice))
    decreases n
  {
    hide Apply;
    if n > 0 {
      AdvancesOnce(x, Apply(x.env, all, Advance(x.thread, x.choice)), n - 1);
    } else {
      assert Advances(x, all, 0) == all;
    }
  }

  lemma {:induction false} AdvancesAreActions(x: Caller, actions: seq<Action>, n: nat)
    ensures After(x.env, actions + Repeated(Advance(x.thread, x.choice), n)) == Advances(x, After(x.env, actions), n)
  {
    hide Apply;
    var a := Advance(x.thread, x.choice);
    if n == 0 {
      assert actions + Repeated(a, 0) == actions;
    } else {
      AdvancesAreActions(x, actions, n - 1);
      AdvancesOnce(x, After(x.env, actions), n - 1);
      var longer := actions + Repeated(a, n);
      assert longer[..|longer| - 1] == actions + Repeated(a, n - 1);
    }
  }

  // ---------------------------------------------------------------- one request at a time

  predicate Rests(pc: Pc) {
    pc.Stopped? || pc.Finished?
  }

  /** No other thread of the replica is under way. */
  predicate Alone(threads: map<nat, Thread>, t: nat, r: nat) {
    forall u :: u in threads && u != t && threads[u].replica == r ==> Rests(threads[u].pc)
  }

  predicate AtMostOne(threads: map<nat, Thread>) {
    forall t, u :: t in threads && u in threads && t != u && threads[t].replica == threads[u].replica ==>
      Rests(threads[t].pc) || Rests(threads[u].pc)
  }

  /** Throughout the run every replica works on at most one request or callback. */
  ghost predicate OneAtATime(e: Env, actions: seq<Action>) {
    forall k :: 0 <= k <= |actions| ==> AtMostOne(After(e, actions[..k]).threads)
  }

  lemma OneMore(e: Env, actions: seq<Action>, a: Action)
    requires OneAtATime(e, actions) && AtMostOne(After(e, actions + [a]).threads)
    ensures OneAtATime(e, actions + [a])
  {
    hide After, AtMostOne;
    var longer := actions + [a];
    forall k | 0 <= k <= |longer|
      ensures AtMostOne(After(e, longer[..k]).threads)
    {
      if k <= |actions| {
        assert longer[..k] == actions[..k];
      } else {
        assert longer[..k] == longer;
      }
    }
  }

  lemma StillAlone(threads: map<nat, Thread>, t: nat, r: nat, pc: Pc)
    requires AtMostOne(threads) && Alone(threads, t, r) && (t in threads ==> threads[t].replica == r)
    ensures AtMostOne(threads[t := Thread(r, pc)]) && Alone(threads[t := Thread(r, pc)], t, r)
  {
  }

  lemma {:induction false} StretchIsOneAtATime(x: Caller, actions: seq<Action>, n: nat)
    requires var threads := After(x.env, actions).threads;
             x.thread in threads && threads[x.thread].replica == x.replica && Alone(threads, x.thread, x.replica)
    requires OneAtATime(x.env, actions)
    ensures OneAtATime(x.env, actions + Repeated(Advance(x.thread, x.choice), n))
  {
    hide After, AtMostOne, Alone, Steps;
    var a := Advance(x.thread, x.choice);
    if n == 0 {
      assert actions + Repeated(a, 0) == actions;
    } else {
      StretchIsOneAtATime(x, actions, n - 1);
      var shorter := actions + Repeated(a, n - 1);
      var all := After(x.env, actions);
      assert actions + Repeated(a, n) == shorter + [a];
      AdvancesAreActions(x, actions, n);
      AdvancesAreSteps(x, all, n);
      assert actions[..|actions|] == actions;
      StillAlone(all.threads, x.thread, x.replica, Steps(x, all.shared, all.threads[x.thread].pc, n).1);
      OneMore(x.env, shorter, a);
    }
  }

  // ---------------------------------------------------------------- the three ways to go on

  /** A run of one thread's steps, as actions after the actions so far. */
  lemma Extend(x: Caller, actions: seq<Action>, pc: Pc, s': Shared, pc': Pc) returns (actions': seq<Action>)
    requires var all := After(x.env, actions);
             && x.thread in all.threads && all.threads[x.thread] == Thread(x.replica, pc)
             && Leads(x, all.shared, pc, s', pc') && Alone(all.threads, x.thread, x.replica)
    requires OneAtATime(x.env, actions)
    ensures actions <= actions' && OneAtATime(x.env, actions')
    ensures var all := After(x.env, actions);
            && After(x.env, actions') == Global(s', all.threads[x.thread := Thread(x.replica, pc')])
            && MintsOnly(all.shared, s', x)
            && forall q: nat :: q != x.replica ==> ReplicaOf(s', q) == ReplicaOf(all.shared, q)
  {
    hide Steps, Advances, After, MintsOnly, OneAtATime, Alone;
    var all := After(x.env, actions);
    var n: nat :| Steps(x, all.shared, pc, n) == (s', pc');
    AdvancesAreSteps(x, all, n);
    AdvancesAreActions(x, actions, n);
    StepsMint(x, all.shared, pc, n);
    forall q: nat | q != x.replica
      ensures ReplicaOf(s', q) == ReplicaOf(all.shared, q)
    {
      StepsElsewhere(x, all.shared, pc, n, q);
    }
    StretchIsOneAtATime(x, actions, n);
    actions' := actions + Repeated(Advance(x.thread, x.choice), n);
  }

  lemma Enter(e: Env, actions: seq<Action>, t: nat, r: nat, call: Call) returns (actions': seq<Action>)
    requires t !in After(e, actions).threads && Alone(After(e, actions).threads, t, r) && OneAtATime(e, actions)
    ensures actions <= actions' && OneAtATime(e, actions')
    ensures var all := After(e, actions);
            After(e, actions') == all.(threads := all.threads[t := Thread(r, Start(call))])
  {
    actions' := actions + [Arrive(t, r, call)];
    assert actions'[..|actions|] == actions;
    assert AtMostOne(After(e, actions[..|actions|]).threads) && actions[..|actions|] == actions;
    StillAlone(After(e, actions).threads, t, r, Start(call));
    OneMore(e, actions, Arrive(t, r, call));
  }

  lemma Wait(e: Env, actions: seq<Action>, to: Time, r: nat, w: World, c: Time) returns (actions': seq<Action>)
    requires Sees(After(e, actions).shared, r, w, c, {}) && c <= to && OneAtATime(e, actions)
    ensures actions <= actions' && OneAtATime(e, actions')
    ensures var all, all' := After(e, actions), After(e, actions');
            && all'.threads == all.threads && all'.shared.minted == all.shared.minted
            && all'.shared.replicas == all.shared.replicas
            && Sees(all'.shared, r, w, to, {})
  {
    actions' := actions + [Tick(to)];
    assert actions'[..|actions|] == actions;
    assert AtMostOne(After(e, actions[..|actions|]).threads) && actions[..|actions|] == actions;
    OneMore(e, actions, Tick(to));
  }
}
