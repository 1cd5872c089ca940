/** A run in which a running cooldown is lost, with two processes that share a store: a
    successful callback in the second process reads the gateway as healthy and counts a window
    that does not trip, a failing callback in the first trips the gateway, and the first one
    then saves the recovery it has decided on. */
module InterleavingRecovery {
  import opened Domain
  import opened Breaker
  import opened EventLog
  import opened Reference
  import opened Interleaving
  import opened InterleavingAlone
  import opened InterleavingCooldowns
  import opened InterleavingLosses
  import opened InterleavingRuns
  import opened InterleavingScenes
  import opened Scenario
  import Safety = InterleavingSafety
  import Transactions

  const SUCCEEDED := CallbackInput("t0", "", "g", Success)

  const FAILED := CallbackInput("t1", "", "g", Failure)

  /** The successful callback, parked before its decision. */
  function Decided(done: Transaction): Pc {
    Settling(done, 0, DecideOutcome(Breaker.Fresh("g", 0), StatsOf(MIXED[..1], "g", -WINDOW, 0)))
  }

  /** The world in which it is parked. */
  function Counted(w: World): World {
    w.(txns := Transactions.Complete(w.txns, "t0", Success, 0).0, events := MIXED[..1],
       log := LogAfter(w.log, "g", "t0", Success, 0))
  }

  lemma CountedHere(w: World)
    requires w.states == map["g" := Breaker.Fresh("g", 0)] && w.events == []
    ensures Ensured(w.states, "g", 0) == w.states
    ensures EventsAfter(w.events, ENV.Routing(), "g", "t0", Success, 0) == MIXED[..1]
    ensures WindowStats(MIXED[..1], ENV.Routing(), "g", 0) == StatsOf(MIXED[..1], "g", -WINDOW, 0)
  {
    hide StatsOf, Retain;
    Environment();
    MixedOutcomesTrip();
  }

  /** From its arrival to its decision. */
  lemma DecideAlone(x: Caller, s: Shared, w: World) returns (s': Shared, done: Transaction)
    requires x.env == ENV && Sees(s, x.replica, w, 0, {})
    requires w.states == map["g" := Breaker.Fresh("g", 0)] && w.events == []
    requires "t0" in w.txns && w.txns["t0"] == Transaction("t0", "a", 1, "g", Pending, 0, 0, None)
    ensures Leads(x, s, Receiving(SUCCEEDED), s', Decided(done)) && Sees(s', x.replica, Counted(w), 0, {})
  {
    hide Leads, Coherent, EventsAfter, LogAfter, WindowStats, StatsOf;
    done := Transactions.Finished(w.txns["t0"], Success, 0);
    var txns := w.txns["t0" := done];
    var w1 := w.(txns := txns);
    var s1 := Move(x, s, Receiving(SUCCEEDED), s, Completing(SUCCEEDED), w, 0, {});
    var completed := s1.(txns := txns, completer := s1.completer["t0" := x.thread]);
    TablesSee(s1, x.replica, w, 0, completed, w1);
    var s2 := Then(x, s, Receiving(SUCCEEDED), s1, Completing(SUCCEEDED), completed, Completed(done), w1, 0, {});
    s' := CountAlone(x, s2, done, w1, 0);
    CountedHere(w1);
    Chain(x, s, Receiving(SUCCEEDED), s2, Completed(done), s', Decided(done));
  }

  // ---------------------------------------------------------------- the run

  /** Two requests, both answered by replica 0 with the healthy gateway. */
  lemma Opening() returns (actions: seq<Action>, w: World)
    ensures Scene(actions, map[0 := Thread(0, Stopped), 1 := Thread(0, Stopped)], {"t0", "t1"}, w, 0)
    ensures w.states == map["g" := Breaker.Fresh("g", 0)] && w.events == []
    ensures "t0" in w.txns && w.txns["t0"] == Transaction("t0", "a", 1, "g", Pending, 0, 0, None)
    ensures "t1" in w.txns && w.txns["t1"].gateway == "g" && w.txns["t1"].status == Pending && w.txns["t1"].id == "t1"
    ensures ReplicaOf(After(ENV, actions).shared, 1) == NEW_REPLICA
  {
    hide Initiate, Sees, After, OneAtATime;
    EmptyScene();
    var a1 := Serve([], map[], {}, 0, "a", "t0", EMPTY_WORLD, 0);
    FirstInitiate();
    var w1 := Initiate(EMPTY_WORLD, At(0), Requested("a", "t0")).0;
    actions := Serve(a1, map[0 := Thread(0, Stopped)], {"t0"}, 1, "b", "t1", w1, 0);
    SecondInitiate(w1);
    w := Initiate(w1, At(0), Requested("b", "t1")).0;
  }

  /** The successful callback arrives at the second process and parks. */
  lemma Park(opening: seq<Action>, threads: map<nat, Thread>, ids: set<string>, w: World)
    returns (actions: seq<Action>, done: Transaction)
    requires Scene(opening, threads, ids, w, 0) && 2 !in threads && Alone(threads, 2, 1) && "t0" in ids
    requires w.states == map["g" := Breaker.Fresh("g", 0)] && w.events == []
    requires "t0" in w.txns && w.txns["t0"] == Transaction("t0", "a", 1, "g", Pending, 0, 0, None)
    requires ReplicaOf(After(ENV, opening).shared, 1) == NEW_REPLICA
    ensures Scene(actions, threads[2 := Thread(1, Decided(done))], ids, Counted(w), 0)
  {
    hide Sees, Leads, After, Start, Decided, ReplicaOf, OneAtATime, Transactions.Complete;
    var x := Client(2, 1, "t0");
    var s0 := After(ENV, opening).shared;
    var arrived := Enter(ENV, opening, 2, 1, CallbackCall(SUCCEEDED));
    StartOf("", SUCCEEDED);
    NewReplicaSees(s0, w, 0);
    var s1, finished := DecideAlone(x, s0, SeenFrom(w, NEW_REPLICA));
    done := finished;
    actions := Extend(x, arrived, Receiving(SUCCEEDED), s1, Decided(done));
    SeesReplica(s0, 0, w, 0);
    FirstStillSees(s0, s1, w, Counted(SeenFrom(w, NEW_REPLICA)), 0);
    assert SeenFrom(Counted(SeenFrom(w, NEW_REPLICA)), ReplicaOf(s0, 0)) == Counted(w);
  }

  /** The gateway is a minute away from its deadline, and the next action makes it healthy; no
      process has worked on two calls at once. */
  ghost predicate LostBy(actions: seq<Action>, a: Action) {
    var before, after := After(ENV, actions).shared, After(ENV, actions + [a]).shared;
    && OneAtATime(ENV, actions + [a])
    && Down(before.states, "g") && before.states["g"].unhealthyUntil == Some(before.clock + 60 * SECOND)
    && "g" in after.states && after.states["g"].phase == Healthy && after.clock == before.clock
  }

  /** Both callbacks have done their part: the decision is still to be saved. */
  lemma Tripped() returns (actions: seq<Action>, done: Transaction)
    ensures var all := After(ENV, actions);
            && OneAtATime(ENV, actions) && all.shared.clock == 0 && all.shared.states == map["g" := TRIPPED]
            && 2 in all.threads && all.threads[2] == Thread(1, Decided(done)) && Alone(all.threads, 2, 1)
  {
    hide Sees, After, Callback, Decided, OneAtATime, Transactions.Complete;
    var opening, w := Opening();
    var threads := map[0 := Thread(0, Stopped), 1 := Thread(0, Stopped)];
    var parked, finished := Park(opening, threads, {"t0", "t1"}, w);
    done := finished;
    var pc;
    actions, pc := Report(parked, threads[2 := Thread(1, Decided(done))], {"t0", "t1"}, 3, FAILED, Counted(w), 0);
    OtherTransaction(w.txns);
    SecondFails(Counted(w));
    SeesTheStore(After(ENV, actions).shared, Callback(Counted(w), At(0), FAILED).0);
  }

  lemma OtherTransaction(txns: Transactions.Table)
    requires "t1" in txns
    ensures var txns' := Transactions.Complete(txns, "t0", Success, 0).0;
            "t1" in txns' && txns'["t1"] == txns["t1"]
  {
  }

  lemma SeesTheStore(s: Shared, w: World)
    requires Sees(s, 0, w, 0, {})
    ensures s.clock == 0 && s.states == w.states
  {
  }

  lemma DecisionRecovers(done: Transaction)
    ensures Safety.SaveOf(ENV, Decided(done)) == Some(Breaker.Fresh("g", 0))
  {
    hide StatsOf, Breached;
    Environment();
    MixedOutcomesTrip();
  }

  /** A running cooldown can be lost: the documentation's deadline holds for what one process
      does on its own, not for two callbacks that overlap. */
  lemma RunningCooldownIsLost()
    ensures exists actions, a :: LostBy(actions, a)
  {
    hide After, OneAtATime, Decided, ThreadStep;
    var actions, done := Tripped();
    var x := Client(2, 1, "t0");
    var a := Advance(2, x.choice);
    Environment();
    DecisionRecovers(done);
    Safety.NoSaveWritesTokens(ENV, actions, 2, x.choice);
    StretchIsOneAtATime(x, actions, 1);
    assert Repeated(a, 1) == [a];
    LastAction(actions, a);
    assert LostBy(actions, a);
  }

  lemma LastAction(actions: seq<Action>, a: Action)
    requires a.Advance? && a.thread in After(ENV, actions).threads
    ensures After(ENV, actions + [a]) == Apply(ENV, After(ENV, actions), a)
    ensures Apply(ENV, After(ENV, actions), a).shared.clock == After(ENV, actions).shared.clock
  {
    hide ThreadStep;
    var w := After(ENV, actions);
    ClockStays(ENV, w.shared, a.thread, w.threads[a.thread].replica, w.threads[a.thread].pc, a.choice);
    assert (actions + [a])[..|actions|] == actions;
  }
}
