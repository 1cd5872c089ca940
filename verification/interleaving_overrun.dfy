/** A run in which one probe at a time is configured and two are under way, with two processes
    that share a store: a request in the second process reads that the cooldown is over before
    a request in the first is granted its probe, then saves its own move to half-open over the
    granted token, and is granted another one. */
module InterleavingOverrun {
  import opened Domain
  import opened Breaker
  import opened Reference
  import opened Selector
  import opened Interleaving
  import opened InterleavingAlone
  import opened InterleavingRuns
  import opened InterleavingScenes
  import opened InterleavingUnderWay
  import opened Scenario
  import Blacklist
  import Safety = InterleavingSafety
  import Tokens = InterleavingTokens

  // ---------------------------------------------------------------- the interrupted request

  /** Where the interrupted request is parked: it has read that the cooldown is over. */
  function Parked(req: Request): Pc {
    Preparing(Loop(req, 0, [], []), DEADLINE, DecidePhase(TRIPPED))
  }

  function Waiting(): Request {
    Request("b", "tA", {}, DEADLINE)
  }

  lemma ParkAlone(x: Caller, s: Shared, w: World) returns (s': Shared)
    requires x.env == ENV && x.replica == 1 && x.choice.id == "tA" && "tA" !in s.minted
    requires Sees(s, 1, w, DEADLINE, {})
    requires w.states == map["g" := TRIPPED] && w.snapshot == NO_SNAPSHOT && w.summaries.Keys == {"a"}
    ensures Leads(x, s, Begin("b"), s', Parked(Waiting())) && Sees(s', 1, w, DEADLINE, {})
  {
    hide Leads, Coherent;
    Configured();
    var req, pc, c := Waiting(), Begin("b"), DEADLINE;
    assert Blacklist.Flagged(s.summaries, "b") == {};
    var minted := s.(minted := s.minted["tA" := x.thread]);
    TablesSee(s, 1, w, c, minted, w);
    var s1 := Move(x, s, pc, minted, Snapshotting(req, ClockForSnapshot), w, c, {});
    var s2 := Then(x, s, pc, s1, Snapshotting(req, ClockForSnapshot), s1, Snapshotting(req, ReadSnapshot), w, c, {});
    var s3 := Then(x, s, pc, s2, Snapshotting(req, ReadSnapshot), s2, Snapshotting(req, RecheckSnapshot), w, c, {});
    var l := Loop(req, 0, [], []);
    var s4 := Then(x, s, pc, s3, Snapshotting(req, RecheckSnapshot), s3, Looping(l), w, c, {});
    var s5 := Then(x, s, pc, s4, Looping(l), s4, Preparing(l, c, LookInCache), w, c, {});
    s' := LookAlone(x, s5, l, w, c);
    assert Ensured(w.states, "g", c) == w.states;
    Chain(x, s, pc, s5, Preparing(l, c, LookInCache), s', Parked(req));
  }

  /** The snapshot the resumed request builds: the gateway it has just reopened, again. */
  function Resumed(): Snapshot {
    Snapshot([], [GATEWAY], Some(DEADLINE + ROUTING_TTL))
  }

  lemma ReopenedIsListed(req: Request)
    ensures var state := Prune(ToHalfOpen(TRIPPED, DEADLINE), DEADLINE);
            state == Reopened() && Classify(ENV, Loop(req, 0, [], []), state) == Loop(req, 1, [], [GATEWAY])
  {
  }

  /** The late save writes an empty half-open state, whatever the store holds by now. */
  lemma RewriteAlone(x: Caller, s: Shared, l: Loop, w: World) returns (s': Shared)
    requires x.env == ENV && x.replica == 1 && Sees(s, 1, w, DEADLINE, {"g"}) && w.states.Keys == {"g"} && l.i == 0
    ensures Leads(x, s, Preparing(l, DEADLINE, DecidePhase(TRIPPED)), s', Preparing(l, DEADLINE, PruneStored))
    ensures Sees(s', 1, w.(states := map["g" := ToHalfOpen(TRIPPED, DEADLINE)]), DEADLINE, {})
    ensures s'.released == s.released && s'.acquired == s.acquired
  {
    hide Leads, Coherent, Store, SetCache;
    Configured();
    var pc, c, reopened := Preparing(l, DEADLINE, DecidePhase(TRIPPED)), DEADLINE, ToHalfOpen(TRIPPED, DEADLINE);
    var w1 := w.(states := w.states["g" := reopened]);
    assert w1.states == map["g" := reopened];
    StoreSees(s, 1, w, c, {"g"}, reopened);
    StoreHistory(ENV, s, reopened, c);
    var s1 := Move(x, s, pc, Store(s, reopened), Preparing(l, c, CacheHalfOpen(reopened)), w1, c, {"g"});
    CacheSees(ENV, s1, 1, w1, c, {"g"}, reopened, c);
    StoreHistory(ENV, s1, reopened, c);
    s' := Then(x, s, pc, s1, Preparing(l, c, CacheHalfOpen(reopened)),
               SetCache(ENV, s1, 1, reopened, c), Preparing(l, c, PruneStored), w1, c, {});
  }

  /** After it the request builds its snapshot. */
  lemma ResumeAlone(x: Caller, s: Shared, w: World) returns (s': Shared)
    requires x.env == ENV && x.replica == 1 && Sees(s, 1, w, DEADLINE, {"g"}) && w.states.Keys == {"g"}
    ensures Leads(x, s, Parked(Waiting()), s', Choosing(Waiting(), Resumed()))
    ensures Sees(s', 1, w.(states := map["g" := Reopened()], snapshot := Resumed()), DEADLINE, {})
    ensures s'.released == s.released && s'.acquired == s.acquired
  {
    hide Leads, Sees, Prune, Pruned, Classify;
    Configured();
    ReopenedIsListed(Waiting());
    var req, pc, c := Waiting(), Parked(Waiting()), DEADLINE;
    var l, l' := Loop(req, 0, [], []), Loop(req, 1, [], [GATEWAY]);
    var w1 := w.(states := map["g" := ToHalfOpen(TRIPPED, DEADLINE)]);
    var s2 := RewriteAlone(x, s, l, w);
    var s3 := PruneAlone(x, s2, l, w1, c);
    Chain(x, s, pc, s2, Preparing(l, c, PruneStored), s3, Looping(l'));
    var w2 := w.(states := map["g" := Reopened()]);
    assert w1.states["g" := Reopened()] == w2.states;
    SnapshotSees(s3, 1, w2, c, Resumed());
    s' := Then(x, s, pc, s3, Looping(l'), SetSnapshot(s3, 1, Resumed()), Choosing(req, Resumed()),
               w2.(snapshot := Resumed()), c, {});
  }

  lemma StoreHistory(e: Env, s: Shared, state: RuntimeState, c: Time)
    ensures Store(s, state).released == s.released && Store(s, state).acquired == s.acquired
    ensures SetCache(e, s, 1, state, c).released == s.released && SetCache(e, s, 1, state, c).acquired == s.acquired
  {
  }

  /** And is granted the one token of the state it wrote. */
  lemma GrantAlone(x: Caller, s: Shared, w: World) returns (s': Shared)
    requires x.env == ENV && x.replica == 1 && Sees(s, 1, w, DEADLINE, {}) && w.states == map["g" := Reopened()]
    ensures Leads(x, s, Choosing(Waiting(), Resumed()), s', Submitting(Waiting(), GATEWAY, true, PrepareAttempt))
    ensures "g" in s'.states && Probe("tA", UnixMilli(PROBE_END)) in s'.states["g"].probes && s'.clock == DEADLINE
    ensures s'.released == s.released && forall tx :: tx != "tA" && tx in s.acquired ==>
              tx in s'.acquired && s'.acquired[tx] == s.acquired[tx]
  {
    hide Leads, Coherent, Select, FilterExcluded, Draw;
    Configured();
    OneCandidate(w.counter);
    ReopenedState();
    var req, pc, c := Waiting(), Choosing(Waiting(), Resumed()), DEADLINE;
    DrawSees(s, 1, w, c, [GATEWAY]);
    DrawHistory(s, 1, [GATEWAY]);
    var w1 := w.(counter := Next(w.counter));
    var probing := Probing(req, GATEWAY, [], ClockForProbe);
    var s1 := Move(x, s, pc, Draw(s, 1, [GATEWAY]).0, probing, w1, c, {});
    s' := MarkAlone(x, s1, req, GATEWAY, [], w1, c);
    Chain(x, s, pc, s1, probing, s', Submitting(req, GATEWAY, true, PrepareAttempt));
  }

  lemma DrawHistory(s: Shared, r: nat, cs: seq<GatewayConfig>)
    ensures Draw(s, r, cs).0.released == s.released && Draw(s, r, cs).0.acquired == s.acquired
  {
  }

  // ---------------------------------------------------------------- the run

  /** The opening: one request, its failure, and the end of the cooldown, all in replica 0. */
  lemma Opening() returns (actions: seq<Action>, w: World)
    ensures 1 in After(ENV, actions).threads && After(ENV, actions).threads[1].replica == 0
            && Rests(After(ENV, actions).threads[1].pc)
    ensures Scene(actions, map[0 := Thread(0, Stopped), 1 := After(ENV, actions).threads[1]], {"t0"}, w, DEADLINE)
    ensures w.states == map["g" := TRIPPED] && w.snapshot.expiresAt == Some(ROUTING_TTL)
    ensures w.summaries.Keys == {"a"} && w.txns.Keys == {"t0"}
    ensures ReplicaOf(After(ENV, actions).shared, 1) == NEW_REPLICA
  {
    hide Initiate, Callback, Leads, Start, Sees, OneAtATime;
    EmptyScene();
    var a1 := Serve([], map[], {}, 0, "a", "t0", EMPTY_WORLD, 0);
    FirstInitiate();
    var w1 := Initiate(EMPTY_WORLD, At(0), Requested("a", "t0")).0;
    FirstFailure(w1);
    w := Callback(w1, At(0), CallbackInput("t0", "", "g", Failure)).0;
    var a3, _ := Report(a1, map[0 := Thread(0, Stopped)], {"t0"}, 1, CallbackInput("t0", "", "g", Failure), w1, 0);
    actions := Wait(ENV, a3, DEADLINE, 0, w, 0);
  }

  /** The second process is out of date about g, and only about g. */
  lemma SecondIsStale(s: Shared, s': Shared, w: World, w': World)
    requires Sees(s, 1, w, DEADLINE, {}) && w.states.Keys == {"g"}
    requires Sees(s', 0, w', DEADLINE, {}) && w'.states.Keys == {"g"} && ReplicaOf(s', 1) == ReplicaOf(s, 1)
    ensures Sees(s', 1, SeenFrom(w', ReplicaOf(s, 1)), DEADLINE, {"g"})
  {
  }

  /** Request A arrives at the second process and parks. */
  lemma Park(opening: seq<Action>, threads: map<nat, Thread>, w: World) returns (actions: seq<Action>)
    requires Scene(opening, threads, {"t0"}, w, DEADLINE) && threads.Keys == {0, 1} && Alone(threads, 2, 1)
    requires w.states == map["g" := TRIPPED] && w.summaries.Keys == {"a"}
    requires ReplicaOf(After(ENV, opening).shared, 1) == NEW_REPLICA
    ensures Scene(actions, threads[2 := Thread(1, Parked(Waiting()))], {"t0", "tA"}, w, DEADLINE)
    ensures Sees(After(ENV, actions).shared, 1, SeenFrom(w, NEW_REPLICA), DEADLINE, {})
    ensures Elsewhere(opening, actions, Client(2, 1, "tA"))
  {
    hide Sees, Leads, After, Start, Parked, ReplicaOf, OneAtATime;
    var x := Client(2, 1, "tA");
    var s0 := After(ENV, opening).shared;
    var arrived := Enter(ENV, opening, 2, 1, InitiateCall("b"));
    StartOf("b", CallbackInput("", "", "", Pending));
    NewReplicaSees(s0, w, DEADLINE);
    var s1 := ParkAlone(x, s0, SeenFrom(w, NEW_REPLICA));
    actions := Extend(x, arrived, Begin("b"), s1, Parked(Waiting()));
    FirstStillSees(s0, s1, w, SeenFrom(w, NEW_REPLICA), DEADLINE);
    assert SeenFrom(SeenFrom(w, NEW_REPLICA), ReplicaOf(s0, 0)) == w by { SeesReplica(s0, 0, w, DEADLINE); }
  }

  /** The token of a request of the run: half a minute from the deadline. */
  function RunToken(tx: string): Probe {
    Probe(tx, UnixMilli(PROBE_END))
  }

  lemma StoredIsOutstanding(actions: seq<Action>, p: Probe)
    requires var states := After(ENV, actions).shared.states; "g" in states && p in states["g"].probes
    ensures Tokens.Outstanding(After(ENV, actions).shared, p, "g")
    ensures p.transactionId in After(ENV, actions).shared.minted
  {
    Environment();
    Safety.AlwaysInv(ENV, actions);
    hide After;
    assert Tokens.StatesOk(ENV, After(ENV, actions).shared);
    assert Tokens.ReleasesOk(After(ENV, actions).shared);
  }

  /** The request with that id is a thread of that replica. */
  predicate MadeIn(all: Global, tx: string, r: nat) {
    tx in all.shared.minted && all.shared.minted[tx] in all.threads && all.threads[all.shared.minted[tx]].replica == r
  }

  /** The caller's id is its thread's. */
  lemma MadeHere(actions: seq<Action>, longer: seq<Action>, x: Caller)
    requires Elsewhere(actions, longer, x) && x.choice.id in After(ENV, longer).shared.minted
    requires var minted := After(ENV, actions).shared.minted; x.choice.id in minted ==> minted[x.choice.id] == x.thread
    requires var threads := After(ENV, longer).threads; x.thread in threads && threads[x.thread].replica == x.replica
    ensures MadeIn(After(ENV, longer), x.choice.id, x.replica)
  {
    hide After;
  }

  /** What was made stays made. */
  lemma StillMade(actions: seq<Action>, longer: seq<Action>, x: Caller, tx: string, r: nat)
    requires Elsewhere(actions, longer, x) && MadeIn(After(ENV, actions), tx, r) && tx != x.choice.id
    requires tx in After(ENV, longer).shared.minted
    requires var threads, threads' := After(ENV, actions).threads, After(ENV, longer).threads;
             forall t :: t in threads ==> t in threads' && threads'[t].replica == threads[t].replica
    ensures MadeIn(After(ENV, longer), tx, r)
  {
    hide After;
  }

  lemma ParkedIsMinted(actions: seq<Action>)
    requires 2 in After(ENV, actions).threads && After(ENV, actions).threads[2].pc == Parked(Waiting())
    ensures "tA" in After(ENV, actions).shared.minted && After(ENV, actions).shared.minted["tA"] == 2
  {
    Environment();
    Safety.AlwaysInv(ENV, actions);
    hide After;
    assert Tokens.PcOk(ENV, After(ENV, actions).shared, 2, Parked(Waiting()));
  }

  /** Request A, resumed over the probe of request B, is granted a second one. */
  lemma SecondGrant(actions: seq<Action>, threads: map<nat, Thread>, w: World) returns (longer: seq<Action>)
    requires After(ENV, actions).threads == threads && OneAtATime(ENV, actions)
    requires 2 in threads && threads[2] == Thread(1, Parked(Waiting())) && Alone(threads, 2, 1)
    requires Sees(After(ENV, actions).shared, 1, w, DEADLINE, {"g"}) && w.states.Keys == {"g"}
    requires Tokens.Outstanding(After(ENV, actions).shared, RunToken("tB"), "g")
    ensures After(ENV, longer).shared.clock == DEADLINE && OneAtATime(ENV, longer)
    ensures Tokens.Outstanding(After(ENV, longer).shared, RunToken("tA"), "g")
    ensures Tokens.Outstanding(After(ENV, longer).shared, RunToken("tB"), "g")
    ensures MadeIn(After(ENV, longer), "tA", 1) && Elsewhere(actions, longer, Client(2, 1, "tA"))
    ensures After(ENV, longer).threads == threads[2 := Thread(1, Submitting(Waiting(), GATEWAY, true, PrepareAttempt))]
  {
    hide Sees, Leads, After, Parked, OneAtATime;
    var x := Client(2, 1, "tA");
    var s3 := After(ENV, actions).shared;
    var s4 := ResumeAlone(x, s3, w);
    var s5 := GrantAlone(x, s4, w.(states := map["g" := Reopened()], snapshot := Resumed()));
    var granted := Submitting(Waiting(), GATEWAY, true, PrepareAttempt);
    Chain(x, s3, Parked(Waiting()), s4, Choosing(Waiting(), Resumed()), s5, granted);
    longer := Extend(x, actions, Parked(Waiting()), s5, granted);
    StoredIsOutstanding(longer, RunToken("tA"));
    ParkedIsMinted(actions);
    MadeHere(actions, longer, x);
  }

  lemma ServedIsOutstanding(actions: seq<Action>, w: World)
    requires Sees(After(ENV, actions).shared, 0, w, DEADLINE, {}) && w.states.Keys == {"g"}
    requires w.states["g"].probes == [RunToken("tB")]
    ensures Tokens.Outstanding(After(ENV, actions).shared, RunToken("tB"), "g")
    ensures "tB" in After(ENV, actions).shared.minted
  {
    hide After;
    assert RunToken("tB") in w.states["g"].probes;
    StoredIsOutstanding(actions, RunToken("tB"));
  }

  /** Two probes of different requests, made in different processes, are under way on g: each
      has its own token, granted there, unreleased, and unexpired by the clock; and the run
      never has two calls under way in one process. */
  ghost predicate Overrun(actions: seq<Action>, p: Probe, q: Probe) {
    var all := After(ENV, actions);
    var s := all.shared;
    && OneAtATime(ENV, actions)
    && p.transactionId != q.transactionId
    && Tokens.Outstanding(s, p, "g") && p.Active(UnixMilli(s.clock))
    && Tokens.Outstanding(s, q, "g") && q.Active(UnixMilli(s.clock))
    && MadeIn(all, p.transactionId, 1) && MadeIn(all, q.transactionId, 0)
  }

  /** Request B is served in the first process while request A is parked. */
  lemma ServedMeanwhile(actions: seq<Action>, threads: map<nat, Thread>, w: World)
    returns (longer: seq<Action>, w': World)
    requires Scene(actions, threads, {"t0", "tA"}, w, DEADLINE) && 3 !in threads && Alone(threads, 3, 0)
    requires w.states == map["g" := TRIPPED] && w.snapshot.expiresAt == Some(ROUTING_TTL)
    requires w.summaries.Keys == {"a"} && w.txns.Keys == {"t0"}
    ensures Scene(longer, threads[3 := Thread(0, Stopped)], {"t0", "tA", "tB"}, w', DEADLINE) && w'.states.Keys == {"g"}
    ensures Tokens.Outstanding(After(ENV, longer).shared, RunToken("tB"), "g")
    ensures MadeIn(After(ENV, longer), "tB", 0) && Elsewhere(actions, longer, Client(3, 0, "tB"))
  {
    hide Sees, After, Initiate, OneAtATime, Tokens.Outstanding, Elsewhere;
    longer := Serve(actions, threads, {"t0", "tA"}, 3, "c", "tB", w, DEADLINE);
    assert {"t0", "tA"} + {"tB"} == {"t0", "tA", "tB"};
    ProbeInitiate(w);
    w' := Initiate(w, At(DEADLINE), Requested("c", "tB")).0;
    ServedIsOutstanding(longer, w');
    MadeHere(actions, longer, Client(3, 0, "tB"));
  }

  /** Request A parks in the second process, request B is served in the first, request A resumes. */
  lemma Interrupted(opening: seq<Action>, threads: map<nat, Thread>, w: World) returns (actions: seq<Action>)
    requires Scene(opening, threads, {"t0"}, w, DEADLINE) && threads.Keys == {0, 1}
    requires forall t :: t in threads ==> threads[t].replica == 0 && Rests(threads[t].pc)
    requires w.states == map["g" := TRIPPED] && w.snapshot.expiresAt == Some(ROUTING_TTL)
    requires w.summaries.Keys == {"a"} && w.txns.Keys == {"t0"}
    requires ReplicaOf(After(ENV, opening).shared, 1) == NEW_REPLICA
    ensures Overrun(actions, RunToken("tA"), RunToken("tB"))
  {
    hide Sees, After, Parked, OneAtATime, Tokens.Outstanding, MadeIn, MintsOnly;
    var a2 := Park(opening, threads, w);
    var s1 := After(ENV, a2).shared;
    var parked := threads[2 := Thread(1, Parked(Waiting()))];
    var a3, w3 := ServedMeanwhile(a2, parked, w);
    SecondIsStale(s1, After(ENV, a3).shared, SeenFrom(w, NEW_REPLICA), w3);
    actions := SecondGrant(a3, parked[3 := Thread(0, Stopped)], SeenFrom(w3, ReplicaOf(s1, 1)));
    OutstandingIsMinted(actions, RunToken("tB"));
    StillMade(a3, actions, Client(2, 1, "tA"), "tB", 0);
  }

  lemma OutstandingIsMinted(actions: seq<Action>, p: Probe)
    requires Tokens.Outstanding(After(ENV, actions).shared, p, "g")
    ensures p.transactionId in After(ENV, actions).shared.minted
  {
    Environment();
    Safety.AlwaysInv(ENV, actions);
    hide After;
    assert Tokens.ReleasesOk(After(ENV, actions).shared);
  }

  /** The configured bound holds for every stored list, but not for the probes under way: one
      is configured, and in a run of two processes, each working on one call at a time, two
      are under way. */
  lemma MoreProbesThanConfigured()
    ensures ENV.Routing().halfOpenProbeCount == 1 && ENV.Routing().Usable()
    ensures exists actions, p, q :: Overrun(actions, p, q) && |AllUnderWay(After(ENV, actions).shared, "g")| > 1
  {
    hide Sees, After, OneAtATime;
    Environment();
    var opening, w := Opening();
    var actions := Interrupted(opening, After(ENV, opening).threads, w);
    TwoAreUnderWay(actions, RunToken("tA"), RunToken("tB"));
  }

  lemma TwoAreUnderWay(actions: seq<Action>, p: Probe, q: Probe)
    requires Overrun(actions, p, q)
    ensures |AllUnderWay(After(ENV, actions).shared, "g")| > 1
  {
    hide After, OneAtATime;
    var s := After(ENV, actions).shared;
    var all := AllUnderWay(s, "g");
    assert TokenOf(s, p.transactionId) == p && TokenOf(s, q.transactionId) == q;
    assert {p.transactionId, q.transactionId} <= all;
    Smaller({p.transactionId, q.transactionId}, all);
  }

  lemma Smaller(a: set<string>, b: set<string>)
    requires a <= b
    ensures |a| <= |b|
  {
    assert b == a + (b - a);
  }
}
