/** Runs of two processes over one store, staged call by call. */
module InterleavingScenes {
  import opened Domain
  import opened Reference
  import opened Interleaving
  import opened InterleavingAlone
  import opened InterleavingRuns
  import opened Scenario

  const ENV := Env(CONFIG, 500 * MILLISECOND, ROUTING_TTL)

  lemma Environment()
    ensures ENV.Routing() == CONFIG.routing && ENV.Gateways() == [GATEWAY] && CONFIG.routing.Usable()
  {
    Configured();
  }

  /** The run so far: the threads, the ids in use, the world replica 0 sees, and that no replica
      has worked on two calls at once. */
  ghost predicate Scene(actions: seq<Action>, threads: map<nat, Thread>, ids: set<string>, w: World, c: Time) {
    && After(ENV, actions).threads == threads
    && After(ENV, actions).shared.minted.Keys <= ids
    && Sees(After(ENV, actions).shared, 0, w, c, {})
    && OneAtATime(ENV, actions)
  }

  /** The caller of thread t in replica r, whose clients all exist and accept. */
  function Client(t: nat, r: nat, id: string): Caller {
    Caller(ENV, t, r, Choice(id, true, true))
  }

  /** What the calls of one replica leave alone. */
  ghost predicate Elsewhere(actions: seq<Action>, actions': seq<Action>, x: Caller) {
    && MintsOnly(After(ENV, actions).shared, After(ENV, actions').shared, x)
    && forall q: nat :: q != x.replica ==>
         ReplicaOf(After(ENV, actions').shared, q) == ReplicaOf(After(ENV, actions).shared, q)
  }

  /** A request made and served by replica 0 without interruption. */
  lemma Serve(
      actions: seq<Action>, threads: map<nat, Thread>, ids: set<string>, t: nat, o: string, id: string, w: World,
      c: Time)
    returns (actions': seq<Action>)
    requires Scene(actions, threads, ids, w, c) && t !in threads && id !in ids && Alone(threads, t, 0)
    ensures actions <= actions' && Elsewhere(actions, actions', Client(t, 0, id))
    ensures Scene(actions', threads[t := Thread(0, Stopped)], ids + {id}, Initiate(w, At(c), Requested(o, id)).0, c)
  {
    hide Sees, Leads, Initiate, After, Start, OneAtATime;
    var x := Client(t, 0, id);
    var arrived := Enter(ENV, actions, t, 0, InitiateCall(o));
    StartOf(o, CallbackInput("", "", "", Pending));
    var s' := InitiateAlone(x, After(ENV, arrived).shared, o, w, c);
    SameAnswers(x, o, id);
    actions' := Extend(x, arrived, Begin(o), s', Stopped);
  }

  lemma SameAnswers(x: Caller, o: string, id: string)
    requires x.choice.registered && x.choice.accepted
    ensures InitiateInput(o, id, (g: string) => x.choice.registered, x.choice.accepted) == Requested(o, id)
  {
    assert ((g: string) => x.choice.registered) == ((g: string) => true);
  }

  lemma StartOf(o: string, input: CallbackInput)
    ensures Start(InitiateCall(o)) == Begin(o) && Start(CallbackCall(input)) == Receiving(input)
  {
  }

  /** A callback received and finished by replica 0 without interruption. */
  lemma Report(
      actions: seq<Action>, threads: map<nat, Thread>, ids: set<string>, t: nat, input: CallbackInput, w: World,
      c: Time)
    returns (actions': seq<Action>, pc: Pc)
    requires Scene(actions, threads, ids, w, c) && t !in threads && input.transactionId in ids && Alone(threads, t, 0)
    ensures actions <= actions' && Elsewhere(actions, actions', Client(t, 0, input.transactionId))
    ensures Scene(actions', threads[t := Thread(0, pc)], ids, Callback(w, At(c), input).0, c) && Rests(pc)
  {
    hide Callback, Leads, Start, Sees, After, OneAtATime;
    var x := Client(t, 0, input.transactionId);
    var arrived := Enter(ENV, actions, t, 0, CallbackCall(input));
    StartOf("", input);
    var s', pc' := CallbackAlone(x, After(ENV, arrived).shared, input, w, c);
    actions' := Extend(x, arrived, Receiving(input), s', pc');
    pc := pc';
  }

  lemma EmptyScene()
    ensures Scene([], map[], {}, EMPTY_WORLD, 0)
    ensures ReplicaOf(After(ENV, []).shared, 1) == NEW_REPLICA
  {
    var none: seq<Action> := [];
    assert forall k :: 0 <= k <= |none| ==> none[..k] == none;
  }

  /** The same store, seen from a replica with the given counter and snapshot. */
  function SeenFrom(w: World, replica: Replica): World {
    w.(counter := replica.counter, snapshot := replica.snapshot)
  }

  lemma SeesReplica(s: Shared, r: nat, w: World, c: Time)
    requires Sees(s, r, w, c, {})
    ensures w.counter == ReplicaOf(s, r).counter && w.snapshot == ReplicaOf(s, r).snapshot
  {
  }

  lemma NewReplicaSees(s: Shared, w: World, c: Time)
    requires Sees(s, 0, w, c, {}) && ReplicaOf(s, 1) == NEW_REPLICA
    ensures Sees(s, 1, SeenFrom(w, NEW_REPLICA), c, {})
  {
  }

  /** Replica 1 has worked without touching a gateway's state: replica 0 still sees its own. */
  lemma FirstStillSees(s: Shared, s': Shared, w: World, w': World, c: Time)
    requires Sees(s, 0, w, c, {}) && Sees(s', 1, w', c, {}) && w'.states == w.states
    requires ReplicaOf(s', 0) == ReplicaOf(s, 0)
    ensures Sees(s', 0, SeenFrom(w', ReplicaOf(s, 0)), c, {})
  {
  }
}
