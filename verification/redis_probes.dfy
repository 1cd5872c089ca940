/** The three probe scripts of the Redis health repository, and their lock-step simulation by
    the memory repository's functions. */
module RedisProbes {
  import opened Domain
  import opened Breaker

  /** The stored JSON document: an empty probe list is stored as an absent field. */
  datatype Doc = Doc(
    gateway: string, phase: Phase, unhealthyUntil: Option<Time>,
    inFlight: int, probes: Option<seq<Probe>>, updatedAt: Time)

  function ProbesOf(d: Doc): seq<Probe> {
    if d.probes.Some? then d.probes.value else []
  }

  function Encoded(ps: seq<Probe>): Option<seq<Probe>> {
    if ps == [] then None else Some(ps)
  }

  function Decode(d: Doc): RuntimeState {
    RuntimeState(d.gateway, d.phase, d.unhealthyUntil, d.inFlight, ProbesOf(d), d.updatedAt)
  }

  function Encode(s: RuntimeState): Doc {
    Doc(s.gateway, s.phase, s.unhealthyUntil, s.inFlight, Encoded(s.probes), s.updatedAt)
  }

  /** The scripts' filter: in Lua an empty transaction id is as truthy as any other. */
  function ScriptLive(ps: seq<Probe>, nowMilli: int): seq<Probe> {
    if ps == [] then []
    else
      var rest, last := ps[..|ps| - 1], ps[|ps| - 1];
      if last.expiresAtMilli > nowMilli then ScriptLive(rest, nowMilli) + [last] else ScriptLive(rest, nowMilli)
  }

  /** The release script's single pass: live tokens other than tx. */
  function ScriptKept(ps: seq<Probe>, tx: string, nowMilli: int): seq<Probe> {
    if ps == [] then []
    else
      var rest, last := ps[..|ps| - 1], ps[|ps| - 1];
      if last.expiresAtMilli > nowMilli && last.transactionId != tx
      then ScriptKept(rest, tx, nowMilli) + [last] else ScriptKept(rest, tx, nowMilli)
  }

  predicate ScriptFound(ps: seq<Probe>, tx: string, nowMilli: int) {
    exists p :: p in ps && p.transactionId == tx && p.expiresAtMilli > nowMilli
  }

  function ScriptPrune(d: Doc, now: Time): Doc {
    if d.phase != HalfOpen then d
    else
      var active := ScriptLive(ProbesOf(d), UnixMilli(now));
      d.(probes := Encoded(active), inFlight := |active|, updatedAt := now)
  }

  function ScriptAcquire(d: Doc, tx: string, max: int, expiresAt: Time, now: Time): (Doc, bool) {
    if d.phase != HalfOpen then (d, false)
    else
      var active := ScriptLive(ProbesOf(d), UnixMilli(now));
      if |active| >= max then (d.(probes := Encoded(active), inFlight := |active|, updatedAt := now), false)
      else
        var grown := active + [Probe(tx, UnixMilli(expiresAt))];
        (d.(probes := Some(grown), inFlight := |grown|, updatedAt := now), true)
  }

  function ScriptRelease(d: Doc, tx: string, now: Time): (Doc, bool) {
    if d.phase != HalfOpen then (d, false)
    else
      var active := ScriptKept(ProbesOf(d), tx, UnixMilli(now));
      (d.(probes := Encoded(active), inFlight := |active|, updatedAt := now),
       ScriptFound(ProbesOf(d), tx, UnixMilli(now)))
  }

  // ---------------------------------------------------------------- agreement of the filters

  predicate NamedTokens(ps: seq<Probe>) {
    forall p :: p in ps ==> p.transactionId != ""
  }

  lemma {:induction false} FiltersAgree(ps: seq<Probe>, tx: string, m: int)
    requires NamedTokens(ps)
    ensures ScriptLive(ps, m) == Live(ps, m)
    ensures ScriptKept(ps, tx, m) == Without(Live(ps, m), tx)
    ensures ScriptFound(ps, tx, m) == Holds(Live(ps, m), tx)
  {
    LiveMembers(ps, m);
    if ps != [] {
      var rest, last := ps[..|ps| - 1], ps[|ps| - 1];
      assert last in ps && forall p :: p in rest ==> p in ps;
      FiltersAgree(rest, tx, m);
      if last.expiresAtMilli > m {
        WithoutAppend(Live(rest, m), last, tx);
      }
    }
  }

  lemma {:induction false} ScriptLiveMembers(ps: seq<Probe>, m: int)
    ensures forall p :: p in ScriptLive(ps, m) <==> p in ps && p.expiresAtMilli > m
  {
    if ps != [] {
      var rest, last := ps[..|ps| - 1], ps[|ps| - 1];
      ScriptLiveMembers(rest, m);
      assert ps == rest + [last];
    }
  }

  function Undated(s: RuntimeState): RuntimeState {
    s.(updatedAt := 0)
  }

  /** Without the condition on ids the backends part: from the same half-open state, pruning
      agrees exactly when no unexpired token has an empty id. */
  lemma PruneAgreesExactlyWhenNamed(d: Doc, now: Time)
    requires d.phase == HalfOpen
    ensures Undated(Decode(ScriptPrune(d, now))) == Undated(Prune(Decode(d), now))
       <==> forall p :: p in ProbesOf(d) && p.expiresAtMilli > UnixMilli(now) ==> p.transactionId != ""
  {
    var ps, m := ProbesOf(d), UnixMilli(now);
    LiveMembers(ps, m);
    ScriptLiveMembers(ps, m);
    assert ProbesOf(ScriptPrune(d, now)) == ScriptLive(ps, m);
    if p :| p in ps && p.expiresAtMilli > m && p.transactionId == "" {
      assert p in ScriptLive(ps, m) && p !in Live(ps, m);
    } else {
      NamedLiveAgree(ps, m);
    }
  }

  lemma {:induction false} NamedLiveAgree(ps: seq<Probe>, m: int)
    requires forall p :: p in ps && p.expiresAtMilli > m ==> p.transactionId != ""
    ensures ScriptLive(ps, m) == Live(ps, m)
  {
    if ps != [] {
      var rest, last := ps[..|ps| - 1], ps[|ps| - 1];
      assert last in ps && forall p :: p in rest ==> p in ps;
      NamedLiveAgree(rest, m);
    }
  }

  // ---------------------------------------------------------------- lock-step simulation

  datatype Call =
    | EnsureCall(gateway: string, now: Time)
    | GetCall(gateway: string)
    | SaveCall(gateway: string, state: RuntimeState)
    | PruneCall(gateway: string, now: Time)
    | AcquireCall(gateway: string, tx: string, max: int, expiresAt: Time, now: Time)
    | ReleaseCall(gateway: string, tx: string, now: Time)

  /** What the caller learns: nothing, not found, or the state (without its date) and the verdict. */
  datatype Reply = Done | Missing | Reply(state: RuntimeState, granted: bool)

  function MemoryStep(states: map<string, RuntimeState>, c: Call): (map<string, RuntimeState>, Reply) {
    if c.EnsureCall? then
      (if c.gateway in states then states else states[c.gateway := Breaker.Fresh(c.gateway, c.now)], Done)
    else if c.SaveCall? then (states[c.gateway := c.state], Done)
    else if c.gateway !in states then (states, Missing)
    else
      var s := states[c.gateway];
      var (t, granted) :=
        match c
        case GetCall(_) => (s, false)
        case PruneCall(_, now) => (Prune(s, now), false)
        case AcquireCall(_, tx, max, expiresAt, now) => Acquire(s, tx, max, expiresAt, now)
        case ReleaseCall(_, tx, now) => Release(s, tx, now);
      (states[c.gateway := t], Reply(Undated(t), granted))
  }

  function RedisStep(docs: map<string, Doc>, c: Call): (map<string, Doc>, Reply) {
    if c.EnsureCall? then
      (if c.gateway in docs then docs else docs[c.gateway := Encode(Breaker.Fresh(c.gateway, c.now))], Done)
    else if c.SaveCall? then (docs[c.gateway := Encode(c.state)], Done)
    else if c.gateway !in docs then (docs, Missing)
    else
      var d := docs[c.gateway];
      var (e, granted) :=
        match c
        case GetCall(_) => (d, false)
        case PruneCall(_, now) => (ScriptPrune(d, now), false)
        case AcquireCall(_, tx, max, expiresAt, now) => ScriptAcquire(d, tx, max, expiresAt, now)
        case ReleaseCall(_, tx, now) => ScriptRelease(d, tx, now);
      (docs[c.gateway := e], Reply(Undated(Decode(e)), granted))
  }

  ghost predicate SameButDates(s: RuntimeState, d: Doc) {
    Undated(s) == Undated(Decode(d)) && NamedTokens(s.probes)
  }

  ghost predicate Related(states: map<string, RuntimeState>, docs: map<string, Doc>) {
    states.Keys == docs.Keys && forall g :: g in states ==> SameButDates(states[g], docs[g])
  }

  lemma StepsCorrespond(s: RuntimeState, d: Doc, tx: string, max: int, expiresAt: Time, now: Time)
    requires SameButDates(s, d)
    ensures SameButDates(Prune(s, now), ScriptPrune(d, now))
    ensures Acquire(s, tx, max, expiresAt, now).1 == ScriptAcquire(d, tx, max, expiresAt, now).1
    ensures tx != "" ==> SameButDates(Acquire(s, tx, max, expiresAt, now).0,
                                      ScriptAcquire(d, tx, max, expiresAt, now).0)
    ensures Release(s, tx, now).1 == ScriptRelease(d, tx, now).1
    ensures SameButDates(Release(s, tx, now).0, ScriptRelease(d, tx, now).0)
  {
    var ps, m := s.probes, UnixMilli(now);
    assert ps == ProbesOf(d) && s.phase == d.phase by {
      assert Undated(s).probes == Undated(Decode(d)).probes && Undated(s).phase == Undated(Decode(d)).phase;
    }
    assert s.gateway == d.gateway && s.unhealthyUntil == d.unhealthyUntil && s.inFlight == d.inFlight by {
      assert Undated(s) == Undated(Decode(d));
    }
    FiltersAgree(ps, tx, m);
    LiveMembers(ps, m);
    WithoutMembers(Live(ps, m), tx);
  }

  function MemoryReplies(states: map<string, RuntimeState>, calls: seq<Call>): seq<Reply>
    decreases |calls|
  {
    if calls == [] then []
    else
      var (states', r) := MemoryStep(states, calls[0]);
      [r] + MemoryReplies(states', calls[1..])
  }

  function RedisReplies(docs: map<string, Doc>, calls: seq<Call>): seq<Reply>
    decreases |calls|
  {
    if calls == [] then []
    else
      var (docs', r) := RedisStep(docs, calls[0]);
      [r] + RedisReplies(docs', calls[1..])
  }

  /** The call brings no token with an empty id. */
  ghost predicate Named(c: Call) {
    && (c.AcquireCall? ==> c.tx != "")
    && (c.SaveCall? ==> NamedTokens(c.state.probes))
  }

  lemma StepSimulates(states: map<string, RuntimeState>, docs: map<string, Doc>, c: Call)
    requires Related(states, docs) && Named(c)
    ensures MemoryStep(states, c).1 == RedisStep(docs, c).1
    ensures Related(MemoryStep(states, c).0, RedisStep(docs, c).0)
  {
    if c.gateway in states && !c.EnsureCall? && !c.SaveCall? {
      var s, d := states[c.gateway], docs[c.gateway];
      match c
      case GetCall(_) =>
      case PruneCall(_, now) => StepsCorrespond(s, d, "", 0, 0, now);
      case AcquireCall(_, tx, max, expiresAt, now) => StepsCorrespond(s, d, tx, max, expiresAt, now);
      case ReleaseCall(_, tx, now) => StepsCorrespond(s, d, tx, 0, 0, now);
    }
  }

  /** From related stores, any sequence of calls with non-empty ids draws the same replies
      from both backends: the same not-found answers, token lists, in-flight counts and
      grants. */
  lemma {:induction false} ScriptsSimulateMemory(
      states: map<string, RuntimeState>, docs: map<string, Doc>, calls: seq<Call>)
    requires Related(states, docs)
    requires forall c :: c in calls ==> Named(c)
    ensures MemoryReplies(states, calls) == RedisReplies(docs, calls)
    decreases |calls|
  {
    if calls != [] {
      StepSimulates(states, docs, calls[0]);
      ScriptsSimulateMemory(MemoryStep(states, calls[0]).0, RedisStep(docs, calls[0]).0, calls[1..]);
    }
  }
}
