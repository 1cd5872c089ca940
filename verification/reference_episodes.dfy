/** The configured probe count in the sequential machine: over any run, the live tokens of a
    gateway are exactly the unexpired probes it was granted since it last became half-open. */
module ReferenceEpisodes {
  import opened Domain
  import opened Breaker
  import opened Reference
  import opened Quiet
  import opened ReferenceInvariant
  import opened ReferenceTheorems

  datatype ProbeGrant = ProbeGrant(gateway: string, token: Probe)

  /** The probe an operation is granted, if it is an Initiate that selects one and succeeds;
      the expiry counts from the last reading of the selection. */
  function GrantOf(w: World, s: Setup, op: Operation): Option<ProbeGrant> {
    match op
    case InitiateOp(input) =>
      var (w1, selected) := SelectGateway(w, s, input.transactionId, Excluded(w, input.orderId));
      if selected.Ok? && selected.value.halfOpenProbe && Initiate(w, s, input).1.Ok?
      then Some(ProbeGrant(selected.value.gateway.name,
                        Probe(input.transactionId, UnixMilli(Latest(s, w1.ticks) + s.Routing().ProbeTimeout()))))
      else None
    case _ => None
  }

  /** The probes granted on g since it last became half-open; none while it is not. */
  function Episode(w: World, s: Setup, ops: seq<Operation>, g: string): set<Probe> {
    if ops == [] then {}
    else
      var rest, op := ops[..|ops| - 1], ops[|ops| - 1];
      var grant := GrantOf(Run(w, s, rest), s, op);
      if StateOf(Run(w, s, ops).states, g).phase != HalfOpen then {}
      else if grant.Some? && grant.value.gateway == g then Episode(w, s, rest, g) + {grant.value.token}
      else Episode(w, s, rest, g)
  }

  // ---------------------------------------------------------------- one operation

  /** What becomes of g's tokens that are still active at hi: in the half-open phase they are
      the old ones and the one granted, in any other there are none. */
  ghost predicate Carries(a: RuntimeState, b: RuntimeState, grant: Option<Probe>, hi: Time) {
    forall p: Probe :: p.Active(UnixMilli(hi)) ==>
      (p in b.probes <==> b.phase == HalfOpen && (p in a.probes || grant == Some(p)))
  }

  lemma QuietCarries(a: States, b: States, s: Setup, g: string, hi: Time, later: Time)
    requires QuietStep(a, b, Max(s), hi) && AllWellFormed(a, Max(s)) && hi <= later
    ensures Carries(StateOf(a, g), StateOf(b, g), None, later)
  {
    if g in b {
      assert QuietState(StateOf(a, g), b[g], hi);
      UnixMilliMonotone(hi, later);
      LiveMembers(StateOf(a, g).probes, UnixMilli(later));
      LiveMembers(b[g].probes, UnixMilli(later));
    }
  }

  /** On the gateway that grants, the quiet steps before and the acquisition together. */
  lemma GrantCarries(
      a: States, mid: States, b: States, s: Setup, h: string, tx: string, now: Time, later: Time, g: string)
    requires QuietStep(a, mid, Max(s), now) && AllWellFormed(a, Max(s)) && Granted(mid, b, s, h, tx, now)
             && now <= later
    ensures Carries(StateOf(a, g), StateOf(b, g),
                    if g == h then Some(Probe(tx, UnixMilli(now + s.Routing().ProbeTimeout()))) else None, later)
  {
    QuietCarries(a, mid, s, g, now, later);
    UnixMilliMonotone(now, later);
    LiveMembers(mid[h].probes, UnixMilli(now));
  }

  lemma SubmittedStates(w: World, s: Setup, input: InitiateInput, selection: Selection)
    ensures Submit(w, s, input, selection).1.Ok? ==> Submit(w, s, input, selection).0.states == w.states
    ensures Submit(w, s, input, selection).0.ticks >= w.ticks
  {
  }

  function TokenFor(grant: Option<ProbeGrant>, g: string): Option<Probe> {
    if grant.Some? && grant.value.gateway == g then Some(grant.value.token) else None
  }

  lemma InitiateCarries(w: World, s: Setup, input: InitiateInput, g: string)
    requires Sane(s) && Inv(w, s) && input.transactionId !in w.txns
    ensures var w' := Initiate(w, s, input).0;
            Carries(StateOf(w.states, g), StateOf(w'.states, g), TokenFor(GrantOf(w, s, InitiateOp(input)), g),
                    Latest(s, w'.ticks))
  {
    hide QuietStep, Carries, SelectGateway, SnapshotOk, TokensPending, Counted, LogOk, AllWellFormed;
    var excluded := Excluded(w, input.orderId);
    var (w1, selected) := SelectGateway(w, s, input.transactionId, excluded);
    var (w', res) := Initiate(w, s, input);
    InitiateKeeps(w, s, input);
    if res.Err? {
      QuietCarries(w.states, w'.states, s, g, s.at(w'.ticks - 1), Latest(s, w'.ticks));
    } else {
      SelectGatewayKeeps(w, s, input.transactionId, excluded);
      SubmittedStates(w1, s, input, selected.value);
      LatestGrows(s, w1.ticks, w'.ticks);
      var mid := TakeSnapshot(w, s).0.states;
      if selected.value.halfOpenProbe {
        GrantCarries(w.states, mid, w1.states, s, selected.value.gateway.name, input.transactionId, s.at(w1.ticks - 1),
                     Latest(s, w'.ticks), g);
      } else {
        QuietCarries(w.states, w1.states, s, g, s.at(w1.ticks - 1), Latest(s, w'.ticks));
      }
    }
  }

  /** A callback that finds a live token of its transaction ends the episode; any other leaves
      the live tokens of a half-open gateway alone. */
  lemma OutcomeCarries(
      st: RuntimeState, g: string, stats: Stats, tx: string, status: Status, r: RoutingConfig, now: Time, later: Time)
    requires WellFormed(st, g, r.halfOpenProbeCount) && status.IsFinal() && now <= later
    ensures Carries(st, Outcome(st, stats, tx, status, r, now), None, later)
  {
    UnixMilliMonotone(now, later);
    var live := Live(st.probes, UnixMilli(now));
    LiveMembers(st.probes, UnixMilli(now));
    WithoutMembers(live, tx);
  }

  lemma CompletionCarries(w: World, s: Setup, input: CallbackInput, h: string, g: string)
    requires Sane(s) && Inv(w, s) && Completes(w, input, h)
    ensures var w' := Callback(w, s, input).0;
            Carries(StateOf(w.states, g), StateOf(w'.states, g), None, Latest(s, w'.ticks))
  {
    hide Carries, Outcome, WindowStats;
    CompletingCallback(w, s, input, h);
    var w' := Callback(w, s, input).0;
    var r, now := s.Routing(), s.at(w.ticks + 1);
    var stats := WindowStats(w'.events, r, h, now);
    var st := Ensured(w.states, h, now)[h];
    assert w'.states == OutcomeFor(w.states, stats, r, h, input.transactionId, input.status, now);
    if g == h {
      OutcomeCarries(st, h, stats, input.transactionId, input.status, r, now, Latest(s, w'.ticks));
      FreshCarries(StateOf(w.states, g), st, StateOf(w'.states, g), Latest(s, w'.ticks));
    } else {
      SameCarries(StateOf(w.states, g), g, Max(s), Latest(s, w'.ticks));
    }
  }

  lemma SameCarries(st: RuntimeState, g: string, max: int, hi: Time)
    requires WellFormed(st, g, max)
    ensures Carries(st, st, None, hi)
  {
  }

  lemma FreshCarries(a: RuntimeState, a': RuntimeState, b: RuntimeState, hi: Time)
    requires Carries(a', b, None, hi) && a.probes == a'.probes
    ensures Carries(a, b, None, hi)
  {
  }

  lemma CallbackCarries(w: World, s: Setup, input: CallbackInput, g: string)
    requires Sane(s) && Inv(w, s)
    ensures var w' := Callback(w, s, input).0;
            Carries(StateOf(w.states, g), StateOf(w'.states, g), None, Latest(s, w'.ticks))
  {
    hide Carries, QuietStep, Callback;
    var w', id := Callback(w, s, input).0, input.transactionId;
    if id in w.txns && Completes(w, input, w.txns[id].gateway) {
      CompletionCarries(w, s, input, w.txns[id].gateway, g);
    } else {
      OtherCallback(w, s, input);
      CallbackReads(w, s, input);
      if w'.states == w.states {
        SameCarries(StateOf(w.states, g), g, Max(s), Latest(s, w'.ticks));
      } else {
        InspectIsQuiet(w.states, w.txns[id].gateway, Max(s), s.at(w.ticks + 1));
        QuietCarries(w.states, w'.states, s, g, s.at(w.ticks + 1), Latest(s, w'.ticks));
      }
    }
  }

  lemma CallbackReads(w: World, s: Setup, input: CallbackInput)
    ensures var w' := Callback(w, s, input).0;
            w'.ticks >= w.ticks && (w'.states != w.states ==> w'.ticks >= w.ticks + 2)
  {
  }

  lemma PerformCarries(w: World, s: Setup, op: Operation, g: string)
    requires Sane(s) && Inv(w, s) && Admissible(w, op)
    ensures var w' := Perform(w, s, op);
            Carries(StateOf(w.states, g), StateOf(w'.states, g), TokenFor(GrantOf(w, s, op), g), Latest(s, w'.ticks))
  {
    hide Carries, QuietStep, Initiate, Callback, SelectGateway, Inv;
    match op
    case InitiateOp(input) => InitiateCarries(w, s, input, g);
    case CallbackOp(input) => CallbackCarries(w, s, input, g);
    case ObserveOp(h) =>
      ObserveKeeps(w, s, h);
      WellFormedStates(w, s);
      QuietCarries(w.states, Perform(w, s, op).states, s, g, s.at(w.ticks), Latest(s, w.ticks + 2));
  }

  lemma WellFormedStates(w: World, s: Setup)
    requires Inv(w, s)
    ensures AllWellFormed(w.states, Max(s))
  {
  }

  // ---------------------------------------------------------------- runs

  /** In every run from the empty world: a token unexpired at the latest reading is in g's list
      if and only if it was granted since g last became half-open. */
  lemma {:induction false} LiveTokensAreTheEpisode(s: Setup, ops: seq<Operation>, g: string, p: Probe)
    requires Sane(s) && FreshIds(EMPTY_WORLD, s, ops)
    requires p.Active(UnixMilli(Latest(s, Run(EMPTY_WORLD, s, ops).ticks)))
    ensures p in StateOf(Run(EMPTY_WORLD, s, ops).states, g).probes <==> p in Episode(EMPTY_WORLD, s, ops, g)
  {
    hide Perform, Inv, GrantOf;
    if ops != [] {
      var rest, op := ops[..|ops| - 1], ops[|ops| - 1];
      var w := Run(EMPTY_WORLD, s, rest);
      FreshPrefix(EMPTY_WORLD, s, ops);
      EmptyWorldIsOk(s);
      RunKeeps(EMPTY_WORLD, s, rest);
      PerformKeeps(w, s, op);
      LatestGrows(s, w.ticks, Perform(w, s, op).ticks);
      UnixMilliMonotone(Latest(s, w.ticks), Latest(s, Perform(w, s, op).ticks));
      LiveTokensAreTheEpisode(s, rest, g, p);
      PerformCarries(w, s, op, g);
      WellFormedStates(w, s);
      assert Run(EMPTY_WORLD, s, ops) == Perform(w, s, op);
    }
  }

  /** So in the sequential machine the configured count is enforced: the unexpired probes
      granted since g last became half-open are as many as its live tokens, at most the
      configured number. */
  lemma EpisodeIsBounded(s: Setup, ops: seq<Operation>, g: string)
    requires Sane(s) && FreshIds(EMPTY_WORLD, s, ops)
    ensures var w := Run(EMPTY_WORLD, s, ops);
            var now := UnixMilli(Latest(s, w.ticks));
            var granted := set p | p in Episode(EMPTY_WORLD, s, ops, g) && p.Active(now);
            |granted| == |Live(StateOf(w.states, g).probes, now)| <= s.Routing().halfOpenProbeCount
  {
    EmptyWorldIsOk(s);
    RunKeeps(EMPTY_WORLD, s, ops);
    var w := Run(EMPTY_WORLD, s, ops);
    var now := UnixMilli(Latest(s, w.ticks));
    var granted := set p | p in Episode(EMPTY_WORLD, s, ops, g) && p.Active(now);
    var probes := StateOf(w.states, g).probes;
    forall p: Probe | p.Active(now)
      ensures p in probes <==> p in Episode(EMPTY_WORLD, s, ops, g)
    {
      LiveTokensAreTheEpisode(s, ops, g, p);
    }
    WellFormedStates(w, s);
    LiveMembers(probes, now);
    LiveKeepsDistinct(probes, now);
    DistinctTokensCount(Live(probes, now));
    assert granted == Tokens(Live(probes, now));
  }
}
