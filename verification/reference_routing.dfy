/** What a selection answers, told from the snapshot's lists, the weights and the counter: which
    gateway, how many counter values it takes, when a probe is granted, what a refusal leaves,
    what a rebuild lists, and how fairly consecutive answers are spread. */
module ReferenceRouting {
  import opened Domain
  import opened Breaker
  import opened Selector
  import opened Reference
  import opened Quiet
  import opened ReferenceInvariant
  import opened ReferenceTheorems
  import Blacklist
  import Transactions

  /** The weight of the candidates a request may choose from. */
  function OpenWeight(cs: seq<GatewayConfig>, excluded: set<string>): nat {
    if cs == [] then 0
    else
      var rest, last := cs[..|cs| - 1], cs[|cs| - 1];
      OpenWeight(rest, excluded) + if last.name in excluded || last.weight <= 0 then 0 else last.weight
  }

  /** The slot lies on the stretch of candidate i, among the candidates that are not excluded. */
  predicate Serves(cs: seq<GatewayConfig>, excluded: set<string>, i: nat, slot: nat) {
    && i < |cs| && cs[i].name !in excluded
    && OpenWeight(cs[..i], excluded) <= slot < OpenWeight(cs[..i + 1], excluded)
  }

  lemma {:induction false} OpenIsTotal(cs: seq<GatewayConfig>, excluded: set<string>)
    ensures OpenWeight(cs, excluded) == TotalWeight(FilterExcluded(cs, excluded))
  {
    if cs != [] {
      var rest, last := cs[..|cs| - 1], cs[|cs| - 1];
      OpenIsTotal(rest, excluded);
      TotalAppend(FilterExcluded(rest, excluded), last);
    }
  }

  lemma ServesLonger(rest: seq<GatewayConfig>, last: GatewayConfig, excluded: set<string>, i: nat, slot: nat)
    requires i < |rest|
    ensures Serves(rest + [last], excluded, i, slot) <==> Serves(rest, excluded, i, slot)
  {
    assert (rest + [last])[..i] == rest[..i] && (rest + [last])[..i + 1] == rest[..i + 1];
  }

  /** The scan picks the candidate whose stretch holds the slot. */
  lemma {:induction false} PickServes(cs: seq<GatewayConfig>, excluded: set<string>, slot: nat) returns (i: nat)
    requires slot < OpenWeight(cs, excluded)
    ensures Serves(cs, excluded, i, slot) && Pick(FilterExcluded(cs, excluded), slot) == Some(cs[i])
  {
    hide Pick;
    var rest, last := cs[..|cs| - 1], cs[|cs| - 1];
    assert cs == rest + [last];
    OpenIsTotal(rest, excluded);
    PickAppend(FilterExcluded(rest, excluded), last, slot);
    if slot < OpenWeight(rest, excluded) {
      i := PickServes(rest, excluded, slot);
      ServesLonger(rest, last, excluded, i, slot);
    } else {
      i := |rest|;
      assert cs[..i] == rest && cs[..i + 1] == cs;
    }
  }

  /** One weighted selection. */
  lemma SelectServes(counter: nat, cs: seq<GatewayConfig>, excluded: set<string>) returns (i: nat)
    ensures var (after, chosen) := Select(counter, FilterExcluded(cs, excluded));
            var open, next := OpenWeight(cs, excluded), (counter + 1) % 0x1_0000_0000_0000_0000;
            if open == 0 then after == counter && chosen == None
            else after == next && Serves(cs, excluded, i, next % open) && chosen == Some(cs[i])
  {
    hide Pick, Serves;
    OpenIsTotal(cs, excluded);
    if OpenWeight(cs, excluded) > 0 {
      i := PickServes(cs, excluded, Next(counter) % OpenWeight(cs, excluded));
    } else {
      i := 0;
    }
  }

  // ---------------------------------------------------------------- room for a probe

  /** A half-open gateway with fewer live tokens than configured. */
  ghost predicate HasRoom(state: RuntimeState, s: Setup, now: Time) {
    state.phase == HalfOpen && |LiveAt(state.probes, now)| < s.Routing().halfOpenProbeCount
  }

  lemma MarkedExactlyWhen(w: World, s: Setup, g: string, tx: string)
    requires AllWellFormed(w.states, Max(s)) && g in w.states
    ensures var (w', marked) := MarkProbe(w, s, g, tx);
            && w' == w.(states := w'.states, ticks := w.ticks + 1)
            && marked == if HasRoom(w.states[g], s, s.at(w.ticks)) then Ok(()) else Err(NoAvailableGateway)
  {
    LiveCount(w.states[g].probes, s.at(w.ticks));
  }

  // ---------------------------------------------------------------- the answer

  /** The healthy candidate whose turn it is by that counter value. */
  ghost predicate ServedHealthy(snapshot: Snapshot, excluded: set<string>, counter: nat, res: Result<Selection>) {
    && OpenWeight(snapshot.healthy, excluded) > 0
    && exists i: nat ::
         && Serves(snapshot.healthy, excluded, i, counter % OpenWeight(snapshot.healthy, excluded))
         && res == Ok(Selection(snapshot.healthy[i], false))
  }

  /** Where candidate c is offered as a probe: with room it is the answer, without it the
      snapshot is dropped and a healthy candidate, if there is one, takes another turn. */
  ghost predicate Offered(
      w: World, w1: World, s: Setup, snapshot: Snapshot, excluded: set<string>, c: GatewayConfig, w': World,
      res: Result<Selection>) {
    var once, twice := (w.counter + 1) % 0x1_0000_0000_0000_0000, (w.counter + 2) % 0x1_0000_0000_0000_0000;
    && c.name in w1.states
    && if HasRoom(w1.states[c.name], s, s.at(w1.ticks)) then
         res == Ok(Selection(c, true)) && w'.counter == once && w'.snapshot == snapshot
       else
         && w'.snapshot.expiresAt == None
         && if OpenWeight(snapshot.healthy, excluded) == 0 then res == Err(NoAvailableGateway) && w'.counter == once
            else ServedHealthy(snapshot, excluded, twice, res) && w'.counter == twice
  }

  lemma HealthyServed(w: World, snapshot: Snapshot, excluded: set<string>)
    ensures var (w', res) := SelectHealthy(w, FilterExcluded(snapshot.healthy, excluded));
            var next := (w.counter + 1) % 0x1_0000_0000_0000_0000;
            if OpenWeight(snapshot.healthy, excluded) == 0 then w' == w && res == Err(NoAvailableGateway)
            else w' == w.(counter := next) && ServedHealthy(snapshot, excluded, next, res)
  {
    hide Select, Serves, OpenWeight, FilterExcluded;
    var i := SelectServes(w.counter, snapshot.healthy, excluded);
  }

  lemma TwoTurns(counter: nat)
    ensures (Next(counter) + 1) % 0x1_0000_0000_0000_0000 == (counter + 2) % 0x1_0000_0000_0000_0000
  {
  }

  lemma NoneOpen(cs: seq<GatewayConfig>, excluded: set<string>)
    requires forall c :: c in cs ==> c.weight > 0
    ensures FilterExcluded(cs, excluded) == [] <==> OpenWeight(cs, excluded) == 0
  {
    var filtered := FilterExcluded(cs, excluded);
    OpenIsTotal(cs, excluded);
    FilterMembers(cs, excluded);
    if filtered != [] {
      assert filtered[0] in filtered;
      SomeWeight(filtered, filtered[0]);
    }
  }

  lemma ProbeOffered(w: World, w1: World, s: Setup, tx: string, snapshot: Snapshot, excluded: set<string>)
    returns (i: nat)
    requires AllWellFormed(w1.states, Max(s)) && w1.counter == w.counter && w1.snapshot == snapshot
    requires forall c :: c in snapshot.probes ==> c.name in w1.states
    requires forall c :: c in snapshot.healthy ==> c.weight > 0
    requires OpenWeight(snapshot.probes, excluded) > 0
    ensures var probes := OpenWeight(snapshot.probes, excluded);
            var (w', res) := SelectProbe(w1, s, tx, FilterExcluded(snapshot.probes, excluded),
                                         FilterExcluded(snapshot.healthy, excluded));
            && Serves(snapshot.probes, excluded, i, (w.counter + 1) % 0x1_0000_0000_0000_0000 % probes)
            && Offered(w, w1, s, snapshot, excluded, snapshot.probes[i], w', res)
  {
    hide Select, OpenWeight, FilterExcluded, HasRoom, ServedHealthy, AllWellFormed, MarkProbe, SelectHealthy;
    i := SelectServes(w1.counter, snapshot.probes, excluded);
    var w2 := w1.(counter := Next(w1.counter));
    var c := snapshot.probes[i];
    MarkedExactlyWhen(w2, s, c.name, tx);
    NoneOpen(snapshot.healthy, excluded);
    TwoTurns(w.counter);
    HealthyServed(MarkProbe(w2, s, c.name, tx).0.(snapshot := NO_SNAPSHOT), snapshot, excluded);
  }

  /** What a selection answers and what it does to the counter and the snapshot: with no
      candidate left it fails and takes no turn; with no probe candidate left it answers the
      healthy candidate whose turn it is; otherwise it offers the probe candidate whose turn
      it is. So it takes no turn, one, or, after a refusal with a healthy candidate left, two. */
  lemma SelectionByTurns(w: World, s: Setup, tx: string, excluded: set<string>)
    requires Sane(s) && Inv(w, s)
    ensures var (w1, snapshot) := TakeSnapshot(w, s);
            var (w', res) := SelectGateway(w, s, tx, excluded);
            var probes, open := OpenWeight(snapshot.probes, excluded), OpenWeight(snapshot.healthy, excluded);
            var once := (w.counter + 1) % 0x1_0000_0000_0000_0000;
            if probes > 0 then
              exists i: nat ::
                && Serves(snapshot.probes, excluded, i, once % probes)
                && Offered(w, w1, s, snapshot, excluded, snapshot.probes[i], w', res)
            else if open > 0 then ServedHealthy(snapshot, excluded, once, res) && w' == w1.(counter := once)
            else res == Err(NoAvailableGateway) && w' == w1
  {
    hide QuietStep, Inv, Select, OpenWeight, FilterExcluded, Offered, ServedHealthy, SelectProbe, SelectHealthy, Serves;
    var (w1, snapshot) := TakeSnapshot(w, s);
    TakenIsListed(w, s);
    NoneOpen(snapshot.probes, excluded);
    if OpenWeight(snapshot.probes, excluded) > 0 {
      var i := ProbeOffered(w, w1, s, tx, snapshot, excluded);
    } else {
      HealthyServed(w1, snapshot, excluded);
    }
  }

  lemma TakenIsListed(w: World, s: Setup)
    requires Sane(s) && Inv(w, s)
    ensures var (w1, snapshot) := TakeSnapshot(w, s);
            && AllWellFormed(w1.states, Max(s)) && w1.counter == w.counter && w1.snapshot == snapshot
            && (forall c :: c in snapshot.probes ==> c.name in w1.states && c.weight > 0)
            && forall c :: c in snapshot.healthy ==> c.name in w1.states && c.weight > 0
  {
    TakeSnapshotKeeps(w, s);
    var (w1, snapshot) := TakeSnapshot(w, s);
    forall c | c in snapshot.probes || c in snapshot.healthy
      ensures c.name in w1.states && c.weight > 0
    {
      assert Listed(c, snapshot, w1.states, s);
    }
  }

  // ---------------------------------------------------------------- what a rebuild lists

  lemma {:induction false} LoopNames(b: Build, s: Setup, gs: seq<GatewayConfig>, i: nat)
    requires i <= |gs| && b.healthy == [] && b.probes == [] && DistinctNames(gs)
    ensures var p := BuildPrefix(b, s, gs, i);
            && DistinctNames(p.healthy) && DistinctNames(p.probes)
            && forall c :: c in p.healthy || c in p.probes ==> c in gs[..i]
  {
    if i > 0 {
      LoopNames(b, s, gs, i - 1);
      var p := BuildPrefix(b, s, gs, i - 1);
      assert gs[..i] == gs[..i - 1] + [gs[i - 1]];
      forall c | c in p.healthy || c in p.probes
        ensures c.name != gs[i - 1].name
      {
        assert c in gs[..i - 1];
      }
    }
  }

  /** The candidates are enabled gateways with weight, in the order they are configured in. */
  ghost predicate Ordered(cs: seq<GatewayConfig>, gs: seq<GatewayConfig>) {
    && (forall c :: c in cs ==> c in gs && c.enabled && c.weight > 0)
    && (forall i, j, p, q ::
          0 <= i < j < |cs| && 0 <= p < |gs| && 0 <= q < |gs| && gs[p] == cs[i] && gs[q] == cs[j] ==> p < q)
  }

  lemma OrderedAppend(cs: seq<GatewayConfig>, gs: seq<GatewayConfig>, k: nat)
    requires Ordered(cs, gs) && DistinctNames(gs) && k < |gs| && gs[k].enabled && gs[k].weight > 0
    requires forall c :: c in cs ==> c in gs[..k]
    ensures Ordered(cs + [gs[k]], gs)
  {
    var longer := cs + [gs[k]];
    forall i, j, p, q
      | 0 <= i < j < |longer| && 0 <= p < |gs| && 0 <= q < |gs| && gs[p] == longer[i] && gs[q] == longer[j]
      ensures p < q
    {
      if j == |cs| {
        assert longer[i] in cs && q == k;
        var m :| 0 <= m < k && gs[m] == longer[i];
        assert p == m;
      } else {
        assert longer[i] == cs[i] && longer[j] == cs[j];
      }
    }
  }

  lemma {:induction false} LoopOrder(b: Build, s: Setup, gs: seq<GatewayConfig>, i: nat)
    requires i <= |gs| && b.healthy == [] && b.probes == [] && DistinctNames(gs)
    ensures Ordered(BuildPrefix(b, s, gs, i).healthy, gs) && Ordered(BuildPrefix(b, s, gs, i).probes, gs)
  {
    if i > 0 {
      hide Ordered, Prepare;
      LoopOrder(b, s, gs, i - 1);
      LoopNames(b, s, gs, i - 1);
      var p := BuildPrefix(b, s, gs, i - 1);
      if gs[i - 1].enabled && gs[i - 1].weight > 0 {
        OrderedAppend(p.healthy, gs, i - 1);
        OrderedAppend(p.probes, gs, i - 1);
      }
    }
  }

  /** What the rebuild makes of a gateway whose state before was st, at the reading now: healthy
      ones are listed as healthy; half-open ones, and unhealthy ones past their deadline, as
      probes if they have room; nothing else is listed. */
  ghost predicate ListedBy(
      healthy: seq<GatewayConfig>, probes: seq<GatewayConfig>, st: RuntimeState, c: GatewayConfig, s: Setup,
      now: Time) {
    && (c in healthy <==> st.phase == Healthy)
    && (c in probes <==>
          && (st.phase == HalfOpen
              || (st.phase == Unhealthy && st.unhealthyUntil.Some? && st.unhealthyUntil.value <= now))
          && |LiveAt(st.probes, now)| < s.Routing().halfOpenProbeCount)
  }

  /** One turn of the loop on a state that quiet steps have led to. */
  lemma TurnLists(before: RuntimeState, st: RuntimeState, g: string, s: Setup, hi: Time, now: Time)
    requires QuietState(before, st, hi) && hi <= now && WellFormed(st, g, Max(s)) && WellFormed(before, g, Max(s))
    ensures var t := Prepare(st, now);
            && (t.phase == Healthy <==> before.phase == Healthy)
            && (t.phase == HalfOpen <==>
                  || before.phase == HalfOpen
                  || (before.phase == Unhealthy && before.unhealthyUntil.Some? && before.unhealthyUntil.value <= now))
            && (t.phase == HalfOpen ==> t.inFlight == |LiveAt(before.probes, now)|)
  {
    UnixMilliMonotone(hi, now);
    LiveCount(before.probes, now);
    LiveTwice(st.probes, UnixMilli(now), UnixMilli(now));
    assert Live(st.probes, UnixMilli(now)) == Live(before.probes, UnixMilli(now));
  }

  lemma FreshIsFresh(a: States, b: States, g: string, max: int, hi: Time, now: Time)
    requires QuietStep(a, b, max, hi) && AllWellFormed(a, max) && max >= 0
    ensures var st := Ensured(b, g, now)[g];
            QuietState(StateOf(a, g), st, hi) && WellFormed(st, g, max) && WellFormed(StateOf(a, g), g, max)
  {
  }

  lemma StepLists(p: Build, a: States, s: Setup, gs: seq<GatewayConfig>, c: GatewayConfig)
    requires Sane(s) && Built(p, a, s, gs) && AllWellFormed(a, Max(s)) && Routable(c)
    requires c !in p.healthy && c !in p.probes
    ensures var b := BuildStep(p, s, c);
            b.ticks == p.ticks + 1 && ListedBy(b.healthy, b.probes, StateOf(a, c.name), c, s, s.at(p.ticks))
  {
    hide QuietStep, QuietState, Prepare, WellFormed, LiveAt;
    var now, hi := s.at(p.ticks), s.at(p.ticks - 1);
    FreshIsFresh(a, p.states, c.name, Max(s), hi, now);
    TurnLists(StateOf(a, c.name), Ensured(p.states, c.name, now)[c.name], c.name, s, hi, now);
    NoTokensOutside(StateOf(a, c.name), c.name, s);
  }

  lemma NoTokensOutside(st: RuntimeState, g: string, s: Setup)
    requires WellFormed(st, g, Max(s))
    ensures st.phase == HalfOpen || st.probes == []
  {
  }

  lemma {:induction false} LoopLists(b: Build, a: States, s: Setup, gs: seq<GatewayConfig>, i: nat, j: nat)
    returns (k: nat)
    requires j < i <= |gs| && Sane(s) && Built(b, a, s, gs) && AllWellFormed(a, Max(s)) && DistinctNames(gs)
    requires b.healthy == [] && b.probes == [] && Routable(gs[j])
    ensures var p := BuildPrefix(b, s, gs, i);
            b.ticks <= k < p.ticks && ListedBy(p.healthy, p.probes, StateOf(a, gs[j].name), gs[j], s, s.at(k))
  {
    hide QuietStep, Prepare, ListedBy, LiveAt;
    LoopInvariant(b, a, s, gs, i - 1);
    var p := BuildPrefix(b, s, gs, i - 1);
    if j == i - 1 {
      LoopNames(b, s, gs, i - 1);
      assert gs[j] !in gs[..i - 1];
      StepLists(p, a, s, gs, gs[j]);
      k := p.ticks;
    } else {
      k := LoopLists(b, a, s, gs, i - 1, j);
      OtherTurn(p, s, gs[i - 1], gs[j], StateOf(a, gs[j].name), s.at(k));
    }
  }

  lemma OtherTurn(p: Build, s: Setup, d: GatewayConfig, c: GatewayConfig, st: RuntimeState, now: Time)
    requires c != d && ListedBy(p.healthy, p.probes, st, c, s, now)
    ensures var b := BuildStep(p, s, d);
            b.ticks >= p.ticks && ListedBy(b.healthy, b.probes, st, c, s, now)
  {
    hide Prepare, LiveAt;
  }

  /** A snapshot that has not expired is used as it is. One that has is rebuilt: the new one
      holds for the routing lifetime from the reading that found the old one expired, lists
      only enabled gateways with weight, in their order, and each of those by its state and
      its live tokens at a reading of its own. */
  lemma RebuildListsExactly(w: World, s: Setup, c: GatewayConfig)
    requires Sane(s) && AllWellFormed(w.states, Max(s)) && DistinctNames(s.Gateways())
    requires c in s.Gateways() && c.enabled && c.weight > 0
    ensures var (w1, snapshot) := TakeSnapshot(w, s);
            var now := s.at(w.ticks);
            if w.snapshot.expiresAt.Some? && now < w.snapshot.expiresAt.value
            then snapshot == w.snapshot && w1 == w.(ticks := w.ticks + 1)
            else
              && snapshot.expiresAt == Some(now + s.routingTTL)
              && Ordered(snapshot.healthy, s.Gateways()) && Ordered(snapshot.probes, s.Gateways())
              && exists k: nat ::
                   && w.ticks < k < w1.ticks
                   && ListedBy(snapshot.healthy, snapshot.probes, StateOf(w.states, c.name), c, s, s.at(k))
  {
    hide QuietStep, ListedBy, Ordered;
    var gs := s.Gateways();
    var b := Build(w.states, w.ticks + 1, [], []);
    if !w.snapshot.Fresh(s.at(w.ticks)) {
      var j :| 0 <= j < |gs| && gs[j] == c;
      QuietRefl(w.states, Max(s), s.at(w.ticks));
      LoopOrder(b, s, gs, |gs|);
      var k := LoopLists(b, w.states, s, gs, |gs|, j);
    }
  }

  /** A gateway that was offered and refused is not offered again unless a rebuild finds room:
      the refusal has dropped the snapshot, so the next selection, whenever it comes, rebuilds. */
  lemma RefusedIsNotOfferedAgain(w: World, s: Setup, tx: string, excluded: set<string>, c: GatewayConfig)
    requires Sane(s) && Inv(w, s) && tx !in w.txns && DistinctNames(s.Gateways())
    requires c in s.Gateways() && c.enabled && c.weight > 0
    ensures var (w1, snapshot) := TakeSnapshot(w, s);
            var w' := SelectGateway(w, s, tx, excluded).0;
            Offered(w, w1, s, snapshot, excluded, c, w', SelectGateway(w, s, tx, excluded).1)
            && !HasRoom(w1.states[c.name], s, s.at(w1.ticks)) ==>
              exists k: nat ::
                && w'.ticks < k < TakeSnapshot(w', s).0.ticks
                && var next := TakeSnapshot(w', s).1;
                   ListedBy(next.healthy, next.probes, StateOf(w'.states, c.name), c, s, s.at(k))
  {
    hide SelectGateway, TakeSnapshot, Inv, ListedBy, HasRoom;
    var w' := SelectGateway(w, s, tx, excluded).0;
    SelectGatewayKeeps(w, s, tx, excluded);
    RebuildListsExactly(w', s, c);
  }

  // ---------------------------------------------------------------- fairness of the answers

  /** Consecutive selections by the requests txs, all with the same exclusions. */
  function Routed(w: World, s: Setup, txs: seq<string>, excluded: set<string>): (World, seq<Result<Selection>>) {
    if txs == [] then (w, [])
    else
      var (w1, answers) := Routed(w, s, txs[..|txs| - 1], excluded);
      var (w2, res) := SelectGateway(w1, s, txs[|txs| - 1], excluded);
      (w2, answers + [res])
  }

  /** Which of the answers are c, not as a probe. */
  function AnswersWith(answers: seq<Result<Selection>>, c: GatewayConfig): set<nat> {
    set j: nat | j < |answers| && answers[j] == Ok(Selection(c, false))
  }

  function AsAnswer(chosen: Option<GatewayConfig>): Result<Selection> {
    if chosen.Some? then Ok(Selection(chosen.value, false)) else Err(NoAvailableGateway)
  }

  /** One selection on an unexpired snapshot without probe candidates. */
  lemma TurnOnSnapshot(w: World, s: Setup, tx: string, excluded: set<string>)
    requires w.snapshot.Fresh(s.at(w.ticks)) && FilterExcluded(w.snapshot.probes, excluded) == []
    ensures var (counter, chosen) := Select(w.counter, FilterExcluded(w.snapshot.healthy, excluded));
            SelectGateway(w, s, tx, excluded) == (w.(counter := counter, ticks := w.ticks + 1), AsAnswer(chosen))
  {
    hide Select, FilterExcluded;
  }

  lemma {:induction false} RoutedIsSelections(w: World, s: Setup, txs: seq<string>, excluded: set<string>)
    requires Clocked(s) && FilterExcluded(w.snapshot.probes, excluded) == []
    requires txs != [] ==> w.snapshot.Fresh(s.at(w.ticks + |txs| - 1))
    ensures var cs, n := FilterExcluded(w.snapshot.healthy, excluded), |txs|;
            var (w', answers) := Routed(w, s, txs, excluded);
            && w' == w.(counter := CounterAfter(cs, w.counter, n), ticks := w.ticks + n)
            && |answers| == |Selections(cs, w.counter, n)| == n
            && forall j :: 0 <= j < n ==> answers[j] == AsAnswer(Selections(cs, w.counter, n)[j])
  {
    hide SelectGateway, FilterExcluded, Select;
    if txs != [] {
      var rest := txs[..|txs| - 1];
      assert s.at(w.ticks + |rest|) <= s.at(w.ticks + |txs| - 1);
      if rest != [] {
        assert s.at(w.ticks + |rest| - 1) <= s.at(w.ticks + |txs| - 1);
      }
      RoutedIsSelections(w, s, rest, excluded);
      TurnOnSnapshot(Routed(w, s, rest, excluded).0, s, txs[|txs| - 1], excluded);
    }
  }

  lemma {:induction false} AnswersAreOccurrences(
      answers: seq<Result<Selection>>, chosen: seq<Option<GatewayConfig>>, c: GatewayConfig)
    requires |answers| == |chosen| && forall j :: 0 <= j < |chosen| ==> answers[j] == AsAnswer(chosen[j])
    ensures |AnswersWith(answers, c)| == Occurrences(chosen, c)
  {
    if answers == [] {
      assert AnswersWith(answers, c) == {};
    } else {
      var n := |answers| - 1;
      AnswersAreOccurrences(answers[..n], chosen[..n], c);
      if chosen[n] == Some(c) {
        assert AnswersWith(answers, c) == AnswersWith(answers[..n], c) + {n};
      } else {
        assert AnswersWith(answers, c) == AnswersWith(answers[..n], c);
      }
    }
  }

  /** The router's answers are fair: over n consecutive selections on an unexpired snapshot,
      with fixed exclusions and no probe candidate left, a listed candidate of weight x among
      open weight t is answered c times with |t*c - n*x| <= x*(t - x), exactly m*x times in m
      full rounds; a stretch in which the counter wraps stays within twice the bound. */
  lemma RouterIsFair(s: Setup, ops: seq<Operation>, txs: seq<string>, excluded: set<string>, i: nat)
    requires Sane(s) && FreshIds(EMPTY_WORLD, s, ops) && DistinctNames(s.Gateways())
    requires var w := Run(EMPTY_WORLD, s, ops);
             && i < |w.snapshot.healthy| && w.snapshot.healthy[i].name !in excluded
             && (forall c :: c in w.snapshot.probes ==> c.name in excluded)
             && w.snapshot.expiresAt.Some?
             && (txs != [] ==> s.at(w.ticks + |txs| - 1) < w.snapshot.expiresAt.value)
             && |txs| <= 0x1_0000_0000_0000_0000
    ensures var w := Run(EMPTY_WORLD, s, ops);
            var candidate, answers := w.snapshot.healthy[i], Routed(w, s, txs, excluded).1;
            var t, x, n := OpenWeight(w.snapshot.healthy, excluded), candidate.weight, |txs|;
            var c := |AnswersWith(answers, candidate)|;
            && |answers| == n && 0 < x <= t
            && -(2 * (x * (t - x))) <= t * c - n * x <= 2 * (x * (t - x))
            && (w.counter + n < 0x1_0000_0000_0000_0000 ==>
                  && -(x * (t - x)) <= t * c - n * x <= x * (t - x)
                  && forall m: nat :: n == m * t ==> c == m * x)
  {
    hide Run, FreshIds, Routed, Selections, Occurrences, AnswersWith, OpenWeight, FilterExcluded, Inv;
    EmptyWorldIsOk(s);
    RunKeeps(EMPTY_WORLD, s, ops);
    RunIsOrderly(s, ops);
    var w := Run(EMPTY_WORLD, s, ops);
    FairFrom(w, s, txs, excluded, i);
  }

  lemma FairFrom(w: World, s: Setup, txs: seq<string>, excluded: set<string>, i: nat)
    requires Clocked(s) && Inv(w, s) && Orderly(w)
    requires i < |w.snapshot.healthy| && w.snapshot.healthy[i].name !in excluded
    requires forall c :: c in w.snapshot.probes ==> c.name in excluded
    requires txs != [] ==> w.snapshot.Fresh(s.at(w.ticks + |txs| - 1))
    requires |txs| <= WRAP
    ensures var candidate, answers := w.snapshot.healthy[i], Routed(w, s, txs, excluded).1;
            var t, x, n := OpenWeight(w.snapshot.healthy, excluded), candidate.weight, |txs|;
            var c := |AnswersWith(answers, candidate)|;
            && |answers| == n && 0 < x <= t
            && -(2 * (x * (t - x))) <= t * c - n * x <= 2 * (x * (t - x))
            && (w.counter + n < WRAP ==>
                  && -(x * (t - x)) <= t * c - n * x <= x * (t - x)
                  && forall m: nat :: n == m * t ==> c == m * x)
  {
    hide Routed, Selections, Occurrences, AnswersWith, OpenWeight, FilterExcluded, Inv, TotalWeight;
    var cs, candidate, n := FilterExcluded(w.snapshot.healthy, excluded), w.snapshot.healthy[i], |txs|;
    ListedAreGateways(w, s);
    OpenIsTotal(w.snapshot.healthy, excluded);
    assert FilterExcluded(w.snapshot.probes, excluded) == [] by { AllExcluded(w.snapshot.probes, excluded); }
    RoutedIsSelections(w, s, txs, excluded);
    AnswersAreOccurrences(Routed(w, s, txs, excluded).1, Selections(cs, w.counter, n), candidate);
    FilterMembers(w.snapshot.healthy, excluded);
    FilterDistinct(w.snapshot.healthy, excluded);
    var j :| 0 <= j < |cs| && cs[j] == candidate;
    SomeWeight(cs, candidate);
    SelectionIsFairAcrossTheWrap(cs, j, w.counter, n);
    if w.counter + n < WRAP {
      SelectionIsFair(cs, j, w.counter, n);
    }
  }

  lemma {:induction false} AllExcluded(cs: seq<GatewayConfig>, excluded: set<string>)
    requires forall c :: c in cs ==> c.name in excluded
    ensures FilterExcluded(cs, excluded) == []
  {
    if cs != [] {
      AllExcluded(cs[..|cs| - 1], excluded);
    }
  }

  lemma {:induction false} FilterDistinct(cs: seq<GatewayConfig>, excluded: set<string>)
    requires DistinctNames(cs)
    ensures DistinctNames(FilterExcluded(cs, excluded))
  {
    if cs != [] {
      var rest, last := cs[..|cs| - 1], cs[|cs| - 1];
      FilterDistinct(rest, excluded);
      FilterMembers(rest, excluded);
      forall c | c in FilterExcluded(rest, excluded)
        ensures c.name != last.name
      {
        assert c in rest;
      }
    }
  }

  // ---------------------------------------------------------------- over runs

  /** The healthy list names no gateway twice, and the counter has not left its 64 bits. */
  ghost predicate Orderly(w: World) {
    DistinctNames(w.snapshot.healthy) && w.counter < WRAP
  }

  lemma SnapshotIsOrderly(w: World, s: Setup)
    requires Orderly(w) && DistinctNames(s.Gateways())
    ensures Orderly(TakeSnapshot(w, s).0) && TakeSnapshot(w, s).0.snapshot == TakeSnapshot(w, s).1
  {
    LoopNames(Build(w.states, w.ticks + 1, [], []), s, s.Gateways(), |s.Gateways()|);
  }

  lemma SelectIsOrderly(w: World, s: Setup, tx: string, excluded: set<string>)
    requires Orderly(w) && DistinctNames(s.Gateways())
    ensures Orderly(SelectGateway(w, s, tx, excluded).0)
  {
    hide TakeSnapshot, FilterExcluded, Pick, TotalWeight, Acquire;
    SnapshotIsOrderly(w, s);
  }

  lemma SubmitIsOrderly(w: World, s: Setup, input: InitiateInput, selection: Selection)
    requires Orderly(w)
    ensures Orderly(Submit(w, s, input, selection).0)
  {
  }

  lemma CallbackIsOrderly(w: World, s: Setup, input: CallbackInput)
    requires Orderly(w)
    ensures Orderly(Callback(w, s, input).0)
  {
    hide OutcomeFor, EventsAfter, LogAfter, WindowStats, Blacklist.RecordOutcome, Inspect, Transactions.Complete;
  }

  lemma {:induction false} RunIsOrderly(s: Setup, ops: seq<Operation>)
    requires DistinctNames(s.Gateways())
    ensures Orderly(Run(EMPTY_WORLD, s, ops))
  {
    hide Initiate, Callback, Orderly;
    if ops == [] {
      assert Orderly(EMPTY_WORLD) by { EmptyIsOrderly(); }
    } else {
      var w, op := Run(EMPTY_WORLD, s, ops[..|ops| - 1]), ops[|ops| - 1];
      RunIsOrderly(s, ops[..|ops| - 1]);
      match op
      case InitiateOp(input) => InitiateIsOrderly(w, s, input);
      case CallbackOp(input) => CallbackIsOrderly(w, s, input);
      case ObserveOp(g) => ObserveIsOrderly(w, s, g);
    }
  }

  lemma EmptyIsOrderly()
    ensures Orderly(EMPTY_WORLD)
  {
  }

  lemma InitiateIsOrderly(w: World, s: Setup, input: InitiateInput)
    requires Orderly(w) && DistinctNames(s.Gateways())
    ensures Orderly(Initiate(w, s, input).0)
  {
    hide SelectGateway, Submit, Orderly;
    var (w1, selected) := SelectGateway(w, s, input.transactionId, Excluded(w, input.orderId));
    SelectIsOrderly(w, s, input.transactionId, Excluded(w, input.orderId));
    if selected.Ok? {
      SubmitIsOrderly(w1, s, input, selected.value);
    }
  }

  lemma ObserveIsOrderly(w: World, s: Setup, g: string)
    requires Orderly(w)
    ensures Orderly(Observe(w, s, g).0)
  {
    hide Inspect, WindowStats;
  }
}
