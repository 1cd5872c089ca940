/** The circuit breaker of one gateway as a pure machine: what each health repository call
    does to the gateway's state, and how the health service decides the next state
    (internal/service/health_service.go and the memory health repository). */
module Breaker {
  import opened Domain

  datatype Phase = Healthy | Unhealthy | HalfOpen

  datatype Probe = Probe(transactionId: string, expiresAtMilli: int) {
    predicate Active(nowMilli: int) {
      transactionId != "" && expiresAtMilli > nowMilli
    }
  }

  datatype RuntimeState = RuntimeState(
    gateway: string, phase: Phase, unhealthyUntil: Option<Time>,
    inFlight: int, probes: seq<Probe>, updatedAt: Time)

  /** A state cache's entry. */
  datatype CachedState = CachedState(state: RuntimeState, expiresAt: Time)

  datatype Stats = Stats(gateway: string, successes: nat, failures: nat) {
    function Total(): nat { successes + failures }
    function Rate(): real {
      if Total() > 0 then successes as real / Total() as real else 0.0
    }
  }

  // ---------------------------------------------------------------- token lists

  function Live(ps: seq<Probe>, nowMilli: int): seq<Probe> {
    if ps == [] then []
    else
      var rest, last := ps[..|ps| - 1], ps[|ps| - 1];
      if last.Active(nowMilli) then Live(rest, nowMilli) + [last] else Live(rest, nowMilli)
  }

  function Without(ps: seq<Probe>, tx: string): seq<Probe> {
    if ps == [] then []
    else
      var rest, last := ps[..|ps| - 1], ps[|ps| - 1];
      if last.transactionId == tx then Without(rest, tx) else Without(rest, tx) + [last]
  }

  predicate Holds(ps: seq<Probe>, tx: string) {
    exists p :: p in ps && p.transactionId == tx
  }

  ghost predicate DistinctTokens(ps: seq<Probe>) {
    forall i, j :: 0 <= i < j < |ps| ==> ps[i].transactionId != ps[j].transactionId
  }

  /** Pruning keeps exactly the active tokens. */
  lemma {:induction false} LiveMembers(ps: seq<Probe>, m: int)
    ensures |Live(ps, m)| <= |ps|
    ensures forall p :: p in Live(ps, m) <==> p in ps && p.Active(m)
  {
    if ps != [] {
      var rest, last := ps[..|ps| - 1], ps[|ps| - 1];
      LiveMembers(rest, m);
      assert ps == rest + [last];
    }
  }

  lemma {:induction false} WithoutMembers(ps: seq<Probe>, tx: string)
    ensures |Without(ps, tx)| <= |ps|
    ensures forall p :: p in Without(ps, tx) <==> p in ps && p.transactionId != tx
  {
    if ps != [] {
      var rest, last := ps[..|ps| - 1], ps[|ps| - 1];
      WithoutMembers(rest, tx);
      assert ps == rest + [last];
    }
  }

  lemma {:induction false} LiveKeepsDistinct(ps: seq<Probe>, m: int)
    requires DistinctTokens(ps)
    ensures DistinctTokens(Live(ps, m))
  {
    if ps != [] {
      var rest, last := ps[..|ps| - 1], ps[|ps| - 1];
      LiveKeepsDistinct(rest, m);
      LiveMembers(rest, m);
      assert forall p :: p in Live(rest, m) ==> p.transactionId != last.transactionId;
    }
  }

  lemma {:induction false} WithoutKeepsDistinct(ps: seq<Probe>, tx: string)
    requires DistinctTokens(ps)
    ensures DistinctTokens(Without(ps, tx))
  {
    if ps != [] {
      var rest, last := ps[..|ps| - 1], ps[|ps| - 1];
      WithoutKeepsDistinct(rest, tx);
      WithoutMembers(rest, tx);
      assert forall p :: p in Without(rest, tx) ==> p.transactionId != last.transactionId;
    }
  }

  function Tokens(ps: seq<Probe>): set<Probe> {
    set p | p in ps
  }

  lemma {:induction false} DistinctTokensCount(ps: seq<Probe>)
    requires DistinctTokens(ps)
    ensures |Tokens(ps)| == |ps|
  {
    if ps == [] {
      assert Tokens(ps) == {};
    } else {
      var rest, last := ps[..|ps| - 1], ps[|ps| - 1];
      DistinctTokensCount(rest);
      assert last !in Tokens(rest);
      assert Tokens(ps) == Tokens(rest) + {last};
    }
  }

  /** Pruning twice is pruning once at the later time. */
  lemma {:induction false} LiveTwice(ps: seq<Probe>, m: int, n: int)
    requires m <= n
    ensures Live(Live(ps, m), n) == Live(ps, n)
  {
    if ps != [] {
      var rest, last := ps[..|ps| - 1], ps[|ps| - 1];
      LiveTwice(rest, m, n);
      if last.Active(m) {
        LiveAppend(Live(rest, m), last, n);
      }
    }
  }

  lemma LiveAppend(ps: seq<Probe>, p: Probe, m: int)
    ensures Live(ps + [p], m) == if p.Active(m) then Live(ps, m) + [p] else Live(ps, m)
  {
  }

  lemma {:induction false} WithoutAbsent(ps: seq<Probe>, tx: string)
    requires !Holds(ps, tx)
    ensures Without(ps, tx) == ps
  {
    if ps != [] {
      var rest, last := ps[..|ps| - 1], ps[|ps| - 1];
      assert last in ps;
      assert forall p :: p in rest ==> p in ps;
      WithoutAbsent(rest, tx);
      assert ps == rest + [last];
    }
  }

  lemma WithoutAppend(ps: seq<Probe>, p: Probe, tx: string)
    ensures Without(ps + [p], tx) == if p.transactionId == tx then Without(ps, tx) else Without(ps, tx) + [p]
  {
  }

  // ---------------------------------------------------------------- repository calls

  function Fresh(gateway: string, now: Time): RuntimeState {
    RuntimeState(gateway, Healthy, None, 0, [], now)
  }

  function Pruned(s: RuntimeState, now: Time): RuntimeState {
    var live := Live(s.probes, UnixMilli(now));
    s.(probes := live, inFlight := |live|)
  }

  /** PruneExpiredHalfOpenProbes on a stored state. */
  function Prune(s: RuntimeState, now: Time): RuntimeState {
    if s.phase != HalfOpen then s else Pruned(s, now).(updatedAt := now)
  }

  /** TryAcquireHalfOpenProbe on a stored state: the state written back, and whether a token was granted. */
  function Acquire(s: RuntimeState, tx: string, max: int, expiresAt: Time, now: Time): (RuntimeState, bool) {
    if s.phase != HalfOpen then (s, false)
    else
      var p := Pruned(s, now);
      if p.inFlight >= max then (p, false)
      else
        var probes := p.probes + [Probe(tx, UnixMilli(expiresAt))];
        (p.(probes := probes, inFlight := |probes|, updatedAt := now), true)
  }

  /** ReleaseHalfOpenProbe on a stored state: the state written back, and whether tx held a live token. */
  function Release(s: RuntimeState, tx: string, now: Time): (RuntimeState, bool) {
    if s.phase != HalfOpen then (s, false)
    else
      var live := Live(s.probes, UnixMilli(now));
      var probes := Without(live, tx);
      (s.(probes := probes, inFlight := |probes|, updatedAt := now), Holds(live, tx))
  }

  // ---------------------------------------------------------------- the same, by membership

  /** The tokens of the list that are live at now. */
  ghost function LiveAt(ps: seq<Probe>, now: Time): set<Probe> {
    set p | p in ps && p.transactionId != "" && p.expiresAtMilli > now / 1_000_000
  }

  lemma LiveCount(ps: seq<Probe>, now: Time)
    requires DistinctTokens(ps)
    ensures |Live(ps, UnixMilli(now))| == |LiveAt(ps, now)|
  {
    var live := Live(ps, UnixMilli(now));
    LiveMembers(ps, UnixMilli(now));
    LiveKeepsDistinct(ps, UnixMilli(now));
    DistinctTokensCount(live);
    assert Tokens(live) == LiveAt(ps, now);
  }

  /** Pruning a half-open state keeps its live tokens. */
  lemma PruneExactly(s: RuntimeState, now: Time)
    requires s.phase == HalfOpen
    ensures var t := Prune(s, now);
            && t == s.(probes := t.probes, inFlight := |t.probes|, updatedAt := now)
            && forall p :: p in t.probes <==> p in LiveAt(s.probes, now)
  {
    LiveMembers(s.probes, UnixMilli(now));
  }

  /** An acquisition on a half-open state is granted if and only if fewer tokens than the bound
      are live, and leaves those and the one it grants. */
  lemma AcquireExactly(s: RuntimeState, tx: string, max: int, expiresAt: Time, now: Time)
    requires s.phase == HalfOpen && DistinctTokens(s.probes)
    ensures var (t, granted) := Acquire(s, tx, max, expiresAt, now);
            && (granted <==> |LiveAt(s.probes, now)| < max)
            && t == s.(probes := t.probes, inFlight := |t.probes|, updatedAt := if granted then now else s.updatedAt)
            && forall p :: p in t.probes <==>
                 p in LiveAt(s.probes, now) || (granted && p == Probe(tx, expiresAt / 1_000_000))
  {
    LiveCount(s.probes, now);
    LiveMembers(s.probes, UnixMilli(now));
  }

  /** A release on a half-open state reports whether its transaction held a live token, and
      leaves the live tokens of the others. */
  lemma ReleaseExactly(s: RuntimeState, tx: string, now: Time)
    requires s.phase == HalfOpen
    ensures var (t, held) := Release(s, tx, now);
            && (held <==> exists p :: p in LiveAt(s.probes, now) && p.transactionId == tx)
            && t == s.(probes := t.probes, inFlight := |t.probes|, updatedAt := now)
            && forall p :: p in t.probes <==> p in LiveAt(s.probes, now) && p.transactionId != tx
  {
    LiveMembers(s.probes, UnixMilli(now));
    WithoutMembers(Live(s.probes, UnixMilli(now)), tx);
  }

  // ---------------------------------------------------------------- decisions

  function Trip(s: RuntimeState, r: RoutingConfig, now: Time): RuntimeState {
    s.(phase := Unhealthy, unhealthyUntil := Some(now + r.Cooldown()), inFlight := 0, probes := [], updatedAt := now)
  }

  function Recover(s: RuntimeState, now: Time): RuntimeState {
    s.(phase := Healthy, unhealthyUntil := None, inFlight := 0, probes := [], updatedAt := now)
  }

  /** The cooldown test of PrepareForRouting. */
  predicate CooldownOver(s: RuntimeState, now: Time) {
    s.phase == Unhealthy && s.unhealthyUntil.Some? && now >= s.unhealthyUntil.value
  }

  function ToHalfOpen(s: RuntimeState, now: Time): RuntimeState {
    s.(phase := HalfOpen, inFlight := 0, updatedAt := now)
  }

  /** PrepareForRouting when the repository is read on every call. */
  function Prepare(s: RuntimeState, now: Time): RuntimeState {
    Prune(if CooldownOver(s, now) then ToHalfOpen(s, now) else s, now)
  }

  /** The verdict on a half-open gateway whose probe has just been released. */
  function Verdict(s: RuntimeState, status: Status, r: RoutingConfig, now: Time): RuntimeState {
    match status
    case Success => Recover(s, now)
    case Failure => Trip(s, r, now)
    case Pending => s
  }

  predicate Breached(stats: Stats, r: RoutingConfig) {
    stats.Total() >= r.minCallbackCount && stats.Rate() < r.successRateThreshold
  }

  /** Enough outcomes, and fewer successes than the threshold asks for. */
  predicate TooManyFailures(succeeded: nat, failed: nat, r: RoutingConfig) {
    && succeeded + failed >= r.minCallbackCount
    && succeeded as real < r.successRateThreshold * (succeeded + failed) as real
  }

  lemma BreachIsTooManyFailures(stats: Stats, r: RoutingConfig)
    requires r.minCallbackCount > 0
    ensures Breached(stats, r) <==> TooManyFailures(stats.successes, stats.failures, r)
  {
    if stats.successes + stats.failures > 0 {
      BelowExactlyWhen(stats.successes as real, (stats.successes + stats.failures) as real, r.successRateThreshold);
    }
  }

  lemma BelowExactlyWhen(s: real, t: real, threshold: real)
    requires t > 0.0
    ensures s / t < threshold <==> s < threshold * t
  {
    var rate := s / t;
    assert rate * t == s;
    assert (threshold - rate) * t == threshold * t - s;
  }

  /** The decision of RecordOutcome outside the half-open phase. */
  function Evaluate(s: RuntimeState, stats: Stats, r: RoutingConfig, now: Time): RuntimeState
    requires s.phase != HalfOpen
  {
    if s.phase == Unhealthy then
      if s.unhealthyUntil.None? || now >= s.unhealthyUntil.value
      then s.(phase := HalfOpen, inFlight := 0, probes := [], updatedAt := now)
      else s
    else if Breached(stats, r) then Trip(s, r, now)
    else Recover(s, now)
  }

  /** RecordOutcome's effect on the stored state. */
  function Outcome(
      s: RuntimeState, stats: Stats, tx: string, status: Status, r: RoutingConfig, now: Time): RuntimeState {
    if s.phase == HalfOpen then
      var (released, held) := Release(s, tx, now);
      if held then Verdict(released, status, r, now) else released
    else Evaluate(s, stats, r, now)
  }

  /** Preparing a state for routing opens an unhealthy one to probes if and only if its deadline
      has come, keeping the deadline, drops the expired tokens of a half-open one, and leaves
      any other as it is. */
  lemma PrepareExactly(s: RuntimeState, now: Time)
    requires s.phase != HalfOpen ==> s.probes == []
    ensures var t := Prepare(s, now);
            if s.phase == HalfOpen then
              && t == s.(probes := t.probes, inFlight := |t.probes|, updatedAt := now)
              && forall p :: p in t.probes <==> p in LiveAt(s.probes, now)
            else if s.phase == Unhealthy && s.unhealthyUntil.Some? && s.unhealthyUntil.value <= now then
              t == RuntimeState(s.gateway, HalfOpen, s.unhealthyUntil, 0, [], now)
            else t == s
  {
    LiveMembers(s.probes, UnixMilli(now));
  }

  // ---------------------------------------------------------------- what every call keeps

  /** The shape every stored state has: the counter counts the tokens, tokens exist only in
      the half-open phase and within the configured bound, and an unhealthy state knows its deadline. */
  ghost predicate WellFormed(s: RuntimeState, gateway: string, max: int) {
    && s.gateway == gateway
    && s.inFlight == |s.probes| <= max
    && (s.phase != HalfOpen ==> s.probes == [])
    && (s.phase == Unhealthy ==> s.unhealthyUntil.Some?)
    && DistinctTokens(s.probes)
  }

  lemma PruneKeepsShape(s: RuntimeState, g: string, max: int, now: Time)
    requires WellFormed(s, g, max)
    ensures WellFormed(Prune(s, now), g, max)
  {
    LiveMembers(s.probes, UnixMilli(now));
    LiveKeepsDistinct(s.probes, UnixMilli(now));
  }

  lemma PrepareKeepsShape(s: RuntimeState, g: string, max: int, now: Time)
    requires WellFormed(s, g, max)
    ensures WellFormed(Prepare(s, now), g, max)
  {
    PruneKeepsShape(if CooldownOver(s, now) then ToHalfOpen(s, now) else s, g, max, now);
  }

  lemma AcquireKeepsShape(s: RuntimeState, g: string, tx: string, max: int, expiresAt: Time, now: Time)
    requires WellFormed(s, g, max) && !Holds(s.probes, tx)
    ensures WellFormed(Acquire(s, tx, max, expiresAt, now).0, g, max)
  {
    LiveMembers(s.probes, UnixMilli(now));
    LiveKeepsDistinct(s.probes, UnixMilli(now));
    assert forall p :: p in Live(s.probes, UnixMilli(now)) ==> p.transactionId != tx;
  }

  lemma ReleaseKeepsShape(s: RuntimeState, g: string, tx: string, max: int, now: Time)
    requires WellFormed(s, g, max)
    ensures WellFormed(Release(s, tx, now).0, g, max)
  {
    var live := Live(s.probes, UnixMilli(now));
    LiveMembers(s.probes, UnixMilli(now));
    LiveKeepsDistinct(s.probes, UnixMilli(now));
    WithoutMembers(live, tx);
    WithoutKeepsDistinct(live, tx);
  }

  lemma OutcomeKeepsShape(
      s: RuntimeState, g: string, stats: Stats, tx: string, status: Status, r: RoutingConfig, now: Time)
    requires WellFormed(s, g, r.halfOpenProbeCount) && r.Usable()
    ensures WellFormed(Outcome(s, stats, tx, status, r, now), g, r.halfOpenProbeCount)
  {
    ReleaseKeepsShape(s, g, tx, r.halfOpenProbeCount, now);
  }

  /** A token granted and then released leaves the list pruning alone would have left. */
  lemma AcquireThenRelease(s: RuntimeState, tx: string, max: int, expiresAt: Time, now: Time, later: Time)
    requires now <= later && !Holds(s.probes, tx)
    requires s.phase == HalfOpen && Acquire(s, tx, max, expiresAt, now).1
    ensures Release(Acquire(s, tx, max, expiresAt, now).0, tx, later).0.probes == Live(s.probes, UnixMilli(later))
  {
    var m, n := UnixMilli(now), UnixMilli(later);
    UnixMilliMonotone(now, later);
    var token := Probe(tx, UnixMilli(expiresAt));
    LiveAppend(Live(s.probes, m), token, n);
    LiveTwice(s.probes, m, n);
    LiveMembers(s.probes, n);
    WithoutAbsent(Live(s.probes, n), tx);
    WithoutAppend(Live(s.probes, n), token, tx);
  }

  // ---------------------------------------------------------------- transitions

  /** The arrows of the state machine, with what permits each. */
  ghost predicate LegalMove(s: RuntimeState, t: RuntimeState, r: RoutingConfig, now: Time) {
    || t.phase == s.phase
    || (s.phase == Healthy && t.phase == Unhealthy && t.unhealthyUntil == Some(now + r.Cooldown()))
    || (s.phase == Unhealthy && t.phase == HalfOpen && (s.unhealthyUntil.None? || s.unhealthyUntil.value <= now))
    || (s.phase == HalfOpen && t.phase == Healthy)
    || (s.phase == HalfOpen && t.phase == Unhealthy && t.unhealthyUntil == Some(now + r.Cooldown()))
  }

  /** An outcome moves the breaker along an arrow; it leaves the half-open phase only on
      the final outcome of a transaction that holds a live token; it never changes a
      running cooldown. */
  lemma OutcomeMoves(s: RuntimeState, stats: Stats, tx: string, status: Status, r: RoutingConfig, now: Time)
    ensures var t := Outcome(s, stats, tx, status, r, now);
            && LegalMove(s, t, r, now)
            && (s.phase == HalfOpen ==>
                  (t.phase != HalfOpen <==>
                     && status.IsFinal()
                     && exists p :: p in s.probes && p.transactionId == tx && p.Active(UnixMilli(now))))
            && (s.phase == HalfOpen && t.phase != HalfOpen ==> (t.phase == Healthy <==> status == Success))
            && (s.phase == Unhealthy && t.phase == Unhealthy ==> t == s)
            && (s.phase == Healthy && t.phase == Unhealthy ==> Breached(stats, r))
  {
    LiveMembers(s.probes, UnixMilli(now));
  }
}
