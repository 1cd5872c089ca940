/** The part of the reference machine that only prepares, prunes or compensates: such steps
    never add a token, never trip or recover a gateway and never touch a running cooldown. */
module Quiet {
  import opened Domain
  import opened Breaker
  import opened Reference

  /** The stored state of a gateway; one never seen counts as fresh. */
  function StateOf(states: States, g: string): RuntimeState {
    if g in states then states[g] else Breaker.Fresh(g, 0)
  }

  /** From s to t by quiet steps that all happened by hi. */
  ghost predicate QuietState(s: RuntimeState, t: RuntimeState, hi: Time) {
    && (forall p :: p in t.probes ==> p in s.probes)
    && (t.phase == s.phase || (CooldownOver(s, hi) && t.phase == HalfOpen))
    && (t.phase == Unhealthy ==> t == s)
    && (forall n :: n >= UnixMilli(hi) ==> Live(t.probes, n) == Live(s.probes, n))
  }

  ghost predicate AllWellFormed(states: States, max: int) {
    forall g :: g in states ==> WellFormed(states[g], g, max)
  }

  ghost predicate QuietStep(a: States, b: States, max: int, hi: Time) {
    && a.Keys <= b.Keys
    && AllWellFormed(b, max)
    && forall g :: g in b ==> QuietState(StateOf(a, g), b[g], hi)
  }

  lemma QuietLater(a: States, b: States, max: int, mid: Time, hi: Time)
    requires QuietStep(a, b, max, mid) && mid <= hi
    ensures QuietStep(a, b, max, hi)
  {
  }

  lemma QuietTrans(a: States, b: States, c: States, max: int, mid: Time, hi: Time)
    requires QuietStep(a, b, max, mid) && QuietStep(b, c, max, hi) && mid <= hi
    ensures QuietStep(a, c, max, hi)
  {
  }

  lemma QuietRefl(a: States, max: int, hi: Time)
    requires AllWellFormed(a, max)
    ensures QuietStep(a, a, max, hi)
  {
  }

  lemma PruneIsQuiet(s: RuntimeState, now: Time)
    ensures QuietState(s, Prune(s, now), now)
    ensures Prune(s, now).phase == s.phase
  {
    LiveMembers(s.probes, UnixMilli(now));
    forall n | n >= UnixMilli(now)
      ensures Live(Prune(s, now).probes, n) == Live(s.probes, n)
    {
      LiveTwice(s.probes, UnixMilli(now), n);
    }
  }

  lemma PrepareIsQuiet(s: RuntimeState, now: Time)
    ensures QuietState(s, Prepare(s, now), now)
    ensures CooldownOver(s, now) ==> Prepare(s, now).phase == HalfOpen
    ensures !CooldownOver(s, now) ==> Prepare(s, now).phase == s.phase
  {
    PruneIsQuiet(if CooldownOver(s, now) then ToHalfOpen(s, now) else s, now);
  }

  lemma SetIsQuiet(a: States, g: string, t: RuntimeState, max: int, hi: Time)
    requires AllWellFormed(a, max) && WellFormed(t, g, max) && QuietState(StateOf(a, g), t, hi)
    ensures QuietStep(a, a[g := t], max, hi)
  {
  }

  lemma PrepareForIsQuiet(a: States, g: string, max: int, now: Time)
    requires AllWellFormed(a, max) && max >= 0
    ensures QuietStep(a, PrepareFor(a, g, now), max, now)
  {
    var s := Ensured(a, g, now)[g];
    PrepareIsQuiet(s, now);
    PrepareKeepsShape(s, g, max, now);
    SetIsQuiet(a, g, Prepare(s, now), max, now);
  }

  lemma InspectIsQuiet(a: States, g: string, max: int, now: Time)
    requires AllWellFormed(a, max) && max >= 0
    ensures QuietStep(a, Inspect(a, g, now), max, now)
  {
    var s := Ensured(a, g, now)[g];
    PruneIsQuiet(s, now);
    PruneKeepsShape(s, g, max, now);
    SetIsQuiet(a, g, Prune(s, now), max, now);
  }

  /** A probe refused for want of a slot leaves the pruned list. */
  lemma RefusedAcquireIsQuiet(s: RuntimeState, g: string, tx: string, max: int, expiresAt: Time, now: Time)
    requires WellFormed(s, g, max) && !Acquire(s, tx, max, expiresAt, now).1
    ensures var t := Acquire(s, tx, max, expiresAt, now).0;
            QuietState(s, t, now) && WellFormed(t, g, max)
  {
    PruneIsQuiet(s, now);
    PruneKeepsShape(s, g, max, now);
  }

  /** A probe acquired and compensated is quiet as a whole. */
  lemma CompensatedProbeIsQuiet(
      s: RuntimeState, g: string, tx: string, max: int, expiresAt: Time, now: Time, later: Time)
    requires WellFormed(s, g, max) && !Holds(s.probes, tx) && now <= later
    requires Acquire(s, tx, max, expiresAt, now).1
    ensures var t := Release(Acquire(s, tx, max, expiresAt, now).0, tx, later).0;
            QuietState(s, t, later) && WellFormed(t, g, max)
  {
    var held := Acquire(s, tx, max, expiresAt, now).0;
    var t := Release(held, tx, later).0;
    AcquireThenRelease(s, tx, max, expiresAt, now, later);
    AcquireKeepsShape(s, g, tx, max, expiresAt, now);
    ReleaseKeepsShape(held, g, tx, max, later);
    LiveMembers(s.probes, UnixMilli(later));
    forall n | n >= UnixMilli(later)
      ensures Live(t.probes, n) == Live(s.probes, n)
    {
      LiveTwice(s.probes, UnixMilli(later), n);
    }
  }

  // ---------------------------------------------------------------- the snapshot loop

  ghost predicate Clocked(s: Setup) {
    forall i: nat, j: nat :: i <= j ==> s.at(i) <= s.at(j)
  }

  predicate Lists(cs: seq<GatewayConfig>, g: string) {
    exists c :: c in cs && c.name == g
  }

  /** What the loop has established by its latest clock reading, from the states it started with. */
  ghost predicate Built(b: Build, a: States, s: Setup, gs: seq<GatewayConfig>) {
    && b.ticks > 0
    && QuietStep(a, b.states, s.Routing().halfOpenProbeCount, s.at(b.ticks - 1))
    && (forall c :: c in b.healthy ==> Candidate(b.states, gs, c, Healthy))
    && (forall c :: c in b.probes ==> Candidate(b.states, gs, c, HalfOpen))
  }

  ghost predicate Candidate(states: States, gs: seq<GatewayConfig>, c: GatewayConfig, phase: Phase) {
    c in gs && Routable(c) && c.name in states && states[c.name].phase == phase
  }

  lemma QuietKeepsCandidate(
      a: States, b: States, gs: seq<GatewayConfig>, c: GatewayConfig, phase: Phase, max: int, hi: Time)
    requires Candidate(a, gs, c, phase) && phase != Unhealthy && QuietStep(a, b, max, hi)
    ensures Candidate(b, gs, c, phase)
  {
  }

  lemma BuildStepKeeps(b: Build, a: States, s: Setup, gs: seq<GatewayConfig>, c: GatewayConfig)
    requires Clocked(s) && s.Routing().halfOpenProbeCount >= 0 && c in gs && Built(b, a, s, gs)
    ensures Built(BuildStep(b, s, c), a, s, gs)
    ensures BuildStep(b, s, c).ticks >= b.ticks
  {
    if Routable(c) {
      var max, now, b' := s.Routing().halfOpenProbeCount, s.at(b.ticks), BuildStep(b, s, c);
      PrepareForIsQuiet(b.states, c.name, max, now);
      QuietTrans(a, b.states, b'.states, max, s.at(b.ticks - 1), now);
      forall d | d in b.healthy
        ensures Candidate(b'.states, gs, d, Healthy)
      {
        QuietKeepsCandidate(b.states, b'.states, gs, d, Healthy, max, now);
      }
      forall d | d in b.probes
        ensures Candidate(b'.states, gs, d, HalfOpen)
      {
        QuietKeepsCandidate(b.states, b'.states, gs, d, HalfOpen, max, now);
      }
    }
  }

  lemma {:induction false} LoopInvariant(b: Build, a: States, s: Setup, gs: seq<GatewayConfig>, i: nat)
    requires i <= |gs| && Clocked(s) && s.Routing().halfOpenProbeCount >= 0 && Built(b, a, s, gs)
    ensures Built(BuildPrefix(b, s, gs, i), a, s, gs)
    ensures BuildPrefix(b, s, gs, i).ticks >= b.ticks
  {
    if i > 0 {
      LoopInvariant(b, a, s, gs, i - 1);
      BuildStepKeeps(BuildPrefix(b, s, gs, i - 1), a, s, gs, gs[i - 1]);
    }
  }
}
