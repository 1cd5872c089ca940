/** The routing service (internal/service/routing_service.go): a snapshot of candidates with
    a lifetime, exclusion, and weighted selection by one counter. */
module RoutingServices {
  import opened Domain
  import opened Breaker
  import opened Clocks
  import opened HealthServices
  import opened Reference
  import opened Selector

  /** The running total of the scan, against the recursive pick. */
  lemma {:induction false} PickAfter(cs: seq<GatewayConfig>, i: nat, slot: nat)
    requires i <= |cs| && slot >= Offset(cs, i)
    ensures Pick(cs, slot) == Pick(cs[i..], slot - Offset(cs, i))
  {
    if i > 0 {
      PickAfter(cs[1..], i - 1, slot - Share(cs[0]));
      assert cs[1..][i - 1..] == cs[i..];
    }
  }

  lemma {:induction false} OffsetStep(cs: seq<GatewayConfig>, i: nat)
    requires i < |cs|
    ensures Offset(cs, i + 1) == Offset(cs, i) + Share(cs[i])
  {
    if i > 0 {
      OffsetStep(cs[1..], i - 1);
    }
  }

  lemma {:induction false} OffsetOfAll(cs: seq<GatewayConfig>)
    ensures Offset(cs, |cs|) == TotalWeight(cs)
  {
    if cs != [] {
      OffsetOfAll(cs[1..]);
    }
  }

  lemma {:induction false} NothingExcluded(cs: seq<GatewayConfig>)
    ensures FilterExcluded(cs, {}) == cs
  {
    if cs != [] {
      NothingExcluded(cs[..|cs| - 1]);
    }
  }

  class RoutingService {
    const health: HealthService
    const config: AppConfig
    const clock: Clock
    var counter: nat
    var cacheTTL: Time
    var cache: Snapshot

    constructor (health: HealthService, config: AppConfig, clock: Clock)
      ensures this.health == health && this.config == config && this.clock == clock
      ensures counter == 0 && cacheTTL == 100 * MILLISECOND && cache == NO_SNAPSHOT
    {
      this.health := health;
      this.config := config;
      this.clock := clock;
      counter := 0;
      cacheTTL := 100 * MILLISECOND;
      cache := NO_SNAPSHOT;
    }

    ghost predicate Valid()
      reads this, health, health.repository
    {
      health.Valid() && health.config == config && health.clock == clock
    }

    /** The parameters of the reference machine this service runs. */
    ghost function Params(): Setup
      reads this
    {
      Setup(config, cacheTTL, clock.at)
    }

    /** The part of the world routing works on; the tables are the caller's. */
    ghost function World(tables: Reference.World): Reference.World
      requires health.repository.Valid()
      reads this, health.repository, health.repository.events, clock
    {
      tables.(states := health.repository.states, events := health.repository.Events(), log := health.repository.log,
              counter := counter, snapshot := cache, ticks := clock.ticks)
    }

    method SetCacheTTL(ttl: Time)
      modifies this`cacheTTL, this`cache
      ensures if ttl > 0 then cacheTTL == ttl && cache == NO_SNAPSHOT
              else cacheTTL == old(cacheTTL) && cache == old(cache)
    {
      if ttl <= 0 {
        return;
      }
      cacheTTL := ttl;
      cache := NO_SNAPSHOT;
    }

    method InvalidateCache()
      modifies this`cache
      ensures cache == NO_SNAPSHOT
    {
      cache := NO_SNAPSHOT;
    }

    /** The scan always meets the slot, so the source's return after the loop is never reached. */
    method SelectWeighted(candidates: seq<GatewayConfig>) returns (chosen: Option<GatewayConfig>)
      modifies this`counter
      ensures (counter, chosen) == Select(old(counter), candidates)
    {
      if |candidates| == 0 {
        return None;
      }
      var total := 0;
      for i := 0 to |candidates|
        invariant total == Offset(candidates, i) && counter == old(counter)
      {
        OffsetStep(candidates, i);
        if candidates[i].weight > 0 {
          total := total + candidates[i].weight;
        }
      }
      OffsetOfAll(candidates);
      if total <= 0 {
        return None;
      }
      counter := (counter + 1) % WRAP;
      var slot := counter % total;
      var running := 0;
      chosen := None;
      for i := 0 to |candidates|
        invariant running == Offset(candidates, i) <= slot && counter == Next(old(counter))
      {
        OffsetStep(candidates, i);
        if candidates[i].weight <= 0 {
          continue;
        }
        running := running + candidates[i].weight;
        if slot < running {
          PickAfter(candidates, i, slot);
          assert candidates[i..][0] == candidates[i];
          return Some(candidates[i]);
        }
      }
      assert false;
    }

    method FilterExcluded(candidates: seq<GatewayConfig>, excluded: set<string>) returns (filtered: seq<GatewayConfig>)
      ensures filtered == Reference.FilterExcluded(candidates, excluded)
    {
      if |candidates| == 0 || |excluded| == 0 {
        NothingExcluded(candidates);
        return candidates;
      }
      filtered := [];
      for i := 0 to |candidates|
        invariant filtered == Reference.FilterExcluded(candidates[..i], excluded)
      {
        assert candidates[..i + 1][..i] == candidates[..i];
        if candidates[i].name in excluded {
          continue;
        }
        filtered := filtered + [candidates[i]];
      }
      assert candidates[..|candidates|] == candidates;
    }

    /** The snapshot loop, from the states it finds. */
    method Rebuild(now: Time) returns (next: Snapshot)
      requires Valid()
      modifies health`stateCache, health.repository`states, clock
      ensures Valid()
      ensures var b := BuildPrefix(Build(old(health.repository.states), old(clock.ticks), [], []), Params(),
                                   Params().Gateways(), |Params().Gateways()|);
              && next == Snapshot(b.healthy, b.probes, Some(now + cacheTTL))
              && health.repository.states == b.states && clock.ticks == b.ticks
    {
      var cfg := WithDefaults(config);
      var healthy, probes := [], [];
      ghost var start, s := Build(health.repository.states, clock.ticks, [], []), Params();
      for i := 0 to |cfg.gateways|
        invariant Valid()
        invariant Build(health.repository.states, clock.ticks, healthy, probes)
               == BuildPrefix(start, s, cfg.gateways, i)
      {
        var gateway := cfg.gateways[i];
        if !gateway.enabled || gateway.weight <= 0 {
          continue;
        }
        var prepared := health.PrepareForRouting(gateway.name, cfg.routing);
        var state := prepared.value;
        match state.phase {
          case Healthy => healthy := healthy + [gateway];
          case HalfOpen =>
            if state.inFlight < cfg.routing.halfOpenProbeCount {
              probes := probes + [gateway];
            }
          case Unhealthy =>
        }
      }
      next := Snapshot(healthy, probes, Some(now + cacheTTL));
    }

    method TakeSnapshot(ghost tables: Reference.World) returns (snapshot: Snapshot)
      requires Valid()
      modifies this`cache, health`stateCache, health.repository`states, clock
      ensures Valid()
      ensures (World(tables), snapshot) == Reference.TakeSnapshot(old(World(tables)), Params())
    {
      var now := clock.Now();
      if cache.expiresAt.Some? && now < cache.expiresAt.value {
        return cache;
      }
      var next := Rebuild(now);
      cache := next;
      snapshot := next;
    }

    /** The call to the health service, which leaves the routing fields alone. */
    method Mark(g: string, tx: string, ghost tables: Reference.World) returns (r: Result<()>)
      requires Valid()
      modifies health`stateCache, health.repository`states, clock
      ensures Valid()
      ensures (World(tables), r) == MarkProbe(old(World(tables)), Params(), g, tx)
    {
      hide Acquire;
      r := health.MarkProbeSelected(g, tx);
    }

    /** The probe branch: mark the probe selected, or drop the snapshot and fall back. */
    method SelectProbe(
        tx: string, probes: seq<GatewayConfig>, healthy: seq<GatewayConfig>, ghost tables: Reference.World)
      returns (r: Result<Selection>)
      requires Valid()
      modifies this`cache, this`counter, health`stateCache, health.repository`states, clock
      ensures Valid()
      ensures (World(tables), r) == Reference.SelectProbe(old(World(tables)), Params(), tx, probes, healthy)
    {
      hide Select, Reference.MarkProbe, Reference.SelectHealthy;
      var selected := SelectWeighted(probes);
      if selected.None? {
        return Err(NoAvailableGateway);
      }
      var marked := Mark(selected.value.name, tx, tables);
      if marked.Err? {
        InvalidateCache();
        if |healthy| == 0 {
          return Err(marked.error);
        }
        r := SelectHealthy(healthy, tables);
      } else {
        r := Ok(Selection(selected.value, true));
      }
    }

    method SelectHealthy(healthy: seq<GatewayConfig>, ghost tables: Reference.World) returns (r: Result<Selection>)
      requires Valid()
      modifies this`counter
      ensures Valid()
      ensures (World(tables), r) == Reference.SelectHealthy(old(World(tables)), healthy)
    {
      hide Select;
      var selected := SelectWeighted(healthy);
      if selected.None? {
        return Err(NoAvailableGateway);
      }
      r := Ok(Selection(selected.value, false));
    }

    method SelectGateway(
        tx: string, excluded: set<string>, ghost tables: Reference.World) returns (r: Result<Selection>)
      requires Valid()
      modifies this`cache, this`counter, health`stateCache, health.repository`states, clock
      ensures Valid()
      ensures (World(tables), r) == Reference.SelectGateway(old(World(tables)), Params(), tx, excluded)
    {
      hide Reference.TakeSnapshot, Reference.FilterExcluded, Reference.SelectProbe, Reference.SelectHealthy;
      var snapshot := TakeSnapshot(tables);
      var probes := FilterExcluded(snapshot.probes, excluded);
      var healthy := FilterExcluded(snapshot.healthy, excluded);
      if |probes| > 0 {
        r := SelectProbe(tx, probes, healthy, tables);
      } else {
        r := SelectHealthy(healthy, tables);
      }
    }
  }
}
