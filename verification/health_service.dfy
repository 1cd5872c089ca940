/** The health service (internal/service/health_service.go): the circuit breaker behind a
    write-through cache of gateway states. Its methods are proved to do and return what a
    service that reads the repository on every call would. */
module HealthServices {
  import opened Domain
  import opened Breaker
  import opened EventLog
  import opened Clocks
  import opened MemoryHealth
  import Reference

  class HealthService {
    const repository: HealthRepository
    const config: AppConfig
    const clock: Clock
    var cacheTTL: Time
    var stateCache: map<string, CachedState>

    /** The cache never disagrees with the store: expired or not, an entry is the stored state. */
    ghost predicate Coherent()
      reads this, repository
    {
      forall g :: g in stateCache ==> g in repository.states && stateCache[g].state == repository.states[g]
    }

    ghost predicate Valid()
      reads this, repository
    {
      repository.Valid() && Coherent()
    }

    ghost function Routing(): RoutingConfig {
      WithDefaults(config).routing
    }

    /** The clock's next reading. */
    ghost function Reading(): Time
      reads clock
    {
      clock.at(clock.ticks)
    }

    constructor (repository: HealthRepository, config: AppConfig, clock: Clock)
      requires repository.Valid()
      ensures Valid() && this.repository == repository && this.config == config && this.clock == clock
      ensures cacheTTL == 500 * MILLISECOND && stateCache == map[]
    {
      this.repository := repository;
      this.config := config;
      this.clock := clock;
      cacheTTL := 500 * MILLISECOND;
      stateCache := map[];
    }

    method SetCacheTTL(ttl: Time)
      requires Valid()
      modifies this`cacheTTL, this`stateCache
      ensures Valid()
      ensures if ttl > 0 then cacheTTL == ttl && stateCache == map[]
              else cacheTTL == old(cacheTTL) && stateCache == old(stateCache)
    {
      if ttl <= 0 {
        return;
      }
      cacheTTL := ttl;
      stateCache := map[];
    }

    method SetCachedState(state: RuntimeState, now: Time)
      modifies this`stateCache
      ensures stateCache == old(stateCache)[state.gateway := CachedState(state, now + cacheTTL)]
    {
      stateCache := stateCache[state.gateway := CachedState(state, now + cacheTTL)];
    }

    /** A cache hit skips the repository, which it would have found unchanged. */
    method CachedStateOf(g: string, now: Time) returns (r: Result<RuntimeState>)
      requires Valid()
      modifies this`stateCache, repository`states
      ensures Valid()
      ensures repository.states == Reference.Ensured(old(repository.states), g, now) && r == Ok(repository.states[g])
    {
      if g in stateCache && now < stateCache[g].expiresAt {
        return Ok(stateCache[g].state);
      }
      repository.Ensure(g, now);
      r := repository.Get(g);
      if r.Err? {
        return;
      }
      SetCachedState(r.value, now);
    }

    method PrepareForRouting(g: string, routing: RoutingConfig) returns (r: Result<RuntimeState>)
      requires Valid()
      modifies this`stateCache, repository`states, clock
      ensures Valid() && clock.ticks == old(clock.ticks) + 1
      ensures repository.states == Reference.PrepareFor(old(repository.states), g, old(Reading()))
      ensures r == Ok(repository.states[g])
    {
      var now := clock.Now();
      r := CachedStateOf(g, now);
      if r.Err? {
        return;
      }
      var state := r.value;
      if state.phase == Unhealthy && state.unhealthyUntil.Some? && now >= state.unhealthyUntil.value {
        state := state.(phase := HalfOpen);
        state := state.(inFlight := 0);
        state := state.(updatedAt := now);
        repository.Save(state);
        SetCachedState(state, now);
      }
      if state.phase == HalfOpen {
        r := repository.PruneExpiredHalfOpenProbes(g, now);
        if r.Err? {
          return;
        }
        state := r.value;
        SetCachedState(state, now);
      }
      r := Ok(state);
    }

    method MarkProbeSelected(g: string, tx: string) returns (r: Result<()>)
      requires Valid()
      modifies this`stateCache, repository`states, clock
      ensures Valid() && clock.ticks == old(clock.ticks) + 1
      ensures var now := old(Reading());
              if g in old(repository.states)
              then
                var max, expiresAt := Routing().halfOpenProbeCount, now + Routing().ProbeTimeout();
                var (state, acquired) := Acquire(old(repository.states)[g], tx, max, expiresAt, now);
                && repository.states == old(repository.states)[g := state]
                && r == if acquired then Ok(()) else Err(NoAvailableGateway)
              else repository.states == old(repository.states) && r == Err(NotFound)
    {
      var cfg := WithDefaults(config);
      var now := clock.Now();
      var expiresAt := now + cfg.routing.ProbeTimeout();
      var answer := repository.TryAcquireHalfOpenProbe(g, tx, cfg.routing.halfOpenProbeCount, expiresAt, now);
      if answer.Err? {
        return Err(answer.error);
      }
      var (state, acquired) := answer.value;
      SetCachedState(state, now);
      if !acquired {
        return Err(NoAvailableGateway);
      }
      r := Ok(());
    }

    method ReleaseProbe(g: string, tx: string) returns (r: Result<()>)
      requires Valid()
      modifies this`stateCache, repository`states, clock
      ensures Valid() && clock.ticks == old(clock.ticks) + 1
      ensures if g in old(repository.states)
              then
                var released := Release(old(repository.states)[g], tx, old(Reading())).0;
                repository.states == old(repository.states)[g := released] && r == Ok(())
              else repository.states == old(repository.states) && r == Err(NotFound)
    {
      var now := clock.Now();
      var answer := repository.ReleaseHalfOpenProbe(g, tx, now);
      if answer.Err? {
        return Err(answer.error);
      }
      SetCachedState(answer.value.0, now);
      r := Ok(());
    }

    method MarkUnhealthy(state: RuntimeState, routing: RoutingConfig, now: Time) returns (tripped: RuntimeState)
      ensures tripped == Trip(state, routing, now)
      ensures tripped.phase == Unhealthy && tripped.probes == []
      ensures tripped.unhealthyUntil == Some(now + routing.unhealthyCooldownSeconds * 1_000_000_000)
    {
      tripped := state.(phase := Unhealthy);
      tripped := tripped.(unhealthyUntil := Some(now + routing.unhealthyCooldownSeconds * SECOND));
      tripped := tripped.(inFlight := 0);
      tripped := tripped.(probes := []);
      tripped := tripped.(updatedAt := now);
    }

    /** The switch of RecordOutcome outside the half-open phase. */
    method Judge(state: RuntimeState, stats: Stats, routing: RoutingConfig, now: Time) returns (next: RuntimeState)
      requires state.phase != HalfOpen
      ensures next == Evaluate(state, stats, routing, now)
      ensures state.phase == Healthy && routing.minCallbackCount > 0 ==>
                (next.phase == Unhealthy <==> TooManyFailures(stats.successes, stats.failures, routing))
    {
      if routing.minCallbackCount > 0 {
        BreachIsTooManyFailures(stats, routing);
      }
      next := state;
      if state.phase == Unhealthy {
        if state.unhealthyUntil.None? || now >= state.unhealthyUntil.value {
          next := next.(phase := HalfOpen);
          next := next.(inFlight := 0);
          next := next.(probes := []);
          next := next.(updatedAt := now);
        }
      } else if stats.Total() >= routing.minCallbackCount && stats.Rate() < routing.successRateThreshold {
        next := MarkUnhealthy(next, routing, now);
      } else {
        next := next.(phase := Healthy);
        next := next.(unhealthyUntil := None);
        next := next.(inFlight := 0);
        next := next.(probes := []);
        next := next.(updatedAt := now);
      }
    }

    /** The verdict on a gateway whose probe has reported. */
    method Rule(state: RuntimeState, status: Status, routing: RoutingConfig, now: Time) returns (next: RuntimeState)
      ensures next == Breaker.Verdict(state, status, routing, now)
    {
      next := state;
      if status == Success {
        next := next.(phase := Healthy);
        next := next.(unhealthyUntil := None);
        next := next.(inFlight := 0);
        next := next.(probes := []);
        next := next.(updatedAt := now);
      } else if status == Failure {
        next := MarkUnhealthy(next, routing, now);
      }
    }

    /** The switch of RecordOutcome and the save after it. */
    method Settle(
        g: string, tx: string, status: Status, stats: Stats, routing: RoutingConfig, now: Time)
      returns (r: Result<RuntimeState>)
      requires Valid() && g in repository.states
      modifies this`stateCache, repository`states
      ensures Valid()
      ensures repository.states == old(repository.states)[g := Outcome(old(repository.states)[g], stats, tx, status,
                                                                       routing, now)]
      ensures r == Ok(repository.states[g])
    {
      r := repository.Get(g);
      if r.Err? {
        return;
      }
      var state := r.value;
      if state.phase == HalfOpen {
        // The gateway is stored, so the release cannot miss it.
        var answer := repository.ReleaseHalfOpenProbe(g, tx, now);
        state := answer.value.0;
        if !answer.value.1 {
          SetCachedState(state, now);
          return Ok(state);
        }
        state := Rule(state, status, routing, now);
      } else {
        state := Judge(state, stats, routing, now);
      }
      repository.Save(state);
      SetCachedState(state, now);
      r := Ok(state);
    }

    method RecordOutcome(g: string, tx: string, status: Status) returns (r: Result<(RuntimeState, Stats)>)
      requires Valid()
      modifies this`stateCache, repository, repository.events, clock
      ensures Valid() && clock.ticks == old(clock.ticks) + 1
      ensures repository.events == old(repository.events) || fresh(repository.events)
      ensures var now := old(Reading());
              var stats := Reference.WindowStats(repository.Events(), Routing(), g, now);
              && repository.Events() == Reference.EventsAfter(old(repository.Events()), Routing(), g, tx, status, now)
              && repository.log == Reference.LogAfter(old(repository.log), g, tx, status, now)
              && repository.states == Reference.OutcomeFor(old(repository.states), stats, Routing(), g, tx, status, now)
              && r == Ok((repository.states[g], stats))
    {
      hide Outcome, StatsOf, Record;
      var now := clock.Now();
      var cfg := WithDefaults(config);
      repository.Ensure(g, now);
      if status.IsFinal() {
        var retention := cfg.routing.healthWindowSeconds * 2 * SECOND;
        repository.RecordEvent(Event(g, tx, status, now), retention);
      }
      var windowStart := now - cfg.routing.healthWindowSeconds * SECOND;
      var stats := repository.StatsSince(g, windowStart, now);
      var settled := Settle(g, tx, status, stats, cfg.routing, now);
      r := Ok((settled.value, stats));
    }

    method State(g: string) returns (r: Result<RuntimeState>)
      requires Valid()
      modifies this`stateCache, repository`states, clock
      ensures Valid() && clock.ticks == old(clock.ticks) + 1
      ensures repository.states == Reference.Inspect(old(repository.states), g, old(Reading()))
              && r == Ok(repository.states[g])
    {
      var now := clock.Now();
      repository.Ensure(g, now);
      r := repository.Get(g);
      if r.Err? {
        return;
      }
      if r.value.phase == HalfOpen {
        r := repository.PruneExpiredHalfOpenProbes(g, now);
        if r.Err? {
          return;
        }
      }
      SetCachedState(r.value, now);
    }

    method Stats(g: string) returns (stats: Breaker.Stats)
      requires Valid()
      modifies clock
      ensures Valid() && clock.ticks == old(clock.ticks) + 1
      ensures stats == Reference.WindowStats(repository.Events(), Routing(), g, old(Reading()))
    {
      var cfg := WithDefaults(config);
      var now := clock.Now();
      var windowStart := now - cfg.routing.healthWindowSeconds * SECOND;
      stats := repository.StatsSince(g, windowStart, now);
    }
  }
}
