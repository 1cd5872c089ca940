/** The memory health repository (internal/adapters/repository/memory/gateway_health_repository.go):
    a map of states, and a slice of events that is compacted in place. */
module MemoryHealth {
  import opened Domain
  import opened Breaker
  import opened EventLog
  import Reference

  /** pruneExpiredHalfOpenProbes. */
  method PruneExpired(state: RuntimeState, now: Time) returns (pruned: RuntimeState)
    ensures pruned == Pruned(state, now)
  {
    if |state.probes| == 0 {
      return state.(inFlight := 0);
    }
    var nowMilli := UnixMilli(now);
    var probes := [];
    for i := 0 to |state.probes|
      invariant probes == Live(state.probes[..i], nowMilli)
    {
      var probe := state.probes[i];
      assert state.probes[..i + 1][..i] == state.probes[..i];
      if probe.transactionId != "" && probe.expiresAtMilli > nowMilli {
        probes := probes + [probe];
      }
    }
    assert state.probes[..|state.probes|] == state.probes;
    pruned := state.(probes := probes, inFlight := |probes|);
  }

  /** The loop of ReleaseHalfOpenProbe. */
  method DropToken(ps: seq<Probe>, tx: string) returns (probes: seq<Probe>, released: bool)
    ensures probes == Without(ps, tx) && released == Holds(ps, tx)
  {
    probes, released := [], false;
    for i := 0 to |ps|
      invariant probes == Without(ps[..i], tx)
      invariant released <==> Holds(ps[..i], tx)
    {
      assert ps[..i + 1][..i] == ps[..i];
      assert ps[..i + 1] == ps[..i] + [ps[i]];
      if ps[i].transactionId == tx {
        released := true;
      } else {
        probes := probes + [ps[i]];
      }
    }
    assert ps[..|ps|] == ps;
  }

  class HealthRepository {
    var states: map<string, RuntimeState>
    var events: array<Event>
    var count: nat
    /** Every event ever recorded. */
    ghost var log: seq<Event>

    ghost predicate Valid()
      reads this
    {
      count <= events.Length && forall g :: g in states ==> states[g].gateway == g
    }

    ghost function Events(): seq<Event>
      requires Valid()
      reads this, events
    {
      events[..count]
    }

    constructor ()
      ensures Valid() && fresh(events) && states == map[] && Events() == [] && log == []
    {
      states := map[];
      events := new Event[0];
      count := 0;
      log := [];
    }

    method Ensure(g: string, now: Time)
      requires Valid()
      modifies this`states
      ensures Valid() && states == Reference.Ensured(old(states), g, now)
    {
      if g in states {
        return;
      }
      states := states[g := RuntimeState(g, Healthy, None, 0, [], now)];
    }

    method Get(g: string) returns (r: Result<RuntimeState>)
      ensures r == if g in states then Ok(states[g]) else Err(NotFound)
    {
      if g !in states {
        return Err(NotFound);
      }
      r := Ok(states[g]);
    }

    method Save(state: RuntimeState)
      requires Valid()
      modifies this`states
      ensures Valid() && states == old(states)[state.gateway := state]
    {
      states := states[state.gateway := state];
    }

    method PruneExpiredHalfOpenProbes(g: string, now: Time) returns (r: Result<RuntimeState>)
      requires Valid()
      modifies this`states
      ensures Valid()
      ensures if g in old(states)
              then states == old(states)[g := Prune(old(states)[g], now)] && r == Ok(states[g])
              else states == old(states) && r == Err(NotFound)
    {
      if g !in states {
        return Err(NotFound);
      }
      var state := states[g];
      if state.phase != HalfOpen {
        return Ok(state);
      }
      state := PruneExpired(state, now);
      state := state.(updatedAt := now);
      states := states[g := state];
      r := Ok(state);
    }

    method TryAcquireHalfOpenProbe(g: string, tx: string, maxInFlight: int, expiresAt: Time, now: Time)
      returns (r: Result<(RuntimeState, bool)>)
      requires Valid()
      modifies this`states
      ensures Valid()
      ensures if g in old(states)
              then var (state, acquired) := Acquire(old(states)[g], tx, maxInFlight, expiresAt, now);
                   states == old(states)[g := state] && r == Ok((state, acquired))
              else states == old(states) && r == Err(NotFound)
    {
      if g !in states {
        return Err(NotFound);
      }
      var state := states[g];
      if state.phase != HalfOpen {
        return Ok((state, false));
      }
      state := PruneExpired(state, now);
      if state.inFlight >= maxInFlight {
        states := states[g := state];
        return Ok((state, false));
      }
      state := state.(probes := state.probes + [Probe(tx, UnixMilli(expiresAt))]);
      state := state.(inFlight := |state.probes|);
      state := state.(updatedAt := now);
      states := states[g := state];
      r := Ok((state, true));
    }

    method ReleaseHalfOpenProbe(g: string, tx: string, now: Time) returns (r: Result<(RuntimeState, bool)>)
      requires Valid()
      modifies this`states
      ensures Valid()
      ensures if g in old(states)
              then var (state, released) := Release(old(states)[g], tx, now);
                   states == old(states)[g := state] && r == Ok((state, released))
              else states == old(states) && r == Err(NotFound)
    {
      if g !in states {
        return Err(NotFound);
      }
      var state := states[g];
      if state.phase != HalfOpen {
        return Ok((state, false));
      }
      state := PruneExpired(state, now);
      var probes, released := DropToken(state.probes, tx);
      state := state.(probes := probes);
      state := state.(inFlight := |probes|);
      state := state.(updatedAt := now);
      states := states[g := state];
      r := Ok((state, released));
    }

    /** Retention moves the events to keep to the front of the same array; the append then
        reuses the array or, when it is full, moves to a larger one. */
    method RecordEvent(event: Event, retention: Time)
      requires Valid()
      modifies this`events, this`count, this`log, events
      ensures Valid() && (events == old(events) || fresh(events))
      ensures Events() == Record(old(Events()), event, retention)
      ensures log == old(log) + [event]
    {
      count := Compact(event.createdAt - retention);
      Append(event);
      log := log + [event];
    }

    /** The retention loop. */
    method Compact(cutoff: Time) returns (retained: nat)
      requires Valid()
      modifies events
      ensures retained <= count && events[..retained] == Retain(old(Events()), cutoff)
    {
      ghost var was := events[..count];
      retained := 0;
      for i := 0 to count
        modifies events
        invariant retained <= i <= count <= events.Length
        invariant events[..retained] == Retain(was[..i], cutoff)
        invariant events[i..count] == was[i..]
      {
        var existing := events[i];
        assert existing == was[i] by { assert events[i..count][0] == was[i..][0]; }
        assert was[..i + 1][..i] == was[..i];
        assert events[i + 1..count] == events[i..count][1..];
        if existing.createdAt >= cutoff {
          events[retained] := existing;
          retained := retained + 1;
        }
      }
      assert was[..count] == was;
    }

    /** append. */
    method Append(event: Event)
      requires Valid()
      modifies this`events, this`count, events
      ensures Valid() && (events == old(events) || fresh(events))
      ensures Events() == old(Events()) + [event]
    {
      if count == events.Length {
        var larger := new Event[2 * count + 1](_ => event);
        for i := 0 to count
          modifies larger
          invariant larger[..i] == events[..i]
        {
          larger[i] := events[i];
        }
        events := larger;
      }
      events[count] := event;
      count := count + 1;
    }

    method StatsSince(g: string, since: Time, until: Time) returns (stats: Stats)
      requires Valid()
      ensures stats == StatsOf(Events(), g, since, until)
    {
      var successes, failures := 0, 0;
      for i := 0 to count
        invariant successes == Count(events[..i], g, Success, since, until)
        invariant failures == Count(events[..i], g, Failure, since, until)
      {
        var event := events[i];
        assert events[..i + 1][..i] == events[..i];
        if event.gateway == g && event.createdAt >= since && event.createdAt <= until {
          match event.status
          case Success => successes := successes + 1;
          case Failure => failures := failures + 1;
          case Pending =>
        }
      }
      stats := Stats(g, successes, failures);
    }
  }
}
