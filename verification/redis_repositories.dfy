/** The Redis repositories (internal/adapters/repository/redis): each script and each
    pipelined increment is one atomic call on maps, sets and counters keyed by tuples. */
module RedisRepositories {
  import opened Domain
  import opened Breaker
  import opened EventLog
  import opened RedisProbes
  import opened RedisStats
  import Blacklist
  import Reference
  import Transactions

  /** The filter of the acquire and prune scripts. */
  method ActiveProbes(ps: seq<Probe>, nowMilli: int) returns (active: seq<Probe>)
    ensures active == ScriptLive(ps, nowMilli)
  {
    active := [];
    for i := 0 to |ps|
      invariant active == ScriptLive(ps[..i], nowMilli)
    {
      assert ps[..i + 1][..i] == ps[..i];
      if ps[i].expiresAtMilli > nowMilli {
        active := active + [ps[i]];
      }
    }
    assert ps[..|ps|] == ps;
  }

  /** The filter of the release script. */
  method OtherActiveProbes(ps: seq<Probe>, tx: string, nowMilli: int) returns (active: seq<Probe>, released: bool)
    ensures active == ScriptKept(ps, tx, nowMilli) && released == ScriptFound(ps, tx, nowMilli)
  {
    active, released := [], false;
    for i := 0 to |ps|
      invariant active == ScriptKept(ps[..i], tx, nowMilli)
      invariant released <==> ScriptFound(ps[..i], tx, nowMilli)
    {
      assert ps[..i + 1][..i] == ps[..i];
      assert ps[..i + 1] == ps[..i] + [ps[i]];
      if ps[i].expiresAtMilli > nowMilli {
        if ps[i].transactionId == tx {
          released := true;
        } else {
          active := active + [ps[i]];
        }
      }
    }
    assert ps[..|ps|] == ps;
  }

  class HealthRepository {
    var docs: map<string, Doc>
    var counters: Store

    constructor ()
      ensures docs == map[] && counters == map[]
    {
      docs, counters := map[], map[];
    }

    /** SETNX. */
    method Ensure(g: string, now: Time)
      modifies this`docs
      ensures docs == if g in old(docs) then old(docs) else old(docs)[g := Encode(Breaker.Fresh(g, now))]
    {
      if g !in docs {
        docs := docs[g := Doc(g, Healthy, None, 0, None, now)];
      }
    }

    method Get(g: string) returns (r: Result<RuntimeState>)
      ensures r == if g in docs then Ok(Decode(docs[g])) else Err(NotFound)
    {
      if g !in docs {
        return Err(NotFound);
      }
      r := Ok(Decode(docs[g]));
    }

    method Save(state: RuntimeState)
      modifies this`docs
      ensures docs == old(docs)[state.gateway := Encode(state)]
      ensures Decode(docs[state.gateway]) == state
    {
      docs := docs[state.gateway := Encode(state)];
    }

    method PruneExpiredHalfOpenProbes(g: string, now: Time) returns (r: Result<RuntimeState>)
      modifies this`docs
      ensures if g in old(docs)
              then docs == old(docs)[g := ScriptPrune(old(docs)[g], now)] && r == Ok(Decode(docs[g]))
              else docs == old(docs) && r == Err(NotFound)
    {
      if g !in docs {
        return Err(NotFound);
      }
      var state := docs[g];
      if state.phase != HalfOpen {
        return Ok(Decode(state));
      }
      var active := ActiveProbes(ProbesOf(state), UnixMilli(now));
      state := state.(probes := if |active| > 0 then Some(active) else None);
      state := state.(inFlight := |active|);
      state := state.(updatedAt := now);
      docs := docs[g := state];
      r := Ok(Decode(state));
    }

    method TryAcquireHalfOpenProbe(
        g: string, tx: string, max: int, expiresAt: Time, now: Time) returns (r: Result<(RuntimeState, bool)>)
      modifies this`docs
      ensures if g in old(docs)
              then var (doc, acquired) := ScriptAcquire(old(docs)[g], tx, max, expiresAt, now);
                   docs == old(docs)[g := doc] && r == Ok((Decode(doc), acquired))
              else docs == old(docs) && r == Err(NotFound)
    {
      if g !in docs {
        return Err(NotFound);
      }
      var state := docs[g];
      if state.phase != HalfOpen {
        return Ok((Decode(state), false));
      }
      var active := ActiveProbes(ProbesOf(state), UnixMilli(now));
      state := state.(probes := if |active| > 0 then Some(active) else None);
      state := state.(inFlight := |active|);
      if |active| >= max {
        state := state.(updatedAt := now);
        docs := docs[g := state];
        return Ok((Decode(state), false));
      }
      active := active + [Probe(tx, UnixMilli(expiresAt))];
      state := state.(probes := Some(active));
      state := state.(inFlight := |active|);
      state := state.(updatedAt := now);
      docs := docs[g := state];
      r := Ok((Decode(state), true));
    }

    method ReleaseHalfOpenProbe(g: string, tx: string, now: Time) returns (r: Result<(RuntimeState, bool)>)
      modifies this`docs
      ensures if g in old(docs)
              then var (doc, released) := ScriptRelease(old(docs)[g], tx, now);
                   docs == old(docs)[g := doc] && r == Ok((Decode(doc), released))
              else docs == old(docs) && r == Err(NotFound)
    {
      if g !in docs {
        return Err(NotFound);
      }
      var state := docs[g];
      if state.phase != HalfOpen {
        return Ok((Decode(state), false));
      }
      var active, released := OtherActiveProbes(ProbesOf(state), tx, UnixMilli(now));
      state := state.(probes := if |active| > 0 then Some(active) else None);
      state := state.(inFlight := |active|);
      state := state.(updatedAt := now);
      docs := docs[g := state];
      r := Ok((Decode(state), released));
    }

    /** HINCRBY on the minute's hash, then EXPIRE, executed at the server time at. */
    method RecordEvent(event: Event, retention: Time, at: Time)
      modifies this`counters
      ensures counters == Increment(old(counters), event, retention, at)
    {
      var key := (event.gateway, BucketOf(event.createdAt));
      var ttl := retention + 2 * MINUTE;
      var hash := if key in counters && at < counters[key].expiresAt then counters[key] else Counter(0, 0, 0);
      if event.status == Success {
        hash := hash.(successes := hash.successes + 1);
      } else {
        hash := hash.(failures := hash.failures + 1);
      }
      counters := counters[key := hash.(expiresAt := at + ttl)];
    }

    /** One pipelined read per minute, then the sum of the replies. */
    method StatsSince(g: string, since: Time, until: Time, at: Time) returns (stats: Stats)
      ensures stats == Query(counters, g, since, until, at)
    {
      var startBucket, endBucket := BucketOf(since), BucketOf(until);
      var commands: seq<Counter> := [];
      var bucket := startBucket;
      while bucket <= endBucket
        invariant bucket == startBucket + 60 * |commands|
        invariant forall k :: 0 <= k < |commands| ==>
          startBucket + 60 * k <= endBucket && commands[k] == Read(counters, g, startBucket + 60 * k, at)
      {
        commands := commands + [Read(counters, g, bucket, at)];
        bucket := bucket + 60;
      }
      ghost var total := SumBuckets(counters, g, startBucket, endBucket, at);
      var successes, failures := 0, 0;
      for i := 0 to |commands|
        invariant var rest := SumBuckets(counters, g, startBucket + 60 * i, endBucket, at);
                  successes + rest.successes == total.successes && failures + rest.failures == total.failures
      {
        successes := successes + commands[i].successes;
        failures := failures + commands[i].failures;
      }
      stats := Stats(g, successes, failures);
    }
  }

  class BlacklistRepository {
    var store: Blacklist.RedisStore

    constructor ()
      ensures store == Blacklist.RedisStore(map[], map[])
    {
      store := Blacklist.RedisStore(map[], map[]);
    }

    /** SMEMBERS, copied into a set. */
    method BlacklistedGateways(o: string) returns (result: set<string>)
      ensures result == Blacklist.Members(store, o)
    {
      result := {};
      var left := if o in store.sets then store.sets[o] else {};
      while left != {}
        invariant result + left == Blacklist.Members(store, o)
      {
        var gateway :| gateway in left;
        left := left - {gateway};
        result := result + {gateway};
      }
    }

    method RecordOutcome(
        o: string, g: string, status: Status, threshold: int, now: Time) returns (r: Result<Blacklist.Answer>)
      modifies this
      ensures (store, r) == Blacklist.Script(old(store), o, g, status, threshold, now)
    {
      if !status.IsFinal() {
        return Err(InvalidStatus);
      }
      var failureThreshold := if threshold <= 0 then 1 else threshold;
      var hash := if (o, g) in store.hashes then store.hashes[(o, g)] else Blacklist.Hash(0, 0);
      var failures, successes := hash.failures, hash.successes;
      var members := if o in store.sets then store.sets[o] else {};
      var was := g in members;
      var blacklisted := was;
      if status == Success {
        successes := successes + 1;
        blacklisted := false;
        members := members - {g};
      } else if status == Failure {
        failures := failures + 1;
        if successes == 0 && failures >= failureThreshold {
          blacklisted := true;
          members := members + {g};
        }
      }
      store := Blacklist.RedisStore(store.hashes[(o, g) := Blacklist.Hash(failures, successes)],
                                    store.sets[o := members]);
      r := Ok(Blacklist.Answer(Blacklist.Summary(o, g, failures, successes, blacklisted, now), blacklisted && !was));
    }
  }

  class TransactionRepository {
    var transactions: Transactions.Table
    var attempts: map<string, nat>

    constructor ()
      ensures transactions == map[] && attempts == map[]
    {
      transactions, attempts := map[], map[];
    }

    /** INCR. */
    method NextAttempt(o: string) returns (attempt: nat)
      modifies this`attempts
      ensures attempt == Reference.NextAttempt(old(attempts), o) && attempts == old(attempts)[o := attempt]
      ensures attempt == if o in old(attempts) then old(attempts)[o] + 1 else 1
    {
      attempt := (if o in attempts then attempts[o] else 0) + 1;
      attempts := attempts[o := attempt];
    }

    /** SETNX. */
    method Save(tx: Transaction) returns (r: Result<()>)
      modifies this`transactions
      ensures (transactions, r) == Transactions.Save(old(transactions), tx)
    {
      var created := tx.id !in transactions;
      if created {
        transactions := transactions[tx.id := tx];
      }
      r := if created then Ok(()) else Err(Conflict);
    }

    method GetByID(id: string) returns (r: Result<Transaction>)
      ensures r == if id in transactions then Ok(transactions[id]) else Err(NotFound)
    {
      r := if id in transactions then Ok(transactions[id]) else Err(NotFound);
    }

    /** completeTransactionScript. */
    method RunScript(id: string, status: Status, now: Time) returns (reply: Transactions.ScriptReply)
      modifies this`transactions
      ensures (transactions, reply) == Transactions.Script(old(transactions), id, status, now)
    {
      if id !in transactions {
        return Transactions.Missing;
      }
      var txn := transactions[id];
      var current := txn.status;
      if current == Success || current == Failure {
        return if current == status then Transactions.Idempotent(txn) else Transactions.Clash(current);
      }
      txn := txn.(status := status);
      txn := txn.(updatedAt := now);
      txn := txn.(completedAt := Some(now));
      transactions := transactions[id := txn];
      reply := Transactions.Changed(txn);
    }

    /** The same table and answer as the memory repository's Complete. */
    method Complete(id: string, status: Status, now: Time) returns (r: Result<Transactions.Completion>)
      modifies this`transactions
      ensures (transactions, r) == Transactions.Complete(old(transactions), id, status, now)
    {
      if !status.IsFinal() {
        return Err(InvalidStatus);
      }
      Transactions.ScriptAgrees(transactions, id, status, now);
      var reply := RunScript(id, status, now);
      match reply
      case Missing => r := Err(NotFound);
      case Clash(_) => r := Err(Conflict);
      case Idempotent(tx) => r := Ok(Transactions.Completion(tx, false));
      case Changed(tx) => r := Ok(Transactions.Completion(tx, true));
    }
  }
}
