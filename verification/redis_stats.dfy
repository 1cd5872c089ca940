/** The minute buckets of the Redis health repository: expiring success and failure counters,
    compared with the exact window of the memory repository. */
module RedisStats {
  import opened Domain
  import opened Breaker
  import opened EventLog

  /** The start of an instant's minute, in Unix seconds: the bucket's key. */
  function BucketOf(t: Time): int {
    t / MINUTE * 60
  }

  /** The first instant of a bucket, and the last. */
  function Opens(b: int): Time { b * SECOND }
  function Closes(b: int): Time { b * SECOND + MINUTE - 1 }

  lemma InBucket(t: Time, b: int)
    requires b % 60 == 0
    ensures BucketOf(t) == b <==> Opens(b) <= t <= Closes(b)
    ensures BucketOf(t) % 60 == 0
  {
  }

  datatype Counter = Counter(successes: nat, failures: nat, expiresAt: Time)

  type Store = map<(string, int), Counter>

  /** HGETALL at a server time: an expired key reads as absent. */
  function Read(s: Store, g: string, b: int, at: Time): Counter {
    if (g, b) in s && at < s[(g, b)].expiresAt then s[(g, b)] else Counter(0, 0, 0)
  }

  /** RecordEvent: HINCRBY, then EXPIRE, executed at a server time. */
  function Increment(s: Store, e: Event, retention: Time, at: Time): Store {
    var b := BucketOf(e.createdAt);
    var c := Read(s, e.gateway, b, at);
    var expiresAt := at + retention + 2 * MINUTE;
    s[(e.gateway, b) :=
        if e.status == Success then Counter(c.successes + 1, c.failures, expiresAt)
        else Counter(c.successes, c.failures + 1, expiresAt)]
  }

  /** The sum of the buckets from b to the last one. */
  function SumBuckets(s: Store, g: string, b: int, last: int, at: Time): Stats
    decreases last - b
  {
    if b > last then Stats(g, 0, 0)
    else
      var rest, c := SumBuckets(s, g, b + 60, last, at), Read(s, g, b, at);
      Stats(g, c.successes + rest.successes, c.failures + rest.failures)
  }

  /** StatsSince with one-minute buckets. */
  function Query(s: Store, g: string, since: Time, until: Time, at: Time): Stats {
    SumBuckets(s, g, BucketOf(since), BucketOf(until), at)
  }

  // ---------------------------------------------------------------- whole minutes against the exact window

  lemma {:induction false} CountSplits(es: seq<Event>, g: string, status: Status, a: Time, b: Time, c: Time)
    requires a <= b + 1 && b <= c
    ensures Count(es, g, status, a, c) == Count(es, g, status, a, b) + Count(es, g, status, b + 1, c)
  {
    if es != [] {
      CountSplits(es[..|es| - 1], g, status, a, b, c);
    }
  }

  lemma {:induction false} NothingInAnEmptySpan(es: seq<Event>, g: string, status: Status, a: Time, b: Time)
    requires forall e :: e in es ==> !(a <= e.createdAt <= b)
    ensures Count(es, g, status, a, b) == 0
  {
    if es != [] {
      var rest, last := es[..|es| - 1], es[|es| - 1];
      assert last in es && forall e :: e in rest ==> e in es;
      NothingInAnEmptySpan(rest, g, status, a, b);
    }
  }

  /** The store's readable counters are the log's per-minute counts in [b, last]. */
  ghost predicate Mirrors(s: Store, es: seq<Event>, g: string, b: int, last: int, at: Time) {
    forall k :: b <= k <= last && k % 60 == 0 ==>
      && Read(s, g, k, at).successes == Count(es, g, Success, Opens(k), Closes(k))
      && Read(s, g, k, at).failures == Count(es, g, Failure, Opens(k), Closes(k))
  }

  lemma {:induction false} SumCountsWholeMinutes(s: Store, es: seq<Event>, g: string, b: int, last: int, at: Time)
    requires Mirrors(s, es, g, b, last, at) && b % 60 == 0 && last % 60 == 0 && b <= last + 60
    ensures SumBuckets(s, g, b, last, at) == StatsOf(es, g, Opens(b), Closes(last))
    decreases last - b
  {
    if b > last {
      assert b == last + 60;
      NothingInAnEmptySpan(es, g, Success, Opens(b), Closes(last));
      NothingInAnEmptySpan(es, g, Failure, Opens(b), Closes(last));
    } else {
      SumCountsWholeMinutes(s, es, g, b + 60, last, at);
      assert Opens(b + 60) == Closes(b) + 1;
      CountSplits(es, g, Success, Opens(b), Closes(b), Closes(last));
      CountSplits(es, g, Failure, Opens(b), Closes(b), Closes(last));
    }
  }

  /** Componentwise, the exact count never exceeds the count by whole minutes; when no event
      is later than until, all of the excess is older than since by less than a minute. */
  lemma WholeMinutesSandwich(es: seq<Event>, g: string, status: Status, since: Time, until: Time)
    requires since <= until
    ensures var exact, bucketed := Count(es, g, status, since, until),
            Count(es, g, status, Opens(BucketOf(since)), Closes(BucketOf(until)));
            && exact <= bucketed
            && ((forall e :: e in es ==> e.createdAt <= until) ==>
                  && bucketed == Count(es, g, status, Opens(BucketOf(since)), until)
                  && bucketed == exact + Count(es, g, status, Opens(BucketOf(since)), since - 1))
    ensures since - MINUTE < Opens(BucketOf(since)) <= since
  {
    InBucket(since, BucketOf(since));
    InBucket(until, BucketOf(until));
    var a, c := Opens(BucketOf(since)), Closes(BucketOf(until));
    CountSplits(es, g, status, a, since - 1, c);
    CountSplits(es, g, status, since, until, c);
    CountSplits(es, g, status, a, since - 1, until);
    if forall e :: e in es ==> e.createdAt <= until {
      NothingInAnEmptySpan(es, g, status, until + 1, c);
    }
  }

  // ---------------------------------------------------------------- expiry loses nothing a health query reads

  /** One RecordEvent as the server executes it. */
  datatype Write = Write(event: Event, at: Time)

  function StoreAfter(ws: seq<Write>, r: RoutingConfig): Store {
    if ws == [] then map[]
    else
      var w := ws[|ws| - 1];
      Increment(StoreAfter(ws[..|ws| - 1], r), w.event, r.Retention(), w.at)
  }

  function Log(ws: seq<Write>): seq<Event> {
    if ws == [] then [] else Log(ws[..|ws| - 1]) + [ws[|ws| - 1].event]
  }

  /** How late a command may reach the server, measured from the clock reading it carries. */
  function Patience(r: RoutingConfig): Time {
    r.Window() + MINUTE
  }

  ghost predicate Timely(ws: seq<Write>, r: RoutingConfig) {
    forall w :: w in ws ==> w.event.createdAt <= w.at <= w.event.createdAt + Patience(r) && w.event.status.IsFinal()
  }

  /** The counters of one bucket after a run: exact, and alive long enough. */
  ghost predicate Kept(s: Store, es: seq<Event>, r: RoutingConfig, g: string, b: int) {
    var successes, failures := Count(es, g, Success, Opens(b), Closes(b)), Count(es, g, Failure, Opens(b), Closes(b));
    if (g, b) in s then
      && s[(g, b)].successes == successes && s[(g, b)].failures == failures
      && s[(g, b)].expiresAt >= Opens(b) + r.Retention() + 2 * MINUTE
    else successes == 0 && failures == 0
  }

  /** A timely write into a bucket finds its counters alive. */
  lemma WriteIsInTime(w: Write, r: RoutingConfig, b: int)
    requires r.Usable() && w.event.createdAt <= w.at <= w.event.createdAt + Patience(r) && b % 60 == 0
    requires BucketOf(w.event.createdAt) == b
    ensures Opens(b) <= w.at < Opens(b) + r.Retention() + 2 * MINUTE
  {
    hide BucketOf;
    InBucket(w.event.createdAt, b);
    assert r.Retention() == 2 * r.Window() && r.Window() > 0;
  }

  lemma BucketMatches(e: Event, g: string, status: Status, b: int)
    requires b % 60 == 0
    ensures Matches(e, g, status, Opens(b), Closes(b)) <==>
              e.gateway == g && e.status == status && BucketOf(e.createdAt) == b
  {
    hide BucketOf, Opens, Closes;
    InBucket(e.createdAt, b);
  }

  lemma WriteKeeps(s: Store, es: seq<Event>, w: Write, r: RoutingConfig, g: string, b: int)
    requires r.Usable() && w.event.createdAt <= w.at <= w.event.createdAt + Patience(r) && w.event.status.IsFinal()
             && b % 60 == 0
    requires Kept(s, es, r, g, b)
    ensures Kept(Increment(s, w.event, r.Retention(), w.at), es + [w.event], r, g, b)
  {
    BucketMatches(w.event, g, Success, b);
    BucketMatches(w.event, g, Failure, b);
    CountAppend(es, w.event, g, Success, Opens(b), Closes(b));
    CountAppend(es, w.event, g, Failure, Opens(b), Closes(b));
    if BucketOf(w.event.createdAt) == b {
      WriteIsInTime(w, r, b);
    }
    hide BucketOf, Opens, Closes, Matches, Count, Patience;
  }

  lemma {:induction false} BucketsAreKept(ws: seq<Write>, r: RoutingConfig, g: string, b: int)
    requires r.Usable() && Timely(ws, r) && b % 60 == 0
    ensures Kept(StoreAfter(ws, r), Log(ws), r, g, b)
  {
    hide Kept, Increment;
    if ws == [] {
      NothingKept(r, g, b);
    } else {
      var rest, w := ws[..|ws| - 1], ws[|ws| - 1];
      assert w in ws && forall x :: x in rest ==> x in ws;
      BucketsAreKept(rest, r, g, b);
      WriteKeeps(StoreAfter(rest, r), Log(rest), w, r, g, b);
    }
  }

  lemma NothingKept(r: RoutingConfig, g: string, b: int)
    ensures Kept(map[], [], r, g, b)
  {
  }

  /** With one window, every bucket a health query at now visits, if an event ever reached
      it, is still alive when the query executes. */
  lemma {:induction false} VisitedBucketsAreAlive(
      ws: seq<Write>, r: RoutingConfig, g: string, b: int, now: Time, at: Time)
    requires r.Usable() && Timely(ws, r) && b % 60 == 0
    requires BucketOf(now - r.Window()) <= b && at <= now + Patience(r)
    requires exists e :: e in Log(ws) && e.gateway == g && BucketOf(e.createdAt) == b
    ensures (g, b) in StoreAfter(ws, r) && at < StoreAfter(ws, r)[(g, b)].expiresAt
  {
    BucketsAreKept(ws, r, g, b);
    QueriedBucketIsRecent(r, b, now);
    var e :| e in Log(ws) && e.gateway == g && BucketOf(e.createdAt) == b;
    InBucket(e.createdAt, b);
    LoggedIsFinal(ws, r, e);
    SomethingCounted(Log(ws), e, Opens(b), Closes(b));
  }

  lemma QueriedBucketIsRecent(r: RoutingConfig, b: int, now: Time)
    requires BucketOf(now - r.Window()) <= b
    ensures Opens(b) + r.Retention() + 2 * MINUTE > now + Patience(r)
  {
  }

  lemma {:induction false} LoggedIsFinal(ws: seq<Write>, r: RoutingConfig, e: Event)
    requires Timely(ws, r) && e in Log(ws)
    ensures e.status.IsFinal()
  {
    var rest, w := ws[..|ws| - 1], ws[|ws| - 1];
    assert w in ws && forall x :: x in rest ==> x in ws;
    if e != w.event {
      LoggedIsFinal(rest, r, e);
    }
  }

  lemma {:induction false} SomethingCounted(es: seq<Event>, e: Event, since: Time, until: Time)
    requires e in es && since <= e.createdAt <= until
    ensures Count(es, e.gateway, e.status, since, until) > 0
  {
    var rest, last := es[..|es| - 1], es[|es| - 1];
    if e != last {
      assert e in rest;
      SomethingCounted(rest, e, since, until);
    }
  }

  /** So after any run of timely writes the health query of the expiring store is the exact
      count of every event ever recorded in the whole minutes of the window, and dominates the
      exact window; when no event is later than now, it counts from the start of the window's
      first minute to now. */
  lemma HealthQuerySandwich(ws: seq<Write>, r: RoutingConfig, g: string, now: Time, at: Time)
    requires r.Usable() && Timely(ws, r) && at <= now + Patience(r)
    ensures var window := now - r.Window();
            var redis, exact := Query(StoreAfter(ws, r), g, window, now, at), StatsOf(Log(ws), g, window, now);
            && redis == StatsOf(Log(ws), g, Opens(BucketOf(window)), Closes(BucketOf(now)))
            && exact.successes <= redis.successes && exact.failures <= redis.failures
            && window - MINUTE < Opens(BucketOf(window)) <= window
            && ((forall e :: e in Log(ws) ==> e.createdAt <= now) ==>
                  redis == StatsOf(Log(ws), g, Opens(BucketOf(window)), now))
  {
    var window := now - r.Window();
    var first, last := BucketOf(window), BucketOf(now);
    var s, es := StoreAfter(ws, r), Log(ws);
    InBucket(window, first);
    InBucket(now, last);
    assert first <= last;
    forall k | first <= k <= last && k % 60 == 0
      ensures Read(s, g, k, at).successes == Count(es, g, Success, Opens(k), Closes(k))
      ensures Read(s, g, k, at).failures == Count(es, g, Failure, Opens(k), Closes(k))
    {
      BucketsAreKept(ws, r, g, k);
      QueriedBucketIsRecent(r, k, now);
    }
    SumCountsWholeMinutes(s, es, g, first, last, at);
    WholeMinutesSandwich(es, g, Success, window, now);
    WholeMinutesSandwich(es, g, Failure, window, now);
  }

  /** The first nanosecond of an instant's minute. */
  function MinuteStart(t: Time): Time {
    t - t % 60_000_000_000
  }

  lemma MinutesAreBuckets(t: Time)
    ensures Opens(BucketOf(t)) == MinuteStart(t) && Closes(BucketOf(t)) == MinuteStart(t) + 59_999_999_999
  {
    assert t == t / MINUTE * MINUTE + t % MINUTE;
  }

  /** The same from the configured seconds: after writes that reach the server no later than a
      window and a minute after the reading they carry, a health query that does so too answers
      the events dated from the minute its window begins in to the end of its own minute. */
  lemma HealthQueryCountsMinutes(ws: seq<Write>, r: RoutingConfig, g: string, now: Time, at: Time)
    requires r.Usable()
    requires var patience := (r.healthWindowSeconds + 60) * 1_000_000_000;
             && (forall w :: w in ws ==>
                   w.event.createdAt <= w.at <= w.event.createdAt + patience && w.event.status != Pending)
             && at <= now + patience
    ensures var since := now - r.healthWindowSeconds * 1_000_000_000;
            var from, to := MinuteStart(since), MinuteStart(now) + 59_999_999_999;
            Query(StoreAfter(ws, r), g, since, now, at) ==
            Stats(g, |Outcomes(Log(ws), g, Success, from, to)|, |Outcomes(Log(ws), g, Failure, from, to)|)
  {
    hide Query, StoreAfter, Log, Outcomes;
    assert Timely(ws, r);
    HealthQuerySandwich(ws, r, g, now, at);
    MinutesAreBuckets(now - r.Window());
    MinutesAreBuckets(now);
    var from, to := MinuteStart(now - r.Window()), MinuteStart(now) + 59_999_999_999;
    CountIsCardinality(Log(ws), g, Success, from, to);
    CountIsCardinality(Log(ws), g, Failure, from, to);
  }

  /** Every write leaves its minute's counters to live for two windows and two minutes from the
      time it reaches the server. */
  lemma WriteSetsTheExpiry(ws: seq<Write>, r: RoutingConfig, w: Write)
    ensures var minute := MinuteStart(w.event.createdAt) / 1_000_000_000;
            var s := StoreAfter(ws + [w], r);
            && (w.event.gateway, minute) in s
            && s[(w.event.gateway, minute)].expiresAt == w.at + (2 * r.healthWindowSeconds + 120) * 1_000_000_000
  {
    assert (ws + [w])[..|ws|] == ws;
    MinutesAreBuckets(w.event.createdAt);
    assert BucketOf(w.event.createdAt) * SECOND == MinuteStart(w.event.createdAt);
  }
}
