/** The sliding-window outcome log of the memory health repository: retention drops old
    events, window statistics count the rest. */
module EventLog {
  import opened Domain
  import opened Breaker

  datatype Event = Event(gateway: string, transactionId: string, status: Status, createdAt: Time)

  /** The order-preserving filter that retention applies. */
  function Retain(es: seq<Event>, cutoff: Time): seq<Event> {
    if es == [] then []
    else
      var rest, last := es[..|es| - 1], es[|es| - 1];
      if last.createdAt >= cutoff then Retain(rest, cutoff) + [last] else Retain(rest, cutoff)
  }

  /** RecordEvent: drop what is older than the retention, then append. */
  function Record(es: seq<Event>, e: Event, retention: Time): seq<Event> {
    Retain(es, e.createdAt - retention) + [e]
  }

  predicate Matches(e: Event, g: string, status: Status, since: Time, until: Time) {
    e.gateway == g && e.status == status && since <= e.createdAt <= until
  }

  function Count(es: seq<Event>, g: string, status: Status, since: Time, until: Time): nat {
    if es == [] then 0
    else
      var rest, last := es[..|es| - 1], es[|es| - 1];
      Count(rest, g, status, since, until) + if Matches(last, g, status, since, until) then 1 else 0
  }

  /** StatsSince. */
  function StatsOf(es: seq<Event>, g: string, since: Time, until: Time): Stats {
    Stats(g, Count(es, g, Success, since, until), Count(es, g, Failure, since, until))
  }

  // ---------------------------------------------------------------- counting is cardinality

  /** The positions of g's events with that status, dated from since to until. */
  function Outcomes(log: seq<Event>, g: string, status: Status, since: Time, until: Time): set<nat> {
    set i: nat | i < |log| && log[i].gateway == g && log[i].status == status && since <= log[i].createdAt <= until
  }

  lemma OneMoreOutcome(log: seq<Event>, e: Event, g: string, status: Status, since: Time, until: Time)
    ensures var before := Outcomes(log, g, status, since, until);
            && |log| !in before
            && Outcomes(log + [e], g, status, since, until)
               == before + if Matches(e, g, status, since, until) then {|log|} else {}
  {
  }

  lemma {:induction false} CountIsCardinality(log: seq<Event>, g: string, status: Status, since: Time, until: Time)
    ensures Count(log, g, status, since, until) == |Outcomes(log, g, status, since, until)|
  {
    hide Outcomes;
    if log == [] {
      assert Outcomes(log, g, status, since, until) == {} by { NoOutcomes(g, status, since, until); }
    } else {
      var rest, last := log[..|log| - 1], log[|log| - 1];
      assert log == rest + [last];
      CountIsCardinality(rest, g, status, since, until);
      OneMoreOutcome(rest, last, g, status, since, until);
      if !Matches(last, g, status, since, until) {
        assert Outcomes(rest, g, status, since, until) + {} == Outcomes(rest, g, status, since, until);
      }
    }
  }

  lemma NoOutcomes(g: string, status: Status, since: Time, until: Time)
    ensures Outcomes([], g, status, since, until) == {}
  {
  }

  // ---------------------------------------------------------------- retention loses nothing a window query reads

  lemma CountAppend(es: seq<Event>, e: Event, g: string, status: Status, since: Time, until: Time)
    ensures Count(es + [e], g, status, since, until)
         == Count(es, g, status, since, until) + if Matches(e, g, status, since, until) then 1 else 0
  {
    assert (es + [e])[..|es|] == es;
  }

  lemma RetainAppend(es: seq<Event>, e: Event, cutoff: Time)
    ensures Retain(es + [e], cutoff) == if e.createdAt >= cutoff then Retain(es, cutoff) + [e] else Retain(es, cutoff)
  {
    assert (es + [e])[..|es|] == es;
  }

  lemma {:induction false} RetainTwice(es: seq<Event>, c: Time, d: Time)
    requires c <= d
    ensures Retain(Retain(es, c), d) == Retain(es, d)
  {
    if es != [] {
      var rest, last := es[..|es| - 1], es[|es| - 1];
      RetainTwice(rest, c, d);
      if last.createdAt >= c {
        RetainAppend(Retain(rest, c), last, d);
      }
    }
  }

  lemma {:induction false} CountRetained(
      es: seq<Event>, cutoff: Time, g: string, status: Status, since: Time, until: Time)
    requires cutoff <= since
    ensures Count(Retain(es, cutoff), g, status, since, until) == Count(es, g, status, since, until)
  {
    if es != [] {
      var rest, last := es[..|es| - 1], es[|es| - 1];
      CountRetained(rest, cutoff, g, status, since, until);
      if last.createdAt >= cutoff {
        CountAppend(Retain(rest, cutoff), last, g, status, since, until);
      }
    }
  }

  /** The retained log and the never-pruned log hold the same events from c on. */
  ghost predicate Agree(retained: seq<Event>, full: seq<Event>, c: Time) {
    Retain(retained, c) == Retain(full, c)
  }

  lemma AgreeLater(retained: seq<Event>, full: seq<Event>, c: Time, d: Time)
    requires Agree(retained, full, c) && c <= d
    ensures Agree(retained, full, d)
  {
    RetainTwice(retained, c, d);
    RetainTwice(full, c, d);
  }

  lemma AgreeRecord(retained: seq<Event>, full: seq<Event>, c: Time, e: Event, retention: Time)
    requires Agree(retained, full, c) && e.createdAt - retention <= c
    ensures Agree(Record(retained, e, retention), full + [e], c)
  {
    RetainTwice(retained, e.createdAt - retention, c);
    RetainAppend(Retain(retained, e.createdAt - retention), e, c);
    RetainAppend(full, e, c);
  }

  lemma AgreeingStats(retained: seq<Event>, full: seq<Event>, c: Time, g: string, since: Time, until: Time)
    requires Agree(retained, full, c) && c <= since
    ensures StatsOf(retained, g, since, until) == StatsOf(full, g, since, until)
  {
    forall status: Status
      ensures Count(retained, g, status, since, until) == Count(full, g, status, since, until)
    {
      CountRetained(retained, c, g, status, since, until);
      CountRetained(full, c, g, status, since, until);
    }
  }

  datatype Recording = Recording(event: Event, retention: Time) {
    function Cutoff(): Time { event.createdAt - retention }
  }

  /** The retained log after a sequence of RecordEvent calls on an empty repository. */
  function RetainedAfter(rs: seq<Recording>): seq<Event> {
    if rs == [] then []
    else
      var last := rs[|rs| - 1];
      Record(RetainedAfter(rs[..|rs| - 1]), last.event, last.retention)
  }

  function EventsOf(rs: seq<Recording>): seq<Event> {
    seq(|rs|, i requires 0 <= i < |rs| => rs[i].event)
  }

  lemma {:induction false} RetainedAgrees(rs: seq<Recording>, c: Time)
    requires forall r :: r in rs ==> r.Cutoff() <= c
    ensures Agree(RetainedAfter(rs), EventsOf(rs), c)
  {
    if rs == [] {
      assert EventsOf(rs) == [];
    } else {
      var rest, last := rs[..|rs| - 1], rs[|rs| - 1];
      RetainedAgrees(rest, c);
      assert last in rs && last.Cutoff() <= c;
      AgreeRecord(RetainedAfter(rest), EventsOf(rest), c, last.event, last.retention);
      assert EventsOf(rs) == EventsOf(rest) + [last.event];
    }
  }

  /** However the log was pruned, a query that starts at or after every cutoff applied so
      far counts exactly what the never-pruned log holds. */
  lemma PruningIsInvisible(rs: seq<Recording>, g: string, since: Time, until: Time)
    requires forall r :: r in rs ==> r.Cutoff() <= since
    ensures StatsOf(RetainedAfter(rs), g, since, until) == StatsOf(EventsOf(rs), g, since, until)
  {
    RetainedAgrees(rs, since);
    AgreeingStats(RetainedAfter(rs), EventsOf(rs), since, g, since, until);
  }

  /** With one window, retention of twice the window, and no event from the future, the
      health query [now - window, now] is such a query. */
  lemma WindowQueriesAreExact(rs: seq<Recording>, r: RoutingConfig, g: string, now: Time)
    requires r.Usable()
    requires forall x :: x in rs ==> x.retention == r.Retention() && x.event.createdAt <= now
    ensures StatsOf(RetainedAfter(rs), g, now - r.Window(), now) == StatsOf(EventsOf(rs), g, now - r.Window(), now)
  {
    PruningIsInvisible(rs, g, now - r.Window(), now);
  }

  /** The bound on the cutoffs cannot be dropped: a late clock reading far ahead of the
      next one prunes an event that the next window still covers. */
  lemma ClockJumpLosesEvents()
    ensures exists rs: seq<Recording>, g: string, since: Time, until: Time ::
              StatsOf(RetainedAfter(rs), g, since, until) != StatsOf(EventsOf(rs), g, since, until)
  {
    var early := Recording(Event("g", "a", Success, 0), 10);
    var jumped := Recording(Event("g", "b", Success, 100), 10);
    var rs := [early, jumped];
    assert rs[..1] == [early] && [early][..0] == [];
    assert RetainedAfter([early]) == [early.event];
    assert Retain([early.event], 90) == [];
    assert RetainedAfter(rs) == [jumped.event];
    assert EventsOf(rs) == [early.event, jumped.event];
    assert EventsOf(rs)[..1] == [early.event];
    assert Count([early.event], "g", Success, 0, 0) == 1;
    assert Count(EventsOf(rs), "g", Success, 0, 0) == 1;
    assert Count(RetainedAfter(rs), "g", Success, 0, 0) == 0;
    assert StatsOf(RetainedAfter(rs), "g", 0, 0) != StatsOf(EventsOf(rs), "g", 0, 0);
  }

  // ---------------------------------------------------------------- a success trips a gateway only for a reason

  /** An earlier success counted at n1 that the window at n2 no longer covers. */
  ghost predicate SuccessAgedOut(es: seq<Event>, g: string, w: Time, n1: Time, n2: Time) {
    exists e :: e in es && Matches(e, g, Success, n1 - w, n1) && e.createdAt < n2 - w
  }

  lemma {:induction false} WindowSlides(es: seq<Event>, g: string, w: Time, n1: Time, n2: Time)
    requires n1 <= n2 && (forall e :: e in es ==> e.createdAt <= n1)
    ensures Count(es, g, Failure, n2 - w, n2) <= Count(es, g, Failure, n1 - w, n1)
    ensures !SuccessAgedOut(es, g, w, n1, n2) ==> Count(es, g, Success, n2 - w, n2) >= Count(es, g, Success, n1 - w, n1)
  {
    if es != [] {
      var rest, last := es[..|es| - 1], es[|es| - 1];
      assert last in es && forall e :: e in rest ==> e in es;
      WindowSlides(rest, g, w, n1, n2);
    }
  }

  lemma {:induction false} OtherGatewaysDoNotCount(
      es: seq<Event>, more: seq<Event>, g: string, status: Status, since: Time, until: Time)
    requires forall e :: e in more ==> e.gateway != g
    ensures Count(es + more, g, status, since, until) == Count(es, g, status, since, until)
  {
    if more == [] {
      assert es + more == es;
    } else {
      var rest, last := more[..|more| - 1], more[|more| - 1];
      OtherGatewaysDoNotCount(es, rest, g, status, since, until);
      assert es + more == (es + rest) + [last];
      CountAppend(es + rest, last, g, status, since, until);
    }
  }

  lemma MoreSuccessesRaiseTheRate(a: Stats, b: Stats)
    requires a.Total() > 0 && b.successes > a.successes && b.failures <= a.failures
    ensures b.Rate() >= a.Rate()
  {
    RatioGrows(a.successes, a.failures, b.successes, b.failures);
    var s, t, u, v := a.successes, a.Total(), b.successes, b.Total();
    CrossMultiply(s as real, t as real, u as real, v as real);
  }

  lemma RatioGrows(p: nat, q: nat, x: nat, y: nat)
    requires p <= x && y <= q
    ensures x as real * (p + q) as real >= p as real * (x + y) as real
  {
    assert p * y <= p * q by { Scale(p, y, q); }
    assert q * p <= q * x by { Scale(q, p, x); }
    assert x * (p + q) >= p * (x + y);
    assert (x * (p + q)) as real == x as real * (p + q) as real;
    assert (p * (x + y)) as real == p as real * (x + y) as real;
  }

  lemma CrossMultiply(s: real, t: real, u: real, v: real)
    requires t > 0.0 && v > 0.0 && u * t >= s * v
    ensures u / v >= s / t
  {
    var a, b := u / v, s / t;
    assert a * v == u && b * t == s;
    assert (a - b) * (t * v) == u * t - s * v;
    assert t * v > 0.0;
  }

  /** Between two consecutive evaluations of a healthy gateway, the second on a success:
      the threshold is crossed only if the first window was too small to judge, or a
      success it counted has since aged out. */
  lemma SuccessTripsOnlyForAReason(
      full: seq<Event>, others: seq<Event>, e: Event, g: string, r: RoutingConfig, n1: Time, n2: Time)
    requires r.Usable() && n1 <= n2
    requires forall x :: x in full ==> x.createdAt <= n1
    requires forall x :: x in others ==> x.gateway != g
    requires e == Event(g, e.transactionId, Success, n2)
    requires !Breached(StatsOf(full, g, n1 - r.Window(), n1), r)
    requires Breached(StatsOf(full + others + [e], g, n2 - r.Window(), n2), r)
    ensures StatsOf(full, g, n1 - r.Window(), n1).Total() < r.minCallbackCount
            || SuccessAgedOut(full, g, r.Window(), n1, n2)
  {
    var w := r.Window();
    var before, after := StatsOf(full, g, n1 - w, n1), StatsOf(full + others + [e], g, n2 - w, n2);
    WindowSlides(full, g, w, n1, n2);
    OtherGatewaysDoNotCount(full, others, g, Success, n2 - w, n2);
    CountAppend(full + others, e, g, Success, n2 - w, n2);
    OtherGatewaysDoNotCount(full, others, g, Failure, n2 - w, n2);
    CountAppend(full + others, e, g, Failure, n2 - w, n2);
    if before.Total() >= r.minCallbackCount && !SuccessAgedOut(full, g, w, n1, n2) {
      assert after.successes > before.successes && after.failures <= before.failures;
      MoreSuccessesRaiseTheRate(before, after);
      assert false;
    }
  }
}
