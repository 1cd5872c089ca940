/** The per-order gateway blacklist: the nested map of the memory repository, the hash and
    set of the Redis script, and what both promise. */
module Blacklist {
  import opened Domain

  datatype Summary = Summary(
    orderId: string, gateway: string, failures: nat, successes: nat, blacklisted: bool, updatedAt: Time)

  /** A zero-valued summary, as read for a pair never seen. */
  const UNSEEN := Summary("", "", 0, 0, false, 0)

  type Summaries = map<string, map<string, Summary>>

  function Lookup(store: Summaries, o: string, g: string): Summary {
    if o in store && g in store[o] then store[o][g] else UNSEEN
  }

  function Effective(threshold: int): nat {
    if threshold <= 0 then 1 else threshold
  }

  function Apply(s: Summary, o: string, g: string, status: Status, threshold: int, now: Time): Summary {
    match status
    case Success => Summary(o, g, s.failures, s.successes + 1, false, now)
    case Failure =>
      Summary(o, g, s.failures + 1, s.successes,
              s.blacklisted || (s.successes == 0 && s.failures + 1 >= Effective(threshold)), now)
    case Pending => s
  }

  function ByGateway(store: Summaries, o: string): map<string, Summary> {
    if o in store then store[o] else map[]
  }

  datatype Answer = Answer(summary: Summary, newlyBlacklisted: bool)

  /** RecordOutcome of the memory repository. */
  function RecordOutcome(
      store: Summaries, o: string, g: string, status: Status, threshold: int, now: Time): (Summaries, Result<Answer>) {
    if !status.IsFinal() then (store, Err(InvalidStatus))
    else
      var before := Lookup(store, o, g);
      var after := Apply(before, o, g, status, threshold, now);
      (store[o := ByGateway(store, o)[g := after]], Ok(Answer(after, !before.blacklisted && after.blacklisted)))
  }

  /** BlacklistedGateways of the memory repository. */
  function Flagged(store: Summaries, o: string): set<string> {
    set g | g in ByGateway(store, o) && ByGateway(store, o)[g].blacklisted
  }

  lemma LookupAfterRecord(
      store: Summaries, o: string, g: string, status: Status, threshold: int, now: Time, o': string, g': string)
    requires status.IsFinal()
    ensures var (after, _) := RecordOutcome(store, o, g, status, threshold, now);
            Lookup(after, o', g') ==
            if o' == o && g' == g then Apply(Lookup(store, o, g), o, g, status, threshold, now)
              else Lookup(store, o', g')
  {
  }

  // ---------------------------------------------------------------- the Redis script

  datatype Hash = Hash(failures: nat, successes: nat)

  datatype RedisStore = RedisStore(hashes: map<(string, string), Hash>, sets: map<string, set<string>>)

  function Members(r: RedisStore, o: string): set<string> {
    if o in r.sets then r.sets[o] else {}
  }

  function HashOf(r: RedisStore, o: string, g: string): Hash {
    if (o, g) in r.hashes then r.hashes[(o, g)] else Hash(0, 0)
  }

  /** recordOrderGatewayOutcomeScript, as one atomic step, with the Go wrapper's checks. */
  function Script(
      r: RedisStore, o: string, g: string, status: Status, threshold: int, now: Time): (RedisStore, Result<Answer>) {
    if !status.IsFinal() then (r, Err(InvalidStatus))
    else
      var h := HashOf(r, o, g);
      var was := g in Members(r, o);
      var successes := if status == Success then h.successes + 1 else h.successes;
      var failures := if status == Failure then h.failures + 1 else h.failures;
      var added := status == Failure && successes == 0 && failures >= Effective(threshold);
      var blacklisted := if status == Success then false else was || added;
      var members :=
        if status == Success then Members(r, o) - {g}
        else if added then Members(r, o) + {g}
        else Members(r, o);
      (RedisStore(r.hashes[(o, g) := Hash(failures, successes)], r.sets[o := members]),
       Ok(Answer(Summary(o, g, failures, successes, blacklisted, now), blacklisted && !was)))
  }

  // ---------------------------------------------------------------- runs

  datatype Call = Call(orderId: string, gateway: string, status: Status, threshold: int, now: Time)

  function StoreAfter(calls: seq<Call>): Summaries {
    if calls == [] then map[]
    else
      var c := calls[|calls| - 1];
      RecordOutcome(StoreAfter(calls[..|calls| - 1]), c.orderId, c.gateway, c.status, c.threshold, c.now).0
  }

  function AnswerTo(calls: seq<Call>): Result<Answer>
    requires calls != []
  {
    var c := calls[|calls| - 1];
    RecordOutcome(StoreAfter(calls[..|calls| - 1]), c.orderId, c.gateway, c.status, c.threshold, c.now).1
  }

  function RedisAfter(calls: seq<Call>): RedisStore {
    if calls == [] then RedisStore(map[], map[])
    else
      var c := calls[|calls| - 1];
      Script(RedisAfter(calls[..|calls| - 1]), c.orderId, c.gateway, c.status, c.threshold, c.now).0
  }

  function RedisAnswerTo(calls: seq<Call>): Result<Answer>
    requires calls != []
  {
    var c := calls[|calls| - 1];
    Script(RedisAfter(calls[..|calls| - 1]), c.orderId, c.gateway, c.status, c.threshold, c.now).1
  }

  ghost predicate Related(store: Summaries, r: RedisStore) {
    forall o, g ::
      var s := Lookup(store, o, g);
      HashOf(r, o, g) == Hash(s.failures, s.successes) && (g in Members(r, o) <==> s.blacklisted)
  }

  lemma ScriptSimulates(
      store: Summaries, r: RedisStore, o: string, g: string, status: Status, threshold: int, now: Time)
    requires Related(store, r)
    ensures var (store', a), (r', b) := RecordOutcome(store, o, g, status, threshold, now),
            Script(r, o, g, status, threshold, now);
            Related(store', r') && a == b
  {
    var (store', _) := RecordOutcome(store, o, g, status, threshold, now);
    var (r', _) := Script(r, o, g, status, threshold, now);
    assert HashOf(r, o, g) == Hash(Lookup(store, o, g).failures, Lookup(store, o, g).successes);
    if status.IsFinal() {
      forall o', g'
        ensures var s := Lookup(store', o', g');
                HashOf(r', o', g') == Hash(s.failures, s.successes) && (g' in Members(r', o') <==> s.blacklisted)
      {
        LookupAfterRecord(store, o, g, status, threshold, now, o', g');
        assert HashOf(r, o', g') == Hash(Lookup(store, o', g').failures, Lookup(store, o', g').successes);
      }
    }
  }

  /** On every sequence of outcomes the two backends give the same answers, and the Redis
      set of an order is exactly the set of gateways the memory backend flags for it. */
  lemma {:induction false} BackendsAgree(calls: seq<Call>)
    ensures Related(StoreAfter(calls), RedisAfter(calls))
    ensures forall o :: Members(RedisAfter(calls), o) == Flagged(StoreAfter(calls), o)
    ensures calls != [] ==> AnswerTo(calls) == RedisAnswerTo(calls)
  {
    if calls != [] {
      var rest, c := calls[..|calls| - 1], calls[|calls| - 1];
      BackendsAgree(rest);
      ScriptSimulates(StoreAfter(rest), RedisAfter(rest), c.orderId, c.gateway, c.status, c.threshold, c.now);
    }
    forall o
      ensures Members(RedisAfter(calls), o) == Flagged(StoreAfter(calls), o)
    {
      forall g
        ensures g in Members(RedisAfter(calls), o) <==> g in Flagged(StoreAfter(calls), o)
      {
        assert g in Members(RedisAfter(calls), o) <==> Lookup(StoreAfter(calls), o, g).blacklisted;
      }
    }
  }

  function Tally(calls: seq<Call>, o: string, g: string, status: Status): nat {
    if calls == [] then 0
    else
      var c := calls[|calls| - 1];
      Tally(calls[..|calls| - 1], o, g, status)
      + if c.orderId == o && c.gateway == g && c.status == status then 1 else 0
  }

  /** The counters count, and with one threshold throughout a gateway is blacklisted for an
      order exactly when it has reached the threshold without a single success. */
  lemma {:induction false} BlacklistedExactlyWhen(calls: seq<Call>, threshold: int, o: string, g: string)
    requires forall c :: c in calls ==> c.threshold == threshold
    ensures var s := Lookup(StoreAfter(calls), o, g);
            && s.failures == Tally(calls, o, g, Failure) && s.successes == Tally(calls, o, g, Success)
            && (g in Flagged(StoreAfter(calls), o) <==>
                  && Tally(calls, o, g, Success) == 0
                  && Tally(calls, o, g, Failure) >= if threshold > 0 then threshold else 1)
  {
    if calls != [] {
      var rest, c := calls[..|calls| - 1], calls[|calls| - 1];
      assert c in calls;
      BlacklistedExactlyWhen(rest, threshold, o, g);
      if c.status.IsFinal() {
        LookupAfterRecord(StoreAfter(rest), c.orderId, c.gateway, c.status, c.threshold, c.now, o, g);
      }
    }
  }

  function Reports(calls: seq<Call>, o: string, g: string): nat {
    if calls == [] then 0
    else
      var c := calls[|calls| - 1];
      Reports(calls[..|calls| - 1], o, g)
      + if c.orderId == o && c.gateway == g && AnswerTo(calls).Ok? && AnswerTo(calls).value.newlyBlacklisted then 1
        else 0
  }

  /** Whatever the thresholds: a pair is reported as newly blacklisted at most once, it is
      flagged only after a report, and one success clears it for good. */
  lemma {:induction false} ReportedAtMostOnce(calls: seq<Call>, o: string, g: string)
    ensures var s := Lookup(StoreAfter(calls), o, g);
            && Reports(calls, o, g) <= 1
            && (s.blacklisted ==> Reports(calls, o, g) == 1 && s.successes == 0)
            && (Reports(calls, o, g) == 1 ==> s.blacklisted || s.successes > 0)
  {
    if calls != [] {
      var rest, c := calls[..|calls| - 1], calls[|calls| - 1];
      ReportedAtMostOnce(rest, o, g);
      if c.status.IsFinal() {
        LookupAfterRecord(StoreAfter(rest), c.orderId, c.gateway, c.status, c.threshold, c.now, o, g);
      }
    }
  }
}
