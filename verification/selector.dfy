/** Weighted round-robin selection by one shared counter (internal/service/routing_service.go,
    selectWeighted), and how fairly it serves its candidates. */
module Selector {
  import opened Domain

  /** The counter is an unsigned 64-bit integer. */
  const WRAP := 0x1_0000_0000_0000_0000

  function Share(c: GatewayConfig): nat {
    if c.weight > 0 then c.weight else 0
  }

  function TotalWeight(cs: seq<GatewayConfig>): nat {
    if cs == [] then 0 else Share(cs[0]) + TotalWeight(cs[1..])
  }

  /** The candidate whose stretch of the weight line holds the slot. */
  function Pick(cs: seq<GatewayConfig>, slot: nat): Option<GatewayConfig> {
    if cs == [] then None
    else if slot < Share(cs[0]) then Some(cs[0])
    else Pick(cs[1..], slot - Share(cs[0]))
  }

  function Next(counter: nat): nat {
    (counter + 1) % WRAP
  }

  /** One selectWeighted call: the counter after it, and its answer. */
  function Select(counter: nat, cs: seq<GatewayConfig>): (nat, Option<GatewayConfig>) {
    var total := TotalWeight(cs);
    if total == 0 then (counter, None) else (Next(counter), Pick(cs, Next(counter) % total))
  }

  /** Every slot below the total is inside some candidate's stretch, so the scan always
      answers before it runs off the end; the answer has a positive weight. */
  lemma {:induction false} PickAnswers(cs: seq<GatewayConfig>, slot: nat)
    ensures Pick(cs, slot).Some? <==> slot < TotalWeight(cs)
    ensures Pick(cs, slot).Some? ==> Pick(cs, slot).value in cs && Pick(cs, slot).value.weight > 0
  {
    if cs != [] && slot >= Share(cs[0]) {
      PickAnswers(cs[1..], slot - Share(cs[0]));
    }
  }

  lemma {:induction false} SomeWeight(cs: seq<GatewayConfig>, c: GatewayConfig)
    requires c in cs && c.weight > 0
    ensures TotalWeight(cs) >= c.weight
  {
    if cs[0] != c {
      SomeWeight(cs[1..], c);
    }
  }

  /** A selection succeeds exactly when some candidate has a positive weight. */
  lemma SelectAnswers(counter: nat, cs: seq<GatewayConfig>)
    ensures var (_, chosen) := Select(counter, cs);
            && (chosen.Some? <==> exists c :: c in cs && c.weight > 0)
            && (chosen.Some? ==> chosen.value in cs && chosen.value.weight > 0)
  {
    var total := TotalWeight(cs);
    if c :| c in cs && c.weight > 0 {
      SomeWeight(cs, c);
    }
    if total > 0 {
      PickAnswers(cs, Next(counter) % total);
    }
  }

  lemma {:induction false} TotalAppend(cs: seq<GatewayConfig>, c: GatewayConfig)
    ensures TotalWeight(cs + [c]) == TotalWeight(cs) + Share(c)
  {
    if cs != [] {
      assert (cs + [c])[1..] == cs[1..] + [c];
      TotalAppend(cs[1..], c);
    }
  }

  lemma {:induction false} PickAppend(cs: seq<GatewayConfig>, c: GatewayConfig, slot: nat)
    ensures Pick(cs + [c], slot) ==
            if slot < TotalWeight(cs) then Pick(cs, slot)
            else if slot < TotalWeight(cs) + Share(c) then Some(c)
            else None
  {
    if cs == [] {
      assert [c][1..] == [];
    } else {
      assert (cs + [c])[1..] == cs[1..] + [c];
      if slot >= Share(cs[0]) {
        PickAppend(cs[1..], c, slot - Share(cs[0]));
      }
    }
  }

  // ---------------------------------------------------------------- the stretch of one candidate

  function Offset(cs: seq<GatewayConfig>, i: nat): nat
    requires i <= |cs|
  {
    if i == 0 then 0 else Share(cs[0]) + Offset(cs[1..], i - 1)
  }

  lemma {:induction false} PickIsTheStretch(cs: seq<GatewayConfig>, i: nat, slot: nat)
    requires i < |cs| && DistinctNames(cs)
    ensures Pick(cs, slot) == Some(cs[i]) <==> Offset(cs, i) <= slot < Offset(cs, i) + Share(cs[i])
    ensures Offset(cs, i) + Share(cs[i]) <= TotalWeight(cs)
  {
    if i == 0 {
      if slot >= Share(cs[0]) {
        PickAnswers(cs[1..], slot - Share(cs[0]));
        assert cs[0] !in cs[1..];
      }
    } else {
      assert cs[0].name != cs[i].name && cs[1..][i - 1] == cs[i];
      if slot >= Share(cs[0]) {
        PickIsTheStretch(cs[1..], i - 1, slot - Share(cs[0]));
      } else {
        PickIsTheStretch(cs[1..], i - 1, 0);
      }
    }
  }

  // ---------------------------------------------------------------- counting residues in an interval

  function Hits(p: nat, w: nat, t: nat, k: int, n: nat): nat
    requires t > 0
  {
    if n == 0 then 0 else Hits(p, w, t, k, n - 1) + if p <= (k + n) % t < p + w then 1 else 0
  }

  lemma {:induction false} HitsSplit(p: nat, w: nat, t: nat, k: int, a: nat, b: nat)
    requires t > 0
    ensures Hits(p, w, t, k, a + b) == Hits(p, w, t, k, a) + Hits(p, w, t, k + a, b)
    ensures Hits(p, w, t, k, a) <= a
  {
    if b > 0 {
      HitsSplit(p, w, t, k, a, b - 1);
      assert k + (a + b) == (k + a) + b;
    } else if a > 0 {
      HitsSplit(p, w, t, k, a - 1, 0);
    }
  }

  lemma {:induction false} HitsFromZero(p: nat, w: nat, t: nat, n: nat)
    requires n <= t && p + w <= t && t > 0
    ensures Hits(p, w, t, -1, n) == if n <= p then 0 else if n <= p + w then n - p else w
  {
    if n > 0 {
      HitsFromZero(p, w, t, n - 1);
      SmallResidue(n - 1, t);
    }
  }

  lemma SmallResidue(a: nat, t: nat)
    requires a < t
    ensures a % t == a
  {
  }

  lemma ResiduePeriod(a: nat, t: nat)
    requires t > 0
    ensures (a + t) % t == a % t
  {
    Distribute(t, a / t, 1);
    ResidueUnique(a + t, t, a / t + 1, a % t);
  }

  lemma ResidueUnique(x: nat, t: nat, q: nat, r: nat)
    requires t > 0 && r < t && x == t * q + r
    ensures x % t == r
  {
    var d := q - x / t;
    Distribute(t, x / t, d);
    assert t * d == x % t - r;
    if d >= 1 {
      Scale(t, 1, d);
    }
  }

  lemma Distribute(k: int, a: int, b: int)
    ensures k * (a + b) == k * a + k * b
  {
  }

  /** Any full period meets the interval exactly w times. */
  lemma {:induction false} HitsInAPeriod(p: nat, w: nat, t: nat, k: int)
    requires p + w <= t && t > 0 && k >= -1
    ensures Hits(p, w, t, k, t) == w
    decreases k + 1
  {
    if k == -1 {
      HitsFromZero(p, w, t, t);
    } else {
      HitsInAPeriod(p, w, t, k - 1);
      HitsSplit(p, w, t, k - 1, 1, t);
      HitsSplit(p, w, t, k - 1, t, 1);
      ResiduePeriod(k, t);
      OneHit(p, w, t, k - 1);
      OneHit(p, w, t, k - 1 + t);
    }
  }

  lemma OneHit(p: nat, w: nat, t: nat, k: int)
    requires t > 0
    ensures Hits(p, w, t, k, 1) == if p <= (k + 1) % t < p + w then 1 else 0
  {
    assert Hits(p, w, t, k, 0) == 0;
  }

  lemma {:induction false} HitsInPeriods(p: nat, w: nat, t: nat, k: int, q: nat)
    requires p + w <= t && t > 0 && k >= -1
    ensures Hits(p, w, t, k, q * t) == q * w
  {
    if q > 0 {
      HitsInPeriods(p, w, t, k, q - 1);
      assert q * t == (q - 1) * t + t && q * w == (q - 1) * w + w;
      HitsSplit(p, w, t, k, (q - 1) * t, t);
      HitsInAPeriod(p, w, t, k + (q - 1) * t);
    }
  }

  /** In r < t consecutive residues the deviation from the fair share is at most w(t - w). */
  lemma PartialPeriod(w: nat, t: nat, r: nat, h: nat)
    requires w <= t && r < t && h <= w && h <= r && h >= w - (t - r)
    ensures -(w * (t - w)) <= t * h - r * w <= w * (t - w)
  {
    AtMostTheShare(w, t, r, h);
    AtLeastTheShare(w, t, r, h);
  }

  lemma AtMostTheShare(w: nat, t: nat, r: nat, h: nat)
    requires w <= t && r < t && h <= w && h <= r
    ensures t * h - r * w <= w * (t - w)
  {
    var d := t - w;
    if r <= w {
      // t * h - r * w <= t * r - r * w == r * d <= w * d
      Scale(t, h, r);
      Expand(r, w, d);
      Scale(d, r, w);
    } else {
      // t * h - r * w <= t * w - w * w == w * d
      Scale(t, h, w);
      Scale(w, w, r);
      Expand(w, w, d);
    }
  }

  lemma AtLeastTheShare(w: nat, t: nat, r: nat, h: nat)
    requires w <= t && r < t && h >= w - (t - r)
    ensures r * w - t * h <= w * (t - w)
  {
    var d := t - w;
    if r <= d {
      Scale(w, r, d);
      NotNegative(t, h);
    } else {
      // with s == t - r and l == w - s: r * w - t * h <= r * w - t * l == s * d <= w * d
      var s, l := t - r, r - d;
      Scale(t, l, h);
      Exchange(t, w, s);
      Scale(d, s, w);
    }
  }

  lemma NotNegative(a: nat, b: nat)
    ensures a * b >= 0
  {
  }

  lemma Expand(a: int, w: int, d: int)
    ensures (w + d) * a - a * w == a * d && d * a == a * d
  {
  }

  lemma Exchange(t: int, w: int, s: int)
    ensures (t - s) * w - t * (w - s) == s * (t - w) && (t - w) * s == s * (t - w)
  {
  }

  lemma HitsAreFair(p: nat, w: nat, t: nat, k: int, n: nat)
    requires p + w <= t && t > 0 && k >= -1
    ensures -(w * (t - w)) <= t * Hits(p, w, t, k, n) - n * w <= w * (t - w)
  {
    hide Hits;
    DivMod(n, t);
    HitsAreFairAfter(p, w, t, k, n / t, n % t, n);
  }

  lemma DivMod(n: nat, t: nat)
    requires t > 0
    ensures n == (n / t) * t + n % t
  {
  }

  lemma HitsAreFairAfter(p: nat, w: nat, t: nat, k: int, q: nat, r: nat, n: nat)
    requires p + w <= t && t > 0 && k >= -1 && r < t && n == q * t + r
    ensures -(w * (t - w)) <= t * Hits(p, w, t, k, n) - n * w <= w * (t - w)
  {
    hide Hits;
    var k' := k + q * t;
    HitsSplit(p, w, t, k, q * t, r);
    HitsInPeriods(p, w, t, k, q);
    HitsWithin(p, w, t, k', r, t - r);
    var h := Hits(p, w, t, k', r);
    PartialPeriod(w, t, r, h);
    FairSplit(w, t, q, r, h);
  }

  lemma HitsWithin(p: nat, w: nat, t: nat, k: int, r: nat, s: nat)
    requires p + w <= t && t > 0 && k >= -1 && r + s == t
    ensures Hits(p, w, t, k, r) <= w && Hits(p, w, t, k, r) <= r && Hits(p, w, t, k, r) >= w - s
  {
    HitsSplit(p, w, t, k, r, s);
    HitsSplit(p, w, t, k + r, s, 0);
    HitsInAPeriod(p, w, t, k);
  }

  lemma FairSplit(w: nat, t: nat, q: nat, r: nat, h: nat)
    ensures t * (q * w + h) - (q * t + r) * w == t * h - r * w
  {
    assert t * (q * w) == (q * t) * w;
  }

  // ---------------------------------------------------------------- fairness of the selector

  /** The answers of n consecutive selections that start with the counter at k. */
  function Selections(cs: seq<GatewayConfig>, k: nat, n: nat): seq<Option<GatewayConfig>> {
    if n == 0 then [] else
      var (after, chosen) := Select(CounterAfter(cs, k, n - 1), cs);
      Selections(cs, k, n - 1) + [chosen]
  }

  function CounterAfter(cs: seq<GatewayConfig>, k: nat, n: nat): nat {
    if n == 0 then k else Select(CounterAfter(cs, k, n - 1), cs).0
  }

  function Occurrences(answers: seq<Option<GatewayConfig>>, c: GatewayConfig): nat {
    if answers == [] then 0
    else Occurrences(answers[..|answers| - 1], c) + if answers[|answers| - 1] == Some(c) then 1 else 0
  }

  /** One more selection, when the counter stands at j before it. */
  lemma OneMoreSelection(cs: seq<GatewayConfig>, i: nat, k: nat, n: nat)
    requires i < |cs| && DistinctNames(cs) && cs[i].weight > 0
    ensures var next, t := Next(CounterAfter(cs, k, n)), TotalWeight(cs);
            && t > 0 && CounterAfter(cs, k, n + 1) == next
            && Occurrences(Selections(cs, k, n + 1), cs[i])
               == Occurrences(Selections(cs, k, n), cs[i])
                  + if Offset(cs, i) <= next % t < Offset(cs, i) + cs[i].weight then 1 else 0
  {
    hide Pick, Offset, Next;
    SomeWeight(cs, cs[i]);
    PickIsTheStretch(cs, i, Next(CounterAfter(cs, k, n)) % TotalWeight(cs));
    var answers := Selections(cs, k, n + 1);
    assert answers[..n] == Selections(cs, k, n) by { SelectionsLength(cs, k, n); }
  }

  lemma {:induction false} OccurrencesAreHits(cs: seq<GatewayConfig>, i: nat, k: nat, n: nat)
    requires i < |cs| && DistinctNames(cs) && cs[i].weight > 0 && k + n < WRAP
    ensures TotalWeight(cs) > 0 && CounterAfter(cs, k, n) == k + n
    ensures Occurrences(Selections(cs, k, n), cs[i]) == Hits(Offset(cs, i), cs[i].weight, TotalWeight(cs), k, n)
  {
    hide TotalWeight, Offset, Selections, Occurrences, CounterAfter, Next, Hits;
    SomeWeight(cs, cs[i]);
    var p, w, t := Offset(cs, i), cs[i].weight, TotalWeight(cs);
    if n == 0 {
      NoSelections(cs, k, cs[i]);
      NoHits(p, w, t, k);
    } else {
      OccurrencesAreHits(cs, i, k, n - 1);
      NextBelowTheWrap(k + n - 1);
      OneMoreSelection(cs, i, k, n - 1);
      OneMoreHit(p, w, t, k, n - 1);
    }
  }

  lemma NoSelections(cs: seq<GatewayConfig>, k: nat, c: GatewayConfig)
    ensures CounterAfter(cs, k, 0) == k && Occurrences(Selections(cs, k, 0), c) == 0
  {
  }

  lemma NextBelowTheWrap(counter: nat)
    requires counter + 1 < WRAP
    ensures Next(counter) == counter + 1
  {
    SmallResidue(counter + 1, WRAP);
  }

  lemma OneMoreHit(p: nat, w: nat, t: nat, k: int, n: nat)
    requires t > 0
    ensures Hits(p, w, t, k, n + 1) == Hits(p, w, t, k, n) + if p <= (k + n + 1) % t < p + w then 1 else 0
  {
    assert k + (n + 1) == k + n + 1;
  }

  lemma {:induction false} SelectionsLength(cs: seq<GatewayConfig>, k: nat, n: nat)
    ensures |Selections(cs, k, n)| == n
  {
    if n > 0 {
      SelectionsLength(cs, k, n - 1);
    }
  }

  /** Over any n consecutive selections a candidate of weight w among total weight t is
      chosen c times with |t*c - n*w| <= w*(t - w); over m full rounds exactly m*w times. */
  lemma SelectionIsFair(cs: seq<GatewayConfig>, i: nat, k: nat, n: nat)
    requires i < |cs| && DistinctNames(cs) && cs[i].weight > 0 && k + n < WRAP
    ensures var t, w, c := TotalWeight(cs), cs[i].weight, Occurrences(Selections(cs, k, n), cs[i]);
            && -(w * (t - w)) <= t * c - n * w <= w * (t - w)
            && (forall m: nat :: n == m * t ==> c == m * w)
  {
    OccurrencesAreHits(cs, i, k, n);
    PickIsTheStretch(cs, i, 0);
    var p, w, t := Offset(cs, i), cs[i].weight, TotalWeight(cs);
    HitsAreFair(p, w, t, k, n);
    forall m: nat | n == m * t
      ensures Hits(p, w, t, k, n) == m * w
    {
      HitsInPeriods(p, w, t, k, m);
    }
  }

  /** Past the wrap the counter starts again at zero. */
  lemma {:induction false} OccurrencesAcross(cs: seq<GatewayConfig>, i: nat, k: nat, a: nat, b: nat)
    requires i < |cs| && DistinctNames(cs) && cs[i].weight > 0 && k + a == WRAP - 1 && b <= WRAP
    ensures TotalWeight(cs) > 0
    ensures CounterAfter(cs, k, a + b) == if b == 0 then k + a else b - 1
    ensures Occurrences(Selections(cs, k, a + b), cs[i])
         == Hits(Offset(cs, i), cs[i].weight, TotalWeight(cs), k, a)
            + Hits(Offset(cs, i), cs[i].weight, TotalWeight(cs), -1, b)
  {
    hide TotalWeight, Offset, Selections, Occurrences, CounterAfter, Next, Hits;
    if b == 0 {
      OccurrencesAreHits(cs, i, k, a);
      NoHits(Offset(cs, i), cs[i].weight, TotalWeight(cs), -1);
    } else {
      OccurrencesAcross(cs, i, k, a, b - 1);
      NextAcross(a, k, b);
      OneMoreSelection(cs, i, k, a + b - 1);
      OneMoreHit(Offset(cs, i), cs[i].weight, TotalWeight(cs), -1, b - 1);
    }
  }

  lemma NoHits(p: nat, w: nat, t: nat, k: int)
    requires t > 0
    ensures Hits(p, w, t, k, 0) == 0
  {
  }

  lemma NextAcross(a: nat, k: nat, b: nat)
    requires k + a == WRAP - 1 && 0 < b <= WRAP
    ensures Next(if b == 1 then k + a else b - 2) == b - 1
  {
  }

  /** A stretch that wraps is two stretches: at most twice the bound. */
  lemma SelectionIsFairAcrossTheWrap(cs: seq<GatewayConfig>, i: nat, k: nat, n: nat)
    requires i < |cs| && DistinctNames(cs) && cs[i].weight > 0 && k < WRAP && n <= WRAP
    ensures var t, w, c := TotalWeight(cs), cs[i].weight, Occurrences(Selections(cs, k, n), cs[i]);
            && -(2 * (w * (t - w))) <= t * c - n * w <= 2 * (w * (t - w))
            && (k + n < WRAP ==> -(w * (t - w)) <= t * c - n * w <= w * (t - w))
  {
    hide Hits, Occurrences, Selections, CounterAfter;
    PickIsTheStretch(cs, i, 0);
    var p, w, t := Offset(cs, i), cs[i].weight, TotalWeight(cs);
    NotNegative(w, t - w);
    if k + n < WRAP {
      SelectionIsFair(cs, i, k, n);
    } else {
      var a := WRAP - 1 - k;
      OccurrencesAcross(cs, i, k, a, n - a);
      HitsAreFair(p, w, t, k, a);
      HitsAreFair(p, w, t, -1, n - a);
      FairSum(t, w, Hits(p, w, t, k, a), Hits(p, w, t, -1, n - a), a, n - a);
    }
  }

  lemma FairSum(t: nat, w: nat, c: nat, d: nat, a: nat, b: nat)
    ensures t * (c + d) - (a + b) * w == (t * c - a * w) + (t * d - b * w)
  {
  }

  /** The residues of one stretch all hit it; those of the rest of the round never do. */
  lemma StretchHits(p: nat, w: nat, t: nat)
    requires p + w <= t && 0 < w
    ensures Hits(p, w, t, p + t - 1, w) == w
    ensures Hits(p, w, t, p + w - 1, t - w) == 0
  {
    hide Hits;
    HitsInAPeriod(p, w, t, p - 1);
    HitsFromZero(p, w, t, p);
    HitsFromZero(p, w, t, p + w);
    HitsSplit(p, w, t, -1, p, w);
    assert Hits(p, w, t, p - 1, w) == w;
    HitsSplit(p, w, t, p - 1, w, t - w);
    HitsSplit(p, w, t, p - 1, t, w);
    HitsSplit(p, w, t, p - 1, w, t);
    HitsInAPeriod(p, w, t, p + w - 1);
    assert p - 1 + t == p + t - 1;
  }

  /** The selections of one stretch of the weight line all go to its candidate. */
  lemma StretchSelections(cs: seq<GatewayConfig>, i: nat)
    requires i < |cs| && DistinctNames(cs) && cs[i].weight > 0 && 2 * TotalWeight(cs) <= WRAP
    requires Offset(cs, i) + cs[i].weight <= TotalWeight(cs)
    ensures var p, w, t := Offset(cs, i), cs[i].weight, TotalWeight(cs);
            && p + t - 1 + w < WRAP && Occurrences(Selections(cs, p + t - 1, w), cs[i]) == w
            && p + w - 1 + (t - w) < WRAP && Occurrences(Selections(cs, p + w - 1, t - w), cs[i]) == 0
  {
    hide Hits, Selections, Occurrences, Offset, TotalWeight, CounterAfter;
    var p, w, t := Offset(cs, i), cs[i].weight, TotalWeight(cs);
    PickIsTheStretch(cs, i, 0);
    StretchHits(p, w, t);
    OccurrencesAreHits(cs, i, p + t - 1, w);
    OccurrencesAreHits(cs, i, p + w - 1, t - w);
  }

  lemma Square(w: nat, t: nat)
    requires w <= t
    ensures t * w - w * w == w * (t - w)
    ensures t * 0 - (t - w) * w == -(w * (t - w))
  {
    Distribute(w, t - w, w);
  }

  /** Both sides of the bound are attained, for every candidate: by the selections of its own
      stretch, which all go to it, and by those of the rest of the round, of which none does. */
  lemma FairnessBoundIsAttained(cs: seq<GatewayConfig>, i: nat)
    requires i < |cs| && DistinctNames(cs) && cs[i].weight > 0 && 2 * TotalWeight(cs) <= WRAP
    ensures var t, w := TotalWeight(cs), cs[i].weight;
            && (exists k: nat, n: nat :: k + n < WRAP && Surplus(cs, i, k, n) == w * (t - w))
            && (exists k: nat, n: nat :: k + n < WRAP && Surplus(cs, i, k, n) == -(w * (t - w)))
  {
    hide Selections, Occurrences, Offset, TotalWeight;
    PickIsTheStretch(cs, i, 0);
    StretchSelections(cs, i);
    var p, w, t := Offset(cs, i), cs[i].weight, TotalWeight(cs);
    Square(w, t);
    assert Surplus(cs, i, p + t - 1, w) == w * (t - w);
    assert Surplus(cs, i, p + w - 1, t - w) == -(w * (t - w));
  }

  /** How far n selections that start with the counter at k exceed the candidate's share. */
  function Surplus(cs: seq<GatewayConfig>, i: nat, k: nat, n: nat): int
    requires i < |cs|
  {
    TotalWeight(cs) * Occurrences(Selections(cs, k, n), cs[i]) - n * cs[i].weight
  }
}
