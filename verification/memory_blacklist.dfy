/** The memory blacklist repository (internal/adapters/repository/memory/order_gateway_blacklist_repository.go). */
module MemoryBlacklist {
  import opened Domain
  import Blacklist

  class BlacklistRepository {
    var summaries: Blacklist.Summaries

    constructor ()
      ensures summaries == map[]
    {
      summaries := map[];
    }

    method BlacklistedGateways(o: string) returns (result: set<string>)
      ensures result == Blacklist.Flagged(summaries, o)
    {
      result := {};
      var byGateway := if o in summaries then summaries[o] else map[];
      var left := byGateway.Keys;
      while left != {}
        invariant left <= byGateway.Keys
        invariant result == set g | g in byGateway && g !in left && byGateway[g].blacklisted
      {
        var gateway :| gateway in left;
        left := left - {gateway};
        if byGateway[gateway].blacklisted {
          result := result + {gateway};
        }
      }
    }

    method RecordOutcome(
        o: string, g: string, status: Status, threshold: int, now: Time) returns (r: Result<Blacklist.Answer>)
      modifies this
      ensures (summaries, r) == Blacklist.RecordOutcome(old(summaries), o, g, status, threshold, now)
    {
      if !status.IsFinal() {
        return Err(InvalidStatus);
      }
      var failureThreshold := if threshold <= 0 then 1 else threshold;
      var byGateway := if o in summaries then summaries[o] else map[];
      var summary := if g in byGateway then byGateway[g] else Blacklist.UNSEEN;
      summary := summary.(orderId := o, gateway := g);
      match status {
        case Success =>
          summary := summary.(successes := summary.successes + 1);
          summary := summary.(blacklisted := false);
        case Failure =>
          summary := summary.(failures := summary.failures + 1);
          if summary.successes == 0 && summary.failures >= failureThreshold {
            summary := summary.(blacklisted := true);
          }
      }
      var newlyBlacklisted := !(g in byGateway && byGateway[g].blacklisted) && summary.blacklisted;
      summary := summary.(updatedAt := now);
      summaries := summaries[o := byGateway[g := summary]];
      r := Ok(Blacklist.Answer(summary, newlyBlacklisted));
    }
  }
}
