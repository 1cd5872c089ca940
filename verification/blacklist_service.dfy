/** The link from completed transactions to the blacklist
    (internal/service/order_gateway_blacklist_service.go). */
module BlacklistServices {
  import opened Domain
  import opened Clocks
  import opened MemoryBlacklist
  import Blacklist

  class BlacklistService {
    const repository: BlacklistRepository
    const config: AppConfig
    const clock: Clock

    constructor (repository: BlacklistRepository, config: AppConfig, clock: Clock)
      ensures this.repository == repository && this.config == config && this.clock == clock
    {
      this.repository := repository;
      this.config := config;
      this.clock := clock;
    }

    /** An empty order id is kept from no gateway, whatever the repository holds under it. */
    method BlacklistedGateways(o: string) returns (result: set<string>)
      ensures result == if o == "" then {} else Blacklist.Flagged(repository.summaries, o)
    {
      if o == "" {
        return {};
      }
      result := repository.BlacklistedGateways(o);
    }

    method RecordOutcome(tx: Transaction) returns (r: Result<()>)
      modifies repository, clock
      ensures clock.ticks == old(clock.ticks) + 1
      ensures var (summaries, answer) :=
                Blacklist.RecordOutcome(old(repository.summaries), tx.orderId, tx.gateway, tx.status,
                                        WithDefaults(config).routing.orderGatewayFailureThreshold,
                                        old(clock.at(clock.ticks)));
              repository.summaries == summaries && r == if answer.Ok? then Ok(()) else Err(answer.error)
    {
      var cfg := WithDefaults(config);
      var now := clock.Now();
      var answer := repository.RecordOutcome(tx.orderId, tx.gateway, tx.status,
                                             cfg.routing.orderGatewayFailureThreshold, now);
      r := if answer.Ok? then Ok(()) else Err(answer.error);
    }
  }
}
