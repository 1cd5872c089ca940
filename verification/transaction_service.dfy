/** The transaction service (internal/service/transaction_service.go): initiation with
    compensation of the probe on every failing exit, and exactly-once callbacks that feed
    the health service and the blacklist. */
module TransactionServices {
  import opened Domain
  import opened BlacklistServices
  import opened Clocks
  import opened HealthServices
  import opened MemoryBlacklist
  import opened MemoryHealth
  import opened MemoryTransactions
  import opened Reference
  import opened RoutingServices
  import Blacklist

  class TransactionService {
    const transactions: TransactionRepository
    const router: RoutingService
    const health: HealthService
    const orderGateways: BlacklistService
    const clock: Clock

    constructor (transactions: TransactionRepository, router: RoutingService, health: HealthService,
                 orderGateways: BlacklistService, clock: Clock)
      ensures this.transactions == transactions && this.router == router && this.health == health
      ensures this.orderGateways == orderGateways && this.clock == clock
    {
      this.transactions := transactions;
      this.router := router;
      this.health := health;
      this.orderGateways := orderGateways;
      this.clock := clock;
    }

    /** One process: the services share a clock, a configuration and the health service. */
    ghost predicate Valid()
      reads router, router.health, router.health.repository
    {
      && router.Valid() && router.health == health && router.clock == clock
      && orderGateways.clock == clock && orderGateways.config == router.config
    }

    ghost function World(): Reference.World
      requires health.repository.Valid()
      reads router, health.repository, health.repository.events, transactions, orderGateways.repository, clock
    {
      Reference.World(
        health.repository.states, health.repository.Events(), health.repository.log,
        router.counter, router.cache,
        transactions.transactions, transactions.attempts, orderGateways.repository.summaries, clock.ticks)
    }

    /** The deferred release of Initiate; its error is only logged. */
    method ReleaseProbe(selection: Selection, tx: string)
      requires Valid()
      modifies health`stateCache, health.repository`states, clock
      ensures Valid()
      ensures World() == Compensate(old(World()), router.Params(), selection, tx)
    {
      if !selection.halfOpenProbe {
        return;
      }
      var logged := health.ReleaseProbe(selection.gateway.name, tx);
    }

    method Initiate(input: InitiateInput) returns (r: Result<Transaction>)
      requires Valid()
      modifies router`cache, router`counter, health`stateCache, health.repository`states, transactions, clock
      ensures Valid()
      ensures (World(), r) == Reference.Initiate(old(World()), router.Params(), input)
    {
      var excluded := orderGateways.BlacklistedGateways(input.orderId);
      var selected := router.SelectGateway(input.transactionId, excluded, World());
      if selected.Err? {
        return Err(selected.error);
      }
      r := Submit(input, selected.value);
    }

    /** Initiate after the gateway has been selected. */
    method Submit(input: InitiateInput, selection: Selection) returns (r: Result<Transaction>)
      requires Valid()
      modifies health`stateCache, health.repository`states, transactions, clock
      ensures Valid()
      ensures (World(), r) == Reference.Submit(old(World()), router.Params(), input, selection)
    {
      var g, tx := selection.gateway.name, input.transactionId;
      if !input.registered(g) {
        ReleaseProbe(selection, tx);
        return Err(UnregisteredClient);
      }
      var attempt := transactions.NextAttempt(input.orderId);
      var now := clock.Now();
      var transaction := Transaction(tx, input.orderId, attempt, g, Pending, now, now, None);
      if !input.accepted {
        ReleaseProbe(selection, tx);
        return Err(ClientFailure);
      }
      var saved := transactions.Save(transaction);
      if saved.Err? {
        ReleaseProbe(selection, tx);
        return Err(saved.error);
      }
      r := Ok(transaction);
    }

    method Callback(input: CallbackInput) returns (r: Result<CallbackResult>)
      requires Valid()
      modifies health`stateCache, health.repository, health.repository.events, transactions,
               orderGateways.repository, clock
      ensures Valid() && (health.repository.events == old(health.repository.events) || fresh(health.repository.events))
      ensures (World(), r) == Reference.Callback(old(World()), router.Params(), input)
    {
      hide RecordCompleted, Observe, WithDefaults;
      var got := transactions.GetByID(input.transactionId);
      if got.Err? {
        return Err(got.error);
      }
      var transaction := got.value;
      if transaction.gateway != input.gateway {
        return Err(GatewayMismatch);
      }
      if input.orderId != "" && transaction.orderId != input.orderId {
        return Err(Conflict);
      }
      var now := clock.Now();
      var completion := transactions.Complete(input.transactionId, input.status, now);
      if completion.Err? {
        return Err(completion.error);
      }
      var result: CallbackResult;
      if completion.value.changed {
        result := Record(completion.value.transaction);
      } else {
        result := Repeat(completion.value.transaction);
      }
      r := Ok(result);
    }

    /** A duplicate callback only observes the gateway. */
    method Repeat(completed: Transaction) returns (result: CallbackResult)
      requires Valid()
      modifies health`stateCache, health.repository`states, clock
      ensures Valid()
      ensures var (w, state, stats) := Observe(old(World()), router.Params(), completed.gateway);
              World() == w && result == CallbackResult(completed, state, stats, true)
    {
      var state := health.State(completed.gateway);
      var stats := health.Stats(completed.gateway);
      result := CallbackResult(completed, state.value, stats, true);
    }

    /** The first callback feeds the health service, then the blacklist. */
    method Record(completed: Transaction) returns (result: CallbackResult)
      requires Valid() && completed.status.IsFinal()
      modifies health`stateCache, health.repository, health.repository.events, orderGateways.repository, clock
      ensures Valid() && (health.repository.events == old(health.repository.events) || fresh(health.repository.events))
      ensures (World(), result) == RecordCompleted(old(World()), router.Params(), completed)
      ensures !result.idempotent && result.transaction == completed
    {
      hide OutcomeFor, EventsAfter, WindowStats, Blacklist.RecordOutcome;
      var recorded := health.RecordOutcome(completed.gateway, completed.id, completed.status);
      var logged := orderGateways.RecordOutcome(completed);
      result := CallbackResult(completed, recorded.value.0, recorded.value.1, false);
    }
  }
}
