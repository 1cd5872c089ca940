/** One process of the router, wired as the service is, answering any sequence of requests. */
module Processes {
  import opened Domain
  import opened Breaker
  import opened BlacklistServices
  import opened Clocks
  import opened HealthServices
  import opened MemoryBlacklist
  import opened MemoryHealth
  import opened MemoryTransactions
  import opened Reference
  import opened RoutingServices
  import opened TransactionServices

  /** A request, or a change of the state cache's lifetime. */
  datatype Command = Request(op: Operation) | ChangeStateTTL(ttl: Time)

  datatype Answer =
    | Initiated(transaction: Result<Transaction>)
    | CalledBack(result: Result<CallbackResult>)
    | Shown(state: RuntimeState, stats: Stats)

  function AnswerTo(w: World, s: Setup, op: Operation): Answer {
    match op
    case InitiateOp(input) => Initiated(Initiate(w, s, input).1)
    case CallbackOp(input) => CalledBack(Callback(w, s, input).1)
    case ObserveOp(g) => var (_, state, stats) := Observe(w, s, g); Shown(state, stats)
  }

  function Requests(commands: seq<Command>): seq<Operation> {
    if commands == [] then []
    else
      var rest, last := Requests(commands[..|commands| - 1]), commands[|commands| - 1];
      if last.Request? then rest + [last.op] else rest
  }

  /** What the reference machine answers. */
  function Answers(w: World, s: Setup, ops: seq<Operation>): seq<Answer> {
    if ops == [] then []
    else
      var rest := ops[..|ops| - 1];
      Answers(w, s, rest) + [AnswerTo(Run(w, s, rest), s, ops[|ops| - 1])]
  }

  lemma RequestsStep(commands: seq<Command>, i: nat)
    requires i < |commands|
    ensures Requests(commands[..i + 1])
         == if commands[i].Request? then Requests(commands[..i]) + [commands[i].op] else Requests(commands[..i])
  {
    assert commands[..i + 1][..i] == commands[..i];
  }

  lemma RunStep(w: World, s: Setup, ops: seq<Operation>, op: Operation)
    ensures Run(w, s, ops + [op]) == Perform(Run(w, s, ops), s, op)
    ensures Answers(w, s, ops + [op]) == Answers(w, s, ops) + [AnswerTo(Run(w, s, ops), s, op)]
  {
  }

  method Answering(service: TransactionService, op: Operation) returns (answer: Answer)
    requires service.Valid()
    modifies service.router`cache, service.router`counter, service.health`stateCache,
             service.health.repository, service.health.repository.events,
             service.transactions, service.orderGateways.repository, service.clock
    ensures service.Valid()
    ensures service.health.repository.events == old(service.health.repository.events)
            || fresh(service.health.repository.events)
    ensures service.World() == Perform(old(service.World()), service.router.Params(), op)
    ensures answer == AnswerTo(old(service.World()), service.router.Params(), op)
  {
    match op
    case InitiateOp(input) =>
      var r := service.Initiate(input);
      answer := Initiated(r);
    case CallbackOp(input) =>
      var r := service.Callback(input);
      answer := CalledBack(r);
    case ObserveOp(g) =>
      var state := service.health.State(g);
      var stats := service.health.Stats(g);
      answer := Shown(state.value, stats);
  }

  function Positive(ttl: Time, default: Time): Time {
    if ttl > 0 then ttl else default
  }

  /** Everything the services of a process write to. */
  ghost function Footprint(service: TransactionService): set<object>
    reads service.health.repository
  {
    {service.router, service.health, service.health.repository, service.health.repository.events,
     service.transactions, service.orderGateways.repository, service.clock}
  }

  /** The wiring of one process on the memory backend. */
  method Wire(
      config: AppConfig, at: nat -> Time, stateTTL: Time, routingTTL: Time) returns (service: TransactionService)
    ensures service.Valid() && fresh(Footprint(service))
    ensures service.World() == EMPTY_WORLD
    ensures service.router.Params() == Setup(config, Positive(routingTTL, 100 * MILLISECOND), at)
  {
    var clock := new Clock(at);
    var repository := new HealthRepository();
    var health := new HealthService(repository, config, clock);
    health.SetCacheTTL(stateTTL);
    var router := new RoutingService(health, config, clock);
    router.SetCacheTTL(routingTTL);
    var summaries := new BlacklistRepository();
    var orderGateways := new BlacklistService(summaries, config, clock);
    var transactions := new TransactionRepository();
    service := new TransactionService(transactions, router, health, orderGateways, clock);
  }

  /** Whatever lifetimes the state cache is given, and whenever they change, a process answers
      every sequence of requests exactly as the reference machine, which has no state cache,
      and ends in its world. */
  method Serve(config: AppConfig, at: nat -> Time, stateTTL: Time, routingTTL: Time, commands: seq<Command>)
    returns (answers: seq<Answer>, ghost final: World)
    ensures var s, ops := Setup(config, Positive(routingTTL, 100 * MILLISECOND), at), Requests(commands);
            answers == Answers(EMPTY_WORLD, s, ops)
    ensures var s, ops := Setup(config, Positive(routingTTL, 100 * MILLISECOND), at), Requests(commands);
            final == Run(EMPTY_WORLD, s, ops)
  {
    hide Run, Answers, AnswerTo, Perform, Requests;
    var service := Wire(config, at, stateTTL, routingTTL);
    ghost var s := service.router.Params();
    answers := [];
    NothingRequested(s);
    for i := 0 to |commands|
      invariant fresh(Footprint(service)) && service.Valid() && service.router.Params() == s
      invariant service.World() == Run(EMPTY_WORLD, s, Requests(commands[..i]))
      invariant answers == Answers(EMPTY_WORLD, s, Requests(commands[..i]))
    {
      RequestsStep(commands, i);
      match commands[i]
      case Request(op) =>
        RunStep(EMPTY_WORLD, s, Requests(commands[..i]), op);
        var answer := Answering(service, op);
        answers := answers + [answer];
      case ChangeStateTTL(ttl) => service.health.SetCacheTTL(ttl);
    }
    assert commands[..|commands|] == commands;
    final := service.World();
  }

  lemma NothingRequested(s: Setup)
    ensures Requests([]) == [] && Run(EMPTY_WORLD, s, []) == EMPTY_WORLD && Answers(EMPTY_WORLD, s, []) == []
  {
  }
}
