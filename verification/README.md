# The routing and health engine, verified

This project models the routing and health engine of the payment gateway router in Dafny and
proves what its parts guarantee together: which gateway a request may be sent to, when a
gateway is taken out of rotation and let back in, that outcomes are counted exactly once, and
how much of this survives when many threads and replicas share one store.

Verify it with `dafny verify dfyconfig.toml`. Nothing was executed: every claim below is a
Dafny contract.

## How it is organised

**Classes** (`memory_*.dfy`, `clock.dfy`, `*_service.dfy`, `redis_repositories.dfy`) follow the
Go code method by method: the memory and Redis repositories, the clock, and the health,
blacklist, routing and transaction services with their caches, loops and compensation. Every
method is proved equal to a function of the old state. The health service's invariant is that
its state cache never disagrees with the store, so its methods are proved equal to functions
that have no cache.

**The sequential machine** (`breaker.dfy`, `event_log.dfy`, `selector.dfy`, `blacklist.dfy`,
`transactions.dfy`, `reference.dfy`) is those functions put together: a world of tables and a
step for each operation, driven by an arbitrary monotone clock. `Processes.Serve` wires the
classes into one process and proves that it answers every sequence of requests as this machine
does. `quiet.dfy`, `reference_invariant.dfy`, `reference_theorems.dfy` and
`reference_episodes.dfy` prove properties of all its runs. `reference_verdicts.dfy`,
`reference_routing.dfy` and `reference_answers.dfy` say what the operations do and answer from
the configured seconds and weights, the events of the log and the stored tables alone: which
outcomes trip a gateway and until when, which gateway a selection answers and how fairly, which
error or answer a caller gets. They name none of the functions that compute windows, rates,
deadlines, expiries, weights or attempt numbers.

**The step model** (`interleaving.dfy`) has any number of threads in any number of replicas.
Each repository call, each access to a replica's caches and each clock reading is one atomic
step; a thread carries a program counter and its own, possibly stale, copies. History that the
properties speak about is kept beside the store. `interleaving_alone.dfy` proves that a thread
nobody interrupts does exactly one operation of the sequential machine, which is what makes the
step model a model of the same code. Further modules prove what holds under every interleaving:
who grants and uses tokens (`interleaving_tokens`, `_grants`, `_safety`), exactly how tokens get
lost and how many probes that leaves under way (`_losses`, `_underway`), exactly how a cooldown
ends (`_cooldowns`), which gateways a request excludes (`_exclusion`), that attempt numbers are
unique (`_attempts`), conservation (`_ledger`) and staleness (`_freshness`).
`interleaving_runs.dfy` and `interleaving_scenes.dfy` put runs together out of uninterrupted
stretches, for the two counterexamples in `interleaving_overrun.dfy` and
`interleaving_recovery.dfy`; `scenario.dfy` holds the sequential one.

**The Redis modules** (`redis_probes.dfy`, `redis_stats.dfy`) compare the Lua scripts and the
minute buckets with the memory repositories.

Time is an integer number of nanoseconds since the Unix epoch, rates are exact rationals, and
the zero time is an option. Fresh transaction ids and the answers of gateway clients are
inputs. A configuration is served as `WithDefaults` leaves it, fixed for a run.

## Where the documentation and the code part

- The repository's README says the configured in-flight probe count is enforced even under
  concurrent requests. In the sequential machine it is: `ReferenceEpisodes.EpisodeIsBounded`.
  Under concurrency it is enforced for every stored token list, but a request that read the
  gateway as unhealthy before a probe was granted saves its own move to half-open over the
  granted token. `InterleavingUnderWay.ProbesUnderWay` gives the count after every interleaving:
  the probes under way are the live stored tokens and the overwritten ones, so the configured
  count is kept if and only if no more tokens are overwritten than there is room beside the
  live list. `InterleavingOverrun.MoreProbesThanConfigured` is a run of two processes on one
  store, each working on one call at a time, with two probes under way where one is configured.
- It says unhealthy gateways are excluded from routing until their deadline. A snapshot taken
  before the trip still lists them for its lifetime: `Scenario.TrippedGatewayIsStillRouted` is
  such a run. `ReferenceTheorems.CoolingIsRoutedExactlyWhen` is the exact condition: such a
  gateway is returned to some request if and only if an unexpired snapshot lists it as healthy.
  `ReferenceTheorems.TrippedGatewayIsAvoided` is what holds after that lifetime.
- The same sentence, and the state diagram above it, fail once more when two callbacks overlap.
  One process does not end a cooldown early (`ReferenceTheorems.CooldownSurvivesRuns`), but a
  callback that read the gateway as healthy saves a recovery over a newer trip:
  `InterleavingRecovery.RunningCooldownIsLost` is such a run of two processes.
  `InterleavingCooldowns.CooldownEndsExactlyWhen` and `CooldownLastsExactlyWhen` say exactly
  which steps end a cooldown, and that the ones that come too early were decided on a copy
  that is not the cooldown they end.
- Its diagrams of outcome recording show neither probe ids nor the rule that only a callback
  that holds a live token decides a half-open gateway. The model follows the code.

## Model

| member | source | states |
|---|---|---|
| Processes.Serve | internal/service/transaction_service.go:66-181 | A process wired from the service classes answers every sequence of requests, under any state-cache lifetime changed at any time, exactly as the sequential machine without a state cache, and ends in its world |
| Processes.Wire | internal/service/transaction_service.go:44-64 | A newly wired process is coherent and stands for the empty world |
| TransactionServices.TransactionService.Initiate | internal/service/transaction_service.go:66-130 | New world and answer equal the sequential Initiate: blacklist, selection, attempt number, client, save, and release of the probe on every failing exit |
| TransactionServices.TransactionService.Submit | internal/service/transaction_service.go:90-129 | The part after selection, with its three compensated failures |
| TransactionServices.TransactionService.ReleaseProbe | internal/service/transaction_service.go:81-88 | Releases the token exactly for half-open selections; an error of the release changes nothing |
| TransactionServices.TransactionService.Callback | internal/service/transaction_service.go:132-181 | New world and answer equal the sequential Callback: not found, gateway mismatch, order conflict, conflicting completion, duplicate, first completion |
| TransactionServices.TransactionService.Record | internal/service/transaction_service.go:168-178 | A first completion feeds health, then the blacklist, with two clock readings, and is answered as no repetition |
| TransactionServices.TransactionService.Repeat | internal/service/transaction_service.go:153-166 | A duplicate callback only observes the gateway |
| HealthServices.HealthService.PrepareForRouting | internal/service/health_service.go:49-75 | Cached or not, the store becomes what ensure, move to half-open and prune make of the stored state, which is also the answer; the cache stays coherent |
| HealthServices.HealthService.CachedStateOf | internal/service/health_service.go:221-238 | A hit returns what the repository holds, a miss makes it so; both leave the same store |
| HealthServices.HealthService.SetCachedState | internal/service/health_service.go:240-247 | The entry of the state's gateway, expiring one lifetime after the reading |
| HealthServices.HealthService.SetCacheTTL | internal/service/health_service.go:39-47 | A positive lifetime is taken and empties the cache; any other changes nothing |
| HealthServices.HealthService.MarkProbeSelected | internal/service/health_service.go:77-92 | The acquisition's state is stored whatever the verdict; refused and unknown gateways are told apart |
| HealthServices.HealthService.ReleaseProbe | internal/service/health_service.go:94-105 | The release's state is stored; an unknown gateway is reported and changes nothing |
| HealthServices.HealthService.RecordOutcome | internal/service/health_service.go:107-184 | Events, log, store and answer are the sequential outcome on the statistics that include the event just recorded |
| HealthServices.HealthService.Settle | internal/service/health_service.go:137-183 | The stored state becomes the breaker's outcome and the cache follows |
| HealthServices.HealthService.Judge | internal/service/health_service.go:159-177 | The decision outside the half-open phase equals the breaker's; a healthy gateway trips if and only if there are enough outcomes and fewer successes than threshold times outcomes |
| HealthServices.HealthService.Rule | internal/service/health_service.go:148-158 | The verdict on a released probe equals the breaker's |
| HealthServices.HealthService.MarkUnhealthy | internal/service/health_service.go:212-219 | The trip: the deadline is the configured cooldown seconds ahead, no tokens |
| HealthServices.HealthService.State | internal/service/health_service.go:186-203 | The stored state, pruned if half-open, and a coherent cache |
| HealthServices.HealthService.Stats | internal/service/health_service.go:205-210 | Exact window statistics of the retained events |
| RoutingServices.RoutingService.SelectGateway | internal/service/routing_service.go:62-95 | New world and answer equal the sequential selection, fallback and invalidation included |
| RoutingServices.RoutingService.SelectProbe | internal/service/routing_service.go:71-86 | The probe branch: the marked probe is answered; a refusal drops the snapshot and falls back or fails |
| RoutingServices.RoutingService.SelectHealthy | internal/service/routing_service.go:88-95 | The healthy branch: counter and answer equal the sequential ones, which ReferenceRouting.SelectionByTurns tells by turns |
| RoutingServices.RoutingService.TakeSnapshot | internal/service/routing_service.go:97-142 | An unexpired snapshot is returned as it is, an expired one rebuilt, with the readings counted |
| RoutingServices.RoutingService.Rebuild | internal/service/routing_service.go:113-141 | The loop over the gateways equals the sequential build: states, readings and both lists |
| RoutingServices.RoutingService.SelectWeighted | internal/service/routing_service.go:150-176 | Counter and answer equal the selector's; the return after the scan is never reached |
| RoutingServices.RoutingService.FilterExcluded | internal/service/routing_service.go:178-190 | The loop and its shortcut equal the order-preserving filter |
| RoutingServices.RoutingService.SetCacheTTL | internal/service/routing_service.go:52-60 | A positive lifetime is taken and drops the snapshot; any other changes nothing |
| RoutingServices.RoutingService.InvalidateCache | internal/service/routing_service.go:144-148 | No snapshot is left |
| RoutingServices.PickAfter | internal/service/routing_service.go:164-174 | The running total of the scan meets the slot where the recursive pick does |
| BlacklistServices.BlacklistService.BlacklistedGateways | internal/service/order_gateway_blacklist_service.go:27-32 | Nothing for an empty order id, otherwise the flagged gateways |
| BlacklistServices.BlacklistService.RecordOutcome | internal/service/order_gateway_blacklist_service.go:34-57 | The repository's outcome with the configured threshold and one clock reading |
| MemoryHealth.HealthRepository.Compact | internal/adapters/repository/memory/gateway_health_repository.go:134-141 | The loop over one array leaves the events to keep at its front, in order |
| MemoryHealth.HealthRepository.RecordEvent | internal/adapters/repository/memory/gateway_health_repository.go:130-144 | The in-place compaction and the append leave the order-preserving filter of the old events followed by the new one |
| MemoryHealth.HealthRepository.Append | internal/adapters/repository/memory/gateway_health_repository.go:142 | Growing or not, the old events followed by the new one |
| MemoryHealth.HealthRepository.StatsSince | internal/adapters/repository/memory/gateway_health_repository.go:146-166 | The loop counts the final outcomes of the gateway in the closed window |
| MemoryHealth.HealthRepository.Ensure | internal/adapters/repository/memory/gateway_health_repository.go:25-38 | A fresh healthy state for a gateway never seen, nothing otherwise |
| MemoryHealth.HealthRepository.Save | internal/adapters/repository/memory/gateway_health_repository.go:51-57 | The state under its own gateway's name, the others untouched |
| MemoryHealth.HealthRepository.PruneExpiredHalfOpenProbes | internal/adapters/repository/memory/gateway_health_repository.go:59-74 | The pruned state is stored and returned; an unknown gateway is an error without effect |
| MemoryHealth.HealthRepository.TryAcquireHalfOpenProbe | internal/adapters/repository/memory/gateway_health_repository.go:76-100 | Not half-open, full, granted and unknown, each with its state |
| MemoryHealth.HealthRepository.ReleaseHalfOpenProbe | internal/adapters/repository/memory/gateway_health_repository.go:102-128 | The live tokens of other transactions stay, and whether this one held a live token is told |
| MemoryHealth.PruneExpired | internal/adapters/repository/memory/gateway_health_repository.go:168-183 | The loop keeps the active tokens in order and counts them |
| MemoryHealth.DropToken | internal/adapters/repository/memory/gateway_health_repository.go:114-124 | The loop keeps the other tokens in order and reports whether one was dropped |
| MemoryBlacklist.BlacklistRepository.BlacklistedGateways | internal/adapters/repository/memory/order_gateway_blacklist_repository.go:22-33 | Exactly the flagged gateways of the order, in whatever order the map is walked |
| MemoryBlacklist.BlacklistRepository.RecordOutcome | internal/adapters/repository/memory/order_gateway_blacklist_repository.go:35-69 | New map and answer equal the outcome function, non-final statuses rejected |
| MemoryTransactions.TransactionRepository.NextAttempt | internal/adapters/repository/memory/transaction_repository.go:25-31 | One more than the order's attempts so far |
| MemoryTransactions.TransactionRepository.Save | internal/adapters/repository/memory/transaction_repository.go:33-42 | Inserts a new id, conflicts on an old one |
| MemoryTransactions.TransactionRepository.Complete | internal/adapters/repository/memory/transaction_repository.go:55-81 | New table and answer equal the completion function |
| ReferenceInvariant.RunKeeps | internal/service/transaction_service.go:66-181 | Every run keeps the invariant: well-formed states, tokens naming pending transactions, counters counting the table, events agreeing with the full log, a snapshot not older than the trips it hides |
| ReferenceInvariant.SelectGatewayKeeps | internal/service/routing_service.go:62-95 | What a selection may change and answer |
| ReferenceInvariant.InitiateKeeps | internal/service/transaction_service.go:66-130 | Initiate keeps the invariant; a failed one changes no table and only prunes |
| ReferenceInvariant.CallbackKeeps | internal/service/transaction_service.go:132-181 | Callback keeps the invariant |
| ReferenceTheorems.SelectionIsSoundAndComplete | internal/service/routing_service.go:62-95 | Answers are enabled, weighted, listed and not excluded; a probe answer holds a stored token; a listed healthy candidate guarantees an answer |
| ReferenceTheorems.TokensNeverLeak | internal/service/transaction_service.go:81-129 | After any run tokens name pending transactions on their gateway, and a failed Initiate leaves every unexpired token list and the table as they were |
| ReferenceTheorems.FailedInitiateKeepsTokens | internal/service/transaction_service.go:81-129 | The second half of it, from any state with the invariant |
| ReferenceTheorems.ExcludedExactlyWhen | internal/adapters/repository/memory/order_gateway_blacklist_repository.go:22-69 | A gateway is excluded for an order if and only if the table holds enough failed and no successful transactions for the pair |
| ReferenceTheorems.FailedGatewayIsNotRetried | internal/service/transaction_service.go:66-75 | After any run Initiate never returns such a gateway, and a success lifts the exclusion |
| ReferenceTheorems.FinalIdsOnlyGrow | internal/adapters/repository/memory/transaction_repository.go:55-81 | Final transactions stay final with their status, so a lifted exclusion stays lifted |
| ReferenceTheorems.PhasesMoveAlongArrows | internal/service/health_service.go:49-75 | Every operation moves each phase along one arrow of the machine or not at all; only callbacks trip or recover |
| ReferenceTheorems.TrippedGatewayIsAvoided | internal/service/health_service.go:212-219 | If an operation trips a gateway, it does so at one of its readings t: the deadline is t + cooldown, and no later Initiate whose readings lie in [t + routing lifetime, t + cooldown) returns it, whatever happens in between |
| ReferenceTheorems.CooldownSurvivesRuns | internal/service/health_service.go:159-165 | A running cooldown is not shortened, extended or ended by any operation before its deadline |
| ReferenceTheorems.CoolingIsRoutedExactlyWhen | internal/service/routing_service.go:62-95 | Before its deadline an unhealthy gateway is returned under some exclusions if and only if an unexpired snapshot lists it as healthy |
| ReferenceTheorems.CoolingIsOfferedExactlyWhen | internal/service/routing_service.go:97-142 | Before its deadline it stands in either list of the snapshot taken if and only if that is an unexpired older one: a rebuild never lists it |
| ReferenceTheorems.NoPermanentLockOut | internal/service/routing_service.go:97-142 | Past its deadline, its token expiries and the snapshot's expiry a gateway is listed again, and a request with only it left gets it |
| ReferenceTheorems.HealthyVerdict | internal/service/health_service.go:166-177 | The verdict on the retained events is the verdict on the full log |
| Breaker.BreachIsTooManyFailures | internal/service/health_service.go:167 | A breach is the minimum of outcomes and fewer successes than threshold times outcomes |
| ReferenceVerdicts.TripsExactlyWhen | internal/service/health_service.go:131-177 | After any run a callback that completes a transaction on a healthy gateway logs it and trips the gateway if and only if the log holds, in the configured seconds up to the reading, the minimum of its outcomes and fewer successes than threshold times outcomes; either whole state is given |
| ReferenceVerdicts.ProbeDecidesExactlyWhen | internal/service/health_service.go:137-158 | On a half-open gateway its own status decides if and only if its transaction holds a live token; otherwise only expired tokens are dropped |
| ReferenceVerdicts.DeadlineOpensExactlyWhen | internal/service/health_service.go:159-165 | On an unhealthy gateway it opens it to probes if and only if the deadline has come, and changes nothing before |
| ReferenceVerdicts.TripSetsTheDeadline | internal/service/health_service.go:212-219 | After any run only a callback trips a gateway, and the deadline is the reading plus the configured cooldown seconds |
| ReferenceVerdicts.GrantSetsTheExpiry | internal/service/health_service.go:77-92 | After any run a probe answer leaves exactly one token of the request, which expires at the millisecond of the last reading plus the configured timeout seconds |
| ReferenceVerdicts.RetentionIsTwiceTheWindow | internal/service/health_service.go:114-116 | Recording an outcome drops exactly the events older than twice the configured window |
| ReferenceTheorems.SuccessTripsForAReason | internal/service/health_service.go:131-177 | Between two verdicts on a healthy gateway a success trips it only if the first window was too small or a counted success has aged out |
| ReferenceEpisodes.LiveTokensAreTheEpisode | internal/service/health_service.go:76-105 | In every sequential run a token unexpired at the latest reading is stored if and only if it was granted since the gateway last became half-open and not released |
| ReferenceEpisodes.EpisodeIsBounded | README.md:498 | So those probes are as many as the live stored tokens, and at most the configured count |
| ReferenceRouting.SelectionByTurns | internal/service/routing_service.go:62-95 | A selection fails, answers the open healthy candidate on whose stretch the next counter value falls, or offers the open probe candidate on whose stretch it falls; a probe is granted if and only if fewer tokens than configured are live, and a refusal drops the snapshot and takes a second counter value for a healthy candidate |
| ReferenceRouting.RouterIsFair | internal/service/routing_service.go:150-176 | After any run, n consecutive selections on an unexpired snapshot with fixed exclusions and no open probe answer a candidate of weight x in open weight t exactly c times with abs(t*c - n*x) <= x*(t - x), m*x times in m full rounds, and within twice the bound when the counter wraps |
| ReferenceRouting.RebuildListsExactly | internal/service/routing_service.go:97-142 | An unexpired snapshot is used as it is; a rebuilt one holds for the routing lifetime, lists only enabled gateways with weight in their configured order, and lists a gateway as healthy if and only if it is, and as a probe if and only if it is half-open, or unhealthy past its deadline, with fewer live tokens than configured |
| ReferenceRouting.RefusedIsNotOfferedAgain | internal/service/routing_service.go:77-82 | After a refused probe the next selection, at whatever time, rebuilds, and offers the gateway only by that rule |
| ReferenceAnswers.CallbackFailsExactlyWhen | internal/service/transaction_service.go:132-147 | In every world each error has its exact condition, in the source's order, and a failed callback changes nothing |
| ReferenceAnswers.CallbackAnswer | internal/service/transaction_service.go:148-181 | After any run a successful callback says whether it is a repetition, and answers the transaction it has stored with its status and completion time, the stored state of the gateway and the exact counts of the log's window |
| ReferenceAnswers.ObservationAnswer | internal/service/health_service.go:186-210 | After any run an observation answers the stored state less exactly its expired tokens, and the exact counts of the log's window |
| ReferenceAnswers.InitiateAnswer | internal/service/transaction_service.go:90-129 | After any run each failure has its condition and stores nothing; otherwise a pending transaction is stored and answered, numbered one above the order's earlier Initiates that reached a registered client |
| ReferenceAnswers.AttemptsAreNumbered | internal/adapters/repository/memory/transaction_repository.go:25-31 | After any run attempt numbers lie between one and the order's attempts, no two transactions of an order share one, and the attempts are the Initiates that reached a client |
| Scenario.TrippedGatewayIsStillRouted | README.md:496 | A run in which a gateway is returned right after the callback that tripped it |
| Breaker.OutcomeMoves | internal/service/health_service.go:137-177 | An outcome follows an arrow, leaves half-open exactly when a final outcome releases a live token, and never touches a running cooldown |
| Breaker.OutcomeKeepsShape | internal/service/health_service.go:137-177 | Outcomes keep counters equal to list lengths, the bound, and tokens out of other phases |
| Breaker.AcquireKeepsShape | internal/adapters/repository/memory/gateway_health_repository.go:76-100 | Acquisition of a new token keeps the same |
| Breaker.ReleaseKeepsShape | internal/adapters/repository/memory/gateway_health_repository.go:102-128 | Release keeps the same |
| Breaker.AcquireThenRelease | internal/adapters/repository/memory/gateway_health_repository.go:76-128 | A token granted and released leaves what pruning alone would |
| Breaker.AcquireExactly | internal/adapters/repository/memory/gateway_health_repository.go:76-100 | An acquisition is granted if and only if fewer tokens than the bound are live, and leaves exactly those and the new one |
| Breaker.ReleaseExactly | internal/adapters/repository/memory/gateway_health_repository.go:102-128 | A release reports whether its transaction held a live token and leaves exactly the others' live ones |
| Breaker.PruneExactly | internal/adapters/repository/memory/gateway_health_repository.go:168-183 | Pruning leaves exactly the live tokens, counted |
| Breaker.PrepareExactly | internal/service/health_service.go:49-75 | Preparing opens an unhealthy state to probes if and only if its deadline has come, drops a half-open one's expired tokens, and leaves any other alone |
| Breaker.LiveMembers | internal/adapters/repository/memory/gateway_health_repository.go:168-183 | Pruning keeps exactly the active tokens |
| Breaker.LiveTwice | internal/adapters/repository/memory/gateway_health_repository.go:168-183 | Pruning earlier is invisible to pruning later |
| EventLog.PruningIsInvisible | internal/adapters/repository/memory/gateway_health_repository.go:130-166 | A query from every cutoff on counts what the never-pruned log holds |
| EventLog.WindowQueriesAreExact | internal/service/health_service.go:114-132 | With one window the health query is such a query |
| EventLog.ClockJumpLosesEvents | internal/adapters/repository/memory/gateway_health_repository.go:134-141 | Without the bound on cutoffs it is not |
| EventLog.SuccessTripsOnlyForAReason | internal/service/health_service.go:131-177 | The window arithmetic behind ReferenceTheorems.SuccessTripsForAReason |
| Selector.SelectionIsFair | internal/service/routing_service.go:150-176 | Over n consecutive selections the count c of a candidate of weight w in total t satisfies abs(t*c - n*w) <= w*(t - w), and full rounds are exact |
| Selector.SelectionIsFairAcrossTheWrap | internal/service/routing_service.go:161-174 | A stretch in which the 64-bit counter wraps stays within twice the bound |
| Selector.FairnessBoundIsAttained | internal/service/routing_service.go:161-174 | For every weighted candidate some stretch of selections without wrap exceeds its share by exactly w*(t - w)/t, and some stretch falls short by as much |
| Selector.SelectAnswers | internal/service/routing_service.go:150-176 | A selection answers exactly when some candidate has weight, and with a weighted candidate |
| Selector.PickIsTheStretch | internal/service/routing_service.go:162-174 | A candidate is picked exactly on its own stretch of the weight line |
| Blacklist.BlacklistedExactlyWhen | internal/adapters/repository/memory/order_gateway_blacklist_repository.go:35-69 | Over any sequence with one threshold, flagged if and only if enough failures and no success |
| Blacklist.ReportedAtMostOnce | internal/adapters/repository/memory/order_gateway_blacklist_repository.go:52-65 | For any thresholds a pair is newly blacklisted at most once |
| Blacklist.BackendsAgree | internal/adapters/repository/redis/order_gateway_blacklist_repository.go:98-133 | Script and memory give the same answers, and the Redis set is the flagged gateways |
| Transactions.CompletedAtMostOnce | internal/adapters/repository/memory/transaction_repository.go:55-81 | A completion is reported as a change at most once, exactly when the transaction is final |
| Transactions.FinalIsForever | internal/adapters/repository/memory/transaction_repository.go:68-73 | A final transaction never changes |
| Transactions.ScriptAgrees | internal/adapters/repository/redis/transaction_repository.go:112-131 | The script with the decoding of its reply is the memory completion |
| RedisProbes.ScriptsSimulateMemory | internal/adapters/repository/redis/gateway_health_repository.go:226-338 | From related stores every sequence of calls with non-empty ids gets the same replies, dates aside |
| RedisProbes.PruneAgreesExactlyWhenNamed | internal/adapters/repository/redis/gateway_health_repository.go:309-338 | Pruning agrees if and only if no unexpired token has an empty id |
| RedisStats.SumCountsWholeMinutes | internal/adapters/repository/redis/gateway_health_repository.go:150-190 | The sum over buckets is the exact count over whole minutes |
| RedisStats.WholeMinutesSandwich | internal/adapters/repository/redis/gateway_health_repository.go:150-190 | The exact window is dominated, and the excess is less than a minute older than its start |
| RedisStats.BucketsAreKept | internal/adapters/repository/redis/gateway_health_repository.go:134-148 | After timely writes each bucket holds the exact count of its minute and the re-armed expiry |
| RedisStats.VisitedBucketsAreAlive | internal/adapters/repository/redis/gateway_health_repository.go:141 | Every bucket a health query visits and an event reached is alive when it is read |
| RedisStats.HealthQuerySandwich | internal/adapters/repository/redis/gateway_health_repository.go:134-190 | So the health query on the expiring store is the exact count over the window's whole minutes and dominates the exact window; without later events it counts from the start of the first minute to now |
| RedisStats.HealthQueryCountsMinutes | internal/adapters/repository/redis/gateway_health_repository.go:134-190 | The same from the configured seconds: it answers the numbers of the events dated from the minute its window begins in to the end of its own |
| RedisStats.WriteSetsTheExpiry | internal/adapters/repository/redis/gateway_health_repository.go:134-148 | Every write leaves its minute's counters to live for two windows and two minutes |
| RedisRepositories.HealthRepository.StatsSince | internal/adapters/repository/redis/gateway_health_repository.go:150-190 | The pipelined reads and their sum are the bucket query |
| RedisRepositories.HealthRepository.RecordEvent | internal/adapters/repository/redis/gateway_health_repository.go:134-148 | Increment and expiry of the event's minute, nothing else |
| RedisRepositories.HealthRepository.PruneExpiredHalfOpenProbes | internal/adapters/repository/redis/gateway_health_repository.go:309-338 | The script's loop and encoding equal its function |
| RedisRepositories.HealthRepository.TryAcquireHalfOpenProbe | internal/adapters/repository/redis/gateway_health_repository.go:226-269 | The script's loop and encoding equal its function |
| RedisRepositories.HealthRepository.ReleaseHalfOpenProbe | internal/adapters/repository/redis/gateway_health_repository.go:271-307 | The script's single pass equals its function |
| RedisRepositories.HealthRepository.Ensure | internal/adapters/repository/redis/gateway_health_repository.go:23-35 | Stores a fresh document only where there is none |
| RedisRepositories.HealthRepository.Save | internal/adapters/repository/redis/gateway_health_repository.go:41-50 | What is saved decodes to what was given |
| RedisRepositories.BlacklistRepository.RecordOutcome | internal/adapters/repository/redis/order_gateway_blacklist_repository.go:34-88 | New hash, set and answer equal the script function |
| RedisRepositories.BlacklistRepository.BlacklistedGateways | internal/adapters/repository/redis/order_gateway_blacklist_repository.go:22-32 | The members of the order's set |
| RedisRepositories.TransactionRepository.Complete | internal/adapters/repository/redis/transaction_repository.go:48-87 | The same table and answer as the memory completion |
| RedisRepositories.TransactionRepository.Save | internal/adapters/repository/redis/transaction_repository.go:27-42 | The same table and answer as the memory save |
| Domain.Validate | internal/domain/config.go:70-103 | The single pass with the names seen so far accepts exactly the valid configurations, and each error has its cause |
| Domain.DefaultsAreTheDocumentedOnes | README.md:494-495 | Unset fields get the documented values, set ones are kept, a threshold above one is a percentage |
| Domain.AcceptedIsUsable | internal/domain/config.go:41-103 | What defaulting and validation accept is positive, within range, and left alone by another defaulting |
| Domain.DefaultingIsIdempotentUpToOneHundred | internal/domain/config.go:52-57 | Defaulting twice is defaulting once if and only if the threshold is at most 100 |
| InterleavingAlone.UninterruptedInitiate | internal/service/transaction_service.go:66-130 | A thread that runs its steps without interruption does the sequential Initiate to the world its replica sees |
| InterleavingAlone.UninterruptedCallback | internal/service/transaction_service.go:132-181 | The same for a callback |
| InterleavingAlone.SelectAlone | internal/service/routing_service.go:62-142 | The selection steps add up to the sequential selection |
| InterleavingAlone.LoopAlone | internal/service/routing_service.go:120-141 | The snapshot steps add up to the sequential build |
| InterleavingAlone.RecordAlone | internal/service/health_service.go:107-184 | The outcome steps add up to the sequential outcome |
| InterleavingSafety.AlwaysInv | internal/service/health_service.go:49-184 | The token invariant and every thread's assertion hold after every interleaving |
| InterleavingSafety.TokensAreSafe | internal/service/health_service.go:49-183 | In-flight counts are list lengths within the bound, other phases hold no token, no token is released twice, and each verdict on a half-open gateway has its own acquired, unexpired, released token |
| InterleavingSafety.NoSaveWritesTokens | internal/service/health_service.go:56-63 | However stale its copy, a Save writes an empty list and a zero count |
| InterleavingGrants.OnlyAcquisitionAddsTokens | internal/adapters/repository/memory/gateway_health_repository.go:76-100 | Only an acquisition adds a token, its own; only the owner of a released, unused token appends a verdict |
| InterleavingTokens.AcquireKeeps | internal/adapters/repository/memory/gateway_health_repository.go:76-100 | An acquisition by a thread with a fresh id is safe for all threads |
| InterleavingTokens.ReleaseKeeps | internal/adapters/repository/memory/gateway_health_repository.go:102-128 | So is a release by any thread |
| InterleavingLosses.TokenLeavesExactlyWhen | internal/service/health_service.go:56-63 | A step removes an unexpired token from the store if and only if it is a Save on that gateway or the token's own release |
| InterleavingLosses.TokenSurvivesExactlyWhen | internal/service/health_service.go:49-184 | Over any stretch of any run a token unexpired at its end stays if and only if the stretch holds neither |
| InterleavingUnderWay.UnderWayIsStoredExactlyWhen | internal/service/health_service.go:56-63 | After any interleaving an acquired, unreleased, unexpired probe has its token stored if and only if no Save hit its gateway while the token was stored |
| InterleavingUnderWay.ProbesUnderWay | README.md:498 | Such probes are as many as the live stored tokens, at most the configured count, plus the overwritten ones; so the count is kept if and only if the overwritten ones fit beside the live list |
| InterleavingOverrun.MoreProbesThanConfigured | README.md:498 | A run in which no replica works on two calls at once, with two outstanding, unexpired probes made in different replicas where one is configured |
| InterleavingCooldowns.CooldownEndsExactlyWhen | internal/service/health_service.go:49-177 | A step takes a gateway out of the unhealthy phase if and only if its thread's copy passes one of three guards; only a Save on the gateway changes its state, and one that ends a running cooldown carries another copy |
| InterleavingCooldowns.CooldownLastsExactlyWhen | internal/service/health_service.go:49-184 | Over any stretch of any run a gateway stays unhealthy if and only if the stretch holds no such step |
| InterleavingRecovery.RunningCooldownIsLost | README.md:496 | A run in which no replica works on two calls at once, and a gateway becomes healthy a minute before its deadline |
| InterleavingExclusion.ExcludedExactlyWhenBarred | internal/service/transaction_service.go:66-70 | After any interleaving a request that begins excludes a gateway if and only if, among the order's finished transactions there without those still parked, no success and at least the threshold of failures are counted |
| InterleavingExclusion.BarredIsNotChosen | internal/service/routing_service.go:178-190 | A running request excludes exactly what was barred when it was about to begin, and the gateway it probes or is sent to was not |
| InterleavingExclusion.BarredStaysOut | internal/service/transaction_service.go:66-75 | A request that arrives while a gateway is barred is sent there only once a success of the pair has been counted |
| InterleavingLedger.AlwaysInv | internal/service/transaction_service.go:132-181 | The ledger invariant holds after every interleaving |
| InterleavingLedger.EventsAreConserved | internal/service/transaction_service.go:132-181 | Per gateway and status, finished transactions are logged events plus callbacks parked before recording, and no id is logged twice |
| InterleavingLedger.EventsBalance | internal/service/health_service.go:107-124 | The same from any state with the invariant |
| InterleavingLedger.CountersAreConserved | internal/service/transaction_service.go:132-181 | Per order, gateway and status, finished transactions are the counter plus callbacks parked before the blacklist |
| InterleavingLedger.CountersBalance | internal/adapters/repository/memory/order_gateway_blacklist_repository.go:35-69 | The same from any state with the invariant |
| InterleavingAttempts.NumbersAreUnique | internal/adapters/repository/memory/transaction_repository.go:25-42 | After any interleaving no two stored transactions of an order share an attempt number, and each lies between one and the order's attempts |
| InterleavingFreshness.RoutingIsNeverStale | internal/service/routing_service.go:97-142 | A gateway routed to without a probe was healthy in the store at a point of the run later than the snapshot's reading less both cache lifetimes |
| InterleavingFreshness.HistoryIsWitnessed | internal/service/health_service.go:221-247 | Each recorded instant of health is the clock of an earlier state of the run in which the gateway was healthy |
| InterleavingFreshness.AlwaysInv | internal/service/health_service.go:221-247 | Every cache entry and snapshot, whoever wrote it, is backed by health no older than its lifetime allows |

## Left out

- HTTP handlers, JSON decoding and the gateways' callback formats: a callback arrives decoded.
- Loading and watching configuration files: one configuration per run; only the blacklist and retention results allow thresholds and windows to vary.
- The Redis client: keys are tuples, so the trimming of colons in key parts and its collisions are not modelled, and a command does not fail on the network.
- Bucket sizes other than one minute in the Redis statistics, which no caller uses.
- Redis server time runs no later than one window and a minute behind the clock reading a command carries; a slower command is outside RedisStats.HealthQuerySandwich.
- Mutexes: a locked method is one step. The step model lets other threads of a replica run while its snapshot is rebuilt, which the lock of the source prevents, so it allows more runs than the code has.
- Sharing of backing arrays between returned copies of a token list: token lists are values, and only the event log is compacted in a real array.
- Amounts, payment instruments, failure reasons and gateway reference ids.
- The random generation of ids: an id is an input, new to the system.
- A transaction service without a blacklist: the service is always wired with one.
- Rounding of the success rate, thresholds that are not numbers, and overflow of durations.
- The clocks of different replicas: the step model has one clock for all.
- ReferenceRouting.RouterIsFair: the exclusions are fixed and no probe candidate is open for the stretch it speaks about, as the two lists of a snapshot share one counter.
- ReferenceTheorems.TrippedGatewayIsAvoided: sequential, for one process; the bound for replicas is InterleavingFreshness.RoutingIsNeverStale.
- A process wired on the Redis repositories as one system: each of them is compared with its memory counterpart, and the step model's repository calls are those of the memory ones.
- The simulator, the container files and the main program.
