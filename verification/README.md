# Market-maker bot: a verified model

A Dafny model of the stateful pieces of the market-maker bot, with proofs of what they promise over every input, every
run and every interleaving. `dafny verify dfyconfig.toml` checks it all.

**Telemetry hub** (`internal/telemetry/hub.go`). `Hub` is a labelled step system: producers, the one dispatcher,
subscribers and unsubscribing handlers interleave freely; a step is one channel operation or one locked section, and
unsubscribing is split into delete, look at the length, blocking receive and close. Every channel carries its history
(attempts, deliveries). `HubProofs` has the inductive invariant and what follows: ordered delivery, exact loss
accounting, and the exact condition under which the dispatcher sends on a closed channel. `HubPaths` and
`HubHangs` add finite continuations: runs that show what can happen, and exactly when an unsubscribe can still complete.
`TelemetryHub` is the hub's own code, updated in place, each call proved to be a path of the step system.

**Order reconciliation** (`internal/engine/manager.go` against `pkg/exchange/mock/mock.go`). `OrderProtocol` is the
protocol on values, in a world where any adapter call may fail and any order may fill just before any call.
`MockExchange` and `OrderManager` are the two classes, proved to do exactly that. No orphan orders, the exact outcome of
a call, and history independence are proved over all runs.

**Bot registry, worker and audit trail** (`internal/orchestrator/orchestrator.go`, `internal/worker/worker.go`,
`internal/api/grpc_server.go`). `Fnv` and `Sharding` justify the 16 shards; `Orchestrator`, `Workers` and `Api` are the
classes, specified on one plain map; `Journal` reads the audit log back; `RegistryRuns` interleaves lookups,
transitions, starts, stops and shard-by-shard scans.

**Reports** (`internal/report/reporter.go`). `Calendar` is the proleptic Gregorian calendar with Go's date
normalisation, `Report` the match / group / fold pipeline and its windows, `Schedule` the minute ticker. The theme is
conservation: reports partition the trade history.

**Spread arithmetic** (`internal/engine/spread.go`). `Spread` treats decimals as exact values, with an explicit rounding
of every division to 16 fractional digits, half away from zero.

Assumptions made of the world: the declaration of `LayerQuote` is not part of this model, so its fields are those that
manager.go:67-87 uses; a failed placement leaves nothing live, a successful cancel is idempotent, exchange ids are fresh
(`MOCK-n` is the number n); ranging over a Go map yields any order. Nobody else places orders at the exchange once the
manager exists: every id issued after that counts as the manager's. `grpc_server.go:83` passes `StartBot` a context that
`orchestrator.go:59` does not take; the orchestrator's signature is the one modelled. The worker's `Slow` state is
reported as `Throttled`.

Where the code and its comments disagree, or the code allows what a caller may not expect, the code is modelled:

- The PnL of a report adds up filled quantities; the comment at reporter.go:117 promises price times quantity
  (`Report.PnlAsDocumentedIff`, `Report.PnlDiffersFromDocumented`).
- `ResumeBot` also succeeds from `Slow`; the comment at orchestrator.go:89 says from `Pause`
  (`Orchestrator.Orchestrator.ResumeBot`). Outside tests nothing moves a registered worker to `Slow`: the requests never
  do (`Journal.NeverSlow`), while `RegistryRuns` lets any holder of a handle try.
- `CancelAll` cancels but keeps tracking, so `OpenOrderCount` stays as it was after it
  (`OrderProtocol.CancelAllOutcome`).
- `EffectiveSpread` guards against a non-positive ask, but still divides by zero when the two prices sum to less than
  10^-16 (`Spread.DivisionByZeroIff`).
- Nothing keeps `unsubscribe` from closing a channel that the dispatcher is about to send on (`HubProofs.PanicIff`;
  `HubPaths.PanicReachable` is a run that gets there).
- `CreateBot` stores the config on insert only, so a bot that is deleted and created again runs with new settings while
  the stored ones stay the old ones (`Journal.StoredDescribesRunningIff` says exactly when,
  `Journal.RecreatedRunsUnstoredConfig` is such a run).
- A bot id listed twice with the scheduler is reported, and counted, twice (`Schedule.CountedOnceIff`).
- An unsubscribe whose subscriber still receives can wait for an event that never comes (`HubHangs.CanCloseIff` says exactly
  when, `HubHangs.ClosableWithoutReceive` how to avoid it); `StreamTelemetry` receives and unsubscribes in one goroutine and does
  not do that.
- A bot started while `StopAll` runs can survive it (`RegistryRuns.SurvivorsIff`).

## Model

| member | source | states |
|---|---|---|
| HubProofs.InvAlways | internal/telemetry/hub.go:41-102 | every reachable state of the hub satisfies the inductive invariant: dispatcher counters, who is registered and how far each is served, and per channel attempts = filtered stream and taken + buffered = sent |
| HubProofs.DeliveredInOrder | internal/telemetry/hub.go:53-100 | in every reachable state, received followed by buffered is strictly increasing (so duplicate-free), at most 64 buffered, and made of accepted events that match the filter and were snapshotted after Subscribe |
| HubProofs.SinceMeansAfterSubscribe | internal/telemetry/hub.go:61-88 | an event counts as after a subscription iff its snapshot step comes later in the run than the Subscribe step |
| HubProofs.FilterIsAskedFor | internal/telemetry/hub.go:53-65 | in every later state the filter of a subscriber is exactly the set of bot ids it asked for |
| HubProofs.OfferedWhatItAskedFor | internal/telemetry/hub.go:53-100 | since its Subscribe a subscriber is offered exactly the events of the bots it asked for, all of them if it asked for none, and gets no others |
| HubProofs.InboundIsPublished | internal/telemetry/hub.go:42 | over every run the inbound channel has accepted exactly the published events, in order, holds at most 256 of them, and a producer waits iff it holds that many |
| HubProofs.ChannelAccounting | internal/telemetry/hub.go:59-100 | for every channel, also after its subscriber has left: attempts are the filtered stream considered for it, attempts = taken out + buffered + dropped, and every drop met exactly 64 buffered |
| HubProofs.Accounting | internal/telemetry/hub.go:59-100 | for a live subscriber, attempts are exactly the filtered stream dispatched since it subscribed, attempts = received + buffered + dropped, every drop met exactly 64 buffered, and without drops nothing is missing |
| HubProofs.NoDropsWithRoom | internal/telemetry/hub.go:96-99 | a subscriber whose buffer never reached 64 has had no event dropped |
| HubProofs.ExactStream | internal/telemetry/hub.go:90-100 | a live subscriber whose buffer never reached 64 has, received or buffered, exactly the filtered stream, in order |
| HubProofs.TurnAlwaysPossible | internal/telemetry/hub.go:80-100 | the dispatcher is never blocked inside a send loop, whatever the buffers hold |
| HubProofs.OneTurnPerSubscriber | internal/telemetry/hub.go:90-100 | absent a panic an event is finished after exactly one turn per snapshotted subscriber, in snapshot order, whatever others do in between |
| HubProofs.ClosedByClose | internal/telemetry/hub.go:67-76 | a channel is closed in a state iff its close step lies before it |
| HubProofs.TurnPanicsIff | internal/telemetry/hub.go:67-100 | one turn of the send loop sends on a closed channel iff its subscriber was closed between snapshot and turn and its filter matches |
| HubProofs.PanicComesFromTurn | internal/telemetry/hub.go:81-102 | only a turn of the send loop can panic, and the run ends there |
| HubProofs.PanicIff | internal/telemetry/hub.go:67-100 | a run ends in a send on a closed channel iff some snapshotted subscriber with a matching filter is closed before its turn and the turn comes |
| HubPaths.PanicReachable | internal/telemetry/hub.go:67-100 | a concrete valid run, for any bot id, in which unsubscribing between snapshot and turn makes the dispatcher send on a closed channel |
| HubProofs.DoomedOnceClosed | internal/telemetry/hub.go:67-100 | once a pending subscriber with a matching filter is closed, the loop can only wait for its turn or panic |
| HubProofs.SafeWithoutCloseInLoop | internal/telemetry/hub.go:67-100 | a run in which no close completes during a send loop never panics |
| HubHangs.CanCloseIff | internal/telemetry/hub.go:67-100 | in every reachable state before a panic, some continuation closes a channel iff its unsubscribe is not stuck: waiting in the drain loop with nothing buffered, and with no turn to come, before a panic, for an event its filter passes |
| HubHangs.StuckForever | internal/telemetry/hub.go:67-100 | a stuck unsubscribe is stuck in every later state, whatever anybody does, so it never closes the channel |
| HubHangs.StuckByReceive | internal/telemetry/hub.go:72-74 | a drain loop waits on an empty buffer only after a consumer received between its look at the length and its receive |
| HubHangs.ClosableWithoutReceive | internal/telemetry/hub.go:72-75 | in a run in which no consumer receives from a channel while its drain loop waits, the loop never waits on an empty buffer and the channel can always still be closed |
| HubHangs.StuckReachable | internal/telemetry/hub.go:67-76 | a concrete valid run that ends with such an unsubscribe |
| Hub.FilteredFacts | internal/telemetry/hub.go:54-95 | the reference stream is strictly increasing and holds exactly the events of the span that pass the filter |
| Hub.LogSplits | internal/telemetry/hub.go:96-99 | every attempt was sent or dropped, never both; with no drops the sent events are all attempted ones |
| Hub.OfferKeepsOk | internal/telemetry/hub.go:90-100 | one turn for a subscriber keeps the channel invariant, sent or dropped or filtered out |
| Hub.TakeKeepsOk | internal/telemetry/hub.go:72-74 | taking the oldest buffered event, by the consumer or by the drain loop, keeps the channel invariant |
| HubPaths.PathIsRun | internal/telemetry/hub.go:41-102 | any path that the hub's calls take from the empty hub is a run of the step system, so all run theorems hold of it |
| TelemetryHub.FilterOf | internal/telemetry/hub.go:54-57 | the filter holds exactly the requested bot ids |
| TelemetryHub.TelemetryHub.constructor | internal/telemetry/hub.go:41-49 | a new hub is the initial state of the step system |
| TelemetryHub.TelemetryHub.Publish | internal/telemetry/hub.go:42 | a producer's send is one Publish step and appends exactly this event to the inbound channel |
| TelemetryHub.TelemetryHub.Subscribe | internal/telemetry/hub.go:53-66 | subscribing is one Subscribe step: a fresh id with an open, empty channel and a filter of exactly the requested bot ids, nobody else changed |
| TelemetryHub.TelemetryHub.Receive | internal/telemetry/hub.go:21-22 | a consumer's receive is one Receive step and takes the oldest buffered event out of this channel only |
| TelemetryHub.TelemetryHub.Unsubscribe | internal/telemetry/hub.go:67-76 | with n events buffered, unsubscribing is exactly one delete, n rounds of look and drain, a last look and a close, and leaves the channel empty, closed and out of the map |
| TelemetryHub.TelemetryHub.Turn | internal/telemetry/hub.go:91-99 | one iteration of the send loop, also for a copied subscriber that has left since, is one SendNext step: it appends the event iff the filter passes it, the channel is open and fewer than 64 are buffered, and panics iff the channel is closed and the filter passes it |
| TelemetryHub.TelemetryHub.SendToAll | internal/telemetry/hub.go:90-100 | over any copied subscriptions the send loop is one SendNext step for each, up to the first closed one whose filter passes the event, where it panics |
| TelemetryHub.TelemetryHub.Dispatch | internal/telemetry/hub.go:82-101 | one round of the dispatcher is exactly Pull, Snapshot of all subscriptions in some order, one SendNext for each and LoopDone; it consumes the oldest inbound event and, undisturbed, does not panic |
| OrderProtocol.CancelEachOutcome | internal/engine/manager.go:100-118 | every tracked id is tried, one call each: an order whose cancel goes through is gone whatever failed before, one whose cancel fails stays until it fills, others change by fills only, and the error is that of the first failing call |
| OrderProtocol.SuccessfulCancel | internal/engine/manager.go:109-116 | an id whose own cancel call goes through is not live afterwards, whatever calls failed before it |
| OrderProtocol.FailedCancel | internal/engine/manager.go:109-116 | an id whose only cancel call fails stays live with its terms until it fills |
| OrderProtocol.PlanAt | internal/engine/manager.go:67-87 | planned orders are in bijection with quote index and side, bid price on buys, ask price on sells, the quote's size |
| OrderProtocol.NumberedAt | internal/engine/manager.go:80-88 | the tracked map numbers the placed orders consecutively and holds nothing else |
| OrderProtocol.PlaceEachOutcome | internal/engine/manager.go:67-92 | exactly the orders before the first failing placement are placed and tracked, the error is that call's, and every id's liveness at the exchange is determined |
| OrderProtocol.CancelPhase | internal/engine/manager.go:58-61 | after the cancel phase nothing is orphaned, and if it succeeded none of the manager's orders is live |
| OrderProtocol.ReconcileOutcome | internal/engine/manager.go:58-93 | when all cancels succeed and the first k placements do: tracked map = the first k planned orders under fresh ids, each live with those terms unless filled since, nothing else live; without fills live = tracked |
| OrderProtocol.ReconcileBlocked | internal/engine/manager.go:59-118 | when a cancel fails Reconcile reports the first failure, places nothing and forgets nothing; every other cancel is still tried, with its own effect |
| OrderProtocol.CancelAllOutcome | internal/engine/manager.go:96-118 | CancelAll leaves the tracked map as it was, tries every id with its own effect, succeeds iff every cancel does, and then none of the manager's orders is live |
| OrderProtocol.RunKeepsNoOrphans | internal/engine/manager.go:58-118 | over every sequence of Reconcile and CancelAll calls with any failures and fills, each live order of the manager is tracked with the terms that are live |
| OrderProtocol.OpenOrderCountBoundsLive | internal/engine/manager.go:121-125 | in every state of every run OpenOrderCount is an upper bound on the manager's live orders |
| OrderProtocol.RunLeavesOthersAlone | internal/engine/manager.go:58-118 | orders older than the manager stay, with their terms, until they fill, over every run |
| OrderProtocol.CleanReconcile | internal/engine/manager.go:58-118 | after any run, a Reconcile without adapter error tracks exactly the plan of its quotes, whatever fills, and what is live is the plan less the fills since each placement |
| OrderProtocol.HistoryIndependent | internal/engine/manager.go:58-118 | whatever two managers went through, one Reconcile of the same quotes without adapter error leaves both tracking the same orders up to the shift of ids, each live unless filled since its placement; without fills during the placements the live orders agree up to the shift too |
| MockExchange.Adapter.constructor | pkg/exchange/mock/mock.go:57-67 | a new exchange has no orders and no recorded calls |
| MockExchange.Adapter.PlaceLimitOrder | pkg/exchange/mock/mock.go:97-115 | placing is the protocol's Place: on success a fresh id goes live and the call is recorded, on failure neither |
| MockExchange.Adapter.CancelOrder | pkg/exchange/mock/mock.go:118-127 | cancelling is the protocol's Cancel: idempotent on success, recorded only then |
| MockExchange.Adapter.OpenOrderCount | pkg/exchange/mock/mock.go:142-146 | the number of live orders |
| OrderManager.OrderManager.constructor | internal/engine/manager.go:41-49 | a new manager tracks nothing and has no orphans |
| OrderManager.OrderManager.CancelTracked | internal/engine/manager.go:100-118 | the loop tries every tracked id exactly once, in any order and after any failure, keeps the first error, and places nothing; the exchange records exactly the cancels that go through |
| OrderManager.OrderManager.Reconcile | internal/engine/manager.go:58-93 | the nested loops do exactly one protocol step, so every theorem about runs holds of the class |
| OrderManager.OrderManager.CancelAll | internal/engine/manager.go:96-98 | exactly one protocol step of the cancelling kind |
| OrderManager.OrderManager.OpenOrderCount | internal/engine/manager.go:121-125 | returns the tracked count, which bounds the live count |
| OrderManager.StopsHere | internal/engine/manager.go:74-77 | once a placement has failed the rest of the plan is never tried |
| Workers.AllowedIffValidEdge | internal/worker/worker.go:31-35 | the listed edges are all moves to another state except Pause to Slow |
| Workers.Worker.constructor | internal/worker/worker.go:45-47 | a worker starts in Normal |
| Workers.Worker.State | internal/worker/worker.go:50-54 | reads the current state |
| Workers.Worker.Transition | internal/worker/worker.go:58-70 | moves along a valid edge, otherwise fails and stays; only staying and Pause to Slow fail |
| Workers.Worker.CanPlaceOrders | internal/worker/worker.go:73-77 | true exactly in Normal and in Slow |
| Fnv.BucketOf | internal/orchestrator/orchestrator.go:48-55 | the wrapping loop computes 32-bit FNV-1a (section 2 of draft-eastlake-fnv) modulo 16 |
| Fnv.KnownHashes | internal/orchestrator/orchestrator.go:48-55 | the hashes of the empty id, "a" and "fo" are those of 32-bit FNV-1a |
| Fnv.BucketIsNibbleHash | internal/orchestrator/orchestrator.go:48-55 | for every id the shard is a 4-bit hash of low nibbles: start 5, xor, times 3 modulo 16 |
| Fnv.LastNibbleInjective | internal/orchestrator/orchestrator.go:48-55 | after any prefix two last bytes share a shard iff they share their low nibble |
| Fnv.LastNibbleSurjective | internal/orchestrator/orchestrator.go:48-55 | after any prefix every one of the 16 shards is hit by some last byte |
| Sharding.ShardedUnique | internal/orchestrator/orchestrator.go:28-37 | the shards determine the plain map they stand for |
| Sharding.ShardedPut | internal/orchestrator/orchestrator.go:60-76 | inserting into the id's shard inserts into the plain map |
| Sharding.ShardedDelete | internal/orchestrator/orchestrator.go:100-106 | deleting from the id's shard deletes from the plain map |
| Sharding.ShardedClear | internal/orchestrator/orchestrator.go:151-156 | clearing a shard removes exactly the ids that hash to it |
| Orchestrator.Orchestrator.constructor | internal/orchestrator/orchestrator.go:40-46 | an empty registry |
| Orchestrator.Orchestrator.StartBot | internal/orchestrator/orchestrator.go:59-78 | registers a fresh worker in Normal with the adapter that the factory makes from this config; refused iff the id is taken or the factory fails, and then nothing changes |
| Orchestrator.Orchestrator.PauseBot | internal/orchestrator/orchestrator.go:81-87 | pauses this bot only; exact error cases |
| Orchestrator.Orchestrator.ResumeBot | internal/orchestrator/orchestrator.go:90-96 | returns this bot only to Normal, from Slow as well as from Pause; exact error cases |
| Orchestrator.Orchestrator.StopBot | internal/orchestrator/orchestrator.go:99-108 | removes exactly this bot, error iff it is not registered |
| Orchestrator.Orchestrator.BotState | internal/orchestrator/orchestrator.go:111-124 | paused iff the worker is in Pause, throttled iff in Slow, running iff in Normal, error iff the bot is not registered |
| Orchestrator.Orchestrator.Adapter | internal/orchestrator/orchestrator.go:128-134 | the adapter registered under the id, error iff there is none |
| Orchestrator.Orchestrator.ActiveBotIDs | internal/orchestrator/orchestrator.go:137-147 | every registered id exactly once |
| Orchestrator.Orchestrator.StopAll | internal/orchestrator/orchestrator.go:150-158 | empties the registry |
| Orchestrator.Orchestrator.Get | internal/orchestrator/orchestrator.go:160-169 | the lookup of the plain map |
| RegistryRuns.InvAlways | internal/orchestrator/orchestrator.go:28-169 | in every reachable state every id sits in the shard its hash names, handles lead to workers of their id, and worker histories are valid |
| RegistryRuns.HistoriesAreValidPaths | internal/worker/worker.go:31-70 | every worker that ever existed has only moved along valid edges from Normal |
| RegistryRuns.StepRefinesPlainMap | internal/orchestrator/orchestrator.go:59-169 | under any interleaving each locked section acts on the shards as one plain map would |
| RegistryRuns.RunRefinesPlainMap | internal/orchestrator/orchestrator.go:40-169 | in every state of every interleaved run the shards are the plain map that the steps make of an empty one, and lookups read it |
| RegistryRuns.UndisturbedCalls | internal/orchestrator/orchestrator.go:59-108 | made without interference, the steps of starting, stopping and transitioning change the states of the registered bots as the registry class promises |
| RegistryRuns.MoveTouchesOneWorker | internal/worker/worker.go:58-70 | a transition through a handle changes that worker at most and leaves the registry as it is |
| RegistryRuns.RetiredForGood | internal/orchestrator/orchestrator.go:73-108 | a worker that has left the registry never comes back, whatever is started later |
| RegistryRuns.WorkersStay | internal/orchestrator/orchestrator.go:73-76 | workers keep their bot id and their past |
| RegistryRuns.StaleHandleHarmless | internal/orchestrator/orchestrator.go:81-169 | a transition through a handle looked up before the bot was stopped alters no registered worker, also when the id was started again |
| RegistryRuns.NoOrdersWhilePaused | internal/worker/worker.go:58-77 | from a successful pause until the next successful move to Normal the worker may not place orders |
| RegistryRuns.MayPlaceOrdersIff | internal/worker/worker.go:58-77 | in every state of every run a worker may place orders iff it was not successfully paused without a later successful move to Normal |
| RegistryRuns.ActiveBotIDsConsistent | internal/orchestrator/orchestrator.go:137-147 | a scan under concurrent changes has no duplicates, contains every id registered throughout and only ids registered at some moment of it |
| RegistryRuns.ScanInvariant | internal/orchestrator/orchestrator.go:139-145 | the same of every unfinished scan, for the shards it has visited |
| RegistryRuns.SurvivorsStartedLate | internal/orchestrator/orchestrator.go:150-158 | an id still registered when StopAll ends was started during the call, after its own shard was cleared |
| RegistryRuns.SurvivorsIff | internal/orchestrator/orchestrator.go:150-158 | an id is registered when StopAll ends iff it was started during the call, behind the sweep, and neither stopped nor cleared again |
| RegistryRuns.SurvivorReachable | internal/orchestrator/orchestrator.go:150-158 | for any id a concrete valid run in which it survives a StopAll |
| RegistryRuns.ClearInvariant | internal/orchestrator/orchestrator.go:151-157 | the same of every unfinished StopAll, for the shards it has cleared |
| Journal.ReplayNext | internal/api/grpc_server.go:198-209 | replaying a longer log applies its last entry to the replay of the rest |
| Journal.OneEntryPerSuccess | internal/api/grpc_server.go:42-126 | a refused request adds no entry and changes no bot; an accepted one has its effect on its own bot, keeps the state of every other, and adds exactly its own entry if its insert succeeds |
| Journal.StatusOfRequest | internal/api/grpc_server.go:42-126 | exactly when each request is accepted, which status each refusal gets, and what is stored in either case |
| Journal.ReportedAsLastAsked | internal/orchestrator/orchestrator.go:110-124 | over every run a bot is registered iff its last accepted request did not delete it, and reported paused, without leave to place orders, iff that request paused it, running iff it created or resumed it |
| Journal.StaysFaithfulIff | internal/api/grpc_server.go:42-209 | a request keeps the log a faithful journal iff it was refused or its audit insert succeeded |
| Journal.JournalIsFaithful | internal/api/grpc_server.go:42-209 | over any run of requests with audit inserts succeeding, the log replays to exactly the registered bots and their states |
| Journal.FaithfulRunIff | internal/api/grpc_server.go:42-209 | over every run, whichever inserts fail, the log replays to the registry iff for every bot the last accepted request that was logged had the effect of the last accepted one |
| Journal.LostEntryHealed | internal/api/grpc_server.go:98-112 | a concrete run: a pause whose insert fails makes the log unfaithful, and a logged resume makes it faithful again |
| Journal.NeverSlow | internal/api/grpc_server.go:42-126 | over every run of requests no bot is ever in Slow |
| Journal.AuditGrows | internal/api/grpc_server.go:198-209 | the log is append-only over every run |
| Journal.FirstConfigStays | internal/api/grpc_server.go:73-81 | once stored, a config is changed by none of these requests, also across delete and create |
| Journal.StoredIsFirstUpsert | internal/api/grpc_server.go:73-81 | what is stored for an id is the config of the first request that upserted one, even if it failed to start the bot |
| Journal.CreateMatchesIff | internal/api/grpc_server.go:73-85 | after an accepted create the stored config is the one the bot runs on iff none was stored before or the very same |
| Journal.StoredDescribesRunningIff | internal/api/grpc_server.go:42-126 | over every run, a registered bot runs on the config of its last accepted create, and the stored config is that one iff at that create none was stored or the very same |
| Journal.RecreatedRunsUnstoredConfig | internal/api/grpc_server.go:73-85 | a concrete run: create with one config, delete, create with another; the bot runs on the second, the first stays stored |
| Journal.BotsAreConfigured | internal/api/grpc_server.go:73-85 | over every run exactly the registered bots run on a config, and each has a stored one |
| Api.Server.constructor | internal/api/grpc_server.go:36-38 | a new server over any registry, with nothing stored or logged by it yet |
| Api.Server.WriteAudit | internal/api/grpc_server.go:198-209 | appends one entry unless the insert fails, which is ignored |
| Api.Server.CreateBot | internal/api/grpc_server.go:42-96 | validation, upsert, start and audit in that order, with the status of each failure: the journal's step |
| Api.Server.PauseBot | internal/api/grpc_server.go:98-104 | the journal's step for a pause |
| Api.Server.ResumeBot | internal/api/grpc_server.go:106-112 | the journal's step for a resume |
| Api.Server.DeleteBot | internal/api/grpc_server.go:114-126 | the journal's step for a delete |
| Calendar.CivilOf | internal/report/reporter.go:168-170 | every day number has a valid date whose day number it is |
| Calendar.CivilOfDate | internal/report/reporter.go:168-170 | and every valid date is the date of its day number |
| Calendar.Anchors | internal/report/reporter.go:145-149 | day 0 is Thursday, January 1st 1970, and the leap day of 2000 falls on its known Tuesday |
| Calendar.YearLength | internal/report/reporter.go:172-181 | the closed form of January 1st advances by 365 or 366 days, leap years included |
| Calendar.LastOfMonth | internal/report/reporter.go:168-181 | every month of every year ends on its Gregorian last day, February 29 exactly in leap years |
| Calendar.AddDays | internal/report/reporter.go:174-179 | adding days through AddDate is adding days |
| Calendar.PreviousMonth | internal/report/reporter.go:176-177 | a month back is the same day number counted from the first of the previous month |
| Calendar.MonthBackExactIff | internal/report/reporter.go:176-177 | a month back keeps the day of the month and lands in the previous month iff that month is long enough, else runs over by the surplus |
| Calendar.MonthsTile | internal/report/reporter.go:176-177 | a month back from the next first is this first, and no first lies between |
| Calendar.TruncateIsLastMidnight | internal/report/reporter.go:168-170 | truncation yields the last midnight not after the instant |
| Calendar.FiveAfterMidnight | internal/report/reporter.go:141-151 | hour 0 and minute 5 hold exactly in the sixth minute of the day |
| Report.FoldIsSum | internal/report/reporter.go:99-120 | folding group rows, in any order, is the sum over the trades of those sides |
| Report.PipelineIsDirect | internal/report/reporter.go:59-120 | match, group by side and fold, whatever the row order, equals one direct pass over the trades |
| Report.DirectOfPermutation | internal/report/reporter.go:59-120 | the report is the same for every permutation of the history |
| Report.OneMoreTrade | internal/report/reporter.go:61-119 | one more trade changes the report iff it is a FILLED one of this bot in the window; it adds one fill, its quantity, its fee, one bid or ask by side, and quantity less fee to the PnL of asks |
| Report.CountsAdd | internal/report/reporter.go:108-119 | bid and ask counts never exceed the fills, and equal them iff every matched side is BID or ASK |
| Report.PnlIsAskVolumeMinusAskFees | internal/report/reporter.go:115-118 | PnL is ask volume minus ask fees |
| Report.PnlAsDocumentedIff | internal/report/reporter.go:117-118 | the report shows the documented PnL after every trade of a growing history iff every filled ask has price 1 or quantity 0 |
| Report.PnlGap | internal/report/reporter.go:117-118 | for any one report the documented PnL exceeds the shown one by exactly the sum of (price - 1) times quantity over its asks |
| Report.OneReportAsDocumentedIff | internal/report/reporter.go:117-118 | one report shows the documented PnL iff the excesses of its asks cancel; with no negative excess, as with prices from 1 on, iff every ask has price 1 or quantity 0 |
| Report.PnlDiffersFromDocumented | internal/report/reporter.go:117-118 | a concrete ask on which code and comment differ |
| Report.WindowsAdd | internal/report/reporter.go:61-68 | adjacent half-open windows add up |
| Report.DailyReportsTile | internal/report/reporter.go:61-179 | consecutive daily reports add up to the whole span |
| Report.WeeklyConservesDaily | internal/report/reporter.go:174-175 | a weekly report equals the sum of its seven daily reports, in every total |
| Report.MonthStart | internal/report/reporter.go:176-177 | a monthly window has 28 to 31 days and, ending on a 1st, is exactly the month before |
| Report.MonthlyConservesDaily | internal/report/reporter.go:176-177 | a monthly report equals the sum of the daily reports of its days, leap years included |
| Report.MonthlyReportsTile | internal/report/reporter.go:176-177 | monthly reports of consecutive firsts leave no gap and count nothing twice |
| Report.FoldCursor | internal/report/reporter.go:99-120 | the cursor loop, in whatever order the rows come, yields the sum over all matched trades, or fails iff the undecodable row exists |
| Report.Generate | internal/report/reporter.go:55-125 | an error exactly when the database refuses, breaks, or hands out an undecodable row among the sides that occur, else the report asked for, over the window that ends with the day |
| Schedule.Reporter.GenerateAll | internal/report/reporter.go:156-164 | one report per bot; a failing run or insert stores nothing and stops nothing |
| Schedule.Reporter.Schedule | internal/report/reporter.go:130-154 | the loop, over a growing history, stores exactly what the fired ticks call for, daily before weekly before monthly |
| Schedule.DueDays | internal/report/reporter.go:140-151 | daily reports are due every day, weekly ones exactly on Mondays, monthly ones exactly on the 1st |
| Schedule.FiresWhen | internal/report/reporter.go:138-151 | a tick fires a report iff it lies in the sixth minute of a day on which it is due |
| Schedule.TickIsEach | internal/report/reporter.go:138-164 | a tick tries all bots for the daily report, then the weekly, then the monthly, as far as they fire, and stores exactly the reports of the runs that work |
| Schedule.RunAllIsEach | internal/report/reporter.go:156-164 | a run over the bots tries each and stores exactly the reports of those whose own run and insert work, in order |
| Schedule.WorkingBotGetsReport | internal/report/reporter.go:156-164 | a bot whose own run and insert work gets its report, whatever the others did |
| Schedule.DailyEndsAreConsecutive | internal/report/reporter.go:131-143 | ticks a minute apart, any phase, fire the daily report for consecutive days, each once |
| Schedule.EveryFullDayFiresOnce | internal/report/reporter.go:131-143 | every full UTC day covered fires exactly once |
| Schedule.SuccessiveDue | internal/report/reporter.go:140-181 | for each period the window of a due day starts at the due day before it |
| Schedule.EndsAreChained | internal/report/reporter.go:130-154 | the windows of the reports that fire follow each other, and no due day is skipped |
| Schedule.ChainedTotals | internal/report/reporter.go:172-181 | chained windows add up to the span from the first start to the last end |
| Schedule.RunAllStores | internal/report/reporter.go:156-164 | without failures a run stores a report of each bot as often as the bot is listed, and touches no other bot or period |
| Schedule.GrowingHistory | internal/report/reporter.go:130-164 | over a history that grows while the scheduler runs, if every trade is stored before the first tick that reports on its day, the stored reports are those of the final history, whatever fails |
| Schedule.TickStores | internal/report/reporter.go:138-151 | a tick adds a bot's report of a period, as often as the bot is listed, iff the tick fires that period |
| Schedule.StoredReports | internal/report/reporter.go:130-164 | without failures the stored reports of a bot and period are those of the days that fired, in order, each as often as the bot is listed |
| Schedule.StoredReportsPartitionHistory | internal/report/reporter.go:130-181 | over any number of ticks the stored reports of a bot and period add up to all filled trades of the span of their windows, once per listing of the bot; listed once, the windows adjoin |
| Schedule.CountedOnceIff | internal/report/reporter.go:130-181 | the stored reports count that span exactly once iff the bot is listed once or has nothing to count |
| Schedule.DailyReportsCover | internal/report/reporter.go:130-154 | the daily reports cover every trade from the last midnight whose sixth minute is over at the first tick to the last one whose sixth minute is over after the last tick |
| Spread.PricesSymmetric | internal/engine/spread.go:44-47 | bid + ask = 2 mid exactly, also when halving the target rounds |
| Spread.PricesRefusedIff | internal/engine/spread.go:36-42 | for any bounds, which mids and targets are quoted and which error each refusal gets, that of the mid first |
| Spread.PricesOrdered | internal/engine/spread.go:17-48 | under the default bounds exactly the positive mids with a target in bounds are quoted, and 0 < bid < mid < ask |
| Spread.PricesMonotoneInMid | internal/engine/spread.go:36-48 | both prices grow strictly with mid |
| Spread.PricesMonotoneInTarget | internal/engine/spread.go:36-48 | a wider target never narrows the quote, and widens it strictly from two last places on |
| Spread.EffectiveOfPrices | internal/engine/spread.go:36-57 | what EffectiveSpread does on an accepted quote, for every bounds and mid: rejected iff the half-spread is -1 or less, else division by zero or the exact value |
| Spread.RoundTrip | internal/engine/spread.go:36-57 | on mids of at most 16 digits the round trip gives twice the rounded half-spread, or is rejected when that is -2 or less |
| Spread.RoundTripError | internal/engine/spread.go:36-57 | which errs by at most 10^-16, is exact iff half the target has 16 digits (so for 15-digit targets), and attains the bound, away from zero, on odd 16-digit targets |
| Spread.RoundTripAnyMid | internal/engine/spread.go:36-57 | all three outcomes and the error bound without a digit limit on mid |
| Spread.DivisionByZeroIff | internal/engine/spread.go:52-57 | EffectiveSpread divides by zero iff ask > 0 and the prices sum to less than 10^-16 in size |
| Spread.AcceptedQuotePanicsIff | internal/engine/spread.go:36-57 | an accepted quote does so iff its ask is positive and mid is below half of 10^-16, and such mids are accepted |

## Left out

- The Bybit, Gate, Kraken and MEXC adapters and `wsutil`: HTTP, signing and JSON over libraries; only the place/cancel
  contract matters here.
- The MongoDB client, the Decimal128 codec and the repositories: collections are sequences and maps, and sums are exact,
  so the 34-digit limit of Decimal128 is not modelled.
- `cmd/watchdog`, `DrawdownSince`, `cmd/bot`, metrics, gRPC transport, proto conversion and `StreamTelemetry`: thin code
  or I/O.
- `UpdateConfig`: it calls an operation the orchestrator does not have; it would also overwrite stored configs.
- `internal/worker/helpers.go` and the mock's order book, balances and name: nothing here depends on them.
- ClientOIDs, timestamps, error texts and audit payloads: only error kinds and identities are kept.
- The `ActiveSessions` update in `DeleteBot`: its result is ignored and nothing here reads it.
- Real clocks, ticker drift, dropped ticks and context cancellation: the scheduler theorems are about ticks exactly a
  minute apart, and histories that do not change during one tick's reports.
- Wrap-around of the 64-bit `nextID`, closing of the inbound channel and calling an unsubscribe function twice are not
  modelled.
- Locks inside the imperative classes: `TelemetryHub`, `Orchestrator`, `OrderManager` and `Api` run one call at a time;
  interleavings are the subject of the step systems in `Hub` and `RegistryRuns`.
- Scripts of failures and fills are finite; after their end every call succeeds and nothing fills, which covers every
  finite run.
