# Notification delivery, verified

The repository implements one notification service several times. A request names channels and
recipients. The API stores a status row and appends a message to a log; a consumer walks the log,
sends to every recipient of every channel and records PROCESSING and then COMPLETED or FAILED per
channel; webhooks record statuses too; a metrics query counts rows by overall status. This project
models that protocol for the Go, TypeScript, Rust and Java implementations and proves what their
parts guarantee when they run together, with crashes, redelivery, duplicates and updates that read
and write a row in two steps.

## How it is laid out

- `Statuses.dfy`: rows, the aggregation rule, and how each implementation compares status strings.
- `Traces.dfy`: status updates applied one after another; closed form, confluence, duplicates.
- `Metrics.dfy`: counting rows by status; the sums of the metrics loop.
- `Deliveries.dfy`: the updates and sends of one delivery as functions of the send outcomes;
  redelivery, late row creation. `Lifecycle.dfy`: the stages of its row, update by update.
- `StatusService.dfy`, `Workers.dfy`, `Api.dfy`: the services, workers and enqueue operations as
  classes with loops, proved against those functions.
- `SplitUpdates.dfy`: updates as a read and a later write of the whole row, interleaved freely.
- `Protocol.dfy`: the whole system as a state machine. Every action is total, an action that is not
  enabled changes nothing, so a run is any sequence of actions and "reachable" means "after any run".
- `Environment.dfy`: what dying calls and webhooks, bad entries and restarts do to it.
- `DeliveryGuarantees.dfy`, `Intake.dfy`: what holds in every reachable state.
- `Quiescence.dfy`, `Redelivery.dfy`, `Draining.dfy`: what a drained log leaves in the rows, notification
  by notification, which sends stand behind it, and that draining ends.
- `SettlingLimits.dfy`, `LateRows.dfy`: the configurations, webhooks and late creations for which
  settling fails, exactly.
- `Undisturbed.dfy`: the state machine left alone on a message does what the worker loops do; the
  promise to every single recipient.
- `Services.dfy`: the four services by name: their channels, orders, marks and status words, and that the
  machine of each configuration does what that service's own loop does.

A `Config` says which implementation is running: the aggregator, the adapter table, whether a failed
send ends the recipient loop, whether the row or the message comes first, whether a failed creation
is tolerated, and whether an offset may be committed while its message is still in hand. Theorems are
stated over all configurations where they hold for all, and otherwise over the exact part of the
configuration that decides them.

## What the code decides differently from its documentation

- The lifecycle in `notifications-polyglot/README.md` ends in FAILED. No code path writes an overall
  FAILED, so `total_failed` is 0 in every reachable state (`Intake.MetricsOfEveryRun`).
- At-least-once delivery holds for the workers that mark after the work. The Rust consumer leaves
  marking to auto-commit; a message in hand can then be skipped by a crash.
  `DeliveryGuarantees.AtLeastOnceConfigurations` says exactly which configurations keep the promise,
  `DeliveryGuarantees.AtLeastOnceIff` which crashes break it, and
  `DeliveryGuarantees.MarkOnReceiptLosesMessages` gives such a run. There, for the fail-fast Java
  worker, "attempted" means up to and including the first failed recipient of a channel. Taken
  strictly, for every recipient, Java does not keep it either: `Undisturbed.EveryoneConfigurations`.
- Java's case-insensitive comparison is not Go's: it also reads a dotless or dotted I as an i.
  `Statuses.JavaAggregatesUpperCasedIff` states exactly when Java still aggregates like the strict
  comparison of upper-cased statuses; Go always does.
- Go (after a failed creation) and Rust (always) may produce a message that has no row yet.
  `Intake.RowsPrecedeMessagesIff` shows that only the TypeScript and Java order rules this out, and
  `Deliveries.LateCreationIff` when a late row still ends terminal.
- An accepted notification need not finish. Where the row comes first (TypeScript, Java, Go), a failed
  send or a call that dies leaves an orphan: a row at ENQUEUED for good, whose id TypeScript and Java
  return to the caller all the same (`Intake.OrphanRun`, `Intake.RowsHaveMessagesIff`). Once the log is
  drained, a row that no webhook reported on is finished exactly when its message reached the log
  (`Quiescence.FinishedIffLogged`). In no configuration does every row finish
  (`SettlingLimits.SomeRowStaysAsCreated`).
- Nor does every logged notification. Those that have a row are finished exactly where rows come before
  messages and offsets are marked after the work (TypeScript, Java, Go), and all logged ones exactly
  where, besides, a failed creation stops the call (TypeScript, Java):
  `SettlingLimits.SettlingConfigurations`, `SettlingLimits.FinishingConfigurations`. For Rust,
  `LateRows.LateRowFinishedIff` says when a row created behind its message is finished.
- Updates are not transactional in Rust and Go. Every row still matches its own channel map
  (`SplitUpdates.InterleavingsStayConsistent`), but of two overlapping updates the first writer's is
  erased (`SplitUpdates.OverlapErasesFirstWriter`), and a slow webhook rewinds a row
  (`SettlingLimits.SlowWebhookRewindsRow`). `SettlingLimits.WebhookLeavesFinishedIff` says exactly when
  the notification is finished after its write, and `SettlingLimits.SlowWebhookLeavesProcessing` gives,
  for every configuration, a drained run that leaves PROCESSING. The settling theorems ask for webhooks
  that report terminal statuses in one step, of the notification they speak of and of no other; the
  code does not see to that, and TypeScript's webhook too is a read and a later save.
- A request without channels is never touched by the worker and stays ENQUEUED
  (`Quiescence.EmptyRequestsStayEnqueued`).
- Terminal channel statuses are not final: a redelivery may turn COMPLETED into FAILED without any
  webhook (`Undisturbed.TerminalIsNotFinal`), and so may a webhook.
- The overall status need not move forward even in one clean delivery: with repeated channels it may be
  COMPLETED early or leave PARTIAL_FAILURE again. `Lifecycles.LifecycleIff` says for exactly which
  requests it does neither, whatever the sends return.

## Assumptions

Notification ids are fresh: accepting an id already in use does nothing. Send outcomes are arbitrary
and given by an oracle or by the action. A status update does not fail by itself; it may be cut
between its read and its write by a crash, and finding no row ends it. A restart resumes from any
offset marked so far and marks on from there. The log is one partition with one consumer at a time.
Every consumer passes over an entry it cannot parse. For Java that is an assumption about the
deployment: `notifications-polyglot/java/src/main/resources/application.yml:24` configures a plain
JsonDeserializer without an error-handling wrapper, and what its container then does with such a
record is the library's doing.

## Model

| member | source | states |
|---|---|---|
| Statuses.GoAggregatesUpperCased | notifications-polyglot/golang/service/notification_status_service.go:53-71 | the Go flags equal the strict ones on the upper-cased channel map, for every map |
| Statuses.JavaAggregatesUpperCasedIff | notifications-polyglot/java/src/main/java/com/example/notification/service/NotificationStatusService.java:71-83 | the Java matches equal the strict ones on the upper-cased map if and only if no status that only Java reads as FAILED stands without an ASCII FAILED |
| Statuses.JavaAndGoDisagree | notifications-polyglot/java/src/main/java/com/example/notification/service/NotificationStatusService.java:74-75 | a status with a dotless I on which Java and Go aggregate differently |
| Statuses.AggregateMeaning | notifications-polyglot/rust/src/status_service.rs:71-81 | which channel statuses give COMPLETED, PARTIAL_FAILURE and PROCESSING: any statuses and any map for the exact comparisons, plain statuses for the case-insensitive ones |
| Statuses.AggregateReads | notifications-polyglot/golang/service/notification_status_service.go:53-71 | the aggregate in the words as stored: which values each service reads as "COMPLETED" and "FAILED", character by character, and which of three words it shows for them |
| Statuses.SingleChannel | notifications-polyglot/typescript/src/notification/notification-status.service.ts:45-64 | what an update of the only channel makes of the overall status, word by word; "completed" in small letters counts in Go and Java only |
| Statuses.StatusWords | notifications-polyglot/rust/src/status_service.rs:71-81 | the six words as stored, all distinct |
| Traces.ReplayIsSettled | notifications-polyglot/typescript/src/notification/notification-status.service.ts:33-67 | replaying any trace of updates equals the last write per channel over the old map plus one aggregation |
| Traces.Confluence | notifications-polyglot/typescript/src/notification/notification-status.service.ts:33-67 | traces with the same last write per id and channel leave the same rows |
| Traces.ReorderingIsInvisible | notifications-polyglot/typescript/src/notification/notification-status.service.ts:33-67 | traces with the same order per id and channel leave the same rows |
| Traces.DuplicateIsInvisible | notifications-polyglot/rust/src/api.rs:99-113 | a callback repeating the latest status of its channel can be dropped from any trace |
| Traces.DialectsAgree | notifications-polyglot/golang/service/notification_status_service.go:44-75 | on plain upper-case statuses every implementation leaves the same rows |
| StatusServices.AggregateByFlags | notifications-polyglot/typescript/src/notification/notification-status.service.ts:45-64 | the flag loop computes the aggregate in any iteration order |
| StatusServices.StatusService.CreateInitialStatus | notifications-polyglot/golang/service/notification_status_service.go:18-33 | the new row: "ENQUEUED", exactly the requested channels, each "PENDING"; an existing key is an error for an insert and overwritten by a save |
| StatusServices.StatusService.UpdateChannelStatus | notifications-polyglot/typescript/src/notification/notification-status.service.ts:33-67 | one channel set, the row re-aggregated, nothing done for a missing row |
| StatusServices.StatusService.GetMetrics | notifications-polyglot/typescript/src/notification/notification-status.service.ts:69-99 | the loop over the groups counts all rows, the completed and the failed ones, and lists exactly the non-empty buckets with their sizes |
| Metrics.GroupByExists | notifications-polyglot/golang/service/notification_status_service.go:84-92 | every table has a grouped result as the metrics loop expects it |
| Metrics.SumOfIsSize | notifications-polyglot/golang/service/notification_status_service.go:95-103 | the case-insensitive sums equal counting the rows whose status reads as the word |
| Metrics.UpdateMovesOneUnit | notifications-polyglot/golang/service/notification_status_service.go:44-75 | an update moves exactly one unit between two status buckets |
| Deliveries.FailFastStopsAtFirstFailure | notifications-polyglot/java/src/main/java/com/example/notification/worker/NotificationWorker.java:34-41 | the fail-fast recipient loop attempts the prefix up to and including the first failure |
| Deliveries.FailFastSendsPrefix | notifications-polyglot/java/src/main/java/com/example/notification/worker/NotificationWorker.java:30-42 | per channel the fail-fast sends are a prefix of the keep-going ones, equal exactly when nothing before the last recipient fails |
| Deliveries.KeepGoingSendsInOrder | notifications-polyglot/golang/worker/worker.go:72-98 | a keep-going delivery sends to all recipients of every supported entry, in list order, and nothing else |
| Deliveries.DeliveryDecidesChannels | notifications-polyglot/typescript/src/worker/notification.worker.ts:26-51 | after one delivery a requested channel is COMPLETED iff its last occurrence has an adapter and all its sends succeeded, FAILED otherwise; other channels keep their status |
| Deliveries.RedeliveryIsIdempotent | notifications-polyglot/golang/worker/worker.go:72-98 | any deliveries cut anywhere, before a complete one, change nothing about the rows it leaves |
| Deliveries.LateCreationIff | notifications-polyglot/rust/src/api.rs:55-60 | when the row appears after some updates were dropped, all channels end terminal iff it appears before the final update of each |
| Lifecycles.After | notifications-polyglot/rust/src/worker.rs:53-79 | the row after k updates of a first delivery has exactly the requested channels and is ENQUEUED or the aggregate |
| Lifecycles.ChannelsMoveForward | notifications-polyglot/golang/worker/worker.go:72-98 | with distinct channels each one goes PENDING, PROCESSING, outcome |
| Lifecycles.LifecycleIff | notifications-polyglot/golang/service/notification_status_service.go:50-71 | whatever the sends return, COMPLETED appears at the last update only and PARTIAL_FAILURE stays, iff before every repeated entry another channel already lacked an adapter or its own cannot fail, and a repeated last entry leaves some channel without an adapter |
| Lifecycles.OverallStatusLifecycle | notifications-polyglot/golang/service/notification_status_service.go:50-71 | so in particular with distinct channels |
| Lifecycles.RepeatedChannelUndoesFailure | notifications-polyglot/golang/worker/worker.go:72-98 | an instance of the other side: with one channel listed twice PARTIAL_FAILURE turns into COMPLETED |
| Workers.Worker.GetAdapter | notifications-polyglot/golang/adapter/adapter.go:64-71 | the first adapter that supports the channel, and none exactly when no adapter does |
| Services.ServiceChannels | notifications-polyglot/golang/adapter/adapter.go:57-71 | the channels with an adapter: email, sms and push exactly; in Java the same up to case, with the non-ASCII spellings it accepts |
| Workers.Worker.HandleGo | notifications-polyglot/golang/worker/worker.go:72-98 | the loop performs exactly the specified updates and keep-going sends |
| Workers.Worker.ConsumeClaim | notifications-polyglot/golang/worker/worker.go:58-105 | the claim loop skips and marks bad messages, processes the others, and marks each when its own updates and sends are all made |
| Workers.Worker.HandleTypeScript | notifications-polyglot/typescript/src/worker/notification.worker.ts:26-51 | the nested try/catch loop performs the same updates and keep-going sends |
| Workers.Worker.HandleRust | notifications-polyglot/rust/src/worker.rs:53-79 | the loop over an optional adapter performs the same updates and keep-going sends |
| Workers.Worker.HandleJava | notifications-polyglot/java/src/main/java/com/example/notification/worker/NotificationWorker.java:30-42 | the fail-fast loop performs the same updates as the others and the fail-fast sends |
| SplitUpdates.InterleavingsStayConsistent | notifications-polyglot/rust/src/status_service.rs:55-97 | under any interleaving of reads and writes a row is untouched or equals the aggregate of its map, keeps its creation channels, and holds only values written to that channel |
| SplitUpdates.WriteIsAtomicIff | notifications-polyglot/rust/src/status_service.rs:61-94 | a write equals an atomic update iff its snapshot agrees with the row on the other channels |
| SplitUpdates.RunIsAtomicIff | notifications-polyglot/golang/service/notification_status_service.go:44-75 | all along a run the rows are those of replaying its writes atomically iff no write used a snapshot that differed from the row on another channel |
| SplitUpdates.ExclusiveRunsAreAtomic | notifications-polyglot/golang/service/notification_status_service.go:44-75 | that is so in particular when updaters of a row do not overlap, and then every snapshot in flight is current |
| SplitUpdates.OverlapErasesFirstWriter | notifications-polyglot/rust/src/status_service.rs:61-94 | of two overlapping updates only the last writer's remains; exactly when that loses something |
| Api.NotificationApi.EnqueueRowFirst | notifications-polyglot/typescript/src/notification/notification.service.ts:21-33 | row, then message; a failed creation produces nothing; a lost message leaves the row and returns the id |
| Api.NotificationApi.EnqueueGo | notifications-polyglot/golang/service/notification.go:41-69 | row, then message even after a failed creation; a failed send leaves the row behind |
| Api.NotificationApi.SendNotificationRust | notifications-polyglot/rust/src/api.rs:51-72 | message, then row; with the broker down neither; a failed creation is tolerated |
| Api.EnqueueIsProtocolRun | notifications-polyglot/golang/service/notification.go:41-69 | for a fresh id the protocol's separate steps, back to back, are the enqueue operation |
| Services.ServiceOrders | notifications-polyglot/rust/src/api.rs:51-72 | rows precede their messages in TypeScript and Java exactly; every row has its message or its call in flight in Rust exactly |
| Services.ServicePromises | notifications-polyglot/rust/src/worker.rs:17-23 | every service but Rust attempts a message before moving past it; exactly TypeScript and Go attempt every recipient |
| Services.ServiceStatuses | notifications-polyglot/java/src/main/java/com/example/notification/service/NotificationStatusService.java:71-83 | in every reachable state of a service each row is as created or shows what that service reads off the row's own channels |
| Services.ServiceReports | notifications-polyglot/rust/src/api.rs:99-113 | after a webhook's report the row shows what the service reads off the updated channels |
| Services.ServiceReportsOnOneChannel | notifications-polyglot/golang/service/notification_status_service.go:53-71 | the same on a one-channel row, word by word |
| Services.HandleLikeTheMachine | notifications-polyglot/java/src/main/java/com/example/notification/worker/NotificationWorker.java:23-45 | service by service, the machine left alone on a message ends in the rows its own loop leaves, journals its updates and records exactly its sends |
| Environment.DeadCallsStayDead | notifications-polyglot/golang/service/notification.go:41-69 | a call that died never produces its message or creates its row afterwards |
| Environment.BadEntriesArePassed | notifications-polyglot/golang/worker/worker.go:62-69 | bytes that do not parse go into the log and cost an idle consumer one step and nothing else |
| Environment.DeadWebhooksNeverWrite | notifications-polyglot/rust/src/status_service.rs:61-94 | an updater that died between its read and its write changes nothing until it reads again |
| Environment.RestartsResume | notifications-polyglot/rust/src/worker.rs:17-23 | the offsets a restart may resume from, exactly: up to the message in hand, and under auto-commit the one behind it from any channel and phase |
| Environment.OnlyRustSkips | notifications-polyglot/rust/src/worker.rs:17-23 | of the services only Rust may skip the message in hand |
| Protocol.SystemRefinesSplitUpdates | notifications-polyglot/rust/src/status_service.rs:55-97 | seen from the table every system run is an interleaving of split updates, so every row stays consistent |
| DeliveryGuarantees.AtLeastOnceConfigurations | notifications-polyglot/rust/src/worker.rs:17-23 | everything before the consumer's position was attempted, by a fail-fast worker up to its first failure, in every reachable state iff offsets are marked after the work or no channel has an adapter |
| Undisturbed.EveryoneConfigurations | notifications-polyglot/java/src/main/java/com/example/notification/worker/NotificationWorker.java:30-42 | every recipient of every supported channel before the consumer's position was attempted in every reachable state iff, besides marking after the work, a failed send does not end the recipient loop, or no channel has an adapter |
| DeliveryGuarantees.AtLeastOnceIff | notifications-polyglot/golang/worker/worker.go:61-103 | run by run, the promise is lost at exactly the crash that resumes past the message in hand while sends of it are missing, and at no other action |
| DeliveryGuarantees.MarkAfterWorkIsAtLeastOnce | notifications-polyglot/golang/worker/worker.go:61-103 | marking after the work, every entry any session passed is unparseable or fully attempted, after any crashes |
| DeliveryGuarantees.KeepGoingReachesEveryone | notifications-polyglot/golang/worker/worker.go:85-91 | for a keep-going worker that means every recipient of every supported channel |
| DeliveryGuarantees.MarkOnReceiptLosesMessages | notifications-polyglot/rust/src/worker.rs:17-23 | with auto-commit, whichever of row and message comes first, a run drains the log without sending anything |
| DeliveryGuarantees.RustLosesMessages | notifications-polyglot/rust/src/worker.rs:29-50 | such a run of the Rust service on a plain email request |
| DeliveryGuarantees.StatusesAreTruthful | notifications-polyglot/rust/src/worker.rs:53-79 | in every reachable state a channel shown COMPLETED or FAILED was so reported by a webhook or is backed by recorded sends |
| Intake.RowsPrecedeMessages | notifications-polyglot/typescript/src/notification/notification.service.ts:25-30 | every logged message has a row with all its channels, and its id is unique in the log |
| Intake.RowsPrecedeMessagesIff | notifications-polyglot/golang/service/notification.go:45-50 | that holds in all reachable states exactly in the row-first configurations that give up on a failed creation |
| Intake.OrphanRun | notifications-polyglot/typescript/src/notification/notification.service.ts:25-32 | a row created and its message never produced: drained, no call in flight, ENQUEUED |
| Intake.RowsHaveMessagesIff | notifications-polyglot/java/src/main/java/com/example/notification/service/NotificationService.java:24-27 | every row has its message logged or its call in flight, in all reachable states, exactly where the message is produced first |
| Intake.MetricsOfEveryRun | notifications-polyglot/golang/service/notification_status_service.go:92-110 | in every reachable state the four statuses partition the rows, their number is the number of creations, and no failure is counted |
| Intake.WriteMovesOneUnit | notifications-polyglot/rust/src/status_service.rs:83-94 | a split write moves one unit between buckets, even from a stale snapshot |
| Quiescence.OrderlyRunsAreCalm | notifications-polyglot/golang/service/notification.go:41-69 | creating rows first and marking after the work supply all a notification needs to settle beyond its own webhooks, whatever webhooks do to others and whether or not creations fail |
| Quiescence.SuccessfulCreationsSuffice | notifications-polyglot/golang/service/notification.go:45-50 | where failed creations are tolerated, rows still precede all messages as long as no creation fails |
| Quiescence.DrainedNotificationsAreSettled | notifications-polyglot/typescript/src/worker/notification.worker.ts:26-51 | once drained, after any crashes, a logged message with channels is COMPLETED or PARTIAL_FAILURE with all channels terminal iff it has a row |
| Quiescence.FinishedIffLogged | notifications-polyglot/typescript/src/notification/notification.service.ts:25-32 | once drained, a row with channels that no webhook reported on is finished iff its message reached the log, and otherwise is as created |
| Quiescence.OrphansStayEnqueued | notifications-polyglot/java/src/main/java/com/example/notification/service/NotificationService.java:24-27 | in every reachable state a row without a logged message and without webhooks is as created |
| Redelivery.CrashesAreInvisible | notifications-polyglot/golang/worker/worker.go:61-103 | once drained, the updates about a notification no webhook reported on are those of some cut deliveries and one complete delivery, every send behind them is on record with its outcome, and the row is what the complete delivery alone leaves |
| Redelivery.RowFirstCrashesAreInvisible | notifications-polyglot/golang/worker/worker.go:61-103 | in row-first configurations that mark after the work, whatever webhooks do to other notifications |
| Quiescence.EmptyRequestsStayEnqueued | notifications-polyglot/golang/worker/worker.go:72-98 | a request without channels keeps its created row in every reachable state |
| SettlingLimits.SettlingConfigurations | notifications-polyglot/rust/src/api.rs:51-72 | every drained run leaves exactly the logged notifications with a row finished, as far as their own webhooks are quiet, iff rows come before messages and offsets are marked after the work; and likewise exactly the rows with a logged message, as far as they have no webhooks |
| SettlingLimits.FinishingConfigurations | notifications-polyglot/golang/service/notification.go:45-50 | it leaves all logged notifications with channels finished iff, besides, a failed creation stops the call |
| SettlingLimits.SettlingServices | notifications-polyglot/typescript/src/notification/notification.service.ts:21-33 | of the services, all but Rust settle what is logged and has a row, and only TypeScript and Java settle everything logged |
| SettlingLimits.SomeRowStaysAsCreated | notifications-polyglot/rust/src/api.rs:51-72 | in every configuration some run without crash or webhook drains the log, has no call in flight, and leaves a row as created |
| LateRows.LateRowFinishedIff | notifications-polyglot/rust/src/api.rs:51-60 | a row created when its message is already logged, with no webhook on it and no crash skipping it, is finished once drained iff the consumer went back to the message since or no channel's last update had been read when the row was created |
| SettlingLimits.SlowWebhookRewindsRow | notifications-polyglot/rust/src/api.rs:99-113 | a webhook between read and write puts every other channel back to its value at the read, whatever happened meanwhile |
| SettlingLimits.WebhookLeavesFinishedIff | notifications-polyglot/rust/src/api.rs:99-113 | after a webhook's write, however late and with whatever status, the notification is finished iff that status and every other channel at the read were terminal |
| SettlingLimits.AtomicWebhookLeavesFinishedIff | notifications-polyglot/rust/src/api.rs:99-113 | the same for a webhook that reads and writes in one step |
| SettlingLimits.SlowWebhookLeavesProcessing | notifications-polyglot/rust/src/status_service.rs:61-94 | in every configuration a slow webhook can leave a drained notification at PROCESSING |
| Draining.DrainingTerminates | notifications-polyglot/golang/worker/worker.go:61-103 | while nothing arrives, a consumer that crashes k times takes at most the remaining work plus k times the work of the whole log, whatever webhooks and API calls come in between |
| Draining.EnoughWorkDrains | notifications-polyglot/golang/worker/worker.go:61-103 | while nothing arrives, that many consumer steps see the log drained, and drained at the end if there was no crash |
| Draining.NotificationsSettle | notifications-polyglot/typescript/src/worker/notification.worker.ts:17-54 | with rows first and marking after the work, any continuation without arrivals in which the consumer takes a bounded number of steps, with crashes and webhooks in it, sees the log drained with every logged notification that has a row and quiet webhooks finished, and every row without webhooks finished iff logged |
| Draining.RowFirstServicesSettle | notifications-polyglot/java/src/main/java/com/example/notification/worker/NotificationWorker.java:23-45 | so do the TypeScript, Java and Go services with their own aggregation, adapters and order: all logged notifications in TypeScript and Java, and in Go if no creation fails; and every row shows what that service reads off its channels |
| Undisturbed.UndisturbedDelivery | notifications-polyglot/rust/src/worker.rs:53-79 | left alone on a message, the state machine of any configuration performs exactly the updates and sends of a worker loop of its shape and marks it |
| Undisturbed.TerminalIsNotFinal | notifications-polyglot/golang/worker/worker.go:61-103 | without webhooks, a crash after the work and a redelivery can turn COMPLETED into FAILED |

## Left out

- UpdateChannelStatus: a failing database call inside an update is not modelled; an update may only find no row or be cut by a crash between its read and its write.
- Offset commits inside the Kafka client library: that auto-commit may commit the offset of a message still in hand is taken as a configuration of the protocol.
- Column-level saves: JPA dirty checking and TypeORM diffing may write less than the whole row; statements about lost updates concern Rust and Go.
- Rebalancing: two consumers working on the same message at once, and several partitions, are not modelled.
- The Kotlin service and worker: the same control flow as Java.
- Case folding is modelled as far as it can reach an ASCII letter, which is all the comparisons with status words and adapter names need; other Unicode folding is not.
- JavaScript objects as maps: property names with a special meaning are not modelled; a channel map is a plain map.
- Parsed requests that lack their channel or recipient list: a message either parses into both lists or is a bad message.
- HTTP binding, response wrappers, logging, timestamps, id generation, metadata and the message text's contents: no state worth proving; webhooks appear as arbitrary update steps.
- Adapter bodies: replaced by send outcomes.
- Integer width of counters: mathematical integers.
- The production architecture described in the documentation (priority queues, circuit breakers, backoff, dead letters, quotas) is not implemented in the repository.
