# Subscribe saga, notifier and release scanner

A Dafny 4.11 model of the GitHub release notifier and proofs about it. Check
everything with `dafny verify dfyconfig.toml`.

**The Subscribe saga as an interleaved protocol.** `Protocol.dfy` models the
subscription service (HTTP handlers, reply consumer, timeout sweeper, scanner)
and the notifier (AMQP command handlers, gRPC handlers, the dedupe set they
share) as threads with program counters. One step is one SQL statement, one
broker call, one mail-provider call, one RPC hop or one locked dedupe operation.
Any call may fail without its effect or after it; deliveries may be handed back
at any time; either process may crash; dedupe entries may be lost; any number of
handlers, sweeps and scans may overlap. `Store.dfy` holds the tables; `cascade`
is the foreign key of migration 3, true in the shipped schema and false in the
store the unit tests use, and every theorem is for both. `Invariants.dfy` gives
the inductive invariant, `Statements.dfy` and `Steps.dfy` prove that every step
keeps it, `Runs.dfy`, `Survival.dfy`, `SweepProgress.dfy`, `SweepCondition.dfy`,
`EmailBound.dfy`, `DeliveryBound.dfy`, `SecondMail.dfy` and `OptIn.dfy` draw the
theorems, and
`Witnesses.dfy` reaches the states that show which stronger claims are false, with
runs (`CalmRuns.dfy`) that never overlap two sweeps, as one server does not.

**Handlers in the source's own form.** `Orchestrator.dfy` (orchestrator, sweeper,
reply consumer), `Notifier.dfy` (command handler with its reply retry, gRPC
handler), `Dedupe.dfy` (the bounded expiring cache), `Scanner.dfy`,
`ReleaseCache.dfy`, `Topology.dfy` and `Backoff.dfy` are classes and methods with
the loops the source has, each proved against a specification function whose
properties are then proved. The orchestrator's handlers, the whole sweep, each
delivery of a reply or a command and the gRPC handler are also shown to be runs of
the protocol (`HandlerRuns.dfy` and the ends of `Orchestrator.dfy` and
`Notifier.dfy`). `UserRuns.dfy` states outright what Subscribe, Confirm, Unsubscribe
and the scanner's publish loop leave behind when they are handled alone, and that
tokens and repository names stay unique under every interleaving.

The History part of a protocol state records what happened and is read by no
step, except that inserted identifiers and tokens must be new. Identifiers and
tokens are drawn in the insert step; the source draws them just before, which no
other thread can observe. The confirm URL is the configured base URL followed by
the token, so a payload carries the token.

## Where the code and its documentation differ

- docs/application-architecture.md:197-199 says the notifier's dedupe guarantees
  that a sync retry sends no duplicate once the async path has delivered. The
  command handler marks after its send returns, and a gRPC claim in between sends
  as well: `Witnesses.TwoMailsAreReachable`. `DeliveryBound.DeliveriesAreBounded`
  gives the bound that holds in every run, and
  `SecondMail.NoSecondMailIffCoveredOrQuiet` the exact condition: no second e-mail
  can follow if and only if there is an entry for the saga that is no gRPC handler's
  claim, or no call for the saga is under way or still to be made.
- internal/subscription/saga/orchestrator.go:142-147 describes a compensation that
  ends with a compensated row. With the shipped foreign key the delete removes the
  saga row too and the mark matches nothing, so no row is ever compensated
  (`Runs.SagaHistory`, `Orchestration.CompensationConverges`).
- A gRPC call answered OK because another call holds the claim lets a saga
  complete before anything is sent, and the other call may then fail:
  `Witnesses.CompletedWithoutMailIsReachable`, where the first sweep's client gave
  up waiting and the next sweep called again. An unmailed saga is answered OK if and
  only if another handler holds its claim (`EmailBound.AnsweredUnsentIffHeld`), so
  "completed means e-mailed" holds when no two gRPC handlers of one saga overlap
  (`Runs.CompletedWasMailed`).
- A completed subscription can be deleted by a HandleFailed that read the saga
  before the completion: `Witnesses.CompletedButArmedIsReachable`. The exact
  condition is `Survival.CompletedSurvivesIffUnarmed`.
- internal/notifier/adapter/rabbitmq/consumer.go:74 speaks of about 3.1 s of
  waiting; four waits from 200 ms come to 3.0 s (`Notifier.ShippedWindow`).

## Model

| member | source | states |
|---|---|---|
| Steps.StepKeeps | internal/subscription/saga/orchestrator.go:72-177 | every step of every participant, with any fault, keeps the invariant over tables, queues, threads and dedupe set, and undoes no resolution, mail, ack or terminal state |
| Runs.RunKeeps | cmd/server/main.go:98-109 | the same over runs of any length and interleaving |
| Runs.NoPhantomSubscription | internal/subscription/adapter/postgres/subscription.go:58-75 | in every reachable state each stored subscription has exactly one saga row, pending or completed, and a completed one was mailed or answered OK because another call held the claim |
| Runs.SuppressionNeedsTwoCalls | internal/notifier/adapter/grpcsrv/server.go:47-51 | under any loss and restart, an OK without any delivery happens only while another gRPC handler holds the saga's claim |
| EmailBound.AnsweredUnsentIffHeld | internal/notifier/adapter/grpcsrv/server.go:47-51 | while no entry is lost, whatever is redelivered: a call for an unmailed saga is answered OK without sending if and only if another handler holds the claim |
| Runs.CompletedWasMailed | internal/subscription/saga/orchestrator.go:84-140 | if no two gRPC handlers of one saga overlap, a completed saga's e-mail was delivered with the stored recipient, repository and token |
| Runs.NoPhantomUnlessMailed | internal/subscription/saga/orchestrator.go:72-177 | under the same condition every stored subscription has exactly one saga row, which is pending, so the sweeper sees it, or completed and mailed |
| Runs.SagaHistory | internal/subscription/adapter/postgres/saga.go:69-97 | at most one terminal transition per saga, terminal states never change, removed rows stay removed, no row is timed out, and with the cascade every stored row is pending or completed |
| Runs.CompensatedIsGone | internal/subscription/saga/orchestrator.go:162-171 | the subscription of a compensated saga is not stored, then or in any later state |
| Runs.ResolutionIsPermanent | internal/subscription/adapter/rabbitmq/replies_consumer.go:180-209 | once a handler returned nil for a saga, or an understood reply about it was acked, it has no pending row, for good |
| Runs.NoFalseSuppression | internal/notifier/adapter/grpcsrv/dedupe.go:59-86 | every dedupe entry belongs to a saga whose e-mail was delivered or whose claim is still held, under evictions, losses, releases and restarts |
| Runs.MessagesAreConserved | internal/notifier/adapter/rabbitmq/consumer.go:277-352 | in every reachable state every command and every reply ever routed is ready, unsettled under one delivery, acked or dead-lettered, in exactly one of these, and acked and dead-lettered ones stay so |
| Runs.WhatACrashLoses | internal/notifier/adapter/grpcsrv/dedupe.go:15-26 | a crash of either process ends exactly its own threads, a notifier's empties the dedupe set, tables and queues stay, and an open delivery that is handed back is ready again |
| Runs.BothPathsSendTheSame | internal/subscription/saga/orchestrator.go:118-124 | the AMQP and gRPC paths send the same recipient, repository and token for a saga: the stored ones |
| Queues.QueueRunConserves | internal/notifier/adapter/rabbitmq/consumer.go:324-345 | any queue, the deliveries queue of release messages included: after any routings, deliveries, settlements and requeues every routed message is in exactly one place |
| Queues.SettleConserves | internal/notifier/adapter/rabbitmq/consumer.go:277-352 | settling an open delivery moves its message, alone, to the place the verdict names |
| Survival.CompletedSurvivesIffUnarmed | internal/subscription/saga/orchestrator.go:149-164 | a completed saga's subscription survives every continuation without Unsubscribe if and only if no HandleFailed that read it as pending still has its delete ahead |
| Survival.SuccessPreservesSubscription | internal/subscription/saga/orchestrator.go:148-164 | when nothing comes between a HandleFailed's read and its delete, a completed saga's subscription is removed by Unsubscribe only |
| Witnesses.CompletedButArmedIsReachable | internal/subscription/saga/orchestrator.go:149-164 | the interleaving in which a late delete removes a completed subscription |
| Witnesses.CompletedWithoutMailIsReachable | internal/notifier/adapter/grpcsrv/server.go:47-51 | two sweeps one after the other, the first of whose calls outlives its client, complete a saga before anything was sent |
| Witnesses.TwoMailsAreReachable | internal/notifier/adapter/rabbitmq/consumer.go:286-303 | two e-mails for one saga with one sweep, no redelivery, no lost entry and no restart of the notifier |
| SweepProgress.SweepStepsDescend | internal/subscription/saga/timeout_sweeper.go:87-101 | every step of a sweep lowers a bound on the steps it has left, whatever its calls answer |
| SweepProgress.SweepNeverBlocked | internal/subscription/saga/timeout_sweeper.go:87-101 | a sweep always has a step to take, whatever the other threads do |
| SweepProgress.OthersLeaveSweepsAlone | internal/subscription/saga/timeout_sweeper.go:75-102 | no other step but a crash moves a sweeping thread |
| SweepProgress.SweepResolves | internal/subscription/saga/timeout_sweeper.go:75-102 | a sweep that ended uncancelled, with its fetch and compensations successful, has left no old saga of those present at its fetch pending, with any RPC failures and any other threads |
| SweepProgress.OutstandingShrinks | internal/subscription/saga/timeout_sweeper.go:87-101 | the old sagas still pending are never more than the ones left to visit |
| SweepCondition.ReachableThresholds | internal/subscription/saga/timeout_sweeper.go:76 | the threshold of every running sweep is in the past |
| SweepCondition.SweepClears | internal/subscription/adapter/postgres/saga.go:99-121 | if no Subscribe was stalled across the threshold before its insert, a sweep that ends cleanly leaves no saga at all that started before the threshold pending |
| SweepCondition.StalledInsertEscapes | internal/subscription/app/subscribe.go:102-106 | from any reachable state with such a Subscribe, a run that ends the sweep cleanly with an old saga pending |
| SweepCondition.SweepClearsIffNoneStalled | internal/subscription/saga/timeout_sweeper.go:75-102 | a sweep that has fetched leaves nothing old pending however it ends cleanly, if and only if no Subscribe is stalled so |
| DeliveryBound.DeliveriesAreBounded | internal/notifier/adapter/grpcsrv/server.go:42-66 | in every run whatsoever, counting every delivered e-mail: by command at most one and one for each redelivery of the saga's command; by gRPC call at most one and one for each loss of its entry, each notifier restart and each call that delivered but was told it failed |
| EmailBound.CallsAreBounded | internal/notifier/adapter/grpcsrv/dedupe.go:59-76 | while no entry is lost, whatever is redelivered: one claim holder per saga, and at most one gRPC send that returned nil, only if the saga was claimed before any mark |
| EmailBound.EmailsAreBounded | internal/notifier/adapter/grpcsrv/server.go:47-65 | without redelivery, lost entries and restarts: one claim holder per saga, at most one nil-returning send by each path, two only if the saga was claimed before any mark |
| SecondMail.NoSecondMailIffCoveredOrQuiet | internal/notifier/adapter/rabbitmq/consumer.go:286-303 | once the command handler has sent a saga's e-mail and the gRPC path has not, whatever became of the saga: no continuation sends a second one, if and only if there is an entry that no gRPC handler holds as its claim, or no call for it is under way or still to be made |
| SecondMail.NoSecondMailIffCovered | internal/notifier/adapter/rabbitmq/consumer.go:298-303 | in particular, for a saga that is pending and stored: if and only if it has an entry that no gRPC handler holds as its claim |
| OptIn.ReleasesGoToConfirmedAddresses | internal/subscription/app/confirm.go:26-37 | if users present only tokens they were mailed, every release message goes to an address to which that subscription's confirm token was mailed |
| OptIn.AnnouncedWereConfirmed | internal/release/app/scanner.go:147-157 | and every release message goes to a recipient some fetch of the run returned, stored and confirmed at that address at that fetch, its token mailed there before |
| Orchestration.Database.Get | internal/subscription/adapter/postgres/saga.go:50-67 | the row, not found, or an error |
| Orchestration.Database.GetByID | internal/subscription/adapter/postgres/subscription.go:80-94 | the recipient, repository name and token of the joined row if both rows exist, otherwise not found; an error only if the query fails |
| Store.DeleteRemoves | internal/subscription/adapter/postgres/subscription.go:163-172 | the delete removes that subscription and, if the key cascades, exactly its sagas, otherwise none; the rest is unchanged; a second delete is not found |
| Store.MarkFlipsOnce | internal/subscription/adapter/postgres/saga.go:69-84 | a terminal update changes the state of one row, only from pending, and nothing else; any further one changes nothing and is not found |
| Store.ConfirmSets | internal/subscription/adapter/postgres/subscription.go:152-161 | the update confirms that row and leaves it otherwise unchanged; every other row, saga and repository is unchanged; without the row nothing changes |
| Store.StuckAreOldAndPending | internal/subscription/adapter/postgres/saga.go:99-121 | the sweeper's query returns a saga if and only if it is pending and started strictly before the threshold |
| UserRuns.SubscribeIsARun | internal/subscription/app/subscribe.go:88-119 | a Subscribe whose statements work, handled alone: a stored pair inserts and publishes nothing; a new one leaves an unconfirmed row with its tokens, its pending saga started now, and the command for that token and address; after a failed publish the row is withdrawn or its saga left pending |
| UserRuns.CheckFails | internal/subscription/app/subscribe.go:88-99 | an error from the check leaves no subscription, saga or command |
| UserRuns.CreateFails | internal/subscription/adapter/postgres/subscription.go:52-75 | an error from the insert leaves both rows or neither, and publishes nothing |
| UserRuns.SubscribeKeepsPairsUnique | internal/subscription/app/subscribe.go:93-99 | Subscribes handled one at a time never store an address and repository twice |
| UserRuns.ConfirmIsARun | internal/subscription/app/confirm.go:26-37 | Confirm with a stored token confirms its row exactly if the update reaches the table, and changes nothing else |
| UserRuns.UnsubscribeIsARun | internal/subscription/app/unsubscribe.go:26-37 | Unsubscribe with a stored token removes its row exactly if the delete reaches the table, with its sagas if the key cascades, and nothing else |
| UserRuns.ListedAreTheConfirmed | internal/subscription/adapter/postgres/subscription.go:140-150 | a fetch returns a recipient if and only if its row is stored for that repository, at that address, confirmed |
| UserRuns.AnnounceIsARun | internal/release/app/scanner.go:147-157 | the publish loop announces to every fetched recipient, then ends |
| UserRuns.ConfirmedUserIsTold | internal/subscription/app/confirm.go:26-37 | after Confirm, any fetch for the repository returns the user, and the loop over it announces to the stored address |
| UserRuns.OneTokenOneSubscription | internal/subscription/adapter/postgres/subscription.go:96-126 | in every reachable state a confirm link matches one subscription only, an unsubscribe link one only, and no token is both |
| UserRuns.OneRowPerRepository | internal/release/adapter/postgres/repo.go:22-40 | in every reachable state a repository name has one row, and a get-or-create for it returns that row |
| Orchestration.Orchestrator.Publish | internal/subscription/saga/orchestrator.go:72-82 | compensates inline when the publish fails, and still reports the failure |
| Orchestration.Orchestrator.HandleSent | internal/subscription/saga/orchestrator.go:87-97 | completes a pending saga; nil when there is none |
| Orchestration.Orchestrator.AttemptSyncRetry | internal/subscription/saga/orchestrator.go:108-140 | new tables and result for every combination of faults |
| Orchestration.Orchestrator.HandleFailed | internal/subscription/saga/orchestrator.go:148-177 | new tables and result for every combination of faults |
| Orchestration.Orchestrator.Sweep | internal/subscription/saga/timeout_sweeper.go:87-101 | the loop visits the listed sagas in order, retry first, compensation after a failed retry, until cancelled; what that decides is `Orchestration.SweepDecides`, and `HandlerRuns.SweepIsARun` shows it is what the protocol does |
| Orchestration.SweepDecides | internal/subscription/saga/timeout_sweeper.go:87-101 | a listed pending saga that is reached ends completed with its subscription as it was if its read, load, call and update work, and only otherwise is compensated; one the sweep is cancelled before keeps both its rows; the other visits make no difference |
| Orchestration.RepliesConsumer.Handle | internal/subscription/adapter/rabbitmq/replies_consumer.go:180-215 | each delivery is settled exactly once: dead-lettered exactly if malformed or unknown, acked exactly if the handler returned nil, requeued otherwise; a success reply changes no subscription and completes its pending saga, an acked failure reply for a pending saga has removed its subscription |
| Orchestration.AckedReplyResolves | internal/subscription/adapter/rabbitmq/replies_consumer.go:180-209 | an acked reply leaves its saga without a pending row; no reply makes a saga pending or changes a terminal row |
| Orchestration.CompensationConverges | internal/subscription/saga/orchestrator.go:142-177 | after any attempts with faults at read, delete or mark, one attempt that returns nil, as a fault-free one does, leaves the subscription gone and the saga compensated, or gone where the key cascades |
| Orchestration.PublishLeavesNoOrphan | internal/subscription/saga/orchestrator.go:65-82 | a failed publish is reported, and the saga is then still pending for the sweeper or its compensation is over; a publish that works changes no row |
| Orchestration.CompensationIsLocal | internal/subscription/saga/orchestrator.go:162-171 | compensation touches no other subscription and no other subscription's saga |
| Orchestration.SweepAloneClears | internal/subscription/saga/timeout_sweeper.go:75-102 | a sweep nobody interferes with, with working compensations, leaves nothing stuck and makes nothing pending |
| Orchestration.HandleFailedIsARun | internal/subscription/saga/orchestrator.go:148-177 | the method taken alone is a run of the protocol's thread with the same tables and result |
| HandlerRuns.PublishIsARun | internal/subscription/saga/orchestrator.go:72-82 | Publish with its inline compensation, taken alone, is a run with the same tables |
| HandlerRuns.HandleSentIsARun | internal/subscription/saga/orchestrator.go:87-97 | HandleSent taken alone is a run with the same tables and verdict |
| HandlerRuns.AttemptSyncRetryIsARun | internal/subscription/saga/orchestrator.go:108-140 | the sync retry, with the gRPC call it makes, is a run with the same tables and result, for all faults |
| HandlerRuns.CallIsARun | internal/notifier/adapter/grpcsrv/server.go:42-66 | one gRPC call taken alone is a run with the same answer, e-mail and dedupe entries |
| HandlerRuns.ServerIsARun | internal/notifier/adapter/grpcsrv/server.go:42-66 | the gRPC method on the cache's entries is the protocol's call on their keys: losing what it evicts and handling the call gives the same answer, e-mail and keys |
| HandlerRuns.FetchIsARun | internal/subscription/saga/timeout_sweeper.go:75-84 | a sweep's start is a run that lists exactly the pending sagas older than the timeout, or ends if its query fails |
| HandlerRuns.SweepIsARun | internal/subscription/saga/timeout_sweeper.go:87-101 | for every list, with any faults and wherever it is cancelled, the loop taken alone is a run of the sweeper's thread and its calls that leaves the tables `Sweep` leaves |
| HandlerRuns.HandleIsARun | internal/subscription/adapter/rabbitmq/replies_consumer.go:180-215 | a reply taken, handled and settled alone is a run with the tables and the settlement `Handle` gives |
| HandlerRuns.CommandIsARun | internal/notifier/adapter/rabbitmq/consumer.go:277-325 | a command taken, handled and settled alone: an unreadable one is dead-lettered and does nothing else; any other is acked, mailed and marked as its send ended |
| DedupeCache.Dedupe.Mark | internal/notifier/adapter/grpcsrv/dedupe.go:46-50 | inserts with the evictions the capacity calls for |
| DedupeCache.Dedupe.TryClaim | internal/notifier/adapter/grpcsrv/dedupe.go:59-67 | refuses exactly when a live entry is there, otherwise inserts |
| DedupeCache.Dedupe.Release | internal/notifier/adapter/grpcsrv/dedupe.go:72-76 | removes that entry only |
| DedupeCache.Dedupe.Seen | internal/notifier/adapter/grpcsrv/dedupe.go:90-102 | true exactly for a live entry; an expired one is removed |
| DedupeCache.Dedupe.EvictExpiredLocked | internal/notifier/adapter/grpcsrv/dedupe.go:104-111 | keeps exactly the unexpired entries |
| DedupeCache.Dedupe.EvictOldestLocked | internal/notifier/adapter/grpcsrv/dedupe.go:113-127 | removes one entry no other is older than |
| DedupeCache.NeverOverfull | internal/notifier/adapter/grpcsrv/dedupe.go:78-86 | over any run the cache holds at most `max` entries (one, if `max` is below one) |
| DedupeCache.NothingSeenThatIsNotThere | internal/notifier/adapter/grpcsrv/dedupe.go:59-102 | nothing is reported seen, and no claim refused, that an unbounded set fed with the same marks, granted claims and releases would not report |
| DedupeCache.AnswersAreExact | internal/notifier/adapter/grpcsrv/dedupe.go:46-127 | while every insert is harmless and the clock does not run back, every answer is the one an unbounded set alone gives |
| DedupeCache.RoomIsEnough | internal/notifier/adapter/grpcsrv/dedupe.go:78-86 | in particular while fewer than `max` live entries precede each insert |
| DedupeCache.InsertIsExactIffHarmless | internal/notifier/adapter/grpcsrv/dedupe.go:78-127 | whichever entry an insert evicts, no later lookup can tell the cache from the unbounded set, if and only if there is room or every oldest entry is the inserted saga's own or expires by its stamp |
| DedupeCache.OutlivingRun | internal/notifier/adapter/grpcsrv/dedupe.go:78-86 | after a harmful insert: a run of a one-entry cache that reports a saga as seen |
| DedupeCache.OutlivingAlone | internal/notifier/adapter/grpcsrv/dedupe.go:90-102 | which the unbounded set alone, over the same operations, does not report |
| DedupeCache.EvictionHorizon | internal/notifier/adapter/grpcsrv/dedupe.go:78-127 | with an advancing clock a live entry is evicted only after at least `max - 1` other sagas were inserted later than it |
| DedupeCache.KeysAreASetWithLosses | internal/notifier/adapter/grpcsrv/dedupe.go:46-127 | every operation acts on the keys as the protocol's dedupe set does after some entries are lost |
| Notifier.Consumer.Dispatch | internal/notifier/adapter/rabbitmq/consumer.go:277-352 | a decoded release is mailed once and then acked, or dead-lettered if the send failed; a decoded command is mailed first and acked last; an undecodable or unknown delivery is dead-lettered and nothing else; the calls in between, in order, and the mark left in the cache |
| Notifier.Consumer.PublishReplyWithRetry | internal/notifier/adapter/rabbitmq/consumer.go:358-381 | stops at the first success, at cancellation or at the end of the budget, with the waits between |
| Notifier.SettledOnceAndLast | internal/notifier/adapter/rabbitmq/consumer.go:277-352 | every delivery is settled exactly once, as the last call, and never requeued |
| Notifier.MarkedBeforeReplies | internal/notifier/adapter/rabbitmq/consumer.go:286-323 | one send, first; marked exactly if it returned nil, before any reply; every reply reports that outcome |
| Notifier.CommandIsAnswered | internal/notifier/adapter/rabbitmq/consumer.go:286-323 | every decoded command publishes its reply at least once and as often as it attempts to, then acks |
| Notifier.RepliesWait | internal/notifier/adapter/rabbitmq/consumer.go:358-381 | for any first wait b, k attempts are k publishes and wait b * (2^(k-1) - 1) in total |
| Notifier.ShippedWindow | internal/notifier/adapter/rabbitmq/consumer.go:71-76 | the shipped waits are at most 3.0 s, and exactly that if and only if all five attempts are made |
| Notifier.RepliesAreARun | internal/notifier/adapter/rabbitmq/consumer.go:358-381 | the attempts, taken alone, are steps of the protocol that publish once for each attempt that took effect |
| Notifier.DispatchIsARun | internal/notifier/adapter/rabbitmq/consumer.go:277-325 | one command handled alone is a run of the protocol with the same mail, mark, replies and ack |
| Notifier.Server.SendConfirmation | internal/notifier/adapter/grpcsrv/server.go:42-66 | OK exactly if a live entry is there or the send returned nil; one e-mail exactly if there is no live entry; after a claim the entry is there if and only if the send returned nil |
| Notifier.NextCall | internal/notifier/adapter/grpcsrv/server.go:43-60 | after a call that sent, the next one sends nothing exactly within the time to live; after a failed one it is free to send |
| Notifier.MarkStopsCall | internal/notifier/adapter/rabbitmq/consumer.go:298-303 | after a mark, a call for that saga within the time to live sends nothing |
| Backoff.ReconnectDelayClosedForm | internal/notifier/adapter/rabbitmq/publisher.go:168-174 | the k-th delay is min(500 ms * 2^k, 30 s), for every k |
| Backoff.ReconnectDelayIsCapped | internal/subscription/adapter/rabbitmq/replies_consumer.go:141-147 | it is the cap exactly from the sixth failed dial on |
| Backoff.Reconnect | internal/notifier/adapter/rabbitmq/publisher.go:141-164 | waits those delays in full, one for each failed dial, until a dial connects or the process is told to stop, before a dial or in a wait |
| Topology.WordsRoundTrip | internal/notifier/adapter/rabbitmq/topology.go:14-26 | joining undoes splitting for every key; splitting undoes joining for every word sequence but the single empty word |
| Topology.WhatBindingsMatch | internal/notifier/adapter/rabbitmq/topology.go:18-28 | the keys each of the three bindings matches, both directions |
| Topology.NoCrossDelivery | internal/notifier/adapter/rabbitmq/topology.go:43-46 | with the declared bindings every key whatsoever reaches at most one queue |
| Topology.ReleaseReachesDeliveries | internal/notifier/adapter/rabbitmq/topology.go:17-19 | a release message reaches the deliveries queue only |
| Topology.CommandReachesCommands | internal/notifier/adapter/rabbitmq/topology.go:22-24 | a command reaches the commands queue only |
| Topology.SentReachesEvents | internal/notifier/adapter/rabbitmq/topology.go:27-29 | a success reply reaches the events queue only |
| Topology.FailedReachesEvents | internal/notifier/adapter/rabbitmq/topology.go:27-30 | a failure reply reaches the events queue only |
| Topology.RejectedReachesDeadLetters | internal/notifier/adapter/rabbitmq/topology.go:67-96 | a rejected message reaches the dead letters only, whatever its key |
| Topology.RejectedIsKept | internal/notifier/adapter/rabbitmq/topology.go:103-113 | once declared, a message any business queue rejects reaches the dead letters, whatever its key and whatever else the broker holds |
| Topology.Declare | internal/notifier/adapter/rabbitmq/topology.go:53-117 | sets up the whole layout or reports an error with nothing foreign bound; succeeds on any broker that holds nothing contrary; declaring again succeeds and changes nothing |
| Scanner.Scanner.Scan | internal/release/app/scanner.go:86-129 | the calls and the table after one scan, for all answers and faults |
| Scanner.Scanner.ProcessRepo | internal/release/app/scanner.go:131-169 | baseline, nothing, or list, announce to each, then store |
| Scanner.CrashIsACutRound | internal/release/app/scanner.go:86-169 | stopping after any number of calls is a crash inside one of the rounds |
| Scanner.ScansJoin | internal/release/app/scanner.go:68-84 | successive scans are one sequence of rounds |
| Announcements.TagsAnnounced | internal/release/app/scanner.go:131-169 | over any number of scans with working database calls, announced tags are the observed ones after the stored one, repeats removed, first dropped; the stored tag is the last of them |
| Announcements.NewTagsAnnounced | internal/release/app/scanner.go:132-137 | from no stored tag: observed tags without consecutive repeats, the first, the baseline, dropped |
| Announcements.EachSubscriberOnce | internal/release/app/scanner.go:147-165 | the announcements made are, in order and each once, those owed to the fetched subscribers of each announced tag |
| Announcements.TurnAnnounces | internal/release/app/scanner.go:131-169 | a turn that finds a release other than the stored one announces it to each subscriber the query returned, in order and once; every other turn announces nothing |
| CrashSafety.UpdatesFollowAnnouncements | internal/release/app/scanner.go:97-169 | with crashes and failures anywhere, a tag is stored only as a baseline or right after it was announced to everybody fetched |
| CrashSafety.StoredTagsWereAnnounced | internal/release/adapter/postgres/repo.go:66-72 | so a changed stored tag was a baseline or was announced to everybody fetched |
| CrashSafety.StopLeavesTheRest | internal/release/app/scanner.go:97-118 | after a rate limit or cancellation no later repository is called for or changed |
| CrashSafety.EveryRepositoryGetsATurn | internal/release/app/scanner.go:97-125 | no other answer stops a scan |
| ReleaseCache.CachedReleaseFetcher.GetLatestRelease | internal/release/adapter/github/cached_release_fetcher.go:26-51 | the answer, whether the inner fetcher was asked, and the key after the call; other keys untouched |
| ReleaseCache.KeysAreDistinct | internal/release/adapter/github/cached_release_fetcher.go:27 | two repository names share a cache key only if they are equal |
| ReleaseCache.CachedAnswersAreFresh | internal/release/adapter/github/cached_release_fetcher.go:29-38 | every cached answer is one the inner fetcher gave earlier, stored less than the time to live ago |
| ReleaseCache.WhatIsCached | internal/release/adapter/github/cached_release_fetcher.go:29-51 | after a miss on an absent key, a later call is answered from the cache if and only if a release or its absence was found and stored and is still there and in time, and then with that answer; an error never is |
| ReleaseCache.CacheStutters | internal/release/adapter/github/cached_release_fetcher.go:26-51 | if Redis misses only on absent or expired keys, the answers seen are the inner ones in order, with repeats |
| ReleaseCache.HarmlessIffUpToDate | internal/release/adapter/github/cached_release_fetcher.go:40-50 | after an orderly history no cached answer to a next call, at the same time or later, brings anything old back, if and only if the call before it left no other release stored than the one it found |
| ReleaseCache.CachingChangesNoAnnouncement | internal/release/app/scanner.go:108-169 | if every call is such, the announced tags are those computed from the inner answers alone |
| ReleaseCache.PunctualCachingChangesNothing | internal/release/app/scanner.go:108-169 | in particular if Redis misses only on absent or expired keys, whatever its writes do |
| ReleaseCache.OutageBringsBackTheOld | internal/release/adapter/github/cached_release_fetcher.go:29-50 | without that condition scans announce an old release again that the inner answers alone would not have had announced |

## Left out

- Runs.NoPhantomUnlessMailed: assumes that no two gRPC handlers of one saga overlap, because without it the statement is false (`Witnesses.CompletedWithoutMailIsReachable`); what holds always is `Runs.NoPhantomSubscription`.
- SweepCondition.SweepClears: assumes no Subscribe stalled past the threshold between drawing its start time and its insert; `SweepCondition.SweepClearsIffNoneStalled` shows the condition exact.
- EmailBound.EmailsAreBounded: counts sends whose provider call returned nil, in runs without redelivery, lost entries and restarts; all deliveries in all runs are bounded by `DeliveryBound.DeliveriesAreBounded`.
- Runs.MessagesAreConserved: the protocol's state has the command and reply queues; the deliveries queue, which carries release messages past the saga, is covered by `Queues.QueueRunConserves` and its handler by `Notifier.Consumer.Dispatch`.
- Dialling, channels, supervision of goroutines and graceful shutdown: only "a call may fail, a delivery may be handed back, a process may crash" is kept; a closed session is a failed publish.
- A nil marker in the command handler (internal/notifier/adapter/rabbitmq/consumer.go:301), used where the gRPC path is not wired.
- The mail provider's HTTP calls, templates and the GitHub clients: each is an outcome.
- HTTP handlers, middleware, metrics, logging, configuration and status mappings: no logic the properties depend on.
- Field validation of Subscribe and the repository check before it: they only refuse requests earlier than any effect.
- JSON: decoding is assumed to undo encoding, and no encoded release to be the sentinel string; malformed bodies are deliveries without content.
- UserRuns.SubscribeKeepsPairsUnique: only for Subscribes handled one at a time, because the shipped schema does not keep concurrent ones from storing a pair twice.
- `MarkTimedOut` has no caller; its state is kept only to prove it unreachable (`Runs.SagaHistory`).
- The columns `last_error` and `completed_at`, which no decision reads.
- Only one scanner process is modelled; a failed query for repositories is a scan of an empty list, and how an announcement's publish ends is not recorded because the scanner only logs it.
- In the scanner's own model the subscribers a query returns are an input; that they are the rows confirmed at that moment is part of `Protocol.dfy`.
- The dedupe map's iteration order: any of several equally old entries may be evicted.
