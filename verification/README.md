# Notification pipeline: a verified model

The repository is a notification pipeline. A producer asks for a notification; the request and an outbox row are
written in one transaction; publishers copy outbox rows to a log; a consumer hands each logged event to fanout, which
turns the requested audience and channels into delivery rows; workers claim, send and finalize those rows; users page
through what reached them and failed rows can be replayed. Everything is small atomic transactions that any number of
processes interleave, and any process may die between two of them.

The model has two layers.

- **State machines over values.** `Creation`, `Outbox`, `Consumer`, `Fanout`, `Deliveries` and `Replays` each have a
  `State`, a `Step` per committed transaction (or per effect on the log), `Next`, and `Run` over any sequence of
  steps. A crashed process is one whose later steps never come; a stale one is a process whose steps come late.
  `uuid4` is a value the step carries that was never used before, SKIP LOCKED is an arbitrary set of rows the claim
  passes over, a unique index is a guard on the insert. `Pipeline` composes them into one store; `Guarantees`,
  `Progress`, `OverLimits` and `LostEvents` are about its runs. Some states keep a record that no column holds (events
  of a row, births, finalizations, fanouts, which outbox row is which replay): it is there to state what happened, and
  no step reads it.
- **The repository's own loops and objects.** `DeliveryWorkers`, `OutboxPublishers`, `ConsumerWorkers`,
  `CreationServices`, `FanoutServices`, `RetryServices`, `Quotas` and `Backoff` are classes with the source's fields and
  loops. Their methods are proved to be runs of the machines: the store ends where some run takes it, and the counters
  and answers they return mean what happened in that run. Between two transactions of a method other processes commit
  whatever they like; `Others`, `Meanwhile` and `Arrivals` stand for that, and callers know nothing but their contracts.

`Losses` and `OutboxLeases` say more of the consumer and of the outbox; `Paging`, `UnreadWalks`, `Backlog`,
`OutboxBacklog`, `Envelopes`, `Cursors`, `Idempotency`, `Audience` and `Windows` hold the queries, codecs and
arithmetic. `Ordering` says what `ORDER BY ... LIMIT` means. SHA-256 and the JSON codec are parameters, of which only
injectivity or a round trip is assumed; `Idempotency.SomeHashIsInjective` and `Cursors.SomeCodecParses` show that
there are functions that meet this (`Texts` writes every JSON value as a text that determines it).

## Main results

- *No lost notification* (`Guarantees.NoLostNotification`): over every run of the whole pipeline, once a request's event
  says published and the consumer has committed the log to its end, everyone the requested audience meant when it was
  fanned out has a delivery row on every requested channel. The one exception is an event whose every entry in the log
  the consumer, after a cycle that raised, polled past while it was open; in a run that polls on only where the event is
  dealt with or comes again (`Pipeline.Mindful`) there is none.
- *What is lost, exactly* (`LostEvents.CanStillBeProcessedIff`): in every reachable state an event can still be processed
  if and only if it has been, or an entry with it lies at or beyond the committed offset, or its outbox row is still to
  be published, or somebody who claimed it has not sent it yet.
- *No stuck request* (`Progress.CanAlwaysDeliver`): from every reachable state, while fanouts fit the limits, a request
  whose event is not lost in this sense can still be fanned out and delivered to everyone on every channel; only
  delivery rows that had already failed for good stay so, and what was not fanned out yet is fanned out with the
  directory as it is. `Progress.CanAlwaysFinish` says the consumer can always get to the end of the log, whatever is in
  it.
- *Replay conservation* (`Replays.ReplaysConserved`, and of the real outbox rows `Guarantees.ReplayEventIsExact`,
  `Guarantees.MoveIsAnnounced`, `Guarantees.ReplaysAddUp`): every replay event lists exactly the rows its own update
  moved, every move is announced, and the audited counts add up.
- *Leased rows* (`DeliveryRuns`): attempt logs numbered 1..n, absorbing terminal states, fencing tokens that finalize at
  most once, leases that do not overlap, at most max_attempts - 1 replays; and what is not bounded: claims.
- *Polls see their claims through* (`OutboxPublishers.OutboxPublisher.PublishDueEvents`,
  `DeliveryWorkers.DeliveryWorker.ProcessDueDeliveries`): among whatever others commit, every claim of a batch is sent
  and finalized as its broker or adapter answered, or was lost to a newer token; none is left holding its row.
- *Creation, fanout, paging, outbox, quotas, codecs*: one winner, exact product, every row once, log safety, exact
  admission, round trips. The table lists them.

What the transactions, queries and answers of all this are is said a second time on the columns, sets and fields
themselves, without the functions that define them: the members whose names end in `Means` or `Says`, and
`Deliveries.BatchIsFront`, `Outbox.BatchIsFront`, `Fanout.FanReaches`, `Fanout.FanInserts`, `Paging.PageRows` and
`Envelopes.AcceptedIffFaultless`.

## What turned out not to hold

- The runtime keeps its consumer after a cycle that raised (`src/backend/runtime.py:67-78`), and the consumer's position
  has already moved past the message, so the next commit passes it. Whatever processes do next, that can lose an event
  for good if and only if the message in hand is not dealt with and no copy of its event, such as a resend leaves, is
  still to be polled: `LostEvents.CarryOnIsSafeForGoodIff`, and of the log alone `OverLimits.CarryOnLosesNothingIff` and
  `Losses.CarryOnLosesNothingIff`. It can leave an open offset behind the committed one if and only if the message is
  not dealt with and the very next one does not announce the same event: `Consumer.CarryOnSafeIff`,
  `OverLimits.CarryOnSafeIff`. `Consumer.HandlerFailureLosesMessage` is the smallest loss, `Losses.ResendIsRecovered`
  the smallest run in which the two conditions differ.
- So a request whose fanout exceeds a limit can be lost: `OverLimits.OverLimitLost` gives, for every request and every
  site it does not fit, a run that ends with its event published, the log committed to its end, and no delivery row. Where
  every failed cycle restarts instead, such an event is never passed, nor anything behind it
  (`OverLimits.OverLimitBlocks`).
- Before 1970 `int(timestamp)` rounds up, and an instant may be counted in the window after its own:
  `Windows.WindowContains` and `Quotas.RetryReachesNextWindow` give the exact condition,
  `Windows.LastMicrosecondBefore1970` and `Quotas.WaitsLongerThanAWindow` an input.
- An outbox row that ended `failed_terminal` may still be in the log (`Outbox.TerminalMayBeInLog`). Whatever became of a
  row, it is in the log exactly if some first send of a claim of it reached the broker (`Outbox.InLogIff`,
  `Outbox.TerminalInLogIff`).
- A walk over the unread list misses rows (`UnreadWalks.ReadBetweenIsMissed`): a row listed at the first request exactly
  if it had been read when the page was asked for whose turn it was (`UnreadWalks.MissedIffRead`). Nothing else is
  missed (`Paging.PagesMissNothing`).
- The hardening design (`docs/superpowers/specs/2026-06-27-notification-center-hardening-design.md:113-131`) names the
  envelope's field `version` and acknowledges `notification.replay_requested` without fanout; the code writes
  `schema_version` (`src/workers/outbox/publisher.py:118`) and sends every valid message to fanout
  (`src/workers/notifications/consumer.py:81-93`), and so does the model.

## Model

| member | source | states |
|---|---|---|
| Guarantees.NoLostNotification | src/workers/notifications/consumer.py:66-93 | over every run every request has its outbox row; if that row is published and the log committed to its end, the event is processed and everyone the audience meant has a delivery on every requested channel, unless every log entry with the event was polled past while open, which a mindful run never does |
| Guarantees.OneRequestedEvent | src/backend/services/notification_service.py:102-106 | requests and `notification.requested` outbox rows correspond one to one, in every reachable state |
| Guarantees.AnsweredMeansAnnounced | src/backend/services/notification_service.py:75-140 | a caller that was given an id was given one that exists and has its outbox row |
| Guarantees.PublishedReachesConsumer | src/workers/outbox/publisher.py:125-173 | a published row's event is in the log in a form the consumer decodes |
| Guarantees.OnlyForeignIsDeadLettered | src/workers/notifications/consumer.py:72-77 | nothing a publisher sent is ever dead-lettered |
| Guarantees.CommittedIsSettled | src/workers/notifications/consumer.py:81-93 | over every run each log entry below the committed offset is dead-lettered or its event processed, unless this very entry was polled past while open; in careful runs even then |
| Guarantees.LoggedIsProcessed | src/workers/notifications/consumer.py:66-93 | with the log committed to its end, each event in it is processed, or every entry with it was polled past while open; in mindful runs it is processed |
| Guarantees.ProcessedIsFannedOut | src/workers/notifications/consumer.py:91-92 | a processed event's fanout has committed, and its deliveries still exist |
| Guarantees.DeliveriesAreRequested | src/backend/services/notification_fanout_service.py:64-86 | each delivery is for an existing request, one of its recipients and a channel it asked for |
| Guarantees.ReplayEventIsExact | src/backend/services/retry_service.py:126-185 | each `notification.replay_requested` outbox row belongs to one replay, lists, each once, exactly the rows that replay moved, all of its own notification, and one queued audit row counts them |
| Guarantees.MoveIsAnnounced | src/backend/services/retry_service.py:137-185 | each delivery row a replay moved is named by an outbox row of that replay |
| Guarantees.ReplaysAddUp | src/backend/services/retry_service.py:126-185 | in the whole pipeline the audited counts add up to the moves of delivery rows |
| Pipeline.StepKeepsInv | src/workers/notifications/requested.py:17-21 | each transaction of any process, and whatever follows a failed cycle, keeps the component invariants, what ties them together, and the replay books |
| Pipeline.RequestWrites | src/backend/services/notification_service.py:87-106 | the insert of a request writes the request, one pending outbox row that names it and its sender, and what is to be fanned out, and nothing else |
| Pipeline.OnlyMissedInsert | src/backend/services/notification_service.py:75-133 | only a caller whose lookup found nothing inserts, and if the identity is taken by then nothing is written |
| Pipeline.RetryMovesRows | src/backend/services/retry_service.py:126-185 | in the whole store a retry moves exactly the given rows that are failed_retryable |
| Pipeline.RetryAnnounces | src/backend/services/retry_service.py:155-210 | and adds one pending outbox row that lists them, leaving requests and the consumer alone |
| Pipeline.RetryIsAudited | src/backend/services/retry_service.py:155-185 | and one audit row that counts them |
| Pipeline.IdleRetryMeans | src/backend/services/retry_service.py:137-185 | with nothing left to move only an audit row is written |
| Pipeline.CarefullyReachable | src/backend/runtime.py:67-78 | as long as no failed cycle polls past an open message, the consumer keeps every offset below the committed one settled, whatever the other processes do |
| Pipeline.MindfullyReachable | src/backend/runtime.py:67-78 | as long as failed cycles poll past an open message only when a copy of its event is to come, each event the consumer has passed is processed, in hand, or still to be polled |
| Pipeline.EveryOffset | src/workers/notifications/consumer.py:59-101 | over every run what the consumer has taken is dealt with, in hand, or was polled past while open |
| Pipeline.ConsumerSteps | src/workers/notifications/consumer.py:59-101 | to the consumer, each step of the pipeline is at most one step of its own protocol |
| Progress.CanAlwaysFinish | src/workers/notifications/consumer.py:66-93 | from every reachable state the whole log can be committed, if fanouts fit the limits, and every event with an entry not yet passed is then processed; in mindful runs that is everything published |
| Progress.CanAlwaysDeliver | src/workers/delivery/worker.py:49-84 | from every reachable state a request whose event may still arrive can be fanned out and delivered to everyone on every channel, save rows that had already failed for good |
| Progress.MindfulMayArrive | src/workers/outbox/publisher.py:125-173 | in mindful runs an event may arrive unless its row failed for good without having reached the log |
| LostEvents.CanStillBeProcessedIff | src/workers/notifications/consumer.py:59-101 | an event can still be processed, by anything any process may do, exactly if it was, or an entry with it is not passed yet, or its row is still to be published, or a claim of it is still to be sent |
| LostEvents.GoneForGood | src/workers/notifications/consumer.py:59-101 | an event of which none of this holds stays unprocessed in every continuation |
| LostEvents.CarryOnIsSafeForGoodIff | src/backend/runtime.py:67-78 | polling on after a failed cycle can make an event that reached the log unprocessable, or leave a bad message out of the dead-letter topic, exactly if the message in hand is not dealt with and no copy of its event is still to be polled |
| OverLimits.OverLimitBlocks | src/backend/services/notification_fanout_service.py:42-50 | if failed cycles restart, an event whose fanout exceeds a limit is never committed past, nor processed, while directory and limits stay |
| OverLimits.OverLimitLost | src/backend/runtime.py:67-78 | for every request that exceeds the limits, a run in which the consumer polls on after the failed fanout and commits the log to its end: published, never processed, no delivery row |
| OverLimits.CarryOnSafeIff | src/backend/runtime.py:67-78 | in the whole pipeline polling on after a failed cycle never leaves an open offset below the committed one exactly if the message in hand was dealt with or the next announces the same event; restarting never does |
| OverLimits.CarryOnLosesNothingIff | src/backend/runtime.py:67-78 | in the whole pipeline polling on after a failed cycle never leaves a message committed past, open, and with no copy to come, exactly if the one in hand was dealt with or a copy of its event is still to be polled; restarting never does |
| DeliveryRuns.StepKeepsInv | src/backend/db/models/notifications.py:147-150 | claims, finalizations, replays, inserts and reads keep lease, log, bounds, event order and token uniqueness of every row |
| DeliveryRuns.FinalizeMeans | src/workers/delivery/worker.py:156-219 | the holder's finalization, column by column: delivered exactly for an accepted send, failed_retryable exactly for a retryable failure with attempts left and due after the delay, otherwise failed for good; provider id and error as the outcome gives them, one more attempt row, the lease given back |
| DeliveryRuns.FinalizeByOthers | src/workers/delivery/worker.py:96-107 | a finalization under any other token changes nothing |
| DeliveryRuns.ClaimMeans | src/backend/db/repositories/notifications.py:246-260 | a claim sets status, times, lease, owner and a token of its own on each row of its batch, and touches no other column or row |
| DeliveryRuns.ReplayMeans | src/backend/db/repositories/notifications.py:183-212 | a replay puts exactly the given rows that are failed_retryable back into the queue, due at once and held by nobody |
| DeliveryRuns.ReadMeans | src/backend/db/repositories/notifications.py:351-367 | a read marks a delivered web row of this user that has no mark, and nothing else |
| DeliveryRuns.InsertMeans | src/backend/db/repositories/notifications.py:77-101 | new rows come in as they are, and only waiting rows under unused ids |
| DeliveryRuns.AttemptLog | src/workers/delivery/worker.py:156-219 | attempts are numbered 1..n, all but the last retryable, the last deciding the row; attempt_count below max_attempts unless terminal; lease columns all set exactly while processing |
| DeliveryRuns.TerminalForever | src/workers/delivery/worker.py:178-191 | delivered and failed_terminal are absorbing, delivered_at is written once, and only read_at can still be set, once |
| DeliveryRuns.ReplaysBounded | src/backend/db/repositories/notifications.py:183-212 | a row is replayed at most max_attempts - 1 times in any run |
| DeliveryRuns.StaleTokenChangesNothing | src/backend/db/repositories/notifications.py:283-298 | a token that lost its row never holds it again, and its finalize changes nothing |
| DeliveryRuns.FinalizedByItsClaim | src/workers/delivery/worker.py:96-117 | every finalization spends the token of the claim just before it |
| DeliveryRuns.TokenFinalizesOnce | src/workers/delivery/worker.py:96-117 | no token finalizes twice, in its own row or any other |
| DeliveryRuns.LeasesDoNotOverlap | src/backend/db/repositories/notifications.py:237-240 | two claims of a row with no finalize between are more than the lease apart |
| DeliveryRuns.RetryWaits | src/workers/delivery/worker.py:183-184 | after a retryable failure the next claim waits for the retry delay unless a replay came in between |
| DeliveryRuns.NeverStuck | src/backend/db/repositories/notifications.py:226-260 | from every reachable state a row that is not terminal can be claimed and delivered, leaving every other row as it is |
| DeliveryRuns.ClaimsAreUnbounded | src/workers/delivery/worker.py:69-78 | for every n there is a run with n claims of one row and no counted attempt: only finalizations are bounded |
| Deliveries.BatchIsFront | src/backend/db/repositories/notifications.py:223-253 | on the columns: the batch comes in ascending (next_attempt_at, id), and a due row that nobody holds is left out only if the batch is full of rows that are earlier in that order |
| Deliveries.BatchIsDue | src/backend/db/repositories/notifications.py:223-244 | a row of a batch is on a channel of the worker, held by nobody, and waits with its time come or is processing with its lease run out |
| Backlog.ClaimDropsBatch | src/backend/db/repositories/notifications.py:246-260 | a claim removes exactly its batch from the due rows and keeps the order of the rest |
| Backlog.Drain | src/backend/db/repositories/notifications.py:223-261 | on the columns: k claims at one instant hand out the first k * limit due rows in ascending (next_attempt_at, id), each once, and exactly the other due rows still wait |
| Backlog.QueueMeans | src/backend/db/repositories/notifications.py:223-251 | the queue lists each due row once, in ascending (next_attempt_at, id), and nothing else |
| Backlog.DrainsExactly | src/backend/db/repositories/notifications.py:223-261 | the backlog is empty after ceil(n / limit) claims and no earlier, every due row handed out once |
| DeliveryWorkers.DeliveryRow.RecordOutcome | src/workers/delivery/worker.py:156-219 | every column and the attempt row after one finalization: delivered iff the send was accepted, retried iff retryable with attempts left, the outcome's provider id and error, the lease given back |
| DeliveryWorkers.DeliveryRow.MarkProcessing | src/backend/db/repositories/notifications.py:255-260 | the claim sets status, times, lease, owner and token, and no other column |
| DeliveryWorkers.DeliverFits | src/workers/delivery/worker.py:125-154 | what the worker records for a reply, error codes and messages included |
| DeliveryWorkers.DeliveryStore.GetClaimedDelivery | src/backend/db/repositories/notifications.py:283-298 | a row comes back exactly for whoever holds its token |
| DeliveryWorkers.DeliveryStore.ClaimDueDeliveries | src/backend/db/repositories/notifications.py:214-261 | the claim loop leaves the table as one claim step does, with a fresh token per row of the batch |
| DeliveryWorkers.DeliveryWorker.FinalizeClaimedDelivery | src/workers/delivery/worker.py:96-117 | true exactly if the token still holds, and in any case it holds no longer; the table becomes what the finalize step, `DeliveryRuns.FinalizeMeans`, says |
| DeliveryWorkers.DeliveryWorker.ProcessClaim | src/workers/delivery/worker.py:69-154 | among other processes' commits the claim is always given up, finalized exactly if it still held; the outcome recorded is what the installed adapter returned, a retryable adapter_exception if it raised, a terminal missing_adapter exactly if the row's channel has none |
| DeliveryWorkers.DeliveryWorker.ProcessDueDeliveries | src/workers/delivery/worker.py:49-154 | the poll is a run that begins with its claim; no claim of the batch holds its row afterwards; processed_count is the number of them whose token finalized its row, at the instant the poll began with; a row one of them delivered had an installed adapter that accepted the send for that claim |
| DeliveryWorkers.NewTokenUnspent | src/backend/db/repositories/notifications.py:259 | a token not yet issued has finalized nothing |
| Replays.ReplaysConserved | src/backend/services/retry_service.py:126-185 | each replay event names exactly the rows its own update moved, replay ids are distinct, events and queued audit rows pair up, audited counts add up to the moves |
| Replays.RetryMeans | src/backend/services/retry_service.py:126-185 | one retry, column by column: the given rows still failed_retryable move, one event and one audit row name them and the requester; with none left, only an audit row that says so |
| Replays.ReplayedAtMost | src/backend/services/retry_service.py:137-145 | however many retriers race, a delivery is replayed at most max_attempts - 1 times |
| RetryServices.RetryStore.MarkDeliveriesReplayRequested | src/backend/db/repositories/notifications.py:183-212 | moves and returns exactly the given rows that are still failed_retryable: back in the queue, due now, held by nobody, attempts as they were; every other row stays as it is |
| RetryServices.RetryStore.RecordRetry | src/backend/services/retry_service.py:126-185 | what the caller is told is what its own replay id moved; conservation is kept |
| RetryServices.RetryStore.RetryNotification | src/backend/services/retry_service.py:34-58 | eligible are exactly the rows of this notification that were failed_retryable when read, and every row moved under this replay id is one of them; then other commits, then one replay, recorded under this notification, requester and time; missing notifications change nothing |
| RetryServices.RetryStore.RetryNotificationForService | src/backend/services/retry_service.py:60-86 | only the sender, or a service that may retry anything; only failed_retryable rows of that notification are eligible or moved; recorded under its own name |
| RetryServices.RetryStore.RetryUserNotification | src/backend/services/retry_service.py:88-118 | only behind a delivered web row of this user; eligible are exactly the failed_retryable e-mail rows of the same recipient, notification and user, and no other row is moved; recorded under this user and web delivery |
| OutboxBacklog.Drain | src/backend/db/repositories/outbox.py:27-48 | on the columns: k claims at one instant hand out the first k * limit publishable rows in ascending (next_attempt_at, created_at, id), each once, and exactly the others still wait |
| OutboxBacklog.DrainsExactly | src/backend/db/repositories/outbox.py:27-48 | the outbox is drained after ceil(n / limit) claims and no earlier, every publishable row handed out once |
| Outbox.PublishedIsInLog | src/workers/outbox/publisher.py:125-173 | a published row's envelope is in the log |
| Outbox.LogCarriesRows | src/workers/outbox/publisher.py:110-123 | whatever decodes from the log has the id, type, key, data and instant of an existing row |
| Outbox.AttemptsCountFailures | src/backend/db/repositories/outbox.py:88-111 | attempts is the number of failed finalizations, and no token finalizes twice |
| Outbox.AttemptsBounded | src/backend/db/repositories/outbox.py:104-111 | with one max_attempts, attempts reaches it exactly when the row fails for good |
| Outbox.SettledForever | src/backend/db/repositories/outbox.py:78-127 | published and failed_terminal are absorbing |
| Outbox.RunExtends | src/backend/db/repositories/outbox.py:16-17 | no run removes a row, changes its event or rewrites the log |
| Outbox.AddMeans | src/backend/services/notification_service.py:149-169 | a new outbox row waits, due at once, without attempt or lease |
| Outbox.ClaimMeans | src/backend/db/repositories/outbox.py:41-48 | a claim sets status, lease, owner and a token of its own on each row of its batch, and touches no other column or row |
| Outbox.SendMeans | src/workers/outbox/publisher.py:125-144 | the first send of a claim appends that claim's own event to the log unless the broker never got it; a second one does nothing |
| Outbox.FinishMeans | src/backend/db/repositories/outbox.py:78-111 | the holder's finalization, column by column: published exactly if the broker acknowledged, failed_retryable exactly if not and attempts are left, and due after the delay, otherwise failed for good |
| Outbox.FinishByOthers | src/workers/outbox/publisher.py:146-173 | a finalization before its send or under a token that does not hold the row changes nothing |
| Outbox.InLogIff | src/workers/outbox/publisher.py:125-144 | over every run a row is in the log exactly if some first send of a claim of it reached the broker, whatever the answer |
| Outbox.TerminalInLogIff | src/workers/outbox/publisher.py:131-142 | the same for a row that failed for good, and then none of its finalizations was a success |
| Outbox.TerminalMayBeInLog | src/workers/outbox/publisher.py:131-142 | a run whose row ends failed_terminal with its envelope in the log |
| Outbox.NeverStuck | src/backend/db/repositories/outbox.py:27-48 | from every reachable state a row that is neither published nor failed for good can be claimed, sent and published |
| Outbox.SentForGood | src/backend/db/repositories/outbox.py:113-128 | once a row is settled and no claim of it is still to be sent, its envelope never enters the log again |
| OutboxLeases.LeasesDoNotOverlap | src/backend/db/repositories/outbox.py:113-128 | two claims of an outbox row with no finalize between are further apart than the first one's lease |
| OutboxLeases.RetryWaits | src/backend/db/repositories/outbox.py:109-111 | after a failed publish that may be retried the next claim waits for the retry delay |
| Outbox.BatchIsFront | src/backend/db/repositories/outbox.py:27-41 | on the columns: the batch comes in ascending (next_attempt_at, created_at, id), and a publishable row that nobody holds is left out only if the batch is full of rows that are earlier in that order |
| Outbox.BatchIsDue | src/backend/db/repositories/outbox.py:113-128 | a row of a batch is held by nobody, and waits with its time come or is publishing with its lease run out |
| OutboxPublishers.OutboxStore.ClaimDueEvents | src/backend/db/repositories/outbox.py:19-48 | the claim loop leaves the outbox as one claim step does, with a fresh token per row |
| OutboxPublishers.OutboxRow.MarkAsFailed | src/backend/db/repositories/outbox.py:88-111 | every column after a failed publish and the status returned: retryable iff attempts are left |
| OutboxPublishers.OutboxRow.MarkAsPublished | src/backend/db/repositories/outbox.py:78-86 | every column after a successful publish |
| OutboxPublishers.OutboxPublisher.FinalizeEvent | src/workers/outbox/publisher.py:146-173 | finalizes exactly if the token still holds, and reports how |
| OutboxPublishers.OutboxPublisher.PublishEvent | src/workers/outbox/publisher.py:125-173 | a claim is always seen through: sent once, in the log unless the broker never got it, finalized or lost to a newer token and held no longer; it ends published only if the broker acknowledged and as a failure only if it did not, with at most 1000 characters of what the call raised |
| OutboxPublishers.OutboxPublisher.PublishDueEvents | src/workers/outbox/publisher.py:55-102 | the poll is a run that begins with its claim; every claim of the batch is seen through as its broker answer says, at the instant the poll began with, and the counters are the numbers of claims that ended in each way |
| OutboxPublishers.TallyAll | src/workers/outbox/publisher.py:81-102 | claimed = published + retryable + terminal + claims lost to a newer token |
| Consumer.NothingBelowCommitIsLost | src/workers/notifications/consumer.py:66-93 | when failures restart at the committed offset, each offset below it is dead-lettered, or processed after its handler committed |
| Consumer.StepKeepsInv | src/workers/notifications/consumer.py:66-93 | every step of the offset protocol keeps the prefix settled |
| Consumer.CarryOnSafeIff | src/backend/runtime.py:67-78 | polling on after a failed cycle keeps the prefix settled exactly if the message in hand was dealt with or the next announces the same event |
| Losses.CommittedOrPolledPast | src/workers/notifications/consumer.py:66-93 | over every run each offset below the committed one is dead-lettered, or processed after its handler committed, or was polled past while open |
| Losses.CarryOnLosesNothingIff | src/backend/runtime.py:67-78 | polling on after a failed cycle leaves no message committed past, open, and with no copy to come, exactly if the one in hand was dealt with or a copy of its event is still to be polled, however far behind |
| Losses.ResendIsRecovered | src/workers/kafka/consumer.py:273-283 | a run in which the handler fails on an event that the log holds twice, and polling on loses nothing |
| Consumer.HandlerFailureLosesMessage | src/workers/kafka/consumer.py:273-283 | the smallest run in which a failed handler's message is lost |
| ConsumerWorkers.NotificationConsumerWorker.HandleMessage | src/workers/notifications/consumer.py:81-92 | duplicate exactly if already processed; otherwise the handler ran before the event was recorded; raises exactly if handler or recording does, and then what had taken effect stays |
| ConsumerWorkers.NotificationConsumerWorker.SettleMessage | src/workers/notifications/consumer.py:71-93 | the offset is committed only after dead-lettering, duplicate detection or processing; it raises exactly if a call it made raised, and then the offset stays where it was, unless the commit itself took effect and raised |
| ConsumerWorkers.NotificationConsumerWorker.RunOnce | src/workers/notifications/consumer.py:59-101 | the five counters of a cycle are what happened in its run; it raises only if something did, and otherwise ends with a full batch or when nothing comes; after an exception the position is just past the message in hand, and the offset committed last is that of the last message settled, or of this one if its commit took effect and raised |
| Creation.OneRowOneEvent | src/backend/db/models/notifications.py:48-64 | at most one row per identity and exactly one outbox event per row |
| Creation.RowsAreAsked | src/backend/services/notification_service.py:86-106 | every row holds the request, time, identity and fingerprint of one caller, who was told that it was created |
| Creation.OneWinner | src/backend/services/notification_service.py:51-140 | among all callers of one identity exactly one is told created; the others get its id, or a conflict iff the fingerprints differ; the violation itself never reaches a caller |
| Creation.ConflictMeans | src/backend/services/notification_service.py:75-79 | a conflict is reported exactly if the only winner asked for something else |
| Creation.FallbackNeverConflicts | src/backend/services/notification_service.py:124-127 | a call without a key is never told that there is a conflict |
| Creation.FallbackIdentitiesMean | src/backend/services/notification_service.py:60-73 | two calls without a key share an identity iff same request, source and window |
| Creation.IdentitiesMean | src/backend/services/notification_service.py:51-73 | two calls share an identity iff they come from one source and give the same key, or give none and ask for the same thing in one window |
| Creation.AnswersStand | src/backend/services/notification_service.py:80-85 | an answer once given never changes |
| Creation.InsertMeans | src/backend/services/notification_service.py:86-106 | the insert writes the caller's own call with zero counts and one event about it, or, if the identity is taken, nothing |
| Creation.LookupMeans | src/backend/services/notification_service.py:51-85 | a lookup answers with the row its identity has and its counts of that moment, or with a conflict iff the fingerprints differ, and writes nothing |
| CreationServices.CreationService.CreateNotification | src/backend/services/notification_service.py:39-140 | against any concurrent callers: created exactly if this call made the row, which then holds its request; otherwise the id and the counts of the row with its identity and fingerprint, or a conflict with another fingerprint, or the window error |
| CreationServices.CreationService.LookAgain | src/backend/services/notification_service.py:107-133 | after a unique violation the second lookup always finds the row |
| CreationServices.RefindSucceeds | src/backend/services/notification_service.py:121-123 | the re-raise branch is unreachable |
| Idempotency.FingerprintExact | src/backend/services/intake/idempotency.py:24-31 | two valid requests share a fingerprint iff message, severity, audience (labels as pairs) and channel set agree |
| Idempotency.FallbackExact | src/backend/services/intake/idempotency.py:48-58 | fallback hashes agree iff request, source and window agree |
| Idempotency.AudienceExact | src/backend/services/intake/idempotency.py:66-79 | canonical audiences agree iff kind, group and label pairs agree |
| Idempotency.ValidRequestIff | src/backend/domain/value_objects.py:39-48 | which requests there are: an exact message, an audience, and one or both channels in some order |
| Idempotency.PayloadSays | src/backend/services/intake/idempotency.py:10-31 | the canonical payload: its four fields by name, the channels in alphabetical order, each once |
| Idempotency.AudienceSays | src/backend/services/intake/idempotency.py:66-79 | the canonical audience: its type, and the group or exactly its label pairs |
| Idempotency.FallbackSays | src/backend/services/intake/idempotency.py:48-58 | the fallback hash covers that payload, the source and the window's start |
| Idempotency.SomeHashIsInjective | src/backend/services/intake/idempotency.py:61-63 | the injectivity asked of the hash can be met: JSON values have texts that determine them |
| Fanout.ExactlyTheProduct | src/backend/services/notification_fanout_service.py:56-90 | in every reachable state deliveries are recipients times channels, one row each, and the two counts are the sizes |
| Fanout.CountsAreRows | src/backend/services/notification_fanout_service.py:87-96 | row by row, in every reachable state: a user has a delivery on a channel iff they are a recipient and it was asked for, and just one; the two counts are the numbers of recipient rows and delivery rows |
| Fanout.FanMeans | src/backend/services/notification_fanout_service.py:51-63 | exactly the selected users become recipients, of this notification and no other |
| Fanout.FanReaches | src/backend/services/notification_fanout_service.py:51-63 | after a fanout a user is a recipient iff they were one or the stored audience is for them: active, and in the group or holding every label if it names any |
| Fanout.FanInserts | src/backend/services/notification_fanout_service.py:64-84 | each row a fanout inserts is for a recipient the audience is for and a requested channel on which that user had none; pending, due now, 0 of 3 attempts, every other column empty |
| Fanout.FanTouchesNothing | src/backend/db/repositories/notifications.py:77-101 | no existing delivery is touched by a fanout |
| Fanout.RerunChangesNothing | src/backend/services/notification_fanout_service.py:52-86 | fanning out for users who are all recipients already changes nothing |
| Fanout.RerunWithSameDirectory | src/backend/services/notification_fanout_service.py:31-96 | a rerun with the same directory changes nothing, however long after and whatever happened since |
| FanoutServices.NotificationFanoutService.AddRecipientsIgnoreConflicts | src/backend/db/repositories/notifications.py:40-75 | adds one recipient with a fresh id for each given user that has none |
| FanoutServices.NotificationFanoutService.AddDeliveriesIgnoreConflicts | src/backend/db/repositories/notifications.py:77-101 | inserts exactly the values whose user and channel had no delivery |
| FanoutServices.NotificationFanoutService.BuildValues | src/backend/services/notification_fanout_service.py:64-84 | the nested loops build a value for every selected user and channel that has no delivery |
| FanoutServices.NotificationFanoutService.FanoutNotification | src/backend/services/notification_fanout_service.py:31-96 | fails and changes nothing exactly for an unknown notification or more users, or users times channels, than the limits, counted as those the stored audience is for; otherwise exactly these become recipients, it is one fanout step, and it reports the counts |
| FanoutServices.ConflictMeans | src/backend/db/models/notifications.py:164-168 | the unique key on recipient and channel refuses a row exactly if that user has a delivery on that channel |
| Audience.ValidateLabels | src/backend/domain/value_objects.py:51-61 | ok exactly for non-empty labels with exact keys and values and distinct keys; otherwise what is wrong with the first wrong one |
| Audience.ValidIff | src/backend/domain/value_objects.py:12-29 | which selections there are: everybody, one exact group, or non-empty exact labels with distinct keys, and nothing besides |
| Audience.ExactIffTrimmed | src/backend/domain/value_objects.py:64-68 | a key or value is exact iff it is not empty and str.strip leaves it as it is |
| Audience.LabelsMean | src/backend/db/repositories/users.py:32-50 | the GROUP BY / HAVING query selects exactly the active users that hold every requested label |
| Audience.ResolveMeans | src/backend/db/repositories/users.py:13-50 | whom an audience selects, on the directory's own sets: every active user, or the active members of the group, or the active holders of every label |
| Audience.ResolveStoredMeans | src/backend/services/notification_fanout_service.py:98-111 | the same of the audience stored with the request, for whatever order its labels come back in |
| Audience.StoreKeepsMeaning | src/backend/services/notification_service.py:91-93 | an audience and what is stored of it are for the same users |
| Audience.CountMeansAll | src/backend/db/repositories/users.py:47 | the count of distinct matched keys equals the number of labels iff every label is held |
| Audience.RepeatedKeyMatchesNobody | src/backend/db/repositories/users.py:47 | with a key asked for twice nobody matches |
| Audience.LabelsOrderFree | src/backend/db/repositories/users.py:32-50 | the selection does not depend on the order of the labels |
| Audience.StoredMeansRequested | src/backend/services/notification_fanout_service.py:104-111 | the audience read back from the row selects what was requested, in whatever order its labels come back |
| Audience.InOrder | src/backend/db/repositories/users.py:13-17 | users come back once each in ascending id order |
| Paging.PagesMissNothing | src/backend/api/routers/users.py:56-71 | on the columns, following next_cursor while others commit: ids in strictly descending (delivered_at, id), each a delivered web row of the user, and every row on the list at the first request returned, except that an unread walk may miss what was read since |
| UnreadWalks.MissedIffRead | src/backend/db/repositories/notifications.py:407-447 | a row listed when an unread walk began has its turn on exactly one page, and is missed exactly if it had been read when that page was asked for |
| UnreadWalks.ReadBetweenIsMissed | src/backend/api/routers/users.py:56-71 | a run with two unread rows in which the second is read between two pages of one and missed |
| Paging.PageMeans | src/backend/db/repositories/notifications.py:369-393 | a page is the newest rows after the cursor; there is a next page iff rows are left, all older than it |
| Paging.PageRows | src/backend/db/repositories/notifications.py:369-393 | one request on the columns: at most limit rows of the list behind the cursor, newest first |
| Paging.LeftForLater | src/backend/db/repositories/notifications.py:369-393 | a row of the list behind the cursor that the page leaves out is older than all of it; the page is full then and the cursor its last row |
| Paging.NextIffLeft | src/backend/api/routers/users.py:138-150 | there is a next page exactly if a row of the list behind the cursor is not on this one |
| Paging.ListedMeans | src/backend/db/repositories/notifications.py:407-447 | the list is exactly the delivered web rows of the user, with or without a read mark as the filter asks, by when they were delivered |
| Paging.StaysListed | src/backend/db/repositories/notifications.py:407-447 | a listed row keeps its place in the order; it leaves only the unread list, by being read |
| Paging.SnapshotPages | src/backend/api/routers/users.py:56-71 | with nothing else happening the pages concatenate to the prefix of the whole list, and the walk has ended iff that is all of it |
| Paging.SnapshotEnds | src/backend/api/routers/users.py:138-150 | such a walk terminates with the full list |
| Envelopes.DecodeEncode | src/workers/kafka/consumer.py:109-175 | every envelope of a supported type decodes to the same id, type, instant, data and key; any other type is rejected for that |
| Envelopes.AcceptedIffFaultless | src/workers/kafka/consumer.py:109-203 | a raw message is accepted exactly if nothing is wrong with its bytes, fields or key, and otherwise rejected for the first fault in the order the consumer looks |
| Envelopes.AcceptedMeans | src/workers/kafka/consumer.py:168-203 | each field of an accepted message is what the envelope says; a missing key is the event's id |
| Envelopes.VersionOneMeans | src/workers/kafka/consumer.py:115-120 | a schema version passes exactly if it is the number one, as an integer, a boolean or a float of that value |
| Envelopes.EncodeInjective | src/workers/kafka/publisher.py:44-52 | rows with the same message bytes agree in id, type, key, data and instant |
| Envelopes.ServicesNameTheirNotification | src/backend/services/retry_service.py:187-210 | both kinds of event are supported and name their notification to the handler |
| Envelopes.RequestArrives | src/backend/services/notification_service.py:149-169 | the consumer reads a request's event as the outbox insert meant it: id, type, instant, key, notification and source |
| Envelopes.ReplayArrives | src/backend/services/retry_service.py:187-210 | and a replay's: id, type, instant, the replay id as key, the notification and the deliveries moved, in order |
| Cursors.RoundTrip64 | src/backend/core/cursors.py:28-53 | unpadded base64url, decoded by the lenient decoder after padding, gives back every byte sequence |
| Cursors.PadRestores | src/backend/core/cursors.py:51-53 | stripping the padding and adding (-length mod 4) characters restores the exact encoding |
| Cursors.DecodeMeans | src/backend/core/cursors.py:51-53 | what the lenient decoder makes of any string: ASCII, characters outside the alphabet skipped, the values cut off by padding that completes a group or in whole groups of four, and then the bytes of those values; an error otherwise |
| Cursors.TestVectors | src/backend/core/cursors.py:28-28 | test vectors of section 10 of RFC 4648, and one for the URL-safe alphabet |
| Cursors.CursorRoundTrip | src/backend/core/cursors.py:17-46 | decoding an encoded cursor gives it back |
| Cursors.CursorsDiffer | src/backend/core/cursors.py:17-28 | different cursors are different strings |
| Cursors.AcceptedIffSigned | src/backend/core/cursors.py:30-46 | a string is taken for a cursor exactly if its payload carries the signature this service gives it and names that instant and id |
| Cursors.UncaughtIff | src/backend/core/cursors.py:30-46 | the one failure not answered as an invalid cursor: a signed payload whose id is neither text nor null |
| Cursors.CursorIsUrlSafe | src/backend/core/cursors.py:17-28 | a cursor is letters, digits, hyphens and underscores |
| Cursors.SomeCodecParses | src/backend/core/cursors.py:17-46 | the round trip asked of the JSON codec can be met |
| Windows.WindowContains | src/backend/services/intake/idempotency.py:34-45 | an instant lies in its own window iff truncation before 1970 did not push it into the next |
| Windows.LastMicrosecondBefore1970 | src/backend/services/intake/idempotency.py:42-45 | an instant that does not: one microsecond before the epoch |
| Windows.StartMonotone | src/backend/services/intake/idempotency.py:42-45 | later instants never fall into earlier windows |
| Windows.StartsApart | src/backend/services/intake/idempotency.py:42-45 | distinct window starts are at least a window apart |
| Quotas.ProducerQuotaRepository.Increment | src/backend/db/repositories/quotas.py:15-49 | the upsert raises one counter by one and returns it |
| Quotas.ProducerQuotaService.Consume | src/backend/services/quota_service.py:30-51 | succeeds iff at most limit calls of its source fell into its window, counting this one; otherwise the wait is the least whole number of seconds, at least one, that reaches the next window |
| Quotas.ExactlyMin | src/backend/services/quota_service.py:37-51 | of the n calls of a source in one window, in any commit order, exactly min(n, limit) succeed, both counted as sets of calls |
| Quotas.BurstBound | src/backend/services/quota_service.py:30-51 | no span of one window's length admits more than twice the limit |
| Quotas.AtMostTwoWindows | src/backend/services/quota_service.py:32-35 | such a span meets at most two windows |
| Quotas.RetryReachesNextWindow | src/backend/services/quota_service.py:44-51 | the wait is at least a second, reaches the next window and is the least that does; it exceeds a window iff the clock was rounded into it |
| Quotas.WaitsLongerThanAWindow | src/backend/services/quota_service.py:44-51 | a call before 1970 that is told to wait longer than a window |
| Backoff.ClosedForm | src/backend/runtime.py:67-82 | over any history a cycle after k failures in a row sleeps the poll interval if it succeeds and min(initial * 2^k, max) if it fails |
| Backoff.PollingWorkerRuntime.Make | src/backend/runtime.py:54-57 | the two configuration errors, and no other |
| Backoff.PollingWorkerRuntime.RunPollCycle | src/backend/runtime.py:67-82 | a failure sleeps the current delay and doubles it up to the maximum, a success sleeps the interval and resets it |
| Backoff.PollingWorkerRuntime.RunCycles | src/backend/runtime.py:84-86 | the runtime's sleeps follow the closed form |
| Ordering.SortDrop | src/backend/db/repositories/notifications.py:250-251 | LIMIT n leaves exactly the rest of the ordered list |

## Left out

- SQLAlchemy sessions, dialects, migrations and row locks as mechanisms: one unit of work is one step, SKIP LOCKED a set of rows passed over, unique indexes insert guards. Two fanouts of one notification whose statements interleave inside their transactions are not modelled, so neither is the lost update of the two counts they could cause.
- aiokafka threads and event loops, rebalancing and several partitions: one partition, one active consumer, one committed offset; a publish call appends, fails, or does both.
- Adapters, SMTP, templates, HTTP: an adapter call is an arbitrary outcome or exception.
- JWT, scopes and HMAC as security: `Cursors` uses the signature as a function and claims nothing about forgery. The text forms `UUID()` and `fromisoformat` accept beyond the ones the services write are not modelled.
- NaN and Infinity as JSON numbers: a float is a mantissa and an exponent.
- SHA-256, UUID text, ISO datetime text, UTF-8 and JSON text are injective encodings, each its own constructor or an explicit injectivity hypothesis; what the dead-letter topic carries is not modelled beyond the offset.
- Datetimes are integers in microseconds; the rounding of `timestamp()` as a float far from the present is not modelled. Backoff delays are real numbers.
- Naive clocks (`now must be timezone-aware`) and the constructor errors of services other than `PollingWorkerRuntime` are not modelled.
- Channel names outside `web` and `email` in a stored row (`unsupported_channel`): the database constraint excludes them.
- Users, groups and labels are a directory that may differ at every fanout; how it is edited is not modelled. Deleting requests or users is not modelled.
- Metrics, demo seeding, workload generation, CLI dispatch, settings, body-size limit, subject trimming: easy members.
