# Verification of the payment and webhook core

A Dafny model of the four stateful parts of the repository, with proofs of what they promise over whole runs. Redis and
Postgres are maps, sequences and sets; a single Redis command, Lua script or database transaction is one atomic step. The
methods of the services are Dafny methods on classes with the services' own fields; each is proved equal to a function (or
relation) on the state, and the main results are about those functions in every interleaving of their steps.

`dafny verify dfyconfig.toml` checks everything.

| part | files |
|---|---|
| webhook delivery queue | `WebhookConstants`, `WebhookQueueState` (state and commands), `WebhookQueue` (the service), `WebhookWorker` (the tick split at its awaits), `WebhookQueueRuns` (runs, one command at a time, with deaths, crashes and restarts), `WebhookQueueOrder` (the invariant of every run), `WebhookQueueRequests` (the order of the requests), `WebhookQueueContents` (what deliveries and rows carry), `WebhookQueueCounterexamples`, `WebhookQueueRecovery` (the sweep), `WebhookQueueLedger` (runs that cut no call short), `WebhookQueueDrain` (progress), `WebhookQueuePriority`, `WebhookQueueClock` and `WebhookQueueTiming` (how long it takes), `WebhookQueueReplays` (how often a delivery is requested, whatever fails), `WebhookQueueFailures` (what a failure leaves behind for good), `WebhookQueueDeaths` (runs that show it) |
| checkout sessions and payments | `AmountUtils`, `CheckoutTables` (tables and statements), `PaymentServices` (the services), `PaymentRecovery` (the recovery passes as relations), `SessionProtocol` (every read and write a step of its own), `SessionCalls` (its steps make the service calls), `SessionSinglePayment`, `SessionCounterexamples` |
| payment cursor | `PaymentCursor` (the service), `PaymentPolling` (the polling loop), `CursorProtocol` (any number of instances) |
| rate limiter | `RateLimit` (the service and the script), `RateLimitWindows` (refinement), `RateLimitAnswers` (what the answers are worth) |

`Options` holds the option type for `null`, `undefined` and caught exceptions. Tick, enqueue and recovery sweep are single
steps in the runs of the queue; `WebhookWorker` splits the tick.

## Where the code differs from what is written about it

- The constants file describes a last wait of 12 hours and a retry lifecycle of about 14.6 hours. The fifth failure
  dead-letters instead of waiting, so only the first four intervals ever occur (`FourWaitsThenDead`) and they total at most
  11,232 seconds. A session is served one delivery after the other, and the 48-hour key lifetime covers n always-failing
  deliveries of one session if and only if n is at most fifteen (`FailingJobsFitIff`).
- A restart can break the order of a session. Its sweep revives deliveries that were dropped for want of a webhook target,
  behind later ones that were requested meanwhile (`RestartMayReorder`). The order survives a restart if and only if no
  orphan comes before a request already made in its session (`RestartKeepsTurnIff`), and holds in every run whose restarts
  meet this (`RequestsInOrder`).
- Losing Redis restarts the numbering of a session right above its open deliveries, at one when all are closed. New
  deliveries come after the requests made if and only if each of these is matched by an open delivery with as high a
  sequence (`OrderAfterLossIff`).
- A delivery is requested at most five times, and once more for each of its calls that is cut short after its request
  (`RequestedFiveTimesAndPerCut`). One such call can be enough for requests without end: a worker that dies between the
  dead letter and the clean-up leaves the job scheduled, and each later attempt that is condemned meets the unique dead
  letter and throws, leaving the queue as it was (`CondemnedStaysIff`, `RequestedWithoutEnd`).
- A call that ends, by an exception or with its worker, between taking the job off the schedule and out of its session
  leaves it stuck (`GetsStuckIff`, `SessionGetsStuck`). From then on, in every run and through every restart, neither it
  nor anything of its session behind it is requested again (`StuckForGood`, `StuckSilencesSession`). A sweep brings it back
  if and only if its own hash has expired and its row is still open, which a delivered or dead one never is
  (`HashLossFreesIff`); otherwise only the expiry of the session's own key ends it, and each enqueue postpones that.
- "Delivered" need not last: a worker that dies between recording it and taking the job off the schedule leaves the
  delivery to be requested again, and another answer overwrites the row (`DeliveredMayBecomeDead`, `RowChangesIff`). A
  delivered row is final once the delivery is off the schedule (`RetiredForGood`).
- The warning of `restoreCursor` says that a cursor of `now` skips earlier payments. The Horizon client sends no cursor in
  that case, so the page starts at the beginning of the history. `CursorProtocol.StartsAt` follows the code, and no
  payment is skipped because of it.
- The tests of the cursor service (src/__tests__/payment-cursor.spec.ts:211-231) pass the last persisted token as the
  expected value of a flush. The polling loop (src/payments/payment-detector.service.ts:97-104) passes the token of the
  operation just before. After the first flush that is never the stored one, so the stored cursor stays at the tenth
  operation while the key lives, however many follow (`StoredCursorFreezes`): nothing is lost, but a restart repeats
  everything after it (`RestartReplaysFromTheTenth`).
- "Paid" can be overwritten by an expiry or a cancellation that read the session before it was paid
  (`PaidMayBeOverwritten`). A paid session stays paid, however the run goes on, if and only if no expiry or cancellation of
  it is under way (`PaidStaysIff`).
- A session can get two payment rows when a finalizer outlives the recovery of its own claim (`SlowFinalizerPaysTwice`).
  `OnlyCommitsAddPayments` names the only steps that add a row. A session with a payment gets no further row, however the
  run goes on, if and only if it is neither pending nor processing, no recovery of it awaits Horizon, and all commits of it
  under way are recorded already (`NoFurtherPaymentIff`). `OnePaymentPerSession` holds when no stuck session is taken up
  while an earlier claim or recovery of it is under way; in particular in every run without recovery.
- A delivery dropped for want of a webhook target keeps an open row, so a later recovery sweep revives it
  (`SweepAfterLoss`).
- A revived delivery carries the row's creation time as its timestamp, not the one signed at enqueue; the two requests are
  the same exactly when the times agree (`RevivedRequestIsSameIff`).
- An enqueue that stops between the job hash and the schedule entry is not repaired by the sweep (`SweepSchedulesIff`,
  `HalfEnqueuedIsNotRepaired`).
- Amounts are compared after truncation to seven decimals: equality of values is decided exactly up to seven decimals
  (`EqualityIsExact`), and beyond that it is equality of the truncated values (`EqualityComparesTruncated`, `TruncationLosesDigits`).

## Model

| member | source | states |
|---|---|---|
| `WebhookQueueRequests.RequestsInOrder` | src/webhook/webhook-queue.service.ts:87-191 | In every run, with deaths at any command, crashes and restarts, whose restarts find no orphan before a request of its session, the sequence numbers requested for one session never decrease |
| `WebhookQueueRequests.RequestsRepeat` | src/webhook/webhook-queue.service.ts:121-141 | In every run all requests of one delivery carry the same id and content, and the same timestamp too when the orphans revived after a request had been signed with the creation times of their rows |
| `WebhookQueueContents.CarriedAsEnqueued` | src/webhook/webhook-queue.service.ts:126-175 | From its enqueue on, in every run and whatever fails, the row, hash, worker's copy, every request and the dead letter of a delivery carry the merchant, session, event and body given to `enqueue` |
| `WebhookQueueContents.CarriedAsOriginal` | src/webhook/webhook-queue.service.ts:438-456 | A dead letter requeued by its merchant becomes a delivery that carries merchant, session, event and body of the original one ever after, and the letter alone is marked; for anyone else nothing changes |
| `WebhookQueueContents.SignedAsEnqueued` | src/webhook/webhook-queue.service.ts:129-165 | Every request is signed with the timestamp of its enqueue, or, only if a restart lies between, with the creation time of the row |
| `WebhookQueueContents.SessionsAreNumbered` | src/webhook/webhook-queue.service.ts:139-144 | In every run the n deliveries of a session are numbered 1 to n, each number once, and the next gets n + 1 |
| `WebhookQueueContents.EnqueueWrites` | src/webhook/webhook-queue.service.ts:126-184 | Every column of the new row, every field of the hash, and the counter, session and schedule entries of an enqueue |
| `WebhookQueueRequests.RestartKeepsTurnIff` | src/webhook/webhook-queue.service.ts:466-513 | After a restart the requests made are in turn with what waits if and only if no orphan comes before a request of its session |
| `WebhookQueueRequests.RestartKeepsStampsIff` | src/webhook/webhook-queue.service.ts:486-500 | After a restart the requests made carry the timestamps of the deliveries if and only if each revived one among them was signed with its row's creation time |
| `WebhookQueueCounterexamples.RestartMayReorder` | src/webhook/webhook-queue.service.ts:87-91 | A run in which a delivery dropped for want of a target is revived by a restart and requested after a later one of its session |
| `WebhookQueueOrder.RequestedOnlyInTurn` | src/webhook/webhook-queue.service.ts:257-279 | In every run, restarts with their sweeps included, a job is requested only when every delivery of its session with a lower sequence has been delivered or dead-lettered, or was dropped and not revived since |
| `WebhookQueueOrder.RunIsSound` | src/webhook/webhook-queue.service.ts:46-56 | The invariant of every run, restarts with their sweeps included: copies of jobs agree with their rows, whatever is scheduled has its place in its session, jobs in progress are at the front of theirs until they give up their place, clean-up starts only on closed deliveries, the worker's books match the jobs in progress, and every open delivery that was not dropped keeps its place |
| `WebhookQueueOrder.ReleaseBooks` | src/webhook/webhook-queue.service.ts:371-375 | The `finally` block gives up exactly the job's own place and session: the books stay exact for the others |
| `WebhookQueueLedger.DeliveriesAreConserved` | src/webhook/webhook-queue.service.ts:303-430 | In every run whose failures, crashes and restarts cut no call short, every enqueued delivery no worker is busy with is exactly one of: live (hash, schedule entry at its due time and session entry all present), delivered, dead with one dead letter holding the whole log, or dropped; one in progress is live until its result is recorded, and from then on stands exactly where its next command says; the row counts its log and the log counts the requests made, but for one whose result is about to be recorded |
| `WebhookQueueLedger.NothingUnknown` | src/webhook/webhook-queue.service.ts:146-184 | No index, dead letter or job in progress names a delivery that was not enqueued |
| `WebhookQueueLedger.StepKeepsLedgerIff` | src/webhook/webhook-queue.service.ts:303-430 | From a state with every delivery accounted for, a step leads to another such state if and only if it is not an exception, crash or restart that hits a call after its request or drop and before its last effect |
| `WebhookQueueLedger.RetriesAreBounded` | src/webhook/webhook-queue.service.ts:325-367 | In such runs no delivery is requested more than five times, and n deliveries cost at most 5n requests |
| `WebhookQueueReplays.RequestedFiveTimesAndPerCut` | src/webhook/webhook-queue.service.ts:303-405 | In every run, whatever fails, a delivery is requested at most five times plus once for each of its calls cut short after the request: by an exception, a crash, a restart, or a dead letter that is there already |
| `WebhookQueueReplays.RequestsAreCounted` | src/webhook/webhook-queue.service.ts:325-367 | In every run the requests of a delivery are at most the attempts its hash counts (its row, once the hash is gone), one under way, and its calls cut short |
| `WebhookQueueDrain.AdvanceSpends` | src/webhook/webhook-queue.service.ts:303-376 | A command of `process` never raises the attempts its delivery has left, and the one that ends the call lowers them, after a request, a drop or a dead letter alike |
| `WebhookQueueDrain.StretchSpends` | src/webhook/webhook-queue.service.ts:303-376 | In a failure-free stretch without enqueues at most as many `process` calls end as attempts were left over all deliveries at its start, less those left at its end |
| `WebhookQueueDrain.RoundSpends` | src/webhook/webhook-queue.service.ts:238-292 | A round (a pass past every due time, until nothing is in progress) that starts with a live delivery leaves strictly fewer attempts |
| `WebhookQueueDrain.QueueDrains` | src/webhook/webhook-queue.service.ts:238-376 | Once no more is enqueued, as many rounds as attempts were left end with no delivery live, whatever the merchants answer |
| `WebhookQueueDrain.FiveAttemptsEach` | src/webhook/webhook.constants.ts:13-14 | With nothing in progress, n live deliveries have at most 5n attempts left |
| `WebhookQueueLedger.QueueNeverDeadlocks` | src/webhook/webhook-queue.service.ts:238-292 | In such runs, with nothing in progress, room for a job and every due time past, a pass dispatches at least one job if and only if some delivery is still live |
| `WebhookQueueRuns.CommandsMakeProcess` | src/webhook/webhook-queue.service.ts:303-376 | The commands of one job, left undisturbed, have together the effect of the `process` method and make at most one request |
| `WebhookQueueRuns.TickRespectsSessions` | src/webhook/webhook-queue.service.ts:257-262 | A pass picks nothing before its due time, nothing of a session in flight, and at most one job per session |
| `WebhookQueuePriority.DispatchedGoBefore` | src/webhook/webhook-queue.service.ts:266-288 | In every pass of every run a dispatched delivery goes before every eligible one left behind: lower priority number, or the same and lower sequence, or both the same and not due later |
| `WebhookQueuePriority.DispatchedInOrder` | src/webhook/webhook-queue.service.ts:266-288 | Deliveries dispatched together are in that order among themselves |
| `WebhookQueuePriority.PassDoes` | src/webhook/webhook-queue.service.ts:238-292 | A pass with room dispatches as many eligible jobs as fit, books exactly these and their sessions, and removes exactly the due entries whose hash is gone |
| `WebhookQueueState.HeadIsLeast` | src/webhook/webhook-queue.service.ts:257-262 | The one delivery of a session that may run has the least sequence, and of several the least id |
| `WebhookQueuePriority.ConfirmationsGoFirst` | src/webhook/webhook-queue.service.ts:234-288 | In every pass of every run no eligible delivery is left behind for one whose event has a lower priority; a waiting payment confirmation is passed over only for other payment confirmations |
| `WebhookQueuePriority.VerdictByStatus` | src/webhook/webhook.constants.ts:85-97 | 2xx delivers, 4xx other than 408 and 429 dead-letters at once, and anything else is retried strictly later until the fifth attempt, then dead-lettered |
| `WebhookQueuePriority.PrioritiesOfEvents` | src/webhook/webhook.constants.ts:40-58 | Which events have priority 1, 2 and 3 |
| `WebhookQueue.SortCandidates` | src/webhook/webhook-queue.service.ts:266-269 | The sort returns the same jobs, each once, any earlier one with a lower priority number, or the same and a lower sequence, or both the same and not due later |
| `WebhookQueue.BestPrefix` | src/webhook/webhook-queue.service.ts:271-288 | Dispatching a prefix of the sorted candidates is work-conserving: min(capacity, eligible) jobs, and no eligible job left behind goes strictly before a dispatched one |
| `WebhookQueue.HeadsDiffer` | src/webhook/webhook-queue.service.ts:274-275 | Two candidates never share a session, so the second contention check skips nothing |
| `WebhookQueue.WebhookQueueService.Enqueue` | src/webhook/webhook-queue.service.ts:126-191 | One enqueue advances the session counter and writes row, hash, session entry and schedule entry of a fresh delivery, and nothing else |
| `WebhookQueue.WebhookQueueService.Scan` | src/webhook/webhook-queue.service.ts:245-264 | The scan collects exactly the eligible jobs, each once, and removes exactly the due entries whose hash is gone |
| `WebhookQueue.WebhookQueueService.DispatchInOrder` | src/webhook/webhook-queue.service.ts:271-288 | The dispatch loop takes the longest prefix of the candidates there is room for and books their jobs and sessions |
| `WebhookQueue.WebhookQueueService.Tick` | src/webhook/webhook-queue.service.ts:238-292 | A pass is a tick in the sense of the specification (eligible jobs only, the best, as many as fit), in the order of priority, sequence and due time, or does nothing when one is under way |
| `WebhookQueue.WebhookQueueService.RemoveTraces` | src/webhook/webhook-queue.service.ts:379-384 | The cleanup removes the job's schedule entry, session entry and hash, and nothing else |
| `WebhookQueue.WebhookQueueService.RecordAttempt` | src/webhook/webhook-queue.service.ts:407-430 | The row of the delivery, if there is one, gets the new status, counts and one more log entry; no other row changes |
| `WebhookQueue.WebhookQueueService.DeadLetterJob` | src/webhook/webhook-queue.service.ts:386-405 | A dead letter with the row's payload and log is inserted and the job cleaned up; with a dead letter already there nothing happens |
| `WebhookQueue.WebhookQueueService.Finally` | src/webhook/webhook-queue.service.ts:371-375 | The worker gives up the job and its session and lowers its count, never below zero |
| `WebhookQueue.WebhookQueueService.Process` | src/webhook/webhook-queue.service.ts:303-376 | All four outcomes of processing: dropped without a target, delivered, dead-lettered, or rewritten and rescheduled, with a later due time for every random number between zero and one |
| `WebhookQueue.WebhookQueueService.RequeueDeadLetter` | src/webhook/webhook-queue.service.ts:438-456 | Only the owner's dead letter is enqueued again, under a fresh delivery, and marked; otherwise nothing changes |
| `WebhookQueue.WebhookQueueService.ReviveFromRow` | src/webhook/webhook-queue.service.ts:483-513 | A row's job, session entry and schedule entry are rebuilt and the session counter raised if it lagged |
| `WebhookQueue.WebhookQueueService.RecoverPending` | src/webhook/webhook-queue.service.ts:466-480 | The sweep rebuilds exactly the open rows without a hash and returns how many |
| `WebhookQueue.OneMoreRevived` | src/webhook/webhook-queue.service.ts:473-477 | Reviving one more row extends a partial sweep by exactly that row |
| `WebhookQueueRecovery.SweepRevivesExactly` | src/webhook/webhook-queue.service.ts:466-513 | The sweep revives exactly the open rows without a hash, keeping id, event, sequence, priority and attempts, due at once, and leaves every other job, row and worker field alone |
| `WebhookQueueRecovery.SweepIsIdempotent` | src/webhook/webhook-queue.service.ts:460-465 | A second sweep finds nothing and changes nothing |
| `WebhookQueueRecovery.NextSequenceIsAhead` | src/webhook/webhook-queue.service.ts:506-510 | After a sweep the next sequence of a session exceeds that of each of its jobs |
| `WebhookQueueRecovery.SweepRebuildsOpen` | src/webhook/webhook-queue.service.ts:461-513 | From any state that lost its job hashes, one sweep brings back exactly the open deliveries, each with hash, schedule entry and session entry, due at once, at the attempts its row counts, and raises each session's next sequence above them |
| `WebhookQueueRecovery.SweepAfterLoss` | src/webhook/webhook-queue.service.ts:461-513 | When a run that cuts no call short loses all of Redis, or all hashes, between passes, these are exactly the live and the dropped deliveries, each fully indexed with as many attempts as its log has entries |
| `WebhookQueueRecovery.NextSequenceAfterLoss` | src/webhook/webhook-queue.service.ts:506-510 | After losing all of Redis and a sweep, the next sequence of a session exceeds a bound if and only if an open delivery of it reaches the bound |
| `WebhookQueueRecovery.OrderAfterLossIff` | src/webhook/webhook-queue.service.ts:506-510 | The next delivery then comes after all requests made for its session if and only if each of them is matched by an open delivery with as high a sequence; with none open the numbering starts at one again |
| `WebhookQueueRecovery.RevivedRequestIsSameIff` | src/webhook/webhook-queue.service.ts:486-500 | A revived delivery is requested as before if and only if the row's creation time is the time signed at enqueue |
| `WebhookQueueRecovery.SweepSchedulesIff` | src/webhook/webhook-queue.service.ts:466-512 | After a sweep an open delivery is scheduled if and only if it was before or its hash was missing |
| `WebhookQueueRecovery.HalfEnqueuedIsNotRepaired` | src/webhook/webhook-queue.service.ts:177-184 | A delivery with a hash and no schedule entry is not scheduled by a sweep, nor picked by the next pass after it |
| `WebhookWorker.WorkerBooksAreExact` | src/webhook/webhook-queue.service.ts:239-292 | With the tick split at each await and jobs finishing in between: `active` is the number of jobs in progress and within the limit, in-flight sessions are exactly theirs with one job each, and the clamp at zero never takes effect |
| `WebhookWorker.StartAllKeepsExact` | src/webhook/webhook-queue.service.ts:271-287 | The dispatch loop keeps the books exact and starts no more jobs than it has room for |
| `WebhookWorker.EndKeepsExact` | src/webhook/webhook-queue.service.ts:371-375 | Ending a job keeps the books exact and lowers the count by exactly one |
| `WebhookConstants.DelayWithinRatio` | src/webhook/webhook.constants.ts:64-81 | Every delay is positive and within a fifth of its base interval, whatever the random number |
| `WebhookConstants.DelaysIncrease` | src/webhook/webhook.constants.ts:24-38 | The wait after a later attempt is longer, whatever the two jitters |
| `WebhookConstants.DelayIsNearest` | src/webhook/webhook.constants.ts:24-81 | The delay after each attempt is the integer nearest to 0.8 to 1.2 times 1, 5, 30, 120 or 720 minutes, as the random number says |
| `WebhookQueueClock.FourWaitsThenDead` | src/webhook/webhook-queue.service.ts:347-367 | A job whose attempts all fail is rewritten exactly four times, at the delays of attempts one to four, and condemned by the fifth failure |
| `WebhookQueueClock.WaitsBounded` | src/webhook/webhook.constants.ts:11-38 | These four waits total between 7,488 and 11,232 seconds, whatever the random numbers |
| `WebhookQueueClock.SessionBounded` | src/webhook/webhook-queue.service.ts:347-367 | Served one after the other, n always-failing deliveries are dead-lettered within n times 11,232 s plus five timeouts and five latencies |
| `WebhookQueueClock.FailingJobsFitIff` | src/webhook/webhook.constants.ts:16-22 | Whatever the responses and jitters, n always-failing deliveries served one after the other finish within the 48-hour key lifetime if and only if n is at most fifteen |
| `WebhookQueueTiming.SessionFinishesInTime` | src/webhook/webhook-queue.service.ts:238-376 | In every failure-free run of the queue with prompt responses and passes, whatever the answers and whatever other sessions do: a session with n deliveries waiting that no more join has them all delivered, dead-lettered or dropped within n times 11,232 s plus five timeouts and five latencies |
| `WebhookQueueTiming.FifteenFinishInTime` | src/webhook/webhook.constants.ts:16-22 | So in such runs without latency up to fifteen deliveries of a session are finished before the keys written for them expire |
| `WebhookQueueFailures.CondemnedStaysIff` | src/webhook/webhook-queue.service.ts:386-405 | A delivery whose attempt condemns it stays queued, with nothing but its row changed, if and only if it has a dead letter already |
| `WebhookQueueDeaths.RequestedWithoutEnd` | src/webhook/webhook-queue.service.ts:386-405 | For every number there is a run from the start, with one crash after a dead letter was inserted and no other failure, in which one delivery is requested that often |
| `WebhookQueueFailures.GetsStuckIff` | src/webhook/webhook-queue.service.ts:371-384 | In every run a step makes a delivery stuck (in its session, off the schedule, without a worker, nothing a sweep rebuilds) if and only if its call ends there, by an exception or with the worker, after taking it off the schedule and not out of its session |
| `WebhookQueueDeaths.SessionGetsStuck` | src/webhook/webhook-queue.service.ts:379-384 | A run without any crash in which an exception in the clean-up leaves a session stuck |
| `WebhookQueueFailures.StuckForGood` | src/webhook/webhook-queue.service.ts:257-264 | In every run a stuck delivery stays stuck through enqueues, passes, exceptions, crashes and restarts, whatever their sweeps revive; its row is final and it is never requested again |
| `WebhookQueueFailures.StuckSilencesSession` | src/webhook/webhook-queue.service.ts:257-264 | From then on every request made for its session has a lower sequence: no later delivery, enqueued already or ever, is requested |
| `WebhookQueueFailures.StuckShutsOut` | src/webhook/webhook-queue.service.ts:257-262 | While a delivery is stuck no pass can pick it or anything behind it, at any time |
| `WebhookQueueFailures.HashLossFreesIff` | src/webhook/webhook-queue.service.ts:466-513 | Whatever hashes have been lost, a restart puts a stuck delivery back on the schedule if and only if its own hash is among them and its row is open; otherwise it stays stuck |
| `WebhookQueueFailures.RetiredForGood` | src/webhook/webhook-queue.service.ts:466-480 | In every run a delivery off the schedule, without a worker and not an open row without a hash stays so: its row is final, it keeps its place, and it is never requested again |
| `WebhookQueueFailures.RowChangesIff` | src/webhook/webhook-queue.service.ts:407-430 | A step changes the row of a delivery if and only if it records the outcome of one of its requests, whatever the row said before |
| `WebhookQueueContents.RecordTells` | src/webhook/webhook-queue.service.ts:325-367 | What each answer writes into the row, column by column, and which command follows with which reason or due time |
| `WebhookQueueContents.RowsTell` | src/webhook/webhook-queue.service.ts:407-430 | In every run the columns of every row agree: response status of the last log entry, time of delivery exactly when delivered, next attempt exactly when failed, nothing before the first attempt |
| `WebhookQueueContents.WaitsAsAnnounced` | src/webhook/webhook-queue.service.ts:353-366 | In failure-free runs a failed delivery waits until exactly the time its row announces, unless it was dropped |
| `WebhookQueueContents.LetterIsFaithful` | src/webhook/webhook-queue.service.ts:391-402 | A dead letter holds merchant, session, event, payload and log of its row and the reason it was given |
| `WebhookQueueDeaths.DeliveredMayBecomeDead` | src/webhook/webhook-queue.service.ts:331-338 | A run with one crash in which a delivery recorded as delivered becomes dead |
| `AmountUtils.ParseIsExact` | src/payments/amount-utils.ts:5-14 | For every decimal numeral and every scale the result is its value times 10^scale, truncated toward zero |
| `AmountUtils.ParseRoundsTowardZero` | src/payments/amount-utils.ts:5-14 | In magnitude the result is the greatest integer that, as so many units of 10^-scale, does not exceed the denoted value |
| `AmountUtils.EqualityIsExact` | src/payments/amount-utils.ts:16-25 | With at most `scale` decimals two amounts compare equal if and only if they denote the same number |
| `AmountUtils.EqualityComparesTruncated` | src/payments/amount-utils.ts:16-25 | With any number of decimals they compare equal if and only if their truncations agree |
| `AmountUtils.MalformedEqualsNothing` | src/payments/amount-utils.ts:16-25 | An amount that cannot be parsed compares equal to nothing |
| `AmountUtils.TruncationLosesDigits` | src/payments/amount-utils.ts:16-25 | Two amounts that differ only in the eighth decimal compare equal |
| `AmountUtils.ZerosDoNotMatter` | src/payments/amount-utils.ts:10-12 | Leading zeros of the whole part, with or without a point, and trailing zeros of a fraction never change the result |
| `AmountUtils.SpacesDoNotMatter` | src/payments/amount-utils.ts:5-8 | Spaces around a numeral never change the result, and nothing but spaces is refused |
| `AmountUtils.PrintThenParse` | src/payments/amount-utils.ts:5-14 | Writing any integer at a scale and parsing it gives the integer back |
| `AmountUtils.FitFraction` | src/payments/amount-utils.ts:11-12 | Padding or cutting the fraction to the scale is multiplication by a power of ten and truncation |
| `CheckoutTables.SameAcceptance` | src/payments/payment-recovery.service.ts:154-161 | The detector and the recovery job accept the same operations for a session |
| `CheckoutTables.AcceptedMeans` | src/payments/payment-detector.service.ts:209-270 | An operation is accepted for a session if and only if it is a payment with its memo, an amount of the same value and its asset, where a session in the native asset takes any |
| `CheckoutTables.PaymentTells` | src/payments/payment-detector.service.ts:160-175 | Every column of a payment row |
| `PaymentRecovery.FindMatch` | src/payments/payment-recovery.service.ts:147-163 | The search returns an accepted record of the list, or nothing when the list has none |
| `PaymentRecovery.FirstIsFound` | src/payments/payment-recovery.service.ts:147-163 | The search returns the first accepted record of the list |
| `PaymentRecovery.SettlementMeans` | src/payments/payment-recovery.service.ts:92-110 | A session is settled by an operation if and only if it is the first accepted one of its receiving account and its transaction succeeded |
| `PaymentRecovery.ConfirmationTells` | src/payments/payment-recovery.service.ts:137-143 | Every field of the confirmation of a recovered session, and that it is the one its payment row leads to |
| `PaymentRecovery.ConfirmationFromTells` | src/payments/payment-recovery.service.ts:197-203 | Every field of the confirmation of a repaired session |
| `PaymentServices.Database.UpdateStatus` | src/checkout/checkout.service.ts:77-80 | An unconditional status update sets status and change time of one session and touches nothing else |
| `PaymentServices.Database.InsertPaymentAndMarkPaid` | src/payments/payment-detector.service.ts:160-180 | The finalizing transaction inserts the payment row unless that transaction already paid this session, and marks the session paid |
| `PaymentServices.CheckoutService.CreateSession` | src/checkout/checkout.service.ts:23-69 | Without a receiving account nothing is created; otherwise the one new session is pending, both times are now, it expires after the configured minutes, and no other session changes |
| `PaymentServices.CheckoutService.GetSession` | src/checkout/checkout.service.ts:71-86 | A pending session past its expiry is shown and stored as expired; any other is shown as it is and nothing changes |
| `PaymentServices.CheckoutService.CancelSession` | src/checkout/checkout.service.ts:99-122 | Exactly a pending session of the merchant is cancelled; the two refusals change nothing |
| `PaymentServices.PaymentDetectorService.LockByMemo` | src/payments/payment-detector.service.ts:215-219 | The lookup returns a session with the memo, and none only when no session has it |
| `PaymentServices.PaymentDetectorService.ClaimSession` | src/payments/payment-detector.service.ts:209-270 | The claim succeeds exactly for a pending session whose terms the operation meets and that it has not paid yet, and only then moves it to processing |
| `PaymentServices.PaymentDetectorService.ProcessPayment` | src/payments/payment-detector.service.ts:143-199 | An operation that may claim the session its memo finds leaves it paid with a payment row and one confirmation, or processing without a confirmation when the second transaction fails; any other changes nothing |
| `PaymentServices.PaymentRecoveryService.ReconcileStuckSession` | src/payments/payment-recovery.service.ts:92-144 | A stuck session is finalized and confirmed when Horizon has a successful matching payment, else reverted if still processing |
| `PaymentServices.PaymentRecoveryService.RecoverStuckProcessing` | src/payments/payment-recovery.service.ts:68-90 | The first pass settles exactly the sessions processing since before five minutes ago, in any order of rows, leaves all others as they are, and sends exactly their confirmations |
| `PaymentServices.PaymentRecoveryService.RecoverPendingWithPayments` | src/payments/payment-recovery.service.ts:174-208 | The second pass marks paid exactly the pending sessions with payments and sends one confirmation per payment |
| `PaymentServices.PaymentRecoveryService.RecoverStuckPending` | src/payments/payment-recovery.service.ts:210-243 | The third pass closes exactly the pending sessions created over five minutes ago: paid with a payment, else expired |
| `PaymentServices.PaymentRecoveryService.RecoverPaidWithoutPayments` | src/payments/payment-recovery.service.ts:245-264 | The fourth pass reports exactly the paid sessions without a payment and changes nothing |
| `PaymentServices.PaymentRecoveryService.RecoverStaleSessions` | src/payments/payment-recovery.service.ts:52-60 | A run is the passes in order; a session processing for five minutes or less is left as it is and none longer remains; each pending one is paid, expired or left by its payments and creation time; and it sends exactly the confirmations of the first two passes |
| `PaymentRecovery.PassConverges` | src/payments/payment-recovery.service.ts:52-60 | After a run every processing session changed status at most 300,000 ms ago, and every pending one was created at most so long ago and has no payment |
| `PaymentRecovery.PassIsIdempotent` | src/payments/payment-recovery.service.ts:52-60 | A second run at the same time changes no row and sends no confirmation |
| `PaymentRecovery.StuckSessionsAreSettled` | src/payments/payment-recovery.service.ts:68-144 | A session processing since more than 300,000 ms ago ends paid if and only if Horizon has its successful payment or a payment row existed; otherwise it expires in the same run, given that it was not changed before it was created |
| `PaymentRecovery.PassLeavesTheRest` | src/payments/payment-recovery.service.ts:68-243 | Sessions that are not pending, nor processing since more than 300,000 ms ago, are untouched and told nothing about, and no payment row is changed or removed |
| `PaymentRecovery.PendingSessionsAreClosed` | src/payments/payment-recovery.service.ts:174-243 | A pending session with a payment becomes paid, one without expires if and only if it was created more than 300,000 ms ago, and otherwise stays as it was |
| `PaymentRecovery.SettleOneMore` | src/payments/payment-recovery.service.ts:83-89 | Settling one more stuck session extends a partial pass by exactly that session |
| `PaymentRecovery.MarkOneMore` | src/payments/payment-recovery.service.ts:223-242 | Marking one more session extends a partial pass by exactly that session |
| `SessionProtocol.PaidImpliesPaidFor` | src/payments/payment-detector.service.ts:143-270 | In every interleaving of reads, claims, finalizers, expiries, cancellations and recovery, with any of them dying: a paid session has a payment row, and every payment row records a reported operation with the session's memo, equal amount and asset |
| `SessionProtocol.RowsRecordOperations` | src/payments/payment-detector.service.ts:156-199 | Behind every payment row is a reported operation of that transaction with the session's memo, amount and asset, and the row holds its amount, asset, issuer and sender and the session's merchant |
| `SessionCalls.ExpiryCall` | src/checkout/checkout.service.ts:71-86 | The protocol's steps for showing a session, run alone: enabled exactly on a pending one past its expiry, and they expire it |
| `SessionCalls.CancelCall` | src/checkout/checkout.service.ts:99-122 | The same for cancelling: exactly a pending session of the merchant |
| `SessionCalls.PaymentCall` | src/payments/payment-detector.service.ts:143-199 | The same for a payment: claimed exactly when it may be, finalized, announced once |
| `SessionCalls.StuckCall` | src/payments/payment-recovery.service.ts:68-144 | The same for a stuck session: taken up exactly when processing for more than 300,000 ms, and settled as the recovery pass settles it |
| `SessionCalls.RepairCall` | src/payments/payment-recovery.service.ts:174-208 | The same for the second pass: exactly pending sessions with a payment |
| `SessionCalls.StaleCall` | src/payments/payment-recovery.service.ts:210-243 | The same for the third pass: exactly pending sessions created more than 300,000 ms ago, paid or expired |
| `SessionProtocol.ClaimsAreAccounted` | src/payments/payment-recovery.service.ts:165-172 | Claims exceed reverts by at most one, exactly one while processing, none while pending |
| `SessionProtocol.RunKeepsInv` | src/payments/payment-recovery.service.ts:92-243 | The invariant behind both, in every state of every run |
| `SessionSinglePayment.OnePaymentPerSession` | src/payments/payment-detector.service.ts:156-199 | However often operations are replayed, a session gets at most one payment row and one detector confirmation in every run that takes up no stuck session while its earlier claim or recovery is under way; in particular in every run without recovery |
| `SessionCounterexamples.PaidMayBeOverwritten` | src/checkout/checkout.service.ts:77-81 | A run in which a paid session with a payment row becomes expired |
| `SessionCounterexamples.OnlyStaleWritesUndoPaid` | src/checkout/checkout.service.ts:77-111 | A step undoes "paid" if and only if it writes an expiry or cancellation of that session that was under way |
| `SessionCounterexamples.PaidStaysIff` | src/checkout/checkout.service.ts:77-111 | In every reachable state a paid session stays paid, however the run goes on, if and only if no expiry or cancellation of it is under way in that state |
| `SessionCounterexamples.SlowFinalizerPaysTwice` | src/payments/payment-detector.service.ts:159-187 | A run in which a session gets two payment rows |
| `SessionCounterexamples.OnlyCommitsAddPayments` | src/payments/payment-recovery.service.ts:112-131 | A payment row of a session is added if and only if a finalizer or a recovery of it commits a transaction not recorded for it yet |
| `SessionCounterexamples.NoFurtherPaymentIff` | src/payments/payment-recovery.service.ts:92-172 | In every reachable state a session with a payment gets no further payment row, however the run goes on, if and only if it is neither pending nor processing, no lookup of it is under way, and every commit of it under way is of a recorded transaction |
| `PaymentCursor.PaymentCursorService.GetLatestCheckpoint` | src/payments/payment-cursor.service.ts:95-99 | The newest checkpoint, or nothing |
| `PaymentCursor.PaymentCursorService.RestoreCursor` | src/payments/payment-cursor.service.ts:49-68 | The restored cursor is never ahead of the stored one nor of the newest checkpoint |
| `PaymentCursor.PaymentCursorService.UpdateCursor` | src/payments/payment-cursor.service.ts:13-20 | The swap succeeds exactly from the expected token or from absence, and otherwise leaves the key |
| `PaymentCursor.PaymentCursorService.AppendCheckpoint` | src/payments/payment-cursor.service.ts:87-93 | The token becomes the newest of at most fifty checkpoints |
| `PaymentCursor.RestoreNeverJumpsAhead` | src/payments/payment-cursor.service.ts:44-68 | For all strings, the restored token is `now`, the stored cursor or the checkpoint, and ahead of neither |
| `PaymentCursor.AheadIsAStrictWeakOrder` | src/payments/payment-cursor.service.ts:135-147 | `isAhead` is a strict weak order on all strings |
| `PaymentCursor.CanonicalTokensAreOrdered` | src/payments/payment-cursor.service.ts:135-147 | Of two numerals without leading zeros one is ahead if and only if it is longer or, at the same length, has the larger digit at the first difference |
| `PaymentCursor.AheadIsLarger` | src/payments/payment-cursor.service.ts:135-147 | For the decimal texts of any two numbers ahead means larger |
| `PaymentCursor.OtherTokensAreOrdered` | src/payments/payment-cursor.service.ts:135-147 | A token that is no numeral is ahead of every numeral and of nothing else |
| `PaymentCursor.RestoresTheSmaller` | src/payments/payment-cursor.service.ts:49-68 | Restoring from two numbers gives the smaller, from the stored one alone that one, and without it `now` |
| `PaymentPolling.PaymentPoller.constructor` | src/payments/payment-detector.service.ts:49-58 | An instance starts from the restored cursor |
| `PaymentPolling.PaymentPoller.ProcessPage` | src/payments/payment-detector.service.ts:93-111 | The page loop processes every record in order, moves the cursor over it, checkpoints it, and flushes every tenth |
| `PaymentPolling.PagesJoin` | src/payments/payment-detector.service.ts:93-111 | Pages of any size have the effect of one long page |
| `PaymentPolling.EveryRecordIsProcessed` | src/payments/payment-detector.service.ts:93-111 | Every record is processed once, in order, with or without a token, and a token moves the cursor to it |
| `PaymentPolling.CheckpointsAreTheLastFifty` | src/payments/payment-cursor.service.ts:87-93 | The checkpoints are the last fifty tokens, the newest first |
| `PaymentPolling.StoredCursorStands` | src/payments/payment-detector.service.ts:96-109 | Once the stored cursor is the instance's own, no number of further operations moves it |
| `PaymentPolling.StoredCursorFreezes` | src/payments/payment-detector.service.ts:96-109 | From nothing stored, the key holds nothing before the tenth operation and the tenth token ever after |
| `PaymentPolling.RestartReplaysFromTheTenth` | src/payments/payment-detector.service.ts:55-109 | So a restart resumes after the tenth operation |
| `CursorProtocol.CommandsMakeRecord` | src/payments/payment-detector.service.ts:93-110 | The commands of one record, left undisturbed, have the effect of the loop body |
| `CursorProtocol.RunKeepsInv` | src/payments/payment-detector.service.ts:83-111 | The invariant of every run of any number of instances: all tokens safe, and an instance inside a page has processed everything before its place |
| `CursorProtocol.EveryTokenIsSafe` | src/payments/payment-detector.service.ts:83-111 | No payment is skipped: with throws, deaths, lost replies and lost keys anywhere, every cursor, the stored cursor and every checkpoint is a token up to which every operation has been processed by some instance |
| `CursorProtocol.NoNumberIsSkipped` | src/payments/payment-detector.service.ts:83-111 | In numbers: every operation not above the stored cursor's, a checkpoint's or an instance's number has been processed |
| `CursorProtocol.AscendingNumbers` | src/stellar/stellar.service.ts:66-84 | A history of decimal texts is one the protocol admits if and only if the numbers go up |
| `CursorProtocol.PageStartsAfter` | src/stellar/stellar.service.ts:66-84 | A page after a number starts at the first larger one, and after `now` at the beginning |
| `CursorProtocol.PagesLeaveNoGap` | src/stellar/stellar.service.ts:66-84 | At every fetch, after a restart or not, every operation before the page has been processed |
| `CursorProtocol.SwapIsToTheNext` | src/payments/payment-cursor.service.ts:13-20 | The stored cursor changes only by being lost, set from nothing, or moved to the very next operation's token |
| `CursorProtocol.StoredCursorOnlyAdvances` | src/payments/payment-cursor.service.ts:70-79 | While Redis keeps the key the stored cursor stays or is ahead of what it was, whoever writes |
| `CursorProtocol.StoredNumberNeverFalls` | src/payments/payment-cursor.service.ts:70-79 | While Redis keeps the key the stored number never goes down |
| `CursorProtocol.CheckpointsBounded` | src/payments/payment-cursor.service.ts:87-93 | In every run of any number of instances the list holds at most fifty checkpoints right after any trim, and later at most as many more as were pushed since |
| `RateLimit.RedisServer.SlidingWindow` | src/api/middleware/rate-limit.service.ts:31-57 | The script prunes, counts, adds if there is room, refreshes the expiry, and reports decision, count and oldest score |
| `RateLimit.RedisServer.FirstByScore` | src/api/middleware/rate-limit.service.ts:50-54 | The reported score is the least of the set |
| `RateLimit.RateLimitService.constructor` | src/api/middleware/rate-limit.service.ts:66-70 | The memory store starts empty |
| `RateLimit.RateLimitService.CheckMemory` | src/api/middleware/rate-limit.service.ts:141-164 | The in-memory check and what it stores for the key |
| `RateLimit.RateLimitService.Check` | src/api/middleware/rate-limit.service.ts:81-94 | Which store records the request and which limit answers, for a healthy, missing or failing Redis, and what `limit`, `degraded` and `retryAfterSeconds` then say |
| `RateLimit.OldestScore` | src/api/middleware/rate-limit.service.ts:50-54 | The oldest score is in the set and no score is less |
| `RateLimitWindows.MemoryRefinesHistory` | src/api/middleware/rate-limit.service.ts:141-164 | With a clock that does not go back, the pruned in-memory list gives the decision, count and oldest entry that the whole history gives |
| `RateLimitWindows.RedisRefinesHistory` | src/api/middleware/rate-limit.service.ts:31-57 | So does the script, whenever Redis lets the key expire after its deadline |
| `RateLimitWindows.OldestAgrees` | src/api/middleware/rate-limit.service.ts:50-56 | The least score of the set is the first entry of the recent history |
| `RateLimitWindows.ExpiryLosesNothing` | src/api/middleware/rate-limit.service.ts:48 | An expired key held nothing that would still count |
| `RateLimitAnswers.EveryWindowIsLimited` | src/api/middleware/rate-limit.service.ts:21-30 | Every half-open minute, at whatever time it ends, holds at most `limit` allowed requests |
| `RateLimitAnswers.RetryAfterIsExact` | src/api/middleware/rate-limit.service.ts:175-179 | After a block, a retry after s whole seconds is allowed if and only if s is at least `retryAfterSeconds`, nothing else being allowed meanwhile |
| `RateLimitAnswers.ResetIsExact` | src/api/middleware/rate-limit.service.ts:176-178 | `resetSeconds` is the first whole second at which the oldest reported request has left the window |
| `RateLimitAnswers.ZeroLimitNeverAllows` | src/api/middleware/rate-limit.service.ts:146-151 | With no limit above zero nothing is ever allowed, though the answer names a wait of a minute |
| `RateLimitAnswers.RemainingIsExact` | src/api/middleware/rate-limit.service.ts:175-175 | After any request, allowed or blocked, that reports `remaining` = k, exactly k more are allowed at the same instant |
| `RateLimitAnswers.ExactlyRemainingMore` | src/api/middleware/rate-limit.service.ts:81-94 | The same for the switching service: of further requests at that instant answered by the same store, exactly `remaining` are allowed, after allowed and blocked answers alike |
| `RateLimitAnswers.AnswerByField` | src/api/middleware/rate-limit.service.ts:81-94 | `degraded` if and only if Redis did not answer; `limit` is the given limit, or the fallback (the configured one, or half, at least one); `retryAfterSeconds` is zero if and only if the request is allowed |
| `RateLimitAnswers.GrantedIsRecorded` | src/api/middleware/rate-limit.service.ts:81-94 | Each answer of the switching service, in all its fields, is the specification's answer for the history of the store that gave it |
| `RateLimitAnswers.SwitchingIsLimited` | src/api/middleware/rate-limit.service.ts:76-94 | However the connection comes and goes, and whatever other instances record, one instance lets through at most limit plus fallback limit in any minute |
| `RateLimitAnswers.DefaultSwitchingIsLimited` | src/api/middleware/rate-limit.service.ts:81-94 | By default that is limit plus half of it, rounded down but at least one |

## Left out

- HTTP to merchants, the Horizon transport and its rate-limit backoff: an oracle gives outcomes and pages; only the page contract is kept.
- HMAC signing, SEP-10, JWT and key hashing: they rest on cryptographic libraries that are not part of this model.
- The detector's distributed lock: its renewal and release read before they act, so no exclusion is assumed and any instance may poll at any time.
- Expiry of webhook keys inside runs of the queue: their lifetime is compared with how long sessions take, and `HashLossFreesIff` and `SweepRebuildsOpen` say what a sweep does after a loss.
- Enqueue split into its commands: two overlapping enqueues of one session could be dispatched out of order between counter and schedule entry, so an enqueue is one step.
- Database reads and the update that follows in `recordDelivery` and `deadLetter` are one step each, and so is `recoverPending`.
- The recovery job's webhook dispatches in the interleaved session runs; they are counted where a recovery run is uninterrupted.
- Rows that fail in a recovery run, or a Horizon lookup that throws: the per-row error handling leaves such a row for the next run.
- `CheckoutService.markAsPaid` and `getSessionPayment`: an unguarded write and a read with no caller in the modelled parts.
- Amounts given as JavaScript numbers: the amounts compared are the database's and Horizon's strings.
- Operations without a paging token in `CursorProtocol`; `PaymentPolling` has them. The polling method has one watched account, and so one pair of keys.
- PaymentPolling.StoredCursorFreezes: one instance whose key does not expire, which is the case that shows the lag; `CursorProtocol` covers all others.
- PaymentPolling.RestartReplaysFromTheTenth: the same single instance.
- SessionSinglePayment.OnePaymentPerSession: its condition is on a whole run and goes one way; the exact condition, on the state once there is a payment, is `NoFurtherPaymentIff`.
- WebhookQueueRequests.RequestsInOrder: one direction for whole runs, because a revived delivery may happen never to be requested again; `RestartKeepsTurnIff` is exact at each restart.
- A sweep is one step with the restart that runs it, before the first pass; passes between its rows are not part of the runs.
- WebhookQueueTiming.SessionFinishesInTime: `latencyMs` bounds the wait of a session's due head for its dispatch, room in the worker included, and bookkeeping commands take no time; a slower worker takes longer.
- WebhookQueueReplays.RequestedFiveTimesAndPerCut: a clean-up cut short while the row is closed counts as cut after the request, even when that call found no target; so the bound may be high by such calls.
- WebhookQueueFailures.GetsStuckIff: a death inside an enqueue leaves a delivery stuck likewise; enqueues are one step in the runs, so that case is covered by `Stuck` itself, from that state on, and by `HalfEnqueuedIsNotRepaired`.
- RateLimitWindows.RedisRefinesHistory: members of the sorted set are taken to be fresh and the clock not to go back, since both come from outside; and the key's deadline is measured on the caller's clock, while `PEXPIRE` runs on that of Redis when the script executes.
- Text ids are numbers, compared as such; the serialized payload is the fields it is made of.
- Dismissing dead letters, queries, `settle`, `resetMemory`, logging, metrics, timers, CORS, guards, validators, audit log and CRUD endpoints: single-branch or wiring code.
