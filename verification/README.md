# Verification of the notification platform's core

A Dafny model of the hard parts of the notification platform, with proofs of what they guarantee.

- `Pipeline*.dfy`, `Backoff.dfy`: the delivery pipeline as a state machine over the broker's queues with their
  unacknowledged messages, the delivery and attempt rows, and every step of the channel workers, the retry worker
  and the dead-letter worker. Publish failures, database failures and worker crashes with redelivery may happen at
  any point. `PipelineSums.dfy` counts over messages, `PipelineLocal.dfy` says what one action keeps,
  `PipelineSafety.dfy` has the invariant of the whole system, `PipelineTheorems.dfy` the guarantees over all runs,
  `PipelineLog.dfy` what rows, messages and verdicts owe to the steps of the run.
- `Workers.dfy`: the workers' loops as imperative code over that broker and database, each proved to be a run of the
  state machine with a stated net effect.
- `Notifications.dfy`, `NotificationTheorems.dfy`: accepting notifications and routing scheduled ones, with a
  failure after any number of operations.
- `RateLimit.dfy`: the fixed-window limiter over Redis counters, with commands of many callers interleaved.
- `Lockout.dfy`, `Sessions.dfy`, `BrowserTab.dfy`, `TabWithServer.dfy`: the login lockout, refresh-token rotation,
  the browser client's single refresh in flight, and client and server together.
- `WebSocketHub.dfy`: the hub's client set, its index by tenant, and the bounded send buffers.
- `TableOrder.dfy`, `TableQuery.dfy`: the list query of the admin API: filter, stable sort, page, and a handler that
  pages by itself behind it.
- `Redact.dfy`, `Template.dfy`, `QueueName.dfy`: redaction and recipient masking, placeholder rendering, and
  queue names with the table that stores them.
- `Common.dfy`, `Text.dfy`: shared vocabulary, 64-bit wrap-around, ASCII strings.

Where a worker, service, hub, store or array is changed in place the model is a class or a loop, proved against a
function; the theorems are about that function. The environment's answers (database, broker, provider, Redis, random
tokens, clocks, the order of concurrent events) are parameters or arbitrary steps.

Some guarantees are not what the names in the code or its documentation suggest. The model follows the code:

- `MaxDeliveryTries` is compared with an attempt number that grows twice per round, so a delivery is sent
  floor(max/2)+1 times: twice with the default of 3.
- `docs/implementation-status.md` (line 239) gives the back-off as 2^attempt minutes; the code waits 2^(attempt-1).
- The tenant columns `max_attempts` and `retry_delay_seconds` are not read by the retry worker, so no limit here
  depends on them.
- `Send` publishes before it commits, so a worker can find no delivery row: an accepted message is then recorded nowhere,
  and its job goes to the retry queue (`PipelineTheorems.CommitCanLoseTheRace`).
- Descending order is not an order on values that differ only by case (`TableOrder.OrderIff`).
- A handler that pages by itself shows nothing from page 2 on (`TableQuery.PagedTwiceIsEmptyAfterFirst`).
- From a limit of 30 on the retry worker's longest waits wrap
  (`Backoff.TotalWaitIff`), and from attempt 54 on there is none (`Backoff.NoSleepFrom54`).
- Signing out while a refresh is in flight may not last (`TabWithServer.SignOutIsFinalIff`).
- Masking runs after redaction, so a masked token shows nothing of the token (`Redact.MaskRecipientByField`).

## Model

| member | source | states |
|---|---|---|
| `PipelineTheorems.NothingIsLost` | notification-core-api/internal/delivery/worker.go:36-64 | Over every run, with crashes, redeliveries and database failures anywhere: a published delivery has a queued or unacknowledged message or was acknowledged as sent (then with a `sent` attempt row), blocked, dead or lost; holders plus settlements number one plus the duplicates; it is lost only by a failed publish of its own job. |
| `PipelineTheorems.AttemptParity` | notification-core-api/internal/delivery/worker.go:54-60 | In every reachable state a job is in a channel queue exactly when its attempt number is even; dead-lettered jobs have reached the limit; attempt numbers never exceed limit + 1 and stay within 64 bits. |
| `PipelineTheorems.SendsAreBounded` | notification-core-api/internal/retry/service.go:73-91 | A delivery is sent at most floor(max/2)+1 times per crash-free life, exactly that often if it is dead-lettered without crashes. The retry worker then slept (4^k-1)/3 minutes for it, k being half the limit, if and only if the limit is at most 29, and less above. The configured limit is not the number of sends. |
| `PipelineTheorems.RunLengthIsBounded` | notification-core-api/internal/retry/service.go:57-100 | The retry loop terminates: every run is at most a fixed multiple of the messages and crashes injected, plus two per requeue and one per committed row. |
| `PipelineTheorems.Progress` | notification-core-api/internal/delivery/worker.go:32-65 | No reachable message is stuck: its handler always has a next step that is neither a crash nor a requeue. |
| `PipelineTheorems.RestMeansSettled` | notification-core-api/internal/delivery/worker.go:32-65 | When no worker has anything left to do but crash or requeue, every published delivery is sent, blocked or dead, or lost by a failed publish of its own job. |
| `PipelineTheorems.RowLifecycle` | notification-core-api/internal/delivery/worker.go:84-116 | Without crashes and database failures, and as long as every worker with something to write found the row committed (an instant request commits after it publishes): attempt rows number the sends, at most the last is `sent`, `delivered_at` is set exactly with status `sent`, `dead` means a full budget of failed attempts; until the commit the delivery is live and sent at most once. |
| `PipelineTheorems.RowEndsRightIff` | notification-core-api/internal/delivery/worker.go:84-116 | A faultless delivery ends with one attempt row per send and the status of its verdict exactly when no worker had an accepted send, an attempt, a block or a burial to write before the row was committed. |
| `PipelineTheorems.CommitCanLoseTheRace` | notification-core-api/internal/notifications/service.go:154-162 | That can fail with nothing going wrong: a run in which the provider accepts the message before the commit, and the row is then that of a delivery never attempted while the job waits in the retry queue. |
| `PipelineTheorems.SettledStepIsFinal` | notification-core-api/internal/delivery/worker.go:73-79 | Once a delivery without a crash is settled and its row committed, no single step changes that row or its history, whatever the database did before. |
| `PipelineTheorems.SettledRowIsFinal` | notification-core-api/internal/retry/service.go:42-53 | `sent`, `blocked` and `dead` never change again over any continuation without a crash of that delivery, also after database failures and late commits. |
| `PipelineTheorems.RolledBackJobIsNeverSettledAsSent` | notification-core-api/internal/delivery/worker.go:104-115 | A job whose delivery row was never committed can be sent but never settles as sent: its attempt insert breaks the foreign key; without crashes it ends blocked, lost, or dead after exactly its budget of sends. |
| `PipelineLog.JobsReachTheirWorker` | notification-core-api/internal/retry/service.go:102-115 | In every reachable state a queued or unacknowledged job is one that was published, with nothing changed but its attempt number, and is in the retry queue, the dead queue, or the queue whose worker serves its channel: email, sms, fcm and websocket each their own, the router every other. |
| `PipelineLog.RowIsReplayed` | notification-core-api/internal/delivery/worker.go:68-116 | Over every run, with crashes, redeliveries and duplicates: the delivery row is the replay of the statements that succeeded since its commit; each status and attempt stored is the provider's last answer to that worker. |
| `PipelineLog.SentOnlyWhenActive` | notification-core-api/internal/delivery/worker.go:42-54 | The provider is only ever called for a message that the tenant's queue control let pass since the message was fetched. |
| `PipelineLog.VerdictsAreCaused` | notification-core-api/internal/delivery/worker.go:36-64 | Over every run: sent needs an accepted send, blocked a stopped queue, dead a burial, lost a failed publish; the history counts exactly the sends, the crashes and the failed writes, and remembers exactly the writes that found no row. |
| `PipelineSafety.StepKeepsInv` | notification-core-api/internal/delivery/worker.go:36-64 | The invariant of the whole system (numbering, parity, conservation, send budget, exact counts, rows) is kept by every step of every worker, the broker and the publishers. |
| `PipelineSafety.RunKeepsInv` | notification-core-api/internal/delivery/worker.go:32-65 | The same invariant over whole runs. |
| `PipelineSafety.CleanHolderIsAlone` | notification-core-api/internal/delivery/worker.go:54-63 | A delivery without a crash has either one message that answers for it or one settlement, never two of either. |
| `PipelineLocal.ActConserves` | notification-core-api/internal/delivery/worker.go:54-63 | One action of any worker moves the count of holders plus settlements only by the duplicates of a crash. |
| `PipelineLocal.ActSpendsSends` | notification-core-api/internal/retry/service.go:73-91 | Sends made plus sends still possible never grow, except by one budget at a crash. |
| `PipelineLocal.ActPaysWork` | notification-core-api/internal/retry/service.go:57-100 | Every action that is not a crash or a requeue lowers the remaining work of the message and of what it publishes. |
| `PipelineLocal.ActKeepsExact` | notification-core-api/internal/retry/service.go:73-91 | Without a crash the exact number of sends and of nanoseconds slept, products wrapped as in the code, follows from the queue, stage and attempt number. |
| `PipelineLocal.ActKeepsPicture` | notification-core-api/internal/delivery/worker.go:84-116 | Without crash or database failure, and as long as the workers find the row, it follows the stage of its message; before the commit nothing has had to be written. |
| `PipelineLocal.ActKeepsSpoiled` | notification-core-api/internal/delivery/worker.go:104-115 | Once a worker has missed the row, an attempt row or the outcome stays missing through every further action, even when the row is committed. |
| `Backoff.TotalMinutesClosedForm` | notification-core-api/internal/retry/service.go:28-30 | The waits intended for a job always retried sum to (4^k-1)/3 minutes. |
| `Backoff.TotalWaitIff` | notification-core-api/internal/retry/service.go:28-30 | The time really slept, with products wrapped and negative waits returning at once, is (4^k-1)/3 minutes if and only if the limit is at most 29, and less above. |
| `Backoff.BackoffExactIffSmallLimit` | notification-core-api/internal/retry/service.go:28-30 | All waits below the limit are the intended power of two of minutes exactly when the limit is at most 29. |
| `Backoff.BackoffWrapsNegative` | notification-core-api/internal/retry/service.go:28-30 | At attempt 29 the 64-bit nanosecond product wraps below zero. |
| `Backoff.NoSleepFrom54` | notification-core-api/internal/retry/service.go:28-30 | From attempt 54 on the product is a multiple of 2^64, so the worker does not wait at all. |
| `Workers.Platform.Perform` | notification-core-api/internal/delivery/worker.go:68-116 | One broker or database operation of a handler, in place on the queues and tables: it is one step of the state machine and the handler's tracked effect moves by exactly that action. |
| `Workers.Platform.Handle` | notification-core-api/internal/delivery/worker.go:84-116 | `handle`: mark, send, store, record with any of them failing; the row, the history and the returned error are those of the specification. |
| `Workers.Platform.DeliverJob` | notification-core-api/internal/delivery/worker.go:36-64 | One iteration of the channel worker is a legal crash-free run, with its net effect on message, row and history for every answer of the environment. |
| `Workers.Platform.RetryJob` | notification-core-api/internal/retry/service.go:67-98 | One iteration of the retry worker is a legal crash-free run with its net effect; the job is never kept: below the limit it goes, one attempt later, to the queue whose worker serves its channel, from the limit on to the dead queue as it is, or it is lost. |
| `Workers.Platform.BuryJob` | notification-core-api/internal/retry/service.go:42-53 | The same for one iteration of the dead-letter worker, acknowledged even if the row is not written. |
| `Workers.Platform.Consume` | notification-core-api/internal/delivery/worker.go:36-64 | An iteration of whichever worker consumes the queue has that worker's net effect, keeps the system invariant and leaves other messages alone; the consumed message is gone exactly unless its queue control puts it back, and the provider is called exactly when the control is active. |
| `Workers.Platform.RunWorkers` | notification-core-api/internal/delivery/worker.go:26-66 | The loops of the channel, retry and dead-letter workers, their iterations in any order over any batch of messages: a legal crash-free run that keeps the system invariant; of the batch exactly the messages put back by their queue control remain, and each delivery was sent once per iteration its control let pass. |
| `NotificationTheorems.SendAcceptsIff` | notification-core-api/internal/notifications/service.go:74-166 | A request is accepted exactly when an active tenant names a channel, all checks pass, the time of a scheduled one is well formed, and none of its database and broker operations fails: four, or three and three per channel. |
| `NotificationTheorems.RefusedSendLeavesNoRow` | notification-core-api/internal/notifications/service.go:118-162 | If `Send` fails anywhere, no notification, delivery or scheduled row remains. What it had published stays: exactly the jobs of the channels before the failing operation, in order, none with a delivery row. |
| `NotificationTheorems.RefusedJobsNeverGetRows` | notification-core-api/internal/notifications/service.go:118-162 | A job published by a refused request never gets a delivery row, over every history of later requests and scheduler passes. |
| `NotificationTheorems.AcceptedSendPublishesEachChannel` | notification-core-api/internal/notifications/service.go:140-165 | An accepted instant request leaves one note whose payload is the data overridden by the recipient's fields, and exactly one new committed delivery row and one published job per channel entry, in order and matching, each in the queue that serves its channel. |
| `NotificationTheorems.AcceptedScheduledSendPublishesNothing` | notification-core-api/internal/notifications/service.go:135-139 | An accepted scheduled request leaves its note and one pending job with its due time and publishes nothing. |
| `NotificationTheorems.RoutedMeansPublished` | notification-core-api/internal/notifications/service.go:181-216 | Over any history of requests and scheduler passes, whatever failed in them, a job is marked `queued` only when every listed channel has a delivery row and a published job. |
| `NotificationTheorems.EveryPublicationIsServed` | notification-core-api/internal/notifications/service.go:220-233 | Over every history of requests and scheduler passes, whatever failed in them: each published job is in the queue whose worker serves its channel, and if its notification was committed the channel is one of those listed and the payload is that notification's. |
| `NotificationTheorems.PassPublishesInOrder` | notification-core-api/internal/notifications/service.go:181-216 | Whatever fails in it, a pass publishes the channels of its jobs in order, job by job, up to the place where it fails. |
| `NotificationTheorems.PassSucceedsIff` | notification-core-api/internal/notifications/service.go:181-217 | A pass succeeds exactly when none of its operations fails: three per channel entry and one per job. |
| `NotificationTheorems.NothingIsRoutedEarly` | notification-core-api/internal/notifications/service.go:169-175 | A pass publishes only for jobs that are pending and due, and takes back nothing published before. |
| `NotificationTheorems.NothingIsRoutedBeforeDue` | notification-core-api/internal/notifications/service.go:169-175 | Over every history, whatever failed in it: as long as no pass has run at or after its due time, a scheduled job is pending and nothing has been published for it. |
| `NotificationTheorems.CleanPassRoutesBatch` | notification-core-api/internal/notifications/service.go:181-217 | A pass in which nothing fails marks exactly its batch. |
| `NotificationTheorems.CleanPassDeliversOnce` | notification-core-api/internal/notifications/service.go:200-215 | Without failures each list entry of each job of the batch yields exactly one publication and one delivery row, other notifications gain none, and no other row appears. |
| `NotificationTheorems.CleanPassIsRound` | notification-core-api/internal/notifications/service.go:169-217 | A failure-free pass takes exactly its batch off the pending jobs. |
| `NotificationTheorems.SendingArrives` | notification-core-api/internal/notifications/service.go:135-139 | An accepted scheduled request is one more pending job with its due time; every other request leaves the pending jobs alone. |
| `NotificationTheorems.RoundTakesEarliest` | notification-core-api/internal/notifications/service.go:173-175 | A pass takes a hundred of the jobs due by t, or all of them, the earliest first. |
| `NotificationTheorems.DueJobsDrain` | notification-core-api/internal/notifications/service.go:169-217 | Over histories of requests and failure-free passes at or after t: n jobs due by t are gone after ceil(n/100) passes, if the requests accepted meanwhile schedule only for later. |
| `Notifications.Service.Send` | notification-core-api/internal/notifications/service.go:74-166 | The loop over the channels, publishing before the commit, leaves the committed tables and the broker as the specification says for a failure at every possible point. |
| `Notifications.Service.RouteOne` | notification-core-api/internal/notifications/service.go:200-215 | The loop over one job's channels, each row committed on its own, stops where the first operation fails. |
| `Notifications.Service.RouteDueScheduled` | notification-core-api/internal/notifications/service.go:168-218 | A pass over the batch the query returned is the fold of its jobs, stopped at the first failure. |
| `RateLimit.LifeAdmitsAtMostLimit` | notification-core-api/internal/ratelimit/service.go:73-84 | Within one life of the key the admitted calls whose limit is at most L number at most L, though channels with different limits share the key. |
| `RateLimit.WindowAdmitsLessThanTwice` | notification-core-api/internal/ratelimit/service.go:73-84 | Any half-open interval as long as the window admits at most 2L-1 calls with limits up to L, over any interleaving of the commands. |
| `RateLimit.WindowBoundIsReached` | notification-core-api/internal/ratelimit/service.go:73-84 | That bound is reached by every limit and every window of at least two ticks: 2L-1 calls in one window. |
| `RateLimit.DayAdmitsAtMostQuota` | notification-core-api/internal/ratelimit/service.go:40-41 | The day-stamped key cannot restart inside its day, so at most the quota of calls is admitted in it. |
| `RateLimit.LostExpireNeverRestarts` | notification-core-api/internal/ratelimit/service.go:78-82 | If the EXPIRE of a new key is lost the key never restarts. |
| `RateLimit.AllowKeyIsCommands` | notification-core-api/internal/ratelimit/service.go:73-84 | A call of the limiter is the commands whose interleavings the bounds are about; its admitted calls are their grants. |
| `RateLimit.Limiter.AllowKey` | notification-core-api/internal/ratelimit/service.go:73-84 | INCR, then EXPIRE by the call that created the key: the key's new state and the answer for every failure. |
| `RateLimit.Limiter.LoadLimits` | notification-core-api/internal/ratelimit/service.go:44-71 | A cache entry younger than five minutes, or the row: its rate if positive or 100, its quota if positive or 50000, cached with the present time. |
| `RateLimit.Limiter.Allow` | notification-core-api/internal/ratelimit/service.go:32-42 | One call on the counters and the limits in force: those cached in the last five minutes, or else the row's. |
| `RateLimit.AllowedIff` | notification-core-api/internal/ratelimit/service.go:32-42 | When a call is admitted, denied or fails, in the uses of the two keys, both limits and the commands that succeed; the day's count is only touched by a call that the rate key let pass. |
| `RateLimit.RateHolds` | notification-core-api/internal/ratelimit/service.go:37-39 | Over any sequence of calls under one row, whatever channels and whatever Redis failures: in each life of a tenant's rate key at most the row's rate of the tenant's calls are admitted. |
| `RateLimit.QuotaHolds` | notification-core-api/internal/ratelimit/service.go:40-41 | And at most the row's quota of a channel's calls on one day. |
| `RateLimit.Limiter.AllowAll` | notification-core-api/internal/ratelimit/service.go:32-71 | The calls made one after the other in place, the row read or cached each time, are answered so: at most r of the row (r, q) in each life of the rate key and at most q on each day, with 100 and 50000 for limits that are not positive. |
| `Lockout.FailureRateIsBounded` | notification-core-api/internal/auth/auth.go:78-86 | Over any time T and from any state of the account the recorded failed comparisons number at most max(1, maxFailures) times one more than the recorded successes, plus floor(T/lockout). |
| `Lockout.AllowanceIsReached` | notification-core-api/internal/auth/auth.go:361-368 | The bound is exact: from any state that many failures do fit, for a new account maxFailures + floor(T/lockout). |
| `Lockout.FailureSpendsAllowance` | notification-core-api/internal/auth/auth.go:361-368 | Every login leaves an allowance smaller by one if it was a recorded failure; only a recorded success raises it, by at most max(1, maxFailures). |
| `Lockout.SuccessRestoresAllowance` | notification-core-api/internal/auth/auth.go:78-105 | A recorded success leaves an account that no time finds locked and that has a new account's allowance; a locked account and a right password that is not served or not recorded change nothing. |
| `Lockout.ZeroLockoutBoundsNothing` | notification-core-api/internal/auth/auth.go:361-368 | With a lockout of zero any number of failures fits into no time. |
| `Lockout.User.TryPassword` | notification-core-api/internal/auth/auth.go:78-105 | The lock check, the failure record and the reset, in place, for every outcome of the password, the session and the database. |
| `Sessions.LineageHasOneActiveSession` | notification-core-api/internal/auth/auth.go:340-359 | Over any serialised logins, refreshes and logouts, whatever fails in them, each session lineage has at most one active session. |
| `Sessions.SpentTokenNeverRefreshes` | notification-core-api/internal/auth/auth.go:263-292 | A rotated or revoked token never refreshes again, after any later requests. |
| `Sessions.RefreshMovesLineage` | notification-core-api/internal/auth/auth.go:263-292 | A successful refresh spends the old token and makes the new one the only active one of the lineage, for the same user; other sessions stay. |
| `Sessions.LogoutIsFinal` | notification-core-api/internal/auth/auth.go:294-297 | After a logout that reached the database no later requests make the token refresh again; no other session changes. |
| `Sessions.FailedInsertEndsLineage` | notification-core-api/internal/auth/auth.go:280-290 | When the new session of a refresh cannot be stored, the rotation stands: the lineage has no active session, then or after any later requests. |
| `Sessions.SessionsComeFromLogins` | notification-core-api/internal/auth/auth.go:340-359 | Every session belongs to the user and lineage of a login that was made, and expires as the request that drew its token said. |
| `Sessions.SessionStore.RefreshToken` | notification-core-api/internal/auth/auth.go:263-292 | Read, rotate, create, in place, for every point of failure, keeping one active session per lineage. |
| `Sessions.SessionStore.CreateSession` | notification-core-api/internal/auth/auth.go:340-359 | A new active session under the caller's trace id, or no change. |
| `Sessions.SessionStore.Revoke` | notification-core-api/internal/auth/auth.go:294-297 | Logout marks the session of the token revoked, keeps every other session as it is, and changes nothing if the database fails. |
| `BrowserTab.RefreshIsSingleFlight` | notification-admin-ui/src/api/client.ts:71-91 | Over any interleaving of requests in one tab the refreshes sent outnumber those answered by at most one, and none is sent while one is unanswered. |
| `BrowserTab.SpentTokenIsNeverSent` | notification-admin-ui/src/api/client.ts:71-91 | A token whose refresh has succeeded is never submitted again, whatever happens in the tab. |
| `BrowserTab.CallersShareOneAnswer` | notification-admin-ui/src/api/client.ts:56-60 | All who wait for a refresh, and those who join until its promise is cleaned up, are told the same: repeat the request if it brought a token, give up if not; then the next request can send another refresh. |
| `BrowserTab.CallersAreAnsweredOnce` | notification-admin-ui/src/api/client.ts:56-60 | Every call that found a token waits or has been told its answer exactly once. |
| `BrowserTab.Client.RunEvents` | notification-admin-ui/src/api/client.ts:71-99 | Any sequence of requests, replies, cleanups, logouts and logins in the tab keeps its state sound and sends exactly the specified refreshes, none with a token used up before. |
| `BrowserTab.Client.RefreshAccessToken` | notification-admin-ui/src/api/client.ts:71-91 | A caller sends a fetch only when no refresh is under way, joins it otherwise, and sends nothing without a token. |
| `BrowserTab.Client.OnResponse` | notification-admin-ui/src/api/client.ts:79-86 | The reply stores the new token, or nothing when it failed. |
| `BrowserTab.Client.OnSettled` | notification-admin-ui/src/api/client.ts:86-88 | The promise is dropped after its result is known. |
| `BrowserTab.Client.ClearAuth` | notification-admin-ui/src/api/client.ts:93-99 | Clearing forgets the token and leaves a refresh in flight alone. |
| `TabWithServer.SubmittedTokenIsAccepted` | notification-admin-ui/src/api/client.ts:71-91 | Tab and server together: as long as no reply and no new session is lost, every token the tab submits is accepted, unless expired, of an inactive user, or the database fails. |
| `TabWithServer.LostReplyEndsSession` | notification-core-api/internal/auth/auth.go:280-291 | After one lost reply to a successful refresh the server never accepts the token the tab still holds. |
| `TabWithServer.LostReplyHappens` | notification-admin-ui/src/api/client.ts:71-91 | Such a loss is reachable: a login, an expired access token and a served refresh lead to it without any other fault. |
| `TabWithServer.SignOutIsFinalIff` | notification-admin-ui/src/api/client.ts:71-99 | A sign-out leaves the tab without a token until somebody signs in, whatever else happens, exactly when no refresh is in flight whose reply carries a token or that the server would still accept. |
| `TabWithServer.SignOutEndsHeldToken` | notification-core-api/internal/auth/auth.go:294-297 | The token the tab held when the server heard of its sign-out is revoked and never active again, and no other session changes. |
| `TabWithServer.SignOutCanBeUndone` | notification-admin-ui/src/api/client.ts:79-84 | Otherwise it can come back: a run that signs out while the reply to a served refresh is on its way, the server hearing of it, and ends with an active token in the tab. |
| `TabWithServer.StepKeepsGood` | notification-core-api/internal/auth/auth.go:263-292 | The token in a reply under way is active, and the stored one too unless it is the one just rotated for that reply. |
| `WebSocketHub.Hub.Run` | notification-core-api/internal/websocket/hub.go:45-84 | Any interleaving of joins, leaves, broadcasts and pump turns keeps index and clients in agreement, leaves exactly the members connected, closes each departed channel exactly once, never sends on or closes a closed one, keeps the sent counter at broadcasts enqueued plus dropped, and leaves every client's buffer as the broadcasts meant for it while connected and its own pump turns make it. |
| `WebSocketHub.ConnectedGetsAll` | notification-core-api/internal/websocket/hub.go:86-108 | A connected client whose 64 places suffice gets exactly the deliveries broadcast to its tenant or user, in order, over any interleaving. |
| `WebSocketHub.NobodyGetsOthers` | notification-core-api/internal/websocket/hub.go:86-108 | What any client gets is a selection, in order, of the deliveries broadcast to its own tenant or user; one that is not connected gets none. |
| `WebSocketHub.ConnectedIff` | notification-core-api/internal/websocket/hub.go:50-80 | After any such interleaving exactly the clients that joined and have not left are connected. |
| `WebSocketHub.Hub.Join` | notification-core-api/internal/websocket/hub.go:50-57 | Joining keeps the index in agreement and adds exactly that client. |
| `WebSocketHub.Hub.Leave` | notification-core-api/internal/websocket/hub.go:65-78 | Leaving removes the client, closes its channel once and drops an empty entry; an absent client changes nothing at all. |
| `WebSocketHub.JoinThenPartIsIdentity` | notification-core-api/internal/websocket/hub.go:50-75 | A client that joins and leaves leaves no trace in the index. |
| `WebSocketHub.SizesSumToConnections` | notification-core-api/internal/websocket/hub.go:110-120 | The sizes of the tenants' entries sum to the number of connections. |
| `WebSocketHub.EntryIsTenantsClients` | notification-core-api/internal/websocket/hub.go:86-95 | A tenant's entry is the set of all connected clients of that tenant. |
| `WebSocketHub.Hub.BroadcastToTenant` | notification-core-api/internal/websocket/hub.go:86-95 | Exactly the tenant's clients are offered the delivery, in order at the end of their buffers; the sent counter grows by their number, the dropped ones being those with full buffers. |
| `WebSocketHub.Hub.BroadcastToUser` | notification-core-api/internal/websocket/hub.go:97-108 | Exactly the tenant's clients of one external user are offered the delivery; sent and dropped counters grow by their number and by those with full buffers. |
| `WebSocketHub.Hub.ActiveConnections` | notification-core-api/internal/websocket/hub.go:110-114 | The number of connections, which is the sum over the tenants. |
| `WebSocketHub.Hub.ActiveByTenant` | notification-core-api/internal/websocket/hub.go:116-120 | The number of connected clients of the tenant. |
| `WebSocketHub.Client.SendDelivery` | notification-core-api/internal/websocket/client.go:117-127 | The buffer takes a delivery at its end exactly when fewer than 64 wait; what was accepted is always what was taken, then what waits, in order. |
| `WebSocketHub.Client.Pump` | notification-core-api/internal/websocket/client.go:95-105 | A turn takes the oldest delivery, waits on an empty open channel, and ends on an empty closed one. |
| `WebSocketHub.Client.DrainClosed` | notification-core-api/internal/websocket/client.go:91-115 | A closed channel is still drained in order, so everything it accepted has gone through it. |
| `TableOrder.OrderIff` | notification-core-api/internal/http/middleware/middleware.go:305-312 | The ascending comparator is a strict weak order on all values; the descending one exactly on those of which no two differ only by case. |
| `TableOrder.LexLessIff` | notification-core-api/internal/http/middleware/middleware.go:307 | The comparison is the dictionary order: the first place where two texts differ decides, and there the smaller character or the end of the text comes first. |
| `TableOrder.Sort` | notification-core-api/internal/http/middleware/middleware.go:303-313 | The in-place stable insertion sort computes the specified order for any comparator. |
| `TableOrder.SortKeepsRows` | notification-core-api/internal/http/middleware/middleware.go:303-313 | Whatever the comparator, each row is in the result as often as before. |
| `TableOrder.SortIsStable` | notification-core-api/internal/http/middleware/middleware.go:303-313 | Where the comparator is an order the result holds every row once, in dictionary order of the lower-cased value, reversed when descending, rows of equal value in their old order. |
| `TableOrder.StableSortIsUnique` | notification-core-api/internal/http/middleware/middleware.go:303-313 | That requirement determines the result, so any other stable sort gives the same rows. |
| `TableQuery.FilterKeepsExactly` | notification-core-api/internal/http/middleware/middleware.go:287-301 | Search and filters keep exactly the object entries in whose JSON text the trimmed search text occurs and whose filtered fields have the filters' values, up to case; a missing field has the value `<nil>`. |
| `TableQuery.UnchangedIff` | notification-core-api/internal/http/middleware/middleware.go:257-285 | A response is left alone exactly when it is no list or the query has no search, order, page or page size and no parameter named like a filter. |
| `TableQuery.PositiveIntReads` | notification-core-api/internal/http/middleware/middleware.go:359-365 | A number parameter is read as its decimal value within 64 bits; zero, negative, larger and malformed ones are the fallback. |
| `TableQuery.FilterConcat` | notification-core-api/internal/http/middleware/middleware.go:287-301 | Entries are filtered independently and in order: filtering two lists joined is joining the two results, so no kept row is dropped, repeated or moved. |
| `TableQuery.FilterTwice` | notification-core-api/internal/http/middleware/middleware.go:347-358 | Filtering the kept rows again keeps all of them, in order. |
| `TableQuery.MatchesFilters` | notification-core-api/internal/http/middleware/middleware.go:347-358 | The loop over the query parameters answers whether all non-empty filters match up to case. |
| `TableQuery.PagesAreTheList` | notification-core-api/internal/http/middleware/middleware.go:314-333 | Pages 1 to total_pages joined are the list; all but the last are full; later pages are empty. |
| `TableQuery.TotalPagesIsCeiling` | notification-core-api/internal/http/middleware/middleware.go:333 | total_pages is at least one and the least number of pages that hold the list. |
| `TableQuery.SafeIff` | notification-core-api/internal/http/middleware/middleware.go:319-328 | The slice bounds hold exactly when the wrapped 64-bit offset is not negative, and are the page's own exactly when the offset fits or wraps past the end. |
| `TableQuery.SafePages` | notification-core-api/internal/http/middleware/middleware.go:319-328 | Every page up to (2^63-1)/100 is safe and its own, whatever the page size. |
| `TableQuery.UnsafePages` | notification-core-api/internal/http/middleware/middleware.go:319-328 | With a hundred rows a page: the first page whose offset wraps negative, and a page that wraps to the first. |
| `TableQuery.PagesServeEveryRow` | notification-core-api/internal/http/middleware/middleware.go:286-333 | Filter, sort and slice together: over all its pages an endpoint serves exactly the kept rows, each as often as it was kept, for every comparator; stably sorted where the comparator is an order. |
| `TableQuery.AskedPageIsServed` | notification-core-api/internal/http/middleware/middleware.go:254-336 | The whole middleware on a well-formed query: the page asked for, of the rows per page asked for up to 100, by default page 1 and 25 rows, of the kept rows in the order asked for, with its meta data. |
| `TableQuery.DataTableQuery` | notification-core-api/internal/http/middleware/middleware.go:254-336 | The whole middleware, loop by loop, gives the specified outcome: unchanged, failing, or the page and its meta data. |
| `TableQuery.PageOfPage` | notification-core-api/internal/http/handlers/handlers.go:2464-2477 | The slice of a slice is one slice of the list, clamped to the first. |
| `TableQuery.HandlerRowsArePage` | notification-core-api/internal/http/handlers/handlers.go:2464-2477 | A handler's own paging returns the page it names, on the page number the middleware reads too, with 20 rows by default and at most 100. |
| `TableQuery.PagedTwiceIsEmptyAfterFirst` | notification-core-api/internal/http/middleware/middleware.go:233-235 | A handler that pages by itself behind the middleware: page 1 comes through, every later page is empty, and the total is the length of the handler's page. |
| `Redact.RedactMap` | notification-core-api/internal/security/redact.go:101-116 | The loop over a fresh map, recursing into nested maps, computes the redaction. |
| `Redact.HidesExactlySecrets` | notification-core-api/internal/security/redact.go:101-116 | Two inputs give the same output exactly when they differ only under secret-named keys reached through nested maps. |
| `Redact.PathsOfRedacted` | notification-core-api/internal/security/redact.go:101-116 | Along every path of keys: nothing below a secret key, the marker at it, and everywhere else the same leaf or an object with the same keys. |
| `Redact.RedactTwice` | notification-core-api/internal/security/redact.go:101-116 | Redaction is idempotent. |
| `Redact.ArraysComeThrough` | notification-core-api/internal/security/redact.go:109-113 | An array reached without passing a secret key is passed on unchanged, at any depth, whatever its elements hold. |
| `Redact.TokenFieldsAreSecret` | notification-core-api/internal/security/redact.go:79 | The three token fields count as secret keys, email and phone do not. |
| `Redact.SecretIff` | notification-core-api/internal/security/redact.go:174-181 | A key is secret exactly when one of the seven words occurs in its lower-cased name, at any place. |
| `Redact.RedactedEmailShows` | notification-core-api/internal/security/redact.go:133-139 | An address with one @ sign and two characters before it shows its first character and its domain; anything else nothing. |
| `Redact.PhonesMaskedAlikeIff` | notification-core-api/internal/security/redact.go:141-149 | Two phone numbers are masked alike exactly when both are shorter than five, or of five and six with the same first two and last, or longer with the same first and last three characters. |
| `Redact.MaskRecipientMap` | notification-core-api/internal/http/handlers/handlers.go:2448-2462 | The masking steps on the redacted copy compute the specified result. |
| `Redact.MaskRecipientByField` | notification-core-api/internal/http/handlers/handlers.go:2448-2462 | Masking works field by field, adds and drops none, and each of the three token fields always ends as one and the same constant. |
| `Redact.MaskingHidesSecrets` | notification-core-api/internal/http/handlers/handlers.go:2448-2462 | Recipients that differ only under secret keys, the tokens among them, are masked alike. |
| `Redact.MaskTwiceIff` | notification-core-api/internal/http/handlers/handlers.go:2448-2462 | Masking is idempotent exactly for recipients whose phone is not one to four characters long. |
| `Redact.RedactEmailTwice` | notification-core-api/internal/security/redact.go:133-139 | Masking an e-mail address is idempotent. |
| `Redact.RedactPhoneTwiceIff` | notification-core-api/internal/security/redact.go:141-149 | Masking a phone number is idempotent exactly from five characters on. |
| `Template.RenderAround` | notification-admin-ui/src/pages/notifications/SendNotificationPage.tsx:39-41 | Every placeholder, wherever it stands and whatever braces surround it, is replaced by its value, or by the braced key if that is missing or empty, and its key is extracted. |
| `Template.PlainTextIsKept` | notification-admin-ui/src/pages/notifications/SendNotificationPage.tsx:39-41 | Text without a placeholder is kept as it is. |
| `Template.MatchIsPlaceholder` | notification-admin-ui/src/pages/notifications/SendNotificationPage.tsx:39-41 | Whatever the matcher accepts is a placeholder: braces, white space, a key of ASCII letters, digits and `_.-`, white space, braces; and it reports that key. |
| `Template.PlaceholderMatches` | notification-admin-ui/src/pages/notifications/SendNotificationPage.tsx:39-41 | Every placeholder is accepted by the matcher, whatever follows it. |
| `Template.RenderDependsOnVariables` | notification-admin-ui/src/pages/notifications/SendNotificationPage.tsx:39-41 | The result depends on the values of the extracted variables only. |
| `Template.NormalisedScansAlike` | notification-admin-ui/src/pages/notifications/SendNotificationPage.tsx:39-41 | Rendering without values keeps all literal text and all placeholders in order, on every template. |
| `Template.NormalisingIsHarmless` | notification-admin-ui/src/pages/notifications/SendNotificationPage.tsx:39-41 | Hence it keeps the variable list, changes no later rendering, and is idempotent. |
| `Template.ExtractionIff` | notification-admin-ui/src/pages/notifications/SendNotificationPage.tsx:119-122 | Extracting from subject and body joined gives exactly their variables in order if and only if no placeholder opens in the subject and closes in the body; otherwise one variable more. |
| `Template.StraddlingExample` | notification-admin-ui/src/pages/notifications/SendNotificationPage.tsx:119-122 | Such a template: subject and body have no placeholder of their own, yet a variable is asked for. |
| `Template.DistinctSpec` | notification-admin-ui/src/pages/notifications/SendNotificationPage.tsx:121 | The variable list holds each key once, in order of first occurrence. |
| `Template.RefitKeepsRendering` | notification-admin-ui/src/pages/notifications/SendNotificationPage.tsx:141-147 | Refitting the form to the extracted variables changes neither rendered text; it has one field per variable. |
| `QueueName.SlugIsJoinedWords` | notification-core-api/internal/queue/control.go:29-33 | Replacing and trimming amounts to joining the maximal alphanumeric runs by single dashes, or "tenant" if there are none. |
| `QueueName.SlugHasTheWords` | notification-core-api/internal/queue/control.go:29-35 | The slug is alphanumeric runs joined by single dashes, and these are the runs of the lower-cased text in order. |
| `QueueName.SlugFixedIff` | notification-core-api/internal/queue/control.go:29-35 | Normalising leaves a text alone exactly when it is runs of lower-case ASCII letters and digits joined by single dashes. |
| `QueueName.SlugTwice` | notification-core-api/internal/queue/control.go:29-35 | Normalising is idempotent. |
| `QueueName.NameParts` | notification-core-api/internal/queue/control.go:29-35 | A name reads as three parts with dots between them: `tenant`, the slug and the lower-cased channel; the SQL rule's as `tenant`, the untrimmed slug and the channel. |
| `QueueName.NameDeterminesSlugAndChannel` | notification-core-api/internal/queue/control.go:29-35 | Two names are equal exactly when the slugs and the lower-cased channels are. |
| `QueueName.SqlAgreesIff` | notification-core-api/internal/http/handlers/handlers.go:733-738 | The SQL rule gives the same name exactly when the lower-cased slug starts and ends alphanumeric and the channel is lower case. |
| `QueueName.ClashIff` | notification-core-api/migrations/000010_tenant_queue_controls.up.sql:5 | The name for a new row is taken exactly when some row clashes: a row of the Go rule by normalising alike with the same channel up to case, a row of the SQL rule by its untrimmed slug and lower-case channel; for rows made under any earlier slugs. |
| `QueueName.RulesMissEachOther` | notification-core-api/internal/http/handlers/handlers.go:733-738 | Two slugs that normalise alike get different names from the two rules, so neither blocks the other. |
| `QueueName.Controls.Rename` | notification-core-api/internal/http/handlers/handlers.go:1760-1768 | A tenant can change its slug; its rows keep their names. |
| `QueueName.Controls.EnsureControl` | notification-core-api/internal/queue/control.go:37-51 | A tenant without a row or a taken name is an error that changes nothing; an existing row keeps its name whichever rule gave it. |
| `QueueName.Controls.GetControl` | notification-core-api/internal/queue/control.go:53-63 | Reads the row, making it first if there is none; the mutual recursion ends. |
| `QueueName.Controls.InsertMissing` | notification-core-api/internal/http/handlers/handlers.go:733-738 | The batch insert keeps all existing names and adds all missing rows, named by the SQL rule, or none if two names would clash. |

## Left out

- Provider adapters, pgx, RabbitMQ and Redis client details: a send succeeds or fails, tables are maps, queues are bags
  with unacknowledged messages, INCR and EXPIRE are atomic commands on a keyed counter.
- Password hashing, JWT, encryption and random tokens: a comparison is a boolean, tokens are distinct values.
- CRUD, roles, tenants, catalogue and campaign handlers, metrics, audit, logging, configuration, and the other React
  pages: single statements or tables without a property of this kind.
- Ambiguous outcomes: a commit, publish or INCR that takes effect although its caller sees an error.
- Crashes inside `Send` and inside a scheduler pass are failures of the next operation; several scheduler processes at
  once are not modelled, since rows are not locked.
- Notifications.Service.RouteDueScheduled: channel lists and requests in the database are well formed; undecodable JSON, which the code
  treats as empty, is not modelled.
- Notifications.Service.Send: the rate-limit and feature checks are booleans; the counts they use up are the subject of `RateLimit`.
- Redis and cache keys are tuples, so two tenants cannot share one because of a colon in an id.
- Backoff.BackoffDuration: the power is an exact integer; past attempt 63 the code's conversion from floating point depends
  on the platform, where the model does not wait.
- Workers.Platform.RunWorkers: iterations of different workers follow each other whole; their operations interleave in the
  state machine of `Pipeline`, not in the class.
- Lockout.FailureRateIsBounded: counts failures that the database recorded; an update that fails is not a limit on
  guesses.
- Sessions.LineageHasOneActiveSession: requests are serialised; two concurrent refreshes of one token are not covered,
  because the code's select and update are separate statements.
- BrowserTab.RefreshIsSingleFlight: one tab; several tabs share the stored token but not the request.
- TabWithServer.SubmittedTokenIsAccepted: a refresh given up by the tab but reaching the server later is not modelled.
- WebSocketHub.Hub.Run: covers broadcasts; `SyncUnread` enqueues outside the hub's lock and is not modelled, nor are the
  database records of sessions, pings, and acknowledgements. That a client registers before it unregisters is the order
  in which `websocket/handler.go` (lines 74-77) starts the pumps.
- TableOrder.Sort: insertion sort; the library's stable sort merges blocks, which by `TableOrder.StableSortIsUnique`
  gives the same rows wherever the comparator is an order. Where it is not, only this algorithm's result is described.
- TableQuery.DataTableQuery: an item is its printed field values and its JSON text; decoding and encoding JSON are not modelled.
- Redact.MaskRecipientMap: `maskRecipientJSON`, which applies it to the `recipient` object or the whole document, is not
  modelled.
- Case folding, trimming and slicing of text are those of ASCII.
- Template.Render: names of JavaScript prototype members as placeholder keys are not modelled.
