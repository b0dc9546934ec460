# Kazi website: relays, coordinators, grants and releases

A Dafny model of the stateful cores of the Kazi website server, with proofs of what they keep over every
run. `dafny verify dfyconfig.toml` checks the whole project. Every operation that changes state is written
twice: as a class method with the program's own fields, branches and loops, and as a function on the state as
one value, which the method is proved to compute. The run theorems are about those functions: a run is any
sequence of enabled steps, and a step is one uninterrupted stretch of the program's code.

| files | what they model |
|---|---|
| `RelayBatching`, `KaziQueryRelay`, `RelayReceipts`, `RelayRuns`, `RelayDuplicates`, `RelayAnswers`, `RelayWitnesses` | the durable export relay: queue, receipts, in-flight batch, alarms, and a sink that keeps idempotency keys |
| `JsMaps`, `ConnectHub`, `ConnectInvariants`, `ConnectKeeps`, `ConnectRuns`, `ConnectHistory`, `ConnectPresence`, `ConnectSilence`, `ConnectWitness`, `ConnectWiring`, `ConnectStreams`, `ConnectFates`, `ConnectOutcomes`, `ConnectEffects`, `ConnectLinks`, `RateLimit`, `RateRuns`, `RateWitnesses`, `ConnectRemoval`, `ConnectServices` | the client relay and the executor registry, which call each other back |
| `CoordinatorRoutes`, `CoordinatorRuns`, `CoordinatorTheorems`, `CoordinatorAnswers`, `SessionFrames`, `SessionReassembly`, `SessionRuns`, `ExecutorCoordinator`, `SwarmReplay` | the two coordinators: fenced routes with timers, chunk reassembly, the replay log |
| `OAuthTables`, `OAuthRuns`, `OAuthAudience`, `OAuthFlow`, `OAuthGrants` | authorization codes, refresh tokens and the resources they are bound to |
| `ExecutorClaims`, `ClaimDecisions`, `ClaimOutcomes`, `ExecutorService`, `ClaimQueue` | executor claims, owners and credentials, and the decision queue |
| `ReleaseResolver`, `ReleaseOrder` | release selection and ordering |
| `Wrappers`, `FiniteSets` | shared helpers |

How things are represented:

- Strings stand for their UTF-8 bytes, and the length of a string for its byte length.
- A hash stands for what it was made from; random identifiers and fences are fresh values, which the runs
  require to be unused.
- A JavaScript object that the code compares by identity is known by a number or by its fence; a JavaScript
  `Map` whose iteration order matters is a `JsMap`.
- Time is an integer clock that only moves forward. A timer may fire any time from its due time on; the two
  theorems about elapsed time add that timers fire when due.
- A storage `get` is a snapshot: nothing persists without a `put`. A storage transaction, a coordinator event
  handler and an SQL statement are each atomic.
- An admission awaits two hashes between its window check and its transaction: it carries the time of the check,
  which may be any time up to that of the transaction. The other checks before it read only the request and the
  environment.
- A token is what was drawn at random and the tag of its resource, or a text without the shape of a token.
- Ghost fields and the fields described as history (`resolved`, `dispatchedOn`, `settled`, `registeredAt`,
  `enqueues`, `successes`, ...) record what happened; no branch reads them.

## What the proofs found

- The export relay delivers exactly once and in order in every run, overlapping alarms included. Admission is
  weaker than its documentation: an alarm that runs into the next one prunes from a listing that has gone
  stale and can delete a newer receipt, so that a record is queued twice within its day
  (`RelayWitnesses.DuplicateAfterOverlappingPrunes`). This is exact: over every interleaving every request
  stays guarded by its receipt if and only if no pruning step deletes a receipt that is still live
  (`RelayDuplicates.ProtectedExactly`), and after such a step the request is queued again as soon as it finds
  room (`RelayDuplicates.OffendedIsQueuedAgain`). Otherwise a request is queued once more only if it is checked
  by its expiry, `admittedAtMs + DAY`, and its transaction runs from then on: in that very instant, if nothing
  passes between the two (`RelayDuplicates.RequeuedExactlyAtExpiry`).
- A result frame that reaches the client before its command is accepted removes the route and leaves the
  caller's promise unresolved for ever; `ConnectHistory.OrphanedExactly` says that a run orphans a caller if and
  only if this happens in it, `ConnectHistory.OrphanedForever` that no later step helps, and
  `ConnectWitness.ResultBeforeAcceptance` is such a run.
- A reply to an ephemeral invoke leaves the other groups of its session open, and nothing but the end of the
  session, its viewer or its channel removes them (`SessionRuns.LeftBehindExactly`,
  `SessionRuns.OnlyRepliesLeaveGroups`).
- The failure branch after the dispatch of a command never finds the promise waiting: the disconnect that any
  failure causes has answered it with `executor-offline` first, so no caller is ever told of back pressure
  (`ConnectPresence.FailedDispatchHasAnswered`, `ConnectHistory.AnswersArePossible`). The branch for a route
  whose link is gone (lines 316-318) and the recomposition of a batch larger than the queue (line 191) are
  never taken either.
- The command limit of a device lives only as long as its link. A client that reopens its stream gets a new limit,
  so that without a tick of the clock any number of commands is admitted (`RateWitnesses.AnyNumberAtOnce`). Exactly:
  a minute admits at most 239 commands, one less than two full windows, and 120 more for each time the device's
  entry is deleted in it (`RateRuns.AnyMinuteOfAnyRun`), and that is attained whatever the number of deletions
  (`RateWitnesses.ReopenedMinute`). The entry is deleted exactly when the link ends: by takeover, eviction,
  cancelling, either revocation, or a stream that does not take a frame (`ConnectStreams.LimitEndsWithLink`).
- A claim that was denied blocks its executor for good: the row keeps the executor's place in the claims table.

## Model

| member | source | states |
|---|---|---|
| `RelayBatching.ComposeFrom` | src/server/observability/kaziquery_relay.ts:192-197 | the loop takes the longest run of records that keeps both ingest limits, at least one |
| `RelayBatching.GreedyOptimal` | src/server/observability/kaziquery_relay.ts:191-198 | no in-order split of the records into requests within the limits has fewer requests than the relay makes |
| `RelayBatching.GreedyAttained` | src/server/observability/kaziquery_relay.ts:191-198 | the relay's own batches are such a split |
| `KaziQueryRelay.KaziQueryExportRelay.AdmitRecord` | src/server/observability/kaziquery_relay.ts:97-146 | status and stored state of an admission on every path; what each status means is RelayAnswers.AcceptedMeansHeld and RelayAnswers.RefusalsExactly |
| `KaziQueryRelay.KaziQueryExportRelay.ResumeDelivery` | src/server/observability/kaziquery_relay.ts:83-96 | a resume clears block and failures and arms the alarm, if there is a queue |
| `KaziQueryRelay.KaziQueryExportRelay.ReviseRetry` | src/server/observability/kaziquery_relay.ts:63-77 | a new retry revision restarts an unblocked non-empty queue, once |
| `KaziQueryRelay.KaziQueryExportRelay.ComposeBatch` | src/server/observability/kaziquery_relay.ts:188-204 | an in-flight batch is replayed, otherwise the longest prefix within the limits becomes it |
| `KaziQueryRelay.KaziQueryExportRelay.CommitReply` | src/server/observability/kaziquery_relay.ts:236-255 | a reply to the current batch takes it off, or counts a failure and may block; any other reply changes nothing |
| `KaziQueryRelay.KaziQueryExportRelay.PruneReceipts` | src/server/observability/kaziquery_relay.ts:262-271 | the listed entries are deleted up to the first that has not expired |
| `RelayReceipts.KeyOrderIsTimeOrder` | src/server/observability/kaziquery_relay.ts:138-138 | the text order of padded expiry keys is the order of their times |
| `RelayReceipts.PruneExact` | src/server/observability/kaziquery_relay.ts:262-271 | a pass removes exactly the earliest expired keys: no live one, and none is skipped by the early exit |
| `RelayReceipts.AdmitKeepsPaired` | src/server/observability/kaziquery_relay.ts:121-146 | admission keeps receipts and expiry keys in one-to-one correspondence |
| `RelayReceipts.PruneOneKeepsPaired` | src/server/observability/kaziquery_relay.ts:266-269 | deleting one listed entry keeps it if and only if the key is still stored or the receipt already gone |
| `RelayRuns.StepKeeps` | src/server/observability/kaziquery_relay.ts:57-271 | admissions, alarms, sends, lost and late replies, crashes, prunes, resumes and revisions all keep the delivery invariants |
| `RelayRuns.ExactlyOnceInOrder` | src/server/observability/kaziquery_relay.ts:121-255 | in every run the sink's log is a prefix of the admitted records, of the length taken off the queue or that plus the in-flight batch |
| `RelayRuns.SendsReplayExactly` | src/server/observability/kaziquery_relay.ts:185-204 | all requests ever sent under one batch id are equal, sequences run up to `next`, and an in-flight batch is a non-empty prefix of the queue |
| `RelayRuns.NoRecordStranded` | src/server/observability/kaziquery_relay.ts:167-253 | whenever records are pending an alarm is armed within the hour |
| `RelayRuns.FailuresFallExactly` | src/server/observability/kaziquery_relay.ts:63-96 | a step lowers the failure count if and only if it resumes a stored queue, brings a new revision to an unblocked queue with records, or accepts the batch in flight, and there were failures |
| `RelayRuns.FailuresGrow` | src/server/observability/kaziquery_relay.ts:243-252 | in a run without such a step, repeated revisions and stale replies included, the failure count and its delay never shrink, and the count stays within twelve |
| `RelayRuns.BackoffGrows` | src/server/observability/kaziquery_relay.ts:252-252 | the retry delay grows with the failures and never passes an hour |
| `RelayRuns.DrainFewestBatches` | src/server/observability/kaziquery_relay.ts:188-255 | with no arrivals, composing and accepting empties the queue in the fewest batches possible |
| `RelayDuplicates.StepProtects` | src/server/observability/kaziquery_relay.ts:262-271 | a step of any handler keeps every queued request guarded by its receipt if and only if it deletes no receipt that is still live |
| `RelayDuplicates.ProtectedExactly` | src/server/observability/kaziquery_relay.ts:117-271 | over any run, pruning passes overlapping or not, every state keeps every request guarded if and only if no step deletes a live receipt |
| `RelayDuplicates.QueuedOnceExceptAtExpiry` | src/server/observability/kaziquery_relay.ts:117-138 | unless a live receipt is deleted, a request is queued again only if it was checked by its expiry and its transaction ran from then on |
| `RelayDuplicates.OffendedIsQueuedAgain` | src/server/observability/kaziquery_relay.ts:262-271 | once a live receipt is deleted, the request it belonged to is queued again within its window by any repetition that finds room |
| `RelayDuplicates.PairedExactly` | src/server/observability/kaziquery_relay.ts:137-138 | receipts and expiry keys are in bijection in every state of a run if and only if every deleted entry was still stored or its receipt gone, and then no live receipt is deleted |
| `RelayDuplicates.SerialQueuedOnce` | src/server/observability/kaziquery_relay.ts:165-170 | pruning passes that do not overlap keep the bijection and queue a request again only across its expiry |
| `RelayDuplicates.RequeuedExactlyAtExpiry` | src/server/observability/kaziquery_relay.ts:157-157 | a guarded request is queued again if and only if it is in its window when checked, its transaction does not run before its expiry, and its receipt was pruned |
| `RelayWitnesses.DuplicateAtExpiry` | src/server/observability/kaziquery_relay.ts:155-157 | a run in which that happens |
| `RelayWitnesses.DuplicateAfterOverlappingPrunes` | src/server/observability/kaziquery_relay.ts:262-271 | a run in which overlapping prunes let a request be queued twice a day before it expires |
| `RelayAnswers.AcceptedMeansHeld` | src/server/observability/kaziquery_relay.ts:121-146 | a caller gets 202 if and only if afterwards the receipt of its record id has its very text; a known id leaves the store as it was, with 202 for the same text and 409 for any other |
| `RelayAnswers.RefusalsExactly` | src/server/observability/kaziquery_relay.ts:97-146 | the exact condition of every other status, none of which stores anything |
| `RelayAnswers.WindowExactly` | src/server/observability/kaziquery_relay.ts:155-158 | a request is in its window from a day before to five minutes after the clock, both ends included |
| `RelayAnswers.QueuedExactly` | src/server/observability/kaziquery_relay.ts:125-143 | a new record is appended under the next sequence number with receipt and expiry key; the first waits a second, two hundred are flushed at once |
| `RelayAnswers.RepetitionsConfirmed` | src/server/observability/kaziquery_relay.ts:121-123 | in every run in which no live receipt is deleted, a queued request sent again before it expires gets 202, any other text under its id 409, and neither changes anything |
| `RelayAnswers.BodyTellsSequence` | src/server/observability/kaziquery_relay.ts:129-132 | the stored text of a record tells its sequence number |
| `RelayAnswers.BodyNames` | src/server/observability/kaziquery_relay.ts:129-132 | the stored text has the record's own fields, the producer and the epoch under their names, and the sequence number last |
| `RelayAnswers.SinkHoldsRequests` | src/server/observability/kaziquery_relay.ts:121-255 | in every run the k-th record the sink holds is that of the k-th request queued, rendered under that number for the queue's one destination |
| `RelayAnswers.ResumeUnblocks` | src/server/observability/kaziquery_relay.ts:83-96 | a resume unblocks and starts afresh; the records are delivered again exactly if the destination is still the configured one |
| `RelayAnswers.RevisionActsOnce` | src/server/observability/kaziquery_relay.ts:63-77 | a revision is remembered, acts once, and only on an unblocked queue with records |
| `RelayAnswers.DeliversExactly` | src/server/observability/kaziquery_relay.ts:172-184 | an alarm goes on to compose exactly if records are pending, the queue is not blocked and its destination is the configured one |
| `RelayAnswers.ComposedExactly` | src/server/observability/kaziquery_relay.ts:188-204 | a composed batch is the pending prefix that the in-flight entry stands for |
| `RelayAnswers.StaleReply` | src/server/observability/kaziquery_relay.ts:236-240 | a reply that is not for the batch in flight changes nothing |
| `RelayAnswers.AcceptedReply` | src/server/observability/kaziquery_relay.ts:241-255 | an accepted batch leaves the queue, which goes on at once while 200 are pending and in a second otherwise |
| `RelayAnswers.RejectedReply` | src/server/observability/kaziquery_relay.ts:241-255 | any other status keeps the batch for a replay after one more backoff, and blocks exactly if it is from 300 to 499, save 408 and 429 |
| `RelayAnswers.BackoffDoubles` | src/server/observability/kaziquery_relay.ts:252-252 | the delay doubles with every failure until it is an hour |
| `ConnectInvariants.RemoveKeeps` | src/server/services/connect_client_relay_service.ts:353-362 | forgetting any set of routes keeps both indexes, pending entries, timers, caps and the single answer |
| `ConnectInvariants.RemovePays` | src/server/services/connect_client_relay_service.ts:353-362 | forgetting routes with a result leaves no unresolved promise without its pending entry and timer |
| `ConnectKeeps.CloseKeeps` | src/server/services/connect_client_relay_service.ts:141-147 | closing a link keeps the shared invariants, and only removes links |
| `ConnectKeeps.EvictKeeps` | src/server/services/connect_client_relay_service.ts:127-132 | evicting oldest links, whose streams call back into the relay, keeps them and ends |
| `ConnectKeeps.OpenKeeps` | src/server/services/connect_client_relay_service.ts:103-139 | refusal, takeover, eviction and registration of a link keep them |
| `ConnectKeeps.RevokeDesktopKeeps` | src/server/services/connect_client_relay_service.ts:171-180 | revoking a device keeps them |
| `ConnectKeeps.RevokeExecutorKeeps` | src/server/services/connect_client_relay_service.ts:187-197 | revoking an executor, over a copy of the links, keeps them |
| `ConnectKeeps.FenceKeeps` | src/server/services/connect_client_relay_service.ts:284-295 | fencing an executor keeps them and leaves no route to it |
| `ConnectKeeps.LookKeeps` | src/server/services/connect_executor_connection_registry.ts:129-143 | noticing a silent connection, with the re-entrant fence, keeps them |
| `ConnectKeeps.DispatchKeeps` | src/server/services/connect_executor_connection_registry.ts:145-157 | a dispatch that may disconnect its executor keeps them |
| `ConnectKeeps.OpenExecutorKeeps` | src/server/services/connect_executor_connection_registry.ts:62-95 | opening a channel, with the unnotified removal after a failed acknowledgement, keeps them |
| `ConnectKeeps.FinishKeeps` | src/server/services/connect_client_relay_service.ts:216-265 | the second half of a command, with the fencing inside its dispatch, keeps them |
| `ConnectKeeps.FireAnswers` | src/server/services/connect_client_relay_service.ts:242-248 | an accept timer that fires finds its own route waiting and answers it with a timeout |
| `ConnectKeeps.AcceptKeeps` | src/server/services/connect_client_relay_service.ts:297-307 | an acceptance keeps them |
| `ConnectKeeps.NeverDetached` | src/server/services/connect_client_relay_service.ts:315-319 | the route a frame addresses is always attached to the registered link |
| `ConnectKeeps.OutputOrphans` | src/server/services/connect_client_relay_service.ts:309-333 | output leaves a promise without anyone to answer it if and only if it is terminal, is written, and its command still waits for acceptance |
| `ConnectRuns.StepKeeps` | src/server/services/connect_client_relay_service.ts:103-362 | every step of relay, registry, streams and timers keeps the invariants, and loses a promise only by a terminal frame that is too early |
| `ConnectRuns.RoutesStayAttached` | src/server/services/connect_client_relay_service.ts:199-295 | in every reachable state each route's fence is that of its device's link, and its executor is on the connection it was registered against |
| `ConnectRuns.IndexesAgree` | src/server/services/connect_client_relay_service.ts:231-252 | both indexes hold the same routes, pending is a part of them, and the caps 256, 1024, 256 and 32 hold |
| `ConnectRuns.ResolvedAtMostOnce` | src/server/services/connect_client_relay_service.ts:241-264 | no promise is resolved twice, and no frame finds its route detached |
| `ConnectRuns.NobodyOrphaned` | src/server/services/connect_client_relay_service.ts:297-362 | if executors accept before they finish, every unresolved promise has its entry and an armed timer that answers it |
| `ConnectHistory.RouteKeepsItsEnds` | src/server/services/connect_client_relay_service.ts:103-295 | for as long as a route lives its link and its executor's connection stay the very ones it was registered with |
| `ConnectHistory.AnswersAreFinal` | src/server/services/connect_client_relay_service.ts:241-264 | a resolved promise keeps its one answer in every later state |
| `ConnectHistory.AnswersArePossible` | src/server/services/connect_client_relay_service.ts:241-264 | a promise is answered only with acceptance, offline executor, timeout or loss of the link |
| `ConnectHistory.OrphanedExactly` | src/server/services/connect_client_relay_service.ts:297-334 | a run leaves some caller without an answer, a pending entry and a timer if and only if some terminal frame reached a client before the acceptance of its command |
| `ConnectHistory.OrphanedForever` | src/server/services/connect_client_relay_service.ts:344-362 | a promise for which nothing waits is not resolved by any later step |
| `ConnectPresence.FailedDispatchHasAnswered` | src/server/services/connect_client_relay_service.ts:253-260 | when a dispatch fails the waiting promise has already been answered `executor-offline` |
| `ConnectPresence.PresenceExact` | src/server/services/connect_executor_connection_registry.ts:129-143 | online, stale and offline are told apart by connection, 45 seconds of silence and tombstone, both ways |
| `ConnectSilence.SilenceRemembered` | src/server/services/connect_executor_connection_registry.ts:129-143 | over any run in which the executor neither connects again nor is revoked and fewer than 1024 later silences are met, a noticed silence is reported stale for exactly 45 seconds |
| `ConnectSilence.TombMark` | src/server/services/connect_executor_connection_registry.ts:189-197 | marking another executor stale and trimming to the cap leaves a tombstone with fewer than 1023 younger ones in place |
| `ConnectPresence.HelloAcknowledged` | src/server/services/connect_executor_connection_registry.ts:78-95 | opening acknowledges exactly a live hello of the same generation, and connects unless that cannot be written |
| `ConnectWitness.ResultBeforeAcceptance` | src/server/services/connect_client_relay_service.ts:329-331 | a run after which a promise is unresolved and nothing is left to resolve it |
| `JsMaps.TrimNewest` | src/server/services/connect_executor_connection_registry.ts:192-196 | trimming a table keeps exactly its newest entries |
| `JsMaps.PruneExact` | src/server/services/connect_executor_connection_registry.ts:183-187 | pruning deletes exactly the expired entries |
| `RateLimit.AnyMinute` | src/server/services/connect_client_relay_service.ts:410-420 | on an entry that is never deleted, no half-open minute admits more than 239 commands |
| `RateLimit.BusiestMinute` | src/server/services/connect_client_relay_service.ts:410-420 | commands on one entry that attain that bound |
| `RateLimit.RefusedExactlyWhenSpent` | src/server/services/connect_client_relay_service.ts:410-420 | on an entry that is never deleted, a command is refused if and only if its window was charged 120 times, which none exceeds |
| `RateRuns.EntryAccounts` | src/server/services/connect_client_relay_service.ts:199-215 | in every run the entry of a device is what the limiter makes of the commands that reached it since the entry was last deleted |
| `RateRuns.RefusedExactly` | src/server/services/connect_client_relay_service.ts:199-215 | in every run a command that reaches the limiter is refused if and only if the entry's window is not over and was charged 120 times since the entry was last deleted |
| `RateRuns.AnyMinuteOfAnyRun` | src/server/services/connect_client_relay_service.ts:199-215 | in every run any half-open minute admits at most 239 commands of a device, and 120 more for each deletion of its entry in that minute |
| `RateWitnesses.ReopenedMinute` | src/server/services/connect_client_relay_service.ts:119-141 | for every number of deletions a run that attains that bound |
| `RateWitnesses.AnyNumberAtOnce` | src/server/services/connect_client_relay_service.ts:119-147 | for every number a run without a tick that admits so many commands, by a client that reopens its stream before each |
| `ConnectStreams.StepEnds` | src/server/services/connect_client_relay_service.ts:103-195 | with streams of their own a step ends the link of a device, and deletes its limit, if and only if its own authority takes over, it is the oldest of 256 when another device opens, its stream is cancelled, it or the executor that vouches for it is revoked, or its stream does not take a frame for one of its routes |
| `ConnectStreams.LimitEndsWithLink` | src/server/services/connect_client_relay_service.ts:142-147 | in every run with streams of their own a device has a limit only while it has a link, and a step deletes the limit if and only if it ends the link |
| `ConnectWiring.OpenChanges` | src/server/services/connect_client_relay_service.ts:103-141 | opening displaces the device's own link, or the oldest when all places are taken, and registers the new one unless its stream is over already |
| `ConnectLinks.LinkEndsExactly` | src/server/services/connect_client_relay_service.ts:103-195 | the causes that end a link, written out |
| `ConnectLinks.RefusedExactly` | src/server/services/connect_client_relay_service.ts:106-118 | an opening under another holder's credential only ends the newcomer's stream |
| `ConnectLinks.RevokedDeviceForgotten` | src/server/services/connect_client_relay_service.ts:171-180 | whatever its stream does, a revoked device has no link, no limit and no route left |
| `ConnectLinks.RevokedExecutorForgotten` | src/server/services/connect_client_relay_service.ts:187-195 | of a revoked executor no route is left, and no link or limit of a device that it vouched for; other links are as they were or gone |
| `ConnectLinks.BeginExactly` | src/server/services/connect_client_relay_service.ts:199-215 | what a command is answered before its lookups, and what it costs: unauthorized, overloaded or let on with the link that is registered |
| `ConnectFates.FinishAnswers` | src/server/services/connect_client_relay_service.ts:216-233 | what the second half of a command answers at once: offline, unauthorized, overloaded, or the promise of a new route |
| `ConnectFates.DispatchFences` | src/server/services/connect_executor_connection_registry.ts:145-157 | a dispatch fails as offline exactly if its executor is unconnected or silent, and as back pressure if its stream does not take the frame, and answers exactly that executor's routes |
| `ConnectFates.DispatchedFate` | src/server/services/connect_client_relay_service.ts:234-265 | the new route waits with a timer of five seconds, or has been answered offline if its executor could not be reached |
| `ConnectOutcomes.AcceptPoint` | src/server/services/connect_client_relay_service.ts:297-307 | an acceptance answers the waiting route of its own executor with its command id, correlation id and idempotency key, and leaves every other route alone |
| `ConnectOutcomes.TakenExactly` | src/server/services/connect_client_relay_service.ts:297-304 | it is taken if and only if there is such a route |
| `ConnectOutcomes.StepHears` | src/server/services/connect_client_relay_service.ts:266-307 | a step adds an acceptance to a promise if and only if it is such a frame |
| `ConnectOutcomes.AcceptedByItsOwn` | src/server/services/connect_client_relay_service.ts:297-307 | in every run a promise is answered with acceptance if and only if its own executor accepted it by its own ids while it waited |
| `ConnectOutcomes.OutputPoint` | src/server/services/connect_client_relay_service.ts:309-333 | the last frame of a route ends it without an answer; a stream that does not take a frame loses the link |
| `ConnectOutcomes.RoutedExactly` | src/server/services/connect_client_relay_service.ts:309-333 | a frame reaches a client if and only if it is for a route of its own executor and the client's stream takes it |
| `ConnectOutcomes.FirePoint` | src/server/services/connect_client_relay_service.ts:242-248 | a timer answers its own route and no other |
| `ConnectOutcomes.StepFates` | src/server/services/connect_client_relay_service.ts:103-362 | every step does to every route exactly what it has a reason to do: its link ended, its executor gone, timed out, finished, accepted, or left alone with its promise and timer |
| `ConnectOutcomes.EveryRouteMeetsItsFate` | src/server/services/connect_client_relay_service.ts:103-362 | the same in every state of every run |
| `ConnectEffects.StepSees` | src/server/services/connect_executor_connection_registry.ts:47-163 | what every step makes of an executor's connection, live tombstone and live hello, whatever it does to those of others |
| `ConnectEffects.RegistryExactly` | src/server/services/connect_executor_connection_registry.ts:47-163 | the same in every state of every run |
| `ConnectEffects.StreamsEndExactly` | src/server/services/connect_executor_connection_registry.ts:62-157 | which streams the registry ends: taken over, revoked, silent, refusing a frame, or not taking its greeting |
| `ConnectRemoval.RemoveMore` | src/server/services/connect_client_relay_service.ts:344-351 | removing routes one after another is removing them together, each promise answered once |
| `ConnectServices.ConnectClientRelayService.RemoveRoute` | src/server/services/connect_client_relay_service.ts:353-362 | removes exactly this route from each map and answers its promise if it waits |
| `ConnectServices.ConnectClientRelayService.FenceExecutor` | src/server/services/connect_client_relay_service.ts:284-295 | the loop removes exactly the executor's routes |
| `ConnectServices.ConnectClientRelayService.RemoveDesktopRoutes` | src/server/services/connect_client_relay_service.ts:344-351 | the loop removes exactly the device's routes, of one fence or all |
| `ConnectServices.ConnectClientRelayService.Close` | src/server/services/connect_client_relay_service.ts:141-147 | whole effect of closing a link |
| `ConnectServices.ConnectClientRelayService.EndStream` | src/server/services/sse_stream.ts:14-41 | the first end of a stream runs its close callback before it returns, later ones do nothing |
| `ConnectServices.ConnectClientRelayService.OnStreamClose` | src/server/services/sse_stream.ts:45-48 | a callback registered on an ended stream runs at once |
| `ConnectServices.ConnectClientRelayService.Open` | src/server/services/connect_client_relay_service.ts:103-139 | whole effect of opening a link, on each of its paths |
| `ConnectServices.ConnectClientRelayService.RevokeDesktop` | src/server/services/connect_client_relay_service.ts:171-180 | whole effect of revoking a device |
| `ConnectServices.ConnectClientRelayService.RevokeExecutor` | src/server/services/connect_client_relay_service.ts:187-197 | whole effect of the loop over a copy of the links, and of the fence |
| `ConnectServices.ConnectClientRelayService.TakeRate` | src/server/services/connect_client_relay_service.ts:410-420 | the device's entry and verdict |
| `ConnectServices.ConnectClientRelayService.BeginCommand` | src/server/services/connect_client_relay_service.ts:199-215 | a command up to its second await |
| `ConnectServices.ConnectClientRelayService.DeviceRouteCount` | src/server/services/connect_client_relay_service.ts:404-408 | the loop counts the device's routes |
| `ConnectServices.ConnectClientRelayService.FinishCommand` | src/server/services/connect_client_relay_service.ts:216-265 | a command after its second await: answer and whole effect |
| `ConnectServices.ConnectClientRelayService.FireTimer` | src/server/services/connect_client_relay_service.ts:242-248 | whole effect of an accept timeout |
| `ConnectServices.ConnectClientRelayService.AcceptCommand` | src/server/services/connect_client_relay_service.ts:297-307 | whole effect of an acceptance; whose is taken is ConnectOutcomes.TakenExactly |
| `ConnectServices.ConnectClientRelayService.RouteOutput` | src/server/services/connect_client_relay_service.ts:309-333 | whole effect of an output frame, on each of its paths |
| `ConnectServices.ConnectExecutorConnectionRegistry.Hello` | src/server/services/connect_executor_connection_registry.ts:47-60 | whole effect of a hello, with its two loops |
| `ConnectServices.ConnectExecutorConnectionRegistry.Open` | src/server/services/connect_executor_connection_registry.ts:62-95 | whole effect of opening a channel, the listener's included |
| `ConnectServices.ConnectExecutorConnectionRegistry.Touch` | src/server/services/connect_executor_connection_registry.ts:97-103 | whole effect of activity |
| `ConnectServices.ConnectExecutorConnectionRegistry.Close` | src/server/services/connect_executor_connection_registry.ts:105-113 | whole effect of closing a channel |
| `ConnectServices.ConnectExecutorConnectionRegistry.Revoke` | src/server/services/connect_executor_connection_registry.ts:115-127 | whole effect of revoking a channel |
| `ConnectServices.ConnectExecutorConnectionRegistry.Presence` | src/server/services/connect_executor_connection_registry.ts:129-143 | answer and whole effect of asking for presence |
| `ConnectServices.ConnectExecutorConnectionRegistry.Dispatch` | src/server/services/connect_executor_connection_registry.ts:145-157 | failure and whole effect of a dispatch |
| `ConnectServices.ConnectExecutorConnectionRegistry.Matches` | src/server/services/connect_executor_connection_registry.ts:159-163 | answer and whole effect of matching a row |
| `CoordinatorRoutes.RouteDeadlineMs` | src/server/durable-objects.ts:143-147 | a route lives between 3 and 57 seconds whatever its deadline says |
| `CoordinatorRuns.StepKeeps` | src/server/durable-objects.ts:217-404 | every event of every channel, dispatch and timer keeps the route invariants |
| `CoordinatorRuns.AnswerKeeps` | src/server/durable-objects.ts:823-827 | answering any set of live routes keeps them |
| `CoordinatorRuns.CloseKeeps` | src/server/durable-objects.ts:373-404 | the close of a channel keeps them |
| `CoordinatorRuns.DispatchKeeps` | src/server/durable-objects.ts:775-848 | a dispatch, refused, sent or failed in sending, keeps them |
| `CoordinatorTheorems.SettledExactlyOnce` | src/server/durable-objects.ts:694-848 | a dispatch is unanswered if and only if it is in `routes`, at most once answered; while it waits its timers are armed as they should be, its channel has not closed, and there are at most 32 |
| `CoordinatorTheorems.AnswersAreTrue` | src/server/durable-objects.ts:391-403 | a lost result means acceptance was seen, an accept timeout or an offline executor that it was not, a result that its fence is the route's |
| `CoordinatorTheorems.AnswerIsFinal` | src/server/durable-objects.ts:694-714 | an answer never changes and is never repeated |
| `CoordinatorTheorems.SettlesInTime` | src/server/durable-objects.ts:828-837 | with punctual timers a dispatch is answered within 57 seconds, and within 5 if not accepted |
| `CoordinatorTheorems.LeakedTimerIsHarmless` | src/server/durable-objects.ts:840-846 | a result timer that outlives its route is one of a failed send, and firing it changes nothing else, not even a route that reuses the id |
| `CoordinatorTheorems.CloseTouchesOnlyItsOwn` | src/server/durable-objects.ts:373-404 | a closing channel answers exactly its own routes, by their acceptance, and leaves routes, timers and presence of other channels alone |
| `CoordinatorTheorems.AcceptanceWasHeard` | src/server/durable-objects.ts:694-702 | an accepted route was accepted by a frame of its own channel for its own id while it was live |
| `CoordinatorTheorems.ResultWasHeard` | src/server/durable-objects.ts:704-714 | a result came from a frame of the route's own channel for its own id while it was live |
| `CoordinatorTheorems.StepResolves` | src/server/durable-objects.ts:704-714 | a step resolves a live route if and only if it is such a frame |
| `CoordinatorTheorems.StepGives` | src/server/durable-objects.ts:694-848 | which answers each step gives, and to which routes |
| `CoordinatorAnswers.StepAcceptsExactly` | src/server/durable-objects.ts:694-702 | a step makes a live route accepted, and disarms its accept timer, if and only if it is an acceptance of its own channel for its own id |
| `CoordinatorAnswers.AcceptedExactlyIfHeard` | src/server/durable-objects.ts:694-702 | in every run a route is accepted if and only if such a frame was heard while it was live, and then it is never answered with an accept timeout nor as offline |
| `CoordinatorAnswers.RefusedExactly` | src/server/durable-objects.ts:775-812 | when a dispatch is refused, and as what |
| `CoordinatorAnswers.DispatchedExactly` | src/server/durable-objects.ts:813-848 | a dispatch that is not refused goes to the channel that presence belongs to and waits with both timers, or is answered at once if its frame is not taken |
| `CoordinatorAnswers.DeadlineExactly` | src/server/durable-objects.ts:143-147 | how long a route lives for every deadline |
| `CoordinatorAnswers.StepPresence` | src/server/durable-objects.ts:217-404 | presence belongs to the channel that greeted last until that closes, and only its own reports renew it; the sockets are those accepted and not closed |
| `SessionFrames.FrameKeepsSound` | src/server/durable-objects.ts:467-540 | between events every group has at least one chunk and lacks one, its size is its payload's, and 64 groups and the byte budget hold |
| `SessionFrames.DroppedExactly` | src/server/durable-objects.ts:497-515 | a chunk drops its session if and only if it starts in the middle or a group too many, leaves a gap, repeats, reorders, changes its count or exceeds the budget |
| `SessionFrames.VerdictExactly` | src/server/durable-objects.ts:467-540 | a chunk is passed on exactly if it is malformed or for no waiting invoke; the last of its group completes it, and answers the invoke exactly if the message is its reply |
| `SessionFrames.OthersUntouched` | src/server/durable-objects.ts:582-592 | no chunk touches another session |
| `SessionReassembly.ChunkReassembles` | src/server/durable-objects.ts:497-522 | the next chunk of a message extends its group, and the last yields the whole message |
| `SessionReassembly.InterleavedReassembles` | src/server/durable-objects.ts:492-522 | under any interleaving within the budgets the completed messages are the originals, in the order of their last chunks |
| `SessionReassembly.MessagesComeThrough` | src/server/durable-objects.ts:467-540 | however messages are cut and interleaved, each that arrived completely is delivered exactly once and unchanged |
| `SessionRuns.StepKeeps` | src/server/durable-objects.ts:467-660 | chunks, openings, closes, timeouts, viewers that go and channels that come or go keep the group bounds, one answer an invoke, and timers for exactly the invokes that wait |
| `SessionRuns.InvokesAnsweredOnce` | src/server/durable-objects.ts:605-660 | in every run all group bounds hold, an invoke is answered at most once, and waits exactly while it is unanswered, with a timer due 30 seconds after it opened that answers it and drops its groups |
| `SessionRuns.OnlyRepliesLeaveGroups` | src/server/durable-objects.ts:519-537 | groups without a waiting invoke are left only by a reply, and no chunk changes them |
| `SessionRuns.LeftBehindExactly` | src/server/durable-objects.ts:519-537 | a reply leaves groups behind if and only if another group of the session is open |
| `ExecutorCoordinators.ExecutorCoordinator.AcceptChannel` | src/server/durable-objects.ts:217-259 | every older channel socket is asked to close, the new channel is appended and all sessions end |
| `ExecutorCoordinators.ExecutorCoordinator.OnHello` | src/server/durable-objects.ts:664-692 | presence becomes that of the greeting channel |
| `ExecutorCoordinators.ExecutorCoordinator.OnAccepted` | src/server/durable-objects.ts:694-702 | whole effect of an acceptance; whose counts is CoordinatorAnswers.StepAcceptsExactly |
| `ExecutorCoordinators.ExecutorCoordinator.OnResult` | src/server/durable-objects.ts:704-714 | whole effect of a result |
| `ExecutorCoordinators.ExecutorCoordinator.OnEvent` | src/server/durable-objects.ts:716-739 | an event refreshes presence only from its own channel, and only if it is about tools or workspaces |
| `ExecutorCoordinators.ExecutorCoordinator.LoseRoutes` | src/server/durable-objects.ts:391-403 | the loop answers exactly the channel's routes |
| `ExecutorCoordinators.ExecutorCoordinator.WebSocketClose` | src/server/durable-objects.ts:373-404 | whole effect of a channel's close, sessions included |
| `ExecutorCoordinators.ExecutorCoordinator.Dispatch` | src/server/durable-objects.ts:775-848 | refusal and whole effect of a dispatch |
| `ExecutorCoordinators.ExecutorCoordinator.FireAccept` | src/server/durable-objects.ts:828-832 | whole effect of the accept timer |
| `ExecutorCoordinators.ExecutorCoordinator.FireResult` | src/server/durable-objects.ts:833-837 | whole effect of the result timer |
| `ExecutorCoordinators.ExecutorCoordinator.PendingBytes` | src/server/durable-objects.ts:511-511 | the loop sums the sizes of the open groups |
| `ExecutorCoordinators.ExecutorCoordinator.OnSessionFrame` | src/server/durable-objects.ts:467-540 | verdict and whole effect of a chunk |
| `ExecutorCoordinators.ExecutorCoordinator.OnSessionClose` | src/server/durable-objects.ts:542-562 | a closed session loses its groups and its invoke, which is answered if it waits |
| `SwarmReplay.SwarmMachineCoordinator.AppendFrame` | src/server/durable-objects.ts:1011-1017 | whole effect of appending a frame |
| `SwarmReplay.SwarmMachineCoordinator.Events` | src/server/durable-objects.ts:1049-1060 | the page and the next cursor for any query |
| `SwarmReplay.QueryExactly` | src/server/durable-objects.ts:1050-1053 | what a query asks for with each parameter missing, out of range or in range |
| `SwarmReplay.AppendHolds` | src/server/durable-objects.ts:1011-1017 | the stored frames are always the last 500 of all, with consecutive cursors up to their number |
| `SwarmReplay.PageExact` | src/server/durable-objects.ts:1049-1060 | a page is the oldest retained frames after the cursor, without gap, and the next cursor is its last |
| `SwarmReplay.PollLosesEvicted` | src/server/durable-objects.ts:1049-1060 | a poll loses exactly the frames that were evicted before it |
| `SwarmReplay.ClientMissesOnlyEvicted` | src/server/durable-objects.ts:1011-1060 | under any alternation of appends and polls a client gets genuine frames, strictly increasing, and misses only evicted ones |
| `SwarmReplay.DrainReturnsAll` | src/server/durable-objects.ts:1049-1060 | with no appends paging ends having returned every retained frame once |
| `OAuthRuns.StepKeeps` | src/server/services/oauth_flow_service.ts:73-245 | every statement of every interleaved request, failing or crashing anywhere, keeps the grant invariants |
| `OAuthRuns.RightMoves` | src/server/services/oauth_flow_service.ts:106-210 | consuming, minting and rotating move a connection's one right and never copy it |
| `OAuthRuns.Conservation` | src/server/services/oauth_authorize_service.ts:250-286 | per connection, unconsumed codes, requests in between and active refresh tokens are together at most one |
| `OAuthRuns.AtMostOneSuccess` | src/server/services/oauth_flow_service.ts:95-210 | a code or a refresh token is good for one success, and a code only for its own client, redirect address, resource and verifier |
| `OAuthRuns.OneLine` | src/server/repo/oauth_repo/rotateRefreshToken.sql:1-25 | the refresh tokens of a connection form one line of rotations whose predecessors are spent |
| `OAuthRuns.FailedExchangeBurns` | src/server/services/oauth_flow_service.ts:95-122 | an exchange with every field consumes the code before any other check, and the code is dead exactly if a check fails |
| `OAuthRuns.DeadForever` | src/server/repo/oauth_repo/consumeCode.sql:1-13 | a burned code or a spent token that nobody holds yields no success in any later run |
| `OAuthAudience.TokensKeepTheirResource` | src/server/services/oauth_flow_service.ts:157-159 | in every run a token, however often rotated, is good only for the resource of its connection's one code, as a bearer and to refresh |
| `OAuthAudience.TokensComeFromCodes` | src/server/services/oauth_flow_service.ts:251-265 | every token carries the tag of the resource of a code of its connection |
| `OAuthAudience.StepAudience` | src/server/services/oauth_token_auth_service.ts:53-75 | every statement of every request keeps one code a connection and the tag of its resource on every token |
| `OAuthGrants.ExchangeAdmits` | src/server/services/oauth_flow_service.ts:95-122 | an exchange holds its code if and only if it is whole and fits a code that is unconsumed and in time |
| `OAuthGrants.CheckAdmits` | src/server/services/oauth_flow_service.ts:124-134 | it goes on to mint if and only if the connection is active and of its client |
| `OAuthGrants.RefreshAdmits` | src/server/services/oauth_flow_service.ts:148-173 | a refresh goes on to rotate if and only if it brings a usable token of its resource, of an active connection of its own client |
| `OAuthGrants.RevokesExactly` | src/server/repo/oauth_repo/revokeTokensByConnection.sql:1-4 | a revocation takes exactly the rows of the named connections out of use |
| `OAuthGrants.AnsweredToItsClient` | src/server/services/oauth_flow_service.ts:130-173 | in every run each token response went to the client of the connection to which its code or refresh token belongs |
| `OAuthGrants.RevokedPassesNobody` | src/server/repo/oauth_repo/revokeConnection.sql:1-4 | once a connection is revoked it stays so, and in no later run does a request pass its check |
| `OAuthGrants.ExchangeGrants` | src/server/services/oauth_flow_service.ts:95-146 | an undisturbed exchange by the right client mints both tokens, with their lifetimes |
| `OAuthGrants.RefreshGrants` | src/server/services/oauth_flow_service.ts:148-210 | an undisturbed refresh by the right client spends its token for a successor and an access token |
| `OAuthGrants.ApprovalCanBeRedeemed` | src/server/services/oauth_flow_service.ts:73-93 | an issued code can be exchanged for sixty seconds, by its client only |
| `OAuthGrants.BearerExactly` | src/server/services/oauth_token_auth_service.ts:57-75 | a minted token is a bearer token of its own resource for an hour, until it or its connection is revoked; a refresh token is none |
| `OAuthFlow.OAuthFlowService.MintTokenPair` | src/server/services/oauth_flow_service.ts:212-245 | both tokens, or, when a write fails, no grant and at most an access token |
| `OAuthFlow.OAuthFlowService.ExchangeCode` | src/server/services/oauth_flow_service.ts:95-146 | granted if and only if no field is missing, code, client, redirect address, resource, verifier and connection all fit, and no statement fails; the code of a whole request is consumed in any case; the errors each have their exact condition |
| `OAuthFlow.OAuthFlowService.RefreshTokens` | src/server/services/oauth_flow_service.ts:148-210 | granted if and only if the request is whole, the token is an active refresh token of the resource and in time, its connection is active and of the client, and no statement fails; another client gets `invalid_client` exactly then; the old token is spent with its successor's insertion |
| `ExecutorClaims.CreateKeeps` | src/server/services/connect_executor_service.ts:89-160 | claiming, retrying and claiming again keep the committed-state invariants |
| `ExecutorClaims.DecideKeeps` | src/server/services/connect_executor_service.ts:225-310 | accepting and denying keep them |
| `ExecutorClaims.RevokeKeeps` | src/server/services/connect_executor_service.ts:366-399 | revoking keeps them |
| `ExecutorClaims.OpenIsPending` | src/server/services/connect_executor_service.ts:288-300 | an open claim's executor is unowned, so accepting it fails only for a token that is in use |
| `ExecutorClaims.StateOfExecutor` | src/server/services/connect_executor_service.ts:275-310 | active means one owner, generation 1 and one active credential, the accepted claim's; revoked means generation 2 and none |
| `ExecutorClaims.AuthenticationExact` | src/server/services/connect_channel_auth_service.ts:33-69 | a channel authenticates if and only if its token is that of the accepted claim of an active executor, with its device and generation 1 |
| `ClaimDecisions.RacingDecidesOneWinner` | src/server/logic/connect_executor.logic.ts:28-45 | of racing decisions of a claim one wins at most; any other is a replay, unless it is the same call again |
| `ClaimDecisions.DecisionsInOrder` | src/server/logic/connect_executor.logic.ts:28-40 | decisions run one at a time in the order of arrival, failed ones included, and the queue never stalls |
| `ClaimDecisions.RevokedForever` | src/server/services/connect_executor_service.ts:366-399 | an owner is for life, and after a committed revocation no channel of the executor ever authenticates |
| `ClaimDecisions.DeniedForGood` | src/server/services/connect_executor_service.ts:256-273 | a denied claim stays, and its executor never gets an owner or a credential |
| `ClaimDecisions.WonInTime` | src/server/services/connect_executor_service.ts:234-234 | in every run whoever decided a claim did so before it expired |
| `ClaimOutcomes.WonExactly` | src/server/services/connect_executor_service.ts:225-240 | in every run a call decides its claim if and only if the claim is open and in time, no statement fails, and, for an acceptance, its token is unused; it is told of an expiry if and only if the claim is open and over |
| `ClaimOutcomes.CreatesExactly` | src/server/services/connect_executor_service.ts:89-160 | a claim is created if and only if it is unknown and its executor and device are free, retried if and only if it is stored and open as it is, and in conflict otherwise |
| `ClaimOutcomes.CreatedRows` | src/server/services/connect_executor_service.ts:118-143 | what a new claim stores and which claim it replaces |
| `ClaimOutcomes.DecidesExactly` | src/server/services/connect_executor_service.ts:225-310 | the exact condition of every outcome of a decision, and of a change |
| `ClaimOutcomes.DecidedRows` | src/server/services/connect_executor_service.ts:256-310 | what a decision stores: the claim, and for an acceptance owner, generation and credential |
| `ClaimOutcomes.RevokesExactly` | src/server/services/connect_executor_service.ts:366-399 | only the owner revokes, it never fails, and it stores exactly the executor's new state and its inactive credentials |
| `ClaimOutcomes.ClaimsLife` | src/server/services/connect_executor_service.ts:89-399 | from claim to revocation: repeated claims are retries, acceptance in time lets the executor in under its token, device and generation only, and only its owner ends that |
| `ExecutorService.ConnectExecutorService.CreateClaim` | src/server/services/connect_executor_service.ts:89-160 | outcome and committed tables, whichever statement fails |
| `ExecutorService.ConnectExecutorService.Decide` | src/server/services/connect_executor_service.ts:225-310 | outcome and committed tables, whichever statement fails: expired if and only if the claim is open and over, decided otherwise, an acceptance only with an unused token and an unowned executor |
| `ExecutorService.ConnectExecutorService.Revoke` | src/server/services/connect_executor_service.ts:366-399 | outcome and committed tables, whichever statement fails |
| `ExecutorService.ConnectExecutorService.Authenticate` | src/server/services/connect_channel_auth_service.ts:33-69 | the owner if and only if credential and executor row agree with the request |
| `ClaimQueue.ConnectExecutorLogic.Enter` | src/server/logic/connect_executor.logic.ts:28-33 | the call takes the tail as its predecessor and its own promise becomes the tail: the arrival step of the runs |
| `ClaimQueue.ConnectExecutorLogic.DecideInTurn` | src/server/logic/connect_executor.logic.ts:34-39 | the end step of the runs: the promise is released whether the transaction commits or not |
| `ReleaseResolver.RangeIsInterval` | src/server/services/connect_service_release_resolver.ts:123-143 | a range is a half-open interval of the version order |
| `ReleaseResolver.VersionsTotallyOrdered` | src/server/services/connect_service_release_resolver.ts:411-413 | the comparison is a total order |
| `ReleaseResolver.ComparesNumbers` | src/server/services/connect_service_release_resolver.ts:411-413 | the order is that of the numbers, the major first |
| `ReleaseResolver.EligibleUnrevoked` | src/server/services/connect_service_release_resolver.ts:123-143 | which releases are in range, platform and architecture when none is revoked |
| `ReleaseResolver.RevokingRemovesExactly` | src/server/services/connect_service_release_resolver.ts:441-448 | a revocation excludes exactly the release of its id, or all those of its version unless a platform or architecture is given that is not theirs |
| `ReleaseResolver.DependencyCall` | src/server/services/connect_service_release_resolver.ts:340-367 | the reply of the first attempt, or of a second after a transient failure, and never more |
| `ReleaseResolver.Resolve` | src/server/services/connect_service_release_resolver.ts:240-290 | the greatest eligible release whose publication check passes, every greater one failing it for good; not found if and only if all fail |
| `ReleaseResolver.SortSorts` | src/server/services/connect_service_release_resolver.ts:252-252 | candidates are taken in descending order, all of them |
| `ReleaseResolver.RevokingNeverRaises` | src/server/services/connect_service_release_resolver.ts:441-448 | revoking more never raises the resolved version |
| `ReleaseOrder.TotalPreorder` | src/server/services/release_version.ts:43-73 | the newest-first comparison is a total preorder if that of tags is |
| `ReleaseOrder.NewerFirst` | src/server/services/release_version.ts:43-73 | which of two names stands first, for versions, tags and names that are none |
| `ReleaseOrder.FinalOutranks` | src/server/services/release_version.ts:1-7 | a final release outranks its own candidates and every name that is no version |
| `ReleaseOrder.NewestIsMaximum` | src/server/services/update_feed_service.ts:138-159 | the newest release is a maximum of its channel in any listing order, never a pre-release on stable, and missing only if the channel is empty |

## Left out

- HTTP parsing, JSON envelopes, cookies, headers and the field checks of request parsers: requests arrive as datatypes.
- SQL text, transaction isolation and the Durable Object runtime: a claim transaction commits as one step, OAuth statements interleave one by one.
- Logging, tracing and diagnostics: they change no state of the protocols.
- `connect_desktop_service.ts`: the twin of the executor lifecycle, with an expiry field.
- Viewer sockets and the forwarding of their chunks, and the reply that closes an ephemeral invoke: only reassembly for invokes inside the object is modelled.
- The cap of 8 ephemeral invokes: it is checked before an await, so that it is no bound. Sending an invoke's own frames is taken to succeed.
- Loss of a coordinator's memory to hibernation, eviction or a restart: routes live as long as their object, and stored presence, which outlives it, starts empty.
- `FRAME_LIMITS` and `encodeSessionFrames` belong to a package that is not part of this model: limits are parameters, and any way to cut a message is allowed.
- Supersession of older connections is modelled as the revocation of any set of connections, not chosen by client name.
- Short codes of claims and audit rows: a collision of short codes shows as a failing statement.
- Version texts: ranges and versions are taken as parsed, and numbers beyond 2^53 are not rounded.
- Presence of swarm machines and the frames sent to them: only the replay log of the swarm coordinator is modelled.
- InflightRoute: the coordinator's route objects are rows under their identity instead of heap objects, so aliasing between a route and its timers is by number.
- ConnectRuns.NobodyOrphaned: needs that executors accept a command before they finish it; ConnectHistory.OrphanedExactly shows that the need is exact.
- CoordinatorTheorems.SettlesInTime: needs timers that fire when due, which the runtime does not promise.
- RelayDuplicates.QueuedOnceExceptAtExpiry: needs that no live receipt is deleted; RelayDuplicates.ProtectedExactly and RelayDuplicates.OffendedIsQueuedAgain show that the need is exact.
- ConnectServices.ConnectClientRelayService.BeginCommand: takes the verdict of the deployment and nested-target checks, which read nothing but the frame and the deployment's identity, as given.
- ConnectStreams.LimitEndsWithLink: needs that every client and executor has a stream of its own, as each request creates one (src/server/controller/connect_client_relay.controller.ts:90-93); the bound of RateRuns.AnyMinuteOfAnyRun does not need it.
- ConnectOutcomes.EveryRouteMeetsItsFate: needs streams of their own too, as does ConnectOutcomes.StepFates; what they say of acceptance holds without, by ConnectOutcomes.AcceptedByItsOwn.
- ConnectEffects.StepSees: of other executors' tombstones and hellos says only that they may go when 1024 are kept; JsMaps.TrimNewest says which.
- RateLimit.AnyMinute: is about one entry that is kept; RateRuns.AnyMinuteOfAnyRun is about runs, which delete entries.
