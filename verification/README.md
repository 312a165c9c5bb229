# Protocols and metadata of the lead platform, verified

A Dafny model of the parts of the platform whose correctness depends on more than one step: two
rate limiters, compare-and-set credential rows, one-shot OAuth state, the fulfillment outbox,
idempotent lead allocation, the spreadsheet destination with its link history, an interest stored
inside free-text notes, two redactors, the age prefilter of aged inventory, and the enrichment of
lifecycle events.

`dafny verify dfyconfig.toml` checks the whole project.

## How it is modelled

- **Stored rows and maps** are classes whose methods update fields in place. Each method is proved
  against a function on values; the theorems are about that function.
- **Concurrency** is a state machine. One conditional update, or one transaction, is one atomic
  step; reads, provider calls and re-reads around it are steps of their own, and the steps of any
  number of callers interleave in any order. A theorem over runs holds after every prefix of every
  schedule, so a caller may also stop for good at any point.
- **Rate limiters** carry a history of counted events. Both reduce to one fact about such
  histories in `Windows.dfy`: windows open at least W apart, so an interval of length W meets at
  most two and misses the first event of the earlier one.
- **Strings** are sequences of characters with the exact white space of `trim()`; JSON trees are a
  recursive datatype; the object in the notes has a printer and a parser of its own in
  `FlatJson.dfy`, which reads any text with scalar and array members.

| file | models |
|---|---|
| `Windows.dfy` | the sliding bound of fixed-window counters |
| `MetaReviewerRateLimit.dfy`, `MetaReviewerInFlight.dfy` | the in-memory login limiter, and attempts in flight between its check and its record |
| `RedisRateLimit.dfy` | the INCR / PTTL / PEXPIRE limiter |
| `GoogleConnection.dfy` | token refresh, reconnect mark and disconnect, company and client form |
| `OAuthPendingAuth.dfy` | consuming a pending OAuth row once, company and client form |
| `FulfillmentOutbox.dfy` | claims, marks and stale reclaim |
| `LeadAllocation.dfy` | the idempotent creation of an allocation and its counter |
| `SheetsDestination.dfy` | destinations, links and tab contracts |
| `AvailabilityInterest.dfy`, `AvailabilityRoundTrip.dfy`, `AvailabilityMarker.dfy`, `FlatJson.dfy`, `FlatJsonWall.dfy` | the interest in the notes |
| `CustomWebhookSecret.dfy`, `DeliveryTargetMetadata.dfy`, `RedactionPaths.dfy` | the two redactors, and what they leave along each path |
| `CommerceAgeBuckets.dfy` | resolver, expander, prefilter and row check |
| `LifecycleEnrich.dfy`, `LifecycleFields.dfy` | the enrichment pipeline, and what each field ends up with |
| `Text.dfy`, `Json.dfy`, `Wrappers.dfy` | shared vocabulary |

## Where the code does less than it says

Each of these is a lemma with the input or the schedule that shows it, next to a lemma that says
when the promise does hold.

- The interest in the notes does not always round-trip, and the fulfillment blocker does not always
  fire on merged notes: stripping leaves a marker that no object follows directly, and reading takes
  the first marker (`AvailabilityMarker.SomeNotesHideTheInterest`). A brace in the time closes the
  object early, and an appendix beyond the limit is cut. The exact conditions are
  `AvailabilityRoundTrip.RoundTrip` and `AvailabilityRoundTrip.BlockerFires`.
- The reconnect mark of a client's Google row has no guard and keeps the version. It reopens a row
  that was disconnected during the provider call (`GoogleConnection.AccountMarkReopens`; exactly when,
  `GoogleConnection.StaysDisconnectedExactly`), and a refresh still under way sets it back to
  connected (`GoogleConnection.AccountRefreshUndoesAMark`; exactly when,
  `GoogleConnection.MarkSurvivesExactly`). The company row does neither.
- The outbox marks carry no guard. The queue marks a row enqueued after it has handed the job over,
  by which time a worker may hold it (`FulfillmentOutbox.EnqueuesWaitingIsNeeded`), and it does so to a
  completed row as well, which then completes twice (`FulfillmentOutbox.EnqueuedAgainCompletesTwice`).
  A worker whose completion is stored but reported to it as an error reopens the row itself
  (`FulfillmentOutbox.OwnResultIsNeeded`). Exactly when a second worker gets a held row is
  `FulfillmentOutbox.SecondHolderExactly`, which step exposes one `FulfillmentOutbox.ExposedExactly`,
  and when a finished row stays finished `FulfillmentOutbox.StaysFinalExactly`.
- A destination from before the link table that is deleted before any save leaves no link
  (`SheetsDestination.DeletedLegacyIsForgotten`; exactly when a spreadsheet is remembered,
  `SheetsDestination.RememberedExactly`). A delete leaves its link current
  (`SheetsDestination.DeleteLeavesALinkCurrent`; exactly when a link is current,
  `SheetsDestination.CurrentExactly`).
- A known secret that the marker can complete, such as one that ends in its stars, can survive
  scrubbing (`CustomWebhookSecret.Survives`; exactly which, `CustomWebhookSecret.HiddenExactly`), and
  keys are not scrubbed at all (`CustomWebhookSecret.KeysSurvive`).
- "When the table is full, new addresses are limited": the failure that finds the table full is not
  stored and limits every address, known ones too (`MetaReviewerRateLimit.FullTableIsReached`; exactly
  when, `MetaReviewerRateLimit.UnstoredExactly`).
- The merge of the enrichment fills white-space-only fields, but several blocks offer a value only
  to a field that is absent, null or empty, so such a field can stay blank though a block has a
  value for it (`LifecycleEnrich.BlankAfterwards`).

## Model

| member | source | states |
|---|---|---|
| `Windows.SlidingBound` | apps/admin-coc/src/lib/meta-reviewer-rate-limit.ts:47-79 | any log of a fixed-window counter with windows at least W apart has at most 2·limit − 1 events in any half-open interval of length W; used for both limiters |
| `Windows.WindowHolds` | apps/api/src/lib/redis-rate-limit.ts:31-40 | no single window of such a log holds more than `limit` events |
| `Windows.InsideBound` | apps/admin-coc/src/lib/meta-reviewer-rate-limit.ts:69-73 | events inside windows that other events open, at most k in each, number at most 2k in any interval of a window's length |
| `Windows.TimesDetermine` | apps/admin-coc/src/lib/meta-reviewer-rate-limit.ts:47-79 | the instants of a windowed log determine its windows and ranks: which failures open a window is no choice |
| `MetaReviewerRateLimit.GlobalBound` | apps/admin-coc/src/lib/meta-reviewer-rate-limit.ts:61-84 | over every guarded run, any number of addresses, any 15-minute interval holds at most 63 recorded failures in total |
| `MetaReviewerRateLimit.KeyBound` | apps/admin-coc/src/lib/meta-reviewer-rate-limit.ts:61-88 | between clears of an address, any 15-minute interval holds at most 15 of its guarded failures, also one a full table left unstored |
| `MetaReviewerRateLimit.LimitedExactly` | apps/admin-coc/src/lib/meta-reviewer-rate-limit.ts:61-65 | after every guarded run, from its history: an address is limited exactly if the last shared window is open and holds 32 failures or an unstored one, its own last window since its clear is open and holds 8, or the map has 4096 other buckets and none of the address |
| `MetaReviewerRateLimit.HistoryIsByTime` | apps/admin-coc/src/lib/meta-reviewer-rate-limit.ts:67-84 | the shared history of a run, windows and ranks, is the only windowed one with its instants |
| `MetaReviewerRateLimit.TableFits` | apps/admin-coc/src/lib/meta-reviewer-rate-limit.ts:67-79 | over every run, guarded or not, the map never exceeds 4096 entries and always holds the shared bucket or a free slot for it |
| `MetaReviewerRateLimit.GlobalBumpIsStored` | apps/admin-coc/src/lib/meta-reviewer-rate-limit.ts:67-82 | so the shared bump never takes the full-table branch: afterwards the shared bucket is live and counts one more |
| `MetaReviewerRateLimit.RunIsTracked` | apps/admin-coc/src/lib/meta-reviewer-rate-limit.ts:47-88 | the buckets agree with the history after every guarded run, exactly: same window and same count, or a window shut by an unstored failure |
| `MetaReviewerRateLimit.RecordedBucket` | apps/admin-coc/src/lib/meta-reviewer-rate-limit.ts:67-84 | what an admitted failure leaves of an address: one more, a new bucket, or nothing stored and the shared bucket saturated for a whole window |
| `MetaReviewerRateLimit.RecordedShared` | apps/admin-coc/src/lib/meta-reviewer-rate-limit.ts:67-84 | and of the shared bucket: one more in the same window, a new window, or 32 or more if the failure is left unstored |
| `MetaReviewerRateLimit.UnstoredExactly` | apps/admin-coc/src/lib/meta-reviewer-rate-limit.ts:61-84 | an admitted failure is left unstored exactly if the address and the shared bucket have no bucket and the map has room for one only |
| `MetaReviewerRateLimit.UnstoredLimitsAll` | apps/admin-coc/src/lib/meta-reviewer-rate-limit.ts:69-73 | an unstored failure saturates the shared bucket: every address is limited for a whole window |
| `MetaReviewerRateLimit.FullTableIsReached` | apps/admin-coc/src/lib/meta-reviewer-rate-limit.ts:47-84 | guarded attempts alone reach such a map: expired buckets of other addresses are never swept |
| `MetaReviewerInFlight.InFlightBound` | apps/admin-coc/src/app/actions/meta-reviewer-login.ts:34-45 | with attempts in flight between check and record, at most N at once, any 15-minute interval holds at most 61 + 2N recorded failures |
| `MetaReviewerInFlight.WindowBound` | apps/admin-coc/src/app/actions/meta-reviewer-login.ts:34-45 | and any one window at most 31 + N |
| `MetaReviewerInFlight.AddressBound` | apps/admin-coc/src/app/actions/meta-reviewer-login.ts:34-45 | and an address fails at most 13 + 4N times in any 15-minute interval since its last clear, stored or not |
| `MetaReviewerInFlight.UnstoredBound` | apps/admin-coc/src/lib/meta-reviewer-rate-limit.ts:67-74 | at most 2N failures in any 15-minute interval are left unstored, all addresses together |
| `MetaReviewerInFlight.RunIsTracked` | apps/admin-coc/src/app/actions/meta-reviewer-login.ts:34-45 | over every interleaving of attempts that fail, succeed or never finish: once a limit is spent, what its window holds and what is in flight together stay within the limit of a window |
| `MetaReviewerRateLimit.Buckets.LiveBucket` | apps/admin-coc/src/lib/meta-reviewer-rate-limit.ts:47-55 | returns the live bucket and deletes an expired one |
| `MetaReviewerRateLimit.Buckets.CountFailures` | apps/admin-coc/src/lib/meta-reviewer-rate-limit.ts:57-59 | the failures of the live bucket, zero without one |
| `MetaReviewerRateLimit.Buckets.RateLimited` | apps/admin-coc/src/lib/meta-reviewer-rate-limit.ts:61-65 | the answer of the three tests in their order, and exactly which expired buckets the check drops |
| `MetaReviewerRateLimit.Buckets.BumpBucket` | apps/admin-coc/src/lib/meta-reviewer-rate-limit.ts:67-79 | the whole new map of a bump, on each of its branches |
| `MetaReviewerRateLimit.Buckets.RecordFailure` | apps/admin-coc/src/lib/meta-reviewer-rate-limit.ts:81-84 | the shared bucket is bumped before the address's own |
| `MetaReviewerRateLimit.Buckets.ClearFailures` | apps/admin-coc/src/lib/meta-reviewer-rate-limit.ts:86-88 | removes one bucket and nothing else |
| `MetaReviewerRateLimit.Buckets.Play` | apps/admin-coc/src/lib/meta-reviewer-rate-limit.ts:47-88 | a whole run of calls on the map in place reaches the map of the specification the bounds are about |
| `RedisRateLimit.AllowedBound` | apps/api/src/lib/redis-rate-limit.ts:24-41 | under every interleaving, callers stopping anywhere, any interval of windowMs holds at most 2·limit − 1 allowed increments |
| `RedisRateLimit.LifetimeBound` | apps/api/src/lib/redis-rate-limit.ts:31-40 | each lifetime of the key allows at most `limit` calls |
| `RedisRateLimit.OneEntryPerAllowedCall` | apps/api/src/lib/redis-rate-limit.ts:40 | each entry of the history has its own call, and the calls with an entry are exactly those that are allowed |
| `RedisRateLimit.DeadlineStays` | apps/api/src/lib/redis-rate-limit.ts:35-38 | once the key has a deadline and no call is about to send PEXPIRE, every later step but its expiry keeps that deadline, so a steady caller cannot move it |
| `RedisRateLimit.AnswerIsOfOwnIncrement` | apps/api/src/lib/redis-rate-limit.ts:31-40 | whatever the other callers do in between, each call is answered by the count its own INCR was given |
| `RedisRateLimit.PlayedAlone` | apps/api/src/lib/redis-rate-limit.ts:24-41 | the commands of one call played without interruption give exactly the key and the answer that `Consume` promises |
| `RedisRateLimit.LastCommandLeavesDeadline` | apps/api/src/lib/redis-rate-limit.ts:32-40 | whichever command is a call's last, it leaves the key missing or with a deadline |
| `RedisRateLimit.UndyingOnlySinceCreation` | apps/api/src/lib/redis-rate-limit.ts:31-39 | if the key has no deadline now, every call that returned did so before the key was created |
| `RedisRateLimit.OnlyCreationIsUndying` | apps/api/src/lib/redis-rate-limit.ts:31-39 | only the INCR that creates the key can leave it without a deadline |
| `RedisRateLimit.RedisKey.SendIncr` | apps/api/src/lib/redis-rate-limit.ts:31 | the counter and the answer of INCR |
| `RedisRateLimit.RedisKey.SendPttl` | apps/api/src/lib/redis-rate-limit.ts:35 | -2 for a missing key, -1 for one without a deadline, the time left otherwise |
| `RedisRateLimit.RedisKey.SendPexpire` | apps/api/src/lib/redis-rate-limit.ts:33-37 | sets the deadline of a present key only |
| `RedisRateLimit.RedisKey.Consume` | apps/api/src/lib/redis-rate-limit.ts:24-41 | one uninterrupted call: the count rises by one, a deadline is kept, a missing one is set, and the answer compares the count with the limit |
| `GoogleConnection.RefreshIsFenced` | apps/api/src/repositories/company-google-connection.repository.ts:95-117 | a refresh that took effect had no refresh, guarded mark or disconnect between its read and its write, whatever other writers did without lowering the version |
| `GoogleConnection.RefreshMatchesExactly` | apps/api/src/repositories/google-account-connection.repository.ts:127-149 | a refresh in flight matches exactly if the row still accepts one and no write since its read raised the version |
| `GoogleConnection.RefreshReplacesWhatItRead` | apps/api/src/repositories/company-google-connection.repository.ts:95-117 | if every write since its read raised the version, a refresh replaces exactly the row it was computed from |
| `GoogleConnection.OneWriterLeavesAVersion` | apps/api/src/repositories/google-account-connection.repository.ts:127-149 | at most one write leaves any given version |
| `GoogleConnection.CredentialsAreLastWritten` | apps/api/src/repositories/company-google-connection.repository.ts:95-117 | in every run each credential field is the last one the provider gave, a left-out refresh token, type or scope keeps the earlier one, and nothing from before a wipe is left; other writers set what they set |
| `GoogleConnection.UndisturbedRefreshWrites` | apps/api/src/repositories/company-google-connection.repository.ts:95-122 | a refresh of a connected row with no write since its read that raised the version takes effect, reports success and raises the version by one |
| `GoogleConnection.EveryGuardedWriteRaises` | apps/api/src/repositories/company-google-connection.repository.ts:95-186 | each refresh, guarded mark and wipe raises the version by one, from the row the write before it left; the mark of a client's row keeps it |
| `GoogleConnection.ReportedVersion` | apps/api/src/repositories/company-google-connection.repository.ts:118-122 | a refresh that reports success names a version of at least expected + 1, its own or a later one |
| `GoogleConnection.DisconnectWins` | apps/api/src/repositories/company-google-connection.repository.ts:95-186 | with refreshes, marks and wipes as the only writers, the company's row once disconnected stays disconnected |
| `GoogleConnection.DisconnectedHoldsNoToken` | apps/api/src/repositories/google-account-connection.repository.ts:127-186 | with the same writers a disconnected row holds no token ciphertext, in either form |
| `GoogleConnection.DisconnectedExactly` | apps/api/src/services/google-oauth/google-connection.service.ts:217-231 | a disconnected row is disconnected later on exactly if everything that reopened it was followed by something that closed it |
| `GoogleConnection.StaysDisconnectedExactly` | apps/api/src/services/google-oauth/google-connection.service.ts:217-231 | it stays disconnected all along exactly if no mark of a client's row and no other writer reopened it |
| `GoogleConnection.AccountMarkReopens` | apps/api/src/services/google-oauth/google-connection.service.ts:217-231 | a mark by a caller that read a client's row before the disconnect takes it to reconnect_required |
| `GoogleConnection.CompanyKeepsReconnectRequired` | apps/api/src/repositories/company-google-connection.repository.ts:95-148 | in the company form no refresh leaves a row that is marked reconnect_required |
| `GoogleConnection.MarkSurvivesExactly` | apps/api/src/services/google-oauth/google-connection.service.ts:217-231 | a reconnect mark on a client's row survives a refresh in flight exactly if a write since the refresh's read raised the version |
| `GoogleConnection.AccountRefreshUndoesAMark` | apps/api/src/services/google-oauth/google-connection.service.ts:217-231 | of two refreshes in flight one may mark the row and the other set it back to connected |
| `GoogleConnection.ConnectionRow.RefreshWhere` | apps/api/src/repositories/company-google-connection.repository.ts:95-117 | the conditional update: matched count and the whole new row |
| `GoogleConnection.ConnectionRow.MarkReconnectRequiredIfCurrent` | apps/api/src/repositories/company-google-connection.repository.ts:129-148 | the mark succeeds exactly on a connected row of the expected version, and its whole new row |
| `GoogleConnection.ConnectionRow.MarkReconnectRequired` | apps/api/src/services/google-oauth/google-connection.service.ts:217-231 | the mark of a client's row: found by identity alone, its whole new row, and the default of its text |
| `GoogleConnection.ConnectionRow.WipeCredentials` | apps/api/src/repositories/google-account-connection.repository.ts:173-186 | every token field is cleared and the version raised |
| `GoogleConnection.ConnectionRow.CompareAndSetTokens` | apps/api/src/repositories/google-account-connection.repository.ts:119-165 | a whole refresh: when it succeeds, the version it reports, the row it leaves, and when it is not_found or disconnected |
| `OAuthPendingAuth.ConsumedAtMostOnce` | apps/api/src/repositories/google-oauth-pending-auth.repository.ts:37-79 | under every schedule of concurrent callbacks at most one succeeds, in either form |
| `OAuthPendingAuth.SuccessIsBoundAndFresh` | apps/api/src/repositories/google-oauth-pending-auth.repository.ts:56-78 | a callback that succeeds passed the state and the tenant of the row it is handed, strictly before expiry, and the row is consumed at its own instant; said of what was passed, trimmed where the form trims |
| `OAuthPendingAuth.RefusalsAreTruthful` | apps/api/src/repositories/google-oauth-pending-auth.repository.ts:46-74 | under every schedule each refusal is true of the stored row and of what was passed: a replay is never answered not_found, and already_consumed only if it is |
| `OAuthPendingAuth.FirstUpdateConsumes` | apps/api/src/repositories/google-oauth-pending-auth.repository.ts:56-65 | of the callbacks past the check, the first to update an unconsumed row consumes it, at its own instant |
| `OAuthPendingAuth.PlayedAlone` | apps/api/src/repositories/google-oauth-pending-auth.repository.ts:37-79 | the steps of one callback with nobody in between: it succeeds exactly if no reason is true of the row, and is told the first true one otherwise |
| `OAuthPendingAuth.RefusalIsAnswer` | apps/api/src/repositories/google-oauth-pending-auth.repository.ts:46-54 | the order of the checks: not found, other tenant, consumed, expired |
| `OAuthPendingAuth.ConsumedTimeIsFinal` | apps/api/src/repositories/google-oauth-pending-auth.repository.ts:56-65 | the consumed time, identity, tenant, state and expiry never change |
| `OAuthPendingAuth.VerifierSurvivesUntilConsumed` | apps/api/src/repositories/google-oauth-pending-auth.repository.ts:81-94 | the verifier is never blanked while the row is unconsumed |
| `OAuthPendingAuth.ConsumptionHasAnAuthor` | apps/api/src/repositories/company-google-connection.repository.ts:209-216 | a row consumed during the run was consumed by exactly one callback, at that callback's instant |
| `OAuthPendingAuth.SettlesTruly` | apps/api/src/repositories/google-oauth-pending-auth.repository.ts:67-78 | what a callback answers after its update agrees with the row and the history |
| `OAuthPendingAuth.PendingRow.ConsumeWhere` | apps/api/src/repositories/google-oauth-pending-auth.repository.ts:56-65 | the conditional update: matched count and the whole new row |
| `OAuthPendingAuth.PendingRow.WipeVerifierWhere` | apps/api/src/repositories/google-oauth-pending-auth.repository.ts:88-91 | the conditional blanking of the verifier |
| `OAuthPendingAuth.PendingRow.ConsumeOnce` | apps/api/src/repositories/company-google-connection.repository.ts:195-217 | a whole call with nobody in between, in both forms: the first true reason or success, and the whole row |
| `FulfillmentOutbox.AttemptsAreClaims` | apps/api/src/repositories/fulfillment-outbox.repository.ts:54-82 | whatever the workers do, attemptCount equals the number of successful claims |
| `FulfillmentOutbox.UnmarkedClaimsAreFarApart` | apps/api/src/repositories/fulfillment-outbox.repository.ts:68-79 | whatever the workers do, two claims with no mark between them are strictly more than 15 minutes apart |
| `FulfillmentOutbox.RunMirrors` | apps/api/src/repositories/fulfillment-outbox.repository.ts:34-125 | of every run, field by field from its history: status, availability, the instants of the last claim, enqueued and final mark, and the last error; an upsert on an existing row changes nothing |
| `FulfillmentOutbox.ClaimSucceedsExactly` | apps/api/src/repositories/fulfillment-outbox.repository.ts:60-80 | in every run, from the history alone, a claim succeeds exactly if nobody wrote yet, the last claim is over 15 minutes old, or the last mark opened the row and the wait asked for by the last retryable mark is over |
| `FulfillmentOutbox.RetriesWait` | apps/api/src/repositories/fulfillment-outbox.repository.ts:98-111 | in every run, each claim after a retryable mark comes when its delay is over, a minute if none was given, unless another retryable mark came between |
| `FulfillmentOutbox.AvailableAfterRetry` | apps/api/src/repositories/fulfillment-outbox.repository.ts:98-111 | a row is available from the instant its last retryable mark asked for, whatever was written since |
| `FulfillmentOutbox.SecondHolderExactly` | apps/api/src/repositories/fulfillment-outbox.repository.ts:54-82 | and under exactly that condition of the history it gives a held row a second holder |
| `FulfillmentOutbox.ExposedExactly` | apps/api/src/repositories/fulfillment-outbox.repository.ts:54-125 | the single steps after a disciplined run that leave a held row to a second claim: exactly an overstaying worker, an enqueued mark, or another worker's failure mark without delay |
| `FulfillmentOutbox.StaysFinalExactly` | apps/api/src/repositories/fulfillment-outbox.repository.ts:84-125 | in every run a completed or terminal row stays so exactly if nobody marks it enqueued or retryable |
| `FulfillmentOutbox.FinalOpensExactly` | apps/api/src/repositories/fulfillment-outbox.repository.ts:84-111 | exactly which step opens a completed or terminal row to a claim |
| `FulfillmentOutbox.OneHolder` | apps/api/src/repositories/fulfillment-outbox.repository.ts:54-125 | in a disciplined run no row has two holders, and its holder is the one the row's processingAt names |
| `FulfillmentOutbox.FinalIsLast` | apps/api/src/repositories/fulfillment-outbox.repository.ts:54-125 | in a disciplined run a completed or terminal row is never claimed or marked again |
| `FulfillmentOutbox.CompletesAtMostOnce` | apps/api/src/repositories/fulfillment-outbox.repository.ts:91-96 | in a disciplined run the row completes at most once |
| `FulfillmentOutbox.PromptIsNeeded` | apps/api/src/repositories/fulfillment-outbox.repository.ts:68-71 | a worker one millisecond over 15 minutes allows a second holder |
| `FulfillmentOutbox.EnqueuesWaitingIsNeeded` | apps/api/src/services/fulfillment-shadow/fulfillment-shadow-queue.service.ts:21-35 | the queue marks a row enqueued after handing it over; if the worker has claimed it, a second claim succeeds |
| `FulfillmentOutbox.EnqueuedAgainCompletesTwice` | apps/api/src/routes/admin-fulfillment-shadow.ts:692-708 | the queue marks a completed row enqueued, and it is claimed and completed a second time |
| `FulfillmentOutbox.OwnResultIsNeeded` | apps/api/src/services/fulfillment-shadow/shadow-processor.service.ts:219-230 | a worker whose stored completion is reported to it as an error marks a failure, and the completed row can be claimed a minute later |
| `FulfillmentOutbox.OutboxRow.ClaimForProcessing` | apps/api/src/repositories/fulfillment-outbox.repository.ts:54-82 | succeeds exactly on a claimable row; the whole new row; what is returned |
| `FulfillmentOutbox.OutboxRow.CreatePending` | apps/api/src/repositories/fulfillment-outbox.repository.ts:34-52 | the row the upsert creates |
| `FulfillmentOutbox.OutboxRow.MarkAsEnqueued` | apps/api/src/repositories/fulfillment-outbox.repository.ts:84-89 | the whole new row |
| `FulfillmentOutbox.OutboxRow.MarkAsCompleted` | apps/api/src/repositories/fulfillment-outbox.repository.ts:91-96 | the whole new row |
| `FulfillmentOutbox.OutboxRow.MarkAsRetryable` | apps/api/src/repositories/fulfillment-outbox.repository.ts:98-111 | the whole new row, with the default delay of one minute |
| `FulfillmentOutbox.OutboxRow.MarkAsTerminal` | apps/api/src/repositories/fulfillment-outbox.repository.ts:113-125 | the whole new row |
| `LeadAllocation.QuantityCountsRows` | apps/api/src/repositories/lead-allocation.repository.ts:107-132 | under every interleaving, each order's proposedQuantity grows by exactly the number of rows created for it |
| `LeadAllocation.OneCreatorPerKey` | apps/api/src/repositories/lead-allocation.repository.ts:102-143 | a new row exists for a key exactly if some call with that key was told `created: true`, and only one ever is |
| `LeadAllocation.SameAllocationForAll` | apps/api/src/repositories/lead-allocation.repository.ts:102-143 | all calls of a key that do not fail return the same allocation, across time |
| `LeadAllocation.AnswerMatchesInput` | apps/api/src/repositories/lead-allocation.repository.ts:102-143 | under every interleaving, a call told `created: true` gets a row that holds the lead, order, client, policy version and key it passed, each trimmed, with its reasons and candidates; any successful call gets a row with its own trimmed key |
| `LeadAllocation.SameRowSameKey` | apps/api/src/repositories/lead-allocation.repository.ts:102-143 | two successful calls get the same row exactly if they passed the same key, up to white space around it |
| `LeadAllocation.FailsOnlyForCause` | apps/api/src/repositories/lead-allocation.repository.ts:107-142 | a call fails only if it found its lead isolated or the order it named is not there |
| `LeadAllocation.RunKeepsOwnKeys` | apps/api/src/repositories/lead-allocation.repository.ts:107-128 | every row stays stored under its own key |
| `LeadAllocation.RowsAreFinal` | apps/api/src/repositories/lead-allocation.repository.ts:107-128 | a stored row is never changed or lost |
| `LeadAllocation.RacingNeverFails` | apps/api/src/repositories/lead-allocation.repository.ts:133-142 | a call that lost the race always finds the winner's row and returns it with `created: false` |
| `LeadAllocation.TxConserves` | apps/api/src/repositories/lead-allocation.repository.ts:107-132 | one transaction moves the counter and the rows together, or neither |
| `LeadAllocation.Database.Transact` | apps/api/src/repositories/lead-allocation.repository.ts:107-132 | result and both tables after the transaction in place, rolled back when the order is missing |
| `LeadAllocation.Database.CreateShadowIdempotent` | apps/api/src/repositories/lead-allocation.repository.ts:102-143 | a whole call with nobody in between, on each of its outcomes |
| `SheetsDestination.OneClientPerSpreadsheet` | apps/api/src/repositories/company-sheets-destination.repository.ts:93-98 | after any run of transactions no spreadsheet is the destination of two clients |
| `SheetsDestination.OneCurrentLink` | apps/api/src/repositories/company-sheets-destination.repository.ts:142-168 | each client has at most one current link, and a link has a superseded time exactly when it is not current |
| `SheetsDestination.CurrentLinkNamesDestination` | apps/api/src/repositories/company-sheets-destination.repository.ts:142-177 | a client's current link names the spreadsheet of its destination |
| `SheetsDestination.SavedDestinationIsLinked` | apps/api/src/repositories/company-sheets-destination.repository.ts:142-177 | from a client's first save on, its destination is always named by a current link |
| `SheetsDestination.ContractsFollowDestination` | apps/api/src/repositories/company-sheets-destination.repository.ts:121-122 | no tab contract outlives its destination or the spreadsheet it was bound in |
| `SheetsDestination.SaveRemembers` | apps/api/src/repositories/company-sheets-destination.repository.ts:121-168 | a save leaves a current link to the new spreadsheet and some link to the one it replaced, inferred if none was stored |
| `SheetsDestination.LinksStay` | apps/api/src/repositories/company-sheets-destination.repository.ts:121-168 | links are never dropped |
| `SheetsDestination.NothingIsForgotten` | apps/api/src/repositories/company-sheets-destination.repository.ts:91-178 | every spreadsheet a client pointed at after its first save has a link forever |
| `SheetsDestination.ReplacedIsRemembered` | apps/api/src/repositories/company-sheets-destination.repository.ts:121-141 | so does a destination from before the links that a save replaces |
| `SheetsDestination.RememberedExactly` | apps/api/src/repositories/company-sheets-destination.repository.ts:121-168 | a spreadsheet has a link of a client exactly if it had one before or a save of the client named it or replaced it |
| `SheetsDestination.DeletedLegacyIsForgotten` | apps/api/src/repositories/company-sheets-destination.repository.ts:208-213 | a destination from before the links, deleted before any save, is linked later exactly if a later save names its spreadsheet again |
| `SheetsDestination.CurrentExactly` | apps/api/src/repositories/company-sheets-destination.repository.ts:142-168 | a link is current exactly if the client's last save names its spreadsheet, or it was current and the client saved nothing since |
| `SheetsDestination.CurrentIsExclusive` | apps/api/src/repositories/company-sheets-destination.repository.ts:91-213 | two current links to one spreadsheet whose clients both have a destination are the same link |
| `SheetsDestination.DeleteLeavesALinkCurrent` | apps/api/src/repositories/company-sheets-destination.repository.ts:208-213 | without a destination they may not be: a delete leaves its link current, and another client may save that spreadsheet |
| `SheetsDestination.RevisionCountsSaves` | apps/api/src/repositories/company-sheets-destination.repository.ts:169-177 | between deletes the revision counts exactly the successful saves |
| `SheetsDestination.SaveSucceedsExactly` | apps/api/src/repositories/company-sheets-destination.repository.ts:93-98 | a save succeeds exactly if no other client's destination names the spreadsheet or the creation record; exactly which conflict is reported otherwise |
| `SheetsDestination.DestinationExactly` | apps/api/src/repositories/company-sheets-destination.repository.ts:84-213 | after every run a destination holds, field by field, its last successful save with the readiness fields reset, and the access checks since, or nothing after a delete |
| `SheetsDestination.SaveLinksExactly` | apps/api/src/repositories/company-sheets-destination.repository.ts:121-168 | every link after a save: an old one, aged, the new current one, or the inferred one with the replaced destination's own title, address and instant |
| `SheetsDestination.ContractLivesExactly` | apps/api/src/repositories/company-sheets-destination.repository.ts:121-122 | a tab contract lives exactly as long as no delete and no save onto another spreadsheet ends it |
| `SheetsDestination.CreationStartsAtOne` | apps/api/src/repositories/company-sheets-destination.repository.ts:175-177 | a created destination starts at revision 1, disabled, under a fresh identifier |
| `SheetsDestination.RunKeepsInv` | apps/api/src/repositories/company-sheets-destination.repository.ts:91-213 | the invariant over the three tables holds after every run |
| `SheetsDestination.Database.SupersedeOthers` | apps/api/src/repositories/company-sheets-destination.repository.ts:142-149 | every other current link of the client becomes previous, and nothing else changes |
| `SheetsDestination.Database.LeaveReplaced` | apps/api/src/repositories/company-sheets-destination.repository.ts:121-141 | the old contracts and the inferred link of a replaced spreadsheet |
| `SheetsDestination.Database.SaveDestination` | apps/api/src/repositories/company-sheets-destination.repository.ts:84-188 | result, conflict and all three tables after the save in place |
| `SheetsDestination.Database.UpdateAccessStatus` | apps/api/src/repositories/company-sheets-destination.repository.ts:190-206 | the row returned and the tables after it |
| `SheetsDestination.Database.DeleteDestination` | apps/api/src/repositories/company-sheets-destination.repository.ts:208-213 | the answer and the tables after it |
| `DeliveryTargetMetadata.ValidatorAcceptsPresented` | apps/api/src/lib/delivery-target-metadata.validation.ts:13-72 | the validator finds no secret path in what the presenter shows, at any depth, through arrays and nested arrays |
| `DeliveryTargetMetadata.RedactIsIdempotent` | apps/api/src/lib/delivery-target-metadata.validation.ts:46-72 | presenting twice is presenting once, and a tree is left as it is exactly when it is presentable |
| `DeliveryTargetMetadata.RedactIsPresentable` | apps/api/src/lib/delivery-target-metadata.validation.ts:46-72 | what is shown has no secret key, no long string under a key and no array in an array |
| `DeliveryTargetMetadata.PresentableIsKept` | apps/api/src/lib/delivery-target-metadata.validation.ts:46-72 | such a tree is shown unchanged |
| `DeliveryTargetMetadata.PresenterKeepsOpenKeys` | apps/api/src/lib/delivery-target-metadata.validation.ts:51-69 | no other key is dropped, and their order is kept |
| `DeliveryTargetMetadata.OnePathPerSecretKey` | apps/api/src/lib/delivery-target-metadata.validation.ts:13-34 | the validator reports exactly one path for each secret key in the tree |
| `RedactionPaths.ReportedExactly` | apps/api/src/lib/delivery-target-metadata.validation.ts:13-34 | a text is reported exactly if it is the path, keys joined by dots and indices in brackets, of a secret key of the tree |
| `RedactionPaths.ShownExactly` | apps/api/src/lib/delivery-target-metadata.validation.ts:46-72 | along every path: nothing behind a secret key or inside an array in an array is shown, a long string under a key is shown as 120 characters and an ellipsis, and every other value as it is |
| `DeliveryTargetMetadata.CollectSecretPaths` | apps/api/src/lib/delivery-target-metadata.validation.ts:13-34 | the paths, in order, as the loops push them |
| `DeliveryTargetMetadata.CollectFromItems` | apps/api/src/lib/delivery-target-metadata.validation.ts:16-18 | the paths of an array's items, each under its index |
| `DeliveryTargetMetadata.CollectFromMembers` | apps/api/src/lib/delivery-target-metadata.validation.ts:20-31 | the paths of an object's members, in order |
| `DeliveryTargetMetadata.CollectFromMember` | apps/api/src/lib/delivery-target-metadata.validation.ts:23-29 | a secret key's own path comes before the paths inside its value |
| `DeliveryTargetMetadata.RedactMemberValue` | apps/api/src/lib/delivery-target-metadata.validation.ts:53-69 | what one kept value becomes, on each branch |
| `DeliveryTargetMetadata.RedactEach` | apps/api/src/lib/delivery-target-metadata.validation.ts:54-58 | the items of an array: objects and arrays are redacted, the rest is kept |
| `DeliveryTargetMetadata.RedactForPresentation` | apps/api/src/lib/delivery-target-metadata.validation.ts:46-72 | the presented object, as the loop fills it |
| `CustomWebhookSecret.HiddenExactly` | apps/api/src/lib/custom-webhook-secret.ts:156-185 | the secrets hidden from every string value, in every tree and with every list, are exactly those of length 4 or more that agree with the marker in no overlap |
| `CustomWebhookSecret.RedactHides` | apps/api/src/lib/custom-webhook-secret.ts:156-185 | no string value of the redacted tree contains such a secret, whatever the order and overlaps; no dropped key is left |
| `CustomWebhookSecret.Survives` | apps/api/src/lib/custom-webhook-secret.ts:179-185 | for every other secret, a list that holds it and a string on which it survives |
| `CustomWebhookSecret.PlainIsScrubbable` | apps/api/src/lib/custom-webhook-secret.ts:18 | every secret of length 4 or more without a star and not part of REDACTED is among the hidden ones |
| `CustomWebhookSecret.KeysSurvive` | apps/api/src/lib/custom-webhook-secret.ts:170-176 | keys are not scrubbed: those of the redacted tree are those of the tree without its dropped members |
| `CustomWebhookSecret.KeySurvivesExactly` | apps/api/src/lib/custom-webhook-secret.ts:170-176 | a secret used as a key survives exactly if that key is not dropped |
| `CustomWebhookSecret.ScrubRemoves` | apps/api/src/lib/custom-webhook-secret.ts:179-185 | a later replacement never brings back a secret an earlier one removed |
| `CustomWebhookSecret.ReplaceRemoves` | apps/api/src/lib/custom-webhook-secret.ts:182 | one replacement leaves no occurrence |
| `CustomWebhookSecret.ReplaceKeepsAbsent` | apps/api/src/lib/custom-webhook-secret.ts:182 | a replacement creates no occurrence of another such secret |
| `CustomWebhookSecret.MarkerPartsSurvive` | apps/api/src/lib/custom-webhook-secret.ts:18 | a secret that is part of the marker does survive wherever a replacement is made |
| `CustomWebhookSecret.WalkLeavesOthers` | apps/api/src/lib/custom-webhook-secret.ts:166-177 | a tree without dropped keys and secrets is returned unchanged |
| `RedactionPaths.LeftExactly` | apps/api/src/lib/custom-webhook-secret.ts:166-177 | along every path: nothing behind a dropped key is left, every string is scrubbed, and every other value is as it was |
| `RedactionPaths.ScrubInTurn` | apps/api/src/lib/custom-webhook-secret.ts:179-185 | the secrets of a list are cut out in turn, in its order |
| `RedactionPaths.ScrubOneExactly` | apps/api/src/lib/custom-webhook-secret.ts:179-185 | a secret of length 4 or more leaves the parts between its occurrences, in order, joined by the marker; a shorter one is ignored |
| `Text.ReplaceIsSplitJoin` | apps/api/src/lib/custom-webhook-secret.ts:182 | replacing everywhere is joining the parts by the replacement |
| `Text.SplitIsExact` | apps/api/src/lib/custom-webhook-secret.ts:182 | the parts joined by the pattern are the text itself, and the pattern occurs in none of them nor earlier than behind each |
| `CustomWebhookSecret.RedactIsIdempotent` | apps/api/src/lib/custom-webhook-secret.ts:156-185 | redacting twice is redacting once, for every list whose secrets of length 4 or more are all hidden ones in the sense of HiddenExactly |
| `CustomWebhookSecret.ScrubString` | apps/api/src/lib/custom-webhook-secret.ts:179-185 | the replacement loop computes the scrubbed string |
| `CustomWebhookSecret.WalkValue` | apps/api/src/lib/custom-webhook-secret.ts:166-177 | the walk in place of the recursive specification |
| `CustomWebhookSecret.WalkEach` | apps/api/src/lib/custom-webhook-secret.ts:168 | the items of an array, in order |
| `CustomWebhookSecret.WalkEntries` | apps/api/src/lib/custom-webhook-secret.ts:170-176 | the kept members of an object, in order |
| `FlatJson.ObjectParses` | packages/shared/src/availability-interest.ts:134-140 | reading a printed object of string and boolean members gives it back |
| `FlatJson.CutObjectFails` | packages/shared/src/availability-interest.ts:96-104 | an object cut inside its last string is not readable |
| `AvailabilityRoundTrip.RoundTrip` | packages/shared/src/availability-interest.ts:89-154 | parse(merge(notes, i)) = i exactly under a condition decided by the kept notes, the size and the time |
| `AvailabilityRoundTrip.MergeReads` | packages/shared/src/availability-interest.ts:89-154 | what merged notes read back as, for all notes and all interests |
| `AvailabilityRoundTrip.ObjectReads` | packages/shared/src/availability-interest.ts:96-118 | the appendix's object, cut anywhere, reads back as the interest exactly when it is whole and no brace in the time closes it |
| `AvailabilityRoundTrip.MergeIsLimited` | packages/shared/src/availability-interest.ts:142-154 | merged notes never exceed 2000 characters |
| `AvailabilityRoundTrip.MergeAgainReads` | packages/shared/src/availability-interest.ts:120-154 | after a merge without a marker in the kept text, with an appendix that fits and no brace in the time, merging again with j makes the notes read back as the appendix of j does: as j trimmed, if it fits and its time has no brace |
| `AvailabilityRoundTrip.StripMerged` | packages/shared/src/availability-interest.ts:120-132 | under the same conditions stripping merged notes gives back the kept text, without lines that are only a rule |
| `AvailabilityRoundTrip.StripGivesBack` | packages/shared/src/availability-interest.ts:120-154 | merging and stripping gives back the kept text, a beginning of the customer's own, if that holds no marker and no rule |
| `AvailabilityRoundTrip.KeptIsOwnText` | packages/shared/src/availability-interest.ts:142-154 | what is kept of notes without a marker is all of the trimmed text if there is room, else as much as there is room for, less white space at its end |
| `AvailabilityRoundTrip.RulesBringNoMarker` | packages/shared/src/availability-interest.ts:130 | removing rule lines never assembles a marker |
| `AvailabilityRoundTrip.BlockerFires` | packages/shared/src/availability-interest.ts:162-171 | exactly when the fulfillment blocker fires on merged notes: by a campaign type of an interest, by the kept notes, or by the interest that fits |
| `AvailabilityRoundTrip.CampaignExactly` | packages/shared/src/availability-interest.ts:55-69 | the campaign types that block an order are exactly those written for an interest, `availability_interest:` and an offering, with any white space around them |
| `AvailabilityRoundTrip.WrittenIsBlocked` | packages/shared/src/availability-interest.ts:162-171 | every campaign type the server writes is blocked, whatever the notes and the white space around it |
| `AvailabilityRoundTrip.OfferingExactly` | packages/shared/src/availability-interest.ts:21-37 | a name is recognised as an offering exactly if it is the one written for it |
| `AvailabilityMarker.MarkerStandsOnce` | packages/shared/src/availability-interest.ts:142-154 | merged notes hold the marker at exactly one place, when neither the kept text nor the time holds it and the appendix fits |
| `AvailabilityMarker.StrayMarkerStays` | packages/shared/src/availability-interest.ts:120-132 | a marker in the customer's own text that no object follows directly is not stripped |
| `AvailabilityMarker.StrayObjectDecides` | packages/shared/src/availability-interest.ts:89-105 | then the customer's own text decides what the merged notes read back as |
| `AvailabilityMarker.BlockerMisses` | packages/shared/src/availability-interest.ts:162-171 | and the blocker does not fire if that text holds no interest |
| `AvailabilityMarker.SomeNotesHideTheInterest` | packages/shared/src/availability-interest.ts:89-171 | for every interest of reasonable size there are notes for which the round trip and the blocker fail |
| `CommerceAgeBuckets.PrefilterAgreesWithRowCheck` | apps/api/src/services/ppl-fulfillment/inventory-selection.service.ts:278-306 | for all instants and all request lists, the database condition selects a row exactly if the check on each row keeps it |
| `CommerceAgeBuckets.PrefilterIsExact` | packages/shared/src/commerce-age-buckets.ts:115-168 | a request with keys selects exactly the rows whose floor-day age lies in a requested bucket; unknown keys add none |
| `CommerceAgeBuckets.EmptyRequestIsExact` | packages/shared/src/commerce-age-buckets.ts:118-123 | a request without keys selects exactly the rows the resolver gives a bucket |
| `CommerceAgeBuckets.OnlyBucketOfItsAge` | packages/shared/src/commerce-age-buckets.ts:85-109 | the resolver's bucket is the only active one that contains the age |
| `CommerceAgeBuckets.LegacyIsUnion` | packages/shared/src/commerce-age-buckets.ts:59-64 | the retired key stands for exactly 6–9 and 9–12 months |
| `CommerceAgeBuckets.MatchesMeansInBucket` | apps/api/src/services/ppl-fulfillment/inventory-selection.service.ts:278-306 | the row check keeps exactly the ages in a requested bucket |
| `CommerceAgeBuckets.FilterIsExact` | packages/shared/src/commerce-age-buckets.ts:153-168 | one instant range accepts exactly the ages of its day range, under floor division |
| `CommerceAgeBuckets.Resolve` | packages/shared/src/commerce-age-buckets.ts:85-94 | the loop over the sorted catalogue finds the bucket of the age |
| `CommerceAgeBuckets.Expand` | packages/shared/src/commerce-age-buckets.ts:115-142 | the loop gives the ranges of the recognised keys, in order |
| `CommerceAgeBuckets.BuildWhere` | apps/api/src/services/ppl-fulfillment/inventory-selection.service.ts:475-503 | the row condition with none, one or several ranges |
| `CommerceAgeBuckets.ParseKeys` | packages/shared/src/commerce-age-buckets.ts:170-180 | exactly the recognised keys of the request, each once, in order of first mention; nothing from a value that is no list |
| `LifecycleEnrich.EnrichIsIdempotent` | apps/api/src/lib/lifecycle-event-enrich.ts:137-219 | enrich(enrich(p)) = enrich(p) for every payload and event name |
| `LifecycleEnrich.EnrichFillsOnly` | apps/api/src/lib/lifecycle-event-enrich.ts:121-131 | a field that is not blank on arrival is unchanged, and a changed field is not blank |
| `LifecycleEnrich.ArrivalDecides` | apps/api/src/lib/lifecycle-event-enrich.ts:137-212 | each field takes the first offer open to its value on arrival, or keeps that value: later blocks never see a difference that matters |
| `LifecycleEnrich.BlankAfterwards` | apps/api/src/lib/lifecycle-event-enrich.ts:121-212 | a field is blank afterwards exactly if it was blank and no offer was open to its very kind of blank |
| `LifecycleEnrich.MissingTakesFirst` | apps/api/src/lib/lifecycle-event-enrich.ts:142-212 | a missing field takes the first of all offers, so blocks win over defaults and defaults over a disposition code |
| `LifecycleEnrich.FirstOfferWins` | apps/api/src/lib/lifecycle-event-enrich.ts:121-131 | filling offer by offer equals choosing the first open offer at once |
| `LifecycleFields.StageExactly` | apps/api/src/lib/lifecycle-event-enrich.ts:142-206 | the stage from its value on arrival and the payload: an appointment time, an outbound call, a booking by the AI, the event's default, in this order, each for its own kinds of blank value |
| `LifecycleFields.AppointmentStatusExactly` | apps/api/src/lib/lifecycle-event-enrich.ts:142-206 | the appointment status: the block's status or its older one, trimmed, a booking by the AI, the event's default |
| `LifecycleFields.AgentDispositionExactly` | apps/api/src/lib/lifecycle-event-enrich.ts:162-212 | the agent's disposition: the call's outcome, the event's default, the disposition code |
| `LifecycleFields.PolicyStatusExactly` | apps/api/src/lib/lifecycle-event-enrich.ts:175-206 | the policy status: the block's own, ISSUED for an older status that says issued in any letters, the event's default |
| `LifecycleFields.AiStatusExactly` | apps/api/src/lib/lifecycle-event-enrich.ts:153-206 | the AI status: booked_by_ai if the first visible source has the letters a and i side by side or the flag says yes, then the report of the AI block, the event's default |
| `LifecycleFields.RestExactly` | apps/api/src/lib/lifecycle-event-enrich.ts:94-97 | the dead-lead flag comes from one event alone, and the other three fields are never filled |
| `LifecycleFields.DefaultIsOffered` | apps/api/src/lib/lifecycle-event-enrich.ts:6-105 | the table of defaults read by field: each field gets the one default listed for it, or none |
| `LifecycleFields.AiBookedExactly` | apps/api/src/lib/lifecycle-event-enrich.ts:153-159 | the two tests of an AI booking, as the letters of the source and of the flag |
| `LifecycleEnrich.AllSpaceTrims` | apps/api/src/lib/lifecycle-event-enrich.ts:126 | the blank test is the test that trimming leaves nothing |
| `LifecycleEnrich.MergeState` | apps/api/src/lib/lifecycle-event-enrich.ts:121-131 | the merging loop, entry by entry |
| `LifecycleEnrich.MergeTakesOffers` | apps/api/src/lib/lifecycle-event-enrich.ts:203-206 | merging the defaults takes their offers for each field |
| `LifecycleEnrich.ApplyAppointment` | apps/api/src/lib/lifecycle-event-enrich.ts:142-160 | the appointment block, field by field |
| `LifecycleEnrich.ApplyCall` | apps/api/src/lib/lifecycle-event-enrich.ts:162-173 | the call block, field by field |
| `LifecycleEnrich.ApplyPolicy` | apps/api/src/lib/lifecycle-event-enrich.ts:175-184 | the policy block, field by field |
| `LifecycleEnrich.ApplyAi` | apps/api/src/lib/lifecycle-event-enrich.ts:186-201 | the AI block, field by field |
| `LifecycleEnrich.ApplyDisposition` | apps/api/src/lib/lifecycle-event-enrich.ts:208-212 | the disposition block, field by field |
| `LifecycleEnrich.Enrich` | apps/api/src/lib/lifecycle-event-enrich.ts:137-219 | the six blocks in sequence reach the state described field by field, an absent attribution becomes empty, and the rest is passed on |

## Left out

- The clock of the login limiter does not go back, and there is one process. The bounds of 63 and 15, and the exact condition of being limited, are for attempts that check and record at one instant (`apps/admin-coc/src/app/actions/meta-reviewer-login.ts:34-41` awaits in between); the bounds with attempts in flight are stated apart and are not claimed to be sharp.
- The address normalisation that picks a rate-limit key: keys are arbitrary strings here.
- Redis expiry is a step that may happen at any moment from the deadline on; eviction, replication and a window below one millisecond are not modelled. All callers of a bucket pass the same limit and window.
- 32-bit limits of stored counters and the range of JavaScript dates: integers are unbounded.
- SQL isolation, Prisma, Postgres and Google clients: a conditional update and a transaction are atomic, a unique key is a failing create.
- Other writers of a credential row are one step that keeps identity and tenant and never lowers the version; what they write is arbitrary. Version-lowering writes are not in the runs.
- Finding the row and wiping or marking it, updating access and deleting a destination are each one step, though the code reads and then writes.
- The company form wipes a verifier without a guard in the update; it is modelled as called only by the callback that consumed the row, as in `apps/api/src/services/company-google/company-google-oauth.service.ts:115-127`.
- Blank identifiers in the client form's verifier wipe, which the code answers without a query: no stored identifier is blank.
- Runs of the allocation contain the idempotent creation only: not the plain creation, which creates a row and counts nothing, nor the deletion of rows, nor the foreign keys of lead and client.
- Whether a lead is isolated for the pilot is an input of the allocation step.
- Tab contracts are bound by other code; here a bind is one step on an existing destination.
- A character counts one: text outside the basic multilingual plane counts two per character in the code, and half of a surrogate pair does not occur here, nor is a \u escape that names one read.
- JSON objects nested in the notes, where the first closing brace ends the match early: they are unreadable to the model's parser, as they are once cut at that brace.
- The campaign-type labels and the normalisation of the public campaign catalogue: one-branch mappings.
- Repeated and special object keys such as `__proto__`: a JSON object is a list of members in order.
- Letter case is folded for plain letters, as the key patterns need, and for dotted capital I in the booking source.
- Parts of a lifecycle payload that are only passed on are one value, and a null policy status inside the policy block reads as none.
- US state names, route gates, token encryption, hashing, presenters, labels and env flags: one-branch logic, library calls or I/O.
