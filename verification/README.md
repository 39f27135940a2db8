# Verified models of the finance platform's services

The repository is a set of Python services that talk over RabbitMQ and keep their state in Postgres and
Redis. This project models the parts of it that carry a protocol, a cache that must agree with what it
speeds up, an import that must not lose or repeat rows, or arithmetic that must stay in range, and proves
what they promise over every input and every run.

Tables are maps or sequences, queues are sequences, a Redis key is a value with an expiry time, and time
is a number. A protocol is a value (`Broker`, `System`, `State`, `Importer`), one step of it a function
`Next`, and a run a sequence of steps. Where the Python code updates state, a class with the same methods
is proved to perform exactly those steps, loops included, and the lemmas are about the steps. All files
verify together: `dafny verify dfyconfig.toml`.

| file | what it models |
|---|---|
| `Delivery.dfy`, `DeliveryRuns.dfy` | background messages: main, retry and dead queues, attempt counting, the idempotency claim |
| `DeliveryPosts.dfy` | what messages carry, the order they are taken in, and what their handling answers |
| `DeliveryDeaths.dfy` | how many attempts a message gets when consumers die |
| `DeliveryGuard.dfy` | the idempotency claim over whole runs, with retries and with crashes |
| `ChatWorkflow.dfy`, `ChatRuns.dfy` | the chat service's transactional outbox and result inbox |
| `ChatContents.dfy` | what messages and replies say, the result queue, and what a flush reports |
| `BalanceCache.dfy` | the version-keyed balance cache and its writers |
| `BalanceLaws.dfy` | what each table contributes to the balance that is read next, and how long it is served |
| `GroupBudget.dfy` | the family budget that adds the members' balances up, and its own cache |
| `AuthCache.dfy` | the gateway's cache of verified tokens and its per-user index |
| `ProfileCache.dfy` | the health profile cache over its snapshot table |
| `DedupeKey.dfy`, `SheetParser.dfy`, `SheetAccounts.dfy` | the workbook parser, its row accounting and its dedupe keys |
| `SheetFields.dfy` | what is read and what is passed over, which cell each field and issue comes from, and in what order |
| `ImportTable.dfy`, `ImportRuns.dfy`, `ImportJobs.dfy` | bulk insertion, account resolution, chunked sending, import jobs with crashes and reruns |
| `ImportDrafts.dfy` | transactions made one at a time |
| `ImportFiles.dfy` | histories of uploads and jobs, and when their rows clash in the table |
| `Stability.dfy`, `Scoring.dfy` | income stability, the weighted health score, the credit load index |
| `Sessions.dfy` | login, logout, refresh rotation, password change |
| `Reminders.dfy`, `ReminderScans.dfy` | reminder planning and the due scan |
| `Paging.dfy` | the three client loops that fetch a list page by page |
| `Ceiling.dfy`, `Reals.dfy`, `Wrappers.dfy` | batches of a size, exact arithmetic, the optional value |

## What the proofs show about the code

These results differ from what the documentation or the code's own structure suggests; the model follows
the code.

- The idempotency guard defeats the retry path unless claims are short. A retry copy keeps its `message_id`,
  so in a crash-free run with retries a background message that has failed and leaves the queues while its
  claim lives was attempted exactly once, ends as `duplicate_skipped`, and is never retried or dead-lettered
  (`FailureEndsSkipped`). With distinct ids and without crashes, every background message whose attempts all
  fail becomes a dead letter after exactly `max_retries + 1` of them if and only if the guard is off, a claim
  lives at most as long as the retry delay, or `max_retries` is 0 (`RetriesSurviveExactlyWhenQuick`). The
  defaults, a day against a second and three retries, are none of these; `docs/redis-usage.md` presents the
  guard as protection for such commands.
- A consumer that dies between the claim and the handler leaves a message that is handled only if it is
  redelivered after the claim is gone (`CrashAfterClaim`). Every message that leaves the queues has been
  handled, in all runs with crashes, if and only if the guard is off (`HandledExactlyWhenUnguarded`); under
  the guard and with distinct ids a death at that one point is the only way to lose one
  (`OnlyClaimDeathsLose`).
- A consumer that dies after sending a retry copy leaves two messages with attempts of their own. Deaths can
  multiply the `max_retries + 1` attempts by their number plus one (`AttemptBoundWithDeaths`), and one death
  can double them (`DeathDoublesAttempts`).
- A result delivery that ends in an unexpected error is rejected without being queued again. With an empty
  result queue, an answered run is without its reply if and only if a delivery of it was dropped and none got
  to its commit (`LostExactlyWhenDropped`); so a drop costs the reply exactly when the run had none and no
  other result of it is queued (`DropLosesExactly`, and `DropLosesReply` for a run).
- The balance cache is coherent over every run of writers that bump the data version. After an account write
  that does not bump it all later reads are right if and only if the write leaves the account's unarchived
  initial balance as it was, or the user has neither a live entry nor a read in flight at that version
  (`QuietWriteExactly`; `QuietWriteBreaks` and `QuietWriteInFlightBreaks` are runs). A read in flight spoils
  later ones exactly when the numbers it stores are no longer those of its period (`FillExactly`,
  `InterleavedWrite`, and `InterleavedWriteBreaks` for a run).
- The family summary is cached under the highest member version. After a member's write the summary served
  is right if and only if that member held the highest version or the family's total did not change
  (`SummaryAfterWrite`). A total that misses a member whose request failed is served until it expires
  (`PartialTotalStays`).
- A health profile is refilled from an unversioned snapshot, so data-version bumps never lead to a new
  calculation; only a refresh does (`ReadsAreSticky`, `ProfileOutlivesBumps`). `docs/redis-usage.md` has
  imports and changes of goals, limits and regular expenses reset the profile.
- A password change removes all cached tokens of the user exactly for the configurations whose default TTL
  is at most the maximum TTL plus an hour (`ForgetsExactlyWhenBounded`).
- A bulk insert names only one of the table's two unique constraints in `ON CONFLICT`. The statement
  succeeds exactly when no two rows of the merged table share file, sheet and row number
  (`InsertIffPlaces`); otherwise the whole chunk is rolled back. Rows of uploaded files never clash, whatever
  their jobs go through (`ImportsNeverClash`), so a clean try ends well if and only if all rows have dates
  (`JobsAlwaysEnd`). A transaction created by hand at the place of a file's row blocks that file for good
  (`HandMadeRowBlocks`).
- A numeric date cell below 1 is read as a time without a date. The parser accepts it and the finance service
  does not, so a first import with such a row fails, on every try, after storing exactly the full chunks of
  500 rows before it (`UndatedImportFails`).
- A rerun of an import stores its rows once but its parse issues again (`IssuesRepeat`).
- `notifications.schedule` keeps reminders unique exactly when no reminder with that key is planned or queued
  (`ScheduleKeepsUnique`), and over whole runs exactly when it is only used so (`RemindersAreUnique`). A
  reminder is published once when it is queued and once more for each scan that dies after publishing it
  (`PublishedWhenQueued`, and `DeathRepeats` for a run).
- The budget score is never available, because the list it is computed from is empty in every case, so the
  weights applied to a profile never sum to more than 0.85 before they are renormalised (`NominalWeight`).

## Model

| member | source | states |
|---|---|---|
| Delivery.MessageWorker.constructor | libs/common/common/messaging.py:233-258 | A worker starts with the given guard, retry limit and delay and with empty queues |
| Delivery.MessageWorker.Claim | libs/common/common/redis_client.py:54-56 | The claim is set only if absent or expired, and the answer says which |
| Delivery.MessageWorker.HandleMessage | libs/common/common/messaging.py:371-388 | One handling: a message under a live claim is skipped without an attempt, any other is claimed first and its handler's reply returned |
| Delivery.MessageWorker.PublishDeadLetter | libs/common/common/messaging.py:390-407 | The message joins the dead queue with its last error and nothing else changes |
| Delivery.MessageWorker.RetryOrDeadLetterMessage | libs/common/common/messaging.py:409-439 | A failed message becomes a retry copy with one more attempt and the last ten errors, or a dead letter when its attempts are spent |
| Delivery.MessageWorker.ConsumeOne | libs/common/common/messaging.py:342-359 | Consuming the head of the main queue is one delivery step of the protocol |
| DeliveryRuns.Conservation | libs/common/common/messaging.py:342-359 | In every crash-free run each published message is in exactly one of main, retry, dead or settled |
| DeliveryRuns.NeverLost | libs/common/common/messaging.py:342-359 | With crashes anywhere in a delivery a message may be duplicated but never disappears from main, retry, dead and settled; whether it was handled is the matter of HandledExactlyWhenUnguarded |
| DeliveryRuns.RetryLedger | libs/common/common/messaging.py:409-439 | A message waiting after k failures carries the last min(k, 10) errors in order and the retry limit and delay; a dead letter has max_retries + 1 failures, its last error and the time of it; a settled one is accounted for by its reply |
| DeliveryRuns.WaitingSaysWhy | libs/common/common/messaging.py:409-439 | In every crash-free run a waiting message carries exactly the most recent of its failures, ten at most, in order |
| DeliveryPosts.MessagesSayWhatWasPublished | libs/common/common/messaging.py:409-439 | In every run, deaths included, each copy in main, retry, dead or settled carries the id, kind, payload and reply queue of the publication with its tag |
| DeliveryPosts.AttemptsAnswer | libs/common/common/messaging.py:371-388 | Every attempt of every run answers as its handler ended: with its result, a message error as it is, any other error as 500, and 404 for a kind without a handler |
| DeliveryPosts.InTurn | libs/common/common/messaging.py:342-359 | Messages are taken in the order they entered the main queue: after as many messages taken as stood before it, with whatever arrivals and deaths, a message is the head |
| DeliveryPosts.UnnamedNeverSkipped | libs/common/common/messaging.py:371-388 | No run skips as a duplicate a message that has no id or an empty one, or any message with the guard off |
| DeliveryPosts.CallersAreAnswered | libs/common/common/messaging.py:342-359 | In every crash-free run the answers sent are exactly those due, one for each settled request, in order |
| DeliveryPosts.NoCallerIsForgotten | libs/common/common/messaging.py:342-359 | In every run each settled request has its answer among those sent to its reply queue |
| DeliveryRuns.AttemptBound | libs/common/common/messaging.py:409-439 | In every crash-free run no message is attempted more than max_retries + 1 times |
| DeliveryDeaths.AttemptBoundWithDeaths | libs/common/common/messaging.py:342-439 | In every run a message gets at most max_retries + 1 attempts and those its deaths repeat; a death repeats one, and one after a retry copy was sent also brings what that copy has left, so that n deaths allow at most (n + 1)(max_retries + 1) |
| DeliveryDeaths.DeathDoublesAttempts | libs/common/common/messaging.py:342-439 | A concrete run with max_retries 1 and a single death in which a message is attempted four times |
| DeliveryRuns.Settles | libs/common/common/messaging.py:342-451 | No schedule of consuming and expiring makes more moves than the remaining work |
| DeliveryRuns.MovesDecreaseWork | libs/common/common/messaging.py:409-451 | Every move strictly lowers the measure of attempts left and queue |
| DeliveryRuns.MoveAvailable | libs/common/common/messaging.py:441-451 | As long as a queue is non-empty some move is possible, at the latest after the retry delay |
| DeliveryRuns.FreshWork | libs/common/common/messaging.py:409-439 | A fresh message adds at most 2 * max_retries + 1 moves |
| DeliveryGuard.AtMostOnceWhileClaimed | libs/common/common/messaging.py:371-388 | Guard on: in every run, crashes and copies included, two attempts under one message_id are a claim's lifetime apart |
| DeliveryGuard.GuardDelaysDeadLetter | libs/common/common/messaging.py:371-439 | Guard on: in every run a message with an id is dead-lettered no earlier than max_retries claim lifetimes after its first attempt |
| DeliveryGuard.OneTryWhileClaimed | libs/common/common/messaging.py:371-388 | Guard on: in every run a message with an id has at most one attempt until a claim lifetime has passed since it |
| DeliveryGuard.FailureEndsSkipped | libs/common/common/messaging.py:371-439 | Guard on and max_retries at least 1: a message that failed and has left the queues within a claim lifetime was attempted once, ends as duplicate_skipped, is no dead letter, and stays so however the run goes on |
| DeliveryGuard.QuickNeverSkips | libs/common/common/messaging.py:371-439 | Guard off, claim lifetime at most the retry delay, or no retries: with distinct ids no crash-free run skips a message |
| DeliveryGuard.SlowGuardSkips | libs/common/common/messaging.py:371-439 | With any other configuration a message that fails once is skipped when its copy returns, and is never dead-lettered |
| DeliveryGuard.FailureEndsDead | libs/common/common/messaging.py:409-439 | Guard off, or one of those configurations and distinct ids: a message none of whose attempts succeeded is a dead letter after exactly max_retries + 1 attempts |
| DeliveryGuard.RetriesSurviveExactlyWhenQuick | libs/common/common/messaging.py:371-439 | The retry promise, and that nothing is skipped, hold in every crash-free run with distinct ids if and only if the guard is off, a claim lives at most the retry delay, or there are no retries |
| DeliveryGuard.CrashAfterClaim | libs/common/common/messaging.py:371-388 | After a death between claim and handler the redelivered message is attempted if and only if it has no guarded id or a claim lifetime has passed; otherwise it is skipped |
| DeliveryGuard.NoClaimsNoLoss | libs/common/common/messaging.py:342-388 | Guard off: in every run, crashes included, each settled or dead message was attempted |
| DeliveryGuard.OnlyClaimDeathsLose | libs/common/common/messaging.py:342-388 | With distinct ids and no death between claim and handler, other crashes included, each settled or dead message was attempted |
| DeliveryGuard.HandledExactlyWhenUnguarded | libs/common/common/messaging.py:342-388 | Each settled or dead message was attempted in every run with distinct ids if and only if the guard is off |
| ChatWorkflow.ChatService.MessagesCreate | services/chat_service/app/handlers.py:215-290 | The message and, for a user message with publishing on, its workflow task are stored together, or one of the three errors is answered and nothing changes |
| ChatWorkflow.ChatService.FlushOutboxMessage | services/chat_service/app/workflow_outbox.py:92-198 | A pending row is published and marked, or its attempt and error are recorded; any other row stays as it is; the answer says whether it is published |
| ChatWorkflow.ChatService.FlushPendingOutbox | services/chat_service/app/workflow_outbox.py:201-232 | A pass flushes the oldest pending rows up to the batch size and counts the flushes that succeed |
| ChatWorkflow.ChatService.ProcessWorkflowResult | services/chat_service/app/workflow_result_processor.py:39-199 | A result for a known run returns its row; otherwise chat and trigger are checked and the assistant message and inbox row are inserted together |
| ChatRuns.OneReplyPerRun | services/chat_service/app/workflow_result_processor.py:52-188 | Over every run each run id has at most one assistant message, and an inbox row exists exactly when that message was inserted |
| ChatRuns.DuplicateReturnsSameRow | services/chat_service/app/workflow_result_processor.py:52-188 | A duplicate result, however much later, changes nothing and returns the row of the first |
| ChatRuns.RowsStay | services/chat_service/app/workflow_result_processor.py:52-188 | Stored messages and inbox rows are never changed or removed |
| ChatRuns.OutboxHolds | services/chat_service/app/handlers.py:239-268 | In every run each outbox row fits its message, ids identify rows, and the broker has exactly tasks of the outbox, with every one that is marked published |
| ChatRuns.AskedIsAccepted | services/chat_service/app/workflow_result_processor.py:52-188 | A result for an accepted task is never rejected |
| ChatRuns.RepliesAnswerTheirMessage | services/chat_service/app/handlers.py:239-268 | Each reply stands in the chat, and belongs to the author, of the message that asked for it |
| ChatRuns.OneReplyPerMessage | services/chat_service/app/workflow_outbox.py:76-89 | Two replies never answer the same user message |
| ChatContents.RepliesSayTheFirstCommitted | services/chat_service/app/workflow_result_processor.py:139-147 | Over every run the message of each reply has the content of the result whose delivery first got to its commit for that run id |
| ChatContents.RepliesSayAnAnswer | services/chat_service/app/workflow_result_processor.py:39-199 | In every run without foreign results a reply says what some answer to a task of its run said |
| ChatContents.MessagesAreCreatedOrReplies | services/chat_service/app/handlers.py:215-290 | Over every run each message is one that was created, with the chat, user, role and content it was created with, or a reply; refused ones leave nothing |
| ChatContents.RefusedExactly | services/chat_service/app/handlers.py:215-290 | A message is refused for no content, an unknown role or a chat that is not the user's, in this order, and exactly the refused ones change nothing |
| ChatContents.ResultsInTurn | services/chat_service/app/workflow_result_consumer.py:92-119 | Over every run the result queue is what was posted, in order, without as many from its front as deliveries acknowledged or dropped |
| ChatRuns.AnsweredExactlyOnce | services/chat_service/app/workflow_result_consumer.py:92-109 | Over every run, foreign and duplicate results included: once the result queue is empty every run that was answered has exactly one reply, or an unexpected error dropped one of its deliveries; LostExactlyWhenDropped says which of these lose it |
| ChatRuns.RepliedExactlyWhenCommitted | services/chat_service/app/workflow_result_processor.py:39-199 | Over every run, a run id has exactly one reply if and only if the delivery of some result of it got to its commit |
| ChatRuns.LostExactlyWhenDropped | services/chat_service/app/workflow_result_consumer.py:92-119 | Once the result queue is empty an answered run has no reply if and only if a delivery of it was dropped and none got to its commit |
| ChatRuns.DropLosesExactly | services/chat_service/app/workflow_result_consumer.py:92-119 | After any run without foreign results, a drop followed by acknowledging the rest leaves a run with its reply if and only if it had it or another of its results was queued |
| ChatRuns.DropLosesReply | services/chat_service/app/workflow_result_consumer.py:92-119 | A concrete run in which a dropped delivery leaves an answered message without a reply |
| ChatRuns.RowHistory | services/chat_service/app/workflow_outbox.py:126-198 | An outbox row that is published or exhausted never changes again, and attempts never exceed the maximum |
| ChatRuns.SelectionSize | services/chat_service/app/workflow_outbox.py:201-232 | A pass finds every pending row up to its limit, so exhausted rows never block newer ones |
| ChatContents.FlushReports | services/chat_service/app/workflow_outbox.py:92-198 | A flush answers true if and only if the message has no task or its task is published afterwards; a pending row becomes published exactly when the broker accepts, and otherwise has one more attempt and the error |
| ChatContents.PassReports | services/chat_service/app/workflow_outbox.py:201-232 | After any run, the number a pass answers is by how much it raised the number of published rows |
| ChatRuns.PassSpends | services/chat_service/app/workflow_outbox.py:201-232 | Each pass lowers the attempts left by at least the number of rows it finds |
| ChatRuns.OutboxDrains | services/chat_service/app/workflow_outbox.py:201-232 | After any run, as many passes as attempts are left leave every row published or exhausted, whatever the publishes do |
| BalanceCache.AnalyticsService.VersionBump | libs/common/common/redis_cache.py:82-87 | A bump raises the user's version by one and touches no other |
| BalanceCache.AnalyticsService.CacheSet | libs/common/common/redis_cache.py:44-50 | An entry is stored until now plus its TTL; a TTL that is not positive stores nothing |
| BalanceCache.AnalyticsService.CommitBooks | services/finance_service/app/handlers.py:168-221 | A bumping writer commits the new books and raises the user's version |
| BalanceCache.AnalyticsService.AvailableBalance | services/analytics_service/app/handlers.py:26-90 | A read returns the live entry at the current version or a fresh computation, which it stores |
| BalanceCache.AnalyticsService.MemberBudgets | services/analytics_service/app/handlers.py:374-391 | The batch reads the members' balances one after the other |
| BalanceCache.AlwaysNoneAbove | libs/common/common/redis_cache.py:59-87 | In every run no entry lies above its user's version, and every cached balance adds up |
| BalanceCache.CarefulRunsAreCoherent | services/analytics_service/app/handlers.py:26-90 | Over every run of bumping writes, expiries and reads, each read returns what a fresh computation would |
| BalanceCache.BumpedWriteCoherence | services/finance_service/app/handlers.py:825-873 | A write that bumps the version keeps the cache coherent whatever it writes |
| BalanceCache.QuietWriteShifts | services/finance_service/app/handlers.py:353-390 | An account write moves every fresh balance of its user by the change of the unarchived initial balance |
| BalanceCache.QuietWriteCoherence | services/finance_service/app/handlers.py:353-390 | An account write without a bump keeps the entries coherent if and only if it moves no money or nothing is cached at this version, and keeps entries and reads in flight up to date if and only if it moves no money or there is neither at this version |
| BalanceCache.StaysFreshExactly | services/analytics_service/app/handlers.py:26-90 | From a state every read of every careful continuation is right if and only if its entries and reads in flight are up to date |
| BalanceCache.QuietWriteExactly | services/finance_service/app/handlers.py:353-390 | After any careful run and an account write without a bump, all later reads are right if and only if the write moves no money or the user has neither a live entry nor a read in flight at this version |
| BalanceCache.QuietWriteBreaks | services/finance_service/app/handlers.py:353-390 | A concrete run: a balance is read, an account opened, and the next read misses it |
| BalanceCache.QuietWriteInFlightBreaks | services/finance_service/app/handlers.py:353-390 | A concrete run: with nothing cached an account is opened while a balance is being read, and after that read is stored the next one misses the account |
| BalanceCache.FillExactly | services/analytics_service/app/handlers.py:26-90 | After any careful run and the store of a read in flight, all later reads are right if and only if what it stores is still what a fresh computation gives |
| BalanceCache.InterleavedWrite | services/analytics_service/app/handlers.py:26-90 | Whatever happens between a read's computation and its store, the next read of the period is right if and only if the period's numbers at the store are those at the computation |
| BalanceCache.InterleavedWriteBreaks | services/analytics_service/app/handlers.py:26-90 | A concrete run: a balance is computed, an account opened with a bump, and the old balance stored and served under the new version |
| BalanceLaws.TransactionMovesBalance | services/finance_service/app/handlers.py:243-258 | After any careful run a committed transaction moves the actual balance read next by its amount if its day is before the period, and by nothing otherwise |
| BalanceLaws.PlannedIncomeMovesBalance | services/analytics_service/app/handlers.py:533-552 | A committed planned income moves the expected income read next exactly when it is undated or within the period; when the plans come to zero the candidates count |
| BalanceLaws.PlannedExpenseMovesBalance | services/analytics_service/app/handlers.py:555-581 | A committed planned expense does the same to the expected expense; when the plans come to zero the regular expenses count |
| BalanceLaws.RegularMovesBalance | services/analytics_service/app/handlers.py:568-581 | A regular expense counts exactly when the planned ones come to zero and it is active and due in the period, with its expected amount, else its average |
| BalanceLaws.EmptyBooks | services/analytics_service/app/handlers.py:524-581 | Without any rows every amount is zero but for the candidates |
| BalanceLaws.RefreshLasts | libs/common/common/redis_cache.py:30-50 | A refresh answers from the tables whatever is cached, and its answer is then served for exactly the TTL |
| BalanceLaws.VersionCountsCommits | libs/common/common/redis_cache.py:69-87 | In every run a user's version is the number of the bumped changes of that user |
| BalanceLaws.QuietWritePuts | services/finance_service/app/handlers.py:353-390 | An account write replaces the account it names or adds one at the end, and leaves every other account, table, user, version and entry as it is |
| GroupBudget.GroupService.MaxUserDataVersion | libs/common/common/redis_cache.py:286-290 | The loop yields the highest member version, 0 without members |
| GroupBudget.GroupService.MemberBudgets | services/group_service/app/handlers.py:163-189 | The members' balances come from one batch, or one by one from those whose request succeeds |
| GroupBudget.GroupService.BudgetGet | services/group_service/app/handlers.py:138-212 | A live entry under the current key is served; otherwise the budgets that came back are added up and stored under the key made before they were read |
| GroupBudget.SummaryConserves | services/group_service/app/handlers.py:138-212 | In every run, whichever requests fail, cached or not, the summary's available amount is actual plus expected income minus expected expense |
| GroupBudget.SummariesWereAsked | libs/common/common/redis_cache.py:250-262 | Over every run each cached total was once the answer to a request for the same group, period and members |
| GroupBudget.SummaryLasts | services/group_service/app/handlers.py:138-212 | A refresh adds up what the members read, whatever is cached, and its total is then served for exactly the TTL |
| GroupBudget.BatchIsFallback | services/group_service/app/handlers.py:163-189 | The batch is the fallback in which every request succeeds |
| GroupBudget.BatchAndFallbackAgree | services/group_service/app/handlers.py:163-198 | Batch and fallback give equal totals, even when a failed batch has already filled part of the cache |
| GroupBudget.GroupKeyMoves | libs/common/common/redis_cache.py:286-290 | A member's bump changes the group cache key if and only if that member holds the highest version |
| GroupBudget.TotalSplits | services/group_service/app/handlers.py:190-198 | The family's total is that of the members who answered plus that of those who did not |
| GroupBudget.SummaryAfterWrite | services/group_service/app/handlers.py:138-147 | After a stored summary and a member's bumped write, the summary served is the fresh total if and only if that member held the highest version or the total did not change |
| GroupBudget.PartialTotalStays | services/group_service/app/handlers.py:176-212 | After a fallback with failed requests the total of the others is served for the whole TTL, and is the family's total if and only if the missing balances add up to zero |
| AuthCache.AuthVerifyCache.SetEntry | libs/common/common/redis_cache.py:123-137 | The entry is stored and its token added to the user's live index, whose expiry is pushed out |
| AuthCache.AuthVerifyCache.InvalidateUser | libs/common/common/redis_cache.py:139-155 | Every token of the live index and the index itself are removed |
| AuthCache.AuthVerifyCache.Authenticated | services/gateway/app/dependencies.py:20-42 | A hit answers from the cache; a miss stores the verified payload with a TTL taken from the token |
| AuthCache.IndexComplete | libs/common/common/redis_cache.py:123-164 | With bounded TTLs each live entry of a user is in that user's live index and expires no later |
| AuthCache.EntriesWereVerified | services/gateway/app/dependencies.py:20-42 | In every run whatever is cached for a token is an answer the access service has given for that token |
| AuthCache.PasswordChangeForgets | services/access_service/app/handlers.py:136-159 | After a password change no token of the user hits until the user is vouched for again |
| AuthCache.LongDefaultEscapes | libs/common/common/redis_cache.py:123-164 | With a longer default TTL a concrete run leaves a token that survives the password change |
| AuthCache.ForgetsExactlyWhenBounded | libs/common/common/redis_cache.py:123-164 | The promise holds in every run if and only if the default TTL is at most the maximum TTL plus 3600 seconds |
| AuthCache.HitsPrecedeExp | libs/common/common/redis_cache.py:157-164 | A hit on a payload with `exp` happens before `exp` (section 4.1.4 of RFC 7519) |
| ProfileCache.HealthScoreService.ProfileGet | services/health_score_service/app/handlers.py:29-47 | A read answers from the cache, then from the snapshot, and calculates otherwise; a refresh always calculates |
| ProfileCache.HealthScoreService.StoreSnapshot | services/health_score_service/app/handlers.py:327-364 | A calculation replaces the snapshot of its user and period |
| ProfileCache.ReadsAreSticky | services/health_score_service/app/handlers.py:29-47 | In every run a read without refresh returns the latest calculated profile and calculates exactly when there is none |
| ProfileCache.OthersKeepLatest | services/health_score_service/app/handlers.py:301-364 | Only a refresh of the same user and period changes the latest profile |
| ProfileCache.ProfileOutlivesBumps | services/health_score_service/app/handlers.py:301-364 | Bumps, expiries and other users' reads never change what a read returns |
| ProfileCache.CachedProfileLasts | libs/common/common/redis_cache.py:265-276 | A profile read past the cache is then served from it for the configured time, and for a period that still runs no longer than to its end |
| ProfileCache.VersionCountsBumps | libs/common/common/redis_cache.py:69-87 | In every run a user's version is the number of the user's bumps |
| DedupeKey.PayloadInjective | services/file_service/app/imports/parsers/family_budget_excel_v1.py:286-295 | Equal payloads imply equal sheet, row number, time, amount and description |
| DedupeKey.AmountInjective | services/file_service/app/imports/parsers/family_budget_excel_v1.py:286-295 | The rendered amount determines the amount, the sign of a zero and NaN values included |
| DedupeKey.IsoFormatInjective | services/file_service/app/imports/parsers/family_budget_excel_v1.py:286-295 | The rendered time determines the time, with or without a date |
| DedupeKey.IsoReadsBack | services/file_service/app/imports/parsers/family_budget_excel_v1.py:286-295 | The rendered time reads back, place by place, as its year, month and day where it has them, hour, minute, second and microseconds |
| DedupeKey.AmountReadsBack | services/file_service/app/imports/parsers/family_budget_excel_v1.py:286-295 | The rendered amount reads back as its sign, its units, a point and two digits of cents |
| SheetParser.ParseDatetime | services/file_service/app/imports/parsers/family_budget_excel_v1.py:365-399 | A cell yields its date, or the issue its absence or form calls for |
| SheetParser.ParseDecimal | services/file_service/app/imports/parsers/family_budget_excel_v1.py:402-426 | A cell yields its amount, or the issue its absence or form calls for |
| SheetParser.NormalizeOneRow | services/file_service/app/imports/parsers/family_budget_excel_v1.py:216-321 | A row yields its transaction with all its fields, raw payload and key, or its issues in column order |
| SheetParser.ParseWorkbook | services/file_service/app/imports/parsers/family_budget_excel_v1.py:151-214 | A workbook yields the transactions, issues and counts of its matching sheets, or the single issue that stops it |
| SheetAccounts.NoRowLost | services/file_service/app/imports/parsers/family_budget_excel_v1.py:183-321 | Each non-empty row of an accepted sheet leaves exactly one transaction and no issue, or issues and no transaction |
| SheetAccounts.NothingInvented | services/file_service/app/imports/parsers/family_budget_excel_v1.py:183-321 | A row number that no accepted sheet has leaves neither |
| SheetFields.TransactionsComeFromRows | services/file_service/app/imports/parsers/family_budget_excel_v1.py:151-321 | Over any workbook each transaction is given field by field by a non-empty row of a matched sheet; it is an expense if and only if that sheet's name starts with a Cyrillic R, and an income if and only if it starts with a Cyrillic D |
| SheetFields.AcceptedRowGives | services/file_service/app/imports/parsers/family_budget_excel_v1.py:216-321 | An accepted row gives a transaction that reads every date, amount and text from its own column |
| SheetFields.HeaderNames | services/file_service/app/imports/parsers/family_budget_excel_v1.py:14-30 | Which name a supported header has at each column |
| SheetFields.OneCellOneField | services/file_service/app/imports/parsers/family_budget_excel_v1.py:216-321 | Changing one cell of an accepted row changes no field but that column's, and the key only for the columns it is hashed from |
| SheetFields.IssuesExactly | services/file_service/app/imports/parsers/family_budget_excel_v1.py:365-426 | A row's issues are exactly those that its date and amount cells call for |
| SheetFields.WorkbookIssuesExactly | services/file_service/app/imports/parsers/family_budget_excel_v1.py:151-214 | The issues of a workbook are the one that it cannot be read, the one that no sheet matches, or exactly those that the headers and rows of the matching sheets call for |
| SheetFields.NamesExactly | services/file_service/app/imports/parsers/family_budget_excel_v1.py:33-33 | A sheet is imported if and only if its name is a Cyrillic R or D, an underscore, two digits, a dot, two digits, and at most a line feed |
| SheetFields.HeaderExactly | services/file_service/app/imports/parsers/family_budget_excel_v1.py:138-146 | A header is supported if and only if its 15 columns have the expected names and every further one is blank |
| SheetFields.PassedOverExactly | services/file_service/app/imports/parsers/family_budget_excel_v1.py:207-208 | A row is passed over if and only if its 15 columns are blank |
| SheetFields.PartsConcatenate | services/file_service/app/imports/parsers/family_budget_excel_v1.py:182-214 | Results come in the order of the sheets: those of two lists of sheets, each with some to import, are those of the first followed by those of the second |
| SheetFields.RowsAscend | services/file_service/app/imports/parsers/family_budget_excel_v1.py:206-214 | Within a sheet transactions come in the order of their rows |
| SheetFields.FourDigits | services/file_service/app/imports/parsers/family_budget_excel_v1.py:441-445 | Fewer than four characters have no last four digits, and four digits are their own |
| SheetFields.LastFour | services/file_service/app/imports/parsers/family_budget_excel_v1.py:441-445 | Of the last four digits, one more digit moves them on and any other character leaves them |
| SheetAccounts.TotalsBound | services/file_service/app/imports/parsers/family_budget_excel_v1.py:115-117 | total_rows is at most parsed plus failed rows, with equality if and only if no header is refused and every failing row has one issue |
| SheetAccounts.TransactionsWithinRows | services/file_service/app/imports/parsers/family_budget_excel_v1.py:183-214 | No row gives two transactions, and in a file without errors every row gives one |
| SheetAccounts.KeysDistinct | services/file_service/app/imports/parsers/family_budget_excel_v1.py:183-295 | Within one file all positions and, with an injective hash, all dedupe keys are distinct |
| ImportTable.FinanceService.ResolveAccount | services/finance_service/app/handlers.py:699-722 | The first account in use of the card is reused; without a card, or without such an account, one is opened |
| ImportTable.FinanceService.ResolveByCard | services/finance_service/app/handlers.py:385-390 | The card is cut to its last four digits and resolved |
| ImportTable.FinanceService.CreateTransaction | services/finance_service/app/handlers.py:168-178 | One transaction is added and the version moves, or nothing changes when a field is missing, a time has no date, its key or place is taken, or its account does not exist |
| ImportDrafts.CreateExactly | services/finance_service/app/handlers.py:168-178 | A draft is stored if and only if it is complete and dated, its key and place are free and the account it names exists; the row is the draft under its key and linked to its account, nothing else changes but for at most one opened account, and the version moves by one |
| ImportTable.FinanceService.PrepareTransactionRow | services/finance_service/app/handlers.py:662-696 | A row is linked to the account it names, else to the account of its card, else to none, and without a key gets one from sheet and row; a missing field raises at once, a time without a date after the account was opened |
| ImportTable.FinanceService.BulkCreate | services/finance_service/app/handlers.py:205-221 | One bulk request stores all rows that are new by key, or nothing at all, opened accounts included, if a row has no date or a new row's place is taken; the version moves exactly when a row was inserted |
| ImportTable.ImportService.SendTransactions | services/file_service/app/handlers.py:300-311 | Chunks are sent in order until one fails, and the inserted counts are summed |
| ImportTable.ImportService.ProcessImportJob | services/file_service/app/handlers.py:215-270 | One try of a job under its lock: parse, store issues, send, and set the job's and the file's status, counts and events |
| ImportRuns.MergeLookup | services/finance_service/app/handlers.py:205-221 | First writer wins: a stored key keeps its row, a new one gets the first row sent with it |
| ImportRuns.InsertIffPlaces | services/finance_service/app/models.py:132-141 | The insert succeeds if and only if the merged table has no two rows in one place, and then stores the merge |
| ImportRuns.RowsLinked | services/finance_service/app/handlers.py:662-722 | Every prepared row is linked to the first account in use of its card, and to none if it names no card |
| ImportRuns.CardsStayUnique | services/finance_service/app/handlers.py:699-722 | Preparing rows never opens a second account for a card that has one in use |
| ImportRuns.Last4Again | services/finance_service/app/handlers.py:1019-1023 | Cutting a card to its last four digits a second time, with a notion of digit at least as wide, changes nothing |
| ImportRuns.BatchingIsIrrelevant | services/file_service/app/handlers.py:300-311 | For any chunk size a clean pass completes if and only if every row is dated and no two share a place, leaves the same table and accounts, and reports exactly the growth |
| ImportRuns.PassStoresPrefix | services/file_service/app/handlers.py:354-356 | Wherever a pass stops it has stored a prefix of the list, reports no more than the growth, and has moved the version exactly if it stored a row |
| ImportRuns.UndatedStops | services/finance_service/app/handlers.py:1041-1048 | A pass over rows of which the first without a date lies in chunk m stores and counts exactly the chunks before m, and raises |
| ImportRuns.RerunsConverge | services/file_service/app/handlers.py:300-311 | After any interrupted passes a clean one leaves what a single clean pass would have left |
| ImportRuns.SecondPassIsQuiet | services/finance_service/app/handlers.py:205-221 | Sending the list again inserts 0, changes nothing and does not move the version |
| ImportRuns.ResendIsQuiet | services/finance_service/app/handlers.py:205-221 | Sending items again changes nothing if and only if each key is stored and each card still has an account in use |
| ImportRuns.FirstImportInsertsAll | services/file_service/app/handlers.py:300-311 | A fresh user's first import completes if and only if every row is dated, and then inserts exactly the parsed rows and stores every one |
| ImportJobs.JobConverges | services/file_service/app/handlers.py:215-270 | After any failed or dead tries a clean try gives the books, verdict, counts and file status of a single clean try |
| ImportJobs.VerdictExactly | services/file_service/app/handlers.py:215-270 | A clean try whose rows are taken completes the job if and only if it stored no issue, completes it partially if and only if it stored one and parsed a row, and fails it, with the first issue as its error, if and only if it stored one and parsed none; file status, events and version follow |
| ImportJobs.RaisedTryFails | services/file_service/app/handlers.py:255-270 | A try that raises leaves job and file failed, says so, and keeps the issues it stored |
| ImportJobs.TryMarksItsJob | services/file_service/app/handlers.py:215-270 | Any try touches no other job and no other file, and its issues name its import; the job is started, and finished unless the process died, which leaves it running and locked |
| ImportFiles.ImportFits | services/finance_service/app/models.py:132-141 | The items of a parsed file are accepted if and only if each has its key stored or its place free |
| ImportFiles.JobEndsExactly | services/file_service/app/handlers.py:215-270 | After any tries, a clean try stores the file and has the verdict and counts of its parse if and only if every row has its dates and had its key stored or its place free when the job started; otherwise the job has failed |
| ImportFiles.HandMadeRowBlocks | services/finance_service/app/handlers.py:168-178 | A transaction created by hand at the place of a file's row under another key is accepted by an empty table, and from then on every try of the file's job fails |
| ImportFiles.ImportsNeverClash | services/file_service/app/handlers.py:56-126 | Over every history of uploads, tries, deaths and reruns the table holds rows of the uploaded files only, and no two in one place |
| ImportFiles.JobsAlwaysEnd | services/file_service/app/handlers.py:215-270 | After every such history and any tries, a clean try stores the file and has the verdict and counts of its parse if and only if every row has its dates |
| ImportFiles.HistoryVerdict | services/file_service/app/handlers.py:215-270 | The same verdicts after every history of uploads, tries, deaths and reruns |
| ImportJobs.FirstImportAddsUp | services/file_service/app/handlers.py:215-270 | A user's first import of dated rows stores exactly the rows it reports as parsed; one that reports completion has a stored row for every non-empty row of the file, a failed one none; with an undated row the job fails |
| ImportJobs.UndatedImportFails | services/file_service/app/handlers.py:215-270 | A first import whose k-th row is the first without a date fails with exactly the first ⌊k / 500⌋ · 500 rows stored |
| ImportJobs.TryMovesVersion | services/file_service/app/handlers.py:215-270 | No try changes the transactions without moving the data version, and one that ends well always moves it |
| ImportJobs.DeadJobWaits | services/file_service/app/handlers.py:215-270 | A job whose process died shows as running, and further tries change nothing until its lock expires |
| ImportJobs.IssuesRepeat | services/file_service/app/handlers.py:280-297 | Every try that parses and commits stores the file's issues once more |
| Stability.IncomeStability | services/health_score_service/app/handlers.py:491-506 | The loops compute the score of the monthly totals and report a gap exactly when there is none |
| Stability.TotalsAreIncome | services/health_score_service/app/handlers.py:491-506 | Each month has one total, which is the sum of the absolute incomes of that month |
| Stability.ScoreCharacterised | services/health_score_service/app/handlers.py:491-506 | There is a score if and only if two months have income; it lies in [0, 100], is 100 if and only if the months are equal, and 0 if and only if 4(n Σv² − (Σv)²) ≥ (Σv)² |
| Stability.ScoreBetween | services/health_score_service/app/handlers.py:491-506 | A score above 0 falls short of 100 by 200 times the coefficient of variation of the monthly totals |
| Stability.ScaleInvariant | services/health_score_service/app/handlers.py:491-506 | Scaling every amount by the same positive factor changes nothing |
| Scoring.WeightedScore | services/health_score_service/app/handlers.py:569-580 | The loop computes the clamped mean of the available components and the weights it applied |
| Scoring.AppliedSumToOne | services/health_score_service/app/handlers.py:569-580 | The applied weights sum to 1 for every non-empty set of components |
| Scoring.MeanBetween | services/health_score_service/app/handlers.py:569-580 | The mean lies between the smallest and the largest score |
| Scoring.MeanMonotone | services/health_score_service/app/handlers.py:569-580 | Raising a score raises the mean, which stays the same only if every score does |
| Scoring.LosingAComponent | services/health_score_service/app/handlers.py:569-580 | Losing a component raises the mean if and only if it was below it |
| Scoring.ProfileAlwaysScored | services/health_score_service/app/handlers.py:206-226 | A profile always has a score, unclamped and in range, so the fallback is unreachable |
| Scoring.ProfileOfTransactionsScored | services/health_score_service/app/handlers.py:133-226 | With the stability score of any transactions the profile has a score in [0, 100], the mean of what is available |
| Scoring.ProfileMonotone | services/health_score_service/app/handlers.py:206-226 | With the same gaps, a profile with no lower component never scores lower |
| Scoring.BetterInputsNeverHurt | services/health_score_service/app/handlers.py:547-566 | A lower debt ratio, more reserve and steadier income never lower the score |
| Scoring.ScoreEnds | services/health_score_service/app/handlers.py:547-566 | Where the cash-flow, debt and reserve scores reach 0 and 100, as thresholds on their inputs |
| Scoring.ScoresBetween | services/health_score_service/app/handlers.py:547-566 | Between those ends the cash-flow, debt and reserve scores are linear in their inputs |
| Scoring.ClarityBetween | services/health_score_service/app/handlers.py:190-211 | The clarity score is the share of expenses that are not unclear, in percent, and 100 without expenses |
| Scoring.GoalExactly | services/health_score_service/app/handlers.py:467-488 | The goal score is three fifths of what is saved and two fifths of how much of the required saving the cash flow covers, each held to [0, 100] |
| Scoring.ProfileTerms | services/health_score_service/app/handlers.py:206-226 | What a profile's mean adds up is 0.25 of the cash-flow, 0.20 of the debt, 0.15 of the reserve, 0.10 of the clarity, 0.10 of the goal and 0.05 of the stability score, as far as they are present |
| Scoring.MeanTimesWeight | services/health_score_service/app/handlers.py:569-580 | The mean times the weight that is present is the sum of the present scores times their weights |
| Scoring.NominalWeight | services/health_score_service/app/handlers.py:206-226 | The nominal weights applied lie between 0.10 and 0.85, which is reached if and only if nothing but the budget score is missing |
| Scoring.CreditLoadIndex | services/health_score_service/app/handlers.py:583-604 | The list that is built has positive total weight, and the index is its clamped mean |
| Scoring.IndexInRange | services/health_score_service/app/handlers.py:583-604 | For all inputs the total weight is positive and the mean lies in [0, 100] without the clamp |
| Scoring.IndexEquation | services/health_score_service/app/handlers.py:583-604 | The index's mean times the weight that is present is, part by part, its weight times twice the debt ratio, 100 or 25 as payments exceed the cash flow or not, 25 a credit, the utilisation and 10 an overdue day, each held to [0, 100] |
| Scoring.IndexMonotone | services/health_score_service/app/handlers.py:583-604 | For fixed present inputs the index is monotone in debt ratio, credits, utilisation and overdue days, and antitone in what is left after payments |
| Sessions.AccessService.HandleLogin | services/access_service/app/handlers.py:42-61 | A matching password adds one active session with a fresh token; anything else is refused and changes nothing |
| Sessions.AccessService.HandleLogout | services/access_service/app/handlers.py:64-79 | The active session of the token is revoked; without one nothing changes |
| Sessions.AccessService.HandleRefresh | services/access_service/app/handlers.py:82-111 | An active session that is not past its expiry is revoked and replaced by one with a fresh token |
| Sessions.AccessService.HandleChangePassword | services/access_service/app/handlers.py:136-159 | A valid change sets the password and revokes every active session of the user and of nobody else |
| Sessions.RevokedStaysRevoked | services/access_service/app/handlers.py:42-111 | Over every run revoked sessions never become active, and no session is lost or reassigned |
| Sessions.AcceptedOnce | services/access_service/app/handlers.py:82-111 | Each refresh token is accepted at most once, and accepted tokens belong to revoked sessions |
| Sessions.RefreshTakes | services/access_service/app/handlers.py:82-111 | Refresh accepts a token if and only if its session is active and not past its expiry, the moment itself included; an accepted token is recorded, and a refused one changes nothing |
| Sessions.LoginTakes | services/access_service/app/handlers.py:42-61 | After any run a login is accepted if and only if its password is the initial one or that of the last accepted change; otherwise it is refused with 401 and changes nothing |
| Sessions.ChangeTakes | services/access_service/app/handlers.py:136-159 | After any run a change is accepted if and only if it names that password and a new one of six characters or more |
| Sessions.RotationKillsOldToken | services/access_service/app/handlers.py:82-111 | After a rotation the new token is accepted and the old one refused at every later point |
| Sessions.PasswordChangeEndsSessions | services/access_service/app/handlers.py:136-159 | After a password change no token issued to the user before it is ever accepted |
| Sessions.LoginThenWait | services/access_service/app/handlers.py:42-61 | A token left alone is good for exactly the configured lifetime |
| Sessions.RevocationIsStamped | services/access_service/app/handlers.py:42-111 | A session is active if and only if it has no time of revocation |
| Sessions.ActiveSessionsAreLogins | services/access_service/app/handlers.py:42-111 | A user's active sessions plus those logged out equal the successful logins since the last password change |
| Reminders.SchedulerService.InsertReminderOnce | services/scheduler_service/app/handlers.py:157-206 | A reminder is added exactly when none with the same key is planned or queued |
| Reminders.SchedulerService.HandlePlan | services/scheduler_service/app/handlers.py:17-86 | Planning inserts the dated candidates that are new and counts them; an error of the other service plans nothing |
| Reminders.SchedulerService.HandleSchedule | services/scheduler_service/app/handlers.py:130-154 | A planned reminder is added unconditionally |
| Reminders.SchedulerService.HandleDueScan | services/scheduler_service/app/handlers.py:89-127 | Every row the query returned is published and queued, in order, and nothing else changes |
| Reminders.StatusMovesForward | services/scheduler_service/app/handlers.py:89-127 | Over every run reminders are never lost, and status moves only from planned to queued |
| Reminders.RemindersAreUnique | services/scheduler_service/app/handlers.py:157-206 | Over every run, no two reminders share user, type, time, expense and limit if and only if no existing key was scheduled by hand |
| Reminders.ScheduleKeepsUnique | services/scheduler_service/app/handlers.py:130-154 | Scheduling by hand keeps reminders unique if and only if the key is not there yet |
| Reminders.CoveredPlansNothing | services/scheduler_service/app/handlers.py:17-86 | Planning creates 0 if and only if every dated candidate has its reminder |
| Reminders.PlanReminds | services/scheduler_service/app/handlers.py:17-86 | What planning adds is planned reminders for the user and time of a dated candidate, of the source's kind and about that candidate's row; the answer is how many, and none when the candidates cannot be had |
| Reminders.LimitIsNearest | services/scheduler_service/app/handlers.py:90-90 | A scan takes as many rows as requested, or as near to it as 1 to 1000 allow, and 100 by default |
| Reminders.ReplanCreatesNothing | services/scheduler_service/app/handlers.py:17-86 | Planning the same candidates again creates 0, whatever happened in between |
| ReminderScans.PublishedWhenQueued | services/scheduler_service/app/handlers.py:89-127 | Over every run a reminder has been published once if it is queued and once more for each scan that died after publishing it |
| ReminderScans.AtMostOnceExactly | services/scheduler_service/app/handlers.py:89-127 | A reminder has been published at most once if and only if no scan that published it has died, or one has and it is still planned |
| ReminderScans.DeathRepeats | services/scheduler_service/app/handlers.py:89-127 | A concrete run in which a dead scan's reminder is published twice |
| ReminderScans.ScanServes | services/scheduler_service/app/handlers.py:89-127 | A scan publishes and queues planned reminders that are due and of its user, each once and in order of time, and leaves such a one planned only when it has taken as many as its limit |
| ReminderScans.BatchExists | services/scheduler_service/app/handlers.py:96-112 | In every state some rows are a batch that the query of a scan may return |
| ReminderScans.ScansDrain | services/scheduler_service/app/handlers.py:89-127 | Repeated scans at one time leave nothing due if and only if there are at least ⌈due / limit⌉ of them |
| ReminderScans.EarlierScansEarlier | services/scheduler_service/app/handlers.py:89-127 | Nothing a scan queues was due later than anything a following scan queues |
| Paging.PageJoins | services/finance_service/app/handlers.py:1005-1008 | Consecutive pages join to a prefix of the list, and a page is empty exactly when it lies past the last |
| Paging.Ask | services/finance_service/app/handlers.py:143-158 | One request returns the part of the list that continues the pages before it, and is empty exactly past the last page |
| Paging.PageSizeIsNearest | services/finance_service/app/handlers.py:1005-1008 | A page is as large as requested, or as near to it as 1 to 500 allow, and 50 by default |
| Paging.ClampSizeIsNearest | services/backend_data_worker/app/gateway_client.py:42-42 | The client asks for the size nearest to its setting within 1 to 500 |
| Paging.ListAllTransactions | services/health_score_service/app/handlers.py:287-298 | The loop ends after the requests the reported total asks for, one if it is missing, with exactly the pages they cover, or raises at a failing page |
| Paging.FetchPaginated | services/backend_data_worker/app/fetcher/rpc.py:181-218 | The same, ending also at an empty page; an error returns the pages before it |
| Paging.GetPaginatedItems | services/backend_data_worker/app/gateway_client.py:53-144 | The loop compares what it has with the reported total, or runs to an empty page if none is reported; an error returns the pages before it and the total known so far |
| Paging.HonestServer | services/finance_service/app/handlers.py:143-158 | Against a server that reports the list's length each loop returns exactly the list in max(1, ⌈n / size⌉) requests |
| Paging.LoopsAgree | services/backend_data_worker/app/gateway_client.py:53-144 | The loops return the same items if and only if a total is reported or one page holds the list; without a total the third returns the whole list, and otherwise they do if and only if the pages asked for cover it |

## Left out

- RabbitMQ, Postgres, Redis, HTTP and object storage: only their effect on queues, tables and keys; Redis is healthy throughout.
- Threads, connections, start-up and shutdown, logging.
- Errors inside the acknowledgement block of a consumer other than the consumer's death, and messages that are not well-formed JSON.
- Concurrency within one handler: each handler is one atomic step, except the balance read, whose computation and store are two steps; two refreshes of one token at the same moment, two results of one run at the same moment and two profile reads at the same moment are not modelled.
- The gap between a writer's commit and its version bump.
- Cryptography and identifiers: hashes are injective, tokens and run ids fresh; JWT, SHA-256 and password hashing are not modelled.
- Date, number and text parsing by libraries, and which characters are digits: parameters of the parser; Decimal's 28-digit rounding and the two-digit output format: exact reals.
- Grouping of income candidates and category matching by marker words: parameters.
- The request id, status, current date and chat context of workflow tasks, and the clean-up of assistant texts.
- The message texts of parse issues, the text a job keeps of an exception, and an account's name, type and currency.
- Column widths: an amount or a text too long for its column makes the insert fail.
- Chat, account and expense deletion; a deleted expense or limit clears its column in a reminder and can make two keys equal.
- Import locks that expire while their holder is still at work: a try of a job is one step.
- The debounce lock of pattern detection, registration, the list of past profiles, risk drivers and status bands.
- Simple create, read, update and delete handlers, except whether they bump the data version.
- ChatWorkflow.ChatService.MessagesCreate: ends with the commit; the flush that is tried right after it is the step FlushOutboxMessage.
- AuthCache.IndexComplete: assumes the default TTL is within an hour of the maximum, because the code needs it; ForgetsExactlyWhenBounded shows that nothing weaker does.
- SheetAccounts.KeysDistinct: assumes distinct sheet names, which the workbook format guarantees.
- ImportFiles.ImportsNeverClash: assumes the same of every uploaded workbook, and that only imports write transactions; HandMadeRowBlocks shows what another writer can do.
- DeliveryRuns.RetryLedger: covers crash-free runs, because a crash redelivers a message that has been dispatched; NeverLost, AttemptBoundWithDeaths, AtMostOnceWhileClaimed, GuardDelaysDeadLetter and HandledExactlyWhenUnguarded cover runs with crashes.
- Delivery.MessageWorker.constructor: leaves out a claim lifetime of zero or less, which Redis refuses at every claim; the lifetime and the retry delay are measured in one unit.
- ImportTable.FinanceService.PrepareTransactionRow: leaves out the category a caller may name, which is stored as it is, and the list of the missing fields in the error.
