# SMS dispatch: a verified model

The service accepts an SMS once per idempotency key, stores it in PostgreSQL together with an outbox
event, and lets workers send it through an ordered list of providers. Around that simple path run a relay
from the outbox to the job queues, retries with exponential back-off, recovery of abandoned messages,
expiry and audited resolution of ambiguous sends, administrative requeue, delivery webhooks, and a
retention purge, all concurrently over one database. The design promises two things at once: a send that
may have succeeded is never repeated, and an accepted message is never lost.

This project models those parts in Dafny and proves what they keep over every run.

- `StateMachine`, `Tables`: statuses and their transition table, rows, the committed database as one value
  `Db`, its invariants, and the mutable `Database` object.
- `Lifecycle`, `LifecycleInvariant`, `LifecycleRepository`: every transaction of the lifecycle repository as
  a function on `Db`, the proof that each keeps the table invariants, and the repository class whose methods
  work on `Database` step by step, with roll-backs, and are proved equal to those functions. Methods that
  read a status and then update conditionally take `env`, the commits of other transactions in between.
- `Persistence`, `Retention`, `Outbox`, `Providers`, `ProviderManager`, `Relay`, `Processor`, `RateLimiter`,
  `Cidr`, `IpText`: creation, purge, event routing, provider answers, plain dispatch, the relay, the worker,
  the rate limiter, and the private-network arithmetic and parser, each in the form it has in the program.
- `Protocol`: all of it as one state machine. An action is one commit or one statement of a worker; any number
  of workers, relays, operators and webhooks interleave; crashes, replayed jobs, failing publications, commits
  whose caller sees an error, and swallowed maintenance jobs are actions too. `calls`, `ledger`, `author`,
  `enqueued`, `births` and `lastPurge` are history for the theorems. No action reads them, except that a
  creation draws an id that is not in `ledger`: ids are UUIDs, so a used one never comes back.
- `Safety`, `SafetyTheorems`, `StatusTheorems`, `Dispatch`, `DispatchTheorems`, `Accounting`, `Rounds`, `Bounds`,
  `Totals`, `Progress`, `Expiry`, `Records`, `Idempotency`, `OutboxTheorems`, `Webhooks`, `Resolutions`: the
  results over runs. `Reachability` and `RelayRuns` build runs, and `JobRemoval` and `Overshoot` prove exactly
  when two promises fail.
- `Rows`, `Events`, `Attempts`: what each action writes, column by column. `Verdicts`: what each transaction answers
  its caller. `Delivery`, `Recovery`, `Waits`, `PurgeTheorems`: where a job, a recovery, an expiry and a purge leave a
  message, in terms of its columns before and of the runs that lead there. `Addresses`: which addresses the guard admits.
- `Operations`: the two-step transactions of operators and webhooks, put together again under any interference.
- `RelayTheorems`, `Drain`, `PassRefinement`, `WorkerRefinement`, `Interference`: the classes against the state
  machine and against each other.

## Assumptions

- A transaction is atomic, and its conditional update sees the row as it is then (read committed).
- A provider answer that is neither a success nor ambiguous is a true refusal.
- For "no lost message": a job leaves the dispatch queue only after a claim of it has committed an outcome.
- For bounded work: a message is recovered only after its worker has stopped. Without it the retry limit is
  kept exactly when there is no provider or no retry round (`Overshoot.RecoveryKeepsLimitIff`).
- For idempotency windows: the clock of a creation lags behind no purge by more than retention exceeds the
  TTL. With clocks that do not run backwards that is a TTL of at most 2160 hours, and exactly that.
- For the rate bound: scripts run atomically on one clock, and the limit of a provider is fixed.

## Where the code and its documents differ

- Job removal (`src/modules/queue/outbox-relay.service.ts:192`): jobs are removed when they fail, so a claim
  that throws before it commits loses its message, although the outbox is meant to prevent that.
  `DispatchTheorems.ThrowingClaimLosesMessage` is such a run, and `JobRemoval.RunsLoseExactly` says exactly
  which removals lose a message: those after which no dispatch event of the waiting message has an untried job,
  or is unpublished without any job while no relay is about to mark it. So a removal between `add` and the mark
  loses it too.
- "Only one worker can hold a message at a time" (`src/modules/queue/sms.processor.ts:56-58`): recovery can
  hand a message to a second worker while the first is alive. No send is repeated even then, but a stale
  worker can exceed the retry limit, because the decision uses the round read at the claim
  (`src/modules/queue/sms.processor.ts:170-173`). Even one that can no longer retry leads there, by way of a
  dead letter and a requeue (`Overshoot.ImpatientRecoveryBreaksLimit`).
- Resolution of an in-flight attempt (`src/database/sms-lifecycle.repository.ts:405-479`): between its check
  and its update the named attempt may be refused and a new one reserved; the audit record then names a
  refused attempt. `Resolutions.ResolutionCanNameRefusedAttempt` gives the run and
  `Resolutions.ResolutionHitsDoubtIffNewest` the exact condition.
- `docs/states.md:17` ends the wait for a provider by a delayed expiry; the code schedules expiry only
  with a recorded ambiguous result (`src/database/sms-lifecycle.repository.ts:366-382`), so a worker that
  stops between reservation and result leaves a message with nothing scheduled to end its wait
  (`Expiry.StoppedWorkerStrandsMessage`).
- `docs/dlq-runbook.md:17` counts a missing message row among the causes of a dead letter; the transition that
  should write it finds no row and throws (`src/database/sms-lifecycle.repository.ts:656-658`), so that outcome
  never happens (`Interference.MissingRowIsNeverDeadLettered`).
- `IDEMPOTENCY_TTL_HOURS` has no upper bound (`src/config/environment.validation.ts:49`), but with more than
  2160 hours the purge cascades live keys away and a key creates a second message within its window
  (`Idempotency.WindowsHoldIffTtlWithinRetention`).
- `docs/states.md:91` lets callbacks move awaiting messages; the code finds messages by provider id, which
  only settled ones have, so every applied report starts from `SENT` (`Webhooks.AppliedFromSent`).
- `docs/states.md:61-64` names `reserveTwilioAttempt` and `finalizeTwilioAttempt`; the model follows the
  methods that exist, `reserveProviderAttempt` and `finalizeProviderAttempt`.

## Model

| member | source | states |
|---|---|---|
| `SafetyTheorems.NoPossibleDuplicateSend` | src/modules/queue/sms.processor.ts:112-163 | In every run, with crashes, replays, recoveries, expiries, resolutions, requeues and purges, every provider call of a message except its last was cleanly refused and recorded as a definitive failure, so a call that was never finalized is the last; and at most one was really accepted |
| `SafetyTheorems.AtMostOneInDoubt` | src/database/sms-lifecycle.repository.ts:278-398 | In every reachable state a message has at most one attempt that is reserved, accepted or ambiguous; it is the newest; and there is none while a worker may still call a provider |
| `SafetyTheorems.NextKeepsSafe` | src/database/sms-lifecycle.repository.ts:218-640 | Every action of the protocol keeps the table invariants, the reservations, the call log, and what pending transactions have read |
| `DispatchTheorems.NoLostMessage` | src/database/sms-lifecycle.repository.ts:218-272 | In every reachable state a message in `QUEUED` or `RETRY_SCHEDULED` has an unpublished dispatch event or a live dispatch job that no worker has tried |
| `JobRemoval.RunsLoseExactly` | src/modules/queue/outbox-relay.service.ts:192 | After every run, the removal of any job: every continuation keeps every waiting message with an unpublished dispatch event or an untried job, if and only if the job's message does not wait, or another dispatch event of it has an untried job, or one without another job is unpublished and no relay is about to mark it |
| `JobRemoval.HopelessGetsStranded` | src/modules/queue/outbox-relay.service.ts:86-113 | From any state a waiting message without such an event gets stranded by fetches, failure notes, enqueueings and marks alone |
| `DispatchTheorems.DroppingLosesExactly` | src/modules/queue/outbox-relay.service.ts:192 | In the state right after the removal, before any further step, a waiting message is stranded if and only if the job was untried, its event published, and no other event of its message unpublished or with an untried job |
| `DispatchTheorems.ThrowingClaimLosesMessage` | src/modules/queue/outbox-relay.service.ts:192 | A concrete run after which removing a failed job leaves a queued message without any event or job |
| `DispatchTheorems.RelayCrashSafety` | src/modules/queue/outbox-relay.service.ts:86-113 | In every run, for any failures of `add` and of the marks and any number of relays: one live job per event, nothing published without having been enqueued, and each job carries the message of its event |
| `DispatchTheorems.FailedEventStaysFetchable` | src/modules/queue/outbox-relay.service.ts:106-111 | A relay step publishes an event if and only if it is a committed mark of that event, seen or unseen by its caller, and then the same relay had enqueued its job |
| `Dispatch.PurgeKeepsDispatching` | src/modules/maintenance/retention.service.ts:81-106 | A purge strands no waiting message, whatever jobs are left over in the queues |
| `OutboxTheorems.EventsFollowTransactions` | src/database/sms-lifecycle.repository.ts:258-265 | In every reachable state, a step writes an event for the dispatch queue exactly when it hands a message to the workers, and that event decodes to that message |
| `OutboxTheorems.EveryEventDecodes` | src/modules/queue/outbox-relay.service.ts:116-215 | In every reachable state every outbox event decodes without error, to its own message and to the queue and job name of its type: the four dispatch types to their own names on the dispatch queue, dead letters to the dead-letter queue, expiries to the maintenance queue under the expiry job |
| `OutboxTheorems.EveryJobIsRouted` | src/modules/queue/outbox-relay.service.ts:116-215 | In every reachable state every job is for the message of its event, on the queue and under the job name of that event's type |
| `OutboxTheorems.JobsReachTheirProcessor` | src/modules/maintenance/ambiguous-outcome-expiry.processor.ts:17-22 | In every reachable state only a hand-over is claimed, and only an expiry is run as maintenance |
| `Totals.BoundedWork` | src/modules/queue/sms.processor.ts:112-192 | With n providers and M rounds, a message requeued q times and recovered c times has had at most n * ((M + 1) * (q + 1) + c) provider calls; `retryRounds` is the number of its retry events since its last requeue event and within M; the delays written in those events sum to base * (2^rounds - 1) |
| `Bounds.NextKeepsBounded` | src/modules/queue/sms.processor.ts:164-192 | Every action keeps the one-worker, budget and call-count invariants when recovery hits only stopped workers |
| `Progress.RankFalls` | src/modules/queue/sms.processor.ts:112-192 | Without recovery or requeue of a message, every step of its worker lowers a rank made of rounds left, providers left and phase, and no other step raises it |
| `Progress.StepsAreBounded` | src/modules/queue/sms.processor.ts:112-192 | So in a run of any length a message gets at most as many worker steps as its rank between two restarts |
| `Overshoot.RecoveryKeepsLimitIff` | src/database/sms-lifecycle.repository.ts:239-272 | After every patient run, a recovery of a message: every continuation whose later recoveries are patient keeps its `retryRounds` within the limit, if and only if no worker of it is alive, or no provider is configured, or no retry round is allowed |
| `Overshoot.ImpatientRecoveryBreaksLimit` | src/modules/queue/sms.processor.ts:164-192 | The other half in full: the recovery of any live worker, in whatever phase and whatever it can still decide, is followed by a run without any recovery that passes the limit |
| `Overshoot.StaleWorkerBreaksRetryLimit` | src/modules/queue/sms.processor.ts:170-173 | Under every configuration with a provider and a retry round some reachable state is past the limit |
| `Recovery.RecoversIff` | src/database/sms-lifecycle.repository.ts:249-270 | One recovery transaction changes its message if and only if the row it meets is `PROCESSING` and was last written before the cutoff; then it goes back to `RETRY_SCHEDULED` with one event |
| `Recovery.TouchedIsNotRecovered` | src/database/sms-lifecycle.repository.ts:239-272 | In every run: once a step has changed a row at the cutoff or later, no recovery with that cutoff ever releases the message |
| `Recovery.StuckIsRecovered` | src/modules/maintenance/processing-recovery.service.ts:34-41 | A message in `PROCESSING` is never out of reach: when the clock has moved on far enough, the recovery with the configured age releases it |
| `LifecycleRepository.CandidatesByColumns` | src/database/sms-lifecycle.repository.ts:240-245 | A candidate is `PROCESSING` and was last written before the cutoff, and below the limit every such message is a candidate |
| `Totals.BooksBalance` | src/database/sms-lifecycle.repository.ts:278-290 | In every reachable state: initial + retry + recovered + requeued events = claims + (1 while waiting); dead letters = requeues + (1 while fatal); `deliveryAttempts` = attempt rows + retry events; `retryRounds` = retry events newer than the last requeue event |
| `Accounting.NextKeepsAccounts` | src/database/sms-lifecycle.repository.ts:509-601 | Every action keeps those books balanced for every unpurged message |
| `Rounds.NextKeepsRounds` | src/database/sms-lifecycle.repository.ts:509-601 | Every action keeps the rounds and delays of every message equal to what its outbox events since the last requeue tell |
| `Rounds.DelaysAreSummed` | src/database/sms-lifecycle.repository.ts:509-522 | Reading the outbox event by event, starting again at each requeue, adds up exactly the delays of the retry events since the last one |
| `Expiry.ExpiryIffRecorded` | src/database/sms-lifecycle.repository.ts:366-382 | In every reachable state an awaiting message has one expiry event if its attempt in doubt was recorded as ambiguous, and none if it is still a bare reservation |
| `Expiry.StoppedWorkerStrandsMessage` | src/database/sms-lifecycle.repository.ts:278-310 | Under every configuration with a provider there is a reachable state in which a message awaits its provider, no worker has it, and no expiry event exists |
| `Waits.ExpiryEffect` | src/database/sms-lifecycle.repository.ts:549-557 | From awaiting its provider a message ends as `UNDELIVERED`, its provider id and every other row as before, and the result is true; from any other status, or without a row, nothing changes and the result is false |
| `Waits.MaintenanceEffect` | src/modules/maintenance/ambiguous-outcome-expiry.processor.ts:17-22 | The maintenance job does exactly that to its own message, unless another processor swallows it, and nothing else |
| `Waits.ExpiryEndsWait` | src/database/sms-lifecycle.repository.ts:366-382 | Under every configuration with a provider some run leads from an ambiguous answer through the relay to an expiry job that turns the awaiting message into an undelivered one |
| `Records.ColumnsTellTheTruth` | src/database/sms-lifecycle.repository.ts:278-364 | In every reachable state a message's selected provider is that of its newest attempt, and an accepted attempt carries the message's provider id |
| `Records.NextKeepsRecords` | src/database/sms-lifecycle.repository.ts:278-364 | Every action keeps that agreement between a message and its attempts |
| `Rows.StepWritesRow` | src/database/sms-lifecycle.repository.ts:218-640 | In every reachable state every action leaves each message row that it does not delete as a table of columns says: which status, provider id, provider, counters, error and timestamp it writes under which condition |
| `Rows.StepWritesFirstRow` | src/database/sms-persistence.repository.ts:133-166 | A row that is new is that of a creation: queued, untried, kept for 90 days |
| `Events.StepWritesEvent` | src/database/sms-lifecycle.repository.ts:218-640 | In every reachable state every action but a relay's and a purge writes exactly the outbox event of a table, with its message, type and delay, or none |
| `Events.RelayWritesMarks` | src/database/sms-lifecycle.repository.ts:192-204 | A relay step marks, or counts a failure on, the event at the front of its batch and changes no other |
| `Events.StepWritesKeys` | src/database/sms-persistence.repository.ts:133-166 | Keys are written by creations only, and then the new message owns the key for one TTL |
| `Events.StepWritesResolutions` | src/database/sms-lifecycle.repository.ts:455-479 | Audit records are written by settling resolutions only, with what was decided |
| `Attempts.AttemptsTellCalls` | src/database/sms-lifecycle.repository.ts:278-398 | In every reachable state the unpurged row of a provider call is a bare reservation or tells exactly the answer of that call: outcome, flags, provider id, error |
| `Attempts.WorkersCallInOrder` | src/modules/queue/sms.processor.ts:112-116 | In every reachable state a worker with k refusals behind it calls provider k of the list, under a bare reservation for that provider |
| `Idempotency.OneMessagePerWindow` | src/database/sms-persistence.repository.ts:79-169 | In every timely run two messages ever created under one key were created at least one TTL apart, and the stored rows show it |
| `Idempotency.OneMessagePerWindowOfMonotoneRuns` | src/database/sms-persistence.repository.ts:115-169 | The same when clocks do not run backwards and the TTL is at most 2160 hours |
| `Idempotency.WindowsHoldIffTtlWithinRetention` | src/modules/maintenance/retention.service.ts:81-106 | All runs whose clocks do not run backwards keep the windows if and only if the TTL is at most 2160 hours |
| `Idempotency.LongTtlBreaksWindow` | src/config/environment.validation.ts:49 | For every longer TTL such a run breaks a window: a failed message is purged while its key is live, and the key creates a second one |
| `StatusTheorems.FinalStatusAndProviderIdStay` | src/database/sms-lifecycle.repository.ts:605-640 | Along any run a delivered, undelivered or rejected message keeps its status and a provider id never changes, until the message is purged |
| `StatusTheorems.GoneForGood` | src/modules/maintenance/retention.service.ts:81-106 | A purged message never comes back |
| `PurgeTheorems.OnlyDueMessagesGo` | src/modules/maintenance/retention.service.ts:15-24 | A step removes a message if and only if it is a purge that takes it, and then its status is delivered, undelivered, rejected or fatal failure and its retention has run out; a sent message never goes |
| `PurgeTheorems.SurvivesIffSpared` | src/modules/maintenance/retention.service.ts:81-106 | After any run a message is still there if and only if no purge of the run took it when it was due |
| `PurgeTheorems.OthersSurvivePurge` | src/modules/maintenance/retention.service.ts:81-106 | A purge leaves every message it does not take unchanged, with its attempts, audit records, events and keys |
| `PurgeTheorems.ShortBatchTakesAll` | src/modules/maintenance/retention.service.ts:81-90 | A batch takes due messages only, and one below its size leaves none that is due |
| `StatusTheorems.AuditIsImmutable` | src/database/sms-lifecycle.repository.ts:467-479 | Along any run an audit record stays as written and agrees with its message: a known SID is its provider id, a confirmed non-delivery its status |
| `StatusTheorems.NextIsLawful` | src/database/sms-lifecycle.repository.ts:549-685 | In every reachable state each row makes at most one move of the transition table, or the one administrative override |
| `StatusTheorems.GuardedTransitionIsLawful` | src/database/sms-lifecycle.repository.ts:644-685 | With any commits between read and update: one move of the table from the status held at the update, or nothing |
| `StatusTheorems.ResolutionIsLawful` | src/database/sms-lifecycle.repository.ts:405-507 | A resolution makes the one move it validated from `AWAITING_PROVIDER_RESULT`, or nothing, whatever commits in between |
| `StatusTheorems.RequeueOverridesFatalOnly` | src/database/sms-lifecycle.repository.ts:565-601 | A requeue moves `FATAL_FAILURE` to `RETRY_SCHEDULED` with a fresh budget, a move outside the table, or changes nothing |
| `StatusTheorems.ReportIsLawful` | src/database/sms-lifecycle.repository.ts:605-640 | A delivery report makes a table move from the status it validated, or nothing, whatever commits in between |
| `StatusTheorems.LateFinalizeIsHarmless` | src/database/sms-lifecycle.repository.ts:326-398 | A worker that finalizes after an audited resolution cannot change any message row |
| `Webhooks.AppliedFromSent` | src/database/sms-lifecycle.repository.ts:605-640 | A report is applied if and only if its message is `SENT`, is a duplicate if and only if the status is equal, and is refused otherwise |
| `Webhooks.FirstReportWins` | src/database/sms-lifecycle.repository.ts:605-640 | Over any sequence of reports for one message the first fixes the status; equal ones are duplicates, different ones are refused with it |
| `Webhooks.AppliedReportWins` | src/database/sms-lifecycle.repository.ts:605-640 | With any lawful commits before and during each report: once one is applied, every later one only echoes it and the status stays |
| `Webhooks.ReportOnceIsTransaction` | src/database/sms-lifecycle.repository.ts:605-640 | The report used there is the report transaction with the commits in between |
| `Resolutions.ResolutionHitsDoubtIffNewest` | src/database/sms-lifecycle.repository.ts:405-479 | With any commits in between, a resolution that takes effect settles the attempt in doubt if and only if the named attempt is still the newest |
| `Resolutions.ResolutionCanNameRefusedAttempt` | src/database/sms-lifecycle.repository.ts:455-479 | For either decision a reachable state in which the audit record names a refused attempt of a settled message and the next provider's attempt is still in doubt |
| `Resolutions.UndisturbedResolutionHitsDoubt` | src/database/sms-lifecycle.repository.ts:405-479 | Without interference the resolved attempt is the newest and in doubt |
| `Resolutions.RepeatIsSafe` | src/database/sms-lifecycle.repository.ts:421-440 | Repeating a decision changes nothing and reports it; any other decision for the attempt is a conflict |
| `Operations.ReportIsTransaction` | src/database/sms-lifecycle.repository.ts:605-640 | A report of the protocol, its read and its commit with any run of others in between, commits what the repository's transaction commits under those commits; one that its read refuses commits nothing |
| `Operations.ResolutionIsTransaction` | src/database/sms-lifecycle.repository.ts:405-482 | The same of a resolution |
| `Operations.PermanentIsTransaction` | src/database/sms-lifecycle.repository.ts:524-530 | The same of a permanent failure |
| `PassRefinement.PassRefinesDispatch` | src/modules/providers/provider-manager.ts:36-73 | Undisturbed, the worker calls the same providers in the same order as plain dispatch; sent or parked exactly when dispatch succeeds or is ambiguous; sent exactly on a usable id; eligible for a round exactly when the exhausted result is retryable |
| `WorkerRefinement.WorkerIsProcessor` | src/modules/queue/sms.processor.ts:88-192 | The protocol worker, left alone after its claim, commits what `ProcessDispatch` commits and calls as many providers |
| `Delivery.JobEndsWith` | src/modules/queue/sms.processor.ts:112-163 | An undisturbed job whose first provider that does not refuse accepts with an id that holds a visible character ends as sent by it, the row `SENT` under exactly that id; with an id that is absent or only white space, or an ambiguous answer, it ends awaiting, without an id and with its expiry event |
| `Delivery.JobEndsRefused` | src/modules/queue/sms.processor.ts:164-192 | An undisturbed job that every provider refuses ends in another round if and only if there is a provider, every failure may pass and rounds are left; otherwise in a dead letter with the reason |
| `Delivery.JobSkips` | src/modules/queue/sms.processor.ts:88-97 | A job for a message that is neither queued nor scheduled is acknowledged without a trace |
| `Delivery.JobCannotRead` | src/modules/queue/sms.processor.ts:97-109 | A body that cannot be decrypted ends the job with an exception after its claim |
| `Delivery.SentIsReachable` | src/modules/queue/sms.processor.ts:130-137 | Under every configuration with a provider, and for every visible id, some reachable state has the message `SENT` under that id |
| `Interference.ProcessorFollowsRun` | src/modules/queue/sms.processor.ts:88-192 | With any actions of others in between: the processor, given the answers the protocol worker got and the commits it met, leaves the same database after as many provider calls, with the outcome that the worker's last statement tells |
| `Interference.OutcomeTells` | src/modules/queue/sms.processor.ts:112-192 | That outcome is sent, awaiting, retry-scheduled or dead-letter exactly when the last statement moved the row to `SENT`, wrote the expiry event, moved it to `RETRY_SCHEDULED` or to `FATAL_FAILURE`; skipped exactly when a reservation or a decision changed nothing, thrown exactly when a finalization or the reading for the decision did |
| `Interference.ProcessorStandsWithRun` | src/modules/queue/sms.processor.ts:88-192 | Wherever a worker stands or stops for good, the processor has called as many providers by then and has the worker's remaining job before it |
| `Interference.EveryExecutionIsProcessing` | src/modules/queue/sms.processor.ts:88-192 | Every execution of a worker in any run, from its claim to its own last step, has such a description, so it is an execution of `ProcessDispatch` |
| `Interference.OthersMayRun` | src/modules/queue/sms.processor.ts:88-192 | However long others act, the worker stands where it stood and its next step stays enabled, so any commits of others can fall between its transactions |
| `Interference.MissingRowIsNeverDeadLettered` | src/modules/queue/sms.processor.ts:101-106 | A job whose row is gone when it reads the body throws and changes nothing: its dead letter is never written |
| `RelayTheorems.TickTakesProtocolSteps` | src/modules/queue/outbox-relay.service.ts:90-111 | Each event of a tick has the effect of the protocol steps for it, under the same failures and with the same doings of others in between |
| `Drain.TicksDrain` | src/modules/queue/outbox-relay.service.ts:72-113 | With working queues and no new writes all unpublished events, and no others, are published and queued after ceil(N / B) ticks of batch size B |
| `Drain.TicksNeededIsCeiling` | src/modules/queue/outbox-relay.service.ts:86-88 | The number of ticks used there is the ceiling of N / B |
| `Drain.FetchIsOldest` | src/database/sms-lifecycle.repository.ts:173-190 | A fetch returns the oldest unpublished events in order, each once: `limit` of them or all |
| `RateLimiter.RateBound` | src/modules/queue/provider-rate-limiter.ts:9-14 | Any interval of L milliseconds holds at most limit * (ceil(L / 1000) + 1) grants, for any number of callers |
| `RateLimiter.WindowGrantsLimit` | src/modules/queue/provider-rate-limiter.ts:9-14 | Among the runs within one second of the first on a dead key, the i-th is granted if and only if i <= limit, and a refused one is told to wait for the end of that second |
| `RateLimiter.RefusedAgainByOthers` | src/modules/queue/provider-rate-limiter.ts:31-43 | A refused caller sleeps to the end of the window that refused it, and is refused again only if others ran the script at least `limit` times in the meantime |
| `RateLimiter.GrantedOnceOthersAreFew` | src/modules/queue/provider-rate-limiter.ts:31-43 | So it is granted by the time fewer than `limit` runs of others fall into one of its sleeps |
| `Cidr.MatchesIsSameQuotient` | src/modules/sms/guards/private-network.guard.ts:106-116 | The mask test on unbounded two's-complement integers holds exactly when both addresses agree after division by 2^hostBits |
| `Cidr.ShorterPrefixAdmitsMore` | src/modules/sms/guards/private-network.guard.ts:106-116 | A shorter prefix admits a superset |
| `Cidr.ExtremePrefixes` | src/modules/sms/guards/private-network.guard.ts:111-113 | The full prefix admits one address, the empty prefix all of its version |
| `IpText.CompressionKeepsValue` | src/modules/sms/guards/private-network.guard.ts:92-104 | Every "::" compression of eight groups is read as the same 128-bit value as the full form |
| `IpText.DottedQuadValue` | src/modules/sms/guards/private-network.guard.ts:86-90 | A dotted quad is read as its base-256 value, within 32 bits |
| `IpText.MappedMeansQuad` | src/modules/sms/guards/private-network.guard.ts:72-74 | An IPv4-mapped address means its IPv4 part |
| `IpText.ZoneIsIgnored` | src/modules/sms/guards/private-network.guard.ts:69-70 | A zone suffix does not change the address |
| `Addresses.PrivateNetworks` | src/modules/sms/guards/private-network.guard.ts:86-116 | Read from dotted decimal text, an address matches 10.0.0.0/8, 172.16.0.0/12, 192.168.0.0/16 or 127.0.0.0/8 exactly when its octets say so |
| `Addresses.ParsesByVersion` | src/modules/sms/guards/private-network.guard.ts:69-84 | An address without zone or mapped prefix is read by the version that `isIP` tells, or not at all |
| `Addresses.FullFormReadsBack` | src/modules/sms/guards/private-network.guard.ts:92-104 | Each of the eight groups can be read back from the value of a full IPv6 text |
| `Addresses.FirstGroupDecides` | src/modules/sms/guards/private-network.guard.ts:92-116 | A prefix of 16 bits matches exactly when the first groups agree |
| `LifecycleInvariant.BeginKeepsValid` | src/database/sms-lifecycle.repository.ts:218-232 | A claim keeps every table invariant |
| `LifecycleInvariant.RecoverKeepsValid` | src/database/sms-lifecycle.repository.ts:249-270 | A recovery keeps every table invariant |
| `LifecycleInvariant.ReserveKeepsValid` | src/database/sms-lifecycle.repository.ts:278-310 | A reservation keeps them: its attempt is the only one in doubt, because an open message has only refused attempts |
| `LifecycleInvariant.FinalizeKeepsValid` | src/database/sms-lifecycle.repository.ts:326-398 | Accepting, parking, releasing or rolling back keeps every table invariant |
| `LifecycleInvariant.ResolveCommitKeepsValid` | src/database/sms-lifecycle.repository.ts:455-479 | A resolution keeps them, with one audit record per message that agrees with it |
| `LifecycleInvariant.GuardedCommitKeepsValid` | src/database/sms-lifecycle.repository.ts:644-685 | Retry, dead letter and permanent failure keep every table invariant |
| `LifecycleInvariant.RequeueCommitKeepsValid` | src/database/sms-lifecycle.repository.ts:565-601 | A requeue keeps every table invariant |
| `LifecycleInvariant.ReportCommitKeepsValid` | src/database/sms-lifecycle.repository.ts:605-640 | A delivery report keeps every table invariant |
| `LifecycleInvariant.ExpireKeepsValid` | src/database/sms-lifecycle.repository.ts:549-557 | Expiry keeps every table invariant |
| `Persistence.CreateCommitKeepsValid` | src/database/sms-persistence.repository.ts:133-166 | A creation keeps every table invariant |
| `Persistence.CreateOutcome` | src/database/sms-persistence.repository.ts:115-169 | A transaction returns the live owner, or a new message that owns the key from then on, or writes nothing |
| `Persistence.CreateOrGetReturnsOwner` | src/database/sms-persistence.repository.ts:79-93 | A successful call returns the message that owns the key, with an open window; a loser that finds the winner returns the winner's message |
| `Persistence.NewKeyLasts` | src/database/sms-persistence.repository.ts:133-166 | A new message owns its key for the given hours of 3,600,000 ms and is kept for 90 days |
| `Verdicts.BeginVerdict` | src/database/sms-lifecycle.repository.ts:218-232 | A claim succeeds if and only if the message is queued or scheduled, and answers with the claimed row |
| `Verdicts.ReserveVerdict` | src/database/sms-lifecycle.repository.ts:278-310 | A reservation succeeds if and only if the message is in processing, and records the provider, the count and a bare attempt |
| `Verdicts.FinalizeVerdict` | src/database/sms-lifecycle.repository.ts:326-398 | An ambiguous failure is recorded whatever the message has become, if its expiry is positive; any other answer only while the message awaits it; what is not recorded changes nothing |
| `Verdicts.SidShape` | src/database/sms-lifecycle.repository.ts:704-706 | A SID is "SM" and 32 hexadecimal digits, in either case |
| `Verdicts.ResolveVerdict` | src/database/sms-lifecycle.repository.ts:405-507 | Which of its answers a resolution gives, in the order of its checks, and that it stores the decision exactly when it says so |
| `Verdicts.TransitionWrites` | src/database/sms-lifecycle.repository.ts:509-542 | What retry, dead letter and permanent failure write into the row, column by column |
| `Verdicts.RequeueVerdict` | src/database/sms-lifecycle.repository.ts:565-601 | A requeue succeeds if and only if the row is dead-lettered when read and when written; it gives a fresh budget and writes its event |
| `Verdicts.ReportVerdict` | src/database/sms-lifecycle.repository.ts:605-640 | Unknown provider id, duplicate, refusal with the status, applied, or lost race: exactly when a report answers which |
| `Retention.PurgeKeepsValid` | src/modules/maintenance/retention.service.ts:81-106 | A purge leaves no child row or key pointing at a missing message, and keeps every table invariant |
| `Outbox.PayloadRoundTrip` | src/modules/queue/outbox-relay.service.ts:194-215 | Reading back a written payload gives the written id and delay; a negative delay is refused |
| `Outbox.PlainEventDecodes` | src/modules/queue/outbox-relay.service.ts:133-167 | Each undelayed event type decodes to its own message on its exact queue under its exact job name |
| `Outbox.DelayedEventDecodes` | src/modules/queue/outbox-relay.service.ts:127-177 | Each delayed event type decodes to its own message, its exact queue and job name, and exactly the written delay |
| `Outbox.DecodesIff` | src/modules/queue/outbox-relay.service.ts:116-215 | For any stored event: it decodes if and only if its payload is an object with a text id and no bad delay, its type is supported, and a delayed type has its delay; and then to which id and delay |
| `Outbox.DecodeErrors` | src/modules/queue/outbox-relay.service.ts:116-215 | For any event that does not decode, which error the relay notes |
| `Providers.RecordedFailureIsReal` | src/modules/queue/sms.processor.ts:131-148 | An attempt is recorded as a definitive failure exactly when the provider's answer was a clean refusal |
| `ProviderManager.OutcomeIsVerdict` | src/modules/providers/provider-manager.ts:51-72 | The result stops the pass or, after an exhausted one, is retryable exactly when every provider's failure was |
| `ProviderManager.DispatchStops` | src/modules/providers/provider-manager.ts:36-63 | The pass stops at the first success or ambiguous answer, with that result and provider and the attempts up to it |
| `ProviderManager.DispatchFails` | src/modules/providers/provider-manager.ts:60-72 | When all refuse, the result and provider are those of the first permanent failure, or of the last provider |
| `StateMachine.SourceStatesOf` | src/database/sms-state-machine.ts:92-100 | Exactly the statuses that may move into the given one, each once |
| `StateMachine.SettledIsClosed` | src/database/sms-state-machine.ts:32-59 | Along any chain of table moves a settled message stays settled, for at most one more move |
| `StateMachine.StartableOnlyFromProcessing` | src/database/sms-state-machine.ts:32-59 | The only table move into a startable status is from `PROCESSING` to `RETRY_SCHEDULED` |
| `StateMachine.TableByTarget` | src/database/sms-state-machine.ts:32-59 | For every target status exactly the statuses it may be reached from |
| `LifecycleRepository.SmsLifecycleRepository.FetchUnpublishedOutbox` | src/database/sms-lifecycle.repository.ts:173-190 | The loop returns the first `limit` unpublished events in creation order |
| `LifecycleRepository.SmsLifecycleRepository.MarkOutboxPublished` | src/database/sms-lifecycle.repository.ts:192-197 | Marks one existing event, and changes nothing when the row is missing |
| `LifecycleRepository.SmsLifecycleRepository.RecordOutboxPublishFailure` | src/database/sms-lifecycle.repository.ts:199-204 | Counts one failure on an existing event, and changes nothing when the row is missing |
| `LifecycleRepository.SmsLifecycleRepository.BeginProcessing` | src/database/sms-lifecycle.repository.ts:218-232 | Commits exactly the claim transaction |
| `LifecycleRepository.SmsLifecycleRepository.RecoverStaleProcessing` | src/database/sms-lifecycle.repository.ts:239-272 | Selects stale messages, then recovers them one transaction at a time, with any commits before each, and counts those that took effect |
| `LifecycleRepository.SmsLifecycleRepository.SelectStale` | src/database/sms-lifecycle.repository.ts:240-245 | Distinct messages in `PROCESSING` last written before the cutoff, oldest first: `limit` of them, or all of them |
| `LifecycleRepository.UndisturbedRecovery` | src/database/sms-lifecycle.repository.ts:239-272 | Without interference exactly the selected stale messages are released, each by one event of its own |
| `LifecycleRepository.SmsLifecycleRepository.ReserveProviderAttempt` | src/database/sms-lifecycle.repository.ts:278-310 | Commits exactly the reservation transaction |
| `LifecycleRepository.SmsLifecycleRepository.FinalizeProviderAttempt` | src/database/sms-lifecycle.repository.ts:326-398 | Writes the attempt first and rolls it back when a later check throws; the result is the finalization transaction |
| `LifecycleRepository.SmsLifecycleRepository.ResolveTwilioAttempt` | src/database/sms-lifecycle.repository.ts:405-482 | Checks, conditional update, reread after a lost race and key constraints of a resolution, with any commits in between |
| `LifecycleRepository.SmsLifecycleRepository.ScheduleRetry` | src/database/sms-lifecycle.repository.ts:509-522 | A guarded transition to `RETRY_SCHEDULED` with its delayed event |
| `LifecycleRepository.SmsLifecycleRepository.MarkPermanentProviderFailure` | src/database/sms-lifecycle.repository.ts:524-530 | A guarded transition to `REJECTED` or `UNDELIVERED` without an event |
| `LifecycleRepository.SmsLifecycleRepository.MarkFatalFailure` | src/database/sms-lifecycle.repository.ts:532-542 | A guarded transition to `FATAL_FAILURE` with its dead-letter event |
| `LifecycleRepository.SmsLifecycleRepository.GuardedTransition` | src/database/sms-lifecycle.repository.ts:644-685 | Read, validation, conditional update and event as one transaction with any commits after the read |
| `LifecycleRepository.SmsLifecycleRepository.ExpireAmbiguousOutcome` | src/database/sms-lifecycle.repository.ts:549-557 | Moves a message that still awaits its provider to `UNDELIVERED`, keeps its provider id, tells whether it did, and changes nothing else |
| `LifecycleRepository.SmsLifecycleRepository.ResetForRequeue` | src/database/sms-lifecycle.repository.ts:565-601 | The requeue transaction with any commits after its read |
| `LifecycleRepository.SmsLifecycleRepository.ApplyDeliveryReport` | src/database/sms-lifecycle.repository.ts:605-640 | The delivery report transaction with any commits after its read |
| `Persistence.SmsPersistenceRepository.CreateOrGetMessage` | src/database/sms-persistence.repository.ts:79-93 | One transaction, and one more after a lost unique-key race |
| `Persistence.SmsPersistenceRepository.CreateOrGetMessageInTransaction` | src/database/sms-persistence.repository.ts:115-169 | Find, delete, create and roll back in order, as the creation transaction |
| `Retention.RetentionService.PurgeExpired` | src/modules/maintenance/retention.service.ts:81-106 | Deletes in an order that meets the `Restrict` foreign keys, and counts the deleted messages; each had come to its end and its retention had run out, and every other message is as before |
| `Relay.OutboxRelayService.Tick` | src/modules/queue/outbox-relay.service.ts:72-84 | Returns at once while running; otherwise relays one batch under any failures and any doings of others, and clears the flag |
| `Relay.OutboxRelayService.RelayBatch` | src/modules/queue/outbox-relay.service.ts:86-113 | The loop enqueues and marks event by event, notes failures, and ends early when noting throws |
| `Relay.OutboxRelayService.RelayEvent` | src/modules/queue/outbox-relay.service.ts:90-111 | One event: `add`, mark and failure note with others acting before each; `add` and the mark may take effect although their caller sees an error |
| `Processor.SmsProcessor.ProcessDispatch` | src/modules/queue/sms.processor.ts:88-192 | Claim, read of the body, provider loop and decision, with any commits between the worker's transactions; the providers called are a prefix of the list |
| `Processor.SmsProcessor.GuardMissingRow` | src/modules/queue/sms.processor.ts:101-106 | The dead letter asked for when the row is gone; a lost race is benign, other errors are rethrown |
| `Processor.SmsProcessor.GuardConcurrency` | src/modules/queue/sms.processor.ts:167-212 | The round decision; a lost race is benign, other errors are rethrown |
| `ProviderManager.ProviderManager.Dispatch` | src/modules/providers/provider-manager.ts:36-73 | The pass with early returns, and the first permanent or last failure as result |
| `RateLimiter.ProviderRateLimiter.Eval` | src/modules/queue/provider-rate-limiter.ts:9-14 | The script: count, set the expiry with the first count, grant or return the time left |
| `RateLimiter.ProviderRateLimiter.Acquire` | src/modules/queue/provider-rate-limiter.ts:27-44 | Among any runs of other callers: the loop ends at the first of its runs that finds a slot, with the key that run leaves |

## Left out

- Message bodies, phone numbers, metadata, encryption and masking; decryption is a flag that may end a worker after its claim.
- HTTP controllers, webhook signatures, modules, validation and health: plumbing over libraries.
- Provider clients and error normalisation; a provider call is any `SendResult`.
- 32-bit widths of the counters `deliveryAttempts`, `retryRounds` and `retryCount`; they are unbounded here.
- The wording of error texts; `Note` keeps what they say.
- `recordProviderAttempt` (`src/database/sms-persistence.repository.ts:95-113`), which nothing in the dispatch path calls.
- Timers, BullMQ internals and delays: a job may run at any time, so back-off delays are computed but not claimed to be respected.
- Liveness: a maintenance job may be swallowed by another processor of its queue (`src/modules/maintenance/retention.processor.ts:14`), and nothing claims that expiry or recovery happens.
- `createdAt` ties: attempts and events are numbered in creation order.
- Retention.RetentionService.PurgeExpired: the purge is atomic; a version whose deletes interleave with a requeue is not modelled, and which expired messages a batch selects is a parameter.
- LifecycleRepository.SmsLifecycleRepository.ApplyDeliveryReport: which of several messages with one provider id `findFirst` returns is a parameter.
- Persistence.SmsPersistenceRepository.CreateOrGetMessage: fresh message ids are parameters, assumed unused.
- RateLimiter.ProviderRateLimiter.Acquire: presupposes that some run finds a slot; if others fill every window while it sleeps, the loop need not end.
- Cidr.MatchesIsSameQuotient: `parseCidr` and the configuration text are not modelled; prefixes are numbers within range.
- IpText.CompressionKeepsValue: hexadecimal groups only; an embedded dotted quad other than the mapped form is left out, and `isIP` is a parameter.
