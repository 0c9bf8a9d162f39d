# Verified model of the voice assistant's calendar core

A company's voice assistant books, moves through and cancels calendar appointments on behalf of callers.
This project models the parts that keep those actions safe under retries, crashes, stale reads and
interleaved callbacks, and proves what they promise. Each source file that updates state in place appears
twice: as a class whose methods are proved against functions, and, where the promise is about whole runs,
as a transition system built from the same functions, over which invariants and theorems are proved for
every sequence of actions.

## Layout

| file | models |
|---|---|
| `Common.dfy` | option and result types |
| `BookingQueue.dfy` | the durable booking queue: rows, claims, result writes, cancel, resume, retry delay |
| `BookingWorker.dfy` | one worker pass: what each provider answer leads to |
| `BookingProtocol.dfy` | clients, broker calls, workers, the calendar owner and the clock as one transition system |
| `BookingRefinement.dfy` | the protocol's worker phases are the worker pass |
| `BookingSafety.dfy`, `BookingRequests.dfy` | at most one event per request key; a completed row is the booking that was asked for |
| `BookingSchedule.dfy` | when a row may be claimed, and that a scheduled delay is waited for |
| `BookingCancellation.dfy` | when a cancelled request can still get an event |
| `BookingLeases.dfy`, `BookingScenarios.dfy` | what leases buy, and runs that show why the assumptions are needed |
| `IdempotencyLedger.dfy`, `ToolExecution.dfy`, `ToolExactlyOnce.dfy`, `ToolScenarios.dfy` | idempotency records, confirmation tokens, `execute_tool`, exactly-once execution and its limits |
| `FreeSlots.dfy`, `BusinessHours.dfy` | free slots through a zone with a daylight-saving change; business-hours normal form |
| `CalendarMirror.dfy`, `MirrorSync.dfy`, `MirrorAvailability.dfy` | the calendar mirror, the proof that incremental syncs refine full ones, and the slots offered from it |
| `LiveSession.dfy`, `LiveSessionSafety.dfy`, `LiveSessionStatus.dfy` | the browser session's refs and generation counter, and what its status tells |
| `ActionBudget.dfy` | the fixed-window limiter |
| `ReadCache.dfy`, `ReadCacheSafety.dfy`, `ReadCacheFlights.dfy` | the single-flight LRU read cache, with an explicit heap for copy isolation, and which loads are in flight |
| `AgentProfiles.dfy`, `ProfileCache.dfy` | versioned profiles and their cache |
| `CredentialEnvelope.dfy`, `OAuthTokens.dfy` | envelope encryption and the token upsert |
| `ThreeCxCalls.dfy` | call claims, guarded transitions and leases |
| `VoiceActivity.dfy`, `BargeIn.dfy` | the voice-activity detector and the barge-in timer |
| `AudioPlayback.dfy`, `AudioPlaybackSafety.dfy` | PCM decoding, the playback queue and its scheduler |

`dafny verify dfyconfig.toml` checks everything.

## Conventions

* A database transaction is one atomic step. Code between two awaits is one step. Steps of different
  tasks, handlers, timers and processes interleave freely, and a process may stop between any two steps.
* Outcomes of calls into Google, LiveKit, the database and the network are parameters: answered, refused,
  or applied with the answer lost.
* SHA-256 is injective, AES-GCM is symbolic, UUIDs and random tokens do not repeat.
* `Reaches(s, actions, t)` says that the actions lead from `s` to `t`; theorems quantify over all of them.

## Where the code does less than its documentation

Each line names the concrete run or input that breaks a promise, and the theorems that say exactly when it
is kept.

* A completed row can go back to `pending`, because the worker's result write has no status or lease guard:
  `BookingScenarios.StaleStoreUndoesCompletion`, `BookingScenarios.AmbiguousStoreUndoesCompletion`. In any
  run a terminal row stays exactly unless a step overwrites it
  (`BookingLeases.TerminalRowsStayExactlyUnlessOverwritten`); a worker that could is late
  (`BookingLeases.OnlyALateWorkerOverwrites`), or its write of `completed` took effect and raised
  (`BookingLeases.ARaisingCompletionIsUndoneExactlyIfApplied`).
* A cancelled row can have an event: `BookingScenarios.CancelledRowMayHaveAnEvent`. It still can get one
  exactly if, in the state of the cancel, a broker call for it has not reached its insert, or a worker holds a
  job for it that may still send the provider write or put the row back into the queue, or the event is
  already there (`BookingCancellation.ACancelledRequestGetsAnEventExactlyIfStillPossible`).
* A tool can run and commit twice for one key, because commit and release have no status guard:
  `ToolScenarios.UnansweredCommitRunsTheToolTwice`, `ToolScenarios.SlowToolIsJoinedByAnother`,
  `ToolScenarios.AConflictReleasedTwiceUndoesACommit`. In any run a committed record stays exactly unless a
  step disturbs it (`ToolExactlyOnce.CommittedRecordsStayExactlyUnlessDisturbed`). There are three kinds of
  call that could: one that is late (`ToolExactlyOnce.OnlyALateCallDisturbs`), one whose commit took effect
  and raised (`ToolExactlyOnce.ARaisingCommitIsUndoneExactlyIfApplied`), and one whose release after a
  conflict took effect and raised, so that the exception handler releases once more
  (`ToolExactlyOnce.TheSecondReleaseTakesExactlyWhatAnotherCallTook`). A timely run, in the table below, is one
  without these three.
* Two tools can be running under one key: in a timely run past the lock of one
  (`ToolScenarios.TwoToolsRunInATimelyRun`), and under two live locks after such a second release
  (`ToolScenarios.AConflictReleasedTwiceFreesALiveLock`). In a timely run a running tool is joined exactly past
  its lock (`ToolExactlyOnce.ARunningToolIsJoinedExactlyPastItsLock`).
* An incremental sync can keep an outdated row: `MirrorSync.AZeroLengthEditIsDropped`. It equals a full sync
  exactly if its batch drops no change (`MirrorSync.IncrementalSyncRefinesFull`).
* Hours can compile and then offer no slot, because `\d` accepts every decimal digit and
  `time.fromisoformat` does not: `BusinessHours.ArabicDigitsAreLost`. That happens exactly if a digit is not
  ASCII (`BusinessHours.CompiledHoursReadBack`).
* A second loader can run after `clear`: `ReadCacheFlights.ClearLetsASecondLoaderRun`. In any state an ask
  starts one exactly if it misses, no load of its key is in flight and one is still running
  (`ReadCacheFlights.AnAskStartsASecondLoaderExactlyIf`); until the next `clear` that one was begun before this
  one (`ReadCacheFlights.ASecondLoaderStartsExactlyWhileAnOldOneRuns`).
* An old load can be served and cached as new: `ReadCacheFlights.AbandonedLoadIsServedLate`. A joined load is
  new exactly if it was still loading (`ReadCacheFlights.AJoinedLoadIsNewExactlyIfStillLoading`), and a
  finished one can be joined exactly while no caller has come back from it
  (`ReadCacheFlights.ATaskIsInFlightExactlyWhileUnattended`).
* A chunk can be decoded from foreign bytes, because the `DataView` ignores its offset; exactly unless its
  bytes also begin the buffer (`AudioPlayback.DecodesItsOwnBytesOnlyAtTheStart`).
* Two buffers can overlap across a resume: `AudioPlaybackSafety.ResumeWhilePlayingOverlaps`, and across a
  completion: `AudioPlaybackSafety.RestartAfterCompletionOverlaps`. The stretch stays in order exactly if it is
  played out 100 ms from the resume or the restart (`AudioPlaybackSafety.AResumeContinuesExactlyIfPlayedOut`,
  `AudioPlaybackSafety.ARestartContinuesExactlyIfPlayedOut`).

## Model

| member | source | states |
|---|---|---|
| `BookingQueue.RetryDelaySeconds` | backend/booking_worker.py:32-36 | the delay lies between half of the exponential ceiling and the ceiling, for every random sample |
| `BookingQueue.CeilingDoubles` | backend/booking_worker.py:32-36 | the ceiling is 30 seconds at the first attempt and doubles up to an hour |
| `BookingQueue.JitterIsEven` | backend/booking_worker.py:32-36 | the sample moves the delay evenly from half of the ceiling to all of it |
| `BookingQueue.BookingTable.CreateBookingRequest` | db/booking_requests.py:12-31 | only `pending` and `needs_reconnect` may be inserted; an existing row of the key keeps its payload and status, which is what the caller is told |
| `BookingQueue.BookingTable.ClaimOne` | backend/booking_worker.py:44-72 | takes a waiting row only when it is due and a running one only when its lease has lapsed, the earliest by (next attempt, creation); makes it running for 120 seconds and counts the attempt unless it waited for a reconnect; takes nothing exactly when no row can be taken |
| `BookingQueue.BookingTable.WriteResult` | backend/booking_worker.py:75-88 | writes status, result and next attempt by row alone, whatever its status or lease |
| `BookingQueue.BookingTable.CancelBookingRequest` | db/booking_requests.py:81-93 | cancels exactly pending and reconnect rows and reports whether it did |
| `BookingQueue.BookingTable.ResumeNeedsReconnectBookings` | db/booking_requests.py:96-108 | makes exactly the company's reconnect rows pending and due now, and counts them |
| `BookingWorker.ProcessBookingRequest` | backend/booking_worker.py:91-196 | sends the provider write exactly when reconciliation found nothing and the slot is offered; the row becomes `completed`, `needs_reconnect`, `pending` or `failed` exactly by the last reply reached and the attempt, with its date and result, and no other row changes |
| `BookingWorker.PassOutcome` | backend/booking_worker.py:91-196 | which last replies lead to each of the four writes, which events and delays these carry, and that exactly the temporary failures and HTTP errors are written inside an exception handler |
| `BookingRefinement.WorkerWritesThePassResult` | backend/booking_worker.py:91-196 | whatever happens between a worker's provider calls, with the answer to the provider write delivered or lost, the protocol's worker decides to write exactly the result of one pass over the same answers |
| `BookingRefinement.StoringIsTheTableTransaction` | backend/booking_worker.py:75-88 | storing that result is the table's unguarded write of it, and ends the worker's job |
| `BookingSchedule.ARowIsClaimableExactlyWhenDue` | backend/booking_worker.py:44-56 | in any state, a row can be claimed if and only if it waits and is due, or runs under a lapsed lease |
| `BookingSchedule.NoClaimBeforeTheDate` | backend/booking_worker.py:44-56 | over any run, no worker claims a waiting row before its date unless the row was written or resumed in between |
| `BookingSchedule.ScheduledDelaysAreWaitedFor` | backend/booking_worker.py:75-88 | in every run, after a worker put its row back, nobody claims it before the back-off of that attempt is over, or before half an hour when it waits for a reconnect, unless it is written again or resumed |
| `BookingProtocol.ARequestIsQueuedExactlyIfUndecided` | backend/app/tools/calendar.py:53-108 | in any state, `book_event` queues exactly the request it was asked, if and only if the reply is temporary, retryable or a server error, or asks for a reconnect; it reports a booking exactly for a confirming reply |
| `BookingProtocol.AnInsertIsAnsweredByTheCalendar` | backend/app/services/google_calendar.py:835-874 | in any state an insert makes the request's own event and confirms it if and only if its key has none; otherwise the calendar stays, and the fetch confirms a live event, refuses a cancelled one for good, and leaves the request open when it finds nothing |
| `BookingSafety.RunKeeps` | backend/app/services/google_calendar.py:835-874 | the protocol invariant (every keyed event was inserted once, for its key; every confirmation was seen live) holds in every reachable state |
| `BookingSafety.AtMostOneEventPerKey` | backend/app/services/google_calendar.py:33-37 | over every interleaving of retries, workers, expired leases, lost responses and crashes, at most one provider insertion per request key |
| `BookingSafety.ConfirmedMeansProviderConfirmed` | backend/booking_worker.py:103-158 | a row written `completed`, or a client told so, has the event of its own key, inserted for it, and at some point of the run that event was live on the calendar |
| `BookingSafety.SeenMeansLive` | backend/app/services/google_calendar.py:40-63 | a key is marked as seen only in a run with a prefix at whose end its event is on the calendar and not cancelled |
| `BookingSafety.EventExistsExactlyIfInserted` | backend/app/services/google_calendar.py:835-874 | after any run the event of a key exists if and only if it did before or an insertion for that key took effect in the run |
| `BookingCancellation.RunStaysClosed` | backend/booking_worker.py:91-196 | behind a terminal row, without the event, a broker call that has not reached its insert or a worker that may send or requeue, no run makes the event unless somebody asks for the key again |
| `BookingCancellation.WhatIsPossibleHappens` | backend/booking_worker.py:91-196 | with any of those three, some run in which nobody asks for the key again ends with the event |
| `BookingCancellation.ACancelledRequestGetsAnEventExactlyIfStillPossible` | db/booking_requests.py:81-93 | in every run, a cancelled request can still end with an event, though nobody asks for it again, if and only if the state of the cancel has the event, such a call or such a worker |
| `BookingRequests.AgentKeys.StableWriteKey` | agent/agent.py:702-706 | one key per logical action, never the same key for two actions |
| `BookingRequests.CompletedBookingIsTheOneAsked` | backend/app/tools/calendar.py:53-90 | for any one session's keys, in a run where every other session, company and time zone may book anything, a completed row of that session has exactly one insertion behind it, carrying the row's and the action's own title, start and duration |
| `BookingRequests.OtherSessionsAreFree` | agent/agent.py:702-706 | every run in which requests under the session's keys carry the action of their key, and all others are arbitrary, satisfies the hypothesis of that theorem |
| `BookingLeases.OneLiveOwner` | backend/booking_worker.py:44-72 | if nobody writes after its lease and result writes are not ambiguous, a row has at most one live owner, and runs under its lease |
| `BookingLeases.TerminalIsForever` | backend/booking_worker.py:46-54 | under that assumption, completed, failed and cancelled rows never change again |
| `BookingLeases.ATerminalRowChangesExactlyByAnOverwrite` | backend/booking_worker.py:75-88 | in any state a step changes a terminal row if and only if a store takes effect of a worker that holds a job for it and writes something else |
| `BookingLeases.ATerminalRowIsExposedExactlyToSuchAWorker` | backend/booking_worker.py:75-88 | some step can change a terminal row if and only if such a worker exists |
| `BookingLeases.OnlyALateWorkerOverwrites` | backend/booking_worker.py:44-88 | after a run that respects leases, such a worker has overrun its lease |
| `BookingLeases.ARaisingCompletionIsUndoneExactlyIfApplied` | backend/booking_worker.py:159-196 | a write of `completed` that raised leaves a worker about to undo it if and only if it took effect |
| `BookingLeases.TerminalRowsStayExactlyUnlessOverwritten` | backend/booking_worker.py:75-88 | over any run at all, a terminal row is untouched in every state if and only if no step overwrites it |
| `BookingLeases.CancelStopsTheQueue` | db/booking_requests.py:81-93 | after a cancel that returned true, the queue sends no further provider write for the row, which stays cancelled |
| `BookingLeases.AttemptsAreBounded` | backend/booking_worker.py:57-65 | attempts never exceed 8 plus lapsed leases plus resumes |
| `BookingLeases.EveryChangeMakesProgress` | backend/booking_worker.py:159-196 | without a lapsed lease or reconnect, every step leaves the row or strictly lowers a measure that is zero exactly at a terminal status |
| `BookingLeases.TerminalWithinEightClaims` | backend/booking_worker.py:159-196 | such a run claims the row at most eight times, and after the eighth it only runs or is terminal |
| `BookingLeases.BackoffIsBounded` | backend/booking_worker.py:32-36 | the delays scheduled in such a run total at most 30 * (2^7 - 1) = 3810 seconds |
| `BookingScenarios.StaleStoreUndoesCompletion` | backend/booking_worker.py:75-88 | without the lease assumption a reachable run takes a completed row back to pending |
| `BookingScenarios.AmbiguousStoreUndoesCompletion` | backend/booking_worker.py:159-196 | so does a result write that took effect and raised, within the lease |
| `BookingScenarios.CancelledRowMayHaveAnEvent` | db/booking_requests.py:81-93 | a reachable run ends with a cancelled row whose event exists |
| `IdempotencyLedger.IdempotencyTable.Acquire` | db/idempotency.py:45-102 | the lock is given exactly if there is no record or the tenant's own was given back or has run out; otherwise the record stays, and its payload is handed out exactly if the tenant committed one |
| `IdempotencyLedger.IdempotencyTable.Commit` | db/idempotency.py:109-129 | the tenant's record becomes committed with the payload, whatever its status |
| `IdempotencyLedger.IdempotencyTable.Release` | db/idempotency.py:136-154 | the tenant's record becomes refunded, whatever its status |
| `IdempotencyLedger.ConfirmationTable.Issue` | db/confirmation.py:25-51 | a fresh token bound to tenant, tool, event and reason for 300 seconds |
| `IdempotencyLedger.ConfirmationTable.Consume` | db/confirmation.py:54-86 | a token is accepted if and only if it is unspent, bound to this very target and not yet run out; accepting spends it, refusing changes nothing |
| `IdempotencyLedger.ExecuteTool` | backend/app/api/tools.py:282-416 | reply, start of the tool, record and token after one undisturbed call, by the rows it finds: a locked or foreign key answers a conflict and a committed one its payload, both touching nothing; a bad token gives the lock back; otherwise the tool runs and its outcome decides |
| `ToolExecution.OneBodyPerToken` | db/confirmation.py:54-86 | in every run a cancellation was confirmed for exactly its target, by a token that started no other body and was issued less than 300 seconds before |
| `ToolExecution.ATokenIsAcceptedExactlyInTime` | db/confirmation.py:54-86 | in every run, an issued token is accepted if and only if it is for this target, unspent and younger than 300 seconds |
| `ToolExecution.AFailingQueryEndsTheCall` | backend/app/api/tools.py:282-320 | a lock or token query that raises ends the call with an error and starts nothing; a lock it holds stays |
| `ToolExecution.EveryWriteIsKeyed` | backend/app/api/tools.py:282-320 | in every run, calls of the write tools have a key, and exactly those of `cancel_event` a token |
| `ToolExecution.AnUndisturbedCallIsExecuteTool` | backend/app/api/tools.py:282-416 | in any state of the interleaved system, a keyed call that runs on alone on an answering database answers and leaves exactly what `execute_tool` must |
| `ToolExecution.AnUndisturbedCallEnds` | backend/app/api/tools.py:282-416 | five answered steps are always enough for it |
| `ToolExactlyOnce.RunKeeps` | db/idempotency.py:45-158 | the lock, commit and reply invariants hold over every timely run, and committed records never change |
| `ToolExactlyOnce.OneRunningToolPerKey` | db/idempotency.py:61-102 | within the life of their locks, no two running tools share a key |
| `ToolExactlyOnce.ASecondToolStartsOnlyPastALock` | db/idempotency.py:70-85 | in every timely run, when a second tool starts under the key of a running one, one of the two locks has lapsed |
| `ToolExactlyOnce.ARunningToolIsJoinedExactlyPastItsLock` | db/idempotency.py:61-102 | a call joins a running tool of its key by acquiring the lock if and only if the running one's lock has lapsed and the record was given back or ran out |
| `ToolExactlyOnce.OneCommitPerKey` | backend/app/api/tools.py:391-400 | a key is committed at most once and every success reported for it carries that payload |
| `ToolExactlyOnce.RetryGetsTheCommittedPayload` | backend/app/api/tools.py:282-298 | once committed, every later call of the tenant gets that payload, without running the tool or looking at the token, spent or not |
| `ToolExactlyOnce.ACommittedRecordChangesExactlyByADisturbance` | db/idempotency.py:109-154 | in any state a step changes a committed record if and only if a commit of another payload, or a release, of a call holding its key takes effect |
| `ToolExactlyOnce.OnlyALateCallDisturbs` | db/idempotency.py:109-154 | after a timely run such a call has overrun its lock |
| `ToolExactlyOnce.ARaisingCommitIsUndoneExactlyIfApplied` | backend/app/api/tools.py:391-408 | a commit that raised is about to be undone by the release if and only if it took effect |
| `ToolExactlyOnce.ARaisingConflictReleaseIsRepeated` | backend/app/api/tools.py:366-408 | in any state, a release after a conflict that raises leaves a second release pending, and has given the record back if and only if it took effect |
| `ToolExactlyOnce.TheSecondReleaseTakesExactlyWhatAnotherCallTook` | db/idempotency.py:136-158 | whatever happened since a conflict release took effect and raised, the second release changes the record if and only if it is acquired or committed by then, and it is so only if another call took the key in between |
| `ToolExactlyOnce.CommittedRecordsStayExactlyUnlessDisturbed` | db/idempotency.py:109-154 | over any run at all, a committed record is untouched in every state if and only if no step disturbs it |
| `ToolScenarios.UnansweredCommitRunsTheToolTwice` | db/idempotency.py:136-154 | a commit applied without an answer is undone by the release, and a retry commits a second payload |
| `ToolScenarios.SlowToolIsJoinedByAnother` | db/idempotency.py:70-85 | with every query answered, a tool that outlives its lock is joined by another and both commit |
| `ToolScenarios.TwoToolsRunInATimelyRun` | db/idempotency.py:70-85 | a timely run ends with two tools running under one key |
| `ToolScenarios.AConflictReleasedTwiceFreesALiveLock` | backend/app/api/tools.py:366-408 | with nobody late and every commit clear, a conflict release that took effect and raised leads to two tools running under one key and live locks |
| `ToolScenarios.AConflictReleasedTwiceUndoesACommit` | backend/app/api/tools.py:366-408 | in the same way a committed payload is undone and a second one committed |
| `FreeSlots.RoundTripIsExistence` | backend/app/services/google_calendar.py:691-759 | the round-trip test accepts exactly the wall-clock times some instant shows, rejects exactly the spring gap, and conversion picks the earliest instant |
| `FreeSlots.ConversionIsMonotone` | backend/app/services/google_calendar.py:691-759 | on existing times the fold=0 conversion is strictly increasing |
| `FreeSlots.ComputeFreeSlots` | backend/app/services/google_calendar.py:691-759 | the loop with its early exit returns the full enumeration of offered slots; closed or unreadable hours give none |
| `FreeSlots.NothingAfterClosing` | backend/app/services/google_calendar.py:691-759 | once an existing slot runs past closing, so does every later one |
| `FreeSlots.SlotsAreTheOfferedStarts` | backend/app/services/google_calendar.py:691-759 | an instant is returned if and only if it is a 30-minute wall-clock start that exists, ends by closing and misses every busy interval |
| `FreeSlots.SlotsIncrease` | backend/app/services/google_calendar.py:691-759 | the returned instants strictly increase, also across a change of offset |
| `FreeSlots.CollisionIsABusyInstant` | backend/app/services/google_calendar.py:748-756 | with non-empty busy intervals, a slot collides exactly when one of its instants is busy |
| `FreeSlots.MergedAndOverlappingBusyAgree` | backend/app/services/google_calendar.py:611-627 | free slots depend only on the set of busy instants, so merged free/busy periods and overlapping mirrored events give the same list |
| `FreeSlots.DayRangeIsEnough` | backend/app/services/google_calendar.py:73-93 | a busy list that is right for the queried local day gives the slots of the whole calendar, also where the gap starts at midnight |
| `FreeSlots.OfferedSlotsPassTheCheck` | backend/app/services/google_calendar.py:648-688 | on the same calendar, a fitting grid time is offered if and only if the pre-write check finds it available |
| `FreeSlots.TheCheckByItsAnswer` | backend/app/services/google_calendar.py:648-688 | only an answered 200 without busy periods lets the write go on; reconnect and retry are asked for exactly for the answers that mean them |
| `BusinessHours.CompilingIsIdempotent` | backend/app/capabilities.py:107-130 | compiling compiled hours changes nothing |
| `BusinessHours.CompilesExactlyWhatIsWritten` | backend/app/capabilities.py:107-130 | a value compiles to a range if and only if it has at most 100 characters and is written as two clock times around a dash, spaces anywhere around them, the first one earlier |
| `BusinessHours.RefusesTheRest` | backend/app/capabilities.py:107-130 | what is too long, closed, ending before it starts, or no range at all, each by an if-and-only-if |
| `BusinessHours.CompilingKeepsTheReading` | backend/app/services/google_calendar.py:703-716 | the slot generator reads the compiled value as it reads the original |
| `BusinessHours.CompiledHoursReadBack` | backend/app/services/google_calendar.py:703-716 | compiled hours read back as closed or as exactly their opening and closing times; the parse-failure exit is taken if and only if a digit is not ASCII |
| `BusinessHours.ArabicDigitsAreLost` | backend/app/capabilities.py:107-130 | such hours compile and then offer no slot |
| `BusinessHours.CompileWeek` | backend/app/capabilities.py:107-130 | the loop compiles entries in order, later spellings of a day replacing earlier ones, and refuses more than seven |
| `BusinessHours.AWeekCompilesEntryByEntry` | backend/app/capabilities.py:107-130 | a week compiles if and only if each entry names a weekday and has hours that compile; the last entry of a day gives its hours |
| `BusinessHours.CompiledWeekIsNormal` | backend/app/capabilities.py:107-130 | every day of a compiled week is a lower-case weekday with hours that compile to themselves |
| `BusinessHours.CompilingAWeekTwice` | backend/app/capabilities.py:107-130 | compiling a compiled week, its days in any order, gives the same week |
| `CalendarMirror.MirrorStore.CommitCalendarSync` | db/calendar_mirror.py:101-168 | deletes and upserts the batch in order, from scratch when full, with the new token; a rejected record aborts all of it |
| `CalendarMirror.MirrorStore.MarkSyncFailed` | db/calendar_mirror.py:52-80 | a failure keeps the rows, and forgets the token exactly when a full sync is needed |
| `CalendarMirror.MirrorStore.MarkSyncStale` | db/calendar_mirror.py:83-98 | a stale mark keeps the token and makes the mirror unreadable |
| `CalendarMirror.MirrorStore.GetFreshMirroredEvents` | db/calendar_mirror.py:171-219 | events are served exactly when ready and fresh enough, and then exactly the overlapping ones, each once, in the order of their start times |
| `CalendarMirror.SyncMirror` | backend/app/services/google_calendar.py:239-335 | a fresh mirror is left alone unless forced; a listing that fails on any page changes no row; a complete one commits everything collected, from scratch exactly when forced, when a full sync is due, or without a stored token |
| `CalendarMirror.AListingCompletesExactlyIf` | backend/app/services/google_calendar.py:262-325 | a listing is complete if and only if one of its first hundred pages ends it after pages that all announced a next one, and a token came; it then holds every item in order and the last token |
| `CalendarMirror.AListingIsGoneExactlyIf` | backend/app/services/google_calendar.py:291-295 | a full sync is asked for if and only if a page within the budget is refused as gone, after pages that announced a next one |
| `MirrorSync.FullSyncIsTheSnapshot` | backend/app/services/google_calendar.py:256-335 | a full sync leaves exactly the mirror of the snapshot, whatever was stored, if and only if its listing drops no change; a listing without repeats drops none |
| `MirrorSync.IncrementalSyncRefinesFull` | db/calendar_mirror.py:101-168 | an incremental sync gives the same rows as a full one if and only if its batch drops no change, that is, rejects no event's last mention while there is a row for it |
| `MirrorSync.WithoutRepeatsDropsNeedARow` | backend/app/services/google_calendar.py:130-180 | when no event is listed twice, a batch drops a change if and only if it rejects an event that had a row before |
| `MirrorSync.AZeroLengthEditIsDropped` | backend/app/services/google_calendar.py:130-180 | such a rejected change exists |
| `MirrorSync.StoredTokenMeansExactMirror` | backend/app/services/google_calendar.py:256-335 | over every run without dropped changes, a stored token means the rows are the provider's snapshot at that token |
| `MirrorSync.FreshReadsAreSnapshots` | db/calendar_mirror.py:171-219 | a read served from the mirror in such a run is a read of one snapshot |
| `MirrorSync.GoneForcesAFullSync` | db/calendar_mirror.py:52-80 | in every run, the next sync that commits after a 410 was listed in full, and gives the snapshot's mirror if and only if that listing drops no change |
| `MirrorAvailability.MirrorOccupiesWhatEventsCover` | backend/app/services/google_calendar.py:130-180 | an instant lies in a row of a snapshot's mirror if and only if a live event has begun and not ended then, by instants or by what the wall clock has shown |
| `MirrorAvailability.AFullSyncOccupiesWhatItsListingCovers` | backend/app/services/google_calendar.py:239-335 | after a full sync whose listing repeats no event, an instant is occupied if and only if a live listed event covers it |
| `MirrorAvailability.TheMirrorOccupiesTheCalendar` | backend/app/services/google_calendar.py:239-335 | the same over every run without dropped changes, for the calendar at the stored token |
| `MirrorAvailability.MirrorSlotsAreTheCalendars` | backend/app/services/google_calendar.py:604-630 | slots computed from a fresh mirror, asked for the local day, are those of the calendar at the stored token, however its busy periods are cut |
| `MirrorAvailability.AMirrorSlotIsATimeWithoutEvents` | backend/app/services/google_calendar.py:604-630 | from the provider's events to the caller: an instant is offered from a fresh mirror if and only if the wall clock then first shows a 30-minute start that ends by closing, and no live event takes place in the slot |
| `LiveSession.LiveKitHook.Connect` | frontend/src/hooks/useLiveKitSession.ts:244-262 | starts a new generation exactly when no call is in flight and there is no room, and keeps the refs in agreement |
| `LiveSession.LiveKitHook.AdoptRoom` | frontend/src/hooks/useLiveKitSession.ts:278-287 | a room is adopted exactly for the current generation |
| `LiveSession.LiveKitHook.CatchAndLeave` | frontend/src/hooks/useLiveKitSession.ts:600-618 | a failing connect call abandons its own session only, and says which room to disconnect |
| `LiveSession.LiveKitHook.FailCurrentSession` | frontend/src/hooks/useLiveKitSession.ts:222-233 | only the current room can fail the session |
| `LiveSession.LiveKitHook.HandleDisconnected` | frontend/src/hooks/useLiveKitSession.ts:308-320 | only the current room's disconnection ends the session, as an error unless intended |
| `LiveSession.LiveKitHook.Disconnect` | frontend/src/hooks/useLiveKitSession.ts:630-641 | hanging up leaves no room, call or timer, moves to a later generation, and names the room to disconnect |
| `LiveSession.LiveKitHook.FinishActivation` | frontend/src/hooks/useLiveKitSession.ts:72-104 | a settled play attempt counts only for its own generation and element |
| `LiveSessionSafety.RunKeeps` | frontend/src/hooks/useLiveKitSession.ts:222-320 | the session invariant holds over every interleaving of awaits, room events, timers and user actions |
| `LiveSessionSafety.RoomIsOfTheCurrentGeneration` | frontend/src/hooks/useLiveKitSession.ts:249-287 | the room, the in-flight call and the armed timer always belong to the current generation |
| `LiveSessionSafety.StaleCodeChangesNothing` | frontend/src/hooks/useLiveKitSession.ts:253-255 | code of an older generation changes no status, room or media ref |
| `LiveSessionSafety.LiveRoomsAreCurrentOrLeaving` | frontend/src/hooks/useLiveKitSession.ts:575-593 | a live room is the current one, or a suspended connect call disconnects it when it resumes |
| `LiveSessionSafety.FailureStaysUntilTheUserActs` | frontend/src/hooks/useLiveKitSession.ts:600-641 | a failed session stays `error`, and reconnectable, until the user connects or hangs up |
| `LiveSessionStatus.TheStatusStaysTruthfulExactlyUnless` | frontend/src/hooks/useLiveKitSession.ts:72-104 | in every run a status that shows playing or waiting audio is true of the assistant's track, and a step keeps it so if and only if it does not take the track of a room that is down while audio is shown |
| `LiveSessionStatus.ALostSessionIsAnErrorExactlyUnlessEnded` | frontend/src/hooks/useLiveKitSession.ts:308-342 | in every run, a session that loses its room shows `Disconnected` if and only if its agent had said that it ended, and `Error` otherwise |
| `LiveSessionStatus.TheAgentsWordIsShown` | frontend/src/hooks/useLiveKitSession.ts:329-355 | what each message of the current session's agent does to status, room and timer |
| `LiveSessionStatus.AConnectedRoomIsWatched` | frontend/src/hooks/useLiveKitSession.ts:575-593 | once the current room is connected its timer is armed, and it waits for the agent unless audio has come |
| `LiveSessionStatus.AReconnectedRoomShowsItsAudio` | frontend/src/hooks/useLiveKitSession.ts:290-306 | a reconnected room shows its audio as waiting, playing or missing, exactly as it is |
| `LiveSessionStatus.AudioIsTriedOnlyWhenItMayPlay` | frontend/src/hooks/useLiveKitSession.ts:72-104 | every play attempt starts for the current element, with a gain node and a context, and never while the user speaks |
| `LiveSessionStatus.WaitingAudioIsTriedAgain` | frontend/src/hooks/useLiveKitSession.ts:290-306 | audio that waits for the user is tried again at a gesture, a reconnection and when the agent speaks up, if and only if it waits |
| `LiveSessionStatus.APlayAttemptIsShown` | frontend/src/hooks/useLiveKitSession.ts:72-104 | a settled play attempt shows playing or waiting audio exactly for the current generation and element, and any other changes nothing |
| `LiveSessionStatus.ATokenOpensARoomExactlyForTheCurrentSession` | frontend/src/hooks/useLiveKitSession.ts:264-287 | a token opens and adopts its room if and only if its session is still the current one |
| `LiveSessionStatus.AFailingConnectIsShown` | frontend/src/hooks/useLiveKitSession.ts:600-618 | a connect call that fails at its token, connection or microphone shows an error, reconnectable, exactly for the current session |
| `LiveSessionStatus.ASessionIsHeard` | frontend/src/hooks/useLiveKitSession.ts:244-593 | a reachable run from connecting to an assistant that is heard, with a live room and a microphone |
| `ActionBudget.BudgetTable.Consume` | db/integration_limits.py:10-76 | accepts or refuses by the row, restarts an elapsed window, answers a refusal with the wait, touches no other row |
| `ActionBudget.StoredWindowIsWithinLimit` | db/integration_limits.py:35-57 | a stored window never holds more than the limit |
| `ActionBudget.AtMostTwiceTheLimitLessOne` | db/integration_limits.py:35-57 | any half-open interval one window long holds at most 2 * limit - 1 accepted attempts |
| `ActionBudget.TheBoundIsReached` | db/integration_limits.py:35-57 | for every allowed policy some run accepts exactly that many |
| `ActionBudget.WaitingRetryAfterSucceeds` | db/integration_limits.py:61-76 | waiting the returned seconds succeeds, a second less is refused again, and the refusal changed nothing |
| `ReadCache.CalendarReadCache.Begin` | backend/app/services/calendar_read_cache.py:46-58 | hit, join or create; a hit becomes the most recent entry and an expired one is dropped |
| `ReadCache.CalendarReadCache.Store` | backend/app/services/calendar_read_cache.py:73-81 | the stored entry becomes the most recent, and the eviction loop drops the oldest down to the bound |
| `ReadCache.CalendarReadCache.InvalidateCompany` | backend/app/services/calendar_read_cache.py:90-94 | drops exactly the company's entries, in-flight loads untouched |
| `ReadCacheSafety.RunKeeps` | backend/app/services/calendar_read_cache.py:33-88 | order, bound and ownership invariants hold in every run |
| `ReadCacheSafety.AHitIsALoadersDocument` | backend/app/services/calendar_read_cache.py:46-51 | a hit hands out a document a loader of that key returned, stored less than its TTL ago, whatever callers did to documents they got |
| `ReadCacheSafety.AMissIsTheLoadersDocument` | backend/app/services/calendar_read_cache.py:60-88 | a caller that waited gets exactly what the loader it waited for returned |
| `ReadCacheSafety.EvictionTakesTheLeastRecentlyUsed` | backend/app/services/calendar_read_cache.py:79-81 | the size stays within the bound, and an entry evicted by another key's store was used before all that remain |
| `ReadCacheSafety.AHitAfterAnInvalidationWasStoredAfterIt` | backend/app/services/calendar_read_cache.py:90-99 | in every run, what is hit for a company after its invalidation, or after a clear, was stored after that |
| `ReadCacheFlights.OneLoaderPerKey` | backend/app/services/calendar_read_cache.py:54-66 | without `clear`, at most one loader per key runs |
| `ReadCacheFlights.ClearLetsASecondLoaderRun` | backend/app/services/calendar_read_cache.py:96-99 | with `clear`, two can |
| `ReadCacheFlights.AbandonedLoadIsServedLate` | backend/app/services/calendar_read_cache.py:60-66 | a load whose only caller was cancelled is served and re-cached long after |
| `ReadCacheFlights.ATaskIsInFlightExactlyWhileUnattended` | backend/app/services/calendar_read_cache.py:54-66 | without `clear`, a task is in flight if and only if each of its callers still waits or was cancelled while it was loading |
| `ReadCacheFlights.AJoinedLoadIsNewExactlyIfStillLoading` | backend/app/services/calendar_read_cache.py:54-61 | the document a caller gets from a task it joined is produced after the join if and only if the task was still loading then |
| `ReadCacheFlights.AnAskStartsASecondLoaderExactlyIf` | backend/app/services/calendar_read_cache.py:54-58 | in any state, an ask starts a second loader if and only if it misses, no load of its key is in flight and one is running |
| `ReadCacheFlights.ASecondLoaderStartsExactlyWhileAnOldOneRuns` | backend/app/services/calendar_read_cache.py:96-99 | at any time from a `clear` to the next, that is so if and only if the ask misses, nothing is in flight and a load begun before the clear still runs |
| `AgentProfiles.ProfileTable.SaveVersion` | db/agent_profiles.py:43-82 | appends version MAX + 1 and supersedes the published row exactly when publishing |
| `AgentProfiles.ProfileTable.Transition` | db/agent_profiles.py:172-208 | the error for each refused transition, and the rows after an allowed one |
| `AgentProfiles.PublishingReplacesThePublishedVersion` | db/agent_profiles.py:172-208 | after a successful publication exactly that version is found published, with its stored profile and policy |
| `ProfileCache.VersionsAreConsecutive` | db/agent_profiles.py:54-82 | in every run versions are 1..n without gaps, at most one published |
| `ProfileCache.StoredProfilesNeverChange` | db/agent_profiles.py:172-208 | no step loses a version or changes its profile or policy |
| `ProfileCache.CachedReadsAreTheRows` | backend/app/services/profile_cache.py:24-61 | every non-empty cached read has the profile and policy of its version's row |
| `ProfileCache.AReadByWhatIsThere` | backend/app/services/profile_cache.py:34-46 | a read is answered from the cache, joins the query in flight, or starts one, in this order |
| `ProfileCache.AReturningCallerSettles` | backend/app/services/profile_cache.py:48-63 | a caller that comes back gets what its query found, caches it exactly if a row was found, and takes exactly its own query out of flight |
| `ProfileCache.OneQueryPerVersion` | backend/app/services/profile_cache.py:34-54 | in every run without a clear, at most one query per version runs at a time |
| `CredentialEnvelope.RoundTrip` | backend/app/services/credential_envelope.py:51-80 | a secret decrypts to itself exactly when its key version is still current or previous |
| `CredentialEnvelope.OpensOnlyInItsContext` | backend/app/services/credential_envelope.py:63-80 | under any envelope a ciphertext opens only for the company, provider and field it was sealed for |
| `OAuthTokens.OAuthTokenTable.SaveTokens` | db/tokens.py:31-101 | the upsert keeps the stored refresh token and its envelope when no new one comes |
| `OAuthTokens.OAuthTokenTable.GetTokens` | db/tokens.py:104-163 | both fields decrypted, or nothing when one fails |
| `OAuthTokens.OnlyEffectiveSavesCount` | db/tokens.py:52-61 | saves made while no key is configured leave the stored tokens alone |
| `OAuthTokens.EachFieldKeepsItsEnvelope` | db/tokens.py:69-80 | after any saves, failed ones among them, each stored ciphertext is paired with the envelope it was sealed under |
| `OAuthTokens.ReadingGivesTheLatestTokens` | db/tokens.py:121-162 | reading gives the last access and the last non-empty refresh token that were stored, across key rotations and failed saves, exactly when both key versions are current or previous |
| `ThreeCxCalls.CallTables.ClaimCall` | db/threecx.py:41-133 | deduplicates the event, claims a new call, tells duplicates from mismatches, and never touches an existing call |
| `ThreeCxCalls.CallTables.TransitionCall` | db/threecx.py:136-158 | the compare-and-set moves only the matching claim in the expected state, along the table, and never out of a terminal state |
| `ThreeCxCalls.CallTables.RenewLease` | db/threecx.py:161-181 | only the matching, non-terminal, unexpired claim is renewed |
| `ThreeCxCalls.AtMostOneClaimPerCall` | db/threecx.py:84-133 | over any event stream a call is reported claimed at most once, with the session's token |
| `ThreeCxCalls.HistoryFollowsTheTable` | db/threecx.py:14-23 | a call's history is a path of the transition table; the end time is set exactly in a terminal state |
| `ThreeCxCalls.TransitionsHaveTheirSources` | db/threecx.py:14-23 | the transition table read by target: where each state can be entered from |
| `ThreeCxCalls.ClaimsAreForGood` | db/threecx.py:136-181 | the token never changes, a terminal call is never touched, a lapsed lease is never renewed |
| `VoiceActivity.VADProcessor.Process` | frontend/public/worklets/vad-processor.js:22-55 | one frame: the summing loop decides loud or quiet, counters and messages follow |
| `VoiceActivity.AFrameIsLoudExactlyAboveTheLevel` | frontend/public/worklets/vad-processor.js:22-35 | a frame is loud if and only if it is not empty and its energy exceeds that of as many samples of level 0.025 |
| `VoiceActivity.HangoverIsATenthOfASecond` | frontend/public/worklets/vad-processor.js:12-16 | the hangover is 100 ms of frames, to the nearest frame |
| `VoiceActivity.CountersAreRuns` | frontend/public/worklets/vad-processor.js:35-46 | the counters are the trailing loud and quiet runs |
| `VoiceActivity.SpeakingIsSpeech` | frontend/public/worklets/vad-processor.js:35-52 | speaking holds if and only if four loud frames in a row are not yet followed by more than the hangover of quiet ones |
| `VoiceActivity.MessagesAlternate` | frontend/public/worklets/vad-processor.js:39-50 | start and end messages alternate, and the last one tells the state |
| `BargeIn.ClientVAD.OnMessage` | frontend/src/hooks/useClientVAD.ts:137-172 | a start arms the timer only while the assistant speaks and mutes nothing; an end disarms the timer, and unmutes unless one was pending |
| `BargeIn.ClientVAD.OnTimer` | frontend/src/hooks/useClientVAD.ts:150-155 | the timer mutes |
| `BargeIn.MutedExactlyWhileBargedIn` | frontend/src/hooks/useClientVAD.ts:137-172 | however messages and timers interleave, the gain is 0 exactly between a confirmed barge-in and the next speech end, unless the session raises it before |
| `BargeIn.ShortBurstNeverBargesIn` | frontend/src/hooks/useClientVAD.ts:145-166 | with immediate delivery, a burst whose frames and hangover take less than 320 ms never mutes or cancels |
| `BargeIn.LongSpeechBargesIn` | frontend/src/hooks/useClientVAD.ts:145-166 | speech that starts while the assistant speaks and goes on for 320 ms has muted and cancelled exactly once by then |
| `BargeIn.TalkingOverBargesIn` | frontend/src/hooks/useClientVAD.ts:145-166 | a concrete family of such runs, at every rate: constant speech over the assistant |
| `AudioPlayback.ProcessPCM16Chunk` | live-api-web-console/src/lib/audio-streamer.ts:87-100 | the loop decodes from the start of the underlying buffer |
| `AudioPlayback.DecodesItsOwnBytesOnlyAtTheStart` | live-api-web-console/src/lib/audio-streamer.ts:87-100 | the decoded samples are the chunk's own if and only if its bytes also begin the underlying buffer |
| `AudioPlayback.SampleDecodesTwosComplement` | live-api-web-console/src/lib/audio-streamer.ts:87-100 | every signed 16-bit value comes back from its two bytes, scaled by 2^15 |
| `AudioPlayback.AudioStreamer.AddPCM16` | live-api-web-console/src/lib/audio-streamer.ts:102-125 | queues the samples in pieces of at most 7680 and starts playing if idle |
| `AudioPlayback.SplitIsExact` | live-api-web-console/src/lib/audio-streamer.ts:102-125 | the pieces are the samples in order, all but the last 7680 long |
| `AudioPlayback.AudioStreamer.ScheduleNextBuffer` | live-api-web-console/src/lib/audio-streamer.ts:137-213 | drains the queue up to 200 ms ahead, then leaves a timeout, the interval, or stops |
| `AudioPlayback.SchedulingIsGapless` | live-api-web-console/src/lib/audio-streamer.ts:137-213 | what is started is the front of the queue, each buffer when the one before it ends, all less than 200 ms ahead; scheduling stops only when nothing is queued or that is reached, and leaves the right wake-up |
| `AudioPlaybackSafety.SamplesAreConserved` | live-api-web-console/src/lib/audio-streamer.ts:102-213 | between stops, the buffers started, then those queued, are exactly the samples added, in order |
| `AudioPlaybackSafety.IntervalsAreOrderedAndDisjoint` | live-api-web-console/src/lib/audio-streamer.ts:183-186 | within one playing stretch no buffer starts before it was scheduled, and the play intervals are ordered and disjoint |
| `AudioPlaybackSafety.QueuedAudioHasAWakeUp` | live-api-web-console/src/lib/audio-streamer.ts:189-212 | a non-empty queue is playing and has a pending wake-up |
| `AudioPlaybackSafety.ResumeWhilePlayingOverlaps` | live-api-web-console/src/lib/audio-streamer.ts:238-245 | across a resume two play intervals can overlap |
| `AudioPlaybackSafety.AResumeContinuesExactlyIfPlayedOut` | live-api-web-console/src/lib/audio-streamer.ts:238-245 | after a resume the stretch stays in order if and only if every buffer of it ends within 100 ms |
| `AudioPlaybackSafety.APlayedOutStretchGoesOn` | live-api-web-console/src/lib/audio-streamer.ts:238-245 | then it stays ordered and disjoint over every run that follows |
| `AudioPlaybackSafety.TheNextBufferOverlapsExactlyIfOneStillPlays` | live-api-web-console/src/lib/audio-streamer.ts:183-186 | in any state, the first buffer scheduled after a resume, at once or later, overlaps one of the stretch if and only if that one still plays then |
| `AudioPlaybackSafety.ARestartContinuesExactlyIfPlayedOut` | live-api-web-console/src/lib/audio-streamer.ts:118-124 | in every run, a chunk that starts playing again after a completion overlaps a buffer of the old stretch unless, and keeps one order with it if and only if, every buffer of it ends within 100 ms |
| `AudioPlaybackSafety.RestartAfterCompletionOverlaps` | live-api-web-console/src/lib/audio-streamer.ts:189-196 | a reachable run in which they overlap |

## Left out

- HTTP, database drivers, LiveKit, Gemini, OAuth redirects, logging, latency tracing and UI rendering: only the outcomes of calls are modelled.
- Row-level security and the other SQL migrations: tenancy is a part of each key.
- Session authentication, tool grants and payload validation ahead of `execute_tool`: one-branch checks.
- Turn classification, text cleaning and the other agent tools.
- The remaining policy fields of `compile_company_policy`: capabilities, FAQ and escalation limits are one-branch checks.
- BookingQueue.BookingTable.ClaimOne: does not model the row locks of the SQL statement; a claim is one atomic choice, so concurrent claims do not contend.
- BookingSafety.AtMostOneEventPerKey: says nothing about overlaps between different requests, because the free check and the insert are separate steps.
- BookingSafety.ConfirmedMeansProviderConfirmed: the owner may delete the event afterwards, so the event was live when it was seen, not for ever.
- BookingLeases.OneLiveOwner: needs the lease assumption, because the result write has no guard; the runs of BookingScenarios show it.
- BookingRefinement.WorkerWritesThePassResult: does not cover result writes that raise; those are steps of BookingProtocol.
- BookingLeases.CancelStopsTheQueue: a provider write sent before the cancel may still take effect.
- BookingLeases.BackoffIsBounded: bounds the scheduled delays, not the time workers take to come back.
- ToolExactlyOnce.OneRunningToolPerKey: needs a timely run, as the runs of ToolScenarios show; a tool that outlives its lock no longer counts as running under it, because the lock is not renewed.
- IdempotencyLedger.ExecuteTool: one undisturbed execution on an answering database; interleavings and failures are in ToolExecution.
- FreeSlots.ComputeFreeSlots: one zone transition per local day, whole seconds; formatting of the slot times is left out.
- FreeSlots.DayRangeIsEnough: a day may start inside a gap only where the gap starts, and a closing time in the gap must stay before an existing next midnight; otherwise the queried range can miss busy instants.
- BusinessHours.CompiledHoursReadBack: the other spellings that `time.fromisoformat` accepts are a parameter, with sub-second times left out.
- CalendarMirror.SyncMirror: one company and one process; the active-company registry and its reconciliation loop are left out.
- MirrorSync.StoredTokenMeansExactMirror: assumes that the provider's listings are complete for the token they return and that the company keeps its time zone between syncs.
- MirrorSync.FreshReadsAreSnapshots: the snapshot may be older than the last write of another process; freshness is by the clock only.
- LiveSessionSafety.StaleCodeChangesNothing: transcripts, tasks and gain values are left out; the refs are those that decide status, room and media.
- ReadCacheSafety.AHitIsALoadersDocument: the age is counted from the store; an in-flight load is not affected by an invalidation.
- ReadCache.CalendarReadCache.Begin: a call with a TTL of zero or less bypasses the cache and is not an action of the model.
- ProfileCache.CachedReadsAreTheRows: eviction may take any entry, and the lifecycle state of a cached row can be old; copy isolation is the one proved for the read cache.
- ProfileCache.VersionsAreConsecutive: timestamps, author and policy version of a row are left out.
- OAuthTokens.OAuthTokenTable.SaveTokens: subject and e-mail follow the same rule as the scope, and malformed stored envelopes are left out.
- ThreeCxCalls.CallTables.ClaimCall: arguments are already stripped; the room name and dispatch id are left out.
- VoiceActivity.VADProcessor.Process: samples are reals, so rounding of the root mean square is not modelled.
- BargeIn.MutedExactlyWhileBargedIn: the gain writes of the session hook only raise it; replacing the microphone stream while muted restarts the detector and is left out.
- AudioPlayback.AudioStreamer.AddPCM16: end-of-queue callbacks, worklets and the gain ramp are left out; the clock stands still while code runs.
