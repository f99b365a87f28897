# S2 SDK for Go: verified protocols

A Dafny model of the client-side protocols of the S2 SDK for Go, with proofs of what they promise over
every run. `dafny verify dfyconfig.toml` checks the project.

| part | files |
|---|---|
| append session: queue, transports, acks, claims, retries, capacity | `AppendModel`, `AppendInvariant`, `AppendSteps`, `AppendTheorems`, `AppendDecisions`, `AppendReports`, `AppendServer`, `AppendSession`, `Capacity` |
| batcher and producer: batches, permits, flush barriers | `Batching`, `BatchDecisions`, `Batcher`, `Tickets`, `Producing`, `ProducerSteps`, `ProducerTheorems`, `ProducerDecisions`, `Producer` |
| read session: reconnecting reader, consumer, caught-up futures | `ReadLoop`, `ReadSession`, `ReadPipeline`, `ReadCaughtUp`, `ReadDecisions`, `ReadSessionObjects` |
| S2S framing: parser, reader, encoder | `Framing`, `FrameReader` |
| Bento input: out-of-order acks, cached position | `AckTracking`, `BentoInput`, `BentoResume`, `BentoObjects` |
| connection pool, error classes, backoff, advice | `ConnPool`, `Errors`, `Retry`, `Reconnect`, `Records` |

Each protocol is a state machine whose actions are the regions the code runs under one lock or as one
atomic operation; an action that does not apply leaves the state alone. The environment (server, network,
clock, scheduler, random draws, the winning case of a select) chooses the actions and their arguments, so a
statement about every action sequence is a statement about every run. Objects that the code updates in place
are classes, and every method's postcondition equates the new abstract state with a function of the old one.
Fields marked as history exist only to state properties.

Assumptions that a property needs are predicates in its statement: `AppendServer.LegalRun`,
`ReadLoop.LegalRun` and `ReadPipeline.LegalRun` describe a conforming server, `ReadSessions.InSequenceRun`
frames whose sequence numbers only go up, `Reconnect.ClockAdvances` a clock.

In the Bento input an epoch lasts from one tail reset to the next. Its first start is the tail of the reset,
the position stored before the run, or else the start of the first session.

Where code and documentation disagree the code is followed:

- the comment on the base delay (s2/retry.go:150) promises min(Min 2^(n-1), Max); the 64-bit shift can wrap
  into the range its overflow check accepts. `Backoff.BackoffCanWrap` gives such delays,
  `Backoff.BackoffSaturatesIff` says exactly when the promise holds and `Backoff.BackoffSaturates` gives a
  simple bound that suffices;
- the noSideEffects policy retries only what cannot have taken effect (s2/append_session.go:784-798), but a
  failure can be judged between the marking of an entry and its write, which then still goes out.
  `AppendTheorems.LateWriteRepeats` shows a batch written twice that way, and
  `AppendTheorems.WritesOnlyAfterCleanFailures` says exactly when the policy keeps its word;
- `HasNoSideEffects` speaks for every attempt (s2/error.go:158-159), but the submit loop never looks at its
  session again (s2/append_session.go:466-492): a failure can be judged, and the entries then sent put in
  doubt, before the loop writes the next entry on the same transport. `AppendReports.LateWriteMisreported`
  shows such an entry reported as free of side effects, and `AppendReports.CleanReportRightIff` says exactly
  when such a report is right;
- the Bento input resumes after what was acknowledged (s2-bentobox/stream_input.go:280-286), but with the
  latest record as the default start a session that finds no position, after a failed lookup too, starts at
  the tail. `BentoInput.TailDefaultSkips` shows records passed over for good, and
  `BentoInput.SessionsStartAckedIff` says exactly when none is;
- ResetToTail may move the position backward "unlike Set" (s2-bentobox/input.go:138-139), but Set stores
  whatever an ack of the current generation reaches: the late ack of a replaced session moves the position
  back. `BentoResume.LateAckGoesBack` shows it, `BentoResume.AckGoesBackIff` says exactly when an ack does
  that, and `BentoResume.OrderlyPositionsAdvance` gives runs in which none does;
- the framing encoder writes a 24-bit length without a limit, so a larger frame does not parse back;
  `Framing.EncodeParsesIff` gives the exact limit.

## Model

| member | source | states |
|---|---|---|
| `AppendTheorems.CleanReportIff` | s2/append_session.go:761-892 | over every run, a failed entry's reported error has no side effects if and only if the final error has none and neither had any retried transport failure that found the entry listing its transport when it was judged |
| `AppendReports.CleanReportRightIff` | s2/error.go:158-167 | over every run, with or without the policy: when an entry is reported free of side effects, every transport it was ever written on failed cleanly if and only if none of those writes was late, that is, signalled on a transport already retired, by an unclean failure that has been judged or on advice |
| `AppendReports.LateWriteMisreported` | s2/append_session.go:466-492 | such a run: the failure is judged while a pass goes on, the pass marks and writes the next entry on the same transport, and when reopening fails for good that entry is reported free of side effects although its transport did not fail cleanly |
| `AppendReports.StepBacked` | s2/append_session.go:761-907 | every step keeps: an entry reported free of side effects was written only where the failure was clean, or late, and nothing is left to judge or to send |
| `AppendTheorems.WritesOnlyAfterCleanFailures` | s2/append_session.go:453-493 | under the noSideEffects policy no entry is written twice on a transport, and when one is written every other transport it was written on failed without side effects if and only if none of those writes was late, that is, signalled on a transport already retired, by an unclean failure that has been judged or on advice |
| `AppendTheorems.LateWriteRepeats` | s2/append_session.go:477-491 | such a run: the failure is judged between marking an entry and writing it, so that the entry goes out twice although the first transport did not fail cleanly |
| `AppendTheorems.PendingWritesCover` | s2/append.go:311-329 | a transport's pending-write counter is at least the number of unresolved entries written on it |
| `AppendTheorems.WriteShape` | s2/append_session.go:477-491 | a step appends at most one entry to one transport's writes: the one marked for it just before |
| `AppendTheorems.ResolvedOnceInOrder` | s2/append_session.go:577-636 | resolutions are the accepted entries in enqueue order, each once; the others are queued in that order |
| `AppendTheorems.AcksCoverAndIncrease` | s2/append_session.go:638-669 | every ack covers exactly its entry's records and acked ends strictly increase over the whole run |
| `AppendServer.AcksMatchWrites` | s2/append_session.go:495-636 | if the server acks in order with increasing ends and no retired transport acks, the k-th ack on a transport resolves the k-th entry written on it and ack validation never fails the session |
| `AppendServer.TracksRun` | s2/append_session.go:495-569 | along such a run the current transport's acks and the entries it still owes line up |
| `AppendTheorems.TransportsInUse` | s2/append_session.go:1066-1133 | entries sent on a transport are a prefix of the queue, each lists it once, the reference count is their number, and an unreferenced transport that is not current is closed |
| `AppendTheorems.RetiredAtMostOnce` | s2/append_session.go:672-756 | error, timeout and advice retire a transport at most once, and it is never current again |
| `AppendTheorems.ClaimHoldsOffOpening` | s2/append_session.go:408-451 | while a failure is claimed no transport opens and no other failure is claimed |
| `AppendTheorems.NoOpeningDuringClaim` | s2/append_session.go:726-832 | the same over any number of steps until the claim is resolved |
| `AppendTheorems.BudgetedFailures` | s2/append_session.go:810-831 | the attempt counter stays below the budget, and a stretch without an ack charges at most MaxAttempts failures before every entry has failed |
| `AppendDecisions.ResolveDecides` | s2/append_session.go:761-832 | in every reachable state a claimed failure is retried if and only if it is a drain notice, or the policy's two conditions hold, its service error, if any, is retryable, and the attempts charged since the last ack are below MaxAttempts - 1; a retry keeps the entries, stops their clocks and notes doubt exactly where the transport is listed; otherwise every entry fails in order with the error, or with the exhausted budget when that alone is the reason |
| `AppendDecisions.FinalFailuresEndTheSession` | s2/append_session.go:800-808 | a failure that the service calls final fails every entry at once and closes the session |
| `AppendDecisions.OpenDecides` | s2/append_session.go:330-406 | a transport that opens is fresh and in use; a failed start is charged exactly while retryable with attempts left, and otherwise fails every entry |
| `AppendDecisions.AckDecides` | s2/append_session.go:577-636 | an ack is ignored, resolves the head and gives the whole budget back, or fails every entry, by the head's list and record count and the last acked end alone |
| `AppendDecisions.AttemptIsCharged` | s2/append_session.go:810-831 | over every run of an open session the attempt counter is the number of charged failures since the last accepted ack, counted along the run, and below MaxAttempts |
| `AppendDecisions.CleanEndDecides` | s2/append_session.go:672-709 | after accepted advice a clean end moves on free of charge exactly when nothing is unacked, and is a failure otherwise |
| `AppendDecisions.TimeOutDecides` | s2/append_session.go:931-990 | an expired head claims the transport in use with the SDK's 408 error, and nothing else happens |
| `AppendDecisions.WriteDecides` | s2/append_session.go:477-491 | a good write is logged and the pass goes on; a failed one ends the pass and claims its transport, logged only if it may have gone out |
| `AppendDecisions.ReserveDecides` | s2/capacity.go:81-112 | a reservation is granted exactly when it fits beside the queued entries and the other reservations and the session is open |
| `AppendDecisions.MarkDecides` | s2/append_session.go:466-486 | marking takes the first of the pass's entries not listing the transport, and nothing only when there is none |
| `AppendDecisions.StopDecides` | s2/append_session.go:146-195 | a cancelled pump, and the end of Close, leave every entry failed and every transport closed |
| `AppendTheorems.CapacityMatches` | s2/capacity.go:107-149 | tracked bytes and batches are exactly the queued entries plus open reservations and stay within the limits |
| `AppendTheorems.ClosedQueueStaysEmpty` | s2/append_session.go:146-227 | once closing is set and the queue seen empty, no later step fills it |
| `AppendTheorems.CloseFindsNothing` | s2/append_session.go:146-195 | the final sweep of Close resolves nothing a second time |
| `AppendSteps.StepInv` | s2/append_session.go:122-990 | every step, whatever the environment answers, keeps the whole invariant of queue, transports, claims, budget and capacity |
| `AppendSteps.RunInv` | s2/append_session.go:230-256 | every reachable session state satisfies the invariant |
| `AppendSessions.AppendSession.ReserveCapacity` | s2/append_session.go:122-142 | the tracker decides, and the reservation is recorded exactly when it grants it |
| `AppendSessions.AppendSession.EnqueueReserved` | s2/append_session.go:207-227 | the reservation becomes the queue's last entry, or is given back when the session is closing |
| `AppendSessions.AppendSession.OpenTransport` | s2/append_session.go:330-451 | opening is refused with a claim pending or a pass under way; a failed start is charged or fatal |
| `AppendSessions.AppendSession.HandleSessionStartError` | s2/append_session.go:382-406 | a failed start is charged to the budget and fails all entries when it is used up |
| `AppendSessions.AppendSession.NextToSend` | s2/append_session.go:453-493 | the loop finds the first entry not yet sent on the current transport |
| `AppendSessions.AppendSession.BeginSubmitPass` | s2/append_session.go:453-464 | a pass keeps to the transport in use and the entries queued when it begins, and holds inputs back under advice |
| `AppendSessions.AppendSession.MarkNext` | s2/append_session.go:471-486 | the locked part of a turn marks the first entry of the pass not sent there and counts the reference; without one, every entry of the pass lists the transport |
| `AppendSessions.AppendSession.FinishTurn` | s2/append_session.go:488-491 | the unlocked part signals the write, and a failure ends the pass and fails the transport |
| `AppendSessions.AppendSession.SubmitInflightBatches` | s2/append_session.go:453-493 | the loop marks and writes entry by entry; it completes only when every entry queued at its start and not yet resolved lists the transport, and otherwise a write failed or has not returned |
| `AppendSessions.AppendSession.HandleAckOn` | s2/append_session.go:577-636 | an ack of a transport resolves the head, is ignored as stale, or fails everything, as the state machine prescribes |
| `AppendSessions.AppendSession.ClassifyAck` | s2/append_session.go:638-669 | accepts an ack exactly when it covers the head entry's records and ends beyond the last one |
| `AppendSessions.AppendSession.ReleaseEntry` | s2/append_session.go:1066-1106 | gives back one reference per transport of the entry and closes those left unreferenced and not current |
| `AppendSessions.AppendSession.FailAllInflight` | s2/append_session.go:858-907 | resolves every queued entry with the error, weighed by its own uncertainty, releases its capacity once and closes all transports |
| `AppendSessions.AppendSession.HandleSessionError` | s2/append_session.go:726-756 | only the current transport's failure is claimed, and it stops being current in the same step |
| `AppendSessions.AppendSession.HandleReconnectAdvice` | s2/append_session.go:672-709 | a cleanly ended, advised transport is retired without using the budget |
| `AppendSessions.AppendSession.CheckTimeouts` | s2/append_session.go:931-990 | an expired head claims the current transport with a timeout error |
| `AppendSessions.AppendSession.MarkInflightUncertainty` | s2/append_session.go:837-848 | the loop marks exactly the entries that list the failed transport |
| `AppendSessions.AppendSession.ResetInflightAttemptStarts` | s2/append_session.go:850-856 | the loop clears every queued entry's attempt start |
| `AppendSessions.AppendSession.HasNonIdempotentSentPipelined` | s2/append_session.go:1034-1049 | finds whether an entry without a match condition was sent behind another |
| `AppendSessions.AppendSession.HandleClaimedSessionError` | s2/append_session.go:761-832 | the claim is resolved into retry or failure of everything, with the first matching rule deciding; what those rules decide is AppendDecisions.ResolveDecides |
| `AppendSessions.AppendSession.FinishClose` | s2/append_session.go:146-195 | closing releases the transports and leaves nothing queued |
| `Errors.PriorUncertaintyDecides` | s2/error.go:137-177 | the wrapped error claims no side effects if and only if the final error does and no earlier attempt was in doubt; the service error inside stays reachable |
| `Errors.RetryableWithoutSideEffects` | s2/error.go:44-131 | the retryable codes without side effects are exactly four, and only when the server sent them |
| `Errors.DrainIsClean` | s2/reconnect.go:40-45 | a draining answer is retryable and free of side effects |
| `Errors.RetryableCodes` | s2/error.go:44-118 | the server's retryable codes, those that may have taken effect, and the statuses that count for all other errors |
| `Backoff.BackoffSaturates` | s2/retry.go:136-162 | with Min times Max below 2^63 the wrapping shift and its overflow check give min(Min times 2^(n-1), Max) for every attempt n |
| `Backoff.BackoffSaturatesIff` | s2/retry.go:136-162 | for all delays the result is that minimum if and only if the shift does not overflow into the range the check lets through |
| `Backoff.BackoffCanWrap` | s2/retry.go:136-162 | a concrete pair of delays for which the comment's formula fails |
| `Backoff.BaseDelay` | s2/retry.go:151-155 | positive and at most Max, so that the jitter argument is always positive |
| `Retry.WithRetries` | s2/retry.go:41-122 | attempts within the budget, repeats only retryable failures, returns the last one, waits once after each attempt it repeats, and in total less than 2 Max (MaxAttempts - 1) |
| `Retry.WithAppendRetries` | s2/retry.go:191-265 | a reported failure claims no side effects if and only if every attempt made was free of them; repeats only what the policy allows, waiting once before each repeat |
| `Retry.PolicyRepeatsOnlyCleanFailures` | s2/retry.go:191-265 | under the noSideEffects policy only four server answers are ever repeated |
| `Retry.DelayBounded` | s2/retry.go:136-162 | one wait, jitter and wrap included, stays below 2 Max |
| `Retry.DelayJitters` | s2/retry.go:136-162 | away from the 64-bit limit a wait lies between the base delay and twice that |
| `Capacity.ReserveHolds` | s2/capacity.go:81-112 | a granted reservation is added to those held and stays within the limits |
| `Capacity.ReleaseHeld` | s2/capacity.go:114-127 | releasing a held reservation never meets the clamp at zero |
| `Capacity.ReleaseAllHeld` | s2/capacity.go:114-127 | releasing held reservations one by one leaves exactly the others |
| `Capacity.GrantedIff` | s2/capacity.go:81-112 | a reservation is granted if and only if the tracker is open, the caller has not given up and it fits beside what is held; it is then held too |
| `Capacity.CapacityTracker.TryToReserve` | s2/capacity.go:81-105 | the outcome and counters of tryReserve, with its order of checks |
| `Capacity.CapacityTracker.GiveBack` | s2/capacity.go:114-127 | the counters after a release, clamped at zero |
| `Batching.PartitionsAccepted` | s2/batcher.go:130-219 | emitted and dropped batches and the buffer cut the accepted records up in order, each batch with the tickets of its own records |
| `Batching.EmitsValidBatches` | s2/batcher.go:171-219 | every emitted batch is within the limits, passes the append checks if and only if the fencing token is short enough, and is conditional on the initial number plus the records emitted before it, modulo 2^64 |
| `Batching.StaleTimersDoNothing` | s2/batcher.go:246-257 | a timer flushes nothing but the buffer it was set for |
| `Batching.NothingIsLeftBehind` | s2/batcher.go:130-169 | with a positive linger no record waits without a timer, and no full buffer waits |
| `BatchDecisions.TimerFlushes` | s2/batcher.go:246-257 | in every reachable state the timer that is set leaves an empty buffer and no timer: the waiting records go out as one batch, or are recorded as dropped and the context ends |
| `BatchDecisions.DemandFlushes` | s2/batcher.go:171-291 | so do Flush, a demand for room while open, and closing |
| `BatchDecisions.BarrierDecides` | s2/batcher.go:221-244 | a barrier goes out right behind what was waiting exactly when the batcher is open, nothing is dropped and the context has not ended |
| `BatchDecisions.AddDecides` | s2/batcher.go:130-169 | accepted exactly when open and within the byte limit; what waits leaves first exactly when the record does not fit in, its batch leaves at once exactly when that fills it, and otherwise waits with a timer |
| `Batching.NothingAfterClose` | s2/batcher.go:266-291 | once closed, no step accepts, flushes or sends anything |
| `Batching.BarrierFollowsItsRecords` | s2/batcher.go:224-244 | every record accepted before a barrier went out in a batch ahead of it |
| `Batching.StepInv` | s2/batcher.go:130-291 | every critical section keeps the batcher's invariant |
| `Batching.ApplyDefaults` | s2/batcher.go:78-99 | limits end up within the service's, and legal ones are kept |
| `Batchers.Batcher.AddWithPermit` | s2/batcher.go:130-169 | one addition with its flushes before and after, the tickets of dropped batches failed, and its two errors |
| `Batchers.Batcher.FlushLocked` | s2/batcher.go:171-219 | the buffer goes out whole, or is dropped when cancellation wins, its permits returned and its tickets failed |
| `Batchers.Batcher.FlushBarrier` | s2/batcher.go:224-244 | succeeds exactly when the barrier was sent with nothing cancelled |
| `Batchers.Batcher.FlushFromTimer` | s2/batcher.go:246-257 | acts only for the timer that is set, as the state machine's timer does; that such a timer flushes is BatchDecisions.TimerFlushes |
| `Batchers.Batcher.CloseBatcher` | s2/batcher.go:272-291 | seals, flushes, then ends the context and the channel, once |
| `Batchers.Batcher.ShutdownCause` | s2/batcher.go:63-76 | told that the batcher closed, a caller knows that no accepted record was dropped; told of cancellation, that a batch was dropped or the context ended before anyone closed it |
| `ProducerTheorems.BarrierReportsExactly` | s2/producer.go:243-308 | over every run, a barrier reports nil if and only if every record accepted before it was acknowledged, and a reported error is the first terminal error |
| `ProducerTheorems.ErrorsStick` | s2/producer.go:421-473 | terminal and append errors never change once set, and reports are not taken back |
| `ProducerTheorems.TerminalErrorShutsDown` | s2/producer.go:148-182 | after a terminal error no Submit starts, gets room or passes its second check |
| `ProducerTheorems.ResolvedAtMostOnce` | s2/producer.go:401-432 | a ticket is resolved at most once, exactly when its permit is taken, and an ack names the record's own place in its batch |
| `ProducerDecisions.AckResolves` | s2/producer.go:401-410 | in every reachable state an ack with start n gives the record at place k of its batch the outcome Acked(n, k), and no other ticket anything; its number is then n + k (s2/producer.go:566-568) |
| `ProducerDecisions.OutcomesOfABatch` | s2/producer.go:343-432 | over every run all tickets of a batch are resolved alike: acked with the one start that an ack of the run gave for this very batch and their own places, failed with the terminal error, or with the cancellation that dropped the batch |
| `ProducerDecisions.FailedAckResolves` | s2/producer.go:343-356 | a failed ack settles on the first terminal error, which is what its tickets then receive |
| `ProducerDecisions.TakeDecides` | s2/producer.go:295-320 | the next item of the channel is held as a barrier, submitted, or failed at once with the terminal error |
| `ProducerDecisions.SubmittedDecides` | s2/producer.go:322-344 | a batch the session takes flies; a refused one waits for earlier acks and fails with the first terminal error |
| `ProducerDecisions.SubmitDecides` | s2/producer.go:148-182 | Submit takes a record up exactly when the producer runs and the record fits a batch and the limit, with room exactly when it fits beside the permits held |
| `ProducerDecisions.WaitingDecides` | s2/producer.go:174-211 | a waiting Submit goes on exactly when there is room, ends exactly when it can get none, and gives room back exactly when the producer stopped meanwhile |
| `ProducerTheorems.CapacityInUse` | s2/producer.go:46-97 | capacity in use is the permits not yet taken plus a running Submit's reservation, within the limit |
| `ProducerTheorems.WaitingIsNotOnItself` | s2/producer.go:148-182 | while Submit waits for room every held permit belongs to an emitted batch that is not done |
| `ProducerTheorems.DrainResolvesAll` | s2/producer.go:295-496 | when the consumer has exited, which Close waits for, the channel is closed and drained, no ack is awaited, and every accepted record was resolved exactly once |
| `ProducerTheorems.BatcherStepsOnly` | s2/producer.go:148-293 | every step of the producer is a step of its batcher or leaves it alone |
| `ProducerTheorems.BatcherReachable` | s2/producer.go:148-293 | the batcher inside a producer is always in a state a batcher can reach, so that everything proved of batchers holds of it |
| `ProducerSteps.StepInv` | s2/producer.go:148-473 | every step of Submit, Flush, consumer and ack goroutines keeps the producer's invariant |
| `Producers.ReleaseProducerPermits` | s2/producer.go:70-97 | one release per run of records with the same tracker equals releasing permits one by one |
| `Producers.Producer.RecordTerminalError` | s2/producer.go:446-473 | the first error stands, and closes capacity and contexts |
| `Producers.Producer.DispatchBatchError` | s2/producer.go:421-432 | records the append error, gives the permits back, then fails every ticket |
| `Producers.Producer.SubmitRecord` | s2/producer.go:148-227 | accepts exactly the record it reports as submitted, leaves nothing reserved when it refuses, and keeps waiting for room without one; a terminal error refuses at once |
| `Producers.Producer.ResumeSubmit` | s2/producer.go:174-211 | a waiting Submit reserves, gives up, or keeps waiting |
| `Producers.Producer.OrderFlush` | s2/producer.go:243-282 | the barrier is ordered behind everything accepted, or the standing terminal error is returned |
| `Producers.Producer.BeginClose` | s2/producer.go:488-494 | refuses further submits, closes the batcher, and records what it dropped |
| `Producers.Producer.ConsumeBatches` | s2/producer.go:295-356 | the loop works through the channel until it waits for an item, an answer or acks, or exits with nothing left |
| `Producers.Producer.AckArrived` | s2/producer.go:343-355 | an ack resolves its batch as the state machine's step does; the outcomes it gives are ProducerDecisions.AckResolves |
| `Producers.Producer.AckFailed` | s2/producer.go:343-352 | the first terminal error stands, and the batch is to fail with it |
| `Tickets.TicketBook.ResolveBatch` | s2/producer.go:401-432 | permits go back in one release, then every ticket of the batch is resolved |
| `Tickets.AddSplits` | s2/batcher.go:130-219 | adding a record through the batcher and its tickets is adding it in the producer's state machine |
| `Producers.Producer.ReceiveItem` | s2/producer.go:295-320 | a barrier is held, a batch is submitted, or failed at once after a terminal error |
| `Producers.Producer.SubmissionReturned` | s2/producer.go:328-344 | an accepted batch waits for its ack, a refused one for the acks before it |
| `Producers.Producer.AnswerBarrier` | s2/producer.go:302-305 | the barrier gets the append error once no ack is outstanding |
| `ReadLoop.ReadsConsecutively` | s2/read.go:215-439 | from an absolute start and a conforming server, any failures, drains and advised reconnects read consecutive records without loss or repeat, within Count and Bytes, and within the retry budget |
| `ReadLoop.GivesUpOnBudget` | s2/read.go:215-316 | in every run from any start and with any server, fewer than MaxAttempts failures are charged since the last record while the reader goes on, and it gives up on an error exactly when that is no drain notice and either not retryable or the MaxAttempts-th such failure |
| `ReadLoop.EndsWithoutErrorIff` | s2/read.go:215-339 | in every run an attempt ends the session without an error if and only if the server ended it, the context was cancelled, or it ended in advice, a drain or a forgiven failure with a limit used up; without one the next attempt resumes behind the last record |
| `ReadLoop.ResumesAfterLastRecord` | s2/read.go:369-439 | the next attempt starts after the last record and asks for exactly what is left of the limits, which is positive |
| `ReadLoop.StreamReader.ReachedLimits` | s2/read.go:694-705 | true exactly when the records or bytes read use up a limit |
| `ReadLoop.StreamReader.BuildAttemptOptions` | s2/read.go:369-439 | the options of the next attempt |
| `ReadLoop.StreamReader.HandleBatch` | s2/read.go:618-667 | the loop meters the whole batch and advances count, bytes and position |
| `ReadLoop.StreamReader.AttemptOver` | s2/read.go:252-339 | progress forgives failures; advice and draining are free; other failures are charged, and end the session when not retryable or used up; how attempts end and go on is ReadLoop.EndsWithoutErrorIff |
| `ReadPipeline.ReturnsTheStream` | s2/read.go:215-684 | for an absolute start and a conforming server, across all reconnects and interleavings, what Next returned is a prefix of the stream from the start on without ignored records, within Count and Bytes, and all of it when the session ends with nothing lost to cancellation |
| `ReadPipeline.PositionSplitsTheStream` | s2/read_session.go:281-291 | and exactly the records not returned lie ahead of NextReadPosition |
| `ReadPipeline.EndsForAReason` | s2/read_session.go:139-165 | whatever the server does, Next ends without an error only after a cancellation, an end by the server or a used up limit, and with one only if the reader gave up with it |
| `ReadPipeline.ReturnsTheWholeLimit` | s2/read.go:215-339 | with a conforming server that does not end the session and no cancellation, Next ends without an error only having returned the stream up to exactly Count records or Bytes bytes |
| `ReadSessions.DeliversInOrder` | s2/read_session.go:122-204 | in every interleaving the records sent are those returned, held and buffered, in order, and those fetched are those sent plus one delivery lost to cancellation |
| `ReadSessions.EndsAfterAllRecords` | s2/read_session.go:139-165 | Next ends only after returning everything sent, with the reader's own error |
| `ReadSessions.PositionSplits` | s2/read_session.go:281-291 | when sequence numbers only go up, a fetched record that is not ignored lies ahead of NextReadPosition if and only if Next has not returned it |
| `ReadSessions.CaughtUpMeansDrained` | s2/read_session.go:23-89 | a future settles at most once and by the end exactly once; being caught up means nothing is held, buffered or about to be sent |
| `ReadCaughtUp.CaughtUpIff` | s2/read.go:602-692 | over every run, while the reader runs a session is caught up only if the latest batch reached the tail it reported; once what was read is consumed, exactly then, at that tail and having read right up to it |
| `ReadDecisions.TakenTailSettles` | s2/read_session.go:191-204 | taking the last record of a delivery that reaches the tail settles every pending future with that tail |
| `ReadDecisions.StopSettles` | s2/read_session.go:53-70 | the reader's end settles every pending future with its error or closed; a clean end keeps the tail, an error forgets it |
| `ReadDecisions.EndDecides` | s2/read_session.go:139-165 | Next ends exactly when the channel is closed and drained, with the reader's reason |
| `ReadSessions.StepInv` | s2/read.go:602-684 | every step of reader and consumer keeps the session's invariant |
| `ReadSessionObjects.CaughtUpState.SetCaughtUpTo` | s2/read_session.go:29-41 | the loop gives every pending future the tail, unless the session is over |
| `ReadSessionObjects.CaughtUpState.FallBehind` | s2/read_session.go:43-50 | forgets the tail, unless the session is over |
| `ReadSessionObjects.CaughtUpState.EndWith` | s2/read_session.go:53-70 | settles pending futures with the error; a clean end keeps an observed tail |
| `ReadSessionObjects.CaughtUpState.NewFuture` | s2/read_session.go:72-89 | a future is settled at once when the answer is known, otherwise pending |
| `ReadSessionObjects.ReadSession.Next` | s2/read_session.go:122-165 | the loop takes consumer steps until it returns one record, ends, or would block |
| `ReadSessionObjects.ReadSession.YieldPending` | s2/read_session.go:177-189 | returns the first held record and moves the position past it |
| `ReadSessionObjects.ReadSession.StashDelivery` | s2/read_session.go:167-175 | holds a delivery, finishing one without records at once |
| `ReadSessionObjects.ReadSession.FinishDelivery` | s2/read_session.go:191-204 | moves the position to the delivery's end and reports being caught up |
| `Framing.EncodeParsesIff` | internal/framing/framing.go:317-359 | an encoded frame, whatever follows it, parses back to flag, status, compression and body if and only if it is within the 2 MiB limit |
| `Framing.CreateFrameRoundTrip` | internal/framing/framing.go:317-359 | the same through the choice of compression and its fallback |
| `Framing.CompressesIff` | internal/framing/framing.go:317-334 | the compression asked for is used exactly from 1 KiB on and when it succeeds |
| `Framing.AdviceParses` | internal/framing/framing.go:168-223 | a server's regular frame parses back with its advice bit, a terminal one never advises, whatever the low bits are |
| `Framing.StreamRoundTrip` | internal/framing/framing.go:138-223 | any sequence of frames within the limit parses back whole, ending on a frame boundary |
| `Framing.ParseIgnoresRest` | internal/framing/framing.go:138-223 | a parse that is decided does not depend on later bytes |
| `Framing.BuildFrame` | internal/framing/framing.go:317-359 | the filled array is the encoded frame |
| `Framing.MarshalUncompressed` | internal/framing/framing.go:287-311 | the uncompressed path equals CreateFrame |
| `FrameReaders.ChunkingDoesNotMatter` | internal/framing/framing.go:246-280 | two readers over the same bytes cut up differently yield the frames of the one-pass parse and the same ending, EOF only on a frame boundary |
| `FrameReaders.FrameReader.ReadFrame` | internal/framing/framing.go:246-280 | the answer and the remaining bytes are those of a one-pass parse; the buffer stays below 2 (MaxFrameSize + 3) |
| `FrameReaders.FrameReader.ReadAll` | internal/framing/framing.go:246-271 | reading to the end yields exactly the one-pass frames and ending |
| `FrameReaders.Parser.EnsureSpare` | internal/framing/framing.go:86-110 | compaction and growth keep the unread bytes and leave room |
| `FrameReaders.Parser.ReadFrom` | internal/framing/framing.go:120-134 | every read is offered at least one byte, and what it delivers is appended |
| `FrameReaders.Parser.ParseFrame` | internal/framing/framing.go:138-223 | decides as the one-pass parser does on the unread bytes and consumes exactly the frame |
| `Records.MeterRecord` | s2/append_utils.go:87-108 | the loop computes 8 per record, 2 per header, names, values and body |
| `Records.MeterBatch` | s2/append_utils.go:111-117 | the sum over the records |
| `Records.ValidateAppendInput` | s2/stream.go:243-262 | accepts exactly the inputs that are not nil and within count, token and size limits, and returns the size |
| `Records.FilterCommandRecords` | s2/types.go:547-555 | compacts the array in place to the records that are not commands, in order |
| `Records.WithoutCommandsAppend` | s2/types.go:532-555 | filtering batches one by one is filtering their concatenation |
| `BentoInput.PositionAccountedFor` | s2-bentobox/input.go:89-164 | over every run, each record from the epoch's first start up to the cached position was acknowledged, or skipped by a session that found no position and started at the tail |
| `BentoInput.PositionIsAcked` | s2-bentobox/input.go:89-164 | so every record from the first start up to the cached position was acknowledged, always when the default start is the earliest record, and otherwise unless such a session skipped one since the last reset |
| `BentoInput.SessionsStartAckedIff` | s2-bentobox/stream_input.go:147-160 | in every run all sessions start with every record since the epoch's first start acknowledged if and only if no session took the tail by default over one that was not |
| `BentoInput.TailDefaultSkips` | s2-bentobox/stream_input.go:147-160 | a concrete run in which the default start at the tail moves the position past delivered records that nobody acknowledged |
| `BentoResume.ConnectResumes` | s2-bentobox/stream_input.go:147-160 | in every reachable state a session begins exactly at the position in memory, else at the durable one if the cache answers, else at the default |
| `BentoResume.ResumesWhereAcked` | s2-bentobox/stream_input.go:85-160 | the round trip: once all that a session delivered is acknowledged, the next one begins exactly at its end, after any forgetting and restarting with a durable cache that answers |
| `BentoResume.ResumesAtReset` | s2-bentobox/input.go:142-156 | after a reset to the tail the next session begins there, forgotten or restarted in between |
| `BentoResume.StartsBelowIff` | s2-bentobox/input.go:89-114 | a session begins below the cached position if and only if memory has none, the durable cache does not answer and the default start lies below |
| `BentoResume.AckMoves` | s2-bentobox/stream_input.go:67-117 | an ack moves the position to the first record of its session not acknowledged, unless an earlier batch is open or the tail was reset since |
| `BentoResume.AckGoesBackIff` | s2-bentobox/input.go:116-136 | an ack moves the position back if and only if its session is of the current generation, no earlier batch of it is open, and its first open record lies below the position |
| `BentoResume.LateAckGoesBack` | s2-bentobox/input.go:116-136 | a concrete run in which the late ack of a replaced session moves the position from 20 back to 10, and the next session begins there |
| `BentoResume.OrderlyPositionsAdvance` | s2-bentobox/input.go:89-164 | the position never goes back over a run in which only the newest session acks, durable reads and writes work and the tail is not reset |
| `BentoResume.OrderlySessionsAdvance` | s2-bentobox/stream_input.go:147-160 | and every session of such a run begins at or above every earlier position |
| `BentoResume.NackedComesBack` | s2-bentobox/stream_input.go:188-269 | a nacked batch that could be queued is delivered again, after those nacked before it |
| `BentoResume.ReadDelivers` | s2-bentobox/stream_input.go:188-249 | a read delivers the batch nacked first, and otherwise the next records of the stream, with one ticket |
| `BentoInput.ResetSilencesOldSessions` | s2-bentobox/multi_stream_input.go:240-260 | after a tail reset no ack of an older session ever changes the position |
| `BentoInput.NoBatchForgotten` | s2-bentobox/stream_input.go:218-269 | a delivered record not swept was acknowledged, or its batch still has an unspent ticket, waits for redelivery, or had a nack that could not be queued |
| `BentoInput.AckFindsBatch` | s2-bentobox/stream_input.go:67-83 | an unspent ack always finds its batch tracked |
| `BentoInput.LastAckSweepsAll` | s2-bentobox/stream_input.go:85-117 | once all batches of a current session are acknowledged, in any order, the position is the end of what it delivered |
| `BentoInput.StepInv` | s2-bentobox/stream_input.go:131-288 | every step keeps the invariant of cache, sessions, tickets and queued nacks |
| `AckTracking.PrefixMaximal` | s2-bentobox/stream_input.go:92-103 | among consecutive batches the scan stops only at one not acknowledged |
| `BentoObjects.ToAckMap.MarkDone` | s2-bentobox/stream_input.go:67-117 | marks, scans, writes the position, deletes only if the write succeeded, and touches no other stream |
| `BentoObjects.ToAckMap.ScanPrefix` | s2-bentobox/stream_input.go:92-103 | the loop counts the acknowledged prefix without gaps |
| `BentoObjects.SeqNumCache.Get` | s2-bentobox/input.go:89-114 | memory, then the durable cache, whose errors are misses |
| `BentoObjects.SeqNumCache.Set` | s2-bentobox/input.go:119-136 | drops acks of older generations; memory is written before the durable cache; other streams are untouched |
| `BentoObjects.SeqNumCache.ResetToTail` | s2-bentobox/input.go:142-156 | a new generation at the tail, in memory even when the durable write fails |
| `BentoObjects.SeqNumCache.Forget` | s2-bentobox/input.go:162-164 | only memory forgets the stream |
| `BentoObjects.StreamInput.Receive` | s2-bentobox/stream_input.go:188-249 | nacked batches come first; every delivery is tracked and gets one ticket |
| `BentoObjects.StreamInput.Positive` | s2-bentobox/stream_input.go:229-288 | a positive answer acts once and as the state machine's ack |
| `BentoObjects.StreamInput.Negative` | s2-bentobox/stream_input.go:229-269 | a negative answer acts once and queues the batch again |
| `ConnPool.AtMostFourSessions` | s2/connpool.go:43-57 | a connection carries exactly its unreleased sessions, at most four, and another is opened only when all of the host's are full |
| `ConnPool.CheckoutDecides` | s2/connpool.go:43-57 | a checkout begins a session on a listed connection with room if there is one, and otherwise on a new one listed last |
| `ConnPool.NeverHandedOutAgain` | s2/connpool.go:60-79 | from its removal on a poisoned entry is never handed out, over any further run |
| `ConnPool.PoisonTakesOut` | s2/connpool.go:60-79 | poisoning takes exactly that entry out of its host's list, sets its flag, and closes idle connections at once if no session is left |
| `ConnPool.LastReleaseCloses` | s2/connpool.go:30-34 | the release of a flagged entry's last session closes its idle connections |
| `ConnPool.PoisonedEndsClosed` | s2/connpool.go:30-79 | in every interleaving, once poisoning and releases are done a poisoned entry without sessions had its idle connections closed at a moment without sessions |
| `ConnPool.StepInv` | s2/connpool.go:30-158 | every atomic step of checkout, release and poison keeps the pool's invariant |
| `ConnPool.SpreadTransport.CheckoutEntry` | s2/connpool.go:43-57 | the loop takes the first entry with room or adds one |
| `ConnPool.SpreadTransport.RemoveEntry` | s2/connpool.go:60-74 | the filter removes the target and keeps the others in order |
| `ConnPool.SpreadTransport.CloseBody` | s2/connpool.go:152-158 | a session is released once; the last one looks at the flag |
| `Reconnect.AdviceIsSpacedOut` | s2/reconnect.go:23-38 | with a clock that does not go back, advice is followed if and only if no reconnect was recorded within the idle gap before it, whenever the recording happens |
| `Reconnect.AdvisedReconnects.RecordAt` | s2/reconnect.go:23-29 | counts within the gap, restarts the count after it |

## Left out

- HTTP, TLS, proxies, dialling, endpoint templates, authentication, encryption headers: the protocols see them as environment choices of success, error and bytes.
- Protobuf encoding and gzip or zstd: a message is its bytes and a compressor is any function that may fail.
- Management clients, JSON, metrics, logging, message texts: no protocol state depends on them.
- Durations and clocks outside the backoff arithmetic: timers, deadlines, retry delays and watchdogs are actions the environment takes.
- Bounded channels of the batcher: a send without room only takes longer while the lock is held; the read session's channel is bounded.
- Cloning and aliasing of records and inputs: values cannot be shared in the model.
- Wrap-around of sequence numbers, record counts and timer numbers at 2^64: only match numbers and the backoff wrap.
- AppendSessions.AppendSession.MarkNext: transports and entries are rows of a table, not heap objects.
- AppendSessions.AppendSession.HandleAckOn: counting the ack, resolving the head and closing stale transports are one step.
- AppendSessions.AppendSession.EnqueueReserved: waiting for capacity is a reservation that is tried again.
- AppendSessions.AppendSession.HandleReconnectAdvice: whether advice is accepted is the environment's choice; the count behind it is `Reconnect.AdvisedReconnects`.
- AppendSessions.AppendSession.HandleClaimedSessionError: the time of the next attempt and the record of a drain in the advice count are not part of the state.
- ReadSessions.DeliversInOrder: a session closed early by its consumer is not modelled; cancellation of its context is.
- ReadLoop.ReadsConsecutively: only absolute starts; an empty batch with a tail does not fix the position of a relative start.
- ReadLoop.StreamReader.BuildAttemptOptions: how much of a wait is left is the clock's business; that one was given is kept.
- ReadSessionObjects.ReadSession.Next: runs up to the point where it would park in its select; the reader's steps come between two calls.
- ProducerTheorems.BarrierReportsExactly: waits are repeated tries, resolving the tickets of one batch is one step, and the batcher is used by its producer alone.
- Producers.Producer.SubmitRecord: one call runs without other goroutines in between until it returns or waits; every interleaving of its steps is covered by the state machine's theorems.
- Producers.Producer.ConsumeBatches: the session's answers are given; acks come between two calls.
- BentoInput.PositionIsAcked: one stream, durable reset writes succeed, and looking up position and generation is one step; `BentoObjects.SeqNumCache.ResetToTail` also covers the failing write.
- Bento stream discovery and worker lifecycle (streamsManager): which streams are read, and by how many workers over time, is the environment's choice of sessions.
- ConnPool.PoisonedEndsClosed: connections are counters; that closing idle connections closes the right ones is the transport library's business.
- Errors: errors are values with code, status and origin; nested wrapping is limited to the wrappers the code itself makes.
