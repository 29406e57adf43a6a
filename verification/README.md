# Dream Fly backend: verified protocols

Dafny 4.11 models of the parts of the backend whose correctness depends on how transactions, workers,
caches and crashes interleave, with proofs over every interleaving. `dafny verify dfyconfig.toml` checks
everything.

## What is modelled

- **Event pipeline.** `Outbox` (claim, publish under a deadline, bookkeeping with capped backoff),
  `OutboxLease` (any number of dispatchers, a broker that may lose answers, crashes, a clock), `Consumer`
  (decoding, the idempotent audit insert, the retry loop), `ConsumerOffsets` (any number of group members,
  partitions, rebalances, lost and late commits, crashes), `OffsetOrder` (which way committed offsets go),
  `ConsumerRuns` (the loop as a run of that machine) and `Pipeline` (both halves together: an exactly-once effect).
- **Refresh-token sessions.** `Sessions` (issue, rotate, reuse detection, logout, purge, deactivate as atomic
  transactions; refresh token rotation as in section 5.2.2.3 of RFC 6819, leeway on `exp` as in section 4.1.4
  of RFC 7519), `PurgeInvisible` (the same run with and without purges), `RotationLocks` (rotation against
  deactivation and reuse detection, at the granularity of row locks and statement snapshots).
- **Courses.** `CourseLocks` (the ascending lock order and deadlock freedom), `Enrolments` (one batch),
  `EnrolmentRuns` (batches, commits, roll-backs and cancellations interleaved), `Leave` (decision and makeup
  rules, the seat formula, each request served alone), `LeaveLocks` (row lock strengths between cancelling
  enrolments and deciding leave), `Seats` (makeups statement by statement against everything that moves a
  seat), `Attendance` and `AttendanceRuns` (marking batches against approvals).
- **Timed stores.** `Ephemeral` (the store), `FixedWindow` and `RateLimit` (counters under arbitrary traffic
  and failures), `LoginCalls` (sign-in attempts that overlap between lockout check and failure count), `Otp`
  (one-time codes, each request one step), `OtpCalls` (the same requests store call by store call, interleaved and
  abandoned anywhere), `Access` (the cache encoding and `resolve`), `CacheRuns` (concurrent fills, commits and
  flushes over the encoded text).
- **Venue bookings.** `Bookings` (each request served alone) and `BookingRuns` (statement by statement).

## How it is modelled

Tables are finite maps. What a transaction does in one go is a function on those maps; the class methods
written in the source's statement order are proved equal to those functions. A module about interleavings has
an `Action` per statement, `Enabled` for its guard (row locks, conditional updates, unique indexes) and `Do`
for its effect; its results hold after every `Run`, by induction over the invariant `Safe`. A statement that
would block is not enabled, and when it resumes it judges the tables as committed by then. For the rows it
waited for that is what READ COMMITTED does; that it sees nothing older elsewhere is an assumption, except where
a snapshot is modelled: `end_all` in `RotationLocks` deletes what its own snapshot shows, and cancelling
enrolments in `Seats` may miss requests committed after it. An aborted transaction is one whose pending rows are
dropped. Clocks are milliseconds and there is one clock. Identifiers are natural numbers in the order of their
bytes. Tokens are opaque values with a unique id; hashing them is injective. Failures of calls to other systems
are parameters or separate actions.

## What turned out differently from the documentation

- The lease of 60 s has to be undercut: a row is due again at exactly 60 s. Exclusion can be lost at the next
  step iff some drain still holds a row 60 s or more after its claim (`OutboxLease.ExclusionFailsIffOverdue`).
  The 15 s budget prevents that if handing the batch over and keeping its books take less than the other 45 s
  (`OutboxLease.BudgetKeepsTheLease`); nothing in the code bounds those two.
- `src/middleware/rate_limit.rs:25` calls its window sliding. The counter is a fixed window, so up to twice
  the limit passes in one stretch of the window's length, and that bound is reached
  (`FixedWindow.WindowBoundIsTight`). From an instant on at most the limit passes in a window's length iff the
  counter found there is gone, used up or set at that instant (`FixedWindow.SlidesIff`).
- The lockout reads the failure count before the password is compared and raises it afterwards, in two calls. With
  `k` attempts at an account in between at once, `9 + k` passwords are compared per life of the counter; ten is the
  bound iff they come one at a time (`LoginCalls.TriesAreBounded`, `LoginCalls.TenIffOneAtATime`).
- Reuse detection promises to end the whole family. `end_all` deletes the rows its snapshot shows, and rotations of
  one user do not exclude each other: a rotation that commits while the deletion waits for its row leaves its new
  token alive (`RotationLocks.ReuseMissesALateRotation`). Exactly the rows that came after the snapshot survive
  (`RotationLocks.EndAllTakesItsSnapshot`); deactivation holds the user's row against rotations and misses none of
  theirs (`RotationLocks.UpdateMissesNoRotation`).
- Committed offsets can go back. Handing a partition to a member is harmless iff nothing of it is under way with
  that member beyond the next offset, and nobody else reads it or has anything of it under way
  (`OffsetOrder.RebalanceIsHarmlessIffCalm`). No record is lost either way (`ConsumerOffsets.OffsetsAreSafe`).
- A makeup takes the session lock before it counts, but enrolling takes the course lock and never the session
  lock. An enrolment that commits between the count and the makeup's commit leaves the session one seat over
  (`Seats.ConservationNeedsQuietEnrolment`). Seats are conserved once a counted makeup is charged at its count
  (`Seats.SeatsAreConserved`), and that late commit is the only other step that oversells
  (`Seats.OnlyALateCommitOversells`).
- Five guesses per code holds when sending, checking and consuming are served one at a time (`Otp.GuessBound`).
  Their store calls are separate, so requests of one user that overlap can break it. At any instant the most
  comparisons a code can still meet is what the counter still allows, plus five for each deletion of the counter
  to come, plus one for each check between its count and its read: never more (`OtpCalls.ComparisonsAreBounded`)
  and always attainable (`OtpCalls.WorstIsReached`). A code whose send deletes the counter before the first check
  is counted meets at most five iff, when it was set, no other deletion and no such check was outstanding
  (`OtpCalls.FiveWhenPrompt`). Each request alone is enough to miss the bound: a late reset gives ten
  (`OtpCalls.LateResetDoublesGuesses`), a check counted early six (`OtpCalls.EarlyCountAddsAGuess`), a send
  abandoned before its reset nine (`OtpCalls.AbandonedSendAddsGuesses`), a late `consume` ten
  (`OtpCalls.LateConsumeDoublesGuesses`).
- Inside the 5 s leeway a purge can hide a replay: the answer is the same 401, but the family is not ended.
  `PurgeInvisible.LeewayIsTheOnlyGap` says exactly when.
- The role list survives the cache for every list except three kinds: one with a newline in a name, the list
  of one empty name, and the list of one name equal to the sentinel (`Access.RolesRoundTrip`). The empty name is
  read as a miss, so it is only never cached; the other two are served to later callers as different lists
  (`CacheRuns.IntactExactly`, `CacheRuns.OtherListsAreServedMangled`).

## Model

| member | source | states |
|---|---|---|
| Outbox.RetryDelayIsCappedPower | src/kafka/outbox.rs:343-346 | The backoff is `min(2^attempts s, 1 h)` for every attempt count, although the shift overflows from 64 on |
| Outbox.EventsOutbox.InsertEvent | src/kafka/outbox.rs:89-119 | A new row is due at once and has never been attempted; no other row changes |
| Outbox.EventsOutbox.Claim | src/kafka/outbox.rs:208-228 | A claim leases exactly the picked rows for 60 s, changing nothing else, and hands each out once as it stood, oldest first, never more than 100 |
| Outbox.Return | src/kafka/outbox.rs:218-228 | Whatever order the rows come back in, the batch is each picked row once, sorted by creation time |
| Outbox.PublishBatch | src/kafka/outbox.rs:300-339 | The rows tried are those answered within 15 s in all and, if there is one, the first that is not; acknowledged rows are published, refused and unserializable ones failed with their reason, the late one failed for being late; the batch never runs past its budget |
| Outbox.OutcomeAccountsForTriedRows | src/kafka/outbox.rs:300-339 | Each tried row is in exactly the list its result calls for, with the count it was claimed with; an untried or cut-off row is in neither |
| Outbox.ElapsedWithinDeadline | src/kafka/outbox.rs:300-339 | Time spent on any number of rows stays within the budget, and a row that met the deadline met it exactly |
| Outbox.EventsOutbox.Bookkeep | src/kafka/outbox.rs:233-261 | All updates or none; committed, it stamps the published rows, counts each failure once with its reason and `min(2^attempts s, 1 h)` from now, and changes nothing else; it rolls back iff a failed row's counter is full |
| Outbox.MarkAllFailedAt | src/kafka/outbox.rs:240-260 | Each failed row gets one more attempt, the error, and a new due time counted from the bookkeeping |
| Outbox.MarkAllFailedRollsBack | src/kafka/outbox.rs:250-261 | Bookkeeping rolls back iff a failed row's INT counter is at its maximum |
| Outbox.MarkAllFailedFrame | src/kafka/outbox.rs:233-261 | Bookkeeping deletes no row and leaves rows that did not fail alone |
| OutboxLease.OutboxIsSafe | src/kafka/outbox.rs:208-271 | Over every interleaving with lost answers and crashes: the topics hold only committed payloads, a published mark implies the record is on a topic and is never lost, and a row is never more than 3600 s from due |
| OutboxLease.LeaseExclusion | src/kafka/outbox.rs:66-78 | While every drain ends less than 60 s after its claim, no row is ever in two drains' hands and none is touched while it is in one |
| OutboxLease.BudgetKeepsTheLease | src/kafka/outbox.rs:66-78 | The 15 s publish budget gives that: if handing over a batch and keeping its books together take less than 45 s, exclusion holds over every run |
| OutboxLease.ExclusionFailsIffOverdue | src/kafka/outbox.rs:66-70 | From any state so far exclusive, some step ends exclusion iff some drain holds a row 60 s or more after its claim |
| OutboxLease.BackoffAgreesWithAttempts | src/kafka/outbox.rs:240-260 | In such runs the SQL `attempts + 1` is the count the backoff was computed from, in every committed bookkeeping |
| OutboxLease.BookkeepingMarksPublished | src/kafka/outbox.rs:233-239 | Committed bookkeeping stamps every acknowledged row and leaves rows the batch never reached as they were |
| OutboxLease.LeaseBoundaryIsSharp | src/kafka/outbox.rs:66-70 | From any state in which a drain at its deadline still holds a row 60 s after its claim, a run counts that row twice with the backoff of one attempt |
| OutboxLease.PublishLoopIsARun | src/kafka/outbox.rs:300-339 | For every batch and producer behaviour, what the publish loop computes is what a drain of the machine accumulates, in the loop's own time and never past the deadline |
| OutboxLease.EveryEventCanGoOut | src/kafka/outbox.rs:66-78 | No event gets stuck: from every reachable state, whoever holds its row and however often it has failed, some run publishes it, on any partition |
| OutboxLease.NewEventCanGoOut | src/kafka/outbox.rs:89-119 | So can one just committed |
| Pipeline.ExactlyOnceEffect | src/kafka/consumer.rs:457-503 | An event whose record lies below a committed offset is in the audit log exactly once with its own content, except after five transient failures, and then at most once |
| Pipeline.AuditRowsComeFromTheOutbox | src/kafka/consumer.rs:457-503 | An audit row under an event's id is that event's row; any other row decodes from a record no outbox row accounts for |
| Pipeline.CommittedEventsAreNotLost | src/kafka/outbox.rs:208-271 | Every committed event is unpublished and due within the hour, or marked published and on a topic |
| Pipeline.PublishedStaysPublished | src/kafka/outbox.rs:233-239 | Payloads never change and `published_at` once set stays set, over any run |
| Pipeline.EveryEventCanBeRecorded | src/kafka/outbox.rs:208-271 | From every reachable state of outbox, broker and sink together, some run publishes an unpublished event, on any partition and behind any backlog, and records it in the audit log |
| Consumer.WireDecodes | src/kafka/consumer.rs:449-503 | Every envelope the producer writes decodes to one row keyed by its event id, described through the producer's own table |
| Consumer.RowSaysWhatTheEventSays | src/kafka/consumer.rs:412-483 | Read off the event's own members: the row names a user iff `user_id` reads as one; a listed type gets the table's resource and the id its own member reads as; any other type the resource it spells, or "audit", and `resource_id`; the data is kept as it is |
| Consumer.RowKey | src/kafka/consumer.rs:449-455 | The row's key is the event's id if it reads as one and otherwise the id made up for it |
| Consumer.TableIsListed | src/kafka/events.rs:35-95 | The table holds the five event types with their resources and id members, and no others |
| Consumer.SpecFound | src/kafka/events.rs:79-95 | Each listed event type is found under its own entry |
| Consumer.AuditLog.HandleAuditEvent | src/kafka/consumer.rs:457-503 | Poison iff the record is no JSON or has no text type, and then nothing is written; otherwise the decoded row is inserted once, ids stay unique and earlier rows stay, and only a database error makes the call fail |
| Consumer.InsertIsIdempotent | src/kafka/consumer.rs:485-499 | Inserting a row again after any further growth of the log changes nothing |
| Consumer.Resolve | src/kafka/consumer.rs:311-397 | Shutdown iff, read off the script, some 1 to 4 calls all failed transiently and shutdown was first seen in the backoff after the last of them; then the steps are exactly those calls, the backoff broken off and no commit; otherwise one to five calls with doubling backoffs, or none without text |
| Consumer.Run | src/kafka/consumer.rs:260-305 | The loop ends at the first message whose script stops it; it tries to commit exactly the messages before, once each and in order, and its trace is each message's calls and one commit attempt |
| Consumer.SegmentShape | src/kafka/consumer.rs:311-397 | Counted on the trace: 0 calls iff no text, else 1 to 5 of which all but the last failed transiently, `2^(k-1) - 1` s of backoff, exactly one commit attempt and it is last |
| Consumer.CallsBackOff | src/kafka/consumer.rs:369-393 | `k` calls wait `2^(k-1) - 1` seconds in all |
| ConsumerOffsets.OffsetsAreSafe | src/kafka/consumer.rs:213-221 | Over every interleaving of members, partitions, rebalances, lost or late commits, crashes and restarts: every offset below a committed one is recorded or was dropped for a stated reason, audit rows stay, and their ids are unique |
| ConsumerOffsets.RestartLosesNothing | src/kafka/consumer.rs:213-221 | What a member that is handed a partition, for the first time or again, will not read has been resolved |
| ConsumerRuns.LoopIsARun | src/kafka/consumer.rs:260-397 | For every record and script, what the loop makes of it is a run of the machine with as many handler calls, the audit log those calls leave, and the same end: settled with its commit on the way, or shut down with neither verdict nor commit |
| ConsumerRuns.NewcomerReads | src/kafka/consumer.rs:213-221 | A new process starts a partition at its committed offset, whoever read it before |
| ConsumerRuns.HandedOver | src/kafka/consumer.rs:213-221 | A rebalance from one member to another moves that partition only, to the committed offset |
| ConsumerRuns.NewcomerReadsThrough | src/kafka/consumer.rs:260-305 | And it can read on through any backlog and record the event at its end, whatever the records before it are |
| OffsetOrder.ForwardIffOrderly | src/kafka/consumer.rs:213-221 | Until a partition is handed out again its committed offset never goes back in any run, iff no member may yet commit less than is committed, each owes its commits in ascending order, and no two owe different ones |
| OffsetOrder.CommittedNeverGoesBack | src/kafka/consumer.rs:253-305 | Over every run in which a partition is handed out only while that is harmless, its committed offset never goes back, whatever members do with other partitions |
| OffsetOrder.RebalanceIsHarmlessIffCalm | src/kafka/consumer.rs:213-221 | Handing a partition out is harmless iff the receiver has no record or commit of it under way beyond the next offset and nobody else reads it or has any |
| OffsetOrder.RebalanceSetsCommittedBack | src/kafka/consumer.rs:213-221 | So a rebalance in the middle of a record is harmful whenever a commit before it is still missing |
| Sessions.SessionStore.Start | src/modules/auth/session.rs:57-83 | No session for an inactive account; otherwise one unrevoked row that lives for the configured time |
| Sessions.SessionStore.Rotate | src/modules/auth/session.rs:85-166 | The statements of `rotate`, each early return included, amount to one transaction function |
| Sessions.SessionStore.End | src/modules/auth/session.rs:168-182 | Logout answers the same for every token; a valid one's row is revoked and no other row is added, dropped or changed |
| Sessions.SessionStore.EndAll | src/modules/auth/session.rs:192-198 | Afterwards no row is the user's, and every row of anybody else is still there unchanged |
| Sessions.SessionStore.PurgeExpired | src/modules/auth/session.rs:210-215 | A row stays, unchanged, iff it has not expired; the count is the number that went |
| Sessions.SessionStore.Deactivate | src/modules/auth/access.rs:168-175 | Afterwards the account is inactive and no row is the user's; no other account and no other user's row changes |
| Sessions.RotateOutcome | src/modules/auth/session.rs:85-166 | A rotation succeeds iff its row is stored, unrevoked, unexpired, its owner's and the owner active; what each outcome does to the rows |
| Sessions.RotationIsSingleUse | src/modules/auth/session.rs:85-166 | Over any run each refresh token is exchanged at most once |
| Sessions.LiveRowsAreBounded | src/modules/auth/session.rs:57-198 | Exchanged tokens still stored are revoked; unrevoked rows never exceed the sessions started since the last `end_all` |
| Sessions.ReuseWipesTheFamily | src/modules/auth/session.rs:108-137 | Presenting a used, unexpired token that no `end_all` removed deletes all its user's rows and nobody else's |
| Sessions.WipedTokensAreInert | src/modules/auth/session.rs:184-198 | A token removed by `end_all` is refused ever after and changes no state |
| Sessions.InactiveCannotRotate | src/modules/auth/session.rs:139-157 | No token of a deactivated account is exchanged, and trying ends its sessions |
| Sessions.TokenWindow | src/utils/jwt.rs:56-98 | The validator takes a token for the configured lifetime and the 5 s leeway from its signing, and never a whole second more |
| Sessions.SessionsLast | src/modules/auth/session.rs:57-163 | A token handed out by a start or a rotation, neither presented since nor removed by an `end_all`, is exchanged at any time within the configured lifetime of its signing, whatever run lies between |
| Sessions.SessionsEnd | src/modules/auth/session.rs:85-182 | Six seconds after that lifetime presenting it changes nothing |
| PurgeInvisible.PurgingIsInvisible | src/modules/auth/session.rs:200-215 | Leaving every purge out of a run changes no response and no unexpired row, if no request presents a token inside the leeway |
| PurgeInvisible.LeewayIsTheOnlyGap | src/utils/jwt.rs:56-63 | Inside the leeway the response is still the same; the sessions differ iff a purged used token is replayed while its user has live ones |
| RotationLocks.DeactivationLeavesNoRotatedToken | src/modules/auth/session.rs:97-163 | In no schedule does a token issued by a rotation survive a committed deactivation, nor is a token exchanged twice |
| RotationLocks.NoRotationWhileInactive | src/modules/auth/repository.rs:76-84 | A rotation that commits finds the flag set, so none succeeds until reactivation |
| RotationLocks.LockedUserStays | src/modules/auth/access.rs:168-199 | While a transaction holds a user row, shared or not, the flag does not change |
| RotationLocks.EndAllTakesItsSnapshot | src/modules/auth/session.rs:184-198 | After an `end_all` commits, its user's rows are exactly those that came after the statement's snapshot, however long it waited; no other user loses a row |
| RotationLocks.UpdateMissesNoRotation | src/modules/auth/access.rs:162-175 | With the user's row written first, none of those that came later was issued by a rotation |
| RotationLocks.ReuseMissesALateRotation | src/modules/auth/session.rs:108-137 | From every quiet state with a used and a live token of an active user, a run presents the used one, ends the family and leaves a rotation's new token unrevoked |
| RotationLocks.RotationIsARun | src/modules/auth/session.rs:85-166 | A rotation served alone is a run of its statements: a live token of an active account is exchanged; a used one, or any of an inactive account, ends every session of its user and of nobody else |
| RotationLocks.UpdateIsARun | src/modules/auth/access.rs:162-175 | So is an update that ends sessions: the flag is set, and the user's rows and no others are gone |
| RotationLocks.LoginAndLogout | src/modules/auth/session.rs:57-182 | A token a login stores can be exchanged at once; once logged out, presenting it ends the family instead |
| CourseLocks.Covers | src/modules/courses/seats.rs:84-86 | The binary search finds a course iff the witness covers it |
| CourseLocks.InLockOrder | src/modules/courses/seats.rs:71-82 | Items come back as a sorted permutation iff all are covered; otherwise the first uncovered one is named |
| CourseLocks.LocksAreUnique | src/modules/courses/seats.rs:95-112 | Two witnesses for the same request against the same table, each the existing requested courses in ascending order, are equal |
| CourseLocks.NoDeadlock | src/modules/courses/seats.rs:95-112 | In no reachable state does a chain of waiters close into a cycle; while any transaction is open one can move, and all of them can finish |
| CourseLocks.CrossedOrderDeadlocks | src/modules/courses/seats.rs:95-99 | Without the ascending order two rows are enough for a deadlock |
| Enrolments.EnrolOne | src/modules/enrolments/service.rs:17-45 | Missing course, then as many active enrolments as places, then the buyer among them are refused; otherwise one active row is added |
| Enrolments.EnrolBatch | src/modules/enrolments/service.rs:63-79 | A batch succeeds iff every course is covered and refused nowhere as judged before the batch; a refusal names the smallest refused course |
| Enrolments.EnrolInOrder | src/modules/enrolments/service.rs:71-78 | Enrolling in earlier courses never changes the verdict on a later one |
| EnrolmentRuns.CapacityHolds | src/modules/courses/seats.rs:114-149 | Over every interleaving, committed active enrolments never exceed capacity and nobody is active twice in a course |
| EnrolmentRuns.BatchIsAtomic | src/modules/enrolments/service.rs:47-79 | A commit enrols the buyer in every course of the batch, all new to them, and adds nothing else; an abort changes no row |
| EnrolmentRuns.BatchIsARun | src/modules/enrolments/service.rs:47-79 | A batch no course refuses, served alone, is a run of its statements, and what is committed is what enrolling in one course after the other gives |
| EnrolmentRuns.CancelKeepsSafe | src/modules/enrolments/repository.rs:88-127 | Cancelling one enrolment or an order's keeps every open batch's checks valid |
| Leave.LeaveDesk.CreateRequest | src/modules/leave/service.rs:34-62 | The refusals, each by its own condition; otherwise one pending request on the caller's active enrolment that has none pending or approved for the session |
| Leave.LeaveDesk.CancelRequest | src/modules/leave/service.rs:77-92 | Only the owner cancels, and only while pending |
| Leave.LeaveDesk.Decide | src/modules/leave/service.rs:198-236 | The refusals in order: a text that is neither `approved` nor `rejected`, a missing request, anybody but an admin or the course's coach, a request not pending, approving for a cancelled enrolment; otherwise `approved` approves that request and gives one seat of its session back, `rejected` rejects it and moves no seat |
| Leave.OnlyTheCoachDecides | src/modules/coaches/service.rs:74-94 | Without admin rights a decision goes through only for the coach the request's own course names |
| Leave.LeaveDesk.BookMakeup | src/modules/leave/service.rs:257-295 | The refusals in the documented precedence, each by its own condition and "full" by counting heads; otherwise the request, and nothing else, gets the makeup |
| Leave.MakeupTakesOneSeat | src/modules/courses/seats.rs:190-202 | A makeup served alone takes exactly one seat of a session that had one, no other session notices, and it cannot be booked again |
| Leave.RemainingCountsHeads | src/modules/courses/seats.rs:227-282 | The seat formula counts heads: seats left are the capacity less the active enrolments without an approved leave from the session, less the makeups into it |
| Leave.LeaveDesk.CancelEnrolment | src/modules/enrolments/service.rs:108-130 | The refusals in order; otherwise the enrolment is inactive, its pending requests and no others are cancelled, and no session loses a seat |
| Leave.WithdrawnSeats | src/modules/leave/repository.rs:99-128 | Withdrawing any set of enrolments never lowers a session's seats, since each has at most one approved leave there |
| Leave.EnrolledSeats | src/modules/courses/seats.rs:257-282 | A new enrolment takes exactly one seat of each session of its course |
| Leave.BookedSeats | src/modules/courses/seats.rs:257-282 | A makeup takes one seat of its target, or none once its enrolment is gone |
| Leave.SettledSeats | src/modules/leave/repository.rs:168-305 | Deciding or cancelling a pending request frees seats or leaves them, and moves no makeup |
| Leave.DecisionMovesSeats | src/modules/leave/rules.rs:88-96 | A decision the rules admit moves seats exactly as meant: an approval frees one of the leave's own session, anything else none |
| Leave.BookedKeepsConsistent | src/modules/leave/rules.rs:129-149 | A makeup into another session of the leave's course keeps every request pointing within its course and away from its own session |
| LeaveLocks.CancelAndApproveNeverDeadlock | src/modules/enrolments/repository.rs:61-80 | Over every interleaving of cancelling an enrolment or an order, approving and taking requests: no chain of waiters closes; while any transaction is open one can move, and all of them can finish |
| LeaveLocks.ForUpdateDeadlocks | src/modules/enrolments/repository.rs:61-67 | With `FOR UPDATE` on the enrolment a run of one cancellation and one approval leaves both waiting for ever |
| Seats.SeatsAreConserved | src/modules/courses/seats.rs:227-282 | Over every run the seats left, less those counted by makeups under way, fall below zero by no more than enrolments and capacity cuts took |
| Seats.NeverOversold | src/modules/courses/seats.rs:190-282 | Without enrolments or cuts in its course a session is never oversold, and a makeup that found room still has it at its commit |
| Seats.OnlyALateCommitOversells | src/modules/leave/service.rs:238-295 | Apart from enrolments and cuts, a step oversells a session iff it commits a makeup whose counted seat has since been taken |
| Seats.ConservationNeedsQuietEnrolment | src/modules/leave/service.rs:238-295 | A run in which an enrolment between a makeup's count and commit leaves the session at minus one |
| Seats.SetMakeupNeverMisses | src/modules/leave/repository.rs:350-375 | The guarded write always finds its row once the request lock is held |
| Seats.SafeStep | src/modules/leave/service.rs:238-295 | Every step keeps each makeup under way on an approved request without one and a session it may move to, and no request or session in two transactions' hands |
| Seats.MakeupIsARun | src/modules/leave/service.rs:257-295 | A makeup served alone is a run of its statements |
| Seats.LeaveIsARun | src/modules/leave/service.rs:34-236 | Taking leave and deciding on it is a run: one request more, as decided, and nothing else |
| Seats.WithdrawalIsARun | src/modules/leave/service.rs:77-92 | So is taking leave and withdrawing it: a cancelled request more, and nothing else |
| Seats.EnrolmentTakesItsRequest | src/modules/leave/repository.rs:99-128 | A pending request is cancelled with its enrolment, and no other enrolment ends |
| Seats.MadeUpLeaveMovesASeat | src/modules/courses/seats.rs:227-282 | A leave approved and made up for moves one seat: its session gains one, the makeup's gives one up, no other notices |
| Attendance.Parse | src/modules/attendance/marking.rs:51-60 | Every record parsed in order to the status its text names, or the first text that names none |
| Attendance.AttendanceBook.Mark | src/modules/attendance/records.rs:43-76 | Refused as non-members iff somebody in the batch is not active in the course; otherwise refused iff an approved leave stands at the read or at some row's write against another mark; all rows or none |
| Attendance.AttendanceBook.ProjectApprovedLeave | src/modules/attendance/records.rs:81-96 | Writing `leave` always passes the guard and changes that row only |
| Attendance.MarksCoverTheBatch | src/modules/attendance/records.rs:67-74 | Exactly the batch's members in that session are written |
| Attendance.MarksAreLastWords | src/modules/attendance/records.rs:67-74 | A member listed twice keeps the later mark |
| Attendance.PlanSuffices | src/modules/attendance/marking.rs:62-104 | A batch the plan admits is blocked at a row only by a leave approved since the plan's read |
| AttendanceRuns.ApprovedLeaveWins | src/modules/attendance/records.rs:142-197 | In every reachable state each approved leave's attendance row is `leave` |
| AttendanceRuns.ApprovalIsFinal | src/modules/leave/service.rs:168-188 | From the commit of an approval on, its row is `leave` for ever |
| AttendanceRuns.BatchesAreAllOrNothing | src/modules/attendance/records.rs:36-76 | Rows change only at commits; a marking's commit writes exactly its entries and turns no approved leave into anything else |
| AttendanceRuns.GuardCatchesOnlyLateApprovals | src/modules/attendance/records.rs:142-160 | A zero-row upsert means a leave approved after the batch's read |
| AttendanceRuns.LateApprovalFailsTheBatch | src/modules/attendance/records.rs:67-74 | And such an approval of a member still to be marked otherwise always fails the batch |
| AttendanceRuns.MarkIsARun | src/modules/attendance/records.rs:43-76 | A batch the plan admits, served alone, is a run of its statements and writes its whole batch, so nothing but a concurrent approval blocks a row |
| AttendanceRuns.ApproveIsARun | src/modules/leave/service.rs:168-188 | An approval served alone is a run: its request turns approved and its row becomes `leave` |
| Ephemeral.EphemeralStore.IncrWithTtl | src/utils/ephemeral.rs:27-48 | The count goes up by one and the deadline is set only when the increment creates the key |
| Ephemeral.EphemeralStore.GetDel | src/utils/ephemeral.rs:35-36 | The caller gets what a read would have given, and no later read at any time finds anything |
| Ephemeral.OneTaker | src/utils/ephemeral.rs:35-36 | Of any number of such calls at any times at most one is given the value, and none if there was none |
| FixedWindow.WindowBound | src/utils/ephemeral.rs:27-48 | Over any traffic and failures a limit of `max` failing closed admits at most `2 * max` in a closed stretch of the ttl, and one fewer in a half-open one |
| FixedWindow.LifetimeBound | src/utils/ephemeral.rs:27-48 | At most `max` are admitted in one life of the counter |
| FixedWindow.OpenWindowBound | src/modules/auth/rate_limit.rs:67-76 | Failing open admits at most one more for each unanswered call |
| FixedWindow.WindowBoundIsTight | src/utils/ephemeral.rs:27-48 | The bound is reached for every limit and every length |
| FixedWindow.StretchKeepsAllowance | src/utils/ephemeral.rs:27-48 | From any counter state, any traffic gets no more through in the next window's length than the count leaves over, plus a whole limit if the counter expires in it |
| FixedWindow.AllowanceIsReached | src/utils/ephemeral.rs:27-48 | And from each of them some traffic gets exactly that through |
| FixedWindow.SlidesIff | src/middleware/rate_limit.rs:25-26 | At most the limit passes in every such stretch iff the counter found at its start is gone, used up or set at that instant |
| RateLimit.RateLimitMiddleware | src/middleware/rate_limit.rs:101-124 | One bump of `rate_limit:global:` and the address for 60 s, touching no other key; an error or a count over 300 stops the request |
| RateLimit.StrictRateLimit | src/middleware/rate_limit.rs:151-174 | The same with `rate_limit:auth:` and 10 |
| RateLimit.ForgotAllowed | src/modules/auth/rate_limit.rs:70-76 | One bump of the account's counter for an hour; only a count over 3 refuses, an error allows |
| RateLimit.LoginLockedOut | src/modules/auth/rate_limit.rs:35-50 | Locked iff the store answers with a live count of at least 10 |
| RateLimit.RecordLoginFailure | src/modules/auth/rate_limit.rs:52-58 | A failed login does to the store what the runs behind the bounds count as one failure of that account |
| RateLimit.ClearLoginFailures | src/modules/auth/rate_limit.rs:60-65 | Clearing ends a lockout for good if the store answers, and does nothing if it does not |
| RateLimit.KeysApart | src/middleware/rate_limit.rs:78-92 | No bucket's key is another bucket's or another caller's |
| RateLimit.VerdictsAreAdmissions | src/middleware/rate_limit.rs:108-121 | The requests the bounds count are exactly those the middlewares let through |
| RateLimit.AddressBound | src/middleware/rate_limit.rs:80-174 | Over any mix of traffic and failures an address gets at most 600 requests into any minute, and 20 to the auth routes |
| RateLimit.ResetMailBound | src/modules/auth/rate_limit.rs:67-76 | An account triggers at most 6 reset mails in any hour plus one per unanswered store call |
| RateLimit.LockoutStands | src/modules/auth/rate_limit.rs:33-65 | A lockout stands, with its deadline, until it expires or is cleared |
| LoginCalls.TriesAreBounded | src/modules/auth/credentials.rs:59-93 | Over every interleaving of store calls in one life of an account's counter, with at most `k` attempts between check and count, at most `9 - failures + k` more passwords are compared than are under way, plus one per attempt the counter does not hear of |
| LoginCalls.WorstIsReached | src/modules/auth/credentials.rs:59-93 | From every state and for every `k` above zero some run compares exactly that many |
| LoginCalls.TenIffOneAtATime | src/modules/auth/rate_limit.rs:33-65 | Ten per life of the counter is the bound iff attempts at the account come one at a time |
| LoginCalls.LockoutEndsAtItsDeadline | src/modules/auth/rate_limit.rs:33-50 | A locked account's next attempt is let through iff the counter's deadline has passed |
| LoginCalls.SuccessStartsAfresh | src/modules/auth/rate_limit.rs:60-65 | A right password the counter hears of sets it to nothing, and the next attempt is let through |
| Otp.SendOtp | src/modules/auth/otp.rs:52-95 | Refused iff three requests are counted already; otherwise the code replaces the old one for 300 s, the attempt count goes, and no other key changes |
| Otp.Check | src/modules/auth/otp.rs:108-149 | The attempt is counted first; with five counted already the code goes; otherwise accepted iff phone and code are those stored and live |
| Otp.Consume | src/modules/auth/otp.rs:153-157 | Neither the code nor its attempt count is left, and nothing else is touched |
| Otp.GuessBound | src/modules/auth/otp.rs:52-157 | Between one sent code and the next at most five guesses are compared, whatever anybody does and when, if requests are served one at a time |
| Otp.GuessBoundIsTight | src/modules/auth/otp.rs:108-149 | After every send, five guesses one by one are all compared |
| Otp.SpentCodesAreNotCompared | src/modules/auth/otp.rs:115-157 | A code that was consumed, or guessed at a sixth time, is never compared again, not even once its counter has expired |
| Otp.SendBound | src/modules/auth/otp.rs:60-68 | No user is sent more than six codes in any closed hour, or five in a half-open one |
| Otp.CallsMakeTheStep | src/modules/auth/otp.rs:52-157 | Each step is its store calls in order |
| Otp.OnlyTheSentCodeIsAccepted | src/modules/auth/otp.rs:121-149 | A guess is accepted only for the phone and code last sent and within 300 s |
| Otp.TheSentCodeIsAccepted | src/modules/auth/otp.rs:108-149 | And the sent code is accepted, with its phone and within 300 s, unless it was used, replaced or guessed at five times before |
| OtpCalls.ComparisonsAreBounded | src/modules/auth/otp.rs:52-157 | Over every interleaving of store calls, abandoned requests included, comparisons with the present code never exceed the worst case of the state: the counter's allowance, five per deletion outstanding, one per check between count and read |
| OtpCalls.WorstIsReached | src/modules/auth/otp.rs:52-157 | From every state some run makes exactly that many comparisons |
| OtpCalls.FiveIffWorst | src/modules/auth/otp.rs:108-149 | Every continuation compares the code at most five times iff the worst case is at most five |
| OtpCalls.WorstAtSet | src/modules/auth/otp.rs:82-87 | A new code starts with five for each deletion outstanding, its own send's included, one for each check under way and what the old counter leaves |
| OtpCalls.FiveOnceReset | src/modules/auth/otp.rs:86-87 | From the counter's deletion on, five is all iff no other deletion and no check is under way |
| OtpCalls.FiveWhenPrompt | src/modules/auth/otp.rs:82-149 | A code whose send deletes the counter before a check is counted meets at most five in every run iff, when it was set, no other deletion and no check was under way |
| OtpCalls.SendIsARun | src/modules/auth/otp.rs:52-95 | A send whose calls are not interrupted is the one step of `Otp` |
| OtpCalls.CheckIsARun | src/modules/auth/otp.rs:108-149 | So is a check: the same store, verdict and comparison |
| OtpCalls.LateResetDoublesGuesses | src/modules/auth/otp.rs:82-87 | From the empty store, ten guesses at one code by calls between and after one send's two |
| OtpCalls.EarlyCountAddsAGuess | src/modules/auth/otp.rs:115-128 | Six, with one check counted before the code was sent |
| OtpCalls.AbandonedSendAddsGuesses | src/modules/auth/otp.rs:82-87 | Nine, with a send abandoned before it deletes an older counter, which then expires first |
| OtpCalls.LateConsumeDoublesGuesses | src/modules/auth/otp.rs:151-157 | Ten, with a `consume` whose second deletion comes after the next code was sent |
| Access.RolesRoundTrip | src/modules/auth/access.rs:127-157 | A role list comes back from the cache unchanged iff no name has a newline and it is neither `[""]` nor the sentinel alone |
| Access.AccessCache.Resolve | src/modules/auth/access.rs:103-160 | A half whose entry is missing, expired, unreadable or cannot be fetched is answered by the database and refilled for 60 s or 900 s; any other by its entry, which stays; an inactive answer leaves the roles alone |
| Access.AccessCache.Flush | src/modules/auth/access.rs:223-234 | After a flush that works, the next `resolve` answers what the database then holds, whatever and whenever that is; one that fails changes nothing |
| Access.SecondAnswerAgrees | src/modules/auth/access.rs:103-160 | Served from the cache it filled, `resolve` answers the same iff the list survives the cache |
| CacheRuns.AnswersAreFresh | src/modules/auth/access.rs:103-160 | Over every interleaving of fills, commits and flushes, each answer rests on a database reading at most ttl plus fill delay older than it |
| CacheRuns.AccessIsFresh | src/modules/auth/access.rs:39-44 | What is served was the committed value within 60 s plus the fill delay for the active flag; within 900 s plus it for roles, if the list read survives the encoding |
| CacheRuns.IntactExactly | src/modules/auth/access.rs:127-157 | Decoded from its stored text, a value is itself or a miss iff it is the flag, or a list without newlines in names that is not the sentinel alone |
| CacheRuns.OtherListsAreServedMangled | src/modules/auth/access.rs:127-157 | Any other list, once it fills the cache, is served to the next caller as a different one |
| CacheRuns.FlushIsFinal | src/modules/auth/access.rs:201-234 | After a flush that no earlier read outlives, every later answer is post-commit |
| CacheRuns.AStragglerUndoesTheFlush | src/modules/auth/access.rs:211-214 | One such read, unless it is the list that always misses, is enough for a later caller to be served the old value |
| CacheRuns.StaleAnswersDieOut | src/modules/auth/access.rs:42-44 | Flush or no flush, ttl plus delay after a commit no answer predates it |
| CacheRuns.ResolveIsARun | src/modules/auth/access.rs:103-160 | Each half of a `resolve` served alone is a run: a hit iff the entry is there, unexpired and readable, otherwise a read and a fill, with the same answer and the same entry afterwards |
| Bookings.BookingDesk.CreateBooking | src/modules/bookings/service.rs:17-88 | Missing, closed or full first, then the time, then the duplicate, each by its own condition and changing nothing; otherwise one confirmed booking with the note and the slot's price of that moment, and its one event |
| Bookings.BookingDesk.CancelBooking | src/modules/bookings/service.rs:90-166 | Refused for anybody but the owner or an admin, for a booking neither pending nor confirmed, and less than 24 hours ahead unless admin; otherwise the one row turns cancelled and its event is queued |
| Bookings.RoundingKeepsTheDeadline | src/modules/bookings/service.rs:121-137 | Counting whole hours refuses exactly the cancellations less than 24 hours ahead |
| Bookings.CancelFrees | src/modules/bookings/occupancy.rs:166-187 | Cancelling frees exactly its own seat |
| Bookings.CancelUndoesCreate | src/modules/bookings/occupancy.rs:138-187 | A booking made and cancelled leaves every slot as it was: it can be made again, not cancelled again |
| BookingRuns.OccupancyIsSafe | src/modules/bookings/occupancy.rs:109-136 | Over every interleaving no slot is over capacity and nobody holds two seats of one slot |
| BookingRuns.ClosedOnlyReleases | src/modules/bookings/occupancy.rs:113-122 | A slot that stays closed gains no booking |
| BookingRuns.ClosedStillReleases | src/modules/bookings/occupancy.rs:171-187 | A cancellation past its checks goes through and frees its seat, closed slot or not |
| BookingRuns.CancelledAtMostOnce | src/modules/bookings/service.rs:139-146 | Over any run each booking is cancelled at most once |
| BookingRuns.CreateIsARun | src/modules/bookings/service.rs:17-88 | Creating a booking alone is a run of its statements |
| BookingRuns.CancelIsARun | src/modules/bookings/service.rs:90-166 | So is cancelling one |
| BookingRuns.PriceIsTheSlots | src/modules/bookings/occupancy.rs:109-163 | A booking commits with the price its slot has at that moment, since the slot stays locked from the read on |
| BookingRuns.BookingsKeepTheirPrice | src/modules/bookings/occupancy.rs:142-163 | Over any run nothing about a booking changes but its status, whatever happens to its slot's price |
| BookingRuns.EventsAgreeWithBookings | src/modules/bookings/service.rs:66-157 | Over every interleaving and abort the outbox holds exactly one created event for each booking, one cancelled event for each cancelled one, and nothing else |

## Left out

- AttendanceRuns.ApprovedLeaveWins: a blocked upsert judges its guard on the tables as they are when it resumes; the snapshot lag documented at src/modules/attendance/records.rs:163-165 is not modelled.
- RotationLocks.NoRotationWhileInactive: the expiry test between two locks is an abort that may come at any time, and login reads its account without a lock, so the claim is about rotation only.
- RotationLocks.EndAllTakesItsSnapshot: the deletion takes its row locks all at once, so deadlocks between two of them are not modelled.
- CacheRuns.FlushIsFinal: the refill race documented at src/modules/auth/access.rs:211-214 is stated as its exact condition, not closed.
- Otp.GuessBound: each of send, check and consume is one step here; module `OtpCalls` takes them apart. A code whose SMS fails counts as sent.
- OtpCalls.ComparisonsAreBounded: a payload that does not parse is a check refused without a comparison, which the stored value being a phone and a code already rules out.
- LeaveLocks.CancelAndApproveNeverDeadlock: row locks on attendance rows and sessions are not part of it, nor are enrolling batches; a scan's rows are those it found.
- Seats.SeatsAreConserved: creating a request and deciding one use the enrolment as it was read, without a lock, as the code does; deleting sessions by regenerating a calendar is not modelled.
- EnrolmentRuns.CapacityHolds: capacity only grows while batches run; the code does not guard against an edit that cuts it.
- Outbox.EventsOutbox.Claim: the batch limit, skipped locks and order of the inner SELECT are its precondition; topic, key and created-at columns that nothing decides on are dropped.
- ConsumerOffsets.OffsetsAreSafe: how the coordinator divides partitions is not modelled; any member may be handed any of them at any time. That a commit of an earlier generation is refused is one way of losing it.
- Sessions.ReuseWipesTheFamily: the wipe is one step here; what it misses when it has to wait is stated in `RotationLocks`.
- Two concurrent password-reset issues, and reset tokens in general.
- The checkout around an enrolment batch: user and product locks, orders, points, stock, carts, subscriptions.
- The wait list, course schedules, calendars, certificates, notifications and reports.
- Sign-in itself: passwords, Google login, JWT signing, hashing, e-mail and SMS delivery.
- HTTP handlers, routes, extractors, pagination, configuration, data-transfer objects and seed data.
- The lookup of a client's address from its headers: an identity is any text.
