# The WhatsApp dispatcher's core, in Dafny

The Go services in front of the gateway take a text from an API client, claim its Idempotency-Key, queue it as a
task (or fold it into one already waiting), send it through one of a sender's sessions, fail over when a session
turns out to be unfit, and report what became of it through receipts, webhooks and a paged listing. The gateway keeps
each session's socket alive. This project models those parts as state machines over the tables and Redis keys they
write, with the statements and handlers as methods of classes, and proves what holds over every run.

| files | what they model |
|---|---|
| `Idempotency`, `ClaimProtocol` | the claim row, its four statements, and requests racing on it one statement at a time, with a clock, purges, lost outcomes and crashes |
| `Keys`, `Dispatch`, `DispatchRuns` | names and recipients, Enqueue with coalescing, and many callers, workers and operators interleaved |
| `Repeats`, `MergeRaces` | when a repeated send is recognised or queued again, and merges into one task interleaved command by command, with workers and repeats |
| `Jobs`, `JobHistory` | the job and attempt tables, every statement that writes them, and receipts in any order |
| `Pools`, `PoolRuns`, `Routing`, `Failover` | sender pools, failover chains, the parallel health probe, and the worker that drives them |
| `Breaker`, `Watcher`, `CircuitRuns`, `LaneRaces` | circuit state in Redis, the batched read, the health watcher, both in every interleaving of operations, and the operations interleaved command by command |
| `Ids`, `Secrets`, `Cursors`, `Paging` | base-32 ids and secrets, page cursors, and following them through a listing |
| `Webhooks`, `WebhookRuns` | the event table, delivery, retiring, and every run of one deliverer |
| `Reconnect` | one gateway session's entry: reconnect budgets, backoff, health |
| `Options`, `Powers` | stock types and powers of two |

Each statement or handler is a method of a class proved equal to a function of the state before it; the theorems are
about those functions. A sequence of steps is executed by `Exec`; "in every run" means for every such sequence.
Time is an integer. Values that come from outside (clock readings, random bytes, fresh ids, what a database, Redis or a
gateway answered, the order in which parallel probes finish, which of several equally early rows a query picks) are
parameters or nondeterministic choices.

How a call fails is modelled where a state machine depends on it: `Call` says whether it answered, was refused without
effect, or was carried out with its reply lost. That covers the claim, record and release statements of an
Idempotency-Key; the scripts, the deletion, the re-enqueue, the enqueue and the job writes of Enqueue; the breaker's
scripts and deletions, and each pause and unpause of a lane, whose errors the breaker passes over; the rotation, the job
writes and the breaker call of the worker; and the handover of the health path. Reads can fail, which has no effect. The
other statements (pool edits by hand, receipts, listing, webhook rows) are modelled as carried out.

## What the code does not promise

Places where a comment or the documentation says more than the code does, or where a failure goes unreported. Each has a
lemma with an input and one with the condition, which is exact where this list says exactly.

- messages.go:443-444 says that the work runs exactly once per caller key. A first request slower than the in-flight
  timeout is taken over, and both do the work and answer their callers (`SlowWorkRunsTwice`); `ClaimStartsWorkIff` and
  `WorkersAreSpaced` say exactly when a second one starts.
- Doing the work twice queues the text twice only sometimes. A key has at most one copy under its own name at any moment
  (`TasksHaveOneOpener`), and a repeat is recognised exactly while there is one (`RepeatIsRecognisedIff`): the text is
  queued again exactly when every earlier copy was merged into another send's task, was lost, or left with its task
  (`SecondCopyOnlyOutOfSight`, `TextIsQueuedAgainIff`). `MergedRepeatRun` is a run in which it is: a merged send and its
  repeat go into one task, which then holds the text twice.
- enqueuer.go:324 has an error for an open task that was deleted and not put back. A task leaves the queue that way with
  nobody told exactly when the reply to the deletion is lost (`TaskLeavesIff`, `SilentLossRun`); and the error is a false
  alarm exactly when the re-enqueue took effect: then the task is back, with the new text in it (`LostErrorIff`,
  `FalseAlarmRun`).
- Merging reads the task, deletes it and puts it back, with nothing to keep others out. Two merges of one version both
  report success and the first one's text is gone (`OverwrittenTextRun`); and a merged text goes although no merge
  overwrites another when the task's sender repeats itself while a merge has the task in its hands (`RepeatInTheGapRun`).
  Among merges, workers, repeats and failing calls, every merged text stays in the task or with a worker throughout
  exactly when no command drops one (`MergedTextsSurviveIff`); among merges alone, every one is there at the end exactly
  when none deletes a task other than the one it read (`MergesAloneSurviveIff`).
- pools.go:156-158 says that a handover never resurrects a disqualified member. Decided on a stale snapshot it can crown
  one (`StaleHandoverCrownsTheRetired`); nothing else can (`MainStaysTrustedIff`).
- `WatchConfig.Validate` (watcher.go:35) refuses a streak of 1 so that one lucky poll cannot unpause a session. One can:
  a streak survives a resume by hand and is counted towards the next opening (`ReadingsToClose`, `OneLuckyPollCloses`).
- breaker.go pauses a session's lanes while its circuit is open. With operations one at a time, lanes and circuit part
  exactly at a step that `Unsettles` describes (`StepSettlesIff`): a script or deletion whose reply is lost, or a pause or
  unpause that is refused, which nobody is told. A pause by hand can be answered with no lane paused
  (`UnheardPauseRun`); a close can leave a lane paused that no poll unpauses (`CloseStrandsLane`).
- With operations overlapping, lanes and circuit can part although every call answers (`LatePausesStrand`,
  `LateUnpausesRelease`, reached by `PauseAndResumeMeet`). Once nobody has a lane left to touch, it is out of step
  exactly when the last command to settle it came too late or was refused, or its operation ended early
  (`LanesFollowIff`).
- watcher.go:133 says that a manual pause outlives any number of healthy polls. A poll that decided to close the circuit
  before the pause deletes it after (`WatcherUndoesPauseRun`); until a resume, the pause stands exactly when nobody who
  had decided before deletes the state (`PauseStandsIff`).
- The keys of two sessions overlap exactly when one id is the other followed by ":failures" (`CollisionIff`). The pause
  endpoint takes any id, and such a pause makes the other session's circuit unreadable (`OverlappingPauseBreaks`).
- handler.go:358-360 says that a resend is linked to the message it replaces. It is exactly when it does not join an
  open task (`ResendIsLinkedIff`); `UnlinkedResendRun` is a failover in which it does, from a queued and taken message
  of a two-member pool to the backup's open task.
- The comment on `Backoff` (deliverer.go:59) gives the five attempts half an hour; their waits sum to seven and a half
  minutes (`WaitsBetweenTheAttempts`).
- With a reinstatement in between, a failing message can return to a session it already failed on
  (`ReinstatingReopensTheChain`); without one it cannot (`FailoverChainsEnd`).

## Model

| member | source | states |
|---|---|---|
| Idempotency.IdempotencyStore.ClaimIdempotencyKey | go-consumer/wa-shared/store/idempotency.go:65-129 | takes a free or abandoned row, otherwise leaves it alone; conflict, claim, in flight or replay by body hash, claim id and stored response |
| Idempotency.IdempotencyStore.RecordIdempotentResponse | go-consumer/wa-shared/store/idempotency.go:139-152 | writes the response exactly when the claim id still owns the row, and says so |
| Idempotency.IdempotencyStore.ReleaseIdempotencyKey | go-consumer/wa-shared/store/idempotency.go:160-169 | removes the row exactly when the claim id owns it and no response is stored |
| Idempotency.IdempotencyStore.PurgeIdempotency | go-consumer/wa-shared/store/idempotency.go:172-180 | removes exactly the rows older than the bound and counts them |
| ClaimProtocol.UnderIdempotency | go-consumer/wa-consumer-api/internal/api/messages.go:445-537 | one undisturbed request is the run of its own claim, work, record and release steps, whatever each statement answers; without a store the work is done unguarded |
| ClaimProtocol.Reachable | go-consumer/wa-shared/store/idempotency.go:65-180 | in every interleaved run: rows belong to requests that claimed them, the owner is the newest claim, stored responses are the stored requests' own, workers are a timeout apart |
| ClaimProtocol.RecordedResponseIsStable | go-consumer/wa-shared/store/idempotency.go:93-180 | once a response is recorded nothing changes the row until a purge more than 24 hours after the claim |
| ClaimProtocol.ReplayIsTheRecordedResponse | go-consumer/wa-shared/store/idempotency.go:112-128 | a replay is the response another request with the same key and the same body hash recorded |
| ClaimProtocol.RecordedKeyNeverStartsWork | go-consumer/wa-consumer-api/internal/api/messages.go:461-489 | while a response stands, a request under its key is replayed on the same body, refused on another, never started |
| ClaimProtocol.WorkersAreSpaced | go-consumer/wa-shared/store/idempotency.go:28-28 | two requests that started under one key and kept their claims claimed more than the timeout apart |
| ClaimProtocol.NoWorkAfterAStoredResponse | go-consumer/wa-shared/store/idempotency.go:93-128 | after a stored response no later request under the key starts within 24 hours of the claim |
| ClaimProtocol.OvertakenRequestWritesNothing | go-consumer/wa-shared/store/idempotency.go:139-169 | the fence: an overtaken request does not own the row, and its record and release change nothing |
| ClaimProtocol.LostForGood | go-consumer/wa-shared/store/idempotency.go:131-169 | a request that lost its row never owns it again in the rest of the run |
| ClaimProtocol.ClaimStartsWorkIff | go-consumer/wa-shared/store/idempotency.go:93-111 | a claim starts work exactly when no response and no unexpired claim of another request stands |
| ClaimProtocol.ClaimIsToldWhy | go-consumer/wa-consumer-api/internal/api/messages.go:461-489 | in every run a claim does the work exactly when no request holds its key, and otherwise is told which: a different message, the same one still running, or the same one's recorded response |
| ClaimProtocol.PurgeFreesIff | go-consumer/wa-shared/store/idempotency.go:172-180 | right after a purge a claim starts work exactly when every request that held the key claimed it more than the retention ago |
| ClaimProtocol.StoredResponsesSurvive | go-consumer/wa-shared/store/idempotency.go:93-169 | no claim, no release and no other request's record changes a row with a response |
| ClaimProtocol.SlowWorkRunsTwice | go-consumer/wa-consumer-api/internal/api/messages.go:443-444 | the promise fails: a run in which both of two requests under one key do the work and answer, the first one unrecorded |
| Keys.NormalisedRecipients | go-consumer/wa-shared/wa/phone.go:15-48 | the numbers normalising can give are exactly the 8 to 15 digit ones without a leading zero, and each normalises to itself |
| Keys.NormalisesIff | go-consumer/wa-shared/wa/phone.go:15-48 | a spelling reaches a recipient exactly when its digits are the number, or the number with a zero in place of 62 |
| Keys.SpellingsAgree | go-consumer/wa-shared/wa/phone.go:35-39 | the national and the international spelling of a number normalise to the same one, or are both refused for their length |
| Keys.DigitsOfParts | go-consumer/wa-shared/wa/phone.go:20-26 | only digits are read, in order: a spelling's digits are those of its parts |
| Keys.QueueForInjective | go-consumer/wa-shared/tasks/tasks.go:56-58 | no two lanes share a queue, whatever their session ids contain |
| Keys.CoalesceKeyInjective | go-consumer/wa-shared/dispatch/coalesce.go:54-56 | no two of session, lane and recipient share a coalesce group |
| Keys.IdempotencyKeyInjective | go-consumer/wa-shared/tasks/tasks.go:92-116 | the bytes hashed into a gateway key determine API key, caller key and recipient |
| Keys.ParseQueueIff | go-consumer/wa-shared/tasks/tasks.go:68-82 | a queue name parses to a session and lane exactly when it is their queue and the session is non-empty and colon-free |
| Jobs.JobStore.MarkScheduled | go-consumer/wa-shared/store/store.go:187-236 | inserts, takes over an enqueue-failed unsent row, or changes nothing; returns the id the row ends up with |
| Jobs.JobStore.BeginAttempt | go-consumer/wa-shared/store/store.go:238-254 | sending, one more attempt, first pickup time kept; returns the attempt number |
| Jobs.JobStore.MarkSent | go-consumer/wa-shared/store/store.go:256-278 | sent with its time, gateway id kept when none is given, and an attempt entry |
| Jobs.JobStore.MarkFailed | go-consumer/wa-shared/store/store.go:280-310 | failed or retrying, failure time only on the terminal one, and an attempt entry |
| Jobs.JobStore.MarkCoalesced | go-consumer/wa-shared/store/store.go:315-330 | adds the reference once and answers the open row's public id |
| Jobs.JobStore.MarkRequeued | go-consumer/wa-shared/store/store.go:351-363 | scheduled again, inserted if absent |
| Jobs.JobStore.MarkCancelled | go-consumer/wa-shared/store/store.go:365-376 | cancels any row that was not sent |
| Jobs.JobStore.CancelByPublicID | go-consumer/wa-shared/store/messages.go:233-264 | cancels the caller's row exactly while cancellable; unknown exactly when the caller has no such row, and, public ids being unique, done exactly when the row ends up cancelled |
| Jobs.JobStore.ApplyReceipt | go-consumer/wa-shared/store/messages.go:286-355 | moves the rows the receipt matches; reports unknown messages and whether anything changed |
| JobHistory.ReachableTablesAreSound | go-consumer/wa-shared/store/store.go:187-376 | sent implies sent_at, failed implies failed_at, read implies delivered implies sent times, no attempt entry past the row's count |
| JobHistory.WriteGrows | go-consumer/wa-shared/store/store.go:187-376 | no write deletes a row, lowers its attempts, clears sent_at, or rewrites its first pickup, delivery or read time |
| JobHistory.AddressChangesOnlyByTakeover | go-consumer/wa-shared/store/store.go:187-236 | session, recipient, public id and owner of a row change only when an enqueue takes over a row that was never queued |
| JobHistory.SentMessageKeepsItsRow | go-consumer/wa-shared/store/store.go:187-236 | over any run a sent message keeps its id, address and times, and an enqueue of its key changes nothing |
| JobHistory.CancellableIsQueued | go-consumer/wa-shared/message/message.go:83-111 | a message can be cancelled exactly while its public status is queued |
| JobHistory.PublicTransition | go-consumer/wa-shared/store/store.go:187-376 | what each write does to each message's public status: failed exactly on a permanent failure and queued on a temporary one, queued again when an enqueue takes up a failed one, cancelled only while queued, raised by receipts; no other message moves |
| JobHistory.RetryingIff | go-consumer/wa-shared/store/store.go:280-310 | a message is retrying exactly while a temporary failure is the last thing that moved it |
| JobHistory.CancelStopsExactly | go-consumer/wa-shared/store/messages.go:233-264 | the caller's message that was publicly queued is cancelled, stamped, and no other row changes |
| JobHistory.FailedEnqueueIsTakenUp | go-consumer/wa-shared/store/store.go:187-236 | after an enqueue that failed on an unsent message the next enqueue of its key schedules it again, at its own time, address and id |
| JobHistory.TimesAreWrittenBy | go-consumer/wa-shared/store/store.go:187-376 | column by column: which write sets each time stamp and the attempt count, and that no other does |
| JobHistory.FailureIsWrittenBy | go-consumer/wa-shared/store/store.go:187-310 | the failure columns are set by failures and failed receipts and cleared by a take-up, and by nothing else |
| JobHistory.DetailsAreWrittenBy | go-consumer/wa-shared/store/store.go:187-363 | the gateway id, the folded references and the schedule: which write sets each, and that no other does |
| JobHistory.IdentityIsWrittenBy | go-consumer/wa-shared/store/store.go:187-236 | what a take-up knows of a message's ids, sender, lane and metadata replaces what the row had, and no other write touches it |
| JobHistory.FirstWriteMakesTheRow | go-consumer/wa-shared/store/store.go:187-363 | what a message's first row holds, whichever write makes it |
| JobHistory.HistoryIsWrittenBy | go-consumer/wa-shared/store/store.go:256-310 | one history entry for each recorded outcome, under its attempt, and no other entry touched |
| JobHistory.AttemptsAreBegun | go-consumer/wa-shared/store/store.go:238-254 | over any run a row counts the attempts begun |
| JobHistory.ReceiptRaises | go-consumer/wa-shared/store/messages.go:286-355 | a receipt moves a row exactly when it raises its public status |
| JobHistory.StatusIsTheFurthest | go-consumer/wa-shared/message/message.go:83-105 | after any receipts the status is failed if any failed came, else read, else delivered, else sent |
| JobHistory.ReceiptsConverge | go-consumer/wa-shared/store/messages.go:266-355 | the status depends only on which receipts came, not on order, repeats or other messages' receipts |
| JobHistory.AnnouncementsRise | go-consumer/wa-consumer-api/internal/api/receipts.go:51-120 | announced statuses strictly rise, so each kind is announced at most once, and end at the final status |
| Dispatch.ValidatedIsValid | go-consumer/wa-shared/dispatch/enqueuer.go:123-157 | what passes validation has a full international recipient, a printable key and a text within the limit |
| Dispatch.ValidatesIff | go-consumer/wa-shared/dispatch/enqueuer.go:123-157 | accepted exactly with a session, a printable key up to 255 characters, a text up to 64 KiB, a known lane or none, and a spelling of some recipient |
| Dispatch.RefusalNamesTheField | go-consumer/wa-shared/dispatch/enqueuer.go:123-157 | a refusal names the first field that is wrong |
| Dispatch.SpellingsMeet | go-consumer/wa-shared/dispatch/enqueuer.go:159-166 | two spellings of one number under one caller key give one task key, queue and group |
| Dispatch.Enqueuer.Enqueue | go-consumer/wa-shared/dispatch/enqueuer.go:159-284 | validation, look-up, coalescing and placing in the source's order, with every Redis call and job write answering, refused, or done with its reply lost |
| Dispatch.Enqueuer.Place | go-consumer/wa-shared/dispatch/enqueuer.go:195-284 | slot, job row, task; a conflicting task id is a duplicate, an enqueue that reports an error fails the row whether or not the task is there |
| Dispatch.Enqueuer.RunScript | go-consumer/wa-shared/dispatch/coalesce.lua:1-20 | joins the open group while it has room, otherwise opens one under the given key |
| Dispatch.Enqueuer.CoalesceSend | go-consumer/wa-shared/dispatch/enqueuer.go:326-384 | merge, reopen or report the open task lost; a claim or reopen may take effect and still report an error |
| Dispatch.Enqueuer.MergeInto | go-consumer/wa-shared/dispatch/enqueuer.go:386-431 | appends to a task that is scheduled, far enough ahead and short enough, by delete and re-enqueue, either of which may take effect and still report an error |
| Dispatch.CoalescedIff | go-consumer/wa-shared/dispatch/enqueuer.go:182-190 | an accepted send is coalesced exactly when, before the call, its group is open under another key with room and the open task can take the text, and then that task alone has grown by it |
| Dispatch.AnswersExactly | go-consumer/wa-shared/dispatch/enqueuer.go:159-284 | every error has its one cause, a duplicate is a send on its queue, and a send that goes alone is queued under its own key with all it carries and answered so |
| Dispatch.ConflictIsADuplicate | go-consumer/wa-shared/dispatch/enqueuer.go:240-258 | a send whose key came onto its queue since it looked is answered as a duplicate without a time, and changes no task |
| Dispatch.RecordsExactly | go-consumer/wa-shared/dispatch/enqueuer.go:214-284 | a send that goes alone has its job scheduled for its slot with all that is known of it, and failed again if its enqueue reports an error |
| Dispatch.GroupMoves | go-consumer/wa-shared/dispatch/enqueuer.go:326-356 | what a send that goes alone does to its group whatever Redis answers: a claim that takes effect counts or opens it, replied or not, and an unfit open task has it opened afresh unless that is refused |
| Dispatch.GroupIsOpenFor | go-consumer/wa-shared/dispatch/enqueuer.go:326-356 | after a send that goes alone its group is open under its own key, counted up if it was and otherwise afresh for the window |
| DispatchRuns.TasksCarryTheirTexts | go-consumer/wa-shared/dispatch/enqueuer.go:326-431 | in every run, whatever replies are lost, a task's text is the texts put into it in order, separated by blank lines, within both limits, one only on the critical lane |
| DispatchRuns.QueuedTextIsHoused | go-consumer/wa-shared/dispatch/enqueuer.go:159-431 | in every run every queued text neither lost nor gone with its task is a segment at its own place of one task for its own recipient, session and lane |
| DispatchRuns.TextIsQueuedIff | go-consumer/wa-shared/dispatch/enqueuer.go:159-431 | a text goes onto the queue, into one task, exactly when its caller is told it was accepted and not a duplicate, or when the reply of the call that queues it is lost |
| DispatchRuns.TaskLeavesIff | go-consumer/wa-shared/dispatch/enqueuer.go:324-431 | a task leaves exactly when a worker or operator is done with it or a merge takes it and does not put it back; the caller is told unless the reply to the deletion was lost |
| DispatchRuns.LostErrorIff | go-consumer/wa-shared/dispatch/enqueuer.go:411-428 | a caller told that the open task was lost has lost it exactly when the re-enqueue had no effect; otherwise it is back with the new text |
| DispatchRuns.TextsLeaveWithTheirTask | go-consumer/wa-shared/dispatch/enqueuer.go:386-431 | one step leaves every queued text as it was unless its task leaves, and then marks it as carried off or lost |
| DispatchRuns.TasksOnlyGrow | go-consumer/wa-shared/dispatch/enqueuer.go:386-431 | a task's text changes exactly when a send that joins it takes it and puts it back: appended, waiting, same send time and address, never on the critical lane; a worker changes only state and time |
| DispatchRuns.AnsweredIdIsStored | go-consumer/wa-shared/dispatch/enqueuer.go:214-299 | while recorder writes answer and other writers write about messages that have a row, the answered public id is the one on the row of the answered key, on every path |
| Repeats.TasksHaveOneOpener | go-consumer/wa-shared/dispatch/enqueuer.go:165-180 | in every run a task is on the queue exactly while a text sits in it under its own name, and there is one such text: no key has two copies under its own name |
| Repeats.RepeatIsRecognisedIff | go-consumer/wa-shared/dispatch/enqueuer.go:165-180 | in every run, with anything in between, a repeat is answered as a duplicate and changes nothing exactly while a copy sits under its own name |
| Repeats.SecondCopyOnlyOutOfSight | go-consumer/wa-shared/dispatch/enqueuer.go:165-284 | in every run a text is queued again under the same key only when every earlier copy was merged elsewhere, was lost, or left with its task |
| Repeats.TextIsQueuedAgainIff | go-consumer/wa-shared/dispatch/enqueuer.go:165-284 | in every run a call that nothing disturbs and nothing fails queues the text again exactly when every earlier copy is out of sight |
| Repeats.RepeatAtOnceIff | go-consumer/wa-shared/dispatch/enqueuer.go:165-190 | repeating an accepted send at once is recognised exactly when, before the first call, it did not fit an open task |
| Repeats.MergedTwiceIff | go-consumer/wa-shared/dispatch/enqueuer.go:326-431 | a merged send repeated at once is merged again exactly when the group has a second place, the task the lead and the room and no call fails, and its text is then there twice |
| Repeats.MergedRepeatRun | go-consumer/wa-shared/dispatch/enqueuer.go:326-431 | a run from the empty system in which a repeat is accepted and its text queued twice, for every pair of sends to one recipient |
| Repeats.SilentLossRun | go-consumer/wa-shared/dispatch/enqueuer.go:411-413 | a run from the empty system in which an accepted text is lost and nobody is told |
| Repeats.FalseAlarmRun | go-consumer/wa-shared/dispatch/enqueuer.go:419-428 | a run from the empty system in which a caller is told that the open task was lost, and it is back with both texts |
| MergeRaces.MergedTextsSurviveIff | go-consumer/wa-shared/dispatch/enqueuer.go:386-431 | in every interleaving of merges, a worker, repeats of the task's sender and failing calls, every text reported merged is in the task, in a merge's hands or with a worker throughout exactly when no command drops one |
| MergeRaces.TaskStaysSound | go-consumer/wa-shared/dispatch/enqueuer.go:386-431 | in every such run the task's text is its sender's own and some texts that went in, each once, in order |
| MergeRaces.LostOnlyAfterARepeat | go-consumer/wa-shared/dispatch/enqueuer.go:386-431 | a merge is told that the task was lost only when its re-enqueue fails or the task's sender has repeated itself |
| MergeRaces.MergesAloneSurviveIff | go-consumer/wa-shared/dispatch/enqueuer.go:386-431 | among merges whose calls answer, the task carries every merged text at the end exactly when no merge deleted a task other than the one it had read |
| MergeRaces.RepeatInTheGapRun | go-consumer/wa-shared/dispatch/enqueuer.go:386-431 | no merge overwrites another, and still a merged text is lost when the task's sender repeats itself in the gap |
| MergeRaces.RepeatIsQueued | go-consumer/wa-shared/dispatch/enqueuer.go:165-284 | that repeat is queued with its own text alone: the id is free and the group still the sender's |
| MergeRaces.OverwrittenTextRun | go-consumer/wa-shared/dispatch/enqueuer.go:386-431 | two merges both report success and the first one's text is nowhere |
| MergeRaces.AloneIsMergedInto | go-consumer/wa-shared/dispatch/enqueuer.go:386-431 | with nobody in between, the three commands are the one-step merge |
| Pools.PoolStore.CreatePool | go-consumer/wa-shared/store/pools.go:34-69 | the first session becomes main, ranks follow the list; each refusal changes nothing |
| Pools.PoolStore.MoveMain | go-consumer/wa-shared/store/pools.go:173-207 | dethrones whoever is main, retiring them on request, and crowns the target, in one transaction |
| Pools.PoolStore.Promote | go-consumer/wa-shared/store/pools.go:143-145 | moves main and retires the old one |
| Pools.PoolStore.Handover | go-consumer/wa-shared/store/pools.go:159-161 | moves main and retires nobody |
| Pools.PoolStore.Disqualify | go-consumer/wa-shared/store/pools.go:214-221 | retires one member, which stops being main |
| Pools.PoolStore.Reinstate | go-consumer/wa-shared/store/pools.go:226-237 | forgives one member without making it main |
| Pools.PoolStore.AddMember | go-consumer/wa-shared/store/pools.go:241-257 | appends a new member at the next rank, main only in an empty pool |
| Pools.PoolStore.RemoveMember | go-consumer/wa-shared/store/pools.go:272-293 | removes a member that is not main |
| Pools.PoolStore.DeletePool | go-consumer/wa-shared/store/pools.go:263-268 | removes one sender's pool |
| Pools.PoolStore.Rotate | go-consumer/wa-shared/store/pools.go:360-382 | promotes a backup when main failed and one is eligible, otherwise retires the failed session |
| PoolRuns.ReachablePoolsAreSound | go-consumer/wa-shared/store/pools.go:34-382 | in every run at most one main, distinct sessions, distinct ranks |
| PoolRuns.MemberAfter | go-consumer/wa-shared/store/pools.go:143-382 | what becomes of a member, operation by operation: who is crowned, dethroned, retired, forgiven, removed or left alone |
| PoolRuns.MemberBefore | go-consumer/wa-shared/store/pools.go:34-257 | a member comes from a new pool or an addition, at the next rank, main only if it is the first |
| PoolRuns.CreatedIff | go-consumer/wa-shared/store/pools.go:34-69 | which refusal a new pool gets, and the members it has otherwise |
| PoolRuns.RemovedIff | go-consumer/wa-shared/store/pools.go:272-293 | a removal is refused exactly for main and for a session that is no member |
| PoolRuns.MovedIff | go-consumer/wa-shared/store/pools.go:173-237 | moving main and forgiving are refused exactly for a session that is no member |
| PoolRuns.MainStaysTrustedIff | go-consumer/wa-shared/store/pools.go:159-207 | one operation leaves main undisqualified exactly when it is not a handover to a disqualified member |
| PoolRuns.MainIsTrusted | go-consumer/wa-shared/store/pools.go:159-382 | over whole runs whose handovers target undisqualified members, main is never disqualified |
| PoolRuns.MainReturnsOnlyByMoving | go-consumer/wa-shared/store/pools.go:143-257 | a non-empty pool without main gets one only through Promote or Handover |
| PoolRuns.LostMainStaysLost | go-consumer/wa-shared/store/pools.go:214-382 | through any failures, rotations, reinstatements and additions a lost main stays lost |
| PoolRuns.PickIsTheLowestRank | go-consumer/wa-shared/store/pools.go:300-343 | the pick is the lowest-ranked member that is not the excluded one, not retired, whose circuit is not open and, on request, not main; there is one if any such member is |
| PoolRuns.RotationOfEachMember | go-consumer/wa-shared/store/pools.go:360-382 | the failed member is retired and not main, a promoted one main and trusted, nobody else changes |
| PoolRuns.RotationPromotesIff | go-consumer/wa-shared/store/pools.go:360-382 | a session is promoted exactly when main failed and it is the lowest-ranked other one that is not retired and whose circuit is not open |
| PoolRuns.HopLandsFree | go-consumer/wa-dispatcher/internal/worker/handler.go:325-353 | a hop, whatever fails in it, forgives nobody; when it finds a session it has retired the one it leaves and lands on another that is neither retired nor open |
| PoolRuns.FailoverChainsEnd | go-consumer/wa-dispatcher/internal/worker/handler.go:290-356 | one message never visits a session twice and is resent at most once per other unretired member, whatever unforgiving operations come between |
| PoolRuns.HopGivesUpIff | go-consumer/wa-dispatcher/internal/worker/handler.go:339-352 | a hop finds nobody exactly when every other member is retired or has its circuit open |
| PoolRuns.HopFindsIff | go-consumer/wa-dispatcher/internal/worker/handler.go:325-353 | a hop finds exactly the lowest-ranked other session that is not retired and whose circuit is not open, whether or not main failed |
| PoolRuns.ReinstatingReopensTheChain | go-consumer/wa-shared/store/pools.go:226-237 | with a reinstatement in between a chain visits a session twice |
| Routing.FirstConnectedMember | go-consumer/wa-consumer-api/internal/api/pool_routing.go:214-263 | for every order in which the probes finish, the answer is the rank-order sequential walk's |
| Routing.ProbeAll | go-consumer/wa-consumer-api/internal/api/pool_routing.go:232-252 | every candidate's own place holds its own answer, whatever the order |
| Routing.WalkFindsTheLowestRank | go-consumer/wa-consumer-api/internal/api/pool_routing.go:214-263 | the walk answers the lowest-ranked member that is not the failed one, not retired, not open and answered connected or failed for the probe's own reason; one logged out or out of time is passed over |
| Routing.RotateToConnectedMember | go-consumer/wa-consumer-api/internal/api/pool_routing.go:179-199 | hands main over to the walked member when the failed one was main; answers nobody if that member has gone or the handover reports an error, done or not |
| Routing.HealthPathKeepsVerdicts | go-consumer/wa-consumer-api/internal/api/pool_routing.go:179-263 | the health path changes no disqualified flag, rank or session, even on a stale snapshot, and nothing at all when the handover is refused |
| Routing.FreshHandoverCrownsTheWalked | go-consumer/wa-consumer-api/internal/api/pool_routing.go:179-199 | on a fresh snapshot a handover that takes effect leaves exactly one main, the walked member, trusted and not the failed one |
| Routing.StaleHandoverCrownsTheRetired | go-consumer/wa-shared/store/pools.go:147-161 | the promise fails: a member disqualified after the snapshot was read is crowned |
| Failover.Worker.FailoverPooled | go-consumer/wa-dispatcher/internal/worker/handler.go:290-399 | handles exactly a circuit-tripping failure of a pooled sender whose pool can be read: row failed for good, failure counted, one hop, one resend through the session it found, each of which may fail |
| Failover.Worker.TakeHop | go-consumer/wa-dispatcher/internal/worker/handler.go:325-353 | rotation and second look are the hop, ended by a rotation that reports an error, done or not, or by a pool that cannot be read again |
| Failover.Worker.ResendVia | go-consumer/wa-dispatcher/internal/worker/handler.go:363-399 | the text is enqueued again exactly when there is an enqueuer and the original row can be read and exists |
| Failover.Worker.RecordFailure | go-consumer/wa-dispatcher/internal/worker/handler.go:215-277 | a failure not failed over is retried or final on the same session, and it touches nothing but its row and circuit |
| Failover.Worker.ProcessTask | go-consumer/wa-dispatcher/internal/worker/handler.go:150-213 | an undecodable task is dropped with nothing touched; otherwise the attempt goes on record before the send, success marks the row and clears the failure count, each write answering or failing; once on record, done is seen sent, a retry queued and anything else failed |
| Failover.FailoverMovesOn | go-consumer/wa-dispatcher/internal/worker/handler.go:290-356 | one more failure is counted, the session left is retired and not main, and the session found is the lowest-ranked other that is not retired and, with that failure counted, not open |
| Failover.FailureStaysHome | go-consumer/wa-dispatcher/internal/worker/handler.go:215-277 | a failure not failed over leaves pool and queue alone and is counted exactly when it trips |
| Failover.DeliveryClears | go-consumer/wa-dispatcher/internal/worker/handler.go:190-205 | a delivery clears the count and touches nothing else but the message's row |
| Failover.AttemptIsSeen | go-consumer/wa-dispatcher/internal/worker/handler.go:171-175 | before the send the attempt is on record: one more, and seen as being sent |
| Failover.FailureIsSeen | go-consumer/wa-dispatcher/internal/worker/handler.go:215-277 | a recorded failure is seen failed exactly when it is for good, and queued otherwise |
| Failover.SentIsSeen | go-consumer/wa-dispatcher/internal/worker/handler.go:190-199 | a recorded delivery is seen sent |
| Failover.FailedOverIsSeenFailed | go-consumer/wa-dispatcher/internal/worker/handler.go:290-399 | a message that failed over is seen failed, its resend being another message |
| Failover.OpenMembersIff | go-consumer/wa-dispatcher/internal/worker/handler.go:402-407 | a member counts as open exactly when its state is there and both its keys can be read |
| Failover.ResendCarries | go-consumer/wa-dispatcher/internal/worker/handler.go:382-394 | a resend carries everything of the failed message but its session, key and id, and names it |
| Failover.ResendKeepsTheAddress | go-consumer/wa-dispatcher/internal/worker/handler.go:363-399 | the resend goes to another session with the same recipient, lane and text, and passes validation |
| Failover.ResendIsLinkedIff | go-consumer/wa-dispatcher/internal/worker/handler.go:358-399 | the accepted resend's row names the failed message exactly when it did not, before the call, fit an open task; when it did, no row says so |
| Failover.UnlinkedResendRun | go-consumer/wa-dispatcher/internal/worker/handler.go:358-399 | a run from the empty system: a pooled message is queued, taken and fails over to the backup session, its resend joins the task open there, and no row names it |
| Breaker.CircuitBreaker.Failure | go-consumer/wa-shared/circuit/breaker.go:100-155 | counts the failure and, at the threshold, opens a closed circuit and pauses the lanes that do not refuse, unless the reply is lost |
| Breaker.CircuitBreaker.Success | go-consumer/wa-shared/circuit/breaker.go:157-165 | clears the failure count |
| Breaker.CircuitBreaker.Open | go-consumer/wa-shared/circuit/breaker.go:167-211 | opens a closed circuit; a manual pause takes over an automatic one and nothing else is overwritten; pauses the lanes that do not refuse, unless the reply is lost |
| Breaker.CircuitBreaker.Close | go-consumer/wa-shared/circuit/breaker.go:213-239 | removes both keys, unpauses the lanes that do not refuse between the two deletions, and says whether the circuit was open; a failed deletion ends it there, done or not |
| Breaker.States | go-consumer/wa-shared/circuit/breaker.go:262-295 | for any list with repeats and empties: exactly the distinct non-empty ids, each as State reports it on the same snapshot, two keys an id, an error exactly when one single read fails |
| Breaker.BothKeys | go-consumer/wa-shared/circuit/breaker.go:262-277 | the first pass keeps each distinct non-empty id once with both its keys |
| Breaker.KeysApart | go-consumer/wa-shared/circuit/breaker.go:97-98 | for any ids: two sessions share no key exactly when neither id is the other's with ":failures", and never a state key, failure key or lane of their own kind |
| Breaker.CollisionIff | go-consumer/wa-shared/circuit/breaker.go:97-98 | one session's state key is another's failure key exactly when its id is the other's followed by ":failures" |
| Breaker.ReachesAllIff | go-consumer/wa-shared/circuit/breaker.go:325-341 | the calls reach every lane exactly when none of the three refuses |
| Watcher.HealthWatcher.Poll | go-consumer/wa-shared/circuit/watcher.go:98-124 | a failed poll clears every streak; another evaluates every configured session in order on its last view |
| Watcher.HealthWatcher.EvaluateOne | go-consumer/wa-shared/circuit/watcher.go:126-157 | unreadable state is passed over, closed, manual or unhealthy drops the streak, a full one closes the circuit |
| CircuitRuns.ReachableCircuitsAreSound | go-consumer/wa-shared/circuit/breaker.go:97-239 | in every run free of colliding ids: what the keys hold can be read back and streaks stay below HealthyPolls; throughout it lanes are paused exactly while open and a closed circuit has fewer than the threshold's failures counted, exactly when no step unsettles the session |
| CircuitRuns.StepSettlesIff | go-consumer/wa-shared/circuit/breaker.go:100-239 | a step parts a session's lanes from its circuit, or leaves a full counter behind, exactly when it is a tripping failure or an opening that falls short, or a close that leaves something behind, all known before it |
| CircuitRuns.UnheardPauseRun | go-consumer/wa-shared/circuit/breaker.go:325-332 | a manual pause is answered although no lane is paused |
| CircuitRuns.CloseStrandsLane | go-consumer/wa-shared/circuit/breaker.go:213-239 | a close that misses a paused lane leaves it paused under a closed circuit, through any later polls |
| CircuitRuns.OthersUntouched | go-consumer/wa-shared/circuit/breaker.go:97-239 | a step on one session leaves the keys, lanes and streak of every other as they were, unless the two ids collide |
| CircuitRuns.OverlappingPauseBreaks | go-consumer/wa-shared/circuit/breaker.go:97-211 | when they do collide, a pause of the one makes the other's state unreadable and its failures uncountable |
| CircuitRuns.CountIsTheFailureRun | go-consumer/wa-shared/circuit/breaker.lua:14-25 | the counter is the number of failures that reached Redis since the last success, expiry, resume or automatic close |
| CircuitRuns.TripsOnTheThresholdFailure | go-consumer/wa-shared/circuit/breaker.lua:14-25 | an answered failure reports that it opened the circuit exactly when the circuit was closed and it completes a run of at least the threshold's length, of that very length while no step unsettled the session |
| CircuitRuns.ToldAfterFailure | go-consumer/wa-shared/circuit/breaker.go:100-155 | what the state endpoint tells after a failure, and what the caller is told |
| CircuitRuns.ToldAfterOpen | go-consumer/wa-shared/circuit/breaker.go:167-211 | what the state endpoint tells after an opening: who takes over what, with which reason, code and time |
| CircuitRuns.ToldAfterClose | go-consumer/wa-shared/circuit/breaker.go:213-239 | what the state endpoint tells after a close, and what a close that could not delete the state leaves |
| CircuitRuns.NamelessIsRefused | go-consumer/wa-shared/circuit/breaker.go:100-245 | every operation refuses an empty session id and changes nothing |
| CircuitRuns.PauseOutlastsEverything | go-consumer/wa-shared/circuit/breaker.go:167-211 | an answered manual pause, whatever it was laid over, keeps its state and stamp until a person resumes; a lane is paused exactly when it was before or that pause or a later one reached it |
| CircuitRuns.StreakIsTheRun | go-consumer/wa-shared/circuit/watcher.go:126-157 | the kept streak is the length of the run of qualifying readings modulo HealthyPolls |
| CircuitRuns.ClosesExactlyOnAFullRun | go-consumer/wa-shared/circuit/watcher.go:140-157 | a reading closes a circuit exactly when the deletion takes effect and it completes a full run of healthy readings of an open, non-manual circuit with no failed poll among them |
| CircuitRuns.ReadingsToClose | go-consumer/wa-shared/circuit/watcher.go:140-157 | an open circuit takes HealthyPolls healthy readings less the streak it finds |
| CircuitRuns.OneLuckyPollCloses | go-consumer/wa-shared/circuit/watcher.go:30-40 | a run in which a circuit that has just tripped is closed by one healthy reading |
| LaneRaces.LanesFollowIff | go-consumer/wa-shared/circuit/breaker.go:100-239 | in every interleaving of the commands of any operations: a lane nobody has left to touch is out of step with its circuit exactly when the last command to settle it was late, refused or missing |
| LaneRaces.LatePausesStrand | go-consumer/wa-shared/circuit/breaker.go:100-239 | a close between an opening's script and its pauses leaves the circuit closed and its lanes paused, every call answering |
| LaneRaces.LateUnpausesRelease | go-consumer/wa-shared/circuit/breaker.go:167-239 | an opening between a close's deletion and its unpauses leaves the circuit open and its lanes running, every call answering |
| LaneRaces.PauseAndResumeMeet | go-consumer/wa-shared/circuit/breaker.go:167-239 | both are reached from an idle breaker by a pause by hand and a resume |
| LaneRaces.PauseStandsIff | go-consumer/wa-shared/circuit/watcher.go:126-157 | until somebody resumes, a manual pause stands throughout exactly when nobody deletes the state, and only one who had decided to before can |
| LaneRaces.WatcherUndoesPauseRun | go-consumer/wa-shared/circuit/watcher.go:126-157 | a run in which the watcher deletes a manual pause that was answered after it had read the tripped state |
| LaneRaces.AloneIsAfterFailure | go-consumer/wa-shared/circuit/breaker.go:100-155 | with nobody in between, the commands of a Failure are the one-step operation |
| LaneRaces.AloneIsAfterOpen | go-consumer/wa-shared/circuit/breaker.go:167-211 | with nobody in between, the commands of an Open are the one-step operation |
| LaneRaces.AloneIsAfterClose | go-consumer/wa-shared/circuit/breaker.go:213-239 | with nobody in between, the commands of a Close are the one-step operation |
| Ids.Encode | go-consumer/wa-shared/id/id.go:26-53 | the loops write exactly the base-32 digits of the big-endian number, ceil(8n/5) of them |
| Ids.TakeByte | go-consumer/wa-shared/id/id.go:33-43 | a byte enters above the accumulator's bits without overlap and whole digits leave below |
| Ids.Front | go-consumer/wa-shared/id/id.go:44-53 | the left-over bits become the top digit and the rest zeros |
| Ids.LettersAreTheAlphabet | go-consumer/wa-shared/id/id.go:8-76 | the valid characters are exactly the alphabet's, each standing for its place in it |
| Ids.EncodedIsTheNumber | go-consumer/wa-shared/id/id.go:26-65 | encoding keeps the number, fits the length, and is valid when non-empty |
| Ids.EncodingKeepsOrder | go-consumer/wa-shared/id/id.go:26-53 | injective and order-preserving on equal lengths |
| Ids.OnlyEncoding | go-consumer/wa-shared/id/id.go:26-53 | no other valid string of that length writes the number |
| Secrets.New | go-consumer/wa-shared/id/id.go:10-18 | six time bytes and ten random ones, encoded behind the prefix |
| Secrets.IdsSortByTime | go-consumer/wa-shared/id/id.go:10-18 | ids of one prefix sort by millisecond, whatever the random bytes |
| Secrets.RecognisedIffGenerated | go-consumer/wa-shared/auth/key.go:59-91 | a secret is recognised for an environment exactly when it could have been generated there |
| Cursors.BytesRoundTrip | go-consumer/wa-shared/store/messages.go:120-132 | unpadded base64url of section 5 of RFC 4648 decodes to what was encoded |
| Cursors.CursorRoundTripIff | go-consumer/wa-shared/store/messages.go:120-146 | a cursor comes back from its encoding exactly when it points at a row, and is refused otherwise |
| Cursors.DecodesIff | go-consumer/wa-shared/store/messages.go:124-132 | what decodes: characters of the alphabet only, not one over groups of four |
| Cursors.BreaksDoNotMatter | go-consumer/wa-shared/store/messages.go:124-132 | line breaks in a cursor do not change what it decodes to |
| Cursors.IntParsesIff | go-consumer/wa-shared/store/messages.go:132-146 | what is read as an integer: digits after one sign or none, with a value of 64 bits |
| Paging.ListMessages | go-consumer/wa-shared/store/messages.go:151-225 | refuses a missing key; otherwise a prefix of the selection, up to the clamped limit, and more is said exactly when it is proper |
| Paging.HandleListMessages | go-consumer/wa-consumer-api/internal/api/reads.go:92-124 | the page, whether there is more, and the cursor of its last row exactly then |
| Paging.LimitOf | go-consumer/wa-shared/store/messages.go:191-197 | between 1 and 200, and the caller's own limit when it is in that range |
| Paging.SelectedIsTheMatches | go-consumer/wa-shared/store/messages.go:156-205 | the query selects exactly the key's matching rows past the cursor, each once, newest first |
| Paging.ListedIff | go-consumer/wa-shared/store/messages.go:156-205 | which rows are listed, constraint by constraint, on the rows themselves |
| Paging.OtherKeysDoNotShow | go-consumer/wa-shared/store/messages.go:148-156 | a page is the same whatever other keys' rows there are, and every row on it is the key's |
| Paging.FollowedPagesAreOwn | go-consumer/wa-shared/store/messages.go:148-225 | so are all the pages followed from it |
| Paging.NextPage | go-consumer/wa-consumer-api/internal/api/reads.go:119-122 | a page's cursor parses and selects exactly the rows after the page |
| Paging.FollowingListsEveryMatchOnce | go-consumer/wa-shared/store/messages.go:148-225 | following next_cursor ends; the pages together are every match once in order, all but the last full, has_more false exactly on the last |
| Paging.NewerRowsDoNotDisturb | go-consumer/wa-shared/store/messages.go:104-107 | a page depends only on matching rows past its cursor, so newer messages neither repeat nor hide a row |
| Webhooks.Backoff | go-consumer/wa-shared/notify/deliverer.go:62-74 | 30 seconds doubled for every failure after the first, at most 30 minutes |
| Webhooks.WaitsBetweenTheAttempts | go-consumer/wa-shared/notify/deliverer.go:59-74 | the four waits between five attempts sum to 450 seconds |
| Webhooks.StaleRecordRevives | go-consumer/wa-shared/store/webhooks.go:221-235 | with two deliverers a record made on an outlived lease puts a dead event back as pending, with six attempts |
| Webhooks.WebhookStore.EnqueueEvent | go-consumer/wa-shared/store/webhooks.go:129-139 | a new row exactly when the webhook has none for that message and kind |
| Webhooks.WebhookStore.ClaimDueEvents | go-consumer/wa-shared/store/webhooks.go:166-204 | leases for twenty seconds up to the limit of the earliest pending events that are due and whose webhook is enabled, all of them if they fit, and touches no other row |
| Webhooks.PickEarliest | go-consumer/wa-shared/store/webhooks.go:168-177 | as many as the limit allows, none later than one left out |
| Webhooks.WebhookStore.MarkEventDelivered | go-consumer/wa-shared/store/webhooks.go:206-216 | delivered, one more attempt, error cleared |
| Webhooks.WebhookStore.MarkEventFailed | go-consumer/wa-shared/store/webhooks.go:221-235 | one more attempt, pending at the retry time or dead |
| Webhooks.WebhookStore.DeadLetterDisabledEvents | go-consumer/wa-shared/store/webhooks.go:252-272 | retires up to the limit of the earliest pending events that are due and whose webhook is disabled, all of them if they fit, attempts untouched |
| Webhooks.WebhookStore.ReplayEvent | go-consumer/wa-shared/store/webhooks.go:275-294 | a dead event, and only a dead one, is pending again with no attempts |
| Webhooks.Deliver | go-consumer/wa-shared/notify/deliverer.go:205-248 | one post is recorded as delivered, as a retry after its backoff, or as dead at the fifth attempt |
| Webhooks.RecordedOutcome | go-consumer/wa-shared/notify/deliverer.go:205-248 | what a recorded post leaves: one more attempt, the delivery with its code and time, or the failure, dead after the fifth and otherwise waiting 30, 60, 120 and 240 seconds |
| Webhooks.Tick | go-consumer/wa-shared/notify/deliverer.go:134-146 | one batch: claimed events posted in any order, each recorded once at the time its post was answered, until the batch or the process ends; the rest stay leased and no other event is touched |
| Webhooks.RetireSweep | go-consumer/wa-shared/notify/deliverer.go:184-203 | retires exactly the smaller of the backlog and 100000 events, each once, none left when the backlog fits |
| WebhookRuns.ReachableIsSound | go-consumer/wa-shared/store/webhooks.go:129-294 | in every run claims in flight are no younger than their rows and never of a delivered event |
| WebhookRuns.CountsAreKept | go-consumer/wa-shared/notify/deliverer.go:205-248 | the posts and unrecorded outcomes counted for an event are those of the run since its last replay |
| WebhookRuns.EventsKeepTheirBudget | go-consumer/wa-shared/notify/deliverer.go:205-248 | posted at most five times between replays plus once per unrecorded outcome; a pending event has attempts left |
| WebhookRuns.OverStaysOver | go-consumer/wa-shared/store/webhooks.go:206-294 | a delivered event, or a dead one with no post under way, is never written or posted again without a replay |
| WebhookRuns.OneEventPerOccasion | go-consumer/wa-shared/store/webhooks.go:126-139 | no two events ever share webhook, message and kind |
| WebhookRuns.EventsBegin | go-consumer/wa-shared/store/webhooks.go:129-139 | an event comes to be pending, due at once, with no attempt, for an occasion that has none |
| WebhookRuns.EventsEnter | go-consumer/wa-shared/store/webhooks.go:129-139 | an emitted event gets a row exactly when its occasion has none |
| WebhookRuns.EventMoves | go-consumer/wa-shared/store/webhooks.go:166-294 | everything that may happen to an event and when: leased, retired, replayed, recorded, and nothing else |
| WebhookRuns.EventsEnd | go-consumer/wa-shared/store/webhooks.go:206-294 | an event goes exactly with its webhook |
| Reconnect.SessionManager.RecordSendOutcome | baileys/src/sessions/manager.ts:129-161 | counts session faults, marks unhealthy at the fifth, clears both on success |
| Reconnect.SessionManager.DoConnect | baileys/src/sessions/manager.ts:242-275 | refuses on shutdown, unknown and logged out; otherwise a live entry, counters kept, with a socket or an error when none could be opened |
| Reconnect.SessionManager.DoRestart | baileys/src/sessions/manager.ts:194-223 | clears the timer and every counter of a live entry, or connects; a socket that cannot be opened is an error |
| Reconnect.SessionManager.OnQr | baileys/src/sessions/manager.ts:372-377 | pairing, with a code to show |
| Reconnect.SessionManager.OnOpen | baileys/src/sessions/manager.ts:379-394 | connected, both reconnect counters back to zero |
| Reconnect.SessionManager.OnClose | baileys/src/sessions/manager.ts:396-440 | nothing when asked for, logged out for good, an immediate restart up to five times, a backed-off reconnect up to ten |
| Reconnect.SessionManager.OnTimer | baileys/src/sessions/manager.ts:442-455 | opens a socket unless the session is closing; one that cannot be opened leaves the session without |
| Reconnect.RefusedIff | baileys/src/sessions/manager.ts:194-507 | which requests are refused, and why, before anything is touched |
| Reconnect.EntriesComeAndGo | baileys/src/sessions/manager.ts:194-555 | an entry is made by a connect or a restart with nothing counted and goes with a reset, a deletion or a shutdown |
| Reconnect.RowFollows | baileys/src/sessions/manager.ts:194-535 | the stored status follows the live one, or the request that ended it |
| Reconnect.StatusMoves | baileys/src/sessions/manager.ts:129-520 | the live status after every step |
| Reconnect.SocketMoves | baileys/src/sessions/manager.ts:194-520 | when a session has a socket, is closing, and has a code to show |
| Reconnect.TimerMoves | baileys/src/sessions/manager.ts:396-455 | when a reconnect is pending and after how long, and what counts as one |
| Reconnect.LoggedOutStaysOut | baileys/src/sessions/manager.ts:194-535 | a logged-out session stays so over any run without a reset or a deletion |
| Reconnect.BackoffWithinAFifth | baileys/src/sessions/manager.ts:570-573 | every wait is within a fifth of 2 seconds doubled per attempt and capped at five minutes, up to rounding, and nominal waits never shrink |
| Reconnect.NominalDoubles | baileys/src/sessions/manager.ts:570-573 | the nominal wait is two seconds, doubled each time and never more than five minutes |
| Reconnect.ReconnectsAreBounded | baileys/src/sessions/manager.ts:396-455 | since the last open or explicit restart: one reconnect for each of the first ten drops and first five restart demands, so at most fifteen |
| Reconnect.UnhealthyMeansFiveFaults | baileys/src/sessions/manager.ts:129-161 | unhealthy only after at least five session faults without a success, and marked so exactly on a connected session's fifth or later |

## Left out

- HTTP handlers, authentication, problem responses, JSON, logging, metrics, configuration, the Laravel SDK and the console: plumbing and user interface.
- The slot allocator and the rate limiter: an allocated slot is a parameter of Enqueue.
- SHA-256: a digest is identified with the bytes hashed, which is collision-freedom; a resend's caller key, which embeds a digest, is therefore a parameter.
- Claim ids are request numbers, and message, event and task names that the source draws at random are fresh parameters.
- The claim statement's "row vanished between upsert and read" answer, a race inside one database snapshot.
- Interleavings inside Rotate, AddMember and failoverPooled, which read and write without one transaction: each is one step. Enqueue is two steps with anything between them; the commands of a merge are interleaved in MergeRaces, for one open task.
- CircuitRuns.ReachableCircuitsAreSound: Failure, Open, Close and evaluate are one step there and in the other runs of CircuitRuns; LaneRaces interleaves their commands, for the lanes and for a manual pause, without the watcher's streaks and the failure count.
- DispatchRuns.TasksCarryTheirTexts: a look with its merge is one step there, as in QueuedTextIsHoused; with others acting between the commands of a merge, texts can be dropped, exactly as MergeRaces.MergedTextsSurviveIff says.
- Errors of Enqueue that stop it before anything is written (JSON encoding, slot storage) are the missing slot or an unreadable look-up.
- Empty session ids in pools, which the source uses as "nobody": None stands for that.
- Several deliverers at once: the budget is proved for one, and Webhooks.StaleRecordRevives shows why. Deleting an event's row while it is being posted is modelled.
- Webhook signing, the HTTP exchange, and the text of a delivery error.
- resolveSendSession, round robin, senderVerdict and the batch memo: routing that only chooses which of the modelled calls to make.
- manual.go's Requeue, and the single-message reads.
- Ids.Encode: shifts, masks and OR are arithmetic on integers, with the disjointness that makes OR a sum proved.
- Paging.ListMessages: creation times are nanoseconds that fit 64 bits, as UnixNano requires; the SQL text is the predicate it spells.
- Breaker.States: a short reply from Redis is not modelled. A stored value is what its two readers make of it, not its JSON bytes.
- Reconnect.BackoffWithinAFifth: reals, not doubles.
- Of a gateway entry, the QR text, phone number, credentials and time stamps.
- Reconnect.SessionManager.OnClose: a handler runs as one step although the source awaits its database writes; one session is modelled, the others being independent of it.
- go-consumer/wa-shared/dispatch/manual.go and the gateway's claimSend are not part of this model.
