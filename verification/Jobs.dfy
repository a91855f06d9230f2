/** The wa_jobs and wa_job_attempts tables and every statement that writes them
    (wa-shared/store/store.go, wa-shared/store/messages.go). */
module Jobs {
  import opened Options

  datatype Status = Scheduled | Sending | Sent | Retrying | Failed | Cancelled

  const ENQUEUE_FAILED_CODE := "dispatcher_enqueue_failed"

  /** What a writer knows about a message; "" means it does not know. */
  datatype Job = Job(
    key: string, sessionId: string, to: string, sourceRef: string, publicId: string, apiKeyId: string,
    sender: string, priority: string, metadata: map<string, string>, waMessageId: string, failoverOf: string)

  datatype Row = Row(
    sessionId: string, to: string, sourceRef: Option<string>, status: Status, attempts: nat,
    publicId: Option<string>, apiKeyId: Option<string>, sender: Option<string>, priority: Option<string>,
    metadata: Option<map<string, string>>, failoverOf: Option<string>, coalescedRefs: seq<string>,
    waMessageId: Option<string>, scheduledFor: Option<int>, lastErrorCode: Option<string>, lastErrorAt: Option<int>,
    sendingAt: Option<int>, sentAt: Option<int>, deliveredAt: Option<int>, readAt: Option<int>,
    cancelledAt: Option<int>, failedAt: Option<int>)

  datatype Attempt = Attempt(outcome: Status, errorCode: Option<string>, at: int)

  /** jobs by idempotency key; history by (idempotency key, attempt number). */
  datatype Ledger = Ledger(jobs: map<string, Row>, history: map<(string, nat), Attempt>)

  function Nullable(s: string): Option<string> {
    if s == "" then None else Some(s)
  }

  function MetadataOf(j: Job): Option<map<string, string>> {
    if |j.metadata| == 0 then None else Some(j.metadata)
  }

  /** The columns every insert fills, with the others at their defaults. */
  function Inserted(j: Job, status: Status): Row {
    Row(j.sessionId, j.to, Nullable(j.sourceRef), status, 0, None, None, None, None, None, None, [],
        None, None, None, None, None, None, None, None, None, None)
  }

  // ---------------------------------------------------------------- MarkScheduled

  function FirstScheduled(j: Job, at: int): Row {
    Inserted(j, Scheduled).(
      scheduledFor := Some(at), publicId := Nullable(j.publicId), apiKeyId := Nullable(j.apiKeyId),
      sender := Nullable(j.sender), priority := Nullable(j.priority), metadata := MetadataOf(j),
      failoverOf := Nullable(j.failoverOf))
  }

  /** A row the enqueuer wrote for a send that never reached the queue. */
  predicate NeverQueued(row: Row) {
    row.status == Failed && row.lastErrorCode == Some(ENQUEUE_FAILED_CODE) && row.sentAt.None?
  }

  function TakenOver(row: Row, j: Job, at: int): Row {
    row.(status := Scheduled, scheduledFor := Some(at), sessionId := j.sessionId, to := j.to,
         sourceRef := Coalesce(Nullable(j.sourceRef), row.sourceRef),
         publicId := Coalesce(Nullable(j.publicId), row.publicId),
         apiKeyId := Coalesce(Nullable(j.apiKeyId), row.apiKeyId),
         sender := Coalesce(Nullable(j.sender), row.sender),
         priority := Coalesce(Nullable(j.priority), row.priority),
         metadata := Coalesce(MetadataOf(j), row.metadata),
         failoverOf := Coalesce(Nullable(j.failoverOf), row.failoverOf),
         lastErrorCode := None, lastErrorAt := None, failedAt := None)
  }

  function AfterMarkScheduled(l: Ledger, j: Job, at: int): Ledger {
    if j.key !in l.jobs then l.(jobs := l.jobs[j.key := FirstScheduled(j, at)])
    else if NeverQueued(l.jobs[j.key]) then l.(jobs := l.jobs[j.key := TakenOver(l.jobs[j.key], j, at)])
    else l
  }

  /** "" when no row carries one. */
  function PublicIdFor(l: Ledger, key: string): string {
    if key in l.jobs && l.jobs[key].publicId.Some? then l.jobs[key].publicId.value else ""
  }

  // ---------------------------------------------------------------- the worker's writes

  function RowFor(l: Ledger, j: Job, status: Status): Row {
    if j.key in l.jobs then l.jobs[j.key] else Inserted(j, status).(attempts := 1)
  }

  function AfterBeginAttempt(l: Ledger, j: Job, now: int): Ledger {
    var row := RowFor(l, j, Sending);
    l.(jobs := l.jobs[j.key := row.(
      status := Sending,
      attempts := if j.key in l.jobs then row.attempts + 1 else 1,
      sendingAt := Coalesce(row.sendingAt, Some(now)))])
  }

  function AfterMarkSent(l: Ledger, j: Job, at: int): Ledger {
    var row := RowFor(l, j, Sent).(status := Sent, sentAt := Some(at));
    var written := row.(waMessageId := Coalesce(Nullable(j.waMessageId), row.waMessageId));
    Ledger(l.jobs[j.key := written], l.history[(j.key, row.attempts) := Attempt(Sent, None, at)])
  }

  function AfterMarkFailed(l: Ledger, j: Job, code: string, permanent: bool, at: int): Ledger {
    var status := if permanent then Failed else Retrying;
    var row := RowFor(l, j, status);
    var written := row.(status := status, lastErrorCode := Nullable(code), lastErrorAt := Some(at),
                        failedAt := if permanent then Some(at) else row.failedAt);
    Ledger(l.jobs[j.key := written], l.history[(j.key, row.attempts) := Attempt(Failed, Nullable(code), at)])
  }

  // ---------------------------------------------------------------- coalescing, requeueing, cancelling

  function AfterMarkCoalesced(l: Ledger, key: string, sourceRef: string): Ledger {
    if sourceRef == "" || key !in l.jobs then l
    else
      var row := l.jobs[key];
      if row.sourceRef == Some(sourceRef) || sourceRef in row.coalescedRefs then l
      else l.(jobs := l.jobs[key := row.(coalescedRefs := row.coalescedRefs + [sourceRef])])
  }

  function AfterMarkRequeued(l: Ledger, j: Job, at: int): Ledger {
    var row := if j.key in l.jobs then l.jobs[j.key] else Inserted(j, Scheduled);
    l.(jobs := l.jobs[j.key := row.(status := Scheduled, scheduledFor := Some(at))])
  }

  function AfterMarkCancelled(l: Ledger, key: string): Ledger {
    if key in l.jobs && l.jobs[key].status != Sent
    then l.(jobs := l.jobs[key := l.jobs[key].(status := Cancelled)])
    else l
  }

  predicate Cancellable(row: Row) {
    row.status == Scheduled || row.status == Retrying
  }

  predicate Addressed(row: Row, apiKeyId: string, publicId: string) {
    row.publicId == Some(publicId) && row.apiKeyId == Some(apiKeyId)
  }

  function AfterCancel(l: Ledger, apiKeyId: string, publicId: string, at: int): Ledger {
    l.(jobs := map key | key in l.jobs ::
      var row := l.jobs[key];
      if Addressed(row, apiKeyId, publicId) && Cancellable(row)
      then row.(status := Cancelled, cancelledAt := Some(at)) else row)
  }

  // ---------------------------------------------------------------- receipts

  datatype Receipt = ReceiptDelivered | ReceiptRead | ReceiptFailed

  predicate Moves(row: Row, kind: Receipt) {
    row.status == Sent &&
    match kind
    case ReceiptDelivered => row.deliveredAt.None?
    case ReceiptRead => row.readAt.None?
    case ReceiptFailed => true
  }

  function Received(row: Row, kind: Receipt, at: int, code: string): Row {
    if !Moves(row, kind) then row
    else
      match kind
      case ReceiptDelivered => row.(deliveredAt := Some(at))
      case ReceiptRead => row.(readAt := Some(at), deliveredAt := Coalesce(row.deliveredAt, Some(at)))
      case ReceiptFailed =>
        row.(status := Failed, failedAt := Some(at), lastErrorCode := Nullable(code), lastErrorAt := Some(at))
  }

  function AfterReceipt(l: Ledger, waMessageId: string, kind: Receipt, at: int, code: string): Ledger {
    l.(jobs := map key | key in l.jobs ::
      if l.jobs[key].waMessageId == Some(waMessageId) then Received(l.jobs[key], kind, at, code) else l.jobs[key])
  }

  predicate Matches(jobs: map<string, Row>, waMessageId: string) {
    exists key | key in jobs :: jobs[key].waMessageId == Some(waMessageId)
  }

  predicate Changes(jobs: map<string, Row>, waMessageId: string, kind: Receipt) {
    exists key | key in jobs :: jobs[key].waMessageId == Some(waMessageId) && Moves(jobs[key], kind)
  }

  // ---------------------------------------------------------------- the store

  datatype CancelOutcome = CancelDone | NotCancellable | NotFound

  datatype ReceiptOutcome = Applied(changed: bool) | UnknownMessage

  /** The unique index on public_id. */
  ghost predicate PublicIdsUnique(jobs: map<string, Row>) {
    forall a, b | a in jobs && b in jobs && jobs[a].publicId.Some? && jobs[a].publicId == jobs[b].publicId :: a == b
  }

  class JobStore {
    var jobs: map<string, Row>
    var history: map<(string, nat), Attempt>

    function View(): Ledger
      reads this
    {
      Ledger(jobs, history)
    }

    constructor ()
      ensures View() == Ledger(map[], map[])
    {
      jobs, history := map[], map[];
    }

    /** One upsert returning the public id the row ends up carrying. */
    method MarkScheduled(j: Job, at: int) returns (publicId: string)
      modifies this`jobs
      ensures View() == AfterMarkScheduled(old(View()), j, at)
      ensures publicId == PublicIdFor(View(), j.key)
    {
      if j.key !in jobs {
        jobs := jobs[j.key := FirstScheduled(j, at)];
      } else if NeverQueued(jobs[j.key]) {
        jobs := jobs[j.key := TakenOver(jobs[j.key], j, at)];
      }
      var stored := jobs[j.key].publicId;
      return if stored.None? then "" else stored.value;
    }

    method BeginAttempt(j: Job, now: int) returns (attempts: nat)
      modifies this`jobs
      ensures View() == AfterBeginAttempt(old(View()), j, now)
      ensures j.key in jobs && attempts == jobs[j.key].attempts
    {
      if j.key !in jobs {
        jobs := jobs[j.key := Inserted(j, Sending).(attempts := 1, sendingAt := Some(now))];
      } else {
        var row := jobs[j.key];
        jobs := jobs[j.key := row.(status := Sending, attempts := row.attempts + 1,
                                   sendingAt := Coalesce(row.sendingAt, Some(now)))];
      }
      attempts := jobs[j.key].attempts;
    }

    method MarkSent(j: Job, at: int)
      modifies this
      ensures View() == AfterMarkSent(old(View()), j, at)
    {
      var row := if j.key in jobs then jobs[j.key] else Inserted(j, Sent).(attempts := 1);
      row := row.(status := Sent, sentAt := Some(at));
      if j.waMessageId != "" {
        row := row.(waMessageId := Some(j.waMessageId));
      }
      jobs := jobs[j.key := row];
      history := history[(j.key, row.attempts) := Attempt(Sent, None, at)];
    }

    method MarkFailed(j: Job, code: string, permanent: bool, at: int)
      modifies this
      ensures View() == AfterMarkFailed(old(View()), j, code, permanent, at)
    {
      var status := Retrying;
      if permanent {
        status := Failed;
      }
      var row := if j.key in jobs then jobs[j.key] else Inserted(j, status).(attempts := 1);
      row := row.(status := status, lastErrorCode := Nullable(code), lastErrorAt := Some(at));
      // failed_at is stamped on the terminal failure only.
      if status == Failed {
        row := row.(failedAt := Some(at));
      }
      jobs := jobs[j.key := row];
      history := history[(j.key, row.attempts) := Attempt(Failed, Nullable(code), at)];
    }

    method MarkCoalesced(key: string, sourceRef: string) returns (publicId: string)
      modifies this`jobs
      ensures View() == AfterMarkCoalesced(old(View()), key, sourceRef)
      ensures publicId == PublicIdFor(View(), key)
    {
      if sourceRef != "" && key in jobs {
        var row := jobs[key];
        if row.sourceRef != Some(sourceRef) && sourceRef !in row.coalescedRefs {
          jobs := jobs[key := row.(coalescedRefs := row.coalescedRefs + [sourceRef])];
        }
      }
      publicId := PublicIdFor(View(), key);
    }

    method MarkRequeued(j: Job, at: int)
      modifies this`jobs
      ensures View() == AfterMarkRequeued(old(View()), j, at)
    {
      if j.key !in jobs {
        jobs := jobs[j.key := Inserted(j, Scheduled)];
      }
      jobs := jobs[j.key := jobs[j.key].(status := Scheduled, scheduledFor := Some(at))];
    }

    method MarkCancelled(key: string)
      modifies this`jobs
      ensures View() == AfterMarkCancelled(old(View()), key)
    {
      if key in jobs && jobs[key].status != Sent {
        jobs := jobs[key := jobs[key].(status := Cancelled)];
      }
    }

    /** Reports done both for a message it cancelled and for one that already was. */
    method CancelByPublicID(apiKeyId: string, publicId: string, at: int) returns (outcome: CancelOutcome)
      modifies this`jobs
      ensures View() == AfterCancel(old(View()), apiKeyId, publicId, at)
      ensures outcome == NotFound <==> forall key | key in jobs :: !Addressed(jobs[key], apiKeyId, publicId)
      ensures PublicIdsUnique(old(jobs)) ==>
        (outcome == CancelDone <==>
           exists key | key in jobs :: Addressed(jobs[key], apiKeyId, publicId) && jobs[key].status == Cancelled)
      ensures outcome == CancelDone ==>
        exists key | key in jobs :: Addressed(jobs[key], apiKeyId, publicId) && jobs[key].status == Cancelled
      ensures outcome == NotCancellable ==>
        exists key | key in jobs :: Addressed(jobs[key], apiKeyId, publicId) && jobs[key].status != Cancelled
    {
      jobs := map key | key in jobs ::
        if Addressed(jobs[key], apiKeyId, publicId) && Cancellable(jobs[key])
        then jobs[key].(status := Cancelled, cancelledAt := Some(at)) else jobs[key];
      if key :| key in jobs && Addressed(jobs[key], apiKeyId, publicId) {
        outcome := if jobs[key].status == Cancelled then CancelDone else NotCancellable;
      } else {
        outcome := NotFound;
      }
    }

    method ApplyReceipt(waMessageId: string, kind: Receipt, at: int, code: string) returns (outcome: ReceiptOutcome)
      modifies this`jobs
      ensures View() == AfterReceipt(old(View()), waMessageId, kind, at, code)
      ensures outcome ==
        if !Matches(old(jobs), waMessageId) then UnknownMessage else Applied(Changes(old(jobs), waMessageId, kind))
    {
      var known := Matches(jobs, waMessageId);
      var changed := Changes(jobs, waMessageId, kind);
      jobs := map key | key in jobs ::
        if jobs[key].waMessageId == Some(waMessageId) then Received(jobs[key], kind, at, code) else jobs[key];
      outcome := if known then Applied(changed) else UnknownMessage;
    }
  }
}
