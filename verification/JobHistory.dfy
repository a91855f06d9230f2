/** What every reachable job table satisfies, and what receipts make of a sent message
    (wa-shared/store, wa-shared/message/message.go). */
module JobHistory {
  import opened Options
  import opened Jobs

  datatype Write =
    | Schedule(j: Job, at: int)
    | Begin(j: Job, at: int)
    | Send(j: Job, at: int)
    | Fail(j: Job, code: string, permanent: bool, at: int)
    | Merge(key: string, sourceRef: string)
    | Requeue(j: Job, at: int)
    | Withdraw(key: string)
    | Cancel(apiKeyId: string, publicId: string, at: int)
    | Receive(waMessageId: string, kind: Receipt, at: int, code: string)

  function Apply(l: Ledger, w: Write): Ledger {
    match w
    case Schedule(j, at) => AfterMarkScheduled(l, j, at)
    case Begin(j, at) => AfterBeginAttempt(l, j, at)
    case Send(j, at) => AfterMarkSent(l, j, at)
    case Fail(j, code, permanent, at) => AfterMarkFailed(l, j, code, permanent, at)
    case Merge(key, sourceRef) => AfterMarkCoalesced(l, key, sourceRef)
    case Requeue(j, at) => AfterMarkRequeued(l, j, at)
    case Withdraw(key) => AfterMarkCancelled(l, key)
    case Cancel(apiKeyId, publicId, at) => AfterCancel(l, apiKeyId, publicId, at)
    case Receive(id, kind, at, code) => AfterReceipt(l, id, kind, at, code)
  }

  function Exec(l: Ledger, writes: seq<Write>): Ledger
    decreases |writes|
  {
    if writes == [] then l else Exec(Apply(l, writes[0]), writes[1..])
  }

  // ---------------------------------------------------------------- every reachable table

  predicate RowOk(row: Row) {
    (row.status == Sent ==> row.sentAt.Some?) &&
    (row.status == Failed ==> row.failedAt.Some? && row.lastErrorAt.Some?) &&
    (row.status == Sending ==> row.sendingAt.Some?) &&
    (row.sendingAt.Some? ==> row.attempts >= 1) &&
    (row.readAt.Some? ==> row.deliveredAt.Some?) &&
    (row.deliveredAt.Some? ==> row.sentAt.Some?)
  }

  ghost predicate Inv(l: Ledger) {
    (forall key | key in l.jobs :: RowOk(l.jobs[key])) &&
    (forall key, n | (key, n) in l.history :: key in l.jobs && n <= l.jobs[key].attempts)
  }

  lemma EnqueueKeepsRowOk(l: Ledger, j: Job, at: int, key: string)
    requires Inv(l)
    ensures key in AfterMarkScheduled(l, j, at).jobs ==> RowOk(AfterMarkScheduled(l, j, at).jobs[key])
    ensures key in AfterMarkRequeued(l, j, at).jobs ==> RowOk(AfterMarkRequeued(l, j, at).jobs[key])
  {
  }

  lemma AttemptKeepsRowOk(l: Ledger, j: Job, code: string, permanent: bool, at: int, key: string)
    requires Inv(l)
    ensures key in AfterBeginAttempt(l, j, at).jobs ==> RowOk(AfterBeginAttempt(l, j, at).jobs[key])
    ensures key in AfterMarkSent(l, j, at).jobs ==> RowOk(AfterMarkSent(l, j, at).jobs[key])
    ensures key in AfterMarkFailed(l, j, code, permanent, at).jobs ==>
            RowOk(AfterMarkFailed(l, j, code, permanent, at).jobs[key])
  {
  }

  lemma ReceiptKeepsRowOk(l: Ledger, id: string, kind: Receipt, at: int, code: string, key: string)
    requires Inv(l)
    ensures key in AfterReceipt(l, id, kind, at, code).jobs ==> RowOk(AfterReceipt(l, id, kind, at, code).jobs[key])
  {
  }

  lemma WriteKeepsRowOk(l: Ledger, w: Write, key: string)
    requires Inv(l) && key in Apply(l, w).jobs
    ensures RowOk(Apply(l, w).jobs[key])
  {
    match w
    case Schedule(j, at) => EnqueueKeepsRowOk(l, j, at, key);
    case Requeue(j, at) => EnqueueKeepsRowOk(l, j, at, key);
    case Begin(j, at) => AttemptKeepsRowOk(l, j, "", false, at, key);
    case Send(j, at) => AttemptKeepsRowOk(l, j, "", false, at, key);
    case Fail(j, code, permanent, at) => AttemptKeepsRowOk(l, j, code, permanent, at, key);
    case Receive(id, kind, at, code) => ReceiptKeepsRowOk(l, id, kind, at, code, key);
    case _ =>
  }

  lemma WriteKeepsHistory(l: Ledger, w: Write, key: string, n: nat)
    requires Inv(l) && (key, n) in Apply(l, w).history
    ensures key in Apply(l, w).jobs && n <= Apply(l, w).jobs[key].attempts
  {
  }

  lemma WriteKeepsInv(l: Ledger, w: Write)
    requires Inv(l)
    ensures Inv(Apply(l, w))
  {
    var m := Apply(l, w);
    forall key | key in m.jobs ensures RowOk(m.jobs[key]) {
      WriteKeepsRowOk(l, w, key);
    }
    forall key, n | (key, n) in m.history ensures key in m.jobs && n <= m.jobs[key].attempts {
      WriteKeepsHistory(l, w, key, n);
    }
  }

  /** sent implies sent_at, failed implies failed_at, read_at implies delivered_at implies
      sent_at, and no attempt in the history is numbered past the row's count. */
  lemma {:induction false} ReachableTablesAreSound(l: Ledger, writes: seq<Write>)
    requires Inv(l)
    ensures Inv(Exec(l, writes))
    decreases |writes|
  {
    if writes != [] {
      WriteKeepsInv(l, writes[0]);
      ReachableTablesAreSound(Apply(l, writes[0]), writes[1..]);
    }
  }

  /** What one write may do to a row: it is never deleted, its counter never falls, its first
      pickup, delivery and read times are written once, and sent_at is never cleared. */
  predicate Grows(before: Row, after: Row) {
    before.attempts <= after.attempts &&
    (before.sentAt.Some? ==> after.sentAt.Some?) &&
    (before.sendingAt.Some? ==> after.sendingAt == before.sendingAt) &&
    (before.deliveredAt.Some? ==> after.deliveredAt == before.deliveredAt) &&
    (before.readAt.Some? ==> after.readAt == before.readAt) &&
    (before.publicId.Some? ==> after.publicId.Some?)
  }

  predicate SameAddress(before: Row, after: Row) {
    after.sessionId == before.sessionId && after.to == before.to && after.publicId == before.publicId &&
    after.apiKeyId == before.apiKeyId
  }

  lemma EnqueueGrows(l: Ledger, j: Job, at: int, key: string)
    requires key in l.jobs
    ensures var m := AfterMarkScheduled(l, j, at); key in m.jobs && Grows(l.jobs[key], m.jobs[key])
    ensures var m := AfterMarkRequeued(l, j, at); key in m.jobs && Grows(l.jobs[key], m.jobs[key])
  {
  }

  lemma ReceiptGrows(l: Ledger, id: string, kind: Receipt, at: int, code: string, key: string)
    requires key in l.jobs
    ensures var m := AfterReceipt(l, id, kind, at, code); key in m.jobs && Grows(l.jobs[key], m.jobs[key])
  {
  }

  lemma WriteGrows(l: Ledger, w: Write, key: string)
    requires key in l.jobs
    ensures var m := Apply(l, w); key in m.jobs && Grows(l.jobs[key], m.jobs[key])
  {
    match w
    case Schedule(j, at) => EnqueueGrows(l, j, at, key);
    case Requeue(j, at) => EnqueueGrows(l, j, at, key);
    case Receive(id, kind, at, code) => ReceiptGrows(l, id, kind, at, code, key);
    case _ =>
  }

  /** The write is about a message that has a row. */
  predicate HasRow(l: Ledger, w: Write) {
    match w
    case Schedule(j, _) => j.key in l.jobs
    case Begin(j, _) => j.key in l.jobs
    case Send(j, _) => j.key in l.jobs
    case Fail(j, _, _, _) => j.key in l.jobs
    case Requeue(j, _) => j.key in l.jobs
    case _ => true
  }

  lemma RowsStay(l: Ledger, w: Write)
    requires HasRow(l, w)
    ensures Apply(l, w).jobs.Keys == l.jobs.Keys
  {
  }

  /** A row's address changes only when MarkScheduled takes over a row that was never queued. */
  lemma AddressChangesOnlyByTakeover(l: Ledger, w: Write, key: string)
    requires key in l.jobs && !SameAddress(l.jobs[key], Apply(l, w).jobs[key])
    ensures w.Schedule? && w.j.key == key && NeverQueued(l.jobs[key])
  {
  }

  /** Over any run: once a message has been sent, its row keeps its id, session, recipient and
      owner, and is never cleared or rescheduled by an enqueue. */
  lemma {:induction false} SentMessageKeepsItsRow(l: Ledger, writes: seq<Write>, key: string)
    requires key in l.jobs && l.jobs[key].sentAt.Some?
    ensures var m := Exec(l, writes);
      key in m.jobs && m.jobs[key].sentAt.Some? && SameAddress(l.jobs[key], m.jobs[key]) &&
      Grows(l.jobs[key], m.jobs[key])
    ensures forall j: Job, at: int | j.key == key :: AfterMarkScheduled(Exec(l, writes), j, at) == Exec(l, writes)
    decreases |writes|
  {
    if writes != [] {
      var m := Apply(l, writes[0]);
      WriteGrows(l, writes[0], key);
      if !SameAddress(l.jobs[key], m.jobs[key]) {
        AddressChangesOnlyByTakeover(l, writes[0], key);
      }
      SentMessageKeepsItsRow(m, writes[1..], key);
    }
  }

  // ---------------------------------------------------------------- the public status

  datatype PublicStatus = PubQueued | PubSending | PubSent | PubDelivered | PubRead | PubCancelled | PubFailed

  function StatusOf(row: Row): PublicStatus {
    match row.status
    case Scheduled => PubQueued
    case Retrying => PubQueued
    case Sending => PubSending
    case Cancelled => PubCancelled
    case Failed => PubFailed
    case Sent =>
      if row.readAt.Some? then PubRead else if row.deliveredAt.Some? then PubDelivered else PubSent
  }

  /** Cancelling by public id stops a message exactly while the public sees it queued. */
  lemma CancellableIsQueued(row: Row)
    ensures Cancellable(row) <==> StatusOf(row) == PubQueued
  {
  }

  function Rank(s: PublicStatus): nat {
    match s
    case PubSent => 0
    case PubDelivered => 1
    case PubRead => 2
    case PubFailed => 3
    case _ => 4
  }

  predicate SeenSent(s: PublicStatus) {
    s == PubSent || s == PubDelivered || s == PubRead
  }

  predicate OfKey(row: Row, apiKeyId: string, publicId: string) {
    row.apiKeyId == Some(apiKeyId) && row.publicId == Some(publicId)
  }

  /** What the public sees change, write by write. A message waits, is being sent, is sent and read, fails for
      good exactly when its failure is permanent and waits again otherwise, and is cancelled exactly while it
      waits; nothing else moves it, and no write moves another message. */
  lemma PublicTransition(l: Ledger, w: Write, key: string)
    requires key in l.jobs && key in Apply(l, w).jobs
    ensures var row := l.jobs[key]; var before, after := StatusOf(row), StatusOf(Apply(l, w).jobs[key]);
      match w
      case Schedule(j, _) =>
        after == if j.key == key && before == PubFailed && row.sentAt.None? &&
                    row.lastErrorCode == Some("dispatcher_enqueue_failed") then PubQueued else before
      case Begin(j, _) => after == if j.key == key then PubSending else before
      case Send(j, _) => if j.key == key then SeenSent(after) else after == before
      case Fail(j, _, permanent, _) =>
        after == if j.key != key then before else if permanent then PubFailed else PubQueued
      case Merge(_, _) => after == before
      case Requeue(j, _) => after == if j.key == key then PubQueued else before
      case Withdraw(k) => after == if k == key && !SeenSent(before) then PubCancelled else before
      case Cancel(a, p, _) => after == if OfKey(row, a, p) && before == PubQueued then PubCancelled else before
      case Receive(id, kind, _, _) =>
        after == if row.waMessageId == Some(id) && SeenSent(before) then Raised(before, kind) else before
  {
  }

  /** Of the two stored statuses the public sees as queued, retrying is the one a temporary failure leaves, until the
      message is begun, put back by hand, ended or cancelled. */
  lemma RetryingIff(l: Ledger, w: Write, key: string)
    requires key in Apply(l, w).jobs
    ensures var m := Apply(l, w);
      m.jobs[key].status == Retrying <==>
        if (w.Fail? || w.Begin? || w.Send? || w.Requeue?) && w.j.key == key then w.Fail? && !w.permanent
        else key in l.jobs && l.jobs[key].status == Retrying && StatusOf(m.jobs[key]) == PubQueued
  {
  }

  /** A cancel by public id: the caller's message that the public saw queued is cancelled, and every other row
      of the table is left as it was. */
  lemma CancelStopsExactly(l: Ledger, apiKeyId: string, publicId: string, at: int, key: string)
    requires key in l.jobs
    ensures var row, m := l.jobs[key], Apply(l, Cancel(apiKeyId, publicId, at));
      m.jobs.Keys == l.jobs.Keys && m.history == l.history &&
      if OfKey(row, apiKeyId, publicId) && StatusOf(row) == PubQueued then
        StatusOf(m.jobs[key]) == PubCancelled && m.jobs[key].cancelledAt == Some(at)
      else m.jobs[key] == row
  {
  }

  /** A send whose enqueue failed before it was ever sent is not lost to its key: the next enqueue schedules it
      again, at its own time and address, under the id the caller is now told. */
  lemma FailedEnqueueIsTakenUp(l: Ledger, j: Job, at: int, next: Job, later: int)
    requires j.key in l.jobs ==> l.jobs[j.key].sentAt.None?
    requires next.key == j.key
    ensures var failed := Apply(l, Fail(j, "dispatcher_enqueue_failed", true, at));
      var m := Apply(failed, Schedule(next, later));
      j.key in failed.jobs && StatusOf(failed.jobs[j.key]) == PubFailed && j.key in m.jobs &&
      var row := m.jobs[j.key];
      StatusOf(row) == PubQueued && row.scheduledFor == Some(later) && row.to == next.to &&
      row.sessionId == next.sessionId && row.lastErrorCode.None? && row.failedAt.None? &&
      (next.publicId != "" ==> row.publicId == Some(next.publicId)) &&
      (next.apiKeyId != "" ==> row.apiKeyId == Some(next.apiKeyId))
  {
  }

  // ---------------------------------------------------------------- who writes which column

  /** The times of a row: each is written by one kind of event, the first or the last of them. */
  lemma TimesAreWrittenBy(l: Ledger, w: Write, key: string)
    requires key in l.jobs && key in Apply(l, w).jobs
    ensures var b, a := l.jobs[key], Apply(l, w).jobs[key];
      var received := w.Receive? && b.waMessageId == Some(w.waMessageId) && SeenSent(StatusOf(b));
      a.sentAt == (if w.Send? && w.j.key == key then Some(w.at) else b.sentAt) &&
      a.sendingAt == (if w.Begin? && w.j.key == key && b.sendingAt.None? then Some(w.at) else b.sendingAt) &&
      a.readAt == (if received && w.kind.ReceiptRead? && b.readAt.None? then Some(w.at) else b.readAt) &&
      a.deliveredAt ==
        (if received && !w.kind.ReceiptFailed? && b.deliveredAt.None? && (w.kind.ReceiptRead? ==> b.readAt.None?)
         then Some(w.at) else b.deliveredAt) &&
      a.cancelledAt ==
        (if w.Cancel? && OfKey(b, w.apiKeyId, w.publicId) && StatusOf(b) == PubQueued then Some(w.at)
         else b.cancelledAt) &&
      a.attempts == b.attempts + (if w.Begin? && w.j.key == key then 1 else 0)
  {
  }

  /** An enqueue that takes up a failed one. */
  predicate TakesUp(b: Row, w: Write, key: string) {
    w.Schedule? && w.j.key == key && StatusOf(b) == PubFailed && b.sentAt.None? &&
    b.lastErrorCode == Some("dispatcher_enqueue_failed")
  }

  lemma FailureIsWrittenBy(l: Ledger, w: Write, key: string)
    requires key in l.jobs && key in Apply(l, w).jobs
    ensures var b, a := l.jobs[key], Apply(l, w).jobs[key];
      var failing := w.Fail? && w.j.key == key;
      var refused := w.Receive? && w.kind.ReceiptFailed? && b.waMessageId == Some(w.waMessageId) &&
                     SeenSent(StatusOf(b));
      a.failedAt ==
        (if (failing && w.permanent) || refused then Some(w.at) else if TakesUp(b, w, key) then None else b.failedAt) &&
      a.lastErrorAt ==
        (if failing || refused then Some(w.at) else if TakesUp(b, w, key) then None else b.lastErrorAt) &&
      a.lastErrorCode ==
        (if failing || refused then (if w.code == "" then None else Some(w.code))
         else if TakesUp(b, w, key) then None else b.lastErrorCode)
  {
  }

  /** What an enqueue that takes up a failed one knows better replaces what the row had; no other write touches it. */
  lemma IdentityIsWrittenBy(l: Ledger, w: Write, key: string)
    requires key in l.jobs && key in Apply(l, w).jobs
    ensures var b, a := l.jobs[key], Apply(l, w).jobs[key]; var up := TakesUp(b, w, key);
      a.sourceRef == (if up && w.j.sourceRef != "" then Some(w.j.sourceRef) else b.sourceRef) &&
      a.publicId == (if up && w.j.publicId != "" then Some(w.j.publicId) else b.publicId) &&
      a.apiKeyId == (if up && w.j.apiKeyId != "" then Some(w.j.apiKeyId) else b.apiKeyId) &&
      a.sender == (if up && w.j.sender != "" then Some(w.j.sender) else b.sender) &&
      a.priority == (if up && w.j.priority != "" then Some(w.j.priority) else b.priority) &&
      a.metadata == (if up && w.j.metadata != map[] then Some(w.j.metadata) else b.metadata) &&
      a.failoverOf == (if up && w.j.failoverOf != "" then Some(w.j.failoverOf) else b.failoverOf)
  {
  }

  /** The rest: the gateway's id, the references folded in, and the time a message waits for. */
  lemma DetailsAreWrittenBy(l: Ledger, w: Write, key: string)
    requires key in l.jobs && key in Apply(l, w).jobs
    ensures var b, a := l.jobs[key], Apply(l, w).jobs[key];
      a.scheduledFor ==
        (if TakesUp(b, w, key) || (w.Requeue? && w.j.key == key) then Some(w.at) else b.scheduledFor) &&
      a.waMessageId == (if w.Send? && w.j.key == key && w.j.waMessageId != "" then Some(w.j.waMessageId)
                        else b.waMessageId) &&
      a.coalescedRefs ==
        (if w.Merge? && w.key == key && w.sourceRef != "" && b.sourceRef != Some(w.sourceRef) &&
            w.sourceRef !in b.coalescedRefs then b.coalescedRefs + [w.sourceRef] else b.coalescedRefs)
  {
  }

  /** The first write of a message makes its row, waiting with no attempt, or begun, sent or failed with one; an
      enqueue alone knows whose message it is. */
  lemma FirstWriteMakesTheRow(l: Ledger, w: Write, key: string)
    requires key !in l.jobs && key in Apply(l, w).jobs
    ensures w.Schedule? || w.Begin? || w.Send? || w.Fail? || w.Requeue?
    ensures w.j.key == key
    ensures var a := Apply(l, w).jobs[key];
      a.sessionId == w.j.sessionId && a.to == w.j.to && a.coalescedRefs == [] &&
      a.sourceRef == (if w.j.sourceRef == "" then None else Some(w.j.sourceRef)) &&
      a.attempts == (if w.Schedule? || w.Requeue? then 0 else 1) &&
      StatusOf(a) ==
        (if w.Begin? then PubSending else if w.Send? then PubSent else if w.Fail? && w.permanent then PubFailed
         else PubQueued) &&
      a.scheduledFor == (if w.Schedule? || w.Requeue? then Some(w.at) else None) &&
      a.sendingAt == (if w.Begin? then Some(w.at) else None) && a.sentAt == (if w.Send? then Some(w.at) else None) &&
      a.failedAt == (if w.Fail? && w.permanent then Some(w.at) else None) &&
      a.lastErrorAt == (if w.Fail? then Some(w.at) else None) &&
      a.lastErrorCode == (if w.Fail? && w.code != "" then Some(w.code) else None) &&
      a.waMessageId == (if w.Send? && w.j.waMessageId != "" then Some(w.j.waMessageId) else None) &&
      a.deliveredAt.None? && a.readAt.None? && a.cancelledAt.None? &&
      a.publicId == (if w.Schedule? && w.j.publicId != "" then Some(w.j.publicId) else None) &&
      a.apiKeyId == (if w.Schedule? && w.j.apiKeyId != "" then Some(w.j.apiKeyId) else None) &&
      a.sender == (if w.Schedule? && w.j.sender != "" then Some(w.j.sender) else None) &&
      a.priority == (if w.Schedule? && w.j.priority != "" then Some(w.j.priority) else None) &&
      a.metadata == (if w.Schedule? && w.j.metadata != map[] then Some(w.j.metadata) else None) &&
      a.failoverOf == (if w.Schedule? && w.j.failoverOf != "" then Some(w.j.failoverOf) else None)
  {
  }

  /** The history gains one entry with each recorded outcome, under the attempt it was. */
  lemma HistoryIsWrittenBy(l: Ledger, w: Write, key: string, n: nat)
    ensures var before, after := l.history, Apply(l, w).history;
      if (w.Send? || w.Fail?) && w.j.key == key && n == (if key in l.jobs then l.jobs[key].attempts else 1) then
        (key, n) in after && after[(key, n)].at == w.at &&
        after[(key, n)].outcome == (if w.Send? then Sent else Failed) &&
        after[(key, n)].errorCode == if w.Fail? && w.code != "" then Some(w.code) else None
      else
        ((key, n) in after <==> (key, n) in before) && ((key, n) in before ==> after[(key, n)] == before[(key, n)])
  {
  }

  /** Over any run, a row counts the attempts begun. */
  function Begun(writes: seq<Write>, key: string): nat {
    if writes == [] then 0 else (if writes[0].Begin? && writes[0].j.key == key then 1 else 0) + Begun(writes[1..], key)
  }

  lemma {:induction false} AttemptsAreBegun(l: Ledger, writes: seq<Write>, key: string)
    requires key in l.jobs
    ensures var m := Exec(l, writes);
      key in m.jobs && m.jobs[key].attempts == l.jobs[key].attempts + Begun(writes, key)
    decreases |writes|
  {
    if writes != [] {
      WriteGrows(l, writes[0], key);
      TimesAreWrittenBy(l, writes[0], key);
      AttemptsAreBegun(Apply(l, writes[0]), writes[1..], key);
    }
  }

  // ---------------------------------------------------------------- receipts converge

  datatype Event = Event(waMessageId: string, kind: Receipt, at: int, code: string)

  /** The table after the events, in order of arrival. */
  function AfterEvents(l: Ledger, events: seq<Event>): Ledger {
    if events == [] then l
    else
      var e := events[|events| - 1];
      AfterReceipt(AfterEvents(l, events[..|events| - 1]), e.waMessageId, e.kind, e.at, e.code)
  }

  /** The statuses announced for one row: one after every receipt that moved it. */
  function Announced(l: Ledger, events: seq<Event>, key: string): seq<PublicStatus>
    requires key in l.jobs
  {
    if events == [] then []
    else
      var earlier := events[..|events| - 1];
      var e := events[|events| - 1];
      KeysKept(l, earlier);
      var row := AfterEvents(l, earlier).jobs[key];
      Announced(l, earlier, key) +
      (if row.waMessageId == Some(e.waMessageId) && Moves(row, e.kind)
       then [StatusOf(Received(row, e.kind, e.at, e.code))] else [])
  }

  lemma {:induction false} KeysKept(l: Ledger, events: seq<Event>)
    ensures AfterEvents(l, events).jobs.Keys == l.jobs.Keys
  {
    if events != [] {
      KeysKept(l, events[..|events| - 1]);
    }
  }

  predicate Occurs(events: seq<Event>, waMessageId: string, kind: Receipt) {
    exists i :: 0 <= i < |events| && events[i].waMessageId == waMessageId && events[i].kind == kind
  }

  lemma OccursLater(events: seq<Event>, e: Event, waMessageId: string, kind: Receipt)
    ensures Occurs(events + [e], waMessageId, kind) <==>
            Occurs(events, waMessageId, kind) || (e.waMessageId == waMessageId && e.kind == kind)
  {
    var all := events + [e];
    assert all[|events|] == e;
    if Occurs(events, waMessageId, kind) {
      var i :| 0 <= i < |events| && events[i].waMessageId == waMessageId && events[i].kind == kind;
      assert all[i] == events[i];
    }
  }

  predicate FreshlySent(row: Row, waMessageId: string) {
    row.status == Sent && row.waMessageId == Some(waMessageId) && row.deliveredAt.None? && row.readAt.None?
  }

  /** What the public should see, whatever the order and however often the events came. */
  function Furthest(events: seq<Event>, waMessageId: string): PublicStatus {
    if Occurs(events, waMessageId, ReceiptFailed) then PubFailed
    else if Occurs(events, waMessageId, ReceiptRead) then PubRead
    else if Occurs(events, waMessageId, ReceiptDelivered) then PubDelivered
    else PubSent
  }

  function Announces(kind: Receipt): PublicStatus {
    match kind
    case ReceiptDelivered => PubDelivered
    case ReceiptRead => PubRead
    case ReceiptFailed => PubFailed
  }

  function Raised(s: PublicStatus, kind: Receipt): PublicStatus {
    if Rank(Announces(kind)) > Rank(s) then Announces(kind) else s
  }

  /** A sent row no receipt has put out of order. */
  predicate Receivable(row: Row, waMessageId: string) {
    row.waMessageId == Some(waMessageId) && (row.status == Sent || row.status == Failed) &&
    (row.readAt.Some? ==> row.deliveredAt.Some?)
  }

  /** A receipt moves a row exactly when it raises its public status. */
  lemma ReceiptRaises(row: Row, id: string, kind: Receipt, at: int, code: string)
    requires Receivable(row, id)
    ensures var after := Received(row, kind, at, code);
      Receivable(after, id) && StatusOf(after) == Raised(StatusOf(row), kind) &&
      (Moves(row, kind) <==> Rank(StatusOf(row)) < Rank(Announces(kind)))
  {
  }

  lemma FurthestRaises(events: seq<Event>, e: Event, id: string)
    ensures Furthest(events + [e], id) ==
            if e.waMessageId == id then Raised(Furthest(events, id), e.kind) else Furthest(events, id)
  {
    OccursLater(events, e, id, ReceiptFailed);
    OccursLater(events, e, id, ReceiptRead);
    OccursLater(events, e, id, ReceiptDelivered);
  }

  /** The row's public status after any events is the furthest any of its receipts reports. */
  lemma {:induction false} StatusIsTheFurthest(l: Ledger, events: seq<Event>, key: string, id: string)
    requires key in l.jobs && FreshlySent(l.jobs[key], id)
    ensures var m := AfterEvents(l, events);
      key in m.jobs && Receivable(m.jobs[key], id) && StatusOf(m.jobs[key]) == Furthest(events, id)
  {
    if events != [] {
      var earlier := events[..|events| - 1];
      var e := events[|events| - 1];
      StatusIsTheFurthest(l, earlier, key, id);
      ReceiptRaises(AfterEvents(l, earlier).jobs[key], id, e.kind, e.at, e.code);
      assert earlier + [e] == events;
      FurthestRaises(earlier, e, id);
    }
  }

  /** Receipts converge: the public status depends only on which receipts came, not on their
      order, their repetitions, or the receipts of other messages between them. */
  lemma ReceiptsConverge(l: Ledger, events: seq<Event>, events': seq<Event>, key: string, id: string)
    requires key in l.jobs && FreshlySent(l.jobs[key], id)
    requires forall kind :: Occurs(events, id, kind) <==> Occurs(events', id, kind)
    ensures var m, m' := AfterEvents(l, events), AfterEvents(l, events');
      key in m.jobs && key in m'.jobs && StatusOf(m.jobs[key]) == StatusOf(m'.jobs[key])
  {
    StatusIsTheFurthest(l, events, key, id);
    StatusIsTheFurthest(l, events', key, id);
  }

  /** An event is announced exactly when it raises what was seen so far, as the status it raises to. */
  lemma AnnouncedLater(l: Ledger, events: seq<Event>, e: Event, key: string, id: string)
    requires key in l.jobs && FreshlySent(l.jobs[key], id)
    ensures Announced(l, events + [e], key) == Announced(l, events, key) +
            (if e.waMessageId == id && Rank(Furthest(events, id)) < Rank(Announces(e.kind))
             then [Announces(e.kind)] else [])
  {
    var all := events + [e];
    assert all[..|all| - 1] == events && all[|all| - 1] == e;
    StatusIsTheFurthest(l, events, key, id);
    ReceiptRaises(AfterEvents(l, events).jobs[key], id, e.kind, e.at, e.code);
  }

  /** Announced in rising order, up to the status reached; nothing announced leaves the message sent. */
  predicate Rising(a: seq<PublicStatus>, reached: PublicStatus) {
    (forall i, j | 0 <= i < j < |a| :: Rank(a[i]) < Rank(a[j])) &&
    (forall i | 0 <= i < |a| :: 0 < Rank(a[i]) <= Rank(reached)) &&
    if a == [] then reached == PubSent else a[|a| - 1] == reached
  }

  lemma RisesOn(a: seq<PublicStatus>, reached: PublicStatus, kind: Receipt)
    requires Rising(a, reached)
    ensures Rising(a + (if Rank(reached) < Rank(Announces(kind)) then [Announces(kind)] else []), Raised(reached, kind))
  {
  }

  /** The statuses announced strictly rise, so each kind of receipt is announced at most once,
      and the last one announced is the status the message ends with. */
  lemma {:induction false} AnnouncementsRise(l: Ledger, events: seq<Event>, key: string, id: string)
    requires key in l.jobs && FreshlySent(l.jobs[key], id)
    ensures Rising(Announced(l, events, key), Furthest(events, id))
  {
    if events != [] {
      var earlier := events[..|events| - 1];
      var e := events[|events| - 1];
      AnnouncementsRise(l, earlier, key, id);
      assert earlier + [e] == events;
      AnnouncedLater(l, earlier, e, key, id);
      FurthestRaises(earlier, e, id);
      RisesOn(Announced(l, earlier, key), Furthest(earlier, id), e.kind);
      assert Announced(l, earlier, key) + [] == Announced(l, earlier, key);
    }
  }
}
