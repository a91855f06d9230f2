/** The webhook event table and the deliverer that works through it (wa-shared/store/webhooks.go,
    wa-shared/notify/deliverer.go). Times and durations are in seconds. */
module Webhooks {
  import opened Options
  import opened Powers

  const MAX_ATTEMPTS := 5
  const CLAIM_LEASE := 20
  const BATCH_SIZE := 20
  const RETIRE_BATCH_SIZE := 200
  const MAX_RETIRE_PASSES := 500
  const BACKOFF_BASE := 30
  const BACKOFF_CAP := 30 * 60
  const DISABLED_WEBHOOK_REASON := "webhook was disabled before this event could be delivered"

  datatype EventStatus = Pending | Delivered | Dead

  datatype Event = Event(
    webhookId: string, messageId: string, kind: string, status: EventStatus, attempts: nat, nextAttemptAt: int,
    lastError: Option<string>, lastStatus: Option<int>, deliveredAt: Option<int>)

  type Table = map<string, Event>

  // ---------------------------------------------------------------- backoff

  /** The wait after n failures: 30 seconds doubled n - 1 times, or half an hour if that is less. */
  function WaitAfter(attempts: int): nat {
    var doubled := BACKOFF_BASE * Pow2(if attempts < 1 then 0 else attempts - 1);
    if doubled < BACKOFF_CAP then doubled else BACKOFF_CAP
  }

  method Backoff(attempts: int) returns (d: nat)
    ensures d == WaitAfter(attempts)
  {
    d := BACKOFF_BASE;
    var i := 0;
    while i < attempts - 1
      invariant 0 <= i && (attempts >= 1 ==> i <= attempts - 1) && (attempts < 1 ==> i == 0)
      invariant d == BACKOFF_BASE * Pow2(i)
    {
      d := d * 2;
      if d >= BACKOFF_CAP {
        Pow2Grows(i + 1, attempts - 1);
        return BACKOFF_CAP;
      }
      i := i + 1;
    }
    if d > BACKOFF_CAP {
      return BACKOFF_CAP;
    }
  }

  /** The four waits between the five attempts come to seven and a half minutes, not to the half hour
      the source's comment gives. */
  lemma WaitsBetweenTheAttempts()
    ensures WaitAfter(1) + WaitAfter(2) + WaitAfter(3) + WaitAfter(4) == 450
  {
    assert Pow2(1) == 2 && Pow2(2) == 4 && Pow2(3) == 8;
  }

  // ---------------------------------------------------------------- the statements

  predicate SameOccasion(e: Event, f: Event) {
    e.webhookId == f.webhookId && e.messageId == f.messageId && e.kind == f.kind
  }

  predicate Recorded(events: Table, e: Event) {
    exists id | id in events :: SameOccasion(events[id], e)
  }

  function Fresh(webhookId: string, messageId: string, kind: string, at: int): Event {
    Event(webhookId, messageId, kind, Pending, 0, at, None, None, None)
  }

  predicate Due(e: Event, at: int) {
    e.status == Pending && e.nextAttemptAt <= at
  }

  function DueOf(events: Table, disabled: set<string>, at: int, ofDisabled: bool): set<string> {
    set id | id in events && Due(events[id], at) && (events[id].webhookId in disabled) == ofDisabled
  }

  function Claimed(e: Event, at: int): Event {
    e.(nextAttemptAt := at + CLAIM_LEASE)
  }

  function Done(e: Event, statusCode: int, at: int): Event {
    e.(status := Delivered, attempts := e.attempts + 1, lastStatus := Some(statusCode), lastError := None,
       deliveredAt := Some(at))
  }

  function Missed(e: Event, statusCode: Option<int>, reason: string, retryAt: int, dead: bool): Event {
    e.(status := if dead then Dead else Pending, attempts := e.attempts + 1, lastStatus := statusCode,
       lastError := Some(reason), nextAttemptAt := retryAt)
  }

  function Retired(e: Event, at: int): Event {
    e.(status := Dead, lastError := Some(DISABLED_WEBHOOK_REASON), nextAttemptAt := at)
  }

  function Replayed(e: Event, at: int): Event {
    e.(status := Pending, attempts := 0, nextAttemptAt := at, lastError := None, lastStatus := None)
  }

  function ClaimAll(events: Table, ids: set<string>, at: int): Table {
    map id | id in events :: if id in ids then Claimed(events[id], at) else events[id]
  }

  function RetireAll(events: Table, ids: set<string>, at: int): Table {
    map id | id in events :: if id in ids then Retired(events[id], at) else events[id]
  }

  /** ORDER BY next_attempt_at LIMIT limit: as many as the limit allows, none later than one left out. */
  ghost predicate Earliest(events: Table, picked: set<string>, from: set<string>, limit: nat) {
    && picked <= from && from <= events.Keys
    && |picked| == (if |from| < limit then |from| else limit)
    && forall p, q | p in picked && q in from - picked :: events[p].nextAttemptAt <= events[q].nextAttemptAt
  }

  ghost predicate IsEarliest(events: Table, ids: set<string>, id: string)
    requires ids <= events.Keys && id in events
  {
    forall other | other in ids :: events[id].nextAttemptAt <= events[other].nextAttemptAt
  }

  lemma {:induction false} MinExists(events: Table, ids: set<string>)
    requires ids <= events.Keys && ids != {}
    ensures exists id | id in ids :: IsEarliest(events, ids, id)
    decreases |ids|
  {
    var id :| id in ids;
    var rest := ids - {id};
    if rest == {} {
      assert ids == {id} && IsEarliest(events, ids, id);
    } else {
      MinExists(events, rest);
      var least :| least in rest && IsEarliest(events, rest, least);
      var first := if events[id].nextAttemptAt < events[least].nextAttemptAt then id else least;
      assert IsEarliest(events, ids, first);
    }
  }

  /** The database's choice: any of the earliest when several are due at the same time. */
  method PickEarliest(events: Table, from: set<string>, limit: nat) returns (picked: set<string>)
    requires from <= events.Keys
    ensures Earliest(events, picked, from, limit)
  {
    picked := {};
    var rest := from;
    while |picked| < limit && rest != {}
      invariant picked !! rest && picked + rest == from && |picked| <= limit && |picked| + |rest| == |from|
      invariant forall p, q | p in picked && q in rest :: events[p].nextAttemptAt <= events[q].nextAttemptAt
      decreases |rest|
    {
      MinExists(events, rest);
      var id :| id in rest && forall other | other in rest :: events[id].nextAttemptAt <= events[other].nextAttemptAt;
      picked := picked + {id};
      rest := rest - {id};
    }
    assert from - picked == rest;
  }

  /** Fewer than the limit are all of them. */
  lemma AllPicked(events: Table, picked: set<string>, from: set<string>, limit: nat)
    requires Earliest(events, picked, from, limit) && |picked| < limit
    ensures picked == from
  {
    assert from == picked + (from - picked);
    assert |from - picked| == 0;
  }

  class WebhookStore {
    var events: Table
    var disabled: set<string>

    constructor ()
      ensures events == map[] && disabled == {}
    {
      events, disabled := map[], {};
    }

    /** Ids are fresh. */
    method EnqueueEvent(id: string, webhookId: string, messageId: string, kind: string, at: int) returns (queued: bool)
      requires id !in events
      modifies this`events
      ensures queued <==>
        !exists other | other in old(events) ::
          old(events)[other].webhookId == webhookId && old(events)[other].messageId == messageId &&
          old(events)[other].kind == kind
      ensures events == if queued then old(events)[id := Fresh(webhookId, messageId, kind, at)] else old(events)
    {
      var e := Fresh(webhookId, messageId, kind, at);
      if Recorded(events, e) {
        return false;
      }
      events := events[id := e];
      return true;
    }

    method ClaimDueEvents(at: int, limit: nat) returns (claimed: map<string, Event>)
      modifies this`events
      ensures Earliest(old(events), claimed.Keys, DueOf(old(events), disabled, at, false), limit)
      ensures events == ClaimAll(old(events), claimed.Keys, at)
      ensures forall id | id in claimed :: claimed[id] == events[id]
      ensures forall id | id in claimed ::
        var e := old(events)[id];
        e.status == Pending && e.nextAttemptAt <= at && e.webhookId !in disabled &&
        claimed[id] == e.(nextAttemptAt := at + 20)
      ensures |claimed| < limit ==>
        forall id | id in old(events) && id !in claimed ::
          var e := old(events)[id];
          e.status != Pending || e.nextAttemptAt > at || e.webhookId in disabled
    {
      var picked := PickEarliest(events, DueOf(events, disabled, at, false), limit);
      events := ClaimAll(events, picked, at);
      claimed := map id | id in picked :: events[id];
      assert claimed.Keys == picked;
      if |claimed| < limit {
        AllPicked(old(events), picked, DueOf(old(events), disabled, at, false), limit);
      }
    }

    method MarkEventDelivered(id: string, statusCode: int, at: int)
      modifies this`events
      ensures events ==
        if id in old(events) then old(events)[id := Done(old(events)[id], statusCode, at)] else old(events)
    {
      if id in events {
        events := events[id := Done(events[id], statusCode, at)];
      }
    }

    method MarkEventFailed(id: string, statusCode: Option<int>, reason: string, retryAt: int, dead: bool)
      modifies this`events
      ensures events ==
        if id in old(events) then old(events)[id := Missed(old(events)[id], statusCode, reason, retryAt, dead)]
        else old(events)
    {
      if id in events {
        events := events[id := Missed(events[id], statusCode, reason, retryAt, dead)];
      }
    }

    method DeadLetterDisabledEvents(at: int, limit: nat) returns (retired: nat, ghost picked: set<string>)
      modifies this`events
      ensures Earliest(old(events), picked, DueOf(old(events), disabled, at, true), limit)
      ensures retired == |picked| && events == RetireAll(old(events), picked, at)
      ensures forall id | id in picked ::
        var e := old(events)[id];
        e.status == Pending && e.nextAttemptAt <= at && e.webhookId in disabled && events[id].status == Dead &&
        events[id].attempts == e.attempts
      ensures retired < limit ==>
        forall id | id in old(events) && id !in picked ::
          var e := old(events)[id];
          e.status != Pending || e.nextAttemptAt > at || e.webhookId !in disabled
    {
      var doomed := PickEarliest(events, DueOf(events, disabled, at, true), limit);
      events := RetireAll(events, doomed, at);
      picked := doomed;
      if |doomed| < limit {
        AllPicked(old(events), picked, DueOf(old(events), disabled, at, true), limit);
      }
      return |doomed|, picked;
    }

    method ReplayEvent(id: string, at: int) returns (r: Option<Event>)
      modifies this`events
      ensures r.Some? <==> id in old(events) && old(events)[id].status == Dead
      ensures events == if r.Some? then old(events)[id := Replayed(old(events)[id], at)] else old(events)
      ensures r.Some? ==> r.value == events[id]
    {
      if id !in events || events[id].status != Dead {
        return None;
      }
      events := events[id := Replayed(events[id], at)];
      return Some(events[id]);
    }
  }

  // ---------------------------------------------------------------- the deliverer

  /** What a post came back with: a 2xx status code, another status code, or none at all. */
  datatype Posted = Accepted(statusCode: int) | Refused(statusCode: int) | Unreachable

  /** The outcome of a post recorded against a row, given the attempts the event had when it was claimed. */
  function Noted(e: Event, attemptsWhenClaimed: nat, posted: Posted, at: int): Event {
    var attempts := attemptsWhenClaimed + 1;
    match posted
    case Accepted(code) => Done(e, code, at)
    case Refused(code) => Missed(e, Some(code), "refused", at + WaitAfter(attempts), attempts >= MAX_ATTEMPTS)
    case Unreachable => Missed(e, None, "unreachable", at + WaitAfter(attempts), attempts >= MAX_ATTEMPTS)
  }

  /** What a recorded post leaves: one more attempt, and either the delivery with its code and time, or the
      failure with its code if there was one, dead after the fifth attempt and otherwise waiting half a minute,
      one, two and four minutes. */
  lemma RecordedOutcome(e: Event, attemptsWhenClaimed: nat, posted: Posted, at: int)
    ensures var a, n := Noted(e, attemptsWhenClaimed, posted, at), attemptsWhenClaimed + 1;
      a.webhookId == e.webhookId && a.messageId == e.messageId && a.kind == e.kind && a.attempts == e.attempts + 1 &&
      if posted.Accepted? then
        a.status == Delivered && a.lastStatus == Some(posted.statusCode) && a.lastError.None? &&
        a.deliveredAt == Some(at) && a.nextAttemptAt == e.nextAttemptAt
      else
        a.status == (if n >= 5 then Dead else Pending) && a.lastError.Some? && a.deliveredAt == e.deliveredAt &&
        a.lastStatus == (if posted.Refused? then Some(posted.statusCode) else None) &&
        (n < 5 ==> a.nextAttemptAt == at + if n == 1 then 30 else if n == 2 then 60 else if n == 3 then 120 else 240)
  {
    assert Pow2(1) == 2 && Pow2(2) == 4 && Pow2(3) == 8;
  }

  function NoteAll(events: Table, id: string, attemptsWhenClaimed: nat, posted: Posted, at: int): Table {
    if id in events then events[id := Noted(events[id], attemptsWhenClaimed, posted, at)] else events
  }

  /** The second half of deliver: the post is done, its outcome is recorded. */
  method Deliver(store: WebhookStore, id: string, e: Event, posted: Posted, at: int)
    modifies store`events
    ensures store.events == NoteAll(old(store.events), id, e.attempts, posted, at)
  {
    var attempts := e.attempts + 1;
    if posted.Accepted? {
      store.MarkEventDelivered(id, posted.statusCode, at);
      return;
    }
    var statusCode := if posted.Refused? then Some(posted.statusCode) else None;
    var dead := attempts >= MAX_ATTEMPTS;
    var wait := Backoff(attempts);
    store.MarkEventFailed(id, statusCode, if posted.Refused? then "refused" else "unreachable", at + wait, dead);
  }

  /** Why one deliverer: with a second one an event that is dead can come back. The first claims it and is slow;
      its lease runs out, the second claims it twice more, records both failures, and the event is dead; then
      the first records its own failure, on the attempts it had read. */
  lemma StaleRecordRevives(e: Event, statusCode: int, at: int)
    requires Due(e, at) && e.attempts == 3
    ensures var first := Claimed(e, at);
      var missed := Noted(Claimed(first, at + CLAIM_LEASE), 3, Refused(statusCode), at + CLAIM_LEASE);
      var later := missed.nextAttemptAt;
      var dead := Noted(Claimed(missed, later), 4, Refused(statusCode), later);
      var revived := Noted(dead, 3, Refused(statusCode), later);
      Due(first, at + CLAIM_LEASE) && Due(missed, later) && missed.attempts == 4 && dead.status == Dead &&
      dead.attempts == MAX_ATTEMPTS && revived.status == Pending && revived.attempts == 6
  {
  }

  /** A post's outcome and when it is recorded. */
  datatype Report = Report(posted: Posted, at: int)

  /** Every event of ids claimed and, except those of rest, posted and recorded. */
  function NotedExcept(events: Table, ids: set<string>, rest: set<string>, reports: string -> Report, at: int): Table {
    map id | id in events ::
      if id in rest then Claimed(events[id], at)
      else if id in ids then Noted(Claimed(events[id], at), events[id].attempts, reports(id).posted, reports(id).at)
      else events[id]
  }

  /** Of a batch, whose events were pending, due and of enabled webhooks, an event left unposted is leased for
      twenty seconds; a posted one has one attempt more and is delivered when its post was answered so, or else
      failed, for good at the fifth; others are left alone. */
  predicate BatchLeaves(b: Event, a: Event, id: string, disabled: set<string>, picked: set<string>,
                        unposted: set<string>, reports: string -> Report, at: int)
  {
    (id in picked ==> b.status == Pending && b.nextAttemptAt <= at && b.webhookId !in disabled) &&
    if id in unposted then a == b.(nextAttemptAt := at + 20)
    else if id !in picked then a == b
    else
      a.attempts == b.attempts + 1 &&
      if reports(id).posted.Accepted? then a.status == Delivered && a.deliveredAt == Some(reports(id).at)
      else a.status == (if b.attempts >= 4 then Dead else Pending) && a.lastError.Some?
  }

  lemma BatchIsNoted(events: Table, disabled: set<string>, picked: set<string>, unposted: set<string>,
                     reports: string -> Report, at: int)
    requires unposted <= picked <= DueOf(events, disabled, at, false)
    ensures var after := NotedExcept(events, picked, unposted, reports, at);
      after.Keys == events.Keys &&
      forall id | id in events ::
        BatchLeaves(events[id], after[id], id, disabled, picked, unposted, reports, at)
  {
  }

  /** One batch, of which no more than patience events are posted before the process is told to stop: each
      of those is recorded once, when its post is answered and in whatever order the rows came back; the
      others stay leased, and no event outside the batch is touched. */
  method Tick(store: WebhookStore, reports: string -> Report, at: int, patience: nat)
    returns (ghost picked: set<string>, ghost unposted: set<string>)
    modifies store`events
    ensures Earliest(old(store.events), picked, DueOf(old(store.events), store.disabled, at, false), BATCH_SIZE)
    ensures unposted <= picked && |picked| - |unposted| <= patience && (|picked| <= patience ==> unposted == {})
    ensures store.events == NotedExcept(old(store.events), picked, unposted, reports, at)
    ensures store.events.Keys == old(store.events).Keys
    ensures forall id | id in old(store.events) ::
      BatchLeaves(old(store.events)[id], store.events[id], id, store.disabled, picked, unposted, reports, at)
  {
    var claimed := store.ClaimDueEvents(at, BATCH_SIZE);
    picked := claimed.Keys;
    var rest := claimed.Keys;
    var posted := 0;
    while rest != {} && posted < patience
      invariant rest <= claimed.Keys && store.disabled == old(store.disabled)
      invariant posted <= patience && posted + |rest| == |picked|
      invariant store.events == NotedExcept(old(store.events), picked, rest, reports, at)
      decreases |rest|
    {
      var id :| id in rest;
      Deliver(store, id, claimed[id], reports(id).posted, reports(id).at);
      rest := rest - {id};
      posted := posted + 1;
    }
    unposted := rest;
    BatchIsNoted(old(store.events), store.disabled, picked, unposted, reports, at);
  }

  // ---------------------------------------------------------------- retiring

  lemma RetireTwice(events: Table, disabled: set<string>, a: set<string>, b: set<string>, at: int)
    requires a <= DueOf(events, disabled, at, true)
    requires b <= DueOf(RetireAll(events, a, at), disabled, at, true)
    ensures a !! b && a + b <= DueOf(events, disabled, at, true)
    ensures RetireAll(RetireAll(events, a, at), b, at) == RetireAll(events, a + b, at)
    ensures DueOf(RetireAll(events, a + b, at), disabled, at, true) == DueOf(events, disabled, at, true) - (a + b)
  {
  }

  function RetireLimit(): nat {
    RETIRE_BATCH_SIZE * MAX_RETIRE_PASSES
  }

  /** One sweep retires due events of disabled webhooks, each of them once, until none is left or a
      hundred thousand are gone, and touches no other event. */
  method RetireSweep(store: WebhookStore, at: int) returns (total: nat, ghost gone: set<string>)
    modifies store`events
    ensures gone <= DueOf(old(store.events), store.disabled, at, true) && total == |gone|
    ensures store.events == RetireAll(old(store.events), gone, at)
    ensures var backlog := |DueOf(old(store.events), store.disabled, at, true)|;
      total == if backlog < RetireLimit() then backlog else RetireLimit()
    ensures total < RetireLimit() ==> DueOf(store.events, store.disabled, at, true) == {}
    ensures forall id | id in old(store.events) ::
      var e := old(store.events)[id];
      id in store.events &&
      (id in gone ==> e.webhookId in store.disabled && e.status == Pending && store.events[id].status == Dead) &&
      (id !in gone ==> store.events[id] == e) &&
      (total < RetireLimit() && e.webhookId in store.disabled && e.status == Pending && e.nextAttemptAt <= at ==>
         id in gone)
  {
    total := 0;
    gone := {};
    ghost var backlog := DueOf(store.events, store.disabled, at, true);
    assert store.events == RetireAll(store.events, {}, at);
    for i := 0 to MAX_RETIRE_PASSES
      invariant store.disabled == old(store.disabled)
      invariant gone <= backlog && total == |gone| == RETIRE_BATCH_SIZE * i
      invariant store.events == RetireAll(old(store.events), gone, at)
      invariant DueOf(store.events, store.disabled, at, true) == backlog - gone
    {
      var retired, picked := store.DeadLetterDisabledEvents(at, RETIRE_BATCH_SIZE);
      RetireTwice(old(store.events), store.disabled, gone, picked, at);
      assert |gone + picked| == |gone| + |picked|;
      assert |backlog - gone| == |backlog| - |gone|;
      gone := gone + picked;
      total := total + retired;
      if retired < RETIRE_BATCH_SIZE {
        assert |backlog| == |gone| + |backlog - gone|;
        return;
      }
    }
  }
}
