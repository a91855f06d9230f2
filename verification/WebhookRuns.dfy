/** What holds of webhook events over every run of one deliverer, its sweep, the consumers' endpoints and
    the people who disable, delete and replay, one statement or post at a time. */
module WebhookRuns {
  import opened Options
  import opened Webhooks

  /** An event as the deliverer read it when it claimed it. */
  datatype Claim = Claim(id: string, attempts: nat)

  /** batch: claimed and not yet posted; inHand: posted and not yet recorded. posts and lost count, for
      every event that ever was, the posts made and the outcomes not recorded since it was last replayed. */
  datatype State = State(
    now: int, disabled: set<string>, events: Table, batch: seq<Claim>, inHand: Option<(Claim, Posted)>,
    posts: map<string, nat>, lost: map<string, nat>)

  datatype Step =
    | Tick(elapsed: nat)
    | Disable(webhookId: string)
    | Enable(webhookId: string)
    | Delete(webhookId: string)
    | Enqueue(id: string, webhookId: string, messageId: string, kind: string)
    | ClaimBatch(ids: seq<string>)
    | Post(posted: Posted)
    | Record
    | LoseRecord
    | Crash
    | Retire(doomed: set<string>)
    | Replay(id: string)

  const START := State(0, {}, map[], [], None, map[], map[])

  function Get(m: map<string, nat>, id: string): nat {
    if id in m then m[id] else 0
  }

  predicate Enabled(s: State, step: Step) {
    match step
    case Enqueue(id, _, _, _) => id !in s.posts && id !in s.events
    case ClaimBatch(ids) =>
      s.batch == [] && s.inHand.None? && |ids| <= BATCH_SIZE &&
      (forall i, j | 0 <= i < j < |ids| :: ids[i] != ids[j]) &&
      forall i | 0 <= i < |ids| :: ids[i] in DueOf(s.events, s.disabled, s.now, false)
    case Post(_) => s.batch != [] && s.inHand.None?
    case Record => s.inHand.Some?
    case LoseRecord => s.inHand.Some?
    case Retire(ids) => ids <= DueOf(s.events, s.disabled, s.now, true)
    case Replay(id) => id in s.events && s.events[id].status == Dead
    case _ => true
  }

  function Claims(events: Table, ids: seq<string>): seq<Claim>
    requires forall i | 0 <= i < |ids| :: ids[i] in events
  {
    seq(|ids|, i requires 0 <= i < |ids| => Claim(ids[i], events[ids[i]].attempts))
  }

  function SetOf(ids: seq<string>): set<string> {
    set id | id in ids
  }

  /** A post in hand whose outcome nobody will record. */
  function Forgotten(s: State): map<string, nat> {
    if s.inHand.None? then s.lost
    else var id := s.inHand.value.0.id; s.lost[id := Get(s.lost, id) + 1]
  }

  function Effect(s: State, step: Step): State
    requires Enabled(s, step)
  {
    match step
    case Tick(elapsed) => s.(now := s.now + elapsed)
    case Disable(w) => s.(disabled := s.disabled + {w})
    case Enable(w) => s.(disabled := s.disabled - {w})
    case Delete(w) => s.(events := map id | id in s.events && s.events[id].webhookId != w :: s.events[id])
    case Enqueue(id, w, m, kind) =>
      var e := Fresh(w, m, kind, s.now);
      if Recorded(s.events, e) then s
      else s.(events := s.events[id := e], posts := s.posts[id := 0], lost := s.lost[id := 0])
    case ClaimBatch(ids) =>
      s.(batch := Claims(s.events, ids), events := ClaimAll(s.events, SetOf(ids), s.now))
    case Post(posted) =>
      var head := s.batch[0];
      s.(batch := s.batch[1..], inHand := Some((head, posted)), posts := s.posts[head.id := Get(s.posts, head.id) + 1])
    case Record =>
      var (c, posted) := s.inHand.value;
      s.(inHand := None, events := NoteAll(s.events, c.id, c.attempts, posted, s.now))
    case LoseRecord => s.(inHand := None, lost := Forgotten(s))
    case Crash => s.(batch := [], inHand := None, lost := Forgotten(s))
    case Retire(ids) => s.(events := RetireAll(s.events, ids, s.now))
    case Replay(id) =>
      s.(events := s.events[id := Replayed(s.events[id], s.now)], posts := s.posts[id := 0], lost := s.lost[id := 0])
  }

  /** A step that cannot be taken changes nothing. */
  function Apply(s: State, step: Step): State {
    if Enabled(s, step) then Effect(s, step) else s
  }

  function Exec(s: State, steps: seq<Step>): State {
    if steps == [] then s else Apply(Exec(s, steps[..|steps| - 1]), steps[|steps| - 1])
  }

  // ---------------------------------------------------------------- the invariant

  /** Posts and claims the deliverer still has to deal with, the one in hand first. */
  function InFlight(s: State): seq<Claim> {
    (if s.inHand.Some? then [s.inHand.value.0] else []) + s.batch
  }

  /** What the deliverer remembers of an event is no younger than its row, and the event was not over. */
  ghost predicate ClaimSound(s: State, c: Claim) {
    c.attempts < MAX_ATTEMPTS && c.id in s.posts &&
    (c.id in s.events ==> s.events[c.id].attempts <= c.attempts && s.events[c.id].status != Delivered)
  }

  ghost predicate ClaimsSound(s: State) {
    var flight := InFlight(s);
    (forall i | 0 <= i < |flight| :: ClaimSound(s, flight[i])) &&
    forall i, j | 0 <= i < j < |flight| :: flight[i].id != flight[j].id
  }

  function Held(s: State, id: string): nat {
    if s.inHand.Some? && s.inHand.value.0.id == id then 1 else 0
  }

  ghost predicate EventSound(s: State, id: string) {
    id in s.events ==>
      id in s.posts &&
      s.events[id].attempts <= MAX_ATTEMPTS &&
      (s.events[id].status == Pending ==> s.events[id].attempts < MAX_ATTEMPTS) &&
      Get(s.posts, id) <= s.events[id].attempts + Get(s.lost, id) + Held(s, id)
  }

  ghost predicate Sound(s: State) {
    ClaimsSound(s) && forall id :: EventSound(s, id)
  }

  /** The claims of a later state are some of the earlier one's, in order, and still sound one by one. */
  lemma FewerClaims(s: State, t: State, from: nat)
    requires ClaimsSound(s) && from <= |InFlight(s)| && InFlight(t) == InFlight(s)[from..]
    requires forall i | from <= i < |InFlight(s)| :: ClaimSound(t, InFlight(s)[i])
    ensures ClaimsSound(t)
  {
    var a, b := InFlight(s), InFlight(t);
    forall i | 0 <= i < |b| ensures ClaimSound(t, b[i]) {
      assert b[i] == a[from + i];
    }
    forall i, j | 0 <= i < j < |b| ensures b[i].id != b[j].id {
      assert b[i] == a[from + i] && b[j] == a[from + j];
    }
  }

  lemma ClaimedRow(s: State, ids: seq<string>, i: nat)
    requires Sound(s) && Enabled(s, ClaimBatch(ids)) && i < |ids|
    ensures ClaimSound(Effect(s, ClaimBatch(ids)), Claim(ids[i], s.events[ids[i]].attempts))
  {
    assert ids[i] in DueOf(s.events, s.disabled, s.now, false);
    assert EventSound(s, ids[i]);
  }

  lemma FlightClaimed(s: State, ids: seq<string>)
    requires Enabled(s, ClaimBatch(ids))
    ensures var flight := InFlight(Effect(s, ClaimBatch(ids)));
      |flight| == |ids| && forall i | 0 <= i < |ids| :: flight[i] == Claim(ids[i], s.events[ids[i]].attempts)
  {
    assert InFlight(Effect(s, ClaimBatch(ids))) == Claims(s.events, ids);
  }

  lemma ClaimingIsSound(s: State, ids: seq<string>)
    requires Sound(s) && Enabled(s, ClaimBatch(ids))
    ensures ClaimsSound(Effect(s, ClaimBatch(ids)))
  {
    var t := Effect(s, ClaimBatch(ids));
    var flight := InFlight(t);
    FlightClaimed(s, ids);
    forall i | 0 <= i < |flight| ensures ClaimSound(t, flight[i]) {
      ClaimedRow(s, ids, i);
    }
    forall i, j | 0 <= i < j < |flight| ensures flight[i].id != flight[j].id {
      assert ids[i] != ids[j];
    }
  }

  lemma RecordingIsSound(s: State)
    requires Sound(s) && s.inHand.Some?
    ensures ClaimsSound(Effect(s, Record))
  {
    var t := Effect(s, Record);
    var a := InFlight(s);
    assert a[1..] == s.batch == InFlight(t);
    forall i | 1 <= i < |a| ensures ClaimSound(t, a[i]) {
      assert a[0].id != a[i].id && ClaimSound(s, a[i]);
    }
    FewerClaims(s, t, 1);
  }

  lemma ClaimStays(s: State, step: Step, c: Claim)
    requires ClaimSound(s, c) && Enabled(s, step) && !step.ClaimBatch? && !step.Record?
    ensures ClaimSound(Effect(s, step), c)
  {
  }

  lemma ClaimsStep(s: State, step: Step)
    requires Sound(s) && Enabled(s, step)
    ensures ClaimsSound(Effect(s, step))
  {
    if step.ClaimBatch? {
      ClaimingIsSound(s, step.ids);
    } else if step.Record? {
      RecordingIsSound(s);
    } else {
      var a := InFlight(s);
      var from := if step.Crash? then |a| else if step.LoseRecord? then 1 else 0;
      FlightAfter(s, step, from);
      forall i | from <= i < |a| ensures ClaimSound(Effect(s, step), a[i]) {
        ClaimStays(s, step, a[i]);
      }
      FewerClaims(s, Effect(s, step), from);
    }
  }

  lemma FlightAfter(s: State, step: Step, from: nat)
    requires Enabled(s, step) && !step.ClaimBatch? && !step.Record?
    requires from == if step.Crash? then |InFlight(s)| else if step.LoseRecord? then 1 else 0
    ensures from <= |InFlight(s)| && InFlight(Effect(s, step)) == InFlight(s)[from..]
  {
  }

  lemma RecordedEvent(s: State, id: string)
    requires Sound(s) && s.inHand.Some?
    ensures EventSound(Effect(s, Record), id)
  {
    assert EventSound(s, id);
    assert InFlight(s)[0] == s.inHand.value.0;
    assert ClaimSound(s, InFlight(s)[0]);
  }

  lemma EventStep(s: State, step: Step, id: string)
    requires Sound(s) && Enabled(s, step)
    ensures EventSound(Effect(s, step), id)
  {
    assert EventSound(s, id);
    if step.Record? {
      RecordedEvent(s, id);
    }
  }

  lemma {:induction false} ReachableIsSound(steps: seq<Step>)
    ensures Sound(Exec(START, steps))
  {
    if steps != [] {
      var s := Exec(START, steps[..|steps| - 1]);
      var step := steps[|steps| - 1];
      ReachableIsSound(steps[..|steps| - 1]);
      if Enabled(s, step) {
        ClaimsStep(s, step);
        forall id ensures EventSound(Effect(s, step), id) {
          EventStep(s, step, id);
        }
      }
    }
  }

  /** How often the event was posted since it was last replayed. */
  function PostsSince(steps: seq<Step>, id: string): nat {
    if steps == [] then 0
    else
      var front, last := steps[..|steps| - 1], steps[|steps| - 1];
      var s := Exec(START, front);
      if !Enabled(s, last) then PostsSince(front, id)
      else if last == Replay(id) then 0
      else PostsSince(front, id) + if last.Post? && s.batch[0].id == id then 1 else 0
  }

  /** How many of those posts ended in a crash or a failed record. */
  function LostSince(steps: seq<Step>, id: string): nat {
    if steps == [] then 0
    else
      var front, last := steps[..|steps| - 1], steps[|steps| - 1];
      var s := Exec(START, front);
      if !Enabled(s, last) then LostSince(front, id)
      else if last == Replay(id) then 0
      else
        LostSince(front, id) +
        if (last.Crash? || last.LoseRecord?) && s.inHand.Some? && s.inHand.value.0.id == id then 1 else 0
  }

  /** The run's own count is what the state keeps. */
  lemma {:induction false} CountsAreKept(steps: seq<Step>, id: string)
    ensures var s := Exec(START, steps);
      Get(s.posts, id) == PostsSince(steps, id) && Get(s.lost, id) == LostSince(steps, id)
  {
    if steps != [] {
      var front, last := steps[..|steps| - 1], steps[|steps| - 1];
      CountsAreKept(front, id);
      OnlyKnownAreCounted(front, id);
      if Enabled(Exec(START, front), last) {
        CountStep(Exec(START, front), last, id);
      }
    }
  }

  /** Only an event that was enqueued is claimed, posted or counted. */
  predicate Known(s: State, id: string) {
    (id in s.events || id in s.lost || (exists i :: 0 <= i < |s.batch| && s.batch[i].id == id) ||
     (s.inHand.Some? && s.inHand.value.0.id == id)) ==> id in s.posts
  }

  lemma {:induction false} OnlyKnownAreCounted(steps: seq<Step>, id: string)
    ensures Known(Exec(START, steps), id)
  {
    if steps != [] {
      OnlyKnownAreCounted(steps[..|steps| - 1], id);
      KnownStep(Exec(START, steps[..|steps| - 1]), steps[|steps| - 1], id);
    }
  }

  lemma KnownStep(s: State, step: Step, id: string)
    requires Known(s, id)
    ensures Known(Apply(s, step), id)
  {
  }

  lemma CountStep(s: State, step: Step, id: string)
    requires Known(s, id) && Enabled(s, step)
    ensures var t := Effect(s, step);
      (Get(t.posts, id) == if step == Replay(id) then 0
         else Get(s.posts, id) + if step.Post? && s.batch[0].id == id then 1 else 0) &&
      (Get(t.lost, id) == if step == Replay(id) then 0
         else Get(s.lost, id) +
              if (step.Crash? || step.LoseRecord?) && s.inHand.Some? && s.inHand.value.0.id == id then 1 else 0)
  {
  }

  /** In every run an event is posted at most five times between replays, and once more for every post
      whose outcome was not recorded; an event still waiting has attempts left. */
  lemma EventsKeepTheirBudget(steps: seq<Step>, id: string)
    ensures var s := Exec(START, steps);
      id in s.events ==>
        PostsSince(steps, id) <= 5 + LostSince(steps, id) &&
        (s.events[id].status == Pending ==> s.events[id].attempts < 5)
  {
    var s := Exec(START, steps);
    ReachableIsSound(steps);
    CountsAreKept(steps, id);
    assert EventSound(s, id);
    if s.inHand.Some? {
      assert InFlight(s)[0] == s.inHand.value.0;
      assert ClaimSound(s, InFlight(s)[0]);
    }
  }

  // ---------------------------------------------------------------- events that are over

  /** Delivered, or dead with no post of it under way. */
  ghost predicate Over(s: State, id: string) {
    id in s.events &&
    (s.events[id].status == Delivered ||
     (s.events[id].status == Dead && forall i | 0 <= i < |InFlight(s)| :: InFlight(s)[i].id != id))
  }

  lemma OverIsNotInFlight(s: State, id: string)
    requires Sound(s) && Over(s, id)
    ensures forall i | 0 <= i < |InFlight(s)| :: InFlight(s)[i].id != id
  {
    forall i | 0 <= i < |InFlight(s)| ensures InFlight(s)[i].id != id {
      assert ClaimSound(s, InFlight(s)[i]);
    }
  }

  lemma OverRow(s: State, step: Step, id: string)
    requires Sound(s) && Over(s, id) && step != Replay(id) && Enabled(s, step)
    ensures var t := Effect(s, step);
      id in t.events ==> t.events[id] == s.events[id] && Get(t.posts, id) == Get(s.posts, id)
  {
    OverIsNotInFlight(s, id);
    assert EventSound(s, id);
    assert InFlight(s) != [] ==> InFlight(s)[0].id != id;
  }

  lemma OverFlight(s: State, step: Step, id: string)
    requires Sound(s) && Over(s, id) && Enabled(s, step)
    ensures forall i | 0 <= i < |InFlight(Effect(s, step))| :: InFlight(Effect(s, step))[i].id != id
  {
    OverIsNotInFlight(s, id);
    var a, t := InFlight(s), Effect(s, step);
    if step.ClaimBatch? {
      assert InFlight(t) == Claims(s.events, step.ids);
    } else if step.Record? {
      assert InFlight(t) == a[1..];
    } else {
      FlightAfter(s, step, if step.Crash? then |a| else if step.LoseRecord? then 1 else 0);
    }
  }

  lemma OverStep(s: State, step: Step, id: string)
    requires Sound(s) && Over(s, id) && step != Replay(id)
    ensures var t := Apply(s, step);
      id in t.events ==> Over(t, id) && t.events[id] == s.events[id] && Get(t.posts, id) == Get(s.posts, id)
  {
    if Enabled(s, step) {
      OverRow(s, step, id);
      OverFlight(s, step, id);
    } else {
      OverIsNotInFlight(s, id);
    }
  }

  lemma {:induction false} OverRun(before: seq<Step>, after: seq<Step>, id: string)
    requires Over(Exec(START, before), id)
    requires forall i | 0 <= i < |after| :: after[i] != Replay(id) || Exec(START, before).events[id].status == Delivered
    ensures var s, t := Exec(START, before), Exec(START, before + after);
      id in t.posts &&
      (id in t.events ==> Over(t, id) && t.events[id] == s.events[id] && Get(t.posts, id) == Get(s.posts, id))
  {
    if after == [] {
      assert before + after == before;
      ReachableIsSound(before);
      assert EventSound(Exec(START, before), id);
    } else {
      var front, step := after[..|after| - 1], after[|after| - 1];
      OverRun(before, front, id);
      ReachableIsSound(before + front);
      assert (before + after)[..|before + after| - 1] == before + front;
      var u := Exec(START, before + front);
      if id in u.events && step != Replay(id) {
        OverStep(u, step, id);
      }
    }
  }

  /** Once an event is delivered, or dead with no post of it under way, its row is never written and the
      event never posted again, unless a person replays it, and a delivered one cannot be replayed. */
  lemma OverStaysOver(before: seq<Step>, after: seq<Step>, id: string)
    requires Over(Exec(START, before), id)
    requires Replay(id) !in after || Exec(START, before).events[id].status == Delivered
    ensures var s, t := Exec(START, before), Exec(START, before + after);
      id in t.events ==> t.events[id] == s.events[id] && PostsSince(before + after, id) == PostsSince(before, id)
  {
    OverRun(before, after, id);
    CountsAreKept(before, id);
    CountsAreKept(before + after, id);
  }

  /** A row keeps its occasion, and only an occasion that has none gets a row. */
  lemma OccasionStep(s: State, step: Step, id: string)
    requires Enabled(s, step)
    ensures var t := Effect(s, step);
      id in t.events ==>
        if step.Enqueue? && id == step.id then id !in s.events && !Recorded(s.events, t.events[id])
        else id in s.events && SameOccasion(s.events[id], t.events[id])
  {
  }

  /** A repeated receipt cannot become a second event: no two events share webhook, message and kind. */
  lemma OneEventPerOccasion(steps: seq<Step>, a: string, b: string)
    ensures var events := Exec(START, steps).events;
      (a in events && b in events && events[a].webhookId == events[b].webhookId &&
       events[a].messageId == events[b].messageId && events[a].kind == events[b].kind) ==> a == b
  {
    OccasionsAreDistinct(steps, a, b);
  }

  lemma {:induction false} OccasionsAreDistinct(steps: seq<Step>, a: string, b: string)
    ensures var s := Exec(START, steps);
      a in s.events && b in s.events && SameOccasion(s.events[a], s.events[b]) ==> a == b
  {
    if steps != [] {
      var s, step := Exec(START, steps[..|steps| - 1]), steps[|steps| - 1];
      OccasionsAreDistinct(steps[..|steps| - 1], a, b);
      if Enabled(s, step) {
        DistinctOccasions(s, step, a, b);
      }
    }
  }

  lemma DistinctOccasions(s: State, step: Step, a: string, b: string)
    requires Enabled(s, step)
    requires a in s.events && b in s.events && SameOccasion(s.events[a], s.events[b]) ==> a == b
    ensures var t := Effect(s, step);
      a in t.events && b in t.events && SameOccasion(t.events[a], t.events[b]) ==> a == b
  {
    OccasionStep(s, step, a);
    OccasionStep(s, step, b);
  }

  // ---------------------------------------------------------------- the life of one event

  /** How an event comes to be: pending, due at once, with no attempt and nothing to tell. */
  lemma EventsBegin(s: State, step: Step, id: string)
    requires Enabled(s, step) && id !in s.events && id in Effect(s, step).events
    ensures step.Enqueue? && step.id == id
    ensures Effect(s, step).events[id] ==
            Event(step.webhookId, step.messageId, step.kind, Pending, 0, s.now, None, None, None)
    ensures forall other | other in s.events ::
      !(s.events[other].webhookId == step.webhookId && s.events[other].messageId == step.messageId &&
        s.events[other].kind == step.kind)
  {
  }

  predicate RecordsFor(s: State, step: Step, id: string) {
    step.Record? && s.inHand.Some? && s.inHand.value.0.id == id
  }

  /** It does so whenever an event is emitted for an occasion that has none. */
  lemma EventsEnter(s: State, step: Step)
    requires step.Enqueue? && Enabled(s, step)
    ensures step.id in Effect(s, step).events <==>
      forall other | other in s.events ::
        !(s.events[other].webhookId == step.webhookId && s.events[other].messageId == step.messageId &&
          s.events[other].kind == step.kind)
  {
  }

  /** What may happen to one: leased for twenty seconds, only while it is pending, due and its webhook enabled;
      retired, only while it is pending, due and its webhook disabled; replayed, only when dead; the outcome of a
      post recorded; and nothing else, by no other step. */
  lemma EventMoves(s: State, step: Step, id: string)
    requires Enabled(s, step) && id in s.events && id in Effect(s, step).events
    ensures var b, a := s.events[id], Effect(s, step).events[id];
      var due := b.status == Pending && b.nextAttemptAt <= s.now;
      if step.ClaimBatch? && id in step.ids then
        due && b.webhookId !in s.disabled && a == b.(nextAttemptAt := s.now + 20)
      else if step.Retire? && id in step.doomed then
        due && b.webhookId in s.disabled &&
        a == b.(status := Dead, nextAttemptAt := s.now,
                lastError := Some("webhook was disabled before this event could be delivered"))
      else if step == Replay(id) then
        b.status == Dead &&
        a == b.(status := Pending, attempts := 0, nextAttemptAt := s.now, lastError := None, lastStatus := None)
      else if RecordsFor(s, step, id) then
        a == Noted(b, s.inHand.value.0.attempts, s.inHand.value.1, s.now) && a.attempts == b.attempts + 1
      else a == b
  {
    if RecordsFor(s, step, id) {
      RecordedOutcome(s.events[id], s.inHand.value.0.attempts, s.inHand.value.1, s.now);
    }
  }

  /** Only an event of a webhook that is gone goes. */
  lemma EventsEnd(s: State, step: Step, id: string)
    requires Enabled(s, step) && id in s.events
    ensures id !in Effect(s, step).events <==> step.Delete? && s.events[id].webhookId == step.webhookId
  {
  }
}
