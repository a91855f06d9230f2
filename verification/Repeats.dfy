/** What an idempotency key is worth once its send is on a queue: when a repeat is recognised, and when
    the text is queued a second time (wa-shared/dispatch/enqueuer.go). */
module Repeats {
  import opened Options
  import opened Keys
  import opened Dispatch
  import opened DispatchRuns
  import Jobs

  /** The task a send opens when it is not folded into another. */
  function OwnName(s: Send): TaskId {
    (s.Queue(), s.Key())
  }

  /** The text sits in a task of its own send's name, rather than one it was merged into. */
  predicate Opener(e: Entry) {
    e.id == OwnName(e.send)
  }

  predicate OpenedBy(entries: seq<Entry>, i: nat, id: TaskId) {
    i < |entries| && entries[i].fate == Held && Opener(entries[i]) && entries[i].id == id
  }

  ghost predicate OneOpener(m: State) {
    (forall i: nat, j: nat, id | OpenedBy(m.entries, i, id) && OpenedBy(m.entries, j, id) :: i == j) &&
    (forall id | id in m.sys.tasks :: exists i: nat :: OpenedBy(m.entries, i, id)) &&
    (forall i: nat, id | OpenedBy(m.entries, i, id) :: id in m.sys.tasks)
  }

  // ---------------------------------------------------------------- one own copy at a time

  lemma EntryAdded(entries: seq<Entry>, e: Entry, i: nat, id: TaskId)
    ensures OpenedBy(entries + [e], i, id) <==>
            OpenedBy(entries, i, id) || (i == |entries| && e.fate == Held && Opener(e) && e.id == id)
  {
  }

  lemma EntriesRetired(entries: seq<Entry>, gone: TaskId, fate: Fate, i: nat, id: TaskId)
    requires fate != Held
    ensures OpenedBy(Retire(entries, {gone}, fate), i, id) <==> OpenedBy(entries, i, id) && id != gone
  {
  }

  lemma OpeningKeepsOpener(m: State, n: State, s: Send)
    requires OneOpener(m) && OwnName(s) !in m.sys.tasks
    requires n.entries == m.entries + [Entry(OwnName(s), s, Held)]
    requires n.sys.tasks.Keys == m.sys.tasks.Keys + {OwnName(s)}
    ensures OneOpener(n)
  {
    var e := Entry(OwnName(s), s, Held);
    forall i: nat, id
      ensures OpenedBy(n.entries, i, id) <==> OpenedBy(m.entries, i, id) || (i == |m.entries| && id == e.id)
    {
      EntryAdded(m.entries, e, i, id);
    }
    assert OpenedBy(n.entries, |m.entries|, e.id);
    forall id | id in n.sys.tasks ensures exists i: nat :: OpenedBy(n.entries, i, id) {
      if id != e.id {
        var i: nat :| OpenedBy(m.entries, i, id);
        assert OpenedBy(n.entries, i, id);
      }
    }
  }

  lemma MergingKeepsOpener(m: State, n: State, id: TaskId, s: Send)
    requires OneOpener(m) && id != OwnName(s)
    requires n.entries == m.entries + [Entry(id, s, Held)] && n.sys.tasks.Keys == m.sys.tasks.Keys
    ensures OneOpener(n)
  {
    forall i: nat, other ensures OpenedBy(n.entries, i, other) <==> OpenedBy(m.entries, i, other) {
      EntryAdded(m.entries, Entry(id, s, Held), i, other);
    }
  }

  lemma RemovalKeepsOpener(m: State, n: State, gone: TaskId, fate: Fate)
    requires OneOpener(m) && fate != Held
    requires n.entries == Retire(m.entries, {gone}, fate) && n.sys.tasks.Keys == m.sys.tasks.Keys - {gone}
    ensures OneOpener(n)
  {
    forall i: nat, id ensures OpenedBy(n.entries, i, id) <==> OpenedBy(m.entries, i, id) && id != gone {
      EntriesRetired(m.entries, gone, fate, i, id);
    }
  }

  lemma LookKeepsOpener(m: State, n: State, s: Send, env: Env, cfg: Config)
    requires OneOpener(m) && n.sys == Looked(m.sys, s, env, cfg).0
    requires n.entries == Tracked(m.entries, s, m.sys.tasks, n.sys.tasks)
    ensures OneOpener(n)
  {
    LookedShape(m.sys, s, env, cfg);
    LookQueuesOneText(m, s, env, cfg);
    if Joins(m.sys, s, env, cfg) && !env.delete.Refuses? {
      if env.delete.Answers? && env.restore.Applies() {
        MergingKeepsOpener(m, n, OpenTask(m.sys, s), s);
      } else {
        RemovalKeepsOpener(m, n, OpenTask(m.sys, s), Lost);
      }
    }
  }

  lemma PlaceKeepsOpener(m: State, n: State, s: Send, env: Env)
    requires OneOpener(m) && n.sys == Placed(m.sys, s, env).0
    requires n.entries == Tracked(m.entries, s, m.sys.tasks, n.sys.tasks)
    ensures OneOpener(n)
  {
    PlacedShape(m.sys, s, env);
    PlaceQueuesOneText(m, s, env);
    if Queues(m.sys, s, env) {
      OpeningKeepsOpener(m, n, s);
    }
  }

  lemma StepKeepsOpener(m: State, step: Step, cfg: Config)
    requires OneOpener(m)
    ensures OneOpener(Apply(m, step, cfg).0)
  {
    var n := Apply(m, step, cfg).0;
    match step
    case Look(req, env) =>
      if Validate(req).Ok? {
        LookKeepsOpener(m, n, Validate(req).value, env, cfg);
      }
    case Place(i, env) =>
      if i < |m.inFlight| {
        PlaceKeepsOpener(m, n, m.inFlight[i], env);
      }
    case Leave(id) => RemovalKeepsOpener(m, n, id, Departed);
    case _ =>
  }

  lemma {:induction false} ExecKeepsOpener(m: State, steps: seq<Step>, cfg: Config)
    requires OneOpener(m)
    ensures OneOpener(Exec(m, steps, cfg))
    decreases |steps|
  {
    if steps != [] {
      StepKeepsOpener(m, steps[0], cfg);
      ExecKeepsOpener(Apply(m, steps[0], cfg).0, steps[1..], cfg);
    }
  }

  /** In every run, whatever steps come between, a task is on the queue exactly while a text sits in it
      under its own name, and then one such text: no key has two copies under its own name. */
  lemma TasksHaveOneOpener(steps: seq<Step>, cfg: Config, id: TaskId)
    ensures var m := Exec(INIT, steps, cfg);
      (id in m.sys.tasks <==> exists i: nat :: OpenedBy(m.entries, i, id)) &&
      (forall i: nat, j: nat | OpenedBy(m.entries, i, id) && OpenedBy(m.entries, j, id) :: i == j)
  {
    ExecKeepsOpener(INIT, steps, cfg);
  }

  /** An earlier text of the same API key, caller key, recipient, session and lane. */
  predicate Copy(e: Entry, s: Send) {
    OwnName(e.send) == OwnName(s)
  }

  /** It can no longer be recognised: it went into another send's task, was lost, or left with its task. */
  predicate OutOfSight(e: Entry) {
    !Opener(e) || e.fate == Lost || e.fate == Departed
  }

  /** In every run a repeat is answered as a duplicate, and changes nothing, exactly while a copy sits
      under its own name. */
  lemma RepeatIsRecognisedIff(steps: seq<Step>, req: Request, env: Env, cfg: Config)
    requires Validate(req).Ok? && !env.lookupFails
    ensures var m := Exec(INIT, steps, cfg); var s := Validate(req).value;
      var (n, said) := Apply(m, Look(req, env), cfg);
      (said.Said? && said.result.Ok? && said.result.value.duplicate && n == m) <==>
        exists i :: 0 <= i < |m.entries| && Copy(m.entries[i], s) && !OutOfSight(m.entries[i])
  {
    var m := Exec(INIT, steps, cfg);
    var s := Validate(req).value;
    ExecKeepsOpener(INIT, steps, cfg);
    SeenIff(m, s);
    LookedShape(m.sys, s, env, cfg);
    LookQueuesOneText(m, s, env, cfg);
  }

  lemma SeenIff(m: State, s: Send)
    requires OneOpener(m)
    ensures OwnName(s) in m.sys.tasks <==>
            exists i :: 0 <= i < |m.entries| && Copy(m.entries[i], s) && !OutOfSight(m.entries[i])
  {
    if OwnName(s) in m.sys.tasks {
      var i: nat :| OpenedBy(m.entries, i, OwnName(s));
      assert Copy(m.entries[i], s) && !OutOfSight(m.entries[i]);
    }
    if i :| 0 <= i < |m.entries| && Copy(m.entries[i], s) && !OutOfSight(m.entries[i]) {
      assert OpenedBy(m.entries, i, OwnName(s));
    }
  }

  lemma AddedOutOfSight(m: State, step: Step, cfg: Config)
    requires OneOpener(m) && |Apply(m, step, cfg).0.entries| > |m.entries|
    ensures OwnName(Apply(m, step, cfg).0.entries[|m.entries|].send) !in m.sys.tasks
  {
    match step
    case Look(req, env) =>
      LookQueuesOneText(m, Validate(req).value, env, cfg);
    case Place(i, env) =>
      PlaceQueuesOneText(m, m.inFlight[i], env);
    case _ =>
  }

  /** In every run a text is queued again under the same key only when every earlier copy of it has been
      merged elsewhere, was lost, or has left with its task. */
  lemma SecondCopyOnlyOutOfSight(steps: seq<Step>, step: Step, cfg: Config)
    ensures var m := Exec(INIT, steps, cfg);
      var n := Apply(m, step, cfg).0;
      |n.entries| > |m.entries| ==>
        forall i | 0 <= i < |m.entries| && Copy(m.entries[i], n.entries[|m.entries|].send) :: OutOfSight(m.entries[i])
  {
    var m := Exec(INIT, steps, cfg);
    var n := Apply(m, step, cfg).0;
    ExecKeepsOpener(INIT, steps, cfg);
    if |n.entries| > |m.entries| {
      AddedOutOfSight(m, step, cfg);
      SeenIff(m, n.entries[|m.entries|].send);
    }
  }

  predicate Faultless(env: Env) {
    !env.lookupFails && !env.mergeLookupFails && env.slot.Some? && env.claim.Answers? && env.delete.Answers? &&
    env.restore.Answers? && env.reopen.Answers? && env.record.Answers? && env.enqueue.Answers?
  }

  /** And then it is: in every run, a call that nothing disturbs and nothing fails queues the text again
      exactly when every earlier copy is out of sight. */
  lemma TextIsQueuedAgainIff(steps: seq<Step>, req: Request, env: Env, cfg: Config)
    requires Validate(req).Ok? && Faultless(env)
    ensures var m := Exec(INIT, steps, cfg);
      var result := Enqueued(m.sys, req, env, cfg).1;
      result.Ok? &&
      (!result.value.duplicate <==>
        forall i | 0 <= i < |m.entries| && Copy(m.entries[i], Validate(req).value) :: OutOfSight(m.entries[i]))
  {
    var m := Exec(INIT, steps, cfg);
    var s := Validate(req).value;
    ExecKeepsOpener(INIT, steps, cfg);
    SeenIff(m, s);
    LookedShape(m.sys, s, env, cfg);
    PlacedShape(Looked(m.sys, s, env, cfg).0, s, env);
  }

  // ---------------------------------------------------------------- repeating at once

  /** Repeating an accepted send at once is recognised, and changes nothing, exactly when the first copy
      did not join an open task. */
  lemma RepeatAtOnceIff(sys: Sys, req: Request, env: Env, again: Env, cfg: Config)
    requires Enqueued(sys, req, env, cfg).1.Ok? && !again.lookupFails
    ensures var (after, first) := Enqueued(sys, req, env, cfg);
      var (last, second) := Enqueued(after, req, again, cfg);
      (second.Ok? && second.value.duplicate && last == after) <==>
        !Folds(sys, Validate(req).value, env, cfg)
  {
    var s := Validate(req).value;
    var after := Enqueued(sys, req, env, cfg).0;
    CoalescedIff(sys, req, env, cfg);
    LookedShape(sys, s, env, cfg);
    PlacedShape(Looked(sys, s, env, cfg).0, s, env);
    LookedShape(after, s, again, cfg);
    PlacedShape(Looked(after, s, again, cfg).0, s, again);
  }

  /** Known before the first of two calls: the second will join the same task. */
  predicate FoldsAgain(sys: Sys, s: Send, again: Env, cfg: Config)
    requires s.Group() in sys.groups && OpenTask(sys, s) in sys.tasks
  {
    var g, task := sys.groups[s.Group()], sys.tasks[OpenTask(sys, s)];
    !again.lookupFails && again.coalescing && again.claim.Answers? && again.now < g.expiresAt &&
    g.count + 1 < cfg.maxMessages && !again.mergeLookupFails && task.processAt - again.now >= cfg.minLead &&
    |task.payload.text + COALESCE_SEPARATOR + s.req.text + COALESCE_SEPARATOR + s.req.text| <= MAX_TEXT_LEN &&
    again.delete.Answers? && again.restore.Answers?
  }

  /** A send that is merged and repeated at once is merged again exactly when its group has a second
      place, its task still has the lead and the room, and no call fails; its text is then there twice. */
  lemma MergedTwiceIff(sys: Sys, req: Request, env: Env, again: Env, cfg: Config)
    requires Validate(req).Ok? && Folds(sys, Validate(req).value, env, cfg)
    ensures var s := Validate(req).value; var id := OpenTask(sys, s);
      var (after, first) := Enqueued(sys, req, env, cfg);
      var (last, second) := Enqueued(after, req, again, cfg);
      (second.Ok? && second.value.coalesced <==> FoldsAgain(sys, s, again, cfg)) &&
      (FoldsAgain(sys, s, again, cfg) ==>
         id in last.tasks &&
         last.tasks[id].payload.text ==
           sys.tasks[id].payload.text + COALESCE_SEPARATOR + req.text + COALESCE_SEPARATOR + req.text)
  {
    ValidatedIsValid(req);
    CoalescedIff(sys, req, env, cfg);
    CoalescedIff(Enqueued(sys, req, env, cfg).0, req, again, cfg);
  }

  // ---------------------------------------------------------------- runs

  const CFG := Config(60, 5, 10)

  function AllWell(now: int): Env {
    Env(now, true, Some(now + 100), false, Answers, false, Answers, Answers, Answers, Answers, Answers, Answers)
  }

  function Sample(to: string, callerKey: string, text: string): Request {
    Request("session", to, text, "default", "", callerKey, "key", "msg", "", map[], "")
  }

  function SampleSend(to: string, callerKey: string, text: string): Send {
    Send(Sample(to, callerKey, text), to, Default)
  }

  /** Two sends of one API key to one recipient, under different caller keys. */
  predicate Pair(a: Send, b: Send) {
    a.Valid() && b.Valid() && a.to == b.to && a.req.callerKey != b.req.callerKey &&
    a == SampleSend(a.to, a.req.callerKey, a.req.text) && b == SampleSend(b.to, b.req.callerKey, b.req.text) &&
    |a.req.text| <= 1000 && |b.req.text| <= 1000
  }

  lemma PairIsValid(a: Send, b: Send)
    requires Pair(a, b)
    ensures Validate(a.req) == Ok(a) && Validate(b.req) == Ok(b)
    ensures a.Key() != b.Key() && a.Queue() == b.Queue() && a.Group() == b.Group()
  {
    NormalisedRecipients(a.to);
    if a.Key() == b.Key() {
      IdempotencyKeyInjective(a.req.apiKeyId, a.req.callerKey, a.to, b.req.apiKeyId, b.req.callerKey, b.to);
    }
  }

  lemma PairsExist()
    ensures exists a, b :: Pair(a, b)
  {
    var to := "62812345678";
    assert IsRecipient(to);
    assert Pair(SampleSend(to, "x", "hello"), SampleSend(to, "y", "there"));
  }

  lemma ExecOne(m: State, step: Step, rest: seq<Step>, cfg: Config)
    ensures Exec(m, [step] + rest, cfg) == Exec(Apply(m, step, cfg).0, rest, cfg)
  {
    assert ([step] + rest)[1..] == rest;
  }

  /** The first of the pair, queued on an empty system, with its group open for the second. */
  ghost predicate Opened(m: State, a: Send) {
    m.entries == [Entry(OwnName(a), a, Held)] && m.inFlight == [] &&
    m.sys.tasks == map[OwnName(a) := Task(PayloadOf(a), Waiting, 100)] &&
    m.sys.groups == map[a.Group() := Group(a.Key(), 1, 60)] &&
    forall key | key in m.sys.ledger.jobs :: m.sys.ledger.jobs[key].failoverOf.None?
  }

  /** The first send, about to be placed. */
  ghost predicate Looking(m: State, a: Send) {
    m.entries == [] && m.inFlight == [a] && m.sys.tasks == map[] && m.sys.ledger == Jobs.Ledger(map[], map[]) &&
    m.sys.groups == map[a.Group() := Group(a.Key(), 1, 60)]
  }

  lemma FirstLooks(a: Send)
    requires Validate(a.req) == Ok(a) && a.priority == Default
    ensures Looking(Apply(INIT, Look(a.req, AllWell(0)), CFG).0, a)
  {
    LookQueuesOneText(INIT, a, AllWell(0), CFG);
  }

  lemma FirstPlaces(m: State, a: Send)
    requires Looking(m, a) && a.req.failoverOf == ""
    ensures Opened(Apply(m, Place(0, AllWell(0)), CFG).0, a)
  {
    PlaceQueuesOneText(m, a, AllWell(0));
  }

  lemma FirstIsOpened(a: Send, b: Send)
    requires Pair(a, b)
    ensures Opened(Exec(INIT, [Look(a.req, AllWell(0)), Place(0, AllWell(0))], CFG), a)
  {
    PairIsValid(a, b);
    FirstLooks(a);
    var m := Apply(INIT, Look(a.req, AllWell(0)), CFG).0;
    FirstPlaces(m, a);
    ExecOne(INIT, Look(a.req, AllWell(0)), [Place(0, AllWell(0))], CFG);
    ExecOne(m, Place(0, AllWell(0)), [], CFG);
  }

  lemma SecondJoins(m: State, a: Send, b: Send)
    requires Pair(a, b) && Opened(m, a)
    ensures Joins(m.sys, b, AllWell(0), CFG) && OpenTask(m.sys, b) == OwnName(a)
    ensures FoldsAgain(m.sys, b, AllWell(0), CFG)
  {
    PairIsValid(a, b);
  }

  /** A look that joins goes into the open task, and its caller is told it was accepted. */
  lemma JoinStep(m: State, s: Send)
    requires Validate(s.req) == Ok(s) && Joins(m.sys, s, AllWell(0), CFG)
    ensures var (n, said) := Apply(m, Look(s.req, AllWell(0)), CFG);
      var id := OpenTask(m.sys, s);
      said.Said? && said.result.Ok? && n.entries == m.entries + [Entry(id, s, Held)] &&
      n.sys.tasks == m.sys.tasks[id := WithText(m.sys.tasks[id], s.req.text)] &&
      n.sys.groups == m.sys.groups[s.Group() := m.sys.groups[s.Group()].(count := m.sys.groups[s.Group()].count + 1)]
  {
    LookedShape(m.sys, s, AllWell(0), CFG);
    LookQueuesOneText(m, s, AllWell(0), CFG);
  }

  /** A repeat that is queued twice: the second send is merged into the first one's task, and so is its
      repeat under the same key. Both callers are told it was accepted. */
  lemma MergedRepeatRun(a: Send, b: Send)
    requires Pair(a, b)
    ensures var m := Exec(INIT, [Look(a.req, AllWell(0)), Place(0, AllWell(0))], CFG);
      var once := Apply(m, Look(b.req, AllWell(0)), CFG);
      var twice := Apply(once.0, Look(b.req, AllWell(0)), CFG);
      once.1.Said? && once.1.result.Ok? && twice.1.Said? && twice.1.result.Ok? &&
      twice.0.entries == [Entry(OwnName(a), a, Held), Entry(OwnName(a), b, Held), Entry(OwnName(a), b, Held)]
  {
    var m := Exec(INIT, [Look(a.req, AllWell(0)), Place(0, AllWell(0))], CFG);
    FirstIsOpened(a, b);
    RepeatJoins(m, a, b);
  }

  lemma RepeatJoins(m: State, a: Send, b: Send)
    requires Pair(a, b) && Opened(m, a)
    ensures var once := Apply(m, Look(b.req, AllWell(0)), CFG);
      var twice := Apply(once.0, Look(b.req, AllWell(0)), CFG);
      once.1.Said? && once.1.result.Ok? && twice.1.Said? && twice.1.result.Ok? &&
      twice.0.entries == m.entries + [Entry(OwnName(a), b, Held)] + [Entry(OwnName(a), b, Held)]
  {
    PairIsValid(a, b);
    SecondJoins(m, a, b);
    JoinStep(m, b);
    var once := Apply(m, Look(b.req, AllWell(0)), CFG).0;
    JoinsAgain(m, a, b, once.sys);
    JoinStep(once, b);
  }

  lemma JoinsAgain(m: State, a: Send, b: Send, after: Sys)
    requires Pair(a, b) && Opened(m, a)
    requires after.tasks == m.sys.tasks[OwnName(a) := WithText(m.sys.tasks[OwnName(a)], b.req.text)]
    requires after.groups == m.sys.groups[b.Group() := Group(a.Key(), 2, 60)]
    ensures Joins(after, b, AllWell(0), CFG) && OpenTask(after, b) == OwnName(a)
  {
    PairIsValid(a, b);
  }

  /** A text lost with nobody told: the open task is deleted, the reply to that is lost, and the second
      send goes its own way. */
  lemma SilentLossRun(a: Send, b: Send)
    requires Pair(a, b)
    ensures var m := Exec(INIT, [Look(a.req, AllWell(0)), Place(0, AllWell(0))], CFG);
      var (n, said) := Apply(m, Look(b.req, AllWell(0).(delete := LosesReply)), CFG);
      said == Silent && n.entries == [Entry(OwnName(a), a, Lost)] && n.sys.tasks == map[]
  {
    var m := Exec(INIT, [Look(a.req, AllWell(0)), Place(0, AllWell(0))], CFG);
    var env := AllWell(0).(delete := LosesReply);
    PairIsValid(a, b);
    FirstIsOpened(a, b);
    SecondJoins(m, a, b);
    assert Joins(m.sys, b, env, CFG);
    LookedShape(m.sys, b, env, CFG);
    LookQueuesOneText(m, b, env, CFG);
  }

  /** A look whose text joins the open task and whose re-enqueue loses its reply. */
  lemma UnsaidStep(m: State, s: Send, env: Env)
    requires Validate(s.req) == Ok(s) && Joins(m.sys, s, env, CFG) && env.delete.Answers? && env.restore.LosesReply?
    ensures var (n, said) := Apply(m, Look(s.req, env), CFG);
      var id := OpenTask(m.sys, s);
      said == Said(Err(LostTheOpenTask(id.1))) && n.entries == m.entries + [Entry(id, s, Held)] &&
      n.sys.tasks == m.sys.tasks[id := WithText(m.sys.tasks[id], s.req.text)]
  {
    LookedShape(m.sys, s, env, CFG);
    LookQueuesOneText(m, s, env, CFG);
  }

  /** A false alarm: the open task is deleted and put back with the second text in it, the reply to that is
      lost, and the caller is told that the task was. */
  lemma FalseAlarmRun(a: Send, b: Send)
    requires Pair(a, b)
    ensures var m := Exec(INIT, [Look(a.req, AllWell(0)), Place(0, AllWell(0))], CFG);
      var (n, said) := Apply(m, Look(b.req, AllWell(0).(restore := LosesReply)), CFG);
      said == Said(Err(LostTheOpenTask(a.Key()))) &&
      n.entries == [Entry(OwnName(a), a, Held), Entry(OwnName(a), b, Held)] && OwnName(a) in n.sys.tasks &&
      n.sys.tasks[OwnName(a)].payload.text == a.req.text + COALESCE_SEPARATOR + b.req.text
  {
    var m := Exec(INIT, [Look(a.req, AllWell(0)), Place(0, AllWell(0))], CFG);
    var env := AllWell(0).(restore := LosesReply);
    PairIsValid(a, b);
    FirstIsOpened(a, b);
    SecondJoins(m, a, b);
    assert Joins(m.sys, b, env, CFG);
    UnsaidStep(m, b, env);
  }
}
