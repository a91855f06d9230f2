/** Many callers enqueueing at once: where every accepted text is, at every moment. Each Enqueue
    is two steps, so that other calls, workers and operators come between its look at the queue
    and its own enqueue. */
module DispatchRuns {
  import opened Options
  import opened Keys
  import opened Dispatch
  import Jobs
  import JobHistory

  datatype Fate = Held | Departed | Lost

  /** One text that was put on the queue and the task it went into. */
  datatype Entry = Entry(id: TaskId, send: Send, fate: Fate)

  datatype State = State(sys: Sys, entries: seq<Entry>, inFlight: seq<Send>)

  datatype Step =
    | Look(req: Request, env: Env)            // validate, look, coalesce
    | Place(i: nat, env: Env)                 // the i-th send in flight records and queues itself
    | Advance(id: TaskId, next: TaskState, at: int)   // a worker takes, ends or reschedules a task
    | Leave(id: TaskId)                       // the task is gone: retention over, or an operator's delete
    | OtherWrite(w: JobHistory.Write)         // any other writer of the job table

  datatype Outcome = Said(result: Result<Answer, Error>) | Silent

  const INIT := State(Sys(map[], map[], Jobs.Ledger(map[], map[])), [], [])

  function Retire(entries: seq<Entry>, gone: set<TaskId>, fate: Fate): (out: seq<Entry>)
    ensures |out| == |entries|
  {
    seq(|entries|, i requires 0 <= i < |entries| =>
      if entries[i].id in gone && entries[i].fate == Held then entries[i].(fate := fate) else entries[i])
  }

  /** The tasks that are new, or whose text is. */
  function Grown(before: map<TaskId, Task>, after: map<TaskId, Task>): set<TaskId> {
    set id | id in after && (id !in before || after[id].payload.text != before[id].payload.text)
  }

  /** The books are kept on the queue alone: the texts of a task that vanished are lost, and a text is
      entered where a task grew. What callers are told does not matter to them. */
  ghost function Tracked(entries: seq<Entry>, s: Send, before: map<TaskId, Task>, after: map<TaskId, Task>)
    : seq<Entry>
  {
    var kept := Retire(entries, before.Keys - after.Keys, Lost);
    if Grown(before, after) == {} then kept
    else var id :| id in Grown(before, after); kept + [Entry(id, s, Held)]
  }

  ghost function Apply(m: State, step: Step, cfg: Config): (State, Outcome) {
    match step
    case Look(req, env) =>
      (match Validate(req)
       case Err(error) => (m, Said(Err(error)))
       case Ok(s) =>
         var (sys, verdict) := Looked(m.sys, s, env, cfg);
         var entries := Tracked(m.entries, s, m.sys.tasks, sys.tasks);
         match verdict
         case Answered(answer) => (State(sys, entries, m.inFlight), Said(Ok(answer)))
         case Refused(error) => (State(sys, entries, m.inFlight), Said(Err(error)))
         case Proceed => (State(sys, entries, m.inFlight + [s]), Silent))
    case Place(i, env) =>
      if i >= |m.inFlight| then (m, Silent)
      else
        var s := m.inFlight[i];
        var (sys, result) := Placed(m.sys, s, env);
        (State(sys, Tracked(m.entries, s, m.sys.tasks, sys.tasks), m.inFlight[..i] + m.inFlight[i + 1..]), Said(result))
    case Advance(id, next, at) =>
      if id !in m.sys.tasks then (m, Silent)
      else (m.(sys := m.sys.(tasks := m.sys.tasks[id := m.sys.tasks[id].(state := next, processAt := at)])), Silent)
    case Leave(id) =>
      (m.(sys := m.sys.(tasks := m.sys.tasks - {id}), entries := Retire(m.entries, {id}, Departed)), Silent)
    case OtherWrite(w) => (m.(sys := m.sys.(ledger := JobHistory.Apply(m.sys.ledger, w))), Silent)
  }

  ghost function Exec(m: State, steps: seq<Step>, cfg: Config): State
    decreases |steps|
  {
    if steps == [] then m else Exec(Apply(m, steps[0], cfg).0, steps[1..], cfg)
  }

  // ---------------------------------------------------------------- the texts of a task

  /** The texts held by one task, in the order they were accepted. */
  function TextsOf(entries: seq<Entry>, id: TaskId): seq<string> {
    if entries == [] then []
    else
      var last := entries[|entries| - 1];
      TextsOf(entries[..|entries| - 1], id) + (if last.id == id && last.fate == Held then [last.send.req.text] else [])
  }

  function Join(texts: seq<string>): string {
    if texts == [] then ""
    else if |texts| == 1 then texts[0]
    else Join(texts[..|texts| - 1]) + COALESCE_SEPARATOR + texts[|texts| - 1]
  }

  lemma TextsAppend(entries: seq<Entry>, e: Entry, id: TaskId)
    ensures TextsOf(entries + [e], id) ==
            if e.id == id && e.fate == Held then TextsOf(entries, id) + [e.send.req.text] else TextsOf(entries, id)
  {
    assert (entries + [e])[..|entries|] == entries;
  }

  lemma JoinAppend(texts: seq<string>, text: string)
    requires texts != []
    ensures Join(texts + [text]) == Join(texts) + COALESCE_SEPARATOR + text
  {
    assert (texts + [text])[..|texts|] == texts;
  }

  lemma {:induction false} TextsRetired(entries: seq<Entry>, id: TaskId, fate: Fate, other: TaskId)
    requires fate != Held
    ensures TextsOf(Retire(entries, {id}, fate), other) == if other == id then [] else TextsOf(entries, other)
  {
    if entries != [] {
      var front := entries[..|entries| - 1];
      assert Retire(entries, {id}, fate)[..|entries| - 1] == Retire(front, {id}, fate);
      TextsRetired(front, id, fate, other);
    }
  }

  lemma {:induction false} NoTexts(entries: seq<Entry>, id: TaskId)
    requires forall i | 0 <= i < |entries| :: !(entries[i].id == id && entries[i].fate == Held)
    ensures TextsOf(entries, id) == []
  {
    if entries != [] {
      NoTexts(entries[..|entries| - 1], id);
    }
  }

  // ---------------------------------------------------------------- the books, change by change

  lemma TracksNothing(entries: seq<Entry>, s: Send, before: map<TaskId, Task>, after: map<TaskId, Task>)
    requires before.Keys == after.Keys && forall id | id in after :: after[id].payload.text == before[id].payload.text
    ensures Tracked(entries, s, before, after) == entries
  {
    assert Grown(before, after) == {};
    assert before.Keys - after.Keys == {};
  }

  lemma TracksRemoval(entries: seq<Entry>, s: Send, before: map<TaskId, Task>, id: TaskId)
    requires id in before
    ensures Tracked(entries, s, before, before - {id}) == Retire(entries, {id}, Lost)
  {
    assert Grown(before, before - {id}) == {};
    assert before.Keys - (before - {id}).Keys == {id};
  }

  lemma TracksGrowth(entries: seq<Entry>, s: Send, before: map<TaskId, Task>, id: TaskId, task: Task)
    requires id !in before || task.payload.text != before[id].payload.text
    ensures Tracked(entries, s, before, before[id := task]) == entries + [Entry(id, s, Held)]
  {
    var after := before[id := task];
    assert before.Keys - after.Keys == {};
    assert Retire(entries, {}, Lost) == entries;
    assert id in Grown(before, after);
    assert forall other | other in Grown(before, after) :: other == id;
  }

  // ---------------------------------------------------------------- the invariant

  ghost predicate KeyFor(key: string, to: string) {
    exists a, c :: ValidCallerKey(c) && key == IdempotencyKey(a, c, to)
  }

  lemma KeyForUnique(key: string, to: string, to': string)
    requires KeyFor(key, to) && KeyFor(key, to') && IsRecipient(to) && IsRecipient(to')
    ensures to == to'
  {
    var a, c :| ValidCallerKey(c) && key == IdempotencyKey(a, c, to);
    var a', c' :| ValidCallerKey(c') && key == IdempotencyKey(a', c', to');
    IdempotencyKeyInjective(a, c, to, a', c', to');
  }

  /** A task sits on the queue of its own session and lane, under a key of its own recipient. */
  ghost predicate TaskOk(id: TaskId, task: Task) {
    var p := task.payload;
    id == (QueueFor(p.sessionId, p.priority), p.key) && IsRecipient(p.to) && KeyFor(p.key, p.to) &&
    |p.text| <= MAX_TEXT_LEN
  }

  ghost predicate TasksOk(m: State) {
    forall id | id in m.sys.tasks :: TaskOk(id, m.sys.tasks[id])
  }

  /** Of a group named for (session, lane, recipient): its open key is one of that recipient's,
      and the open task holds no more texts than the group has counted. */
  ghost predicate GroupOk(m: State, sessionId: string, p: Priority, to: string, cfg: Config)
    requires CoalesceKey(sessionId, p, to) in m.sys.groups
  {
    var g := m.sys.groups[CoalesceKey(sessionId, p, to)];
    KeyFor(g.openKey, to) && 1 <= g.count <= cfg.maxMessages &&
    ((QueueFor(sessionId, p), g.openKey) in m.sys.tasks ==>
       |TextsOf(m.entries, (QueueFor(sessionId, p), g.openKey))| <= g.count)
  }

  ghost predicate GroupsOk(m: State, cfg: Config) {
    forall sessionId, p, to | IsRecipient(to) && CoalesceKey(sessionId, p, to) in m.sys.groups ::
      GroupOk(m, sessionId, p, to, cfg)
  }

  /** A held text is in exactly the task its entry names, which goes where its send asked. */
  predicate Housed(m: State, e: Entry) {
    e.id in m.sys.tasks &&
    var p := m.sys.tasks[e.id].payload;
    p.to == e.send.to && p.sessionId == e.send.req.sessionId && p.priority == e.send.priority
  }

  ghost predicate EntriesOk(m: State) {
    forall i | 0 <= i < |m.entries| && m.entries[i].fate == Held :: Housed(m, m.entries[i])
  }

  /** A task's text is its held texts, joined in the order they were accepted. */
  ghost predicate TextOk(m: State, id: TaskId, cfg: Config)
    requires id in m.sys.tasks
  {
    var texts := TextsOf(m.entries, id);
    var p := m.sys.tasks[id].payload;
    1 <= |texts| <= cfg.maxMessages && p.text == Join(texts) && (p.priority == Critical ==> |texts| == 1)
  }

  ghost predicate TextsOk(m: State, cfg: Config) {
    forall id | id in m.sys.tasks :: TextOk(m, id, cfg)
  }

  ghost predicate InFlightOk(m: State) {
    forall i | 0 <= i < |m.inFlight| :: m.inFlight[i].Valid()
  }

  ghost predicate Inv(m: State, cfg: Config) {
    TasksOk(m) && GroupsOk(m, cfg) && EntriesOk(m) && TextsOk(m, cfg) && InFlightOk(m)
  }

  lemma OwnKey(s: Send)
    requires s.Valid()
    ensures KeyFor(s.Key(), s.to)
  {
  }

  lemma AbsentHasNoTexts(m: State, id: TaskId)
    requires EntriesOk(m) && id !in m.sys.tasks
    ensures TextsOf(m.entries, id) == []
  {
    forall i | 0 <= i < |m.entries| ensures !(m.entries[i].id == id && m.entries[i].fate == Held) {
      if m.entries[i].fate == Held {
        assert Housed(m, m.entries[i]);
      }
    }
    NoTexts(m.entries, id);
  }

  // ---------------------------------------------------------------- what each change keeps

  function WithGroups(m: State, groups: map<string, Group>): State {
    m.(sys := m.sys.(groups := groups))
  }

  lemma RecipientsAreColonFree(to: string)
    requires IsRecipient(to)
    ensures ':' !in to
  {
  }

  /** Changing one group keeps the invariant if the changed group is right. */
  lemma GroupChangeKeepsInv(m: State, s: Send, g: Group, cfg: Config)
    requires Inv(m, cfg) && s.Valid()
    requires KeyFor(g.openKey, s.to) && 1 <= g.count <= cfg.maxMessages
    requires (s.Queue(), g.openKey) in m.sys.tasks ==> |TextsOf(m.entries, (s.Queue(), g.openKey))| <= g.count
    ensures Inv(WithGroups(m, m.sys.groups[s.Group() := g]), cfg)
  {
    var n := WithGroups(m, m.sys.groups[s.Group() := g]);
    forall sessionId, p, to | IsRecipient(to) && CoalesceKey(sessionId, p, to) in n.sys.groups
      ensures GroupOk(n, sessionId, p, to, cfg)
    {
      RecipientsAreColonFree(to);
      RecipientsAreColonFree(s.to);
      if CoalesceKey(sessionId, p, to) == s.Group() {
        CoalesceKeyInjective(sessionId, p, to, s.req.sessionId, s.priority, s.to);
      } else {
        assert GroupOk(m, sessionId, p, to, cfg);
      }
    }
    assert forall id | id in n.sys.tasks :: TextOk(m, id, cfg) && TextOk(n, id, cfg);
    assert forall e | Housed(m, e) :: Housed(n, e);
  }

  lemma ReopenKeepsInv(m: State, s: Send, now: int, cfg: Config)
    requires Inv(m, cfg) && s.Valid() && cfg.Valid() && (s.Queue(), s.Key()) !in m.sys.tasks
    ensures Inv(WithGroups(m, Reopened(m.sys.groups, s.Group(), s.Key(), now, cfg)), cfg)
  {
    OwnKey(s);
    GroupChangeKeepsInv(m, s, Group(s.Key(), 1, now + cfg.window), cfg);
  }

  /** Joining a group leaves room in the open task for one more text. */
  lemma JoinKeepsInv(m: State, s: Send, now: int, cfg: Config)
    requires Inv(m, cfg) && s.Valid() && cfg.Valid() && (s.Queue(), s.Key()) !in m.sys.tasks
    ensures var groups := Joined(m.sys.groups, s.Group(), s.Key(), now, cfg);
      var g := groups[s.Group()];
      Inv(WithGroups(m, groups), cfg) && KeyFor(g.openKey, s.to) &&
      ((s.Queue(), g.openKey) in m.sys.tasks ==> |TextsOf(m.entries, (s.Queue(), g.openKey))| < g.count)
  {
    var groups := m.sys.groups;
    if Live(groups, s.Group(), now) && groups[s.Group()].count < cfg.maxMessages {
      assert GroupOk(m, s.req.sessionId, s.priority, s.to, cfg);
      GroupChangeKeepsInv(m, s, groups[s.Group()].(count := groups[s.Group()].count + 1), cfg);
    } else {
      ReopenKeepsInv(m, s, now, cfg);
      OwnKey(s);
    }
  }

  /** The open task of the send's own group is the send's recipient's, session's and lane's. */
  lemma OpenTaskIsOurs(m: State, s: Send, openKey: string, cfg: Config)
    requires Inv(m, cfg) && s.Valid() && KeyFor(openKey, s.to) && (s.Queue(), openKey) in m.sys.tasks
    ensures var p := m.sys.tasks[(s.Queue(), openKey)].payload;
      p.to == s.to && p.sessionId == s.req.sessionId && p.priority == s.priority
  {
    var task := m.sys.tasks[(s.Queue(), openKey)];
    assert TaskOk((s.Queue(), openKey), task);
    QueueForInjective(task.payload.sessionId, task.payload.priority, s.req.sessionId, s.priority);
    KeyForUnique(openKey, s.to, task.payload.to);
  }

  /** The state after a send's text went into a task: the task it opened, or one it was merged into. */
  function WithTask(m: State, s: Send, key: string, task: Task): State {
    State(m.sys.(tasks := m.sys.tasks[(s.Queue(), key) := task]),
          m.entries + [Entry((s.Queue(), key), s, Held)], m.inFlight)
  }

  /** No other group counts the same task. */
  lemma OneGroupPerTask(m: State, s: Send, key: string, sessionId: string, p: Priority, to: string, cfg: Config)
    requires GroupsOk(m, cfg) && s.Valid() && KeyFor(key, s.to)
    requires IsRecipient(to) && CoalesceKey(sessionId, p, to) in m.sys.groups
    requires (QueueFor(sessionId, p), m.sys.groups[CoalesceKey(sessionId, p, to)].openKey) == (s.Queue(), key)
    ensures CoalesceKey(sessionId, p, to) == s.Group()
  {
    QueueForInjective(sessionId, p, s.req.sessionId, s.priority);
    assert GroupOk(m, sessionId, p, to, cfg);
    KeyForUnique(key, s.to, to);
  }

  lemma TextEntersTask(m: State, s: Send, key: string, task: Task, cfg: Config)
    requires Inv(m, cfg) && s.Valid() && KeyFor(key, s.to)
    requires var p := task.payload;
      p.key == key && p.to == s.to && p.sessionId == s.req.sessionId && p.priority == s.priority &&
      |p.text| <= MAX_TEXT_LEN
    requires var texts := TextsOf(m.entries, (s.Queue(), key)) + [s.req.text];
      |texts| <= cfg.maxMessages && task.payload.text == Join(texts) && (s.priority == Critical ==> |texts| == 1) &&
      (s.Group() in m.sys.groups && m.sys.groups[s.Group()].openKey == key ==> |texts| <= m.sys.groups[s.Group()].count)
    ensures Inv(WithTask(m, s, key, task), cfg)
  {
    var id := (s.Queue(), key);
    var e := Entry(id, s, Held);
    var n := WithTask(m, s, key, task);
    forall other | other in n.sys.tasks ensures TaskOk(other, n.sys.tasks[other]) && TextOk(n, other, cfg) {
      TextsAppend(m.entries, e, other);
      if other != id {
        assert TaskOk(other, m.sys.tasks[other]) && TextOk(m, other, cfg);
      }
    }
    forall sessionId, p, to | IsRecipient(to) && CoalesceKey(sessionId, p, to) in n.sys.groups
      ensures GroupOk(n, sessionId, p, to, cfg)
    {
      assert GroupOk(m, sessionId, p, to, cfg);
      var open := (QueueFor(sessionId, p), m.sys.groups[CoalesceKey(sessionId, p, to)].openKey);
      TextsAppend(m.entries, e, open);
      if open == id {
        OneGroupPerTask(m, s, key, sessionId, p, to, cfg);
      }
    }
    forall i | 0 <= i < |n.entries| && n.entries[i].fate == Held ensures Housed(n, n.entries[i]) {
      if i < |m.entries| {
        assert n.entries[i] == m.entries[i];
        assert Housed(m, m.entries[i]);
        if m.entries[i].id == id {
          OpenTaskIsOurs(m, s, key, cfg);
        }
      }
    }
  }

  /** Taking a task away with all its texts keeps the invariant. */
  lemma RemovalKeepsInv(m: State, id: TaskId, fate: Fate, cfg: Config)
    requires Inv(m, cfg) && fate != Held
    ensures Inv(State(m.sys.(tasks := m.sys.tasks - {id}), Retire(m.entries, {id}, fate), m.inFlight), cfg)
  {
    var n := State(m.sys.(tasks := m.sys.tasks - {id}), Retire(m.entries, {id}, fate), m.inFlight);
    forall other | other in n.sys.tasks ensures TaskOk(other, n.sys.tasks[other]) && TextOk(n, other, cfg) {
      TextsRetired(m.entries, id, fate, other);
      assert TaskOk(other, m.sys.tasks[other]) && TextOk(m, other, cfg);
    }
    forall sessionId, p, to | IsRecipient(to) && CoalesceKey(sessionId, p, to) in n.sys.groups
      ensures GroupOk(n, sessionId, p, to, cfg)
    {
      assert GroupOk(m, sessionId, p, to, cfg);
      TextsRetired(m.entries, id, fate, (QueueFor(sessionId, p), m.sys.groups[CoalesceKey(sessionId, p, to)].openKey));
    }
    forall i | 0 <= i < |n.entries| && n.entries[i].fate == Held ensures Housed(n, n.entries[i]) {
      assert n.entries[i] == m.entries[i];
      assert Housed(m, m.entries[i]);
    }
  }

  /** The ledger, the states of tasks and the sends in flight do not matter to it. */
  lemma FrameKeepsInv(m: State, n: State, cfg: Config)
    requires Inv(m, cfg) && InFlightOk(n)
    requires n.entries == m.entries && n.sys.groups == m.sys.groups && n.sys.tasks.Keys == m.sys.tasks.Keys
    requires forall id | id in m.sys.tasks :: n.sys.tasks[id].payload == m.sys.tasks[id].payload
    ensures Inv(n, cfg)
  {
    forall id | id in n.sys.tasks ensures TaskOk(id, n.sys.tasks[id]) && TextOk(n, id, cfg) {
      assert TaskOk(id, m.sys.tasks[id]) && TextOk(m, id, cfg);
    }
    forall sessionId, p, to | IsRecipient(to) && CoalesceKey(sessionId, p, to) in n.sys.groups
      ensures GroupOk(n, sessionId, p, to, cfg)
    {
      assert GroupOk(m, sessionId, p, to, cfg);
    }
    forall i | 0 <= i < |n.entries| && n.entries[i].fate == Held ensures Housed(n, n.entries[i]) {
      assert Housed(m, m.entries[i]);
    }
  }

  // ---------------------------------------------------------------- every step

  /** Coalescing with a group open under another key: the exchange, and perhaps a group of its own. */
  lemma CoalescedShape(sys: Sys, s: Send, env: Env, cfg: Config)
    requires env.claim.Answers?
    ensures var groups := Joined(sys.groups, s.Group(), s.Key(), env.now, cfg);
      var n := Coalesced(sys, s, env, cfg).0;
      var openKey := groups[s.Group()].openKey;
      if openKey == s.Key() then n == sys.(groups := groups)
      else
        n.tasks == MergedInto(sys.tasks, (s.Queue(), openKey), s.req.text, env, cfg).0 &&
        (n.groups == groups || n.groups == Reopened(groups, s.Group(), s.Key(), env.now, cfg))
  {
  }

  lemma CoalescedKeepsInv(m: State, s: Send, env: Env, cfg: Config)
    requires Inv(m, cfg) && cfg.Valid() && s.Valid() && (s.Queue(), s.Key()) !in m.sys.tasks && Coalescable(s.priority)
    ensures var sys := Coalesced(m.sys, s, env, cfg).0;
      Inv(State(sys, Tracked(m.entries, s, m.sys.tasks, sys.tasks), m.inFlight), cfg)
  {
    var sys := Coalesced(m.sys, s, env, cfg).0;
    JoinKeepsInv(m, s, env.now, cfg);
    var claimed := WithGroups(m, Joined(m.sys.groups, s.Group(), s.Key(), env.now, cfg));
    if !env.claim.Answers? {
      TracksNothing(m.entries, s, m.sys.tasks, sys.tasks);
    } else {
      CoalescedShape(m.sys, s, env, cfg);
      var openKey := claimed.sys.groups[s.Group()].openKey;
      if openKey == s.Key() {
        TracksNothing(m.entries, s, m.sys.tasks, sys.tasks);
      } else {
        FoldingKeepsInv(claimed, s, openKey, env, cfg, sys);
      }
    }
  }

  lemma FoldingKeepsInv(m: State, s: Send, openKey: string, env: Env, cfg: Config, sys: Sys)
    requires Inv(m, cfg) && cfg.Valid() && s.Valid() && KeyFor(openKey, s.to) && Coalescable(s.priority)
    requires (s.Queue(), s.Key()) !in m.sys.tasks
    requires var id := (s.Queue(), openKey);
      s.Group() in m.sys.groups && m.sys.groups[s.Group()].openKey == openKey &&
      (id in m.sys.tasks ==> |TextsOf(m.entries, id)| < m.sys.groups[s.Group()].count) &&
      sys.tasks == MergedInto(m.sys.tasks, id, s.req.text, env, cfg).0
    requires sys.groups == m.sys.groups || sys.groups == Reopened(m.sys.groups, s.Group(), s.Key(), env.now, cfg)
    ensures Inv(State(sys, Tracked(m.entries, s, m.sys.tasks, sys.tasks), m.inFlight), cfg)
  {
    ExchangeKeepsInv(m, s, openKey, env, cfg);
    var merged := Exchanged(m, s, openKey, env, cfg);
    ReopenKeepsInv(merged, s, env.now, cfg);
    FrameKeepsInv(WithGroups(merged, sys.groups), State(sys, merged.entries, m.inFlight), cfg);
  }

  /** The state after the exchange of the open task, whatever its outcome. */
  ghost function Exchanged(m: State, s: Send, openKey: string, env: Env, cfg: Config): State {
    var tasks := MergedInto(m.sys.tasks, (s.Queue(), openKey), s.req.text, env, cfg).0;
    State(m.sys.(tasks := tasks), Tracked(m.entries, s, m.sys.tasks, tasks), m.inFlight)
  }

  lemma ExchangeKeepsInv(m: State, s: Send, openKey: string, env: Env, cfg: Config)
    requires Inv(m, cfg) && s.Valid() && KeyFor(openKey, s.to) && Coalescable(s.priority)
    requires var id := (s.Queue(), openKey);
      s.Group() in m.sys.groups && m.sys.groups[s.Group()].openKey == openKey &&
      (id in m.sys.tasks ==> |TextsOf(m.entries, id)| < m.sys.groups[s.Group()].count)
    ensures var n := Exchanged(m, s, openKey, env, cfg);
      Inv(n, cfg) && n.sys.tasks.Keys <= m.sys.tasks.Keys
  {
    var id := (s.Queue(), openKey);
    var tasks := MergedInto(m.sys.tasks, id, s.req.text, env, cfg).0;
    if !Mergeable(m.sys.tasks, id, s.req.text, env, cfg) || env.delete.Refuses? {
      TracksNothing(m.entries, s, m.sys.tasks, tasks);
    } else if env.delete.LosesReply? || env.restore.Refuses? {
      TracksRemoval(m.entries, s, m.sys.tasks, id);
      RemovalKeepsInv(m, id, Lost, cfg);
    } else {
      var task := WithText(m.sys.tasks[id], s.req.text);
      assert |task.payload.text| > |m.sys.tasks[id].payload.text|;
      TracksGrowth(m.entries, s, m.sys.tasks, id, task);
      MergeKeepsInv(m, s, openKey, cfg);
    }
  }

  lemma MergeKeepsInv(m: State, s: Send, openKey: string, cfg: Config)
    requires Inv(m, cfg) && s.Valid() && KeyFor(openKey, s.to) && Coalescable(s.priority)
    requires var id := (s.Queue(), openKey);
      id in m.sys.tasks && |m.sys.tasks[id].payload.text + COALESCE_SEPARATOR + s.req.text| <= MAX_TEXT_LEN &&
      s.Group() in m.sys.groups && m.sys.groups[s.Group()].openKey == openKey &&
      |TextsOf(m.entries, id)| < m.sys.groups[s.Group()].count
    ensures var task := m.sys.tasks[(s.Queue(), openKey)];
      Inv(WithTask(m, s, openKey, WithText(task, s.req.text)), cfg)
  {
    var id := (s.Queue(), openKey);
    OpenTaskIsOurs(m, s, openKey, cfg);
    assert TaskOk(id, m.sys.tasks[id]) && TextOk(m, id, cfg);
    assert GroupOk(m, s.req.sessionId, s.priority, s.to, cfg);
    JoinAppend(TextsOf(m.entries, id), s.req.text);
    TextEntersTask(m, s, openKey, WithText(m.sys.tasks[id], s.req.text), cfg);
  }

  predicate Queues(sys: Sys, s: Send, env: Env) {
    env.slot.Some? && env.enqueue.Applies() && (s.Queue(), s.Key()) !in sys.tasks
  }

  lemma PlacedShape(sys: Sys, s: Send, env: Env)
    ensures var (n, result) := Placed(sys, s, env);
      var own := (s.Queue(), s.Key());
      n.tasks ==
        (if Queues(sys, s, env) then sys.tasks[own := Task(PayloadOf(s), Waiting, env.slot.value)] else sys.tasks) &&
      n.groups == sys.groups &&
      (result.Ok? && !result.value.duplicate <==> Queues(sys, s, env) && env.enqueue.Answers?) &&
      (result.Ok? ==>
         !result.value.coalesced && result.value.to == s.to && (result.value.queue, result.value.key) == own) &&
      (result.Err? ==> !result.error.LostTheOpenTask?)
  {
  }

  lemma PlacingKeepsInv(m: State, s: Send, env: Env, cfg: Config)
    requires Inv(m, cfg) && cfg.Valid() && s.Valid()
    ensures var sys := Placed(m.sys, s, env).0;
      Inv(State(sys, Tracked(m.entries, s, m.sys.tasks, sys.tasks), m.inFlight), cfg)
  {
    var sys := Placed(m.sys, s, env).0;
    PlacedShape(m.sys, s, env);
    if Queues(m.sys, s, env) {
      var task := Task(PayloadOf(s), Waiting, env.slot.value);
      TracksGrowth(m.entries, s, m.sys.tasks, (s.Queue(), s.Key()), task);
      OpeningKeepsInv(m, s, task, cfg);
      var n := WithTask(m, s, s.Key(), task);
      FrameKeepsInv(n, State(sys, n.entries, m.inFlight), cfg);
    } else {
      TracksNothing(m.entries, s, m.sys.tasks, sys.tasks);
      FrameKeepsInv(m, State(sys, m.entries, m.inFlight), cfg);
    }
  }

  lemma PlacedKeepsInv(m: State, i: nat, env: Env, cfg: Config)
    requires Inv(m, cfg) && cfg.Valid() && i < |m.inFlight|
    ensures Inv(Apply(m, Place(i, env), cfg).0, cfg)
  {
    var s := m.inFlight[i];
    PlacingKeepsInv(m, s, env, cfg);
    var sys := Placed(m.sys, s, env).0;
    var n := State(sys, Tracked(m.entries, s, m.sys.tasks, sys.tasks), m.inFlight);
    FrameKeepsInv(n, n.(inFlight := m.inFlight[..i] + m.inFlight[i + 1..]), cfg);
  }

  lemma OpeningKeepsInv(m: State, s: Send, task: Task, cfg: Config)
    requires Inv(m, cfg) && cfg.Valid() && s.Valid() && (s.Queue(), s.Key()) !in m.sys.tasks
    requires task.payload == PayloadOf(s)
    ensures Inv(WithTask(m, s, s.Key(), task), cfg)
  {
    OwnKey(s);
    AbsentHasNoTexts(m, (s.Queue(), s.Key()));
    assert TextsOf(m.entries, (s.Queue(), s.Key())) + [s.req.text] == [s.req.text];
    if s.Group() in m.sys.groups {
      assert GroupOk(m, s.req.sessionId, s.priority, s.to, cfg);
    }
    TextEntersTask(m, s, s.Key(), task, cfg);
  }

  lemma LookingKeepsInv(m: State, s: Send, env: Env, cfg: Config)
    requires Inv(m, cfg) && cfg.Valid() && s.Valid()
    ensures var sys := Looked(m.sys, s, env, cfg).0;
      Inv(State(sys, Tracked(m.entries, s, m.sys.tasks, sys.tasks), m.inFlight), cfg)
  {
    if !env.lookupFails && (s.Queue(), s.Key()) !in m.sys.tasks && env.coalescing && Coalescable(s.priority) {
      CoalescedKeepsInv(m, s, env, cfg);
    } else {
      TracksNothing(m.entries, s, m.sys.tasks, m.sys.tasks);
    }
  }

  lemma LookKeepsInv(m: State, req: Request, env: Env, cfg: Config)
    requires Inv(m, cfg) && cfg.Valid()
    ensures Inv(Apply(m, Look(req, env), cfg).0, cfg)
  {
    if Validate(req).Ok? {
      var s := Validate(req).value;
      ValidatedIsValid(req);
      LookingKeepsInv(m, s, env, cfg);
      var sys := Looked(m.sys, s, env, cfg).0;
      var n := State(sys, Tracked(m.entries, s, m.sys.tasks, sys.tasks), m.inFlight);
      FrameKeepsInv(n, n.(inFlight := m.inFlight + [s]), cfg);
    }
  }

  lemma StepKeepsInv(m: State, step: Step, cfg: Config)
    requires Inv(m, cfg) && cfg.Valid()
    ensures Inv(Apply(m, step, cfg).0, cfg)
  {
    match step
    case Look(req, env) => LookKeepsInv(m, req, env, cfg);
    case Place(i, env) =>
      if i < |m.inFlight| {
        PlacedKeepsInv(m, i, env, cfg);
      }
    case Leave(id) => RemovalKeepsInv(m, id, Departed, cfg);
    case Advance(_, _, _) => FrameKeepsInv(m, Apply(m, step, cfg).0, cfg);
    case OtherWrite(_) => FrameKeepsInv(m, Apply(m, step, cfg).0, cfg);
  }

  lemma {:induction false} ExecKeepsInv(m: State, steps: seq<Step>, cfg: Config)
    requires Inv(m, cfg) && cfg.Valid()
    ensures Inv(Exec(m, steps, cfg), cfg)
    decreases |steps|
  {
    if steps != [] {
      StepKeepsInv(m, steps[0], cfg);
      ExecKeepsInv(Apply(m, steps[0], cfg).0, steps[1..], cfg);
    }
  }

  lemma InitOk(cfg: Config)
    ensures Inv(INIT, cfg)
  {
  }

  // ---------------------------------------------------------------- text is conserved

  /** In every run, whatever replies are lost, a queued task carries exactly the texts put into it, in
      order, separated by blank lines; it never outgrows the limits, and a critical one is never merged. */
  lemma TasksCarryTheirTexts(steps: seq<Step>, cfg: Config, id: TaskId)
    requires cfg.Valid()
    requires id in Exec(INIT, steps, cfg).sys.tasks
    ensures var m := Exec(INIT, steps, cfg); var p := m.sys.tasks[id].payload; var texts := TextsOf(m.entries, id);
      p.text == Join(texts) && 1 <= |texts| <= cfg.maxMessages && |p.text| <= MAX_TEXT_LEN &&
      (p.priority == Critical ==> |texts| == 1)
  {
    InitOk(cfg);
    ExecKeepsInv(INIT, steps, cfg);
    var m := Exec(INIT, steps, cfg);
    assert TaskOk(id, m.sys.tasks[id]) && TextOk(m, id, cfg);
  }

  /** A text put on the queue that was neither lost nor carried off by its task is a segment of one task,
      at one place in it, and that task goes to the recipient, session and lane it was sent to. */
  lemma QueuedTextIsHoused(steps: seq<Step>, cfg: Config, i: nat)
    requires cfg.Valid()
    requires var m := Exec(INIT, steps, cfg); i < |m.entries| && m.entries[i].fate == Held
    ensures var m := Exec(INIT, steps, cfg); var e := m.entries[i];
      e.id in m.sys.tasks &&
      (var p := m.sys.tasks[e.id].payload;
       p.to == e.send.to && p.sessionId == e.send.req.sessionId && p.priority == e.send.priority) &&
      (var at := |TextsOf(m.entries[..i], e.id)|; var texts := TextsOf(m.entries, e.id);
       at < |texts| && texts[at] == e.send.req.text)
  {
    InitOk(cfg);
    ExecKeepsInv(INIT, steps, cfg);
    var m := Exec(INIT, steps, cfg);
    assert Housed(m, m.entries[i]);
    PlaceInTask(m.entries, i);
  }

  lemma {:induction false} PlaceInTask(entries: seq<Entry>, i: nat)
    requires i < |entries| && entries[i].fate == Held
    ensures var at := |TextsOf(entries[..i], entries[i].id)|; var texts := TextsOf(entries, entries[i].id);
      at < |texts| && texts[at] == entries[i].send.req.text
  {
    var front := entries[..|entries| - 1];
    if i < |front| {
      PlaceInTask(front, i);
      assert front[..i] == entries[..i];
    }
  }

  /** The send a step speaks for. */
  predicate SpeaksFor(m: State, step: Step, s: Send) {
    match step
    case Look(req, _) => Validate(req) == Ok(s)
    case Place(i, _) => i < |m.inFlight| && s == m.inFlight[i]
    case _ => false
  }

  /** Known before the step: the reply is lost of the very call that puts the text on the queue. */
  predicate QueuesUnsaid(m: State, step: Step, cfg: Config) {
    match step
    case Look(req, env) =>
      Validate(req).Ok? && Joins(m.sys, Validate(req).value, env, cfg) && env.delete.Answers? && env.restore.LosesReply?
    case Place(i, env) =>
      i < |m.inFlight| && env.slot.Some? && env.enqueue.LosesReply? &&
      (m.inFlight[i].Queue(), m.inFlight[i].Key()) !in m.sys.tasks
    case _ => false
  }

  /** A text goes onto the queue exactly when its caller is told it was accepted and not a duplicate, or
      when the reply of the call that queues it is lost; then it goes into one task, the one the caller is
      told of, or the open or own one. */
  lemma TextIsQueuedIff(m: State, step: Step, cfg: Config)
    ensures var (n, said) := Apply(m, step, cfg);
      var accepted := said.Said? && said.result.Ok? && !said.result.value.duplicate;
      |m.entries| <= |n.entries| <= |m.entries| + 1 &&
      (|n.entries| > |m.entries| <==> accepted || QueuesUnsaid(m, step, cfg)) &&
      (|n.entries| > |m.entries| ==>
         var e := n.entries[|m.entries|];
         SpeaksFor(m, step, e.send) && e.fate == Held && e.id in n.sys.tasks && e.id.0 == e.send.Queue() &&
         (accepted ==> e.id == (said.result.value.queue, said.result.value.key) && said.result.value.to == e.send.to))
  {
    match step
    case Look(req, env) =>
      if Validate(req).Ok? {
        LookedShape(m.sys, Validate(req).value, env, cfg);
        LookQueuesOneText(m, Validate(req).value, env, cfg);
        ValidatedIsValid(req);
      }
    case Place(i, env) =>
      if i < |m.inFlight| {
        PlacedShape(m.sys, m.inFlight[i], env);
        PlaceQueuesOneText(m, m.inFlight[i], env);
      }
    case _ =>
  }

  /** How a look changes the queue: the open task grown, gone, or nothing. */
  lemma LookedShape(sys: Sys, s: Send, env: Env, cfg: Config)
    ensures var (n, verdict) := Looked(sys, s, env, cfg);
      if !Joins(sys, s, env, cfg) || env.delete.Refuses? then
        n.tasks == sys.tasks && (verdict.Answered? ==> verdict.answer.duplicate) &&
        (verdict.Refused? ==> !verdict.error.LostTheOpenTask?)
      else
        var id := OpenTask(sys, s);
        if env.delete.LosesReply? then n.tasks == sys.tasks - {id} && verdict == Proceed
        else
          n.groups == sys.groups[s.Group() := sys.groups[s.Group()].(count := sys.groups[s.Group()].count + 1)] &&
          if env.restore.Refuses? then n.tasks == sys.tasks - {id} && verdict == Refused(LostTheOpenTask(id.1))
          else
            n.tasks == sys.tasks[id := WithText(sys.tasks[id], s.req.text)] &&
            if env.restore.LosesReply? then verdict == Refused(LostTheOpenTask(id.1))
            else
              verdict.Answered? && !verdict.answer.duplicate && verdict.answer.to == s.to &&
              (verdict.answer.queue, verdict.answer.key) == id
  {
  }

  lemma LookQueuesOneText(m: State, s: Send, env: Env, cfg: Config)
    ensures var (n, verdict) := Looked(m.sys, s, env, cfg);
      Tracked(m.entries, s, m.sys.tasks, n.tasks) ==
        if !Joins(m.sys, s, env, cfg) || env.delete.Refuses? then m.entries
        else if env.delete.Answers? && env.restore.Applies() then m.entries + [Entry(OpenTask(m.sys, s), s, Held)]
        else Retire(m.entries, {OpenTask(m.sys, s)}, Lost)
  {
    LookedShape(m.sys, s, env, cfg);
    var n := Looked(m.sys, s, env, cfg).0;
    if !Joins(m.sys, s, env, cfg) || env.delete.Refuses? {
      TracksNothing(m.entries, s, m.sys.tasks, n.tasks);
    } else {
      var id := OpenTask(m.sys, s);
      var task := WithText(m.sys.tasks[id], s.req.text);
      TracksRemoval(m.entries, s, m.sys.tasks, id);
      assert |task.payload.text| > |m.sys.tasks[id].payload.text|;
      TracksGrowth(m.entries, s, m.sys.tasks, id, task);
    }
  }

  lemma PlaceQueuesOneText(m: State, s: Send, env: Env)
    ensures var n := Placed(m.sys, s, env).0;
      var entries := Tracked(m.entries, s, m.sys.tasks, n.tasks);
      if Queues(m.sys, s, env) then
        (s.Queue(), s.Key()) in n.tasks && entries == m.entries + [Entry((s.Queue(), s.Key()), s, Held)]
      else entries == m.entries
  {
    PlacedShape(m.sys, s, env);
    if Queues(m.sys, s, env) {
      TracksGrowth(m.entries, s, m.sys.tasks, (s.Queue(), s.Key()), Task(PayloadOf(s), Waiting, env.slot.value));
    } else {
      TracksNothing(m.entries, s, m.sys.tasks, Placed(m.sys, s, env).0.tasks);
    }
  }

  /** Known before the step: the open task has been taken away and is not put back. */
  predicate Loses(m: State, step: Step, cfg: Config, id: TaskId) {
    step.Look? && Validate(step.req).Ok? &&
    var s := Validate(step.req).value;
    Joins(m.sys, s, step.env, cfg) && id == OpenTask(m.sys, s) &&
    (step.env.delete.LosesReply? || (step.env.delete.Answers? && step.env.restore.Refuses?))
  }

  /** A task leaves the queue exactly when a worker or operator is done with it, or a send takes it away
      and does not put it back. The send's caller is told so unless it was the reply to the delete that
      was lost: then the task's texts are gone and nobody is told. */
  lemma TaskLeavesIff(m: State, step: Step, cfg: Config, id: TaskId)
    requires id in m.sys.tasks
    ensures var (n, said) := Apply(m, step, cfg);
      (id !in n.sys.tasks <==> step == Leave(id) || Loses(m, step, cfg, id)) &&
      (Loses(m, step, cfg, id) ==>
         said == if step.env.delete.LosesReply? then Silent else Said(Err(LostTheOpenTask(id.1))))
  {
    if step.Look? && Validate(step.req).Ok? {
      LookedShape(m.sys, Validate(step.req).value, step.env, cfg);
    } else if step.Place? && step.i < |m.inFlight| {
      PlacedShape(m.sys, m.inFlight[step.i], step.env);
    }
  }

  /** What the error is worth: a caller told that the open task was lost has lost it exactly when the
      call to put it back had no effect; otherwise it is back, with the new text in it. */
  lemma LostErrorIff(m: State, step: Step, cfg: Config, key: string)
    requires Apply(m, step, cfg).1 == Said(Err(LostTheOpenTask(key)))
    ensures step.Look? && Validate(step.req).Ok?
    ensures var n := Apply(m, step, cfg).0;
      var id := (Validate(step.req).value.Queue(), key);
      id in m.sys.tasks && (id !in n.sys.tasks <==> step.env.restore.Refuses?) &&
      (id in n.sys.tasks ==>
         n.sys.tasks[id].payload.text == m.sys.tasks[id].payload.text + COALESCE_SEPARATOR + step.req.text)
  {
    if step.Look? && Validate(step.req).Ok? {
      LookedShape(m.sys, Validate(step.req).value, step.env, cfg);
    } else if step.Place? && step.i < |m.inFlight| {
      PlacedShape(m.sys, m.inFlight[step.i], step.env);
    }
  }

  /** The texts already on the queue: they stay unless their task leaves, and are entered as lost or as
      carried off with it. */
  lemma TextsLeaveWithTheirTask(m: State, step: Step, cfg: Config, i: nat)
    requires i < |m.entries|
    ensures var n := Apply(m, step, cfg).0; var e := m.entries[i];
      i < |n.entries| &&
      n.entries[i] ==
        if e.fate != Held then e
        else if step == Leave(e.id) then e.(fate := Departed)
        else if e.id in m.sys.tasks && e.id !in n.sys.tasks then e.(fate := Lost)
        else e
  {
    match step
    case Look(req, env) =>
      if Validate(req).Ok? {
        LookedShape(m.sys, Validate(req).value, env, cfg);
        LookQueuesOneText(m, Validate(req).value, env, cfg);
      }
    case Place(j, env) =>
      if j < |m.inFlight| {
        PlacedShape(m.sys, m.inFlight[j], env);
        PlaceQueuesOneText(m, m.inFlight[j], env);
      }
    case _ =>
  }

  /** A merge appends to one waiting task and leaves its send time and address alone; nothing else ever
      changes a queued task but a worker, who sets its state and time. Critical sends are not merged. */
  lemma TasksOnlyGrow(m: State, step: Step, cfg: Config, id: TaskId)
    requires id in m.sys.tasks && id in Apply(m, step, cfg).0.sys.tasks
    ensures var n := Apply(m, step, cfg).0; var before, after := m.sys.tasks[id], n.sys.tasks[id];
      ((after.processAt == before.processAt && after.state == before.state) || (step.Advance? && step.id == id)) &&
      after.payload.(text := before.payload.text) == before.payload &&
      if step.Look? && Validate(step.req).Ok? && Joins(m.sys, Validate(step.req).value, step.env, cfg) &&
         id == OpenTask(m.sys, Validate(step.req).value) && step.env.delete.Answers? then
        before.state == Waiting && after.state == Waiting && Validate(step.req).value.priority != Critical &&
        after.payload.text == before.payload.text + COALESCE_SEPARATOR + step.req.text
      else after.payload.text == before.payload.text
  {
    if step.Look? && Validate(step.req).Ok? {
      LookedShape(m.sys, Validate(step.req).value, step.env, cfg);
    } else if step.Place? && step.i < |m.inFlight| {
      PlacedShape(m.sys, m.inFlight[step.i], step.env);
    }
  }

  // ---------------------------------------------------------------- the id a caller is answered with

  predicate Named(row: Jobs.Row) {
    row.publicId.Some? && row.publicId.value != ""
  }

  /** The recorder answered during the step, every API request carries the id minted for it, and other
      writers write about messages that have a row, as a worker does about the task it took. */
  predicate Recorded(m: State, step: Step) {
    match step
    case Look(req, env) => env.record.Answers? && req.publicId != ""
    case Place(_, env) => env.record.Answers?
    case OtherWrite(w) => JobHistory.HasRow(m.sys.ledger, w)
    case _ => true
  }

  ghost predicate AllRecorded(m: State, steps: seq<Step>, cfg: Config)
    decreases |steps|
  {
    steps == [] || (Recorded(m, steps[0]) && AllRecorded(Apply(m, steps[0], cfg).0, steps[1..], cfg))
  }

  ghost predicate LedgerNamed(l: Jobs.Ledger) {
    forall key | key in l.jobs :: Named(l.jobs[key])
  }

  ghost predicate NamesOk(m: State) {
    LedgerNamed(m.sys.ledger) &&
    (forall id | id in m.sys.tasks :: id.1 in m.sys.ledger.jobs) &&
    (forall i | 0 <= i < |m.inFlight| :: m.inFlight[i].req.publicId != "")
  }

  lemma WriteKeepsNames(l: Jobs.Ledger, w: JobHistory.Write, key: string)
    requires key in l.jobs && Named(l.jobs[key])
    ensures var n := JobHistory.Apply(l, w); key in n.jobs && Named(n.jobs[key])
  {
  }

  predicate AnswersStoredId(n: State, said: Outcome) {
    said.Said? && said.result.Ok? ==>
      said.result.value.publicId != "" &&
      Jobs.PublicIdFor(n.sys.ledger, said.result.value.key) == said.result.value.publicId
  }

  lemma CoalescedKeepsNames(sys: Sys, s: Send, env: Env, cfg: Config)
    requires env.record.Answers? && s.req.publicId != ""
    requires forall key | key in sys.ledger.jobs :: Named(sys.ledger.jobs[key])
    requires forall id | id in sys.tasks :: id.1 in sys.ledger.jobs
    ensures var (n, verdict) := Coalesced(sys, s, env, cfg);
      n.tasks.Keys <= sys.tasks.Keys && n.ledger.jobs.Keys == sys.ledger.jobs.Keys &&
      (forall key | key in n.ledger.jobs :: n.ledger.jobs[key].publicId == sys.ledger.jobs[key].publicId) &&
      (verdict.Answered? ==> verdict.answer.key in n.ledger.jobs &&
                             verdict.answer.publicId == Jobs.PublicIdFor(n.ledger, verdict.answer.key))
  {
    var groups := Joined(sys.groups, s.Group(), s.Key(), env.now, cfg);
    var openKey := groups[s.Group()].openKey;
    var outcome := MergedInto(sys.tasks, (s.Queue(), openKey), s.req.text, env, cfg).1;
    if outcome.Merged? {
      var row := sys.ledger.jobs[openKey];
      assert Named(row);
    }
  }

  lemma LookedKeepsNames(sys: Sys, s: Send, env: Env, cfg: Config)
    requires env.record.Answers? && s.req.publicId != "" && LedgerNamed(sys.ledger)
    requires forall id | id in sys.tasks :: id.1 in sys.ledger.jobs
    ensures var (n, verdict) := Looked(sys, s, env, cfg);
      LedgerNamed(n.ledger) && (forall id | id in n.tasks :: id.1 in n.ledger.jobs) &&
      (verdict.Answered? ==> verdict.answer.publicId != "" &&
                             Jobs.PublicIdFor(n.ledger, verdict.answer.key) == verdict.answer.publicId)
  {
    CoalescedKeepsNames(sys, s, env, cfg);
    var n := Looked(sys, s, env, cfg).0;
    forall key | key in n.ledger.jobs ensures Named(n.ledger.jobs[key]) {
      assert Named(sys.ledger.jobs[key]);
    }
  }

  lemma LookKeepsNames(m: State, req: Request, env: Env, cfg: Config)
    requires NamesOk(m) && Recorded(m, Look(req, env))
    ensures NamesOk(Apply(m, Look(req, env), cfg).0)
    ensures AnswersStoredId(Apply(m, Look(req, env), cfg).0, Apply(m, Look(req, env), cfg).1)
  {
    if Validate(req).Ok? {
      ValidatedIsValid(req);
      LookedKeepsNames(m.sys, Validate(req).value, env, cfg);
    }
  }

  lemma SchedulingNames(l: Jobs.Ledger, j: Jobs.Job, at: int)
    requires LedgerNamed(l) && j.publicId != ""
    ensures var n := Jobs.AfterMarkScheduled(l, j, at); LedgerNamed(n) && n.jobs.Keys == l.jobs.Keys + {j.key}
  {
    var n := Jobs.AfterMarkScheduled(l, j, at);
    forall key | key in n.jobs ensures Named(n.jobs[key]) {
      assert key in l.jobs ==> Named(l.jobs[key]);
    }
  }

  lemma FailingNames(l: Jobs.Ledger, j: Jobs.Job, code: string, at: int)
    requires LedgerNamed(l) && j.key in l.jobs
    ensures var n := Jobs.AfterMarkFailed(l, j, code, true, at); LedgerNamed(n) && n.jobs.Keys == l.jobs.Keys
  {
    var n := Jobs.AfterMarkFailed(l, j, code, true, at);
    forall key | key in n.jobs ensures Named(n.jobs[key]) {
      assert Named(l.jobs[key]);
    }
  }

  lemma PlacedKeepsNames(sys: Sys, s: Send, env: Env)
    requires env.record.Answers? && s.req.publicId != "" && LedgerNamed(sys.ledger)
    requires forall id | id in sys.tasks :: id.1 in sys.ledger.jobs
    ensures var (n, result) := Placed(sys, s, env);
      LedgerNamed(n.ledger) && (forall id | id in n.tasks :: id.1 in n.ledger.jobs) &&
      (result.Ok? ==> result.value.publicId != "" &&
                      Jobs.PublicIdFor(n.ledger, result.value.key) == result.value.publicId)
  {
    if env.slot.Some? {
      var ledger := Jobs.AfterMarkScheduled(sys.ledger, JobOf(s), env.slot.value);
      SchedulingNames(sys.ledger, JobOf(s), env.slot.value);
      FailingNames(ledger, JobOf(s), Jobs.ENQUEUE_FAILED_CODE, env.now);
      PlacedShape(sys, s, env);
      PlacedLedger(sys, s, env);
      assert Named(ledger.jobs[s.Key()]);
    }
  }

  lemma PlacedLedger(sys: Sys, s: Send, env: Env)
    requires env.slot.Some? && env.record.Answers?
    ensures var (n, result) := Placed(sys, s, env);
      var ledger := Jobs.AfterMarkScheduled(sys.ledger, JobOf(s), env.slot.value);
      (n.ledger == ledger ||
       n.ledger == Jobs.AfterMarkFailed(ledger, JobOf(s), Jobs.ENQUEUE_FAILED_CODE, true, env.now)) &&
      (result.Ok? ==> n.ledger == ledger && result.value.publicId == PublicIdOr(ledger, s.Key(), true, s.req.publicId))
  {
  }

  lemma PlaceKeepsNames(m: State, i: nat, env: Env, cfg: Config)
    requires NamesOk(m) && Recorded(m, Place(i, env))
    ensures NamesOk(Apply(m, Place(i, env), cfg).0)
    ensures AnswersStoredId(Apply(m, Place(i, env), cfg).0, Apply(m, Place(i, env), cfg).1)
  {
    if i < |m.inFlight| {
      PlacedKeepsNames(m.sys, m.inFlight[i], env);
    }
  }

  lemma StepKeepsNames(m: State, step: Step, cfg: Config)
    requires NamesOk(m) && Recorded(m, step)
    ensures NamesOk(Apply(m, step, cfg).0)
    ensures AnswersStoredId(Apply(m, step, cfg).0, Apply(m, step, cfg).1)
  {
    match step
    case Look(req, env) => LookKeepsNames(m, req, env, cfg);
    case Place(i, env) => PlaceKeepsNames(m, i, env, cfg);
    case OtherWrite(w) =>
      var n := Apply(m, step, cfg).0;
      JobHistory.RowsStay(m.sys.ledger, w);
      forall key | key in n.sys.ledger.jobs ensures Named(n.sys.ledger.jobs[key]) {
        WriteKeepsNames(m.sys.ledger, w, key);
      }
    case Advance(_, _, _) =>
    case Leave(_) =>
  }

  lemma {:induction false} ExecKeepsNames(m: State, steps: seq<Step>, cfg: Config)
    requires NamesOk(m) && AllRecorded(m, steps, cfg)
    ensures NamesOk(Exec(m, steps, cfg))
    decreases |steps|
  {
    if steps != [] {
      StepKeepsNames(m, steps[0], cfg);
      ExecKeepsNames(Apply(m, steps[0], cfg).0, steps[1..], cfg);
    }
  }

  /** Fresh, duplicate, conflicting or coalesced: the id a caller is answered with is the one
      stored on the row of the key it is answered with. */
  lemma AnsweredIdIsStored(steps: seq<Step>, step: Step, cfg: Config)
    requires AllRecorded(INIT, steps, cfg) && Recorded(Exec(INIT, steps, cfg), step)
    ensures var (n, said) := Apply(Exec(INIT, steps, cfg), step, cfg); AnswersStoredId(n, said)
  {
    ExecKeepsNames(INIT, steps, cfg);
    StepKeepsNames(Exec(INIT, steps, cfg), step, cfg);
  }

}
