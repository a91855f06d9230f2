/** Putting a send on its queue, or folding it into one that is already waiting
    (wa-shared/dispatch/enqueuer.go, coalesce.go, coalesce.lua). */
module Dispatch {
  import opened Options
  import opened Keys
  import Jobs

  const MAX_TEXT_LEN := 65536
  const COALESCE_SEPARATOR := "\n\n"

  datatype Request = Request(
    sessionId: string, to: string, text: string, priority: string, sourceRef: string, callerKey: string,
    apiKeyId: string, publicId: string, sender: string, metadata: map<string, string>, failoverOf: string)

  datatype Field = SessionField | KeyField | TextField | PriorityField | ToField

  datatype Error =
    | Invalid(field: Field)
    | LookupFailed
    | LostTheOpenTask(openKey: string)
    | NoSlot
    | EnqueueFailed

  /** A request that passed validation, with its normalised recipient and its lane. */
  datatype Send = Send(req: Request, to: string, priority: Priority) {
    function Key(): string { IdempotencyKey(req.apiKeyId, req.callerKey, to) }
    function Queue(): string { QueueFor(req.sessionId, priority) }
    function Group(): string { CoalesceKey(req.sessionId, priority, to) }
    predicate Valid() {
      IsRecipient(to) && ValidCallerKey(req.callerKey) && 0 < |req.text| <= MAX_TEXT_LEN
    }
  }

  function Validate(req: Request): Result<Send, Error> {
    if req.sessionId == "" then Err(Invalid(SessionField))
    else if !ValidCallerKey(req.callerKey) then Err(Invalid(KeyField))
    else if req.text == "" || |req.text| > MAX_TEXT_LEN then Err(Invalid(TextField))
    else
      match ParsePriority(req.priority)
      case Err(_) => Err(Invalid(PriorityField))
      case Ok(priority) =>
        match NormalisePhone(req.to)
        case Err(_) => Err(Invalid(ToField))
        case Ok(to) => Ok(Send(req, to, priority))
  }

  lemma ValidatedIsValid(req: Request)
    requires Validate(req).Ok?
    ensures Validate(req).value.Valid() && Validate(req).value.req == req
  {
    NormalisedRecipients(Validate(req).value.to);
  }

  lemma ValidateShape(req: Request)
    ensures Validate(req).Ok? <==>
      req.sessionId != "" && ValidCallerKey(req.callerKey) && 0 < |req.text| <= MAX_TEXT_LEN &&
      ParsePriority(req.priority).Ok? && NormalisePhone(req.to).Ok?
    ensures Validate(req).Ok? ==>
      Validate(req).value == Send(req, NormalisePhone(req.to).value, ParsePriority(req.priority).value)
  {
  }

  /** Two spellings of one number, under one caller key, are one send: the same task on the same queue, and
      the same group. */
  lemma SpellingsMeet(req: Request, national: string, international: string, d: string)
    requires AllDigits(d) && (d == "" || d[0] != '0')
    requires DigitsOf(national) == "0" + d && DigitsOf(international) == "62" + d
    ensures var a, b := Validate(req.(to := national)), Validate(req.(to := international));
      (a.Ok? <==> b.Ok?) &&
      (a.Ok? ==> a.value.to == b.value.to == "62" + d && a.value.Key() == b.value.Key() &&
                 a.value.Queue() == b.value.Queue() && a.value.Group() == b.value.Group())
  {
    SpellingsAgree(national, international, d);
    ValidateShape(req.(to := national));
    ValidateShape(req.(to := international));
  }

  /** What is accepted: exactly a request with a session, a printable key of at most 255 characters, a text of at
      most 64 KiB, a lane there is (or none, for the default one), and a spelling of some recipient. */
  lemma ValidatesIff(req: Request)
    ensures Validate(req).Ok? <==>
      req.sessionId != "" &&
      0 < |req.callerKey| <= 255 && (forall i | 0 <= i < |req.callerKey| :: 0x21 <= req.callerKey[i] as int <= 0x7E) &&
      0 < |req.text| <= 64 * 1024 && req.priority in {"", "critical", "default", "bulk"} &&
      exists to :: IsRecipient(to) && Spells(req.to, to)
    ensures Validate(req).Ok? ==>
      var s := Validate(req).value;
      IsRecipient(s.to) && Spells(req.to, s.to) && s.req == req &&
      Name(s.priority) == if req.priority == "" then "default" else req.priority
  {
    ValidateShape(req);
    ParsesIff(req.priority);
    AcceptedIff(req.to);
    if NormalisePhone(req.to).Ok? {
      NormalisesIff(req.to, NormalisePhone(req.to).value);
    }
  }

  /** The field a refusal names is the first one that is wrong. */
  lemma RefusalNamesTheField(req: Request)
    ensures Validate(req) == Err(Invalid(SessionField)) <==> req.sessionId == ""
    ensures Validate(req) == Err(Invalid(KeyField)) <==> req.sessionId != "" && !ValidCallerKey(req.callerKey)
    ensures Validate(req) == Err(Invalid(TextField)) <==>
      req.sessionId != "" && ValidCallerKey(req.callerKey) && (req.text == "" || |req.text| > 64 * 1024)
    ensures Validate(req) == Err(Invalid(ToField)) ==>
      req.priority in {"", "critical", "default", "bulk"} && !exists to :: IsRecipient(to) && Spells(req.to, to)
    ensures Validate(req) == Err(Invalid(PriorityField)) ==> req.priority !in {"", "critical", "default", "bulk"}
    ensures Validate(req).Err? ==> Validate(req).error.Invalid?
  {
    AcceptedIff(req.to);
    ParsesIff(req.priority);
  }

  // ---------------------------------------------------------------- the queue, the groups, the jobs

  datatype TaskState = Waiting | Pending | Active | Retry | Completed | Archived

  datatype Payload = Payload(
    key: string, sessionId: string, to: string, text: string, priority: Priority, sourceRef: string, sender: string)

  datatype Task = Task(payload: Payload, state: TaskState, processAt: int)

  /** A task id is unique within its queue. */
  type TaskId = (string, string)

  /** One hash in Redis: the open task's key, the sends folded into it, when the hash expires. */
  datatype Group = Group(openKey: string, count: nat, expiresAt: int)

  datatype Config = Config(window: int, maxMessages: nat, minLead: int) {
    predicate Valid() { window > 0 && maxMessages >= 2 && minLead > 0 }
  }

  datatype Sys = Sys(tasks: map<TaskId, Task>, groups: map<string, Group>, ledger: Jobs.Ledger)

  /** What the outside world answers during one Enqueue. coalescing: this process has a coalescer.
      record: the job row's first write, or the read of its public id; unqueue: the write after a failed
      enqueue. */
  datatype Env = Env(
    now: int, coalescing: bool, slot: Option<int>, lookupFails: bool, claim: Call, mergeLookupFails: bool,
    delete: Call, restore: Call, reopen: Call, record: Call, enqueue: Call, unqueue: Call)

  datatype Answer = Answer(
    key: string, publicId: string, sessionId: string, to: string, queue: string, processAt: Option<int>,
    duplicate: bool, coalesced: bool)

  predicate Coalescable(p: Priority) {
    p != Critical
  }

  function JobOf(s: Send): Jobs.Job {
    Jobs.Job(s.Key(), s.req.sessionId, s.to, s.req.sourceRef, s.req.publicId, s.req.apiKeyId, s.req.sender,
             Name(s.priority), s.req.metadata, "", s.req.failoverOf)
  }

  function PayloadOf(s: Send): Payload {
    Payload(s.Key(), s.req.sessionId, s.to, s.req.text, s.priority, s.req.sourceRef, s.req.sender)
  }

  /** The stored id when there is one to read, the freshly minted one otherwise. */
  function PublicIdOr(l: Jobs.Ledger, key: string, readable: bool, fallback: string): string {
    var stored := if readable then Jobs.PublicIdFor(l, key) else "";
    if stored == "" then fallback else stored
  }

  // ---------------------------------------------------------------- coalescing

  predicate Live(groups: map<string, Group>, ck: string, now: int) {
    ck in groups && now < groups[ck].expiresAt
  }

  function Reopened(groups: map<string, Group>, ck: string, key: string, now: int, cfg: Config): map<string, Group> {
    groups[ck := Group(key, 1, now + cfg.window)]
  }

  /** The script of coalesce.lua, unforced: join the open group while it has room, else open one. */
  function Joined(groups: map<string, Group>, ck: string, key: string, now: int, cfg: Config): map<string, Group> {
    if Live(groups, ck, now) && groups[ck].count < cfg.maxMessages
    then groups[ck := groups[ck].(count := groups[ck].count + 1)]
    else Reopened(groups, ck, key, now, cfg)
  }

  /** The open task is there, waiting, far enough ahead, and has room for the text. */
  predicate Mergeable(tasks: map<TaskId, Task>, id: TaskId, text: string, env: Env, cfg: Config) {
    !env.mergeLookupFails && id in tasks && tasks[id].state == Waiting &&
    tasks[id].processAt - env.now >= cfg.minLead &&
    |tasks[id].payload.text + COALESCE_SEPARATOR + text| <= MAX_TEXT_LEN
  }

  function WithText(task: Task, text: string): Task {
    Task(task.payload.(text := task.payload.text + COALESCE_SEPARATOR + text), Waiting, task.processAt)
  }

  datatype MergeOutcome = Merged(processAt: int) | NotMerged | LostOpenTask

  /** Delete the open task, then put it back with the text appended. Either call can take effect and
      still report an error. */
  function MergedInto(tasks: map<TaskId, Task>, id: TaskId, text: string, env: Env, cfg: Config):
    (map<TaskId, Task>, MergeOutcome)
  {
    if !Mergeable(tasks, id, text, env, cfg) || env.delete.Refuses? then (tasks, NotMerged)
    else if env.delete.LosesReply? then (tasks - {id}, NotMerged)
    else if env.restore.Refuses? then (tasks - {id}, LostOpenTask)
    else
      (tasks[id := WithText(tasks[id], text)],
       if env.restore.Answers? then Merged(tasks[id].processAt) else LostOpenTask)
  }

  datatype Verdict = Answered(answer: Answer) | Refused(error: Error) | Proceed

  function Coalesced(sys: Sys, s: Send, env: Env, cfg: Config): (Sys, Verdict) {
    var groups := if env.claim.Applies() then Joined(sys.groups, s.Group(), s.Key(), env.now, cfg) else sys.groups;
    var claimed := sys.(groups := groups);
    if !env.claim.Answers? then (claimed, Proceed)
    else
      var openKey := groups[s.Group()].openKey;
      if openKey == s.Key() then (claimed, Proceed)
      else
        var (tasks, outcome) := MergedInto(sys.tasks, (s.Queue(), openKey), s.req.text, env, cfg);
        match outcome
        case LostOpenTask => (claimed.(tasks := tasks), Refused(LostTheOpenTask(openKey)))
        case NotMerged =>
          var reopened := if env.reopen.Applies() then Reopened(groups, s.Group(), s.Key(), env.now, cfg) else groups;
          (Sys(tasks, reopened, sys.ledger), Proceed)
        case Merged(processAt) =>
          var ledger :=
            if env.record.Applies() then Jobs.AfterMarkCoalesced(sys.ledger, openKey, s.req.sourceRef) else sys.ledger;
          var publicId := PublicIdOr(ledger, openKey, env.record.Answers?, s.req.publicId);
          (Sys(tasks, groups, ledger),
           Answered(Answer(openKey, publicId, s.req.sessionId, s.to, s.Queue(), Some(processAt), false, true)))
  }

  // ---------------------------------------------------------------- the two halves of Enqueue

  /** Is it already queued, or can it be folded into a waiting task? */
  function Looked(sys: Sys, s: Send, env: Env, cfg: Config): (Sys, Verdict) {
    var id := (s.Queue(), s.Key());
    if env.lookupFails then (sys, Refused(LookupFailed))
    else if id in sys.tasks then
      var publicId := PublicIdOr(sys.ledger, s.Key(), env.record.Answers?, s.req.publicId);
      var processAt := Some(sys.tasks[id].processAt);
      (sys, Answered(Answer(s.Key(), publicId, s.req.sessionId, s.to, s.Queue(), processAt, true, false)))
    else if env.coalescing && Coalescable(s.priority) then Coalesced(sys, s, env, cfg)
    else (sys, Proceed)
  }

  /** Reserve a slot, record the job, queue the task. The id conflicts when another process queued
      the same key since this one looked. */
  function Placed(sys: Sys, s: Send, env: Env): (Sys, Result<Answer, Error>) {
    if env.slot.None? then (sys, Err(NoSlot))
    else
      var id := (s.Queue(), s.Key());
      var at := env.slot.value;
      var ledger := if env.record.Applies() then Jobs.AfterMarkScheduled(sys.ledger, JobOf(s), at) else sys.ledger;
      var publicId := PublicIdOr(ledger, s.Key(), env.record.Answers?, s.req.publicId);
      var answer := Answer(s.Key(), publicId, s.req.sessionId, s.to, s.Queue(), Some(at), false, false);
      var tasks :=
        if env.enqueue.Applies() && id !in sys.tasks then sys.tasks[id := Task(PayloadOf(s), Waiting, at)]
        else sys.tasks;
      if !env.enqueue.Answers? then
        (Sys(tasks, sys.groups, Unqueued(ledger, s, env)), Err(EnqueueFailed))
      else if id in sys.tasks then
        (Sys(tasks, sys.groups, ledger), Ok(answer.(processAt := None, duplicate := true)))
      else
        (Sys(tasks, sys.groups, ledger), Ok(answer))
  }

  /** The row of a send whose enqueue reported an error. */
  function Unqueued(l: Jobs.Ledger, s: Send, env: Env): Jobs.Ledger {
    if env.unqueue.Applies() then Jobs.AfterMarkFailed(l, JobOf(s), Jobs.ENQUEUE_FAILED_CODE, true, env.now) else l
  }

  /** Enqueue with nobody in between. */
  function Enqueued(sys: Sys, req: Request, env: Env, cfg: Config): (Sys, Result<Answer, Error>) {
    match Validate(req)
    case Err(error) => (sys, Err(error))
    case Ok(s) =>
      var (looked, verdict) := Looked(sys, s, env, cfg);
      match verdict
      case Answered(answer) => (looked, Ok(answer))
      case Refused(error) => (looked, Err(error))
      case Proceed => Placed(looked, s, env)
  }

  // ---------------------------------------------------------------- when a send is folded into another

  /** Known before the call: the send is not on its queue, may be coalesced, its group is open under
      another key with room, and the open task can still take the text. */
  predicate Joins(sys: Sys, s: Send, env: Env, cfg: Config) {
    !env.lookupFails && (s.Queue(), s.Key()) !in sys.tasks && env.coalescing && s.priority != Critical &&
    env.claim.Answers? && s.Group() in sys.groups &&
    var g, id := sys.groups[s.Group()], OpenTask(sys, s);
    env.now < g.expiresAt && g.count < cfg.maxMessages && g.openKey != s.Key() && !env.mergeLookupFails &&
    id in sys.tasks && sys.tasks[id].state == Waiting && sys.tasks[id].processAt >= env.now + cfg.minLead &&
    |sys.tasks[id].payload.text| + 2 + |s.req.text| <= 64 * 1024
  }

  /** The task a send would be folded into. */
  function OpenTask(sys: Sys, s: Send): TaskId
    requires s.Group() in sys.groups
  {
    (s.Queue(), sys.groups[s.Group()].openKey)
  }

  predicate Folds(sys: Sys, s: Send, env: Env, cfg: Config) {
    Joins(sys, s, env, cfg) && env.delete.Answers? && env.restore.Answers?
  }

  /** An accepted send was coalesced exactly when it joined an open task and both calls that exchange
      the task replied. */
  lemma CoalescedIff(sys: Sys, req: Request, env: Env, cfg: Config)
    requires Validate(req).Ok?
    ensures var (after, result) := Enqueued(sys, req, env, cfg); var s := Validate(req).value;
      (result.Ok? && result.value.coalesced <==> Folds(sys, s, env, cfg)) &&
      (Folds(sys, s, env, cfg) ==>
         var id := OpenTask(sys, s);
         result.value.queue == id.0 && result.value.key == id.1 &&
         var text := sys.tasks[id].payload.text + "\n\n" + req.text;
         after.tasks == sys.tasks[id := sys.tasks[id].(payload := sys.tasks[id].payload.(text := text))] &&
         result.value == Answer(id.1, result.value.publicId, req.sessionId, s.to, id.0, Some(sys.tasks[id].processAt),
                                false, true) &&
         after.groups == sys.groups[s.Group() := sys.groups[s.Group()].(count := sys.groups[s.Group()].count + 1)] &&
         after.ledger ==
           if env.record.Applies() then Jobs.AfterMarkCoalesced(sys.ledger, id.1, req.sourceRef) else sys.ledger)
  {
    ValidatedIsValid(req);
  }

  /** The send goes its own way: it can be looked up, is not on its queue, and no open task was taken for it. */
  predicate GoesAlone(sys: Sys, s: Send, env: Env, cfg: Config) {
    !env.lookupFails && (s.Queue(), s.Key()) !in sys.tasks && !(Joins(sys, s, env, cfg) && env.delete.Answers?)
  }

  /** What a caller is told, with nobody in between, and when: every error has its one cause, a duplicate is a
      send on its queue, and a send that goes alone is queued under its own key with all it carries. */
  lemma AnswersExactly(sys: Sys, req: Request, env: Env, cfg: Config)
    requires Validate(req).Ok?
    ensures var s := Validate(req).value; var own := (s.Queue(), s.Key());
      var (after, result) := Enqueued(sys, req, env, cfg);
      (result == Err(LookupFailed) <==> env.lookupFails) &&
      (result.Ok? && result.value.duplicate <==> !env.lookupFails && own in sys.tasks) &&
      (result.Err? && result.error.LostTheOpenTask? <==>
         Joins(sys, s, env, cfg) && env.delete.Answers? && !env.restore.Answers?) &&
      (result == Err(NoSlot) <==> GoesAlone(sys, s, env, cfg) && env.slot.None?) &&
      (result == Err(EnqueueFailed) <==> GoesAlone(sys, s, env, cfg) && env.slot.Some? && !env.enqueue.Answers?) &&
      (GoesAlone(sys, s, env, cfg) && env.slot.Some? && env.enqueue.Answers? ==>
         result == Ok(Answer(s.Key(), result.value.publicId, req.sessionId, s.to, s.Queue(), env.slot, false, false)))
    ensures var s := Validate(req).value; var own := (s.Queue(), s.Key());
      var (after, result) := Enqueued(sys, req, env, cfg);
      (!env.record.Answers? && result.Ok? ==> result.value.publicId == req.publicId) &&
      (own in after.tasks && own !in sys.tasks <==>
         GoesAlone(sys, s, env, cfg) && env.slot.Some? && env.enqueue.Applies()) &&
      (own in after.tasks && own !in sys.tasks ==>
         after.tasks[own] == Task(Payload(s.Key(), req.sessionId, s.to, req.text, s.priority, req.sourceRef,
                                          req.sender), Waiting, env.slot.value)) &&
      (own in sys.tasks ==>
         after == sys &&
         (result.Ok? ==> result.value == Answer(s.Key(), result.value.publicId, req.sessionId, s.to, s.Queue(),
                                                Some(sys.tasks[own].processAt), true, false)))
  {
    LookAnswers(sys, Validate(req).value, env, cfg);
    if GoesAlone(sys, Validate(req).value, env, cfg) {
      PlaceAnswers(Looked(sys, Validate(req).value, env, cfg).0, Validate(req).value, env);
    }
    ValidatedIsValid(req);
  }

  lemma LookAnswers(sys: Sys, s: Send, env: Env, cfg: Config)
    ensures var (n, verdict) := Looked(sys, s, env, cfg); var own := (s.Queue(), s.Key());
      (verdict == Refused(LookupFailed) <==> env.lookupFails) &&
      (verdict.Refused? ==> verdict.error == LookupFailed || verdict.error.LostTheOpenTask?) &&
      (verdict.Refused? && verdict.error.LostTheOpenTask? <==>
         Joins(sys, s, env, cfg) && env.delete.Answers? && !env.restore.Answers?) &&
      (verdict.Proceed? <==> GoesAlone(sys, s, env, cfg)) &&
      (verdict.Answered? && verdict.answer.duplicate <==> !env.lookupFails && own in sys.tasks) &&
      (verdict.Answered? && !env.record.Answers? ==> verdict.answer.publicId == s.req.publicId) &&
      (own in n.tasks <==> own in sys.tasks) &&
      (own in sys.tasks ==>
         n == sys &&
         (verdict.Answered? ==> verdict.answer == Answer(s.Key(), verdict.answer.publicId, s.req.sessionId, s.to,
                                                         s.Queue(), Some(sys.tasks[own].processAt), true, false)))
  {
  }

  lemma PlaceAnswers(sys: Sys, s: Send, env: Env)
    requires (s.Queue(), s.Key()) !in sys.tasks
    ensures var own := (s.Queue(), s.Key()); var (n, result) := Placed(sys, s, env);
      (result == Err(NoSlot) <==> env.slot.None?) &&
      (result == Err(EnqueueFailed) <==> env.slot.Some? && !env.enqueue.Answers?) &&
      (result.Err? ==> result.error == NoSlot || result.error == EnqueueFailed) &&
      (result.Ok? ==>
         result.value ==
           Answer(s.Key(), result.value.publicId, s.req.sessionId, s.to, s.Queue(), env.slot, false, false)) &&
      (result.Ok? && !env.record.Answers? ==> result.value.publicId == s.req.publicId) &&
      (own in n.tasks <==> env.slot.Some? && env.enqueue.Applies()) &&
      (own in n.tasks ==>
         n.tasks[own] == Task(Payload(s.Key(), s.req.sessionId, s.to, s.req.text, s.priority, s.req.sourceRef,
                                      s.req.sender), Waiting, env.slot.value))
  {
  }

  /** And a send whose key came onto its queue since it looked is a duplicate, of a time nobody knows. */
  lemma ConflictIsADuplicate(sys: Sys, s: Send, env: Env)
    requires (s.Queue(), s.Key()) in sys.tasks && env.slot.Some? && env.enqueue.Answers?
    ensures var (n, result) := Placed(sys, s, env);
      n.tasks == sys.tasks && result.Ok? &&
      result.value == Answer(s.Key(), result.value.publicId, s.req.sessionId, s.to, s.Queue(), None, true, false)
  {
  }

  /** What is put on record: a send that goes alone has its job scheduled for its slot, with all that is known of
      it, and failed again if its enqueue reports an error. */
  lemma RecordsExactly(sys: Sys, s: Send, env: Env)
    ensures var after := Placed(sys, s, env).0.ledger;
      var job := Jobs.Job(s.Key(), s.req.sessionId, s.to, s.req.sourceRef, s.req.publicId, s.req.apiKeyId, s.req.sender,
                          Name(s.priority), s.req.metadata, "", s.req.failoverOf);
      after ==
        if env.slot.None? then sys.ledger
        else
          var scheduled :=
            if env.record.Applies() then Jobs.AfterMarkScheduled(sys.ledger, job, env.slot.value) else sys.ledger;
          if !env.enqueue.Answers? && env.unqueue.Applies() then
            Jobs.AfterMarkFailed(scheduled, job, "dispatcher_enqueue_failed", true, env.now)
          else scheduled
  {
  }

  /** What a send that goes alone does to its group, whatever Redis answers: a claim that takes effect joins a
      group with room and opens a spent one, even if its reply is lost; and a send that found another's task
      unfit opens the group for itself, unless that is refused. */
  lemma GroupMoves(sys: Sys, s: Send, env: Env, cfg: Config)
    requires GoesAlone(sys, s, env, cfg) && env.coalescing && s.priority != Critical
    ensures var before, after := sys.groups, Looked(sys, s, env, cfg).0.groups; var ck := s.Group();
      if env.claim.Refuses? then after == before
      else
        var open := ck in before && env.now < before[ck].expiresAt && before[ck].count < cfg.maxMessages;
        var others := open && before[ck].openKey != s.Key();
        ck in after &&
        after[ck] ==
          if !open || (others && env.claim.Answers? && !env.reopen.Refuses?) then
            Group(s.Key(), 1, env.now + cfg.window)
          else before[ck].(count := before[ck].count + 1)
  {
  }

  /** Who may join next: after a send that goes alone although it may be coalesced, with Redis answering, its
      group is open under its own key; and a group that is opened is for it alone and lasts the window. */
  lemma GroupIsOpenFor(sys: Sys, s: Send, env: Env, cfg: Config)
    requires GoesAlone(sys, s, env, cfg) && env.coalescing && s.priority != Critical
    requires env.claim.Answers? && env.reopen.Answers?
    ensures var before, after := sys.groups, Looked(sys, s, env, cfg).0.groups; var ck := s.Group();
      ck in after && after[ck].openKey == s.Key() &&
      after[ck] ==
        (if ck in before && before[ck].openKey == s.Key() && env.now < before[ck].expiresAt &&
            before[ck].count < cfg.maxMessages then before[ck].(count := before[ck].count + 1)
         else Group(s.Key(), 1, env.now + cfg.window)) &&
      forall other | other != ck ::
        (other in after <==> other in before) && (other in before ==> after[other] == before[other])
  {
  }

  class Enqueuer {
    var tasks: map<TaskId, Task>
    var groups: map<string, Group>
    const jobs: Jobs.JobStore
    const cfg: Config

    constructor (jobs: Jobs.JobStore, cfg: Config)
      ensures this.jobs == jobs && this.cfg == cfg && tasks == map[] && groups == map[]
    {
      this.jobs, this.cfg, tasks, groups := jobs, cfg, map[], map[];
    }

    function View(): Sys
      reads this, jobs
    {
      Sys(tasks, groups, jobs.View())
    }

    method Enqueue(req: Request, env: Env) returns (result: Result<Answer, Error>)
      modifies this, jobs
      ensures (View(), result) == Enqueued(old(View()), req, env, cfg)
    {
      var validated := Validate(req);
      if validated.Err? {
        return Err(validated.error);
      }
      var s := validated.value;
      if env.lookupFails {
        return Err(LookupFailed);
      }
      var id := (s.Queue(), s.Key());
      if id in tasks {
        var publicId := PublicIdOr(jobs.View(), s.Key(), env.record.Answers?, req.publicId);
        return Ok(Answer(s.Key(), publicId, req.sessionId, s.to, s.Queue(), Some(tasks[id].processAt), true, false));
      }
      if env.coalescing && Coalescable(s.priority) {
        var verdict := CoalesceSend(s, env);
        match verdict {
          case Answered(answer) => return Ok(answer);
          case Refused(error) => return Err(error);
          case Proceed =>
        }
      }
      result := Place(s, env);
    }

    method Place(s: Send, env: Env) returns (result: Result<Answer, Error>)
      modifies this, jobs
      ensures (View(), result) == Placed(old(View()), s, env)
    {
      if env.slot.None? {
        return Err(NoSlot);
      }
      var publicId := s.req.publicId;
      if env.record.Applies() {
        var stored := jobs.MarkScheduled(JobOf(s), env.slot.value);
        if env.record.Answers? && stored != "" {
          publicId := stored;
        }
      }
      var id := (s.Queue(), s.Key());
      var conflict := id in tasks;
      if env.enqueue.Applies() && !conflict {
        tasks := tasks[id := Task(PayloadOf(s), Waiting, env.slot.value)];
      }
      if !env.enqueue.Answers? {
        if env.unqueue.Applies() {
          jobs.MarkFailed(JobOf(s), Jobs.ENQUEUE_FAILED_CODE, true, env.now);
        }
        return Err(EnqueueFailed);
      }
      if conflict {
        return Ok(Answer(s.Key(), publicId, s.req.sessionId, s.to, s.Queue(), None, true, false));
      }
      return Ok(Answer(s.Key(), publicId, s.req.sessionId, s.to, s.Queue(), Some(env.slot.value), false, false));
    }

    /** The script claim and reopen both run. */
    method RunScript(ck: string, key: string, now: int, force: bool) returns (openKey: string)
      modifies this`groups
      ensures groups ==
        if force then Reopened(old(groups), ck, key, now, cfg) else Joined(old(groups), ck, key, now, cfg)
      ensures openKey == groups[ck].openKey
    {
      if !force && ck in groups && now < groups[ck].expiresAt {
        var count := groups[ck].count;
        if count < cfg.maxMessages {
          groups := groups[ck := groups[ck].(count := count + 1)];
          return groups[ck].openKey;
        }
      }
      groups := groups[ck := Group(key, 1, now + cfg.window)];
      openKey := key;
    }

    method CoalesceSend(s: Send, env: Env) returns (verdict: Verdict)
      modifies this, jobs
      ensures (View(), verdict) == Coalesced(old(View()), s, env, cfg)
    {
      if env.claim.Refuses? {
        return Proceed;
      }
      var openKey := RunScript(s.Group(), s.Key(), env.now, false);
      if env.claim.LosesReply? {
        return Proceed;
      }
      if openKey == s.Key() {
        return Proceed;
      }
      var outcome := MergeInto((s.Queue(), openKey), s.req.text, env);
      match outcome {
        case LostOpenTask => return Refused(LostTheOpenTask(openKey));
        case NotMerged =>
          if env.reopen.Applies() {
            openKey := RunScript(s.Group(), s.Key(), env.now, true);
          }
          return Proceed;
        case Merged(processAt) =>
          var publicId := s.req.publicId;
          if env.record.Applies() {
            var stored := jobs.MarkCoalesced(openKey, s.req.sourceRef);
            if env.record.Answers? && stored != "" {
              publicId := stored;
            }
          }
          return Answered(Answer(openKey, publicId, s.req.sessionId, s.to, s.Queue(), Some(processAt), false, true));
      }
    }

    method MergeInto(id: TaskId, text: string, env: Env) returns (outcome: MergeOutcome)
      modifies this`tasks
      ensures (tasks, outcome) == MergedInto(old(tasks), id, text, env, cfg)
    {
      if env.mergeLookupFails || id !in tasks {
        return NotMerged;
      }
      var task := tasks[id];
      if task.state != Waiting || task.processAt - env.now < cfg.minLead {
        return NotMerged;
      }
      var merged := task.payload.text + COALESCE_SEPARATOR + text;
      if |merged| > MAX_TEXT_LEN || env.delete.Refuses? {
        return NotMerged;
      }
      tasks := tasks - {id};
      if env.delete.LosesReply? {
        return NotMerged;
      }
      if env.restore.Applies() {
        tasks := tasks[id := Task(task.payload.(text := merged), Waiting, task.processAt)];
        assert tasks == old(tasks)[id := WithText(task, text)];
      }
      outcome := if env.restore.Answers? then Merged(task.processAt) else LostOpenTask;
    }
  }
}
