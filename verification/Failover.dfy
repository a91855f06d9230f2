/** What the dispatcher's worker does with one task: send it, and on a failure that indicts the session
    of a pooled sender, retire the session and send the text again through another
    (wa-dispatcher/internal/worker/handler.go). */
module Failover {
  import opened Options
  import opened Keys
  import opened Pools
  import opened PoolRuns
  import Breaker
  import Dispatch
  import DispatchRuns
  import Jobs
  import JobHistory
  import Repeats

  /** What the gateway answered, with the failure already classified. */
  datatype SendResult =
    | Accepted(waMessageId: string)
    | Rejected(code: string, retryable: bool, tripsCircuit: bool)

  /** What the task queue is told: done, do not retry, or retry. */
  datatype TaskResult = Done | SkipRetry | RetryLater

  function JobOf(p: Dispatch.Payload, waMessageId: string): Jobs.Job {
    Jobs.Job(p.key, p.sessionId, p.to, p.sourceRef, "", "", "", "", map[], waMessageId, "")
  }

  /** The members whose circuit can be read and is open. */
  function OpenMembers(redis: Breaker.Redis, members: Pool): set<string> {
    set m | m in members && Breaker.StateOf(redis, m.sessionId).Ok? && Breaker.StateOf(redis, m.sessionId).value.open ::
      m.sessionId
  }

  /** The same text to the same recipient as a new message, linked to the one that failed. */
  function Resend(p: Dispatch.Payload, original: Jobs.Row, backup: string, newKey: string, newPublicId: string)
    : Dispatch.Request
  {
    Dispatch.Request(
      backup, p.to, p.text, Name(p.priority), p.sourceRef, newKey,
      if original.apiKeyId.Some? then original.apiKeyId.value else "", newPublicId, p.sender,
      if original.metadata.Some? then original.metadata.value else map[], p.key)
  }

  /** What may fail around one task. count: the calls of the circuit breaker; hasEnqueuer: the worker was
      built with one. */
  datatype Faults = Faults(
    begin: Call, mark: Call, count: Breaker.Opening, poolUnreadable: bool, hop: HopFaults, hasEnqueuer: bool,
    originalUnreadable: bool)

  predicate Handles(p: Dispatch.Payload, tripsCircuit: bool, members: Pool, f: Faults) {
    p.sender != "" && tripsCircuit && !f.poolUnreadable && members != []
  }

  /** The circuits, one sender's pool, and the queue with its groups and jobs. */
  datatype World = World(circuits: Breaker.Circuits, pool: Pool, sys: Dispatch.Sys)

  function Begun(w: World, p: Dispatch.Payload, f: Faults, at: int): World {
    if f.begin.Applies() then w.(sys := w.sys.(ledger := Jobs.AfterBeginAttempt(w.sys.ledger, JobOf(p, ""), at))) else w
  }

  function Marked(l: Jobs.Ledger, p: Dispatch.Payload, code: string, permanent: bool, f: Faults, at: int): Jobs.Ledger {
    if f.mark.Applies() then Jobs.AfterMarkFailed(l, JobOf(p, ""), code, permanent, at) else l
  }

  /** The resend needs an enqueuer and the row of the message it replaces. */
  function Resent(sys: Dispatch.Sys, p: Dispatch.Payload, backup: string, f: Faults, newKey: string,
                  newPublicId: string, env: Dispatch.Env, cfg: Dispatch.Config): Dispatch.Sys
  {
    if !f.hasEnqueuer || f.originalUnreadable || p.key !in sys.ledger.jobs then sys
    else Dispatch.Enqueued(sys, Resend(p, sys.ledger.jobs[p.key], backup, newKey, newPublicId), env, cfg).0
  }

  /** A handled failure: it is on the job's row for good and on the session's circuit, the pool took one
      hop, and the text was enqueued again through the session the hop found, if it found one. */
  function FailedOver(w: World, threshold: nat, p: Dispatch.Payload, code: string, f: Faults, newKey: string,
                      newPublicId: string, env: Dispatch.Env, cfg: Dispatch.Config): (World, Option<string>)
  {
    var circuits := Breaker.AfterFailure(w.circuits, threshold, p.sessionId, code, env.now, f.count).0;
    var open := OpenMembers(circuits.redis, w.pool);
    var (pool, next) := Hop(w.pool, p.sessionId, open, open, f.hop);
    var ledger := Marked(w.sys.ledger, p, code, true, f, env.now);
    var failed := w.sys.(ledger := ledger);
    var sys := if next.None? then failed else Resent(failed, p, next.value, f, newKey, newPublicId, env, cfg);
    (World(circuits, pool, sys), next)
  }

  /** A failure taken on the same session: the job waits for its retry or is failed for good. */
  function FailedAlone(w: World, threshold: nat, p: Dispatch.Payload, code: string, permanent: bool, tripsCircuit: bool,
                       f: Faults, at: int): World
  {
    var tripped := Breaker.AfterFailure(w.circuits, threshold, p.sessionId, code, at, f.count).0;
    World(if tripsCircuit then tripped else w.circuits, w.pool,
          w.sys.(ledger := Marked(w.sys.ledger, p, code, permanent, f, at)))
  }

  function Delivered(w: World, p: Dispatch.Payload, waMessageId: string, f: Faults, at: int): World {
    World(Breaker.AfterSuccess(w.circuits, p.sessionId, f.count.script), w.pool,
          if f.mark.Applies() then w.sys.(ledger := Jobs.AfterMarkSent(w.sys.ledger, JobOf(p, waMessageId), at))
          else w.sys)
  }

  class Worker {
    const jobs: Jobs.JobStore
    const circuit: Breaker.CircuitBreaker
    const pools: PoolStore
    const enqueuer: Dispatch.Enqueuer

    predicate Valid() {
      enqueuer.jobs == jobs
    }

    constructor (circuit: Breaker.CircuitBreaker, pools: PoolStore, enqueuer: Dispatch.Enqueuer)
      ensures Valid() && this.circuit == circuit && this.pools == pools && this.enqueuer == enqueuer
    {
      this.jobs, this.circuit, this.pools, this.enqueuer := enqueuer.jobs, circuit, pools, enqueuer;
    }

    function Now(sender: string): World
      reads jobs, circuit, pools, enqueuer, enqueuer.jobs
    {
      World(circuit.Now(), pools.PoolOf(sender), enqueuer.View())
    }

    /** newKey and newPublicId are the fresh names of the message a failover may send. */
    method FailoverPooled(p: Dispatch.Payload, code: string, tripsCircuit: bool, f: Faults, newKey: string,
                          newPublicId: string, env: Dispatch.Env) returns (handled: bool, next: Option<string>)
      requires Valid()
      modifies jobs, circuit, pools, enqueuer
      ensures handled <==> p.sender != "" && tripsCircuit && !f.poolUnreadable && old(pools.PoolOf(p.sender)) != []
      ensures handled ==>
        (Now(p.sender), next) ==
          FailedOver(old(Now(p.sender)), circuit.threshold, p, code, f, newKey, newPublicId, env, enqueuer.cfg)
      ensures pools.OnlyTouches(p.sender)
      ensures !handled ==> unchanged(jobs, circuit, pools, enqueuer)
    {
      if p.sender == "" || !tripsCircuit || f.poolUnreadable {
        return false, None;
      }
      var members := pools.PoolOf(p.sender);
      if |members| == 0 {
        return false, None;
      }
      handled := true;
      if f.mark.Applies() {
        jobs.MarkFailed(JobOf(p, ""), code, true, env.now);
      }
      var _ := circuit.Failure(p.sessionId, code, env.now, f.count);
      var open := OpenMembers(circuit.redis, members);
      next := TakeHop(p.sender, p.sessionId, open, f.hop);
      if next.Some? {
        ResendVia(p, next.value, f, newKey, newPublicId, env);
      }
    }

    method TakeHop(sender: string, failed: string, open: set<string>, f: HopFaults) returns (next: Option<string>)
      requires pools.PoolOf(sender) != []
      modifies pools
      ensures pools.OnlyTouches(sender)
      ensures (pools.PoolOf(sender), next) == Hop(old(pools.PoolOf(sender)), failed, open, open, f)
    {
      if f.rotate.Refuses? {
        return None;
      }
      next := pools.Rotate(sender, failed, open);
      if f.rotate.LosesReply? {
        return None;
      }
      if next.None? {
        if f.rereadFails {
          return None;
        }
        next := PickHealthy(pools.PoolOf(sender), failed, open, false);
      }
    }

    method ResendVia(p: Dispatch.Payload, backup: string, f: Faults, newKey: string, newPublicId: string,
                     env: Dispatch.Env)
      requires Valid()
      modifies jobs, enqueuer
      ensures enqueuer.View() == Resent(old(enqueuer.View()), p, backup, f, newKey, newPublicId, env, enqueuer.cfg)
    {
      if !f.hasEnqueuer || f.originalUnreadable || p.key !in jobs.jobs {
        return;
      }
      var original := jobs.jobs[p.key];
      var _ := enqueuer.Enqueue(Resend(p, original, backup, newKey, newPublicId), env);
    }

    method RecordFailure(p: Dispatch.Payload, code: string, retryable: bool, tripsCircuit: bool, lastAttempt: bool,
                         f: Faults, newKey: string, newPublicId: string, env: Dispatch.Env)
      returns (result: TaskResult, next: Option<string>)
      requires Valid()
      modifies jobs, circuit, pools, enqueuer
      ensures Handles(p, tripsCircuit, old(pools.PoolOf(p.sender)), f) ==>
        result == SkipRetry &&
        (Now(p.sender), next) ==
          FailedOver(old(Now(p.sender)), circuit.threshold, p, code, f, newKey, newPublicId, env, enqueuer.cfg)
      ensures !Handles(p, tripsCircuit, old(pools.PoolOf(p.sender)), f) ==>
        result == (if retryable then RetryLater else SkipRetry) &&
        Now(p.sender) ==
          FailedAlone(old(Now(p.sender)), circuit.threshold, p, code, !retryable || lastAttempt, tripsCircuit, f,
                      env.now)
      ensures pools.OnlyTouches(p.sender)
      ensures f.mark.Applies() && !Handles(p, tripsCircuit, old(pools.PoolOf(p.sender)), f) ==>
        Seen(Now(p.sender), p.key) ==
          Some(if result == RetryLater && !lastAttempt then JobHistory.PubQueued else JobHistory.PubFailed)
    {
      ghost var before := Now(p.sender);
      var handled: bool;
      handled, next := FailoverPooled(p, code, tripsCircuit, f, newKey, newPublicId, env);
      if handled {
        return SkipRetry, next;
      }
      if f.mark.Applies() {
        jobs.MarkFailed(JobOf(p, ""), code, !retryable || lastAttempt, env.now);
      }
      if tripsCircuit {
        var _ := circuit.Failure(p.sessionId, code, env.now, f.count);
      }
      result := if retryable then RetryLater else SkipRetry;
      if f.mark.Applies() {
        FailureIsSeen(before, circuit.threshold, p, code, !retryable || lastAttempt, tripsCircuit, f, env.now);
      }
    }

    /** task is None when its payload cannot be decoded; sent is what the gateway answered once the
        attempt was put on record. */
    method ProcessTask(task: Option<Dispatch.Payload>, sent: SendResult, lastAttempt: bool, f: Faults, newKey: string,
                       newPublicId: string, env: Dispatch.Env) returns (result: TaskResult, next: Option<string>)
      requires Valid()
      modifies jobs, circuit, pools, enqueuer
      ensures task.None? ==> result == SkipRetry && unchanged(jobs, circuit, pools, enqueuer)
      ensures task.Some? && sent.Accepted? ==>
        var p := task.value;
        result == Done &&
        Now(p.sender) == Delivered(Begun(old(Now(p.sender)), p, f, env.now), p, sent.waMessageId, f, env.now)
      ensures task.Some? && sent.Rejected? &&
              Handles(task.value, sent.tripsCircuit, old(pools.PoolOf(task.value.sender)), f) ==>
        var p := task.value;
        result == SkipRetry &&
        (Now(p.sender), next) ==
          FailedOver(Begun(old(Now(p.sender)), p, f, env.now), circuit.threshold, p, sent.code, f, newKey, newPublicId,
                     env, enqueuer.cfg)
      ensures task.Some? && sent.Rejected? &&
              !Handles(task.value, sent.tripsCircuit, old(pools.PoolOf(task.value.sender)), f) ==>
        var p := task.value;
        result == (if sent.retryable then RetryLater else SkipRetry) &&
        Now(p.sender) == FailedAlone(Begun(old(Now(p.sender)), p, f, env.now), circuit.threshold, p, sent.code,
                                     !sent.retryable || lastAttempt, sent.tripsCircuit, f, env.now)
      ensures task.Some? ==> pools.OnlyTouches(task.value.sender)
      ensures task.Some? && f.mark.Applies() && result == Done ==>
        var seen := Seen(Now(task.value.sender), task.value.key);
        seen.Some? && JobHistory.SeenSent(seen.value)
      ensures task.Some? && sent.Rejected? && f.mark.Applies() &&
              !Handles(task.value, sent.tripsCircuit, old(pools.PoolOf(task.value.sender)), f) ==>
        Seen(Now(task.value.sender), task.value.key) ==
          Some(if result == RetryLater && !lastAttempt then JobHistory.PubQueued else JobHistory.PubFailed)
    {
      if task.None? {
        return SkipRetry, None;
      }
      var p := task.value;
      ghost var begun := Begun(Now(p.sender), p, f, env.now);
      if f.begin.Applies() {
        var attempts := jobs.BeginAttempt(JobOf(p, ""), env.now);
      }
      match sent
      case Rejected(code, retryable, tripsCircuit) =>
        result, next := RecordFailure(p, code, retryable, tripsCircuit, lastAttempt, f, newKey, newPublicId, env);
      case Accepted(waMessageId) =>
        if f.mark.Applies() {
          jobs.MarkSent(JobOf(p, waMessageId), env.now);
        }
        var _ := circuit.Success(p.sessionId, f.count.script);
        if f.mark.Applies() {
          SentIsSeen(begun, p, waMessageId, f, env.now);
        }
        return Done, None;
    }
  }

  // ---------------------------------------------------------------- what the public sees of it

  /** The message's public status, when it has a row. */
  function Seen(w: World, key: string): Option<JobHistory.PublicStatus> {
    if key in w.sys.ledger.jobs then Some(JobHistory.StatusOf(w.sys.ledger.jobs[key])) else None
  }

  /** Once its outcome is on record, a delivered message is seen sent. */
  lemma SentIsSeen(w: World, p: Dispatch.Payload, waMessageId: string, f: Faults, at: int)
    requires f.mark.Applies()
    ensures var seen := Seen(Delivered(w, p, waMessageId, f, at), p.key);
      seen.Some? && JobHistory.SeenSent(seen.value)
  {
    var sent := JobHistory.Send(JobOf(p, waMessageId), at);
    if p.key in w.sys.ledger.jobs {
      JobHistory.PublicTransition(w.sys.ledger, sent, p.key);
    } else {
      JobHistory.FirstWriteMakesTheRow(w.sys.ledger, sent, p.key);
    }
  }

  lemma MarkIsSeen(l: Jobs.Ledger, p: Dispatch.Payload, code: string, permanent: bool, f: Faults, at: int)
    requires f.mark.Applies()
    ensures var m := Marked(l, p, code, permanent, f, at);
      p.key in m.jobs &&
      JobHistory.StatusOf(m.jobs[p.key]) == if permanent then JobHistory.PubFailed else JobHistory.PubQueued
  {
    var failed := JobHistory.Fail(JobOf(p, ""), code, permanent, at);
    if p.key in l.jobs {
      JobHistory.PublicTransition(l, failed, p.key);
    } else {
      JobHistory.FirstWriteMakesTheRow(l, failed, p.key);
    }
  }

  /** A failure is seen failed exactly when it is for good, and waiting otherwise. */
  lemma FailureIsSeen(w: World, threshold: nat, p: Dispatch.Payload, code: string, permanent: bool, tripsCircuit: bool,
                      f: Faults, at: int)
    requires f.mark.Applies()
    ensures Seen(FailedAlone(w, threshold, p, code, permanent, tripsCircuit, f, at), p.key) ==
            Some(if permanent then JobHistory.PubFailed else JobHistory.PubQueued)
  {
    MarkIsSeen(w.sys.ledger, p, code, permanent, f, at);
  }

  predicate SeesSame(l: Jobs.Ledger, m: Jobs.Ledger, key: string) {
    key in l.jobs ==> key in m.jobs && JobHistory.StatusOf(m.jobs[key]) == JobHistory.StatusOf(l.jobs[key])
  }

  lemma LookLeavesOthers(sys: Dispatch.Sys, s: Dispatch.Send, env: Dispatch.Env, cfg: Dispatch.Config, key: string)
    ensures SeesSame(sys.ledger, Dispatch.Looked(sys, s, env, cfg).0.ledger, key)
  {
  }

  lemma PlaceLeavesOthers(sys: Dispatch.Sys, s: Dispatch.Send, env: Dispatch.Env, key: string)
    requires s.Key() != key
    ensures SeesSame(sys.ledger, Dispatch.Placed(sys, s, env).0.ledger, key)
  {
  }

  /** An enqueue leaves the public status of every other message alone. */
  lemma EnqueueLeavesOthers(sys: Dispatch.Sys, req: Dispatch.Request, env: Dispatch.Env, cfg: Dispatch.Config,
                            key: string)
    requires Dispatch.Validate(req).Ok? ==> Dispatch.Validate(req).value.Key() != key
    ensures SeesSame(sys.ledger, Dispatch.Enqueued(sys, req, env, cfg).0.ledger, key)
  {
    if Dispatch.Validate(req).Ok? {
      var s := Dispatch.Validate(req).value;
      LookLeavesOthers(sys, s, env, cfg, key);
      PlaceLeavesOthers(Dispatch.Looked(sys, s, env, cfg).0, s, env, key);
    }
  }

  /** A message that failed over is seen failed, as its resend is another message. */
  lemma FailedOverIsSeenFailed(w: World, threshold: nat, p: Dispatch.Payload, code: string, f: Faults, newKey: string,
                               newPublicId: string, env: Dispatch.Env, cfg: Dispatch.Config)
    requires f.mark.Applies()
    requires forall req: Dispatch.Request | req.callerKey == newKey && Dispatch.Validate(req).Ok? ::
      Dispatch.Validate(req).value.Key() != p.key
    ensures Seen(FailedOver(w, threshold, p, code, f, newKey, newPublicId, env, cfg).0, p.key) ==
            Some(JobHistory.PubFailed)
  {
    MarkIsSeen(w.sys.ledger, p, code, true, f, env.now);
    var failed := w.sys.(ledger := Marked(w.sys.ledger, p, code, true, f, env.now));
    var next := FailedOver(w, threshold, p, code, f, newKey, newPublicId, env, cfg).1;
    if next.Some? && f.hasEnqueuer && !f.originalUnreadable {
      var req := Resend(p, failed.ledger.jobs[p.key], next.value, newKey, newPublicId);
      EnqueueLeavesOthers(failed, req, env, cfg, p.key);
    }
  }

  // ---------------------------------------------------------------- what a failure moves

  /** A member counts as open when its state is there and both its keys can be read. */
  lemma OpenMembersIff(redis: Breaker.Redis, members: Pool, s: string)
    ensures s in OpenMembers(redis, members) <==>
      (exists i :: 0 <= i < |members| && members[i].sessionId == s) && s != "" &&
      Breaker.StateKey(s) in redis && redis[Breaker.StateKey(s)].json.Some? &&
      (Breaker.FailuresKey(s) in redis ==> redis[Breaker.FailuresKey(s)].number.Some?)
  {
  }

  /** The failures counted against a session, in a world where its counter can be read. */
  function Failures(c: Breaker.Circuits, s: string): int {
    var key := Breaker.FailuresKey(s);
    if key in c.redis && c.redis[key].number.Some? then c.redis[key].number.value else 0
  }

  predicate Countable(c: Breaker.Circuits, s: string) {
    Breaker.FailuresKey(s) in c.redis ==> c.redis[Breaker.FailuresKey(s)].number.Some?
  }

  lemma FailureCounts(c: Breaker.Circuits, threshold: nat, s: string, code: string, at: int, o: Breaker.Opening)
    requires s != "" && Countable(c, s) && o.script.Applies()
    ensures Failures(Breaker.AfterFailure(c, threshold, s, code, at, o).0, s) == Failures(c, s) + 1
  {
    Breaker.KeysApart(s, s);
  }

  /** A failover, its writes taking effect: one more failure is counted, the session it leaves is retired and no longer
      main, and the session it goes to is the lowest-ranked other member that is not retired and, with that
      failure counted, not open. */
  lemma FailoverMovesOn(w: World, threshold: nat, p: Dispatch.Payload, code: string, f: Faults, newKey: string,
                        newPublicId: string, env: Dispatch.Env, cfg: Dispatch.Config, x: string)
    requires Sound(w.pool) && f.hop == NO_FAULTS && p.sessionId != "" && Countable(w.circuits, p.sessionId)
    requires f.count.script.Applies()
    ensures var (after, next) := FailedOver(w, threshold, p, code, f, newKey, newPublicId, env, cfg);
      Failures(after.circuits, p.sessionId) == Failures(w.circuits, p.sessionId) + 1 &&
      |after.pool| == |w.pool| &&
      (forall i | 0 <= i < |w.pool| && w.pool[i].sessionId == p.sessionId ::
         after.pool[i].sessionId == p.sessionId && after.pool[i].disqualified && !after.pool[i].isMain) &&
      (next == Some(x) <==>
         exists i :: 0 <= i < |w.pool| && w.pool[i].sessionId == x && x != p.sessionId && !w.pool[i].disqualified &&
           x !in OpenMembers(after.circuits.redis, w.pool) &&
           forall j | 0 <= j < i ::
             w.pool[j].sessionId == p.sessionId || w.pool[j].disqualified ||
             w.pool[j].sessionId in OpenMembers(after.circuits.redis, w.pool))
  {
    FailureCounts(w.circuits, threshold, p.sessionId, code, env.now, f.count);
    var open := OpenMembers(
      Breaker.AfterFailure(w.circuits, threshold, p.sessionId, code, env.now, f.count).0.redis, w.pool);
    HopFindsIff(w.pool, p.sessionId, open, x);
    var q := Hop(w.pool, p.sessionId, open, open, f.hop).0;
    forall i | 0 <= i < |w.pool|
      ensures |q| == |w.pool| && q[i].sessionId == w.pool[i].sessionId
      ensures w.pool[i].sessionId == p.sessionId ==> q[i].disqualified && !q[i].isMain
    {
      RotationOfEachMember(w.pool, p.sessionId, open, i);
    }
  }

  /** A failure that is not failed over leaves the pool and the queue alone, and is counted exactly when it trips. */
  lemma FailureStaysHome(w: World, threshold: nat, p: Dispatch.Payload, code: string, permanent: bool,
                         tripsCircuit: bool, f: Faults, at: int)
    requires p.sessionId != "" && Countable(w.circuits, p.sessionId) && f.count.script.Applies()
    ensures var after := FailedAlone(w, threshold, p, code, permanent, tripsCircuit, f, at);
      after.pool == w.pool && after.sys.tasks == w.sys.tasks && after.sys.groups == w.sys.groups &&
      (f.mark.Refuses? ==> after.sys == w.sys) && (!tripsCircuit ==> after.circuits == w.circuits) &&
      Failures(after.circuits, p.sessionId) == Failures(w.circuits, p.sessionId) + if tripsCircuit then 1 else 0
  {
    FailureCounts(w.circuits, threshold, p.sessionId, code, at, f.count);
  }

  /** A delivery clears the count, and touches nothing else but the message's row. */
  lemma DeliveryClears(w: World, p: Dispatch.Payload, waMessageId: string, f: Faults, at: int)
    requires p.sessionId != "" && f.count.script.Applies()
    ensures var after := Delivered(w, p, waMessageId, f, at);
      after.pool == w.pool && after.sys.tasks == w.sys.tasks && after.sys.groups == w.sys.groups &&
      after.circuits.paused == w.circuits.paused && Breaker.FailuresKey(p.sessionId) !in after.circuits.redis &&
      (f.mark.Refuses? ==> after.sys == w.sys) &&
      forall key | key != p.key ::
        (key in after.sys.ledger.jobs <==> key in w.sys.ledger.jobs) &&
        (key in w.sys.ledger.jobs ==> after.sys.ledger.jobs[key] == w.sys.ledger.jobs[key])
  {
  }

  /** Before anything is sent the attempt is on record: one more, and seen as being sent. */
  lemma AttemptIsSeen(w: World, p: Dispatch.Payload, f: Faults, at: int)
    ensures var after := Begun(w, p, f, at);
      after.pool == w.pool && after.circuits == w.circuits && (f.begin.Refuses? ==> after == w) &&
      (f.begin.Applies() ==>
         Seen(after, p.key) == Some(JobHistory.PubSending) &&
         after.sys.ledger.jobs[p.key].attempts ==
           1 + if p.key in w.sys.ledger.jobs then w.sys.ledger.jobs[p.key].attempts else 0)
  {
  }

  /** What a resend carries: everything of the failed message but its session, key and id. */
  lemma ResendCarries(p: Dispatch.Payload, original: Jobs.Row, backup: string, newKey: string, newPublicId: string)
    ensures var req := Resend(p, original, backup, newKey, newPublicId);
      req.sessionId == backup && req.to == p.to && req.text == p.text && req.sourceRef == p.sourceRef &&
      req.sender == p.sender && req.priority == Name(p.priority) && req.callerKey == newKey &&
      req.publicId == newPublicId && req.failoverOf == p.key &&
      Some(req.apiKeyId) == (if original.apiKeyId.None? then Some("") else original.apiKeyId) &&
      Some(req.metadata) == if original.metadata.None? then Some(map[]) else original.metadata
  {
  }

  /** It is sent exactly when there is an enqueuer and the failed message's row can be read and is there. */
  lemma ResentExactly(sys: Dispatch.Sys, p: Dispatch.Payload, backup: string, f: Faults, newKey: string,
                      newPublicId: string, env: Dispatch.Env, cfg: Dispatch.Config)
    ensures var after := Resent(sys, p, backup, f, newKey, newPublicId, env, cfg);
      if f.hasEnqueuer && !f.originalUnreadable && p.key in sys.ledger.jobs then
        after == Dispatch.Enqueued(
          sys, Resend(p, sys.ledger.jobs[p.key], backup, newKey, newPublicId), env, cfg).0
      else after == sys
  {
  }

  // ---------------------------------------------------------------- what a failover keeps

  /** Whatever fails on the way, the hop never goes back to the failed session, and the message it sends is
      addressed to the same recipient on the same lane, with the same text, on the queue of the session it
      found. */
  lemma ResendKeepsTheAddress(p: Dispatch.Payload, original: Jobs.Row, members: Pool, open: set<string>, f: HopFaults,
                              newKey: string, newPublicId: string)
    requires Sound(members) && IsRecipient(p.to) && 0 < |p.text| <= Dispatch.MAX_TEXT_LEN && ValidCallerKey(newKey)
    ensures var next := Hop(members, p.sessionId, open, open, f).1;
      next.Some? ==>
        next.value != p.sessionId &&
        var req := Resend(p, original, next.value, newKey, newPublicId);
        (next.value != "" ==>
           Dispatch.Validate(req) == Ok(Dispatch.Send(req, p.to, p.priority)) &&
           Dispatch.Validate(req).value.Queue() == QueueFor(next.value, p.priority) && req.text == p.text)
  {
    HopLandsFree(members, p.sessionId, open, open, f);
    NormalisedRecipients(p.to);
    ParsedPriority(Name(p.priority), p.priority);
  }

  /** An accepted resend has a row that names the message it replaces exactly when it did not join an open
      task: then no row at all says so. */
  lemma ResendIsLinkedIff(sys: Dispatch.Sys, req: Dispatch.Request, env: Dispatch.Env, cfg: Dispatch.Config)
    requires req.failoverOf != "" && env.record.Answers?
    requires Dispatch.Validate(req).Ok? && Dispatch.Validate(req).value.Key() !in sys.ledger.jobs
    requires (Dispatch.Validate(req).value.Queue(), Dispatch.Validate(req).value.Key()) !in sys.tasks
    requires Dispatch.Enqueued(sys, req, env, cfg).1.Ok?
    ensures var s := Dispatch.Validate(req).value;
      var after := Dispatch.Enqueued(sys, req, env, cfg).0;
      (Names(after.ledger, s.Key(), req.failoverOf) <==> !Dispatch.Folds(sys, s, env, cfg)) &&
      (Dispatch.Folds(sys, s, env, cfg) ==>
         forall key :: Names(after.ledger, key, req.failoverOf) ==> Names(sys.ledger, key, req.failoverOf))
  {
    Dispatch.CoalescedIff(sys, req, env, cfg);
    var s := Dispatch.Validate(req).value;
    if Dispatch.Folds(sys, s, env, cfg) {
      FoldedLedger(sys, req, env, cfg);
    } else {
      SeparateLedger(sys, req, env, cfg);
    }
  }

  lemma FoldedLedger(sys: Dispatch.Sys, req: Dispatch.Request, env: Dispatch.Env, cfg: Dispatch.Config)
    requires env.record.Answers? && Dispatch.Validate(req).Ok?
    requires Dispatch.Folds(sys, Dispatch.Validate(req).value, env, cfg)
    ensures Dispatch.Enqueued(sys, req, env, cfg).0.ledger ==
            Jobs.AfterMarkCoalesced(sys.ledger, Dispatch.OpenTask(sys, Dispatch.Validate(req).value).1, req.sourceRef)
  {
    Dispatch.ValidatedIsValid(req);
  }

  lemma SeparateLedger(sys: Dispatch.Sys, req: Dispatch.Request, env: Dispatch.Env, cfg: Dispatch.Config)
    requires env.record.Answers? && Dispatch.Validate(req).Ok? && Dispatch.Enqueued(sys, req, env, cfg).1.Ok?
    requires (Dispatch.Validate(req).value.Queue(), Dispatch.Validate(req).value.Key()) !in sys.tasks
    requires !Dispatch.Folds(sys, Dispatch.Validate(req).value, env, cfg)
    ensures env.slot.Some? && Dispatch.Enqueued(sys, req, env, cfg).0.ledger ==
            Jobs.AfterMarkScheduled(sys.ledger, Dispatch.JobOf(Dispatch.Validate(req).value), env.slot.value)
  {
    Dispatch.CoalescedIff(sys, req, env, cfg);
  }

  /** A row says that its message stands in for that one. */
  predicate Names(l: Jobs.Ledger, key: string, failed: string) {
    key in l.jobs && l.jobs[key].failoverOf == Some(failed)
  }

  // ---------------------------------------------------------------- a resend that is not linked

  const WELL := Faults(Answers, Answers, Breaker.OPENED, false, NO_FAULTS, true, false)

  /** Two sessions serve a sender; the first is main. */
  const SENDERS := FirstMembers(["other", "session"])

  /** A send of the sender's, routed to its main session. */
  function Pooled(s: Dispatch.Send): Dispatch.Send {
    s.(req := s.req.(sessionId := "other", sender := "sender"))
  }

  function QueueOne(s: Dispatch.Send, now: int): seq<DispatchRuns.Step> {
    [DispatchRuns.Look(s.req, Repeats.AllWell(now)), DispatchRuns.Place(0, Repeats.AllWell(now))]
  }

  /** A send that meets neither its own task, nor an open group, nor its own row. */
  ghost predicate Unmet(m: DispatchRuns.State, s: Dispatch.Send) {
    Dispatch.Validate(s.req) == Ok(s) && s.priority == Default && m.inFlight == [] &&
    (s.Queue(), s.Key()) !in m.sys.tasks && s.Group() !in m.sys.groups && s.Key() !in m.sys.ledger.jobs
  }

  function WithTask(sys: Dispatch.Sys, s: Dispatch.Send, now: int): Dispatch.Sys {
    Dispatch.Sys(
      sys.tasks[(s.Queue(), s.Key()) := Dispatch.Task(Dispatch.PayloadOf(s), Dispatch.Waiting, now + 100)],
      sys.groups[s.Group() := Dispatch.Group(s.Key(), 1, now + 60)],
      Jobs.AfterMarkScheduled(sys.ledger, Dispatch.JobOf(s), now + 100))
  }

  lemma QueuedAlone(m: DispatchRuns.State, s: Dispatch.Send, now: int, rest: seq<DispatchRuns.Step>)
    requires Unmet(m, s)
    ensures exists entries ::
      DispatchRuns.Exec(m, QueueOne(s, now) + rest, Repeats.CFG) ==
      DispatchRuns.Exec(DispatchRuns.State(WithTask(m.sys, s, now), entries, []), rest, Repeats.CFG)
  {
    var look, place := QueueOne(s, now)[0], QueueOne(s, now)[1];
    assert QueueOne(s, now) + rest == [look] + ([place] + rest);
    Repeats.ExecOne(m, look, [place] + rest, Repeats.CFG);
    var looked := DispatchRuns.Apply(m, look, Repeats.CFG).0;
    LooksAlone(m, s, now);
    Repeats.ExecOne(looked, place, rest, Repeats.CFG);
    var placed := DispatchRuns.Apply(looked, place, Repeats.CFG).0;
    PlacesAlone(looked, s, now);
    assert placed == DispatchRuns.State(WithTask(m.sys, s, now), placed.entries, []);
  }

  lemma LooksAlone(m: DispatchRuns.State, s: Dispatch.Send, now: int)
    requires Unmet(m, s)
    ensures var n := DispatchRuns.Apply(m, DispatchRuns.Look(s.req, Repeats.AllWell(now)), Repeats.CFG).0;
      n.inFlight == [s] && n.sys == m.sys.(groups := m.sys.groups[s.Group() := Dispatch.Group(s.Key(), 1, now + 60)])
  {
  }

  lemma PlacesAlone(m: DispatchRuns.State, s: Dispatch.Send, now: int)
    requires m.inFlight == [s] && (s.Queue(), s.Key()) !in m.sys.tasks
    ensures var n := DispatchRuns.Apply(m, DispatchRuns.Place(0, Repeats.AllWell(now)), Repeats.CFG).0;
      n.inFlight == [] && n.sys.groups == m.sys.groups &&
      n.sys.tasks == m.sys.tasks[(s.Queue(), s.Key()) :=
        Dispatch.Task(Dispatch.PayloadOf(s), Dispatch.Waiting, now + 100)] &&
      n.sys.ledger == Jobs.AfterMarkScheduled(m.sys.ledger, Dispatch.JobOf(s), now + 100)
  {
  }

  /** The two sends differ in session, and so in queue and group, and in key. */
  lemma PooledIsValid(a: Dispatch.Send, b: Dispatch.Send)
    requires Repeats.Pair(a, b)
    ensures var c := Pooled(b);
      Dispatch.Validate(a.req) == Ok(a) && Dispatch.Validate(c.req) == Ok(c) &&
      a.Key() != c.Key() && a.Queue() != c.Queue() && a.Group() != c.Group()
  {
    Repeats.PairIsValid(a, b);
    NormalisedRecipients(b.to);
    if a.Queue() == Pooled(b).Queue() {
      QueueForInjective("session", Default, "other", Default);
    }
    if a.Group() == Pooled(b).Group() {
      DispatchRuns.RecipientsAreColonFree(a.to);
      CoalesceKeyInjective("session", Default, a.to, "other", Default, a.to);
    }
  }

  /** Both sends are queued, the pooled one at 0 and the other at 95, and a worker takes the pooled one. */
  function BothQueued(a: Dispatch.Send, b: Dispatch.Send): seq<DispatchRuns.Step> {
    var c := Pooled(b);
    QueueOne(c, 0) + (QueueOne(a, 95) + [DispatchRuns.Advance((c.Queue(), c.Key()), Dispatch.Active, 100)])
  }

  function BothQueuedSys(a: Dispatch.Send, b: Dispatch.Send): Dispatch.Sys {
    var c := Pooled(b);
    var sys := WithTask(WithTask(DispatchRuns.INIT.sys, c, 0), a, 95);
    var id := (c.Queue(), c.Key());
    if id in sys.tasks then sys.(tasks := sys.tasks[id := sys.tasks[id].(state := Dispatch.Active)]) else sys
  }

  lemma OtherUnmet(a: Dispatch.Send, b: Dispatch.Send, entries: seq<DispatchRuns.Entry>)
    requires Repeats.Pair(a, b)
    ensures Unmet(DispatchRuns.State(WithTask(DispatchRuns.INIT.sys, Pooled(b), 0), entries, []), a)
  {
    PooledIsValid(a, b);
  }

  lemma OtherQueued(a: Dispatch.Send, b: Dispatch.Send, entries: seq<DispatchRuns.Entry>)
    requires Repeats.Pair(a, b)
    ensures var c := Pooled(b);
      var m := DispatchRuns.State(WithTask(DispatchRuns.INIT.sys, c, 0), entries, []);
      var advance := DispatchRuns.Advance((c.Queue(), c.Key()), Dispatch.Active, 100);
      DispatchRuns.Exec(m, QueueOne(a, 95) + [advance], Repeats.CFG).sys == BothQueuedSys(a, b)
  {
    var c := Pooled(b);
    var m := DispatchRuns.State(WithTask(DispatchRuns.INIT.sys, c, 0), entries, []);
    var advance := DispatchRuns.Advance((c.Queue(), c.Key()), Dispatch.Active, 100);
    OtherUnmet(a, b, entries);
    QueuedAlone(m, a, 95, [advance]);
    var second :| DispatchRuns.Exec(m, QueueOne(a, 95) + [advance], Repeats.CFG) ==
      DispatchRuns.Exec(DispatchRuns.State(WithTask(m.sys, a, 95), second, []), [advance], Repeats.CFG);
    assert [advance] + [] == [advance];
    Repeats.ExecOne(DispatchRuns.State(WithTask(m.sys, a, 95), second, []), advance, [], Repeats.CFG);
  }

  lemma BothQueuedRun(a: Dispatch.Send, b: Dispatch.Send)
    requires Repeats.Pair(a, b)
    ensures DispatchRuns.Exec(DispatchRuns.INIT, BothQueued(a, b), Repeats.CFG).sys == BothQueuedSys(a, b)
  {
    var c := Pooled(b);
    PooledIsValid(a, b);
    var rest := QueueOne(a, 95) + [DispatchRuns.Advance((c.Queue(), c.Key()), Dispatch.Active, 100)];
    QueuedAlone(DispatchRuns.INIT, c, 0, rest);
    var first :| DispatchRuns.Exec(DispatchRuns.INIT, BothQueued(a, b), Repeats.CFG) ==
      DispatchRuns.Exec(DispatchRuns.State(WithTask(DispatchRuns.INIT.sys, c, 0), first, []), rest, Repeats.CFG);
    OtherQueued(a, b, first);
  }

  /** The failed session's circuit does not matter to the other one: the hop finds it. */
  lemma HopFindsTheBackup(threshold: nat, code: string, at: int)
    ensures var c := Breaker.AfterFailure(Breaker.Circuits(map[], {}), threshold, "other", code, at, Breaker.OPENED).0;
      var open := OpenMembers(c.redis, SENDERS);
      Hop(SENDERS, "other", open, open, NO_FAULTS).1 == Some("session")
  {
    var c := Breaker.AfterFailure(Breaker.Circuits(map[], {}), threshold, "other", code, at, Breaker.OPENED).0;
    var open := OpenMembers(c.redis, SENDERS);
    assert SENDERS[0] == PoolMember("other", true, false, 0) && SENDERS[1] == PoolMember("session", false, false, 1);
    Breaker.KeysApart("session", "other");
    assert !Breaker.Collides("session", "other") by {
      assert "session"[0] == 's' && ("other" + ":failures")[0] == 'o';
    }
    assert "session" !in open;
    assert PickHealthy(SENDERS, "other", open, true) == PickHealthy(SENDERS[1..], "other", open, true);
    assert PickHealthy(SENDERS[1..], "other", open, true) == Some("session");
  }

  /** What the failed message's row and the queue look like to the worker that sends it again. */
  ghost predicate Waits(sys: Dispatch.Sys, a: Dispatch.Send, p: Dispatch.Payload) {
    (a.Queue(), a.Key()) in sys.tasks && a.Group() in sys.groups && p.key in sys.ledger.jobs &&
    sys.tasks[(a.Queue(), a.Key())] == Dispatch.Task(Dispatch.PayloadOf(a), Dispatch.Waiting, 195) &&
    sys.groups[a.Group()] == Dispatch.Group(a.Key(), 1, 155) &&
    (forall id | id in sys.tasks :: id.1 == a.Key() || id.0 != a.Queue()) &&
    sys.ledger.jobs[p.key].apiKeyId == Some(a.req.apiKeyId) &&
    forall key :: !Names(sys.ledger, key, p.key)
  }

  lemma ResendFolds(sys: Dispatch.Sys, a: Dispatch.Send, p: Dispatch.Payload, newKey: string)
    requires Waits(sys, a, p) && a == Repeats.SampleSend(a.to, a.req.callerKey, a.req.text) && a.Valid()
    requires p.to == a.to && p.priority == Default && 0 < |p.text| <= 1000 && |a.req.text| <= 1000 && p.key != ""
    requires ValidCallerKey(newKey) && newKey != a.req.callerKey
    ensures var after := Resent(sys, p, "session", WELL, newKey, "new", Repeats.AllWell(100), Repeats.CFG);
      (a.Queue(), a.Key()) in after.tasks &&
      after.tasks[(a.Queue(), a.Key())].payload.text == a.req.text + Dispatch.COALESCE_SEPARATOR + p.text &&
      forall key :: !Names(after.ledger, key, p.key)
  {
    var req := Resend(p, sys.ledger.jobs[p.key], "session", newKey, "new");
    NormalisedRecipients(p.to);
    ParsedPriority(Name(Default), Default);
    var s := Dispatch.Send(req, p.to, Default);
    assert Dispatch.Validate(req) == Ok(s);
    if s.Key() == a.Key() {
      IdempotencyKeyInjective(a.req.apiKeyId, newKey, p.to, a.req.apiKeyId, a.req.callerKey, a.to);
    }
    assert Dispatch.Folds(sys, s, Repeats.AllWell(100), Repeats.CFG);
    Dispatch.CoalescedIff(sys, req, Repeats.AllWell(100), Repeats.CFG);
    FoldedLedger(sys, req, Repeats.AllWell(100), Repeats.CFG);
    var after := Resent(sys, p, "session", WELL, newKey, "new", Repeats.AllWell(100), Repeats.CFG);
    forall key ensures !Names(after.ledger, key, p.key) {
      assert !Names(sys.ledger, key, p.key);
      CoalescingNamesNothing(sys.ledger, Dispatch.OpenTask(sys, s).1, p.sourceRef, key, p.key);
    }
  }

  lemma CoalescingNamesNothing(l: Jobs.Ledger, openKey: string, sourceRef: string, key: string, failed: string)
    ensures Names(Jobs.AfterMarkCoalesced(l, openKey, sourceRef), key, failed) <==> Names(l, key, failed)
  {
  }

  lemma WaitsAfterFailure(a: Dispatch.Send, b: Dispatch.Send, code: string)
    requires Repeats.Pair(a, b)
    ensures var p := Dispatch.PayloadOf(Pooled(b));
      var sys := BothQueuedSys(a, b);
      var begun := Jobs.AfterBeginAttempt(sys.ledger, JobOf(p, ""), 100);
      Waits(sys.(ledger := Marked(begun, p, code, true, WELL, 100)), a, p)
  {
    PooledIsValid(a, b);
  }

  /** A failover whose resend nobody can find. A message routed to the main session of a pool is queued and
      taken by a worker; its send fails and trips the circuit; the hop lands on the backup, which has a task
      open for the same recipient; the resend is folded into it, and no row names the failed message. */
  lemma UnlinkedResendRun(a: Dispatch.Send, b: Dispatch.Send, newKey: string, code: string, threshold: nat)
    requires Repeats.Pair(a, b) && ValidCallerKey(newKey) && newKey != a.req.callerKey
    ensures var sys := DispatchRuns.Exec(DispatchRuns.INIT, BothQueued(a, b), Repeats.CFG).sys;
      var p := Dispatch.PayloadOf(Pooled(b)); var id := (Pooled(b).Queue(), p.key);
      var w := World(Breaker.Circuits(map[], {}), SENDERS, sys);
      var (after, next) := FailedOver(Begun(w, p, WELL, 100), threshold, p, code, WELL, newKey, "new",
                                      Repeats.AllWell(100), Repeats.CFG);
      id in sys.tasks && sys.tasks[id] == Dispatch.Task(p, Dispatch.Active, 100) && Handles(p, true, SENDERS, WELL) &&
      next == Some("session") && (a.Queue(), a.Key()) in after.sys.tasks &&
      after.sys.tasks[(a.Queue(), a.Key())].payload.text == a.req.text + Dispatch.COALESCE_SEPARATOR + p.text &&
      forall key :: !Names(after.sys.ledger, key, p.key)
  {
    var p := Dispatch.PayloadOf(Pooled(b));
    PooledIsValid(a, b);
    BothQueuedRun(a, b);
    HopFindsTheBackup(threshold, code, 100);
    WaitsAfterFailure(a, b, code);
    var sys := BothQueuedSys(a, b);
    var begun := Jobs.AfterBeginAttempt(sys.ledger, JobOf(p, ""), 100);
    var marked := sys.(ledger := Marked(begun, p, code, true, WELL, 100));
    assert p.key != "" by {
      assert |p.key| > 0;
    }
    ResendFolds(marked, a, p, newKey);
  }
}
