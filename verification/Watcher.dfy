/** The health watcher (wa-shared/circuit/watcher.go) beside everything else that moves a circuit. */
module Watcher {
  import opened Options
  import opened Breaker

  /** Validate demands a threshold of at least 1 and a streak of at least 2. */
  datatype Config = Config(threshold: nat, healthyPolls: nat)

  predicate Valid(cfg: Config) {
    cfg.threshold > 0 && cfg.healthyPolls >= 2
  }

  datatype View = View(id: string, connected: bool, socketConnected: bool)

  /** The breaker's keys and the watcher's streaks. */
  datatype World = World(circuits: Circuits, streak: map<string, nat>)

  /** readable: Redis answers the state read; the other arguments are how its other calls end. */
  datatype Step =
    | Fail(sessionId: string, errorCode: string, at: int, opening: Opening)
    | Succeed(sessionId: string, call: Call)
    | OpenBy(sessionId: string, reason: string, errorCode: string, at: int, opening: Opening)
    | CloseBy(sessionId: string, closing: Closing)
    | Expire(sessionId: string)            // the failure counter's time to live runs out
    | PollFailed
    | Evaluate(sessionId: string, healthy: bool, readable: bool, closing: Closing)

  function Streak(w: World, sessionId: string): nat {
    if sessionId in w.streak then w.streak[sessionId] else 0
  }

  /** The circuit is open and not paused by hand. */
  predicate Tripped(c: Circuits, sessionId: string) {
    var state := StateOf(c.redis, sessionId);
    state.Ok? && state.value.open && state.value.reason != REASON_MANUAL
  }

  function AfterEvaluate(w: World, cfg: Config, sessionId: string, healthy: bool, readable: bool, d: Closing): World {
    if !readable || StateOf(w.circuits.redis, sessionId).Err? then w
    else if !Tripped(w.circuits, sessionId) || !healthy then w.(streak := w.streak - {sessionId})
    else if Streak(w, sessionId) + 1 < cfg.healthyPolls then
      w.(streak := w.streak[sessionId := Streak(w, sessionId) + 1])
    else
      World(AfterClose(w.circuits, sessionId, d).0, w.streak - {sessionId})
  }

  function Apply(w: World, cfg: Config, step: Step): World {
    match step
    case Fail(id, code, at, o) => w.(circuits := AfterFailure(w.circuits, cfg.threshold, id, code, at, o).0)
    case Succeed(id, call) => w.(circuits := AfterSuccess(w.circuits, id, call))
    case OpenBy(id, reason, code, at, o) => w.(circuits := AfterOpen(w.circuits, id, reason, code, at, o).0)
    case CloseBy(id, d) => w.(circuits := AfterClose(w.circuits, id, d).0)
    case Expire(id) => w.(circuits := w.circuits.(redis := w.circuits.redis - {FailuresKey(id)}))
    case PollFailed => w.(streak := map[])
    case Evaluate(id, healthy, readable, d) => AfterEvaluate(w, cfg, id, healthy, readable, d)
  }

  function Exec(w: World, cfg: Config, steps: seq<Step>): World {
    if steps == [] then w
    else Apply(Exec(w, cfg, steps[..|steps| - 1]), cfg, steps[|steps| - 1])
  }

  /** The last view of a session counts; a session with no view is not healthy. */
  predicate Healthy(views: seq<View>, sessionId: string) {
    if views == [] then false
    else
      var last := views[|views| - 1];
      if last.id == sessionId then last.connected && last.socketConnected
      else Healthy(views[..|views| - 1], sessionId)
  }

  /** What one poll does, as steps. */
  function PollSteps(ids: seq<string>, views: Option<seq<View>>, unreadable: set<string>,
                     closings: string -> Closing): seq<Step>
  {
    if views.None? then [PollFailed]
    else
      seq(|ids|, i requires 0 <= i < |ids| =>
        Evaluate(ids[i], Healthy(views.value, ids[i]), ids[i] !in unreadable, closings(ids[i])))
  }

  class HealthWatcher {
    const breaker: CircuitBreaker
    const ids: seq<string>
    const healthyPolls: nat
    var streak: map<string, nat>
    var probing: bool

    constructor (breaker: CircuitBreaker, ids: seq<string>, healthyPolls: nat)
      requires healthyPolls >= 2 && ids != []
      ensures this.breaker == breaker && this.ids == ids && this.healthyPolls == healthyPolls
      ensures streak == map[] && probing
    {
      this.breaker, this.ids, this.healthyPolls := breaker, ids, healthyPolls;
      streak, probing := map[], true;
    }

    function Now(): World
      reads this, breaker
    {
      World(breaker.Now(), streak)
    }

    function Cfg(): Config {
      Config(breaker.threshold, healthyPolls)
    }

    method EvaluateOne(sessionId: string, healthy: bool, readable: bool, d: Closing)
      modifies this`streak, breaker
      ensures Now() == AfterEvaluate(old(Now()), Cfg(), sessionId, healthy, readable, d)
    {
      var state := StateOf(breaker.redis, sessionId);
      if !readable || state.Err? {
        return;
      }
      if !state.value.open || state.value.reason == REASON_MANUAL {
        streak := streak - {sessionId};
        return;
      }
      if !healthy {
        streak := streak - {sessionId};
        return;
      }
      streak := streak[sessionId := (if sessionId in streak then streak[sessionId] else 0) + 1];
      if streak[sessionId] < healthyPolls {
        return;
      }
      streak := streak - {sessionId};
      assert streak == old(streak) - {sessionId};
      var closed := breaker.Close(sessionId, d);
    }

    method HealthyNow(views: seq<View>) returns (healthy: map<string, bool>)
      ensures forall id :: (id in healthy && healthy[id]) == Healthy(views, id)
    {
      healthy := map[];
      for i := 0 to |views|
        invariant forall id :: (id in healthy && healthy[id]) == Healthy(views[..i], id)
      {
        assert views[..i + 1][..i] == views[..i];
        healthy := healthy[views[i].id := views[i].connected && views[i].socketConnected];
      }
      assert views[..|views|] == views;
    }

    method Poll(views: Option<seq<View>>, unreadable: set<string>, closings: string -> Closing)
      modifies this, breaker
      ensures Now() == Exec(old(Now()), Cfg(), PollSteps(ids, views, unreadable, closings))
      ensures probing == views.Some?
    {
      if views.None? {
        probing := false;
        streak := map[];
        return;
      }
      probing := true;
      var healthy := HealthyNow(views.value);
      ghost var steps := PollSteps(ids, views, unreadable, closings);
      for i := 0 to |ids|
        invariant probing && Now() == Exec(old(Now()), Cfg(), steps[..i])
      {
        EvaluateOne(ids[i], ids[i] in healthy && healthy[ids[i]], ids[i] !in unreadable, closings(ids[i]));
        assert steps[..i + 1][..i] == steps[..i];
      }
      assert steps[..|ids|] == steps;
    }
  }
}
