/** What holds of circuits and the watcher over every run: workers reporting failures and successes,
    people pausing and resuming, counters expiring, and polls evaluating session after session. */
module CircuitRuns {
  import opened Options
  import opened Breaker
  import opened Watcher

  /** The step is not on a session whose keys overlap with those of s. */
  predicate Clear(step: Step, s: string) {
    step.PollFailed? || !Collides(s, step.sessionId)
  }

  predicate AllClear(steps: seq<Step>, s: string) {
    forall i | 0 <= i < |steps| :: Clear(steps[i], s)
  }

  const START := World(Circuits(map[], {}), map[])

  // ---------------------------------------------------------------- one session at a time

  predicate IsOpen(c: Circuits, s: string) {
    StateKey(s) in c.redis
  }

  function Count(c: Circuits, s: string): int {
    var key := FailuresKey(s);
    if key in c.redis && c.redis[key].number.Some? then c.redis[key].number.value else 0
  }

  /** Everything the world holds about one session. */
  datatype Seen = Seen(state: Option<Stored>, count: Option<Stored>, paused: set<string>, streak: nat)

  function Look(w: World, s: string): Seen {
    Seen(Lookup(w.circuits.redis, StateKey(s)), Lookup(w.circuits.redis, FailuresKey(s)),
         w.circuits.paused * Lanes(s), Streak(w, s))
  }

  predicate Concerns(step: Step, s: string) {
    step.PollFailed? || step.sessionId == s
  }

  lemma LanesStayPut(paused: set<string>, reached: set<string>, s: string, t: string)
    requires s != t && reached <= Lanes(t)
    ensures (paused + reached) * Lanes(s) == paused * Lanes(s) == (paused - reached) * Lanes(s)
  {
    KeysApart(s, t);
  }

  lemma RedisStaysPut(w: World, cfg: Config, step: Step, s: string)
    requires Clear(step, s) && !Concerns(step, s)
    ensures var v := Apply(w, cfg, step);
      Lookup(v.circuits.redis, StateKey(s)) == Lookup(w.circuits.redis, StateKey(s)) &&
      Lookup(v.circuits.redis, FailuresKey(s)) == Lookup(w.circuits.redis, FailuresKey(s)) &&
      Streak(v, s) == Streak(w, s)
  {
    KeysApart(s, step.sessionId);
  }

  lemma PausesStayPut(w: World, cfg: Config, step: Step, s: string)
    requires !Concerns(step, s)
    ensures Apply(w, cfg, step).circuits.paused * Lanes(s) == w.circuits.paused * Lanes(s)
  {
    match step
    case Fail(t, _, _, o) => LanesStayPut(w.circuits.paused, Reached(t, o.lanes), s, t);
    case OpenBy(t, _, _, _, o) => LanesStayPut(w.circuits.paused, Reached(t, o.lanes), s, t);
    case CloseBy(t, d) => LanesStayPut(w.circuits.paused, Reached(t, d.lanes), s, t);
    case Evaluate(t, _, _, d) => LanesStayPut(w.circuits.paused, Reached(t, d.lanes), s, t);
    case _ =>
  }

  /** A step on one session leaves every other session as it was, unless their keys overlap. */
  lemma OthersUntouched(w: World, cfg: Config, step: Step, s: string)
    requires Clear(step, s) && !Concerns(step, s)
    ensures Look(Apply(w, cfg, step), s) == Look(w, s)
  {
    RedisStaysPut(w, cfg, step, s);
    PausesStayPut(w, cfg, step, s);
  }

  /** When they do overlap, a pause of the one breaks the other: its state can no longer be read, and no
      failure of it is ever counted. */
  lemma OverlappingPauseBreaks(w: World, cfg: Config, s: string, code: string, at: int, o: Opening, failure: string,
                               later: int)
    requires s != "" && o.script.Answers?
    requires FailuresKey(s) in w.circuits.redis ==> w.circuits.redis[FailuresKey(s)].luaReason != Some(REASON_MANUAL)
    ensures var v := Apply(w, cfg, OpenBy(s + ":failures", REASON_MANUAL, code, at, o));
      StateOf(v.circuits.redis, s).Err? &&
      AfterFailure(v.circuits, cfg.threshold, s, failure, later, OPENED) == (v.circuits, Err(BadCount)) &&
      forall lost: Opening | !lost.script.Answers? ::
        AfterFailure(v.circuits, cfg.threshold, s, failure, later, lost) == (v.circuits, Err(RedisFailed))
  {
    CollisionIff(s + ":failures", s);
  }

  // ---------------------------------------------------------------- the invariant

  /** What the keys hold can be read back, and no streak has reached the number that closes a circuit. */
  ghost predicate ReadableAt(w: World, cfg: Config, s: string) {
    var seen := Look(w, s);
    && (seen.state.Some? ==> seen.state.value.json.Some? && seen.state.value == Encoded(seen.state.value.json.value))
    && (seen.count.Some? ==> seen.count.value.number.Some? && seen.count.value.number.value > 0)
    && seen.streak < cfg.healthyPolls
  }

  /** All three lanes are paused exactly while the circuit is open, and a closed one has fewer failures
      counted than it takes to trip it. */
  ghost predicate SettledAt(w: World, cfg: Config, s: string) {
    var seen := Look(w, s);
    if seen.state.Some? then seen.paused == Lanes(s) else seen.paused == {} && Count(w.circuits, s) < cfg.threshold
  }

  lemma StepKeepsReadable(w: World, cfg: Config, step: Step, s: string)
    requires Valid(cfg) && Clear(step, s) && ReadableAt(w, cfg, s)
    ensures ReadableAt(Apply(w, cfg, step), cfg, s)
  {
    if !Concerns(step, s) {
      OthersUntouched(w, cfg, step, s);
    } else {
      KeysApart(s, s);
    }
  }

  /** An opening that does not pause all three lanes: its script ran and the reply was lost, or a pause was
      refused, which nobody is told. */
  predicate FallsShort(o: Opening) {
    o.script.LosesReply? || (o.script.Answers? && !ReachesAll(o.lanes))
  }

  /** A close that leaves an open circuit's lanes paused, or its full counter in place. */
  predicate LeavesBehind(w: World, cfg: Config, s: string, d: Closing) {
    IsOpen(w.circuits, s) &&
    (d.state.LosesReply? ||
     (d.state.Answers? &&
      (!ReachesAll(d.lanes) || (d.counter.Refuses? && Count(w.circuits, s) >= cfg.threshold))))
  }

  /** Known before the step: it is the failure that trips a closed circuit, or an opening of one, and falls
      short; or a close, by hand or on a full streak, that leaves something behind. */
  predicate Unsettles(w: World, cfg: Config, step: Step, s: string) {
    !step.PollFailed? && step.sessionId == s && s != "" &&
    match step
    case Fail(_, _, _, o) => !IsOpen(w.circuits, s) && Count(w.circuits, s) + 1 >= cfg.threshold && FallsShort(o)
    case OpenBy(_, _, _, _, o) => !IsOpen(w.circuits, s) && FallsShort(o)
    case CloseBy(_, d) => LeavesBehind(w, cfg, s, d)
    case Evaluate(_, healthy, readable, d) =>
      readable && Tripped(w.circuits, s) && healthy && Streak(w, s) + 1 >= cfg.healthyPolls &&
      LeavesBehind(w, cfg, s, d)
    case _ => false
  }

  lemma PausedAt(w: World, s: string, l: LaneCalls)
    ensures Reached(s, l) * Lanes(s) == Reached(s, l) && (ReachesAll(l) <==> Reached(s, l) == Lanes(s))
    ensures (w.circuits.paused + Reached(s, l)) * Lanes(s) == w.circuits.paused * Lanes(s) + Reached(s, l)
    ensures (w.circuits.paused - Reached(s, l)) * Lanes(s) == w.circuits.paused * Lanes(s) - Reached(s, l)
    ensures Lanes(s) != {} && (Lanes(s) - Reached(s, l) == {} <==> ReachesAll(l))
  {
    ReachesAllIff(s, l);
    assert Lanes(s) == (Lanes(s) - Reached(s, l)) + Reached(s, l);
  }

  lemma FailSettlesIff(w: World, cfg: Config, s: string, code: string, at: int, o: Opening)
    requires Valid(cfg) && ReadableAt(w, cfg, s) && SettledAt(w, cfg, s)
    ensures var step := Fail(s, code, at, o); SettledAt(Apply(w, cfg, step), cfg, s) <==> !Unsettles(w, cfg, step, s)
  {
    KeysApart(s, s);
    PausedAt(w, s, o.lanes);
    var step := Fail(s, code, at, o);
    assert Look(w, s).count.Some? <==> FailuresKey(s) in w.circuits.redis;
    assert Look(w, s).state.Some? <==> IsOpen(w.circuits, s);
  }

  lemma OpenSettlesIff(w: World, cfg: Config, s: string, reason: string, code: string, at: int, o: Opening)
    requires Valid(cfg) && SettledAt(w, cfg, s)
    ensures var step := OpenBy(s, reason, code, at, o);
      SettledAt(Apply(w, cfg, step), cfg, s) <==> !Unsettles(w, cfg, step, s)
  {
    KeysApart(s, s);
    PausedAt(w, s, o.lanes);
    assert Look(w, s).state.Some? <==> IsOpen(w.circuits, s);
  }

  lemma CloseSettlesIff(w: World, cfg: Config, s: string, d: Closing)
    requires Valid(cfg) && s != "" && SettledAt(w, cfg, s)
    ensures SettledAt(w.(circuits := AfterClose(w.circuits, s, d).0), cfg, s) <==> !LeavesBehind(w, cfg, s, d)
  {
    KeysApart(s, s);
    PausedAt(w, s, d.lanes);
    assert Look(w, s).state.Some? <==> IsOpen(w.circuits, s);
  }

  lemma EvaluateSettlesIff(w: World, cfg: Config, s: string, healthy: bool, readable: bool, d: Closing)
    requires Valid(cfg) && SettledAt(w, cfg, s)
    ensures var step := Evaluate(s, healthy, readable, d);
      SettledAt(Apply(w, cfg, step), cfg, s) <==> !Unsettles(w, cfg, step, s)
  {
    var v := Apply(w, cfg, Evaluate(s, healthy, readable, d));
    if readable && Tripped(w.circuits, s) && healthy && Streak(w, s) + 1 >= cfg.healthyPolls {
      CloseSettlesIff(w, cfg, s, d);
      assert Look(v, s) == Look(w.(circuits := AfterClose(w.circuits, s, d).0), s).(streak := Streak(v, s));
    }
  }

  /** A step on a settled session leaves it settled exactly when it is none of those. */
  lemma StepSettlesIff(w: World, cfg: Config, step: Step, s: string)
    requires Valid(cfg) && Clear(step, s) && ReadableAt(w, cfg, s) && SettledAt(w, cfg, s)
    ensures SettledAt(Apply(w, cfg, step), cfg, s) <==> !Unsettles(w, cfg, step, s)
  {
    if !Concerns(step, s) {
      OthersUntouched(w, cfg, step, s);
      CountSeen(Apply(w, cfg, step), w, s);
    } else {
      KeysApart(s, s);
      match step
      case Fail(_, code, at, o) => FailSettlesIff(w, cfg, s, code, at, o);
      case OpenBy(_, reason, code, at, o) => OpenSettlesIff(w, cfg, s, reason, code, at, o);
      case CloseBy(_, d) =>
        if s != "" {
          CloseSettlesIff(w, cfg, s, d);
        }
      case Evaluate(_, healthy, readable, d) => EvaluateSettlesIff(w, cfg, s, healthy, readable, d);
      case _ =>
    }
  }

  ghost predicate AlwaysSettled(cfg: Config, steps: seq<Step>, s: string) {
    SettledAt(Exec(START, cfg, steps), cfg, s) && (steps != [] ==> AlwaysSettled(cfg, steps[..|steps| - 1], s))
  }

  predicate NeverUnsettled(cfg: Config, steps: seq<Step>, s: string) {
    steps != [] ==>
      var front := steps[..|steps| - 1];
      NeverUnsettled(cfg, front, s) && !Unsettles(Exec(START, cfg, front), cfg, steps[|steps| - 1], s)
  }

  /** In every reachable world what the keys hold can be read back and no streak is full. And the lanes of a
      session have been paused exactly while its circuit was open, and a closed circuit has counted fewer
      failures than it takes to trip it, throughout the run, exactly when no step of it unsettles the
      session. */
  lemma {:induction false} ReachableCircuitsAreSound(cfg: Config, steps: seq<Step>, s: string)
    requires Valid(cfg) && AllClear(steps, s)
    ensures ReadableAt(Exec(START, cfg, steps), cfg, s)
    ensures AlwaysSettled(cfg, steps, s) <==> NeverUnsettled(cfg, steps, s)
  {
    if steps != [] {
      var front, last := steps[..|steps| - 1], steps[|steps| - 1];
      ReachableCircuitsAreSound(cfg, front, s);
      StepKeepsReadable(Exec(START, cfg, front), cfg, last, s);
      if AlwaysSettled(cfg, front, s) {
        StepSettlesIff(Exec(START, cfg, front), cfg, last, s);
      }
    }
  }

  /** Paused although the circuit is closed. */
  predicate Stranded(w: World, s: string, lane: string) {
    !IsOpen(w.circuits, s) && lane in w.circuits.paused
  }

  predicate AllPolls(polls: seq<Step>, s: string) {
    forall i | 0 <= i < |polls| :: polls[i].PollFailed? || (polls[i].Evaluate? && Clear(polls[i], s))
  }

  /** A stranded lane stays so through any number of polls. */
  lemma {:induction false} StrandedLaneStays(w: World, cfg: Config, s: string, lane: string, polls: seq<Step>)
    requires Valid(cfg) && lane in Lanes(s) && Stranded(w, s, lane) && AllPolls(polls, s)
    ensures Stranded(Exec(w, cfg, polls), s, lane)
  {
    if polls != [] {
      var front, last := polls[..|polls| - 1], polls[|polls| - 1];
      StrandedLaneStays(w, cfg, s, lane, front);
      var here := Exec(w, cfg, front);
      var there := Apply(here, cfg, last);
      if !Concerns(last, s) {
        OthersUntouched(here, cfg, last, s);
        CountSeen(here, there, s);
        assert lane in Look(here, s).paused;
      }
    }
  }

  /** A close that does not reach the lane: its first reply is lost, or that unpause is refused. */
  predicate Misses(d: Closing, s: string, lane: string) {
    d.state.LosesReply? || (d.state.Answers? && lane !in Reached(s, d.lanes))
  }

  lemma CloseLeavesLane(w: World, cfg: Config, s: string, d: Closing, lane: string)
    requires s != "" && lane in w.circuits.paused && Misses(d, s, lane)
    ensures Stranded(Apply(w, cfg, CloseBy(s, d)), s, lane)
  {
  }

  /** Why it matters: a close that misses a paused lane leaves it paused under a closed circuit, and then no
      poll unpauses it. */
  lemma CloseStrandsLane(w: World, cfg: Config, s: string, d: Closing, lane: string, polls: seq<Step>)
    requires Valid(cfg) && s != "" && lane in Lanes(s) && lane in w.circuits.paused && Misses(d, s, lane)
    requires AllPolls(polls, s)
    ensures Stranded(Exec(Apply(w, cfg, CloseBy(s, d)), cfg, polls), s, lane)
  {
    var closed := Apply(w, cfg, CloseBy(s, d));
    assert Stranded(closed, s, lane) by {
      CloseLeavesLane(w, cfg, s, d, lane);
    }
    StrandedLaneStays(closed, cfg, s, lane, polls);
  }

  /** A pause by hand that is answered although no lane heard of it: the circuit is open and everything is
      still sent. */
  lemma UnheardPauseRun(cfg: Config, s: string, code: string, at: int)
    requires s != ""
    ensures var deaf := Opening(Answers, LaneCalls(Refuses, Refuses, Refuses));
      var (c, result) := AfterOpen(START.circuits, s, REASON_MANUAL, code, at, deaf);
      result == Ok(true) && IsOpen(c, s) && c.paused == {}
  {
  }

  // ---------------------------------------------------------------- tripping

  predicate Closes(w: World, cfg: Config, step: Step, s: string) {
    IsOpen(w.circuits, s) && !IsOpen(Apply(w, cfg, step).circuits, s)
  }

  /** The failures counted so far are forgotten. */
  predicate Forgets(w: World, cfg: Config, step: Step, s: string) {
    match step
    case Succeed(_, call) => call.Applies()
    case Expire(_) => true
    case CloseBy(_, d) => d.state.Answers? && d.counter.Applies()
    case Evaluate(_, _, _, d) => Closes(w, cfg, step, s) && d.state.Answers? && d.counter.Applies()
    case _ => false
  }

  /** How many failures the session has had in a row: since its last success, since the counter
      expired, since a person resumed it and since the watcher closed its circuit. */
  function FailureRun(cfg: Config, steps: seq<Step>, s: string): nat {
    if steps == [] then 0
    else
      var front, last := steps[..|steps| - 1], steps[|steps| - 1];
      if last.PollFailed? || last.sessionId != s then FailureRun(cfg, front, s)
      else if last.Fail? && last.opening.script.Applies() then FailureRun(cfg, front, s) + 1
      else if Forgets(Exec(START, cfg, front), cfg, last, s) then 0
      else FailureRun(cfg, front, s)
  }

  lemma CountSeen(w: World, v: World, s: string)
    requires Look(w, s) == Look(v, s)
    ensures Count(w.circuits, s) == Count(v.circuits, s) && IsOpen(w.circuits, s) == IsOpen(v.circuits, s)
  {
    assert Lookup(w.circuits.redis, FailuresKey(s)) == Lookup(v.circuits.redis, FailuresKey(s));
    assert Lookup(w.circuits.redis, StateKey(s)) == Lookup(v.circuits.redis, StateKey(s));
  }

  lemma CountStep(w: World, cfg: Config, step: Step, s: string)
    requires Valid(cfg) && Clear(step, s) && s != "" && ReadableAt(w, cfg, s)
    ensures Count(Apply(w, cfg, step).circuits, s) ==
      if step.PollFailed? || step.sessionId != s then Count(w.circuits, s)
      else if step.Fail? && step.opening.script.Applies() then Count(w.circuits, s) + 1
      else if Forgets(w, cfg, step, s) then 0
      else Count(w.circuits, s)
  {
    if !Concerns(step, s) {
      OthersUntouched(w, cfg, step, s);
      CountSeen(Apply(w, cfg, step), w, s);
    } else {
      KeysApart(s, s);
    }
  }

  lemma {:induction false} CountIsTheFailureRun(cfg: Config, steps: seq<Step>, s: string)
    requires Valid(cfg) && AllClear(steps, s) && s != ""
    ensures Count(Exec(START, cfg, steps).circuits, s) == FailureRun(cfg, steps, s)
  {
    if steps != [] {
      var front := steps[..|steps| - 1];
      CountIsTheFailureRun(cfg, front, s);
      ReachableCircuitsAreSound(cfg, front, s);
      CountStep(Exec(START, cfg, front), cfg, steps[|steps| - 1], s);
    }
  }

  /** In every run, a failure whose script answers is the one that opens the circuit exactly when the circuit
      was closed and the failure completes a run of at least the threshold's length, and of that very length
      as long as no step unsettled the session; nobody else is told it opened. */
  lemma TripsOnTheThresholdFailure(cfg: Config, steps: seq<Step>, s: string, code: string, at: int, o: Opening)
    requires Valid(cfg) && AllClear(steps, s) && s != "" && o.script.Answers?
    ensures var w := Exec(START, cfg, steps);
      var trips := !IsOpen(w.circuits, s) && FailureRun(cfg, steps, s) + 1 >= cfg.threshold;
      var (after, result) := AfterFailure(w.circuits, cfg.threshold, s, code, at, o);
      result == Ok(trips) && (IsOpen(after, s) <==> IsOpen(w.circuits, s) || trips) &&
      (NeverUnsettled(cfg, steps, s) && trips ==> FailureRun(cfg, steps, s) + 1 == cfg.threshold)
  {
    ReachableCircuitsAreSound(cfg, steps, s);
    CountIsTheFailureRun(cfg, steps, s);
    KeysApart(s, s);
    var w := Exec(START, cfg, steps);
    assert Look(w, s).count.Some? <==> FailuresKey(s) in w.circuits.redis;
    assert Look(w, s).state.Some? <==> IsOpen(w.circuits, s);
  }

  /** Nothing is done for a session without a name. */
  lemma NamelessIsRefused(c: Circuits, threshold: nat, reason: string, code: string, at: int, o: Opening, d: Closing)
    ensures AfterFailure(c, threshold, "", code, at, o) == (c, Err(EmptySession))
    ensures AfterOpen(c, "", reason, code, at, o) == (c, Err(EmptySession))
    ensures AfterClose(c, "", d) == (c, Err(EmptySession)) && AfterSuccess(c, "", o.script) == c
    ensures StateOf(c.redis, "") == Err(EmptySession)
  {
  }

  // ---------------------------------------------------------------- what a reader is told

  /** What the state endpoint tells after a failure that reached Redis: one more failure; and on a closed circuit whose
      threshold it reaches, that it is open for that reason, since then and with that code. */
  lemma ToldAfterFailure(w: World, cfg: Config, s: string, code: string, at: int, o: Opening)
    requires Valid(cfg) && s != "" && ReadableAt(w, cfg, s) && o.script.Applies()
    ensures StateOf(w.circuits.redis, s).Ok?
    ensures var before := StateOf(w.circuits.redis, s).value;
      var (after, result) := AfterFailure(w.circuits, cfg.threshold, s, code, at, o);
      var n := Count(w.circuits, s) + 1;
      StateOf(after.redis, s) ==
        Ok(if !before.open && n >= cfg.threshold then State(s, true, "consecutive_failures", code, at, n)
           else before.(failures := n)) &&
      result == if o.script.LosesReply? then Err(RedisFailed) else Ok(!before.open && n >= cfg.threshold)
  {
    KeysApart(s, s);
    assert Look(w, s).count.Some? <==> FailuresKey(s) in w.circuits.redis;
    assert Look(w, s).state.Some? <==> IsOpen(w.circuits, s);
  }

  /** And after an opening: a closed circuit is open for the reason given; a manual pause takes over an automatic one,
      with its own code and time; everything else is as it was, and the caller is told which. */
  lemma ToldAfterOpen(w: World, cfg: Config, s: string, reason: string, code: string, at: int, o: Opening)
    requires Valid(cfg) && s != "" && ReadableAt(w, cfg, s) && o.script.Applies()
    ensures StateOf(w.circuits.redis, s).Ok?
    ensures var before := StateOf(w.circuits.redis, s).value;
      var (after, result) := AfterOpen(w.circuits, s, reason, code, at, o);
      var writes := !before.open || (reason == "manual" && before.reason != "manual");
      StateOf(after.redis, s) ==
        Ok(if writes then State(s, true, reason, code, at, Count(w.circuits, s)) else before) &&
      result == if o.script.LosesReply? then Err(RedisFailed) else Ok(writes)
  {
    KeysApart(s, s);
    assert Look(w, s).count.Some? <==> FailuresKey(s) in w.circuits.redis;
    assert Look(w, s).state.Some? <==> IsOpen(w.circuits, s);
  }

  /** And after a close whose deletions answered: closed, with nothing counted; the caller is told whether it was open.
      One that could not delete the state says so, and leaves the count. */
  lemma ToldAfterClose(w: World, cfg: Config, s: string, d: Closing)
    requires Valid(cfg) && s != "" && ReadableAt(w, cfg, s)
    ensures var (after, result) := AfterClose(w.circuits, s, d); var before := StateOf(w.circuits.redis, s);
      before.Ok? &&
      (d.state.Answers? && d.counter.Answers? ==>
         StateOf(after.redis, s) == Ok(State(s, false, "", "", 0, 0)) && result == Ok(before.value.open)) &&
      (d.state.Refuses? ==> after == w.circuits) && (!d.counter.Answers? ==> result == Err(RedisFailed)) &&
      (!d.state.Answers? ==>
         result == Err(RedisFailed) && after.paused == w.circuits.paused &&
         Lookup(after.redis, FailuresKey(s)) == Lookup(w.circuits.redis, FailuresKey(s)))
  {
    KeysApart(s, s);
    assert Look(w, s).count.Some? <==> FailuresKey(s) in w.circuits.redis;
    assert Look(w, s).state.Some? <==> IsOpen(w.circuits, s);
  }

  // ---------------------------------------------------------------- a pause by hand

  predicate Resumes(step: Step, s: string) {
    step.CloseBy? && step.sessionId == s
  }

  /** Paused by hand: the stored reason is the manual one, to Go's reader and to the script's. */
  predicate HeldByHand(c: Circuits, s: string) {
    StateKey(s) in c.redis &&
    var v := c.redis[StateKey(s)];
    v.json.Some? && v.json.value.reason == REASON_MANUAL && v.luaReason == Some(REASON_MANUAL)
  }

  /** An answered opening whose pause reaches the lane. */
  predicate Pauses(step: Step, s: string, lane: string) {
    step.OpenBy? && step.sessionId == s && step.opening.script.Answers? && lane in Reached(s, step.opening.lanes)
  }

  lemma HoldStep(w: World, cfg: Config, step: Step, s: string, lane: string)
    requires Clear(step, s) && s != "" && HeldByHand(w.circuits, s) && !Resumes(step, s) && lane in Lanes(s)
    ensures var v := Apply(w, cfg, step);
      HeldByHand(v.circuits, s) && v.circuits.redis[StateKey(s)] == w.circuits.redis[StateKey(s)] &&
      (lane in v.circuits.paused <==> lane in w.circuits.paused || Pauses(step, s, lane))
  {
    var v := Apply(w, cfg, step);
    if !Concerns(step, s) {
      OthersUntouched(w, cfg, step, s);
      assert Lookup(w.circuits.redis, StateKey(s)) == Lookup(v.circuits.redis, StateKey(s));
      assert (lane in Look(w, s).paused) == (lane in Look(v, s).paused);
    } else {
      KeysApart(s, s);
    }
  }

  lemma {:induction false} HoldRun(w: World, cfg: Config, steps: seq<Step>, s: string, lane: string)
    requires AllClear(steps, s) && s != "" && HeldByHand(w.circuits, s) && lane in Lanes(s)
    requires forall i | 0 <= i < |steps| :: !Resumes(steps[i], s)
    ensures var v := Exec(w, cfg, steps);
      HeldByHand(v.circuits, s) && v.circuits.redis[StateKey(s)] == w.circuits.redis[StateKey(s)] &&
      (lane in v.circuits.paused <==>
         lane in w.circuits.paused || exists i :: 0 <= i < |steps| && Pauses(steps[i], s, lane))
  {
    if steps != [] {
      var front, last := steps[..|steps| - 1], steps[|steps| - 1];
      HoldRun(w, cfg, front, s, lane);
      HoldStep(Exec(w, cfg, front), cfg, last, s, lane);
      assert forall i | 0 <= i < |front| :: front[i] == steps[i];
    }
  }

  lemma PauseHolds(w: World, cfg: Config, s: string, code: string, at: int, o: Opening, lane: string)
    requires s != "" && ReadableAt(w, cfg, s) && o.script.Answers? && lane in Lanes(s)
    ensures var v := Apply(w, cfg, OpenBy(s, REASON_MANUAL, code, at, o));
      HeldByHand(v.circuits, s) &&
      (lane in v.circuits.paused <==> lane in w.circuits.paused || lane in Reached(s, o.lanes))
  {
    assert Look(w, s).state.Some? <==> IsOpen(w.circuits, s);
  }

  /** A pause by hand that was answered, whatever it was laid over, outlives any number of polls, failures
      and further pauses: until a person resumes the session, its circuit is open with the manual reason
      and the stamp of the first such pause. A lane is paused until then exactly when it was paused before,
      or that pause or a later one reached it. */
  lemma PauseOutlastsEverything(cfg: Config, before: seq<Step>, s: string, code: string, at: int, o: Opening,
                                after: seq<Step>, lane: string)
    requires Valid(cfg) && AllClear(before, s) && AllClear(after, s) && s != "" && o.script.Answers?
    requires lane in Lanes(s) && forall i | 0 <= i < |after| :: !Resumes(after[i], s)
    ensures var w := Exec(START, cfg, before);
      var paused := Apply(w, cfg, OpenBy(s, REASON_MANUAL, code, at, o));
      var later := Exec(paused, cfg, after);
      HeldByHand(later.circuits, s) && later.circuits.redis[StateKey(s)] == paused.circuits.redis[StateKey(s)] &&
      (lane in later.circuits.paused <==>
         lane in w.circuits.paused || lane in Reached(s, o.lanes) ||
         exists i :: 0 <= i < |after| && Pauses(after[i], s, lane))
  {
    ReachableCircuitsAreSound(cfg, before, s);
    PauseHolds(Exec(START, cfg, before), cfg, s, code, at, o, lane);
    HoldRun(Apply(Exec(START, cfg, before), cfg, OpenBy(s, REASON_MANUAL, code, at, o)), cfg, after, s, lane);
  }

  // ---------------------------------------------------------------- closing

  /** A reading that speaks for closing: the state could be read, the circuit is open and not paused by
      hand, and the session is healthy. */
  predicate Qualifies(w: World, step: Step, s: string) {
    step.Evaluate? && step.sessionId == s && step.readable && Tripped(w.circuits, s) && step.healthy
  }

  predicate Breaks(w: World, step: Step, s: string) {
    step.PollFailed? ||
    (step.Evaluate? && step.sessionId == s && step.readable && StateOf(w.circuits.redis, s).Ok? &&
     !Qualifies(w, step, s))
  }

  /** How many qualifying readings there have been in a row; a reading whose state could not be read is
      passed over. */
  function HealthyRun(w: World, cfg: Config, steps: seq<Step>, s: string): nat {
    if steps == [] then 0
    else
      var front, last := steps[..|steps| - 1], steps[|steps| - 1];
      var here := Exec(w, cfg, front);
      if Qualifies(here, last, s) then HealthyRun(w, cfg, front, s) + 1
      else if Breaks(here, last, s) then 0
      else HealthyRun(w, cfg, front, s)
  }

  lemma StreakStep(w: World, cfg: Config, step: Step, s: string)
    requires Valid(cfg)
    ensures Streak(Apply(w, cfg, step), s) ==
      if Qualifies(w, step, s) then (if Streak(w, s) + 1 < cfg.healthyPolls then Streak(w, s) + 1 else 0)
      else if Breaks(w, step, s) then 0
      else Streak(w, s)
  {
  }

  /** A non-zero multiple of m is at least m away from zero. */
  lemma Apart(d: int, m: int)
    requires m >= 0
    ensures d == 0 || d * m >= m || d * m <= -m
  {
    if d > 0 {
      assert (d - 1) * m >= 0;
      assert (d - 1) * m == d * m - m;
    } else if d < 0 {
      assert (-1 - d) * m >= 0;
      assert (-1 - d) * m == -m - d * m;
    }
  }

  lemma Distribute(a: int, b: int, m: int)
    ensures (a - b) * m == a * m - b * m
  {
  }

  lemma Remainder(q: nat, m: nat, r: nat)
    requires r < m
    ensures (q * m + r) % m == r
  {
    var n := q * m + r;
    var q', r' := n / m, n % m;
    assert n == q' * m + r' && 0 <= r' < m;
    Distribute(q, q', m);
    Apart(q - q', m);
  }

  lemma ModStep(n: nat, m: nat)
    requires m >= 2
    ensures (n + 1) % m == if n % m + 1 < m then n % m + 1 else 0
  {
    var q, r := n / m, n % m;
    assert n == q * m + r;
    if r + 1 < m {
      Remainder(q, m, r + 1);
    } else {
      Distribute(q + 1, q, m);
      Remainder(q + 1, m, 0);
    }
  }

  lemma StreakFollows(w: World, cfg: Config, step: Step, s: string, run: nat)
    requires Valid(cfg) && Streak(w, s) == run % cfg.healthyPolls
    ensures Streak(Apply(w, cfg, step), s) ==
      (if Qualifies(w, step, s) then run + 1 else if Breaks(w, step, s) then 0 else run) % cfg.healthyPolls
  {
    StreakStep(w, cfg, step, s);
    ModStep(run, cfg.healthyPolls);
    Remainder(0, cfg.healthyPolls, 0);
  }

  /** The streak the watcher keeps is the length of the run of qualifying readings, counted modulo the
      number that closes a circuit. */
  lemma {:induction false} StreakIsTheRun(w: World, cfg: Config, steps: seq<Step>, s: string)
    requires Valid(cfg) && s !in w.streak
    ensures Streak(Exec(w, cfg, steps), s) == HealthyRun(w, cfg, steps, s) % cfg.healthyPolls
  {
    if steps != [] {
      var front := steps[..|steps| - 1];
      StreakIsTheRun(w, cfg, front, s);
      StreakFollows(Exec(w, cfg, front), cfg, steps[|steps| - 1], s, HealthyRun(w, cfg, front, s));
    } else {
      Remainder(0, cfg.healthyPolls, 0);
    }
  }

  lemma FullRunIsLong(run: nat, m: nat)
    requires m >= 2 && run > 0 && run % m == 0
    ensures run >= m
  {
    if run < m {
      Remainder(0, m, run);
    }
  }

  /** One reading: it closes the circuit exactly when it completes the streak and the deletion takes effect. */
  lemma ClosingReading(w: World, cfg: Config, step: Step, s: string, run: nat)
    requires Valid(cfg) && step.Evaluate? && step.sessionId == s && s != "" && Streak(w, s) == run % cfg.healthyPolls
    ensures Closes(w, cfg, step, s) <==>
            Qualifies(w, step, s) && step.closing.state.Applies() && (run + 1) % cfg.healthyPolls == 0
  {
    ModStep(run, cfg.healthyPolls);
    KeysApart(s, s);
  }

  lemma RunGrows(w: World, cfg: Config, steps: seq<Step>, step: Step, s: string)
    requires Qualifies(Exec(w, cfg, steps), step, s)
    ensures HealthyRun(w, cfg, steps + [step], s) == HealthyRun(w, cfg, steps, s) + 1
  {
    assert (steps + [step])[..|steps|] == steps;
  }

  /** A reading closes the circuit exactly when the deletion takes effect and it completes a run of qualifying
      readings whose length is a multiple of HealthyPolls: the circuit was open and not paused by hand,
      and no poll in the run failed or found the session unhealthy. */
  lemma ClosesExactlyOnAFullRun(w: World, cfg: Config, steps: seq<Step>, step: Step, s: string)
    requires Valid(cfg) && s !in w.streak && step.Evaluate? && step.sessionId == s && s != ""
    ensures var here := Exec(w, cfg, steps);
      var run := HealthyRun(w, cfg, steps + [step], s);
      Closes(here, cfg, step, s) <==>
        Qualifies(here, step, s) && step.closing.state.Applies() && run % cfg.healthyPolls == 0
    ensures Closes(Exec(w, cfg, steps), cfg, step, s) ==> HealthyRun(w, cfg, steps + [step], s) >= cfg.healthyPolls
  {
    var run := HealthyRun(w, cfg, steps, s);
    StreakIsTheRun(w, cfg, steps, s);
    ClosingReading(Exec(w, cfg, steps), cfg, step, s, run);
    if Qualifies(Exec(w, cfg, steps), step, s) {
      RunGrows(w, cfg, steps, step, s);
      if (run + 1) % cfg.healthyPolls == 0 {
        FullRunIsLong(run + 1, cfg.healthyPolls);
      }
    }
  }

  // ---------------------------------------------------------------- one lucky poll

  function Readings(s: string, n: nat): seq<Step> {
    seq(n, _ => Evaluate(s, true, true, CLOSED))
  }

  /** How many healthy readings an open circuit takes to close depends on the streak it finds: it takes
      HealthyPolls of them exactly when there is none. A streak outlives the circuit it was counted on,
      since a resume by hand leaves it in place. */
  lemma {:induction false} ReadingsToClose(w: World, cfg: Config, s: string, n: nat)
    requires Valid(cfg) && s != "" && Tripped(w.circuits, s) && Streak(w, s) < cfg.healthyPolls
    requires n <= cfg.healthyPolls - Streak(w, s)
    ensures var later := Exec(w, cfg, Readings(s, n));
      if n < cfg.healthyPolls - Streak(w, s) then later.circuits == w.circuits && Streak(later, s) == Streak(w, s) + n
      else !IsOpen(later.circuits, s)
  {
    if n > 0 {
      ReadingsToClose(w, cfg, s, n - 1);
      assert Readings(s, n)[..n - 1] == Readings(s, n - 1);
      KeysApart(s, s);
    }
  }

  function Failures(s: string, n: nat): seq<Step> {
    seq(n, i => Fail(s, "", i, OPENED))
  }

  /** A closed circuit with no failures counted. */
  predicate Fresh(w: World, s: string) {
    !IsOpen(w.circuits, s) && FailuresKey(s) !in w.circuits.redis
  }

  lemma {:induction false} FailuresTrip(w: World, cfg: Config, s: string, n: nat)
    requires Valid(cfg) && s != "" && Fresh(w, s) && n <= cfg.threshold
    ensures var later := Exec(w, cfg, Failures(s, n));
      later.streak == w.streak &&
      Lookup(later.circuits.redis, FailuresKey(s)) == (if n == 0 then None else Some(Counted(n))) &&
      if n < cfg.threshold then !IsOpen(later.circuits, s) else Tripped(later.circuits, s)
  {
    KeysApart(s, s);
    if n > 0 {
      FailuresTrip(w, cfg, s, n - 1);
      assert Failures(s, n)[..n - 1] == Failures(s, n - 1);
    }
  }

  /** So one lucky poll can close a circuit that has just tripped, although the configuration refuses a
      streak of 1: the readings of an earlier opening, ended by hand one reading short, still count. */
  lemma OneLuckyPollCloses(cfg: Config, s: string)
    requires Valid(cfg) && s != ""
    ensures
      var tripped := Exec(START, cfg, Failures(s, cfg.threshold));
      var recovering := Exec(tripped, cfg, Readings(s, cfg.healthyPolls - 1));
      var resumed := Apply(recovering, cfg, CloseBy(s, CLOSED));
      var trippedAgain := Exec(resumed, cfg, Failures(s, cfg.threshold));
      Tripped(recovering.circuits, s) && !IsOpen(resumed.circuits, s) && Tripped(trippedAgain.circuits, s) &&
      !IsOpen(Apply(trippedAgain, cfg, Evaluate(s, true, true, CLOSED)).circuits, s)
  {
    FailuresTrip(START, cfg, s, cfg.threshold);
    var tripped := Exec(START, cfg, Failures(s, cfg.threshold));
    ReadingsToClose(tripped, cfg, s, cfg.healthyPolls - 1);
    var recovering := Exec(tripped, cfg, Readings(s, cfg.healthyPolls - 1));
    var resumed := Apply(recovering, cfg, CloseBy(s, CLOSED));
    KeysApart(s, s);
    assert Fresh(resumed, s);
    FailuresTrip(resumed, cfg, s, cfg.threshold);
    var again := Exec(resumed, cfg, Failures(s, cfg.threshold));
    LastReading(again, cfg, s);
  }

  lemma LastReading(w: World, cfg: Config, s: string)
    requires Valid(cfg) && s != "" && Tripped(w.circuits, s) && Streak(w, s) == cfg.healthyPolls - 1
    ensures !IsOpen(Apply(w, cfg, Evaluate(s, true, true, CLOSED)).circuits, s)
  {
    KeysApart(s, s);
  }
}
