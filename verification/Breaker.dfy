/** The circuit breaker's Redis keys and lane pauses (wa-shared/circuit/breaker.go, breaker.lua, open.lua). */
module Breaker {
  import opened Options
  import Keys

  const KEY_PREFIX := "wa:circuit:"
  const REASON_FAILURES := "consecutive_failures"
  const REASON_MANUAL := "manual"

  datatype State = State(sessionId: string, open: bool, reason: string, errorCode: string, openedAt: int, failures: int)

  /** A Redis value by what its readers make of it: Go's JSON decoder, the reason that Lua's JSON
      decoder finds, and a decimal integer. */
  datatype Stored = Stored(json: Option<State>, luaReason: Option<string>, number: Option<int>)

  type Redis = map<string, Stored>

  datatype BreakerError = EmptySession | BadState | BadCount | RedisFailed

  function StateKey(sessionId: string): string {
    KEY_PREFIX + sessionId
  }

  function FailuresKey(sessionId: string): string {
    KEY_PREFIX + sessionId + ":failures"
  }

  function Encoded(s: State): Stored {
    Stored(Some(s), if s.reason == "" then None else Some(s.reason), None)
  }

  function Counted(n: int): Stored {
    Stored(None, None, Some(n))
  }

  const PRIORITIES := [Keys.Critical, Keys.Default, Keys.Bulk]

  function Lanes(sessionId: string): set<string> {
    set k | 0 <= k < |PRIORITIES| :: Keys.QueueFor(sessionId, PRIORITIES[k])
  }

  // ---------------------------------------------------------------- the two scripts

  /** INCR refuses a value that is not an integer. */
  function Incremented(redis: Redis, key: string): Option<int> {
    if key !in redis then Some(1)
    else if redis[key].number.None? then None
    else Some(redis[key].number.value + 1)
  }

  /** breaker.lua: count the failure and, at the threshold, open the circuit unless something is there. */
  function FailureScript(redis: Redis, failuresKey: string, stateKey: string, threshold: nat, state: Stored)
    : Option<(Redis, bool)>
  {
    match Incremented(redis, failuresKey)
    case None => None
    case Some(n) =>
      var counted := redis[failuresKey := Counted(n)];
      if n < threshold || stateKey in counted then Some((counted, false))
      else Some((counted[stateKey := state], true))
  }

  /** open.lua: an open circuit is left alone, except that the outranking reason takes over another. */
  function OpenScript(redis: Redis, stateKey: string, state: Stored, reason: string, outranking: string)
    : (Redis, bool)
  {
    if stateKey !in redis then (redis[stateKey := state], true)
    else if reason != outranking then (redis, false)
    else if redis[stateKey].luaReason == Some(outranking) then (redis, false)
    else (redis[stateKey := state], true)
  }

  // ---------------------------------------------------------------- reading

  function Lookup(redis: Redis, key: string): Option<Stored> {
    if key in redis then Some(redis[key]) else None
  }

  function DecodeState(sessionId: string, vals: seq<Option<Stored>>): Result<State, BreakerError>
    requires |vals| == 2
  {
    if vals[0].Some? && vals[0].value.json.None? then Err(BadState)
    else
      var out :=
        if vals[0].None? then State(sessionId, false, "", "", 0, 0)
        else vals[0].value.json.value.(sessionId := sessionId, open := true);
      if vals[1].None? then Ok(out)
      else if vals[1].value.number.None? then Err(BadCount)
      else Ok(out.(failures := vals[1].value.number.value))
  }

  /** What State reports for one session on a snapshot. */
  function StateOf(redis: Redis, sessionId: string): Result<State, BreakerError> {
    if sessionId == "" then Err(EmptySession)
    else DecodeState(sessionId, [Lookup(redis, StateKey(sessionId)), Lookup(redis, FailuresKey(sessionId))])
  }

  // ---------------------------------------------------------------- the operations

  function FailureState(sessionId: string, errorCode: string, threshold: nat, at: int): State {
    State(sessionId, true, REASON_FAILURES, errorCode, at, threshold)
  }

  function OpenState(sessionId: string, reason: string, errorCode: string, at: int): State {
    State(sessionId, true, reason, errorCode, at, 0)
  }

  /** The keys and the paused lanes. */
  datatype Circuits = Circuits(redis: Redis, paused: set<string>)

  /** How the pauses or unpauses of a session's three lanes end. An error is logged and passed over, so a
      lane that refuses stays as it was and nobody is told. */
  datatype LaneCalls = LaneCalls(critical: Call, normal: Call, bulk: Call) {
    function Of(p: Keys.Priority): Call {
      match p
      case Critical => critical
      case Default => normal
      case Bulk => bulk
    }
  }

  const ALL_LANES := LaneCalls(Answers, Answers, Answers)

  /** The lanes that the calls reach. */
  function Reached(sessionId: string, l: LaneCalls): set<string> {
    set k | 0 <= k < |PRIORITIES| && l.Of(PRIORITIES[k]).Applies() :: Keys.QueueFor(sessionId, PRIORITIES[k])
  }

  predicate ReachesAll(l: LaneCalls) {
    l.critical.Applies() && l.normal.Applies() && l.bulk.Applies()
  }

  /** How the script of a Failure or an Open ends, and then its pauses. */
  datatype Opening = Opening(script: Call, lanes: LaneCalls)

  const OPENED := Opening(Answers, ALL_LANES)

  /** How the two deletions of a Close end, and the unpauses between them. */
  datatype Closing = Closing(state: Call, lanes: LaneCalls, counter: Call)

  const CLOSED := Closing(Answers, ALL_LANES, Answers)

  /** A script whose reply is lost has run, but its caller pauses nothing. */
  function AfterFailure(c: Circuits, threshold: nat, sessionId: string, errorCode: string, at: int, o: Opening)
    : (Circuits, Result<bool, BreakerError>)
  {
    if sessionId == "" then (c, Err(EmptySession))
    else if o.script.Refuses? then (c, Err(RedisFailed))
    else
      var state := Encoded(FailureState(sessionId, errorCode, threshold, at));
      match FailureScript(c.redis, FailuresKey(sessionId), StateKey(sessionId), threshold, state)
      case None => (c, Err(if o.script.Answers? then BadCount else RedisFailed))
      case Some((redis, crossed)) =>
        if o.script.LosesReply? then (c.(redis := redis), Err(RedisFailed))
        else (Circuits(redis, if crossed then c.paused + Reached(sessionId, o.lanes) else c.paused), Ok(crossed))
  }

  function AfterSuccess(c: Circuits, sessionId: string, call: Call): Circuits {
    if sessionId == "" || call.Refuses? then c else c.(redis := c.redis - {FailuresKey(sessionId)})
  }

  function AfterOpen(c: Circuits, sessionId: string, reason: string, errorCode: string, at: int, o: Opening)
    : (Circuits, Result<bool, BreakerError>)
  {
    if sessionId == "" then (c, Err(EmptySession))
    else if o.script.Refuses? then (c, Err(RedisFailed))
    else
      var state := Encoded(OpenState(sessionId, reason, errorCode, at));
      var (redis, wrote) := OpenScript(c.redis, StateKey(sessionId), state, reason, REASON_MANUAL);
      if o.script.LosesReply? then (c.(redis := redis), Err(RedisFailed))
      else (Circuits(redis, c.paused + Reached(sessionId, o.lanes)), Ok(wrote))
  }

  /** The lanes are unpaused between the two deletions, and only when the first one replied. */
  function AfterClose(c: Circuits, sessionId: string, d: Closing): (Circuits, Result<bool, BreakerError>) {
    if sessionId == "" then (c, Err(EmptySession))
    else
      var closed := if d.state.Applies() then c.redis - {StateKey(sessionId)} else c.redis;
      if !d.state.Answers? then (c.(redis := closed), Err(RedisFailed))
      else
        var forgotten := if d.counter.Applies() then closed - {FailuresKey(sessionId)} else closed;
        (Circuits(forgotten, c.paused - Reached(sessionId, d.lanes)),
         if d.counter.Answers? then Ok(StateKey(sessionId) in c.redis) else Err(RedisFailed))
  }

  class CircuitBreaker {
    const threshold: nat
    var redis: Redis
    var paused: set<string>

    constructor (threshold: nat)
      requires threshold > 0
      ensures this.threshold == threshold && Now() == Circuits(map[], {})
    {
      this.threshold := threshold;
      redis, paused := map[], {};
    }

    function Now(): Circuits
      reads this
    {
      Circuits(redis, paused)
    }

    method EnsurePaused(sessionId: string, l: LaneCalls)
      modifies this`paused
      ensures paused == old(paused) + Reached(sessionId, l)
    {
      for i := 0 to |PRIORITIES|
        invariant paused ==
          old(paused) + set k | 0 <= k < i && l.Of(PRIORITIES[k]).Applies() :: Keys.QueueFor(sessionId, PRIORITIES[k])
      {
        if l.Of(PRIORITIES[i]).Applies() {
          paused := paused + {Keys.QueueFor(sessionId, PRIORITIES[i])};
        }
      }
    }

    method EnsureUnpaused(sessionId: string, l: LaneCalls)
      modifies this`paused
      ensures paused == old(paused) - Reached(sessionId, l)
    {
      for i := 0 to |PRIORITIES|
        invariant paused ==
          old(paused) - set k | 0 <= k < i && l.Of(PRIORITIES[k]).Applies() :: Keys.QueueFor(sessionId, PRIORITIES[k])
      {
        if l.Of(PRIORITIES[i]).Applies() {
          paused := paused - {Keys.QueueFor(sessionId, PRIORITIES[i])};
        }
      }
    }

    method Failure(sessionId: string, errorCode: string, at: int, o: Opening) returns (r: Result<bool, BreakerError>)
      modifies this
      ensures (Now(), r) == AfterFailure(old(Now()), threshold, sessionId, errorCode, at, o)
    {
      if sessionId == "" {
        return Err(EmptySession);
      }
      if o.script.Refuses? {
        return Err(RedisFailed);
      }
      var crossed := false;
      var n := Incremented(redis, FailuresKey(sessionId));
      if n.Some? {
        redis := redis[FailuresKey(sessionId) := Counted(n.value)];
        if n.value >= threshold && StateKey(sessionId) !in redis {
          redis := redis[StateKey(sessionId) := Encoded(FailureState(sessionId, errorCode, threshold, at))];
          crossed := true;
        }
      }
      if o.script.LosesReply? {
        return Err(RedisFailed);
      }
      if n.None? {
        return Err(BadCount);
      }
      if crossed {
        EnsurePaused(sessionId, o.lanes);
      }
      return Ok(crossed);
    }

    method Success(sessionId: string, call: Call) returns (r: Result<(), BreakerError>)
      modifies this`redis
      ensures Now() == AfterSuccess(old(Now()), sessionId, call) && (r.Ok? <==> sessionId != "" && call.Answers?)
    {
      if sessionId == "" {
        return Err(EmptySession);
      }
      if call.Applies() {
        redis := redis - {FailuresKey(sessionId)};
      }
      return if call.Answers? then Ok(()) else Err(RedisFailed);
    }

    method Open(sessionId: string, reason: string, errorCode: string, at: int, o: Opening)
      returns (r: Result<bool, BreakerError>)
      modifies this
      ensures (Now(), r) == AfterOpen(old(Now()), sessionId, reason, errorCode, at, o)
    {
      if sessionId == "" {
        return Err(EmptySession);
      }
      if o.script.Refuses? {
        return Err(RedisFailed);
      }
      var state := Encoded(OpenState(sessionId, reason, errorCode, at));
      var wrote := false;
      if StateKey(sessionId) !in redis {
        redis, wrote := redis[StateKey(sessionId) := state], true;
      } else if reason == REASON_MANUAL && redis[StateKey(sessionId)].luaReason != Some(REASON_MANUAL) {
        redis, wrote := redis[StateKey(sessionId) := state], true;
      }
      if o.script.LosesReply? {
        return Err(RedisFailed);
      }
      EnsurePaused(sessionId, o.lanes);
      return Ok(wrote);
    }

    method Close(sessionId: string, d: Closing) returns (r: Result<bool, BreakerError>)
      modifies this
      ensures (Now(), r) == AfterClose(old(Now()), sessionId, d)
    {
      if sessionId == "" {
        return Err(EmptySession);
      }
      var removed := StateKey(sessionId) in redis;
      if d.state.Applies() {
        redis := redis - {StateKey(sessionId)};
      }
      if !d.state.Answers? {
        return Err(RedisFailed);
      }
      EnsureUnpaused(sessionId, d.lanes);
      if d.counter.Applies() {
        redis := redis - {FailuresKey(sessionId)};
      }
      return if d.counter.Answers? then Ok(removed) else Err(RedisFailed);
    }
  }

  // ---------------------------------------------------------------- the batched read

  function Distinct(sessionIds: seq<string>): set<string> {
    set id | id in sessionIds && id != ""
  }

  function MGet(redis: Redis, keys: seq<string>): (vals: seq<Option<Stored>>)
    ensures |vals| == |keys|
  {
    seq(|keys|, i requires 0 <= i < |keys| => Lookup(redis, keys[i]))
  }

  /** The keys of the first pass: both keys of every id, in order. */
  ghost predicate KeysOf(keys: seq<string>, ids: seq<string>) {
    |keys| == 2 * |ids| &&
    forall i | 0 <= i < |ids| :: keys[2 * i] == StateKey(ids[i]) && keys[2 * i + 1] == FailuresKey(ids[i])
  }

  ghost predicate NoRepeats(ids: seq<string>) {
    forall i, j | 0 <= i < j < |ids| :: ids[i] != ids[j]
  }

  lemma {:induction false} RepeatFreeCount(ids: seq<string>)
    requires NoRepeats(ids)
    ensures |set id | id in ids| == |ids|
  {
    if ids != [] {
      var n := |ids| - 1;
      RepeatFreeCount(ids[..n]);
      assert ids == ids[..n] + [ids[n]];
      assert (set id | id in ids) == (set id | id in ids[..n]) + {ids[n]};
    }
  }

  /** The first pass: each distinct id once, with its two keys. */
  method BothKeys(sessionIds: seq<string>) returns (out: map<string, State>, ids: seq<string>, keys: seq<string>)
    ensures NoRepeats(ids) && KeysOf(keys, ids)
    ensures (set id | id in ids) == Distinct(sessionIds) == out.Keys
    ensures forall i | 0 <= i < |ids| :: ids[i] in Distinct(sessionIds)
  {
    out, ids, keys := map[], [], [];
    for i := 0 to |sessionIds|
      invariant NoRepeats(ids) && KeysOf(keys, ids)
      invariant forall id :: id in ids <==> id in sessionIds[..i] && id != ""
      invariant forall id :: id in out <==> id in ids
      invariant forall id | id in out :: out[id].sessionId == id
    {
      var sessionId := sessionIds[i];
      assert sessionIds[..i + 1] == sessionIds[..i] + [sessionId];
      if sessionId == "" || (sessionId in out && out[sessionId].sessionId == sessionId) {
        continue;
      }
      out := out[sessionId := State(sessionId, false, "", "", 0, 0)];
      ids := ids + [sessionId];
      keys := keys + [StateKey(sessionId), FailuresKey(sessionId)];
    }
    assert sessionIds[..|sessionIds|] == sessionIds;
  }

  /** The i-th pair of values is what State reads for the i-th id. */
  lemma PairIsState(redis: Redis, ids: seq<string>, keys: seq<string>, i: nat)
    requires KeysOf(keys, ids) && i < |ids| && ids[i] != ""
    ensures i * 2 + 2 <= |keys| && DecodeState(ids[i], MGet(redis, keys)[i * 2..i * 2 + 2]) == StateOf(redis, ids[i])
  {
    var vals := MGet(redis, keys);
    assert vals[2 * i] == Lookup(redis, StateKey(ids[i])) && vals[2 * i + 1] == Lookup(redis, FailuresKey(ids[i]));
    assert vals[i * 2..i * 2 + 2] == [Lookup(redis, StateKey(ids[i])), Lookup(redis, FailuresKey(ids[i]))];
  }

  /** The second pass: the pairs decoded in order, up to the first that cannot be. */
  method DecodeAll(redis: Redis, ids: seq<string>, keys: seq<string>, blank: map<string, State>)
    returns (r: Result<map<string, State>, BreakerError>)
    requires NoRepeats(ids) && KeysOf(keys, ids) && "" !in ids && blank.Keys == set id | id in ids
    ensures r.Ok? ==> r.value.Keys == blank.Keys && forall id | id in ids :: StateOf(redis, id) == Ok(r.value[id])
    ensures r.Err? ==> exists id | id in ids :: StateOf(redis, id) == Err(r.error)
  {
    var out := blank;
    var vals := MGet(redis, keys);
    for i := 0 to |ids|
      invariant out.Keys == blank.Keys
      invariant forall k | 0 <= k < i :: StateOf(redis, ids[k]) == Ok(out[ids[k]])
    {
      PairIsState(redis, ids, keys, i);
      var state := DecodeState(ids[i], vals[i * 2..i * 2 + 2]);
      if state.Err? {
        return Err(state.error);
      }
      out := out[ids[i] := state.value];
    }
    return Ok(out);
  }

  /** The batched read agrees with the single one on the same snapshot, whatever repeats and empty ids
      the list holds, in one command of two keys a session; it fails exactly when one of the single
      reads would. */
  method States(redis: Redis, sessionIds: seq<string>)
    returns (r: Result<map<string, State>, BreakerError>, keys: seq<string>)
    ensures |keys| == 2 * |Distinct(sessionIds)|
    ensures r.Ok? <==> forall id | id in Distinct(sessionIds) :: StateOf(redis, id).Ok?
    ensures r.Ok? ==>
      r.value.Keys == Distinct(sessionIds) && forall id | id in r.value :: StateOf(redis, id) == Ok(r.value[id])
    ensures r.Ok? ==> forall id :: id in r.value <==> id in sessionIds && id != ""
    ensures r.Err? ==> exists id | id in Distinct(sessionIds) :: StateOf(redis, id) == Err(r.error)
  {
    var blank, ids, keys' := BothKeys(sessionIds);
    keys := keys';
    RepeatFreeCount(ids);
    assert forall id :: id in (set id' | id' in ids) <==> id in ids;
    if |keys| == 0 {
      return Ok(blank), keys;
    }
    r := DecodeAll(redis, ids, keys, blank);
  }

  // ---------------------------------------------------------------- the lanes of one session

  lemma LaneReached(sessionId: string, l: LaneCalls, p: Keys.Priority)
    ensures Keys.QueueFor(sessionId, p) in Lanes(sessionId)
    ensures Keys.QueueFor(sessionId, p) in Reached(sessionId, l) <==> l.Of(p).Applies()
  {
    assert PRIORITIES[0] == Keys.Critical && PRIORITIES[1] == Keys.Default && PRIORITIES[2] == Keys.Bulk;
    var i := if p.Critical? then 0 else if p.Default? then 1 else 2;
    assert Keys.QueueFor(sessionId, PRIORITIES[i]) in Lanes(sessionId);
    if l.Of(p).Applies() {
      assert Keys.QueueFor(sessionId, PRIORITIES[i]) in Reached(sessionId, l);
    }
    if Keys.QueueFor(sessionId, p) in Reached(sessionId, l) {
      var k :| 0 <= k < |PRIORITIES| && l.Of(PRIORITIES[k]).Applies() &&
               Keys.QueueFor(sessionId, p) == Keys.QueueFor(sessionId, PRIORITIES[k]);
      Keys.QueueForInjective(sessionId, p, sessionId, PRIORITIES[k]);
    }
  }

  /** The calls reach every lane exactly when none of the three refuses. */
  lemma ReachesAllIff(sessionId: string, l: LaneCalls)
    ensures Reached(sessionId, l) <= Lanes(sessionId) && Lanes(sessionId) != {}
    ensures Reached(sessionId, l) == Lanes(sessionId) <==> ReachesAll(l)
  {
    LaneReached(sessionId, l, Keys.Critical);
    LaneReached(sessionId, l, Keys.Default);
    LaneReached(sessionId, l, Keys.Bulk);
  }

  // ---------------------------------------------------------------- the keys of two sessions

  /** One session's failure counter is the other's state. Registry entries hold no colon, but pool members
      and the pause endpoint take any id, so pausing "x:failures" writes over the counter of "x". */
  predicate Collides(s: string, t: string) {
    s == t + ":failures" || t == s + ":failures"
  }

  lemma Strip(prefix: string, a: string, b: string)
    requires prefix + a == prefix + b
    ensures a == b
  {
    assert a == (prefix + a)[|prefix|..] && b == (prefix + b)[|prefix|..];
  }

  lemma FailuresKeyInjective(s: string, t: string)
    requires FailuresKey(s) == FailuresKey(t)
    ensures s == t
  {
    assert |s| == |t|;
    assert s == FailuresKey(s)[|KEY_PREFIX|..|KEY_PREFIX| + |s|];
    assert t == FailuresKey(t)[|KEY_PREFIX|..|KEY_PREFIX| + |t|];
  }

  lemma CollisionIff(s: string, t: string)
    ensures StateKey(s) == FailuresKey(t) <==> s == t + ":failures"
  {
    assert FailuresKey(t) == KEY_PREFIX + (t + ":failures");
    if StateKey(s) == FailuresKey(t) {
      Strip(KEY_PREFIX, s, t + ":failures");
    }
  }

  lemma LanesApart(s: string, t: string)
    requires s != t
    ensures Lanes(s) !! Lanes(t)
  {
    forall q | q in Lanes(s) && q in Lanes(t) ensures false {
      var k :| 0 <= k < |PRIORITIES| && q == Keys.QueueFor(s, PRIORITIES[k]);
      var l :| 0 <= l < |PRIORITIES| && q == Keys.QueueFor(t, PRIORITIES[l]);
      Keys.QueueForInjective(s, PRIORITIES[k], t, PRIORITIES[l]);
    }
  }

  /** Two sessions share no key exactly when they do not collide, and never a lane. */
  lemma KeysApart(s: string, t: string)
    ensures (StateKey(s) != FailuresKey(t) && StateKey(t) != FailuresKey(s)) <==> !Collides(s, t)
    ensures s != t ==> StateKey(s) != StateKey(t) && FailuresKey(s) != FailuresKey(t) && Lanes(s) !! Lanes(t)
    ensures !Collides(s, s)
  {
    CollisionIff(s, t);
    CollisionIff(t, s);
    if s != t {
      LanesApart(s, t);
      if StateKey(s) == StateKey(t) {
        Strip(KEY_PREFIX, s, t);
      }
      if FailuresKey(s) == FailuresKey(t) {
        FailuresKeyInjective(s, t);
      }
    } else {
      assert |s + ":failures"| > |s|;
    }
  }
}
