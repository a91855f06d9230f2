/** What every reachable pool satisfies, and why failover chains end
    (wa-shared/store/pools.go, wa-dispatcher/internal/worker/handler.go). */
module PoolRuns {
  import opened Options
  import opened Pools

  datatype Op =
    | Create(ids: seq<string>)
    | Promote(target: string)
    | Handover(target: string)
    | Disqualify(target: string)
    | Reinstate(target: string)
    | Add(target: string)
    | Remove(target: string)
    | Delete
    | Rotate(failed: string, open: set<string>)

  /** A refused operation changes nothing. */
  function Apply(p: Pool, op: Op): Pool {
    match op
    case Create(ids) => OkOr(Created(p, ids), p)
    case Promote(target) => OkOr(Moved(p, target, true), p)
    case Handover(target) => OkOr(Moved(p, target, false), p)
    case Disqualify(target) => Disqualified(p, target)
    case Reinstate(target) => OkOr(Reinstated(p, target), p)
    case Add(target) => Added(p, target)
    case Remove(target) => OkOr(Removed(p, target), p)
    case Delete => []
    case Rotate(failed, open) => Rotated(p, failed, open).0
  }

  function Exec(p: Pool, ops: seq<Op>): Pool
    decreases |ops|
  {
    if ops == [] then p else Exec(Apply(p, ops[0]), ops[1..])
  }

  // ---------------------------------------------------------------- every reachable pool

  /** Distinct sessions, distinct ranks in order, and at most one main. */
  ghost predicate Sound(p: Pool) {
    (forall i, j | 0 <= i < j < |p| :: p[i].sessionId != p[j].sessionId && p[i].rank < p[j].rank) &&
    (forall i | 0 <= i < |p| :: p[i].rank >= 0) &&
    (forall i, j | 0 <= i < j < |p| :: !(p[i].isMain && p[j].isMain))
  }

  ghost predicate HasMain(p: Pool) {
    exists i :: 0 <= i < |p| && p[i].isMain
  }

  ghost predicate MainTrusted(p: Pool) {
    forall i | 0 <= i < |p| && p[i].isMain :: !p[i].disqualified
  }

  lemma {:induction false} WithoutKeeps(p: Pool, target: string)
    ensures var q := Without(p, target);
      (forall m | m in q :: m in p) && (forall m | m in p && (m.sessionId != target || m.isMain) :: m in q)
  {
    if p != [] {
      WithoutKeeps(p[1..], target);
      assert p == [p[0]] + p[1..];
    }
  }

  ghost predicate Before(m: PoolMember, rest: Pool) {
    forall r | r in rest :: r.sessionId != m.sessionId && m.rank < r.rank && !(m.isMain && r.isMain)
  }

  lemma SoundTail(m: PoolMember, rest: Pool)
    requires Sound([m] + rest)
    ensures Sound(rest) && Before(m, rest) && m.rank >= 0
  {
    var p := [m] + rest;
    assert p[0] == m && forall i | 0 <= i < |rest| :: rest[i] == p[i + 1];
  }

  lemma SoundCons(m: PoolMember, rest: Pool)
    requires Sound(rest) && Before(m, rest) && m.rank >= 0
    ensures Sound([m] + rest)
  {
    var p := [m] + rest;
    assert p[0] == m && forall i | 0 < i < |p| :: p[i] == rest[i - 1] && rest[i - 1] in rest;
  }

  lemma {:induction false} WithoutKeepsSound(p: Pool, target: string)
    requires Sound(p)
    ensures Sound(Without(p, target))
  {
    if p != [] {
      assert p == [p[0]] + p[1..];
      SoundTail(p[0], p[1..]);
      WithoutKeepsSound(p[1..], target);
      WithoutKeeps(p[1..], target);
      SoundCons(p[0], Without(p[1..], target));
    }
  }

  lemma MovedKeepsSound(p: Pool, target: string, retire: bool)
    requires Sound(p)
    ensures Sound(OkOr(Moved(p, target, retire), p))
  {
  }

  lemma AddedKeepsSound(p: Pool, target: string)
    requires Sound(p)
    ensures Sound(Added(p, target))
  {
    if !HasMember(p, target) {
      var q := Added(p, target);
      var n := |p|;
      assert q[n].sessionId == target && q[n].rank == NextRank(p) && (q[n].isMain ==> p == []);
      forall i | 0 <= i < n ensures q[i] == p[i] && p[i].sessionId != target && 0 <= p[i].rank < NextRank(p) {
        assert p[i].rank <= p[n - 1].rank;
      }
    }
  }

  lemma DisqualifiedKeepsSound(p: Pool, target: string)
    requires Sound(p)
    ensures Sound(Disqualified(p, target)) && Apply(p, Disqualify(target)) == Disqualified(p, target)
  {
  }

  lemma RotatedKeepsSound(p: Pool, failed: string, open: set<string>)
    requires Sound(p)
    ensures Sound(Rotated(p, failed, open).0) && Apply(p, Rotate(failed, open)) == Rotated(p, failed, open).0
  {
    var backup := PickHealthy(p, failed, open, true);
    if backup.Some? {
      MovedKeepsSound(p, backup.value, true);
    }
    DisqualifiedKeepsSound(p, failed);
  }

  lemma CreatedKeepsSound(p: Pool, ids: seq<string>)
    requires Sound(p)
    ensures Sound(Apply(p, Create(ids)))
  {
  }

  lemma ReinstatedKeepsSound(p: Pool, target: string)
    requires Sound(p)
    ensures Sound(Apply(p, Reinstate(target)))
  {
  }

  lemma RemovingKeepsSound(p: Pool, target: string)
    requires Sound(p)
    ensures Sound(Apply(p, Remove(target)))
  {
    WithoutKeepsSound(p, target);
    assert Apply(p, Remove(target)) == Without(p, target) || Apply(p, Remove(target)) == p;
  }

  lemma MovingKeepsSound(p: Pool, target: string)
    requires Sound(p)
    ensures Sound(Apply(p, Promote(target))) && Sound(Apply(p, Handover(target)))
  {
    MovedKeepsSound(p, target, true);
    MovedKeepsSound(p, target, false);
  }

  lemma AddingKeepsSound(p: Pool, target: string)
    requires Sound(p)
    ensures Sound(Apply(p, Add(target)))
  {
    AddedKeepsSound(p, target);
  }

  lemma OpKeepsSound(p: Pool, op: Op)
    requires Sound(p)
    ensures Sound(Apply(p, op))
  {
    match op
    case Remove(target) => RemovingKeepsSound(p, target);
    case Promote(target) => MovingKeepsSound(p, target);
    case Handover(target) => MovingKeepsSound(p, target);
    case Rotate(failed, open) => RotatedKeepsSound(p, failed, open);
    case Disqualify(target) => DisqualifiedKeepsSound(p, target);
    case Add(target) => AddingKeepsSound(p, target);
    case Create(ids) => CreatedKeepsSound(p, ids);
    case Reinstate(target) => ReinstatedKeepsSound(p, target);
    case Delete =>
  }

  /** At most one main, distinct sessions, distinct ranks, in every run of operations. */
  lemma {:induction false} ReachablePoolsAreSound(p: Pool, ops: seq<Op>)
    requires Sound(p)
    ensures Sound(Exec(p, ops))
    decreases |ops|
  {
    if ops != [] {
      OpKeepsSound(p, ops[0]);
      ReachablePoolsAreSound(Apply(p, ops[0]), ops[1..]);
    }
  }

  ghost predicate Retired(p: Pool, sessionId: string) {
    exists i :: 0 <= i < |p| && p[i].sessionId == sessionId && p[i].disqualified
  }

  /** One operation leaves main trusted exactly when it is not a handover to a retired member,
      which is what a handover decided on a stale snapshot can be. */
  lemma MainStaysTrustedIff(p: Pool, op: Op)
    requires Sound(p) && MainTrusted(p)
    ensures MainTrusted(Apply(p, op)) <==> !(op.Handover? && Retired(p, op.target))
  {
    match op
    case Remove(target) => RemovalKeepsTrust(p, target);
    case Handover(target) => HandoverTrustIff(p, target);
    case Promote(target) => PromotionKeepsTrust(p, target);
    case Rotate(failed, open) => RotationKeepsTrust(p, failed, open);
    case _ =>
  }

  lemma RemovalKeepsTrust(p: Pool, target: string)
    requires MainTrusted(p)
    ensures MainTrusted(OkOr(Removed(p, target), p))
  {
    WithoutKeeps(p, target);
    var q := Without(p, target);
    forall i | 0 <= i < |q| && q[i].isMain ensures !q[i].disqualified {
      assert q[i] in p;
    }
  }

  lemma PromotionKeepsTrust(p: Pool, target: string)
    requires MainTrusted(p)
    ensures MainTrusted(OkOr(Moved(p, target, true), p))
  {
  }

  lemma RotationKeepsTrust(p: Pool, failed: string, open: set<string>)
    requires MainTrusted(p)
    ensures MainTrusted(Rotated(p, failed, open).0)
  {
    var backup := PickHealthy(p, failed, open, true);
    if backup.Some? {
      PromotionKeepsTrust(p, backup.value);
    }
  }

  lemma HandoverTrustIff(p: Pool, target: string)
    requires MainTrusted(p)
    ensures MainTrusted(OkOr(Moved(p, target, false), p)) <==> !Retired(p, target)
  {
    var q := OkOr(Moved(p, target, false), p);
    if Retired(p, target) {
      var i :| 0 <= i < |p| && p[i].sessionId == target && p[i].disqualified;
      assert q[i].isMain && q[i].disqualified;
    } else {
      forall i | 0 <= i < |q| && q[i].isMain ensures !q[i].disqualified {
        assert !(p[i].sessionId == target && p[i].disqualified);
      }
    }
  }

  ghost predicate SafeHandovers(p: Pool, ops: seq<Op>)
    decreases |ops|
  {
    ops == [] ||
    (!(ops[0].Handover? && Retired(p, ops[0].target)) && SafeHandovers(Apply(p, ops[0]), ops[1..]))
  }

  /** Over whole runs: main is never a retired member while handovers target eligible ones. */
  lemma {:induction false} MainIsTrusted(p: Pool, ops: seq<Op>)
    requires Sound(p) && MainTrusted(p) && SafeHandovers(p, ops)
    ensures MainTrusted(Exec(p, ops))
    decreases |ops|
  {
    if ops != [] {
      OpKeepsSound(p, ops[0]);
      MainStaysTrustedIff(p, ops[0]);
      MainIsTrusted(Apply(p, ops[0]), ops[1..]);
    }
  }

  /** Only moving main gives one back to a pool that lost it: a promotion by hand, or a handover. */
  lemma MainReturnsOnlyByMoving(p: Pool, op: Op)
    requires Sound(p) && p != [] && !HasMain(p) && HasMain(Apply(p, op))
    ensures op.Promote? || op.Handover?
  {
    match op
    case Remove(target) => WithoutKeeps(p, target);
    case Rotate(failed, open) => MainIsTheMain(p);
    case _ =>
  }

  /** A pool that lost its main stays without one through any failures, rotations, reinstatements
      and additions. */
  lemma {:induction false} LostMainStaysLost(p: Pool, ops: seq<Op>)
    requires Sound(p) && p != [] && !HasMain(p)
    requires forall op | op in ops :: !op.Promote? && !op.Handover? && !op.Remove? && !op.Delete?
    ensures Exec(p, ops) != [] && !HasMain(Exec(p, ops))
    decreases |ops|
  {
    if ops != [] {
      OpKeepsSound(p, ops[0]);
      if HasMain(Apply(p, ops[0])) {
        MainReturnsOnlyByMoving(p, ops[0]);
      }
      LostMainStaysLost(Apply(p, ops[0]), ops[1..]);
    }
  }

  lemma {:induction false} MainIsTheMain(p: Pool)
    ensures MainOf(p).Some? <==> HasMain(p)
    ensures MainOf(p).Some? ==> MainOf(p).value in p && MainOf(p).value.isMain
  {
    if p != [] && !p[0].isMain {
      MainIsTheMain(p[1..]);
      if HasMain(p[1..]) {
        var i :| 0 <= i < |p[1..]| && p[1..][i].isMain;
        assert p[i + 1].isMain;
      }
      if HasMain(p) {
        var i :| 0 <= i < |p| && p[i].isMain;
        assert p[1..][i - 1].isMain;
      }
    }
  }

  // ---------------------------------------------------------------- picking and rotating

  predicate Pickable(m: PoolMember, exclude: string, open: set<string>, skipMain: bool) {
    m.sessionId != exclude && !m.disqualified && m.sessionId !in open && !(skipMain && m.isMain)
  }

  lemma {:induction false} PickIsFirst(p: Pool, exclude: string, open: set<string>, skipMain: bool)
    ensures var picked := PickHealthy(p, exclude, open, skipMain);
      if picked.None? then forall i | 0 <= i < |p| :: !Pickable(p[i], exclude, open, skipMain)
      else exists i :: 0 <= i < |p| && p[i].sessionId == picked.value && Pickable(p[i], exclude, open, skipMain) &&
                       forall j | 0 <= j < i :: !Pickable(p[j], exclude, open, skipMain)
  {
    if p != [] {
      if Pickable(p[0], exclude, open, skipMain) {
        assert PickHealthy(p, exclude, open, skipMain) == Some(p[0].sessionId);
      } else {
        var rest := p[1..];
        PickIsFirst(rest, exclude, open, skipMain);
        if PickHealthy(rest, exclude, open, skipMain).Some? {
          var i :| 0 <= i < |rest| && rest[i].sessionId == PickHealthy(rest, exclude, open, skipMain).value &&
                   Pickable(rest[i], exclude, open, skipMain) &&
                   forall j | 0 <= j < i :: !Pickable(rest[j], exclude, open, skipMain);
          assert p[i + 1] == rest[i];
          assert forall j | 0 < j < i + 1 :: p[j] == rest[j - 1];
        } else {
          assert forall j | 0 < j < |p| :: p[j] == rest[j - 1];
        }
      }
    }
  }

  /** The pick is the lowest-ranked member that is not the excluded one, has not been retired, whose circuit
      is not open and, on request, that is not main; and there is one if any such member is. */
  lemma PickIsTheLowestRank(p: Pool, exclude: string, open: set<string>, skipMain: bool)
    ensures var picked := PickHealthy(p, exclude, open, skipMain);
      if picked.None? then
        forall i | 0 <= i < |p| ::
          p[i].sessionId == exclude || p[i].disqualified || p[i].sessionId in open || (skipMain && p[i].isMain)
      else
        exists i :: 0 <= i < |p| && p[i].sessionId == picked.value &&
          picked.value != exclude && !p[i].disqualified && picked.value !in open && !(skipMain && p[i].isMain) &&
          forall j | 0 <= j < i ::
            p[j].sessionId == exclude || p[j].disqualified || p[j].sessionId in open || (skipMain && p[j].isMain)
  {
    PickIsFirst(p, exclude, open, skipMain);
  }

  lemma MainSeen(p: Pool, i: int)
    requires Sound(p) && 0 <= i < |p|
    ensures IsMain(p, p[i].sessionId) <==> p[i].isMain
  {
    MainIsTheMain(p);
    if p[i].isMain {
      var j :| 0 <= j < |p| && p[j] == MainOf(p).value;
      assert i == j;
    }
  }

  /** What rotating on a failure does to each member: the failed one is retired and not main; a
      promoted one is main and was not retired; nobody else changes, and nobody is forgiven. */
  lemma RotationOfEachMember(p: Pool, failed: string, open: set<string>, i: int)
    requires Sound(p) && 0 <= i < |p|
    ensures var (q, promoted) := Rotated(p, failed, open);
      |q| == |p| && q[i].sessionId == p[i].sessionId && q[i].rank == p[i].rank &&
      (if p[i].sessionId == failed then q[i].disqualified && !q[i].isMain
       else if promoted == Some(p[i].sessionId) then q[i].isMain && !q[i].disqualified && !p[i].disqualified
       else q[i] == p[i])
  {
    var (q, promoted) := Rotated(p, failed, open);
    MainSeen(p, i);
    MainIsTheMain(p);
    PickIsFirst(p, failed, open, true);
    if promoted.Some? {
      PickedIsMember(p, failed, open, true);
      var b :| 0 <= b < |p| && p[b].sessionId == promoted.value && Pickable(p[b], failed, open, true);
      assert p[i].sessionId == promoted.value ==> i == b;
      assert p[i].isMain ==> p[i].sessionId == failed;
    }
  }

  /** Who is promoted: exactly the lowest-ranked other member that is not retired and whose circuit is not
      open, when it was main that failed. */
  lemma RotationPromotesIff(p: Pool, failed: string, open: set<string>, x: string)
    requires Sound(p)
    ensures Rotated(p, failed, open).1 == Some(x) <==>
      (exists i :: 0 <= i < |p| && p[i].sessionId == failed && p[i].isMain) &&
      exists i :: 0 <= i < |p| && p[i].sessionId == x && x != failed && !p[i].disqualified && x !in open &&
        forall j | 0 <= j < i :: p[j].sessionId == failed || p[j].disqualified || p[j].sessionId in open
  {
    MainFailedIff(p, failed);
    if IsMain(p, failed) {
      forall i | 0 <= i < |p| && p[i].isMain ensures p[i].sessionId == failed {
        MainSeen(p, i);
        MainIsTheMain(p);
      }
      PickedIff(p, failed, open, true, x);
    }
  }

  lemma MainFailedIff(p: Pool, failed: string)
    requires Sound(p)
    ensures IsMain(p, failed) <==> exists i :: 0 <= i < |p| && p[i].sessionId == failed && p[i].isMain
  {
    MainIsTheMain(p);
    if i :| 0 <= i < |p| && p[i].sessionId == failed && p[i].isMain {
      MainSeen(p, i);
    }
    if IsMain(p, failed) {
      var i :| 0 <= i < |p| && p[i] == MainOf(p).value;
      assert p[i].sessionId == failed && p[i].isMain;
    }
  }

  /** Whom a pick finds when the only member it could skip for being main is the excluded one. */
  lemma PickedIff(p: Pool, failed: string, open: set<string>, skipMain: bool, x: string)
    requires Sound(p) && (skipMain ==> forall i | 0 <= i < |p| && p[i].isMain :: p[i].sessionId == failed)
    ensures PickHealthy(p, failed, open, skipMain) == Some(x) <==>
      exists i :: 0 <= i < |p| && p[i].sessionId == x && x != failed && !p[i].disqualified && x !in open &&
        forall j | 0 <= j < i :: p[j].sessionId == failed || p[j].disqualified || p[j].sessionId in open
  {
    PickIsFirst(p, failed, open, skipMain);
    var picked := PickHealthy(p, failed, open, skipMain);
    assert forall i | 0 <= i < |p| :: Pickable(p[i], failed, open, skipMain) <==>
      p[i].sessionId != failed && !p[i].disqualified && p[i].sessionId !in open;
    if i :| 0 <= i < |p| && p[i].sessionId == x && x != failed && !p[i].disqualified && x !in open &&
            forall j | 0 <= j < i :: p[j].sessionId == failed || p[j].disqualified || p[j].sessionId in open
    {
      assert Pickable(p[i], failed, open, skipMain);
      var k :| 0 <= k < |p| && p[k].sessionId == picked.value && Pickable(p[k], failed, open, skipMain) &&
               forall j | 0 <= j < k :: !Pickable(p[j], failed, open, skipMain);
      assert k == i;
    }
  }

  // ---------------------------------------------------------------- failover chains

  /** How the database answers the rotation, and whether the pool can be read again after it. */
  datatype HopFaults = HopFaults(rotate: Call, rereadFails: bool)

  const NO_FAULTS := HopFaults(Answers, false)

  /** failoverPooled: rotate, and when that named nobody, look again for anyone left. The circuits
      are read afresh the second time. A rotation that reports an error ends the hop, done or not. */
  function Hop(p: Pool, failed: string, open: set<string>, openLater: set<string>, f: HopFaults)
    : (Pool, Option<string>)
  {
    if p == [] || f.rotate.Refuses? then (p, None)
    else
      var (q, promoted) := Rotated(p, failed, open);
      if f.rotate.LosesReply? then (q, None)
      else if promoted.Some? then (q, promoted)
      else if f.rereadFails then (q, None)
      else (q, PickHealthy(q, failed, openLater, false))
  }

  /** The sessions that could still carry a message. */
  function Free(p: Pool): set<string> {
    set i | 0 <= i < |p| && !p[i].disqualified :: p[i].sessionId
  }

  datatype Event = Fails(open: set<string>, openLater: set<string>, faults: HopFaults) | Elsewhere(op: Op)

  /** What other messages and health checks may do meanwhile: nothing that forgives a member. */
  predicate Unforgiving(e: Event) {
    e.Elsewhere? ==> e.op.Rotate? || e.op.Handover? || e.op.Disqualify? || e.op.Remove? || e.op.Delete?
  }

  /** One message, the sessions it was sent through so far, and whether it is still going. */
  datatype Chain = Chain(pool: Pool, visited: seq<string>, going: bool)

  function After(c: Chain, e: Event): Chain
    requires c.visited != []
    ensures After(c, e).visited != []
  {
    match e
    case Elsewhere(op) => c.(pool := Apply(c.pool, op))
    case Fails(open, openLater, faults) =>
      if !c.going then c
      else
        var (q, next) := Hop(c.pool, c.visited[|c.visited| - 1], open, openLater, faults);
        if next.Some? then Chain(q, c.visited + [next.value], true) else Chain(q, c.visited, false)
  }

  function Follow(c: Chain, events: seq<Event>): Chain
    requires c.visited != []
    decreases |events|
  {
    if events == [] then c else Follow(After(c, events[0]), events[1..])
  }

  lemma FreeShrinks(p: Pool, op: Op)
    requires Sound(p) && Unforgiving(Elsewhere(op))
    ensures Free(Apply(p, op)) <= Free(p)
  {
    var q := Apply(p, op);
    if op.Remove? {
      WithoutKeeps(p, op.target);
    }
    forall s | s in Free(q) ensures s in Free(p) {
      var i :| 0 <= i < |q| && !q[i].disqualified && q[i].sessionId == s;
      match op {
        case Rotate(failed, open) => RotationOfEachMember(p, failed, open, i);
        case Remove(_) => assert q[i] in p;
        case _ =>
      }
    }
  }

  lemma FailedIsNotFree(p: Pool, failed: string, open: set<string>)
    requires Sound(p)
    ensures failed !in Free(Rotated(p, failed, open).0)
  {
    var q := Rotated(p, failed, open).0;
    forall i | 0 <= i < |q| && q[i].sessionId == failed ensures q[i].disqualified {
      RotationOfEachMember(p, failed, open, i);
    }
  }

  lemma PromotedIsFree(p: Pool, failed: string, open: set<string>)
    requires Sound(p) && Rotated(p, failed, open).1.Some?
    ensures Rotated(p, failed, open).1.value in Free(Rotated(p, failed, open).0)
  {
    var (q, promoted) := Rotated(p, failed, open);
    PickIsFirst(p, failed, open, true);
    var i :| 0 <= i < |p| && p[i].sessionId == promoted.value && Pickable(p[i], failed, open, true);
    RotationOfEachMember(p, failed, open, i);
    assert !q[i].disqualified && q[i].sessionId in Free(q);
  }

  lemma PickedIsFree(q: Pool, failed: string, open: set<string>)
    ensures var picked := PickHealthy(q, failed, open, false); picked.Some? ==> picked.value in Free(q)
  {
    PickIsFirst(q, failed, open, false);
  }

  lemma RotationFrees(p: Pool, failed: string, open: set<string>)
    requires Sound(p)
    ensures var q := Rotated(p, failed, open).0; Sound(q) && Free(q) <= Free(p) && failed !in Free(q)
  {
    RotatedKeepsSound(p, failed, open);
    FreeShrinks(p, Rotate(failed, open));
    FailedIsNotFree(p, failed, open);
    assert Apply(p, Rotate(failed, open)) == Rotated(p, failed, open).0;
  }

  /** Whatever fails on the way, a hop forgives nobody, and when it finds a session it has retired the one
      it leaves and lands on a free one. */
  lemma HopLandsFree(p: Pool, failed: string, open: set<string>, openLater: set<string>, f: HopFaults)
    requires Sound(p)
    ensures var (q, next) := Hop(p, failed, open, openLater, f);
      Sound(q) && Free(q) <= Free(p) &&
      (next.Some? ==>
         failed !in Free(q) && next.value in Free(q) && next.value != failed &&
         next.value !in if Rotated(p, failed, open).1.Some? then open else openLater)
  {
    var (q, next) := Hop(p, failed, open, openLater, f);
    if p == [] || f.rotate.Refuses? {
      assert q == p;
    } else {
      RotationFrees(p, failed, open);
      assert q == Rotated(p, failed, open).0;
      if Rotated(p, failed, open).1.Some? {
        PromotedIsFree(p, failed, open);
        PickIsFirst(p, failed, open, true);
      } else {
        PickedIsFree(q, failed, openLater);
        PickIsFirst(q, failed, openLater, false);
      }
    }
  }

  ghost predicate ChainOk(c: Chain, start: Pool) {
    c.visited != [] && Sound(c.pool) && Free(c.pool) <= Free(start) && Distinct(c.visited) &&
    (forall i | 0 <= i < |c.visited| - 1 :: c.visited[i] !in Free(c.pool)) &&
    (forall i | 0 < i < |c.visited| :: c.visited[i] in Free(start))
  }

  lemma EventKeepsChain(c: Chain, e: Event, start: Pool)
    requires ChainOk(c, start) && Unforgiving(e)
    ensures ChainOk(After(c, e), start)
  {
    match e
    case Elsewhere(op) =>
      OpKeepsSound(c.pool, op);
      FreeShrinks(c.pool, op);
    case Fails(open, openLater, faults) => HopLandsFree(c.pool, c.visited[|c.visited| - 1], open, openLater, faults);
  }

  lemma {:induction false} FollowKeepsChain(c: Chain, events: seq<Event>, start: Pool)
    requires ChainOk(c, start) && forall e | e in events :: Unforgiving(e)
    ensures ChainOk(Follow(c, events), start)
    decreases |events|
  {
    if events != [] {
      EventKeepsChain(c, events[0], start);
      FollowKeepsChain(After(c, events[0]), events[1..], start);
    }
  }

  lemma {:induction false} DistinctInSet(ids: seq<string>, s: set<string>)
    requires Distinct(ids) && forall i | 0 <= i < |ids| :: ids[i] in s
    ensures |ids| <= |s|
  {
    if ids != [] {
      var rest := ids[1..];
      forall i | 0 <= i < |rest| ensures rest[i] in s - {ids[0]} {
        assert rest[i] == ids[i + 1];
      }
      DistinctInSet(rest, s - {ids[0]});
    }
  }

  /** One message failing on session after session, with rotations, handovers, disqualifications
      and removals in between, never visits a session twice and is resent at most once per other
      member that was not retired when it started. */
  lemma FailoverChainsEnd(p: Pool, first: string, events: seq<Event>)
    requires Sound(p) && forall e | e in events :: Unforgiving(e)
    ensures var c := Follow(Chain(p, [first], true), events);
      Distinct(c.visited) && |c.visited| - 1 <= |Free(p) - {first}|
  {
    FollowKeepsChain(Chain(p, [first], true), events, p);
    var c := Follow(Chain(p, [first], true), events);
    StartsWith(Chain(p, [first], true), events);
    assert c.visited[0] == first;
    forall i | 0 <= i < |c.visited[1..]| ensures c.visited[1..][i] in Free(p) - {first} {
      assert c.visited[1..][i] == c.visited[i + 1];
    }
    DistinctInSet(c.visited[1..], Free(p) - {first});
  }

  lemma {:induction false} StartsWith(c: Chain, events: seq<Event>)
    requires c.visited != []
    ensures c.visited <= Follow(c, events).visited
    decreases |events|
  {
    if events != [] {
      StartsWith(After(c, events[0]), events[1..]);
    }
  }

  /** Whom a hop finds, with the circuits unchanged and nothing failing: exactly the lowest-ranked other member
      that is not retired and whose circuit is not open, whether or not it was main that failed. */
  lemma HopFindsIff(p: Pool, failed: string, open: set<string>, x: string)
    requires Sound(p)
    ensures Hop(p, failed, open, open, NO_FAULTS).1 == Some(x) <==>
      exists i :: 0 <= i < |p| && p[i].sessionId == x && x != failed && !p[i].disqualified && x !in open &&
        forall j | 0 <= j < i :: p[j].sessionId == failed || p[j].disqualified || p[j].sessionId in open
  {
    RotationPromotesIff(p, failed, open, x);
    MainFailedIff(p, failed);
    if p != [] && Rotated(p, failed, open).1.None? {
      SecondLook(p, failed, open, x);
    }
  }

  lemma SecondLook(p: Pool, failed: string, open: set<string>, x: string)
    requires Sound(p) && p != [] && Rotated(p, failed, open).1.None?
    ensures PickHealthy(Rotated(p, failed, open).0, failed, open, false) == Some(x) <==>
      exists i :: 0 <= i < |p| && p[i].sessionId == x && x != failed && !p[i].disqualified && x !in open &&
        forall j | 0 <= j < i :: p[j].sessionId == failed || p[j].disqualified || p[j].sessionId in open
  {
    var q := Rotated(p, failed, open).0;
    RotatedKeepsSound(p, failed, open);
    PickedIff(q, failed, open, false, x);
    forall i | 0 <= i < |p|
      ensures |q| == |p| && q[i].sessionId == p[i].sessionId
      ensures p[i].sessionId == failed || q[i].disqualified == p[i].disqualified
    {
      RotationOfEachMember(p, failed, open, i);
    }
  }

  /** And it finds nobody exactly when every other member is retired or has its circuit open. */
  lemma HopGivesUpIff(p: Pool, failed: string, open: set<string>)
    requires Sound(p)
    ensures Hop(p, failed, open, open, NO_FAULTS).1.None? <==>
            forall i | 0 <= i < |p| :: p[i].sessionId == failed || p[i].disqualified || p[i].sessionId in open
  {
    if p != [] {
      var (q, promoted) := Rotated(p, failed, open);
      forall i | 0 <= i < |p|
        ensures promoted.None? ==>
          (Pickable(q[i], failed, open, false) <==>
             p[i].sessionId != failed && !p[i].disqualified && p[i].sessionId !in open)
      {
        RotationOfEachMember(p, failed, open, i);
      }
      PickIsFirst(p, failed, open, true);
      PickIsFirst(q, failed, open, false);
    }
  }

  /** Forgiving breaks it: with one reinstatement a message can come back to where it first failed. */
  lemma ReinstatingReopensTheChain()
    ensures var p := FirstMembers(["a", "b"]);
      var fails := Fails({}, {}, NO_FAULTS);
      var c := Follow(Chain(p, ["a"], true), [fails, Elsewhere(Reinstate("a")), fails]);
      c.visited == ["a", "b", "a"]
  {
    var p := FirstMembers(["a", "b"]);
    var c := Chain(p, ["a"], true);
    var c1 := After(c, Fails({}, {}, NO_FAULTS));
    assert p[0] == PoolMember("a", true, false, 0) && p[1] == PoolMember("b", false, false, 1);
    assert PickHealthy(p, "a", {}, true) == PickHealthy(p[1..], "a", {}, true) == Some("b");
    assert c1.visited == ["a", "b"];
    assert c1.pool == [PoolMember("a", false, true, 0), PoolMember("b", true, false, 1)];
    var c2 := After(c1, Elsewhere(Reinstate("a")));
    assert c2.pool == [PoolMember("a", false, false, 0), PoolMember("b", true, false, 1)];
    var c3 := After(c2, Fails({}, {}, NO_FAULTS));
    assert IsMain(c2.pool, "b") by {
      assert MainOf(c2.pool) == MainOf(c2.pool[1..]);
    }
    assert c3.visited == ["a", "b", "a"];
    assert Follow(c2, [Fails({}, {}, NO_FAULTS)]) == c3;
    assert Follow(c1, [Elsewhere(Reinstate("a")), Fails({}, {}, NO_FAULTS)]) == c3;
  }

  // ---------------------------------------------------------------- what moves a member

  /** What becomes of a member, operation by operation. Promoting retires the main it dethrones and forgives the one it
      crowns; handing over does neither; only a promotion or a reinstatement forgives; main is not removed, and
      a session that is no member moves nobody. */
  lemma MemberAfter(p: Pool, op: Op, i: int)
    requires Sound(p) && 0 <= i < |p|
    ensures var m, q := p[i], Apply(p, op);
      match op
      case Create(_) => q == p
      case Add(_) => m in q
      case Delete => q == []
      case Remove(x) => m in q <==> m.sessionId != x || m.isMain
      case Disqualify(x) => (if m.sessionId == x then m.(isMain := false, disqualified := true) else m) in q
      case Reinstate(x) => (if m.sessionId == x then m.(disqualified := false) else m) in q
      case Promote(x) =>
        (if forall j | 0 <= j < |p| :: p[j].sessionId != x then m
         else if m.sessionId == x then m.(isMain := true, disqualified := false)
         else if m.isMain then m.(isMain := false, disqualified := true) else m) in q
      case Handover(x) =>
        (if forall j | 0 <= j < |p| :: p[j].sessionId != x then m else m.(isMain := m.sessionId == x)) in q
      case Rotate(x, _) => m.sessionId == x ==> m.(isMain := false, disqualified := true) in q
  {
    match op
    case Remove(x) => WithoutExactly(p, x, i);
    case Rotate(x, open) =>
      RotationOfEachMember(p, x, open, i);
      assert Apply(p, op)[i] in Apply(p, op);
    case Disqualify(x) => assert Apply(p, op)[i] in Apply(p, op);
    case Reinstate(x) => assert |Apply(p, op)| == |p| && Apply(p, op)[i] in Apply(p, op);
    case Promote(x) => MovedMemberAfter(p, x, true, i);
    case Handover(x) => MovedMemberAfter(p, x, false, i);
    case _ =>
  }

  lemma MovedMemberAfter(p: Pool, x: string, retire: bool, i: int)
    requires Sound(p) && 0 <= i < |p|
    ensures var m, q := p[i], OkOr(Moved(p, x, retire), p);
      (if forall j | 0 <= j < |p| :: p[j].sessionId != x then m
       else if m.sessionId == x then m.(isMain := true, disqualified := m.disqualified && !retire)
       else if m.isMain then m.(isMain := false, disqualified := m.disqualified || retire) else m) in q
  {
    var q := OkOr(Moved(p, x, retire), p);
    assert |q| == |p| && q[i] in q;
  }

  lemma {:induction false} WithoutExactly(p: Pool, x: string, i: int)
    requires Sound(p) && 0 <= i < |p|
    ensures p[i] in OkOr(Removed(p, x), p) <==> p[i].sessionId != x || p[i].isMain
  {
    WithoutKeeps(p, x);
    if p[i].sessionId == x && !p[i].isMain {
      NotWithout(p, x, p[i]);
    }
  }

  lemma {:induction false} NotWithout(p: Pool, x: string, m: PoolMember)
    requires m.sessionId == x && !m.isMain
    ensures m !in Without(p, x)
  {
    if p != [] {
      NotWithout(p[1..], x, m);
    }
  }

  /** Where a member comes from: a new pool, or an addition, at the next rank and main only if it is the first. */
  lemma MemberBefore(p: Pool, op: Op, k: int)
    requires Sound(p) && 0 <= k < |Apply(p, op)|
    requires forall i | 0 <= i < |p| :: p[i].sessionId != Apply(p, op)[k].sessionId
    ensures var m := Apply(p, op)[k];
      (op == Add(m.sessionId) &&
       m == PoolMember(m.sessionId, p == [], false, if p == [] then 0 else p[|p| - 1].rank + 1)) ||
      (op.Create? && p == [] && k < |op.ids| && m == PoolMember(op.ids[k], k == 0, false, k))
  {
    match op
    case Create(ids) =>
    case Add(x) =>
    case Delete =>
    case Remove(x) => WithoutKeeps(p, x);
    case _ => SameSessions(p, op);
  }

  lemma MovedSessions(p: Pool, x: string, retire: bool)
    ensures var q := OkOr(Moved(p, x, retire), p);
      |q| == |p| && forall i | 0 <= i < |p| :: q[i].sessionId == p[i].sessionId
  {
  }

  /** The operations that move no member in or out. */
  lemma SameSessions(p: Pool, op: Op)
    requires op.Promote? || op.Handover? || op.Disqualify? || op.Reinstate? || op.Rotate?
    ensures var q := Apply(p, op); |q| == |p| && forall i | 0 <= i < |p| :: q[i].sessionId == p[i].sessionId
  {
    match op
    case Promote(x) => MovedSessions(p, x, true);
    case Handover(x) => MovedSessions(p, x, false);
    case Rotate(x, open) =>
      var backup := PickHealthy(p, x, open, true);
      if backup.Some? {
        MovedSessions(p, backup.value, true);
      }
    case _ =>
  }

  /** When a pool is refused, and why. */
  lemma CreatedIff(p: Pool, ids: seq<string>)
    ensures Created(p, ids) == Err(NoSessions) <==> ids == []
    ensures Created(p, ids) == Err(PoolExists) <==> ids != [] && p != []
    ensures Created(p, ids) == Err(DuplicateSession) <==>
      ids != [] && p == [] && exists i, j :: 0 <= i < j < |ids| && ids[i] == ids[j]
    ensures Created(p, ids).Ok? ==>
      |Created(p, ids).value| == |ids| && forall i | 0 <= i < |ids| ::
        Created(p, ids).value[i] == PoolMember(ids[i], i == 0, false, i)
  {
  }

  /** When a removal is refused, and why. */
  lemma RemovedIff(p: Pool, x: string)
    requires Sound(p)
    ensures Removed(p, x) == Err(MainMember) <==> exists i :: 0 <= i < |p| && p[i].sessionId == x && p[i].isMain
    ensures Removed(p, x) == Err(PoolNotFound) <==> forall i | 0 <= i < |p| :: p[i].sessionId != x
    ensures Removed(p, x).Err? ==> Removed(p, x).error == MainMember || Removed(p, x).error == PoolNotFound
  {
  }

  /** Moving main and forgiving are refused exactly for a session that is no member. */
  lemma MovedIff(p: Pool, x: string, retire: bool)
    ensures Moved(p, x, retire).Ok? <==> exists i :: 0 <= i < |p| && p[i].sessionId == x
    ensures Reinstated(p, x).Ok? <==> exists i :: 0 <= i < |p| && p[i].sessionId == x
    ensures Moved(p, x, retire).Err? ==>
      Moved(p, x, retire) == Err(PoolNotFound) && Reinstated(p, x) == Err(PoolNotFound)
  {
  }
}
