/** Sender pools: one main, promotable backups, and members retired after failing
    (wa-shared/store/pools.go). */
module Pools {
  import opened Options

  datatype PoolMember = PoolMember(sessionId: string, isMain: bool, disqualified: bool, rank: int)

  /** One sender's rows in rank order, as the query returns them. */
  type Pool = seq<PoolMember>

  datatype Error = SenderRequired | NoSessions | PoolExists | DuplicateSession | PoolNotFound | MainMember

  predicate HasMember(p: Pool, sessionId: string) {
    exists i :: 0 <= i < |p| && p[i].sessionId == sessionId
  }

  predicate Distinct(ids: seq<string>) {
    forall i, j | 0 <= i < j < |ids| :: ids[i] != ids[j]
  }

  function MainOf(members: Pool): Option<PoolMember> {
    if members == [] then None
    else if members[0].isMain then Some(members[0])
    else MainOf(members[1..])
  }

  predicate IsMain(members: Pool, sessionId: string) {
    MainOf(members).Some? && MainOf(members).value.sessionId == sessionId
  }

  /** open holds the sessions whose circuit is reported open; no circuit information is {}. */
  predicate EligibleToServe(m: PoolMember, exclude: string, open: set<string>) {
    m.sessionId != exclude && !m.disqualified && m.sessionId !in open
  }

  function PickHealthy(members: Pool, exclude: string, open: set<string>, skipMain: bool): Option<string> {
    if members == [] then None
    else if !(skipMain && members[0].isMain) && EligibleToServe(members[0], exclude, open) then
      Some(members[0].sessionId)
    else PickHealthy(members[1..], exclude, open, skipMain)
  }

  // ---------------------------------------------------------------- the statements, on one pool

  function FirstMembers(ids: seq<string>): Pool {
    seq(|ids|, i requires 0 <= i < |ids| => PoolMember(ids[i], i == 0, false, i))
  }

  function Created(p: Pool, ids: seq<string>): Result<Pool, Error> {
    if |ids| == 0 then Err(NoSessions)
    else if p != [] then Err(PoolExists)
    else if !Distinct(ids) then Err(DuplicateSession)
    else Ok(FirstMembers(ids))
  }

  /** Dethrone whoever is main, then crown the new one; retire tells Promote from Handover. */
  function MovedMember(m: PoolMember, target: string, retire: bool): PoolMember {
    var dethroned := if m.isMain then m.(isMain := false, disqualified := m.disqualified || retire) else m;
    if m.sessionId == target
    then dethroned.(isMain := true, disqualified := dethroned.disqualified && !retire) else dethroned
  }

  function Moved(p: Pool, target: string, retire: bool): Result<Pool, Error> {
    if !HasMember(p, target) then Err(PoolNotFound)
    else Ok(seq(|p|, i requires 0 <= i < |p| => MovedMember(p[i], target, retire)))
  }

  function Disqualified(p: Pool, sessionId: string): Pool {
    seq(|p|, i requires 0 <= i < |p| =>
      if p[i].sessionId == sessionId then p[i].(isMain := false, disqualified := true) else p[i])
  }

  function Reinstated(p: Pool, sessionId: string): Result<Pool, Error> {
    if !HasMember(p, sessionId) then Err(PoolNotFound)
    else Ok(seq(|p|, i requires 0 <= i < |p| =>
      if p[i].sessionId == sessionId then p[i].(disqualified := false) else p[i]))
  }

  function NextRank(p: Pool): int {
    if p == [] then 0 else p[|p| - 1].rank + 1
  }

  function Added(p: Pool, sessionId: string): Pool {
    if HasMember(p, sessionId) then p
    else p + [PoolMember(sessionId, NextRank(p) == 0, false, NextRank(p))]
  }

  function Without(p: Pool, sessionId: string): Pool {
    if p == [] then []
    else if p[0].sessionId == sessionId && !p[0].isMain then Without(p[1..], sessionId)
    else [p[0]] + Without(p[1..], sessionId)
  }

  function Removed(p: Pool, sessionId: string): Result<Pool, Error> {
    if exists i :: 0 <= i < |p| && p[i].sessionId == sessionId && !p[i].isMain then Ok(Without(p, sessionId))
    else if HasMember(p, sessionId) then Err(MainMember)
    else Err(PoolNotFound)
  }

  function OkOr(r: Result<Pool, Error>, p: Pool): Pool {
    if r.Ok? then r.value else p
  }

  /** What a failure while serving costs: the pool afterwards, and who was promoted. */
  function Rotated(p: Pool, failed: string, open: set<string>): (Pool, Option<string>) {
    if p == [] then (p, None)
    else
      var backup := PickHealthy(p, failed, open, true);
      if IsMain(p, failed) && backup.Some? then (OkOr(Moved(p, backup.value, true), p), backup)
      else (Disqualified(p, failed), None)
  }

  // ---------------------------------------------------------------- the store

  class PoolStore {
    var pools: map<string, Pool>

    constructor ()
      ensures pools == map[]
    {
      pools := map[];
    }

    /** Empty, not an error, when the sender has no pool. */
    function PoolOf(sender: string): Pool
      reads this
    {
      if sender in pools then pools[sender] else []
    }

    /** Every other sender's pool is as it was. */
    twostate predicate OnlyTouches(sender: string)
      reads this
    {
      forall other | other != sender :: PoolOf(other) == old(PoolOf(other))
    }

    method CreatePool(sender: string, ids: seq<string>) returns (r: Result<(), Error>)
      modifies this
      ensures OnlyTouches(sender)
      ensures sender == "" ==> r == Err(SenderRequired) && PoolOf(sender) == old(PoolOf(sender))
      ensures sender != "" ==>
        var c := Created(old(PoolOf(sender)), ids);
        PoolOf(sender) == OkOr(c, old(PoolOf(sender))) && r.Ok? == c.Ok? && (r.Err? ==> r.error == c.error)
    {
      if sender == "" {
        return Err(SenderRequired);
      }
      if |ids| == 0 {
        return Err(NoSessions);
      }
      if PoolOf(sender) != [] {
        return Err(PoolExists);
      }
      // One transaction: a repeated session id violates the primary key and rolls it back.
      var members: Pool := [];
      for i := 0 to |ids|
        invariant Distinct(ids[..i]) && members == FirstMembers(ids[..i])
      {
        if ids[i] in ids[..i] {
          assert !Distinct(ids);
          return Err(DuplicateSession);
        }
        members := members + [PoolMember(ids[i], i == 0, false, i)];
      }
      assert ids[..|ids|] == ids;
      pools := pools[sender := members];
      return Ok(());
    }

    method MoveMain(sender: string, target: string, retire: bool) returns (r: Result<(), Error>)
      modifies this
      ensures OnlyTouches(sender)
      ensures PoolOf(sender) == OkOr(Moved(old(PoolOf(sender)), target, retire), old(PoolOf(sender)))
      ensures r == if HasMember(old(PoolOf(sender)), target) then Ok(()) else Err(PoolNotFound)
    {
      var p := PoolOf(sender);
      // UPDATE ... WHERE is_main
      var dethroned := seq(|p|, i requires 0 <= i < |p| =>
        if p[i].isMain then p[i].(isMain := false, disqualified := p[i].disqualified || retire) else p[i]);
      // UPDATE ... WHERE session_id = target
      var crowned := seq(|p|, i requires 0 <= i < |p| =>
        if dethroned[i].sessionId == target
        then dethroned[i].(isMain := true, disqualified := dethroned[i].disqualified && !retire) else dethroned[i]);
      if !HasMember(p, target) {
        return Err(PoolNotFound);
      }
      assert crowned == seq(|p|, i requires 0 <= i < |p| => MovedMember(p[i], target, retire));
      pools := pools[sender := crowned];
      return Ok(());
    }

    method Promote(sender: string, target: string) returns (r: Result<(), Error>)
      modifies this
      ensures OnlyTouches(sender)
      ensures PoolOf(sender) == OkOr(Moved(old(PoolOf(sender)), target, true), old(PoolOf(sender)))
      ensures r == if HasMember(old(PoolOf(sender)), target) then Ok(()) else Err(PoolNotFound)
    {
      r := MoveMain(sender, target, true);
    }

    method Handover(sender: string, target: string) returns (r: Result<(), Error>)
      modifies this
      ensures OnlyTouches(sender)
      ensures PoolOf(sender) == OkOr(Moved(old(PoolOf(sender)), target, false), old(PoolOf(sender)))
      ensures r == if HasMember(old(PoolOf(sender)), target) then Ok(()) else Err(PoolNotFound)
    {
      r := MoveMain(sender, target, false);
    }

    method Disqualify(sender: string, sessionId: string)
      modifies this
      ensures OnlyTouches(sender) && PoolOf(sender) == Disqualified(old(PoolOf(sender)), sessionId)
    {
      if sender in pools {
        pools := pools[sender := Disqualified(pools[sender], sessionId)];
      }
    }

    method Reinstate(sender: string, sessionId: string) returns (r: Result<(), Error>)
      modifies this
      ensures OnlyTouches(sender)
      ensures PoolOf(sender) == OkOr(Reinstated(old(PoolOf(sender)), sessionId), old(PoolOf(sender)))
      ensures r == if HasMember(old(PoolOf(sender)), sessionId) then Ok(()) else Err(PoolNotFound)
    {
      var updated := Reinstated(PoolOf(sender), sessionId);
      if updated.Err? {
        return Err(updated.error);
      }
      pools := pools[sender := updated.value];
      return Ok(());
    }

    method AddMember(sender: string, sessionId: string)
      modifies this
      ensures OnlyTouches(sender) && PoolOf(sender) == Added(old(PoolOf(sender)), sessionId)
    {
      var p := PoolOf(sender);
      var nextRank := if p == [] then 0 else p[|p| - 1].rank + 1;
      if !HasMember(p, sessionId) {
        pools := pools[sender := p + [PoolMember(sessionId, nextRank == 0, false, nextRank)]];
      }
    }

    method DeletePool(sender: string)
      modifies this
      ensures OnlyTouches(sender) && PoolOf(sender) == []
    {
      pools := pools - {sender};
    }

    method RemoveMember(sender: string, sessionId: string) returns (r: Result<(), Error>)
      modifies this
      ensures OnlyTouches(sender)
      ensures var c := Removed(old(PoolOf(sender)), sessionId);
        PoolOf(sender) == OkOr(c, old(PoolOf(sender))) && r.Ok? == c.Ok? && (r.Err? ==> r.error == c.error)
    {
      var p := PoolOf(sender);
      if exists i :: 0 <= i < |p| && p[i].sessionId == sessionId && !p[i].isMain {
        pools := pools[sender := Without(p, sessionId)];
        return Ok(());
      }
      return Err(if HasMember(p, sessionId) then MainMember else PoolNotFound);
    }

    method Rotate(sender: string, failed: string, open: set<string>) returns (promotedTo: Option<string>)
      modifies this
      ensures OnlyTouches(sender)
      ensures (PoolOf(sender), promotedTo) == Rotated(old(PoolOf(sender)), failed, open)
    {
      var members := PoolOf(sender);
      if members == [] {
        return None;
      }
      if IsMain(members, failed) {
        var backup := PickHealthy(members, failed, open, true);
        if backup.Some? {
          PickedIsMember(members, failed, open, true);
          var _ := Promote(sender, backup.value);
          return backup;
        }
      }
      Disqualify(sender, failed);
      return None;
    }
  }

  lemma {:induction false} PickedIsMember(members: Pool, exclude: string, open: set<string>, skipMain: bool)
    requires PickHealthy(members, exclude, open, skipMain).Some?
    ensures HasMember(members, PickHealthy(members, exclude, open, skipMain).value)
  {
    if !(!(skipMain && members[0].isMain) && EligibleToServe(members[0], exclude, open)) {
      PickedIsMember(members[1..], exclude, open, skipMain);
      var i :| 0 <= i < |members[1..]| &&
               members[1..][i].sessionId == PickHealthy(members[1..], exclude, open, skipMain).value;
      assert members[i + 1] == members[1..][i];
    }
  }
}
