/** Finding a connected member for a sender whose session is logged out
    (wa-consumer-api/internal/api/pool_routing.go, messages.go). */
module Routing {
  import opened Options
  import opened Pools
  import PoolRuns

  /** What one status probe came back with. */
  datatype Probe = Connected | LoggedOut | Unreadable | OutOfBudget

  /** A status read that failed for its own reasons counts as usable; one cut short does not. */
  predicate Usable(answer: Probe) {
    answer == Connected || answer == Unreadable
  }

  function Candidates(members: Pool, failed: string, open: set<string>): Pool {
    if members == [] then []
    else
      (if EligibleToServe(members[0], failed, open) then [members[0]] else []) + Candidates(members[1..], failed, open)
  }

  predicate Serves(m: PoolMember, failed: string, open: set<string>, answers: string -> Probe) {
    EligibleToServe(m, failed, open) && Usable(answers(m.sessionId))
  }

  /** Asking one member at a time in rank order, and stopping at the first usable answer. */
  function SequentialWalk(members: Pool, failed: string, open: set<string>, answers: string -> Probe): Option<string> {
    if members == [] then None
    else if Serves(members[0], failed, open, answers) then Some(members[0].sessionId)
    else SequentialWalk(members[1..], failed, open, answers)
  }

  /** Every probe has finished: order lists the candidates as their goroutines complete. */
  ghost predicate Completes(order: seq<nat>, n: nat) {
    (forall k | 0 <= k < |order| :: order[k] < n) && forall i: nat | i < n :: i in order
  }

  function FirstUsable(candidates: Pool, answers: string -> Probe): Option<string> {
    if candidates == [] then None
    else if Usable(answers(candidates[0].sessionId)) then Some(candidates[0].sessionId)
    else FirstUsable(candidates[1..], answers)
  }

  lemma {:induction false} WalkSeesTheCandidates(members: Pool, failed: string, open: set<string>,
                                                 answers: string -> Probe)
    ensures SequentialWalk(members, failed, open, answers) == FirstUsable(Candidates(members, failed, open), answers)
  {
    if members != [] {
      WalkSeesTheCandidates(members[1..], failed, open, answers);
      if EligibleToServe(members[0], failed, open) {
        assert Candidates(members, failed, open)[1..] == Candidates(members[1..], failed, open);
      } else {
        assert Candidates(members, failed, open) == Candidates(members[1..], failed, open);
      }
    }
  }

  method CollectCandidates(members: Pool, failed: string, open: set<string>) returns (candidates: Pool)
    ensures candidates == Candidates(members, failed, open)
  {
    candidates := [];
    for i := 0 to |members|
      invariant candidates + Candidates(members[i..], failed, open) == Candidates(members, failed, open)
    {
      assert members[i..][1..] == members[i + 1..];
      if EligibleToServe(members[i], failed, open) {
        candidates := candidates + [members[i]];
      }
    }
    assert members[|members|..] == [];
  }

  /** Each probe marks its own place, as it completes. */
  method ProbeAll(candidates: Pool, answers: string -> Probe, order: seq<nat>) returns (connected: array<bool>)
    requires Completes(order, |candidates|)
    ensures connected.Length == |candidates|
    ensures forall i | 0 <= i < |candidates| ::
      connected[i] <==> answers(candidates[i].sessionId) == Connected || answers(candidates[i].sessionId) == Unreadable
  {
    connected := new bool[|candidates|](_ => false);
    for k := 0 to |order|
      invariant forall i | 0 <= i < |candidates| ::
        connected[i] == (i in order[..k] && Usable(answers(candidates[i].sessionId)))
    {
      var i := order[k];
      assert order[..k + 1] == order[..k] + [i];
      connected[i] := Usable(answers(candidates[i].sessionId));
    }
    assert order[..|order|] == order;
  }

  /** Every candidate is probed at once; whatever order the probes finish in, the result is the
      sequential walk's. */
  method FirstConnectedMember(members: Pool, failed: string, open: set<string>, answers: string -> Probe,
                              order: seq<nat>) returns (r: Option<string>)
    requires Completes(order, |Candidates(members, failed, open)|)
    ensures r == SequentialWalk(members, failed, open, answers)
  {
    WalkSeesTheCandidates(members, failed, open, answers);
    var candidates := CollectCandidates(members, failed, open);
    if |candidates| == 0 {
      return None;
    }
    var connected := ProbeAll(candidates, answers, order);
    assert candidates[0..] == candidates;
    for i := 0 to |candidates|
      invariant FirstUsable(candidates, answers) == FirstUsable(candidates[i..], answers)
    {
      assert candidates[i..][0] == candidates[i] && candidates[i..][1..] == candidates[i + 1..];
      if connected[i] {
        return Some(candidates[i].sessionId);
      }
    }
    return None;
  }

  lemma {:induction false} WalkFindsFirst(members: Pool, failed: string, open: set<string>, answers: string -> Probe)
    ensures var r := SequentialWalk(members, failed, open, answers);
      if r.None? then
        forall i | 0 <= i < |members| :: !Serves(members[i], failed, open, answers)
      else
        exists i :: 0 <= i < |members| && members[i].sessionId == r.value &&
                    Serves(members[i], failed, open, answers) &&
                    forall j | 0 <= j < i :: !Serves(members[j], failed, open, answers)
  {
    if members != [] {
      var rest := members[1..];
      assert forall j | 0 < j < |members| :: members[j] == rest[j - 1];
      WalkFindsFirst(rest, failed, open, answers);
      var r := SequentialWalk(rest, failed, open, answers);
      if !Serves(members[0], failed, open, answers) && r.Some? {
        var i :| 0 <= i < |rest| && rest[i].sessionId == r.value && Serves(rest[i], failed, open, answers) &&
                 forall j | 0 <= j < i :: !Serves(rest[j], failed, open, answers);
        assert members[i + 1] == rest[i];
      }
    }
  }

  /** The walk passes over a member that is the failed one, is retired, has its circuit open, was answered to be
      logged out, or could not be asked in time; it answers the lowest-ranked of the others, if any. */
  lemma WalkFindsTheLowestRank(members: Pool, failed: string, open: set<string>, answers: string -> Probe)
    ensures var r := SequentialWalk(members, failed, open, answers);
      if r.None? then
        forall i | 0 <= i < |members| ::
          members[i].sessionId == failed || members[i].disqualified || members[i].sessionId in open ||
          answers(members[i].sessionId) == LoggedOut || answers(members[i].sessionId) == OutOfBudget
      else
        r.value != failed && r.value !in open &&
        (answers(r.value) == Connected || answers(r.value) == Unreadable) &&
        exists i :: 0 <= i < |members| && members[i].sessionId == r.value && !members[i].disqualified &&
          forall j | 0 <= j < i ::
            members[j].sessionId == failed || members[j].disqualified || members[j].sessionId in open ||
            answers(members[j].sessionId) == LoggedOut || answers(members[j].sessionId) == OutOfBudget
  {
    WalkFindsFirst(members, failed, open, answers);
    forall i | 0 <= i < |members|
      ensures Serves(members[i], failed, open, answers) <==>
        !(members[i].sessionId == failed || members[i].disqualified || members[i].sessionId in open ||
          answers(members[i].sessionId) == LoggedOut || answers(members[i].sessionId) == OutOfBudget)
    {
      match answers(members[i].sessionId)
      case _ =>
    }
  }

  /** The pool after a health-driven rotation decided on a snapshot of its members. */
  function HandedOver(p: Pool, snapshot: Pool, failed: string, next: Option<string>, handover: Call): Pool {
    if next.Some? && IsMain(snapshot, failed) && handover.Applies() then OkOr(Moved(p, next.value, false), p) else p
  }

  method RotateToConnectedMember(store: PoolStore, sender: string, failed: string, members: Pool, open: set<string>,
                                 answers: string -> Probe, order: seq<nat>, handover: Call) returns (r: Option<string>)
    requires Completes(order, |Candidates(members, failed, open)|)
    modifies store
    ensures store.OnlyTouches(sender)
    ensures var next := SequentialWalk(members, failed, open, answers);
      store.PoolOf(sender) == HandedOver(old(store.PoolOf(sender)), members, failed, next, handover) &&
      r ==
        if next.Some? && IsMain(members, failed) &&
           !(handover.Answers? && HasMember(old(store.PoolOf(sender)), next.value))
        then None else next
  {
    var next := FirstConnectedMember(members, failed, open, answers, order);
    if next.None? {
      return None;
    }
    if !IsMain(members, failed) {
      return next;
    }
    if handover.Refuses? {
      return None;
    }
    var moved := store.Handover(sender, next.value);
    if moved.Err? || handover.LosesReply? {
      return None;
    }
    return next;
  }

  /** The health-driven path retires nobody and forgives nobody: it moves main, or does nothing,
      even when the snapshot it decided on is stale. */
  lemma HealthPathKeepsVerdicts(p: Pool, snapshot: Pool, failed: string, open: set<string>, answers: string -> Probe,
                                handover: Call)
    ensures var next := SequentialWalk(snapshot, failed, open, answers);
      var q := HandedOver(p, snapshot, failed, next, handover);
      |q| == |p| && (handover.Refuses? ==> q == p) &&
      forall i | 0 <= i < |p| ::
        q[i].sessionId == p[i].sessionId && q[i].rank == p[i].rank && q[i].disqualified == p[i].disqualified &&
        (q[i].isMain != p[i].isMain ==> IsMain(snapshot, failed) && next.Some?)
  {
  }

  /** Decided on the pool as it is, a handover that takes effect leaves exactly one main: the member the send goes
      to, which is neither the failed one nor a retired one. */
  lemma FreshHandoverCrownsTheWalked(p: Pool, failed: string, open: set<string>, answers: string -> Probe,
                                     handover: Call)
    requires handover.Applies() && PoolRuns.Sound(p) && PoolRuns.MainTrusted(p) && IsMain(p, failed)
    requires SequentialWalk(p, failed, open, answers).Some?
    ensures var next := SequentialWalk(p, failed, open, answers);
      var q := HandedOver(p, p, failed, next, handover);
      PoolRuns.Sound(q) && PoolRuns.MainTrusted(q) && IsMain(q, next.value) && next.value != failed
  {
    var next := SequentialWalk(p, failed, open, answers).value;
    WalkFindsFirst(p, failed, open, answers);
    var i :| 0 <= i < |p| && p[i].sessionId == next && Serves(p[i], failed, open, answers);
    HandoverCrowns(p, i);
  }

  /** Decided on a stale snapshot it can crown a retired member: the walk picks a backup, the backup is
      disqualified for a failure of its own, and the handover then moves main to it. */
  lemma StaleHandoverCrownsTheRetired(a: string, b: string)
    requires a != b
    ensures var snapshot := FirstMembers([a, b]);
      var next := SequentialWalk(snapshot, a, {}, _ => Connected);
      var p := PoolRuns.Apply(snapshot, PoolRuns.Disqualify(b));
      next == Some(b) && PoolRuns.MainTrusted(p) &&
      HandedOver(p, snapshot, a, next, Answers) == [PoolMember(a, false, false, 0), PoolMember(b, true, true, 1)]
  {
    var snapshot := FirstMembers([a, b]);
    assert snapshot == [PoolMember(a, true, false, 0), PoolMember(b, false, false, 1)];
    assert SequentialWalk(snapshot, a, {}, _ => Connected) == SequentialWalk(snapshot[1..], a, {}, _ => Connected);
    var p := PoolRuns.Apply(snapshot, PoolRuns.Disqualify(b));
    assert p == [PoolMember(a, true, false, 0), PoolMember(b, false, true, 1)];
    assert p[1].sessionId == b;
  }

  lemma HandoverCrowns(p: Pool, i: int)
    requires PoolRuns.Sound(p) && PoolRuns.MainTrusted(p) && 0 <= i < |p| && !p[i].disqualified
    ensures var q := OkOr(Moved(p, p[i].sessionId, false), p);
      PoolRuns.Sound(q) && PoolRuns.MainTrusted(q) && IsMain(q, p[i].sessionId)
  {
    var op := PoolRuns.Handover(p[i].sessionId);
    PoolRuns.OpKeepsSound(p, op);
    assert !PoolRuns.Retired(p, p[i].sessionId);
    PoolRuns.MainStaysTrustedIff(p, op);
    PoolRuns.MainSeen(PoolRuns.Apply(p, op), i);
  }
}
