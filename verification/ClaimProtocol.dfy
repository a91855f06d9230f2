/** Requests racing under one Idempotency-Key: underIdempotency of
    wa-consumer-api/internal/api/messages.go, interleaved one SQL statement at a time,
    with a clock, a purge, statements whose outcome is lost, and processes that die. */
module ClaimProtocol {
  import opened Options
  import opened Idempotency

  /** What a request that is turned away is told. */
  datatype Refusal =
    | KeyReused       // the key was used for a different message
    | StillRunning    // an earlier request is still being processed; retry with the same key
    | StoreFailed     // the claim statement failed

  /** Where a request stands between two statements. */
  datatype Phase =
    | Arrived
    | Working
    | Answering(response: Response)   // work() succeeded, the record is next
    | Withdrawing                     // work() failed, the release is next
    | Replayed(response: Response)
    | TurnedAway(why: Refusal)
    | Delivered(response: Response, stored: bool)
    | Withdrawn
    | Crashed

  /** started: its claim succeeded, so work() ran or is running. */
  datatype Request = Request(slot: Slot, hash: string, started: bool, claimedAt: int, phase: Phase)

  /** Request number i claims under claim id i, which makes claim ids fresh. */
  datatype State = State(now: int, rows: Table, requests: seq<Request>)

  datatype Step =
    | Tick(elapsed: nat)
    | Arrive(slot: Slot, hash: string)
    | Claim(i: nat)
    | Work(i: nat, produced: Option<Response>)
    | Record(i: nat)
    | Release(i: nat)
    | Purge
    // The statement failed from the caller's side, whether or not the database applied it.
    | ClaimFault(i: nat, applied: bool)
    | RecordFault(i: nat, applied: bool)
    | ReleaseFault(i: nat, applied: bool)
    | Crash(i: nat)

  const INIT := State(0, map[], [])

  predicate Enabled(s: State, step: Step) {
    match step
    case Tick(_) => true
    case Arrive(_, _) => true
    case Purge => true
    case Claim(i) => i < |s.requests| && s.requests[i].phase.Arrived?
    case ClaimFault(i, _) => i < |s.requests| && s.requests[i].phase.Arrived?
    case Work(i, _) => i < |s.requests| && s.requests[i].phase.Working?
    case Record(i) => i < |s.requests| && s.requests[i].phase.Answering?
    case RecordFault(i, _) => i < |s.requests| && s.requests[i].phase.Answering?
    case Release(i) => i < |s.requests| && s.requests[i].phase.Withdrawing?
    case ReleaseFault(i, _) => i < |s.requests| && s.requests[i].phase.Withdrawing?
    case Crash(i) =>
      i < |s.requests| &&
      var p := s.requests[i].phase; p.Arrived? || p.Working? || p.Answering? || p.Withdrawing?
  }

  function Claiming(r: Request, i: nat, s: State): Request {
    match ClaimVerdict(s.rows, r.slot, r.hash, i, s.now)
    case Claimed(_) => r.(started := true, claimedAt := s.now, phase := Working)
    case Replay(response) => r.(phase := Replayed(response))
    case Conflict => r.(phase := TurnedAway(KeyReused))
    case InFlight => r.(phase := TurnedAway(StillRunning))
  }

  /** A step that is not enabled changes nothing. */
  function Apply(s: State, step: Step): State {
    if !Enabled(s, step) then s else
    match step
    case Tick(elapsed) => s.(now := s.now + elapsed)
    case Arrive(slot, hash) => s.(requests := s.requests + [Request(slot, hash, false, s.now, Arrived)])
    case Purge => s.(rows := AfterPurge(s.rows, RETENTION, s.now))
    case Claim(i) =>
      var r := s.requests[i];
      State(s.now, AfterClaim(s.rows, r.slot, r.hash, i, s.now), s.requests[i := Claiming(r, i, s)])
    case ClaimFault(i, applied) =>
      var r := s.requests[i];
      State(s.now,
            if applied then AfterClaim(s.rows, r.slot, r.hash, i, s.now) else s.rows,
            s.requests[i := r.(claimedAt := s.now, phase := TurnedAway(StoreFailed))])
    case Work(i, produced) =>
      var next := if produced.Some? then Answering(produced.value) else Withdrawing;
      s.(requests := s.requests[i := s.requests[i].(phase := next)])
    case Record(i) => Recording(s, i, true)
    case RecordFault(i, applied) => Recording(s, i, applied)
    case Release(i) => Releasing(s, i, true)
    case ReleaseFault(i, applied) => Releasing(s, i, applied)
    case Crash(i) => s.(requests := s.requests[i := s.requests[i].(phase := Crashed)])
  }

  /** Either way the caller is answered with its own response. */
  function Recording(s: State, i: nat, applied: bool): State
    requires i < |s.requests| && s.requests[i].phase.Answering?
  {
    var r := s.requests[i];
    var response := r.phase.response;
    State(s.now,
          if applied then AfterRecord(s.rows, r.slot, i, response) else s.rows,
          s.requests[i := r.(phase := Delivered(response, applied && HeldBy(s.rows, r.slot, i)))])
  }

  function Releasing(s: State, i: nat, applied: bool): State
    requires i < |s.requests| && s.requests[i].phase.Withdrawing?
  {
    var r := s.requests[i];
    State(s.now,
          if applied then AfterRelease(s.rows, r.slot, i) else s.rows,
          s.requests[i := r.(phase := Withdrawn)])
  }

  function Exec(s: State, steps: seq<Step>): State
    decreases |steps|
  {
    if steps == [] then s else Exec(Apply(s, steps[0]), steps[1..])
  }

  // ---------------------------------------------------------------- the invariant

  predicate Holds(s: State, i: nat) {
    i < |s.requests| && HeldBy(s.rows, s.requests[i].slot, i)
  }

  /** Work under this claim was started and never given up. */
  predicate Unreleased(s: State, i: nat) {
    i < |s.requests| && s.requests[i].started && !s.requests[i].phase.Withdrawn?
  }

  predicate Stored(s: State, i: nat) {
    i < |s.requests| && s.requests[i].phase.Delivered? && s.requests[i].phase.stored
  }

  predicate SameSlot(s: State, i: nat, j: nat) {
    i < |s.requests| && j < |s.requests| && s.requests[i].slot == s.requests[j].slot
  }

  predicate RecordedBy(s: State, i: nat, slot: Slot, hash: string, response: Response) {
    i < |s.requests| && s.requests[i].slot == slot && s.requests[i].hash == hash &&
    s.requests[i].phase == Delivered(response, true)
  }

  /** A row belongs to the request whose claim id it carries. */
  predicate RowOwned(s: State, k: Slot)
    requires k in s.rows
  {
    var row := s.rows[k];
    var i := row.claimId;
    i < |s.requests| && s.requests[i].slot == k && s.requests[i].hash == row.requestHash &&
    s.requests[i].claimedAt == row.createdAt && !s.requests[i].phase.Arrived? &&
    (row.response.Some? ==> s.requests[i].phase == Delivered(row.response.value, true))
  }

  ghost predicate RowsOwned(s: State) {
    forall k | k in s.rows :: RowOwned(s, k)
  }

  ghost predicate Phased(s: State) {
    forall i | 0 <= i < |s.requests| ::
      var r := s.requests[i];
      r.claimedAt <= s.now &&
      (r.phase.Arrived? || r.phase.Replayed? || r.phase.TurnedAway? ==> !r.started) &&
      (r.phase.Working? || r.phase.Answering? || r.phase.Withdrawing? || r.phase.Delivered? ==> r.started)
  }

  /** A request that has lost the row has outlived its lease. */
  ghost predicate Leased(s: State) {
    forall i: nat | Unreleased(s, i) && !Holds(s, i) :: s.now > s.requests[i].claimedAt + IN_FLIGHT_TIMEOUT
  }

  ghost predicate Kept(s: State) {
    forall i: nat | Stored(s, i) && !Holds(s, i) :: s.now > s.requests[i].claimedAt + RETENTION
  }

  ghost predicate StoredRows(s: State) {
    forall i: nat | Stored(s, i) && Holds(s, i) ::
      s.rows[s.requests[i].slot].response == Some(s.requests[i].phase.response)
  }

  ghost predicate Latest(s: State) {
    forall i: nat, j: nat | Holds(s, i) && SameSlot(s, i, j) && s.requests[j].started ::
      s.requests[j].claimedAt <= s.requests[i].claimedAt
  }

  ghost predicate Spaced(s: State) {
    forall i: nat, j: nat | Unreleased(s, i) && Unreleased(s, j) && i != j && SameSlot(s, i, j) ::
      s.requests[i].claimedAt + IN_FLIGHT_TIMEOUT < s.requests[j].claimedAt ||
      s.requests[j].claimedAt + IN_FLIGHT_TIMEOUT < s.requests[i].claimedAt
  }

  ghost predicate Protected(s: State) {
    forall i: nat, j: nat | Stored(s, i) && i != j && SameSlot(s, i, j) && s.requests[j].started ::
      s.requests[j].claimedAt <= s.requests[i].claimedAt ||
      s.requests[i].claimedAt + RETENTION < s.requests[j].claimedAt
  }

  ghost predicate ReplaysSourced(s: State) {
    forall q | 0 <= q < |s.requests| && s.requests[q].phase.Replayed? ::
      exists i: nat :: RecordedBy(s, i, s.requests[q].slot, s.requests[q].hash, s.requests[q].phase.response)
  }

  ghost predicate Inv(s: State) {
    RowsOwned(s) && Phased(s) && Leased(s) && Kept(s) && StoredRows(s) && Latest(s) && Spaced(s) && Protected(s) &&
    ReplaysSourced(s)
  }

  /** Requests never change slot or hash, a started one keeps its claim time, and a finished one stays as it is. */
  lemma StepKeepsRequests(s: State, step: Step)
    requires Phased(s)
    ensures var t := Apply(s, step);
      |s.requests| <= |t.requests| && s.now <= t.now &&
      forall i | 0 <= i < |s.requests| ::
        t.requests[i].slot == s.requests[i].slot && t.requests[i].hash == s.requests[i].hash &&
        (s.requests[i].started ==> t.requests[i].started && t.requests[i].claimedAt == s.requests[i].claimedAt) &&
        (s.requests[i].phase.Delivered? || s.requests[i].phase.Replayed? ==> t.requests[i] == s.requests[i])
  {
  }

  /** How a row comes to be what it is after a step: left alone, claimed, or recorded. */
  lemma RowAfter(s: State, step: Step, k: Slot)
    requires Inv(s) && k in Apply(s, step).rows
    ensures var row := Apply(s, step).rows[k];
      (k in s.rows && row == s.rows[k]) ||
      (Enabled(s, step) && (step == Claim(row.claimId) || step == ClaimFault(row.claimId, true)) &&
       k == s.requests[row.claimId].slot && Claimable(s.rows, k, s.now) &&
       row == Row(s.requests[row.claimId].hash, row.claimId, s.now, None)) ||
      (Enabled(s, step) && (step == Record(row.claimId) || step == RecordFault(row.claimId, true)) &&
       k in s.rows && k == s.requests[row.claimId].slot && s.rows[k].claimId == row.claimId &&
       row == s.rows[k].(response := Some(s.requests[row.claimId].phase.response)))
  {
  }

  lemma KeepsRowsOwned(s: State, step: Step)
    requires Inv(s)
    ensures RowsOwned(Apply(s, step))
  {
    var t := Apply(s, step);
    forall k | k in t.rows ensures RowOwned(t, k) {
      RowAfter(s, step, k);
      if k in s.rows {
        assert RowOwned(s, k);
        if t.rows[k] == s.rows[k] {
          StepKeepsRequests(s, step);
          OwnerMovesOn(s, step, s.rows[k].claimId);
        }
      }
    }
  }

  lemma OwnerMovesOn(s: State, step: Step, i: nat)
    requires i < |s.requests| && !s.requests[i].phase.Arrived?
    ensures var t := Apply(s, step);
      !t.requests[i].phase.Arrived? && t.requests[i].claimedAt == s.requests[i].claimedAt
  {
  }

  lemma KeepsPhased(s: State, step: Step)
    requires Inv(s)
    ensures Phased(Apply(s, step))
  {
  }

  lemma KeepsLeased(s: State, step: Step)
    requires Inv(s)
    ensures Leased(Apply(s, step))
  {
    forall i: nat | Unreleased(Apply(s, step), i) && !Holds(Apply(s, step), i)
      ensures Apply(s, step).now > Apply(s, step).requests[i].claimedAt + IN_FLIGHT_TIMEOUT
    {
      LeasedAt(s, step, i);
    }
  }

  lemma LeasedAt(s: State, step: Step, i: nat)
    requires Inv(s)
    ensures var t := Apply(s, step);
      Unreleased(t, i) && !Holds(t, i) ==> t.now > t.requests[i].claimedAt + IN_FLIGHT_TIMEOUT
  {
  }

  lemma KeepsKept(s: State, step: Step)
    requires Inv(s)
    ensures Kept(Apply(s, step))
  {
    forall i: nat | Stored(Apply(s, step), i) && !Holds(Apply(s, step), i)
      ensures Apply(s, step).now > Apply(s, step).requests[i].claimedAt + RETENTION
    {
      KeptAt(s, step, i);
    }
  }

  lemma KeptAt(s: State, step: Step, i: nat)
    requires Inv(s)
    ensures var t := Apply(s, step); Stored(t, i) && !Holds(t, i) ==> t.now > t.requests[i].claimedAt + RETENTION
  {
    StepKeepsRequests(s, step);
    if Stored(Apply(s, step), i) {
      StoredAfter(s, step, i);
      if Stored(s, i) && Holds(s, i) {
        StoredRowLeaves(s, step, i);
      }
    }
  }

  /** A row with a response goes only by a purge past the retention. */
  lemma StoredRowLeaves(s: State, step: Step, i: nat)
    requires Inv(s) && Stored(s, i) && Holds(s, i)
    ensures Holds(Apply(s, step), i) || Apply(s, step).now > s.requests[i].claimedAt + RETENTION
  {
    var k := s.requests[i].slot;
    assert s.rows[k].response.Some?;
    assert RowOwned(s, k);
  }

  lemma KeepsStoredRows(s: State, step: Step)
    requires Inv(s)
    ensures StoredRows(Apply(s, step))
  {
    var t := Apply(s, step);
    forall i: nat | Stored(t, i) && Holds(t, i)
      ensures t.rows[t.requests[i].slot].response == Some(t.requests[i].phase.response)
    {
      StoredRowAt(s, step, i);
    }
  }

  lemma StoredRowAt(s: State, step: Step, i: nat)
    requires Inv(s)
    ensures var t := Apply(s, step);
      Stored(t, i) && Holds(t, i) ==> t.rows[t.requests[i].slot].response == Some(t.requests[i].phase.response)
  {
  }

  /** Only a claim moves a row to another request, and then it is the newest claim. */
  lemma HoldsAfter(s: State, step: Step, i: nat)
    requires Inv(s) && Holds(Apply(s, step), i)
    ensures Holds(s, i) ||
            ((step == Claim(i) || step == ClaimFault(i, true)) && Enabled(s, step) &&
             Apply(s, step).requests[i].claimedAt == s.now)
  {
  }

  lemma KeepsLatest(s: State, step: Step)
    requires Inv(s)
    ensures Latest(Apply(s, step))
  {
    var t := Apply(s, step);
    forall i: nat, j: nat | Holds(t, i) && SameSlot(t, i, j) && t.requests[j].started
      ensures t.requests[j].claimedAt <= t.requests[i].claimedAt
    {
      LatestAt(s, step, i, j);
    }
  }

  lemma LatestAt(s: State, step: Step, i: nat, j: nat)
    requires Inv(s)
    requires var t := Apply(s, step); Holds(t, i) && SameSlot(t, i, j) && t.requests[j].started
    ensures var t := Apply(s, step); t.requests[j].claimedAt <= t.requests[i].claimedAt
  {
    HoldsAfter(s, step, i);
    StartedAfter(s, step, j);
    if !s.requests[j].started {
      ClaimHolds(s, j);
    } else if Holds(s, i) {
      HolderStaysLatest(s, step, i, j);
    } else {
      StepKeepsRequests(s, step);
      assert s.requests[j].claimedAt <= s.now;
    }
  }

  lemma ClaimHolds(s: State, j: nat)
    requires Enabled(s, Claim(j)) && Claimable(s.rows, s.requests[j].slot, s.now)
    ensures Holds(Apply(s, Claim(j)), j)
  {
  }

  lemma HolderStaysLatest(s: State, step: Step, i: nat, j: nat)
    requires Inv(s) && Holds(s, i) && j < |s.requests| && s.requests[j].started
    requires SameSlot(Apply(s, step), i, j)
    ensures var t := Apply(s, step); t.requests[j].claimedAt <= t.requests[i].claimedAt
  {
    StepKeepsRequests(s, step);
    assert SameSlot(s, i, j);
    assert RowOwned(s, s.requests[i].slot);
    OwnerMovesOn(s, step, i);
  }

  lemma KeepsSpaced(s: State, step: Step)
    requires Inv(s)
    ensures Spaced(Apply(s, step))
  {
    var t := Apply(s, step);
    StepKeepsRequests(s, step);
    forall i: nat, j: nat | Unreleased(t, i) && Unreleased(t, j) && i != j && SameSlot(t, i, j)
      ensures t.requests[i].claimedAt + IN_FLIGHT_TIMEOUT < t.requests[j].claimedAt ||
              t.requests[j].claimedAt + IN_FLIGHT_TIMEOUT < t.requests[i].claimedAt
    {
      StartedAfter(s, step, i);
      StartedAfter(s, step, j);
      assert SameSlot(s, i, j);
    }
  }

  /** A request becomes stored only while it holds the row. */
  lemma StoredAfter(s: State, step: Step, i: nat)
    requires Inv(s) && Stored(Apply(s, step), i)
    ensures i < |s.requests| && s.requests[i].started
    ensures Stored(s, i) || (Holds(s, i) && Holds(Apply(s, step), i))
  {
  }

  /** A request starts only by claiming now, and a claim is free only if the row's owner lost it. */
  lemma StartedAfter(s: State, step: Step, j: nat)
    requires Inv(s)
    requires var t := Apply(s, step); j < |t.requests| && t.requests[j].started
    ensures j < |s.requests|
    ensures s.requests[j].started ||
            (step == Claim(j) && Enabled(s, step) && Claimable(s.rows, s.requests[j].slot, s.now) &&
             Apply(s, step).requests[j].claimedAt == s.now)
  {
  }

  lemma KeepsProtected(s: State, step: Step)
    requires Inv(s)
    ensures Protected(Apply(s, step))
  {
    var t := Apply(s, step);
    forall i: nat, j: nat | Stored(t, i) && i != j && SameSlot(t, i, j) && t.requests[j].started
      ensures t.requests[j].claimedAt <= t.requests[i].claimedAt ||
              t.requests[i].claimedAt + RETENTION < t.requests[j].claimedAt
    {
      StoredAfter(s, step, i);
      StartedAfter(s, step, j);
      StepKeepsRequests(s, step);
      assert SameSlot(s, i, j);
    }
  }

  lemma KeepsReplaysSourced(s: State, step: Step)
    requires Inv(s)
    ensures ReplaysSourced(Apply(s, step))
  {
    var t := Apply(s, step);
    StepKeepsRequests(s, step);
    forall q | 0 <= q < |t.requests| && t.requests[q].phase.Replayed?
      ensures exists i: nat :: RecordedBy(t, i, t.requests[q].slot, t.requests[q].hash, t.requests[q].phase.response)
    {
      var r := t.requests[q];
      if q < |s.requests| && s.requests[q].phase.Replayed? {
        var i: nat :| RecordedBy(s, i, r.slot, r.hash, r.phase.response);
        assert RecordedBy(t, i, r.slot, r.hash, r.phase.response);
      } else {
        assert step == Claim(q) && RowOwned(s, r.slot);
        assert RecordedBy(t, s.rows[r.slot].claimId, r.slot, r.hash, r.phase.response);
      }
    }
  }

  lemma StepKeepsInv(s: State, step: Step)
    requires Inv(s)
    ensures Inv(Apply(s, step))
  {
    KeepsRowsOwned(s, step);
    KeepsPhased(s, step);
    KeepsLeased(s, step);
    KeepsKept(s, step);
    KeepsStoredRows(s, step);
    KeepsLatest(s, step);
    KeepsSpaced(s, step);
    KeepsProtected(s, step);
    KeepsReplaysSourced(s, step);
  }

  lemma {:induction false} ExecKeepsInv(s: State, steps: seq<Step>)
    requires Inv(s)
    ensures Inv(Exec(s, steps))
    decreases |steps|
  {
    if steps != [] {
      StepKeepsInv(s, steps[0]);
      ExecKeepsInv(Apply(s, steps[0]), steps[1..]);
    }
  }

  lemma Reachable(steps: seq<Step>)
    ensures Inv(Exec(INIT, steps))
  {
    ExecKeepsInv(INIT, steps);
  }

  // ---------------------------------------------------------------- over whole runs

  predicate HasResponse(s: State, k: Slot) {
    k in s.rows && s.rows[k].response.Some?
  }

  lemma StepKeepsResponse(s: State, step: Step, k: Slot)
    requires Inv(s) && HasResponse(s, k)
    ensures var t := Apply(s, step);
      s.now <= t.now &&
      (s.now <= s.rows[k].createdAt + RETENTION ==> k in t.rows && t.rows[k] == s.rows[k])
  {
    assert RowOwned(s, k);
  }

  lemma {:induction false} ExecKeepsResponse(s: State, steps: seq<Step>, k: Slot)
    requires Inv(s) && HasResponse(s, k)
    ensures var t := Exec(s, steps);
      s.now <= t.now &&
      (t.now <= s.rows[k].createdAt + RETENTION ==> k in t.rows && t.rows[k] == s.rows[k])
    decreases |steps|
  {
    if steps != [] {
      StepKeepsResponse(s, steps[0], k);
      StepKeepsInv(s, steps[0]);
      var t := Apply(s, steps[0]);
      if k in t.rows && t.rows[k] == s.rows[k] {
        ExecKeepsResponse(t, steps[1..], k);
      } else {
        ClockRuns(t, steps[1..]);
      }
    }
  }

  lemma {:induction false} ClockRuns(s: State, steps: seq<Step>)
    ensures s.now <= Exec(s, steps).now
    decreases |steps|
  {
    if steps != [] {
      ClockRuns(Apply(s, steps[0]), steps[1..]);
    }
  }

  /** Once a response is recorded under a key, nothing any request does changes the row; only a
      purge more than RETENTION after the claim removes it. */
  lemma RecordedResponseIsStable(before: seq<Step>, after: seq<Step>, k: Slot)
    requires HasResponse(Exec(INIT, before), k)
    ensures var s := Exec(INIT, before);
      var t := Exec(s, after);
      t.now <= s.rows[k].createdAt + RETENTION ==> k in t.rows && t.rows[k] == s.rows[k]
  {
    Reachable(before);
    ExecKeepsResponse(Exec(INIT, before), after, k);
  }

  /** A replay carries exactly the response another request with the same key and the same body
      hash wrote into the row. */
  lemma ReplayIsTheRecordedResponse(steps: seq<Step>, q: nat)
    requires var s := Exec(INIT, steps); q < |s.requests| && s.requests[q].phase.Replayed?
    ensures var s := Exec(INIT, steps);
      exists i: nat :: i != q && RecordedBy(s, i, s.requests[q].slot, s.requests[q].hash, s.requests[q].phase.response)
  {
    Reachable(steps);
  }

  /** While a response stands, every later request under the key is answered by it: replayed on
      the same body, refused on another one, never started. */
  lemma RecordedKeyNeverStartsWork(before: seq<Step>, after: seq<Step>, k: Slot, q: nat)
    requires HasResponse(Exec(INIT, before), k)
    requires var s := Exec(INIT, before); var t := Exec(s, after);
      t.now <= s.rows[k].createdAt + RETENTION &&
      q < |t.requests| && t.requests[q].phase.Arrived? && t.requests[q].slot == k
    ensures var s := Exec(INIT, before); var t := Exec(s, after);
      Apply(t, Claim(q)).requests[q].phase ==
        (if t.requests[q].hash == s.rows[k].requestHash then Replayed(s.rows[k].response.value)
         else TurnedAway(KeyReused))
  {
    RecordedResponseIsStable(before, after, k);
  }

  /** Two requests that both started work under one key and did not give it up claimed it more
      than the in-flight timeout apart. */
  lemma WorkersAreSpaced(steps: seq<Step>, i: nat, j: nat)
    requires var s := Exec(INIT, steps); Unreleased(s, i) && Unreleased(s, j) && i != j && SameSlot(s, i, j)
    ensures var s := Exec(INIT, steps);
      s.requests[i].claimedAt + IN_FLIGHT_TIMEOUT < s.requests[j].claimedAt ||
      s.requests[j].claimedAt + IN_FLIGHT_TIMEOUT < s.requests[i].claimedAt
  {
    Reachable(steps);
  }

  /** After a stored response no work starts under its key for the retention window. */
  lemma NoWorkAfterAStoredResponse(steps: seq<Step>, i: nat, j: nat)
    requires var s := Exec(INIT, steps);
      Stored(s, i) && i != j && SameSlot(s, i, j) && s.requests[j].started &&
      s.requests[i].claimedAt < s.requests[j].claimedAt
    ensures var s := Exec(INIT, steps);
      s.requests[i].claimedAt + RETENTION < s.requests[j].claimedAt
  {
    Reachable(steps);
  }

  /** The fence: of two workers on one key only the later can own the row, and whatever the
      earlier one writes is refused and changes nothing. */
  lemma OvertakenRequestWritesNothing(steps: seq<Step>, i: nat, j: nat, response: Response)
    requires var s := Exec(INIT, steps);
      Unreleased(s, i) && Unreleased(s, j) && i != j && SameSlot(s, i, j) &&
      s.requests[i].claimedAt <= s.requests[j].claimedAt
    ensures var s := Exec(INIT, steps);
      var k := s.requests[i].slot;
      !HeldBy(s.rows, k, i) && AfterRecord(s.rows, k, i, response) == s.rows && AfterRelease(s.rows, k, i) == s.rows
  {
    Reachable(steps);
    assert SameSlot(Exec(INIT, steps), i, j);
  }

  /** A lost row is never regained, so the fence stays shut for the rest of the run. */
  lemma {:induction false} LostForGood(s: State, steps: seq<Step>, i: nat)
    requires Inv(s) && i < |s.requests| && s.requests[i].started && !Holds(s, i)
    ensures !Holds(Exec(s, steps), i)
    decreases |steps|
  {
    if steps != [] {
      var t := Apply(s, steps[0]);
      if Holds(t, i) {
        HoldsAfter(s, steps[0], i);
      }
      StepKeepsRequests(s, steps[0]);
      StepKeepsInv(s, steps[0]);
      LostForGood(t, steps[1..], i);
    }
  }

  /** When a claim starts work: exactly when no other request's lease or response stands. */
  lemma ClaimStartsWorkIff(steps: seq<Step>, q: nat)
    requires var s := Exec(INIT, steps); q < |s.requests| && s.requests[q].phase.Arrived?
    ensures var s := Exec(INIT, steps); var k := s.requests[q].slot;
      Apply(s, Claim(q)).requests[q].started <==>
        !HasResponse(s, k) &&
        !exists i: nat :: i < |s.requests| && Holds(s, i) && s.requests[i].slot == k &&
                          s.now <= s.requests[i].claimedAt + IN_FLIGHT_TIMEOUT
  {
    Reachable(steps);
    var s := Exec(INIT, steps);
    var k := s.requests[q].slot;
    if k in s.rows {
      assert RowOwned(s, k);
      assert Holds(s, s.rows[k].claimId);
    }
  }

  /** Request i holds the key: its response stands, or its work may still be running. */
  predicate HoldsKey(s: State, i: nat, k: Slot) {
    Holds(s, i) && s.requests[i].slot == k &&
    (Stored(s, i) || s.now <= s.requests[i].claimedAt + IN_FLIGHT_TIMEOUT)
  }

  /** What a claim is told, in terms of the request that holds the key: the work is done when there is none,
      and otherwise the answer says which it is, a different message, the same one still running, or the same
      one with its response. */
  lemma ClaimIsToldWhy(steps: seq<Step>, q: nat)
    requires var s := Exec(INIT, steps); q < |s.requests| && s.requests[q].phase.Arrived?
    ensures var s := Exec(INIT, steps);
      var k, told := s.requests[q].slot, Apply(s, Claim(q)).requests[q].phase;
      (told == Working <==> forall i: nat :: !HoldsKey(s, i, k)) &&
      (told == TurnedAway(KeyReused) <==>
         exists i: nat :: HoldsKey(s, i, k) && s.requests[i].hash != s.requests[q].hash) &&
      (told == TurnedAway(StillRunning) <==>
         exists i: nat :: HoldsKey(s, i, k) && s.requests[i].hash == s.requests[q].hash && !Stored(s, i)) &&
      (forall response :: told == Replayed(response) <==>
         exists i: nat :: HoldsKey(s, i, k) && RecordedBy(s, i, k, s.requests[q].hash, response))
  {
    Reachable(steps);
    var s := Exec(INIT, steps);
    var k := s.requests[q].slot;
    if k in s.rows {
      HolderIs(s, k);
      var i := s.rows[k].claimId;
      assert HoldsKey(s, i, k) <==> !Claimable(s.rows, k, s.now);
      if Stored(s, i) {
        assert RecordedBy(s, i, k, s.requests[i].hash, s.rows[k].response.value);
      }
    }
  }

  /** A stored response outlives every statement but a purge: no claim, no release and no other claim's record
      changes its row. */
  lemma StoredResponsesSurvive(t: Table, k: Slot, other: Slot, hash: string, i: ClaimId, response: Response, now: int)
    requires k in t && t[k].response.Some?
    ensures var claimed, released, recorded :=
        AfterClaim(t, other, hash, i, now), AfterRelease(t, other, i), AfterRecord(t, other, i, response);
      k in claimed && claimed[k] == t[k] && k in released && released[k] == t[k] &&
      k in recorded && (other != k || i != t[k].claimId ==> recorded[k] == t[k])
  {
  }

  /** When a key may be used again: right after a purge, a claim starts work exactly when every request that
      held the key claimed it more than the retention ago. */
  lemma PurgeFreesIff(steps: seq<Step>, q: nat)
    requires var s := Exec(INIT, steps); q < |s.requests| && s.requests[q].phase.Arrived?
    ensures var s := Exec(INIT, steps); var k := s.requests[q].slot;
      Apply(Apply(s, Purge), Claim(q)).requests[q].started <==>
        forall i: nat | HoldsKey(s, i, k) :: s.requests[i].claimedAt + RETENTION < s.now
  {
    Reachable(steps);
    var s := Exec(INIT, steps);
    var k := s.requests[q].slot;
    if k in s.rows {
      HolderIs(s, k);
      assert HoldsKey(s, s.rows[k].claimId, k) <==> !Claimable(s.rows, k, s.now);
    }
  }

  lemma HolderIs(s: State, k: Slot)
    requires Inv(s) && k in s.rows
    ensures var i := s.rows[k].claimId; var row := s.rows[k];
      i < |s.requests| && Holds(s, i) && s.requests[i].slot == k && s.requests[i].hash == row.requestHash &&
      s.requests[i].claimedAt == row.createdAt && (row.response.Some? <==> Stored(s, i)) &&
      (row.response.Some? ==> s.requests[i].phase == Delivered(row.response.value, true)) &&
      forall j: nat | Holds(s, j) && s.requests[j].slot == k :: j == i
  {
    assert RowOwned(s, k);
  }

  /** Work is meant to run exactly once per caller key. It can run twice: a first request slower than the
      timeout is taken over, and both do the work and answer their callers. */
  lemma SlowWorkRunsTwice(k: Slot, hash: string, response: Response)
    ensures var s := Exec(INIT, [Arrive(k, hash), Claim(0), Tick(IN_FLIGHT_TIMEOUT + 1), Arrive(k, hash)] +
                                [Claim(1), Work(1, Some(response)), Record(1), Work(0, Some(response)), Record(0)]);
      |s.requests| == 2 && s.requests[0].phase == Delivered(response, false) &&
      s.requests[1].phase == Delivered(response, true)
  {
    var tail := [Work(1, Some(response)), Record(1), Work(0, Some(response)), Record(0)];
    var late := IN_FLIGHT_TIMEOUT + 1;
    var s4 := Apply(Apply(Apply(Apply(INIT, Arrive(k, hash)), Claim(0)), Tick(late)), Arrive(k, hash));
    TakenOver(k, hash);
    BothFinish(k, hash, response);
    assert [Claim(1)] + tail == [Claim(1), Work(1, Some(response)), Record(1), Work(0, Some(response)), Record(0)];
    ExecFour(INIT, Arrive(k, hash), Claim(0), Tick(late), Arrive(k, hash), [Claim(1)] + tail);
    ExecOne(s4, Claim(1), tail);
    assert tail + [] == tail;
    ExecFour(Apply(s4, Claim(1)), Work(1, Some(response)), Record(1), Work(0, Some(response)), Record(0));
  }

  function BothWorking(k: Slot, hash: string): State {
    var late := IN_FLIGHT_TIMEOUT + 1;
    State(late, map[k := Row(hash, 1, late, None)],
          [Request(k, hash, true, 0, Working), Request(k, hash, true, late, Working)])
  }

  lemma TakenOver(k: Slot, hash: string)
    ensures Apply(Apply(Apply(Apply(Apply(INIT, Arrive(k, hash)), Claim(0)), Tick(IN_FLIGHT_TIMEOUT + 1)),
                        Arrive(k, hash)), Claim(1)) == BothWorking(k, hash)
  {
    var s2 := Apply(Apply(INIT, Arrive(k, hash)), Claim(0));
    assert s2 == State(0, map[k := Row(hash, 0, 0, None)], [Request(k, hash, true, 0, Working)]);
  }

  lemma BothFinish(k: Slot, hash: string, response: Response)
    ensures var s := Apply(Apply(Apply(Apply(BothWorking(k, hash), Work(1, Some(response))), Record(1)),
                                 Work(0, Some(response))), Record(0));
      |s.requests| == 2 && s.requests[0].phase == Delivered(response, false) &&
      s.requests[1].phase == Delivered(response, true)
  {
    var s7 := Apply(Apply(BothWorking(k, hash), Work(1, Some(response))), Record(1));
    assert s7.requests[1].phase == Delivered(response, true) && s7.requests[0] == BothWorking(k, hash).requests[0];
    assert s7.rows == map[k := Row(hash, 1, IN_FLIGHT_TIMEOUT + 1, Some(response))];
  }

  lemma ExecOne(s: State, a: Step, rest: seq<Step>)
    ensures Exec(s, [a] + rest) == Exec(Apply(s, a), rest)
  {
    assert ([a] + rest)[1..] == rest;
  }

  lemma ExecFour(s: State, a: Step, b: Step, c: Step, d: Step, rest: seq<Step> := [])
    ensures Exec(s, [a, b, c, d] + rest) == Exec(Apply(Apply(Apply(Apply(s, a), b), c), d), rest)
  {
    assert [a, b, c, d] + rest == [a] + ([b] + ([c] + ([d] + rest)));
    ExecOne(s, a, [b] + ([c] + ([d] + rest)));
    ExecOne(Apply(s, a), b, [c] + ([d] + rest));
    ExecOne(Apply(Apply(s, a), b), c, [d] + rest);
    ExecOne(Apply(Apply(Apply(s, a), b), c), d, rest);
  }

  function ClaimStep(i: nat, call: Call): Step {
    if call.Answers? then Claim(i) else ClaimFault(i, call.Applies())
  }

  function RecordStep(i: nat, call: Call): Step {
    if call.Answers? then Record(i) else RecordFault(i, call.Applies())
  }

  function ReleaseStep(i: nat, call: Call): Step {
    if call.Answers? then Release(i) else ReleaseFault(i, call.Applies())
  }

  function StepsOf(i: nat, produced: Option<Response>, claim: Call, record: Call, release: Call): seq<Step> {
    [ClaimStep(i, claim), Work(i, produced), RecordStep(i, record), ReleaseStep(i, release)]
  }

  /** What one undisturbed request makes of the rows, and how it ends. */
  function Alone(rows: Table, now: int, r: Request, i: ClaimId, produced: Option<Response>,
                 claim: Call, record: Call, release: Call): (Table, Phase)
  {
    if claim.Refuses? then (rows, TurnedAway(StoreFailed))
    else
      var claimed := AfterClaim(rows, r.slot, r.hash, i, now);
      if claim.LosesReply? then (claimed, TurnedAway(StoreFailed))
      else
        match ClaimVerdict(rows, r.slot, r.hash, i, now)
        case Conflict => (claimed, TurnedAway(KeyReused))
        case InFlight => (claimed, TurnedAway(StillRunning))
        case Replay(response) => (claimed, Replayed(response))
        case Claimed(_) =>
          if produced.None? then
            (if release.Applies() then AfterRelease(claimed, r.slot, i) else claimed, Withdrawn)
          else
            (if record.Applies() then AfterRecord(claimed, r.slot, i, produced.value) else claimed,
             Delivered(produced.value, record.Applies() && HeldBy(claimed, r.slot, i)))
  }

  lemma ClaimedAlone(s: State, i: nat, call: Call)
    requires i < |s.requests| && s.requests[i].phase == Arrived
    ensures var c := Apply(s, ClaimStep(i, call)); var r := s.requests[i];
      |c.requests| == |s.requests| && c.requests[i].slot == r.slot &&
      c.rows == (if call.Refuses? then s.rows else AfterClaim(s.rows, r.slot, r.hash, i, s.now)) &&
      c.requests[i].phase ==
        if !call.Answers? then TurnedAway(StoreFailed)
        else
          match ClaimVerdict(s.rows, r.slot, r.hash, i, s.now)
          case Claimed(_) => Working
          case Replay(response) => Replayed(response)
          case Conflict => TurnedAway(KeyReused)
          case InFlight => TurnedAway(StillRunning)
  {
  }

  lemma WorkedAlone(c: State, i: nat, produced: Option<Response>, record: Call, release: Call)
    requires i < |c.requests| && c.requests[i].phase == Working
    ensures var t := Apply(Apply(Apply(c, Work(i, produced)), RecordStep(i, record)), ReleaseStep(i, release));
      var slot := c.requests[i].slot;
      |t.requests| == |c.requests| &&
      (t.rows, t.requests[i].phase) ==
        if produced.None? then (if release.Applies() then AfterRelease(c.rows, slot, i) else c.rows, Withdrawn)
        else
          (if record.Applies() then AfterRecord(c.rows, slot, i, produced.value) else c.rows,
           Delivered(produced.value, record.Applies() && HeldBy(c.rows, slot, i)))
  {
    var w := Apply(c, Work(i, produced));
    assert w.rows == c.rows && w.requests[i].slot == c.requests[i].slot;
    var r := Apply(w, RecordStep(i, record));
    assert produced.None? ==> r == w;
    assert produced.Some? ==> Apply(r, ReleaseStep(i, release)) == r;
  }

  lemma EndedAlone(c: State, i: nat, produced: Option<Response>, record: Call, release: Call)
    requires i < |c.requests| && (c.requests[i].phase.TurnedAway? || c.requests[i].phase.Replayed?)
    ensures Apply(Apply(Apply(c, Work(i, produced)), RecordStep(i, record)), ReleaseStep(i, release)) == c
  {
  }

  lemma AloneIsARun(s: State, i: nat, produced: Option<Response>, claim: Call, record: Call, release: Call)
    requires i < |s.requests| && s.requests[i].phase == Arrived
    ensures var t := Exec(s, StepsOf(i, produced, claim, record, release) + []);
      |t.requests| == |s.requests| &&
      (t.rows, t.requests[i].phase) == Alone(s.rows, s.now, s.requests[i], i, produced, claim, record, release)
  {
    ExecFour(s, ClaimStep(i, claim), Work(i, produced), RecordStep(i, record), ReleaseStep(i, release));
    ClaimedAlone(s, i, claim);
    var c := Apply(s, ClaimStep(i, claim));
    if c.requests[i].phase.Working? {
      WorkedAlone(c, i, produced, record, release);
    } else {
      EndedAlone(c, i, produced, record, release);
    }
  }

  /** underIdempotency for one request nobody interrupts: it is the run of its own steps, whatever its
      three statements answer. Without a store the work is done unguarded. */
  method UnderIdempotency(store: IdempotencyStore?, slot: Slot, hash: string, mine: ClaimId, produced: Option<Response>,
                          claim: Call, record: Call, release: Call, ghost s: State) returns (answer: Phase)
    requires store != null ==> s.rows == store.rows && s.now == store.now
    requires mine < |s.requests| && s.requests[mine].slot == slot && s.requests[mine].hash == hash
    requires s.requests[mine].phase == Arrived
    modifies if store == null then {} else {store}
    ensures store == null ==> answer == if produced.Some? then Delivered(produced.value, false) else Withdrawn
    ensures store != null ==>
      var t := Exec(s, StepsOf(mine, produced, claim, record, release) + []);
      |t.requests| == |s.requests| && store.rows == t.rows && store.now == old(store.now) &&
      answer == t.requests[mine].phase
  {
    AloneIsARun(s, mine, produced, claim, record, release);
    if store == null {
      return if produced.Some? then Delivered(produced.value, false) else Withdrawn;
    }
    answer := Guarded(store, slot, hash, mine, produced, claim, record, release, s.requests[mine]);
  }

  method Guarded(store: IdempotencyStore, slot: Slot, hash: string, mine: ClaimId, produced: Option<Response>,
                 claim: Call, record: Call, release: Call, ghost r: Request) returns (answer: Phase)
    requires r.slot == slot && r.hash == hash
    modifies store
    ensures store.now == old(store.now)
    ensures (store.rows, answer) == Alone(old(store.rows), store.now, r, mine, produced, claim, record, release)
  {
    if claim.Refuses? {
      return TurnedAway(StoreFailed);
    }
    var outcome := store.ClaimIdempotencyKey(slot, hash, mine);
    if claim.LosesReply? {
      return TurnedAway(StoreFailed);
    }
    match outcome {
      case Conflict => return TurnedAway(KeyReused);
      case InFlight => return TurnedAway(StillRunning);
      case Replay(response) => return Replayed(response);
      case Claimed(claimId) =>
        if produced.None? {
          if release.Applies() {
            store.ReleaseIdempotencyKey(slot, claimId);
          }
          return Withdrawn;
        }
        if record.Refuses? {
          return Delivered(produced.value, false);
        }
        var recorded := store.RecordIdempotentResponse(slot, claimId, produced.value);
        return Delivered(produced.value, recorded == Recorded);
    }
  }
}
