/** The wa_idempotency table and the statements of wa-shared/store/idempotency.go. */
module Idempotency {
  import opened Options

  // Times are milliseconds.
  const IN_FLIGHT_TIMEOUT: int := 5 * 60 * 1000
  const RETENTION: int := 24 * 60 * 60 * 1000

  /** The primary key (api_key_id, key). */
  datatype Slot = Slot(apiKeyId: string, key: string)

  datatype Response = Response(statusCode: int, body: seq<bv8>)

  /** Stands for the values of id.New("clm"): fresh per attempt, compared only for equality. */
  type ClaimId = nat

  datatype Row = Row(requestHash: string, claimId: ClaimId, createdAt: int, response: Option<Response>)

  type Table = map<Slot, Row>

  datatype ClaimOutcome = Claimed(claimId: ClaimId) | Replay(response: Response) | Conflict | InFlight

  datatype RecordOutcome = Recorded | ClaimTaken

  /** No response, and older than the in-flight timeout: the DO UPDATE's WHERE clause. */
  predicate Abandoned(row: Row, now: int) {
    row.response.None? && row.createdAt < now - IN_FLIGHT_TIMEOUT
  }

  predicate Claimable(t: Table, slot: Slot, now: int) {
    slot !in t || Abandoned(t[slot], now)
  }

  function AfterClaim(t: Table, slot: Slot, requestHash: string, mine: ClaimId, now: int): Table {
    if Claimable(t, slot, now) then t[slot := Row(requestHash, mine, now, None)] else t
  }

  function ClaimVerdict(t: Table, slot: Slot, requestHash: string, mine: ClaimId, now: int): ClaimOutcome {
    if Claimable(t, slot, now) then Claimed(mine)
    else if t[slot].requestHash != requestHash then Conflict
    else if t[slot].response.None? then InFlight
    else Replay(t[slot].response.value)
  }

  predicate HeldBy(t: Table, slot: Slot, claimId: ClaimId) {
    slot in t && t[slot].claimId == claimId
  }

  function AfterRecord(t: Table, slot: Slot, claimId: ClaimId, response: Response): Table {
    if HeldBy(t, slot, claimId) then t[slot := t[slot].(response := Some(response))] else t
  }

  function AfterRelease(t: Table, slot: Slot, claimId: ClaimId): Table {
    if HeldBy(t, slot, claimId) && t[slot].response.None? then t - {slot} else t
  }

  function AfterPurge(t: Table, olderThan: int, now: int): Table {
    map slot | slot in t && !(t[slot].createdAt < now - olderThan) :: t[slot]
  }

  /** The table as the store sees it; now is the database clock. */
  class IdempotencyStore {
    var rows: Table
    var now: int

    constructor (now: int)
      ensures rows == map[] && this.now == now
    {
      rows, this.now := map[], now;
    }

    /** One upsert-or-read statement followed by the switch on what it returned. */
    method ClaimIdempotencyKey(slot: Slot, requestHash: string, mine: ClaimId) returns (outcome: ClaimOutcome)
      modifies this`rows
      ensures rows == AfterClaim(old(rows), slot, requestHash, mine, now)
      ensures outcome == ClaimVerdict(old(rows), slot, requestHash, mine, now)
    {
      var claimed := false;
      if slot !in rows || Abandoned(rows[slot], now) {
        rows := rows[slot := Row(requestHash, mine, now, None)];
        claimed := true;
      }
      var stored := rows[slot];
      if stored.requestHash != requestHash {
        return Conflict;
      }
      if claimed {
        return Claimed(mine);
      }
      if stored.response.None? {
        return InFlight;
      }
      return Replay(stored.response.value);
    }

    method RecordIdempotentResponse(slot: Slot, claimId: ClaimId, response: Response) returns (outcome: RecordOutcome)
      modifies this`rows
      ensures rows == AfterRecord(old(rows), slot, claimId, response)
      ensures outcome == Recorded <==> HeldBy(old(rows), slot, claimId)
    {
      if slot in rows && rows[slot].claimId == claimId {
        rows := rows[slot := rows[slot].(response := Some(response))];
        return Recorded;
      }
      return ClaimTaken;
    }

    method ReleaseIdempotencyKey(slot: Slot, claimId: ClaimId)
      modifies this`rows
      ensures rows == AfterRelease(old(rows), slot, claimId)
    {
      if slot in rows && rows[slot].claimId == claimId && rows[slot].response.None? {
        rows := rows - {slot};
      }
    }

    method PurgeIdempotency(olderThan: int) returns (removed: nat)
      modifies this`rows
      ensures rows == AfterPurge(old(rows), olderThan, now)
      ensures removed == |old(rows).Keys - rows.Keys|
    {
      var kept := map slot | slot in rows && !(rows[slot].createdAt < now - olderThan) :: rows[slot];
      removed := |rows.Keys - kept.Keys|;
      rows := kept;
    }
  }
}
