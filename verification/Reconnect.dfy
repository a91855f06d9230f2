/** One session of the gateway's SessionManager (baileys/src/sessions/manager.ts): its entry, its stored row
    and the pending reconnect. A handler runs as one step; sessions share nothing but shuttingDown. */
module Reconnect {
  import opened Options
  import opened Powers

  const RECONNECT_BASE_MS := 2_000
  const RECONNECT_MAX_MS := 300_000
  const MAX_RECONNECT_ATTEMPTS := 10
  const RESTART_DELAY_MS := 250
  const MAX_RESTARTS := 5
  const UNHEALTHY_AFTER_FAILURES := 5

  datatype Status = New | Pairing | Connected | Unhealthy | Disconnected | LoggedOut

  /** Why a socket closed. */
  datatype Reason = SignedOut | RestartRequired | OtherReason

  const SESSION_FAULT_CODES := {"send_failed", "session_not_connected", "rate_limited_by_wa"}

  datatype Live = Live(
    status: Status, hasQr: bool, hasSocket: bool, closing: bool, reconnectAttempts: nat, restarts: nat,
    timer: Option<int>, consecutiveFailures: nat, lastErrorCode: Option<string>)

  /** row is the stored status, None when the session is not in the database; reconnects is the
      baileys_reconnects_total metric. */
  datatype Session = Session(live: Option<Live>, row: Option<Status>, shuttingDown: bool, reconnects: nat)

  datatype Refusal = NotFound | SessionLoggedOut | ShuttingDown | SocketFailed

  // ---------------------------------------------------------------- delays

  /** Math.round */
  function Round(x: real): int {
    (x + 0.5).Floor
  }

  function Nominal(attempt: nat): nat
    requires attempt >= 1
  {
    var doubled := RECONNECT_BASE_MS * Pow2(attempt - 1);
    if doubled < RECONNECT_MAX_MS then doubled else RECONNECT_MAX_MS
  }

  /** draw is what Math.random returned. */
  function Jitter(nominal: nat, draw: real): int {
    Round(nominal as real * (0.8 + draw * 0.4))
  }

  function BackoffDelay(attempt: nat, draw: real): int
    requires attempt >= 1
  {
    Jitter(Nominal(attempt), draw)
  }

  lemma Scaled(x: real, f: real, lo: real, hi: real)
    requires 0.0 <= x && lo <= f <= hi
    ensures lo * x <= x * f <= hi * x
  {
    assert x * (f - lo) >= 0.0 && x * (hi - f) >= 0.0;
    assert x * (f - lo) == x * f - lo * x && x * (hi - f) == hi * x - x * f;
  }

  lemma NominalGrows(attempt: nat, later: nat)
    requires 1 <= attempt <= later
    ensures RECONNECT_BASE_MS <= Nominal(attempt) <= Nominal(later) <= RECONNECT_MAX_MS
  {
    Pow2Grows(attempt - 1, later - 1);
  }

  /** Two seconds, doubled each time, and never more than five minutes. */
  lemma NominalDoubles(attempt: nat)
    requires attempt >= 1
    ensures Nominal(1) == 2_000
    ensures Nominal(attempt + 1) == if 2 * Nominal(attempt) < 300_000 then 2 * Nominal(attempt) else 300_000
  {
    NominalGrows(1, attempt);
    Pow2Grows(0, attempt - 1);
  }

  lemma Jittered(nominal: nat, draw: real)
    requires 0.0 <= draw < 1.0
    ensures 0.8 * nominal as real - 0.5 <= Jitter(nominal, draw) as real <= 1.2 * nominal as real + 0.5
  {
    var f := 0.8 + draw * 0.4;
    Scaled(nominal as real, f, 0.8, 1.2);
    var x := nominal as real * f;
    assert Round(x) as real <= x + 0.5 < Round(x) as real + 1.0;
  }

  /** Each wait is within a fifth of 2 seconds doubled with every attempt and capped at five minutes, up to
      rounding to a millisecond, and a later attempt's nominal wait is never shorter. */
  lemma BackoffWithinAFifth(attempt: nat, later: nat, draw: real)
    requires 1 <= attempt <= later && 0.0 <= draw < 1.0
    ensures 0.8 * Nominal(attempt) as real - 0.5 <= BackoffDelay(attempt, draw) as real
    ensures BackoffDelay(attempt, draw) as real <= 1.2 * Nominal(attempt) as real + 0.5
    ensures RECONNECT_BASE_MS <= Nominal(attempt) <= Nominal(later) <= RECONNECT_MAX_MS
  {
    NominalGrows(attempt, later);
    Jittered(Nominal(attempt), draw);
  }

  // ---------------------------------------------------------------- the handlers

  /** opens: the socket could be made. */
  datatype Step =
    | Connect(opens: bool)
    | Restart(opens: bool)
    | Reset
    | Logout
    | Delete
    | Shutdown
    | QrIssued
    | Opened
    | Closed(reason: Reason, draw: real)
    | SendSucceeded
    | SendFailed(errorCode: string)
    | TimerFires(opens: bool)

  function InitialLiveStatus(stored: Status): Status {
    if stored == Connected || stored == Unhealthy then Disconnected else stored
  }

  function Created(stored: Status): Live {
    Live(InitialLiveStatus(stored), false, false, false, 0, 0, None, 0, None)
  }

  /** connect and restart refuse before they touch anything. */
  function Refused(s: Session, step: Step): Option<Refusal> {
    if step.Connect? && s.shuttingDown then Some(ShuttingDown)
    else if (step.Connect? || step.Restart?) && s.row.None? then Some(NotFound)
    else if (step.Connect? || step.Restart?) && s.row.value.LoggedOut? then Some(SessionLoggedOut)
    else if step.Restart? && s.live.None? && s.shuttingDown then Some(ShuttingDown)
    else if (step.Reset? || step.Logout?) && s.row.None? then Some(NotFound)
    else None
  }

  /** setStatus writes nothing when the live status is already that one. */
  function WithStatus(s: Session, e: Live, status: Status): Session {
    if e.status == status then s.(live := Some(e))
    else s.(live := Some(e.(status := status)), row := Some(status))
  }

  function Scheduled(s: Session, delay: int): Session
    requires s.live.Some?
  {
    s.(live := Some(s.live.value.(timer := Some(delay))), reconnects := s.reconnects + 1)
  }

  function AfterConnect(s: Session, opens: bool): Session
    requires s.row.Some?
  {
    if s.live.Some? && s.live.value.hasSocket then s
    else
      var e := if s.live.Some? then s.live.value else Created(s.row.value);
      s.(live := Some(e.(closing := false, hasSocket := opens)))
  }

  function AfterRestart(s: Session, opens: bool): Session
    requires s.row.Some?
  {
    if s.live.None? then AfterConnect(s, opens)
    else
      var e := s.live.value.(timer := None, hasQr := false, reconnectAttempts := 0, restarts := 0,
                             consecutiveFailures := 0, closing := false, hasSocket := false);
      var t := WithStatus(s, e, Disconnected);
      t.(live := Some(t.live.value.(hasSocket := opens)))
  }

  /** What connect and restart throw. */
  function Thrown(s: Session, step: Step): Option<Refusal>
    requires step.Connect? || step.Restart?
  {
    if Refused(s, step).Some? then Refused(s, step)
    else if step.opens || (step.Connect? && s.live.Some? && s.live.value.hasSocket) then None
    else Some(SocketFailed)
  }

  function AfterClosed(s: Session, reason: Reason, draw: real): Session
    requires s.live.Some?
  {
    var e := s.live.value.(hasSocket := false);
    if e.closing || s.shuttingDown then s.(live := Some(e))
    else if reason.SignedOut? then WithStatus(s, e.(hasQr := false), LoggedOut)
    else if reason.RestartRequired? then
      if e.restarts >= MAX_RESTARTS then WithStatus(s, e, Disconnected)
      else Scheduled(s.(live := Some(e.(restarts := e.restarts + 1))), RESTART_DELAY_MS)
    else
      var t := WithStatus(s, e, Disconnected);
      if e.reconnectAttempts >= MAX_RECONNECT_ATTEMPTS then t
      else
        var attempts := e.reconnectAttempts + 1;
        Scheduled(t.(live := Some(t.live.value.(reconnectAttempts := attempts))), BackoffDelay(attempts, draw))
  }

  function AfterOutcome(s: Session, errorCode: Option<string>): Session
    requires s.live.Some?
  {
    var e := s.live.value;
    if errorCode.None? then
      var ok := e.(consecutiveFailures := 0, lastErrorCode := None);
      if e.status.Unhealthy? then WithStatus(s, ok, Connected) else s.(live := Some(ok))
    else
      var failed := e.(lastErrorCode := errorCode);
      if errorCode.value !in SESSION_FAULT_CODES then s.(live := Some(failed))
      else
        var faulted := failed.(consecutiveFailures := e.consecutiveFailures + 1);
        if faulted.consecutiveFailures >= UNHEALTHY_AFTER_FAILURES && e.status.Connected? then
          WithStatus(s, faulted, Unhealthy)
        else s.(live := Some(faulted))
  }

  /** Steps of a socket, a timer or a send on a session that is not live do nothing. */
  function Apply(s: Session, step: Step): Session {
    if Refused(s, step).Some? then s
    else
      match step
      case Connect(opens) => AfterConnect(s, opens)
      case Restart(opens) => AfterRestart(s, opens)
      case Reset => s.(live := None, row := Some(New))
      case Logout =>
        var live := if s.live.None? then None
                    else Some(s.live.value.(closing := true, timer := None, hasQr := false, hasSocket := false,
                                            status := LoggedOut));
        s.(live := live, row := Some(LoggedOut))
      case Delete => s.(live := None, row := None)
      case Shutdown => s.(live := None, shuttingDown := true)
      case QrIssued => if s.live.None? then s else WithStatus(s, s.live.value.(hasQr := true), Pairing)
      case Opened =>
        if s.live.None? then s
        else
          s.(live := Some(s.live.value.(hasQr := false, reconnectAttempts := 0, restarts := 0, status := Connected)),
             row := Some(Connected))
      case Closed(reason, draw) => if s.live.None? then s else AfterClosed(s, reason, draw)
      case SendSucceeded => if s.live.None? then s else AfterOutcome(s, None)
      case SendFailed(code) => if s.live.None? then s else AfterOutcome(s, Some(code))
      case TimerFires(opens) =>
        if s.live.None? || s.live.value.timer.None? then s
        else
          var e := s.live.value.(timer := None);
          s.(live := Some(if e.closing || s.shuttingDown then e else if opens then e.(hasSocket := true) else e))
  }

  function Exec(s: Session, steps: seq<Step>): Session {
    if steps == [] then s else Apply(Exec(s, steps[..|steps| - 1]), steps[|steps| - 1])
  }

  // ---------------------------------------------------------------- the manager

  class Entry {
    var status: Status
    var hasQr: bool
    var hasSocket: bool
    var closing: bool
    var reconnectAttempts: nat
    var restarts: nat
    var timer: Option<int>
    var consecutiveFailures: nat
    var lastErrorCode: Option<string>

    constructor (stored: Status)
      ensures Now() == Created(stored)
    {
      status := InitialLiveStatus(stored);
      hasQr, hasSocket, closing := false, false, false;
      reconnectAttempts, restarts, timer := 0, 0, None;
      consecutiveFailures, lastErrorCode := 0, None;
    }

    function Now(): Live
      reads this
    {
      Live(status, hasQr, hasSocket, closing, reconnectAttempts, restarts, timer, consecutiveFailures, lastErrorCode)
    }
  }

  class SessionManager {
    var entry: Entry?
    var row: Option<Status>
    var shuttingDown: bool
    var reconnects: nat

    constructor (row: Option<Status>)
      ensures Now() == Session(None, row, false, 0)
    {
      entry, this.row, shuttingDown, reconnects := null, row, false, 0;
    }

    function Now(): Session
      reads this, entry
    {
      Session(if entry == null then None else Some(entry.Now()), row, shuttingDown, reconnects)
    }

    method SetStatus(status: Status)
      requires entry != null
      modifies this`row, entry`status
      ensures Now() == WithStatus(old(Now()), old(entry.Now()), status)
    {
      if entry.status == status {
        return;
      }
      entry.status := status;
      row := Some(status);
    }

    method ScheduleReconnect(delay: int)
      requires entry != null
      modifies this`reconnects, entry`timer
      ensures Now() == Scheduled(old(Now()), delay)
    {
      reconnects := reconnects + 1;
      entry.timer := Some(delay);
    }

    method RecordSendOutcome(errorCode: Option<string>)
      modifies this, entry
      ensures Now() == Apply(old(Now()), if errorCode.None? then SendSucceeded else SendFailed(errorCode.value))
    {
      if entry == null {
        return;
      }
      if errorCode.None? {
        entry.consecutiveFailures := 0;
        entry.lastErrorCode := None;
        if entry.status == Unhealthy {
          SetStatus(Connected);
        }
        return;
      }
      entry.lastErrorCode := errorCode;
      if errorCode.value !in SESSION_FAULT_CODES {
        return;
      }
      entry.consecutiveFailures := entry.consecutiveFailures + 1;
      if entry.consecutiveFailures >= UNHEALTHY_AFTER_FAILURES && entry.status == Connected {
        SetStatus(Unhealthy);
      }
    }

    method DoConnect(opens: bool) returns (refusal: Option<Refusal>)
      modifies this, entry
      ensures refusal == Thrown(old(Now()), Connect(opens)) && Now() == Apply(old(Now()), Connect(opens))
    {
      if shuttingDown {
        return Some(ShuttingDown);
      }
      if row.None? {
        return Some(NotFound);
      }
      if row.value.LoggedOut? {
        return Some(SessionLoggedOut);
      }
      if entry != null && entry.hasSocket {
        return None;
      }
      if entry == null {
        entry := new Entry(row.value);
      }
      entry.closing := false;
      entry.hasSocket := opens;
      return if opens then None else Some(SocketFailed);
    }

    method DoRestart(opens: bool) returns (refusal: Option<Refusal>)
      modifies this, entry
      ensures refusal == Thrown(old(Now()), Restart(opens)) && Now() == Apply(old(Now()), Restart(opens))
    {
      if row.None? {
        return Some(NotFound);
      }
      if row.value.LoggedOut? {
        return Some(SessionLoggedOut);
      }
      if entry == null {
        refusal := DoConnect(opens);
        return;
      }
      entry.timer := None;
      entry.hasSocket := false;
      entry.hasQr := false;
      entry.reconnectAttempts := 0;
      entry.restarts := 0;
      entry.consecutiveFailures := 0;
      entry.closing := false;
      SetStatus(Disconnected);
      entry.hasSocket := opens;
      return if opens then None else Some(SocketFailed);
    }

    method OnQr()
      modifies this, entry
      ensures Now() == Apply(old(Now()), QrIssued)
    {
      if entry == null {
        return;
      }
      entry.hasQr := true;
      SetStatus(Pairing);
    }

    method OnOpen()
      modifies this, entry
      ensures Now() == Apply(old(Now()), Opened)
    {
      if entry == null {
        return;
      }
      entry.hasQr := false;
      entry.reconnectAttempts := 0;
      entry.restarts := 0;
      entry.status := Connected;
      row := Some(Connected);
    }

    method OnClose(reason: Reason, draw: real)
      modifies this, entry
      ensures Now() == Apply(old(Now()), Closed(reason, draw))
    {
      if entry == null {
        return;
      }
      entry.hasSocket := false;
      if entry.closing || shuttingDown {
        return;
      }
      if reason == SignedOut {
        entry.hasQr := false;
        SetStatus(LoggedOut);
        return;
      }
      if reason == RestartRequired {
        if entry.restarts >= MAX_RESTARTS {
          SetStatus(Disconnected);
          return;
        }
        entry.restarts := entry.restarts + 1;
        ScheduleReconnect(RESTART_DELAY_MS);
        return;
      }
      SetStatus(Disconnected);
      if entry.reconnectAttempts >= MAX_RECONNECT_ATTEMPTS {
        return;
      }
      entry.reconnectAttempts := entry.reconnectAttempts + 1;
      var delay := BackoffDelay(entry.reconnectAttempts, draw);
      ScheduleReconnect(delay);
    }

    method OnTimer(opens: bool)
      modifies this, entry
      ensures Now() == Apply(old(Now()), TimerFires(opens))
    {
      if entry == null || entry.timer.None? {
        return;
      }
      entry.timer := None;
      if entry.closing || shuttingDown {
        return;
      }
      if opens {
        entry.hasSocket := true;
      }
    }
  }

  // ---------------------------------------------------------------- budgets

  /** The counters start over: an open, or an explicit restart that went through. */
  predicate StartsOver(s: Session, step: Step) {
    step.Opened? || (step.Restart? && Refused(s, step).None?)
  }

  /** The socket closed unasked for that reason, on a session nobody is closing. */
  predicate Drops(s: Session, step: Step, reason: Reason) {
    step.Closed? && step.reason == reason && s.live.Some? && !s.live.value.closing && !s.shuttingDown
  }

  /** How often the socket dropped for that reason since the entry was made, opened or restarted. */
  function DropsSince(s: Session, steps: seq<Step>, reason: Reason): nat {
    if steps == [] then 0
    else
      var front, last := steps[..|steps| - 1], steps[|steps| - 1];
      var here := Exec(s, front);
      if Apply(here, last).live.None? || here.live.None? || StartsOver(here, last) then 0
      else DropsSince(s, front, reason) + if Drops(here, last, reason) then 1 else 0
  }

  /** How many reconnects were scheduled since then, by the metric. */
  function ReconnectsSince(s: Session, steps: seq<Step>): int {
    if steps == [] then 0
    else
      var front, last := steps[..|steps| - 1], steps[|steps| - 1];
      var here := Exec(s, front);
      if Apply(here, last).live.None? || here.live.None? || StartsOver(here, last) then 0
      else ReconnectsSince(s, front) + Apply(here, last).reconnects - here.reconnects
  }

  function Min(a: nat, b: nat): nat {
    if a < b then a else b
  }

  ghost predicate Budgeted(live: Option<Live>, drops: nat, restarts: nat, reconnects: int) {
    live.Some? ==>
      live.value.reconnectAttempts == Min(drops, MAX_RECONNECT_ATTEMPTS) &&
      live.value.restarts == Min(restarts, MAX_RESTARTS) &&
      reconnects == live.value.reconnectAttempts + live.value.restarts
  }

  lemma BudgetStep(s: Session, step: Step, drops: nat, restarts: nat, reconnects: int)
    requires Budgeted(s.live, drops, restarts, reconnects)
    ensures var t := Apply(s, step);
      if t.live.None? || s.live.None? || StartsOver(s, step) then Budgeted(t.live, 0, 0, 0)
      else
        Budgeted(t.live, drops + (if Drops(s, step, OtherReason) then 1 else 0),
                 restarts + (if Drops(s, step, RestartRequired) then 1 else 0),
                 reconnects + t.reconnects - s.reconnects)
  {
  }

  lemma {:induction false} BudgetRun(s: Session, steps: seq<Step>)
    requires s.live.None?
    ensures Budgeted(Exec(s, steps).live, DropsSince(s, steps, OtherReason), DropsSince(s, steps, RestartRequired),
                     ReconnectsSince(s, steps))
  {
    if steps != [] {
      var front := steps[..|steps| - 1];
      BudgetRun(s, front);
      BudgetStep(Exec(s, front), steps[|steps| - 1], DropsSince(s, front, OtherReason),
                 DropsSince(s, front, RestartRequired), ReconnectsSince(s, front));
    }
  }

  /** In every run, since a session was last opened or restarted by hand, it has been reconnected exactly
      once for each of its first ten drops and each of its first five restart demands, so at most fifteen
      times. */
  lemma ReconnectsAreBounded(row: Option<Status>, steps: seq<Step>)
    ensures var s := Session(None, row, false, 0);
      Exec(s, steps).live.Some? ==>
        ReconnectsSince(s, steps) ==
          Min(DropsSince(s, steps, OtherReason), MAX_RECONNECT_ATTEMPTS) +
          Min(DropsSince(s, steps, RestartRequired), MAX_RESTARTS) &&
        ReconnectsSince(s, steps) <= 15
  {
    BudgetRun(Session(None, row, false, 0), steps);
  }

  // ---------------------------------------------------------------- health

  /** How many session faults in a row the sends have met: since the last success, the last explicit restart
      and the making of the entry. */
  function FaultRun(s: Session, steps: seq<Step>): nat {
    if steps == [] then 0
    else
      var front, last := steps[..|steps| - 1], steps[|steps| - 1];
      var here := Exec(s, front);
      if Apply(here, last).live.None? || here.live.None? || last.SendSucceeded? then 0
      else if last.Restart? && Refused(here, last).None? then 0
      else FaultRun(s, front) + if last.SendFailed? && last.errorCode in SESSION_FAULT_CODES then 1 else 0
  }

  ghost predicate HealthSound(live: Option<Live>, run: nat) {
    live.Some? ==>
      live.value.consecutiveFailures == run && (live.value.status.Unhealthy? ==> run >= UNHEALTHY_AFTER_FAILURES)
  }

  lemma HealthStep(s: Session, step: Step, run: nat)
    requires HealthSound(s.live, run)
    ensures var t := Apply(s, step);
      HealthSound(t.live,
        if t.live.None? || s.live.None? || step.SendSucceeded? || (step.Restart? && Refused(s, step).None?) then 0
        else run + if step.SendFailed? && step.errorCode in SESSION_FAULT_CODES then 1 else 0)
  {
  }

  lemma {:induction false} HealthRun(s: Session, steps: seq<Step>)
    requires s.live.None?
    ensures HealthSound(Exec(s, steps).live, FaultRun(s, steps))
  {
    if steps != [] {
      var front := steps[..|steps| - 1];
      HealthRun(s, front);
      HealthStep(Exec(s, front), steps[|steps| - 1], FaultRun(s, front));
    }
  }

  /** In every run, a session is unhealthy only after at least five session faults with no success between
      them, and a send marks it so exactly when it is connected and its fault is at least the fifth. */
  lemma UnhealthyMeansFiveFaults(row: Option<Status>, steps: seq<Step>, code: string)
    ensures var s := Session(None, row, false, 0);
      var here := Exec(s, steps);
      here.live.Some? ==>
        (here.live.value.status.Unhealthy? ==> FaultRun(s, steps) >= UNHEALTHY_AFTER_FAILURES) &&
        var after := Apply(here, SendFailed(code));
        after.live.Some? &&
        (after.live.value.status.Unhealthy? <==>
          here.live.value.status.Unhealthy? ||
          (here.live.value.status.Connected? && code in SESSION_FAULT_CODES &&
           FaultRun(s, steps) + 1 >= UNHEALTHY_AFTER_FAILURES))
  {
    HealthRun(Session(None, row, false, 0), steps);
  }

  // ---------------------------------------------------------------- what moves a session

  /** Which requests are refused, before anything is touched: connecting while shutting down, and anything on an
      unknown session; connecting or restarting one that is logged out, which only pairing afresh brings back. */
  lemma RefusedIff(s: Session, step: Step)
    ensures Refused(s, step) == Some(NotFound) <==>
      s.row.None? && ((step.Connect? && !s.shuttingDown) || step.Restart? || step.Reset? || step.Logout?)
    ensures Refused(s, step) == Some(SessionLoggedOut) <==>
      s.row == Some(LoggedOut) && ((step.Connect? && !s.shuttingDown) || step.Restart?)
    ensures Refused(s, step) == Some(ShuttingDown) <==>
      s.shuttingDown &&
      (step.Connect? || (step.Restart? && s.live.None? && s.row.Some? && s.row != Some(LoggedOut)))
    ensures Refused(s, step) != Some(SocketFailed)
    ensures Refused(s, step).Some? ==> Apply(s, step) == s
  {
  }

  /** What connect and restart answer: the refusal, nothing, or that no socket could be opened, which a connect with
      one open already does not try. */
  lemma ThrownIff(s: Session, step: Step)
    requires step.Connect? || step.Restart?
    ensures Refused(s, step).Some? ==> Thrown(s, step) == Refused(s, step)
    ensures Refused(s, step).None? ==>
      Thrown(s, step) ==
        if step.opens || (step.Connect? && s.live.Some? && s.live.value.hasSocket) then None else Some(SocketFailed)
  {
  }

  /** An entry is made by a connect or a restart, disconnected if it was stored as connected or unhealthy and
      otherwise as stored, with nothing counted; it goes with a reset, a deletion or a shutdown. */
  lemma EntriesComeAndGo(s: Session, step: Step)
    ensures var t := Apply(s, step);
      (s.live.None? && t.live.Some? ==>
         (step.Connect? || step.Restart?) && s.row.Some? && t.row == s.row &&
         t.live.value.status ==
           (if s.row.value in {Connected, Unhealthy} then Disconnected else s.row.value) &&
         t.live.value == Live(t.live.value.status, false, step.opens, false, 0, 0, None, 0, None)) &&
      (s.live.None? && t.live.None? && (step.Connect? || step.Restart?) ==> Refused(s, step).Some?) &&
      (s.live.Some? ==>
         (t.live.None? <==> (step.Reset? && s.row.Some?) || step.Delete? || step.Shutdown?)) &&
      (t.shuttingDown <==> s.shuttingDown || step.Shutdown?)
  {
  }

  /** The stored status: it follows the live one, and is new after a reset, logged out after a logout, and gone with
      the session. */
  lemma RowFollows(s: Session, step: Step)
    ensures var t := Apply(s, step);
      t.row ==
        if step.Delete? then None
        else if step.Reset? && s.row.Some? then Some(New)
        else if step.Logout? && s.row.Some? then Some(LoggedOut)
        else if step.Opened? && s.live.Some? then Some(Connected)
        else if s.live.Some? && t.live.Some? && t.live.value.status != s.live.value.status then
          Some(t.live.value.status)
        else s.row
  {
  }

  /** The socket closed unasked. */
  predicate Unasked(s: Session, step: Step) {
    step.Closed? && s.live.Some? && !s.live.value.closing && !s.shuttingDown
  }

  lemma StatusMoves(s: Session, step: Step)
    requires s.live.Some? && Apply(s, step).live.Some? && Refused(s, step).None?
    ensures var b, a := s.live.value, Apply(s, step).live.value;
      a.status ==
        if step.Restart? then Disconnected
        else if step.Logout? then LoggedOut
        else if step.QrIssued? then Pairing
        else if step.Opened? then Connected
        else if Unasked(s, step) && step.reason == SignedOut then LoggedOut
        else if Unasked(s, step) && !(step.reason == RestartRequired && b.restarts < 5) then Disconnected
        else if step.SendSucceeded? && b.status == Unhealthy then Connected
        else if step.SendFailed? && step.errorCode in {"send_failed", "session_not_connected", "rate_limited_by_wa"} &&
                b.status == Connected && b.consecutiveFailures >= 4 then Unhealthy
        else b.status
  {
  }

  /** A session has a socket until it closes, logs out or is restarted; one is opened by a connect, a restart or a
      timer, and never by a timer on a session that is closing or while shutting down. */
  lemma SocketMoves(s: Session, step: Step)
    requires s.live.Some? && Apply(s, step).live.Some? && Refused(s, step).None?
    ensures var b, a := s.live.value, Apply(s, step).live.value;
      a.hasSocket ==
        (if step.Connect? then b.hasSocket || step.opens
         else if step.Restart? then step.opens
         else if step.Logout? || step.Closed? then false
         else if step.TimerFires? && b.timer.Some? && !b.closing && !s.shuttingDown then b.hasSocket || step.opens
         else b.hasSocket) &&
      a.closing ==
        (if step.Logout? then true else if step.Restart? || (step.Connect? && !b.hasSocket) then false
         else b.closing) &&
      a.hasQr ==
        (if step.QrIssued? then true
         else if step.Opened? || step.Restart? || step.Logout? || (Unasked(s, step) && step.reason == SignedOut) then
           false
         else b.hasQr)
  {
  }

  /** The pending reconnect: scheduled by an unasked close, in a quarter of a second on demand or after the backoff of
      the next attempt, while the budget of five or ten lasts; dropped when it fires and by a restart or a logout. */
  lemma TimerMoves(s: Session, step: Step)
    requires s.live.Some? && Apply(s, step).live.Some? && Refused(s, step).None?
    ensures var b, a := s.live.value, Apply(s, step).live.value;
      a.timer ==
        (if step.Restart? || step.Logout? || step.TimerFires? then None
         else if Unasked(s, step) && step.reason == RestartRequired && b.restarts < 5 then Some(250)
         else if Unasked(s, step) && step.reason == OtherReason && b.reconnectAttempts < 10 then
           Some(BackoffDelay(b.reconnectAttempts + 1, step.draw))
         else b.timer) &&
      Apply(s, step).reconnects == s.reconnects +
        (if Unasked(s, step) && ((step.reason == RestartRequired && b.restarts < 5) ||
                                 (step.reason == OtherReason && b.reconnectAttempts < 10)) then 1 else 0) &&
      a.lastErrorCode ==
        (if step.SendSucceeded? then None else if step.SendFailed? then Some(step.errorCode) else b.lastErrorCode)
  {
  }

  /** What a person logged out stays so: until it is reset or deleted, no step gives a logged-out session without a
      live socket one, or another stored status. */
  predicate SignedOff(s: Session) {
    s.row == Some(LoggedOut) &&
    (s.live.Some? ==> s.live.value.status == LoggedOut && s.live.value.closing && !s.live.value.hasSocket &&
                      s.live.value.timer.None?)
  }

  /** A socket's own events come only while there is one. */
  predicate FromASocket(s: Session, step: Step) {
    step.QrIssued? || step.Opened? || step.Closed? ==> s.live.Some? && s.live.value.hasSocket
  }

  predicate AllFromSockets(s: Session, steps: seq<Step>) {
    steps != [] ==>
      AllFromSockets(s, steps[..|steps| - 1]) && FromASocket(Exec(s, steps[..|steps| - 1]), steps[|steps| - 1])
  }

  lemma {:induction false} LoggedOutStaysOut(s: Session, steps: seq<Step>)
    requires SignedOff(s) && AllFromSockets(s, steps)
    requires forall i | 0 <= i < |steps| :: !steps[i].Reset? && !steps[i].Delete?
    ensures SignedOff(Exec(s, steps))
  {
    if steps != [] {
      LoggedOutStaysOut(s, steps[..|steps| - 1]);
    }
  }

  /** And a logout gets there from anywhere. */
  lemma LogoutSignsOff(s: Session)
    requires s.row.Some?
    ensures SignedOff(Apply(s, Logout))
  {
  }
}
