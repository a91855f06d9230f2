/** The breaker's operations interleaved command by command. Failure and Open run a script and then pause
    three lanes, Close deletes the state, unpauses three lanes and deletes the counter, and the watcher reads
    a state before it closes; nothing holds the commands of one operation together
    (wa-shared/circuit/breaker.go, watcher.go). */
module LaneRaces {
  import opened Options
  import opened Breaker
  import opened CircuitRuns
  import Keys
  import Watcher

  /** What an operation has left to do. next: the lane to be paused or unpaused next. */
  datatype Todo =
    | Pausing(next: nat)
    | Deleting(byHand: bool)
    | Unpausing(next: nat)
    | Forgetting
    | Done

  datatype Op = Op(sessionId: string, todo: Todo)

  datatype Moment = Moment(circuits: Circuits, ops: seq<Op>)

  datatype Command =
    | Fail(sessionId: string, errorCode: string, at: int, call: Call)                     // the script
    | OpenBy(sessionId: string, reason: string, errorCode: string, at: int, call: Call)   // the script
    | Ask(sessionId: string, byHand: bool)   // a resume, or the reading that completes the watcher's streak
    | Delete(i: nat, call: Call)
    | Lane(i: nat, call: Call)
    | Forget(i: nat, call: Call)
    | Die(i: nat)
    | Succeed(sessionId: string, call: Call)
    | Expire(sessionId: string)

  const NO_LANES := LaneCalls(Refuses, Refuses, Refuses)
  const IDLE := Moment(Circuits(map[], {}), [])

  function Begun(st: Moment, c: Circuits, op: Op): Moment {
    Moment(c, st.ops + [op])
  }

  function Moved(st: Moment, i: nat, c: Circuits, todo: Todo): Moment
    requires i < |st.ops|
  {
    Moment(c, st.ops[i := st.ops[i].(todo := todo)])
  }

  function TodoOf(st: Moment, i: nat): Todo {
    if i < |st.ops| then st.ops[i].todo else Done
  }

  function Apply(st: Moment, threshold: nat, cmd: Command): Moment {
    match cmd
    case Fail(s, code, at, call) =>
      var (c, result) := AfterFailure(st.circuits, threshold, s, code, at, Opening(call, NO_LANES));
      if result == Ok(true) then Begun(st, c, Op(s, Pausing(0))) else st.(circuits := c)
    case OpenBy(s, reason, code, at, call) =>
      var (c, result) := AfterOpen(st.circuits, s, reason, code, at, Opening(call, NO_LANES));
      if result.Ok? then Begun(st, c, Op(s, Pausing(0))) else st.(circuits := c)
    case Ask(s, byHand) =>
      if s != "" && (byHand || Watcher.Tripped(st.circuits, s)) then Begun(st, st.circuits, Op(s, Deleting(byHand)))
      else st
    case Delete(i, call) =>
      if !TodoOf(st, i).Deleting? then st
      else
        var redis := if call.Applies() then st.circuits.redis - {StateKey(st.ops[i].sessionId)} else st.circuits.redis;
        Moved(st, i, st.circuits.(redis := redis), if call.Answers? then Unpausing(0) else Done)
    case Lane(i, call) =>
      (match TodoOf(st, i)
       case Pausing(k) =>
         if k >= |PRIORITIES| then st
         else
           var lane := {Keys.QueueFor(st.ops[i].sessionId, PRIORITIES[k])};
           var paused := if call.Applies() then st.circuits.paused + lane else st.circuits.paused;
           Moved(st, i, st.circuits.(paused := paused), if k + 1 < |PRIORITIES| then Pausing(k + 1) else Done)
       case Unpausing(k) =>
         if k >= |PRIORITIES| then st
         else
           var lane := {Keys.QueueFor(st.ops[i].sessionId, PRIORITIES[k])};
           var paused := if call.Applies() then st.circuits.paused - lane else st.circuits.paused;
           Moved(st, i, st.circuits.(paused := paused), if k + 1 < |PRIORITIES| then Unpausing(k + 1) else Forgetting)
       case _ => st)
    case Forget(i, call) =>
      if !TodoOf(st, i).Forgetting? then st
      else
        var key := {FailuresKey(st.ops[i].sessionId)};
        var redis := if call.Applies() then st.circuits.redis - key else st.circuits.redis;
        Moved(st, i, st.circuits.(redis := redis), Done)
    case Die(i) => if i < |st.ops| then Moved(st, i, st.circuits, Done) else st
    case Succeed(s, call) => st.(circuits := AfterSuccess(st.circuits, s, call))
    case Expire(s) => st.(circuits := st.circuits.(redis := st.circuits.redis - {FailuresKey(s)}))
  }

  function Exec(st: Moment, threshold: nat, cmds: seq<Command>): Moment {
    if cmds == [] then st
    else Apply(Exec(st, threshold, cmds[..|cmds| - 1]), threshold, cmds[|cmds| - 1])
  }

  /** The session a command is about. */
  function About(st: Moment, cmd: Command): string {
    match cmd
    case Fail(s, _, _, _) => s
    case OpenBy(s, _, _, _, _) => s
    case Ask(s, _) => s
    case Succeed(s, _) => s
    case Expire(s) => s
    case Delete(i, _) => if i < |st.ops| then st.ops[i].sessionId else ""
    case Lane(i, _) => if i < |st.ops| then st.ops[i].sessionId else ""
    case Forget(i, _) => if i < |st.ops| then st.ops[i].sessionId else ""
    case Die(i) => if i < |st.ops| then st.ops[i].sessionId else ""
  }

  predicate Apart(st: Moment, cmd: Command, s: string) {
    !Collides(s, About(st, cmd))
  }

  predicate AllApart(st: Moment, threshold: nat, cmds: seq<Command>, s: string) {
    cmds != [] ==>
      var front := cmds[..|cmds| - 1];
      AllApart(st, threshold, front, s) && Apart(Exec(st, threshold, front), cmds[|cmds| - 1], s)
  }

  // ---------------------------------------------------------------- lanes and circuit in step

  /** The operation is about to delete the state of the session. */
  predicate Closer(st: Moment, i: nat, s: string) {
    i < |st.ops| && st.ops[i].sessionId == s && st.ops[i].todo.Deleting?
  }

  /** The command takes the state of the session away. */
  predicate Removes(st: Moment, cmd: Command, s: string) {
    cmd.Delete? && cmd.call.Applies() && Closer(st, cmd.i, s)
  }

  /** The lane is paused under a closed circuit, or runs under an open one. */
  predicate OutOfStep(st: Moment, s: string, p: Keys.Priority) {
    (Keys.QueueFor(s, p) in st.circuits.paused) != IsOpen(st.circuits, s)
  }

  /** The operation has yet to pause or unpause the lane. */
  predicate Owes(op: Op, s: string, p: Keys.Priority) {
    op.sessionId == s &&
    match op.todo
    case Pausing(k) => exists j :: k <= j < |PRIORITIES| && PRIORITIES[j] == p
    case Unpausing(k) => exists j :: k <= j < |PRIORITIES| && PRIORITIES[j] == p
    case _ => false
  }

  predicate AtRest(st: Moment, s: string, p: Keys.Priority) {
    forall i | 0 <= i < |st.ops| :: !Owes(st.ops[i], s, p)
  }

  /** The command is an operation's pause or unpause of the lane. */
  predicate Commands(st: Moment, cmd: Command, s: string, p: Keys.Priority) {
    cmd.Lane? && cmd.i < |st.ops| && st.ops[cmd.i].sessionId == s &&
    var todo := st.ops[cmd.i].todo;
    (todo.Pausing? || todo.Unpausing?) && todo.next < |PRIORITIES| && PRIORITIES[todo.next] == p
  }

  /** The circuit opens or closes, and whoever did it will not touch the lane. */
  predicate SwitchesUnseen(st: Moment, threshold: nat, cmd: Command, s: string) {
    match cmd
    case Fail(t, code, at, call) =>
      t == s && call.LosesReply? && !IsOpen(st.circuits, s) && Crosses(st.circuits, threshold, s)
    case OpenBy(t, _, _, _, call) => t == s && s != "" && call.LosesReply? && !IsOpen(st.circuits, s)
    case Delete(i, call) =>
      TodoOf(st, i).Deleting? && st.ops[i].sessionId == s && call.LosesReply? && IsOpen(st.circuits, s)
    case _ => false
  }

  /** One more failure reaches the threshold. */
  predicate Crosses(c: Circuits, threshold: nat, s: string) {
    s != "" && var n := Incremented(c.redis, FailuresKey(s)); n.Some? && n.value >= threshold
  }

  /** Known before the command, for the three kinds that settle what becomes of a lane. A pause is bad when the
      circuit has been closed meanwhile, an unpause when it has been opened, either when it is refused though
      the lane needs it; a death, when the lane it leaves alone is out of step; a switch nobody follows up,
      when the lane was in step. */
  predicate Bad(st: Moment, threshold: nat, cmd: Command, s: string, p: Keys.Priority) {
    if Commands(st, cmd, s, p) && cmd.call.Applies() then st.ops[cmd.i].todo.Pausing? != IsOpen(st.circuits, s)
    else if SwitchesUnseen(st, threshold, cmd, s) then !OutOfStep(st, s, p)
    else OutOfStep(st, s, p)
  }

  predicate Settles(st: Moment, threshold: nat, cmd: Command, s: string, p: Keys.Priority) {
    Commands(st, cmd, s, p) || SwitchesUnseen(st, threshold, cmd, s) ||
    (cmd.Die? && cmd.i < |st.ops| && Owes(st.ops[cmd.i], s, p))
  }

  /** The last of those commands was a bad one. */
  predicate LastWasBad(threshold: nat, cmds: seq<Command>, s: string, p: Keys.Priority) {
    cmds != [] &&
    var front, last := cmds[..|cmds| - 1], cmds[|cmds| - 1];
    var st := Exec(IDLE, threshold, front);
    if Settles(st, threshold, last, s, p) then Bad(st, threshold, last, s, p)
    else LastWasBad(threshold, front, s, p)
  }

  lemma LaneOf(s: string, p: Keys.Priority, t: string, k: nat)
    requires k < |PRIORITIES|
    ensures Keys.QueueFor(s, p) == Keys.QueueFor(t, PRIORITIES[k]) <==> s == t && p == PRIORITIES[k]
  {
    if Keys.QueueFor(s, p) == Keys.QueueFor(t, PRIORITIES[k]) {
      Keys.QueueForInjective(s, p, t, PRIORITIES[k]);
    }
  }

  lemma LaneTurns(st: Moment, threshold: nat, i: nat, call: Call, s: string, p: Keys.Priority)
    requires Commands(st, Lane(i, call), s, p)
    ensures var n := Apply(st, threshold, Lane(i, call));
      IsOpen(n.circuits, s) == IsOpen(st.circuits, s) &&
      (Keys.QueueFor(s, p) in n.circuits.paused <==>
         if call.Applies() then st.ops[i].todo.Pausing? else Keys.QueueFor(s, p) in st.circuits.paused)
  {
    LaneOf(s, p, s, st.ops[i].todo.next);
  }

  lemma ScriptsPauseNothing(st: Moment, threshold: nat, cmd: Command)
    requires !cmd.Lane?
    ensures Apply(st, threshold, cmd).circuits.paused == st.circuits.paused
  {
    assert forall s :: Reached(s, NO_LANES) == {};
  }

  /** When a command of one session opens or closes it. */
  lemma Switches(st: Moment, threshold: nat, cmd: Command, s: string)
    requires Apart(st, cmd, s)
    ensures var n := Apply(st, threshold, cmd);
      IsOpen(n.circuits, s) <==>
        if cmd.Fail? && cmd.sessionId == s && cmd.call.Applies() && Crosses(st.circuits, threshold, s) then true
        else if cmd.OpenBy? && cmd.sessionId == s && s != "" && cmd.call.Applies() then true
        else if Removes(st, cmd, s) then false
        else IsOpen(st.circuits, s)
  {
    KeysApart(s, About(st, cmd));
    KeysApart(s, s);
  }

  lemma Turns(st: Moment, threshold: nat, cmd: Command, s: string, p: Keys.Priority)
    requires Apart(st, cmd, s) && Settles(st, threshold, cmd, s, p)
    ensures OutOfStep(Apply(st, threshold, cmd), s, p) <==> Bad(st, threshold, cmd, s, p)
  {
    Switches(st, threshold, cmd, s);
    if Commands(st, cmd, s, p) {
      LaneTurns(st, threshold, cmd.i, cmd.call, s, p);
    } else {
      ScriptsPauseNothing(st, threshold, cmd);
    }
  }

  lemma OtherLaneTurns(st: Moment, threshold: nat, i: nat, call: Call, s: string, p: Keys.Priority)
    requires !Commands(st, Lane(i, call), s, p)
    ensures var n := Apply(st, threshold, Lane(i, call));
      (Keys.QueueFor(s, p) in n.circuits.paused <==> Keys.QueueFor(s, p) in st.circuits.paused)
  {
    if i < |st.ops| {
      var todo := st.ops[i].todo;
      if (todo.Pausing? || todo.Unpausing?) && todo.next < |PRIORITIES| {
        LaneOf(s, p, st.ops[i].sessionId, todo.next);
      }
    }
  }

  lemma NewOpOwes(st: Moment, c: Circuits, op: Op, s: string, p: Keys.Priority)
    ensures AtRest(Begun(st, c, op), s, p) <==> AtRest(st, s, p) && !Owes(op, s, p)
  {
    var n := Begun(st, c, op);
    assert n.ops[|st.ops|] == op;
    assert forall i | 0 <= i < |st.ops| :: n.ops[i] == st.ops[i];
  }

  lemma MovedOpOwes(st: Moment, i: nat, c: Circuits, todo: Todo, s: string, p: Keys.Priority)
    requires i < |st.ops| && (Owes(st.ops[i].(todo := todo), s, p) <==> Owes(st.ops[i], s, p))
    ensures AtRest(Moved(st, i, c, todo), s, p) <==> AtRest(st, s, p)
  {
    var n := Moved(st, i, c, todo);
    assert forall j | 0 <= j < |st.ops| :: Owes(n.ops[j], s, p) == Owes(st.ops[j], s, p);
  }

  lemma EveryLaneOwed(p: Keys.Priority)
    ensures exists j :: 0 <= j < |PRIORITIES| && PRIORITIES[j] == p
  {
    assert PRIORITIES[0] == Keys.Critical && PRIORITIES[1] == Keys.Default && PRIORITIES[2] == Keys.Bulk;
  }

  lemma NextLaneOwed(op: Op, k: nat, s: string, p: Keys.Priority)
    requires k < |PRIORITIES| && (op.todo == Pausing(k) || op.todo == Unpausing(k)) && op.sessionId == s
    requires PRIORITIES[k] != p
    ensures Owes(op, s, p) <==>
            k + 1 < |PRIORITIES| &&
            Owes(op.(todo := if op.todo.Pausing? then Pausing(k + 1) else Unpausing(k + 1)), s, p)
  {
  }

  lemma LaneKeepsDebts(st: Moment, threshold: nat, i: nat, call: Call, s: string, p: Keys.Priority)
    requires !Commands(st, Lane(i, call), s, p)
    ensures AtRest(Apply(st, threshold, Lane(i, call)), s, p) <==> AtRest(st, s, p)
  {
    var n := Apply(st, threshold, Lane(i, call));
    if i < |st.ops| && n != st {
      var op := st.ops[i];
      if op.sessionId == s {
        NextLaneOwed(op, op.todo.next, s, p);
      }
      MovedOpOwes(st, i, n.circuits, n.ops[i].todo, s, p);
    }
  }

  lemma DeleteKeepsDebts(st: Moment, threshold: nat, i: nat, call: Call, s: string, p: Keys.Priority)
    ensures AtRest(Apply(st, threshold, Delete(i, call)), s, p) <==>
            AtRest(st, s, p) && !(TodoOf(st, i).Deleting? && call.Answers? && st.ops[i].sessionId == s)
  {
    var n := Apply(st, threshold, Delete(i, call));
    if TodoOf(st, i).Deleting? {
      EveryLaneOwed(p);
      if call.Answers? && st.ops[i].sessionId == s {
        assert Owes(n.ops[i], s, p);
      } else {
        MovedOpOwes(st, i, n.circuits, n.ops[i].todo, s, p);
      }
    }
  }

  /** The commands that do not settle the lane: the circuit does not switch, or somebody now owes the lane. */
  lemma Keeps(st: Moment, threshold: nat, cmd: Command, s: string, p: Keys.Priority)
    requires Apart(st, cmd, s) && !Settles(st, threshold, cmd, s, p)
    ensures AtRest(Apply(st, threshold, cmd), s, p) ==>
              AtRest(st, s, p) && (OutOfStep(Apply(st, threshold, cmd), s, p) <==> OutOfStep(st, s, p))
  {
    var n := Apply(st, threshold, cmd);
    Switches(st, threshold, cmd, s);
    EveryLaneOwed(p);
    match cmd
    case Lane(i, call) =>
      OtherLaneTurns(st, threshold, i, call, s, p);
      LaneKeepsDebts(st, threshold, i, call, s, p);
    case Fail(t, _, _, _) =>
      ScriptsPauseNothing(st, threshold, cmd);
      NewOpOwes(st, n.circuits, Op(t, Pausing(0)), s, p);
    case OpenBy(t, _, _, _, _) =>
      ScriptsPauseNothing(st, threshold, cmd);
      NewOpOwes(st, n.circuits, Op(t, Pausing(0)), s, p);
    case Ask(t, byHand) => NewOpOwes(st, st.circuits, Op(t, Deleting(byHand)), s, p);
    case Delete(i, call) => DeleteKeepsDebts(st, threshold, i, call, s, p);
    case Forget(i, _) =>
      if TodoOf(st, i).Forgetting? {
        MovedOpOwes(st, i, n.circuits, Done, s, p);
      }
    case Die(i) =>
      if i < |st.ops| {
        MovedOpOwes(st, i, st.circuits, Done, s, p);
      }
    case _ =>
  }

  /** In every interleaving of any number of failures, pauses, resumes and polls, on any sessions: once nobody
      has a lane left to touch, it is out of step with its circuit exactly when the last command to settle
      it was a bad one. */
  lemma {:induction false} LanesFollowIff(threshold: nat, cmds: seq<Command>, s: string, p: Keys.Priority)
    requires AllApart(IDLE, threshold, cmds, s) && AtRest(Exec(IDLE, threshold, cmds), s, p)
    ensures OutOfStep(Exec(IDLE, threshold, cmds), s, p) <==> LastWasBad(threshold, cmds, s, p)
  {
    if cmds != [] {
      var front, last := cmds[..|cmds| - 1], cmds[|cmds| - 1];
      var st := Exec(IDLE, threshold, front);
      if Settles(st, threshold, last, s, p) {
        Turns(st, threshold, last, s, p);
      } else {
        Keeps(st, threshold, last, s, p);
        LanesFollowIff(threshold, front, s, p);
      }
    }
  }

  // ---------------------------------------------------------------- one operation undisturbed

  function Three(i: nat, l: LaneCalls): seq<Command> {
    [Lane(i, l.critical), Lane(i, l.normal), Lane(i, l.bulk)]
  }

  lemma ExecOne(st: Moment, threshold: nat, cmd: Command)
    ensures Exec(st, threshold, [cmd]) == Apply(st, threshold, cmd)
  {
  }

  lemma {:induction false} ExecTwo(st: Moment, threshold: nat, a: seq<Command>, b: seq<Command>)
    ensures Exec(st, threshold, a + b) == Exec(Exec(st, threshold, a), threshold, b)
  {
    if b == [] {
      assert a + b == a;
    } else {
      var front := b[..|b| - 1];
      assert (a + b)[..|a + b| - 1] == a + front;
      ExecTwo(st, threshold, a, front);
    }
  }

  lemma ExecThree(st: Moment, threshold: nat, i: nat, l: LaneCalls)
    ensures Exec(st, threshold, Three(i, l)) ==
            Apply(Apply(Apply(st, threshold, Lane(i, l.critical)), threshold, Lane(i, l.normal)), threshold,
                  Lane(i, l.bulk))
  {
    ExecTwo(st, threshold, [Lane(i, l.critical), Lane(i, l.normal)], [Lane(i, l.bulk)]);
    assert Three(i, l) == [Lane(i, l.critical), Lane(i, l.normal)] + [Lane(i, l.bulk)];
    ExecTwo(st, threshold, [Lane(i, l.critical)], [Lane(i, l.normal)]);
    assert [Lane(i, l.critical), Lane(i, l.normal)] == [Lane(i, l.critical)] + [Lane(i, l.normal)];
  }

  function OneIf(applies: bool, lane: string): set<string> {
    if applies then {lane} else {}
  }

  lemma ReachedIsThree(s: string, l: LaneCalls)
    ensures Reached(s, l) ==
            OneIf(l.critical.Applies(), Keys.QueueFor(s, Keys.Critical)) +
            OneIf(l.normal.Applies(), Keys.QueueFor(s, Keys.Default)) +
            OneIf(l.bulk.Applies(), Keys.QueueFor(s, Keys.Bulk))
  {
    LaneReached(s, l, Keys.Critical);
    LaneReached(s, l, Keys.Default);
    LaneReached(s, l, Keys.Bulk);
  }

  lemma ThreePauses(st: Moment, threshold: nat, i: nat, l: LaneCalls)
    requires TodoOf(st, i) == Pausing(0)
    ensures var paused := st.circuits.paused + Reached(st.ops[i].sessionId, l);
      Exec(st, threshold, Three(i, l)) == Moved(st, i, st.circuits.(paused := paused), Done)
  {
    var s := st.ops[i].sessionId;
    ReachedIsThree(s, l);
    ExecThree(st, threshold, i, l);
    var one := Apply(st, threshold, Lane(i, l.critical));
    var two := Apply(one, threshold, Lane(i, l.normal));
    assert one.circuits.paused == st.circuits.paused + OneIf(l.critical.Applies(), Keys.QueueFor(s, Keys.Critical));
    assert two.circuits.paused == one.circuits.paused + OneIf(l.normal.Applies(), Keys.QueueFor(s, Keys.Default));
  }

  lemma ThreeUnpauses(st: Moment, threshold: nat, i: nat, l: LaneCalls)
    requires TodoOf(st, i) == Unpausing(0)
    ensures var paused := st.circuits.paused - Reached(st.ops[i].sessionId, l);
      Exec(st, threshold, Three(i, l)) == Moved(st, i, st.circuits.(paused := paused), Forgetting)
  {
    var s := st.ops[i].sessionId;
    ReachedIsThree(s, l);
    ExecThree(st, threshold, i, l);
    var one := Apply(st, threshold, Lane(i, l.critical));
    var two := Apply(one, threshold, Lane(i, l.normal));
    assert one.circuits.paused == st.circuits.paused - OneIf(l.critical.Applies(), Keys.QueueFor(s, Keys.Critical));
    assert two.circuits.paused == one.circuits.paused - OneIf(l.normal.Applies(), Keys.QueueFor(s, Keys.Default));
  }

  lemma NothingToTouch(st: Moment, threshold: nat, i: nat, l: LaneCalls)
    requires !TodoOf(st, i).Pausing? && !TodoOf(st, i).Unpausing?
    ensures Exec(st, threshold, Three(i, l)) == st
  {
    ExecThree(st, threshold, i, l);
  }

  /** With nobody in between, the commands of each operation are the operation. */
  lemma AloneIsAfterFailure(st: Moment, threshold: nat, s: string, code: string, at: int, o: Opening)
    ensures Exec(st, threshold, [Fail(s, code, at, o.script)] + Three(|st.ops|, o.lanes)).circuits ==
            AfterFailure(st.circuits, threshold, s, code, at, o).0
  {
    var cmd := Fail(s, code, at, o.script);
    ExecTwo(st, threshold, [cmd], Three(|st.ops|, o.lanes));
    ExecOne(st, threshold, cmd);
    var n := Apply(st, threshold, cmd);
    assert Reached(s, NO_LANES) == {};
    if |n.ops| > |st.ops| {
      ThreePauses(n, threshold, |st.ops|, o.lanes);
    } else {
      NothingToTouch(n, threshold, |st.ops|, o.lanes);
    }
  }

  lemma AloneIsAfterOpen(st: Moment, threshold: nat, s: string, reason: string, code: string, at: int, o: Opening)
    ensures Exec(st, threshold, [OpenBy(s, reason, code, at, o.script)] + Three(|st.ops|, o.lanes)).circuits ==
            AfterOpen(st.circuits, s, reason, code, at, o).0
  {
    var cmd := OpenBy(s, reason, code, at, o.script);
    ExecTwo(st, threshold, [cmd], Three(|st.ops|, o.lanes));
    ExecOne(st, threshold, cmd);
    var n := Apply(st, threshold, cmd);
    assert Reached(s, NO_LANES) == {};
    if |n.ops| > |st.ops| {
      ThreePauses(n, threshold, |st.ops|, o.lanes);
    } else {
      NothingToTouch(n, threshold, |st.ops|, o.lanes);
    }
  }

  lemma AloneIsAfterClose(st: Moment, threshold: nat, s: string, d: Closing)
    ensures var i := |st.ops|;
      var cmds := [Ask(s, true)] + [Delete(i, d.state)] + Three(i, d.lanes) + [Forget(i, d.counter)];
      Exec(st, threshold, cmds).circuits == AfterClose(st.circuits, s, d).0
  {
    var i := |st.ops|;
    ExecTwo(st, threshold, [Ask(s, true)] + [Delete(i, d.state)] + Three(i, d.lanes), [Forget(i, d.counter)]);
    ExecTwo(st, threshold, [Ask(s, true)] + [Delete(i, d.state)], Three(i, d.lanes));
    ExecTwo(st, threshold, [Ask(s, true)], [Delete(i, d.state)]);
    ExecOne(st, threshold, Ask(s, true));
    var asked := Apply(st, threshold, Ask(s, true));
    ExecOne(asked, threshold, Delete(i, d.state));
    var deleted := Apply(asked, threshold, Delete(i, d.state));
    if TodoOf(deleted, i).Unpausing? {
      ThreeUnpauses(deleted, threshold, i, d.lanes);
    } else {
      NothingToTouch(deleted, threshold, i, d.lanes);
    }
    ExecOne(Exec(deleted, threshold, Three(i, d.lanes)), threshold, Forget(i, d.counter));
  }

  // ---------------------------------------------------------------- late commands

  predicate Opener(st: Moment, i: nat, s: string) {
    i < |st.ops| && st.ops[i] == Op(s, Pausing(0))
  }

  /** A close that comes between an opening's script and its pauses: every call answers, and the circuit is
      closed with its lanes paused. */
  lemma LatePausesStrand(st: Moment, threshold: nat, i: nat, j: nat, s: string)
    requires Opener(st, i, s) && Closer(st, j, s)
    ensures var n := Exec(st, threshold, [Delete(j, Answers)] + Three(j, ALL_LANES) + Three(i, ALL_LANES));
      !IsOpen(n.circuits, s) && Lanes(s) <= n.circuits.paused
  {
    ExecTwo(st, threshold, [Delete(j, Answers)] + Three(j, ALL_LANES), Three(i, ALL_LANES));
    ExecTwo(st, threshold, [Delete(j, Answers)], Three(j, ALL_LANES));
    ExecOne(st, threshold, Delete(j, Answers));
    var deleted := Apply(st, threshold, Delete(j, Answers));
    ThreeUnpauses(deleted, threshold, j, ALL_LANES);
    ThreePauses(Exec(deleted, threshold, Three(j, ALL_LANES)), threshold, i, ALL_LANES);
    ReachesAllIff(s, ALL_LANES);
  }

  /** An opening that comes between a close's deletion and its unpauses: every call answers, and the circuit is
      open with everything still being sent. */
  lemma LateUnpausesRelease(st: Moment, threshold: nat, j: nat, s: string, reason: string, code: string, at: int)
    requires s != "" && Closer(st, j, s)
    ensures var i := |st.ops|;
      var n := Exec(st, threshold, [Delete(j, Answers)] + [OpenBy(s, reason, code, at, Answers)] +
                                   Three(i, ALL_LANES) + Three(j, ALL_LANES));
      IsOpen(n.circuits, s) && n.circuits.paused !! Lanes(s)
  {
    var i := |st.ops|;
    var two := [Delete(j, Answers)] + [OpenBy(s, reason, code, at, Answers)];
    ExecTwo(st, threshold, two + Three(i, ALL_LANES), Three(j, ALL_LANES));
    ExecTwo(st, threshold, two, Three(i, ALL_LANES));
    ExecTwo(st, threshold, [Delete(j, Answers)], [OpenBy(s, reason, code, at, Answers)]);
    ExecOne(st, threshold, Delete(j, Answers));
    var deleted := Apply(st, threshold, Delete(j, Answers));
    ExecOne(deleted, threshold, OpenBy(s, reason, code, at, Answers));
    var reopened := Apply(deleted, threshold, OpenBy(s, reason, code, at, Answers));
    ThreePauses(reopened, threshold, i, ALL_LANES);
    ThreeUnpauses(Exec(reopened, threshold, Three(i, ALL_LANES)), threshold, j, ALL_LANES);
    ReachesAllIff(s, ALL_LANES);
  }

  /** Both are reached from an idle breaker: a pause by hand, and a resume before it has paused a lane. */
  lemma PauseAndResumeMeet(threshold: nat, s: string, code: string, at: int)
    requires s != ""
    ensures var st := Exec(IDLE, threshold, [OpenBy(s, REASON_MANUAL, code, at, Answers)] + [Ask(s, true)]);
      Opener(st, 0, s) && Closer(st, 1, s)
  {
    var pause := OpenBy(s, REASON_MANUAL, code, at, Answers);
    ExecTwo(IDLE, threshold, [pause], [Ask(s, true)]);
    ExecOne(IDLE, threshold, pause);
    ExecOne(Apply(IDLE, threshold, pause), threshold, Ask(s, true));
  }

  // ---------------------------------------------------------------- a pause by hand and the watcher

  predicate Standing(st: Moment, n: Moment, s: string) {
    HeldByHand(n.circuits, s) && HeldByHand(st.circuits, s) &&
    n.circuits.redis[StateKey(s)] == st.circuits.redis[StateKey(s)]
  }

  predicate AlwaysStanding(st: Moment, threshold: nat, cmds: seq<Command>, s: string) {
    Standing(st, Exec(st, threshold, cmds), s) &&
    (cmds != [] ==> AlwaysStanding(st, threshold, cmds[..|cmds| - 1], s))
  }

  predicate NeverRemoved(st: Moment, threshold: nat, cmds: seq<Command>, s: string) {
    cmds != [] ==>
      var front := cmds[..|cmds| - 1];
      NeverRemoved(st, threshold, front, s) && !Removes(Exec(st, threshold, front), cmds[|cmds| - 1], s)
  }

  predicate NobodyResumes(cmds: seq<Command>, s: string) {
    forall i | 0 <= i < |cmds| :: !(cmds[i].Ask? && cmds[i].sessionId == s && cmds[i].byHand)
  }

  /** Those who are about to delete the state had decided to before. */
  predicate DecidedBefore(st: Moment, n: Moment, s: string) {
    |st.ops| <= |n.ops| && forall i: nat | i < |n.ops| && Closer(n, i, s) :: i < |st.ops| && st.ops[i] == n.ops[i]
  }

  lemma HeldIsNotTripped(c: Circuits, s: string)
    requires HeldByHand(c, s)
    ensures !Watcher.Tripped(c, s)
  {
  }

  lemma StandsIff(st: Moment, threshold: nat, cmd: Command, s: string)
    requires s != "" && Apart(st, cmd, s) && HeldByHand(st.circuits, s)
    ensures Standing(st, Apply(st, threshold, cmd), s) <==> !Removes(st, cmd, s)
  {
    KeysApart(s, About(st, cmd));
    KeysApart(s, s);
  }

  lemma NobodyNewDecides(st: Moment, n: Moment, threshold: nat, cmd: Command, s: string)
    requires HeldByHand(n.circuits, s) && DecidedBefore(st, n, s) && !(cmd.Ask? && cmd.sessionId == s && cmd.byHand)
    ensures DecidedBefore(st, Apply(n, threshold, cmd), s)
  {
    HeldIsNotTripped(n.circuits, s);
  }

  lemma StandingStep(st: Moment, n: Moment, threshold: nat, cmd: Command, s: string)
    requires s != "" && Apart(n, cmd, s) && Standing(st, n, s) && DecidedBefore(st, n, s)
    requires !(cmd.Ask? && cmd.sessionId == s && cmd.byHand)
    ensures Standing(st, Apply(n, threshold, cmd), s) <==> !Removes(n, cmd, s)
    ensures DecidedBefore(st, Apply(n, threshold, cmd), s)
  {
    StandsIff(n, threshold, cmd, s);
    NobodyNewDecides(st, n, threshold, cmd, s);
  }

  /** From the moment a session is paused by hand, as long as nobody resumes it: the pause stands throughout,
      stamp and all, exactly when nobody deletes the state, and only those can who had decided to close the
      circuit before it was paused. */
  lemma {:induction false} PauseStandsIff(st: Moment, threshold: nat, cmds: seq<Command>, s: string)
    requires s != "" && HeldByHand(st.circuits, s) && AllApart(st, threshold, cmds, s) && NobodyResumes(cmds, s)
    ensures AlwaysStanding(st, threshold, cmds, s) <==> NeverRemoved(st, threshold, cmds, s)
    ensures AlwaysStanding(st, threshold, cmds, s) ==> DecidedBefore(st, Exec(st, threshold, cmds), s)
  {
    if cmds != [] {
      var front, last := cmds[..|cmds| - 1], cmds[|cmds| - 1];
      PauseStandsIff(st, threshold, front, s);
      if AlwaysStanding(st, threshold, front, s) {
        StandingStep(st, Exec(st, threshold, front), threshold, last, s);
      }
    }
  }

  /** A pause by hand that the watcher undoes: it has read the tripped circuit and decided to close it, a person
      pauses the session and is told so, and then the watcher deletes the state. */
  lemma WatcherUndoesPauseRun(s: string, code: string, at: int)
    requires s != ""
    ensures var st := Exec(IDLE, 1, [Fail(s, code, at, Answers)] + [Ask(s, false)] +
                                    [OpenBy(s, REASON_MANUAL, code, at, Answers)]);
      HeldByHand(st.circuits, s) && Opener(st, 2, s) && Closer(st, 1, s) &&
      !IsOpen(Apply(st, 1, Delete(1, Answers)).circuits, s)
  {
    var pause := OpenBy(s, REASON_MANUAL, code, at, Answers);
    ExecTwo(IDLE, 1, [Fail(s, code, at, Answers)] + [Ask(s, false)], [pause]);
    ExecTwo(IDLE, 1, [Fail(s, code, at, Answers)], [Ask(s, false)]);
    ExecOne(IDLE, 1, Fail(s, code, at, Answers));
    var tripped := Apply(IDLE, 1, Fail(s, code, at, Answers));
    KeysApart(s, s);
    assert Watcher.Tripped(tripped.circuits, s);
    ExecOne(tripped, 1, Ask(s, false));
    ExecOne(Apply(tripped, 1, Ask(s, false)), 1, pause);
  }
}
