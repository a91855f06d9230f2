/** Sends merging into one open task at the same moment. A merge is three commands with nothing to hold
    them together, so other merges, a worker, and the task's own sender repeating itself can come between its
    look at the task, its deletion and its return (wa-shared/dispatch/enqueuer.go, mergeInto). */
module MergeRaces {
  import opened Options
  import opened Dispatch

  /** The open task's text, and which merges it has taken in, in order. */
  datatype Version = Version(text: string, from: seq<nat>)

  /** Took: the task is deleted and about to be put back. Merged: it is back, and the caller is told so.
      Unsaid: it is back, but the caller is told it was lost, as when it is not. Separate: the merge gives up
      and its text goes into a task of its own. */
  datatype Phase =
    | Asked
    | HasRead(seen: Version)
    | Took(seen: Version)
    | Merged(seen: Version)
    | Unsaid(seen: Version)
    | Separate
    | TaskLost

  datatype Merge = Merge(text: string, phase: Phase)

  /** The task's id on its queue. Active: with a worker, and not to be deleted. Idle: a worker has had it. */
  datatype Slot = Free | Scheduled(v: Version) | Active(v: Version) | Idle(v: Version)

  /** taken: the merges whose text a worker has had. */
  datatype State = State(slot: Slot, taken: set<nat>, merges: seq<Merge>)

  /** fits: the task is still far enough ahead and the merged text is not too long. A merge that dies with the
      task in its hands is one whose re-enqueue is refused. */
  datatype Step =
    | Read(i: nat, fits: bool)
    | Delete(i: nat, call: Call)
    | Restore(i: nat, call: Call)
    | Reopen      // the sender of the task repeats its own text, which is queued unless the id is there
    | Take        // a worker takes the task
    | Return      // and is done with it, or will retry it
    | Leave       // its retention is over

  function Start(base: string, texts: seq<string>): State {
    State(Scheduled(Version(base, [])), {},
          seq(|texts|, i requires 0 <= i < |texts| => Merge(texts[i], Asked)))
  }

  function At(s: State, i: nat): Phase {
    if i < |s.merges| then s.merges[i].phase else Asked
  }

  function Moved(s: State, i: nat, phase: Phase, slot: Slot): State
    requires i < |s.merges|
  {
    s.(slot := slot, merges := s.merges[i := s.merges[i].(phase := phase)])
  }

  function Holding(v: Version): set<nat> {
    set i | i in v.from
  }

  predicate Deletes(s: State, call: Call) {
    (s.slot.Scheduled? || s.slot.Idle?) && call.Applies()
  }

  predicate Restores(s: State, call: Call) {
    s.slot.Free? && call.Applies()
  }

  function Apply(s: State, base: string, step: Step): State {
    match step
    case Read(i, fits) =>
      if i >= |s.merges| || !At(s, i).Asked? then s
      else if s.slot.Scheduled? && fits then Moved(s, i, HasRead(s.slot.v), s.slot)
      else Moved(s, i, Separate, s.slot)
    case Delete(i, call) =>
      if i >= |s.merges| || !At(s, i).HasRead? then s
      else if !Deletes(s, call) then Moved(s, i, Separate, s.slot)
      else Moved(s, i, if call.Answers? then Took(At(s, i).seen) else Separate, Free)
    case Restore(i, call) =>
      if i >= |s.merges| || !At(s, i).Took? then s
      else if !Restores(s, call) then Moved(s, i, TaskLost, s.slot)
      else
        var seen := At(s, i).seen;
        var text := seen.text + COALESCE_SEPARATOR + s.merges[i].text;
        Moved(s, i, if call.Answers? then Phase.Merged(seen) else Unsaid(seen),
              Scheduled(Version(text, seen.from + [i])))
    case Reopen => if s.slot.Free? then s.(slot := Scheduled(Version(base, []))) else s
    case Take =>
      if s.slot.Scheduled? then s.(slot := Slot.Active(s.slot.v), taken := s.taken + Holding(s.slot.v)) else s
    case Return => if s.slot.Active? then s.(slot := Idle(s.slot.v)) else s
    case Leave => if s.slot.Idle? then s.(slot := Free) else s
  }

  function Exec(s: State, base: string, steps: seq<Step>): State {
    if steps == [] then s else Apply(Exec(s, base, steps[..|steps| - 1]), base, steps[|steps| - 1])
  }

  // ---------------------------------------------------------------- where a merged text is

  predicate HeldBy(s: State, h: nat, i: nat) {
    h < |s.merges| && At(s, h).Took? && i in At(s, h).seen.from
  }

  /** On the queue, with a worker, or in the hands of a merge that is exchanging the task. */
  predicate Present(s: State, i: nat) {
    i in s.taken || (!s.slot.Free? && i in s.slot.v.from) || exists h: nat | h < |s.merges| :: HeldBy(s, h, i)
  }

  /** No text whose caller was told it was merged is missing. */
  predicate Complete(s: State) {
    forall i: nat | i < |s.merges| && At(s, i).Merged? :: Present(s, i)
  }

  /** A worker has had it, or a merge other than k holds it. */
  predicate SafeFrom(s: State, k: nat, i: nat) {
    i in s.taken || exists h: nat | h < |s.merges| :: h != k && HeldBy(s, h, i)
  }

  /** Known before the step: it deletes a task holding a merged text that it did not read, or loses the reply;
      or it cannot put back one holding a merged text, being refused or finding the id there again without
      it; and the text is nowhere else. */
  predicate Drops(s: State, step: Step) {
    match step
    case Delete(k, call) =>
      k < |s.merges| && At(s, k).HasRead? && Deletes(s, call) &&
      exists i: nat | i < |s.merges| ::
        At(s, i).Merged? && i in s.slot.v.from && !(call.Answers? && i in At(s, k).seen.from) && !SafeFrom(s, k, i)
    case Restore(k, call) =>
      k < |s.merges| && At(s, k).Took? && !Restores(s, call) &&
      exists i: nat | i < |s.merges| ::
        At(s, i).Merged? && i in At(s, k).seen.from && !(!s.slot.Free? && i in s.slot.v.from) && !SafeFrom(s, k, i)
    case _ => false
  }

  predicate AlwaysComplete(s: State, base: string, steps: seq<Step>) {
    Complete(Exec(s, base, steps)) && (steps != [] ==> AlwaysComplete(s, base, steps[..|steps| - 1]))
  }

  predicate NeverDrops(s: State, base: string, steps: seq<Step>) {
    steps != [] ==>
      var front := steps[..|steps| - 1];
      NeverDrops(s, base, front) && !Drops(Exec(s, base, front), steps[|steps| - 1])
  }

  /** What a worker has had is marked so. */
  predicate WorkersMarked(s: State) {
    s.slot.Active? || s.slot.Idle? ==> Holding(s.slot.v) <= s.taken
  }

  lemma DeleteDropsIff(s: State, base: string, k: nat, call: Call)
    requires Complete(s)
    ensures Complete(Apply(s, base, Delete(k, call))) <==> !Drops(s, Delete(k, call))
  {
    var t := Apply(s, base, Delete(k, call));
    if k < |s.merges| && At(s, k).HasRead? && Deletes(s, call) {
      forall i: nat | i < |s.merges|
        ensures Present(t, i) <==> (call.Answers? && i in At(s, k).seen.from) || SafeFrom(s, k, i)
      {
        HandsAfterDelete(s, base, k, call, i);
      }
      forall i: nat | i < |s.merges| && Present(s, i)
        ensures i in s.slot.v.from || SafeFrom(s, k, i)
      {
      }
    } else {
      SameHands(s, t);
    }
  }

  lemma HandsAfterDelete(s: State, base: string, k: nat, call: Call, i: nat)
    requires k < |s.merges| && At(s, k).HasRead? && Deletes(s, call)
    ensures Present(Apply(s, base, Delete(k, call)), i) <==>
            (call.Answers? && i in At(s, k).seen.from) || SafeFrom(s, k, i)
  {
    var t := Apply(s, base, Delete(k, call));
    assert HeldBy(t, k, i) <==> call.Answers? && i in At(s, k).seen.from;
    assert forall h: nat | h != k :: HeldBy(t, h, i) <==> HeldBy(s, h, i);
  }

  lemma SameHands(s: State, t: State)
    requires |t.merges| == |s.merges| && t.slot == s.slot && t.taken == s.taken
    requires forall h: nat :: At(t, h).Took? <==> At(s, h).Took?
    requires forall h: nat :: At(s, h).Took? ==> At(t, h) == At(s, h)
    requires forall h: nat :: At(t, h).Merged? <==> At(s, h).Merged?
    ensures Complete(t) <==> Complete(s)
  {
    forall i: nat ensures Present(t, i) <==> Present(s, i) {
      assert forall h: nat :: HeldBy(t, h, i) <==> HeldBy(s, h, i);
    }
  }

  lemma HandsAfterRestore(s: State, base: string, k: nat, call: Call, i: nat)
    requires k < |s.merges| && At(s, k).Took?
    ensures Present(Apply(s, base, Restore(k, call)), i) <==>
            if Restores(s, call) then i in At(s, k).seen.from || i == k || SafeFrom(s, k, i)
            else (!s.slot.Free? && i in s.slot.v.from) || SafeFrom(s, k, i)
  {
    var t := Apply(s, base, Restore(k, call));
    assert forall h: nat | h != k :: HeldBy(t, h, i) <==> HeldBy(s, h, i);
    assert !HeldBy(t, k, i);
  }

  lemma PresentBefore(s: State, k: nat, i: nat)
    requires k < |s.merges| && At(s, k).Took?
    ensures Present(s, i) <==>
            i in At(s, k).seen.from || SafeFrom(s, k, i) || (!s.slot.Free? && i in s.slot.v.from)
  {
    assert HeldBy(s, k, i) <==> i in At(s, k).seen.from;
  }

  lemma RestoreDropsIff(s: State, base: string, k: nat, call: Call)
    requires Complete(s)
    ensures Complete(Apply(s, base, Restore(k, call))) <==> !Drops(s, Restore(k, call))
  {
    var t := Apply(s, base, Restore(k, call));
    if k < |s.merges| && At(s, k).Took? {
      forall i: nat | i < |s.merges| ensures i != k ==> (At(t, i).Merged? <==> At(s, i).Merged?) {
      }
      forall i: nat
        ensures Present(t, i) <==>
                if Restores(s, call) then i in At(s, k).seen.from || i == k || SafeFrom(s, k, i)
                else (!s.slot.Free? && i in s.slot.v.from) || SafeFrom(s, k, i)
        ensures Present(s, i) <==>
                i in At(s, k).seen.from || SafeFrom(s, k, i) || (!s.slot.Free? && i in s.slot.v.from)
      {
        HandsAfterRestore(s, base, k, call, i);
        PresentBefore(s, k, i);
      }
    }
  }

  lemma QuietStepKeepsComplete(s: State, base: string, step: Step)
    requires WorkersMarked(s) && Complete(s) && !step.Delete? && !step.Restore?
    ensures Complete(Apply(s, base, step))
  {
    var t := Apply(s, base, step);
    forall i: nat | i < |t.merges| && At(t, i).Merged? ensures Present(t, i) {
      assert Present(s, i);
      if h: nat :| h < |s.merges| && HeldBy(s, h, i) {
        assert HeldBy(t, h, i);
      }
    }
  }

  lemma {:induction false} CompleteRun(base: string, texts: seq<string>, steps: seq<Step>)
    ensures WorkersMarked(Exec(Start(base, texts), base, steps))
    ensures AlwaysComplete(Start(base, texts), base, steps) <==> NeverDrops(Start(base, texts), base, steps)
  {
    var s := Start(base, texts);
    if steps != [] {
      var front, last := steps[..|steps| - 1], steps[|steps| - 1];
      CompleteRun(base, texts, front);
      var here := Exec(s, base, front);
      if AlwaysComplete(s, base, front) {
        match last
        case Delete(k, call) => DeleteDropsIff(here, base, k, call);
        case Restore(k, call) => RestoreDropsIff(here, base, k, call);
        case _ => QuietStepKeepsComplete(here, base, last);
      }
    }
  }

  /** In every interleaving of any number of merges with a worker and with repeats of the task's own sender:
      every text whose caller was told it was merged has been in the task, or with a worker, at every moment,
      exactly when no step drops one. */
  lemma MergedTextsSurviveIff(base: string, texts: seq<string>, steps: seq<Step>)
    ensures AlwaysComplete(Start(base, texts), base, steps) <==> NeverDrops(Start(base, texts), base, steps)
  {
    CompleteRun(base, texts, steps);
  }

  // ---------------------------------------------------------------- versions

  function Rendered(base: string, s: State, from: seq<nat>): string {
    if from == [] then base
    else
      var last := from[|from| - 1];
      Rendered(base, s, from[..|from| - 1]) + COALESCE_SEPARATOR + if last < |s.merges| then s.merges[last].text else ""
  }

  /** A version holds merges, each of which read the version before it. */
  predicate Grown(base: string, s: State, v: Version) {
    v.text == Rendered(base, s, v.from) &&
    forall p | 0 <= p < |v.from| :: WentIn(At(s, v.from[p])) && At(s, v.from[p]).seen.from == v.from[..p]
  }

  predicate WentIn(phase: Phase) {
    phase.Merged? || phase.Unsaid?
  }

  predicate Sees(phase: Phase) {
    phase.HasRead? || phase.Took? || WentIn(phase)
  }

  ghost predicate VersionsOk(base: string, s: State) {
    (!s.slot.Free? ==> Grown(base, s, s.slot.v)) &&
    forall i: nat | Sees(At(s, i)) :: Grown(base, s, At(s, i).seen)
  }

  lemma {:induction false} RenderedKept(base: string, s: State, t: State, from: seq<nat>)
    requires |t.merges| == |s.merges| && forall i | 0 <= i < |s.merges| :: t.merges[i].text == s.merges[i].text
    ensures Rendered(base, t, from) == Rendered(base, s, from)
  {
    if from != [] {
      RenderedKept(base, s, t, from[..|from| - 1]);
    }
  }

  lemma GrownKept(base: string, s: State, step: Step, v: Version)
    requires Grown(base, s, v)
    ensures Grown(base, Apply(s, base, step), v)
  {
    RenderedKept(base, s, Apply(s, base, step), v.from);
  }

  lemma GrownByOne(base: string, s: State, i: nat, call: Call)
    requires VersionsOk(base, s) && At(s, i).Took? && Restores(s, call)
    ensures var t := Apply(s, base, Restore(i, call)); t.slot.Scheduled? && Grown(base, t, t.slot.v)
  {
    var t := Apply(s, base, Restore(i, call));
    var v := At(s, i).seen;
    GrownKept(base, s, Restore(i, call), v);
    assert t.slot.v.from == v.from + [i];
    assert t.slot.v.from[..|v.from|] == v.from;
    forall p | 0 <= p < |v.from| + 1
      ensures var x := (v.from + [i])[p]; WentIn(At(t, x)) && At(t, x).seen.from == (v.from + [i])[..p]
    {
      assert (v.from + [i])[..p] == v.from[..p];
    }
  }

  /** What a merge knows after a step: what it knew before, or the task as it was. */
  lemma SeenBefore(s: State, base: string, step: Step, i: nat)
    requires Sees(At(Apply(s, base, step), i))
    ensures var seen := At(Apply(s, base, step), i).seen;
      (Sees(At(s, i)) && seen == At(s, i).seen) || s.slot == Scheduled(seen)
    ensures At(Apply(s, base, step), i).Merged? ==> At(s, i).Merged? || (At(s, i).Took? && step == Restore(i, Answers))
  {
  }

  /** What is on the queue after a step was there before, has just been put back, or is the sender's own text. */
  lemma SlotBefore(s: State, base: string, step: Step)
    ensures var slot := Apply(s, base, step).slot;
      slot.Free? || (!s.slot.Free? && slot.v == s.slot.v) || (step.Reopen? && slot.v == Version(base, [])) ||
      (step.Restore? && At(s, step.i).Took? && Restores(s, step.call))
  {
  }

  lemma StepKeepsVersions(base: string, s: State, step: Step)
    requires VersionsOk(base, s)
    ensures VersionsOk(base, Apply(s, base, step))
  {
    var t := Apply(s, base, step);
    SlotBefore(s, base, step);
    if step.Restore? && At(s, step.i).Took? && Restores(s, step.call) {
      GrownByOne(base, s, step.i, step.call);
    } else if !t.slot.Free? && !s.slot.Free? {
      GrownKept(base, s, step, s.slot.v);
    }
    forall i: nat | Sees(At(t, i)) ensures Grown(base, t, At(t, i).seen) {
      SeenBefore(s, base, step, i);
      GrownKept(base, s, step, At(t, i).seen);
    }
  }

  lemma {:induction false} VersionsRun(base: string, texts: seq<string>, steps: seq<Step>)
    ensures VersionsOk(base, Exec(Start(base, texts), base, steps))
  {
    if steps != [] {
      VersionsRun(base, texts, steps[..|steps| - 1]);
      StepKeepsVersions(base, Exec(Start(base, texts), base, steps[..|steps| - 1]), steps[|steps| - 1]);
    }
  }

  /** Whatever is dropped, the task is a sound one: its sender's text and some merged ones, each once and in the
      order they went in; nothing of a merge whose caller was told to send it separately. */
  lemma TaskStaysSound(base: string, texts: seq<string>, steps: seq<Step>)
    ensures var s := Exec(Start(base, texts), base, steps);
      !s.slot.Free? ==>
        var v := s.slot.v;
        v.text == Rendered(base, s, v.from) && (forall p | 0 <= p < |v.from| :: WentIn(At(s, v.from[p]))) &&
        forall p, q | 0 <= p < q < |v.from| :: v.from[p] != v.from[q]
  {
    VersionsRun(base, texts, steps);
    var s := Exec(Start(base, texts), base, steps);
    if !s.slot.Free? {
      var from := s.slot.v.from;
      forall p, q | 0 <= p < q < |from| ensures from[p] != from[q] {
        assert |from[..p]| != |from[..q]|;
      }
    }
  }

  // ---------------------------------------------------------------- who is told that the task was lost

  ghost predicate NobodyTold(s: State) {
    forall i: nat :: !At(s, i).TaskLost? && !At(s, i).Unsaid?
  }

  /** At most one merge holds the task, and only while it is off the queue. */
  ghost predicate OneHolder(s: State) {
    (!s.slot.Free? ==> forall i: nat :: !At(s, i).Took?) &&
    (forall i: nat, j: nat | At(s, i).Took? && At(s, j).Took? :: i == j) &&
    NobodyTold(s)
  }

  /** A re-enqueue that reports an error. */
  predicate Fails(step: Step) {
    step.Restore? && !step.call.Answers?
  }

  /** Others stay as they are. */
  lemma StepMovesOne(s: State, base: string, step: Step, i: nat)
    requires !((step.Read? || step.Delete? || step.Restore?) && step.i == i)
    ensures At(Apply(s, base, step), i) == At(s, i)
  {
  }

  lemma StepKeepsHolder(s: State, base: string, step: Step)
    requires OneHolder(s) && !step.Reopen? && !Fails(step)
    ensures OneHolder(Apply(s, base, step))
  {
    var t := Apply(s, base, step);
    forall i: nat ensures !((step.Read? || step.Delete? || step.Restore?) && step.i == i) ==> At(t, i) == At(s, i) {
      if !((step.Read? || step.Delete? || step.Restore?) && step.i == i) {
        StepMovesOne(s, base, step, i);
      }
    }
  }

  /** A merge is told that the task was lost only when its re-enqueue fails or the task's sender has repeated
      itself: in every run without either, whatever merges and workers do, nobody is told. */
  lemma {:induction false} LostOnlyAfterARepeat(base: string, texts: seq<string>, steps: seq<Step>)
    requires forall i | 0 <= i < |steps| :: !steps[i].Reopen? && !Fails(steps[i])
    ensures OneHolder(Exec(Start(base, texts), base, steps))
  {
    if steps != [] {
      LostOnlyAfterARepeat(base, texts, steps[..|steps| - 1]);
      StepKeepsHolder(Exec(Start(base, texts), base, steps[..|steps| - 1]), base, steps[|steps| - 1]);
    }
  }

  // ---------------------------------------------------------------- merges among themselves

  /** A merge's command, and it answers. */
  predicate Merging(step: Step) {
    step.Read? || (step.Delete? && step.call.Answers?) || (step.Restore? && step.call.Answers?)
  }

  predicate MergesOnly(steps: seq<Step>) {
    forall i | 0 <= i < |steps| :: Merging(steps[i])
  }

  /** Known before the step: it deletes a task that is no longer the one it read. */
  predicate Clobbers(s: State, step: Step) {
    step.Delete? && At(s, step.i).HasRead? && s.slot.Scheduled? && At(s, step.i).seen != s.slot.v
  }

  predicate Clobbered(s: State, base: string, steps: seq<Step>) {
    steps != [] &&
    (Clobbered(s, base, steps[..|steps| - 1]) || Clobbers(Exec(s, base, steps[..|steps| - 1]), steps[|steps| - 1]))
  }

  /** What is on the queue, or in the hands of the merge that is exchanging it. */
  ghost predicate Current(s: State, v: Version) {
    s.slot == Scheduled(v) || (s.slot.Free? && exists h: nat :: At(s, h) == Took(v))
  }

  ghost predicate CarriesAll(s: State, v: Version) {
    Current(s, v) && forall i: nat | At(s, i).Merged? :: i in v.from
  }

  ghost predicate Inv(base: string, s: State) {
    VersionsOk(base, s) && OneHolder(s) && s.taken == {} && exists v :: Current(s, v)
  }

  lemma PresentIff(s: State, v: Version, i: nat)
    requires OneHolder(s) && s.taken == {} && Current(s, v)
    ensures Present(s, i) <==> i in v.from
  {
    if s.slot.Free? {
      var h: nat :| At(s, h) == Took(v);
      assert HeldBy(s, h, i) <==> i in v.from;
    }
  }

  lemma CompleteIffCarried(s: State, v: Version)
    requires OneHolder(s) && s.taken == {} && Current(s, v)
    ensures Complete(s) <==> CarriesAll(s, v)
  {
    forall i: nat ensures Present(s, i) <==> i in v.from {
      PresentIff(s, v, i);
    }
  }

  /** Two merges exchanged the same version of the task. */
  ghost predicate Forked(s: State) {
    exists a: nat, b: nat :: Fork(s, a, b)
  }

  predicate Fork(s: State, a: nat, b: nat) {
    a != b && (At(s, a).Merged? || At(s, a).Took?) && At(s, b).Merged? && At(s, a).seen.from == At(s, b).seen.from
  }

  lemma ForkedIsIncomplete(base: string, s: State, v: Version)
    requires Inv(base, s) && Forked(s) && Current(s, v)
    ensures !CarriesAll(s, v)
  {
    var a: nat, b: nat :| Fork(s, a, b);
    if b in v.from {
      ForkMissed(base, s, v, a, b);
    }
  }

  lemma ForkMissed(base: string, s: State, v: Version, a: nat, b: nat)
    requires Inv(base, s) && Current(s, v) && Fork(s, a, b) && b in v.from
    ensures At(s, a).Merged? && a !in v.from
  {
    assert Grown(base, s, v);
    var q :| 0 <= q < |v.from| && v.from[q] == b;
    assert |v.from[..q]| == q;
    forall p | 0 <= p < |v.from| ensures v.from[p] != a {
      assert |v.from[..p]| == p;
    }
  }

  /** A version read while the task carries everything is one the task has been through. */
  lemma SeenIsEarlier(base: string, s: State, i: nat)
    requires VersionsOk(base, s) && NobodyTold(s)
    requires s.slot.Scheduled? && CarriesAll(s, s.slot.v) && At(s, i).HasRead?
    ensures At(s, i).seen.from <= s.slot.v.from
  {
    var seen, now := At(s, i).seen.from, s.slot.v.from;
    assert Grown(base, s, At(s, i).seen);
    forall p | 0 <= p < |seen| ensures p < |now| && now[p] == seen[p] {
      assert At(s, seen[p]).Merged?;
      var q :| 0 <= q < |now| && now[q] == seen[p];
      assert |now[..q]| == |seen[..p]|;
    }
  }

  lemma ClobberForks(base: string, s: State, step: Step)
    requires VersionsOk(base, s) && NobodyTold(s) && Merging(step)
    requires s.slot.Scheduled? && CarriesAll(s, s.slot.v) && Clobbers(s, step)
    ensures Forked(Apply(s, base, step))
  {
    var seen, now := At(s, step.i).seen, s.slot.v;
    SeenIsEarlier(base, s, step.i);
    NextReader(base, s, seen, now);
    var b := now.from[|seen.from|];
    assert b != step.i;
    StepMovesOne(s, base, step, b);
    assert Fork(Apply(s, base, step), step.i, b);
  }

  /** Some merge took the task on from any earlier version. */
  lemma NextReader(base: string, s: State, seen: Version, now: Version)
    requires Grown(base, s, seen) && Grown(base, s, now) && NobodyTold(s) && seen != now && seen.from <= now.from
    ensures |seen.from| < |now.from|
    ensures var b := now.from[|seen.from|]; At(s, b).Merged? && At(s, b).seen.from == seen.from
  {
    assert seen.from != now.from;
    assert now.from[..|seen.from|] == seen.from;
  }

  lemma ForkStays(base: string, s: State, step: Step)
    requires OneHolder(s) && Forked(s) && Merging(step)
    ensures Forked(Apply(s, base, step))
  {
    var a: nat, b: nat :| Fork(s, a, b);
    if a != step.i {
      StepMovesOne(s, base, step, a);
    }
    if b != step.i {
      StepMovesOne(s, base, step, b);
    }
    assert At(Apply(s, base, step), b) == At(s, b);
    assert Fork(Apply(s, base, step), a, b);
  }

  /** The version the queue stands at moves on only when a merge puts the task back, unless one clobbers it. */
  lemma CurrentStays(s: State, base: string, step: Step, v: Version)
    requires OneHolder(s) && Current(s, v) && Merging(step)
    ensures var t := Apply(s, base, step);
      if step.Restore? && At(s, step.i).Took? then t.slot.Scheduled? && t.slot.v.from == v.from + [step.i]
      else if Clobbers(s, step) then Current(t, At(s, step.i).seen)
      else Current(t, v)
  {
    var t := Apply(s, base, step);
    if s.slot.Free? {
      var h: nat :| At(s, h) == Took(v);
      if !(step.Restore? && step.i == h) {
        assert At(t, h) == Took(v);
      }
    } else if t.slot.Free? {
      assert At(t, step.i) == Took(At(s, step.i).seen);
    }
  }

  lemma CarriedStays(base: string, s: State, step: Step, v: Version)
    requires OneHolder(s) && CarriesAll(s, v) && !Clobbers(s, step) && Merging(step)
    ensures exists w :: CarriesAll(Apply(s, base, step), w)
  {
    var t := Apply(s, base, step);
    CurrentStays(s, base, step, v);
    var w := if step.Restore? && At(s, step.i).Took? then t.slot.v else v;
    forall i: nat | At(t, i).Merged? ensures i in w.from {
      SeenBefore(s, base, step, i);
    }
    assert CarriesAll(t, w);
  }

  lemma SomethingCurrent(s: State, base: string, step: Step)
    requires OneHolder(s) && (exists v :: Current(s, v)) && Merging(step)
    ensures exists v :: Current(Apply(s, base, step), v)
  {
    var v :| Current(s, v);
    CurrentStays(s, base, step, v);
    if step.Restore? && At(s, step.i).Took? {
      assert Current(Apply(s, base, step), Apply(s, base, step).slot.v);
    }
  }

  lemma StepKeepsInv(base: string, s: State, step: Step)
    requires Inv(base, s) && Merging(step)
    ensures Inv(base, Apply(s, base, step))
  {
    StepKeepsVersions(base, s, step);
    StepKeepsHolder(s, base, step);
    SomethingCurrent(s, base, step);
    assert Apply(s, base, step).taken == s.taken;
  }

  lemma {:induction false} MergesRun(base: string, texts: seq<string>, steps: seq<Step>)
    requires MergesOnly(steps)
    ensures var s := Exec(Start(base, texts), base, steps);
      Inv(base, s) &&
      if Clobbered(Start(base, texts), base, steps) then Forked(s) else exists v :: CarriesAll(s, v)
  {
    var s := Start(base, texts);
    if steps == [] {
      assert Current(s, s.slot.v) && CarriesAll(s, s.slot.v);
    } else {
      var front, last := steps[..|steps| - 1], steps[|steps| - 1];
      MergesRun(base, texts, front);
      var here := Exec(s, base, front);
      StepKeepsInv(base, here, last);
      if Clobbered(s, base, front) {
        ForkStays(base, here, last);
      } else {
        var v :| CarriesAll(here, v);
        if Clobbers(here, last) {
          ClobberForks(base, here, last);
        } else {
          CarriedStays(base, here, last, v);
        }
      }
    }
  }

  /** With merges alone at work and all calls answering, what was dropped never comes back whole: the task
      carries every merged text at the end exactly when no merge ever deleted a task other than the one it had
      read. */
  lemma MergesAloneSurviveIff(base: string, texts: seq<string>, steps: seq<Step>)
    requires MergesOnly(steps)
    ensures Complete(Exec(Start(base, texts), base, steps)) <==> !Clobbered(Start(base, texts), base, steps)
  {
    MergesRun(base, texts, steps);
    var s := Exec(Start(base, texts), base, steps);
    if Clobbered(Start(base, texts), base, steps) {
      var v :| Current(s, v);
      CompleteIffCarried(s, v);
      ForkedIsIncomplete(base, s, v);
    } else {
      var v :| CarriesAll(s, v);
      CompleteIffCarried(s, v);
    }
  }

  // ---------------------------------------------------------------- runs

  lemma ExecSnoc(s: State, base: string, steps: seq<Step>, step: Step)
    ensures Exec(s, base, steps + [step]) == Apply(Exec(s, base, steps), base, step)
  {
    assert (steps + [step])[..|steps|] == steps;
  }

  lemma ClobberedSnoc(s: State, base: string, steps: seq<Step>, step: Step)
    ensures Clobbered(s, base, steps + [step]) <==> Clobbered(s, base, steps) || Clobbers(Exec(s, base, steps), step)
  {
    assert (steps + [step])[..|steps|] == steps;
  }

  lemma NothingClobbered(base: string, a: string, b: string)
    ensures !Clobbered(Start(base, [a, b]), base,
                       [Read(0, true)] + [Delete(0, Answers)] + [Restore(0, Answers)] + [Read(1, true)])
  {
    var s := Start(base, [a, b]);
    ExecSnoc(s, base, [], Read(0, true));
    assert [] + [Read(0, true)] == [Read(0, true)];
    ClobberedSnoc(s, base, [], Read(0, true));
    ClobberedSnoc(s, base, [Read(0, true)], Delete(0, Answers));
    ClobberedSnoc(s, base, [Read(0, true)] + [Delete(0, Answers)], Restore(0, Answers));
    ClobberedSnoc(s, base, [Read(0, true)] + [Delete(0, Answers)] + [Restore(0, Answers)], Read(1, true));
  }

  /** The first of two merges is merged, the second having read the task before. */
  lemma FirstMergesLate(base: string, a: string, b: string)
    ensures var v := Version(base, []);
      Exec(Start(base, [a, b]), base,
           [Read(0, true)] + [Read(1, true)] + [Delete(0, Answers)] + [Restore(0, Answers)]) ==
        State(Scheduled(Version(base + COALESCE_SEPARATOR + a, [0])), {},
              [Merge(a, Phase.Merged(v)), Merge(b, HasRead(v))])
  {
    var s := Start(base, [a, b]);
    var v := Version(base, []);
    FirstReads(base, a, b);
    ExecSnoc(s, base, [Read(0, true)], Read(1, true));
    ExecSnoc(s, base, [Read(0, true)] + [Read(1, true)], Delete(0, Answers));
    ExecSnoc(s, base, [Read(0, true)] + [Read(1, true)] + [Delete(0, Answers)], Restore(0, Answers));
    FirstExchanges(base, a, Merge(b, HasRead(v)));
    var one := State(Scheduled(v), {}, [Merge(a, HasRead(v)), Merge(b, Asked)]);
    assert Apply(one, base, Read(1, true)).merges == [Merge(a, HasRead(v)), Merge(b, HasRead(v))];
  }

  /** And the second reading it only then. */
  lemma FirstMergesEarly(base: string, a: string, b: string)
    ensures var v, w := Version(base, []), Version(base + COALESCE_SEPARATOR + a, [0]);
      Exec(Start(base, [a, b]), base,
           [Read(0, true)] + [Delete(0, Answers)] + [Restore(0, Answers)] + [Read(1, true)]) ==
        State(Scheduled(w), {}, [Merge(a, Phase.Merged(v)), Merge(b, HasRead(w))])
  {
    var s := Start(base, [a, b]);
    var v, w := Version(base, []), Version(base + COALESCE_SEPARATOR + a, [0]);
    FirstReads(base, a, b);
    ExecSnoc(s, base, [Read(0, true)], Delete(0, Answers));
    ExecSnoc(s, base, [Read(0, true)] + [Delete(0, Answers)], Restore(0, Answers));
    ExecSnoc(s, base, [Read(0, true)] + [Delete(0, Answers)] + [Restore(0, Answers)], Read(1, true));
    FirstExchanges(base, a, Merge(b, Asked));
    var three := State(Scheduled(w), {}, [Merge(a, Phase.Merged(v)), Merge(b, Asked)]);
    assert Apply(three, base, Read(1, true)).merges == [Merge(a, Phase.Merged(v)), Merge(b, HasRead(w))];
  }

  lemma FirstReads(base: string, a: string, b: string)
    ensures Exec(Start(base, [a, b]), base, [Read(0, true)]) ==
            State(Scheduled(Version(base, [])), {}, [Merge(a, HasRead(Version(base, []))), Merge(b, Asked)])
  {
    ExecSnoc(Start(base, [a, b]), base, [], Read(0, true));
    assert [] + [Read(0, true)] == [Read(0, true)];
    assert Start(base, [a, b]).merges == [Merge(a, Asked), Merge(b, Asked)];
  }

  lemma FirstExchanges(base: string, a: string, other: Merge)
    ensures var v := Version(base, []);
      var two := State(Scheduled(v), {}, [Merge(a, HasRead(v)), other]);
      Apply(Apply(two, base, Delete(0, Answers)), base, Restore(0, Answers)) ==
        State(Scheduled(Version(base + COALESCE_SEPARATOR + a, [0])), {}, [Merge(a, Phase.Merged(v)), other])
  {
    var v := Version(base, []);
    var two := State(Scheduled(v), {}, [Merge(a, HasRead(v)), other]);
    var three := Apply(two, base, Delete(0, Answers));
    assert three == State(Free, {}, [Merge(a, Took(v)), other]);
    assert v.from + [0] == [0];
  }

  /** Two merges read the same task, then both exchange it: both callers are told their text was merged, and
      the first one's is nowhere. */
  lemma OverwrittenTextRun(base: string, a: string, b: string)
    ensures var steps := [Read(0, true)] + [Read(1, true)] + [Delete(0, Answers)] + [Restore(0, Answers)] +
                         [Delete(1, Answers)] + [Restore(1, Answers)];
      var s := Exec(Start(base, [a, b]), base, steps);
      At(s, 0).Merged? && At(s, 1).Merged? && !Present(s, 0) &&
      s.slot == Scheduled(Version(base + COALESCE_SEPARATOR + b, [1]))
  {
    var s := Start(base, [a, b]);
    var four := [Read(0, true)] + [Read(1, true)] + [Delete(0, Answers)] + [Restore(0, Answers)];
    FirstMergesLate(base, a, b);
    ExecSnoc(s, base, four, Delete(1, Answers));
    ExecSnoc(s, base, four + [Delete(1, Answers)], Restore(1, Answers));
    var v := Version(base, []);
    var five := Apply(Exec(s, base, four), base, Delete(1, Answers));
    assert five == State(Free, {}, [Merge(a, Phase.Merged(v)), Merge(b, Took(v))]);
    assert v.from + [1] == [1];
    var six := Apply(five, base, Restore(1, Answers));
    assert six.merges == [Merge(a, Phase.Merged(v)), Merge(b, Phase.Merged(v))];
  }

  /** No merge overwrites another, and still a merged text is lost: while the second merge holds the task, its
      sender repeats itself; the task cannot be put back, and what is on the queue is the sender's text alone. */
  lemma RepeatInTheGapRun(base: string, a: string, b: string)
    ensures var steps := [Read(0, true)] + [Delete(0, Answers)] + [Restore(0, Answers)] + [Read(1, true)] +
                         [Delete(1, Answers)] + [Reopen] + [Restore(1, Answers)];
      var s := Exec(Start(base, [a, b]), base, steps);
      !Clobbered(Start(base, [a, b]), base, steps) &&
      At(s, 0).Merged? && !Present(s, 0) && At(s, 1).TaskLost? && s.slot == Scheduled(Version(base, []))
  {
    var s := Start(base, [a, b]);
    var four := [Read(0, true)] + [Delete(0, Answers)] + [Restore(0, Answers)] + [Read(1, true)];
    FirstMergesEarly(base, a, b);
    ExecSnoc(s, base, four, Delete(1, Answers));
    ExecSnoc(s, base, four + [Delete(1, Answers)], Reopen);
    ExecSnoc(s, base, four + [Delete(1, Answers)] + [Reopen], Restore(1, Answers));
    var v, w := Version(base, []), Version(base + COALESCE_SEPARATOR + a, [0]);
    var five := Apply(Exec(s, base, four), base, Delete(1, Answers));
    assert five == State(Free, {}, [Merge(a, Phase.Merged(v)), Merge(b, Took(w))]);
    var seven := Apply(Apply(five, base, Reopen), base, Restore(1, Answers));
    assert seven == State(Scheduled(v), {}, [Merge(a, Phase.Merged(v)), Merge(b, TaskLost)]);
    NothingClobbered(base, a, b);
    ClobberedSnoc(s, base, four, Delete(1, Answers));
    ClobberedSnoc(s, base, four + [Delete(1, Answers)], Reopen);
    ClobberedSnoc(s, base, four + [Delete(1, Answers)] + [Reopen], Restore(1, Answers));
  }

  /** With nobody in between, the three commands are the merge of the one-step model. */
  lemma AloneIsMergedInto(tasks: map<TaskId, Task>, id: TaskId, text: string, env: Env, cfg: Config)
    requires id in tasks && tasks[id].state == Waiting && !env.mergeLookupFails
    requires env.delete.Answers? && env.restore.Answers?
    ensures var (after, outcome) := MergedInto(tasks, id, text, env, cfg);
      var base := tasks[id].payload.text;
      var one := Apply(Start(base, [text]), base, Read(0, Mergeable(tasks, id, text, env, cfg)));
      var s := Apply(Apply(one, base, Delete(0, Answers)), base, Restore(0, Answers));
      id in after && s.slot.Scheduled? && s.slot.v.text == after[id].payload.text &&
      (outcome.Merged? <==> At(s, 0).Merged?) && (outcome.NotMerged? <==> At(s, 0).Separate?)
  {
  }

  /** The repeat in the gap: the id is free, the group is still the sender's own, and so its text is queued. */
  lemma RepeatIsQueued(sys: Sys, req: Request, env: Env, cfg: Config)
    requires Validate(req).Ok? && !env.lookupFails && env.claim.Answers? && env.slot.Some? && env.enqueue.Answers?
    requires var s := Validate(req).value;
      (s.Queue(), s.Key()) !in sys.tasks && Live(sys.groups, s.Group(), env.now) &&
      sys.groups[s.Group()].openKey == s.Key()
    ensures var s := Validate(req).value;
      var (after, result) := Enqueued(sys, req, env, cfg);
      after.tasks == sys.tasks[(s.Queue(), s.Key()) := Task(PayloadOf(s), Waiting, env.slot.value)] &&
      PayloadOf(s).text == req.text && result.Ok? && !result.value.duplicate
  {
    ValidatedIsValid(req);
  }
}
