/** A suspend made by someone else stays: the controller does not undo it, unless a release lost its
    delete. */
module HumanSuspend {
  import opened Clock
  import Budget
  import opened Memory
  import opened Policy
  import opened Decider
  import opened DecisionFacts
  import opened Tick
  import opened Observing
  import opened Resuming
  import opened Reconciling

  /** Suspended, and not by the controller: its mark does not say so. */
  predicate SuspendedByOthers(o: Object) {
    o.spec == Stopped && o.mark != Some(Suspended)
  }

  /** Nobody else sets the job running. */
  predicate OthersLeaveItStopped(events: seq<Event>) {
    forall i :: 0 <= i < |events| && events[i].Others? ==> events[i].o.spec == Stopped
  }

  lemma TickLeavesItStopped(c: Config, w: Cluster, e: Event)
    requires MemoryFits(w) && SuspendedByOthers(w.obj) && Legal(c, w, e) && e.Reconcile?
    ensures SuspendedByOthers(After(c, w, e).obj)
  {
    LoadedFollowsMark(w, e.seen, e.now);
    if Decides(e.seen) {
      DecisionKeepsPhaseDiscipline(c, e.seen.policy.value, Loaded(w.mem, e.seen, e.now), LiveOf(e.seen), e.obs, e.now);
    }
  }

  /** Whatever memory says (a lost save of our own resume, a deleted memory), under any policy,
      mode off and release included, and however much of others' changes a read has missed: the
      job someone else suspended is still suspended, and still not marked as ours, until someone
      else sets it running; provided that no release loses its delete over a memory that says
      suspended. */
  lemma {:induction false} SuspendByOthersStands(c: Config, w: Cluster, events: seq<Event>)
    requires MemoryFits(w) && SuspendedByOthers(w.obj)
    requires LegalRun(c, w, events) && OthersLeaveItStopped(events) && KeepsDeletes(c, w, events)
    ensures SuspendedByOthers(Final(c, w, events).obj)
    decreases |events|
  {
    if events != [] {
      var e := events[0];
      StepKeepsMemoryFitExactlyWhen(c, w, e);
      if e.Reconcile? { TickLeavesItStopped(c, w, e); }
      assert OthersLeaveItStopped(events[1..]);
      SuspendByOthersStands(c, After(c, w, e), events[1..]);
    }
  }

  /** A suspend of someone else's, at any point of any run, on an object the controller had marked
      active or unrecoverable. */
  lemma AnyoneElsesSuspendStands(c: Config, w: Cluster, before: seq<Event>, o: Object, after: seq<Event>)
    requires MemoryFits(w) && LegalRun(c, w, before) && KeepsDeletes(c, w, before)
    requires Final(c, w, before).obj.mark in {Some(Active), Some(Unrecoverable)}
    requires o.spec == Stopped && Legal(c, Final(c, w, before), Others(o))
    requires LegalRun(c, After(c, Final(c, w, before), Others(o)), after) && OthersLeaveItStopped(after)
    requires KeepsDeletes(c, After(c, Final(c, w, before), Others(o)), after)
    ensures Final(c, After(c, Final(c, w, before), Others(o)), after).obj.spec == Stopped
  {
    RunKeepsMemoryFit(c, w, before);
    SuspendByOthersStands(c, After(c, Final(c, w, before), Others(o)), after);
  }

  // ---------------------------------------------------------------- the condition is exact

  /** Every continuation after an instant whose releases keep their deletes leaves the job as others
      suspended it. */
  ghost predicate Stands(c: Config, w: Cluster, clock: Time) {
    forall events :: Credible(events, clock) && LegalRun(c, w, events) && OthersLeaveItStopped(events) && KeepsDeletes(c, w, events)
      ==> SuspendedByOthers(Final(c, w, events).obj)
  }

  const WATCHED := Policy(Auto, ["orders"], SECOND, 0, true, "", false, false, 0, [])

  /** The policy comes back, and the operator reports the human's suspend complete. */
  function Readopted(o: Object): Object {
    o.(policy := Some(WATCHED), lifecycle := SuspendedByOperator, suspending := false, upgradeMode := Savepoint)
  }

  /** Memory says suspended under no mark: the first tick that sees movement resumes the job. */
  lemma ReadoptedIsResumed(c: Config, m: State, o: Object, now: Time)
    requires m.phase == Suspended && o.spec == Stopped && o.mark == None
    ensures WritesRunning(PlanOf(c, Readopted(o), Some(m), Unlike(m.snapshot), now))
  {
    var before, live := Loaded(Some(m), Readopted(o), now), LiveOf(Readopted(o));
    assert before == m;
    UnlikeIsObserved(m.snapshot);
    ResumesExactlyWhenDue(c, WATCHED, before, live, Unlike(m.snapshot), now);
  }

  /** Two events that undo the suspend after a lost delete. */
  function Undoing(w: Cluster, now: Time): seq<Event>
    requires w.mem.Some?
  {
    [Others(Readopted(w.obj)), Reconcile(Readopted(w.obj), now, Unlike(w.mem.value.snapshot), Saved)]
  }

  lemma UndoingUndoes(c: Config, w: Cluster, now: Time)
    requires w.mem.Some? && w.mem.value.phase == Suspended && w.obj.spec == Stopped && w.obj.mark == None
    ensures var events := Undoing(w, now);
      && LegalRun(c, w, events) && OthersLeaveItStopped(events) && KeepsDeletes(c, w, events)
      && Final(c, w, events).obj.spec == Running
  {
    var events := Undoing(w, now);
    var adopted := w.(obj := Readopted(w.obj));
    ReadoptedIsResumed(c, w.mem.value, w.obj, now);
    assert events[1..] == [events[1]] && events[1..][1..] == [];
    assert After(c, w, events[0]) == adopted;
    assert Legal(c, adopted, events[1]) && After(c, adopted, events[1]).obj.spec == Running;
    assert LegalRun(c, adopted, events[1..]) && KeepsDeletes(c, adopted, events[1..]);
    assert Final(c, adopted, events[1..]) == After(c, adopted, events[1]);
  }

  lemma UndoingIsCredible(w: Cluster, clock: Time, now: Time)
    requires w.mem.Some? && clock < now
    ensures Credible(Undoing(w, now), clock)
  {
    UnlikeIsObserved(w.mem.value.snapshot);
  }

  /** A tick on a job that others suspended leaves a state in which the suspend stands if and only if
      it is not a release that loses its delete over a memory that says suspended. */
  lemma SuspendStandsExactlyWhen(c: Config, w: Cluster, e: Event)
    requires MemoryFits(w) && SuspendedByOthers(w.obj) && Legal(c, w, e) && e.Reconcile?
    ensures Stands(c, After(c, w, e), e.now) <==> !DeleteLost(c, w, e)
  {
    var w' := After(c, w, e);
    TickLeavesItStopped(c, w, e);
    StepKeepsMemoryFitExactlyWhen(c, w, e);
    if DeleteLost(c, w, e) {
      UndoingUndoes(c, w', e.now + SECOND);
      UndoingIsCredible(w', e.now, e.now + SECOND);
    } else {
      forall events | LegalRun(c, w', events) && OthersLeaveItStopped(events) && KeepsDeletes(c, w', events)
        ensures SuspendedByOthers(Final(c, w', events).obj)
      {
        SuspendByOthersStands(c, w', events);
      }
    }
  }

  // ---------------------------------------------------------------- a run that undoes a suspend

  /** A job the controller resumed, losing the save, and a human suspended again; then the policy was
      removed. */
  function Abandoned(): Object {
    Object(Stopped, Some(Active), InputObserved, 0, 3, SuspendedByOperator, OtherJobState("FINISHED"), Savepoint, false, "",
           None, false)
  }

  function StillAsleep(): State {
    State(Suspended, Seeing(5).snapshot, SECOND, 2 * SECOND, SECOND, Budget.Fresh(0), NoInputFor(SECOND), 1, 0, 0, false, 0)
  }

  function LostRelease(): Event { Reconcile(Abandoned(), 10 * SECOND, Seeing(5), SaveLost) }

  lemma ReleaseLosesItsDelete(c: Config)
    ensures var w := Cluster(Abandoned(), Some(StillAsleep()));
      var w' := After(c, w, LostRelease());
      && MemoryFits(w) && SuspendedByOthers(w.obj) && Legal(c, w, LostRelease()) && DeleteLost(c, w, LostRelease())
      && w'.mem == w.mem && w'.obj.spec == Stopped && w'.obj.mark == None
  {
  }

  function UndoingRun(c: Config): seq<Event> {
    var w' := After(c, Cluster(Abandoned(), Some(StillAsleep())), LostRelease());
    ReleaseLosesItsDelete(c);
    [LostRelease()] + Undoing(w', 20 * SECOND)
  }

  lemma UndoingRunIsCredible(c: Config)
    ensures Credible(UndoingRun(c), 0)
  {
    var w' := After(c, Cluster(Abandoned(), Some(StillAsleep())), LostRelease());
    ReleaseLosesItsDelete(c);
    SeeingIsObserved(5);
    UndoingIsCredible(w', 10 * SECOND, 20 * SECOND);
    CredibleFirst(LostRelease(), Undoing(w', 20 * SECOND), 0);
  }

  /** The release clears the mark and fails to delete, a new policy is set, and ten seconds later a
      tick that sees other offsets sets the job running over the human's suspend. */
  lemma LostDeleteUndoesASuspend(c: Config)
    ensures var w := Cluster(Abandoned(), Some(StillAsleep()));
      && MemoryFits(w) && SuspendedByOthers(w.obj) && LegalRun(c, w, UndoingRun(c)) && OthersLeaveItStopped(UndoingRun(c))
      && Final(c, w, UndoingRun(c)).obj.spec == Running
  {
    var w := Cluster(Abandoned(), Some(StillAsleep()));
    var w' := After(c, w, LostRelease());
    ReleaseLosesItsDelete(c);
    UndoingUndoes(c, w', 20 * SECOND);
    RunFirst(c, w, LostRelease(), Undoing(w', 20 * SECOND));
    OthersFirst(LostRelease(), Undoing(w', 20 * SECOND));
  }

  lemma OthersFirst(e: Event, rest: seq<Event>)
    requires e.Reconcile? && OthersLeaveItStopped(rest)
    ensures OthersLeaveItStopped([e] + rest)
  {
    var events := [e] + rest;
    assert forall i :: 0 < i < |events| ==> events[i] == rest[i - 1];
  }
}
