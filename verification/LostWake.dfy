/** No wake is lost: the snapshot a job goes to sleep with is kept until it is resumed. */
module LostWake {
  import opened Memory
  import opened Policy
  import opened Decider
  import opened DecisionFacts
  import opened Tick
  import opened Reconciling

  /** Asleep by the controller's hand, with the given snapshot remembered. Memory may still say
      active: the save of the suspend may have been lost. */
  predicate AsleepWith(w: Cluster, snapshot: Snapshot) {
    && w.obj.spec == Stopped && w.obj.mark == Some(Suspended)
    && w.mem.Some? && w.mem.value.phase != Unrecoverable
    && w.mem.value.snapshot == snapshot
  }

  /** Nobody deletes memory, and nobody else resumes the job. */
  predicate LeftAlone(events: seq<Event>) {
    forall i :: 0 <= i < |events| ==> !events[i].Forget? && (events[i].Others? ==> events[i].o.spec == Stopped)
  }

  /** Going to sleep: whether or not the save is lost, memory holds exactly the snapshot it held
      before, and it is the one this tick observed. */
  lemma FallsAsleepWithItsSnapshot(c: Config, w: Cluster, e: Event)
    requires Legal(c, w, e) && e.Reconcile? && e.outcome != Rejected
    requires Decides(e.seen) && DecisionOn(c, e.seen, w.mem, e.obs, e.now).action == Suspend
    ensures w.mem.Some? && AsleepWith(After(c, w, e), w.mem.value.snapshot)
    ensures e.obs.known && e.obs.snapshot == w.mem.value.snapshot
  {
    var before := Loaded(w.mem, e.seen, e.now);
    DecisionKeepsPhaseDiscipline(c, e.seen.policy.value, before, LiveOf(e.seen), e.obs, e.now);
    SuspendHasEvidence(c, e.seen.policy.value, before, LiveOf(e.seen), e.obs, e.now);
  }

  /** One tick on a sleeping job either resumes it or leaves it asleep with the same snapshot:
      through operator waits, unknown ticks, held resumes, lost saves and rejected patches. */
  lemma TickKeepsSnapshot(c: Config, w: Cluster, e: Event, snapshot: Snapshot)
    requires AsleepWith(w, snapshot) && Legal(c, w, e) && e.Reconcile?
    requires After(c, w, e).obj.spec == Stopped
    ensures AsleepWith(After(c, w, e), snapshot)
  {
    LoadedFollowsMark(w, e.seen, e.now);
    if Decides(e.seen) {
      var before, live := Loaded(w.mem, e.seen, e.now), LiveOf(e.seen);
      DecisionKeepsPhaseDiscipline(c, e.seen.policy.value, before, live, e.obs, e.now);
      if live.stopped && DecisionOn(c, e.seen, w.mem, e.obs, e.now).action != Resume {
        SleepKeepsSnapshot(c, e.seen.policy.value, before, live, e.obs, e.now);
      }
    }
  }

  /** No prefix of the run has resumed the job. */
  predicate NotResumed(c: Config, w: Cluster, events: seq<Event>)
    decreases |events|
  {
    w.obj.spec == Stopped && (events != [] ==> NotResumed(c, After(c, w, events[0]), events[1..]))
  }

  lemma {:induction false} SleepKeepsItsSnapshot(c: Config, w: Cluster, events: seq<Event>, snapshot: Snapshot)
    requires AsleepWith(w, snapshot)
    requires LegalRun(c, w, events) && LeftAlone(events) && NotResumed(c, w, events)
    ensures AsleepWith(Final(c, w, events), snapshot)
    decreases |events|
  {
    if events != [] {
      var e := events[0];
      if e.Reconcile? { TickKeepsSnapshot(c, w, e, snapshot); }
      assert NotResumed(c, After(c, w, e), events[1..]);
      assert LeftAlone(events[1..]);
      SleepKeepsItsSnapshot(c, After(c, w, e), events[1..], snapshot);
    }
  }

  /** A tick on a job asleep with a snapshot. */
  lemma AsleepTickResumesExactlyWhen(c: Config, w: Cluster, tick: Event, snapshot: Snapshot)
    requires AsleepWith(w, snapshot) && tick.Reconcile? && Legal(c, w, tick) && Decides(tick.seen)
    requires tick.seen.spec == Stopped && tick.seen.policy.value.mode == Auto && tick.obs.known && !tick.obs.unlearned
    ensures ResumesAt(c, w, tick) <==> WakeIsDue(w, tick, snapshot)
    ensures ResumesAt(c, w, tick) && tick.outcome != Rejected ==> After(c, w, tick).obj.spec == Running
  {
    LoadedFollowsMark(w, tick.seen, tick.now);
    ResumesExactlyWhenDue(c, tick.seen.policy.value, Loaded(w.mem, tick.seen, tick.now), LiveOf(tick.seen), tick.obs, tick.now);
  }

  predicate ResumesAt(c: Config, w: Cluster, tick: Event)
    requires tick.Reconcile? && Decides(tick.seen)
  {
    DecisionOn(c, tick.seen, w.mem, tick.obs, tick.now).action == Resume
  }

  /** The operator has finished suspending, the offsets differ from those the job went to sleep with
      or its longest sleep is over, and a group that holds its position still has its offsets. */
  predicate WakeIsDue(w: Cluster, tick: Event, snapshot: Snapshot)
    requires tick.Reconcile? && Decides(tick.seen)
  {
    var p, live := tick.seen.policy.value, LiveOf(tick.seen);
    && live.Asleep()
    && (tick.obs.snapshot != snapshot || RefreshDue(p, Loaded(w.mem, tick.seen, tick.now), live, tick.now))
    && (live.ResumesFromGroup(p) ==> !tick.obs.uncommitted && tick.obs.lagKnown)
  }

  /** From the tick that puts the job to sleep, through any run that has not resumed it: a tick that
      knows the offsets decides to resume exactly when a wake is due, measured against the offsets
      seen by the tick that suspended; and if its patch lands, the job runs. */
  lemma NoWakeIsLost(c: Config, w: Cluster, suspend: Event, events: seq<Event>, tick: Event)
    requires Legal(c, w, suspend) && suspend.Reconcile? && suspend.outcome != Rejected
    requires Decides(suspend.seen) && DecisionOn(c, suspend.seen, w.mem, suspend.obs, suspend.now).action == Suspend
    requires LegalRun(c, After(c, w, suspend), events) && LeftAlone(events) && NotResumed(c, After(c, w, suspend), events)
    requires var end := Final(c, After(c, w, suspend), events);
      && tick.Reconcile? && Legal(c, end, tick) && Decides(tick.seen)
      && tick.seen.spec == Stopped && tick.seen.policy.value.mode == Auto
      && tick.obs.known && !tick.obs.unlearned
    ensures var end := Final(c, After(c, w, suspend), events);
      && (ResumesAt(c, end, tick) <==> WakeIsDue(end, tick, suspend.obs.snapshot))
      && (ResumesAt(c, end, tick) && tick.outcome != Rejected ==> After(c, end, tick).obj.spec == Running)
  {
    FallsAsleepWithItsSnapshot(c, w, suspend);
    SleepKeepsItsSnapshot(c, After(c, w, suspend), events, suspend.obs.snapshot);
    AsleepTickResumesExactlyWhen(c, Final(c, After(c, w, suspend), events), tick, suspend.obs.snapshot);
  }
}
