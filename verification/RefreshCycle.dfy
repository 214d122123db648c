/** Sleeping on: a stateless job that hears no input is woken after its longest sleep so that its
    group's offsets do not expire, and put back to sleep. Through any number of these rounds the
    remembered time of the last input stays what it was. */
module RefreshCycle {
  import opened Clock
  import opened Memory
  import opened Policy
  import opened JobGate
  import opened Decider
  import opened DecisionFacts
  import opened Tick
  import opened Reconciling

  /** What still has to be open for an idle job that has been awake long enough. */
  predicate GatesOpen(c: Config, p: Policy, live: Live, obs: Observation) {
    && (live.upgradeMode in {Savepoint, LastState} || (live.upgradeMode == Stateless && p.resumeFromGroup))
    && (p.consumerGroup != "" ==> obs.lagKnown && obs.pending <= 0)
    && (p.idleFromJob ==> GateAnswer(c, p, obs).gate == JobIdle)
  }

  predicate ReadyToSleep(c: Config, p: Policy, before: State, live: Live, obs: Observation, now: Time) {
    && live.lifecycle == Stable && live.job == JobRunning && live.nonce <= before.restarts.lastNonce
    && now > before.awakeSince + p.minAwake && GatesOpen(c, p, live, obs)
  }

  lemma GatesSuspendExactlyWhen(c: Config, p: Policy, cur: State, live: Live, obs: Observation, now: Time)
    ensures ThroughGates(c, p, cur, live, obs, now).action == Suspend
       <==> now > cur.awakeSince + p.minAwake && GatesOpen(c, p, live, obs)
  {
  }

  lemma JudgedSuspendsExactlyWhen(c: Config, p: Policy, cur: State, live: Live, obs: Observation, now: Time)
    requires p.mode == Auto
    ensures Judged(c, p, cur, live, obs, now).action == Suspend
       <==> live.Settled() && IdleLongEnough(p, cur, live, now) && now > cur.awakeSince + p.minAwake && GatesOpen(c, p, live, obs)
  {
    GatesSuspendExactlyWhen(c, p, cur, live, obs, now);
  }

  /** An awake job that saw no new input is suspended exactly when it has been idle long enough and is
      ready to sleep. */
  lemma SuspendsExactlyWhen(c: Config, p: Policy, before: State, live: Live, obs: Observation, now: Time)
    requires before.phase == Active && !live.stopped && p.mode == Auto && p.minAwake >= 0
    requires obs.known && obs.snapshot == before.snapshot
    ensures Decide(c, p, before, live, obs, now).action == Suspend
       <==> IdleLongEnough(p, before, live, now) && ReadyToSleep(c, p, before, live, obs, now)
  {
    var seen := Absorbed(AfterSpecEdit(before, live, now), obs, now);
    TallyKeepsEvidence(c, seen, live, now);
    JudgedSuspendsExactlyWhen(c, p, Tallied(c, seen, live, now), live, obs, now);
  }

  // ---------------------------------------------------------------- one tick without input

  /** No new offsets, no change of mode, and what was read of the object agrees with its mark. */
  predicate QuietTick(e: Event, snapshot: Snapshot)
    requires e.Reconcile?
  {
    && e.seen.policy.Some? && (e.seen.policy.value.problems == [] ==> e.seen.policy.value.mode == Auto)
    && (e.obs.known ==> e.obs.snapshot == snapshot) && !e.obs.unlearned
    && (e.seen.spec == Stopped <==> e.seen.mark == Some(Suspended))
  }

  /** What a decision without input leaves alone. */
  ghost predicate HearsNothing(before: State, d: Decision) {
    && d.next.snapshot == before.snapshot && d.next.lastActivityAt == before.lastActivityAt
    && (d.next.phase == Unrecoverable ==> d.action == MarkUnrecoverable)
    && (d.next.phase == Suspended && before.phase == Suspended ==> d.next.suspendedAt == before.suspendedAt)
  }

  lemma AwakeHearsNothing(c: Config, p: Policy, prev: State, live: Live, obs: Observation, now: Time)
    requires prev.phase == Active && !live.stopped && obs.known && obs.snapshot == prev.snapshot && p.minAwake >= 0
    ensures HearsNothing(prev, WhileActive(c, p, prev, live, obs, now))
  {
    var seen := Absorbed(prev, obs, now);
    ActiveKeepsPhase(c, p, prev, live, obs, now);
    TallyKeepsEvidence(c, seen, live, now);
    JudgementKeepsClocks(c, p, Tallied(c, seen, live, now), live, obs, now);
  }

  lemma DecisionHearsNothing(c: Config, p: Policy, before: State, live: Live, obs: Observation, now: Time)
    requires before.phase != Unrecoverable && (live.stopped <==> before.phase == Suspended)
    requires p.mode == Auto && p.minAwake >= 0 && !obs.unlearned && (obs.known ==> obs.snapshot == before.snapshot)
    ensures HearsNothing(before, Decide(c, p, before, live, obs, now))
  {
    var prev := AfterSpecEdit(before, live, now);
    match before.phase {
      case Active => if obs.known { AwakeHearsNothing(c, p, prev, live, obs, now); }
      case Suspended =>
      case Unrecoverable =>
    }
  }

  // ---------------------------------------------------------------- runs without input

  /** Memory holds a snapshot and the time of the last input, and nothing is unrecoverable. */
  predicate Remembers(w: Cluster, snapshot: Snapshot, lastInput: Time) {
    && w.mem.Some? && w.mem.value.phase != Unrecoverable
    && w.mem.value.snapshot == snapshot && w.mem.value.lastActivityAt == lastInput
    && WholeSeconds(lastInput) == lastInput
    && w.obj.mark.Some? && w.obj.mark != Some(Unrecoverable)
  }

  /** Nobody deletes memory or edits the policy away, and no tick sees input. */
  predicate QuietRun(events: seq<Event>, snapshot: Snapshot) {
    forall i :: 0 <= i < |events| ==> !events[i].Forget? && (events[i].Reconcile? ==> QuietTick(events[i], snapshot))
  }

  /** The job is never given up on. */
  predicate NeverMarked(c: Config, w: Cluster, events: seq<Event>)
    decreases |events|
  {
    w.obj.mark != Some(Unrecoverable) && (events != [] ==> NeverMarked(c, After(c, w, events[0]), events[1..]))
  }

  lemma LoadedRemembers(w: Cluster, seen: Object, now: Time, snapshot: Snapshot, lastInput: Time)
    requires Remembers(w, snapshot, lastInput) && SameMark(seen, w.obj)
    ensures var s := Loaded(w.mem, seen, now);
      && s.snapshot == snapshot && s.lastActivityAt == lastInput && Some(s.phase) == w.obj.mark
      && (w.mem.value.phase == Suspended && w.obj.mark == Some(Suspended) ==> s.suspendedAt == w.mem.value.suspendedAt)
  {
    match w.mem.value.phase { case Active => case Suspended => case Unrecoverable => }
    match w.obj.mark.value { case Active => case Suspended => case Unrecoverable => }
  }

  lemma WrittenRemembers(w: Cluster, w': Cluster, d: Decision, before: State, snapshot: Snapshot, lastInput: Time)
    requires Remembers(w, snapshot, lastInput) && HearsNothing(before, d)
    requires before.snapshot == snapshot && before.lastActivityAt == lastInput && before.phase != Unrecoverable
    requires w'.mem == w.mem || (w'.mem == Some(Persisted(d.next)) && w'.obj.mark == Some(d.next.phase))
      || (w'.mem == Some(Persisted(d.next)) && d.next.phase == before.phase)
    requires w'.obj.mark == w.obj.mark || w'.obj.mark == Some(d.next.phase)
    requires w'.obj.mark != Some(Unrecoverable)
    ensures Remembers(w', snapshot, lastInput)
  {
  }

  lemma TickHearsNothing(c: Config, w: Cluster, e: Event, snapshot: Snapshot, lastInput: Time)
    requires Remembers(w, snapshot, lastInput) && e.Reconcile? && Legal(c, w, e) && QuietTick(e, snapshot)
    ensures HearsNothing(Loaded(w.mem, e.seen, e.now), Verdict(c, w, e))
  {
    LoadedRemembers(w, e.seen, e.now, snapshot, lastInput);
    if Decides(e.seen) {
      DecisionHearsNothing(c, e.seen.policy.value, Loaded(w.mem, e.seen, e.now), LiveOf(e.seen), e.obs, e.now);
    }
  }

  lemma StepRemembers(c: Config, w: Cluster, e: Event, snapshot: Snapshot, lastInput: Time)
    requires Remembers(w, snapshot, lastInput) && Legal(c, w, e)
    requires !e.Forget? && (e.Reconcile? ==> QuietTick(e, snapshot))
    requires After(c, w, e).obj.mark != Some(Unrecoverable)
    ensures Remembers(After(c, w, e), snapshot, lastInput)
  {
    if e.Reconcile? {
      TickHearsNothing(c, w, e, snapshot, lastInput);
      LoadedRemembers(w, e.seen, e.now, snapshot, lastInput);
      VerdictIsWritten(c, w, e);
      WrittenRemembers(w, After(c, w, e), Verdict(c, w, e), Loaded(w.mem, e.seen, e.now), snapshot, lastInput);
    }
  }

  /** However often the job is woken to refresh its offsets, restarted or put back to sleep, and
      whichever saves are lost, the time of its last input is remembered as it was. */
  lemma {:induction false} RunRemembers(c: Config, w: Cluster, events: seq<Event>, snapshot: Snapshot, lastInput: Time)
    requires Remembers(w, snapshot, lastInput)
    requires LegalRun(c, w, events) && QuietRun(events, snapshot) && NeverMarked(c, w, events)
    ensures Remembers(Final(c, w, events), snapshot, lastInput)
    decreases |events|
  {
    if events != [] {
      assert NeverMarked(c, After(c, w, events[0]), events[1..]);
      StepRemembers(c, w, events[0], snapshot, lastInput);
      assert QuietRun(events[1..], snapshot);
      RunRemembers(c, After(c, w, events[0]), events[1..], snapshot, lastInput);
    }
  }

  // ---------------------------------------------------------------- one sleep

  /** Asleep, and memory knows since when. */
  predicate AsleepSince(w: Cluster, since: Time) {
    && w.mem.Some? && w.mem.value.phase == Suspended && w.mem.value.suspendedAt == since && WholeSeconds(since) == since
    && w.obj.mark == Some(Suspended)
  }

  predicate NeverWoken(c: Config, w: Cluster, events: seq<Event>)
    decreases |events|
  {
    w.obj.mark == Some(Suspended) && (events != [] ==> NeverWoken(c, After(c, w, events[0]), events[1..]))
  }

  lemma StepSleepsOn(c: Config, w: Cluster, e: Event, snapshot: Snapshot, lastInput: Time, since: Time)
    requires Remembers(w, snapshot, lastInput) && AsleepSince(w, since) && Legal(c, w, e)
    requires !e.Forget? && (e.Reconcile? ==> QuietTick(e, snapshot))
    requires After(c, w, e).obj.mark == Some(Suspended)
    ensures AsleepSince(After(c, w, e), since)
  {
    if e.Reconcile? {
      LoadedRemembers(w, e.seen, e.now, snapshot, lastInput);
      if Decides(e.seen) {
        var before, live := Loaded(w.mem, e.seen, e.now), LiveOf(e.seen);
        DecisionHearsNothing(c, e.seen.policy.value, before, live, e.obs, e.now);
        DecisionKeepsPhaseDiscipline(c, e.seen.policy.value, before, live, e.obs, e.now);
      }
    }
  }

  lemma {:induction false} SleepIsMeasuredFromItsStart(c: Config, w: Cluster, events: seq<Event>, snapshot: Snapshot, lastInput: Time, since: Time)
    requires Remembers(w, snapshot, lastInput) && AsleepSince(w, since)
    requires LegalRun(c, w, events) && QuietRun(events, snapshot) && NeverWoken(c, w, events)
    ensures AsleepSince(Final(c, w, events), since) && Remembers(Final(c, w, events), snapshot, lastInput)
    decreases |events|
  {
    if events != [] {
      assert NeverWoken(c, After(c, w, events[0]), events[1..]);
      StepSleepsOn(c, w, events[0], snapshot, lastInput, since);
      StepRemembers(c, w, events[0], snapshot, lastInput);
      assert QuietRun(events[1..], snapshot);
      SleepIsMeasuredFromItsStart(c, After(c, w, events[0]), events[1..], snapshot, lastInput, since);
    }
  }

  predicate KnowingTick(c: Config, w: Cluster, tick: Event, snapshot: Snapshot) {
    && tick.Reconcile? && Legal(c, w, tick) && QuietTick(tick, snapshot) && Decides(tick.seen) && tick.obs.known
  }

  /** A sleep without input ends exactly at a tick past its remembered start plus the longest sleep at
      which the operator has finished and the group's offsets are all there. The wake is marked as a
      refresh. */
  lemma SleepEndsExactlyWhenDue(c: Config, w: Cluster, events: seq<Event>, tick: Event, snapshot: Snapshot, lastInput: Time, since: Time)
    requires Remembers(w, snapshot, lastInput) && AsleepSince(w, since)
    requires LegalRun(c, w, events) && QuietRun(events, snapshot) && NeverWoken(c, w, events)
    requires KnowingTick(c, Final(c, w, events), tick, snapshot)
    ensures var p, live := tick.seen.policy.value, LiveOf(tick.seen);
      var d := DecisionOn(c, tick.seen, Final(c, w, events).mem, tick.obs, tick.now);
      && (d.action == Resume <==>
            && live.ResumesFromGroup(p) && p.maxSleep > 0 && tick.now > since + p.maxSleep
            && live.Asleep() && !tick.obs.uncommitted && tick.obs.lagKnown)
      && (d.action == Resume ==> d.next.refreshWake && d.next.lastActivityAt == lastInput && d.next.awakeSince == tick.now)
  {
    SleepIsMeasuredFromItsStart(c, w, events, snapshot, lastInput, since);
    var end := Final(c, w, events);
    LoadedRemembers(end, tick.seen, tick.now, snapshot, lastInput);
    ResumesExactlyWhenDue(c, tick.seen.policy.value, Loaded(end.mem, tick.seen, tick.now), LiveOf(tick.seen), tick.obs, tick.now);
  }

  /** A suspend that is saved starts the sleep at its own instant, in whole seconds. */
  lemma SuspendStartsTheSleep(c: Config, w: Cluster, e: Event, snapshot: Snapshot, lastInput: Time)
    requires Remembers(w, snapshot, lastInput) && KnowingTick(c, w, e, snapshot) && e.outcome == Saved
    requires DecisionOn(c, e.seen, w.mem, e.obs, e.now).action == Suspend
    ensures AsleepSince(After(c, w, e), WholeSeconds(e.now)) && Remembers(After(c, w, e), snapshot, lastInput)
  {
    var p, before, live := e.seen.policy.value, Loaded(w.mem, e.seen, e.now), LiveOf(e.seen);
    VerdictIsWritten(c, w, e);
    DecisionKeepsPhaseDiscipline(c, p, before, live, e.obs, e.now);
    LoadedRemembers(w, e.seen, e.now, snapshot, lastInput);
    StepRemembers(c, w, e, snapshot, lastInput);
    SuspendIsDated(c, p, before, live, e.obs, e.now);
    WholeSecondsKeepsOrder(e.now, WholeSeconds(e.now));
  }

  lemma SuspendIsDated(c: Config, p: Policy, before: State, live: Live, obs: Observation, now: Time)
    requires Decide(c, p, before, live, obs, now).action == Suspend
    ensures Decide(c, p, before, live, obs, now).next.suspendedAt == now
  {
    OnlyActiveSuspends(c, p, before, live, obs, now);
  }

  /** From a saved suspend on: the sleep without input that it begins ends exactly at a tick past the
      instant of the suspend, in whole seconds, plus the longest sleep. */
  lemma SleepIsTimedFromItsSuspend(c: Config, w: Cluster, suspend: Event, events: seq<Event>, tick: Event,
                                   snapshot: Snapshot, lastInput: Time)
    requires Remembers(w, snapshot, lastInput) && KnowingTick(c, w, suspend, snapshot) && suspend.outcome == Saved
    requires DecisionOn(c, suspend.seen, w.mem, suspend.obs, suspend.now).action == Suspend
    requires var w' := After(c, w, suspend);
      && LegalRun(c, w', events) && QuietRun(events, snapshot) && NeverWoken(c, w', events)
      && KnowingTick(c, Final(c, w', events), tick, snapshot)
    ensures var p, live := tick.seen.policy.value, LiveOf(tick.seen);
      DecisionOn(c, tick.seen, Final(c, After(c, w, suspend), events).mem, tick.obs, tick.now).action == Resume
      <==> && live.ResumesFromGroup(p) && p.maxSleep > 0 && tick.now > WholeSeconds(suspend.now) + p.maxSleep
           && live.Asleep() && !tick.obs.uncommitted && tick.obs.lagKnown
  {
    SuspendStartsTheSleep(c, w, suspend, snapshot, lastInput);
    SleepEndsExactlyWhenDue(c, After(c, w, suspend), events, tick, snapshot, lastInput, WholeSeconds(suspend.now));
  }

  /** Asleep, while the save of the suspend was lost. */
  predicate AsleepUnsaved(w: Cluster) {
    w.mem.Some? && w.mem.value.phase == Active && w.obj.mark == Some(Suspended)
  }

  lemma UnsavedSleepIsNotDue(c: Config, p: Policy, before: State, live: Live, obs: Observation, now: Time)
    requires before.phase == Suspended && before.suspendedAt == now && live.stopped && p.mode == Auto && !obs.unlearned
    requires obs.known ==> obs.snapshot == before.snapshot
    ensures Decide(c, p, before, live, obs, now).action == Nothing
    ensures Decide(c, p, before, live, obs, now).next.phase == Suspended
    ensures Decide(c, p, before, live, obs, now).next.suspendedAt == now
  {
  }

  /** If that save was lost, repair dates the sleep to each tick in turn, so that no tick ends it; the
      first save dates it for good. */
  lemma UnsavedSleepStartsAtItsFirstSave(c: Config, w: Cluster, e: Event, snapshot: Snapshot, lastInput: Time)
    requires Remembers(w, snapshot, lastInput) && AsleepUnsaved(w)
    requires e.Reconcile? && Legal(c, w, e) && QuietTick(e, snapshot)
    ensures Verdict(c, w, e).action == Nothing && After(c, w, e).obj.mark == Some(Suspended)
    ensures e.outcome == Saved && Decides(e.seen) ==> AsleepSince(After(c, w, e), WholeSeconds(e.now))
    ensures e.outcome != Saved ==> AsleepUnsaved(After(c, w, e))
  {
    var before, live := Loaded(w.mem, e.seen, e.now), LiveOf(e.seen);
    LoadedRemembers(w, e.seen, e.now, snapshot, lastInput);
    VerdictIsWritten(c, w, e);
    if Decides(e.seen) { UnsavedSleepIsNotDue(c, e.seen.policy.value, before, live, e.obs, e.now); }
    WholeSecondsKeepsOrder(e.now, WholeSeconds(e.now));
  }

  /** The flag of a refresh wake survives a suspend whose save was lost: the next save keeps it on the
      sleeping job, and a resume that is not saved either finds it set. */
  lemma RefreshFlagOutlivesItsWake(c: Config, w: Cluster, e: Event, snapshot: Snapshot, lastInput: Time, resumed: Object, later: Time)
    requires Remembers(w, snapshot, lastInput) && AsleepUnsaved(w) && w.mem.value.refreshWake
    requires e.Reconcile? && Legal(c, w, e) && QuietTick(e, snapshot) && Decides(e.seen) && e.outcome == Saved
    requires resumed.mark == Some(Active)
    ensures After(c, w, e).mem.Some? && After(c, w, e).mem.value.phase == Suspended && After(c, w, e).mem.value.refreshWake
    ensures var s := Loaded(After(c, w, e).mem, resumed, later); s.phase == Active && s.refreshWake
  {
    var before, live := Loaded(w.mem, e.seen, e.now), LiveOf(e.seen);
    LoadedRemembers(w, e.seen, e.now, snapshot, lastInput);
    VerdictIsWritten(c, w, e);
    UnsavedSleepIsNotDue(c, e.seen.policy.value, before, live, e.obs, e.now);
    SleepKeepsFlag(c, e.seen.policy.value, before, live, e.obs, e.now);
  }

  lemma SleepKeepsFlag(c: Config, p: Policy, before: State, live: Live, obs: Observation, now: Time)
    requires before.phase == Suspended && before.suspendedAt == now && live.stopped && p.mode == Auto && !obs.unlearned
    requires obs.known ==> obs.snapshot == before.snapshot
    ensures Decide(c, p, before, live, obs, now).next.refreshWake == before.refreshWake
  {
  }

  /** Once the idle window after the last input has passed, an awake job goes back to sleep exactly at
      a tick at which it runs, is past its minimum time awake and has all gates open, even if the save
      of the wake was lost. */
  lemma ResleepsExactlyWhenReady(c: Config, w: Cluster, events: seq<Event>, tick: Event, snapshot: Snapshot, lastInput: Time)
    requires Remembers(w, snapshot, lastInput)
    requires LegalRun(c, w, events) && QuietRun(events, snapshot) && NeverMarked(c, w, events)
    requires KnowingTick(c, Final(c, w, events), tick, snapshot) && Final(c, w, events).obj.mark == Some(Active)
    requires tick.now > lastInput + tick.seen.policy.value.idleAfter
    ensures var end := Final(c, w, events);
      DecisionOn(c, tick.seen, end.mem, tick.obs, tick.now).action == Suspend
      <==> ReadyToSleep(c, tick.seen.policy.value, Loaded(end.mem, tick.seen, tick.now), LiveOf(tick.seen), tick.obs, tick.now)
  {
    RunRemembers(c, w, events, snapshot, lastInput);
    var end := Final(c, w, events);
    LoadedRemembers(end, tick.seen, tick.now, snapshot, lastInput);
    SuspendsExactlyWhen(c, tick.seen.policy.value, Loaded(end.mem, tick.seen, tick.now), LiveOf(tick.seen), tick.obs, tick.now);
  }
}
