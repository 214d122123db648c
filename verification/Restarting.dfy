/** A stay in RESTARTING is timed from the first tick that saw it, over whole runs: Flink's own restarts
    are left alone, and only a long stay is taken for a failure. */
module Restarting {
  import opened Clock
  import opened Budget
  import opened Memory
  import opened Policy
  import opened Decider
  import opened DecisionFacts
  import opened Tick
  import opened Reconciling
  import opened Actions

  /** The job is awake by mark and memory, and memory knows since when it is RESTARTING. */
  predicate RestartingSince(w: Cluster, since: Time) {
    && w.obj.mark == Some(Active) && w.mem.Some? && w.mem.value.phase == Active
    && w.mem.value.restartingSince == since != 0 && WholeSeconds(since) == since
  }

  /** A tick that reads the job as RESTARTING, under a policy that stays. */
  predicate SeesRestarting(e: Event) {
    e.Reconcile? && e.seen.job == JobRestarting && e.seen.policy.Some?
  }

  /** Every tick sees the job RESTARTING, and memory is not deleted. */
  predicate RestartingThroughout(events: seq<Event>) {
    forall i :: 0 <= i < |events| ==> !events[i].Forget? && (events[i].Reconcile? ==> SeesRestarting(events[i]))
  }

  /** The job is not given up on. */
  predicate NeverGivenUp(c: Config, w: Cluster, events: seq<Event>)
    decreases |events|
  {
    w.obj.mark == Some(Active) && (events != [] ==> NeverGivenUp(c, After(c, w, events[0]), events[1..]))
  }

  /** A decision on an awake job that is RESTARTING keeps the start of the stay, if there is one. */
  lemma DecisionKeepsStart(c: Config, p: Policy, before: State, live: Live, obs: Observation, now: Time)
    requires Sound(p) && p.problems == [] && before.phase == Active && live.job == JobRestarting && before.restartingSince != 0
    ensures var d := Decide(c, p, before, live, obs, now);
      d.next.restartingSince == before.restartingSince && (d.next.phase == Active || d.action == MarkUnrecoverable)
  {
    WaitingRemembers(c, p, before, live, obs, now);
    if !Changing(live) && obs.known && !live.stopped {
      AwakeRemembers(c, p, before, live, obs, now);
      SuspendsExactly(c, p, before, live, obs, now);
    }
  }

  lemma StepKeepsStart(c: Config, w: Cluster, e: Event, since: Time)
    requires RestartingSince(w, since) && Legal(c, w, e) && !e.Forget? && (e.Reconcile? ==> SeesRestarting(e))
    requires After(c, w, e).obj.mark == Some(Active)
    ensures RestartingSince(After(c, w, e), since)
  {
    if e.Reconcile? {
      var before := Loaded(w.mem, e.seen, e.now);
      assert before == w.mem.value;
      VerdictIsWritten(c, w, e);
      if Decides(e.seen) { DecisionKeepsStart(c, e.seen.policy.value, before, LiveOf(e.seen), e.obs, e.now); }
    }
  }

  lemma {:induction false} RunKeepsStart(c: Config, w: Cluster, events: seq<Event>, since: Time)
    requires RestartingSince(w, since) && LegalRun(c, w, events) && RestartingThroughout(events) && NeverGivenUp(c, w, events)
    ensures RestartingSince(Final(c, w, events), since)
    decreases |events|
  {
    if events != [] {
      assert NeverGivenUp(c, After(c, w, events[0]), events[1..]);
      StepKeepsStart(c, w, events[0], since);
      assert RestartingThroughout(events[1..]);
      RunKeepsStart(c, After(c, w, events[0]), events[1..], since);
    }
  }

  /** The first tick that sees an awake job RESTARTING, and is saved, starts the stay. */
  lemma FirstSightStartsTheStay(c: Config, w: Cluster, e: Event)
    requires Legal(c, w, e) && SeesRestarting(e) && Decides(e.seen) && e.outcome == Saved && e.now >= SECOND
    requires w.obj.mark == Some(Active) && w.mem.Some? && w.mem.value.phase == Active && w.mem.value.restartingSince == 0
    requires e.seen.spec != Stopped && e.obs.known && !Changing(LiveOf(e.seen)) && After(c, w, e).obj.mark == Some(Active)
    ensures RestartingSince(After(c, w, e), WholeSeconds(e.now))
  {
    var p, before, live := e.seen.policy.value, w.mem.value, LiveOf(e.seen);
    assert Loaded(w.mem, e.seen, e.now) == before;
    VerdictIsWritten(c, w, e);
    AwakeRemembers(c, p, before, live, e.obs, e.now);
    SuspendsExactly(c, p, before, live, e.obs, e.now);
    WholeSecondsTwice(e.now);
  }

  /** A tick that sees it in any other state ends the stay. */
  lemma OtherSightEndsTheStay(c: Config, w: Cluster, e: Event)
    requires Legal(c, w, e) && e.Reconcile? && Decides(e.seen) && e.outcome == Saved && e.seen.job != JobRestarting
    requires w.obj.mark == Some(Active) && w.mem.Some? && w.mem.value.phase == Active
    requires e.seen.spec != Stopped && e.obs.known && !Changing(LiveOf(e.seen))
    ensures After(c, w, e).mem.Some? && After(c, w, e).mem.value.restartingSince == 0
  {
    var p, before, live := e.seen.policy.value, w.mem.value, LiveOf(e.seen);
    assert Loaded(w.mem, e.seen, e.now) == before;
    VerdictIsWritten(c, w, e);
    AwakeRemembers(c, p, before, live, e.obs, e.now);
  }

  /** What else has to hold for a restart. */
  ghost predicate Unblocked(c: Config, p: Policy, before: State, live: Live, obs: Observation, now: Time) {
    var b := CaughtUpBudget(c, before, live, now);
    && !live.stopped && obs.known && !Changing(live) && p.restart && !live.operatorRestarts && !HoldsPattern(c, live)
    && !InBackoff(b, now, c.window) && !Exhausted(b, now, c.maxRestarts, c.window)
  }

  /** From the first sight of RESTARTING at an instant, through any run in which every tick sees it,
      whichever saves are lost: a tick restarts the job exactly when it is unblocked and the wait has
      passed since that instant in whole seconds, or since the job's awakening if that is later. So it
      is never restarted before the wait is over, but for less than a second. */
  lemma RestartingIsGivenItsTime(c: Config, w: Cluster, first: Event, events: seq<Event>, tick: Event)
    requires Legal(c, w, first) && SeesRestarting(first) && Decides(first.seen) && first.outcome == Saved && first.now >= SECOND
    requires w.obj.mark == Some(Active) && w.mem.Some? && w.mem.value.phase == Active && w.mem.value.restartingSince == 0
    requires first.seen.spec != Stopped && first.obs.known && !Changing(LiveOf(first.seen))
    requires var w' := After(c, w, first);
      && LegalRun(c, w', events) && RestartingThroughout(events) && NeverGivenUp(c, w', events)
      && Legal(c, Final(c, w', events), tick) && SeesRestarting(tick) && Decides(tick.seen) && tick.seen.lifecycle != FailedLifecycle
    ensures var end := Final(c, After(c, w, first), events);
      var p, live, before := tick.seen.policy.value, LiveOf(tick.seen), Loaded(end.mem, tick.seen, tick.now);
      && (DecisionOn(c, tick.seen, end.mem, tick.obs, tick.now).action == Restart
          <==> && Unblocked(c, p, before, live, tick.obs, tick.now)
               && tick.now > Later(AwakeFrom(before, live, tick.now), WholeSeconds(first.now)) + c.failingAfter)
      && (DecisionOn(c, tick.seen, end.mem, tick.obs, tick.now).action == Restart ==> tick.now > first.now + c.failingAfter - SECOND)
  {
    FirstSightStartsTheStay(c, w, first);
    RunKeepsStart(c, After(c, w, first), events, WholeSeconds(first.now));
    TickTimesTheStay(c, Final(c, After(c, w, first), events), tick, WholeSeconds(first.now));
  }

  lemma TickTimesTheStay(c: Config, w: Cluster, tick: Event, since: Time)
    requires RestartingSince(w, since) && Legal(c, w, tick) && SeesRestarting(tick) && Decides(tick.seen)
    requires tick.seen.lifecycle != FailedLifecycle
    ensures var p, live, before := tick.seen.policy.value, LiveOf(tick.seen), Loaded(w.mem, tick.seen, tick.now);
      DecisionOn(c, tick.seen, w.mem, tick.obs, tick.now).action == Restart
      <==> && Unblocked(c, p, before, live, tick.obs, tick.now)
           && tick.now > Later(AwakeFrom(before, live, tick.now), since) + c.failingAfter
  {
    assert Loaded(w.mem, tick.seen, tick.now) == w.mem.value;
    RestartsExactly(c, tick.seen.policy.value, w.mem.value, LiveOf(tick.seen), tick.obs, tick.now);
  }
}
