/** What a read older than the controller's own last write does to a wake and to someone else's
    suspend: the exact conditions, and runs that reach the failures. */
module StaleWakes {
  import opened Clock
  import Budget
  import opened Memory
  import opened Policy
  import opened Decider
  import opened DecisionFacts
  import opened Tick
  import opened Observing
  import opened Resuming
  import opened Agreement

  // ---------------------------------------------------------------- a wake that is absorbed

  predicate SaneConfig(c: Config) { c.maxRestarts > 0 && c.baseBackoff > 0 && c.window >= 0 }

  /** An unrecoverable mark cleared in this tick is set again, in the same words. */
  predicate MarkedAgain(c: Config, seen: Object) {
    var pattern := MatchedPattern(c.patterns, seen.error);
    && seen.mark == Some(Unrecoverable) && pattern.Some? && !LiveOf(seen).Settled()
    && seen.reason == MatchesPattern(pattern.value)
  }

  /** A read under which memory takes new offsets for its own, without a write that the conflict check
      would refuse on a stopped job. What memory and mark load as does not depend on the instant. */
  predicate Absorbs(c: Config, seen: Object, m: State) {
    var before := Loaded(Some(m), seen, 0);
    && !LiveOf(seen).OperatorBusy()
    && match before.phase
       case Suspended => false
       case Active => true
       case Unrecoverable =>
         || seen.spec == Stopped
         || (if seen.generation <= m.generation
             then before.reason != NoReason || (seen.mark == Some(Unrecoverable) && seen.reason == UnrecoverableUnexplained)
             else MarkedAgain(c, seen) || (seen.mark == Some(Active) && seen.reason == SpecChanged))
  }

  lemma LoadedAlike(m: State, seen: Object, now: Time)
    ensures var a, b := Loaded(Some(m), seen, 0), Loaded(Some(m), seen, now);
      && a.phase == b.phase && a.reason == b.reason
      && b.snapshot == m.snapshot && b.generation == m.generation && b.restarts == m.restarts
    ensures Loaded(Some(m), seen, now).phase == Suspended ==> seen.mark in {None, Some(Suspended)}
  {
    LoadsAsleepExactlyWhen(Some(m), seen, now);
  }

  /** The tick lands, leaves the job stopped, and saves another snapshot than the remembered one. */
  predicate LosesWake(plan: Plan, seen: Object, current: Object, m: State) {
    && CanLand(plan, seen, current, Saved) && ObjectAfter(plan, current, Saved).spec == Stopped
    && plan.memory.Save? && plan.memory.state.snapshot != m.snapshot
  }

  /** The same of a decision. */
  predicate LosesWakeBy(seen: Object, before: State, d: Decision, current: Object, m: State) {
    var patch := PatchFor(seen, true, before, d);
    && (patch.Some? ==> seen.spec == current.spec && Merged(current, patch.value).spec == Stopped)
    && d.next.snapshot != m.snapshot
  }

  lemma LosesWakeByItsDecision(c: Config, seen: Object, m: State, current: Object, obs: Observation, now: Time)
    requires Decides(seen) && current.spec == Stopped
    ensures LosesWake(PlanOf(c, seen, Some(m), obs, now), seen, current, m)
       <==> LosesWakeBy(seen, Loaded(Some(m), seen, now), DecisionOn(c, seen, Some(m), obs, now), current, m)
  {
  }

  // ---------------------------------------------------------------- reads that keep it

  lemma AsleepReadKeepsSnapshot(c: Config, seen: Object, m: State, current: Object, obs: Observation, now: Time)
    requires current.spec == Stopped && Decides(seen) && Sound(seen.policy.value)
    requires Loaded(Some(m), seen, now).phase == Suspended
    ensures !LosesWake(PlanOf(c, seen, Some(m), obs, now), seen, current, m)
  {
    var p, before, live := seen.policy.value, Loaded(Some(m), seen, now), LiveOf(seen);
    LoadedAlike(m, seen, now);
    LosesWakeByItsDecision(c, seen, m, current, obs, now);
    DecisionKeepsClockDiscipline(c, p, before, live, obs, now);
    DecisionKeepsPhaseDiscipline(c, p, before, live, obs, now);
    if seen.spec == Stopped && DecisionOn(c, seen, Some(m), obs, now).action != Resume {
      SleepKeepsSnapshot(c, p, before, live, obs, now);
    }
  }

  lemma BusyReadKeepsSnapshot(c: Config, seen: Object, m: State, current: Object, obs: Observation, now: Time)
    requires Decides(seen) && LiveOf(seen).OperatorBusy()
    ensures !LosesWake(PlanOf(c, seen, Some(m), obs, now), seen, current, m)
  {
  }

  /** A mark cleared by a newer generation leads to a restart, to an awake job, or to the pattern's mark
      again. */
  lemma ClearedMark(c: Config, p: Policy, before: State, live: Live, obs: Observation, now: Time)
    requires SaneConfig(c) && Sound(p) && p.problems == [] && now > 0 && obs.known
    requires before.phase == Unrecoverable && live.generation > before.generation && !live.stopped && !live.OperatorBusy()
    ensures var d, pattern := Decide(c, p, before, live, obs, now), MatchedPattern(c.patterns, live.error);
      || (d.action == Restart && d.next.phase == Active)
      || (d.action == Nothing && d.next.phase == Active && d.next.reason == SpecChanged)
      || (pattern.Some? && !live.Settled() && d.next.phase == Unrecoverable && d.next.reason == MatchesPattern(pattern.value))
  {
    var prev := AfterSpecEdit(before, live, now);
    var cur := Tallied(c, Absorbed(prev, obs, now), live, now);
    Budget.ConsumedIsInBackoff(prev.restarts, now, c.window, c.baseBackoff);
    assert !IdleLongEnough(p, cur, live, now);
  }

  /** A patch decided on a running job does not land on a stopped one. */
  lemma PatchedReadKeepsSnapshot(seen: Object, before: State, d: Decision, current: Object, m: State)
    requires seen.spec != Stopped && current.spec == Stopped && PatchFor(seen, true, before, d).Some?
    ensures !LosesWakeBy(seen, before, d, current, m)
  {
  }

  lemma MarkedReadKeepsSnapshot(c: Config, seen: Object, m: State, current: Object, obs: Observation, now: Time)
    requires SaneConfig(c) && current.spec == Stopped && Loaded(Some(m), seen, now).phase == Unrecoverable
    requires Decides(seen) && Sound(seen.policy.value) && now > 0 && !Absorbs(c, seen, m) && !LiveOf(seen).OperatorBusy()
    ensures !LosesWake(PlanOf(c, seen, Some(m), obs, now), seen, current, m)
  {
    var before, d := Loaded(Some(m), seen, now), DecisionOn(c, seen, Some(m), obs, now);
    LoadedAlike(m, seen, now);
    LosesWakeByItsDecision(c, seen, m, current, obs, now);
    if obs.known {
      if seen.generation > m.generation { ClearedMark(c, seen.policy.value, before, LiveOf(seen), obs, now); }
      PatchedReadKeepsSnapshot(seen, before, d, current, m);
    }
  }

  lemma KeepsUnlessAbsorbs(c: Config, seen: Object, m: State, current: Object, obs: Observation, now: Time)
    requires SaneConfig(c) && current.spec == Stopped && !Absorbs(c, seen, m)
    requires seen.policy.Some? && SoundPolicy(seen) && now > 0
    ensures !LosesWake(PlanOf(c, seen, Some(m), obs, now), seen, current, m)
  {
    LoadedAlike(m, seen, now);
    if Decides(seen) {
      if LiveOf(seen).OperatorBusy() {
        BusyReadKeepsSnapshot(c, seen, m, current, obs, now);
      } else if Loaded(Some(m), seen, now).phase == Suspended {
        AsleepReadKeepsSnapshot(c, seen, m, current, obs, now);
      } else {
        MarkedReadKeepsSnapshot(c, seen, m, current, obs, now);
      }
    }
  }

  // ---------------------------------------------------------------- reads that absorb it

  /** With or without restarts. */
  function Watching(restart: bool): Policy {
    Policy(Auto, ["orders"], SECOND, 0, restart, "", false, false, 0, [])
  }

  function Managed(seen: Object, restart: bool): Object { seen.(policy := Some(Watching(restart))) }

  lemma IdlesBy(c: Config, prev: State, live: Live, obs: Observation, now: Time)
    requires prev.phase == Active && obs.known && obs.snapshot != prev.snapshot && !live.stopped
    ensures var cur := Tallied(c, Absorbed(prev, obs, now), live, now);
      && WhileActive(c, Watching(false), prev, live, obs, now) == Decision(Nothing, cur)
      && cur.phase == Active && cur.reason == prev.reason && cur.snapshot == obs.snapshot
  {
    assert !IdleLongEnough(Watching(false), Tallied(c, Absorbed(prev, obs, now), live, now), live, now);
  }

  /** An awake job, or one whose mark is cleared by a newer generation, takes the offsets in. */
  lemma AwakeTakesIn(c: Config, before: State, live: Live, obs: Observation, now: Time)
    requires before.phase == Active || (before.phase == Unrecoverable && live.generation > before.generation)
    requires obs.known && obs.snapshot != before.snapshot && !live.stopped && !live.OperatorBusy()
    ensures var d := Decide(c, Watching(false), before, live, obs, now);
      && d.action == Nothing && d.next.phase == Active && d.next.snapshot == obs.snapshot
      && d.next.reason == if before.phase == Active then before.reason else SpecChanged
  {
    IdlesBy(c, AfterSpecEdit(before, live, now), live, obs, now);
  }

  /** A job that loads as awake, or whose mark is cleared in the words the object already carries. */
  lemma RunningReadAbsorbs(c: Config, seen: Object, m: State, current: Object, now: Time)
    requires current.spec == Stopped && !LiveOf(seen).OperatorBusy() && seen.spec != Stopped
    requires var before := Loaded(Some(m), seen, now);
      || before.phase == Active
      || (before.phase == Unrecoverable && seen.generation > m.generation && seen.mark == Some(Active) && seen.reason == SpecChanged)
    ensures LosesWake(PlanOf(c, Managed(seen, false), Some(m), Unlike(m.snapshot), now), seen, current, m)
  {
    UnlikeIsObserved(m.snapshot);
    var managed, obs := Managed(seen, false), Unlike(m.snapshot);
    LoadedAlike(m, managed, now);
    AwakeTakesIn(c, Loaded(Some(m), managed, now), LiveOf(managed), obs, now);
    LosesWakeByItsDecision(c, managed, m, current, obs, now);
  }

  lemma StoppedTakesIn(c: Config, p: Policy, before: State, live: Live, obs: Observation, now: Time)
    requires before.phase != Suspended && live.stopped && !live.OperatorBusy() && obs.known
    ensures var d := Decide(c, p, before, live, obs, now);
      d.action == Nothing && d.next.snapshot == obs.snapshot
  {
  }

  /** A read that shows the job stopped, and not as the controller's own, takes the offsets in. */
  lemma StoppedReadAbsorbs(c: Config, seen: Object, m: State, current: Object, now: Time)
    requires current.spec == Stopped == seen.spec && !LiveOf(seen).OperatorBusy()
    requires Loaded(Some(m), seen, now).phase != Suspended
    ensures LosesWake(PlanOf(c, Managed(seen, false), Some(m), Unlike(m.snapshot), now), seen, current, m)
  {
    UnlikeIsObserved(m.snapshot);
    var managed, obs := Managed(seen, false), Unlike(m.snapshot);
    var before := Loaded(Some(m), managed, now);
    assert before.phase != Suspended && before.snapshot == m.snapshot;
    StoppedTakesIn(c, Watching(false), before, LiveOf(managed), obs, now);
    LosesWakeByItsDecision(c, managed, m, current, obs, now);
  }

  lemma StandingMarkAbsorbs(c: Config, seen: Object, m: State, current: Object, now: Time)
    requires current.spec == Stopped && !LiveOf(seen).OperatorBusy() && seen.generation <= m.generation
    requires var before := Loaded(Some(m), seen, now);
      && before.phase == Unrecoverable
      && (before.reason != NoReason || (seen.mark == Some(Unrecoverable) && seen.reason == UnrecoverableUnexplained))
    ensures seen.spec != Stopped ==>
      LosesWake(PlanOf(c, Managed(seen, true), Some(m), Unlike(m.snapshot), now), seen, current, m)
  {
    UnlikeIsObserved(m.snapshot);
    LoadedAlike(m, Managed(seen, true), now);
    var managed, obs := Managed(seen, true), Unlike(m.snapshot);
    var before := Loaded(Some(m), managed, now);
    var prev := AfterSpecEdit(before, LiveOf(managed), now);
    assert prev == before.(generation := seen.generation);
    assert DecisionOn(c, managed, Some(m), obs, now) == WhileUnrecoverable(prev, obs, now);
    LosesWakeByItsDecision(c, managed, m, current, obs, now);
  }

  lemma MarksAgain(c: Config, before: State, live: Live, obs: Observation, now: Time)
    requires before.phase == Unrecoverable && live.generation > before.generation && !live.stopped && !live.OperatorBusy()
    requires obs.known && MatchedPattern(c.patterns, live.error).Some? && !live.Settled()
    ensures var d := Decide(c, Watching(true), before, live, obs, now);
      && d.action == MarkUnrecoverable && d.next.snapshot == obs.snapshot && d.next.phase == Unrecoverable
      && d.next.reason == MatchesPattern(MatchedPattern(c.patterns, live.error).value)
  {
  }

  lemma ClearedMarkAbsorbs(c: Config, seen: Object, m: State, current: Object, now: Time)
    requires current.spec == Stopped && !LiveOf(seen).OperatorBusy() && seen.spec != Stopped
    requires Loaded(Some(m), seen, now).phase == Unrecoverable && seen.generation > m.generation && MarkedAgain(c, seen)
    ensures LosesWake(PlanOf(c, Managed(seen, true), Some(m), Unlike(m.snapshot), now), seen, current, m)
  {
    UnlikeIsObserved(m.snapshot);
    LoadedAlike(m, Managed(seen, true), now);
    var managed, obs := Managed(seen, true), Unlike(m.snapshot);
    MarksAgain(c, Loaded(Some(m), managed, now), LiveOf(managed), obs, now);
    LosesWakeByItsDecision(c, managed, m, current, obs, now);
  }

  lemma SomeTickAbsorbs(c: Config, seen: Object, m: State, current: Object, now: Time) returns (restart: bool)
    requires current.spec == Stopped && Absorbs(c, seen, m)
    ensures LosesWake(PlanOf(c, Managed(seen, restart), Some(m), Unlike(m.snapshot), now), seen, current, m)
  {
    LoadedAlike(m, seen, now);
    restart := false;
    if seen.spec == Stopped {
      StoppedReadAbsorbs(c, seen, m, current, now);
    } else if Loaded(Some(m), seen, now).phase == Active || (seen.generation > m.generation && !MarkedAgain(c, seen)) {
      RunningReadAbsorbs(c, seen, m, current, now);
    } else if seen.generation <= m.generation {
      restart := true;
      StandingMarkAbsorbs(c, seen, m, current, now);
    } else {
      restart := true;
      ClearedMarkAbsorbs(c, seen, m, current, now);
    }
  }

  // ---------------------------------------------------------------- the exact condition

  /** Whatever the policy and the observation, a tick at this instant keeps the snapshot if it lands and
      leaves the job stopped. */
  ghost predicate KeepsWake(c: Config, seen: Object, m: State, current: Object, now: Time) {
    forall p: Policy, obs: Observation | Sound(p) && Observed(obs) ::
      !LosesWake(PlanOf(c, seen.(policy := Some(p)), Some(m), obs, now), seen, current, m)
  }

  /** For every memory, every read and every instant. */
  lemma WakeIsKeptExactlyWhen(c: Config, seen: Object, m: State, current: Object, now: Time)
    requires SaneConfig(c) && current.spec == Stopped && now > 0
    ensures KeepsWake(c, seen, m, current, now) <==> !Absorbs(c, seen, m)
  {
    if Absorbs(c, seen, m) {
      var restart := SomeTickAbsorbs(c, seen, m, current, now);
      UnlikeIsObserved(m.snapshot);
      assert Sound(Watching(restart));
    } else {
      forall p: Policy, obs: Observation | Sound(p) && Observed(obs)
        ensures !LosesWake(PlanOf(c, seen.(policy := Some(p)), Some(m), obs, now), seen, current, m)
      {
        LoadedAlike(m, seen, now);
        assert !Absorbs(c, seen.(policy := Some(p)), m);
        KeepsUnlessAbsorbs(c, seen.(policy := Some(p)), m, current, obs, now);
      }
    }
  }

  // ---------------------------------------------------------------- whole runs

  ghost predicate AllSound(w: World) {
    forall i :: 0 <= i < |w.versions| ==> SoundPolicy(w.versions[i])
  }

  /** A stopped job, and what memory holds of its offsets. */
  ghost predicate StoppedWith(w: World, snapshot: Snapshot) {
    WellFormed(w) && AllSound(w) && Current(w).spec == Stopped && w.mem.Some? && w.mem.value.snapshot == snapshot
  }

  /** Nobody deletes memory or removes the policy, no read absorbs, and the job stays stopped. */
  ghost predicate HearingRun(c: Config, w: World, steps: seq<Step>)
    requires WellFormed(w) && LegalRun(c, w, steps)
    decreases |steps|
  {
    Current(w).spec == Stopped
    && (steps != [] ==>
          && !steps[0].Forget?
          && (steps[0].Reconcile? ==>
                && w.versions[steps[0].read].policy.Some? && steps[0].now > 0
                && w.mem.Some? && !Absorbs(c, w.versions[steps[0].read], w.mem.value))
          && HearingRun(c, After(c, w, steps[0]), steps[1..]))
  }

  lemma StepKeepsWake(c: Config, w: World, s: Step, snapshot: Snapshot)
    requires SaneConfig(c) && StoppedWith(w, snapshot) && Legal(c, w, s) && !s.Forget?
    requires s.Reconcile? ==> w.versions[s.read].policy.Some? && s.now > 0 && !Absorbs(c, w.versions[s.read], w.mem.value)
    requires Current(After(c, w, s)).spec == Stopped
    ensures StoppedWith(After(c, w, s), snapshot)
  {
    assert SoundPolicy(Current(w));
    if s.Reconcile? {
      var seen, plan := w.versions[s.read], StepPlan(c, w, s);
      KeepsUnlessAbsorbs(c, seen, w.mem.value, Current(w), s.obs, s.now);
    }
  }

  /** Through any run with reads of any age, none of which absorbs, memory keeps the snapshot. */
  lemma {:induction false} RunKeepsWake(c: Config, w: World, steps: seq<Step>, snapshot: Snapshot)
    requires SaneConfig(c) && StoppedWith(w, snapshot) && LegalRun(c, w, steps) && HearingRun(c, w, steps)
    ensures StoppedWith(Final(c, w, steps), snapshot)
    decreases |steps|
  {
    if steps != [] {
      assert HearingRun(c, After(c, w, steps[0]), steps[1..]);
      StepKeepsWake(c, w, steps[0], snapshot);
      RunKeepsWake(c, After(c, w, steps[0]), steps[1..], snapshot);
    }
  }

  /** And at its end, a tick that loads the job as asleep and knows the offsets resumes it exactly when
      a wake is due against that snapshot. */
  lemma NoWakeIsLostToOldReads(c: Config, w: World, steps: seq<Step>, snapshot: Snapshot, read: nat, obs: Observation, now: Time)
    requires SaneConfig(c) && StoppedWith(w, snapshot) && LegalRun(c, w, steps) && HearingRun(c, w, steps)
    requires var end := Final(c, w, steps);
      && read < |end.versions| && end.mem.Some? && Loaded(end.mem, end.versions[read], now).phase == Suspended
      && Decides(end.versions[read]) && end.versions[read].policy.value.mode == Auto && end.versions[read].spec == Stopped
      && obs.known && !obs.unlearned
    ensures var end := Final(c, w, steps);
      var seen := end.versions[read];
      var p, live, before := seen.policy.value, LiveOf(seen), Loaded(end.mem, seen, now);
      WritesRunning(PlanOf(c, seen, end.mem, obs, now))
      <==> && live.Asleep() && (obs.snapshot != snapshot || RefreshDue(p, before, live, now))
           && (live.ResumesFromGroup(p) ==> !obs.uncommitted && obs.lagKnown)
  {
    RunKeepsWake(c, w, steps, snapshot);
    var end := Final(c, w, steps);
    DueIsWritten(c, end.versions[read], end.mem.value, obs, now);
  }

  lemma DueIsWritten(c: Config, seen: Object, m: State, obs: Observation, now: Time)
    requires Loaded(Some(m), seen, now).phase == Suspended && Decides(seen) && seen.policy.value.mode == Auto
    requires seen.spec == Stopped && obs.known && !obs.unlearned
    ensures WritesRunning(PlanOf(c, seen, Some(m), obs, now))
       <==> ResumeIsDue(seen.policy.value, Loaded(Some(m), seen, now), LiveOf(seen), obs, now)
    ensures Loaded(Some(m), seen, now).snapshot == m.snapshot
  {
    ResumesExactlyWhenDue(c, seen.policy.value, Loaded(Some(m), seen, now), LiveOf(seen), obs, now);
  }

  // ---------------------------------------------------------------- a run that loses a wake

  const T := 63_000_000_000 * SECOND

  const CONFIG := Config(3, 3600 * SECOND, 60 * SECOND, 3600 * SECOND, [], 60 * SECOND)

  const AWAKE := Object(Running, Some(Active), FirstObservation, 0, 1, Stable, JobRunning, Savepoint, false, "",
                        Some(Watching(true)), false)

  const ASKED_TO_SLEEP :=
    AWAKE.(spec := Stopped, mark := Some(Suspended), reason := NoInputFor(SECOND), generation := 2, suspending := true)

  const ASLEEP := ASKED_TO_SLEEP.(lifecycle := SuspendedByOperator, job := OtherJobState("FINISHED"), suspending := false)

  const IDLE_MEMORY := State(Active, Seeing(5).snapshot, T - 100 * SECOND, 0, T - 100 * SECOND, Budget.Fresh(0),
                             FirstObservation, 1, 0, 0, false, 0)

  const ASLEEP_MEMORY := IDLE_MEMORY.(phase := Suspended, suspendedAt := T, reason := NoInputFor(SECOND))

  const MISLED_MEMORY :=
    ASLEEP_MEMORY.(phase := Active, suspendedAt := 0, awakeSince := T + SECOND, resumedAt := 0, reason := MemoryRepaired,
                   snapshot := Seeing(6).snapshot, lastActivityAt := T + SECOND)

  const DEAF_MEMORY := MISLED_MEMORY.(phase := Suspended, suspendedAt := T + 2 * SECOND, generation := 2)

  /** The job is put to sleep at offset 5 and the operator completes it. A read from before the suspend
      sees offset 6 arrive, takes the job for awake, and remembers 6. The next tick reads the object as
      it is and finds nothing new. */
  const ABSORBING_RUN := [
    Reconcile(0, T, Seeing(5), Saved),
    Others(ASLEEP),
    Reconcile(0, T + SECOND, Seeing(6), Saved),
    Reconcile(2, T + 2 * SECOND, Seeing(6), Saved)]

  lemma OffsetsDiffer()
    ensures Seeing(5).snapshot != Seeing(6).snapshot && Seeing(6).snapshot != Seeing(7).snapshot
    ensures Observed(Seeing(5)) && Observed(Seeing(6)) && Observed(Seeing(7))
  {
    SeeingTellsApart(5, 6);
    SeeingTellsApart(6, 7);
    SeeingIsObserved(5);
    SeeingIsObserved(6);
    SeeingIsObserved(7);
  }

  lemma PutsToSleep()
    ensures PlanOf(CONFIG, AWAKE, Some(IDLE_MEMORY), Seeing(5), T)
         == Plan(Some(Patch(Some(Suspended), NoInputFor(SECOND), Some(Stopped), None)), Save(ASLEEP_MEMORY))
  {
  }

  lemma JudgedAwake()
    ensures var now, live := T + SECOND, LiveOf(AWAKE);
      WhileActive(CONFIG, Watching(true), MISLED_MEMORY.(snapshot := Seeing(5).snapshot, lastActivityAt := T - 100 * SECOND, resumedAt := now),
                  live, Seeing(6), now) == Decision(Nothing, MISLED_MEMORY)
  {
    OffsetsDiffer();
    assert !IdleLongEnough(Watching(true), MISLED_MEMORY, LiveOf(AWAKE), T + SECOND);
  }

  lemma TakesItForAwake()
    ensures PlanOf(CONFIG, AWAKE, Some(ASLEEP_MEMORY), Seeing(6), T + SECOND) == Plan(None, Save(MISLED_MEMORY))
  {
    var before := Loaded(Some(ASLEEP_MEMORY), AWAKE, T + SECOND);
    assert before == MISLED_MEMORY.(snapshot := Seeing(5).snapshot, lastActivityAt := T - 100 * SECOND, resumedAt := T + SECOND);
    JudgedAwake();
    assert DecisionOn(CONFIG, AWAKE, Some(ASLEEP_MEMORY), Seeing(6), T + SECOND) == Decision(Nothing, MISLED_MEMORY);
  }

  lemma HearsNothingNew()
    ensures PlanOf(CONFIG, ASLEEP, Some(MISLED_MEMORY), Seeing(6), T + 2 * SECOND) == Plan(None, Save(DEAF_MEMORY))
  {
  }

  lemma WholeSecondsHere()
    ensures Persisted(ASLEEP_MEMORY) == ASLEEP_MEMORY && Persisted(MISLED_MEMORY) == MISLED_MEMORY
    ensures Persisted(DEAF_MEMORY) == DEAF_MEMORY
  {
  }

  /** The states of the run. */
  function AbsorbingState(i: nat): World {
    var versions := [AWAKE, ASKED_TO_SLEEP, ASLEEP];
    if i == 0 then World([AWAKE], 0, 0, Some(IDLE_MEMORY))
    else if i == 1 then World([AWAKE, ASKED_TO_SLEEP], 1, 0, Some(ASLEEP_MEMORY))
    else if i == 2 then World(versions, 1, 0, Some(ASLEEP_MEMORY))
    else if i == 3 then World(versions, 1, 0, Some(MISLED_MEMORY))
    else World(versions, 1, 2, Some(DEAF_MEMORY))
  }

  lemma FallsAsleep()
    ensures Leads(CONFIG, AbsorbingState, ABSORBING_RUN, 0)
  {
    PutsToSleep();
    WholeSecondsHere();
  }

  lemma OperatorCompletes()
    ensures Leads(CONFIG, AbsorbingState, ABSORBING_RUN, 1)
  {
  }

  lemma IsMisled()
    ensures Leads(CONFIG, AbsorbingState, ABSORBING_RUN, 2)
  {
    TakesItForAwake();
    WholeSecondsHere();
  }

  lemma IsDeaf()
    ensures Leads(CONFIG, AbsorbingState, ABSORBING_RUN, 3)
  {
    HearsNothingNew();
    WholeSecondsHere();
  }

  lemma EachAbsorbingStep(i: nat)
    requires i < 4
    ensures Leads(CONFIG, AbsorbingState, ABSORBING_RUN, i)
  {
    if i == 0 { FallsAsleep(); } else if i == 1 { OperatorCompletes(); } else if i == 2 { IsMisled(); } else { IsDeaf(); }
  }

  lemma AbsorbingRunIsLegal()
    ensures WellFormed(AbsorbingState(0)) && LegalRun(CONFIG, AbsorbingState(0), ABSORBING_RUN)
    ensures Final(CONFIG, AbsorbingState(0), ABSORBING_RUN) == AbsorbingState(4)
  {
    forall i: nat | i < 4 ensures Leads(CONFIG, AbsorbingState, ABSORBING_RUN, i) { EachAbsorbingStep(i); }
    RunThrough(CONFIG, AbsorbingState, ABSORBING_RUN, 0);
    assert ABSORBING_RUN[0..] == ABSORBING_RUN;
  }

  lemma AbsorbingRunStarts()
    ensures Inv(AbsorbingState(0)) && IDLE_MEMORY.snapshot == Seeing(5).snapshot
    ensures WellFormed(AbsorbingState(4)) && Current(AbsorbingState(4)) == ASLEEP && AbsorbingState(4).mem == Some(DEAF_MEMORY)
  {
  }

  /** A legal run after which input has arrived since the job fell asleep, the job is asleep, and no
      later tick resumes it until more input arrives. */
  lemma StaleReadAbsorbsAWake(tick: Time)
    ensures var start := AbsorbingState(0);
      && Inv(start) && LegalRun(CONFIG, start, ABSORBING_RUN)
      && var end := Final(CONFIG, start, ABSORBING_RUN);
         && Current(end) == ASLEEP && IDLE_MEMORY.snapshot == Seeing(5).snapshot != Seeing(6).snapshot
         && !WritesRunning(PlanOf(CONFIG, ASLEEP, end.mem, Seeing(6), tick))
  {
    OffsetsDiffer();
    AbsorbingRunStarts();
    AbsorbingRunIsLegal();
    StaysDeaf(tick);
  }

  lemma AbsorbingRunIsCredible()
    ensures Credible(ABSORBING_RUN, 0)
  {
    OffsetsDiffer();
  }

  lemma StaysDeaf(tick: Time)
    ensures !WritesRunning(PlanOf(CONFIG, ASLEEP, Some(DEAF_MEMORY), Seeing(6), tick))
  {
    ResumesExactlyWhenDue(CONFIG, Watching(true), DEAF_MEMORY, LiveOf(ASLEEP), Seeing(6), tick);
    assert Loaded(Some(DEAF_MEMORY), ASLEEP, tick) == DEAF_MEMORY;
  }

  // ---------------------------------------------------------------- a run that undoes a suspend

  const WOKEN := ASLEEP.(spec := Running, mark := Some(Active), reason := InputObserved, generation := 3)

  /** Someone else suspends the job that the controller has just resumed. */
  const SUSPENDED_AGAIN := WOKEN.(spec := Stopped, generation := 4, suspending := true)

  const WOKEN_MEMORY :=
    ASLEEP_MEMORY.(phase := Active, suspendedAt := 0, awakeSince := T + SECOND, resumedAt := T + SECOND, reason := InputObserved,
                   snapshot := Seeing(6).snapshot, lastActivityAt := T + SECOND, generation := 2)

  /** Resumed on input, suspended by a human, and resumed once more by a tick that still reads the
      object as it was before the first resume. */
  const UNDOING_RUN := [
    Reconcile(0, T + SECOND, Seeing(6), Saved),
    Others(SUSPENDED_AGAIN),
    Reconcile(0, T + 2 * SECOND, Seeing(7), Saved)]

  lemma WakesOnInput()
    ensures PlanOf(CONFIG, ASLEEP, Some(ASLEEP_MEMORY), Seeing(6), T + SECOND)
         == Plan(Some(Patch(Some(Active), InputObserved, Some(Running), None)), Save(WOKEN_MEMORY))
  {
    OffsetsDiffer();
    assert Loaded(Some(ASLEEP_MEMORY), ASLEEP, T + SECOND) == ASLEEP_MEMORY;
  }

  lemma WakesOnceMore()
    ensures WritesRunning(PlanOf(CONFIG, ASLEEP, Some(WOKEN_MEMORY), Seeing(7), T + 2 * SECOND))
  {
    OffsetsDiffer();
    var before := Loaded(Some(WOKEN_MEMORY), ASLEEP, T + 2 * SECOND);
    assert before.phase == Suspended && before.snapshot == Seeing(6).snapshot;
    ResumesExactlyWhenDue(CONFIG, Watching(true), before, LiveOf(ASLEEP), Seeing(7), T + 2 * SECOND);
  }

  lemma FirstResume()
    ensures var w0 := World([ASLEEP], 0, 0, Some(ASLEEP_MEMORY));
      && Possible(CONFIG, w0, UNDOING_RUN[0])
      && After(CONFIG, w0, UNDOING_RUN[0]) == World([ASLEEP, WOKEN], 1, 0, Some(WOKEN_MEMORY))
  {
    WakesOnInput();
    assert Persisted(WOKEN_MEMORY) == WOKEN_MEMORY;
  }

  lemma SecondResume()
    ensures var w2 := World([ASLEEP, WOKEN, SUSPENDED_AGAIN], 1, 0, Some(WOKEN_MEMORY));
      && Possible(CONFIG, w2, UNDOING_RUN[2])
      && Current(After(CONFIG, w2, UNDOING_RUN[2])).spec == Running
  {
    WakesOnceMore();
  }

  lemma HumanSuspends()
    ensures var w1, w2 := World([ASLEEP, WOKEN], 1, 0, Some(WOKEN_MEMORY)), World([ASLEEP, WOKEN, SUSPENDED_AGAIN], 1, 0, Some(WOKEN_MEMORY));
      && Possible(CONFIG, w1, UNDOING_RUN[1]) && After(CONFIG, w1, UNDOING_RUN[1]) == w2
      && Current(w2).spec == Stopped && Current(w2).mark == Some(Active) && !MayResume(Current(w2), w2.mem)
  {
  }

  /** Three possible steps: the last sets a job running that someone else had suspended under an active
      mark. SomeTickResumesExactlyWhen says which reads do so. */
  lemma StaleReadUndoesASuspend()
    ensures var w0 := World([ASLEEP], 0, 0, Some(ASLEEP_MEMORY));
      && Possible(CONFIG, w0, UNDOING_RUN[0])
      && var w1 := After(CONFIG, w0, UNDOING_RUN[0]);
         && Possible(CONFIG, w1, UNDOING_RUN[1])
         && var w2 := After(CONFIG, w1, UNDOING_RUN[1]);
            && Current(w2).spec == Stopped && Current(w2).mark == Some(Active) && !MayResume(Current(w2), w2.mem)
            && Possible(CONFIG, w2, UNDOING_RUN[2])
            && Current(After(CONFIG, w2, UNDOING_RUN[2])).spec == Running
  {
    FirstResume();
    HumanSuspends();
    SecondResume();
  }

  lemma UndoingRunIsCredible()
    ensures Credible(UNDOING_RUN, 0)
  {
    OffsetsDiffer();
  }
}
