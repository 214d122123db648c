/** The operator as a concurrent process: a suspend takes it time, and until it reports SUSPENDED the
    suspend is in flight. However stale the controller's reads are, it never writes running
    over a suspend that is still in flight. */
module InFlight {
  import opened Clock
  import opened Memory
  import opened Decider
  import opened DecisionFacts
  import opened Tick
  import opened Agreement

  /** The operator starts no suspend on its own, and reports SUSPENDED only once the suspend is
      complete and only for a spec that asks for it. Between a resume and the operator's reaction
      to it the old report may stand. */
  predicate OperatorStep(w: World, s: Step)
    requires WellFormed(w)
  {
    s.Others? ==>
      && (s.o.suspending ==> Current(w).suspending)
      && (s.o.lifecycle == SuspendedByOperator ==>
            !s.o.suspending && (Current(w).lifecycle == SuspendedByOperator || s.o.spec == Stopped))
  }

  predicate OperatorRun(c: Config, w: World, steps: seq<Step>)
    requires WellFormed(w) && LegalRun(c, w, steps)
    decreases |steps|
  {
    steps != [] ==> OperatorStep(w, steps[0]) && OperatorRun(c, After(c, w, steps[0]), steps[1..])
  }

  predicate Consistent(o: Object) {
    o.suspending ==> o.spec == Stopped && o.lifecycle != SuspendedByOperator
  }

  /** What two successive versions of the object may do: a suspend in flight begins with the spec
      change, and a running spec is not newly reported as SUSPENDED. */
  predicate Succeeds(a: Object, b: Object) {
    && (b.suspending && a.spec == Stopped ==> a.suspending)
    && (b.lifecycle == SuspendedByOperator && b.spec != Stopped && a.spec != Stopped ==> a.lifecycle == SuspendedByOperator)
  }

  ghost predicate Tracked(w: World) {
    && WellFormed(w) && OneSwitch(w)
    && (forall i :: 0 <= i < |w.versions| ==> Consistent(w.versions[i]) && SoundPolicy(w.versions[i]))
    && (forall i :: 0 < i < |w.versions| ==> Succeeds(w.versions[i - 1], w.versions[i]))
  }

  /** Within one stretch of a suspended spec, a completed suspend stays complete. */
  lemma {:induction false} CompletedStaysCompleted(w: World, i: nat, j: nat)
    requires Tracked(w) && i <= j < |w.versions|
    requires forall k :: i <= k <= j ==> w.versions[k].IsStopped()
    requires !w.versions[i].suspending
    ensures !w.versions[j].suspending
    decreases j - i
  {
    if i < j {
      CompletedStaysCompleted(w, i, j - 1);
      assert Succeeds(w.versions[j - 1], w.versions[j]);
    }
  }

  /** Within one stretch of a running spec, a job once reported otherwise is not reported SUSPENDED. */
  lemma {:induction false} AwakeStaysAwake(w: World, i: nat, j: nat)
    requires Tracked(w) && i <= j < |w.versions|
    requires forall k :: i <= k <= j ==> !w.versions[k].IsStopped()
    requires w.versions[i].lifecycle != SuspendedByOperator
    ensures w.versions[j].lifecycle != SuspendedByOperator
    decreases j - i
  {
    if i < j {
      AwakeStaysAwake(w, i, j - 1);
      assert Succeeds(w.versions[j - 1], w.versions[j]);
    }
  }

  /** A patch lands in the same stretch its decision was read in. */
  lemma SameStretch(w: World, read: nat, k: nat)
    requires WellFormed(w) && OneSwitch(w) && w.cached <= read <= k < |w.versions|
    requires w.versions[read].spec == Current(w).spec
    ensures w.versions[k].IsStopped() == w.versions[read].IsStopped()
  {
  }

  /** A spec write is grounded in the object it was read from: running only over a suspend the
      operator reported complete, suspended only over a stable running job. */
  predicate Grounded(patch: Patch, seen: Object) {
    && (patch.spec == Some(Running) ==> seen.spec == Stopped && seen.lifecycle == SuspendedByOperator)
    && (patch.spec == Some(Stopped) ==> seen.spec != Stopped && seen.lifecycle == Stable)
    && patch.spec != Some(Unset)
  }

  /** Any write of running, on whichever path it was decided, finds the suspend completed. */
  lemma ResumeFindsCompletedSuspend(w: World, read: nat, patch: Patch)
    requires Tracked(w) && w.cached <= read < |w.versions| && w.versions[read].spec == Current(w).spec
    requires Grounded(patch, w.versions[read]) && patch.spec == Some(Running)
    ensures Current(w).spec == Stopped && !Current(w).suspending
  {
    forall k | read <= k <= |w.versions| - 1
      ensures w.versions[k].IsStopped()
    {
      SameStretch(w, read, k);
    }
    CompletedStaysCompleted(w, read, |w.versions| - 1);
  }

  lemma SuspendFindsAwakeJob(w: World, read: nat, patch: Patch)
    requires Tracked(w) && w.cached <= read < |w.versions| && w.versions[read].spec == Current(w).spec
    requires Grounded(patch, w.versions[read]) && patch.spec == Some(Stopped)
    ensures Current(w).lifecycle != SuspendedByOperator
  {
    forall k | read <= k <= |w.versions| - 1
      ensures !w.versions[k].IsStopped()
    {
      SameStretch(w, read, k);
    }
    AwakeStaysAwake(w, read, |w.versions| - 1);
  }

  lemma LandingKeepsTracked(w: World, read: nat, patch: Patch, mem: Option<State>)
    requires Tracked(w) && w.cached <= read < |w.versions| && w.versions[read].spec == Current(w).spec
    requires Grounded(patch, w.versions[read])
    ensures Tracked(World(w.versions + [Merged(Current(w), patch)], |w.versions|, read, mem))
  {
    var o := Merged(Current(w), patch);
    LandingKeepsOneSwitch(w, read, o);
    if patch.spec == Some(Running) { ResumeFindsCompletedSuspend(w, read, patch); }
    if patch.spec == Some(Stopped) { SuspendFindsAwakeJob(w, read, patch); }
    assert Consistent(Current(w)) && SoundPolicy(Current(w));
    assert Consistent(o) && Succeeds(Current(w), o);
  }

  lemma SpecWritesAreGrounded(c: Config, seen: Object, mem: Option<State>, obs: Observation, now: Time)
    requires SoundPolicy(seen)
    ensures var patch := PlanOf(c, seen, mem, obs, now).patch;
      patch.Some? ==> Grounded(patch.value, seen)
  {
    if Decides(seen) {
      DecisionKeepsPhaseDiscipline(c, seen.policy.value, Loaded(mem, seen, now), LiveOf(seen), obs, now);
    }
  }

  lemma ReconcileKeepsTracked(c: Config, w: World, s: Step)
    requires Tracked(w) && s.Reconcile? && Legal(c, w, s)
    ensures Tracked(After(c, w, s))
  {
    SpecWritesAreGrounded(c, w.versions[s.read], w.mem, s.obs, s.now);
    var plan := StepPlan(c, w, s);
    if s.outcome != Rejected && plan.patch.Some? {
      LandingKeepsTracked(w, s.read, plan.patch.value, MemoryAfter(plan, w.mem, s.outcome));
    }
  }

  lemma OthersKeepTracked(c: Config, w: World, s: Step)
    requires Tracked(w) && s.Others? && Legal(c, w, s) && OperatorStep(w, s)
    ensures Tracked(After(c, w, s))
  {
    OthersKeepOneSwitch(w, s.o);
    assert Consistent(Current(w)) && Succeeds(Current(w), s.o);
  }

  lemma {:induction false} RunKeepsTracked(c: Config, w: World, steps: seq<Step>)
    requires Tracked(w) && LegalRun(c, w, steps) && OperatorRun(c, w, steps)
    ensures Tracked(Final(c, w, steps))
    decreases |steps|
  {
    if steps != [] {
      var s := steps[0];
      match s {
        case Reconcile(_, _, _, _) => ReconcileKeepsTracked(c, w, s);
        case Others(_) => OthersKeepTracked(c, w, s);
        case Forget =>
      }
      RunKeepsTracked(c, After(c, w, s), steps[1..]);
    }
  }

  lemma StepTakesNoSuspendBack(c: Config, w: World, s: Step)
    requires Tracked(w) && s.Reconcile? && Legal(c, w, s) && Current(w).suspending
    ensures Current(After(c, w, s)).spec == Stopped && Current(After(c, w, s)).suspending
  {
    SpecWritesAreGrounded(c, w.versions[s.read], w.mem, s.obs, s.now);
    var plan := StepPlan(c, w, s);
    assert Consistent(Current(w));
    if s.outcome != Rejected && plan.patch.Some? && plan.patch.value.spec == Some(Running) {
      ResumeFindsCompletedSuspend(w, s.read, plan.patch.value);
    }
  }

  /** At the end of every legal run, with reads as stale as the cache allows, whatever saves were
      lost and memories deleted: the next tick does not take a suspend in flight back. */
  lemma NeverResumesASuspendInFlight(c: Config, w: World, steps: seq<Step>, s: Step)
    requires Tracked(w) && LegalRun(c, w, steps) && OperatorRun(c, w, steps)
    requires s.Reconcile? && Legal(c, Final(c, w, steps), s)
    ensures Current(Final(c, w, steps)).suspending ==> Current(After(c, Final(c, w, steps), s)).spec == Stopped
    ensures Current(Final(c, w, steps)).suspending ==> Current(After(c, Final(c, w, steps), s)).suspending
  {
    RunKeepsTracked(c, w, steps);
    if Current(Final(c, w, steps)).suspending { StepTakesNoSuspendBack(c, Final(c, w, steps), s); }
  }

  /** Where runs start: one version, with no suspend in flight that it does not show. */
  lemma OneVersionIsTracked(o: Object, mem: Option<State>)
    requires Consistent(o) && SoundPolicy(o)
    ensures Tracked(World([o], 0, 0, mem))
  {
  }

  /** From any such start, at the end of every run. */
  lemma NoSuspendInFlightIsTakenBack(c: Config, o: Object, mem: Option<State>, steps: seq<Step>, s: Step)
    requires Consistent(o) && SoundPolicy(o)
    requires var w := World([o], 0, 0, mem); LegalRun(c, w, steps) && OperatorRun(c, w, steps)
    requires s.Reconcile? && Legal(c, Final(c, World([o], 0, 0, mem), steps), s)
    ensures var end := Final(c, World([o], 0, 0, mem), steps);
      Current(end).suspending ==> Current(After(c, end, s)).spec == Stopped && Current(After(c, end, s)).suspending
  {
    OneVersionIsTracked(o, mem);
    NeverResumesASuspendInFlight(c, World([o], 0, 0, mem), steps, s);
  }
}
