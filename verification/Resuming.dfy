/** Which ticks set a job running, for every memory, object, policy, observation and instant. */
module Resuming {
  import opened Clock
  import opened Memory
  import opened Policy
  import opened Decider
  import opened DecisionFacts
  import opened Tick
  import opened Observing

  predicate WritesRunning(plan: Plan) {
    plan.patch.Some? && plan.patch.value.spec == Some(Running)
  }

  /** A suspend the operator has completed, under a mark that claims it for the controller, or under
      no mark while memory claims it. */
  predicate MayResume(seen: Object, mem: Option<State>) {
    && seen.spec == Stopped && seen.lifecycle == SuspendedByOperator
    && (seen.mark == Some(Suspended) || (seen.mark == None && mem.Some? && mem.value.phase == Suspended))
  }

  lemma LoadsAsleepExactlyWhen(mem: Option<State>, o: Object, now: Time)
    ensures Loaded(mem, o, now).phase == Suspended
       <==> if mem.None? || mem.value.phase == Active then o.mark == Some(Suspended)
            else mem.value.phase == Suspended && o.mark in {None, Some(Suspended)}
  {
    if o.mark.Some? {
      match o.mark.value { case Active => case Suspended => case Unrecoverable => }
    }
    if mem.Some? {
      match mem.value.phase { case Active => case Suspended => case Unrecoverable => }
    }
  }

  lemma ResumesOnlyWhen(c: Config, seen: Object, mem: Option<State>, obs: Observation, now: Time)
    requires SoundPolicy(seen) && WritesRunning(PlanOf(c, seen, mem, obs, now))
    ensures MayResume(seen, mem)
  {
    LoadsAsleepExactlyWhen(mem, seen, now);
    if Decides(seen) {
      DecisionKeepsPhaseDiscipline(c, seen.policy.value, Loaded(mem, seen, now), LiveOf(seen), obs, now);
    }
  }

  /** Some policy, or none, and some observation make a tick at this instant set the job running. */
  ghost predicate SomeTickResumes(c: Config, seen: Object, mem: Option<State>, now: Time) {
    exists p: Option<Policy>, obs: Observation ::
      SoundPolicy(seen.(policy := p)) && Observed(obs) && WritesRunning(PlanOf(c, seen.(policy := p), mem, obs, now))
  }

  const SWITCHED_OFF := Policy(Off, ["orders"], SECOND, 0, true, "", false, false, 0, [])

  lemma SwitchedOffResumes(c: Config, seen: Object, mem: Option<State>, obs: Observation, now: Time)
    requires MayResume(seen, mem) && !(mem.Some? && mem.value.phase == Unrecoverable)
    ensures WritesRunning(PlanOf(c, seen.(policy := Some(SWITCHED_OFF)), mem, obs, now))
  {
    assert Loaded(mem, seen.(policy := Some(SWITCHED_OFF)), now).phase == Suspended;
  }

  /** The exact condition, at every instant: a read and a memory from which some tick sets the job
      running. */
  lemma SomeTickResumesExactlyWhen(c: Config, seen: Object, mem: Option<State>, now: Time)
    ensures SomeTickResumes(c, seen, mem, now) <==> MayResume(seen, mem)
  {
    if MayResume(seen, mem) {
      SeeingIsObserved(0);
      var p := if seen.mark == None then Some(SWITCHED_OFF) else None;
      if seen.mark == None { SwitchedOffResumes(c, seen, mem, Seeing(0), now); }
      assert SoundPolicy(seen.(policy := p)) && WritesRunning(PlanOf(c, seen.(policy := p), mem, Seeing(0), now));
    }
    forall p: Option<Policy>, obs: Observation
      | SoundPolicy(seen.(policy := p)) && WritesRunning(PlanOf(c, seen.(policy := p), mem, obs, now))
      ensures MayResume(seen, mem)
    {
      ResumesOnlyWhen(c, seen.(policy := p), mem, obs, now);
    }
  }

  /** The same while the object has a policy: then a memory that says unrecoverable resumes nothing. */
  lemma ManagedTickResumesExactlyWhen(c: Config, seen: Object, mem: Option<State>, now: Time)
    ensures (exists p: Policy, obs: Observation ::
               Sound(p) && Observed(obs) && WritesRunning(PlanOf(c, seen.(policy := Some(p)), mem, obs, now)))
       <==> MayResume(seen, mem) && !(mem.Some? && mem.value.phase == Unrecoverable)
  {
    if MayResume(seen, mem) && !(mem.Some? && mem.value.phase == Unrecoverable) {
      SeeingIsObserved(0);
      SwitchedOffResumes(c, seen, mem, Seeing(0), now);
      assert Sound(SWITCHED_OFF);
    }
    forall p: Policy, obs: Observation | Sound(p) && WritesRunning(PlanOf(c, seen.(policy := Some(p)), mem, obs, now))
      ensures MayResume(seen, mem) && !(mem.Some? && mem.value.phase == Unrecoverable)
    {
      var managed := seen.(policy := Some(p));
      ResumesOnlyWhen(c, managed, mem, obs, now);
      if Decides(managed) {
        DecisionKeepsPhaseDiscipline(c, p, Loaded(mem, managed, now), LiveOf(managed), obs, now);
      }
    }
  }
}
