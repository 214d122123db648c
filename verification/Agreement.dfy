/** The object's own mark against its spec, over every run in which only the controller writes
    spec.job.state: cached reads may be stale, saves may be lost, memory may be deleted, patches
    may conflict and be retried. */
module Agreement {
  import opened Clock
  import opened Memory
  import opened Policy
  import opened Decider
  import opened DecisionFacts
  import opened Tick
  import opened Observing

  /** The mark says suspended exactly when spec.job.state does. */
  predicate Agrees(o: Object) {
    o.mark == Some(Suspended) <==> o.spec == Stopped
  }

  // ---------------------------------------------------------------- one tick

  /** The pairs of memory and mark that repair can mend. It has no answer to a memory that says
      unrecoverable under a mark that says suspended, nor to one that says suspended where the
      object carries no mark at all. */
  predicate Mendable(mem: Option<State>, o: Object) {
    mem.Some? ==>
      && !(o.mark == Some(Suspended) && mem.value.phase == Unrecoverable)
      && !(o.mark == None && mem.value.phase == Suspended)
  }

  lemma MendedPhase(mem: Option<State>, o: Object, now: Time)
    requires Agrees(o) && Mendable(mem, o)
    ensures Loaded(mem, o, now).phase == Suspended <==> o.spec == Stopped
    ensures Loaded(mem, o, now).phase == Unrecoverable ==>
      o.mark == Some(Unrecoverable) || (mem.Some? && mem.value.phase == Unrecoverable)
  {
    if o.mark.Some? {
      match o.mark.value { case Active => case Suspended => case Unrecoverable => }
    }
  }

  /** What a tick on an agreeing object writes, when its memory can be mended. */
  lemma HonestPlan(c: Config, seen: Object, mem: Option<State>, obs: Observation, now: Time, current: Object)
    requires Agrees(seen) && SoundPolicy(seen) && Mendable(mem, seen)
    requires seen.spec == current.spec
    ensures var plan := PlanOf(c, seen, mem, obs, now);
      plan.patch.Some? ==> Agrees(Merged(current, plan.patch.value))
  {
    MendedPhase(mem, seen, now);
    if Decides(seen) {
      DecisionKeepsPhaseDiscipline(c, seen.policy.value, Loaded(mem, seen, now), LiveOf(seen), obs, now);
    }
  }

  /** A tick with this memory would keep the mark honest at an instant, whatever policy it reads and
      whatever it observes. */
  ghost predicate AlwaysHonest(c: Config, seen: Object, mem: Option<State>, now: Time) {
    forall p: Policy, obs: Observation | Sound(p) && Observed(obs) ::
      var plan := PlanOf(c, seen.(policy := Some(p)), mem, obs, now);
      plan.patch.Some? ==> Agrees(Merged(seen, plan.patch.value))
  }

  /** An invalid policy is enough to show a pair repair cannot mend: its reason goes on the object
      together with memory's phase. */
  lemma UnmendableTellsALie(c: Config, seen: Object, mem: Option<State>, p: Policy, obs: Observation, now: Time)
    requires Agrees(seen) && !Mendable(mem, seen)
    requires p.problems != [] && mem.value.reason != InvalidPolicy(p.problems)
    ensures var plan := PlanOf(c, seen.(policy := Some(p)), mem, obs, now);
      plan.patch.Some? && !Agrees(Merged(seen, plan.patch.value))
  {
    assert Loaded(mem, seen.(policy := Some(p)), now) == mem.value;
  }

  /** The exact condition under which a tick keeps the mark honest. */
  lemma HonestExactlyWhenMendable(c: Config, seen: Object, mem: Option<State>, now: Time)
    requires Agrees(seen)
    ensures AlwaysHonest(c, seen, mem, now) <==> Mendable(mem, seen)
  {
    if Mendable(mem, seen) {
      forall q: Policy, o: Observation | Sound(q) && Observed(o)
        ensures var plan := PlanOf(c, seen.(policy := Some(q)), mem, o, now);
          plan.patch.Some? ==> Agrees(Merged(seen, plan.patch.value))
      {
        HonestPlan(c, seen.(policy := Some(q)), mem, o, now, seen);
      }
    } else {
      var problems := if mem.value.reason == InvalidPolicy([NotMode]) then [NotIdle] else [NotMode];
      assert [NotMode][0] != [NotIdle][0];
      SeeingIsObserved(0);
      UnmendableTellsALie(c, seen, mem, Policy(Auto, [], SECOND, 0, true, "", false, false, 0, problems), Seeing(0), now);
    }
  }

  // ---------------------------------------------------------------- whole runs

  /** Every version the object ever had, the version of the controller's own last write, the
      oldest version its cache may still show, and memory. */
  datatype World = World(versions: seq<Object>, own: nat, cached: nat, mem: Option<State>)

  datatype Step =
    | Reconcile(read: nat, now: Time, obs: Observation, outcome: Outcome)
    | Others(o: Object)
    | Forget

  predicate WellFormed(w: World) {
    w.own < |w.versions| && w.cached < |w.versions|
  }

  function Current(w: World): Object
    requires WellFormed(w)
  {
    w.versions[|w.versions| - 1]
  }

  function StepPlan(c: Config, w: World, s: Step): Plan
    requires s.Reconcile? && s.read < |w.versions|
  {
    PlanOf(c, w.versions[s.read], w.mem, s.obs, s.now)
  }

  /** A read that is safe: it has seen the controller's own last write, or every version from it
      on carries a plain active or suspended mark. */
  predicate SafeRead(w: World, read: nat) {
    || read >= w.own
    || forall i :: read <= i < |w.versions| ==> w.versions[i].mark in {Some(Active), Some(Suspended)}
  }

  /** Reads never go back in time, and a patch lands only where the conflict check lets it. Others
      are the operator and humans: they may change anything but the controller's annotations. */
  predicate Possible(c: Config, w: World, s: Step)
    requires WellFormed(w)
  {
    match s
    case Reconcile(read, now, obs, outcome) =>
      && w.cached <= read < |w.versions|
      && CanLand(StepPlan(c, w, s), w.versions[read], Current(w), outcome)
    case Others(o) => o.mark == Current(w).mark && o.reason == Current(w).reason && SoundPolicy(o)
    case Forget => true
  }

  /** Besides, only the controller writes spec.job.state. */
  predicate Legal(c: Config, w: World, s: Step)
    requires WellFormed(w)
  {
    Possible(c, w, s) && (s.Others? ==> s.o.spec == Current(w).spec)
  }

  function After(c: Config, w: World, s: Step): (w': World)
    requires WellFormed(w) && Possible(c, w, s)
    ensures WellFormed(w') && w.versions <= w'.versions
  {
    match s
    case Reconcile(read, now, obs, outcome) =>
      var plan := StepPlan(c, w, s);
      var mem := MemoryAfter(plan, w.mem, outcome);
      if outcome != Rejected && plan.patch.Some?
      then World(w.versions + [Merged(Current(w), plan.patch.value)], |w.versions|, read, mem)
      else World(w.versions, w.own, read, mem)
    case Others(o) => w.(versions := w.versions + [o])
    case Forget => w.(mem := None)
  }

  predicate LegalRun(c: Config, w: World, steps: seq<Step>)
    requires WellFormed(w)
    decreases |steps|
  {
    steps == [] || (Legal(c, w, steps[0]) && LegalRun(c, After(c, w, steps[0]), steps[1..]))
  }

  /** A tick whose read is safe, and which, if it is a release, does not fail to delete a memory that
      says suspended. */
  predicate SafeStep(c: Config, w: World, s: Step)
    requires WellFormed(w) && Legal(c, w, s)
  {
    s.Reconcile? ==>
      && SafeRead(w, s.read)
      && !LosesDelete(StepPlan(c, w, s), w.mem, s.outcome)
  }

  predicate SafeRun(c: Config, w: World, steps: seq<Step>)
    requires WellFormed(w) && LegalRun(c, w, steps)
    decreases |steps|
  {
    steps != [] ==>
      && SafeStep(c, w, steps[0])
      && SafeRun(c, After(c, w, steps[0]), steps[1..])
  }

  function Final(c: Config, w: World, steps: seq<Step>): (w': World)
    requires WellFormed(w) && LegalRun(c, w, steps)
    ensures WellFormed(w')
    decreases |steps|
  {
    if steps == [] then w else Final(c, After(c, w, steps[0]), steps[1..])
  }

  /** An event takes one state of a run to the next. */
  ghost predicate Leads(c: Config, state: nat -> World, steps: seq<Step>, i: nat)
    requires i < |steps|
  {
    WellFormed(state(i)) && Legal(c, state(i), steps[i]) && After(c, state(i), steps[i]) == state(i + 1)
  }

  /** A run given by the states it goes through. */
  lemma {:induction false} RunThrough(c: Config, state: nat -> World, steps: seq<Step>, n: nat)
    requires n <= |steps| && WellFormed(state(|steps|))
    requires forall i: nat :: i < |steps| ==> Leads(c, state, steps, i)
    ensures WellFormed(state(n)) && LegalRun(c, state(n), steps[n..]) && Final(c, state(n), steps[n..]) == state(|steps|)
    decreases |steps| - n
  {
    if n < |steps| {
      assert Leads(c, state, steps, n) && steps[n..][1..] == steps[n + 1..];
      RunThrough(c, state, steps, n + 1);
    }
  }

  /** Instants that follow one another from a given one on, and observations that can be made. */
  ghost predicate Credible(steps: seq<Step>, clock: Time) {
    && (forall i :: 0 <= i < |steps| && steps[i].Reconcile? ==> clock < steps[i].now && Observed(steps[i].obs))
    && (forall i, j :: 0 <= i < j < |steps| && steps[i].Reconcile? && steps[j].Reconcile? ==> steps[i].now < steps[j].now)
  }

  // ---------------------------------------------------------------- agreement in every run

  ghost predicate AllAgree(w: World) {
    forall i :: 0 <= i < |w.versions| ==> Agrees(w.versions[i]) && SoundPolicy(w.versions[i])
  }

  /** Every tick reads a version and a memory that repair can mend. */
  predicate MendableRun(c: Config, w: World, steps: seq<Step>)
    requires WellFormed(w) && LegalRun(c, w, steps)
    decreases |steps|
  {
    steps != [] ==>
      && (steps[0].Reconcile? ==> Mendable(w.mem, w.versions[steps[0].read]))
      && MendableRun(c, After(c, w, steps[0]), steps[1..])
  }

  lemma StepKeepsAgreement(c: Config, w: World, s: Step)
    requires WellFormed(w) && AllAgree(w) && Legal(c, w, s)
    requires s.Reconcile? ==> Mendable(w.mem, w.versions[s.read])
    ensures AllAgree(After(c, w, s))
  {
    assert Agrees(Current(w)) && SoundPolicy(Current(w));
    if s.Reconcile? && s.outcome != Rejected && StepPlan(c, w, s).patch.Some? {
      HonestPlan(c, w.versions[s.read], w.mem, s.obs, s.now, Current(w));
    }
  }

  /** In every legal run whose ticks can mend what they read, every version of the object has its mark
      say suspended exactly when spec.job.state is suspended. Tick by tick this is the exact condition
      of HonestExactlyWhenMendable. */
  lemma {:induction false} MarkAgreesInEveryRun(c: Config, w: World, steps: seq<Step>)
    requires WellFormed(w) && AllAgree(w) && LegalRun(c, w, steps) && MendableRun(c, w, steps)
    ensures AllAgree(Final(c, w, steps))
    decreases |steps|
  {
    if steps != [] {
      StepKeepsAgreement(c, w, steps[0]);
      MarkAgreesInEveryRun(c, After(c, w, steps[0]), steps[1..]);
    }
  }

  // ---------------------------------------------------------------- reads that can be mended

  /** Since the controller's own last write, nobody touched its annotations. */
  ghost predicate OwnMarkStands(w: World)
    requires WellFormed(w)
  {
    forall i :: w.own <= i < |w.versions| ==>
      w.versions[i].mark == Current(w).mark && w.versions[i].reason == Current(w).reason
  }

  /** What the cache can still show switches between running and suspended at most once. */
  ghost predicate OneSwitch(w: World)
    requires WellFormed(w)
  {
    forall i, j, k :: w.cached <= i <= j <= k < |w.versions| && w.versions[i].IsStopped() == w.versions[k].IsStopped()
      ==> w.versions[j].IsStopped() == w.versions[i].IsStopped()
  }

  /** Memory says unrecoverable only where no readable version is suspended, and suspended only
      while the object is marked. */
  ghost predicate MemoryFits(w: World)
    requires WellFormed(w)
  {
    w.mem.Some? ==>
      && (w.mem.value.phase == Unrecoverable ==>
            forall i :: w.cached <= i < |w.versions| ==> w.versions[i].mark != Some(Suspended))
      && (w.mem.value.phase == Suspended ==> Current(w).mark != None)
  }

  ghost predicate Inv(w: World) {
    WellFormed(w) && AllAgree(w) && OwnMarkStands(w) && OneSwitch(w) && MemoryFits(w)
  }

  /** A landed patch keeps the cache's view at one switch, since it lands on the value it read. */
  lemma LandingKeepsOneSwitch(w: World, read: nat, o: Object)
    requires WellFormed(w) && OneSwitch(w) && w.cached <= read < |w.versions|
    requires w.versions[read].spec == Current(w).spec
    ensures OneSwitch(World(w.versions + [o], |w.versions|, read, w.mem))
  {
    var last := |w.versions| - 1;
    assert forall j :: read <= j <= last ==>
      w.versions[read].IsStopped() == w.versions[last].IsStopped() && w.versions[j].IsStopped() == w.versions[read].IsStopped();
  }

  lemma ReadIsMendable(w: World, read: nat)
    requires Inv(w) && w.cached <= read < |w.versions| && SafeRead(w, read)
    ensures Mendable(w.mem, w.versions[read])
  {
  }

  /** Where memory's phase after a save can come from. */
  lemma SavedPhase(c: Config, seen: Object, mem: Option<State>, obs: Observation, now: Time)
    requires Agrees(seen) && SoundPolicy(seen) && Mendable(mem, seen)
    ensures var plan := PlanOf(c, seen, mem, obs, now);
      plan.memory.Save? ==>
        && (plan.memory.state.phase == Suspended ==>
              seen.mark == Some(Suspended) || (plan.patch.Some? && plan.patch.value.mark == Some(Suspended)))
        && (plan.memory.state.phase == Unrecoverable ==>
              || (mem.Some? && mem.value.phase == Unrecoverable)
              || seen.mark == Some(Unrecoverable)
              || (plan.patch.Some? && seen.spec != Stopped))
        && (plan.patch.Some? ==> plan.patch.value.mark == Some(plan.memory.state.phase))
    ensures var plan := PlanOf(c, seen, mem, obs, now);
      && (plan.memory == Keep ==> plan.patch == None)
      && (plan.memory == Erase ==> plan.patch.Some? && plan.patch.value.mark == None)
      && (plan.patch.Some? && plan.patch.value.spec == Some(Stopped) ==>
            plan.memory.Save? && plan.memory.state.phase == Suspended
            && !(mem.Some? && mem.value.phase == Unrecoverable))
      && (plan.patch.Some? ==> plan.memory != Keep)
  {
    MendedPhase(mem, seen, now);
    if Decides(seen) {
      DecisionKeepsPhaseDiscipline(c, seen.policy.value, Loaded(mem, seen, now), LiveOf(seen), obs, now);
    }
  }

  lemma ReconcileKeepsMemoryFit(c: Config, w: World, s: Step)
    requires Inv(w) && s.Reconcile? && Legal(c, w, s) && SafeStep(c, w, s)
    ensures MemoryFits(After(c, w, s))
  {
    var seen, w' := w.versions[s.read], After(c, w, s);
    var plan := StepPlan(c, w, s);
    ReadIsMendable(w, s.read);
    SavedPhase(c, seen, w.mem, s.obs, s.now);
    HonestPlan(c, seen, w.mem, s.obs, s.now, seen);
    if w'.mem.Some? && w'.mem.value.phase == Unrecoverable {
      forall i | s.read <= i < |w'.versions|
        ensures w'.versions[i].mark != Some(Suspended)
      {
        if i < |w.versions| {
          assert Agrees(w.versions[i]);
          if s.outcome == Saved && plan.memory.Save? && plan.patch.Some? && seen.spec != Stopped {
            assert w.versions[i].IsStopped() == seen.IsStopped();
          }
        }
      }
    }
  }

  lemma ReconcileKeepsInv(c: Config, w: World, s: Step)
    requires Inv(w) && s.Reconcile? && Legal(c, w, s) && SafeStep(c, w, s)
    ensures Inv(After(c, w, s))
  {
    ReadIsMendable(w, s.read);
    ReconcileKeepsMemoryFit(c, w, s);
    StepKeepsAgreement(c, w, s);
    var plan := StepPlan(c, w, s);
    if s.outcome != Rejected && plan.patch.Some? {
      LandingKeepsOneSwitch(w, s.read, Merged(Current(w), plan.patch.value));
    }
  }

  lemma OthersKeepOneSwitch(w: World, o: Object)
    requires WellFormed(w) && OneSwitch(w) && o.spec == Current(w).spec
    ensures OneSwitch(w.(versions := w.versions + [o]))
  {
    var w', last := w.(versions := w.versions + [o]), |w.versions| - 1;
    forall i, j, k | w'.cached <= i <= j <= k < |w'.versions| && w'.versions[i].IsStopped() == w'.versions[k].IsStopped()
      ensures w'.versions[j].IsStopped() == w'.versions[i].IsStopped()
    {
      if k > last && i <= last && j <= last {
        assert w.versions[last].IsStopped() == w'.versions[k].IsStopped();
      }
    }
  }

  lemma OthersKeepInv(c: Config, w: World, s: Step)
    requires Inv(w) && s.Others? && Legal(c, w, s)
    ensures Inv(After(c, w, s))
  {
    assert Current(After(c, w, s)) == s.o;
    OthersKeepOneSwitch(w, s.o);
  }

  lemma StepKeepsInv(c: Config, w: World, s: Step)
    requires Inv(w) && Legal(c, w, s) && SafeStep(c, w, s)
    ensures Inv(After(c, w, s))
  {
    match s {
      case Reconcile(_, _, _, _) => ReconcileKeepsInv(c, w, s);
      case Others(_) => OthersKeepInv(c, w, s);
      case Forget =>
    }
  }

  /** Safe reads, as old as the cache allows, can be mended: so every version agrees. */
  lemma {:induction false} SafeRunIsMendable(c: Config, w: World, steps: seq<Step>)
    requires Inv(w) && LegalRun(c, w, steps) && SafeRun(c, w, steps)
    ensures MendableRun(c, w, steps) && Inv(Final(c, w, steps))
    decreases |steps|
  {
    if steps != [] {
      if steps[0].Reconcile? { ReadIsMendable(w, steps[0].read); }
      StepKeepsInv(c, w, steps[0]);
      SafeRunIsMendable(c, After(c, w, steps[0]), steps[1..]);
    }
  }

  lemma MarkAgreesInEverySafeRun(c: Config, o: Object, steps: seq<Step>)
    requires o.spec != Stopped && o.mark in {None, Some(Active)} && SoundPolicy(o)
    requires var w := World([o], 0, 0, None); LegalRun(c, w, steps) && SafeRun(c, w, steps)
    ensures AllAgree(Final(c, World([o], 0, 0, None), steps))
  {
    RunningJobStarts(o);
    SafeRunIsMendable(c, World([o], 0, 0, None), steps);
    MarkAgreesInEveryRun(c, World([o], 0, 0, None), steps);
  }

  /** Where runs start: one version, running and unmarked or marked active, and no memory. */
  lemma RunningJobStarts(o: Object)
    requires o.spec != Stopped && o.mark in {None, Some(Active)} && SoundPolicy(o)
    ensures Inv(World([o], 0, 0, None))
  {
  }
}
