/** One reconcile of one deployment: load, repair, decide, patch the object, save memory. Models
    Reconcile, load, repair, act, release and refuseInvalidPolicy of
    internal/controller/reconciler.go with the patches of internal/controller/patcher.go. */
module Tick {
  import opened Clock
  import opened Memory
  import opened Policy
  import opened Decider

  /** The FlinkDeployment as the API server holds it. mark and reason are the controller's two
      annotations; policy is None without a mode annotation. suspending is the operator's own
      progress: a requested suspend that it has not completed. */
  datatype Object = Object(
    spec: JobSpec,
    mark: Option<Phase>,
    reason: Reason,
    nonce: int,
    generation: int,
    lifecycle: Lifecycle,
    job: JobState,
    upgradeMode: UpgradeMode,
    operatorRestarts: bool,
    error: string,
    policy: Option<Policy>,
    suspending: bool)
  {
    predicate IsStopped() { spec == Stopped }
  }

  function LiveOf(o: Object): Live {
    Live(o.spec == Stopped, o.upgradeMode, o.operatorRestarts, o.generation, o.nonce, o.job, o.lifecycle, o.error)
  }

  predicate SoundPolicy(o: Object) {
    o.policy.Some? ==> Sound(o.policy.value)
  }

  /** A conditional merge patch: both annotations always (a None mark removes the key), and at most
      one spec field. */
  datatype Patch = Patch(mark: Option<Phase>, reason: Reason, spec: Option<JobSpec>, nonce: Option<int>)

  function Merged(o: Object, p: Patch): Object {
    var spec := if p.spec.Some? then p.spec.value else o.spec;
    var nonce := if p.nonce.Some? then p.nonce.value else o.nonce;
    o.(mark := p.mark, reason := p.reason, spec := spec, nonce := nonce,
       generation := if spec != o.spec || nonce != o.nonce then o.generation + 1 else o.generation,
       suspending := if spec == o.spec then o.suspending else spec == Stopped)
  }

  datatype MemoryWrite = Keep | Save(state: State) | Erase

  /** What a tick wants written: the object first, memory second. */
  datatype Plan = Plan(patch: Option<Patch>, memory: MemoryWrite)

  /** Where memory and the mark differ, memory follows the mark. */
  function Repaired(prev: State, o: Object, now: Time): State {
    if o.mark == Some(Suspended) && prev.phase == Active then
      prev.(phase := Suspended, suspendedAt := now, reason := MemoryRepaired)
    else if o.mark == Some(Active) && prev.phase == Suspended then
      prev.(phase := Active, suspendedAt := 0, awakeSince := now, resumedAt := now, reason := MemoryRepaired)
    else if o.mark == Some(Unrecoverable) && prev.phase != Unrecoverable then
      prev.(phase := Unrecoverable, reason := o.reason)
    else prev
  }

  function Loaded(mem: Option<State>, o: Object, now: Time): State {
    var prev :=
      if mem.Some? then mem.value
      else var first := Initial(now); first.(restarts := first.restarts.(lastNonce := o.nonce));
    Repaired(prev, o, now)
  }

  /** Refusing again for the reason already remembered is not acting. */
  predicate Acted(prev: State, d: Decision) {
    d.action != Nothing && !(d.action == Refuse && prev.reason == d.next.reason)
  }

  /** Nothing is written when both annotations already say it. */
  function Annotation(o: Object, s: State): Option<Patch> {
    if o.mark == Some(s.phase) && o.reason == s.reason then None
    else Some(Patch(Some(s.phase), s.reason, None, None))
  }

  predicate HumanVisible(remembered: bool, prev: State, d: Decision) {
    !remembered || Acted(prev, d) || prev.phase != d.next.phase || prev.reason != d.next.reason
  }

  function PatchFor(o: Object, remembered: bool, prev: State, d: Decision): Option<Patch> {
    if !HumanVisible(remembered, prev, d) then None
    else match d.action
      case Suspend => Some(Patch(Some(d.next.phase), d.next.reason, Some(Stopped), None))
      case Resume => Some(Patch(Some(d.next.phase), d.next.reason, Some(Running), None))
      case Restart => Some(Patch(Some(d.next.phase), d.next.reason, None, Some(d.next.restarts.lastNonce)))
      case Nothing => Annotation(o, d.next)
      case MarkUnrecoverable => Annotation(o, d.next)
      case Refuse => Annotation(o, d.next)
  }

  /** The policy was removed: hand the job back awake, then drop annotations and memory. */
  function ReleasePlan(o: Object): Plan {
    if o.mark == None then Plan(None, Keep)
    else if o.mark == Some(Suspended) && o.spec == Stopped then
      if o.lifecycle != SuspendedByOperator then Plan(None, Keep)
      else Plan(Some(Patch(None, NoReason, Some(Running), None)), Erase)
    else Plan(Some(Patch(None, NoReason, None, None)), Erase)
  }

  function RefusalPlan(o: Object, prev: State, problems: seq<Problem>): Plan {
    var next := prev.(reason := InvalidPolicy(problems));
    if prev.reason == next.reason then Plan(None, Keep) else Plan(Annotation(o, next), Save(next))
  }

  predicate Decides(o: Object) {
    o.policy.Some? && o.policy.value.problems == []
  }

  function DecisionOn(c: Config, seen: Object, mem: Option<State>, obs: Observation, now: Time): Decision
    requires seen.policy.Some?
  {
    Decide(c, seen.policy.value, Loaded(mem, seen, now), LiveOf(seen), obs, now)
  }

  /** The whole tick, as a function of the object it read (possibly stale) and of memory. */
  function PlanOf(c: Config, seen: Object, mem: Option<State>, obs: Observation, now: Time): Plan {
    if seen.policy.None? then ReleasePlan(seen)
    else
      var prev := Loaded(mem, seen, now);
      if seen.policy.value.problems != [] then RefusalPlan(seen, prev, seen.policy.value.problems)
      else
        var d := DecisionOn(c, seen, mem, obs, now);
        Plan(PatchFor(seen, mem.Some?, prev, d), Save(d.next))
  }

  /** How a tick's two writes went: the first was refused or never made it, the first landed and
      the second was lost, or both landed. */
  datatype Outcome = Rejected | SaveLost | Saved

  /** A patch lands on the version that was read, or after a conflict on a fresh version whose
      spec.job.state is still the one the decision was made on. */
  predicate CanLand(plan: Plan, seen: Object, current: Object, outcome: Outcome) {
    outcome != Rejected && plan.patch.Some? ==> seen.spec == current.spec
  }

  function ObjectAfter(plan: Plan, current: Object, outcome: Outcome): Object {
    if outcome != Rejected && plan.patch.Some? then Merged(current, plan.patch.value) else current
  }

  function MemoryAfter(plan: Plan, mem: Option<State>, outcome: Outcome): Option<State> {
    if outcome != Saved then mem
    else match plan.memory
      case Keep => mem
      case Save(s) => Some(Persisted(s))
      case Erase => None
  }

  /** A release clears the mark, fails to delete, and leaves a memory that says suspended. */
  predicate LosesDelete(plan: Plan, mem: Option<State>, outcome: Outcome) {
    plan.memory == Erase && outcome == SaveLost && mem.Some? && mem.value.phase == Suspended
  }
}
