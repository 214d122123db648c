/** What repairing, patching, refusing and releasing do, in terms of the fields themselves. */
module TickFacts {
  import opened Clock
  import opened Memory
  import opened Policy
  import opened Decider
  import opened Tick

  /** Repairing moves memory to the phase of the mark, with fresh clocks for the new phase, and leaves
      what was observed and counted alone. An unrecoverable memory is not repaired. */
  lemma RepairMeaning(prev: State, o: Object, now: Time)
    ensures var s := Repaired(prev, o, now);
      && s.snapshot == prev.snapshot && s.lastActivityAt == prev.lastActivityAt && s.restarts == prev.restarts
      && s.generation == prev.generation && s.refreshWake == prev.refreshWake && s.pending == prev.pending
      && s.restartingSince == prev.restartingSince
      && (if prev.phase == Unrecoverable || o.mark == None then s == prev else Some(s.phase) == o.mark)
      && (s.phase == prev.phase ==> s == prev)
      && (s.phase == Suspended != prev.phase ==>
            s.suspendedAt == now && s.awakeSince == prev.awakeSince && s.resumedAt == prev.resumedAt && s.reason == MemoryRepaired)
      && (s.phase == Active != prev.phase ==>
            s.suspendedAt == 0 && s.awakeSince == now && s.resumedAt == now && s.reason == MemoryRepaired)
      && (s.phase == Unrecoverable != prev.phase ==>
            s.suspendedAt == prev.suspendedAt && s.awakeSince == prev.awakeSince && s.resumedAt == prev.resumedAt && s.reason == o.reason)
  {
    match prev.phase { case Active => case Suspended => case Unrecoverable => }
    if o.mark.Some? {
      match o.mark.value { case Active => case Suspended => case Unrecoverable => }
    }
  }

  /** A deployment without memory starts awake, now, with nothing observed and the object's nonce. */
  lemma FirstSight(o: Object, now: Time)
    requires o.mark in {None, Some(Active)}
    ensures var s := Loaded(None, o, now);
      && s.phase == Active && s.snapshot == map[] && s.lastActivityAt == now && s.awakeSince == now && s.suspendedAt == 0
      && s.restarts.count == 0 && s.restarts.lastNonce == o.nonce && s.generation == 0 && !s.refreshWake && s.reason == FirstObservation
      && s.resumedAt == 0 && s.restartingSince == 0 && s.pending == 0
  {
  }

  /** What a decision is shown of the object. */
  lemma LiveMeaning(o: Object)
    ensures var live := LiveOf(o);
      && (live.stopped <==> o.spec == Stopped) && live.upgradeMode == o.upgradeMode && live.operatorRestarts == o.operatorRestarts
      && live.generation == o.generation && live.nonce == o.nonce && live.job == o.job && live.lifecycle == o.lifecycle && live.error == o.error
  {
  }

  /** The object says what the state says. */
  predicate Shows(o: Object, s: State) { o.mark == Some(s.phase) && o.reason == s.reason }

  /** A refusal that was already remembered. */
  predicate Standing(prev: State, d: Decision) { d.action == Refuse && prev.reason == d.next.reason }

  /** What a decision writes on the object: both annotations whenever it writes at all, and the one field
      its action is about. */
  lemma PatchMeaning(o: Object, remembered: bool, prev: State, d: Decision)
    ensures var patch := PatchFor(o, remembered, prev, d);
      && (patch.None? <==>
            || (remembered && (d.action == Nothing || Standing(prev, d)) && prev.phase == d.next.phase && prev.reason == d.next.reason)
            || (d.action !in {Suspend, Resume, Restart} && Shows(o, d.next)))
      && (patch.Some? ==>
            && patch.value.mark == Some(d.next.phase) && patch.value.reason == d.next.reason
            && patch.value.spec == (if d.action == Suspend then Some(Stopped) else if d.action == Resume then Some(Running) else None)
            && patch.value.nonce == if d.action == Restart then Some(d.next.restarts.lastNonce) else None)
  {
  }

  /** So an object that showed what was loaded shows what was decided, once the patch has landed. */
  lemma ObjectShowsTheDecision(o: Object, current: Object, remembered: bool, prev: State, d: Decision)
    requires Shows(o, prev) && current.mark == o.mark && current.reason == o.reason
    ensures var patch := PatchFor(o, remembered, prev, d);
      Shows(if patch.Some? then Merged(current, patch.value) else current, d.next)
  {
    PatchMeaning(o, remembered, prev, d);
  }

  /** A merge patch changes the fields it names, and a new generation comes with a changed spec. */
  lemma MergeMeaning(o: Object, p: Patch)
    ensures var m := Merged(o, p);
      && m.mark == p.mark && m.reason == p.reason
      && m.spec == (if p.spec == None then o.spec else p.spec.value) && m.nonce == (if p.nonce == None then o.nonce else p.nonce.value)
      && m.generation == o.generation + (if m.spec == o.spec && m.nonce == o.nonce then 0 else 1)
      && m.lifecycle == o.lifecycle && m.job == o.job && m.upgradeMode == o.upgradeMode && m.error == o.error && m.policy == o.policy
  {
  }

  /** An object without a policy: untouched if it was never marked; waited for while the controller's own
      suspend is not complete; and otherwise cleared of its marks, running again if the suspend was the
      controller's, with its memory deleted. */
  lemma ReleaseMeaning(c: Config, o: Object, mem: Option<State>, obs: Observation, now: Time)
    requires o.policy == None
    ensures var ours := o.mark == Some(Suspended) && o.spec == Stopped;
      PlanOf(c, o, mem, obs, now)
      == if o.mark == None || (ours && o.lifecycle != SuspendedByOperator) then Plan(None, Keep)
         else Plan(Some(Patch(None, NoReason, if ours then Some(Running) else None, None)), Erase)
  {
  }

  /** An invalid policy changes nothing but the reason, and says so once. */
  lemma RefusalMeaning(c: Config, o: Object, mem: Option<State>, obs: Observation, now: Time)
    requires o.policy.Some? && o.policy.value.problems != []
    ensures var plan, prev, why := PlanOf(c, o, mem, obs, now), Loaded(mem, o, now), InvalidPolicy(o.policy.value.problems);
      && (prev.reason == why ==> plan == Plan(None, Keep))
      && (prev.reason != why ==> plan.memory == Save(prev.(reason := why)))
      && (plan.patch.Some? ==> plan.patch.value == Patch(Some(prev.phase), why, None, None))
      && (prev.reason != why && plan.patch.None? ==> Shows(o, prev.(reason := why)))
  {
  }
}
