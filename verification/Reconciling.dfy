/** Runs in which the controller sees its own writes: a read may miss any of the changes others
    made since, but not the controller's own last patch. Others may change anything but the
    controller's annotations, spec.job.state included. */
module Reconciling {
  import opened Clock
  import opened Memory
  import opened Policy
  import opened Decider
  import opened DecisionFacts
  import opened Tick
  import opened Observing

  datatype Cluster = Cluster(obj: Object, mem: Option<State>)

  datatype Event =
    | Reconcile(seen: Object, now: Time, obs: Observation, outcome: Outcome)
    | Others(o: Object)
    | Forget

  /** Nobody but the controller writes its annotations, so a read that has seen its last patch
      shows them as they are. */
  predicate SameMark(a: Object, b: Object) {
    a.mark == b.mark && a.reason == b.reason
  }

  function PlanAt(c: Config, w: Cluster, e: Event): Plan
    requires e.Reconcile?
  {
    PlanOf(c, e.seen, w.mem, e.obs, e.now)
  }

  predicate Legal(c: Config, w: Cluster, e: Event) {
    match e
    case Reconcile(seen, now, obs, outcome) =>
      && SameMark(seen, w.obj) && SoundPolicy(seen)
      && CanLand(PlanAt(c, w, e), seen, w.obj, outcome)
    case Others(o) => SameMark(o, w.obj) && SoundPolicy(o)
    case Forget => true
  }

  function After(c: Config, w: Cluster, e: Event): Cluster {
    match e
    case Reconcile(seen, now, obs, outcome) =>
      var plan := PlanAt(c, w, e);
      Cluster(ObjectAfter(plan, w.obj, outcome), MemoryAfter(plan, w.mem, outcome))
    case Others(o) => w.(obj := o)
    case Forget => w.(mem := None)
  }

  predicate LegalRun(c: Config, w: Cluster, events: seq<Event>)
    decreases |events|
  {
    events == [] || (Legal(c, w, events[0]) && LegalRun(c, After(c, w, events[0]), events[1..]))
  }

  function Final(c: Config, w: Cluster, events: seq<Event>): Cluster
    decreases |events|
  {
    if events == [] then w else Final(c, After(c, w, events[0]), events[1..])
  }

  /** An event takes one state of a run to the next. */
  ghost predicate Leads(c: Config, state: nat -> Cluster, events: seq<Event>, i: nat)
    requires i < |events|
  {
    Legal(c, state(i), events[i]) && After(c, state(i), events[i]) == state(i + 1)
  }

  /** A run given by the states it goes through. */
  lemma {:induction false} RunThrough(c: Config, state: nat -> Cluster, events: seq<Event>, n: nat)
    requires n <= |events| && forall i: nat :: i < |events| ==> Leads(c, state, events, i)
    ensures LegalRun(c, state(n), events[n..]) && Final(c, state(n), events[n..]) == state(|events|)
    decreases |events| - n
  {
    if n < |events| {
      assert Leads(c, state, events, n) && events[n..][1..] == events[n + 1..];
      RunThrough(c, state, events, n + 1);
    }
  }

  /** Instants that follow one another from a given one on, and observations that can be made. */
  ghost predicate Credible(events: seq<Event>, clock: Time) {
    && (forall i :: 0 <= i < |events| && events[i].Reconcile? ==> clock < events[i].now && Observed(events[i].obs))
    && (forall i, j :: 0 <= i < j < |events| && events[i].Reconcile? && events[j].Reconcile? ==> events[i].now < events[j].now)
  }

  lemma RunFirst(c: Config, w: Cluster, e: Event, rest: seq<Event>)
    requires Legal(c, w, e) && LegalRun(c, After(c, w, e), rest)
    ensures LegalRun(c, w, [e] + rest) && Final(c, w, [e] + rest) == Final(c, After(c, w, e), rest)
  {
    assert ([e] + rest)[0] == e && ([e] + rest)[1..] == rest;
  }

  lemma CredibleFirst(e: Event, rest: seq<Event>, clock: Time)
    requires e.Reconcile? && clock < e.now && Observed(e.obs) && Credible(rest, e.now)
    ensures Credible([e] + rest, clock)
  {
    var events := [e] + rest;
    assert forall i :: 0 < i < |events| ==> events[i] == rest[i - 1];
  }

  /** The decision of a tick; a refused policy decides to leave everything but the reason. */
  function Verdict(c: Config, w: Cluster, e: Event): Decision
    requires e.Reconcile? && e.seen.policy.Some?
  {
    if Decides(e.seen) then DecisionOn(c, e.seen, w.mem, e.obs, e.now)
    else Decision(Nothing, Loaded(w.mem, e.seen, e.now).(reason := InvalidPolicy(e.seen.policy.value.problems)))
  }

  lemma VerdictIsDisciplined(c: Config, w: Cluster, e: Event)
    requires e.Reconcile? && e.seen.policy.Some? && SoundPolicy(e.seen)
    ensures var before, d := Loaded(w.mem, e.seen, e.now), Verdict(c, w, e);
      && ClockDiscipline(before, e.obs, e.now, d) && PhaseDiscipline(before, LiveOf(e.seen), d)
      && d.next.restarts.lastNonce in {before.restarts.lastNonce, e.seen.nonce, UnixMilli(e.now)}
      && (d.action == Restart ==> d.next.restarts.lastNonce == UnixMilli(e.now))
  {
    if Decides(e.seen) {
      var before := Loaded(w.mem, e.seen, e.now);
      DecisionKeepsPhaseDiscipline(c, e.seen.policy.value, before, LiveOf(e.seen), e.obs, e.now);
      DecisionKeepsClockDiscipline(c, e.seen.policy.value, before, LiveOf(e.seen), e.obs, e.now);
      DecisionKeepsBudgetDiscipline(c, e.seen.policy.value, before, LiveOf(e.seen), e.obs, e.now);
    }
  }

  /** The two stores after a tick that decided on what it loaded. */
  ghost predicate Written(w: Cluster, w': Cluster, before: State, d: Decision, outcome: Outcome) {
    && (w'.mem == w.mem || (outcome == Saved && w'.mem == Some(Persisted(d.next))))
    && (w'.obj.nonce == w.obj.nonce || (d.action == Restart && outcome != Rejected && w'.obj.nonce == d.next.restarts.lastNonce))
    && (d.action == Restart && outcome != Rejected ==> w'.obj.nonce == d.next.restarts.lastNonce)
    && (w'.obj.spec == w.obj.spec
        || (outcome != Rejected && d.action == Suspend && w'.obj.spec == Stopped)
        || (outcome != Rejected && d.action == Resume && w'.obj.spec == Running))
    && (outcome != Rejected && d.action == Resume ==> w'.obj.spec == Running && w'.obj.reason == d.next.reason)
    && (w'.obj.mark == w.obj.mark || (outcome != Rejected && w'.obj.mark == Some(d.next.phase)))
    && (outcome != Rejected && d.action == Suspend ==> w'.obj.spec == Stopped && w'.obj.mark == Some(d.next.phase))
    && (outcome != Rejected && w'.obj.mark != Some(d.next.phase) ==>
          w'.obj.mark == w.obj.mark && d.next.phase == before.phase)
  }

  lemma PatchIsWritten(w: Cluster, seen: Object, before: State, d: Decision, outcome: Outcome)
    requires SameMark(seen, w.obj)
    ensures var plan := Plan(PatchFor(seen, w.mem.Some?, before, d), Save(d.next));
      Written(w, Cluster(ObjectAfter(plan, w.obj, outcome), MemoryAfter(plan, w.mem, outcome)), before, d, outcome)
  {
  }

  lemma RefusalIsWritten(w: Cluster, seen: Object, before: State, problems: seq<Problem>, outcome: Outcome)
    requires SameMark(seen, w.obj)
    ensures var plan := RefusalPlan(seen, before, problems);
      var d := Decision(Nothing, before.(reason := InvalidPolicy(problems)));
      Written(w, Cluster(ObjectAfter(plan, w.obj, outcome), MemoryAfter(plan, w.mem, outcome)), before, d, outcome)
  {
  }

  /** A tick writes its verdict. */
  lemma VerdictIsWritten(c: Config, w: Cluster, e: Event)
    requires e.Reconcile? && e.seen.policy.Some? && SameMark(e.seen, w.obj)
    ensures Written(w, After(c, w, e), Loaded(w.mem, e.seen, e.now), Verdict(c, w, e), e.outcome)
    ensures e.outcome == Saved && Decides(e.seen) ==> After(c, w, e).mem == Some(Persisted(Verdict(c, w, e).next))
  {
    var before := Loaded(w.mem, e.seen, e.now);
    if Decides(e.seen) { PatchIsWritten(w, e.seen, before, Verdict(c, w, e), e.outcome); }
    else { RefusalIsWritten(w, e.seen, before, e.seen.policy.value.problems, e.outcome); }
  }

  /** Memory fits the mark: it says suspended only under some mark, and unrecoverable only where
      the mark does not say suspended. */
  predicate MemoryFits(w: Cluster) {
    w.mem.Some? ==>
      && (w.mem.value.phase == Suspended ==> w.obj.mark != None)
      && (w.mem.value.phase == Unrecoverable ==> w.obj.mark != Some(Suspended))
  }

  /** Then what a tick loads is asleep exactly when the mark says so. */
  lemma LoadedFollowsMark(w: Cluster, seen: Object, now: Time)
    requires MemoryFits(w) && SameMark(seen, w.obj)
    ensures Loaded(w.mem, seen, now).phase == Suspended <==> w.obj.mark == Some(Suspended)
  {
    if w.obj.mark.Some? {
      match w.obj.mark.value { case Active => case Suspended => case Unrecoverable => }
    }
  }

  lemma WrittenFits(w: Cluster, w': Cluster, before: State, live: Live, d: Decision, outcome: Outcome)
    requires MemoryFits(w) && PhaseDiscipline(before, live, d) && Written(w, w', before, d, outcome)
    requires before.phase == Suspended <==> w.obj.mark == Some(Suspended)
    requires w.mem.Some? && w.mem.value.phase == Unrecoverable ==> before.phase == Unrecoverable
    ensures MemoryFits(w')
  {
  }

  /** The half of it that every event keeps, a release that fails to delete included. */
  predicate NoConflict(w: Cluster) {
    w.mem.Some? && w.mem.value.phase == Unrecoverable ==> w.obj.mark != Some(Suspended)
  }

  lemma LoadedWithoutConflict(w: Cluster, seen: Object, now: Time)
    requires NoConflict(w) && SameMark(seen, w.obj)
    ensures w.obj.mark == Some(Suspended) ==> Loaded(w.mem, seen, now).phase == Suspended
    ensures Loaded(w.mem, seen, now).phase == Suspended ==>
      w.obj.mark == Some(Suspended) || (w.mem.Some? && w.mem.value.phase == Suspended)
    ensures w.mem.Some? && w.mem.value.phase == Unrecoverable ==> Loaded(w.mem, seen, now).phase == Unrecoverable
  {
    if w.obj.mark.Some? {
      match w.obj.mark.value { case Active => case Suspended => case Unrecoverable => }
    }
    if w.mem.Some? {
      match w.mem.value.phase { case Active => case Suspended => case Unrecoverable => }
    }
  }

  lemma WrittenWithoutConflict(w: Cluster, w': Cluster, before: State, live: Live, d: Decision, outcome: Outcome)
    requires NoConflict(w) && PhaseDiscipline(before, live, d) && Written(w, w', before, d, outcome)
    requires w.obj.mark == Some(Suspended) ==> before.phase == Suspended
    requires w.mem.Some? && w.mem.value.phase == Unrecoverable ==> before.phase == Unrecoverable
    ensures NoConflict(w')
  {
  }

  lemma StepKeepsNoConflict(c: Config, w: Cluster, e: Event)
    requires NoConflict(w) && Legal(c, w, e)
    ensures NoConflict(After(c, w, e))
  {
    if e.Reconcile? && e.seen.policy.Some? {
      LoadedWithoutConflict(w, e.seen, e.now);
      VerdictIsDisciplined(c, w, e);
      VerdictIsWritten(c, w, e);
      WrittenWithoutConflict(w, After(c, w, e), Loaded(w.mem, e.seen, e.now), LiveOf(e.seen), Verdict(c, w, e), e.outcome);
    }
  }

  predicate DeleteLost(c: Config, w: Cluster, e: Event) {
    e.Reconcile? && LosesDelete(PlanAt(c, w, e), w.mem, e.outcome)
  }

  lemma ReleaseKeepsMemoryFitExactlyWhen(c: Config, w: Cluster, e: Event)
    requires MemoryFits(w) && e.Reconcile? && e.seen.policy.None?
    ensures MemoryFits(After(c, w, e)) <==> !DeleteLost(c, w, e)
  {
  }

  /** Every event keeps memory fitting the mark, but for such a release. */
  lemma StepKeepsMemoryFitExactlyWhen(c: Config, w: Cluster, e: Event)
    requires MemoryFits(w) && Legal(c, w, e)
    ensures MemoryFits(After(c, w, e)) <==> !DeleteLost(c, w, e)
  {
    if e.Reconcile? {
      LoadedFollowsMark(w, e.seen, e.now);
      if e.seen.policy.Some? {
        VerdictIsDisciplined(c, w, e);
        VerdictIsWritten(c, w, e);
        WrittenFits(w, After(c, w, e), Loaded(w.mem, e.seen, e.now), LiveOf(e.seen), Verdict(c, w, e), e.outcome);
      } else {
        ReleaseKeepsMemoryFitExactlyWhen(c, w, e);
      }
    }
  }

  /** No release of the run loses its delete over a memory that says suspended. */
  predicate KeepsDeletes(c: Config, w: Cluster, events: seq<Event>)
    decreases |events|
  {
    events != [] ==> !DeleteLost(c, w, events[0]) && KeepsDeletes(c, After(c, w, events[0]), events[1..])
  }

  lemma {:induction false} RunKeepsMemoryFit(c: Config, w: Cluster, events: seq<Event>)
    requires MemoryFits(w) && LegalRun(c, w, events) && KeepsDeletes(c, w, events)
    ensures MemoryFits(Final(c, w, events))
    decreases |events|
  {
    if events != [] {
      StepKeepsMemoryFitExactlyWhen(c, w, events[0]);
      RunKeepsMemoryFit(c, After(c, w, events[0]), events[1..]);
    }
  }
}
