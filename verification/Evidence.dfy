/** The evidence behind every suspend, over whole runs: what earlier ticks saw, not what memory
    says they saw. Saves may be lost at any point and memory may be deleted. */
module Evidence {
  import opened Clock
  import JobGate
  import opened Memory
  import opened Decider
  import opened DecisionFacts
  import opened Tick
  import opened Reconciling
  import Snapshots

  /** What really happened. lastSeen is the snapshot the last tick that knew the offsets saw, past
      are all it saw before, changedAt is when lastSeen was first seen. sleptAt and wokeAt are when
      a tick last put the job to sleep, and last resumed or restarted it, on the object itself;
      refreshedAt is when it was last resumed for a refresh. */
  datatype Trace = Trace(
    lastSeen: Snapshot,
    past: set<Snapshot>,
    changedAt: Time,
    sleptAt: Time,
    wokeAt: Time,
    refreshedAt: Option<Time>,
    clock: Time,
    millis: int)

  predicate Observes(e: Event) {
    e.Reconcile? && Decides(e.seen) && e.obs.known
  }

  function Watched(e: Event, t: Trace): Trace {
    if Observes(e) && e.obs.snapshot != t.lastSeen
    then t.(lastSeen := e.obs.snapshot, past := t.past + {t.lastSeen}, changedAt := e.now)
    else t
  }

  function TracedBetween(w: Cluster, w': Cluster, e: Event, t: Trace): Trace
    requires e.Reconcile?
  {
    Watched(e, t).(
      sleptAt := if w.obj.spec != Stopped && w'.obj.spec == Stopped then e.now else t.sleptAt,
      wokeAt := if (w.obj.spec == Stopped && w'.obj.spec != Stopped) || w.obj.nonce != w'.obj.nonce then e.now else t.wokeAt,
      refreshedAt := if w.obj.spec == Stopped && w'.obj.spec != Stopped && w'.obj.reason.WokenAfter? then Some(e.now) else t.refreshedAt,
      clock := e.now, millis := UnixMilli(e.now))
  }

  function Traced(c: Config, w: Cluster, e: Event, t: Trace): Trace {
    if e.Reconcile? then TracedBetween(w, After(c, w, e), e, t) else t
  }

  /** Ticks are at least a millisecond apart, and nobody else writes the nonce. */
  predicate Timely(w: Cluster, e: Event, t: Trace) {
    match e
    case Reconcile(seen, now, obs, outcome) => now >= t.clock && UnixMilli(now) > t.millis && seen.nonce == w.obj.nonce
    case Others(o) => o.nonce == w.obj.nonce
    case Forget => true
  }

  /** Besides, offsets that moved never come back to an earlier value. */
  predicate Orderly(w: Cluster, e: Event, t: Trace) {
    Timely(w, e, t) && (Observes(e) ==> e.obs.snapshot == t.lastSeen || e.obs.snapshot !in t.past)
  }

  predicate LosesResume(c: Config, w: Cluster, e: Event) {
    e.Reconcile? && e.outcome == SaveLost && w.obj.spec == Stopped && After(c, w, e).obj.spec != Stopped
  }

  /** Memory that does not know of a resume will still notice it: it says asleep, so that it is
      repaired, or it has a restart to count, or its own awakening is not a second older. */
  predicate WillNotice(w: Cluster, now: Time) {
    w.mem.Some? && w.mem.value.phase == Active ==>
      now <= w.mem.value.awakeSince + SECOND || w.obj.nonce > w.mem.value.restarts.lastNonce
  }

  /** And a resume that loses its save finds memory that will notice: the save of the suspend before
      it, or of any tick since, was not lost as well. */
  predicate Steady(c: Config, w: Cluster, e: Event, t: Trace) {
    Orderly(w, e, t) && (LosesResume(c, w, e) ==> WillNotice(w, e.now))
  }

  predicate SteadyRun(c: Config, w: Cluster, events: seq<Event>, t: Trace)
    decreases |events|
  {
    events != [] ==>
      && Steady(c, w, events[0], t)
      && SteadyRun(c, After(c, w, events[0]), events[1..], Traced(c, w, events[0], t))
  }

  function FinalTrace(c: Config, w: Cluster, events: seq<Event>, t: Trace): Trace
    decreases |events|
  {
    if events == [] then t else FinalTrace(c, After(c, w, events[0]), events[1..], Traced(c, w, events[0], t))
  }

  // ---------------------------------------------------------------- memory against the trace

  predicate TraceFits(t: Trace) {
    && t.changedAt <= t.clock && t.sleptAt <= t.clock && t.wokeAt <= t.clock
    && t.lastSeen !in t.past && (map[] == t.lastSeen || map[] in t.past)
    && (t.lastSeen == map[] ==> t.changedAt <= t.sleptAt)
  }

  /** Since the offsets last changed, the job has been resumed for a refresh. */
  predicate Refreshed(t: Trace) { t.refreshedAt.Some? && t.changedAt <= t.refreshedAt.value }

  /** An awakening not older than the last resume or restart, or older by no more than was cut off. */
  predicate AwakeAfter(awakeSince: Time, wokeAt: Time) {
    wokeAt <= awakeSince || (WholeSeconds(awakeSince) == awakeSince && wokeAt <= awakeSince + SECOND)
  }

  /** A remembered state that tells no more than what happened: if its snapshot is the last one seen,
      its activity clock is not older than the change, a sleep or a refresh wake has seen no change
      since the job fell asleep, and a refresh wake since it was resumed for a refresh; awake, its clock
      is not older than the last resume or restart, unless that was a restart it has yet to count. */
  predicate Fits(s: State, t: Trace, asleep: bool, nonce: int) {
    && (s.snapshot == t.lastSeen || s.snapshot in t.past)
    && (s.snapshot == t.lastSeen ==>
          && WholeSeconds(t.changedAt) <= s.lastActivityAt
          && (s.refreshWake || asleep || s.phase == Suspended ==> t.changedAt <= t.sleptAt)
          && (s.refreshWake ==> Refreshed(t)))
    && (s.phase == Active ==> AwakeAfter(s.awakeSince, t.wokeAt) || nonce > s.restarts.lastNonce)
    && s.restarts.lastNonce <= t.millis
  }

  predicate Evidenced(w: Cluster, t: Trace) {
    && NoConflict(w) && TraceFits(t) && w.obj.nonce <= t.millis
    && (w.mem.Some? ==>
          && Fits(w.mem.value, t, w.obj.mark == Some(Suspended), w.obj.nonce)
          && ClocksFit(w.mem.value, t.clock))
  }

  /** Loading and repairing memory, or starting without one, keeps it true to the trace. */
  lemma LoadedFits(w: Cluster, seen: Object, now: Time, t: Trace)
    requires Evidenced(w, t) && SameMark(seen, w.obj) && seen.nonce == w.obj.nonce && t.clock <= now
    ensures Fits(Loaded(w.mem, seen, now), t, Loaded(w.mem, seen, now).phase == Suspended, w.obj.nonce)
  {
    LoadedWithoutConflict(w, seen, now);
  }

  /** What a tick may have done to the object for memory to stay true. */
  ghost predicate Told(before: State, d: Decision, e: Event, w: Cluster, w': Cluster, t: Trace)
    requires e.Reconcile?
  {
    && TraceFits(t) && t.clock <= e.now && t.millis < UnixMilli(e.now)
    && ClockDiscipline(before, e.obs, e.now, d) && (Decides(e.seen) || d.next.snapshot == before.snapshot)
    && (Observes(e) ==> e.obs.snapshot == t.lastSeen || e.obs.snapshot !in t.past)
    && d.next.restarts.lastNonce <= UnixMilli(e.now)
    && (d.next.phase == Suspended ==>
          before.phase == Suspended || (d.action == Suspend && w.obj.spec != Stopped && w'.obj.spec == Stopped))
    && (before.phase == Active && d.action != Restart ==>
          w'.obj.nonce == w.obj.nonce && (w.obj.spec == Stopped ==> w'.obj.spec == Stopped))
    && (d.action == Resume && d.next.reason.WokenAfter? ==>
          w.obj.spec == Stopped && w'.obj.spec != Stopped && w'.obj.reason.WokenAfter?)
  }

  lemma DecidedSnapshotFits(before: State, d: Decision, e: Event, w: Cluster, w': Cluster, t: Trace)
    requires e.Reconcile? && Told(before, d, e, w, w', t) && Fits(before, t, before.phase == Suspended, w.obj.nonce)
    ensures var next, t' := Persisted(d.next), TracedBetween(w, w', e, t);
      && (next.snapshot == t'.lastSeen || next.snapshot in t'.past)
      && (next.snapshot == t'.lastSeen ==>
            && WholeSeconds(t'.changedAt) <= next.lastActivityAt
            && (next.refreshWake || d.next.phase == Suspended ==> t'.changedAt <= t'.sleptAt)
            && (next.refreshWake ==> Refreshed(t')))
  {
    var t' := TracedBetween(w, w', e, t);
    if d.next.lastActivityAt >= WholeSeconds(t'.changedAt) {
      WholeSecondsKeepsOrder(t'.changedAt, d.next.lastActivityAt);
    }
  }

  lemma DecidedAwakeFits(before: State, d: Decision, e: Event, w: Cluster, w': Cluster, t: Trace)
    requires e.Reconcile? && Told(before, d, e, w, w', t) && Fits(before, t, before.phase == Suspended, w.obj.nonce)
    requires d.next.phase == Active
    ensures AwakeAfter(Persisted(d.next).awakeSince, TracedBetween(w, w', e, t).wokeAt) || w'.obj.nonce > d.next.restarts.lastNonce
  {
  }

  /** So does deciding. */
  lemma DecidedFits(before: State, d: Decision, e: Event, w: Cluster, w': Cluster, t: Trace)
    requires e.Reconcile? && Told(before, d, e, w, w', t) && Fits(before, t, before.phase == Suspended, w.obj.nonce)
    ensures Fits(Persisted(d.next), TracedBetween(w, w', e, t), d.next.phase == Suspended, w'.obj.nonce)
  {
    DecidedSnapshotFits(before, d, e, w, w', t);
    if d.next.phase == Active { DecidedAwakeFits(before, d, e, w, w', t); }
  }

  lemma MemoryStillFits(m: State, w: Cluster, w': Cluster, e: Event, t: Trace)
    requires e.Reconcile? && TraceFits(t) && t.clock <= e.now && t.millis < UnixMilli(e.now)
    requires Fits(m, t, w.obj.mark == Some(Suspended), w.obj.nonce)
    requires Observes(e) ==> e.obs.snapshot == t.lastSeen || e.obs.snapshot !in t.past
    requires w'.obj.mark == Some(Suspended) ==>
      w.obj.mark == Some(Suspended) || m.phase == Suspended || (w.obj.spec != Stopped && w'.obj.spec == Stopped)
    requires w'.obj.nonce != w.obj.nonce ==> w'.obj.nonce == UnixMilli(e.now)
    requires m.phase == Active && w.obj.spec == Stopped && w'.obj.spec != Stopped ==>
      (WholeSeconds(m.awakeSince) == m.awakeSince && e.now <= m.awakeSince + SECOND) || w.obj.nonce > m.restarts.lastNonce
    ensures Fits(m, TracedBetween(w, w', e, t), w'.obj.mark == Some(Suspended), w'.obj.nonce)
  {
  }

  lemma TraceStillFits(w: Cluster, w': Cluster, e: Event, t: Trace)
    requires e.Reconcile? && TraceFits(t) && t.clock <= e.now
    requires Observes(e) ==> e.obs.snapshot == t.lastSeen || e.obs.snapshot !in t.past
    ensures TraceFits(TracedBetween(w, w', e, t))
  {
  }

  lemma TickKeepsEvidence(c: Config, w: Cluster, e: Event, t: Trace)
    requires Evidenced(w, t) && e.Reconcile? && Legal(c, w, e) && Steady(c, w, e, t)
    ensures Evidenced(After(c, w, e), Traced(c, w, e, t))
  {
    var w' := After(c, w, e);
    StepKeepsNoConflict(c, w, e);
    TraceStillFits(w, w', e, t);
    if e.seen.policy.Some? {
      PolicyTickKeepsEvidence(c, w, e, t);
      PolicyTickKeepsClocks(c, w, e, t.clock);
    } else if w'.mem.Some? {
      ReleaseLeavesMemory(c, w, e);
      MemoryStillFits(w.mem.value, w, w', e, t);
    }
  }

  /** A release that leaves memory in place has waited, or has lost its delete. */
  lemma ReleaseLeavesMemory(c: Config, w: Cluster, e: Event)
    requires e.Reconcile? && e.seen.policy.None? && Legal(c, w, e) && After(c, w, e).mem.Some?
    ensures After(c, w, e).mem == w.mem && After(c, w, e).obj.nonce == w.obj.nonce
    ensures After(c, w, e) == w || (After(c, w, e).obj.mark == None && e.outcome == SaveLost)
  {
  }

  lemma SavedFits(before: State, live: Live, d: Decision, e: Event, w: Cluster, w': Cluster, t: Trace)
    requires e.Reconcile? && Told(before, d, e, w, w', t) && Fits(before, t, before.phase == Suspended, w.obj.nonce)
    requires Written(w, w', before, d, e.outcome) && e.outcome == Saved && w'.mem == Some(Persisted(d.next))
    requires w.obj.mark == Some(Suspended) ==> before.phase == Suspended
    ensures Fits(w'.mem.value, TracedBetween(w, w', e, t), w'.obj.mark == Some(Suspended), w'.obj.nonce)
  {
    DecidedFits(before, d, e, w, w', t);
  }

  lemma TickTells(c: Config, w: Cluster, e: Event, t: Trace)
    requires Evidenced(w, t) && e.Reconcile? && e.seen.policy.Some? && Legal(c, w, e) && Steady(c, w, e, t) && e.outcome != Rejected
    ensures Told(Loaded(w.mem, e.seen, e.now), Verdict(c, w, e), e, w, After(c, w, e), t)
  {
    VerdictIsDisciplined(c, w, e);
    VerdictIsWritten(c, w, e);
    if Verdict(c, w, e).action in {Suspend, Resume} { LandsAsSeen(c, w, e); }
  }

  lemma PolicyTickKeepsEvidence(c: Config, w: Cluster, e: Event, t: Trace)
    requires Evidenced(w, t) && e.Reconcile? && e.seen.policy.Some? && Legal(c, w, e) && Steady(c, w, e, t)
    ensures var w' := After(c, w, e);
      && (w'.mem.Some? ==> Fits(w'.mem.value, TracedBetween(w, w', e, t), w'.obj.mark == Some(Suspended), w'.obj.nonce))
      && w'.obj.nonce <= UnixMilli(e.now)
  {
    var w', before, d := After(c, w, e), Loaded(w.mem, e.seen, e.now), Verdict(c, w, e);
    VerdictIsDisciplined(c, w, e);
    VerdictIsWritten(c, w, e);
    LoadedWithoutConflict(w, e.seen, e.now);
    if e.outcome == Saved && w'.mem == Some(Persisted(d.next)) {
      TickTells(c, w, e, t);
      LoadedFits(w, e.seen, e.now, t);
      SavedFits(before, LiveOf(e.seen), d, e, w, w', t);
    } else if w'.mem.Some? {
      if e.outcome != Rejected && d.action in {Suspend, Resume} { LandsAsSeen(c, w, e); }
      MemoryStillFits(w.mem.value, w, w', e, t);
    }
  }

  predicate ClocksFit(m: State, now: Time) {
    WholeSeconds(m.awakeSince) == m.awakeSince && m.lastActivityAt <= now
  }

  lemma SavedClocksFit(before: State, d: Decision, obs: Observation, now: Time)
    requires ClockDiscipline(before, obs, now, d) && before.lastActivityAt <= now
    ensures ClocksFit(Persisted(d.next), now)
  {
    WholeSecondsTwice(d.next.awakeSince);
  }

  lemma PolicyTickKeepsClocks(c: Config, w: Cluster, e: Event, clock: Time)
    requires e.Reconcile? && e.seen.policy.Some? && Legal(c, w, e) && clock <= e.now
    requires w.mem.Some? ==> ClocksFit(w.mem.value, clock)
    ensures After(c, w, e).mem.Some? ==> ClocksFit(After(c, w, e).mem.value, e.now)
  {
    VerdictIsDisciplined(c, w, e);
    VerdictIsWritten(c, w, e);
    var before := Loaded(w.mem, e.seen, e.now);
    assert before.lastActivityAt <= e.now;
    SavedClocksFit(before, Verdict(c, w, e), e.obs, e.now);
  }

  /** A spec write finds the spec it was decided on. */
  lemma LandsAsSeen(c: Config, w: Cluster, e: Event)
    requires e.Reconcile? && e.seen.policy.Some? && Legal(c, w, e) && e.outcome != Rejected
    requires Verdict(c, w, e).action in {Suspend, Resume}
    ensures w.obj.spec == e.seen.spec
  {
  }

  lemma {:induction false} RunKeepsEvidence(c: Config, w: Cluster, events: seq<Event>, t: Trace)
    requires Evidenced(w, t) && LegalRun(c, w, events) && SteadyRun(c, w, events, t)
    ensures Evidenced(Final(c, w, events), FinalTrace(c, w, events, t))
    decreases |events|
  {
    if events != [] {
      var e := events[0];
      StepKeepsNoConflict(c, w, e);
      if e.Reconcile? { TickKeepsEvidence(c, w, e, t); }
      RunKeepsEvidence(c, After(c, w, e), events[1..], Traced(c, w, e, t));
    }
  }

  /** This tick saw the offsets of the last tick that knew them, and either no tick saw them change
      within idle-after, but for less than a second, or no tick saw them change since the job was last
      put to sleep, nor since it was resumed for a refresh; and more than min-awake, but for less than a second, has
      passed since a tick last resumed or restarted the job. */
  predicate HasEvidence(e: Event, past: Trace)
    requires e.Reconcile? && Decides(e.seen)
  {
    var p := e.seen.policy.value;
    && e.obs.known && e.obs.snapshot == past.lastSeen
    && (e.now > past.changedAt + p.idleAfter - SECOND
        || (LiveOf(e.seen).ResumesFromGroup(p) && past.changedAt <= past.sleptAt && Refreshed(past)))
    && e.now > past.wokeAt + p.minAwake - SECOND
  }

  /** So it is behind every suspend decided after any steady run. */
  lemma SteadySuspendHasEvidence(c: Config, w: Cluster, events: seq<Event>, t: Trace, e: Event)
    requires Evidenced(w, t) && LegalRun(c, w, events) && SteadyRun(c, w, events, t)
    requires var end := Final(c, w, events);
      && e.Reconcile? && Legal(c, end, e) && Steady(c, end, e, FinalTrace(c, w, events, t)) && Decides(e.seen)
      && DecisionOn(c, e.seen, end.mem, e.obs, e.now).action == Suspend
    ensures HasEvidence(e, FinalTrace(c, w, events, t))
  {
    RunKeepsEvidence(c, w, events, t);
    SuspendRestsOnTrace(c, Final(c, w, events), FinalTrace(c, w, events, t), e);
  }

  lemma SuspendRestsOnTrace(c: Config, w: Cluster, t: Trace, e: Event)
    requires Evidenced(w, t) && e.Reconcile? && Legal(c, w, e) && Steady(c, w, e, t) && Decides(e.seen)
    requires DecisionOn(c, e.seen, w.mem, e.obs, e.now).action == Suspend
    ensures HasEvidence(e, t)
  {
    var before := Loaded(w.mem, e.seen, e.now);
    LoadedFits(w, e.seen, e.now, t);
    DecisionKeepsPhaseDiscipline(c, e.seen.policy.value, before, LiveOf(e.seen), e.obs, e.now);
    SuspendHasEvidence(c, e.seen.policy.value, before, LiveOf(e.seen), e.obs, e.now);
  }

  /** Nothing has been observed yet. */
  function StartOfTrace(clock: Time): Trace {
    Trace(map[], {}, clock, clock, clock, None, clock, UnixMilli(clock))
  }

  /** Where runs start: a deployment never seen before, awake. */
  lemma UnseenDeploymentIsEvidenced(o: Object, clock: Time)
    requires o.mark in {None, Some(Active)} && o.nonce <= UnixMilli(clock)
    ensures Evidenced(Cluster(o, None), StartOfTrace(clock))
  {
  }

  // ---------------------------------------------------------------- growing end offsets

  /** An earlier read of the offsets, and its snapshot. */
  ghost predicate Earlier(x: JobGate.Ends, snapshot: Snapshot, last: JobGate.Ends) {
    Snapshots.WellFormed(x) && Snapshots.Grew(x, last) && snapshot == Snapshots.SnapshotOf(x)
  }

  /** The last end offsets that were read, of which the trace holds the snapshots. */
  ghost predicate Reads(t: Trace, last: JobGate.Ends) {
    && Snapshots.WellFormed(last) && t.lastSeen == Snapshots.SnapshotOf(last)
    && forall snapshot :: snapshot in t.past ==> exists x :: Earlier(x, snapshot, last)
  }

  /** A tick that knows the offsets reads end offsets that have not shrunk since the last one did, and
      remembers them as their snapshot. */
  ghost predicate Grows(e: Event, last: JobGate.Ends) {
    Observes(e) ==>
      && Snapshots.WellFormed(e.obs.ends) && e.obs.snapshot == Snapshots.SnapshotOf(e.obs.ends)
      && Snapshots.Grew(last, e.obs.ends)
  }

  function LastRead(e: Event, last: JobGate.Ends): JobGate.Ends {
    if Observes(e) then e.obs.ends else last
  }

  ghost predicate GrowingRun(c: Config, w: Cluster, events: seq<Event>, t: Trace, last: JobGate.Ends)
    decreases |events|
  {
    events != [] ==>
      && Timely(w, events[0], t) && Grows(events[0], last) && (LosesResume(c, w, events[0]) ==> WillNotice(w, events[0].now))
      && GrowingRun(c, After(c, w, events[0]), events[1..], Traced(c, w, events[0], t), LastRead(events[0], last))
  }

  function FinalRead(events: seq<Event>, last: JobGate.Ends): JobGate.Ends {
    if events == [] then last else FinalRead(events[1..], LastRead(events[0], last))
  }

  lemma GrowthIsOrderly(w: Cluster, e: Event, t: Trace, last: JobGate.Ends)
    requires Reads(t, last) && Timely(w, e, t) && Grows(e, last)
    ensures Orderly(w, e, t)
  {
    if Observes(e) && e.obs.snapshot in t.past {
      var x :| Earlier(x, e.obs.snapshot, last);
      Snapshots.GrowingOffsetsNeverReturn(x, last, e.obs.ends);
    }
  }

  lemma ReadingGoesOn(e: Event, t: Trace, last: JobGate.Ends)
    requires Reads(t, last) && Grows(e, last)
    ensures Reads(Watched(e, t), LastRead(e, last))
  {
    var last' := LastRead(e, last);
    if Observes(e) {
      forall snapshot | snapshot in Watched(e, t).past ensures exists x :: Earlier(x, snapshot, last') {
        if snapshot in t.past {
          var x :| Earlier(x, snapshot, last);
          Snapshots.GrewIsTransitive(x, last, last');
          assert Earlier(x, snapshot, last');
        } else {
          assert Earlier(last, snapshot, last');
        }
      }
    }
  }

  lemma {:induction false} GrowingRunIsSteady(c: Config, w: Cluster, events: seq<Event>, t: Trace, last: JobGate.Ends)
    requires Reads(t, last) && GrowingRun(c, w, events, t, last)
    ensures SteadyRun(c, w, events, t) && Reads(FinalTrace(c, w, events, t), FinalRead(events, last))
    decreases |events|
  {
    if events != [] {
      GrowthIsOrderly(w, events[0], t, last);
      ReadingGoesOn(events[0], t, last);
      GrowingRunIsSteady(c, After(c, w, events[0]), events[1..], Traced(c, w, events[0], t), LastRead(events[0], last));
    }
  }

  /** The evidence behind every suspend, for end offsets that grow: from a deployment never seen
      before, through any run. */
  lemma EverySuspendHasEvidence(c: Config, o: Object, clock: Time, events: seq<Event>, e: Event)
    requires o.mark in {None, Some(Active)} && o.nonce <= UnixMilli(clock)
    requires var w, t := Cluster(o, None), StartOfTrace(clock);
      && LegalRun(c, w, events) && GrowingRun(c, w, events + [e], t, map[])
      && e.Reconcile? && Legal(c, Final(c, w, events), e) && Decides(e.seen)
      && DecisionOn(c, e.seen, Final(c, w, events).mem, e.obs, e.now).action == Suspend
    ensures HasEvidence(e, FinalTrace(c, Cluster(o, None), events, StartOfTrace(clock)))
  {
    var w, t := Cluster(o, None), StartOfTrace(clock);
    UnseenDeploymentIsEvidenced(o, clock);
    assert Snapshots.SnapshotOf(map[]) == map[];
    GrowingRunIsSteady(c, w, events + [e], t, map[]);
    SteadyRunSplits(c, w, events, e, t);
    SteadySuspendHasEvidence(c, w, events, t, e);
  }

  lemma {:induction false} SteadyRunSplits(c: Config, w: Cluster, events: seq<Event>, e: Event, t: Trace)
    requires SteadyRun(c, w, events + [e], t)
    ensures SteadyRun(c, w, events, t) && Steady(c, Final(c, w, events), e, FinalTrace(c, w, events, t))
    decreases |events|
  {
    if events != [] {
      assert (events + [e])[1..] == events[1..] + [e];
      SteadyRunSplits(c, After(c, w, events[0]), events[1..], e, Traced(c, w, events[0], t));
    }
  }
}
