/** Resumes whose save is lost: when the evidence behind later suspends survives them, and a run in
    which it does not. */
module LostSaves {
  import opened Clock
  import opened Budget
  import opened Memory
  import opened Policy
  import opened JobGate
  import opened Decider
  import opened Tick
  import opened Observing
  import opened Reconciling
  import opened Evidence
  import opened RefreshCycle
  import Snapshots

  /** A run with growing offsets, and the tick at its end that decides to suspend. */
  ghost predicate SuspendsAfter(c: Config, w: Cluster, events: seq<Event>, e: Event, t: Trace, last: Ends) {
    && LegalRun(c, w, events) && GrowingRun(c, w, events + [e], t, last)
    && e.Reconcile? && Legal(c, Final(c, w, events), e) && Decides(e.seen)
    && DecisionOn(c, e.seen, Final(c, w, events).mem, e.obs, e.now).action == Suspend
  }

  /** Every suspend of every continuation has its evidence. */
  ghost predicate Justified(c: Config, w: Cluster, t: Trace, last: Ends) {
    forall events, e :: SuspendsAfter(c, w, events, e, t, last) ==> HasEvidence(e, FinalTrace(c, w, events, t))
  }

  lemma TrueMemoryIsJustified(c: Config, w: Cluster, t: Trace, last: Ends)
    requires Evidenced(w, t) && Reads(t, last)
    ensures Justified(c, w, t, last)
  {
    forall events, e | SuspendsAfter(c, w, events, e, t, last)
      ensures HasEvidence(e, FinalTrace(c, w, events, t))
    {
      GrowingRunIsSteady(c, w, events + [e], t, last);
      SteadyRunSplits(c, w, events, e, t);
      SteadySuspendHasEvidence(c, w, events, t, e);
    }
  }

  // ---------------------------------------------------------------- a suspend too soon

  /** No restarts, an idle window of one nanosecond, and a minimum time awake. */
  function Hasty(minAwake: Duration): Policy {
    Policy(Auto, ["orders"], 1, minAwake, false, "", false, false, 0, [])
  }

  function Healthy(o: Object, p: Policy): Object {
    o.(policy := Some(p), lifecycle := Stable, job := JobRunning, upgradeMode := Savepoint, error := "")
  }

  /** The first tick after the resume: it is held by the minimum time awake, and saved. */
  lemma FirstTickIsHeld(c: Config, m: State, o: Object, p: Policy, obs: Observation, now: Time)
    requires m.phase == Active && o.spec != Stopped && o.mark in {None, Some(Active)} && o.nonce <= m.restarts.lastNonce
    requires p == Hasty(p.minAwake) && Decides(Healthy(o, p)) && obs.known && now <= m.awakeSince + p.minAwake
    ensures var plan := PlanOf(c, Healthy(o, p), Some(m), obs, now);
      && plan.patch == None && plan.memory.Save?
      && var next := plan.memory.state;
         && next.phase == Active && next.snapshot == obs.snapshot && next.awakeSince == m.awakeSince && next.restarts == m.restarts
         && next.lastActivityAt in {m.lastActivityAt, now}
  {
    var live := LiveOf(Healthy(o, p));
    assert Loaded(Some(m), Healthy(o, p), now) == m;
    var cur := Tallied(c, Absorbed(AfterSpecEdit(m, live, now), obs, now), live, now);
    assert DecisionOn(c, Healthy(o, p), Some(m), obs, now) == Decision(Nothing, cur);
  }

  /** The second one suspends. */
  lemma SecondTickSuspends(c: Config, m: State, o: Object, p: Policy, obs: Observation, now: Time)
    requires m.phase == Active && o.spec != Stopped && o.mark in {None, Some(Active)} && o.nonce <= m.restarts.lastNonce
    requires p == Hasty(p.minAwake) && p.minAwake >= 0 && obs.known && obs.snapshot == m.snapshot
    requires now > m.awakeSince + p.minAwake && now > m.lastActivityAt + 1
    ensures DecisionOn(c, Healthy(o, p), Some(m), obs, now).action == Suspend
  {
    assert Loaded(Some(m), Healthy(o, p), now) == m;
    SuspendsExactlyWhen(c, p, m, LiveOf(Healthy(o, p)), obs, now);
  }

  function SameEnds(last: Ends): Observation { KnownEnds(if last == map[] then Orders(0) else last) }

  lemma SameEndsGrow(last: Ends)
    requires Snapshots.WellFormed(last)
    ensures var obs := SameEnds(last);
      && obs.known && Observed(obs) && Snapshots.Grew(last, obs.ends) && Snapshots.Grew(obs.ends, obs.ends)
      && Snapshots.WellFormed(obs.ends) && obs.snapshot == Snapshots.SnapshotOf(obs.ends)
  {
    SeeingIsObserved(0);
  }

  /** Awake at an instant that memory does not know of: it takes an older awakening for the last. */
  ghost predicate Forgotten(w: Cluster, t: Trace) {
    && w.mem.Some? && w.mem.value.phase == Active && ClocksFit(w.mem.value, t.clock)
    && w.obj.spec != Stopped && w.obj.mark in {None, Some(Active)} && w.obj.nonce <= w.mem.value.restarts.lastNonce
    && t.wokeAt == t.clock && t.clock > w.mem.value.awakeSince + SECOND && t.millis == UnixMilli(t.clock)
  }

  /** The minimum time awake that has passed, by memory, a millisecond after the first tick. */
  function TooLong(w: Cluster, t: Trace): Policy
    requires w.mem.Some?
  {
    Hasty(t.clock + 2 * MILLISECOND - w.mem.value.awakeSince - 1)
  }

  function HastyTick(w: Cluster, t: Trace, last: Ends, i: nat): Event
    requires w.mem.Some?
  {
    Reconcile(Healthy(w.obj, TooLong(w, t)), t.clock + i * MILLISECOND, SameEnds(last), Saved)
  }

  lemma HastyTickIsTimely(w: Cluster, t: Trace, last: Ends)
    requires Forgotten(w, t)
    ensures UnixMilli(t.clock) < UnixMilli(t.clock + MILLISECOND) < UnixMilli(t.clock + 2 * MILLISECOND)
    ensures Sound(TooLong(w, t)) && Decides(Healthy(w.obj, TooLong(w, t)))
  {
  }

  /** A tick that patches nothing and is saved. */
  lemma UnpatchedTick(c: Config, w: Cluster, e: Event, t: Trace)
    requires e.Reconcile? && e.seen == w.obj && SoundPolicy(w.obj) && e.outcome == Saved
    requires PlanAt(c, w, e).patch == None && PlanAt(c, w, e).memory.Save?
    ensures Legal(c, w, e) && After(c, w, e) == Cluster(w.obj, Some(Persisted(PlanAt(c, w, e).memory.state)))
    ensures var t' := Traced(c, w, e, t); t'.wokeAt == t.wokeAt && t'.clock == e.now && t'.millis == UnixMilli(e.now)
  {
  }

  /** Where the first tick leaves memory. */
  ghost predicate Held(m: State, m': State, obs: Observation, now: Time) {
    && m'.phase == Active && m'.snapshot == obs.snapshot && m'.awakeSince == m.awakeSince && m'.restarts == m.restarts
    && m'.lastActivityAt <= now
  }

  lemma FirstHastyTick(c: Config, w: Cluster, t: Trace, last: Ends)
    requires Forgotten(w, t) && Snapshots.WellFormed(last)
    ensures var w1, e := w.(obj := Healthy(w.obj, TooLong(w, t))), HastyTick(w, t, last, 1);
      && Legal(c, w1, e) && After(c, w1, e).obj == w1.obj
      && After(c, w1, e).mem.Some? && Held(w.mem.value, After(c, w1, e).mem.value, e.obs, e.now)
      && var t' := Traced(c, w1, e, t); t'.wokeAt == t.wokeAt && t'.clock == e.now && t'.millis == UnixMilli(e.now)
  {
    var w1, e := w.(obj := Healthy(w.obj, TooLong(w, t))), HastyTick(w, t, last, 1);
    HastyTickIsTimely(w, t, last);
    SameEndsGrow(last);
    FirstTickIsHeld(c, w.mem.value, w.obj, TooLong(w, t), e.obs, e.now);
    UnpatchedTick(c, w1, e, t);
    PersistedIsHeld(w.mem.value, PlanAt(c, w1, e).memory.state, e.obs, e.now, t.clock);
  }

  lemma PersistedIsHeld(m: State, next: State, obs: Observation, now: Time, clock: Time)
    requires ClocksFit(m, clock) && clock <= now
    requires next.phase == Active && next.snapshot == obs.snapshot && next.awakeSince == m.awakeSince && next.restarts == m.restarts
    requires next.lastActivityAt in {m.lastActivityAt, now}
    ensures Held(m, Persisted(next), obs, now)
  {
  }

  /** A tick that suspends, after nothing, and after one event more. */
  lemma SuspendsAtOnce(c: Config, w: Cluster, e: Event, t: Trace, last: Ends)
    requires e.Reconcile? && e.outcome == Saved && Legal(c, w, e) && Timely(w, e, t) && Grows(e, last)
    requires Decides(e.seen) && DecisionOn(c, e.seen, w.mem, e.obs, e.now).action == Suspend
    ensures SuspendsAfter(c, w, [], e, t, last) && FinalTrace(c, w, [], t) == t
  {
    assert [] + [e] == [e] && [e][1..] == [];
  }

  lemma SuspendsLater(c: Config, w: Cluster, w': Cluster, first: Event, rest: seq<Event>, e: Event, t: Trace, t': Trace, last: Ends, last': Ends)
    requires Legal(c, w, first) && After(c, w, first) == w' && Traced(c, w, first, t) == t' && LastRead(first, last) == last'
    requires Timely(w, first, t) && Grows(first, last) && !LosesResume(c, w, first)
    requires SuspendsAfter(c, w', rest, e, t', last')
    ensures SuspendsAfter(c, w, [first] + rest, e, t, last) && FinalTrace(c, w, [first] + rest, t) == FinalTrace(c, w', rest, t')
  {
    assert ([first] + rest)[1..] == rest && (([first] + rest) + [e])[1..] == rest + [e];
  }

  lemma SecondHastyTick(c: Config, w: Cluster, t: Trace, last: Ends, m: State, t': Trace)
    requires Forgotten(w, t) && Snapshots.WellFormed(last)
    requires var e1 := HastyTick(w, t, last, 1);
      && Held(w.mem.value, m, e1.obs, e1.now)
      && t'.wokeAt == t.wokeAt && t'.clock == e1.now && t'.millis == UnixMilli(e1.now)
    ensures var w', e := Cluster(Healthy(w.obj, TooLong(w, t)), Some(m)), HastyTick(w, t, last, 2);
      && SuspendsAfter(c, w', [], e, t', SameEnds(last).ends) && FinalTrace(c, w', [], t') == t' && !HasEvidence(e, t')
  {
    var w', e := Cluster(Healthy(w.obj, TooLong(w, t)), Some(m)), HastyTick(w, t, last, 2);
    HastyTickIsTimely(w, t, last);
    SameEndsGrow(last);
    SecondTickSuspends(c, m, w.obj, TooLong(w, t), e.obs, e.now);
    SuspendsAtOnce(c, w', e, t', SameEnds(last).ends);
  }

  lemma HastyRunSuspends(c: Config, w: Cluster, t: Trace, last: Ends) returns (events: seq<Event>, e: Event)
    requires Forgotten(w, t) && Snapshots.WellFormed(last)
    ensures SuspendsAfter(c, w, events, e, t, last) && !HasEvidence(e, FinalTrace(c, w, events, t))
  {
    var o, e1 := Healthy(w.obj, TooLong(w, t)), HastyTick(w, t, last, 1);
    e := HastyTick(w, t, last, 2);
    FirstHastyTick(c, w, t, last);
    HastyTickIsTimely(w, t, last);
    SameEndsGrow(last);
    var w1 := w.(obj := o);
    var w2, t2 := After(c, w1, e1), Traced(c, w1, e1, t);
    SecondHastyTick(c, w, t, last, w2.mem.value, t2);
    SuspendsLater(c, w1, w2, e1, [], e, t, t2, last, e1.obs.ends);
    SuspendsLater(c, w, w1, Others(o), [e1] + [], e, t, t, last, last);
    events := [Others(o)] + ([e1] + []);
  }

  /** The exact condition on lost resumes: with all else in order, every later suspend has its evidence
      if and only if memory will notice the resume. */
  lemma LostResumeIsJustifiedExactlyWhen(c: Config, w: Cluster, e: Event, t: Trace, last: Ends)
    requires Evidenced(w, t) && Reads(t, last) && Legal(c, w, e) && Timely(w, e, t) && Grows(e, last) && LosesResume(c, w, e)
    ensures Justified(c, After(c, w, e), Traced(c, w, e, t), LastRead(e, last)) <==> WillNotice(w, e.now)
  {
    var w', t', last' := After(c, w, e), Traced(c, w, e, t), LastRead(e, last);
    ReadingGoesOn(e, t, last);
    if WillNotice(w, e.now) {
      GrowthIsOrderly(w, e, t, last);
      TickKeepsEvidence(c, w, e, t);
      TrueMemoryIsJustified(c, w', t', last');
    } else {
      LostResumeIsForgotten(c, w, e, t);
      var events, suspend := HastyRunSuspends(c, w', t', last');
    }
  }

  lemma LostResumeIsForgotten(c: Config, w: Cluster, e: Event, t: Trace)
    requires Evidenced(w, t) && Legal(c, w, e) && Timely(w, e, t) && LosesResume(c, w, e) && !WillNotice(w, e.now)
    ensures Forgotten(After(c, w, e), Traced(c, w, e, t))
  {
    if e.seen.policy.Some? {
      VerdictIsDisciplined(c, w, e);
      VerdictIsWritten(c, w, e);
      ResumeMarks(c, w, e);
    }
  }

  lemma ResumeMarks(c: Config, w: Cluster, e: Event)
    requires e.Reconcile? && e.seen.policy.Some? && Legal(c, w, e) && LosesResume(c, w, e)
    ensures After(c, w, e).obj.mark == Some(Active) && After(c, w, e).obj.nonce == w.obj.nonce
  {
    VerdictIsDisciplined(c, w, e);
  }

  // ---------------------------------------------------------------- two lost saves

  const T := 63_000_000_000 * SECOND

  const CONFIG := Config(3, HOUR, 60 * SECOND, HOUR, [], 60 * SECOND)

  const POLICY := Policy(Auto, ["orders"], 10 * SECOND, HOUR, false, "", false, false, 0, [])

  const AWAKE := Object(Running, Some(Active), FirstObservation, 0, 1, Stable, JobRunning, Savepoint, false, "", Some(POLICY), false)

  const ASKED_TO_SLEEP :=
    AWAKE.(spec := Stopped, mark := Some(Suspended), reason := NoInputFor(10 * SECOND), generation := 2, suspending := true)

  const ASLEEP := ASKED_TO_SLEEP.(lifecycle := SuspendedByOperator, job := OtherJobState("FINISHED"), suspending := false)

  const ASKED_TO_WAKE := ASLEEP.(spec := Running, mark := Some(Active), reason := InputObserved, generation := 3)

  const RUNNING_AGAIN := ASKED_TO_WAKE.(lifecycle := Stable, job := JobRunning)

  const MEMORY := State(Active, Seeing(5).snapshot, T, 0, T, Fresh(0), FirstObservation, 1, 0, 0, false, 0)

  const SEEN_INPUT := MEMORY.(snapshot := Seeing(6).snapshot, lastActivityAt := T + 3701 * SECOND, generation := 3)

  /** Both the save of a suspend and the save of the resume after it are lost. */
  const RUN := [
    Reconcile(AWAKE, T + 3601 * SECOND, Seeing(5), SaveLost),
    Others(ASLEEP),
    Reconcile(ASLEEP, T + 3700 * SECOND, Seeing(6), SaveLost),
    Others(RUNNING_AGAIN),
    Reconcile(RUNNING_AGAIN, T + 3701 * SECOND, Seeing(6), Saved)]

  /** The tick that suspends, twelve seconds after the resume. */
  const TOO_SOON := Reconcile(RUNNING_AGAIN, T + 3712 * SECOND, Seeing(6), Saved)

  function StateAt(i: nat): Cluster {
    if i == 0 then Cluster(AWAKE, Some(MEMORY)) else if i == 1 then Cluster(ASKED_TO_SLEEP, Some(MEMORY))
    else if i == 2 then Cluster(ASLEEP, Some(MEMORY)) else if i == 3 then Cluster(ASKED_TO_WAKE, Some(MEMORY))
    else if i == 4 then Cluster(RUNNING_AGAIN, Some(MEMORY)) else Cluster(RUNNING_AGAIN, Some(SEEN_INPUT))
  }

  function TraceAt(i: nat): Trace {
    var five, six := Seeing(5).snapshot, Seeing(6).snapshot;
    if i == 0 then Trace(five, {map[]}, T, T, T, None, T, UnixMilli(T))
    else if i <= 2 then Trace(five, {map[]}, T, T + 3601 * SECOND, T, None, T + 3601 * SECOND, UnixMilli(T + 3601 * SECOND))
    else
      var now := if i <= 4 then T + 3700 * SECOND else T + 3701 * SECOND;
      Trace(six, {map[], five}, T + 3700 * SECOND, T + 3601 * SECOND, T + 3700 * SECOND, None, now, UnixMilli(now))
  }

  function EndsAt(i: nat): Ends { if i <= 2 then Orders(5) else Orders(6) }

  lemma OffsetsDiffer()
    ensures Seeing(5).snapshot != Seeing(6).snapshot && Seeing(5).snapshot != map[] && Seeing(6).snapshot != map[]
  {
    SeeingTellsApart(5, 6);
    assert "orders" in Seeing(5).snapshot && "orders" in Seeing(6).snapshot;
  }

  lemma FirstSuspend()
    ensures PlanOf(CONFIG, AWAKE, Some(MEMORY), Seeing(5), T + 3601 * SECOND).patch
         == Some(Patch(Some(Suspended), NoInputFor(10 * SECOND), Some(Stopped), None))
  {
  }

  lemma ResumesOnInput()
    ensures PlanOf(CONFIG, ASLEEP, Some(MEMORY), Seeing(6), T + 3700 * SECOND).patch
         == Some(Patch(Some(Active), InputObserved, Some(Running), None))
  {
    OffsetsDiffer();
    var before := Loaded(Some(MEMORY), ASLEEP, T + 3700 * SECOND);
    assert before.phase == Suspended && before.snapshot == Seeing(5).snapshot;
  }

  lemma TakesInputIn()
    ensures WhileActive(CONFIG, POLICY, MEMORY.(generation := 3), LiveOf(RUNNING_AGAIN), Seeing(6), T + 3701 * SECOND)
         == Decision(Nothing, SEEN_INPUT)
  {
    OffsetsDiffer();
    assert !IdleLongEnough(POLICY, SEEN_INPUT, LiveOf(RUNNING_AGAIN), T + 3701 * SECOND);
  }

  lemma SeesInput()
    ensures PlanOf(CONFIG, RUNNING_AGAIN, Some(MEMORY), Seeing(6), T + 3701 * SECOND) == Plan(None, Save(SEEN_INPUT))
    ensures Persisted(SEEN_INPUT) == SEEN_INPUT
  {
    TakesInputIn();
    assert Loaded(Some(MEMORY), RUNNING_AGAIN, T + 3701 * SECOND) == MEMORY;
    assert DecisionOn(CONFIG, RUNNING_AGAIN, Some(MEMORY), Seeing(6), T + 3701 * SECOND) == Decision(Nothing, SEEN_INPUT);
  }

  lemma SuspendLeads()
    ensures Leads(CONFIG, StateAt, RUN, 0)
  {
    FirstSuspend();
  }

  lemma ResumeLeads()
    ensures Leads(CONFIG, StateAt, RUN, 2)
  {
    ResumesOnInput();
  }

  lemma InputLeads()
    ensures Leads(CONFIG, StateAt, RUN, 4)
  {
    var w, e := Cluster(RUNNING_AGAIN, Some(MEMORY)), Reconcile(RUNNING_AGAIN, T + 3701 * SECOND, Seeing(6), Saved);
    SeesInput();
    UnpatchedTick(CONFIG, w, e, TraceAt(4));
    assert StateAt(4) == w && RUN[4] == e;
  }

  lemma OperatorLeads(i: nat)
    requires i in {1, 3}
    ensures Leads(CONFIG, StateAt, RUN, i)
  {
  }

  lemma EachEventLeads(i: nat)
    requires i < 5
    ensures Leads(CONFIG, StateAt, RUN, i)
  {
    if i == 0 { SuspendLeads(); } else if i == 2 { ResumeLeads(); } else if i == 4 { InputLeads(); } else { OperatorLeads(i); }
  }

  /** Each event is timely and sees offsets grow. */
  lemma EachEventIsTimely(i: nat)
    requires i < 5
    ensures Timely(StateAt(i), RUN[i], TraceAt(i)) && Grows(RUN[i], EndsAt(i)) && LastRead(RUN[i], EndsAt(i)) == EndsAt(i + 1)
  {
    SeeingIsObserved(5);
    SeeingIsObserved(6);
    SeeingGrows(5, 6);
  }

  /** Each event is traced: the job was really resumed at T + 3700 s. */
  lemma EachEventIsTraced(i: nat)
    requires i < 5
    ensures RUN[i].Reconcile? ==> TracedBetween(StateAt(i), StateAt(i + 1), RUN[i], TraceAt(i)) == TraceAt(i + 1)
    ensures RUN[i].Others? ==> TraceAt(i + 1) == TraceAt(i)
  {
    OffsetsDiffer();
    if i == 0 {
    } else if i == 2 {
      assert {map[]} + {Seeing(5).snapshot} == {map[], Seeing(5).snapshot};
    } else if i == 4 {
    }
  }

  lemma StartIsTrue()
    ensures Evidenced(StateAt(0), TraceAt(0)) && Reads(TraceAt(0), EndsAt(0))
  {
    OffsetsDiffer();
    SeeingIsObserved(5);
    assert Snapshots.SnapshotOf(map[]) == map[];
    assert Earlier(map[], map[], Orders(5));
  }

  lemma SuspendsTooSoon()
    ensures DecisionOn(CONFIG, RUNNING_AGAIN, Some(SEEN_INPUT), Seeing(6), T + 3712 * SECOND).action == Suspend
  {
    SuspendsExactlyWhen(CONFIG, POLICY, SEEN_INPUT, LiveOf(RUNNING_AGAIN), Seeing(6), T + 3712 * SECOND);
    assert Loaded(Some(SEEN_INPUT), RUNNING_AGAIN, T + 3712 * SECOND) == SEEN_INPUT;
  }

  lemma HasNoEvidence()
    ensures Decides(TOO_SOON.seen) && !HasEvidence(TOO_SOON, TraceAt(5))
  {
  }

  lemma RunIsLegal()
    ensures LegalRun(CONFIG, StateAt(0), RUN) && Final(CONFIG, StateAt(0), RUN) == StateAt(5)
  {
    forall i: nat | i < 5 ensures Leads(CONFIG, StateAt, RUN, i) { EachEventLeads(i); }
    RunThrough(CONFIG, StateAt, RUN, 0);
    assert RUN[0..] == RUN;
  }

  lemma EachEventTraces(i: nat)
    requires i < 5
    ensures Traces(CONFIG, StateAt, TraceAt, RUN, i)
  {
    EachEventLeads(i);
    EachEventIsTraced(i);
  }

  lemma RunIsTraced()
    ensures FinalTrace(CONFIG, StateAt(0), RUN, TraceAt(0)) == TraceAt(5)
  {
    forall i: nat | i < 5 ensures Traces(CONFIG, StateAt, TraceAt, RUN, i) { EachEventTraces(i); }
    TracedThrough(CONFIG, StateAt, TraceAt, RUN, 0);
    assert RUN[0..] == RUN;
  }

  /** The run keeps every condition of EverySuspendHasEvidence, from a state that is true to its trace,
      but for the one on lost resumes (OnlyTheResumeIsForgotten). It ends with a suspend twelve seconds
      after a resume, of a job with a minimum time awake of an hour. */
  lemma TwoLostSavesForgetAnAwakening()
    ensures LegalRun(CONFIG, StateAt(0), RUN) && Final(CONFIG, StateAt(0), RUN) == StateAt(5)
    ensures FinalTrace(CONFIG, StateAt(0), RUN, TraceAt(0)) == TraceAt(5)
    ensures DecisionOn(CONFIG, RUNNING_AGAIN, Some(SEEN_INPUT), Seeing(6), T + 3712 * SECOND).action == Suspend
    ensures StateAt(5).mem == Some(SEEN_INPUT) && TOO_SOON == Reconcile(RUNNING_AGAIN, T + 3712 * SECOND, Seeing(6), Saved)
    ensures Decides(TOO_SOON.seen) && !HasEvidence(TOO_SOON, TraceAt(5))
  {
    RunIsLegal();
    RunIsTraced();
    SuspendsTooSoon();
    HasNoEvidence();
  }

  ghost predicate Traces(c: Config, state: nat -> Cluster, trace: nat -> Trace, events: seq<Event>, i: nat)
    requires i < |events|
  {
    After(c, state(i), events[i]) == state(i + 1) && Traced(c, state(i), events[i], trace(i)) == trace(i + 1)
  }

  lemma {:induction false} TracedThrough(c: Config, state: nat -> Cluster, trace: nat -> Trace, events: seq<Event>, n: nat)
    requires n <= |events| && forall i: nat :: i < |events| ==> Traces(c, state, trace, events, i)
    ensures FinalTrace(c, state(n), events[n..], trace(n)) == trace(|events|)
    decreases |events| - n
  {
    if n < |events| {
      assert Traces(c, state, trace, events, n) && events[n..][1..] == events[n + 1..];
      TracedThrough(c, state, trace, events, n + 1);
    }
  }

  lemma OnlyTheResumeIsForgotten(i: nat)
    requires i < 5
    ensures LosesResume(CONFIG, StateAt(i), RUN[i]) <==> i == 2
    ensures !WillNotice(StateAt(2), T + 3700 * SECOND)
  {
    EachEventLeads(i);
  }
}
