/** Why the conditions of RestartLedger are needed: what a tick does without each, and runs in which
    restarts go uncounted or exceed the maximum. */
module RestartRuns {
  import opened Clock
  import opened Budget
  import opened Memory
  import opened Policy
  import opened Decider
  import opened Tick
  import opened Observing
  import opened Reconciling
  import opened RestartLedger

  /** An awake job that has failed, and whose restart nothing but the budget decides. */
  predicate PlainFailure(c: Config, m: State, seen: Object) {
    && m.phase == Active && seen.mark == Some(Active)
    && Decides(seen) && seen.policy.value.restart && !seen.operatorRestarts
    && seen.spec != Stopped && seen.lifecycle == FailedLifecycle && seen.job == JobFailed
    && seen.error == ""
  }

  /** Without a backoff, a tick that counts a lost restart may issue the next one: if its save is
      lost too, memory is two restarts behind. */
  lemma NoBackoffCanMissTwo(c: Config, m: State, seen: Object, obs: Observation, now: Time)
    requires c.baseBackoff == 0 && c.window >= 0 && now > 0
    requires PlainFailure(c, m, seen) && obs.known
    requires seen.nonce > m.restarts.lastNonce && UnixMilli(now) > seen.nonce
    requires Rolled(m.restarts, now, c.window).count + 1 < c.maxRestarts
    ensures var w := Cluster(seen, Some(m));
      var e := Reconcile(seen, now, obs, SaveLost);
      var w' := After(c, w, e);
      w'.mem == w.mem && w'.obj.nonce > w.obj.nonce > m.restarts.lastNonce
  {
    var live := LiveOf(seen);
    var cur := Tallied(c, Absorbed(AfterSpecEdit(m, live, now), obs, now), live, now);
    var b := Consume(m.restarts, now, c.window, 0);
    BackoffIsPower(0, Rolled(m.restarts, now, c.window).count);
    assert cur.restarts == b.(lastNonce := seen.nonce);
    assert DecisionOn(c, seen, Some(m), obs, now) == OnFailing(c, cur, live, now);
  }

  /** A restart whose save was lost is charged to the budget that memory still holds. It stays
      within the maximum exactly when that budget is not exhausted: a tick that had emptied the
      budget before restarting leaves one that is. */
  lemma LostRestartChargesOldBudget(c: Config, m: State, seen: Object, obs: Observation, now: Time)
    requires Configured(c) && now > 0 && PlainFailure(c, m, seen) && obs.known
    requires seen.nonce > m.restarts.lastNonce
    ensures DecisionOn(c, seen, Some(m), obs, now).next.restarts.count <= c.maxRestarts
       <==> !Exhausted(m.restarts, now, c.maxRestarts, c.window)
  {
    var live := LiveOf(seen);
    var cur := Tallied(c, Absorbed(AfterSpecEdit(m, live, now), obs, now), live, now);
    ConsumedIsInBackoff(m.restarts, now, c.window, c.baseBackoff);
    assert cur.restarts == Consume(m.restarts, now, c.window, c.baseBackoff).(lastNonce := seen.nonce);
    assert DecisionOn(c, seen, Some(m), obs, now) == OnFailing(c, cur, live, now);
  }

  // ---------------------------------------------------------------- a restart that is lost

  /** Every continuation keeps the books as they should be. */
  ghost predicate StaysConserved(c: Config, w: Cluster, b: Books) {
    forall events :: LegalRun(c, w, events) && OrderlyRun(c, w, events, b) && Credible(events, b.clock)
      ==> Conserved(c, Final(c, w, events), FinalBooks(c, w, events, b))
  }

  lemma BalancedStaysConserved(c: Config, w: Cluster, b: Books)
    requires Configured(c) && Balanced(c, w, b) && b.millis == UnixMilli(b.clock)
    ensures StaysConserved(c, w, b)
  {
    forall events | LegalRun(c, w, events) && OrderlyRun(c, w, events, b)
      ensures Conserved(c, Final(c, w, events), FinalBooks(c, w, events, b))
    {
      RunKeepsBalance(c, w, events, b);
      BalancedIsConserved(c, Final(c, w, events), FinalBooks(c, w, events, b));
    }
  }

  const CALM := Policy(Auto, ["orders"], HOUR, 0, false, "", false, false, 0, [])

  /** The job once it runs again, under a policy that does not restart it. */
  function Calmed(o: Object): Object {
    o.(policy := Some(CALM), lifecycle := Stable, job := JobRunning, error := "")
  }

  lemma CalmTickCounts(c: Config, before: State, live: Live, obs: Observation, now: Time)
    requires before.phase == Active && !live.stopped && live.Settled() && live.error == "" && obs.known
    requires live.nonce > before.restarts.lastNonce
    ensures var d := Decide(c, CALM, before, live, obs, now);
      && d.action == Nothing && d.next.phase == Active && d.next.reason == before.reason
      && d.next.restarts == Consume(before.restarts, now, c.window, c.baseBackoff).(lastNonce := live.nonce)
  {
    var cur := Tallied(c, Absorbed(AfterSpecEdit(before, live, now), obs, now), live, now);
    assert Decide(c, CALM, before, live, obs, now) == Judged(c, CALM, cur, live, obs, now);
    assert cur.awakeSince == now;
  }

  /** The next tick of an awake job counts the restart on memory's budget, and writes nothing else. */
  lemma CountingTick(c: Config, m: State, o: Object, now: Time)
    requires m.phase != Unrecoverable && o.mark == Some(Active) && o.spec != Stopped && o.nonce > m.restarts.lastNonce
    ensures var w, e := Cluster(Calmed(o), Some(m)), Reconcile(Calmed(o), now, Seeing(0), Saved);
      var w' := After(c, w, e);
      && Legal(c, w, e) && w'.obj == w.obj && w'.mem.Some? && w'.mem.value.phase == Active
      && w'.mem.value.restarts == Consume(m.restarts, now, c.window, c.baseBackoff).(lastNonce := o.nonce)
  {
    var before := Loaded(Some(m), Calmed(o), now);
    assert before.phase == Active && before.restarts == m.restarts;
    CalmTickCounts(c, before, LiveOf(Calmed(o)), Seeing(0), now);
  }

  /** What a lost restart leaves. */
  lemma LostRestartLeaves(c: Config, w: Cluster, e: Event, b: Books)
    requires Configured(c) && Balanced(c, w, b) && Legal(c, w, e) && Timely(w, e, b.clock) && LosesRestart(c, w, e)
    requires b.millis == UnixMilli(b.clock)
    ensures var w' := After(c, w, e);
      && c.maxRestarts > 0 && w'.mem == w.mem && w'.obj.mark == Some(Active) && w'.obj.spec != Stopped
      && w'.obj.nonce == UnixMilli(e.now) > BudgetOf(w).lastNonce && |b.issued| == |b.counted|
      && Booked(c, w, e, b) == Books(b.issued + [Issue(w'.obj.nonce, e.now)], b.counted, e.now, UnixMilli(e.now))
  {
    TickMovesBudget(c, w, e, b.clock);
    VerdictIsDisciplined(c, w, e);
    VerdictIsWritten(c, w, e);
    RestartLands(c, w, e);
  }

  lemma RestartLands(c: Config, w: Cluster, e: Event)
    requires e.Reconcile? && e.seen.policy.Some? && Legal(c, w, e) && LosesRestart(c, w, e)
    ensures After(c, w, e).obj.mark == Some(Active) && After(c, w, e).obj.spec != Stopped
  {
    VerdictIsDisciplined(c, w, e);
    assert Verdict(c, w, e).action == Restart by { VerdictIsWritten(c, w, e); }
  }

  /** An entry without room breaks the books: its window is charged too much, or too fast. */
  lemma NoRoomIsNotConserved(c: Config, w: Cluster, b: Books, r: RestartBudget, at: Time, now: Time, nonce: int, issued: seq<Issue>, clock: Time)
    requires BudgetFits(c, b.counted, r) && AllFit(c, b.counted, b.clock) && c.maxRestarts > 0
    requires !HasRoom(c, b.counted, r, at, now)
    ensures var r' := Consume(r, now, c.window, c.baseBackoff);
      !Conserved(c, w, Books(issued, b.counted + [Entry(nonce, at, r'.windowStart, r'.count)], clock, UnixMilli(clock)))
  {
    var n := Rolled(r, now, c.window).count;
    assert n > 0 && Rolled(r, now, c.window) == r;
    LastOfWindow(c, b.counted, r, b.clock);
    var more := b.counted + [Entry(nonce, at, r.windowStart, n + 1)];
    if n >= c.maxRestarts {
      forall i | 0 <= i < |b.counted| ensures EntryFits(c, b.counted, i) { assert FitsBy(c, b.counted, i, b.clock); }
      RankIsCount(c, b.counted, r.windowStart);
      assert more[..|more| - 1] == b.counted;
      assert InWindow(more, r.windowStart) == n + 1;
    } else {
      assert more[|b.counted| - n] == b.counted[|b.counted| - n];
      assert !Spread(c, more, |b.counted|);
    }
  }

  /** The state after the job has recovered from a lost restart, and after the tick that counts it. */
  lemma LostRestartIsCountedLater(c: Config, w': Cluster, m: State, b': Books, at: Time)
    requires w'.mem == Some(m) && m.phase != Unrecoverable && w'.obj.mark == Some(Active) && w'.obj.spec != Stopped
    requires w'.obj.nonce > m.restarts.lastNonce && at > 0
    requires |b'.issued| == |b'.counted| + 1 && b'.clock == at && b'.issued[|b'.counted|] == Issue(w'.obj.nonce, at)
    ensures var o := Calmed(w'.obj);
      var events := [Others(o), Reconcile(o, NextTick(at), Seeing(0), Saved)];
      var r := Consume(m.restarts, NextTick(at), c.window, c.baseBackoff);
      && LegalRun(c, w', events) && OrderlyRun(c, w', events, b') && Credible(events, at)
      && FinalBooks(c, w', events, b') == Books(b'.issued, b'.counted + [Entry(w'.obj.nonce, at, r.windowStart, r.count)], NextTick(at), UnixMilli(NextTick(at)))
  {
    var o, now := Calmed(w'.obj), NextTick(at);
    var tick := Reconcile(o, now, Seeing(0), Saved);
    var events := [Others(o), tick];
    SeeingIsObserved(0);
    CountingTick(c, m, w'.obj, now);
    var w1 := Cluster(o, Some(m));
    assert events[1..] == [tick] && [tick][1..] == [];
    assert After(c, w', events[0]) == w1;
    var w2 := After(c, w1, tick);
    assert OrderlyRun(c, w1, [tick], b') && LegalRun(c, w1, [tick]);
    assert FinalBooks(c, w1, [tick], b') == Booked(c, w1, tick, b');
  }

  /** The exact condition on lost restarts: with all else in order, the books stay conserved whatever
      follows if and only if there is a memory to count the restart and it will find room. */
  lemma LostRestartIsConservedExactlyWhen(c: Config, w: Cluster, e: Event, b: Books)
    requires Configured(c) && Balanced(c, w, b) && Legal(c, w, e) && Timely(w, e, b.clock) && LosesRestart(c, w, e)
    requires b.millis == UnixMilli(b.clock)
    ensures StaysConserved(c, After(c, w, e), Booked(c, w, e, b)) <==> WillCount(c, w, b, e.now)
  {
    var w', b' := After(c, w, e), Booked(c, w, e, b);
    LostRestartLeaves(c, w, e, b);
    if WillCount(c, w, b, e.now) {
      TickKeepsBalance(c, w, e, b);
      BalancedStaysConserved(c, w', b');
    } else if w.mem.None? {
      assert LegalRun(c, w', []) && !Conserved(c, Final(c, w', []), FinalBooks(c, w', [], b'));
    } else {
      RoomlessIsNotConserved(c, w, e, b);
    }
  }

  lemma RoomlessIsNotConserved(c: Config, w: Cluster, e: Event, b: Books)
    requires Configured(c) && Balanced(c, w, b) && Legal(c, w, e) && Timely(w, e, b.clock) && LosesRestart(c, w, e)
    requires b.millis == UnixMilli(b.clock) && w.mem.Some? && !WillCount(c, w, b, e.now)
    ensures !StaysConserved(c, After(c, w, e), Booked(c, w, e, b))
  {
    var w', b', m := After(c, w, e), Booked(c, w, e, b), w.mem.value;
    LostRestartLeaves(c, w, e, b);
    EmptyHasRoom(c, b.counted, m.restarts.lastNonce, e.now, NextTick(e.now));
    LostRestartIsCountedLater(c, w', m, b', e.now);
    var o := Calmed(w'.obj);
    var events := [Others(o), Reconcile(o, NextTick(e.now), Seeing(0), Saved)];
    NoRoomIsNotConserved(c, Final(c, w', events), b, m.restarts, e.now, NextTick(e.now), w'.obj.nonce, b'.issued, NextTick(e.now));
  }

  // ---------------------------------------------------------------- a mark that memory missed

  /** Whatever the policy and the observation, a tick at this instant leaves the job unrecoverable. */
  ghost predicate MarkSurvives(c: Config, seen: Object, m: State, now: Time) {
    forall p: Policy, obs: Observation | Sound(p) && p.problems == [] && Observed(obs) ::
      DecisionOn(c, seen.(policy := Some(p)), Some(m), obs, now).next.phase == Unrecoverable
  }

  /** An unrecoverable mark on the object whose save was lost survives a tick at any instant, unless the
      operator is busy, if and only if memory's generation is not behind. */
  lemma LostMarkSurvivesExactlyWhen(c: Config, seen: Object, m: State, now: Time)
    requires seen.mark == Some(Unrecoverable) && !LiveOf(seen).OperatorBusy()
    ensures MarkSurvives(c, seen, m, now) <==> seen.generation <= m.generation
  {
    if seen.generation > m.generation {
      var unknown := Seeing(0).(known := false);
      var d := DecisionOn(c, seen.(policy := Some(CALM)), Some(m), unknown, now);
      assert Observed(unknown) && Sound(CALM) && d.next.phase == Active;
    } else {
      forall p: Policy, obs: Observation | Sound(p) && p.problems == []
        ensures DecisionOn(c, seen.(policy := Some(p)), Some(m), obs, now).next.phase == Unrecoverable
      {
        assert Loaded(Some(m), seen.(policy := Some(p)), now).phase == Unrecoverable;
      }
    }
  }

  /** Where it does not survive, a job that has failed is restarted with an empty budget. */
  lemma LostMarkIsTakenForAnEdit(c: Config, m: State, seen: Object, obs: Observation, now: Time)
    requires Configured(c) && now > 0 && c.maxRestarts > 0 && obs.known
    requires PlainFailure(c, m, seen.(mark := Some(Active)))
    requires seen.mark == Some(Unrecoverable) && seen.generation > m.generation && seen.nonce == m.restarts.lastNonce
    ensures DecisionOn(c, seen, Some(m), obs, now).action == Restart
    ensures DecisionOn(c, seen, Some(m), obs, now).next.restarts.count == 1
  {
    var live := LiveOf(seen);
    var before := Loaded(Some(m), seen, now);
    var cur := Tallied(c, Absorbed(AfterSpecEdit(before, live, now), obs, now), live, now);
    assert cur.restarts == Fresh(m.restarts.lastNonce);
    assert DecisionOn(c, seen, Some(m), obs, now) == OnFailing(c, cur, live, now);
  }

  // ---------------------------------------------------------------- a window charged too much

  const T := 63_000_000_000 * SECOND

  const ONE_RESTART := Config(1, 3600 * SECOND, 60 * SECOND, 3600 * SECOND, [], 60 * SECOND)

  const RESTARTING := Policy(Auto, ["orders"], 3600 * SECOND, 0, true, "", false, false, 0, [])

  const FAILED_JOB := Object(Running, Some(Active), FirstObservation, 0, 1, FailedLifecycle, JobFailed, Savepoint, false, "",
                             Some(RESTARTING), false)

  const RESTARTED_ONCE := FAILED_JOB.(nonce := UnixMilli(T), generation := 2, reason := RestartNumber(1))

  const GIVEN_UP := RESTARTED_ONCE.(mark := Some(Unrecoverable), reason := BudgetExhausted)

  const RESTARTED_TWICE :=
    GIVEN_UP.(mark := Some(Active), reason := RestartNumber(1), nonce := UnixMilli(T + 62 * SECOND), generation := 3)

  const FRESH_MEMORY := State(Active, Seeing(5).snapshot, T, 0, T, Fresh(0), FirstObservation, 1, 0, 0, false, 0)

  const SPENT_MEMORY :=
    FRESH_MEMORY.(restarts := RestartBudget(1, T, T + 60 * SECOND, UnixMilli(T)), reason := RestartNumber(1))

  /** One restart, saved; the budget found exhausted, and that save lost; the mark taken for cleared
      because our own restart raised the generation, a second restart, and its save lost as well; and
      the tick that counts it. */
  const OVERCHARGING_RUN := [
    Reconcile(FAILED_JOB, T, Seeing(5), Saved),
    Reconcile(RESTARTED_ONCE, T + 61 * SECOND, Seeing(5), SaveLost),
    Reconcile(GIVEN_UP, T + 62 * SECOND, Seeing(5), SaveLost),
    Reconcile(RESTARTED_TWICE, T + 63 * SECOND, Seeing(5), Saved)]

  lemma FirstRestart()
    ensures PlanOf(ONE_RESTART, FAILED_JOB, Some(FRESH_MEMORY), Seeing(5), T)
         == Plan(Some(Patch(Some(Active), RestartNumber(1), None, Some(UnixMilli(T)))), Save(SPENT_MEMORY))
  {
  }

  lemma GivesUp()
    ensures PlanOf(ONE_RESTART, RESTARTED_ONCE, Some(SPENT_MEMORY), Seeing(5), T + 61 * SECOND).patch
         == Some(Patch(Some(Unrecoverable), BudgetExhausted, None, None))
  {
  }

  lemma RestartsAgain()
    ensures PlanOf(ONE_RESTART, GIVEN_UP, Some(SPENT_MEMORY), Seeing(5), T + 62 * SECOND).patch
         == Some(Patch(Some(Active), RestartNumber(1), None, Some(UnixMilli(T + 62 * SECOND))))
  {
  }

  lemma CountsIt()
    ensures var plan := PlanOf(ONE_RESTART, RESTARTED_TWICE, Some(SPENT_MEMORY), Seeing(5), T + 63 * SECOND);
      && plan.patch == None && plan.memory.Save?
      && plan.memory.state.restarts.count == 2 && plan.memory.state.restarts.windowStart == T
  {
    var live, now := LiveOf(RESTARTED_TWICE), T + 63 * SECOND;
    var cur := Tallied(ONE_RESTART, Absorbed(AfterSpecEdit(SPENT_MEMORY, live, now), Seeing(5), now), live, now);
    assert cur.restarts == Consume(SPENT_MEMORY.restarts, now, 3600 * SECOND, 60 * SECOND).(lastNonce := live.nonce);
    ConsumedIsInBackoff(SPENT_MEMORY.restarts, now, 3600 * SECOND, 60 * SECOND);
  }

  function OverchargingState(i: nat): Cluster {
    if i == 0 then Cluster(FAILED_JOB, Some(FRESH_MEMORY)) else if i == 1 then Cluster(RESTARTED_ONCE, Some(SPENT_MEMORY))
    else if i == 2 then Cluster(GIVEN_UP, Some(SPENT_MEMORY)) else if i == 3 then Cluster(RESTARTED_TWICE, Some(SPENT_MEMORY))
    else After(ONE_RESTART, Cluster(RESTARTED_TWICE, Some(SPENT_MEMORY)), OVERCHARGING_RUN[3])
  }

  lemma FirstLeads()
    ensures Leads(ONE_RESTART, OverchargingState, OVERCHARGING_RUN, 0)
  {
    FirstRestart();
    assert Persisted(SPENT_MEMORY) == SPENT_MEMORY;
  }

  lemma SecondLeads()
    ensures Leads(ONE_RESTART, OverchargingState, OVERCHARGING_RUN, 1)
  {
    GivesUp();
  }

  lemma ThirdLeads()
    ensures Leads(ONE_RESTART, OverchargingState, OVERCHARGING_RUN, 2)
  {
    RestartsAgain();
  }

  lemma FourthLeads()
    ensures Leads(ONE_RESTART, OverchargingState, OVERCHARGING_RUN, 3)
    ensures var end := OverchargingState(4);
      end.mem.Some? && end.mem.value.restarts.windowStart == T && end.mem.value.restarts.count == 2
  {
    CountsIt();
  }

  lemma EachTickLeads(i: nat)
    requires i < 4
    ensures Leads(ONE_RESTART, OverchargingState, OVERCHARGING_RUN, i)
  {
    if i == 0 { FirstLeads(); } else if i == 1 { SecondLeads(); } else if i == 2 { ThirdLeads(); } else { FourthLeads(); }
  }

  /** Nobody edits the spec, and yet the window of the first restart is charged two, of one allowed. */
  lemma LostMarkOverchargesAWindow()
    ensures LegalRun(ONE_RESTART, OverchargingState(0), OVERCHARGING_RUN)
    ensures Final(ONE_RESTART, OverchargingState(0), OVERCHARGING_RUN) == OverchargingState(4)
    ensures var end := OverchargingState(4);
      && end.mem.Some? && end.mem.value.restarts.windowStart == T == SPENT_MEMORY.restarts.windowStart
      && end.mem.value.restarts.count == 2 > ONE_RESTART.maxRestarts
  {
    forall i: nat | i < 4 ensures Leads(ONE_RESTART, OverchargingState, OVERCHARGING_RUN, i) { EachTickLeads(i); }
    RunThrough(ONE_RESTART, OverchargingState, OVERCHARGING_RUN, 0);
    assert OVERCHARGING_RUN[0..] == OVERCHARGING_RUN;
    FourthLeads();
  }

  lemma OverchargingRunIsCredible()
    ensures Credible(OVERCHARGING_RUN, 0)
  {
    SeeingIsObserved(5);
  }

  /** The third tick is the one whose restart is lost and will not find room. */
  lemma ThirdTickHasNoRoom(b: Books)
    ensures LosesRestart(ONE_RESTART, OverchargingState(2), OVERCHARGING_RUN[2])
    ensures !WillCount(ONE_RESTART, OverchargingState(2), b, T + 62 * SECOND)
  {
    ThirdLeads();
  }

  // ---------------------------------------------------------------- restarts before the first save

  /** Without memory, a restart is counted exactly when the save of its own tick lands: otherwise the
      next tick takes its nonce for one that was there before. */
  lemma UnrememberedRestartCountsExactlyWhen(c: Config, w: Cluster, e: Event, clock: Time)
    requires Configured(c) && w.mem.None? && e.Reconcile? && Legal(c, w, e) && Timely(w, e, clock)
    requires After(c, w, e).obj.nonce != w.obj.nonce
    ensures BudgetOf(After(c, w, e)).count == 1 <==> e.outcome == Saved
    ensures e.outcome != Saved ==> BudgetOf(After(c, w, e)) == Fresh(After(c, w, e).obj.nonce)
  {
    TickMovesBudget(c, w, e, clock);
    assert Rolled(Fresh(w.obj.nonce), e.now, c.window).count == 0;
  }

  /** A failed job, seen for the first time, that nothing but the budget keeps from being restarted. */
  predicate Unremembered(c: Config, o: Object) {
    && c.maxRestarts > 0 && o.mark in {None, Some(Active)}
    && Decides(o) && Sound(o.policy.value) && o.policy.value.restart && !o.operatorRestarts
    && o.spec != Stopped && o.lifecycle == FailedLifecycle && o.job == JobFailed && o.error == ""
  }

  lemma UnrememberedIsRestarted(c: Config, o: Object, now: Time)
    requires Unremembered(c, o)
    ensures PlanOf(c, o, None, Seeing(5), now).patch == Some(Patch(Some(Active), RestartNumber(1), None, Some(UnixMilli(now))))
  {
    var before, live := Loaded(None, o, now), LiveOf(o);
    assert before == Initial(now).(restarts := Fresh(o.nonce));
    var cur := Tallied(c, Absorbed(AfterSpecEdit(before, live, now), Seeing(5), now), live, now);
    assert cur.restarts == Fresh(o.nonce);
    assert DecisionOn(c, o, None, Seeing(5), now) == OnFailing(c, cur, live, now);
  }

  function RestartedAt(o: Object, now: Time): Object {
    o.(nonce := UnixMilli(now), generation := o.generation + 1, mark := Some(Active), reason := RestartNumber(1))
  }

  /** A legal run of ticks each of which issues a restart and leaves no memory. */
  predicate Unrecorded(c: Config, w: Cluster, events: seq<Event>)
    decreases |events|
  {
    && w.mem == None
    && (events != [] ==>
          && events[0].Reconcile? && Legal(c, w, events[0]) && After(c, w, events[0]).obj.nonce != w.obj.nonce
          && Unrecorded(c, After(c, w, events[0]), events[1..]))
  }

  lemma StormGoesOn(c: Config, o: Object, now: Time)
    requires Unremembered(c, o) && o.nonce < UnixMilli(now)
    ensures var w, e := Cluster(o, None), Reconcile(o, now, Seeing(5), SaveLost);
      Legal(c, w, e) && After(c, w, e) == Cluster(RestartedAt(o, now), None)
    ensures Unremembered(c, RestartedAt(o, now)) && RestartedAt(o, now).nonce < UnixMilli(now + SECOND)
  {
    UnrememberedIsRestarted(c, o, now);
  }

  lemma StormFrom(c: Config, o: Object, now: Time, rest: seq<Event>)
    requires Unremembered(c, o) && o.nonce < UnixMilli(now) && Unrecorded(c, Cluster(RestartedAt(o, now), None), rest)
    ensures Unrecorded(c, Cluster(o, None), [Reconcile(o, now, Seeing(5), SaveLost)] + rest)
  {
    StormGoesOn(c, o, now);
    OneMoreUnrecorded(c, Cluster(o, None), Cluster(RestartedAt(o, now), None), Reconcile(o, now, Seeing(5), SaveLost), rest);
  }

  lemma OneMoreUnrecorded(c: Config, w: Cluster, w': Cluster, e: Event, rest: seq<Event>)
    requires w.mem == None && e.Reconcile? && Legal(c, w, e) && After(c, w, e) == w' && w'.obj.nonce != w.obj.nonce
    requires Unrecorded(c, w', rest)
    ensures Unrecorded(c, w, [e] + rest)
  {
    assert ([e] + rest)[0] == e && ([e] + rest)[1..] == rest;
  }

  /** As long as saves are lost, every tick restarts the job: for every n there is a run of n ticks that
      issues n restarts. */
  lemma {:induction false} LostSavesRestartForever(c: Config, o: Object, now: Time, n: nat) returns (storm: seq<Event>)
    requires Unremembered(c, o) && o.nonce < UnixMilli(now)
    ensures |storm| == n && Unrecorded(c, Cluster(o, None), storm) && Credible(storm, now - 1)
    decreases n
  {
    if n == 0 {
      storm := [];
    } else {
      StormGoesOn(c, o, now);
      var rest := LostSavesRestartForever(c, RestartedAt(o, now), now + SECOND, n - 1);
      StormFrom(c, o, now, rest);
      storm := [Reconcile(o, now, Seeing(5), SaveLost)] + rest;
      SeeingIsObserved(5);
      CredibleFirst(storm[0], rest, now - 1);
    }
  }

  /** And none of them is ever counted. */
  lemma {:induction false} NothingCountsBeforeTheFirstSave(c: Config, w: Cluster, events: seq<Event>, b: Books)
    requires Unrecorded(c, w, events)
    ensures LegalRun(c, w, events) && Final(c, w, events).mem == None
    ensures |FinalBooks(c, w, events, b).issued| == |b.issued| + |events|
    ensures FinalBooks(c, w, events, b).counted == b.counted
    decreases |events|
  {
    if events != [] {
      NothingCountsBeforeTheFirstSave(c, After(c, w, events[0]), events[1..], Booked(c, w, events[0], b));
      assert After(c, w, events[0]).mem == None;
    }
  }
}
