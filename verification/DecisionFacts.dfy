/** What any decision can and cannot do, over every policy, memory, object and observation. */
module DecisionFacts {
  import opened Clock
  import opened Budget
  import opened Memory
  import opened Policy
  import opened JobGate
  import opened Decider

  /** How a decision moves the phase. A resume leaves only a sleep the operator completed, a
      suspend only starts from a settled awake job, and the phase never becomes suspended or
      unrecoverable in any other way. */
  ghost predicate PhaseDiscipline(before: State, live: Live, d: Decision) {
    && (d.action == Suspend ==>
          before.phase == Active && d.next.phase == Suspended && !live.stopped && (live.lifecycle == Stable && live.job == JobRunning))
    && (d.action == Resume ==>
          before.phase == Suspended && d.next.phase == Active && live.stopped && live.lifecycle == SuspendedByOperator)
    && (d.action == Restart ==>
          before.phase != Suspended && d.next.phase == Active && !live.stopped && !(live.lifecycle == Stable && live.job == JobRunning))
    && (d.action == MarkUnrecoverable ==>
          before.phase != Suspended && d.next.phase == Unrecoverable && !live.stopped && !(live.lifecycle == Stable && live.job == JobRunning))
    && (d.action == Refuse ==> before.phase == Active && d.next.phase == Active && !live.stopped)
    && (d.next.phase == Suspended ==> d.action == Suspend || before.phase == Suspended)
    && (d.next.phase == Unrecoverable ==> d.action == MarkUnrecoverable || before.phase == Unrecoverable)
    && (before.phase == Suspended && live.stopped && d.action != Resume ==> d.next.phase == Suspended)
    && (before.phase == Active && live.stopped ==> d.next.phase == Active && d.action == Nothing)
  }

  lemma GatesKeepPhase(c: Config, p: Policy, cur: State, live: Live, obs: Observation, now: Time)
    ensures var d := ThroughGates(c, p, cur, live, obs, now);
      && d.action in {Nothing, Refuse, Suspend}
      && (d.action == Suspend ==> d.next.phase == Suspended && now > cur.awakeSince + p.minAwake)
      && (d.action != Suspend ==> d.next.phase == cur.phase)
      && d.next.restarts == cur.restarts
  {
  }

  lemma FailingKeepsPhase(c: Config, cur: State, live: Live, now: Time)
    ensures var d := OnFailing(c, cur, live, now);
      && d.action in {Nothing, Restart, MarkUnrecoverable}
      && d.next.phase == (if d.action == MarkUnrecoverable then Unrecoverable else cur.phase)
  {
  }

  lemma JudgementKeepsPhase(c: Config, p: Policy, cur: State, live: Live, obs: Observation, now: Time)
    requires cur.phase == Active
    ensures var d := Judged(c, p, cur, live, obs, now);
      && d.action != Resume
      && (d.action == Suspend ==> d.next.phase == Suspended && live.Settled() && now > cur.awakeSince + p.minAwake)
      && (d.action == MarkUnrecoverable ==> d.next.phase == Unrecoverable && !live.Settled())
      && (d.action == Restart ==> !live.Settled())
      && (d.action in {Nothing, Refuse, Restart} ==> d.next.phase == Active)
  {
    GatesKeepPhase(c, p, cur, live, obs, now);
    FailingKeepsPhase(c, cur, live, now);
  }

  lemma ActiveKeepsPhase(c: Config, p: Policy, prev: State, live: Live, obs: Observation, now: Time)
    requires prev.phase == Active && p.minAwake >= 0
    ensures var d := WhileActive(c, p, prev, live, obs, now);
      && d.action != Resume
      && (d.action == Suspend ==> d.next.phase == Suspended && live.Settled() && prev.awakeSince < now)
      && (d.action == MarkUnrecoverable ==> d.next.phase == Unrecoverable && !live.Settled())
      && (d.action == Restart ==> !live.Settled())
      && (d.action in {Nothing, Refuse, Restart} ==> d.next.phase == Active)
      && (d.action != Nothing ==> !live.stopped)
  {
    var seen := Absorbed(prev, obs, now);
    TallyKeepsEvidence(c, seen, live, now);
    JudgementKeepsPhase(c, p, Tallied(c, seen, live, now), live, obs, now);
  }

  lemma SuspendedKeepsPhase(p: Policy, prev: State, live: Live, obs: Observation, now: Time)
    requires prev.phase == Suspended
    ensures var d := WhileSuspended(p, prev, live, obs, now);
      && d.action in {Nothing, Resume}
      && (d.action == Resume ==> d.next.phase == Active && live.stopped && live.Asleep())
      && (d.action == Nothing && live.stopped ==> d.next.phase == Suspended)
      && (!live.stopped ==> d.next.phase == Active)
  {
  }

  lemma WeighingKeepsPhase(c: Config, p: Policy, prev: State, live: Live, obs: Observation, now: Time)
    requires Sound(p) && p.problems == []
    ensures PhaseDiscipline(prev, live, Weighed(c, p, prev, live, obs, now))
  {
    match prev.phase {
      case Active => ActiveKeepsPhase(c, p, prev, live, obs, now);
      case Suspended => SuspendedKeepsPhase(p, prev, live, obs, now);
      case Unrecoverable =>
    }
  }

  /** A job awake since this very tick is not idle: it passes no gate. */
  lemma ClearedNeverSleeps(c: Config, p: Policy, prev: State, live: Live, obs: Observation, now: Time)
    requires Sound(p) && p.problems == []
    requires prev.phase == Active && prev.lastActivityAt == now && !prev.refreshWake
    ensures Weighed(c, p, prev, live, obs, now).action !in {Suspend, Refuse}
  {
    if obs.known && !live.stopped {
      var cur := Tallied(c, Absorbed(prev, obs, now), live, now);
      TallyKeepsEvidence(c, Absorbed(prev, obs, now), live, now);
      FailingKeepsPhase(c, cur, live, now);
      assert !IdleLongEnough(p, cur, live, now);
    }
  }

  lemma DecisionKeepsPhaseDiscipline(c: Config, p: Policy, before: State, live: Live, obs: Observation, now: Time)
    requires Sound(p) && p.problems == []
    ensures PhaseDiscipline(before, live, Decide(c, p, before, live, obs, now))
  {
    var prev := AfterSpecEdit(before, live, now);
    WeighingKeepsPhase(c, p, prev, live, obs, now);
    if prev.phase != before.phase { ClearedNeverSleeps(c, p, prev, live, obs, now); }
  }

  /** Everything a suspend rests on: an observation that matches memory, an idle window that has
      passed or a refresh wake that found no input, a minimum time awake, and no restart memory
      has yet to count. In particular a suspend never changes the remembered snapshot. */
  ghost predicate SuspendEvidence(p: Policy, before: State, live: Live, obs: Observation, now: Time, next: State) {
    && obs.known && p.mode == Auto
    && obs.snapshot == before.snapshot && next.snapshot == before.snapshot
    && (now > before.lastActivityAt + p.idleAfter || (before.refreshWake && p.resumeFromGroup && live.upgradeMode == Stateless))
    && now > before.awakeSince + p.minAwake
    && live.nonce <= before.restarts.lastNonce
    && (live.upgradeMode in {Savepoint, LastState} || (live.upgradeMode == Stateless && p.resumeFromGroup && p.consumerGroup != ""))
    && (p.consumerGroup != "" ==> obs.lagKnown && obs.pending <= 0)
    && next.lastActivityAt == before.lastActivityAt && next.awakeSince == before.awakeSince
    && next.restarts == before.restarts
  }

  lemma GatesHaveEvidence(c: Config, p: Policy, cur: State, live: Live, obs: Observation, now: Time)
    ensures var d := ThroughGates(c, p, cur, live, obs, now);
      d.action == Suspend ==>
        && now > cur.awakeSince + p.minAwake
        && (live.KeepsPosition() || live.ResumesFromGroup(p))
        && (p.consumerGroup != "" ==> obs.lagKnown && obs.pending <= 0)
        && d.next.snapshot == cur.snapshot && d.next.lastActivityAt == cur.lastActivityAt
        && d.next.awakeSince == cur.awakeSince && d.next.restarts == cur.restarts
  {
  }

  /** The bookkeeping that comes before the gates changes nothing a suspend depends on, unless it
      counts a restart, which starts the minimum time awake afresh. */
  lemma TallyKeepsEvidence(c: Config, cur: State, live: Live, now: Time)
    ensures var t := Tallied(c, cur, live, now);
      && t.snapshot == cur.snapshot && t.lastActivityAt == cur.lastActivityAt && t.refreshWake == cur.refreshWake
      && t.phase == cur.phase
      && (if live.nonce > cur.restarts.lastNonce then t.awakeSince == now
          else t.awakeSince == cur.awakeSince && t.restarts == cur.restarts)
  {
  }

  lemma OnlyActiveSuspends(c: Config, p: Policy, before: State, live: Live, obs: Observation, now: Time)
    requires Decide(c, p, before, live, obs, now).action == Suspend
    ensures var prev := AfterSpecEdit(before, live, now);
      && prev.phase == Active && obs.known && !live.stopped
      && Decide(c, p, before, live, obs, now) == WhileActive(c, p, prev, live, obs, now)
  {
    var prev := AfterSpecEdit(before, live, now);
    if prev.phase == Suspended { SuspendedKeepsPhase(p, prev, live, obs, now); }
  }

  lemma SuspendHasEvidence(c: Config, p: Policy, before: State, live: Live, obs: Observation, now: Time)
    requires Sound(p) && p.problems == []
    requires Decide(c, p, before, live, obs, now).action == Suspend
    ensures SuspendEvidence(p, before, live, obs, now, Decide(c, p, before, live, obs, now).next)
  {
    OnlyActiveSuspends(c, p, before, live, obs, now);
    var prev := AfterSpecEdit(before, live, now);
    var seen := Absorbed(prev, obs, now);
    var cur := Tallied(c, seen, live, now);
    FailingKeepsPhase(c, cur, live, now);
    TallyKeepsEvidence(c, seen, live, now);
    GatesHaveEvidence(c, p, cur, live, obs, now);
  }

  /** With idle: job, a suspend also means that the job's gate answered idle. */
  lemma SuspendMeansJobIdle(c: Config, p: Policy, before: State, live: Live, obs: Observation, now: Time)
    requires Decide(c, p, before, live, obs, now).action == Suspend && p.idleFromJob
    ensures obs.readingKnown && Answered(p.sources, obs.ends, obs.reading, Quiet(c)).gate == JobIdle
  {
  }

  /** While a sleep lasts, memory keeps the snapshot it went to sleep with, whatever is observed. */
  lemma SleepKeepsSnapshot(c: Config, p: Policy, before: State, live: Live, obs: Observation, now: Time)
    requires before.phase == Suspended && live.stopped
    requires Decide(c, p, before, live, obs, now).action != Resume
    ensures Decide(c, p, before, live, obs, now).next.snapshot == before.snapshot
  {
  }

  /** When an asleep job is resumed under mode auto: exactly when the operator has finished, and
      the offsets moved or the longest sleep is over, and, for a job that resumes from its group,
      the group still has its offsets. */
  predicate ResumeIsDue(p: Policy, before: State, live: Live, obs: Observation, now: Time) {
    && live.lifecycle == SuspendedByOperator
    && (obs.snapshot != before.snapshot || (p.resumeFromGroup && live.upgradeMode == Stateless && p.maxSleep > 0 && now > before.suspendedAt + p.maxSleep))
    && (p.resumeFromGroup && live.upgradeMode == Stateless ==> !obs.uncommitted && obs.lagKnown)
  }

  lemma ResumesExactlyWhenDue(c: Config, p: Policy, before: State, live: Live, obs: Observation, now: Time)
    requires before.phase == Suspended && live.stopped && p.mode == Auto
    requires obs.known && !obs.unlearned
    ensures Decide(c, p, before, live, obs, now).action == Resume <==> ResumeIsDue(p, before, live, obs, now)
  {
  }

  /** How a decision moves the clocks it remembers. A new snapshot is absorbed only together with
      the time it was seen; the refresh flag outlives only ticks without movement; an awake state
      either keeps its clock or starts it now. */
  ghost predicate ClockDiscipline(before: State, obs: Observation, now: Time, d: Decision) {
    && (d.next.snapshot == before.snapshot
        || (obs.known && d.next.snapshot == obs.snapshot && d.next.lastActivityAt == now))
    && (d.next.lastActivityAt == before.lastActivityAt || d.next.lastActivityAt == now)
    && (d.next.refreshWake ==>
          d.next.snapshot == before.snapshot
          && (before.refreshWake || (before.phase == Suspended && d.action == Resume && d.next.reason.WokenAfter?)))
    && (d.next.phase == Suspended && before.phase == Suspended ==> d.next.snapshot == before.snapshot)
    && (d.next.phase == Active ==>
          d.next.awakeSince == now
          || (before.phase == Active && d.next.awakeSince == before.awakeSince
              && d.next.restarts.lastNonce == before.restarts.lastNonce && d.action != Restart))
  }

  lemma JudgementKeepsClocks(c: Config, p: Policy, cur: State, live: Live, obs: Observation, now: Time)
    ensures var d := Judged(c, p, cur, live, obs, now);
      && d.next.snapshot == cur.snapshot && d.next.lastActivityAt == cur.lastActivityAt
      && (d.next.refreshWake ==> cur.refreshWake)
      && (d.action == Restart ==> d.next.awakeSince == now)
      && (d.action != Restart ==> d.next.awakeSince == cur.awakeSince && d.next.restarts == cur.restarts)
  {
  }

  lemma SuspendedKeepsClocks(p: Policy, prev: State, live: Live, obs: Observation, now: Time)
    requires prev.phase == Suspended && obs.known
    ensures ClockDiscipline(prev, obs, now, WhileSuspended(p, prev, live, obs, now))
  {
  }

  lemma ActiveKeepsClocks(c: Config, p: Policy, prev: State, live: Live, obs: Observation, now: Time)
    requires prev.phase == Active && obs.known
    ensures ClockDiscipline(prev, obs, now, WhileActive(c, p, prev, live, obs, now))
  {
    if !live.stopped {
      var seen := Absorbed(prev, obs, now);
      TallyKeepsEvidence(c, seen, live, now);
      JudgementKeepsPhase(c, p, Tallied(c, seen, live, now), live, obs, now);
      JudgementKeepsClocks(c, p, Tallied(c, seen, live, now), live, obs, now);
    }
  }

  lemma WeighingKeepsClocks(c: Config, p: Policy, prev: State, live: Live, obs: Observation, now: Time)
    ensures ClockDiscipline(prev, obs, now, Weighed(c, p, prev, live, obs, now))
  {
    if prev.phase == Suspended && obs.known { SuspendedKeepsClocks(p, prev, live, obs, now); }
    if prev.phase == Active && obs.known { ActiveKeepsClocks(c, p, prev, live, obs, now); }
  }

  lemma DecisionKeepsClockDiscipline(c: Config, p: Policy, before: State, live: Live, obs: Observation, now: Time)
    ensures ClockDiscipline(before, obs, now, Decide(c, p, before, live, obs, now))
  {
    WeighingKeepsClocks(c, p, AfterSpecEdit(before, live, now), live, obs, now);
  }

  /** The budget a decision starts from: a spec edit on an unrecoverable job empties it, and a
      nonce memory has not recorded consumes a slot. */
  function StartBudget(before: State, live: Live): RestartBudget {
    if before.phase == Unrecoverable && live.generation > before.generation
    then Fresh(before.restarts.lastNonce) else before.restarts
  }

  function CaughtUpBudget(c: Config, before: State, live: Live, now: Time): RestartBudget {
    var b := StartBudget(before, live);
    if live.nonce > b.lastNonce then Consume(b, now, c.window, c.baseBackoff).(lastNonce := live.nonce) else b
  }

  lemma JudgementMovesBudget(c: Config, p: Policy, cur: State, live: Live, obs: Observation, now: Time)
    ensures var d := Judged(c, p, cur, live, obs, now);
      if d.action == Restart then
        && !InBackoff(cur.restarts, now, c.window) && !Exhausted(cur.restarts, now, c.maxRestarts, c.window)
        && d.next.restarts == Consume(cur.restarts, now, c.window, c.baseBackoff).(lastNonce := UnixMilli(now))
      else d.next.restarts == cur.restarts
  {
    GatesKeepPhase(c, p, cur, live, obs, now);
    FailingKeepsPhase(c, cur, live, now);
  }

  lemma SuspendedKeepsBudget(p: Policy, prev: State, live: Live, obs: Observation, now: Time)
    ensures var d := WhileSuspended(p, prev, live, obs, now);
      d.action != Restart && d.next.restarts == prev.restarts
  {
  }

  /** An unrecoverable job that no spec edit clears in this tick. */
  predicate StaysUnrecoverable(before: State, live: Live) {
    before.phase == Unrecoverable && (live.OperatorBusy() || live.generation <= before.generation)
  }

  /** The only ways a decision writes the budget. */
  ghost predicate BudgetDiscipline(c: Config, before: State, live: Live, now: Time, d: Decision) {
    var b := CaughtUpBudget(c, before, live, now);
    if d.action == Restart then
      && !StaysUnrecoverable(before, live) && d.next.phase == Active
      && !InBackoff(b, now, c.window) && !Exhausted(b, now, c.maxRestarts, c.window)
      && d.next.restarts == Consume(b, now, c.window, c.baseBackoff).(lastNonce := UnixMilli(now))
    else if StaysUnrecoverable(before, live) then
      d.next.phase == Unrecoverable && d.next.restarts == before.restarts
    else
      d.next.restarts == StartBudget(before, live) || d.next.restarts == b
  }

  lemma UnrecoverableKeepsBudget(c: Config, p: Policy, prev: State, live: Live, obs: Observation, now: Time)
    requires prev.phase == Unrecoverable
    ensures var d := Weighed(c, p, prev, live, obs, now);
      d.action == Nothing && d.next.phase == Unrecoverable && d.next.restarts == prev.restarts
  {
  }

  lemma TallyCatchesUp(c: Config, prev: State, live: Live, obs: Observation, now: Time)
    requires prev.phase == Active
    ensures var cur := Tallied(c, Absorbed(prev, obs, now), live, now);
      cur.phase == Active && cur.restarts == CaughtUpBudget(c, prev, live, now)
  {
  }

  lemma ActiveMovesBudget(c: Config, p: Policy, prev: State, live: Live, obs: Observation, now: Time)
    requires prev.phase == Active
    ensures var d, b := WhileActive(c, p, prev, live, obs, now), CaughtUpBudget(c, prev, live, now);
      if d.action == Restart then
        && d.next.phase == Active && !InBackoff(b, now, c.window) && !Exhausted(b, now, c.maxRestarts, c.window)
        && d.next.restarts == Consume(b, now, c.window, c.baseBackoff).(lastNonce := UnixMilli(now))
      else d.next.restarts == prev.restarts || d.next.restarts == b
  {
    if !live.stopped {
      var cur := Tallied(c, Absorbed(prev, obs, now), live, now);
      TallyCatchesUp(c, prev, live, obs, now);
      JudgementMovesBudget(c, p, cur, live, obs, now);
      JudgementKeepsPhase(c, p, cur, live, obs, now);
      assert WhileActive(c, p, prev, live, obs, now) == Judged(c, p, cur, live, obs, now);
    }
  }

  /** The same once the generation is up to date. */
  lemma WeighingKeepsBudget(c: Config, p: Policy, prev: State, live: Live, obs: Observation, now: Time)
    requires prev.phase != Unrecoverable
    ensures var d, b := Weighed(c, p, prev, live, obs, now), CaughtUpBudget(c, prev, live, now);
      if d.action == Restart then
        && d.next.phase == Active && !InBackoff(b, now, c.window) && !Exhausted(b, now, c.maxRestarts, c.window)
        && d.next.restarts == Consume(b, now, c.window, c.baseBackoff).(lastNonce := UnixMilli(now))
      else d.next.restarts == prev.restarts || d.next.restarts == b
  {
    if prev.phase == Active { ActiveMovesBudget(c, p, prev, live, obs, now); } else { SuspendedKeepsBudget(p, prev, live, obs, now); }
  }

  lemma DecisionKeepsBudgetDiscipline(c: Config, p: Policy, before: State, live: Live, obs: Observation, now: Time)
    ensures BudgetDiscipline(c, before, live, now, Decide(c, p, before, live, obs, now))
  {
    var prev := AfterSpecEdit(before, live, now);
    assert prev.restarts == StartBudget(before, live) == StartBudget(prev, live);
    assert CaughtUpBudget(c, prev, live, now) == CaughtUpBudget(c, before, live, now);
    if prev.phase == Unrecoverable { UnrecoverableKeepsBudget(c, p, prev, live, obs, now); }
    else { WeighingKeepsBudget(c, p, prev, live, obs, now); }
  }
}
