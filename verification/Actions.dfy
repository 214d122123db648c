/** When each action is taken, for every input, in terms of the fields themselves. */
module Actions {
  import opened Clock
  import opened Budget
  import opened Memory
  import opened Policy
  import opened JobGate
  import opened Decider
  import opened DecisionFacts

  // ---------------------------------------------------------------- the fields, put into words

  /** The job resumes from its group's offsets: it keeps no state, and its policy says so. */
  predicate FromGroup(p: Policy, live: Live) { p.resumeFromGroup && live.upgradeMode == Stateless }

  /** Stopping the job loses nothing it has read. */
  predicate PositionIsKept(p: Policy, live: Live) {
    live.upgradeMode == Savepoint || live.upgradeMode == LastState || FromGroup(p, live)
  }

  predicate RunsFine(live: Live) { live.lifecycle == Stable && live.job == JobRunning }

  predicate Changing(live: Live) { live.lifecycle == Upgrading || live.lifecycle == RollingBack }

  /** Unrecoverable, until a newer generation says that the spec was edited. */
  predicate ClearedNow(before: State, live: Live) { before.phase == Unrecoverable && live.generation > before.generation }

  predicate AwakeNow(before: State, live: Live) { before.phase == Active || ClearedNow(before, live) }

  /** An awake job under mode auto that runs, has seen no new offsets, and is past its idle window or on
      a refresh wake, and past its minimum time awake. */
  predicate IdleNow(p: Policy, before: State, live: Live, obs: Observation, now: Time) {
    && before.phase == Active && !live.stopped && p.mode == Auto && obs.known && RunsFine(live)
    && obs.snapshot == before.snapshot && live.nonce <= before.restarts.lastNonce
    && (now > before.lastActivityAt + p.idleAfter || (before.refreshWake && FromGroup(p, live)))
    && now > before.awakeSince + p.minAwake
  }

  predicate LagOpen(p: Policy, obs: Observation) { p.consumerGroup == "" || (obs.lagKnown && obs.pending <= 0) }

  function QuietTime(c: Config): Duration { if c.quiet <= 0 then 60_000_000_000 else c.quiet }

  predicate JobOpen(c: Config, p: Policy, obs: Observation) {
    p.idleFromJob ==>
      && obs.readingKnown && AllKnown(p.sources, obs.ends, obs.reading) && AllCaughtUp(p.sources, obs.ends, obs.reading)
      && QuietTime(c) <= obs.reading.idleFor
  }

  function Later(a: Time, b: Time): Time { if a >= b then a else b }

  /** Since when the job counts as awake and as RESTARTING in this tick. */
  function AwakeFrom(before: State, live: Live, now: Time): Time {
    if ClearedNow(before, live) || live.nonce > before.restarts.lastNonce then now else before.awakeSince
  }

  function RestartingFrom(before: State, now: Time): Time {
    if before.restartingSince == 0 then now else before.restartingSince
  }

  predicate FailsNow(c: Config, before: State, live: Live, now: Time) {
    || live.job == JobFailed
    || live.lifecycle == FailedLifecycle
    || (live.job == JobRestarting && now > Later(AwakeFrom(before, live, now), RestartingFrom(before, now)) + c.failingAfter)
  }

  ghost predicate HoldsPattern(c: Config, live: Live) {
    live.error != "" && exists i :: 0 <= i < |c.patterns| && c.patterns[i] != "" && Contains(live.error, c.patterns[i])
  }

  /** An awake job the controller may look at, with restarts on. */
  predicate Judgeable(p: Policy, before: State, live: Live, obs: Observation) {
    AwakeNow(before, live) && !live.stopped && obs.known && !Changing(live) && p.restart
  }

  lemma {:induction false} PatternMeaning(patterns: seq<string>, error: string)
    ensures MatchedPattern(patterns, error).Some?
       <==> error != "" && exists i :: 0 <= i < |patterns| && patterns[i] != "" && Contains(error, patterns[i])
  {
    if error != "" && patterns != [] {
      PatternMeaning(patterns[1..], error);
      if patterns[0] == "" || !Contains(error, patterns[0]) {
        if i :| 0 <= i < |patterns| && patterns[i] != "" && Contains(error, patterns[i]) {
          assert patterns[1..][i - 1] == patterns[i];
        }
        if j :| 0 <= j < |patterns[1..]| && patterns[1..][j] != "" && Contains(error, patterns[1..][j]) {
          assert patterns[j + 1] == patterns[1..][j];
        }
      }
    }
  }

  // ---------------------------------------------------------------- suspending and refusing

  lemma GateOpenMeaning(c: Config, p: Policy, obs: Observation)
    ensures p.idleFromJob && GateAnswer(c, p, obs).gate != JobIdle <==> !JobOpen(c, p, obs)
  {
    IdleExactlyWhen(p.sources, obs.ends, obs.reading, Quiet(c));
  }

  lemma GatesMeaning(c: Config, p: Policy, cur: State, live: Live, obs: Observation, now: Time)
    ensures var a := ThroughGates(c, p, cur, live, obs, now).action;
      && (a == Suspend <==> now > cur.awakeSince + p.minAwake && PositionIsKept(p, live) && LagOpen(p, obs) && JobOpen(c, p, obs))
      && (a == Refuse <==> now > cur.awakeSince + p.minAwake && !PositionIsKept(p, live))
      && a in {Suspend, Refuse, Nothing}
  {
    GateOpenMeaning(c, p, obs);
  }

  lemma JudgementMeaning(c: Config, p: Policy, cur: State, live: Live, obs: Observation, now: Time)
    ensures var a := Judged(c, p, cur, live, obs, now).action;
      a in {Suspend, Refuse} ==>
        p.mode == Auto && RunsFine(live) && IdleLongEnough(p, cur, live, now) && a == ThroughGates(c, p, cur, live, obs, now).action
    ensures p.mode == Auto && RunsFine(live) && IdleLongEnough(p, cur, live, now) ==>
      Judged(c, p, cur, live, obs, now) == ThroughGates(c, p, cur, live, obs, now)
  {
    FailingKeepsPhase(c, cur, live, now);
  }

  /** Whether an awake job goes through the gates. */
  lemma ReachesGatesExactlyWhen(c: Config, p: Policy, before: State, live: Live, obs: Observation, now: Time)
    requires Sound(p) && p.problems == []
    ensures var a := Decide(c, p, before, live, obs, now).action;
      && (a == Suspend <==> IdleNow(p, before, live, obs, now) && PositionIsKept(p, live) && LagOpen(p, obs) && JobOpen(c, p, obs))
      && (a == Refuse <==> IdleNow(p, before, live, obs, now) && !PositionIsKept(p, live))
  {
    var prev := AfterSpecEdit(before, live, now);
    match prev.phase {
      case Active =>
        var cur := AwakeState(c, before, live, obs, now);
        TallyIsAwakeState(c, before, live, obs, now);
        GatesMeaning(c, p, cur, live, obs, now);
        JudgementMeaning(c, p, cur, live, obs, now);
        if prev.phase != before.phase { ClearedNeverSleeps(c, p, prev, live, obs, now); }
      case Suspended => SuspendedKeepsPhase(p, prev, live, obs, now);
      case Unrecoverable =>
    }
  }

  /** The job is suspended exactly when it is idle, keeps its position, and nothing objects. In
      particular a stateless job is suspended only with a group to resume from. */
  lemma SuspendsExactly(c: Config, p: Policy, before: State, live: Live, obs: Observation, now: Time)
    requires Sound(p) && p.problems == []
    ensures Decide(c, p, before, live, obs, now).action == Suspend
       <==> IdleNow(p, before, live, obs, now) && PositionIsKept(p, live) && LagOpen(p, obs) && JobOpen(c, p, obs)
    ensures Decide(c, p, before, live, obs, now).action == Suspend ==>
      live.upgradeMode in {Savepoint, LastState} || (live.upgradeMode == Stateless && p.resumeFromGroup && p.consumerGroup != "")
  {
    ReachesGatesExactlyWhen(c, p, before, live, obs, now);
  }

  /** It is refused exactly when it is idle and would lose its position. */
  lemma RefusesExactly(c: Config, p: Policy, before: State, live: Live, obs: Observation, now: Time)
    requires Sound(p) && p.problems == []
    ensures Decide(c, p, before, live, obs, now).action == Refuse
       <==> && IdleNow(p, before, live, obs, now) && live.upgradeMode != Savepoint && live.upgradeMode != LastState
            && !(live.upgradeMode == Stateless && p.resumeFromGroup)
  {
    ReachesGatesExactlyWhen(c, p, before, live, obs, now);
  }

  // ---------------------------------------------------------------- restarting and giving up

  /** What is remembered of an awake job before anything is decided. */
  function AwakeState(c: Config, before: State, live: Live, obs: Observation, now: Time): State {
    var cleared, moved := ClearedNow(before, live), obs.snapshot != before.snapshot;
    State(
      Active,
      obs.snapshot,
      if cleared || moved then now else before.lastActivityAt,
      if cleared then 0 else before.suspendedAt,
      AwakeFrom(before, live, now),
      CaughtUpBudget(c, before, live, now),
      if cleared then SpecChanged else before.reason,
      live.generation,
      if RunsFine(live) then 0 else before.resumedAt,
      before.pending,
      before.refreshWake && !cleared && !moved,
      if live.job == JobRestarting then RestartingFrom(before, now) else 0)
  }

  lemma TallyIsAwakeState(c: Config, before: State, live: Live, obs: Observation, now: Time)
    requires AwakeNow(before, live)
    ensures Tallied(c, Absorbed(AfterSpecEdit(before, live, now), obs, now), live, now) == AwakeState(c, before, live, obs, now)
  {
  }

  lemma FailingMeaning(c: Config, before: State, live: Live, obs: Observation, now: Time)
    requires AwakeNow(before, live)
    ensures Failing(c, live, AwakeState(c, before, live, obs, now), now) <==> FailsNow(c, before, live, now)
  {
  }

  lemma JudgedRestarts(c: Config, p: Policy, cur: State, live: Live, obs: Observation, now: Time)
    ensures var a, pattern := Judged(c, p, cur, live, obs, now).action, MatchedPattern(c.patterns, live.error).Some?;
      && (a == Restart <==>
            && p.restart && !(pattern && !RunsFine(live)) && !live.operatorRestarts && Failing(c, live, cur, now)
            && !InBackoff(cur.restarts, now, c.window) && !Exhausted(cur.restarts, now, c.maxRestarts, c.window))
      && (a == MarkUnrecoverable <==>
            && p.restart
            && ((pattern && !RunsFine(live))
                || (!live.operatorRestarts && Failing(c, live, cur, now)
                    && !InBackoff(cur.restarts, now, c.window) && Exhausted(cur.restarts, now, c.maxRestarts, c.window))))
  {
    GatesMeaning(c, p, cur, live, obs, now);
  }

  lemma RunsFineDoesNotFail(c: Config, before: State, live: Live, now: Time)
    requires FailsNow(c, before, live, now)
    ensures !RunsFine(live)
  {
  }

  lemma JudgesExactlyWhen(c: Config, p: Policy, before: State, live: Live, obs: Observation, now: Time)
    requires Sound(p) && p.problems == []
    ensures var a, b := Decide(c, p, before, live, obs, now).action, CaughtUpBudget(c, before, live, now);
      && (a == Restart <==>
            && Judgeable(p, before, live, obs) && FailsNow(c, before, live, now) && !HoldsPattern(c, live) && !live.operatorRestarts
            && !InBackoff(b, now, c.window) && !Exhausted(b, now, c.maxRestarts, c.window))
      && (a == MarkUnrecoverable <==>
            && Judgeable(p, before, live, obs)
            && ((HoldsPattern(c, live) && !RunsFine(live))
                || (FailsNow(c, before, live, now) && !live.operatorRestarts
                    && !InBackoff(b, now, c.window) && Exhausted(b, now, c.maxRestarts, c.window))))
  {
    var prev := AfterSpecEdit(before, live, now);
    PatternMeaning(c.patterns, live.error);
    if FailsNow(c, before, live, now) { RunsFineDoesNotFail(c, before, live, now); }
    match prev.phase {
      case Active =>
        FailingMeaning(c, before, live, obs, now);
        TallyIsAwakeState(c, before, live, obs, now);
        JudgedRestarts(c, p, Tallied(c, Absorbed(prev, obs, now), live, now), live, obs, now);
      case Suspended => SuspendedKeepsPhase(p, prev, live, obs, now);
      case Unrecoverable =>
    }
  }

  /** A job is restarted exactly when it is awake and failing, nobody else sees to it, its error is not
      listed as hopeless, and its budget, with all restarts counted, is not in backoff and not spent. */
  lemma RestartsExactly(c: Config, p: Policy, before: State, live: Live, obs: Observation, now: Time)
    requires Sound(p) && p.problems == []
    ensures var b := CaughtUpBudget(c, before, live, now);
      Decide(c, p, before, live, obs, now).action == Restart
      <==> && Judgeable(p, before, live, obs) && FailsNow(c, before, live, now) && !HoldsPattern(c, live) && !live.operatorRestarts
           && !InBackoff(b, now, c.window) && !Exhausted(b, now, c.maxRestarts, c.window)
  {
    JudgesExactlyWhen(c, p, before, live, obs, now);
  }

  /** It is given up exactly when its error is listed as hopeless, or it fails with its budget spent and
      no backoff left to wait for. */
  lemma GivesUpExactly(c: Config, p: Policy, before: State, live: Live, obs: Observation, now: Time)
    requires Sound(p) && p.problems == []
    ensures var b := CaughtUpBudget(c, before, live, now);
      Decide(c, p, before, live, obs, now).action == MarkUnrecoverable
      <==> && Judgeable(p, before, live, obs)
           && ((HoldsPattern(c, live) && !RunsFine(live))
               || (FailsNow(c, before, live, now) && !live.operatorRestarts
                   && !InBackoff(b, now, c.window) && Exhausted(b, now, c.maxRestarts, c.window)))
  {
    JudgesExactlyWhen(c, p, before, live, obs, now);
  }

  // ---------------------------------------------------------------- resuming

  /** The offsets differ from the remembered ones, or a job that resumes from its group has slept longer
      than it may. */
  predicate WakeDue(p: Policy, before: State, live: Live, obs: Observation, now: Time) {
    || obs.snapshot != before.snapshot
    || (FromGroup(p, live) && p.maxSleep > 0 && now > before.suspendedAt + p.maxSleep)
  }

  /** A job is resumed exactly when it is asleep by the controller's hand, the operator has finished, and:
      mode off hands it back; or nothing is known of its topics and it keeps its own position; or its
      offsets are known, a wake is due, and a group that holds its position still has it. */
  lemma ResumesExactly(c: Config, p: Policy, before: State, live: Live, obs: Observation, now: Time)
    requires Sound(p) && p.problems == []
    ensures Decide(c, p, before, live, obs, now).action == Resume
       <==> && before.phase == Suspended && live.stopped && live.lifecycle == SuspendedByOperator
            && (if p.mode == Off then true
                else if obs.unlearned then !FromGroup(p, live)
                else obs.known && WakeDue(p, before, live, obs, now) && (FromGroup(p, live) ==> !obs.uncommitted && obs.lagKnown))
  {
    var prev := AfterSpecEdit(before, live, now);
    match prev.phase {
      case Active => ActiveKeepsPhase(c, p, prev, live, obs, now);
      case Suspended =>
      case Unrecoverable =>
    }
  }

  // ---------------------------------------------------------------- what is remembered

  /** What an idle job that is not put to sleep says for itself: the first gate in its way. */
  function Held(c: Config, p: Policy, awake: State, live: Live, obs: Observation): State {
    if p.consumerGroup != "" && !obs.lagKnown then awake.(reason := LagUnknown(p.consumerGroup))
    else if p.consumerGroup != "" && obs.pending > 0 then awake.(pending := obs.pending, reason := RecordsPending(p.consumerGroup))
    else
      var caught := if p.consumerGroup == "" then awake else awake.(pending := 0);
      if !obs.readingKnown then caught.(reason := JobNotKnown(Reported(obs.readingNote)))
      else
        var answer := Answered(p.sources, obs.ends, obs.reading, QuietTime(c));
        caught.(reason := if answer.gate == JobUnknown then JobNotKnown(answer.note) else JobBusyNow(answer.note))
  }

  /** The state of an awake job with known offsets after each decision. */
  function AwakeNext(c: Config, p: Policy, before: State, live: Live, obs: Observation, now: Time, action: Action): State {
    var awake := AwakeState(c, before, live, obs, now);
    match action
    case Suspend =>
      awake.(phase := Suspended, suspendedAt := now, refreshWake := false,
             reason := if awake.refreshWake then Refreshed else NoInputFor(p.idleAfter),
             pending := if p.consumerGroup == "" then awake.pending else 0)
    case Refuse => awake.(reason := RefusedMode(live.upgradeMode))
    case Restart =>
      var spent := Consume(awake.restarts, now, c.window, c.baseBackoff).(lastNonce := UnixMilli(now));
      awake.(restarts := spent, awakeSince := now, reason := RestartNumber(spent.count))
    case MarkUnrecoverable =>
      var pattern := MatchedPattern(c.patterns, live.error);
      awake.(phase := Unrecoverable,
             reason := if pattern.Some? && !RunsFine(live) then MatchesPattern(pattern.value) else BudgetExhausted)
    case Nothing => if IdleNow(p, before, live, obs, now) then Held(c, p, awake, live, obs) else awake
    case Resume => awake
  }

  lemma GatesRemember(c: Config, p: Policy, cur: State, live: Live, obs: Observation, now: Time)
    ensures var d := ThroughGates(c, p, cur, live, obs, now);
      && (d.action == Suspend ==>
            d.next == cur.(phase := Suspended, suspendedAt := now, refreshWake := false,
                           reason := if cur.refreshWake then Refreshed else NoInputFor(p.idleAfter),
                           pending := if p.consumerGroup == "" then cur.pending else 0))
      && (d.action == Refuse ==> d.next == cur.(reason := RefusedMode(live.upgradeMode)))
      && (d.action == Nothing ==> d.next == if now > cur.awakeSince + p.minAwake then Held(c, p, cur, live, obs) else cur)
  {
    GateOpenMeaning(c, p, obs);
  }

  lemma JudgedRemembers(c: Config, p: Policy, cur: State, live: Live, obs: Observation, now: Time)
    requires cur.phase == Active
    ensures var d := Judged(c, p, cur, live, obs, now);
      && (d.action == Restart ==>
            var spent := Consume(cur.restarts, now, c.window, c.baseBackoff).(lastNonce := UnixMilli(now));
            d.next == cur.(restarts := spent, awakeSince := now, reason := RestartNumber(spent.count)))
      && (d.action == MarkUnrecoverable ==>
            var pattern := MatchedPattern(c.patterns, live.error);
            d.next == cur.(phase := Unrecoverable,
                           reason := if pattern.Some? && !RunsFine(live) then MatchesPattern(pattern.value) else BudgetExhausted))
      && (d.action in {Suspend, Refuse} ==> d == ThroughGates(c, p, cur, live, obs, now))
      && (d.action == Nothing ==>
            if p.mode == Auto && RunsFine(live) && IdleLongEnough(p, cur, live, now)
            then d == ThroughGates(c, p, cur, live, obs, now) else d.next == cur)
  {
    JudgementMeaning(c, p, cur, live, obs, now);
  }

  /** Whether the state before any decision is past the idle window and the minimum time awake. */
  lemma IdleMeaning(c: Config, p: Policy, before: State, live: Live, obs: Observation, now: Time)
    requires Sound(p) && p.problems == [] && AwakeNow(before, live) && !live.stopped && obs.known
    ensures var awake := AwakeState(c, before, live, obs, now);
      p.mode == Auto && RunsFine(live) && IdleLongEnough(p, awake, live, now) && now > awake.awakeSince + p.minAwake
      <==> IdleNow(p, before, live, obs, now)
  {
  }

  /** All that is remembered of an awake job with known offsets, whatever is decided. */
  lemma AwakeRemembers(c: Config, p: Policy, before: State, live: Live, obs: Observation, now: Time)
    requires Sound(p) && p.problems == [] && AwakeNow(before, live) && !live.stopped && obs.known && !Changing(live)
    ensures var d := Decide(c, p, before, live, obs, now);
      d.next == AwakeNext(c, p, before, live, obs, now, d.action)
  {
    var awake := AwakeState(c, before, live, obs, now);
    TallyIsAwakeState(c, before, live, obs, now);
    IdleMeaning(c, p, before, live, obs, now);
    assert Decide(c, p, before, live, obs, now) == Judged(c, p, awake, live, obs, now);
    JudgedRemembers(c, p, awake, live, obs, now);
    GatesRemember(c, p, awake, live, obs, now);
    JudgedRestarts(c, p, awake, live, obs, now);
    GatesMeaning(c, p, awake, live, obs, now);
  }

  /** All that is remembered of a sleeping job that stays asleep: the offsets it sleeps with, whatever is
      seen; the time of new input; and why a wake that is due has to wait. */
  lemma AsleepRemembers(c: Config, p: Policy, before: State, live: Live, obs: Observation, now: Time)
    requires before.phase == Suspended && live.stopped && p.mode == Auto && obs.known && !obs.unlearned && !Changing(live)
    requires Decide(c, p, before, live, obs, now).action == Nothing
    ensures var moved := obs.snapshot != before.snapshot;
      Decide(c, p, before, live, obs, now).next == before.(
        generation := live.generation,
        lastActivityAt := if moved then now else before.lastActivityAt,
        refreshWake := before.refreshWake && !moved,
        reason := if live.lifecycle != SuspendedByOperator || !WakeDue(p, before, live, obs, now) then before.reason
                  else if obs.uncommitted then OffsetsMissing(p.consumerGroup) else LagUnknown(p.consumerGroup))
  {
  }

  /** All that is remembered of a resume. */
  lemma ResumeRemembers(c: Config, p: Policy, before: State, live: Live, obs: Observation, now: Time)
    requires Sound(p) && p.problems == [] && Decide(c, p, before, live, obs, now).action == Resume
    ensures var next := Decide(c, p, before, live, obs, now).next;
      var awake := before.(phase := Active, suspendedAt := 0, awakeSince := now);
      if p.mode == Off then next == awake.(lastActivityAt := now, refreshWake := false, reason := SuspensionOff)
      else if obs.unlearned then
        next == awake.(lastActivityAt := now, refreshWake := false, reason := Relearn, resumedAt := now, generation := live.generation)
      else if obs.snapshot != before.snapshot then
        next == awake.(lastActivityAt := now, refreshWake := false, reason := InputObserved, resumedAt := now,
                       generation := live.generation, snapshot := obs.snapshot)
      else
        next == awake.(refreshWake := true, reason := WokenAfter(p.maxSleep), resumedAt := now, generation := live.generation)
  {
    ResumesExactly(c, p, before, live, obs, now);
  }

  /** What is remembered where nothing can be told, or the job is not the controller's to act on. */
  lemma WaitingRemembers(c: Config, p: Policy, before: State, live: Live, obs: Observation, now: Time)
    ensures Changing(live) ==> Decide(c, p, before, live, obs, now) == Decision(Nothing, before)
    ensures !Changing(live) && !obs.known && before.phase == Active ==>
      Decide(c, p, before, live, obs, now)
      == Decision(Nothing, before.(generation := live.generation, reason := if obs.why == "" then before.reason else Because(obs.why)))
    ensures !Changing(live) && obs.known && before.phase == Active && live.stopped ==>
      var moved := obs.snapshot != before.snapshot;
      Decide(c, p, before, live, obs, now)
      == Decision(Nothing, before.(generation := live.generation, snapshot := obs.snapshot, reason := SuspendedOutside,
                                   lastActivityAt := if moved then now else before.lastActivityAt,
                                   refreshWake := before.refreshWake && !moved))
    ensures !Changing(live) && obs.known && before.phase == Suspended && !live.stopped ==>
      Decide(c, p, before, live, obs, now)
      == Decision(Nothing, before.(phase := Active, generation := live.generation, snapshot := obs.snapshot, reason := ResumedOutside,
                                   suspendedAt := 0, awakeSince := now, lastActivityAt := now, refreshWake := false))
    ensures !Changing(live) && obs.known && before.phase == Unrecoverable && live.generation <= before.generation ==>
      var moved := obs.snapshot != before.snapshot;
      Decide(c, p, before, live, obs, now)
      == Decision(Nothing, before.(generation := live.generation, snapshot := obs.snapshot,
                                   reason := if before.reason == NoReason then UnrecoverableUnexplained else before.reason,
                                   lastActivityAt := if moved then now else before.lastActivityAt,
                                   refreshWake := before.refreshWake && !moved))
  {
  }

  /** And of a sleeping job whose wake cannot be judged. */
  lemma UnjudgedRemembers(c: Config, p: Policy, before: State, live: Live, obs: Observation, now: Time)
    requires before.phase == Suspended && live.stopped && !Changing(live)
    ensures p.mode == Off && live.lifecycle != SuspendedByOperator ==> Decide(c, p, before, live, obs, now) == Decision(Nothing, before)
    ensures p.mode == Auto && obs.unlearned && (live.lifecycle != SuspendedByOperator || FromGroup(p, live)) ==>
      Decide(c, p, before, live, obs, now)
      == Decision(Nothing, before.(generation := live.generation,
                                   reason := if live.lifecycle != SuspendedByOperator then before.reason else RelearnHeld))
    ensures p.mode == Auto && !obs.unlearned && !obs.known ==>
      Decide(c, p, before, live, obs, now)
      == Decision(Nothing, before.(generation := live.generation, reason := if obs.why == "" then before.reason else Because(obs.why)))
  {
  }
}
